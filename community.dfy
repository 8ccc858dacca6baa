/**
 * The community board: searching shared posts, ordering them by tab, liking a post, and
 * the destination badges on each card.
 */
module Community {
  import opened Wrappers
  import opened Lists
  import opened Sorting
  import opened Text
  import opened Records
  import opened Store

  /**
   * The search predicate: the lowercased title contains the lowercased query, or the post has
   * an author whose lowercased name does (a post without an author matches on its title only).
   */
  predicate MatchesSearch(post: Post, query: string)
  {
    Contains(Lower(post.title), Lower(query)) ||
    (post.authorName.Some? && Contains(Lower(post.authorName.value), Lower(query)))
  }

  function Matches(query: string): Post -> bool
  {
    (p: Post) => MatchesSearch(p, query)
  }

  /** `filteredPosts`. */
  function FilterPosts(posts: seq<Post>, query: string): (r: seq<Post>)
    ensures IsSublist(r, posts)
    ensures forall p :: p in r <==> p in posts && MatchesSearch(p, query)
    ensures forall p :: p in posts ==> multiset(r)[p] == if MatchesSearch(p, query) then multiset(posts)[p] else 0
  {
    var r := Filter(posts, Matches(query));
    forall p ensures p in r <==> p in posts && MatchesSearch(p, query) {
      FilterMembership(posts, Matches(query), p);
    }
    FilterCounts(posts, Matches(query));
    r
  }

  /** An empty search box shows every post, in list order. */
  lemma EmptyQueryKeepsAll(posts: seq<Post>)
    ensures FilterPosts(posts, "") == posts
  {
    forall i | 0 <= i < |posts| ensures Matches("")(posts[i]) {
      EmptyContained(Lower(posts[i].title));
    }
    FilterKeepsAll(posts, Matches(""));
  }

  /** The order each tab sorts by: likes (missing = 0) on "trending", creation date on "recent". */
  function SortKey(tab: string): Post -> int
  {
    if tab == "trending" then (p: Post) => p.likes.GetOr(0)
    else if tab == "recent" then (p: Post) => p.createdDate
    else (p: Post) => 0
  }

  /** `sortedPosts`: a sorted copy of the filtered posts. */
  function SortPosts(posts: seq<Post>, tab: string): seq<Post>
  {
    SortDesc(posts, SortKey(tab))
  }

  /**
   * Every tab shows a permutation of the filtered posts, largest key first, with posts of equal
   * key in filtered order; a tab other than "trending" and "recent" keeps the filtered order.
   */
  lemma SortPostsCorrect(posts: seq<Post>, tab: string)
    ensures multiset(SortPosts(posts, tab)) == multiset(posts)
    ensures SortedDesc(SortPosts(posts, tab), SortKey(tab))
    ensures forall c :: Filter(SortPosts(posts, tab), KeyIs(SortKey(tab), c)) == Filter(posts, KeyIs(SortKey(tab), c))
    ensures tab != "trending" && tab != "recent" ==> SortPosts(posts, tab) == posts
  {
    SortDescCorrect(posts, SortKey(tab));
    if tab != "trending" && tab != "recent" {
      SortDescConstantKey(posts, SortKey(tab), 0);
    }
  }

  /** On "trending" a post with more likes (missing = 0) is never shown after one with fewer. */
  lemma TrendingOrder(posts: seq<Post>, i: nat, j: nat)
    requires i < j < |SortPosts(posts, "trending")|
    ensures SortPosts(posts, "trending")[i].likes.GetOr(0) >= SortPosts(posts, "trending")[j].likes.GetOr(0)
  {
    SortDescCorrect(posts, SortKey("trending"));
  }

  /** On "recent" a newer post is never shown after an older one. */
  lemma RecentOrder(posts: seq<Post>, i: nat, j: nat)
    requires i < j < |SortPosts(posts, "recent")|
    ensures SortPosts(posts, "recent")[i].createdDate >= SortPosts(posts, "recent")[j].createdDate
  {
    SortDescCorrect(posts, SortKey("recent"));
  }

  /** The like button: overwrite the post's likes with the likes it showed (missing = 0) plus one. */
  function LikeOp(post: Post): StoreOp
  {
    SetPostLikes(post.id, post.likes.GetOr(0) + 1)
  }

  /**
   * Liking a post as stored raises its likes by exactly one and changes no other post (posts
   * are told apart by id); nothing outside the posts changes.
   */
  lemma LikeEffect(st: StoreState, k: nat)
    requires k < |st.posts|
    requires forall i :: 0 <= i < |st.posts| && i != k ==> st.posts[i].id != st.posts[k].id
    ensures var st' := ApplyAll(st, [LikeOp(st.posts[k])]);
            |st'.posts| == |st.posts| &&
            st'.posts[k].likes == Some(st.posts[k].likes.GetOr(0) + 1) &&
            st'.posts[k] == st.posts[k].(likes := st'.posts[k].likes) &&
            (forall i :: 0 <= i < |st.posts| && i != k ==> st'.posts[i] == st.posts[i]) &&
            st'.days == st.days && st'.trips == st.trips && st'.nextId == st.nextId
  {
    assert ApplyAll(st, [LikeOp(st.posts[k])]) == Apply(st, LikeOp(st.posts[k]));
  }

  /** The destination badges of a card: up to three names, then "+N more" for the rest. */
  datatype Badges = Badges(shown: seq<string>, more: Option<nat>)

  function DestinationBadges(destinations: Option<seq<string>>): (b: Badges)
    ensures var all := destinations.GetOr([]);
            |b.shown| <= 3 && b.shown <= all &&
            (b.more.Some? <==> |all| > 3) &&
            (b.more.Some? ==> |b.shown| == 3 && |b.shown| + b.more.value == |all|) &&
            (b.more.None? ==> b.shown == all)
  {
    var all := destinations.GetOr([]);
    if |all| > 3 then Badges(all[..3], Some(|all| - 3)) else Badges(all, None)
  }
}
