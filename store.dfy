/**
 * The remote record store, reduced to what the save, share and like actions need: the
 * operations they issue, in order, and an abstract state that gives those operations a
 * meaning. Deleting a missing id is a no-op; updating a missing trip changes nothing.
 */
module Store {
  import opened Wrappers
  import opened Records

  /** A stored itinerary-day record: the day plan plus the id and trip the store keeps with it. */
  datatype StoredDay = StoredDay(id: nat, tripId: string, day: DayPlan)

  datatype StoreOp =
    | DeleteDay(id: nat)
    | CreateDay(tripId: string, day: DayPlan)
    | SetTripTotal(tripId: string, total: int)
    | SetTripPublic(tripId: string)
    | CreatePost(draft: PostDraft)
    | SetPostLikes(postId: nat, likes: int)

  /** `nextId` is the id the next created record receives; `now` is the store's clock for `created_date`. */
  datatype StoreState = StoreState(days: seq<StoredDay>, trips: map<string, Trip>, posts: seq<Post>, nextId: nat, now: int)

  /** The records left after deleting every record with that id. */
  function RemoveDay(recs: seq<StoredDay>, id: nat): (r: seq<StoredDay>)
    ensures forall x :: x in r <==> x in recs && x.id != id
  {
    if recs == [] then []
    else if recs[0].id == id then RemoveDay(recs[1..], id)
    else [recs[0]] + RemoveDay(recs[1..], id)
  }

  /** `posts` with the `likes` field of post `id` overwritten. */
  function SetLikes(posts: seq<Post>, id: nat, likes: int): (r: seq<Post>)
    ensures |r| == |posts|
    ensures forall i :: 0 <= i < |posts| ==> r[i] == if posts[i].id == id then posts[i].(likes := Some(likes)) else posts[i]
  {
    seq(|posts|, i requires 0 <= i < |posts| => if posts[i].id == id then posts[i].(likes := Some(likes)) else posts[i])
  }

  function Apply(st: StoreState, op: StoreOp): StoreState
  {
    match op
    case DeleteDay(id) => st.(days := RemoveDay(st.days, id))
    case CreateDay(t, d) => st.(days := st.days + [StoredDay(st.nextId, t, d)], nextId := st.nextId + 1)
    case SetTripTotal(t, total) =>
      if t in st.trips then st.(trips := st.trips[t := st.trips[t].(totalBudget := Some(total))]) else st
    case SetTripPublic(t) =>
      if t in st.trips then st.(trips := st.trips[t := st.trips[t].(isPublic := true)]) else st
    case CreatePost(p) =>
      var post := Post(st.nextId, p.tripId, Some(p.authorName), p.authorEmail, p.title, p.description,
                       p.coverImage, Some(p.destinations), None, st.now);
      st.(posts := st.posts + [post], nextId := st.nextId + 1)
    case SetPostLikes(id, n) => st.(posts := SetLikes(st.posts, id, n))
  }

  /** The state after running `ops` one after the other. */
  function ApplyAll(st: StoreState, ops: seq<StoreOp>): StoreState
    decreases |ops|
  {
    if ops == [] then st else ApplyAll(Apply(st, ops[0]), ops[1..])
  }

  lemma {:induction false} ApplyAllConcat(st: StoreState, a: seq<StoreOp>, b: seq<StoreOp>)
    ensures ApplyAll(st, a + b) == ApplyAll(ApplyAll(st, a), b)
    decreases |a|
  {
    if a == [] {
      assert a + b == b;
    } else {
      assert (a + b)[1..] == a[1..] + b;
      ApplyAllConcat(Apply(st, a[0]), a[1..], b);
    }
  }

  /** The day records of one trip, in store order (what `filter({ trip_id })` returns). */
  function TripRecords(recs: seq<StoredDay>, tripId: string): seq<StoredDay>
  {
    if recs == [] then []
    else (if recs[0].tripId == tripId then [recs[0]] else []) + TripRecords(recs[1..], tripId)
  }

  /** The day plans stored for one trip, in store order. */
  function TripDays(recs: seq<StoredDay>, tripId: string): (r: seq<DayPlan>)
    ensures |r| == |TripRecords(recs, tripId)|
  {
    var t := TripRecords(recs, tripId);
    seq(|t|, i requires 0 <= i < |t| => t[i].day)
  }

  lemma {:induction false} TripRecordsAppend(recs: seq<StoredDay>, x: StoredDay, tripId: string)
    ensures TripRecords(recs + [x], tripId) == TripRecords(recs, tripId) + (if x.tripId == tripId then [x] else [])
  {
    if recs == [] {
      assert recs + [x] == [x];
    } else {
      assert (recs + [x])[1..] == recs[1..] + [x];
      TripRecordsAppend(recs[1..], x, tripId);
    }
  }

  lemma TripDaysAppend(recs: seq<StoredDay>, x: StoredDay, tripId: string)
    ensures TripDays(recs + [x], tripId) == TripDays(recs, tripId) + (if x.tripId == tripId then [x.day] else [])
  {
    TripRecordsAppend(recs, x, tripId);
  }

  lemma {:induction false} TripRecordsNone(recs: seq<StoredDay>, tripId: string)
    requires forall x :: x in recs ==> x.tripId != tripId
    ensures TripRecords(recs, tripId) == []
  {
    if recs != [] {
      TripRecordsNone(recs[1..], tripId);
    }
  }
}
