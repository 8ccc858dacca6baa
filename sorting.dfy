/**
 * `Array.prototype.sort` with a comparator `(a, b) => key(b) - key(a)`: a stable sort
 * by `key`, largest first. Stability (required of `sort` since ECMAScript 2019) means
 * that elements with equal keys keep their input order.
 */
module Sorting {
  import opened Lists

  /** The keys do not increase from left to right. */
  ghost predicate SortedDesc<T>(s: seq<T>, key: T -> int)
  {
    forall i, j :: 0 <= i < j < |s| ==> key(s[i]) >= key(s[j])
  }

  /** Selects the elements whose key is `c`. */
  function KeyIs<T>(key: T -> int, c: int): T -> bool
  {
    x => key(x) == c
  }

  /** Places `x`, which came later in the input than all of `s`, after every element whose key is at least its own. */
  function Insert<T>(x: T, s: seq<T>, key: T -> int): seq<T>
  {
    if s == [] || key(s[0]) < key(x) then [x] + s
    else [s[0]] + Insert(x, s[1..], key)
  }

  /** Insertion sort over the input from left to right. */
  function SortDesc<T>(s: seq<T>, key: T -> int): seq<T>
  {
    if s == [] then [] else Insert(s[|s| - 1], SortDesc(s[..|s| - 1], key), key)
  }

  lemma {:induction false} InsertProperties<T>(x: T, s: seq<T>, key: T -> int)
    requires SortedDesc(s, key)
    ensures SortedDesc(Insert(x, s, key), key)
    ensures multiset(Insert(x, s, key)) == multiset(s) + multiset{x}
  {
    if s == [] || key(s[0]) < key(x) {
      assert Insert(x, s, key) == [x] + s;
    } else {
      InsertProperties(x, s[1..], key);
      var rest := Insert(x, s[1..], key);
      assert s == [s[0]] + s[1..];
      assert forall j :: 0 <= j < |rest| ==> key(s[0]) >= key(rest[j]) by {
        forall j | 0 <= j < |rest|
          ensures key(s[0]) >= key(rest[j])
        {
          assert rest[j] in multiset(rest);
          assert rest[j] == x || rest[j] in multiset(s[1..]);
        }
      }
    }
  }

  /** Every element whose key is `c` is already in `s` when none of `s` has key `c`. */
  lemma {:induction false} FilterNone<T>(s: seq<T>, key: T -> int, c: int)
    requires forall i :: 0 <= i < |s| ==> key(s[i]) != c
    ensures Filter(s, KeyIs(key, c)) == []
  {
    if s != [] {
      FilterNone(s[1..], key, c);
    }
  }

  /** Inserting `x` adds it to the end of its own key class and leaves the other classes alone. */
  lemma {:induction false} InsertStable<T>(x: T, s: seq<T>, key: T -> int, c: int)
    requires SortedDesc(s, key)
    ensures Filter(Insert(x, s, key), KeyIs(key, c)) ==
            Filter(s, KeyIs(key, c)) + (if key(x) == c then [x] else [])
  {
    var p := KeyIs(key, c);
    if s == [] || key(s[0]) < key(x) {
      assert Insert(x, s, key) == [x] + s;
      FilterConcat([x], s, p);
      if key(x) == c {
        FilterNone(s, key, c);
      }
    } else {
      InsertStable(x, s[1..], key, c);
      assert Insert(x, s, key) == [s[0]] + Insert(x, s[1..], key);
      FilterConcat([s[0]], Insert(x, s[1..], key), p);
      assert s == [s[0]] + s[1..];
      FilterConcat([s[0]], s[1..], p);
    }
  }

  /** The sort is non-increasing in `key`, a permutation of its input, and stable. */
  lemma {:induction false} SortDescCorrect<T>(s: seq<T>, key: T -> int)
    ensures SortedDesc(SortDesc(s, key), key)
    ensures multiset(SortDesc(s, key)) == multiset(s)
    ensures |SortDesc(s, key)| == |s|
    ensures forall c :: Filter(SortDesc(s, key), KeyIs(key, c)) == Filter(s, KeyIs(key, c))
  {
    if s != [] {
      var init, last := s[..|s| - 1], s[|s| - 1];
      assert s == init + [last];
      SortDescCorrect(init, key);
      InsertProperties(last, SortDesc(init, key), key);
      forall c
        ensures Filter(SortDesc(s, key), KeyIs(key, c)) == Filter(s, KeyIs(key, c))
      {
        InsertStable(last, SortDesc(init, key), key, c);
        FilterConcat(init, [last], KeyIs(key, c));
      }
    }
  }

  /** When every key is the same, the stable sort changes nothing. */
  lemma SortDescConstantKey<T>(s: seq<T>, key: T -> int, c: int)
    requires forall i :: 0 <= i < |s| ==> key(s[i]) == c
    ensures SortDesc(s, key) == s
  {
    SortDescCorrect(s, key);
    var r := SortDesc(s, key);
    assert forall i :: 0 <= i < |r| ==> key(r[i]) == c by {
      forall i | 0 <= i < |r|
        ensures key(r[i]) == c
      {
        assert r[i] in multiset(s);
      }
    }
    FilterKeepsAll(r, KeyIs(key, c));
    FilterKeepsAll(s, KeyIs(key, c));
  }

  /** `.sort(...).slice(0, n)`: the first `n` elements of the sorted list (all of it when shorter). */
  function Top<T>(s: seq<T>, key: T -> int, n: nat): seq<T>
  {
    var r := SortDesc(s, key);
    r[..if n < |r| then n else |r|]
  }

  /**
   * The first `n` of a sorted permutation are the top `n`: every element left out has a key
   * no larger than any element kept.
   */
  lemma TopPrefix<T>(s: seq<T>, key: T -> int, n: nat, e: T, t: T)
    requires e in s && e !in Top(s, key, n)
    requires t in Top(s, key, n)
    ensures key(e) <= key(t)
  {
    SortDescCorrect(s, key);
    var r := SortDesc(s, key);
    var k := if n < |r| then n else |r|;
    assert e in multiset(r);
    var j :| 0 <= j < |r| && r[j] == e;
    var i :| 0 <= i < k && r[..k][i] == t;
    assert forall m :: 0 <= m < k ==> r[m] in r[..k] by {
      forall m | 0 <= m < k ensures r[m] in r[..k] { assert r[..k][m] == r[m]; }
    }
  }

  /**
   * The cut keeps ties in input order: among the elements kept, those with key `c` are a
   * prefix of the input's elements with key `c`, in the same order.
   */
  lemma TopStable<T>(s: seq<T>, key: T -> int, n: nat, c: int)
    ensures |Top(s, key, n)| == if n < |s| then n else |s|
    ensures Filter(Top(s, key, n), KeyIs(key, c)) <= Filter(s, KeyIs(key, c))
  {
    SortDescCorrect(s, key);
    var r := SortDesc(s, key);
    var k := if n < |r| then n else |r|;
    assert r == r[..k] + r[k..];
    FilterConcat(r[..k], r[k..], KeyIs(key, c));
  }
}
