/** `Array.prototype.filter`, order-preserving sublists and numeric sums over lists. */
module Lists {

  /** `a` is obtained from `b` by dropping elements, keeping the order of the rest. */
  predicate IsSublist<T(==)>(a: seq<T>, b: seq<T>)
    decreases |b|
  {
    if b == [] then a == []
    else (a != [] && a[0] == b[0] && IsSublist(a[1..], b[1..])) || IsSublist(a, b[1..])
  }

  /** `s.filter(p)`: the elements satisfying `p`, in their original order. */
  function Filter<T(==)>(s: seq<T>, p: T -> bool): (r: seq<T>)
    ensures IsSublist(r, s)
    ensures forall i :: 0 <= i < |r| ==> r[i] in s && p(r[i])
    ensures forall i :: 0 <= i < |s| && p(s[i]) ==> s[i] in r
    ensures |r| <= |s|
  {
    if s == [] then []
    else if p(s[0]) then [s[0]] + Filter(s[1..], p)
    else Filter(s[1..], p)
  }

  /**
   * Filtering keeps every copy of an element that passes and drops every copy of one that
   * does not: repeats are neither merged nor invented.
   */
  lemma {:induction false} FilterCounts<T>(s: seq<T>, p: T -> bool)
    ensures forall x :: x in s ==> multiset(Filter(s, p))[x] == if p(x) then multiset(s)[x] else 0
  {
    if s != [] {
      FilterCounts(s[1..], p);
      assert s == [s[0]] + s[1..];
      forall x | x in s
        ensures multiset(Filter(s, p))[x] == if p(x) then multiset(s)[x] else 0
      {
        if x !in s[1..] {
          assert x !in Filter(s[1..], p);
        }
      }
    }
  }

  /** Membership in a filtered list, both directions. */
  lemma FilterMembership<T>(s: seq<T>, p: T -> bool, x: T)
    ensures x in Filter(s, p) <==> x in s && p(x)
  {
    var r := Filter(s, p);
    if x in r {
      var i :| 0 <= i < |r| && r[i] == x;
    }
    if x in s && p(x) {
      var i :| 0 <= i < |s| && s[i] == x;
    }
  }

  /** Filtering distributes over concatenation. */
  lemma {:induction false} FilterConcat<T>(a: seq<T>, b: seq<T>, p: T -> bool)
    ensures Filter(a + b, p) == Filter(a, p) + Filter(b, p)
  {
    if a != [] {
      assert (a + b)[1..] == a[1..] + b;
      FilterConcat(a[1..], b, p);
    } else {
      assert a + b == b;
    }
  }

  /** A predicate that every element satisfies keeps the whole list. */
  lemma {:induction false} FilterKeepsAll<T>(s: seq<T>, p: T -> bool)
    requires forall i :: 0 <= i < |s| ==> p(s[i])
    ensures Filter(s, p) == s
  {
    if s != [] {
      FilterKeepsAll(s[1..], p);
    }
  }

  /** A weaker predicate keeps a superset, in the same order: filtering is monotone. */
  lemma {:induction false} FilterMonotone<T>(s: seq<T>, p: T -> bool, q: T -> bool)
    requires forall i :: 0 <= i < |s| && p(s[i]) ==> q(s[i])
    ensures IsSublist(Filter(s, p), Filter(s, q))
  {
    if s != [] {
      FilterMonotone(s[1..], p, q);
      var fp, fq := Filter(s[1..], p), Filter(s[1..], q);
      if p(s[0]) {
        assert Filter(s, p) == [s[0]] + fp && Filter(s, q) == [s[0]] + fq;
        assert ([s[0]] + fp)[1..] == fp && ([s[0]] + fq)[1..] == fq;
      } else if q(s[0]) {
        assert Filter(s, q) == [s[0]] + fq;
        assert ([s[0]] + fq)[1..] == fq;
      }
    }
  }

  /** Two predicates that never hold together select disjoint elements; together no more than the list. */
  lemma {:induction false} FilterDisjointLength<T>(s: seq<T>, p: T -> bool, q: T -> bool)
    requires forall i :: 0 <= i < |s| ==> !(p(s[i]) && q(s[i]))
    ensures |Filter(s, p)| + |Filter(s, q)| <= |s|
  {
    if s != [] {
      FilterDisjointLength(s[1..], p, q);
    }
  }

  /** `s.reduce((sum, x) => sum + f(x), 0)`. */
  function Sum<T>(s: seq<T>, f: T -> int): int
  {
    if s == [] then 0 else f(s[0]) + Sum(s[1..], f)
  }

  /** Sums distribute over concatenation. */
  lemma {:induction false} SumConcat<T>(a: seq<T>, b: seq<T>, f: T -> int)
    ensures Sum(a + b, f) == Sum(a, f) + Sum(b, f)
  {
    if a != [] {
      assert (a + b)[1..] == a[1..] + b;
      SumConcat(a[1..], b, f);
    } else {
      assert a + b == b;
    }
  }

  /** Terms that are all zero add up to zero. */
  lemma {:induction false} SumZero<T>(s: seq<T>, f: T -> int)
    requires forall i :: 0 <= i < |s| ==> f(s[i]) == 0
    ensures Sum(s, f) == 0
  {
    if s != [] {
      SumZero(s[1..], f);
    }
  }

  /** Dropping the element at `k` lowers the sum by exactly that element's term. */
  lemma SumRemove<T>(s: seq<T>, k: nat, f: T -> int)
    requires k < |s|
    ensures Sum(s[..k] + s[k + 1..], f) == Sum(s, f) - f(s[k])
  {
    assert s == s[..k] + ([s[k]] + s[k + 1..]);
    SumConcat(s[..k], [s[k]] + s[k + 1..], f);
    SumConcat([s[k]], s[k + 1..], f);
    SumConcat(s[..k], s[k + 1..], f);
  }

  /** Replacing one element moves the sum by exactly the difference of the two terms. */
  lemma {:induction false} SumUpdate<T>(s: seq<T>, i: nat, x: T, f: T -> int)
    requires i < |s|
    ensures Sum(s[i := x], f) == Sum(s, f) - f(s[i]) + f(x)
  {
    if i > 0 {
      assert s[i := x][1..] == s[1..][i - 1 := x];
      SumUpdate(s[1..], i - 1, x, f);
    }
  }

  /** A list has no more distinct elements than entries, and none exactly when it is empty. */
  lemma {:induction false} ElementsAtMostLength<T>(s: seq<T>)
    ensures |set x | x in s| <= |s|
    ensures |set x | x in s| == 0 <==> s == []
  {
    if s != [] {
      ElementsAtMostLength(s[1..]);
      assert (set x | x in s) == {s[0]} + (set x | x in s[1..]);
    }
  }

  /** A filtered list has one element per index of the input whose element passes. */
  lemma {:induction false} FilterLength<T>(s: seq<T>, p: T -> bool)
    ensures |Filter(s, p)| == |Passing(s, p)|
  {
    if s == [] {
      assert Passing(s, p) == {};
    } else {
      var init, last := s[..|s| - 1], s[|s| - 1];
      assert s == init + [last];
      FilterConcat(init, [last], p);
      FilterLength(init, p);
      PassingSnoc(s, p);
    }
  }

  /** The indices of `s` whose element passes `p`. */
  function Passing<T>(s: seq<T>, p: T -> bool): set<int>
  {
    set i | 0 <= i < |s| && p(s[i])
  }

  /** Extending a list by one element adds its index exactly when that element passes. */
  lemma PassingSnoc<T>(s: seq<T>, p: T -> bool)
    requires s != []
    ensures |Passing(s, p)| == |Passing(s[..|s| - 1], p)| + if p(s[|s| - 1]) then 1 else 0
  {
    var init := s[..|s| - 1];
    var before := Passing(init, p);
    if p(s[|s| - 1]) {
      assert Passing(s, p) == before + {|s| - 1};
      assert |s| - 1 !in before;
    } else {
      assert Passing(s, p) == before;
    }
  }

  /** Filtering with two predicates that agree on every element gives the same list. */
  lemma {:induction false} FilterFunctional<T>(s: seq<T>, p: T -> bool, q: T -> bool)
    requires forall i :: 0 <= i < |s| ==> p(s[i]) == q(s[i])
    ensures Filter(s, p) == Filter(s, q)
  {
    if s != [] {
      FilterFunctional(s[1..], p, q);
    }
  }

  /** `s.reduce((acc, x) => acc + f(x), acc)`: a running total from the left. */
  function FoldSum<T>(acc: int, s: seq<T>, f: T -> int): int
    decreases |s|
  {
    if s == [] then acc else FoldSum(acc + f(s[0]), s[1..], f)
  }

  /** The left-to-right running total ends at the starting value plus the sum. */
  lemma {:induction false} FoldSumIsSum<T>(acc: int, s: seq<T>, f: T -> int)
    ensures FoldSum(acc, s, f) == acc + Sum(s, f)
    decreases |s|
  {
    if s != [] {
      FoldSumIsSum(acc + f(s[0]), s[1..], f);
    }
  }
}
