/**
 * The counting dictionaries of the dashboard, `counts[k] = (counts[k] || 0) + 1` over a
 * plain object, as an association list in insertion order (the order `Object.entries`
 * lists non-integer-like keys in).
 */
module Tally {

  datatype Entry<K> = Entry(key: K, count: nat)

  /** The keys of the dictionary, in insertion order. */
  function Keys<K>(t: seq<Entry<K>>): (r: seq<K>)
    ensures |r| == |t|
  {
    if t == [] then [] else [t[0].key] + Keys(t[1..])
  }

  /** `counts[k] || 0`. */
  function Lookup<K(==)>(t: seq<Entry<K>>, k: K): nat
  {
    if t == [] then 0 else if t[0].key == k then t[0].count else Lookup(t[1..], k)
  }

  /** The sum of all counters. */
  function Total<K>(t: seq<Entry<K>>): int
  {
    if t == [] then 0 else t[0].count + Total(t[1..])
  }

  ghost predicate DistinctKeys<K>(t: seq<Entry<K>>)
  {
    forall i, j :: 0 <= i < j < |t| ==> t[i].key != t[j].key
  }

  ghost predicate Positive<K>(t: seq<Entry<K>>)
  {
    forall i :: 0 <= i < |t| ==> t[i].count >= 1
  }

  /** `counts[k] = (counts[k] || 0) + 1`: bump an existing entry in place, or add `k` at the end. */
  function Bump<K(==)>(t: seq<Entry<K>>, k: K): seq<Entry<K>>
  {
    if t == [] then [Entry(k, 1)]
    else if t[0].key == k then [Entry(k, t[0].count + 1)] + t[1..]
    else [t[0]] + Bump(t[1..], k)
  }

  /** The dictionary after counting `keys` one at a time from an empty object. */
  function Count<K(==)>(keys: seq<K>): seq<Entry<K>>
  {
    if keys == [] then [] else Bump(Count(keys[..|keys| - 1]), keys[|keys| - 1])
  }

  /** The distinct keys in the order in which each first occurs. */
  function FirstOccurrences<K(==)>(keys: seq<K>): seq<K>
  {
    if keys == [] then []
    else
      var seen := FirstOccurrences(keys[..|keys| - 1]);
      if keys[|keys| - 1] in seen then seen else seen + [keys[|keys| - 1]]
  }

  lemma {:induction false} KeysMembership<K>(t: seq<Entry<K>>, k: K)
    ensures k in Keys(t) <==> exists i :: 0 <= i < |t| && t[i].key == k
  {
    if t != [] {
      KeysMembership(t[1..], k);
      if exists i :: 0 <= i < |t[1..]| && t[1..][i].key == k {
        var i :| 0 <= i < |t[1..]| && t[1..][i].key == k;
        assert t[i + 1].key == k;
      }
      if exists i :: 0 <= i < |t| && t[i].key == k {
        var i :| 0 <= i < |t| && t[i].key == k;
        if i > 0 { assert t[1..][i - 1].key == k; }
      }
    }
  }

  lemma {:induction false} BumpProperties<K>(t: seq<Entry<K>>, k: K)
    requires DistinctKeys(t) && Positive(t)
    ensures DistinctKeys(Bump(t, k)) && Positive(Bump(t, k))
    ensures Keys(Bump(t, k)) == if k in Keys(t) then Keys(t) else Keys(t) + [k]
    ensures forall k' :: Lookup(Bump(t, k), k') == Lookup(t, k') + (if k' == k then 1 else 0)
    ensures Total(Bump(t, k)) == Total(t) + 1
  {
    KeysMembership(t, k);
    var b := Bump(t, k);
    if t == [] {
    } else if t[0].key == k {
      assert Keys(b) == [k] + Keys(t[1..]);
      assert forall k' :: Lookup(b, k') == Lookup(t, k') + (if k' == k then 1 else 0) by {
        forall k' ensures Lookup(b, k') == Lookup(t, k') + (if k' == k then 1 else 0) {
          if k' != k {
            assert b[1..] == t[1..];
          }
        }
      }
      assert b[1..] == t[1..];
    } else {
      var rest := t[1..];
      assert DistinctKeys(rest) by {
        forall i, j | 0 <= i < j < |rest| ensures rest[i].key != rest[j].key {
          assert rest[i] == t[i + 1] && rest[j] == t[j + 1];
        }
      }
      BumpProperties(rest, k);
      KeysMembership(rest, k);
      KeysMembership(rest, t[0].key);
      assert b == [t[0]] + Bump(rest, k);
      assert b[1..] == Bump(rest, k);
      assert forall i :: 0 <= i < |rest| ==> rest[i].key != t[0].key by {
        forall i | 0 <= i < |rest| ensures rest[i].key != t[0].key {
          assert rest[i] == t[i + 1];
        }
      }
      assert t[0].key !in Keys(rest);
      assert t[0].key !in Keys(Bump(rest, k));
      KeysMembership(Bump(rest, k), t[0].key);
      assert DistinctKeys(b) by {
        forall i, j | 0 <= i < j < |b| ensures b[i].key != b[j].key {
          if i == 0 {
            assert b[j] == Bump(rest, k)[j - 1];
          } else {
            assert b[i] == Bump(rest, k)[i - 1] && b[j] == Bump(rest, k)[j - 1];
          }
        }
      }
      assert Positive(b) by {
        forall i | 0 <= i < |b| ensures b[i].count >= 1 {
          if i > 0 { assert b[i] == Bump(rest, k)[i - 1]; }
        }
      }
      assert (k in Keys(t)) == (k in Keys(rest));
    }
  }

  /**
   * Counting `keys` yields one entry per distinct key, in first-occurrence order, whose
   * counter is the number of times the key occurs; the counters add up to `|keys|`.
   */
  lemma {:induction false} CountCorrect<K>(keys: seq<K>)
    ensures DistinctKeys(Count(keys)) && Positive(Count(keys))
    ensures Keys(Count(keys)) == FirstOccurrences(keys)
    ensures forall k :: Lookup(Count(keys), k) == multiset(keys)[k]
    ensures Total(Count(keys)) == |keys|
  {
    if keys != [] {
      var init, last := keys[..|keys| - 1], keys[|keys| - 1];
      assert keys == init + [last];
      CountCorrect(init);
      BumpProperties(Count(init), last);
    }
  }

  /** In a dictionary without repeated keys, each entry holds the counter its key looks up. */
  lemma {:induction false} LookupEntry<K>(t: seq<Entry<K>>, i: nat)
    requires DistinctKeys(t) && i < |t|
    ensures Lookup(t, t[i].key) == t[i].count
  {
    if i > 0 {
      assert t[0].key != t[i].key;
      var rest := t[1..];
      assert DistinctKeys(rest) by {
        forall a, b | 0 <= a < b < |rest| ensures rest[a].key != rest[b].key {
          assert rest[a] == t[a + 1] && rest[b] == t[b + 1];
        }
      }
      LookupEntry(rest, i - 1);
    }
  }
}
