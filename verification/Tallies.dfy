/**
 Insertion-ordered dictionaries, as Python's dict and JavaScript's Map keep them, and the
 tallies and sorted listings that are built with them.
 */
module Tallies {
  import opened Sequences

  datatype Dict<K(==), V> = Dict(keys: seq<K>, at: map<K, V>)

  function Empty<K, V>(): Dict<K, V> { Dict([], map[]) }

  function Put<K, V>(d: Dict<K, V>, k: K, v: V): Dict<K, V> {
    Dict(if k in d.at then d.keys else d.keys + [k], d.at[k := v])
  }

  function Get<K, V>(d: Dict<K, V>, k: K, absent: V): V { if k in d.at then d.at[k] else absent }

  /** The dictionary lists the distinct elements of `ks` in the order they were first seen. */
  ghost predicate Lists<K(!new), V>(d: Dict<K, V>, ks: seq<K>) {
    d.keys == FirstSeen(ks) && forall k :: k in d.at <==> k in ks
  }

  lemma PutLists<K(!new), V>(d: Dict<K, V>, ks: seq<K>, k: K, v: V)
    requires Lists(d, ks)
    ensures Lists(Put(d, k, v), ks + [k])
  {
    FirstSeenStep(ks, k);
  }

  /** The dictionary counts the occurrences in `ks`. */
  ghost predicate Counts<K(!new)>(d: Dict<K, nat>, ks: seq<K>) {
    Lists(d, ks) && forall k :: k in ks ==> k in d.at && d.at[k] == multiset(ks)[k]
  }

  function Increment<K>(d: Dict<K, nat>, k: K): Dict<K, nat> { Put(d, k, Get(d, k, 0) + 1) }

  lemma IncrementCounts<K(!new)>(d: Dict<K, nat>, ks: seq<K>, k: K)
    requires Counts(d, ks)
    ensures Counts(Increment(d, k), ks + [k])
  {
    hide FirstSeen;
    PutLists(d, ks, k, Get(d, k, 0) + 1);
    assert (k in ks) == (k in multiset(ks));
    assert multiset(ks + [k]) == multiset(ks)[k := multiset(ks)[k] + 1];
    forall j | j in ks + [k]
      ensures Increment(d, k).at[j] == multiset(ks + [k])[j]
    {
      if j != k { assert j in ks; }
    }
  }

  // ------------------------------------------------------- sorted listings

  function SortedKeys<K(==,!new)>(ks: seq<K>, leq: (K, K) -> bool): seq<K> { Sort(FirstSeen(ks), leq) }

  /** Sorted keys depend on the set of keys only. */
  lemma SortedKeysPermute<K(!new)>(a: seq<K>, b: seq<K>, leq: (K, K) -> bool)
    requires TotalOrder(leq) && Antisymmetric(leq)
    requires multiset(a) == multiset(b)
    ensures SortedKeys(a, leq) == SortedKeys(b, leq)
  {
    forall k
      ensures k in FirstSeen(a) <==> k in FirstSeen(b)
    {
      assert (k in a <==> k in multiset(a)) && (k in b <==> k in multiset(b));
    }
    DistinctSameElements(FirstSeen(a), FirstSeen(b));
    SortPermutes(FirstSeen(a), FirstSeen(b), leq);
  }

  lemma SortedKeysShape<K(!new)>(ks: seq<K>, leq: (K, K) -> bool)
    requires TotalOrder(leq)
    ensures Distinct(SortedKeys(ks, leq)) && Sorted(SortedKeys(ks, leq), leq)
    ensures forall k :: k in SortedKeys(ks, leq) <==> k in ks
  {
    var sorted, seen := SortedKeys(ks, leq), FirstSeen(ks);
    SortCorrect(seen, leq);
    PermutationDistinct(seen, sorted);
    forall k
      ensures k in sorted <==> k in ks
    {
      assert (k in sorted <==> k in multiset(sorted)) && (k in seen <==> k in multiset(seen));
    }
  }

  function CountsOf<K(==)>(ks: seq<K>, names: seq<K>): seq<int> {
    seq(|names|, i requires 0 <= i < |names| => multiset(ks)[names[i]])
  }

  lemma {:induction false} CountsOfStep<K>(ks: seq<K>, x: K, names: seq<K>)
    requires Distinct(names)
    ensures Sum(CountsOf(ks + [x], names)) == Sum(CountsOf(ks, names)) + if x in names then 1 else 0
  {
    if names != [] {
      var n := |names| - 1;
      var front := names[..n];
      CountsOfStep(ks, x, front);
      assert names == front + [names[n]];
      assert CountsOf(ks, names)[..n] == CountsOf(ks, front);
      assert CountsOf(ks + [x], names)[..n] == CountsOf(ks + [x], front);
    }
  }

  lemma {:induction false} NothingCounted<K>(names: seq<K>)
    ensures Sum(CountsOf([], names)) == 0
  {
    if names != [] {
      var n := |names| - 1;
      NothingCounted(names[..n]);
      assert CountsOf([], names)[..n] == CountsOf([], names[..n]);
    }
  }

  /** Counting by distinct names that cover everything loses and repeats nothing. */
  lemma {:induction false} CountsCover<K>(ks: seq<K>, names: seq<K>)
    requires Distinct(names) && forall k :: k in ks ==> k in names
    ensures Sum(CountsOf(ks, names)) == |ks|
  {
    if ks == [] {
      NothingCounted(names);
    } else {
      var n := |ks| - 1;
      assert ks == ks[..n] + [ks[n]];
      CountsCover(ks[..n], names);
      CountsOfStep(ks[..n], ks[n], names);
    }
  }

  /** `sorted(counts.items())` of a tally. */
  function SortedTally(ks: seq<string>): seq<(string, nat)> {
    var names := SortedKeys(ks, TextLeq);
    seq(|names|, i requires 0 <= i < |names| => (names[i], multiset(ks)[names[i]]))
  }

  lemma SortedTallyPermutes(a: seq<string>, b: seq<string>)
    requires multiset(a) == multiset(b)
    ensures SortedTally(a) == SortedTally(b)
  {
    TextOrder();
    SortedKeysPermute(a, b, TextLeq);
  }

  function TallyTotal(t: seq<(string, nat)>): nat {
    if t == [] then 0 else TallyTotal(t[..|t| - 1]) + t[|t| - 1].1
  }

  lemma {:induction false} TallyTotalIsSum(t: seq<(string, nat)>, counts: seq<int>)
    requires |t| == |counts| && forall i :: 0 <= i < |t| ==> counts[i] == t[i].1
    ensures TallyTotal(t) == Sum(counts)
  {
    if t != [] {
      TallyTotalIsSum(t[..|t| - 1], counts[..|t| - 1]);
    }
  }

  lemma SortedTallyTotal(ks: seq<string>)
    ensures TallyTotal(SortedTally(ks)) == |ks|
  {
    TextOrder();
    var names := SortedKeys(ks, TextLeq);
    SortedKeysShape(ks, TextLeq);
    CountsCover(ks, names);
    TallyTotalIsSum(SortedTally(ks), CountsOf(ks, names));
  }
}
