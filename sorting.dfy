/** Python's sorted()/list.sort() with an integer key is a STABLE sort: the
    converter relies on it for keyed tunings, for measures and for the notes
    of a beat. Here it is an insertion sort over (key, item) pairs. */
module Sorting {

  predicate SortedByKey<T>(s: seq<(int, T)>) {
    forall i, j :: 0 <= i < j < |s| ==> s[i].0 <= s[j].0
  }

  /** The entries of s whose key is k, in their order in s. */
  function WithKey<T>(s: seq<(int, T)>, k: int): seq<(int, T)> {
    if s == [] then [] else (if s[0].0 == k then [s[0]] else []) + WithKey(s[1..], k)
  }

  /** The items of the pairs, keys dropped. */
  function Items<T>(s: seq<(int, T)>): (r: seq<T>)
    ensures |r| == |s| && forall i :: 0 <= i < |s| ==> r[i] == s[i].1
  {
    seq(|s|, i requires 0 <= i < |s| => s[i].1)
  }

  /** The keys of the pairs. */
  function Keys<T>(s: seq<(int, T)>): (r: seq<int>)
    ensures |r| == |s| && forall i :: 0 <= i < |s| ==> r[i] == s[i].0
  {
    seq(|s|, i requires 0 <= i < |s| => s[i].0)
  }

  /** Puts x in front of the first entry whose key is not smaller. */
  function Insert<T(==)>(x: (int, T), s: seq<(int, T)>): (r: seq<(int, T)>)
    requires SortedByKey(s)
    ensures |r| == |s| + 1
    ensures SortedByKey(r)
    ensures multiset(r) == multiset(s) + multiset{x}
  {
    if s == [] || x.0 <= s[0].0 then [x] + s
    else
      var rest := Insert(x, s[1..]);
      assert multiset(s) == multiset{s[0]} + multiset(s[1..]) by {
        assert s == [s[0]] + s[1..];
      }
      KeysBounded(rest, s[1..], x, s[0].0);
      [s[0]] + rest
  }

  /** Every key of a rearrangement of s and x is at least a bound that
      x's key and every key of s respect. */
  lemma KeysBounded<T>(r: seq<(int, T)>, s: seq<(int, T)>, x: (int, T), lo: int)
    requires multiset(r) == multiset(s) + multiset{x}
    requires lo <= x.0 && forall i :: 0 <= i < |s| ==> lo <= s[i].0
    ensures forall i :: 0 <= i < |r| ==> lo <= r[i].0
  {
    forall i | 0 <= i < |r| ensures lo <= r[i].0 {
      assert r[i] in multiset(r);
      if r[i] != x {
        assert r[i] in multiset(s);
        var j :| 0 <= j < |s| && s[j] == r[i];
      }
    }
  }

  lemma {:induction false} InsertWithKey<T>(x: (int, T), s: seq<(int, T)>, k: int)
    requires SortedByKey(s)
    ensures WithKey(Insert(x, s), k) == if x.0 == k then [x] + WithKey(s, k) else WithKey(s, k)
  {
    if s == [] || x.0 <= s[0].0 {
      assert ([x] + s)[1..] == s;
      if x.0 == k && s != [] && s[0].0 == k {
        assert WithKey(s, k) == [s[0]] + WithKey(s[1..], k);
      }
    } else {
      InsertWithKey(x, s[1..], k);
      assert ([s[0]] + Insert(x, s[1..]))[1..] == Insert(x, s[1..]);
    }
  }

  /** A stable sort by key: ordered by key, a permutation of the input, and
      entries with equal keys keep their input order. */
  function StableSort<T(==)>(s: seq<(int, T)>): (r: seq<(int, T)>)
    ensures |r| == |s|
    ensures SortedByKey(r)
    ensures multiset(r) == multiset(s)
    ensures forall k :: WithKey(r, k) == WithKey(s, k)
  {
    if s == [] then []
    else
      var sorted := StableSort(s[1..]);
      assert s == [s[0]] + s[1..];
      forall k ensures WithKey(Insert(s[0], sorted), k) == WithKey(s, k) {
        InsertWithKey(s[0], sorted, k);
      }
      Insert(s[0], sorted)
  }

  /** Input already in key order is left exactly as it is. */
  lemma {:induction false} SortSorted<T>(s: seq<(int, T)>)
    requires SortedByKey(s)
    ensures StableSort(s) == s
  {
    if s != [] {
      SortSorted(s[1..]);
      assert StableSort(s) == Insert(s[0], s[1..]);
      assert s == [s[0]] + s[1..];
    }
  }
}
