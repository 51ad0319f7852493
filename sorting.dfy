/** Python's `list.sort(key=...)`: an ascending sort on a real-valued key
    that is stable, i.e. elements with equal keys keep their relative
    order. Modelled as an insertion sort, which has the same result. */
module Sorting {
  import opened Seqs

  ghost predicate SortedBy<T>(s: seq<T>, key: T -> real) {
    forall i, j :: 0 <= i < j < |s| ==> key(s[i]) <= key(s[j])
  }

  /** The elements of `s` whose key is `v`, in the order of `s`. */
  function WithKey<T>(s: seq<T>, key: T -> real, v: real): seq<T> {
    Filter(s, (y: T) => key(y) == v)
  }

  /** Puts `x` in front of the first element whose key is not below
      `x`'s, so `x` stays ahead of the equal keys that follow it. */
  function Insert<T>(x: T, s: seq<T>, key: T -> real): (r: seq<T>)
    requires SortedBy(s, key)
    ensures SortedBy(r, key)
    ensures multiset(r) == multiset(s) + multiset{x}
    ensures forall k :: 0 <= k < |r| ==> r[k] == x || r[k] in s
  {
    if s == [] then [x]
    else if key(x) <= key(s[0]) then [x] + s
    else
      var rest := Insert(x, s[1..], key);
      assert forall i :: 0 <= i < |s[1..]| ==> key(s[0]) <= key(s[1..][i]);
      LowerBound(key(s[0]), rest, x, s[1..], key);
      SortedCons(s[0], rest, key);
      assert s == [s[0]] + s[1..];
      [s[0]] + rest
  }

  /** A bound below `x` and below every element of `s` is below every
      element drawn from them. */
  lemma LowerBound<T>(lo: real, r: seq<T>, x: T, s: seq<T>, key: T -> real)
    requires lo <= key(x)
    requires forall i :: 0 <= i < |s| ==> lo <= key(s[i])
    requires forall k :: 0 <= k < |r| ==> r[k] == x || r[k] in s
    ensures forall k :: 0 <= k < |r| ==> lo <= key(r[k])
  {
  }

  /** An element no greater than any of a sorted list can go in front. */
  lemma SortedCons<T>(h: T, r: seq<T>, key: T -> real)
    requires SortedBy(r, key)
    requires forall k :: 0 <= k < |r| ==> key(h) <= key(r[k])
    ensures SortedBy([h] + r, key)
  {
  }

  function SortByKey<T>(s: seq<T>, key: T -> real): (r: seq<T>)
    ensures SortedBy(r, key)
    ensures multiset(r) == multiset(s)
    ensures |r| == |s|
  {
    if s == [] then []
    else
      assert s == [s[0]] + s[1..];
      Insert(s[0], SortByKey(s[1..], key), key)
  }

  lemma {:induction false} InsertStable<T>(x: T, s: seq<T>, key: T -> real, v: real)
    requires SortedBy(s, key)
    ensures WithKey(Insert(x, s, key), key, v) == (if key(x) == v then [x] else []) + WithKey(s, key, v)
  {
    if s == [] {
    } else if key(x) <= key(s[0]) {
      assert ([x] + s)[1..] == s;
    } else {
      var rest := Insert(x, s[1..], key);
      InsertStable(x, s[1..], key, v);
      assert ([s[0]] + rest)[1..] == rest;
    }
  }

  /** Stability: among elements with any one key, the sort keeps the input
      order. */
  lemma {:induction false} SortStable<T>(s: seq<T>, key: T -> real, v: real)
    ensures WithKey(SortByKey(s, key), key, v) == WithKey(s, key, v)
  {
    if s != [] {
      SortStable(s[1..], key, v);
      InsertStable(s[0], SortByKey(s[1..], key), key, v);
    }
  }
}
