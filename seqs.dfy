/** Sequence helpers shared by the ranking and selection steps: list
    comprehensions with a condition, the "keeps the original order"
    relation they establish, slicing, and rearranging by positions. */
module Seqs {

  /** `r` is obtained from `s` by deleting elements, keeping the order of
      the rest. */
  ghost predicate IsSubsequence<T>(r: seq<T>, s: seq<T>)
    decreases |s|
  {
    if r == [] then true
    else if s == [] then false
    else (r[0] == s[0] && IsSubsequence(r[1..], s[1..])) || IsSubsequence(r, s[1..])
  }

  lemma {:induction false} SubsequenceOfItself<T>(s: seq<T>)
    ensures IsSubsequence(s, s)
  {
    if s != [] {
      SubsequenceOfItself(s[1..]);
    }
  }

  /** The comprehension `[x for x in s if p(x)]`. */
  function Filter<T>(s: seq<T>, p: T -> bool): (r: seq<T>)
    ensures forall i :: 0 <= i < |r| ==> r[i] in s && p(r[i])
    ensures forall i :: 0 <= i < |s| && p(s[i]) ==> s[i] in r
    ensures IsSubsequence(r, s)
    ensures |r| <= |s|
  {
    if s == [] then []
    else if p(s[0]) then [s[0]] + Filter(s[1..], p)
    else Filter(s[1..], p)
  }

  /** The comprehension keeps every passing element as often as it occurs,
      and drops every failing one. */
  lemma {:induction false} FilterCounts<T>(s: seq<T>, p: T -> bool)
    ensures forall i :: 0 <= i < |s| ==>
      multiset(Filter(s, p))[s[i]] == if p(s[i]) then multiset(s)[s[i]] else 0
  {
    if s != [] {
      var rest := s[1..];
      FilterCounts(rest, p);
      assert s == [s[0]] + rest;
      assert multiset(Filter(s, p)) == (if p(s[0]) then multiset{s[0]} else multiset{}) + multiset(Filter(rest, p));
      forall i | 0 <= i < |s|
        ensures multiset(Filter(s, p))[s[i]] == if p(s[i]) then multiset(s)[s[i]] else 0
      {
        var x := s[i];
        if x in rest {
          var k :| 0 <= k < |rest| && rest[k] == x;
          assert multiset(Filter(rest, p))[rest[k]] == if p(x) then multiset(rest)[x] else 0;
        } else {
          assert x !in multiset(Filter(rest, p));
        }
      }
    }
  }

  /** A condition that every element meets removes nothing. */
  lemma {:induction false} FilterKeepsAll<T>(s: seq<T>, p: T -> bool)
    requires forall i :: 0 <= i < |s| ==> p(s[i])
    ensures Filter(s, p) == s
  {
    if s != [] {
      FilterKeepsAll(s[1..], p);
    }
  }

  function Min(a: int, b: int): int {
    if a <= b then a else b
  }

  /** Python's slice `s[:k]`. */
  function Take<T>(s: seq<T>, k: nat): (r: seq<T>)
    ensures |r| == Min(k, |s|)
    ensures forall i :: 0 <= i < |r| ==> r[i] == s[i]
    ensures forall i :: 0 <= i < |r| ==> r[i] in s
    ensures multiset(r) <= multiset(s)
  {
    assert s == s[..Min(k, |s|)] + s[Min(k, |s|)..];
    s[..Min(k, |s|)]
  }

  /** The elements of `s` at the positions `idx`, in that order. */
  function Pick<T>(s: seq<T>, idx: seq<nat>): (r: seq<T>)
    requires forall t :: 0 <= t < |idx| ==> idx[t] < |s|
    ensures |r| == |idx|
    ensures forall t :: 0 <= t < |idx| ==> r[t] == s[idx[t]]
  {
    seq(|idx|, t requires 0 <= t < |idx| => s[idx[t]])
  }

  /** Picking one more position appends its element. */
  lemma PickAppend<T>(s: seq<T>, idx: seq<nat>, j: nat)
    requires forall t :: 0 <= t < |idx| ==> idx[t] < |s|
    requires j < |s|
    ensures Pick(s, idx + [j]) == Pick(s, idx) + [s[j]]
  {
    assert Pick(s, idx + [j])[|idx|] == s[j];
  }

  /** `p` lists each of the positions `0 .. n-1` exactly once. */
  predicate IsPermutation(p: seq<nat>, n: nat) {
    && |p| == n
    && (forall t :: 0 <= t < n ==> p[t] < n)
    && (forall t, u :: 0 <= t < u < n ==> p[t] != p[u])
  }

  /** The positions `p` after removing position `j` from the list they
      index: the ones above `j` move down by one. */
  function Lower(p: seq<nat>, j: nat): (q: seq<nat>)
    ensures |q| == |p|
    ensures forall t :: 0 <= t < |p| ==> q[t] == if p[t] > j then p[t] - 1 else p[t]
  {
    seq(|p|, t requires 0 <= t < |p| => if p[t] > j then p[t] - 1 else p[t])
  }

  /** Dropping the last position `j` of a permutation and closing the
      gap it leaves gives a permutation of one position fewer. */
  lemma LowerKeepsPermutation(p: seq<nat>, n: nat)
    requires 0 < n && IsPermutation(p, n)
    ensures IsPermutation(Lower(p[..n - 1], p[n - 1]), n - 1)
  {
    var j, q := p[n - 1], Lower(p[..n - 1], p[n - 1]);
    forall t, u | 0 <= t < u < n - 1
      ensures q[t] != q[u]
    {
      assert p[t] != p[u] && p[t] != j && p[u] != j;
    }
    forall t | 0 <= t < n - 1
      ensures q[t] < n - 1
    {
      assert p[t] != j;
    }
  }

  /** Picking from the list without position `j` by the lowered positions
      picks the same elements. */
  lemma PickWithout<T>(s: seq<T>, p: seq<nat>, j: nat)
    requires j < |s|
    requires forall t :: 0 <= t < |p| ==> p[t] < |s| && p[t] != j
    ensures forall t :: 0 <= t < |p| ==> Lower(p, j)[t] < |s| - 1
    ensures Pick(s[..j] + s[j + 1..], Lower(p, j)) == Pick(s, p)
  {
    var s', q := s[..j] + s[j + 1..], Lower(p, j);
    forall t | 0 <= t < |p|
      ensures q[t] < |s'| && s'[q[t]] == s[p[t]]
    {
    }
  }

  /** Taking the element at `p`'s last position off the list leaves the
      rest picked by the lowered positions. */
  lemma PickRemoveLast<T>(s: seq<T>, p: seq<nat>, m: nat)
    requires m + 1 == |p| && p[m] < |s|
    requires forall t :: 0 <= t < m ==> p[t] < |s| && p[t] != p[m]
    ensures multiset(Pick(s, p))
         == multiset(Pick(s[..p[m]] + s[p[m] + 1..], Lower(p[..m], p[m]))) + multiset{s[p[m]]}
  {
    assert forall t :: 0 <= t < m ==> p[..m][t] == p[t];
    PickWithout(s, p[..m], p[m]);
    PickLast(s, p, m);
  }

  /** Rearranging a list by a permutation of its positions keeps every
      element with its multiplicity. */
  lemma {:induction false} PickPermutation<T>(s: seq<T>, p: seq<nat>)
    requires IsPermutation(p, |s|)
    ensures multiset(Pick(s, p)) == multiset(s)
  {
    if s != [] {
      var m := |s| - 1;
      var j := p[m];
      LowerKeepsPermutation(p, |s|);
      assert forall t :: 0 <= t < m ==> p[t] < |s| && p[t] != j;
      PickRemoveLast(s, p, m);
      PickPermutation(s[..j] + s[j + 1..], Lower(p[..m], j));
      MultisetWithout(s, j);
    }
  }

  /** Picking by `p` picks by all but its last position, then the element
      at that one. */
  lemma PickLast<T>(s: seq<T>, p: seq<nat>, m: nat)
    requires m + 1 == |p| && p[m] < |s| && forall t :: 0 <= t < m ==> p[t] < |s|
    ensures multiset(Pick(s, p)) == multiset(Pick(s, p[..m])) + multiset{s[p[m]]}
  {
    assert Pick(s, p) == Pick(s, p[..m]) + [s[p[m]]];
  }

  /** The list's elements are those without position `j`, plus the one
      at `j`. */
  lemma MultisetWithout<T>(s: seq<T>, j: nat)
    requires j < |s|
    ensures multiset(s) == multiset(s[..j] + s[j + 1..]) + multiset{s[j]}
  {
    assert s == s[..j] + [s[j]] + s[j + 1..];
  }
}
