/** Strictly ascending sequences of keys and one-element edits of sequences. */
module Ordered {

  ghost predicate Sorted(s: seq<int>) {
    forall i, j :: 0 <= i < j < |s| ==> s[i] < s[j]
  }

  /** The number of leading elements below k; in an ascending sequence, the number of elements below k. */
  function Rank(s: seq<int>, k: int): (r: nat)
    ensures r <= |s|
    ensures forall i :: 0 <= i < r ==> s[i] < k
    ensures r < |s| ==> k <= s[r]
  {
    if s == [] || k <= s[0] then 0 else 1 + Rank(s[1..], k)
  }

  lemma RankIs(s: seq<int>, k: int, p: nat)
    requires Sorted(s) && p <= |s|
    requires p > 0 ==> s[p - 1] < k
    requires p < |s| ==> k <= s[p]
    ensures Rank(s, k) == p
  {
  }

  function InsertAt<T>(s: seq<T>, p: nat, x: T): (r: seq<T>)
    requires p <= |s|
  {
    s[..p] + [x] + s[p..]
  }

  function RemoveAt<T>(s: seq<T>, p: nat): (r: seq<T>)
    requires p < |s|
  {
    s[..p] + s[p + 1..]
  }

  function Last(s: seq<int>): int {
    if s == [] then 0 else s[|s| - 1]
  }
}
