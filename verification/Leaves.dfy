/**
 The leaves of an FB+-tree from left to right. A leaf is read as the set of pairs it stores; its high
 key bounds its keys from above, the high key of its left neighbour bounds them from below.
 */
module Leaves {
  import opened Options
  import opened Ordered
  import opened Level

  type Value = int

  /** high and sibling are meaningful when hasSibling. */
  datatype Leaf = Leaf(kvs: map<int, Value>, high: int, sibling: Id, hasSibling: bool)

  function LeafHighs(ls: seq<Leaf>): seq<int> {
    seq(if ls == [] then 0 else |ls| - 1, i requires 0 <= i < |ls| => ls[i].high)
  }

  /** All of kvs lies strictly above the left neighbour's bound and not above the leaf's own. */
  ghost predicate InRange(ls: seq<Leaf>, i: nat)
    requires i < |ls|
  {
    && (i > 0 ==> forall k :: k in ls[i].kvs ==> ls[i - 1].high < k)
    && (i < |ls| - 1 ==> forall k :: k in ls[i].kvs ==> k <= ls[i].high)
  }

  /** Only the rightmost leaf may be empty, and only it has no sibling. */
  ghost predicate LeavesOk(ls: seq<Leaf>, ids: seq<Id>, size: nat) {
    && |ls| == |ids| > 0
    && (forall i :: 0 <= i < |ls| ==> |ls[i].kvs| <= size && InRange(ls, i))
    && (forall i :: 0 <= i < |ls| - 1 ==> ls[i].hasSibling && ls[i].kvs != map[] && ls[i].sibling == ids[i + 1])
    && !ls[|ls| - 1].hasSibling
    && Sorted(LeafHighs(ls))
  }

  ghost predicate Holds(ls: seq<Leaf>, k: int, v: Value) {
    exists i :: 0 <= i < |ls| && k in ls[i].kvs && ls[i].kvs[k] == v
  }

  ghost predicate Represents(ls: seq<Leaf>, m: map<int, Value>) {
    forall k, v :: (k in m && m[k] == v) <==> Holds(ls, k, v)
  }

  /** The leaves went from (ls, ids) to (ls', ids'), which for the level above is the edit up. */
  ghost predicate LeavesRaise(ls: seq<Leaf>, ids: seq<Id>, ls': seq<Leaf>, ids': seq<Id>, up: Edit) {
    && |ls| == |ids| > 0
    && Fits(up, |ls| - 1)
    && LeafHighs(ls') == EditSeps(up, LeafHighs(ls))
    && ids' == EditKids(up, ids)
  }

  /** A stored key is in the one leaf its position among the high keys points to. */
  lemma HoldsAtRank(ls: seq<Leaf>, ids: seq<Id>, size: nat, k: int, i: nat)
    requires LeavesOk(ls, ids, size) && i < |ls| && k in ls[i].kvs
    ensures Rank(LeafHighs(ls), k) == i
  {
    assert InRange(ls, i);
    RankIs(LeafHighs(ls), k, i);
  }

  /** Looking a key up in that leaf gives exactly what the leaves hold for it. */
  lemma LookupAtRank(ls: seq<Leaf>, ids: seq<Id>, size: nat, m: map<int, Value>, k: int)
    requires LeavesOk(ls, ids, size) && Represents(ls, m)
    ensures Rank(LeafHighs(ls), k) < |ls|
    ensures var kvs := ls[Rank(LeafHighs(ls), k)].kvs;
            (k in m <==> k in kvs) && (k in m ==> m[k] == kvs[k])
  {
    var j := Rank(LeafHighs(ls), k);
    if k in ls[j].kvs {
      assert Holds(ls, k, ls[j].kvs[k]);
    }
    if k in m {
      assert Holds(ls, k, m[k]);
      var i :| 0 <= i < |ls| && k in ls[i].kvs && ls[i].kvs[k] == m[k];
      HoldsAtRank(ls, ids, size, k, i);
    }
  }

  // ---------- the n smallest keys of a leaf, as the sort before a split finds them ----------

  lemma {:induction false} SetMin(s: set<int>)
    requires s != {}
    ensures exists m :: m in s && forall x :: x in s ==> m <= x
  {
    var m := Pick(s);
    if s != {m} {
      SetMin(s - {m});
      var n :| n in s - {m} && forall x :: x in s - {m} ==> n <= x;
      var least := if m < n then m else n;
      forall x | x in s ensures least <= x {
        assert x == m || x in s - {m};
      }
    } else {
      assert forall x :: x in s ==> m <= x;
    }
  }

  function Min(s: set<int>): (m: int)
    requires s != {}
    ensures m in s && forall x :: x in s ==> m <= x
  {
    SetMin(s);
    var m :| m in s && forall x :: x in s ==> m <= x;
    m
  }

  /** The keys of a set in ascending order: the ordered view of a leaf. */
  function Ascending(s: set<int>): (r: seq<int>)
    ensures |r| == |s|
  {
    if s == {} then [] else
      var m := Min(s);
      assert |s| == |s - {m}| + 1;
      [m] + Ascending(s - {m})
  }

  lemma {:induction false} AscendingIs(s: set<int>)
    ensures Sorted(Ascending(s))
    ensures forall x :: x in Ascending(s) <==> x in s
  {
    if s != {} {
      var m := Min(s);
      AscendingIs(s - {m});
      var rest := Ascending(s - {m});
      assert forall i :: 0 <= i < |rest| ==> rest[i] in rest;
      assert Ascending(s) == [m] + rest;
    }
  }

  /** Two ascending sequences with the same elements are equal. */
  lemma {:induction false} AscendingUnique(s: seq<int>, t: seq<int>)
    requires Sorted(s) && Sorted(t) && forall x :: x in s <==> x in t
    ensures s == t
  {
    assert s != [] ==> s[0] in s && s[0] in t;
    assert t != [] ==> t[0] in t && t[0] in s;
    if s != [] {
      assert s[0] == t[0];
      forall x ensures x in s[1..] <==> x in t[1..] {
        TailHas(s, x);
        TailHas(t, x);
      }
      AscendingUnique(s[1..], t[1..]);
      assert s == [s[0]] + s[1..] && t == [t[0]] + t[1..];
    }
  }

  lemma TailHas(s: seq<int>, x: int)
    requires Sorted(s) && s != []
    ensures x in s[1..] <==> x in s && x != s[0]
  {
    assert s == [s[0]] + s[1..];
  }

  /** LeafNode::bound: the place of the first key not below k in the ordered view of a leaf, or for upper above k. */
  function LeafBound(asc: seq<int>, k: int, upper: bool): nat {
    var p := Rank(asc, k);
    if upper && p < |asc| && asc[p] == k then p + 1 else p
  }

  lemma LeafBoundIs(asc: seq<int>, k: int, upper: bool)
    requires Sorted(asc)
    ensures LeafBound(asc, k, upper) == Rank(asc, if upper then k + 1 else k)
  {
    RankIs(asc, if upper then k + 1 else k, LeafBound(asc, k, upper));
  }

  function AtMost(m: map<int, Value>, h: int): map<int, Value> {
    map k | k in m && k <= h :: m[k]
  }

  function Above(m: map<int, Value>, h: int): map<int, Value> {
    map k | k in m && h < k :: m[k]
  }

  lemma AscendingStep(s: set<int>, n: nat)
    requires n < |s| && s != {}
    ensures |s - {Min(s)}| == |s| - 1
    ensures Ascending(s)[n] == if n == 0 then Min(s) else Ascending(s - {Min(s)})[n - 1]
  {
  }

  lemma BelowMin(s: set<int>, h: int)
    requires s != {} && Min(s) <= h
    ensures |set x | x in s && x <= h| == |set x | x in s - {Min(s)} && x <= h| + 1
  {
    var m := Min(s);
    var t := set x | x in s - {m} && x <= h;
    assert (set x | x in s && x <= h) == t + {m} && m !in t;
  }

  lemma {:induction false} CutCount(s: set<int>, n: nat)
    requires n < |s|
    ensures Ascending(s)[n] in s && |set x | x in s && x <= Ascending(s)[n]| == n + 1
  {
    assert s != {};
    AscendingStep(s, n);
    var m := Min(s);
    if n == 0 {
      assert (set x | x in s - {m} && x <= m) == {};
    } else {
      CutCount(s - {m}, n - 1);
    }
    BelowMin(s, Ascending(s)[n]);
  }

  /** Cutting a leaf at its n-th smallest key leaves n pairs on the left and the others on the right. */
  lemma CutSizes(m: map<int, Value>, n: nat)
    requires 0 < n <= |m|
    ensures Ascending(m.Keys)[n - 1] in m
    ensures |AtMost(m, Ascending(m.Keys)[n - 1])| == n && |Above(m, Ascending(m.Keys)[n - 1])| == |m| - n
  {
    hide Ascending;
    CutCount(m.Keys, n - 1);
    CutAt(m, Ascending(m.Keys)[n - 1]);
  }

  lemma CutAt(m: map<int, Value>, h: int)
    ensures |AtMost(m, h)| == |set x | x in m.Keys && x <= h|
    ensures |AtMost(m, h)| + |Above(m, h)| == |m|
  {
    var lo, hi := AtMost(m, h), Above(m, h);
    assert lo.Keys == set x | x in m.Keys && x <= h;
    assert m.Keys == lo.Keys + hi.Keys && lo.Keys !! hi.Keys;
    assert |lo| == |lo.Keys| && |hi| == |hi.Keys|;
  }
}
