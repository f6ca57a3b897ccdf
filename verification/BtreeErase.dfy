/**
 Filling up a node of GoogleBTree that has become too small: it is merged with a neighbour, which takes a value from the
 parent, or takes values from one.
 */
module BtreeErase {
  import opened BtreeNodes
  import opened BtreeEdits
  import opened BtreeMoves
  import opened BtreeInsert

  lemma MergeKept(t: Node, d: nat, size: nat, h: Hole, p: Path, c: nat, e: nat, i: nat)
    requires Has(t, p + [e]) && Good(t, d, size, h) && (h.NoHole? || h == HoleAt(p + [e])) && (e == c || e == c + 1)
    requires Has(t, p) && c < |Sub(t, p).values| && c + 1 < |Sub(t, p).kids| && i <= |Sub(t, p + [e]).values|
    requires |Pair(Sub(t, p), c).values| <= size
    ensures var q := if e == c then i else |Sub(t, p).kids[c].values| + 1 + i;
      Kept(t, p + [e], i, Spot(MergedAt(t, p, c), p + [c], q)) && Good(MergedAt(t, p, c), d, size, HoleAt(p)) && Has(MergedAt(t, p, c), p)
  {
    hide Good, Has, Front, Flat, Before;
    ParentGood(t, d, size, h, p, e);
    MergedAtGood(t, d, size, h, p, c, e);
    PairLead(t, p, c, i, e != c);
    var q := if e == c then i else |Sub(t, p).kids[c].values| + 1 + i;
    MergedAtFlat(t, d, size, p, c, q);
    KidAt(t, d, size, h, p, e, i);
    JoinFormed(Sub(t, p).kids[c], Sub(t, p).values[c], Sub(t, p).kids[c + 1]);
    PutHas(t, p, Merged(Sub(t, p), c, Pair(Sub(t, p), c)));
  }

  // ---------- the leaf below ----------

  /** The position of the node that leads to the leaf. */
  function Index(rest: Path, leafPos: nat): nat {
    if rest == [] then leafPos else rest[0]
  }

  /** The way to the leaf after that position has become another. */
  function Redirect(rest: Path, pos: nat): Path {
    if rest == [] then [] else [pos] + rest[1..]
  }

  predicate Leads(t: Node, p: Path, i: nat, content: seq<int>, lead: seq<int>) {
    && Has(t, p) && Sub(t, p).kids == [] && i <= |Sub(t, p).values| && Flat(t) == content && Lead(t, p, i) == lead
  }

  /** An edit that keeps the position of the node keeps that of the leaf below. */
  lemma RedirectLeads(t: Node, p: Path, rest: Path, leafPos: nat, s: Spot, content: seq<int>, lead: seq<int>)
    requires Leads(t, p + rest, leafPos, content, lead) && Has(t, p) && Kept(t, p, Index(rest, leafPos), s)
    ensures Leads(s.root, s.path + Redirect(rest, s.pos), if rest == [] then s.pos else leafPos, content, lead)
  {
    hide Has, Front, Flat, Before;
    if rest == [] {
      assert p + rest == p && s.path + Redirect(rest, s.pos) == s.path;
    } else {
      var c, q := rest[0], rest[1..];
      assert p + rest == (p + [c]) + q && s.path + Redirect(rest, s.pos) == (s.path + [s.pos]) + q;
      ChildOnPath(t, p, rest);
      PathChild(t, p, c);
      PathMore(t, p + [c], q);
      PathChild(s.root, s.path, s.pos);
      PathMore(s.root, s.path + [s.pos], q);
    }
  }

  lemma ChildOnPath(t: Node, p: Path, rest: Path)
    requires Has(t, p + rest) && Has(t, p) && rest != []
    ensures rest[0] < |Sub(t, p).kids| && Has(t, p + [rest[0]])
  {
    PathMore(t, p, rest);
    PathChild(t, p, rest[0]);
  }

  // ---------- merge or rebalance ----------

  function Half(size: nat): nat {
    size / 2
  }

  /** How many values come from a neighbour with so many. */
  function ToTake(from: nat, to: nat): nat {
    if from <= to || from == 0 then 0 else if (from - to) / 2 < from - 1 then (from - to) / 2 else from - 1
  }

  /** How many values a left neighbour keeps. */
  function Left(from: nat, to: nat): nat {
    if from >= ToTake(from, to) then from - ToTake(from, to) else 0
  }

  predicate MergesLeft(size: nat, t: Node, p: Path, c: nat) {
    c > 0 && 1 + Count(t, p, c - 1) + Count(t, p, c) <= size
  }

  predicate HasRight(t: Node, p: Path, c: nat) {
    Childed(t, p, c) && c < |Sub(t, p).values|
  }

  predicate MergesRight(size: nat, t: Node, p: Path, c: nat) {
    HasRight(t, p, c) && 1 + Count(t, p, c) + Count(t, p, c + 1) <= size
  }

  predicate TakesRight(size: nat, t: Node, p: Path, c: nat, pos: nat) {
    HasRight(t, p, c) && Count(t, p, c + 1) > Half(size) && (Count(t, p, c) == 0 || pos > 0)
  }

  predicate TakesLeft(size: nat, t: Node, p: Path, c: nat, pos: nat) {
    c > 0 && Count(t, p, c - 1) > Half(size) && (Count(t, p, c) == 0 || pos < Count(t, p, c))
  }

  function MergeSpot(t: Node, p: Path, c: nat, q: nat): Spot {
    if Has(t, p) && c < |Sub(t, p).values| && c + 1 < |Sub(t, p).kids| then Spot(MergedAt(t, p, c), p + [c], q) else Spot(t, p, q)
  }

  /** try_merge_or_rebalance: what becomes of position i of child c of the node at p, and whether the two were merged. */
  function Refilled(size: nat, t: Node, p: Path, c: nat, pos: nat, i: nat): (Spot, bool) {
    var node := Count(t, p, c);
    if MergesLeft(size, t, p, c) then (MergeSpot(t, p, c - 1, Count(t, p, c - 1) + 1 + i), true)
    else if MergesRight(size, t, p, c) then (MergeSpot(t, p, c, i), true)
    else if TakesRight(size, t, p, c, pos) then
      (RepairSpot(t, p, c, node + ToTake(Count(t, p, c + 1), node), i), false)
    else if TakesLeft(size, t, p, c, pos) then
      var left := Count(t, p, c - 1);
      (RepairSpot(t, p, c - 1, Left(left, node), left + 1 + i), false)
    else (Spot(t, p + [c], i), false)
  }

  /** The node was too small; after a merge the parent may be without values, otherwise no node is. */
  ghost predicate Filled(t: Node, d: nat, size: nat, p: Path, c: nat, i: nat, r: (Spot, bool)) {
    && Kept(t, p + [c], i, r.0) && Good(r.0.root, d, size, if r.1 then HoleAt(p) else NoHole)
    && (r.1 ==> Has(r.0.root, p) && |r.0.path| == |p| + 1 && r.0.path[..|p|] == p)
  }

  lemma RefillRight(size: nat, t: Node, d: nat, p: Path, c: nat, pos: nat, i: nat)
    requires size >= 3 && Has(t, p + [c]) && Good(t, d, size, HoleAt(p + [c])) && Childed(t, p, c) && Count(t, p, c) < Half(size)
    requires i <= Count(t, p, c)
    ensures Filled(t, d, size, p, c, i, Refilled(size, t, p, c, pos, i))
  {
    hide Good, Has, Kept, RepairSpot, MergeSpot, Filled, ToTake, Left;
    PathChild(t, p, c);
    if MergesLeft(size, t, p, c) {
      FillByMerge(size, t, d, p, c - 1, c, i);
    } else if MergesRight(size, t, p, c) {
      FillByMerge(size, t, d, p, c, c, i);
    } else if TakesRight(size, t, p, c, pos) {
      FillFromRight(size, t, d, p, c, i);
    } else if TakesLeft(size, t, p, c, pos) {
      FillFromLeft(size, t, d, p, c, i);
    } else {
      NotEmpty(size, t, d, p, c, pos);
      FillByNothing(size, t, d, p, c, i);
    }
  }

  lemma TakeOk(size: nat, from: nat, to: nat)
    requires size >= 3 && to < Half(size) < from <= size
    ensures 1 <= ToTake(from, to) < from && to + ToTake(from, to) <= size
  {
  }

  lemma FillFromRight(size: nat, t: Node, d: nat, p: Path, c: nat, i: nat)
    requires size >= 3 && Has(t, p + [c]) && Good(t, d, size, HoleAt(p + [c])) && HasRight(t, p, c)
    requires Count(t, p, c) < Half(size) < Count(t, p, c + 1) && i <= Count(t, p, c)
    ensures Filled(t, d, size, p, c, i, (RepairSpot(t, p, c, Count(t, p, c) + ToTake(Count(t, p, c + 1), Count(t, p, c)), i), false))
  {
    hide Good, Has, RepairSpot, Filled, ToTake;
    ParentGood(t, d, size, HoleAt(p + [c]), p, c);
    GoodIs(Sub(t, p).kids[c + 1], d - |p| - 1, size);
    TakeOk(size, Count(t, p, c + 1), Count(t, p, c));
    FillByMove(size, t, d, p, c, c, Count(t, p, c) + ToTake(Count(t, p, c + 1), Count(t, p, c)), i);
  }

  lemma FillFromLeft(size: nat, t: Node, d: nat, p: Path, c: nat, i: nat)
    requires size >= 3 && Has(t, p + [c]) && Good(t, d, size, HoleAt(p + [c])) && Childed(t, p, c) && c > 0
    requires Count(t, p, c) < Half(size) < Count(t, p, c - 1) && i <= Count(t, p, c)
    ensures Filled(t, d, size, p, c, i, (RepairSpot(t, p, c - 1, Left(Count(t, p, c - 1), Count(t, p, c)), Count(t, p, c - 1) + 1 + i), false))
  {
    hide Good, Has, RepairSpot, Filled, ToTake;
    ParentGood(t, d, size, HoleAt(p + [c]), p, c);
    GoodIs(Sub(t, p).kids[c - 1], d - |p| - 1, size);
    TakeOk(size, Count(t, p, c - 1), Count(t, p, c));
    FillByMove(size, t, d, p, c - 1, c, Left(Count(t, p, c - 1), Count(t, p, c)), i);
  }

  lemma FillByMerge(size: nat, t: Node, d: nat, p: Path, c: nat, e: nat, i: nat)
    requires Has(t, p + [e]) && Good(t, d, size, HoleAt(p + [e])) && (e == c || e == c + 1) && Childed(t, p, e) && c + 1 < |Sub(t, p).kids|
    requires 1 + Count(t, p, c) + Count(t, p, c + 1) <= size && i <= Count(t, p, e)
    ensures Filled(t, d, size, p, e, i, (MergeSpot(t, p, c, if e == c then i else Count(t, p, c) + 1 + i), true))
  {
    hide Good, Has, Kept;
    PathChild(t, p, e);
    MergeKept(t, d, size, HoleAt(p + [e]), p, c, e, i);
    assert (p + [c])[..|p|] == p;
  }

  lemma FillByMove(size: nat, t: Node, d: nat, p: Path, c: nat, e: nat, cut: nat, i: nat)
    requires Has(t, p + [e]) && Good(t, d, size, HoleAt(p + [e])) && (e == c || e == c + 1) && Childed(t, p, e) && c + 1 < |Sub(t, p).kids|
    requires 0 < cut < Count(t, p, c) + Count(t, p, c + 1) && cut <= size && Count(t, p, c) + Count(t, p, c + 1) - cut <= size && i <= Count(t, p, e)
    ensures Filled(t, d, size, p, e, i, (RepairSpot(t, p, c, cut, if e == c then i else Count(t, p, c) + 1 + i), false))
  {
    hide Good, Has, Kept, RepairSpot;
    PathChild(t, p, e);
    RepairKept(t, d, size, HoleAt(p + [e]), p, c, e, cut, i);
  }

  /** A node without values always gets some. */
  lemma NotEmpty(size: nat, t: Node, d: nat, p: Path, c: nat, pos: nat)
    requires size >= 3 && Has(t, p + [c]) && Good(t, d, size, HoleAt(p + [c])) && Childed(t, p, c)
    requires !MergesLeft(size, t, p, c) && !MergesRight(size, t, p, c) && !TakesRight(size, t, p, c, pos) && !TakesLeft(size, t, p, c, pos)
    ensures Count(t, p, c) > 0
  {
    hide Good, Has;
    ParentGood(t, d, size, HoleAt(p + [c]), p, c);
    ParentNotEmpty(t, d, size, p, c);
    if c > 0 {
      GoodIs(Sub(t, p).kids[c - 1], d - |p| - 1, size);
    } else {
      GoodIs(Sub(t, p).kids[c + 1], d - |p| - 1, size);
    }
  }

  lemma ParentNotEmpty(t: Node, d: nat, size: nat, p: Path, c: nat)
    requires Has(t, p + [c]) && Good(t, d, size, HoleAt(p + [c])) && Has(t, p)
    ensures Sub(t, p).values != []
  {
    assert (p + [c])[|p|..] == [c];
    SubGood(t, d, size, HoleAt(p + [c]), p);
  }

  lemma FillByNothing(size: nat, t: Node, d: nat, p: Path, c: nat, i: nat)
    requires Has(t, p + [c]) && Good(t, d, size, HoleAt(p + [c])) && Childed(t, p, c) && Count(t, p, c) > 0 && i <= Count(t, p, c)
    ensures Filled(t, d, size, p, c, i, (Spot(t, p + [c], i), false))
  {
    hide Good, Has, Front, Flat, Before;
    PathChild(t, p, c);
    KidAt(t, d, size, HoleAt(p + [c]), p, c, i);
    HoleFilled(t, d, size, p + [c]);
  }

  /** A hole with values is none. */
  lemma {:induction false} HoleFilled(t: Node, d: nat, size: nat, p: Path)
    requires Has(t, p) && Good(t, d, size, HoleAt(p)) && Sub(t, p).values != []
    ensures Good(t, d, size, NoHole)
    decreases |p|
  {
    if p == [] {
      GoodIs(t, d, size);
    } else {
      forall i | 0 <= i < |t.kids| ensures Good(t.kids[i], d - 1, size, HoleIn(NoHole, i)) {
        assert Good(t.kids[i], d - 1, size, HoleIn(HoleAt(p), i));
        if i == p[0] {
          HoleFilled(t.kids[i], d - 1, size, p[1..]);
        }
      }
    }
  }
}
