/**
 Making room in a full node of GoogleBTree: values are moved to a neighbour, or the node is split, after room has been
 made in its parent if need be. The order of the values and the place of the new one in it stay the same.
 */
module BtreeInsert {
  import opened BtreeNodes
  import opened BtreeEdits
  import opened BtreeMoves

  /** A tree and a position of one of its nodes. */
  datatype Spot = Spot(root: Node, path: Path, pos: nat)

  /** The values are the same, and the spot is the position i of the node at p, with the same child if there is one. */
  predicate Kept(t: Node, p: Path, i: nat, s: Spot) {
    && Has(t, p) && Has(s.root, s.path) && i <= |Sub(t, p).values| && s.pos <= |Sub(s.root, s.path).values|
    && Flat(s.root) == Flat(t) && Lead(s.root, s.path, s.pos) == Lead(t, p, i)
    && (Sub(t, p).kids == [] <==> Sub(s.root, s.path).kids == [])
    && (Sub(t, p).kids != [] ==>
          i < |Sub(t, p).kids| && s.pos < |Sub(s.root, s.path).kids| && Sub(s.root, s.path).kids[s.pos] == Sub(t, p).kids[i])
  }

  /** How many values go to a neighbour with so much room; half of it, unless the new value comes at the far end. */
  function ToMove(room: nat, half: bool): (n: nat)
    requires room > 0
    ensures 1 <= n <= room
  {
    var n := if half then room / 2 else room;
    if n < 1 then 1 else n
  }

  predicate GoesLeft(size: nat, left: nat, i: nat) {
    left < size && (ToMove(size - left, i < size) <= i || left + ToMove(size - left, i < size) < size)
  }

  predicate GoesRight(size: nat, right: nat, i: nat) {
    right < size && (i + ToMove(size - right, i > 0) <= size || right + ToMove(size - right, i > 0) < size)
  }

  /** How many values the left and the right neighbour's left one then have. */
  function LeftCut(size: nat, left: nat, i: nat): nat
    requires left < size
  {
    left + ToMove(size - left, i < size)
  }

  function RightCut(size: nat, right: nat, i: nat): nat
    requires right < size
  {
    size - ToMove(size - right, i > 0)
  }

  /** Which value goes up: the first, the last or one in the middle, after where the new value comes. */
  function SplitCut(size: nat, i: nat): nat
    requires size > 0
  {
    if i == 0 then 0 else if i == size then size - 1 else size - size / 2 - 1
  }

  predicate Splittable(size: nat, t: Node, p: Path, c: nat) {
    Has(t, p) && c < |Sub(t, p).kids| && |Sub(t, p).kids| == |Sub(t, p).values| + 1 && |Sub(t, p).kids[c].values| == size > 0
  }

  function SplitSpot(size: nat, t: Node, p: Path, c: nat, i: nat): Spot {
    if Splittable(size, t, p, c) then
      var cut := SplitCut(size, i);
      Spot(SplitAt(t, p, c, cut), SpotPath(p, c, cut, i), SpotPos(cut, i))
    else Spot(t, p, i)
  }

  predicate Repairable(t: Node, p: Path, c: nat, cut: nat) {
    Has(t, p) && c < |Sub(t, p).values| && c + 1 < |Sub(t, p).kids| && cut < |Pair(Sub(t, p), c).values|
  }

  function RepairSpot(t: Node, p: Path, c: nat, cut: nat, q: nat): Spot {
    if Repairable(t, p, c, cut) then Spot(Repaired(t, p, c, cut), SpotPath(p, c, cut, q), SpotPos(cut, q)) else Spot(t, p, q)
  }

  predicate Childed(t: Node, p: Path, c: nat) {
    Has(t, p) && c < |Sub(t, p).kids| && |Sub(t, p).kids| == |Sub(t, p).values| + 1
  }

  /** rebalance_or_split: room for a value at position i of the full node at p. */
  function RebalanceOrSplit(size: nat, t: Node, p: Path, i: nat): Spot
    decreases |p|
  {
    if p == [] then SplitSpot(size, Node([], [t]), [], 0, i)
    else
      var par, c := p[..|p| - 1], p[|p| - 1];
      if !Childed(t, par, c) then Spot(t, p, i)
      else
        var n := Sub(t, par);
        if c > 0 && GoesLeft(size, |n.kids[c - 1].values|, i) then
          RepairSpot(t, par, c - 1, LeftCut(size, |n.kids[c - 1].values|, i), |n.kids[c - 1].values| + 1 + i)
        else if c < |n.values| && GoesRight(size, |n.kids[c + 1].values|, i) then
          RepairSpot(t, par, c, RightCut(size, |n.kids[c + 1].values|, i), i)
        else
          var s := if |n.values| == size then RebalanceOrSplit(size, t, par, c) else Spot(t, par, c);
          SplitSpot(size, s.root, s.path, s.pos, i)
  }

  lemma RepairKept(t: Node, d: nat, size: nat, h: Hole, p: Path, c: nat, e: nat, cut: nat, i: nat)
    requires Has(t, p + [e]) && Good(t, d, size, h) && (h.NoHole? || h == HoleAt(p + [e])) && (e == c || e == c + 1)
    requires Has(t, p) && c < |Sub(t, p).values| && c + 1 < |Sub(t, p).kids| && i <= |Sub(t, p + [e]).values|
    requires 0 < cut < |Pair(Sub(t, p), c).values| - 1 && cut <= size && |Pair(Sub(t, p), c).values| - cut - 1 <= size
    ensures var q := if e == c then i else |Sub(t, p).kids[c].values| + 1 + i; var s := RepairSpot(t, p, c, cut, q);
      && Kept(t, p + [e], i, s) && Good(s.root, d, size, NoHole) && Has(s.root, s.path)
      && |Sub(s.root, s.path).values| == (if q <= cut then cut else |Pair(Sub(t, p), c).values| - cut - 1)
  {
    hide Good, Has, Front, Flat, Before, CutLeft, CutRight;
    ParentGood(t, d, size, h, p, e);
    RepairedGood(t, d, size, h, p, c, e, cut);
    RepairedFlat(t, d, size, p, c, cut);
    PairLead(t, p, c, i, e != c);
    var n := Sub(t, p);
    var j, q := Pair(n, c), if e == c then i else |n.kids[c].values| + 1 + i;
    var t' := Repaired(t, p, c, cut);
    JoinFormed(n.kids[c], n.values[c], n.kids[c + 1]);
    CutSizes(j, cut);
    CutLead(t', p, c, j, cut, q);
    KidAt(t, d, size, h, p, e, i);
  }

  /** A position of an inner node is that of a child. */
  lemma KidAt(t: Node, d: nat, size: nat, h: Hole, p: Path, e: nat, i: nat)
    requires Has(t, p + [e]) && Good(t, d, size, h) && (h.NoHole? || h == HoleAt(p + [e])) && i <= |Sub(t, p + [e]).values|
    ensures Sub(t, p + [e]).kids != [] ==> i < |Sub(t, p + [e]).kids|
  {
    hide Good, Has;
    ParentGood(t, d, size, h, p, e);
    GoodIs(Sub(t, p + [e]), d - |p| - 1, size);
  }

  lemma JoinFormed(l: Node, v: int, r: Node)
    requires Alike(l, r)
    ensures Formed(Join(l, v, r)) && (Join(l, v, r).kids == [] <==> l.kids == [])
  {
  }

  lemma CutSizes(j: Node, cut: nat)
    requires cut < |j.values|
    ensures |CutLeft(j, cut).values| == cut && |CutRight(j, cut).values| == |j.values| - cut - 1
  {
  }

  lemma SplitKept(t: Node, d: nat, size: nat, p: Path, c: nat, i: nat)
    requires size >= 3 && Has(t, p) && Good(t, d, size, HoleAt(p)) && c < |Sub(t, p).kids| && |Sub(t, p).values| < size
    requires |Sub(t, p).kids[c].values| == size && i <= size
    ensures var s := SplitSpot(size, t, p, c, i);
      Kept(t, p + [c], i, s) && Good(s.root, d, size, HoleAt(s.path)) && Roomy(size, s)
  {
    hide Good, Has, Front, Flat, Before, CutLeft, CutRight;
    var cut := SplitCut(size, i);
    var e := if i <= cut then c else c + 1;
    SplitGood(t, d, size, p, c, cut, e);
    SplitFlat(t, d, size, p, c, cut);
    var n, t' := Sub(t, p), SplitAt(t, p, c, cut);
    CutSizes(n.kids[c], cut);
    PathChild(t, p, c);
    CutLead(t', p, c, n.kids[c], cut, i);
  }

  /** Room in the parent first: the child is where the parent's spot says. */
  lemma KeptDown(t: Node, p: Path, c: nat, i: nat, m: Spot, s: Spot)
    requires Has(t, p) && c < |Sub(t, p).kids| && Kept(t, p, c, m) && Kept(m.root, m.path + [m.pos], i, s)
    ensures Kept(t, p + [c], i, s)
  {
    hide Has, Front, Flat, Before;
    PathChild(t, p, c);
    PathChild(m.root, m.path, m.pos);
  }

  lemma RootKept(t: Node, d: nat, size: nat, i: nat)
    requires Good(t, d, size, NoHole) && i <= |t.values|
    ensures Has(Node([], [t]), [0]) && Good(Node([], [t]), d + 1, size, HoleAt([])) && Kept(t, [], i, Spot(Node([], [t]), [0], i))
  {
    var n := Node([], [t]);
    assert [0][1..] == [];
    assert HoleIn(HoleAt([]), 0) == NoHole;
    assert Flat(n) == [] + Flat(t);
    assert Sub(n, [0]) == t && Before(n, [0]) == [] + [];
  }

  lemma KeptAll(t: Node, p: Path, i: nat, m: Spot, s: Spot)
    requires Kept(t, p, i, m) && Kept(m.root, m.path, m.pos, s)
    ensures Kept(t, p, i, s)
  {
    hide Has, Lead, Flat;
  }

  /** There is room at the spot. */
  predicate Roomy(size: nat, s: Spot) {
    Has(s.root, s.path) && |Sub(s.root, s.path).values| < size
  }

  /** Room has been made for a value at position i of the node at p. */
  ghost predicate Made(size: nat, t: Node, d: nat, p: Path, i: nat, s: Spot) {
    Kept(t, p, i, s) && Roomy(size, s) && exists e :: d <= e <= d + 1 && Good(s.root, e, size, HoleAt(s.path))
  }

  /** The number of values of child c of the node at p. */
  function Count(t: Node, p: Path, c: nat): nat {
    if Childed(t, p, c) then |Sub(t, p).kids[c].values| else 0
  }

  /**
   Room is made wherever the full node is: the values stay the same and in the same order, the new position stands for
   the same place among them, and the node there has room. It alone may be left without values.
   */
  lemma {:induction false} RebalanceRight(size: nat, t: Node, d: nat, p: Path, i: nat)
    requires size >= 3 && Good(t, d, size, NoHole) && Has(t, p) && |Sub(t, p).values| == size && i <= size
    ensures Made(size, t, d, p, i, RebalanceOrSplit(size, t, p, i))
    decreases |p|
  {
    hide Good, Has, Kept, RepairSpot, SplitSpot, GoesLeft, GoesRight, LeftCut, RightCut;
    if p == [] {
      RootSplits(size, t, d, i);
    } else {
      var par, c := p[..|p| - 1], p[|p| - 1];
      assert p == par + [c];
      ParentGood(t, d, size, NoHole, par, c);
      var n := Sub(t, par);
      if c > 0 && GoesLeft(size, |n.kids[c - 1].values|, i) {
        MoveLeft(size, t, d, par, c, i);
      } else if c < |n.values| && GoesRight(size, |n.kids[c + 1].values|, i) {
        MoveRight(size, t, d, par, c, i);
      } else if |n.values| == size {
        RebalanceRight(size, t, d, par, c);
        var m := RebalanceOrSplit(size, t, par, c);
        var e :| d <= e <= d + 1 && Good(m.root, e, size, HoleAt(m.path));
        SplitBelow(size, t, d, par, c, i, m, e);
      } else {
        ParentSize(t, d, size, par);
        KeptSelf(t, par, c);
        Loosen(t, d, size, HoleAt(par));
        SplitBelow(size, t, d, par, c, i, Spot(t, par, c), d);
      }
    }
  }

  lemma ParentSize(t: Node, d: nat, size: nat, p: Path)
    requires Good(t, d, size, NoHole) && Has(t, p)
    ensures |Sub(t, p).values| <= size
  {
    SubGood(t, d, size, NoHole, p);
  }

  lemma KeptSelf(t: Node, p: Path, c: nat)
    requires Has(t, p) && c < |Sub(t, p).kids| && |Sub(t, p).kids| == |Sub(t, p).values| + 1
    ensures Kept(t, p, c, Spot(t, p, c))
  {
    hide Has, Lead, Flat;
  }

  lemma SplitBelow(size: nat, t: Node, d: nat, p: Path, c: nat, i: nat, m: Spot, e: nat)
    requires size >= 3 && Childed(t, p, c) && Kept(t, p, c, m) && Count(t, p, c) == size && i <= size && d <= e <= d + 1
    requires Roomy(size, m) && Good(m.root, e, size, HoleAt(m.path))
    ensures Made(size, t, d, p + [c], i, SplitSpot(size, m.root, m.path, m.pos, i))
  {
    hide Good, Has, Front, Flat, Before, Lead, SplitSpot;
    SplitKept(m.root, e, size, m.path, m.pos, i);
    KeptDown(t, p, c, i, m, SplitSpot(size, m.root, m.path, m.pos, i));
  }

  lemma RootSplits(size: nat, t: Node, d: nat, i: nat)
    requires size >= 3 && Good(t, d, size, NoHole) && |t.values| == size && i <= size
    ensures Made(size, t, d, [], i, SplitSpot(size, Node([], [t]), [], 0, i))
  {
    hide Good, Kept, SplitSpot;
    RootKept(t, d, size, i);
    SplitKept(Node([], [t]), d + 1, size, [], 0, i);
    assert [] + [0] == [0];
    KeptAll(t, [], i, Spot(Node([], [t]), [0], i), SplitSpot(size, Node([], [t]), [], 0, i));
  }

  lemma LeftCutOk(size: nat, left: nat, i: nat)
    requires size >= 3 && 0 < left && GoesLeft(size, left, i) && i <= size
    ensures 0 < LeftCut(size, left, i) < left + size && LeftCut(size, left, i) <= size && left + size - LeftCut(size, left, i) < size
    ensures left + 1 + i <= LeftCut(size, left, i) ==> LeftCut(size, left, i) < size
  {
  }

  lemma RightCutOk(size: nat, right: nat, i: nat)
    requires size >= 3 && 0 < right && GoesRight(size, right, i) && i <= size
    ensures 0 < RightCut(size, right, i) < size && size + right - RightCut(size, right, i) <= size
    ensures i > RightCut(size, right, i) ==> size + right - RightCut(size, right, i) < size
  {
  }

  lemma MoveLeft(size: nat, t: Node, d: nat, p: Path, c: nat, i: nat)
    requires size >= 3 && Good(t, d, size, NoHole) && Has(t, p + [c]) && Childed(t, p, c) && Count(t, p, c) == size && i <= size
    requires c > 0 && GoesLeft(size, Count(t, p, c - 1), i)
    ensures Made(size, t, d, p + [c], i, RepairSpot(t, p, c - 1, LeftCut(size, Count(t, p, c - 1), i), Count(t, p, c - 1) + 1 + i))
  {
    hide Good, Has, Kept, RepairSpot, LeftCut, GoesLeft;
    ParentGood(t, d, size, NoHole, p, c);
    var left := Count(t, p, c - 1);
    GoodIs(Sub(t, p).kids[c - 1], d - |p| - 1, size);
    LeftCutOk(size, left, i);
    RepairKept(t, d, size, NoHole, p, c - 1, c, LeftCut(size, left, i), i);
    var s := RepairSpot(t, p, c - 1, LeftCut(size, left, i), left + 1 + i);
    Loosen(s.root, d, size, HoleAt(s.path));
  }

  lemma MoveRight(size: nat, t: Node, d: nat, p: Path, c: nat, i: nat)
    requires size >= 3 && Good(t, d, size, NoHole) && Has(t, p + [c]) && Childed(t, p, c) && Count(t, p, c) == size && i <= size
    requires c + 1 < |Sub(t, p).kids| && GoesRight(size, Count(t, p, c + 1), i)
    ensures Made(size, t, d, p + [c], i, RepairSpot(t, p, c, RightCut(size, Count(t, p, c + 1), i), i))
  {
    hide Good, Has, Kept, RepairSpot, RightCut, GoesRight;
    ParentGood(t, d, size, NoHole, p, c);
    GoodIs(Sub(t, p).kids[c + 1], d - |p| - 1, size);
    RightCutOk(size, Count(t, p, c + 1), i);
    var cut := RightCut(size, Count(t, p, c + 1), i);
    RepairKept(t, d, size, NoHole, p, c, c, cut, i);
    var s := RepairSpot(t, p, c, cut, i);
    Loosen(s.root, d, size, HoleAt(s.path));
  }
}
