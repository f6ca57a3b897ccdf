/** The edits of two neighbouring nodes inside a tree: which values and positions stay where they are in the order. */
module BtreeMoves {
  import opened BtreeNodes
  import opened BtreeEdits

  // ---------- nodes without their own count ----------

  /** Good but for the number of its own values. */
  predicate Body(n: Node, d: nat, size: nat) {
    && (d == 0 <==> n.kids == [])
    && (d > 0 ==> |n.kids| == |n.values| + 1 && forall i :: 0 <= i < |n.kids| ==> Good(n.kids[i], d - 1, size, NoHole))
  }

  lemma GoodIs(n: Node, d: nat, size: nat)
    ensures Good(n, d, size, NoHole) <==> Body(n, d, size) && 0 < |n.values| <= size
    ensures Good(n, d, size, HoleAt([])) <==> Body(n, d, size) && |n.values| <= size
  {
    assert forall i :: HoleIn(NoHole, i) == NoHole && HoleIn(HoleAt([]), i) == NoHole;
    if d > 0 {
      if Good(n, d, size, NoHole) || Good(n, d, size, HoleAt([])) {
        forall i | 0 <= i < |n.kids| ensures Good(n.kids[i], d - 1, size, NoHole) {
          assert HoleIn(NoHole, i) == NoHole && HoleIn(HoleAt([]), i) == NoHole;
        }
      }
    }
  }

  lemma BodyCut(n: Node, d: nat, size: nat, c: nat)
    requires Body(n, d, size) && c < |n.values|
    ensures Formed(n) && Body(CutLeft(n, c), d, size) && Body(CutRight(n, c), d, size)
  {
    hide Good;
  }

  lemma BodyJoin(l: Node, v: int, r: Node, d: nat, size: nat)
    requires Body(l, d, size) && Body(r, d, size)
    ensures Alike(l, r) && Body(Join(l, v, r), d, size)
  {
    hide Good;
  }

  /** The parent of the node at a path with at least one step. */
  lemma ParentGood(t: Node, d: nat, size: nat, h: Hole, p: Path, c: nat)
    requires Has(t, p + [c]) && Good(t, d, size, h) && (h.NoHole? || h == HoleAt(p + [c]))
    ensures Has(t, p) && |p| < d && c < |Sub(t, p).kids| && Sub(t, p + [c]) == Sub(t, p).kids[c]
    ensures Good(Sub(t, p), d - |p|, size, if h.NoHole? then NoHole else HoleAt([c])) && Rim(t, d, size, p)
    ensures |Sub(t, p).kids| == |Sub(t, p).values| + 1
    ensures forall i :: 0 <= i < |Sub(t, p).kids| && i != c ==> Good(Sub(t, p).kids[i], d - |p| - 1, size, NoHole)
    ensures Good(Sub(t, p).kids[c], d - |p| - 1, size, if h.NoHole? then NoHole else HoleAt([]))
  {
    hide Good;
    HasPrefix(t, p, [c]);
    PathChild(t, p, c);
    assert (p + [c])[|p|..] == [c];
    SubGood(t, d, size, h, p);
    RimOf(t, d, size, h, p);
    var g := if h.NoHole? then NoHole else HoleAt([c]);
    GoodAt(Sub(t, p), d - |p|, size, g, c);
    forall i | 0 <= i < |Sub(t, p).kids| ensures Good(Sub(t, p).kids[i], d - |p| - 1, size, HoleIn(g, i)) {
      GoodAt(Sub(t, p), d - |p|, size, g, i);
    }
    assert [c][1..] == [];
  }

  lemma {:induction false} HasPrefix(t: Node, p: Path, q: Path)
    requires Has(t, p + q)
    ensures Has(t, p)
    decreases |p|
  {
    if p != [] {
      assert (p + q)[1..] == p[1..] + q;
      HasPrefix(t.kids[p[0]], p[1..], q);
    }
  }

  // ---------- positions ----------

  function SpotPath(p: Path, c: nat, cut: nat, q: nat): Path {
    if q <= cut then p + [c] else p + [c + 1]
  }

  function SpotPos(cut: nat, q: nat): nat {
    if q <= cut then q else q - cut - 1
  }

  /** Position q of a node is where it was when the node has been cut in two under one parent. */
  lemma CutLead(t: Node, p: Path, c: nat, j: Node, cut: nat, q: nat)
    requires Has(t, p) && Formed(j) && cut < |j.values| && q <= |j.values| && |Sub(t, p).kids| == |Sub(t, p).values| + 1
    requires c < |Sub(t, p).values| && Sub(t, p).kids[c] == CutLeft(j, cut) && Sub(t, p).kids[c + 1] == CutRight(j, cut)
    requires Sub(t, p).values[c] == j.values[cut]
    ensures var sp, i := SpotPath(p, c, cut, q), SpotPos(cut, q);
      && Has(t, sp) && i <= |Sub(t, sp).values| && Lead(t, sp, i) == Before(t, p) + Front(Sub(t, p), c) + Front(j, q)
      && (q < |j.kids| ==> i < |Sub(t, sp).kids| && Sub(t, sp).kids[i] == j.kids[q]) && (Sub(t, sp).kids == [] <==> j.kids == [])
      && Sub(t, sp) == if q <= cut then CutLeft(j, cut) else CutRight(j, cut)
  {
    hide Front, Flat, Has, Before, CutLeft, CutRight;
    PathChild(t, p, c);
    PathChild(t, p, c + 1);
    TwoKids(Sub(t, p), c);
    CutFront(j, cut, q);
    CutKids(j, cut, q);
    var l, v, r := CutLeft(j, cut), j.values[cut], CutRight(j, cut);
    var a, b := Before(t, p), Front(Sub(t, p), c);
    if q > cut {
      assert (a + (b + Flat(l) + [v])) + Front(r, q - cut - 1) == a + b + (Flat(l) + [v] + Front(r, q - cut - 1));
    }
  }

  lemma CutFront(j: Node, cut: nat, q: nat)
    requires Formed(j) && cut < |j.values| && q <= |j.values|
    ensures q <= cut ==> Front(j, q) == Front(CutLeft(j, cut), q)
    ensures q > cut ==> Front(j, q) == Flat(CutLeft(j, cut)) + [j.values[cut]] + Front(CutRight(j, cut), q - cut - 1)
  {
    hide Front, Flat;
    JoinCut(j, cut);
    if q <= cut {
      JoinLow(CutLeft(j, cut), j.values[cut], CutRight(j, cut), q);
    } else {
      JoinHigh(CutLeft(j, cut), j.values[cut], CutRight(j, cut), q - cut - 1);
    }
  }

  lemma CutKids(j: Node, cut: nat, q: nat)
    requires Formed(j) && cut < |j.values| && q <= |j.values|
    ensures var x, i := if q <= cut then CutLeft(j, cut) else CutRight(j, cut), SpotPos(cut, q);
      && i <= |x.values| && (q < |j.kids| ==> i < |x.kids| && x.kids[i] == j.kids[q]) && (x.kids == [] <==> j.kids == [])
  {
  }

  /** The two children c and c + 1 as one node, and the positions of both in it. */
  function Pair(n: Node, c: nat): Node
    requires c < |n.values| && c + 1 < |n.kids|
  {
    Join(n.kids[c], n.values[c], n.kids[c + 1])
  }

  lemma PairLead(t: Node, p: Path, c: nat, i: nat, right: bool)
    requires Has(t, p) && |Sub(t, p).kids| == |Sub(t, p).values| + 1 && c < |Sub(t, p).values|
    requires var n := Sub(t, p); Alike(n.kids[c], n.kids[c + 1]) && i <= |n.kids[if right then c + 1 else c].values|
    ensures var n := Sub(t, p); var q := if right then |n.kids[c].values| + 1 + i else i; var at := p + [if right then c + 1 else c];
      && Has(t, at) && q <= |Pair(n, c).values| && Lead(t, at, i) == Before(t, p) + Front(n, c) + Front(Pair(n, c), q)
      && (i < |Sub(t, at).kids| ==> q < |Pair(n, c).kids| && Pair(n, c).kids[q] == Sub(t, at).kids[i])
  {
    hide Front, Flat, Has, Before;
    var n := Sub(t, p);
    PathChild(t, p, c);
    PathChild(t, p, c + 1);
    TwoKids(n, c);
    var l, v, r := n.kids[c], n.values[c], n.kids[c + 1];
    if right {
      JoinHigh(l, v, r, i);
      assert (Before(t, p) + (Front(n, c) + Flat(l) + [v])) + Front(r, i) == Before(t, p) + Front(n, c) + (Flat(l) + [v] + Front(r, i));
    } else {
      JoinLow(l, v, r, i);
    }
  }

  // ---------- rebalancing ----------

  /** Children c and c + 1 of the node at p, joined and cut again at a value. */
  function Repaired(t: Node, p: Path, c: nat, cut: nat): Node
    requires Has(t, p) && c < |Sub(t, p).values| && c + 1 < |Sub(t, p).kids| && cut < |Pair(Sub(t, p), c).values|
  {
    var n := Sub(t, p);
    var j := Pair(n, c);
    Put(t, p, Shifted(n, c, CutLeft(j, cut), j.values[cut], CutRight(j, cut)))
  }

  lemma RepairedFlat(t: Node, d: nat, size: nat, p: Path, c: nat, cut: nat)
    requires Has(t, p) && Rim(t, d, size, p) && |Sub(t, p).kids| == |Sub(t, p).values| + 1 && c < |Sub(t, p).values|
    requires Alike(Sub(t, p).kids[c], Sub(t, p).kids[c + 1]) && cut < |Pair(Sub(t, p), c).values|
    ensures var t' := Repaired(t, p, c, cut);
      && Has(t', p) && Flat(t') == Flat(t) && Before(t', p) == Before(t, p) && Front(Sub(t', p), c) == Front(Sub(t, p), c)
      && Sub(t', p) == Shifted(Sub(t, p), c, CutLeft(Pair(Sub(t, p), c), cut), Pair(Sub(t, p), c).values[cut], CutRight(Pair(Sub(t, p), c), cut))
  {
    hide Front, Flat, Has, Before, Back, Good;
    var n := Sub(t, p);
    var j := Pair(n, c);
    var l, v, r := CutLeft(j, cut), j.values[cut], CutRight(j, cut);
    var n' := Shifted(n, c, l, v, r);
    JoinCut(j, cut);
    JoinFlat(l, v, r);
    JoinFlat(n.kids[c], n.values[c], n.kids[c + 1]);
    TwoKids(n, c);
    ShiftedFlat(n, c, l, v, r);
    PutFlat(t, d, size, p, n');
    PutHas(t, p, n');
    SubFlat(t, d, size, p);
  }

  lemma RepairedGood(t: Node, d: nat, size: nat, h: Hole, p: Path, c: nat, e: nat, cut: nat)
    requires Has(t, p + [e]) && Good(t, d, size, h) && (h.NoHole? || h == HoleAt(p + [e])) && (e == c || e == c + 1)
    requires Has(t, p) && c < |Sub(t, p).values| && c + 1 < |Sub(t, p).kids|
    requires 0 < cut < |Pair(Sub(t, p), c).values| - 1 && cut <= size && |Pair(Sub(t, p), c).values| - cut - 1 <= size
    ensures Alike(Sub(t, p).kids[c], Sub(t, p).kids[c + 1]) && Rim(t, d, size, p) && Good(Repaired(t, p, c, cut), d, size, NoHole)
  {
    hide Good, Has, Body;
    ParentGood(t, d, size, h, p, e);
    var n, dk := Sub(t, p), d - |p| - 1;
    GoodIs(n.kids[c], dk, size);
    GoodIs(n.kids[c + 1], dk, size);
    BodyJoin(n.kids[c], n.values[c], n.kids[c + 1], dk, size);
    var j := Pair(n, c);
    BodyCut(j, dk, size, cut);
    var l, v, r := CutLeft(j, cut), j.values[cut], CutRight(j, cut);
    GoodIs(l, dk, size);
    GoodIs(r, dk, size);
    var n' := Shifted(n, c, l, v, r);
    ShiftedGood(n, d - |p|, size, if h.NoHole? then NoHole else HoleAt([e]), c, l, v, r);
    PutGood(t, d, size, p, n', NoHole);
  }

  lemma ShiftedGood(n: Node, d: nat, size: nat, h: Hole, c: nat, l: Node, v: int, r: Node)
    requires d > 0 && Good(n, d, size, h) && (h.NoHole? || h == HoleAt([c]) || h == HoleAt([c + 1])) && c < |n.values| && c + 1 < |n.kids|
    requires Good(l, d - 1, size, NoHole) && Good(r, d - 1, size, NoHole)
    ensures Good(Shifted(n, c, l, v, r), d, size, NoHole)
  {
    var m := Shifted(n, c, l, v, r);
    forall i | 0 <= i < |m.kids| ensures Good(m.kids[i], d - 1, size, HoleIn(NoHole, i)) {
      if i != c && i != c + 1 {
        assert Good(n.kids[i], d - 1, size, HoleIn(h, i));
      }
    }
  }

  // ---------- splits ----------

  /** Child c of the node at p, cut in two at a value, which goes up. */
  function SplitAt(t: Node, p: Path, c: nat, cut: nat): Node
    requires Has(t, p) && c < |Sub(t, p).kids| && c <= |Sub(t, p).values| && cut < |Sub(t, p).kids[c].values|
  {
    var n := Sub(t, p);
    var k := n.kids[c];
    Put(t, p, Halved(n, c, CutLeft(k, cut), k.values[cut], CutRight(k, cut)))
  }

  lemma SplitFlat(t: Node, d: nat, size: nat, p: Path, c: nat, cut: nat)
    requires Has(t, p) && Rim(t, d, size, p) && |Sub(t, p).kids| == |Sub(t, p).values| + 1 && c < |Sub(t, p).kids|
    requires Formed(Sub(t, p).kids[c]) && cut < |Sub(t, p).kids[c].values|
    ensures var t', k := SplitAt(t, p, c, cut), Sub(t, p).kids[c];
      && Has(t', p) && Flat(t') == Flat(t) && Before(t', p) == Before(t, p) && Front(Sub(t', p), c) == Front(Sub(t, p), c)
      && Sub(t', p) == Halved(Sub(t, p), c, CutLeft(k, cut), k.values[cut], CutRight(k, cut))
  {
    hide Front, Flat, Has, Before, Back, Good, CutLeft, CutRight;
    var n := Sub(t, p);
    var k := n.kids[c];
    var l, v, r := CutLeft(k, cut), k.values[cut], CutRight(k, cut);
    var n' := Halved(n, c, l, v, r);
    JoinCut(k, cut);
    JoinFlat(l, v, r);
    Parted(n, c);
    HalvedFlat(n, c, l, v, r);
    PutFlat(t, d, size, p, n');
    PutHas(t, p, n');
    SubFlat(t, d, size, p);
  }

  lemma SplitGood(t: Node, d: nat, size: nat, p: Path, c: nat, cut: nat, e: nat)
    requires Has(t, p) && Good(t, d, size, HoleAt(p)) && c < |Sub(t, p).kids| && |Sub(t, p).values| < size
    requires cut < |Sub(t, p).kids[c].values| && (cut > 0 || e == c) && (cut < |Sub(t, p).kids[c].values| - 1 || e == c + 1) && c <= e <= c + 1
    ensures |Sub(t, p).kids| == |Sub(t, p).values| + 1 && Formed(Sub(t, p).kids[c]) && Rim(t, d, size, p)
    ensures Good(SplitAt(t, p, c, cut), d, size, HoleAt(p + [e]))
  {
    hide Good, Has, Body;
    RimOf(t, d, size, HoleAt(p), p);
    SubGood(t, d, size, HoleAt(p), p);
    assert p[|p|..] == [];
    var n, dn := Sub(t, p), d - |p|;
    GoodAt(n, dn, size, HoleAt([]), c);
    var k := n.kids[c];
    GoodIs(k, dn - 1, size);
    BodyCut(k, dn - 1, size, cut);
    GoodIs(CutLeft(k, cut), dn - 1, size);
    GoodIs(CutRight(k, cut), dn - 1, size);
    HalvedGood(n, dn, size, c, CutLeft(k, cut), k.values[cut], CutRight(k, cut), e);
    PutGood(t, d, size, p, Halved(n, c, CutLeft(k, cut), k.values[cut], CutRight(k, cut)), HoleAt([e]));
  }

  lemma HalvedGood(n: Node, d: nat, size: nat, c: nat, l: Node, v: int, r: Node, e: nat)
    requires d > 0 && Good(n, d, size, HoleAt([])) && c < |n.kids| && |n.values| < size && c <= e <= c + 1
    requires Good(l, d - 1, size, if e == c then HoleAt([]) else NoHole) && Good(r, d - 1, size, if e == c + 1 then HoleAt([]) else NoHole)
    ensures |n.kids| == |n.values| + 1 && Good(Halved(n, c, l, v, r), d, size, HoleAt([e]))
  {
    var m := Halved(n, c, l, v, r);
    assert [e][1..] == [];
    forall i | 0 <= i < |m.kids| ensures Good(m.kids[i], d - 1, size, HoleIn(HoleAt([e]), i)) {
      if i < c {
        assert Good(n.kids[i], d - 1, size, HoleIn(HoleAt([]), i));
      } else if i > c + 1 {
        assert Good(n.kids[i - 1], d - 1, size, HoleIn(HoleAt([]), i - 1));
      }
    }
  }

  // ---------- merges ----------

  /** Children c and c + 1 of the node at p as one. */
  function MergedAt(t: Node, p: Path, c: nat): Node
    requires Has(t, p) && c < |Sub(t, p).values| && c + 1 < |Sub(t, p).kids|
  {
    Put(t, p, Merged(Sub(t, p), c, Pair(Sub(t, p), c)))
  }

  lemma MergedAtFlat(t: Node, d: nat, size: nat, p: Path, c: nat, q: nat)
    requires Has(t, p) && Rim(t, d, size, p) && |Sub(t, p).kids| == |Sub(t, p).values| + 1 && c < |Sub(t, p).values|
    requires Alike(Sub(t, p).kids[c], Sub(t, p).kids[c + 1]) && q <= |Pair(Sub(t, p), c).values|
    ensures var t', n := MergedAt(t, p, c), Sub(t, p);
      && Has(t', p + [c]) && Flat(t') == Flat(t) && Sub(t', p + [c]) == Pair(n, c)
      && Lead(t', p + [c], q) == Before(t, p) + Front(n, c) + Front(Pair(n, c), q)
  {
    hide Front, Flat, Has, Before, Back, Good;
    var n := Sub(t, p);
    var n' := Merged(n, c, Pair(n, c));
    JoinFlat(n.kids[c], n.values[c], n.kids[c + 1]);
    TwoKids(n, c);
    MergedFlat(n, c, Pair(n, c));
    PutFlat(t, d, size, p, n');
    PutHas(t, p, n');
    SubFlat(t, d, size, p);
    PathChild(MergedAt(t, p, c), p, c);
  }

  lemma MergedAtGood(t: Node, d: nat, size: nat, h: Hole, p: Path, c: nat, e: nat)
    requires Has(t, p + [e]) && Good(t, d, size, h) && (h.NoHole? || h == HoleAt(p + [e])) && (e == c || e == c + 1)
    requires Has(t, p) && c < |Sub(t, p).values| && c + 1 < |Sub(t, p).kids| && |Pair(Sub(t, p), c).values| <= size
    ensures Alike(Sub(t, p).kids[c], Sub(t, p).kids[c + 1]) && Rim(t, d, size, p) && Good(MergedAt(t, p, c), d, size, HoleAt(p))
  {
    hide Good, Has, Body;
    ParentGood(t, d, size, h, p, e);
    var n, dk := Sub(t, p), d - |p| - 1;
    GoodIs(n.kids[c], dk, size);
    GoodIs(n.kids[c + 1], dk, size);
    BodyJoin(n.kids[c], n.values[c], n.kids[c + 1], dk, size);
    GoodIs(Pair(n, c), dk, size);
    MergedGood(n, d - |p|, size, if h.NoHole? then NoHole else HoleAt([e]), c, Pair(n, c));
    PutGood(t, d, size, p, Merged(n, c, Pair(n, c)), HoleAt([]));
    assert p + [] == p;
  }

  lemma MergedGood(n: Node, d: nat, size: nat, h: Hole, c: nat, k: Node)
    requires d > 0 && Good(n, d, size, h) && (h.NoHole? || h == HoleAt([c]) || h == HoleAt([c + 1])) && c < |n.values| && c + 1 < |n.kids|
    requires Good(k, d - 1, size, NoHole)
    ensures Good(Merged(n, c, k), d, size, HoleAt([]))
  {
    var m := Merged(n, c, k);
    forall i | 0 <= i < |m.kids| ensures Good(m.kids[i], d - 1, size, HoleIn(HoleAt([]), i)) {
      if i < c {
        assert Good(n.kids[i], d - 1, size, HoleIn(h, i));
      } else if i > c {
        assert Good(n.kids[i + 1], d - 1, size, HoleIn(h, i + 1));
      }
    }
  }
}
