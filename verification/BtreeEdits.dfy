/**
 The edits of GoogleBTree's nodes: two neighbours and the value between them are joined into one node, or cut again at
 another value; the parent changes with them.
 */
module BtreeEdits {
  import opened Ordered
  import opened BtreeNodes

  /** merge: the left node takes the delimiting value and all of the right node. */
  function Join(l: Node, v: int, r: Node): Node {
    Node(l.values + [v] + r.values, l.kids + r.kids)
  }

  function CutLeft(n: Node, c: nat): Node
    requires c < |n.values|
  {
    Node(n.values[..c], if c < |n.kids| then n.kids[..c + 1] else [])
  }

  function CutRight(n: Node, c: nat): Node
    requires c < |n.values|
  {
    Node(n.values[c + 1..], if c < |n.kids| then n.kids[c + 1..] else [])
  }

  /** Both leaves or both with one child more than values. */
  predicate Alike(l: Node, r: Node) {
    (l.kids == [] && r.kids == []) || (|l.kids| == |l.values| + 1 && |r.kids| == |r.values| + 1)
  }

  predicate Formed(n: Node) {
    n.kids == [] || |n.kids| == |n.values| + 1
  }

  lemma JoinCut(n: Node, c: nat)
    requires Formed(n) && c < |n.values|
    ensures Join(CutLeft(n, c), n.values[c], CutRight(n, c)) == n && Alike(CutLeft(n, c), CutRight(n, c))
  {
    assert n.values == n.values[..c] + [n.values[c]] + n.values[c + 1..];
    if n.kids != [] {
      assert n.kids == n.kids[..c + 1] + n.kids[c + 1..];
    }
  }

  lemma JoinInside(l: Node, v: int, r: Node)
    requires Alike(l, r)
    ensures forall k :: 0 <= k <= |l.values| ==> Inside(Join(l, v, r), k) == Inside(l, k)
    ensures forall k :: 0 <= k <= |r.values| ==> Inside(Join(l, v, r), |l.values| + 1 + k) == Inside(r, k)
  {
    hide Flat;
  }

  lemma JoinLow(l: Node, v: int, r: Node, q: nat)
    requires Alike(l, r) && q <= |l.values|
    ensures Front(Join(l, v, r), q) == Front(l, q)
  {
    hide Flat, Front, Inside;
    JoinInside(l, v, r);
    SameFront(Join(l, v, r), l, q);
  }

  lemma {:induction false} JoinHigh(l: Node, v: int, r: Node, q: nat)
    requires Alike(l, r) && q <= |r.values|
    ensures Front(Join(l, v, r), |l.values| + 1 + q) == Flat(l) + [v] + Front(r, q)
    decreases q
  {
    hide Front, Flat, Inside;
    var j, a := Join(l, v, r), |l.values|;
    FrontNext(j, a + q);
    JoinInside(l, v, r);
    if q == 0 {
      JoinLow(l, v, r, a);
      assert Front(j, a + 1) == Front(l, a) + Inside(l, a) + [v];
      FlatIs(l);
      FrontNone(r);
      assert Flat(l) + [v] + [] == Flat(l) + [v];
    } else {
      JoinHigh(l, v, r, q - 1);
      FrontNext(r, q - 1);
      assert Inside(j, a + 1 + (q - 1)) == Inside(r, q - 1);
      assert (Flat(l) + [v] + Front(r, q - 1)) + Inside(r, q - 1) + [r.values[q - 1]]
          == Flat(l) + [v] + (Front(r, q - 1) + Inside(r, q - 1) + [r.values[q - 1]]);
    }
  }

  lemma FlatIs(n: Node)
    ensures Flat(n) == Front(n, |n.values|) + Inside(n, |n.values|)
  {
  }

  lemma FrontNone(n: Node)
    ensures Front(n, 0) == []
  {
  }

  lemma FrontNext(n: Node, i: nat)
    requires i < |n.values|
    ensures Front(n, i + 1) == Front(n, i) + Inside(n, i) + [n.values[i]]
  {
  }

  lemma JoinFlat(l: Node, v: int, r: Node)
    requires Alike(l, r)
    ensures Flat(Join(l, v, r)) == Flat(l) + [v] + Flat(r)
  {
    hide Front;
    var j := Join(l, v, r);
    JoinHigh(l, v, r, |r.values|);
    JoinInside(l, v, r);
    assert Inside(j, |l.values| + 1 + |r.values|) == Inside(r, |r.values|);
    assert (Flat(l) + [v] + Front(r, |r.values|)) + Inside(r, |r.values|) == Flat(l) + [v] + (Front(r, |r.values|) + Inside(r, |r.values|));
  }

  // ---------- the parent ----------

  /** split: child c of the parent becomes two, with a value between them. */
  function Halved(n: Node, c: nat, l: Node, v: int, r: Node): Node
    requires c < |n.kids| && c <= |n.values|
  {
    Node(InsertAt(n.values, c, v), n.kids[..c] + [l, r] + n.kids[c + 1..])
  }

  /** rebalance: children c and c + 1 and the value between them are others. */
  function Shifted(n: Node, c: nat, l: Node, v: int, r: Node): Node
    requires c + 1 < |n.kids| && c < |n.values|
  {
    Node(n.values[c := v], n.kids[c := l][c + 1 := r])
  }

  /** merge: children c and c + 1 and the value between them are one child. */
  function Merged(n: Node, c: nat, m: Node): Node
    requires c + 1 < |n.kids| && c < |n.values|
  {
    Node(RemoveAt(n.values, c), n.kids[..c] + [m] + n.kids[c + 2..])
  }

  /** The values around and in two neighbouring children. */
  lemma TwoKids(n: Node, c: nat)
    requires |n.kids| == |n.values| + 1 && c < |n.values|
    ensures Flat(n) == Front(n, c) + (Flat(n.kids[c]) + [n.values[c]] + Flat(n.kids[c + 1])) + Back(n, c + 1)
    ensures Front(n, c + 1) == Front(n, c) + Flat(n.kids[c]) + [n.values[c]]
  {
    hide Flat, Front;
    Parted(n, c);
    FrontNext(n, c);
    assert Front(n, c) + Flat(n.kids[c]) + ([n.values[c]] + Flat(n.kids[c + 1]) + Back(n, c + 1))
        == Front(n, c) + (Flat(n.kids[c]) + [n.values[c]] + Flat(n.kids[c + 1])) + Back(n, c + 1);
  }

  lemma HalvedFlat(n: Node, c: nat, l: Node, v: int, r: Node)
    requires |n.kids| == |n.values| + 1 && c < |n.kids|
    ensures var m := Halved(n, c, l, v, r);
      && |m.kids| == |m.values| + 1 && Flat(m) == Front(n, c) + (Flat(l) + [v] + Flat(r)) + Back(n, c)
      && Front(m, c) == Front(n, c) && Front(m, c + 1) == Front(n, c) + Flat(l) + [v]
  {
    hide Flat, Front, Back;
    var m := Halved(n, c, l, v, r);
    assert Around(n, c, c, m, c + 1);
    AroundSame(n, c, c, m, c + 1);
    TwoKids(m, c);
  }

  lemma ShiftedFlat(n: Node, c: nat, l: Node, v: int, r: Node)
    requires |n.kids| == |n.values| + 1 && c < |n.values|
    ensures var m := Shifted(n, c, l, v, r);
      && |m.kids| == |m.values| + 1 && Flat(m) == Front(n, c) + (Flat(l) + [v] + Flat(r)) + Back(n, c + 1)
      && Front(m, c) == Front(n, c) && Front(m, c + 1) == Front(n, c) + Flat(l) + [v]
  {
    hide Flat, Front, Back;
    var m := Shifted(n, c, l, v, r);
    assert Around(n, c, c + 1, m, c + 1);
    AroundSame(n, c, c + 1, m, c + 1);
    TwoKids(m, c);
  }

  lemma MergedFlat(n: Node, c: nat, k: Node)
    requires |n.kids| == |n.values| + 1 && c < |n.values|
    ensures var m := Merged(n, c, k);
      && |m.kids| == |m.values| + 1 && Flat(m) == Front(n, c) + Flat(k) + Back(n, c + 1) && Front(m, c) == Front(n, c)
  {
    hide Flat, Front, Back;
    var m := Merged(n, c, k);
    assert Around(n, c, c + 1, m, c);
    AroundSame(n, c, c + 1, m, c);
    Parted(m, c);
  }
}
