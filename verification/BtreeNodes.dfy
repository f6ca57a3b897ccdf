/**
 The nodes of GoogleBTree as values: a node holds values and, unless it is a leaf, one child more than values. A place in
 a tree is a path of child indices from the root.
 */
module BtreeNodes {

  datatype Node = Node(values: seq<int>, kids: seq<Node>)

  type Path = seq<nat>

  // ---------- the values in order ----------

  /** The values before child i, or in a leaf before value i. */
  function Front(n: Node, i: nat): seq<int>
    decreases n, i
  {
    if i == 0 || i > |n.values| then [] else Front(n, i - 1) + (if i - 1 < |n.kids| then Flat(n.kids[i - 1]) else []) + [n.values[i - 1]]
  }

  /** The values in and below the node. */
  function Flat(n: Node): seq<int>
    decreases n, |n.values| + 1
  {
    Front(n, |n.values|) + if |n.values| < |n.kids| then Flat(n.kids[|n.values|]) else []
  }

  /** The values of child i. */
  function Inside(n: Node, i: nat): seq<int> {
    if i < |n.kids| then Flat(n.kids[i]) else []
  }

  /** The values after child i, or in a leaf from value i on. */
  function Back(n: Node, i: nat): seq<int>
    decreases |n.values| - i
  {
    if i >= |n.values| then [] else [n.values[i]] + Inside(n, i + 1) + Back(n, i + 1)
  }

  lemma {:induction false} Parted(n: Node, i: nat)
    requires i <= |n.values|
    ensures Flat(n) == Front(n, i) + Inside(n, i) + Back(n, i)
    decreases |n.values| - i
  {
    if i < |n.values| {
      Parted(n, i + 1);
      Regroup(Front(n, i), Inside(n, i), [n.values[i]], Inside(n, i + 1), Back(n, i + 1));
    }
  }

  lemma Regroup(a: seq<int>, b: seq<int>, c: seq<int>, d: seq<int>, e: seq<int>)
    ensures (a + b + c) + d + e == a + b + (c + d + e)
  {
  }

  /** Nodes that begin alike. */
  lemma {:induction false} SameFront(n: Node, m: Node, i: nat)
    requires i <= |n.values| && i <= |m.values|
    requires forall k :: 0 <= k < i ==> n.values[k] == m.values[k] && Inside(n, k) == Inside(m, k)
    ensures Front(n, i) == Front(m, i)
  {
    if i > 0 {
      SameFront(n, m, i - 1);
      assert Inside(n, i - 1) == Inside(m, i - 1);
    }
  }

  /** Value k of one node and the child after it are value k + o of another and the child after that. */
  predicate Match(n: Node, k: nat, m: Node, o: int) {
    k < |n.values| && 0 <= k + o < |m.values| && n.values[k] == m.values[k + o] && Inside(n, k + 1) == Inside(m, k + 1 + o)
  }

  /** Nodes that end alike. */
  lemma {:induction false} SameBack(n: Node, i: nat, m: Node, o: int)
    requires i <= |n.values| && 0 <= i + o && |n.values| + o == |m.values|
    requires forall k :: i <= k < |n.values| ==> Match(n, k, m, o)
    ensures Back(n, i) == Back(m, i + o)
    decreases |n.values| - i
  {
    if i < |n.values| {
      assert Match(n, i, m, o);
      SameBack(n, i + 1, m, o);
    }
  }

  lemma {:induction false} LeafFront(n: Node, i: nat)
    requires n.kids == [] && i <= |n.values|
    ensures Front(n, i) == n.values[..i]
  {
    if i > 0 {
      LeafFront(n, i - 1);
      assert n.values[..i] == n.values[..i - 1] + [n.values[i - 1]];
    }
  }

  lemma LeafFlat(n: Node)
    requires n.kids == []
    ensures Flat(n) == n.values
  {
    LeafFront(n, |n.values|);
    assert n.values[..|n.values|] == n.values;
  }

  // ---------- paths ----------

  predicate Has(n: Node, p: Path)
    decreases |p|
  {
    p == [] || (p[0] < |n.kids| && Has(n.kids[p[0]], p[1..]))
  }

  function Sub(n: Node, p: Path): Node
    requires Has(n, p)
    decreases |p|
  {
    if p == [] then n else Sub(n.kids[p[0]], p[1..])
  }

  function Put(n: Node, p: Path, m: Node): Node
    requires Has(n, p)
    decreases |p|
  {
    if p == [] then m else n.(kids := n.kids[p[0] := Put(n.kids[p[0]], p[1..], m)])
  }

  /** The values before the node at a path. */
  function Before(n: Node, p: Path): seq<int>
    requires Has(n, p)
    decreases |p|
  {
    if p == [] then [] else Front(n, p[0]) + Before(n.kids[p[0]], p[1..])
  }

  function After(n: Node, p: Path): seq<int>
    requires Has(n, p)
    decreases |p|
  {
    if p == [] then [] else After(n.kids[p[0]], p[1..]) + Back(n, p[0])
  }

  /** The values before a position of the node at a path: before its child i, or in a leaf its value i. */
  function Lead(n: Node, p: Path, i: nat): seq<int>
    requires Has(n, p)
  {
    Before(n, p) + Front(Sub(n, p), i)
  }

  lemma {:induction false} PutHas(n: Node, p: Path, m: Node)
    requires Has(n, p)
    ensures Has(Put(n, p, m), p) && Sub(Put(n, p, m), p) == m
    decreases |p|
  {
    if p != [] {
      PutHas(n.kids[p[0]], p[1..], m);
    }
  }

  lemma {:induction false} PathMore(n: Node, p: Path, q: Path)
    requires Has(n, p)
    ensures Has(n, p + q) <==> Has(Sub(n, p), q)
    ensures Has(n, p + q) ==> Sub(n, p + q) == Sub(Sub(n, p), q) && Before(n, p + q) == Before(n, p) + Before(Sub(n, p), q)
    decreases |p|
  {
    if p == [] {
      assert p + q == q;
    } else {
      assert (p + q)[0] == p[0] && (p + q)[1..] == p[1..] + q;
      PathMore(n.kids[p[0]], p[1..], q);
      if Has(n, p + q) {
        assert Before(n, p + q) == Front(n, p[0]) + (Before(n.kids[p[0]], p[1..]) + Before(Sub(n, p), q));
      }
    }
  }

  lemma PathChild(n: Node, p: Path, c: nat)
    requires Has(n, p)
    ensures Has(n, p + [c]) <==> c < |Sub(n, p).kids|
    ensures Has(n, p + [c]) ==> Sub(n, p + [c]) == Sub(n, p).kids[c] && Before(n, p + [c]) == Before(n, p) + Front(Sub(n, p), c)
  {
    PathMore(n, p, [c]);
    assert [c][1..] == [];
    if c < |Sub(n, p).kids| {
      assert Before(Sub(n, p), [c]) == Front(Sub(n, p), c) + [];
    }
  }

  // ---------- well-formed trees ----------

  /** Which node of the tree, if any, may be without values. */
  datatype Hole = NoHole | HoleAt(path: Path)

  function HoleIn(h: Hole, i: nat): Hole {
    if h.HoleAt? && h.path != [] && h.path[0] == i then HoleAt(h.path[1..]) else NoHole
  }

  /** All leaves are at depth d, each node has at most size values and but for the hole at least one. */
  predicate Good(n: Node, d: nat, size: nat, h: Hole)
    decreases d
  {
    && |n.values| <= size && (n.values == [] ==> h == HoleAt([])) && (d == 0 <==> n.kids == [])
    && (d > 0 ==> |n.kids| == |n.values| + 1 && forall i :: 0 <= i < |n.kids| ==> Good(n.kids[i], d - 1, size, HoleIn(h, i)))
  }

  lemma {:induction false} Loosen(n: Node, d: nat, size: nat, h: Hole)
    requires Good(n, d, size, NoHole)
    ensures Good(n, d, size, h)
    decreases d
  {
    if d > 0 {
      forall i | 0 <= i < |n.kids| ensures Good(n.kids[i], d - 1, size, HoleIn(h, i)) {
        assert Good(n.kids[i], d - 1, size, HoleIn(NoHole, i));
        Loosen(n.kids[i], d - 1, size, HoleIn(h, i));
      }
    }
  }

  /** The node at the hole, or at any path in a tree without one. */
  lemma {:induction false} SubGood(n: Node, d: nat, size: nat, h: Hole, p: Path)
    requires Has(n, p) && Good(n, d, size, h) && (h.NoHole? || p <= h.path)
    ensures |p| <= d && Good(Sub(n, p), d - |p|, size, if h.NoHole? then NoHole else HoleAt(h.path[|p|..]))
    decreases |p|
  {
    if p == [] {
      if h.HoleAt? {
        assert h.path[0..] == h.path;
      }
    } else {
      assert Good(n.kids[p[0]], d - 1, size, HoleIn(h, p[0]));
      if h.HoleAt? {
        assert p[0] == h.path[0] && p[1..] <= h.path[1..];
        assert h.path[1..][|p| - 1..] == h.path[|p|..];
      }
      SubGood(n.kids[p[0]], d - 1, size, HoleIn(h, p[0]), p[1..]);
    }
  }

  /** All is good but for the node at the path and what is below it. */
  predicate Rim(n: Node, d: nat, size: nat, p: Path)
    decreases |p|
  {
    p == [] || (
      && d > 0 && 0 < |n.values| <= size && |n.kids| == |n.values| + 1 && p[0] < |n.kids|
      && (forall i :: 0 <= i < |n.kids| && i != p[0] ==> Good(n.kids[i], d - 1, size, NoHole))
      && Rim(n.kids[p[0]], d - 1, size, p[1..]))
  }

  lemma {:induction false} RimOf(n: Node, d: nat, size: nat, h: Hole, p: Path)
    requires Has(n, p) && Good(n, d, size, h) && (h.NoHole? || p <= h.path)
    ensures Rim(n, d, size, p) && |p| <= d
    decreases |p|
  {
    if p != [] {
      assert h.HoleAt? ==> h.path[0] == p[0] && p[1..] <= h.path[1..];
      forall i | 0 <= i < |n.kids| && i != p[0] ensures Good(n.kids[i], d - 1, size, NoHole) {
        assert Good(n.kids[i], d - 1, size, HoleIn(h, i));
      }
      assert Good(n.kids[p[0]], d - 1, size, HoleIn(h, p[0]));
      RimOf(n.kids[p[0]], d - 1, size, HoleIn(h, p[0]), p[1..]);
    }
  }

  lemma {:induction false} RimHas(n: Node, d: nat, size: nat, p: Path)
    requires Rim(n, d, size, p)
    ensures Has(n, p) && |p| <= d
    decreases |p|
  {
    if p != [] {
      RimHas(n.kids[p[0]], d - 1, size, p[1..]);
    }
  }

  function HoleBelow(p: Path, h: Hole): Hole {
    if h.NoHole? then NoHole else HoleAt(p + h.path)
  }

  /** A good node in place of the hole. */
  lemma {:induction false} PutGood(n: Node, d: nat, size: nat, p: Path, m: Node, h: Hole)
    requires Has(n, p) && Rim(n, d, size, p) && |p| <= d && Good(m, d - |p|, size, h)
    ensures Good(Put(n, p, m), d, size, HoleBelow(p, h))
    decreases |p|
  {
    if p == [] {
      if h.HoleAt? {
        assert p + h.path == h.path;
      }
    } else {
      var n', h' := Put(n, p, m), HoleBelow(p, h);
      PutGood(n.kids[p[0]], d - 1, size, p[1..], m, h);
      forall i | 0 <= i < |n'.kids| ensures Good(n'.kids[i], d - 1, size, HoleIn(h', i)) {
        if h.HoleAt? {
          assert (p + h.path)[0] == p[0] && (p + h.path)[1..] == p[1..] + h.path;
        }
      }
    }
  }

  /** What putting a node in the place of another does to the values. */
  lemma {:induction false} PutFlat(n: Node, d: nat, size: nat, p: Path, m: Node)
    requires Has(n, p) && Rim(n, d, size, p)
    ensures Has(Put(n, p, m), p) && Flat(Put(n, p, m)) == Before(n, p) + Flat(m) + After(n, p) && Before(Put(n, p, m), p) == Before(n, p)
    decreases |p|
  {
    hide Flat, Front, Back, Good;
    if p != [] {
      var c := p[0];
      var k := n.kids[c];
      PutFlat(k, d - 1, size, p[1..], m);
      ChildPut(n, c, Put(k, p[1..], m));
      Regroup2(Front(n, c), Before(k, p[1..]), Flat(m), After(k, p[1..]), Back(n, c));
    } else {
      assert [] + Flat(m) + [] == Flat(m);
    }
  }

  lemma GoodAt(n: Node, d: nat, size: nat, h: Hole, i: nat)
    requires Good(n, d, size, h) && i < |n.kids|
    ensures d > 0 && |n.kids| == |n.values| + 1 && Good(n.kids[i], d - 1, size, HoleIn(h, i))
  {
  }

  /** A parent that is like another before child c and from after child e on. */
  predicate Around(n: Node, c: nat, e: nat, m: Node, f: nat) {
    && |n.kids| == |n.values| + 1 && |m.kids| == |m.values| + 1 && c <= e <= |n.values| && c <= f <= |m.values|
    && |n.values| - e == |m.values| - f
    && n.values[..c] == m.values[..c] && n.kids[..c] == m.kids[..c]
    && n.values[e..] == m.values[f..] && n.kids[e + 1..] == m.kids[f + 1..]
  }

  lemma AroundSame(n: Node, c: nat, e: nat, m: Node, f: nat)
    requires Around(n, c, e, m, f)
    ensures Front(m, c) == Front(n, c) && Back(m, f) == Back(n, e)
  {
    hide Flat, Front, Back;
    forall k | 0 <= k < c ensures n.values[k] == m.values[k] && Inside(n, k) == Inside(m, k) {
      assert n.values[..c][k] == m.values[..c][k] && n.kids[..c][k] == m.kids[..c][k];
    }
    SameFront(m, n, c);
    var o := e - f;
    forall k | f <= k < |m.values| ensures Match(m, k, n, o) {
      assert m.values[f..][k - f] == n.values[e..][k - f] && m.kids[f + 1..][k - f] == n.kids[e + 1..][k - f];
    }
    SameBack(m, f, n, o);
  }

  /** Another child in place of child c. */
  lemma ChildPut(n: Node, c: nat, k: Node)
    requires |n.kids| == |n.values| + 1 && c < |n.kids|
    ensures var n' := n.(kids := n.kids[c := k]); Flat(n') == Front(n, c) + Flat(k) + Back(n, c) && Front(n', c) == Front(n, c)
  {
    hide Flat, Front, Back;
    var n' := n.(kids := n.kids[c := k]);
    Parted(n', c);
    assert Around(n, c, c, n', c);
    AroundSame(n, c, c, n', c);
  }

  lemma Regroup2(a: seq<int>, b: seq<int>, c: seq<int>, d: seq<int>, e: seq<int>)
    ensures a + (b + c + d) + e == (a + b) + c + (d + e)
  {
  }

  lemma {:induction false} PutSelf(n: Node, p: Path)
    requires Has(n, p)
    ensures Put(n, p, Sub(n, p)) == n
    decreases |p|
  {
    if p != [] {
      PutSelf(n.kids[p[0]], p[1..]);
    }
  }

  lemma SubFlat(n: Node, d: nat, size: nat, p: Path)
    requires Has(n, p) && Rim(n, d, size, p)
    ensures Flat(n) == Before(n, p) + Flat(Sub(n, p)) + After(n, p)
  {
    PutFlat(n, d, size, p, Sub(n, p));
    PutSelf(n, p);
  }
}
