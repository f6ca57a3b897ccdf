/** One climbing step per branch of InnerNode::insert, remove and anchor_update, on the addressed nodes. */
module Steps {
  import opened Ordered
  import opened Level
  import opened LevelEdits
  import opened Leaves
  import opened Store
  import opened Climb

  /** Where key k leads on level b. */
  ghost function At(h: Heap, levels: seq<seq<Id>>, b: nat, k: int): nat {
    Rank(Bounds(h, levels, b), k)
  }

  /** The node the climb works on: the one covering k on the level above a. */
  ghost predicate Work(h: Heap, levels: seq<seq<Id>>, a: nat, k: int, w: Id) {
    a + 1 < |levels| && At(h, levels, a + 1, k) < |levels[a + 1]| && w == levels[a + 1][At(h, levels, a + 1, k)]
  }

  lemma Member(h: Heap, levels: seq<seq<Id>>, c: Config, b: nat)
    requires Formed(h, levels, c) && 1 <= b < |levels|
    ensures NoDup(levels[b]) && LevelOk(Inners(h, levels[b]), levels[b], c.innerSize)
    ensures forall x :: x in levels[b] ==> x in h && h[x].InnerNode?
  {
  }

  lemma ShapeAt(ns: seq<Inner>, ids: seq<Id>, size: nat, j: nat)
    requires LevelOk(ns, ids, size) && j < |ns|
    ensures Shape(ns[j], size) && (ns[j].hasSibling <==> j < |ns| - 1)
    ensures j < |ns| - 1 ==> ns[j].seps != [] && ns[j].next == ids[j + 1] && Shape(ns[j + 1], size)
    ensures j < |ns| - 1 && ns[j + 1].hasSibling ==> ns[j + 1].seps != []
    ensures |ids| == |ns|
  {
  }

  /** Levels whose nodes are untouched are read the same in the new heap. */
  lemma SameLevels(h: Heap, h': Heap, levels: seq<seq<Id>>)
    requires forall a, x :: 0 <= a < |levels| && x in levels[a] ==> x in h && x in h' && h'[x] == h[x]
    ensures forall a :: 0 <= a < |levels| ==> Inners(h', levels[a]) == Inners(h, levels[a]) && LeavesOf(h', levels[a]) == LeavesOf(h, levels[a])
  {
    forall a | 0 <= a < |levels| ensures Inners(h', levels[a]) == Inners(h, levels[a]) && LeavesOf(h', levels[a]) == LeavesOf(h, levels[a]) {
      assert forall i :: 0 <= i < |levels[a]| ==> levels[a][i] in levels[a];
    }
  }

  lemma RootLevel(h: Heap, w: Id, n: Inner, size: nat)
    requires w in h && h[w] == InnerNode(n) && Shape(n, size) && !n.hasSibling
    ensures Inners(h, [w]) == [n] && LevelOk([n], [w], size)
    ensures FlatSeps([n]) == n.seps && FlatKids([n]) == Kids(n)
  {
    FlatOne(n);
  }

  lemma PlacedPush(h: Heap, levels: seq<seq<Id>>, w: Id, n: Inner)
    requires Placed(h, levels) && levels != [] && w !in h
    ensures Placed(h[w := InnerNode(n)], levels + [[w]])
  {
    var levels' := levels + [[w]];
    assert forall b :: 0 <= b < |levels| ==> levels'[b] == levels[b];
  }

  lemma PlacedPop(h: Heap, levels: seq<seq<Id>>, w: Id)
    requires Placed(h, levels) && levels != [] && w in levels[|levels| - 1]
    ensures Placed(h - {w}, levels[..|levels| - 1])
  {
    var levels' := levels[..|levels| - 1];
    assert forall b :: 0 <= b < |levels'| ==> levels'[b] == levels[b];
  }

  lemma TwoOnTop(mid: int, r: Id, ch: seq<Id>)
    requires |ch| == 1
    ensures EditSeps(Insert(0, mid, r), []) == [mid] && EditKids(Insert(0, mid, r), ch) == [ch[0], r]
  {
  }

  /** A new root leaves the levels below it as they are. */
  lemma BelowNewRoot(h: Heap, levels: seq<seq<Id>>, w: Id, n: Inner)
    requires Placed(h, levels) && levels != [] && w !in h
    ensures Placed(h[w := InnerNode(n)], levels + [[w]])
    ensures forall a :: 0 <= a < |levels| ==>
      && (levels + [[w]])[a] == levels[a] && Inners(h[w := InnerNode(n)], levels[a]) == Inners(h, levels[a])
      && LeavesOf(h[w := InnerNode(n)], levels[a]) == LeavesOf(h, levels[a])
  {
    SameLevels(h, h[w := InnerNode(n)], levels);
    PlacedPush(h, levels, w, n);
  }

  /** The bounds of a level below the new root. */
  lemma BoundsBelow(h: Heap, h': Heap, levels: seq<seq<Id>>, levels': seq<seq<Id>>, b: nat)
    requires b < |levels| && b < |levels'| && levels'[b] == levels[b]
    requires Inners(h', levels[b]) == Inners(h, levels[b]) && LeavesOf(h', levels[b]) == LeavesOf(h, levels[b])
    ensures Bounds(h', levels', b) == Bounds(h, levels, b)
  {
  }

  lemma StepNewRoot(h: Heap, levels: seq<seq<Id>>, c: Config, a: nat, k: int, mid: int, r: Id, ch: seq<Id>, w: Id)
    requires ConfigOk(c) && a + 1 == |levels| && w !in h
    requires Pending(h, levels, c, a, Insert(0, mid, r), k, mid, [], ch)
    ensures TreeOk(h[w := InnerNode(Inner([mid], [ch[0]], r, false))], levels + [[w]], c)
  {
    hide FlatSeps, FlatKids, Sorted, LevelOk, LeavesOk, Highs, LeafHighs, EditSeps, EditKids, Inners, LeavesOf, Placed, Bounds, Rank;
    var n := Inner([mid], [ch[0]], r, false);
    var h', levels' := h[w := InnerNode(n)], levels + [[w]];
    TwoOnTop(mid, r, ch);
    RootLevel(h', w, n, c.innerSize);
    BelowNewRoot(h, levels, w, n);
    assert levels'[|levels|] == [w];
    forall b | 1 <= b < |levels'| ensures LinkedAt(h', levels', b) {
      BoundsBelow(h, h', levels, levels', b - 1);
      if b < |levels| {
        assert LinkedAt(h, levels, b);
      }
    }
  }

  /** The level above a pending edit is well formed, and the node the climb works on is one of its nodes. */
  lemma WorkNode(h: Heap, levels: seq<seq<Id>>, c: Config, a: nat, e: Edit, k: int, mid: int, s: seq<int>, ch: seq<Id>, w: Id)
    requires Work(h, levels, a, k, w) && Pending(h, levels, c, a, e, k, mid, s, ch)
    ensures var ns, j := Inners(h, levels[a + 1]), At(h, levels, a + 1, k);
            && LevelOk(ns, levels[a + 1], c.innerSize) && j < |ns| && j == Rank(Highs(ns), k)
            && ns[j] == InnerOf(h, w) && IsInner(h, w)
            && |ns[j].children| == |ns[j].seps| <= c.innerSize
            && (ns[j].hasSibling <==> j + 1 < |ns|)
            && (j + 1 < |ns| ==> ns[j].seps != [] && ns[j].next == levels[a + 1][j + 1] && |ns[j + 1].children| == |ns[j + 1].seps| <= c.innerSize)
  {
    hide FlatSeps, FlatKids, Sorted, LevelOk, LeavesOk, Rank, Linked, Highs, Placed;
    Member(h, levels, c, a + 1);
    assert w in levels[a + 1];
    ShapeAt(Inners(h, levels[a + 1]), levels[a + 1], c.innerSize, At(h, levels, a + 1, k));
  }

  // ---------- removal ----------

  /** Writing one node with nothing left to do above. */
  lemma StepWrite(h: Heap, levels: seq<seq<Id>>, c: Config, a: nat, e: Edit, k: int, mid: int, s: seq<int>, ch: seq<Id>, w: Id, n: Inner)
    requires Work(h, levels, a, k, w) && Pending(h, levels, c, a, e, k, mid, s, ch)
    requires var ns := Inners(h, levels[a + 1]);
             var ns' := Splice(ns, At(h, levels, a + 1, k), 1, [n]);
             && LevelOk(ns', levels[a + 1], c.innerSize)
             && Absorbs(ns, ns', e) && Raises(ns, levels[a + 1], ns', levels[a + 1], Keep)
    ensures TreeOk(h[w := InnerNode(n)], levels, c)
  {
    hide FlatSeps, FlatKids, Sorted, Placed, LevelOk, LeavesOk, Rank, Linked, Highs, Absorbs, Raises;
    var b := a + 1;
    var ids, ns := levels[b], Inners(h, levels[b]);
    var j := At(h, levels, b, k);
    Member(h, levels, c, b);
    WriteInner(h, ids, j, n);
    assert Splice(ns, j, 1, [n]) == ns[j := n];
    var h' := h[w := InnerNode(n)];
    Climbed(h, h', levels, c, a, e, k, mid, s, ch, ids, Keep, 0);
    assert levels[b := ids] == levels;
    Settled(h', levels, c, b, k, 0, Highs(ns), ids);
  }

  /** The high key of a node that is not the last. */
  lemma HighOf(h: Heap, ids: seq<Id>, j: nat)
    requires j + 1 < |ids| && forall x :: x in ids ==> x in h && h[x].InnerNode?
    ensures |Highs(Inners(h, ids))| == |ids| - 1 && Highs(Inners(h, ids))[j] == Last(InnerOf(h, ids[j]).seps)
  {
  }

  /** Absorbing the right sibling, which leaves one deletion for the level above. */
  lemma StepFree(h: Heap, levels: seq<seq<Id>>, c: Config, a: nat, e: Edit, k: int, mid: int, s: seq<int>, ch: seq<Id>, w: Id, n: Inner, r: Id, mid': int)
    requires Work(h, levels, a, k, w) && Pending(h, levels, c, a, e, k, mid, s, ch)
    requires At(h, levels, a + 1, k) + 1 < |levels[a + 1]|
    requires var ns := Inners(h, levels[a + 1]);
             var j := At(h, levels, a + 1, k);
             var ns' := Splice(ns, j, 2, [n]);
             var ids' := RemoveAt(levels[a + 1], j + 1);
             && LevelOk(ns', ids', c.innerSize)
             && Absorbs(ns, ns', e) && Raises(ns, levels[a + 1], ns', ids', Delete(j))
    requires mid' == Last(InnerOf(h, w).seps) && r == levels[a + 1][At(h, levels, a + 1, k) + 1]
    ensures var b, j := a + 1, At(h, levels, a + 1, k);
            var h', levels' := h[w := InnerNode(n)] - {r}, DropNode(levels, b, j);
            && Pending(h', levels', c, b, Delete(j), k, mid', Bounds(h, levels, b), Row(levels, b))
            && (forall d :: b < d < |levels| ==> Bounds(h', levels', d) == Bounds(h, levels, d))
  {
    hide FlatSeps, FlatKids, Sorted, Placed, LevelOk, LeavesOk, Rank, Linked, Highs, Absorbs, Raises;
    var b := a + 1;
    var ids, ns := levels[b], Inners(h, levels[b]);
    var j := At(h, levels, b, k);
    Member(h, levels, c, b);
    FreeInner(h, ids, j, n);
    NoDupRemove(ids, j + 1);
    BoundsSize(h, levels, c, b);
    HighOf(h, ids, j);
    var h' := h[w := InnerNode(n)] - {ids[j + 1]};
    Climbed(h, h', levels, c, a, e, k, mid, s, ch, RemoveAt(ids, j + 1), Delete(j), mid');
  }

  /** Rewriting a node and its right sibling so that the bound between them moves down. */
  lemma StepShift(h: Heap, levels: seq<seq<Id>>, c: Config, a: nat, e: Edit, k: int, mid: int, s: seq<int>, ch: seq<Id>, w: Id, n: Inner, r: Id, m: Inner)
    requires Work(h, levels, a, k, w) && Pending(h, levels, c, a, e, k, mid, s, ch)
    requires At(h, levels, a + 1, k) + 1 < |levels[a + 1]|
    requires var ns := Inners(h, levels[a + 1]);
             var j := At(h, levels, a + 1, k);
             var ns' := Splice(ns, j, 2, [n, m]);
             && LevelOk(ns', levels[a + 1], c.innerSize)
             && Absorbs(ns, ns', e) && Raises(ns, levels[a + 1], ns', levels[a + 1], Lower(j, Last(n.seps)))
             && j < |Highs(ns)| && Last(n.seps) <= Highs(ns)[j]
    requires r == levels[a + 1][At(h, levels, a + 1, k) + 1]
    ensures var b := a + 1;
            var j := At(h, levels, b, k);
            var h' := h[w := InnerNode(n)][r := InnerNode(m)];
            && Pending(h', levels, c, b, Lower(j, Last(n.seps)), k, Last(n.seps), Bounds(h, levels, b), Row(levels, b))
            && (forall d :: b < d < |levels| ==> Bounds(h', levels, d) == Bounds(h, levels, d))
  {
    hide FlatSeps, FlatKids, Sorted, Placed, LevelOk, LeavesOk, Rank, Linked, Highs, Absorbs, Raises;
    var b := a + 1;
    var ids, ns := levels[b], Inners(h, levels[b]);
    var j := At(h, levels, b, k);
    Member(h, levels, c, b);
    WriteInner(h, ids, j, n);
    WriteInner(h[w := InnerNode(n)], ids, j + 1, m);
    assert Splice(ns, j, 2, [n, m]) == ns[j := n][j + 1 := m];
    var h' := h[w := InnerNode(n)][ids[j + 1] := InnerNode(m)];
    Climbed(h, h', levels, c, a, e, k, mid, s, ch, ids, Lower(j, Last(n.seps)), Last(n.seps));
    assert levels[b := ids] == levels;
  }

  /** Rewriting one node so that its own bound moves down. */
  lemma StepAnchor(h: Heap, levels: seq<seq<Id>>, c: Config, a: nat, e: Edit, k: int, mid: int, s: seq<int>, ch: seq<Id>, w: Id, n: Inner)
    requires Work(h, levels, a, k, w) && Pending(h, levels, c, a, e, k, mid, s, ch)
    requires var ns := Inners(h, levels[a + 1]);
             var j := At(h, levels, a + 1, k);
             var ns' := Splice(ns, j, 1, [n]);
             && LevelOk(ns', levels[a + 1], c.innerSize)
             && Absorbs(ns, ns', e) && Raises(ns, levels[a + 1], ns', levels[a + 1], Lower(j, mid))
             && j < |Highs(ns)| && mid <= Highs(ns)[j]
    ensures var b := a + 1;
            var j := At(h, levels, b, k);
            var h' := h[w := InnerNode(n)];
            && Pending(h', levels, c, b, Lower(j, mid), k, mid, Bounds(h, levels, b), Row(levels, b))
            && (forall d :: b < d < |levels| ==> Bounds(h', levels, d) == Bounds(h, levels, d))
  {
    hide FlatSeps, FlatKids, Sorted, Placed, LevelOk, LeavesOk, Rank, Linked, Highs, Absorbs, Raises;
    var b := a + 1;
    var ids, ns := levels[b], Inners(h, levels[b]);
    var j := At(h, levels, b, k);
    Member(h, levels, c, b);
    WriteInner(h, ids, j, n);
    assert Splice(ns, j, 1, [n]) == ns[j := n];
    var h' := h[w := InnerNode(n)];
    Climbed(h, h', levels, c, a, e, k, mid, s, ch, ids, Lower(j, mid), mid);
    assert levels[b := ids] == levels;
  }

  // ---------- insertion ----------

  lemma ConfigSizes(c: Config)
    requires ConfigOk(c)
    ensures c.leafSize >= 4 && c.innerSize >= 4
  {
  }

  /** The two nodes a full parent n becomes when the new child r is inserted behind current. */
  ghost predicate SplitOf(n: Inner, mid: int, current: Id, r: Id, rid: Id, p: Inner, q: Inner) {
    |n.children| == |n.seps| && (p, q) == Split(n, Rank(n.seps, mid), mid, current, r, rid)
  }

  ghost predicate InsertionOf(n: Inner, mid: int, current: Id, r: Id, p: Inner) {
    |n.children| == |n.seps| && p == InsertRoom(n, Rank(n.seps, mid), mid, current, r)
  }

  lemma StepInsertRoom(h: Heap, levels: seq<seq<Id>>, c: Config, a: nat, k: int, mid: int, r: Id, s: seq<int>, ch: seq<Id>, w: Id, p: Inner)
    requires Work(h, levels, a, k, w) && Rank(s, k) < |ch| && Pending(h, levels, c, a, Insert(Rank(s, k), mid, r), k, mid, s, ch)
    requires |InnerOf(h, w).seps| < c.innerSize && InsertionOf(InnerOf(h, w), mid, ch[Rank(s, k)], r, p)
    ensures TreeOk(h[w := InnerNode(p)], levels, c)
  {
    hide FlatSeps, FlatKids, Sorted, LevelOk, Rank, Highs, Absorbs, Raises, Pending, Bounds, TreeOk, InsertRoom, Splice, Inners, Kids, Off, InnerOf, At;
    var e, j := Insert(Rank(s, k), mid, r), At(h, levels, a + 1, k);
    WorkIndex(h, levels, c, a, e, k, mid, s, ch);
    WorkNode(h, levels, c, a, e, k, mid, s, ch, w);
    var ns := Inners(h, levels[a + 1]);
    InsertRoomEdit(ns, levels[a + 1], c.innerSize, j, Rank(ns[j].seps, mid), mid, ch[e.pos], r);
    StepWrite(h, levels, c, a, e, k, mid, s, ch, w, p);
  }

  lemma StepSplit(h: Heap, levels: seq<seq<Id>>, c: Config, a: nat, k: int, mid: int, r: Id, s: seq<int>, ch: seq<Id>, w: Id, rid: Id, x: Inner, y: Inner)
    requires ConfigOk(c) && Work(h, levels, a, k, w) && rid !in h
    requires Rank(s, k) < |ch| && Pending(h, levels, c, a, Insert(Rank(s, k), mid, r), k, mid, s, ch)
    requires |InnerOf(h, w).seps| == c.innerSize && SplitOf(InnerOf(h, w), mid, ch[Rank(s, k)], r, rid, x, y)
    ensures var b, j := a + 1, At(h, levels, a + 1, k);
            var h', levels' := h[w := InnerNode(x)][rid := InnerNode(y)], AddNode(levels, b, j, rid);
            && Pending(h', levels', c, b, Insert(j, Last(x.seps), rid), k, Last(x.seps), Bounds(h, levels, b), Row(levels, b))
            && (forall d :: b < d < |levels| ==> Bounds(h', levels', d) == Bounds(h, levels, d))
  {
    hide FlatSeps, FlatKids, Sorted, LevelOk, Rank, Highs, Absorbs, Raises, Pending, Bounds, TreeOk, Split, Splice, AddNode, Row, InsertAt, Inners, Kids, Off, InnerOf, At, ConfigOk;
    ConfigSizes(c);
    var e, j := Insert(Rank(s, k), mid, r), At(h, levels, a + 1, k);
    WorkIndex(h, levels, c, a, e, k, mid, s, ch);
    WorkNode(h, levels, c, a, e, k, mid, s, ch, w);
    var ns := Inners(h, levels[a + 1]);
    SplitEdit(ns, levels[a + 1], c.innerSize, j, Rank(ns[j].seps, mid), mid, ch[e.pos], r, rid);
    StepAdd(h, levels, c, a, e, k, mid, s, ch, w, x, rid, y);
  }

  /** Writing a node and adding one at its right, which leaves one insertion for the level above. */
  lemma StepAdd(h: Heap, levels: seq<seq<Id>>, c: Config, a: nat, e: Edit, k: int, mid: int, s: seq<int>, ch: seq<Id>, w: Id, x: Inner, rid: Id, y: Inner)
    requires Work(h, levels, a, k, w) && Pending(h, levels, c, a, e, k, mid, s, ch) && rid !in h
    requires var j := At(h, levels, a + 1, k);
             var ns, ids := Inners(h, levels[a + 1]), levels[a + 1];
             var ns', ids' := Splice(ns, j, 1, [x, y]), InsertAt(ids, j + 1, rid);
             && LevelOk(ns', ids', c.innerSize)
             && Absorbs(ns, ns', e) && Raises(ns, ids, ns', ids', Insert(j, Last(x.seps), rid))
    ensures var b, j := a + 1, At(h, levels, a + 1, k);
            var h', levels' := h[w := InnerNode(x)][rid := InnerNode(y)], AddNode(levels, b, j, rid);
            && Pending(h', levels', c, b, Insert(j, Last(x.seps), rid), k, Last(x.seps), Bounds(h, levels, b), Row(levels, b))
            && (forall d :: b < d < |levels| ==> Bounds(h', levels', d) == Bounds(h, levels, d))
  {
    hide FlatSeps, FlatKids, Sorted, Placed, LevelOk, LeavesOk, Rank, Linked, Highs, Absorbs, Raises;
    var b, j := a + 1, At(h, levels, a + 1, k);
    var ids := levels[b];
    Member(h, levels, c, b);
    assert rid !in ids;
    AddInner(h, ids, j, x, rid, y);
    NoDupInsert(ids, j + 1, rid);
    var h' := h[w := InnerNode(x)][rid := InnerNode(y)];
    Climbed(h, h', levels, c, a, e, k, mid, s, ch, InsertAt(ids, j + 1, rid), Insert(j, Last(x.seps), rid), Last(x.seps));
  }

  /** What a tree says of its root. */
  lemma RootOf(h: Heap, levels: seq<seq<Id>>, c: Config)
    requires TreeOk(h, levels, c) && |levels| > 1
    ensures var w := levels[|levels| - 1][0];
            && levels[|levels| - 1] == [w] && w in h && h[w] == InnerNode(InnerOf(h, w)) && Placed(h, levels)
            && Shape(InnerOf(h, w), c.innerSize) && !InnerOf(h, w).hasSibling
  {
    hide FlatSeps, FlatKids, Sorted, LeavesOk, Highs, LeafHighs, Linked;
    var top := |levels| - 1;
    assert levels[top][0] in levels[top];
    ShapeAt(Inners(h, levels[top]), levels[top], c.innerSize, 0);
  }

  /** Taking the root away leaves the levels below it as they are. */
  lemma BelowOldRoot(h: Heap, levels: seq<seq<Id>>, w: Id)
    requires Placed(h, levels) && |levels| > 1 && levels[|levels| - 1] == [w]
    ensures Placed(h - {w}, levels[..|levels| - 1])
    ensures forall a :: 0 <= a < |levels| - 1 ==>
      && levels[..|levels| - 1][a] == levels[a] && Inners(h - {w}, levels[a]) == Inners(h, levels[a])
      && LeavesOf(h - {w}, levels[a]) == LeavesOf(h, levels[a])
  {
    var levels' := levels[..|levels| - 1];
    assert w in levels[|levels| - 1];
    PlacedPop(h, levels, w);
    assert forall a :: 0 <= a < |levels'| ==> levels'[a] == levels[a];
    SameLevels(h, h - {w}, levels');
  }

  /** A root without separators has one child, which is the whole level below: that child becomes the root. */
  lemma Collapse(h: Heap, levels: seq<seq<Id>>, c: Config)
    requires TreeOk(h, levels, c) && |levels| > 1
    requires InnerOf(h, levels[|levels| - 1][0]).seps == []
    ensures TreeOk(h - {levels[|levels| - 1][0]}, levels[..|levels| - 1], c)
    ensures [InnerOf(h, levels[|levels| - 1][0]).next] == levels[|levels| - 2]
  {
    hide FlatSeps, FlatKids, Sorted, LevelOk, LeavesOk, Highs, LeafHighs, Inners, LeavesOf, Placed, Bounds, InnerOf;
    var top := |levels| - 1;
    var w := levels[top][0];
    var h', levels' := h - {w}, levels[..top];
    RootOf(h, levels, c);
    RootLevel(h, w, InnerOf(h, w), c.innerSize);
    BelowOldRoot(h, levels, w);
    assert LinkedAt(h, levels, top);
    forall b | 1 <= b < |levels'| ensures LinkedAt(h', levels', b) {
      assert LinkedAt(h, levels, b);
      BoundsBelow(h, h', levels, levels', b - 1);
    }
  }
}
