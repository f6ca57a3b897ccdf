/** The climbing steps of a removal, one per branch of InnerNode::remove, bound_remove and anchor_update. */
module RemoveSteps {
  import opened Ordered
  import opened Level
  import opened LevelEdits
  import opened Leaves
  import opened Routing
  import opened Store
  import opened Climb
  import opened Steps

  /** A pending deletion or update is never at the top, and the search finds an existing separator. */
  lemma FoundIndex(h: Heap, levels: seq<seq<Id>>, c: Config, a: nat, e: Edit, k: int, mid: int, s: seq<int>, ch: seq<Id>, w: Id)
    requires Work(h, levels, a, k, w) && Pending(h, levels, c, a, e, k, mid, s, ch) && (e.Delete? || e.Lower?)
    ensures var ns, j := Inners(h, levels[a + 1]), At(h, levels, a + 1, k);
            j < |ns| && Rank(InnerOf(h, w).seps, mid) < |InnerOf(h, w).seps|
  {
    hide FlatSeps, FlatKids, Sorted, LevelOk, LeavesOk, Rank, Linked, Highs, Placed, Bounds, Inners, InnerOf;
    WorkIndex(h, levels, c, a, e, k, mid, s, ch);
    WorkNode(h, levels, c, a, e, k, mid, s, ch, w);
    var ns, j := Inners(h, levels[a + 1]), At(h, levels, a + 1, k);
    FlatAt(ns, levels[a + 1], c.innerSize, j);
  }

  lemma StepRemoveInside(h: Heap, levels: seq<seq<Id>>, c: Config, a: nat, p: nat, k: int, mid: int, s: seq<int>, ch: seq<Id>, w: Id, i: nat, n: Inner)
    requires Work(h, levels, a, k, w) && Pending(h, levels, c, a, Delete(p), k, mid, s, ch)
    requires i == Rank(InnerOf(h, w).seps, mid) && i + 1 < |InnerOf(h, w).seps|
    requires |InnerOf(h, w).children| == |InnerOf(h, w).seps| && n == RemoveInside(InnerOf(h, w), i)
    ensures TreeOk(h[w := InnerNode(n)], levels, c)
  {
    hide FlatSeps, FlatKids, Sorted, LevelOk, Rank, Highs, Absorbs, Raises, Pending, Bounds, TreeOk, RemoveInside, Splice, Inners, Kids, Off, InnerOf, At;
    WorkIndex(h, levels, c, a, Delete(p), k, mid, s, ch);
    WorkNode(h, levels, c, a, Delete(p), k, mid, s, ch, w);
    RemoveInsideEdit(Inners(h, levels[a + 1]), levels[a + 1], c.innerSize, At(h, levels, a + 1, k), i);
    StepWrite(h, levels, c, a, Delete(p), k, mid, s, ch, w, n);
  }

  lemma StepRemoveMerge(h: Heap, levels: seq<seq<Id>>, c: Config, a: nat, p: nat, k: int, mid: int, s: seq<int>, ch: seq<Id>, w: Id, i: nat, n: Inner, m: Inner)
    requires ConfigOk(c) && Work(h, levels, a, k, w) && Pending(h, levels, c, a, Delete(p), k, mid, s, ch)
    requires i == Rank(InnerOf(h, w).seps, mid) && i + 1 < |InnerOf(h, w).seps| && InnerOf(h, w).hasSibling
    requires |InnerOf(h, w).children| == |InnerOf(h, w).seps| && n == RemoveInside(InnerOf(h, w), i)
    requires MergeGuard(n, InnerOf(h, n.next), c.innerMerge) && m == MergeRight(n, InnerOf(h, n.next))
    ensures var b, j := a + 1, At(h, levels, a + 1, k);
            var h', levels' := h[w := InnerNode(m)] - {n.next}, DropNode(levels, b, j);
            && Pending(h', levels', c, b, Delete(j), k, Last(n.seps), Bounds(h, levels, b), Row(levels, b))
            && (forall d :: b < d < |levels| ==> Bounds(h', levels', d) == Bounds(h, levels, d))
  {
    hide FlatSeps, FlatKids, Sorted, LevelOk, Rank, Highs, Absorbs, Raises, Pending, Bounds, TreeOk, MergeRight, Splice, Kids, Off, At, DropNode, Row;
    WorkIndex(h, levels, c, a, Delete(p), k, mid, s, ch);
    WorkNode(h, levels, c, a, Delete(p), k, mid, s, ch, w);
    var ns, j := Inners(h, levels[a + 1]), At(h, levels, a + 1, k);
    assert ns[j + 1] == InnerOf(h, n.next);
    RemoveMergeEdit(ns, levels[a + 1], c.innerSize, j, i);
    StepFree(h, levels, c, a, Delete(p), k, mid, s, ch, w, m, n.next, Last(n.seps));
  }

  lemma StepBorderLast(h: Heap, levels: seq<seq<Id>>, c: Config, a: nat, p: nat, k: int, mid: int, s: seq<int>, ch: seq<Id>, w: Id, n: Inner)
    requires Work(h, levels, a, k, w) && Pending(h, levels, c, a, Delete(p), k, mid, s, ch)
    requires Rank(InnerOf(h, w).seps, mid) + 1 == |InnerOf(h, w).seps| && !InnerOf(h, w).hasSibling
    requires |InnerOf(h, w).children| == |InnerOf(h, w).seps| && n == BorderLast(InnerOf(h, w))
    ensures TreeOk(h[w := InnerNode(n)], levels, c)
  {
    hide FlatSeps, FlatKids, Sorted, LevelOk, Rank, Highs, Absorbs, Raises, Pending, Bounds, TreeOk, BorderLast, Splice, Inners, Kids, Off, InnerOf, At;
    WorkIndex(h, levels, c, a, Delete(p), k, mid, s, ch);
    WorkNode(h, levels, c, a, Delete(p), k, mid, s, ch, w);
    BorderLastEdit(Inners(h, levels[a + 1]), levels[a + 1], c.innerSize, At(h, levels, a + 1, k));
    StepWrite(h, levels, c, a, Delete(p), k, mid, s, ch, w, n);
  }

  lemma StepBorderMerge(h: Heap, levels: seq<seq<Id>>, c: Config, a: nat, p: nat, k: int, mid: int, s: seq<int>, ch: seq<Id>, w: Id, r: Id, m: Inner)
    requires ConfigOk(c) && Work(h, levels, a, k, w) && Pending(h, levels, c, a, Delete(p), k, mid, s, ch)
    requires Rank(InnerOf(h, w).seps, mid) + 1 == |InnerOf(h, w).seps| && InnerOf(h, w).hasSibling && r == InnerOf(h, w).next
    requires |InnerOf(h, w).children| == |InnerOf(h, w).seps| && |InnerOf(h, r).children| == |InnerOf(h, r).seps|
    requires BorderMergeGuard(InnerOf(h, w), InnerOf(h, r), c.innerMerge) && m == BorderMerge(InnerOf(h, w), InnerOf(h, r))
    ensures var b, j := a + 1, At(h, levels, a + 1, k);
            var h', levels' := h[w := InnerNode(m)] - {r}, DropNode(levels, b, j);
            && Pending(h', levels', c, b, Delete(j), k, mid, Bounds(h, levels, b), Row(levels, b))
            && (forall d :: b < d < |levels| ==> Bounds(h', levels', d) == Bounds(h, levels, d))
  {
    hide FlatSeps, FlatKids, Sorted, LevelOk, Highs, Absorbs, Raises, Pending, Bounds, TreeOk, BorderMerge, Splice, Kids, At, DropNode, Row, Rank;
    WorkIndex(h, levels, c, a, Delete(p), k, mid, s, ch);
    WorkNode(h, levels, c, a, Delete(p), k, mid, s, ch, w);
    var ns, j := Inners(h, levels[a + 1]), At(h, levels, a + 1, k);
    assert ns[j + 1] == InnerOf(h, r);
    BorderMergeEdit(ns, levels[a + 1], c.innerSize, j);
    DeletedIsLast(h, levels, c, a, p, k, mid, s, ch, w);
    StepFree(h, levels, c, a, Delete(p), k, mid, s, ch, w, m, r, mid);
  }

  /** The separator found at the border is the node's own bound. */
  lemma DeletedIsLast(h: Heap, levels: seq<seq<Id>>, c: Config, a: nat, p: nat, k: int, mid: int, s: seq<int>, ch: seq<Id>, w: Id)
    requires Work(h, levels, a, k, w) && Pending(h, levels, c, a, Delete(p), k, mid, s, ch)
    requires Rank(InnerOf(h, w).seps, mid) + 1 == |InnerOf(h, w).seps|
    ensures mid == Last(InnerOf(h, w).seps)
  {
    hide FlatSeps, FlatKids, Sorted, LevelOk, LeavesOk, Rank, Linked, Highs, Placed, Bounds, Inners, InnerOf;
    WorkIndex(h, levels, c, a, Delete(p), k, mid, s, ch);
    WorkNode(h, levels, c, a, Delete(p), k, mid, s, ch, w);
    FlatAt(Inners(h, levels[a + 1]), levels[a + 1], c.innerSize, At(h, levels, a + 1, k));
  }

  lemma StepBorderShift(h: Heap, levels: seq<seq<Id>>, c: Config, a: nat, p: nat, k: int, mid: int, s: seq<int>, ch: seq<Id>, w: Id, r: Id, n: Inner, m: Inner)
    requires Work(h, levels, a, k, w) && Pending(h, levels, c, a, Delete(p), k, mid, s, ch)
    requires Rank(InnerOf(h, w).seps, mid) + 1 == |InnerOf(h, w).seps| && InnerOf(h, w).hasSibling && r == InnerOf(h, w).next
    requires |InnerOf(h, w).children| == |InnerOf(h, w).seps| > 1 && |InnerOf(h, r).children| == |InnerOf(h, r).seps| > 0
    requires (n, m) == BorderShift(InnerOf(h, w), InnerOf(h, r))
    ensures var b, j := a + 1, At(h, levels, a + 1, k);
            var h' := h[w := InnerNode(n)][r := InnerNode(m)];
            && Pending(h', levels, c, b, Lower(j, Last(n.seps)), k, Last(n.seps), Bounds(h, levels, b), Row(levels, b))
            && (forall d :: b < d < |levels| ==> Bounds(h', levels, d) == Bounds(h, levels, d))
  {
    hide FlatSeps, FlatKids, Sorted, LevelOk, Absorbs, Raises, Pending, Bounds, TreeOk, BorderShift, Splice, Kids, Off, At, Row, Rank;
    WorkIndex(h, levels, c, a, Delete(p), k, mid, s, ch);
    WorkNode(h, levels, c, a, Delete(p), k, mid, s, ch, w);
    var ns, j := Inners(h, levels[a + 1]), At(h, levels, a + 1, k);
    assert ns[j + 1] == InnerOf(h, r);
    BorderShiftEdit(ns, levels[a + 1], c.innerSize, j);
    SortedSeps(h, levels, c, a, Delete(p), k, mid, s, ch, w);
    ShiftedBound(ns[j], ns[j + 1]);
    StepShift(h, levels, c, a, Delete(p), k, mid, s, ch, w, n, r, m);
  }

  lemma ShiftedBound(n: Inner, rn: Inner)
    requires |n.children| == |n.seps| > 1 && |rn.children| == |rn.seps| > 0 && Sorted(n.seps)
    ensures Last(BorderShift(n, rn).0.seps) <= Last(n.seps)
  {
  }

  lemma SortedSeps(h: Heap, levels: seq<seq<Id>>, c: Config, a: nat, e: Edit, k: int, mid: int, s: seq<int>, ch: seq<Id>, w: Id)
    requires Work(h, levels, a, k, w) && Pending(h, levels, c, a, e, k, mid, s, ch)
    ensures Sorted(InnerOf(h, w).seps)
  {
    hide FlatSeps, FlatKids, LevelOk, LeavesOk, Rank, Linked, Highs, Placed, Bounds, Inners, InnerOf;
    WorkNode(h, levels, c, a, e, k, mid, s, ch, w);
    var ns, j := Inners(h, levels[a + 1]), At(h, levels, a + 1, k);
    FlatAt(ns, levels[a + 1], c.innerSize, j);
    var fs, o := FlatSeps(ns), Off(ns, j);
    forall x, y | 0 <= x < y < |ns[j].seps| ensures ns[j].seps[x] < ns[j].seps[y] {
      assert fs[o + x] < fs[o + y];
    }
  }

  /** Moving a bound down inside a node completes the tree, unless it is the node's own bound. */
  lemma StepAnchorUpdate(h: Heap, levels: seq<seq<Id>>, c: Config, a: nat, p: nat, k: int, mid: int, s: seq<int>, ch: seq<Id>, w: Id, i: nat, n: Inner)
    requires Work(h, levels, a, k, w) && Pending(h, levels, c, a, Lower(p, mid), k, mid, s, ch)
    requires i == Rank(InnerOf(h, w).seps, mid) && i < |InnerOf(h, w).seps| && n == AnchorUpdate(InnerOf(h, w), i, mid)
    ensures var b, j := a + 1, At(h, levels, a + 1, k);
            var h' := h[w := InnerNode(n)];
            if n.hasSibling && i == |n.seps| - 1 then
              && Pending(h', levels, c, b, Lower(j, mid), k, mid, Bounds(h, levels, b), Row(levels, b))
              && (forall d :: b < d < |levels| ==> Bounds(h', levels, d) == Bounds(h, levels, d))
            else TreeOk(h', levels, c)
  {
    hide FlatSeps, FlatKids, Sorted, LevelOk, Absorbs, Raises, Pending, Bounds, TreeOk, Splice, Kids, Off, At, Row, Rank;
    WorkIndex(h, levels, c, a, Lower(p, mid), k, mid, s, ch);
    WorkNode(h, levels, c, a, Lower(p, mid), k, mid, s, ch, w);
    var ns, j := Inners(h, levels[a + 1]), At(h, levels, a + 1, k);
    AnchorEdit(ns, levels[a + 1], c.innerSize, j, i, mid);
    if n.hasSibling && i == |n.seps| - 1 {
      AnchorLowers(ns[j].seps, mid);
      StepAnchor(h, levels, c, a, Lower(p, mid), k, mid, s, ch, w, n);
    } else {
      StepWrite(h, levels, c, a, Lower(p, mid), k, mid, s, ch, w, n);
    }
  }

  lemma AnchorLowers(s: seq<int>, mid: int)
    requires Rank(s, mid) + 1 == |s|
    ensures mid <= Last(s)
  {
  }
}
