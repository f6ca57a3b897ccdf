/** The first step of an update: what happens in the leaf, and the edit it leaves for the level above. */
module LeafSteps {
  import opened Options
  import opened Ordered
  import opened Level
  import opened Leaves
  import opened LeafEdits
  import opened Store
  import opened Climb
  import opened Steps

  ghost predicate LeafAt(h: Heap, levels: seq<seq<Id>>, k: int, w: Id) {
    |levels| > 0 && At(h, levels, 0, k) < |levels[0]| && w == levels[0][At(h, levels, 0, k)]
  }

  ghost predicate Stores(h: Heap, levels: seq<seq<Id>>, m: map<int, Value>) {
    |levels| > 0 && Represents(LeavesOf(h, levels[0]), m)
  }

  lemma LeafMember(h: Heap, levels: seq<seq<Id>>, c: Config)
    requires Formed(h, levels, c)
    ensures NoDup(levels[0]) && LeavesOk(LeavesOf(h, levels[0]), levels[0], c.leafSize)
    ensures forall x :: x in levels[0] ==> x in h && h[x].LeafNode?
  {
  }

  /** The leaf level changed to ids' with the edit up still owed to the level above. */
  lemma LeafClimbed(h: Heap, h': Heap, levels: seq<seq<Id>>, c: Config, k: int, ids': seq<Id>, up: Edit, mid: int)
    requires TreeOk(h, levels, c)
    requires Agree(h, h', levels[0]) && Replaces(h, levels[0], ids')
    requires forall x :: x in ids' ==> x in h' && h'[x].LeafNode?
    requires LeavesOk(LeavesOf(h', ids'), ids', c.leafSize)
    requires LeavesRaise(LeavesOf(h, levels[0]), levels[0], LeavesOf(h', ids'), ids', up)
    requires SearchKey(up, Bounds(h, levels, 0), mid)
    requires !up.Keep? ==> up.pos == At(h, levels, 0, k)
    ensures Pending(h', levels[0 := ids'], c, 0, up, k, mid, Bounds(h, levels, 0), levels[0])
    ensures forall b :: 0 < b < |levels| ==> Bounds(h', levels[0 := ids'], b) == Bounds(h, levels, b)
  {
    hide FlatSeps, FlatKids, Placed, LevelOk, Highs, Rank, Agree, Replaces, LeafHighs, Sorted;
    var levels' := levels[0 := ids'];
    assert Sorted(Bounds(h, levels, 0)) && Sorted(Bounds(h', levels', 0));
    FormedReplaceLeaves(h, h', levels, c, ids');
    hide LeavesOk, InRange;
    BoundsSize(h, levels, c, 0);
    forall d | 1 <= d < |levels'| && d != 1 ensures LinkedAt(h', levels', d) {
      assert LinkedAt(h, levels, d);
    }
    if 1 < |levels| {
      assert LinkedAt(h, levels, 1);
    }
  }

  /** A leaf rewritten with the same bounds. */
  lemma LeafKeep(h: Heap, levels: seq<seq<Id>>, c: Config, m: map<int, Value>, k: int, w: Id, nv: Option<Value>)
    requires TreeOk(h, levels, c) && Stores(h, levels, m) && LeafAt(h, levels, k, w)
    requires var l := LeafOf(h, w);
             |Assign(l.kvs, k, nv)| <= c.leafSize && (l.hasSibling ==> Assign(l.kvs, k, nv) != map[])
    ensures var h' := h[w := LeafNode(LeafOf(h, w).(kvs := Assign(LeafOf(h, w).kvs, k, nv)))];
            TreeOk(h', levels, c) && Stores(h', levels, Assign(m, k, nv))
  {
    hide FlatSeps, FlatKids, Placed, LevelOk, LeavesOk, Highs, Rank, Linked, LeafHighs, Represents, Assign, LeavesRaise;
    var ids, ls, j := levels[0], LeavesOf(h, levels[0]), At(h, levels, 0, k);
    var l := LeafOf(h, w).(kvs := Assign(LeafOf(h, w).kvs, k, nv));
    LeafMember(h, levels, c);
    ReplaceEdit(ls, ids, c.leafSize, m, j, l, k, nv);
    WriteLeaf(h, ids, j, l);
    assert SpliceLeaves(ls, j, 1, [l]) == ls[j := l];
    var h' := h[w := LeafNode(l)];
    LeafClimbed(h, h', levels, c, k, ids, Keep, 0);
    assert levels[0 := ids] == levels;
    Settled(h', levels, c, 0, k, 0, Bounds(h, levels, 0), ids);
  }

  /** A full leaf cut in two. */
  lemma LeafCut(h: Heap, levels: seq<seq<Id>>, c: Config, m: map<int, Value>, k: int, v: Value, w: Id, a: Leaf, b: Leaf, rid: Id)
    requires TreeOk(h, levels, c) && Stores(h, levels, m) && LeafAt(h, levels, k, w) && rid !in h
    requires Halves(LeafOf(h, w), LeafOf(h, w).kvs[k := v], a, b, rid, c.leafSize)
    ensures var j := At(h, levels, 0, k);
            var levels' := levels[0 := InsertAt(levels[0], j + 1, rid)];
            var h' := h[w := LeafNode(a)][rid := LeafNode(b)];
            && Pending(h', levels', c, 0, Insert(j, a.high, rid), k, a.high, Bounds(h, levels, 0), levels[0])
            && Stores(h', levels', m[k := v])
            && (forall d :: 0 < d < |levels| ==> Bounds(h', levels', d) == Bounds(h, levels, d))
  {
    hide FlatSeps, FlatKids, Placed, LevelOk, LeavesOk, Highs, Rank, Linked, LeafHighs, Represents, Halves;
    var ids, ls, j := levels[0], LeavesOf(h, levels[0]), At(h, levels, 0, k);
    LeafMember(h, levels, c);
    CutEdit(ls, ids, c.leafSize, m, j, k, v, a, b, rid);
    assert rid !in ids;
    AddLeaf(h, ids, j, a, rid, b);
    NoDupInsert(ids, j + 1, rid);
    LeafClimbed(h, h[w := LeafNode(a)][rid := LeafNode(b)], levels, c, k, InsertAt(ids, j + 1, rid), Insert(j, a.high, rid), a.high);
  }

  /** A leaf that absorbs its right sibling after a removal. */
  lemma LeafJoin(h: Heap, levels: seq<seq<Id>>, c: Config, m: map<int, Value>, k: int, w: Id)
    requires ConfigOk(c) && TreeOk(h, levels, c) && Stores(h, levels, m) && LeafAt(h, levels, k, w)
    requires At(h, levels, 0, k) + 1 < |levels[0]|
    requires LeafMergeGuard(Drop(LeafOf(h, w), k), LeafOf(h, levels[0][At(h, levels, 0, k) + 1]), c.leafMerge)
    ensures var j := At(h, levels, 0, k);
            var r := levels[0][j + 1];
            var levels' := levels[0 := RemoveAt(levels[0], j + 1)];
            var h' := h[w := LeafNode(Join(Drop(LeafOf(h, w), k), LeafOf(h, r)))] - {r};
            && Pending(h', levels', c, 0, Delete(j), k, LeafOf(h, w).high, Bounds(h, levels, 0), levels[0])
            && Stores(h', levels', m - {k})
            && (forall d :: 0 < d < |levels| ==> Bounds(h', levels', d) == Bounds(h, levels, d))
  {
    hide FlatSeps, FlatKids, Placed, LevelOk, LeavesOk, Highs, Rank, Linked, Represents, Join, Drop, LeafMergeGuard;
    var ids, ls, j := levels[0], LeavesOf(h, levels[0]), At(h, levels, 0, k);
    LeafMember(h, levels, c);
    JoinEdit(ls, ids, c.leafSize, c.leafMerge, m, j, k);
    var l := Join(Drop(ls[j], k), ls[j + 1]);
    FreeLeaf(h, ids, j, l);
    NoDupRemove(ids, j + 1);
    LeafClimbed(h, h[w := LeafNode(l)] - {ids[j + 1]}, levels, c, k, RemoveAt(ids, j + 1), Delete(j), LeafOf(h, w).high);
  }

  /** Inner nodes may change freely without changing what is stored. */
  lemma StoresKept(h: Heap, h': Heap, levels: seq<seq<Id>>, levels': seq<seq<Id>>, c: Config, m: map<int, Value>)
    requires Formed(h, levels, c) && Stores(h, levels, m) && |levels'| > 0 && levels'[0] == levels[0]
    requires forall x :: x in h && h[x].LeafNode? ==> x in h' && h'[x] == h[x]
    ensures Stores(h', levels', m)
  {
    hide LeavesOk, LevelOk, Represents;
    assert forall i :: 0 <= i < |levels[0]| ==> levels[0][i] in levels[0];
    assert LeavesOf(h', levels'[0]) == LeavesOf(h, levels[0]);
  }
}
