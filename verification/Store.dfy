/** The nodes of a tree by address, grouped into levels, and how a change of one level leaves the others alone. */
module Store {
  import opened Ordered
  import opened Level
  import opened Leaves

  datatype Config = Config(innerSize: nat, innerMerge: nat, leafSize: nat, leafMerge: nat)

  /** The sizes FBTree/config.h admits. */
  ghost predicate ConfigOk(c: Config) {
    && c.innerSize in {16, 32, 64} && 0 < c.innerMerge < c.innerSize
    && c.leafSize in {16, 32, 64} && 0 < c.leafMerge < c.leafSize
  }

  datatype Node = LeafNode(leaf: Leaf) | InnerNode(inner: Inner)

  type Heap = map<Id, Node>

  predicate IsInner(h: Heap, id: Id) {
    id in h && h[id].InnerNode?
  }

  function InnerOf(h: Heap, id: Id): Inner {
    if id in h && h[id].InnerNode? then h[id].inner else Inner([], [], 0, false)
  }

  function LeafOf(h: Heap, id: Id): Leaf {
    if id in h && h[id].LeafNode? then h[id].leaf else Leaf(map[], 0, 0, false)
  }

  function Inners(h: Heap, ids: seq<Id>): seq<Inner> {
    seq(|ids|, i requires 0 <= i < |ids| => InnerOf(h, ids[i]))
  }

  function LeavesOf(h: Heap, ids: seq<Id>): seq<Leaf> {
    seq(|ids|, i requires 0 <= i < |ids| => LeafOf(h, ids[i]))
  }

  /** The bounds of the nodes of level a, all but the last one's. */
  function Bounds(h: Heap, levels: seq<seq<Id>>, a: nat): seq<int> {
    if a >= |levels| then []
    else if a == 0 then LeafHighs(LeavesOf(h, levels[0]))
    else Highs(Inners(h, levels[a]))
  }

  // Levels read and edited by position; positions outside the levels change nothing.

  function Row(levels: seq<seq<Id>>, b: nat): seq<Id> {
    if b < |levels| then levels[b] else []
  }

  function Front(path: seq<Id>): seq<Id> {
    if path == [] then [] else path[..|path| - 1]
  }

  function Back(path: seq<Id>): Id {
    if path == [] then 0 else path[|path| - 1]
  }

  function AddNode(levels: seq<seq<Id>>, b: nat, i: nat, x: Id): (r: seq<seq<Id>>)
    ensures |r| == |levels|
  {
    if b < |levels| && i < |levels[b]| then levels[b := InsertAt(levels[b], i + 1, x)] else levels
  }

  function DropNode(levels: seq<seq<Id>>, b: nat, i: nat): (r: seq<seq<Id>>)
    ensures |r| == |levels|
  {
    if b < |levels| && i + 1 < |levels[b]| then levels[b := RemoveAt(levels[b], i + 1)] else levels
  }

  ghost predicate NoDup(ids: seq<Id>) {
    forall i, j :: 0 <= i < j < |ids| ==> ids[i] != ids[j]
  }

  ghost predicate Placed(h: Heap, levels: seq<seq<Id>>) {
    && (forall a :: 0 <= a < |levels| ==> NoDup(levels[a]))
    && (forall a, b, x :: 0 <= a < b < |levels| && x in levels[a] ==> x !in levels[b])
    && (forall a, x :: 0 <= a < |levels| && x in levels[a] ==> x in h && (h[x].LeafNode? <==> a == 0))
  }

  /** Every level is well formed by itself. */
  ghost predicate Formed(h: Heap, levels: seq<seq<Id>>, c: Config) {
    && |levels| > 0
    && Placed(h, levels)
    && LeavesOk(LeavesOf(h, levels[0]), levels[0], c.leafSize)
    && (forall a :: 1 <= a < |levels| ==> LevelOk(Inners(h, levels[a]), levels[a], c.innerSize))
  }

  /** Level a lists exactly the bounds and the nodes of the level below. */
  ghost predicate LinkedAt(h: Heap, levels: seq<seq<Id>>, a: nat)
    requires 1 <= a < |levels|
  {
    && FlatSeps(Inners(h, levels[a])) == Bounds(h, levels, a - 1)
    && FlatKids(Inners(h, levels[a])) == levels[a - 1]
  }

  /** All links but the one into level gap hold; gap == 0 leaves none out. */
  ghost predicate Linked(h: Heap, levels: seq<seq<Id>>, gap: nat) {
    forall a :: 1 <= a < |levels| && a != gap ==> LinkedAt(h, levels, a)
  }

  ghost predicate TreeOk(h: Heap, levels: seq<seq<Id>>, c: Config) {
    && Formed(h, levels, c)
    && Linked(h, levels, 0)
    && |levels[|levels| - 1]| == 1
  }

  // ---------- one level changes ----------

  /** h' differs from h only at the nodes of level b and at new addresses. */
  ghost predicate Agree(h: Heap, h': Heap, ids: seq<Id>) {
    forall x :: x in h && x !in ids ==> x in h' && h'[x] == h[x]
  }

  ghost predicate Replaces(h: Heap, ids: seq<Id>, ids': seq<Id>) {
    NoDup(ids') && forall x :: x in ids' ==> x in ids || x !in h
  }

  lemma OtherLevels(h: Heap, h': Heap, levels: seq<seq<Id>>, b: nat, a: nat)
    requires Placed(h, levels) && b < |levels| && Agree(h, h', levels[b]) && a < |levels| && a != b
    ensures Inners(h', levels[a]) == Inners(h, levels[a]) && LeavesOf(h', levels[a]) == LeavesOf(h, levels[a])
  {
    forall i | 0 <= i < |levels[a]| ensures levels[a][i] in h' && h'[levels[a][i]] == h[levels[a][i]] {
      assert levels[a][i] in levels[a];
    }
  }

  lemma PlacedReplace(h: Heap, h': Heap, levels: seq<seq<Id>>, b: nat, ids': seq<Id>)
    requires Placed(h, levels) && b < |levels| && Agree(h, h', levels[b]) && Replaces(h, levels[b], ids')
    requires forall x :: x in ids' ==> x in h' && (h'[x].LeafNode? <==> b == 0)
    ensures Placed(h', levels[b := ids'])
  {
    var levels' := levels[b := ids'];
    forall a, x | 0 <= a < |levels| && x in levels'[a] ensures x in h' && (h'[x].LeafNode? <==> a == 0) {
      if a != b {
        assert x in levels[a] && x !in levels[b];
      }
    }
    forall a, d, x | 0 <= a < d < |levels'| && x in levels'[a] ensures x !in levels'[d] {
      if a == b {
        assert x in levels[d] ==> x in h;
      } else {
        assert x in levels[a] && x in h;
      }
    }
  }

  /** Replacing an inner level by a well-formed one keeps every level well formed and every other link. */
  lemma FormedReplace(h: Heap, h': Heap, levels: seq<seq<Id>>, c: Config, b: nat, ids': seq<Id>)
    requires Formed(h, levels, c) && 1 <= b < |levels| && Agree(h, h', levels[b]) && Replaces(h, levels[b], ids')
    requires forall x :: x in ids' ==> x in h' && h'[x].InnerNode?
    requires LevelOk(Inners(h', ids'), ids', c.innerSize)
    ensures Formed(h', levels[b := ids'], c)
    ensures forall a :: 0 <= a < |levels| && a != b ==>
                          Bounds(h', levels[b := ids'], a) == Bounds(h, levels, a)
                          && Inners(h', levels[a]) == Inners(h, levels[a])
  {
    hide LevelOk, LeavesOk, FlatSeps, FlatKids;
    var levels' := levels[b := ids'];
    PlacedReplace(h, h', levels, b, ids');
    forall a | 0 <= a < |levels| && a != b
      ensures Inners(h', levels[a]) == Inners(h, levels[a]) && LeavesOf(h', levels[a]) == LeavesOf(h, levels[a])
    {
      OtherLevels(h, h', levels, b, a);
    }
  }

  lemma FormedReplaceLeaves(h: Heap, h': Heap, levels: seq<seq<Id>>, c: Config, ids': seq<Id>)
    requires Formed(h, levels, c) && Agree(h, h', levels[0]) && Replaces(h, levels[0], ids')
    requires forall x :: x in ids' ==> x in h' && h'[x].LeafNode?
    requires LeavesOk(LeavesOf(h', ids'), ids', c.leafSize)
    ensures Formed(h', levels[0 := ids'], c)
    ensures forall a :: 1 <= a < |levels| ==>
                          Bounds(h', levels[0 := ids'], a) == Bounds(h, levels, a)
                          && Inners(h', levels[a]) == Inners(h, levels[a])
  {
    hide LevelOk, LeavesOk, FlatSeps, FlatKids;
    PlacedReplace(h, h', levels, 0, ids');
    forall a | 1 <= a < |levels| ensures Inners(h', levels[a]) == Inners(h, levels[a]) {
      OtherLevels(h, h', levels, 0, a);
    }
  }

  // ---------- addresses written, added and freed ----------

  lemma NoDupInsert(ids: seq<Id>, p: nat, x: Id)
    requires NoDup(ids) && p <= |ids| && x !in ids
    ensures NoDup(InsertAt(ids, p, x))
    ensures forall y :: y in InsertAt(ids, p, x) ==> y in ids || y == x
  {
    var t := InsertAt(ids, p, x);
    forall i | 0 <= i < |t| ensures t[i] == if i < p then ids[i] else if i == p then x else ids[i - 1] {
    }
    forall i, j | 0 <= i < j < |t| ensures t[i] != t[j] {
      assert i != p ==> t[i] in ids;
      assert j != p ==> t[j] in ids;
    }
  }

  lemma NoDupRemove(ids: seq<Id>, p: nat)
    requires NoDup(ids) && p < |ids|
    ensures NoDup(RemoveAt(ids, p)) && ids[p] !in RemoveAt(ids, p)
    ensures forall y :: y in RemoveAt(ids, p) ==> y in ids
  {
  }

  /** One inner node written. */
  lemma WriteInner(h: Heap, ids: seq<Id>, j: nat, n: Inner)
    requires NoDup(ids) && j < |ids|
    ensures Inners(h[ids[j] := InnerNode(n)], ids) == Inners(h, ids)[j := n]
  {
  }

  lemma WriteLeaf(h: Heap, ids: seq<Id>, j: nat, l: Leaf)
    requires NoDup(ids) && j < |ids|
    ensures LeavesOf(h[ids[j] := LeafNode(l)], ids) == LeavesOf(h, ids)[j := l]
  {
  }

  /** One inner node written and a new one added at its right. */
  lemma AddInner(h: Heap, ids: seq<Id>, j: nat, n: Inner, rid: Id, r: Inner)
    requires NoDup(ids) && j < |ids| && rid !in ids
    ensures Inners(h[ids[j] := InnerNode(n)][rid := InnerNode(r)], InsertAt(ids, j + 1, rid))
            == Inners(h, ids)[..j] + [n, r] + Inners(h, ids)[j + 1..]
  {
    var h', ids' := h[ids[j] := InnerNode(n)][rid := InnerNode(r)], InsertAt(ids, j + 1, rid);
    forall i | 0 <= i < |ids'| ensures InnerOf(h', ids'[i]) == (Inners(h, ids)[..j] + [n, r] + Inners(h, ids)[j + 1..])[i] {
      if i <= j {
        assert ids'[i] == ids[i] && ids[i] in ids;
      } else if i > j + 1 {
        assert ids'[i] == ids[i - 1] && ids[i - 1] in ids;
      }
    }
  }

  lemma AddLeaf(h: Heap, ids: seq<Id>, j: nat, n: Leaf, rid: Id, r: Leaf)
    requires NoDup(ids) && j < |ids| && rid !in ids
    ensures LeavesOf(h[ids[j] := LeafNode(n)][rid := LeafNode(r)], InsertAt(ids, j + 1, rid))
            == LeavesOf(h, ids)[..j] + [n, r] + LeavesOf(h, ids)[j + 1..]
  {
    var h', ids' := h[ids[j] := LeafNode(n)][rid := LeafNode(r)], InsertAt(ids, j + 1, rid);
    forall i | 0 <= i < |ids'| ensures LeafOf(h', ids'[i]) == (LeavesOf(h, ids)[..j] + [n, r] + LeavesOf(h, ids)[j + 1..])[i] {
      if i <= j {
        assert ids'[i] == ids[i] && ids[i] in ids;
      } else if i > j + 1 {
        assert ids'[i] == ids[i - 1] && ids[i - 1] in ids;
      }
    }
  }

  /** One inner node written and its right neighbour freed. */
  lemma FreeInner(h: Heap, ids: seq<Id>, j: nat, n: Inner)
    requires NoDup(ids) && j + 1 < |ids|
    ensures Inners(h[ids[j] := InnerNode(n)] - {ids[j + 1]}, RemoveAt(ids, j + 1))
            == Inners(h, ids)[..j] + [n] + Inners(h, ids)[j + 2..]
  {
    var h', ids' := h[ids[j] := InnerNode(n)] - {ids[j + 1]}, RemoveAt(ids, j + 1);
    forall i | 0 <= i < |ids'| ensures InnerOf(h', ids'[i]) == (Inners(h, ids)[..j] + [n] + Inners(h, ids)[j + 2..])[i] {
      if i <= j {
        assert ids'[i] == ids[i];
      } else {
        assert ids'[i] == ids[i + 1];
      }
    }
  }

  lemma FreeLeaf(h: Heap, ids: seq<Id>, j: nat, n: Leaf)
    requires NoDup(ids) && j + 1 < |ids|
    ensures LeavesOf(h[ids[j] := LeafNode(n)] - {ids[j + 1]}, RemoveAt(ids, j + 1))
            == LeavesOf(h, ids)[..j] + [n] + LeavesOf(h, ids)[j + 2..]
  {
    var h', ids' := h[ids[j] := LeafNode(n)] - {ids[j + 1]}, RemoveAt(ids, j + 1);
    forall i | 0 <= i < |ids'| ensures LeafOf(h', ids'[i]) == (LeavesOf(h, ids)[..j] + [n] + LeavesOf(h, ids)[j + 2..])[i] {
      if i <= j {
        assert ids'[i] == ids[i];
      } else {
        assert ids'[i] == ids[i + 1];
      }
    }
  }
}
