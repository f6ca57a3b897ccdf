/**
 FB+-tree operations on a quiescent tree: the walk down with the path kept on a stack, the change in the
 leaf, and the climb back up. Whatever the height, each operation acts as on a plain finite map.
 */
module Tree {
  import opened Options
  import opened Ordered
  import opened Level
  import opened Leaves
  import opened LeafEdits
  import opened Routing
  import opened Store
  import opened Climb
  import opened Steps
  import opened RemoveSteps
  import opened LeafSteps

  /** InnerNode::to_next: the child to go to, or the sibling and true. */
  function ToNext(n: Inner, k: int): (Id, bool)
    requires |n.children| == |n.seps|
  {
    var i := Rank(n.seps, k);
    if i == |n.seps| then (n.next, n.hasSibling) else (n.children[i], false)
  }

  /** LeafNode::to_sibling: whether a key lies to the right of the leaf. */
  predicate ToSibling(l: Leaf, k: int) {
    l.hasSibling && l.high < k
  }

  /** One step down from the node that covers k reaches the node that covers k, never a sibling. */
  lemma DescendStep(h: Heap, levels: seq<seq<Id>>, c: Config, a: nat, k: int)
    requires TreeOk(h, levels, c) && 1 <= a < |levels| && At(h, levels, a, k) < |levels[a]|
    ensures var n := InnerOf(h, levels[a][At(h, levels, a, k)]);
            && |n.children| == |n.seps|
            && At(h, levels, a - 1, k) < |levels[a - 1]|
            && ToNext(n, k) == (levels[a - 1][At(h, levels, a - 1, k)], false)
  {
    hide FlatSeps, FlatKids, Sorted, Placed, LeavesOk, Highs, Rank, LeafHighs;
    assert LinkedAt(h, levels, a);
    SortedBounds(h, levels, c, a - 1);
    var ns := Inners(h, levels[a]);
    Route(ns, levels[a], c.innerSize, k);
    BoundsSize(h, levels, c, a - 1);
    ShapeAt(ns, levels[a], c.innerSize, At(h, levels, a, k));
  }

  /** The leaf that covers k is not left for its sibling. */
  lemma LeafStays(h: Heap, levels: seq<seq<Id>>, c: Config, k: int, w: Id)
    requires TreeOk(h, levels, c) && LeafAt(h, levels, k, w)
    ensures w in h && h[w].LeafNode? && !ToSibling(h[w].leaf, k)
    ensures var j := At(h, levels, 0, k);
            && (LeafOf(h, w).hasSibling <==> j + 1 < |levels[0]|)
            && (j + 1 < |levels[0]| ==> LeafOf(h, w).sibling == levels[0][j + 1] && k <= LeafOf(h, w).high)
  {
    assert w in levels[0];
    var ls, j := LeavesOf(h, levels[0]), At(h, levels, 0, k);
    assert ls[j] == LeafOf(h, w);
    assert j < |ls| - 1 ==> Bounds(h, levels, 0)[j] == ls[j].high;
  }

  lemma TopAt(h: Heap, levels: seq<seq<Id>>, c: Config, k: int)
    requires TreeOk(h, levels, c)
    ensures At(h, levels, |levels| - 1, k) == 0
  {
    BoundsSize(h, levels, c, |levels| - 1);
  }

  /** What a leaf holds for the key it covers is what the tree holds. */
  lemma LeafFinds(h: Heap, levels: seq<seq<Id>>, c: Config, m: map<int, Value>, k: int, w: Id)
    requires TreeOk(h, levels, c) && Stores(h, levels, m) && LeafAt(h, levels, k, w)
    ensures Find(LeafOf(h, w).kvs, k) == Find(m, k) && |LeafOf(h, w).kvs| <= c.leafSize
  {
    hide FlatSeps, FlatKids, Placed, LevelOk, Linked, Represents, InRange, Sorted, Highs;
    LookupAtRank(LeavesOf(h, levels[0]), levels[0], c.leafSize, m, k);
  }

  // ---------- the state of an operation ----------

  /** A complete tree that stands for the finite map m. */
  ghost predicate Complete(c: Config, h: Heap, levels: seq<seq<Id>>, root: Id, depth: nat, fresh_: Id, m: map<int, Value>) {
    && ConfigOk(c)
    && TreeOk(h, levels, c)
    && depth == |levels|
    && root == levels[|levels| - 1][0]
    && (forall x :: x in h ==> x < fresh_)
    && Stores(h, levels, m)
  }

  /** A tree that stands for m and lacks one edit e above level a; current is the node the edit is about. */
  ghost predicate Climbing(c: Config, h: Heap, levels: seq<seq<Id>>, root: Id, depth: nat, fresh_: Id, m: map<int, Value>,
                           a: nat, e: Edit, k: int, mid: int, s: seq<int>, ch: seq<Id>, path: seq<Id>, current: Id) {
    && ConfigOk(c)
    && Pending(h, levels, c, a, e, k, mid, s, ch)
    && PathTo(h, levels, a, path, k)
    && !e.Keep? && e.pos < |ch| && ch[e.pos] == current
    && depth == |levels|
    && levels[|levels| - 1] != [] && root == levels[|levels| - 1][0]
    && (forall x :: x in h ==> x < fresh_)
    && Stores(h, levels, m)
  }

  lemma PutSize(m: map<int, Value>, k: int, v: Value)
    ensures |m[k := v]| == if k in m then |m| else |m| + 1
    ensures m[k := v] != map[]
  {
    if k in m {
      assert m[k := v].Keys == m.Keys;
    } else {
      assert m[k := v].Keys == m.Keys + {k};
    }
    assert k in m[k := v];
  }

  lemma DropSize(m: map<int, Value>, k: int)
    ensures |m - {k}| <= |m|
  {
    assert (m - {k}).Keys == m.Keys - {k};
  }

  /** The two leaves a full leaf l becomes when the pair (k, v) is inserted. */
  ghost predicate LeafSplitOf(l: Leaf, k: int, v: Value, rid: Id, x: Leaf, y: Leaf) {
    && |l.kvs| > 1
    && (x, y) == if !l.hasSibling && k > Ascending(l.kvs.Keys)[|l.kvs| - 1] then SplitTail(l, k, v, rid) else SplitHalf(l, k, v, rid)
  }

  /** A full leaf split for a key it does not hold leaves an insertion for the level above. */
  lemma LeafSplits(c: Config, h: Heap, levels: seq<seq<Id>>, root: Id, depth: nat, fresh_: Id, m: map<int, Value>,
                   k: int, v: Value, path: seq<Id>, w: Id, x: Leaf, y: Leaf)
    requires Complete(c, h, levels, root, depth, fresh_, m) && LeafAt(h, levels, k, w) && PathTo(h, levels, 0, path, k)
    requires |LeafOf(h, w).kvs| == c.leafSize && k !in LeafOf(h, w).kvs && LeafSplitOf(LeafOf(h, w), k, v, fresh_, x, y)
    ensures var j := At(h, levels, 0, k);
            Climbing(c, h[w := LeafNode(x)][fresh_ := LeafNode(y)], AddNode(levels, 0, j, fresh_), root, depth, fresh_ + 1, m[k := v],
                     0, Insert(j, x.high, fresh_), k, x.high, Bounds(h, levels, 0), Row(levels, 0), path, w)
  {
    hide TreeOk, Stores, Rank, Pending, Bounds, Placed, LeafSplitOf, Halves;
    LeafHalves(h, levels, c, k, v, w, fresh_, x, y);
    LeafCut(h, levels, c, m, k, v, w, x, y, fresh_);
    LevelsPositive(h, levels, c);
  }

  lemma LevelsPositive(h: Heap, levels: seq<seq<Id>>, c: Config)
    requires TreeOk(h, levels, c)
    ensures |levels| > 0 && forall a :: 0 <= a < |levels| ==> levels[a] != []
  {
    forall a | 0 <= a < |levels| ensures levels[a] != [] {
      BoundsSize(h, levels, c, a);
    }
  }

  lemma LeafHalves(h: Heap, levels: seq<seq<Id>>, c: Config, k: int, v: Value, w: Id, rid: Id, x: Leaf, y: Leaf)
    requires ConfigOk(c) && TreeOk(h, levels, c) && LeafAt(h, levels, k, w)
    requires |LeafOf(h, w).kvs| == c.leafSize && k !in LeafOf(h, w).kvs
    requires LeafSplitOf(LeafOf(h, w), k, v, rid, x, y)
    ensures Halves(LeafOf(h, w), LeafOf(h, w).kvs[k := v], x, y, rid, c.leafSize)
  {
    var ls, j, l := LeavesOf(h, levels[0]), At(h, levels, 0, k), LeafOf(h, w);
    LeafMember(h, levels, c);
    assert ls[j] == l && InRange(ls, j);
    assert l.hasSibling ==> forall z :: z in l.kvs ==> z <= l.high;
    hide Halves, Ascending, TreeOk, SplitTail, SplitHalf;
    if !l.hasSibling && k > Ascending(l.kvs.Keys)[|l.kvs| - 1] {
      AscendingIs(l.kvs.Keys);
      forall z | z in l.kvs ensures z < k {
        assert z in Ascending(l.kvs.Keys);
      }
      SplitTailHalves(l, k, v, rid, c.leafSize);
    } else {
      SplitHalfHalves(l, k, v, rid, c.leafSize);
    }
  }

  /** A climb is at the root exactly when it is at the top level. */
  lemma ClimbAtRoot(c: Config, h: Heap, levels: seq<seq<Id>>, root: Id, depth: nat, fresh_: Id, m: map<int, Value>,
                    a: nat, e: Edit, k: int, mid: int, s: seq<int>, ch: seq<Id>, path: seq<Id>, current: Id)
    requires Climbing(c, h, levels, root, depth, fresh_, m, a, e, k, mid, s, ch, path, current)
    ensures a < |levels| && (current == root <==> a + 1 == |levels|)
  {
    hide FlatSeps, FlatKids, Sorted, LeavesOk, LevelOk, Highs, Rank, LeafHighs, Linked, Represents, Bounds;
    EditedFirst(e, ch);
    assert current in levels[a];
    if a + 1 < |levels| {
      var top := |levels| - 1;
      assert root in levels[top];
      assert root !in levels[a];
    }
  }

  /** Below the top, the next node is the last on the path, and it covers k. */
  lemma ClimbWork(c: Config, h: Heap, levels: seq<seq<Id>>, root: Id, depth: nat, fresh_: Id, m: map<int, Value>,
                  a: nat, e: Edit, k: int, mid: int, s: seq<int>, ch: seq<Id>, path: seq<Id>, current: Id)
    requires Climbing(c, h, levels, root, depth, fresh_, m, a, e, k, mid, s, ch, path, current) && (!e.Insert? || a + 1 < |levels|)
    ensures a + 1 < |levels| && path != [] && Work(h, levels, a, k, Back(path)) && IsInner(h, Back(path))
    ensures |InnerOf(h, Back(path)).children| == |InnerOf(h, Back(path)).seps| <= c.innerSize
  {
    hide FlatSeps, FlatKids, Sorted, LeavesOk, LevelOk, Highs, Rank, LeafHighs, Linked, Represents, Bounds, Placed;
    var w := path[|path| - 1];
    assert w in levels[a + 1];
    Member(h, levels, c, a + 1);
    ShapeAt(Inners(h, levels[a + 1]), levels[a + 1], c.innerSize, At(h, levels, a + 1, k));
  }

  /** An edit keeps the child it is about in its place. */
  lemma EditedFirst(e: Edit, ch: seq<Id>)
    requires |ch| > 0 && Fits(e, |ch| - 1) && !e.Keep?
    ensures e.pos < |EditKids(e, ch)| && EditKids(e, ch)[e.pos] == ch[e.pos]
    ensures |ch| == 1 ==> EditKids(e, ch)[0] == ch[0]
  {
  }

  lemma GrowRoot(c: Config, h: Heap, levels: seq<seq<Id>>, root: Id, depth: nat, fresh_: Id, m: map<int, Value>,
                 a: nat, j: nat, r: Id, k: int, mid: int, s: seq<int>, ch: seq<Id>, path: seq<Id>, current: Id)
    requires Climbing(c, h, levels, root, depth, fresh_, m, a, Insert(j, mid, r), k, mid, s, ch, path, current)
    requires a + 1 == |levels|
    ensures Rank([], mid) == 0
    ensures Complete(c, h[fresh_ := InnerNode(InsertRoom(Inner([], [], 0, false), 0, mid, current, r))], levels + [[fresh_]],
                     fresh_, depth + 1, fresh_ + 1, m)
  {
    hide FlatSeps, FlatKids, Sorted, LeavesOk, LevelOk, Highs, LeafHighs, Linked, Represents, Bounds, Placed, TreeOk;
    assert s == [] && j == 0 && ch == [current];
    StepNewRoot(h, levels, c, a, k, mid, r, ch, fresh_);
    var n := InsertRoom(Inner([], [], 0, false), 0, mid, current, r);
    assert n == Inner([mid], [current], r, false);
    StoresKept(h, h[fresh_ := InnerNode(n)], levels, levels + [[fresh_]], c, m);
  }

  /** Inserting into a parent with room completes the tree. */
  lemma InsertAbove(c: Config, h: Heap, levels: seq<seq<Id>>, root: Id, depth: nat, fresh_: Id, m: map<int, Value>,
                    a: nat, j: nat, r: Id, k: int, mid: int, s: seq<int>, ch: seq<Id>, path: seq<Id>, current: Id, w: Id, p: Inner)
    requires Climbing(c, h, levels, root, depth, fresh_, m, a, Insert(j, mid, r), k, mid, s, ch, path, current)
    requires Work(h, levels, a, k, w) && IsInner(h, w)
    requires |InnerOf(h, w).seps| < c.innerSize && InsertionOf(InnerOf(h, w), mid, current, r, p)
    ensures Complete(c, h[w := InnerNode(p)], levels, root, depth, fresh_, m)
  {
    hide FlatSeps, FlatKids, Sorted, LeavesOk, LevelOk, Highs, Rank, LeafHighs, Linked, Represents, Bounds, Placed, TreeOk, Work;
    StepInsertRoom(h, levels, c, a, k, mid, r, s, ch, w, p);
    StoresKept(h, h[w := InnerNode(p)], levels, levels, c, m);
  }

  /** Inserting into a full parent splits it, and the split climbs on. */
  lemma SplitAbove(c: Config, h: Heap, levels: seq<seq<Id>>, root: Id, depth: nat, fresh_: Id, m: map<int, Value>,
                   a: nat, j: nat, r: Id, k: int, mid: int, s: seq<int>, ch: seq<Id>, path: seq<Id>, current: Id,
                   w: Id, p: Inner, q: Inner, i: nat)
    requires Climbing(c, h, levels, root, depth, fresh_, m, a, Insert(j, mid, r), k, mid, s, ch, path, current)
    requires Work(h, levels, a, k, w) && IsInner(h, w) && path != []
    requires |InnerOf(h, w).seps| == c.innerSize && SplitOf(InnerOf(h, w), mid, current, r, fresh_, p, q)
    requires i == At(h, levels, a + 1, k)
    ensures Climbing(c, h[w := InnerNode(p)][fresh_ := InnerNode(q)], AddNode(levels, a + 1, i, fresh_),
                     root, depth, fresh_ + 1, m, a + 1, Insert(i, Last(p.seps), fresh_), k, Last(p.seps),
                     Bounds(h, levels, a + 1), Row(levels, a + 1), Front(path), w)
  {
    hide FlatSeps, FlatKids, Sorted, LeavesOk, LevelOk, Highs, Rank, LeafHighs, Linked, Represents, Bounds, Placed, TreeOk, Split, Inners, LeavesOf, InnerOf, EditSeps, EditKids;
    var b := a + 1;
    StepSplit(h, levels, c, a, k, mid, r, s, ch, w, fresh_, p, q);
    var h', levels' := h[w := InnerNode(p)][fresh_ := InnerNode(q)], AddNode(levels, b, i, fresh_);
    ClimbOn(c, h, h', levels, levels', root, depth, fresh_, fresh_ + 1, m, a, Insert(j, mid, r), Insert(i, Last(p.seps), fresh_), k, mid, Last(p.seps), s, ch, path, current);
  }

  /** levels' is levels with one level edited, its first node in place. */
  ghost predicate Edited(levels: seq<seq<Id>>, levels': seq<seq<Id>>, b: nat) {
    && b < |levels| == |levels'|
    && (forall d :: 0 <= d < |levels| && d != b ==> levels'[d] == levels[d])
    && levels[b] != [] && levels'[b] != [] && levels'[b][0] == levels[b][0]
  }

  /** A step above level a that leaves the edit up pending: the climb goes on from the node worked on. */
  lemma ClimbOn(c: Config, h: Heap, h': Heap, levels: seq<seq<Id>>, levels': seq<seq<Id>>, root: Id, depth: nat, fresh_: Id, fresh': Id,
                m: map<int, Value>, a: nat, e: Edit, up: Edit, k: int, mid: int, mid': int, s: seq<int>, ch: seq<Id>, path: seq<Id>, current: Id)
    requires Climbing(c, h, levels, root, depth, fresh_, m, a, e, k, mid, s, ch, path, current)
    requires Work(h, levels, a, k, Back(path)) && path != [] && Edited(levels, levels', a + 1)
    requires Pending(h', levels', c, a + 1, up, k, mid', Bounds(h, levels, a + 1), Row(levels, a + 1))
    requires !up.Keep? && up.pos == At(h, levels, a + 1, k)
    requires forall d :: a + 1 < d < |levels| ==> Bounds(h', levels', d) == Bounds(h, levels, d)
    requires forall x :: x in h && h[x].LeafNode? ==> x in h' && h'[x] == h[x]
    requires forall x :: x in h' ==> x < fresh'
    ensures Climbing(c, h', levels', root, depth, fresh', m, a + 1, up, k, mid', Bounds(h, levels, a + 1), Row(levels, a + 1), Front(path), Back(path))
  {
    hide FlatSeps, FlatKids, Sorted, LeavesOk, LevelOk, Highs, Rank, LeafHighs, Linked, Represents, Bounds, Placed, TreeOk, Inners, LeavesOf, InnerOf, EditSeps, EditKids, At;
    StoresKept(h, h', levels, levels', c, m);
    PathShorter(h, h', levels, levels', a, path, k);
  }

  /** Levels above b as they were: the rest of the path still leads to k. */
  lemma PathShorter(h: Heap, h': Heap, levels: seq<seq<Id>>, levels': seq<seq<Id>>, a: nat, path: seq<Id>, k: int)
    requires PathTo(h, levels, a, path, k) && a + 1 < |levels| == |levels'|
    requires forall d :: a + 1 < d < |levels| ==> levels'[d] == levels[d] && Bounds(h', levels', d) == Bounds(h, levels, d)
    ensures PathTo(h', levels', a + 1, Front(path), k)
  {
    hide Bounds, Rank;
  }

  // ---------- the climb of a removal ----------

  lemma LeafJoins(c: Config, h: Heap, levels: seq<seq<Id>>, root: Id, depth: nat, fresh_: Id, m: map<int, Value>,
                  k: int, path: seq<Id>, w: Id, l: Leaf, r: Id, j: nat)
    requires Complete(c, h, levels, root, depth, fresh_, m) && LeafAt(h, levels, k, w) && PathTo(h, levels, 0, path, k)
    requires LeafOf(h, w).hasSibling && r == LeafOf(h, w).sibling && j == At(h, levels, 0, k)
    requires LeafMergeGuard(Drop(LeafOf(h, w), k), LeafOf(h, r), c.leafMerge) && l == Join(Drop(LeafOf(h, w), k), LeafOf(h, r))
    ensures Climbing(c, h[w := LeafNode(l)] - {r}, DropNode(levels, 0, j), root, depth, fresh_, m - {k},
                     0, Delete(j), k, LeafOf(h, w).high, Bounds(h, levels, 0), Row(levels, 0), path, w)
  {
    hide TreeOk, Stores, Rank, Pending, Bounds, Placed, LeafMergeGuard, Drop, Join;
    LeafStays(h, levels, c, k, w);
    LeafJoin(h, levels, c, m, k, w);
    LevelsPositive(h, levels, c);
    assert w in h && r in h by { LeafPresent(h, levels, c, k, w, r); }
  }

  lemma LeafPresent(h: Heap, levels: seq<seq<Id>>, c: Config, k: int, w: Id, r: Id)
    requires TreeOk(h, levels, c) && LeafAt(h, levels, k, w) && LeafOf(h, w).hasSibling && r == LeafOf(h, w).sibling
    ensures w in h && r in h && h[r].LeafNode?
  {
    LeafStays(h, levels, c, k, w);
    hide FlatSeps, FlatKids, LevelOk, LeavesOk, Bounds, Rank, Linked;
    assert levels[0][At(h, levels, 0, k) + 1] in levels[0];
  }

  /** A deletion or an update is never pending at the top. */
  lemma ClimbBelowTop(c: Config, h: Heap, levels: seq<seq<Id>>, root: Id, depth: nat, fresh_: Id, m: map<int, Value>,
                      a: nat, e: Edit, k: int, mid: int, s: seq<int>, ch: seq<Id>, path: seq<Id>, current: Id)
    requires Climbing(c, h, levels, root, depth, fresh_, m, a, e, k, mid, s, ch, path, current) && !e.Insert?
    ensures a + 1 < |levels|
  {
    hide FlatSeps, FlatKids, Sorted, LeavesOk, LevelOk, Highs, Rank, LeafHighs, Linked, Represents, Bounds, Placed;
  }

  lemma ClimbFacts(c: Config, h: Heap, levels: seq<seq<Id>>, root: Id, depth: nat, fresh_: Id, m: map<int, Value>,
                   a: nat, e: Edit, k: int, mid: int, s: seq<int>, ch: seq<Id>, path: seq<Id>, current: Id)
    requires Climbing(c, h, levels, root, depth, fresh_, m, a, e, k, mid, s, ch, path, current)
    ensures ConfigOk(c) && Pending(h, levels, c, a, e, k, mid, s, ch)
  {
  }

  lemma InsideKeepsNext(n: Inner, i: nat)
    requires |n.children| == |n.seps| && i + 1 < |n.seps|
    ensures RemoveInside(n, i).next == n.next
  {
  }

  lemma RootInner(c: Config, h: Heap, levels: seq<seq<Id>>, root: Id, depth: nat, fresh_: Id, m: map<int, Value>)
    requires Complete(c, h, levels, root, depth, fresh_, m) && |levels| > 1
    ensures |levels[|levels| - 1]| == 1 && levels[|levels| - 1][0] == root && IsInner(h, root)
  {
    hide FlatSeps, FlatKids, Sorted, LeavesOk, LevelOk, Linked, Represents, Bounds;
    assert root in levels[|levels| - 1];
  }

  lemma CollapseKeeps(c: Config, h: Heap, levels: seq<seq<Id>>, root: Id, depth: nat, fresh_: Id, m: map<int, Value>)
    requires Complete(c, h, levels, root, depth, fresh_, m) && |levels| > 1 && IsInner(h, root)
    ensures Stores(h - {root}, levels[..|levels| - 1], m)
  {
    hide FlatSeps, FlatKids, Sorted, LeavesOk, LevelOk, Linked, Represents, Bounds, Placed;
    StoresKept(h, h - {root}, levels, levels[..|levels| - 1], c, m);
  }

  /** Nothing left above: the tree is complete. */
  lemma ClimbDone(c: Config, h: Heap, levels: seq<seq<Id>>, root: Id, depth: nat, fresh_: Id, m: map<int, Value>,
                  a: nat, e: Edit, k: int, mid: int, s: seq<int>, ch: seq<Id>, path: seq<Id>, current: Id, w: Id, n: Inner)
    requires Climbing(c, h, levels, root, depth, fresh_, m, a, e, k, mid, s, ch, path, current)
    requires IsInner(h, w) && TreeOk(h[w := InnerNode(n)], levels, c)
    ensures Complete(c, h[w := InnerNode(n)], levels, root, depth, fresh_, m)
  {
    hide FlatSeps, FlatKids, Sorted, LeavesOk, LevelOk, Highs, Rank, LeafHighs, Linked, Represents, Bounds, Placed, TreeOk;
    StoresKept(h, h[w := InnerNode(n)], levels, levels, c, m);
  }

  /** A parent that absorbs its right sibling r, with the bound mid' to delete above. */
  lemma MergeAbove(c: Config, h: Heap, levels: seq<seq<Id>>, root: Id, depth: nat, fresh_: Id, m: map<int, Value>,
                   a: nat, e: Edit, k: int, mid: int, s: seq<int>, ch: seq<Id>, path: seq<Id>, current: Id, n: Inner, r: Id, mid': int, i: nat)
    requires Climbing(c, h, levels, root, depth, fresh_, m, a, e, k, mid, s, ch, path, current)
    requires path != [] && Work(h, levels, a, k, Back(path)) && IsInner(h, Back(path))
    requires InnerOf(h, Back(path)).hasSibling && r == InnerOf(h, Back(path)).next && i == At(h, levels, a + 1, k)
    requires var h', levels' := h[Back(path) := InnerNode(n)] - {r}, DropNode(levels, a + 1, i);
             && Pending(h', levels', c, a + 1, Delete(i), k, mid', Bounds(h, levels, a + 1), Row(levels, a + 1))
             && (forall d :: a + 1 < d < |levels| ==> Bounds(h', levels', d) == Bounds(h, levels, d))
    ensures Climbing(c, h[Back(path) := InnerNode(n)] - {r}, DropNode(levels, a + 1, i), root, depth, fresh_, m, a + 1, Delete(i), k, mid',
                     Bounds(h, levels, a + 1), Row(levels, a + 1), Front(path), Back(path))
  {
    hide FlatSeps, FlatKids, Sorted, LeavesOk, LevelOk, Highs, Rank, LeafHighs, Linked, Represents, Bounds, TreeOk, Inners, LeavesOf, EditSeps, EditKids, At, Pending;
    var h', levels' := h[Back(path) := InnerNode(n)] - {r}, DropNode(levels, a + 1, i);
    SiblingInner(c, h, levels, root, depth, fresh_, m, a, e, k, mid, s, ch, path, current);
    ClimbOn(c, h, h', levels, levels', root, depth, fresh_, fresh_, m, a, e, Delete(i), k, mid, mid', s, ch, path, current);
  }

  lemma SiblingInner(c: Config, h: Heap, levels: seq<seq<Id>>, root: Id, depth: nat, fresh_: Id, m: map<int, Value>,
                     a: nat, e: Edit, k: int, mid: int, s: seq<int>, ch: seq<Id>, path: seq<Id>, current: Id)
    requires Climbing(c, h, levels, root, depth, fresh_, m, a, e, k, mid, s, ch, path, current)
    requires path != [] && Work(h, levels, a, k, Back(path)) && InnerOf(h, Back(path)).hasSibling
    ensures var r := InnerOf(h, Back(path)).next; IsInner(h, r) && |InnerOf(h, r).children| == |InnerOf(h, r).seps|
    ensures At(h, levels, a + 1, k) + 1 < |levels[a + 1]| && path != []
  {
    hide FlatSeps, FlatKids, Sorted, LeavesOk, LevelOk, Highs, Rank, LeafHighs, Linked, Represents, Bounds, At;
    WorkNode(h, levels, c, a, e, k, mid, s, ch, Back(path));
    assert levels[a + 1][At(h, levels, a + 1, k) + 1] in levels[a + 1];
  }

  /** A parent whose own bound moved down; the nodes rewritten are inner ones. */
  lemma LowerAbove(c: Config, h: Heap, h': Heap, levels: seq<seq<Id>>, root: Id, depth: nat, fresh_: Id, m: map<int, Value>,
                   a: nat, e: Edit, k: int, mid: int, s: seq<int>, ch: seq<Id>, path: seq<Id>, current: Id, mid': int, i: nat)
    requires Climbing(c, h, levels, root, depth, fresh_, m, a, e, k, mid, s, ch, path, current)
    requires path != [] && Work(h, levels, a, k, Back(path)) && i == At(h, levels, a + 1, k)
    requires Pending(h', levels, c, a + 1, Lower(i, mid'), k, mid', Bounds(h, levels, a + 1), Row(levels, a + 1))
    requires forall d :: a + 1 < d < |levels| ==> Bounds(h', levels, d) == Bounds(h, levels, d)
    requires h'.Keys == h.Keys && forall x :: x in h && h[x].LeafNode? ==> h'[x] == h[x]
    ensures Climbing(c, h', levels, root, depth, fresh_, m, a + 1, Lower(i, mid'), k, mid',
                     Bounds(h, levels, a + 1), Row(levels, a + 1), Front(path), Back(path))
  {
    hide FlatSeps, FlatKids, Sorted, LeavesOk, LevelOk, Highs, Rank, LeafHighs, Linked, Represents, Bounds, TreeOk, Inners, LeavesOf, EditSeps, EditKids, At, Pending, InnerOf;
    assert forall x :: x in h' ==> x in h;
    ClimbOn(c, h, h', levels, levels, root, depth, fresh_, fresh_, m, a, e, Lower(i, mid'), k, mid, mid', s, ch, path, current);
  }

  class FBTree {
    const cfg: Config
    var heap: Heap
    var root: Id
    var depth: nat
    var nextId: Id
    ghost var levels: seq<seq<Id>>     // the nodes of each level from left to right, leaves first
    ghost var content: map<int, Value> // the finite map the tree stands for

    ghost predicate Valid()
      reads this
    {
      Complete(cfg, heap, levels, root, depth, nextId, content)
    }

    constructor (c: Config)
      requires ConfigOk(c)
      ensures Valid() && content == map[] && cfg == c && depth == 1
    {
      cfg := c;
      heap := map[1 := LeafNode(Leaf(map[], 0, 0, false))];
      root, depth, nextId := 1, 1, 2;
      levels, content := [[1]], map[];
      new;
      assert LeavesOf(heap, levels[0]) == [Leaf(map[], 0, 0, false)];
    }

    /** The walk from the root to the leaf that covers k. */
    method Descend(k: int) returns (leaf: Id, path: seq<Id>)
      requires Valid()
      ensures LeafAt(heap, levels, k, leaf) && PathTo(heap, levels, 0, path, k)
      ensures leaf in heap && heap[leaf].LeafNode? && !ToSibling(heap[leaf].leaf, k)
    {
      hide FlatSeps, FlatKids, Sorted, LeavesOk, LevelOk, Highs, Rank, LeafHighs, Linked, Represents;
      leaf, path := root, [];
      ghost var a := |levels| - 1;
      TopAt(heap, levels, cfg, k);
      assert leaf in levels[a];
      while heap[leaf].InnerNode?
        invariant 0 <= a < |levels| && At(heap, levels, a, k) < |levels[a]|
        invariant leaf == levels[a][At(heap, levels, a, k)] && leaf in heap && leaf in levels[a]
        invariant PathTo(heap, levels, a, path, k)
        decreases a
      {
        DescendStep(heap, levels, cfg, a, k);
        var (next, toSibling) := ToNext(heap[leaf].inner, k);
        if !toSibling {
          path := path + [leaf];
        }
        leaf := next;
        a := a - 1;
        assert leaf in levels[a];
      }
      LeafStays(heap, levels, cfg, k, leaf);
    }

    method Lookup(k: int) returns (r: Option<Value>)
      requires Valid()
      ensures r == Find(content, k)
    {
      hide TreeOk, Stores, LeafAt, PathTo, Find;
      var leaf, _ := Descend(k);
      LeafFinds(heap, levels, cfg, content, k, leaf);
      r := Find(heap[leaf].leaf.kvs, k);
    }

    /** FBTree::update: replaces the pair of a present key, and reports an absent one. */
    method Update(k: int, v: Value) returns (was: Option<Value>)
      requires Valid()
      modifies this`heap, this`content
      ensures Valid() && was == Find(old(content), k)
      ensures content == if was.Some? then old(content)[k := v] else old(content)
    {
      hide TreeOk, Stores, LeafAt, PathTo;
      var leaf, _ := Descend(k);
      LeafFinds(heap, levels, cfg, content, k, leaf);
      var l := heap[leaf].leaf;
      was := Find(l.kvs, k);
      if was.Some? {
        PutSize(l.kvs, k, v);
        LeafKeep(heap, levels, cfg, content, k, leaf, Some(v));
        heap := heap[leaf := LeafNode(Put(l, k, v))];
        content := content[k := v];
      }
    }

    method Upsert(k: int, v: Value) returns (was: Option<Value>)
      requires Valid()
      modifies this
      ensures Valid() && was == Find(old(content), k) && content == old(content)[k := v]
    {
      hide TreeOk, Stores, PathTo, LeafAt, Climbing, Ascending, Bounds, At, AddNode, Row, ConfigOk;
      var current, path := Descend(k);
      LeafFinds(heap, levels, cfg, content, k, current);
      var l := heap[current].leaf;
      was := Find(l.kvs, k);
      assert cfg.leafSize > 1 by { ConfigSizes(cfg); }

      // LeafNode::upsert
      if k in l.kvs || |l.kvs| < cfg.leafSize {
        PutSize(l.kvs, k, v);
        LeafKeep(heap, levels, cfg, content, k, current, Some(v));
        heap := heap[current := LeafNode(Put(l, k, v))];
        content := content[k := v];
      } else {
        var rid := nextId;
        var (x, y) := if !l.hasSibling && k > Ascending(l.kvs.Keys)[|l.kvs| - 1]
          then SplitTail(l, k, v, rid) else SplitHalf(l, k, v, rid);
        LeafSplits(cfg, heap, levels, root, depth, nextId, content, k, v, path, current, x, y);
        ghost var j, s, ch := At(heap, levels, 0, k), Bounds(heap, levels, 0), Row(levels, 0);
        nextId := nextId + 1;
        levels := AddNode(levels, 0, j, rid);
        heap := heap[current := LeafNode(x)][rid := LeafNode(y)];
        content := content[k := v];
        InsertUp(k, current, rid, x.high, path, j, s, ch);
      }
    }

    /** The climb of FBTree::upsert: node current was split off leaf rnode_, to be inserted with separator mid_. */
    method InsertUp(ghost k: int, leaf: Id, rnode_: Id, mid_: int, path_: seq<Id>, ghost j_: nat, ghost s_: seq<int>, ghost ch_: seq<Id>)
      requires Climbing(cfg, heap, levels, root, depth, nextId, content, 0, Insert(j_, mid_, rnode_), k, mid_, s_, ch_, path_, leaf)
      modifies this
      ensures Valid() && content == old(content)
    {
      hide TreeOk, Stores, PathTo, Climbing, Rank, Work, Bounds, At, Split, InsertRoom, AddNode, Row, Complete, Front, Back, ConfigOk;
      var current, path, mid, rnode := leaf, path_, mid_, Some(rnode_);
      ghost var a, j, s, ch := 0, j_, s_, ch_;
      while rnode.Some?
        invariant rnode.None? ==> Valid()
        invariant rnode.Some? ==>
                    Climbing(cfg, heap, levels, root, depth, nextId, content, a, Insert(j, mid, rnode.value), k, mid, s, ch, path, current)
        invariant content == old(content)
        invariant a <= |levels|
        decreases if rnode.Some? then 1 else 0, |levels| - a
      {
        var r := rnode.value;
        ClimbAtRoot(cfg, heap, levels, root, depth, nextId, content, a, Insert(j, mid, r), k, mid, s, ch, path, current);
        if current == root {
          var work, n := nextId, Inner([], [], 0, false);
          GrowRoot(cfg, heap, levels, root, depth, nextId, content, a, j, r, k, mid, s, ch, path, current);
          nextId, root, depth := nextId + 1, work, depth + 1;
          levels := levels + [[work]];
          heap := heap[work := InnerNode(InsertRoom(n, Rank(n.seps, mid), mid, current, r))];
          rnode, current := None, work;
        } else {
          ClimbWork(cfg, heap, levels, root, depth, nextId, content, a, Insert(j, mid, r), k, mid, s, ch, path, current);
          var work := Back(path);
          var n := InnerOf(heap, work);
          var index := Rank(n.seps, mid);
          if |n.seps| < cfg.innerSize {
            var p := InsertRoom(n, index, mid, current, r);
            InsertAbove(cfg, heap, levels, root, depth, nextId, content, a, j, r, k, mid, s, ch, path, current, work, p);
            heap := heap[work := InnerNode(p)];
            rnode := None;
          } else {
            var newId := nextId;
            var (p, q) := Split(n, index, mid, current, r, newId);
            SplitAbove(cfg, heap, levels, root, depth, nextId, content, a, j, r, k, mid, s, ch, path, current, work, p, q, At(heap, levels, a + 1, k));
            nextId := nextId + 1;
            a := a + 1;
            j, s, ch := At(heap, levels, a, k), Bounds(heap, levels, a), Row(levels, a);
            heap := heap[work := InnerNode(p)][newId := InnerNode(q)];
            levels := AddNode(levels, a, j, newId);
            rnode, mid := Some(newId), Last(p.seps);
          }
          current, path := work, Front(path);
        }
      }
    }

    method Remove(k: int) returns (was: Option<Value>)
      requires Valid()
      modifies this
      ensures Valid() && was == Find(old(content), k) && content == old(content) - {k}
    {
      hide TreeOk, Stores, PathTo, LeafAt, Climbing, Bounds, At, DropNode, Row, ConfigOk;
      var current, path := Descend(k);
      LeafFinds(heap, levels, cfg, content, k, current);
      var l := heap[current].leaf;
      was := Find(l.kvs, k);
      if was.None? {
        assert content - {k} == content;
        return;
      }

      // LeafNode::remove and merge
      var d := Drop(l, k);
      if l.hasSibling && LeafMergeGuard(d, LeafOf(heap, l.sibling), cfg.leafMerge) {
        var r := l.sibling;
        var joined := Join(d, LeafOf(heap, r));
        ghost var j, s, ch := At(heap, levels, 0, k), Bounds(heap, levels, 0), Row(levels, 0);
        LeafJoins(cfg, heap, levels, root, depth, nextId, content, k, path, current, joined, r, j);
        levels := DropNode(levels, 0, j);
        heap := heap[current := LeafNode(joined)] - {r};
        content := content - {k};
        RemoveUp(k, current, l.high, path, j, s, ch);
      } else {
        DropSize(l.kvs, k);
        LeafKeep(heap, levels, cfg, content, k, current, None);
        heap := heap[current := LeafNode(d)];
        content := content - {k};
      }
    }

    /** InnerNode::remove in the parent on top of the path, with what it leaves for the level above. */
    method InnerRemove(ghost k: int, ghost a: nat, mid: int, path: seq<Id>, ghost current: Id, ghost j: nat, ghost s: seq<int>, ghost ch: seq<Id>)
      returns (merged: bool, up: bool, mid': int, ghost j': nat, ghost s': seq<int>, ghost ch': seq<Id>)
      requires Climbing(cfg, heap, levels, root, depth, nextId, content, a, Delete(j), k, mid, s, ch, path, current)
      modifies this`heap, this`levels
      ensures |levels| == old(|levels|) && a + 1 < |levels|
      ensures !merged && !up ==> Valid()
      ensures merged || up ==>
                Climbing(cfg, heap, levels, root, depth, nextId, content, a + 1, if merged then Delete(j') else Lower(j', mid'), k, mid', s', ch', Front(path), Back(path))
    {
      hide TreeOk, Stores, PathTo, Rank, Work, Bounds, At, DropNode, Row, Complete, Front, Back, Pending, LevelOk, Inners, LeavesOf, InnerOf,
        RemoveInside, MergeRight, BorderLast, BorderMerge, BorderShift, MergeGuard, Climbing, ConfigOk;
      ClimbWork(cfg, heap, levels, root, depth, nextId, content, a, Delete(j), k, mid, s, ch, path, current);
      ClimbFacts(cfg, heap, levels, root, depth, nextId, content, a, Delete(j), k, mid, s, ch, path, current);
      var work := Back(path);
      var n := InnerOf(heap, work);
      var index := Rank(n.seps, mid);
      FoundIndex(heap, levels, cfg, a, Delete(j), k, mid, s, ch, work);
      merged, up, mid' := false, false, mid;
      j', s', ch' := At(heap, levels, a + 1, k), Bounds(heap, levels, a + 1), Row(levels, a + 1);
      if n.hasSibling {
        SiblingInner(cfg, heap, levels, root, depth, nextId, content, a, Delete(j), k, mid, s, ch, path, current);
      }
      if index < |n.seps| - 1 {
        var p := RemoveInside(n, index);
        if n.hasSibling && MergeGuard(p, InnerOf(heap, n.next), cfg.innerMerge) {
          mid' := Last(p.seps);
          var q := MergeRight(p, InnerOf(heap, n.next));
          InsideKeepsNext(n, index);
          StepRemoveMerge(heap, levels, cfg, a, j, k, mid, s, ch, work, index, p, q);
          MergeAbove(cfg, heap, levels, root, depth, nextId, content, a, Delete(j), k, mid, s, ch, path, current, q, n.next, mid', j');
          heap := heap[work := InnerNode(q)] - {n.next};
          levels := DropNode(levels, a + 1, j');
          merged := true;
        } else {
          StepRemoveInside(heap, levels, cfg, a, j, k, mid, s, ch, work, index, p);
          ClimbDone(cfg, heap, levels, root, depth, nextId, content, a, Delete(j), k, mid, s, ch, path, current, work, p);
          heap := heap[work := InnerNode(p)];
        }
      } else if !n.hasSibling {
        var p := BorderLast(n);
        StepBorderLast(heap, levels, cfg, a, j, k, mid, s, ch, work, p);
        ClimbDone(cfg, heap, levels, root, depth, nextId, content, a, Delete(j), k, mid, s, ch, path, current, work, p);
        heap := heap[work := InnerNode(p)];
      } else {
        var rn := InnerOf(heap, n.next);
        if BorderMergeGuard(n, rn, cfg.innerMerge) {
          var q := BorderMerge(n, rn);
          StepBorderMerge(heap, levels, cfg, a, j, k, mid, s, ch, work, n.next, q);
          MergeAbove(cfg, heap, levels, root, depth, nextId, content, a, Delete(j), k, mid, s, ch, path, current, q, n.next, mid, j');
          heap := heap[work := InnerNode(q)] - {n.next};
          levels := DropNode(levels, a + 1, j');
          merged := true;
        } else {
          var (p, q) := BorderShift(n, rn);
          mid' := Last(p.seps);
          StepBorderShift(heap, levels, cfg, a, j, k, mid, s, ch, work, n.next, p, q);
          LowerAbove(cfg, heap, heap[work := InnerNode(p)][n.next := InnerNode(q)], levels, root, depth, nextId, content, a, Delete(j), k, mid, s, ch, path, current, mid', j');
          heap := heap[work := InnerNode(p)][n.next := InnerNode(q)];
          up := true;
        }
      }
    }

    /** InnerNode::anchor_update in the parent on top of the path. */
    method AnchorStep(ghost k: int, ghost a: nat, mid: int, path: seq<Id>, ghost current: Id, ghost j: nat, ghost s: seq<int>, ghost ch: seq<Id>)
      returns (up: bool, ghost j': nat, ghost s': seq<int>, ghost ch': seq<Id>)
      requires Climbing(cfg, heap, levels, root, depth, nextId, content, a, Lower(j, mid), k, mid, s, ch, path, current)
      modifies this`heap
      ensures a + 1 < |levels|
      ensures !up ==> Valid()
      ensures up ==> Climbing(cfg, heap, levels, root, depth, nextId, content, a + 1, Lower(j', mid), k, mid, s', ch', Front(path), Back(path))
    {
      hide TreeOk, Stores, PathTo, Rank, Work, Bounds, At, Row, Complete, Front, Back, Pending, LevelOk, Inners, LeavesOf, InnerOf, Climbing, ConfigOk;
      ClimbWork(cfg, heap, levels, root, depth, nextId, content, a, Lower(j, mid), k, mid, s, ch, path, current);
      ClimbFacts(cfg, heap, levels, root, depth, nextId, content, a, Lower(j, mid), k, mid, s, ch, path, current);
      var work := Back(path);
      var n := InnerOf(heap, work);
      var index := Rank(n.seps, mid);
      FoundIndex(heap, levels, cfg, a, Lower(j, mid), k, mid, s, ch, work);
      var p := AnchorUpdate(n, index, mid);
      up := p.hasSibling && |p.seps| - 1 == index;
      j', s', ch' := At(heap, levels, a + 1, k), Bounds(heap, levels, a + 1), Row(levels, a + 1);
      StepAnchorUpdate(heap, levels, cfg, a, j, k, mid, s, ch, work, index, p);
      if up {
        LowerAbove(cfg, heap, heap[work := InnerNode(p)], levels, root, depth, nextId, content, a, Lower(j, mid), k, mid, s, ch, path, current, mid, j');
      } else {
        ClimbDone(cfg, heap, levels, root, depth, nextId, content, a, Lower(j, mid), k, mid, s, ch, path, current, work, p);
      }
      heap := heap[work := InnerNode(p)];
    }

    /** InnerNode::root_remove: a root left without separators hands over to its only child. */
    method CollapseRoot()
      requires Valid() && |levels| > 1
      modifies this
      ensures Valid() && content == old(content)
    {
      hide TreeOk, Stores;
      RootInner(cfg, heap, levels, root, depth, nextId, content);
      var n := InnerOf(heap, root);
      if |n.seps| == 0 {
        Collapse(heap, levels, cfg);
        CollapseKeeps(cfg, heap, levels, root, depth, nextId, content);
        heap := heap - {root};
        root, depth := n.next, depth - 1;
        levels := levels[..|levels| - 1];
      }
    }

    /** The climb of FBTree::remove after leaf was merged with its right sibling; mid_ is the bound to delete. */
    method RemoveUp(ghost k: int, leaf: Id, mid_: int, path_: seq<Id>, ghost j_: nat, ghost s_: seq<int>, ghost ch_: seq<Id>)
      requires Climbing(cfg, heap, levels, root, depth, nextId, content, 0, Delete(j_), k, mid_, s_, ch_, path_, leaf)
      modifies this
      ensures Valid() && content == old(content)
    {
      hide TreeOk, Stores, PathTo, Climbing, Rank, Work, Bounds, At, DropNode, Row, Complete, Front, Back, ConfigOk;
      var current, path, mid, merged, up := leaf, path_, mid_, true, false;
      ghost var a, j, s, ch := 0, j_, s_, ch_;
      while merged || up
        invariant !merged && !up ==> Valid()
        invariant merged || up ==>
                    Climbing(cfg, heap, levels, root, depth, nextId, content, a, if merged then Delete(j) else Lower(j, mid), k, mid, s, ch, path, current)
        invariant content == old(content) && (merged || up ==> a <= |levels|)
        decreases if merged || up then 1 else 0, |levels| - a
      {
        var work := Back(path);
        if merged {
          merged, up, mid, j, s, ch := InnerRemove(k, a, mid, path, current, j, s, ch);
        } else {
          up, j, s, ch := AnchorStep(k, a, mid, path, current, j, s, ch);
        }
        a, current, path := a + 1, work, Front(path);
        if merged || up {
          ClimbBelowTop(cfg, heap, levels, root, depth, nextId, content, a, if merged then Delete(j) else Lower(j, mid), k, mid, s, ch, path, current);
          ClimbAtRoot(cfg, heap, levels, root, depth, nextId, content, a, if merged then Delete(j) else Lower(j, mid), k, mid, s, ch, path, current);
        }
        if work == root {
          merged, up := false, false;
          CollapseRoot();
        }
      }
    }
  }
}
