/**
 Range scans of a quiescent tree. A scan walks the chain of leaves through the ordered view of each leaf;
 because only the rightmost leaf can be empty, stepping to the sibling once is enough to find the next key.
 */
module Scan {
  import opened Options
  import opened Ordered
  import opened Level
  import opened Leaves
  import opened LeafEdits
  import opened Store
  import opened Climb
  import opened Steps
  import opened LeafSteps
  import opened Tree

  /** The keys of the leaves one after the other, each leaf in ascending order. */
  function ChainKeys(ls: seq<Leaf>): seq<int> {
    if ls == [] then [] else Ascending(ls[0].kvs.Keys) + ChainKeys(ls[1..])
  }

  lemma {:induction false} ChainConcat(a: seq<Leaf>, b: seq<Leaf>)
    ensures ChainKeys(a + b) == ChainKeys(a) + ChainKeys(b)
  {
    hide Ascending;
    if a == [] {
      assert a + b == b;
    } else {
      ChainConcat(a[1..], b);
      assert (a + b)[1..] == a[1..] + b && (a + b)[0] == a[0];
      Assoc(Ascending(a[0].kvs.Keys), ChainKeys(a[1..]), ChainKeys(b));
    }
  }

  lemma ChainStep(ls: seq<Leaf>, j: nat)
    requires j < |ls|
    ensures ChainKeys(ls[j..]) == Ascending(ls[j].kvs.Keys) + ChainKeys(ls[j + 1..])
  {
    assert ls[j..][0] == ls[j] && ls[j..][1..] == ls[j + 1..];
  }

  /** The keys of leaf j lie between the bounds of leaf j. */
  lemma LeafWithin(ls: seq<Leaf>, ids: seq<Id>, size: nat, j: nat)
    requires LeavesOk(ls, ids, size) && j < |ls|
    ensures var s := Ascending(ls[j].kvs.Keys); Sorted(s) && (j > 0 ==> AllAbove(s, ls[j - 1].high)) && (j < |ls| - 1 ==> NoneAbove(s, ls[j].high))
    ensures 0 < j < |ls| - 1 ==> ls[j - 1].high < ls[j].high
  {
    hide Ascending, Rank;
    AscendingIs(ls[j].kvs.Keys);
    assert InRange(ls, j);
    assert 0 < j < |ls| - 1 ==> LeafHighs(ls)[j - 1] < LeafHighs(ls)[j];
  }

  ghost predicate AllAbove(xs: seq<int>, k: int) {
    forall x :: x in xs ==> k < x
  }

  ghost predicate NoneAbove(xs: seq<int>, k: int) {
    forall x :: x in xs ==> x <= k
  }

  /** Keys from leaf j on lie above every earlier bound. */
  lemma {:induction false} ChainAbove(ls: seq<Leaf>, ids: seq<Id>, size: nat, j: nat)
    requires LeavesOk(ls, ids, size) && j <= |ls|
    ensures Sorted(ChainKeys(ls[j..]))
    ensures j > 0 ==> AllAbove(ChainKeys(ls[j..]), ls[j - 1].high)
    decreases |ls| - j
  {
    if j < |ls| {
      hide Ascending, LeavesOk, ChainKeys, AllAbove, NoneAbove, Sorted;
      ChainAbove(ls, ids, size, j + 1);
      ChainStep(ls, j);
      LeafWithin(ls, ids, size, j);
      var s, t := Ascending(ls[j].kvs.Keys), ChainKeys(ls[j + 1..]);
      if j == |ls| - 1 {
        ChainNone(ls, j);
        assert s + t == s;
      } else {
        SortedJoin(s, t, ls[j].high);
        if j > 0 {
          AboveJoin(s, t, ls[j - 1].high, ls[j].high);
        }
      }
    } else {
      assert ls[j..] == [];
    }
  }

  lemma SortedJoin(s: seq<int>, t: seq<int>, b: int)
    requires Sorted(s) && Sorted(t) && NoneAbove(s, b) && AllAbove(t, b)
    ensures Sorted(s + t)
  {
    assert forall y :: 0 <= y < |t| ==> t[y] in t;
    assert forall y :: 0 <= y < |s| ==> s[y] in s;
    SortedConcat(s, t);
  }

  lemma AboveJoin(s: seq<int>, t: seq<int>, a: int, b: int)
    requires AllAbove(s, a) && AllAbove(t, b) && a <= b
    ensures AllAbove(s + t, a)
  {
  }

  lemma SortedConcat(s: seq<int>, t: seq<int>)
    requires Sorted(s) && Sorted(t) && forall x, y :: 0 <= x < |s| && 0 <= y < |t| ==> s[x] < t[y]
    ensures Sorted(s + t)
  {
  }

  lemma {:induction false} ChainHas(ls: seq<Leaf>, k: int)
    ensures k in ChainKeys(ls) <==> exists v :: Holds(ls, k, v)
  {
    if ls != [] {
      ChainHas(ls[1..], k);
      AscendingIs(ls[0].kvs.Keys);
      assert ls == [ls[0]] + ls[1..];
      if k in ls[0].kvs {
        HoldsOne(ls[0], k, ls[0].kvs[k]);
        HoldsConcat([ls[0]], ls[1..], k, ls[0].kvs[k]);
      }
      if v :| Holds(ls[1..], k, v) {
        HoldsConcat([ls[0]], ls[1..], k, v);
      }
      if v :| Holds(ls, k, v) {
        HoldsConcat([ls[0]], ls[1..], k, v);
        HoldsOne(ls[0], k, v);
      }
    }
  }

  /** The chain of leaves is the ascending enumeration of the stored keys. */
  lemma ChainIsAscending(ls: seq<Leaf>, ids: seq<Id>, size: nat, m: map<int, Value>)
    requires LeavesOk(ls, ids, size) && Represents(ls, m)
    ensures ChainKeys(ls) == Ascending(m.Keys)
  {
    hide LeavesOk, InRange, Holds, Ascending, Rank;
    assert ls[0..] == ls;
    ChainAbove(ls, ids, size, 0);
    AscendingIs(m.Keys);
    forall k ensures k in ChainKeys(ls) <==> k in Ascending(m.Keys) {
      ChainHas(ls, k);
      if k in m {
        assert Holds(ls, k, m[k]);
      }
    }
    AscendingUnique(ChainKeys(ls), Ascending(m.Keys));
  }

  /** All stored keys from k on, in ascending order. */
  ghost function KeysFrom(m: map<int, Value>, k: int): seq<int> {
    Ascending(m.Keys)[Rank(Ascending(m.Keys), k)..]
  }

  /** Keys from k on, or from k + 1 on: the rest of the leaf that covers k, then the leaves to its right. */
  lemma FromLeaf(ls: seq<Leaf>, ids: seq<Id>, size: nat, k: int, from: int)
    requires LeavesOk(ls, ids, size) && (from == k || from == k + 1)
    ensures Rank(LeafHighs(ls), k) < |ls|
    ensures var j := Rank(LeafHighs(ls), k);
            var asc := Ascending(ls[j].kvs.Keys);
            ChainKeys(ls)[Rank(ChainKeys(ls), from)..] == asc[Rank(asc, from)..] + ChainKeys(ls[j + 1..])
  {
    hide Ascending, ChainKeys, Rank, LeavesOk, Sorted, NoneAbove, LeafHighs;
    HighCovers(ls, ids, size, k);
    var j := Rank(LeafHighs(ls), k);
    var asc := Ascending(ls[j].kvs.Keys);
    var before, after := ChainKeys(ls[..j]), ChainKeys(ls[j + 1..]);
    ChainParts(ls, ids, size, j);
    ChainBelow(ls, ids, size, j, from);
    AfterAbove(ls, ids, size, k);
    FromParts(ChainKeys(ls), before, asc, after, from);
  }

  lemma ChainParts(ls: seq<Leaf>, ids: seq<Id>, size: nat, j: nat)
    requires LeavesOk(ls, ids, size) && j < |ls|
    ensures ChainKeys(ls) == ChainKeys(ls[..j]) + (Ascending(ls[j].kvs.Keys) + ChainKeys(ls[j + 1..])) && Sorted(ChainKeys(ls))
  {
    hide Ascending, ChainKeys, LeavesOk, Sorted;
    ChainStep(ls, j);
    ChainConcat(ls[..j], ls[j..]);
    assert ls == ls[..j] + ls[j..] && ls[0..] == ls;
    ChainAbove(ls, ids, size, 0);
  }

  lemma AfterAbove(ls: seq<Leaf>, ids: seq<Id>, size: nat, k: int)
    requires LeavesOk(ls, ids, size)
    ensures Rank(LeafHighs(ls), k) < |ls|
    ensures var after := ChainKeys(ls[Rank(LeafHighs(ls), k) + 1..]); after == [] || k < after[0]
  {
    hide Ascending, ChainKeys, Rank, LeavesOk, Sorted;
    HighCovers(ls, ids, size, k);
    var j := Rank(LeafHighs(ls), k);
    var after := ChainKeys(ls[j + 1..]);
    ChainAbove(ls, ids, size, j + 1);
    if j == |ls| - 1 {
      ChainNone(ls, j);
    }
    assert after != [] ==> after[0] in after;
  }

  lemma ChainNone(ls: seq<Leaf>, j: nat)
    requires j == |ls| - 1
    ensures ChainKeys(ls[j + 1..]) == []
  {
  }

  lemma HighCovers(ls: seq<Leaf>, ids: seq<Id>, size: nat, k: int)
    requires LeavesOk(ls, ids, size)
    ensures var j := Rank(LeafHighs(ls), k); j < |ls| && (j < |ls| - 1 ==> k <= ls[j].high) && (j > 0 ==> ls[j - 1].high < k)
  {
    var j := Rank(LeafHighs(ls), k);
    assert j < |ls| - 1 ==> k <= LeafHighs(ls)[j];
    assert j > 0 ==> LeafHighs(ls)[j - 1] < k;
  }

  lemma {:induction false} ChainBelow(ls: seq<Leaf>, ids: seq<Id>, size: nat, j: nat, k: int)
    requires LeavesOk(ls, ids, size) && j < |ls| && (j > 0 ==> ls[j - 1].high < k)
    ensures NoneAbove(ChainKeys(ls[..j]), k - 1)
  {
    hide Ascending, Rank;
    if j > 0 {
      assert j > 1 ==> LeafHighs(ls)[j - 2] < LeafHighs(ls)[j - 1];
      ChainBelow(ls, ids, size, j - 1, k);
      ChainConcat(ls[..j - 1], [ls[j - 1]]);
      assert ls[..j] == ls[..j - 1] + [ls[j - 1]];
      ChainOne(ls[j - 1]);
      AscendingIs(ls[j - 1].kvs.Keys);
      assert InRange(ls, j - 1);
    }
  }

  lemma ChainOne(l: Leaf)
    ensures ChainKeys([l]) == Ascending(l.kvs.Keys)
  {
    assert ChainKeys([l][1..]) == [];
  }

  lemma FromPosition(before: seq<int>, asc: seq<int>, after: seq<int>, k: int)
    requires NoneAbove(before, k - 1)
    requires Rank(asc, k) == |asc| ==> after == [] || k <= after[0]
    ensures var all, p := before + (asc + after), |before| + Rank(asc, k);
            && all[p..] == asc[Rank(asc, k)..] + after
            && (p > 0 ==> all[p - 1] < k) && (p < |all| ==> k <= all[p])
  {
    var all, p := before + (asc + after), |before| + Rank(asc, k);
    assert Rank(asc, k) == 0 && p > 0 ==> all[p - 1] == before[p - 1] && before[p - 1] in before;
  }

  lemma FromParts(all: seq<int>, before: seq<int>, asc: seq<int>, after: seq<int>, k: int)
    requires all == before + (asc + after) && Sorted(all) && NoneAbove(before, k - 1) && (after == [] || k <= after[0])
    ensures all[Rank(all, k)..] == asc[Rank(asc, k)..] + after
  {
    hide Rank, NoneAbove;
    FromPosition(before, asc, after, k);
    RankIs(all, k, |before| + Rank(asc, k));
  }

  class Iterator {
    const tree: FBTree
    var node: Id
    var pos: nat
    var kv: Option<int> // the key pointed at, none at the end

    ghost predicate Valid()
      reads this, tree
    {
      tree.Valid() && (kv.Some? ==> OnLeaf(tree.heap, tree.levels, node, pos, kv.value))
    }

    /** The keys still to come, the current one first. */
    ghost function Remaining(): seq<int>
      reads this, tree
    {
      if kv.None? then [] else RemainingFrom(tree.heap, tree.levels, node, pos)
    }

    /** FBTree::bound: positions the iterator on the first key not below k, or for upper above k. */
    constructor (t: FBTree, k: int, upper: bool)
      requires t.Valid()
      ensures Valid() && tree == t
      ensures Remaining() == KeysFrom(t.content, if upper then k + 1 else k)
    {
      hide Complete, LeafAt, PathTo, RemainingFrom, OnLeaf, KeysFrom, Ascending, LeafBound, ChainFrom, IndexOf;
      ghost var rest := KeysFrom(t.content, if upper then k + 1 else k);
      var w, _ := t.Descend(k);
      BoundStart(t.cfg, t.heap, t.levels, t.root, t.depth, t.nextId, t.content, k, upper, w);
      var asc := Ascending(t.heap[w].leaf.kvs.Keys);
      var p: nat := LeafBound(asc, k, upper);
      var found := if p < |asc| then Some(asc[p]) else None;
      ghost var j := IndexOf(t.heap, t.levels, k);
      while found.None? && LeafOf(t.heap, w).hasSibling
        invariant IndexOf(t.heap, t.levels, k) <= j < |t.levels[0]| && w == t.levels[0][j]
        invariant found.Some? ==> OnLeaf(t.heap, t.levels, w, p, found.value) && RemainingFrom(t.heap, t.levels, w, p) == rest
        invariant found.None? ==> ChainFrom(t.heap, t.levels, j + 1) == rest
        decreases |t.levels[0]| - j
      {
        BoundNext(t.cfg, t.heap, t.levels, t.root, t.depth, t.nextId, t.content, k, upper, j);
        w := LeafOf(t.heap, w).sibling;
        asc := Ascending(LeafOf(t.heap, w).kvs.Keys);
        p := LeafBound(asc, k, upper);
        found := if p < |asc| then Some(asc[p]) else None;
        j := j + 1;
      }
      BoundNext(t.cfg, t.heap, t.levels, t.root, t.depth, t.nextId, t.content, k, upper, j);
      tree, node, pos, kv := t, w, p, found;
    }

    /** iterator::advance. */
    method Advance()
      requires Valid() && kv.Some?
      modifies this
      ensures Valid() && Remaining() == old(Remaining())[1..]
    {
      hide Complete, RemainingFrom, OnLeaf, KeysFrom, Ascending;
      AdvanceFrom(tree.cfg, tree.heap, tree.levels, tree.root, tree.depth, tree.nextId, tree.content, node, pos, kv.value);
      var l := LeafOf(tree.heap, node);
      var asc := Ascending(l.kvs.Keys);
      if pos + 1 < |asc| {
        pos, kv := pos + 1, Some(asc[pos + 1]);
      } else if l.hasSibling {
        var asc' := Ascending(LeafOf(tree.heap, l.sibling).kvs.Keys);
        node, pos, kv := l.sibling, 0, if 0 < |asc'| then Some(asc'[0]) else None;
      } else {
        kv := None;
      }
    }
  }

  /** The iterator points at position pos of the ordered view of leaf w. */
  ghost predicate OnLeaf(h: Heap, levels: seq<seq<Id>>, w: Id, pos: nat, k: int) {
    && |levels| > 0 && w in levels[0]
    && pos < |LeafOf(h, w).kvs| && Ascending(LeafOf(h, w).kvs.Keys)[pos] == k
  }

  ghost function IndexIn(ids: seq<Id>, w: Id): nat {
    if w in ids then var i :| 0 <= i < |ids| && ids[i] == w; i else 0
  }

  ghost function RemainingFrom(h: Heap, levels: seq<seq<Id>>, w: Id, pos: nat): seq<int> {
    if |levels| > 0 && w in levels[0] && pos <= |LeafOf(h, w).kvs| then
      Ascending(LeafOf(h, w).kvs.Keys)[pos..] + ChainKeys(LeavesOf(h, levels[0])[IndexIn(levels[0], w) + 1..])
    else []
  }

  lemma RemainingAt(h: Heap, levels: seq<seq<Id>>, c: Config, j: nat, pos: nat)
    requires Formed(h, levels, c) && j < |levels[0]| && pos <= |LeafOf(h, levels[0][j]).kvs|
    ensures RemainingFrom(h, levels, levels[0][j], pos)
            == Ascending(LeafOf(h, levels[0][j]).kvs.Keys)[pos..] + ChainKeys(LeavesOf(h, levels[0])[j + 1..])
  {
    hide Ascending, ChainKeys, LeavesOk, LevelOk;
    assert levels[0][j] in levels[0];
    assert NoDup(levels[0]);
    assert IndexIn(levels[0], levels[0][j]) == j;
  }

  /** The next leaf's first key continues the scan; only a rightmost leaf has nothing. */
  lemma NextLeaf(h: Heap, levels: seq<seq<Id>>, c: Config, j: nat)
    requires Formed(h, levels, c) && j < |levels[0]|
    ensures LeafOf(h, levels[0][j]).hasSibling <==> j + 1 < |levels[0]|
    ensures j + 1 < |levels[0]| ==>
              var r := LeafOf(h, levels[0][j]).sibling;
              && r == levels[0][j + 1] && r in levels[0]
              && RemainingFrom(h, levels, r, 0) == ChainKeys(LeavesOf(h, levels[0])[j + 1..])
              && (LeafOf(h, r).kvs == map[] ==> ChainKeys(LeavesOf(h, levels[0])[j + 1..]) == [])
    ensures j + 1 == |levels[0]| ==> ChainKeys(LeavesOf(h, levels[0])[j + 1..]) == []
  {
    var ls := LeavesOf(h, levels[0]);
    LeafMember(h, levels, c);
    if j + 1 < |levels[0]| {
      assert ls[j].hasSibling && ls[j].sibling == levels[0][j + 1];
      hide Ascending, LeavesOk, LevelOk;
      RemainingAt(h, levels, c, j + 1, 0);
      ChainStep(ls, j + 1);
      assert Ascending(ls[j + 1].kvs.Keys)[0..] == Ascending(ls[j + 1].kvs.Keys);
      if ls[j + 1].kvs == map[] {
        EmptyIsLast(ls, levels[0], c.leafSize, j + 1);
        assert ls[j + 2..] == [];
        assert |Ascending(ls[j + 1].kvs.Keys)| == 0;
      }
    } else {
      assert ls[j + 1..] == [];
    }
  }

  lemma EmptyIsLast(ls: seq<Leaf>, ids: seq<Id>, size: nat, j: nat)
    requires LeavesOk(ls, ids, size) && j < |ls| && ls[j].kvs == map[]
    ensures j == |ls| - 1
  {
  }

  /** The keys of the leaves from leaf j on. */
  ghost function ChainFrom(h: Heap, levels: seq<seq<Id>>, j: nat): seq<int> {
    if |levels| > 0 && j <= |levels[0]| then ChainKeys(LeavesOf(h, levels[0])[j..]) else []
  }

  lemma ChainFromIs(h: Heap, levels: seq<seq<Id>>, j: nat)
    requires |levels| > 0 && j <= |levels[0]|
    ensures ChainFrom(h, levels, j) == ChainKeys(LeavesOf(h, levels[0])[j..])
  {
  }

  /** The place in the chain of the leaf that covers k. */
  ghost function IndexOf(h: Heap, levels: seq<seq<Id>>, k: int): nat {
    if |levels| > 0 then At(h, levels, 0, k) else 0
  }

  /** The search in the leaf that covers k. */
  lemma BoundStart(c: Config, h: Heap, levels: seq<seq<Id>>, root: Id, depth: nat, fresh_: Id, m: map<int, Value>, k: int, upper: bool, w: Id)
    requires Complete(c, h, levels, root, depth, fresh_, m) && LeafAt(h, levels, k, w)
    ensures |levels| > 0 && IndexOf(h, levels, k) < |levels[0]| && w == levels[0][IndexOf(h, levels, k)]
    ensures var asc, rest := Ascending(LeafOf(h, w).kvs.Keys), KeysFrom(m, if upper then k + 1 else k);
            var p := LeafBound(asc, k, upper);
            if p < |asc| then OnLeaf(h, levels, w, p, asc[p]) && RemainingFrom(h, levels, w, p) == rest
            else ChainFrom(h, levels, IndexOf(h, levels, k) + 1) == rest
  {
    hide Ascending, ChainKeys, LeavesOk, LevelOk, Linked, Placed, Bounds, Rank, Represents, RemainingFrom, LeafBound, KeysFrom, ChainFrom, Sorted;
    BoundRest(c, h, levels, m, k, if upper then k + 1 else k);
    var asc := Ascending(LeafOf(h, w).kvs.Keys);
    AscendingIs(LeafOf(h, w).kvs.Keys);
    LeafBoundIs(asc, k, upper);
    RemainingAt(h, levels, c, At(h, levels, 0, k), LeafBound(asc, k, upper));
    ChainFromIs(h, levels, At(h, levels, 0, k) + 1);
  }

  /** The keys from k on, or from k + 1 on, in the leaf that covers k and after it. */
  lemma BoundRest(c: Config, h: Heap, levels: seq<seq<Id>>, m: map<int, Value>, k: int, from: int)
    requires Formed(h, levels, c) && Represents(LeavesOf(h, levels[0]), m) && (from == k || from == k + 1)
    ensures At(h, levels, 0, k) < |levels[0]|
    ensures var asc := Ascending(LeafOf(h, levels[0][At(h, levels, 0, k)]).kvs.Keys);
            KeysFrom(m, from) == asc[Rank(asc, from)..] + ChainFrom(h, levels, At(h, levels, 0, k) + 1)
  {
    hide Ascending, ChainKeys, LeavesOk, LevelOk, Rank, Represents;
    var ls := LeavesOf(h, levels[0]);
    LeafMember(h, levels, c);
    StartRank(h, levels, k);
    ChainIsAscending(ls, levels[0], c.leafSize, m);
    FromLeaf(ls, levels[0], c.leafSize, k, from);
  }

  /** The search in a leaf further right: it finds the leaf's first key. */
  lemma BoundNext(c: Config, h: Heap, levels: seq<seq<Id>>, root: Id, depth: nat, fresh_: Id, m: map<int, Value>, k: int, upper: bool, j: nat)
    requires Complete(c, h, levels, root, depth, fresh_, m) && |levels| > 0 && IndexOf(h, levels, k) <= j < |levels[0]|
    ensures LeafOf(h, levels[0][j]).hasSibling <==> j + 1 < |levels[0]|
    ensures j + 1 < |levels[0]| ==> BoundFound(h, levels, k, upper, j + 1) && LeafOf(h, levels[0][j]).sibling == levels[0][j + 1]
    ensures j + 1 == |levels[0]| ==> ChainFrom(h, levels, j + 1) == []
  {
    hide Ascending, ChainKeys, LeavesOk, LevelOk, Linked, Placed, Bounds, Rank, Represents, RemainingFrom, LeafBound, OnLeaf;
    var ls := LeavesOf(h, levels[0]);
    NextLeaf(h, levels, c, j);
    if j + 1 < |levels[0]| {
      LeafMember(h, levels, c);
      StartRank(h, levels, k);
      BoundAbove(ls, levels[0], c.leafSize, k, j);
      FirstOf(Ascending(ls[j + 1].kvs.Keys), k, upper);
      ChainStep(ls, j + 1);
      FirstOn(h, levels, j + 1);
    }
  }

  /** What the search finds in leaf j. */
  ghost predicate BoundFound(h: Heap, levels: seq<seq<Id>>, k: int, upper: bool, j: nat) {
    && |levels| > 0 && j < |levels[0]|
    && var asc := Ascending(LeafOf(h, levels[0][j]).kvs.Keys);
    && LeafBound(asc, k, upper) == 0
    && if asc == [] then ChainFrom(h, levels, j + 1) == ChainFrom(h, levels, j)
       else OnLeaf(h, levels, levels[0][j], 0, asc[0]) && RemainingFrom(h, levels, levels[0][j], 0) == ChainFrom(h, levels, j)
  }

  lemma FirstOn(h: Heap, levels: seq<seq<Id>>, j: nat)
    requires |levels| > 0 && j < |levels[0]|
    ensures var asc := Ascending(LeafOf(h, levels[0][j]).kvs.Keys); asc != [] ==> OnLeaf(h, levels, levels[0][j], 0, asc[0])
  {
    AscendingIs(LeafOf(h, levels[0][j]).kvs.Keys);
  }

  lemma FirstOf(asc: seq<int>, k: int, upper: bool)
    requires AllAbove(asc, k)
    ensures LeafBound(asc, k, upper) == 0
  {
    assert forall i :: 0 <= i < |asc| ==> asc[i] in asc;
  }

  lemma BoundAbove(ls: seq<Leaf>, ids: seq<Id>, size: nat, k: int, j: nat)
    requires LeavesOk(ls, ids, size) && Rank(LeafHighs(ls), k) <= j < |ls| - 1
    ensures AllAbove(Ascending(ls[j + 1].kvs.Keys), k)
  {
    hide Ascending;
    var i := Rank(LeafHighs(ls), k);
    assert k <= LeafHighs(ls)[i] <= LeafHighs(ls)[j];
    AscendingIs(ls[j + 1].kvs.Keys);
    assert InRange(ls, j + 1);
  }

  lemma StartRank(h: Heap, levels: seq<seq<Id>>, k: int)
    requires |levels| > 0
    ensures At(h, levels, 0, k) == Rank(LeafHighs(LeavesOf(h, levels[0])), k)
  {
  }

  lemma AdvanceFrom(c: Config, h: Heap, levels: seq<seq<Id>>, root: Id, depth: nat, fresh_: Id, m: map<int, Value>, w: Id, pos: nat, k: int)
    requires Complete(c, h, levels, root, depth, fresh_, m) && OnLeaf(h, levels, w, pos, k)
    ensures var l := LeafOf(h, w);
            var rest := RemainingFrom(h, levels, w, pos);
            && rest != []
            && (pos + 1 < |Ascending(l.kvs.Keys)| ==> RemainingFrom(h, levels, w, pos + 1) == rest[1..] && OnLeaf(h, levels, w, pos + 1, Ascending(l.kvs.Keys)[pos + 1]))
            && (pos + 1 >= |Ascending(l.kvs.Keys)| && !l.hasSibling ==> rest[1..] == [])
            && (pos + 1 >= |Ascending(l.kvs.Keys)| && l.hasSibling ==>
                  && RemainingFrom(h, levels, l.sibling, 0) == rest[1..]
                  && if |Ascending(LeafOf(h, l.sibling).kvs.Keys)| == 0 then rest[1..] == []
                     else OnLeaf(h, levels, l.sibling, 0, Ascending(LeafOf(h, l.sibling).kvs.Keys)[0]))
  {
    hide Ascending, ChainKeys, LeavesOk, LevelOk, Linked, Placed, Bounds, Rank, Represents, RemainingFrom;
    var j :| 0 <= j < |levels[0]| && levels[0][j] == w;
    NextLeaf(h, levels, c, j);
    RemainingAt(h, levels, c, j, pos);
    if pos + 1 < |LeafOf(h, w).kvs| {
      RemainingAt(h, levels, c, j, pos + 1);
    }
  }
}
