/**
 Every edit an inner node makes is a one-element edit of its level, and leaves exactly one such edit
 for the level above.
 */
module LevelEdits {
  import opened Ordered
  import opened Level

  function Splice(ns: seq<Inner>, j: nat, c: nat, w: seq<Inner>): seq<Inner>
    requires j + c <= |ns|
  {
    ns[..j] + w + ns[j + c..]
  }

  // ---------- from a window of a level to the whole level ----------

  lemma WindowFlat(ns: seq<Inner>, j: nat, c: nat, w: seq<Inner>)
    requires j + c <= |ns|
    ensures FlatSeps(ns) == FlatSeps(ns[..j]) + FlatSeps(ns[j..j + c]) + FlatSeps(ns[j + c..])
    ensures FlatKids(ns) == FlatKids(ns[..j]) + FlatKids(ns[j..j + c]) + FlatKids(ns[j + c..])
    ensures FlatSeps(Splice(ns, j, c, w)) == FlatSeps(ns[..j]) + FlatSeps(w) + FlatSeps(ns[j + c..])
    ensures FlatKids(Splice(ns, j, c, w)) == FlatKids(ns[..j]) + FlatKids(w) + FlatKids(ns[j + c..])
  {
    hide FlatSeps, FlatKids;
    assert ns == ns[..j] + ns[j..j + c] + ns[j + c..];
    FlatWindow(ns[..j], ns[j..j + c], ns[j + c..]);
    FlatWindow(ns[..j], w, ns[j + c..]);
  }

  lemma InsertShift<T>(a: seq<T>, x: seq<T>, b: seq<T>, i: nat, t: T)
    requires i <= |x|
    ensures a + InsertAt(x, i, t) + b == InsertAt(a + x + b, |a| + i, t)
  {
  }

  lemma RemoveShift<T>(a: seq<T>, x: seq<T>, b: seq<T>, i: nat)
    requires i < |x|
    ensures a + RemoveAt(x, i) + b == RemoveAt(a + x + b, |a| + i)
  {
  }

  lemma UpdateShift<T>(a: seq<T>, x: seq<T>, b: seq<T>, i: nat, t: T)
    requires i < |x|
    ensures a + x[i := t] + b == (a + x + b)[|a| + i := t]
  {
  }

  lemma InsertWindow(ns: seq<Inner>, ids: seq<Id>, size: nat, j: nat, c: nat, w: seq<Inner>, i: nat, mid: int, r: Id)
    requires LevelOk(ns, ids, size) && j < j + c <= |ns|
    requires i <= |FlatSeps(ns[j..j + c])| && i < |FlatKids(ns[j..j + c])|
    requires FlatSeps(w) == InsertAt(FlatSeps(ns[j..j + c]), i, mid)
    requires FlatKids(w) == InsertAt(FlatKids(ns[j..j + c]), i + 1, r)
    ensures Absorbs(ns, Splice(ns, j, c, w), Insert(Off(ns, j) + i, mid, r))
  {
    hide FlatSeps, FlatKids;
    FlatCounts(ns, ids, size);
    WindowFlat(ns, j, c, w);
    InsertShift(FlatSeps(ns[..j]), FlatSeps(ns[j..j + c]), FlatSeps(ns[j + c..]), i, mid);
    InsertShift(FlatKids(ns[..j]), FlatKids(ns[j..j + c]), FlatKids(ns[j + c..]), i + 1, r);
  }

  lemma DeleteWindow(ns: seq<Inner>, ids: seq<Id>, size: nat, j: nat, c: nat, w: seq<Inner>, i: nat)
    requires LevelOk(ns, ids, size) && j < j + c <= |ns|
    requires i < |FlatSeps(ns[j..j + c])| && i + 1 < |FlatKids(ns[j..j + c])|
    requires FlatSeps(w) == RemoveAt(FlatSeps(ns[j..j + c]), i)
    requires FlatKids(w) == RemoveAt(FlatKids(ns[j..j + c]), i + 1)
    ensures Absorbs(ns, Splice(ns, j, c, w), Delete(Off(ns, j) + i))
  {
    hide FlatSeps, FlatKids;
    FlatCounts(ns, ids, size);
    WindowFlat(ns, j, c, w);
    RemoveShift(FlatSeps(ns[..j]), FlatSeps(ns[j..j + c]), FlatSeps(ns[j + c..]), i);
    RemoveShift(FlatKids(ns[..j]), FlatKids(ns[j..j + c]), FlatKids(ns[j + c..]), i + 1);
  }

  lemma UpdateWindow(ns: seq<Inner>, ids: seq<Id>, size: nat, j: nat, n: Inner, i: nat, mid: int)
    requires LevelOk(ns, ids, size) && j < |ns| && i < |ns[j].seps|
    requires n == AnchorUpdate(ns[j], i, mid)
    ensures Absorbs(ns, Splice(ns, j, 1, [n]), Lower(Off(ns, j) + i, mid))
  {
    hide FlatSeps, FlatKids;
    FlatCounts(ns, ids, size);
    WindowFlat(ns, j, 1, [n]);
    assert ns[j..j + 1] == [ns[j]];
    FlatOne(ns[j]);
    FlatOne(n);
    UpdateShift(FlatSeps(ns[..j]), ns[j].seps, FlatSeps(ns[j + 1..]), i, mid);
  }

  // ---------- what the nodes of a level look like from above ----------

  lemma RaiseKeep(ns: seq<Inner>, ids: seq<Id>, size: nat, j: nat, n: Inner)
    requires LevelOk(ns, ids, size) && j < |ns| && Shape(n, size)
    requires n.hasSibling == ns[j].hasSibling
    requires n.hasSibling ==> n.next == ns[j].next && n.seps != [] && Last(n.seps) == Last(ns[j].seps)
    ensures var ns' := Splice(ns, j, 1, [n]); LevelOk(ns', ids, size) && Raises(ns, ids, ns', ids, Keep)
  {
    assert Splice(ns, j, 1, [n]) == ns[j := n];
  }

  lemma SpliceTwoAt(ns: seq<Inner>, j: nat, l: Inner, r: Inner)
    requires j < |ns|
    ensures var ns' := Splice(ns, j, 1, [l, r]);
            && |ns'| == |ns| + 1
            && ns'[j] == l && ns'[j + 1] == r
            && (forall i :: 0 <= i < j ==> ns'[i] == ns[i])
            && (forall i :: j + 1 < i < |ns'| ==> ns'[i] == ns[i - 1])
  {
  }

  lemma SpliceOneAt(ns: seq<Inner>, j: nat, n: Inner)
    requires j + 1 < |ns|
    ensures var ns' := Splice(ns, j, 2, [n]);
            && |ns'| == |ns| - 1
            && ns'[j] == n
            && (forall i :: 0 <= i < j ==> ns'[i] == ns[i])
            && (forall i :: j < i < |ns'| ==> ns'[i] == ns[i + 1])
  {
  }

  lemma HighsInsert(ns: seq<Inner>, j: nat, l: Inner, r: Inner)
    requires j < |ns| && (j < |ns| - 1 ==> Last(r.seps) == Last(ns[j].seps))
    ensures Highs(Splice(ns, j, 1, [l, r])) == InsertAt(Highs(ns), j, Last(l.seps))
  {
    SpliceTwoAt(ns, j, l, r);
    var ns', hs' := Splice(ns, j, 1, [l, r]), InsertAt(Highs(ns), j, Last(l.seps));
    forall i | 0 <= i < |ns'| - 1 ensures Last(ns'[i].seps) == hs'[i] {
    }
  }

  lemma RaiseInsert(ns: seq<Inner>, ids: seq<Id>, size: nat, j: nat, l: Inner, r: Inner, rid: Id)
    requires LevelOk(ns, ids, size) && j < |ns| && Shape(l, size) && Shape(r, size)
    requires l.hasSibling && l.next == rid && l.seps != []
    requires r.hasSibling == ns[j].hasSibling
    requires r.hasSibling ==> r.next == ns[j].next && r.seps != [] && Last(r.seps) == Last(ns[j].seps)
    ensures var ns' := Splice(ns, j, 1, [l, r]);
            var ids' := InsertAt(ids, j + 1, rid);
            LevelOk(ns', ids', size) && Raises(ns, ids, ns', ids', Insert(j, Last(l.seps), rid))
  {
    SpliceTwoAt(ns, j, l, r);
    HighsInsert(ns, j, l, r);
    var ns', ids' := Splice(ns, j, 1, [l, r]), InsertAt(ids, j + 1, rid);
    assert ids'[j + 1] == rid && (forall i :: j + 1 < i < |ids'| ==> ids'[i] == ids[i - 1]);
    forall i | 0 <= i < |ns'| - 1 ensures ns'[i].hasSibling && ns'[i].seps != [] && ns'[i].next == ids'[i + 1] {
    }
  }

  lemma RaiseDelete(ns: seq<Inner>, ids: seq<Id>, size: nat, j: nat, n: Inner)
    requires LevelOk(ns, ids, size) && j + 1 < |ns| && Shape(n, size)
    requires n.hasSibling == ns[j + 1].hasSibling
    requires n.hasSibling ==> n.next == ns[j + 1].next && n.seps != [] && Last(n.seps) == Last(ns[j + 1].seps)
    ensures var ns' := Splice(ns, j, 2, [n]);
            var ids' := RemoveAt(ids, j + 1);
            LevelOk(ns', ids', size) && Raises(ns, ids, ns', ids', Delete(j))
  {
    SpliceOneAt(ns, j, n);
    var ns' := Splice(ns, j, 2, [n]);
    var hs' := RemoveAt(Highs(ns), j);
    forall i | 0 <= i < |ns'| - 1 ensures Last(ns'[i].seps) == hs'[i] {
    }
    assert Highs(ns') == hs';
    var ids' := RemoveAt(ids, j + 1);
    forall i | 0 <= i < |ns'| - 1 ensures ns'[i].hasSibling && ns'[i].seps != [] && ns'[i].next == ids'[i + 1] {
    }
  }

  lemma RaiseUpdate(ns: seq<Inner>, ids: seq<Id>, size: nat, j: nat, n: Inner, m: Inner)
    requires LevelOk(ns, ids, size) && j + 1 < |ns| && Shape(n, size) && Shape(m, size)
    requires n.hasSibling && n.next == ns[j].next && n.seps != []
    requires m.hasSibling == ns[j + 1].hasSibling
    requires m.hasSibling ==> m.next == ns[j + 1].next && m.seps != [] && Last(m.seps) == Last(ns[j + 1].seps)
    ensures var ns' := Splice(ns, j, 2, [n, m]);
            LevelOk(ns', ids, size) && Raises(ns, ids, ns', ids, Lower(j, Last(n.seps)))
  {
    var ns' := Splice(ns, j, 2, [n, m]);
    assert ns' == ns[j := n][j + 1 := m];
    assert Highs(ns') == Highs(ns)[j := Last(n.seps)];
  }

  // ---------- the edits ----------

  /** Inserting without a split adds one separator and one child and leaves the upper level alone. */
  lemma InsertRoomEdit(ns: seq<Inner>, ids: seq<Id>, size: nat, j: nat, i: nat, mid: int, l: Id, r: Id)
    requires LevelOk(ns, ids, size) && j < |ns|
    requires |ns[j].seps| < size && i <= |ns[j].seps| && (ns[j].hasSibling ==> i < |ns[j].seps|)
    requires Kids(ns[j])[i] == l
    ensures var n := InsertRoom(ns[j], i, mid, l, r);
            var ns' := Splice(ns, j, 1, [n]);
            && LevelOk(ns', ids, size)
            && Absorbs(ns, ns', Insert(Off(ns, j) + i, mid, r))
            && Raises(ns, ids, ns', ids, Keep)
  {
    hide FlatSeps, FlatKids;
    var n := InsertRoom(ns[j], i, mid, l, r);
    assert ns[j..j + 1] == [ns[j]];
    FlatOne(ns[j]);
    FlatOne(n);
    assert Kids(n) == InsertAt(Kids(ns[j]), i + 1, r);
    InsertWindow(ns, ids, size, j, 1, [n], i, mid, r);
    RaiseKeep(ns, ids, size, j, n);
  }

  lemma InsertLow<T>(s: seq<T>, h: nat, i: nat, t: T)
    requires i <= h <= |s|
    ensures InsertAt(s[..h], i, t) + s[h..] == InsertAt(s, i, t)
  {
  }

  lemma InsertHigh<T>(s: seq<T>, h: nat, i: nat, t: T)
    requires h <= i <= |s|
    ensures s[..h] + InsertAt(s[h..], i - h, t) == InsertAt(s, i, t)
  {
  }

  lemma SplitSeps(n: Inner, i: nat, mid: int, l: Id, r: Id, rid: Id)
    requires |n.children| == |n.seps| && i <= |n.seps|
    ensures var (a, b) := Split(n, i, mid, l, r, rid); a.seps + b.seps == InsertAt(n.seps, i, mid)
  {
    var h := |n.seps| / 2;
    if i < h {
      InsertLow(n.seps, h, i, mid);
    } else if i < |n.seps| {
      InsertHigh(n.seps, h, i, mid);
    }
  }

  lemma SplitKids(n: Inner, i: nat, mid: int, l: Id, r: Id, rid: Id)
    requires |n.children| == |n.seps| && i <= |n.seps| && (n.hasSibling ==> i < |n.seps|)
    requires Kids(n)[i] == l
    ensures var (a, b) := Split(n, i, mid, l, r, rid); Kids(a) + Kids(b) == InsertAt(Kids(n), i + 1, r)
  {
    var (a, b) := Split(n, i, mid, l, r, rid);
    var h := |n.seps| / 2;
    assert Kids(n)[..h] == n.children[..h];
    if i == |n.seps| {
      assert Kids(n) == n.children + [l];
    } else if i < h {
      assert Kids(b) == Kids(n)[h..];
      InsertLow(Kids(n), h, i + 1, r);
    } else {
      SplitRightKids(n, h, i, r);
      InsertHigh(Kids(n), h, i + 1, r);
    }
  }

  lemma SplitRightKids(n: Inner, h: nat, i: nat, r: Id)
    requires |n.children| == |n.seps| && h <= i < |n.seps|
    ensures n.hasSibling ==> InsertAt(n.children[h..], i - h + 1, r) == InsertAt(Kids(n)[h..], i - h + 1, r)
    ensures !n.hasSibling ==> InsertAt(n.children[h..], i - h + 1, r) + [n.next] == InsertAt(Kids(n)[h..], i - h + 1, r)
  {
    assert !n.hasSibling ==> Kids(n)[h..] == n.children[h..] + [n.next];
  }

  /** Inserting into a full node regroups the level, and the left node's new bound is what goes up. */
  lemma SplitEdit(ns: seq<Inner>, ids: seq<Id>, size: nat, j: nat, i: nat, mid: int, l: Id, r: Id, rid: Id)
    requires LevelOk(ns, ids, size) && j < |ns| && size >= 4
    requires |ns[j].seps| == size && i <= size && (ns[j].hasSibling ==> i < size)
    requires Kids(ns[j])[i] == l
    ensures var (a, b) := Split(ns[j], i, mid, l, r, rid);
            var ns' := Splice(ns, j, 1, [a, b]);
            var ids' := InsertAt(ids, j + 1, rid);
            && LevelOk(ns', ids', size)
            && Absorbs(ns, ns', Insert(Off(ns, j) + i, mid, r))
            && Raises(ns, ids, ns', ids', Insert(j, Last(a.seps), rid))
  {
    hide FlatSeps, FlatKids;
    var (a, b) := Split(ns[j], i, mid, l, r, rid);
    SplitSeps(ns[j], i, mid, l, r, rid);
    SplitKids(ns[j], i, mid, l, r, rid);
    assert ns[j].hasSibling ==> Last(b.seps) == Last(ns[j].seps);
    assert ns[j..j + 1] == [ns[j]];
    FlatOne(ns[j]);
    FlatTwo(a, b);
    InsertWindow(ns, ids, size, j, 1, [a, b], i, mid, r);
    RaiseInsert(ns, ids, size, j, a, b, rid);
  }

  /** Removing an inner separator deletes one separator and one child. */
  lemma RemoveInsideEdit(ns: seq<Inner>, ids: seq<Id>, size: nat, j: nat, i: nat)
    requires LevelOk(ns, ids, size) && j < |ns| && i + 1 < |ns[j].seps|
    ensures var ns' := Splice(ns, j, 1, [RemoveInside(ns[j], i)]);
            && LevelOk(ns', ids, size)
            && Absorbs(ns, ns', Delete(Off(ns, j) + i))
            && Raises(ns, ids, ns', ids, Keep)
  {
    hide FlatSeps, FlatKids;
    var n := RemoveInside(ns[j], i);
    assert ns[j..j + 1] == [ns[j]];
    FlatOne(ns[j]);
    FlatOne(n);
    assert Kids(n) == RemoveAt(Kids(ns[j]), i + 1);
    DeleteWindow(ns, ids, size, j, 1, [n], i);
    RaiseKeep(ns, ids, size, j, n);
  }

  /** Merging a node with its right sibling changes neither separators nor children of the level. */
  lemma MergeEdit(ns: seq<Inner>, ids: seq<Id>, size: nat, j: nat)
    requires LevelOk(ns, ids, size) && j + 1 < |ns| && |ns[j].seps| + |ns[j + 1].seps| <= size
    ensures var ns' := Splice(ns, j, 2, [MergeRight(ns[j], ns[j + 1])]);
            var ids' := RemoveAt(ids, j + 1);
            && LevelOk(ns', ids', size)
            && Absorbs(ns, ns', Keep)
            && Raises(ns, ids, ns', ids', Delete(j))
  {
    hide FlatSeps, FlatKids;
    var n := MergeRight(ns[j], ns[j + 1]);
    assert ns[j..j + 2] == [ns[j], ns[j + 1]];
    FlatTwo(ns[j], ns[j + 1]);
    FlatOne(n);
    WindowFlat(ns, j, 2, [n]);
    assert Kids(n) == Kids(ns[j]) + Kids(ns[j + 1]);
    FlatCounts(ns, ids, size);
    RaiseDelete(ns, ids, size, j, n);
  }

  /** Removing an inner separator and then merging with the right sibling. */
  lemma RemoveMergeEdit(ns: seq<Inner>, ids: seq<Id>, size: nat, j: nat, i: nat)
    requires LevelOk(ns, ids, size) && j + 1 < |ns| && i + 1 < |ns[j].seps|
    requires |ns[j].seps| - 1 + |ns[j + 1].seps| <= size
    ensures var ns' := Splice(ns, j, 2, [MergeRight(RemoveInside(ns[j], i), ns[j + 1])]);
            var ids' := RemoveAt(ids, j + 1);
            && LevelOk(ns', ids', size)
            && Absorbs(ns, ns', Delete(Off(ns, j) + i))
            && Raises(ns, ids, ns', ids', Delete(j))
  {
    hide FlatSeps, FlatKids, Off, Splice;
    var n := RemoveInside(ns[j], i);
    var ns1 := ns[j := n];
    RemoveInsideEdit(ns, ids, size, j, i);
    SpliceOne(ns, j, n);
    MergeEdit(ns1, ids, size, j);
    SpliceAgain(ns, j, n, MergeRight(n, ns[j + 1]));
  }

  lemma SpliceOne(ns: seq<Inner>, j: nat, n: Inner)
    requires j < |ns|
    ensures Splice(ns, j, 1, [n]) == ns[j := n]
  {
  }

  lemma SpliceAgain(ns: seq<Inner>, j: nat, n: Inner, m: Inner)
    requires j + 1 < |ns|
    ensures Splice(ns[j := n], j, 2, [m]) == Splice(ns, j, 2, [m])
  {
  }

  /** Removing the last separator of the rightmost node. */
  lemma BorderLastEdit(ns: seq<Inner>, ids: seq<Id>, size: nat, j: nat)
    requires LevelOk(ns, ids, size) && j == |ns| - 1 && ns[j].seps != []
    ensures var ns' := Splice(ns, j, 1, [BorderLast(ns[j])]);
            && LevelOk(ns', ids, size)
            && Absorbs(ns, ns', Delete(Off(ns, j) + |ns[j].seps| - 1))
            && Raises(ns, ids, ns', ids, Keep)
  {
    hide FlatSeps, FlatKids;
    var n := BorderLast(ns[j]);
    assert ns[j..j + 1] == [ns[j]];
    FlatOne(ns[j]);
    FlatOne(n);
    assert Kids(n) == RemoveAt(Kids(ns[j]), |ns[j].seps|);
    DeleteWindow(ns, ids, size, j, 1, [n], |ns[j].seps| - 1);
    RaiseKeep(ns, ids, size, j, n);
  }

  lemma BorderMergeJoin(n: Inner, rn: Inner)
    requires n.hasSibling && |n.children| == |n.seps| > 0 && |rn.children| == |rn.seps|
    requires rn.seps == [] ==> !rn.hasSibling
    ensures var m := BorderMerge(n, rn);
            var i := |n.seps| - 1;
            && m.seps == RemoveAt(n.seps + rn.seps, i)
            && Kids(m) == RemoveAt(Kids(n) + Kids(rn), i + 1)
            && |m.children| == |m.seps| == i + |rn.seps| && m.hasSibling == rn.hasSibling
            && (m.hasSibling ==> m.next == rn.next && m.seps != [] && Last(m.seps) == Last(rn.seps))
  {
    var m := BorderMerge(n, rn);
    if rn.seps == [] {
      assert Kids(m) == n.children;
    } else {
      assert Kids(m) == n.children + Kids(rn)[1..];
    }
  }

  lemma BorderShiftJoin(n: Inner, rn: Inner)
    requires n.hasSibling && |n.children| == |n.seps| > 0 && |rn.children| == |rn.seps| > 0
    ensures var (a, b) := BorderShift(n, rn);
            var i := |n.seps| - 1;
            && a.seps + b.seps == RemoveAt(n.seps + rn.seps, i)
            && Kids(a) + Kids(b) == RemoveAt(Kids(n) + Kids(rn), i + 1)
  {
    var (a, b) := BorderShift(n, rn);
    assert Kids(b) == [n.children[|n.seps| - 1]] + Kids(rn)[1..];
    assert Kids(a) + Kids(b) == n.children + Kids(rn)[1..];
  }

  /** Removing the last separator of a node that absorbs its sibling: the bound to delete above is the removed one. */
  lemma BorderMergeEdit(ns: seq<Inner>, ids: seq<Id>, size: nat, j: nat)
    requires LevelOk(ns, ids, size) && j + 1 < |ns| && |ns[j].seps| - 1 + |ns[j + 1].seps| <= size
    ensures var ns' := Splice(ns, j, 2, [BorderMerge(ns[j], ns[j + 1])]);
            var ids' := RemoveAt(ids, j + 1);
            && LevelOk(ns', ids', size)
            && Absorbs(ns, ns', Delete(Off(ns, j) + |ns[j].seps| - 1))
            && Raises(ns, ids, ns', ids', Delete(j))
  {
    hide FlatSeps, FlatKids;
    var i := |ns[j].seps| - 1;
    var n := BorderMerge(ns[j], ns[j + 1]);
    assert ns[j..j + 2] == [ns[j], ns[j + 1]];
    FlatTwo(ns[j], ns[j + 1]);
    FlatOne(n);
    BorderMergeJoin(ns[j], ns[j + 1]);
    hide BorderMerge;
    DeleteWindow(ns, ids, size, j, 2, [n], i);
    RaiseDelete(ns, ids, size, j, n);
  }

  /** Removing the last separator of a node that hands its last child over: the node's bound moves down. */
  lemma BorderShiftEdit(ns: seq<Inner>, ids: seq<Id>, size: nat, j: nat)
    requires LevelOk(ns, ids, size) && j + 1 < |ns| && |ns[j].seps| > 1 && ns[j + 1].seps != []
    ensures var (a, b) := BorderShift(ns[j], ns[j + 1]);
            var ns' := Splice(ns, j, 2, [a, b]);
            && LevelOk(ns', ids, size)
            && Absorbs(ns, ns', Delete(Off(ns, j) + |ns[j].seps| - 1))
            && Raises(ns, ids, ns', ids, Lower(j, Last(a.seps)))
  {
    hide FlatSeps, FlatKids;
    var i := |ns[j].seps| - 1;
    var (a, b) := BorderShift(ns[j], ns[j + 1]);
    assert ns[j..j + 2] == [ns[j], ns[j + 1]];
    FlatTwo(ns[j], ns[j + 1]);
    FlatTwo(a, b);
    BorderShiftJoin(ns[j], ns[j + 1]);
    DeleteWindow(ns, ids, size, j, 2, [a, b], i);
    RaiseUpdate(ns, ids, size, j, a, b);
  }

  /** Moving a separator down; above, only a node's own bound is affected. */
  lemma AnchorEdit(ns: seq<Inner>, ids: seq<Id>, size: nat, j: nat, i: nat, mid: int)
    requires LevelOk(ns, ids, size) && j < |ns| && i < |ns[j].seps|
    ensures var n := AnchorUpdate(ns[j], i, mid);
            var ns' := Splice(ns, j, 1, [n]);
            && LevelOk(ns', ids, size)
            && Absorbs(ns, ns', Lower(Off(ns, j) + i, mid))
            && Raises(ns, ids, ns', ids, if ns[j].hasSibling && i == |ns[j].seps| - 1 then Lower(j, mid) else Keep)
  {
    hide FlatSeps, FlatKids;
    var n := AnchorUpdate(ns[j], i, mid);
    UpdateWindow(ns, ids, size, j, n, i, mid);
    if ns[j].hasSibling && i == |ns[j].seps| - 1 {
      assert Splice(ns, j, 1, [n]) == ns[j := n];
      assert Highs(ns[j := n]) == Highs(ns)[j := mid];
    } else {
      RaiseKeep(ns, ids, size, j, n);
    }
  }
}
