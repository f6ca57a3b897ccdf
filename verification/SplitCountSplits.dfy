/** The split of a leaf keeps the invariant of the split-count protocol. */
module SplitCountSplits {
  import opened Options
  import opened SplitCount
  import opened SplitCountInvariant
  import opened SplitCountSteps
  import opened SplitCountVisits

  /** Thread t, at leaf x with its latch, splits it at m and makes leaf r of the upper part. */
  ghost predicate Splits(s: State, s': State, t: Tid, x: Id, r: Id, m: int) {
    && x in s.leaves && r !in s.leaves && x != r && s.leaves[x].latch == Some(t) && Inside(s, x, m)
    && JobOf(s, t).Visit? && LeavesOf(JobOf(s, t)) == {x}
    && s'.slots == s.slots && s'.parents == s.parents && s'.jobs == s.jobs[t := Splitting(x, r, m)]
    && s'.leaves == s.leaves[r := Leaf(Some(m), s.leaves[x].up, s.leaves[x].sib, false, {}, 0, None, Some(t), true, r)]
                            [x := s.leaves[x].(up := Some(m), sib := r, splits := s.leaves[x].splits + {t}, version := s.leaves[x].version + 1)]
  }

  lemma SplitsIs(s: State, s': State, t: Tid, r: Id, m: int)
    requires Inv(s) && Enabled(s, Split(t, r, m)) && s' == Do(s, Split(t, r, m))
    ensures Splits(s, s', t, JobOf(s, t).leaf, r, m)
  {
    hide Inv, ClearedTo, ParentOk;
    JobIs(s, t);
  }

  lemma SplitDoes(s: State, s': State, t: Tid, x: Id, r: Id, m: int)
    requires Splits(s, s', t, x, r, m)
    ensures s'.slots == s.slots && s'.parents == s.parents && s'.leaves.Keys == s.leaves.Keys + {r} && r !in s.leaves && x in s.leaves && x != r
    ensures OthersSame(s, s', t) && JobOf(s', t) == Splitting(x, r, m) && JobOf(s, t).Visit? && LeavesOf(JobOf(s, t)) == {x}
    ensures forall y :: y in s.leaves && y != x ==> s'.leaves[y] == s.leaves[y]
    ensures forall y :: y in s.leaves ==> s'.leaves[y].low == s.leaves[y].low && s'.leaves[y].into == s.leaves[y].into && s'.leaves[y].latch == s.leaves[y].latch
    ensures forall y :: y in s.leaves ==> s'.leaves[y].hidden == s.leaves[y].hidden && s'.leaves[y].maker == s.leaves[y].maker && s'.leaves[y].deleted == s.leaves[y].deleted
    ensures s'.leaves[x] == s.leaves[x].(up := Some(m), sib := r, splits := s.leaves[x].splits + {t}, version := s.leaves[x].version + 1)
    ensures s'.leaves[r] == Leaf(Some(m), s.leaves[x].up, s.leaves[x].sib, false, {}, 0, None, Some(t), true, r)
    ensures s.leaves[x].latch == Some(t) && Inside(s, x, m) && IsLive(s', x) && IsLive(s', r)
  {
    hide LeavesOf;
  }

  lemma SplitTree(s: State, s': State, t: Tid, x: Id, r: Id, m: int)
    requires TreeOk(s) && HiddenSplits(s) && Splits(s, s', t, x, r, m)
    ensures TreeOk(s')
  {
    hide Splits;
    SplitDoes(s, s', t, x, r, m);
    assert LeafOk(s, x);
    forall y | y in s'.leaves ensures LeafOk(s', y) {
      if y != r {
        assert LeafOk(s, y);
      }
    }
    forall y, z ensures LivesApart(s', y, z) {
      var y0, z0 := if y == r then x else y, if z == r then x else z;
      assert LivesApart(s, y0, z0);
    }
    forall o | o in s'.slots ensures SlotOk(s', o) {
      assert SlotOk(s, o);
    }
    forall o, q ensures SlotsApart(s', o, q) {
      assert SlotsApart(s, o, q);
    }
  }

  lemma SplitBound(s: State, s': State, t: Tid, x: Id, r: Id, m: int, k: int)
    requires Splits(s, s', t, x, r, m)
    ensures IsSep(s', k) == IsSep(s, k) && (IsUp(s', k) <==> IsUp(s, k) || k == m)
    ensures (Uninserted(s', k) <==> Uninserted(s, k) || k == m) && Unremoved(s', k) == Unremoved(s, k)
    ensures MergeUpOn(s', k) == MergeUpOn(s, k) && SplitUpOn(s', k) == SplitUpOn(s, k)
  {
    hide Splits;
    SplitDoes(s, s', t, x, r, m);
    if IsUp(s, k) {
      var y :| IsLive(s, y) && s.leaves[y].up == Some(k);
      assert IsLive(s', if y == x then r else y);
    }
    if IsUp(s', k) {
      var y :| IsLive(s', y) && s'.leaves[y].up == Some(k);
      assert y != r && y != x ==> IsLive(s, y);
      assert IsLive(s, x);
    }
    assert SplitAt(JobOf(s', t), m);
    assert IsLive(s', x);
    SplitPending(s, s', t, k);
  }

  lemma SplitPending(s: State, s': State, t: Tid, k: int)
    requires OthersSame(s, s', t) && JobOf(s, t).Visit? && JobOf(s', t).Splitting?
    ensures Uninserted(s', k) <==> Uninserted(s, k) || k == JobOf(s', t).mid
    ensures Unremoved(s', k) == Unremoved(s, k) && MergeUpOn(s', k) == MergeUpOn(s, k) && SplitUpOn(s', k) == SplitUpOn(s, k)
  {
    assert SplitAt(JobOf(s', t), JobOf(s', t).mid);
    if Uninserted(s, k) {
      var u :| SplitAt(JobOf(s, u), k);
      assert SplitAt(JobOf(s', u), k);
    }
    if Uninserted(s', k) {
      var u :| SplitAt(JobOf(s', u), k);
      assert u != t ==> SplitAt(JobOf(s, u), k);
    }
  }

  lemma SplitClear(s: State, s': State, t: Tid, x: Id, r: Id, m: int, z: Id, b: int)
    requires Splits(s, s', t, x, r, m) && z in s.leaves && ClearedTo(s, z, b)
    ensures ClearedTo(s', z, b)
  {
    hide Splits, IsSep, IsUp, Uninserted, Unremoved, MergeUpOn, SplitUpOn, MergedInto;
    SplitDoes(s, s', t, x, r, m);
    forall k | IsSep(s', k) && Over(At(s', z).low, k) && k < b ensures MergeUpOn(s', k) || MergedInto(s', k, z) {
      SplitBound(s, s', t, x, r, m, k);
      if MergedInto(s, k, z) {
        IntoSame(s, s', t, k, z);
      }
    }
  }

  lemma SplitRest(s: State, s': State, t: Tid, x: Id, r: Id, m: int)
    requires TreeOk(s) && UpsOk(s) && SepsOk(s) && SlotsClear(s) && LatchesOk(s) && MakersOk(s) && Splits(s, s', t, x, r, m)
    ensures UpsOk(s') && SepsOk(s') && SlotsClear(s') && LatchesOk(s') && MakersOk(s')
  {
    hide Splits, IsSep, IsUp, Uninserted, Unremoved, MergeUpOn, SplitUpOn, LeafLatches, NodeLatches, ClearedTo, TreeOk;
    SplitDoes(s, s', t, x, r, m);
    forall k ensures (IsUp(s', k) ==> IsSep(s', k) || Uninserted(s', k)) && (IsSep(s', k) ==> IsUp(s', k) || Unremoved(s', k)) {
      SplitBound(s, s', t, x, r, m, k);
    }
    forall o ensures SlotClear(s', o) {
      assert SlotClear(s, o);
      if o in s.slots && s.slots[o].lo.Some? {
        SlotFacts(s, o);
        SplitClear(s, s', t, x, r, m, At(s, o).into, s.slots[o].lo.value + 1);
      }
    }
    LeafLatchesSame(s, s', t);
    NodeLatchesSame(s, s', t);
  }

  // ---------- the splitter and the others ----------

  /** A bound strictly inside a latched leaf is the high key of nobody, and no merge of it waits at that leaf. */
  lemma InsideLatched(s: State, t: Tid, x: Id, m: int)
    requires Inv(s) && Inside(s, x, m) && s.leaves[x].latch == Some(t) && !Working(JobOf(s, t))
    ensures !IsUp(s, m) && (forall z :: !MergedInto(s, m, z)) && !SplitUpOn(s, m) && (IsSep(s, m) ==> MergeUpOn(s, m))
  {
    hide Inv, IsSep, IsUp, Uninserted, Unremoved, MergeUpOn, VisitOk, TreeOk;
    Parts(s);
    NotUp(s, x, m);
    forall z ensures !MergedInto(s, m, z) {
      if MergedInto(s, m, z) {
        var u :| JobOf(s, u).Merged? && JobOf(s, u).mid == m && JobOf(s, u).leaf == z;
        JobIs(s, u);
        OneAround(s, z, x, m);
      }
    }
    if IsSep(s, m) {
      InsideSep(s, x, m);
    }
    if SplitUpOn(s, m) {
      var u :| JobOf(s, u).SplitUp? && JobOf(s, u).mid == m;
      JobIs(s, u);
    }
  }

  lemma SplitterOk(s: State, s': State, t: Tid, x: Id, r: Id, m: int)
    requires Inv(s) && Splits(s, s', t, x, r, m)
    ensures JobOk(s', t)
  {
    hide Inv, Splits, IsSep, IsUp, MergeUpOn, SplitUpOn, MergedInto, Uninserted, Unremoved;
    SplitDoes(s, s', t, x, r, m);
    InsideLatched(s, t, x, m);
    SplitBound(s, s', t, x, r, m, m);
  }

  /** A visit of another thread has the leaf only if it waits for it or reads it without a latch. */
  lemma NotTheirLeaf(s: State, s': State, t: Tid, x: Id, r: Id, m: int, u: Tid)
    requires Inv(s) && Splits(s, s', t, x, r, m) && u != t && JobOf(s, u).Visit?
    ensures var j := JobOf(s, u); j.prev.Some? ==> j.prev.value != x && j.prev.value in s.leaves
    ensures var j := JobOf(s, u); !j.free && !j.stage.Came? ==> j.leaf != x
  {
    hide Inv, Splits, JobOk;
    SplitDoes(s, s', t, x, r, m);
    JobIs(s, u);
  }

  lemma SplitPlace(s: State, s': State, t: Tid, x: Id, r: Id, m: int, u: Tid)
    requires Inv(s) && Splits(s, s', t, x, r, m) && u != t && JobOf(s, u).Visit? && PlaceOk(s, JobOf(s, u))
    ensures PlaceOk(s', JobOf(s, u))
  {
    hide Inv, Splits, ClearedTo;
    SplitDoes(s, s', t, x, r, m);
    NotTheirLeaf(s, s', t, x, r, m, u);
    Parts(s);
    var j := JobOf(s, u);
    LeafFacts(s, j.leaf);
    if Hits(s, j) {
      SplitClear(s, s', t, x, r, m, s.leaves[j.leaf].into, j.key);
    }
  }

  lemma SplitRead(s: State, s': State, t: Tid, x: Id, r: Id, m: int, u: Tid)
    requires Inv(s) && Splits(s, s', t, x, r, m) && u != t && JobOf(s, u).Visit? && ReadOk(s, JobOf(s, u))
    ensures ReadOk(s', JobOf(s, u))
  {
    hide Inv, Splits;
    SplitDoes(s, s', t, x, r, m);
    NotTheirLeaf(s, s', t, x, r, m, u);
    JobIs(s, t);
  }

  lemma SplitVisit(s: State, s': State, t: Tid, x: Id, r: Id, m: int, u: Tid)
    requires Inv(s) && Splits(s, s', t, x, r, m) && u != t && JobOf(s, u).Visit?
    ensures VisitOk(s', u, JobOf(s, u))
  {
    hide Inv, Splits, PlaceOk, ReadOk, OnwardOk;
    SplitDoes(s, s', t, x, r, m);
    JobIs(s, u);
    SplitPlace(s, s', t, x, r, m, u);
    SplitRead(s, s', t, x, r, m, u);
    OnwardSame(s, s', t, JobOf(s, u));
  }

  lemma SplitSplitUp(s: State, s': State, t: Tid, x: Id, r: Id, m: int, u: Tid)
    requires Inv(s) && Splits(s, s', t, x, r, m) && u != t && JobOf(s, u).SplitUp?
    ensures SplitUpOk(s', u, JobOf(s, u))
  {
    hide Inv, Splits, IsSep, IsUp, Uninserted, Unremoved, MergedInto, MergeUpOn, SplitUpOn;
    SplitDoes(s, s', t, x, r, m);
    JobIs(s, u);
    var j := JobOf(s, u);
    SplitBound(s, s', t, x, r, m, j.mid);
    InsideLatched(s, t, x, m);
    AtMid(s, u);
    Parts(s);
    SlotFacts(s, j.slot);
    if !IsLive(s, j.right) {
      IntoSame(s, s', t, j.mid, s.leaves[j.right].into);
    }
  }

  lemma SplitJob(s: State, s': State, t: Tid, x: Id, r: Id, m: int, u: Tid)
    requires Inv(s) && Splits(s, s', t, x, r, m) && u != t
    ensures JobOk(s', u)
  {
    hide Inv, Splits, IsSep, IsUp, Uninserted, Unremoved, MergedInto, MergeUpOn, SplitUpOn, VisitOk;
    SplitDoes(s, s', t, x, r, m);
    JobIs(s, u);
    var j := JobOf(s, u);
    match j
    case Visit(_, _, _, _, _, _, _, _, _, _) => SplitVisit(s, s', t, x, r, m, u);
    case Splitting(_, _, mid) => SplitBound(s, s', t, x, r, m, mid);
    case SplitUp(_, _, _, _, _, _) => SplitSplitUp(s, s', t, x, r, m, u);
    case Merged(_, mid) => SplitBound(s, s', t, x, r, m, mid);
    case MergeUp(_, _, mid, _, _, _) => SplitBound(s, s', t, x, r, m, mid);
    case _ =>
  }

  lemma AtMid(s: State, u: Tid)
    requires JobOf(s, u).SplitUp?
    ensures SplitUpOn(s, JobOf(s, u).mid)
  {
  }

  lemma KeepSplit(s: State, t: Tid, r: Id, m: int)
    requires Inv(s) && Enabled(s, Split(t, r, m))
    ensures Inv(Do(s, Split(t, r, m)))
  {
    hide Inv, TreeOk, UpsOk, SepsOk, SlotsClear, LatchesOk, MakersOk, JobOk, Splits, HiddenSplits;
    var s', x := Do(s, Split(t, r, m)), JobOf(s, t).leaf;
    SplitsIs(s, s', t, r, m);
    Parts(s);
    HiddenAre(s);
    SplitTree(s, s', t, x, r, m);
    SplitRest(s, s', t, x, r, m);
    forall u ensures JobOk(s', u) {
      if u == t {
        SplitterOk(s, s', t, x, r, m);
      } else {
        SplitJob(s, s', t, x, r, m, u);
      }
    }
    Whole(s');
  }
}
