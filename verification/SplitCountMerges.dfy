/** The merge of two leaves keeps the invariant of the split-count protocol. */
module SplitCountMerges {
  import opened Options
  import opened SplitCount
  import opened SplitCountInvariant
  import opened SplitCountSteps
  import opened SplitCountVisits

  /** Thread t, with the latches of both, merges leaf r into its left neighbour x; m is the bound between them. */
  ghost predicate Merges(s: State, s': State, t: Tid, x: Id, r: Id, m: int) {
    && JobOf(s, t) == Merging(x, r) && Mine(s, t) && x != r && IsLive(s, x) && IsLive(s, r)
    && s.leaves[x].up == Some(m) == s.leaves[r].low && s.leaves[x].sib == r && !s.leaves[r].hidden && !s.leaves[x].hidden
    && s.leaves[x].into == x && s.leaves[r].into == r && Wide(s.leaves[x].low, Some(m)) && Wide(Some(m), s.leaves[r].up)
    && s' == DoMerge(s, t)
  }

  lemma MergesIs(s: State, s': State, t: Tid)
    requires Inv(s) && Enabled(s, Merge(t)) && s' == Do(s, Merge(t))
    ensures var j := JobOf(s, t); At(s, j.leaf).up.Some? && Merges(s, s', t, j.leaf, j.right, At(s, j.leaf).up.value)
  {
    hide Inv;
    JobIs(s, t);
    Parts(s);
    LeafFacts(s, JobOf(s, t).leaf);
    LeafFacts(s, JobOf(s, t).right);
  }

  lemma MergeDoes(s: State, s': State, t: Tid, x: Id, r: Id, m: int)
    requires Merges(s, s', t, x, r, m)
    ensures s'.slots == s.slots && s'.parents == s.parents && s'.leaves.Keys == s.leaves.Keys && x != r && x in s.leaves && r in s.leaves
    ensures OthersSame(s, s', t) && JobOf(s', t) == Merged(x, m) && JobOf(s, t) == Merging(x, r)
    ensures forall y :: y in s.leaves && y != x && y != r ==> s'.leaves[y] == MovedLeaf(s.leaves[y], r, x)
    ensures s'.leaves[x] == s.leaves[x].(up := s.leaves[r].up, sib := s.leaves[r].sib, version := s.leaves[x].version + 1)
    ensures s'.leaves[r] == s.leaves[r].(deleted := true, sib := x, latch := None, version := s.leaves[r].version + 1, into := x)
    ensures forall y :: y in s.leaves ==> s'.leaves[y].low == s.leaves[y].low && s'.leaves[y].hidden == s.leaves[y].hidden && s'.leaves[y].maker == s.leaves[y].maker
    ensures forall y :: y in s.leaves ==> s'.leaves[y].into == (if s.leaves[y].into == r then x else s.leaves[y].into) && s'.leaves[y].splits == s.leaves[y].splits
    ensures s.leaves[x].latch == Some(t) && s.leaves[r].latch == Some(t) && IsLive(s, x) && IsLive(s, r) && IsLive(s', x)
    ensures s.leaves[x].up == Some(m) == s.leaves[r].low && s.leaves[x].sib == r && !s.leaves[r].hidden && !s.leaves[x].hidden
    ensures s.leaves[x].into == x && s.leaves[r].into == r && Wide(s.leaves[x].low, Some(m)) && Wide(Some(m), s.leaves[r].up)
  {
  }

  lemma MergeLeaf(s: State, s': State, t: Tid, x: Id, r: Id, m: int, y: Id)
    requires TreeOk(s) && HiddenSplits(s) && Merges(s, s', t, x, r, m) && y in s.leaves
    ensures y in s'.leaves && LeafOk(s', y)
  {
    hide Merges, HiddenSplits;
    MergeDoes(s, s', t, x, r, m);
    assert LeafOk(s, y) && LeafOk(s, x) && LeafOk(s, r);
    if y == x && s.leaves[r].up.Some? {
      var z := s.leaves[r].sib;
      assert LeafOk(s, z);
      if s.leaves[z].hidden {
        HiddenOne(s, z);
      }
    } else if !s.leaves[y].deleted && s.leaves[y].up.Some? && s.leaves[y].sib == r {
      OneWithUp(s, x, y, m);
    }
  }

  lemma MergeApart(s: State, s': State, t: Tid, x: Id, r: Id, m: int, y: Id, z: Id)
    requires TreeOk(s) && Merges(s, s', t, x, r, m)
    ensures LivesApart(s', y, z)
  {
    hide Merges;
    MergeDoes(s, s', t, x, r, m);
    if IsLive(s', y) && IsLive(s', z) && y != z {
      assert LivesApart(s, y, z) && LivesApart(s, r, y) && LivesApart(s, r, z);
      assert LeafOk(s, y) && LeafOk(s, z);
    }
  }

  lemma MergeTree(s: State, s': State, t: Tid, x: Id, r: Id, m: int)
    requires TreeOk(s) && HiddenSplits(s) && Merges(s, s', t, x, r, m)
    ensures TreeOk(s')
  {
    hide Merges, HiddenSplits, LeafOk, LivesApart;
    MergeDoes(s, s', t, x, r, m);
    forall y | y in s'.leaves ensures LeafOk(s', y) {
      MergeLeaf(s, s', t, x, r, m, y);
    }
    forall y, z ensures LivesApart(s', y, z) {
      MergeApart(s, s', t, x, r, m, y, z);
    }
    forall o | o in s'.slots ensures SlotOk(s', o) {
      assert SlotOk(s, o);
    }
    forall o, q ensures SlotsApart(s', o, q) {
      assert SlotsApart(s, o, q);
    }
  }

  lemma MergePending(s: State, s': State, t: Tid, k: int)
    requires OthersSame(s, s', t) && JobOf(s, t).Merging? && JobOf(s', t).Merged?
    ensures Unremoved(s', k) <==> Unremoved(s, k) || k == JobOf(s', t).mid
    ensures Uninserted(s', k) == Uninserted(s, k) && MergeUpOn(s', k) == MergeUpOn(s, k) && SplitUpOn(s', k) == SplitUpOn(s, k)
  {
    assert MergedAt(JobOf(s', t), JobOf(s', t).mid);
    if Unremoved(s, k) {
      var u :| MergedAt(JobOf(s, u), k);
      assert MergedAt(JobOf(s', u), k);
    }
    if Unremoved(s', k) {
      var u :| MergedAt(JobOf(s', u), k);
      assert u != t ==> MergedAt(JobOf(s, u), k);
    }
  }

  lemma MergeBound(s: State, s': State, t: Tid, x: Id, r: Id, m: int, k: int)
    requires TreeOk(s) && Merges(s, s', t, x, r, m)
    ensures IsSep(s', k) == IsSep(s, k) && (IsUp(s', k) <==> IsUp(s, k) && k != m)
    ensures Uninserted(s', k) == Uninserted(s, k) && (Unremoved(s', k) <==> Unremoved(s, k) || k == m)
    ensures MergeUpOn(s', k) == MergeUpOn(s, k) && SplitUpOn(s', k) == SplitUpOn(s, k)
  {
    hide Merges, TreeOk;
    MergeDoes(s, s', t, x, r, m);
    MergePending(s, s', t, k);
    if IsUp(s, k) && k != m {
      var y :| IsLive(s, y) && s.leaves[y].up == Some(k);
      var z := if y == r then x else y;
      assert IsLive(s', z) && s'.leaves[z].up == Some(k);
    }
    if IsUp(s', k) {
      var y :| IsLive(s', y) && s'.leaves[y].up == Some(k);
      var z := if y == x then r else y;
      assert IsLive(s, z) && s.leaves[z].up == Some(k);
      if k == m {
        OneWithUp(s, z, x, m);
      }
    }
  }

  /** No merge waits at a leaf that another thread has latched. */
  lemma NoneMerged(s: State, t: Tid, z: Id, k: int)
    requires LatchesOk(s) && z in s.leaves && s.leaves[z].latch == Some(t) && !JobOf(s, t).Merged?
    ensures !MergedInto(s, k, z)
  {
    hide LatchesOk;
    if MergedInto(s, k, z) {
      var u :| JobOf(s, u).Merged? && JobOf(s, u).mid == k && JobOf(s, u).leaf == z;
      MineIs(s, u);
    }
  }

  lemma MergeClear(s: State, s': State, t: Tid, x: Id, r: Id, m: int, z: Id, b: int)
    requires Inv(s) && Merges(s, s', t, x, r, m) && z in s.leaves && ClearedTo(s, z, b)
    ensures ClearedTo(s', if z == r then x else z, b)
  {
    hide Inv, Merges, IsSep, IsUp, Uninserted, Unremoved, MergeUpOn, SplitUpOn, MergedInto, TreeOk;
    MergeDoes(s, s', t, x, r, m);
    Parts(s);
    var z' := if z == r then x else z;
    forall k | IsSep(s', k) && Over(At(s', z').low, k) && k < b ensures MergeUpOn(s', k) || MergedInto(s', k, z') {
      MergeBound(s, s', t, x, r, m, k);
      if z != r {
        if MergedInto(s, k, z) {
          IntoSame(s, s', t, k, z);
        }
      } else {
        MergeAcross(s, s', t, x, r, m, b, k);
      }
    }
  }

  lemma MergeAcross(s: State, s': State, t: Tid, x: Id, r: Id, m: int, b: int, k: int)
    requires Inv(s) && Merges(s, s', t, x, r, m) && ClearedTo(s, r, b) && IsSep(s, k) && Over(At(s, x).low, k) && k < b
    ensures MergeUpOn(s, k) || MergedInto(s', k, x)
  {
    hide Inv, Merges, IsSep, IsUp, Uninserted, Unremoved, MergeUpOn, SplitUpOn, TreeOk, LatchesOk;
    MergeDoes(s, s', t, x, r, m);
    Parts(s);
    NoneMerged(s, t, x, k);
    NoneMerged(s, t, r, k);
    if k < m {
      InsideSep(s, x, k);
    } else if k == m {
      assert JobOf(s', t).Merged?;
    }
  }

  lemma MergeRest(s: State, s': State, t: Tid, x: Id, r: Id, m: int)
    requires Inv(s) && Merges(s, s', t, x, r, m)
    ensures UpsOk(s') && SepsOk(s') && SlotsClear(s') && LatchesOk(s') && MakersOk(s')
  {
    hide Inv, Merges, IsSep, IsUp, Uninserted, Unremoved, MergeUpOn, SplitUpOn, LeafLatches, NodeLatches, ClearedTo, TreeOk;
    MergeDoes(s, s', t, x, r, m);
    Parts(s);
    forall k ensures (IsUp(s', k) ==> IsSep(s', k) || Uninserted(s', k)) && (IsSep(s', k) ==> IsUp(s', k) || Unremoved(s', k)) {
      MergeBound(s, s', t, x, r, m, k);
    }
    forall o ensures SlotClear(s', o) {
      assert SlotClear(s, o);
      if o in s.slots && s.slots[o].lo.Some? {
        SlotFacts(s, o);
        MergeClear(s, s', t, x, r, m, At(s, o).into, s.slots[o].lo.value + 1);
      }
    }
    LeafLatched(s, s', t, r);
    NodeLatchesSame(s, s', t);
  }

  // ---------- the merger and the others ----------

  /** The high key of a leaf that is being merged is not about to be removed. */
  lemma MergerOk(s: State, s': State, t: Tid, x: Id, r: Id, m: int)
    requires Inv(s) && Merges(s, s', t, x, r, m)
    ensures JobOk(s', t)
  {
    hide Inv, Merges, IsSep, MergeUpOn, SplitUpOn, MergedInto, Uninserted, Unremoved, TreeOk;
    MergeDoes(s, s', t, x, r, m);
    Parts(s);
    MergeBound(s, s', t, x, r, m, m);
    assert IsUp(s, m);
    MergeUpHasSep(s, m);
    if IsSep(s, m) {
      UpNotRemoved(s, x, m);
    }
  }

  lemma MergeUpHasSep(s: State, m: int)
    requires Inv(s)
    ensures MergeUpOn(s, m) ==> IsSep(s, m)
  {
    hide Inv, IsUp, Uninserted;
    if MergeUpOn(s, m) {
      var u :| JobOf(s, u).MergeUp? && JobOf(s, u).mid == m;
      JobIs(s, u);
    }
  }

  /** A visit of another thread has neither leaf, unless it waits for it or reads it without a latch. */
  lemma NotTheirs(s: State, s': State, t: Tid, x: Id, r: Id, m: int, u: Tid)
    requires Inv(s) && Merges(s, s', t, x, r, m) && u != t && JobOf(s, u).Visit?
    ensures var j := JobOf(s, u); j.prev.Some? ==> j.prev.value != x && j.prev.value != r && j.prev.value in s.leaves
    ensures var j := JobOf(s, u); !j.free && !j.stage.Came? ==> j.leaf != x && j.leaf != r
  {
    hide Inv, Merges, JobOk;
    MergeDoes(s, s', t, x, r, m);
    JobIs(s, u);
  }

  lemma MergePlace(s: State, s': State, t: Tid, x: Id, r: Id, m: int, u: Tid)
    requires Inv(s) && Merges(s, s', t, x, r, m) && u != t && JobOf(s, u).Visit? && PlaceOk(s, JobOf(s, u))
    ensures PlaceOk(s', JobOf(s, u))
  {
    hide Inv, Merges, ClearedTo;
    MergeDoes(s, s', t, x, r, m);
    NotTheirs(s, s', t, x, r, m, u);
    Parts(s);
    var j := JobOf(s, u);
    LeafFacts(s, j.leaf);
    if Hits(s, j) {
      MergeClear(s, s', t, x, r, m, s.leaves[j.leaf].into, j.key);
    }
  }

  lemma MergeRead(s: State, s': State, t: Tid, x: Id, r: Id, m: int, u: Tid)
    requires Inv(s) && Merges(s, s', t, x, r, m) && u != t && JobOf(s, u).Visit? && ReadOk(s, JobOf(s, u))
    ensures ReadOk(s', JobOf(s, u))
  {
    hide Inv, Merges;
    MergeDoes(s, s', t, x, r, m);
    NotTheirs(s, s', t, x, r, m, u);
    JobIs(s, t);
    assert LeavesOf(JobOf(s, t)) == {x, r};
  }

  lemma MergeVisit(s: State, s': State, t: Tid, x: Id, r: Id, m: int, u: Tid)
    requires Inv(s) && Merges(s, s', t, x, r, m) && u != t && JobOf(s, u).Visit?
    ensures VisitOk(s', u, JobOf(s, u))
  {
    hide Inv, Merges, PlaceOk, ReadOk, OnwardOk;
    MergeDoes(s, s', t, x, r, m);
    JobIs(s, u);
    MergePlace(s, s', t, x, r, m, u);
    MergeRead(s, s', t, x, r, m, u);
    OnwardSame(s, s', t, JobOf(s, u));
  }

  /** Two splits under the same slot cannot both be on their way into it. */
  lemma MergeSplitUp(s: State, s': State, t: Tid, x: Id, r: Id, m: int, u: Tid)
    requires Inv(s) && Merges(s, s', t, x, r, m) && u != t && JobOf(s, u).SplitUp?
    ensures SplitUpOk(s', u, JobOf(s, u))
  {
    hide Inv, Merges, IsSep, IsUp, Uninserted, Unremoved, MergeUpOn, SplitUpOn, TreeOk;
    MergeDoes(s, s', t, x, r, m);
    JobIs(s, u);
    Parts(s);
    var j := JobOf(s, u);
    MergeBound(s, s', t, x, r, m, j.mid);
    SlotFacts(s, j.slot);
    if j.slot == x && s.leaves[r].up == Some(j.mid) {
      OtherSplit(s, t, x, m, u);
    }
    if !IsLive(s', j.right) {
      MergedStill(s, s', t, x, r, m, u);
    } else if j.mid == m {
      OneFrom(s, j.right, r, m);
    }
  }

  lemma OtherSplit(s: State, t: Tid, x: Id, m: int, u: Tid)
    requires Inv(s) && IsLive(s, x) && s.leaves[x].up == Some(m) && s.leaves[x].latch == Some(t) && JobOf(s, t).Merging?
    requires JobOf(s, u).SplitUp? && JobOf(s, u).slot == x && Strictly(s, x, m)
    ensures JobOf(s, u).mid == m
  {
    hide Inv, IsSep, IsUp, Uninserted, Unremoved, MergedInto, MergeUpOn, SplitUpOn, TreeOk, VisitOk;
    var f := SplitBehind(s, x, x, m);
    JobIs(s, f);
    JobIs(s, u);
    Parts(s);
    NodeLatchedBy(s, f, u, s.slots[x].home);
  }

  /** The right part of a split that has been merged away is under the latch of that merge. */
  lemma MergedStill(s: State, s': State, t: Tid, x: Id, r: Id, m: int, u: Tid)
    requires Inv(s) && Merges(s, s', t, x, r, m) && u != t && JobOf(s, u).SplitUp? && !IsLive(s', JobOf(s, u).right)
    ensures JobOf(s, u).right in s'.leaves && MergedInto(s', JobOf(s, u).mid, s'.leaves[JobOf(s, u).right].into)
  {
    hide Inv, Merges, IsSep, IsUp, Uninserted, Unremoved, MergeUpOn, SplitUpOn, TreeOk, LatchesOk;
    MergeDoes(s, s', t, x, r, m);
    JobIs(s, u);
    Parts(s);
    var j := JobOf(s, u);
    if j.right == r {
      assert JobOf(s', t).Merged? && JobOf(s', t).mid == j.mid && JobOf(s', t).leaf == x;
    } else {
      var z := s.leaves[j.right].into;
      NoneMerged(s, t, r, j.mid);
      IntoSame(s, s', t, j.mid, z);
    }
  }

  lemma MergeJob(s: State, s': State, t: Tid, x: Id, r: Id, m: int, u: Tid)
    requires Inv(s) && Merges(s, s', t, x, r, m) && u != t
    ensures JobOk(s', u)
  {
    hide Inv, Merges, IsSep, IsUp, Uninserted, Unremoved, MergedInto, MergeUpOn, SplitUpOn, VisitOk, SplitUpOk, TreeOk;
    MergeDoes(s, s', t, x, r, m);
    JobIs(s, u);
    Parts(s);
    var j := JobOf(s, u);
    match j
    case Visit(_, _, _, _, _, _, _, _, _, _) => MergeVisit(s, s', t, x, r, m, u);
    case Splitting(_, _, mid) => MergeBound(s, s', t, x, r, m, mid);
    case SplitUp(_, _, _, _, _, _) => MergeSplitUp(s, s', t, x, r, m, u);
    case Merged(_, mid) => MergeBound(s, s', t, x, r, m, mid);
    case MergeUp(_, _, mid, _, _, _) => MergeBound(s, s', t, x, r, m, mid);
    case _ =>
  }

  lemma KeepMerge(s: State, t: Tid)
    requires Inv(s) && Enabled(s, Merge(t))
    ensures Inv(Do(s, Merge(t)))
  {
    hide Inv, TreeOk, UpsOk, SepsOk, SlotsClear, LatchesOk, MakersOk, JobOk, Merges, HiddenSplits;
    var s', x, r := Do(s, Merge(t)), JobOf(s, t).leaf, JobOf(s, t).right;
    MergesIs(s, s', t);
    var m := At(s, x).up.value;
    Parts(s);
    HiddenAre(s);
    MergeTree(s, s', t, x, r, m);
    MergeRest(s, s', t, x, r, m);
    forall u ensures JobOk(s', u) {
      if u == t {
        MergerOk(s, s', t, x, r, m);
      } else {
        MergeJob(s, s', t, x, r, m, u);
      }
    }
    Whole(s');
  }
}
