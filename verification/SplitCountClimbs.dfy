/** A split or merge of a leaf that latches the node above it keeps the invariant of the split-count protocol. */
module SplitCountClimbs {
  import opened Options
  import opened SplitCount
  import opened SplitCountInvariant
  import opened SplitCountSteps
  import opened SplitCountVisits
  import opened SplitCountNodes

  /** Thread t, done with its leaf, has found the slot o of its bound and latches its node. */
  ghost predicate Climbs(s: State, s': State, t: Tid, o: Id) {
    && Enabled(s, LatchNode(t, o)) && s' == DoLatchNode(s, t, o) && (JobOf(s, t).Splitting? ==> JobOf(s, t).right in s.leaves)
  }

  function Climbed(j: Job, p: Pid, o: Id): Job
    requires j.Splitting? || j.Merged?
  {
    if j.Merged? then MergeUp(j.leaf, true, j.mid, p, None, o) else SplitUp(j.leaf, true, j.right, j.mid, p, o)
  }

  lemma ClimbDoes(s: State, s': State, t: Tid, o: Id)
    requires Climbs(s, s', t, o)
    ensures o in s.slots && InSlot(s, o, JobOf(s, t).mid) && Ready(s, s.slots[o].home) && Working(JobOf(s, t))
    ensures s'.slots == s.slots && s'.leaves.Keys == s.leaves.Keys && OthersSame(s, s', t)
    ensures JobOf(s', t) == Climbed(JobOf(s, t), s.slots[o].home, o)
    ensures s'.parents == s.parents[s.slots[o].home := s.parents[s.slots[o].home].(latch := Some(t), dirty := false)]
    ensures forall x :: x in s.leaves ==> s'.leaves[x] == s.leaves[x].(hidden := s'.leaves[x].hidden) && (s'.leaves[x].hidden ==> s.leaves[x].hidden)
    ensures forall x :: x in s.leaves && !(JobOf(s, t).Splitting? && x == JobOf(s, t).right) ==> s'.leaves[x] == s.leaves[x]
    ensures JobOf(s, t).Splitting? ==> JobOf(s, t).right in s.leaves && !s'.leaves[JobOf(s, t).right].hidden
  {
  }

  lemma ClimbPending(s: State, s': State, t: Tid, o: Id, k: int)
    requires Climbs(s, s', t, o)
    ensures Uninserted(s', k) == Uninserted(s, k) && Unremoved(s', k) == Unremoved(s, k)
    ensures SplitUpOn(s', k) <==> SplitUpOn(s, k) || (JobOf(s, t).Splitting? && k == JobOf(s, t).mid)
    ensures MergeUpOn(s', k) <==> MergeUpOn(s, k) || (JobOf(s, t).Merged? && k == JobOf(s, t).mid)
  {
    hide Climbs;
    ClimbDoes(s, s', t, o);
    forall u ensures (SplitAt(JobOf(s', u), k) <==> SplitAt(JobOf(s, u), k)) && (MergedAt(JobOf(s', u), k) <==> MergedAt(JobOf(s, u), k)) {
    }
    ClimbOn(s, s', t, s.slots[o].home, o);
  }

  lemma ClimbOn(s: State, s': State, t: Tid, p: Pid, o: Id)
    requires OthersSame(s, s', t) && Working(JobOf(s, t)) && JobOf(s', t) == Climbed(JobOf(s, t), p, o)
    ensures forall k :: SplitUpOn(s', k) <==> SplitUpOn(s, k) || (JobOf(s, t).Splitting? && k == JobOf(s, t).mid)
    ensures forall k :: MergeUpOn(s', k) <==> MergeUpOn(s, k) || (JobOf(s, t).Merged? && k == JobOf(s, t).mid)
  {
    forall k ensures SplitUpOn(s', k) <==> SplitUpOn(s, k) || (JobOf(s, t).Splitting? && k == JobOf(s, t).mid) {
      if SplitUpOn(s, k) {
        var u :| JobOf(s, u).SplitUp? && JobOf(s, u).mid == k;
        assert JobOf(s', u).SplitUp?;
      }
    }
    forall k ensures MergeUpOn(s', k) <==> MergeUpOn(s, k) || (JobOf(s, t).Merged? && k == JobOf(s, t).mid) {
      if MergeUpOn(s, k) {
        var u :| JobOf(s, u).MergeUp? && JobOf(s, u).mid == k;
        assert JobOf(s', u).MergeUp?;
      }
    }
  }

  lemma ClimbInto(s: State, s': State, t: Tid, o: Id, k: int, z: Id)
    requires Climbs(s, s', t, o) && MergedInto(s, k, z)
    ensures MergedInto(s', k, z) || (JobOf(s, t).Merged? && JobOf(s, t).mid == k && MergeUpOn(s', k))
  {
    hide Climbs;
    ClimbDoes(s, s', t, o);
    var u :| JobOf(s, u).Merged? && JobOf(s, u).mid == k && JobOf(s, u).leaf == z;
    if u != t {
      assert JobOf(s', u) == JobOf(s, u);
    } else {
      assert JobOf(s', t).MergeUp?;
    }
  }

  lemma ClimbBounds(s: State, s': State, t: Tid, o: Id, k: int)
    requires Climbs(s, s', t, o)
    ensures IsSep(s', k) == IsSep(s, k) && IsUp(s', k) == IsUp(s, k)
  {
    hide Climbs, IsSep, IsUp;
    ClimbDoes(s, s', t, o);
    BoundsSame(s, s', k);
  }

  lemma ClimbClear(s: State, s': State, t: Tid, o: Id, z: Id, b: int)
    requires Climbs(s, s', t, o) && z in s.leaves && ClearedTo(s, z, b)
    ensures ClearedTo(s', z, b)
  {
    hide Climbs, IsSep, IsUp, Uninserted, Unremoved, MergeUpOn, SplitUpOn, MergedInto;
    ClimbDoes(s, s', t, o);
    forall k | IsSep(s', k) && Over(At(s', z).low, k) && k < b ensures MergeUpOn(s', k) || MergedInto(s', k, z) {
      ClimbBounds(s, s', t, o, k);
      ClimbPending(s, s', t, o, k);
      if MergedInto(s, k, z) {
        ClimbInto(s, s', t, o, k, z);
      }
    }
  }

  lemma ClimbTree(s: State, s': State, t: Tid, o: Id)
    requires TreeOk(s) && Climbs(s, s', t, o)
    ensures TreeOk(s')
  {
    hide Climbs;
    ClimbDoes(s, s', t, o);
    forall x | x in s'.leaves ensures LeafOk(s', x) {
      assert LeafOk(s, x);
    }
    forall x, y ensures LivesApart(s', x, y) {
      assert LivesApart(s, x, y);
    }
    forall q | q in s'.slots ensures SlotOk(s', q) {
      assert SlotOk(s, q);
    }
    forall q, r ensures SlotsApart(s', q, r) {
      assert SlotsApart(s, q, r);
    }
  }

  lemma ClimbRest(s: State, s': State, t: Tid, o: Id)
    requires TreeOk(s) && UpsOk(s) && SepsOk(s) && SlotsClear(s) && LatchesOk(s) && MakersOk(s) && Climbs(s, s', t, o)
    ensures UpsOk(s') && SepsOk(s') && SlotsClear(s') && LatchesOk(s') && MakersOk(s')
  {
    hide Climbs, IsSep, IsUp, Uninserted, Unremoved, MergeUpOn, SplitUpOn, LeafLatches, NodeLatches, ClearedTo, TreeOk;
    ClimbDoes(s, s', t, o);
    forall k ensures (IsUp(s', k) ==> IsSep(s', k) || Uninserted(s', k)) && (IsSep(s', k) ==> IsUp(s', k) || Unremoved(s', k)) {
      ClimbBounds(s, s', t, o, k);
      ClimbPending(s, s', t, o, k);
    }
    forall q ensures SlotClear(s', q) {
      assert SlotClear(s, q);
      if q in s.slots && s.slots[q].lo.Some? {
        SlotFacts(s, q);
        ClimbClear(s, s', t, o, At(s, q).into, s.slots[q].lo.value + 1);
      }
    }
    LeafLatchesSame(s, s', t);
    NodeLatched(s, s', t, s.slots[o].home);
  }

  lemma ClimbFrame(s: State, s': State, t: Tid, o: Id)
    requires Climbs(s, s', t, o)
    ensures Frame(s, s', t) && HandingKept(s, s')
  {
    hide Climbs;
    ClimbDoes(s, s', t, o);
  }

  // ---------- the thread that climbs ----------

  /** A merge finds its bound between two slots: a split at that bound still under way would have the node. */
  lemma MergeSlot(s: State, t: Tid, o: Id)
    requires Inv(s) && Enabled(s, LatchNode(t, o)) && JobOf(s, t).Merged?
    ensures s.slots[o].hi == Some(JobOf(s, t).mid) && IsSep(s, JobOf(s, t).mid) && !IsUp(s, JobOf(s, t).mid)
  {
    hide Inv, TreeOk, IsSep, IsUp, VisitOk, MergeUpOn, MergedInto, SplitUpOn;
    JobIs(s, t);
    Parts(s);
    var m := JobOf(s, t).mid;
    NotUp(s, JobOf(s, t).leaf, m);
    if !IsSep(s, m) {
      var f :| SplitAt(JobOf(s, f), m);
      JobIs(s, f);
      if JobOf(s, f).Splitting? {
        LeafFacts(s, JobOf(s, f).leaf);
        OneAround(s, JobOf(s, t).leaf, JobOf(s, f).leaf, m);
      } else {
        OneSlot(s, o, JobOf(s, f).slot, m);
        NodeIn(JobOf(s, f));
      }
    } else {
      var q := SepSlot(s, m);
      OneSlot(s, o, q, m);
    }
  }

  /** A split finds its bound strictly inside a slot: a merge that has yet to remove it would have the node. */
  lemma SplitSlot(s: State, t: Tid, o: Id)
    requires Inv(s) && Enabled(s, LatchNode(t, o)) && JobOf(s, t).Splitting?
    ensures Strictly(s, o, JobOf(s, t).mid)
  {
    hide Inv, TreeOk, IsUp, VisitOk, SplitUpOn, Uninserted;
    JobIs(s, t);
    Parts(s);
    var m := JobOf(s, t).mid;
    if s.slots[o].hi == Some(m) {
      assert IsSep(s, m);
      var u :| JobOf(s, u).MergeUp? && JobOf(s, u).mid == m;
      JobIs(s, u);
      NodeIn(JobOf(s, u));
      SlotFacts(s, JobOf(s, u).slot);
      OneSlot(s, o, JobOf(s, u).slot, m);
    }
  }

  lemma ClimberOk(s: State, s': State, t: Tid, o: Id)
    requires Inv(s) && Climbs(s, s', t, o)
    ensures JobOk(s', t)
  {
    hide Inv, IsSep, Uninserted, Unremoved, MergeUpOn, SplitUpOn, MergedInto, TreeOk;
    ClimbDoes(s, s', t, o);
    JobIs(s, t);
    Parts(s);
    var j := JobOf(s, t);
    ClimbBounds(s, s', t, o, j.mid);
    ClimbPending(s, s', t, o, j.mid);
    if j.Merged? {
      MergeSlot(s, t, o);
    } else {
      SplitSlot(s, t, o);
      assert IsUp(s, j.mid);
      if IsLive(s, o) && s.leaves[o].up == Some(j.mid) {
        OneWithUp(s, o, j.leaf, j.mid);
      }
    }
  }

  // ---------- the others ----------

  lemma ClimbVisit(s: State, s': State, t: Tid, o: Id, u: Tid)
    requires Inv(s) && Climbs(s, s', t, o) && u != t && JobOf(s, u).Visit?
    ensures VisitOk(s', u, JobOf(s, u))
  {
    hide Inv, Climbs, ClearedTo, ParentOk, Frame, HandingKept, OnwardOk;
    ClimbDoes(s, s', t, o);
    ClimbFrame(s, s', t, o);
    JobIs(s, u);
    Parts(s);
    var j := JobOf(s, u);
    LeafFacts(s, j.leaf);
    ParentFrame(s, s', t, j);
    OnwardSame(s, s', t, j);
    if Hits(s, j) {
      ClimbClear(s, s', t, o, s.leaves[j.leaf].into, j.key);
    }
  }

  lemma ClimbSplitting(s: State, s': State, t: Tid, o: Id, u: Tid)
    requires Inv(s) && Climbs(s, s', t, o) && u != t && JobOf(s, u).Splitting?
    ensures SplitOk(s', u, JobOf(s, u))
  {
    hide Inv, Climbs, IsSep, IsUp, Uninserted, Unremoved, MergeUpOn, SplitUpOn, MergedInto, TreeOk;
    ClimbDoes(s, s', t, o);
    JobIs(s, u);
    JobIs(s, t);
    Parts(s);
    var j := JobOf(s, u);
    ClimbBounds(s, s', t, o, j.mid);
    ClimbPending(s, s', t, o, j.mid);
    if JobOf(s, t).Splitting? && JobOf(s, t).mid == j.mid {
      OneWithUp(s, JobOf(s, t).leaf, j.leaf, j.mid);
    }
  }

  lemma ClimbSplitUp(s: State, s': State, t: Tid, o: Id, u: Tid)
    requires Inv(s) && Climbs(s, s', t, o) && u != t && JobOf(s, u).SplitUp?
    ensures SplitUpOk(s', u, JobOf(s, u))
  {
    hide Inv, Climbs, IsSep, IsUp, Uninserted, Unremoved, MergeUpOn, SplitUpOn, MergedInto, TreeOk;
    ClimbDoes(s, s', t, o);
    JobIs(s, u);
    Parts(s);
    var j := JobOf(s, u);
    ClimbBounds(s, s', t, o, j.mid);
    NotSep(s, j.slot, j.mid);
    if !IsLive(s, j.right) {
      ClimbInto(s, s', t, o, j.mid, s.leaves[j.right].into);
      if JobOf(s, t).Merged? && JobOf(s, t).mid == j.mid {
        MergeSlot(s, t, o);
      }
    }
  }

  lemma ClimbMerged(s: State, s': State, t: Tid, o: Id, u: Tid)
    requires Inv(s) && Climbs(s, s', t, o) && u != t && JobOf(s, u).Merged?
    ensures JobOk(s', u)
  {
    hide Inv, Climbs, IsSep, IsUp, Uninserted, Unremoved, MergeUpOn, SplitUpOn, MergedInto, TreeOk;
    ClimbDoes(s, s', t, o);
    JobIs(s, u);
    JobIs(s, t);
    Parts(s);
    var j := JobOf(s, u);
    ClimbBounds(s, s', t, o, j.mid);
    ClimbPending(s, s', t, o, j.mid);
    if JobOf(s, t).Merged? && JobOf(s, t).mid == j.mid {
      OneAround(s, JobOf(s, t).leaf, j.leaf, j.mid);
    }
  }

  lemma ClimbJob(s: State, s': State, t: Tid, o: Id, u: Tid)
    requires Inv(s) && Climbs(s, s', t, o) && u != t
    ensures JobOk(s', u)
  {
    hide Inv, Climbs, IsSep, IsUp, Uninserted, Unremoved, MergedInto, MergeUpOn, SplitUpOn, VisitOk, SplitUpOk, SplitOk, LatchesOk, Frame;
    ClimbDoes(s, s', t, o);
    JobIs(s, u);
    Parts(s);
    var j := JobOf(s, u);
    match j
    case Visit(_, _, _, _, _, _, _, _, _, _) => ClimbVisit(s, s', t, o, u);
    case Splitting(_, _, _) => ClimbSplitting(s, s', t, o, u);
    case SplitUp(_, _, _, _, _, _) => ClimbSplitUp(s, s', t, o, u);
    case Merged(_, _) => ClimbMerged(s, s', t, o, u);
    case MergeUp(_, _, mid, _, other, _) =>
      ClimbBounds(s, s', t, o, mid);
      ClimbPending(s, s', t, o, mid);
      NodeIn(j);
    case Inserted(_, _) => NodeIn(j);
    case _ =>
  }

  lemma KeepLatchNode(s: State, t: Tid, o: Id)
    requires Inv(s) && Enabled(s, LatchNode(t, o))
    ensures Inv(Do(s, LatchNode(t, o)))
  {
    hide Inv, TreeOk, UpsOk, SepsOk, SlotsClear, LatchesOk, MakersOk, JobOk, Climbs;
    var s' := Do(s, LatchNode(t, o));
    ClimbsIs(s, s', t, o);
    Parts(s);
    ClimbTree(s, s', t, o);
    ClimbRest(s, s', t, o);
    forall u ensures JobOk(s', u) {
      if u == t {
        ClimberOk(s, s', t, o);
      } else {
        ClimbJob(s, s', t, o, u);
      }
    }
    Whole(s');
  }

  lemma ClimbsIs(s: State, s': State, t: Tid, o: Id)
    requires Inv(s) && Enabled(s, LatchNode(t, o)) && s' == Do(s, LatchNode(t, o))
    ensures Climbs(s, s', t, o)
  {
    hide Inv, IsSep, MergeUpOn, SplitUpOn;
    JobIs(s, t);
  }
}
