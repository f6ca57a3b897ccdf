/** Latches and versions of the nodes above the leaves, and slots that change from one node to another. */
module SplitCountNodes {
  import opened Options
  import opened SplitCount
  import opened SplitCountInvariant
  import opened SplitCountSteps
  import opened SplitCountVisits

  /** A step that changes one node, its thread's job and nothing else. */
  lemma NodeKeeps(s: State, s': State, t: Tid, p: Pid)
    requires Inv(s) && p in s'.parents && s'.slots == s.slots && s'.leaves == s.leaves && s'.jobs == s.jobs[t := JobOf(s', t)]
    requires s'.parents == s.parents[p := s'.parents[p]] && (p in s.parents ==> NodeFrame(s.parents[p], s'.parents[p], t))
    requires NodeLatches(s') && LeavesOf(JobOf(s', t)) == LeavesOf(JobOf(s, t)) && Kind(JobOf(s', t)) == Kind(JobOf(s, t))
    requires SameClimb(JobOf(s, t), JobOf(s', t))
    requires JobOf(s, t).Up? ==> JobOf(s', t).Up? && JobOf(s', t).nodes >= JobOf(s, t).nodes
    requires !Working(JobOf(s, t)) && !Working(JobOf(s', t)) && JobOk(s', t)
    requires p in s.parents && s.parents[p].latch == Some(t) ==> s'.parents[p].latch == Some(t)
    ensures Inv(s')
  {
    hide JobOk, TreeOk, UpsOk, SepsOk, SlotsClear, LeafLatches, NodeLatches, MakersOk, LeavesOf, NodesOf, Inv, HiddenKept, HandingKept, Kind;
    Parts(s);
    OthersAre(s, s', t);
    LeafLatchesSame(s, s', t);
    QuietHidden(s);
    HiddenSame(s, s');
    NodeHanding(s, s', t, p);
    KeepShape(s, s', t);
  }

  lemma NodeHanding(s: State, s': State, t: Tid, p: Pid)
    requires OthersSame(s, s', t) && p in s'.parents && s'.parents == s.parents[p := s'.parents[p]]
    requires p in s.parents ==> NodeFrame(s.parents[p], s'.parents[p], t)
    requires p in s.parents && s.parents[p].latch == Some(t) ==> s'.parents[p].latch == Some(t)
    requires JobOf(s, t).Up? ==> JobOf(s', t).Up? && JobOf(s', t).nodes >= JobOf(s, t).nodes
    ensures HandingKept(s, s')
  {
  }

  lemma OthersAre(s: State, s': State, t: Tid)
    requires s'.jobs == s.jobs[t := JobOf(s', t)]
    ensures OthersSame(s, s', t)
  {
  }

  lemma NodeIn(j: Job)
    ensures j.SplitUp? || j.MergeUp? ==> j.node in NodesOf(j)
    ensures j.MergeUp? && j.other.Some? ==> j.other.value in NodesOf(j)
    ensures j.Up? || j.Inserted? ==> NodesOf(j) == j.nodes
    ensures j.Idle? ==> NodesOf(j) == {}
  {
  }

  /** Raising the version of a node that the thread has latched. */
  lemma RaiseKeeps(s: State, s': State, t: Tid, p: Pid)
    requires Inv(s) && p in s.parents && s.parents[p].latch == Some(t) && !s.parents[p].dirty
    requires s' == SetNode(s, p, Node(s, p).(version := Node(s, p).version + 1, dirty := true))
    requires !Working(JobOf(s, t)) && JobOk(s', t) && t in s.jobs
    ensures Inv(s')
  {
    hide JobOk, TreeOk, UpsOk, SepsOk, SlotsClear, LeafLatches, NodeLatches, MakersOk, LeavesOf, NodesOf, Inv, Kind;
    Parts(s);
    assert JobOf(s', t) == JobOf(s, t) && s'.jobs == s.jobs[t := JobOf(s', t)];
    NodeLatchesSame(s, s', t);
    NodeKeeps(s, s', t, p);
  }

  lemma KeepBump(s: State, t: Tid)
    requires Inv(s) && Enabled(s, Bump(t))
    ensures Inv(Do(s, Bump(t)))
  {
    hide Inv, JobOk;
    var s', j := Do(s, Bump(t)), JobOf(s, t);
    JobIs(s, t);
    NodeIn(j);
    BumpJob(s, s', t);
    RaiseKeeps(s, s', t, j.node);
  }

  lemma BumpJob(s: State, s': State, t: Tid)
    requires Inv(s) && Enabled(s, Bump(t)) && s' == Do(s, Bump(t))
    ensures JobOk(s', t)
  {
    hide Inv, IsSep, IsUp, Uninserted, Unremoved, MergedInto, MergeUpOn, SplitUpOn;
    JobIs(s, t);
    WorkerSame(s, s', t);
  }

  lemma KeepBumpTaken(s: State, t: Tid, p: Pid)
    requires Inv(s) && Enabled(s, BumpTaken(t, p))
    ensures Inv(Do(s, BumpTaken(t, p)))
  {
    hide Inv;
    JobIs(s, t);
    NodeIn(JobOf(s, t));
    RaiseKeeps(s, Do(s, BumpTaken(t, p)), t, p);
  }

  lemma KeepEndSplit(s: State, t: Tid)
    requires Inv(s) && Enabled(s, EndSplit(t))
    ensures Inv(Do(s, EndSplit(t)))
  {
    hide Inv, LeafLatches, NodeLatches, HiddenKept, HandingKept, Frame;
    var s' := Do(s, EndSplit(t));
    Parts(s);
    EndFrame(s, s', t);
    LeafLatchesSame(s, s', t);
    NodeLatchesSame(s, s', t);
    QuietHidden(s);
    HiddenSame(s, s');
    HandingSame(s, s', t);
    KeepShape(s, s', t);
  }

  lemma EndFrame(s: State, s': State, t: Tid)
    requires Enabled(s, EndSplit(t)) && s' == Do(s, EndSplit(t))
    ensures Frame(s, s', t) && OthersSame(s, s', t)
  {
  }

  lemma KeepLatchOther(s: State, t: Tid, p: Pid)
    requires Inv(s) && Enabled(s, LatchOther(t, p))
    ensures Inv(Do(s, LatchOther(t, p)))
  {
    hide Inv, LeafLatches, JobOk;
    var s' := Do(s, LatchOther(t, p));
    Parts(s);
    LatchOtherJob(s, s', t, p);
    NodeLatched(s, s', t, p);
    NodeKeeps(s, s', t, p);
  }

  lemma LatchOtherJob(s: State, s': State, t: Tid, p: Pid)
    requires Inv(s) && Enabled(s, LatchOther(t, p)) && s' == Do(s, LatchOther(t, p))
    ensures JobOk(s', t)
  {
    hide Inv, IsSep, IsUp, Uninserted, Unremoved, MergedInto, MergeUpOn, SplitUpOn;
    JobIs(s, t);
    WorkerSame(s, s', t);
  }

  lemma KeepTake(s: State, st: Step)
    requires Inv(s) && Enabled(s, st) && (st.Take? || st.NewNode?)
    ensures Inv(Do(s, st))
  {
    hide Inv, LeafLatches;
    var s' := Do(s, st);
    Parts(s);
    JobIs(s, st.t);
    NodeLatched(s, s', st.t, st.p);
    NodeKeeps(s, s', st.t, st.p);
  }

  // ---------- letting go of nodes ----------

  lemma KeepLeaveNodes(s: State, t: Tid)
    requires Inv(s) && Enabled(s, LeaveNodes(t))
    ensures Inv(Do(s, LeaveNodes(t)))
  {
    hide Inv, LeafLatches, NodeLatches, HiddenKept, HandingKept, Frame;
    var s' := Do(s, LeaveNodes(t));
    Parts(s);
    LeaveLatches(s, s', t);
    LeaveFrame(s, s', t);
    LeaveHanding(s, s', t);
    LeafLatchesSame(s, s', t);
    QuietHidden(s);
    HiddenSame(s, s');
    KeepShape(s, s', t);
  }

  lemma LeaveLatches(s: State, s': State, t: Tid)
    requires NodeLatches(s) && Enabled(s, LeaveNodes(t)) && s' == Do(s, LeaveNodes(t))
    ensures NodeLatches(s')
  {
    hide NodesOf;
    var j := JobOf(s, t);
    NodeIn(j);
    NodeIn(Idle);
    forall p, u | p in s'.parents && s'.parents[p].latch == Some(u) ensures p in NodesOf(JobOf(s', u)) {
      assert p !in j.nodes && s.parents[p].latch == Some(u);
      assert p in NodesOf(JobOf(s, u));
    }
    forall p, u | p in NodesOf(JobOf(s', u)) ensures p in s'.parents && s'.parents[p].latch == Some(u) {
      assert u != t && p in NodesOf(JobOf(s, u));
      assert s.parents[p].latch == Some(u) && p !in j.nodes;
    }
    forall p | p in s'.parents && s'.parents[p].latch.None? ensures !s'.parents[p].dirty {
      assert s.parents[p].latch.None? ==> !s.parents[p].dirty;
    }
  }

  lemma LeaveFrame(s: State, s': State, t: Tid)
    requires LatchesOk(s) && Enabled(s, LeaveNodes(t)) && s' == Do(s, LeaveNodes(t))
    ensures Frame(s, s', t) && OthersSame(s, s', t)
  {
    hide NodesOf, LeavesOf, LatchesOk;
    MineIs(s, t);
    NodeIn(JobOf(s, t));
    forall p | p in s.parents ensures p in s'.parents && NodeFrame(s.parents[p], s'.parents[p], t) {
      if p in JobOf(s, t).nodes {
        assert s.parents[p].latch == Some(t);
      }
    }
  }

  /** Whoever lets go of nodes has raised the version of all of them. */
  lemma LeaveHanding(s: State, s': State, t: Tid)
    requires LatchesOk(s) && Enabled(s, LeaveNodes(t)) && s' == Do(s, LeaveNodes(t))
    ensures HandingKept(s, s')
  {
    hide NodesOf, LeavesOf, LatchesOk;
    MineIs(s, t);
    NodeIn(JobOf(s, t));
    forall p, q | Handing(s, p, q) && Node(s', p).version == Node(s, p).version ensures Handing(s', p, q) {
      var u := s.parents[p].latch.value;
      assert p in JobOf(s, t).nodes ==> Node(s, p).dirty;
      assert u != t;
    }
  }

  // ---------- slots that change nodes ----------

  /** Slots keep their bounds; one slot of a node that the thread has latched goes to another of its nodes. */
  ghost predicate Regroups(s: State, s': State, t: Tid, o: Id, p: Pid) {
    && o in s.slots && p in s.parents && s.slots[o].home in NodesOf(JobOf(s, t)) && p in NodesOf(JobOf(s, t))
    && (JobOf(s, t).Up? || (JobOf(s, t).Inserted? && Node(s, s.slots[o].home).dirty))
    && s' == s.(slots := s.slots[o := s.slots[o].(home := p)])
  }

  lemma RegroupSame(s: State, s': State, t: Tid, o: Id, p: Pid)
    requires Regroups(s, s', t, o, p)
    ensures s'.leaves == s.leaves && s'.parents == s.parents && s'.jobs == s.jobs && s'.slots.Keys == s.slots.Keys
    ensures forall u :: JobOf(s', u) == JobOf(s, u)
    ensures forall x :: At(s', x) == At(s, x)
    ensures forall q :: q in s.slots ==> s'.slots[q].lo == s.slots[q].lo && s'.slots[q].hi == s.slots[q].hi
    ensures forall q :: q in s.slots && q != o ==> s'.slots[q] == s.slots[q]
  {
  }

  lemma RegroupBounds(s: State, s': State, t: Tid, o: Id, p: Pid, m: int)
    requires Regroups(s, s', t, o, p)
    ensures IsSep(s', m) == IsSep(s, m) && IsUp(s', m) == IsUp(s, m) && Uninserted(s', m) == Uninserted(s, m)
    ensures Unremoved(s', m) == Unremoved(s, m) && MergeUpOn(s', m) == MergeUpOn(s, m) && SplitUpOn(s', m) == SplitUpOn(s, m)
  {
    hide Regroups;
    RegroupSame(s, s', t, o, p);
    if IsSep(s, m) {
      var q :| q in s.slots && s.slots[q].hi == Some(m);
      assert q in s'.slots && s'.slots[q].hi == Some(m);
    }
    if IsSep(s', m) {
      var q :| q in s'.slots && s'.slots[q].hi == Some(m);
      assert q in s.slots && s.slots[q].hi == Some(m);
    }
    forall x ensures IsLive(s', x) == IsLive(s, x) {
    }
  }

  lemma RegroupInto(s: State, s': State, t: Tid, o: Id, p: Pid, m: int, z: Id)
    requires Regroups(s, s', t, o, p) && MergedInto(s, m, z)
    ensures MergedInto(s', m, z)
  {
    var u :| JobOf(s, u).Merged? && JobOf(s, u).mid == m && JobOf(s, u).leaf == z;
    assert JobOf(s', u) == JobOf(s, u);
  }

  lemma RegroupClear(s: State, s': State, t: Tid, o: Id, p: Pid, z: Id, b: int)
    requires Regroups(s, s', t, o, p) && ClearedTo(s, z, b)
    ensures ClearedTo(s', z, b)
  {
    hide Regroups, IsSep, IsUp, Uninserted, Unremoved, MergeUpOn, SplitUpOn, MergedInto;
    RegroupSame(s, s', t, o, p);
    forall m | IsSep(s', m) && Over(At(s', z).low, m) && m < b ensures MergeUpOn(s', m) || MergedInto(s', m, z) {
      RegroupBounds(s, s', t, o, p, m);
      if MergedInto(s, m, z) {
        RegroupInto(s, s', t, o, p, m, z);
      }
    }
  }

  lemma RegroupTree(s: State, s': State, t: Tid, o: Id, p: Pid)
    requires TreeOk(s) && Regroups(s, s', t, o, p)
    ensures TreeOk(s')
  {
    hide NodesOf;
    forall x | x in s'.leaves ensures LeafOk(s', x) {
      assert LeafOk(s, x);
    }
    forall x, y ensures LivesApart(s', x, y) {
      assert LivesApart(s, x, y);
    }
    forall q | q in s'.slots ensures SlotOk(s', q) {
      assert SlotOk(s, q);
    }
    forall q, r ensures SlotsApart(s', q, r) {
      assert SlotsApart(s, q, r);
    }
  }

  lemma RegroupParent(s: State, s': State, t: Tid, o: Id, p: Pid, j: Job)
    requires LatchesOk(s) && Regroups(s, s', t, o, p) && j.Visit? && ParentOk(s, j)
    ensures ParentOk(s', j)
  {
    hide LatchesOk, NodesOf;
    MineIs(s, t);
    NodeIn(JobOf(s, t));
    if Hits(s, j) && j.from == o {
      var h := s.slots[o].home;
      assert s.parents[h].latch == Some(t);
      if h != j.parent {
        var u := s.parents[j.parent].latch.value;
        MineIs(s, u);
        NodeIn(JobOf(s, u));
        assert u == t;
      }
      assert Handing(s', j.parent, p);
    }
  }

  lemma RegroupVisit(s: State, s': State, t: Tid, o: Id, p: Pid, u: Tid)
    requires LatchesOk(s) && Regroups(s, s', t, o, p) && JobOf(s, u).Visit? && VisitOk(s, u, JobOf(s, u))
    ensures VisitOk(s', u, JobOf(s, u))
  {
    hide LatchesOk, Regroups, ClearedTo, ParentOk, OnwardOk;
    var j := JobOf(s, u);
    RegroupSame(s, s', t, o, p);
    RegroupParent(s, s', t, o, p, j);
    OnwardSame(s, s', t, j);
    if Hits(s, j) {
      RegroupClear(s, s', t, o, p, s.leaves[j.leaf].into, j.key);
    }
  }

  /** A node that a split or merge has latched keeps its slots. */
  lemma RegroupMine(s: State, s': State, t: Tid, o: Id, p: Pid, u: Tid, q: Id)
    requires LatchesOk(s) && Regroups(s, s', t, o, p) && (JobOf(s, u).SplitUp? || JobOf(s, u).MergeUp?)
    requires q in s.slots && s.slots[q].home == JobOf(s, u).node
    ensures q in s'.slots && s'.slots[q] == s.slots[q]
  {
    hide LatchesOk, NodesOf;
    NodeIn(JobOf(s, u));
    MineIs(s, u);
    MineIs(s, t);
  }

  lemma RegroupJob(s: State, s': State, t: Tid, o: Id, p: Pid, u: Tid)
    requires LatchesOk(s) && Regroups(s, s', t, o, p) && JobOk(s, u)
    ensures JobOk(s', u)
  {
    hide IsSep, IsUp, Uninserted, Unremoved, MergedInto, MergeUpOn, SplitUpOn, LatchesOk, Regroups, VisitOk;
    var j := JobOf(s, u);
    RegroupSame(s, s', t, o, p);
    match j
    case Visit(_, _, _, _, _, _, _, _, _, _) => RegroupVisit(s, s', t, o, p, u);
    case Splitting(_, _, mid) => RegroupBounds(s, s', t, o, p, mid);
    case SplitUp(_, _, right, mid, _, slot) =>
      RegroupBounds(s, s', t, o, p, mid);
      RegroupMine(s, s', t, o, p, u, slot);
      if !IsLive(s, right) { RegroupInto(s, s', t, o, p, mid, s.leaves[right].into); }
    case Merged(_, mid) => RegroupBounds(s, s', t, o, p, mid);
    case MergeUp(_, _, mid, _, _, slot) =>
      RegroupBounds(s, s', t, o, p, mid);
      RegroupMine(s, s', t, o, p, u, slot);
    case _ =>
  }

  lemma RegroupRest(s: State, s': State, t: Tid, o: Id, p: Pid)
    requires UpsOk(s) && SepsOk(s) && SlotsClear(s) && LatchesOk(s) && MakersOk(s) && Regroups(s, s', t, o, p)
    ensures UpsOk(s') && SepsOk(s') && SlotsClear(s') && LatchesOk(s') && MakersOk(s')
  {
    hide IsSep, IsUp, Uninserted, Unremoved, MergeUpOn, SplitUpOn, LeafLatches, NodeLatches, NodesOf, LeavesOf, ClearedTo, Regroups;
    RegroupSame(s, s', t, o, p);
    forall m ensures (IsUp(s', m) ==> IsSep(s', m) || Uninserted(s', m)) && (IsSep(s', m) ==> IsUp(s', m) || Unremoved(s', m)) {
      RegroupBounds(s, s', t, o, p, m);
    }
    forall q ensures SlotClear(s', q) {
      assert SlotClear(s, q);
      if q in s.slots && s.slots[q].lo.Some? {
        RegroupClear(s, s', t, o, p, At(s, q).into, s.slots[q].lo.value + 1);
      }
    }
    LeafLatchesSame(s, s', t);
    NodeLatchesSame(s, s', t);
  }

  lemma RegroupsIs(s: State, s': State, t: Tid, o: Id, p: Pid)
    requires Inv(s) && Enabled(s, Regroup(t, o, p)) && s' == Do(s, Regroup(t, o, p))
    ensures Regroups(s, s', t, o, p)
  {
    hide Inv;
    JobIs(s, t);
  }

  lemma KeepRegroup(s: State, t: Tid, o: Id, p: Pid)
    requires Inv(s) && Enabled(s, Regroup(t, o, p))
    ensures Inv(Do(s, Regroup(t, o, p)))
  {
    hide Inv, TreeOk, UpsOk, SepsOk, SlotsClear, LatchesOk, MakersOk, JobOk, Regroups;
    var s' := Do(s, Regroup(t, o, p));
    Parts(s);
    RegroupsIs(s, s', t, o, p);
    RegroupTree(s, s', t, o, p);
    RegroupRest(s, s', t, o, p);
    forall u ensures JobOk(s', u) {
      JobIs(s, u);
      RegroupJob(s, s', t, o, p, u);
    }
    Whole(s');
  }
}
