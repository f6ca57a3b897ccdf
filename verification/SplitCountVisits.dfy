/** Visits to leaves: when the skipped comparison is right, and that the steps of a visit keep the invariant. */
module SplitCountVisits {
  import opened Options
  import opened SplitCount
  import opened SplitCountInvariant
  import opened SplitCountSteps

  // ---------- the heart of the matter ----------

  /** A high key strictly inside a slot of the parents has been put there by a split that is not inserted. */
  lemma SplitBehind(s: State, x: Id, o: Id, u: int) returns (f: Tid)
    requires Inv(s) && IsLive(s, x) && s.leaves[x].up == Some(u) && Strictly(s, o, u)
    ensures SplitAt(JobOf(s, f), u) && JobOk(s, f)
    ensures JobOf(s, f).Splitting? ==> JobOf(s, f).leaf == x
    ensures JobOf(s, f).SplitUp? ==> JobOf(s, f).slot == o && JobOf(s, f).node == s.slots[o].home
  {
    hide Inv, TreeOk, VisitOk;
    Parts(s);
    NotSep(s, o, u);
    assert IsUp(s, u);
    f :| SplitAt(JobOf(s, f), u);
    JobIs(s, f);
    if JobOf(s, f).Splitting? {
      OneWithUp(s, x, JobOf(s, f).leaf, u);
    } else {
      OneSlot(s, o, JobOf(s, f).slot, u);
    }
  }

  /** A split of another leaf, whose bound is the high key of this one, is yet to be inserted. */
  ghost predicate Foreign(s: State, x: Id) {
    exists f :: ForeignBy(s, x, f)
  }

  predicate ForeignBy(s: State, x: Id, f: Tid) {
    JobOf(s, f).SplitUp? && JobOf(s, f).leaf != x && At(s, x).up == Some(JobOf(s, f).mid)
  }

  lemma NotSplitting(s: State, x: Id, f: Tid)
    requires LatchesOk(s) && JobOf(s, f).Splitting? && JobOf(s, f).leaf == x
    ensures !Calm(s, x)
  {
    hide LatchesOk;
    MineIs(s, f);
    assert x in LeavesOf(JobOf(s, f));
  }

  /** A high key that is both a leaf's and a separator, and about to be removed, is about to be inserted under the leaf's latch. */
  lemma UpNotRemoved(s: State, x: Id, m: int)
    requires Inv(s) && IsLive(s, x) && s.leaves[x].up == Some(m) && Calm(s, x) && IsSep(s, m)
    ensures !MergeUpOn(s, m)
  {
    hide Inv, TreeOk, VisitOk, IsSep;
    if MergeUpOn(s, m) {
      var u :| JobOf(s, u).MergeUp? && JobOf(s, u).mid == m;
      JobIs(s, u);
      assert IsUp(s, m);
      var f :| SplitAt(JobOf(s, f), m);
      JobIs(s, f);
      Parts(s);
      if JobOf(s, f).Splitting? {
        OneWithUp(s, x, JobOf(s, f).leaf, m);
        NotSplitting(s, x, f);
      } else {
        NotSep(s, JobOf(s, f).slot, m);
      }
    }
  }

  lemma NotMergedAt(s: State, x: Id, m: int)
    requires Inv(s) && IsLive(s, x) && s.leaves[x].up == Some(m)
    ensures !MergedInto(s, m, x)
  {
    hide Inv, TreeOk, VisitOk, IsSep;
    if MergedInto(s, m, x) {
      var u :| JobOf(s, u).Merged? && JobOf(s, u).mid == m && JobOf(s, u).leaf == x;
      JobIs(s, u);
    }
  }

  /** A visit whose leaf is unchanged, with no split counted, and whose parent is unchanged, now that it skips the comparison. */
  ghost predicate Skips(s: State, t: Tid) {
    Visits(s, t, Zero) && Fresh(s, JobOf(s, t)) && Hits(s, JobOf(s, t))
  }

  lemma SkipFacts(s: State, t: Tid)
    requires Inv(s) && Skips(s, t)
    ensures var j := JobOf(s, t); var x := j.leaf;
      && IsLive(s, x) && Calm(s, x) && s.leaves[x].splits == {} && s.leaves[x].into == x
      && ClearedTo(s, x, j.key) && LeafOk(s, x)
  {
    hide Inv, ClearedTo, LeafOk;
    JobIs(s, t);
    Parts(s);
    LeafFacts(s, JobOf(s, t).leaf);
    IntoIs(s, JobOf(s, t).leaf);
  }

  lemma IntoIs(s: State, x: Id)
    requires LeafOk(s, x) && IsLive(s, x)
    ensures s.leaves[x].into == x && Wide(s.leaves[x].low, s.leaves[x].up)
  {
  }

  lemma LeafFacts(s: State, x: Id)
    requires TreeOk(s) && x in s.leaves
    ensures LeafOk(s, x)
  {
  }

  /** If the key is beyond the high key, the high key is the bound of a split of another leaf. */
  lemma WrongIsForeign(s: State, t: Tid)
    requires Inv(s) && Skips(s, t) && Beyond(s.leaves[JobOf(s, t).leaf], JobOf(s, t).key)
    ensures Foreign(s, JobOf(s, t).leaf)
  {
    hide Inv, TreeOk, VisitOk, IsSep, MergeUpOn, MergedInto, LeafOk;
    SkipFacts(s, t);
    Parts(s);
    var x := JobOf(s, t).leaf;
    IntoIs(s, x);
    var m := s.leaves[x].up.value;
    assert IsUp(s, m) && Over(s.leaves[x].low, m) && m < JobOf(s, t).key;
    NotMergedAt(s, x, m);
    if IsSep(s, m) {
      UpNotRemoved(s, x, m);
    }
    var f :| SplitAt(JobOf(s, f), m);
    JobIs(s, f);
    if JobOf(s, f).Splitting? {
      OneWithUp(s, x, JobOf(s, f).leaf, m);
      NotSplitting(s, x, f);
    }
    assert ForeignBy(s, x, f);
  }

  /** At a leaf that the parent gave, the high key is never the bound of a split of another leaf. */
  lemma FirstNotForeign(s: State, t: Tid, f: Tid)
    requires Inv(s) && Skips(s, t) && JobOf(s, t).mode.First? && ForeignBy(s, JobOf(s, t).leaf, f)
    ensures !Beyond(s.leaves[JobOf(s, t).leaf], JobOf(s, t).key)
  {
    hide Inv, IsSep, MergeUpOn, MergedInto, LeafOk, ClearedTo, TreeOk;
    SkipFacts(s, t);
    JobIs(s, t);
    JobIs(s, f);
    Parts(s);
    var x := JobOf(s, t).leaf;
    IntoIs(s, x);
    SlotFacts(s, x);
    if Beyond(s.leaves[x], JobOf(s, t).key) {
      OneSlot(s, x, JobOf(s, f).slot, JobOf(s, f).mid);
    }
  }

  lemma SlotFacts(s: State, o: Id)
    requires TreeOk(s) && LatchesOk(s) && o in s.slots
    ensures o in s.leaves && !s.leaves[o].hidden && s.leaves[o].low == s.slots[o].lo && s.slots[o].home in s.parents
    ensures s.leaves[o].maker.None? && LeafOk(s, o) && SlotOk(s, o)
    ensures Ready(s, s.slots[o].home) ==> !s.parents[s.slots[o].home].dirty
  {
    hide LeavesOf, NodesOf;
    assert SlotOk(s, o) && LeafOk(s, o);
  }

  /** The leaf to the right of one that is being split has a high key no lower than the key, while the parent is unchanged. */
  lemma RightIsRight(s: State, t: Tid)
    requires Inv(s) && Enabled(s, Latch(t)) && JobOf(s, t).mode.Rightward? && Hits(s, JobOf(s, t))
    ensures UpTo(At(s, JobOf(s, t).leaf).up, JobOf(s, t).key) && IsLive(s, JobOf(s, t).leaf)
  {
    hide Inv, IsSep, IsUp, Uninserted, ClearedTo;
    var j := JobOf(s, t);
    JobIs(s, t);
    Parts(s);
    var p, x := j.prev.value, j.leaf;
    SlotFacts(s, p);
    LeafFacts(s, p);
    LeafFacts(s, x);
    if !UpTo(s.leaves[x].up, j.key) {
      TwoSplits(s, t, p, x, s.leaves[p].up.value, s.leaves[x].up.value);
    }
  }

  /** The right part of a split that is on its way into slot o has a high key no lower than any key of the slot. */
  lemma MadeIsRight(s: State, x: Id, o: Id, key: int)
    requires Inv(s) && IsLive(s, x) && Calm(s, x) && MadeFor(s, x, o) && InSlot(s, o, key)
    ensures UpTo(s.leaves[x].up, key)
  {
    hide Inv, TreeOk, VisitOk, IsSep, IsUp, MergedInto, Uninserted;
    Parts(s);
    LeafFacts(s, x);
    var f := s.leaves[x].maker.value;
    JobIs(s, f);
    if !UpTo(s.leaves[x].up, key) {
      var v := s.leaves[x].up.value;
      var g := SplitBehind(s, x, o, v);
      JobIs(s, g);
      if JobOf(s, g).Splitting? {
        NotSplitting(s, x, g);
      } else {
        NodeLatchedBy(s, f, g, s.slots[o].home);
      }
    }
  }

  /** Where a reader that came on by latch-free steps from unchanged leaves finds parent and leaf unchanged, the key is its leaf's. */
  lemma OnwardIsRight(s: State, t: Tid)
    requires Inv(s) && JobOf(s, t).Visit? && JobOf(s, t).mode.Onward? && Hits(s, JobOf(s, t))
    requires Fresh(s, JobOf(s, t)) && JobOf(s, t).stage in {Live, Zero, Compare, GoRight, Landed}
    ensures !Beyond(At(s, JobOf(s, t).leaf), JobOf(s, t).key)
  {
    hide Inv, ClearedTo;
    JobIs(s, t);
    MadeIsRight(s, JobOf(s, t).leaf, JobOf(s, t).from, JobOf(s, t).key);
  }

  /** The leaf to the right of the one that the parent gave, found beyond the high key, is the right part of its split. */
  lemma FirstMadeFor(s: State, o: Id, key: int)
    requires Inv(s) && IsLive(s, o) && Calm(s, o) && InSlot(s, o, key) && Beyond(s.leaves[o], key)
    ensures MadeFor(s, s.leaves[o].sib, o)
  {
    hide Inv, TreeOk, VisitOk, IsSep, Uninserted;
    Parts(s);
    LeafFacts(s, o);
    SlotFacts(s, o);
    var u := s.leaves[o].up.value;
    var f := SplitBehind(s, o, o, u);
    JobIs(s, f);
    if JobOf(s, f).Splitting? {
      NotSplitting(s, o, f);
    }
    assert IsUp(s, u);
    if IsLive(s, JobOf(s, f).right) {
      OneFrom(s, JobOf(s, f).right, s.leaves[o].sib, u);
    } else {
      var w :| JobOf(s, w).Merged? && JobOf(s, w).mid == u && JobOf(s, w).leaf == s.leaves[JobOf(s, f).right].into;
      JobIs(s, w);
      NotUp(s, JobOf(s, w).leaf, u);
    }
  }

  lemma TwoSplits(s: State, t: Tid, p: Id, x: Id, u: int, v: int)
    requires Inv(s) && IsLive(s, p) && IsLive(s, x) && s.leaves[p].up == Some(u) && s.leaves[x].up == Some(v)
    requires Strictly(s, p, u) && Strictly(s, p, v) && s.leaves[x].latch.None?
    requires s.leaves[p].latch == Some(t) && JobOf(s, t).Visit?
    ensures u == v
  {
    hide Inv, TreeOk, VisitOk, IsSep, IsUp, Uninserted, MergedInto;
    var f := SplitBehind(s, p, p, u);
    var g := SplitBehind(s, x, p, v);
    JobIs(s, f);
    JobIs(s, g);
    Parts(s);
    NodeLatchedBy(s, f, g, s.slots[p].home);
  }

  // ---------- steps that change a job or one latch ----------

  lemma NotPending(j: Job)
    ensures Kind(j) == (0, 0) ==> !j.SplitUp? && !j.MergeUp?
  {
  }

  lemma QuietHidden(s: State)
    requires TreeOk(s)
    ensures HiddenKept(s, s)
  {
    forall x | x in s.leaves && s.leaves[x].hidden ensures At(s, x).latch.None? {
      assert LeafOk(s, x);
    }
  }

  lemma HiddenSame(s: State, s': State)
    requires HiddenKept(s, s) && s'.leaves.Keys == s.leaves.Keys && forall x :: x in s.leaves ==> s'.leaves[x].latch == s.leaves[x].latch
    ensures HiddenKept(s, s')
  {
  }

  lemma HandingSame(s: State, s': State, t: Tid)
    requires OthersSame(s, s', t) && s'.parents == s.parents
    requires JobOf(s, t).Up? ==> JobOf(s', t).Up? && JobOf(s', t).nodes >= JobOf(s, t).nodes
    ensures HandingKept(s, s')
  {
  }

  lemma QuietStep(s: State, s': State, t: Tid, j: Job)
    requires LatchesOk(s) && LeavesOf(j) == LeavesOf(JobOf(s, t)) && NodesOf(j) == NodesOf(JobOf(s, t)) && Kind(j) == Kind(JobOf(s, t))
    requires !Working(j) && !Working(JobOf(s, t)) && !JobOf(s, t).Up? && s' == SetJob(s, t, j)
    ensures SameShape(s, s', t) && Frame(s, s', t) && HandingKept(s, s') && LatchesOk(s')
  {
    hide LeavesOf, NodesOf, Kind, LeafLatches, NodeLatches, HandingKept;
    HandingSame(s, s', t);
    LeafLatchesSame(s, s', t);
    NodeLatchesSame(s, s', t);
  }

  lemma QuietKeeps(s: State, t: Tid, j: Job)
    requires Inv(s) && LeavesOf(j) == LeavesOf(JobOf(s, t)) && NodesOf(j) == NodesOf(JobOf(s, t))
    requires Kind(j) == Kind(JobOf(s, t)) == (0, 0) && !Working(j) && !Working(JobOf(s, t)) && !JobOf(s, t).Up?
    requires JobOk(SetJob(s, t, j), t)
    ensures Inv(SetJob(s, t, j))
  {
    hide JobOk, TreeOk, UpsOk, SepsOk, SlotsClear, LatchesOk, MakersOk, LeavesOf, NodesOf, Inv, SameShape, Frame, HiddenKept, HandingKept, Kind;
    var s' := SetJob(s, t, j);
    Parts(s);
    QuietStep(s, s', t, j);
    QuietHidden(s);
    HiddenSame(s, s');
    NotPending(JobOf(s, t));
    KeepShape(s, s', t);
  }

  lemma LeafStep(s: State, s': State, t: Tid, x: Id, l: Option<Tid>, j: Job)
    requires LatchesOk(s) && x in s.leaves && (s.leaves[x].latch.None? || s.leaves[x].latch == Some(t))
    requires (l.None? && LeavesOf(j) == LeavesOf(JobOf(s, t)) - {x}) || (l == Some(t) && LeavesOf(j) == LeavesOf(JobOf(s, t)) + {x})
    requires NodesOf(j) == NodesOf(JobOf(s, t)) && Kind(j) == Kind(JobOf(s, t))
    requires !Working(j) && !Working(JobOf(s, t)) && !JobOf(s, t).Up?
    requires s' == SetJob(SetLeaf(s, x, At(s, x).(latch := l)), t, j)
    ensures SameShape(s, s', t) && Frame(s, s', t) && HandingKept(s, s') && LatchesOk(s')
  {
    hide LeavesOf, NodesOf, Kind, LeafLatches, NodeLatches, HandingKept;
    HandingSame(s, s', t);
    LeafLatched(s, s', t, x);
    NodeLatchesSame(s, s', t);
  }

  lemma LatchLeafKeeps(s: State, t: Tid, x: Id, l: Option<Tid>, j: Job)
    requires Inv(s) && x in s.leaves && !s.leaves[x].hidden && (s.leaves[x].latch.None? || s.leaves[x].latch == Some(t))
    requires (l.None? && LeavesOf(j) == LeavesOf(JobOf(s, t)) - {x}) || (l == Some(t) && LeavesOf(j) == LeavesOf(JobOf(s, t)) + {x})
    requires NodesOf(j) == NodesOf(JobOf(s, t)) && Kind(j) == Kind(JobOf(s, t))
    requires !Working(j) && !Working(JobOf(s, t)) && !JobOf(s, t).Up?
    requires SameClimb(JobOf(s, t), j)
    requires JobOk(SetJob(SetLeaf(s, x, At(s, x).(latch := l)), t, j), t)
    ensures Inv(SetJob(SetLeaf(s, x, At(s, x).(latch := l)), t, j))
  {
    hide JobOk, TreeOk, UpsOk, SepsOk, SlotsClear, LatchesOk, MakersOk, LeavesOf, NodesOf, Inv, SameShape, Frame, HiddenKept, HandingKept, HiddenSplits, Kind;
    var s' := SetJob(SetLeaf(s, x, At(s, x).(latch := l)), t, j);
    Parts(s);
    HiddenAre(s);
    LeafStep(s, s', t, x, l, j);
    LeafHidden(s, s', t, x);
    KeepShape(s, s', t);
  }

  /** A leaf is hidden only while its maker is in the leaf part of its split. */
  ghost predicate HiddenSplits(s: State) {
    forall x :: x in s.leaves && s.leaves[x].hidden ==> s.leaves[x].maker.Some? && JobOf(s, s.leaves[x].maker.value).Splitting?
  }

  lemma HiddenAre(s: State)
    requires Inv(s)
    ensures HiddenSplits(s)
  {
    hide UpsOk, SepsOk, SlotsClear, LatchesOk, IsSep, IsUp, Uninserted, Unremoved, MergedInto, MergeUpOn, SplitUpOn, VisitOk;
    forall x | x in s.leaves && s.leaves[x].hidden ensures s.leaves[x].maker.Some? && JobOf(s, s.leaves[x].maker.value).Splitting? {
      assert LeafOk(s, x);
      assert JobOk(s, s.leaves[x].maker.value);
    }
  }

  lemma LeafHidden(s: State, s': State, t: Tid, x: Id)
    requires TreeOk(s) && HiddenSplits(s) && x in s.leaves && !s.leaves[x].hidden && !JobOf(s, t).Splitting?
    requires s.leaves[x].latch.None? || s.leaves[x].latch == Some(t)
    requires s'.leaves == s.leaves[x := s.leaves[x].(latch := At(s', x).latch)]
    ensures HiddenKept(s, s')
  {
    QuietHidden(s);
    if IsLive(s, x) && s.leaves[x].up.Some? {
      assert LeafOk(s, x);
    }
  }

  // ---------- coming to a leaf ----------

  /** What the parents give for a key is clear up to the key. */
  lemma GivenClear(s: State, o: Id, key: int)
    requires Inv(s) && InSlot(s, o, key) && o in s.leaves
    ensures ClearedTo(s, s.leaves[o].into, key)
  {
    hide IsSep, MergeUpOn, MergedInto, Inv;
    Parts(s);
    SlotFacts(s, o);
    assert SlotClear(s, o);
    var z := s.leaves[o].into;
    forall m | IsSep(s, m) && Over(At(s, z).low, m) && m < key ensures MergeUpOn(s, m) || MergedInto(s, m, z) {
      if Over(s.slots[o].lo, m) {
        NotSep(s, o, m);
      }
    }
  }

  lemma KeepDescend(s: State, t: Tid, key: int, o: Id, free: bool)
    requires Inv(s) && Enabled(s, Descend(t, key, o, free))
    ensures Inv(Do(s, Descend(t, key, o, free)))
  {
    hide Inv, ClearedTo, LeafOk, SlotOk;
    Parts(s);
    SlotFacts(s, o);
    GivenClear(s, o, key);
    var j := JobOf(Do(s, Descend(t, key, o, free)), t);
    ClearSame(s, SetJob(s, t, j), t, s.leaves[o].into, key);
    QuietKeeps(s, t, j);
  }

  lemma ClearSame(s: State, s': State, t: Tid, z: Id, b: int)
    requires ClearedTo(s, z, b) && SameJobs(s, s', t) && s'.slots == s.slots && s'.leaves.Keys == s.leaves.Keys
    requires forall x :: x in s.leaves ==> s'.leaves[x] == s.leaves[x].(latch := s'.leaves[x].latch)
    ensures ClearedTo(s', z, b)
  {
    hide IsSep, MergeUpOn, MergedInto, IsUp, Uninserted, Unremoved, SplitUpOn;
    forall m | IsSep(s', m) && Over(At(s', z).low, m) && m < b ensures MergeUpOn(s', m) || MergedInto(s', m, z) {
      BoundsSame(s, s', m);
      PendingSame(s, s', t, m);
      if MergedInto(s, m, z) {
        IntoSame(s, s', t, m, z);
      }
    }
  }

  predicate SameVisit(i: Job, j: Job)
    requires i.Visit? && j.Visit?
  {
    && j.key == i.key && j.parent == i.parent && j.seen == i.seen && j.from == i.from && j.leaf == i.leaf
    && j.free == i.free && j.mode == i.mode
  }

  /** A visit that goes on at the same leaf knows what it knew. */
  lemma VisitGoesOn(s: State, s': State, t: Tid, j: Job)
    requires Inv(s) && JobOf(s, t).Visit? && j.Visit? && s'.slots == s.slots && s'.parents == s.parents && s'.jobs == s.jobs[t := j]
    requires s'.leaves.Keys == s.leaves.Keys && forall x :: x in s.leaves ==> s'.leaves[x] == s.leaves[x].(latch := s'.leaves[x].latch)
    requires SameVisit(JobOf(s, t), j)
    requires j.free ==> j.prev.None?
    requires j.prev.Some? ==> j.prev.value != j.leaf && j.stage in {Came, Held}
    requires j.mode.First? ==> j.prev.None?
    requires j.mode.Rightward? ==> !j.stage.Came? && (JobOf(s, t).stage.Came? && Hits(s, j) ==> UpTo(At(s, j.leaf).up, j.key))
    ensures ParentOk(s', j) && PlaceOk(s', j)
  {
    hide Inv, ClearedTo;
    JobIs(s, t);
    if Hits(s, j) {
      ClearSame(s, s', t, s.leaves[j.leaf].into, j.key);
    }
  }

  /** The same of a latch-free step to the right, whatever the visit reads next. */
  lemma OnwardGoesOn(s: State, s': State, t: Tid, j: Job)
    requires Inv(s) && JobOf(s, t).Visit? && j.Visit? && s'.parents == s.parents && s'.jobs == s.jobs[t := j]
    requires s'.leaves.Keys == s.leaves.Keys && forall x :: x in s.leaves ==> s'.leaves[x] == s.leaves[x].(latch := s'.leaves[x].latch)
    requires SameVisit(JobOf(s, t), j)
    ensures OnwardOk(s', j)
  {
    hide Inv, ParentOk, PlaceOk, ReadOk, OnwardOk;
    JobIs(s, t);
    OnwardMoves(s, JobOf(s, t), j);
    OnwardSame(s, s', t, j);
  }

  lemma OnwardMoves(s: State, i: Job, j: Job)
    requires i.Visit? && j.Visit? && SameVisit(i, j) && OnwardOk(s, i)
    ensures OnwardOk(s, j)
  {
  }

  lemma KeepRead(s: State, st: Step)
    requires Inv(s) && Enabled(s, st) && (st.ReadDeleted? || st.ReadCount? || st.ReadVersion? || st.CompareHigh? || st.Begin?)
    ensures Inv(Do(s, st))
  {
    hide Inv, ParentOk, ClearedTo;
    var s' := Do(s, st);
    var j := JobOf(s', st.t);
    JobIs(s, st.t);
    VisitGoesOn(s, s', st.t, j);
    OnwardGoesOn(s, s', st.t, j);
    QuietKeeps(s, st.t, j);
  }

  lemma KeepEndRead(s: State, t: Tid)
    requires Inv(s) && Enabled(s, EndRead(t))
    ensures Inv(Do(s, EndRead(t)))
  {
    hide Inv, ParentOk, ClearedTo;
    var s' := Do(s, EndRead(t));
    var j := JobOf(s', t);
    JobIs(s, t);
    if j.Visit? {
      VisitGoesOn(s, s', t, j);
      OnwardGoesOn(s, s', t, j);
    }
    QuietKeeps(s, t, j);
  }

  lemma KeepLatch(s: State, t: Tid)
    requires Inv(s) && Enabled(s, Latch(t))
    ensures Inv(Do(s, Latch(t)))
  {
    hide Inv, ParentOk, ClearedTo;
    var s' := Do(s, Latch(t));
    var j := JobOf(s', t);
    JobIs(s, t);
    if j.mode.Rightward? && Hits(s, JobOf(s, t)) {
      RightIsRight(s, t);
    }
    VisitGoesOn(s, s', t, j);
    OnwardGoesOn(s, s', t, j);
    LatchLeafKeeps(s, t, j.leaf, Some(t), j);
  }

  lemma HeldShown(s: State, t: Tid, x: Id)
    requires Inv(s) && x in LeavesOf(JobOf(s, t))
    ensures x in s.leaves && s.leaves[x].latch == Some(t) && !s.leaves[x].hidden && LeafOk(s, x)
  {
    hide LeavesOf, NodesOf, JobOk, UpsOk, SepsOk, SlotsClear, MakersOk;
    assert LeafOk(s, x);
  }

  lemma KeepLetGo(s: State, t: Tid)
    requires Inv(s) && Enabled(s, LetGo(t))
    ensures Inv(Do(s, LetGo(t)))
  {
    hide Inv, ParentOk, ClearedTo, LeafOk;
    var s' := Do(s, LetGo(t));
    var j, x := JobOf(s', t), JobOf(s, t).prev.value;
    JobIs(s, t);
    HeldShown(s, t, x);
    VisitGoesOn(s, s', t, j);
    OnwardGoesOn(s, s', t, j);
    LatchLeafKeeps(s, t, x, None, j);
  }

  lemma KeepLeave(s: State, t: Tid)
    requires Inv(s) && Enabled(s, Leave(t))
    ensures Inv(Do(s, Leave(t)))
  {
    hide Inv, LeafOk;
    JobIs(s, t);
    HeldShown(s, t, JobOf(s, t).leaf);
    LatchLeafKeeps(s, t, JobOf(s, t).leaf, None, Idle);
  }

  // ---------- going to the next leaf ----------

  /** The next leaf of a deleted leaf, and of one that nobody is splitting, is not hidden. */
  lemma NextShown(s: State, x: Id)
    requires Inv(s) && x in s.leaves && (s.leaves[x].deleted || (s.leaves[x].up.Some? && Calm(s, x)))
    ensures s.leaves[x].sib in s.leaves && !s.leaves[s.leaves[x].sib].hidden && s.leaves[x].sib != x
    ensures LeafOk(s, x) && LeafOk(s, s.leaves[x].sib)
  {
    hide Inv, HiddenSplits;
    Parts(s);
    HiddenAre(s);
    LeafFacts(s, x);
    LeafFacts(s, s.leaves[x].sib);
    if s.leaves[s.leaves[x].sib].hidden {
      HiddenOne(s, s.leaves[x].sib);
    }
  }

  lemma HiddenOne(s: State, x: Id)
    requires HiddenSplits(s) && x in s.leaves && s.leaves[x].hidden
    ensures s.leaves[x].maker.Some? && JobOf(s, s.leaves[x].maker.value).Splitting?
  {
  }

  /** To the right of a live leaf nothing is left to clear but what was. */
  lemma RightClear(s: State, x: Id, key: int)
    requires Inv(s) && IsLive(s, x) && s.leaves[x].up.Some? && ClearedTo(s, s.leaves[x].into, key)
    ensures var r := s.leaves[x].sib; IsLive(s, r) && s.leaves[r].into == r && s.leaves[r].low == s.leaves[x].up && ClearedTo(s, r, key)
  {
    hide Inv, IsSep, MergeUpOn;
    Parts(s);
    LeafFacts(s, x);
    var r := s.leaves[x].sib;
    LeafFacts(s, r);
    forall m | IsSep(s, m) && Over(At(s, r).low, m) && m < key ensures MergeUpOn(s, m) {
      NotMergedBeyond(s, x, m);
    }
  }

  lemma NextClear(s: State, x: Id, key: int)
    requires Inv(s) && x in s.leaves && (s.leaves[x].deleted || s.leaves[x].up.Some?) && ClearedTo(s, s.leaves[x].into, key)
    ensures s.leaves[x].sib in s.leaves && ClearedTo(s, s.leaves[s.leaves[x].sib].into, key) && s.leaves[x].sib != x
    ensures !s.leaves[x].deleted ==> s.leaves[s.leaves[x].sib].low == s.leaves[x].up
    ensures s.leaves[x].deleted ==> Lower(s.leaves[s.leaves[x].sib].low, s.leaves[x].low)
  {
    hide Inv, ClearedTo;
    Parts(s);
    LeafFacts(s, x);
    if !s.leaves[x].deleted {
      RightClear(s, x, key);
    }
  }

  lemma NotMergedBeyond(s: State, x: Id, m: int)
    requires Inv(s) && IsLive(s, x) && !Under(s.leaves[x].up, m)
    ensures !MergedInto(s, m, x)
  {
    hide Inv, TreeOk, VisitOk, IsSep;
    if MergedInto(s, m, x) {
      var u :| JobOf(s, u).Merged? && JobOf(s, u).mid == m && JobOf(s, u).leaf == x;
      JobIs(s, u);
    }
  }

  lemma HopPlace(s: State, t: Tid)
    requires Inv(s) && Enabled(s, Hop(t))
    ensures PlaceOk(s, JobOf(Do(s, Hop(t)), t)) && ReadOk(s, JobOf(Do(s, Hop(t)), t))
  {
    hide Inv, ClearedTo, ParentOk;
    JobIs(s, t);
    var j := JobOf(s, t);
    if !HopMode(s, j).Astray? {
      NextShown(s, j.leaf);
    }
    if Hits(s, j) {
      NextClear(s, j.leaf, j.key);
    }
  }

  lemma KeepHop(s: State, t: Tid)
    requires Inv(s) && Enabled(s, Hop(t))
    ensures Inv(Do(s, Hop(t)))
  {
    hide Inv, ClearedTo, LeafOk, ReadOk, OnwardOk;
    JobIs(s, t);
    HopPlace(s, t);
    HopOnward(s, t);
    var s' := Do(s, Hop(t));
    var j := JobOf(s', t);
    OnwardSame(s, s', t, j);
    HopJob(s, s', t, j);
    QuietKeeps(s, t, j);
  }

  /** A latch-free step to the right from an unchanged leaf: from the first leaf to the right part of its split, and no further. */
  lemma HopOnward(s: State, t: Tid)
    requires Inv(s) && Enabled(s, Hop(t))
    ensures OnwardOk(s, JobOf(Do(s, Hop(t)), t))
  {
    hide Inv, ClearedTo;
    JobIs(s, t);
    var j := JobOf(s, t);
    if HopMode(s, j).Onward? && Hits(s, j) {
      if j.mode.Onward? {
        OnwardIsRight(s, t);
      }
      FirstMadeFor(s, j.from, j.key);
    }
  }

  lemma HopJob(s: State, s': State, t: Tid, j: Job)
    requires j.Visit? && PlaceOk(s, j) && ReadOk(s, j) && OnwardOk(s', j) && j.stage.Came? && s' == SetJob(s, t, j) && JobOf(s, t).Visit?
    requires ParentOk(s, JobOf(s, t)) && j.parent == JobOf(s, t).parent && j.seen == JobOf(s, t).seen
    requires j.from == JobOf(s, t).from && j.key == JobOf(s, t).key
    ensures VisitOk(s', t, j)
  {
    hide ClearedTo;
    if Hits(s, j) {
      ClearSame(s, s', t, s.leaves[j.leaf].into, j.key);
    }
  }

  lemma KeepLatchRight(s: State, t: Tid)
    requires Inv(s) && Enabled(s, LatchRight(t))
    ensures Inv(Do(s, LatchRight(t)))
  {
    hide Inv, LeafOk, ClearedTo;
    JobIs(s, t);
    var j := JobOf(s, t);
    NextShown(s, j.leaf);
    LatchLeafKeeps(s, t, At(s, j.leaf).sib, Some(t), JobOf(Do(s, LatchRight(t)), t));
  }

  lemma KeepLeaveLeaf(s: State, t: Tid)
    requires Inv(s) && Enabled(s, LeaveLeaf(t))
    ensures Inv(Do(s, LeaveLeaf(t)))
  {
    hide Inv, LeafOk, JobOk;
    var s', j := Do(s, LeaveLeaf(t)), JobOf(s, t);
    HeldShown(s, t, j.leaf);
    LeaveLeafJob(s, s', t);
    LatchLeafKeeps(s, t, j.leaf, None, JobOf(s', t));
  }

  lemma LeaveLeafJob(s: State, s': State, t: Tid)
    requires Inv(s) && Enabled(s, LeaveLeaf(t)) && s' == Do(s, LeaveLeaf(t))
    ensures JobOk(s', t)
  {
    hide Inv, IsSep, IsUp, Uninserted, Unremoved, MergedInto, MergeUpOn, SplitUpOn;
    JobIs(s, t);
    WorkerSame(s, s', t);
  }

  /** A split or merge that goes on with the parents knows what it knew. */
  lemma WorkerSame(s: State, s': State, t: Tid)
    requires SameJobs(s, s', t) && s'.slots == s.slots && s'.leaves.Keys == s.leaves.Keys && (JobOf(s, t).SplitUp? || JobOf(s, t).MergeUp?)
    requires forall x :: x in s.leaves ==> s'.leaves[x] == s.leaves[x].(latch := s'.leaves[x].latch)
    ensures var m := JobOf(s, t).mid;
      && IsSep(s', m) == IsSep(s, m) && IsUp(s', m) == IsUp(s, m) && Uninserted(s', m) == Uninserted(s, m)
      && (JobOf(s, t).SplitUp? ==> var r := At(s, JobOf(s, t).right).into; MergedInto(s, m, r) ==> MergedInto(s', m, r))
  {
    hide IsSep, IsUp, Uninserted, Unremoved, MergedInto, MergeUpOn, SplitUpOn;
    var m := JobOf(s, t).mid;
    PendingSame(s, s', t, m);
    BoundsSame(s, s', m);
    if JobOf(s, t).SplitUp? && MergedInto(s, m, At(s, JobOf(s, t).right).into) {
      IntoSame(s, s', t, m, At(s, JobOf(s, t).right).into);
    }
  }
}
