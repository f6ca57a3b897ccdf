/** What the steps of the split-count protocol that leave all bounds as they are leave to everyone. */
module SplitCountSteps {
  import opened Options
  import opened SplitCount
  import opened SplitCountInvariant

  // ---------- what such a step leaves alone ----------

  function Kind(j: Job): (int, int) {
    match j
    case SplitUp(_, _, _, mid, _, _) => (1, mid)
    case MergeUp(_, _, mid, _, _, _) => (2, mid)
    case _ => (0, 0)
  }

  predicate Working(j: Job) {
    j.Splitting? || j.Merged?
  }

  ghost predicate OthersSame(s: State, s': State, t: Tid) {
    forall u :: u != t ==> JobOf(s', u) == JobOf(s, u)
  }

  ghost predicate SameJobs(s: State, s': State, t: Tid) {
    && OthersSame(s, s', t) && Kind(JobOf(s', t)) == Kind(JobOf(s, t)) && !Working(JobOf(s, t)) && !Working(JobOf(s', t))
  }

  /** Bounds, pointers and slots are as they were, and no split or merge has begun or got further. */
  ghost predicate SameShape(s: State, s': State, t: Tid) {
    && s'.slots == s.slots && s'.leaves.Keys == s.leaves.Keys && SameJobs(s, s', t)
    && (forall x :: x in s.leaves ==> s'.leaves[x] == s.leaves[x].(latch := s'.leaves[x].latch, splits := s'.leaves[x].splits))
    && (forall p :: p in s.parents ==> p in s'.parents)
  }

  predicate NodeFrame(a: Parent, b: Parent, t: Tid) {
    && a.version <= b.version && (a.latch.Some? && a.latch != Some(t) ==> a == b) && (!a.dirty && b.dirty ==> a.version < b.version)
  }

  predicate LeafFrame(a: Leaf, b: Leaf, t: Tid) {
    && (a.latch != b.latch ==> (a.latch.None? || a.latch == Some(t)) && (b.latch.None? || b.latch == Some(t)))
    && a.splits - {t} == b.splits - {t} && b.splits <= a.splits
  }

  ghost predicate Frame(s: State, s': State, t: Tid) {
    && (forall p :: p in s.parents ==> p in s'.parents && NodeFrame(s.parents[p], s'.parents[p], t))
    && (forall x :: x in s.leaves ==> x in s'.leaves && LeafFrame(s.leaves[x], s'.leaves[x], t))
  }

  /** Slots in the course of being handed on still are, unless the version has been raised. */
  ghost predicate HandingKept(s: State, s': State) {
    forall p, q :: Handing(s, p, q) && Node(s', p).version == Node(s, p).version ==> Handing(s', p, q)
  }

  // ---------- bounds ----------

  lemma PendingSame(s: State, s': State, t: Tid, m: int)
    requires SameJobs(s, s', t)
    ensures Uninserted(s', m) == Uninserted(s, m) && Unremoved(s', m) == Unremoved(s, m)
    ensures MergeUpOn(s', m) == MergeUpOn(s, m) && SplitUpOn(s', m) == SplitUpOn(s, m)
  {
    forall u ensures SameKind(JobOf(s, u), JobOf(s', u)) {
    }
    PendingFrom(s, s', m);
    PendingFrom(s', s, m);
  }

  predicate SameKind(a: Job, b: Job) {
    a == b || (Kind(a) == Kind(b) && !Working(a) && !Working(b))
  }

  lemma PendingFrom(s: State, s': State, m: int)
    requires forall u :: SameKind(JobOf(s, u), JobOf(s', u)) && SameKind(JobOf(s', u), JobOf(s, u))
    ensures Uninserted(s, m) ==> Uninserted(s', m)
    ensures Unremoved(s, m) ==> Unremoved(s', m)
    ensures MergeUpOn(s, m) ==> MergeUpOn(s', m)
    ensures SplitUpOn(s, m) ==> SplitUpOn(s', m)
  {
    if Uninserted(s, m) {
      var u :| SplitAt(JobOf(s, u), m);
      assert SplitAt(JobOf(s', u), m);
    }
    if Unremoved(s, m) {
      var u :| MergedAt(JobOf(s, u), m);
      assert MergedAt(JobOf(s', u), m);
    }
    if MergeUpOn(s, m) {
      var u :| JobOf(s, u).MergeUp? && JobOf(s, u).mid == m;
      assert JobOf(s', u).MergeUp?;
    }
    if SplitUpOn(s, m) {
      var u :| JobOf(s, u).SplitUp? && JobOf(s, u).mid == m;
      assert JobOf(s', u).SplitUp?;
    }
  }

  lemma IntoSame(s: State, s': State, t: Tid, m: int, z: Id)
    requires OthersSame(s, s', t) && !JobOf(s, t).Merged? && MergedInto(s, m, z)
    ensures MergedInto(s', m, z)
  {
    var u :| JobOf(s, u).Merged? && JobOf(s, u).mid == m && JobOf(s, u).leaf == z;
    assert JobOf(s', u) == JobOf(s, u);
  }

  lemma BoundsSame(s: State, s': State, m: int)
    requires s'.slots == s.slots && s'.leaves.Keys == s.leaves.Keys
    requires forall x :: x in s.leaves ==> s'.leaves[x].up == s.leaves[x].up && s'.leaves[x].deleted == s.leaves[x].deleted
    ensures IsSep(s', m) == IsSep(s, m) && IsUp(s', m) == IsUp(s, m)
  {
    if IsUp(s, m) {
      var x :| IsLive(s, x) && s.leaves[x].up == Some(m);
      assert IsLive(s', x);
    }
    if IsUp(s', m) {
      var x :| IsLive(s', x) && s'.leaves[x].up == Some(m);
      assert IsLive(s, x);
    }
  }

  lemma ShapeClear(s: State, s': State, t: Tid, z: Id, b: int)
    requires SameShape(s, s', t) && ClearedTo(s, z, b)
    ensures ClearedTo(s', z, b)
  {
    hide IsSep, MergeUpOn, MergedInto, IsUp, Uninserted, Unremoved, SplitUpOn;
    forall m | IsSep(s', m) && Over(At(s', z).low, m) && m < b ensures MergeUpOn(s', m) || MergedInto(s', m, z) {
      BoundsSame(s, s', m);
      PendingSame(s, s', t, m);
      if MergedInto(s, m, z) {
        IntoSame(s, s', t, m, z);
      }
    }
  }

  lemma ShapeBounds(s: State, s': State, t: Tid)
    requires SameShape(s, s', t) && UpsOk(s) && SepsOk(s) && SlotsClear(s)
    ensures UpsOk(s') && SepsOk(s') && SlotsClear(s')
  {
    hide Uninserted, Unremoved, IsSep, IsUp, MergeUpOn, SplitUpOn, ClearedTo;
    forall m ensures (IsUp(s', m) ==> IsSep(s', m) || Uninserted(s', m)) && (IsSep(s', m) ==> IsUp(s', m) || Unremoved(s', m)) {
      PendingSame(s, s', t, m);
      BoundsSame(s, s', m);
    }
    forall o ensures SlotClear(s', o) {
      assert SlotClear(s, o);
      if o in s.slots && s.slots[o].lo.Some? {
        ShapeClear(s, s', t, At(s, o).into, s.slots[o].lo.value + 1);
      }
    }
  }

  /** A hidden leaf is not latched, nor is the latch of the leaf before it given up. */
  ghost predicate HiddenKept(s: State, s': State) {
    && (forall x :: x in s.leaves && s.leaves[x].hidden ==> At(s', x).latch.None?)
    && (forall x :: IsLive(s, x) && s.leaves[x].up.Some? && At(s, s.leaves[x].sib).hidden ==> At(s', x).latch == s.leaves[x].latch)
  }

  lemma ShapeTree(s: State, s': State, t: Tid)
    requires SameShape(s, s', t) && TreeOk(s) && HiddenKept(s, s')
    ensures TreeOk(s')
  {
    forall x | x in s'.leaves ensures LeafOk(s', x) {
      assert LeafOk(s, x);
    }
    forall x, y ensures LivesApart(s', x, y) {
      assert LivesApart(s, x, y);
    }
    forall o | o in s'.slots ensures SlotOk(s', o) {
      assert SlotOk(s, o);
    }
    forall o, q ensures SlotsApart(s', o, q) {
      assert SlotsApart(s, o, q);
    }
  }

  /** A split that is on its way into a slot still is. */
  predicate SameClimb(i: Job, j: Job) {
    i.SplitUp? ==> j.SplitUp? && j.right == i.right && j.slot == i.slot
  }

  lemma ShapeMakers(s: State, s': State, t: Tid)
    requires SameShape(s, s', t) && MakersOk(s)
    requires SameClimb(JobOf(s, t), JobOf(s', t))
    ensures MakersOk(s')
  {
  }

  // ---------- what the others know ----------

  lemma ParentFrame(s: State, s': State, t: Tid, j: Job)
    requires Frame(s, s', t) && HandingKept(s, s') && s'.slots == s.slots && j.Visit? && ParentOk(s, j)
    ensures ParentOk(s', j) && (Hits(s', j) ==> Hits(s, j))
  {
    assert NodeFrame(s.parents[j.parent], s'.parents[j.parent], t);
    if Hits(s', j) && s.slots[j.from].home != j.parent {
      assert Handing(s, j.parent, s.slots[j.from].home);
    }
  }

  lemma PlaceFrame(s: State, s': State, t: Tid, j: Job)
    requires SameShape(s, s', t) && j.Visit? && PlaceOk(s, j) && (Hits(s', j) ==> Hits(s, j))
    ensures PlaceOk(s', j)
  {
    hide ClearedTo;
    if Hits(s', j) {
      ShapeClear(s, s', t, s.leaves[j.leaf].into, j.key);
    }
  }

  lemma ReadFrame(s: State, s': State, t: Tid, j: Job)
    requires SameShape(s, s', t) && Frame(s, s', t) && j.Visit? && ReadOk(s, j)
    ensures ReadOk(s', j)
  {
    assert LeafFrame(s.leaves[j.leaf], s'.leaves[j.leaf], t);
    if !j.stage.Came? && Fresh(s', j) {
      CalmFrame(s, s', t, j.leaf);
    }
  }

  lemma CalmFrame(s: State, s': State, t: Tid, x: Id)
    requires SameJobs(s, s', t) && x in s.leaves && x in s'.leaves && LeafFrame(s.leaves[x], s'.leaves[x], t) && Calm(s, x)
    ensures Calm(s', x)
  {
  }

  /** What a latch-free step to the right has led to stays, as long as the leaf's maker and its split do. */
  lemma OnwardSame(s: State, s': State, t: Tid, j: Job)
    requires j.Visit? && OnwardOk(s, j) && (Hits(s', j) ==> Hits(s, j)) && OthersSame(s, s', t) && SameClimb(JobOf(s, t), JobOf(s', t))
    requires j.leaf in s.leaves ==> j.leaf in s'.leaves && s'.leaves[j.leaf].maker == s.leaves[j.leaf].maker
    ensures OnwardOk(s', j)
  {
  }

  lemma ShapeMaker(s: State, s': State, t: Tid, x: Id)
    requires SameShape(s, s', t)
    ensures OthersSame(s, s', t) && (x in s.leaves ==> x in s'.leaves && s'.leaves[x].maker == s.leaves[x].maker)
  {
  }

  lemma VisitFrame(s: State, s': State, t: Tid, u: Tid)
    requires SameShape(s, s', t) && Frame(s, s', t) && HandingKept(s, s') && u != t && JobOf(s, u).Visit? && VisitOk(s, u, JobOf(s, u))
    requires SameClimb(JobOf(s, t), JobOf(s', t))
    ensures VisitOk(s', u, JobOf(s, u))
  {
    hide ParentOk, PlaceOk, ReadOk, SameShape, Frame, OnwardOk;
    ShapeMaker(s, s', t, JobOf(s, u).leaf);
    assert s'.slots == s.slots by { SlotsSame(s, s', t); }
    ParentFrame(s, s', t, JobOf(s, u));
    PlaceFrame(s, s', t, JobOf(s, u));
    ReadFrame(s, s', t, JobOf(s, u));
    OnwardSame(s, s', t, JobOf(s, u));
  }

  lemma SlotsSame(s: State, s': State, t: Tid)
    requires SameShape(s, s', t)
    ensures s'.slots == s.slots
  {
  }

  lemma SplitFrame(s: State, s': State, t: Tid, u: Tid)
    requires SameShape(s, s', t) && Frame(s, s', t) && u != t && JobOf(s, u).Splitting? && SplitOk(s, u, JobOf(s, u))
    ensures SplitOk(s', u, JobOf(s, u))
  {
    hide IsSep, MergeUpOn, SplitUpOn, IsUp, Uninserted, Unremoved;
    var j := JobOf(s, u);
    PendingSame(s, s', t, j.mid);
    BoundsSame(s, s', j.mid);
    assert LeafFrame(s.leaves[j.leaf], s'.leaves[j.leaf], t);
    StillSplits(s.leaves[j.leaf], s'.leaves[j.leaf], t, u);
  }

  lemma StillSplits(a: Leaf, b: Leaf, t: Tid, u: Tid)
    requires LeafFrame(a, b, t) && u in a.splits && u != t
    ensures u in b.splits
  {
    assert u in a.splits - {t};
  }

  lemma SplitUpFrame(s: State, s': State, t: Tid, u: Tid)
    requires SameShape(s, s', t) && Frame(s, s', t) && u != t && JobOf(s, u).SplitUp? && SplitUpOk(s, u, JobOf(s, u))
    ensures SplitUpOk(s', u, JobOf(s, u))
  {
    hide IsSep, MergedInto, IsUp, Uninserted, Unremoved, MergeUpOn;
    var j := JobOf(s, u);
    PendingSame(s, s', t, j.mid);
    BoundsSame(s, s', j.mid);
    assert LeafFrame(s.leaves[j.leaf], s'.leaves[j.leaf], t);
    StillSplits(s.leaves[j.leaf], s'.leaves[j.leaf], t, u);
    if !IsLive(s, j.right) {
      IntoSame(s, s', t, j.mid, s.leaves[j.right].into);
    }
  }

  lemma NodesFrame(s: State, s': State, t: Tid, u: Tid, p: Pid)
    requires Frame(s, s', t) && LatchesOk(s) && u != t && p in NodesOf(JobOf(s, u))
    ensures Node(s', p) == Node(s, p)
  {
    assert NodeFrame(s.parents[p], s'.parents[p], t);
  }

  lemma JobFrame(s: State, s': State, t: Tid, u: Tid)
    requires SameShape(s, s', t) && Frame(s, s', t) && HandingKept(s, s') && LatchesOk(s) && u != t && JobOk(s, u)
    requires SameClimb(JobOf(s, t), JobOf(s', t))
    ensures JobOk(s', u)
  {
    hide VisitOk, SplitOk, SplitUpOk, IsSep, IsUp, Uninserted, Unremoved, MergeUpOn, SplitUpOn, LatchesOk, Frame, HandingKept;
    var j := JobOf(s, u);
    assert JobOf(s', u) == j;
    match j
    case Idle =>
    case Visit(_, _, _, _, _, _, _, _, _, _) => VisitFrame(s, s', t, u);
    case Merging(leaf, right) =>
    case Splitting(_, _, _) => SplitFrame(s, s', t, u);
    case SplitUp(_, _, _, _, _, _) => SplitUpFrame(s, s', t, u);
    case Inserted(leaf, nodes) =>
      forall p | p in nodes ensures Node(s', p).dirty { NodesFrame(s, s', t, u, p); }
    case Merged(leaf, mid) =>
      PendingSame(s, s', t, mid);
      BoundsSame(s, s', mid);
    case MergeUp(_, _, mid, _, other, _) =>
      PendingSame(s, s', t, mid);
      BoundsSame(s, s', mid);
      if other.Some? { NodesFrame(s, s', t, u, other.value); }
    case Up(nodes) =>
  }

  // ---------- latches ----------

  ghost predicate Mine(s: State, t: Tid) {
    && (forall x :: x in s.leaves && s.leaves[x].latch == Some(t) ==> x in LeavesOf(JobOf(s, t)))
    && (forall x :: x in LeavesOf(JobOf(s, t)) ==> x in s.leaves && s.leaves[x].latch == Some(t))
    && (forall p :: p in s.parents && s.parents[p].latch == Some(t) ==> p in NodesOf(JobOf(s, t)))
    && (forall p :: p in NodesOf(JobOf(s, t)) ==> p in s.parents && s.parents[p].latch == Some(t))
  }

  lemma MineIs(s: State, t: Tid)
    requires LatchesOk(s)
    ensures Mine(s, t)
  {
    hide LeavesOf, NodesOf;
  }

  lemma LeafLatchesSame(s: State, s': State, t: Tid)
    requires LeafLatches(s) && OthersSame(s, s', t) && LeavesOf(JobOf(s', t)) == LeavesOf(JobOf(s, t))
    requires forall x :: x in s.leaves ==> x in s'.leaves && s'.leaves[x].latch == s.leaves[x].latch
    requires forall x :: x in s'.leaves && x !in s.leaves ==> s'.leaves[x].latch.None?
    ensures LeafLatches(s')
  {
    hide LeavesOf;
  }

  lemma LeafLatched(s: State, s': State, t: Tid, x: Id)
    requires LeafLatches(s) && OthersSame(s, s', t) && x in s.leaves && (s.leaves[x].latch.None? || s.leaves[x].latch == Some(t))
    requires s'.leaves.Keys == s.leaves.Keys && (s'.leaves[x].latch.None? || s'.leaves[x].latch == Some(t))
    requires forall y :: y in s.leaves && y != x ==> s'.leaves[y].latch == s.leaves[y].latch
    requires LeavesOf(JobOf(s', t)) == if s'.leaves[x].latch.None? then LeavesOf(JobOf(s, t)) - {x} else LeavesOf(JobOf(s, t)) + {x}
    ensures LeafLatches(s')
  {
    hide LeavesOf;
  }

  lemma NodeLatchesSame(s: State, s': State, t: Tid)
    requires NodeLatches(s) && OthersSame(s, s', t) && NodesOf(JobOf(s', t)) == NodesOf(JobOf(s, t)) && s'.parents.Keys == s.parents.Keys
    requires forall p :: p in s.parents ==> s'.parents[p].latch == s.parents[p].latch && (s'.parents[p].dirty ==> s.parents[p].dirty || s.parents[p].latch.Some?)
    ensures NodeLatches(s')
  {
    hide NodesOf;
  }

  lemma NodeLatched(s: State, s': State, t: Tid, p: Pid)
    requires NodeLatches(s) && OthersSame(s, s', t) && (p in s.parents ==> s.parents[p].latch.None?) && p in s'.parents
    requires s'.parents == s.parents[p := s'.parents[p]] && s'.parents[p].latch == Some(t)
    requires NodesOf(JobOf(s', t)) == NodesOf(JobOf(s, t)) + {p}
    ensures NodeLatches(s')
  {
    hide NodesOf;
  }

  // ---------- putting it together ----------

  lemma KeepShape(s: State, s': State, t: Tid)
    requires Inv(s) && SameShape(s, s', t) && Frame(s, s', t) && HandingKept(s, s') && HiddenKept(s, s') && LatchesOk(s') && JobOk(s', t)
    requires SameClimb(JobOf(s, t), JobOf(s', t))
    ensures Inv(s')
  {
    hide TreeOk, UpsOk, SepsOk, SlotsClear, LatchesOk, MakersOk, JobOk, SameShape, Frame, HiddenKept, HandingKept;
    ShapeTree(s, s', t);
    ShapeBounds(s, s', t);
    ShapeMakers(s, s', t);
    forall u ensures JobOk(s', u) {
      if u != t {
        assert JobOk(s, u);
        JobFrame(s, s', t, u);
      }
    }
  }

  lemma Parts(s: State)
    requires Inv(s)
    ensures TreeOk(s) && UpsOk(s) && SepsOk(s) && SlotsClear(s) && LatchesOk(s) && MakersOk(s) && JobsOk(s)
  {
  }

  lemma Whole(s: State)
    requires TreeOk(s) && UpsOk(s) && SepsOk(s) && SlotsClear(s) && LatchesOk(s) && MakersOk(s) && (forall t :: JobOk(s, t))
    ensures Inv(s)
  {
  }

  lemma JobIs(s: State, t: Tid)
    requires Inv(s)
    ensures JobOk(s, t) && Mine(s, t)
  {
    hide JobOk, Mine, TreeOk, UpsOk, SepsOk, SlotsClear, LatchesOk, MakersOk;
    MineIs(s, t);
  }

  // ---------- bounds belong to one leaf and to one slot ----------

  lemma OneWithUp(s: State, x: Id, y: Id, u: int)
    requires TreeOk(s) && IsLive(s, x) && IsLive(s, y) && s.leaves[x].up == Some(u) == s.leaves[y].up
    ensures x == y
  {
    assert LivesApart(s, x, y) && LeafOk(s, x) && LeafOk(s, y);
  }

  lemma OneFrom(s: State, x: Id, y: Id, m: int)
    requires TreeOk(s) && IsLive(s, x) && IsLive(s, y) && s.leaves[x].low == Some(m) == s.leaves[y].low
    ensures x == y
  {
    assert LivesApart(s, x, y) && LeafOk(s, x) && LeafOk(s, y);
  }

  lemma OneAround(s: State, x: Id, y: Id, u: int)
    requires TreeOk(s) && Inside(s, x, u) && IsLive(s, y) && Over(s.leaves[y].low, u) && UpTo(s.leaves[y].up, u)
    ensures x == y
  {
    assert LivesApart(s, x, y);
  }

  lemma OneSlot(s: State, o: Id, q: Id, m: int)
    requires TreeOk(s) && InSlot(s, o, m) && InSlot(s, q, m)
    ensures o == q
  {
    assert SlotsApart(s, o, q);
  }

  lemma NotSep(s: State, o: Id, m: int)
    requires TreeOk(s) && Strictly(s, o, m)
    ensures !IsSep(s, m)
  {
    forall q | q in s.slots && s.slots[q].hi == Some(m) ensures false {
      assert SlotOk(s, q);
      OneSlot(s, o, q, m);
    }
  }

  lemma SepSlot(s: State, m: int) returns (q: Id)
    requires TreeOk(s) && IsSep(s, m)
    ensures q in s.slots && s.slots[q].hi == Some(m) && InSlot(s, q, m)
  {
    q :| q in s.slots && s.slots[q].hi == Some(m);
    assert SlotOk(s, q);
  }

  lemma NotUp(s: State, x: Id, m: int)
    requires TreeOk(s) && Inside(s, x, m)
    ensures !IsUp(s, m)
  {
    forall y | IsLive(s, y) && s.leaves[y].up == Some(m) ensures false {
      assert LeafOk(s, y);
      OneAround(s, x, y, m);
    }
  }

  lemma LatchedBy(s: State, t: Tid, u: Tid, x: Id)
    requires LatchesOk(s) && x in LeavesOf(JobOf(s, t)) && x in LeavesOf(JobOf(s, u))
    ensures t == u
  {
    hide LeavesOf, NodesOf, LatchesOk;
    MineIs(s, t);
    MineIs(s, u);
  }

  lemma NodeLatchedBy(s: State, t: Tid, u: Tid, p: Pid)
    requires LatchesOk(s) && p in NodesOf(JobOf(s, t)) && p in NodesOf(JobOf(s, u))
    ensures t == u
  {
    hide LeavesOf, NodesOf, LatchesOk;
    MineIs(s, t);
    MineIs(s, u);
  }

  /** A separator strictly inside a live leaf is about to be removed, by a merge into that leaf. */
  lemma InsideSep(s: State, z: Id, m: int)
    requires Inv(s) && Inside(s, z, m) && IsSep(s, m)
    ensures MergeUpOn(s, m) || MergedInto(s, m, z)
  {
    hide Inv, TreeOk, IsSep, IsUp, VisitOk, Uninserted;
    Parts(s);
    NotUp(s, z, m);
    var u :| MergedAt(JobOf(s, u), m);
    JobIs(s, u);
    if JobOf(s, u).Merged? {
      OneAround(s, JobOf(s, u).leaf, z, m);
    }
  }
}
