/**
 Every step of the read protocol keeps its invariant.
 */
module ReadSteps {
  import opened Options
  import opened ReadProtocol
  import opened ReadInvariant

  lemma Owned(s: State, t: Tid, l: Id)
    requires OwnersOk(s) && l in s.leaves
    ensures s.leaves[l].latch == Some(t) <==> l in Latches(JobOf(s, t))
    ensures s.leaves[l].filler == Some(t) <==> l in Fills(JobOf(s, t))
    ensures Booked(s.leaves[l])
  {
  }

  lemma MyLeaf(s: State, t: Tid, l: Id)
    requires OwnersOk(s) && l in Latches(JobOf(s, t))
    ensures l in s.leaves && At(s, l) == s.leaves[l] && s.leaves[l].latch == Some(t) && s.leaves[l].filler == None
  {
    assert l in Latches(JobOf(s, t)) + Fills(JobOf(s, t));
    assert Booked(s.leaves[l]);
  }

  lemma MyFill(s: State, t: Tid, l: Id)
    requires OwnersOk(s) && l in Fills(JobOf(s, t))
    ensures l in s.leaves && At(s, l) == s.leaves[l] && s.leaves[l].filler == Some(t) && s.leaves[l].latch == None
    ensures s.leaves[l].dirty && !s.leaves[l].bumped
  {
    assert l in Latches(JobOf(s, t)) + Fills(JobOf(s, t));
    assert Booked(s.leaves[l]);
  }

  /** A leaf nobody has begun to change is in order, latched or not. */
  lemma QuietSettled(s: State, l: Id)
    requires Inv(s) && l in s.leaves && s.leaves[l].filler.None? && !s.leaves[l].bumped && !s.leaves[l].dirty
    ensures DeadOrSettled(s, s.leaves[l])
  {
    hide RangesOk;
    if s.leaves[l].latch.Some? {
      var u := s.leaves[l].latch.value;
      Owned(s, u, l);
      assert WriterOk(s, JobOf(s, u));
    }
  }

  lemma AllLive(s: State, s': State, touched: set<Id>)
    requires forall l :: l in s.leaves && l in s'.leaves && !s.leaves[l].deleted ==> !s'.leaves[l].deleted
    ensures NeighboursLive(s, s', touched)
  {
  }

  lemma RangesSame(s: State, s': State)
    requires RangesOk(s) && s'.leaves.Keys == s.leaves.Keys
    requires forall l :: l in s.leaves ==>
      s'.leaves[l].keys == s.leaves[l].keys && s'.leaves[l].low == s.leaves[l].low && s'.leaves[l].up == s.leaves[l].up
    ensures RangesOk(s')
  {
    forall l | l in s'.leaves ensures KeysIn(s'.leaves[l]) {
      assert KeysIn(s.leaves[l]);
    }
    forall l, m | l in s'.leaves && m in s'.leaves && l != m ensures Apart(s'.leaves[l], s'.leaves[m]) {
      ApartSame(s.leaves[l], s.leaves[m], s'.leaves[l], s'.leaves[m]);
    }
  }

  lemma ApartSame(x: Leaf, y: Leaf, x': Leaf, y': Leaf)
    requires Apart(x, y) && x'.low == x.low && x'.up == x.up && y'.low == y.low && y'.up == y.up
    ensures Apart(x', y')
  {
    forall k ensures !(InRange(x', k) && InRange(y', k)) {
      assert !(InRange(x, k) && InRange(y, k));
    }
  }

  // ---------- lookups ----------

  predicate Free(j: Job) {
    j.Idle? || j.Looking? || j.Wanting?
  }

  lemma KeepFree(s: State, t: Tid, j: Job)
    requires Inv(s) && Free(JobOf(s, t)) && Free(j) && ReaderOk(s, j)
    ensures Inv(SetJob(s, t, j))
  {
    hide RangesOk, LinksOk, OwnersOk, JobsOk, NeighboursLive, DoomKept, Strayed, ReaderOn;
    var s' := SetJob(s, t, j);
    StrayedSame(s, s', t, j);
    assert JobOf(s', t) == j && OtherJobs(s, s', t);
    forall l | l in s'.leaves ensures s'.leaves[l].latch != Some(t) && s'.leaves[l].filler != Some(t) {
      Owned(s, t, l);
    }
    AllLive(s, s', {});
    RangesSame(s, s');
    DoomSame(s, s', t, {});
    StepKeeps(s, s', t, {});
  }

  lemma StrayedSame(s: State, s': State, t: Tid, j: Job)
    requires s' == SetJob(s, t, j) && !JobOf(s, t).Merging? && ReaderOk(s, j)
    ensures ReaderOk(s', j)
  {
    if j.Looking? && Doomed(s, j.node) {
      assert At(s, j.node).latch != Some(t);
    }
  }

  lemma MyReader(s: State, t: Tid)
    requires Inv(s)
    ensures ReaderOk(s, JobOf(s, t)) && WriterOk(s, JobOf(s, t))
  {
    hide OwnersOk, RangesOk, LinksOk;
  }

  /** A leaf that a split still fills is live, with the high key of its range. */
  lemma FillingIs(s: State, l: Id)
    requires Inv(s) && l in s.leaves && s.leaves[l].filler.Some?
    ensures var y := s.leaves[l]; !y.deleted && Wide(y) && (y.hasSib ==> y.up.Some?) && (y.up.Some? ==> y.high == y.up.value) && y.latch.None?
  {
    hide RangesOk, LinksOk, JobsOk, StartsAt;
    var u := s.leaves[l].filler.value;
    Owned(s, u, l);
    MyReader(s, u);
  }

  /** Reading the version when the leaf is unlatched. */
  lemma KeepBegin(s: State, t: Tid)
    requires Inv(s) && Enabled(s, Begin(t))
    ensures Inv(Do(s, Begin(t)))
  {
    hide RangesOk, LinksOk, OwnersOk, JobsOk;
    var j := JobOf(s, t);
    MyReader(s, t);
    Owned(s, t, j.node);
    KeepFree(s, t, j.(seen := At(s, j.node).version, stage := Begun));
  }

  /** What the marks and the high key say of a leaf whose version has not moved. */
  lemma ReadRight(s: State, t: Tid)
    requires Inv(s) && JobOf(s, t).Looking? && JobOf(s, t).straight && !JobOf(s, t).stage.Arrived?
    ensures var j := JobOf(s, t);
            && j.node in s.leaves && (ReaderOn(s.leaves[j.node], j.key, j.seen, j.stage, j.gone) || Strayed(s, j.node, j.stage))
            && var x := s.leaves[j.node];
               (x.filler.None? && j.seen == x.version && !x.dirty && !x.bumped ==> DeadOrSettled(s, x))
  {
    hide RangesOk, LinksOk, OwnersOk, JobsOk, DeadOrSettled;
    var j := JobOf(s, t);
    MyReader(s, t);
    var x := s.leaves[j.node];
    if x.filler.None? && j.seen == x.version && !x.dirty && !x.bumped {
      QuietSettled(s, j.node);
    }
  }

  lemma KeepLook(s: State, t: Tid, st: Step)
    requires Inv(s) && Enabled(s, st) && st.t == t && (st.ReadDeleted? || st.ReadHasSib? || st.ReadHigh? || st.Hit?)
    ensures Inv(Do(s, st))
  {
    hide RangesOk, LinksOk, OwnersOk, JobsOk, StartsAt, Stored;
    var j := JobOf(s, t);
    if j.straight {
      ReadRight(s, t);
      if At(s, j.node).filler.Some? {
        FillingIs(s, j.node);
      }
    }
    assert Do(s, st) == DoLook(s, t, j, st);
    KeepFree(s, t, DoLook(s, t, j, st).jobs[t]);
  }

  /** A key in the range of a leaf that does not hold it is not stored. */
  lemma NotStored(s: State, l: Id, k: int)
    requires RangesOk(s) && l in s.leaves && InRange(s.leaves[l], k) && k !in s.leaves[l].keys
    ensures !Stored(s, k)
  {
    forall m | m in s.leaves ensures k !in s.leaves[m].keys {
      if m != l {
        assert Apart(s.leaves[l], s.leaves[m]) && KeysIn(s.leaves[m]);
      }
    }
  }

  lemma KeepMiss(s: State, t: Tid)
    requires Inv(s) && Enabled(s, Miss(t))
    ensures Inv(Do(s, Miss(t)))
  {
    hide RangesOk, LinksOk, OwnersOk, JobsOk, StartsAt, Stored;
    var j := JobOf(s, t);
    if j.straight {
      ReadRight(s, t);
      var x := s.leaves[j.node];
      if x.filler.Some? && j.key !in x.keys {
        NotStored(s, j.node, j.key);
      }
    }
    KeepFree(s, t, DoLook(s, t, j, Miss(t)).jobs[t]);
  }

  /** A hop to a leaf the lookup may be sent to keeps it at a leaf that begins below its key or will send it on. */
  lemma KeepHop(s: State, t: Tid)
    requires Inv(s) && Enabled(s, Hop(t))
    ensures Inv(Do(s, Hop(t)))
  {
    hide RangesOk, OwnersOk, JobsOk, LinksOk;
    var j := JobOf(s, t);
    var r := At(s, j.node).sib;
    if s.leaves[r].filler.Some? {
      FillingIs(s, r);
    }
    KeepFree(s, t, Do(s, Hop(t)).jobs[t]);
  }

  lemma KeepEndRead(s: State, t: Tid)
    requires Inv(s) && Enabled(s, EndRead(t))
    ensures Inv(Do(s, EndRead(t)))
  {
    hide RangesOk, LinksOk, OwnersOk, JobsOk;
    var j := JobOf(s, t);
    MyReader(s, t);
    KeepFree(s, t, if At(s, j.node).version == j.seen then Idle else j.(stage := Arrived));
  }

  // ---------- writers ----------

  /** No leaf has died or gone back to being filled. */
  ghost predicate Grown(s: State, s': State) {
    && s.leaves.Keys <= s'.leaves.Keys
    && forall l :: l in s.leaves ==>
      && s'.leaves[l].low == s.leaves[l].low && s'.leaves[l].deleted == s.leaves[l].deleted
      && (s.leaves[l].filler.None? ==> s'.leaves[l].filler.None?)
  }

  lemma GrownStart(s: State, s': State, z: Id, w: int)
    requires Grown(s, s') && StartsAt(s, z, w)
    ensures StartsAt(s', z, w)
  {
  }

  lemma GrownSettled(s: State, s': State, x: Leaf)
    requires Grown(s, s')
    ensures DeadOrSettled(s, x) ==> DeadOrSettled(s', x)
    ensures Settled(s, x) ==> Settled(s', x)
    ensures Buried(s, x) ==> Buried(s', x)
  {
    hide Grown, StartsAt;
    if x.up.Some? && StartsAt(s, x.sib, x.up.value) {
      GrownStart(s, s', x.sib, x.up.value);
    }
    GrownBuried(s, s', x);
  }

  lemma GrownBuried(s: State, s': State, x: Leaf)
    requires Grown(s, s')
    ensures Buried(s, x) ==> Buried(s', x)
  {
  }

  /** A writer's step on leaves it holds or takes hold of. */
  lemma KeepWrite(s: State, s': State, t: Tid, touched: set<Id>)
    requires Inv(s) && Changed(s, s', t, touched) && Grown(s, s') && Owns(s', t)
    requires RangesOk(s') && WriterOk(s', JobOf(s', t)) && !JobOf(s', t).Looking? && DoomKept(s, s', t)
    requires forall l :: l in touched ==>
      && Booked(s'.leaves[l]) && (s'.leaves[l].deleted ==> l in s.leaves && s.leaves[l].deleted && s'.leaves[l].sib == s.leaves[l].sib)
      && (s'.leaves[l].latch.None? && s'.leaves[l].filler.None? ==> DeadOrSettled(s', s'.leaves[l]))
    ensures Inv(s')
  {
    hide RangesOk, WriterOk, Owns, OwnersOk, JobsOk, Changed, DeadOrSettled, Booked, DoomKept;
    AllLive(s, s', touched);
    assert touched <= s'.leaves.Keys by { Touched(s, s', t, touched); }
    forall l | l in touched ensures LeafKept(s', s'.leaves[l]) {
      if s'.leaves[l].deleted {
        assert Buried(s, s.leaves[l]);
        GrownSettled(s, s', s.leaves[l]);
      }
    }
    StepKeeps(s, s', t, touched);
  }

  lemma Touched(s: State, s': State, t: Tid, touched: set<Id>)
    requires Changed(s, s', t, touched)
    ensures touched <= s'.leaves.Keys
  {
  }

  /** How a leaf may change in the hands of thread t without its range moving. */
  ghost predicate May(x: Leaf, x': Leaf, t: Tid) {
    && Mine(x.latch, t) && Mine(x.filler, t) && Mine(x'.latch, t) && Mine(x'.filler, t) && Readable(x, x') && Booked(x')
    && x'.deleted == x.deleted && (x.deleted ==> x'.sib == x.sib)
  }

  ghost predicate SameRange(x: Leaf, x': Leaf) {
    KeysIn(x') && x'.low == x.low && x'.up == x.up
  }

  /** The new state of a step that changes two leaves. */
  function Two(s: State, t: Tid, l: Id, x: Leaf, r: Id, y: Leaf, j: Job): State {
    SetJob(SetLeaf(SetLeaf(s, l, x), r, y), t, j)
  }

  ghost predicate Takes(x: Leaf, l: Id, t: Tid, j: Job) {
    (x.latch == Some(t) <==> l in Latches(j)) && (x.filler == Some(t) <==> l in Fills(j))
  }

  lemma KeepTwo(s: State, t: Tid, l: Id, x: Leaf, r: Id, y: Leaf, j: Job)
    requires Inv(s) && l in s.leaves && r in s.leaves && (l == r ==> x == y)
    requires May(s.leaves[l], x, t) && May(s.leaves[r], y, t) && Takes(x, l, t, j) && Takes(y, r, t, j)
    requires Latches(j) - {l, r} == Latches(JobOf(s, t)) - {l, r} && Fills(j) - {l, r} == Fills(JobOf(s, t)) - {l, r}
    requires RangesOk(Two(s, t, l, x, r, y, j)) && !j.Looking? && WriterOk(Two(s, t, l, x, r, y, j), j)
    requires x.latch.None? && x.filler.None? ==> DeadOrSettled(Two(s, t, l, x, r, y, j), x)
    requires y.latch.None? && y.filler.None? ==> DeadOrSettled(Two(s, t, l, x, r, y, j), y)
    requires JobOf(s, t).Merging? ==> DoomKept(s, Two(s, t, l, x, r, y, j), t)
    ensures Inv(Two(s, t, l, x, r, y, j))
  {
    hide RangesOk, WriterOk, OwnersOk, JobsOk, LinksOk, Latches, Fills, DeadOrSettled, Booked, Readable, DoomKept;
    var s' := Two(s, t, l, x, r, y, j);
    assert JobOf(s', t) == j && OtherJobs(s, s', t);
    TwoGrown(s, t, l, x, r, y, j);
    assert Changed(s, s', t, {l, r});
    TwoOwns(s, t, l, x, r, y, j);
    if !JobOf(s, t).Merging? {
      DoomSame(s, s', t, {l, r});
    }
    KeepWrite(s, s', t, {l, r});
  }

  lemma TwoGrown(s: State, t: Tid, l: Id, x: Leaf, r: Id, y: Leaf, j: Job)
    requires l in s.leaves && r in s.leaves && May(s.leaves[l], x, t) && May(s.leaves[r], y, t)
    ensures Grown(s, Two(s, t, l, x, r, y, j))
  {
    hide Booked, SameView;
  }

  lemma TwoOwns(s: State, t: Tid, l: Id, x: Leaf, r: Id, y: Leaf, j: Job)
    requires OwnersOk(s) && l in s.leaves && r in s.leaves && Takes(x, l, t, j) && Takes(y, r, t, j) && (l == r ==> x == y)
    requires Latches(j) - {l, r} == Latches(JobOf(s, t)) - {l, r} && Fills(j) - {l, r} == Fills(JobOf(s, t)) - {l, r}
    ensures Owns(Two(s, t, l, x, r, y, j), t)
  {
    hide OwnersOk, Latches, Fills;
    var s' := Two(s, t, l, x, r, y, j);
    var j0 := JobOf(s, t);
    assert JobOf(s', t) == j;
    forall m | m != l && m != r
      ensures m in Latches(j) <==> m in Latches(j0)
      ensures m in Fills(j) <==> m in Fills(j0)
    {
      assert m in Latches(j) <==> m in Latches(j) - {l, r};
      assert m in Latches(j0) <==> m in Latches(j0) - {l, r};
      assert m in Fills(j) <==> m in Fills(j) - {l, r};
      assert m in Fills(j0) <==> m in Fills(j0) - {l, r};
    }
    forall m | m in s'.leaves
      ensures s'.leaves[m].latch == Some(t) <==> m in Latches(j)
      ensures s'.leaves[m].filler == Some(t) <==> m in Fills(j)
    {
      if m != l && m != r {
        Owned(s, t, m);
      }
    }
    forall m | m in Latches(j) + Fills(j) ensures m in s'.leaves {
      if m != l && m != r {
        OwnedIn(s, t, m);
      }
    }
  }

  /** A step that changes one leaf, within its range. */
  lemma KeepOne(s: State, t: Tid, l: Id, x: Leaf, j: Job)
    requires Inv(s) && l in s.leaves && May(s.leaves[l], x, t) && SameRange(s.leaves[l], x) && Takes(x, l, t, j)
    requires Latches(j) - {l} == Latches(JobOf(s, t)) - {l} && Fills(j) - {l} == Fills(JobOf(s, t)) - {l} && !j.Looking?
    requires x.latch.None? && x.filler.None? ==> DeadOrSettled(s, x)
    requires WriterOk(SetJob(SetLeaf(s, l, x), t, j), j) && !JobOf(s, t).Merging?
    ensures Inv(SetJob(SetLeaf(s, l, x), t, j))
  {
    hide RangesOk, WriterOk, OwnersOk, JobsOk, LinksOk, Latches, Fills, DeadOrSettled, May, Takes;
    var s' := SetJob(SetLeaf(s, l, x), t, j);
    assert s' == Two(s, t, l, x, l, x, j);
    assert {l, l} == {l};
    TwoGrown(s, t, l, x, l, x, j);
    GrownSettled(s, s', x);
    RangesKeys(s, s', l);
    KeepTwo(s, t, l, x, l, x, j);
  }

  lemma OwnedIn(s: State, t: Tid, l: Id)
    requires OwnersOk(s) && l in Latches(JobOf(s, t)) + Fills(JobOf(s, t))
    ensures l in s.leaves
  {
  }

  lemma KeepLatch(s: State, t: Tid, l: Id)
    requires Inv(s) && Enabled(s, Latch(t, l))
    ensures Inv(Do(s, Latch(t, l)))
  {
    hide RangesOk, JobsOk, OwnersOk;
    var x := s.leaves[l].(latch := Some(t));
    var j := Holding(l, JobOf(s, t).op);
    Owned(s, t, l);
    KeysInOf(s, l);
    KeysInSame(s.leaves[l], x);
    assert Grown(s, SetJob(SetLeaf(s, l, x), t, j));
    GrownSettled(s, SetJob(SetLeaf(s, l, x), t, j), x);
    KeepOne(s, t, l, x, j);
  }

  lemma KeepSortLatch(s: State, t: Tid, l: Id)
    requires Inv(s) && Enabled(s, SortLatch(t, l))
    ensures Inv(Do(s, SortLatch(t, l)))
  {
    hide RangesOk, JobsOk, OwnersOk;
    var x := s.leaves[l].(latch := Some(t), dirty := true);
    Owned(s, t, l);
    KeysInOf(s, l);
    KeysInSame(s.leaves[l], x);
    assert Grown(s, SetJob(SetLeaf(s, l, x), t, Sorting(l)));
    GrownSettled(s, SetJob(SetLeaf(s, l, x), t, Sorting(l)), x);
    KeepOne(s, t, l, x, Sorting(l));
  }

  /** Steps of a latch holder that change marks of its leaf only. */
  lemma KeepMark(s: State, t: Tid, st: Step)
    requires Inv(s) && Enabled(s, st) && st.t == t && (st.Bump? || st.SortEnd? || st.Unlatch? || st.NoChange?)
    ensures Inv(Do(s, st))
  {
    hide RangesOk, JobsOk, OwnersOk, LinksOk;
    var j := JobOf(s, t);
    MyLeaf(s, t, j.leaf);
    MyReader(s, t);
    var s' := Do(s, st);
    var x, j' := s'.leaves[j.leaf], s'.jobs[t];
    KeysInOf(s, j.leaf);
    KeysInSame(s.leaves[j.leaf], x);
    assert Grown(s, s');
    GrownSettled(s, s', x);
    assert s' == SetJob(SetLeaf(s, j.leaf, x), t, j');
    KeepOne(s, t, j.leaf, x, j');
  }

  lemma KeysInOf(s: State, l: Id)
    requires RangesOk(s) && l in s.leaves
    ensures KeysIn(s.leaves[l])
  {
  }

  lemma KeysInSame(x: Leaf, x': Leaf)
    requires KeysIn(x) && x'.low == x.low && x'.up == x.up
    requires forall k :: k in x'.keys ==> k in x.keys || InRange(x, k)
    ensures KeysIn(x')
  {
    forall q | q in x'.keys ensures InRange(x', q) {
      assert q in x.keys ==> InRange(x, q);
    }
  }

  /** One leaf's keys change within its range. */
  lemma RangesKeys(s: State, s': State, l: Id)
    requires RangesOk(s) && l in s.leaves && s'.leaves.Keys == s.leaves.Keys && SameRange(s.leaves[l], s'.leaves[l])
    requires forall m :: m in s.leaves && m != l ==> s'.leaves[m] == s.leaves[m]
    ensures RangesOk(s')
  {
    hide InRange;
    forall a, b | a in s'.leaves && b in s'.leaves && a != b ensures Apart(s'.leaves[a], s'.leaves[b]) {
      ApartSame(s.leaves[a], s.leaves[b], s'.leaves[a], s'.leaves[b]);
    }
  }

  /** Moving to the sibling with the latch held: the sibling begins below the key too. */
  lemma MoveLands(s: State, t: Tid)
    requires Inv(s) && Enabled(s, Move(t))
    ensures var j := JobOf(s, t); var r := At(s, j.leaf).sib;
            j.leaf in s.leaves && r != j.leaf && Over(s.leaves[r].low, j.op.key) && DeadOrSettled(s, s.leaves[r])
  {
    hide RangesOk, OwnersOk;
    var j := JobOf(s, t);
    MyLeaf(s, t, j.leaf);
    assert WriterOk(s, j);
    var x := s.leaves[j.leaf];
    if x.deleted {
      assert Buried(s, x);
    }
  }

  lemma KeepMove(s: State, t: Tid)
    requires Inv(s) && Enabled(s, Move(t))
    ensures Inv(Do(s, Move(t)))
  {
    hide RangesOk, JobsOk, OwnersOk, LinksOk, DeadOrSettled;
    var s', j := Do(s, Move(t)), JobOf(s, t);
    var l, r := j.leaf, At(s, j.leaf).sib;
    MyLeaf(s, t, l);
    MyReader(s, t);
    MoveLands(s, t);
    Owned(s, t, r);
    var x, y := s.leaves[l].(latch := None), s.leaves[r].(latch := Some(t));
    assert s' == Two(s, t, l, x, r, y, Holding(r, j.op));
    TwoGrown(s, t, l, x, r, y, Holding(r, j.op));
    SettledSame(s, s.leaves[l], x);
    SettledSame(s, s.leaves[r], y);
    GrownSettled(s, s', x);
    GrownSettled(s, s', y);
    RangesSame(s, s');
    KeepTwo(s, t, l, x, r, y, Holding(r, j.op));
  }

  lemma SettledSame(s: State, x: Leaf, x': Leaf)
    requires x'.deleted == x.deleted && x'.low == x.low && x'.up == x.up && x'.hasSib == x.hasSib && x'.high == x.high && x'.sib == x.sib
    ensures DeadOrSettled(s, x') == DeadOrSettled(s, x) && Settled(s, x') == Settled(s, x) && Linked(s, x') == Linked(s, x)
  {
  }

  lemma KeepAddDrop(s: State, t: Tid, st: Step)
    requires Inv(s) && Enabled(s, st) && st.t == t && (st.Add? || st.Drop?)
    ensures Inv(Do(s, st))
  {
    hide RangesOk, JobsOk, OwnersOk, LinksOk;
    var s', j := Do(s, st), JobOf(s, t);
    var l := j.leaf;
    MyLeaf(s, t, l);
    MyReader(s, t);
    var x, j' := s'.leaves[l], s'.jobs[t];
    KeysInOf(s, l);
    KeysInSame(s.leaves[l], x);
    assert Grown(s, s');
    GrownSettled(s, s', x);
    assert s' == SetJob(SetLeaf(s, l, x), t, j');
    KeepOne(s, t, l, x, j');
  }

  // ---------- splitting ----------

  lemma SplitRanges(s: State, s': State, l: Id, r: Id, mid: int)
    requires RangesOk(s) && l in s.leaves && r !in s.leaves && s'.leaves.Keys == s.leaves.Keys + {r} && InRange(s.leaves[l], mid)
    requires s'.leaves[l].keys == LowerKeys(s.leaves[l].keys, mid) && s'.leaves[r].keys == UpperKeys(s.leaves[l].keys, mid)
    requires s'.leaves[l].low == s.leaves[l].low && s'.leaves[l].up == Some(mid) == s'.leaves[r].low && s'.leaves[r].up == s.leaves[l].up
    requires forall m :: m in s.leaves && m != l ==> s'.leaves[m] == s.leaves[m]
    ensures RangesOk(s')
  {
    var x, a, b := s.leaves[l], s'.leaves[l], s'.leaves[r];
    KeysInOf(s, l);
    assert KeysIn(a) && KeysIn(b);
    forall k ensures (InRange(a, k) || InRange(b, k) ==> InRange(x, k)) && !(InRange(a, k) && InRange(b, k)) {
    }
    forall m, n | m in s'.leaves && n in s'.leaves && m != n ensures Apart(s'.leaves[m], s'.leaves[n]) {
      var p, q := if m == r then l else m, if n == r then l else n;
      assert p != q ==> Apart(s.leaves[p], s.leaves[q]);
    }
  }

  lemma SplitMoveDoes(s: State, t: Tid, right: Id, mid: int)
    requires Inv(s) && Enabled(s, SplitMove(t, right, mid))
    ensures var j := JobOf(s, t);
            && j.leaf in s.leaves && s.leaves[j.leaf].bumped && !s.leaves[j.leaf].dirty
            && Settled(s, s.leaves[j.leaf]) && InRange(s.leaves[j.leaf], j.op.key)
            && InRange(s.leaves[j.leaf], mid) && (s.leaves[j.leaf].up.Some? ==> mid < s.leaves[j.leaf].up.value)
            && s.leaves[j.leaf].latch == Some(t) && s.leaves[j.leaf].filler == None
  {
    hide RangesOk, JobsOk, OwnersOk, LinksOk;
    var j := JobOf(s, t);
    MyLeaf(s, t, j.leaf);
    MyReader(s, t);
    KeysInOf(s, j.leaf);
    var x := s.leaves[j.leaf];
    assert InRange(x, mid);
    if exists k :: k in x.keys && mid < k {
      var k :| k in x.keys && mid < k;
      assert InRange(x, k);
    }
  }

  lemma KeepSplitMove(s: State, t: Tid, right: Id, mid: int)
    requires Inv(s) && Enabled(s, SplitMove(t, right, mid))
    ensures Inv(Do(s, SplitMove(t, right, mid)))
  {
    hide RangesOk, JobsOk, OwnersOk, LinksOk, Settled, Linked;
    var s', j := Do(s, SplitMove(t, right, mid)), JobOf(s, t);
    var l := j.leaf;
    SplitMoveDoes(s, t, right, mid);
    SplitRanges(s, s', l, right, mid);
    assert Grown(s, s') && OtherJobs(s, s', t) && JobOf(s', t) == Splitting(l, j.op, right, mid, 0);
    assert Changed(s, s', t, {l, right});
    forall m | m in s'.leaves
      ensures s'.leaves[m].latch == Some(t) <==> m in Latches(JobOf(s', t))
      ensures s'.leaves[m].filler == Some(t) <==> m in Fills(JobOf(s', t))
    {
      if m != right {
        Owned(s, t, m);
      }
    }
    assert Owns(s', t);
    SplitMoveOk(s, s', l, right, mid, j.op.key);
    DoomSame(s, s', t, {l, right});
    KeepWrite(s, s', t, {l, right});
  }

  lemma SplitMoveOk(s: State, s': State, l: Id, r: Id, mid: int, key: int)
    requires Grown(s, s') && l in s.leaves && r in s'.leaves && Settled(s, s.leaves[l]) && s.leaves[l].bumped && !s.leaves[l].dirty
    requires InRange(s.leaves[l], key) && InRange(s.leaves[l], mid) && (s.leaves[l].up.Some? ==> mid < s.leaves[l].up.value)
    requires s'.leaves[l] == s.leaves[l].(keys := s'.leaves[l].keys, up := Some(mid))
    requires s'.leaves[r] == Leaf(s'.leaves[r].keys, s.leaves[l].high, false, s.leaves[l].sib, false, 0, None, s'.leaves[r].filler, false, true, Some(mid), s.leaves[l].up)
    ensures SplitOk(s', s'.leaves[l], s'.leaves[r], key, r, mid, 0)
  {
    hide Grown, StartsAt;
    var x := s.leaves[l];
    if x.up.Some? {
      GrownStart(s, s', x.sib, x.up.value);
    }
  }

  /** The first two marks of a split: the sibling pointer and the high key. */
  lemma KeepSplitMarks(s: State, t: Tid)
    requires Inv(s) && Enabled(s, SplitPhase(t)) && JobOf(s, t).phase < 2
    ensures Inv(Do(s, SplitPhase(t)))
  {
    hide RangesOk, JobsOk, OwnersOk, LinksOk;
    var s', j := Do(s, SplitPhase(t)), JobOf(s, t);
    var l, r := j.leaf, j.right;
    MyLeaf(s, t, l);
    MyFill(s, t, r);
    MyReader(s, t);
    var x, j' := s'.leaves[l], s'.jobs[t];
    KeysInOf(s, l);
    KeysInSame(s.leaves[l], x);
    assert s' == SetJob(SetLeaf(s, l, x), t, j');
    assert Grown(s, s');
    GrownSettled(s, s', s.leaves[r]);
    KeepOne(s, t, l, x, j');
  }

  lemma SplitEndOk(s: State, s': State, t: Tid, l: Id, r: Id, mid: int, key: int)
    requires Grown(s, s') && l in s.leaves && r in s.leaves && l != r && SplitOk(s, s.leaves[l], s.leaves[r], key, r, mid, 2)
    requires s'.leaves[l] == s.leaves[l].(hasSib := true)
    requires s'.leaves[r] == s.leaves[r].(hasSib := s.leaves[l].hasSib, filler := s'.leaves[r].filler, dirty := s'.leaves[r].dirty)
    ensures Linked(s', s'.leaves[l]) && Settled(s', s'.leaves[r]) && s'.leaves[l].sib == r
    ensures s'.leaves[r].filler.None? ==> Settled(s', s'.leaves[l])
    ensures if mid < key then InRange(s'.leaves[r], key) else InRange(s'.leaves[l], key)
  {
    var y := s.leaves[r];
    if y.up.Some? {
      GrownStart(s, s', y.sib, y.up.value);
    }
  }

  lemma KeepSplitEnd(s: State, t: Tid)
    requires Inv(s) && Enabled(s, SplitPhase(t)) && JobOf(s, t).phase >= 2
    ensures Inv(Do(s, SplitPhase(t)))
  {
    hide RangesOk, JobsOk, OwnersOk, LinksOk, Settled, Linked, StartsAt, Wide;
    var s', j := Do(s, SplitPhase(t)), JobOf(s, t);
    var l, r := j.leaf, j.right;
    MyLeaf(s, t, l);
    MyFill(s, t, r);
    MyReader(s, t);
    var x, y, j' := s'.leaves[l], s'.leaves[r], s'.jobs[t];
    assert s' == Two(s, t, l, x, r, y, j');
    TwoGrown(s, t, l, x, r, y, j');
    SplitEndOk(s, s', t, l, r, j.mid, j.op.key);
    RangesSame(s, s');
    KeepTwo(s, t, l, x, r, y, j');
  }

  lemma KeepAddSplit(s: State, t: Tid)
    requires Inv(s) && Enabled(s, AddSplit(t))
    ensures Inv(Do(s, AddSplit(t)))
  {
    hide RangesOk, JobsOk, OwnersOk, LinksOk;
    var s', j := Do(s, AddSplit(t)), JobOf(s, t);
    var l, r := j.leaf, j.target;
    MyLeaf(s, t, l);
    if l != r {
      MyFill(s, t, r);
    }
    MyReader(s, t);
    var y, j' := s'.leaves[r], s'.jobs[t];
    KeysInOf(s, r);
    KeysInSame(s.leaves[r], y);
    assert s' == SetJob(SetLeaf(s, r, y), t, j');
    assert Grown(s, s');
    SettledSame(s, s.leaves[r], y);
    GrownSettled(s, s', y);
    KeepOne(s, t, r, y, j');
  }

  // ---------- merging ----------

  lemma KeepMergeLatch(s: State, t: Tid)
    requires Inv(s) && Enabled(s, MergeLatch(t))
    ensures Inv(Do(s, MergeLatch(t)))
  {
    hide RangesOk, JobsOk, OwnersOk;
    var s', j := Do(s, MergeLatch(t)), JobOf(s, t);
    MyLeaf(s, t, j.leaf);
    MyReader(s, t);
    var r := s.leaves[j.leaf].sib;
    Owned(s, t, r);
    var y, j' := s'.leaves[r], s'.jobs[t];
    KeysInOf(s, r);
    KeysInSame(s.leaves[r], y);
    assert s' == SetJob(SetLeaf(s, r, y), t, j');
    assert Grown(s, s');
    GrownSettled(s, s', s.leaves[r]);
    GrownSettled(s, s', s.leaves[j.leaf]);
    SettledSame(s', s.leaves[r], y);
    KeepOne(s, t, r, y, j');
  }

  /** The leaf that a merge buries is latched by it until it is buried. */
  lemma MergeDoom(s: State, s': State, t: Tid)
    requires Enabled(s, MergePhase(t)) && s' == Do(s, MergePhase(t)) && JobOf(s, t).leaf in s.leaves && JobOf(s, t).right in s.leaves
    requires JobOf(s, t).leaf != JobOf(s, t).right
    requires s.leaves[JobOf(s, t).right].latch == Some(t) && (JobOf(s, t).phase >= 6 ==> s.leaves[JobOf(s, t).right].deleted)
    ensures DoomKept(s, s', t)
  {
    var j := JobOf(s, t);
    forall l | Doomed(s, l) ensures Doomed(s', l) || At(s', l).deleted {
      var u := At(s, l).latch.value;
      if u == t {
        assert l == j.right;
      } else {
        assert JobOf(s', u) == JobOf(s, u) && At(s', l).latch == Some(u);
      }
    }
  }

  lemma MergeRanges(s: State, s': State, l: Id, r: Id)
    requires RangesOk(s) && l in s.leaves && r in s.leaves && l != r && s'.leaves.Keys == s.leaves.Keys
    requires s.leaves[l].up.Some? && s.leaves[r].low == s.leaves[l].up && Wide(s.leaves[r]) && Wide(s.leaves[l])
    requires s'.leaves[l].low == s.leaves[l].low && s'.leaves[l].up == s.leaves[r].up && s'.leaves[l].keys == s.leaves[l].keys + s.leaves[r].keys
    requires s'.leaves[r].low == s.leaves[r].low == s'.leaves[r].up && s'.leaves[r].keys == {}
    requires forall m :: m in s.leaves && m != l && m != r ==> s'.leaves[m] == s.leaves[m]
    ensures RangesOk(s')
  {
    var x, y, a, b := s.leaves[l], s.leaves[r], s'.leaves[l], s'.leaves[r];
    KeysInOf(s, l);
    KeysInOf(s, r);
    forall k ensures !InRange(b, k) && (InRange(a, k) <==> InRange(x, k) || InRange(y, k)) {
    }
    forall k | k in a.keys ensures InRange(a, k) {
      assert k in x.keys ==> InRange(x, k);
      assert k in y.keys ==> InRange(y, k);
    }
    forall m, n | m in s'.leaves && n in s'.leaves && m != n ensures Apart(s'.leaves[m], s'.leaves[n]) {
      assert m != l ==> Apart(s.leaves[m], s.leaves[l]) && Apart(s.leaves[l], s.leaves[m]);
      assert m != r ==> Apart(s.leaves[m], s.leaves[r]) && Apart(s.leaves[r], s.leaves[m]);
      assert n != l ==> Apart(s.leaves[n], s.leaves[l]) && Apart(s.leaves[l], s.leaves[n]);
      assert n != r ==> Apart(s.leaves[n], s.leaves[r]) && Apart(s.leaves[r], s.leaves[n]);
      assert Apart(s.leaves[m], s.leaves[n]);
    }
  }

  lemma MergeMoveOk(s: State, s': State, l: Id, r: Id)
    requires Grown(s, s') && l in s.leaves && r in s.leaves && l != r && MergeOk(s, s.leaves[l], s.leaves[r], l, r, 0)
    requires s'.leaves[l] == s.leaves[l].(keys := s'.leaves[l].keys, up := s.leaves[r].up)
    requires s'.leaves[r] == s.leaves[r].(keys := {}, up := s.leaves[r].low, dirty := true)
    ensures MergeOk(s', s'.leaves[l], s'.leaves[r], l, r, 1)
  {
    var y := s.leaves[r];
    if y.up.Some? {
      GrownStart(s, s', y.sib, y.up.value);
    }
  }

  /** The keys of the right leaf move over, and with them its range. */
  lemma KeepMergeMove(s: State, t: Tid)
    requires Inv(s) && Enabled(s, MergePhase(t)) && JobOf(s, t).phase == 0
    ensures Inv(Do(s, MergePhase(t)))
  {
    hide RangesOk, JobsOk, OwnersOk, LinksOk;
    var s', j := Do(s, MergePhase(t)), JobOf(s, t);
    var l, r := j.leaf, j.right;
    MyLeaf(s, t, l);
    MyLeaf(s, t, r);
    MyReader(s, t);
    var x, y, j' := s'.leaves[l], s'.leaves[r], s'.jobs[t];
    assert s' == Two(s, t, l, x, r, y, j');
    TwoGrown(s, t, l, x, r, y, j');
    MergeRanges(s, s', l, r);
    MergeMoveOk(s, s', l, r);
    MergeDoom(s, s', t);
    KeepTwo(s, t, l, x, r, y, j');
  }

  lemma MergeMarksOk(s: State, s': State, l: Id, r: Id, phase: nat)
    requires Grown(s, s') && l in s.leaves && r in s.leaves && l != r && 1 <= phase <= 4 && MergeOk(s, s.leaves[l], s.leaves[r], l, r, phase)
    requires s'.leaves[l] == (var x, y := s.leaves[l], s.leaves[r];
      if phase == 1 then x.(high := y.high) else if phase == 2 then x.(sib := y.sib) else if phase == 4 then x.(hasSib := y.hasSib) else x)
    requires s'.leaves[r] == if phase == 3 then s.leaves[r].(sib := l) else s.leaves[r]
    ensures MergeOk(s', s'.leaves[l], s'.leaves[r], l, r, phase + 1)
  {
    hide Grown, StartsAt;
    var x, y := s.leaves[l], s.leaves[r];
    if x.up.Some? {
      if phase <= 3 {
        GrownStart(s, s', y.sib, x.up.value);
      }
      if phase >= 3 {
        GrownStart(s, s', x.sib, x.up.value);
      }
    }
  }

  lemma MergeMarksTwo(s: State, s': State, t: Tid, l: Id, r: Id)
    requires Enabled(s, MergePhase(t)) && 1 <= JobOf(s, t).phase <= 4 && s' == Do(s, MergePhase(t))
    requires l == JobOf(s, t).leaf && r == JobOf(s, t).right && l in s.leaves && r in s.leaves && l != r
    ensures l in s'.leaves && r in s'.leaves && t in s'.jobs
    ensures s' == Two(s, t, l, s'.leaves[l], r, s'.leaves[r], s'.jobs[t])
    ensures s'.jobs[t] == Merging(l, r, JobOf(s, t).phase + 1)
    ensures s'.leaves[l] == (var x, y, phase := s.leaves[l], s.leaves[r], JobOf(s, t).phase;
      if phase == 1 then x.(high := y.high) else if phase == 2 then x.(sib := y.sib) else if phase == 4 then x.(hasSib := y.hasSib) else x)
    ensures s'.leaves[r] == if JobOf(s, t).phase == 3 then s.leaves[r].(sib := l) else s.leaves[r]
  {
  }

  /** The bound, the sibling, the back pointer and the sibling mark. */
  lemma KeepMergeMarks(s: State, t: Tid)
    requires Inv(s) && Enabled(s, MergePhase(t)) && 1 <= JobOf(s, t).phase <= 4
    ensures Inv(Do(s, MergePhase(t)))
  {
    hide RangesOk, JobsOk, OwnersOk, LinksOk, StartsAt, Settled, Do;
    var s', j := Do(s, MergePhase(t)), JobOf(s, t);
    var l, r := j.leaf, j.right;
    MyLeaf(s, t, l);
    MyLeaf(s, t, r);
    MyReader(s, t);
    MergeMarksTwo(s, s', t, l, r);
    var x, y, j' := s'.leaves[l], s'.leaves[r], s'.jobs[t];
    TwoGrown(s, t, l, x, r, y, j');
    RangesSame(s, s');
    MergeMarksOk(s, s', l, r, j.phase);
    MergeDoom(s, s', t);
    KeepTwo(s, t, l, x, r, y, j');
  }

  lemma MergeLateOk(s: State, s': State, l: Id, r: Id, phase: nat)
    requires Grown(s, s') && l in s.leaves && r in s.leaves && l != r && 6 <= phase <= 7 && MergeOk(s, s.leaves[l], s.leaves[r], l, r, phase)
    requires s'.leaves[l] == s.leaves[l]
    requires s'.leaves[r] == if phase == 6 then s.leaves[r].(version := s.leaves[r].version + 1, dirty := false, bumped := true)
                                      else s.leaves[r].(latch := None, bumped := false)
    ensures phase == 6 ==> MergeOk(s', s'.leaves[l], s'.leaves[r], l, r, 7)
    ensures phase == 7 ==> Settled(s', s'.leaves[l])
  {
    hide Grown, StartsAt;
    var x := s.leaves[l];
    if x.up.Some? {
      GrownStart(s, s', x.sib, x.up.value);
    }
  }

  /** Raising the deleted leaf's version and letting go of it. */
  lemma KeepMergeLate(s: State, t: Tid)
    requires Inv(s) && Enabled(s, MergePhase(t)) && JobOf(s, t).phase >= 6
    ensures Inv(Do(s, MergePhase(t)))
  {
    hide RangesOk, JobsOk, OwnersOk, LinksOk, StartsAt, Settled;
    var s', j := Do(s, MergePhase(t)), JobOf(s, t);
    var l, r := j.leaf, j.right;
    MyLeaf(s, t, l);
    MyLeaf(s, t, r);
    MyReader(s, t);
    var x, y, j' := s'.leaves[l], s'.leaves[r], s'.jobs[t];
    assert s' == Two(s, t, l, x, r, y, j');
    TwoGrown(s, t, l, x, r, y, j');
    RangesSame(s, s');
    MergeLateOk(s, s', l, r, j.phase);
    MergeDoom(s, s', t);
    KeepTwo(s, t, l, x, r, y, j');
  }

  /** Nobody but the merging thread still has the dying leaf for a right neighbour. */
  lemma DyingUnlinked(s: State, s': State, l: Id, r: Id)
    requires RangesOk(s) && l in s.leaves && r in s.leaves && l != r && s'.leaves.Keys == s.leaves.Keys
    requires s.leaves[r].low.Some? && InRange(s.leaves[l], s.leaves[r].low.value)
    requires forall m :: m in s.leaves && m != r ==> s'.leaves[m] == s.leaves[m]
    ensures NeighboursLive(s, s', {l, r})
  {
    var w := s.leaves[r].low.value;
    forall y, z | y in s.leaves && y !in {l, r} && Wide(s.leaves[y]) && s.leaves[y].up.Some? && StartsAt(s, z, s.leaves[y].up.value) && z in s'.leaves
      ensures !s'.leaves[z].deleted
    {
      assert Apart(s.leaves[l], s.leaves[y]);
      assert InRange(s.leaves[y], s.leaves[y].up.value);
      assert s.leaves[y].up.value != w;
    }
  }

  lemma MergeBuryOk(s: State, s': State, l: Id, r: Id)
    requires l in s.leaves && r in s.leaves && l != r && MergeOk(s, s.leaves[l], s.leaves[r], l, r, 5)
    requires s'.leaves == s.leaves[r := s.leaves[r].(deleted := true)] && s.leaves[l].filler.None?
    ensures MergeOk(s', s'.leaves[l], s'.leaves[r], l, r, 6) && Buried(s', s'.leaves[r])
  {
  }

  /** What marking the right leaf deleted does. */
  lemma BuryDoes(s: State, t: Tid)
    requires Inv(s) && Enabled(s, MergePhase(t)) && JobOf(s, t).phase == 5
    ensures var s', j := Do(s, MergePhase(t)), JobOf(s, t);
      && j.right in s.leaves && j.leaf in s.leaves && s'.leaves == s.leaves[j.right := s.leaves[j.right].(deleted := true)]
      && JobOf(s', t) == Merging(j.leaf, j.right, 6) && OtherJobs(s, s', t)
  {
    hide RangesOk, JobsOk, LinksOk;
    MyLeaf(s, t, JobOf(s, t).leaf);
    MyLeaf(s, t, JobOf(s, t).right);
  }

  lemma BuryChanges(s: State, t: Tid)
    requires Inv(s) && Enabled(s, MergePhase(t)) && JobOf(s, t).phase == 5
    ensures Changed(s, Do(s, MergePhase(t)), t, {JobOf(s, t).leaf, JobOf(s, t).right})
  {
    hide RangesOk, JobsOk, OwnersOk, LinksOk, Buried, Booked, StartsAt, Settled, Do;
    BuryDoes(s, t);
    MyLeaf(s, t, JobOf(s, t).leaf);
    MyLeaf(s, t, JobOf(s, t).right);
    MyReader(s, t);
  }

  /** Marking the right leaf deleted. */
  lemma KeepMergeBury(s: State, t: Tid)
    requires Inv(s) && Enabled(s, MergePhase(t)) && JobOf(s, t).phase == 5
    ensures Inv(Do(s, MergePhase(t)))
  {
    hide RangesOk, JobsOk, OwnersOk, LinksOk, NeighboursLive, Buried, Booked, StartsAt, Settled, Do, DoomKept, Changed;
    var s', j := Do(s, MergePhase(t)), JobOf(s, t);
    var l, r := j.leaf, j.right;
    BuryDoes(s, t);
    MyLeaf(s, t, l);
    MyLeaf(s, t, r);
    MyReader(s, t);
    RangesSame(s, s');
    DyingUnlinked(s, s', l, r);
    BuryChanges(s, t);
    MergeBuryOk(s, s', l, r);
    BuryOwns(s, s', t);
    MergeDoom(s, s', t);
    StepKeeps(s, s', t, {l, r});
  }

  lemma BuryOwns(s: State, s': State, t: Tid)
    requires Inv(s) && Enabled(s, MergePhase(t)) && JobOf(s, t).phase == 5 && s' == Do(s, MergePhase(t))
    ensures Owns(s', t) && var j := JobOf(s, t); j.leaf in s'.leaves && j.right in s'.leaves && Booked(s'.leaves[j.leaf]) && Booked(s'.leaves[j.right])
  {
    hide RangesOk, JobsOk, OwnersOk, LinksOk, WriterOk;
    var j := JobOf(s, t);
    MyLeaf(s, t, j.leaf);
    MyLeaf(s, t, j.right);
    forall m | m in s'.leaves
      ensures s'.leaves[m].latch == Some(t) <==> m in Latches(JobOf(s', t))
      ensures s'.leaves[m].filler == Some(t) <==> m in Fills(JobOf(s', t))
    {
      Owned(s, t, m);
    }
  }
}
