/**
 What every step of the read protocol keeps: who holds which leaf, disjoint key ranges, links between
 neighbours, the half-done work of each writer, and what each lookup may conclude from an unchanged version.
 */
module ReadInvariant {
  import opened Options
  import opened ReadProtocol

  function Latches(j: Job): set<Id> {
    match j
    case Idle => {}
    case Looking(_, _, _, _, _, _) => {}
    case Wanting(_) => {}
    case Merging(l, r, _) => {l, r}
    case _ => {j.leaf}
  }

  function Fills(j: Job): set<Id> {
    match j
    case Splitting(_, _, r, _, _) => {r}
    case Adding(l, _, r) => if l != r then {r} else {}
    case _ => {}
  }

  ghost predicate OwnersOk(s: State) {
    && (forall l, t :: l in s.leaves ==> (s.leaves[l].latch == Some(t) <==> l in Latches(JobOf(s, t))))
    && (forall l, t :: l in s.leaves ==> (s.leaves[l].filler == Some(t) <==> l in Fills(JobOf(s, t))))
    && (forall t, l :: l in Latches(JobOf(s, t)) + Fills(JobOf(s, t)) ==> l in s.leaves)
    && (forall l :: l in s.leaves ==> Booked(s.leaves[l]))
  }

  /** A leaf being filled is unlatched; one nobody works on is in order. */
  predicate Booked(x: Leaf) {
    && (x.filler.Some? ==> x.latch.None? && x.dirty && !x.bumped)
    && (x.latch.None? && x.filler.None? ==> !x.bumped && !x.dirty)
  }

  ghost predicate KeysIn(x: Leaf) {
    forall k :: k in x.keys ==> InRange(x, k)
  }

  ghost predicate Apart(x: Leaf, y: Leaf) {
    forall k :: !(InRange(x, k) && InRange(y, k))
  }

  ghost predicate RangesOk(s: State) {
    && (forall l :: l in s.leaves ==> KeysIn(s.leaves[l]))
    && (forall l, m :: l in s.leaves && m in s.leaves && l != m ==> Apart(s.leaves[l], s.leaves[m]))
  }

  /** The leaf z is the live leaf whose keys begin above w. */
  predicate StartsAt(s: State, z: Id, w: int) {
    z in s.leaves && s.leaves[z].low == Some(w) && !s.leaves[z].deleted && s.leaves[z].filler.None?
  }

  /** A live leaf whose high key and sibling say what its range says, up to the state of the sibling. */
  predicate Linked(s: State, x: Leaf) {
    && !x.deleted && Wide(x) && (x.hasSib <==> x.up.Some?)
    && (x.up.Some? ==> x.high == x.up.value)
  }

  predicate Settled(s: State, x: Leaf) {
    Linked(s, x) && (x.up.Some? ==> StartsAt(s, x.sib, x.up.value))
  }

  predicate Below(a: Option<int>, b: Option<int>) {
    b.Some? && (a.None? || a.value < b.value)
  }

  /** A deleted leaf points back to a leaf that begins further left. */
  predicate Buried(s: State, x: Leaf) {
    x.sib in s.leaves && s.leaves[x.sib].filler.None? && Below(s.leaves[x.sib].low, x.low)
  }

  predicate DeadOrSettled(s: State, x: Leaf) {
    x.deleted || Settled(s, x)
  }

  ghost predicate LinksOk(s: State) {
    && (forall l :: l in s.leaves && s.leaves[l].latch.None? && s.leaves[l].filler.None? ==> DeadOrSettled(s, s.leaves[l]))
    && (forall l :: l in s.leaves && s.leaves[l].deleted ==> Buried(s, s.leaves[l]))
  }

  predicate SplitOk(s: State, x: Leaf, y: Leaf, key: int, right: Id, mid: int, phase: nat) {
    && phase <= 2 && x.bumped && !x.dirty && !x.deleted && !y.deleted && Wide(x) && Wide(y)
    && x.up == Some(mid) == y.low && !y.hasSib && Over(x.low, key) && (y.up.None? || key <= y.up.value)
    && (y.up.Some? ==> y.high == y.up.value && StartsAt(s, y.sib, y.up.value))
    && (x.hasSib <==> y.up.Some?)
    && (phase >= 1 ==> x.sib == right) && (phase >= 2 ==> x.high == mid)
  }

  predicate MergeOk(s: State, x: Leaf, y: Leaf, left: Id, right: Id, phase: nat) {
    && phase <= 7 && x.bumped && !x.dirty && !x.deleted && Wide(x)
    && (phase == 0 ==> Settled(s, x) && x.up.Some? && x.sib == right && Settled(s, y) && !y.bumped && !y.dirty)
    && (phase >= 1 ==>
      && y.keys == {} && y.low.Some? && y.up == y.low && Below(x.low, y.low) && (x.up.Some? ==> y.low.value < x.up.value)
      && (y.hasSib <==> x.up.Some?)
      && (phase <= 3 && x.up.Some? ==> y.high == x.up.value && StartsAt(s, y.sib, x.up.value))
      && (phase >= 2 && x.up.Some? ==> x.high == x.up.value)
      && (phase >= 3 && x.up.Some? ==> StartsAt(s, x.sib, x.up.value))
      && (phase >= 4 ==> y.sib == left)
      && (phase >= 5 ==> x.hasSib == y.hasSib)
      && (y.deleted <==> phase >= 6)
      && (phase <= 6 ==> y.dirty && !y.bumped) && (phase == 7 ==> !y.dirty && y.bumped))
  }

  /** Where a writer stands. */
  predicate WriterOk(s: State, j: Job) {
    match j
    case Idle => true
    case Looking(_, _, _, _, _, _) => true
    case Wanting(_) => true
    case Holding(l, op) => !At(s, l).bumped && !At(s, l).dirty && Over(At(s, l).low, op.key) && DeadOrSettled(s, At(s, l))
    case Changing(l, op) => At(s, l).bumped && !At(s, l).dirty && Settled(s, At(s, l)) && InRange(At(s, l), op.key)
    case Splitting(l, op, r, mid, phase) => l != r && SplitOk(s, At(s, l), At(s, r), op.key, r, mid, phase)
    case Adding(l, op, r) =>
      && At(s, l).bumped && !At(s, l).dirty && Linked(s, At(s, l)) && InRange(At(s, r), op.key)
      && (l == r ==> Settled(s, At(s, l)))
      && (l != r ==> At(s, l).sib == r && At(s, l).up == At(s, r).low && Settled(s, At(s, r)))
    case Merging(l, r, phase) => l != r && MergeOk(s, At(s, l), At(s, r), l, r, phase)
    case Sorting(l) => At(s, l).dirty && !At(s, l).bumped && DeadOrSettled(s, At(s, l))
    case Closing(l, removed) => !At(s, l).dirty && DeadOrSettled(s, At(s, l)) && (removed ==> At(s, l).bumped && Settled(s, At(s, l)))
  }

  /** What a lookup knows of its leaf at a stage, as long as the version has not moved. */
  predicate Knows(x: Leaf, k: int, stage: Stage, gone: bool) {
    && (stage.Live? || stage.HasSibling? || stage.GoRight? || stage.Scanning? || stage.Missed? ==> !x.deleted)
    && (stage.HasSibling? ==> x.hasSib)
    && (stage.Scanning? || stage.Missed? ==> x.up.None? || k <= x.up.value)
    && (stage.Missed? ==> k !in x.keys || gone)
  }

  /** The same at a leaf that a split still fills: its slots can be trusted. */
  predicate KnowsFilling(x: Leaf, k: int, stage: Stage, gone: bool) {
    && !stage.GoLeft? && !x.deleted && (x.up.None? || k <= x.up.value || x.hasSib)
    && (stage.HasSibling? ==> x.hasSib)
    && (stage.Scanning? || stage.Missed? ==> x.up.None? || k <= x.up.value)
    && (stage.Missed? ==> gone)
  }

  predicate ReaderOn(x: Leaf, k: int, seen: nat, stage: Stage, gone: bool) {
    && Over(x.low, k)
    && if x.filler.Some? then KnowsFilling(x, k, stage, gone) && (!stage.Arrived? ==> seen == x.version)
       else
         && (stage.GoLeft? ==> x.deleted)
         && (!stage.Arrived? ==>
              && seen <= x.version && (x.bumped ==> seen < x.version)
              && (seen == x.version && !x.dirty ==> Knows(x, k, stage, gone)))
  }

  /** A lookup at a leaf that begins too far right and is deleted, or will be before the lookup can read its version. */
  predicate Strayed(s: State, l: Id, stage: Stage) {
    (At(s, l).deleted && (stage.Arrived? || stage.Begun? || stage.GoLeft?)) || (Doomed(s, l) && stage.Arrived?)
  }

  /** A lookup that has gone straight is at a leaf that begins below its key, or that will send it on. */
  predicate ReaderOk(s: State, j: Job) {
    j.Looking? && j.straight ==>
      j.node in s.leaves && (ReaderOn(s.leaves[j.node], j.key, j.seen, j.stage, j.gone) || Strayed(s, j.node, j.stage))
  }

  ghost predicate JobsOk(s: State) {
    forall t :: WriterOk(s, JobOf(s, t)) && ReaderOk(s, JobOf(s, t))
  }

  ghost predicate Inv(s: State) {
    OwnersOk(s) && RangesOk(s) && LinksOk(s) && JobsOk(s)
  }

  // ---------- how a step keeps it ----------

  ghost predicate OtherJobs(s: State, s': State, t: Tid) {
    forall u :: u != t ==> JobOf(s', u) == JobOf(s, u)
  }

  predicate SameView(x: Leaf, x': Leaf) {
    !x.dirty && x'.keys == x.keys && x'.deleted == x.deleted && x'.hasSib == x.hasSib && x'.up == x.up
  }

  /** What lookups at the leaf know survives the change. */
  predicate Readable(x: Leaf, x': Leaf) {
    && x'.low == x.low && (x.deleted ==> x'.deleted)
    && (x.filler.None? ==>
      && x'.filler.None?
      && (x'.version > x.version || (x'.version == x.version && (x'.bumped ==> x.bumped) && (x.bumped || x'.dirty || SameView(x, x')))))
    && (x.filler.Some? ==>
      && x'.version == x.version && x'.up == x.up && x'.deleted == x.deleted && (x.hasSib ==> x'.hasSib)
      && (x'.filler.None? ==> !x'.bumped))
  }

  lemma ReaderKept(x: Leaf, x': Leaf, k: int, seen: nat, stage: Stage, gone: bool)
    requires ReaderOn(x, k, seen, stage, gone) && Readable(x, x')
    ensures ReaderOn(x', k, seen, stage, gone)
  {
  }

  /** The leaf that a merge is to bury stays latched by it until it is buried. */
  ghost predicate DoomKept(s: State, s': State, t: Tid) {
    forall l :: Doomed(s, l) ==> Doomed(s', l) || At(s', l).deleted
  }

  predicate Mine(o: Option<Tid>, t: Tid) {
    o == None || o == Some(t)
  }

  /** The leaf is in order after the change, for everyone. */
  predicate LeafKept(s': State, x: Leaf) {
    && Booked(x) && (x.latch.None? && x.filler.None? ==> DeadOrSettled(s', x)) && (x.deleted ==> Buried(s', x))
  }

  /** Thread t has changed the touched leaves, which are its own, new or free, and its own job. */
  ghost predicate Changed(s: State, s': State, t: Tid, touched: set<Id>) {
    && OtherJobs(s, s', t) && s.leaves.Keys <= s'.leaves.Keys && touched <= s'.leaves.Keys
    && (forall l :: l in s'.leaves && l !in touched ==> l in s.leaves && s'.leaves[l] == s.leaves[l])
    && (forall l :: l in touched && l in s.leaves ==>
      && Mine(s.leaves[l].latch, t) && Mine(s.leaves[l].filler, t) && Mine(s'.leaves[l].latch, t) && Mine(s'.leaves[l].filler, t)
      && Readable(s.leaves[l], s'.leaves[l]))
    && (forall l :: l in touched && l !in s.leaves ==> Mine(s'.leaves[l].latch, t) && Mine(s'.leaves[l].filler, t))
  }

  /** No leaf that others count on as their right neighbour has died. */
  ghost predicate NeighboursLive(s: State, s': State, touched: set<Id>) {
    forall y, z ::
      (y in s.leaves && y !in touched && Wide(s.leaves[y]) && s.leaves[y].up.Some? && StartsAt(s, z, s.leaves[y].up.value)) ==>
        z in s'.leaves ==> !s'.leaves[z].deleted
  }

  ghost predicate Owns(s': State, t: Tid) {
    && (forall l :: l in s'.leaves ==> (s'.leaves[l].latch == Some(t) <==> l in Latches(JobOf(s', t))))
    && (forall l :: l in s'.leaves ==> (s'.leaves[l].filler == Some(t) <==> l in Fills(JobOf(s', t))))
    && Latches(JobOf(s', t)) + Fills(JobOf(s', t)) <= s'.leaves.Keys
  }

  lemma StartsKept(s: State, s': State, t: Tid, touched: set<Id>, y: Id, z: Id)
    requires Changed(s, s', t, touched) && NeighboursLive(s, s', touched)
    requires y in s.leaves && y !in touched && Wide(s.leaves[y]) && s.leaves[y].up.Some? && StartsAt(s, z, s.leaves[y].up.value)
    ensures StartsAt(s', z, s.leaves[y].up.value)
  {
  }

  lemma SettledKept(s: State, s': State, t: Tid, touched: set<Id>, y: Id)
    requires Changed(s, s', t, touched) && NeighboursLive(s, s', touched)
    requires y in s.leaves && y !in touched && DeadOrSettled(s, s.leaves[y])
    ensures DeadOrSettled(s', s.leaves[y])
  {
    hide Changed, NeighboursLive;
    var x := s.leaves[y];
    if !x.deleted && x.up.Some? {
      StartsKept(s, s', t, touched, y, x.sib);
    }
  }

  lemma BuriedKept(s: State, s': State, t: Tid, touched: set<Id>, y: Id)
    requires Changed(s, s', t, touched) && y in s.leaves && Buried(s, s.leaves[y])
    ensures Buried(s', s.leaves[y])
  {
  }

  lemma OwnersKept(s: State, s': State, t: Tid, touched: set<Id>)
    requires OwnersOk(s) && Changed(s, s', t, touched) && Owns(s', t)
    requires forall l :: l in touched ==> Booked(s'.leaves[l])
    ensures OwnersOk(s')
  {
    hide Latches, Fills, JobOf, Booked, Readable;
    forall l, u | l in s'.leaves
      ensures s'.leaves[l].latch == Some(u) <==> l in Latches(JobOf(s', u))
      ensures s'.leaves[l].filler == Some(u) <==> l in Fills(JobOf(s', u))
    {
      if u != t {
        assert JobOf(s', u) == JobOf(s, u);
        if l !in s.leaves && l in Latches(JobOf(s, u)) + Fills(JobOf(s, u)) {
          assert false;
        }
      }
    }
    forall u, l | l in Latches(JobOf(s', u)) + Fills(JobOf(s', u)) ensures l in s'.leaves {
      if u != t {
        assert JobOf(s', u) == JobOf(s, u);
      }
    }
  }

  /** A leaf another thread works on is untouched. */
  lemma OthersLeaf(s: State, s': State, t: Tid, touched: set<Id>, u: Tid, l: Id)
    requires OwnersOk(s) && Changed(s, s', t, touched) && u != t && l in Latches(JobOf(s, u)) + Fills(JobOf(s, u))
    ensures l in s.leaves && l !in touched && At(s', l) == At(s, l) == s.leaves[l]
  {
    hide Latches, Fills, JobOf, Booked, Readable;
    assert l in s.leaves;
  }

  lemma WriterKept(s: State, s': State, t: Tid, touched: set<Id>, u: Tid)
    requires OwnersOk(s) && Changed(s, s', t, touched) && NeighboursLive(s, s', touched) && u != t && WriterOk(s, JobOf(s, u))
    ensures WriterOk(s', JobOf(s, u))
  {
    hide Changed, NeighboursLive, OwnersOk;
    var j := JobOf(s, u);
    if Latches(j) != {} {
      OthersLeaf(s, s', t, touched, u, j.leaf);
      if DeadOrSettled(s, At(s, j.leaf)) {
        SettledKept(s, s', t, touched, j.leaf);
      }
      if j.Splitting? {
        OthersLeaf(s, s', t, touched, u, j.right);
        if At(s, j.right).up.Some? {
          StartsKept(s, s', t, touched, j.right, At(s, j.right).sib);
        }
      } else if j.Adding? {
        if j.leaf != j.target {
          OthersLeaf(s, s', t, touched, u, j.target);
          SettledKept(s, s', t, touched, j.target);
        }
      } else if j.Merging? {
        MergeKept(s, s', t, touched, u);
      }
    }
  }

  lemma MergeKept(s: State, s': State, t: Tid, touched: set<Id>, u: Tid)
    requires OwnersOk(s) && Changed(s, s', t, touched) && NeighboursLive(s, s', touched) && u != t
    requires JobOf(s, u).Merging? && WriterOk(s, JobOf(s, u))
    ensures WriterOk(s', JobOf(s, u))
  {
    hide Changed, NeighboursLive, OwnersOk;
    var j := JobOf(s, u);
    OthersLeaf(s, s', t, touched, u, j.leaf);
    OthersLeaf(s, s', t, touched, u, j.right);
    if j.phase == 0 {
      SettledKept(s, s', t, touched, j.leaf);
      SettledKept(s, s', t, touched, j.right);
    } else if At(s, j.leaf).up.Some? {
      if j.phase <= 3 {
        StartsKept(s, s', t, touched, j.leaf, At(s, j.right).sib);
      }
      if j.phase >= 3 {
        StartsKept(s, s', t, touched, j.leaf, At(s, j.leaf).sib);
      }
    }
  }

  lemma StepKeeps(s: State, s': State, t: Tid, touched: set<Id>)
    requires Inv(s) && Changed(s, s', t, touched) && NeighboursLive(s, s', touched) && Owns(s', t)
    requires forall l :: l in touched ==> LeafKept(s', s'.leaves[l])
    requires RangesOk(s') && WriterOk(s', JobOf(s', t)) && ReaderOk(s', JobOf(s', t)) && DoomKept(s, s', t)
    ensures Inv(s')
  {
    hide Owns, RangesOk, WriterOk, NeighboursLive, OwnersOk, DoomKept, ReaderOk;
    OwnersKept(s, s', t, touched);
    forall l | l in s'.leaves && s'.leaves[l].latch.None? && s'.leaves[l].filler.None? ensures DeadOrSettled(s', s'.leaves[l]) {
      if l !in touched {
        SettledKept(s, s', t, touched, l);
      }
    }
    forall l | l in s'.leaves && s'.leaves[l].deleted ensures Buried(s', s'.leaves[l]) {
      if l !in touched {
        BuriedKept(s, s', t, touched, l);
      }
    }
    forall u ensures WriterOk(s', JobOf(s', u)) && ReaderOk(s', JobOf(s', u)) {
      if u != t {
        assert WriterOk(s, JobOf(s, u)) && ReaderOk(s, JobOf(s, u));
        WriterKept(s, s', t, touched, u);
        ReaderJobKept(s, s', t, touched, u);
      }
    }
  }

  lemma ReaderJobKept(s: State, s': State, t: Tid, touched: set<Id>, u: Tid)
    requires Changed(s, s', t, touched) && DoomKept(s, s', t) && u != t && ReaderOk(s, JobOf(s, u))
    ensures ReaderOk(s', JobOf(s, u))
  {
    hide Readable, ReaderOn, Doomed;
    var j := JobOf(s, u);
    if j.Looking? && j.straight {
      if ReaderOn(s.leaves[j.node], j.key, j.seen, j.stage, j.gone) && j.node in touched {
        ReaderKept(s.leaves[j.node], s'.leaves[j.node], j.key, j.seen, j.stage, j.gone);
      }
      if At(s, j.node).deleted {
        DeletedStays(s, s', t, touched, j.node);
      }
    }
  }

  lemma DeletedStays(s: State, s': State, t: Tid, touched: set<Id>, l: Id)
    requires Changed(s, s', t, touched) && l in s.leaves && s.leaves[l].deleted
    ensures At(s', l).deleted
  {
  }

  /** A thread that is not merging dooms and spares nobody. */
  lemma DoomSame(s: State, s': State, t: Tid, touched: set<Id>)
    requires Changed(s, s', t, touched) && !JobOf(s, t).Merging?
    ensures DoomKept(s, s', t)
  {
    hide Readable;
    forall l | Doomed(s, l) ensures Doomed(s', l) {
      var u := At(s, l).latch.value;
      assert u != t && JobOf(s', u) == JobOf(s, u);
      assert l !in touched;
    }
  }
}
