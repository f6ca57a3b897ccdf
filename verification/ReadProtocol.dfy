/**
 Latch-free lookups and updates among latched writers: a lookup reads the version of a leaf, checks the deleted mark,
 the sibling mark and the high key, looks for its key and reads the version again, while writers insert, remove,
 split, merge and sort under latches. A latch-free update goes the same way with the same checks. Where a lookup hits,
 an update swaps the pair of its key, over and over until it succeeds or the key has left the slot; this changes no key,
 so it is a Hit or a Miss here, and the update reports its key absent exactly as a lookup does.

 A run is any interleaving of the steps below; every shared field is read and written on its own. A leaf's
 slots are read as the set of keys they hold: which pair a key is stored with does not matter here.
 */
module ReadProtocol {
  import opened Options

  type Id = int
  type Tid = int

  /**
   keys, high, hasSib, sib, deleted, version and latch are the fields of the code. The others keep book:
   filler is the thread that made the leaf by a split and is still at it, bumped says that the latch holder
   has raised the version since it latched, dirty that it has begun to change the leaf without having done so,
   low and up bound the keys the leaf is responsible for, low < k <= up, where None means no bound.
   */
  datatype Leaf = Leaf(keys: set<int>, high: int, hasSib: bool, sib: Id, deleted: bool, version: nat, latch: Option<Tid>,
                       filler: Option<Tid>, bumped: bool, dirty: bool, low: Option<int>, up: Option<int>)

  datatype Op = Put(key: int) | Del(key: int)

  /** How far a lookup has got at its leaf. */
  datatype Stage = Arrived | Begun | Live | HasSibling | GoLeft | GoRight | Scanning | Missed

  /**
   straight says that each leaf the lookup was sent to was, when the pointer was loaded, one it may be sent to; gone that
   the key was not stored at a moment at which the lookup looked for it.
   */
  datatype Job =
    | Idle
    | Looking(key: int, node: Id, seen: nat, stage: Stage, straight: bool, gone: bool)
    | Wanting(op: Op)
    | Holding(leaf: Id, op: Op)
    | Changing(leaf: Id, op: Op)
    | Splitting(leaf: Id, op: Op, right: Id, mid: int, phase: nat)
    | Adding(leaf: Id, op: Op, target: Id)
    | Merging(leaf: Id, right: Id, phase: nat)
    | Sorting(leaf: Id)
    | Closing(leaf: Id, removed: bool)

  /** size is the number of slots of a leaf, merge the number of keys up to which two leaves are merged. */
  datatype State = State(size: nat, merge: nat, leaves: map<Id, Leaf>, jobs: map<Tid, Job>)

  function JobOf(s: State, t: Tid): Job {
    if t in s.jobs then s.jobs[t] else Idle
  }

  const NO_LEAF: Leaf := Leaf({}, 0, false, 0, true, 0, None, None, false, false, None, None)

  function At(s: State, l: Id): Leaf {
    if l in s.leaves then s.leaves[l] else NO_LEAF
  }

  // ---------- ranges ----------

  predicate Over(low: Option<int>, k: int) {
    low.None? || low.value < k
  }

  predicate InRange(x: Leaf, k: int) {
    Over(x.low, k) && (x.up.None? || k <= x.up.value)
  }

  predicate Wide(x: Leaf) {
    x.low.None? || x.up.None? || x.low.value < x.up.value
  }

  predicate Stored(s: State, k: int) {
    exists l :: l in s.leaves && k in s.leaves[l].keys
  }

  // ---------- steps ----------

  datatype Step =
    | Arrive(t: Tid, key: int, l: Id)
    | Begin(t: Tid)
    | ReadDeleted(t: Tid)
    | ReadHasSib(t: Tid)
    | ReadHigh(t: Tid)
    | Hop(t: Tid)
    | Hit(t: Tid)
    | Miss(t: Tid)
    | EndRead(t: Tid)
    | Want(t: Tid, op: Op)
    | Latch(t: Tid, l: Id)
    | Move(t: Tid)
    | NoChange(t: Tid)
    | Bump(t: Tid)
    | Add(t: Tid)
    | Drop(t: Tid)
    | SplitMove(t: Tid, right: Id, mid: int)
    | SplitPhase(t: Tid)
    | AddSplit(t: Tid)
    | MergeLatch(t: Tid)
    | MergePhase(t: Tid)
    | SortLatch(t: Tid, l: Id)
    | SortEnd(t: Tid)
    | Unlatch(t: Tid)

  /** The test of to_sibling: the key is not this leaf's business. */
  predicate Test(x: Leaf, k: int) {
    x.deleted || (x.hasSib && x.high < k)
  }

  predicate Looks(s: State, t: Tid, stage: Stage) {
    JobOf(s, t).Looking? && JobOf(s, t).stage == stage && JobOf(s, t).node in s.leaves
  }

  /** A last leaf splits off nothing when the key goes beyond all of its keys; otherwise the upper half moves. */
  predicate SplitsAt(s: State, x: Leaf, key: int, mid: int) {
    && mid in x.keys
    && if !x.hasSib && forall k :: k in x.keys ==> k < key then forall k :: k in x.keys ==> k <= mid
       else |LowerKeys(x.keys, mid)| == s.size / 2 && exists k :: k in x.keys && mid < k
  }

  predicate Enabled(s: State, st: Step) {
    match st
    case Arrive(t, k, l) => JobOf(s, t).Idle? && l in s.leaves && s.leaves[l].filler.None? && Over(s.leaves[l].low, k)
    case Begin(t) => Looks(s, t, Arrived) && At(s, JobOf(s, t).node).latch.None?
    case ReadDeleted(t) => Looks(s, t, Begun)
    case ReadHasSib(t) => Looks(s, t, Live)
    case ReadHigh(t) => Looks(s, t, HasSibling)
    case Hop(t) => (Looks(s, t, GoLeft) || Looks(s, t, GoRight)) && At(s, JobOf(s, t).node).sib in s.leaves
    case Hit(t) => Looks(s, t, Scanning) && JobOf(s, t).key in At(s, JobOf(s, t).node).keys
    case Miss(t) =>
      && Looks(s, t, Scanning)
      && var x := At(s, JobOf(s, t).node);
         JobOf(s, t).key !in x.keys || (x.dirty && x.filler.None?) || x.version != JobOf(s, t).seen
    case EndRead(t) => Looks(s, t, Missed) && At(s, JobOf(s, t).node).latch.None?
    case Want(t, op) => JobOf(s, t).Idle?
    case Latch(t, l) =>
      && JobOf(s, t).Wanting? && l in s.leaves && s.leaves[l].latch.None? && s.leaves[l].filler.None?
      && Over(s.leaves[l].low, JobOf(s, t).op.key)
    case Move(t) =>
      && JobOf(s, t).Holding? && Test(At(s, JobOf(s, t).leaf), JobOf(s, t).op.key)
      && var r := At(s, JobOf(s, t).leaf).sib; r in s.leaves && s.leaves[r].latch.None? && s.leaves[r].filler.None?
    case NoChange(t) => JobOf(s, t).Holding?
    case Bump(t) =>
      && JobOf(s, t).Holding? && !Test(At(s, JobOf(s, t).leaf), JobOf(s, t).op.key)
      && (JobOf(s, t).op.Put? <==> JobOf(s, t).op.key !in At(s, JobOf(s, t).leaf).keys)
    case Add(t) => JobOf(s, t).Changing? && JobOf(s, t).op.Put? && |At(s, JobOf(s, t).leaf).keys| < s.size
    case Drop(t) => JobOf(s, t).Changing? && JobOf(s, t).op.Del?
    case SplitMove(t, right, mid) =>
      && JobOf(s, t).Changing? && JobOf(s, t).op.Put? && right !in s.leaves && |At(s, JobOf(s, t).leaf).keys| >= s.size
      && SplitsAt(s, At(s, JobOf(s, t).leaf), JobOf(s, t).op.key, mid)
    case SplitPhase(t) => JobOf(s, t).Splitting?
    case AddSplit(t) => JobOf(s, t).Adding?
    case MergeLatch(t) =>
      && JobOf(s, t).Closing? && JobOf(s, t).removed && At(s, JobOf(s, t).leaf).hasSib
      && (var r := At(s, JobOf(s, t).leaf).sib;
          && r in s.leaves && s.leaves[r].latch.None? && s.leaves[r].filler.None?
          && (|At(s, JobOf(s, t).leaf).keys| + |s.leaves[r].keys| <= s.merge || At(s, JobOf(s, t).leaf).keys == {}))
    case MergePhase(t) => JobOf(s, t).Merging?
    case SortLatch(t, l) => JobOf(s, t).Idle? && l in s.leaves && s.leaves[l].latch.None? && s.leaves[l].filler.None?
    case SortEnd(t) => JobOf(s, t).Sorting?
    case Unlatch(t) => JobOf(s, t).Closing?
  }

  function SetLeaf(s: State, l: Id, x: Leaf): State {
    s.(leaves := s.leaves[l := x])
  }

  function SetJob(s: State, t: Tid, j: Job): State {
    s.(jobs := s.jobs[t := j])
  }

  function LowerKeys(ks: set<int>, mid: int): set<int> {
    set k | k in ks && k <= mid
  }

  function UpperKeys(ks: set<int>, mid: int): set<int> {
    set k | k in ks && mid < k
  }

  /** A split after its keys have moved: link the new leaf, lower the high key, set the sibling mark that is missing. */
  function DoSplitPhase(s: State, t: Tid, j: Job): State
    requires j.Splitting?
  {
    var x, r := At(s, j.leaf), At(s, j.right);
    if j.phase == 0 then SetJob(SetLeaf(s, j.leaf, x.(sib := j.right)), t, Splitting(j.leaf, j.op, j.right, j.mid, 1))
    else if j.phase == 1 then SetJob(SetLeaf(s, j.leaf, x.(high := j.mid)), t, Splitting(j.leaf, j.op, j.right, j.mid, 2))
    else
      var r' := if x.hasSib then r.(hasSib := true) else r;
      var s' := SetLeaf(s, j.leaf, x.(hasSib := true));
      if j.mid < j.op.key then SetJob(SetLeaf(s', j.right, r'), t, Adding(j.leaf, j.op, j.right))
      else SetJob(SetLeaf(s', j.right, r'.(filler := None, dirty := false)), t, Adding(j.leaf, j.op, j.leaf))
  }

  /** A merge: move the keys, take over the right leaf's bound and sibling, point it back and mark it deleted. */
  function DoMergePhase(s: State, t: Tid, j: Job): State
    requires j.Merging?
  {
    var x, r := At(s, j.leaf), At(s, j.right);
    var j' := Merging(j.leaf, j.right, j.phase + 1);
    if j.phase == 0 then
      SetJob(SetLeaf(SetLeaf(s, j.leaf, x.(keys := x.keys + r.keys, up := r.up)), j.right, r.(keys := {}, up := r.low, dirty := true)), t, j')
    else if j.phase == 1 then SetJob(SetLeaf(s, j.leaf, x.(high := r.high)), t, j')
    else if j.phase == 2 then SetJob(SetLeaf(s, j.leaf, x.(sib := r.sib)), t, j')
    else if j.phase == 3 then SetJob(SetLeaf(s, j.right, r.(sib := j.leaf)), t, j')
    else if j.phase == 4 then SetJob(SetLeaf(s, j.leaf, x.(hasSib := r.hasSib)), t, j')
    else if j.phase == 5 then SetJob(SetLeaf(s, j.right, r.(deleted := true)), t, j')
    else if j.phase == 6 then SetJob(SetLeaf(s, j.right, r.(version := r.version + 1, dirty := false, bumped := true)), t, j')
    else SetJob(SetLeaf(s, j.right, r.(latch := None, bumped := false)), t, Closing(j.leaf, false))
  }

  /** A leaf is latched to be merged into its left neighbour. */
  predicate Doomed(s: State, r: Id) {
    At(s, r).latch.Some? && var j := JobOf(s, At(s, r).latch.value); j.Merging? && j.right == r
  }

  /**
   A lookup may be sent to a leaf that is deleted or about to be, for it will send the lookup on, and to a leaf that
   begins below the key, unless a split still fills it, the key is beyond it and its sibling mark is not set yet.
   */
  predicate Lands(s: State, r: Id, k: int) {
    && r in s.leaves && var y := s.leaves[r];
    && (y.deleted || Doomed(s, r) || (Over(y.low, k) && (y.filler.None? || y.up.None? || k <= y.up.value || y.hasSib)))
  }

  function DoLook(s: State, t: Tid, j: Job, st: Step): State
    requires j.Looking?
  {
    var x := At(s, j.node);
    match st
    case Begin(_) => SetJob(s, t, j.(seen := x.version, stage := Begun))
    case ReadDeleted(_) => SetJob(s, t, j.(stage := if x.deleted then GoLeft else Live))
    case ReadHasSib(_) => SetJob(s, t, j.(stage := if x.hasSib then HasSibling else Scanning))
    case ReadHigh(_) => SetJob(s, t, j.(stage := if x.high < j.key then GoRight else Scanning))
    case Hop(_) =>
      SetJob(s, t, j.(node := x.sib, stage := Arrived, straight := j.straight && Lands(s, x.sib, j.key)))
    case Hit(_) => SetJob(s, t, Idle)
    case Miss(_) => SetJob(s, t, j.(stage := Missed, gone := j.gone || !Stored(s, j.key)))
    case EndRead(_) => SetJob(s, t, if x.version == j.seen then Idle else j.(stage := Arrived))
    case _ => s
  }

  function DoWrite(s: State, t: Tid, j: Job, st: Step): State
    requires j.Holding? || j.Changing? || j.Adding? || j.Closing? || j.Sorting?
  {
    var x := At(s, j.leaf);
    match st
    case Move(_) =>
      if j.Holding? then
        var s' := SetLeaf(s, j.leaf, x.(latch := None));
        SetJob(SetLeaf(s', x.sib, At(s', x.sib).(latch := Some(t))), t, Holding(x.sib, j.op))
      else s
    case NoChange(_) => SetJob(s, t, Closing(j.leaf, false))
    case Bump(_) =>
      if j.Holding? then SetJob(SetLeaf(s, j.leaf, x.(version := x.version + 1, bumped := true)), t, Changing(j.leaf, j.op)) else s
    case Add(_) =>
      if j.Changing? then SetJob(SetLeaf(s, j.leaf, x.(keys := x.keys + {j.op.key})), t, Closing(j.leaf, false)) else s
    case Drop(_) =>
      if j.Changing? then SetJob(SetLeaf(s, j.leaf, x.(keys := x.keys - {j.op.key})), t, Closing(j.leaf, true)) else s
    case SplitMove(_, right, mid) =>
      if j.Changing? then
        var r := Leaf(UpperKeys(x.keys, mid), x.high, false, x.sib, false, 0, None, Some(t), false, true, Some(mid), x.up);
        SetJob(SetLeaf(SetLeaf(s, j.leaf, x.(keys := LowerKeys(x.keys, mid), up := Some(mid))), right, r), t,
               Splitting(j.leaf, j.op, right, mid, 0))
      else s
    case AddSplit(_) =>
      if j.Adding? then
        var y := At(s, j.target);
        var y' := y.(keys := y.keys + {j.op.key});
        SetJob(SetLeaf(s, j.target, if j.target != j.leaf then y'.(filler := None, dirty := false) else y'), t, Closing(j.leaf, false))
      else s
    case MergeLatch(_) =>
      SetJob(SetLeaf(s, x.sib, At(s, x.sib).(latch := Some(t))), t, Merging(j.leaf, x.sib, 0))
    case SortEnd(_) =>
      SetJob(SetLeaf(s, j.leaf, x.(version := x.version + 1, dirty := false, bumped := true)), t, Closing(j.leaf, false))
    case Unlatch(_) => SetJob(SetLeaf(s, j.leaf, x.(latch := None, bumped := false)), t, Idle)
    case _ => s
  }

  function Do(s: State, st: Step): State {
    var t, j := st.t, JobOf(s, st.t);
    match st
    case Arrive(_, k, l) => SetJob(s, t, Looking(k, l, 0, Arrived, true, false))
    case Want(_, op) => SetJob(s, t, Wanting(op))
    case Latch(_, l) =>
      if j.Wanting? then SetJob(SetLeaf(s, l, At(s, l).(latch := Some(t))), t, Holding(l, j.op)) else s
    case SortLatch(_, l) => SetJob(SetLeaf(s, l, At(s, l).(latch := Some(t), dirty := true)), t, Sorting(l))
    case SplitPhase(_) => if j.Splitting? then DoSplitPhase(s, t, j) else s
    case MergePhase(_) => if j.Merging? then DoMergePhase(s, t, j) else s
    case _ =>
      if j.Looking? then DoLook(s, t, j, st)
      else if j.Holding? || j.Changing? || j.Adding? || j.Closing? || j.Sorting? then DoWrite(s, t, j, st)
      else s
  }
}
