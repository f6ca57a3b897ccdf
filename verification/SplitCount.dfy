/**
 The split count of string leaves: a thread that finds the count of a leaf zero and then the version of the leaf's
 parent unchanged does not compare the key with the leaf's high key.

 A run is any interleaving of the steps below: visits to leaves under latches, latch-free reads of leaves, splits and
 merges of leaves, and the insertions and removals in the parents that follow them. A key is a number here; what
 leaves store does not matter. A latch-free comparison with the high key of a leaf that has changed since the reader
 began may come out either way.
 */
module SplitCount {
  import opened Options

  type Id = int
  type Pid = int
  type Tid = int

  /**
   The leaf holds keys k with low < k <= up; up is its high key, None for the last leaf. splits is the set of threads
   that have split the leaf and not yet called end_splitting: the split count is its size. The others keep book:
   maker is the thread that made the leaf by a split and has not inserted it in a parent, hidden says that it has not
   latched the parent yet, and into is the live leaf that the leaf is or has been merged into, directly or through
   others.
   */
  datatype Leaf = Leaf(low: Option<int>, up: Option<int>, sib: Id, deleted: bool, splits: set<Tid>, version: nat,
                       latch: Option<Tid>, maker: Option<Tid>, hidden: bool, into: Id)

  /** A child pointer in an inner node above the leaves: the node, and the separators on both sides of the child. */
  datatype Slot = Slot(home: Pid, lo: Option<int>, hi: Option<int>)

  /** An inner node above the leaves; dirty says that its version has been raised since it was latched. */
  datatype Parent = Parent(version: nat, latch: Option<Tid>, dirty: bool)

  /**
   How a thread has come to its leaf: straight from the parent; by steps to the right under latches; by latch-free
   steps, each from a live leaf unchanged since the reader began there; by way of a deleted leaf; or by a latch-free
   step from a leaf that had changed.
   */
  datatype Mode = First | Rightward | Onward | Moved | Astray

  datatype Stage = Came | Held | Live | Zero | Compare | GoLeft | GoRight | Landed

  /** In a visit, from is the leaf given by the parent; free says that no latch is taken, and ver is the version read. */
  datatype Job =
    | Idle
    | Visit(key: int, parent: Pid, seen: nat, from: Id, leaf: Id, prev: Option<Id>, free: bool, ver: nat, mode: Mode, stage: Stage)
    | Merging(leaf: Id, right: Id)
    | Splitting(leaf: Id, right: Id, mid: int)
    | SplitUp(leaf: Id, holds: bool, right: Id, mid: int, node: Pid, slot: Id)
    | Inserted(leaf: Id, nodes: set<Pid>)
    | Merged(leaf: Id, mid: int)
    | MergeUp(leaf: Id, holds: bool, mid: int, node: Pid, other: Option<Pid>, slot: Id)
    | Up(nodes: set<Pid>)

  datatype State = State(leaves: map<Id, Leaf>, slots: map<Id, Slot>, parents: map<Pid, Parent>, jobs: map<Tid, Job>)

  function JobOf(s: State, t: Tid): Job {
    if t in s.jobs then s.jobs[t] else Idle
  }

  const NO_LEAF: Leaf := Leaf(None, None, 0, true, {}, 0, None, None, false, 0)

  function At(s: State, x: Id): Leaf {
    if x in s.leaves then s.leaves[x] else NO_LEAF
  }

  const NO_PARENT: Parent := Parent(0, None, false)

  function Node(s: State, p: Pid): Parent {
    if p in s.parents then s.parents[p] else NO_PARENT
  }

  function SlotOf(s: State, o: Id): Slot {
    if o in s.slots then s.slots[o] else Slot(0, None, None)
  }

  // ---------- ranges ----------

  predicate Over(lo: Option<int>, k: int) {
    lo.None? || lo.value < k
  }

  predicate UpTo(hi: Option<int>, k: int) {
    hi.None? || k <= hi.value
  }

  predicate Under(hi: Option<int>, k: int) {
    hi.None? || k < hi.value
  }

  predicate InSlot(s: State, o: Id, k: int) {
    o in s.slots && Over(s.slots[o].lo, k) && UpTo(s.slots[o].hi, k)
  }

  // ---------- steps ----------

  datatype Step =
    | Descend(t: Tid, key: int, o: Id, free: bool)
    | Latch(t: Tid)
    | Begin(t: Tid)
    | LetGo(t: Tid)
    | ReadDeleted(t: Tid)
    | ReadCount(t: Tid)
    | ReadVersion(t: Tid)
    | CompareHigh(t: Tid, beyond: bool)
    | Hop(t: Tid)
    | Leave(t: Tid)
    | EndRead(t: Tid)
    | Split(t: Tid, right: Id, mid: int)
    | LatchRight(t: Tid)
    | Merge(t: Tid)
    | LatchNode(t: Tid, o: Id)
    | LeaveLeaf(t: Tid)
    | Bump(t: Tid)
    | Insert(t: Tid)
    | EndSplit(t: Tid)
    | LatchOther(t: Tid, p: Pid)
    | Remove(t: Tid, o: Id)
    | Take(t: Tid, p: Pid)
    | Regroup(t: Tid, o: Id, p: Pid)
    | BumpTaken(t: Tid, p: Pid)
    | NewNode(t: Tid, p: Pid)
    | LeaveNodes(t: Tid)

  predicate Visits(s: State, t: Tid, stage: Stage) {
    JobOf(s, t).Visit? && JobOf(s, t).stage == stage && JobOf(s, t).leaf in s.leaves
  }

  predicate Hits(s: State, j: Job)
    requires j.Visit?
  {
    Node(s, j.parent).version == j.seen
  }

  predicate Ready(s: State, p: Pid) {
    p in s.parents && s.parents[p].latch.None?
  }

  /** The leaf is latched by the visit, or has not changed since the reader began. */
  predicate Fresh(s: State, j: Job)
    requires j.Visit?
  {
    !j.free || At(s, j.leaf).version == j.ver
  }

  predicate Beyond(x: Leaf, key: int) {
    !UpTo(x.up, key)
  }

  predicate Enabled(s: State, st: Step) {
    var t := st.t;
    var j := JobOf(s, t);
    match st
    // to_next of the node above the leaves, a validated read
    case Descend(_, key, o, _) => j.Idle? && InSlot(s, o, key) && Ready(s, SlotOf(s, o).home)
    case Latch(_) => Visits(s, t, Came) && !j.free && At(s, j.leaf).latch.None?
    case Begin(_) => Visits(s, t, Came) && j.free && At(s, j.leaf).latch.None?
    case LetGo(_) => Visits(s, t, Held) && j.prev.Some?
    case ReadDeleted(_) => Visits(s, t, Held) && j.prev.None?
    case ReadCount(_) => Visits(s, t, Live)
    case ReadVersion(_) => Visits(s, t, Zero)
    case CompareHigh(_, beyond) => Visits(s, t, Compare) && (Fresh(s, j) ==> beyond == Beyond(At(s, j.leaf), j.key))
    case Hop(_) =>
      && (Visits(s, t, GoLeft) || Visits(s, t, GoRight)) && (At(s, j.leaf).deleted || At(s, j.leaf).up.Some?)
      && At(s, j.leaf).sib in s.leaves
    case Leave(_) => Visits(s, t, Landed) && !j.free
    case EndRead(_) => Visits(s, t, Landed) && j.free && At(s, j.leaf).latch.None?
    case Split(_, right, mid) =>
      && Visits(s, t, Landed) && !j.free && right !in s.leaves && Over(At(s, j.leaf).low, mid) && Under(At(s, j.leaf).up, mid)
    case LatchRight(_) =>
      && Visits(s, t, Landed) && !j.free && At(s, j.leaf).up.Some?
      && var r := At(s, j.leaf).sib; r in s.leaves && s.leaves[r].latch.None?
    case Merge(_) => j.Merging? && j.leaf in s.leaves && j.right in s.leaves && At(s, j.leaf).up.Some?
    // index_or_sibling ends at the node that has the slot of mid
    case LatchNode(_, o) => (j.Splitting? || j.Merged?) && InSlot(s, o, j.mid) && Ready(s, SlotOf(s, o).home)
    case LeaveLeaf(_) => (j.SplitUp? || j.MergeUp?) && j.holds && j.leaf in s.leaves
    case Bump(_) => (j.SplitUp? || j.MergeUp?) && !j.holds && j.node in s.parents && !Node(s, j.node).dirty
    case Insert(_) => j.SplitUp? && !j.holds && Node(s, j.node).dirty && j.slot in s.slots
    case EndSplit(_) => j.Inserted? && j.leaf in s.leaves
    case LatchOther(_, p) => j.MergeUp? && Node(s, j.node).dirty && j.other.None? && p != j.node && Ready(s, p)
    case Remove(_, o) =>
      && j.MergeUp? && !j.holds && Node(s, j.node).dirty && j.slot in s.slots && o in s.slots && s.slots[o].lo == Some(j.mid)
      && (s.slots[o].home == j.node || Some(s.slots[o].home) == j.other)
    // a split, merge or redistribution of inner nodes hands slots to a node whose version has been raised; the
    // node that is merged away has its version raised after that
    case Take(_, p) => j.Up? && Ready(s, p)
    case Regroup(_, o, p) =>
      (j.Up? || j.Inserted?) && o in s.slots && s.slots[o].home in j.nodes && p in j.nodes && Node(s, p).dirty
    case BumpTaken(_, p) => j.Up? && p in j.nodes && p in s.parents && !s.parents[p].dirty
    case NewNode(_, p) => (j.Up? || j.Inserted?) && p !in s.parents
    case LeaveNodes(_) => j.Up? && forall p :: p in j.nodes ==> Node(s, p).dirty
  }

  function SetJob(s: State, t: Tid, j: Job): State {
    s.(jobs := s.jobs[t := j])
  }

  function SetLeaf(s: State, x: Id, l: Leaf): State {
    s.(leaves := s.leaves[x := l])
  }

  function SetNode(s: State, p: Pid, n: Parent): State {
    s.(parents := s.parents[p := n])
  }

  function DoSplit(s: State, t: Tid, right: Id, mid: int): State
    requires JobOf(s, t).Visit?
  {
    var x := JobOf(s, t).leaf;
    var a := At(s, x);
    var r := Leaf(Some(mid), a.up, a.sib, false, {}, 0, None, Some(t), true, right);
    SetJob(SetLeaf(SetLeaf(s, right, r), x,
                   a.(up := Some(mid), sib := right, splits := a.splits + {t}, version := a.version + 1)), t, Splitting(x, right, mid))
  }

  /** Leaf r is merged into x, and with it everything that was merged into r before. */
  function MovedLeaf(a: Leaf, r: Id, x: Id): Leaf {
    if a.into == r then a.(into := x) else a
  }

  function DoMerge(s: State, t: Tid): State
    requires JobOf(s, t).Merging? && At(s, JobOf(s, t).leaf).up.Some?
  {
    var j := JobOf(s, t);
    var a, b := At(s, j.leaf), At(s, j.right);
    var moved := s.(leaves := map x | x in s.leaves :: MovedLeaf(s.leaves[x], j.right, j.leaf));
    SetJob(SetLeaf(SetLeaf(moved, j.leaf, a.(up := b.up, sib := b.sib, version := a.version + 1)),
                   j.right, b.(deleted := true, sib := j.leaf, latch := None, version := b.version + 1, into := j.leaf)),
           t, Merged(j.leaf, a.up.value))
  }

  function DoLatchNode(s: State, t: Tid, o: Id): State
    requires JobOf(s, t).Splitting? || JobOf(s, t).Merged?
  {
    var j := JobOf(s, t);
    var p := SlotOf(s, o).home;
    var s1 := SetNode(s, p, Node(s, p).(latch := Some(t), dirty := false));
    if j.Merged? then SetJob(s1, t, MergeUp(j.leaf, true, j.mid, p, None, o))
    else SetJob(SetLeaf(s1, j.right, At(s, j.right).(hidden := false)), t, SplitUp(j.leaf, true, j.right, j.mid, p, o))
  }

  function DoInsert(s: State, t: Tid): State
    requires JobOf(s, t).SplitUp?
  {
    var j := JobOf(s, t);
    var o := SlotOf(s, j.slot);
    SetJob(SetLeaf(s, j.right, At(s, j.right).(maker := None)), t, Inserted(j.leaf, {j.node}))
      .(slots := s.slots[j.slot := o.(hi := Some(j.mid))][j.right := Slot(o.home, Some(j.mid), o.hi)])
  }

  function DoRemove(s: State, t: Tid, o: Id): State
    requires JobOf(s, t).MergeUp?
  {
    var j := JobOf(s, t);
    SetJob(s, t, Up({j.node} + if j.other.Some? then {j.other.value} else {}))
      .(slots := (s.slots - {o})[j.slot := SlotOf(s, j.slot).(hi := SlotOf(s, o).hi)])
  }

  function HopMode(s: State, j: Job): Mode
    requires j.Visit?
  {
    if j.mode.Astray? || (j.stage.GoRight? && !Fresh(s, j)) then Astray
    else if j.mode.Moved? || j.stage.GoLeft? then Moved
    else if j.free then Onward
    else Rightward
  }

  function Do(s: State, st: Step): State
    requires Enabled(s, st)
  {
    var t := st.t;
    var j := JobOf(s, t);
    match st
    case Descend(_, key, o, free) =>
      var p := SlotOf(s, o).home;
      SetJob(s, t, Visit(key, p, Node(s, p).version, o, o, None, free, 0, First, Came))
    case Latch(_) => SetJob(SetLeaf(s, j.leaf, At(s, j.leaf).(latch := Some(t))), t, j.(stage := Held))
    case Begin(_) => SetJob(s, t, j.(ver := At(s, j.leaf).version, stage := Held))
    case LetGo(_) => SetJob(SetLeaf(s, j.prev.value, At(s, j.prev.value).(latch := None)), t, j.(prev := None))
    case ReadDeleted(_) => SetJob(s, t, j.(stage := if At(s, j.leaf).deleted then GoLeft else Live))
    case ReadCount(_) => SetJob(s, t, j.(stage := if At(s, j.leaf).splits == {} then Zero else Compare))
    case ReadVersion(_) => SetJob(s, t, j.(stage := if Hits(s, j) then Landed else Compare))
    case CompareHigh(_, beyond) => SetJob(s, t, j.(stage := if beyond then GoRight else Landed))
    case Hop(_) =>
      SetJob(s, t, j.(leaf := At(s, j.leaf).sib, prev := if j.free then None else Some(j.leaf), stage := Came,
                      mode := HopMode(s, j)))
    case Leave(_) => SetJob(SetLeaf(s, j.leaf, At(s, j.leaf).(latch := None)), t, Idle)
    case EndRead(_) => SetJob(s, t, if Fresh(s, j) then Idle else j.(stage := Came))
    case Split(_, right, mid) => DoSplit(s, t, right, mid)
    case LatchRight(_) =>
      var r := At(s, j.leaf).sib;
      SetJob(SetLeaf(s, r, At(s, r).(latch := Some(t))), t, Merging(j.leaf, r))
    case Merge(_) => DoMerge(s, t)
    case LatchNode(_, o) => DoLatchNode(s, t, o)
    case LeaveLeaf(_) => SetJob(SetLeaf(s, j.leaf, At(s, j.leaf).(latch := None)), t, j.(holds := false))
    case Bump(_) => SetNode(s, j.node, Node(s, j.node).(version := Node(s, j.node).version + 1, dirty := true))
    case Insert(_) => DoInsert(s, t)
    case EndSplit(_) => SetJob(SetLeaf(s, j.leaf, At(s, j.leaf).(splits := At(s, j.leaf).splits - {t})), t, Up(j.nodes))
    case LatchOther(_, p) =>
      SetJob(SetNode(s, p, Parent(Node(s, p).version + 1, Some(t), true)), t, j.(other := Some(p)))
    case Remove(_, o) => DoRemove(s, t, o)
    case Take(_, p) => SetJob(SetNode(s, p, Node(s, p).(latch := Some(t))), t, Up(j.nodes + {p}))
    case BumpTaken(_, p) => SetNode(s, p, Node(s, p).(version := Node(s, p).version + 1, dirty := true))
    case Regroup(_, o, p) => s.(slots := s.slots[o := s.slots[o].(home := p)])
    case NewNode(_, p) => SetJob(SetNode(s, p, Parent(0, Some(t), true)), t, j.(nodes := j.nodes + {p}))
    case LeaveNodes(_) =>
      SetJob(s, t, Idle).(parents := map p | p in s.parents ::
        if p in j.nodes then s.parents[p].(latch := None, dirty := false) else s.parents[p])
  }
}
