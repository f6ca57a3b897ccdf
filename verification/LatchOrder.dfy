/**
 The latches of the FB+-tree: which node a thread waits for while it holds which others, on all levels, through
 right moves, splits, merges, border removals, new roots and roots that give way to their only child.

 A run is any interleaving of the steps below. What nodes store does not matter here; a step may be taken whenever
 the code could take it for some contents.
 */
module LatchOrder {
  import opened Options

  type Id = int
  type Tid = int

  /**
   next is the right neighbour of a live node, if hasNext, and for a deleted node the one it was merged into. A root
   that gave way to its only child is marked deleted too in the code; here it is fallen, and next is that child. The
   others keep book: place stands for the bound below which the node has no keys, into is the live node that the
   node is or has been merged into, directly or through others, and steps the number of next pointers to it.
   */
  datatype Node = Node(level: nat, next: Id, hasNext: bool, deleted: bool, fallen: bool, latch: Option<Tid>,
                       place: real, into: Id, steps: nat)

  /**
   What a thread holds and waits for: low is a node one level down that it has not let go of, at the node at which
   it works, pair a second node on that level, want the node for whose latch it waits; ends says that it only has to
   let go of what it holds.
   */
  datatype Job = Job(low: Option<Id>, at: Option<Id>, pair: Option<Id>, want: Option<Id>, ends: bool)

  const IDLE: Job := Job(None, None, None, None, false)

  datatype State = State(nodes: map<Id, Node>, jobs: map<Tid, Job>)

  function JobOf(s: State, t: Tid): Job {
    if t in s.jobs then s.jobs[t] else IDLE
  }

  const NO_NODE: Node := Node(0, 0, false, false, false, None, 0.0, 0, 0)

  function At(s: State, n: Id): Node {
    if n in s.nodes then s.nodes[n] else NO_NODE
  }

  function Ids(o: Option<Id>): set<Id> {
    if o.Some? then {o.value} else {}
  }

  function HeldBy(j: Job): set<Id> {
    Ids(j.low) + Ids(j.at) + Ids(j.pair)
  }

  // ---------- steps ----------

  datatype Step =
    | Start(t: Tid, n: Id)
    | Grant(t: Tid)
    | Hop(t: Tid)
    | Move(t: Tid)
    | DropLow(t: Tid)
    | DropPair(t: Tid)
    | Release(t: Tid)
    | Split(t: Tid, right: Id, place: real)
    | Merge(t: Tid)
    | Climb(t: Tid, up: Id)
    | NewRoot(t: Tid, top: Id)
    | Collapse(t: Tid)

  predicate Works(s: State, t: Tid) {
    JobOf(s, t).at.Some? && JobOf(s, t).at.value in s.nodes && JobOf(s, t).want.None?
  }

  /** The thread is past index_or_sibling at a live node, and has more to do than to let go. */
  predicate Edits(s: State, t: Tid) {
    Works(s, t) && !JobOf(s, t).ends && !At(s, JobOf(s, t).at.value).deleted && !At(s, JobOf(s, t).at.value).fallen
  }

  predicate Enabled(s: State, st: Step) {
    var t := st.t;
    var j := JobOf(s, t);
    match st
    // upsert, remove or a scan has come down to a leaf
    case Start(_, n) => j == IDLE && n in s.nodes && s.nodes[n].level == 0
    case Grant(_) => j.want.Some? && j.want.value in s.nodes && s.nodes[j.want.value].latch.None?
    // to_sibling or index_or_sibling is true, or the node may have to be merged with its right neighbour
    case Hop(_) =>
      && Works(s, t) && j.pair.None? && !j.ends
      && (At(s, j.at.value).deleted || At(s, j.at.value).fallen || At(s, j.at.value).hasNext) && At(s, j.at.value).next in s.nodes
    case Move(_) => Works(s, t) && j.pair.Some?
    case DropLow(_) => Works(s, t) && j.low.Some?
    case DropPair(_) => Works(s, t) && j.pair.Some?
    case Release(_) => Works(s, t) && j.pair.None? && j.low.None?
    case Split(_, right, place) =>
      && Edits(s, t) && j.pair.None? && right !in s.nodes
      && var x := At(s, j.at.value);
      && x.place < place && (x.hasNext ==> x.next in s.nodes && place < At(s, x.next).place)
    case Merge(_) =>
      && Edits(s, t) && j.pair.Some? && j.pair.value in s.nodes
      && var x := At(s, j.at.value); x.hasNext && x.next == j.pair.value
    case Climb(_, up) => Edits(s, t) && j.pair.None? && j.low.None? && up in s.nodes && s.nodes[up].level == At(s, j.at.value).level + 1
    case NewRoot(_, top) => Edits(s, t) && j.pair.None? && j.low.None? && top !in s.nodes
    // root_remove: the root has lost its last separator and the thread still holds its only child
    case Collapse(_) =>
      Edits(s, t) && j.pair.None? && j.low.Some? && j.low.value in s.nodes && !At(s, j.at.value).hasNext && At(s, j.at.value).level > 0
  }

  function SetJob(s: State, t: Tid, j: Job): State {
    s.(jobs := s.jobs[t := j])
  }

  function SetLatch(s: State, n: Id, l: Option<Tid>): State {
    s.(nodes := s.nodes[n := At(s, n).(latch := l)])
  }

  /** Node r is merged into x: everything that was merged into r before comes with it. */
  function Moved(n: Node, r: Id, x: Id): Node {
    if n.into == r then n.(into := x, steps := n.steps + 1) else n
  }

  function DoMerge(s: State, x: Id, r: Id): State {
    var y := At(s, r);
    var moved := s.(nodes := map n | n in s.nodes :: Moved(s.nodes[n], r, x));
    moved.(nodes := moved.nodes[x := At(moved, x).(next := y.next, hasNext := y.hasNext)]
                               [r := At(moved, r).(next := x, hasNext := false, deleted := true)])
  }

  function DoSplit(s: State, x: Id, r: Id, place: real): State {
    var a := At(s, x);
    s.(nodes := s.nodes[r := Node(a.level, a.next, a.hasNext, false, false, None, place, r, 0)][x := a.(next := r, hasNext := true)])
  }

  function Do(s: State, st: Step): State
    requires Enabled(s, st)
  {
    var t := st.t;
    var j := JobOf(s, t);
    match st
    case Start(_, n) => SetJob(s, t, j.(want := Some(n)))
    case Grant(_) =>
      SetJob(SetLatch(s, j.want.value, Some(t)), t,
             if j.at.None? then j.(at := j.want, want := None) else j.(pair := j.want, want := None))
    case Hop(_) => SetJob(s, t, j.(want := Some(At(s, j.at.value).next)))
    case Move(_) => SetJob(SetLatch(s, j.at.value, None), t, j.(at := j.pair, pair := None))
    case DropLow(_) => SetJob(SetLatch(s, j.low.value, None), t, j.(low := None))
    case DropPair(_) => SetJob(SetLatch(s, j.pair.value, None), t, j.(pair := None))
    case Release(_) => SetJob(SetLatch(s, j.at.value, None), t, IDLE)
    case Split(_, right, place) => DoSplit(s, j.at.value, right, place)
    case Merge(_) => DoMerge(s, j.at.value, j.pair.value)
    case Climb(_, up) => SetJob(s, t, Job(j.at, None, None, Some(up), false))
    case NewRoot(_, top) =>
      SetJob(s.(nodes := s.nodes[top := Node(At(s, j.at.value).level + 1, 0, false, false, false, Some(t), 0.0, top, 0)]),
             t, Job(j.at, Some(top), None, None, false))
    case Collapse(_) =>
      SetJob(s.(nodes := s.nodes[j.at.value := At(s, j.at.value).(fallen := true, next := j.low.value)]), t, j.(ends := true))
  }

  // ---------- the order of nodes ----------

  /**
   Nodes by level, then from left to right; a node that was merged into another comes just before that one, and so
   do the nodes merged into it before.
   */
  predicate Below(s: State, a: Id, b: Id) {
    var x, y := At(s, a), At(s, b);
    || x.level < y.level
    || (x.level == y.level && At(s, x.into).place < At(s, y.into).place)
    || (x.level == y.level && At(s, x.into).place == At(s, y.into).place && x.steps > y.steps)
  }

  /** A thread waits for a latch that another thread holds. */
  predicate Waits(s: State, t: Tid, u: Tid) {
    JobOf(s, t).want.Some? && At(s, JobOf(s, t).want.value).latch == Some(u)
  }

  // ---------- what every step keeps ----------

  predicate NodeOk(s: State, n: Id) {
    && n in s.nodes && var x := s.nodes[n];
    && x.into in s.nodes && !s.nodes[x.into].deleted && s.nodes[x.into].level == x.level
    && s.nodes[x.into].into == x.into && s.nodes[x.into].steps == 0
    && (!x.deleted ==> x.into == n && x.steps == 0)
    && (x.deleted ==> x.next in s.nodes && s.nodes[x.next].level == x.level && s.nodes[x.next].into == x.into
                      && s.nodes[x.next].steps + 1 == x.steps)
    && (!x.deleted && x.hasNext ==> x.next in s.nodes && !s.nodes[x.next].deleted && s.nodes[x.next].level == x.level
                                     && x.place < s.nodes[x.next].place)
    && (x.fallen ==> !x.deleted && !x.hasNext && x.level > 0 && x.next in s.nodes && s.nodes[x.next].level < x.level)
  }

  /** A live node is the right neighbour of no more than one other. */
  predicate NextOnce(s: State, m: Id, n: Id) {
    m in s.nodes && n in s.nodes && m != n && !s.nodes[m].deleted && !s.nodes[n].deleted && s.nodes[m].hasNext && s.nodes[n].hasNext
    ==> s.nodes[m].next != s.nodes[n].next
  }

  ghost predicate LatchesOk(s: State) {
    && (forall n, t :: n in s.nodes && s.nodes[n].latch == Some(t) ==> n in HeldBy(JobOf(s, t)))
    && (forall n, t :: n in HeldBy(JobOf(s, t)) ==> n in s.nodes && s.nodes[n].latch == Some(t))
  }

  predicate JobOk(s: State, t: Tid) {
    var j := JobOf(s, t);
    && (j.pair.Some? ==> j.at.Some? && j.want.None? && j.pair != j.at && At(s, j.pair.value).level == At(s, j.at.value).level)
    && (j.low.Some? && j.at.Some? ==> At(s, j.low.value).level < At(s, j.at.value).level)
    && (j.low.Some? && j.at.None? ==> j.want.Some? && At(s, j.low.value).level < At(s, j.want.value).level)
    && (j.want.Some? ==> j.want.value in s.nodes)
    && (j.want.Some? && j.at.Some? ==>
          var x := At(s, j.at.value); j.want.value == x.next && (x.deleted || x.hasNext))
    && OffFallen(s, j)
  }

  /** Nobody is concerned with a fallen root but the thread that made it fall. */
  predicate OffFallen(s: State, j: Job) {
    && (j.want.Some? ==> !At(s, j.want.value).fallen) && (j.pair.Some? ==> !At(s, j.pair.value).fallen)
    && (j.low.Some? ==> !At(s, j.low.value).fallen) && (j.at.Some? && At(s, j.at.value).fallen ==> j.ends)
    && (j.ends ==> j.at.Some? && j.pair.None? && j.want.None?)
  }

  /** A step after which a thread that was not on a fallen root waits for one. */
  ghost predicate Catches(s: State, st: Step) {
    var j := JobOf(s, st.t);
    || (st.Climb? && At(s, st.up).fallen)
    || (st.Hop? && j.at.Some? && !At(s, j.at.value).fallen && At(s, At(s, j.at.value).next).fallen)
    || (st.Collapse? && exists u :: JobOf(s, u).want.Some? && JobOf(s, u).want == j.at)
  }

  ghost predicate Inv(s: State) {
    && (forall n :: n in s.nodes ==> NodeOk(s, n)) && (forall m, n :: NextOnce(s, m, n))
    && LatchesOk(s) && (forall t :: JobOk(s, t))
  }

  /** Every wait goes up: whatever a thread holds is below what it waits for. */
  lemma WaitsGoUp(s: State, t: Tid, n: Id)
    requires Inv(s) && JobOf(s, t).want.Some? && n in HeldBy(JobOf(s, t))
    ensures Below(s, n, JobOf(s, t).want.value)
  {
    var j := JobOf(s, t);
    assert JobOk(s, t);
    if j.at.Some? {
      assert NodeOk(s, j.at.value) && NodeOk(s, j.want.value);
    }
  }
}
