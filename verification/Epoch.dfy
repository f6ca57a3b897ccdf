/**
 Epoch-based reclamation: threads publish the epoch they entered in, retired nodes wait in per-thread lists of
 labels, and a thread that cleans up frees the labels older than every published epoch.

 A run is any interleaving of the steps below, for any number of threads, which may also register on the way:
 entering loads the global epoch and stores it in two steps, retiring loads it and adds the node in two steps,
 and the scan reads one thread's epoch at a time.
 */
module Epoch {
  import opened Options

  type Id = int
  type Tid = int

  const LABEL_SIZE := 32

  /** A batch of retired nodes with the epoch of the last one. */
  datatype Label = Label(nodes: seq<Id>, epoch: nat)

  /** Where a thread stands; refs are the nodes it may touch, mine those it has unlinked and not retired yet. */
  datatype Job =
    | Out
    | Entering(e: nat)
    | In(refs: set<Id>, mine: set<Id>)
    | Retiring(refs: set<Id>, mine: set<Id>, node: Id, e: nat)
    | Leaving
    | Scanning(todo: set<Tid>, seen: set<Tid>, oldest: Option<nat>)
    | Sweeping(kept: seq<Label>, rest: seq<Label>, oldest: Option<nat>)

  /** local is the published epoch, None standing for the largest number; labels is the deletion list, newest first. */
  datatype Thread = Thread(local: Option<nat>, job: Job, labels: seq<Label>, threshold: nat, added: nat, deleted: nat)

  /** linked are the nodes readers can come to; freed lists the nodes freed, in order. */
  datatype State = State(epoch: nat, gc: nat, threads: map<Tid, Thread>, linked: set<Id>, made: set<Id>, freed: seq<Id>)

  function JobOf(s: State, t: Tid): Job {
    if t in s.threads then s.threads[t].job else Out
  }

  function Flat(ls: seq<Label>): seq<Id> {
    if ls == [] then [] else ls[0].nodes + Flat(ls[1..])
  }

  function LabelsOf(s: State, t: Tid): seq<Label> {
    if t in s.threads then s.threads[t].labels else []
  }

  predicate Before(e: nat, oldest: Option<nat>) {
    oldest.None? || e < oldest.value
  }

  function Older(a: Option<nat>, b: Option<nat>): Option<nat> {
    if a.None? then b else if b.None? then a else if a.value <= b.value then a else b
  }

  /** DeletionList::add. */
  function AddNode(ls: seq<Label>, n: Id, e: nat): seq<Label> {
    if ls != [] && |ls[0].nodes| < LABEL_SIZE then [Label(ls[0].nodes + [n], e)] + ls[1..]
    else [Label([n], e)] + ls
  }

  // ---------- steps ----------

  datatype Step =
    | Register(t: Tid)
    | Make(n: Id)
    | EnterLoad(t: Tid)
    | EnterStore(t: Tid)
    | Acquire(t: Tid, n: Id)
    | Unlink(t: Tid, n: Id)
    | RetireLoad(t: Tid, n: Id)
    | RetireAdd(t: Tid)
    | Exit(t: Tid)
    | ExitQuiet(t: Tid)
    | ExitEmpty(t: Tid)
    | ExitScan(t: Tid)
    | ScanOne(t: Tid, u: Tid)
    | ScanEnd(t: Tid)
    | SweepOne(t: Tid)
    | SweepEnd(t: Tid)

  predicate Enabled(s: State, st: Step) {
    match st
    case Register(t) => t !in s.threads
    case Make(n) => n !in s.made
    case EnterLoad(t) => t in s.threads && JobOf(s, t).Out?
    case EnterStore(t) => t in s.threads && JobOf(s, t).Entering?
    case Acquire(t, n) => t in s.threads && JobOf(s, t).In? && n in s.linked
    case Unlink(t, n) => t in s.threads && JobOf(s, t).In? && n in s.linked
    case RetireLoad(t, n) => t in s.threads && JobOf(s, t).In? && n in JobOf(s, t).mine
    case RetireAdd(t) => t in s.threads && JobOf(s, t).Retiring?
    case Exit(t) => t in s.threads && JobOf(s, t).In? && JobOf(s, t).mine == {}
    case ExitQuiet(t) => t in s.threads && JobOf(s, t).Leaving? && s.threads[t].threshold <= s.gc
    case ExitEmpty(t) => t in s.threads && JobOf(s, t).Leaving? && s.threads[t].threshold > s.gc && Flat(s.threads[t].labels) == []
    case ExitScan(t) => t in s.threads && JobOf(s, t).Leaving? && s.threads[t].threshold > s.gc && Flat(s.threads[t].labels) != []
    case ScanOne(t, u) => t in s.threads && JobOf(s, t).Scanning? && u in JobOf(s, t).todo && u in s.threads
    case ScanEnd(t) => t in s.threads && JobOf(s, t).Scanning? && JobOf(s, t).todo == {}
    case SweepOne(t) => t in s.threads && JobOf(s, t).Sweeping? && JobOf(s, t).rest != []
    case SweepEnd(t) => t in s.threads && JobOf(s, t).Sweeping? && JobOf(s, t).rest == []
  }

  function SetThread(s: State, t: Tid, x: Thread): State {
    s.(threads := s.threads[t := x])
  }

  function Do(s: State, st: Step): State {
    if st.Make? then s.(made := s.made + {st.n}, linked := s.linked + {st.n})
    else if st.Register? then SetThread(s, st.t, Thread(Some(0), Out, [], 0, 0, 0))
    else if st.t !in s.threads then s
    else
      var x := s.threads[st.t];
      match st
      case EnterLoad(t) => SetThread(s, t, x.(job := Entering(s.epoch)))
      case EnterStore(t) => if x.job.Entering? then SetThread(s, t, x.(local := Some(x.job.e), job := In({}, {}))) else s
      case Acquire(t, n) => if x.job.In? then SetThread(s, t, x.(job := In(x.job.refs + {n}, x.job.mine))) else s
      case Unlink(t, n) =>
        if x.job.In? then SetThread(s, t, x.(job := In(x.job.refs, x.job.mine + {n}))).(linked := s.linked - {n}) else s
      case RetireLoad(t, n) =>
        if x.job.In? then SetThread(s, t, x.(job := Retiring(x.job.refs, x.job.mine - {n}, n, s.epoch))) else s
      case RetireAdd(t) =>
        if x.job.Retiring? then
          SetThread(s, t, x.(job := In(x.job.refs, x.job.mine), labels := AddNode(x.labels, x.job.node, x.job.e),
                            threshold := x.threshold + 1, added := x.added + 1))
        else s
      case Exit(t) =>
        SetThread(s, t, x.(job := Leaving)).(epoch := if x.threshold % 64 == 1 then s.epoch + 1 else s.epoch)
      case ExitQuiet(t) => SetThread(s, t, x.(job := Out))
      case ExitEmpty(t) => SetThread(s, t, x.(job := Out, threshold := 0))
      case ExitScan(t) => SetThread(s, t, x.(local := None, job := Scanning(s.threads.Keys, {}, None)))
      case ScanOne(t, u) =>
        if x.job.Scanning? && u in s.threads then
          SetThread(s, t, x.(job := Scanning(x.job.todo - {u}, x.job.seen + {u}, Older(x.job.oldest, s.threads[u].local))))
        else s
      case ScanEnd(t) => if x.job.Scanning? then SetThread(s, t, x.(job := Sweeping([], x.labels, x.job.oldest))) else s
      case SweepOne(t) =>
        if x.job.Sweeping? && x.job.rest != [] then
          var cur, rest := x.job.rest[0], x.job.rest[1..];
          if Before(cur.epoch, x.job.oldest) then
            SetThread(s, t, x.(job := Sweeping(x.job.kept, rest, x.job.oldest), labels := x.job.kept + rest,
                              deleted := x.deleted + |cur.nodes|)).(freed := s.freed + cur.nodes)
          else SetThread(s, t, x.(job := Sweeping(x.job.kept + [cur], rest, x.job.oldest)))
        else s
      case SweepEnd(t) => SetThread(s, t, x.(job := Out, threshold := 0))
      case _ => s
  }

  // ---------- what every step keeps ----------

  predicate Holding(j: Job) {
    j.In? || j.Retiring?
  }

  function RefsOf(j: Job): set<Id> {
    if Holding(j) then j.refs else {}
  }

  /** The nodes a thread has unlinked and not yet put into its list. */
  function MineOf(j: Job): set<Id> {
    if j.In? then j.mine else if j.Retiring? then j.mine + {j.node} else {}
  }

  ghost predicate Distinct(q: seq<Id>) {
    forall i, k :: 0 <= i < k < |q| ==> q[i] != q[k]
  }

  /** Where a node is: each node made is linked, or in one thread's hands, or in one list, or freed. */
  ghost predicate NodesOk(s: State) {
    && s.linked <= s.made
    && (forall t, n :: n in MineOf(JobOf(s, t)) ==> n in s.made && n !in s.linked && n !in s.freed)
    && (forall t, n :: n in Flat(LabelsOf(s, t)) ==> n in s.made && n !in s.linked && n !in s.freed)
    && (forall n :: n in s.freed ==> n in s.made && n !in s.linked)
    && (forall t, u, n :: n in MineOf(JobOf(s, t)) ==> n !in Flat(LabelsOf(s, u)))
    && (forall t, u, n :: t != u && n in MineOf(JobOf(s, t)) ==> n !in MineOf(JobOf(s, u)))
    && (forall t, u, n :: t != u && n in Flat(LabelsOf(s, t)) ==> n !in Flat(LabelsOf(s, u)))
    && (forall t :: Distinct(Flat(LabelsOf(s, t)))) && Distinct(s.freed)
    && (forall t :: JobOf(s, t).Retiring? ==> JobOf(s, t).node !in JobOf(s, t).mine)
  }

  /** Published and loaded epochs are no later than the global one, and labels no later than what is being added. */
  ghost predicate EpochsOk(s: State) {
    forall t :: t in s.threads ==> EpochOk(s.epoch, s.threads[t])
  }

  ghost predicate EpochOk(epoch: nat, x: Thread) {
    && (forall l :: l in x.labels ==> l.epoch <= epoch)
    && (Holding(x.job) ==> x.local.Some? && x.local.value <= epoch)
    && (x.job.Entering? ==> x.job.e <= epoch)
    && (x.job.Retiring? ==> x.job.e <= epoch && forall l :: l in x.labels ==> l.epoch <= x.job.e)
    && (x.job.Sweeping? ==> x.labels == x.job.kept + x.job.rest)
    && x.added == x.deleted + |Flat(x.labels)|
  }

  /** The label of a retired node is no earlier than the epoch of a thread that may still touch the node. */
  ghost predicate Guarded(s: State, u: Tid, t: Tid, l: Label, n: Id) {
    u in s.threads && n in RefsOf(s.threads[u].job) && n in l.nodes && l in LabelsOf(s, t) ==>
      s.threads[u].local.Some? && s.threads[u].local.value <= l.epoch
  }

  ghost predicate RefsOk(s: State) {
    && (forall u, n :: u in s.threads && n in RefsOf(s.threads[u].job) ==> n in s.made && n !in s.freed)
    && (forall u, t, l, n :: Guarded(s, u, t, l, n))
    && (forall u, t :: u in s.threads && t in s.threads && s.threads[t].job.Retiring? && s.threads[t].job.node in RefsOf(s.threads[u].job) ==>
          s.threads[u].local.Some? && s.threads[u].local.value <= s.threads[t].job.e)
  }

  /** A thread that may still touch a node of the list being cleaned up has been or will be scanned, and has bounded the scan. */
  ghost predicate ScanOk(s: State, t: Tid, u: Tid, n: Id) {
    t in s.threads && u in s.threads && n in Flat(s.threads[t].labels) && n in RefsOf(s.threads[u].job) ==>
      && (s.threads[t].job.Scanning? ==> u in s.threads[t].job.todo || (u in s.threads[t].job.seen && NotAfter(s.threads[t].job.oldest, s.threads[u].local)))
      && (s.threads[t].job.Sweeping? ==> NotAfter(s.threads[t].job.oldest, s.threads[u].local))
  }

  predicate NotAfter(oldest: Option<nat>, local: Option<nat>) {
    local.Some? ==> oldest.Some? && oldest.value <= local.value
  }

  ghost predicate Inv(s: State) {
    && NodesOk(s) && EpochsOk(s) && RefsOk(s)
    && forall t, u, n :: ScanOk(s, t, u, n)
  }
}
