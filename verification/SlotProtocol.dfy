/**
 The slots of the leaves under concurrency: latch-free updates replace a pair in its slot by compare and
 swap while latched upserts, splits, removals, merges and sorts move pairs between slots one atomic access
 at a time.

 A run is any interleaving of the steps below, each one atomic access of the code. A latch-free update may
 look at any leaf and slot at any time, which covers every stale bitmap and every walk along the leaves.
 */
module SlotProtocol {
  import opened Options

  type Id = int
  type Tid = int

  /** A pair as handed in; serial tells pairs with equal keys apart. */
  datatype KV = KV(key: int, serial: int)

  /**
   bits is the bitmap. filler is the thread that has created the leaf by a split and is still filling it,
   which it does without the leaf's latch. published says that the level above knows the leaf.
   */
  datatype Leaf = Leaf(slots: seq<Option<KV>>, bits: set<int>, latch: Option<Tid>, filler: Option<Tid>,
                       sibling: Option<Id>, published: bool)

  datatype Seen = Seen(leaf: Id, slot: int, old_: KV)

  datatype Op = Put(kv: KV) | Del(key: int)

  /** What a thread is doing, and the local variables that matter. */
  datatype Job =
    | Idle
    | Updating(kv: KV, seen: Option<Seen>)
    | Arriving(op: Op)
    | Holding(leaf: Id, op: Op)
    | Storing(leaf: Id, kv: KV, target: Id, slot: int)
    | Marking(leaf: Id, target: Id, slot: int)
    | Splitting(leaf: Id, kv: KV, right: Id, todo: seq<int>, moved: nat, hand: Option<KV>)
    | Removing(leaf: Id, slot: int)
    | Merging(leaf: Id, right: Id, mask: set<int>, carried: Option<KV>)
    | Sorting(leaf: Id, rest: set<int>, sorted: set<KV>, put: nat)
    | Finishing(leaf: Id)

  /** Where a pair is. */
  datatype Place = AtCaller(t: Tid) | InSlot(leaf: Id, slot: int) | InHand(t: Tid) | Returned(t: Tid)

  /** size is the number of slots of a leaf; place records where each pair handed in so far has got to. */
  datatype State = State(size: nat, leaves: map<Id, Leaf>, jobs: map<Tid, Job>, place: map<KV, Place>)

  function JobOf(s: State, t: Tid): Job {
    if t in s.jobs then s.jobs[t] else Idle
  }

  function Slot(s: State, l: Id, i: int): Option<KV> {
    if l in s.leaves && 0 <= i < |s.leaves[l].slots| then s.leaves[l].slots[i] else None
  }

  predicate Fresh(s: State, kv: KV) {
    kv !in s.place
  }

  // ---------- steps ----------

  datatype Step =
    | UpdateStart(t: Tid, kv: KV)
    | UpdateLoad(t: Tid, l: Id, i: int)
    | UpdateSwap(t: Tid)
    | UpdateFail(t: Tid)
    | Arrive(t: Tid, op: Op)
    | Latch(t: Tid, l: Id)
    | LatchRight(t: Tid)
    | UpsertHit(t: Tid, i: int)
    | UpsertRoom(t: Tid, i: int)
    | SplitStart(t: Tid, right: Id, todo: seq<int>)
    | SplitTake(t: Tid)
    | SplitPut(t: Tid)
    | SplitLink(t: Tid, toRight: bool)
    | StoreSlot(t: Tid)
    | MarkBit(t: Tid)
    | RemoveHit(t: Tid, i: int)
    | RemoveTake(t: Tid)
    | MergeStart(t: Tid)
    | MergeTake(t: Tid, i: int)
    | MergePut(t: Tid, i: int)
    | MergeEnd(t: Tid)
    | SortLatch(t: Tid, l: Id)
    | SortTake(t: Tid, i: int)
    | SortPut(t: Tid, kv: KV)
    | SortEnd(t: Tid)
    | RemoveMiss(t: Tid)
    | Unlatch(t: Tid)
    | Publish(l: Id)

  predicate HasKey(s: State, l: Id, i: int, k: int) {
    Slot(s, l, i).Some? && Slot(s, l, i).value.key == k
  }

  predicate KeyStored(s: State, l: Id, k: int)
    requires l in s.leaves
  {
    exists i | i in s.leaves[l].bits :: HasKey(s, l, i, k)
  }

  function Prefix(n: nat): (r: set<int>)
    ensures forall i :: i in r <==> 0 <= i < n
  {
    if n == 0 then {} else Prefix(n - 1) + {n - 1}
  }

  ghost predicate Distinct(todo: seq<int>) {
    forall i, j :: 0 <= i < j < |todo| ==> todo[i] != todo[j]
  }

  /** The slots a split moves: the upper half by key in ascending order, or none when the key goes beyond a last leaf. */
  ghost predicate SplitSlots(s: State, l: Id, kv: KV, todo: seq<int>)
    requires l in s.leaves
  {
    && Distinct(todo)
    && (forall i :: i in todo ==> i in s.leaves[l].bits)
    && (|todo| == s.size / 2 || (todo == [] && s.leaves[l].sibling == None && forall i :: i in s.leaves[l].bits ==>
          Slot(s, l, i).Some? && Slot(s, l, i).value.key < kv.key))
  }

  ghost predicate Enabled(s: State, st: Step) {
    match st
    case UpdateStart(t, kv) => JobOf(s, t).Idle? && Fresh(s, kv)
    case UpdateLoad(t, l, i) => JobOf(s, t).Updating? && JobOf(s, t).seen.None? && HasKey(s, l, i, JobOf(s, t).kv.key)
    case UpdateSwap(t) => JobOf(s, t).Updating? && JobOf(s, t).seen.Some?
    case UpdateFail(t) => JobOf(s, t).Updating? && JobOf(s, t).seen.None?
    case Arrive(t, op) => JobOf(s, t).Idle? && (op.Put? ==> Fresh(s, op.kv))
    case Latch(t, l) => JobOf(s, t).Arriving? && l in s.leaves && s.leaves[l].latch.None? && s.leaves[l].published
    case LatchRight(t) =>
      && JobOf(s, t).Holding? && JobOf(s, t).leaf in s.leaves
      && var r := s.leaves[JobOf(s, t).leaf].sibling;
         r.Some? && r.value in s.leaves && s.leaves[r.value].latch.None?
    case UpsertHit(t, i) =>
      && JobOf(s, t).Holding? && JobOf(s, t).op.Put? && JobOf(s, t).leaf in s.leaves
      && i in s.leaves[JobOf(s, t).leaf].bits && HasKey(s, JobOf(s, t).leaf, i, JobOf(s, t).op.kv.key)
    case UpsertRoom(t, i) =>
      && JobOf(s, t).Holding? && JobOf(s, t).op.Put? && JobOf(s, t).leaf in s.leaves
      && !KeyStored(s, JobOf(s, t).leaf, JobOf(s, t).op.kv.key)
      && 0 <= i < s.size && i !in s.leaves[JobOf(s, t).leaf].bits
    case SplitStart(t, right, todo) =>
      && JobOf(s, t).Holding? && JobOf(s, t).op.Put? && JobOf(s, t).leaf in s.leaves && right !in s.leaves
      && !KeyStored(s, JobOf(s, t).leaf, JobOf(s, t).op.kv.key)
      && s.leaves[JobOf(s, t).leaf].bits == Prefix(s.size)
      && SplitSlots(s, JobOf(s, t).leaf, JobOf(s, t).op.kv, todo)
    case SplitTake(t) => JobOf(s, t).Splitting? && JobOf(s, t).hand.None? && JobOf(s, t).moved < |JobOf(s, t).todo|
    case SplitPut(t) => JobOf(s, t).Splitting? && JobOf(s, t).hand.Some?
    case SplitLink(t, toRight) =>
      && JobOf(s, t).Splitting? && JobOf(s, t).hand.None? && JobOf(s, t).moved == |JobOf(s, t).todo|
      && (!toRight ==> JobOf(s, t).todo != [])
    case StoreSlot(t) => JobOf(s, t).Storing?
    case MarkBit(t) => JobOf(s, t).Marking?
    case RemoveHit(t, i) =>
      && JobOf(s, t).Holding? && JobOf(s, t).op.Del? && JobOf(s, t).leaf in s.leaves
      && i in s.leaves[JobOf(s, t).leaf].bits && HasKey(s, JobOf(s, t).leaf, i, JobOf(s, t).op.key)
    case RemoveTake(t) => JobOf(s, t).Removing?
    case MergeStart(t) =>
      && JobOf(s, t).Finishing? && JobOf(s, t).leaf in s.leaves
      && var r := s.leaves[JobOf(s, t).leaf].sibling;
         r.Some? && r.value in s.leaves && s.leaves[r.value].latch.None?
    case MergeTake(t, i) => JobOf(s, t).Merging? && JobOf(s, t).carried.None? && i in JobOf(s, t).mask
    case MergePut(t, i) =>
      && JobOf(s, t).Merging? && JobOf(s, t).carried.Some? && JobOf(s, t).leaf in s.leaves
      && 0 <= i < s.size && i !in s.leaves[JobOf(s, t).leaf].bits
    case MergeEnd(t) => JobOf(s, t).Merging? && JobOf(s, t).carried.None? && JobOf(s, t).mask == {}
    case SortLatch(t, l) =>
      && JobOf(s, t).Idle? && l in s.leaves && s.leaves[l].latch.None?
      && (s.leaves[l].published || exists x :: x in s.leaves && s.leaves[x].sibling == Some(l))
    case SortTake(t, i) => JobOf(s, t).Sorting? && i in JobOf(s, t).rest
    case SortPut(t, kv) =>
      && JobOf(s, t).Sorting? && JobOf(s, t).rest == {} && kv in JobOf(s, t).sorted
      && forall o :: o in JobOf(s, t).sorted ==> kv.key <= o.key
    case SortEnd(t) => JobOf(s, t).Sorting? && JobOf(s, t).rest == {} && JobOf(s, t).sorted == {}
    case RemoveMiss(t) => JobOf(s, t).Holding? && JobOf(s, t).op.Del?
    case Unlatch(t) => JobOf(s, t).Finishing?
    case Publish(l) => l in s.leaves && s.leaves[l].filler.None?
  }

  // ---------- effects ----------

  function SetLeaf(s: State, l: Id, leaf: Leaf): State {
    s.(leaves := s.leaves[l := leaf])
  }

  function SetJob(s: State, t: Tid, j: Job): State {
    s.(jobs := s.jobs[t := j])
  }

  function SetPlace(s: State, kv: KV, p: Place): State {
    s.(place := s.place[kv := p])
  }

  function SetSlot(s: State, l: Id, i: int, v: Option<KV>): State {
    if l in s.leaves && 0 <= i < |s.leaves[l].slots| then
      SetLeaf(s, l, s.leaves[l].(slots := s.leaves[l].slots[i := v]))
    else s
  }

  function SetBits(s: State, l: Id, bits: set<int>): State {
    if l in s.leaves then SetLeaf(s, l, s.leaves[l].(bits := bits)) else s
  }

  function SetLatch(s: State, l: Id, t: Option<Tid>): State {
    if l in s.leaves then SetLeaf(s, l, s.leaves[l].(latch := t)) else s
  }

  function SetFiller(s: State, l: Id, t: Option<Tid>): State {
    if l in s.leaves then SetLeaf(s, l, s.leaves[l].(filler := t)) else s
  }

  function SetSibling(s: State, l: Id, r: Option<Id>): State {
    if l in s.leaves then SetLeaf(s, l, s.leaves[l].(sibling := r)) else s
  }

  function BitsOf(s: State, l: Id): set<int> {
    if l in s.leaves then s.leaves[l].bits else {}
  }

  function SiblingOf(s: State, l: Id): Option<Id> {
    if l in s.leaves then s.leaves[l].sibling else None
  }

  function Elements(q: seq<int>): set<int> {
    set i | i in q
  }

  function NoSlots(n: nat): seq<Option<KV>> {
    seq(n, _ => None)
  }

  /** Take the pair out of a slot: an exchange with null. */
  function Take(s: State, l: Id, i: int, p: Place): State {
    if Slot(s, l, i).Some? then SetPlace(SetSlot(s, l, i, None), Slot(s, l, i).value, p) else s
  }

  /** Store a pair into a slot. What the slot held before is overwritten. */
  function Store(s: State, l: Id, i: int, kv: KV): State {
    SetPlace(SetSlot(s, l, i, Some(kv)), kv, InSlot(l, i))
  }

  /** Exchange the pair in a slot for another one, which gives the old pair to the caller. */
  function Exchange(s: State, l: Id, i: int, kv: KV, t: Tid): State {
    if Slot(s, l, i).Some? then
      SetPlace(SetPlace(SetSlot(s, l, i, Some(kv)), kv, InSlot(l, i)), Slot(s, l, i).value, Returned(t))
    else s
  }

  function Do(s: State, st: Step): State {
    match st
    case UpdateStart(t, kv) => SetPlace(SetJob(s, t, Updating(kv, None)), kv, AtCaller(t))
    case UpdateLoad(t, l, i) =>
      if JobOf(s, t).Updating? && Slot(s, l, i).Some? then
        SetJob(s, t, Updating(JobOf(s, t).kv, Some(Seen(l, i, Slot(s, l, i).value))))
      else s
    case UpdateSwap(t) =>
      if JobOf(s, t).Updating? && JobOf(s, t).seen.Some? then
        var j := JobOf(s, t);
        if Slot(s, j.seen.value.leaf, j.seen.value.slot) == Some(j.seen.value.old_) then
          SetJob(Exchange(s, j.seen.value.leaf, j.seen.value.slot, j.kv, t), t, Idle)
        else SetJob(s, t, Updating(j.kv, None))
      else s
    case UpdateFail(t) =>
      if JobOf(s, t).Updating? then SetPlace(SetJob(s, t, Idle), JobOf(s, t).kv, Returned(t)) else s
    case Arrive(t, op) =>
      if op.Put? then SetPlace(SetJob(s, t, Arriving(op)), op.kv, AtCaller(t)) else SetJob(s, t, Arriving(op))
    case Latch(t, l) =>
      if JobOf(s, t).Arriving? then SetJob(SetLatch(s, l, Some(t)), t, Holding(l, JobOf(s, t).op)) else s
    case LatchRight(t) =>
      if JobOf(s, t).Holding? && SiblingOf(s, JobOf(s, t).leaf).Some? then
        var j := JobOf(s, t);
        var r := SiblingOf(s, j.leaf).value;
        SetJob(SetLatch(SetLatch(s, j.leaf, None), r, Some(t)), t, Holding(r, j.op))
      else s
    case UpsertHit(t, i) =>
      if JobOf(s, t).Holding? && JobOf(s, t).op.Put? then
        var j := JobOf(s, t);
        SetJob(Exchange(s, j.leaf, i, j.op.kv, t), t, Finishing(j.leaf))
      else s
    case UpsertRoom(t, i) =>
      if JobOf(s, t).Holding? && JobOf(s, t).op.Put? then
        var j := JobOf(s, t);
        SetJob(s, t, Storing(j.leaf, j.op.kv, j.leaf, i))
      else s
    case SplitStart(t, right, todo) =>
      if JobOf(s, t).Holding? && JobOf(s, t).op.Put? then
        var j := JobOf(s, t);
        SetJob(SetLeaf(s, right, Leaf(NoSlots(s.size), {}, None, Some(t), None, false)), t,
               Splitting(j.leaf, j.op.kv, right, todo, 0, None))
      else s
    case SplitTake(t) =>
      if JobOf(s, t).Splitting? && JobOf(s, t).moved < |JobOf(s, t).todo| then
        var j := JobOf(s, t);
        SetJob(Take(s, j.leaf, j.todo[j.moved], InHand(t)), t, j.(hand := Slot(s, j.leaf, j.todo[j.moved])))
      else s
    case SplitPut(t) =>
      if JobOf(s, t).Splitting? && JobOf(s, t).hand.Some? then
        var j := JobOf(s, t);
        SetJob(Store(s, j.right, j.moved, j.hand.value), t, j.(hand := None, moved := j.moved + 1))
      else s
    case SplitLink(t, toRight) =>
      if JobOf(s, t).Splitting? && JobOf(s, t).moved == |JobOf(s, t).todo| then
        var j := JobOf(s, t);
        var s1 := SetSibling(SetBits(s, j.right, Prefix(j.moved)), j.right, SiblingOf(s, j.leaf));
        var s2 := SetSibling(SetBits(s1, j.leaf, BitsOf(s, j.leaf) - Elements(j.todo)), j.leaf, Some(j.right));
        if toRight then SetJob(s2, t, Storing(j.leaf, j.kv, j.right, j.moved))
        else if j.todo != [] then
          SetJob(SetFiller(s2, j.right, None), t, Storing(j.leaf, j.kv, j.leaf, j.todo[|j.todo| - 1]))
        else s
      else s
    case StoreSlot(t) =>
      if JobOf(s, t).Storing? then
        var j := JobOf(s, t);
        SetJob(Store(s, j.target, j.slot, j.kv), t, Marking(j.leaf, j.target, j.slot))
      else s
    case MarkBit(t) =>
      if JobOf(s, t).Marking? then
        var j := JobOf(s, t);
        var s1 := SetBits(s, j.target, BitsOf(s, j.target) + {j.slot});
        SetJob(if j.target != j.leaf then SetFiller(s1, j.target, None) else s1, t, Finishing(j.leaf))
      else s
    case RemoveHit(t, i) =>
      if JobOf(s, t).Holding? then
        var j := JobOf(s, t);
        SetJob(SetBits(s, j.leaf, BitsOf(s, j.leaf) - {i}), t, Removing(j.leaf, i))
      else s
    case RemoveTake(t) =>
      if JobOf(s, t).Removing? then
        var j := JobOf(s, t);
        SetJob(Take(s, j.leaf, j.slot, Returned(t)), t, Finishing(j.leaf))
      else s
    case MergeStart(t) =>
      if JobOf(s, t).Finishing? && SiblingOf(s, JobOf(s, t).leaf).Some? then
        var j := JobOf(s, t);
        var r := SiblingOf(s, j.leaf).value;
        SetJob(SetLatch(s, r, Some(t)), t, Merging(j.leaf, r, BitsOf(s, r), None))
      else s
    case MergeTake(t, i) =>
      if JobOf(s, t).Merging? then
        var j := JobOf(s, t);
        SetJob(Take(s, j.right, i, InHand(t)), t, j.(mask := j.mask - {i}, carried := Slot(s, j.right, i)))
      else s
    case MergePut(t, i) =>
      if JobOf(s, t).Merging? && JobOf(s, t).carried.Some? then
        var j := JobOf(s, t);
        SetJob(SetBits(Store(s, j.leaf, i, j.carried.value), j.leaf, BitsOf(s, j.leaf) + {i}), t, j.(carried := None))
      else s
    case MergeEnd(t) =>
      if JobOf(s, t).Merging? then
        var j := JobOf(s, t);
        var s1 := SetSibling(s, j.leaf, SiblingOf(s, j.right));
        var s2 := SetSibling(SetBits(s1, j.right, {}), j.right, Some(j.leaf));
        SetJob(SetLatch(s2, j.right, None), t, Finishing(j.leaf))
      else s
    case SortLatch(t, l) => SetJob(SetLatch(s, l, Some(t)), t, Sorting(l, BitsOf(s, l), {}, 0))
    case SortTake(t, i) =>
      if JobOf(s, t).Sorting? then
        var j := JobOf(s, t);
        SetJob(Take(s, j.leaf, i, InHand(t)), t,
               j.(rest := j.rest - {i}, sorted := if Slot(s, j.leaf, i).Some? then j.sorted + {Slot(s, j.leaf, i).value} else j.sorted))
      else s
    case SortPut(t, kv) =>
      if JobOf(s, t).Sorting? then
        var j := JobOf(s, t);
        SetJob(Store(s, j.leaf, j.put, kv), t, j.(sorted := j.sorted - {kv}, put := j.put + 1))
      else s
    case SortEnd(t) =>
      if JobOf(s, t).Sorting? then
        var j := JobOf(s, t);
        SetJob(SetLatch(SetBits(s, j.leaf, Prefix(j.put)), j.leaf, None), t, Idle)
      else s
    case RemoveMiss(t) =>
      if JobOf(s, t).Holding? then SetJob(s, t, Finishing(JobOf(s, t).leaf)) else s
    case Unlatch(t) =>
      if JobOf(s, t).Finishing? then SetJob(SetLatch(s, JobOf(s, t).leaf, None), t, Idle)
      else s
    case Publish(l) =>
      if l in s.leaves then SetLeaf(s, l, s.leaves[l].(published := true)) else s
  }
}
