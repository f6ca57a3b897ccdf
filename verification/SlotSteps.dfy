/**
 Every step of the slot protocol keeps its invariant.
 */
module SlotSteps {
  import opened Options
  import opened SlotProtocol
  import opened SlotInvariant

  // ---------- latch-free updates ----------

  /** What a compare and swap changes, and what it leaves. */
  lemma Swapped(s: State, t: Tid, l: Id, i: int, kv: KV, j: Job)
    requires Slot(s, l, i).Some?
    ensures var s' := SetJob(Exchange(s, l, i, kv, t), t, j);
            && Slot(s', l, i) == Some(kv) && OtherSlots(s, s', l, i) && OtherJobs(s, s', t) && JobOf(s', t) == j
            && SameLinks(s, s') && s'.size == s.size
            && (forall m :: m in s.leaves ==> s'.leaves[m].bits == s.leaves[m].bits && |s'.leaves[m].slots| == |s.leaves[m].slots|)
            && (forall m :: m in s.leaves && m != l ==> s'.leaves[m] == s.leaves[m])
  {
  }

  lemma KeepUpdateSwap(s: State, t: Tid)
    requires Inv(s) && Enabled(s, UpdateSwap(t))
    ensures Inv(Do(s, UpdateSwap(t)))
  {
    hide OwnersOk, PlacesOk, SlotsOk, OtherJobs, SameSlots;
    var s', j := Do(s, UpdateSwap(t)), JobOf(s, t);
    var l, i := j.seen.value.leaf, j.seen.value.slot;
    if Slot(s, l, i) == Some(j.seen.value.old_) {
      Swapped(s, t, l, i, j.kv, Idle);
      PlacesExchange(s, s', t, l, i, j.kv, j.seen.value.old_);
      OwnersSame(s, s', t);
      forall m | m in s'.leaves ensures SameLeaf(s, s', t, m) {
        NotMine(s, t, m);
        forall k ensures Slot(s', m, k).Some? <==> Slot(s, m, k).Some? {
          assert m != l || k != i ==> Slot(s', m, k) == Slot(s, m, k);
        }
      }
      SlotsStep(s, s', t, {});
    } else {
      KeepJob(s, t, Updating(j.kv, None));
    }
  }

  /** A step that changes nothing but the job of a thread, which stays at work on the same leaves. */
  lemma KeepJob(s: State, t: Tid, j: Job)
    requires Inv(s)
    requires SameJob(JobOf(s, t), j) && LatchedBy(j) == LatchedBy(JobOf(s, t)) && FilledBy(j) == FilledBy(JobOf(s, t))
    requires JobOk(s, j)
    requires forall l, bits :: Occupied(j, l, bits) == Occupied(JobOf(s, t), l, bits)
    ensures Inv(SetJob(s, t, j))
  {
    hide OwnersOk, PlacesOk, SlotsOk, LatchedBy, FilledBy, Occupied;
    var s' := SetJob(s, t, j);
    assert SameSlots(s, s') && OtherJobs(s, s', t) && JobOf(s', t) == j && SameLinks(s, s');
    PlacesSame(s, s', t);
    OwnersSame(s, s', t);
    SlotsJob(s, s', t);
  }

  lemma SlotsJob(s: State, s': State, t: Tid)
    requires SlotsOk(s) && s'.leaves == s.leaves && s'.size == s.size && OtherJobs(s, s', t) && JobOk(s, JobOf(s', t))
    requires forall l, bits :: Occupied(JobOf(s', t), l, bits) == Occupied(JobOf(s, t), l, bits)
    ensures SlotsOk(s')
  {
    hide Occupied;
    forall l | l in s'.leaves ensures LeafOk(s', l) {
      assert LeafOk(s, l);
      var w := Worker(s, l);
      assert Occupied(Worker(s', l), l, s.leaves[l].bits) == Occupied(w, l, s.leaves[l].bits);
    }
    forall u ensures JobOk(s', JobOf(s', u)) {
      assert JobOk(s, JobOf(s, u));
    }
  }

  lemma KeepHandIn(s: State, t: Tid, kv: KV, j: Job)
    requires Inv(s) && JobOf(s, t).Idle? && Fresh(s, kv) && (j == Updating(kv, None) || j == Arriving(Put(kv)))
    ensures Inv(SetPlace(SetJob(s, t, j), kv, AtCaller(t)))
  {
    hide OwnersOk, PlacesOk, SlotsOk;
    var s' := SetPlace(SetJob(s, t, j), kv, AtCaller(t));
    assert JobOf(s', t) == j && OtherJobs(s, s', t) && SameSlots(s, s');
    PlacesHandIn(s, s', t, kv);
    OwnersSame(s, s', t);
    SlotsJob(s, s', t);
  }

  lemma KeepUpdateFail(s: State, t: Tid)
    requires Inv(s) && Enabled(s, UpdateFail(t))
    ensures Inv(Do(s, UpdateFail(t)))
  {
    hide OwnersOk, PlacesOk, SlotsOk;
    var s', kv := Do(s, UpdateFail(t)), JobOf(s, t).kv;
    assert JobOf(s', t) == Idle && OtherJobs(s, s', t) && SameSlots(s, s');
    PlacesGiveUp(s, s', t, kv);
    OwnersSame(s, s', t);
    SlotsJob(s, s', t);
  }

  // ---------- latched work on one slot ----------

  /** Nothing but one slot of one leaf and one job has changed. */
  ghost predicate OneSlot(s: State, s': State, t: Tid, l: Id, i: int) {
    && l in s.leaves && s'.leaves.Keys == s.leaves.Keys && s'.size == s.size
    && (forall m :: m in s.leaves && m != l ==> s'.leaves[m] == s.leaves[m])
    && s'.leaves[l] == s.leaves[l].(slots := s'.leaves[l].slots) && |s'.leaves[l].slots| == |s.leaves[l].slots|
    && OtherSlots(s, s', l, i) && OtherJobs(s, s', t)
  }

  lemma TakeOne(s: State, t: Tid, l: Id, i: int, p: Place, j: Job)
    requires Slot(s, l, i).Some?
    ensures var s' := SetJob(Take(s, l, i, p), t, j);
            Slot(s', l, i) == None && OneSlot(s, s', t, l, i) && JobOf(s', t) == j && s'.place == s.place[Slot(s, l, i).value := p]
  {
  }

  lemma StoreOne(s: State, t: Tid, l: Id, i: int, kv: KV, j: Job)
    requires l in s.leaves && 0 <= i < |s.leaves[l].slots|
    ensures var s' := SetJob(Store(s, l, i, kv), t, j);
            Slot(s', l, i) == Some(kv) && OneSlot(s, s', t, l, i) && JobOf(s', t) == j && s'.place == s.place[kv := InSlot(l, i)]
  {
  }

  lemma ExchangeOne(s: State, t: Tid, l: Id, i: int, kv: KV, j: Job)
    requires Slot(s, l, i).Some?
    ensures var s' := SetJob(Exchange(s, l, i, kv, t), t, j);
            && Slot(s', l, i) == Some(kv) && OneSlot(s, s', t, l, i) && JobOf(s', t) == j
            && s'.place == s.place[kv := InSlot(l, i)][Slot(s, l, i).value := Returned(t)]
  {
  }

  /** A change of job changes what is expected of the thread's leaves at one slot only. */
  ghost predicate Shifts(s: State, j: Job, j': Job, l: Id, i: int) {
    forall m, k :: m in WorkOf(j) && (m != l || k != i) ==>
      (k in Occupied(j', m, BitsOf(s, m)) <==> k in Occupied(j, m, BitsOf(s, m)))
  }

  ghost predicate SameWork(j: Job, j': Job) {
    LatchedBy(j') == LatchedBy(j) && FilledBy(j') == FilledBy(j)
  }

  lemma JobOkSame(s: State, s': State, j: Job)
    requires JobOk(s, j) && s'.size == s.size
    requires forall l :: BitsOf(s', l) == BitsOf(s, l) && SiblingOf(s', l) == SiblingOf(s, l)
    ensures JobOk(s', j)
  {
  }

  lemma MyWorker(s: State, t: Tid, l: Id)
    requires OwnersOk(s) && l in WorkOf(JobOf(s, t))
    ensures l in s.leaves && Worker(s, l) == JobOf(s, t)
    ensures (s.leaves[l].latch == Some(t) || (s.leaves[l].latch == None && s.leaves[l].filler == Some(t)))
  {
    hide LatchedBy, FilledBy, JobOf;
    assert l in LatchedBy(JobOf(s, t)) + FilledBy(JobOf(s, t));
  }

  /** What the invariant says of a leaf at work on. */
  lemma MySlots(s: State, t: Tid, l: Id)
    requires OwnersOk(s) && SlotsOk(s) && l in WorkOf(JobOf(s, t))
    ensures l in s.leaves && |s.leaves[l].slots| == s.size && BitsOf(s, l) <= Prefix(s.size)
    ensures forall i :: 0 <= i < s.size ==> (Slot(s, l, i).Some? <==> i in Occupied(JobOf(s, t), l, BitsOf(s, l)))
    ensures JobOk(s, JobOf(s, t)) && s.size > 1
  {
    hide LatchedBy, FilledBy, JobOf, JobOk, Occupied, OwnersOk;
    MyWorker(s, t, l);
    assert LeafOk(s, l);
  }

  lemma OneSlotLeaves(s: State, s': State, t: Tid, l: Id, i: int)
    requires OwnersOk(s) && OwnersOk(s') && SlotsOk(s) && OneSlot(s, s', t, l, i) && l in WorkOf(JobOf(s, t))
    requires WorkOf(JobOf(s', t)) == WorkOf(JobOf(s, t)) && Shifts(s, JobOf(s, t), JobOf(s', t), l, i)
    requires 0 <= i < s.size && (Slot(s', l, i).Some? <==> i in Occupied(JobOf(s', t), l, BitsOf(s, l)))
    requires JobOk(s, JobOf(s', t))
    ensures SlotsOk(s')
  {
    hide LatchedBy, FilledBy, JobOf, Occupied, JobOk, OwnersOk, SlotsOk, WorkOf;
    forall m | m in s'.leaves && m in WorkOf(JobOf(s, t)) ensures LeafOk(s', m) {
      MySlots(s, t, m);
      MyWorker(s', t, m);
    }
    JobOkSame(s, s', JobOf(s', t));
    SlotsWork(s, s', t, {});
  }

  /** A worker takes a pair out of a slot of its own. */
  lemma KeepTake(s: State, t: Tid, l: Id, i: int, p: Place, j': Job)
    requires Inv(s) && l in WorkOf(JobOf(s, t)) && 0 <= i < s.size && (p == InHand(t) || p == Returned(t))
    requires i in Occupied(JobOf(s, t), l, BitsOf(s, l)) && i !in Occupied(j', l, BitsOf(s, l))
    requires Slot(s, l, i).Some? ==> HandOf(j') == HandOf(JobOf(s, t)) + (if p.InHand? then {Slot(s, l, i).value} else {})
    requires OwnOf(j') == OwnOf(JobOf(s, t)) && SameWork(JobOf(s, t), j')
    requires Slot(s, l, i).Some? ==> JobOk(s, j') && Shifts(s, JobOf(s, t), j', l, i)
    ensures Inv(SetJob(Take(s, l, i, p), t, j'))
  {
    hide LatchedBy, FilledBy, Occupied, JobOk, OwnersOk, SlotsOk, PlacesOk, OneSlot, HandOf, OwnOf, OtherJobs, Shifts, JobOf;
    var s' := SetJob(Take(s, l, i, p), t, j');
    MySlots(s, t, l);
    TakeOne(s, t, l, i, p, j');
    OneSlotAll(s, s', t, l, i);
    PlacesTake(s, s', t, l, i, Slot(s, l, i).value, p);
    OwnersSame(s, s', t);
    OneSlotLeaves(s, s', t, l, i);
  }

  /** A worker stores a pair of its own in an empty slot of its own. */
  lemma KeepStore(s: State, t: Tid, l: Id, i: int, kv: KV, j': Job)
    requires Inv(s) && l in WorkOf(JobOf(s, t)) && 0 <= i < s.size
    requires i !in Occupied(JobOf(s, t), l, BitsOf(s, l)) && i in Occupied(j', l, BitsOf(s, l))
    requires kv in HandOf(JobOf(s, t)) + OwnOf(JobOf(s, t))
    requires HandOf(j') == HandOf(JobOf(s, t)) - {kv} && OwnOf(j') == OwnOf(JobOf(s, t)) - {kv}
    requires SameWork(JobOf(s, t), j') && JobOk(s, j') && Shifts(s, JobOf(s, t), j', l, i)
    ensures Inv(SetJob(Store(s, l, i, kv), t, j'))
  {
    hide LatchedBy, FilledBy, Occupied, JobOk, OwnersOk, SlotsOk, PlacesOk, OneSlot, HandOf, OwnOf, OtherJobs, Shifts, JobOf;
    var s' := SetJob(Store(s, l, i, kv), t, j');
    MySlots(s, t, l);
    StoreOne(s, t, l, i, kv, j');
    OneSlotAll(s, s', t, l, i);
    PlacesStore(s, s', t, l, i, kv);
    OwnersSame(s, s', t);
    OneSlotLeaves(s, s', t, l, i);
  }

  lemma OneSlotAll(s: State, s': State, t: Tid, l: Id, i: int)
    requires OneSlot(s, s', t, l, i)
    ensures SameLinks(s, s') && OtherSlots(s, s', l, i) && OtherJobs(s, s', t)
  {
  }

  lemma KeepUpsertHit(s: State, t: Tid, i: int)
    requires Inv(s) && Enabled(s, UpsertHit(t, i))
    ensures Inv(Do(s, UpsertHit(t, i)))
  {
    hide OwnersOk, PlacesOk, SlotsOk, OtherJobs, OneSlot;
    var s', j := Do(s, UpsertHit(t, i)), JobOf(s, t);
    MySlots(s, t, j.leaf);
    ExchangeOne(s, t, j.leaf, i, j.op.kv, Finishing(j.leaf));
    OneSlotAll(s, s', t, j.leaf, i);
    PlacesExchange(s, s', t, j.leaf, i, j.op.kv, Slot(s, j.leaf, i).value);
    OwnersSame(s, s', t);
    OneSlotLeaves(s, s', t, j.leaf, i);
  }

  lemma KeepStoreSlot(s: State, t: Tid)
    requires Inv(s) && Enabled(s, StoreSlot(t))
    ensures Inv(Do(s, StoreSlot(t)))
  {
    hide OwnersOk, PlacesOk, SlotsOk;
    var j := JobOf(s, t);
    MySlots(s, t, j.target);
    KeepStore(s, t, j.target, j.slot, j.kv, Marking(j.leaf, j.target, j.slot));
  }

  lemma KeepSplitTake(s: State, t: Tid)
    requires Inv(s) && Enabled(s, SplitTake(t))
    ensures Inv(Do(s, SplitTake(t)))
  {
    hide OwnersOk, PlacesOk, SlotsOk;
    var j := JobOf(s, t);
    var i := j.todo[j.moved];
    MySlots(s, t, j.leaf);
    assert i in Elements(j.todo);
    assert TakenOf(j.todo, j.moved, j.hand) == j.todo[..j.moved];
    assert i !in j.todo[..j.moved];
    var j' := j.(hand := Slot(s, j.leaf, i));
    assert TakenOf(j.todo, j.moved, j'.hand) == j.todo[..j.moved] + [i];
    KeepTake(s, t, j.leaf, i, InHand(t), j');
  }

  lemma KeepSplitPut(s: State, t: Tid)
    requires Inv(s) && Enabled(s, SplitPut(t))
    ensures Inv(Do(s, SplitPut(t)))
  {
    hide OwnersOk, PlacesOk, SlotsOk;
    var j := JobOf(s, t);
    MySlots(s, t, j.right);
    var j' := j.(hand := None, moved := j.moved + 1);
    OwnNotInHand(s, t);
    assert TakenOf(j'.todo, j'.moved, j'.hand) == TakenOf(j.todo, j.moved, j.hand);
    KeepStore(s, t, j.right, j.moved, j.hand.value, j');
  }

  lemma OwnNotInHand(s: State, t: Tid)
    requires PlacesOk(s)
    ensures HandOf(JobOf(s, t)) !! OwnOf(JobOf(s, t))
  {
    hide HandOf, OwnOf, JobOf;
    forall kv | kv in HandOf(JobOf(s, t)) ensures kv !in OwnOf(JobOf(s, t)) {
      assert s.place[kv] == InHand(t);
    }
  }

  lemma KeepRemoveTake(s: State, t: Tid)
    requires Inv(s) && Enabled(s, RemoveTake(t))
    ensures Inv(Do(s, RemoveTake(t)))
  {
    hide OwnersOk, PlacesOk, SlotsOk;
    var j := JobOf(s, t);
    MySlots(s, t, j.leaf);
    KeepTake(s, t, j.leaf, j.slot, Returned(t), Finishing(j.leaf));
  }

  lemma KeepMergeTake(s: State, t: Tid, i: int)
    requires Inv(s) && Enabled(s, MergeTake(t, i))
    ensures Inv(Do(s, MergeTake(t, i)))
  {
    hide OwnersOk, PlacesOk, SlotsOk;
    var j := JobOf(s, t);
    MySlots(s, t, j.right);
    KeepTake(s, t, j.right, i, InHand(t), j.(mask := j.mask - {i}, carried := Slot(s, j.right, i)));
  }

  /** The pairs in hand, the slots still to empty and the slots filled again are never more than the leaf has slots. */
  lemma SortTakeJob(s: State, j: Job, i: int, kv: KV)
    requires j.Sorting? && JobOk(s, j) && i in j.rest
    ensures 0 <= i < s.size && JobOk(s, Sorting(j.leaf, j.rest - {i}, j.sorted + {kv}, j.put))
  {
    assert |j.rest - {i}| == |j.rest| - 1;
  }

  lemma SortTakeShifts(s: State, j: Job, i: int, kv: KV)
    requires j.Sorting? && JobOk(s, j) && i in j.rest
    ensures var j' := Sorting(j.leaf, j.rest - {i}, j.sorted + {kv}, j.put);
            && Shifts(s, j, j', j.leaf, i) && SameWork(j, j')
            && HandOf(j') == HandOf(j) + {kv} && OwnOf(j') == OwnOf(j)
            && i in Occupied(j, j.leaf, BitsOf(s, j.leaf)) && i !in Occupied(j', j.leaf, BitsOf(s, j.leaf))
  {
  }

  lemma KeepSortTake(s: State, t: Tid, i: int)
    requires Inv(s) && Enabled(s, SortTake(t, i))
    ensures Inv(Do(s, SortTake(t, i)))
  {
    hide OwnersOk, PlacesOk, SlotsOk, Occupied, JobOk, Shifts, SameWork, HandOf, OwnOf, Take, Store, SetJob;
    var j := JobOf(s, t);
    MySlots(s, t, j.leaf);
    SortTakeJob(s, j, i, KV(0, 0));
    SortTakeShifts(s, j, i, KV(0, 0));
    var kv := Slot(s, j.leaf, i).value;
    SortTakeJob(s, j, i, kv);
    SortTakeShifts(s, j, i, kv);
    KeepTake(s, t, j.leaf, i, InHand(t), Sorting(j.leaf, j.rest - {i}, j.sorted + {kv}, j.put));
  }

  lemma SortPutJob(s: State, j: Job, kv: KV)
    requires j.Sorting? && JobOk(s, j) && j.rest == {} && kv in j.sorted
    ensures j.put < s.size && JobOk(s, Sorting(j.leaf, j.rest, j.sorted - {kv}, j.put + 1))
  {
    assert |j.sorted - {kv}| == |j.sorted| - 1;
  }

  lemma SortPutShifts(s: State, j: Job, kv: KV)
    requires j.Sorting? && j.rest == {} && kv in j.sorted
    ensures var j' := Sorting(j.leaf, j.rest, j.sorted - {kv}, j.put + 1);
            && Shifts(s, j, j', j.leaf, j.put) && SameWork(j, j')
            && kv in HandOf(j) + OwnOf(j) && HandOf(j') == HandOf(j) - {kv} && OwnOf(j') == OwnOf(j) - {kv}
            && j.put !in Occupied(j, j.leaf, BitsOf(s, j.leaf)) && j.put in Occupied(j', j.leaf, BitsOf(s, j.leaf))
  {
  }

  lemma SortPutDoes(s: State, t: Tid, kv: KV)
    requires Enabled(s, SortPut(t, kv))
    ensures var j := JobOf(s, t);
            && j.Sorting? && j.rest == {} && kv in j.sorted && j.leaf in WorkOf(j)
            && Do(s, SortPut(t, kv)) == SetJob(Store(s, j.leaf, j.put, kv), t, Sorting(j.leaf, j.rest, j.sorted - {kv}, j.put + 1))
  {
  }

  lemma KeepSortPut(s: State, t: Tid, kv: KV)
    requires Inv(s) && Enabled(s, SortPut(t, kv))
    ensures Inv(Do(s, SortPut(t, kv)))
  {
    hide *;
    SortPutDoes(s, t, kv);
    var j := JobOf(s, t);
    InvParts(s);
    MySlots(s, t, j.leaf);
    SortPutJob(s, j, kv);
    SortPutShifts(s, j, kv);
    KeepStore(s, t, j.leaf, j.put, kv, Sorting(j.leaf, j.rest, j.sorted - {kv}, j.put + 1));
  }

  /** Storing a merged pair sets its bit too; every other slot of the two leaves is as it was. */
  lemma MergePutLeaves(s: State, s': State, t: Tid, i: int, l: Id, r: Id, j: Job)
    requires OwnersOk(s) && OwnersOk(s') && SlotsOk(s) && JobOf(s, t) == j && j.Merging? && j.leaf == l && j.right == r
    requires s'.leaves.Keys == s.leaves.Keys && s'.size == s.size && OtherJobs(s, s', t)
    requires JobOf(s', t) == Merging(l, r, j.mask, None) && 0 <= i < s.size && i !in BitsOf(s, l)
    requires forall m :: m in s.leaves && m != l ==> s'.leaves[m] == s.leaves[m]
    requires l in s.leaves && s'.leaves[l].bits == s.leaves[l].bits + {i} && |s'.leaves[l].slots| == |s.leaves[l].slots|
    requires Slot(s', l, i).Some? && OtherSlots(s, s', l, i)
    ensures SlotsOk(s')
  {
    hide OwnersOk, SlotsOk, OtherJobs;
    MySlots(s, t, j.leaf);
    MySlots(s, t, j.right);
    MyWorker(s', t, j.leaf);
    MyWorker(s', t, j.right);
    assert LeafOk(s', j.leaf);
    assert LeafOk(s', j.right);
    SlotsWork(s, s', t, {});
  }

  /** Storing a merged pair and setting its bit. */
  lemma KeepMergePut(s: State, t: Tid, i: int)
    requires Inv(s) && Enabled(s, MergePut(t, i))
    ensures Inv(Do(s, MergePut(t, i)))
  {
    hide OwnersOk, PlacesOk, SlotsOk, OtherJobs;
    var s', j := Do(s, MergePut(t, i)), JobOf(s, t);
    MySlots(s, t, j.leaf);
    var j' := j.(carried := None);
    StoreOne(s, t, j.leaf, i, j.carried.value, j');
    var s1 := SetJob(Store(s, j.leaf, i, j.carried.value), t, j');
    assert SameSlots(s1, s') && SameLinks(s, s');
    OneJob(s, s', t);
    PlacesStore(s, s', t, j.leaf, i, j.carried.value);
    OwnersSame(s, s', t);
    MergePutLeaves(s, s', t, i, j.leaf, j.right, j);
  }

  lemma OneJob(s: State, s': State, t: Tid)
    requires t in s'.jobs && s'.jobs == s.jobs[t := s'.jobs[t]]
    ensures OtherJobs(s, s', t)
  {
  }

  // ---------- latching, splitting and merging ----------

  /** Other threads hold and fill the leaves they did before. */
  ghost predicate OthersKeep(s: State, s': State, t: Tid) {
    && OtherJobs(s, s', t) && s.leaves.Keys <= s'.leaves.Keys
    && forall l, u :: l in s'.leaves && u != t ==>
      && (s'.leaves[l].latch == Some(u) <==> l in s.leaves && s.leaves[l].latch == Some(u))
      && (s'.leaves[l].filler == Some(u) <==> l in s.leaves && s.leaves[l].filler == Some(u))
  }

  /** Latches, fillers and links have changed, for one thread; no pair has moved. */
  ghost predicate Relinked(s: State, s': State, t: Tid) {
    && OthersKeep(s, s', t) && LinksOk(s')
    && (forall l :: l in s'.leaves ==> (s'.leaves[l].latch == Some(t) <==> l in LatchedBy(JobOf(s', t))))
    && (forall l :: l in s'.leaves ==> (s'.leaves[l].filler == Some(t) <==> l in FilledBy(JobOf(s', t))))
    && WorkOf(JobOf(s', t)) <= s'.leaves.Keys
    && SameSlots(s, s') && SameJob(JobOf(s, t), JobOf(s', t)) && s'.place == s.place && s'.size == s.size
  }

  lemma OwnersChange(s: State, s': State, t: Tid)
    requires OwnersOk(s) && Relinked(s, s', t)
    ensures OwnersOk(s')
  {
    hide LatchedBy, FilledBy, JobOf, LinksOk, SameSlots, SameJob;
    forall l, u | l in s'.leaves
      ensures s'.leaves[l].latch == Some(u) <==> l in LatchedBy(JobOf(s', u))
      ensures s'.leaves[l].filler == Some(u) <==> l in FilledBy(JobOf(s', u))
    {
      if u != t {
        assert JobOf(s', u) == JobOf(s, u);
        if l !in s.leaves && l in LatchedBy(JobOf(s, u)) + FilledBy(JobOf(s, u)) {
          assert false;
        }
      }
    }
    forall u, l | l in LatchedBy(JobOf(s', u)) + FilledBy(JobOf(s', u)) ensures l in s'.leaves {
      if u == t {
        assert l in WorkOf(JobOf(s', t));
      } else {
        assert JobOf(s', u) == JobOf(s, u);
      }
    }
  }

  predicate Turned(was: Option<Tid>, now: Option<Tid>, t: Tid) {
    now == was || ((was == None || was == Some(t)) && (now == None || now == Some(t)))
  }

  lemma RelinkedBy(s: State, s': State, t: Tid)
    requires t in s'.jobs && s'.jobs == s.jobs[t := s'.jobs[t]] && s.leaves.Keys <= s'.leaves.Keys && LinksOk(s')
    requires forall l :: l in s'.leaves ==>
      && (s'.leaves[l].latch == Some(t) <==> l in LatchedBy(JobOf(s', t)))
      && (s'.leaves[l].filler == Some(t) <==> l in FilledBy(JobOf(s', t)))
      && Turned(if l in s.leaves then s.leaves[l].latch else None, s'.leaves[l].latch, t)
      && Turned(if l in s.leaves then s.leaves[l].filler else None, s'.leaves[l].filler, t)
    requires WorkOf(JobOf(s', t)) <= s'.leaves.Keys
    requires SameSlots(s, s') && SameJob(JobOf(s, t), JobOf(s', t)) && s'.place == s.place && s'.size == s.size
    ensures Relinked(s, s', t)
  {
    hide LinksOk, SameSlots, SameJob, LatchedBy, FilledBy;
    OneJob(s, s', t);
  }

  lemma RelinkedKeeps(s: State, s': State, t: Tid)
    requires OwnersOk(s) && PlacesOk(s) && Relinked(s, s', t)
    ensures OwnersOk(s') && PlacesOk(s') && OtherJobs(s, s', t) && s.leaves.Keys <= s'.leaves.Keys
  {
    hide OwnersOk, PlacesOk, LinksOk, SameJob, LatchedBy, FilledBy, OtherJobs;
    OwnersChange(s, s', t);
    PlacesSame(s, s', t);
  }

  /** A leaf keeps its book when the slots expected to be occupied stay the same. */
  lemma LeafKept(s: State, s': State, l: Id)
    requires SlotsOk(s) && l in s.leaves && l in s'.leaves && s'.size == s.size && SameSlots(s, s')
    requires |s'.leaves[l].slots| == |s.leaves[l].slots| && s'.leaves[l].bits <= Prefix(s.size)
    requires Occupied(Worker(s', l), l, s'.leaves[l].bits) == Occupied(Worker(s, l), l, s.leaves[l].bits)
    ensures LeafOk(s', l)
  {
    hide Occupied, Worker, Slot;
    assert LeafOk(s, l);
    forall i | 0 <= i < s.size ensures Slot(s', l, i).Some? <==> i in Occupied(Worker(s', l), l, s'.leaves[l].bits) {
      assert Slot(s, l, i).Some? <==> i in Occupied(Worker(s, l), l, s.leaves[l].bits);
    }
  }

  lemma BitsFit(s: State, l: Id)
    requires SlotsOk(s) && l in s.leaves
    ensures |s.leaves[l].slots| == s.size && s.leaves[l].bits <= Prefix(s.size)
  {
    assert LeafOk(s, l);
  }

  lemma InvParts(s: State)
    requires Inv(s)
    ensures OwnersOk(s) && PlacesOk(s) && SlotsOk(s)
  {
  }

  lemma InvWhole(s: State)
    requires OwnersOk(s) && PlacesOk(s) && SlotsOk(s)
    ensures Inv(s)
  {
  }

  /** A leaf that a writer can reach, through the level above or from its latched left neighbour, is not being filled. */
  lemma SiblingSettled(s: State, t: Tid, l: Id)
    requires OwnersOk(s) && l in LatchedBy(JobOf(s, t)) && FilledBy(JobOf(s, t)) == {} && SiblingOf(s, l).Some?
    ensures SiblingOf(s, l).value in s.leaves && s.leaves[SiblingOf(s, l).value].filler.None?
  {
    hide LatchedBy, FilledBy, JobOf;
    var r := SiblingOf(s, l).value;
    assert l in LatchedBy(JobOf(s, t)) + FilledBy(JobOf(s, t));
    assert s.leaves[r].filler == Some(t) ==> r in FilledBy(JobOf(s, t));
  }

  // Latching a free leaf.

  lemma LatchRelinks(s: State, s': State, t: Tid, l: Id)
    requires OwnersOk(s) && l in s.leaves && s.leaves[l].latch.None? && s.leaves[l].filler.None?
    requires s' == SetJob(SetLatch(s, l, Some(t)), t, JobOf(s', t)) && SameJob(JobOf(s, t), JobOf(s', t))
    requires WorkOf(JobOf(s, t)) == FilledBy(JobOf(s', t)) == {} && LatchedBy(JobOf(s', t)) == {l}
    ensures Relinked(s, s', t)
  {
    hide LinksOk, OwnersOk, LatchedBy, FilledBy;
    MergeStartLinks(s, s', t, l);
    forall m | m in s'.leaves
      ensures s'.leaves[m].latch == Some(t) <==> m == l
      ensures s'.leaves[m].filler != Some(t)
    {
      NotMine(s, t, m);
    }
    assert SameSlots(s, s');
    RelinkedBy(s, s', t);
  }

  lemma LatchSlots(s: State, s': State, t: Tid, l: Id)
    requires OwnersOk(s) && SlotsOk(s) && OwnersOk(s') && l in s.leaves && s.leaves[l].latch.None? && s.leaves[l].filler.None?
    requires s' == SetJob(SetLatch(s, l, Some(t)), t, JobOf(s', t)) && SameSlots(s, s')
    requires WorkOf(JobOf(s, t)) == {} && l in WorkOf(JobOf(s', t)) && JobOk(s, JobOf(s', t))
    requires Occupied(JobOf(s', t), l, s.leaves[l].bits) == s.leaves[l].bits
    ensures SlotsOk(s')
  {
    hide SlotsOk, OwnersOk, Occupied, JobOk, LatchedBy, FilledBy;
    OneJob(s, s', t);
    BitsFit(s, l);
    MyWorker(s', t, l);
    IdleOccupied(l, s.leaves[l].bits);
    LeafKept(s, s', l);
    JobOkSame(s, s', JobOf(s', t));
    SlotsWork(s, s', t, {l});
  }

  lemma IdleOccupied(l: Id, bits: set<int>)
    ensures Occupied(Idle, l, bits) == bits
  {
  }

  lemma KeepLatchFree(s: State, t: Tid, l: Id, j: Job)
    requires Inv(s) && l in s.leaves && s.leaves[l].latch.None? && s.leaves[l].filler.None?
    requires SameJob(JobOf(s, t), j) && JobOk(s, j)
    requires WorkOf(JobOf(s, t)) == FilledBy(j) == {} && LatchedBy(j) == {l}
    requires Occupied(j, l, s.leaves[l].bits) == s.leaves[l].bits
    ensures Inv(SetJob(SetLatch(s, l, Some(t)), t, j))
  {
    hide OwnersOk, PlacesOk, SlotsOk, LeafOk, Occupied, LatchedBy, FilledBy, JobOk, Relinked;
    var s' := SetJob(SetLatch(s, l, Some(t)), t, j);
    assert JobOf(s', t) == j && SameSlots(s, s');
    LatchRelinks(s, s', t, l);
    RelinkedKeeps(s, s', t);
    LatchSlots(s, s', t, l);
  }

  lemma KeepLatch(s: State, t: Tid, l: Id)
    requires Inv(s) && Enabled(s, Latch(t, l))
    ensures Inv(Do(s, Latch(t, l)))
  {
    hide PlacesOk, SlotsOk;
    KeepLatchFree(s, t, l, Holding(l, JobOf(s, t).op));
  }

  lemma KeepSortLatch(s: State, t: Tid, l: Id)
    requires Inv(s) && Enabled(s, SortLatch(t, l)) && Guarded(s, SortLatch(t, l))
    ensures Inv(Do(s, SortLatch(t, l)))
  {
    hide PlacesOk, SlotsOk, OwnersOk;
    BitsFit(s, l);
    PrefixSize(s.size, s.leaves[l].bits);
    KeepLatchFree(s, t, l, Sorting(l, BitsOf(s, l), {}, 0));
  }

  lemma PrefixSize(n: nat, b: set<int>)
    requires b <= Prefix(n)
    ensures |b| <= n
  {
    if n > 0 {
      PrefixSize(n - 1, b - {n - 1});
    }
  }

  // Moving right with a latch in hand.

  lemma LatchRightRelinks(s: State, s': State, t: Tid)
    requires OwnersOk(s) && Enabled(s, LatchRight(t)) && s' == Do(s, LatchRight(t))
    ensures Relinked(s, s', t)
  {
    hide LinksOk, OwnersOk;
    var l := JobOf(s, t).leaf;
    SiblingSettled(s, t, l);
    FreeLatched(s, t, l);
    UnlatchedLinks(s, s', t, l);
    forall m | m in s'.leaves
      ensures s'.leaves[m].latch == Some(t) <==> m in LatchedBy(JobOf(s', t))
      ensures s'.leaves[m].filler == Some(t) <==> m in FilledBy(JobOf(s', t))
    {
      Latched(s, t, m);
    }
    assert SameSlots(s, s');
    RelinkedBy(s, s', t);
  }

  /** Whoever lets go of a leaf without filling another leaves no half-made sibling behind it. */
  lemma UnlatchedLinks(s: State, s': State, t: Tid, l: Id)
    requires OwnersOk(s) && l in s.leaves && s.leaves[l].latch == Some(t) && FilledBy(JobOf(s, t)) == {}
    requires s'.leaves.Keys == s.leaves.Keys
    requires forall m :: m in s.leaves ==>
      && s'.leaves[m].sibling == s.leaves[m].sibling && s'.leaves[m].filler == s.leaves[m].filler
      && s'.leaves[m].published == s.leaves[m].published
      && (m == l || s'.leaves[m].latch == s.leaves[m].latch || (s.leaves[m].latch.None? && s.leaves[m].filler.None?))
    requires s'.leaves[l].latch.None?
    ensures LinksOk(s')
  {
    forall x, m | x in s'.leaves && m in s'.leaves && s'.leaves[x].sibling == Some(m) && s'.leaves[m].filler.Some?
      ensures s'.leaves[x].latch == s'.leaves[m].filler
    {
      assert s.leaves[x].latch == s.leaves[m].filler;
      assert m in FilledBy(JobOf(s, s.leaves[m].filler.value));
    }
  }

  lemma LatchRightSlots(s: State, s': State, t: Tid)
    requires OwnersOk(s) && OwnersOk(s') && SlotsOk(s) && SameSlots(s, s')
    requires Enabled(s, LatchRight(t)) && s' == Do(s, LatchRight(t))
    ensures SlotsOk(s')
  {
    hide OwnersOk, SlotsOk, LinksOk, LeafOk, SameSlots;
    var j := JobOf(s, t);
    var r := SiblingOf(s, j.leaf).value;
    SiblingSettled(s, t, j.leaf);
    OneJob(s, s', t);
    MyWorker(s, t, j.leaf);
    MyWorker(s', t, r);
    FreeLatched(s, t, j.leaf);
    BitsFit(s, j.leaf);
    BitsFit(s, r);
    LeafKept(s, s', j.leaf);
    LeafKept(s, s', r);
    SlotsWork(s, s', t, {r});
  }

  lemma KeepLatchRight(s: State, t: Tid)
    requires Inv(s) && Enabled(s, LatchRight(t))
    ensures Inv(Do(s, LatchRight(t)))
  {
    hide OwnersOk, PlacesOk, SlotsOk, LinksOk, LeafOk, Enabled, Do;
    var s' := Do(s, LatchRight(t));
    LatchRightRelinks(s, s', t);
    RelinkedKeeps(s, s', t);
    LatchRightSlots(s, s', t);
  }

  // Letting go of a leaf.

  lemma LetGoRelinks(s: State, s': State, t: Tid, l: Id, bits: set<int>)
    requires OwnersOk(s) && l in s.leaves && LatchedBy(JobOf(s, t)) == {l} && FilledBy(JobOf(s, t)) == {}
    requires SameJob(JobOf(s, t), Idle) && s' == SetJob(SetLatch(SetBits(s, l, bits), l, None), t, Idle)
    ensures Relinked(s, s', t)
  {
    OneJob(s, s', t);
    assert l in LatchedBy(JobOf(s, t));
    UnlatchedLinks(s, s', t, l);
    forall m | m in s'.leaves ensures s'.leaves[m].latch != Some(t) && s'.leaves[m].filler != Some(t) {
      assert m in LatchedBy(JobOf(s, t)) <==> m == l;
      assert m !in FilledBy(JobOf(s, t));
    }
    assert SameSlots(s, s');
  }

  lemma KeepLetGo(s: State, t: Tid, l: Id, bits: set<int>)
    requires Inv(s) && l in s.leaves && LatchedBy(JobOf(s, t)) == {l} && FilledBy(JobOf(s, t)) == {}
    requires SameJob(JobOf(s, t), Idle)
    requires bits == Occupied(JobOf(s, t), l, s.leaves[l].bits) && bits <= Prefix(s.size)
    ensures Inv(SetJob(SetLatch(SetBits(s, l, bits), l, None), t, Idle))
  {
    hide OwnersOk, PlacesOk, SlotsOk, LeafOk, Occupied, LatchedBy, FilledBy, SameJob, Relinked, SameSlots;
    var s' := SetJob(SetLatch(SetBits(s, l, bits), l, None), t, Idle);
    LetGoRelinks(s, s', t, l, bits);
    RelinkedKeeps(s, s', t);
    assert SameSlots(s, s') by { RelinkedSlots(s, s', t); }
    MyWorker(s, t, l);
    FreeLatched(s, t, l);
    BitsFit(s, l);
    IdleOccupied(l, bits);
    LeafKept(s, s', l);
    SlotsWork(s, s', t, {});
  }

  lemma RelinkedSlots(s: State, s': State, t: Tid)
    requires Relinked(s, s', t)
    ensures SameSlots(s, s')
  {
  }

  lemma FreeLatched(s: State, t: Tid, l: Id)
    requires OwnersOk(s) && l in s.leaves && l in LatchedBy(JobOf(s, t))
    ensures s.leaves[l].latch == Some(t) && s.leaves[l].filler.None?
  {
  }

  lemma KeepUnlatch(s: State, t: Tid)
    requires Inv(s) && Enabled(s, Unlatch(t))
    ensures Inv(Do(s, Unlatch(t)))
  {
    hide OwnersOk, PlacesOk, SlotsOk;
    var j := JobOf(s, t);
    MySlots(s, t, j.leaf);
    KeepLetGo(s, t, j.leaf, BitsOf(s, j.leaf));
    assert SetBits(s, j.leaf, BitsOf(s, j.leaf)) == s;
  }

  lemma KeepSortEnd(s: State, t: Tid)
    requires Inv(s) && Enabled(s, SortEnd(t))
    ensures Inv(Do(s, SortEnd(t)))
  {
    hide OwnersOk, PlacesOk, SlotsOk;
    var j := JobOf(s, t);
    MySlots(s, t, j.leaf);
    KeepLetGo(s, t, j.leaf, Prefix(j.put));
  }

  // Setting and clearing bits.

  lemma KeepRemoveHit(s: State, t: Tid, i: int)
    requires Inv(s) && Enabled(s, RemoveHit(t, i))
    ensures Inv(Do(s, RemoveHit(t, i)))
  {
    hide OwnersOk, PlacesOk, SlotsOk;
    var s', j := Do(s, RemoveHit(t, i)), JobOf(s, t);
    OneJob(s, s', t);
    assert SameSlots(s, s') && SameLinks(s, s');
    PlacesSame(s, s', t);
    OwnersSame(s, s', t);
    MySlots(s, t, j.leaf);
    MyWorker(s', t, j.leaf);
    assert LeafOk(s', j.leaf);
    SlotsWork(s, s', t, {});
  }

  lemma MarkBitDoes(s: State, s': State, t: Tid)
    requires OwnersOk(s) && Enabled(s, MarkBit(t)) && s' == Do(s, MarkBit(t))
    ensures var j := JobOf(s, t);
            && s'.leaves.Keys == s.leaves.Keys && s'.place == s.place && s'.size == s.size && s'.jobs == s.jobs[t := Finishing(j.leaf)]
            && (forall l :: l in s.leaves ==> s'.leaves[l].slots == s.leaves[l].slots && s'.leaves[l].latch == s.leaves[l].latch)
            && (forall l :: l in s.leaves ==> s'.leaves[l].filler == if l == j.target then None else s.leaves[l].filler)
  {
    assert JobOf(s, t).target in WorkOf(JobOf(s, t));
    MyWorker(s, t, JobOf(s, t).target);
    MyWorker(s, t, JobOf(s, t).leaf);
    FreeLatched(s, t, JobOf(s, t).leaf);
  }

  lemma MarkBitTurned(s: State, t: Tid, j: Job, l: Id)
    requires OwnersOk(s) && j == JobOf(s, t) && j.Marking? && l in s.leaves
    ensures s.leaves[l].latch == Some(t) <==> l == j.leaf
    ensures l != j.target ==> s.leaves[l].filler != Some(t)
    ensures l == j.target ==> Turned(s.leaves[l].filler, None, t)
  {
    hide OwnersOk;
    Latched(s, t, l);
  }

  lemma MarkBitRelinks(s: State, s': State, t: Tid)
    requires OwnersOk(s) && Enabled(s, MarkBit(t)) && s' == Do(s, MarkBit(t))
    ensures Relinked(s, s', t)
  {
    hide LinksOk, Do, OwnersOk, Turned, Relinked;
    MarkBitDoes(s, s', t);
    MarkBitLinks(s, s', t);
    var j := JobOf(s, t);
    assert LatchedBy(JobOf(s', t)) == {j.leaf} && FilledBy(JobOf(s', t)) == {};
    forall l | l in s'.leaves
      ensures s'.leaves[l].latch == Some(t) <==> l in LatchedBy(JobOf(s', t))
      ensures s'.leaves[l].filler == Some(t) <==> l in FilledBy(JobOf(s', t))
      ensures Turned(s.leaves[l].filler, s'.leaves[l].filler, t)
      ensures Turned(s.leaves[l].latch, s'.leaves[l].latch, t)
    {
      MarkBitTurned(s, t, j, l);
      TurnedSame(s.leaves[l].filler, t);
      TurnedSame(s.leaves[l].latch, t);
    }
    MyWorker(s, t, j.leaf);
    assert SameSlots(s, s');
    RelinkedBy(s, s', t);
  }

  lemma TurnedSame(x: Option<Tid>, t: Tid)
    ensures Turned(x, x, t)
  {
  }

  lemma Latched(s: State, t: Tid, l: Id)
    requires OwnersOk(s) && l in s.leaves
    ensures s.leaves[l].latch == Some(t) <==> l in LatchedBy(JobOf(s, t))
    ensures s.leaves[l].filler == Some(t) <==> l in FilledBy(JobOf(s, t))
    ensures s.leaves[l].latch == Some(t) ==> s.leaves[l].filler == None
  {
  }

  lemma MarkBitLinks(s: State, s': State, t: Tid)
    requires OwnersOk(s) && Enabled(s, MarkBit(t)) && s' == Do(s, MarkBit(t))
    ensures LinksOk(s')
  {
    hide WorkOf, LatchedBy, FilledBy;
  }

  lemma MarkBitSlots(s: State, s': State, t: Tid)
    requires OwnersOk(s) && OwnersOk(s') && SlotsOk(s) && SameSlots(s, s')
    requires Enabled(s, MarkBit(t)) && s' == Do(s, MarkBit(t))
    ensures SlotsOk(s')
  {
    hide OwnersOk, SlotsOk, LinksOk, LeafOk, SameSlots;
    var j := JobOf(s, t);
    OneJob(s, s', t);
    MySlots(s, t, j.leaf);
    MySlots(s, t, j.target);
    MyWorker(s, t, j.leaf);
    MyWorker(s, t, j.target);
    MyWorker(s', t, j.leaf);
    LeafKept(s, s', j.leaf);
    if j.target != j.leaf {
      FillingUnlatched(s, t, j.target);
    }
    LeafKept(s, s', j.target);
    SlotsWork(s, s', t, {});
  }

  lemma FillingUnlatched(s: State, t: Tid, l: Id)
    requires OwnersOk(s) && l in FilledBy(JobOf(s, t))
    ensures l in s.leaves && s.leaves[l].latch.None?
  {
    assert l in LatchedBy(JobOf(s, t)) + FilledBy(JobOf(s, t));
  }

  lemma KeepMarkBit(s: State, t: Tid)
    requires Inv(s) && Enabled(s, MarkBit(t))
    ensures Inv(Do(s, MarkBit(t)))
  {
    hide OwnersOk, PlacesOk, SlotsOk, LinksOk, LeafOk, Enabled, Do;
    var s' := Do(s, MarkBit(t));
    MarkBitRelinks(s, s', t);
    RelinkedKeeps(s, s', t);
    MarkBitSlots(s, s', t);
  }

  lemma KeepPublish(s: State, l: Id)
    requires Inv(s) && Enabled(s, Publish(l))
    ensures Inv(Do(s, Publish(l)))
  {
    hide OwnersOk, PlacesOk, SlotsOk;
    var s' := Do(s, Publish(l));
    assert SameSlots(s, s');
    PlacesSame(s, s', 0);
    PublishOwners(s, l);
    PublishSlots(s, l);
  }

  lemma PublishOwners(s: State, l: Id)
    requires OwnersOk(s) && Enabled(s, Publish(l))
    ensures OwnersOk(Do(s, Publish(l)))
  {
    hide LatchedBy, FilledBy;
    var s' := Do(s, Publish(l));
    forall u ensures JobOf(s', u) == JobOf(s, u) {
    }
    forall m | m in s'.leaves ensures s'.leaves[m] == s.leaves[m].(published := s'.leaves[m].published) {
    }
    assert LinksOk(s');
  }

  lemma PublishSlots(s: State, l: Id)
    requires SlotsOk(s) && Enabled(s, Publish(l))
    ensures SlotsOk(Do(s, Publish(l)))
  {
    hide Occupied, LeafOk;
    var s' := Do(s, Publish(l));
    assert SameSlots(s, s');
    forall m | m in s'.leaves ensures LeafOk(s', m) {
      BitsFit(s, m);
      LeafKept(s, s', m);
    }
    forall u ensures JobOk(s', JobOf(s', u)) {
      assert JobOk(s, JobOf(s, u));
    }
  }

  // Splitting.

  lemma SplitStartDoes(s: State, s': State, t: Tid, right: Id, todo: seq<int>)
    requires Enabled(s, SplitStart(t, right, todo)) && s' == Do(s, SplitStart(t, right, todo))
    ensures var j := JobOf(s, t);
            && s'.leaves == s.leaves[right := Leaf(NoSlots(s.size), {}, None, Some(t), None, false)]
            && s'.jobs == s.jobs[t := Splitting(j.leaf, j.op.kv, right, todo, 0, None)] && s'.place == s.place && s'.size == s.size
            && right !in s.leaves && s.leaves[j.leaf].bits == Prefix(s.size)
            && Distinct(todo) && Elements(todo) <= s.leaves[j.leaf].bits && (|todo| == s.size / 2 || todo == [])
  {
  }

  lemma SplitStartRelinks(s: State, s': State, t: Tid, right: Id, todo: seq<int>)
    requires OwnersOk(s) && Enabled(s, SplitStart(t, right, todo)) && s' == Do(s, SplitStart(t, right, todo))
    ensures Relinked(s, s', t)
  {
    hide Do, OwnersOk, LinksOk;
    SplitStartDoes(s, s', t, right, todo);
    SplitStartLinks(s, s', right);
    assert SameSlots(s, s');
    forall l | l in s'.leaves
      ensures s'.leaves[l].latch == Some(t) <==> l in LatchedBy(JobOf(s', t))
      ensures s'.leaves[l].filler == Some(t) <==> l in FilledBy(JobOf(s', t))
    {
      if l != right {
        Latched(s, t, l);
      }
    }
    RelinkedBy(s, s', t);
  }

  lemma SplitStartLinks(s: State, s': State, right: Id)
    requires OwnersOk(s) && right !in s.leaves && right in s'.leaves && s'.leaves == s.leaves[right := s'.leaves[right]]
    requires s'.leaves[right].latch.None? && !s'.leaves[right].published && s'.leaves[right].sibling.None?
    ensures LinksOk(s')
  {
  }

  lemma SplitStartSlots(s: State, s': State, t: Tid, right: Id, todo: seq<int>)
    requires OwnersOk(s) && OwnersOk(s') && SlotsOk(s) && SameSlots(s, s')
    requires Enabled(s, SplitStart(t, right, todo)) && s' == Do(s, SplitStart(t, right, todo))
    ensures SlotsOk(s')
  {
    hide Do, OwnersOk, SlotsOk, LinksOk, LeafOk, SameSlots;
    SplitStartDoes(s, s', t, right, todo);
    OneJob(s, s', t);
    var j, j' := JobOf(s, t), JobOf(s', t);
    MySlots(s, t, j.leaf);
    MyWorker(s, t, j.leaf);
    MyWorker(s', t, j.leaf);
    MyWorker(s', t, right);
    assert TakenOf(todo, 0, None) == [];
    LeafKept(s, s', j.leaf);
    assert LeafOk(s', right) by { NewLeafOk(s', right); }
    SiblingNot(s, j.leaf, right);
    SlotsWork(s, s', t, {right});
  }

  lemma NewLeafOk(s: State, l: Id)
    requires l in s.leaves && s.leaves[l].slots == NoSlots(s.size) && s.leaves[l].bits == {}
    requires Occupied(Worker(s, l), l, {}) == {}
    ensures LeafOk(s, l)
  {
  }

  lemma SiblingNot(s: State, l: Id, right: Id)
    requires OwnersOk(s) && right !in s.leaves
    ensures SiblingOf(s, l) != Some(right)
  {
  }

  lemma KeepSplitStart(s: State, t: Tid, right: Id, todo: seq<int>)
    requires Inv(s) && Enabled(s, SplitStart(t, right, todo))
    ensures Inv(Do(s, SplitStart(t, right, todo)))
  {
    hide OwnersOk, PlacesOk, SlotsOk, LinksOk, LeafOk, Enabled, Do;
    var s' := Do(s, SplitStart(t, right, todo));
    SplitStartRelinks(s, s', t, right, todo);
    RelinkedKeeps(s, s', t);
    SplitStartSlots(s, s', t, right, todo);
  }

  // Merging.

  lemma MergeStartRelinks(s: State, s': State, t: Tid)
    requires OwnersOk(s) && Enabled(s, MergeStart(t)) && s' == Do(s, MergeStart(t))
    ensures Relinked(s, s', t)
    ensures JobOf(s, t).Finishing? && SiblingOf(s, JobOf(s, t).leaf).Some?
    ensures SiblingOf(s, JobOf(s, t).leaf).value in s.leaves
    ensures var r := s.leaves[SiblingOf(s, JobOf(s, t).leaf).value]; r.latch.None? && r.filler.None?
  {
    hide OwnersOk, LinksOk;
    var j := JobOf(s, t);
    var r := SiblingOf(s, j.leaf).value;
    SiblingSettled(s, t, j.leaf);
    MergeStartLinks(s, s', t, r);
    assert SameSlots(s, s');
    forall l | l in s'.leaves
      ensures s'.leaves[l].latch == Some(t) <==> l in LatchedBy(JobOf(s', t))
      ensures s'.leaves[l].filler == Some(t) <==> l in FilledBy(JobOf(s', t))
    {
      Latched(s, t, l);
    }
    FreeLatched(s, t, j.leaf);
    RelinkedBy(s, s', t);
  }

  lemma MergeStartLinks(s: State, s': State, t: Tid, r: Id)
    requires OwnersOk(s) && r in s.leaves && s.leaves[r].latch.None? && s.leaves[r].filler.None?
    requires s'.leaves == SetLatch(s, r, Some(t)).leaves
    ensures LinksOk(s')
  {
  }

  lemma MergeStartSlots(s: State, s': State, t: Tid, r: Id)
    requires OwnersOk(s) && OwnersOk(s') && SlotsOk(s) && SameSlots(s, s')
    requires Enabled(s, MergeStart(t)) && s' == Do(s, MergeStart(t)) && SiblingOf(s, JobOf(s, t).leaf) == Some(r)
    requires r in s.leaves && s.leaves[r].latch.None? && s.leaves[r].filler.None?
    ensures SlotsOk(s')
  {
    hide OwnersOk, SlotsOk, LinksOk, LeafOk, SameSlots;
    var j := JobOf(s, t);
    OneJob(s, s', t);
    MySlots(s, t, j.leaf);
    MyWorker(s, t, j.leaf);
    FreeLatched(s, t, j.leaf);
    MyWorker(s', t, j.leaf);
    MyWorker(s', t, r);
    BitsFit(s, r);
    LeafKept(s, s', j.leaf);
    LeafKept(s, s', r);
    SlotsWork(s, s', t, {r});
  }

  lemma KeepMergeStart(s: State, t: Tid)
    requires Inv(s) && Enabled(s, MergeStart(t))
    ensures Inv(Do(s, MergeStart(t)))
  {
    hide OwnersOk, PlacesOk, SlotsOk, LinksOk, LeafOk, Enabled, Do;
    var s' := Do(s, MergeStart(t));
    MergeStartRelinks(s, s', t);
    RelinkedKeeps(s, s', t);
    MergeStartSlots(s, s', t, SiblingOf(s, JobOf(s, t).leaf).value);
  }

  lemma MergeEndDoes(s: State, s': State, t: Tid)
    requires OwnersOk(s) && SlotsOk(s) && Enabled(s, MergeEnd(t)) && s' == Do(s, MergeEnd(t))
    ensures var j := JobOf(s, t);
            && j.leaf in s.leaves && j.right in s.leaves && j.leaf != j.right
            && s'.leaves.Keys == s.leaves.Keys && s'.place == s.place && s'.size == s.size && s'.jobs == s.jobs[t := Finishing(j.leaf)]
            && s'.leaves[j.leaf] == s.leaves[j.leaf].(sibling := s.leaves[j.right].sibling)
            && s'.leaves[j.right] == s.leaves[j.right].(sibling := Some(j.leaf), bits := {}, latch := None)
            && (forall l :: l in s.leaves && l != j.leaf && l != j.right ==> s'.leaves[l] == s.leaves[l])
  {
    hide OwnersOk, SlotsOk;
    MyWorker(s, t, JobOf(s, t).leaf);
    MySlots(s, t, JobOf(s, t).right);
  }

  /** No leaf hands on a sibling that is still being filled. */
  lemma MergeEndLinks(s: State, s': State, t: Tid, a: Id, b: Id)
    requires OwnersOk(s) && a in s.leaves && b in s.leaves && a != b
    requires LatchedBy(JobOf(s, t)) == {a, b} && FilledBy(JobOf(s, t)) == {}
    requires s'.leaves.Keys == s.leaves.Keys
    requires s'.leaves[a] == s.leaves[a].(sibling := s.leaves[b].sibling)
    requires s'.leaves[b] == s.leaves[b].(sibling := Some(a), bits := {}, latch := None)
    requires forall l :: l in s.leaves && l != a && l != b ==> s'.leaves[l] == s.leaves[l]
    ensures LinksOk(s')
  {
    hide LatchedBy, FilledBy, JobOf;
    assert a in LatchedBy(JobOf(s, t)) && b in LatchedBy(JobOf(s, t));
    assert s.leaves[a].latch == Some(t) && s.leaves[b].latch == Some(t);
    forall x, m | x in s'.leaves && m in s'.leaves && s'.leaves[x].sibling == Some(m) && s'.leaves[m].filler.Some?
      ensures s'.leaves[x].latch == s'.leaves[m].filler
    {
      var y := if x == a then b else x;
      assert x != b;
      assert s.leaves[y].latch == s.leaves[m].filler;
      assert s.leaves[m].filler == Some(t) ==> m in FilledBy(JobOf(s, t));
    }
  }

  lemma MergeEndRelinks(s: State, s': State, t: Tid)
    requires OwnersOk(s) && SlotsOk(s) && Enabled(s, MergeEnd(t)) && s' == Do(s, MergeEnd(t))
    ensures Relinked(s, s', t)
  {
    hide OwnersOk, LinksOk, SlotsOk, Do;
    var j := JobOf(s, t);
    MergeEndDoes(s, s', t);
    MergeEndLinks(s, s', t, j.leaf, j.right);
    assert SameSlots(s, s');
    forall l | l in s'.leaves
      ensures s'.leaves[l].latch == Some(t) <==> l in LatchedBy(JobOf(s', t))
      ensures s'.leaves[l].filler == Some(t) <==> l in FilledBy(JobOf(s', t))
      ensures Turned(s.leaves[l].latch, s'.leaves[l].latch, t)
    {
      Latched(s, t, l);
    }
    RelinkedBy(s, s', t);
  }

  lemma MergeEndSlots(s: State, s': State, t: Tid)
    requires OwnersOk(s) && OwnersOk(s') && SlotsOk(s) && SameSlots(s, s')
    requires Enabled(s, MergeEnd(t)) && s' == Do(s, MergeEnd(t))
    ensures SlotsOk(s')
  {
    hide OwnersOk, SlotsOk, LinksOk, LeafOk, SameSlots, Do;
    var j := JobOf(s, t);
    MergeEndDoes(s, s', t);
    OneJob(s, s', t);
    MySlots(s, t, j.leaf);
    MyWorker(s, t, j.leaf);
    MyWorker(s, t, j.right);
    FreeLatched(s, t, j.right);
    MyWorker(s', t, j.leaf);
    BitsFit(s, j.leaf);
    LeafKept(s, s', j.leaf);
    LeafKept(s, s', j.right);
    SlotsWork(s, s', t, {});
  }

  lemma KeepMergeEnd(s: State, t: Tid)
    requires Inv(s) && Enabled(s, MergeEnd(t))
    ensures Inv(Do(s, MergeEnd(t)))
  {
    hide OwnersOk, PlacesOk, SlotsOk, LinksOk, LeafOk, Enabled, Do;
    var s' := Do(s, MergeEnd(t));
    MergeEndRelinks(s, s', t);
    RelinkedKeeps(s, s', t);
    MergeEndSlots(s, s', t);
  }

  // Linking the new leaf of a split.

  function LinkTarget(j: Job, toRight: bool): Id
    requires j.Splitting?
  {
    if toRight then j.right else j.leaf
  }

  function LinkSlot(j: Job, toRight: bool): int
    requires j.Splitting? && (!toRight ==> j.todo != [])
  {
    if toRight then j.moved else j.todo[|j.todo| - 1]
  }

  lemma SplitLinkDoes(s: State, s': State, t: Tid, toRight: bool)
    requires OwnersOk(s) && SlotsOk(s) && Enabled(s, SplitLink(t, toRight)) && s' == Do(s, SplitLink(t, toRight))
    ensures var j := JobOf(s, t);
            && j.leaf in s.leaves && j.right in s.leaves && j.leaf != j.right
            && s'.leaves.Keys == s.leaves.Keys && s'.place == s.place && s'.size == s.size
            && s'.jobs == s.jobs[t := Storing(j.leaf, j.kv, LinkTarget(j, toRight), LinkSlot(j, toRight))]
            && s'.leaves[j.leaf] == s.leaves[j.leaf].(sibling := Some(j.right), bits := s.leaves[j.leaf].bits - Elements(j.todo))
            && s'.leaves[j.right] == s.leaves[j.right].(sibling := s.leaves[j.leaf].sibling, bits := Prefix(j.moved),
                                                        filler := if toRight then s.leaves[j.right].filler else None)
            && (forall l :: l in s.leaves && l != j.leaf && l != j.right ==> s'.leaves[l] == s.leaves[l])
  {
    hide OwnersOk, SlotsOk;
    MySlots(s, t, JobOf(s, t).leaf);
    MyWorker(s, t, JobOf(s, t).right);
  }

  lemma SplitLinkLinks(s: State, s': State, t: Tid, a: Id, b: Id)
    requires OwnersOk(s) && a in s.leaves && b in s.leaves && a != b && s.leaves[a].sibling != Some(b)
    requires LatchedBy(JobOf(s, t)) == {a} && FilledBy(JobOf(s, t)) == {b}
    requires s'.leaves.Keys == s.leaves.Keys
    requires s'.leaves[a] == s.leaves[a].(sibling := Some(b), bits := s'.leaves[a].bits)
    requires s'.leaves[b] == s.leaves[b].(sibling := s.leaves[a].sibling, bits := s'.leaves[b].bits, filler := s'.leaves[b].filler)
    requires s'.leaves[b].filler == s.leaves[b].filler || s'.leaves[b].filler == None
    requires forall l :: l in s.leaves && l != a && l != b ==> s'.leaves[l] == s.leaves[l]
    ensures LinksOk(s')
  {
    hide LatchedBy, FilledBy, JobOf;
    assert a in LatchedBy(JobOf(s, t)) && b in FilledBy(JobOf(s, t));
    assert s.leaves[a].latch == Some(t) && s.leaves[b].filler == Some(t);
    forall m | m in s.leaves && m != b ensures s.leaves[m].filler != Some(t) {
      assert m !in FilledBy(JobOf(s, t));
    }
    forall x, m | x in s'.leaves && m in s'.leaves && s'.leaves[x].sibling == Some(m) && s'.leaves[m].filler.Some?
      ensures s'.leaves[x].latch == s'.leaves[m].filler
    {
      if x != a && x != b {
        assert s.leaves[x].latch == s.leaves[m].filler;
      }
    }
  }

  lemma SplitLinkRelinks(s: State, s': State, t: Tid, toRight: bool)
    requires OwnersOk(s) && SlotsOk(s) && Enabled(s, SplitLink(t, toRight)) && s' == Do(s, SplitLink(t, toRight))
    ensures Relinked(s, s', t)
  {
    hide OwnersOk, LinksOk, SlotsOk, Do;
    var j := JobOf(s, t);
    SplitLinkDoes(s, s', t, toRight);
    MySlots(s, t, j.leaf);
    SplitLinkLinks(s, s', t, j.leaf, j.right);
    assert SameSlots(s, s');
    forall l | l in s'.leaves
      ensures s'.leaves[l].latch == Some(t) <==> l in LatchedBy(JobOf(s', t))
      ensures s'.leaves[l].filler == Some(t) <==> l in FilledBy(JobOf(s', t))
      ensures Turned(s.leaves[l].filler, s'.leaves[l].filler, t)
    {
      Latched(s, t, l);
    }
    RelinkedBy(s, s', t);
  }

  lemma SplitLinkSlots(s: State, s': State, t: Tid, toRight: bool)
    requires OwnersOk(s) && OwnersOk(s') && SlotsOk(s) && SameSlots(s, s')
    requires Enabled(s, SplitLink(t, toRight)) && s' == Do(s, SplitLink(t, toRight))
    ensures SlotsOk(s')
  {
    hide OwnersOk, SlotsOk, LinksOk, LeafOk, SameSlots, Do;
    var j := JobOf(s, t);
    SplitLinkDoes(s, s', t, toRight);
    OneJob(s, s', t);
    MySlots(s, t, j.leaf);
    MySlots(s, t, j.right);
    MyWorker(s, t, j.leaf);
    MyWorker(s, t, j.right);
    FillingUnlatched(s, t, j.right);
    MyWorker(s', t, j.leaf);
    if toRight {
      MyWorker(s', t, j.right);
    }
    assert TakenOf(j.todo, j.moved, j.hand) == j.todo;
    LeafKept(s, s', j.leaf);
    LeafKept(s, s', j.right);
    assert j.todo != [] ==> j.todo[|j.todo| - 1] in Elements(j.todo);
    SlotsWork(s, s', t, {});
  }

  lemma KeepSplitLink(s: State, t: Tid, toRight: bool)
    requires Inv(s) && Enabled(s, SplitLink(t, toRight))
    ensures Inv(Do(s, SplitLink(t, toRight)))
  {
    hide OwnersOk, PlacesOk, SlotsOk, LinksOk, LeafOk, Enabled, Do;
    var s' := Do(s, SplitLink(t, toRight));
    SplitLinkRelinks(s, s', t, toRight);
    RelinkedKeeps(s, s', t);
    SplitLinkSlots(s, s', t, toRight);
  }
}
