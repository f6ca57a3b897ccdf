/**
 Runs of the slot protocol: nothing is lost as long as scans keep off leaves that are being filled, a scan
 that does not keep off can lose a pair, and only the worker of a leaf changes which keys its slots hold.
 */
module SlotRuns {
  import opened Options
  import opened SlotProtocol
  import opened SlotInvariant
  import opened SlotSteps

  function Init(size: nat): State {
    State(size, map[0 := Leaf(NoSlots(size), {}, None, None, None, true)], map[], map[])
  }

  ghost predicate CanRun(s: State, run: seq<Step>)
    decreases |run|
  {
    run != [] ==> Enabled(s, run[0]) && CanRun(Do(s, run[0]), run[1..])
  }

  ghost predicate GuardedRun(s: State, run: seq<Step>)
    decreases |run|
  {
    run != [] ==> Guarded(s, run[0]) && GuardedRun(Do(s, run[0]), run[1..])
  }

  function After(s: State, run: seq<Step>): State
    decreases |run|
  {
    if run == [] then s else After(Do(s, run[0]), run[1..])
  }

  lemma InitInv(size: nat)
    requires size > 1
    ensures Inv(Init(size))
  {
    assert LeafOk(Init(size), 0);
  }

  lemma Keep(s: State, st: Step)
    requires Inv(s) && Enabled(s, st) && Guarded(s, st)
    ensures Inv(Do(s, st))
  {
    hide *;
    match st
    case UpdateStart(t, kv) => KeepStart(s, st);
    case UpdateLoad(t, l, i) => KeepQuiet(s, st);
    case UpdateSwap(t) => KeepUpdateSwap(s, t);
    case UpdateFail(t) => KeepUpdateFail(s, t);
    case Arrive(t, op) => KeepStart(s, st);
    case Latch(t, l) => KeepLatch(s, t, l);
    case LatchRight(t) => KeepLatchRight(s, t);
    case UpsertHit(t, i) => KeepUpsertHit(s, t, i);
    case UpsertRoom(t, i) => KeepQuiet(s, st);
    case SplitStart(t, right, todo) => KeepSplitStart(s, t, right, todo);
    case SplitTake(t) => KeepSplitTake(s, t);
    case SplitPut(t) => KeepSplitPut(s, t);
    case SplitLink(t, toRight) => KeepSplitLink(s, t, toRight);
    case StoreSlot(t) => KeepStoreSlot(s, t);
    case MarkBit(t) => KeepMarkBit(s, t);
    case RemoveHit(t, i) => KeepRemoveHit(s, t, i);
    case RemoveTake(t) => KeepRemoveTake(s, t);
    case MergeStart(t) => KeepMergeStart(s, t);
    case MergeTake(t, i) => KeepMergeTake(s, t, i);
    case MergePut(t, i) => KeepMergePut(s, t, i);
    case MergeEnd(t) => KeepMergeEnd(s, t);
    case SortLatch(t, l) => KeepSortLatch(s, t, l);
    case SortTake(t, i) => KeepSortTake(s, t, i);
    case SortPut(t, kv) => KeepSortPut(s, t, kv);
    case SortEnd(t) => KeepSortEnd(s, t);
    case RemoveMiss(t) => KeepQuiet(s, st);
    case Unlatch(t) => KeepUnlatch(s, t);
    case Publish(l) => KeepPublish(s, l);
  }

  lemma KeepStart(s: State, st: Step)
    requires Inv(s) && Enabled(s, st) && (st.UpdateStart? || st.Arrive?)
    ensures Inv(Do(s, st))
  {
    hide Inv;
    if st.UpdateStart? {
      KeepHandIn(s, st.t, st.kv, Updating(st.kv, None));
    } else if st.op.Put? {
      KeepHandIn(s, st.t, st.op.kv, Arriving(st.op));
    } else {
      KeepJob(s, st.t, Arriving(st.op));
    }
  }

  /** Steps that only look. */
  lemma KeepQuiet(s: State, st: Step)
    requires Inv(s) && Enabled(s, st) && (st.UpdateLoad? || st.UpsertRoom? || st.RemoveMiss?)
    ensures Inv(Do(s, st))
  {
    hide Inv;
    var j := JobOf(s, st.t);
    if st.UpdateLoad? {
      KeepJob(s, st.t, Updating(j.kv, Some(Seen(st.l, st.i, Slot(s, st.l, st.i).value))));
    } else if st.UpsertRoom? {
      KeepJob(s, st.t, Storing(j.leaf, j.op.kv, j.leaf, st.i));
    } else {
      KeepJob(s, st.t, Finishing(j.leaf));
    }
  }

  lemma {:induction false} RunInv(s: State, run: seq<Step>)
    requires Inv(s) && CanRun(s, run) && GuardedRun(s, run)
    ensures Inv(After(s, run))
    decreases |run|
  {
    hide Inv, Enabled, Do, Guarded;
    if run != [] {
      Keep(s, run[0]);
      RunInv(Do(s, run[0]), run[1..]);
    }
  }

  /** The pair is at the place, as far as slots, hands and callers go. */
  predicate At(s: State, kv: KV, p: Place) {
    match p
    case AtCaller(t) => kv in OwnOf(JobOf(s, t))
    case InSlot(l, i) => Slot(s, l, i) == Some(kv)
    case InHand(t) => kv in HandOf(JobOf(s, t))
    case Returned(t) => kv in s.place && s.place[kv] == Returned(t)
  }

  /** A leaf nobody works on holds pairs exactly in the slots of its bitmap. */
  ghost predicate NoneStranded(s: State) {
    forall l, i :: l in s.leaves && s.leaves[l].latch.None? && s.leaves[l].filler.None? ==>
      (Slot(s, l, i).Some? <==> i in s.leaves[l].bits)
  }

  lemma InvAt(s: State, kv: KV, p: Place)
    requires PlacesOk(s) && kv in s.place
    ensures At(s, kv, p) <==> p == s.place[kv]
  {
    assert Found(s, kv, s.place[kv]);
  }

  lemma InvSettled(s: State)
    requires Inv(s)
    ensures NoneStranded(s)
  {
    hide OwnersOk, PlacesOk;
    forall l, i | l in s.leaves && s.leaves[l].latch.None? && s.leaves[l].filler.None?
      ensures Slot(s, l, i).Some? <==> i in s.leaves[l].bits
    {
      assert LeafOk(s, l);
    }
  }

  /**
   In every interleaving of updates, upserts, splits, removals, merges and sorts in which scans keep off
   leaves still being filled, every pair handed in is in exactly one place at every moment: with its caller,
   in one slot, in one worker's hand, or returned to one caller; and no pair sits outside a bitmap.
   */
  lemma NothingLost(size: nat, run: seq<Step>, kv: KV)
    requires size > 1 && CanRun(Init(size), run) && GuardedRun(Init(size), run)
    requires kv in After(Init(size), run).place
    ensures exists p :: At(After(Init(size), run), kv, p) && forall q :: At(After(Init(size), run), kv, q) ==> q == p
    ensures NoneStranded(After(Init(size), run))
  {
    hide Enabled, Do, Guarded, CanRun, GuardedRun, After, At, OwnersOk, PlacesOk, SlotsOk, NoneStranded;
    var s := After(Init(size), run);
    InitInv(size);
    RunInv(Init(size), run);
    InvSettled(s);
    var p := s.place[kv];
    forall q ensures At(s, kv, q) <==> q == p {
      InvAt(s, kv, q);
    }
    assert At(s, kv, p);
  }

  function KeyAt(s: State, l: Id, i: int): Option<int> {
    if Slot(s, l, i).Some? then Some(Slot(s, l, i).value.key) else None
  }

  /** The thread works on the leaf. */
  predicate Works(s: State, st: Step, l: Id) {
    !st.Publish? && l in s.leaves && (s.leaves[l].latch == Some(st.t) || s.leaves[l].filler == Some(st.t))
  }

  /** The steps that move a pair, and whose leaf it is. */
  predicate Moves(st: Step) {
    st.StoreSlot? || st.SplitTake? || st.SplitPut? || st.RemoveTake? || st.MergeTake? || st.MergePut? || st.SortTake? || st.SortPut?
  }

  lemma SlotsStill(s: State, st: Step, l: Id, i: int)
    requires Inv(s) && Enabled(s, st) && !st.UpdateSwap? && !st.UpsertHit? && !Moves(st)
    ensures Slot(Do(s, st), l, i) == Slot(s, l, i)
  {
    hide OwnersOk, PlacesOk, SlotsOk, KeyStored, SplitSlots, Prefix, Elements;
    if st.SplitStart? || st.SplitLink? || st.MergeEnd? {
      LinksStill(s, st, l, i);
    } else if st.MarkBit? {
      MarkBitDoes(s, Do(s, st), st.t);
    }
  }

  lemma LinksStill(s: State, st: Step, l: Id, i: int)
    requires Inv(s) && Enabled(s, st) && (st.SplitStart? || st.SplitLink? || st.MergeEnd?)
    ensures Slot(Do(s, st), l, i) == Slot(s, l, i)
  {
    hide OwnersOk, PlacesOk, SlotsOk, Do, KeyStored, SplitSlots, Prefix, Elements;
    if st.SplitStart? {
      SplitStartDoes(s, Do(s, st), st.t, st.right, st.todo);
    } else if st.SplitLink? {
      SplitLinkDoes(s, Do(s, st), st.t, st.toRight);
    } else {
      MergeEndDoes(s, Do(s, st), st.t);
    }
  }

  /** The steps of a worker reach into slots of its own leaves only. */
  lemma MovesByWorkerOnly(s: State, st: Step, l: Id, i: int)
    requires OwnersOk(s) && Enabled(s, st) && Moves(st)
    ensures Slot(Do(s, st), l, i) == Slot(s, l, i) || Works(s, st, l)
  {
    hide OwnersOk;
    if st.StoreSlot? {
      MyWorker(s, st.t, JobOf(s, st.t).target);
    } else if st.SplitPut? || st.MergeTake? {
      MyWorker(s, st.t, JobOf(s, st.t).right);
    } else {
      MyWorker(s, st.t, JobOf(s, st.t).leaf);
    }
  }

  lemma HitByWorkerOnly(s: State, t: Tid, i: int, l: Id, k: int)
    requires Inv(s) && Enabled(s, UpsertHit(t, i))
    ensures KeyAt(Do(s, UpsertHit(t, i)), l, k) == KeyAt(s, l, k)
  {
    hide OwnersOk, PlacesOk, SlotsOk;
  }

  /** A slot's key appears, changes or vanishes only at the hands of the leaf's worker: latch-free swaps never do that. */
  lemma KeysByWorkerOnly(s: State, st: Step, l: Id, i: int)
    requires Inv(s) && Enabled(s, st)
    ensures KeyAt(Do(s, st), l, i) == KeyAt(s, l, i) || Works(s, st, l)
  {
    hide OwnersOk, PlacesOk, SlotsOk;
    if st.UpdateSwap? {
      JobFits(s, st.t);
    } else if st.UpsertHit? {
      HitByWorkerOnly(s, st.t, st.i, l, i);
    } else if Moves(st) {
      MovesByWorkerOnly(s, st, l, i);
    } else {
      SlotsStill(s, st, l, i);
    }
  }

  lemma JobFits(s: State, t: Tid)
    requires SlotsOk(s)
    ensures JobOk(s, JobOf(s, t))
  {
  }

  // ---------- a scan on a leaf that is being filled ----------

  lemma {:induction false} LeastKey(kvs: set<KV>) returns (kv: KV)
    requires kvs != {}
    ensures kv in kvs && forall o :: o in kvs ==> kv.key <= o.key
    decreases |kvs|
  {
    kv :| kv in kvs;
    if kvs != {kv} {
      var m := LeastKey(kvs - {kv});
      if m.key < kv.key {
        kv := m;
      }
    }
  }

  lemma PrefixCount(n: nat)
    ensures |Prefix(n)| == n
  {
    if n > 0 {
      PrefixCount(n - 1);
    }
  }

  /** Where a sort stands that has not counted slot c. */
  ghost predicate Sorts(s: State, t: Tid, l: Id, c: int) {
    && JobOf(s, t).Sorting? && JobOf(s, t).leaf == l && l in s.leaves && Slot(s, l, c).Some?
    && c !in JobOf(s, t).rest && JobOf(s, t).put + |JobOf(s, t).sorted| + |JobOf(s, t).rest| <= c
  }

  lemma SortsTake(s: State, t: Tid, l: Id, c: int, i: int)
    requires Sorts(s, t, l, c) && i in JobOf(s, t).rest
    ensures var s' := Do(s, SortTake(t, i)); Sorts(s', t, l, c) && s'.leaves[l].filler == s.leaves[l].filler
    ensures |JobOf(Do(s, SortTake(t, i)), t).rest| < |JobOf(s, t).rest|
  {
    assert |JobOf(s, t).rest - {i}| == |JobOf(s, t).rest| - 1;
  }

  lemma SortsPut(s: State, t: Tid, l: Id, c: int, kv: KV)
    requires Sorts(s, t, l, c) && JobOf(s, t).rest == {} && kv in JobOf(s, t).sorted
    ensures var s' := Do(s, SortPut(t, kv));
            Sorts(s', t, l, c) && s'.leaves[l].filler == s.leaves[l].filler && JobOf(s', t).rest == {}
    ensures |JobOf(Do(s, SortPut(t, kv)), t).sorted| < |JobOf(s, t).sorted|
  {
    assert |JobOf(s, t).sorted - {kv}| == |JobOf(s, t).sorted| - 1;
  }

  /** A pair in slot c of a leaf nobody works on, with no bit to show for it. */
  ghost predicate Stranded(s: State, l: Id, c: int) {
    && l in s.leaves && s.leaves[l].latch.None? && s.leaves[l].filler.None?
    && Slot(s, l, c).Some? && c !in s.leaves[l].bits
  }

  lemma SortsEnd(s: State, t: Tid, l: Id, c: int)
    requires Sorts(s, t, l, c) && JobOf(s, t).rest == {} && JobOf(s, t).sorted == {} && s.leaves[l].filler.None?
    ensures Stranded(Do(s, SortEnd(t)), l, c)
  {
  }

  /** A sort that has not counted slot c runs to its end and leaves the pair in c out of the bitmap. */
  lemma {:induction false} SortFinishes(s: State, t: Tid, l: Id, c: int) returns (run: seq<Step>)
    requires Sorts(s, t, l, c) && s.leaves[l].filler.None?
    ensures CanRun(s, run) && GuardedRun(s, run) && Stranded(After(s, run), l, c)
    decreases |JobOf(s, t).rest|, |JobOf(s, t).sorted|
  {
    hide Do, Stranded;
    var j := JobOf(s, t);
    if j.rest == {} && j.sorted == {} {
      run := [SortEnd(t)];
      assert run[1..] == [];
      SortsEnd(s, t, l, c);
      return;
    }
    var st;
    if j.rest != {} {
      var i := Pick(j.rest);
      st := SortTake(t, i);
      SortsTake(s, t, l, c, i);
    } else {
      var kv := LeastKey(j.sorted);
      st := SortPut(t, kv);
      SortsPut(s, t, l, c, kv);
    }
    var rest := SortFinishes(Do(s, st), t, l, c);
    run := [st] + rest;
    assert run[1..] == rest;
  }

  lemma FilledLeaf(s: State, t: Tid, r: Id)
    requires Inv(s) && r in s.leaves && s.leaves[r].filler == Some(t)
    requires s.leaves[r].published || exists x :: x in s.leaves && s.leaves[x].sibling == Some(r)
    ensures var j := JobOf(s, t);
            && (j.Storing? || j.Marking?) && j.target == r && j.leaf != r && 0 <= j.slot < s.size
            && s.leaves[r].bits == Prefix(j.slot) && |s.leaves[r].slots| == s.size
            && (j.Marking? ==> Slot(s, r, j.slot).Some?)
  {
    hide PlacesOk;
    assert LeafOk(s, r);
    assert r in FilledBy(JobOf(s, t));
    assert JobOk(s, JobOf(s, t));
    var x :| x in s.leaves && s.leaves[x].sibling == Some(r);
    assert s.leaves[x].latch == Some(t);
    assert x in LatchedBy(JobOf(s, t));
  }

  /** A scan has latched leaf r, which thread u is still filling at slot c. */
  ghost predicate Raced(s: State, t: Tid, u: Tid, r: Id, c: int) {
    && t != u && r in s.leaves && 0 <= c < |s.leaves[r].slots|
    && JobOf(s, t) == Sorting(r, Prefix(c), {}, 0)
    && (JobOf(s, u).Storing? || JobOf(s, u).Marking?)
    && JobOf(s, u).target == r && JobOf(s, u).leaf != r && JobOf(s, u).slot == c
    && (JobOf(s, u).Marking? ==> Slot(s, r, c).Some?)
  }

  lemma RacedStore(s: State, t: Tid, u: Tid, r: Id, c: int)
    requires Raced(s, t, u, r, c) && JobOf(s, u).Storing?
    ensures Raced(Do(s, StoreSlot(u)), t, u, r, c) && JobOf(Do(s, StoreSlot(u)), u).Marking?
  {
  }

  lemma RacedMark(s: State, t: Tid, u: Tid, r: Id, c: int)
    requires Raced(s, t, u, r, c) && JobOf(s, u).Marking?
    ensures Sorts(Do(s, MarkBit(u)), t, r, c) && Do(s, MarkBit(u)).leaves[r].filler.None?
  {
    PrefixCount(c);
  }

  lemma {:induction false} RaceStrands(s: State, t: Tid, u: Tid, r: Id, c: int) returns (run: seq<Step>)
    requires Raced(s, t, u, r, c)
    ensures CanRun(s, run) && GuardedRun(s, run) && Stranded(After(s, run), r, c)
    decreases JobOf(s, u).Storing?
  {
    hide Do, Stranded, Sorts;
    var st, rest;
    if JobOf(s, u).Storing? {
      st := StoreSlot(u);
      RacedStore(s, t, u, r, c);
      rest := RaceStrands(Do(s, st), t, u, r, c);
    } else {
      st := MarkBit(u);
      RacedMark(s, t, u, r, c);
      rest := SortFinishes(Do(s, st), t, r, c);
    }
    run := [st] + rest;
    assert run[1..] == rest;
  }

  /** From every state in which a scan latches a leaf still being filled, the run can go on to strand the pair. */
  lemma ScanStrands(s: State, t: Tid, r: Id) returns (run: seq<Step>)
    requires Inv(s) && Enabled(s, SortLatch(t, r)) && !Guarded(s, SortLatch(t, r))
    ensures var e := Do(s, SortLatch(t, r)); CanRun(e, run) && GuardedRun(e, run) && !NoneStranded(After(e, run))
  {
    hide OwnersOk, PlacesOk, SlotsOk, CanRun, GuardedRun, After;
    var u := s.leaves[r].filler.value;
    FilledLeaf(s, u, r);
    var e, c := Do(s, SortLatch(t, r)), JobOf(s, u).slot;
    assert Raced(e, t, u, r, c);
    run := RaceStrands(e, t, u, r, c);
    assert Stranded(After(e, run), r, c);
  }

  /**
   Exactly when a scan may latch a leaf: every way to go on keeps all pairs in their bitmaps if and only if
   the leaf is not still being filled by the split that made it.
   */
  lemma ScanLatchSafe(s: State, t: Tid, r: Id)
    requires Inv(s) && Enabled(s, SortLatch(t, r))
    ensures (forall run :: CanRun(Do(s, SortLatch(t, r)), run) && GuardedRun(Do(s, SortLatch(t, r)), run) ==>
               NoneStranded(After(Do(s, SortLatch(t, r)), run)))
            <==> Guarded(s, SortLatch(t, r))
  {
    hide Inv, Enabled, Do, Guarded, CanRun, GuardedRun, After, NoneStranded;
    var e := Do(s, SortLatch(t, r));
    if Guarded(s, SortLatch(t, r)) {
      Keep(s, SortLatch(t, r));
      forall run | CanRun(e, run) && GuardedRun(e, run) ensures NoneStranded(After(e, run)) {
        RunInv(e, run);
        InvSettled(After(e, run));
      }
    } else {
      var run := ScanStrands(s, t, r);
      assert CanRun(e, run) && GuardedRun(e, run) && !NoneStranded(After(e, run));
    }
  }

  // ---------- and such a state is reached ----------

  /** The run can be taken, scans keep off leaves being filled, and it ends at e. */
  ghost predicate Leads(s: State, run: seq<Step>, e: State) {
    CanRun(s, run) && GuardedRun(s, run) && After(s, run) == e
  }

  lemma Then(s: State, st: Step, run: seq<Step>, e: State)
    requires Enabled(s, st) && Guarded(s, st) && Leads(Do(s, st), run, e)
    ensures Leads(s, [st] + run, e)
  {
    hide Enabled, Do, Guarded;
    assert ([st] + run)[1..] == run;
  }

  lemma {:induction false} Append(s: State, run: seq<Step>, e: State, more: seq<Step>)
    requires Leads(s, run, e) && CanRun(e, more)
    ensures CanRun(s, run + more) && After(s, run + more) == After(e, more)
    ensures GuardedRun(e, more) ==> GuardedRun(s, run + more)
    decreases |run|
  {
    hide Enabled, Do, Guarded;
    if run == [] {
      assert run + more == more;
    } else {
      Append(Do(s, run[0]), run[1..], e, more);
      assert (run + more)[1..] == run[1..] + more;
    }
  }

  /** One leaf with the keys 0 to m-1 in its first slots and b bits set, thread 1 at a job and thread 2 idle. */
  ghost predicate Row(s: State, n: nat, j: Job, latched: bool, m: nat, b: nat, top: nat) {
    && s.size == n && s.leaves.Keys == {0} && m <= s.size == |s.leaves[0].slots| && s.size > 1
    && s.leaves[0] == Leaf(s.leaves[0].slots, Prefix(b), if latched then Some(1) else None, None, None, true)
    && JobOf(s, 1) == j && JobOf(s, 2).Idle?
    && (forall i :: 0 <= i < m ==> Slot(s, 0, i) == Some(KV(i, 0)))
    && (forall kv :: kv in s.place ==> kv.key < top)
  }

  lemma RowArrive(s: State, n: nat, k: nat)
    requires Row(s, n, Idle, false, k, k, k)
    ensures Enabled(s, Arrive(1, Put(KV(k, 0)))) && Guarded(s, Arrive(1, Put(KV(k, 0))))
    ensures Row(Do(s, Arrive(1, Put(KV(k, 0)))), n, Arriving(Put(KV(k, 0))), false, k, k, k + 1)
  {
  }

  lemma RowLatch(s: State, n: nat, k: nat)
    requires Row(s, n, Arriving(Put(KV(k, 0))), false, k, k, k + 1)
    ensures Enabled(s, Latch(1, 0)) && Guarded(s, Latch(1, 0))
    ensures Row(Do(s, Latch(1, 0)), n, Holding(0, Put(KV(k, 0))), true, k, k, k + 1)
  {
  }

  lemma RowRoom(s: State, n: nat, k: nat)
    requires Row(s, n, Holding(0, Put(KV(k, 0))), true, k, k, k + 1) && k < n
    ensures Enabled(s, UpsertRoom(1, k)) && Guarded(s, UpsertRoom(1, k))
    ensures Row(Do(s, UpsertRoom(1, k)), n, Storing(0, KV(k, 0), 0, k), true, k, k, k + 1)
  {
  }

  lemma RowStore(s: State, n: nat, k: nat)
    requires Row(s, n, Storing(0, KV(k, 0), 0, k), true, k, k, k + 1) && k < n
    ensures Enabled(s, StoreSlot(1)) && Guarded(s, StoreSlot(1))
    ensures Row(Do(s, StoreSlot(1)), n, Marking(0, 0, k), true, k + 1, k, k + 1)
  {
  }

  lemma RowMark(s: State, n: nat, k: nat)
    requires Row(s, n, Marking(0, 0, k), true, k + 1, k, k + 1)
    ensures Enabled(s, MarkBit(1)) && Guarded(s, MarkBit(1))
    ensures Row(Do(s, MarkBit(1)), n, Finishing(0), true, k + 1, k + 1, k + 1)
  {
    assert Prefix(k) + {k} == Prefix(k + 1);
  }

  lemma RowUnlatch(s: State, n: nat, k: nat)
    requires Row(s, n, Finishing(0), true, k, k, k)
    ensures Enabled(s, Unlatch(1)) && Guarded(s, Unlatch(1))
    ensures Row(Do(s, Unlatch(1)), n, Idle, false, k, k, k)
  {
  }

  lemma RowInsert(s: State, n: nat, k: nat) returns (run: seq<Step>, e: State)
    requires Row(s, n, Idle, false, k, k, k) && k < n
    ensures Leads(s, run, e) && Row(e, n, Idle, false, k + 1, k + 1, k + 1)
  {
    hide *;
    var kv := KV(k, 0);
    var s1 := Do(s, Arrive(1, Put(kv)));
    RowArrive(s, n, k);
    var s2 := Do(s1, Latch(1, 0));
    RowLatch(s1, n, k);
    var s3 := Do(s2, UpsertRoom(1, k));
    RowRoom(s2, n, k);
    var s4 := Do(s3, StoreSlot(1));
    RowStore(s3, n, k);
    var s5 := Do(s4, MarkBit(1));
    RowMark(s4, n, k);
    e := Do(s5, Unlatch(1));
    RowUnlatch(s5, n, k + 1);
    LeadsNowhere(e);
    Then(s5, Unlatch(1), [], e);
    var r4 := [Unlatch(1)] + [];
    Then(s4, MarkBit(1), r4, e);
    var r3 := [MarkBit(1)] + r4;
    Then(s3, StoreSlot(1), r3, e);
    var r2 := [StoreSlot(1)] + r3;
    Then(s2, UpsertRoom(1, k), r2, e);
    var r1 := [UpsertRoom(1, k)] + r2;
    Then(s1, Latch(1, 0), r1, e);
    run := [Latch(1, 0)] + r1;
    Then(s, Arrive(1, Put(kv)), run, e);
    run := [Arrive(1, Put(kv))] + run;
  }

  lemma LeadsNowhere(s: State)
    ensures Leads(s, [], s)
  {
  }

  /** For every leaf size a run leads to a full leaf. */
  lemma {:induction false} RowFull(s: State, n: nat, k: nat) returns (run: seq<Step>, e: State)
    requires Row(s, n, Idle, false, k, k, k) && k <= n
    ensures Leads(s, run, e) && Row(e, n, Idle, false, n, n, n)
    decreases n - k
  {
    hide Row, Enabled, Do, Guarded, CanRun, GuardedRun, After;
    if k == n {
      run, e := [], s;
      LeadsNowhere(s);
    } else {
      var r1, e1 := RowInsert(s, n, k);
      var r2;
      r2, e := RowFull(e1, n, k + 1);
      run := r1 + r2;
      Append(s, r1, e1, r2);
    }
  }

  /** The next insertion splits at the right end. */
  lemma RowSplit(s: State, n: nat)
    requires Row(s, n, Holding(0, Put(KV(n, 0))), true, n, n, n + 1)
    ensures Enabled(s, SplitStart(1, 1, [])) && Guarded(s, SplitStart(1, 1, []))
    ensures Linking(Do(s, SplitStart(1, 1, [])))
  {
  }

  ghost predicate Linking(s: State) {
    && s.leaves.Keys == {0, 1} && JobOf(s, 2).Idle?
    && s.leaves[1].filler == Some(1) && s.leaves[1].latch.None?
    && JobOf(s, 1).Splitting? && JobOf(s, 1).leaf == 0 && JobOf(s, 1).right == 1
    && JobOf(s, 1).todo == [] && JobOf(s, 1).moved == 0 && JobOf(s, 1).hand.None?
  }

  /** It links the new leaf before it fills it, so that a scan can get there first. */
  lemma RowLink(s: State)
    requires Linking(s)
    ensures Enabled(s, SplitLink(1, true)) && Guarded(s, SplitLink(1, true))
    ensures var s' := Do(s, SplitLink(1, true)); Enabled(s', SortLatch(2, 1)) && !Guarded(s', SortLatch(2, 1))
  {
    var s' := Do(s, SplitLink(1, true));
    assert s'.leaves[0].sibling == Some(1);
  }

  lemma RaceReached(n: nat) returns (run: seq<Step>, e: State)
    requires n > 1
    ensures Leads(Init(n), run, e) && Inv(e) && Enabled(e, SortLatch(2, 1)) && !Guarded(e, SortLatch(2, 1))
  {
    hide *;
    InitRow(n);
    var r0, e0 := RowFull(Init(n), n, 0);
    var e1 := Do(e0, Arrive(1, Put(KV(n, 0))));
    RowArrive(e0, n, n);
    var e2 := Do(e1, Latch(1, 0));
    RowLatch(e1, n, n);
    var e3 := Do(e2, SplitStart(1, 1, []));
    RowSplit(e2, n);
    e := Do(e3, SplitLink(1, true));
    RowLink(e3);
    LeadsNowhere(e);
    Then(e3, SplitLink(1, true), [], e);
    var r2 := [SplitLink(1, true)] + [];
    Then(e2, SplitStart(1, 1, []), r2, e);
    var r1 := [SplitStart(1, 1, [])] + r2;
    Then(e1, Latch(1, 0), r1, e);
    run := [Latch(1, 0)] + r1;
    Then(e0, Arrive(1, Put(KV(n, 0))), run, e);
    run := [Arrive(1, Put(KV(n, 0)))] + run;
    LeadsOn(Init(n), r0, e0, run, e);
    run := r0 + run;
    InitInv(n);
    LeadsInv(Init(n), run, e);
  }

  lemma InitRow(n: nat)
    requires n > 1
    ensures Row(Init(n), n, Idle, false, 0, 0, 0)
  {
  }

  lemma LeadsOn(s: State, run: seq<Step>, m: State, more: seq<Step>, e: State)
    requires Leads(s, run, m) && Leads(m, more, e)
    ensures Leads(s, run + more, e)
  {
    hide CanRun, GuardedRun, After;
    Append(s, run, m, more);
  }

  lemma LeadsInv(s: State, run: seq<Step>, e: State)
    requires Inv(s) && Leads(s, run, e)
    ensures Inv(e)
  {
    hide CanRun, GuardedRun, After, Inv;
    RunInv(s, run);
  }

  /**
   For every leaf size there is a run of the code in which a pair handed in ends up in a leaf nobody works on,
   in a slot the bitmap does not show: no lookup finds it and the next insertion overwrites it.
   */
  lemma InsertLost(n: nat) returns (run: seq<Step>)
    requires n > 1
    ensures CanRun(Init(n), run) && !NoneStranded(After(Init(n), run))
  {
    hide Enabled, Do, Guarded, Inv, NoneStranded, Init;
    var r, e := RaceReached(n);
    var more := ScanStrands(e, 2, 1);
    var all := [SortLatch(2, 1)] + more;
    assert all[1..] == more;
    Append(Init(n), r, e, all);
    run := r + all;
  }
}
