/**
 A lookup that goes wrong: for every leaf size of at least two, a run in which a key is stored from the first step of a
 lookup to its last and the lookup reports it absent all the same.
 */
module ReadMisses {
  import opened Options
  import opened ReadProtocol
  import opened ReadInvariant
  import opened ReadRuns
  import opened ReadHops

  ghost predicate Leads(s: State, run: seq<Step>, e: State) {
    CanRun(s, run) && After(s, run) == e
  }

  /** A run in which nothing is removed and no lookup begins. */
  ghost predicate Plain(run: seq<Step>) {
    forall i :: 0 <= i < |run| ==> !run[i].Drop? && !run[i].Arrive?
  }

  lemma LeadsNowhere(s: State)
    ensures Leads(s, [], s) && Plain([])
  {
  }

  lemma Then(s: State, st: Step, run: seq<Step>, e: State)
    requires Enabled(s, st) && Leads(Do(s, st), run, e)
    ensures Leads(s, [st] + run, e) && (Plain(run) && !st.Drop? && !st.Arrive? ==> Plain([st] + run))
  {
    hide Enabled, Do;
    assert ([st] + run)[1..] == run;
  }

  lemma {:induction false} LeadsOn(s: State, run: seq<Step>, m: State, more: seq<Step>, e: State)
    requires Leads(s, run, m) && Leads(m, more, e)
    ensures Leads(s, run + more, e) && (Plain(run) && Plain(more) ==> Plain(run + more))
    decreases |run|
  {
    hide Enabled, Do;
    if run == [] {
      assert run + more == more;
    } else {
      LeadsOn(Do(s, run[0]), run[1..], m, more, e);
      assert (run + more)[1..] == run[1..] + more;
    }
  }

  function UpTo(n: nat): (r: set<int>)
    ensures |r| == n && forall k :: k in r <==> 0 <= k < n
  {
    if n == 0 then {} else UpTo(n - 1) + {n - 1}
  }

  /** One leaf with the keys 0 to k-1; thread 1 is at a job. */
  ghost predicate Row(s: State, n: nat, j: Job, k: nat) {
    && s.size == n && s.leaves.Keys == {0} && JobOf(s, 1) == j && JobOf(s, 2).Idle?
    && var x := s.leaves[0];
       && x.keys == UpTo(k) && !x.hasSib && !x.deleted && x.filler.None? && x.low.None? && x.up.None? && !x.dirty
       && x.latch == (if j.Idle? || j.Wanting? then None else Some(1)) && (x.bumped <==> j.Changing? || j.Closing?)
  }

  lemma RowWant(s: State, n: nat, k: nat)
    requires Row(s, n, Idle, k)
    ensures Enabled(s, Want(1, Put(k))) && Row(Do(s, Want(1, Put(k))), n, Wanting(Put(k)), k)
  {
  }

  lemma RowLatch(s: State, n: nat, k: nat)
    requires Row(s, n, Wanting(Put(k)), k)
    ensures Enabled(s, Latch(1, 0)) && Row(Do(s, Latch(1, 0)), n, Holding(0, Put(k)), k)
  {
  }

  lemma RowBump(s: State, n: nat, k: nat)
    requires Row(s, n, Holding(0, Put(k)), k)
    ensures Enabled(s, Bump(1)) && Row(Do(s, Bump(1)), n, Changing(0, Put(k)), k)
  {
  }

  lemma RowAdd(s: State, n: nat, k: nat)
    requires Row(s, n, Changing(0, Put(k)), k) && k < n
    ensures Enabled(s, Add(1)) && Row(Do(s, Add(1)), n, Closing(0, false), k + 1)
  {
  }

  lemma RowUnlatch(s: State, n: nat, k: nat)
    requires Row(s, n, Closing(0, false), k)
    ensures Enabled(s, Unlatch(1)) && Row(Do(s, Unlatch(1)), n, Idle, k)
  {
  }

  lemma RowInsert(s: State, n: nat, k: nat) returns (run: seq<Step>, e: State)
    requires Row(s, n, Idle, k) && k < n
    ensures Leads(s, run, e) && Row(e, n, Idle, k + 1)
  {
    hide *;
    var s1 := Do(s, Want(1, Put(k)));
    RowWant(s, n, k);
    var s2 := Do(s1, Latch(1, 0));
    RowLatch(s1, n, k);
    var s3 := Do(s2, Bump(1));
    RowBump(s2, n, k);
    var s4 := Do(s3, Add(1));
    RowAdd(s3, n, k);
    e := Do(s4, Unlatch(1));
    RowUnlatch(s4, n, k + 1);
    LeadsNowhere(e);
    Then(s4, Unlatch(1), [], e);
    run := [Unlatch(1)] + [];
    Then(s3, Add(1), run, e);
    run := [Add(1)] + run;
    Then(s2, Bump(1), run, e);
    run := [Bump(1)] + run;
    Then(s1, Latch(1, 0), run, e);
    run := [Latch(1, 0)] + run;
    Then(s, Want(1, Put(k)), run, e);
    run := [Want(1, Put(k))] + run;
  }

  lemma {:induction false} RowFull(s: State, n: nat, k: nat) returns (run: seq<Step>, e: State)
    requires Row(s, n, Idle, k) && k <= n
    ensures Leads(s, run, e) && Row(e, n, Idle, n)
    decreases n - k
  {
    hide *;
    if k == n {
      run, e := [], s;
      LeadsNowhere(s);
    } else {
      var r1, e1 := RowInsert(s, n, k);
      var r2;
      r2, e := RowFull(e1, n, k + 1);
      run := r1 + r2;
      LeadsOn(s, r1, e1, r2, e);
    }
  }

  /** The full leaf splits at its right end: key n goes to a new leaf 1. */
  ghost predicate Cut(s: State, n: nat, j: Job, phase: nat) {
    && s.size == n && s.leaves.Keys == {0, 1} && JobOf(s, 1) == j && JobOf(s, 2).Idle?
    && (var x := s.leaves[0];
        && x.keys == UpTo(n) && !x.deleted && x.latch == Some(1) && x.filler.None? && x.low.None?
        && (x.hasSib <==> phase >= 3) && (phase >= 1 ==> x.sib == 1) && (phase >= 2 ==> x.high == n - 1))
    && (var y := s.leaves[1];
        && y.keys == (if phase >= 4 then {n} else {}) && !y.deleted && !y.hasSib && y.latch.None? && y.version == 0)
  }

  lemma CutMove(s: State, n: nat)
    requires n > 0 && Row(s, n, Changing(0, Put(n)), n)
    ensures Enabled(s, SplitMove(1, 1, n - 1)) && Cut(Do(s, SplitMove(1, 1, n - 1)), n, Splitting(0, Put(n), 1, n - 1, 0), 0)
  {
  }

  lemma CutPhase(s: State, n: nat, phase: nat)
    requires n > 0 && phase < 2 && Cut(s, n, Splitting(0, Put(n), 1, n - 1, phase), phase)
    ensures Enabled(s, SplitPhase(1)) && Cut(Do(s, SplitPhase(1)), n, Splitting(0, Put(n), 1, n - 1, phase + 1), phase + 1)
  {
  }

  lemma CutFlag(s: State, n: nat)
    requires n > 0 && Cut(s, n, Splitting(0, Put(n), 1, n - 1, 2), 2)
    ensures Enabled(s, SplitPhase(1)) && Cut(Do(s, SplitPhase(1)), n, Adding(0, Put(n), 1), 3)
  {
  }

  lemma CutAdd(s: State, n: nat)
    requires n > 0 && Cut(s, n, Adding(0, Put(n), 1), 3)
    ensures Enabled(s, AddSplit(1)) && Cut(Do(s, AddSplit(1)), n, Closing(0, false), 4)
  {
  }

  /** Two leaves: leaf 0 is full of the keys below n, its sibling leaf 1 holds n. */
  ghost predicate Pair(s: State, n: nat, j: Job, look: Job) {
    && s.size == n && s.leaves.Keys == {0, 1} && JobOf(s, 1) == j && JobOf(s, 2) == look
    && (var x := s.leaves[0];
        && x.keys == UpTo(n) && !x.deleted && x.latch == (if j.Idle? || j.Wanting? then None else Some(1)) && x.filler.None?
        && x.low.None? && x.hasSib && x.sib == 1 && x.high == n - 1)
    && n in s.leaves[1].keys
  }

  lemma CutDone(s: State, n: nat)
    requires n > 0 && Cut(s, n, Closing(0, false), 4)
    ensures Enabled(s, Unlatch(1)) && Pair(Do(s, Unlatch(1)), n, Idle, Idle)
  {
  }

  lemma PairMade(s: State, n: nat) returns (run: seq<Step>, e: State)
    requires n > 0 && Row(s, n, Changing(0, Put(n)), n)
    ensures Leads(s, run, e) && Pair(e, n, Idle, Idle)
  {
    hide *;
    var s1 := Do(s, SplitMove(1, 1, n - 1));
    CutMove(s, n);
    var s2 := Do(s1, SplitPhase(1));
    CutPhase(s1, n, 0);
    var s3 := Do(s2, SplitPhase(1));
    CutPhase(s2, n, 1);
    var s4 := Do(s3, SplitPhase(1));
    CutFlag(s3, n);
    var s5 := Do(s4, AddSplit(1));
    CutAdd(s4, n);
    e := Do(s5, Unlatch(1));
    CutDone(s5, n);
    LeadsNowhere(e);
    Then(s5, Unlatch(1), [], e);
    run := [Unlatch(1)] + [];
    Then(s4, AddSplit(1), run, e);
    run := [AddSplit(1)] + run;
    Then(s3, SplitPhase(1), run, e);
    run := [SplitPhase(1)] + run;
    Then(s2, SplitPhase(1), run, e);
    run := [SplitPhase(1)] + run;
    Then(s1, SplitPhase(1), run, e);
    run := [SplitPhase(1)] + run;
    Then(s, SplitMove(1, 1, n - 1), run, e);
    run := [SplitMove(1, 1, n - 1)] + run;
  }

  /** The lookup for n arrives at leaf 0 and finds that it has to go right. */
  lemma PairLook(s: State, n: nat) returns (run: seq<Step>, e: State)
    requires n > 0 && Pair(s, n, Idle, Idle)
    ensures Enabled(s, Arrive(2, n, 0)) && Leads(Do(s, Arrive(2, n, 0)), run, e) && Plain(run)
    ensures exists v :: Pair(e, n, Idle, Looking(n, 0, v, GoRight, true, false))
  {
    hide Leads, CanRun, After, Plain, Lands, SplitsAt, Stored, Test, Doomed;
    var s1 := Do(s, Arrive(2, n, 0));
    var s2 := Do(s1, Begin(2));
    var v := s.leaves[0].version;
    assert Pair(s2, n, Idle, Looking(n, 0, v, Begun, true, false));
    var s3 := Do(s2, ReadDeleted(2));
    var s4 := Do(s3, ReadHasSib(2));
    assert Pair(s4, n, Idle, Looking(n, 0, v, HasSibling, true, false));
    e := Do(s4, ReadHigh(2));
    assert Pair(e, n, Idle, Looking(n, 0, v, GoRight, true, false));
    LeadsNowhere(e);
    Then(s4, ReadHigh(2), [], e);
    run := [ReadHigh(2)] + [];
    Then(s3, ReadHasSib(2), run, e);
    run := [ReadHasSib(2)] + run;
    Then(s2, ReadDeleted(2), run, e);
    run := [ReadDeleted(2)] + run;
    Then(s1, Begin(2), run, e);
    run := [Begin(2)] + run;
  }

  /** Leaf 0 is linked to a new leaf 2, whose sibling mark is not set yet. */
  ghost predicate Forked(s: State, n: nat, look: Job) {
    && s.leaves.Keys == {0, 1, 2} && JobOf(s, 2) == look && n in s.leaves[1].keys
    && s.leaves[0].sib == 2 && s.leaves[2].latch.None? && !s.leaves[2].hasSib && !s.leaves[2].deleted && n !in s.leaves[2].keys
    && s.leaves[2].version == 0
  }

  lemma PairWant(s: State, n: nat, look: Job)
    requires Pair(s, n, Idle, look)
    ensures Enabled(s, Want(1, Put(-1))) && Pair(Do(s, Want(1, Put(-1))), n, Wanting(Put(-1)), look)
  {
  }

  lemma PairLatch(s: State, n: nat, look: Job)
    requires Pair(s, n, Wanting(Put(-1)), look)
    ensures Enabled(s, Latch(1, 0)) && Pair(Do(s, Latch(1, 0)), n, Holding(0, Put(-1)), look)
  {
  }

  lemma PairBump(s: State, n: nat, look: Job)
    requires n > 1 && Pair(s, n, Holding(0, Put(-1)), look)
    ensures Enabled(s, Bump(1)) && Pair(Do(s, Bump(1)), n, Changing(0, Put(-1)), look)
  {
  }

  /** Leaf 0 has split once more, into a leaf 2 that is not linked yet. */
  ghost predicate Forking(s: State, n: nat, look: Job) {
    && s.leaves.Keys == {0, 1, 2} && JobOf(s, 2) == look && n in s.leaves[1].keys
    && s.leaves[2].latch.None? && !s.leaves[2].hasSib && !s.leaves[2].deleted && n !in s.leaves[2].keys && s.leaves[2].version == 0
    && JobOf(s, 1).Splitting? && JobOf(s, 1).leaf == 0 && JobOf(s, 1).right == 2 && JobOf(s, 1).phase == 0
  }

  lemma PairFork(s: State, n: nat, look: Job)
    requires n > 1 && Pair(s, n, Changing(0, Put(-1)), look)
    ensures Enabled(s, SplitMove(1, 2, n / 2 - 1)) && Forking(Do(s, SplitMove(1, 2, n / 2 - 1)), n, look)
  {
    var x := s.leaves[0];
    assert LowerKeys(x.keys, n / 2 - 1) == UpTo(n / 2);
    assert n - 1 in x.keys && n / 2 - 1 < n - 1;
  }

  lemma ForkLink(s: State, n: nat, look: Job)
    requires Forking(s, n, look)
    ensures Enabled(s, SplitPhase(1)) && Forked(Do(s, SplitPhase(1)), n, look)
  {
  }

  lemma PairForked(s: State, n: nat, look: Job) returns (run: seq<Step>, e: State)
    requires n > 1 && Pair(s, n, Idle, look)
    ensures Leads(s, run, e) && Forked(e, n, look) && Plain(run)
  {
    hide *;
    var s1 := Do(s, Want(1, Put(-1)));
    PairWant(s, n, look);
    var s2 := Do(s1, Latch(1, 0));
    PairLatch(s1, n, look);
    var s3 := Do(s2, Bump(1));
    PairBump(s2, n, look);
    var s4 := Do(s3, SplitMove(1, 2, n / 2 - 1));
    PairFork(s3, n, look);
    e := Do(s4, SplitPhase(1));
    ForkLink(s4, n, look);
    LeadsNowhere(e);
    Then(s4, SplitPhase(1), [], e);
    run := [SplitPhase(1)] + [];
    Then(s3, SplitMove(1, 2, n / 2 - 1), run, e);
    run := [SplitMove(1, 2, n / 2 - 1)] + run;
    Then(s2, Bump(1), run, e);
    run := [Bump(1)] + run;
    Then(s1, Latch(1, 0), run, e);
    run := [Latch(1, 0)] + run;
    Then(s, Want(1, Put(-1)), run, e);
    run := [Want(1, Put(-1))] + run;
  }

  lemma ForkHop(s: State, n: nat, v: nat) returns (f: bool)
    requires Forked(s, n, Looking(n, 0, v, GoRight, true, false))
    ensures Enabled(s, Hop(2)) && Forked(Do(s, Hop(2)), n, Looking(n, 2, v, Arrived, f, false))
  {
    f := JobOf(Do(s, Hop(2)), 2).straight;
  }

  /** At leaf 2 the lookup reads a version nobody is changing and finds no sibling to go to. */
  lemma ForkRead(s: State, n: nat, v: nat, f: bool)
    requires Forked(s, n, Looking(n, 2, v, Arrived, f, false))
    ensures Enabled(s, Begin(2)) && Forked(Do(s, Begin(2)), n, Looking(n, 2, 0, Begun, f, false))
  {
  }

  lemma ForkMarks(s: State, n: nat, f: bool)
    requires Forked(s, n, Looking(n, 2, 0, Begun, f, false))
    ensures Enabled(s, ReadDeleted(2))
    ensures var s1 := Do(s, ReadDeleted(2));
            Enabled(s1, ReadHasSib(2)) && Forked(Do(s1, ReadHasSib(2)), n, Looking(n, 2, 0, Scanning, f, false))
  {
  }

  lemma ForkMiss(s: State, n: nat, f: bool)
    requires Forked(s, n, Looking(n, 2, 0, Scanning, f, false))
    ensures Enabled(s, Miss(2))
    ensures var e := Do(s, Miss(2)); Reports(e, 2) && JobOf(e, 2).key == n
  {
    hide Stored;
  }

  lemma ForkMisses(s: State, n: nat, v: nat) returns (run: seq<Step>, e: State)
    requires Forked(s, n, Looking(n, 0, v, GoRight, true, false))
    ensures Leads(s, run, e) && Reports(e, 2) && JobOf(e, 2).Looking? && JobOf(e, 2).key == n && Plain(run)
  {
    hide *;
    var s1 := Do(s, Hop(2));
    var f := ForkHop(s, n, v);
    var s2 := Do(s1, Begin(2));
    ForkRead(s1, n, v, f);
    var s3 := Do(s2, ReadDeleted(2));
    var s4 := Do(s3, ReadHasSib(2));
    ForkMarks(s2, n, f);
    e := Do(s4, Miss(2));
    ForkMiss(s4, n, f);
    ReportsLooking(e, 2);
    LeadsNowhere(e);
    Then(s4, Miss(2), [], e);
    run := [Miss(2)] + [];
    Then(s3, ReadHasSib(2), run, e);
    run := [ReadHasSib(2)] + run;
    Then(s2, ReadDeleted(2), run, e);
    run := [ReadDeleted(2)] + run;
    Then(s1, Begin(2), run, e);
    run := [Begin(2)] + run;
    Then(s, Hop(2), run, e);
    run := [Hop(2)] + run;
  }

  lemma InitRow(n: nat, merge: nat)
    ensures Row(Init(n, merge), n, Idle, 0)
  {
  }

  lemma {:induction false} StaysStored(s: State, run: seq<Step>, k: int)
    requires Inv(s) && CanRun(s, run) && Plain(run) && Stored(s, k)
    ensures StoredAlong(s, run, k)
    decreases |run|
  {
    hide Inv, Enabled, Do, Stored;
    if run != [] {
      assert !run[0].Drop?;
      Keep(s, run[0]);
      StoredChanges(s, run[0], k);
      assert Plain(run[1..]);
      StaysStored(Do(s, run[0]), run[1..], k);
    }
  }

  lemma PairStored(s: State, n: nat)
    requires Pair(s, n, Idle, Idle)
    ensures Stored(s, n) && JobOf(s, 2).Idle? && Stored(Do(s, Arrive(2, n, 0)), n)
  {
    assert n in s.leaves[1].keys && n in Do(s, Arrive(2, n, 0)).leaves[1].keys;
  }

  /** A full leaf 0 with its sibling, made before the lookup begins. */
  lemma PairReached(n: nat, merge: nat) returns (run: seq<Step>, e: State)
    requires n > 1
    ensures Leads(Init(n, merge), run, e) && Pair(e, n, Idle, Idle)
  {
    hide *;
    InitRow(n, merge);
    var r0, e0 := RowFull(Init(n, merge), n, 0);
    var r1, e1 := RowBegin(e0, n);
    LeadsOn(Init(n, merge), r0, e0, r1, e1);
    var r2;
    r2, e := PairMade(e1, n);
    LeadsOn(Init(n, merge), r0 + r1, e1, r2, e);
    run := r0 + r1 + r2;
  }

  /** The rest of the lookup: told to go right, it is overtaken by a split. */
  lemma PairMisses(s: State, n: nat) returns (run: seq<Step>, e: State)
    requires n > 1 && Pair(s, n, Idle, Idle)
    ensures Enabled(s, Arrive(2, n, 0)) && Leads(Do(s, Arrive(2, n, 0)), run, e) && Plain(run)
    ensures Reports(e, 2) && JobOf(e, 2).Looking? && JobOf(e, 2).key == n
  {
    hide *;
    var s1 := Do(s, Arrive(2, n, 0));
    var r3, e3 := PairLook(s, n);
    var v :| Pair(e3, n, Idle, Looking(n, 0, v, GoRight, true, false));
    var r4, e4 := PairForked(e3, n, Looking(n, 0, v, GoRight, true, false));
    LeadsOn(s1, r3, e3, r4, e4);
    var r5;
    r5, e := ForkMisses(e4, n, v);
    LeadsOn(s1, r3 + r4, e4, r5, e);
    run := r3 + r4 + r5;
  }

  lemma LeadsInv(s: State, run: seq<Step>, e: State)
    requires Inv(s) && Leads(s, run, e)
    ensures Inv(e) && CanRun(s, run) && After(s, run) == e
  {
    hide Inv, CanRun, After;
    RunInv(s, run);
  }

  /**
   For every leaf size of at least two there is a run and in it a lookup of a key that is stored in every state from the
   first step of the lookup on, and the lookup is about to report it absent: between the test of the high key and the
   load of the sibling pointer the leaf splits.
   */
  lemma LookupMisses(n: nat, merge: nat) returns (before: seq<Step>, m: State, call: seq<Step>)
    requires n > 1
    ensures CanRun(Init(n, merge), before) && After(Init(n, merge), before) == m
    ensures call != [] && call[0] == Arrive(2, n, 0) && Plain(call[1..])
    ensures CanRun(m, call) && StoredAlong(m, call, n)
    ensures Reports(After(m, call), 2) && JobOf(After(m, call), 2).Looking? && JobOf(After(m, call), 2).key == n
  {
    hide Inv, Enabled, Do, Stored, Leads, Pair, Reports, Plain, Init;
    before, m := PairReached(n, merge);
    InitInv(n, merge);
    LeadsInv(Init(n, merge), before, m);
    var run, e := PairMisses(m, n);
    var s1 := Do(m, Arrive(2, n, 0));
    Keep(m, Arrive(2, n, 0));
    LeadsInv(s1, run, e);
    PairStored(m, n);
    StaysStored(s1, run, n);
    call := [Arrive(2, n, 0)] + run;
    assert call[1..] == run;
  }

  lemma RowBegin(s: State, n: nat) returns (run: seq<Step>, e: State)
    requires Row(s, n, Idle, n)
    ensures Leads(s, run, e) && Row(e, n, Changing(0, Put(n)), n)
  {
    hide *;
    var s1 := Do(s, Want(1, Put(n)));
    RowWant(s, n, n);
    var s2 := Do(s1, Latch(1, 0));
    RowLatch(s1, n, n);
    e := Do(s2, Bump(1));
    RowBump(s2, n, n);
    LeadsNowhere(e);
    Then(s2, Bump(1), [], e);
    run := [Bump(1)] + [];
    Then(s1, Latch(1, 0), run, e);
    run := [Latch(1, 0)] + run;
    Then(s, Want(1, Put(n)), run, e);
    run := [Want(1, Put(n))] + run;
  }
}
