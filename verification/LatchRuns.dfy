/**
 No threads wait for each other's latches in a run in which none comes back to a root that gave way to its only child;
 this condition is exact, and a run in which a thread does come back ends with the thread waiting for itself.
 */
module LatchRuns {
  import opened Options
  import opened LatchOrder

  // ---------- every step keeps the order ----------

  /** Nodes differ at most in who holds their latches. */
  ghost predicate SameNodes(s: State, s': State) {
    && s'.nodes.Keys == s.nodes.Keys
    && forall n :: n in s.nodes ==> s'.nodes[n] == s.nodes[n].(latch := s'.nodes[n].latch)
  }

  lemma SameNodesOk(s: State, s': State)
    requires SameNodes(s, s') && (forall n :: n in s.nodes ==> NodeOk(s, n)) && (forall m, n :: NextOnce(s, m, n))
    ensures (forall n :: n in s'.nodes ==> NodeOk(s', n)) && (forall m, n :: NextOnce(s', m, n))
  {
    forall n | n in s'.nodes ensures NodeOk(s', n) {
      assert NodeOk(s, n);
    }
    forall m, n ensures NextOnce(s', m, n) {
      assert NextOnce(s, m, n);
    }
  }

  lemma OtherJobs(s: State, s': State, t: Tid)
    requires SameNodes(s, s') && s'.jobs == s.jobs[t := JobOf(s', t)] && (forall u :: JobOk(s, u)) && JobOk(s', t)
    ensures forall u :: JobOk(s', u)
  {
    forall u ensures JobOk(s', u) {
      assert JobOk(s, u);
    }
  }

  /** What a step of one thread does to latches fits what it holds before and after. */
  ghost predicate LatchStep(s: State, s': State, t: Tid) {
    && s'.jobs == s.jobs[t := JobOf(s', t)]
    && (forall n :: n in s.nodes ==> n in s'.nodes)
    && (forall n :: n in s.nodes && s.nodes[n].latch.Some? && s.nodes[n].latch != Some(t) ==> s'.nodes[n].latch == s.nodes[n].latch)
    && (forall n :: n in s'.nodes && s'.nodes[n].latch.Some? && s'.nodes[n].latch != Some(t) ==>
          n in s.nodes && s.nodes[n].latch == s'.nodes[n].latch)
    && (forall n :: n in HeldBy(JobOf(s', t)) ==> n in s'.nodes && s'.nodes[n].latch == Some(t))
    && (forall n :: n in s'.nodes && s'.nodes[n].latch == Some(t) ==> n in HeldBy(JobOf(s', t)))
  }

  lemma LatchStepOk(s: State, s': State, t: Tid)
    requires LatchesOk(s) && LatchStep(s, s', t)
    ensures LatchesOk(s')
  {
    hide HeldBy;
    forall u ensures u != t ==> JobOf(s', u) == JobOf(s, u) {
    }
  }

  lemma Latched(s: State, t: Tid)
    requires LatchesOk(s)
    ensures forall n :: n in HeldBy(JobOf(s, t)) ==> n in s.nodes && s.nodes[n].latch == Some(t)
    ensures forall n :: n in s.nodes && s.nodes[n].latch == Some(t) ==> n in HeldBy(JobOf(s, t))
  {
    hide HeldBy;
  }

  /** A step that changes one latch at most, and leaves its thread with what it should know, keeps everything. */
  lemma KeepLatch(s: State, s': State, t: Tid)
    requires Inv(s) && SameNodes(s, s') && LatchStep(s, s', t) && JobOk(s', t)
    ensures Inv(s')
  {
    hide NodeOk, NextOnce, LatchesOk, JobOk;
    SameNodesOk(s, s');
    OtherJobs(s, s', t);
    LatchStepOk(s, s', t);
  }

  lemma MyNode(s: State, t: Tid)
    requires Inv(s)
    ensures JobOk(s, t) && (forall n :: n in HeldBy(JobOf(s, t)) ==> n in s.nodes && NodeOk(s, n) && s.nodes[n].latch == Some(t))
    ensures forall n :: n in s.nodes && s.nodes[n].latch == Some(t) ==> n in HeldBy(JobOf(s, t))
  {
    hide NodeOk, JobOk, HeldBy;
    Latched(s, t);
  }

  lemma KeepQuiet(s: State, st: Step)
    requires Inv(s) && Enabled(s, st) && (st.Start? || st.Hop? || st.Climb?) && !Catches(s, st)
    ensures Inv(Do(s, st))
  {
    hide Inv;
    MyNode(s, st.t);
    if st.Start? {
      StandsLow(s, st.n);
    }
    KeepLatch(s, Do(s, st), st.t);
  }

  lemma StandsLow(s: State, n: Id)
    requires Inv(s) && n in s.nodes && s.nodes[n].level == 0
    ensures !s.nodes[n].fallen
  {
    assert NodeOk(s, n);
  }

  lemma KeepGrant(s: State, t: Tid)
    requires Inv(s) && Enabled(s, Grant(t))
    ensures Inv(Do(s, Grant(t)))
  {
    hide Inv;
    MyNode(s, t);
    KeepLatch(s, Do(s, Grant(t)), t);
  }

  lemma KeepDrop(s: State, t: Tid, n: Id, j: Job)
    requires Inv(s) && n in HeldBy(JobOf(s, t)) && HeldBy(j) == HeldBy(JobOf(s, t)) - {n} && j.want.None?
    requires j.at.None? ==> j.low.None?
    requires JobOk(SetJob(SetLatch(s, n, None), t, j), t)
    ensures Inv(SetJob(SetLatch(s, n, None), t, j))
  {
    hide Inv, NodeOk, JobOk, HeldBy;
    MyNode(s, t);
    KeepLatch(s, SetJob(SetLatch(s, n, None), t, j), t);
  }

  lemma KeepFree(s: State, st: Step)
    requires Inv(s) && Enabled(s, st) && (st.Move? || st.DropLow? || st.DropPair? || st.Release?)
    ensures Inv(Do(s, st))
  {
    hide Inv, NodeOk;
    MyNode(s, st.t);
    var j := JobOf(s, st.t);
    var n := if st.DropLow? then j.low.value else if st.DropPair? then j.pair.value else j.at.value;
    KeepDrop(s, st.t, n, JobOf(Do(s, st), st.t));
  }

  // ---------- splits and new roots ----------

  lemma KeepSplit(s: State, t: Tid, r: Id, place: real)
    requires Inv(s) && Enabled(s, Split(t, r, place))
    ensures Inv(Do(s, Split(t, r, place)))
  {
    hide JobOk, NodeOk, Inv;
    var s', x := Do(s, Split(t, r, place)), JobOf(s, t).at.value;
    MyNode(s, t);
    SplitNodes(s, s', x, r, place);
    SplitJobs(s, s', t, x, r, place);
    InvWhole(s');
  }

  lemma InvWhole(s: State)
    requires (forall n :: n in s.nodes ==> NodeOk(s, n)) && (forall m, n :: NextOnce(s, m, n))
    requires LatchesOk(s) && (forall t :: JobOk(s, t))
    ensures Inv(s)
  {
  }

  lemma SplitNodes(s: State, s': State, x: Id, r: Id, place: real)
    requires Inv(s) && x in s.nodes && r !in s.nodes && s' == DoSplit(s, x, r, place)
    requires var a := s.nodes[x]; !a.deleted && !a.fallen && a.place < place && (a.hasNext ==> a.next in s.nodes && place < s.nodes[a.next].place)
    ensures (forall n :: n in s'.nodes ==> NodeOk(s', n)) && (forall m, n :: NextOnce(s', m, n))
  {
    hide JobOk, LatchesOk;
    assert NodeOk(s, x);
    forall n | n in s'.nodes ensures NodeOk(s', n) {
      if n != r {
        assert NodeOk(s, n);
      }
    }
    forall m, n ensures NextOnce(s', m, n) {
      assert NextOnce(s, m, n) && NextOnce(s, x, n) && NextOnce(s, m, x);
      if m in s.nodes { assert NodeOk(s, m); }
      if n in s.nodes { assert NodeOk(s, n); }
    }
  }

  lemma SplitJobs(s: State, s': State, t: Tid, x: Id, r: Id, place: real)
    requires Inv(s) && x in s.nodes && s.nodes[x].latch == Some(t) && r !in s.nodes && s' == DoSplit(s, x, r, place)
    requires JobOf(s, t).want.None?
    ensures LatchesOk(s') && (forall u :: JobOk(s', u))
  {
    hide NodeOk, NextOnce;
    forall u ensures JobOk(s', u) {
      assert JobOk(s, u);
      MyNode(s, u);
    }
    LatchesKept(s, s');
  }

  /** Latches are as they were, and a new node has none. */
  lemma LatchesKept(s: State, s': State)
    requires LatchesOk(s) && s'.jobs == s.jobs
    requires forall n :: n in s.nodes ==> n in s'.nodes && s'.nodes[n].latch == s.nodes[n].latch
    requires forall n :: n in s'.nodes && n !in s.nodes ==> s'.nodes[n].latch.None?
    ensures LatchesOk(s')
  {
    hide HeldBy;
    forall u ensures JobOf(s', u) == JobOf(s, u) {
    }
  }

  lemma KeepNewRoot(s: State, t: Tid, top: Id)
    requires Inv(s) && Enabled(s, NewRoot(t, top))
    ensures Inv(Do(s, NewRoot(t, top)))
  {
    hide Inv, HeldBy, LatchesOk, LatchStep, JobOk;
    var s' := Do(s, NewRoot(t, top));
    RootNodes(s, s', t, top);
    RootJobs(s, s', t, top);
    InvWhole(s');
  }

  lemma RootNodes(s: State, s': State, t: Tid, top: Id)
    requires Inv(s) && Enabled(s, NewRoot(t, top)) && s' == Do(s, NewRoot(t, top))
    ensures (forall n :: n in s'.nodes ==> NodeOk(s', n)) && (forall m, n :: NextOnce(s', m, n))
  {
    hide LatchesOk, JobOk;
    forall n | n in s'.nodes ensures NodeOk(s', n) {
      if n != top {
        assert NodeOk(s, n);
      }
    }
    forall m, n ensures NextOnce(s', m, n) {
      assert NextOnce(s, m, n);
    }
  }

  lemma RootStep(s: State, s': State, t: Tid, top: Id)
    requires Inv(s) && Enabled(s, NewRoot(t, top)) && s' == Do(s, NewRoot(t, top))
    ensures s'.jobs == s.jobs[t := Job(JobOf(s, t).at, Some(top), None, None, false)] && JobOk(s', t)
    ensures s'.nodes.Keys == s.nodes.Keys + {top} && top !in s.nodes && s'.nodes[top].latch == Some(t)
    ensures forall n :: n in s.nodes ==> s'.nodes[n] == s.nodes[n]
    ensures JobOf(s, t).at.Some? && HeldBy(JobOf(s, t)) == Ids(JobOf(s, t).at) && HeldBy(JobOf(s', t)) == Ids(JobOf(s, t).at) + {top}
  {
    hide Inv, NodeOk;
    MyNode(s, t);
  }

  lemma RootJobs(s: State, s': State, t: Tid, top: Id)
    requires Inv(s) && Enabled(s, NewRoot(t, top)) && s' == Do(s, NewRoot(t, top))
    ensures LatchesOk(s') && (forall u :: JobOk(s', u))
  {
    hide NodeOk, NextOnce, Inv, JobOk, HeldBy, Do, Enabled;
    RootStep(s, s', t, top);
    InvLatches(s);
    Latched(s, t);
    LatchStepOk(s, s', t);
    forall u ensures JobOk(s', u) {
      if u != t {
        Latched(s, u);
        HeldIn(JobOf(s, u));
        JobKept(s, s', u);
      }
    }
  }

  // ---------- merges ----------

  /** What merging r into x does to each node. */
  lemma MergeDoes(s: State, s': State, x: Id, r: Id)
    requires x in s.nodes && r in s.nodes && x != r && s' == DoMerge(s, x, r)
    ensures s'.nodes.Keys == s.nodes.Keys && s'.jobs == s.jobs
    ensures forall n :: n in s.nodes && n != x && n != r ==> s'.nodes[n] == Moved(s.nodes[n], r, x)
    ensures s'.nodes[x] == Moved(s.nodes[x], r, x).(next := s.nodes[r].next, hasNext := s.nodes[r].hasNext)
    ensures s'.nodes[r] == Moved(s.nodes[r], r, x).(next := x, hasNext := false, deleted := true)
  {
  }

  ghost predicate Merges(s: State, s': State, x: Id, r: Id) {
    && x in s.nodes && r in s.nodes && x != r && s' == DoMerge(s, x, r)
    && !s.nodes[x].deleted && s.nodes[x].hasNext && s.nodes[x].next == r && !s.nodes[x].fallen && !s.nodes[r].fallen
  }

  lemma MergeNode(s: State, s': State, x: Id, r: Id, n: Id)
    requires Inv(s) && Merges(s, s', x, r) && n in s.nodes
    ensures n in s'.nodes && NodeOk(s', n)
  {
    hide JobOk, LatchesOk, DoMerge;
    MergeDoes(s, s', x, r);
    assert NodeOk(s, x) && NodeOk(s, r) && NodeOk(s, n);
    assert NodeOk(s, s.nodes[n].into);
    if s.nodes[n].deleted || s.nodes[n].hasNext {
      assert s.nodes[n].next in s.nodes ==> NodeOk(s, s.nodes[n].next);
      assert NextOnce(s, n, x);
    }
    if s.nodes[r].hasNext {
      assert NodeOk(s, s.nodes[r].next);
    }
  }

  lemma MergeOnce(s: State, s': State, x: Id, r: Id, m: Id, n: Id)
    requires Inv(s) && Merges(s, s', x, r)
    ensures NextOnce(s', m, n)
  {
    hide JobOk, LatchesOk, DoMerge, NodeOk;
    MergeDoes(s, s', x, r);
    assert NextOnce(s, m, n) && NextOnce(s, r, n) && NextOnce(s, m, r);
    LiveNext(s, x);
    if s.nodes[r].hasNext {
      LiveNext(s, r);
    }
  }

  lemma LiveNext(s: State, n: Id)
    requires Inv(s) && n in s.nodes && !s.nodes[n].deleted && s.nodes[n].hasNext
    ensures s.nodes[n].next in s.nodes && !s.nodes[s.nodes[n].next].deleted && s.nodes[n].next != n
  {
    assert NodeOk(s, n);
  }

  /** A thread whose job is the same still knows what it knew, if the node at which it waits leads where it did. */
  lemma JobKept(s: State, s': State, u: Tid)
    requires Inv(s) && JobOf(s', u) == JobOf(s, u)
    requires forall n :: n in s.nodes ==> n in s'.nodes && s'.nodes[n].level == s.nodes[n].level && s'.nodes[n].fallen == s.nodes[n].fallen
    requires var j := JobOf(s, u); j.want.Some? && j.at.Some? && j.at.value in s.nodes ==>
      SameWay(s.nodes[j.at.value], At(s', j.at.value))
    ensures JobOk(s', u)
  {
    hide NodeOk, NextOnce, Inv, HeldBy;
    MyNode(s, u);
    var j := JobOf(s, u);
    HeldIn(j);
    assert j.low.Some? ==> j.low.value in HeldBy(j);
    assert j.at.Some? ==> j.at.value in HeldBy(j);
    assert j.pair.Some? ==> j.pair.value in HeldBy(j);
  }

  lemma HeldIn(j: Job)
    ensures j.low.Some? ==> j.low.value in HeldBy(j)
    ensures j.at.Some? ==> j.at.value in HeldBy(j)
    ensures j.pair.Some? ==> j.pair.value in HeldBy(j)
  {
  }

  predicate SameWay(x: Node, y: Node) {
    x.next == y.next && x.hasNext == y.hasNext && x.deleted == y.deleted
  }

  lemma MergeJob(s: State, s': State, t: Tid, x: Id, r: Id, u: Tid)
    requires Inv(s) && Merges(s, s', x, r) && s.nodes[x].latch == Some(t) && s.nodes[r].latch == Some(t) && JobOf(s, t).want.None?
    ensures JobOk(s', u)
  {
    hide NodeOk, NextOnce, DoMerge, Inv, JobOk, HeldBy;
    MergeDoes(s, s', x, r);
    MyNode(s, u);
    HeldIn(JobOf(s, u));
    JobKept(s, s', u);
  }

  lemma KeepMerge(s: State, t: Tid)
    requires Inv(s) && Enabled(s, Merge(t))
    ensures Inv(Do(s, Merge(t)))
  {
    hide Inv, NodeOk, NextOnce, DoMerge;
    MyNode(s, t);
    var s', x, r := Do(s, Merge(t)), JobOf(s, t).at.value, JobOf(s, t).pair.value;
    assert Merges(s, s', x, r);
    MergeDoes(s, s', x, r);
    forall n | n in s'.nodes ensures NodeOk(s', n) {
      MergeNode(s, s', x, r, n);
    }
    forall m, n ensures NextOnce(s', m, n) {
      MergeOnce(s, s', x, r, m, n);
    }
    forall u ensures JobOk(s', u) {
      MergeJob(s, s', t, x, r, u);
    }
    InvLatches(s);
    LatchesKept(s, s');
    InvWhole(s');
  }

  lemma InvLatches(s: State)
    requires Inv(s)
    ensures LatchesOk(s)
  {
  }

  // ---------- a root gives way to its only child ----------

  lemma FallNodes(s: State, t: Tid)
    requires Inv(s) && Enabled(s, Collapse(t))
    ensures var s' := Do(s, Collapse(t)); (forall n :: n in s'.nodes ==> NodeOk(s', n)) && (forall m, n :: NextOnce(s', m, n))
  {
    hide LatchesOk;
    var s', x := Do(s, Collapse(t)), JobOf(s, t).at.value;
    assert JobOk(s, t) && NodeOk(s, x);
    forall n | n in s'.nodes ensures NodeOk(s', n) {
      assert NodeOk(s, n);
    }
    forall m, n ensures NextOnce(s', m, n) {
      assert NextOnce(s, m, n);
    }
  }

  lemma FallJobs(s: State, t: Tid)
    requires Inv(s) && Enabled(s, Collapse(t)) && !Catches(s, Collapse(t))
    ensures forall u :: JobOk(Do(s, Collapse(t)), u)
  {
    hide NodeOk, NextOnce, Inv;
    var s', x := Do(s, Collapse(t)), JobOf(s, t).at.value;
    MyNode(s, t);
    assert x in HeldBy(JobOf(s, t));
    forall u ensures JobOk(s', u) {
      MyNode(s, u);
      if u != t {
        assert x !in HeldBy(JobOf(s, u));
        assert JobOf(s', u) == JobOf(s, u) && JobOf(s, u).want != Some(x);
      }
    }
  }

  lemma FallLatches(s: State, t: Tid)
    requires Inv(s) && Enabled(s, Collapse(t))
    ensures LatchesOk(Do(s, Collapse(t)))
  {
    hide NodeOk, NextOnce, JobOk;
    var s' := Do(s, Collapse(t));
    Latched(s, t);
    LatchStepOk(s, s', t);
  }

  lemma KeepCollapse(s: State, t: Tid)
    requires Inv(s) && Enabled(s, Collapse(t)) && !Catches(s, Collapse(t))
    ensures Inv(Do(s, Collapse(t)))
  {
    hide *;
    FallNodes(s, t);
    FallJobs(s, t);
    FallLatches(s, t);
    InvWhole(Do(s, Collapse(t)));
  }

  // ---------- runs ----------

  function Init(): State {
    State(map[0 := Node(0, 0, false, false, false, None, 0.0, 0, 0)], map[])
  }

  ghost predicate CanRun(s: State, run: seq<Step>)
    decreases |run|
  {
    run != [] ==> Enabled(s, run[0]) && CanRun(Do(s, run[0]), run[1..])
  }

  function After(s: State, run: seq<Step>): State
    requires CanRun(s, run)
    decreases |run|
  {
    if run == [] then s else After(Do(s, run[0]), run[1..])
  }

  /** No step of the run makes a thread wait for a fallen root. */
  ghost predicate CatchFree(s: State, run: seq<Step>)
    requires CanRun(s, run)
    decreases |run|
  {
    run != [] ==> !Catches(s, run[0]) && CatchFree(Do(s, run[0]), run[1..])
  }

  lemma Keep(s: State, st: Step)
    requires Inv(s) && Enabled(s, st) && !Catches(s, st)
    ensures Inv(Do(s, st))
  {
    hide Inv, Enabled, Do, Catches;
    match st
    case Start(t, n) => KeepQuiet(s, st);
    case Grant(t) => KeepGrant(s, t);
    case Hop(t) => KeepQuiet(s, st);
    case Move(t) => KeepFree(s, st);
    case DropLow(t) => KeepFree(s, st);
    case DropPair(t) => KeepFree(s, st);
    case Release(t) => KeepFree(s, st);
    case Split(t, right, place) => KeepSplit(s, t, right, place);
    case Merge(t) => KeepMerge(s, t);
    case Climb(t, up) => KeepQuiet(s, st);
    case NewRoot(t, top) => KeepNewRoot(s, t, top);
    case Collapse(t) => KeepCollapse(s, t);
  }

  lemma {:induction false} Reached(s: State, run: seq<Step>)
    requires Inv(s) && CanRun(s, run) && CatchFree(s, run)
    ensures Inv(After(s, run))
    decreases |run|
  {
    hide Inv, Enabled, Do, Catches;
    if run != [] {
      Keep(s, run[0]);
      Reached(Do(s, run[0]), run[1..]);
    }
  }

  // ---------- no deadlock ----------

  lemma BelowTransitive(s: State, a: Id, b: Id, c: Id)
    requires Below(s, a, b) && Below(s, b, c)
    ensures Below(s, a, c) && !Below(s, a, a)
  {
  }

  function Wanted(s: State, t: Tid): Id {
    if JobOf(s, t).want.Some? then JobOf(s, t).want.value else 0
  }

  /** Among finitely many threads there is one whose wanted node is below no other's. */
  lemma {:induction false} Topmost(s: State, ts: set<Tid>) returns (top: Tid)
    requires ts != {}
    ensures top in ts && forall t :: t in ts ==> !Below(s, Wanted(s, top), Wanted(s, t))
    decreases |ts|
  {
    hide Below;
    var t := Pick(ts);
    var rest := ts - {t};
    if rest == {} {
      assert ts == {t};
      NotBelow(s, Wanted(s, t));
      top := t;
    } else {
      var u := Topmost(s, rest);
      NotBelow(s, Wanted(s, t));
      if Below(s, Wanted(s, u), Wanted(s, t)) {
        forall v | v in ts ensures !Below(s, Wanted(s, t), Wanted(s, v)) {
          assert v == t || v in rest;
          if Below(s, Wanted(s, t), Wanted(s, v)) {
            BelowTransitive(s, Wanted(s, u), Wanted(s, t), Wanted(s, v));
          }
        }
        top := t;
      } else {
        top := u;
      }
    }
  }

  lemma NotBelow(s: State, a: Id)
    ensures !Below(s, a, a)
  {
  }

  /** Threads that all wait for latches held among themselves. */
  ghost predicate Stuck(s: State, ts: set<Tid>) {
    ts != {} && forall t :: t in ts ==> exists u :: u in ts && Waits(s, t, u)
  }

  lemma StuckOn(s: State, ts: set<Tid>, t: Tid) returns (u: Tid)
    requires Stuck(s, ts) && t in ts
    ensures u in ts && Waits(s, t, u)
  {
    hide Waits;
    u :| u in ts && Waits(s, t, u);
  }

  lemma NeverStuck(s: State, ts: set<Tid>)
    requires Inv(s)
    ensures !Stuck(s, ts)
  {
    hide Inv, Below, Stuck, HeldBy;
    if Stuck(s, ts) {
      assert ts != {} by { StuckSome(s, ts); }
      var t := Topmost(s, ts);
      var u := StuckOn(s, ts, t);
      HolderHolds(s, t, u);
      var v := StuckOn(s, ts, u);
      WaitsGoUp(s, u, Wanted(s, t));
    }
  }

  lemma StuckSome(s: State, ts: set<Tid>)
    requires Stuck(s, ts)
    ensures ts != {}
  {
  }

  lemma HolderHolds(s: State, t: Tid, u: Tid)
    requires Inv(s) && Waits(s, t, u)
    ensures Wanted(s, t) in HeldBy(JobOf(s, u))
  {
  }

  /**
   In every run in which no thread comes to wait for a fallen root, whatever a waiting thread holds is below the node it
   waits for, so no threads ever wait for each other in a circle: among any threads that wait, one waits for a thread
   outside.
   */
  lemma NoDeadlock(run: seq<Step>, ts: set<Tid>)
    requires CanRun(Init(), run) && CatchFree(Init(), run)
    ensures !Stuck(After(Init(), run), ts)
    ensures forall t, n :: JobOf(After(Init(), run), t).want.Some? && n in HeldBy(JobOf(After(Init(), run), t)) ==>
      Below(After(Init(), run), n, JobOf(After(Init(), run), t).want.value)
  {
    hide Inv, Below, Stuck, HeldBy;
    InitInv();
    Reached(Init(), run);
    var s := After(Init(), run);
    NeverStuck(s, ts);
    forall t, n | JobOf(s, t).want.Some? && n in HeldBy(JobOf(s, t)) ensures Below(s, n, JobOf(s, t).want.value) {
      WaitsGoUp(s, t, n);
    }
  }

  lemma InitInv()
    ensures Inv(Init())
  {
  }
}
