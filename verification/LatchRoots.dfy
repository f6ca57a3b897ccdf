/**
 Roots that gave way to their only child: a thread that comes to wait for one waits downwards later, and no other does.
 A tree that shrinks and grows again makes a thread that still has the old root on its path wait for itself.
 */
module LatchRoots {
  import opened Options
  import opened LatchOrder
  import opened LatchRuns

  /** Whatever a waiting thread holds is below the node it waits for. */
  ghost predicate WaitsUp(s: State) {
    forall t, n :: JobOf(s, t).want.Some? && n in HeldBy(JobOf(s, t)) ==> Below(s, n, JobOf(s, t).want.value)
  }

  /** So it stays, as long as no further thread comes to wait for a fallen root. */
  ghost predicate UpEver(s: State) {
    forall run :: CanRun(s, run) && CatchFree(s, run) ==> WaitsUp(After(s, run))
  }

  /** A run leads from one state to another, and makes no thread wait for a fallen root. */
  ghost predicate Leads(s: State, run: seq<Step>, e: State) {
    CanRun(s, run) && CatchFree(s, run) && After(s, run) == e
  }

  ghost predicate Reaches(s: State, e: State) {
    exists run :: Leads(s, run, e)
  }

  lemma Here(s: State)
    ensures Reaches(s, s)
  {
    assert Leads(s, [], s);
  }

  lemma First(s: State, st: Step, e: State)
    requires Enabled(s, st) && !Catches(s, st) && Reaches(Do(s, st), e)
    ensures Reaches(s, e)
  {
    hide Enabled, Do, Catches;
    var run :| Leads(Do(s, st), run, e);
    var more := [st] + run;
    assert more[0] == st && more[1..] == run;
    assert Leads(s, more, e);
  }

  // ---------- a step that makes nobody wait for a fallen root ----------

  lemma StaysUp(s: State)
    requires Inv(s)
    ensures UpEver(s)
  {
    hide Inv, CanRun, CatchFree, Below, HeldBy;
    forall run | CanRun(s, run) && CatchFree(s, run) ensures WaitsUp(After(s, run)) {
      Reached(s, run);
      var e := After(s, run);
      forall t, n | JobOf(e, t).want.Some? && n in HeldBy(JobOf(e, t)) ensures Below(e, n, JobOf(e, t).want.value) {
        WaitsGoUp(e, t, n);
      }
    }
  }

  // ---------- a step that does ----------

  /** Thread t waits for the fallen root, with or without a node to its left. */
  ghost predicate Caught(s: State, t: Tid, top: Id) {
    && top in s.nodes && s.nodes[top].fallen && s.nodes[top].next in s.nodes && s.nodes[s.nodes[top].next].level < s.nodes[top].level
    && JobOf(s, t).want == Some(top) && JobOf(s, t).pair.None? && !JobOf(s, t).ends
    && (JobOf(s, t).at.Some? ==> JobOf(s, t).at.value in s.nodes && JobOf(s, t).at != Some(top))
  }

  /** Thread t holds the fallen root and is sent down. */
  lemma SentDown(s: State, t: Tid, top: Id)
    requires top in s.nodes && s.nodes[top].fallen && s.nodes[top].next in s.nodes && s.nodes[s.nodes[top].next].level < s.nodes[top].level
    requires JobOf(s, t).at == Some(top) && JobOf(s, t).want.None? && JobOf(s, t).pair.None? && !JobOf(s, t).ends
    ensures !UpEver(s)
  {
    hide HeldBy, CanRun, CatchFree, After;
    var e := Do(s, Hop(t));
    assert top in HeldBy(JobOf(e, t)) by { HeldIn(JobOf(e, t)); }
    assert !Below(e, top, JobOf(e, t).want.value);
    Here(e);
    First(s, Hop(t), e);
    NotEver(s, e);
  }

  lemma FreeCatches(s: State, t: Tid, top: Id)
    requires Caught(s, t, top) && s.nodes[top].latch.None?
    ensures !UpEver(s)
  {
    hide UpEver;
    var s1 := Do(s, Grant(t));
    if JobOf(s, t).at.None? {
      SentDown(s1, t, top);
    } else {
      SentDown(Do(s1, Move(t)), t, top);
      EverOn(s1, Move(t));
    }
    EverOn(s, Grant(t));
  }

  lemma NotEver(s: State, e: State)
    requires Reaches(s, e) && !WaitsUp(e)
    ensures !UpEver(s)
  {
    hide WaitsUp, CanRun, CatchFree, After;
    var run :| Leads(s, run, e);
  }

  lemma EverOn(s: State, st: Step)
    requires Enabled(s, st) && !Catches(s, st) && !UpEver(Do(s, st))
    ensures !UpEver(s)
  {
    hide Enabled, Do, Catches, WaitsUp;
    var run :| CanRun(Do(s, st), run) && CatchFree(Do(s, st), run) && !WaitsUp(After(Do(s, st), run));
    var e := After(Do(s, st), run);
    assert Leads(Do(s, st), run, e);
    First(s, st, e);
    NotEver(s, e);
  }

  /** The thread that made the root fall lets go of it. */
  lemma HeldCatches(s: State, t: Tid, top: Id, u: Tid)
    requires Caught(s, t, top) && s.nodes[top].latch == Some(u) && u != t && JobOf(s, u).at == Some(top)
    requires JobOf(s, u).want.None? && JobOf(s, u).pair.None? && (JobOf(s, u).low.Some? ==> JobOf(s, u).low.value in s.nodes && JobOf(s, u).low != Some(top))
    ensures !UpEver(s)
  {
    hide UpEver;
    var m := if JobOf(s, u).low.Some? then Do(s, DropLow(u)) else s;
    var e := Do(m, Release(u));
    FreeCatches(e, t, top);
    EverOn(m, Release(u));
    if JobOf(s, u).low.Some? {
      EverOn(s, DropLow(u));
    }
  }

  lemma FallenHolder(s: State, top: Id, u: Tid)
    requires Inv(s) && top in s.nodes && s.nodes[top].fallen && s.nodes[top].latch == Some(u)
    ensures var j := JobOf(s, u); j.at == Some(top) && j.ends && j.want.None? && j.pair.None? && (j.low.Some? ==> j.low.value in s.nodes && j.low != Some(top))
  {
    hide NodeOk, NextOnce, Inv;
    MyNode(s, u);
    HeldIn(JobOf(s, u));
  }

  /** A climb or a hop to a root that has fallen before. */
  lemma GoesThere(s: State, st: Step, top: Id)
    requires Inv(s) && Enabled(s, st) && (st.Climb? || st.Hop?) && Catches(s, st)
    requires top == if st.Climb? then st.up else At(s, JobOf(s, st.t).at.value).next
    ensures !UpEver(Do(s, st))
  {
    hide UpEver, Inv, HeldBy, OffFallen;
    var s1, t := Do(s, st), st.t;
    StandsOver(s, top);
    assert Caught(s1, t, top);
    if s.nodes[top].latch.None? {
      FreeCatches(s1, t, top);
    } else {
      var u := s.nodes[top].latch.value;
      FallenHolder(s, top, u);
      HeldCatches(s1, t, top, u);
    }
  }

  /** A root that falls while a thread waits for it. */
  lemma FallsOn(s: State, t: Tid, u: Tid)
    requires Inv(s) && Enabled(s, Collapse(t)) && JobOf(s, u).want.Some? && JobOf(s, u).want == JobOf(s, t).at
    ensures !UpEver(Do(s, Collapse(t)))
  {
    hide UpEver, Inv, NodeOk, HeldBy;
    var s1, top := Do(s, Collapse(t)), JobOf(s, t).at.value;
    MyNode(s, t);
    MyNode(s, u);
    HeldIn(JobOf(s, t));
    HeldIn(JobOf(s, u));
    assert Caught(s1, u, top);
    HeldCatches(s1, u, top, t);
  }

  lemma StandsOver(s: State, top: Id)
    requires Inv(s) && top in s.nodes && s.nodes[top].fallen
    ensures s.nodes[top].next in s.nodes && s.nodes[s.nodes[top].next].level < s.nodes[top].level
  {
    assert NodeOk(s, top);
  }

  /**
   Exactly when a step is safe: from any state in which nobody waits for a fallen root, all waits go up ever after the
   step, as long as no further thread comes to wait for a fallen root, if and only if the step is not a climb or a hop to
   one, nor makes a root fall for which a thread waits.
   */
  lemma StepSafeIff(s: State, st: Step)
    requires Inv(s) && Enabled(s, st)
    ensures UpEver(Do(s, st)) <==> !Catches(s, st)
  {
    hide UpEver, Inv, Do;
    if !Catches(s, st) {
      Keep(s, st);
      StaysUp(Do(s, st));
    } else if st.Collapse? {
      var u :| JobOf(s, u).want.Some? && JobOf(s, u).want == JobOf(s, st.t).at;
      FallsOn(s, st.t, u);
    } else {
      GoesThere(s, st, if st.Climb? then st.up else At(s, JobOf(s, st.t).at.value).next);
    }
  }

  /** For climbs: the climb is not to a fallen root. */
  lemma ClimbSafeIff(s: State, t: Tid, up: Id)
    requires Inv(s) && Enabled(s, Climb(t, up))
    ensures UpEver(Do(s, Climb(t, up))) <==> !At(s, up).fallen
  {
    hide UpEver, Inv, Enabled, Do;
    StepSafeIff(s, Climb(t, up));
  }

  // ---------- a thread that waits for itself ----------

  ghost predicate Ran(s: State, run: seq<Step>, e: State) {
    CanRun(s, run) && After(s, run) == e
  }

  ghost predicate Gets(s: State, e: State) {
    exists run :: Ran(s, run, e)
  }

  lemma GetsSelf(s: State)
    ensures Gets(s, s)
  {
    assert Ran(s, [], s);
  }

  lemma GetsBy(s: State, st: Step, e: State)
    requires Enabled(s, st) && Gets(Do(s, st), e)
    ensures Gets(s, e)
  {
    hide Enabled, Do;
    var run :| Ran(Do(s, st), run, e);
    var more := [st] + run;
    assert more[0] == st && more[1..] == run;
    assert Ran(s, more, e);
  }

  lemma GetsOn(s: State, m: State, e: State)
    requires Gets(s, m) && Gets(m, e)
    ensures Gets(s, e)
  {
    hide Enabled, Do, CanRun, After;
    var run :| Ran(s, run, m);
    GetsAll(s, run, m, e);
  }

  lemma {:induction false} GetsAll(s: State, run: seq<Step>, m: State, e: State)
    requires Ran(s, run, m) && Gets(m, e)
    ensures Gets(s, e)
    decreases |run|
  {
    hide Enabled, Do, Gets;
    if run != [] {
      GetsAll(Do(s, run[0]), run[1..], m, e);
      GetsBy(s, run[0], e);
    }
  }

  /** One leaf 0, nobody at work on it; thread 2 is at a job. */
  ghost predicate Low(s: State, j2: Job) {
    && 0 in s.nodes && s.nodes[0] == Node(0, s.nodes[0].next, false, false, false, None, 0.0, 0, 0)
    && JobOf(s, 1) == IDLE && JobOf(s, 2) == j2
  }

  /** The leaf has split into 0 and r under a root. */
  ghost predicate High(s: State, j2: Job, r: Id, top: Id) {
    && 0 in s.nodes && r in s.nodes && top in s.nodes && r != 0 && top != 0 && r != top
    && s.nodes[0] == Node(0, r, true, false, false, None, 0.0, 0, 0)
    && s.nodes[r] == Node(0, s.nodes[r].next, false, false, false, None, 1.0, r, 0)
    && s.nodes[top] == Node(1, 0, false, false, false, None, 0.0, top, 0)
    && JobOf(s, 1) == IDLE && JobOf(s, 2) == j2
  }

  /** The splitting thread has put a root on top and holds both. */
  lemma GrowUp(s: State, j2: Job, r: Id, top: Id) returns (e: State)
    requires Low(s, j2) && r !in s.nodes && top !in s.nodes && r != top
    ensures Gets(s, e) && JobOf(e, 1) == Job(Some(0), Some(top), None, None, false) && JobOf(e, 2) == j2
    ensures e.nodes == s.nodes[0 := Node(0, r, true, false, false, Some(1), 0.0, 0, 0)]
                              [r := Node(0, s.nodes[0].next, false, false, false, None, 1.0, r, 0)]
                              [top := Node(1, 0, false, false, false, Some(1), 0.0, top, 0)]
  {
    hide Gets;
    var s1 := Do(s, Start(1, 0));
    var s2 := Do(s1, Grant(1));
    var s3 := Do(s2, Split(1, r, 1.0));
    e := Do(s3, NewRoot(1, top));
    GetsSelf(e);
    GetsBy(s3, NewRoot(1, top), e);
    GetsBy(s2, Split(1, r, 1.0), e);
    GetsBy(s1, Grant(1), e);
    GetsBy(s, Start(1, 0), e);
  }

  lemma Grow(s: State, j2: Job, r: Id, top: Id) returns (e: State)
    requires Low(s, j2) && r !in s.nodes && top !in s.nodes && r != top
    ensures Gets(s, e) && High(e, j2, r, top) && e.nodes.Keys == s.nodes.Keys + {r, top}
    ensures forall n :: n in s.nodes && n != 0 ==> e.nodes[n] == s.nodes[n]
  {
    hide Gets;
    var m := GrowUp(s, j2, r, top);
    var s1 := Do(m, DropLow(1));
    e := Do(s1, Release(1));
    GetsSelf(e);
    GetsBy(s1, Release(1), e);
    GetsBy(m, DropLow(1), e);
    GetsOn(s, m, e);
  }

  /** Leaf r is merged into leaf 0, which the merging thread still holds. */
  lemma ShrinkLow(s: State, j2: Job, r: Id, top: Id) returns (e: State)
    requires High(s, j2, r, top)
    ensures Gets(s, e) && e.nodes.Keys == s.nodes.Keys && JobOf(e, 1) == Job(None, Some(0), None, None, false) && JobOf(e, 2) == j2
    ensures e.nodes[0] == Node(0, s.nodes[r].next, false, false, false, Some(1), 0.0, 0, 0) && e.nodes[top] == s.nodes[top]
  {
    hide Gets;
    var s1 := Do(s, Start(1, 0));
    var s2 := Do(s1, Grant(1));
    var s3 := Do(s2, Hop(1));
    var s4 := Do(s3, Grant(1));
    var s5 := Do(s4, Merge(1));
    e := Do(s5, DropPair(1));
    GetsSelf(e);
    GetsBy(s5, DropPair(1), e);
    GetsBy(s4, Merge(1), e);
    GetsBy(s3, Grant(1), e);
    GetsBy(s2, Hop(1), e);
    GetsBy(s1, Grant(1), e);
    GetsBy(s, Start(1, 0), e);
  }

  /** The root falls, and leaf 0 is all there is. */
  lemma Shrink(s: State, j2: Job, r: Id, top: Id) returns (e: State)
    requires High(s, j2, r, top)
    ensures Gets(s, e) && Low(e, j2) && e.nodes.Keys == s.nodes.Keys && e.nodes[top] == s.nodes[top].(fallen := true, next := 0)
  {
    hide Gets;
    var m := ShrinkLow(s, j2, r, top);
    var s1 := Do(m, Climb(1, top));
    var s2 := Do(s1, Grant(1));
    var s3 := Do(s2, Collapse(1));
    var s4 := Do(s3, DropLow(1));
    e := Do(s4, Release(1));
    GetsSelf(e);
    GetsBy(s4, Release(1), e);
    GetsBy(s3, DropLow(1), e);
    GetsBy(s2, Collapse(1), e);
    GetsBy(s1, Grant(1), e);
    GetsBy(m, Climb(1, top), e);
    GetsOn(s, m, e);
  }

  /** The thread that came down by the old root splits leaf 0 and goes back to the old root, which sends it to leaf 0. */
  lemma BackToFallen(s: State, old_: Id, r: Id) returns (e: State)
    requires 0 in s.nodes && s.nodes[0].latch.None? && s.nodes[0].level == 0 && !s.nodes[0].deleted && !s.nodes[0].fallen && s.nodes[0].place == 0.0
    requires s.nodes[0].hasNext ==> s.nodes[0].next in s.nodes && s.nodes[s.nodes[0].next].place == 1.0
    requires old_ in s.nodes && old_ != 0 && s.nodes[old_] == Node(1, 0, false, false, true, None, 0.0, old_, 0)
    requires JobOf(s, 2) == IDLE.(want := Some(0)) && r !in s.nodes
    ensures Gets(s, e) && Waits(e, 2, 2)
  {
    hide Gets;
    var s1 := Do(s, Grant(2));
    var s2 := Do(s1, Split(2, r, 0.5));
    var s3 := Do(s2, Climb(2, old_));
    var s4 := Do(s3, Grant(2));
    e := Do(s4, Hop(2));
    GetsSelf(e);
    GetsBy(s4, Hop(2), e);
    GetsBy(s3, Grant(2), e);
    GetsBy(s2, Climb(2, old_), e);
    GetsBy(s1, Split(2, r, 0.5), e);
    GetsBy(s, Grant(2), e);
  }

  /**
   A run in which a thread ends up waiting for itself: it has come down by a root of two leaves and waits for the left one;
   the leaves are merged and the root falls; the leaf is split and a new root put on top; then the thread gets the leaf,
   splits it, and goes back to the old root on its path, which sends it down to the leaf it holds.
   */
  lemma WaitsForItself() returns (run: seq<Step>)
    ensures CanRun(Init(), run) && Stuck(After(Init(), run), {2})
  {
    hide Gets, Low, High, Waits, Do, Enabled, CanRun, After, JobOf;
    StartsLow();
    var a := Grow(Init(), IDLE, 1, 2);
    ComesDown(a);
    var b := Do(a, Start(2, 0));
    var c := Shrink(b, IDLE.(want := Some(0)), 1, 2);
    var d := Grow(c, IDLE.(want := Some(0)), 3, 4);
    HighIs(d, IDLE.(want := Some(0)), 3, 4);
    HighIs(b, IDLE.(want := Some(0)), 1, 2);
    var e := BackToFallen(d, 2, 5);
    GetsOn(c, d, e);
    GetsOn(b, c, e);
    GetsBy(a, Start(2, 0), e);
    GetsOn(Init(), a, e);
    run := Gotten(Init(), e);
  }

  lemma Gotten(s: State, e: State) returns (run: seq<Step>)
    requires Gets(s, e)
    ensures CanRun(s, run) && After(s, run) == e
  {
    run :| Ran(s, run, e);
  }

  lemma StartsLow()
    ensures Low(Init(), IDLE) && Init().nodes.Keys == {0}
  {
  }

  lemma ComesDown(s: State)
    requires High(s, IDLE, 1, 2)
    ensures Enabled(s, Start(2, 0)) && High(Do(s, Start(2, 0)), IDLE.(want := Some(0)), 1, 2) && Do(s, Start(2, 0)).nodes == s.nodes
  {
  }

  lemma HighIs(s: State, j2: Job, r: Id, top: Id)
    requires High(s, j2, r, top)
    ensures 0 in s.nodes && r in s.nodes && s.nodes[0] == Node(0, r, true, false, false, None, 0.0, 0, 0) && s.nodes[r].place == 1.0
    ensures top in s.nodes && s.nodes[top] == Node(1, 0, false, false, false, None, 0.0, top, 0) && JobOf(s, 2) == j2
  {
  }
}
