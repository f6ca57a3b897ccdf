/**
 Hops of the read protocol: exactly when a lookup that follows a sibling pointer can still be trusted. If the leaf it is
 sent to is not one it may be sent to, then whatever the other threads are doing there is a way on in which the lookup
 reports a key absent that is stored all the time.
 */
module ReadHops {
  import opened Options
  import opened ReadProtocol
  import opened ReadInvariant
  import opened ReadSteps
  import opened ReadRuns

  /** The key is stored in every state of the run. */
  ghost predicate StoredAlong(s: State, run: seq<Step>, k: int)
    decreases |run|
  {
    Stored(s, k) && (run != [] ==> StoredAlong(Do(s, run[0]), run[1..], k))
  }

  /** The leaf that the lookup is about to be sent to is one it may be sent to. */
  predicate HopLands(s: State, t: Tid) {
    JobOf(s, t).Looking? && Lands(s, At(s, JobOf(s, t).node).sib, JobOf(s, t).key)
  }

  /** A step after which thread t is still in the lookup it was in, sent to no leaf it may not be sent to. */
  predicate GoesOn(s: State, st: Step, t: Tid) {
    !(st.Arrive? && st.t == t) && (st == Hop(t) ==> HopLands(s, t))
  }

  /** Thread t begins no other lookup in the run and is sent to no leaf it may not be sent to. */
  ghost predicate Stays(s: State, run: seq<Step>, t: Tid)
    decreases |run|
  {
    run != [] ==> GoesOn(s, run[0], t) && Stays(Do(s, run[0]), run[1..], t)
  }

  /** A lookup that has just hopped will not report its key absent while the key is stored all the time. */
  ghost predicate Trusted(s: State, t: Tid, k: int) {
    forall run :: CanRun(s, run) && Stays(s, run, t) && StoredAlong(s, run, k) ==> !Reports(After(s, run), t)
  }

  // ---------- a good landing can be trusted ----------

  predicate Looks(s: State, t: Tid, k: int) {
    JobOf(s, t).Looking? ==> JobOf(s, t).straight && !JobOf(s, t).gone && JobOf(s, t).key == k
  }

  lemma LooksOn(s: State, st: Step, t: Tid, k: int)
    requires Enabled(s, st) && Looks(s, t, k) && GoesOn(s, st, t) && Stored(s, k)
    ensures Looks(Do(s, st), t, k)
  {
    hide Stored, SplitsAt, Test, Lands;
  }

  lemma {:induction false} NeverReports(s: State, run: seq<Step>, t: Tid, k: int)
    requires Inv(s) && CanRun(s, run) && Looks(s, t, k) && Stays(s, run, t) && StoredAlong(s, run, k)
    ensures !Reports(After(s, run), t)
    decreases |run|
  {
    hide Inv, Enabled, Do, Stored, GoesOn;
    if run == [] {
      if Reports(s, t) {
        ReportsLooking(s, t);
        AbsentNow(s, t);
      }
    } else {
      Keep(s, run[0]);
      LooksOn(s, run[0], t, k);
      NeverReports(Do(s, run[0]), run[1..], t, k);
    }
  }

  lemma ReportsLooking(s: State, t: Tid)
    requires Reports(s, t)
    ensures JobOf(s, t).Looking?
  {
  }

  // ---------- choosing where to split ----------

  lemma {:induction false} Smallest(ks: set<int>) returns (m: int)
    requires ks != {}
    ensures m in ks && forall k :: k in ks ==> m <= k
    decreases |ks|
  {
    var x := Pick(ks);
    var rest := ks - {x};
    if rest == {} {
      m := x;
      assert ks == {x};
    } else {
      var y := Smallest(rest);
      m := if x < y then x else y;
      assert forall k :: k in ks ==> k == x || k in rest;
    }
  }

  lemma {:induction false} Largest(ks: set<int>) returns (m: int)
    requires ks != {}
    ensures m in ks && forall k :: k in ks ==> k <= m
    decreases |ks|
  {
    var x := Pick(ks);
    var rest := ks - {x};
    if rest == {} {
      m := x;
      assert ks == {x};
    } else {
      var y := Largest(rest);
      m := if x < y then y else x;
      assert forall k :: k in ks ==> k == x || k in rest;
    }
  }

  /** The h-th smallest of more than h keys. */
  lemma {:induction false} Ranked(ks: set<int>, h: nat) returns (m: int)
    requires 0 < h < |ks|
    ensures m in ks && |LowerKeys(ks, m)| == h && exists k :: k in ks && m < k
    decreases h
  {
    if h == 1 {
      m := Smallest(ks);
      assert LowerKeys(ks, m) == {m};
    } else {
      var p := Ranked(ks, h - 1);
      var up := UpperKeys(ks, p);
      assert up != {} by { var k :| k in ks && p < k; assert k in up; }
      m := Smallest(up);
      assert m in up;
      forall k | k in ks && k <= m ensures k in LowerKeys(ks, p) + {m} {
        assert p < k ==> k in up;
      }
      assert LowerKeys(ks, m) == LowerKeys(ks, p) + {m};
    }
    MoreAbove(ks, m);
  }

  lemma MoreAbove(ks: set<int>, m: int)
    requires |LowerKeys(ks, m)| < |ks|
    ensures exists k :: k in ks && m < k
  {
    assert (forall k :: k in ks ==> k <= m) ==> LowerKeys(ks, m) == ks;
  }

  lemma FreshId(ids: set<Id>) returns (r: Id)
    ensures r !in ids
  {
    if ids == {} {
      r := 0;
    } else {
      var m := Largest(ids);
      r := m + 1;
    }
  }

  lemma SplitPoint(s: State, x: Leaf, key: int) returns (mid: int)
    requires s.size >= 2 && |x.keys| >= s.size
    ensures SplitsAt(s, x, key, mid)
  {
    if !x.hasSib && forall k :: k in x.keys ==> k < key {
      mid := Largest(x.keys);
    } else {
      mid := Ranked(x.keys, s.size / 2);
    }
  }

  // ---------- letting the holder of a latch finish ----------

  function Left(j: Job): nat {
    match j
    case Closing(_, _) => 1
    case Holding(_, _) => 2
    case Sorting(_) => 2
    case Adding(_, _, _) => 2
    case Splitting(_, _, _, _, phase) => if phase <= 2 then 5 - phase else 3
    case Changing(_, _) => 6
    case Merging(_, _, phase) => if phase <= 7 then 10 - phase else 2
    case _ => 0
  }

  /** Thread u holds the latch of leaf r, and not to merge r into its left neighbour. */
  ghost predicate Holds(s: State, u: Tid, r: Id) {
    && r in s.leaves && s.leaves[r].latch == Some(u) && !s.leaves[r].deleted && !Doomed(s, r)
  }

  lemma HoldsIs(s: State, u: Tid, r: Id)
    requires Inv(s) && Holds(s, u, r)
    ensures r in Latches(JobOf(s, u)) && JobOf(s, u).leaf == r && WriterOk(s, JobOf(s, u)) && s.leaves[r].filler.None?
    ensures Left(JobOf(s, u)) > 0
  {
    hide RangesOk, LinksOk, JobsOk;
    Owned(s, u, r);
    MyReader(s, u);
  }

  predicate Goes(s: State, s': State, u: Tid, r: Id) {
    && r in s.leaves && r in s'.leaves && s'.leaves[r].low == s.leaves[r].low && !s'.leaves[r].deleted && s'.size == s.size
    && if s'.leaves[r].latch.None? then true
       else s'.leaves[r].latch == Some(u) && !Doomed(s', r) && Left(JobOf(s', u)) < Left(JobOf(s, u))
  }

  /** The holder can go on: a step is enabled that brings it closer to letting go. */
  lemma HolderGoes(s: State, u: Tid, r: Id) returns (st: Step)
    requires Inv(s) && Holds(s, u, r) && s.size >= 2
    ensures Enabled(s, st) && st.t == u && Goes(s, Do(s, st), u, r) && !st.Arrive? && !st.Hop?
    ensures forall k :: !Over(s.leaves[r].low, k) ==> !Removes(s, st, k)
  {
    hide RangesOk, LinksOk, OwnersOk, JobsOk, Settled, Linked, DeadOrSettled, StartsAt, SplitsAt;
    HoldsIs(s, u, r);
    var j := JobOf(s, u);
    if j.Changing? {
      st := ChangerGoes(s, u, r);
    } else if j.Splitting? {
      st := SplitPhase(u);
      SplitterGoes(s, u, r);
    } else if j.Merging? {
      st := MergePhase(u);
      MergerGoes(s, u, r);
    } else {
      st := if j.Holding? then NoChange(u) else if j.Sorting? then SortEnd(u) else if j.Adding? then AddSplit(u) else Unlatch(u);
    }
  }

  lemma SplitterGoes(s: State, u: Tid, r: Id)
    requires Inv(s) && Holds(s, u, r) && JobOf(s, u).Splitting?
    ensures Enabled(s, SplitPhase(u)) && Goes(s, Do(s, SplitPhase(u)), u, r)
  {
    hide RangesOk, LinksOk, OwnersOk, JobsOk, Settled, Linked, DeadOrSettled, StartsAt, Booked;
    HoldsIs(s, u, r);
  }

  lemma MergerGoes(s: State, u: Tid, r: Id)
    requires Inv(s) && Holds(s, u, r) && JobOf(s, u).Merging?
    ensures Enabled(s, MergePhase(u)) && Goes(s, Do(s, MergePhase(u)), u, r)
  {
    hide RangesOk, LinksOk, OwnersOk, JobsOk, Settled, Linked, DeadOrSettled, StartsAt, Booked;
    HoldsIs(s, u, r);
  }

  lemma ChangerGoes(s: State, u: Tid, r: Id) returns (st: Step)
    requires Inv(s) && Holds(s, u, r) && s.size >= 2 && JobOf(s, u).Changing?
    ensures Enabled(s, st) && st.t == u && Goes(s, Do(s, st), u, r) && !st.Arrive? && !st.Hop?
    ensures forall k :: !Over(s.leaves[r].low, k) ==> !Removes(s, st, k)
  {
    hide RangesOk, LinksOk, OwnersOk, JobsOk, Settled, Linked, DeadOrSettled, StartsAt, SplitsAt;
    HoldsIs(s, u, r);
    var j := JobOf(s, u);
    if j.op.Del? {
      st := Drop(u);
    } else if |s.leaves[r].keys| < s.size {
      st := Add(u);
    } else {
      var right := FreshId(s.leaves.Keys);
      var mid := SplitPoint(s, s.leaves[r], j.op.key);
      st := SplitMove(u, right, mid);
    }
  }

  /** Some run that keeps t in its lookup leads from one state to another with the key stored all the way. */
  ghost predicate Reaches(s: State, e: State, t: Tid, k: int) {
    exists run :: CanRun(s, run) && Stays(s, run, t) && StoredAlong(s, run, k) && After(s, run) == e
  }

  lemma Here(s: State, t: Tid, k: int)
    requires Stored(s, k)
    ensures Reaches(s, s, t, k)
  {
    assert CanRun(s, []) && Stays(s, [], t) && StoredAlong(s, [], k) && After(s, []) == s;
  }

  lemma First(s: State, st: Step, e: State, t: Tid, k: int)
    requires Enabled(s, st) && Stored(s, k) && GoesOn(s, st, t) && Reaches(Do(s, st), e, t, k)
    ensures Reaches(s, e, t, k)
  {
    hide Enabled, Do, Stored, GoesOn;
    var run :| CanRun(Do(s, st), run) && Stays(Do(s, st), run, t) && StoredAlong(Do(s, st), run, k) && After(Do(s, st), run) == e;
    var more := [st] + run;
    assert more[1..] == run && more[0] == st;
    assert CanRun(s, more) && Stays(s, more, t) && StoredAlong(s, more, k) && After(s, more) == e;
  }

  /** A thread with nothing but a lookup under way does not move when another takes a step. */
  lemma OthersJob(s: State, st: Step, t: Tid)
    requires Enabled(s, st) && st.t != t
    ensures JobOf(Do(s, st), t) == JobOf(s, t)
  {
    hide Stored, SplitsAt, Test, Lands;
  }

  /** The leaf is let go of in the end, with the lookup where it was and the key stored all the way. */
  lemma {:induction false} Finished(s: State, u: Tid, r: Id, t: Tid, k: int) returns (e: State)
    requires Inv(s) && Holds(s, u, r) && s.size >= 2 && JobOf(s, t).Looking? && Stored(s, k) && !Over(s.leaves[r].low, k)
    ensures Inv(e) && Reaches(s, e, t, k) && JobOf(e, t) == JobOf(s, t) && Stored(e, k)
    ensures r in e.leaves && e.leaves[r].latch.None? && !e.leaves[r].deleted && e.leaves[r].low == s.leaves[r].low
    decreases Left(JobOf(s, u))
  {
    hide Inv, Enabled, Do, Stored, Reaches, Removes, Doomed, Left;
    var st := HolderGoes(s, u, r);
    var s1 := Do(s, st);
    HolderLooksNot(s, u, r);
    Keep(s, st);
    OthersJob(s, st, t);
    StoredChanges(s, st, k);
    if s1.leaves[r].latch.None? {
      e := s1;
      Here(s1, t, k);
    } else {
      e := Finished(s1, u, r, t, k);
    }
    First(s, st, e, t, k);
  }

  lemma HolderLooksNot(s: State, u: Tid, r: Id)
    requires Inv(s) && Holds(s, u, r)
    ensures !JobOf(s, u).Looking?
  {
    HoldsIs(s, u, r);
  }

  // ---------- a bad landing cannot ----------

  /** The lookup's leaf is one at which it will not find its key: the key is not in its range. */
  ghost predicate Misled(s: State, t: Tid, stage: Stage) {
    && JobOf(s, t).Looking? && JobOf(s, t).stage == stage && JobOf(s, t).node in s.leaves
    && var x, k := s.leaves[JobOf(s, t).node], JobOf(s, t).key;
    && x.latch.None? && !x.deleted && k !in x.keys
    && (x.hasSib ==> k <= x.high) && (!stage.Arrived? ==> JobOf(s, t).seen == x.version)
  }

  lemma MisledIs(s: State, t: Tid)
    requires Inv(s) && JobOf(s, t).Looking? && JobOf(s, t).stage.Arrived? && JobOf(s, t).node in s.leaves
    requires s.leaves[JobOf(s, t).node].latch.None? && !s.leaves[JobOf(s, t).node].deleted
    requires var y, k := s.leaves[JobOf(s, t).node], JobOf(s, t).key;
      !Over(y.low, k) || (y.filler.Some? && y.up.Some? && k > y.up.value && !y.hasSib)
    ensures Misled(s, t, Arrived)
  {
    hide OwnersOk, JobsOk, StartsAt;
    var l := JobOf(s, t).node;
    KeysInOf(s, l);
    if s.leaves[l].filler.Some? {
      FillingIs(s, l);
    } else {
      assert DeadOrSettled(s, s.leaves[l]);
    }
  }

  lemma MisledOn(s: State, t: Tid)
    requires Misled(s, t, Arrived)
    ensures Enabled(s, Begin(t)) && Misled(Do(s, Begin(t)), t, Begun)
    ensures var s1 := Do(s, Begin(t)); Enabled(s1, ReadDeleted(t)) && Misled(Do(s1, ReadDeleted(t)), t, Live)
    ensures Do(s, Begin(t)).leaves == s.leaves && Do(Do(s, Begin(t)), ReadDeleted(t)).leaves == s.leaves
  {
  }

  lemma MisledMarks(s: State, t: Tid)
    requires Misled(s, t, Live)
    ensures Enabled(s, ReadHasSib(t)) && Do(s, ReadHasSib(t)).leaves == s.leaves
    ensures var s1 := Do(s, ReadHasSib(t));
      Misled(s1, t, Scanning)
      || (Misled(s1, t, HasSibling) && Enabled(s1, ReadHigh(t)) && Misled(Do(s1, ReadHigh(t)), t, Scanning) && Do(s1, ReadHigh(t)).leaves == s.leaves)
  {
  }

  lemma MisledMiss(s: State, t: Tid)
    requires Misled(s, t, Scanning)
    ensures Enabled(s, Miss(t)) && Reports(Do(s, Miss(t)), t) && Do(s, Miss(t)).leaves == s.leaves
  {
    hide Stored;
  }

  lemma StoredSame(s: State, s': State, k: int)
    requires s'.leaves == s.leaves
    ensures Stored(s', k) == Stored(s, k)
  {
  }

  lemma MisledReports(s: State, t: Tid, k: int) returns (e: State)
    requires Misled(s, t, Arrived) && Stored(s, k)
    ensures Reaches(s, e, t, k) && Reports(e, t)
  {
    hide CanRun, After, Enabled, Do, Stored, Stays, StoredAlong, Reaches, Reports, Misled, HopLands, Lands, At;
    var s1 := Do(s, Begin(t));
    var s2 := Do(s1, ReadDeleted(t));
    MisledOn(s, t);
    StoredSame(s, s1, k);
    StoredSame(s, s2, k);
    var s3 := Do(s2, ReadHasSib(t));
    MisledMarks(s2, t);
    StoredSame(s, s3, k);
    var s4 := if Misled(s3, t, Scanning) then s3 else Do(s3, ReadHigh(t));
    StoredSame(s, s4, k);
    e := Do(s4, Miss(t));
    MisledMiss(s4, t);
    StoredSame(s, e, k);
    Here(e, t, k);
    First(s4, Miss(t), e, t, k);
    if !Misled(s3, t, Scanning) {
      First(s3, ReadHigh(t), e, t, k);
    }
    First(s2, ReadHasSib(t), e, t, k);
    First(s1, ReadDeleted(t), e, t, k);
    First(s, Begin(t), e, t, k);
  }

  lemma ReachesMore(s: State, m: State, e: State, t: Tid, k: int)
    requires Reaches(s, m, t, k) && Reaches(m, e, t, k)
    ensures Reaches(s, e, t, k)
  {
    var run :| CanRun(s, run) && Stays(s, run, t) && StoredAlong(s, run, k) && After(s, run) == m;
    Joined(s, run, m, e, t, k);
  }

  lemma {:induction false} Joined(s: State, run: seq<Step>, m: State, e: State, t: Tid, k: int)
    requires CanRun(s, run) && Stays(s, run, t) && StoredAlong(s, run, k) && After(s, run) == m && Reaches(m, e, t, k)
    ensures Reaches(s, e, t, k)
    decreases |run|
  {
    hide Enabled, Do, Stored, Reaches, GoesOn;
    if run != [] {
      Joined(Do(s, run[0]), run[1..], m, e, t, k);
      First(s, run[0], e, t, k);
    }
  }

  lemma BadLanding(s: State, t: Tid)
    requires Inv(s) && Enabled(s, Hop(t)) && s.size >= 2 && Stored(s, JobOf(s, t).key)
    requires !Lands(s, At(s, JobOf(s, t).node).sib, JobOf(s, t).key)
    ensures !Trusted(Do(s, Hop(t)), t, JobOf(s, t).key)
  {
    hide Inv, Stored, Reports, CanRun, After, StoredAlong, Stays;
    var s1, k, r := Do(s, Hop(t)), JobOf(s, t).key, At(s, JobOf(s, t).node).sib;
    Keep(s, Hop(t));
    StoredSame(s, s1, k);
    var y := s1.leaves[r];
    var e;
    if y.latch.Some? {
      LatchedFills(s1, r);
      assert Holds(s1, y.latch.value, r);
      var m := Finished(s1, y.latch.value, r, t, k);
      MisledIs(m, t);
      e := MisledReports(m, t, k);
      ReachesMore(s1, m, e, t, k);
    } else {
      MisledIs(s1, t);
      e := MisledReports(s1, t, k);
    }
    var run :| CanRun(s1, run) && Stays(s1, run, t) && StoredAlong(s1, run, k) && After(s1, run) == e;
  }

  lemma LatchedFills(s: State, r: Id)
    requires Inv(s) && r in s.leaves && s.leaves[r].latch.Some?
    ensures s.leaves[r].filler.None?
  {
    Owned(s, s.leaves[r].latch.value, r);
  }

  /**
   Exactly when a hop is right. From any state of any run in which a lookup of a stored key is about to load a sibling
   pointer, with nothing gone wrong before: in no way on, whatever it hops to later being a leaf it may be sent to, does
   it report the key absent although the key is stored all the time, if and only if the leaf it is sent to is, at the
   load, deleted or about to be, or begins below the key and is not one that a split still fills, the key beyond it and
   the sibling mark not yet set.
   */
  lemma HopTrustedIff(s: State, t: Tid)
    requires Inv(s) && Enabled(s, Hop(t)) && s.size >= 2
    requires JobOf(s, t).straight && !JobOf(s, t).gone && Stored(s, JobOf(s, t).key)
    ensures Trusted(Do(s, Hop(t)), t, JobOf(s, t).key) <==> Lands(s, At(s, JobOf(s, t).node).sib, JobOf(s, t).key)
  {
    hide Inv, Stored, Reports, CanRun, After, StoredAlong, Stays;
    var s1, k := Do(s, Hop(t)), JobOf(s, t).key;
    if Lands(s, At(s, JobOf(s, t).node).sib, k) {
      Keep(s, Hop(t));
      forall run | CanRun(s1, run) && Stays(s1, run, t) && StoredAlong(s1, run, k) ensures !Reports(After(s1, run), t) {
        NeverReports(s1, run, t, k);
      }
    } else {
      BadLanding(s, t);
    }
  }
}
