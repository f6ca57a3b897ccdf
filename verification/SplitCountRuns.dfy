/**
 Runs of the split-count protocol: exactly when skipping the comparison with the high key is right.
 */
module SplitCountRuns {
  import opened Options
  import opened SplitCount
  import opened SplitCountInvariant
  import opened SplitCountSteps
  import opened SplitCountVisits
  import opened SplitCountNodes
  import opened SplitCountSplits
  import opened SplitCountMerges
  import opened SplitCountClimbs
  import opened SplitCountInserts
  import opened SplitCountRemoves

  /** One leaf under one inner node. */
  function Init(): State {
    State(map[0 := Leaf(None, None, 0, false, {}, 0, None, None, false, 0)], map[0 := Slot(0, None, None)],
          map[0 := Parent(0, None, false)], map[])
  }

  ghost predicate CanRun(s: State, run: seq<Step>)
    decreases |run|
  {
    run != [] ==> Enabled(s, run[0]) && CanRun(Do(s, run[0]), run[1..])
  }

  function After(s: State, run: seq<Step>): State
    requires CanRun(s, run)
    decreases |run|
  {
    if run == [] then s else After(Do(s, run[0]), run[1..])
  }

  lemma InitInv()
    ensures Inv(Init())
  {
  }

  lemma Keep(s: State, st: Step)
    requires Inv(s) && Enabled(s, st)
    ensures Inv(Do(s, st))
  {
    hide Inv, Enabled, Do;
    match st
    case Descend(t, key, o, free) => KeepDescend(s, t, key, o, free);
    case Latch(t) => KeepLatch(s, t);
    case Begin(t) => KeepRead(s, st);
    case LetGo(t) => KeepLetGo(s, t);
    case ReadDeleted(t) => KeepRead(s, st);
    case ReadCount(t) => KeepRead(s, st);
    case ReadVersion(t) => KeepRead(s, st);
    case CompareHigh(t, beyond) => KeepRead(s, st);
    case Hop(t) => KeepHop(s, t);
    case Leave(t) => KeepLeave(s, t);
    case EndRead(t) => KeepEndRead(s, t);
    case Split(t, right, mid) => KeepSplit(s, t, right, mid);
    case LatchRight(t) => KeepLatchRight(s, t);
    case Merge(t) => KeepMerge(s, t);
    case LatchNode(t, o) => KeepLatchNode(s, t, o);
    case LeaveLeaf(t) => KeepLeaveLeaf(s, t);
    case Bump(t) => KeepBump(s, t);
    case Insert(t) => KeepInsert(s, t);
    case EndSplit(t) => KeepEndSplit(s, t);
    case LatchOther(t, p) => KeepLatchOther(s, t, p);
    case Remove(t, o) => KeepRemove(s, t, o);
    case Take(t, p) => KeepTake(s, st);
    case Regroup(t, o, p) => KeepRegroup(s, t, o, p);
    case BumpTaken(t, p) => KeepBumpTaken(s, t, p);
    case NewNode(t, p) => KeepTake(s, st);
    case LeaveNodes(t) => KeepLeaveNodes(s, t);
  }

  lemma {:induction false} Reached(s: State, run: seq<Step>)
    requires Inv(s) && CanRun(s, run)
    ensures Inv(After(s, run))
    decreases |run|
  {
    hide Inv, Enabled, Do;
    if run != [] {
      Keep(s, run[0]);
      Reached(Do(s, run[0]), run[1..]);
    }
  }

  // ---------- when the skipped comparison is right ----------

  /** A split of a leaf other than x, with the high key of x for its bound and the key beyond, is yet to be inserted. */
  ghost predicate Misled(s: State, x: Id, key: int) {
    exists f :: ForeignBy(s, x, f) && JobOf(s, f).mid < key
  }

  /** Neither by way of a deleted leaf nor by a latch-free step from a leaf that had changed. */
  predicate Straight(mode: Mode) {
    mode.First? || mode.Rightward? || mode.Onward?
  }

  lemma SkipNow(s: State, t: Tid)
    requires Inv(s) && Skips(s, t)
    ensures var j := JobOf(s, t); Beyond(At(s, j.leaf), j.key) <==> Misled(s, j.leaf, j.key)
    ensures Straight(JobOf(s, t).mode) ==> !Beyond(At(s, JobOf(s, t).leaf), JobOf(s, t).key)
  {
    hide Inv;
    var j := JobOf(s, t);
    if Beyond(At(s, j.leaf), j.key) {
      WrongIsForeign(s, t);
      var f :| ForeignBy(s, j.leaf, f);
      if j.mode.First? {
        FirstNotForeign(s, t, f);
      }
    }
    if j.mode.Rightward? {
      JobIs(s, t);
    }
    if j.mode.Onward? {
      OnwardIsRight(s, t);
    }
  }

  /**
   In every run, a thread that has found the split count of its leaf zero and then the parent's version unchanged,
   with the leaf latched or unchanged since it began to read, is at a leaf whose high key is at least its key, if it
   came to the leaf from the parent, by steps to the right under latches, or by latch-free steps each from a live leaf
   that was still unchanged, since the reader had begun there, when the sibling pointer was loaded.
   */
  lemma SkipIsRight(run: seq<Step>, t: Tid)
    requires CanRun(Init(), run) && Skips(After(Init(), run), t)
    requires Straight(JobOf(After(Init(), run), t).mode)
    ensures var s := After(Init(), run); UpTo(At(s, JobOf(s, t).leaf).up, JobOf(s, t).key)
  {
    hide Inv, Skips;
    InitInv();
    Reached(Init(), run);
    SkipNow(After(Init(), run), t);
  }

  /**
   However it came there, the high key is below its key if and only if the high key is the bound of a split that is
   counted at another leaf and that the parents do not have yet.
   */
  lemma SkipIsRightIff(run: seq<Step>, t: Tid)
    requires CanRun(Init(), run) && Skips(After(Init(), run), t)
    ensures var s := After(Init(), run); var j := JobOf(s, t); UpTo(At(s, j.leaf).up, j.key) <==> !Misled(s, j.leaf, j.key)
  {
    hide Inv, Skips, Misled;
    InitInv();
    Reached(Init(), run);
    SkipNow(After(Init(), run), t);
  }

  // ---------- readers without latches ----------

  /** A leaf keeps its bounds as long as it keeps its version. */
  predicate LeafStays(a: Leaf, b: Leaf) {
    a.version <= b.version && (a.version == b.version ==> a.up == b.up && a.low == b.low && a.deleted == b.deleted)
  }

  predicate TouchesLeaf(st: Step) {
    st.Latch? || st.LetGo? || st.Leave? || st.LatchRight? || st.LeaveLeaf? || st.EndSplit? || st.LatchNode? || st.Insert?
  }

  lemma QuietLeaf(s: State, st: Step)
    requires Enabled(s, st) && !TouchesLeaf(st) && !st.Merge? && !st.Split?
    ensures Do(s, st).leaves == s.leaves
  {
  }

  lemma TouchedLeaf(s: State, st: Step, x: Id)
    requires Enabled(s, st) && TouchesLeaf(st) && x in s.leaves
    ensures x in Do(s, st).leaves && LeafStays(s.leaves[x], Do(s, st).leaves[x])
  {
  }

  lemma StepLeaf(s: State, st: Step, x: Id)
    requires Inv(s) && Enabled(s, st) && x in s.leaves
    ensures x in Do(s, st).leaves && LeafStays(s.leaves[x], Do(s, st).leaves[x])
  {
    hide Inv, Do, Enabled;
    if st.Merge? {
      MergesIs(s, Do(s, st), st.t);
      var j := JobOf(s, st.t);
      MergeDoes(s, Do(s, st), st.t, j.leaf, j.right, At(s, j.leaf).up.value);
    } else if st.Split? {
      SplitsIs(s, Do(s, st), st.t, st.right, st.mid);
    } else if TouchesLeaf(st) {
      TouchedLeaf(s, st, x);
    } else {
      QuietLeaf(s, st);
    }
  }

  lemma {:induction false} RunLeaf(s: State, run: seq<Step>, x: Id)
    requires Inv(s) && CanRun(s, run) && x in s.leaves
    ensures x in After(s, run).leaves && LeafStays(s.leaves[x], After(s, run).leaves[x])
    decreases |run|
  {
    hide Inv, Enabled, Do;
    if run != [] {
      Keep(s, run[0]);
      StepLeaf(s, run[0], x);
      RunLeaf(Do(s, run[0]), run[1..], x);
    }
  }

  /**
   A latch-free reader that skips the comparison and whose end_read succeeds later is at a leaf whose high key, then, is
   at least its key, if and only if it was not misled when it skipped; straight from the parent, or by steps each from a
   live leaf still unchanged, it never is.
   */
  lemma ValidatedSkip(run: seq<Step>, t: Tid, more: seq<Step>)
    requires CanRun(Init(), run) && CanRun(After(Init(), run), more)
    requires var s := After(Init(), run); Visits(s, t, Zero) && JobOf(s, t).free && Hits(s, JobOf(s, t))
    requires var j := JobOf(After(Init(), run), t); At(After(After(Init(), run), more), j.leaf).version == j.ver
    ensures var s := After(Init(), run); var j := JobOf(s, t);
      UpTo(At(After(s, more), j.leaf).up, j.key) <==> !Misled(s, j.leaf, j.key)
    ensures var s := After(Init(), run); var j := JobOf(s, t); Straight(j.mode) ==> UpTo(At(After(s, more), j.leaf).up, j.key)
  {
    hide Inv, Misled, Enabled, Do;
    InitInv();
    Reached(Init(), run);
    var s := After(Init(), run);
    var j := JobOf(s, t);
    RunLeaf(s, more, j.leaf);
    JobIs(s, t);
    SkipNow(s, t);
  }
}
