/**
 Runs of the read protocol: when a lookup that reports its key absent is right, and that it can be wrong.
 */
module ReadRuns {
  import opened Options
  import opened ReadProtocol
  import opened ReadInvariant
  import opened ReadSteps

  function Init(size: nat, merge: nat): State {
    State(size, merge, map[0 := Leaf({}, 0, false, 0, false, 0, None, None, false, false, None, None)], map[])
  }

  ghost predicate CanRun(s: State, run: seq<Step>)
    decreases |run|
  {
    run != [] ==> Enabled(s, run[0]) && CanRun(Do(s, run[0]), run[1..])
  }

  function After(s: State, run: seq<Step>): State
    decreases |run|
  {
    if run == [] then s else After(Do(s, run[0]), run[1..])
  }

  lemma InitInv(size: nat, merge: nat)
    ensures Inv(Init(size, merge))
  {
  }

  lemma Keep(s: State, st: Step)
    requires Inv(s) && Enabled(s, st)
    ensures Inv(Do(s, st))
  {
    hide Inv, Enabled, Do;
    match st
    case Arrive(t, k, l) => KeepStart(s, st);
    case Begin(t) => KeepBegin(s, t);
    case ReadDeleted(t) => KeepLook(s, t, st);
    case ReadHasSib(t) => KeepLook(s, t, st);
    case ReadHigh(t) => KeepLook(s, t, st);
    case Hop(t) => KeepHop(s, t);
    case Hit(t) => KeepLook(s, t, st);
    case Miss(t) => KeepMiss(s, t);
    case EndRead(t) => KeepEndRead(s, t);
    case Want(t, op) => KeepStart(s, st);
    case Latch(t, l) => KeepLatch(s, t, l);
    case Move(t) => KeepMove(s, t);
    case NoChange(t) => KeepMark(s, t, st);
    case Bump(t) => KeepMark(s, t, st);
    case Add(t) => KeepAddDrop(s, t, st);
    case Drop(t) => KeepAddDrop(s, t, st);
    case SplitMove(t, right, mid) => KeepSplitMove(s, t, right, mid);
    case SplitPhase(t) => KeepSplitPhase(s, t);
    case AddSplit(t) => KeepAddSplit(s, t);
    case MergeLatch(t) => KeepMergeLatch(s, t);
    case MergePhase(t) => KeepMergePhase(s, t);
    case SortLatch(t, l) => KeepSortLatch(s, t, l);
    case SortEnd(t) => KeepMark(s, t, st);
    case Unlatch(t) => KeepMark(s, t, st);
  }

  lemma KeepStart(s: State, st: Step)
    requires Inv(s) && Enabled(s, st) && (st.Arrive? || st.Want?)
    ensures Inv(Do(s, st))
  {
    hide Inv;
    KeepFree(s, st.t, Do(s, st).jobs[st.t]);
  }

  lemma KeepSplitPhase(s: State, t: Tid)
    requires Inv(s) && Enabled(s, SplitPhase(t))
    ensures Inv(Do(s, SplitPhase(t)))
  {
    hide Inv, Do;
    if JobOf(s, t).phase < 2 {
      KeepSplitMarks(s, t);
    } else {
      KeepSplitEnd(s, t);
    }
  }

  lemma KeepMergePhase(s: State, t: Tid)
    requires Inv(s) && Enabled(s, MergePhase(t))
    ensures Inv(Do(s, MergePhase(t)))
  {
    hide Inv, Do;
    var phase := JobOf(s, t).phase;
    if phase == 0 {
      KeepMergeMove(s, t);
    } else if phase <= 4 {
      KeepMergeMarks(s, t);
    } else if phase == 5 {
      KeepMergeBury(s, t);
    } else {
      KeepMergeLate(s, t);
    }
  }

  lemma {:induction false} RunInv(s: State, run: seq<Step>)
    requires Inv(s) && CanRun(s, run)
    ensures Inv(After(s, run))
    decreases |run|
  {
    hide Inv, Enabled, Do;
    if run != [] {
      Keep(s, run[0]);
      RunInv(Do(s, run[0]), run[1..]);
    }
  }

  /** The lookup is about to report its key absent. */
  predicate Reports(s: State, t: Tid) {
    Enabled(s, EndRead(t)) && At(s, JobOf(s, t).node).version == JobOf(s, t).seen
  }

  lemma AbsentNow(s: State, t: Tid)
    requires Inv(s) && Reports(s, t) && JobOf(s, t).straight
    ensures JobOf(s, t).gone || !Stored(s, JobOf(s, t).key)
  {
    hide LinksOk, RangesOk, Stored;
    var j := JobOf(s, t);
    assert ReaderOk(s, j);
    var x := s.leaves[j.node];
    assert Booked(x);
    if !j.gone {
      NotStored(s, j.node, j.key);
    }
  }

  // ---------- at some moment of the call ----------

  lemma {:induction false} AfterMore(s: State, run: seq<Step>, st: Step)
    ensures After(s, run + [st]) == Do(After(s, run), st)
    ensures CanRun(s, run + [st]) <==> CanRun(s, run) && Enabled(After(s, run), st)
    decreases |run|
  {
    hide Enabled, Do;
    if run == [] {
      assert run + [st] == [st] && [st][1..] == [];
    } else {
      assert (run + [st])[1..] == run[1..] + [st] && (run + [st])[0] == run[0];
      AfterMore(Do(s, run[0]), run[1..], st);
    }
  }

  /** From step i of the run to its end the thread is in one lookup of the key. */
  ghost predicate InCall(s: State, run: seq<Step>, t: Tid, key: int, i: nat) {
    forall k :: i <= k <= |run| ==> JobOf(After(s, run[..k]), t).Looking? && JobOf(After(s, run[..k]), t).key == key
  }

  /** The key was not stored at some moment of the lookup. */
  ghost predicate OnceAbsent(s: State, run: seq<Step>, t: Tid, key: int) {
    exists i :: 0 <= i <= |run| && InCall(s, run, t, key, i) && !Stored(After(s, run[..i]), key)
  }

  lemma CallGoesOn(s: State, run: seq<Step>, st: Step, t: Tid, key: int, i: nat)
    requires i <= |run| && InCall(s, run, t, key, i) && JobOf(Do(After(s, run), st), t).Looking? && JobOf(Do(After(s, run), st), t).key == key
    ensures InCall(s, run + [st], t, key, i)
  {
    hide Do, After, CanRun;
    var more := run + [st];
    AfterMore(s, run, st);
    forall k | i <= k <= |more| ensures JobOf(After(s, more[..k]), t).Looking? && JobOf(After(s, more[..k]), t).key == key {
      if k <= |run| {
        assert more[..k] == run[..k];
      } else {
        assert more[..k] == more;
      }
    }
  }

  /** How a thread comes to be in a lookup, and to know that the key was missing once. */
  lemma StepLooks(s: State, st: Step, t: Tid)
    requires Enabled(s, st) && JobOf(Do(s, st), t).Looking?
    ensures var j, j' := JobOf(s, t), JobOf(Do(s, st), t);
      || !j'.gone
      || (j.Looking? && j'.key == j.key && (j.gone || !Stored(s, j.key)))
  {
    hide Stored, SplitsAt, Test, Lands;
  }

  lemma {:induction false} GoneMeans(s: State, run: seq<Step>, t: Tid)
    requires CanRun(s, run) && JobOf(s, t).Idle? && JobOf(After(s, run), t).Looking? && JobOf(After(s, run), t).gone
    ensures OnceAbsent(s, run, t, JobOf(After(s, run), t).key)
    decreases |run|
  {
    hide Enabled, Do, Stored;
    if run != [] {
      var pre, st := run[..|run| - 1], run[|run| - 1];
      assert run == pre + [st];
      AfterMore(s, pre, st);
      var m := After(s, pre);
      StepLooks(m, st, t);
      var key := JobOf(m, t).key;
      if JobOf(m, t).gone {
        GoneMeans(s, pre, t);
        var i :| 0 <= i <= |pre| && InCall(s, pre, t, key, i) && !Stored(After(s, pre[..i]), key);
        CallGoesOn(s, pre, st, t, key, i);
        assert run[..i] == pre[..i];
      } else {
        assert pre[..|pre|] == pre && run[..|pre|] == pre;
        CallGoesOn(s, pre, st, t, key, |pre|);
      }
    }
  }

  /**
   In every run, a lookup or update that reports its key absent had its key absent at some moment of the call, if each leaf it was
   sent to was one it may be sent to when the pointer was loaded.
   */
  lemma AbsentIsRight(size: nat, merge: nat, run: seq<Step>, t: Tid)
    requires CanRun(Init(size, merge), run)
    requires var s := After(Init(size, merge), run); Reports(s, t) && JobOf(s, t).straight
    ensures OnceAbsent(Init(size, merge), run, t, JobOf(After(Init(size, merge), run), t).key)
  {
    hide Inv, CanRun, After, Stored;
    InitInv(size, merge);
    RunInv(Init(size, merge), run);
    var s := After(Init(size, merge), run);
    AbsentNow(s, t);
    if JobOf(s, t).gone {
      GoneMeans(Init(size, merge), run, t);
    } else {
      assert run[..|run|] == run;
      assert InCall(Init(size, merge), run, t, JobOf(s, t).key, |run|);
    }
  }

  // ---------- what the writers do to the stored keys ----------

  predicate Inserts(s: State, st: Step, k: int) {
    (st.Add? && JobOf(s, st.t).Changing? && JobOf(s, st.t).op.key == k) || (st.AddSplit? && JobOf(s, st.t).Adding? && JobOf(s, st.t).op.key == k)
  }

  predicate Removes(s: State, st: Step, k: int) {
    st.Drop? && JobOf(s, st.t).Changing? && JobOf(s, st.t).op.key == k
  }

  /** The steps that move keys. */
  predicate MovesKeys(s: State, st: Step) {
    st.Add? || st.AddSplit? || st.Drop? || st.SplitMove? || (st.MergePhase? && JobOf(s, st.t).Merging? && JobOf(s, st.t).phase == 0)
  }

  lemma SameKeys(s: State, s': State, k: int)
    requires s'.leaves.Keys == s.leaves.Keys && forall l :: l in s.leaves ==> s'.leaves[l].keys == s.leaves[l].keys
    ensures Stored(s', k) <==> Stored(s, k)
  {
    if Stored(s, k) {
      var l :| l in s.leaves && k in s.leaves[l].keys;
      assert k in s'.leaves[l].keys;
    }
    if Stored(s', k) {
      var l :| l in s'.leaves && k in s'.leaves[l].keys;
      assert k in s.leaves[l].keys;
    }
  }

  ghost predicate KeysStay(s: State, s': State) {
    s'.leaves.Keys == s.leaves.Keys && forall l :: l in s.leaves ==> s'.leaves[l].keys == s.leaves[l].keys
  }

  lemma SplitPhaseKeys(s: State, t: Tid)
    requires Inv(s) && Enabled(s, SplitPhase(t))
    ensures KeysStay(s, Do(s, SplitPhase(t)))
  {
    hide RangesOk, LinksOk, JobsOk, OwnersOk;
    MyLeaf(s, t, JobOf(s, t).leaf);
    MyFill(s, t, JobOf(s, t).right);
  }

  lemma MergePhaseKeys(s: State, t: Tid)
    requires Inv(s) && Enabled(s, MergePhase(t)) && JobOf(s, t).phase != 0
    ensures KeysStay(s, Do(s, MergePhase(t)))
  {
    hide RangesOk, LinksOk, JobsOk, OwnersOk;
    MyLeaf(s, t, JobOf(s, t).leaf);
    MyLeaf(s, t, JobOf(s, t).right);
  }

  lemma MarkKeys(s: State, st: Step)
    requires Inv(s) && Enabled(s, st) && (st.Move? || st.NoChange? || st.Bump? || st.MergeLatch? || st.SortEnd? || st.Unlatch?)
    ensures KeysStay(s, Do(s, st))
  {
    hide RangesOk, LinksOk, JobsOk, OwnersOk, Test;
    MyLeaf(s, st.t, JobOf(s, st.t).leaf);
  }

  lemma QuietKeys(s: State, st: Step)
    requires Inv(s) && Enabled(s, st) && !MovesKeys(s, st)
    ensures KeysStay(s, Do(s, st))
  {
    hide Inv, Test, SplitsAt, Over;
    if st.SplitPhase? {
      SplitPhaseKeys(s, st.t);
    } else if st.MergePhase? {
      MergePhaseKeys(s, st.t);
    } else if st.Move? || st.NoChange? || st.Bump? || st.MergeLatch? || st.SortEnd? || st.Unlatch? {
      MarkKeys(s, st);
    }
  }

  lemma LeafKeys(s: State, st: Step, k: int)
    requires Inv(s) && Enabled(s, st) && (st.Add? || st.AddSplit? || st.Drop?)
    ensures Stored(Do(s, st), k) <==> Inserts(s, st, k) || (Stored(s, k) && !Removes(s, st, k))
  {
    hide LinksOk, OwnersOk, JobsOk, SplitsAt, Stored;
    var s', j := Do(s, st), JobOf(s, st.t);
    MyReader(s, st.t);
    MyLeaf(s, st.t, j.leaf);
    var l := if st.AddSplit? then j.target else j.leaf;
    if l != j.leaf {
      MyFill(s, st.t, l);
    }
    OneLeafStored(s, s', l, k);
    if st.Drop? && j.op.key == k {
      forall m | m in s.leaves && m != l ensures k !in s.leaves[m].keys {
        assert Apart(s.leaves[l], s.leaves[m]) && KeysIn(s.leaves[m]);
      }
    }
  }

  /** Whether a key is stored, when one leaf's keys change. */
  lemma OneLeafStored(s: State, s': State, l: Id, k: int)
    requires l in s.leaves && s'.leaves.Keys == s.leaves.Keys
    requires forall m :: m in s.leaves && m != l ==> s'.leaves[m].keys == s.leaves[m].keys
    ensures Stored(s, k) <==> k in s.leaves[l].keys || exists m :: m in s.leaves && m != l && k in s.leaves[m].keys
    ensures Stored(s', k) <==> k in s'.leaves[l].keys || exists m :: m in s.leaves && m != l && k in s.leaves[m].keys
  {
    if Stored(s, k) {
      var m :| m in s.leaves && k in s.leaves[m].keys;
    }
    if Stored(s', k) {
      var m :| m in s'.leaves && k in s'.leaves[m].keys;
    }
    if exists m :: m in s.leaves && m != l && k in s.leaves[m].keys {
      var m :| m in s.leaves && m != l && k in s.leaves[m].keys;
      assert k in s'.leaves[m].keys;
    }
  }

  lemma MovedKeys(s: State, st: Step, k: int)
    requires Inv(s) && Enabled(s, st) && MovesKeys(s, st) && (st.SplitMove? || st.MergePhase?)
    ensures Stored(Do(s, st), k) <==> Stored(s, k)
  {
    hide LinksOk, OwnersOk, JobsOk, SplitsAt, RangesOk;
    var s', j := Do(s, st), JobOf(s, st.t);
    MyReader(s, st.t);
    MyLeaf(s, st.t, j.leaf);
    var r := if st.SplitMove? then st.right else j.right;
    if st.MergePhase? {
      MyLeaf(s, st.t, r);
    }
    assert forall m :: m in s.leaves && m != j.leaf && m != r ==> m in s'.leaves && s'.leaves[m].keys == s.leaves[m].keys;
    if Stored(s, k) {
      var l :| l in s.leaves && k in s.leaves[l].keys;
      assert l != j.leaf && l != r ==> k in s'.leaves[l].keys;
      assert l == j.leaf || l == r ==> k in s'.leaves[j.leaf].keys || k in s'.leaves[r].keys;
    }
    if Stored(s', k) {
      var l :| l in s'.leaves && k in s'.leaves[l].keys;
      assert l != j.leaf && l != r ==> k in s.leaves[l].keys;
    }
  }

  /** Every step but an insertion's and a removal's own leaves the stored keys alone, wherever they move. */
  lemma StoredChanges(s: State, st: Step, k: int)
    requires Inv(s) && Enabled(s, st)
    ensures Stored(Do(s, st), k) <==> Inserts(s, st, k) || (Stored(s, k) && !Removes(s, st, k))
  {
    hide Inv, Enabled, Do, Stored;
    if !MovesKeys(s, st) {
      QuietKeys(s, st);
      SameKeys(s, Do(s, st), k);
    } else if st.SplitMove? || st.MergePhase? {
      MovedKeys(s, st, k);
    } else {
      LeafKeys(s, st, k);
    }
  }
}
