/**
 Runs of link_split and unlink: when the chain that readers follow is the list of the operations finished so far.
 */
module LeafLinkRuns {
  import opened Options
  import opened LeafLink
  import opened LeafLinkInvariant
  import opened LeafLinkSteps

  // ---------- runs ----------

  lemma Keep(s: State, st: Step)
    requires Inv(s) && Enabled(s, st)
    ensures Inv(Do(s, st))
  {
    hide *;
    match st
    case SplitLock(t, n, nr) => KeepSplitLock(s, t, n, nr);
    case SplitBack(t) => KeepSplitBack(s, t);
    case SplitLink(t) => KeepSplitLink(s, t);
    case UnLock(t, n) => KeepUnLock(s, t, n);
    case UnRead(t) => KeepUnRead(s, t);
    case UnSwap(t) => KeepUnSwap(s, t);
    case UnBack(t) => KeepUnBack(s, t);
    case UnLink(t) => KeepUnLink(s, t);
  }

  /** A list of one node. */
  function Init(): State {
    State(map[0 := Node(None, false, 0)], map[], [0], map[])
  }

  ghost predicate CanRun(s: State, run: seq<Step>)
    decreases |run|
  {
    run != [] ==> Enabled(s, run[0]) && CanRun(Do(s, run[0]), run[1..])
  }

  function After(s: State, run: seq<Step>): State
    decreases |run|
  {
    if run == [] then s else After(Do(s, run[0]), run[1..])
  }

  lemma InitInv()
    ensures Inv(Init())
  {
    assert Linked(Init(), 0);
  }

  lemma {:induction false} RunInv(s: State, run: seq<Step>)
    requires Inv(s) && CanRun(s, run)
    ensures Inv(After(s, run))
    decreases |run|
  {
    hide Inv, Enabled, Do;
    if run != [] {
      Keep(s, run[0]);
      RunInv(Do(s, run[0]), run[1..]);
    }
  }

  /** The list given by the final stores alone: new nodes count once their split has linked them. */
  function Finished(l: seq<Id>, hidden: map<Id, seq<Id>>): seq<Id> {
    if l == [] then [] else (if l[0] in hidden then [] else [l[0]]) + Finished(l[1..], hidden)
  }

  /** How many nodes readers see that have been taken out. */
  function Ghosts(l: seq<Id>, hidden: map<Id, seq<Id>>): nat {
    if l == [] then 0 else (if l[0] in hidden then |hidden[l[0]]| else 0) + Ghosts(l[1..], hidden)
  }

  lemma {:induction false} ShownLength(l: seq<Id>, hidden: map<Id, seq<Id>>)
    ensures |Shown(l, hidden)| == |Finished(l, hidden)| + Ghosts(l, hidden)
    ensures Ghosts(l, hidden) == 0 ==> Shown(l, hidden) == Finished(l, hidden)
  {
    if l != [] {
      ShownLength(l[1..], hidden);
    }
  }

  lemma {:induction false} NoGhosts(l: seq<Id>, hidden: map<Id, seq<Id>>)
    ensures Ghosts(l, hidden) == 0 <==> forall x :: x in l && x in hidden ==> hidden[x] == []
  {
    if l != [] {
      NoGhosts(l[1..], hidden);
      assert l == [l[0]] + l[1..];
      if Ghosts(l, hidden) == 0 {
        forall x | x in l && x in hidden ensures hidden[x] == [] {
          assert x == l[0] || x in l[1..];
        }
      }
      if forall x :: x in l && x in hidden ==> hidden[x] == [] {
        assert l[0] in l;
        forall x | x in l[1..] && x in hidden ensures hidden[x] == [] {
          assert x in l;
        }
      }
    }
  }

  /**
   In every run the forward chain, marks stripped, is the list of the final stores exactly as long as no
   unlink has made its final store into a new node whose own split has not been linked.
   */
  lemma ChainIsFinishedIff(run: seq<Step>, c: seq<Id>)
    requires CanRun(Init(), run)
    requires var s := After(Init(), run); c != [] && s.list != [] && c[0] == s.list[0] && Follows(s, c)
    ensures var s := After(Init(), run);
            c == Finished(s.list, s.hidden) <==> forall x :: x in s.hidden ==> s.hidden[x] == []
  {
    hide CanRun, After, JobsOk, SecretsOk, BackOk;
    var s := After(Init(), run);
    InitInv();
    RunInv(Init(), run);
    ChainIsShown(s);
    FollowsUnique(s, c, Shown(s.list, s.hidden));
    ShownLength(s.list, s.hidden);
    NoGhosts(s.list, s.hidden);
  }

  /** Adjacent nodes of the list: the prev pointer is right, or a marked next pointer belongs to whoever will set it. */
  lemma PrevOrMarked(run: seq<Step>, a: Id, b: Id)
    requires CanRun(Init(), run) && Succ(After(Init(), run).list, a) == Some(b)
    ensures var s := After(Init(), run);
            && b in s.nodes
            && (|| s.nodes[b].prev == a
                || (exists t :: JobOf(s, t).Cutting? && JobOf(s, t).n == a && JobOf(s, t).nx == Some(b) && Marked(s, a))
                || (exists t :: JobOf(s, t).Splitting? && JobOf(s, t).nr == a && JobOf(s, t).nx == Some(b) && Marked(s, JobOf(s, t).n)))
  {
    hide CanRun, After, SecretsOk, JobsOk;
    var s := After(Init(), run);
    InitInv();
    RunInv(Init(), run);
    SuccIn(s.list, a);
    if s.nodes[b].prev != a {
      var t :| Repairs(JobOf(s, t), a);
      RepairMarked(s, t, a, b);
    }
  }

  lemma RepairMarked(s: State, t: Tid, a: Id, b: Id)
    requires Inv(s) && Repairs(JobOf(s, t), a) && Succ(s.list, a) == Some(b)
    ensures var j := JobOf(s, t);
            && (j.Cutting? ==> j.n == a && j.nx == Some(b) && Marked(s, a))
            && (j.Splitting? ==> j.nr == a && j.nx == Some(b) && Marked(s, j.n))
  {
    hide JobsOk, SecretsOk, BackOk;
    var j := JobOf(s, t);
    JobIn(s, t);
    assert a in Holds(j) && j.n in Owns(j);
    HeldAlone(s, t, a);
    SuccIn(s.list, a);
    NextIsSucc(s, a);
    assert Linked(s, j.n);
  }

  // ---------- a node taken out that readers still find ----------

  ghost predicate Leads(s: State, run: seq<Step>, e: State) {
    CanRun(s, run) && After(s, run) == e
  }

  lemma Then(s: State, st: Step, s1: State, run: seq<Step>, e: State)
    requires Enabled(s, st) && Do(s, st) == s1 && Leads(s1, run, e)
    ensures Leads(s, [st] + run, e)
  {
    hide Enabled, Do;
    assert ([st] + run)[1..] == run;
  }

  /** Three nodes in a row, 0 1 2, made by two splits. */
  function Three(): State {
    State(map[0 := Node(Some(1), false, 0), 1 := Node(Some(2), false, 0), 2 := Node(None, false, 1)], map[7 := Idle], [0, 1, 2], map[])
  }

  lemma ThreeMade() returns (run: seq<Step>)
    ensures Leads(Init(), run, Three())
  {
    hide CanRun, After;
    var s1 := State(map[0 := Node(None, false, 0), 1 := Node(None, false, 0)], map[7 := Splitting(0, 1, None, false)], [0, 1], map[1 := []]);
    var s2 := s1.(jobs := map[7 := Splitting(0, 1, None, true)]);
    var s3 := State(map[0 := Node(Some(1), false, 0), 1 := Node(None, false, 0)], map[7 := Idle], [0, 1], map[]);
    var s4 := State(map[0 := Node(Some(1), false, 0), 1 := Node(None, false, 0), 2 := Node(None, false, 1)], map[7 := Splitting(1, 2, None, false)],
                    [0, 1, 2], map[2 := []]);
    var s5 := s4.(jobs := map[7 := Splitting(1, 2, None, true)]);
    assert Do(Init(), SplitLock(7, 0, 1)) == s1;
    assert Do(s1, SplitBack(7)) == s2;
    assert Do(s2, SplitLink(7)) == s3;
    assert InsertAfter([0, 1], 1, 2) == [0, 1, 2] by {
      assert [0, 1][1..] == [1];
    }
    assert Do(s3, SplitLock(7, 1, 2)) == s4;
    assert Do(s4, SplitBack(7)) == s5;
    assert Do(s5, SplitLink(7)) == Three();
    LeadsNowhere(Three());
    Then(s5, SplitLink(7), Three(), [], Three());
    run := [SplitLink(7)] + [];
    Then(s4, SplitBack(7), s5, run, Three());
    run := [SplitBack(7)] + run;
    Then(s3, SplitLock(7, 1, 2), s4, run, Three());
    run := [SplitLock(7, 1, 2)] + run;
    Then(s2, SplitLink(7), s3, run, Three());
    run := [SplitLink(7)] + run;
    Then(s1, SplitBack(7), s2, run, Three());
    run := [SplitBack(7)] + run;
    Then(Init(), SplitLock(7, 0, 1), s1, run, Three());
    run := [SplitLock(7, 0, 1)] + run;
  }

  lemma LeadsNowhere(s: State)
    ensures Leads(s, [], s)
  {
  }

  /** Thread 8 has started to put node 3 after node 0, and thread 7 is taking node 1 out. */
  function Torn(m: bool, j: Job, back: Id, q: Node): State {
    State(map[0 := Node(Some(1), true, 0), 1 := Node(Some(2), m, 3), 2 := Node(None, false, back), 3 := q],
          map[7 := j, 8 := Splitting(0, 3, Some(1), true)], [0, 3, 1, 2], map[3 := []])
  }

  /** The end: node 1 has been taken out of node 3, which node 0 does not lead to yet. */
  function Ghostly(): State {
    State(map[0 := Node(Some(1), true, 0), 1 := Node(Some(2), true, 3), 2 := Node(None, false, 3), 3 := Node(Some(2), false, 0)],
          map[7 := Idle, 8 := Splitting(0, 3, Some(1), true)], [0, 3, 2], map[3 := [1]])
  }

  lemma TornStart() returns (run: seq<Step>)
    ensures Leads(Three(), run, Torn(false, Idle, 1, Node(Some(1), false, 0)))
  {
    hide CanRun, After;
    var s1 := State(map[0 := Node(Some(1), true, 0), 1 := Node(Some(2), false, 0), 2 := Node(None, false, 1), 3 := Node(Some(1), false, 0)],
                    map[7 := Idle, 8 := Splitting(0, 3, Some(1), false)], [0, 3, 1, 2], map[3 := []]);
    var e := Torn(false, Idle, 1, Node(Some(1), false, 0));
    assert InsertAfter([0, 1, 2], 0, 3) == [0, 3, 1, 2];
    assert Do(Three(), SplitLock(8, 0, 3)) == s1;
    assert Do(s1, SplitBack(8)) == e;
    LeadsNowhere(e);
    Then(s1, SplitBack(8), e, [], e);
    run := [SplitBack(8)] + [];
    Then(Three(), SplitLock(8, 0, 3), s1, run, e);
    run := [SplitLock(8, 0, 3)] + run;
  }

  lemma TornEnd() returns (run: seq<Step>)
    ensures Leads(Torn(false, Idle, 1, Node(Some(1), false, 0)), run, Ghostly())
  {
    hide CanRun, After, Enabled, Do;
    var s0 := Torn(false, Idle, 1, Node(Some(1), false, 0));
    var s1 := Torn(true, Unlinking(1, Some(2)), 1, Node(Some(1), false, 0));
    var s2 := Torn(true, Aiming(1, Some(2), 3), 1, Node(Some(1), false, 0));
    var s3 := Torn(true, Cutting(1, Some(2), 3, false), 1, Node(Some(1), true, 0));
    var s4 := Torn(true, Cutting(1, Some(2), 3, true), 3, Node(Some(1), true, 0));
    TornLock(s0, s1);
    TornRead(s1, s2);
    TornSwap(s2, s3);
    TornBack(s3, s4);
    TornCut(s4);
    LeadsNowhere(Ghostly());
    Then(s4, UnLink(7), Ghostly(), [], Ghostly());
    run := [UnLink(7)] + [];
    Then(s3, UnBack(7), s4, run, Ghostly());
    run := [UnBack(7)] + run;
    Then(s2, UnSwap(7), s3, run, Ghostly());
    run := [UnSwap(7)] + run;
    Then(s1, UnRead(7), s2, run, Ghostly());
    run := [UnRead(7)] + run;
    Then(s0, UnLock(7, 1), s1, run, Ghostly());
    run := [UnLock(7, 1)] + run;
  }

  lemma TornLock(s: State, s': State)
    requires s == Torn(false, Idle, 1, Node(Some(1), false, 0)) && s' == Torn(true, Unlinking(1, Some(2)), 1, Node(Some(1), false, 0))
    ensures Enabled(s, UnLock(7, 1)) && Do(s, UnLock(7, 1)) == s'
  {
    TornFree(s);
  }

  lemma TornRead(s: State, s': State)
    requires s == Torn(true, Unlinking(1, Some(2)), 1, Node(Some(1), false, 0))
    requires s' == Torn(true, Aiming(1, Some(2), 3), 1, Node(Some(1), false, 0))
    ensures Enabled(s, UnRead(7)) && Do(s, UnRead(7)) == s'
  {
  }

  lemma TornSwap(s: State, s': State)
    requires s == Torn(true, Aiming(1, Some(2), 3), 1, Node(Some(1), false, 0))
    requires s' == Torn(true, Cutting(1, Some(2), 3, false), 1, Node(Some(1), true, 0))
    ensures Enabled(s, UnSwap(7)) && Do(s, UnSwap(7)) == s'
  {
  }

  lemma TornBack(s: State, s': State)
    requires s == Torn(true, Cutting(1, Some(2), 3, false), 1, Node(Some(1), true, 0))
    requires s' == Torn(true, Cutting(1, Some(2), 3, true), 3, Node(Some(1), true, 0))
    ensures Enabled(s, UnBack(7)) && Do(s, UnBack(7)) == s'
  {
  }

  lemma TornCut(s: State)
    requires s == Torn(true, Cutting(1, Some(2), 3, true), 3, Node(Some(1), true, 0))
    ensures Enabled(s, UnLink(7)) && Do(s, UnLink(7)) == Ghostly()
  {
    hide Without;
    TornWithout();
    var e := Do(s, UnLink(7));
    assert [] + [1] == [1];
    assert e.hidden == map[3 := [1]];
    assert e.jobs == Ghostly().jobs;
    assert e.nodes == Ghostly().nodes;
  }

  lemma TornWithout()
    ensures Without([0, 3, 1, 2], 1) == [0, 3, 2]
  {
    assert [0, 3, 1, 2][1..] == [3, 1, 2] && [3, 1, 2][1..] == [1, 2] && [1, 2][1..] == [2];
  }

  lemma TornFree(s: State)
    requires s == Torn(false, Idle, 1, Node(Some(1), false, 0))
    ensures Free(s, 1)
  {
    forall t ensures 1 !in Holds(JobOf(s, t)) {
      assert t == 7 || t == 8 || JobOf(s, t) == Idle;
    }
  }

  lemma {:induction false} LeadsOn(s: State, run: seq<Step>, m: State, more: seq<Step>, e: State)
    requires Leads(s, run, m) && Leads(m, more, e)
    ensures Leads(s, run + more, e)
    decreases |run|
  {
    hide Enabled, Do;
    if run == [] {
      assert run + more == more;
    } else {
      LeadsOn(Do(s, run[0]), run[1..], m, more, e);
      assert (run + more)[1..] == run[1..] + more;
    }
  }

  /** A run in which the unlink of node 1 has finished and readers that start at node 0 still come to node 1. */
  lemma UnlinkedStillFound() returns (run: seq<Step>)
    ensures Leads(Init(), run, Ghostly()) && Follows(Ghostly(), [0, 1, 2]) && Finished(Ghostly().list, Ghostly().hidden) == [0, 2]
  {
    hide CanRun, After, Enabled, Do, Leads;
    var a := ThreeMade();
    var b := TornStart();
    LeadsOn(Init(), a, Three(), b, Torn(false, Idle, 1, Node(Some(1), false, 0)));
    var c := TornEnd();
    LeadsOn(Init(), a + b, Torn(false, Idle, 1, Node(Some(1), false, 0)), c, Ghostly());
    run := a + b + c;
    assert [0, 3, 2][1..] == [3, 2] && [3, 2][1..] == [2] && [2][1..] == [];
  }
}
