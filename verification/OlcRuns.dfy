/** Runs of the optimistic protocol: the log is the history of a map, and the tree holds that map. */
module OlcRuns {
  import opened Options
  import opened Ordered
  import opened Olc
  import opened OlcInvariant
  import opened OlcMoves
  import opened OlcEdits
  import opened OlcSplits
  import opened OlcAttach

  /** A new tree: one empty leaf, the root. */
  function Init(leafMax: nat, innerMax: nat): State {
    State(leafMax, innerMax, map[0 := Node(0, None, None, 0, None, None, Leaf([], []))], 0, map[], [])
  }

  ghost predicate CanRun(s: State, run: seq<Step>)
    decreases |run|
  {
    run != [] ==> Enabled(s, run[0]) && CanRun(Do(s, run[0]), run[1..])
  }

  function After(s: State, run: seq<Step>): State
    requires CanRun(s, run)
    decreases |run|
  {
    if run == [] then s else After(Do(s, run[0]), run[1..])
  }

  lemma InitInv(leafMax: nat, innerMax: nat)
    requires leafMax >= 2 && innerMax >= 5
    ensures Inv(Init(leafMax, innerMax))
  {
    var s := Init(leafMax, innerMax);
    forall k ensures HasLeaf(s, k) {
      assert IsLeafFor(s, 0, k);
    }
    assert LeafTells(s, 0);
  }

  lemma Keep(s: State, st: Step)
    requires Inv(s) && Enabled(s, st)
    ensures Inv(Do(s, st))
  {
    hide Inv;
    match st
    case Call(t, goal) => KeepStart(s, t, Starting(goal));
    case ReadRoot(t) => KeepRoot(s, st);
    case SeeRoot(t) => KeepRoot(s, st);
    case CheckRoot(t) => KeepRoot(s, st);
    case Look(t, full) => KeepLook(s, st);
    case Pass(t) => KeepPass(s, t);
    case ReadChild(t, c) => KeepChild(s, st);
    case CheckChild(t) => KeepChild(s, st);
    case SeeChild(t) => KeepChild(s, st);
    case LockAbove(t) => KeepLockAbove(s, t);
    case LockNode(t) => KeepLockNode(s, t);
    case CheckTop(t) => KeepCheckTop(s, t);
    case Halve(t, right) => KeepHalve(s, t, right);
    case Attach(t, top) => if JobOf(s, t).above.Some? { KeepAttachUnder(s, t, top); } else { KeepRaise(s, t, top); }
    case FreeNode(t) => KeepFree(s, st);
    case FreeAbove(t) => KeepFree(s, st);
    case LockLeaf(t) => KeepLockLeaf(s, t);
    case CheckAbove(t) => KeepCheckAbove(s, t);
    case Write(t) => KeepWrite(s, t);
    case FreeLeaf(t) => KeepFree(s, st);
    case ReadLeaf(t, r) => KeepLook(s, st);
    case CheckAnswer(t) => KeepCheckAnswer(s, t);
    case Return(t) => KeepReturn(s, t);
  }

  lemma {:induction false} Reached(s: State, run: seq<Step>)
    requires Inv(s) && CanRun(s, run)
    ensures Inv(After(s, run))
    decreases |run|
  {
    hide Inv, Enabled, Do;
    if run != [] {
      Keep(s, run[0]);
      Reached(Do(s, run[0]), run[1..]);
    }
  }

  // ---------- what the tree holds ----------

  /** Some leaf holds the pair. */
  ghost predicate InTree(s: State, k: int, v: int) {
    exists n, i :: PairAt(s, n, i, k, v)
  }

  predicate PairAt(s: State, n: Id, i: int, k: int, v: int) {
    && n in s.nodes && s.nodes[n].body.Leaf? && 0 <= i < |s.nodes[n].body.keys| && i < |s.nodes[n].body.vals|
    && s.nodes[n].body.keys[i] == k && s.nodes[n].body.vals[i] == v
  }

  lemma PairTold(s: State, n: Id, i: int, k: int, v: int)
    requires Inv(s) && PairAt(s, n, i, k, v)
    ensures Value(Replay(s.log), k) == Some(v)
  {
    assert NodeOk(s, s.nodes[n]) && LeafTells(s, n);
    assert InSpan(s.nodes[n], s.nodes[n].body.keys[i]);
    GetAt(s.nodes[n].body, i);
  }

  lemma ToldPair(s: State, k: int, v: int)
    requires Inv(s) && Value(Replay(s.log), k) == Some(v)
    ensures InTree(s, k, v)
  {
    hide Replay;
    assert HasLeaf(s, k);
    var n :| IsLeafFor(s, n, k);
    assert LeafTells(s, n);
    assert PairAt(s, n, Rank(s.nodes[n].body.keys, k), k, v);
  }

  /**
   In every run of any number of threads, every answer given is that of a map on which the operations took effect
   one after the other in the order of the log, and the pairs in the leaves are exactly those of that map.
   */
  lemma Linearised(leafMax: nat, innerMax: nat, run: seq<Step>)
    requires leafMax >= 2 && innerMax >= 5 && CanRun(Init(leafMax, innerMax), run)
    ensures var s := After(Init(leafMax, innerMax), run);
      Legal(s.log) && forall k, v :: InTree(s, k, v) <==> k in Replay(s.log) && Replay(s.log)[k] == v
  {
    hide Inv, Replay;
    InitInv(leafMax, innerMax);
    Reached(Init(leafMax, innerMax), run);
    var s := After(Init(leafMax, innerMax), run);
    InvParts(s);
    forall k, v ensures InTree(s, k, v) <==> k in Replay(s.log) && Replay(s.log)[k] == v {
      if InTree(s, k, v) {
        var n, i :| PairAt(s, n, i, k, v);
        PairTold(s, n, i, k, v);
      } else if Value(Replay(s.log), k) == Some(v) {
        ToldPair(s, k, v);
      }
    }
  }

  // ---------- every call takes effect once ----------

  function Events(log: seq<Event>, t: Tid): nat {
    if log == [] then 0 else Events(log[..|log| - 1], t) + if log[|log| - 1].t == t then 1 else 0
  }

  function Calls(run: seq<Step>, t: Tid): nat {
    if run == [] then 0 else Calls(run[1..], t) + if run[0].Call? && run[0].t == t then 1 else 0
  }

  /** Whether a thread is in a call that has not taken effect. */
  function Pending(s: State, t: Tid): nat {
    if JobOf(s, t).Idle? || JobOf(s, t).Written? then 0 else 1
  }

  lemma EventsMore(log: seq<Event>, e: Event, t: Tid)
    ensures Events(log + [e], t) == Events(log, t) + if e.t == t then 1 else 0
  {
    assert (log + [e])[..|log|] == log;
  }

  lemma StepOnce(s: State, st: Step, t: Tid)
    requires Inv(s) && Enabled(s, st)
    ensures Events(Do(s, st).log, t) + Pending(Do(s, st), t) ==
      Events(s.log, t) + Pending(s, t) + if st.Call? && st.t == t then 1 else 0
  {
    hide Inv, Events;
    if st.Write? {
      WriteOnce(s, st, t);
    } else if st.Return? {
      EventsMore(s.log, Answered(st.t, JobOf(s, st.t).goal.key, JobOf(s, st.t).result), t);
    } else {
      LogSame(s, st);
    }
  }

  lemma WriteOnce(s: State, st: Step, t: Tid)
    requires Inv(s) && Enabled(s, st) && st.Write?
    ensures Events(Do(s, st).log, t) + Pending(Do(s, st), t) == Events(s.log, t) + Pending(s, t)
  {
    hide Inv, Events;
    JobIs(s, st.t);
    EventsMore(s.log, Stored(st.t, JobOf(s, st.t).goal.key, JobOf(s, st.t).goal.val), t);
  }

  lemma LogSame(s: State, st: Step)
    requires Enabled(s, st) && !st.Write? && !st.Return?
    ensures Do(s, st).log == s.log
  {
  }

  /** A thread has as many entries in the log as calls it has made, less the one that is still under way. */
  lemma {:induction false} OncePerCall(s: State, run: seq<Step>, t: Tid)
    requires Inv(s) && CanRun(s, run)
    ensures Events(After(s, run).log, t) + Pending(After(s, run), t) == Events(s.log, t) + Pending(s, t) + Calls(run, t)
    decreases |run|
  {
    hide Inv, Enabled, Do, Events, Pending;
    if run != [] {
      Keep(s, run[0]);
      StepOnce(s, run[0], t);
      OncePerCall(Do(s, run[0]), run[1..], t);
    }
  }

  // ---------- where operations act ----------

  /** An insert writes to an unfull leaf that is responsible for its key and that no other thread holds. */
  lemma WritesRightLeaf(s: State, t: Tid)
    requires Inv(s) && Enabled(s, Write(t))
    ensures var j := JobOf(s, t);
      && j.at.id in s.nodes && s.nodes[j.at.id].holder == Some(t) && s.nodes[j.at.id].body.Leaf?
      && InSpan(s.nodes[j.at.id], j.goal.key) && |s.nodes[j.at.id].body.keys| < s.leafMax
  {
    hide Inv;
    JobIs(s, t);
  }

  /** A lookup that passes its last check returns what the map holds at that moment. */
  lemma AnswersRight(s: State, t: Tid)
    requires Inv(s) && Enabled(s, Return(t)) && Hits(s, JobOf(s, t).at)
    ensures JobOf(s, t).result == Value(Replay(s.log), JobOf(s, t).goal.key)
  {
    hide Inv;
    JobIs(s, t);
    LeafKnows(s, JobOf(s, t).at, JobOf(s, t).goal.key);
  }

  /** The parent of a node that has been split has room for one more child. */
  lemma RoomAbove(s: State, t: Tid, top: Id)
    requires Inv(s) && Enabled(s, Attach(t, top)) && JobOf(s, t).above.Some?
    ensures var p := JobOf(s, t).above.value.id;
      p in s.nodes && s.nodes[p].body.Inner? && |s.nodes[p].body.keys| < s.innerMax - 1 && s.nodes[p].holder == Some(t)
  {
    hide Inv, Torn;
    JobIs(s, t);
  }

  // ---------- a tree at rest ----------

  /** The plain descent of one thread alone. */
  function Walk(s: State, n: Id, k: int): Option<int>
    decreases At(s, n).level
  {
    var x := At(s, n);
    if x.body.Leaf? then Get(x.body, k)
    else if At(s, Child(x.body, k)).level < x.level then Walk(s, Child(x.body, k), k)
    else None
  }

  lemma {:induction false} WalkFinds(s: State, n: Id, k: int)
    requires Inv(s) && n in s.nodes && InSpan(s.nodes[n], k) && s.nodes[n].maker.None?
    requires forall m :: m in s.nodes ==> s.nodes[m].holder.None?
    ensures Walk(s, n, k) == Value(Replay(s.log), k)
    decreases s.nodes[n].level
  {
    hide Inv, NodesOk, Replay, Get;
    InvParts(s);
    if s.nodes[n].body.Leaf? {
      LeafKnows(s, Spot(n, 0), k);
    } else {
      RestFits(s, n, k);
      WalkFinds(s, Child(s.nodes[n].body, k), k);
    }
  }

  lemma RestFits(s: State, n: Id, k: int)
    requires NodesOk(s) && n in s.nodes && InSpan(s.nodes[n], k) && s.nodes[n].body.Inner? && s.nodes[n].maker.None?
    requires s.nodes[n].holder.None?
    ensures var c := Child(s.nodes[n].body, k);
      c in s.nodes && s.nodes[c].maker.None? && s.nodes[c].level + 1 == s.nodes[n].level && InSpan(s.nodes[c], k)
  {
    assert NodeOk(s, s.nodes[n]);
    ChildFits(s, Spot(n, s.nodes[n].word), k);
  }

  /** After any run that leaves no lock held, descending from the root finds exactly the pairs of the map. */
  lemma RestingTree(leafMax: nat, innerMax: nat, run: seq<Step>, k: int)
    requires leafMax >= 2 && innerMax >= 5 && CanRun(Init(leafMax, innerMax), run)
    requires var s := After(Init(leafMax, innerMax), run); forall m :: m in s.nodes ==> s.nodes[m].holder.None?
    ensures var s := After(Init(leafMax, innerMax), run); Walk(s, s.root, k) == Value(Replay(s.log), k)
  {
    hide Inv, Replay, Walk;
    InitInv(leafMax, innerMax);
    Reached(Init(leafMax, innerMax), run);
    var s := After(Init(leafMax, innerMax), run);
    InvParts(s);
    WalkFinds(s, s.root, k);
  }
}
