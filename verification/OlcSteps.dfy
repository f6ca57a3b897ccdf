/** Every step of the optimistic protocol keeps its invariant. */
module OlcSteps {
  import opened Options
  import opened Olc
  import opened OlcInvariant

  // ---------- what a step of one thread leaves to the others ----------

  /** A node that is not locked changes only with its word; a node another thread holds or is making does not change. */
  predicate NodeFrame(x: Node, y: Node, t: Tid) {
    && x.word <= y.word && x.level == y.level && x.body.Leaf? == y.body.Leaf?
    && (x.maker == y.maker || (x.maker == Some(t) && y.maker.None?))
    && (x.word % 2 == 0 && x.word == y.word ==> x == y.(maker := x.maker))
    && (x.holder.Some? && x.holder != Some(t) ==> x == y)
    && (x.maker.Some? && x.maker != Some(t) ==> x == y)
  }

  ghost predicate Frame(s: State, s': State, t: Tid) {
    && s.leafMax == s'.leafMax && s.innerMax == s'.innerMax
    && (forall u :: u != t ==> JobOf(s', u) == JobOf(s, u))
    && (forall n :: n in s.nodes ==> n in s'.nodes && NodeFrame(s.nodes[n], s'.nodes[n], t))
    && (s'.root == s.root || At(s, s.root).holder == Some(t))
  }

  lemma SpotFrame(s: State, s': State, t: Tid, p: Spot)
    requires Frame(s, s', t) && Known(s, p)
    ensures Known(s', p) && (Hits(s', p) ==> Hits(s, p) && s'.nodes[p.id] == s.nodes[p.id])
    ensures At(s', p.id).body.Leaf? == At(s, p.id).body.Leaf?
  {
    assert NodeFrame(s.nodes[p.id], s'.nodes[p.id], t);
  }

  lemma HeldFrame(s: State, s': State, t: Tid, u: Tid, p: Spot)
    requires Frame(s, s', t) && Holds(s, p, u) && u != t
    ensures Holds(s', p, u) && p.id in s.nodes && p.id in s'.nodes && s'.nodes[p.id] == s.nodes[p.id]
  {
    assert NodeFrame(s.nodes[p.id], s'.nodes[p.id], t);
  }

  lemma AboveFrame(s: State, s': State, t: Tid, g: Goal, above: Option<Spot>)
    requires Frame(s, s', t) && AboveOk(s, g, above)
    ensures AboveOk(s', g, above)
  {
    hide Frame;
    if above.Some? {
      SpotFrame(s, s', t, above.value);
      Limits(s, s', t);
    }
  }

  lemma Limits(s: State, s': State, t: Tid)
    requires Frame(s, s', t)
    ensures s.leafMax == s'.leafMax && s.innerMax == s'.innerMax
  {
  }

  lemma LinkFrame(s: State, s': State, t: Tid, g: Goal, above: Option<Spot>, at: Spot)
    requires Frame(s, s', t) && AboveOk(s, g, above) && Linked(s, g, above, at) && Known(s, at)
    ensures Linked(s', g, above, at)
  {
    hide Frame;
    SpotFrame(s, s', t, at);
    if above.Some? {
      SpotFrame(s, s', t, above.value);
    }
  }

  lemma HalvedFrame(s: State, s': State, t: Tid, u: Tid, j: Job)
    requires Frame(s, s', t) && u != t && j.Halved? && HalvedOk(s, u, j)
    ensures HalvedOk(s', u, j)
  {
    HeldFrame(s, s', t, u, j.at);
    assert NodeFrame(s.nodes[j.right], s'.nodes[j.right], t);
    if j.above.Some? {
      HeldFrame(s, s', t, u, j.above.value);
    } else {
      assert s'.root == s.root;
    }
  }

  lemma NodeStays(s: State, s': State, t: Tid, n: Id)
    requires Frame(s, s', t) && n in s.nodes && s.nodes[n].maker.None?
    ensures n in s'.nodes && s'.nodes[n].maker.None?
  {
    assert NodeFrame(s.nodes[n], s'.nodes[n], t);
  }

  lemma RootStays(s: State, s': State, t: Tid, u: Tid, p: Spot)
    requires Frame(s, s', t) && u != t && Holds(s, p, u) && p.id == s.root
    ensures s'.root == s.root
  {
  }

  lemma HoldsAboveFrame(s: State, s': State, t: Tid, u: Tid, g: Goal, above: Option<Spot>, at: Spot)
    requires Frame(s, s', t) && u != t && HoldsAbove(s, u, g, above, at)
    ensures HoldsAbove(s', u, g, above, at)
  {
    hide Frame;
    if above.Some? {
      HeldFrame(s, s', t, u, above.value);
      Limits(s, s', t);
    }
  }

  /** What a thread knows it still knows after a step of another. */
  lemma JobFrame(s: State, s': State, t: Tid, u: Tid, j: Job)
    requires Frame(s, s', t) && u != t && JobOk(s, u, j)
    ensures JobOk(s', u, j)
  {
    hide Frame, HalvedOk, AboveOk, Linked, HoldsAbove, Holds, Known;
    Limits(s, s', t);
    match j
    case Idle =>
    case Starting(_) =>
    case RootRead(_, n) => NodeStays(s, s', t, n);
    case RootSeen(_, at) => SpotFrame(s, s', t, at);
    case Seen(g, above, at) => WayFrame(s, s', t, g, above, at);
    case Passing(g, above, at) => WayFrame(s, s', t, g, above, at);
    case Descending(g, at) => SpotFrame(s, s', t, at);
    case ChildRead(g, at, c) => SpotFrame(s, s', t, at);
    case ChildSure(g, at, c) => SpotFrame(s, s', t, at); NodeStays(s, s', t, c);
    case Crowded(g, above, at) => WayFrame(s, s', t, g, above, at);
    case AboveHeld(g, above, at) => SpotFrame(s, s', t, at); HoldsAboveFrame(s, s', t, u, g, above, at);
    case BothHeld(g, above, at) => SureFrame(s, s', t, u, j);
    case Sure(g, above, at) => SureFrame(s, s', t, u, j);
    case Halved(_, _, _, _, _) => HalvedFrame(s, s', t, u, j);
    case Attached(_, above, at) =>
      HeldFrame(s, s', t, u, at);
      if above.Some? { HeldFrame(s, s', t, u, above.value); }
    case AboveLeft(_, at) => HeldFrame(s, s', t, u, at);
    case NodeLeft(_, at) => HeldFrame(s, s', t, u, at);
    case Roomy(g, above, at) => WayFrame(s, s', t, g, above, at);
    case LeafHeld(g, above, at) => LeafHeldFrame(s, s', t, u, j);
    case Writable(g, at) => HeldFrame(s, s', t, u, at);
    case Written(_, at) => HeldFrame(s, s', t, u, at);
    case Answering(g, above, at, r) => WayFrame(s, s', t, g, above, at);
    case AnswerSure(g, at, r) => SpotFrame(s, s', t, at);
  }

  lemma SureFrame(s: State, s': State, t: Tid, u: Tid, j: Job)
    requires Frame(s, s', t) && u != t && (j.BothHeld? || j.Sure?) && JobOk(s, u, j)
    ensures JobOk(s', u, j)
  {
    hide Frame, HoldsAbove;
    Limits(s, s', t);
    HeldFrame(s, s', t, u, j.at);
    HoldsAboveFrame(s, s', t, u, j.goal, j.above, j.at);
    if j.Sure? && j.above.None? {
      RootStays(s, s', t, u, j.at);
    }
  }

  lemma LeafHeldFrame(s: State, s': State, t: Tid, u: Tid, j: Job)
    requires Frame(s, s', t) && u != t && j.LeafHeld? && JobOk(s, u, j)
    ensures JobOk(s', u, j)
  {
    hide Frame;
    Limits(s, s', t);
    HeldFrame(s, s', t, u, j.at);
    AboveFrame(s, s', t, j.goal, j.above);
    if j.above.Some? {
      SpotFrame(s, s', t, j.above.value);
    }
  }

  lemma WayFrame(s: State, s': State, t: Tid, g: Goal, above: Option<Spot>, at: Spot)
    requires Frame(s, s', t) && AboveOk(s, g, above) && Linked(s, g, above, at) && Known(s, at)
    ensures Linked(s', g, above, at) && AboveOk(s', g, above)
    ensures Known(s', at) && (Hits(s', at) ==> Hits(s, at) && s'.nodes[at.id] == s.nodes[at.id])
    ensures At(s', at.id).body.Leaf? == At(s, at.id).body.Leaf?
  {
    AboveFrame(s, s', t, g, above);
    LinkFrame(s, s', t, g, above, at);
    SpotFrame(s, s', t, at);
  }

  lemma JobsFrame(s: State, s': State, t: Tid)
    requires Frame(s, s', t) && JobsOk(s) && JobOk(s', t, JobOf(s', t))
    ensures JobsOk(s')
  {
    hide JobOk;
    forall u ensures JobOk(s', u, JobOf(s', u)) {
      if u != t {
        JobFrame(s, s', t, u, JobOf(s, u));
      }
    }
  }

  // ---------- steps that change no more than one lock ----------

  ghost predicate SameButLocks(s: State, s': State) {
    && s'.leafMax == s.leafMax && s'.innerMax == s.innerMax && s'.root == s.root && s'.log == s.log
    && s'.nodes.Keys == s.nodes.Keys
    && (forall n :: n in s.nodes ==> s'.nodes[n] == s.nodes[n].(word := s'.nodes[n].word, holder := s'.nodes[n].holder))
  }

  predicate Own(x: Node, t: Tid) {
    (x.holder.None? || x.holder == Some(t)) && x.maker.None?
  }

  /** Thread t, which splits nothing before or after, moves on and may lock or unlock nodes. */
  ghost predicate Moves(s: State, s': State, t: Tid) {
    && SameButLocks(s, s') && Frame(s, s', t)
    && !JobOf(s, t).Halved? && !JobOf(s', t).Halved?
    && (forall n :: n in s.nodes ==> (s'.nodes[n].word % 2 == 1 <==> s'.nodes[n].holder.Some?))
    && (forall n :: n in s.nodes && s'.nodes[n].holder != s.nodes[n].holder ==> Own(s.nodes[n], t) && Own(s'.nodes[n], t))
    && (forall n :: n in s.nodes && s'.nodes[n].holder == Some(t) ==> n in HeldBy(JobOf(s', t)))
    && (forall n :: n in HeldBy(JobOf(s', t)) ==> n in s.nodes && s'.nodes[n].holder == Some(t))
  }

  lemma MoveNodes(s: State, s': State, t: Tid)
    requires NodesOk(s) && Moves(s, s', t)
    ensures NodesOk(s')
  {
    hide Frame;
    forall n | n in s'.nodes ensures NodeOk(s', s'.nodes[n]) && AllFit(s', n) {
      assert NodeOk(s, s.nodes[n]) && AllFit(s, n);
      if s.nodes[n].body.Inner? {
        forall i | 0 <= i < |s.nodes[n].body.kids| ensures Fits(s', n, i) {
          MoveFits(s, s', t, n, i);
        }
      }
    }
  }

  lemma MoveFits(s: State, s': State, t: Tid, n: Id, i: int)
    requires Moves(s, s', t) && Fits(s, n, i)
    ensures Fits(s', n, i)
  {
    var h := s.nodes[n].holder;
    if h.Some? && h != Some(t) {
      assert JobOf(s', h.value) == JobOf(s, h.value);
    }
  }

  lemma MoveRoot(s: State, s': State, t: Tid)
    requires RootOk(s) && LevelsOk(s) && Moves(s, s', t)
    ensures RootOk(s') && LevelsOk(s')
  {
    var h := s.nodes[s.root].holder;
    if h.Some? && h != Some(t) {
      assert JobOf(s', h.value) == JobOf(s, h.value);
    }
  }

  lemma MoveLocks(s: State, s': State, t: Tid)
    requires LocksOk(s) && Moves(s, s', t)
    ensures LocksOk(s')
  {
    hide HeldBy;
  }

  lemma MoveContents(s: State, s': State, t: Tid)
    requires Contents(s) && Moves(s, s', t)
    ensures Contents(s')
  {
    hide Frame, HeldBy, Get;
    forall n | n in s'.nodes ensures LeafTells(s', n) {
      assert LeafTells(s, n);
    }
    forall k ensures HasLeaf(s', k) {
      assert HasLeaf(s, k);
      var n :| IsLeafFor(s, n, k);
      assert IsLeafFor(s', n, k);
    }
  }

  lemma MoveKeeps(s: State, s': State, t: Tid)
    requires Inv(s) && Moves(s, s', t) && JobOk(s', t, JobOf(s', t))
    ensures Inv(s')
  {
    hide Frame, JobOk, NodesOk, RootOk, LevelsOk, LocksOk, Contents, Legal, JobsOk;
    MoveNodes(s, s', t);
    MoveRoot(s, s', t);
    MoveLocks(s, s', t);
    MoveContents(s, s', t);
    JobsFrame(s, s', t);
  }
}
