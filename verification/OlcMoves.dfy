/** The steps of the optimistic protocol that leave every key where it is keep the invariant. */
module OlcMoves {
  import opened Options
  import opened Olc
  import opened OlcInvariant
  import opened OlcSteps

  // ---------- reading and checking ----------

  ghost predicate Parity(s: State) {
    forall n :: n in s.nodes ==> (s.nodes[n].word % 2 == 1 <==> s.nodes[n].holder.Some?)
  }

  lemma ParityIs(s: State)
    requires NodesOk(s)
    ensures Parity(s)
  {
    hide AllFit;
    forall n | n in s.nodes ensures s.nodes[n].word % 2 == 1 <==> s.nodes[n].holder.Some? {
      assert NodeOk(s, s.nodes[n]);
    }
  }

  lemma QuietMoves(s: State, t: Tid, j: Job)
    requires NodesOk(s) && LocksOk(s) && HeldBy(j) == HeldBy(JobOf(s, t)) && !j.Halved? && !JobOf(s, t).Halved?
    ensures Moves(s, SetJob(s, t, j), t)
  {
    hide HeldBy, NodesOk;
    ParityIs(s);
  }

  /** A step that only moves its thread on keeps the invariant if the thread knows what it should where it gets to. */
  lemma QuietKeeps(s: State, t: Tid, j: Job)
    requires Inv(s) && HeldBy(j) == HeldBy(JobOf(s, t)) && !j.Halved? && !JobOf(s, t).Halved? && JobOk(s, t, j)
    ensures Inv(SetJob(s, t, j))
  {
    hide Moves, Inv;
    var s' := SetJob(s, t, j);
    InvParts(s);
    QuietMoves(s, t, j);
    JobOkSame(s, s', t, j);
    MoveKeeps(s, s', t);
  }

  lemma InvParts(s: State)
    requires Inv(s)
    ensures Sizes(s) && NodesOk(s) && RootOk(s) && LevelsOk(s) && LocksOk(s) && Contents(s) && Legal(s.log) && JobsOk(s)
  {
  }

  lemma JobOkSame(s: State, s': State, t: Tid, j: Job)
    requires JobOk(s, t, j) && s'.nodes == s.nodes && s'.root == s.root && s'.leafMax == s.leafMax && s'.innerMax == s.innerMax
    ensures JobOk(s', t, j)
  {
  }

  lemma JobIs(s: State, t: Tid)
    requires Inv(s)
    ensures JobOk(s, t, JobOf(s, t))
  {
    hide JobOk;
    assert JobsOk(s);
  }

  lemma KeepStart(s: State, t: Tid, j: Job)
    requires Inv(s) && (j.Starting? || j.Idle?) && HeldBy(JobOf(s, t)) == {} && !JobOf(s, t).Halved?
    ensures Inv(SetJob(s, t, j))
  {
    hide Inv;
    QuietKeeps(s, t, j);
  }

  lemma UnlockedIs(s: State, n: Id)
    requires NodesOk(s) && n in s.nodes && Unlocked(s, n)
    ensures s.nodes[n].holder.None?
  {
    assert NodeOk(s, s.nodes[n]);
  }

  lemma KeepRoot(s: State, st: Step)
    requires Inv(s) && Enabled(s, st) && (st.ReadRoot? || st.SeeRoot? || st.CheckRoot?)
    ensures Inv(Do(s, st))
  {
    hide Inv;
    var j' := JobOf(Do(s, st), st.t);
    InvParts(s);
    JobIs(s, st.t);
    if st.CheckRoot? && j'.Seen? && Hits(s, j'.at) {
      UnlockedIs(s, s.root);
    }
    QuietKeeps(s, st.t, j');
  }

  lemma KeepLook(s: State, st: Step)
    requires Inv(s) && Enabled(s, st) && (st.Look? || st.ReadLeaf?)
    ensures Inv(Do(s, st))
  {
    hide Inv, AboveOk, Linked;
    JobIs(s, st.t);
    QuietKeeps(s, st.t, JobOf(Do(s, st), st.t));
  }

  /** With the parent unchanged, the child it gives for the key has the key in its range. */
  lemma LinkedIn(s: State, g: Goal, above: Option<Spot>, at: Spot)
    requires NodesOk(s) && Known(s, at) && AboveOk(s, g, above) && AboveHits(s, above) && Linked(s, g, above, at)
    ensures above.Some? || Hits(s, at) ==> InSpan(At(s, at.id), g.key)
  {
    if above.Some? {
      ChildFits(s, above.value, g.key);
    }
  }

  lemma KeepPass(s: State, t: Tid)
    requires Inv(s) && Enabled(s, Pass(t))
    ensures Inv(Do(s, Pass(t)))
  {
    hide Inv, AboveOk, Linked, Get, InSpan, Full, NodesOk, RootOk, LevelsOk, LocksOk, Contents, Legal, JobsOk;
    InvParts(s);
    JobIs(s, t);
    var j := JobOf(s, t);
    if AboveHits(s, j.above) {
      LinkedIn(s, j.goal, j.above, j.at);
    }
    QuietKeeps(s, t, JobOf(Do(s, Pass(t)), t));
  }

  lemma KeepChild(s: State, st: Step)
    requires Inv(s) && Enabled(s, st) && (st.ReadChild? || st.CheckChild? || st.SeeChild?)
    ensures Inv(Do(s, st))
  {
    hide Inv, NodesOk, RootOk, LevelsOk, LocksOk, Contents, Legal, JobsOk;
    InvParts(s);
    JobIs(s, st.t);
    var j := JobOf(s, st.t);
    if Hits(s, j.at) {
      ChildFits(s, j.at, j.goal.key);
    }
    QuietKeeps(s, st.t, JobOf(Do(s, st), st.t));
  }

  lemma KeepCheckTop(s: State, t: Tid)
    requires Inv(s) && Enabled(s, CheckTop(t))
    ensures Inv(Do(s, CheckTop(t)))
  {
    hide Inv, HoldsAbove;
    JobIs(s, t);
    QuietKeeps(s, t, JobOf(Do(s, CheckTop(t)), t));
  }

  lemma KeepCheckAbove(s: State, t: Tid)
    requires Inv(s) && Enabled(s, CheckAbove(t))
    ensures Inv(Do(s, CheckAbove(t)))
  {
    hide Inv, InSpan, Full, Child, NodesOk, RootOk, LevelsOk, LocksOk, Contents, Legal, JobsOk;
    InvParts(s);
    JobIs(s, t);
    var j := JobOf(s, t);
    if AboveHits(s, j.above) && j.above.Some? {
      ChildFits(s, j.above.value, j.goal.key);
    }
    QuietKeeps(s, t, JobOf(Do(s, CheckAbove(t)), t));
  }

  lemma KeepCheckAnswer(s: State, t: Tid)
    requires Inv(s) && Enabled(s, CheckAnswer(t))
    ensures Inv(Do(s, CheckAnswer(t)))
  {
    hide Inv, AboveOk, Linked, Get, InSpan, Full, NodesOk, RootOk, LevelsOk, LocksOk, Contents, Legal, JobsOk;
    InvParts(s);
    JobIs(s, t);
    var j := JobOf(s, t);
    if AboveHits(s, j.above) {
      LinkedIn(s, j.goal, j.above, j.at);
    }
    QuietKeeps(s, t, JobOf(Do(s, CheckAnswer(t)), t));
  }

  // ---------- locking and unlocking ----------

  lemma LockMoves(s: State, t: Tid, n: Id, j: Job)
    requires NodesOk(s) && LocksOk(s) && n in s.nodes && Unlocked(s, n) && s.nodes[n].maker.None?
    requires HeldBy(j) == HeldBy(JobOf(s, t)) + {n} && !j.Halved? && !JobOf(s, t).Halved?
    ensures Moves(s, SetJob(Lock(s, n, t), t, j), t)
  {
    hide HeldBy, NodesOk;
    ParityIs(s);
  }

  lemma UnlockMoves(s: State, t: Tid, n: Id, j: Job)
    requires NodesOk(s) && LocksOk(s) && n in HeldBy(JobOf(s, t)) && At(s, n).maker.None?
    requires HeldBy(j) == HeldBy(JobOf(s, t)) - {n} && !j.Halved? && !JobOf(s, t).Halved?
    ensures Moves(s, SetJob(Unlock(s, n), t, j), t)
  {
    hide HeldBy, NodesOk;
    ParityIs(s);
  }

  lemma LockKeeps(s: State, t: Tid, n: Id, j: Job)
    requires Inv(s) && n in s.nodes && Unlocked(s, n) && s.nodes[n].maker.None?
    requires HeldBy(j) == HeldBy(JobOf(s, t)) + {n} && !j.Halved? && !JobOf(s, t).Halved?
    requires JobOk(SetJob(Lock(s, n, t), t, j), t, j)
    ensures Inv(SetJob(Lock(s, n, t), t, j))
  {
    hide Moves, Inv, JobOk, HeldBy;
    InvParts(s);
    LockMoves(s, t, n, j);
    MoveKeeps(s, SetJob(Lock(s, n, t), t, j), t);
  }

  lemma UnlockKeeps(s: State, t: Tid, n: Id, j: Job)
    requires Inv(s) && n in HeldBy(JobOf(s, t)) && At(s, n).maker.None?
    requires HeldBy(j) == HeldBy(JobOf(s, t)) - {n} && !j.Halved? && !JobOf(s, t).Halved?
    requires JobOk(SetJob(Unlock(s, n), t, j), t, j)
    ensures Inv(SetJob(Unlock(s, n), t, j))
  {
    hide Moves, Inv, JobOk, HeldBy;
    InvParts(s);
    UnlockMoves(s, t, n, j);
    MoveKeeps(s, SetJob(Unlock(s, n), t, j), t);
  }

  lemma KeepLockAbove(s: State, t: Tid)
    requires Inv(s) && Enabled(s, LockAbove(t))
    ensures Inv(Do(s, LockAbove(t)))
  {
    hide Inv;
    JobIs(s, t);
    var j := JobOf(s, t);
    if !AboveHits(s, j.above) {
      KeepStart(s, t, Starting(j.goal));
    } else if j.above.Some? {
      AboveDiffers(s, j);
      LockKeeps(s, t, j.above.value.id, AboveHeld(j.goal, j.above, j.at));
    } else {
      QuietKeeps(s, t, AboveHeld(j.goal, j.above, j.at));
    }
  }

  /** A parent is one level above its child. */
  lemma AboveDiffers(s: State, j: Job)
    requires Inv(s) && j.Crowded? && Known(s, j.at) && AboveOk(s, j.goal, j.above) && j.above.Some? && Hits(s, j.above.value)
    requires Linked(s, j.goal, j.above, j.at)
    ensures j.above.value.id != j.at.id
  {
    hide Inv, NodesOk, RootOk, LevelsOk, LocksOk, Contents, Legal, JobsOk;
    InvParts(s);
    ChildFits(s, j.above.value, j.goal.key);
  }

  lemma KeepLockNode(s: State, t: Tid)
    requires Inv(s) && Enabled(s, LockNode(t))
    ensures Inv(Do(s, LockNode(t)))
  {
    hide Inv;
    JobIs(s, t);
    var j := JobOf(s, t);
    if Hits(s, j.at) {
      HitsFree(s, j.at);
      LockKeeps(s, t, j.at.id, BothHeld(j.goal, j.above, j.at));
    } else {
      QuietKeeps(s, t, if j.above.Some? then AboveLeft(j.goal, j.above.value) else Starting(j.goal));
    }
  }

  /** A node whose word is the one seen is not locked. */
  lemma HitsFree(s: State, p: Spot)
    requires Inv(s) && Known(s, p) && Hits(s, p)
    ensures Unlocked(s, p.id) && s.nodes[p.id].holder.None?
  {
    UnlockedIs(s, p.id);
  }

  lemma KeepLockLeaf(s: State, t: Tid)
    requires Inv(s) && Enabled(s, LockLeaf(t))
    ensures Inv(Do(s, LockLeaf(t)))
  {
    hide Inv;
    JobIs(s, t);
    var j := JobOf(s, t);
    if Hits(s, j.at) {
      LockKeeps(s, t, j.at.id, LeafHeld(j.goal, j.above, j.at));
    } else {
      KeepStart(s, t, Starting(j.goal));
    }
  }

  lemma KeepFree(s: State, st: Step)
    requires Inv(s) && Enabled(s, st) && (st.FreeNode? || st.FreeAbove? || st.FreeLeaf?)
    ensures Inv(Do(s, st))
  {
    hide Inv;
    JobIs(s, st.t);
    UnlockKeeps(s, st.t, JobOf(s, st.t).at.id, JobOf(Do(s, st), st.t));
  }
}
