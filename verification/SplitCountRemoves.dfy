/** Taking the bound of a merge out of the nodes above the leaves keeps the invariant of the split-count protocol. */
module SplitCountRemoves {
  import opened Options
  import opened SplitCount
  import opened SplitCountInvariant
  import opened SplitCountSteps
  import opened SplitCountVisits
  import opened SplitCountNodes
  import opened SplitCountInserts

  /** Thread t joins slot q to slot o on its left; m is the separator between them. */
  ghost predicate Removes(s: State, s': State, t: Tid, o: Id, q: Id, m: int) {
    && Enabled(s, Remove(t, q)) && s' == DoRemove(s, t, q) && JobOk(s, t) && Mine(s, t) && o == JobOf(s, t).slot && m == JobOf(s, t).mid
    && Wide(s.slots[o].lo, Some(m)) && Wide(Some(m), s.slots[q].hi)
  }

  lemma RemoveDoes(s: State, s': State, t: Tid, o: Id, q: Id, m: int)
    requires Removes(s, s', t, o, q, m)
    ensures o in s.slots && q in s.slots && o != q && s.slots[o].hi == Some(m) == s.slots[q].lo
    ensures s.slots[o].home in s.parents && s.parents[s.slots[o].home].latch == Some(t) && s.parents[s.slots[o].home].dirty
    ensures s.slots[q].home in s.parents && s.parents[s.slots[q].home].latch == Some(t) && s.parents[s.slots[q].home].dirty
    ensures JobOf(s, t).MergeUp? && !JobOf(s, t).holds && JobOf(s, t).mid == m && (IsUp(s, m) ==> Uninserted(s, m))
    ensures s'.parents == s.parents && s'.leaves == s.leaves && OthersSame(s, s', t)
    ensures JobOf(s', t).Up? && NodesOf(JobOf(s', t)) == NodesOf(JobOf(s, t))
    ensures s'.slots.Keys == s.slots.Keys - {q} && s'.slots[o] == s.slots[o].(hi := s.slots[q].hi)
    ensures forall p :: p in s.slots && p != o && p != q ==> s'.slots[p] == s.slots[p]
    ensures Wide(s.slots[o].lo, Some(m)) && Wide(Some(m), s.slots[q].hi)
  {
    hide IsUp, Uninserted;
    NodeIn(JobOf(s, t));
  }

  lemma RemoveTree(s: State, s': State, t: Tid, o: Id, q: Id, m: int)
    requires TreeOk(s) && Removes(s, s', t, o, q, m)
    ensures TreeOk(s')
  {
    hide Removes, IsUp, Uninserted;
    RemoveDoes(s, s', t, o, q, m);
    forall x | x in s'.leaves ensures LeafOk(s', x) {
      assert LeafOk(s, x);
    }
    forall x, y ensures LivesApart(s', x, y) {
      assert LivesApart(s, x, y);
    }
    RemoveSlots(s, s', t, o, q, m);
  }

  lemma RemoveSlots(s: State, s': State, t: Tid, o: Id, q: Id, m: int)
    requires TreeOk(s) && Removes(s, s', t, o, q, m)
    ensures (forall p :: p in s'.slots ==> SlotOk(s', p)) && (forall p, r :: SlotsApart(s', p, r))
  {
    hide Removes, IsUp, Uninserted, LeafOk, LivesApart;
    RemoveDoes(s, s', t, o, q, m);
    forall p | p in s'.slots ensures SlotOk(s', p) {
      assert SlotOk(s, p);
    }
    forall p, r ensures SlotsApart(s', p, r) {
      assert SlotsApart(s, p, r) && SlotsApart(s, q, r) && SlotsApart(s, p, q);
      if p in s'.slots && r in s'.slots && p != r {
        assert SlotOk(s, p) && SlotOk(s, r);
      }
    }
  }

  lemma RemoveSep(s: State, s': State, t: Tid, o: Id, q: Id, m: int, k: int)
    requires TreeOk(s) && Removes(s, s', t, o, q, m)
    ensures IsSep(s', k) <==> IsSep(s, k) && k != m
  {
    hide Removes, IsUp, Uninserted, TreeOk;
    RemoveDoes(s, s', t, o, q, m);
    if IsSep(s, k) && k != m {
      var p :| p in s.slots && s.slots[p].hi == Some(k);
      var p' := if p == q then o else p;
      assert p' in s'.slots && s'.slots[p'].hi == Some(k);
    }
    if IsSep(s', k) {
      var p :| p in s'.slots && s'.slots[p].hi == Some(k);
      var p' := if p == o then q else p;
      assert s.slots[p'].hi == Some(k);
      if k == m && p != o {
        OneEnding(s, p, o, m);
      }
    }
  }

  lemma OneEnding(s: State, p: Id, o: Id, m: int)
    requires TreeOk(s) && p in s.slots && o in s.slots && s.slots[p].hi == Some(m) == s.slots[o].hi
    ensures p == o
  {
    assert SlotOk(s, p) && SlotOk(s, o);
    OneSlot(s, p, o, m);
  }

  lemma RemovePending(s: State, s': State, t: Tid, o: Id, q: Id, m: int, k: int)
    requires Removes(s, s', t, o, q, m)
    ensures Uninserted(s', k) == Uninserted(s, k) && SplitUpOn(s', k) == SplitUpOn(s, k) && IsUp(s', k) == IsUp(s, k)
    ensures Unremoved(s, k) ==> Unremoved(s', k) || k == m
    ensures MergeUpOn(s, k) ==> MergeUpOn(s', k) || k == m
    ensures MergeUpOn(s', k) ==> MergeUpOn(s, k)
  {
    hide Removes;
    RemoveDoes(s, s', t, o, q, m);
    forall u ensures SplitAt(JobOf(s', u), k) <==> SplitAt(JobOf(s, u), k) {
    }
    if Unremoved(s, k) && k != m {
      var u :| MergedAt(JobOf(s, u), k);
      assert MergedAt(JobOf(s', u), k);
    }
    if MergeUpOn(s, k) && k != m {
      var u :| JobOf(s, u).MergeUp? && JobOf(s, u).mid == k;
      assert JobOf(s', u).MergeUp?;
    }
    RemoveSplitUp(s, s', t, k);
    forall x ensures IsLive(s', x) == IsLive(s, x) {
    }
  }

  lemma RemoveSplitUp(s: State, s': State, t: Tid, k: int)
    requires OthersSame(s, s', t) && JobOf(s, t).MergeUp? && JobOf(s', t).Up?
    ensures SplitUpOn(s', k) == SplitUpOn(s, k) && (MergeUpOn(s', k) ==> MergeUpOn(s, k))
  {
    forall u ensures JobOf(s', u).SplitUp? <==> JobOf(s, u).SplitUp? {
    }
  }

  lemma RemoveClear(s: State, s': State, t: Tid, o: Id, q: Id, m: int, z: Id, b: int)
    requires TreeOk(s) && Removes(s, s', t, o, q, m) && ClearedTo(s, z, b)
    ensures ClearedTo(s', z, b)
  {
    hide Removes, IsSep, IsUp, MergeUpOn, Uninserted, Unremoved, SplitUpOn, MergedInto, TreeOk;
    RemoveDoes(s, s', t, o, q, m);
    forall k | IsSep(s', k) && Over(At(s', z).low, k) && k < b ensures MergeUpOn(s', k) || MergedInto(s', k, z) {
      RemoveSep(s, s', t, o, q, m, k);
      RemovePending(s, s', t, o, q, m, k);
      if MergedInto(s, k, z) {
        IntoSame(s, s', t, k, z);
      }
    }
  }

  lemma RemoveRest(s: State, s': State, t: Tid, o: Id, q: Id, m: int)
    requires Inv(s) && Removes(s, s', t, o, q, m)
    ensures UpsOk(s') && SepsOk(s') && SlotsClear(s') && LatchesOk(s') && MakersOk(s')
  {
    hide Inv, Removes, IsSep, IsUp, Uninserted, Unremoved, MergeUpOn, SplitUpOn, LeafLatches, NodeLatches, ClearedTo, TreeOk;
    RemoveDoes(s, s', t, o, q, m);
    Parts(s);
    forall k ensures (IsUp(s', k) ==> IsSep(s', k) || Uninserted(s', k)) && (IsSep(s', k) ==> IsUp(s', k) || Unremoved(s', k)) {
      RemoveSep(s, s', t, o, q, m, k);
      RemovePending(s, s', t, o, q, m, k);
    }
    forall p ensures SlotClear(s', p) {
      assert SlotClear(s, p);
      if p in s'.slots && s.slots[p].lo.Some? {
        RemoveClear(s, s', t, o, q, m, At(s, p).into, s.slots[p].lo.value + 1);
      }
    }
    LeafLatchesSame(s, s', t);
    NodeLatchesSame(s, s', t);
  }

  // ---------- the threads ----------

  lemma RemoveParent(s: State, s': State, t: Tid, o: Id, q: Id, m: int, u: Tid)
    requires Inv(s) && Removes(s, s', t, o, q, m) && u != t && JobOf(s, u).Visit? && ParentOk(s, JobOf(s, u))
    ensures ParentOk(s', JobOf(s, u))
  {
    hide Inv, Removes, IsUp, Uninserted;
    RemoveDoes(s, s', t, o, q, m);
    var j := JobOf(s, u);
    if Hits(s, j) {
      NotGiven(s, t, o, u);
      NotGiven(s, t, q, u);
      if s.slots[j.from].home != j.parent {
        assert Handing(s, j.parent, s.slots[j.from].home) && s.parents[j.parent].latch != Some(t);
      }
    }
  }

  lemma RemoveVisit(s: State, s': State, t: Tid, o: Id, q: Id, m: int, u: Tid)
    requires Inv(s) && Removes(s, s', t, o, q, m) && u != t && JobOf(s, u).Visit?
    ensures VisitOk(s', u, JobOf(s, u))
  {
    hide Inv, Removes, ParentOk, IsUp, Uninserted, ClearedTo, OnwardOk;
    RemoveDoes(s, s', t, o, q, m);
    JobIs(s, u);
    Parts(s);
    RemoveParent(s, s', t, o, q, m, u);
    var j := JobOf(s, u);
    OnwardSame(s, s', t, j);
    if Hits(s, j) {
      RemoveClear(s, s', t, o, q, m, s.leaves[j.leaf].into, j.key);
    }
  }

  lemma RemoveWorker(s: State, s': State, t: Tid, o: Id, q: Id, m: int, u: Tid)
    requires Inv(s) && Removes(s, s', t, o, q, m) && u != t && (JobOf(s, u).SplitUp? || JobOf(s, u).MergeUp?)
    ensures JobOk(s', u)
  {
    hide Inv, Removes, IsSep, IsUp, MergedInto, MergeUpOn, SplitUpOn, Uninserted, Unremoved, TreeOk;
    RemoveDoes(s, s', t, o, q, m);
    JobIs(s, u);
    var j := JobOf(s, u);
    NodeIn(j);
    RemovePending(s, s', t, o, q, m, j.mid);
    if j.SplitUp? && !IsLive(s, j.right) {
      IntoSame(s, s', t, j.mid, s.leaves[j.right].into);
    }
  }

  lemma RemoveJob(s: State, s': State, t: Tid, o: Id, q: Id, m: int, u: Tid)
    requires Inv(s) && Removes(s, s', t, o, q, m) && u != t
    ensures JobOk(s', u)
  {
    hide Inv, Removes, IsSep, IsUp, Uninserted, Unremoved, MergedInto, SplitUpOn, MergeUpOn, VisitOk, SplitUpOk, MergeUpOk, TreeOk;
    RemoveDoes(s, s', t, o, q, m);
    JobIs(s, u);
    Parts(s);
    match JobOf(s, u)
    case Visit(_, _, _, _, _, _, _, _, _, _) => RemoveVisit(s, s', t, o, q, m, u);
    case Splitting(_, _, mid) =>
      RemoveSep(s, s', t, o, q, m, mid);
      RemovePending(s, s', t, o, q, m, mid);
    case SplitUp(_, _, _, _, _, _) => RemoveWorker(s, s', t, o, q, m, u);
    case Merged(_, mid) =>
      RemoveSep(s, s', t, o, q, m, mid);
      RemovePending(s, s', t, o, q, m, mid);
      UpIs(s, t);
    case MergeUp(_, _, _, _, _, _) => RemoveWorker(s, s', t, o, q, m, u);
    case _ =>
  }

  lemma UpIs(s: State, t: Tid)
    requires JobOf(s, t).MergeUp?
    ensures MergeUpOn(s, JobOf(s, t).mid)
  {
  }

  lemma RemovesIs(s: State, s': State, t: Tid, q: Id)
    requires Inv(s) && Enabled(s, Remove(t, q)) && s' == Do(s, Remove(t, q))
    ensures Removes(s, s', t, JobOf(s, t).slot, q, JobOf(s, t).mid)
  {
    hide Inv, IsUp, Uninserted;
    JobIs(s, t);
    Parts(s);
    SlotFacts(s, JobOf(s, t).slot);
    SlotFacts(s, q);
  }

  lemma KeepRemove(s: State, t: Tid, q: Id)
    requires Inv(s) && Enabled(s, Remove(t, q))
    ensures Inv(Do(s, Remove(t, q)))
  {
    hide Inv, TreeOk, UpsOk, SepsOk, SlotsClear, LatchesOk, MakersOk, Removes;
    var s', o, m := Do(s, Remove(t, q)), JobOf(s, t).slot, JobOf(s, t).mid;
    RemovesIs(s, s', t, q);
    Parts(s);
    RemoveTree(s, s', t, o, q, m);
    RemoveRest(s, s', t, o, q, m);
    forall u ensures JobOk(s', u) {
      if u != t {
        RemoveJob(s, s', t, o, q, m, u);
      }
    }
    Whole(s');
  }
}
