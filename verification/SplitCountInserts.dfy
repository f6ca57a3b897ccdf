/** Putting the bound of a split into the node above the leaves keeps the invariant of the split-count protocol. */
module SplitCountInserts {
  import opened Options
  import opened SplitCount
  import opened SplitCountInvariant
  import opened SplitCountSteps
  import opened SplitCountVisits
  import opened SplitCountNodes

  /** Thread t divides slot o at m: the upper part is the slot of leaf r. */
  ghost predicate Inserts(s: State, s': State, t: Tid, o: Id, r: Id, m: int) {
    && Enabled(s, Insert(t)) && s' == DoInsert(s, t) && JobOk(s, t) && Mine(s, t)
    && o == JobOf(s, t).slot && r == JobOf(s, t).right && m == JobOf(s, t).mid && r !in s.slots
  }

  lemma InsertDoes(s: State, s': State, t: Tid, o: Id, r: Id, m: int)
    requires Inserts(s, s', t, o, r, m)
    ensures o in s.slots && r !in s.slots && o != r && r in s.leaves && Strictly(s, o, m) && Node(s, s.slots[o].home).dirty
    ensures s.slots[o].home in s.parents && s.parents[s.slots[o].home].latch == Some(t)
    ensures JobOf(s, t).SplitUp? && !JobOf(s, t).holds && JobOf(s, t).mid == m && JobOf(s, t).right == r && JobOf(s, t).slot == o && JobOf(s, t).node == s.slots[o].home
    ensures s'.parents == s.parents && s'.leaves.Keys == s.leaves.Keys && OthersSame(s, s', t)
    ensures JobOf(s', t) == Inserted(JobOf(s, t).leaf, {JobOf(s, t).node})
    ensures s'.slots == s.slots[o := s.slots[o].(hi := Some(m))][r := Slot(s.slots[o].home, Some(m), s.slots[o].hi)]
    ensures forall x :: x in s.leaves && x != r ==> s'.leaves[x] == s.leaves[x]
    ensures s'.leaves[r] == s.leaves[r].(maker := None) && s.leaves[r].low == Some(m) && !s.leaves[r].hidden && s.leaves[r].maker == Some(t)
    ensures IsLive(s, r) ==> IsUp(s, m)
    ensures !IsLive(s, r) ==> MergedInto(s, m, s.leaves[r].into)
  {
    NodeIn(JobOf(s, t));
  }

  lemma InsertTree(s: State, s': State, t: Tid, o: Id, r: Id, m: int)
    requires TreeOk(s) && Inserts(s, s', t, o, r, m)
    ensures TreeOk(s')
  {
    hide Inserts, IsUp, MergedInto;
    InsertDoes(s, s', t, o, r, m);
    forall x | x in s'.leaves ensures LeafOk(s', x) {
      assert LeafOk(s, x);
    }
    forall x, y ensures LivesApart(s', x, y) {
      assert LivesApart(s, x, y);
    }
    InsertSlots(s, s', t, o, r, m);
  }

  lemma InsertSlots(s: State, s': State, t: Tid, o: Id, r: Id, m: int)
    requires TreeOk(s) && Inserts(s, s', t, o, r, m)
    ensures (forall q :: q in s'.slots ==> SlotOk(s', q)) && (forall q, p :: SlotsApart(s', q, p))
  {
    hide Inserts, IsUp, MergedInto, LeafOk, LivesApart;
    InsertDoes(s, s', t, o, r, m);
    assert SlotOk(s, o);
    forall q | q in s'.slots ensures SlotOk(s', q) {
      if q != r {
        assert SlotOk(s, q);
      }
    }
    forall q, p ensures SlotsApart(s', q, p) {
      assert SlotsApart(s, if q == r then o else q, if p == r then o else p);
    }
  }

  lemma InsertSep(s: State, s': State, t: Tid, o: Id, r: Id, m: int, k: int)
    requires Inserts(s, s', t, o, r, m)
    ensures IsSep(s', k) <==> IsSep(s, k) || k == m
  {
    hide Inserts, IsUp, MergedInto;
    InsertDoes(s, s', t, o, r, m);
    assert s'.slots[o].hi == Some(m);
    if IsSep(s, k) {
      var q :| q in s.slots && s.slots[q].hi == Some(k);
      assert s'.slots[if q == o then r else q].hi == Some(k);
    }
    if IsSep(s', k) {
      var q :| q in s'.slots && s'.slots[q].hi == Some(k);
      assert q != o ==> s.slots[if q == r then o else q].hi == Some(k);
    }
  }

  lemma InsertPending(s: State, s': State, t: Tid, o: Id, r: Id, m: int, k: int)
    requires Inserts(s, s', t, o, r, m)
    ensures Uninserted(s, k) ==> Uninserted(s', k) || k == m
    ensures Uninserted(s', k) ==> Uninserted(s, k)
    ensures Unremoved(s', k) == Unremoved(s, k) && MergeUpOn(s', k) == MergeUpOn(s, k) && (SplitUpOn(s', k) ==> SplitUpOn(s, k))
    ensures IsUp(s', k) == IsUp(s, k)
  {
    hide Inserts, MergedInto;
    InsertDoes(s, s', t, o, r, m);
    if Uninserted(s, k) && k != m {
      var u :| SplitAt(JobOf(s, u), k);
      assert SplitAt(JobOf(s', u), k);
    }
    if Uninserted(s', k) {
      var u :| SplitAt(JobOf(s', u), k);
      assert SplitAt(JobOf(s, u), k);
    }
    InsertUnremoved(s, s', t, k);
    if IsUp(s, k) {
      var x :| IsLive(s, x) && s.leaves[x].up == Some(k);
      assert IsLive(s', x);
    }
    if IsUp(s', k) {
      var x :| IsLive(s', x) && s'.leaves[x].up == Some(k);
      assert IsLive(s, x);
    }
  }

  lemma InsertUnremoved(s: State, s': State, t: Tid, k: int)
    requires OthersSame(s, s', t) && JobOf(s, t).SplitUp? && JobOf(s', t).Inserted?
    ensures Unremoved(s', k) == Unremoved(s, k) && MergeUpOn(s', k) == MergeUpOn(s, k) && (SplitUpOn(s', k) ==> SplitUpOn(s, k))
  {
    if Unremoved(s, k) {
      var u :| MergedAt(JobOf(s, u), k);
      assert MergedAt(JobOf(s', u), k);
    }
    if Unremoved(s', k) {
      var u :| MergedAt(JobOf(s', u), k);
      assert MergedAt(JobOf(s, u), k);
    }
    forall u ensures JobOf(s', u).MergeUp? <==> JobOf(s, u).MergeUp? {
    }
  }

  // ---------- what is clear stays clear ----------

  /** A bound strictly inside a leaf, under a merge into that leaf that waits for another bound, is not being inserted. */
  lemma NotInside(s: State, t: Tid, z: Id, m: int, k: int)
    requires Inv(s) && JobOf(s, t).SplitUp? && JobOf(s, t).mid == m && MergedInto(s, k, z) && IsLive(s, z) && Over(s.leaves[z].low, m)
    ensures m >= k
  {
    hide Inv, IsSep, Uninserted, Unremoved, MergeUpOn, SplitUpOn, TreeOk, VisitOk;
    var u :| JobOf(s, u).Merged? && JobOf(s, u).mid == k && JobOf(s, u).leaf == z;
    JobIs(s, u);
    JobIs(s, t);
    Parts(s);
    if m < k {
      NotUp(s, z, m);
      var v :| JobOf(s, v).Merged? && JobOf(s, v).mid == m && JobOf(s, v).leaf == s.leaves[JobOf(s, t).right].into;
      JobIs(s, v);
      OneAround(s, JobOf(s, v).leaf, z, m);
      LatchedBy(s, u, v, z);
    }
  }

  /** The slot into which a bound is inserted does not end at a bound about to be removed. */
  lemma NotEnding(s: State, s': State, t: Tid, o: Id, r: Id, m: int, k: int)
    requires Inv(s) && Inserts(s, s', t, o, r, m) && s.slots[o].hi == Some(k)
    ensures !MergeUpOn(s, k)
  {
    hide Inv, Inserts, IsSep, IsUp, MergedInto, Uninserted, Unremoved, SplitUpOn, TreeOk, VisitOk;
    InsertDoes(s, s', t, o, r, m);
    Parts(s);
    if MergeUpOn(s, k) {
      var u :| JobOf(s, u).MergeUp? && JobOf(s, u).mid == k;
      JobIs(s, u);
      SlotFacts(s, o);
      SlotFacts(s, JobOf(s, u).slot);
      OneSlot(s, o, JobOf(s, u).slot, k);
      NodeIn(JobOf(s, u));
    }
  }

  /** A new separator between the low bound of z and b does not come up, if the slot it divides ends below b. */
  lemma NotBetween(s: State, s': State, t: Tid, o: Id, r: Id, m: int, z: Id, b: int)
    requires Inv(s) && Inserts(s, s', t, o, r, m) && IsLive(s, z) && ClearedTo(s, z, b)
    requires s.slots[o].hi.Some? && s.slots[o].hi.value < b
    ensures !Over(s.leaves[z].low, m)
  {
    hide Inv, Inserts, IsUp, MergeUpOn, Uninserted, Unremoved, SplitUpOn, MergedInto;
    InsertDoes(s, s', t, o, r, m);
    var k := s.slots[o].hi.value;
    assert IsSep(s, k);
    if Over(s.leaves[z].low, m) {
      NotEnding(s, s', t, o, r, m, k);
      NotInside(s, t, z, m, k);
    }
  }

  lemma InsertClear(s: State, s': State, t: Tid, o: Id, r: Id, m: int, z: Id, b: int)
    requires Inv(s) && Inserts(s, s', t, o, r, m) && z in s.leaves && ClearedTo(s, z, b) && (m < b ==> !Over(s.leaves[z].low, m))
    ensures ClearedTo(s', z, b)
  {
    hide Inv, Inserts, IsSep, IsUp, MergeUpOn, Uninserted, Unremoved, SplitUpOn, MergedInto;
    InsertDoes(s, s', t, o, r, m);
    forall k | IsSep(s', k) && Over(At(s', z).low, k) && k < b ensures MergeUpOn(s', k) || MergedInto(s', k, z) {
      InsertSep(s, s', t, o, r, m, k);
      InsertPending(s, s', t, o, r, m, k);
      if MergedInto(s, k, z) {
        IntoSame(s, s', t, k, z);
      }
    }
  }

  /** The new slot is clear: if its leaf has been merged away, the merge waits for the new bound. */
  lemma NewClear(s: State, s': State, t: Tid, o: Id, r: Id, m: int)
    requires Inv(s) && Inserts(s, s', t, o, r, m)
    ensures SlotClear(s', r)
  {
    hide Inv, Inserts, IsSep, IsUp, MergeUpOn, Uninserted, Unremoved, SplitUpOn, MergedInto;
    InsertDoes(s, s', t, o, r, m);
    Parts(s);
    LeafFacts(s, r);
    var z := s.leaves[r].into;
    forall k | IsSep(s', k) && Over(At(s', z).low, k) && k < m + 1 ensures MergeUpOn(s', k) || MergedInto(s', k, z) {
      InsertSep(s, s', t, o, r, m, k);
      InsertPending(s, s', t, o, r, m, k);
      IntoSame(s, s', t, m, z);
      if k != m {
        MergedInside(s, m, z);
        InsideSep(s, z, k);
        if MergedInto(s, k, z) {
          IntoSame(s, s', t, k, z);
        }
      }
    }
  }

  lemma MergedInside(s: State, m: int, z: Id)
    requires Inv(s) && MergedInto(s, m, z)
    ensures Inside(s, z, m)
  {
    hide Inv, IsSep, MergeUpOn, Uninserted;
    var u :| JobOf(s, u).Merged? && JobOf(s, u).mid == m && JobOf(s, u).leaf == z;
    JobIs(s, u);
  }

  lemma InsertSlot(s: State, s': State, t: Tid, o: Id, r: Id, m: int, q: Id)
    requires Inv(s) && Inserts(s, s', t, o, r, m)
    ensures SlotClear(s', q)
  {
    hide Inv, Inserts, IsUp, ClearedTo, MergedInto;
    InsertDoes(s, s', t, o, r, m);
    Parts(s);
    assert SlotClear(s, q);
    if q == r {
      NewClear(s, s', t, o, r, m);
    } else if q in s.slots && s.slots[q].lo.Some? {
      SlotFacts(s, q);
      var z, b := s.leaves[q].into, s.slots[q].lo.value + 1;
      assert SlotsApart(s, o, q);
      if m < b {
        NotBetween(s, s', t, o, r, m, z, b);
      }
      InsertClear(s, s', t, o, r, m, z, b);
    }
  }

  lemma InsertRest(s: State, s': State, t: Tid, o: Id, r: Id, m: int)
    requires Inv(s) && Inserts(s, s', t, o, r, m)
    ensures UpsOk(s') && SepsOk(s') && SlotsClear(s') && LatchesOk(s') && MakersOk(s')
  {
    hide Inv, Inserts, IsSep, IsUp, Uninserted, Unremoved, MergeUpOn, SplitUpOn, LeafLatches, NodeLatches, SlotClear, TreeOk, MergedInto;
    InsertDoes(s, s', t, o, r, m);
    Parts(s);
    forall k ensures (IsUp(s', k) ==> IsSep(s', k) || Uninserted(s', k)) && (IsSep(s', k) ==> IsUp(s', k) || Unremoved(s', k)) {
      InsertSep(s, s', t, o, r, m, k);
      InsertPending(s, s', t, o, r, m, k);
      InsertedIs(s, s', t, o, r, m);
    }
    forall q ensures SlotClear(s', q) {
      InsertSlot(s, s', t, o, r, m, q);
    }
    InsertLatches(s, s', t, o, r, m);
  }

  /** The new separator is a high key, or a merge has yet to remove it. */
  lemma InsertedIs(s: State, s': State, t: Tid, o: Id, r: Id, m: int)
    requires Inserts(s, s', t, o, r, m)
    ensures IsUp(s, m) || Unremoved(s, m)
  {
    hide Inserts, IsUp;
    InsertDoes(s, s', t, o, r, m);
    if !IsLive(s, r) {
      var u :| JobOf(s, u).Merged? && JobOf(s, u).mid == m && JobOf(s, u).leaf == s.leaves[r].into;
      assert MergedAt(JobOf(s, u), m);
    }
  }

  lemma InsertLatches(s: State, s': State, t: Tid, o: Id, r: Id, m: int)
    requires LatchesOk(s) && Inserts(s, s', t, o, r, m)
    ensures LatchesOk(s')
  {
    hide Inserts, LeafLatches, NodeLatches, IsUp, MergedInto;
    InsertDoes(s, s', t, o, r, m);
    LeafLatchesSame(s, s', t);
    NodeLatchesSame(s, s', t);
  }

  // ---------- the threads ----------

  /** Nobody who finds the parent unchanged was given the slot that is divided. */
  lemma NotGiven(s: State, t: Tid, o: Id, u: Tid)
    requires Inv(s) && JobOf(s, u).Visit? && Hits(s, JobOf(s, u)) && o in s.slots && s.slots[o].home in s.parents
    requires s.parents[s.slots[o].home].latch == Some(t) && s.parents[s.slots[o].home].dirty && !JobOf(s, t).Up?
    ensures JobOf(s, u).from != o
  {
    hide Inv, PlaceOk, ReadOk, TreeOk;
    JobIs(s, u);
    Parts(s);
    var j := JobOf(s, u);
    if j.from == o && s.slots[o].home != j.parent {
      var w := s.parents[j.parent].latch.value;
      NodeIn(JobOf(s, w));
      MineIs(s, w);
    }
  }

  lemma InsertParent(s: State, s': State, t: Tid, o: Id, r: Id, m: int, u: Tid)
    requires Inv(s) && Inserts(s, s', t, o, r, m) && u != t && JobOf(s, u).Visit? && ParentOk(s, JobOf(s, u))
    ensures ParentOk(s', JobOf(s, u))
  {
    hide Inv, Inserts, IsUp, MergedInto;
    InsertDoes(s, s', t, o, r, m);
    var j := JobOf(s, u);
    if Hits(s, j) {
      NotGiven(s, t, o, u);
      if s.slots[j.from].home != j.parent {
        assert Handing(s, j.parent, s.slots[j.from].home) && s.parents[j.parent].latch != Some(t);
      }
    }
  }

  lemma InsertPlace(s: State, s': State, t: Tid, o: Id, r: Id, m: int, u: Tid)
    requires Inv(s) && Inserts(s, s', t, o, r, m) && u != t && JobOf(s, u).Visit? && ParentOk(s, JobOf(s, u)) && PlaceOk(s, JobOf(s, u))
    ensures PlaceOk(s', JobOf(s, u))
  {
    hide Inv, Inserts, ClearedTo, IsUp, MergedInto;
    InsertDoes(s, s', t, o, r, m);
    Parts(s);
    var j := JobOf(s, u);
    LeafFacts(s, j.leaf);
    if Hits(s, j) {
      NotGiven(s, t, o, u);
      InsertVisitClear(s, s', t, o, r, m, j.from, s.leaves[j.leaf].into, j.key);
    }
  }

  lemma InsertVisit(s: State, s': State, t: Tid, o: Id, r: Id, m: int, u: Tid)
    requires Inv(s) && Inserts(s, s', t, o, r, m) && u != t && JobOf(s, u).Visit?
    ensures VisitOk(s', u, JobOf(s, u))
  {
    hide Inv, Inserts, ParentOk, PlaceOk, IsUp, MergedInto, OnwardOk;
    InsertDoes(s, s', t, o, r, m);
    JobIs(s, u);
    InsertParent(s, s', t, o, r, m, u);
    InsertPlace(s, s', t, o, r, m, u);
    InsertOnward(s, s', t, o, r, m, u);
  }

  /** Nobody who finds the parent unchanged is at the right part of the split that is inserted by a latch-free step. */
  lemma InsertOnward(s: State, s': State, t: Tid, o: Id, r: Id, m: int, u: Tid)
    requires Inv(s) && Inserts(s, s', t, o, r, m) && u != t && JobOf(s, u).Visit? && OnwardOk(s, JobOf(s, u))
    ensures OnwardOk(s', JobOf(s, u))
  {
    hide Inv, Inserts, IsUp, MergedInto;
    InsertDoes(s, s', t, o, r, m);
    var j := JobOf(s, u);
    if j.mode.Onward? && Hits(s, j) {
      NotGiven(s, t, o, u);
      assert s.leaves[j.leaf].maker != Some(t);
    }
  }

  lemma InsertVisitClear(s: State, s': State, t: Tid, o: Id, r: Id, m: int, q: Id, z: Id, key: int)
    requires Inv(s) && Inserts(s, s', t, o, r, m) && IsLive(s, z) && ClearedTo(s, z, key) && InSlot(s, q, key) && q != o
    ensures ClearedTo(s', z, key)
  {
    hide Inv, Inserts, ClearedTo, IsUp, MergedInto;
    InsertDoes(s, s', t, o, r, m);
    Parts(s);
    assert SlotsApart(s, o, q);
    if m < key {
      NotBetween(s, s', t, o, r, m, z, key);
    }
    InsertClear(s, s', t, o, r, m, z, key);
  }

  lemma InsertSplitting(s: State, s': State, t: Tid, o: Id, r: Id, m: int, u: Tid)
    requires Inv(s) && Inserts(s, s', t, o, r, m) && u != t && JobOf(s, u).Splitting?
    ensures SplitOk(s', u, JobOf(s, u))
  {
    hide Inv, Inserts, IsSep, IsUp, MergedInto, MergeUpOn, Uninserted, Unremoved;
    InsertDoes(s, s', t, o, r, m);
    JobIs(s, u);
    InsertSep(s, s', t, o, r, m, JobOf(s, u).mid);
    InsertPending(s, s', t, o, r, m, JobOf(s, u).mid);
    assert JobOf(s, u).mid == m ==> SplitUpOn(s, m);
  }

  lemma InsertSplitUp(s: State, s': State, t: Tid, o: Id, r: Id, m: int, u: Tid)
    requires Inv(s) && Inserts(s, s', t, o, r, m) && u != t && JobOf(s, u).SplitUp?
    ensures SplitUpOk(s', u, JobOf(s, u))
  {
    hide Inv, Inserts, IsSep, IsUp, MergedInto, MergeUpOn, SplitUpOn, Uninserted, Unremoved;
    InsertDoes(s, s', t, o, r, m);
    JobIs(s, u);
    var j := JobOf(s, u);
    NodeIn(j);
    InsertPending(s, s', t, o, r, m, j.mid);
    if !IsLive(s, j.right) {
      IntoSame(s, s', t, j.mid, s.leaves[j.right].into);
    }
  }

  lemma InsertMergeUp(s: State, s': State, t: Tid, o: Id, r: Id, m: int, u: Tid)
    requires Inv(s) && Inserts(s, s', t, o, r, m) && u != t && JobOf(s, u).MergeUp?
    ensures MergeUpOk(s', u, JobOf(s, u))
  {
    hide Inv, Inserts, IsSep, IsUp, MergedInto, MergeUpOn, SplitUpOn, Uninserted, Unremoved, TreeOk;
    InsertDoes(s, s', t, o, r, m);
    JobIs(s, u);
    Parts(s);
    NodeIn(JobOf(s, u));
    InsertPending(s, s', t, o, r, m, JobOf(s, u).mid);
    NotSep(s, o, m);
    MergeUpSep(s, u);
  }

  lemma MergeUpSep(s: State, u: Tid)
    requires JobOf(s, u).MergeUp? && MergeUpOk(s, u, JobOf(s, u))
    ensures IsSep(s, JobOf(s, u).mid)
  {
    hide IsUp, Uninserted;
  }

  lemma InsertJob(s: State, s': State, t: Tid, o: Id, r: Id, m: int, u: Tid)
    requires Inv(s) && Inserts(s, s', t, o, r, m) && u != t
    ensures JobOk(s', u)
  {
    hide Inv, Inserts, IsSep, IsUp, Uninserted, Unremoved, MergedInto, MergeUpOn, SplitUpOn, VisitOk, SplitUpOk, SplitOk, MergeUpOk;
    InsertDoes(s, s', t, o, r, m);
    JobIs(s, u);
    match JobOf(s, u)
    case Visit(_, _, _, _, _, _, _, _, _, _) => InsertVisit(s, s', t, o, r, m, u);
    case Splitting(_, _, _) => InsertSplitting(s, s', t, o, r, m, u);
    case SplitUp(_, _, _, _, _, _) => InsertSplitUp(s, s', t, o, r, m, u);
    case Merged(_, mid) =>
      InsertSep(s, s', t, o, r, m, mid);
      InsertPending(s, s', t, o, r, m, mid);
    case MergeUp(_, _, _, _, _, _) => InsertMergeUp(s, s', t, o, r, m, u);
    case _ =>
  }

  lemma InsertsIs(s: State, s': State, t: Tid)
    requires Inv(s) && Enabled(s, Insert(t)) && s' == Do(s, Insert(t))
    ensures var j := JobOf(s, t); Inserts(s, s', t, j.slot, j.right, j.mid)
  {
    hide Inv, IsUp, MergedInto;
    JobIs(s, t);
    Parts(s);
    var r := JobOf(s, t).right;
    if r in s.slots {
      SlotFacts(s, r);
    }
  }

  lemma KeepInsert(s: State, t: Tid)
    requires Inv(s) && Enabled(s, Insert(t))
    ensures Inv(Do(s, Insert(t)))
  {
    hide Inv, TreeOk, UpsOk, SepsOk, SlotsClear, LatchesOk, MakersOk, JobOk, Inserts;
    var s', o, r, m := Do(s, Insert(t)), JobOf(s, t).slot, JobOf(s, t).right, JobOf(s, t).mid;
    InsertsIs(s, s', t);
    Parts(s);
    InsertTree(s, s', t, o, r, m);
    InsertRest(s, s', t, o, r, m);
    forall u ensures JobOk(s', u) {
      if u == t {
        InserterOk(s, s', t, o, r, m);
      } else {
        InsertJob(s, s', t, o, r, m, u);
      }
    }
    Whole(s');
  }

  lemma InserterOk(s: State, s': State, t: Tid, o: Id, r: Id, m: int)
    requires Inv(s) && Inserts(s, s', t, o, r, m)
    ensures JobOk(s', t)
  {
    hide Inv, Inserts, IsUp, MergedInto, IsSep;
    InsertDoes(s, s', t, o, r, m);
    JobIs(s, t);
  }
}
