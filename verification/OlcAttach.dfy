/** Putting the right half of a split node into the tree keeps the invariant. */
module OlcAttach {
  import opened Options
  import opened Ordered
  import opened Olc
  import opened OlcInvariant
  import opened OlcSteps
  import opened OlcMoves
  import opened OlcEdits
  import opened OlcSplits

  // ---------- into the parent ----------

  /** What it does to put node r, cut off node n at sep, into parent p; i is the slot of n. */
  ghost predicate Attaches(s: State, s': State, t: Tid, p: Id, i: nat, n: Id, r: Id, sep: int) {
    && JobOf(s, t).Halved? && HalvedOk(s, t, JobOf(s, t)) && JobOf(s, t).above.Some?
    && var j := JobOf(s, t);
    && p == j.above.value.id && n == j.at.id && r == j.right && sep == j.sep && i == Rank(At(s, p).body.keys, sep)
    && p in s.nodes && n in s.nodes && r in s.nodes && p != n && p != r && n != r && s.nodes[p].body.Inner?
    && s'.leafMax == s.leafMax && s'.innerMax == s.innerMax && s'.root == s.root && s'.log == s.log
    && s'.nodes == s.nodes[r := s.nodes[r].(maker := None)]
                          [p := s.nodes[p].(body := WithChild(s.nodes[p].body, sep, r))]
    && s'.jobs == s.jobs[t := Attached(j.goal, j.above, j.at)]
  }

  lemma AttachFrame(s: State, s': State, t: Tid, p: Id, i: nat, n: Id, r: Id, sep: int)
    requires NodesOk(s) && Attaches(s, s', t, p, i, n, r, sep)
    ensures Frame(s, s', t)
  {
    hide AllFit, Torn;
    assert NodeOk(s, s.nodes[p]);
    forall m | m in s.nodes ensures NodeFrame(s.nodes[m], s'.nodes[m], t) {
    }
  }

  /** The separator is strictly between the bounds of the slot. */
  lemma SepBetween(s: State, t: Tid, p: Id, i: nat, n: Id, r: Id, sep: int)
    requires NodesOk(s) && n in s.nodes && r in s.nodes && JobOf(s, t).Halved? && Torn(s, p, i, JobOf(s, t))
    requires JobOf(s, t).at.id == n && JobOf(s, t).right == r && JobOf(s, t).sep == sep
    ensures p in s.nodes && Over(Cut(s.nodes[p], i), sep)
    ensures Cut(s.nodes[p], i + 1).None? || sep < Cut(s.nodes[p], i + 1).value
  {
    hide AllFit, LeafOk, InnerOk;
    assert NodeOk(s, s.nodes[n]) && NodeOk(s, s.nodes[r]);
  }

  lemma AttachDoes(s: State, s': State, t: Tid, p: Id, i: nat, n: Id, r: Id, sep: int)
    requires NodesOk(s) && Attaches(s, s', t, p, i, n, r, sep)
    ensures JobOf(s, t).Halved? && JobOf(s, t).at.id == n && JobOf(s, t).right == r && JobOf(s, t).sep == sep
    ensures Torn(s, p, i, JobOf(s, t)) && NodeOk(s, s.nodes[p]) && s.nodes[p].body.Inner?
    ensures |s.nodes[p].body.kids| == |s.nodes[p].body.keys| + 1 && i <= |s.nodes[p].body.keys|
    ensures s'.leafMax == s.leafMax && s'.innerMax == s.innerMax && s'.nodes.Keys == s.nodes.Keys && s'.root == s.root
    ensures s'.log == s.log && r in s.nodes && p in s.nodes && n in s.nodes && p != r && n != p && n != r
    ensures forall m :: m in s.nodes && m != p && m != r ==> s'.nodes[m] == s.nodes[m]
    ensures s'.nodes[r] == s.nodes[r].(maker := None) && s.nodes[r].level == s.nodes[n].level && s.nodes[r].maker == Some(t)
    ensures s'.nodes[p] == s.nodes[p].(body := Inner(InsertAt(s.nodes[p].body.keys, i, sep), InsertAt(s.nodes[p].body.kids, i + 1, r)))
    ensures s.nodes[p].holder == Some(t) && !Full(s, s.nodes[p].body)
    ensures JobOf(s', t).Attached? && (forall u :: u != t ==> JobOf(s', u) == JobOf(s, u))
  {
    hide Torn, AllFit;
    KidsOk(s, p);
  }

  lemma AttachParent(s: State, s': State, t: Tid, p: Id, i: nat, n: Id, r: Id, sep: int)
    requires NodesOk(s) && Attaches(s, s', t, p, i, n, r, sep)
    ensures NodeOk(s', s'.nodes[p])
  {
    hide NodesOk, Attaches;
    AttachDoes(s, s', t, p, i, n, r, sep);
    SepBetween(s, t, p, i, n, r, sep);
    var x, y := s.nodes[p], s'.nodes[p];
    forall a, b | 0 <= a < b < |y.body.keys| ensures y.body.keys[a] < y.body.keys[b] {
      assert a != i ==> y.body.keys[a] == x.body.keys[if a < i then a else a - 1];
      assert b != i ==> y.body.keys[b] == x.body.keys[if b < i then b else b - 1];
    }
    forall a | 0 <= a < |y.body.keys| ensures Over(y.lo, y.body.keys[a]) && (y.hi.None? || y.body.keys[a] < y.hi.value) {
      if a != i {
        var b := if a < i then a else a - 1;
        assert y.body.keys[a] == x.body.keys[b];
        assert Over(x.lo, x.body.keys[b]);
      } else {
        assert i > 0 ==> Over(x.lo, x.body.keys[i - 1]);
        assert i < |x.body.keys| ==> Over(x.lo, x.body.keys[i]);
      }
    }
  }

  /** The bounds of the parent's slots, with the separator put in. */
  lemma CutMore(x: Node, y: Node, i: nat, sep: int, a: int)
    requires x.body.Inner? && y.body.Inner? && i <= |x.body.keys| && y.body.keys == InsertAt(x.body.keys, i, sep)
    requires x.lo == y.lo && x.hi == y.hi
    ensures Cut(y, a) == if a <= i then Cut(x, a) else if a == i + 1 then Some(sep) else Cut(x, a - 1)
  {
  }

  /** The slot of the halved node is now exact, and so is the new one to its right. */
  lemma NewSlots(s: State, s': State, t: Tid, p: Id, i: nat, n: Id, r: Id, sep: int)
    requires NodesOk(s) && Attaches(s, s', t, p, i, n, r, sep)
    ensures s'.nodes[p].body.Inner? && Fits(s', p, i) && Fits(s', p, i + 1)
  {
    hide NodesOk, Attaches, NodeOk, Full;
    AttachDoes(s, s', t, p, i, n, r, sep);
    KidsOk(s, p);
    var x, y := s.nodes[p], s'.nodes[p];
    CutMore(x, y, i, sep, i);
    CutMore(x, y, i, sep, i + 1);
    CutMore(x, y, i, sep, i + 2);
    assert Fits(s, p, i);
    assert y.body.kids[i] == n && y.body.kids[i + 1] == r;
    assert Exact(s', p, i) && Exact(s', p, i + 1);
  }

  lemma OldSlot(s: State, s': State, t: Tid, p: Id, i: nat, n: Id, r: Id, sep: int, b: int)
    requires NodesOk(s) && LevelsOk(s) && Attaches(s, s', t, p, i, n, r, sep) && Fits(s, p, b) && b != i
    ensures Exact(s, p, b) && s.nodes[p].body.kids[b] !in {n, r, p}
  {
    hide NodesOk, LevelsOk, Attaches, NodeOk, Full;
    AttachDoes(s, s', t, p, i, n, r, sep);
    KidsOk(s, p);
    assert Fits(s, p, i);
    if s.nodes[p].body.kids[b] == n {
      OneParent(s, p, i, p, b);
    }
  }

  lemma AttachSlot(s: State, s': State, t: Tid, p: Id, i: nat, n: Id, r: Id, sep: int, a: int)
    requires NodesOk(s) && LevelsOk(s) && Attaches(s, s', t, p, i, n, r, sep) && 0 <= a < |s'.nodes[p].body.kids|
    ensures Fits(s', p, a)
  {
    hide NodesOk, LevelsOk, Attaches, Full, NodeOk, Torn, Cut;
    AttachDoes(s, s', t, p, i, n, r, sep);
    if a == i || a == i + 1 {
      NewSlots(s, s', t, p, i, n, r, sep);
    } else {
      KidsOk(s, p);
      var x, y := s.nodes[p], s'.nodes[p];
      CutMore(x, y, i, sep, a);
      CutMore(x, y, i, sep, a + 1);
      var b := if a <= i then a else a - 1;
      assert y.body.kids[a] == x.body.kids[b];
      assert Fits(s, p, b);
      OldSlot(s, s', t, p, i, n, r, sep, b);
    }
  }

  /** Another node's slots do not see the new child. */
  lemma AttachFits(s: State, s': State, t: Tid, p: Id, i: nat, n: Id, r: Id, sep: int, m: Id, a: int)
    requires NodesOk(s) && Attaches(s, s', t, p, i, n, r, sep) && m in s.nodes && m != p && Fits(s, m, a)
    requires s.nodes[m].holder.Some? && JobOf(s, s.nodes[m].holder.value).Halved? ==>
      HalvedOk(s, s.nodes[m].holder.value, JobOf(s, s.nodes[m].holder.value))
    ensures Fits(s', m, a)
  {
    hide NodesOk, Attaches;
    AttachDoes(s, s', t, p, i, n, r, sep);
    assert s.nodes[m].holder == Some(t) ==> !Torn(s, m, a, JobOf(s, t));
  }

  lemma AttachNodes(s: State, s': State, t: Tid, p: Id, i: nat, n: Id, r: Id, sep: int)
    requires NodesOk(s) && LevelsOk(s) && JobsOk(s) && Attaches(s, s', t, p, i, n, r, sep)
    ensures NodesOk(s')
  {
    hide NodeOk, LevelsOk, Attaches, Fits, Torn, HalvedOk, JobOk;
    AttachDoes(s, s', t, p, i, n, r, sep);
    AttachParent(s, s', t, p, i, n, r, sep);
    forall m | m in s'.nodes ensures NodeOk(s', s'.nodes[m]) && AllFit(s', m) {
      if m == p {
        forall a | 0 <= a < |s'.nodes[p].body.kids| ensures Fits(s', p, a) {
          AttachSlot(s, s', t, p, i, n, r, sep, a);
        }
      } else {
        Unmade(s, s', m);
        assert AllFit(s, m);
        if s.nodes[m].holder.Some? && JobOf(s, s.nodes[m].holder.value).Halved? {
          HalvedIs(s, s.nodes[m].holder.value);
        }
        if s.nodes[m].body.Inner? {
          forall a | 0 <= a < |s.nodes[m].body.kids| ensures Fits(s', m, a) {
            AttachFits(s, s', t, p, i, n, r, sep, m, a);
          }
        }
      }
    }
  }

  lemma Unmade(s: State, s': State, m: Id)
    requires m in s.nodes && m in s'.nodes && NodeOk(s, s.nodes[m]) && s'.leafMax == s.leafMax && s'.innerMax == s.innerMax
    requires s'.nodes[m] == s.nodes[m] || s'.nodes[m] == s.nodes[m].(maker := None)
    ensures NodeOk(s', s'.nodes[m])
  {
  }

  lemma AttachLevels(s: State, s': State, t: Tid, p: Id, i: nat, n: Id, r: Id, sep: int)
    requires NodesOk(s) && LevelsOk(s) && Attaches(s, s', t, p, i, n, r, sep)
    ensures LevelsOk(s')
  {
    hide NodesOk, Attaches, Torn, NodeOk, Full;
    AttachDoes(s, s', t, p, i, n, r, sep);
    forall m | m in s.nodes
      ensures s'.nodes[m].level == s.nodes[m].level && s'.nodes[m].lo == s.nodes[m].lo && s'.nodes[m].hi == s.nodes[m].hi
    {
    }
  }

  lemma AttachRoot(s: State, s': State, t: Tid, p: Id, i: nat, n: Id, r: Id, sep: int)
    requires NodesOk(s) && RootOk(s) && JobsOk(s) && Attaches(s, s', t, p, i, n, r, sep)
    ensures RootOk(s')
  {
    hide NodesOk, NodeOk, Attaches, Torn, JobsOk, Full;
    AttachDoes(s, s', t, p, i, n, r, sep);
    assert JobOf(s, t).above.Some? by { AboveIs(s, s', t, p, i, n, r, sep); }
    var h := s.nodes[s.root].holder;
    if h.Some? && JobOf(s, h.value).Halved? {
      HalvedIs(s, h.value);
    }
  }

  lemma AboveIs(s: State, s': State, t: Tid, p: Id, i: nat, n: Id, r: Id, sep: int)
    requires Attaches(s, s', t, p, i, n, r, sep)
    ensures JobOf(s, t).Halved? && JobOf(s, t).above.Some? && JobOf(s, t).right == r
    ensures HeldBy(JobOf(s', t)) == HeldBy(JobOf(s, t)) && JobOk(s', t, JobOf(s', t))
  {
  }

  lemma AttachLocks(s: State, s': State, t: Tid, p: Id, i: nat, n: Id, r: Id, sep: int)
    requires NodesOk(s) && LocksOk(s) && Attaches(s, s', t, p, i, n, r, sep)
    ensures LocksOk(s')
  {
    hide NodesOk, HeldBy, Attaches, Torn, NodeOk, Full;
    AttachDoes(s, s', t, p, i, n, r, sep);
    AboveIs(s, s', t, p, i, n, r, sep);
    SameLocksOk(s, s', t);
  }

  /** Contents depend on the leaves and the log alone. */
  lemma SameLeaves(s: State, s': State)
    requires Contents(s) && s'.log == s.log
    requires forall n :: n in s.nodes ==> n in s'.nodes
    requires forall n :: n in s.nodes && s.nodes[n].body.Leaf? ==> s'.nodes[n] == s.nodes[n].(maker := s'.nodes[n].maker)
    requires forall n :: n in s'.nodes && s'.nodes[n].body.Leaf? ==> n in s.nodes && s.nodes[n].body.Leaf?
    ensures Contents(s')
  {
    hide Get, Replay;
    forall n | n in s'.nodes ensures LeafTells(s', n) {
      if s'.nodes[n].body.Leaf? {
        assert LeafTells(s, n);
      }
    }
    forall k ensures HasLeaf(s', k) {
      assert HasLeaf(s, k);
      var n :| IsLeafFor(s, n, k);
      assert IsLeafFor(s', n, k);
    }
  }

  lemma AttachContents(s: State, s': State, t: Tid, p: Id, i: nat, n: Id, r: Id, sep: int)
    requires NodesOk(s) && Contents(s) && Attaches(s, s', t, p, i, n, r, sep)
    ensures Contents(s')
  {
    hide NodesOk, Contents, Attaches, Torn, NodeOk, Full;
    AttachDoes(s, s', t, p, i, n, r, sep);
    SameLeaves(s, s');
  }

  lemma KeepAttachUnder(s: State, t: Tid, top: Id)
    requires Inv(s) && Enabled(s, Attach(t, top)) && JobOf(s, t).above.Some?
    ensures Inv(Do(s, Attach(t, top)))
  {
    hide Inv, NodesOk, RootOk, LevelsOk, LocksOk, Contents, Legal, JobsOk, Frame, Attaches, HalvedOk, JobOk;
    InvParts(s);
    var j, s' := JobOf(s, t), Do(s, Attach(t, top));
    HalvedIs(s, t);
    var p, n, r, sep := j.above.value.id, j.at.id, j.right, j.sep;
    var i := Rank(At(s, p).body.keys, sep);
    AttachesIs(s, s', t, top);
    AttachFrame(s, s', t, p, i, n, r, sep);
    AttachNodes(s, s', t, p, i, n, r, sep);
    AttachRoot(s, s', t, p, i, n, r, sep);
    AttachLevels(s, s', t, p, i, n, r, sep);
    AttachLocks(s, s', t, p, i, n, r, sep);
    AttachContents(s, s', t, p, i, n, r, sep);
    AboveIs(s, s', t, p, i, n, r, sep);
    JobsFrame(s, s', t);
    InvWhole(s');
  }

  lemma AttachesIs(s: State, s': State, t: Tid, top: Id)
    requires NodesOk(s) && JobOf(s, t).Halved? && HalvedOk(s, t, JobOf(s, t)) && JobOf(s, t).above.Some?
    requires s' == DoAttach(s, t, top)
    ensures var j := JobOf(s, t);
      Attaches(s, s', t, j.above.value.id, Rank(At(s, j.above.value.id).body.keys, j.sep), j.at.id, j.right, j.sep)
  {
    hide NodesOk, WithChild;
    var j := JobOf(s, t);
    KidsOk(s, j.above.value.id);
    assert Fits(s, j.above.value.id, Rank(At(s, j.above.value.id).body.keys, j.sep));
  }

  // ---------- above the old root ----------

  /** What it does to put a new root, top, above the two halves n and r of the old one. */
  ghost predicate Raises(s: State, s': State, t: Tid, n: Id, r: Id, sep: int, top: Id) {
    && JobOf(s, t).Halved? && HalvedOk(s, t, JobOf(s, t)) && JobOf(s, t).above.None?
    && var j := JobOf(s, t);
    && n == j.at.id == s.root && r == j.right && sep == j.sep && n in s.nodes && r in s.nodes && n != r && top !in s.nodes
    && s'.leafMax == s.leafMax && s'.innerMax == s.innerMax && s'.root == top && s'.log == s.log
    && s'.nodes == s.nodes[r := s.nodes[r].(maker := None)]
                          [top := Node(0, None, None, s.nodes[n].level + 1, None, None, Inner([sep], [n, r]))]
    && s'.jobs == s.jobs[t := Attached(j.goal, j.above, j.at)]
  }

  lemma RaiseDoes(s: State, s': State, t: Tid, n: Id, r: Id, sep: int, top: Id)
    requires Raises(s, s', t, n, r, sep, top)
    ensures s'.leafMax == s.leafMax && s'.innerMax == s.innerMax && s'.nodes.Keys == s.nodes.Keys + {top}
    ensures s'.root == top && s'.log == s.log && n == s.root && n in s.nodes && r in s.nodes && n != r && top !in s.nodes
    ensures forall m :: m in s.nodes && m != r ==> s'.nodes[m] == s.nodes[m]
    ensures s'.nodes[r] == s.nodes[r].(maker := None) && s.nodes[r].level == s.nodes[n].level && s.nodes[r].maker == Some(t)
    ensures s'.nodes[top] == Node(0, None, None, s.nodes[n].level + 1, None, None, Inner([sep], [n, r]))
    ensures s.nodes[n].lo.None? && s.nodes[n].hi == Some(sep) && s.nodes[r].lo == Some(sep) && s.nodes[r].hi.None?
    ensures s.nodes[n].maker.None? && s.nodes[n].holder == Some(t)
    ensures JobOf(s', t).Attached? && (forall u :: u != t ==> JobOf(s', u) == JobOf(s, u))
    ensures JobOf(s, t).Halved? && JobOf(s, t).above.None? && HeldBy(JobOf(s', t)) == HeldBy(JobOf(s, t))
    ensures JobOf(s, t).right == r && JobOk(s', t, JobOf(s', t))
  {
  }

  lemma RaiseFrame(s: State, s': State, t: Tid, n: Id, r: Id, sep: int, top: Id)
    requires NodesOk(s) && Raises(s, s', t, n, r, sep, top)
    ensures Frame(s, s', t)
  {
    hide Raises, HeldBy, JobOk, AllFit, LeafOk, InnerOk;
    RaiseDoes(s, s', t, n, r, sep, top);
    assert NodeOk(s, s.nodes[r]);
    forall m | m in s.nodes ensures NodeFrame(s.nodes[m], s'.nodes[m], t) {
    }
  }

  lemma RaiseFits(s: State, s': State, t: Tid, n: Id, r: Id, sep: int, top: Id, m: Id, a: int)
    requires Raises(s, s', t, n, r, sep, top) && m in s.nodes && Fits(s, m, a)
    requires s.nodes[m].holder.Some? && JobOf(s, s.nodes[m].holder.value).Halved? ==>
      HalvedOk(s, s.nodes[m].holder.value, JobOf(s, s.nodes[m].holder.value))
    ensures Fits(s', m, a)
  {
    hide Raises, HeldBy, JobOk;
    RaiseDoes(s, s', t, n, r, sep, top);
    assert s.nodes[m].holder == Some(t) ==> !Torn(s, m, a, JobOf(s, t));
  }

  lemma RaiseNodes(s: State, s': State, t: Tid, n: Id, r: Id, sep: int, top: Id)
    requires Sizes(s) && NodesOk(s) && JobsOk(s) && Raises(s, s', t, n, r, sep, top)
    ensures NodesOk(s')
  {
    hide Raises, Fits, HalvedOk, JobOk, HeldBy, NodeOk;
    RaiseDoes(s, s', t, n, r, sep, top);
    RaiseTop(s, s', t, n, r, sep, top);
    forall m | m in s'.nodes ensures NodeOk(s', s'.nodes[m]) && AllFit(s', m) {
      if m != top {
        Unmade(s, s', m);
        assert AllFit(s, m);
        if s.nodes[m].holder.Some? && JobOf(s, s.nodes[m].holder.value).Halved? {
          HalvedIs(s, s.nodes[m].holder.value);
        }
        if s.nodes[m].body.Inner? {
          forall a | 0 <= a < |s.nodes[m].body.kids| ensures Fits(s', m, a) {
            RaiseFits(s, s', t, n, r, sep, top, m, a);
          }
        }
      }
    }
  }

  lemma RaiseTop(s: State, s': State, t: Tid, n: Id, r: Id, sep: int, top: Id)
    requires Sizes(s) && Raises(s, s', t, n, r, sep, top)
    ensures NodeOk(s', s'.nodes[top]) && AllFit(s', top)
  {
    hide Raises, HeldBy, JobOk;
    RaiseDoes(s, s', t, n, r, sep, top);
    assert s'.nodes[top].body.kids == [n, r];
    assert Exact(s', top, 0) && Exact(s', top, 1);
    assert Fits(s', top, 0) && Fits(s', top, 1);
  }

  lemma RaiseRest(s: State, s': State, t: Tid, n: Id, r: Id, sep: int, top: Id)
    requires NodesOk(s) && LevelsOk(s) && LocksOk(s) && Contents(s) && Raises(s, s', t, n, r, sep, top)
    ensures RootOk(s') && LevelsOk(s') && LocksOk(s') && Contents(s')
  {
    hide Raises, HeldBy, JobOk, NodesOk, LocksOk, Contents;
    RaiseDoes(s, s', t, n, r, sep, top);
    SameLeaves(s, s');
    RaiseLocks(s, s', t, n, r, sep, top);
  }

  lemma RaiseLocks(s: State, s': State, t: Tid, n: Id, r: Id, sep: int, top: Id)
    requires LocksOk(s) && Raises(s, s', t, n, r, sep, top)
    ensures LocksOk(s')
  {
    hide Raises, HeldBy, JobOk;
    RaiseDoes(s, s', t, n, r, sep, top);
    SameLocksOk(s, s', t);
  }

  lemma KeepRaise(s: State, t: Tid, top: Id)
    requires Inv(s) && Enabled(s, Attach(t, top)) && JobOf(s, t).above.None?
    ensures Inv(Do(s, Attach(t, top)))
  {
    hide Inv, NodesOk, RootOk, LevelsOk, LocksOk, Contents, Legal, JobsOk, Frame;
    InvParts(s);
    var j, s' := JobOf(s, t), Do(s, Attach(t, top));
    HalvedIs(s, t);
    assert Raises(s, s', t, j.at.id, j.right, j.sep, top);
    RaiseFrame(s, s', t, j.at.id, j.right, j.sep, top);
    RaiseNodes(s, s', t, j.at.id, j.right, j.sep, top);
    RaiseRest(s, s', t, j.at.id, j.right, j.sep, top);
    JobsFrame(s, s', t);
    InvWhole(s');
  }
}
