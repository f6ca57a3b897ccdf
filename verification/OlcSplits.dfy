/** Splitting a node and putting its right half into the tree keep the invariant. */
module OlcSplits {
  import opened Options
  import opened Ordered
  import opened Olc
  import opened OlcInvariant
  import opened OlcSteps
  import opened OlcMoves
  import opened OlcEdits

  // ---------- halving a node ----------

  /** What halving node n by thread t does: r is the new node, x the old one. */
  ghost predicate Halves(s: State, s': State, t: Tid, n: Id, r: Id) {
    && n in s.nodes && r !in s.nodes && JobOf(s, t).Sure? && JobOf(s, t).at.id == n && JobOk(s, t, JobOf(s, t))
    && s'.leafMax == s.leafMax && s'.innerMax == s.innerMax && s'.root == s.root && s'.log == s.log
    && var x := s.nodes[n];
       var sep := Separator(x.body);
    && s'.nodes == s.nodes[n := x.(hi := Some(sep), body := LeftHalf(x.body))]
                          [r := Node(0, None, Some(t), x.level, Some(sep), x.hi, RightHalf(x.body))]
    && s'.jobs == s.jobs[t := Halved(JobOf(s, t).goal, JobOf(s, t).above, JobOf(s, t).at, r, sep)]
  }

  lemma HalveFrame(s: State, s': State, t: Tid, n: Id, r: Id)
    requires NodesOk(s) && Halves(s, s', t, n, r)
    ensures Frame(s, s', t)
  {
    hide Full, InSpan, AllFit, HoldsAbove;
    assert NodeOk(s, s.nodes[n]);
    forall m | m in s.nodes ensures NodeFrame(s.nodes[m], s'.nodes[m], t) {
    }
  }

  /** A full node can be split: both halves get keys, and the separator is strictly between its bounds. */
  lemma HalvesOk(s: State, x: Node, t: Tid)
    requires Sizes(s) && NodeOk(s, x) && Full(s, x.body)
    ensures Splittable(x.body) && Over(x.lo, Separator(x.body)) && (x.hi.None? || Separator(x.body) < x.hi.value)
  {
    var i := |x.body.keys| / 2;
    if x.body.Leaf? {
      assert InSpan(x, x.body.keys[i]) && InSpan(x, x.body.keys[i - 1]);
      assert x.body.keys[i - 1] < x.body.keys[i];
    } else {
      assert Over(x.lo, x.body.keys[i - 1]);
    }
  }

  lemma LeftOk(s: State, x: Node, y: Node)
    requires Sizes(s) && NodeOk(s, x) && Full(s, x.body)
    requires y == x.(hi := Some(Separator(x.body)), body := LeftHalf(x.body))
    ensures NodeOk(s, y)
  {
    HalvesOk(s, x, 0);
    var i := |x.body.keys| / 2;
    forall l | 0 <= l < |y.body.keys| ensures y.body.keys[l] == x.body.keys[l] {
    }
    if x.body.Leaf? {
      forall l | 0 <= l < |y.body.keys| ensures InSpan(y, y.body.keys[l]) {
        assert InSpan(x, x.body.keys[l]);
        assert l < i - 1 ==> x.body.keys[l] < x.body.keys[i - 1];
      }
    } else {
      forall l | 0 <= l < |y.body.keys| ensures Over(y.lo, y.body.keys[l]) && y.body.keys[l] < Separator(x.body) {
        assert Over(x.lo, x.body.keys[l]) && x.body.keys[l] < x.body.keys[i - 1];
      }
    }
  }

  lemma RightOk(s: State, x: Node, y: Node, t: Tid)
    requires Sizes(s) && NodeOk(s, x) && Full(s, x.body)
    requires y == Node(0, None, Some(t), x.level, Some(Separator(x.body)), x.hi, RightHalf(x.body))
    ensures NodeOk(s, y)
  {
    HalvesOk(s, x, t);
    var i := |x.body.keys| / 2;
    forall l | 0 <= l < |y.body.keys| ensures y.body.keys[l] == x.body.keys[i + l] && x.body.keys[i - 1] < x.body.keys[i + l] {
    }
    if x.body.Leaf? {
      forall l | 0 <= l < |y.body.keys| ensures InSpan(y, y.body.keys[l]) {
        assert InSpan(x, x.body.keys[i + l]);
      }
    } else {
      forall l | 0 <= l < |y.body.keys| ensures Over(y.lo, y.body.keys[l]) && (y.hi.None? || y.body.keys[l] < y.hi.value) {
        assert Over(x.lo, x.body.keys[i + l]);
      }
    }
  }

  /** The two halves divide the range of the node. */
  lemma HalfSpans(s: State, s': State, t: Tid, n: Id, r: Id, k: int)
    requires Sizes(s) && NodesOk(s) && Halves(s, s', t, n, r)
    ensures InSpan(s.nodes[n], k) <==> InSpan(s'.nodes[n], k) || InSpan(s'.nodes[r], k)
    ensures !(InSpan(s'.nodes[n], k) && InSpan(s'.nodes[r], k))
  {
    hide AllFit, HoldsAbove;
    assert NodeOk(s, s.nodes[n]);
    HalvesOk(s, s.nodes[n], t);
  }

  // ----- fitting -----

  /** The children of a held node that its holder is not splitting fit exactly. */
  lemma OwnExact(s: State, n: Id, i: int, t: Tid)
    requires Fits(s, n, i) && s.nodes[n].holder in {None, Some(t)} && !JobOf(s, t).Halved?
    ensures Exact(s, n, i)
  {
  }

  lemma LeftFits(s: State, s': State, t: Tid, n: Id, r: Id, i: int)
    requires Sizes(s) && NodesOk(s) && Halves(s, s', t, n, r) && s.nodes[n].body.Inner? && 0 <= i < |s'.nodes[n].body.kids|
    ensures Fits(s', n, i)
  {
    hide NodesOk, HoldsAbove, Torn;
    KidsOk(s, n);
    HalvesOk(s, s.nodes[n], t);
    assert Fits(s, n, i);
    OwnExact(s, n, i, t);
    var x, y := s.nodes[n], s'.nodes[n];
    assert y.body.kids[i] == x.body.kids[i] && y.body.kids[i] != n;
    assert Cut(y, i) == Cut(x, i) && Cut(y, i + 1) == Cut(x, i + 1);
  }

  lemma RightFits(s: State, s': State, t: Tid, n: Id, r: Id, i: int)
    requires Sizes(s) && NodesOk(s) && Halves(s, s', t, n, r) && s.nodes[n].body.Inner? && 0 <= i < |s'.nodes[r].body.kids|
    ensures Fits(s', r, i)
  {
    hide NodesOk, HoldsAbove, Torn;
    KidsOk(s, n);
    HalvesOk(s, s.nodes[n], t);
    var x, y := s.nodes[n], s'.nodes[r];
    var l := |x.body.keys| / 2 + i;
    assert Fits(s, n, l);
    OwnExact(s, n, l, t);
    assert y.body.kids[i] == x.body.kids[l] && y.body.kids[i] != n;
    assert Cut(y, i) == Cut(x, l) && Cut(y, i + 1) == Cut(x, l + 1);
  }

  lemma KidsOk(s: State, n: Id)
    requires NodesOk(s) && n in s.nodes
    ensures NodeOk(s, s.nodes[n])
    ensures s.nodes[n].body.Inner? ==> forall i :: 0 <= i < |s.nodes[n].body.kids| ==> Fits(s, n, i)
  {
    assert NodeOk(s, s.nodes[n]) && AllFit(s, n);
  }

  /** The parent of the node that is halved: the slot of the node is torn, the other slots are as they were. */
  lemma ParentSlot(s: State, n: Id, t: Tid, p: Id, k: int)
    requires NodesOk(s) && p in s.nodes && s.nodes[p].body.Inner? && InSpan(s.nodes[p], k) && n == Child(s.nodes[p].body, k)
    ensures Rank(s.nodes[p].body.keys, k) < |s.nodes[p].body.kids| && Fits(s, p, Rank(s.nodes[p].body.keys, k))
    ensures s.nodes[p].body.kids[Rank(s.nodes[p].body.keys, k)] == n
  {
    hide NodesOk, Fits;
    KidsOk(s, p);
  }

  /** Another node's slots do not see the halving. */
  lemma HalveFits(s: State, s': State, t: Tid, n: Id, r: Id, m: Id, i: int)
    requires Halves(s, s', t, n, r) && LocksOk(s) && m in s.nodes && m != n && Fits(s, m, i) && s.nodes[m].body.kids[i] != n
    requires s.nodes[m].holder.Some? && JobOf(s, s.nodes[m].holder.value).Halved? ==>
      HalvedOk(s, s.nodes[m].holder.value, JobOf(s, s.nodes[m].holder.value))
    ensures Fits(s', m, i)
  {
    hide LeftHalf, RightHalf, Separator, HoldsAbove, HeldBy, Full;
    var h := s.nodes[m].holder;
    if h.Some? && h != Some(t) {
      assert JobOf(s', h.value) == JobOf(s, h.value);
    }
  }

  /** In the parent, the slot of the halved node is torn. */
  lemma HalveTears(s: State, s': State, t: Tid, n: Id, r: Id, p: Id, i: int)
    requires Halves(s, s', t, n, r) && p in s.nodes && p != n && Fits(s, p, i) && s.nodes[p].body.kids[i] == n
    requires JobOf(s, t).above.Some? && JobOf(s, t).above.value.id == p
    ensures Fits(s', p, i) && Torn(s', p, i, JobOf(s', t))
  {
    hide LeftHalf, RightHalf, Separator, Full;
    OwnExact(s, p, i, t);
    assert s'.nodes[p] == s.nodes[p];
  }

  /** Only the parent a thread came from has the node it halves as a child. */
  lemma OnlyParent(s: State, s': State, t: Tid, n: Id, r: Id, m: Id, i: int)
    requires NodesOk(s) && LevelsOk(s) && Halves(s, s', t, n, r) && m in s.nodes && Fits(s, m, i)
    requires s.nodes[m].body.kids[i] == n
    ensures JobOf(s, t).above.Some? && JobOf(s, t).above.value.id == m && m != n
  {
    hide NodesOk, Torn, LeftHalf, RightHalf, Separator;
    var j := JobOf(s, t);
    if j.above.Some? {
      var p := j.above.value.id;
      ParentSlot(s, n, t, p, j.goal.key);
      OneParent(s, p, Rank(s.nodes[p].body.keys, j.goal.key), m, i);
    }
  }

  lemma HalveSlot(s: State, s': State, t: Tid, n: Id, r: Id, m: Id, i: int)
    requires NodesOk(s) && LevelsOk(s) && LocksOk(s) && JobsOk(s) && Halves(s, s', t, n, r) && m in s.nodes && m != n
    requires Fits(s, m, i)
    ensures Fits(s', m, i)
  {
    hide NodesOk, LevelsOk, LocksOk, JobOk, HalvedOk, Halves, Torn, Exact;
    if s.nodes[m].body.kids[i] == n {
      OnlyParent(s, s', t, n, r, m, i);
      HalveTears(s, s', t, n, r, m, i);
    } else {
      if s.nodes[m].holder.Some? && JobOf(s, s.nodes[m].holder.value).Halved? {
        HalvedIs(s, s.nodes[m].holder.value);
      }
      HalveFits(s, s', t, n, r, m, i);
    }
  }

  lemma HalvedIs(s: State, t: Tid)
    requires JobsOk(s) && JobOf(s, t).Halved?
    ensures HalvedOk(s, t, JobOf(s, t))
  {
    assert JobOk(s, t, JobOf(s, t));
  }

  /** What halving leaves alone, spelled out. */
  lemma HalveDoes(s: State, s': State, t: Tid, n: Id, r: Id)
    requires Halves(s, s', t, n, r)
    ensures s'.leafMax == s.leafMax && s'.innerMax == s.innerMax && s'.nodes.Keys == s.nodes.Keys + {r} && n != r
    ensures n in s.nodes && r !in s.nodes && Full(s, s.nodes[n].body)
    ensures forall m :: m in s.nodes && m != n ==> s'.nodes[m] == s.nodes[m]
    ensures s'.nodes[n] == s.nodes[n].(hi := Some(Separator(s.nodes[n].body)), body := LeftHalf(s.nodes[n].body))
    ensures s'.nodes[r] ==
      Node(0, None, Some(t), s.nodes[n].level, Some(Separator(s.nodes[n].body)), s.nodes[n].hi, RightHalf(s.nodes[n].body))
    ensures LeftHalf(s.nodes[n].body).Inner? == RightHalf(s.nodes[n].body).Inner? == s.nodes[n].body.Inner?
  {
    hide HoldsAbove;
  }

  lemma HalveNodes(s: State, s': State, t: Tid, n: Id, r: Id)
    requires Sizes(s) && NodesOk(s) && LevelsOk(s) && LocksOk(s) && JobsOk(s) && Halves(s, s', t, n, r)
    ensures NodesOk(s')
  {
    hide NodeOk, LevelsOk, LocksOk, JobOk, Halves, Fits, LeftHalf, RightHalf, Separator, Full;
    HalveDoes(s, s', t, n, r);
    forall m | m in s'.nodes ensures NodeOk(s', s'.nodes[m]) && AllFit(s', m) {
      if m == n {
        LeftOk(s, s.nodes[n], s'.nodes[n]);
        NodeOkSame(s, s', s'.nodes[n]);
        if s'.nodes[n].body.Inner? {
          forall i | 0 <= i < |s'.nodes[n].body.kids| ensures Fits(s', n, i) { LeftFits(s, s', t, n, r, i); }
        }
      } else if m == r {
        RightOk(s, s.nodes[n], s'.nodes[r], t);
        NodeOkSame(s, s', s'.nodes[r]);
        if s'.nodes[r].body.Inner? {
          forall i | 0 <= i < |s'.nodes[r].body.kids| ensures Fits(s', r, i) { RightFits(s, s', t, n, r, i); }
        }
      } else {
        NodeOkSame(s, s', s.nodes[m]);
        assert AllFit(s, m);
        if s.nodes[m].body.Inner? {
          forall i | 0 <= i < |s'.nodes[m].body.kids| ensures Fits(s', m, i) { HalveSlot(s, s', t, n, r, m, i); }
        }
      }
    }
  }

  lemma HalveRoot(s: State, s': State, t: Tid, n: Id, r: Id)
    requires NodesOk(s) && RootOk(s) && LevelsOk(s) && LocksOk(s) && JobsOk(s) && Halves(s, s', t, n, r)
    ensures RootOk(s')
  {
    hide NodesOk, LocksOk, LeftHalf, RightHalf, Separator, JobsOk;
    var j := JobOf(s, t);
    var h := s.nodes[s.root].holder;
    if n == s.root && j.above.Some? {
      ParentSlot(s, n, t, j.above.value.id, j.goal.key);
    }
    if h.Some? && h != Some(t) {
      assert JobOf(s', h.value) == JobOf(s, h.value);
      if JobOf(s, h.value).Halved? {
        HalvedIs(s, h.value);
      }
    }
  }

  lemma HalveLevels(s: State, s': State, t: Tid, n: Id, r: Id)
    requires Sizes(s) && NodesOk(s) && LevelsOk(s) && Halves(s, s', t, n, r)
    ensures LevelsOk(s')
  {
    hide NodeOk, AllFit, Halves, LeftHalf, RightHalf, Separator, Full;
    HalveDoes(s, s', t, n, r);
    assert s'.root == s.root by { RootOfHalves(s, s', t, n, r); }
    HalvesOk(s, s.nodes[n], t);
    forall a, b | a in s'.nodes && b in s'.nodes && a != b && s'.nodes[a].level == s'.nodes[b].level
      ensures Apart(s'.nodes[a], s'.nodes[b])
    {
      var a0, b0 := if a == r then n else a, if b == r then n else b;
      if a0 != b0 {
        assert Apart(s.nodes[a0], s.nodes[b0]);
      }
    }
  }

  lemma RootOfHalves(s: State, s': State, t: Tid, n: Id, r: Id)
    requires Halves(s, s', t, n, r)
    ensures s'.root == s.root && s'.log == s.log && (forall u :: u != t ==> JobOf(s', u) == JobOf(s, u))
    ensures JobOf(s', t).Halved? && JobOf(s', t).right == r && HeldBy(JobOf(s', t)) == HeldBy(JobOf(s, t))
    ensures JobOf(s, t).Sure? && s.nodes[n].maker.None?
  {
  }

  lemma HalveLocks(s: State, s': State, t: Tid, n: Id, r: Id)
    requires LocksOk(s) && Halves(s, s', t, n, r)
    ensures LocksOk(s')
  {
    hide HeldBy, Halves, LeftHalf, RightHalf, Separator, Full;
    HalveDoes(s, s', t, n, r);
    RootOfHalves(s, s', t, n, r);
    SameLocksOk(s, s', t);
  }

  // ----- contents -----

  lemma LeftGet(b: Body, k: int)
    requires b.Leaf? && Splittable(b) && Sorted(b.keys) && k <= Separator(b)
    ensures Get(LeftHalf(b), k) == Get(b, k)
  {
    var c := LeftHalf(b);
    var h := |b.keys| / 2;
    if k in b.keys {
      var i :| 0 <= i < |b.keys| && b.keys[i] == k;
      assert b.keys[h - 1] == Separator(b) && i < h;
      assert c.keys[i] == k && c.vals[i] == b.vals[i];
      GetSame(b, c, k, i, i);
    } else {
      GetNone(b, k);
      GetNone(c, k);
    }
  }

  lemma RightGet(b: Body, k: int)
    requires b.Leaf? && Splittable(b) && Sorted(b.keys) && k > Separator(b)
    ensures Get(RightHalf(b), k) == Get(b, k)
  {
    var c := RightHalf(b);
    var h := |b.keys| / 2;
    if k in b.keys {
      var i :| 0 <= i < |b.keys| && b.keys[i] == k;
      assert b.keys[h - 1] == Separator(b) && i >= h;
      assert c.keys[i - h] == k && c.vals[i - h] == b.vals[i];
      GetSame(b, c, k, i, i - h);
    } else {
      GetNone(b, k);
      assert k !in c.keys;
      GetNone(c, k);
    }
  }

  lemma HalveTells(s: State, s': State, t: Tid, n: Id, r: Id, m: Id)
    requires Sizes(s) && NodesOk(s) && Contents(s) && Halves(s, s', t, n, r) && m in s'.nodes
    ensures LeafTells(s', m)
  {
    hide AllFit, Halves, LeftHalf, RightHalf, Separator, Full, Get;
    HalveDoes(s, s', t, n, r);
    RootOfHalves(s, s', t, n, r);
    var m0 := if m == r then n else m;
    assert LeafTells(s, m0) && NodeOk(s, s.nodes[m0]);
    HalvesOk(s, s.nodes[n], t);
    if s'.nodes[m].body.Leaf? {
      forall k | InSpan(s'.nodes[m], k) ensures Get(s'.nodes[m].body, k) == Value(Replay(s'.log), k) {
        assert InSpan(s.nodes[m0], k) by { if m0 == n { HalfSpans(s, s', t, n, r, k); } }
        if m == n { LeftGet(s.nodes[n].body, k); }
        if m == r { RightGet(s.nodes[n].body, k); }
      }
    }
  }

  lemma HalveContents(s: State, s': State, t: Tid, n: Id, r: Id)
    requires Sizes(s) && NodesOk(s) && Contents(s) && Halves(s, s', t, n, r)
    ensures Contents(s')
  {
    hide NodesOk, Halves, LeafTells, LeftHalf, RightHalf, Separator, Full, InSpan;
    HalveDoes(s, s', t, n, r);
    forall m | m in s'.nodes ensures LeafTells(s', m) {
      HalveTells(s, s', t, n, r, m);
    }
    forall k ensures HasLeaf(s', k) {
      assert HasLeaf(s, k);
      var m :| IsLeafFor(s, m, k);
      HalfSpans(s, s', t, n, r, k);
      assert IsLeafFor(s', if m == n && !InSpan(s'.nodes[n], k) then r else m, k);
    }
  }

  // ----- the thread itself -----

  lemma HalvedJob(s: State, s': State, t: Tid, n: Id, r: Id)
    requires Sizes(s) && NodesOk(s) && RootOk(s) && LocksOk(s) && Halves(s, s', t, n, r)
    ensures HalvedOk(s', t, JobOf(s', t))
  {
    hide NodesOk, LocksOk, LeftHalf, RightHalf, Separator, Torn;
    var j := JobOf(s, t);
    assert NodeOk(s, s.nodes[n]) by { KidsOk(s, n); }
    HalvesOk(s, s.nodes[n], t);
    if j.above.Some? {
      var p := j.above.value.id;
      KidsOk(s, p);
      ParentSlot(s, n, t, p, j.goal.key);
      var i := Rank(s.nodes[p].body.keys, j.goal.key);
      assert p != n;
      HalveTears(s, s', t, n, r, p, i);
      OwnExact(s, p, i, t);
      RankIs(s.nodes[p].body.keys, Separator(s.nodes[n].body), i);
    } else {
      HalvedTop(s, s', t, n, r);
    }
  }

  lemma HalvedTop(s: State, s': State, t: Tid, n: Id, r: Id)
    requires RootOk(s) && Halves(s, s', t, n, r) && JobOf(s, t).above.None?
    ensures RootTorn(s', JobOf(s', t))
  {
  }

  lemma KeepHalve(s: State, t: Tid, r: Id)
    requires Inv(s) && Enabled(s, Halve(t, r))
    ensures Inv(Do(s, Halve(t, r)))
  {
    hide Inv, NodesOk, RootOk, LevelsOk, LocksOk, Contents, Legal, JobsOk, Frame, HalvedOk, LeftHalf, RightHalf, Separator;
    InvParts(s);
    JobIs(s, t);
    var s', n := Do(s, Halve(t, r)), JobOf(s, t).at.id;
    assert Halves(s, s', t, n, r);
    HalveFrame(s, s', t, n, r);
    HalveNodes(s, s', t, n, r);
    HalveRoot(s, s', t, n, r);
    HalveLevels(s, s', t, n, r);
    HalveLocks(s, s', t, n, r);
    HalveContents(s, s', t, n, r);
    HalvedJob(s, s', t, n, r);
    JobsFrame(s, s', t);
    InvWhole(s');
  }
}
