/** The steps that change the log, a leaf or the shape of the tree keep the invariant. */
module OlcEdits {
  import opened Options
  import opened Ordered
  import opened Olc
  import opened OlcInvariant
  import opened OlcSteps
  import opened OlcMoves

  // ---------- one leaf ----------

  lemma GetAt(b: Body, i: nat)
    requires b.Leaf? && |b.keys| == |b.vals| && Sorted(b.keys) && i < |b.keys|
    ensures Get(b, b.keys[i]) == Some(b.vals[i])
  {
    RankIs(b.keys, b.keys[i], i);
  }

  lemma GetNone(b: Body, k: int)
    requires k !in b.keys
    ensures Get(b, k) == None
  {
  }

  lemma GetSame(b: Body, c: Body, k: int, i: nat, l: nat)
    requires b.Leaf? && |b.keys| == |b.vals| && Sorted(b.keys) && c.Leaf? && |c.keys| == |c.vals| && Sorted(c.keys)
    requires i < |b.keys| && l < |c.keys| && b.keys[i] == k == c.keys[l] && b.vals[i] == c.vals[l]
    ensures Get(b, k) == Get(c, k)
  {
    GetAt(b, i);
    GetAt(c, l);
  }

  lemma PairSorted(b: Body, k: int, v: int)
    requires b.Leaf? && |b.keys| == |b.vals| && Sorted(b.keys)
    ensures var c := WithPair(b, k, v); c.Leaf? && |c.keys| == |c.vals| <= |b.keys| + 1 && Sorted(c.keys)
    ensures forall i :: 0 <= i < |WithPair(b, k, v).keys| ==> WithPair(b, k, v).keys[i] == k || WithPair(b, k, v).keys[i] in b.keys
  {
    var c := WithPair(b, k, v);
    var p := Rank(b.keys, k);
    forall i, l | 0 <= i < l < |c.keys| ensures c.keys[i] < c.keys[l] {
      if c.keys != b.keys {
        assert i != p ==> c.keys[i] == b.keys[if i < p then i else i - 1];
        assert l != p ==> c.keys[l] == b.keys[if l < p then l else l - 1];
      }
    }
  }

  /** Where the old pairs of a leaf are once a pair has been stored. */
  lemma PairPlaces(b: Body, k: int, v: int)
    requires b.Leaf? && |b.keys| == |b.vals| && Sorted(b.keys)
    ensures var c, p := WithPair(b, k, v), Rank(b.keys, k);
      && c.Leaf? && |c.keys| == |c.vals| && Sorted(c.keys) && p < |c.keys| && c.keys[p] == k && c.vals[p] == v
      && (forall i :: 0 <= i < |b.keys| && b.keys[i] != k ==>
           var l := if c.keys == b.keys || i < p then i else i + 1;
           l < |c.keys| && c.keys[l] == b.keys[i] && c.vals[l] == b.vals[i])
  {
    PairSorted(b, k, v);
  }

  /** Storing a pair changes what the leaf says of that key and of no other. */
  lemma PairGet(b: Body, k: int, v: int, x: int)
    requires b.Leaf? && |b.keys| == |b.vals| && Sorted(b.keys)
    ensures Get(WithPair(b, k, v), x) == if x == k then Some(v) else Get(b, x)
  {
    hide Get, WithPair, Sorted;
    var c := WithPair(b, k, v);
    var p := Rank(b.keys, k);
    PairPlaces(b, k, v);
    if x == k {
      GetAt(c, p);
    } else if x in b.keys {
      var i :| 0 <= i < |b.keys| && b.keys[i] == x;
      GetSame(b, c, x, i, if c.keys == b.keys || i < p then i else i + 1);
    } else {
      PairSorted(b, k, v);
      GetNone(b, x);
      GetNone(c, x);
    }
  }

  lemma ReplayMore(log: seq<Event>, e: Event)
    ensures Replay(log + [e]) == if e.Stored? then Replay(log)[e.key := e.val] else Replay(log)
  {
    assert (log + [e])[..|log|] == log;
  }

  lemma LegalMore(log: seq<Event>, e: Event)
    requires Legal(log) && (e.Answered? ==> e.result == Value(Replay(log), e.key))
    ensures Legal(log + [e])
  {
    var more := log + [e];
    forall i | 0 <= i < |more| && more[i].Answered? ensures more[i].result == Value(Replay(more[..i]), more[i].key) {
      if i < |log| {
        assert more[..i] == log[..i];
      } else {
        assert more[..i] == log;
      }
    }
  }

  // ---------- returning an answer ----------

  lemma Answer(s: State, s': State, e: Event)
    requires Inv(s) && e.Answered? && e.result == Value(Replay(s.log), e.key) && s' == s.(log := s.log + [e])
    ensures Inv(s')
  {
    hide Inv, NodesOk, RootOk, LocksOk, Contents, Legal, JobsOk, Replay;
    InvParts(s);
    LegalMore(s.log, e);
    AnswerJobs(s, s');
    AnswerContents(s, s', e);
    RootSame(s, s');
    InvWhole(s');
  }

  lemma AnswerJobs(s: State, s': State)
    requires JobsOk(s) && NodesOk(s) && LocksOk(s) && s' == s.(log := s'.log)
    ensures JobsOk(s') && NodesOk(s') && LocksOk(s')
  {
    hide JobOk, NodeOk, AllFit, HeldBy;
    forall t ensures JobOk(s', t, JobOf(s', t)) {
      assert JobOk(s, t, JobOf(s, t));
      JobOkSame(s, s', t, JobOf(s, t));
    }
    forall n | n in s'.nodes ensures NodeOk(s', s'.nodes[n]) && AllFit(s', n) {
      NodeSame(s, s', n);
    }
    forall t ensures JobOf(s', t) == JobOf(s, t) {
    }
  }

  lemma AnswerContents(s: State, s': State, e: Event)
    requires Contents(s) && e.Answered? && s' == s.(log := s.log + [e])
    ensures Contents(s')
  {
    hide Get, Replay;
    ReplayMore(s.log, e);
    forall n | n in s'.nodes ensures LeafTells(s', n) {
      assert LeafTells(s, n);
    }
    forall k ensures HasLeaf(s', k) {
      assert HasLeaf(s, k);
      var n :| IsLeafFor(s, n, k);
      assert IsLeafFor(s', n, k);
    }
  }

  lemma NodeSame(s: State, s': State, n: Id)
    requires n in s.nodes && NodeOk(s, s.nodes[n]) && AllFit(s, n)
    requires s'.nodes == s.nodes && s'.jobs == s.jobs && s'.leafMax == s.leafMax && s'.innerMax == s.innerMax
    ensures NodeOk(s', s'.nodes[n]) && AllFit(s', n)
  {
    if s.nodes[n].body.Inner? {
      forall i | 0 <= i < |s.nodes[n].body.kids| ensures Fits(s', n, i) {
        assert Fits(s, n, i);
      }
    }
  }

  lemma RootSame(s: State, s': State)
    requires RootOk(s) && s'.nodes == s.nodes && s'.jobs == s.jobs && s'.root == s.root
    ensures RootOk(s')
  {
  }

  /** A leaf that is unchanged since its word was seen, with the key in its range, tells what the map holds. */
  lemma LeafKnows(s: State, at: Spot, k: int)
    requires Inv(s) && KnownLeaf(s, at) && InSpan(At(s, at.id), k)
    ensures Get(At(s, at.id).body, k) == Value(Replay(s.log), k)
  {
    assert LeafTells(s, at.id);
  }

  lemma KeepReturn(s: State, t: Tid)
    requires Inv(s) && Enabled(s, Return(t))
    ensures Inv(Do(s, Return(t)))
  {
    hide Inv;
    JobIs(s, t);
    var j := JobOf(s, t);
    if Hits(s, j.at) {
      LeafKnows(s, j.at, j.goal.key);
      KeepStart(s, t, Idle);
      Answer(SetJob(s, t, Idle), Do(s, Return(t)), Answered(t, j.goal.key, j.result));
    } else {
      KeepStart(s, t, Starting(j.goal));
    }
  }

  // ---------- storing a pair ----------

  /** What the store of a pair by thread t in leaf n does. */
  ghost predicate Stores(s: State, s': State, t: Tid, n: Id, k: int, v: int) {
    && n in s.nodes && s.nodes[n].holder == Some(t) && s.nodes[n].maker.None? && s.nodes[n].body.Leaf?
    && InSpan(s.nodes[n], k) && !Full(s, s.nodes[n].body)
    && JobOf(s, t).Writable? && JobOf(s, t).at.id == n
    && s'.leafMax == s.leafMax && s'.innerMax == s.innerMax && s'.root == s.root
    && s'.nodes == s.nodes[n := s.nodes[n].(body := WithPair(s.nodes[n].body, k, v))]
    && s'.jobs == s.jobs[t := Written(JobOf(s, t).goal, JobOf(s, t).at)] && s'.log == s.log + [Stored(t, k, v)]
  }

  lemma StoreFrame(s: State, s': State, t: Tid, n: Id, k: int, v: int)
    requires NodesOk(s) && Stores(s, s', t, n, k, v)
    ensures Frame(s, s', t)
  {
    hide Full, InSpan, AllFit;
    assert NodeOk(s, s.nodes[n]);
    forall m | m in s.nodes ensures NodeFrame(s.nodes[m], s'.nodes[m], t) {
    }
  }

  lemma StoreLeaf(s: State, s': State, t: Tid, n: Id, k: int, v: int)
    requires NodesOk(s) && Stores(s, s', t, n, k, v)
    ensures NodeOk(s', s'.nodes[n])
  {
    hide AllFit, WithPair;
    var x, y := s.nodes[n], s'.nodes[n];
    assert NodeOk(s, x);
    PairSorted(x.body, k, v);
    forall i | 0 <= i < |y.body.keys| ensures InSpan(y, y.body.keys[i]) {
      if y.body.keys[i] != k {
        var l :| 0 <= l < |x.body.keys| && x.body.keys[l] == y.body.keys[i];
        assert InSpan(x, x.body.keys[l]);
      }
    }
  }

  lemma StoreNodes(s: State, s': State, t: Tid, n: Id, k: int, v: int)
    requires NodesOk(s) && Stores(s, s', t, n, k, v)
    ensures NodesOk(s')
  {
    hide WithPair, NodeOk;
    StoreLeaf(s, s', t, n, k, v);
    PairKind(s.nodes[n].body, k, v);
    forall m | m in s'.nodes ensures NodeOk(s', s'.nodes[m]) && AllFit(s', m) {
      assert NodeOk(s, s.nodes[m]) && AllFit(s, m);
      if m != n {
        NodeOkSame(s, s', s.nodes[m]);
        if s.nodes[m].body.Inner? {
          forall i | 0 <= i < |s.nodes[m].body.kids| ensures Fits(s', m, i) {
            StoreFits(s, s', t, n, k, v, m, i);
          }
        }
      }
    }
  }

  lemma NodeOkSame(s: State, s': State, x: Node)
    requires NodeOk(s, x) && s'.leafMax == s.leafMax && s'.innerMax == s.innerMax
    ensures NodeOk(s', x)
  {
  }

  lemma StoreFits(s: State, s': State, t: Tid, n: Id, k: int, v: int, m: Id, i: int)
    requires Stores(s, s', t, n, k, v) && m != n && Fits(s, m, i)
    ensures Fits(s', m, i)
  {
    hide WithPair;
    var h := s.nodes[m].holder;
    if h.Some? && h != Some(t) {
      assert JobOf(s', h.value) == JobOf(s, h.value);
    }
  }

  lemma StoreRoot(s: State, s': State, t: Tid, n: Id, k: int, v: int)
    requires RootOk(s) && LevelsOk(s) && Stores(s, s', t, n, k, v)
    ensures RootOk(s') && LevelsOk(s')
  {
    hide WithPair, Full;
    var h := s.nodes[s.root].holder;
    if h.Some? && h != Some(t) {
      assert JobOf(s', h.value) == JobOf(s, h.value);
    }
  }

  /** An edit under locks changes no lock. */
  ghost predicate SameLocks(s: State, s': State, t: Tid) {
    && (forall u :: u != t ==> JobOf(s', u) == JobOf(s, u))
    && HeldBy(JobOf(s', t)) == HeldBy(JobOf(s, t))
    && (forall n :: n in s.nodes ==> n in s'.nodes && s'.nodes[n].holder == s.nodes[n].holder)
    && (forall n :: n in s'.nodes && n !in s.nodes ==> s'.nodes[n].holder.None?)
    && (forall n, u :: n in s'.nodes && s'.nodes[n].maker == Some(u) ==> JobOf(s', u).Halved? && JobOf(s', u).right == n)
  }

  lemma SameLocksOk(s: State, s': State, t: Tid)
    requires LocksOk(s) && SameLocks(s, s', t)
    ensures LocksOk(s')
  {
    hide HeldBy;
  }

  lemma StoreLocks(s: State, s': State, t: Tid, n: Id, k: int, v: int)
    requires LocksOk(s) && Stores(s, s', t, n, k, v)
    ensures LocksOk(s')
  {
    hide WithPair, Full;
    assert HeldBy(JobOf(s', t)) == HeldBy(JobOf(s, t));
    SameLocksOk(s, s', t);
  }

  lemma StoreTells(s: State, s': State, t: Tid, n: Id, k: int, v: int, m: Id)
    requires NodesOk(s) && LevelsOk(s) && Stores(s, s', t, n, k, v) && m in s.nodes && LeafTells(s, m)
    ensures LeafTells(s', m)
  {
    hide WithPair, Get, AllFit;
    ReplayMore(s.log, Stored(t, k, v));
    assert NodeOk(s, s.nodes[n]) && NodeOk(s, s.nodes[m]);
    if s'.nodes[m].body.Leaf? {
      forall x | InSpan(s'.nodes[m], x) ensures Get(s'.nodes[m].body, x) == Value(Replay(s'.log), x) {
        assert InSpan(s.nodes[m], x);
        if m == n {
          PairGet(s.nodes[n].body, k, v, x);
        }
      }
    }
  }

  lemma StoreContents(s: State, s': State, t: Tid, n: Id, k: int, v: int)
    requires NodesOk(s) && LevelsOk(s) && Contents(s) && Stores(s, s', t, n, k, v)
    ensures Contents(s')
  {
    hide LeafTells, NodeOk, AllFit;
    forall m | m in s'.nodes ensures LeafTells(s', m) {
      StoreTells(s, s', t, n, k, v, m);
    }
    PairKind(s.nodes[n].body, k, v);
    forall x ensures HasLeaf(s', x) {
      assert HasLeaf(s, x);
      var m :| IsLeafFor(s, m, x);
      assert IsLeafFor(s', m, x);
    }
  }

  lemma PairKind(b: Body, k: int, v: int)
    ensures b.Leaf? ==> WithPair(b, k, v).Leaf?
  {
  }

  lemma KeepWrite(s: State, t: Tid)
    requires Inv(s) && Enabled(s, Write(t))
    ensures Inv(Do(s, Write(t)))
  {
    hide Inv, NodesOk, RootOk, LevelsOk, LocksOk, Contents, Legal, JobsOk, Frame;
    InvParts(s);
    JobIs(s, t);
    var j, s' := JobOf(s, t), Do(s, Write(t));
    var n, k, v := j.at.id, j.goal.key, j.goal.val;
    assert Stores(s, s', t, n, k, v);
    StoreFrame(s, s', t, n, k, v);
    StoreNodes(s, s', t, n, k, v);
    StoreRoot(s, s', t, n, k, v);
    StoreLocks(s, s', t, n, k, v);
    StoreContents(s, s', t, n, k, v);
    LegalMore(s.log, Stored(t, k, v));
    JobsFrame(s, s', t);
    InvWhole(s');
  }

  lemma InvWhole(s: State)
    requires Sizes(s) && NodesOk(s) && RootOk(s) && LevelsOk(s) && LocksOk(s) && Contents(s) && Legal(s.log) && JobsOk(s)
    ensures Inv(s)
  {
  }
}
