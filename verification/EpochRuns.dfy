/**
 Every step of epoch-based reclamation keeps its invariant, and so no run frees a node too early or twice.
 */
module EpochRuns {
  import opened Options
  import opened Epoch

  // ---------- one thread changes ----------

  /** Thread t, registered before or now, has changed; the other threads have not. */
  ghost predicate OneThread(s: State, s': State, t: Tid) {
    && t in s'.threads && s'.threads == s.threads[t := s'.threads[t]]
  }

  function Old(s: State, t: Tid): Thread {
    if t in s.threads then s.threads[t] else Thread(Some(0), Out, [], 0, 0, 0)
  }

  lemma Others(s: State, s': State, t: Tid)
    requires OneThread(s, s', t)
    ensures forall u :: u != t ==> JobOf(s', u) == JobOf(s, u) && LabelsOf(s', u) == LabelsOf(s, u)
    ensures JobOf(s', t) == s'.threads[t].job && LabelsOf(s', t) == s'.threads[t].labels
    ensures JobOf(s, t) == Old(s, t).job && LabelsOf(s, t) == Old(s, t).labels
  {
  }

  /** A thread goes on with the same nodes in its hands and its list. */
  lemma NodesSame(s: State, s': State, t: Tid)
    requires NodesOk(s) && OneThread(s, s', t) && s'.linked == s.linked && s'.made == s.made && s'.freed == s.freed
    requires MineOf(JobOf(s', t)) == MineOf(JobOf(s, t)) && LabelsOf(s', t) == LabelsOf(s, t)
    requires JobOf(s', t).Retiring? ==> JobOf(s', t).node !in JobOf(s', t).mine
    ensures NodesOk(s')
  {
    hide MineOf, JobOf, LabelsOf, Flat;
    Others(s, s', t);
    forall u ensures MineOf(JobOf(s', u)) == MineOf(JobOf(s, u)) && LabelsOf(s', u) == LabelsOf(s, u) {
    }
  }

  /** A thread gives up nodes it may touch, or keeps them along with its published epoch. */
  lemma RefsFewer(s: State, s': State, t: Tid)
    requires RefsOk(s) && OneThread(s, s', t) && s'.made == s.made && s'.freed == s.freed && LabelsOf(s', t) == LabelsOf(s, t)
    requires RefsOf(s'.threads[t].job) == {} || (t in s.threads && RefsOf(s'.threads[t].job) == RefsOf(s.threads[t].job) && s'.threads[t].local == s.threads[t].local)
    requires !s'.threads[t].job.Retiring?
    ensures RefsOk(s')
  {
    hide RefsOf;
    Others(s, s', t);
    forall u, v, l, n ensures Guarded(s', u, v, l, n) {
      assert Guarded(s, u, v, l, n);
    }
  }

  lemma ScanFewer(s: State, s': State, t: Tid)
    requires (forall a, u, n :: ScanOk(s, a, u, n)) && OneThread(s, s', t) && LabelsOf(s', t) == LabelsOf(s, t)
    requires RefsOf(s'.threads[t].job) == {} || (t in s.threads && RefsOf(s'.threads[t].job) == RefsOf(s.threads[t].job) && s'.threads[t].local == s.threads[t].local)
    requires s'.threads[t].job.Scanning? || s'.threads[t].job.Sweeping? ==> forall u, n :: ScanOk(s', t, u, n)
    ensures forall a, u, n :: ScanOk(s', a, u, n)
  {
    hide RefsOf;
    forall a, u, n ensures ScanOk(s', a, u, n) {
      assert ScanOk(s, a, u, n);
    }
  }

  lemma EpochsOne(s: State, s': State, t: Tid)
    requires EpochsOk(s) && OneThread(s, s', t) && s'.epoch >= s.epoch && EpochOk(s'.epoch, s'.threads[t])
    ensures EpochsOk(s')
  {
    hide EpochOk;
    forall u | u in s'.threads ensures EpochOk(s'.epoch, s'.threads[u]) {
      if u != t {
        assert EpochOk(s.epoch, s.threads[u]);
        EpochLater(s.epoch, s'.epoch, s.threads[u]);
      }
    }
  }

  lemma EpochLater(e: nat, e': nat, x: Thread)
    requires EpochOk(e, x) && e <= e'
    ensures EpochOk(e', x)
  {
  }

  /** Steps that move no node: entering, leaving, scanning and ending a sweep. */
  predicate Quiet(st: Step) {
    st.Register? || st.EnterLoad? || st.EnterStore? || st.Exit? || st.ExitQuiet? || st.ExitEmpty? || st.ExitScan? || st.ScanOne? || st.ScanEnd? || st.SweepEnd?
  }

  lemma QuietDoes(s: State, st: Step)
    requires Enabled(s, st) && Quiet(st)
    ensures var s', t := Do(s, st), st.t;
            && OneThread(s, s', t) && s'.linked == s.linked && s'.made == s.made && s'.freed == s.freed && s'.epoch >= s.epoch
            && MineOf(JobOf(s', t)) == MineOf(JobOf(s, t)) == {} && LabelsOf(s', t) == LabelsOf(s, t)
            && RefsOf(JobOf(s', t)) == {} && !JobOf(s', t).Retiring?
  {
  }

  lemma QuietEpoch(s: State, st: Step)
    requires EpochsOk(s) && Enabled(s, st) && Quiet(st)
    ensures st.t in Do(s, st).threads && EpochOk(Do(s, st).epoch, Do(s, st).threads[st.t])
  {
    if st.t in s.threads {
      assert EpochOk(s.epoch, s.threads[st.t]);
    }
  }

  /** Scanning a thread bounds the scan by its epoch. */
  lemma ScanStep(s: State, st: Step, u: Tid, n: Id)
    requires (forall a, v, m :: ScanOk(s, a, v, m)) && Enabled(s, st) && (st.ExitScan? || st.ScanOne? || st.ScanEnd?)
    ensures ScanOk(Do(s, st), st.t, u, n)
  {
    assert ScanOk(s, st.t, u, n);
  }

  lemma KeepQuiet(s: State, st: Step)
    requires Inv(s) && Enabled(s, st) && Quiet(st)
    ensures Inv(Do(s, st))
  {
    hide NodesOk, EpochsOk, RefsOk, ScanOk, EpochOk, Do, Enabled;
    var s', t := Do(s, st), st.t;
    QuietDoes(s, st);
    QuietEpoch(s, st);
    NodesSame(s, s', t);
    EpochsOne(s, s', t);
    RefsFewer(s, s', t);
    if s'.threads[t].job.Scanning? || s'.threads[t].job.Sweeping? {
      QuietScans(s, st);
      forall u, n ensures ScanOk(s', t, u, n) {
        ScanStep(s, st, u, n);
      }
    }
    ScanFewer(s, s', t);
  }

  lemma QuietScans(s: State, st: Step)
    requires Enabled(s, st) && Quiet(st) && st.t in Do(s, st).threads
    requires Do(s, st).threads[st.t].job.Scanning? || Do(s, st).threads[st.t].job.Sweeping?
    ensures st.ExitScan? || st.ScanOne? || st.ScanEnd?
  {
  }

  // ---------- nodes come and go ----------

  lemma MakeNodes(s: State, s': State, n: Id)
    requires NodesOk(s) && n !in s.made && s' == Do(s, Make(n))
    ensures NodesOk(s')
  {
    hide Flat, MineOf, JobOf, LabelsOf;
    MakeSame(s, s', n);
  }

  lemma MakeSame(s: State, s': State, n: Id)
    requires s' == Do(s, Make(n))
    ensures forall t :: JobOf(s', t) == JobOf(s, t) && LabelsOf(s', t) == LabelsOf(s, t)
  {
  }

  lemma KeepMake(s: State, n: Id)
    requires Inv(s) && Enabled(s, Make(n))
    ensures Inv(Do(s, Make(n)))
  {
    hide NodesOk, Flat, MineOf, RefsOf, EpochOk;
    var s' := Do(s, Make(n));
    MakeNodes(s, s', n);
    MakeSame(s, s', n);
    forall u, t, l, m ensures Guarded(s', u, t, l, m) {
      assert Guarded(s, u, t, l, m);
    }
    forall t, u, m ensures ScanOk(s', t, u, m) {
      assert ScanOk(s, t, u, m);
    }
  }

  lemma InFlat(ls: seq<Label>, l: Label, n: Id)
    requires l in ls && n in l.nodes
    ensures n in Flat(ls)
  {
    if ls[0] != l {
      InFlat(ls[1..], l, n);
    }
  }

  lemma AcquireRefs(s: State, s': State, t: Tid, n: Id)
    requires RefsOk(s) && NodesOk(s) && Enabled(s, Acquire(t, n)) && s' == Do(s, Acquire(t, n))
    ensures RefsOk(s')
  {
    hide Flat, NodesOk;
    LinkedNowhere(s, n);
    assert OneThread(s, s', t);
    Others(s, s', t);
    forall u, v, l, m ensures Guarded(s', u, v, l, m) {
      assert Guarded(s, u, v, l, m);
      if l in LabelsOf(s, v) && n in l.nodes {
        InFlat(LabelsOf(s, v), l, n);
      }
    }
    forall u, v | u in s'.threads && v in s'.threads && s'.threads[v].job.Retiring? && s'.threads[v].job.node in RefsOf(s'.threads[u].job)
      ensures s'.threads[u].local.Some? && s'.threads[u].local.value <= s'.threads[v].job.e
    {
      assert s'.threads[v].job.node in MineOf(JobOf(s, v));
    }
  }

  lemma AcquireScan(s: State, s': State, t: Tid, n: Id)
    requires (forall v, u, m :: ScanOk(s, v, u, m)) && NodesOk(s) && Enabled(s, Acquire(t, n)) && s' == Do(s, Acquire(t, n))
    ensures forall v, u, m :: ScanOk(s', v, u, m)
  {
    hide Flat, NodesOk;
    LinkedNowhere(s, n);
    forall v, u, m ensures ScanOk(s', v, u, m) {
      assert ScanOk(s, v, u, m);
      assert n !in Flat(LabelsOf(s, v));
    }
  }

  /** A thread gets hold of a linked node: no list has it. */
  lemma KeepAcquire(s: State, t: Tid, n: Id)
    requires Inv(s) && Enabled(s, Acquire(t, n))
    ensures Inv(Do(s, Acquire(t, n)))
  {
    hide NodesOk, EpochsOk, RefsOk, ScanOk, Flat, EpochOk;
    var s' := Do(s, Acquire(t, n));
    assert OneThread(s, s', t);
    NodesSame(s, s', t);
    MyEpoch(s, t);
    EpochSame(s.epoch, s.threads[t], s'.threads[t]);
    EpochsOne(s, s', t);
    AcquireRefs(s, s', t, n);
    AcquireScan(s, s', t, n);
  }

  lemma LabelsAre(s: State, t: Tid)
    requires t in s.threads
    ensures LabelsOf(s, t) == s.threads[t].labels
  {
  }

  lemma MyEpoch(s: State, t: Tid)
    requires EpochsOk(s) && t in s.threads
    ensures EpochOk(s.epoch, s.threads[t])
  {
  }

  lemma EpochSame(e: nat, x: Thread, x': Thread)
    requires EpochOk(e, x) && x.job.In? && x'.job.In? && x' == x.(job := x'.job)
    ensures EpochOk(e, x')
  {
  }

  /** What the invariant says of a linked node. */
  lemma LinkedNowhere(s: State, n: Id)
    requires NodesOk(s) && n in s.linked
    ensures n in s.made && n !in s.freed
    ensures forall t :: n !in Flat(LabelsOf(s, t)) && n !in MineOf(JobOf(s, t))
  {
    hide Flat, MineOf, LabelsOf, JobOf;
  }

  lemma KeepUnlink(s: State, t: Tid, n: Id)
    requires Inv(s) && Enabled(s, Unlink(t, n))
    ensures Inv(Do(s, Unlink(t, n)))
  {
    hide NodesOk, EpochsOk, RefsOk, Flat, EpochOk, ScanOk;
    var s' := Do(s, Unlink(t, n));
    assert OneThread(s, s', t);
    MyEpoch(s, t);
    EpochSame(s.epoch, s.threads[t], s'.threads[t]);
    EpochsOne(s, s', t);
    UnlinkNodes(s, s', t, n);
    RefsFewer(s, s', t);
    ScanFewer(s, s', t);
  }

  lemma UnlinkNodes(s: State, s': State, t: Tid, n: Id)
    requires NodesOk(s) && Enabled(s, Unlink(t, n)) && s' == Do(s, Unlink(t, n))
    ensures NodesOk(s')
  {
    hide Flat, LabelsOf, JobOf, MineOf;
    UnlinkDoes(s, s', t, n);
    LinkedNowhere(s, n);
  }

  lemma UnlinkDoes(s: State, s': State, t: Tid, n: Id)
    requires Enabled(s, Unlink(t, n)) && s' == Do(s, Unlink(t, n))
    ensures s'.linked == s.linked - {n} && s'.made == s.made && s'.freed == s.freed && n in s.linked
    ensures forall u :: LabelsOf(s', u) == LabelsOf(s, u) && (u != t ==> JobOf(s', u) == JobOf(s, u))
    ensures MineOf(JobOf(s', t)) == MineOf(JobOf(s, t)) + {n} && JobOf(s', t).In?
  {
  }

  /** Loading the global epoch for a node to retire: whoever may touch the node has an epoch no later. */
  lemma KeepRetireLoad(s: State, t: Tid, n: Id)
    requires Inv(s) && Enabled(s, RetireLoad(t, n))
    ensures Inv(Do(s, RetireLoad(t, n)))
  {
    hide NodesOk, EpochsOk, RefsOk, Flat, EpochOk, ScanOk;
    var s' := Do(s, RetireLoad(t, n));
    assert OneThread(s, s', t);
    MyEpoch(s, t);
    RetireLoadEpoch(s.epoch, s.threads[t], s'.threads[t]);
    EpochsOne(s, s', t);
    NodesSame(s, s', t);
    RetireLoadRefs(s, s', t, n);
    ScanFewer(s, s', t);
  }

  lemma RetireLoadEpoch(e: nat, x: Thread, x': Thread)
    requires EpochOk(e, x) && x.job.In? && x'.job.Retiring? && x'.job.e == e && x' == x.(job := x'.job)
    ensures EpochOk(e, x')
  {
  }

  lemma RetireLoadRefs(s: State, s': State, t: Tid, n: Id)
    requires RefsOk(s) && EpochsOk(s) && Enabled(s, RetireLoad(t, n)) && s' == Do(s, RetireLoad(t, n))
    ensures RefsOk(s')
  {
    hide Flat;
    forall u, v, l, m ensures Guarded(s', u, v, l, m) {
      assert Guarded(s, u, v, l, m);
    }
    forall u | u in s'.threads && n in RefsOf(s'.threads[u].job) ensures s'.threads[u].local.Some? && s'.threads[u].local.value <= s.epoch {
      assert EpochOk(s.epoch, s.threads[u]);
    }
  }

  // ---------- adding to the list ----------

  lemma DistinctInsert(a: seq<Id>, n: Id, c: seq<Id>)
    requires Distinct(a + c) && n !in a + c
    ensures Distinct(a + [n] + c)
  {
    var p, q := a + c, a + [n] + c;
    forall i | 0 <= i < |q| ensures q[i] == if i < |a| then p[i] else if i == |a| then n else p[i - 1] {
    }
    forall i, k | 0 <= i < k < |q| ensures q[i] != q[k] {
      if i != |a| && k != |a| {
        assert p[if i < |a| then i else i - 1] != p[if k < |a| then k else k - 1];
      }
    }
  }

  lemma AddFlat(ls: seq<Label>, n: Id, e: nat)
    ensures forall m :: m in Flat(AddNode(ls, n, e)) <==> m in Flat(ls) || m == n
    ensures |Flat(AddNode(ls, n, e))| == |Flat(ls)| + 1
    ensures n !in Flat(ls) && Distinct(Flat(ls)) ==> Distinct(Flat(AddNode(ls, n, e)))
  {
    var q := AddNode(ls, n, e);
    if ls != [] && |ls[0].nodes| < LABEL_SIZE {
      assert q[1..] == ls[1..];
      assert Flat(q) == ls[0].nodes + [n] + Flat(ls[1..]);
      if n !in Flat(ls) && Distinct(Flat(ls)) {
        DistinctInsert(ls[0].nodes, n, Flat(ls[1..]));
      }
    } else {
      assert q[1..] == ls;
      assert Flat(q) == [] + [n] + Flat(ls);
      if n !in Flat(ls) && Distinct(Flat(ls)) {
        assert [] + Flat(ls) == Flat(ls);
        DistinctInsert([], n, Flat(ls));
      }
    }
  }

  lemma AddLabels(ls: seq<Label>, n: Id, e: nat, l: Label)
    requires l in AddNode(ls, n, e)
    ensures l in ls || (l.epoch == e && forall m :: m in l.nodes && m != n ==> ls != [] && m in ls[0].nodes)
  {
  }

  lemma RetireAddDoes(s: State, s': State, t: Tid)
    requires Enabled(s, RetireAdd(t)) && s' == Do(s, RetireAdd(t))
    ensures OneThread(s, s', t) && s'.linked == s.linked && s'.made == s.made && s'.freed == s.freed && s'.epoch == s.epoch
    ensures t in s.threads && s.threads[t].job.Retiring?
    ensures var x := s.threads[t];
            s'.threads[t] == Thread(x.local, In(x.job.refs, x.job.mine), AddNode(x.labels, x.job.node, x.job.e), x.threshold + 1, x.added + 1, x.deleted)
  {
  }

  lemma RetireAddNodes(s: State, s': State, t: Tid)
    requires NodesOk(s) && Enabled(s, RetireAdd(t)) && s' == Do(s, RetireAdd(t))
    ensures NodesOk(s')
  {
    hide Flat, AddNode, Do;
    RetireAddDoes(s, s', t);
    Others(s, s', t);
    var x := s.threads[t];
    AddFlat(x.labels, x.job.node, x.job.e);
    assert x.job.node in MineOf(JobOf(s, t));
  }

  lemma RetireAddRefs(s: State, s': State, t: Tid)
    requires RefsOk(s) && EpochsOk(s) && Enabled(s, RetireAdd(t)) && s' == Do(s, RetireAdd(t))
    ensures RefsOk(s')
  {
    hide Flat, AddNode, Do;
    RetireAddDoes(s, s', t);
    Others(s, s', t);
    var x := s.threads[t];
    assert EpochOk(s.epoch, x);
    forall u, v, l, m ensures Guarded(s', u, v, l, m) {
      assert Guarded(s, u, v, l, m);
      if v == t && l in LabelsOf(s', t) && m in l.nodes {
        AddLabels(x.labels, x.job.node, x.job.e, l);
        if l !in x.labels && m != x.job.node {
          assert Guarded(s, u, t, x.labels[0], m);
        }
      }
    }
  }

  lemma RetireAddEpoch(e: nat, x: Thread, x': Thread)
    requires EpochOk(e, x) && x.job.Retiring?
    requires x' == Thread(x.local, In(x.job.refs, x.job.mine), AddNode(x.labels, x.job.node, x.job.e), x.threshold + 1, x.added + 1, x.deleted)
    ensures EpochOk(e, x')
  {
    AddFlat(x.labels, x.job.node, x.job.e);
    forall l | l in x'.labels ensures l.epoch <= e {
      AddLabels(x.labels, x.job.node, x.job.e, l);
    }
  }

  lemma KeepRetireAdd(s: State, t: Tid)
    requires Inv(s) && Enabled(s, RetireAdd(t))
    ensures Inv(Do(s, RetireAdd(t)))
  {
    hide NodesOk, EpochsOk, RefsOk, EpochOk, Do, Enabled, Flat, AddNode;
    var s' := Do(s, RetireAdd(t));
    RetireAddDoes(s, s', t);
    RetireAddNodes(s, s', t);
    MyEpoch(s, t);
    RetireAddEpoch(s.epoch, s.threads[t], s'.threads[t]);
    EpochsOne(s, s', t);
    RetireAddRefs(s, s', t);
    forall v, u, m ensures ScanOk(s', v, u, m) {
      assert ScanOk(s, v, u, m);
    }
  }

  // ---------- sweeping ----------

  lemma {:induction false} FlatConcat(a: seq<Label>, b: seq<Label>)
    ensures Flat(a + b) == Flat(a) + Flat(b)
  {
    if a == [] {
      assert a + b == b;
    } else {
      var x, r := a[0].nodes, Flat(a[1..]);
      FlatConcat(a[1..], b);
      assert (a + b)[1..] == a[1..] + b && (a + b)[0] == a[0];
      assert x + (r + Flat(b)) == (x + r) + Flat(b);
    }
  }

  lemma DistinctCut(a: seq<Id>, b: seq<Id>, c: seq<Id>)
    requires Distinct(a + b + c)
    ensures Distinct(a + c) && Distinct(b) && forall n :: n in b ==> n !in a + c
  {
    var q := a + b + c;
    forall i | 0 <= i < |b| ensures b[i] == q[|a| + i] {
    }
    forall i, k | 0 <= i < k < |b| ensures b[i] != b[k] {
      assert q[|a| + i] != q[|a| + k];
    }
    forall i | 0 <= i < |a + c| ensures (a + c)[i] == q[if i < |a| then i else i + |b|] {
    }
    forall i, k | 0 <= i < k < |a + c| ensures (a + c)[i] != (a + c)[k] {
      assert q[if i < |a| then i else i + |b|] != q[if k < |a| then k else k + |b|];
    }
    forall i, k | 0 <= i < |b| && 0 <= k < |a + c| ensures b[i] != (a + c)[k] {
      assert q[|a| + i] != q[if k < |a| then k else k + |b|];
    }
  }

  lemma SweepFlat(s: State, t: Tid)
    requires EpochsOk(s) && NodesOk(s) && Enabled(s, SweepOne(t))
    ensures var x := s.threads[t]; var j := x.job;
            && Flat(x.labels) == Flat(j.kept) + j.rest[0].nodes + Flat(j.rest[1..])
            && Flat(j.kept + j.rest[1..]) == Flat(j.kept) + Flat(j.rest[1..])
            && (j.kept + [j.rest[0]]) + j.rest[1..] == x.labels == j.kept + j.rest
            && Distinct(Flat(j.kept + j.rest[1..])) && Distinct(j.rest[0].nodes)
            && forall n :: n in j.rest[0].nodes ==> n in Flat(x.labels) && n !in Flat(j.kept + j.rest[1..])
  {
    MyEpoch(s, t);
    var x := s.threads[t];
    var j := x.job;
    FlatConcat(j.kept, j.rest);
    FlatConcat(j.kept, j.rest[1..]);
    LabelsAre(s, t);
    assert Distinct(Flat(LabelsOf(s, t)));
    assert Flat(j.rest) == j.rest[0].nodes + Flat(j.rest[1..]);
    assert Flat(j.kept) + Flat(j.rest) == Flat(j.kept) + j.rest[0].nodes + Flat(j.rest[1..]);
    DistinctCut(Flat(j.kept), j.rest[0].nodes, Flat(j.rest[1..]));
  }

  /** What a sweep's step does when it frees a label, and when it does not. */
  lemma SweepDoes(s: State, s': State, t: Tid)
    requires Enabled(s, SweepOne(t)) && s' == Do(s, SweepOne(t))
    ensures OneThread(s, s', t) && s'.linked == s.linked && s'.made == s.made && s'.epoch == s.epoch && t in s.threads
    ensures s.threads[t].job.Sweeping? && s.threads[t].job.rest != []
    ensures var x := s.threads[t];
            && (Before(x.job.rest[0].epoch, x.job.oldest) ==>
                 && s'.threads[t] == x.(job := Sweeping(x.job.kept, x.job.rest[1..], x.job.oldest), labels := x.job.kept + x.job.rest[1..],
                                       deleted := x.deleted + |x.job.rest[0].nodes|)
                 && s'.freed == s.freed + x.job.rest[0].nodes)
            && (!Before(x.job.rest[0].epoch, x.job.oldest) ==>
                 s'.threads[t] == x.(job := Sweeping(x.job.kept + [x.job.rest[0]], x.job.rest[1..], x.job.oldest)) && s'.freed == s.freed)
  {
  }

  lemma DistinctJoin(a: seq<Id>, b: seq<Id>)
    requires Distinct(a) && Distinct(b) && forall n :: n in b ==> n !in a
    ensures Distinct(a + b)
  {
    forall i, k | 0 <= i < k < |a + b| ensures (a + b)[i] != (a + b)[k] {
      if i < |a| <= k {
        assert b[k - |a|] in b;
      } else if |a| <= i {
        assert b[i - |a|] != b[k - |a|];
      }
    }
  }

  lemma SweepNodes(s: State, s': State, t: Tid)
    requires NodesOk(s) && EpochsOk(s) && Enabled(s, SweepOne(t)) && s' == Do(s, SweepOne(t))
    ensures NodesOk(s')
  {
    hide Flat, Do, EpochsOk, MineOf;
    SweepDoes(s, s', t);
    SweepFlat(s, t);
    Others(s, s', t);
    IdleMine(s, s', t);
    var x := s.threads[t];
    var j := x.job;
    if Before(j.rest[0].epoch, j.oldest) {
      forall n | n in j.rest[0].nodes ensures n in Flat(LabelsOf(s, t)) && n !in s.freed {
      }
      DistinctJoin(s.freed, j.rest[0].nodes);
      forall n | n in Flat(LabelsOf(s', t)) ensures n in Flat(LabelsOf(s, t)) {
      }
    }
  }

  lemma IdleMine(s: State, s': State, t: Tid)
    requires t in s.threads && t in s'.threads && s.threads[t].job.Sweeping? && s'.threads[t].job.Sweeping?
    ensures MineOf(JobOf(s, t)) == {} && MineOf(JobOf(s', t)) == {}
  {
  }

  /** No thread may still touch a node of a label older than the oldest epoch of the scan. */
  lemma SweepSafe(s: State, t: Tid, u: Tid, n: Id)
    requires Inv(s) && Enabled(s, SweepOne(t)) && Before(s.threads[t].job.rest[0].epoch, s.threads[t].job.oldest)
    requires u in s.threads && n in s.threads[t].job.rest[0].nodes
    ensures n !in RefsOf(s.threads[u].job)
  {
    hide Flat;
    SweepFlat(s, t);
    var l := s.threads[t].job.rest[0];
    MyEpoch(s, t);
    LabelsAre(s, t);
    assert l in s.threads[t].labels;
    assert Guarded(s, u, t, l, n);
    assert ScanOk(s, t, u, n);
  }

  lemma SweepRefs(s: State, s': State, t: Tid)
    requires Inv(s) && Enabled(s, SweepOne(t)) && s' == Do(s, SweepOne(t))
    ensures RefsOk(s')
  {
    hide Flat, Do, NodesOk, ScanOk, EpochsOk;
    SweepDoes(s, s', t);
    Others(s, s', t);
    MyEpoch(s, t);
    forall u, n | u in s'.threads && n in RefsOf(s'.threads[u].job) ensures n in s'.made && n !in s'.freed {
      if n in s.threads[t].job.rest[0].nodes && Before(s.threads[t].job.rest[0].epoch, s.threads[t].job.oldest) {
        SweepSafe(s, t, u, n);
      }
    }
    forall u, v, l, m ensures Guarded(s', u, v, l, m) {
      assert Guarded(s, u, v, l, m);
    }
  }

  lemma SweepScan(s: State, s': State, t: Tid)
    requires Inv(s) && Enabled(s, SweepOne(t)) && s' == Do(s, SweepOne(t))
    ensures forall v, u, m :: ScanOk(s', v, u, m)
  {
    hide Flat, Do, NodesOk, RefsOk, EpochsOk;
    SweepDoes(s, s', t);
    SweepFlat(s, t);
    forall v, u, m ensures ScanOk(s', v, u, m) {
      assert ScanOk(s, v, u, m);
    }
  }

  lemma SweepEpoch(s: State, s': State, t: Tid)
    requires EpochsOk(s) && NodesOk(s) && Enabled(s, SweepOne(t)) && s' == Do(s, SweepOne(t))
    ensures t in s'.threads && EpochOk(s'.epoch, s'.threads[t])
  {
    hide Flat, Do, NodesOk;
    SweepDoes(s, s', t);
    SweepFlat(s, t);
    MyEpoch(s, t);
  }

  lemma KeepSweepOne(s: State, t: Tid)
    requires Inv(s) && Enabled(s, SweepOne(t))
    ensures Inv(Do(s, SweepOne(t)))
  {
    hide NodesOk, EpochsOk, RefsOk, ScanOk, EpochOk, Do, Enabled, Flat;
    var s' := Do(s, SweepOne(t));
    SweepDoes(s, s', t);
    SweepNodes(s, s', t);
    SweepEpoch(s, s', t);
    EpochsOne(s, s', t);
    SweepRefs(s, s', t);
    SweepScan(s, s', t);
  }

  // ---------- runs ----------

  lemma Keep(s: State, st: Step)
    requires Inv(s) && Enabled(s, st)
    ensures Inv(Do(s, st))
  {
    hide Inv, Enabled, Do;
    match st
    case Make(n) => KeepMake(s, n);
    case Acquire(t, n) => KeepAcquire(s, t, n);
    case Unlink(t, n) => KeepUnlink(s, t, n);
    case RetireLoad(t, n) => KeepRetireLoad(s, t, n);
    case RetireAdd(t) => KeepRetireAdd(s, t);
    case SweepOne(t) => KeepSweepOne(s, t);
    case _ => KeepQuiet(s, st);
  }

  function Init(gc: nat): State {
    State(0, gc, map[], {}, {}, [])
  }

  ghost predicate CanRun(s: State, run: seq<Step>)
    decreases |run|
  {
    run != [] ==> Enabled(s, run[0]) && CanRun(Do(s, run[0]), run[1..])
  }

  function After(s: State, run: seq<Step>): State
    decreases |run|
  {
    if run == [] then s else After(Do(s, run[0]), run[1..])
  }

  lemma {:induction false} RunInv(s: State, run: seq<Step>)
    requires Inv(s) && CanRun(s, run)
    ensures Inv(After(s, run))
    decreases |run|
  {
    hide Inv, Enabled, Do;
    if run != [] {
      Keep(s, run[0]);
      RunInv(Do(s, run[0]), run[1..]);
    }
  }

  lemma InitInv(gc: nat)
    ensures Inv(Init(gc))
  {
  }

  /**
   In every run, for any number of threads: a node that a thread got hold of while it was linked is not freed
   while that thread is in its section, no node is freed twice, and every list accounts for its nodes.
   */
  lemma Reclaimed(gc: nat, run: seq<Step>)
    requires CanRun(Init(gc), run)
    ensures var s := After(Init(gc), run);
            && (forall u, n :: u in s.threads && n in RefsOf(s.threads[u].job) ==> n !in s.freed)
            && Distinct(s.freed) && (forall n :: n in s.freed ==> n !in s.linked)
            && (forall t :: t in s.threads ==> s.threads[t].added == s.threads[t].deleted + |Flat(s.threads[t].labels)|)
  {
    hide CanRun, After, ScanOk, Flat;
    InitInv(gc);
    RunInv(Init(gc), run);
    var s := After(Init(gc), run);
    forall t | t in s.threads ensures s.threads[t].added == s.threads[t].deleted + |Flat(s.threads[t].labels)| {
      assert EpochOk(s.epoch, s.threads[t]);
    }
  }
}
