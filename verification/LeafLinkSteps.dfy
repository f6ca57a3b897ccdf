/**
 Every step of link_split and unlink keeps the invariant.
 */
module LeafLinkSteps {
  import opened Options
  import opened LeafLink
  import opened LeafLinkInvariant

  // ---------- steps ----------

  /** Nothing but prev pointers and one job has changed. */
  ghost predicate PrevOnly(s: State, s': State, t: Tid) {
    && s'.list == s.list && s'.hidden == s.hidden && s'.nodes.Keys == s.nodes.Keys
    && (forall x :: x in s.nodes ==> s'.nodes[x].next == s.nodes[x].next && s'.nodes[x].marked == s.nodes[x].marked)
    && forall u :: u != t ==> JobOf(s', u) == JobOf(s, u)
  }

  lemma {:induction false} PathKept(s: State, s': State, x: Id, gone: seq<Id>, end: Option<Id>)
    requires Path(s, x, gone, end) && NextOf(s', x) == NextOf(s, x)
    requires forall y :: y in s.nodes && y !in s.list ==> y in s'.nodes && y !in s'.list && NextOf(s', y) == NextOf(s, y)
    ensures Path(s', x, gone, end)
    decreases |gone|
  {
    if gone != [] {
      PathKept(s, s', gone[0], gone[1..], end);
    }
  }

  lemma ListSame(s: State, s': State, t: Tid)
    requires ListOk(s) && PrevOnly(s, s', t)
    ensures ListOk(s')
  {
    forall x | x in s'.list ensures x in s'.nodes && Linked(s', x) {
      assert Linked(s, x);
      var y := Succ(s.list, x);
      if y.Some? && y.value in s.hidden {
        PathKept(s, s', x, s.hidden[y.value], NextOf(s, y.value));
      }
    }
  }

  lemma JobIn(s: State, t: Tid)
    requires JobsOk(s)
    ensures JobOk(s, JobOf(s, t))
  {
  }

  lemma Disjoint(s: State, t: Tid, u: Tid, x: Id)
    requires JobsOk(s) && t != u
    ensures x in Owns(JobOf(s, t)) ==> x !in Owns(JobOf(s, u))
    ensures x in Holds(JobOf(s, t)) ==> x !in Holds(JobOf(s, u))
  {
  }

  /** One job has changed, and what it owns and holds is no more than before or was free. */
  lemma JobsKept(s: State, s': State, t: Tid)
    requires JobsOk(s) && (forall u :: u != t ==> JobOf(s', u) == JobOf(s, u))
    requires forall u :: JobOk(s', JobOf(s', u))
    requires forall u, x :: u != t && x in Owns(JobOf(s', t)) ==> x !in Owns(JobOf(s, u))
    requires forall u, x :: u != t && x in Holds(JobOf(s', t)) ==> x !in Holds(JobOf(s, u))
    requires forall x :: x in s'.hidden ==> x in s.hidden || (JobOf(s', t).Splitting? && JobOf(s', t).nr == x)
    requires JobOf(s, t).Splitting? && JobOf(s, t).nr in s'.hidden ==> JobOf(s', t).Splitting? && JobOf(s', t).nr == JobOf(s, t).nr
    ensures JobsOk(s')
  {
    hide JobOk, Owns, Holds;
    forall x | x in s'.hidden ensures exists u :: JobOf(s', u).Splitting? && JobOf(s', u).nr == x {
      if x in s.hidden {
        var u := Splitter(s, x);
        assert JobOf(s', u).Splitting? && JobOf(s', u).nr == x;
      } else {
        assert JobOf(s', t).Splitting? && JobOf(s', t).nr == x;
      }
    }
  }

  /** Two operations never set the same prev pointer. */
  lemma BackTarget(s: State, t: Tid, u: Tid, x: Id)
    requires ListOk(s) && JobsOk(s) && t != u && JobOf(s, u).Cutting? && x in Holds(JobOf(s, t)) && x in s.list
    requires !JobOf(s, t).Splitting? || JobOf(s, t).nr == x
    ensures NextOf(s, x).Some? ==> NextOf(s, x) != JobOf(s, u).nx
  {
    hide JobsOk;
    var k := JobOf(s, u);
    JobIn(s, u);
    assert k.n in Holds(k) && k.n in Owns(k);
    HeldAlone(s, u, k.n);
    HeldAlone(s, t, x);
    NextIsSucc(s, k.n);
    NextIsSucc(s, x);
    Disjoint(s, t, u, x);
    if NextOf(s, x).Some? && NextOf(s, x) == k.nx {
      SuccUnique(s.list, x, k.n);
    }
  }

  /** A prev pointer is set: the jobs of others are untouched by it. */
  lemma PrevJobs(s: State, s': State, t: Tid, x: Id)
    requires ListOk(s) && JobsOk(s) && PrevOnly(s, s', t) && x in Holds(JobOf(s, t)) && x in s.list
    requires !JobOf(s, t).Splitting? || JobOf(s, t).nr == x
    requires forall y :: y in s.nodes && NextOf(s, x) != Some(y) ==> s'.nodes[y] == s.nodes[y]
    requires Owns(JobOf(s', t)) == Owns(JobOf(s, t)) && Holds(JobOf(s', t)) == Holds(JobOf(s, t)) && JobOk(s', JobOf(s', t))
    requires JobOf(s, t).Splitting? ==> JobOf(s', t).Splitting? && JobOf(s', t).nr == JobOf(s, t).nr
    ensures JobsOk(s')
  {
    hide JobsOk, ListOk;
    forall u ensures JobOk(s', JobOf(s', u)) {
      JobIn(s, u);
      if u != t {
        PrevJob(s, s', t, u, x);
      }
    }
    forall u, y | u != t && y in Owns(JobOf(s', t)) ensures y !in Owns(JobOf(s, u)) {
      Disjoint(s, t, u, y);
    }
    forall u, y | u != t && y in Holds(JobOf(s', t)) ensures y !in Holds(JobOf(s, u)) {
      Disjoint(s, t, u, y);
    }
    JobsKept(s, s', t);
  }

  lemma PrevJob(s: State, s': State, t: Tid, u: Tid, x: Id)
    requires ListOk(s) && JobsOk(s) && PrevOnly(s, s', t) && x in Holds(JobOf(s, t)) && x in s.list && t != u
    requires !JobOf(s, t).Splitting? || JobOf(s, t).nr == x
    requires forall y :: y in s.nodes && NextOf(s, x) != Some(y) ==> s'.nodes[y] == s.nodes[y]
    ensures JobOk(s', JobOf(s, u))
  {
    hide JobsOk, ListOk;
    JobIn(s, u);
    forall y ensures NextOf(s', y) == NextOf(s, y) && Marked(s', y) == Marked(s, y) {
    }
    var k := JobOf(s, u);
    if k.Cutting? {
      BackTarget(s, t, u, x);
      if k.nx.Some? && k.nx.value in s.nodes {
        var z := k.nx.value;
        assert NextOf(s, x) != Some(z);
        assert s'.nodes[z] == s.nodes[z];
      }
    }
  }

  /** A prev pointer is set: who points back to whom, and who will see to it. */
  lemma PrevBack(s: State, s': State, t: Tid, x: Id)
    requires ListOk(s) && BackOk(s) && PrevOnly(s, s', t) && Succ(s.list, x) == NextOf(s, x)
    requires forall y :: y in s.nodes && NextOf(s, x) != Some(y) ==> s'.nodes[y] == s.nodes[y]
    requires NextOf(s, x).Some? ==> NextOf(s, x).value in s'.nodes ==> s'.nodes[NextOf(s, x).value].prev == x || Repairs(JobOf(s', t), x)
    requires forall a :: Repairs(JobOf(s, t), a) ==> a == x
    ensures BackOk(s')
  {
    hide Repairs, JobOf;
    forall a, b | a in s'.list && Succ(s'.list, a) == Some(b) && b in s'.nodes
      ensures s'.nodes[b].prev == a || exists u :: Repairs(JobOf(s', u), a)
    {
      if NextOf(s, x) == Some(b) {
        SuccUnique(s.list, a, x);
      } else if s.nodes[b].prev != a {
        var u :| Repairs(JobOf(s, u), a);
        if u == t {
          SuccUnique2(s.list, a, x, b);
        }
        assert Repairs(JobOf(s', u), a);
      }
    }
  }

  lemma SuccUnique2(l: seq<Id>, a: Id, x: Id, b: Id)
    requires a == x && Succ(l, a) == Some(b)
    ensures Succ(l, x) == Some(b)
  {
  }

  /** Secrets are kept when no prev pointer and no aim comes to lead to one. */
  lemma SecretsKept(s: State, s': State, t: Tid, p: Id)
    requires SecretsOk(s) && s.nodes.Keys <= s'.nodes.Keys && forall u :: u != t ==> JobOf(s', u) == JobOf(s, u)
    requires p in s'.nodes && forall u :: !Unknown(JobOf(s', u), p)
    requires forall y :: y in s'.nodes ==> (y in s.nodes && s'.nodes[y].prev == s.nodes[y].prev) || s'.nodes[y].prev == p
    requires forall x :: Aims(JobOf(s', t), x) ==> x == p
    requires forall u, x :: Unknown(JobOf(s', u), x) ==> Unknown(JobOf(s, u), x)
    ensures SecretsOk(s')
  {
    hide Unknown, Aims, JobOf;
    forall u, x | Aims(JobOf(s', u), x) ensures x in s'.nodes {
      assert u != t ==> Aims(JobOf(s, u), x);
    }
    forall y ensures Grounded(s', s', y) {
      assert Grounded(s, s, y);
    }
    forall u, x | Unknown(JobOf(s', u), x) ensures Secret(s', x) {
      assert Secret(s, x) && x != p;
      forall v ensures !Aims(JobOf(s', v), x) {
        assert v != t ==> !Aims(JobOf(s, v), x);
      }
    }
  }

  lemma KeepSplitBack(s: State, t: Tid)
    requires Inv(s) && Enabled(s, SplitBack(t))
    ensures Inv(Do(s, SplitBack(t)))
  {
    hide ListOk, JobsOk, BackOk, SecretsOk;
    var s', j := Do(s, SplitBack(t)), JobOf(s, t);
    JobIn(s, t);
    assert PrevOnly(s, s', t);
    ListSame(s, s', t);
    HeldAlone(s, t, j.nr);
    NextIsSucc(s, j.nr);
    PrevJobs(s, s', t, j.nr);
    PrevBack(s, s', t, j.nr);
    forall u, x | Unknown(JobOf(s', u), x) ensures j.nr != x && u != t && Unknown(JobOf(s, u), x) {
      Disjoint(s, t, u, x);
    }
    InList(s, j.nr);
    SecretsKept(s, s', t, j.nr);
  }

  lemma InList(s: State, x: Id)
    requires ListOk(s) && x in s.list
    ensures x in s.nodes
  {
  }

  /** The node an unlink has to the left of its own is known. */
  lemma KnownLeft(s: State, t: Tid)
    requires SecretsOk(s) && (JobOf(s, t).Aiming? || JobOf(s, t).Cutting?)
    ensures JobOf(s, t).pv in s.nodes && forall u :: !Unknown(JobOf(s, u), JobOf(s, t).pv)
  {
    var p := JobOf(s, t).pv;
    assert Aims(JobOf(s, t), p);
    forall u ensures !Unknown(JobOf(s, u), p) {
      assert Unknown(JobOf(s, u), p) ==> Secret(s, p);
    }
  }

  lemma KeepUnBack(s: State, t: Tid)
    requires Inv(s) && Enabled(s, UnBack(t))
    ensures Inv(Do(s, UnBack(t)))
  {
    hide ListOk, JobsOk, BackOk, SecretsOk;
    var s', j := Do(s, UnBack(t)), JobOf(s, t);
    JobIn(s, t);
    assert j.n in Owns(j) && j.n in Holds(j);
    assert PrevOnly(s, s', t);
    ListSame(s, s', t);
    HeldAlone(s, t, j.n);
    NextIsSucc(s, j.n);
    KnownLeft(s, t);
    NextIn(s, j.n);
    PrevJobs(s, s', t, j.n);
    PrevBack(s, s', t, j.n);
    SecretsKept(s, s', t, j.pv);
  }

  lemma NextIn(s: State, x: Id)
    requires ListOk(s) && x in s.list && NextOf(s, x) == Succ(s.list, x)
    ensures NextOf(s, x).Some? ==> NextOf(s, x).value in s.nodes
  {
    SuccIn(s.list, x);
  }

  // Taking hold of a next pointer.

  /** A node nobody has locked and whose next pointer is null or unmarked belongs to nobody. */
  lemma FreeToMark(s: State, n: Id)
    requires ListOk(s) && JobsOk(s) && n in s.list && Free(s, n) && (NextOf(s, n).None? || !Marked(s, n))
    ensures n !in s.hidden && NextOf(s, n) == Succ(s.list, n) && (Succ(s.list, n).Some? ==> Succ(s.list, n).value !in s.hidden)
    ensures forall t :: n !in Owns(JobOf(s, t))
  {
    hide JobsOk, ListOk;
    if n in s.hidden {
      var t := Splitter(s, n);
    }
    forall t | JobOf(s, t).Splitting? ensures JobOf(s, t).n != n {
      assert n !in Holds(JobOf(s, t));
    }
    NextIsSucc(s, n);
    forall t ensures n !in Owns(JobOf(s, t)) {
      assert n !in Holds(JobOf(s, t));
      JobIn(s, t);
    }
  }

  /** Marks and one job have changed; the marked node was free. */
  ghost predicate MarkOnly(s: State, s': State, t: Tid) {
    && s'.list == s.list && s'.hidden == s.hidden && s'.nodes.Keys == s.nodes.Keys
    && (forall x :: x in s.nodes ==> s'.nodes[x] == s.nodes[x].(marked := s'.nodes[x].marked) && (s.nodes[x].marked ==> s'.nodes[x].marked))
    && forall u :: u != t ==> JobOf(s', u) == JobOf(s, u)
  }

  lemma MarkList(s: State, s': State, t: Tid)
    requires ListOk(s) && MarkOnly(s, s', t)
    ensures ListOk(s')
  {
    forall x | x in s'.list ensures x in s'.nodes && Linked(s', x) {
      assert Linked(s, x);
      var y := Succ(s.list, x);
      if y.Some? && y.value in s.hidden {
        PathKept(s, s', x, s.hidden[y.value], NextOf(s, y.value));
      }
    }
  }

  lemma MarkJob(s: State, s': State, t: Tid, j: Job)
    requires MarkOnly(s, s', t) && JobOk(s, j)
    ensures JobOk(s', j)
  {
    forall y ensures NextOf(s', y) == NextOf(s, y) && (Marked(s, y) ==> Marked(s', y)) {
    }
    forall y | y in s.nodes ensures s'.nodes[y].prev == s.nodes[y].prev {
    }
    if j.Cutting? && j.nx.Some? && j.nx.value in s.nodes {
      assert s'.nodes[j.nx.value].prev == s.nodes[j.nx.value].prev;
    }
  }

  lemma MarkJobs(s: State, s': State, t: Tid)
    requires JobsOk(s) && MarkOnly(s, s', t) && JobOk(s', JobOf(s', t))
    requires forall u, x :: u != t && x in Owns(JobOf(s', t)) ==> x !in Owns(JobOf(s, u))
    requires forall u, x :: u != t && x in Holds(JobOf(s', t)) ==> x !in Holds(JobOf(s, u))
    requires !JobOf(s, t).Splitting? && !JobOf(s', t).Splitting?
    ensures JobsOk(s')
  {
    hide JobsOk, JobOk, Owns, Holds;
    forall u ensures JobOk(s', JobOf(s', u)) {
      if u != t {
        JobIn(s, u);
        MarkJob(s, s', t, JobOf(s, u));
      }
    }
    JobsKept(s, s', t);
  }

  lemma MarkBack(s: State, s': State, t: Tid)
    requires BackOk(s) && MarkOnly(s, s', t) && forall a :: Repairs(JobOf(s, t), a) ==> Repairs(JobOf(s', t), a)
    ensures BackOk(s')
  {
    hide Repairs, JobOf;
    forall a, b | a in s'.list && Succ(s'.list, a) == Some(b) && b in s'.nodes
      ensures s'.nodes[b].prev == a || exists u :: Repairs(JobOf(s', u), a)
    {
      if s.nodes[b].prev != a {
        var u :| Repairs(JobOf(s, u), a);
        assert Repairs(JobOf(s', u), a);
      }
    }
  }

  lemma KeepUnLock(s: State, t: Tid, n: Id)
    requires Inv(s) && Enabled(s, UnLock(t, n))
    ensures Inv(Do(s, UnLock(t, n)))
  {
    hide ListOk, JobsOk, BackOk, SecretsOk;
    var s' := Do(s, UnLock(t, n));
    FreeToMark(s, n);
    InList(s, n);
    assert MarkOnly(s, s', t);
    MarkList(s, s', t);
    MarkJobs(s, s', t);
    MarkBack(s, s', t);
    Known(s, n);
    SecretsKept(s, s', t, n);
  }

  /** A node that is not hidden is known. */
  lemma Known(s: State, x: Id)
    requires ListOk(s) && JobsOk(s) && x in s.list && x !in s.hidden
    ensures x in s.nodes && forall u :: !Unknown(JobOf(s, u), x)
  {
    hide JobsOk;
    forall u ensures !Unknown(JobOf(s, u), x) {
      JobIn(s, u);
    }
  }

  lemma KnownPrev(s: State, x: Id)
    requires SecretsOk(s) && x in s.nodes
    ensures s.nodes[x].prev in s.nodes && forall u :: !Unknown(JobOf(s, u), s.nodes[x].prev)
  {
    var p := s.nodes[x].prev;
    assert Grounded(s, s, x);
    forall u ensures !Unknown(JobOf(s, u), p) {
      assert Unknown(JobOf(s, u), p) ==> Secret(s, p);
    }
  }

  lemma KeepUnRead(s: State, t: Tid)
    requires Inv(s) && Enabled(s, UnRead(t))
    ensures Inv(Do(s, UnRead(t)))
  {
    hide ListOk, JobsOk, BackOk, SecretsOk;
    var s', j := Do(s, UnRead(t)), JobOf(s, t);
    JobIn(s, t);
    assert MarkOnly(s, s', t);
    forall u, x | u != t && x == j.n ensures x !in Owns(JobOf(s, u)) && x !in Holds(JobOf(s, u)) {
      Disjoint(s, t, u, x);
    }
    MarkList(s, s', t);
    MarkJobs(s, s', t);
    MarkBack(s, s', t);
    KnownPrev(s, j.n);
    SecretsKept(s, s', t, s.nodes[j.n].prev);
  }

  /** An unmarked next pointer that leads to n belongs to the node before n, and to no other operation. */
  lemma SwapHits(s: State, t: Tid)
    requires Inv(s) && Enabled(s, UnSwap(t))
    requires var j := JobOf(s, t); NextOf(s, j.pv) == Some(j.n) && !Marked(s, j.pv)
    ensures var j := JobOf(s, t);
            && j.pv in s.list && j.pv in s.nodes && Succ(s.list, j.pv) == Some(j.n) && j.pv != j.n
            && forall u :: j.pv !in Owns(JobOf(s, u))
  {
    hide JobsOk, BackOk, SecretsOk;
    var j := JobOf(s, t);
    JobIn(s, t);
    forall u ensures j.pv !in Owns(JobOf(s, u)) {
      JobIn(s, u);
    }
    assert Linked(s, j.pv);
    forall u | JobOf(s, u).Splitting? ensures JobOf(s, u).n != j.pv {
      assert j.pv !in Owns(JobOf(s, u));
    }
    NextIsSucc(s, j.pv);
    SuccIn(s.list, j.pv);
  }

  lemma KeepUnSwap(s: State, t: Tid)
    requires Inv(s) && Enabled(s, UnSwap(t))
    ensures Inv(Do(s, UnSwap(t)))
  {
    hide ListOk, JobsOk, BackOk, SecretsOk;
    var s', j := Do(s, UnSwap(t)), JobOf(s, t);
    JobIn(s, t);
    KnownLeft(s, t);
    if NextOf(s, j.pv) == Some(j.n) && !Marked(s, j.pv) {
      SwapHits(s, t);
    }
    assert MarkOnly(s, s', t);
    forall u, x | u != t && x == j.n ensures x !in Owns(JobOf(s, u)) && x !in Holds(JobOf(s, u)) {
      Disjoint(s, t, u, x);
    }
    MarkList(s, s', t);
    MarkJobs(s, s', t);
    MarkBack(s, s', t);
    SecretsKept(s, s', t, j.pv);
  }

  // Starting a split.

  lemma SplitLockDoes(s: State, t: Tid, n: Id, nr: Id)
    requires Inv(s) && Enabled(s, SplitLock(t, n, nr))
    ensures var s' := Do(s, SplitLock(t, n, nr));
            && n in s.nodes && n != nr && s'.nodes.Keys == s.nodes.Keys + {nr} && s'.nodes[nr] == Node(NextOf(s, n), false, n)
            && (forall x :: x in s.nodes ==> s'.nodes[x] == s.nodes[x].(marked := s'.nodes[x].marked) && (s.nodes[x].marked ==> s'.nodes[x].marked))
            && (NextOf(s, n).Some? ==> s'.nodes[n].marked)
            && s'.list == InsertAfter(s.list, n, nr) && s'.hidden == s.hidden[nr := []] && nr !in s.list && nr !in s.hidden
            && JobOf(s', t) == Splitting(n, nr, NextOf(s, n), false) && forall u :: u != t ==> JobOf(s', u) == JobOf(s, u)
  {
    hide JobsOk, SecretsOk, BackOk;
    InList(s, n);
  }

  /** Where a node's next pointer leads after nr has been put in after n. */
  lemma InsertLinked(s: State, s': State, n: Id, nr: Id, x: Id)
    requires ListOk(s) && n in s.list && nr !in s.list && nr !in s.nodes && nr !in s.hidden && x in s.list && x != n
    requires s'.list == InsertAfter(s.list, n, nr) && s'.hidden == s.hidden[nr := []] && s.nodes.Keys <= s'.nodes.Keys
    requires forall y :: y != nr ==> NextOf(s', y) == NextOf(s, y)
    ensures Linked(s', x)
  {
    hide ListOk, NextOf;
    ListDistinct(s);
    InsertSucc(s.list, n, nr, x);
    IsLinked(s, x);
    SuccIn(s.list, x);
    var y := Succ(s.list, x);
    if y.Some? && y.value in s.hidden {
      forall z | z in s.nodes && z !in s.list ensures z !in s'.list {
        InsertIn(s.list, n, nr, z);
      }
      PathKept(s, s', x, s.hidden[y.value], NextOf(s, y.value));
    }
  }

  lemma ListDistinct(s: State)
    requires ListOk(s)
    ensures Distinct(s.list) && s.list != []
  {
  }

  lemma IsLinked(s: State, x: Id)
    requires ListOk(s) && x in s.list
    ensures Linked(s, x)
  {
  }

  lemma SplitLockList(s: State, t: Tid, n: Id, nr: Id)
    requires Inv(s) && Enabled(s, SplitLock(t, n, nr))
    ensures ListOk(Do(s, SplitLock(t, n, nr)))
  {
    hide JobsOk, SecretsOk, BackOk, Do, Linked;
    var s' := Do(s, SplitLock(t, n, nr));
    SplitLockDoes(s, t, n, nr);
    FreeToMark(s, n);
    InsertDistinct(s.list, n, nr);
    forall x ensures x in s'.list <==> x in s.list || x == nr {
      InsertIn(s.list, n, nr, x);
    }
    forall x ensures x != nr ==> NextOf(s', x) == NextOf(s, x) {
    }
    forall x | x in s'.list ensures x in s'.nodes && Linked(s', x) {
      if x == n || x == nr {
        NewLinked(s, s', n, nr);
      } else {
        InsertLinked(s, s', n, nr, x);
      }
    }
  }

  lemma NewLinked(s: State, s': State, n: Id, nr: Id)
    requires ListOk(s) && n in s.list && nr !in s.list && s'.list == InsertAfter(s.list, n, nr) && s'.hidden == s.hidden[nr := []] && n != nr
    requires NextOf(s, n) == Succ(s.list, n) == NextOf(s', n) == NextOf(s', nr)
    requires Succ(s.list, n).Some? ==> Succ(s.list, n).value !in s.hidden
    ensures Linked(s', n) && Linked(s', nr)
  {
    InsertSucc(s.list, n, nr, n);
    InsertSucc(s.list, n, nr, nr);
    SuccIn(s.list, n);
  }

  /** The job of another thread after a node has been put in after n, whose next pointer is not its own. */
  lemma InsertJob(s: State, s': State, n: Id, nr: Id, j: Job)
    requires ListOk(s) && JobOk(s, j) && n in s.list && nr !in s.nodes && nr !in s.list && n !in Owns(j)
    requires s'.list == InsertAfter(s.list, n, nr) && s'.list != [] && s.list[0] == s'.list[0] && s'.hidden == s.hidden[nr := []] && s.nodes.Keys <= s'.nodes.Keys
    requires forall x :: x in s.nodes ==> s'.nodes[x] == s.nodes[x].(marked := s'.nodes[x].marked) && (s.nodes[x].marked ==> s'.nodes[x].marked)
    ensures JobOk(s', j)
  {
    forall x | x in s.nodes ensures NextOf(s', x) == NextOf(s, x) && (Marked(s, x) ==> Marked(s', x)) && s'.nodes[x].prev == s.nodes[x].prev {
    }
    forall x | x in s.list ensures x in s'.list && (x != n ==> Succ(s'.list, x) == Succ(s.list, x)) {
      InsertIn(s.list, n, nr, x);
      InsertSucc(s.list, n, nr, x);
    }
    if j.Cutting? && j.nx.Some? && j.nx.value in s.nodes {
      var z := j.nx.value;
      assert NextOf(s', z) == NextOf(s, z);
      assert s'.nodes[z].prev == s.nodes[z].prev;
    }
  }

  lemma SplitLockJobs(s: State, t: Tid, n: Id, nr: Id)
    requires Inv(s) && Enabled(s, SplitLock(t, n, nr))
    ensures JobsOk(Do(s, SplitLock(t, n, nr)))
  {
    hide JobsOk, SecretsOk, BackOk, Do;
    var s' := Do(s, SplitLock(t, n, nr));
    SplitLockDoes(s, t, n, nr);
    FreeToMark(s, n);
    InsertDistinct(s.list, n, nr);
    InsertIn(s.list, n, nr, n);
    InsertIn(s.list, n, nr, nr);
    InsertSucc(s.list, n, nr, n);
    forall u ensures JobOk(s', JobOf(s', u)) {
      if u != t {
        JobIn(s, u);
        InsertJob(s, s', n, nr, JobOf(s, u));
      }
    }
    forall u, x | u != t && x in Holds(JobOf(s', t)) ensures x !in Holds(JobOf(s, u)) {
      JobIn(s, u);
      HoldsIn(s, JobOf(s, u));
    }
    JobsKept(s, s', t);
  }

  lemma HoldsIn(s: State, j: Job)
    requires ListOk(s) && JobOk(s, j)
    ensures forall x :: x in Holds(j) ==> x in s.list && x in s.nodes
  {
  }

  lemma SecretKept(s: State, s': State, x: Id, p: Id)
    requires Secret(s, x) && x != p && forall v :: Aims(JobOf(s', v), x) ==> Aims(JobOf(s, v), x)
    requires forall y :: y in s'.nodes ==> (y in s.nodes && s'.nodes[y].prev == s.nodes[y].prev) || s'.nodes[y].prev == p
    ensures Secret(s', x)
  {
    hide Aims, JobOf;
  }

  lemma SecretFresh(s: State, s': State, x: Id)
    requires SecretsOk(s) && x !in s.nodes && forall v, z :: Aims(JobOf(s', v), z) ==> Aims(JobOf(s, v), z)
    requires forall y :: Grounded(s, s', y)
    ensures Secret(s', x)
  {
    hide Aims, JobOf;
    forall y | y in s'.nodes ensures s'.nodes[y].prev != x {
      assert Grounded(s, s', y);
    }
  }

  /** The new node nr points back to n, the other prev pointers are as before, and nobody aims anywhere new. */
  ghost predicate OnePrev(s: State, s': State, n: Id, nr: Id) {
    && s'.nodes.Keys == s.nodes.Keys + {nr} && nr !in s.nodes && n in s.nodes
    && (forall y :: Grounded(s, s', y))
    && (forall y :: y in s'.nodes ==> (y in s.nodes && s'.nodes[y].prev == s.nodes[y].prev) || s'.nodes[y].prev == n)
    && (forall u, x :: Aims(JobOf(s', u), x) ==> Aims(JobOf(s, u), x))
    && (forall u, x :: Unknown(JobOf(s', u), x) ==> x == nr || Unknown(JobOf(s, u), x))
  }

  lemma SplitLockPrev(s: State, s': State, t: Tid, n: Id, nr: Id)
    requires Inv(s) && Enabled(s, SplitLock(t, n, nr)) && s' == Do(s, SplitLock(t, n, nr))
    ensures OnePrev(s, s', n, nr)
  {
    hide ListOk, JobsOk, BackOk, Do, Enabled;
    SplitLockDoes(s, t, n, nr);
    forall y | y in s'.nodes ensures (y in s.nodes && s'.nodes[y].prev == s.nodes[y].prev) || s'.nodes[y].prev == n {
      assert y != nr ==> s'.nodes[y] == s.nodes[y].(marked := s'.nodes[y].marked);
    }
    forall y ensures Grounded(s, s', y) {
      assert Grounded(s, s, y);
    }
    assert nr !in s.nodes by { NewNode(s, t, n, nr); }
  }

  lemma NewNode(s: State, t: Tid, n: Id, nr: Id)
    requires Enabled(s, SplitLock(t, n, nr))
    ensures nr !in s.nodes
  {
  }

  lemma SecretsAfter(s: State, s': State, n: Id, nr: Id)
    requires SecretsOk(s) && OnePrev(s, s', n, nr) && forall u :: !Unknown(JobOf(s, u), n)
    ensures SecretsOk(s')
  {
    hide Unknown, Aims, Secret, JobOf;
    forall u, x | Aims(JobOf(s', u), x) ensures x in s'.nodes {
      assert Aims(JobOf(s, u), x);
    }
    forall y ensures Grounded(s', s', y) {
      assert Grounded(s, s', y);
    }
    forall u, x | Unknown(JobOf(s', u), x) ensures Secret(s', x) {
      if x == nr {
        SecretFresh(s, s', x);
      } else {
        assert Unknown(JobOf(s, u), x);
        SecretKept(s, s', x, n);
      }
    }
  }

  lemma SplitLockSecrets(s: State, t: Tid, n: Id, nr: Id)
    requires Inv(s) && Enabled(s, SplitLock(t, n, nr))
    ensures SecretsOk(Do(s, SplitLock(t, n, nr)))
  {
    hide ListOk, JobsOk, BackOk, SecretsOk, Do, Unknown, OnePrev;
    SplitLockPrev(s, Do(s, SplitLock(t, n, nr)), t, n, nr);
    FreeToMark(s, n);
    Known(s, n);
    SecretsAfter(s, Do(s, SplitLock(t, n, nr)), n, nr);
  }

  lemma SplitLockBack(s: State, t: Tid, n: Id, nr: Id)
    requires Inv(s) && Enabled(s, SplitLock(t, n, nr))
    ensures BackOk(Do(s, SplitLock(t, n, nr)))
  {
    hide JobsOk, SecretsOk, Do;
    var s' := Do(s, SplitLock(t, n, nr));
    SplitLockDoes(s, t, n, nr);
    forall a, b | a in s'.list && Succ(s'.list, a) == Some(b) && b in s'.nodes
      ensures s'.nodes[b].prev == a || exists u :: Repairs(JobOf(s', u), a)
    {
      InsertSucc(s.list, n, nr, a);
      InsertIn(s.list, n, nr, a);
      SuccIn(s.list, a);
      if a == nr {
        assert Repairs(JobOf(s', t), nr);
      } else if a != n {
        assert b in s.nodes;
        if s.nodes[b].prev != a {
          var u :| Repairs(JobOf(s, u), a);
          assert Repairs(JobOf(s', u), a);
        }
      }
    }
  }

  lemma KeepSplitLock(s: State, t: Tid, n: Id, nr: Id)
    requires Inv(s) && Enabled(s, SplitLock(t, n, nr))
    ensures Inv(Do(s, SplitLock(t, n, nr)))
  {
    hide ListOk, JobsOk, SecretsOk, BackOk, Do, Enabled;
    SplitLockList(s, t, n, nr);
    SplitLockJobs(s, t, n, nr);
    SplitLockSecrets(s, t, n, nr);
    SplitLockBack(s, t, n, nr);
  }

  // The final store of a split.

  lemma SplitLinkDoes(s: State, t: Tid)
    requires Inv(s) && Enabled(s, SplitLink(t))
    ensures var s', j := Do(s, SplitLink(t)), JobOf(s, t);
            && j.n in s.nodes && j.n in s.list && s'.nodes == s.nodes[j.n := Node(Some(j.nr), false, s.nodes[j.n].prev)]
            && s'.list == s.list && s'.hidden == s.hidden - {j.nr} && j.nr in s.hidden && j.nr in s.list && Succ(s.list, j.n) == Some(j.nr)
            && JobOf(s', t) == Idle && forall u :: u != t ==> JobOf(s', u) == JobOf(s, u)
  {
    hide JobsOk, SecretsOk, BackOk;
    JobIn(s, t);
    assert JobOf(s, t).n in Owns(JobOf(s, t));
  }

  lemma SplitLinkList(s: State, t: Tid)
    requires Inv(s) && Enabled(s, SplitLink(t))
    ensures ListOk(Do(s, SplitLink(t)))
  {
    hide JobsOk, SecretsOk, BackOk, Do;
    var s', j := Do(s, SplitLink(t)), JobOf(s, t);
    SplitLinkDoes(s, t);
    forall x | x in s'.list ensures x in s'.nodes && Linked(s', x) {
      assert Linked(s, x);
      var y := Succ(s.list, x);
      if x != j.n && y.Some? && y.value in s.hidden {
        if y.value == j.nr {
          SuccUnique(s.list, x, j.n);
        }
        if y.value == j.n {
          HeldAlone(s, t, j.n);
          var u := Splitter(s, j.n);
        }
        PathKept(s, s', x, s.hidden[y.value], NextOf(s, y.value));
      }
    }
  }

  lemma SplitLinkJobs(s: State, t: Tid)
    requires Inv(s) && Enabled(s, SplitLink(t))
    ensures JobsOk(Do(s, SplitLink(t)))
  {
    hide JobsOk, SecretsOk, BackOk, Do;
    var s', j := Do(s, SplitLink(t)), JobOf(s, t);
    SplitLinkDoes(s, t);
    forall u ensures JobOk(s', JobOf(s', u)) {
      if u != t {
        JobIn(s, u);
        StoreJob(s, s', t, u);
      }
    }
    JobsKept(s, s', t);
  }

  /** The job of another thread after a split's final store. */
  lemma StoreJob(s: State, s': State, t: Tid, u: Tid)
    requires Inv(s) && Enabled(s, SplitLink(t)) && s' == Do(s, SplitLink(t)) && t != u
    ensures JobOk(s', JobOf(s, u))
  {
    hide JobsOk, SecretsOk, BackOk, Do;
    var j, k := JobOf(s, t), JobOf(s, u);
    SplitLinkDoes(s, t);
    JobIn(s, u);
    assert j.n in Owns(j) && j.n in Holds(j) && j.nr in Holds(j);
    Disjoint(s, t, u, j.n);
    Disjoint(s, t, u, j.nr);
    forall x | x != j.n ensures NextOf(s', x) == NextOf(s, x) && Marked(s', x) == Marked(s, x) {
    }
    forall x | x in s.nodes ensures s'.nodes[x].prev == s.nodes[x].prev {
    }
    if k.Cutting? {
      assert k.n in Owns(k);
      if k.nx.Some? && k.nx.value in s.nodes {
        assert s'.nodes[k.nx.value].prev == s.nodes[k.nx.value].prev;
      }
    } else if k.Splitting? {
      assert k.nr in Holds(k);
    } else if !k.Idle? {
      assert k.n in Owns(k);
    }
  }

  lemma SplitLinkRest(s: State, t: Tid)
    requires Inv(s) && Enabled(s, SplitLink(t))
    ensures SecretsOk(Do(s, SplitLink(t))) && BackOk(Do(s, SplitLink(t)))
  {
    hide JobsOk, SecretsOk, ListOk, Do;
    var s', j := Do(s, SplitLink(t)), JobOf(s, t);
    SplitLinkDoes(s, t);
    forall y | y in s'.nodes ensures y in s.nodes && s'.nodes[y].prev == s.nodes[y].prev {
    }
    KnownPrev(s, j.n);
    SecretsKept(s, s', t, s.nodes[j.n].prev);
    forall a, b | a in s'.list && Succ(s'.list, a) == Some(b) && b in s'.nodes
      ensures s'.nodes[b].prev == a || exists u :: Repairs(JobOf(s', u), a)
    {
      if s.nodes[b].prev != a {
        var u :| Repairs(JobOf(s, u), a);
        assert Repairs(JobOf(s', u), a);
      }
    }
  }

  lemma KeepSplitLink(s: State, t: Tid)
    requires Inv(s) && Enabled(s, SplitLink(t))
    ensures Inv(Do(s, SplitLink(t)))
  {
    hide ListOk, JobsOk, SecretsOk, BackOk, Do, Enabled;
    SplitLinkList(s, t);
    SplitLinkJobs(s, t);
    SplitLinkRest(s, t);
  }

  // The final store of an unlink.

  lemma UnLinkDoes(s: State, t: Tid)
    requires Inv(s) && Enabled(s, UnLink(t))
    ensures var s', j := Do(s, UnLink(t)), JobOf(s, t);
            && j.n in s.list && j.pv in s.list && j.n in s.nodes && j.pv in s.nodes && j.n != j.pv && j.n !in s.hidden
            && Succ(s.list, j.pv) == Some(j.n) && Succ(s.list, j.n) == j.nx == NextOf(s, j.n)
            && (j.nx.Some? ==> j.nx.value !in s.hidden && j.nx.value in s.nodes && s.nodes[j.nx.value].prev == j.pv && Marked(s, j.n))
            && s'.nodes == s.nodes[j.pv := Node(j.nx, false, s.nodes[j.pv].prev)] && s'.list == Without(s.list, j.n)
            && s'.hidden.Keys == s.hidden.Keys
            && (forall x :: x in s.hidden ==> s'.hidden[x] == if x == j.pv then s.hidden[x] + [j.n] else s.hidden[x])
            && JobOf(s', t) == Idle && forall u :: u != t ==> JobOf(s', u) == JobOf(s, u)
  {
    hide JobsOk, SecretsOk, BackOk;
    var j := JobOf(s, t);
    JobIn(s, t);
    assert j.n in Owns(j) && j.pv in Owns(j) && j.n in Holds(j);
    HeldAlone(s, t, j.n);
    NextIsSucc(s, j.n);
    SuccIn(s.list, j.pv);
  }

  lemma {:induction false} PathExtend(s: State, s': State, x: Id, gone: seq<Id>, n: Id)
    requires Path(s, x, gone, Some(n)) && NextOf(s', x) == NextOf(s, x)
    requires forall y :: y in s.nodes && y !in s.list ==> y in s'.nodes && y !in s'.list && NextOf(s', y) == NextOf(s, y)
    requires n in s'.nodes && n !in s'.list
    ensures Path(s', x, gone + [n], NextOf(s', n))
    decreases |gone|
  {
    if gone == [] {
      assert gone + [n] == [n];
    } else {
      PathExtend(s, s', gone[0], gone[1..], n);
      assert (gone + [n])[1..] == gone[1..] + [n];
    }
  }

  lemma UnLinkFirst(s: State, x: Id, p: Id)
    requires Distinct(s.list) && Succ(s.list, p) == Some(x)
    ensures s.list != [] && s.list[0] != x && Without(s.list, x) != [] && Without(s.list, x)[0] == s.list[0]
  {
    SuccIn(s.list, p);
  }

  lemma UnLinkList(s: State, t: Tid)
    requires Inv(s) && Enabled(s, UnLink(t))
    ensures ListOk(Do(s, UnLink(t)))
  {
    hide JobsOk, SecretsOk, BackOk, Do;
    var s', j := Do(s, UnLink(t)), JobOf(s, t);
    UnLinkDoes(s, t);
    UnLinkFirst(s, j.n, j.pv);
    WithoutDistinct(s.list, j.n);
    forall x ensures x in s'.list <==> x in s.list && x != j.n {
      WithoutIn(s.list, j.n, x);
    }
    forall x ensures x != j.pv ==> NextOf(s', x) == NextOf(s, x) {
    }
    forall x | x in s'.list ensures x in s'.nodes && Linked(s', x) {
      WithoutSucc(s.list, j.pv, j.n, x);
      if x != j.pv {
        assert Linked(s, x);
        var y := Succ(s.list, x);
        if y.Some? && y.value in s.hidden {
          if y.value == j.pv {
            assert Linked(s, j.pv);
            PathExtend(s, s', x, s.hidden[j.pv], j.n);
          } else {
            PathKept(s, s', x, s.hidden[y.value], NextOf(s, y.value));
          }
        }
      }
    }
  }

  /** The job of another thread after an unlink's final store. */
  lemma CutJob(s: State, s': State, t: Tid, u: Tid)
    requires Inv(s) && Enabled(s, UnLink(t)) && s' == Do(s, UnLink(t)) && t != u
    ensures JobOk(s', JobOf(s, u))
  {
    hide JobsOk, SecretsOk, BackOk, Do, Linked;
    var j, k := JobOf(s, t), JobOf(s, u);
    UnLinkDoes(s, t);
    UnLinkFirst(s, j.n, j.pv);
    JobIn(s, u);
    KnownLeft(s, t);
    assert j.n in Owns(j) && j.pv in Owns(j) && j.n in Holds(j);
    Disjoint(s, t, u, j.n);
    Disjoint(s, t, u, j.pv);
    forall x | x != j.pv ensures NextOf(s', x) == NextOf(s, x) && Marked(s', x) == Marked(s, x) {
    }
    forall x | x in s.list && x != j.n ensures x in s'.list && (x != j.pv ==> Succ(s'.list, x) == Succ(s.list, x)) {
      WithoutIn(s.list, j.n, x);
      WithoutSucc(s.list, j.pv, j.n, x);
    }
    if k.Splitting? {
      assert k.nr in Holds(k) && k.n in Owns(k);
      assert k.nr == j.pv ==> !Unknown(k, k.nr);
    } else if k.Cutting? {
      assert k.n in Owns(k) && k.pv in Owns(k);
      if k.nx.Some? && k.nx.value in s.nodes {
        assert s'.nodes[k.nx.value].prev == s.nodes[k.nx.value].prev;
      }
    } else if !k.Idle? {
      assert k.n in Owns(k);
    }
  }

  lemma UnLinkJobs(s: State, t: Tid)
    requires Inv(s) && Enabled(s, UnLink(t))
    ensures JobsOk(Do(s, UnLink(t)))
  {
    hide JobsOk, SecretsOk, BackOk, ListOk, Do, JobOk;
    var s' := Do(s, UnLink(t));
    UnLinkDoes(s, t);
    forall u ensures JobOk(s', JobOf(s', u)) {
      if u != t {
        CutJob(s, s', t, u);
      } else {
        IdleOk(s');
      }
    }
    JobsKept(s, s', t);
  }

  lemma IdleOk(s: State)
    ensures JobOk(s, Idle)
  {
  }

  lemma UnLinkRest(s: State, t: Tid)
    requires Inv(s) && Enabled(s, UnLink(t))
    ensures SecretsOk(Do(s, UnLink(t))) && BackOk(Do(s, UnLink(t)))
  {
    hide JobsOk, SecretsOk, Do;
    var s', j := Do(s, UnLink(t)), JobOf(s, t);
    UnLinkDoes(s, t);
    forall y | y in s'.nodes ensures y in s.nodes && s'.nodes[y].prev == s.nodes[y].prev {
    }
    KnownPrev(s, j.n);
    SecretsKept(s, s', t, s.nodes[j.n].prev);
    forall a, b | a in s'.list && Succ(s'.list, a) == Some(b) && b in s'.nodes
      ensures s'.nodes[b].prev == a || exists u :: Repairs(JobOf(s', u), a)
    {
      WithoutIn(s.list, j.n, a);
      WithoutSucc(s.list, j.pv, j.n, a);
      if a != j.pv && s.nodes[b].prev != a {
        var u :| Repairs(JobOf(s, u), a);
        assert Repairs(JobOf(s', u), a);
      }
    }
  }

  lemma KeepUnLink(s: State, t: Tid)
    requires Inv(s) && Enabled(s, UnLink(t))
    ensures Inv(Do(s, UnLink(t)))
  {
    hide ListOk, JobsOk, SecretsOk, BackOk, Do, Enabled;
    UnLinkList(s, t);
    UnLinkJobs(s, t);
    UnLinkRest(s, t);
  }
}
