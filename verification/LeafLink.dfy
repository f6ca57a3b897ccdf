/**
 Masstree's list of leaves under concurrency: link_split puts a new node to the right of a locked node,
 unlink takes a locked node out, and each marks the next pointers it is about to change.

 A run is any interleaving of the steps below; a node is locked while an operation is on it, so no two
 operations have the same node, and the first node is never taken out. Each step is one atomic access to a node
 that others can reach; the step that marks the split node's next pointer also stores the prev and next pointers
 of the new node, which nobody but the splitting thread can reach before its right neighbour's prev pointer is set.
 */
module LeafLink {
  import opened Options

  type Id = int
  type Tid = int

  datatype Node = Node(next: Option<Id>, marked: bool, prev: Id)

  /** Where an operation stands; back says that the right neighbour's prev pointer has been set. */
  datatype Job =
    | Idle
    | Splitting(n: Id, nr: Id, nx: Option<Id>, back: bool)
    | Unlinking(n: Id, nx: Option<Id>)
    | Aiming(n: Id, nx: Option<Id>, pv: Id)
    | Cutting(n: Id, nx: Option<Id>, pv: Id, back: bool)

  /**
   list is the list of nodes as atomic operations would leave it: a split puts its new node in when it marks
   its node, an unlink takes its node out with its final store. hidden holds the new nodes whose split has not
   made its final store, each with the nodes that have since been taken out to the right of it.
   */
  datatype State = State(nodes: map<Id, Node>, jobs: map<Tid, Job>, list: seq<Id>, hidden: map<Id, seq<Id>>)

  function JobOf(s: State, t: Tid): Job {
    if t in s.jobs then s.jobs[t] else Idle
  }

  function NextOf(s: State, x: Id): Option<Id> {
    if x in s.nodes then s.nodes[x].next else None
  }

  predicate Marked(s: State, x: Id) {
    x in s.nodes && s.nodes[x].marked
  }

  // ---------- lists ----------

  ghost predicate Distinct(l: seq<Id>) {
    forall i, j :: 0 <= i < j < |l| ==> l[i] != l[j]
  }

  /** The element after x. */
  function Succ(l: seq<Id>, x: Id): Option<Id> {
    if |l| < 2 then None else if l[0] == x then Some(l[1]) else Succ(l[1..], x)
  }

  function InsertAfter(l: seq<Id>, x: Id, y: Id): seq<Id> {
    if l == [] then [] else if l[0] == x then [x, y] + l[1..] else [l[0]] + InsertAfter(l[1..], x, y)
  }

  function Without(l: seq<Id>, x: Id): seq<Id> {
    if l == [] then [] else if l[0] == x then l[1..] else [l[0]] + Without(l[1..], x)
  }

  /** The list as a reader sees it: in place of a hidden node the nodes it would have bypassed. */
  function Shown(l: seq<Id>, hidden: map<Id, seq<Id>>): seq<Id> {
    if l == [] then [] else (if l[0] in hidden then hidden[l[0]] else [l[0]]) + Shown(l[1..], hidden)
  }

  /** The nodes come one after the other by next pointers, marks stripped, and the last one is the end. */
  ghost predicate Follows(s: State, c: seq<Id>) {
    forall i :: 0 <= i < |c| ==> FollowsAt(s, c, i)
  }

  predicate FollowsAt(s: State, c: seq<Id>, i: nat)
    requires i < |c|
  {
    c[i] in s.nodes && NextOf(s, c[i]) == if i + 1 < |c| then Some(c[i + 1]) else None
  }

  // ---------- steps ----------

  datatype Step =
    | SplitLock(t: Tid, n: Id, nr: Id)
    | SplitBack(t: Tid)
    | SplitLink(t: Tid)
    | UnLock(t: Tid, n: Id)
    | UnRead(t: Tid)
    | UnSwap(t: Tid)
    | UnBack(t: Tid)
    | UnLink(t: Tid)

  /** The nodes an operation has locked. */
  function Holds(j: Job): set<Id> {
    match j
    case Idle => {}
    case Splitting(n, nr, _, _) => {n, nr}
    case Unlinking(n, _) => {n}
    case Aiming(n, _, _) => {n}
    case Cutting(n, _, _, _) => {n}
  }

  ghost predicate Free(s: State, n: Id) {
    forall t :: n !in Holds(JobOf(s, t))
  }

  ghost predicate Enabled(s: State, st: Step) {
    match st
    case SplitLock(t, n, nr) =>
      JobOf(s, t).Idle? && n in s.list && Free(s, n) && nr !in s.nodes && (NextOf(s, n).None? || !Marked(s, n))
    case SplitBack(t) => JobOf(s, t).Splitting? && !JobOf(s, t).back
    case SplitLink(t) => JobOf(s, t).Splitting? && JobOf(s, t).back
    case UnLock(t, n) =>
      JobOf(s, t).Idle? && n in s.list && n != s.list[0] && Free(s, n) && (NextOf(s, n).None? || !Marked(s, n))
    case UnRead(t) => JobOf(s, t).Unlinking? && JobOf(s, t).n in s.nodes
    case UnSwap(t) => JobOf(s, t).Aiming?
    case UnBack(t) => JobOf(s, t).Cutting? && !JobOf(s, t).back
    case UnLink(t) => JobOf(s, t).Cutting? && JobOf(s, t).back
  }

  function SetNode(s: State, x: Id, v: Node): State {
    s.(nodes := s.nodes[x := v])
  }

  function SetJob(s: State, t: Tid, j: Job): State {
    s.(jobs := s.jobs[t := j])
  }

  function SetPrev(s: State, x: Option<Id>, p: Id): State {
    if x.Some? && x.value in s.nodes then SetNode(s, x.value, s.nodes[x.value].(prev := p)) else s
  }

  /** Mark the next pointer, unless it is null. */
  function Mark(s: State, n: Id): State {
    if n in s.nodes && s.nodes[n].next.Some? then SetNode(s, n, s.nodes[n].(marked := true)) else s
  }

  /** Store a next pointer, unmarked. */
  function SetNext(s: State, n: Id, v: Option<Id>): State {
    if n in s.nodes then SetNode(s, n, s.nodes[n].(next := v, marked := false)) else s
  }

  function Do(s: State, st: Step): State {
    var j := JobOf(s, st.t);
    match st
    case SplitLock(t, n, nr) =>
      var s1 := SetNode(Mark(s, n), nr, Node(NextOf(s, n), false, n));
      SetJob(s1.(list := InsertAfter(s.list, n, nr), hidden := s.hidden[nr := []]), t, Splitting(n, nr, NextOf(s, n), false))
    case SplitBack(t) =>
      if j.Splitting? then SetJob(SetPrev(s, j.nx, j.nr), t, Splitting(j.n, j.nr, j.nx, true)) else s
    case SplitLink(t) =>
      if j.Splitting? then SetJob(SetNext(s, j.n, Some(j.nr)).(hidden := s.hidden - {j.nr}), t, Idle) else s
    case UnLock(t, n) => SetJob(Mark(s, n), t, Unlinking(n, NextOf(s, n)))
    case UnRead(t) =>
      if j.Unlinking? && j.n in s.nodes then SetJob(s, t, Aiming(j.n, j.nx, s.nodes[j.n].prev)) else s
    case UnSwap(t) =>
      if j.Aiming? then
        if NextOf(s, j.pv) == Some(j.n) && !Marked(s, j.pv) then SetJob(Mark(s, j.pv), t, Cutting(j.n, j.nx, j.pv, false))
        else SetJob(s, t, Unlinking(j.n, j.nx))
      else s
    case UnBack(t) => if j.Cutting? then SetJob(SetPrev(s, j.nx, j.pv), t, Cutting(j.n, j.nx, j.pv, true)) else s
    case UnLink(t) =>
      if j.Cutting? then
        var h := if j.pv in s.hidden then s.hidden[j.pv := s.hidden[j.pv] + [j.n]] else s.hidden;
        SetJob(SetNext(s, j.pv, j.nx).(list := Without(s.list, j.n), hidden := h), t, Idle)
      else s
  }

  // ---------- facts about lists ----------

  lemma SuccIn(l: seq<Id>, x: Id)
    ensures Succ(l, x).Some? ==> x in l && Succ(l, x).value in l && (Distinct(l) ==> Succ(l, x).value != x && Succ(l, x).value != l[0])
  {
    if |l| >= 2 && l[0] != x {
      SuccIn(l[1..], x);
    }
  }

  lemma SuccUnique(l: seq<Id>, x: Id, y: Id)
    requires Distinct(l) && Succ(l, x).Some? && Succ(l, x) == Succ(l, y)
    ensures x == y
  {
    if l[0] == x || l[0] == y {
      SuccIn(l[1..], x);
      SuccIn(l[1..], y);
    } else {
      SuccUnique(l[1..], x, y);
    }
  }

  lemma InsertIn(l: seq<Id>, x: Id, y: Id, z: Id)
    requires x in l
    ensures z in InsertAfter(l, x, y) <==> z in l || z == y
  {
    if l[0] != x {
      InsertIn(l[1..], x, y, z);
      assert l == [l[0]] + l[1..];
    }
  }

  lemma DistinctCons(x: Id, l: seq<Id>)
    requires x !in l && Distinct(l)
    ensures Distinct([x] + l)
  {
    forall i, j | 0 <= i < j < |[x] + l| ensures ([x] + l)[i] != ([x] + l)[j] {
      if i == 0 {
        assert ([x] + l)[j] == l[j - 1];
      } else {
        assert l[i - 1] != l[j - 1];
      }
    }
  }

  lemma InsertDistinct(l: seq<Id>, x: Id, y: Id)
    requires x in l && y !in l && Distinct(l)
    ensures Distinct(InsertAfter(l, x, y)) && InsertAfter(l, x, y) != [] && InsertAfter(l, x, y)[0] == l[0]
  {
    if l[0] != x {
      InsertDistinct(l[1..], x, y);
      forall z | z in InsertAfter(l[1..], x, y) ensures z != l[0] {
        InsertIn(l[1..], x, y, z);
      }
      DistinctCons(l[0], InsertAfter(l[1..], x, y));
    } else {
      DistinctCons(y, l[1..]);
      DistinctCons(x, [y] + l[1..]);
      assert [x, y] + l[1..] == [x] + ([y] + l[1..]);
    }
  }

  lemma InsertSucc(l: seq<Id>, x: Id, y: Id, z: Id)
    requires x in l && y !in l && Distinct(l)
    ensures Succ(InsertAfter(l, x, y), z) == if z == x then Some(y) else if z == y then Succ(l, x) else Succ(l, z)
  {
    if l[0] == x {
      assert InsertAfter(l, x, y)[1..] == [y] + l[1..];
      assert ([y] + l[1..])[1..] == l[1..];
    } else {
      InsertSucc(l[1..], x, y, z);
      InsertDistinct(l[1..], x, y);
      assert InsertAfter(l, x, y)[1..] == InsertAfter(l[1..], x, y);
    }
  }

  lemma WithoutIn(l: seq<Id>, x: Id, z: Id)
    requires Distinct(l)
    ensures z in Without(l, x) <==> z in l && z != x
  {
    if l != [] && l[0] != x {
      WithoutIn(l[1..], x, z);
      assert l == [l[0]] + l[1..];
    }
  }

  lemma WithoutDistinct(l: seq<Id>, x: Id)
    requires Distinct(l)
    ensures Distinct(Without(l, x))
  {
    if l != [] && l[0] != x {
      WithoutDistinct(l[1..], x);
      forall z | z in Without(l[1..], x) ensures z != l[0] {
        WithoutIn(l[1..], x, z);
      }
      DistinctCons(l[0], Without(l[1..], x));
    }
  }

  lemma WithoutSucc(l: seq<Id>, p: Id, x: Id, z: Id)
    requires Distinct(l) && Succ(l, p) == Some(x) && z != x
    ensures Succ(Without(l, x), z) == if z == p then Succ(l, x) else Succ(l, z)
  {
    SuccIn(l, p);
    if l[0] == p {
      assert l == [p, x] + l[2..];
      assert Without(l, x) == [p] + l[2..];
      assert l[1..] == [x] + l[2..];
      assert l[1..][1..] == l[2..];
      assert Without(l, x)[1..] == l[2..];
    } else {
      WithoutSucc(l[1..], p, x, z);
      SuccIn(l[1..], p);
      assert Without(l, x)[1..] == Without(l[1..], x);
      assert Without(l[1..], x) != [] by { WithoutIn(l[1..], x, p); }
      if z == l[0] {
        WithoutFirst(l[1..], x);
      }
    }
  }

  lemma WithoutFirst(l: seq<Id>, x: Id)
    requires l != [] && l[0] != x
    ensures Without(l, x) != [] && Without(l, x)[0] == l[0]
  {
  }
}
