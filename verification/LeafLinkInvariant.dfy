/**
 What every step of link_split and unlink keeps, and what it says of the chain of next pointers.
 */
module LeafLinkInvariant {
  import opened Options
  import opened LeafLink

  // ---------- invariant ----------

  /** The next pointers an operation has the right to change. */
  function Owns(j: Job): set<Id> {
    match j
    case Idle => {}
    case Splitting(n, _, _, _) => {n}
    case Unlinking(n, _) => {n}
    case Aiming(n, _, _) => {n}
    case Cutting(n, _, pv, _) => {n, pv}
  }

  /** From x the next pointers lead through the nodes of gone to end. */
  ghost predicate Path(s: State, x: Id, gone: seq<Id>, end: Option<Id>)
    decreases |gone|
  {
    if gone == [] then NextOf(s, x) == end
    else NextOf(s, x) == Some(gone[0]) && gone[0] in s.nodes && gone[0] !in s.list && Path(s, gone[0], gone[1..], end)
  }

  /** Where the next pointer of a node of the list leads. */
  ghost predicate Linked(s: State, x: Id) {
    var y := Succ(s.list, x);
    if y.Some? && y.value in s.hidden then Path(s, x, s.hidden[y.value], NextOf(s, y.value))
    else NextOf(s, x) == y
  }

  ghost predicate ListOk(s: State) {
    && s.list != [] && Distinct(s.list) && s.list[0] !in s.hidden
    && (forall x :: x in s.list ==> x in s.nodes && Linked(s, x))
    && (forall x :: x in s.hidden ==> x in s.list)
    && (forall x :: x in s.nodes && x !in s.list && s.nodes[x].next.Some? ==> s.nodes[x].marked)
  }

  /** The new node of a split that nobody can know yet. */
  predicate Unknown(j: Job, x: Id) {
    j.Splitting? && !j.back && j.nr == x
  }

  ghost predicate JobOk(s: State, j: Job) {
    && (forall x :: x in Owns(j) ==> x in s.list && (NextOf(s, x).Some? ==> Marked(s, x)))
    && match j
       case Idle => true
       case Splitting(n, nr, nx, back) =>
         && nr in s.list && Succ(s.list, n) == Some(nr) && nr in s.hidden
         && (!back ==> s.hidden[nr] == [] && NextOf(s, nr) == nx)
       case Unlinking(n, nx) => n !in s.hidden && n != s.list[0] && NextOf(s, n) == nx
       case Aiming(n, nx, pv) => n !in s.hidden && n != s.list[0] && NextOf(s, n) == nx
       case Cutting(n, nx, pv, back) =>
         && n !in s.hidden && NextOf(s, n) == nx && Succ(s.list, pv) == Some(n)
         && (back && nx.Some? ==> nx.value in s.nodes && s.nodes[nx.value].prev == pv)
  }

  ghost predicate JobsOk(s: State) {
    && (forall t :: JobOk(s, JobOf(s, t)))
    && (forall t, u, x :: t != u && x in Owns(JobOf(s, t)) ==> x !in Owns(JobOf(s, u)))
    && (forall t, u, x :: t != u && x in Holds(JobOf(s, t)) ==> x !in Holds(JobOf(s, u)))
    && (forall x :: x in s.hidden ==> exists t :: JobOf(s, t).Splitting? && JobOf(s, t).nr == x)
  }

  /** The node an unlink believes to be before its own. */
  predicate Aims(j: Job, x: Id) {
    (j.Aiming? || j.Cutting?) && j.pv == x
  }

  /** Nothing leads back to x. */
  ghost predicate Secret(s: State, x: Id) {
    && (forall y :: y in s.nodes ==> s.nodes[y].prev != x)
    && (forall u :: !Aims(JobOf(s, u), x))
  }

  /** The prev pointer of y, in s', leads to a node of s. */
  predicate Grounded(s: State, s': State, y: Id) {
    y in s'.nodes ==> s'.nodes[y].prev in s.nodes
  }

  /** No pointer leads back to a node that nobody can know yet, or to no node at all. */
  ghost predicate SecretsOk(s: State) {
    && (forall y :: Grounded(s, s, y))
    && (forall u, x :: Aims(JobOf(s, u), x) ==> x in s.nodes)
    && (forall t, x :: Unknown(JobOf(s, t), x) ==> Secret(s, x))
  }

  /** An operation that will set right the prev pointer of the node after a. */
  predicate Repairs(j: Job, a: Id) {
    (j.Cutting? && j.n == a && j.back) || Unknown(j, a)
  }

  /** Adjacent nodes point back at each other, or the operation that will see to it is on its way. */
  ghost predicate BackOk(s: State) {
    forall a, b :: a in s.list && Succ(s.list, a) == Some(b) && b in s.nodes ==>
      s.nodes[b].prev == a || exists t :: Repairs(JobOf(s, t), a)
  }

  ghost predicate Inv(s: State) {
    ListOk(s) && JobsOk(s) && SecretsOk(s) && BackOk(s)
  }

  lemma NotSplit(s: State, x: Id, y: Id)
    requires JobsOk(s) && Distinct(s.list) && Succ(s.list, x) == Some(y) && y in s.hidden
    ensures exists t :: JobOf(s, t).Splitting? && JobOf(s, t).nr == y && JobOf(s, t).n == x
  {
    var t :| JobOf(s, t).Splitting? && JobOf(s, t).nr == y;
    assert JobOk(s, JobOf(s, t));
    SuccUnique(s.list, x, JobOf(s, t).n);
  }

  lemma Splitter(s: State, x: Id) returns (t: Tid)
    requires JobsOk(s) && x in s.hidden
    ensures JobOf(s, t).Splitting? && JobOf(s, t).nr == x
  {
    t :| JobOf(s, t).Splitting? && JobOf(s, t).nr == x;
  }

  /** A node that no split is on is linked to its successor. */
  lemma NextIsSucc(s: State, x: Id)
    requires ListOk(s) && JobsOk(s) && x in s.list && forall t :: JobOf(s, t).Splitting? ==> JobOf(s, t).n != x
    ensures NextOf(s, x) == Succ(s.list, x) && (Succ(s.list, x).Some? ==> Succ(s.list, x).value !in s.hidden)
  {
    assert Linked(s, x);
    var y := Succ(s.list, x);
    if y.Some? && y.value in s.hidden {
      NotSplit(s, x, y.value);
    }
  }

  /** The node an operation has locked is on no other operation's mind. */
  lemma HeldAlone(s: State, t: Tid, x: Id)
    requires JobsOk(s) && x in Holds(JobOf(s, t))
    ensures forall u :: u != t ==> x !in Holds(JobOf(s, u))
    ensures (!JobOf(s, t).Splitting? || JobOf(s, t).nr == x) && ListOk(s) ==> forall u :: JobOf(s, u).Splitting? ==> JobOf(s, u).n != x
  {
    if ListOk(s) && JobOf(s, t).Splitting? && JobOf(s, t).nr == x {
      assert JobOk(s, JobOf(s, t));
      SuccIn(s.list, JobOf(s, t).n);
    }
    forall u | JobOf(s, u).Splitting? && JobOf(s, u).n == x ensures x in Holds(JobOf(s, u)) {
    }
  }

  // ---------- what readers see ----------

  /** From a visible node on, the chain of next pointers is the shown list. */
  lemma {:induction false} ShownFollows(s: State, l: seq<Id>)
    requires ListOk(s) && l != [] && l[0] !in s.hidden && Distinct(l)
    requires forall i :: 0 <= i < |l| - 1 && l[i] in s.hidden ==> l[i + 1] !in s.hidden
    requires forall x :: x in l ==> x in s.list && Succ(l, x) == Succ(s.list, x)
    ensures Shown(l, s.hidden) != [] && Shown(l, s.hidden)[0] == l[0] && Follows(s, Shown(l, s.hidden))
    decreases |l|
  {
    var x := l[0];
    assert Linked(s, x);
    if |l| == 1 {
      assert Shown(l[1..], s.hidden) == [];
    } else if l[1] !in s.hidden {
      TailSucc(s.list, l);
      ShownFollows(s, l[1..]);
      FollowsCons(s, x, Shown(l[1..], s.hidden));
    } else {
      var y := l[1];
      assert Linked(s, y);
      assert l[1..] == [y] + l[2..];
      if |l| == 2 {
        assert Shown(l[2..], s.hidden) == [];
        assert Succ(l[1..], y) == None && Succ(l, y) == None;
        FollowsPath(s, x, s.hidden[y], []);
      } else {
        TailSucc(s.list, l);
        TailSucc(s.list, l[1..]);
        assert l[1..][1..] == l[2..];
        ShownFollows(s, l[2..]);
        FollowsPath(s, x, s.hidden[y], Shown(l[2..], s.hidden));
      }
      assert Shown(l, s.hidden) == [x] + (s.hidden[y] + Shown(l[2..], s.hidden));
    }
  }

  lemma TailSucc(all: seq<Id>, l: seq<Id>)
    requires |l| >= 2 && Distinct(l) && forall x :: x in l ==> x in all && Succ(l, x) == Succ(all, x)
    ensures forall x :: x in l[1..] ==> x in all && Succ(l[1..], x) == Succ(all, x)
  {
  }

  lemma FollowsCons(s: State, x: Id, c: seq<Id>)
    requires x in s.nodes && Follows(s, c) && NextOf(s, x) == if c == [] then None else Some(c[0])
    ensures Follows(s, [x] + c)
  {
    var d := [x] + c;
    forall i | 0 <= i < |d| ensures FollowsAt(s, d, i) {
      if i > 0 {
        assert FollowsAt(s, c, i - 1);
      }
    }
  }

  lemma {:induction false} FollowsPath(s: State, x: Id, gone: seq<Id>, c: seq<Id>)
    requires x in s.nodes && Follows(s, c) && Path(s, x, gone, if c == [] then None else Some(c[0]))
    ensures Follows(s, [x] + (gone + c))
    decreases |gone|
  {
    if gone == [] {
      FollowsCons(s, x, c);
      assert gone + c == c;
    } else {
      FollowsPath(s, gone[0], gone[1..], c);
      assert gone + c == [gone[0]] + (gone[1..] + c);
      FollowsCons(s, x, gone + c);
    }
  }

  /** Hidden nodes are never next to each other. */
  lemma HiddenApart(s: State, x: Id, y: Id)
    requires Inv(s) && x in s.hidden && Succ(s.list, x) == Some(y)
    ensures y !in s.hidden
  {
    hide JobsOk, SecretsOk, BackOk;
    var u := Splitter(s, x);
    assert x in Holds(JobOf(s, u));
    HeldAlone(s, u, x);
    NextIsSucc(s, x);
  }

  lemma SuccAt(l: seq<Id>, i: nat)
    requires Distinct(l) && i + 1 < |l|
    ensures Succ(l, l[i]) == Some(l[i + 1])
  {
    if i > 0 {
      SuccAt(l[1..], i - 1);
    }
  }

  /**
   What a reader finds by following next pointers from the first node, marks stripped, is the list of the
   operations, with each node whose split is not linked yet replaced by the nodes taken out behind it since.
   */
  lemma ChainIsShown(s: State)
    requires Inv(s)
    ensures Follows(s, Shown(s.list, s.hidden)) && Shown(s.list, s.hidden) != [] && Shown(s.list, s.hidden)[0] == s.list[0]
  {
    forall i | 0 <= i < |s.list| - 1 && s.list[i] in s.hidden ensures s.list[i + 1] !in s.hidden {
      SuccAt(s.list, i);
      HiddenApart(s, s.list[i], s.list[i + 1]);
    }
    ShownFollows(s, s.list);
  }

  /** Two chains of next pointers from the same node are the same. */
  lemma {:induction false} FollowsUnique(s: State, c: seq<Id>, d: seq<Id>)
    requires Follows(s, c) && Follows(s, d) && c != [] && d != [] && c[0] == d[0]
    ensures c == d
    decreases |c|
  {
    assert FollowsAt(s, c, 0) && FollowsAt(s, d, 0);
    if |c| > 1 {
      FollowsTail(s, c);
      FollowsTail(s, d);
      FollowsUnique(s, c[1..], d[1..]);
      assert c == [c[0]] + c[1..] && d == [d[0]] + d[1..];
    }
  }

  lemma FollowsTail(s: State, c: seq<Id>)
    requires Follows(s, c) && |c| > 1
    ensures Follows(s, c[1..])
  {
    var d := c[1..];
    forall i | 0 <= i < |d| ensures FollowsAt(s, d, i) {
      assert FollowsAt(s, c, i + 1);
    }
  }
}
