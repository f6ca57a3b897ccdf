/**
 Optimistic lock coupling in the B+-tree: inserts and lookups descend without locks, check version words
 behind themselves and start again when one has changed; inserts split every full node they meet, under the
 locks of the node and its parent.

 A run is any interleaving of the steps below; every word is read and written on its own. What a thread reads
 from a node whose word is no longer the one it saw may be anything, so a read torn by a writer is covered.
 */
module Olc {
  import opened Options
  import opened Ordered

  type Id = int
  type Tid = int

  /** In a leaf, vals[i] is the payload of keys[i]; in an inner node, kids[i] is left of keys[i]. */
  datatype Body = Leaf(keys: seq<int>, vals: seq<int>) | Inner(keys: seq<int>, kids: seq<Id>)

  /**
   word is the version word counted in units of the lock bit: it is odd while the node is locked, and locking
   and unlocking both add one. The others keep book and no step looks at them: holder is the thread that holds
   the lock, maker the thread that made the node by a split and has not put it into the tree yet, level the
   height above the leaves, and lo < k <= hi the keys the node is responsible for, where None means no bound.
   */
  datatype Node = Node(word: nat, holder: Option<Tid>, maker: Option<Tid>, level: nat, lo: Option<int>, hi: Option<int>,
                       body: Body)

  datatype Goal = Put(key: int, val: int) | Find(key: int)

  /** A node and the word read from it. */
  datatype Spot = Spot(id: Id, seen: nat)

  /** How far a thread has got; above is the parent with the word seen there, if there is a parent. */
  datatype Job =
    | Idle
    | Starting(goal: Goal)
    | RootRead(goal: Goal, node: Id)
    | RootSeen(goal: Goal, at: Spot)
    | Seen(goal: Goal, above: Option<Spot>, at: Spot)
    | Passing(goal: Goal, above: Option<Spot>, at: Spot)
    | Descending(goal: Goal, at: Spot)
    | ChildRead(goal: Goal, at: Spot, child: Id)
    | ChildSure(goal: Goal, at: Spot, child: Id)
    | Crowded(goal: Goal, above: Option<Spot>, at: Spot)
    | AboveHeld(goal: Goal, above: Option<Spot>, at: Spot)
    | BothHeld(goal: Goal, above: Option<Spot>, at: Spot)
    | Sure(goal: Goal, above: Option<Spot>, at: Spot)
    | Halved(goal: Goal, above: Option<Spot>, at: Spot, right: Id, sep: int)
    | Attached(goal: Goal, above: Option<Spot>, at: Spot)
    | AboveLeft(goal: Goal, at: Spot)
    | NodeLeft(goal: Goal, at: Spot)
    | Roomy(goal: Goal, above: Option<Spot>, at: Spot)
    | LeafHeld(goal: Goal, above: Option<Spot>, at: Spot)
    | Writable(goal: Goal, at: Spot)
    | Written(goal: Goal, at: Spot)
    | Answering(goal: Goal, above: Option<Spot>, at: Spot, result: Option<int>)
    | AnswerSure(goal: Goal, at: Spot, result: Option<int>)

  /** What an operation did, entered when it takes effect. */
  datatype Event = Stored(t: Tid, key: int, val: int) | Answered(t: Tid, key: int, result: Option<int>)

  /** leafMax and innerMax are the maxEntries of the two kinds of node. */
  datatype State = State(leafMax: nat, innerMax: nat, nodes: map<Id, Node>, root: Id, jobs: map<Tid, Job>, log: seq<Event>)

  function JobOf(s: State, t: Tid): Job {
    if t in s.jobs then s.jobs[t] else Idle
  }

  const NO_NODE: Node := Node(0, None, None, 0, None, None, Leaf([], []))

  function At(s: State, n: Id): Node {
    if n in s.nodes then s.nodes[n] else NO_NODE
  }

  // ---------- nodes as sequences ----------

  function Get(b: Body, k: int): Option<int> {
    if b.Inner? then None else
      var p := Rank(b.keys, k);
      if p < |b.keys| && b.keys[p] == k && p < |b.vals| then Some(b.vals[p]) else None
  }

  function WithPair(b: Body, k: int, v: int): Body {
    if b.Inner? || |b.keys| != |b.vals| then b else
      var p := Rank(b.keys, k);
      if p < |b.keys| && b.keys[p] == k then Leaf(b.keys, b.vals[p := v])
      else Leaf(InsertAt(b.keys, p, k), InsertAt(b.vals, p, v))
  }

  /** The child in whose direction a key lies. */
  function Child(b: Body, k: int): Id {
    if b.Inner? && Rank(b.keys, k) < |b.kids| then b.kids[Rank(b.keys, k)] else 0
  }

  function WithChild(b: Body, sep: int, c: Id): Body {
    if b.Leaf? || |b.kids| != |b.keys| + 1 then b else
      var p := Rank(b.keys, sep);
      Inner(InsertAt(b.keys, p, sep), InsertAt(b.kids, p + 1, c))
  }

  predicate Splittable(b: Body) {
    if b.Leaf? then |b.keys| == |b.vals| >= 2 else |b.kids| == |b.keys| + 1 && |b.keys| >= 4
  }

  /** A leaf keeps its lower half; an inner node keeps the keys below the middle one, which goes up. */
  function LeftHalf(b: Body): Body {
    if !Splittable(b) then b
    else if b.Leaf? then Leaf(b.keys[..|b.keys| / 2], b.vals[..|b.keys| / 2])
    else Inner(b.keys[..|b.keys| / 2 - 1], b.kids[..|b.keys| / 2])
  }

  function RightHalf(b: Body): Body {
    if !Splittable(b) then b
    else if b.Leaf? then Leaf(b.keys[|b.keys| / 2..], b.vals[|b.keys| / 2..])
    else Inner(b.keys[|b.keys| / 2..], b.kids[|b.keys| / 2..])
  }

  function Separator(b: Body): int {
    if !Splittable(b) then 0 else b.keys[|b.keys| / 2 - 1]
  }

  predicate Full(s: State, b: Body) {
    |b.keys| >= if b.Leaf? then s.leafMax else s.innerMax - 1
  }

  // ---------- the map the tree stands for ----------

  ghost function Replay(log: seq<Event>): map<int, int> {
    if log == [] then map[] else
      var m := Replay(log[..|log| - 1]);
      var e := log[|log| - 1];
      if e.Stored? then m[e.key := e.val] else m
  }

  ghost function Value(m: map<int, int>, k: int): Option<int> {
    if k in m then Some(m[k]) else None
  }

  // ---------- steps ----------

  datatype Step =
    | Call(t: Tid, goal: Goal)
    | ReadRoot(t: Tid)
    | SeeRoot(t: Tid)
    | CheckRoot(t: Tid)
    | Look(t: Tid, full: bool)
    | Pass(t: Tid)
    | ReadChild(t: Tid, child: Id)
    | CheckChild(t: Tid)
    | SeeChild(t: Tid)
    | LockAbove(t: Tid)
    | LockNode(t: Tid)
    | CheckTop(t: Tid)
    | Halve(t: Tid, right: Id)
    | Attach(t: Tid, top: Id)
    | FreeNode(t: Tid)
    | FreeAbove(t: Tid)
    | LockLeaf(t: Tid)
    | CheckAbove(t: Tid)
    | Write(t: Tid)
    | FreeLeaf(t: Tid)
    | ReadLeaf(t: Tid, result: Option<int>)
    | CheckAnswer(t: Tid)
    | Return(t: Tid)

  predicate Hits(s: State, p: Spot) {
    p.id in s.nodes && s.nodes[p.id].word == p.seen
  }

  predicate AboveHits(s: State, above: Option<Spot>) {
    above.None? || Hits(s, above.value)
  }

  predicate Enabled(s: State, st: Step) {
    var j := JobOf(s, st.t);
    match st
    case Call(t, goal) => j.Idle?
    case ReadRoot(t) => j.Starting?
    case SeeRoot(t) => j.RootRead?
    case CheckRoot(t) => j.RootSeen?
    case Look(t, full) =>
      && j.Seen? && (j.goal.Put? || At(s, j.at.id).body.Inner?)
      && (j.goal.Find? ==> !full)
      && (j.goal.Put? && Hits(s, j.at) ==> full == Full(s, At(s, j.at.id).body))
    case Pass(t) => j.Passing?
    case ReadChild(t, c) => j.Descending? && (Hits(s, j.at) ==> c == Child(At(s, j.at.id).body, j.goal.key))
    case CheckChild(t) => j.ChildRead?
    case SeeChild(t) => j.ChildSure?
    case LockAbove(t) => j.Crowded?
    case LockNode(t) => j.AboveHeld?
    case CheckTop(t) => j.BothHeld?
    case Halve(t, right) => j.Sure? && right !in s.nodes
    case Attach(t, top) => j.Halved? && top !in s.nodes
    case FreeNode(t) => j.Attached? || j.NodeLeft?
    case FreeAbove(t) => j.AboveLeft?
    case LockLeaf(t) => j.Roomy?
    case CheckAbove(t) => j.LeafHeld?
    case Write(t) => j.Writable?
    case FreeLeaf(t) => j.Written?
    case ReadLeaf(t, r) =>
      && j.Seen? && j.goal.Find? && At(s, j.at.id).body.Leaf?
      && (Hits(s, j.at) ==> r == Get(At(s, j.at.id).body, j.goal.key))
    case CheckAnswer(t) => j.Answering?
    case Return(t) => j.AnswerSure?
  }

  function SetJob(s: State, t: Tid, j: Job): State {
    s.(jobs := s.jobs[t := j])
  }

  function SetNode(s: State, n: Id, x: Node): State {
    s.(nodes := s.nodes[n := x])
  }

  function Lock(s: State, n: Id, t: Tid): State {
    SetNode(s, n, At(s, n).(word := At(s, n).word + 1, holder := Some(t)))
  }

  function Unlock(s: State, n: Id): State {
    SetNode(s, n, At(s, n).(word := At(s, n).word + 1, holder := None))
  }

  predicate Unlocked(s: State, n: Id) {
    At(s, n).word % 2 == 0
  }

  /** The job once a full or roomy node has been told apart, or an inner node may be passed. */
  function Looked(s: State, j: Job, full: bool): Job
    requires j.Seen?
  {
    if full then Crowded(j.goal, j.above, j.at)
    else if At(s, j.at.id).body.Inner? then Passing(j.goal, j.above, j.at)
    else Roomy(j.goal, j.above, j.at)
  }

  function DoHalve(s: State, t: Tid, right: Id): State
    requires JobOf(s, t).Sure?
  {
    var j := JobOf(s, t);
    var x := At(s, j.at.id);
    var sep := Separator(x.body);
    var y := Node(0, None, Some(t), x.level, Some(sep), x.hi, RightHalf(x.body));
    SetJob(SetNode(SetNode(s, j.at.id, x.(hi := Some(sep), body := LeftHalf(x.body))), right, y),
           t, Halved(j.goal, j.above, j.at, right, sep))
  }

  function DoAttach(s: State, t: Tid, top: Id): State
    requires JobOf(s, t).Halved?
  {
    var j := JobOf(s, t);
    var s1 := SetNode(s, j.right, At(s, j.right).(maker := None));
    var s2 := if j.above.Some? then
                var p := j.above.value.id;
                SetNode(s1, p, At(s1, p).(body := WithChild(At(s1, p).body, j.sep, j.right)))
              else
                SetNode(s1, top, Node(0, None, None, At(s, j.at.id).level + 1, None, None,
                                      Inner([j.sep], [j.at.id, j.right]))).(root := top);
    SetJob(s2, t, Attached(j.goal, j.above, j.at))
  }

  function DoFreeNode(s: State, t: Tid): State
    requires JobOf(s, t).Attached? || JobOf(s, t).NodeLeft?
  {
    var j := JobOf(s, t);
    SetJob(Unlock(s, j.at.id), t,
           if j.Attached? && j.above.Some? then AboveLeft(j.goal, j.above.value) else Starting(j.goal))
  }

  function DoLockAbove(s: State, t: Tid): State
    requires JobOf(s, t).Crowded?
  {
    var j := JobOf(s, t);
    if !AboveHits(s, j.above) then SetJob(s, t, Starting(j.goal))
    else SetJob(if j.above.Some? then Lock(s, j.above.value.id, t) else s, t, AboveHeld(j.goal, j.above, j.at))
  }

  function DoLockNode(s: State, t: Tid): State
    requires JobOf(s, t).AboveHeld?
  {
    var j := JobOf(s, t);
    if Hits(s, j.at) then SetJob(Lock(s, j.at.id, t), t, BothHeld(j.goal, j.above, j.at))
    else SetJob(s, t, if j.above.Some? then AboveLeft(j.goal, j.above.value) else Starting(j.goal))
  }

  function DoWrite(s: State, t: Tid): State
    requires JobOf(s, t).Writable? && JobOf(s, t).goal.Put?
  {
    var j := JobOf(s, t);
    var x := At(s, j.at.id);
    SetJob(SetNode(s, j.at.id, x.(body := WithPair(x.body, j.goal.key, j.goal.val))), t, Written(j.goal, j.at))
      .(log := s.log + [Stored(t, j.goal.key, j.goal.val)])
  }

  function DoReturn(s: State, t: Tid): State
    requires JobOf(s, t).AnswerSure?
  {
    var j := JobOf(s, t);
    if Hits(s, j.at) then SetJob(s, t, Idle).(log := s.log + [Answered(t, j.goal.key, j.result)])
    else SetJob(s, t, Starting(j.goal))
  }

  function Do(s: State, st: Step): State
    requires Enabled(s, st)
  {
    var t := st.t;
    var j := JobOf(s, t);
    match st
    case Call(_, goal) => SetJob(s, t, Starting(goal))
    case ReadRoot(_) => SetJob(s, t, RootRead(j.goal, s.root))
    case SeeRoot(_) =>
      SetJob(s, t, if Unlocked(s, j.node) then RootSeen(j.goal, Spot(j.node, At(s, j.node).word)) else Starting(j.goal))
    case CheckRoot(_) => SetJob(s, t, if j.at.id == s.root then Seen(j.goal, None, j.at) else Starting(j.goal))
    case Look(_, full) => SetJob(s, t, Looked(s, j, full))
    case Pass(_) => SetJob(s, t, if AboveHits(s, j.above) then Descending(j.goal, j.at) else Starting(j.goal))
    case ReadChild(_, c) => SetJob(s, t, ChildRead(j.goal, j.at, c))
    case CheckChild(_) => SetJob(s, t, if Hits(s, j.at) then ChildSure(j.goal, j.at, j.child) else Starting(j.goal))
    case SeeChild(_) =>
      SetJob(s, t, if Unlocked(s, j.child) then Seen(j.goal, Some(j.at), Spot(j.child, At(s, j.child).word))
                   else Starting(j.goal))
    case LockAbove(_) => DoLockAbove(s, t)
    case LockNode(_) => DoLockNode(s, t)
    case CheckTop(_) =>
      SetJob(s, t, if j.above.None? && j.at.id != s.root then NodeLeft(j.goal, j.at) else Sure(j.goal, j.above, j.at))
    case Halve(_, right) => DoHalve(s, t, right)
    case Attach(_, top) => DoAttach(s, t, top)
    case FreeNode(_) => DoFreeNode(s, t)
    case FreeAbove(_) => SetJob(Unlock(s, j.at.id), t, Starting(j.goal))
    case LockLeaf(_) =>
      if Hits(s, j.at) then SetJob(Lock(s, j.at.id, t), t, LeafHeld(j.goal, j.above, j.at))
      else SetJob(s, t, Starting(j.goal))
    case CheckAbove(_) =>
      SetJob(s, t, if AboveHits(s, j.above) then Writable(j.goal, j.at) else NodeLeft(j.goal, j.at))
    case Write(_) => if j.goal.Put? then DoWrite(s, t) else s
    case FreeLeaf(_) => SetJob(Unlock(s, j.at.id), t, Idle)
    case ReadLeaf(_, r) => SetJob(s, t, Answering(j.goal, j.above, j.at, r))
    case CheckAnswer(_) =>
      SetJob(s, t, if AboveHits(s, j.above) then AnswerSure(j.goal, j.at, j.result) else Starting(j.goal))
    case Return(_) => DoReturn(s, t)
  }
}
