/**
 What every step of the optimistic protocol keeps: how the nodes of the tree fit together, who holds which lock,
 that the leaves hold the map the log stands for, and what each thread knows at each point of its way.
 */
module OlcInvariant {
  import opened Options
  import opened Ordered
  import opened Olc

  // ---------- key ranges ----------

  predicate Over(lo: Option<int>, k: int) {
    lo.None? || lo.value < k
  }

  predicate UpTo(hi: Option<int>, k: int) {
    hi.None? || k <= hi.value
  }

  predicate InSpan(x: Node, k: int) {
    Over(x.lo, k) && UpTo(x.hi, k)
  }

  predicate Wide(x: Node) {
    x.lo.None? || x.hi.None? || x.lo.value < x.hi.value
  }

  /** Every key of one range lies below every key of the other, or the other way round. */
  predicate Apart(x: Node, y: Node) {
    || (x.hi.Some? && y.lo.Some? && x.hi.value <= y.lo.value)
    || (y.hi.Some? && x.lo.Some? && y.hi.value <= x.lo.value)
  }

  /** The i-th bound of the children of a node: its own bounds outside, its keys inside. */
  function Cut(x: Node, i: int): Option<int> {
    if i <= 0 then x.lo else if i <= |x.body.keys| then Some(x.body.keys[i - 1]) else x.hi
  }

  // ---------- one node ----------

  ghost predicate LeafOk(s: State, x: Node) {
    && x.level == 0 && x.body.Leaf? && |x.body.keys| == |x.body.vals| <= s.leafMax && Sorted(x.body.keys)
    && forall i :: 0 <= i < |x.body.keys| ==> InSpan(x, x.body.keys[i])
  }

  ghost predicate InnerOk(s: State, x: Node) {
    && x.level > 0 && x.body.Inner? && |x.body.kids| == |x.body.keys| + 1 && 1 <= |x.body.keys| < s.innerMax
    && Sorted(x.body.keys)
    && forall i :: 0 <= i < |x.body.keys| ==> Over(x.lo, x.body.keys[i]) && (x.hi.None? || x.body.keys[i] < x.hi.value)
  }

  ghost predicate NodeOk(s: State, x: Node) {
    && Wide(x) && (x.word % 2 == 1 <==> x.holder.Some?) && (x.maker.Some? ==> x.holder.None?)
    && if x.body.Leaf? then LeafOk(s, x) else InnerOk(s, x)
  }

  // ---------- the tree ----------

  /** A thread has cut child i of node n in two and not yet put the right part beside it. */
  predicate Torn(s: State, n: Id, i: int, j: Job) {
    && n in s.nodes && var x := s.nodes[n];
    && x.body.Inner? && 0 <= i < |x.body.kids|
    && j.Halved? && j.above.Some? && j.above.value.id == n && j.at.id == x.body.kids[i]
    && j.at.id in s.nodes && j.right in s.nodes
    && s.nodes[j.at.id].lo == Cut(x, i) && s.nodes[j.at.id].hi == Some(j.sep)
    && s.nodes[j.right].lo == Some(j.sep) && s.nodes[j.right].hi == Cut(x, i + 1)
  }

  predicate Exact(s: State, n: Id, i: int) {
    && n in s.nodes && var x := s.nodes[n];
    && x.body.Inner? && 0 <= i < |x.body.kids| && x.body.kids[i] in s.nodes
    && s.nodes[x.body.kids[i]].lo == Cut(x, i) && s.nodes[x.body.kids[i]].hi == Cut(x, i + 1)
  }

  /** Child i of node n has the range its parent gives it, but for the one the parent's holder is splitting. */
  predicate Fits(s: State, n: Id, i: int) {
    && n in s.nodes && var x := s.nodes[n];
    && x.body.Inner? && 0 <= i < |x.body.kids|
    && var c := x.body.kids[i];
    && c in s.nodes && s.nodes[c].maker.None? && s.nodes[c].level + 1 == x.level
    && (Exact(s, n, i) || (x.holder.Some? && Torn(s, n, i, JobOf(s, x.holder.value))))
  }

  ghost predicate AllFit(s: State, n: Id) {
    n in s.nodes && s.nodes[n].body.Inner? ==> forall i :: 0 <= i < |s.nodes[n].body.kids| ==> Fits(s, n, i)
  }

  predicate RootTorn(s: State, j: Job) {
    && j.Halved? && j.above.None? && j.at.id == s.root && s.root in s.nodes && j.right in s.nodes
    && s.nodes[s.root].lo.None? && s.nodes[s.root].hi == Some(j.sep)
    && s.nodes[j.right].lo == Some(j.sep) && s.nodes[j.right].hi.None?
  }

  predicate RootOk(s: State) {
    && s.root in s.nodes && var x := s.nodes[s.root];
    && x.maker.None?
    && ((x.lo.None? && x.hi.None?) || (x.holder.Some? && RootTorn(s, JobOf(s, x.holder.value))))
  }

  ghost predicate LevelsOk(s: State) {
    && s.root in s.nodes
    && (forall n :: n in s.nodes ==> s.nodes[n].level <= s.nodes[s.root].level)
    && (forall m, n :: m in s.nodes && n in s.nodes && m != n && s.nodes[m].level == s.nodes[n].level
         ==> Apart(s.nodes[m], s.nodes[n]))
  }

  // ---------- locks ----------

  function Ids(above: Option<Spot>): set<Id> {
    if above.Some? then {above.value.id} else {}
  }

  /** The nodes whose locks a thread has at a point of its way. */
  function HeldBy(j: Job): set<Id> {
    match j
    case AboveHeld(_, above, _) => Ids(above)
    case BothHeld(_, above, at) => Ids(above) + {at.id}
    case Sure(_, above, at) => Ids(above) + {at.id}
    case Halved(_, above, at, _, _) => Ids(above) + {at.id}
    case Attached(_, above, at) => Ids(above) + {at.id}
    case AboveLeft(_, at) => {at.id}
    case NodeLeft(_, at) => {at.id}
    case LeafHeld(_, _, at) => {at.id}
    case Writable(_, at) => {at.id}
    case Written(_, at) => {at.id}
    case _ => {}
  }

  ghost predicate LocksOk(s: State) {
    && (forall n, t :: n in s.nodes && s.nodes[n].holder == Some(t) ==> n in HeldBy(JobOf(s, t)))
    && (forall n, t :: n in HeldBy(JobOf(s, t)) ==> n in s.nodes && s.nodes[n].holder == Some(t))
    && (forall n, t :: n in s.nodes && s.nodes[n].maker == Some(t) ==> JobOf(s, t).Halved? && JobOf(s, t).right == n)
  }

  // ---------- contents ----------

  ghost predicate LeafTells(s: State, n: Id) {
    n in s.nodes && s.nodes[n].body.Leaf? ==>
      forall k :: InSpan(s.nodes[n], k) ==> Get(s.nodes[n].body, k) == Value(Replay(s.log), k)
  }

  predicate IsLeafFor(s: State, n: Id, k: int) {
    n in s.nodes && s.nodes[n].body.Leaf? && InSpan(s.nodes[n], k)
  }

  ghost predicate HasLeaf(s: State, k: int) {
    exists n :: IsLeafFor(s, n, k)
  }

  ghost predicate Contents(s: State) {
    && (forall n :: n in s.nodes ==> LeafTells(s, n))
    && (forall k :: HasLeaf(s, k))
  }

  /** Every answer in the log is the one the map gave at that moment. */
  ghost predicate Legal(log: seq<Event>) {
    forall i :: 0 <= i < |log| && log[i].Answered? ==> log[i].result == Value(Replay(log[..i]), log[i].key)
  }

  // ---------- what a thread knows ----------

  predicate Known(s: State, p: Spot) {
    p.id in s.nodes && p.seen % 2 == 0 && p.seen <= s.nodes[p.id].word && s.nodes[p.id].maker.None?
  }

  predicate KnownLeaf(s: State, p: Spot) {
    Known(s, p) && At(s, p.id).body.Leaf?
  }

  predicate KnownInner(s: State, p: Spot) {
    Known(s, p) && At(s, p.id).body.Inner?
  }

  /** The parent is an inner node, with room if the thread is an insert and the parent is unchanged. */
  predicate AboveOk(s: State, g: Goal, above: Option<Spot>) {
    above.Some? ==> KnownInner(s, above.value) && (g.Put? && Hits(s, above.value) ==> !Full(s, At(s, above.value.id).body))
  }

  predicate Leads(s: State, p: Spot, at: Spot, k: int) {
    InSpan(At(s, p.id), k) && at.id == Child(At(s, p.id).body, k)
  }

  /** While the parent is unchanged the node is its child for the key; without a parent, while the node is unchanged
      it has the key in its range. */
  predicate Linked(s: State, g: Goal, above: Option<Spot>, at: Spot) {
    if above.Some? then Hits(s, above.value) ==> Leads(s, above.value, at, g.key)
    else Hits(s, at) ==> InSpan(At(s, at.id), g.key)
  }

  predicate Holds(s: State, p: Spot, t: Tid) {
    p.id in s.nodes && s.nodes[p.id].holder == Some(t) && s.nodes[p.id].maker.None?
  }

  /** The parent is locked, has room, and the node is its child. */
  predicate HoldsAbove(s: State, t: Tid, g: Goal, above: Option<Spot>, at: Spot) {
    above.Some? ==>
      && Holds(s, above.value, t) && At(s, above.value.id).body.Inner? && !Full(s, At(s, above.value.id).body)
      && Leads(s, above.value, at, g.key)
  }

  predicate Crossing(s: State, g: Goal, p: Spot) {
    KnownInner(s, p) && (Hits(s, p) ==> InSpan(At(s, p.id), g.key) && (g.Put? ==> !Full(s, At(s, p.id).body)))
  }

  predicate HalvedOk(s: State, t: Tid, j: Job)
    requires j.Halved?
  {
    && Holds(s, j.at, t) && j.right in s.nodes && s.nodes[j.right].maker == Some(t)
    && s.nodes[j.right].level == s.nodes[j.at.id].level
    && if j.above.Some? then
         && Holds(s, j.above.value, t) && At(s, j.above.value.id).body.Inner? && !Full(s, At(s, j.above.value.id).body)
         && Torn(s, j.above.value.id, Rank(At(s, j.above.value.id).body.keys, j.sep), j)
       else RootTorn(s, j)
  }

  predicate JobOk(s: State, t: Tid, j: Job) {
    match j
    case Idle => true
    case Starting(_) => true
    case RootRead(_, n) => n in s.nodes && s.nodes[n].maker.None?
    case RootSeen(_, at) => Known(s, at)
    case Seen(g, above, at) => Known(s, at) && AboveOk(s, g, above) && Linked(s, g, above, at)
    case Passing(g, above, at) =>
      && KnownInner(s, at) && AboveOk(s, g, above) && Linked(s, g, above, at)
      && (g.Put? && Hits(s, at) ==> !Full(s, At(s, at.id).body))
    case Descending(g, at) => Crossing(s, g, at)
    case ChildRead(g, at, c) => Crossing(s, g, at) && (Hits(s, at) ==> c == Child(At(s, at.id).body, g.key))
    case ChildSure(g, at, c) =>
      && Crossing(s, g, at) && (Hits(s, at) ==> c == Child(At(s, at.id).body, g.key))
      && c in s.nodes && s.nodes[c].maker.None?
    case Crowded(g, above, at) =>
      && Known(s, at) && AboveOk(s, g, above) && Linked(s, g, above, at) && g.Put?
      && (Hits(s, at) ==> Full(s, At(s, at.id).body))
    case AboveHeld(g, above, at) =>
      Known(s, at) && HoldsAbove(s, t, g, above, at) && (Hits(s, at) ==> Full(s, At(s, at.id).body))
    case BothHeld(g, above, at) => Holds(s, at, t) && Full(s, At(s, at.id).body) && HoldsAbove(s, t, g, above, at)
    case Sure(g, above, at) =>
      && Holds(s, at, t) && Full(s, At(s, at.id).body) && HoldsAbove(s, t, g, above, at)
      && (above.None? ==> at.id == s.root)
    case Halved(_, _, _, _, _) => HalvedOk(s, t, j)
    case Attached(_, above, at) => Holds(s, at, t) && (above.Some? ==> Holds(s, above.value, t) && above.value.id != at.id)
    case AboveLeft(_, at) => Holds(s, at, t)
    case NodeLeft(_, at) => Holds(s, at, t)
    case Roomy(g, above, at) =>
      && KnownLeaf(s, at) && AboveOk(s, g, above) && Linked(s, g, above, at) && g.Put?
      && (Hits(s, at) ==> !Full(s, At(s, at.id).body))
    case LeafHeld(g, above, at) =>
      && Holds(s, at, t) && At(s, at.id).body.Leaf? && !Full(s, At(s, at.id).body) && g.Put? && AboveOk(s, g, above)
      && if above.Some? then Hits(s, above.value) ==> Leads(s, above.value, at, g.key) else InSpan(At(s, at.id), g.key)
    case Writable(g, at) =>
      Holds(s, at, t) && At(s, at.id).body.Leaf? && !Full(s, At(s, at.id).body) && g.Put? && InSpan(At(s, at.id), g.key)
    case Written(_, at) => Holds(s, at, t)
    case Answering(g, above, at, r) =>
      && KnownLeaf(s, at) && AboveOk(s, g, above) && Linked(s, g, above, at) && g.Find?
      && (Hits(s, at) ==> r == Get(At(s, at.id).body, g.key))
    case AnswerSure(g, at, r) =>
      KnownLeaf(s, at) && g.Find? && (Hits(s, at) ==> InSpan(At(s, at.id), g.key) && r == Get(At(s, at.id).body, g.key))
  }

  // ---------- all together ----------

  predicate Sizes(s: State) {
    s.leafMax >= 2 && s.innerMax >= 5
  }

  ghost predicate NodesOk(s: State) {
    forall n :: n in s.nodes ==> NodeOk(s, s.nodes[n]) && AllFit(s, n)
  }

  ghost predicate JobsOk(s: State) {
    forall t :: JobOk(s, t, JobOf(s, t))
  }

  ghost predicate Inv(s: State) {
    && Sizes(s) && NodesOk(s) && RootOk(s) && LevelsOk(s) && LocksOk(s) && Contents(s) && Legal(s.log) && JobsOk(s)
  }

  // ---------- consequences ----------

  /** A child whose parent is not locked has exactly the range its parent gives it. */
  lemma ChildFits(s: State, p: Spot, k: int)
    requires NodesOk(s) && KnownInner(s, p) && Hits(s, p) && InSpan(At(s, p.id), k)
    ensures var c := Child(At(s, p.id).body, k);
      c in s.nodes && s.nodes[c].maker.None? && s.nodes[c].level + 1 == At(s, p.id).level && InSpan(s.nodes[c], k)
  {
    var x := s.nodes[p.id];
    assert NodeOk(s, x);
    var i := Rank(x.body.keys, k);
    assert AllFit(s, p.id) && Fits(s, p.id, i);
    assert x.holder.None?;
    assert Exact(s, p.id, i);
  }

  /** A range lies within the range of the parent's slot, so no two slots share a child. */
  lemma SlotWithin(s: State, n: Id, i: int, w: int)
    requires n in s.nodes && NodeOk(s, s.nodes[n]) && Fits(s, n, i) && InSpan(s.nodes[s.nodes[n].body.kids[i]], w)
    requires s.nodes[n].holder.Some? && Torn(s, n, i, JobOf(s, s.nodes[n].holder.value)) ==>
      Wide(s.nodes[JobOf(s, s.nodes[n].holder.value).right])
    ensures InSpan(s.nodes[n], w) && Rank(s.nodes[n].body.keys, w) == i
  {
    var x := s.nodes[n];
    assert Over(Cut(x, i), w) && UpTo(Cut(x, i + 1), w);
    RankIs(x.body.keys, w, i);
  }

  function Inside(x: Node): (w: int)
    requires Wide(x)
    ensures InSpan(x, w)
  {
    if x.hi.Some? then x.hi.value else if x.lo.Some? then x.lo.value + 1 else 0
  }

  lemma OneParent(s: State, p: Id, i: int, q: Id, j: int)
    requires NodesOk(s) && LevelsOk(s) && p in s.nodes && q in s.nodes && Fits(s, p, i) && Fits(s, q, j)
    requires s.nodes[p].body.kids[i] == s.nodes[q].body.kids[j]
    ensures p == q && i == j
  {
    hide NodeOk, Torn;
    var c := s.nodes[p].body.kids[i];
    KidIn(s, p, i);
    KidIn(s, q, j);
    var w := Inside(s.nodes[c]);
    SlotIn(s, p, i, w);
    SlotIn(s, q, j, w);
  }

  lemma KidIn(s: State, n: Id, i: int)
    requires NodesOk(s) && Fits(s, n, i)
    ensures var c := s.nodes[n].body.kids[i]; c in s.nodes && Wide(s.nodes[c]) && s.nodes[c].level + 1 == s.nodes[n].level
  {
    assert NodeOk(s, s.nodes[s.nodes[n].body.kids[i]]);
  }

  lemma SlotIn(s: State, n: Id, i: int, w: int)
    requires NodesOk(s) && Fits(s, n, i) && InSpan(s.nodes[s.nodes[n].body.kids[i]], w)
    ensures InSpan(s.nodes[n], w) && Rank(s.nodes[n].body.keys, w) == i
  {
    assert NodeOk(s, s.nodes[n]);
    if s.nodes[n].holder.Some? && Torn(s, n, i, JobOf(s, s.nodes[n].holder.value)) {
      assert NodeOk(s, s.nodes[JobOf(s, s.nodes[n].holder.value).right]);
    }
    SlotWithin(s, n, i, w);
  }
}
