/** What every step of the split-count protocol keeps. */
module SplitCountInvariant {
  import opened Options
  import opened SplitCount

  // ---------- leaves and slots ----------

  predicate Wide(lo: Option<int>, hi: Option<int>) {
    lo.None? || hi.None? || lo.value < hi.value
  }

  predicate Apart(a: Option<int>, b: Option<int>, c: Option<int>, d: Option<int>) {
    (b.Some? && c.Some? && b.value <= c.value) || (d.Some? && a.Some? && d.value <= a.value)
  }

  predicate IsLive(s: State, x: Id) {
    x in s.leaves && !s.leaves[x].deleted
  }

  predicate LeafOk(s: State, x: Id) {
    && x in s.leaves && var a := s.leaves[x];
    && Wide(a.low, a.up) && (a.maker.None? ==> !a.hidden) && (a.hidden ==> a.latch.None?)
    && IsLive(s, a.into) && (!a.deleted ==> a.into == x) && (a.deleted ==> Lower(s.leaves[a.into].low, a.low))
    && (a.deleted ==> !a.hidden && a.sib in s.leaves && !s.leaves[a.sib].hidden && Lower(s.leaves[a.sib].low, a.low)
                      && s.leaves[a.sib].into == a.into)
    && (!a.deleted && a.up.Some? ==>
          && IsLive(s, a.sib) && s.leaves[a.sib].low == a.up
          && (s.leaves[a.sib].hidden ==> s.leaves[a.sib].maker == a.latch))
  }

  predicate Lower(a: Option<int>, b: Option<int>) {
    b.Some? && (a.None? || a.value < b.value)
  }

  predicate LivesApart(s: State, x: Id, y: Id) {
    IsLive(s, x) && IsLive(s, y) && x != y ==>
      Apart(s.leaves[x].low, s.leaves[x].up, s.leaves[y].low, s.leaves[y].up)
  }

  predicate SlotOk(s: State, o: Id) {
    && o in s.slots && o in s.leaves && s.slots[o].home in s.parents && s.slots[o].lo == s.leaves[o].low
    && Wide(s.slots[o].lo, s.slots[o].hi) && s.leaves[o].maker.None?
  }

  predicate SlotsApart(s: State, o: Id, q: Id) {
    o in s.slots && q in s.slots && o != q ==> Apart(s.slots[o].lo, s.slots[o].hi, s.slots[q].lo, s.slots[q].hi)
  }

  // ---------- bounds that the leaves have and the parents do not, and the other way round ----------

  predicate SplitAt(j: Job, m: int) {
    (j.Splitting? || j.SplitUp?) && j.mid == m
  }

  predicate MergedAt(j: Job, m: int) {
    (j.Merged? || j.MergeUp?) && j.mid == m
  }

  ghost predicate Uninserted(s: State, m: int) {
    exists t :: SplitAt(JobOf(s, t), m)
  }

  ghost predicate Unremoved(s: State, m: int) {
    exists t :: MergedAt(JobOf(s, t), m)
  }

  /** A merge that has latched the node whose separator it removes. */
  ghost predicate MergeUpOn(s: State, m: int) {
    exists t :: JobOf(s, t).MergeUp? && JobOf(s, t).mid == m
  }

  /** A merge into leaf z whose bound is still under that leaf's latch. */
  ghost predicate MergedInto(s: State, m: int, z: Id) {
    exists t :: JobOf(s, t).Merged? && JobOf(s, t).mid == m && JobOf(s, t).leaf == z
  }

  ghost predicate IsSep(s: State, m: int) {
    exists o :: o in s.slots && s.slots[o].hi == Some(m)
  }

  ghost predicate IsUp(s: State, m: int) {
    exists x :: IsLive(s, x) && s.leaves[x].up == Some(m)
  }

  /** A high key is a separator, or a split has yet to insert it. */
  ghost predicate UpsOk(s: State) {
    forall m :: IsUp(s, m) ==> IsSep(s, m) || Uninserted(s, m)
  }

  /** A separator is a high key, or a merge has yet to remove it. */
  ghost predicate SepsOk(s: State) {
    forall m :: IsSep(s, m) ==> IsUp(s, m) || Unremoved(s, m)
  }

  /**
   Every separator above the low bound of leaf z and below b is about to be removed, because z or a leaf merged into
   it has been merged across that separator.
   */
  ghost predicate ClearedTo(s: State, z: Id, b: int) {
    forall m :: IsSep(s, m) && Over(At(s, z).low, m) && m < b ==> MergeUpOn(s, m) || MergedInto(s, m, z)
  }

  ghost predicate SlotClear(s: State, o: Id) {
    o in s.slots && s.slots[o].lo.Some? ==> ClearedTo(s, At(s, o).into, s.slots[o].lo.value + 1)
  }

  // ---------- latches ----------

  function Opt(o: Option<Id>): set<Id> {
    if o.Some? then {o.value} else {}
  }

  function LeavesOf(j: Job): set<Id> {
    match j
    case Visit(_, _, _, _, leaf, prev, free, _, _, stage) => (if stage.Came? || free then {} else {leaf}) + Opt(prev)
    case Merging(leaf, right) => {leaf, right}
    case Splitting(leaf, _, _) => {leaf}
    case SplitUp(leaf, holds, _, _, _, _) => if holds then {leaf} else {}
    case Merged(leaf, _) => {leaf}
    case MergeUp(leaf, holds, _, _, _, _) => if holds then {leaf} else {}
    case _ => {}
  }

  function NodesOf(j: Job): set<Pid> {
    match j
    case SplitUp(_, _, _, _, node, _) => {node}
    case MergeUp(_, _, _, node, other, _) => {node} + Opt(other)
    case Inserted(_, nodes) => nodes
    case Up(nodes) => nodes
    case _ => {}
  }

  ghost predicate LeafLatches(s: State) {
    && (forall x, t :: x in s.leaves && s.leaves[x].latch == Some(t) ==> x in LeavesOf(JobOf(s, t)))
    && (forall x, t :: x in LeavesOf(JobOf(s, t)) ==> x in s.leaves && s.leaves[x].latch == Some(t))
  }

  ghost predicate NodeLatches(s: State) {
    && (forall p, t :: p in s.parents && s.parents[p].latch == Some(t) ==> p in NodesOf(JobOf(s, t)))
    && (forall p, t :: p in NodesOf(JobOf(s, t)) ==> p in s.parents && s.parents[p].latch == Some(t))
    && (forall p :: p in s.parents && s.parents[p].latch.None? ==> !s.parents[p].dirty)
  }

  ghost predicate LatchesOk(s: State) {
    LeafLatches(s) && NodeLatches(s)
  }

  // ---------- jobs ----------

  predicate Strictly(s: State, o: Id, m: int) {
    o in s.slots && Over(s.slots[o].lo, m) && Under(s.slots[o].hi, m)
  }

  predicate Inside(s: State, x: Id, m: int) {
    IsLive(s, x) && Over(s.leaves[x].low, m) && Under(s.leaves[x].up, m)
  }

  /** A thread is handing the slots of node p to node q and has not raised the version of p yet. */
  predicate Handing(s: State, p: Pid, q: Pid) {
    && p in s.parents && !s.parents[p].dirty && s.parents[p].latch.Some?
    && var j := JobOf(s, s.parents[p].latch.value); j.Up? && q in j.nodes
  }

  /** While the parent is unchanged, the leaf it gave is its child for the key, or has just been handed on. */
  predicate Given(s: State, j: Job)
    requires j.Visit?
  {
    Hits(s, j) ==> InSlot(s, j.from, j.key) && (s.slots[j.from].home == j.parent || Handing(s, j.parent, s.slots[j.from].home))
  }

  /** Nobody has split the leaf, or merged into it, and still holds its latch. */
  predicate Calm(s: State, x: Id) {
    At(s, x).latch.Some? ==> var j := JobOf(s, At(s, x).latch.value); !j.Splitting? && !j.Merged?
  }

  predicate ParentOk(s: State, j: Job)
    requires j.Visit?
  {
    && j.parent in s.parents && j.seen <= s.parents[j.parent].version
    && (s.parents[j.parent].dirty ==> j.seen < s.parents[j.parent].version) && Given(s, j)
  }

  /** Where the visit has come to. */
  ghost predicate PlaceOk(s: State, j: Job)
    requires j.Visit?
  {
    && j.leaf in s.leaves && (j.free ==> j.prev.None?)
    && (!j.mode.Astray? ==> !s.leaves[j.leaf].hidden && Over(s.leaves[j.leaf].low, j.key))
    && (Hits(s, j) ==> ClearedTo(s, s.leaves[j.leaf].into, j.key))
    && (!j.free ==> !j.mode.Astray?) && (j.prev.Some? ==> j.prev.value != j.leaf && j.stage in {Came, Held})
    && (j.mode.First? ==> j.leaf == j.from && j.prev.None?) && (j.mode.Rightward? ==> !j.free)
    && (j.mode.Rightward? && j.stage.Came? ==>
          && j.prev.Some? && IsLive(s, j.prev.value) && s.leaves[j.prev.value].sib == j.leaf
          && s.leaves[j.prev.value].up.Some? && s.leaves[j.prev.value].up.value < j.key && (Hits(s, j) ==> j.prev.value == j.from))
    && (j.mode.Rightward? && !j.stage.Came? && Hits(s, j) ==> UpTo(s.leaves[j.leaf].up, j.key))
  }

  /** What the visit has read, as long as the leaf is the same. */
  predicate ReadOk(s: State, j: Job)
    requires j.Visit?
  {
    && j.leaf in s.leaves && (j.stage.GoLeft? ==> s.leaves[j.leaf].deleted)
    && (j.free && !j.stage.Came? ==> j.ver <= s.leaves[j.leaf].version)
    && (!j.stage.Came? && Fresh(s, j) ==>
          && Calm(s, j.leaf)
          && (j.stage in {Live, Zero, Compare, GoRight, Landed} ==> !s.leaves[j.leaf].deleted)
          && (j.stage.Zero? ==> s.leaves[j.leaf].splits == {})
          && (j.stage.GoRight? ==> Beyond(s.leaves[j.leaf], j.key)))
  }

  /** The leaf was made by a split that is on its way into slot o. */
  predicate MadeFor(s: State, x: Id, o: Id) {
    && x in s.leaves && s.leaves[x].maker.Some?
    && var f := JobOf(s, s.leaves[x].maker.value); f.SplitUp? && f.slot == o
  }

  /** While the parent is unchanged, one latch-free step to the right has led to the right part of the split of the leaf it gave. */
  predicate OnwardOk(s: State, j: Job)
    requires j.Visit?
  {
    j.mode.Onward? ==> j.free && (Hits(s, j) ==> MadeFor(s, j.leaf, j.from))
  }

  ghost predicate VisitOk(s: State, t: Tid, j: Job)
    requires j.Visit?
  {
    ParentOk(s, j) && PlaceOk(s, j) && ReadOk(s, j) && OnwardOk(s, j)
  }

  ghost predicate SplitOk(s: State, t: Tid, j: Job)
    requires j.Splitting?
  {
    && IsLive(s, j.leaf) && s.leaves[j.leaf].up == Some(j.mid) && s.leaves[j.leaf].sib == j.right
    && t in s.leaves[j.leaf].splits && IsLive(s, j.right) && s.leaves[j.right].maker == Some(t) && s.leaves[j.right].hidden
    && s.leaves[j.right].low == Some(j.mid)
    && (IsSep(s, j.mid) ==> MergeUpOn(s, j.mid)) && !SplitUpOn(s, j.mid)
  }

  ghost predicate SplitUpOn(s: State, m: int) {
    exists t :: JobOf(s, t).SplitUp? && JobOf(s, t).mid == m
  }

  ghost predicate SplitUpOk(s: State, t: Tid, j: Job)
    requires j.SplitUp?
  {
    && j.leaf in s.leaves && t in s.leaves[j.leaf].splits
    && Strictly(s, j.slot, j.mid) && s.slots[j.slot].home == j.node
    && j.right in s.leaves && s.leaves[j.right].maker == Some(t) && !s.leaves[j.right].hidden && s.leaves[j.right].low == Some(j.mid)
    && (IsLive(s, j.slot) && s.leaves[j.slot].up == Some(j.mid) ==> j.slot == j.leaf)
    && (IsLive(s, j.right) ==> IsUp(s, j.mid)) && (!IsLive(s, j.right) ==> MergedInto(s, j.mid, s.leaves[j.right].into))
  }

  ghost predicate MergeUpOk(s: State, t: Tid, j: Job)
    requires j.MergeUp?
  {
    && j.slot in s.slots && s.slots[j.slot].hi == Some(j.mid) && s.slots[j.slot].home == j.node
    && (IsUp(s, j.mid) ==> Uninserted(s, j.mid))
    && (j.other.Some? ==> j.other.value != j.node && Node(s, j.other.value).dirty)
  }

  ghost predicate JobOk(s: State, t: Tid) {
    var j := JobOf(s, t);
    match j
    case Idle => true
    case Visit(_, _, _, _, _, _, _, _, _, _) => VisitOk(s, t, j)
    case Merging(leaf, right) =>
      && IsLive(s, leaf) && s.leaves[leaf].up.Some? && s.leaves[leaf].sib == right && !At(s, right).hidden && leaf != right
    case Splitting(_, _, _) => SplitOk(s, t, j)
    case SplitUp(_, _, _, _, _, _) => SplitUpOk(s, t, j)
    case Inserted(leaf, nodes) => leaf in s.leaves && (forall p :: p in nodes ==> Node(s, p).dirty)
    case Merged(leaf, mid) => Inside(s, leaf, mid) && (IsSep(s, mid) || Uninserted(s, mid)) && !MergeUpOn(s, mid)
    case MergeUp(_, _, _, _, _, _) => MergeUpOk(s, t, j)
    case Up(nodes) => true
  }

  /** A leaf that has a maker is the right part of its split. */
  ghost predicate MakersOk(s: State) {
    forall x, t :: x in s.leaves && s.leaves[x].maker == Some(t) ==>
      (JobOf(s, t).Splitting? || JobOf(s, t).SplitUp?) && JobOf(s, t).right == x
  }

  ghost predicate TreeOk(s: State) {
    && (forall x :: x in s.leaves ==> LeafOk(s, x)) && (forall x, y :: LivesApart(s, x, y))
    && (forall o :: o in s.slots ==> SlotOk(s, o)) && (forall o, q :: SlotsApart(s, o, q))
  }

  ghost predicate SlotsClear(s: State) {
    forall o :: SlotClear(s, o)
  }

  ghost predicate JobsOk(s: State) {
    forall t :: JobOk(s, t)
  }

  ghost predicate Inv(s: State) {
    TreeOk(s) && UpsOk(s) && SepsOk(s) && SlotsClear(s) && LatchesOk(s) && MakersOk(s) && JobsOk(s)
  }
}
