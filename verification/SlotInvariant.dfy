/**
 What every step of the slot protocol keeps: who works on which leaf, where each pair is, and which slots
 are occupied; with the lemmas by which a step keeps each of the three.
 */
module SlotInvariant {
  import opened Options
  import opened SlotProtocol

  // ---------- what every step keeps ----------

  function LatchedBy(j: Job): set<Id> {
    match j
    case Idle => {}
    case Updating(_, _) => {}
    case Arriving(_) => {}
    case Merging(l, r, _, _) => {l, r}
    case _ => {j.leaf}
  }

  function FilledBy(j: Job): set<Id> {
    match j
    case Storing(l, _, r, _) => if l != r then {r} else {}
    case Marking(l, r, _) => if l != r then {r} else {}
    case Splitting(_, _, r, _, _, _) => {r}
    case _ => {}
  }

  function HandOf(j: Job): set<KV> {
    match j
    case Splitting(_, _, _, _, _, h) => if h.Some? then {h.value} else {}
    case Merging(_, _, _, h) => if h.Some? then {h.value} else {}
    case Sorting(_, _, kvs, _) => kvs
    case _ => {}
  }

  function OwnOf(j: Job): set<KV> {
    match j
    case Updating(kv, _) => {kv}
    case Arriving(op) => if op.Put? then {op.kv} else {}
    case Holding(_, op) => if op.Put? then {op.kv} else {}
    case Storing(_, kv, _, _) => {kv}
    case Splitting(_, kv, _, _, _, _) => {kv}
    case _ => {}
  }

  /** Latches, fillers and jobs agree; a leaf being filled is unlatched and known to its creator's leaf alone. */
  ghost predicate OwnersOk(s: State) {
    && (forall l, t :: l in s.leaves ==> (s.leaves[l].latch == Some(t) <==> l in LatchedBy(JobOf(s, t))))
    && (forall l, t :: l in s.leaves ==> (s.leaves[l].filler == Some(t) <==> l in FilledBy(JobOf(s, t))))
    && (forall t, l :: l in LatchedBy(JobOf(s, t)) + FilledBy(JobOf(s, t)) ==> l in s.leaves)
    && LinksOk(s)
  }

  ghost predicate LinksOk(s: State) {
    && (forall l :: l in s.leaves && s.leaves[l].filler.Some? ==> s.leaves[l].latch.None? && !s.leaves[l].published)
    && (forall x, l :: x in s.leaves && l in s.leaves && s.leaves[x].sibling == Some(l) && s.leaves[l].filler.Some? ==>
          s.leaves[x].latch == s.leaves[l].filler)
    && (forall l :: l in s.leaves && s.leaves[l].sibling.Some? ==> s.leaves[l].sibling.value in s.leaves)
  }

  /** Each pair handed in is where place says and nowhere else. */
  ghost predicate PlacesOk(s: State) {
    && (forall l, i :: Slot(s, l, i).Some? ==>
          Slot(s, l, i).value in s.place && s.place[Slot(s, l, i).value] == InSlot(l, i))
    && (forall t, kv :: kv in HandOf(JobOf(s, t)) ==> kv in s.place && s.place[kv] == InHand(t))
    && (forall t, kv :: kv in OwnOf(JobOf(s, t)) ==> kv in s.place && s.place[kv] == AtCaller(t))
    && (forall kv :: kv in s.place ==> Found(s, kv, s.place[kv]))
  }

  /** The pair is at the place. */
  predicate Found(s: State, kv: KV, p: Place) {
    match p
    case AtCaller(t) => kv in OwnOf(JobOf(s, t))
    case InSlot(l, i) => Slot(s, l, i) == Some(kv)
    case InHand(t) => kv in HandOf(JobOf(s, t))
    case Returned(_) => true
  }

  /** The slots a leaf's worker has made or left occupied, given the bitmap. */
  ghost function Occupied(j: Job, l: Id, bits: set<int>): set<int> {
    match j
    case Marking(_, target, i) => if l == target then bits + {i} else bits
    case Splitting(left, _, _, todo, moved, h) =>
      if l == left then bits - Elements(TakenOf(todo, moved, h)) else Prefix(moved)
    case Removing(_, i) => bits + {i}
    case Merging(left, _, mask, _) => if l == left then bits else mask
    case Sorting(_, rest, _, put) => rest + Prefix(put)
    case _ => bits
  }

  function TakenOf(todo: seq<int>, moved: nat, h: Option<KV>): seq<int> {
    var n := if h.Some? then moved + 1 else moved;
    if n <= |todo| then todo[..n] else todo
  }

  function Worker(s: State, l: Id): Job {
    if l !in s.leaves then Idle
    else if s.leaves[l].latch.Some? then JobOf(s, s.leaves[l].latch.value)
    else if s.leaves[l].filler.Some? then JobOf(s, s.leaves[l].filler.value)
    else Idle
  }

  /** The local variables of a job make sense. */
  ghost predicate JobOk(s: State, j: Job) {
    match j
    case Updating(kv, seen) => seen.Some? ==> seen.value.old_.key == kv.key
    case Storing(l, _, r, i) => 0 <= i < s.size && i !in BitsOf(s, r) && (l != r ==> BitsOf(s, r) == Prefix(i))
    case Marking(l, r, i) => 0 <= i < s.size && (l != r ==> BitsOf(s, r) == Prefix(i))
    case Splitting(l, _, r, todo, moved, h) =>
      && l != r && Distinct(todo) && Elements(todo) <= BitsOf(s, l) && |todo| < s.size && moved <= |todo|
      && (h.Some? ==> moved < |todo|) && BitsOf(s, r) == {} && SiblingOf(s, l) != Some(r)
    case Removing(l, i) => 0 <= i < s.size && i !in BitsOf(s, l)
    case Merging(l, r, mask, _) => l != r && mask <= Prefix(s.size)
    case Sorting(_, rest, kvs, put) =>
      rest <= Prefix(s.size) && |rest| + |kvs| + put <= s.size && (put > 0 ==> rest == {})
    case _ => true
  }

  /** A slot holds a pair exactly if the bitmap says so, up to what the leaf's worker is in the middle of. */
  ghost predicate LeafOk(s: State, l: Id)
    requires l in s.leaves
  {
    && |s.leaves[l].slots| == s.size && s.leaves[l].bits <= Prefix(s.size)
    && forall i :: 0 <= i < s.size ==> (Slot(s, l, i).Some? <==> i in Occupied(Worker(s, l), l, s.leaves[l].bits))
  }

  ghost predicate SlotsOk(s: State) {
    && s.size > 1
    && (forall l :: l in s.leaves ==> LeafOk(s, l))
    && (forall t :: JobOk(s, JobOf(s, t)))
  }

  ghost predicate Inv(s: State) {
    OwnersOk(s) && PlacesOk(s) && SlotsOk(s)
  }

  /** The one thing the code leaves to chance: a scan latches no leaf whose split is still filling it. */
  predicate Guarded(s: State, st: Step) {
    st.SortLatch? ==> (st.l in s.leaves ==> s.leaves[st.l].filler.None?)
  }

  // ---------- places ----------

  ghost predicate SameJob(j: Job, j': Job) {
    HandOf(j') == HandOf(j) && OwnOf(j') == OwnOf(j)
  }

  ghost predicate SameSlots(s: State, s': State) {
    forall l, i :: Slot(s', l, i) == Slot(s, l, i)
  }

  /** All slots but one are as before. */
  ghost predicate OtherSlots(s: State, s': State, l: Id, i: int) {
    forall m, k :: m != l || k != i ==> Slot(s', m, k) == Slot(s, m, k)
  }

  /** All jobs but one are as before. */
  ghost predicate OtherJobs(s: State, s': State, t: Tid) {
    forall u :: u != t ==> JobOf(s', u) == JobOf(s, u)
  }

  lemma PlacesSame(s: State, s': State, t: Tid)
    requires PlacesOk(s)
    requires SameSlots(s, s') && OtherJobs(s, s', t) && SameJob(JobOf(s, t), JobOf(s', t)) && s'.place == s.place
    ensures PlacesOk(s')
  {
    hide HandOf, OwnOf, JobOf;
    forall u ensures SameJob(JobOf(s, u), JobOf(s', u)) {
    }
    forall kv | kv in s'.place ensures Found(s', kv, s'.place[kv]) {
      assert Found(s, kv, s.place[kv]);
    }
  }

  lemma PlacesHandIn(s: State, s': State, t: Tid, kv: KV)
    requires PlacesOk(s) && Fresh(s, kv)
    requires SameSlots(s, s') && OtherJobs(s, s', t) && s'.place == s.place[kv := AtCaller(t)]
    requires HandOf(JobOf(s', t)) == HandOf(JobOf(s, t)) && OwnOf(JobOf(s', t)) == OwnOf(JobOf(s, t)) + {kv}
    ensures PlacesOk(s')
  {
    hide HandOf, OwnOf, JobOf;
    forall x | x in s'.place ensures Found(s', x, s'.place[x]) {
      if x != kv {
        assert Found(s, x, s.place[x]);
      }
    }
  }

  lemma PlacesGiveUp(s: State, s': State, t: Tid, kv: KV)
    requires PlacesOk(s) && kv in OwnOf(JobOf(s, t))
    requires SameSlots(s, s') && OtherJobs(s, s', t) && s'.place == s.place[kv := Returned(t)]
    requires HandOf(JobOf(s', t)) == HandOf(JobOf(s, t)) && OwnOf(JobOf(s', t)) == OwnOf(JobOf(s, t)) - {kv}
    ensures PlacesOk(s')
  {
    hide HandOf, OwnOf, JobOf;
    assert s.place[kv] == AtCaller(t);
    forall l, i | Slot(s', l, i).Some? ensures Slot(s', l, i).value in s'.place && s'.place[Slot(s', l, i).value] == InSlot(l, i) {
      assert Slot(s, l, i) == Slot(s', l, i);
    }
    forall x | x in s'.place ensures Found(s', x, s'.place[x]) {
      if x != kv {
        assert Found(s, x, s.place[x]);
      }
    }
  }

  /** A pair leaves its slot for a worker's hand, or for good. */
  lemma PlacesTake(s: State, s': State, t: Tid, l: Id, i: int, kv: KV, p: Place)
    requires PlacesOk(s) && Slot(s, l, i) == Some(kv) && (p == InHand(t) || p == Returned(t))
    requires Slot(s', l, i) == None && OtherSlots(s, s', l, i) && OtherJobs(s, s', t) && s'.place == s.place[kv := p]
    requires HandOf(JobOf(s', t)) == HandOf(JobOf(s, t)) + (if p.InHand? then {kv} else {})
    requires OwnOf(JobOf(s', t)) == OwnOf(JobOf(s, t))
    ensures PlacesOk(s')
  {
    hide HandOf, OwnOf, JobOf;
    forall x | x in s'.place ensures Found(s', x, s'.place[x]) {
      if x != kv {
        assert Found(s, x, s.place[x]);
      }
    }
  }

  /** A pair goes from a worker into an empty slot. */
  lemma PlacesStore(s: State, s': State, t: Tid, l: Id, i: int, kv: KV)
    requires PlacesOk(s) && Slot(s, l, i) == None && kv in HandOf(JobOf(s, t)) + OwnOf(JobOf(s, t))
    requires Slot(s', l, i) == Some(kv) && OtherSlots(s, s', l, i) && OtherJobs(s, s', t)
    requires s'.place == s.place[kv := InSlot(l, i)]
    requires HandOf(JobOf(s', t)) == HandOf(JobOf(s, t)) - {kv} && OwnOf(JobOf(s', t)) == OwnOf(JobOf(s, t)) - {kv}
    ensures PlacesOk(s')
  {
    hide HandOf, OwnOf, JobOf;
    assert s.place[kv] == AtCaller(t) || s.place[kv] == InHand(t);
    forall m, k | Slot(s', m, k).Some? ensures Slot(s', m, k).value in s'.place && s'.place[Slot(s', m, k).value] == InSlot(m, k) {
      assert (m == l && k == i) || Slot(s, m, k) == Slot(s', m, k);
    }
    forall x | x in s'.place ensures Found(s', x, s'.place[x]) {
      if x != kv {
        assert Found(s, x, s.place[x]);
      }
    }
  }

  /** A pair takes the place of another, which goes back to the caller. */
  lemma PlacesExchange(s: State, s': State, t: Tid, l: Id, i: int, kv: KV, was: KV)
    requires PlacesOk(s) && Slot(s, l, i) == Some(was) && kv in OwnOf(JobOf(s, t))
    requires Slot(s', l, i) == Some(kv) && OtherSlots(s, s', l, i) && OtherJobs(s, s', t)
    requires s'.place == s.place[kv := InSlot(l, i)][was := Returned(t)]
    requires HandOf(JobOf(s', t)) == HandOf(JobOf(s, t)) && OwnOf(JobOf(s', t)) == OwnOf(JobOf(s, t)) - {kv}
    ensures PlacesOk(s')
  {
    hide HandOf, OwnOf, JobOf;
    assert s.place[kv] == AtCaller(t);
    forall m, k | Slot(s', m, k).Some? ensures Slot(s', m, k).value in s'.place && s'.place[Slot(s', m, k).value] == InSlot(m, k) {
      assert (m == l && k == i) || Slot(s, m, k) == Slot(s', m, k);
    }
    forall x | x in s'.place ensures Found(s', x, s'.place[x]) {
      if x != kv && x != was {
        assert Found(s, x, s.place[x]);
      }
    }
  }

  // ---------- owners and slots ----------

  function WorkOf(j: Job): set<Id> {
    LatchedBy(j) + FilledBy(j)
  }

  ghost predicate SameLinks(s: State, s': State) {
    && s'.leaves.Keys == s.leaves.Keys
    && forall l :: l in s.leaves ==>
      && s'.leaves[l].latch == s.leaves[l].latch && s'.leaves[l].filler == s.leaves[l].filler
      && s'.leaves[l].sibling == s.leaves[l].sibling && s'.leaves[l].published == s.leaves[l].published
  }

  lemma OwnersSame(s: State, s': State, t: Tid)
    requires OwnersOk(s) && SameLinks(s, s') && OtherJobs(s, s', t)
    requires LatchedBy(JobOf(s', t)) == LatchedBy(JobOf(s, t)) && FilledBy(JobOf(s', t)) == FilledBy(JobOf(s, t))
    ensures OwnersOk(s')
  {
    hide LatchedBy, FilledBy, JobOf;
    forall u ensures LatchedBy(JobOf(s', u)) == LatchedBy(JobOf(s, u)) && FilledBy(JobOf(s', u)) == FilledBy(JobOf(s, u)) {
    }
  }

  /** A leaf on which thread t has no business before or after, and in which the same slots are occupied. */
  ghost predicate SameLeaf(s: State, s': State, t: Tid, l: Id) {
    && l in s.leaves && l in s'.leaves
    && |s'.leaves[l].slots| == |s.leaves[l].slots| && s'.leaves[l].bits == s.leaves[l].bits
    && s'.leaves[l].latch == s.leaves[l].latch && s'.leaves[l].filler == s.leaves[l].filler
    && s'.leaves[l].sibling == s.leaves[l].sibling
    && s.leaves[l].latch != Some(t) && s.leaves[l].filler != Some(t)
    && forall i :: Slot(s', l, i).Some? <==> Slot(s, l, i).Some?
  }

  lemma SlotsStep(s: State, s': State, t: Tid, touched: set<Id>)
    requires OwnersOk(s) && SlotsOk(s) && s'.size == s.size && OtherJobs(s, s', t) && s.leaves.Keys <= s'.leaves.Keys
    requires forall l :: l in s'.leaves && l !in touched ==> SameLeaf(s, s', t, l)
    requires forall l :: l in s'.leaves && l in touched ==> LeafOk(s', l)
    requires forall u, l :: u != t && l in touched ==> l !in WorkOf(JobOf(s, u))
    requires JobOk(s', JobOf(s', t))
    ensures SlotsOk(s')
  {
    hide LatchedBy, FilledBy, JobOf, Occupied, JobOk, OwnersOk;
    forall l | l in s'.leaves && l !in touched ensures LeafOk(s', l) {
      assert SameLeaf(s, s', t, l) && LeafOk(s, l);
    }
    forall u ensures JobOk(s', JobOf(s', u)) {
      if u != t {
        OtherJobOk(s, s', t, u, touched);
      }
    }
  }

  lemma OtherJobOk(s: State, s': State, t: Tid, u: Tid, touched: set<Id>)
    requires OwnersOk(s) && s'.size == s.size && u != t && s.leaves.Keys <= s'.leaves.Keys
    requires forall l :: l in s'.leaves && l !in touched ==> SameLeaf(s, s', t, l)
    requires forall l :: l in touched ==> l !in WorkOf(JobOf(s, u))
    requires JobOk(s, JobOf(s, u))
    ensures JobOk(s', JobOf(s, u))
  {
    hide JobOf;
    var j := JobOf(s, u);
    forall l | l in WorkOf(j) ensures BitsOf(s', l) == BitsOf(s, l) && SiblingOf(s', l) == SiblingOf(s, l) {
      assert l in LatchedBy(JobOf(s, u)) + FilledBy(JobOf(s, u));
      assert l in s.leaves && l !in touched;
      assert SameLeaf(s, s', t, l);
    }
    if j.Storing? || j.Marking? {
      assert j.target in WorkOf(j);
    } else if j.Removing? {
      assert j.leaf in WorkOf(j);
    } else if j.Splitting? {
      assert j.leaf in WorkOf(j) && j.right in WorkOf(j);
    }
  }

  /** No two threads work on one leaf. */
  lemma WorkApart(s: State, t: Tid, u: Tid, l: Id)
    requires OwnersOk(s) && t != u && l in WorkOf(JobOf(s, t))
    ensures l !in WorkOf(JobOf(s, u))
  {
    hide LatchedBy, FilledBy, JobOf;
    assert l in LatchedBy(JobOf(s, t)) + FilledBy(JobOf(s, t));
    assert l in s.leaves;
  }

  lemma NotMine(s: State, t: Tid, l: Id)
    requires OwnersOk(s) && l in s.leaves && l !in WorkOf(JobOf(s, t))
    ensures s.leaves[l].latch != Some(t) && s.leaves[l].filler != Some(t)
  {
    hide LatchedBy, FilledBy, JobOf;
  }

  /** A thread that changes only its own leaves, new ones and free ones has only those to answer for. */
  lemma SlotsWork(s: State, s': State, t: Tid, extra: set<Id>)
    requires OwnersOk(s) && SlotsOk(s) && s'.size == s.size && OtherJobs(s, s', t) && s.leaves.Keys <= s'.leaves.Keys
    requires forall l :: l in extra && l in s.leaves ==> s.leaves[l].latch.None? && s.leaves[l].filler.None?
    requires forall l :: l in s'.leaves && l !in WorkOf(JobOf(s, t)) && l !in extra ==>
      l in s.leaves && s'.leaves[l] == s.leaves[l]
    requires forall l :: l in s'.leaves && (l in WorkOf(JobOf(s, t)) || l in extra) ==> LeafOk(s', l)
    requires JobOk(s', JobOf(s', t))
    ensures SlotsOk(s')
  {
    hide LatchedBy, FilledBy, JobOf, Occupied, JobOk, LeafOk, SlotsOk, WorkOf;
    var touched := WorkOf(JobOf(s, t)) + extra;
    forall l | l in s'.leaves && l !in touched ensures SameLeaf(s, s', t, l) {
      NotMine(s, t, l);
    }
    forall u, l | u != t && l in touched ensures l !in WorkOf(JobOf(s, u)) {
      if l in WorkOf(JobOf(s, t)) {
        WorkApart(s, t, u, l);
      } else if l in WorkOf(JobOf(s, u)) {
        Working(s, u, l);
      }
    }
    SlotsStep(s, s', t, touched);
  }

  lemma Working(s: State, u: Tid, l: Id)
    requires OwnersOk(s) && l in WorkOf(JobOf(s, u))
    ensures l in s.leaves && (s.leaves[l].latch == Some(u) || s.leaves[l].filler == Some(u))
  {
    hide LatchedBy, FilledBy, JobOf;
    assert l in LatchedBy(JobOf(s, u)) + FilledBy(JobOf(s, u));
  }
}
