/**
 The two ways in which a thread comes to skip the comparison at a leaf whose high key is below its key.

 By way of a deleted leaf, even under latches: leaf 0 hangs under node 0 and leaf 1 to its right under node 1. Thread 1
 is given leaf 1. Thread 2 splits leaf 1, latches node 1 and lets go of the leaf; before it raises the node's version,
 thread 3 merges leaf 1 into leaf 0 and lets go of both. Thread 1 goes from the deleted leaf 1 to leaf 0: the split is
 counted at leaf 1, and the version of node 1 is the one that was seen.

 By a latch-free step from a leaf that has changed: thread 2 splits leaf 0, latches the node and lets go of the leaf.
 Reader 1 finds the split counted and its key beyond the high key; before it loads the sibling pointer, thread 3 splits
 leaf 0 again. The reader comes to the new leaf between the two bounds, where no split is counted.
 */
module SplitCountMisled {
  import opened Options
  import opened SplitCount
  import opened SplitCountInvariant
  import opened SplitCountVisits
  import opened SplitCountRuns

  /** Some run leads from one state to another. */
  ghost predicate Reaches(s: State, e: State) {
    exists run :: CanRun(s, run) && After(s, run) == e
  }

  lemma Here(s: State)
    ensures Reaches(s, s)
  {
    assert CanRun(s, []) && After(s, []) == s;
  }

  lemma {:induction false} RunMore(s: State, run: seq<Step>, st: Step)
    requires CanRun(s, run) && Enabled(After(s, run), st)
    ensures CanRun(s, run + [st]) && After(s, run + [st]) == Do(After(s, run), st)
    decreases |run|
  {
    hide Enabled, Do;
    if run == [] {
      assert run + [st] == [st] && [st][1..] == [];
    } else {
      assert (run + [st])[1..] == run[1..] + [st];
      RunMore(Do(s, run[0]), run[1..], st);
    }
  }

  lemma Then(s: State, m: State, st: Step)
    requires Reaches(s, m) && Enabled(m, st)
    ensures Reaches(s, Do(m, st))
  {
    hide Enabled, Do, CanRun, After;
    var run :| CanRun(s, run) && After(s, run) == m;
    RunMore(s, run, st);
  }

  // ---------- coming to a leaf and skipping the comparison ----------

  function Landing(s: State, t: Tid, key: int, o: Id, stage: Stage): State {
    var p := SlotOf(s, o).home;
    SetJob(SetLeaf(s, o, At(s, o).(latch := Some(t))), t, Visit(key, p, Node(s, p).version, o, o, None, false, 0, First, stage))
  }

  predicate Open(s: State, t: Tid, key: int, o: Id) {
    && JobOf(s, t).Idle? && InSlot(s, o, key) && Ready(s, s.slots[o].home) && IsLive(s, o)
    && s.leaves[o].latch.None? && s.leaves[o].splits == {}
  }

  lemma LandsAt(s: State, t: Tid, key: int, o: Id)
    requires Open(s, t, key, o)
    ensures Enabled(s, Descend(t, key, o, false))
    ensures var s1 := Do(s, Descend(t, key, o, false)); Enabled(s1, Latch(t)) && Do(s1, Latch(t)) == Landing(s, t, key, o, Held)
  {
  }

  lemma LandsLive(s: State, t: Tid, key: int, o: Id)
    requires Open(s, t, key, o)
    ensures Enabled(Landing(s, t, key, o, Held), ReadDeleted(t)) && Do(Landing(s, t, key, o, Held), ReadDeleted(t)) == Landing(s, t, key, o, Live)
  {
  }

  lemma LandsZero(s: State, t: Tid, key: int, o: Id)
    requires Open(s, t, key, o)
    ensures Enabled(Landing(s, t, key, o, Live), ReadCount(t)) && Do(Landing(s, t, key, o, Live), ReadCount(t)) == Landing(s, t, key, o, Zero)
  {
  }

  lemma LandsLanded(s: State, t: Tid, key: int, o: Id)
    requires Open(s, t, key, o)
    ensures Enabled(Landing(s, t, key, o, Zero), ReadVersion(t)) && Do(Landing(s, t, key, o, Zero), ReadVersion(t)) == Landing(s, t, key, o, Landed)
  {
  }

  lemma Lands(i: State, s: State, t: Tid, key: int, o: Id)
    requires Reaches(i, s) && Open(s, t, key, o)
    ensures Reaches(i, Landing(s, t, key, o, Landed))
  {
    hide *;
    LandsAt(s, t, key, o);
    LandsLive(s, t, key, o);
    LandsZero(s, t, key, o);
    LandsLanded(s, t, key, o);
    Then(i, s, Descend(t, key, o, false));
    Then(i, Do(s, Descend(t, key, o, false)), Latch(t));
    Then(i, Landing(s, t, key, o, Held), ReadDeleted(t));
    Then(i, Landing(s, t, key, o, Live), ReadCount(t));
    Then(i, Landing(s, t, key, o, Zero), ReadVersion(t));
  }

  // ---------- two leaves under two nodes ----------

  /** Leaf 0 up to b under node 0, leaf 1 from there on under node 1, and nobody at work but thread 1. */
  ghost predicate Two(s: State, b: int) {
    && s.leaves.Keys == {0, 1} && s.slots.Keys == {0, 1} && s.slots[0] == Slot(0, None, Some(b)) && s.slots[1] == Slot(1, Some(b), None)
    && Ready(s, 0) && Ready(s, 1)
    && (var a := s.leaves[0]; !a.deleted && a.low.None? && a.up == Some(b) && a.sib == 1 && a.splits == {} && a.latch.None?)
    && (var c := s.leaves[1]; !c.deleted && c.low == Some(b) && c.up.None? && c.splits == {} && c.latch.None?)
    && JobOf(s, 2).Idle? && JobOf(s, 3).Idle?
  }

  lemma HalvedStep(b: int)
    ensures Open(Init(), 0, b, 0)
    ensures var s0 := Landing(Init(), 0, b, 0, Landed); Enabled(s0, Split(0, 1, b)) && FirstHalves(Do(s0, Split(0, 1, b)), b, {0}, Splitting(0, 1, b))
  {
  }

  ghost predicate FirstHalves(s: State, b: int, splits: set<Tid>, j: Job) {
    && s.leaves.Keys == {0, 1} && s.slots.Keys == {0} && s.slots[0] == Slot(0, None, None) && s.parents.Keys == {0} && JobOf(s, 0) == j
    && s.parents[0] == Parent(0, if j.Splitting? then None else Some(0), false)
    && (var a := s.leaves[0]; !a.deleted && a.low.None? && a.up == Some(b) && a.sib == 1 && a.splits == splits && (!j.Splitting? ==> a.latch.None?))
    && (var c := s.leaves[1]; !c.deleted && c.low == Some(b) && c.up.None? && c.splits == {} && c.latch.None?)
    && JobOf(s, 1).Idle? && JobOf(s, 2).Idle? && JobOf(s, 3).Idle?
  }

  lemma Halved(b: int) returns (s: State)
    ensures Reaches(Init(), s) && FirstHalves(s, b, {0}, SplitUp(0, false, 1, b, 0, 0))
  {
    hide Reaches, Landing, Open;
    Here(Init());
    HalvedStep(b);
    Lands(Init(), Init(), 0, b, 0);
    var s0 := Landing(Init(), 0, b, 0, Landed);
    Then(Init(), s0, Split(0, 1, b));
    var s1 := Do(s0, Split(0, 1, b));
    s := HalvedOn(s1, b);
  }

  lemma HalvedOn(s1: State, b: int) returns (s: State)
    requires Reaches(Init(), s1) && FirstHalves(s1, b, {0}, Splitting(0, 1, b))
    ensures Reaches(Init(), s) && FirstHalves(s, b, {0}, SplitUp(0, false, 1, b, 0, 0))
  {
    hide Reaches;
    Then(Init(), s1, LatchNode(0, 0));
    var s2 := Do(s1, LatchNode(0, 0));
    Then(Init(), s2, LeaveLeaf(0));
    s := Do(s2, LeaveLeaf(0));
  }

  /** The slot of leaf 1 has been made. */
  ghost predicate Slotted(s: State, b: int, home: Pid, nodes: set<Pid>) {
    && s.leaves.Keys == {0, 1} && s.slots.Keys == {0, 1} && s.slots[0] == Slot(0, None, Some(b)) && s.slots[1] == Slot(home, Some(b), None)
    && s.parents.Keys == nodes && (forall p :: p in nodes ==> s.parents[p].dirty && s.parents[p].latch == Some(0))
    && (var a := s.leaves[0]; !a.deleted && a.low.None? && a.up == Some(b) && a.sib == 1 && a.splits == {0} && a.latch.None?)
    && (var c := s.leaves[1]; !c.deleted && c.low == Some(b) && c.up.None? && c.splits == {} && c.latch.None?)
    && JobOf(s, 1).Idle? && JobOf(s, 2).Idle? && JobOf(s, 3).Idle?
    && JobOf(s, 0).Inserted? && JobOf(s, 0).leaf == 0 && JobOf(s, 0).nodes == nodes
  }

  lemma InsertedOne(b: int) returns (s: State)
    ensures Reaches(Init(), s) && Slotted(s, b, 0, {0})
  {
    hide Reaches;
    var s0 := Halved(b);
    Then(Init(), s0, Bump(0));
    var s1 := Do(s0, Bump(0));
    Then(Init(), s1, Insert(0));
    s := Do(s1, Insert(0));
  }

  lemma Spread(b: int) returns (s: State)
    ensures Reaches(Init(), s) && Slotted(s, b, 1, {0, 1})
  {
    hide Reaches;
    var s2 := InsertedOne(b);
    Then(Init(), s2, NewNode(0, 1));
    var s3 := Do(s2, NewNode(0, 1));
    Then(Init(), s3, Regroup(0, 1, 1));
    s := Do(s3, Regroup(0, 1, 1));
  }

  lemma Placed(b: int) returns (s: State)
    ensures Reaches(Init(), s) && Two(s, b) && JobOf(s, 1).Idle?
  {
    hide Reaches;
    var s4 := Spread(b);
    Then(Init(), s4, EndSplit(0));
    var s5 := Do(s4, EndSplit(0));
    Then(Init(), s5, LeaveNodes(0));
    s := Do(s5, LeaveNodes(0));
  }

  // ---------- the visit that is misled ----------

  function Given(k: int, v: nat): Job {
    Visit(k, 1, v, 1, 1, None, false, 0, First, Came)
  }

  /** Leaf 1 is split at m; the split has the latch of node 1 and not that of the leaf. */
  ghost predicate Cut(s: State, b: int, m: int, k: int) {
    && s.leaves.Keys == {0, 1, 2} && s.slots.Keys == {0, 1} && s.slots[0] == Slot(0, None, Some(b)) && s.slots[1] == Slot(1, Some(b), None)
    && Ready(s, 0) && 1 in s.parents && JobOf(s, 1) == Given(k, s.parents[1].version)
    && (var a := s.leaves[0]; !a.deleted && a.low.None? && a.up == Some(b) && a.sib == 1 && a.splits == {} && a.latch.None?)
    && (var c := s.leaves[1]; !c.deleted && c.low == Some(b) && c.up == Some(m) && c.latch.None?)
    && JobOf(s, 3).Idle?
  }

  lemma CutBegun(s: State, b: int, m: int, k: int) returns (e: State)
    requires Reaches(Init(), s) && Two(s, b) && JobOf(s, 1).Idle? && b < m < k
    ensures Reaches(Init(), e) && Two(e, b) && JobOf(e, 1) == Given(k, Node(e, 1).version)
  {
    hide Reaches;
    Then(Init(), s, Descend(1, k, 1, false));
    e := Do(s, Descend(1, k, 1, false));
  }

  /** Thread 2 has split leaf 1 and not gone on. */
  ghost predicate Cutting(s: State, b: int, m: int, k: int, j: Job) {
    && s.leaves.Keys == {0, 1, 2} && s.slots.Keys == {0, 1} && s.slots[0] == Slot(0, None, Some(b)) && s.slots[1] == Slot(1, Some(b), None)
    && Ready(s, 0) && 1 in s.parents && JobOf(s, 1) == Given(k, s.parents[1].version)
    && (var a := s.leaves[0]; !a.deleted && a.low.None? && a.up == Some(b) && a.sib == 1 && a.splits == {} && a.latch.None?)
    && (var c := s.leaves[1]; !c.deleted && c.low == Some(b) && c.up == Some(m))
    && JobOf(s, 3).Idle? && JobOf(s, 2) == j
  }

  lemma CutLanded(s: State, b: int, m: int, k: int)
    requires Two(s, b) && JobOf(s, 1) == Given(k, Node(s, 1).version) && b < m
    ensures Open(s, 2, m, 1) && Enabled(Landing(s, 2, m, 1, Landed), Split(2, 2, m))
    ensures var e := Do(Landing(s, 2, m, 1, Landed), Split(2, 2, m)); Cutting(e, b, m, k, Splitting(1, 2, m)) && Ready(e, 1)
  {
  }

  lemma CutDone(s: State, b: int, m: int, k: int)
    requires Cutting(s, b, m, k, Splitting(1, 2, m)) && Ready(s, 1) && b < m
    ensures Enabled(s, LatchNode(2, 1)) && Enabled(Do(s, LatchNode(2, 1)), LeaveLeaf(2)) && Cut(Do(Do(s, LatchNode(2, 1)), LeaveLeaf(2)), b, m, k)
  {
  }

  lemma CutMade(s: State, b: int, m: int, k: int) returns (e: State)
    requires Reaches(Init(), s) && Two(s, b) && JobOf(s, 1).Idle? && b < m < k
    ensures Reaches(Init(), e) && Cut(e, b, m, k)
  {
    hide *;
    var s0 := CutBegun(s, b, m, k);
    CutLanded(s0, b, m, k);
    Lands(Init(), s0, 2, m, 1);
    var s1 := Landing(s0, 2, m, 1, Landed);
    Then(Init(), s1, Split(2, 2, m));
    var s2 := Do(s1, Split(2, 2, m));
    CutDone(s2, b, m, k);
    Then(Init(), s2, LatchNode(2, 1));
    var s3 := Do(s2, LatchNode(2, 1));
    Then(Init(), s3, LeaveLeaf(2));
    e := Do(s3, LeaveLeaf(2));
  }

  /** Leaf 1 has been merged into leaf 0, and nobody has either. */
  ghost predicate Joined(s: State, m: int, j: Job) {
    && 0 in s.leaves && 1 in s.leaves && 1 in s.parents && JobOf(s, 1) == j
    && (var a := s.leaves[0]; !a.deleted && a.up == Some(m) && a.splits == {})
    && (var c := s.leaves[1]; c.deleted && c.sib == 0)
  }

  lemma JoinBegun(s: State, b: int, m: int, k: int)
    requires Cut(s, b, m, k)
    ensures Open(s, 3, b, 0)
    ensures var s0 := Landing(s, 3, b, 0, Landed); Enabled(s0, LatchRight(3)) && Enabled(Do(s0, LatchRight(3)), Merge(3))
    ensures Merging(Do(Do(Landing(s, 3, b, 0, Landed), LatchRight(3)), Merge(3)), b, m, k)
  {
  }

  ghost predicate Merging(s: State, b: int, m: int, k: int) {
    && s.slots.Keys == {0, 1} && s.slots[0] == Slot(0, None, Some(b)) && s.slots[1] == Slot(1, Some(b), None) && Ready(s, 0) && 1 in s.parents
    && Joined(s, m, Given(k, s.parents[1].version)) && JobOf(s, 3) == Merged(0, b) && s.leaves[1].latch.None?
  }

  lemma JoinDone(s: State, b: int, m: int, k: int)
    requires Merging(s, b, m, k)
    ensures Enabled(s, LatchNode(3, 0)) && Enabled(Do(s, LatchNode(3, 0)), LeaveLeaf(3))
    ensures var e := Do(Do(s, LatchNode(3, 0)), LeaveLeaf(3));
      Parted(e, m, k)
  {
  }

  lemma JoinMade(s: State, b: int, m: int, k: int) returns (e: State)
    requires Reaches(Init(), s) && Cut(s, b, m, k)
    ensures Reaches(Init(), e) && Parted(e, m, k)
  {
    hide Reaches, Cut, Merging, Joined, Open, Landing, Do, Enabled, Given;
    JoinBegun(s, b, m, k);
    Lands(Init(), s, 3, b, 0);
    var s0 := Landing(s, 3, b, 0, Landed);
    Then(Init(), s0, LatchRight(3));
    var s1 := Do(s0, LatchRight(3));
    Then(Init(), s1, Merge(3));
    var s2 := Do(s1, Merge(3));
    JoinDone(s2, b, m, k);
    Then(Init(), s2, LatchNode(3, 0));
    var s3 := Do(s2, LatchNode(3, 0));
    Then(Init(), s3, LeaveLeaf(3));
    e := Do(s3, LeaveLeaf(3));
  }

  ghost predicate Parted(s: State, m: int, k: int) {
    1 in s.parents && Joined(s, m, Given(k, s.parents[1].version)) && At(s, 0).latch.None? && At(s, 1).latch.None?
  }

  lemma Hopped(s: State, m: int, k: int) returns (e: State)
    requires Reaches(Init(), s) && Parted(s, m, k)
    ensures Reaches(Init(), e) && 1 in e.parents && 0 in e.leaves && e.leaves[0].latch.None?
    ensures Joined(e, m, Visit(k, 1, e.parents[1].version, 1, 0, Some(1), false, 0, Moved, Came))
  {
    hide Reaches;
    Then(Init(), s, Latch(1));
    var s1 := Do(s, Latch(1));
    Then(Init(), s1, ReadDeleted(1));
    var s2 := Do(s1, ReadDeleted(1));
    Then(Init(), s2, Hop(1));
    e := Do(s2, Hop(1));
  }

  lemma Misses(s: State, m: int, k: int) returns (e: State)
    requires Reaches(Init(), s) && 1 in s.parents && 0 in s.leaves && s.leaves[0].latch.None?
    requires Joined(s, m, Visit(k, 1, s.parents[1].version, 1, 0, Some(1), false, 0, Moved, Came))
    ensures Reaches(Init(), e) && Skips(e, 1) && JobOf(e, 1).key == k && At(e, JobOf(e, 1).leaf).up == Some(m)
    ensures JobOf(e, 1).mode.Moved? && !JobOf(e, 1).free
  {
    hide Reaches;
    Then(Init(), s, Latch(1));
    var s1 := Do(s, Latch(1));
    Then(Init(), s1, LetGo(1));
    var s2 := Do(s1, LetGo(1));
    Then(Init(), s2, ReadDeleted(1));
    var s3 := Do(s2, ReadDeleted(1));
    Then(Init(), s3, ReadCount(1));
    e := Do(s3, ReadCount(1));
  }

  /**
   For every bound m and key k beyond it there is a run in which a thread with the latch, come by way of a deleted leaf,
   skips the comparison of k with the high key m.
   */
  lemma SkipIsWrong(m: int, k: int) returns (run: seq<Step>)
    requires m < k
    ensures CanRun(Init(), run) && Skips(After(Init(), run), 1)
    ensures var s := After(Init(), run); JobOf(s, 1).key == k && At(s, JobOf(s, 1).leaf).up == Some(m)
    ensures var j := JobOf(After(Init(), run), 1); j.mode.Moved? && !j.free
  {
    hide Skips, CanRun, After, Joined, Cut, Two, Given, Parted;
    var b := m - 1;
    var s := Placed(b);
    s := CutMade(s, b, m, k);
    s := JoinMade(s, b, m, k);
    s := Hopped(s, m, k);
    s := Misses(s, m, k);
    run :| CanRun(Init(), run) && After(Init(), run) == s;
  }

  // ---------- the reader that goes astray ----------

  function Visitor(k: int, free: bool): Job {
    Visit(k, 0, 0, 0, 0, None, free, 0, First, Came)
  }

  /** Reader 1 and thread 3 have been given leaf 0, and nobody else is at work. */
  ghost predicate Asked(s: State, m: int, k: int) {
    && s.leaves.Keys == {0} && s.leaves[0] == Leaf(None, None, 0, false, {}, 0, None, None, false, 0)
    && s.slots.Keys == {0} && s.slots[0] == Slot(0, None, None) && s.parents.Keys == {0} && s.parents[0] == Parent(0, None, false)
    && JobOf(s, 1) == Visitor(k, true) && JobOf(s, 2).Idle? && JobOf(s, 3) == Visitor(m - 1, false)
  }

  lemma AskedBegun(m: int, k: int) returns (s: State)
    ensures Reaches(Init(), s) && Asked(s, m, k)
  {
    hide Reaches;
    Here(Init());
    Then(Init(), Init(), Descend(1, k, 0, true));
    var s1 := Do(Init(), Descend(1, k, 0, true));
    Then(Init(), s1, Descend(3, m - 1, 0, false));
    s := Do(s1, Descend(3, m - 1, 0, false));
  }

  /** Leaf 0 is split at m into leaf 1; the split is counted at leaf 0 and not in the parent, whose version is as it was. */
  ghost predicate Halves(s: State, m: int, reader: Job, other: Job, latch: Option<Tid>, version: nat) {
    && s.leaves.Keys == {0, 1} && 0 in s.parents && s.parents[0].version == 0 && !s.leaves[0].deleted && !s.leaves[1].deleted
    && (var a := s.leaves[0]; a.low.None? && a.up == Some(m) && a.sib == 1 && a.splits == {2} && a.latch == latch && a.version == version)
    && JobOf(s, 1) == reader && JobOf(s, 3) == other
  }

  lemma HalvesBegun(s: State, m: int, k: int)
    requires Asked(s, m, k)
    ensures Open(s, 2, m, 0) && Enabled(Landing(s, 2, m, 0, Landed), Split(2, 1, m))
    ensures var e := Do(Landing(s, 2, m, 0, Landed), Split(2, 1, m));
      Halves(e, m, Visitor(k, true), Visitor(m - 1, false), Some(2), 1) && JobOf(e, 2) == Splitting(0, 1, m) && InSlot(e, 0, m) && SlotOf(e, 0).home == 0 && Ready(e, 0)
  {
  }

  lemma HalvesDone(s: State, m: int, k: int) returns (e: State)
    requires Reaches(Init(), s) && Halves(s, m, Visitor(k, true), Visitor(m - 1, false), Some(2), 1)
    requires JobOf(s, 2) == Splitting(0, 1, m) && InSlot(s, 0, m) && SlotOf(s, 0).home == 0 && Ready(s, 0)
    ensures Reaches(Init(), e) && Halves(e, m, Visitor(k, true), Visitor(m - 1, false), None, 1)
  {
    hide Reaches;
    Then(Init(), s, LatchNode(2, 0));
    var s3 := Do(s, LatchNode(2, 0));
    Then(Init(), s3, LeaveLeaf(2));
    e := Do(s3, LeaveLeaf(2));
  }

  lemma HalvesMade(s: State, m: int, k: int) returns (e: State)
    requires Reaches(Init(), s) && Asked(s, m, k)
    ensures Reaches(Init(), e) && Halves(e, m, Visitor(k, true), Visitor(m - 1, false), None, 1)
  {
    hide *;
    HalvesBegun(s, m, k);
    Lands(Init(), s, 2, m, 0);
    var s1 := Landing(s, 2, m, 0, Landed);
    Then(Init(), s1, Split(2, 1, m));
    e := HalvesDone(Do(s1, Split(2, 1, m)), m, k);
  }

  function Turning(k: int): Job {
    Visit(k, 0, 0, 0, 0, None, true, 1, First, GoRight)
  }

  function Comparing(key: int, free: bool): Job {
    Visit(key, 0, 0, 0, 0, None, free, if free then 1 else 0, First, Compare)
  }

  /** The reader finds the split counted, */
  lemma FindsCount(s: State, m: int, k: int) returns (e: State)
    requires Reaches(Init(), s) && Halves(s, m, Visitor(k, true), Visitor(m - 1, false), None, 1)
    ensures Reaches(Init(), e) && Halves(e, m, Comparing(k, true), Visitor(m - 1, false), None, 1)
  {
    hide Reaches;
    Then(Init(), s, Begin(1));
    var s1 := Do(s, Begin(1));
    Then(Init(), s1, ReadDeleted(1));
    var s2 := Do(s1, ReadDeleted(1));
    Then(Init(), s2, ReadCount(1));
    e := Do(s2, ReadCount(1));
  }

  /** and its key beyond the high key. */
  lemma TurnsRight(s: State, m: int, k: int) returns (e: State)
    requires Reaches(Init(), s) && Halves(s, m, Comparing(k, true), Visitor(m - 1, false), None, 1) && m < k
    ensures Reaches(Init(), e) && Halves(e, m, Turning(k), Visitor(m - 1, false), None, 1)
  {
    hide Reaches;
    Then(Init(), s, CompareHigh(1, true));
    e := Do(s, CompareHigh(1, true));
  }

  function Arrived(m: int): Job {
    Visit(m - 1, 0, 0, 0, 0, None, false, 0, First, Landed)
  }

  lemma OtherFinds(s: State, m: int, k: int) returns (e: State)
    requires Reaches(Init(), s) && Halves(s, m, Turning(k), Visitor(m - 1, false), None, 1)
    ensures Reaches(Init(), e) && Halves(e, m, Turning(k), Comparing(m - 1, false), Some(3), 1)
  {
    hide Reaches;
    Then(Init(), s, Latch(3));
    var s1 := Do(s, Latch(3));
    Then(Init(), s1, ReadDeleted(3));
    var s2 := Do(s1, ReadDeleted(3));
    Then(Init(), s2, ReadCount(3));
    e := Do(s2, ReadCount(3));
  }

  lemma OtherLands(s: State, m: int, k: int) returns (e: State)
    requires Reaches(Init(), s) && Halves(s, m, Turning(k), Comparing(m - 1, false), Some(3), 1)
    ensures Reaches(Init(), e) && Halves(e, m, Turning(k), Arrived(m), Some(3), 1)
  {
    hide Reaches;
    Then(Init(), s, CompareHigh(3, false));
    e := Do(s, CompareHigh(3, false));
  }

  /** Leaf 0 is split once more, and the reader has followed its new sibling pointer to leaf 2, which ends at m. */
  ghost predicate Strayed(s: State, m: int, j: Job) {
    && s.leaves.Keys == {0, 1, 2} && 0 in s.parents && s.parents[0].version == 0 && JobOf(s, 1) == j
    && (forall x :: x in s.leaves ==> !s.leaves[x].deleted)
    && (var a := s.leaves[2]; a.up == Some(m) && a.splits == {} && a.latch.None? && a.version == 0)
  }

  lemma Strays(s: State, m: int, k: int) returns (e: State)
    requires Reaches(Init(), s) && Halves(s, m, Turning(k), Arrived(m), Some(3), 1)
    ensures Reaches(Init(), e) && Strayed(e, m, Visit(k, 0, 0, 0, 2, None, true, 1, Astray, Came))
  {
    hide Reaches;
    Then(Init(), s, Split(3, 2, m - 1));
    var s1 := Do(s, Split(3, 2, m - 1));
    Then(Init(), s1, Hop(1));
    e := Do(s1, Hop(1));
  }

  lemma StrayMisses(s: State, m: int, k: int) returns (e: State)
    requires Reaches(Init(), s) && Strayed(s, m, Visit(k, 0, 0, 0, 2, None, true, 1, Astray, Came))
    ensures Reaches(Init(), e) && Strayed(e, m, Visit(k, 0, 0, 0, 2, None, true, 0, Astray, Zero)) && Skips(e, 1)
  {
    hide Reaches;
    Then(Init(), s, Begin(1));
    var s1 := Do(s, Begin(1));
    Then(Init(), s1, ReadDeleted(1));
    var s2 := Do(s1, ReadDeleted(1));
    Then(Init(), s2, ReadCount(1));
    e := Do(s2, ReadCount(1));
  }

  /**
   The other way: for every bound m and key k beyond it there is a run without merges in which a latch-free reader, sent
   right by leaf 0, loads the sibling pointer after another split of that leaf, and skips the comparison of k with the
   high key m at a leaf whose split is counted elsewhere.
   */
  lemma ReaderGoesAstray(m: int, k: int) returns (run: seq<Step>)
    requires m < k
    ensures CanRun(Init(), run) && Skips(After(Init(), run), 1)
    ensures var s := After(Init(), run); JobOf(s, 1).key == k && At(s, JobOf(s, 1).leaf).up == Some(m)
    ensures var j := JobOf(After(Init(), run), 1); j.mode.Astray? && j.free
    ensures forall x :: x in After(Init(), run).leaves ==> !After(Init(), run).leaves[x].deleted
  {
    hide Skips, CanRun, After, Asked, Halves;
    var s := AskedBegun(m, k);
    s := HalvesMade(s, m, k);
    s := FindsCount(s, m, k);
    s := TurnsRight(s, m, k);
    s := OtherFinds(s, m, k);
    s := OtherLands(s, m, k);
    s := Strays(s, m, k);
    s := StrayMisses(s, m, k);
    run :| CanRun(Init(), run) && After(Init(), run) == s;
  }
}
