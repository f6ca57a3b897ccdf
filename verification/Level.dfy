/**
 The inner nodes of one level of an FB+-tree, and what the edits of a node mean for the whole level.

 A level is read through two sequences: its separators and its children, each the concatenation over
 the nodes from left to right. Separator i is the upper bound of child i; the last child has none.
 The nodes of the level give the same two sequences one level up: the upper bounds (high keys) of all
 nodes but the last, and the nodes themselves. An edit of a level changes its separators and children
 by one element, and what is left to do one level up is again one such edit.
 */
module Level {
  import opened Ordered

  type Id = int

  /** next is the right sibling when hasSibling, and otherwise the last child. */
  datatype Inner = Inner(seps: seq<int>, children: seq<Id>, next: Id, hasSibling: bool)

  function Kids(n: Inner): seq<Id> {
    if n.hasSibling then n.children else n.children + [n.next]
  }

  function FlatSeps(ns: seq<Inner>): seq<int> {
    if ns == [] then [] else ns[0].seps + FlatSeps(ns[1..])
  }

  function FlatKids(ns: seq<Inner>): seq<Id> {
    if ns == [] then [] else Kids(ns[0]) + FlatKids(ns[1..])
  }

  function Highs(ns: seq<Inner>): seq<int> {
    seq(if ns == [] then 0 else |ns| - 1, i requires 0 <= i < |ns| => Last(ns[i].seps))
  }

  ghost predicate Shape(n: Inner, size: nat) {
    |n.children| == |n.seps| <= size
  }

  /** Only the last node of a level may run out of separators, and only it has no sibling. */
  ghost predicate LevelOk(ns: seq<Inner>, ids: seq<Id>, size: nat) {
    && |ns| == |ids| > 0
    && (forall i :: 0 <= i < |ns| ==> Shape(ns[i], size))
    && (forall i :: 0 <= i < |ns| - 1 ==> ns[i].hasSibling && ns[i].seps != [] && ns[i].next == ids[i + 1])
    && !ns[|ns| - 1].hasSibling
  }

  // ---------- one-element edits of a (separators, children) pair ----------

  datatype Edit =
    | Keep
    | Insert(pos: nat, sep: int, id: Id)  // child pos keeps the part up to sep, id takes the rest
    | Delete(pos: nat)                    // child pos + 1 is merged into child pos
    | Lower(pos: nat, sep: int)          // the bound of child pos moves down to sep

  ghost predicate Fits(e: Edit, n: nat) {
    match e
    case Keep => true
    case Insert(p, _, _) => p <= n
    case Delete(p) => p < n
    case Lower(p, _) => p < n
  }

  ghost function EditSeps(e: Edit, s: seq<int>): seq<int>
    requires Fits(e, |s|)
  {
    match e
    case Keep => s
    case Insert(p, x, _) => InsertAt(s, p, x)
    case Delete(p) => RemoveAt(s, p)
    case Lower(p, x) => s[p := x]
  }

  ghost function EditKids(e: Edit, c: seq<Id>): seq<Id>
    requires |c| > 0 && Fits(e, |c| - 1)
  {
    match e
    case Keep => c
    case Insert(p, _, id) => InsertAt(c, p + 1, id)
    case Delete(p) => RemoveAt(c, p + 1)
    case Lower(_, _) => c
  }

  /** The level below was changed by e, and ns is what this level has to become. */
  ghost predicate Absorbs(ns: seq<Inner>, ns': seq<Inner>, e: Edit) {
    && |FlatKids(ns)| == |FlatSeps(ns)| + 1
    && Fits(e, |FlatSeps(ns)|)
    && FlatSeps(ns') == EditSeps(e, FlatSeps(ns))
    && FlatKids(ns') == EditKids(e, FlatKids(ns))
  }

  /** The nodes of the level went from (ns, ids) to (ns', ids'), which one level up is the edit up. */
  ghost predicate Raises(ns: seq<Inner>, ids: seq<Id>, ns': seq<Inner>, ids': seq<Id>, up: Edit) {
    && |ns| == |ids| > 0
    && Fits(up, |ns| - 1)
    && Highs(ns') == EditSeps(up, Highs(ns))
    && ids' == EditKids(up, ids)
  }

  // ---------- the node edits, one per branch of the code ----------

  /** InnerNode::insert into a node with room. */
  function InsertRoom(n: Inner, i: nat, mid: int, l: Id, r: Id): Inner
    requires |n.children| == |n.seps| && i <= |n.seps|
  {
    if i != |n.seps| then
      Inner(InsertAt(n.seps, i, mid), InsertAt(n.children, i + 1, r), n.next, n.hasSibling)
    else
      Inner(n.seps + [mid], n.children[..i] + [l], r, n.hasSibling)
  }

  /** InnerNode::split: the three cases by the position of the new separator in a full node. */
  function Split(n: Inner, i: nat, mid: int, l: Id, r: Id, rid: Id): (Inner, Inner)
    requires |n.children| == |n.seps| && i <= |n.seps|
  {
    var h := |n.seps| / 2;
    if i == |n.seps| then
      (Inner(n.seps, n.children, rid, true), Inner([mid], [l], r, n.hasSibling))
    else if i < h then
      (Inner(InsertAt(n.seps[..h], i, mid), InsertAt(n.children[..h], i + 1, r), rid, true),
       Inner(n.seps[h..], n.children[h..], n.next, n.hasSibling))
    else
      (Inner(n.seps[..h], n.children[..h], rid, true),
       Inner(InsertAt(n.seps[h..], i - h, mid), InsertAt(n.children[h..], i - h + 1, r), n.next, n.hasSibling))
  }

  /** InnerNode::remove of a separator whose right child is in the same node. */
  function RemoveInside(n: Inner, i: nat): Inner
    requires |n.children| == |n.seps| && i + 1 < |n.seps|
  {
    Inner(RemoveAt(n.seps, i), RemoveAt(n.children, i + 1), n.next, n.hasSibling)
  }

  predicate MergeGuard(n: Inner, rn: Inner, mergeSize: nat) {
    |n.seps| + |rn.seps| <= mergeSize || rn.seps == []
  }

  /** InnerNode::merge. */
  function MergeRight(n: Inner, rn: Inner): Inner {
    Inner(n.seps + rn.seps, n.children + rn.children, rn.next, rn.hasSibling)
  }

  /** InnerNode::bound_remove on the rightmost node. */
  function BorderLast(n: Inner): Inner
    requires |n.children| == |n.seps| > 0
  {
    var i := |n.seps| - 1;
    Inner(n.seps[..i], n.children[..i], n.children[i], n.hasSibling)
  }

  predicate BorderMergeGuard(n: Inner, rn: Inner, mergeSize: nat)
    requires n.seps != []
  {
    var i := |n.seps| - 1;
    i + |rn.seps| <= mergeSize || i == 0 || |rn.seps| == 0 || |rn.seps| == 1
  }

  /** InnerNode::bound_remove that absorbs the right sibling. */
  function BorderMerge(n: Inner, rn: Inner): Inner
    requires |n.children| == |n.seps| > 0 && |rn.children| == |rn.seps|
  {
    var i := |n.seps| - 1;
    if rn.seps != [] then
      Inner(n.seps[..i] + rn.seps, n.children + rn.children[1..], rn.next, rn.hasSibling)
    else
      Inner(n.seps[..i], n.children[..i], n.children[i], rn.hasSibling)
  }

  /** InnerNode::bound_remove that hands its last child to the right sibling. */
  function BorderShift(n: Inner, rn: Inner): (Inner, Inner)
    requires |n.children| == |n.seps| > 0 && |rn.children| == |rn.seps| > 0
  {
    var i := |n.seps| - 1;
    (Inner(n.seps[..i], n.children[..i], n.next, n.hasSibling), rn.(children := rn.children[0 := n.children[i]]))
  }

  /** InnerNode::anchor_update. */
  function AnchorUpdate(n: Inner, i: nat, mid: int): Inner
    requires i < |n.seps|
  {
    n.(seps := n.seps[i := mid])
  }

  // ---------- concatenation ----------

  lemma Assoc<T>(x: seq<T>, y: seq<T>, z: seq<T>)
    ensures x + y + z == x + (y + z)
  {
  }

  lemma {:induction false} FlatConcatSeps(a: seq<Inner>, b: seq<Inner>)
    ensures FlatSeps(a + b) == FlatSeps(a) + FlatSeps(b)
  {
    if a == [] {
      assert a + b == b;
    } else {
      FlatConcatSeps(a[1..], b);
      assert (a + b)[1..] == a[1..] + b && (a + b)[0] == a[0];
      Assoc(a[0].seps, FlatSeps(a[1..]), FlatSeps(b));
    }
  }

  lemma {:induction false} FlatConcatKids(a: seq<Inner>, b: seq<Inner>)
    ensures FlatKids(a + b) == FlatKids(a) + FlatKids(b)
  {
    if a == [] {
      assert a + b == b;
    } else {
      FlatConcatKids(a[1..], b);
      assert (a + b)[1..] == a[1..] + b && (a + b)[0] == a[0];
      Assoc(Kids(a[0]), FlatKids(a[1..]), FlatKids(b));
    }
  }

  lemma FlatConcat(a: seq<Inner>, b: seq<Inner>)
    ensures FlatSeps(a + b) == FlatSeps(a) + FlatSeps(b)
    ensures FlatKids(a + b) == FlatKids(a) + FlatKids(b)
  {
    FlatConcatSeps(a, b);
    FlatConcatKids(a, b);
  }

  lemma FlatWindow(a: seq<Inner>, w: seq<Inner>, b: seq<Inner>)
    ensures FlatSeps(a + w + b) == FlatSeps(a) + FlatSeps(w) + FlatSeps(b)
    ensures FlatKids(a + w + b) == FlatKids(a) + FlatKids(w) + FlatKids(b)
  {
    hide FlatSeps, FlatKids;
    FlatConcat(a + w, b);
    FlatConcat(a, w);
  }

  lemma FlatOne(n: Inner)
    ensures FlatSeps([n]) == n.seps && FlatKids([n]) == Kids(n)
  {
  }

  lemma FlatTwo(n: Inner, m: Inner)
    ensures FlatSeps([n, m]) == n.seps + m.seps && FlatKids([n, m]) == Kids(n) + Kids(m)
  {
    hide FlatSeps, FlatKids;
    FlatConcat([n], [m]);
    assert [n] + [m] == [n, m];
    FlatOne(n);
    FlatOne(m);
  }

  /** Where node j starts in the separators, and also in the children. */
  ghost function Off(ns: seq<Inner>, j: nat): nat
    requires j <= |ns|
  {
    |FlatSeps(ns[..j])|
  }

  lemma {:induction false} FlatSiblings(ns: seq<Inner>)
    requires forall i :: 0 <= i < |ns| ==> ns[i].hasSibling && |ns[i].children| == |ns[i].seps|
    ensures |FlatKids(ns)| == |FlatSeps(ns)|
  {
    if ns != [] {
      FlatSiblings(ns[1..]);
    }
  }

  lemma FlatCounts(ns: seq<Inner>, ids: seq<Id>, size: nat)
    requires LevelOk(ns, ids, size)
    ensures |FlatKids(ns)| == |FlatSeps(ns)| + 1
    ensures forall j :: 0 <= j < |ns| ==> |FlatKids(ns[..j])| == Off(ns, j)
  {
    var z := |ns| - 1;
    FlatConcat(ns[..z], ns[z..]);
    assert ns[..z] + ns[z..] == ns;
    FlatSiblings(ns[..z]);
    FlatOne(ns[z]);
    assert ns[z..] == [ns[z]];
    forall j | 0 <= j < |ns| ensures |FlatKids(ns[..j])| == Off(ns, j) {
      FlatSiblings(ns[..j]);
    }
  }
}
