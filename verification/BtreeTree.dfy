/** GoogleBTree: insertion of a key that is not there and removal at an iterator, on a tree of any height. */
module BtreeTree {
  import opened Options
  import opened Ordered
  import opened BtreeNodes
  import opened BtreeEdits
  import opened BtreeMoves
  import opened BtreeInsert
  import opened BtreeWalk
  import opened BtreeErase

  // ---------- one value in or out of a leaf ----------

  function Stored(n: Node, i: nat, v: int): Node
    requires i <= |n.values|
  {
    Node(InsertAt(n.values, i, v), [])
  }

  function Taken(n: Node, i: nat): Node
    requires i < |n.values|
  {
    Node(RemoveAt(n.values, i), [])
  }

  lemma StoreRight(t: Node, d: nat, size: nat, p: Path, i: nat, v: int)
    requires Has(t, p) && Good(t, d, size, HoleAt(p)) && Sub(t, p).kids == [] && i <= |Sub(t, p).values| < size
    ensures var t' := Put(t, p, Stored(Sub(t, p), i, v));
      && Good(t', d, size, NoHole) && |Lead(t, p, i)| <= |Flat(t)| && Flat(t') == InsertAt(Flat(t), |Lead(t, p, i)|, v)
      && Stands(t', At(p, i), Lead(t, p, i)) && Lead(t, p, i) == Flat(t)[..|Lead(t, p, i)|]
  {
    hide Good, Flat, Front, Has, Before, After;
    var n, n' := Sub(t, p), Stored(Sub(t, p), i, v);
    RimOf(t, d, size, HoleAt(p), p);
    SubFlat(t, d, size, p);
    PutFlat(t, d, size, p, n');
    PutHas(t, p, n');
    SubGood(t, d, size, HoleAt(p), p);
    assert p[|p|..] == [];
    LeafGood(n, n', d - |p|, size);
    PutGood(t, d, size, p, n', NoHole);
    LeafFlat(n);
    LeafFlat(n');
    LeafFront(n, i);
    LeafFront(n', i);
    var a, b := Before(t, p), After(t, p);
    assert a + (n.values[..i] + [v] + n.values[i..]) + b == (a + n.values[..i]) + [v] + (n.values[i..] + b);
    assert a + n.values + b == (a + n.values[..i]) + (n.values[i..] + b);
    assert n'.values[..i] == n.values[..i] && a + n.values[..i] + [] == a + n.values[..i];
  }

  lemma LeafGood(n: Node, m: Node, d: nat, size: nat)
    requires Good(n, d, size, HoleAt([])) && n.kids == [] == m.kids && |m.values| <= size
    ensures Good(m, d, size, HoleAt([])) && (m.values != [] ==> Good(m, d, size, NoHole))
  {
  }

  lemma TakeRight(t: Node, d: nat, size: nat, p: Path, i: nat)
    requires Has(t, p) && Good(t, d, size, NoHole) && Sub(t, p).kids == [] && i < |Sub(t, p).values|
    ensures var t' := Put(t, p, Taken(Sub(t, p), i));
      && Good(t', d, size, HoleAt(p)) && |Lead(t, p, i)| < |Flat(t)| && Leads(t', p, i, RemoveAt(Flat(t), |Lead(t, p, i)|), Lead(t, p, i))
      && Lead(t, p, i) == Flat(t)[..|Lead(t, p, i)|]
  {
    hide Good, Flat, Front, Has, Before, After;
    var n, n' := Sub(t, p), Taken(Sub(t, p), i);
    RimOf(t, d, size, NoHole, p);
    SubFlat(t, d, size, p);
    PutFlat(t, d, size, p, n');
    PutHas(t, p, n');
    SubGood(t, d, size, NoHole, p);
    Loosen(n, d - |p|, size, HoleAt([]));
    LeafSize(n, d - |p|, size);
    LeafGood(n, n', d - |p|, size);
    PutGood(t, d, size, p, n', HoleAt([]));
    assert p + [] == p;
    LeafFlat(n);
    LeafFlat(n');
    LeafFront(n, i);
    LeafFront(n', i);
    var a, b := Before(t, p), After(t, p);
    assert a + (n.values[..i] + n.values[i + 1..]) + b == (a + n.values[..i]) + (n.values[i + 1..] + b);
    assert a + n.values + b == (a + n.values[..i]) + ([n.values[i]] + n.values[i + 1..] + b);
    assert n'.values[..i] == n.values[..i];
  }

  lemma LeafSize(n: Node, d: nat, size: nat)
    requires Good(n, d, size, NoHole)
    ensures |n.values| <= size
  {
  }

  // ---------- a value of an inner node ----------

  /** The last position of the leaf before value i of an inner node. */
  function LeafBefore(t: Node, p: Path, i: nat): Path
    requires Has(t, p) && i < |Sub(t, p).kids|
  {
    p + [i] + LastLeaf(Sub(t, p).kids[i])
  }

  lemma LeafBeforeIs(t: Node, d: nat, size: nat, p: Path, i: nat)
    requires Has(t, p) && Good(t, d, size, NoHole) && i < |Sub(t, p).kids|
    ensures var lp := LeafBefore(t, p, i);
      && Has(t, lp) && Sub(t, lp).kids == [] && Sub(t, lp).values != [] && Before(t, lp) + Sub(t, lp).values == Rest(t, p, i)
  {
    hide Good, Flat, Front, Has, Before;
    var n := Sub(t, p);
    var k := n.kids[i];
    SubGood(t, d, size, NoHole, p);
    GoodAt(n, d - |p|, size, NoHole, i);
    LastIs(k, d - |p| - 1, size);
    PathChild(t, p, i);
    PathMore(t, p + [i], LastLeaf(k));
    var a, b := Before(t, p + [i]), Before(k, LastLeaf(k));
    assert (a + b) + Sub(k, LastLeaf(k)).values == a + (b + Sub(k, LastLeaf(k)).values);
  }

  /** Another value in place of value i. */
  lemma SetValue(t: Node, d: nat, size: nat, p: Path, i: nat, w: int)
    requires Has(t, p) && Good(t, d, size, NoHole) && i < |Sub(t, p).values|
    ensures var n := Sub(t, p); var t' := Put(t, p, n.(values := n.values[i := w]));
      && Good(t', d, size, NoHole) && Has(t', p) && Sub(t', p) == n.(values := n.values[i := w]) && Rest(t', p, i) == Rest(t, p, i)
      && |Rest(t, p, i)| < |Flat(t)| && Flat(t') == Flat(t)[|Rest(t, p, i)| := w] && Rest(t, p, i) == Flat(t)[..|Rest(t, p, i)|]
  {
    hide Good, Flat, Front, Has, Before, After, Back;
    var n := Sub(t, p);
    var n' := n.(values := n.values[i := w]);
    RimOf(t, d, size, NoHole, p);
    SubFlat(t, d, size, p);
    PutFlat(t, d, size, p, n');
    PutHas(t, p, n');
    SubGood(t, d, size, NoHole, p);
    ValuesGood(n, n', d - |p|, size);
    PutGood(t, d, size, p, n', NoHole);
    ValueSet(n, n', i, w);
    var a, b, f, v := Before(t, p), After(t, p), Front(n, i) + Inside(n, i), n.values[i];
    var g := Inside(n, i + 1) + Back(n, i + 1);
    assert a + (f + [w] + g) + b == (a + f) + [w] + (g + b);
    assert a + (f + [v] + g) + b == (a + f) + [v] + (g + b);
    assert a + (Front(n, i) + Inside(n, i)) == a + Front(n, i) + Inside(n, i);
  }

  lemma ValuesGood(n: Node, m: Node, d: nat, size: nat)
    requires Good(n, d, size, NoHole) && m.kids == n.kids && |m.values| == |n.values|
    ensures Good(m, d, size, NoHole)
  {
  }

  lemma ValueSet(n: Node, m: Node, i: nat, w: int)
    requires i < |n.values| && m == n.(values := n.values[i := w])
    ensures Front(m, i) == Front(n, i) && Inside(m, i) == Inside(n, i)
    ensures Flat(m) == Front(n, i) + Inside(n, i) + [w] + (Inside(n, i + 1) + Back(n, i + 1))
    ensures Flat(n) == Front(n, i) + Inside(n, i) + [n.values[i]] + (Inside(n, i + 1) + Back(n, i + 1))
  {
    hide Flat, Front, Back;
    Parted(n, i);
    Parted(m, i);
    BackIs(n, i);
    BackIs(m, i);
    SameFront(m, n, i);
    forall k | i + 1 <= k < |m.values| ensures Match(m, k, n, 0) {
    }
    SameBack(m, i + 1, n, 0);
    var f, g := Front(n, i) + Inside(n, i), Inside(n, i + 1) + Back(n, i + 1);
    assert f + ([w] + Inside(n, i + 1) + Back(n, i + 1)) == f + [w] + g;
    assert f + ([n.values[i]] + Inside(n, i + 1) + Back(n, i + 1)) == f + [n.values[i]] + g;
  }

  /** The tree after the last value of the leaf before has taken the place of value i of an inner node. */
  function Pulled(t: Node, p: Path, i: nat): Node {
    if Has(t, p) && i < |Sub(t, p).values| && i < |Sub(t, p).kids| && Has(t, LeafBefore(t, p, i)) && Sub(t, LeafBefore(t, p, i)).values != [] then
      var n, l := Sub(t, p), Sub(t, LeafBefore(t, p, i)).values;
      var t' := Put(t, p, n.(values := n.values[i := l[|l| - 1]]));
      if Has(t', LeafBefore(t, p, i)) && |Sub(t', LeafBefore(t, p, i)).values| == |l| then
        Put(t', LeafBefore(t, p, i), Taken(Sub(t', LeafBefore(t, p, i)), |l| - 1))
      else t'
    else t
  }

  lemma PullRight(t: Node, d: nat, size: nat, p: Path, i: nat)
    requires Has(t, p) && Good(t, d, size, NoHole) && i < |Sub(t, p).values| && i < |Sub(t, p).kids|
    ensures Has(t, LeafBefore(t, p, i)) && Sub(t, LeafBefore(t, p, i)).values != [] && 0 < |Rest(t, p, i)| < |Flat(t)|
    ensures var lp, t', r := LeafBefore(t, p, i), Pulled(t, p, i), |Rest(t, p, i)|;
      Good(t', d, size, HoleAt(lp)) && Leads(t', lp, |Sub(t, lp).values| - 1, RemoveAt(Flat(t), r), Flat(t)[..r - 1])
    ensures Rest(t, p, i) == Flat(t)[..|Rest(t, p, i)|]
  {
    hide Good, Flat, Front, Has, Before, Leads;
    var n, lp, r := Sub(t, p), LeafBefore(t, p, i), |Rest(t, p, i)|;
    LeafBeforeIs(t, d, size, p, i);
    var l := Sub(t, lp).values;
    var w := l[|l| - 1];
    SetValue(t, d, size, p, i, w);
    var t1 := Put(t, p, n.(values := n.values[i := w]));
    LeafBeforeIs(t1, d, size, p, i);
    SameLeaf(t, t1, d, size, p, i);
    TakeRight(t1, d, size, lp, |l| - 1);
    LeafFront(Sub(t1, lp), |l| - 1);
    var y := Before(t1, lp) + l[..|l| - 1];
    assert Before(t1, lp) + l == y + [w];
    PulledOut(Flat(t), r, w);
  }

  lemma SameLeaf(t: Node, t1: Node, d: nat, size: nat, p: Path, i: nat)
    requires Has(t, p) && Has(t1, p) && i < |Sub(t, p).kids| && i < |Sub(t1, p).kids| && Sub(t, p).kids[i] == Sub(t1, p).kids[i]
    requires Good(t, d, size, NoHole) && Good(t1, d, size, NoHole)
    ensures Has(t, LeafBefore(t, p, i)) && Has(t1, LeafBefore(t, p, i)) && Sub(t, LeafBefore(t, p, i)) == Sub(t1, LeafBefore(t, p, i))
  {
    hide Good, Has;
    var k := Sub(t, p).kids[i];
    LeafBeforeIs(t, d, size, p, i);
    LeafBeforeIs(t1, d, size, p, i);
    PathChild(t, p, i);
    PathChild(t1, p, i);
    PathMore(t, p + [i], LastLeaf(k));
    PathMore(t1, p + [i], LastLeaf(k));
  }

  lemma PulledOut(s: seq<int>, r: nat, w: int)
    requires 0 < r < |s| && s[r - 1] == w
    ensures RemoveAt(s[r := w], r - 1) == RemoveAt(s, r) && s[r := w][..r - 1] == s[..r - 1]
  {
  }

  // ---------- the root ----------

  /** try_shrink: a root without values gives way to its only child. */
  lemma ShrinkRight(t: Node, d: nat, size: nat, p: Path, i: nat, content: seq<int>, lead: seq<int>)
    requires Good(t, d, size, HoleAt([])) && t.values == [] && t.kids != [] && Leads(t, p, i, content, lead)
    ensures d > 0 && p != [] && |t.kids| == 1 && Good(t.kids[0], d - 1, size, NoHole) && Leads(t.kids[0], p[1..], i, content, lead)
  {
    hide Flat, Good;
    GoodAt(t, d, size, HoleAt([]), 0);
    FlatIs(t);
    FrontNone(t);
    assert [] + Flat(t.kids[0]) == Flat(t.kids[0]);
    assert p != [] && p[0] == 0;
    assert Before(t, p) == [] + Before(t.kids[0], p[1..]);
  }

  // ---------- the tree ----------

  class Btree {
    const size: nat
    var root: Option<Node>
    ghost var depth: nat

    ghost predicate Valid()
      reads this
    {
      size >= 3 && (root.Some? ==> Good(root.value, depth, size, NoHole))
    }

    /** The values in order. */
    ghost function Content(): seq<int>
      reads this
    {
      if root.None? then [] else Flat(root.value)
    }

    constructor (size: nat)
      requires size >= 3
      ensures Valid() && Content() == []
    {
      this.size, root, depth := size, None, 0;
    }

    /** internal_insert: a value goes right before value i of the node at p, or to the end of a leaf. */
    method InternalInsert(p: Path, i: nat, v: int) returns (it: Iter)
      requires Valid() && root.Some? && Has(root.value, p)
      requires i <= |Sub(root.value, p).values| && (Sub(root.value, p).kids != [] ==> i < |Sub(root.value, p).values|)
      modifies this
      ensures Valid() && root.Some? && |old(Rest(root.value, p, i))| <= |old(Content())|
      ensures Content() == InsertAt(old(Content()), |old(Rest(root.value, p, i))|, v)
      ensures it.At? && Stands(root.value, it, old(Rest(root.value, p, i)))
      ensures old(Rest(root.value, p, i)) == old(Content())[..|old(Rest(root.value, p, i))|]
    {
      hide Good, Flat, Front, Has, Before, Stands;
      var t, lp, li := root.value, p, i;
      SubGood(t, depth, size, NoHole, p);
      if Sub(t, p).kids != [] {
        LeafOrNot(Sub(t, p), depth - |p|, size, i);
        lp := LeafBefore(t, p, i);
        LeafBeforeIs(t, depth, size, p, i);
        li := |Sub(t, lp).values|;
        LeafFront(Sub(t, lp), li);
        assert Sub(t, lp).values[..li] == Sub(t, lp).values;
      }
      assert Lead(t, lp, li) + [] == Lead(t, lp, li);
      LeafRoom(t, depth, size, lp);
      var s := if |Sub(t, lp).values| == size then RebalanceOrSplit(size, t, lp, li) else Spot(t, lp, li);
      ghost var e := depth;
      if |Sub(t, lp).values| == size {
        RebalanceRight(size, t, depth, lp, li);
        e :| depth <= e <= depth + 1 && Good(s.root, e, size, HoleAt(s.path));
      } else {
        Loosen(t, depth, size, HoleAt(lp));
      }
      StoreRight(s.root, e, size, s.path, s.pos, v);
      root := Some(Put(s.root, s.path, Stored(Sub(s.root, s.path), s.pos, v)));
      depth := e;
      it := At(s.path, s.pos);
    }

    /** insert_unique */
    method InsertUnique(key: int) returns (it: Iter, inserted: bool)
      requires Valid() && Sorted(Content())
      modifies this
      ensures Valid() && Sorted(Content()) && root.Some? && it.At?
      ensures inserted <==> key !in old(Content())
      ensures Content() == if inserted then InsertAt(old(Content()), Rank(old(Content()), key), key) else old(Content())
      ensures Stands(root.value, it, old(Content())[..Rank(old(Content()), key)])
    {
      hide Good, Flat, Front, Has, Before, Stands, Rank;
      ghost var s := Content();
      if root.None? {
        root, depth := Some(Node([key], [])), 0;
        SingleRight(key, size);
        return At([], 0), true;
      }
      var t := root.value;
      var p := LocatePath(t, key);
      LocateIs(t, depth, size, key);
      var i := Rank(Sub(t, p).values, key);
      SettleStands(t, depth, size, p, i);
      it := Settle(t, p, i);
      Prefixed(t, depth, size, p, i);
      RankKey(s, key);
      if it.At? {
        StandsValue(t, depth, size, it, s[..Rank(s, key)]);
        if Sub(t, it.path).values[it.pos] <= key {
          return it, false;
        }
      } else {
        StandsEnd(t, s[..Rank(s, key)]);
      }
      assert Lead(t, p, i) + [] == Lead(t, p, i);
      it := InternalInsert(p, i, key);
      inserted := true;
      InsertSorted(s, key);
    }

    /** erase: the value at an iterator is taken out; the iterator returned is at the value after it. */
    method Erase(p: Path, i: nat) returns (it: Iter)
      requires Valid() && root.Some? && Has(root.value, p) && i < |Sub(root.value, p).values|
      modifies this
      ensures Valid() && |old(Rest(root.value, p, i))| < |old(Content())|
      ensures Content() == RemoveAt(old(Content()), |old(Rest(root.value, p, i))|)
      ensures if root.None? then it.End? && Content() == [] else Stands(root.value, it, old(Content())[..|old(Rest(root.value, p, i))|])
    {
      hide Good, Flat, Front, Has, Before, Stands, Leads;
      ghost var s, r := Content(), |Rest(root.value, p, i)|;
      var internal, lp, li := Sub(root.value, p).kids != [], p, i;
      ghost var lead := [];
      if internal {
        InnerHas(root.value, depth, size, p, i);
        PullRight(root.value, depth, size, p, i);
        lp := LeafBefore(root.value, p, i);
        li := |Sub(root.value, lp).values| - 1;
        root := Some(Pulled(root.value, p, i));
        lead := s[..r - 1];
      } else {
        assert Lead(root.value, p, i) + [] == Lead(root.value, p, i);
        TakeRight(root.value, depth, size, p, i);
        root := Some(Put(root.value, p, Taken(Sub(root.value, p), i)));
        lead := s[..r];
      }
      LeadsHas(root.value, lp, li, RemoveAt(s, r), lead);
      var q, j := FillUp(lp, li, RemoveAt(s, r), lead);
      if root.None? {
        return End;
      }
      LeadsIs(root.value, q, j, RemoveAt(s, r), lead);
      SettleStands(root.value, depth, size, q, j);
      it := Settle(root.value, q, j);
      if internal {
        NotAtEnd(root.value, it, RemoveAt(s, r), lead);
        StandsValue(root.value, depth, size, it, lead);
        StandsRest(root.value, it, lead);
        IncrementStands(root.value, depth, size, it.path, it.pos);
        assert RemoveAt(s, r)[r - 1] == s[r - 1] && s[..r - 1] + [s[r - 1]] == s[..r];
        it := Increment(root.value, it.path, it.pos);
      }
    }

    /** The loop of erase: nodes that have become too small are merged or filled up from the leaf at lp upwards. */
    method FillUp(lp: Path, li: nat, ghost content: seq<int>, ghost lead: seq<int>) returns (q: Path, j: nat)
      requires size >= 3 && root.Some? && Has(root.value, lp) && Good(root.value, depth, size, HoleAt(lp)) && Leads(root.value, lp, li, content, lead)
      modifies this
      ensures Valid() && Content() == content && (root.None? ==> content == []) && (root.Some? ==> Leads(root.value, q, j, content, lead))
    {
      hide Good, Flat, Front, Has, Before, Leads, Refilled, Filled;
      var t: Node, p: Path, pos: nat, rest: Path, leafPos: nat, done: bool := root.value, lp, li, [], li, false;
      assert lp + [] == lp;
      while p != [] && !done && |Sub(t, p).values| < Half(size)
        invariant Has(t, p) && Leads(t, p + rest, leafPos, content, lead) && Good(t, depth, size, if done then NoHole else HoleAt(p))
        decreases if done then 0 else |p| + 1
      {
        var par, c := p[..|p| - 1], p[|p| - 1];
        assert p == par + [c];
        OnTheWay(t, depth, size, par, c, rest, leafPos, content, lead);
        var i := Index(rest, leafPos);
        RefillRight(size, t, depth, par, c, pos, i);
        var res := Refilled(size, t, par, c, pos, i);
        FilledIs(t, depth, size, par, c, i, res);
        RedirectLeads(t, p, rest, leafPos, res.0, content, lead);
        pos := Moved(size, t, par, c, pos);
        leafPos, rest := if rest == [] then res.0.pos else leafPos, Redirect(rest, res.0.pos);
        t := res.0.root;
        if res.1 {
          assert res.0.path == par + [res.0.path[|par|]];
          rest := [res.0.path[|par|]] + rest;
          assert par + rest == res.0.path + rest[1..];
          p := par;
        } else {
          p, done := res.0.path, true;
        }
      }
      q, j := p + rest, leafPos;
      if !done && p == [] {
        assert p + rest == rest;
        if t.values == [] {
          if t.kids == [] {
            NothingLeft(t, q, j, content, lead);
            root := None;
            return;
          }
          ShrinkRight(t, depth, size, q, j, content, lead);
          t, q, depth := t.kids[0], q[1..], depth - 1;
        } else {
          HoleFilled(t, depth, size, []);
        }
      } else if !done {
        HoleFilled(t, depth, size, p);
      }
      LeadsIs(t, q, j, content, lead);
      root := Some(t);
    }
  }

  /** The position kept in erase for the choice of a neighbour. */
  function Moved(size: nat, t: Node, p: Path, c: nat, pos: nat): nat {
    if MergesLeft(size, t, p, c) then pos + 1 + Count(t, p, c - 1)
    else if !MergesRight(size, t, p, c) && !TakesRight(size, t, p, c, pos) && TakesLeft(size, t, p, c, pos) then
      pos + ToTake(Count(t, p, c - 1), Count(t, p, c))
    else pos
  }

  lemma InnerHas(t: Node, d: nat, size: nat, p: Path, i: nat)
    requires Has(t, p) && Good(t, d, size, NoHole) && i < |Sub(t, p).values| && Sub(t, p).kids != []
    ensures i < |Sub(t, p).kids|
  {
    SubGood(t, d, size, NoHole, p);
  }

  lemma LeadsHas(t: Node, p: Path, i: nat, content: seq<int>, lead: seq<int>)
    requires Leads(t, p, i, content, lead)
    ensures Has(t, p)
  {
  }

  lemma LeadsIs(t: Node, p: Path, i: nat, content: seq<int>, lead: seq<int>)
    requires Leads(t, p, i, content, lead)
    ensures Has(t, p) && Sub(t, p).kids == [] && i <= |Sub(t, p).values| && Flat(t) == content && Lead(t, p, i) == lead
  {
  }

  lemma NothingLeft(t: Node, p: Path, i: nat, content: seq<int>, lead: seq<int>)
    requires Leads(t, p, i, content, lead) && t.values == [] && t.kids == []
    ensures content == []
  {
    LeafFlat(t);
  }

  lemma NotAtEnd(t: Node, it: Iter, content: seq<int>, lead: seq<int>)
    requires Stands(t, it, lead) && Flat(t) == content && |lead| < |content|
    ensures it.At?
  {
  }

  lemma StandsRest(t: Node, it: Iter, before: seq<int>)
    requires it.At? && Stands(t, it, before)
    ensures Has(t, it.path) && Rest(t, it.path, it.pos) == before
  {
  }

  lemma FilledIs(t: Node, d: nat, size: nat, p: Path, c: nat, i: nat, r: (Spot, bool))
    requires Filled(t, d, size, p, c, i, r)
    ensures Kept(t, p + [c], i, r.0) && Good(r.0.root, d, size, if r.1 then HoleAt(p) else NoHole) && Has(r.0.root, r.0.path)
    ensures r.1 ==> Has(r.0.root, p) && |r.0.path| == |p| + 1 && r.0.path[..|p|] == p
  {
  }

  lemma OnTheWay(t: Node, d: nat, size: nat, p: Path, c: nat, rest: Path, leafPos: nat, content: seq<int>, lead: seq<int>)
    requires Has(t, p + [c]) && Good(t, d, size, HoleAt(p + [c])) && Leads(t, p + [c] + rest, leafPos, content, lead)
    ensures Childed(t, p, c) && Count(t, p, c) == |Sub(t, p + [c]).values| && Index(rest, leafPos) <= Count(t, p, c)
  {
    hide Good, Has, Flat, Front, Before;
    ParentGood(t, d, size, HoleAt(p + [c]), p, c);
    if rest == [] {
      assert p + [c] + rest == p + [c];
    } else {
      ChildOnPath(t, p + [c], rest);
      GoodIs(Sub(t, p + [c]), d - |p| - 1, size);
    }
  }

  lemma SingleRight(key: int, size: nat)
    requires size >= 3
    ensures Good(Node([key], []), 0, size, NoHole) && Flat(Node([key], [])) == [key] == InsertAt([], Rank([], key), key)
    ensures Stands(Node([key], []), At([], 0), [][..Rank([], key)])
  {
    LeafFlat(Node([key], []));
  }

  lemma LeafRoom(t: Node, d: nat, size: nat, p: Path)
    requires Has(t, p) && Good(t, d, size, NoHole)
    ensures |Sub(t, p).values| <= size
  {
    SubGood(t, d, size, NoHole, p);
  }

  /** The values before a position are the first ones. */
  lemma Prefixed(t: Node, d: nat, size: nat, p: Path, i: nat)
    requires Has(t, p) && Good(t, d, size, NoHole) && i <= |Sub(t, p).values|
    ensures |Lead(t, p, i)| <= |Flat(t)| && Lead(t, p, i) == Flat(t)[..|Lead(t, p, i)|]
  {
    hide Good, Flat, Front, Has, Before, After, Back;
    RimOf(t, d, size, NoHole, p);
    SubFlat(t, d, size, p);
    Parted(Sub(t, p), i);
    var n := Sub(t, p);
    assert Before(t, p) + (Front(n, i) + Inside(n, i) + Back(n, i)) + After(t, p) == (Before(t, p) + Front(n, i)) + (Inside(n, i) + Back(n, i) + After(t, p));
  }

  lemma StandsValue(t: Node, d: nat, size: nat, it: Iter, before: seq<int>)
    requires Good(t, d, size, NoHole) && it.At? && Stands(t, it, before)
    ensures Has(t, it.path) && it.pos < |Sub(t, it.path).values| && |before| < |Flat(t)| && Flat(t)[|before|] == Sub(t, it.path).values[it.pos]
  {
    ValueAt(t, d, size, it.path, it.pos);
  }

  lemma StandsEnd(t: Node, before: seq<int>)
    requires Stands(t, End, before)
    ensures before == Flat(t)
  {
  }

  /** A key is in an ascending sequence if it is at its place. */
  lemma RankKey(s: seq<int>, key: int)
    requires Sorted(s)
    ensures key in s <==> Rank(s, key) < |s| && s[Rank(s, key)] <= key
  {
    if key in s {
      var i :| 0 <= i < |s| && s[i] == key;
      assert i >= Rank(s, key);
    }
  }

  lemma InsertSorted(s: seq<int>, key: int)
    requires Sorted(s) && key !in s
    ensures Sorted(InsertAt(s, Rank(s, key), key))
  {
    var r := Rank(s, key);
    assert r < |s| ==> s[r] in s;
    var more := InsertAt(s, r, key);
    forall i, j | 0 <= i < j < |more| ensures more[i] < more[j] {
      assert r < |s| ==> key < s[r];
    }
  }
}
