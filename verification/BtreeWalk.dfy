/** Iterators of GoogleBTree: the position of a value, how far it is in the order, and the steps to the next one. */
module BtreeWalk {
  import opened Ordered
  import opened BtreeNodes
  import opened BtreeEdits
  import opened BtreeMoves

  datatype Iter = At(path: Path, pos: nat) | End

  /** The values before value i of the node at p. */
  function Rest(t: Node, p: Path, i: nat): seq<int>
    requires Has(t, p)
  {
    Lead(t, p, i) + Inside(Sub(t, p), i)
  }

  /** The values before the end of the node at p. */
  function Whole(t: Node, p: Path): seq<int>
    requires Has(t, p)
  {
    Before(t, p) + Flat(Sub(t, p))
  }

  /** The iterator stands where so many values come before. */
  predicate Stands(t: Node, it: Iter, before: seq<int>) {
    match it
    case At(p, i) => Has(t, p) && i < |Sub(t, p).values| && Rest(t, p, i) == before
    case End => before == Flat(t)
  }

  /** What an iterator points at comes right after the values before it. */
  lemma ValueAt(t: Node, d: nat, size: nat, p: Path, i: nat)
    requires Has(t, p) && Good(t, d, size, NoHole) && i < |Sub(t, p).values|
    ensures Rest(t, p, i) + [Sub(t, p).values[i]] <= Flat(t)
    ensures Flat(t)[|Rest(t, p, i)|] == Sub(t, p).values[i]
  {
    hide Flat, Front, Back, Has, Before, After, Good;
    RimOf(t, d, size, NoHole, p);
    SubFlat(t, d, size, p);
    var n := Sub(t, p);
    Parted(n, i);
    BackIs(n, i);
    var a, b, c, v := Before(t, p), Front(n, i), Inside(n, i), n.values[i];
    assert a + (b + c + ([v] + Inside(n, i + 1) + Back(n, i + 1))) + After(t, p)
        == (a + b + c) + [v] + (Inside(n, i + 1) + Back(n, i + 1) + After(t, p));
  }

  lemma BackIs(n: Node, i: nat)
    requires i < |n.values|
    ensures Back(n, i) == [n.values[i]] + Inside(n, i + 1) + Back(n, i + 1)
  {
  }

  /** The next value after the end of the node at p: that of the nearest ancestor that goes on. */
  function Next(t: Node, p: Path): Iter
    decreases |p|
  {
    if p == [] then End
    else
      var par, c := p[..|p| - 1], p[|p| - 1];
      if Has(t, par) && c < |Sub(t, par).values| then At(par, c) else Next(t, par)
  }

  lemma {:induction false} NextStands(t: Node, d: nat, size: nat, p: Path)
    requires Has(t, p) && Good(t, d, size, NoHole)
    ensures Stands(t, Next(t, p), Whole(t, p))
    decreases |p|
  {
    hide Good, Flat, Front, Has, Before;
    if p == [] {
      BeforeNone(t);
      assert [] + Flat(t) == Flat(t);
    } else {
      var par, c := p[..|p| - 1], p[|p| - 1];
      assert p == par + [c];
      ParentGood(t, d, size, NoHole, par, c);
      PathChild(t, par, c);
      var n := Sub(t, par);
      if c >= |n.values| {
        FlatIs(n);
        assert Before(t, par) + Front(n, c) + Flat(n.kids[c]) == Before(t, par) + (Front(n, c) + Flat(n.kids[c]));
        NextStands(t, d, size, par);
      }
    }
  }

  lemma BeforeNone(t: Node)
    ensures Has(t, []) && Before(t, []) == [] && Sub(t, []) == t
  {
  }

  /** A position of a leaf as an iterator: its end stands for the next value. */
  function Settle(t: Node, p: Path, i: nat): Iter {
    if Has(t, p) && i < |Sub(t, p).values| then At(p, i) else Next(t, p)
  }

  lemma SettleStands(t: Node, d: nat, size: nat, p: Path, i: nat)
    requires Has(t, p) && Good(t, d, size, NoHole) && Sub(t, p).kids == [] && i <= |Sub(t, p).values|
    ensures Stands(t, Settle(t, p, i), Lead(t, p, i))
  {
    hide Good, Flat, Front, Has, Before;
    var n := Sub(t, p);
    if i < |n.values| {
      assert Lead(t, p, i) + [] == Lead(t, p, i);
    } else {
      FlatIs(n);
      assert Front(n, i) + [] == Front(n, i);
      NextStands(t, d, size, p);
    }
  }

  /** The first and the last leaf below a node. */
  function FirstLeaf(n: Node): Path {
    if n.kids == [] then [] else [0] + FirstLeaf(n.kids[0])
  }

  function LastLeaf(n: Node): Path {
    if n.kids == [] then [] else [|n.kids| - 1] + LastLeaf(n.kids[|n.kids| - 1])
  }

  lemma {:induction false} FirstIs(n: Node, d: nat, size: nat)
    requires Good(n, d, size, NoHole)
    ensures Has(n, FirstLeaf(n)) && Sub(n, FirstLeaf(n)).kids == [] && Before(n, FirstLeaf(n)) == [] && Sub(n, FirstLeaf(n)).values != []
    decreases d
  {
    if n.kids != [] {
      GoodAt(n, d, size, NoHole, 0);
      FirstIs(n.kids[0], d - 1, size);
      assert FirstLeaf(n)[1..] == FirstLeaf(n.kids[0]);
    }
  }

  lemma {:induction false} LastIs(n: Node, d: nat, size: nat)
    requires Good(n, d, size, NoHole)
    ensures Has(n, LastLeaf(n)) && Sub(n, LastLeaf(n)).kids == [] && Sub(n, LastLeaf(n)).values != []
    ensures Before(n, LastLeaf(n)) + Sub(n, LastLeaf(n)).values == Flat(n)
    decreases d
  {
    hide Front, Flat;
    if n.kids == [] {
      LeafFlat(n);
      assert [] + n.values == n.values;
    } else {
      var c := |n.kids| - 1;
      GoodAt(n, d, size, NoHole, c);
      LastIs(n.kids[c], d - 1, size);
      assert LastLeaf(n)[1..] == LastLeaf(n.kids[c]);
      FlatIs(n);
      assert (Front(n, c) + Before(n.kids[c], LastLeaf(n.kids[c]))) + Sub(n, LastLeaf(n)).values
          == Front(n, c) + (Before(n.kids[c], LastLeaf(n.kids[c])) + Sub(n, LastLeaf(n)).values);
    }
  }

  /** increment */
  function Increment(t: Node, p: Path, i: nat): Iter {
    if Has(t, p) && i + 1 < |Sub(t, p).kids| then At(p + [i + 1] + FirstLeaf(Sub(t, p).kids[i + 1]), 0)
    else Settle(t, p, i + 1)
  }

  lemma IncrementStands(t: Node, d: nat, size: nat, p: Path, i: nat)
    requires Has(t, p) && Good(t, d, size, NoHole) && i < |Sub(t, p).values|
    ensures Stands(t, Increment(t, p, i), Rest(t, p, i) + [Sub(t, p).values[i]])
  {
    hide Good, Flat, Front, Has, Before;
    var n := Sub(t, p);
    SubGood(t, d, size, NoHole, p);
    FrontNext(n, i);
    assert Before(t, p) + (Front(n, i) + Inside(n, i) + [n.values[i]]) == Before(t, p) + Front(n, i) + Inside(n, i) + [n.values[i]];
    if i + 1 < |n.kids| {
      var k := n.kids[i + 1];
      GoodAt(n, d - |p|, size, NoHole, i + 1);
      FirstIs(k, d - |p| - 1, size);
      PathChild(t, p, i + 1);
      PathMore(t, p + [i + 1], FirstLeaf(k));
      FrontNone(Sub(k, FirstLeaf(k)));
      assert Lead(t, p, i + 1) + [] + [] + [] == Lead(t, p, i + 1);
    } else {
      LeafOrNot(n, d - |p|, size, i);
      SettleStands(t, d, size, p, i + 1);
    }
  }

  lemma LeafOrNot(n: Node, d: nat, size: nat, i: nat)
    requires Good(n, d, size, NoHole) && i < |n.values|
    ensures n.kids == [] || i + 1 < |n.kids|
  {
  }

  // ---------- finding a key ----------

  /** internal_locate: the leaf and the position where a key is or would be. */
  function LocatePath(n: Node, key: int): Path {
    var i := Rank(n.values, key);
    if i < |n.kids| then [i] + LocatePath(n.kids[i], key) else []
  }

  lemma {:induction false} LocateIs(n: Node, d: nat, size: nat, key: int)
    requires Good(n, d, size, NoHole) && Sorted(Flat(n))
    ensures var p := LocatePath(n, key); Has(n, p) && Sub(n, p).kids == [] && |Lead(n, p, Rank(Sub(n, p).values, key))| == Rank(Flat(n), key)
    decreases d
  {
    hide Front, Flat;
    var i := Rank(n.values, key);
    if n.kids == [] {
      LeafFlat(n);
      LeafFront(n, i);
      assert [] + n.values[..i] == n.values[..i];
    } else {
      GoodAt(n, d, size, NoHole, i);
      var k := n.kids[i];
      Parted(n, i);
      SortedMiddle(Front(n, i), Flat(k), Back(n, i));
      LocateIs(k, d - 1, size, key);
      var p := LocatePath(k, key);
      assert LocatePath(n, key)[1..] == p;
      var j := Rank(Sub(k, p).values, key);
      assert (Front(n, i) + Before(k, p)) + Front(Sub(k, p), j) == Front(n, i) + (Before(k, p) + Front(Sub(k, p), j));
      FrontBelow(n, i, key);
      BackAbove(n, i, key);
      RankMiddle(Front(n, i), Flat(k), Back(n, i), key);
    }
  }

  lemma SortedMiddle(a: seq<int>, b: seq<int>, c: seq<int>)
    requires Sorted(a + b + c)
    ensures Sorted(a) && Sorted(b) && Sorted(c)
  {
    var s := a + b + c;
    forall i, j | 0 <= i < j < |b| ensures b[i] < b[j] {
      assert s[|a| + i] < s[|a| + j];
    }
    forall i, j | 0 <= i < j < |a| ensures a[i] < a[j] {
      assert s[i] < s[j];
    }
    forall i, j | 0 <= i < j < |c| ensures c[i] < c[j] {
      assert s[|a| + |b| + i] < s[|a| + |b| + j];
    }
  }

  lemma FrontBelow(n: Node, i: nat, key: int)
    requires i <= |n.values| && Sorted(Front(n, i)) && (i > 0 ==> n.values[i - 1] < key)
    ensures forall x :: 0 <= x < |Front(n, i)| ==> Front(n, i)[x] < key
  {
    if i > 0 {
      FrontNext(n, i - 1);
      assert Front(n, i)[|Front(n, i)| - 1] == n.values[i - 1];
    }
  }

  lemma BackAbove(n: Node, i: nat, key: int)
    requires i <= |n.values| && Sorted(Back(n, i)) && (i < |n.values| ==> key <= n.values[i])
    ensures forall x :: 0 <= x < |Back(n, i)| ==> key <= Back(n, i)[x]
  {
    if i < |n.values| {
      BackIs(n, i);
      assert Back(n, i)[0] == n.values[i];
    }
  }

  lemma RankMiddle(a: seq<int>, b: seq<int>, c: seq<int>, key: int)
    requires Sorted(a + b + c) && (forall x :: 0 <= x < |a| ==> a[x] < key) && (forall x :: 0 <= x < |c| ==> key <= c[x])
    ensures Rank(a + b + c, key) == |a| + Rank(b, key)
  {
    var s, r := a + b + c, Rank(b, key);
    assert r > 0 ==> s[|a| + r - 1] == b[r - 1];
    assert r == 0 && |a| > 0 ==> s[|a| - 1] == a[|a| - 1];
    assert r < |b| ==> s[|a| + r] == b[r];
    assert r == |b| && |c| > 0 ==> s[|a| + r] == c[0];
    RankIs(s, key, |a| + r);
  }
}
