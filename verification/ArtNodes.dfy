/**
 The four node layouts of the adaptive radix tree. Each refines a map from bytes to children; a child is a
 pointer, 0 being null. Growing and shrinking copy one layout into another.
 */
module ArtNodes {
  import opened Options
  import opened Ordered
  import opened Arrays

  type Child = int

  const NIL: Child := 0

  ghost predicate ByteMap(m: map<int, Child>) {
    forall b :: b in m ==> 0 <= b < 256 && m[b] != NIL
  }

  /** The entries of a map below a byte. */
  ghost function Below(m: map<int, Child>, b: int): map<int, Child> {
    map c | c in m && c < b :: m[c]
  }

  lemma BelowNext(m: map<int, Child>, b: int)
    ensures b in m ==> Below(m, b + 1) == Below(m, b)[b := m[b]]
    ensures b !in m ==> Below(m, b + 1) == Below(m, b)
    ensures b !in Below(m, b)
  {
  }

  lemma BelowAll(m: map<int, Child>)
    requires ByteMap(m)
    ensures Below(m, 256) == m && Below(m, 0) == map[]
  {
  }

  /** Ascending bytes bs with children cs beside them list the map. */
  ghost predicate Lists(bs: seq<int>, cs: seq<Child>, m: map<int, Child>) {
    && |bs| == |cs| == |m| && Sorted(bs) && ByteMap(m)
    && (forall i :: 0 <= i < |bs| ==> bs[i] in m && m[bs[i]] == cs[i])
    && (forall b :: b in m ==> b in bs)
  }

  lemma SortedInsert(bs: seq<int>, pos: nat, b: int)
    requires Sorted(bs) && pos <= |bs| && b !in bs && (forall i :: 0 <= i < pos ==> bs[i] < b) && (pos < |bs| ==> b <= bs[pos])
    ensures Sorted(InsertAt(bs, pos, b))
  {
    var bs' := InsertAt(bs, pos, b);
    forall i, j | 0 <= i < j < |bs'| ensures bs'[i] < bs'[j] {
      assert i != pos ==> bs'[i] == bs[if i < pos then i else i - 1];
      assert j != pos ==> bs'[j] == bs[if j < pos then j else j - 1];
    }
  }

  lemma ListsInsert(bs: seq<int>, cs: seq<Child>, m: map<int, Child>, pos: nat, b: int, c: Child)
    requires Lists(bs, cs, m) && pos <= |bs| && b !in m && 0 <= b < 256 && c != NIL
    requires (forall i :: 0 <= i < pos ==> bs[i] < b) && (pos < |bs| ==> b <= bs[pos])
    ensures Lists(InsertAt(bs, pos, b), InsertAt(cs, pos, c), m[b := c])
  {
    hide Sorted;
    var bs', cs', m' := InsertAt(bs, pos, b), InsertAt(cs, pos, c), m[b := c];
    SortedInsert(bs, pos, b);
    forall i | 0 <= i < |bs'| ensures bs'[i] in m' && m'[bs'[i]] == cs'[i] {
      if i != pos {
        var j := if i < pos then i else i - 1;
        assert bs'[i] == bs[j] && cs'[i] == cs[j];
        assert bs[j] in m;
      }
    }
    forall a | a in m' ensures a in bs' {
      InsertKeeps(bs, pos, b, a);
    }
  }

  lemma InsertKeeps(bs: seq<int>, pos: nat, b: int, a: int)
    requires pos <= |bs| && (a == b || a in bs)
    ensures a in InsertAt(bs, pos, b)
  {
    var bs' := InsertAt(bs, pos, b);
    if a == b {
      assert bs'[pos] == b;
    } else {
      var i :| 0 <= i < |bs| && bs[i] == a;
      assert bs'[if i < pos then i else i + 1] == bs[i];
    }
  }

  lemma SortedRemove(bs: seq<int>, pos: nat)
    requires Sorted(bs) && pos < |bs|
    ensures Sorted(RemoveAt(bs, pos))
  {
    var bs' := RemoveAt(bs, pos);
    forall i, j | 0 <= i < j < |bs'| ensures bs'[i] < bs'[j] {
      assert bs'[i] == bs[if i < pos then i else i + 1] && bs'[j] == bs[if j < pos then j else j + 1];
    }
  }

  lemma RemoveKeeps(bs: seq<int>, pos: nat, a: int)
    requires pos < |bs| && a in bs && a != bs[pos]
    ensures a in RemoveAt(bs, pos)
  {
    var i :| 0 <= i < |bs| && bs[i] == a;
    assert RemoveAt(bs, pos)[if i < pos then i else i - 1] == bs[i];
  }

  lemma ListsRemove(bs: seq<int>, cs: seq<Child>, m: map<int, Child>, pos: nat)
    requires Lists(bs, cs, m) && pos < |bs|
    ensures Lists(RemoveAt(bs, pos), RemoveAt(cs, pos), m - {bs[pos]})
  {
    hide Sorted;
    var bs', cs', m' := RemoveAt(bs, pos), RemoveAt(cs, pos), m - {bs[pos]};
    MapLess(m, bs[pos]);
    SortedRemove(bs, pos);
    forall i | 0 <= i < |bs'| ensures bs'[i] in m' && m'[bs'[i]] == cs'[i] {
      var j := if i < pos then i else i + 1;
      assert bs'[i] == bs[j] && cs'[i] == cs[j];
      assert bs[j] in m;
      SortedApart(bs, j, pos);
    }
    forall a | a in m' ensures a in bs' {
      RemoveKeeps(bs, pos, a);
    }
  }

  lemma SortedApart(bs: seq<int>, i: nat, j: nat)
    requires Sorted(bs) && i < |bs| && j < |bs| && i != j
    ensures bs[i] != bs[j]
  {
  }

  lemma MapLess(m: map<int, Child>, b: int)
    requires b in m
    ensures |m - {b}| == |m| - 1
  {
    assert (m - {b}).Keys == m.Keys - {b};
  }

  lemma CountLess(n: nat)
    requires n > 0
    ensures (n % 256 + 255) % 256 == (n - 1) % 256
  {
  }

  lemma ListsChange(bs: seq<int>, cs: seq<Child>, m: map<int, Child>, pos: nat, c: Child)
    requires Lists(bs, cs, m) && pos < |bs| && c != NIL
    ensures Lists(bs, cs[pos := c], m[bs[pos] := c])
  {
    assert m[bs[pos] := c].Keys == m.Keys;
  }

  ghost function Flipped(bs: seq<int>, flip: int): (r: seq<int>)
    ensures |r| == |bs|
  {
    seq(|bs|, i requires 0 <= i < |bs| => bs[i] - flip)
  }

  lemma FlippedEdits(bs: seq<int>, flip: int, pos: nat, b: int)
    requires pos <= |bs|
    ensures Flipped(InsertAt(bs, pos, b), flip) == InsertAt(Flipped(bs, flip), pos, b - flip)
    ensures pos < |bs| ==> Flipped(RemoveAt(bs, pos), flip) == RemoveAt(Flipped(bs, flip), pos)
  {
  }

  /** The layout of sizes 4 and 16: ascending bytes, stored with flip taken off, and the children beside them. */
  class SortedNode {
    const cap: nat
    const flip: int
    const keys: array<int>
    const children: array<Child>
    var count: nat
    ghost var bs: seq<int>
    ghost var m: map<int, Child>

    ghost predicate Valid()
      reads this, keys, children
    {
      && keys.Length == children.Length == cap && keys != children && count == |bs| <= cap
      && keys[..count] == Flipped(bs, flip)
      && Lists(bs, children[..count], m)
    }

    constructor (cap: nat, flip: int)
      ensures Valid() && m == map[] && this.cap == cap && this.flip == flip && fresh(keys) && fresh(children)
    {
      this.cap, this.flip := cap, flip;
      keys := new int[cap];
      children := new Child[cap];
      count, bs, m := 0, [], map[];
    }

    lemma Contents(b: int)
      requires Valid()
      ensures (b in m <==> b in bs) && |m| == count && forall i :: 0 <= i < count && bs[i] == b ==> m[b] == children[i]
    {
      forall i | 0 <= i < count && bs[i] == b ensures m[b] == children[i] {
        assert children[..count][i] == children[i];
      }
    }

    lemma Counted()
      requires Valid()
      ensures count == |m|
    {
    }

    lemma At(i: nat)
      requires Valid() && i < count
      ensures bs[i] in m && 0 <= bs[i] < 256 && keys[i] + flip == bs[i] && children[i] == children[..count][i] == m[bs[i]] != NIL
    {
      assert keys[..count][i] == bs[i] - flip;
    }

    /** Where a byte is, or count. */
    method Find(b: int) returns (i: nat)
      requires Valid()
      ensures i <= count && (i < count <==> b in m) && (i < count ==> bs[i] == b && m[b] == children[i])
    {
      hide Lists;
      Contents(b);
      i := 0;
      while i < count && keys[i] != b - flip
        invariant i <= count && b !in bs[..i]
      {
        assert keys[..count][i] == bs[i] - flip;
        i := i + 1;
      }
      assert i < count ==> keys[..count][i] == bs[i] - flip;
    }

    method GetChild(b: int) returns (c: Child)
      requires Valid()
      ensures c == if b in m then m[b] else NIL
    {
      hide Lists;
      var i := Find(b);
      c := if i < count then children[i] else NIL;
    }

    method Insert(b: int, c: Child)
      requires Valid() && count < cap && b !in m && 0 <= b < 256 && c != NIL
      modifies this, keys, children
      ensures Valid() && m == old(m)[b := c]
    {
      hide Lists;
      var pos := 0;
      while pos < count && keys[pos] < b - flip
        invariant pos <= count && forall i :: 0 <= i < pos ==> bs[i] < b
      {
        assert keys[..count][pos] == bs[pos] - flip;
        pos := pos + 1;
      }
      assert pos < count ==> keys[..count][pos] == bs[pos] - flip;
      ListsInsert(bs, children[..count], m, pos, b, c);
      FlippedEdits(bs, flip, pos, b);
      OpenAt(keys, count, pos, b - flip);
      OpenAt(children, count, pos, c);
      count, bs, m := count + 1, InsertAt(bs, pos, b), m[b := c];
    }

    method Change(b: int, c: Child)
      requires Valid() && b in m && c != NIL
      modifies this`m, children
      ensures Valid() && m == old(m)[b := c]
    {
      hide Lists;
      var i := Find(b);
      ghost var cs := children[..count];
      ListsChange(bs, cs, m, i, c);
      children[i] := c;
      m := m[b := c];
      assert children[..count] == cs[i := c];
    }

    method Remove(b: int)
      requires Valid() && b in m
      modifies this, keys, children
      ensures Valid() && m == old(m) - {b}
    {
      hide Lists;
      var pos := Find(b);
      ListsRemove(bs, children[..count], m, pos);
      FlippedEdits(bs, flip, pos, b);
      CloseAt(keys, count, pos);
      CloseAt(children, count, pos);
      count, bs, m := count - 1, RemoveAt(bs, pos), m - {b};
    }
  }

  const EMPTY := 48

  lemma {:induction false} UsedAll(used: set<int>, n: nat)
    requires forall p :: 0 <= p < n ==> p in used
    ensures |used| >= n
    decreases n
  {
    if n > 0 {
      UsedAll(used - {n - 1}, n - 1);
    }
  }

  /** The layout of size 48: for each byte the place of its child, or an empty marker. */
  class IndirectNode {
    const index: array<int>
    const children: array<Child>
    var count: nat
    ghost var used: set<int>
    ghost var m: map<int, Child>

    ghost predicate Valid()
      reads this, index, children
    {
      && index.Length == 256 && children.Length == 48 && index != children && ByteMap(m) && count == |m| == |used| <= 48
      && (forall b :: 0 <= b < 256 ==> (b in m <==> index[b] != EMPTY))
      && (forall b :: b in m ==> index[b] in used && 0 <= index[b] < 48 && children[index[b]] == m[b])
      && (forall a, b :: a in m && b in m && a != b ==> index[a] != index[b])
      && (forall p :: 0 <= p < 48 ==> (p in used <==> children[p] != NIL))
    }

    constructor ()
      ensures Valid() && m == map[] && fresh(index) && fresh(children)
    {
      index := new int[256](i => EMPTY);
      children := new Child[48](i => NIL);
      count, used, m := 0, {}, map[];
    }

    method GetChild(b: int) returns (c: Child)
      requires Valid() && 0 <= b < 256
      ensures c == if b in m then m[b] else NIL
    {
      c := if index[b] == EMPTY then NIL else children[index[b]];
    }

    /** A place without a child: there is one as long as fewer than 48 are in use. */
    method FreePlace() returns (pos: nat)
      requires Valid() && count < 48
      ensures pos < 48 && pos !in used
    {
      pos := count;
      if children[pos] != NIL {
        pos := 0;
        while children[pos] != NIL
          invariant pos < 48 && forall p :: 0 <= p < pos ==> p in used
          decreases 48 - pos
        {
          if pos == 47 {
            UsedAll(used, 48);
          }
          pos := pos + 1;
        }
      }
    }

    method Insert(b: int, c: Child)
      requires Valid() && count < 48 && b !in m && 0 <= b < 256 && c != NIL
      modifies this, index, children
      ensures Valid() && m == old(m)[b := c]
    {
      var pos := FreePlace();
      children[pos] := c;
      index[b] := pos;
      count, used, m := count + 1, used + {pos}, m[b := c];
    }

    method Change(b: int, c: Child)
      requires Valid() && b in m && c != NIL
      modifies this`m, children
      ensures Valid() && m == old(m)[b := c]
    {
      children[index[b]] := c;
      assert m[b := c].Keys == m.Keys;
      m := m[b := c];
    }

    method Remove(b: int)
      requires Valid() && b in m
      modifies this, index, children
      ensures Valid() && m == old(m) - {b}
    {
      MapLess(m, b);
      children[index[b]] := NIL;
      used := used - {index[b]};
      index[b] := EMPTY;
      count, m := count - 1, m - {b};
    }
  }

  /** The layout of size 256: the child under each byte, and a count of eight bits. */
  class DirectNode {
    const children: array<Child>
    var count: int
    ghost var m: map<int, Child>

    ghost predicate Valid()
      reads this, children
    {
      && children.Length == 256 && ByteMap(m) && count == |m| % 256
      && forall b :: 0 <= b < 256 ==> children[b] == if b in m then m[b] else NIL
    }

    constructor ()
      ensures Valid() && m == map[] && fresh(children)
    {
      children := new Child[256](i => NIL);
      count, m := 0, map[];
    }

    method GetChild(b: int) returns (c: Child)
      requires Valid() && 0 <= b < 256
      ensures c == if b in m then m[b] else NIL
    {
      c := children[b];
    }

    method Insert(b: int, c: Child)
      requires Valid() && b !in m && 0 <= b < 256 && c != NIL
      modifies this, children
      ensures Valid() && m == old(m)[b := c]
    {
      children[b] := c;
      count, m := (count + 1) % 256, m[b := c];
    }

    method Change(b: int, c: Child)
      requires Valid() && b in m && c != NIL
      modifies this`m, children
      ensures Valid() && m == old(m)[b := c]
    {
      children[b], m := c, m[b := c];
    }

    method Remove(b: int)
      requires Valid() && b in m
      modifies this, children
      ensures Valid() && m == old(m) - {b}
    {
      MapLess(m, b);
      CountLess(|m|);
      children[b] := NIL;
      count, m := (count + 255) % 256, m - {b};
    }
  }

  // ---------- growing and shrinking: copyTo ----------

  /** The entries of the first i bytes of a list. */
  ghost predicate First(bs: seq<int>, m: map<int, Child>, i: nat, r: map<int, Child>) {
    i <= |bs| && |r| == i && (forall b :: b in r <==> b in bs[..i]) && (forall b :: b in r ==> b in m && r[b] == m[b])
  }

  lemma NotBefore(bs: seq<int>, i: nat)
    requires Sorted(bs) && i < |bs|
    ensures bs[i] !in bs[..i]
  {
    forall k | 0 <= k < i ensures bs[..i][k] != bs[i] {
      assert bs[k] < bs[i];
    }
  }

  lemma FirstNext(bs: seq<int>, cs: seq<Child>, m: map<int, Child>, i: nat, r: map<int, Child>)
    requires Lists(bs, cs, m) && First(bs, m, i, r) && i < |bs|
    ensures bs[i] !in r && First(bs, m, i + 1, r[bs[i] := cs[i]])
  {
    NotBefore(bs, i);
    var b, r' := bs[i], r[bs[i] := cs[i]];
    assert b in r <==> b in bs[..i];
    assert b in m;
    assert bs[..i + 1] == bs[..i] + [b];
    forall a ensures a in r' <==> a in bs[..i + 1] {
      assert a in r <==> a in bs[..i];
    }
  }

  lemma FirstAll(bs: seq<int>, cs: seq<Child>, m: map<int, Child>, r: map<int, Child>)
    requires Lists(bs, cs, m) && First(bs, m, |bs|, r)
    ensures r == m
  {
    assert bs[..|bs|] == bs;
    forall b ensures b in r.Keys <==> b in m.Keys {
      if b in r {
        var i :| 0 <= i < |bs| && bs[i] == b;
        assert bs[i] in m;
      }
    }
    assert r.Keys == m.Keys;
    assert forall b :: b in r ==> r[b] == m[b];
  }

  /** Size 4 to 16 and back. */
  method CopySorted(n: SortedNode, cap: nat, flip: int) returns (r: SortedNode)
    requires n.Valid() && n.count <= cap
    ensures fresh(r) && r.Valid() && r.cap == cap && r.flip == flip && r.m == n.m
  {
    hide Lists, First;
    r := new SortedNode(cap, flip);
    var i := 0;
    FirstNone(n.bs, n.m);
    while i < n.count
      invariant i <= n.count && fresh(r) && fresh(r.keys) && fresh(r.children) && r.Valid() && First(n.bs, n.m, i, r.m) && n.Valid()
      invariant r.cap == cap && r.flip == flip
    {
      FirstNext(n.bs, n.children[..n.count], n.m, i, r.m);
      r.Counted();
      FirstSize(n.bs, n.m, i, r.m);
      n.At(i);
      r.Insert(n.keys[i] + n.flip, n.children[i]);
      i := i + 1;
    }
    FirstAll(n.bs, n.children[..n.count], n.m, r.m);
  }

  lemma FirstNone(bs: seq<int>, m: map<int, Child>)
    ensures First(bs, m, 0, map[])
  {
  }

  lemma FirstSize(bs: seq<int>, m: map<int, Child>, i: nat, r: map<int, Child>)
    requires First(bs, m, i, r)
    ensures |r| == i
  {
  }

  /** Size 16 to 48. */
  method GrowSorted(n: SortedNode) returns (r: IndirectNode)
    requires n.Valid() && n.count < 48
    ensures fresh(r) && r.Valid() && r.m == n.m
  {
    hide Lists, First;
    r := new IndirectNode();
    var i := 0;
    FirstNone(n.bs, n.m);
    while i < n.count
      invariant i <= n.count && fresh(r) && fresh(r.index) && fresh(r.children) && r.Valid() && First(n.bs, n.m, i, r.m) && n.Valid()
    {
      FirstNext(n.bs, n.children[..n.count], n.m, i, r.m);
      FirstSize(n.bs, n.m, i, r.m);
      n.At(i);
      r.Insert(n.keys[i] + n.flip, n.children[i]);
      i := i + 1;
    }
    FirstAll(n.bs, n.children[..n.count], n.m, r.m);
  }

  lemma BelowSize(m: map<int, Child>, b: int)
    ensures |Below(m, b)| <= |m| && (b in m ==> |Below(m, b)| < |m|)
  {
    var k := Below(m, b);
    assert k.Keys <= m.Keys;
    Subset(k.Keys, m.Keys);
    if b in m {
      assert k.Keys <= m.Keys - {b};
      Subset(k.Keys, m.Keys - {b});
    }
  }

  lemma {:induction false} Subset(a: set<int>, b: set<int>)
    requires a <= b
    ensures |a| <= |b|
    decreases |a|
  {
    if a != {} {
      var x := Pick(a);
      Subset(a - {x}, b - {x});
    }
  }

  /** Size 48 to 256. */
  method GrowIndirect(n: IndirectNode) returns (r: DirectNode)
    requires n.Valid()
    ensures fresh(r) && r.Valid() && r.m == n.m
  {
    hide Below;
    r := new DirectNode();
    var b := 0;
    BelowAll(n.m);
    while b < 256
      invariant 0 <= b <= 256 && fresh(r) && fresh(r.children) && r.Valid() && n.Valid() && r.m == Below(n.m, b)
    {
      BelowNext(n.m, b);
      if n.index[b] != EMPTY {
        r.Insert(b, n.children[n.index[b]]);
      }
      b := b + 1;
    }
  }

  /** Size 48 to 16. */
  method ShrinkIndirect(n: IndirectNode, cap: nat, flip: int) returns (r: SortedNode)
    requires n.Valid() && n.count <= cap
    ensures fresh(r) && r.Valid() && r.cap == cap && r.flip == flip && r.m == n.m
  {
    hide Lists, Below;
    r := new SortedNode(cap, flip);
    var b := 0;
    BelowAll(n.m);
    while b < 256
      invariant 0 <= b <= 256 && fresh(r) && fresh(r.keys) && fresh(r.children) && r.Valid() && n.Valid() && r.m == Below(n.m, b)
      invariant r.cap == cap && r.flip == flip
    {
      BelowNext(n.m, b);
      BelowSize(n.m, b);
      r.Counted();
      if n.index[b] != EMPTY {
        r.Insert(b, n.children[n.index[b]]);
      }
      b := b + 1;
    }
  }

  /** Size 256 to 48. */
  method ShrinkDirect(n: DirectNode) returns (r: IndirectNode)
    requires n.Valid() && |n.m| <= 48
    ensures fresh(r) && r.Valid() && r.m == n.m
  {
    hide Below;
    r := new IndirectNode();
    var b := 0;
    BelowAll(n.m);
    while b < 256
      invariant 0 <= b <= 256 && fresh(r) && fresh(r.index) && fresh(r.children) && r.Valid() && n.Valid() && r.m == Below(n.m, b)
    {
      BelowNext(n.m, b);
      BelowSize(n.m, b);
      if n.children[b] != NIL {
        r.Insert(b, n.children[b]);
      }
      b := b + 1;
    }
  }
}
