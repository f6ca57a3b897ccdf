/**
 The adaptive radix tree: a path-compressed tree over keys of one fixed length, whose nodes store at most the
 first eleven bytes of their prefix and have one of four sizes by the number of their children. A leaf is the
 identifier of a record, from which load gives the key.
 */
module Art {
  import opened Options

  type Key = seq<int>
  type Tid = int

  const MAX_STORED := 11

  datatype Kind = N4 | N16 | N48 | N256

  /** plen is the length of the prefix, stored its first bytes; child i stands under bytes[i]. */
  datatype Tree = Leaf(tid: Tid) | Node(kind: Kind, plen: nat, stored: seq<int>, bytes: seq<int>, kids: seq<Tree>)

  // ---------- bytes ----------

  predicate ByteKey(k: Key) {
    forall i :: 0 <= i < |k| ==> 0 <= k[i] < 256
  }

  function Min(a: nat, b: nat): nat {
    if a <= b then a else b
  }

  /** The bytes from a to b, as far as there are any. */
  function Slice(s: seq<int>, a: nat, b: nat): seq<int> {
    if a <= b <= |s| then s[a..b] else []
  }

  ghost predicate AscendingBytes(bs: seq<int>) {
    && (forall i :: 0 <= i < |bs| ==> 0 <= bs[i] < 256)
    && (forall i, j :: 0 <= i < j < |bs| ==> bs[i] < bs[j])
  }

  function IndexOf(bs: seq<int>, b: int): (r: Option<nat>)
    ensures r.Some? ==> r.value < |bs| && bs[r.value] == b
    ensures r.None? ==> b !in bs
  {
    if bs == [] then None
    else if bs[0] == b then Some(0)
    else
      var r := IndexOf(bs[1..], b);
      if r.Some? then Some(r.value + 1) else None
  }

  /** The place of a byte among ascending bytes. */
  function PlaceOf(bs: seq<int>, b: int): (p: nat)
    ensures p <= |bs| && (forall i :: 0 <= i < p ==> bs[i] < b) && (p < |bs| ==> b <= bs[p])
  {
    if bs == [] || b <= bs[0] then 0 else 1 + PlaceOf(bs[1..], b)
  }

  function Put<T>(s: seq<T>, p: nat, x: T): (r: seq<T>)
    requires p <= |s|
    ensures |r| == |s| + 1 && r[p] == x && (forall i :: 0 <= i < p ==> r[i] == s[i]) && (forall i :: p < i < |r| ==> r[i] == s[i - 1])
  {
    s[..p] + [x] + s[p..]
  }

  function Cut<T>(s: seq<T>, p: nat): (r: seq<T>)
    requires p < |s|
    ensures |r| == |s| - 1 && (forall i :: 0 <= i < p ==> r[i] == s[i]) && (forall i :: p <= i < |r| ==> r[i] == s[i + 1])
  {
    s[..p] + s[p + 1..]
  }

  /** How many bytes agree. */
  function Common(a: seq<int>, b: seq<int>): (n: nat)
    ensures n <= |a| && n <= |b| && a[..n] == b[..n] && (n < |a| && n < |b| ==> a[n] != b[n])
  {
    if a == [] || b == [] || a[0] != b[0] then 0
    else
      var n := Common(a[1..], b[1..]);
      assert a[..n + 1] == [a[0]] + a[1..][..n] && b[..n + 1] == [b[0]] + b[1..][..n];
      n + 1
  }

  // ---------- node sizes ----------

  predicate IsFull(kind: Kind, n: nat) {
    (kind.N4? && n == 4) || (kind.N16? && n == 16) || (kind.N48? && n == 48)
  }

  /** The count is kept in eight bits. */
  predicate IsUnderfull(kind: Kind, n: nat) {
    (kind.N16? && n % 256 == 3) || (kind.N48? && n % 256 == 12) || (kind.N256? && n % 256 == 37)
  }

  function Bigger(kind: Kind): Kind {
    match kind
    case N4 => N16
    case N16 => N48
    case _ => N256
  }

  function Smaller(kind: Kind): Kind {
    match kind
    case N256 => N48
    case N48 => N16
    case _ => N4
  }

  /** How many children a node of a size has when it is not the root. */
  predicate Band(kind: Kind, n: nat) {
    match kind
    case N4 => 2 <= n <= 4
    case N16 => 3 <= n <= 16
    case N48 => 12 <= n <= 48
    case N256 => 37 <= n <= 256
  }

  // ---------- the logical tree ----------

  /** getAnyChild: the first child that is a leaf, or else the last child. */
  function AnyChild(kids: seq<Tree>): (r: Tree)
    requires kids != []
    ensures r in kids
  {
    if kids[0].Leaf? || |kids| == 1 then kids[0] else AnyChild(kids[1..])
  }

  function AnyTid(t: Tree): Tid {
    match t
    case Leaf(x) => x
    case Node(_, _, _, _, kids) => if kids == [] then 0 else var c := AnyChild(kids); AnyTid(c)
  }

  /** The whole prefix of a node at depth d, of which the node stores the beginning. */
  function Prefix(load: Tid -> Key, t: Tree, d: nat): seq<int>
    requires t.Node?
  {
    Slice(load(AnyTid(t)), d, d + t.plen)
  }

  /** A subtree under a path: every leaf's key begins with the path, and with the prefix of every node on the way. */
  ghost predicate Good(load: Tid -> Key, size: nat, t: Tree, path: Key)
    decreases t, 1
  {
    match t
    case Leaf(x) => |load(x)| == size && ByteKey(load(x)) && path <= load(x)
    case Node(kind, _, _, _, kids) => Sound(load, size, t, path) && Band(kind, |kids|)
  }

  /** A node under a path, with any number of children. */
  ghost predicate Sound(load: Tid -> Key, size: nat, t: Tree, path: Key)
    decreases t, 0
  {
    match t
    case Leaf(_) => false
    case Node(_, plen, stored, bytes, kids) =>
      var p := Prefix(load, t, |path|);
      && |p| == plen && |path| + plen < size && stored == p[..Min(plen, MAX_STORED)]
      && |bytes| == |kids| && AscendingBytes(bytes)
      && forall i :: 0 <= i < |kids| ==> Good(load, size, kids[i], path + p + [bytes[i]])
  }

  /** The root is of the largest size and has no prefix. */
  ghost predicate GoodRoot(load: Tid -> Key, size: nat, t: Tree) {
    Sound(load, size, t, []) && t.kind == N256 && t.plen == 0
  }

  /** The tree has a leaf x, whose key is k. */
  ghost predicate Stores(load: Tid -> Key, t: Tree, k: Key, x: Tid)
    decreases t
  {
    match t
    case Leaf(y) => y == x && load(y) == k
    case Node(_, _, _, _, kids) => exists i :: 0 <= i < |kids| && Stores(load, kids[i], k, x)
  }

  lemma {:induction false} StoredUnder(load: Tid -> Key, size: nat, t: Tree, path: Key, k: Key, x: Tid)
    requires (Good(load, size, t, path) || Sound(load, size, t, path)) && Stores(load, t, k, x)
    ensures load(x) == k && |k| == size && ByteKey(k) && path <= k
    ensures t.Node? ==> path + Prefix(load, t, |path|) <= k
    decreases t
  {
    if t.Node? {
      var i :| 0 <= i < |t.kids| && Stores(load, t.kids[i], k, x);
      var p := Prefix(load, t, |path|);
      StoredUnder(load, size, t.kids[i], path + p + [t.bytes[i]], k, x);
      Longer(path + p, [t.bytes[i]], k);
      Longer(path, p, k);
    }
  }

  lemma Longer(a: Key, b: Key, k: Key)
    requires a + b <= k
    ensures a <= k
  {
  }

  lemma {:induction false} AnyStored(load: Tid -> Key, size: nat, t: Tree, path: Key)
    requires Good(load, size, t, path)
    ensures Stores(load, t, load(AnyTid(t)), AnyTid(t))
    decreases t
  {
    if t.Node? {
      var c := AnyChild(t.kids);
      var i :| 0 <= i < |t.kids| && t.kids[i] == c;
      AnyStored(load, size, t.kids[i], path + Prefix(load, t, |path|) + [t.bytes[i]]);
    }
  }

  /** A key in the tree is in the child under its next byte. */
  lemma StoredAt(load: Tid -> Key, size: nat, t: Tree, path: Key, k: Key, x: Tid)
    requires Sound(load, size, t, path) && Stores(load, t, k, x)
    ensures var d := |path| + t.plen; d < |k| && IndexOf(t.bytes, k[d]).Some? && Stores(load, t.kids[IndexOf(t.bytes, k[d]).value], k, x)
  {
    var p := Prefix(load, t, |path|);
    var i :| 0 <= i < |t.kids| && Stores(load, t.kids[i], k, x);
    StoredUnder(load, size, t.kids[i], path + p + [t.bytes[i]], k, x);
    assert (path + p + [t.bytes[i]])[|path| + t.plen] == t.bytes[i];
    IndexIs(t.bytes, i);
  }

  lemma IndexIs(bs: seq<int>, i: nat)
    requires AscendingBytes(bs) && i < |bs|
    ensures IndexOf(bs, bs[i]) == Some(i)
  {
  }

  /** A key has one leaf at most. */
  lemma {:induction false} StoredOnce(load: Tid -> Key, size: nat, t: Tree, path: Key, k: Key, x: Tid, y: Tid)
    requires (Good(load, size, t, path) || Sound(load, size, t, path)) && Stores(load, t, k, x) && Stores(load, t, k, y)
    ensures x == y
    decreases t
  {
    if t.Node? {
      StoredAt(load, size, t, path, k, x);
      StoredAt(load, size, t, path, k, y);
      var i := IndexOf(t.bytes, k[|path| + t.plen]).value;
      StoredOnce(load, size, t.kids[i], path + Prefix(load, t, |path|) + [t.bytes[i]], k, x, y);
    }
  }

  lemma Parts(load: Tid -> Key, size: nat, t: Tree, path: Key)
    requires Sound(load, size, t, path)
    ensures t.Node? && |Prefix(load, t, |path|)| == t.plen && |path| + t.plen < size && |t.bytes| == |t.kids| && AscendingBytes(t.bytes)
    ensures t.stored == Prefix(load, t, |path|)[..Min(t.plen, MAX_STORED)]
  {
  }

  lemma ChildGood(load: Tid -> Key, size: nat, t: Tree, path: Key, i: nat)
    requires Sound(load, size, t, path) && i < |t.kids|
    ensures |t.bytes| == |t.kids| && Good(load, size, t.kids[i], path + Prefix(load, t, |path|) + [t.bytes[i]])
  {
  }

  lemma GoodIs(load: Tid -> Key, size: nat, t: Tree, path: Key)
    ensures t.Leaf? ==> (Good(load, size, t, path) <==> |load(t.tid)| == size && ByteKey(load(t.tid)) && path <= load(t.tid))
    ensures t.Node? ==> (Good(load, size, t, path) <==> Sound(load, size, t, path) && Band(t.kind, |t.kids|))
  {
  }

  lemma StoresIs(load: Tid -> Key, t: Tree, k: Key, x: Tid)
    ensures t.Leaf? ==> (Stores(load, t, k, x) <==> t.tid == x && load(x) == k)
    ensures t.Node? ==> forall i :: 0 <= i < |t.kids| && Stores(load, t.kids[i], k, x) ==> Stores(load, t, k, x)
  {
  }

  // ---------- lookup ----------

  /** checkPrefix: the stored bytes agree with the key; bytes beyond them are skipped unseen. */
  predicate PrefixMatches(t: Tree, k: Key, d: nat)
    requires t.Node?
  {
    t.plen == 0 || (d + t.plen < |k| && t.stored == Slice(k, d, d + Min(t.plen, MAX_STORED)))
  }

  /** The lookup from a node at depth d on; blind says that bytes have been skipped. */
  function LookupFrom(load: Tid -> Key, t: Tree, k: Key, d: nat, blind: bool): Option<Tid>
    requires t.Node?
    decreases t
  {
    var e := d + t.plen;
    var blind' := blind || t.plen > MAX_STORED;
    if !PrefixMatches(t, k, d) || |k| <= e then None
    else
      var i := IndexOf(t.bytes, k[e]);
      if i.None? || i.value >= |t.kids| then None
      else
        match t.kids[i.value]
        case Leaf(x) => if (e < |k| - 1 || blind') && load(x) != k then None else Some(x)
        case Node(_, _, _, _, _) => LookupFrom(load, t.kids[i.value], k, e + 1, blind')
  }

  /** A lookup answers with the leaf of the key and with nothing else, even when it has skipped bytes. */
  lemma {:induction false} LookupRight(load: Tid -> Key, size: nat, t: Tree, path: Key, k: Key, blind: bool, x: Tid)
    requires Sound(load, size, t, path) && |k| == size && (!blind ==> path <= k)
    ensures LookupFrom(load, t, k, |path|, blind) == Some(x) <==> Stores(load, t, k, x)
    decreases t
  {
    if Stores(load, t, k, x) {
      LookupFinds(load, size, t, path, k, blind, x);
    }
    if LookupFrom(load, t, k, |path|, blind) == Some(x) {
      LookupSound(load, size, t, path, k, blind, x);
    }
  }

  /** One step of a lookup that goes down to child i. */
  lemma LookupStep(load: Tid -> Key, t: Tree, k: Key, d: nat, blind: bool, i: nat)
    requires t.Node? && d + t.plen < |k| && IndexOf(t.bytes, k[d + t.plen]) == Some(i) && i < |t.kids|
    ensures LookupFrom(load, t, k, d, blind) ==
      (var blind' := blind || t.plen > MAX_STORED;
       if !PrefixMatches(t, k, d) then None
       else if t.kids[i].Node? then LookupFrom(load, t.kids[i], k, d + t.plen + 1, blind')
       else if (d + t.plen < |k| - 1 || blind') && load(t.kids[i].tid) != k then None
       else Some(t.kids[i].tid))
  {
  }

  lemma {:induction false} LookupFinds(load: Tid -> Key, size: nat, t: Tree, path: Key, k: Key, blind: bool, x: Tid)
    requires Sound(load, size, t, path) && |k| == size && Stores(load, t, k, x)
    ensures LookupFrom(load, t, k, |path|, blind) == Some(x)
    decreases t
  {
    hide Sound, Good, Stores, LookupFrom, Prefix, IndexOf, AscendingBytes;
    Parts(load, size, t, path);
    var p := Prefix(load, t, |path|);
    StoredUnder(load, size, t, path, k, x);
    StoredAt(load, size, t, path, k, x);
    assert k[|path|..|path| + t.plen] == (path + p)[|path|..];
    assert Slice(k, |path|, |path| + Min(t.plen, MAX_STORED)) == p[..Min(t.plen, MAX_STORED)];
    var i := IndexOf(t.bytes, k[|path| + t.plen]).value;
    LookupStep(load, t, k, |path|, blind, i);
    ChildGood(load, size, t, path, i);
    GoodIs(load, size, t.kids[i], path + p + [t.bytes[i]]);
    StoresIs(load, t.kids[i], k, x);
    if t.kids[i].Node? {
      LookupFinds(load, size, t.kids[i], path + p + [t.bytes[i]], k, blind || t.plen > MAX_STORED, x);
    }
  }

  lemma LookupStops(load: Tid -> Key, t: Tree, k: Key, d: nat, blind: bool)
    requires t.Node?
    requires !PrefixMatches(t, k, d) || |k| <= d + t.plen || IndexOf(t.bytes, k[d + t.plen]).None? || IndexOf(t.bytes, k[d + t.plen]).value >= |t.kids|
    ensures LookupFrom(load, t, k, d, blind) == None
  {
  }

  lemma LookupGoesDown(load: Tid -> Key, t: Tree, k: Key, d: nat, blind: bool)
    requires t.Node? && LookupFrom(load, t, k, d, blind).Some?
    ensures d + t.plen < |k| && PrefixMatches(t, k, d) && IndexOf(t.bytes, k[d + t.plen]).Some?
  {
  }

  lemma {:induction false} LookupSound(load: Tid -> Key, size: nat, t: Tree, path: Key, k: Key, blind: bool, x: Tid)
    requires Sound(load, size, t, path) && |k| == size && (!blind ==> path <= k)
    requires LookupFrom(load, t, k, |path|, blind) == Some(x)
    ensures Stores(load, t, k, x)
    decreases t
  {
    hide Sound, Good, Stores, LookupFrom, Prefix, IndexOf, AscendingBytes;
    Parts(load, size, t, path);
    LookupGoesDown(load, t, k, |path|, blind);
    var p, e := Prefix(load, t, |path|), |path| + t.plen;
    var blind' := blind || t.plen > MAX_STORED;
    var i := IndexOf(t.bytes, k[e]).value;
    var c, path' := t.kids[i], path + p + [t.bytes[i]];
    LookupStep(load, t, k, |path|, blind, i);
    ChildGood(load, size, t, path, i);
    GoodIs(load, size, c, path');
    if !blind' {
      assert p[..t.plen] == p;
      SeenBytes(path, p, t.bytes[i], k, t.plen);
    }
    if c.Node? {
      LookupSound(load, size, c, path', k, blind', x);
    } else if !blind' && e == |k| - 1 {
      assert load(x)[..|path'|] == path' == k[..|path'|];
    }
    StoresIs(load, c, k, x);
    StoresIs(load, t, k, x);
  }

  /** A prefix and a byte that agree with the key make the path longer. */
  lemma SeenBytes(path: Key, p: seq<int>, b: int, k: Key, n: nat)
    requires path <= k && |p| == n && |path| + n < |k| && k[|path| + n] == b && (n == 0 || p == Slice(k, |path|, |path| + n))
    ensures path + p + [b] <= k
  {
    var q := path + p + [b];
    forall i | 0 <= i < |q| ensures q[i] == k[i] {
      if i < |path| {
        assert path[i] == k[..|path|][i];
      }
    }
  }
}
