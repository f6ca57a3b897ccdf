/**
 Insertion into the adaptive radix tree: a new child, with a node of the next size when it is full, a new node
 above a leaf, or a new node above a node whose prefix the key leaves.
 */
module ArtInsert {
  import opened Options
  import opened Art

  // ---------- the operation ----------

  /** The prefix as checkPrefixPessimistic sees it: stored bytes first, then those of any leaf's key. */
  function SeenPrefix(load: Tid -> Key, t: Tree, d: nat): (r: seq<int>)
    requires t.Node?
    ensures |r| == t.plen
  {
    var kt := load(AnyTid(t));
    seq(t.plen, i requires 0 <= i < t.plen =>
      if i < MAX_STORED && i < |t.stored| then t.stored[i] else if d + i < |kt| then kt[d + i] else 0)
  }

  /** What is left to store of the prefix after byte m. */
  function RestStored(load: Tid -> Key, t: Tree, d: nat, m: nat): seq<int>
    requires t.Node? && m < t.plen
  {
    if t.plen > MAX_STORED then Slice(load(AnyTid(t)), d + m + 1, d + m + 1 + Min(t.plen - m - 1, MAX_STORED))
    else Slice(t.stored, m + 1, |t.stored|)
  }

  /** A node of size 4 with two children. */
  function Pair(plen: nat, stored: seq<int>, b: int, s: Tree, c: int, t: Tree): Tree {
    if b < c then Node(N4, plen, stored, [b, c], [s, t]) else Node(N4, plen, stored, [c, b], [t, s])
  }

  function SplitPrefix(load: Tid -> Key, t: Tree, k: Key, x: Tid, d: nat, m: nat): Tree
    requires t.Node? && m < t.plen && d + m < |k|
  {
    Pair(m, Slice(t.stored, 0, Min(m, MAX_STORED)), k[d + m], Leaf(x),
         SeenPrefix(load, t, d)[m], Node(t.kind, t.plen - m - 1, RestStored(load, t, d, m), t.bytes, t.kids))
  }

  /** A new node above a leaf with another key; d is the depth below the byte they share. */
  function SplitLeaf(load: Tid -> Key, y: Tid, k: Key, x: Tid, d: nat): Tree
    requires d <= |k| && d <= |load(y)|
  {
    var q := Common(k[d..], load(y)[d..]);
    if d + q < |k| && d + q < |load(y)| then
      Pair(q, k[d..d + Min(q, MAX_STORED)], k[d + q], Leaf(x), load(y)[d + q], Leaf(y))
    else Leaf(x)
  }

  function AddChild(t: Tree, b: int, c: Tree): Tree
    requires t.Node? && |t.bytes| == |t.kids|
  {
    var p := PlaceOf(t.bytes, b);
    Node(if IsFull(t.kind, |t.kids|) then Bigger(t.kind) else t.kind, t.plen, t.stored, Put(t.bytes, p, b), Put(t.kids, p, c))
  }

  function Change(t: Tree, i: nat, c: Tree): Tree
    requires t.Node? && i < |t.kids|
  {
    Node(t.kind, t.plen, t.stored, t.bytes, t.kids[i := c])
  }

  function InsertFrom(load: Tid -> Key, t: Tree, k: Key, x: Tid, d: nat): Tree
    requires t.Node?
    decreases t
  {
    var m := Common(SeenPrefix(load, t, d), Slice(k, d, |k|));
    var e := d + t.plen;
    if m < t.plen then (if d + m < |k| then SplitPrefix(load, t, k, x, d, m) else t)
    else if |k| <= e || |t.bytes| != |t.kids| then t
    else
      var i := IndexOf(t.bytes, k[e]);
      if i.None? then AddChild(t, k[e], Leaf(x))
      else
        match t.kids[i.value]
        case Leaf(y) =>
          if load(y) == k then Change(t, i.value, Leaf(x))
          else if e < |load(y)| then Change(t, i.value, SplitLeaf(load, y, k, x, e + 1))
          else t
        case Node(_, _, _, _, _) => Change(t, i.value, InsertFrom(load, t.kids[i.value], k, x, e + 1))
  }

  // ---------- putting a node together ----------

  /** A node whose children are good below its prefix is good: any leaf gives the prefix back. */
  lemma MakeSound(load: Tid -> Key, size: nat, t: Tree, path: Key, p: seq<int>)
    requires t.Node? && |p| == t.plen && |path| + t.plen < size && t.stored == p[..Min(t.plen, MAX_STORED)]
    requires |t.bytes| == |t.kids| && AscendingBytes(t.bytes) && (t.kids != [] || t.plen == 0)
    requires forall i :: 0 <= i < |t.kids| ==> Good(load, size, t.kids[i], path + p + [t.bytes[i]])
    ensures Prefix(load, t, |path|) == p && Sound(load, size, t, path)
  {
    if t.kids != [] {
      var c := AnyChild(t.kids);
      var i :| 0 <= i < |t.kids| && t.kids[i] == c;
      var b := path + p + [t.bytes[i]];
      AnyStored(load, size, t.kids[i], b);
      StoredUnder(load, size, t.kids[i], b, load(AnyTid(t)), AnyTid(t));
      assert load(AnyTid(t))[|path|..|path| + t.plen] == b[|path|..|path| + t.plen] == p;
    }
  }

  lemma SeenIsPrefix(load: Tid -> Key, size: nat, t: Tree, path: Key)
    requires Sound(load, size, t, path)
    ensures SeenPrefix(load, t, |path|) == Prefix(load, t, |path|)
  {
  }

  lemma PairStores(load: Tid -> Key, plen: nat, stored: seq<int>, b: int, s: Tree, c: int, t: Tree, q: Key, y: Tid)
    ensures Stores(load, Pair(plen, stored, b, s, c, t), q, y) <==> Stores(load, s, q, y) || Stores(load, t, q, y)
  {
    var u := Pair(plen, stored, b, s, c, t);
    var i, j := if b < c then 0 else 1, if b < c then 1 else 0;
    assert u.kids[i] == s && u.kids[j] == t;
    if Stores(load, u, q, y) {
      var n :| 0 <= n < |u.kids| && Stores(load, u.kids[n], q, y);
      assert n == i || n == j;
    }
  }

  lemma PairGood(load: Tid -> Key, size: nat, path: Key, p: seq<int>, stored: seq<int>, b: int, s: Tree, c: int, t: Tree)
    requires |path| + |p| < size && stored == p[..Min(|p|, MAX_STORED)] && b != c && 0 <= b < 256 && 0 <= c < 256
    requires Good(load, size, s, path + p + [b]) && Good(load, size, t, path + p + [c])
    ensures Good(load, size, Pair(|p|, stored, b, s, c, t), path)
  {
    MakeSound(load, size, Pair(|p|, stored, b, s, c, t), path, p);
  }

  /** Some child other than i has the leaf. */
  ghost predicate Elsewhere(load: Tid -> Key, t: Tree, i: nat, q: Key, y: Tid) {
    t.Node? && exists j :: 0 <= j < |t.kids| && j != i && Stores(load, t.kids[j], q, y)
  }

  lemma StoresHere(load: Tid -> Key, t: Tree, i: nat, q: Key, y: Tid)
    requires t.Node? && i < |t.kids|
    ensures Stores(load, t, q, y) <==> Stores(load, t.kids[i], q, y) || Elsewhere(load, t, i, q, y)
  {
  }

  lemma ChangeStores(load: Tid -> Key, t: Tree, i: nat, c: Tree, q: Key, y: Tid)
    requires t.Node? && i < |t.kids|
    ensures Stores(load, Change(t, i, c), q, y) <==> Stores(load, c, q, y) || Elsewhere(load, t, i, q, y)
  {
    var u := Change(t, i, c);
    StoresHere(load, u, i, q, y);
    if Elsewhere(load, u, i, q, y) {
      var j :| 0 <= j < |u.kids| && j != i && Stores(load, u.kids[j], q, y);
      assert Stores(load, t.kids[j], q, y);
    }
    if Elsewhere(load, t, i, q, y) {
      var j :| 0 <= j < |t.kids| && j != i && Stores(load, t.kids[j], q, y);
      assert Stores(load, u.kids[j], q, y);
    }
  }

  lemma ChangeSound(load: Tid -> Key, size: nat, t: Tree, path: Key, i: nat, c: Tree)
    requires Sound(load, size, t, path) && i < |t.kids| && Good(load, size, c, path + Prefix(load, t, |path|) + [t.bytes[i]])
    ensures Sound(load, size, Change(t, i, c), path)
  {
    MakeSound(load, size, Change(t, i, c), path, Prefix(load, t, |path|));
  }

  // ---------- the cases ----------

  lemma PutAscending(bs: seq<int>, b: int)
    requires AscendingBytes(bs) && 0 <= b < 256 && b !in bs
    ensures AscendingBytes(Put(bs, PlaceOf(bs, b), b))
  {
    hide Put, PlaceOf;
    var p := PlaceOf(bs, b);
    var cs := Put(bs, p, b);
    forall i, j | 0 <= i < j < |cs| ensures cs[i] < cs[j] {
      if i == p {
        assert cs[j] == bs[j - 1] && bs[j - 1] != b;
      } else if j == p {
        assert cs[i] == bs[i];
      } else {
        assert cs[i] == bs[if i < p then i else i - 1] && cs[j] == bs[if j < p then j else j - 1];
      }
    }
  }

  /** Distinct bytes are at most 256, so the largest size never overflows. */
  lemma {:induction false} BytesBounded(bs: seq<int>)
    requires AscendingBytes(bs)
    ensures |bs| <= 256
  {
    if |bs| > 0 {
      BytesFrom(bs, |bs| - 1);
    }
  }

  lemma {:induction false} BytesFrom(bs: seq<int>, i: nat)
    requires AscendingBytes(bs) && i < |bs|
    ensures bs[i] >= i
  {
    if i > 0 {
      BytesFrom(bs, i - 1);
    }
  }

  lemma AddChildSound(load: Tid -> Key, size: nat, t: Tree, path: Key, b: int, c: Tree)
    requires Sound(load, size, t, path) && 0 <= b < 256 && b !in t.bytes && Good(load, size, c, path + Prefix(load, t, |path|) + [b])
    requires t.kids != [] || t.plen == 0
    ensures Sound(load, size, AddChild(t, b, c), path)
    ensures Band(t.kind, |t.kids|) ==> Band(AddChild(t, b, c).kind, |t.kids| + 1)
  {
    var u, p := AddChild(t, b, c), PlaceOf(t.bytes, b);
    PutAscending(t.bytes, b);
    BytesBounded(u.bytes);
    forall i | 0 <= i < |u.kids| ensures Good(load, size, u.kids[i], path + Prefix(load, t, |path|) + [u.bytes[i]]) {
      if i != p {
        var j := if i < p then i else i - 1;
        assert u.kids[i] == t.kids[j] && u.bytes[i] == t.bytes[j];
        ChildGood(load, size, t, path, j);
      }
    }
    MakeSound(load, size, u, path, Prefix(load, t, |path|));
  }

  lemma AddChildStores(load: Tid -> Key, t: Tree, b: int, c: Tree, q: Key, y: Tid)
    requires t.Node? && |t.bytes| == |t.kids|
    ensures Stores(load, AddChild(t, b, c), q, y) <==> Stores(load, c, q, y) || Stores(load, t, q, y)
  {
    var u, p := AddChild(t, b, c), PlaceOf(t.bytes, b);
    if Stores(load, u, q, y) {
      var i :| 0 <= i < |u.kids| && Stores(load, u.kids[i], q, y);
      assert i != p ==> u.kids[i] == t.kids[if i < p then i else i - 1];
    }
    if Stores(load, t, q, y) {
      var i :| 0 <= i < |t.kids| && Stores(load, t.kids[i], q, y);
      assert u.kids[if i < p then i else i + 1] == t.kids[i];
    }
    assert u.kids[p] == c;
  }

  /** A node whose prefix is cut after byte m is good one byte further down. */
  lemma RestGood(load: Tid -> Key, size: nat, t: Tree, path: Key, m: nat)
    requires Good(load, size, t, path) && t.Node? && m < t.plen && |Prefix(load, t, |path|)| == t.plen
    ensures var p := Prefix(load, t, |path|);
            Good(load, size, Node(t.kind, t.plen - m - 1, RestStored(load, t, |path|, m), t.bytes, t.kids), path + p[..m] + [p[m]])
  {
    var p := Prefix(load, t, |path|);
    var path', p' := path + p[..m] + [p[m]], p[m + 1..];
    var u := Node(t.kind, t.plen - m - 1, RestStored(load, t, |path|, m), t.bytes, t.kids);
    Parts(load, size, t, path);
    forall i | 0 <= i < |u.kids| ensures Good(load, size, u.kids[i], path' + p' + [u.bytes[i]]) {
      ChildGood(load, size, t, path, i);
      assert path' + p' + [u.bytes[i]] == path + p + [t.bytes[i]];
    }
    RestIs(load, t, |path|, m);
    MakeSound(load, size, u, path', p');
  }

  lemma RestIs(load: Tid -> Key, t: Tree, d: nat, m: nat)
    requires t.Node? && m < t.plen && |Prefix(load, t, d)| == t.plen && t.stored == Prefix(load, t, d)[..Min(t.plen, MAX_STORED)]
    ensures RestStored(load, t, d, m) == Prefix(load, t, d)[m + 1..][..Min(t.plen - m - 1, MAX_STORED)]
  {
  }

  lemma SplitPrefixGood(load: Tid -> Key, size: nat, t: Tree, path: Key, k: Key, x: Tid, m: nat, p: seq<int>)
    requires Good(load, size, t, path) && t.Node? && path <= k && |k| == size && ByteKey(k) && load(x) == k
    requires p == Prefix(load, t, |path|) == SeenPrefix(load, t, |path|) && |p| == t.plen && m < t.plen && |path| + t.plen < size
    requires p[..m] == Slice(k, |path|, |path| + m) && p[m] != k[|path| + m] && t.stored == p[..Min(t.plen, MAX_STORED)]
    ensures Good(load, size, SplitPrefix(load, t, k, x, |path|, m), path)
  {
    hide Good, Sound;
    var d := |path|;
    AnyByte(load, size, t, path, m);
    SeenBytes(path, p[..m], k[d + m], k, m);
    RestGood(load, size, t, path, m);
    GoodIs(load, size, Leaf(x), path + p[..m] + [k[d + m]]);
    var stored := Slice(t.stored, 0, Min(m, MAX_STORED));
    assert stored == p[..m][..Min(m, MAX_STORED)];
    var u := Node(t.kind, t.plen - m - 1, RestStored(load, t, d, m), t.bytes, t.kids);
    PairGood(load, size, path, p[..m], stored, k[d + m], Leaf(x), p[m], u);
  }

  lemma SplitPrefixStores(load: Tid -> Key, t: Tree, k: Key, x: Tid, d: nat, m: nat, q: Key, y: Tid)
    requires t.Node? && m < t.plen && d + m < |k| && load(x) == k
    ensures Stores(load, SplitPrefix(load, t, k, x, d, m), q, y) <==> (q == k && y == x) || Stores(load, t, q, y)
  {
    hide Stores, RestStored, SeenPrefix;
    var u := Node(t.kind, t.plen - m - 1, RestStored(load, t, d, m), t.bytes, t.kids);
    PairStores(load, m, Slice(t.stored, 0, Min(m, MAX_STORED)), k[d + m], Leaf(x), SeenPrefix(load, t, d)[m], u, q, y);
    StoresIs(load, Leaf(x), q, y);
    SameKids(load, t, u, q, y);
  }

  /** A key that leaves the prefix at byte m is not in the node. */
  lemma LeavesPrefix(load: Tid -> Key, size: nat, t: Tree, path: Key, k: Key, m: nat, y: Tid)
    requires Sound(load, size, t, path) && m < t.plen && |path| + m < |k| && |Prefix(load, t, |path|)| == t.plen
    requires Prefix(load, t, |path|)[m] != k[|path| + m]
    ensures !Stores(load, t, k, y)
  {
    hide Good, Sound, Stores;
    Parts(load, size, t, path);
    if Stores(load, t, k, y) {
      StoredUnder(load, size, t, path, k, y);
    }
  }

  lemma SameKids(load: Tid -> Key, t: Tree, u: Tree, q: Key, y: Tid)
    requires t.Node? && u.Node? && t.kids == u.kids
    ensures Stores(load, t, q, y) == Stores(load, u, q, y)
  {
  }

  /** The bytes of a prefix are bytes. */
  lemma AnyByte(load: Tid -> Key, size: nat, t: Tree, path: Key, m: nat)
    requires Good(load, size, t, path) && t.Node? && m < t.plen
    ensures |Prefix(load, t, |path|)| == t.plen && 0 <= Prefix(load, t, |path|)[m] < 256
  {
    AnyStored(load, size, t, path);
    StoredUnder(load, size, t, path, load(AnyTid(t)), AnyTid(t));
  }

  lemma SplitLeafRight(load: Tid -> Key, size: nat, y: Tid, k: Key, x: Tid, path: Key)
    requires |load(y)| == |k| == size && ByteKey(k) && ByteKey(load(y)) && load(x) == k != load(y) && path <= k && path <= load(y)
    ensures Good(load, size, SplitLeaf(load, y, k, x, |path|), path)
    ensures forall q, z :: Stores(load, SplitLeaf(load, y, k, x, |path|), q, z) <==> (q == k && z == x) || (q == load(y) && z == y)
  {
    hide Good, Sound, Stores;
    var d, l := |path|, load(y);
    var n := Common(k[d..], l[d..]);
    assert k == path + k[d..] && l == path + l[d..];
    assert n < |k| - d by {
      assert k[d..][..|k| - d] == k[d..] && l[d..][..|k| - d] == l[d..];
    }
    var p := k[d..d + n];
    assert p == k[d..][..n] == l[d..][..n] && k[d..][n] == k[d + n] && l[d..][n] == l[d + n];
    assert path + p + [k[d + n]] <= k;
    SeenBytes(path, p, l[d + n], l, n);
    GoodIs(load, size, Leaf(x), path + p + [k[d + n]]);
    GoodIs(load, size, Leaf(y), path + p + [l[d + n]]);
    var stored := k[d..d + Min(n, MAX_STORED)];
    assert stored == p[..Min(n, MAX_STORED)];
    PairGood(load, size, path, p, stored, k[d + n], Leaf(x), l[d + n], Leaf(y));
    forall q, z ensures Stores(load, SplitLeaf(load, y, k, x, d), q, z) <==> (q == k && z == x) || (q == l && z == y) {
      PairStores(load, n, stored, k[d + n], Leaf(x), l[d + n], Leaf(y), q, z);
      StoresIs(load, Leaf(x), q, z);
      StoresIs(load, Leaf(y), q, z);
    }
  }

  /** Afterwards the tree has the key with its new leaf, and everything else as before. */
  ghost predicate Inserted(load: Tid -> Key, t: Tree, t': Tree, k: Key, x: Tid) {
    forall q, y :: Stores(load, t', q, y) <==> (q == k && y == x) || (q != k && Stores(load, t, q, y))
  }

  lemma InsertedOne(load: Tid -> Key, t: Tree, t': Tree, k: Key, x: Tid, q: Key, y: Tid)
    requires Inserted(load, t, t', k, x)
    ensures Stores(load, t', q, y) <==> (q == k && y == x) || (q != k && Stores(load, t, q, y))
  {
  }

  /** Changing the child under the key's byte changes the tree by what changes in the child. */
  lemma InsertedBelow(load: Tid -> Key, size: nat, t: Tree, path: Key, k: Key, x: Tid, i: nat, c: Tree)
    requires Sound(load, size, t, path) && |path| + t.plen < |k| && IndexOf(t.bytes, k[|path| + t.plen]) == Some(i) && i < |t.kids|
    requires Inserted(load, t.kids[i], c, k, x)
    ensures Inserted(load, t, Change(t, i, c), k, x)
  {
    hide Sound, Good, Stores, Inserted, IndexOf;
    Parts(load, size, t, path);
    forall q, y ensures Stores(load, Change(t, i, c), q, y) <==> (q == k && y == x) || (q != k && Stores(load, t, q, y)) {
      ChangeStores(load, t, i, c, q, y);
      StoresHere(load, t, i, q, y);
      InsertedOne(load, t.kids[i], c, k, x, q, y);
      if q == k && Elsewhere(load, t, i, k, y) {
        NotElsewhere(load, size, t, path, k, i, y);
      }
    }
    InsertedAll(load, t, Change(t, i, c), k, x);
  }

  lemma InsertedAll(load: Tid -> Key, t: Tree, t': Tree, k: Key, x: Tid)
    requires forall q, y :: Stores(load, t', q, y) <==> (q == k && y == x) || (q != k && Stores(load, t, q, y))
    ensures Inserted(load, t, t', k, x)
  {
  }

  lemma NotElsewhere(load: Tid -> Key, size: nat, t: Tree, path: Key, k: Key, i: nat, y: Tid)
    requires Sound(load, size, t, path) && |path| + t.plen < |k| && IndexOf(t.bytes, k[|path| + t.plen]) == Some(i)
    ensures !Elsewhere(load, t, i, k, y)
  {
    hide Sound, Good, Stores;
    Parts(load, size, t, path);
    var p := Prefix(load, t, |path|);
    forall j | 0 <= j < |t.kids| && j != i ensures !Stores(load, t.kids[j], k, y) {
      if Stores(load, t.kids[j], k, y) {
        ChildGood(load, size, t, path, j);
        StoredUnder(load, size, t.kids[j], path + p + [t.bytes[j]], k, y);
        assert (path + p + [t.bytes[j]])[|path| + t.plen] == t.bytes[j];
        IndexIs(t.bytes, j);
      }
    }
  }

  /** The leaf case: the same key is replaced, another one gets a new node above. */
  lemma InsertAtLeaf(load: Tid -> Key, size: nat, y: Tid, path: Key, k: Key, x: Tid)
    requires Good(load, size, Leaf(y), path) && path <= k && |k| == size && ByteKey(k) && load(x) == k
    ensures var c := if load(y) == k then Leaf(x) else if |path| <= |load(y)| then SplitLeaf(load, y, k, x, |path|) else Leaf(y);
            Good(load, size, c, path) && Inserted(load, Leaf(y), c, k, x)
  {
    hide SplitLeaf;
    if load(y) != k {
      SplitLeafRight(load, size, y, k, x, path);
    }
  }

  lemma InsertUnfolds(load: Tid -> Key, t: Tree, k: Key, x: Tid, d: nat)
    requires t.Node? && d + t.plen < |k| && |t.bytes| == |t.kids|
    ensures var m, e := Common(SeenPrefix(load, t, d), Slice(k, d, |k|)), d + t.plen;
            var i := IndexOf(t.bytes, k[e]);
            && (m < t.plen ==> InsertFrom(load, t, k, x, d) == SplitPrefix(load, t, k, x, d, m))
            && (m == t.plen && i.None? ==> InsertFrom(load, t, k, x, d) == AddChild(t, k[e], Leaf(x)))
            && (m == t.plen && i.Some? && t.kids[i.value].Node? ==>
                 InsertFrom(load, t, k, x, d) == Change(t, i.value, InsertFrom(load, t.kids[i.value], k, x, e + 1)))
            && (m == t.plen && i.Some? && t.kids[i.value].Leaf? && load(t.kids[i.value].tid) == k ==>
                 InsertFrom(load, t, k, x, d) == Change(t, i.value, Leaf(x)))
            && (m == t.plen && i.Some? && t.kids[i.value].Leaf? && load(t.kids[i.value].tid) != k && e < |load(t.kids[i.value].tid)| ==>
                 InsertFrom(load, t, k, x, d) == Change(t, i.value, SplitLeaf(load, t.kids[i.value].tid, k, x, e + 1)))
  {
  }

  /** What an insertion does to a node: it stays in its band, or becomes a new node of size 4; the root keeps its size. */
  ghost predicate Kept(t: Tree, t': Tree) {
    && t.Node? && t'.Node? && (Band(t.kind, |t.kids|) ==> Band(t'.kind, |t'.kids|))
    && (t.plen == 0 ==> t'.plen == 0 && (t.kind == N256 ==> t'.kind == N256))
  }

  /** Insertion keeps every prefix and every node size right and adds exactly the key. */
  lemma {:induction false} InsertRight(load: Tid -> Key, size: nat, t: Tree, path: Key, k: Key, x: Tid)
    requires Sound(load, size, t, path) && (Good(load, size, t, path) || t.plen == 0)
    requires path <= k && |k| == size && ByteKey(k) && load(x) == k
    ensures var t' := InsertFrom(load, t, k, x, |path|); Sound(load, size, t', path) && Kept(t, t') && Inserted(load, t, t', k, x)
    decreases t, 1
  {
    hide Good, Sound, Stores, InsertFrom, SplitPrefix, AddChild, SplitLeaf, Change, Inserted, Common, IndexOf, SeenPrefix, Prefix, Band;
    var d := |path|;
    Parts(load, size, t, path);
    SeenIsPrefix(load, size, t, path);
    InsertUnfolds(load, t, k, x, d);
    var p, m := Prefix(load, t, d), Common(SeenPrefix(load, t, d), Slice(k, d, |k|));
    if m < t.plen {
      InsertAbove(load, size, t, path, k, x, m);
    } else {
      assert p[..m] == p && k[d..][..m] == k[d..d + m];
      SeenBytes(path, p, k[d + m], k, m);
      InsertBelow(load, size, t, path, k, x);
    }
  }

  lemma InsertAbove(load: Tid -> Key, size: nat, t: Tree, path: Key, k: Key, x: Tid, m: nat)
    requires Sound(load, size, t, path) && Good(load, size, t, path) && path <= k && |k| == size && ByteKey(k) && load(x) == k
    requires m < t.plen && m == Common(SeenPrefix(load, t, |path|), Slice(k, |path|, |k|)) && |path| + t.plen < |k|
    ensures var t' := SplitPrefix(load, t, k, x, |path|, m); Sound(load, size, t', path) && Kept(t, t') && Inserted(load, t, t', k, x)
  {
    hide Good, Sound, Stores, SeenPrefix, Prefix, Common, Inserted;
    Parts(load, size, t, path);
    var d, t' := |path|, SplitPrefix(load, t, k, x, |path|, m);
    SeenIsPrefix(load, size, t, path);
    var p := Prefix(load, t, d);
    assert k[d..][..m] == k[d..d + m] && k[d..][m] == k[d + m];
    SplitPrefixGood(load, size, t, path, k, x, m, p);
    GoodIs(load, size, t', path);
    forall q, y ensures Stores(load, t', q, y) <==> (q == k && y == x) || (q != k && Stores(load, t, q, y)) {
      SplitPrefixStores(load, t, k, x, d, m, q, y);
      LeavesPrefix(load, size, t, path, k, m, y);
    }
    InsertedAll(load, t, t', k, x);
  }

  lemma {:induction false} InsertBelow(load: Tid -> Key, size: nat, t: Tree, path: Key, k: Key, x: Tid)
    requires Sound(load, size, t, path) && (Good(load, size, t, path) || t.plen == 0)
    requires |k| == size && ByteKey(k) && load(x) == k && |path| + t.plen < |k|
    requires Common(SeenPrefix(load, t, |path|), Slice(k, |path|, |k|)) == t.plen
    requires path + Prefix(load, t, |path|) + [k[|path| + t.plen]] <= k
    ensures var t' := InsertFrom(load, t, k, x, |path|); Sound(load, size, t', path) && Kept(t, t') && Inserted(load, t, t', k, x)
    decreases t, 0
  {
    hide Good, Sound, Stores, InsertFrom, SplitPrefix, AddChild, SplitLeaf, Change, Inserted, Common, IndexOf, SeenPrefix, Prefix, Band;
    Parts(load, size, t, path);
    InsertUnfolds(load, t, k, x, |path|);
    var e := |path| + t.plen;
    var path', i := path + Prefix(load, t, |path|) + [k[e]], IndexOf(t.bytes, k[e]);
    if i.None? {
      InsertNew(load, size, t, path, k, x);
    } else {
      var kid := t.kids[i.value];
      ChildGood(load, size, t, path, i.value);
      var c;
      if kid.Leaf? {
        GoodIs(load, size, kid, path');
        InsertAtLeaf(load, size, kid.tid, path', k, x);
        c := if load(kid.tid) == k then Leaf(x) else SplitLeaf(load, kid.tid, k, x, e + 1);
      } else {
        GoodIs(load, size, kid, path');
        InsertRight(load, size, kid, path', k, x);
        c := InsertFrom(load, kid, k, x, e + 1);
        GoodIs(load, size, c, path');
      }
      ChangeSound(load, size, t, path, i.value, c);
      InsertedBelow(load, size, t, path, k, x, i.value, c);
      ChangeKeeps(t, i.value, c);
    }
  }

  lemma ChangeKeeps(t: Tree, i: nat, c: Tree)
    requires t.Node? && i < |t.kids|
    ensures Kept(t, Change(t, i, c))
  {
  }

  lemma InsertNew(load: Tid -> Key, size: nat, t: Tree, path: Key, k: Key, x: Tid)
    requires Sound(load, size, t, path) && (Good(load, size, t, path) || t.plen == 0)
    requires |k| == size && ByteKey(k) && load(x) == k && |path| + t.plen < |k| && IndexOf(t.bytes, k[|path| + t.plen]).None?
    requires path + Prefix(load, t, |path|) + [k[|path| + t.plen]] <= k && |t.bytes| == |t.kids|
    ensures var t' := AddChild(t, k[|path| + t.plen], Leaf(x)); Sound(load, size, t', path) && Kept(t, t') && Inserted(load, t, t', k, x)
  {
    hide Good, Sound, Stores, Inserted;
    Parts(load, size, t, path);
    var b := k[|path| + t.plen];
    var t' := AddChild(t, b, Leaf(x));
    GoodIs(load, size, t, path);
    GoodIs(load, size, Leaf(x), path + Prefix(load, t, |path|) + [b]);
    AddChildSound(load, size, t, path, b, Leaf(x));
    forall q, y ensures Stores(load, t', q, y) <==> (q == k && y == x) || (q != k && Stores(load, t, q, y)) {
      AddChildStores(load, t, b, Leaf(x), q, y);
      StoresIs(load, Leaf(x), q, y);
      if q == k && Stores(load, t, k, y) {
        StoredAt(load, size, t, path, k, y);
      }
    }
    InsertedAll(load, t, t', k, x);
  }
}
