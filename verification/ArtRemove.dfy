/**
 Removal from the adaptive radix tree: a child goes, with a node of the next smaller size when it has become
 underfull, and a node left with one child gives way to that child, whose prefix takes its place.
 */
module ArtRemove {
  import opened Options
  import opened Art
  import opened ArtInsert

  // ---------- the operation ----------

  /** addPrefixBefore, as its memmove and memcpy leave the stored bytes. */
  function JoinStored(t: Tree, b: int, c: Tree): seq<int>
    requires t.Node? && c.Node?
  {
    var copy := Min(MAX_STORED, t.plen + 1);
    var moved := Slice(c.stored, 0, Min(c.plen, MAX_STORED - copy));
    Slice(t.stored, 0, Min(copy, t.plen)) + (if t.plen < MAX_STORED then [b] else []) + moved
  }

  /** The other of two children takes the node's place. */
  function JoinUp(t: Tree, j: nat): Tree
    requires t.Node? && j < |t.kids| == |t.bytes|
  {
    match t.kids[j]
    case Leaf(y) => t.kids[j]
    case Node(kind, plen, _, bytes, kids) => Node(kind, plen + t.plen + 1, JoinStored(t, t.bytes[j], t.kids[j]), bytes, kids)
  }

  function RemoveChild(t: Tree, i: nat, root: bool): Tree
    requires t.Node? && i < |t.kids| == |t.bytes|
  {
    Node(if IsUnderfull(t.kind, |t.kids|) && !root then Smaller(t.kind) else t.kind, t.plen, t.stored, Cut(t.bytes, i), Cut(t.kids, i))
  }

  function RemoveFrom(load: Tid -> Key, t: Tree, k: Key, x: Tid, d: nat, root: bool): Tree
    requires t.Node?
    decreases t
  {
    var e := d + t.plen;
    if !PrefixMatches(t, k, d) || |k| <= e || |t.bytes| != |t.kids| then t
    else
      var i := IndexOf(t.bytes, k[e]);
      if i.None? then t
      else
        match t.kids[i.value]
        case Leaf(y) =>
          if y != x then t
          else if |t.kids| % 256 == 2 && !root then JoinUp(t, if i.value == 0 then 1 else 0)
          else RemoveChild(t, i.value, root)
        case Node(_, _, _, _, _) => Change(t, i.value, RemoveFrom(load, t.kids[i.value], k, x, e + 1, false))
  }

  // ---------- node sizes ----------

  /** Below the root, a count of two, kept in eight bits, means a node of size 4 with two children. */
  lemma TwoIsN4(kind: Kind, n: nat)
    requires Band(kind, n) && n % 256 == 2
    ensures kind == N4 && n == 2
  {
  }

  lemma RemoveBand(t: Tree, i: nat)
    requires t.Node? && i < |t.kids| == |t.bytes| && Band(t.kind, |t.kids|) && |t.kids| % 256 != 2
    ensures Band(RemoveChild(t, i, false).kind, |t.kids| - 1)
  {
  }

  // ---------- contents ----------

  ghost predicate Removed(load: Tid -> Key, t: Tree, t': Tree, k: Key, x: Tid) {
    forall q, y :: Stores(load, t', q, y) <==> Stores(load, t, q, y) && !(q == k && y == x)
  }

  lemma RemovedOne(load: Tid -> Key, t: Tree, t': Tree, k: Key, x: Tid, q: Key, y: Tid)
    requires Removed(load, t, t', k, x)
    ensures Stores(load, t', q, y) <==> Stores(load, t, q, y) && !(q == k && y == x)
  {
  }

  lemma RemovedAll(load: Tid -> Key, t: Tree, t': Tree, k: Key, x: Tid)
    requires forall q, y :: Stores(load, t', q, y) <==> Stores(load, t, q, y) && !(q == k && y == x)
    ensures Removed(load, t, t', k, x)
  {
  }

  lemma RemovedNot(load: Tid -> Key, t: Tree, k: Key, x: Tid)
    requires !Stores(load, t, k, x)
    ensures Removed(load, t, t, k, x)
  {
  }

  lemma RemovedBelow(load: Tid -> Key, size: nat, t: Tree, path: Key, k: Key, x: Tid, i: nat, c: Tree)
    requires Sound(load, size, t, path) && |path| + t.plen < |k| && IndexOf(t.bytes, k[|path| + t.plen]) == Some(i) && i < |t.kids|
    requires Removed(load, t.kids[i], c, k, x)
    ensures Removed(load, t, Change(t, i, c), k, x)
  {
    hide Sound, Good, Stores, Removed, IndexOf;
    Parts(load, size, t, path);
    forall q, y ensures Stores(load, Change(t, i, c), q, y) <==> Stores(load, t, q, y) && !(q == k && y == x) {
      ChangeStores(load, t, i, c, q, y);
      StoresHere(load, t, i, q, y);
      RemovedOne(load, t.kids[i], c, k, x, q, y);
      if q == k && Elsewhere(load, t, i, k, y) {
        NotElsewhere(load, size, t, path, k, i, y);
      }
    }
    RemovedAll(load, t, Change(t, i, c), k, x);
  }

  lemma CutStores(load: Tid -> Key, t: Tree, i: nat, root: bool, q: Key, y: Tid)
    requires t.Node? && i < |t.kids| == |t.bytes|
    ensures Stores(load, RemoveChild(t, i, root), q, y) <==> Elsewhere(load, t, i, q, y)
  {
    var u := RemoveChild(t, i, root);
    if Stores(load, u, q, y) {
      var j :| 0 <= j < |u.kids| && Stores(load, u.kids[j], q, y);
      assert u.kids[j] == t.kids[if j < i then j else j + 1];
    }
    if Elsewhere(load, t, i, q, y) {
      var j :| 0 <= j < |t.kids| && j != i && Stores(load, t.kids[j], q, y);
      assert u.kids[if j < i then j else j - 1] == t.kids[j];
    }
  }

  lemma CutAscending(bs: seq<int>, i: nat)
    requires AscendingBytes(bs) && i < |bs|
    ensures AscendingBytes(Cut(bs, i))
  {
    var cs := Cut(bs, i);
    forall a, b | 0 <= a < b < |cs| ensures cs[a] < cs[b] {
      assert cs[a] == bs[if a < i then a else a + 1] && cs[b] == bs[if b < i then b else b + 1];
    }
  }

  lemma CutSound(load: Tid -> Key, size: nat, t: Tree, path: Key, i: nat, root: bool)
    requires Sound(load, size, t, path) && i < |t.kids| && (|t.kids| > 1 || t.plen == 0)
    ensures |t.kids| == |t.bytes| && Sound(load, size, RemoveChild(t, i, root), path)
  {
    hide Good, Sound, Prefix;
    Parts(load, size, t, path);
    var u, p := RemoveChild(t, i, root), Prefix(load, t, |path|);
    CutAscending(t.bytes, i);
    forall j | 0 <= j < |u.kids| ensures Good(load, size, u.kids[j], path + p + [u.bytes[j]]) {
      var n := if j < i then j else j + 1;
      assert u.kids[j] == t.kids[n] && u.bytes[j] == t.bytes[n];
      ChildGood(load, size, t, path, n);
    }
    MakeSound(load, size, u, path, p);
  }

  // ---------- joining prefixes ----------

  /** The bytes that addPrefixBefore leaves are the first ones of the joined prefix. */
  lemma JoinIs(t: Tree, b: int, c: Tree, p: seq<int>, q: seq<int>)
    requires t.Node? && c.Node? && |p| == t.plen && |q| == c.plen
    requires t.stored == p[..Min(t.plen, MAX_STORED)] && c.stored == q[..Min(c.plen, MAX_STORED)]
    ensures JoinStored(t, b, c) == (p + [b] + q)[..Min(t.plen + 1 + c.plen, MAX_STORED)]
  {
    var r, all := JoinStored(t, b, c), p + [b] + q;
    if t.plen < MAX_STORED {
      var n := Min(c.plen, MAX_STORED - (t.plen + 1));
      assert Slice(c.stored, 0, n) == q[..n];
      assert r == p + [b] + q[..n];
    } else {
      assert r == p[..MAX_STORED];
    }
  }

  lemma JoinGood(load: Tid -> Key, size: nat, t: Tree, path: Key, j: nat)
    requires Sound(load, size, t, path) && j < |t.kids|
    ensures |t.kids| == |t.bytes| && Good(load, size, JoinUp(t, j), path)
  {
    hide Good, Sound, Prefix, JoinStored;
    Parts(load, size, t, path);
    ChildGood(load, size, t, path, j);
    var p, b, c := Prefix(load, t, |path|), t.bytes[j], t.kids[j];
    var path' := path + p + [b];
    GoodIs(load, size, c, path');
    if c.Leaf? {
      assert path <= path';
      GoodIs(load, size, c, path);
    } else {
      Parts(load, size, c, path');
      var q, u := Prefix(load, c, |path'|), JoinUp(t, j);
      JoinIs(t, b, c, p, q);
      var all := p + [b] + q;
      forall i | 0 <= i < |u.kids| ensures Good(load, size, u.kids[i], path + all + [u.bytes[i]]) {
        ChildGood(load, size, c, path', i);
        assert path + all + [u.bytes[i]] == path' + q + [c.bytes[i]];
      }
      MakeSound(load, size, u, path, all);
      GoodIs(load, size, u, path);
    }
  }

  lemma JoinStores(load: Tid -> Key, t: Tree, j: nat, q: Key, y: Tid)
    requires t.Node? && j < |t.kids| == |t.bytes|
    ensures Stores(load, JoinUp(t, j), q, y) <==> Stores(load, t.kids[j], q, y)
  {
    if t.kids[j].Node? {
      SameKids(load, t.kids[j], JoinUp(t, j), q, y);
    }
  }

  // ---------- the theorem ----------

  lemma RemoveUnfolds(load: Tid -> Key, t: Tree, k: Key, x: Tid, d: nat, root: bool, i: nat)
    requires t.Node? && |t.bytes| == |t.kids| && d + t.plen < |k| && PrefixMatches(t, k, d) && IndexOf(t.bytes, k[d + t.plen]) == Some(i)
    ensures var t' := RemoveFrom(load, t, k, x, d, root);
            && (t.kids[i].Leaf? && t.kids[i].tid != x ==> t' == t)
            && (t.kids[i].Leaf? && t.kids[i].tid == x && |t.kids| % 256 == 2 && !root ==> t' == JoinUp(t, if i == 0 then 1 else 0))
            && (t.kids[i].Leaf? && t.kids[i].tid == x && (|t.kids| % 256 != 2 || root) ==> t' == RemoveChild(t, i, root))
            && (t.kids[i].Node? ==> t' == Change(t, i, RemoveFrom(load, t.kids[i], k, x, d + t.plen + 1, false)))
  {
  }

  lemma RemoveStops(load: Tid -> Key, t: Tree, k: Key, x: Tid, d: nat, root: bool)
    requires t.Node? && (!PrefixMatches(t, k, d) || |k| <= d + t.plen || IndexOf(t.bytes, k[d + t.plen]).None?)
    ensures RemoveFrom(load, t, k, x, d, root) == t
  {
  }

  /** A key that is in the node passes the check of its stored bytes. */
  lemma StoredMatches(load: Tid -> Key, size: nat, t: Tree, path: Key, k: Key, x: Tid)
    requires Sound(load, size, t, path) && Stores(load, t, k, x)
    ensures t.Node? && PrefixMatches(t, k, |path|) && |path| + t.plen < |k| && IndexOf(t.bytes, k[|path| + t.plen]).Some?
  {
    hide Sound, Good, Stores, Prefix;
    Parts(load, size, t, path);
    var p := Prefix(load, t, |path|);
    StoredUnder(load, size, t, path, k, x);
    StoredAt(load, size, t, path, k, x);
    assert k[|path|..|path| + t.plen] == (path + p)[|path|..];
    assert Slice(k, |path|, |path| + Min(t.plen, MAX_STORED)) == p[..Min(t.plen, MAX_STORED)];
  }

  /** What a removal leaves of a node: below the root a good subtree, at the root a root. */
  ghost predicate Left(load: Tid -> Key, size: nat, t: Tree, t': Tree, path: Key, root: bool) {
    if root then t.Node? && Sound(load, size, t', path) && t'.kind == t.kind && t'.plen == t.plen else Good(load, size, t', path)
  }

  /** Removal keeps every prefix and every node size right and takes out exactly the leaf asked for, if it is there. */
  lemma {:induction false} RemoveRight(load: Tid -> Key, size: nat, t: Tree, path: Key, k: Key, x: Tid, root: bool)
    requires Sound(load, size, t, path) && (root ==> t.plen == 0) && (!root ==> Band(t.kind, |t.kids|)) && |k| == size && load(x) == k
    ensures var t' := RemoveFrom(load, t, k, x, |path|, root); Left(load, size, t, t', path, root) && Removed(load, t, t', k, x)
    decreases t
  {
    hide Good, Sound, Stores, RemoveFrom, RemoveChild, JoinUp, Change, Removed, IndexOf, Prefix, Band, PrefixMatches;
    var d := |path|;
    Parts(load, size, t, path);
    GoodIs(load, size, t, path);
    if Stores(load, t, k, x) {
      StoredMatches(load, size, t, path, k, x);
    }
    var e := d + t.plen;
    if !PrefixMatches(t, k, d) || IndexOf(t.bytes, k[e]).None? {
      RemoveStops(load, t, k, x, d, root);
      RemovedNot(load, t, k, x);
    } else {
      var i := IndexOf(t.bytes, k[e]).value;
      RemoveUnfolds(load, t, k, x, d, root, i);
      ChildGood(load, size, t, path, i);
      if t.kids[i].Leaf? {
        RemoveLeaf(load, size, t, path, k, x, root, i);
      } else {
        var kid, path' := t.kids[i], path + Prefix(load, t, d) + [t.bytes[i]];
        GoodIs(load, size, kid, path');
        RemoveRight(load, size, kid, path', k, x, false);
        var c := RemoveFrom(load, kid, k, x, e + 1, false);
        ChangeSound(load, size, t, path, i, c);
        RemovedBelow(load, size, t, path, k, x, i, c);
        ChangeKeeps(t, i, c);
        ChangedNode(t, i, c);
        GoodIs(load, size, Change(t, i, c), path);
      }
    }
  }

  lemma ChangedNode(t: Tree, i: nat, c: Tree)
    requires t.Node? && i < |t.kids|
    ensures var u := Change(t, i, c); u.Node? && u.kind == t.kind && u.plen == t.plen && |u.kids| == |t.kids|
  {
  }

  /** The child under the key's byte is a leaf. */
  lemma RemoveLeaf(load: Tid -> Key, size: nat, t: Tree, path: Key, k: Key, x: Tid, root: bool, i: nat)
    requires Sound(load, size, t, path) && (root ==> t.plen == 0) && (!root ==> Band(t.kind, |t.kids|)) && |k| == size && load(x) == k
    requires |path| + t.plen < |k| && PrefixMatches(t, k, |path|) && IndexOf(t.bytes, k[|path| + t.plen]) == Some(i) && i < |t.kids|
    requires t.kids[i].Leaf?
    ensures var t' := RemoveFrom(load, t, k, x, |path|, root); Left(load, size, t, t', path, root) && Removed(load, t, t', k, x)
  {
    hide Good, Sound, Stores, RemoveFrom, RemoveChild, JoinUp, Removed, IndexOf, Prefix, Band, PrefixMatches;
    Parts(load, size, t, path);
    GoodIs(load, size, t, path);
    RemoveUnfolds(load, t, k, x, |path|, root, i);
    StoresIs(load, t.kids[i], k, x);
    if t.kids[i].tid != x {
      if Stores(load, t, k, x) {
        StoredAt(load, size, t, path, k, x);
      }
      RemovedNot(load, t, k, x);
    } else if |t.kids| % 256 == 2 && !root {
      TwoIsN4(t.kind, |t.kids|);
      JoinGood(load, size, t, path, if i == 0 then 1 else 0);
      JoinRemoves(load, size, t, path, k, x, i);
    } else {
      CutAway(load, size, t, path, k, x, root, i);
    }
  }

  lemma JoinRemoves(load: Tid -> Key, size: nat, t: Tree, path: Key, k: Key, x: Tid, i: nat)
    requires Sound(load, size, t, path) && |path| + t.plen < |k| && IndexOf(t.bytes, k[|path| + t.plen]) == Some(i)
    requires |t.kids| == |t.bytes| == 2 && i < 2 && t.kids[i] == Leaf(x) && load(x) == k
    ensures Removed(load, t, JoinUp(t, if i == 0 then 1 else 0), k, x)
  {
    hide Good, Sound, Stores, JoinUp, Removed, IndexOf;
    Parts(load, size, t, path);
    var j := if i == 0 then 1 else 0;
    forall q, y ensures Stores(load, JoinUp(t, j), q, y) <==> Stores(load, t, q, y) && !(q == k && y == x) {
      JoinStores(load, t, j, q, y);
      StoresHere(load, t, i, q, y);
      StoresIs(load, t.kids[i], q, y);
      NotElsewhere(load, size, t, path, k, i, y);
      OnlyOther(load, t, i, j, q, y);
    }
    RemovedAll(load, t, JoinUp(t, j), k, x);
  }

  lemma OnlyOther(load: Tid -> Key, t: Tree, i: nat, j: nat, q: Key, y: Tid)
    requires t.Node? && |t.kids| == 2 && i + j == 1
    ensures Elsewhere(load, t, i, q, y) <==> Stores(load, t.kids[j], q, y)
  {
    if Elsewhere(load, t, i, q, y) {
      var n :| 0 <= n < |t.kids| && n != i && Stores(load, t.kids[n], q, y);
      assert n == j;
    }
  }

  lemma CutAway(load: Tid -> Key, size: nat, t: Tree, path: Key, k: Key, x: Tid, root: bool, i: nat)
    requires Sound(load, size, t, path) && (root ==> t.plen == 0) && (!root ==> Band(t.kind, |t.kids|) && |t.kids| % 256 != 2)
    requires |path| + t.plen < |k| && IndexOf(t.bytes, k[|path| + t.plen]) == Some(i) && i < |t.kids| == |t.bytes|
    requires t.kids[i] == Leaf(x) && load(x) == k
    ensures Left(load, size, t, RemoveChild(t, i, root), path, root) && Removed(load, t, RemoveChild(t, i, root), k, x)
  {
    hide Good, Sound, Stores, Removed, IndexOf, Prefix;
    Parts(load, size, t, path);
    var u := RemoveChild(t, i, root);
    CutSound(load, size, t, path, i, root);
    if !root {
      RemoveBand(t, i);
    }
    GoodIs(load, size, u, path);
    forall q, y ensures Stores(load, u, q, y) <==> Stores(load, t, q, y) && !(q == k && y == x) {
      CutStores(load, t, i, root, q, y);
      StoresHere(load, t, i, q, y);
      StoresIs(load, t.kids[i], q, y);
      NotElsewhere(load, size, t, path, k, i, y);
    }
    RemovedAll(load, t, u, k, x);
  }
}
