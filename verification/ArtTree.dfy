/**
 The adaptive radix tree as an object: its operations refine a map from keys of one length to record identifiers.
 */
module ArtTree {
  import opened Options
  import opened Art
  import opened ArtInsert
  import opened ArtRemove

  class Index {
    const load: Tid -> Key
    const size: nat
    var root: Tree
    ghost var content: map<Key, Tid>

    ghost predicate Valid()
      reads this
    {
      GoodRoot(load, size, root) && Contents()
    }

    ghost predicate Contents()
      reads this
    {
      forall k, x :: Stores(load, root, k, x) <==> k in content && content[k] == x
    }

    constructor (load: Tid -> Key, size: nat)
      requires size > 0
      ensures Valid() && content == map[] && this.load == load && this.size == size
    {
      this.load, this.size := load, size;
      root, content := Node(N256, 0, [], [], []), map[];
    }

    /** The key's record, or none: prefixes beyond their stored bytes are skipped and the key compared at the end. */
    method Lookup(k: Key) returns (r: Option<Tid>)
      requires Valid() && |k| == size
      ensures r == if k in content then Some(content[k]) else None
    {
      hide Good, Sound, Stores, LookupFrom, Prefix, IndexOf;
      Parts(load, size, root, []);
      var node, d, blind := root, 0, false;
      forall x ensures LookupFrom(load, root, k, 0, false) == Some(x) <==> k in content && content[k] == x {
        LookupRight(load, size, root, [], k, false, x);
      }
      while true
        invariant node.Node? && LookupFrom(load, node, k, d, blind) == LookupFrom(load, root, k, 0, false)
        decreases node
      {
        var e := d + node.plen;
        if !PrefixMatches(node, k, d) || |k| <= e {
          LookupStops(load, node, k, d, blind);
          return None;
        }
        var i := IndexOf(node.bytes, k[e]);
        if i.None? || i.value >= |node.kids| {
          LookupStops(load, node, k, d, blind);
          return None;
        }
        LookupStep(load, node, k, d, blind, i.value);
        blind := blind || node.plen > MAX_STORED;
        match node.kids[i.value]
        case Leaf(x) =>
          if (e < |k| - 1 || blind) && load(x) != k {
            return None;
          }
          return Some(x);
        case Node(_, _, _, _, _) =>
          node, d := node.kids[i.value], e + 1;
      }
    }

    /** Set the record of a key, which the record has. */
    method Insert(k: Key, x: Tid)
      requires Valid() && |k| == size && ByteKey(k) && load(x) == k
      modifies this
      ensures Valid() && content == old(content)[k := x]
    {
      hide Good, Sound, Stores, InsertFrom;
      InsertRight(load, size, root, [], k, x);
      ghost var t' := InsertFrom(load, root, k, x, 0);
      forall q, y ensures Stores(load, t', q, y) <==> (q == k && y == x) || (q != k && Stores(load, root, q, y)) {
        InsertedOne(load, root, t', k, x, q, y);
      }
      root, content := InsertFrom(load, root, k, x, 0), content[k := x];
    }

    /** Take the record of a key out, if it is the one asked for. */
    method Remove(k: Key, x: Tid)
      requires Valid() && |k| == size && load(x) == k
      modifies this
      ensures Valid() && content == if k in old(content) && old(content)[k] == x then old(content) - {k} else old(content)
    {
      hide Good, Sound, Stores, RemoveFrom;
      RemoveRight(load, size, root, [], k, x, true);
      ghost var t' := RemoveFrom(load, root, k, x, 0, true);
      forall q, y ensures Stores(load, t', q, y) <==> Stores(load, root, q, y) && !(q == k && y == x) {
        RemovedOne(load, root, t', k, x, q, y);
      }
      root := RemoveFrom(load, root, k, x, 0, true);
      content := if k in content && content[k] == x then content - {k} else content;
    }
  }
}
