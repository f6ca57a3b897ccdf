/**
 An inner node's separators in place: the prefix array and the feature matrix refine an ascending sequence of
 keys through search, insertion, removal, split and merge.
 */
module FeatureNodes {
  import opened Ordered
  import opened KeyOrder
  import opened Features

  class FeatureNode {
    const width: nat
    const size: nat
    const prefix: array<int>
    const features: array2<int>
    var knum: nat
    var plen: nat
    ghost var keys: seq<Key>

    ghost predicate Shaped() {
      && width > 0 && size > 0 && prefix.Length == width && features.Length0 == width && features.Length1 == size
    }

    /** From row 0 on, the columns are the keys from byte p on. */
    ghost predicate Stores(ks: seq<Key>, p: nat)
      reads features
    {
      && Shaped() && |ks| <= size && p <= width && (forall i :: 0 <= i < |ks| ==> |ks[i]| == width)
      && forall r, i :: 0 <= r < width - p && 0 <= i < |ks| ==> features[r, i] == ks[i][p + r]
    }

    /** All keys begin with the first p bytes of the prefix. */
    ghost predicate Prefixed(ks: seq<Key>, p: nat)
      reads prefix
    {
      Shaped() && p <= width && forall i :: 0 <= i < |ks| ==> |ks[i]| == width && ks[i][..p] == prefix[..p]
    }

    ghost predicate Valid()
      reads this, prefix, features
    {
      && knum == |keys| && Stores(keys, plen) && Prefixed(keys, plen) && Ascending(keys, width) && (knum == 0 ==> plen == 0)
    }

    constructor (width: nat, size: nat)
      requires width > 0 && size > 0
      ensures Valid() && keys == [] && this.width == width && this.size == size && fresh(prefix) && fresh(features)
    {
      this.width, this.size := width, size;
      prefix := new int[width];
      features := new int[width, size];
      knum, plen, keys := 0, 0, [];
    }

    /** The columns in use. */
    function Bitmap(): (m: Mask)
      reads this
      ensures |m| == size && forall i :: 0 <= i < size ==> m[i] == (i < knum)
    {
      var n := knum;
      seq(size, i => i < n)
    }

    /** The columns whose byte in row r equals b, and those whose byte is less. */
    function RowEqual(r: nat, b: int): (m: Mask)
      requires Shaped() && r < width
      reads features
      ensures |m| == size && forall i :: 0 <= i < size ==> m[i] == (features[r, i] == b)
    {
      seq(size, i requires 0 <= i < size && Shaped() && r < width reads features => features[r, i] == b)
    }

    function RowLess(r: nat, b: int): (m: Mask)
      requires Shaped() && r < width
      reads features
      ensures |m| == size && forall i :: 0 <= i < size ==> m[i] == (features[r, i] < b)
    {
      seq(size, i requires 0 <= i < size && Shaped() && r < width reads features => features[r, i] < b)
    }

    /** How far a key agrees with the prefix. */
    method PrefixLength(key: Key) returns (pid: nat)
      requires Shaped() && |key| == width && plen <= width
      ensures pid <= plen && key[..pid] == prefix[..pid] && (pid < plen ==> key[pid] != prefix[pid])
    {
      pid := 0;
      while pid < plen && key[pid] == prefix[pid]
        invariant pid <= plen && key[..pid] == prefix[..pid]
      {
        pid := pid + 1;
      }
    }

    /** The search of an inner node: how many separators are below the key. */
    method Search(key: Key) returns (idx: nat)
      requires Valid() && |key| == width
      ensures idx == Count(keys, key)
    {
      hide Agree, Ascending, Count;
      var pid := PrefixLength(key);
      if pid < plen {
        Outside(key, pid);
        return if key[pid] < prefix[pid] then 0 else knum;
      }
      var rid, eq := 0, Bitmap();
      AgreeAll(key, eq);
      while rid + plen < width
        invariant rid + plen <= width && |eq| == size && Agree(keys, key, plen + rid, eq)
        invariant (knum > 0 ==> !None(eq)) && (knum == 0 ==> rid == 0 && None(eq))
      {
        var mask := And(RowEqual(rid, key[rid + plen]), eq);
        if None(mask) {
          break;
        }
        AgreeNext(key, rid, eq, mask);
        eq, rid := mask, rid + 1;
      }
      if rid + plen < width {
        var mask := And(RowLess(rid, key[rid + plen]), eq);
        Narrowed(key, rid, eq, mask);
        if None(mask) {
          idx := if None(eq) then 0 else Lowest(eq);
        } else {
          idx := Highest(mask);
        }
      } else {
        idx := Lowest(eq);
        FoundEqual(keys, width, key, eq);
      }
    }

    lemma Outside(key: Key, d: nat)
      requires Valid() && |key| == width && d < plen && key[..d] == prefix[..d] && key[d] != prefix[d]
      ensures Count(keys, key) == if key[d] < prefix[d] then 0 else knum
    {
      forall i | 0 <= i < |keys| ensures keys[i][..d] == key[..d] && keys[i][d] == prefix[d] {
        assert keys[i][..plen][..d] == prefix[..plen][..d] && keys[i][..plen][d] == prefix[..plen][d];
        assert keys[i][..plen][..d] == keys[i][..d] && prefix[..plen][..d] == prefix[..d];
      }
      FoundOutside(keys, width, key, d);
    }

    lemma AgreeAll(key: Key, eq: Mask)
      requires Valid() && |key| == width && key[..plen] == prefix[..plen]
      requires |eq| == size && forall i :: 0 <= i < size ==> (eq[i] <==> i < knum)
      ensures Agree(keys, key, plen, eq) && (knum > 0 ==> !None(eq)) && (knum == 0 ==> None(eq))
    {
      assert knum > 0 ==> eq[0];
    }

    lemma AgreeNext(key: Key, rid: nat, eq: Mask, mask: Mask)
      requires Valid() && |key| == width && rid + plen < width && Agree(keys, key, plen + rid, eq) && |eq| == |mask| == size
      requires forall i :: 0 <= i < size ==> mask[i] == (features[rid, i] == key[rid + plen] && eq[i])
      ensures Agree(keys, key, plen + rid + 1, mask)
    {
      forall i | 0 <= i < |mask| ensures mask[i] <==> i < |keys| && keys[i][..plen + rid + 1] == key[..plen + rid + 1] {
        if i < |keys| {
          Extend(keys[i], key, plen + rid);
        }
      }
    }

    /** No column agrees with the next byte. */
    lemma Narrowed(key: Key, rid: nat, eq: Mask, less: Mask)
      requires Valid() && |key| == width && rid + plen < width && Agree(keys, key, plen + rid, eq) && |eq| == |less| == size
      requires knum > 0 ==> !None(eq)
      requires forall i :: 0 <= i < size ==> !(features[rid, i] == key[rid + plen] && eq[i])
      requires forall i :: 0 <= i < size ==> less[i] == (features[rid, i] < key[rid + plen] && eq[i])
      ensures Count(keys, key) == if !None(less) then Highest(less) else if None(eq) then 0 else Lowest(eq)
    {
      var p := plen + rid;
      forall i | 0 <= i < |keys| && eq[i] ensures keys[i][p] == features[rid, i] && keys[i][p] != key[p] {
      }
      if !None(less) {
        FoundAfter(keys, width, key, p, eq, less);
      } else if !None(eq) {
        FoundBefore(keys, width, key, p, eq);
      }
    }

    // ---------- insertion ----------

    /** Open a column in every row and write the key's bytes into it: the memmoves of key_insert. */
    method OpenColumn(mid: Key, index: nat)
      requires Stores(keys, plen) && |keys| == knum < size && index <= knum && |mid| == width
      modifies features
      ensures Stores(InsertAt(keys, index, mid), plen)
    {
      ghost var ks := InsertAt(keys, index, mid);
      var rid := 0;
      while rid < width - plen
        invariant 0 <= rid <= width - plen
        invariant forall r, i :: 0 <= r < rid && 0 <= i < |ks| ==> features[r, i] == ks[i][plen + r]
        invariant forall r, i :: rid <= r < width - plen && 0 <= i < |keys| ==> features[r, i] == keys[i][plen + r]
      {
        forall c | index < c <= knum {
          features[rid, c] := features[rid, c - 1];
        }
        features[rid, index] := mid[rid + plen];
        rid := rid + 1;
      }
    }

    /** Cut the prefix down to its first pid bytes: the bytes cut off go back into the matrix. */
    method ReducePrefix(ghost ks: seq<Key>, mid: Key, index: nat, pid: nat)
      requires Stores(ks, plen) && |ks| == knum + 1 && index <= knum && ks[index] == mid && pid < plen
      requires forall i :: 0 <= i < |ks| && i != index ==> ks[i][..plen] == prefix[..plen]
      modifies features
      ensures Stores(ks, pid)
    {
      var d := plen - pid;
      forall r, c | d <= r < width - pid && 0 <= c < size {
        features[r, c] := features[r - d, c];
      }
      assert forall r, i :: d <= r < width - pid && 0 <= i < |ks| ==> features[r, i] == ks[i][pid + r];
      forall i, b | 0 <= i < |ks| && i != index && 0 <= b < plen ensures ks[i][b] == prefix[b] {
        assert ks[i][..plen][b] == prefix[..plen][b];
      }
      var rid := 0;
      while rid < d
        invariant 0 <= rid <= d
        invariant forall r, i :: 0 <= r < rid && 0 <= i < |ks| ==> features[r, i] == ks[i][pid + r]
        invariant forall r, i :: d <= r < width - pid && 0 <= i < |ks| ==> features[r, i] == ks[i][pid + r]
      {
        forall c | 0 <= c < knum + 1 {
          features[rid, c] := prefix[pid + rid];
        }
        features[rid, index] := mid[rid + pid];
        rid := rid + 1;
      }
    }

    /** key_insert: put a separator in its place. */
    method Insert(mid: Key, index: nat)
      requires Valid() && knum < size && |mid| == width && index == Count(keys, mid) && mid !in keys
      modifies this, prefix, features
      ensures Valid() && keys == InsertAt(old(keys), index, mid)
    {
      ghost var ks := InsertAt(keys, index, mid);
      InsertAscending(keys, width, mid);
      if knum == 0 {
        forall b | 0 <= b < width {
          prefix[b] := mid[b];
        }
        plen := width;
        assert mid[..width] == prefix[..width];
      } else {
        OpenColumn(mid, index);
        if index == 0 || index == knum {
          var pid := PrefixLength(mid);
          if pid < plen {
            ReducePrefix(ks, mid, index, pid);
            ShorterPrefix(ks, mid, index, pid);
            plen := pid;
          }
        } else {
          SharedInside(keys, width, mid, plen);
        }
      }
      knum, keys := knum + 1, ks;
    }

    lemma ShorterPrefix(ks: seq<Key>, mid: Key, index: nat, pid: nat)
      requires Prefixed(keys, plen) && pid <= plen && index <= |keys| && |mid| == width && ks == InsertAt(keys, index, mid)
      requires mid[..pid] == prefix[..pid]
      ensures Prefixed(ks, pid)
    {
      forall i | 0 <= i < |ks| ensures |ks[i]| == width && ks[i][..pid] == prefix[..pid] {
        if i != index {
          var k := keys[if i < index then i else i - 1];
          assert k[..plen][..pid] == k[..pid] && prefix[..plen][..pid] == prefix[..pid];
        }
      }
    }

    // ---------- removal ----------

    /** Copy the bytes that the first and the last column share to the end of the prefix. */
    method SharePrefix(ghost ks: seq<Key>) returns (pid: nat)
      requires Stores(ks, plen) && Prefixed(ks, plen) && |ks| == knum > 0
      modifies prefix
      ensures plen + pid <= width && ks[0][..plen + pid] == prefix[..plen + pid] == ks[knum - 1][..plen + pid]
    {
      pid := 0;
      ghost var first, last := ks[0], ks[knum - 1];
      while pid < width - plen && features[pid, 0] == features[pid, knum - 1]
        invariant plen + pid <= width && first[..plen + pid] == prefix[..plen + pid] == last[..plen + pid]
      {
        ghost var p, before := plen + pid, prefix[..plen + pid];
        prefix[plen + pid] := features[pid, 0];
        assert prefix[..p] == before;
        assert prefix[..p + 1] == before + [prefix[p]] && first[..p + 1] == first[..p] + [first[p]] && last[..p + 1] == last[..p] + [last[p]];
        pid := pid + 1;
      }
    }

    /** bound_extension: move what the first and the last column share into the prefix. */
    method ExtendPrefix(ghost ks: seq<Key>)
      requires Stores(ks, plen) && Prefixed(ks, plen) && |ks| == knum > 0 && Ascending(ks, width)
      modifies this`plen, prefix, features
      ensures plen <= width && Stores(ks, plen) && Prefixed(ks, plen)
    {
      var pid := SharePrefix(ks);
      forall i | 0 <= i < |ks| ensures ks[i][..plen + pid] == prefix[..plen + pid] {
        SharedByEnds(ks, width, plen + pid, i);
      }
      ShiftUp(ks, pid);
      plen := plen + pid;
    }

    /** Move the rows up by pid. */
    method ShiftUp(ghost ks: seq<Key>, pid: nat)
      requires Stores(ks, plen) && plen + pid <= width
      modifies features
      ensures Stores(ks, plen + pid)
    {
      forall r, c | 0 <= r < width - plen - pid && 0 <= c < size {
        features[r, c] := features[r + pid, c];
      }
    }

    /** Close a column in every row: the memmoves of key_remove. */
    method CloseColumn(index: nat)
      requires Stores(keys, plen) && |keys| == knum && index < knum
      modifies features
      ensures Stores(RemoveAt(keys, index), plen)
    {
      ghost var ks := RemoveAt(keys, index);
      var rid := 0;
      while rid < width - plen
        invariant 0 <= rid <= width - plen
        invariant forall r, i :: 0 <= r < rid && 0 <= i < |ks| ==> features[r, i] == ks[i][plen + r]
        invariant forall r, i :: rid <= r < width - plen && 0 <= i < |keys| ==> features[r, i] == keys[i][plen + r]
      {
        forall c | index <= c < knum - 1 {
          features[rid, c] := features[rid, c + 1];
        }
        rid := rid + 1;
      }
    }

    /** key_remove: take a separator out that is not the last one. */
    method Remove(index: nat)
      requires Valid() && index + 1 < knum
      modifies this, prefix, features
      ensures Valid() && keys == RemoveAt(old(keys), index)
    {
      ghost var ks := RemoveAt(keys, index);
      RemoveAscending(keys, width, index);
      CloseColumn(index);
      knum, keys := knum - 1, ks;
      if index == 0 {
        ExtendPrefix(ks);
      }
    }

    /** The part of bound_remove that drops the last separator. */
    method DropLast()
      requires Valid() && knum > 0
      modifies this, prefix, features
      ensures Valid() && keys == old(keys)[..|old(keys)| - 1]
    {
      ghost var ks := keys[..knum - 1];
      SliceAscending(keys, width, 0, knum - 1);
      knum, keys := knum - 1, ks;
      if knum == 0 {
        plen := 0;
      } else {
        ExtendPrefix(ks);
      }
    }

    // ---------- whole columns ----------

    /** memory_expand: write the prefix back into the matrix, whose rows are then all bytes of the keys. */
    method Expand()
      requires Valid()
      modifies this`plen, features
      ensures Valid() && plen == 0
    {
      forall r, c | plen <= r < width && 0 <= c < size {
        features[r, c] := features[r - plen, c];
      }
      forall i, b | 0 <= i < |keys| && 0 <= b < plen ensures keys[i][b] == prefix[b] {
        assert keys[i][..plen][b] == prefix[..plen][b];
      }
      forall r, c | 0 <= r < plen && 0 <= c < size {
        features[r, c] := prefix[r];
      }
      plen := 0;
    }

    /** memory_shrink: find the prefix anew from the first and the last column. */
    method Shrink()
      requires Stores(keys, 0) && Ascending(keys, width) && knum == |keys|
      modifies this`plen, prefix, features
      ensures Valid()
    {
      plen := 0;
      if knum > 0 {
        ExtendPrefix(keys);
      }
    }

    /** The bytes of a separator, from the prefix and its column. */
    method KeyAt(i: nat) returns (k: Key)
      requires Valid() && i < knum
      ensures k == keys[i]
    {
      k := [];
      while |k| < width
        invariant |k| <= width && k == keys[i][..|k|]
      {
        var rid := |k|;
        assert rid < plen ==> keys[i][..plen][rid] == prefix[..plen][rid];
        assert keys[i][..rid + 1] == keys[i][..rid] + [keys[i][rid]];
        k := k + [if rid < plen then prefix[rid] else features[rid - plen, i]];
      }
    }

    /** Write the bytes of a key into a column. */
    method WriteColumn(ghost ks: seq<Key>, mid: Key, index: nat)
      requires Stores(ks, 0) && index <= |ks| && index < size && |mid| == width
      modifies features
      ensures Stores(ks[..index] + [mid] + (if index < |ks| then ks[index + 1..] else []), 0)
    {
      forall r | 0 <= r < width {
        features[r, index] := mid[r];
      }
    }

    /** anchor_update: put another key in the place of a separator, between the same neighbours. */
    method Update(mid: Key, index: nat)
      requires Valid() && index < knum && |mid| == width && Ascending(keys[index := mid], width)
      modifies this, prefix, features
      ensures Valid() && keys == old(keys)[index := mid]
    {
      Expand();
      WriteColumn(keys, mid, index);
      assert keys[..index] + [mid] + keys[index + 1..] == keys[index := mid];
      keys := keys[index := mid];
      Shrink();
    }

    predicate Beside(that: FeatureNode) {
      that != this && that.prefix != prefix && that.features != features && that.width == width && that.size == size
    }

    /** Copy n columns of another node, from a on, to the columns from at on. */
    method CopyColumns(that: FeatureNode, ghost ks: seq<Key>, a: nat, n: nat, at: nat)
      requires Beside(that) && Stores(ks, 0) && that.Stores(that.keys, 0) && a + n <= |that.keys| && at <= |ks| && at + n <= size
      modifies features
      ensures Stores(ks[..at] + that.keys[a..a + n], 0)
    {
      forall r, c | 0 <= r < width && at <= c < at + n {
        features[r, c] := that.features[r, a + c - at];
      }
      ghost var qs := ks[..at] + that.keys[a..a + n];
      forall i | 0 <= i < |qs| ensures qs[i] == if i < at then ks[i] else that.keys[a + i - at] {
      }
    }

    /** The part of merge and of a border merge that takes over the right node's separators after the first at. */
    method Absorb(right: FeatureNode, at: nat)
      requires Valid() && right.Valid() && Beside(right) && at <= knum && at + right.knum <= size
      requires Ascending(keys[..at] + right.keys, width)
      modifies this, prefix, features, right, right.features
      ensures Valid() && keys == old(keys)[..at] + old(right.keys) && right.knum == 0
    {
      Expand();
      right.Expand();
      CopyColumns(right, keys, 0, right.knum, at);
      assert right.keys[0..right.knum] == right.keys;
      knum, keys := at + right.knum, keys[..at] + right.keys;
      right.knum := 0;
      Shrink();
    }

    /** How many separators a full node keeps when it splits. */
    function Cut(index: nat): nat {
      if index == size then size else if index < size / 2 then size / 2 + 1 else size / 2
    }

    /** split: a full node hands its upper separators to a new right node and takes one more in. */
    method Split(right: FeatureNode, mid: Key, index: nat) returns (up: Key)
      requires Valid() && right.Valid() && right.keys == [] && Beside(right)
      requires knum == size > 1 && |mid| == width && index == Count(keys, mid) && mid !in keys
      modifies this, prefix, features, right, right.prefix, right.features
      ensures Valid() && right.Valid() && keys + right.keys == InsertAt(old(keys), index, mid)
      ensures |keys| == Cut(index) && up == keys[|keys| - 1]
    {
      ghost var all := InsertAt(keys, index, mid);
      InsertAscending(keys, width, mid);
      SliceAscending(all, width, 0, Cut(index));
      SliceAscending(all, width, Cut(index), |all|);
      var h := size / 2;
      if index == size {
        right.Insert(mid, 0);
        assert keys + right.keys == all;
      } else if index < h {
        SplitLow(right, mid, index);
      } else {
        SplitHigh(right, mid, index);
      }
      up := KeyAt(knum - 1);
    }

    /** The new separator goes into the lower half. */
    method SplitLow(right: FeatureNode, mid: Key, index: nat)
      requires Valid() && right.Valid() && right.keys == [] && Beside(right) && knum == size > 1 && |mid| == width && index < size / 2
      requires Ascending(InsertAt(keys, index, mid)[..size / 2 + 1], width) && Ascending(InsertAt(keys, index, mid)[size / 2 + 1..], width)
      modifies this, prefix, features, right, right.prefix, right.features
      ensures Valid() && right.Valid() && keys + right.keys == InsertAt(old(keys), index, mid) && |keys| == size / 2 + 1
    {
      hide Ascending;
      var h := size / 2;
      ghost var all := InsertAt(keys, index, mid);
      assert all[h + 1..] == keys[h..] && all[..h + 1] == InsertAt(keys[..h], index, mid);
      Expand();
      CopyUpper(right);
      right.Shrink();
      InsertLower(mid, index);
      Shrink();
    }

    /** Copy the upper half as it is. */
    method CopyUpper(right: FeatureNode)
      requires Valid() && plen == 0 && right.Stores([], 0) && Beside(right) && knum == size > 1
      modifies right, right.features
      ensures right.keys == keys[size / 2..] && right.knum == |right.keys| && right.Stores(right.keys, 0)
    {
      hide Ascending;
      var h := size / 2;
      right.CopyColumns(this, [], h, size - h, 0);
      assert [] + keys[h..size] == keys[h..];
      right.knum, right.keys := size - h, keys[h..];
    }

    /** Put the new separator into the lower half and forget the upper one. */
    method InsertLower(mid: Key, index: nat)
      requires Stores(keys, 0) && plen == 0 && knum == size == |keys| && size > 1 && |mid| == width && index < size / 2
      modifies this`knum, this`keys, features
      ensures keys == InsertAt(old(keys)[..size / 2], index, mid) && knum == |keys| && Stores(keys, 0)
    {
      var h := size / 2;
      knum, keys := h, keys[..h];
      OpenColumn(mid, index);
      knum, keys := h + 1, InsertAt(keys, index, mid);
    }

    /** The new separator goes into the upper half. */
    method SplitHigh(right: FeatureNode, mid: Key, index: nat)
      requires Valid() && right.Valid() && right.keys == [] && Beside(right) && knum == size > 1 && |mid| == width && size / 2 <= index < size
      requires Ascending(InsertAt(keys, index, mid)[..size / 2], width) && Ascending(InsertAt(keys, index, mid)[size / 2..], width)
      modifies this, prefix, features, right, right.prefix, right.features
      ensures Valid() && right.Valid() && keys + right.keys == InsertAt(old(keys), index, mid) && |keys| == size / 2
    {
      hide Ascending;
      var h := size / 2;
      ghost var all := InsertAt(keys, index, mid);
      Expand();
      FillUpper(right, mid, index);
      right.Shrink();
      assert all[..h] == keys[..h] && keys[..h] + all[h..] == all;
      knum, keys := h, keys[..h];
      Shrink();
    }

    /** Copy the upper half with the new separator in its place. */
    method FillUpper(right: FeatureNode, mid: Key, index: nat)
      requires Valid() && plen == 0 && right.Stores([], 0) && Beside(right) && knum == size > 1 && |mid| == width && size / 2 <= index < size
      modifies right, right.features
      ensures right.keys == InsertAt(keys, index, mid)[size / 2..] && right.knum == |right.keys| && right.Stores(right.keys, 0)
    {
      hide Ascending;
      var h := size / 2;
      ghost var q := keys[h..index];
      right.CopyColumns(this, [], h, index - h, 0);
      assert [] + keys[h..index] == q;
      right.WriteColumn(q, mid, index - h);
      assert q[..index - h] + [mid] + [] == q + [mid];
      right.CopyColumns(this, q + [mid], index, size - index, index - h + 1);
      assert (q + [mid])[..index - h + 1] + keys[index..size] == InsertAt(keys, index, mid)[h..];
      right.knum, right.keys := size - h + 1, InsertAt(keys, index, mid)[h..];
    }
  }
}
