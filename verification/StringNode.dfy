/**
 An inner node with string separators in place: anchors of any length, of which all begin with the prefix, and a
 matrix with the next few bytes of each, padded with zeros. A search narrows a bit mask over these bytes and
 then goes on with a binary search on the rest of the anchors. Bytes are compared as unsigned numbers, which is
 what adding 128 to a signed byte achieves.
 */
module StringNodes {
  import opened Ordered
  import opened KeyOrder
  import opened Features
  import opened Strings

  class StringNode {
    const rows: nat
    const size: nat
    const anchors: array<Key>
    const features: array2<int>
    var knum: nat
    var plen: nat

    ghost predicate Shaped() {
      rows > 0 && size > 0 && anchors.Length == size && features.Length0 == rows && features.Length1 == size
    }

    /** The columns are the bytes of the strings after the first p. */
    ghost predicate Stores(ks: seq<Key>, p: nat)
      reads features
    {
      Shaped() && |ks| <= size && forall r, i :: 0 <= r < rows && 0 <= i < |ks| ==> features[r, i] == Byte(ks[i], p + r)
    }

    ghost function Keys(): seq<Key>
      requires Shaped() && knum <= size
      reads this, anchors
    {
      anchors[..knum]
    }

    ghost predicate Valid()
      reads this, anchors, features
    {
      && Shaped() && knum <= size && Stores(Keys(), plen) && Shared(Keys(), plen) && InOrder(Keys()) && (knum == 0 ==> plen == 0)
    }

    constructor (rows: nat, size: nat)
      requires rows > 0 && size > 0
      ensures Valid() && Keys() == [] && this.rows == rows && this.size == size && fresh(anchors) && fresh(features)
    {
      this.rows, this.size := rows, size;
      anchors := new Key[size](_ => []);
      features := new int[rows, size];
      knum, plen := 0, 0;
    }

    // ---------- search ----------

    /** The columns in use. */
    function Bitmap(): (m: Mask)
      reads this
      ensures |m| == size && forall i :: 0 <= i < size ==> m[i] == (i < knum)
    {
      var n := knum;
      seq(size, i => i < n)
    }

    function RowEqual(r: nat, b: int): (m: Mask)
      requires Shaped() && r < rows
      reads features
      ensures |m| == size && forall i :: 0 <= i < size ==> m[i] == (features[r, i] == b)
    {
      seq(size, i requires 0 <= i < size && Shaped() && r < rows reads features => features[r, i] == b)
    }

    function RowLess(r: nat, b: int): (m: Mask)
      requires Shaped() && r < rows
      reads features
      ensures |m| == size && forall i :: 0 <= i < size ==> m[i] == (features[r, i] < b)
    {
      seq(size, i requires 0 <= i < size && Shaped() && r < rows reads features => features[r, i] < b)
    }

    /** The comparison with the prefix: less, equal or greater; a key shorter than the prefix is not equal. */
    method PrefixCompare(key: Key) returns (c: int)
      requires Valid() && NulFree(key)
      ensures c < 0 ==> StringRank(Keys(), key) == 0
      ensures c > 0 ==> StringRank(Keys(), key) == knum
      ensures c == 0 ==> plen <= |key| && (knum > 0 ==> key[..plen] == Keys()[0][..plen])
    {
      if knum == 0 {
        return 0;
      }
      var first := anchors[0];
      assert Keys()[0] == first;
      var i := 0;
      while i < plen && i < |key| && key[i] == first[i]
        invariant i <= plen && i <= |key| && key[..i] == first[..i]
      {
        i := i + 1;
      }
      if i == plen {
        return 0;
      }
      OutsideRank(Keys(), key, plen, i);
      if i == |key| {
        return -1;
      }
      return key[i] - first[i];
    }

    /** How many separators come before the key. */
    method Search(key: Key) returns (idx: nat)
      requires Valid() && NulFree(key) && key != []
      ensures idx == StringRank(Keys(), key)
    {
      hide InOrder, Agrees, StringRank;
      var c := PrefixCompare(key);
      if c != 0 {
        return if c < 0 then 0 else knum;
      }
      var cmps := if rows < |key| - plen then rows else |key| - plen;
      var rid, eq := Narrow(key, cmps);
      if rid < cmps {
        var mask := And(RowLess(rid, key[plen + rid]), eq);
        AgreesNot(Keys(), key, plen + rid, eq, mask);
        if None(mask) {
          idx := if None(eq) then 0 else Lowest(eq);
        } else {
          idx := Highest(mask);
        }
      } else {
        AgreesOuter(Keys(), key, plen + cmps, eq);
        idx := SuffixSearch(key, plen + cmps, Lowest(eq), Highest(eq));
      }
    }

    /** The columns that agree with the key in the first rid bytes after the prefix; after fewer than cmps none agrees in the next. */
    method Narrow(key: Key, cmps: nat) returns (rid: nat, eq: Mask)
      requires Valid() && NulFree(key) && key != [] && plen + cmps <= |key| && cmps <= rows
      requires knum > 0 ==> key[..plen] == Keys()[0][..plen]
      requires cmps > 0 || knum > 0
      ensures rid <= cmps && |eq| == size && Agrees(Keys(), key, plen + rid, eq) && (knum > 0 ==> !None(eq))
      ensures rid == cmps ==> !None(eq)
      ensures rid < cmps ==> forall i :: 0 <= i < size ==> !(features[rid, i] == key[plen + rid] && eq[i])
    {
      hide InOrder, Agrees;
      rid, eq := 0, Bitmap();
      AgreesAll(Keys(), key, plen, eq);
      while rid < cmps
        invariant rid <= cmps && |eq| == size && Agrees(Keys(), key, plen + rid, eq)
        invariant (knum > 0 ==> !None(eq)) && (knum == 0 ==> rid == 0 && None(eq))
      {
        var mask := And(RowEqual(rid, key[plen + rid]), eq);
        if None(mask) {
          forall i | 0 <= i < size ensures !(features[rid, i] == key[plen + rid] && eq[i]) {
            assert !mask[i];
          }
          return;
        }
        AgreesNext(Keys(), key, plen + rid, eq, mask);
        eq, rid := mask, rid + 1;
      }
    }

    /** Binary search among the anchors that agree with the key in all bytes before from. */
    method SuffixSearch(key: Key, from: nat, lo: nat, hi: nat) returns (idx: nat)
      requires Valid() && NulFree(key) && from <= |key| && lo <= hi <= knum
      requires forall i :: 0 <= i < lo ==> Before(Keys()[i], key)
      requires forall i :: hi <= i < knum ==> Before(key, Keys()[i])
      requires forall i :: lo <= i < hi ==> from <= |Keys()[i]| && Keys()[i][..from] == key[..from]
      ensures idx == StringRank(Keys(), key)
    {
      var lid, hid := lo, hi;
      while lid < hid
        invariant lo <= lid <= hid <= hi
        invariant forall i :: 0 <= i < lid ==> Before(Keys()[i], key)
        invariant forall i :: hid <= i < knum ==> Before(key, Keys()[i])
      {
        var mid := (lid + hid) / 2;
        assert Keys()[mid] == anchors[mid];
        var c := Compare(key[from..], anchors[mid][from..]);
        SuffixOrder(key, anchors[mid], from);
        if c < 0 {
          BeforeAll(Keys(), key, mid);
          hid := mid;
        } else if c == 0 {
          AtAnchor(Keys(), mid);
          return mid;
        } else {
          BeforeTotal(key, anchors[mid]);
          AfterAll(Keys(), key, mid);
          lid := mid + 1;
        }
      }
      RankIsCut(Keys(), key, lid);
      return hid;
    }

    // ---------- edits ----------

    /** The prefix is what the first and the last anchor share; the matrix is filled again. */
    method Rebuild()
      requires Shaped() && 0 < knum <= size && InOrder(anchors[..knum])
      modifies this`plen, features
      ensures Valid() && plen == Common(anchors[0], anchors[knum - 1])
    {
      hide InOrder, Stores;
      plen := Common(anchors[0], anchors[knum - 1]);
      SharedEnds(anchors[..knum], plen);
      Fill();
    }

    method Fill()
      requires Shaped() && knum <= size
      modifies features
      ensures Stores(anchors[..knum], plen)
    {
      var kid := 0;
      while kid < knum
        invariant kid <= knum
        invariant forall r, i :: 0 <= r < rows && 0 <= i < kid ==> features[r, i] == Byte(anchors[i], plen + r)
      {
        forall r | 0 <= r < rows {
          features[r, kid] := Byte(anchors[kid], plen + r);
        }
        kid := kid + 1;
      }
    }

    /** Put a string in at its place. In between two others it begins as they do, so only one column is added. */
    method Insert(key: Key) returns (index: nat)
      requires Valid() && knum < size && NulFree(key) && key != [] && key !in Keys()
      modifies this, anchors, features
      ensures Valid() && index == StringRank(old(Keys()), key) && Keys() == InsertAt(old(Keys()), index, key)
    {
      index := Search(key);
      ghost var ks := Keys();
      ghost var more := InsertAt(ks, index, key);
      InsertInOrder(ks, key);
      InsertShared(ks, key, plen);
      OpenAnchor(key, index);
      if index == 0 || index == knum {
        knum := knum + 1;
        Rebuild();
      } else {
        OpenColumn(ks, key, index);
        knum := knum + 1;
      }
    }

    method OpenAnchor(key: Key, index: nat)
      requires Shaped() && index <= knum < size
      modifies anchors
      ensures anchors[..knum + 1] == InsertAt(old(anchors[..knum]), index, key)
    {
      ghost var ks := anchors[..knum];
      forall i | index < i <= knum {
        anchors[i] := anchors[i - 1];
      }
      anchors[index] := key;
      forall i | 0 <= i < knum + 1 ensures anchors[..knum + 1][i] == InsertAt(ks, index, key)[i] {
      }
    }

    method OpenColumn(ghost ks: seq<Key>, key: Key, index: nat)
      requires Stores(ks, plen) && |ks| == knum < size && index <= knum
      modifies features
      ensures Stores(InsertAt(ks, index, key), plen)
    {
      ghost var more := InsertAt(ks, index, key);
      var rid := 0;
      while rid < rows
        invariant 0 <= rid <= rows
        invariant forall r, i :: 0 <= r < rid && 0 <= i < |more| ==> features[r, i] == Byte(more[i], plen + r)
        invariant forall r, i :: rid <= r < rows && 0 <= i < |ks| ==> features[r, i] == Byte(ks[i], plen + r)
      {
        OpenRow(ks, key, index, rid);
        rid := rid + 1;
      }
    }

    method ShiftRow(rid: nat, index: nat)
      requires Shaped() && index <= knum < size && rid < rows
      modifies features
      ensures forall c :: index < c <= knum ==> features[rid, c] == old(features[rid, c - 1])
      ensures forall c :: 0 <= c < index ==> features[rid, c] == old(features[rid, c])
      ensures forall r, c :: 0 <= r < rows && 0 <= c < size && r != rid ==> features[r, c] == old(features[r, c])
    {
      forall c | index < c <= knum {
        features[rid, c] := features[rid, c - 1];
      }
    }

    method OpenRow(ghost ks: seq<Key>, key: Key, index: nat, rid: nat)
      requires Shaped() && |ks| == knum < size && index <= knum && rid < rows
      requires forall i :: 0 <= i < |ks| ==> features[rid, i] == Byte(ks[i], plen + rid)
      modifies features
      ensures forall i :: 0 <= i <= |ks| ==> features[rid, i] == Byte(InsertAt(ks, index, key)[i], plen + rid)
      ensures forall r, i :: 0 <= r < rows && 0 <= i < size && r != rid ==> features[r, i] == old(features[r, i])
    {
      hide Byte;
      ShiftRow(rid, index);
      features[rid, index] := Byte(key, plen + rid);
      ghost var more := InsertAt(ks, index, key);
      forall i | 0 <= i <= |ks| ensures features[rid, i] == Byte(more[i], plen + rid) {
        assert i != index ==> more[i] == ks[if i < index then i else i - 1];
      }
    }

    /** Take a string out; only taking the first or the last one can lengthen the prefix. */
    method Remove(index: nat)
      requires Valid() && index < knum
      modifies this, anchors, features
      ensures Valid() && Keys() == RemoveAt(old(Keys()), index)
    {
      ghost var ks := Keys();
      RemoveInOrder(ks, index);
      CloseAnchor(index);
      if knum == 1 {
        knum, plen := 0, 0;
      } else if index == 0 || index == knum - 1 {
        knum := knum - 1;
        Rebuild();
      } else {
        CloseColumn(ks, index);
        RemoveShared(ks, index, plen);
        knum := knum - 1;
      }
    }

    method CloseAnchor(index: nat)
      requires Shaped() && index < knum <= size
      modifies anchors
      ensures anchors[..knum - 1] == RemoveAt(old(anchors[..knum]), index)
    {
      ghost var ks := anchors[..knum];
      forall i | index <= i < knum - 1 {
        anchors[i] := anchors[i + 1];
      }
      forall i | 0 <= i < knum - 1 ensures anchors[..knum - 1][i] == RemoveAt(ks, index)[i] {
      }
    }

    method CloseColumn(ghost ks: seq<Key>, index: nat)
      requires Stores(ks, plen) && |ks| == knum && index < knum
      modifies features
      ensures Stores(RemoveAt(ks, index), plen)
    {
      ghost var less := RemoveAt(ks, index);
      var rid := 0;
      while rid < rows
        invariant 0 <= rid <= rows
        invariant forall r, i :: 0 <= r < rid && 0 <= i < |less| ==> features[r, i] == Byte(less[i], plen + r)
        invariant forall r, i :: rid <= r < rows && 0 <= i < |ks| ==> features[r, i] == Byte(ks[i], plen + r)
      {
        CloseRow(ks, index, rid);
        rid := rid + 1;
      }
    }

    method CloseRow(ghost ks: seq<Key>, index: nat, rid: nat)
      requires Shaped() && |ks| == knum <= size && index < knum && rid < rows
      requires forall i :: 0 <= i < |ks| ==> features[rid, i] == Byte(ks[i], plen + rid)
      modifies features
      ensures forall i :: 0 <= i < |ks| - 1 ==> features[rid, i] == Byte(RemoveAt(ks, index)[i], plen + rid)
      ensures forall r, i :: 0 <= r < rows && 0 <= i < size && r != rid ==> features[r, i] == old(features[r, i])
    {
      hide Byte;
      forall c | index <= c < knum - 1 {
        features[rid, c] := features[rid, c + 1];
      }
      forall i | 0 <= i < |ks| - 1 ensures features[rid, i] == Byte(RemoveAt(ks, index)[i], plen + rid) {
        assert RemoveAt(ks, index)[i] == ks[if i < index then i else i + 1];
      }
    }

    /** Replace a string by another that goes in the same place. */
    method Update(key: Key, index: nat)
      requires Valid() && index < knum && NulFree(key) && InOrder(Keys()[index := key])
      modifies this`plen, anchors, features
      ensures Valid() && Keys() == old(Keys())[index := key]
    {
      hide InOrder, Stores, Shared;
      ghost var ks := Keys();
      anchors[index] := key;
      assert anchors[..knum] == ks[index := key];
      if index == 0 || index == knum - 1 {
        Rebuild();
      } else {
        UpdateShared(ks, key, index, plen);
        SetColumn(ks, key, index);
      }
    }

    method SetColumn(ghost ks: seq<Key>, key: Key, index: nat)
      requires Stores(ks, plen) && index < |ks|
      modifies features
      ensures Stores(ks[index := key], plen)
    {
      hide Byte;
      forall r | 0 <= r < rows {
        features[r, index] := Byte(key, plen + r);
      }
    }

    // ---------- several strings at once ----------

    ghost predicate Beside(o: StringNode) {
      o != this && anchors != o.anchors && features != o.features && size == o.size && rows == o.rows
    }

    method CopyAnchors(o: StringNode, from: nat, n: nat, at: nat)
      requires Shaped() && o.Shaped() && Beside(o) && from + n <= o.size && at + n <= size
      modifies anchors
      ensures anchors[..at + n] == old(anchors[..at]) + o.anchors[from..from + n]
    {
      ghost var ks := anchors[..at] + o.anchors[from..from + n];
      forall i | 0 <= i < n {
        anchors[at + i] := o.anchors[from + i];
      }
      forall i | 0 <= i < at + n ensures anchors[..at + n][i] == ks[i] {
      }
    }

    method CopyThen(o: StringNode, from: nat, n: nat, key: Key)
      requires Shaped() && o.Shaped() && Beside(o) && from + n <= o.size && n < size
      modifies anchors
      ensures anchors[..n + 1] == o.anchors[from..from + n] + [key]
    {
      CopyAnchors(o, from, n, 0);
      assert anchors[..n] == o.anchors[from..from + n];
      anchors[n] := key;
    }

    /** merge: the strings of the right node are put behind the first ones of this node. */
    method Absorb(right: StringNode, at: nat)
      requires Valid() && right.Valid() && Beside(right) && at <= knum && at + right.knum <= size
      requires InOrder(Keys()[..at] + right.Keys())
      modifies this, anchors, features, right
      ensures Valid() && Keys() == old(Keys())[..at] + old(right.Keys()) && right.knum == 0
    {
      hide InOrder;
      ghost var ks := Keys()[..at] + right.Keys();
      assert Keys()[..at] == anchors[..at] && right.Keys() == right.anchors[0..right.knum];
      CopyAnchors(right, 0, right.knum, at);
      knum := at + right.knum;
      right.knum := 0;
      assert anchors[..knum] == ks;
      if knum == 0 {
        plen := 0;
      } else {
        Rebuild();
      }
    }

    /** How many separators a full node keeps when it splits. */
    function Cut(index: nat): nat {
      if index == size then size else if index < size / 2 then size / 2 + 1 else size / 2
    }

    /** split: a full node hands its upper strings to a new right node and takes one more in. */
    method Split(right: StringNode, key: Key, index: nat) returns (up: Key)
      requires Valid() && right.Valid() && right.knum == 0 && Beside(right)
      requires knum == size > 1 && NulFree(key) && key !in Keys() && index == StringRank(Keys(), key)
      modifies this, anchors, features, right, right.anchors, right.features
      ensures Valid() && right.Valid() && Keys() + right.Keys() == InsertAt(old(Keys()), index, key)
      ensures knum == Cut(index) && up == Keys()[knum - 1]
    {
      hide InOrder, Stores, Shared, StringRank;
      ghost var all := InsertAt(Keys(), index, key);
      InsertInOrder(Keys(), key);
      SliceInOrder(all, 0, Cut(index));
      SliceInOrder(all, Cut(index), |all|);
      assert all[0..Cut(index)] == all[..Cut(index)] && all[Cut(index)..|all|] == all[Cut(index)..];
      SplitAnchors(right, key, index);
      assert all == all[..Cut(index)] + all[Cut(index)..];
      if index == size {
        assert all[..size] == old(Keys());
      } else {
        Rebuild();
      }
      right.Rebuild();
      up := anchors[knum - 1];
    }

    /** The anchors of both nodes after a split, before the matrices are filled. */
    method SplitAnchors(right: StringNode, key: Key, index: nat)
      requires Shaped() && right.Shaped() && Beside(right) && knum == size > 1 && index <= size
      modifies this`knum, anchors, right`knum, right.anchors
      ensures knum == Cut(index) && right.knum == size + 1 - knum
      ensures anchors[..knum] == InsertAt(old(anchors[..size]), index, key)[..Cut(index)]
      ensures right.anchors[..right.knum] == InsertAt(old(anchors[..size]), index, key)[Cut(index)..]
    {
      ghost var ks := anchors[..size];
      ghost var all := InsertAt(ks, index, key);
      if index == size {
        right.anchors[0], right.knum := key, 1;
        assert right.anchors[..1] == all[size..] && anchors[..size] == all[..size];
      } else if index < size / 2 {
        SplitLow(right, key, index);
      } else {
        SplitHigh(right, key, index);
      }
    }

    method SplitLow(right: StringNode, key: Key, index: nat)
      requires Shaped() && right.Shaped() && Beside(right) && knum == size > 1 && index < size / 2
      modifies this`knum, anchors, right`knum, right.anchors
      ensures knum == size / 2 + 1 && right.knum == size - size / 2
      ensures anchors[..knum] == InsertAt(old(anchors[..size]), index, key)[..knum]
      ensures right.anchors[..right.knum] == InsertAt(old(anchors[..size]), index, key)[knum..]
    {
      var h := size / 2;
      ghost var ks := anchors[..size];
      right.CopyAnchors(this, h, size - h, 0);
      right.knum := size - h;
      assert right.anchors[..right.knum] == ks[h..];
      knum := h;
      assert anchors[..knum] == ks[..h];
      OpenAnchor(key, index);
      knum := h + 1;
      LowHalf(ks, index, key, h);
    }

    method SplitHigh(right: StringNode, key: Key, index: nat)
      requires Shaped() && right.Shaped() && Beside(right) && knum == size > 1 && size / 2 <= index < size
      modifies this`knum, right`knum, right.anchors
      ensures knum == size / 2 && right.knum == size + 1 - size / 2
      ensures anchors[..knum] == InsertAt(old(anchors[..size]), index, key)[..knum]
      ensures right.anchors[..right.knum] == InsertAt(old(anchors[..size]), index, key)[knum..]
    {
      var h := size / 2;
      ghost var ks := anchors[..size];
      right.CopyThen(this, h, index - h, key);
      SliceOf(anchors, ks, h, index);
      right.CopyAnchors(this, index, size - index, index - h + 1);
      SliceOf(anchors, ks, index, size);
      right.knum := size + 1 - h;
      knum := h;
      HighHalf(ks, index, key, h);
    }
  }

  lemma SliceOf(a: array<Key>, ks: seq<Key>, x: nat, y: nat)
    requires x <= y <= |ks| <= a.Length && a[..|ks|] == ks
    ensures a[x..x + (y - x)] == ks[x..y]
  {
    assert ks[x..y] == a[..|ks|][x..y] == a[x..y];
  }

  lemma LowHalf(ks: seq<Key>, index: nat, key: Key, h: nat)
    requires index < h <= |ks|
    ensures InsertAt(ks, index, key)[..h + 1] == InsertAt(ks[..h], index, key) && InsertAt(ks, index, key)[h + 1..] == ks[h..]
  {
  }

  lemma HighHalf(ks: seq<Key>, index: nat, key: Key, h: nat)
    requires h <= index <= |ks|
    ensures InsertAt(ks, index, key)[..h] == ks[..h] && InsertAt(ks, index, key)[h..] == ks[h..index] + [key] + ks[index..|ks|]
  {
  }

  lemma SliceInOrder(ks: seq<Key>, a: nat, b: nat)
    requires InOrder(ks) && a <= b <= |ks|
    ensures InOrder(ks[a..b])
  {
    hide Before, NulFree;
    forall i, j | 0 <= i < j < b - a ensures Before(ks[a..b][i], ks[a..b][j]) {
      assert Before(ks[a + i], ks[a + j]);
    }
  }

  // ---------- what the searches conclude ----------

  /** All strings begin with the same p bytes. */
  ghost predicate Shared(ks: seq<Key>, p: nat) {
    forall i :: 0 <= i < |ks| ==> p <= |ks[0]| && p <= |ks[i]| && ks[i][..p] == ks[0][..p]
  }

  /** The columns of the strings that agree with the key in the first p bytes. */
  ghost predicate Agrees(ks: seq<Key>, key: Key, p: nat, eq: Mask) {
    && |ks| <= |eq| && p <= |key|
    && forall i :: 0 <= i < |eq| ==> (eq[i] <==> i < |ks| && p <= |ks[i]| && ks[i][..p] == key[..p])
  }

  lemma AgreesAll(ks: seq<Key>, key: Key, p: nat, eq: Mask)
    requires Shared(ks, p) && |ks| <= |eq| && p <= |key| && (ks != [] ==> key[..p] == ks[0][..p])
    requires forall i :: 0 <= i < |eq| ==> (eq[i] <==> i < |ks|)
    ensures Agrees(ks, key, p, eq) && (|ks| > 0 ==> !None(eq)) && (|ks| == 0 ==> None(eq))
  {
    assert |ks| > 0 ==> eq[0];
  }

  lemma AgreesNext(ks: seq<Key>, key: Key, p: nat, eq: Mask, mask: Mask)
    requires Agrees(ks, key, p, eq) && p < |key| && NulFree(key) && |mask| == |eq|
    requires forall i :: 0 <= i < |eq| ==> (i < |ks| ==> mask[i] == (Byte(ks[i], p) == key[p] && eq[i]))
    requires forall i :: |ks| <= i < |eq| ==> !mask[i] || eq[i]
    ensures Agrees(ks, key, p + 1, mask)
  {
    forall i | 0 <= i < |mask| ensures mask[i] <==> i < |ks| && p + 1 <= |ks[i]| && ks[i][..p + 1] == key[..p + 1] {
      if i < |ks| && p < |ks[i]| {
        Extend(ks[i], key, p);
      }
    }
  }

  lemma PadAgree(ks: seq<Key>, key: Key, p: nat, eq: Mask, w: nat)
    requires Agrees(ks, key, p, eq) && NulFree(key) && |key| <= w && forall i :: 0 <= i < |ks| ==> |ks[i]| <= w
    ensures Agree(PadAll(ks, w), Pad(key, w), p, eq)
  {
    forall i | 0 <= i < |ks| ensures (p <= |ks[i]| && ks[i][..p] == key[..p]) <==> Pad(ks[i], w)[..p] == Pad(key, w)[..p] {
      PadSame(ks[i], key, p, w);
    }
  }

  lemma PadSame(a: Key, key: Key, p: nat, w: nat)
    requires NulFree(key) && p <= |key| <= w && |a| <= w
    ensures (p <= |a| && a[..p] == key[..p]) <==> Pad(a, w)[..p] == Pad(key, w)[..p]
  {
    if Pad(a, w)[..p] == Pad(key, w)[..p] {
      forall i | 0 <= i < p ensures i < |a| && a[i] == key[i] {
        assert Pad(a, w)[..p][i] == Pad(key, w)[..p][i];
      }
      if p > 0 {
        assert Pad(a, w)[..p][p - 1] == Pad(key, w)[..p][p - 1];
      }
    } else if p <= |a| && a[..p] == key[..p] {
      forall i | 0 <= i < p ensures a[i] == key[i] {
        assert a[..p][i] == key[..p][i];
      }
      PadFirst(a, key, w, p);
    }
  }

  /** No column agrees with the next byte. */
  lemma AgreesNot(ks: seq<Key>, key: Key, p: nat, eq: Mask, less: Mask)
    requires InOrder(ks) && Agrees(ks, key, p, eq) && p < |key| && NulFree(key) && |less| == |eq| && (ks != [] ==> !None(eq))
    requires forall i :: 0 <= i < |ks| ==> !(Byte(ks[i], p) == key[p] && eq[i]) && less[i] == (Byte(ks[i], p) < key[p] && eq[i])
    requires forall i :: |ks| <= i < |eq| ==> !less[i] || eq[i]
    ensures StringRank(ks, key) == if !None(less) then Highest(less) else if None(eq) then 0 else Lowest(eq)
  {
    var w := Room(ks) + |key|;
    var padded, k := PadAll(ks, w), Pad(key, w);
    PadAscending(ks, w);
    PadAgree(ks, key, p, eq, w);
    PadRank(ks, key, w);
    if !None(less) {
      FoundAfter(padded, w, k, p, eq, less);
    } else if !None(eq) {
      FoundBefore(padded, w, k, p, eq);
    }
  }

  /** Outside of the columns that agree, the strings are below the key on the left and above it on the right. */
  lemma AgreesOuter(ks: seq<Key>, key: Key, p: nat, eq: Mask)
    requires InOrder(ks) && Agrees(ks, key, p, eq) && NulFree(key) && !None(eq)
    ensures Lowest(eq) < Highest(eq) <= |ks|
    ensures forall i :: 0 <= i < Lowest(eq) ==> Before(ks[i], key)
    ensures forall i :: Highest(eq) <= i < |ks| ==> Before(key, ks[i])
    ensures forall i :: Lowest(eq) <= i < Highest(eq) ==> p <= |ks[i]| && ks[i][..p] == key[..p]
  {
    hide NulFree, Before;
    var l, h := Lowest(eq), Highest(eq);
    assert eq[l] && eq[h - 1];
    forall i | 0 <= i < l ensures Before(ks[i], key) {
      assert Before(ks[i], ks[l]) && !eq[i];
      OuterLow(ks[i], ks[l], key, p);
    }
    forall i | h <= i < |ks| ensures Before(key, ks[i]) {
      assert Before(ks[h - 1], ks[i]) && !eq[i];
      OuterHigh(ks[h - 1], ks[i], key, p);
    }
    forall i | l <= i < h ensures p <= |ks[i]| && ks[i][..p] == key[..p] {
      if l < i < h - 1 {
        assert Before(ks[l], ks[i]) && Before(ks[i], ks[h - 1]);
        Inner(ks[l], ks[i], ks[h - 1], p);
      }
    }
  }

  lemma OuterLow(a: Key, m: Key, key: Key, p: nat)
    requires NulFree(a) && NulFree(m) && NulFree(key) && Before(a, m) && p <= |key| && p <= |m| && m[..p] == key[..p]
    requires !(p <= |a| && a[..p] == key[..p])
    ensures Before(a, key)
  {
    var w := |a| + |m| + |key|;
    PadBefore(a, m, w);
    PadSame(a, key, p, w);
    PadSame(m, key, p, w);
    PrefixLow(Pad(a, w), Pad(m, w), Pad(key, w), p);
    PadOrder(a, key, w);
  }

  lemma OuterHigh(m: Key, b: Key, key: Key, p: nat)
    requires NulFree(b) && NulFree(m) && NulFree(key) && Before(m, b) && p <= |key| && p <= |m| && m[..p] == key[..p]
    requires !(p <= |b| && b[..p] == key[..p])
    ensures Before(key, b)
  {
    var w := |b| + |m| + |key|;
    PadBefore(m, b, w);
    PadSame(b, key, p, w);
    PadSame(m, key, p, w);
    PrefixHigh(Pad(m, w), Pad(b, w), Pad(key, w), p);
    PadOrder(key, b, w);
  }

  /** A string between two that begin alike begins like them. */
  lemma Inner(a: Key, x: Key, b: Key, p: nat)
    requires NulFree(a) && NulFree(x) && NulFree(b) && Before(a, x) && Before(x, b) && p <= |a| && p <= |b| && a[..p] == b[..p]
    ensures p <= |x| && x[..p] == a[..p]
  {
    var w := |a| + |x| + |b|;
    PadBefore(a, x, w);
    PadBefore(x, b, w);
    PadSame(b, a, p, w);
    Between(Pad(a, w), Pad(x, w), Pad(b, w), p);
    PadSame(x, a, p, w);
  }

  /** A key that leaves the prefix at byte d, or ends there, is below or above all strings. */
  lemma OutsideRank(ks: seq<Key>, key: Key, p: nat, d: nat)
    requires InOrder(ks) && ks != [] && Shared(ks, p) && NulFree(key) && d < p && d <= |key| && key[..d] == ks[0][..d]
    requires d < |key| ==> key[d] != ks[0][d]
    ensures StringRank(ks, key) == if d < |key| && key[d] > ks[0][d] then |ks| else 0
  {
    var w := Room(ks) + |key| + 1;
    var padded, k := PadAll(ks, w), Pad(key, w);
    PadAscending(ks, w);
    PadRank(ks, key, w);
    forall i | 0 <= i < |ks| ensures padded[i][..d] == k[..d] && padded[i][d] == ks[0][d] {
      forall b | 0 <= b <= d ensures ks[i][b] == ks[0][b] {
        assert ks[i][..p][b] == ks[0][..p][b];
      }
      forall b | 0 <= b < d ensures Byte(ks[i], b) == Byte(key, b) {
        assert key[..d][b] == ks[0][..d][b];
      }
      PadFirst(ks[i], key, w, d);
    }
    FoundOutside(padded, w, k, d);
  }

  // ---------- ranks and order ----------

  lemma {:induction false} RankIsCut(ks: seq<Key>, key: Key, n: nat)
    requires InOrder(ks) && n <= |ks| && (forall i :: 0 <= i < n ==> Before(ks[i], key)) && (n < |ks| ==> Before(key, ks[n]) || key == ks[n])
    ensures StringRank(ks, key) == n
    decreases n
  {
    if n > 0 {
      RankIsCut(ks[1..], key, n - 1);
    } else if ks != [] {
      NotBoth(key, ks[0]);
    }
  }

  lemma NotBoth(a: Key, b: Key)
    requires Before(a, b) || a == b
    ensures !Before(b, a)
  {
    var d := Common(a, b);
    if d < |a| && d < |b| {
      Differ(a, b, d);
      Differ(b, a, d);
    } else {
      Exhausted(a, b, d);
      Exhausted(b, a, d);
    }
  }

  lemma BeforeTransitive(a: Key, b: Key, c: Key)
    requires NulFree(a) && NulFree(b) && NulFree(c) && Before(a, b) && Before(b, c)
    ensures Before(a, c)
  {
    var w := |a| + |b| + |c|;
    PadBefore(a, b, w);
    PadBefore(b, c, w);
    Transitive(Pad(a, w), Pad(b, w), Pad(c, w));
    PadOrder(a, c, w);
  }

  lemma BeforeAll(ks: seq<Key>, key: Key, n: nat)
    requires InOrder(ks) && NulFree(key) && n < |ks| && Before(key, ks[n])
    ensures forall i :: n <= i < |ks| ==> Before(key, ks[i])
  {
    forall i | n < i < |ks| ensures Before(key, ks[i]) {
      BeforeTransitive(key, ks[n], ks[i]);
    }
  }

  lemma AfterAll(ks: seq<Key>, key: Key, n: nat)
    requires InOrder(ks) && NulFree(key) && n < |ks| && Before(ks[n], key)
    ensures forall i :: 0 <= i <= n ==> Before(ks[i], key)
  {
    forall i | 0 <= i < n ensures Before(ks[i], key) {
      BeforeTransitive(ks[i], ks[n], key);
    }
  }

  lemma AtAnchor(ks: seq<Key>, n: nat)
    requires InOrder(ks) && n < |ks|
    ensures StringRank(ks, ks[n]) == n
  {
    RankIsCut(ks, ks[n], n);
  }

  lemma {:induction false} RankCuts(ks: seq<Key>, key: Key, i: nat)
    requires InOrder(ks) && NulFree(key) && key !in ks && i < |ks|
    ensures if i < StringRank(ks, key) then Before(ks[i], key) else Before(key, ks[i])
  {
    var n := StringRank(ks, key);
    BeforeTotal(ks[i], key);
    if Before(ks[i], key) {
      AfterAll(ks, key, i);
      RankAbove(ks, key, i + 1);
    } else {
      BeforeAll(ks, key, i);
      RankBelow(ks, key, i);
    }
  }

  lemma {:induction false} RankAbove(ks: seq<Key>, key: Key, n: nat)
    requires n <= |ks| && forall i :: 0 <= i < n ==> Before(ks[i], key)
    ensures StringRank(ks, key) >= n
  {
    if n > 0 {
      RankAbove(ks[1..], key, n - 1);
    }
  }

  lemma {:induction false} RankBelow(ks: seq<Key>, key: Key, n: nat)
    requires n < |ks| && Before(key, ks[n])
    ensures StringRank(ks, key) <= n
  {
    NotBoth(key, ks[n]);
    if n > 0 {
      RankBelow(ks[1..], key, n - 1);
    }
  }

  lemma InsertInOrder(ks: seq<Key>, key: Key)
    requires InOrder(ks) && NulFree(key) && key !in ks
    ensures InOrder(InsertAt(ks, StringRank(ks, key), key))
  {
    hide Before, StringRank, NulFree;
    var n := StringRank(ks, key);
    var more := InsertAt(ks, n, key);
    forall i, j | 0 <= i < j < |more| ensures Before(more[i], more[j]) {
      if i == n {
        RankCuts(ks, key, j - 1);
      } else if j == n {
        RankCuts(ks, key, i);
      } else {
        assert Before(ks[if i < n then i else i - 1], ks[if j < n then j else j - 1]);
      }
    }
  }

  lemma RemoveInOrder(ks: seq<Key>, p: nat)
    requires InOrder(ks) && p < |ks|
    ensures InOrder(RemoveAt(ks, p))
  {
    var less := RemoveAt(ks, p);
    forall i, j | 0 <= i < j < |less| ensures Before(less[i], less[j]) {
      assert Before(ks[if i < p then i else i + 1], ks[if j < p then j else j + 1]);
    }
  }

  // ---------- what edits do to the prefix ----------

  /** What the first and the last string begin with, all begin with. */
  lemma SharedEnds(ks: seq<Key>, p: nat)
    requires InOrder(ks) && ks != [] && p <= |ks[0]| && p <= |ks[|ks| - 1]| && ks[0][..p] == ks[|ks| - 1][..p]
    ensures Shared(ks, p)
  {
    forall i | 0 <= i < |ks| ensures p <= |ks[i]| && ks[i][..p] == ks[0][..p] {
      if 0 < i < |ks| - 1 {
        Inner(ks[0], ks[i], ks[|ks| - 1], p);
      }
    }
  }

  lemma InsertShared(ks: seq<Key>, key: Key, p: nat)
    requires InOrder(ks) && NulFree(key) && key !in ks && Shared(ks, p)
    ensures var n := StringRank(ks, key); 0 < n < |ks| ==> Shared(InsertAt(ks, n, key), p)
  {
    var n := StringRank(ks, key);
    if 0 < n < |ks| {
      RankCuts(ks, key, n - 1);
      RankCuts(ks, key, n);
      Inner(ks[n - 1], key, ks[n], p);
    }
  }

  lemma RemoveShared(ks: seq<Key>, index: nat, p: nat)
    requires Shared(ks, p) && 0 < index < |ks|
    ensures Shared(RemoveAt(ks, index), p)
  {
    var less := RemoveAt(ks, index);
    forall i | 0 <= i < |less| ensures p <= |less[i]| && less[i][..p] == less[0][..p] {
      assert less[i] == ks[if i < index then i else i + 1];
    }
  }

  lemma UpdateShared(ks: seq<Key>, key: Key, index: nat, p: nat)
    requires Shared(ks, p) && 0 < index < |ks| - 1 && InOrder(ks[index := key])
    ensures Shared(ks[index := key], p)
  {
    var more := ks[index := key];
    assert Before(more[0], more[index]) && Before(more[index], more[|ks| - 1]);
    Inner(more[0], key, more[|ks| - 1], p);
  }
}
