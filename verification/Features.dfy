/**
 The separators of an FB+-tree inner node: what they all begin with is stored once as the prefix, the rest
 column by column in a matrix of bytes, one row for each byte position, and a search narrows a bit mask of
 columns row by row.
 */
module Features {
  import opened Ordered
  import opened KeyOrder

  // ---------- bit masks, one bit for each column ----------

  type Mask = seq<bool>

  predicate None(m: Mask) {
    forall i :: 0 <= i < |m| ==> !m[i]
  }

  function And(a: Mask, b: Mask): (r: Mask)
    requires |a| == |b|
    ensures |r| == |a| && forall i :: 0 <= i < |r| ==> r[i] == (a[i] && b[i])
  {
    seq(|a|, i requires 0 <= i < |a| => a[i] && b[i])
  }

  /** The lowest column of a mask that is not empty. */
  function Lowest(m: Mask): (i: nat)
    ensures i <= |m| && (forall k :: 0 <= k < i ==> !m[k]) && (i < |m| ==> m[i]) && (!None(m) ==> i < |m|)
  {
    if m == [] then 0 else if m[0] then 0
    else
      var i := Lowest(m[1..]);
      assert forall k :: 1 <= k < |m| ==> m[k] == m[1..][k - 1];
      i + 1
  }

  /** One more than the highest column of a mask, 0 if it is empty. */
  function Highest(m: Mask): (i: nat)
    ensures i <= |m| && (forall k :: i <= k < |m| ==> !m[k]) && (i > 0 ==> m[i - 1]) && (!None(m) ==> i > 0)
  {
    if m == [] then 0 else if m[|m| - 1] then |m| else Highest(m[..|m| - 1])
  }

  // ---------- what a search concludes ----------

  /** The columns that agree with the key in the first p bytes. */
  ghost predicate Agree(keys: seq<Key>, key: Key, p: nat, eq: Mask) {
    |keys| <= |eq| && forall i :: 0 <= i < |eq| ==> (eq[i] <==> i < |keys| && p <= |key| && p <= |keys[i]| && keys[i][..p] == key[..p])
  }

  lemma Extend(a: Key, b: Key, p: nat)
    requires p < |a| && p < |b|
    ensures a[..p + 1] == b[..p + 1] <==> a[..p] == b[..p] && a[p] == b[p]
  {
    assert a[..p + 1] == a[..p] + [a[p]] && b[..p + 1] == b[..p] + [b[p]];
    if a[..p + 1] == b[..p + 1] {
      assert a[..p + 1][..p] == b[..p + 1][..p] && a[..p + 1][p] == b[..p + 1][p];
    }
  }

  /** All columns that agree have a greater next byte: the key comes just before the first of them. */
  lemma FoundBefore(keys: seq<Key>, width: nat, key: Key, p: nat, eq: Mask)
    requires Ascending(keys, width) && |key| == width && p < width && Agree(keys, key, p, eq) && !None(eq)
    requires forall i :: 0 <= i < |keys| && eq[i] ==> key[p] < keys[i][p]
    ensures Count(keys, key) == Lowest(eq)
  {
    var m := Lowest(eq);
    forall i | 0 <= i < m ensures Less(keys[i], key) {
      PrefixLow(keys[i], keys[m], key, p);
    }
    assert LessAt(key, keys[m], p);
    Asymmetric(key, keys[m]);
    CountIs(keys, key, m);
  }

  /** Some columns that agree have a smaller next byte, none the same: the key comes just after the last of those. */
  lemma FoundAfter(keys: seq<Key>, width: nat, key: Key, p: nat, eq: Mask, less: Mask)
    requires Ascending(keys, width) && |key| == width && p < width && Agree(keys, key, p, eq) && |less| == |eq| && !None(less)
    requires forall i :: 0 <= i < |eq| ==> (less[i] <==> i < |keys| && eq[i] && keys[i][p] < key[p])
    requires forall i :: 0 <= i < |keys| && eq[i] ==> keys[i][p] != key[p]
    ensures Count(keys, key) == Highest(less)
  {
    var n := Highest(less);
    var g := n - 1;
    assert LessAt(keys[g], key, p);
    forall i | 0 <= i < n ensures Less(keys[i], key) {
      if i < g {
        Transitive(keys[i], keys[g], key);
      }
    }
    if n < |keys| {
      if eq[n] {
        assert LessAt(key, keys[n], p);
      } else {
        PrefixHigh(keys[g], keys[n], key, p);
      }
      Asymmetric(key, keys[n]);
    }
    CountIs(keys, key, n);
  }

  /** A column agrees in all bytes: it is the key. */
  lemma FoundEqual(keys: seq<Key>, width: nat, key: Key, eq: Mask)
    requires Ascending(keys, width) && |key| == width && Agree(keys, key, width, eq) && !None(eq)
    ensures Count(keys, key) == Lowest(eq)
  {
    var m := Lowest(eq);
    assert keys[m] == keys[m][..width] && key == key[..width];
    forall i | 0 <= i < m ensures Less(keys[i], key) {
    }
    NotLess(key);
    CountIs(keys, key, m);
  }

  lemma NotLess(a: Key)
    ensures !Less(a, a)
  {
  }

  /** The key leaves the common prefix downwards or upwards. */
  lemma FoundOutside(keys: seq<Key>, width: nat, key: Key, d: nat)
    requires Ascending(keys, width) && |key| == width && d < width
    requires forall i :: 0 <= i < |keys| ==> keys[i][..d] == key[..d] && keys[i][d] != key[d]
    requires forall i :: 0 <= i < |keys| ==> keys[i][d] == keys[0][d]
    ensures keys != [] ==> Count(keys, key) == if key[d] < keys[0][d] then 0 else |keys|
  {
    if keys != [] {
      if key[d] < keys[0][d] {
        assert LessAt(key, keys[0], d);
        Asymmetric(key, keys[0]);
        CountIs(keys, key, 0);
      } else {
        forall i | 0 <= i < |keys| ensures Less(keys[i], key) {
          assert LessAt(keys[i], key, d);
        }
        CountIs(keys, key, |keys|);
      }
    }
  }

  // ---------- ascending keys under edits ----------

  lemma CountApart(keys: seq<Key>, width: nat, mid: Key, i: nat)
    requires Ascending(keys, width) && |mid| == width && mid !in keys && i < |keys|
    ensures if i < Count(keys, mid) then Less(keys[i], mid) else Less(mid, keys[i])
  {
    var n := Count(keys, mid);
    if i < n {
      CountAt(keys, mid, i);
    } else {
      CountStops(keys, mid);
      Total(mid, keys[n]);
      if n < i {
        Transitive(mid, keys[n], keys[i]);
      }
    }
  }

  lemma InsertAscending(keys: seq<Key>, width: nat, mid: Key)
    requires Ascending(keys, width) && |mid| == width && mid !in keys
    ensures Ascending(InsertAt(keys, Count(keys, mid), mid), width)
  {
    var n := Count(keys, mid);
    var ks := InsertAt(keys, n, mid);
    forall i, j | 0 <= i < j < |ks| ensures Less(ks[i], ks[j]) {
      if i == n {
        CountApart(keys, width, mid, j - 1);
      } else if j == n {
        CountApart(keys, width, mid, i);
      } else {
        assert Less(keys[if i < n then i else i - 1], keys[if j < n then j else j - 1]);
      }
    }
  }

  lemma SliceAscending(keys: seq<Key>, width: nat, a: nat, b: nat)
    requires Ascending(keys, width) && a <= b <= |keys|
    ensures Ascending(keys[a..b], width)
  {
    forall i, j | 0 <= i < j < b - a ensures Less(keys[a..b][i], keys[a..b][j]) {
      assert Less(keys[a + i], keys[a + j]);
    }
  }

  lemma RemoveAscending(keys: seq<Key>, width: nat, p: nat)
    requires Ascending(keys, width) && p < |keys|
    ensures Ascending(RemoveAt(keys, p), width)
  {
    var ks := RemoveAt(keys, p);
    forall i, j | 0 <= i < j < |ks| ensures Less(ks[i], ks[j]) {
      assert Less(keys[if i < p then i else i + 1], keys[if j < p then j else j + 1]);
    }
  }

  /** What the first and the last key begin with, all keys begin with. */
  lemma SharedByEnds(keys: seq<Key>, width: nat, p: nat, i: nat)
    requires Ascending(keys, width) && p <= width && i < |keys| && keys[0][..p] == keys[|keys| - 1][..p]
    ensures keys[i][..p] == keys[0][..p]
  {
    if 0 < i < |keys| - 1 {
      Between(keys[0], keys[i], keys[|keys| - 1], p);
    }
  }

  /** A key that goes between two others begins with what all of them begin with. */
  lemma SharedInside(keys: seq<Key>, width: nat, mid: Key, p: nat)
    requires Ascending(keys, width) && |mid| == width && mid !in keys && p <= width && 0 < Count(keys, mid) < |keys|
    requires forall i :: 0 <= i < |keys| ==> keys[i][..p] == keys[0][..p]
    ensures mid[..p] == keys[0][..p]
  {
    var n := Count(keys, mid);
    CountApart(keys, width, mid, n - 1);
    CountApart(keys, width, mid, n);
    Between(keys[n - 1], mid, keys[n], p);
  }
}
