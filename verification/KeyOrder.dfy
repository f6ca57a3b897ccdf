/**
 Fixed-length keys as byte sequences in lexicographic order, and the place of a key among ascending keys.
 */
module KeyOrder {
  type Key = seq<int>

  /** The keys first differ at d, where a has the smaller byte. */
  predicate LessAt(a: Key, b: Key, d: nat) {
    d < |a| && d < |b| && a[..d] == b[..d] && a[d] < b[d]
  }

  ghost predicate Less(a: Key, b: Key) {
    exists d: nat :: LessAt(a, b, d)
  }

  ghost predicate Ascending(keys: seq<Key>, width: nat) {
    && (forall i :: 0 <= i < |keys| ==> |keys[i]| == width)
    && (forall i, j :: 0 <= i < j < |keys| ==> Less(keys[i], keys[j]))
  }

  /** How many of the ascending keys are below the key. */
  ghost function Count(keys: seq<Key>, key: Key): (n: nat)
    ensures n <= |keys|
  {
    if keys == [] || !Less(keys[0], key) then 0 else 1 + Count(keys[1..], key)
  }

  lemma TakeAt(a: Key, d: nat, e: nat)
    requires d <= e <= |a|
    ensures a[..e][..d] == a[..d]
  {
  }

  lemma Asymmetric(a: Key, b: Key)
    requires |a| == |b| && Less(a, b)
    ensures !Less(b, a) && a != b
  {
    var d: nat :| LessAt(a, b, d);
    forall e: nat ensures !LessAt(b, a, e) {
      if d < e && e <= |a| {
        assert a[..e][d] == a[d] && b[..e][d] == b[d];
      } else if e < d {
        assert a[..d][e] == a[e] && b[..d][e] == b[e];
      }
    }
  }

  lemma Transitive(a: Key, b: Key, c: Key)
    requires |a| == |b| == |c| && Less(a, b) && Less(b, c)
    ensures Less(a, c)
  {
    var d: nat :| LessAt(a, b, d);
    var e: nat :| LessAt(b, c, e);
    var m := if d <= e then d else e;
    TakeAt(a, m, d);
    TakeAt(b, m, d);
    TakeAt(b, m, e);
    TakeAt(c, m, e);
    if d < e {
      assert b[..e][d] == c[..e][d];
    } else if e < d {
      assert a[..d][e] == b[..d][e];
    }
    assert LessAt(a, c, m);
  }

  /** The length of the longest common prefix. */
  function Common(a: Key, b: Key): (d: nat)
    ensures d <= |a| && d <= |b| && a[..d] == b[..d] && (d < |a| && d < |b| ==> a[d] != b[d])
  {
    if a == [] || b == [] || a[0] != b[0] then 0
    else
      var d := Common(a[1..], b[1..]);
      assert a[..d + 1] == [a[0]] + a[1..][..d] && b[..d + 1] == [b[0]] + b[1..][..d];
      d + 1
  }

  lemma Total(a: Key, b: Key)
    requires |a| == |b|
    ensures a == b || Less(a, b) || Less(b, a)
  {
    var d := Common(a, b);
    if d < |a| {
      assert LessAt(a, b, d) || LessAt(b, a, d);
    }
  }

  /** The count is where the keys stop being below the key. */
  lemma {:induction false} CountIs(keys: seq<Key>, key: Key, n: nat)
    requires n <= |keys| && (forall i :: 0 <= i < n ==> Less(keys[i], key)) && (n < |keys| ==> !Less(keys[n], key))
    ensures Count(keys, key) == n
    decreases n
  {
    if n > 0 {
      forall i | 0 <= i < n - 1 ensures Less(keys[1..][i], key) {
        assert keys[1..][i] == keys[i + 1];
      }
      CountIs(keys[1..], key, n - 1);
    }
  }

  lemma {:induction false} CountAt(keys: seq<Key>, key: Key, i: nat)
    requires i < Count(keys, key)
    ensures Less(keys[i], key)
  {
    if i > 0 {
      CountAt(keys[1..], key, i - 1);
    }
  }

  lemma {:induction false} CountStops(keys: seq<Key>, key: Key)
    requires Count(keys, key) < |keys|
    ensures !Less(keys[Count(keys, key)], key)
  {
    if keys != [] && Less(keys[0], key) {
      CountStops(keys[1..], key);
    }
  }

  /** A key below one that shares the prefix, and does not share it itself, is below every key that does. */
  lemma PrefixLow(a: Key, m: Key, key: Key, p: nat)
    requires |a| == |m| == |key| && p <= |key| && Less(a, m) && m[..p] == key[..p] && a[..p] != key[..p]
    ensures Less(a, key)
  {
    var d: nat :| LessAt(a, m, d);
    if d >= p {
      TakeAt(a, p, d);
      TakeAt(m, p, d);
    } else {
      TakeAt(m, d, p);
      TakeAt(key, d, p);
      assert m[..p][d] == key[..p][d];
      assert LessAt(a, key, d);
    }
  }

  lemma PrefixHigh(m: Key, b: Key, key: Key, p: nat)
    requires |b| == |m| == |key| && p <= |key| && Less(m, b) && m[..p] == key[..p] && b[..p] != key[..p]
    ensures Less(key, b)
  {
    var d: nat :| LessAt(m, b, d);
    if d >= p {
      TakeAt(b, p, d);
      TakeAt(m, p, d);
    } else {
      TakeAt(m, d, p);
      TakeAt(key, d, p);
      assert m[..p][d] == key[..p][d];
      assert LessAt(key, b, d);
    }
  }

  /** A key between two that share a prefix shares it. */
  lemma Between(a: Key, x: Key, b: Key, p: nat)
    requires |a| == |x| == |b| && p <= |x| && a[..p] == b[..p] && Less(a, x) && Less(x, b)
    ensures x[..p] == a[..p]
  {
    if x[..p] != a[..p] {
      PrefixHigh(a, x, b, p);
      Asymmetric(x, b);
    }
  }
}
