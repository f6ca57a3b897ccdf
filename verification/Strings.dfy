/**
 String keys of any length without NUL bytes: their order, their comparison, and the order isomorphism that pads
 them with zeros to one width, on which the feature search rests.
 */
module Strings {
  import opened KeyOrder

  predicate NulFree(a: Key) {
    forall i :: 0 <= i < |a| ==> 0 < a[i] < 256
  }

  /** a comes before b: at the first difference it has the smaller byte, or it is a proper prefix. */
  ghost predicate Before(a: Key, b: Key) {
    Less(a, b) || (|a| < |b| && a == b[..|a|])
  }

  ghost predicate InOrder(ks: seq<Key>) {
    && (forall i :: 0 <= i < |ks| ==> NulFree(ks[i]))
    && (forall i, j :: 0 <= i < j < |ks| ==> Before(ks[i], ks[j]))
  }

  /** How many of the strings come before the key. */
  ghost function StringRank(ks: seq<Key>, key: Key): (n: nat)
    ensures n <= |ks|
  {
    if ks == [] || !Before(ks[0], key) then 0 else 1 + StringRank(ks[1..], key)
  }

  /** The comparison of two strings: bytes up to the shorter length, then the lengths. */
  method Compare(a: Key, b: Key) returns (c: int)
    ensures c < 0 <==> Before(a, b)
    ensures c == 0 <==> a == b
  {
    var i := 0;
    while i < |a| && i < |b| && a[i] == b[i]
      invariant i <= |a| && i <= |b| && a[..i] == b[..i]
    {
      i := i + 1;
    }
    if i < |a| && i < |b| {
      Differ(a, b, i);
      return a[i] - b[i];
    }
    Exhausted(a, b, i);
    return |a| - |b|;
  }

  lemma Differ(a: Key, b: Key, d: nat)
    requires d < |a| && d < |b| && a[..d] == b[..d] && a[d] != b[d]
    ensures Before(a, b) <==> a[d] < b[d]
    ensures a != b
  {
    if a[d] < b[d] {
      assert LessAt(a, b, d);
    } else {
      assert LessAt(b, a, d);
      forall e: nat ensures !LessAt(a, b, e) {
        if d < e && e <= |a| && e <= |b| {
          assert a[..e][d] == a[d] && b[..e][d] == b[d];
        } else if e < d {
          assert a[..d][e] == a[e] && b[..d][e] == b[e];
        }
      }
      if |a| < |b| {
        assert b[..|a|][d] == b[d];
      }
    }
  }

  lemma Exhausted(a: Key, b: Key, i: nat)
    requires i <= |a| && i <= |b| && a[..i] == b[..i] && (i == |a| || i == |b|)
    ensures Before(a, b) <==> |a| < |b|
    ensures a == b <==> |a| == |b|
  {
    assert a == a[..|a|] && b == b[..|b|];
    forall e: nat ensures !LessAt(a, b, e) {
      if e < i {
        assert a[..i][e] == a[e] && b[..i][e] == b[e];
      }
    }
  }

  // ---------- padding ----------

  function Byte(a: Key, i: nat): int {
    if i < |a| then a[i] else 0
  }

  function Pad(a: Key, w: nat): (r: Key)
    ensures |r| == w && forall i :: 0 <= i < w ==> r[i] == Byte(a, i)
  {
    seq(w, i requires 0 <= i => Byte(a, i))
  }

  function PadAll(ks: seq<Key>, w: nat): (r: seq<Key>)
    ensures |r| == |ks| && forall i :: 0 <= i < |r| ==> r[i] == Pad(ks[i], w)
  {
    seq(|ks|, i requires 0 <= i < |ks| => Pad(ks[i], w))
  }

  /** A width that holds all the strings. */
  ghost function Room(ks: seq<Key>): (w: nat)
    ensures forall i :: 0 <= i < |ks| ==> |ks[i]| <= w
  {
    if ks == [] then 0 else
      var w := Room(ks[1..]);
      assert forall i :: 1 <= i < |ks| ==> ks[i] == ks[1..][i - 1];
      if w < |ks[0]| then |ks[0]| else w
  }

  lemma PadFirst(a: Key, b: Key, w: nat, d: nat)
    requires |a| <= w && |b| <= w && d <= w && (forall i :: 0 <= i < d ==> Byte(a, i) == Byte(b, i))
    ensures Pad(a, w)[..d] == Pad(b, w)[..d]
  {
  }

  lemma PadBefore(a: Key, b: Key, w: nat)
    requires NulFree(a) && NulFree(b) && |a| <= w && |b| <= w && Before(a, b)
    ensures Less(Pad(a, w), Pad(b, w))
  {
    if Less(a, b) {
      var d: nat :| LessAt(a, b, d);
      forall i | 0 <= i < d ensures Byte(a, i) == Byte(b, i) {
        assert a[..d][i] == b[..d][i];
      }
      PadFirst(a, b, w, d);
      assert LessAt(Pad(a, w), Pad(b, w), d);
    } else {
      forall i | 0 <= i < |a| ensures Byte(a, i) == Byte(b, i) {
        assert b[..|a|][i] == a[i];
      }
      PadFirst(a, b, w, |a|);
      assert LessAt(Pad(a, w), Pad(b, w), |a|);
    }
  }

  lemma BeforeTotal(a: Key, b: Key)
    ensures a == b || Before(a, b) || Before(b, a)
  {
    var d := Common(a, b);
    if d < |a| && d < |b| {
      Differ(a, b, d);
      Differ(b, a, d);
    } else {
      Exhausted(a, b, d);
      Exhausted(b, a, d);
    }
  }

  /** Padding keeps the order of strings, in both directions. */
  lemma PadOrder(a: Key, b: Key, w: nat)
    requires NulFree(a) && NulFree(b) && |a| <= w && |b| <= w
    ensures Before(a, b) <==> Less(Pad(a, w), Pad(b, w))
    ensures a == b <==> Pad(a, w) == Pad(b, w)
  {
    BeforeTotal(a, b);
    if Before(a, b) {
      PadBefore(a, b, w);
      Asymmetric(Pad(a, w), Pad(b, w));
    } else if Before(b, a) {
      PadBefore(b, a, w);
      Asymmetric(Pad(b, w), Pad(a, w));
    }
  }

  lemma PadAscending(ks: seq<Key>, w: nat)
    requires InOrder(ks) && forall i :: 0 <= i < |ks| ==> |ks[i]| <= w
    ensures Ascending(PadAll(ks, w), w)
  {
    forall i, j | 0 <= i < j < |ks| ensures Less(PadAll(ks, w)[i], PadAll(ks, w)[j]) {
      PadBefore(ks[i], ks[j], w);
    }
  }

  /** So the rank among the strings is the count among the padded keys. */
  lemma {:induction false} PadRank(ks: seq<Key>, key: Key, w: nat)
    requires InOrder(ks) && NulFree(key) && |key| <= w && forall i :: 0 <= i < |ks| ==> |ks[i]| <= w
    ensures StringRank(ks, key) == Count(PadAll(ks, w), Pad(key, w))
  {
    if ks != [] {
      PadOrder(ks[0], key, w);
      assert PadAll(ks, w)[1..] == PadAll(ks[1..], w);
      PadRank(ks[1..], key, w);
    }
  }

  /** A comparison from a byte on, where two strings agree before it, is the comparison of the strings. */
  lemma SuffixOrder(a: Key, b: Key, p: nat)
    requires p <= |a| && p <= |b| && a[..p] == b[..p]
    ensures Before(a[p..], b[p..]) <==> Before(a, b)
    ensures a[p..] == b[p..] <==> a == b
  {
    var d := Common(a[p..], b[p..]);
    var x, y := a[p..], b[p..];
    assert a == a[..p] + x && b == b[..p] + y;
    assert a[..p + d] == a[..p] + x[..d] && b[..p + d] == b[..p] + y[..d];
    if d < |x| && d < |y| {
      Differ(x, y, d);
      Differ(a, b, p + d);
    } else {
      Exhausted(x, y, d);
      Exhausted(a, b, p + d);
    }
  }
}
