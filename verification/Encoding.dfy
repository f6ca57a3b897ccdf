/**
 The byte encoding of integer keys: signed keys are shifted to unsigned ones, the bytes are put in big-endian
 order and each byte is shifted by 128, so that a comparison byte by byte, as signed bytes, is the comparison
 of the integers. A key of n bytes is a word, its bit pattern read as a number below 256 to the n.
 */
module Encoding {
  import opened Ordered
  import opened KeyOrder

  function Words(n: nat): (r: nat)
    ensures r > 0 && (n > 0 ==> r % 256 == 0)
  {
    if n == 0 then 1 else 256 * Words(n - 1)
  }

  /** The integer a word stands for, in two's complement if signed. */
  function Value(signed: bool, n: nat, w: nat): int {
    if signed && w >= Words(n) / 2 then w - Words(n) else w
  }

  /** Constant::convert: add half the range to a signed key, wrapping around. */
  function Convert(signed: bool, n: nat, w: nat): (r: nat)
    ensures w < Words(n) ==> r < Words(n)
  {
    if !signed then w else if w + Words(n) / 2 >= Words(n) then w + Words(n) / 2 - Words(n) else w + Words(n) / 2
  }

  /** The bytes of a word, the highest first. */
  function Bytes(w: nat, n: nat): (r: seq<int>)
    ensures |r| == n && forall i :: 0 <= i < n ==> 0 <= r[i] < 256
  {
    if n == 0 then [] else Bytes(w / 256, n - 1) + [w % 256]
  }

  function Word(bs: seq<int>): int {
    if bs == [] then 0 else Word(bs[..|bs| - 1]) * 256 + bs[|bs| - 1]
  }

  /** A byte with 128 added, wrapping around, read as a signed byte. */
  function Shifted(b: int): int {
    var p := (b + 128) % 256;
    if p < 128 then p else p - 256
  }

  function Encoded(signed: bool, n: nat, w: nat): (r: Key)
    ensures |r| == n
  {
    var bs := Bytes(Convert(signed, n, w), n);
    seq(n, i requires 0 <= i < n => Shifted(bs[i]))
  }

  /** The number that signed bytes write down, with the digit 0 for -128. */
  function Number(key: Key): int {
    if key == [] then 0 else Number(key[..|key| - 1]) * 256 + key[|key| - 1] + 128
  }

  /**
   encode_convert, byte by byte: the bytes write down the integer itself, moved up by half of the range if signed, and
   compare with the bytes of any other word as the integers do.
   */
  method EncodeConvert(signed: bool, n: nat, w: nat) returns (key: Key)
    requires n > 0 && w < Words(n)
    ensures |key| == n && forall i :: 0 <= i < n ==> -128 <= key[i] < 128
    ensures Number(key) == Value(signed, n, w) + if signed then Words(n) / 2 else 0
    ensures forall v: nat :: v < Words(n) ==>
      (Value(signed, n, v) < Value(signed, n, w) <==> Less(Encoded(signed, n, v), key)) && (v == w <==> Encoded(signed, n, v) == key)
  {
    var bs := Bytes(Convert(signed, n, w), n);
    key := [];
    while |key| < n
      invariant |key| <= n && key == Encoded(signed, n, w)[..|key|]
    {
      key := key + [Shifted(bs[|key|])];
    }
    assert key == Encoded(signed, n, w);
    EncodedNumber(signed, n, w);
    forall v: nat | v < Words(n)
      ensures Value(signed, n, v) < Value(signed, n, w) <==> Less(Encoded(signed, n, v), key)
      ensures v == w <==> Encoded(signed, n, v) == key
    {
      EncodedOrder(signed, n, v, w);
      if Encoded(signed, n, v) == key {
        EncodedInjective(signed, n, v, w);
      }
    }
  }

  /** encode_reconvert: the way back. */
  method EncodeReconvert(signed: bool, n: nat, key: Key) returns (w: nat)
    requires |key| == n && forall i :: 0 <= i < n ==> -128 <= key[i] < 128
    ensures w < Words(n) && Encoded(signed, n, w) == key
    ensures forall v: nat :: v < Words(n) && Encoded(signed, n, v) == key ==> v == w
  {
    var bs := [];
    while |bs| < n
      invariant |bs| <= n && forall i :: 0 <= i < |bs| ==> bs[i] == key[i] + 128 && 0 <= bs[i] < 256
    {
      bs := bs + [(key[|bs|] + 256 + 128) % 256];
    }
    WordFits(bs);
    w := Convert(signed, n, Word(bs));
    ConvertTwice(signed, n, Word(bs));
    BytesOf(bs);
    assert Encoded(signed, n, w) == key;
    forall v: nat | v < Words(n) && Encoded(signed, n, v) == key ensures v == w {
      EncodedInjective(signed, n, v, w);
    }
  }

  // ---------- an order isomorphism ----------

  lemma WordFits(bs: seq<int>)
    requires forall i :: 0 <= i < |bs| ==> 0 <= bs[i] < 256
    ensures 0 <= Word(bs) < Words(|bs|)
  {
  }

  lemma {:induction false} BytesOf(bs: seq<int>)
    requires forall i :: 0 <= i < |bs| ==> 0 <= bs[i] < 256
    ensures Word(bs) >= 0 && Bytes(Word(bs), |bs|) == bs
  {
    WordFits(bs);
    if bs != [] {
      var front, last := bs[..|bs| - 1], bs[|bs| - 1];
      WordFits(front);
      BytesOf(front);
      assert Word(bs) / 256 == Word(front) && Word(bs) % 256 == last;
      assert bs == front + [last];
    }
  }

  lemma {:induction false} NumberIs(w: nat, n: nat, key: Key)
    requires w < Words(n) && |key| == n && forall i :: 0 <= i < n ==> key[i] == Bytes(w, n)[i] - 128
    ensures Number(key) == w
  {
    if n > 0 {
      assert w / 256 < Words(n - 1);
      NumberIs(w / 256, n - 1, key[..n - 1]);
      assert w == w / 256 * 256 + w % 256;
    }
  }

  lemma EncodedNumber(signed: bool, n: nat, w: nat)
    requires n > 0 && w < Words(n)
    ensures Number(Encoded(signed, n, w)) == Value(signed, n, w) + if signed then Words(n) / 2 else 0
  {
    if signed {
      ConvertIs(n, w);
    }
    NumberIs(Convert(signed, n, w), n, Encoded(signed, n, w));
  }

  lemma HalfOf(n: nat)
    requires n > 0
    ensures Words(n) / 2 * 2 == Words(n)
  {
  }

  lemma ConvertTwice(signed: bool, n: nat, w: nat)
    requires w < Words(n)
    ensures Convert(signed, n, Convert(signed, n, w)) == w
  {
    if signed && n > 0 {
      HalfOf(n);
    }
  }

  /** Shifting signed words turns their order into that of unsigned words. */
  lemma ConvertOrder(signed: bool, n: nat, v: nat, w: nat)
    requires v < Words(n) && w < Words(n)
    ensures Value(signed, n, v) < Value(signed, n, w) <==> Convert(signed, n, v) < Convert(signed, n, w)
  {
    if signed && n > 0 {
      ConvertIs(n, v);
      ConvertIs(n, w);
    }
  }

  lemma ConvertIs(n: nat, w: nat)
    requires w < Words(n) && n > 0
    ensures Convert(true, n, w) == Value(true, n, w) + Words(n) / 2
  {
    HalfOf(n);
  }

  lemma LessLast(a: Key, b: Key, x: int, y: int)
    requires |a| == |b|
    ensures Less(a + [x], b + [y]) <==> Less(a, b) || (a == b && x < y)
  {
    var p, q := a + [x], b + [y];
    if Less(p, q) {
      var d: nat :| LessAt(p, q, d);
      if d < |a| {
        assert p[..d] == a[..d] && q[..d] == b[..d];
        assert LessAt(a, b, d);
      } else {
        assert p[..|a|] == a && q[..|a|] == b;
      }
    }
    if Less(a, b) {
      var d: nat :| LessAt(a, b, d);
      assert p[..d] == a[..d] && q[..d] == b[..d];
      assert LessAt(p, q, d);
    }
    if a == b && x < y {
      assert p[..|a|] == a && q[..|a|] == b;
      assert LessAt(p, q, |a|);
    }
  }

  lemma {:induction false} BytesOrder(v: nat, w: nat, n: nat)
    requires v < Words(n) && w < Words(n)
    ensures v < w <==> Less(Bytes(v, n), Bytes(w, n))
    ensures v == w <==> Bytes(v, n) == Bytes(w, n)
  {
    if n > 0 {
      assert v / 256 < Words(n - 1) && w / 256 < Words(n - 1);
      BytesOrder(v / 256, w / 256, n - 1);
      var a, b := Bytes(v / 256, n - 1), Bytes(w / 256, n - 1);
      LessLast(a, b, v % 256, w % 256);
      assert v == v / 256 * 256 + v % 256 && w == w / 256 * 256 + w % 256;
      if Bytes(v, n) == Bytes(w, n) {
        assert (a + [v % 256])[..n - 1] == a && (b + [w % 256])[..n - 1] == b;
        assert (a + [v % 256])[n - 1] == v % 256 && (b + [w % 256])[n - 1] == w % 256;
      }
    }
  }

  /** Shifting every byte by the same amount keeps the order. */
  lemma ShiftOrder(a: Key, b: Key, p: Key, q: Key)
    requires |a| == |b| == |p| == |q|
    requires forall i :: 0 <= i < |a| ==> p[i] == a[i] - 128 && q[i] == b[i] - 128
    ensures Less(a, b) <==> Less(p, q)
  {
    forall d: nat ensures LessAt(a, b, d) <==> LessAt(p, q, d) {
      if d < |a| {
        if a[..d] == b[..d] {
          forall i | 0 <= i < d ensures p[..d][i] == q[..d][i] {
            assert a[..d][i] == b[..d][i];
          }
        }
        if p[..d] == q[..d] {
          forall i | 0 <= i < d ensures a[..d][i] == b[..d][i] {
            assert p[..d][i] == q[..d][i];
          }
        }
      }
    }
  }

  /** The encoding carries the numeric order of the keys to the order of their bytes. */
  lemma EncodedOrder(signed: bool, n: nat, v: nat, w: nat)
    requires v < Words(n) && w < Words(n)
    ensures Value(signed, n, v) < Value(signed, n, w) <==> Less(Encoded(signed, n, v), Encoded(signed, n, w))
  {
    hide Value, Convert, Bytes;
    ConvertOrder(signed, n, v, w);
    BytesOrder(Convert(signed, n, v), Convert(signed, n, w), n);
    ShiftOrder(Bytes(Convert(signed, n, v), n), Bytes(Convert(signed, n, w), n), Encoded(signed, n, v), Encoded(signed, n, w));
  }

  lemma EncodedInjective(signed: bool, n: nat, v: nat, w: nat)
    requires v < Words(n) && w < Words(n) && Encoded(signed, n, v) == Encoded(signed, n, w)
    ensures v == w
  {
    hide Value, Convert, Bytes;
    var a, b := Bytes(Convert(signed, n, v), n), Bytes(Convert(signed, n, w), n);
    forall i | 0 <= i < n ensures a[i] == b[i] {
      assert Encoded(signed, n, v)[i] == Shifted(a[i]) && Encoded(signed, n, w)[i] == Shifted(b[i]);
    }
    BytesOrder(Convert(signed, n, v), Convert(signed, n, w), n);
    ConvertTwice(signed, n, v);
    ConvertTwice(signed, n, w);
  }

  /** So the search among encoded separators finds the rank of the key among the integers. */
  lemma EncodedRank(signed: bool, n: nat, ws: seq<nat>, w: nat)
    requires w < Words(n) && forall i :: 0 <= i < |ws| ==> ws[i] < Words(n)
    requires Sorted(seq(|ws|, i requires 0 <= i < |ws| => Value(signed, n, ws[i])))
    ensures Count(seq(|ws|, i requires 0 <= i < |ws| => Encoded(signed, n, ws[i])), Encoded(signed, n, w))
         == Rank(seq(|ws|, i requires 0 <= i < |ws| => Value(signed, n, ws[i])), Value(signed, n, w))
  {
    var vs := seq(|ws|, i requires 0 <= i < |ws| => Value(signed, n, ws[i]));
    var ks := seq(|ws|, i requires 0 <= i < |ws| => Encoded(signed, n, ws[i]));
    var r := Rank(vs, Value(signed, n, w));
    forall i | 0 <= i < |ws| ensures Less(ks[i], Encoded(signed, n, w)) <==> vs[i] < Value(signed, n, w) {
      EncodedOrder(signed, n, ws[i], w);
    }
    CountIs(ks, Encoded(signed, n, w), r);
  }
}
