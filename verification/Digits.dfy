/** Words made of four-bit digits, the lowest first, and the masks and shifts that keep to digits. */
module Digits {
  predicate Nibbles(ds: seq<int>) {
    forall i :: 0 <= i < |ds| ==> 0 <= ds[i] < 16
  }

  function Num(ds: seq<int>): int {
    if ds == [] then 0 else ds[0] + 16 * Num(ds[1..])
  }

  /** The lowest k digits: x & ((1 << 4k) - 1). */
  function Low(x: int, k: nat): int
    decreases k
  {
    if k == 0 then 0 else x % 16 + 16 * Low(x / 16, k - 1)
  }

  /** The other digits, in their places: x & ~((1 << 4k) - 1). */
  function High(x: int, k: nat): int {
    x - Low(x, k)
  }

  /** x >> 4k */
  function Down(x: int, k: nat): int
    decreases k
  {
    if k == 0 then x else Down(x / 16, k - 1)
  }

  /** x << 4k without end. */
  function Shift(x: int, k: nat): int {
    if k == 0 then x else 16 * Shift(x, k - 1)
  }

  /** x << 4k in a word of n digits. */
  function Up(x: int, k: nat, n: nat): int {
    Low(Shift(x, k), n)
  }

  /** The digits a to b - 1 of a word, in their places. */
  function Field(x: int, a: nat, b: nat): int {
    High(Low(x, b), a)
  }

  /** The exclusive or of the lowest n bits. */
  function XorBits(a: int, b: int, n: nat): (r: int)
    decreases n
  {
    if n == 0 then 0 else (a % 2 + b % 2) % 2 + 2 * XorBits(a / 2, b / 2, n - 1)
  }

  function Xor(a: int, b: int): (r: int)
    ensures 0 <= r < 16
  {
    XorSmall(a, b, 4);
    XorBits(a, b, 4)
  }

  function Twos(n: nat): int {
    if n == 0 then 1 else 2 * Twos(n - 1)
  }

  lemma {:induction false} XorSmall(a: int, b: int, n: nat)
    ensures 0 <= XorBits(a, b, n) < Twos(n) && Twos(4) == 16
    decreases n
  {
    if n > 0 {
      XorSmall(a / 2, b / 2, n - 1);
    }
  }

  /** x ^ (d << 4k) */
  function XorDigit(x: int, k: nat, d: int): int
    requires 0 <= d < 16
    decreases k
  {
    if k == 0 then x - x % 16 + Xor(x % 16, d) else x % 16 + 16 * XorDigit(x / 16, k - 1, d)
  }

  // ---------- the same on digits ----------

  function Part(ds: seq<int>, a: nat, b: nat): (r: seq<int>)
    ensures |r| == |ds|
  {
    seq(|ds|, i requires 0 <= i < |ds| => if a <= i < b then ds[i] else 0)
  }

  function Raised(ds: seq<int>, k: nat): (r: seq<int>)
    ensures |r| == |ds|
  {
    seq(|ds|, i requires 0 <= i < |ds| => if i < k then 0 else ds[i - k])
  }

  function Lowered(ds: seq<int>, k: nat): (r: seq<int>)
    ensures |r| == |ds|
  {
    seq(|ds|, i requires 0 <= i < |ds| => if i + k < |ds| then ds[i + k] else 0)
  }

  function One(d: int, k: nat, n: nat): (r: seq<int>)
    ensures |r| == n
  {
    seq(n, i requires 0 <= i < n => if i == k then d else 0)
  }

  lemma {:induction false} NumBound(ds: seq<int>)
    requires Nibbles(ds)
    ensures 0 <= Num(ds)
  {
    if ds != [] {
      NumBound(ds[1..]);
    }
  }

  lemma FirstNum(ds: seq<int>)
    requires Nibbles(ds) && ds != []
    ensures Num(ds) % 16 == ds[0] && Num(ds) / 16 == Num(ds[1..])
  {
    NumBound(ds[1..]);
  }

  lemma {:induction false} NumNone(ds: seq<int>)
    requires forall i :: 0 <= i < |ds| ==> ds[i] == 0
    ensures Num(ds) == 0
  {
    if ds != [] {
      NumNone(ds[1..]);
    }
  }

  lemma {:induction false} LowNum(ds: seq<int>, k: nat)
    requires Nibbles(ds) && k <= |ds|
    ensures Low(Num(ds), k) == Num(Part(ds, 0, k)) && Nibbles(Part(ds, 0, k))
  {
    if k > 0 {
      FirstNum(ds);
      LowNum(ds[1..], k - 1);
      assert Part(ds, 0, k)[1..] == Part(ds[1..], 0, k - 1);
    } else {
      NumNone(Part(ds, 0, 0));
    }
  }

  lemma {:induction false} SumNum(a: seq<int>, b: seq<int>, sum: seq<int>)
    requires |a| == |b| == |sum| && forall i :: 0 <= i < |a| ==> sum[i] == a[i] + b[i]
    ensures Num(sum) == Num(a) + Num(b)
  {
    if a != [] {
      SumNum(a[1..], b[1..], sum[1..]);
    }
  }

  function Plus(a: seq<int>, b: seq<int>): (r: seq<int>)
    requires |a| == |b|
    ensures |r| == |a|
  {
    seq(|a|, i requires 0 <= i < |a| => a[i] + b[i])
  }

  lemma PlusNum(a: seq<int>, b: seq<int>)
    requires |a| == |b|
    ensures Num(Plus(a, b)) == Num(a) + Num(b)
  {
    SumNum(a, b, Plus(a, b));
  }

  lemma HighNum(ds: seq<int>, k: nat)
    requires Nibbles(ds) && k <= |ds|
    ensures High(Num(ds), k) == Num(Part(ds, k, |ds|)) && Nibbles(Part(ds, k, |ds|))
  {
    hide Num, Low;
    LowNum(ds, k);
    SumNum(Part(ds, 0, k), Part(ds, k, |ds|), ds);
  }

  lemma FieldNum(ds: seq<int>, a: nat, b: nat)
    requires Nibbles(ds) && a <= b <= |ds|
    ensures Field(Num(ds), a, b) == Num(Part(ds, a, b)) && Nibbles(Part(ds, a, b))
  {
    hide Num, Low, High;
    LowNum(ds, b);
    HighNum(Part(ds, 0, b), a);
    assert Part(Part(ds, 0, b), a, |ds|) == Part(ds, a, b);
  }

  lemma {:induction false} DownNum(ds: seq<int>, k: nat)
    requires Nibbles(ds) && k < |ds|
    ensures Down(Num(ds), k) == Num(ds[k..])
  {
    if k > 0 {
      FirstNum(ds);
      DownNum(ds[1..], k - 1);
      assert ds[1..][k - 1..] == ds[k..];
    } else {
      assert ds[0..] == ds;
    }
  }

  lemma {:induction false} PadNum(ds: seq<int>, more: seq<int>)
    requires |ds| <= |more| && (forall i :: 0 <= i < |more| ==> more[i] == if i < |ds| then ds[i] else 0)
    ensures Num(more) == Num(ds)
  {
    if ds == [] {
      NumNone(more);
    } else {
      PadNum(ds[1..], more[1..]);
    }
  }

  lemma LoweredNum(ds: seq<int>, k: nat)
    requires Nibbles(ds) && k < |ds|
    ensures Down(Num(ds), k) == Num(Lowered(ds, k)) && Nibbles(Lowered(ds, k))
  {
    hide Num, Down;
    DownNum(ds, k);
    PadNum(ds[k..], Lowered(ds, k));
  }

  lemma {:induction false} ShiftNum(ds: seq<int>, more: seq<int>, k: nat)
    requires |more| == |ds| + k && (forall i :: 0 <= i < |more| ==> more[i] == if i < k then 0 else ds[i - k])
    ensures Shift(Num(ds), k) == Num(more)
    decreases k
  {
    if k > 0 {
      ShiftNum(ds, more[1..], k - 1);
    } else {
      assert more == ds;
    }
  }

  lemma RaisedNum(ds: seq<int>, k: nat)
    requires Nibbles(ds)
    ensures Up(Num(ds), k, |ds|) == Num(Raised(ds, k)) && Nibbles(Raised(ds, k))
  {
    hide Num, Low, Shift;
    var more := seq(|ds| + k, i requires 0 <= i < |ds| + k => if i < k then 0 else ds[i - k]);
    ShiftNum(ds, more, k);
    LowNum(more, |ds|);
    PadNum(Raised(ds, k), Part(more, 0, |ds|));
  }

  /** One digit, and nothing else. */
  lemma OneNum(d: int, k: nat, n: nat)
    requires 0 <= d < 16 && k < n
    ensures Up(d, k, n) == Num(One(d, k, n))
  {
    hide Up;
    assert Num([d]) == d by { assert [d][1..] == []; }
    hide Num;
    PadNum([d], One(d, 0, n));
    RaisedNum(One(d, 0, n), k);
    assert Raised(One(d, 0, n), k) == One(d, k, n);
  }

  /** Another lowest digit. */
  lemma FirstSet(ds: seq<int>, n: int)
    requires Nibbles(ds) && ds != [] && 0 <= n < 16
    ensures Num(ds[0 := n]) == Num(ds) + n - ds[0] && Nibbles(ds[0 := n])
  {
    assert ds[0 := n][1..] == ds[1..];
  }

  lemma {:induction false} XorBack(a: int, b: int, n: nat)
    requires 0 <= a && 0 <= b < Twos(n)
    ensures XorBits(a, XorBits(a, b, n), n) == b
    decreases n
  {
    if n > 0 {
      XorBack(a / 2, b / 2, n - 1);
      var x := XorBits(a, b, n);
      assert x / 2 == XorBits(a / 2, b / 2, n - 1) && x % 2 == (a % 2 + b % 2) % 2;
      assert (a % 2 + x % 2) % 2 == b % 2;
    }
  }

  lemma {:induction false} XorSwap(a: int, b: int, n: nat)
    ensures XorBits(a, b, n) == XorBits(b, a, n)
    decreases n
  {
    if n > 0 {
      XorSwap(a / 2, b / 2, n - 1);
    }
  }

  lemma XorTwice(a: int, b: int)
    requires 0 <= a < 16 && 0 <= b < 16
    ensures Xor(a, Xor(a, b)) == b && Xor(b, Xor(a, b)) == a
  {
    hide XorBits;
    XorSmall(a, b, 4);
    XorBack(a, b, 4);
    XorBack(b, a, 4);
    XorSwap(a, b, 4);
  }

  lemma {:induction false} XorDigitNum(ds: seq<int>, k: nat, d: int)
    requires Nibbles(ds) && k < |ds| && 0 <= d < 16
    ensures XorDigit(Num(ds), k, d) == Num(ds[k := Xor(ds[k], d)]) && Nibbles(ds[k := Xor(ds[k], d)])
  {
    hide Xor;
    FirstNum(ds);
    if k > 0 {
      XorDigitNum(ds[1..], k - 1, d);
      assert ds[k := Xor(ds[k], d)][1..] == ds[1..][k - 1 := Xor(ds[1..][k - 1], d)];
    } else {
      assert ds[0 := Xor(ds[0], d)][1..] == ds[1..];
    }
  }
}
