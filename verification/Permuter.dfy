/**
 Masstree's permutation word: the lowest four-bit digit is the number of elements in use, the others are a permutation
 of the slots, those in use first. Every edit is a few masks and shifts of the whole word, whose parts have no digit in
 common, so that + below stands for the code's |.
 */
module Permuters {
  import opened Digits

  // ---------- the edits of the word ----------

  function ElementOf(x: int, i: nat): int {
    Down(x, i + 1) % 16
  }

  function InsertedFromBack(x: int, w: nat, i: nat): int
    requires w > 0
  {
    Low(x + 1, i + 1) + Up(ElementOf(x, w - 1), i + 1, w + 1) + High(Up(x, 1, w + 1), i + 2)
  }

  function InsertedSelected(x: int, w: nat, di: nat, si: nat): int {
    Low(x + 1, di + 1) + Up(ElementOf(x, si), di + 1, w + 1) + Field(Up(x, 1, w + 1), di + 2, si + 2) + High(x, si + 2)
  }

  function Removed(x: int, w: nat, i: nat): int {
    if x % 16 <= i + 1 then x - 1
    else
      var rot := x % 16 - i - 1;
      var turned := Field(x, i + 1, i + rot + 2);
      Low(x - 1, i + 1) + High(x - 1, i + rot + 2) + Field(Down(turned, 1), i + 1, i + rot + 2)
      + Field(Up(turned, rot, w + 1), i + 1, i + rot + 2)
  }

  function RemovedToBack(x: int, w: nat, i: nat): int
    requires i < w
  {
    Low(x - 1, i + 1) + High(Down(x, 1), i + 1) + Up(High(x, i + 1), w - i - 1, w + 1)
  }

  // ---------- what they do to the digits ----------

  lemma ElementIs(ds: seq<int>, i: nat)
    requires Nibbles(ds) && i + 1 < |ds|
    ensures ElementOf(Num(ds), i) == ds[i + 1]
  {
    hide Num, Down;
    DownNum(ds, i + 1);
    FirstNum(ds[i + 1..]);
  }

  lemma ThreeNum(a: seq<int>, b: seq<int>, c: seq<int>)
    requires |a| == |b| == |c|
    ensures Num(Plus(Plus(a, b), c)) == Num(a) + Num(b) + Num(c)
  {
    hide Num, Plus;
    PlusNum(a, b);
    PlusNum(Plus(a, b), c);
  }

  /** Where position j was before position si was moved to position di. */
  function From(di: nat, si: nat, j: nat): (k: nat) {
    if j == di then si else if di < j <= si then j - 1 else if si <= j < di then j + 1 else j
  }

  /** The word with size n after position si was moved to position di. */
  function MovedDigits(ds: seq<int>, di: nat, si: nat, n: int): (r: seq<int>)
    requires di + 1 < |ds| && si + 1 < |ds|
    ensures |r| == |ds|
  {
    seq(|ds|, k requires 0 <= k < |ds| => if k == 0 then n else ds[From(di, si, k - 1) + 1])
  }

  lemma InsertSum(ds: seq<int>, i: nat)
    requires i + 1 < |ds|
    ensures var w := |ds| - 1;
      var a, b, c := Part(ds[0 := ds[0] + 1], 0, i + 1), One(ds[w], i + 1, w + 1), Part(Raised(ds, 1), i + 2, w + 1);
      Plus(Plus(a, b), c) == MovedDigits(ds, i, w - 1, ds[0] + 1)
  {
  }

  lemma InsertDigits(ds: seq<int>, i: nat)
    requires Nibbles(ds) && i + 1 < |ds| && ds[0] < 15
    ensures InsertedFromBack(Num(ds), |ds| - 1, i) == Num(MovedDigits(ds, i, |ds| - 2, ds[0] + 1))
  {
    hide Num, Low, High, Up, Down, ElementOf, Part, One, Raised, Plus, MovedDigits;
    var w := |ds| - 1;
    var more, up := ds[0 := ds[0] + 1], Raised(ds, 1);
    FirstSet(ds, ds[0] + 1);
    LowNum(more, i + 1);
    ElementIs(ds, w - 1);
    OneNum(ds[w], i + 1, w + 1);
    RaisedNum(ds, 1);
    HighNum(up, i + 2);
    ThreeNum(Part(more, 0, i + 1), One(ds[w], i + 1, w + 1), Part(up, i + 2, w + 1));
    InsertSum(ds, i);
  }

  lemma SelectSum(ds: seq<int>, di: nat, si: nat)
    requires di <= si && si + 1 < |ds|
    ensures var n := |ds|;
      var a, b := Part(ds[0 := ds[0] + 1], 0, di + 1), One(ds[si + 1], di + 1, n);
      var c, d := Part(Raised(ds, 1), di + 2, si + 2), Part(ds, si + 2, n);
      Plus(Plus(Plus(a, b), c), d) == MovedDigits(ds, di, si, ds[0] + 1)
  {
  }

  lemma SelectDigits(ds: seq<int>, di: nat, si: nat)
    requires Nibbles(ds) && di <= si && si + 1 < |ds| && ds[0] < 15
    ensures InsertedSelected(Num(ds), |ds| - 1, di, si) == Num(MovedDigits(ds, di, si, ds[0] + 1))
  {
    hide Num, Low, High, Up, Down, ElementOf, Field, Part, One, Raised, Plus, MovedDigits;
    var n := |ds|;
    var more, up := ds[0 := ds[0] + 1], Raised(ds, 1);
    FirstSet(ds, ds[0] + 1);
    LowNum(more, di + 1);
    ElementIs(ds, si);
    OneNum(ds[si + 1], di + 1, n);
    RaisedNum(ds, 1);
    FieldNum(up, di + 2, si + 2);
    HighNum(ds, si + 2);
    var a, b, c, d := Part(more, 0, di + 1), One(ds[si + 1], di + 1, n), Part(up, di + 2, si + 2), Part(ds, si + 2, n);
    ThreeNum(a, b, c);
    PlusNum(Plus(Plus(a, b), c), d);
    SelectSum(ds, di, si);
  }

  lemma RemoveSum(ds: seq<int>, i: nat)
    requires ds != [] && i + 1 < ds[0] < |ds|
    ensures var s, less, t := ds[0], ds[0 := ds[0] - 1], Part(ds, i + 1, ds[0] + 1);
      var a, b := Part(less, 0, i + 1), Part(less, s + 1, |ds|);
      var c, d := Part(Lowered(t, 1), i + 1, s + 1), Part(Raised(t, s - i - 1), i + 1, s + 1);
      Plus(Plus(Plus(a, b), c), d) == MovedDigits(ds, s - 1, i, s - 1)
  {
  }

  lemma RemoveDigits(ds: seq<int>, i: nat)
    requires Nibbles(ds) && ds != [] && i < ds[0] < |ds|
    ensures Removed(Num(ds), |ds| - 1, i) == Num(MovedDigits(ds, ds[0] - 1, i, ds[0] - 1))
  {
    FirstNum(ds);
    FirstSet(ds, ds[0] - 1);
    if ds[0] == i + 1 {
      assert ds[0 := i] == MovedDigits(ds, i, i, i);
    } else {
      TurnDigits(ds, i);
    }
  }

  lemma TurnDigits(ds: seq<int>, i: nat)
    requires Nibbles(ds) && ds != [] && i + 1 < ds[0] < |ds|
    ensures Removed(Num(ds), |ds| - 1, i) == Num(MovedDigits(ds, ds[0] - 1, i, ds[0] - 1))
  {
    hide Num, Low, High, Up, Down, Field, Part, Lowered, Raised, Plus, MovedDigits;
    var w, s := |ds| - 1, ds[0];
    var less := ds[0 := s - 1];
    FirstNum(ds);
    FirstSet(ds, s - 1);
    LowNum(less, i + 1);
    HighNum(less, s + 1);
    var t := Part(ds, i + 1, s + 1);
    FieldNum(ds, i + 1, s + 1);
    LoweredNum(t, 1);
    FieldNum(Lowered(t, 1), i + 1, s + 1);
    RaisedNum(t, s - i - 1);
    FieldNum(Raised(t, s - i - 1), i + 1, s + 1);
    var a, b, c, d := Part(less, 0, i + 1), Part(less, s + 1, w + 1), Part(Lowered(t, 1), i + 1, s + 1), Part(Raised(t, s - i - 1), i + 1, s + 1);
    ThreeNum(a, b, c);
    PlusNum(Plus(Plus(a, b), c), d);
    RemoveSum(ds, i);
  }

  lemma ToBackSum(ds: seq<int>, i: nat)
    requires i + 1 < |ds|
    ensures var w := |ds| - 1;
      var a, b, c := Part(ds[0 := ds[0] - 1], 0, i + 1), Part(Lowered(ds, 1), i + 1, w + 1), Raised(Part(ds, i + 1, w + 1), w - i - 1);
      Plus(Plus(a, b), c) == MovedDigits(ds, w - 1, i, ds[0] - 1)
  {
  }

  lemma ToBackDigits(ds: seq<int>, i: nat)
    requires Nibbles(ds) && i + 1 < |ds| && ds[0] > 0
    ensures RemovedToBack(Num(ds), |ds| - 1, i) == Num(MovedDigits(ds, |ds| - 2, i, ds[0] - 1))
  {
    hide Num, Low, High, Up, Down, Part, Lowered, Raised, Plus, MovedDigits;
    var w := |ds| - 1;
    var less := ds[0 := ds[0] - 1];
    FirstSet(ds, ds[0] - 1);
    LowNum(less, i + 1);
    LoweredNum(ds, 1);
    HighNum(Lowered(ds, 1), i + 1);
    HighNum(ds, i + 1);
    RaisedNum(Part(ds, i + 1, w + 1), w - i - 1);
    ThreeNum(Part(less, 0, i + 1), Part(Lowered(ds, 1), i + 1, w + 1), Raised(Part(ds, i + 1, w + 1), w - i - 1));
    ToBackSum(ds, i);
  }

  // ---------- the words to begin with ----------

  /** make_empty: size 0, and the slots from the last to the first. */
  function EmptyDigits(w: nat): (r: seq<int>)
    ensures |r| == w + 1 && forall i :: 0 <= i < w + 1 ==> r[i] == if i == 0 then 0 else w - i
  {
    seq(w + 1, i requires 0 <= i < w + 1 => if i == 0 then 0 else w - i)
  }

  /** full_value: the digit above the size is slot 0, and so on upwards. */
  function FullDigits(w: nat): (r: seq<int>)
    ensures |r| == w + 1 && forall i :: 0 <= i < w + 1 ==> r[i] == if i == 0 then 0 else i - 1
  {
    seq(w + 1, i requires 0 <= i < w + 1 => if i == 0 then 0 else i - 1)
  }

  /** make_sorted: size n, the first n slots in order, then the others from the last on. */
  function SortedDigits(w: nat, n: nat): (r: seq<int>)
    ensures |r| == w + 1 && forall i :: 0 <= i < w + 1 ==> r[i] == if i == 0 then n else if i <= n then i - 1 else w + n - i
  {
    seq(w + 1, i requires 0 <= i < w + 1 => if i == 0 then n else if i <= n then i - 1 else w + n - i)
  }

  lemma NextNum(ds: seq<int>, k: nat, x: int)
    requires k < |ds| && Num(ds[k + 1..]) == x
    ensures Num(ds[k..]) == ds[k] + 16 * x
  {
    assert ds[k..][1..] == ds[k + 1..];
  }

  /** At width 15 the first word is initial_value. */
  lemma EmptyWord()
    ensures Num(EmptyDigits(15)) == 0x0123456789ABCDE0
  {
    hide Num;
    var e := EmptyDigits(15);
    NumNone(e[16..]);
    NextNum(e, 15, 0x0);
    NextNum(e, 14, 0x0);
    NextNum(e, 13, 0x1);
    NextNum(e, 12, 0x12);
    NextNum(e, 11, 0x123);
    NextNum(e, 10, 0x1234);
    NextNum(e, 9, 0x12345);
    NextNum(e, 8, 0x123456);
    NextNum(e, 7, 0x1234567);
    NextNum(e, 6, 0x12345678);
    NextNum(e, 5, 0x123456789);
    NextNum(e, 4, 0x123456789A);
    NextNum(e, 3, 0x123456789AB);
    NextNum(e, 2, 0x123456789ABC);
    NextNum(e, 1, 0x123456789ABCD);
    NextNum(e, 0, 0x123456789ABCDE);
    assert e[0..] == e;
  }

  /** And the other is full_value. */
  lemma FullWord()
    ensures Num(FullDigits(15)) == 0xEDCBA98765432100
  {
    hide Num;
    var f := FullDigits(15);
    NumNone(f[16..]);
    NextNum(f, 15, 0x0);
    NextNum(f, 14, 0xE);
    NextNum(f, 13, 0xED);
    NextNum(f, 12, 0xEDC);
    NextNum(f, 11, 0xEDCB);
    NextNum(f, 10, 0xEDCBA);
    NextNum(f, 9, 0xEDCBA9);
    NextNum(f, 8, 0xEDCBA98);
    NextNum(f, 7, 0xEDCBA987);
    NextNum(f, 6, 0xEDCBA9876);
    NextNum(f, 5, 0xEDCBA98765);
    NextNum(f, 4, 0xEDCBA987654);
    NextNum(f, 3, 0xEDCBA9876543);
    NextNum(f, 2, 0xEDCBA98765432);
    NextNum(f, 1, 0xEDCBA987654321);
    NextNum(f, 0, 0xEDCBA9876543210);
    assert f[0..] == f;
  }

  lemma SortedNum(w: nat, n: nat)
    requires 0 < w < 16 && n <= w
    ensures Up(Num(EmptyDigits(w)), n, w + 1) + Low(Num(FullDigits(w)), n + 1) + n == Num(SortedDigits(w, n))
  {
    hide Num, Low, High, Up;
    RaisedNum(EmptyDigits(w), n);
    LowNum(FullDigits(w), n + 1);
    var sum := SortedDigits(w, n)[0 := 0];
    SumNum(Raised(EmptyDigits(w), n), Part(FullDigits(w), 0, n + 1), sum);
    FirstSet(sum, n);
    assert sum[0 := n] == SortedDigits(w, n);
  }

  // ---------- the word as a permutation ----------

  ghost predicate IsPermutation(p: seq<int>) {
    && (forall i :: 0 <= i < |p| ==> 0 <= p[i] < |p|)
    && (forall i, j :: 0 <= i < j < |p| ==> p[i] != p[j])
  }

  /** q is p after position si was moved to position di, and the positions between made room. */
  ghost predicate Moved(p: seq<int>, q: seq<int>, di: nat, si: nat)
    requires di < |p| && si < |p|
  {
    |q| == |p| && forall j :: 0 <= j < |p| ==> q[j] == p[From(di, si, j)]
  }

  lemma MovedPermutes(p: seq<int>, q: seq<int>, di: nat, si: nat)
    requires IsPermutation(p) && di < |p| && si < |p| && Moved(p, q, di, si)
    ensures IsPermutation(q)
  {
    forall i, j | 0 <= i < j < |q| ensures q[i] != q[j] {
      assert From(di, si, i) != From(di, si, j);
      assert q[i] == p[From(di, si, i)] && q[j] == p[From(di, si, j)];
    }
  }

  lemma MovedIs(p: seq<int>, size: int, di: nat, si: nat, n: int)
    requires di < |p| && si < |p|
    ensures var ds := MovedDigits([size] + p, di, si, n); ds == [n] + ds[1..] && Moved(p, ds[1..], di, si)
  {
  }

  class Permuter {
    const width: nat
    var word: int
    ghost var slots: seq<int>
    ghost var size: nat

    /** The word is the size followed by a permutation of the slots. */
    ghost predicate Valid()
      reads this
    {
      && 0 < width < 16 && |slots| == width && size <= width && IsPermutation(slots)
      && word == Num([size] + slots)
    }

    lemma Shaped()
      requires Valid()
      ensures Nibbles([size] + slots) && word % 16 == size
    {
      FirstNum([size] + slots);
    }

    /** make_sorted: the first n slots in use, in order; the others are to be taken in that order. */
    constructor (width: nat, n: nat)
      requires 0 < width < 16 && n <= width
      ensures Valid() && this.width == width && size == n
      ensures forall i :: 0 <= i < n ==> slots[i] == i
      ensures forall i :: n <= i < width ==> slots[i] == width - 1 - (i - n)
    {
      this.width := width;
      word := Up(Num(EmptyDigits(width)), n, width + 1) + Low(Num(FullDigits(width)), n + 1) + n;
      size := n;
      slots := SortedDigits(width, n)[1..];
      SortedNum(width, n);
      assert [n] + SortedDigits(width, n)[1..] == SortedDigits(width, n);
    }

    method Element(i: nat) returns (e: nat)
      requires Valid() && i < width
      ensures e == slots[i] && e < width
    {
      hide Num, ElementOf, Nibbles;
      Shaped();
      ElementIs([size] + slots, i);
      e := ElementOf(word, i);
    }

    /** A new element is taken from the back and put at position i. */
    method InsertFromBack(i: nat) returns (value: nat)
      requires Valid() && i < width && size < width
      modifies this
      ensures Valid() && size == old(size) + 1 && value == old(slots)[width - 1] && Moved(old(slots), slots, i, width - 1)
      ensures forall j :: 0 <= j < old(size) ==> old(slots)[j] != value
    {
      hide Num, InsertedFromBack, MovedDigits, Moved;
      value := Element(width - 1);
      Shaped();
      InsertDigits([size] + slots, i);
      word := InsertedFromBack(word, width, i);
      Retell(i, width - 1, size + 1);
    }

    /** The free element at position si is put at position di. */
    method InsertSelected(di: nat, si: nat)
      requires Valid() && di <= si && size <= si < width
      modifies this
      ensures Valid() && size == old(size) + 1 && Moved(old(slots), slots, di, si)
    {
      hide Num, InsertedSelected, MovedDigits, Moved, IsPermutation;
      Shaped();
      SelectDigits([size] + slots, di, si);
      word := InsertedSelected(word, width, di, si);
      Retell(di, si, size + 1);
    }

    /** The element at position i is taken out and becomes the first free one. */
    method Remove(i: nat)
      requires Valid() && i < size
      modifies this
      ensures Valid() && size == old(size) - 1 && Moved(old(slots), slots, size, i)
    {
      hide Num, Removed, MovedDigits, Moved, IsPermutation;
      Shaped();
      RemoveDigits([size] + slots, i);
      word := Removed(word, width, i);
      Retell(size - 1, i, size - 1);
    }

    /** The element at position i is taken out and becomes the last free one. */
    method RemoveToBack(i: nat)
      requires Valid() && i < size
      modifies this
      ensures Valid() && size == old(size) - 1 && Moved(old(slots), slots, width - 1, i)
    {
      hide Num, RemovedToBack, MovedDigits, Moved, IsPermutation;
      Shaped();
      ToBackDigits([size] + slots, i);
      word := RemovedToBack(word, width, i);
      Retell(width - 1, i, size - 1);
    }

    /** The elements at two positions change places. */
    method Exchange(i: nat, j: nat)
      requires Valid() && i < width && j < width
      modifies this
      ensures Valid() && size == old(size) && slots == old(slots)[i := old(slots)[j]][j := old(slots)[i]]
    {
      hide Num, XorDigit, Xor;
      Shaped();
      ghost var ds := [size] + slots;
      var a := Element(i);
      var b := Element(j);
      var diff := Xor(a, b);
      XorTwice(a, b);
      if i != j {
        XorDigitNum(ds, i + 1, diff);
        ghost var es := ds[i + 1 := Xor(ds[i + 1], diff)];
        XorDigitNum(es, j + 1, diff);
        word := XorDigit(XorDigit(word, i + 1, diff), j + 1, diff);
        ghost var p := slots;
        slots := p[i := p[j]][j := p[i]];
        assert [size] + slots == es[j + 1 := Xor(es[j + 1], diff)];
      }
    }

    /** The size and the slots, told again after the word has changed. */
    ghost method Retell(di: nat, si: nat, n: nat)
      requires 0 < width < 16 && |slots| == width && di < width && si < width && n <= width && IsPermutation(slots)
      requires word == Num(MovedDigits([size] + slots, di, si, n))
      modifies this`size, this`slots
      ensures Valid() && size == n && Moved(old(slots), slots, di, si)
    {
      hide Num, MovedDigits, IsPermutation;
      ghost var p := slots;
      MovedIs(p, size, di, si, n);
      size, slots := n, MovedDigits([size] + slots, di, si, n)[1..];
      MovedPermutes(p, slots, di, si);
    }

    // ---------- searches through the permutation ----------

    /** The keys of the slots in use ascend. */
    ghost predicate Ascends(keys: array<int>)
      reads this, keys
    {
      && Valid() && keys.Length == width && Small()
      && forall i, j :: 0 <= i < j < size ==> keys[slots[i]] < keys[slots[j]]
    }

    ghost predicate Small()
      reads this
    {
      size <= |slots| == width && forall i :: 0 <= i < |slots| ==> 0 <= slots[i] < width
    }

    /** Position i is the place of the key: the keys before it are smaller, the others are not. */
    ghost predicate PlaceOf(keys: array<int>, key: int, i: nat)
      requires Ascends(keys)
      reads this, keys
    {
      && i <= size && (forall j :: 0 <= j < i ==> keys[slots[j]] < key) && (forall j :: i <= j < size ==> key <= keys[slots[j]])
    }

    /** What a lower-bound search returns: the key's place, and its slot or -1. */
    ghost predicate LowerBound(keys: array<int>, key: int, i: nat, p: int)
      requires Ascends(keys)
      reads this, keys
    {
      PlaceOf(keys, key, i) && p == if i < size && keys[slots[i]] == key then slots[i] else -1
    }

    lemma Found(keys: array<int>, m: nat)
      requires Ascends(keys) && m < size
      ensures forall j :: 0 <= j < m ==> keys[slots[j]] < keys[slots[m]]
      ensures forall j :: m < j < size ==> keys[slots[m]] < keys[slots[j]]
    {
    }

    /** key_lower_bound_by */
    method BinaryLowerBound(keys: array<int>, key: int) returns (i: nat, p: int)
      requires Ascends(keys)
      ensures LowerBound(keys, key, i, p)
    {
      hide Num, Nibbles, IsPermutation, Valid;
      var l: nat, r: nat := 0, word % 16;
      Shaped();
      while l < r
        invariant l <= r <= size
        invariant forall j :: 0 <= j < l ==> keys[slots[j]] < key
        invariant forall j :: r <= j < size ==> key < keys[slots[j]]
      {
        var m := (l + r) / 2;
        var mp := Element(m);
        Found(keys, m);
        if key < keys[mp] {
          r := m;
        } else if key == keys[mp] {
          return m, mp;
        } else {
          l := m + 1;
        }
      }
      return l, -1;
    }

    /** key_find_lower_bound_by */
    method LinearLowerBound(keys: array<int>, key: int) returns (i: nat, p: int)
      requires Ascends(keys)
      ensures LowerBound(keys, key, i, p)
    {
      hide Num, Nibbles, IsPermutation, Valid;
      var l: nat, r: nat := 0, word % 16;
      Shaped();
      while l < r
        invariant l <= r == size
        invariant forall j :: 0 <= j < l ==> keys[slots[j]] < key
      {
        var lp := Element(l);
        if key < keys[lp] {
          return l, -1;
        } else if key == keys[lp] {
          return l, lp;
        }
        l := l + 1;
      }
      return l, -1;
    }

    /** So the two searches agree. */
    lemma SearchesAgree(keys: array<int>, key: int, i: nat, p: int, j: nat, q: int)
      requires Ascends(keys) && LowerBound(keys, key, i, p) && LowerBound(keys, key, j, q)
      ensures i == j && p == q
    {
    }

    /** What an upper-bound search returns: how many keys are at most the key. */
    ghost predicate UpperBound(keys: array<int>, key: int, i: nat)
      requires Ascends(keys)
      reads this, keys
    {
      && i <= size && (forall j :: 0 <= j < i ==> keys[slots[j]] <= key) && (forall j :: i <= j < size ==> key < keys[slots[j]])
    }

    /** key_upper_bound_by */
    method BinaryUpperBound(keys: array<int>, key: int) returns (i: nat)
      requires Ascends(keys)
      ensures UpperBound(keys, key, i)
    {
      hide Num, Nibbles, IsPermutation, Valid;
      var l: nat, r: nat := 0, word % 16;
      Shaped();
      while l < r
        invariant l <= r <= size
        invariant forall j :: 0 <= j < l ==> keys[slots[j]] < key
        invariant forall j :: r <= j < size ==> key < keys[slots[j]]
      {
        var m := (l + r) / 2;
        var mp := Element(m);
        Found(keys, m);
        if key < keys[mp] {
          r := m;
        } else if key == keys[mp] {
          return m + 1;
        } else {
          l := m + 1;
        }
      }
      return l;
    }

    /** key_find_upper_bound_by */
    method LinearUpperBound(keys: array<int>, key: int) returns (i: nat)
      requires Ascends(keys)
      ensures UpperBound(keys, key, i)
    {
      hide Num, Nibbles, IsPermutation, Valid;
      var l: nat, r: nat := 0, word % 16;
      Shaped();
      while l < r
        invariant l <= r == size
        invariant forall j :: 0 <= j < l ==> keys[slots[j]] <= key
      {
        var lp := Element(l);
        if key < keys[lp] {
          break;
        }
        l := l + 1;
      }
      return l;
    }
  }
}
