/**
 The pages of the optimistic B+-tree, edited in place: leaves with keys and payloads, inner nodes with keys and
 children. Each edit does to the arrays what the protocol's steps do to sequences.
 */
module OlcNodes {
  import opened Options
  import opened Ordered
  import opened Arrays
  import opened Olc

  /**
   The binary search of both kinds of node; it looks at the first key before it looks at the count, so on an empty
   page the answer is 0 or 1 depending on what the array held before.
   */
  method LowerBound(keys: array<int>, count: nat, k: int) returns (pos: nat)
    requires count <= keys.Length && 0 < keys.Length && Sorted(keys[..count])
    ensures count > 0 ==> pos == Rank(keys[..count], k)
    ensures count == 0 ==> pos <= 1
  {
    var lower, upper := 0, count;
    ghost var s := keys[..count];
    assert forall i :: 0 <= i < count ==> s[i] == keys[i];
    var first := true;
    while first || lower < upper
      invariant 0 <= lower <= upper <= count || (count == 0 && !first && lower <= 1 && upper == 0)
      invariant count > 0 && first ==> lower < upper
      invariant lower > 0 && count > 0 ==> s[lower - 1] < k
      invariant upper < count ==> k < s[upper]
      decreases first, upper - lower
    {
      first := false;
      var mid := (upper - lower) / 2 + lower;
      if k < keys[mid] {
        upper := mid;
      } else if k > keys[mid] {
        lower := mid + 1;
      } else {
        if count > 0 {
          RankIs(s, k, mid);
        }
        return mid;
      }
    }
    if count > 0 {
      RankIs(s, k, lower);
    }
    return lower;
  }

  lemma KeyKept(s: seq<int>, pos: nat, k: int)
    requires Sorted(s) && pos == Rank(s, k) && k !in s
    ensures Sorted(InsertAt(s, pos, k))
  {
    var r := InsertAt(s, pos, k);
    forall i, j | 0 <= i < j < |r| ensures r[i] < r[j] {
      assert i != pos ==> r[i] == s[if i < pos then i else i - 1];
      assert j != pos ==> r[j] == s[if j < pos then j else j - 1];
    }
  }

  lemma PairKept(b: Body, k: int, p: int)
    requires b.Leaf? && |b.keys| == |b.vals| && Sorted(b.keys)
    ensures Sorted(WithPair(b, k, p).keys)
  {
    if k !in b.keys {
      KeyKept(b.keys, Rank(b.keys, k), k);
    }
  }

  /** Opening a place puts the child on the left of its neighbour; the swap mends that. */
  method AddRight(a: array<Id>, n: nat, pos: nat, x: Id)
    requires pos < n < a.Length
    modifies a
    ensures a[..n + 1] == InsertAt(old(a[..n]), pos + 1, x)
  {
    ghost var s := a[..n];
    OpenAt(a, n, pos, x);
    ghost var r := InsertAt(s, pos, x);
    assert r[pos + 1] == s[pos] && r[pos] == x;
    assert a[..n + 1][pos + 1] == s[pos] && a[..n + 1][pos] == x;
    a[pos], a[pos + 1] := a[pos + 1], a[pos];
    assert a[..n + 1] == r[pos := s[pos]][pos + 1 := x];
    assert InsertAt(s, pos + 1, x) == r[pos := s[pos]][pos + 1 := x];
  }

  class LeafPage {
    const keys: array<int>
    const payloads: array<int>
    var count: nat

    ghost predicate Valid()
      reads this, keys
    {
      && keys != payloads && keys.Length == payloads.Length >= 2 && count <= keys.Length && Sorted(keys[..count])
    }

    ghost function Content(): Body
      requires Valid()
      reads this, keys, payloads
    {
      Leaf(keys[..count], payloads[..count])
    }

    constructor (max: nat)
      requires max >= 2
      ensures Valid() && fresh(keys) && fresh(payloads) && keys.Length == max && Content() == Leaf([], [])
    {
      keys := new int[max];
      payloads := new int[max];
      count := 0;
    }

    /** The pair is stored, in the place of the old payload if the key is there. */
    method Insert(k: int, p: int)
      requires Valid() && count < keys.Length
      modifies this, keys, payloads
      ensures Valid() && Content() == WithPair(old(Content()), k, p)
    {
      ghost var b := Content();
      PairKept(b, k, p);
      if count > 0 {
        var pos := LowerBound(keys, count, k);
        if pos < count && keys[pos] == k {
          payloads[pos] := p;
          assert payloads[..count] == b.vals[pos := p];
          return;
        }
        OpenAt(keys, count, pos, k);
        OpenAt(payloads, count, pos, p);
      } else {
        keys[0], payloads[0] := k, p;
        assert keys[..1] == InsertAt(b.keys, 0, k) && payloads[..1] == InsertAt(b.vals, 0, p);
      }
      count := count + 1;
    }

    /** The upper half moves to a new page; the separator is the last key that stays. */
    method Split() returns (right: LeafPage, sep: int)
      requires Valid() && count == keys.Length
      modifies this
      ensures fresh(right) && fresh(right.keys) && fresh(right.payloads) && Valid() && right.Valid()
      ensures Content() == LeftHalf(old(Content())) && right.Content() == RightHalf(old(Content()))
      ensures sep == Separator(old(Content()))
    {
      ghost var b := Content();
      right := new LeafPage(keys.Length);
      right.count := count - count / 2;
      count := count - right.count;
      CopyTo(keys, count, right.count, right.keys);
      CopyTo(payloads, count, right.count, right.payloads);
      sep := keys[count - 1];
      assert count == |b.keys| / 2;
      assert keys[..count] == b.keys[..count] && payloads[..count] == b.vals[..count];
      assert right.keys[..right.count] == b.keys[count..] && right.payloads[..right.count] == b.vals[count..];
    }

    method Find(k: int) returns (r: Option<int>)
      requires Valid()
      ensures r == Get(Content(), k)
    {
      var pos := LowerBound(keys, count, k);
      if pos < count && keys[pos] == k {
        return Some(payloads[pos]);
      }
      return None;
    }
  }

  class InnerPage {
    const keys: array<int>
    const children: array<Id>
    var count: nat

    ghost predicate Valid()
      reads this, keys
    {
      && keys != children && keys.Length == children.Length >= 5 && count < keys.Length && Sorted(keys[..count])
    }

    ghost function Content(): Body
      requires Valid()
      reads this, keys, children
    {
      Inner(keys[..count], children[..count + 1])
    }

    constructor (max: nat)
      requires max >= 5
      ensures Valid() && fresh(keys) && fresh(children) && keys.Length == max && count == 0
    {
      keys := new int[max];
      children := new Id[max];
      count := 0;
    }

    /** The child in whose direction the key lies. */
    method Route(k: int) returns (c: Id)
      requires Valid() && count > 0
      ensures c == Child(Content(), k)
    {
      var pos := LowerBound(keys, count, k);
      return children[pos];
    }

    /** The separator is put in, and the child to its right. */
    method Insert(k: int, child: Id)
      requires Valid() && 0 < count < keys.Length - 1 && k !in keys[..count]
      modifies this, keys, children
      ensures Valid() && Content() == WithChild(old(Content()), k, child)
    {
      ghost var b := Content();
      var pos := LowerBound(keys, count, k);
      KeyKept(b.keys, pos, k);
      OpenAt(keys, count, pos, k);
      AddRight(children, count + 1, pos, child);
      count := count + 1;
    }

    /** The middle key goes up; the keys and children right of it move to a new page. */
    method Split() returns (right: InnerPage, sep: int)
      requires Valid() && count == keys.Length - 1
      modifies this
      ensures fresh(right) && fresh(right.keys) && fresh(right.children) && Valid() && right.Valid() && count > 0 && right.count > 0
      ensures Content() == LeftHalf(old(Content())) && right.Content() == RightHalf(old(Content()))
      ensures sep == Separator(old(Content()))
    {
      ghost var b := Content();
      right := new InnerPage(keys.Length);
      right.count := count - count / 2;
      count := count - right.count - 1;
      sep := keys[count];
      CopyTo(keys, count + 1, right.count, right.keys);
      CopyTo(children, count + 1, right.count + 1, right.children);
      assert count == |b.keys| / 2 - 1;
      assert keys[..count] == b.keys[..count] && children[..count + 1] == b.kids[..count + 1];
      assert right.keys[..right.count] == b.keys[count + 1..] && right.children[..right.count + 1] == b.kids[count + 1..];
    }
  }
}
