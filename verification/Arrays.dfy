/** The memmove and memcpy by which nodes edit their arrays. */
module Arrays {
  import opened Ordered

  /** The memmove that opens a place in the first n elements of an array, and the store into it. */
  method OpenAt(a: array<int>, n: nat, pos: nat, x: int)
    requires pos <= n < a.Length
    modifies a
    ensures a[..n + 1] == InsertAt(old(a[..n]), pos, x)
  {
    ghost var s := a[..n];
    forall i | pos < i <= n {
      a[i] := a[i - 1];
    }
    a[pos] := x;
    forall i | 0 <= i < n + 1 ensures a[..n + 1][i] == InsertAt(s, pos, x)[i] {
    }
  }

  /** The memmove that closes a place. */
  method CloseAt(a: array<int>, n: nat, pos: nat)
    requires pos < n <= a.Length
    modifies a
    ensures a[..n - 1] == RemoveAt(old(a[..n]), pos)
  {
    ghost var s := a[..n];
    forall i | pos <= i < n - 1 {
      a[i] := a[i + 1];
    }
    forall i | 0 <= i < n - 1 ensures a[..n - 1][i] == RemoveAt(s, pos)[i] {
    }
  }

  /** The memcpy of n elements of one array, from a place on, to the front of another. */
  method CopyTo(a: array<int>, from: nat, n: nat, b: array<int>)
    requires from + n <= a.Length && n <= b.Length && a != b
    modifies b
    ensures b[..n] == a[from..from + n]
  {
    forall i | 0 <= i < n {
      b[i] := a[from + i];
    }
  }

  /** The memmove of n elements from a place to the front. */
  method SlideDown(a: array<int>, from: nat, n: nat)
    requires from + n <= a.Length
    modifies a
    ensures a[..n] == old(a[from..from + n])
  {
    forall i | 0 <= i < n {
      a[i] := a[from + i];
    }
  }

  /** The memmove of the first n elements to a place further on. */
  method SlideUp(a: array<int>, n: nat, up: nat)
    requires up + n <= a.Length
    modifies a
    ensures a[up..up + n] == old(a[..n])
  {
    forall i | 0 <= i < n {
      a[up + i] := a[i];
    }
  }
}
