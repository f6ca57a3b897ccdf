/** What a thread's limbo list means: a queue of retired pointers, each with the epoch in which it was retired. */
module LimboQueue {

  /** A slot of a limbo group: a pointer with its tag, or, if the pointer is 0, a marker with an epoch. */
  datatype Element = Element(ptr: int, u: int)

  datatype Item = Item(ptr: int, tag: int, epoch: int)

  /** The pointers of a run of slots, each with the epoch of the last marker before it. */
  function Items(s: seq<Element>, epoch: int): (r: seq<Item>)
    ensures |r| <= |s|
  {
    if s == [] then []
    else if s[0].ptr == 0 then Items(s[1..], s[0].u)
    else [Item(s[0].ptr, s[0].u, epoch)] + Items(s[1..], epoch)
  }

  /** The epoch in force after a run of slots. */
  function LastEpoch(s: seq<Element>, epoch: int): int {
    if s == [] then epoch else LastEpoch(s[1..], if s[0].ptr == 0 then s[0].u else epoch)
  }

  /** Epochs do not go down. */
  ghost predicate Rising(s: seq<Element>, epoch: int) {
    s == [] || (if s[0].ptr == 0 then epoch <= s[0].u && Rising(s[1..], s[0].u) else Rising(s[1..], epoch))
  }

  function Concat(parts: seq<seq<Element>>): seq<Element> {
    if parts == [] then [] else parts[0] + Concat(parts[1..])
  }

  /** What a reclamation frees: from the front, no more than n, none of an epoch after the bound. */
  ghost function Take(q: seq<Item>, bound: int, n: nat): seq<Item> {
    if n == 0 || q == [] || q[0].epoch > bound then [] else [q[0]] + Take(q[1..], bound, n - 1)
  }

  // ---------- runs of slots ----------

  lemma {:induction false} ItemsMore(a: seq<Element>, b: seq<Element>, epoch: int)
    ensures Items(a + b, epoch) == Items(a, epoch) + Items(b, LastEpoch(a, epoch))
    ensures LastEpoch(a + b, epoch) == LastEpoch(b, LastEpoch(a, epoch))
    decreases |a|
  {
    if a == [] {
      assert a + b == b;
    } else {
      assert (a + b)[1..] == a[1..] + b && (a + b)[0] == a[0];
      ItemsMore(a[1..], b, if a[0].ptr == 0 then a[0].u else epoch);
    }
  }

  lemma {:induction false} RisingMore(a: seq<Element>, b: seq<Element>, epoch: int)
    ensures Rising(a + b, epoch) <==> Rising(a, epoch) && Rising(b, LastEpoch(a, epoch))
    decreases |a|
  {
    if a == [] {
      assert a + b == b;
    } else {
      assert (a + b)[1..] == a[1..] + b && (a + b)[0] == a[0];
      RisingMore(a[1..], b, if a[0].ptr == 0 then a[0].u else epoch);
    }
  }

  /** With rising epochs nothing is older than the epoch in force. */
  lemma {:induction false} RisingItems(s: seq<Element>, epoch: int, i: nat)
    requires Rising(s, epoch) && i < |Items(s, epoch)|
    ensures Items(s, epoch)[i].epoch >= epoch
    decreases |s|
  {
    if s[0].ptr == 0 {
      RisingItems(s[1..], s[0].u, i);
    } else if i > 0 {
      RisingItems(s[1..], epoch, i - 1);
    }
  }

  lemma {:induction false} RisingLast(s: seq<Element>, epoch: int)
    requires Rising(s, epoch)
    ensures LastEpoch(s, epoch) >= epoch
    decreases |s|
  {
    if s != [] {
      RisingLast(s[1..], if s[0].ptr == 0 then s[0].u else epoch);
    }
  }

  /** A run that starts with a marker does not depend on the epoch before it. */
  lemma Started(s: seq<Element>, a: int, b: int)
    requires s == [] || s[0].ptr == 0
    ensures Items(s, a) == Items(s, b) && (s != [] ==> LastEpoch(s, a) == LastEpoch(s, b))
  {
  }

  lemma RisingLower(s: seq<Element>, a: int, b: int)
    requires Rising(s, a) && b <= a
    ensures Rising(s, b)
  {
    if s != [] && s[0].ptr != 0 {
      RisingLower(s[1..], a, b);
    }
  }

  lemma {:induction false} ConcatMore(a: seq<seq<Element>>, b: seq<seq<Element>>)
    ensures Concat(a + b) == Concat(a) + Concat(b)
    decreases |a|
  {
    if a == [] {
      assert a + b == b;
    } else {
      assert (a + b)[1..] == a[1..] + b && (a + b)[0] == a[0];
      ConcatMore(a[1..], b);
      assert a[0] + (Concat(a[1..]) + Concat(b)) == (a[0] + Concat(a[1..])) + Concat(b);
    }
  }

  lemma {:induction false} ConcatEmpty(a: seq<seq<Element>>)
    requires forall i :: 0 <= i < |a| ==> a[i] == []
    ensures Concat(a) == []
  {
    if a != [] {
      ConcatEmpty(a[1..]);
    }
  }

  // ---------- what is freed ----------

  /** Items from the front that are old enough, up to the number allowed or up to one that is too young. */
  lemma {:induction false} TakeIs(freed: seq<Item>, rest: seq<Item>, bound: int, n: nat)
    requires |freed| <= n && (forall i :: 0 <= i < |freed| ==> freed[i].epoch <= bound)
    requires |freed| == n || rest == [] || rest[0].epoch > bound
    ensures Take(freed + rest, bound, n) == freed
    decreases |freed|
  {
    if freed == [] {
      assert freed + rest == rest;
    } else {
      assert (freed + rest)[1..] == freed[1..] + rest && (freed + rest)[0] == freed[0];
      TakeIs(freed[1..], rest, bound, n - 1);
    }
  }

  /** Take frees a prefix, no more than n, nothing too young, and stops only where it must. */
  lemma {:induction false} TakeDoes(q: seq<Item>, bound: int, n: nat)
    ensures var f := Take(q, bound, n);
      && |f| <= n && f <= q && (forall i :: 0 <= i < |f| ==> f[i].epoch <= bound)
      && (|f| == n || f == q || q[|f|].epoch > bound)
    decreases n
  {
    if n > 0 && q != [] && q[0].epoch <= bound {
      TakeDoes(q[1..], bound, n - 1);
    }
  }

  // ---------- cleaning a run of slots ----------

  /** The first k slots have been passed, and what was in them freed; now is the epoch in force. */
  ghost predicate Cleaned(all: seq<Element>, k: nat, now: int, freed: seq<Item>, bound: int) {
    && k <= |all| && 0 <= now && Items(all, 0) == freed + Items(all[k..], now) && LastEpoch(all, 0) == LastEpoch(all[k..], now)
    && Rising(all[k..], now) && (k > 0 ==> now <= bound) && (forall i :: 0 <= i < |freed| ==> freed[i].epoch <= bound)
  }

  lemma CleanNone(all: seq<Element>, bound: int)
    requires Rising(all, 0)
    ensures Cleaned(all, 0, 0, [], bound)
  {
    assert all[0..] == all;
  }

  lemma CleanEntry(all: seq<Element>, k: nat, now: int, freed: seq<Item>, bound: int)
    requires Cleaned(all, k, now, freed, bound) && k < |all| && all[k].ptr != 0 && k > 0
    ensures Cleaned(all, k + 1, now, freed + [Item(all[k].ptr, all[k].u, now)], bound)
  {
    assert all[k..][1..] == all[k + 1..] && all[k..][0] == all[k];
  }

  lemma CleanMarker(all: seq<Element>, k: nat, now: int, freed: seq<Item>, bound: int)
    requires Cleaned(all, k, now, freed, bound) && k < |all| && all[k].ptr == 0 && all[k].u <= bound
    ensures Cleaned(all, k + 1, all[k].u, freed, bound)
  {
    assert all[k..][1..] == all[k + 1..] && all[k..][0] == all[k];
  }

  /** Whether cleaning has stopped at slot k, or in it with a marker put there, what is left is a group again. */
  lemma CleanStops(all: seq<Element>, k: nat, now: int, freed: seq<Item>, bound: int, rest: seq<Element>)
    requires Cleaned(all, k, now, freed, bound)
    requires rest == [Element(0, now)] + all[k..] || (rest == all[k..] && (k == |all| || all[k].ptr == 0))
    ensures Items(all, 0) == freed + Items(rest, 0) && Rising(rest, 0)
    ensures rest != [] ==> LastEpoch(rest, 0) == LastEpoch(all, 0) && rest[0].ptr == 0 && rest[0].u >= 0
    ensures forall i :: 0 <= i < |freed| ==> freed[i].epoch <= bound
  {
    if rest == all[k..] {
      Started(rest, now, 0);
      RisingLower(rest, now, 0);
    } else {
      assert rest[1..] == all[k..];
    }
  }
}
