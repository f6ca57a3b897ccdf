/** The limbo groups of a Masstree thread: a list of arrays that holds the queue of what the thread has retired. */
module Limbo {
  import opened LimboQueue

  class Group {
    const e: array<Element>
    var head: nat
    var tail: nat
    var epoch: int
    var next: Group?

    ghost predicate Sized()
      reads this`head, this`tail
    {
      head <= tail <= e.Length && e.Length >= 2 && (head == tail ==> head == 0)
    }

    ghost function Content(): seq<Element>
      requires Sized()
      reads this`head, this`tail, e
    {
      e[head..tail]
    }

    /** A group that holds something starts with a marker, and knows its last epoch. */
    ghost predicate Valid()
      reads this`head, this`tail, this`epoch, e
    {
      && Sized()
      && (head < tail ==> e[head].ptr == 0 && e[head].u >= 0 && Rising(Content(), 0) && LastEpoch(Content(), 0) == epoch)
    }

    ghost predicate Is(part: seq<Element>)
      reads this`head, this`tail, this`epoch, e
    {
      Valid() && Content() == part
    }

    lemma Holds(part: seq<Element>)
      requires Is(part)
      ensures Valid() && Content() == part && (head == tail <==> part == []) && (part == [] ==> head == tail == 0)
      ensures part != [] ==> part[0].ptr == 0 && part[0] == e[head] && LastEpoch(part, 0) == epoch && tail > 0
    {
    }

    lemma Known()
      requires Valid()
      ensures Is(Content()) && (head == tail <==> Content() == []) && (head < tail ==> Content()[0] == e[head] && e[head].ptr == 0)
      ensures head < tail ==> Rising(Content(), 0)
    {
    }

    constructor (capacity: nat)
      requires capacity >= 2
      ensures Is([]) && head == tail == 0 && next == null && e.Length == capacity && fresh(e)
    {
      e := new Element[capacity](_ => Element(0, 0));
      head, tail, epoch, next := 0, 0, 0, null;
    }

    /** Retire a pointer at an epoch: a marker is put before it if it starts a group or an epoch. */
    method PushBack(ptr: int, tag: int, now: int)
      requires Valid() && tail + 2 <= e.Length && ptr != 0 && 0 <= now && (head < tail ==> epoch <= now)
      modifies this`tail, this`epoch, e
      ensures Valid() && head < tail && head == old(head) && epoch == now && old(tail) < tail
      ensures Is(old(Content()) +
        (if old(head) == old(tail) || old(epoch) != now then [Element(0, now)] else []) + [Element(ptr, tag)])
    {
      ghost var s := Content();
      if head == tail || epoch != now {
        e[tail] := Element(0, now);
        epoch := now;
        tail := tail + 1;
        assert Content() == s + [Element(0, now)];
      }
      ghost var m := Content();
      e[tail] := Element(ptr, tag);
      tail := tail + 1;
      assert Content() == m + [Element(ptr, tag)];
      Pushed(s, m, ptr, tag, now);
    }

    static lemma RisingNone()
      ensures Rising([], 0)
    {
    }

    static lemma Pushed(s: seq<Element>, m: seq<Element>, ptr: int, tag: int, now: int)
      requires ptr != 0 && 0 <= now && Rising(s, 0) && (s == [] || LastEpoch(s, 0) <= now)
      requires m == s + [Element(0, now)] || (m == s && s != [] && LastEpoch(s, 0) == now)
      ensures Rising(m + [Element(ptr, tag)], 0) && LastEpoch(m + [Element(ptr, tag)], 0) == now
    {
      RisingMore(s, [Element(0, now)], 0);
      ItemsMore(s, [Element(0, now)], 0);
      RisingMore(m, [Element(ptr, tag)], 0);
      ItemsMore(m, [Element(ptr, tag)], 0);
    }

    /**
     Free from the front until count pointers are freed or a marker is past the bound. Where the count runs out, the
     slot of the last pointer freed becomes a marker with its epoch, so that the group still starts with one.
     */
    method CleanUntil(bound: int, count: nat) returns (left: nat, freed: seq<Item>)
      requires Valid() && count > 0
      modifies this`head, this`tail, e
      ensures Valid() && left == count - |freed| && (left == 0 ==> head < tail)
      ensures Items(old(Content()), 0) == freed + Items(Content(), 0)
      ensures forall i :: 0 <= i < |freed| ==> freed[i].epoch <= bound
      ensures left > 0 && head < tail ==> e[head].u > bound
      ensures head < tail ==> LastEpoch(Content(), 0) == LastEpoch(old(Content()), 0)
    {
      hide Items, LastEpoch, Rising, Cleaned;
      ghost var all := Content();
      var now := 0;
      left, freed := count, [];
      ghost var h := head;
      RisingNone();
      CleanNone(all, bound);
      while head != tail
        invariant h <= head <= tail == h + |all| && e[..] == old(e[..])
        invariant left == count - |freed| > 0 && (h < tail ==> all[0].ptr == 0)
        invariant Cleaned(all, head - h, now, freed, bound)
        decreases tail - head
      {
        ghost var k := head - h;
        assert all[k] == e[head];
        if e[head].ptr != 0 {
          CleanEntry(all, k, now, freed, bound);
          freed := freed + [Item(e[head].ptr, e[head].u, now)];
          left := left - 1;
          if left == 0 {
            e[head] := Element(0, now);
            assert Content() == [Element(0, now)] + all[k + 1..];
            CleanStops(all, k + 1, now, freed, bound, Content());
            return;
          }
        } else {
          if bound < e[head].u {
            assert Content() == all[k..];
            CleanStops(all, k, now, freed, bound, Content());
            return;
          }
          CleanMarker(all, k, now, freed, bound);
          now := e[head].u;
        }
        head := head + 1;
      }
      head, tail := 0, 0;
      assert Content() == all[|all|..];
      CleanStops(all, |all|, now, freed, bound, Content());
    }
  }

  /** The most pointers one reclamation frees. */
  const FREE_COUNT: nat := 128

  class Queue {
    const capacity: nat
    var first: Group
    var last: Group
    var gcEpoch: int
    ghost var chain: seq<Group>
    ghost var parts: seq<seq<Element>>
    ghost var at: nat

    ghost function Arrays(): set<object>
      reads this`chain
    {
      set i | 0 <= i < |chain| :: chain[i].e
    }

    /** The groups on the chain of next pointers, no two the same. */
    ghost predicate Linked()
      reads this`chain, this`last, this`at, chain
    {
      && 0 <= at < |chain| && last == chain[at] && capacity >= 2
      && (forall i :: 0 <= i < |chain| ==> chain[i].e.Length == capacity)
      && Chained(chain) && Apart(chain)
    }

    /** What each group holds; the groups behind the last one in use are empty. */
    ghost predicate Filled()
      reads this`chain, this`parts, this`at, chain, Arrays()
    {
      && |parts| == |chain|
      && (forall i :: 0 <= i < |chain| ==> chain[i].Is(parts[i]))
      && (forall i :: at < i < |chain| ==> parts[i] == [])
    }

    ghost function Elements(): seq<Element>
      reads this`parts, this`at
    {
      if at < |parts| then Concat(parts[..at + 1]) else []
    }

    /** What is retired and not yet freed, in the order in which it was retired. */
    ghost function Pending(): seq<Item>
      reads this`parts, this`at
    {
      Items(Elements(), 0)
    }

    ghost predicate Valid()
      reads this`chain, this`parts, this`at, this`first, this`last, chain, Arrays()
    {
      && Linked() && Filled() && first == chain[0] && (parts[0] == [] ==> at == 0) && Rising(Elements(), 0)
    }

    constructor (capacity: nat)
      requires capacity >= 2
      ensures Valid() && Pending() == [] && |chain| == 1 && fresh(chain) && fresh(Arrays())
    {
      this.capacity := capacity;
      var g := new Group(capacity);
      first, last, gcEpoch, chain, parts, at := g, g, 0, [g], [[]], 0;
      new;
      assert parts[..1] == [[]];
    }

    lemma NextOf(i: nat)
      requires Linked() && i < |chain|
      ensures chain[i].next == if i + 1 < |chain| then chain[i + 1] else null
    {
      if i + 1 < |chain| {
        assert chain[i + 1] == chain[i + 1];
      }
    }

    // ---------- retiring ----------

    /** Go on to the next group, which is empty; make one if there is none. */
    method Refill()
      requires Valid() && parts[at] != []
      modifies this, chain
      ensures Valid() && parts[at] == [] && Elements() == old(Elements())
      ensures old(chain) <= chain && fresh(Arrays() - old(Arrays())) && fresh(set g | g in chain && g !in old(chain))
      ensures last.head == last.tail == 0
    {
      hide Rising, Concat, Group.Is;
      if last.next == null {
        NextOf(at);
        Grow();
      }
      Step();
    }

    method Step()
      requires Valid() && parts[at] != [] && at < |chain| - 1
      modifies this`last, this`at
      ensures Valid() && parts[at] == [] && Elements() == old(Elements()) && last.head == last.tail == 0
    {
      hide Rising, Concat, Group.Is;
      assert chain[at + 1] == last.next && chain[at + 1].Is([]);
      chain[at + 1].Holds([]);
      SplitLast(parts, at + 1);
      assert Concat(parts[..at + 1]) + [] == Concat(parts[..at + 1]);
      last, at := last.next, at + 1;
    }

    method Grow()
      requires Valid() && at == |chain| - 1
      modifies this`chain, this`parts, last`next
      ensures Valid() && |chain| == old(|chain|) + 1 && chain[..old(|chain|)] == old(chain) && Elements() == old(Elements())
      ensures parts == old(parts) + [[]] && at == old(at)
      ensures fresh(chain[|chain| - 1]) && fresh(chain[|chain| - 1].e)
    {
      hide Rising, Concat, Group.Is, Apart, Linked, Filled;
      FirstIs();
      var g := new Group(capacity);
      Hook(g);
      Extend(g);
    }

    method Hook(g: Group)
      requires Linked() && Filled() && at == |chain| - 1 && g.next == null && (forall i :: 0 <= i < |chain| ==> chain[i] != g)
      modifies last`next
      ensures Filled() && Apart(chain) && Chained(chain + [g]) && last == chain[at]
      ensures capacity >= 2 && forall i :: 0 <= i < |chain| ==> chain[i].e.Length == capacity
    {
      hide Rising, Concat, Group.Is;
      last.next := g;
      ghost var c := chain + [g];
      forall i | 0 <= i < |c| - 1 ensures c[i].next == c[i + 1] {
        assert i < at ==> chain[i] != chain[at];
      }
    }

    ghost method Extend(g: Group)
      requires Filled() && Apart(chain) && Chained(chain + [g]) && at == |chain| - 1 && last == chain[at] && g.Is([])
      requires capacity >= 2 && g.e.Length == capacity && forall i :: 0 <= i < |chain| ==> chain[i].e.Length == capacity
      requires (forall i :: 0 <= i < |chain| ==> chain[i] != g && chain[i].e != g.e)
      modifies this`chain, this`parts
      ensures Linked() && Filled() && chain == old(chain) + [g] && parts == old(parts) + [[]]
      ensures parts[..at + 1] == old(parts)[..at + 1]
    {
      hide Rising, Concat, Group.Is, Apart, Chained;
      ApartMore(chain, g);
      chain, parts := chain + [g], parts + [[]];
    }

    /** Retire a pointer at an epoch that is no earlier than those before: it goes to the end of the queue. */
    method Record(ptr: int, tag: int, now: int)
      requires Valid() && ptr != 0 && 0 <= now && LastEpoch(Elements(), 0) <= now
      modifies this, chain, Arrays()
      ensures Valid() && Pending() == old(Pending()) + [Item(ptr, tag, now)]
      ensures old(chain) <= chain
    {
      hide Rising, Items, LastEpoch, Concat, Group.Is, Apart, Chained;
      if last.tail + 2 > capacity {
        chain[at].Holds(parts[at]);
        Refill();
      }
      Push(ptr, tag, now);
    }

    method Push(ptr: int, tag: int, now: int)
      requires Valid() && ptr != 0 && 0 <= now && LastEpoch(Elements(), 0) <= now && last.tail + 2 <= capacity
      modifies this`parts, last, last.e
      ensures Valid() && Pending() == old(Pending()) + [Item(ptr, tag, now)] && chain == old(chain)
    {
      hide Rising, Items, LastEpoch, Concat, Group.Is, Linked, Filled;
      Within(at);
      Within'(at);
      ghost var before, part, p := Concat(parts[..at]), parts[at], parts;
      SplitLast(parts, at);
      chain[at].Holds(part);
      if part != [] {
        LastOfPart(before, part);
      }
      if part == [] || last.epoch != now {
        PushedMarked(before, part, ptr, tag, now);
      } else {
        PushedPlain(before, part, ptr, tag, now);
      }
      PushLast(ptr, tag, now);
      assert parts[..at] == p[..at];
      SplitLast(parts, at);
    }

    method PushLast(ptr: int, tag: int, now: int)
      requires Linked() && Filled() && ptr != 0 && 0 <= now && last.tail + 2 <= capacity && (parts[at] != [] ==> last.epoch <= now)
      modifies this`parts, last`tail, last`epoch, last.e
      ensures Linked() && Filled() && old(at < |parts|)
      ensures parts == old(parts)[at := old(parts[at]) +
        (if old(parts[at]) == [] || old(last.epoch) != now then [Element(0, now)] else []) + [Element(ptr, tag)]]
    {
      hide Rising, Items, LastEpoch, Concat, Group.Is;
      last.Holds(parts[at]);
      ghost var more := parts[at] + (if parts[at] == [] || last.epoch != now then [Element(0, now)] else []) + [Element(ptr, tag)];
      last.PushBack(ptr, tag, now);
      parts := parts[at := more];
    }

    // ---------- reclaiming ----------

    /** In the course of a reclamation: the first k groups of the chain have been emptied, and first has moved past them. */
    ghost predicate Midway(k: nat, bound: int, count: nat, freed: seq<Item>, all: seq<Item>)
      reads this`chain, this`parts, this`at, this`first, this`last, chain, Arrays()
    {
      && Linked() && Filled() && k <= at && first == chain[k] && (forall i :: 0 <= i < k ==> parts[i] == [])
      && |freed| + count == FREE_COUNT && (forall i :: 0 <= i < |freed| ==> freed[i].epoch <= bound)
      && Rising(Concat(parts[k..at + 1]), 0) && all == freed + Items(Concat(parts[k..at + 1]), 0)
    }

    lemma Others(k: nat)
      requires Linked() && Filled() && k <= at
      ensures Concat(parts[k + 1..at + 1]) == [] || Concat(parts[k + 1..at + 1])[0].ptr == 0
    {
      hide Rising, Concat, Group.Is;
      forall i | k + 1 <= i < at + 1 ensures parts[i] == [] || parts[i][0].ptr == 0 {
        chain[i].Holds(parts[i]);
      }
      ConcatStarts(parts[k + 1..at + 1]);
    }

    /** One group: free what may be freed from its front. */
    method CleanGroup(ghost k: nat, bound: int, count: nat) returns (left: nat, f: seq<Item>)
      requires Linked() && Filled() && k <= at && first == chain[k] && count > 0
      modifies this`parts, first`head, first`tail, first.e
      ensures Linked() && Filled() && |parts| == old(|parts|) && parts == old(parts)[k := parts[k]]
      ensures Items(old(parts[k]), 0) == f + Items(parts[k], 0) && Rising(parts[k], 0) && left + |f| == count
      ensures forall i :: 0 <= i < |f| ==> f[i].epoch <= bound
      ensures parts[k] != [] ==> LastEpoch(parts[k], 0) == LastEpoch(old(parts[k]), 0)
      ensures parts[k] != [] && left > 0 ==> parts[k][0].ptr == 0 && parts[k][0].u > bound
      ensures first.head == first.tail <==> parts[k] == []
      ensures parts[k] == [] ==> left > 0
    {
      hide Rising, Items, LastEpoch, Concat, Group.Is;
      first.Holds(parts[k]);
      Group.RisingNone();
      left, f := first.CleanUntil(bound, count);
      first.Known();
      parts := parts[k := first.Content()];
    }

    method CleanFirst(ghost k: nat, bound: int, count: nat, freed: seq<Item>, ghost all: seq<Item>) returns (left: nat, more: seq<Item>)
      requires Midway(k, bound, count, freed, all) && count > 0
      modifies this`parts, first`head, first`tail, first.e
      ensures Midway(k, bound, left, more, all)
      ensures parts[k] != [] ==> Stopped(parts[k..at + 1], bound, left)
      ensures first.head == first.tail <==> parts[k] == []
      ensures parts[k] == [] ==> left > 0
    {
      hide Rising, Items, LastEpoch, Concat, Group.Is, Filled, Linked;
      ghost var old' := parts;
      Others(k);
      Within(k);
      var f;
      left, f := CleanGroup(k, bound, count);
      Within(k);
      more := freed + f;
      CleanedParts(old', parts, k, at, f);
      assert freed + (f + Items(Concat(parts[k..at + 1]), 0)) == more + Items(Concat(parts[k..at + 1]), 0);
    }

    /**
     Free what may be freed: from the front of the queue, at most FREE_COUNT pointers, none retired after the bound.
     Nothing else leaves the queue, and the groups stay the same ones.
     */
    method Quiesce(active: int) returns (freed: seq<Item>)
      requires Valid()
      modifies this, chain, Arrays()
      ensures Valid() && old(Pending()) == freed + Pending() && freed == Take(old(Pending()), active - 1, FREE_COUNT)
      ensures multiset(chain) == multiset(old(chain))
      ensures gcEpoch == if |freed| == FREE_COUNT then active - 1 else active
    {
      hide Rising, Items, LastEpoch, Concat, Group.Is, Filled, Linked, Take, Turn;
      var bound, count := active - 1, FREE_COUNT;
      freed := [];
      FirstIs();
      if first.head == first.tail || bound < first.e[first.head].u {
        NothingToFree(bound, Pending());
      } else {
        BeginClean(bound, Pending());
        count, freed := Reclaim(bound, Pending());
      }
      Plan(if count == 0 then bound else bound + 1);
    }

    /** The epoch from which reclaiming is due again. */
    method Plan(epoch: int)
      requires Valid()
      modifies this`gcEpoch
      ensures Valid() && gcEpoch == epoch
    {
      hide Rising, Items, LastEpoch, Concat, Group.Is;
      gcEpoch := epoch;
    }

    method Reclaim(bound: int, ghost all: seq<Item>) returns (count: nat, freed: seq<Item>)
      requires Midway(0, bound, FREE_COUNT, [], all)
      modifies this, chain, Arrays()
      ensures Valid() && all == freed + Pending() && freed == Take(all, bound, FREE_COUNT) && |freed| + count == FREE_COUNT
      ensures multiset(chain) == multiset(old(chain)) && gcEpoch == old(gcEpoch)
    {
      hide Rising, Items, LastEpoch, Concat, Group.Is, Filled, Linked, Take, Turn, Stopped, Midway;
      FirstAt(0, bound, FREE_COUNT, [], all);
      count, freed := FREE_COUNT, [];
      var emptyHead: Group?, emptyTail: Group? := null, null;
      ghost var k := 0;
      while count > 0
        invariant Midway(k, bound, count, freed, all) && count > 0 && chain == old(chain) && at == old(at) && gcEpoch == old(gcEpoch)
        invariant k <= at < |chain| == |parts| && (emptyHead == null <==> k == 0) && (emptyTail == null <==> k == 0)
        invariant k > 0 ==> emptyHead == chain[0] && emptyTail == chain[k - 1]
        decreases at - k
      {
        FirstAt(k, bound, count, freed, all);
        count, freed := CleanFirst(k, bound, count, freed, all);
        FirstAt(k, bound, count, freed, all);
        if first.head != first.tail {
          break;
        }
        if emptyHead == null {
          emptyHead := first;
        }
        emptyTail := first;
        GoOn(k, bound, count, freed, all);
        if first == last {
          AllFreed(k, bound, count, freed, all);
          Restart(emptyHead);
          assert freed + [] == freed;
          return;
        }
        Advance(k, bound, count, freed, all);
        k := k + 1;
      }
      StopsHere(k, bound, count, freed, all);
      Finish(emptyHead, emptyTail, k, bound, count, freed, all);
    }

    /** The emptied groups are hooked in behind the last group in use: no group is lost. */
    method Rehook(emptyHead: Group, emptyTail: Group, ghost k: nat)
      requires Linked() && Filled() && 0 < k <= at && first == chain[k] && emptyHead == chain[0] && emptyTail == chain[k - 1]
      requires forall i :: 0 <= i < k ==> parts[i] == []
      modifies this`chain, this`parts, this`at, emptyTail`next, last`next
      ensures Linked() && Filled() && first == chain[0] && at == old(at) - k
      ensures parts[..at + 1] == old(parts[k..at + 1]) && chain == Turn(old(chain), k, old(at))
    {
      hide Linked, Filled, Chained, Turn, Apart, Concat;
      Within(k);
      Turning(emptyHead, emptyTail, k);
      Retell(k);
    }

    ghost method Retell(k: nat)
      requires Filled() && k <= at < |chain| && last == chain[at] && capacity >= 2 && Apart(chain) && Chained(Turn(chain, k, at))
      requires (forall i :: 0 <= i < |chain| ==> chain[i].e.Length == capacity) && (forall i :: 0 <= i < k ==> parts[i] == [])
      modifies this`chain, this`parts, this`at
      ensures Linked() && Filled() && chain[0] == old(chain)[k] && at == old(at) - k
      ensures parts[..at + 1] == old(parts[k..at + 1]) && chain == Turn(old(chain), k, old(at))
    {
      hide Linked, Filled, Group.Is, Apart, Chained, Turn, Concat;
      ghost var c, p, a := chain, parts, at;
      Within'(k);
      TurnFront(p, k, a);
      TurnFront(c, k, a);
      chain, parts, at := Turn(chain, k, at), Turn(parts, k, at), at - k;
      TurnedOk(c, p, k, a);
    }

    lemma Within'(k: nat)
      requires Filled() && k <= at < |chain|
      ensures |parts| == |chain| && (forall i :: 0 <= i < |chain| ==> chain[i].Is(parts[i]))
      ensures forall i :: at < i < |chain| ==> parts[i] == []
    {
    }

    lemma TurnedOk(c: seq<Group>, p: seq<seq<Element>>, k: nat, a: nat)
      requires k <= a < |c| == |p| && Apart(c) && capacity >= 2 && (forall i :: 0 <= i < |c| ==> c[i].e.Length == capacity)
      requires forall i :: 0 <= i < |c| ==> c[i].Is(p[i])
      requires (forall i :: 0 <= i < k ==> p[i] == []) && (forall i :: a < i < |p| ==> p[i] == [])
      requires chain == Turn(c, k, a) && parts == Turn(p, k, a) && at == a - k && last == c[a] && Chained(chain)
      ensures Linked() && Filled()
    {
      hide Rising, Concat, Group.Is, Apart, Chained, Turn;
      TurnApart(c, k, a);
      forall i | 0 <= i < |chain| ensures chain[i].Is(parts[i]) && chain[i].e.Length == capacity {
        assert c[Turned(i, k, a)].Is(p[Turned(i, k, a)]);
      }
    }

    method Turning(emptyHead: Group, emptyTail: Group, ghost k: nat)
      requires Linked() && Filled() && 0 < k <= at && emptyHead == chain[0] && emptyTail == chain[k - 1]
      modifies emptyTail`next, last`next
      ensures Filled() && k <= at < |chain| && last == chain[at] && capacity >= 2 && Apart(chain) && Chained(Turn(chain, k, at))
      ensures forall i :: 0 <= i < |chain| ==> chain[i].e.Length == capacity
    {
      hide Turn;
      ghost var r := Turn(chain, k, at);
      ghost var n := at + 1 - k;
      assert r[n - 1] == last && r[at] == emptyTail && r[n] == emptyHead;
      emptyTail.next := last.next;
      last.next := emptyHead;
      forall i | 0 <= i < |r| - 1 ensures r[i].next == r[i + 1] {
        var x := Turned(i, k, at);
        assert r[i] == chain[x];
        if i != n - 1 && i != at {
          assert chain[x] != last && chain[x] != emptyTail && old(chain[x].next) == chain[x + 1] == r[i + 1];
        } else if i == at {
          assert old(chain[at].next) == chain[at + 1] == r[i + 1];
        }
      }
    }

    method Finish(emptyHead: Group?, emptyTail: Group?, ghost k: nat, ghost bound: int, ghost count: nat, ghost freed: seq<Item>,
                  ghost all: seq<Item>)
      requires Midway(k, bound, count, freed, all) && k <= at < |chain| == |parts| && parts[k] != []
      requires (emptyHead == null <==> k == 0) && (emptyTail == null <==> k == 0)
      requires k > 0 ==> emptyHead == chain[0] && emptyTail == chain[k - 1]
      modifies this`chain, this`parts, this`at, chain`next
      ensures Valid() && all == freed + Pending() && multiset(chain) == multiset(old(chain))
    {
      hide Rising, Items, LastEpoch, Concat, Group.Is, Filled, Linked, Turn;
      Within(k);
      ghost var left := parts[k..at + 1];
      if emptyHead != null && emptyTail != null {
        Rehook(emptyHead, emptyTail, k);
        Within(0);
        assert parts[..at + 1] == left && parts[0] == parts[..at + 1][0] == left[0];
      } else {
        assert parts[..at + 1] == left;
      }
    }

    /** With every part empty the first group can be the last as well. */
    method Restart(g: Group)
      requires Linked() && Filled() && g == chain[0] && forall i :: 0 <= i < |parts| ==> parts[i] == []
      modifies this`first, this`last, this`at
      ensures Valid() && Pending() == [] && first == last == g
    {
      first, last, at := g, g, 0;
      ConcatEmpty(parts[..1]);
    }

    lemma FirstIs()
      requires Valid()
      ensures first == chain[0] && first in chain && first.e in Arrays() && at < |chain| == |parts| && capacity >= 2
      ensures first.Is(parts[0]) && first.Valid() && (first.head == first.tail <==> parts[0] == [])
      ensures parts[0] != [] ==> first.e[first.head] == parts[0][0] && parts[0][0].ptr == 0
    {
      first.Holds(parts[0]);
    }

    lemma BeginClean(bound: int, all: seq<Item>)
      requires Valid() && all == Pending()
      ensures Midway(0, bound, FREE_COUNT, [], all)
    {
      assert parts[0..at + 1] == parts[..at + 1] && [] + all == all;
    }

    /** If the first group is empty so is the queue; if its first marker is past the bound so is everything. */
    lemma NothingToFree(bound: int, all: seq<Item>)
      requires Valid() && all == Pending() && at < |parts| && (parts[0] == [] || (parts[0][0].ptr == 0 && parts[0][0].u > bound))
      ensures Take(all, bound, FREE_COUNT) == []
    {
      if parts[0] == [] {
        ConcatEmpty(parts[..at + 1]);
      } else {
        YoungFirst(parts[..at + 1], bound);
      }
    }

    /** Reclaiming has stopped with everything freed that may be. */
    lemma StopsHere(k: nat, bound: int, count: nat, freed: seq<Item>, all: seq<Item>)
      requires Midway(k, bound, count, freed, all) && Stopped(parts[k..at + 1], bound, count)
      ensures freed == Take(all, bound, FREE_COUNT)
    {
      var rest := Concat(parts[k..at + 1]);
      if count > 0 {
        YoungFirst(parts[k..at + 1], bound);
      }
      TakeIs(freed, Items(rest, 0), bound, FREE_COUNT);
    }

    /** An emptied group adds nothing, so reclaiming goes on with the next. */
    lemma GoOn(k: nat, bound: int, count: nat, freed: seq<Item>, all: seq<Item>)
      requires Midway(k, bound, count, freed, all) && parts[k] == []
      ensures Concat(parts[k..at + 1]) == Concat(parts[k + 1..at + 1])
      ensures k < at ==> chain[k].next == chain[k + 1] && first != last
      ensures k == at ==> first == last
    {
      SplitFirst(parts, k, at);
      if k < at {
        NextOf(k);
      }
    }

    method Advance(ghost k: nat, ghost bound: int, ghost count: nat, ghost freed: seq<Item>, ghost all: seq<Item>)
      requires Midway(k, bound, count, freed, all) && parts[k] == [] && k < at
      modifies this`first
      ensures Midway(k + 1, bound, count, freed, all)
    {
      hide Rising, Items, LastEpoch, Concat, Group.Is;
      GoOn(k, bound, count, freed, all);
      first := first.next;
    }

    lemma FirstAt(k: nat, bound: int, count: nat, freed: seq<Item>, all: seq<Item>)
      requires Midway(k, bound, count, freed, all)
      ensures k <= at < |chain| == |parts| && Linked() && Filled() && first == chain[k] && first in chain && first.e in Arrays()
      ensures last == chain[at] && last in chain && |freed| + count == FREE_COUNT
    {
      hide Rising, Items, LastEpoch, Concat, Group.Is;
    }

    lemma AllFreed(k: nat, bound: int, count: nat, freed: seq<Item>, all: seq<Item>)
      requires Midway(k, bound, count, freed, all) && parts[k] == [] && k == at
      ensures freed == all && freed == Take(all, bound, FREE_COUNT) && (forall i :: 0 <= i < |parts| ==> parts[i] == [])
    {
      ConcatEmpty(parts[k..at + 1]);
      TakeIs(freed, [], bound, FREE_COUNT);
      assert freed + [] == freed;
    }

    lemma Within(k: nat)
      requires Linked() && Filled() && k <= at
      ensures at < |parts| == |chain| && k < |chain| && last == chain[at]
    {
    }
  }

  ghost predicate Chained(c: seq<Group>)
    reads c`next
  {
    c != [] && (forall i :: 0 <= i < |c| - 1 ==> c[i].next == c[i + 1]) && c[|c| - 1].next == null
  }

  ghost predicate Apart(c: seq<Group>) {
    forall i, j :: 0 <= i < j < |c| ==> c[i] != c[j] && c[i].e != c[j].e
  }

  lemma TurnFront<T>(p: seq<T>, k: nat, at: nat)
    requires k <= at < |p|
    ensures Turn(p, k, at)[..at - k + 1] == p[k..at + 1] && Turn(p, k, at)[0] == p[k]
  {
  }

  lemma ApartMore(c: seq<Group>, g: Group)
    requires Apart(c) && forall i :: 0 <= i < |c| ==> c[i] != g && c[i].e != g.e
    ensures Apart(c + [g])
  {
  }

  lemma TurnApart(c: seq<Group>, k: nat, at: nat)
    requires Apart(c) && k <= at < |c|
    ensures Apart(Turn(c, k, at))
  {
    hide Turn;
    var r := Turn(c, k, at);
    forall i, j | 0 <= i < j < |r| ensures r[i] != r[j] && r[i].e != r[j].e {
      var x, y := Turned(i, k, at), Turned(j, k, at);
      assert x != y;
    }
  }

  /** A sequence with its first k elements moved behind element at. */
  ghost function Turn<T>(s: seq<T>, k: nat, at: nat): (r: seq<T>)
    requires k <= at < |s|
    ensures |r| == |s| && forall i :: 0 <= i < |s| ==> r[i] == s[Turned(i, k, at)]
    ensures multiset(r) == multiset(s)
  {
    assert s == s[..k] + s[k..at + 1] + s[at + 1..];
    s[k..at + 1] + s[..k] + s[at + 1..]
  }

  ghost function Turned(i: nat, k: nat, at: nat): nat
    requires k <= at
  {
    if i < at + 1 - k then k + i else if i < at + 1 then i - (at + 1 - k) else i
  }

  lemma CleanedParts(before: seq<seq<Element>>, after: seq<seq<Element>>, k: nat, at: nat, f: seq<Item>)
    requires k <= at < |before| == |after| && after == before[k := after[k]]
    requires Items(before[k], 0) == f + Items(after[k], 0) && Rising(after[k], 0)
    requires after[k] != [] ==> LastEpoch(after[k], 0) == LastEpoch(before[k], 0)
    requires Concat(before[k + 1..at + 1]) == [] || Concat(before[k + 1..at + 1])[0].ptr == 0
    requires Rising(Concat(before[k..at + 1]), 0)
    ensures Items(Concat(before[k..at + 1]), 0) == f + Items(Concat(after[k..at + 1]), 0) && Rising(Concat(after[k..at + 1]), 0)
  {
    hide Rising, Items, LastEpoch, Concat;
    SplitFirst(before, k, at);
    SplitFirst(after, k, at);
    assert before[k + 1..at + 1] == after[k + 1..at + 1];
    CleanedQueue(before[k], after[k], Concat(after[k + 1..at + 1]), f);
  }

  /** Reclaiming has to stop: the count is used up, or the first marker is past the bound. */
  ghost predicate Stopped(parts: seq<seq<Element>>, bound: int, left: nat) {
    left == 0 || (parts != [] && parts[0] != [] && parts[0][0].ptr == 0 && parts[0][0].u > bound)
  }

  lemma YoungFirst(parts: seq<seq<Element>>, bound: int)
    requires parts != [] && parts[0] != [] && parts[0][0].ptr == 0 && parts[0][0].u > bound && Rising(Concat(parts), 0)
    ensures Items(Concat(parts), 0) == [] || Items(Concat(parts), 0)[0].epoch > bound
  {
    var s := Concat(parts);
    assert s[0] == parts[0][0];
    if Items(s, 0) != [] {
      RisingItems(s[1..], s[0].u, 0);
    }
  }

  lemma SplitFirst(parts: seq<seq<Element>>, k: nat, at: nat)
    requires k <= at < |parts|
    ensures Concat(parts[k..at + 1]) == parts[k] + Concat(parts[k + 1..at + 1])
  {
    assert parts[k..at + 1][1..] == parts[k + 1..at + 1] && parts[k..at + 1][0] == parts[k];
  }

  /** Cleaning the first part of the queue frees from the front of the queue. */
  lemma CleanedQueue(part: seq<Element>, rest: seq<Element>, others: seq<Element>, f: seq<Item>)
    requires Items(part, 0) == f + Items(rest, 0) && Rising(part + others, 0) && Rising(rest, 0)
    requires rest != [] ==> LastEpoch(rest, 0) == LastEpoch(part, 0)
    requires others != [] ==> others[0].ptr == 0
    ensures Items(part + others, 0) == f + Items(rest + others, 0) && Rising(rest + others, 0)
  {
    hide Items, Rising, LastEpoch;
    ItemsMore(part, others, 0);
    RisingMore(part, others, 0);
    RisingLast(part, 0);
    var last := LastEpoch(part, 0);
    assert (f + Items(rest, 0)) + Items(others, last) == f + (Items(rest, 0) + Items(others, last));
    if rest == [] {
      assert rest + others == others;
      Started(others, last, 0);
      RisingLower(others, last, 0);
      NoItems();
      assert [] + Items(others, 0) == Items(others, 0);
    } else {
      ItemsMore(rest, others, 0);
      RisingMore(rest, others, 0);
    }
  }

  lemma NoItems()
    ensures Items([], 0) == [] && LastEpoch([], 0) == 0
  {
  }

  lemma {:induction false} ConcatStarts(parts: seq<seq<Element>>)
    requires forall i :: 0 <= i < |parts| ==> parts[i] == [] || parts[i][0].ptr == 0
    ensures Concat(parts) == [] || Concat(parts)[0].ptr == 0
  {
    if parts != [] {
      ConcatStarts(parts[1..]);
    }
  }

  lemma SplitLast(parts: seq<seq<Element>>, at: nat)
    requires at < |parts|
    ensures Concat(parts[..at + 1]) == Concat(parts[..at]) + parts[at]
  {
    assert parts[..at + 1] == parts[..at] + [parts[at]];
    ConcatMore(parts[..at], [parts[at]]);
  }

  /** Behind everything else, a part that grows by a pointer with a marker before it. */
  lemma PushedMarked(before: seq<Element>, part: seq<Element>, ptr: int, tag: int, now: int)
    requires ptr != 0 && 0 <= now && Rising(before + part, 0) && LastEpoch(before + part, 0) <= now
    ensures var more := before + (part + [Element(0, now)] + [Element(ptr, tag)]);
      Items(more, 0) == Items(before + part, 0) + [Item(ptr, tag, now)] && Rising(more, 0)
  {
    var all, b := before + part, [Element(0, now), Element(ptr, tag)];
    var last := LastEpoch(all, 0);
    assert before + (part + [Element(0, now)] + [Element(ptr, tag)]) == all + b;
    assert b[1..] == [Element(ptr, tag)] && Items(b[1..], now) == [Item(ptr, tag, now)];
    assert Items(b, last) == [Item(ptr, tag, now)] && Rising(b[1..], now) && Rising(b, last);
    ItemsMore(all, b, 0);
    RisingMore(all, b, 0);
  }

  /** Or without one, in the epoch that is in force. */
  lemma PushedPlain(before: seq<Element>, part: seq<Element>, ptr: int, tag: int, now: int)
    requires ptr != 0 && 0 <= now && Rising(before + part, 0) && LastEpoch(before + part, 0) == now
    ensures var more := before + (part + [] + [Element(ptr, tag)]);
      Items(more, 0) == Items(before + part, 0) + [Item(ptr, tag, now)] && Rising(more, 0)
  {
    var all, b := before + part, [Element(ptr, tag)];
    assert before + (part + [] + b) == all + b;
    assert b[1..] == [] && Items(b, now) == [Item(ptr, tag, now)] && Rising(b, now);
    ItemsMore(all, b, 0);
    RisingMore(all, b, 0);
  }

  lemma LastOfPart(before: seq<Element>, part: seq<Element>)
    requires part != [] && part[0].ptr == 0
    ensures LastEpoch(part, 0) == LastEpoch(before + part, 0)
  {
    ItemsMore(before, part, 0);
    Started(part, LastEpoch(before, 0), 0);
  }
}
