/**
 A leaf of the FB+-tree in place: a bitmap, an array of fingerprint tags and an array of pairs. Each operation does to
 these what the leaf edit of the same name does to the leaf as a map.
 */
module LeafArrays {
  import opened Options
  import opened Ordered
  import opened Level
  import opened Leaves
  import opened LeafEdits
  import opened LeafSlots
  import F = Features

  /** The bits say which slots hold a pair, and its tag is the hash of its key. */
  ghost predicate Marked(bits: F.Mask, tags: seq<int>, ss: Slots, hash: int -> int) {
    && |bits| == |tags| == |ss|
    && forall i :: 0 <= i < |ss| ==> (bits[i] <==> ss[i].Some?) && (ss[i].Some? ==> tags[i] == hash(ss[i].value.key))
  }

  function Not(m: F.Mask): (r: F.Mask)
    ensures |r| == |m| && forall i :: 0 <= i < |m| ==> r[i] == !m[i]
  {
    seq(|m|, i requires 0 <= i < |m| => !m[i])
  }

  /** The first n bits. */
  function FirstBits(size: nat, n: nat): (r: F.Mask)
    ensures |r| == size && forall i :: 0 <= i < size ==> r[i] == (i < n)
  {
    seq(size, i requires 0 <= i < size => i < n)
  }

  function Popcount(m: F.Mask): nat {
    if m == [] then 0 else Popcount(m[..|m| - 1]) + if m[|m| - 1] then 1 else 0
  }

  lemma {:induction false} PopcountIs(bits: F.Mask, ss: Slots)
    requires |bits| == |ss| && forall i :: 0 <= i < |ss| ==> (bits[i] <==> ss[i].Some?)
    ensures Popcount(bits) == Filled(ss)
  {
    if ss != [] {
      PopcountIs(bits[..|ss| - 1], ss[..|ss| - 1]);
    }
  }

  class LeafArray {
    const hash: int -> int
    const size: nat
    const tags: array<int>
    const kvs: array<Option<Pair>>
    var bitmap: F.Mask
    var high: int
    var sibling: Id
    var hasSibling: bool
    var deleted: bool
    var ordered: bool
    ghost var pairs: map<int, Value>

    ghost predicate Shaped()
      reads this
    {
      tags.Length == kvs.Length == size == |bitmap| && size > 1 && size % 2 == 0
    }

    ghost predicate Valid()
      reads this, tags, kvs
    {
      && Shaped() && Marked(bitmap, tags[..], kvs[..], hash) && Stores(kvs[..], pairs) && (ordered ==> Tidy(kvs[..], |pairs|))
    }

    /** The leaf as a map with a bound. */
    ghost function View(): Leaf
      reads this
    {
      Leaves.Leaf(pairs, high, sibling, hasSibling)
    }

    ghost predicate Beside(o: LeafArray) {
      && this != o && tags != o.tags && kvs != o.kvs && size == o.size && hash == o.hash
    }

    constructor (hash: int -> int, size: nat)
      requires size > 1 && size % 2 == 0
      ensures Valid() && pairs == map[] && View() == Leaves.Leaf(map[], 0, 0, false) && !deleted && fresh(tags) && fresh(kvs)
      ensures this.hash == hash && this.size == size
    {
      this.hash, this.size := hash, size;
      tags := new int[size](_ => 0);
      kvs := new Option<Pair>[size](_ => None);
      bitmap, high, sibling, hasSibling, deleted, ordered, pairs := FirstBits(size, 0), 0, 0, false, false, false, map[];
      new;
      StoresEmpty(kvs[..]);
    }

    function TagsEqual(t: int): (r: F.Mask)
      requires tags.Length == size
      reads tags
      ensures |r| == size && forall i :: 0 <= i < size ==> r[i] == (tags[i] == t)
    {
      seq(size, i requires 0 <= i < size reads tags => tags[i] == t)
    }

    /** The slot of a key, or -1: the bits of the slots with the right tag are tried one by one. */
    method Find(key: int) returns (idx: int)
      requires Valid()
      ensures -1 <= idx < size && (idx >= 0 <==> key in pairs)
      ensures idx >= 0 ==> Keyed(kvs[idx], key)
    {
      var mask := F.And(bitmap, TagsEqual(hash(key)));
      while !F.None(mask)
        invariant |mask| == size && forall i :: 0 <= i < size && mask[i] ==> kvs[i].Some?
        invariant forall i :: 0 <= i < size && Keyed(kvs[i], key) ==> mask[i]
        decreases size - F.Lowest(mask)
      {
        idx := F.Lowest(mask);
        if kvs[idx].value.key == key {
          assert FromMap(kvs[..][idx], pairs);
          return;
        }
        mask := mask[idx := false];
      }
      assert key in pairs ==> HasSlot(kvs[..], key);
      idx := -1;
    }

    /** lookup */
    method Lookup(key: int) returns (v: Option<Value>)
      requires Valid()
      ensures v == LeafEdits.Find(pairs, key)
    {
      var idx := Find(key);
      if idx < 0 {
        return None;
      }
      assert FromMap(kvs[..][idx], pairs);
      v := Some(kvs[idx].value.value);
    }

    /** A pair replaces the one in its key's slot. */
    method Overwrite(idx: nat, k: int, v: Value) returns (was: Option<Value>)
      requires Valid() && idx < size && Keyed(kvs[idx], k)
      modifies this`pairs, kvs
      ensures Valid() && was == LeafEdits.Find(old(pairs), k) && View() == Put(old(View()), k, v)
    {
      assert FromMap(kvs[..][idx], pairs);
      was := Some(kvs[idx].value.value);
      StoresPut(kvs[..], pairs, idx, k, v);
      ghost var ss := kvs[..];
      if ordered {
        TidyPut(ss, |pairs|, idx, k, v);
      }
      kvs[idx] := Some(Pair(k, v));
      assert kvs[..] == ss[idx := Some(Pair(k, v))];
      assert pairs[k := v].Keys == pairs.Keys;
      pairs := pairs[k := v];
    }

    /** update */
    method Update(k: int, v: Value) returns (was: Option<Value>)
      requires Valid()
      modifies this`pairs, kvs
      ensures Valid() && was == LeafEdits.Find(old(pairs), k)
      ensures View() == if was.Some? then Put(old(View()), k, v) else old(View())
    {
      var idx := Find(k);
      if idx < 0 {
        return None;
      }
      was := Overwrite(idx, k, v);
    }

    /** A new pair goes into a free slot. */
    method Store(idx: nat, k: int, v: Value)
      requires Valid() && idx < size && !bitmap[idx] && k !in pairs && !ordered
      modifies this`pairs, this`bitmap, tags, kvs
      ensures Valid() && View() == Put(old(View()), k, v)
    {
      StoresPut(kvs[..], pairs, idx, k, v);
      ghost var ss, ts := kvs[..], tags[..];
      kvs[idx], tags[idx], bitmap := Some(Pair(k, v)), hash(k), bitmap[idx := true];
      assert kvs[..] == ss[idx := Some(Pair(k, v))] && tags[..] == ts[idx := hash(k)];
      pairs := pairs[k := v];
    }

    /** The slots in the order of their keys. */
    method Order() returns (ord: seq<nat>)
      requires Valid()
      ensures Orders(kvs[..], size, ord)
    {
      ord := [];
      var i := 0;
      while i < size
        invariant 0 <= i <= size && Orders(kvs[..], i, ord)
      {
        OrdersMore(kvs[..], i, ord, pairs);
        if bitmap[i] {
          ord := InsertAt(ord, Rank(KeysAt(kvs[..], ord), kvs[i].value.key), i);
        }
        i := i + 1;
      }
    }

    /** upsert: overwrite, store in a free slot, or split a full leaf into this one and a new one. */
    method Upsert(k: int, v: Value, right: LeafArray, rid: Id) returns (was: Option<Value>, split: bool)
      requires Valid() && right.Valid() && Beside(right) && right.View() == Leaves.Leaf(map[], 0, 0, false) && !right.ordered
      modifies this, tags, kvs, right, right.tags, right.kvs
      ensures Valid() && right.Valid() && was == LeafEdits.Find(old(pairs), k)
      ensures split <==> k !in old(pairs) && |old(pairs)| == size
      ensures !split ==> View() == Put(old(View()), k, v) && right.View() == old(right.View())
      ensures split ==> (View(), right.View()) == SplitOf(old(View()), k, v, rid)
    {
      split := false;
      var idx := Find(k);
      if idx >= 0 {
        was := Overwrite(idx, k, v);
        return;
      }
      was, ordered := None, false;
      StoresCount(kvs[..], pairs);
      FreeOrFull(kvs[..]);
      idx := F.Lowest(Not(bitmap));
      if idx < size {
        assert !bitmap[idx] && kvs[..][idx].None?;
        Store(idx, k, v);
      } else {
        split := true;
        assert forall j :: 0 <= j < size ==> bitmap[j] && kvs[..][j].Some?;
        Split(k, v, right, rid);
      }
    }

    method Split(k: int, v: Value, right: LeafArray, rid: Id)
      requires Valid() && right.Valid() && Beside(right) && right.View() == Leaves.Leaf(map[], 0, 0, false) && !right.ordered
      requires k !in pairs && |pairs| == size && !ordered
      modifies this, tags, kvs, right, right.tags, right.kvs
      ensures Valid() && right.Valid()
      ensures (View(), right.View()) == SplitOf(old(View()), k, v, rid)
    {
      hide Marked, Stores, Tidy, Ascending, Orders, SplitHalf;
      var ord := Order();
      Ordered(ord);
      right.Empty();
      var last := kvs[ord[size - 1]].value.key;
      if !hasSibling && k > last {
        right.Store(0, k, v);
        sibling, high, hasSibling := rid, last, true;
      } else {
        SplitUpper(k, v, right, rid, ord);
      }
    }

    lemma Ordered(ord: seq<nat>)
      requires Valid() && Orders(kvs[..], size, ord)
      ensures Shaped() && |ord| == |pairs| && forall p :: 0 <= p < |ord| ==> ord[p] < size && Keyed(kvs[ord[p]], Ascending(pairs.Keys)[p])
    {
      OrdersKeys(kvs[..], pairs, ord);
      assert |Ascending(pairs.Keys)| == |pairs.Keys|;
    }

    lemma Empty()
      requires Valid() && pairs == map[]
      ensures Shaped() && forall i :: 0 <= i < size ==> !bitmap[i]
    {
      EmptySlots(kvs[..]);
      assert forall i :: 0 <= i < size ==> kvs[..][i].None?;
    }

    method SplitUpper(k: int, v: Value, right: LeafArray, rid: Id, ord: seq<nat>)
      requires Valid() && right.Valid() && Beside(right) && right.View() == Leaves.Leaf(map[], 0, 0, false) && !right.ordered
      requires k !in pairs && |pairs| == size && !ordered && Orders(kvs[..], size, ord) && |ord| == size
      modifies this, tags, kvs, right, right.tags, right.kvs
      ensures Valid() && right.Valid()
      ensures (View(), right.View()) == SplitHalf(old(View()), k, v, rid)
    {
      hide Marked, Stores, Tidy, Ascending, Orders, AtMost, Above;
      Ordered(ord);
      var half := size / 2;
      var mid := kvs[ord[half - 1]].value.key;
      var lid := ord[size - 1];
      MoveUpper(right, ord);
      right.sibling, right.high, right.hasSibling := sibling, high, hasSibling;
      sibling, high, hasSibling := rid, mid, true;
      HalfKeys(old(pairs), mid, k);
      if k > high {
        right.Store(half, k, v);
      } else {
        Store(lid, k, v);
      }
    }

    /** The slots from the middle on in the order of keys go to the right leaf. */
    method MoveUpper(right: LeafArray, ord: seq<nat>)
      requires Valid() && right.Valid() && Beside(right) && right.pairs == map[] && !right.ordered && !ordered
      requires Orders(kvs[..], size, ord) && |ord| == size
      modifies this, kvs, right, right.tags, right.kvs
      ensures Valid() && right.Valid() && !ordered && !right.ordered && !bitmap[ord[size - 1]] && !right.bitmap[size / 2]
      ensures View() == old(View()).(kvs := AtMost(old(pairs), old(kvs[ord[size / 2 - 1]].value.key)))
      ensures right.View() == old(right.View()).(kvs := Above(old(pairs), old(kvs[ord[size / 2 - 1]].value.key)))
    {
      hide Stores, Orders, Tidy, AtMost, Above, Marked, Copied;
      ghost var ss, ts, bits := kvs[..], tags[..], bitmap;
      OrdersAll(ss, ord);
      var mask := CopyUpper(right, ord);
      right.bitmap := FirstBits(size, size - size / 2);
      bitmap := F.And(bitmap, Not(mask));
      HalvesGood(bits, ts, ss, hash, pairs, ord, mask, kvs[..], right.tags[..], right.kvs[..]);
      right.pairs := Above(pairs, ss[ord[size / 2 - 1]].value.key);
      pairs := AtMost(pairs, ss[ord[size / 2 - 1]].value.key);
    }

    /** The pairs and tags of these slots are copied, and the slots cleared; their bits are returned. */
    method CopyUpper(right: LeafArray, ord: seq<nat>) returns (mask: F.Mask)
      requires Shaped() && right.Shaped() && Beside(right) && Orders(kvs[..], size, ord) && |ord| == size
      requires Stores(right.kvs[..], map[])
      modifies kvs, right.tags, right.kvs
      ensures |mask| == size && Copied(old(kvs[..]), tags[..], ord, mask, kvs[..], right.tags[..], right.kvs[..])
    {
      hide Orders, Stores, Copying;
      ghost var ss := kvs[..];
      var i := size / 2;
      mask := FirstBits(size, 0);
      CopyingNone(ss, tags[..], ord, right.tags[..], right.kvs[..]);
      while i < size
        invariant size / 2 <= i <= size && |mask| == size && Copying(ss, tags[..], ord, i, mask, kvs[..], right.tags[..], right.kvs[..])
      {
        var lid, rid := ord[i], i - size / 2;
        ghost var left, rtags, rs := kvs[..], right.tags[..], right.kvs[..];
        CopyingMore(ss, tags[..], ord, i, mask, left, rtags, rs);
        right.tags[rid], right.kvs[rid] := tags[lid], kvs[lid];
        kvs[lid] := None;
        mask := mask[lid := true];
        assert kvs[..] == left[lid := None] && right.kvs[..] == rs[rid := left[lid]] && right.tags[..] == rtags[rid := tags[..][lid]];
        i := i + 1;
      }
    }

    // ---------- removals and merges ----------

    /** remove, with a merge with the right neighbour if there is room. */
    method Remove(key: int, right: LeafArray, mergeSize: nat) returns (was: Option<Value>, merged: bool)
      requires Valid() && right.Valid() && Beside(right) && mergeSize <= size
      requires hasSibling ==> pairs.Keys !! right.pairs.Keys
      modifies this, tags, kvs, right, right.kvs
      ensures Valid() && was == LeafEdits.Find(old(pairs), key)
      ensures merged <==> was.Some? && old(hasSibling) && LeafMergeGuard(Drop(old(View()), key), old(right.View()), mergeSize)
      ensures View() == if merged then Join(Drop(old(View()), key), old(right.View())) else if was.Some? then Drop(old(View()), key) else old(View())
      ensures right.Valid() && if merged then right.pairs == map[] && right.deleted else right.View() == old(right.View())
    {
      merged := false;
      var idx := Find(key);
      if idx < 0 {
        return None, false;
      }
      was := Clear(idx, key);
      if hasSibling {
        StoresCount(kvs[..], pairs);
        StoresCount(right.kvs[..], right.pairs);
        PopcountIs(bitmap, kvs[..]);
        PopcountIs(right.bitmap, right.kvs[..]);
        var l, r := Popcount(bitmap), Popcount(right.bitmap);
        if l + r <= mergeSize || l == 0 {
          merged := true;
          Absorb(right);
        }
      }
    }

    /** The slot of a key is cleared. */
    method Clear(idx: nat, key: int) returns (was: Option<Value>)
      requires Valid() && idx < size && Keyed(kvs[idx], key)
      modifies this, kvs
      ensures Valid() && was == LeafEdits.Find(old(pairs), key) && View() == Drop(old(View()), key) && !ordered
    {
      assert FromMap(kvs[..][idx], pairs);
      was := Some(kvs[idx].value.value);
      StoresDrop(kvs[..], pairs, idx, key);
      ghost var ss := kvs[..];
      bitmap, kvs[idx], ordered := bitmap[idx := false], None, false;
      assert kvs[..] == ss[idx := None];
      pairs := pairs - {key};
    }

    /** merge: the pairs of the right leaf go one by one into free slots of this one. */
    method Absorb(right: LeafArray)
      requires Valid() && right.Valid() && Beside(right) && |pairs| + |right.pairs| <= size && !ordered && pairs.Keys !! right.pairs.Keys
      modifies this, tags, kvs, right, right.kvs
      ensures Valid() && right.Valid() && View() == Join(old(View()), old(right.View())) && right.pairs == map[] && right.deleted
    {
      hide Stores, Tidy, Marked;
      MoveAll(right);
      right.bitmap, right.ordered, right.pairs := FirstBits(size, 0), false, map[];
      high, sibling, hasSibling := right.high, right.sibling, right.hasSibling;
      right.deleted := true;
    }

    method MoveAll(right: LeafArray)
      requires Valid() && right.Valid() && Beside(right) && |pairs| + |right.pairs| <= size && !ordered && pairs.Keys !! right.pairs.Keys
      modifies this`pairs, this`bitmap, tags, kvs, right.kvs
      ensures Valid() && pairs == old(pairs) + right.pairs
      ensures Marked(FirstBits(size, 0), right.tags[..], right.kvs[..], hash) && Stores(right.kvs[..], map[])
    {
      hide Stores, Tidy, Marked, Both;
      ghost var all, left := pairs + right.pairs, right.pairs;
      BothSum(pairs, right.pairs);
      var mask := right.bitmap;
      while !F.None(mask)
        invariant |mask| == size && Valid() && Marked(mask, right.tags[..], right.kvs[..], hash) && Stores(right.kvs[..], left)
        invariant Both(pairs, left, all) && |pairs| + |left| <= size
        decreases size - F.Lowest(mask)
      {
        var ridx := F.Lowest(mask);
        ghost var before := pairs;
        ghost var k := MoveOne(right, mask, ridx, left, all);
        Carried(before, left, all, k);
        left := left - {k};
        mask := mask[ridx := false];
      }
      NothingLeft(mask, right.tags[..], right.kvs[..], hash, left);
      AllCarried(pairs, left, all);
    }

    /** One pair goes from a slot of the right leaf into a free slot of this one. */
    method MoveOne(right: LeafArray, mask: F.Mask, ridx: nat, ghost left: map<int, Value>, ghost all: map<int, Value>) returns (ghost k: int)
      requires Valid() && !ordered && right.Shaped() && Beside(right) && Marked(mask, right.tags[..], right.kvs[..], hash)
      requires Stores(right.kvs[..], left) && ridx < size && mask[ridx] && Both(pairs, left, all) && |pairs| + |left| <= size
      modifies this`pairs, this`bitmap, tags, kvs, right.kvs
      ensures Valid() && k in left && pairs == old(pairs)[k := left[k]]
      ensures Marked(mask[ridx := false], right.tags[..], right.kvs[..], hash) && Stores(right.kvs[..], left - {k})
    {
      hide Stores, Tidy;
      var x := right.kvs[ridx].value;
      k := x.key;
      StoresAt(right.kvs[..], left, ridx);
      StoresDrop(right.kvs[..], left, ridx, k);
      StoresCount(kvs[..], pairs);
      FreeOrFull(kvs[..]);
      LeftOne(left, k);
      var lidx := F.Lowest(Not(bitmap));
      assert exists i :: 0 <= i < size && kvs[..][i].None? && Not(bitmap)[i];
      Take(lidx, x, right.tags[ridx]);
      ghost var rs := right.kvs[..];
      right.kvs[ridx] := None;
      assert right.kvs[..] == rs[ridx := None];
    }

    /** A pair with its tag goes into a free slot. */
    method Take(idx: nat, x: Pair, tag: int)
      requires Valid() && idx < size && !bitmap[idx] && x.key !in pairs && !ordered && tag == hash(x.key)
      modifies this`pairs, this`bitmap, tags, kvs
      ensures Valid() && pairs == old(pairs)[x.key := x.value]
    {
      StoresPut(kvs[..], pairs, idx, x.key, x.value);
      ghost var ss, ts := kvs[..], tags[..];
      tags[idx], kvs[idx], bitmap := tag, Some(x), bitmap[idx := true];
      assert kvs[..] == ss[idx := Some(x)] && tags[..] == ts[idx := tag];
      pairs := pairs[x.key := x.value];
    }

    // ---------- the ordered view ----------

    /** kv_sort: the pairs go to the first slots in the order of their keys. */
    method Sort()
      requires Valid()
      modifies this, tags, kvs
      ensures Valid() && ordered && View() == old(View())
    {
      hide Stores, Orders, Tidy, Gathered, Marked;
      if !ordered {
        ghost var ss, ts, bits := kvs[..], tags[..], bitmap;
        var ord := Order();
        OrdersLength(ss, pairs, ord);
        Gather(ord);
        bitmap := FirstBits(size, |ord|);
        GatheredGood(bits, ts, ss, hash, pairs, ord, tags[..], kvs[..]);
        ordered := true;
      }
    }

    /** The pairs and tags go to the first slots in the order given. */
    method Gather(ord: seq<nat>)
      requires Shaped() && Orders(kvs[..], size, ord) && |ord| <= size
      modifies tags, kvs
      ensures Gathered(old(kvs[..]), old(tags[..]), ord, tags[..], kvs[..])
    {
      hide Orders;
      var ss, ts, n := kvs[..], tags[..], |ord|;
      OrdersAll(ss, ord);
      var i := 0;
      while i < size
        invariant 0 <= i <= size
        invariant forall j :: 0 <= j < i ==> kvs[j] == if j < n then ss[ord[j]] else None
        invariant forall j :: 0 <= j < i && j < n ==> tags[j] == ts[ord[j]]
      {
        if i < n {
          kvs[i], tags[i] := ss[ord[i]], ts[ord[i]];
        } else {
          kvs[i] := None;
        }
        i := i + 1;
      }
    }

    /** bound: the place of the first key not below the key, or for upper above it, in the ordered view, and its pair if any. */
    method Bound(key: int, upper: bool) returns (pos: nat, x: Option<Pair>)
      requires Valid() && ordered
      ensures pos == LeafBound(Ascending(pairs.Keys), key, upper)
      ensures x == if pos < |pairs| then kvs[pos] else None
      ensures pos < |pairs| ==> Keyed(kvs[pos], Ascending(pairs.Keys)[pos])
    {
      hide Ascending, Stores;
      TidyKeys(kvs[..], |pairs|, pairs);
      AscendingIs(pairs.Keys);
      ghost var asc := Ascending(pairs.Keys);
      StoresCount(kvs[..], pairs);
      PopcountIs(bitmap, kvs[..]);
      var n := Popcount(bitmap);
      var ss := kvs[..];
      assert forall i :: 0 <= i < n ==> ss[i].Some?;
      var idx := Find(key);
      if idx >= 0 {
        RankIs(asc, key, idx);
        pos := if upper then idx + 1 else idx;
      } else {
        var keys := seq(n, i requires 0 <= i < n => ss[i].value.key);
        assert keys == asc;
        pos := Rank(keys, key);
        assert pos < n ==> asc[pos] in asc;
      }
      x := if pos < n then kvs[pos] else None;
    }
  }

  /** A slot that comes later in the order has not been moved. */
  lemma NotYet(ss: Slots, ord: seq<nat>, half: nat, i: nat)
    requires Orders(ss, |ss|, ord) && half <= i < |ord|
    ensures ord[i] < |ss| && ord[i] !in ord[half..i] && ss[ord[i]].Some?
  {
    forall p | half <= p < i ensures ord[p] != ord[i] {
      assert SlotLess(ss, ord[p], ord[i]);
    }
  }

  /** The slots from the middle to position n of the order have been copied from ss to right and cleared in left; mask are their bits. */
  ghost predicate Copying(ss: Slots, tags: seq<int>, ord: seq<nat>, n: nat, mask: F.Mask, left: Slots, rtags: seq<int>, right: Slots) {
    && |tags| == |ord| == |mask| == |left| == |rtags| == |right| == |ss| && (forall p :: 0 <= p < |ord| ==> ord[p] < |ss|)
    && |ss| / 2 <= n <= |ss|
    && (forall j :: 0 <= j < |ss| ==> (mask[j] <==> j in ord[|ss| / 2..n]))
    && (forall j :: 0 <= j < |ss| ==> left[j] == if mask[j] then None else ss[j])
    && (forall r :: 0 <= r < |ss| ==> right[r] == if r < n - |ss| / 2 then ss[ord[|ss| / 2 + r]] else None)
    && (forall r :: 0 <= r < n - |ss| / 2 ==> rtags[r] == tags[ord[|ss| / 2 + r]])
  }

  lemma CopyingNone(ss: Slots, tags: seq<int>, ord: seq<nat>, rtags: seq<int>, right: Slots)
    requires Orders(ss, |ss|, ord) && |tags| == |ord| == |rtags| == |right| == |ss| && Stores(right, map[])
    ensures Copying(ss, tags, ord, |ss| / 2, FirstBits(|ss|, 0), ss, rtags, right)
  {
    EmptySlots(right);
    OrdersAll(ss, ord);
  }

  lemma CopyingMore(ss: Slots, tags: seq<int>, ord: seq<nat>, n: nat, mask: F.Mask, left: Slots, rtags: seq<int>, right: Slots)
    requires Orders(ss, |ss|, ord) && Copying(ss, tags, ord, n, mask, left, rtags, right) && n < |ss|
    ensures ord[n] < |ss|
    ensures Copying(ss, tags, ord, n + 1, mask[ord[n] := true], left[ord[n] := None], rtags[n - |ss| / 2 := tags[ord[n]]],
                    right[n - |ss| / 2 := left[ord[n]]])
  {
    NotYet(ss, ord, |ss| / 2, n);
    assert ord[|ss| / 2..n + 1] == ord[|ss| / 2..n] + [ord[n]];
  }

  ghost predicate Copied(ss: Slots, tags: seq<int>, ord: seq<nat>, mask: F.Mask, left: Slots, rtags: seq<int>, right: Slots) {
    Copying(ss, tags, ord, |ss|, mask, left, rtags, right)
  }

  lemma OrdersAll(ss: Slots, ord: seq<nat>)
    requires Orders(ss, |ss|, ord)
    ensures forall p :: 0 <= p < |ord| ==> ord[p] < |ss| && ss[ord[p]].Some?
  {
  }

  lemma CopiedMarks(bits: F.Mask, tags: seq<int>, ss: Slots, hash: int -> int, ord: seq<nat>, mask: F.Mask,
                    left: Slots, rtags: seq<int>, right: Slots)
    requires Marked(bits, tags, ss, hash) && Orders(ss, |ss|, ord) && Copied(ss, tags, ord, mask, left, rtags, right)
    ensures |bits| == |mask| && Marked(F.And(bits, Not(mask)), tags, left, hash) && Marked(FirstBits(|ss|, |ss| - |ss| / 2), rtags, right, hash)
  {
  }

  lemma CopiedHalves(tags: seq<int>, ss: Slots, ord: seq<nat>, mask: F.Mask, left: Slots, rtags: seq<int>, right: Slots)
    requires Copied(ss, tags, ord, mask, left, rtags, right)
    ensures |ord| == |ss| && (forall p :: 0 <= p < |ord| ==> ord[p] < |ss|)
    ensures LowerHalf(ss, ord, |ord| / 2, left) && UpperHalf(ss, ord, |ord| / 2, right)
  {
  }

  lemma HalvesGood(bits: F.Mask, tags: seq<int>, ss: Slots, hash: int -> int, m: map<int, Value>, ord: seq<nat>, mask: F.Mask,
                   left: Slots, rtags: seq<int>, right: Slots)
    requires Marked(bits, tags, ss, hash) && Stores(ss, m) && Orders(ss, |ss|, ord) && |ss| > 1 && Copied(ss, tags, ord, mask, left, rtags, right)
    ensures |bits| == |mask| && Marked(F.And(bits, Not(mask)), tags, left, hash) && Marked(FirstBits(|ss|, |ss| - |ss| / 2), rtags, right, hash)
    ensures |ord| == |ss| && ord[|ss| / 2 - 1] < |ss| && ss[ord[|ss| / 2 - 1]].Some? && ord[|ss| - 1] < |ss| && mask[ord[|ss| - 1]]
    ensures Stores(left, AtMost(m, ss[ord[|ss| / 2 - 1]].value.key)) && Stores(right, Above(m, ss[ord[|ss| / 2 - 1]].value.key))
  {
    hide Marked, Stores, AtMost, Above;
    CopiedMarks(bits, tags, ss, hash, ord, mask, left, rtags, right);
    CopiedHalves(tags, ss, ord, mask, left, rtags, right);
    LowerStores(ss, m, ord, |ss| / 2, left);
    UpperStores(ss, m, ord, |ss| / 2, right);
    assert ord[|ss| / 2..][|ss| - 1 - |ss| / 2] == ord[|ss| - 1];
  }

  /** The slots of ss have been put to the front in the order given. */
  ghost predicate Gathered(ss: Slots, tags: seq<int>, ord: seq<nat>, tags': seq<int>, front: Slots) {
    && |tags| == |tags'| == |front| == |ss| && |ord| <= |ss| && (forall p :: 0 <= p < |ord| ==> ord[p] < |ss|)
    && (forall r :: 0 <= r < |ss| ==> front[r] == if r < |ord| then ss[ord[r]] else None)
    && (forall r :: 0 <= r < |ord| ==> tags'[r] == tags[ord[r]])
  }

  lemma GatheredMarks(bits: F.Mask, tags: seq<int>, ss: Slots, hash: int -> int, ord: seq<nat>, tags': seq<int>, front: Slots)
    requires Marked(bits, tags, ss, hash) && Orders(ss, |ss|, ord) && Gathered(ss, tags, ord, tags', front)
    ensures Marked(FirstBits(|ss|, |ord|), tags', front, hash) && UpperHalf(ss, ord, 0, front)
  {
  }

  lemma GatheredGood(bits: F.Mask, tags: seq<int>, ss: Slots, hash: int -> int, m: map<int, Value>, ord: seq<nat>, tags': seq<int>, front: Slots)
    requires Marked(bits, tags, ss, hash) && Stores(ss, m) && Orders(ss, |ss|, ord) && Gathered(ss, tags, ord, tags', front)
    ensures Marked(FirstBits(|ss|, |ord|), tags', front, hash) && Stores(front, m) && Tidy(front, |m|)
  {
    hide Marked, Stores, Tidy;
    GatheredMarks(bits, tags, ss, hash, ord, tags', front);
    FrontStores(ss, m, ord, front);
  }

  lemma HalfKeys(m: map<int, Value>, h: int, k: int)
    requires k !in m
    ensures k !in AtMost(m, h) && k !in Above(m, h)
  {
  }

  lemma StoresAt(ss: Slots, m: map<int, Value>, i: nat)
    requires Stores(ss, m) && i < |ss| && ss[i].Some?
    ensures ss[i].value.key in m && m[ss[i].value.key] == ss[i].value.value
  {
    assert FromMap(ss[i], m);
  }

  lemma LeftOne(m: map<int, Value>, k: int)
    requires k in m
    ensures |m - {k}| == |m| - 1 && |m| > 0
  {
    assert m.Keys == (m - {k}).Keys + {k};
  }

  /** Two maps without a common key make up a third. */
  ghost predicate Both(a: map<int, Value>, b: map<int, Value>, all: map<int, Value>) {
    && (forall k :: k in a ==> k in all && all[k] == a[k] && k !in b)
    && (forall k :: k in b ==> k in all && all[k] == b[k])
    && (forall k :: k in all ==> k in a || k in b)
  }

  /** A pair goes from one map to the other. */
  lemma Carried(a: map<int, Value>, b: map<int, Value>, all: map<int, Value>, k: int)
    requires Both(a, b, all) && k in b
    ensures Both(a[k := b[k]], b - {k}, all) && |a[k := b[k]]| + |b - {k}| == |a| + |b|
  {
    LeftOne(b, k);
    RightOne(a, k, b[k]);
  }

  lemma AllCarried(a: map<int, Value>, b: map<int, Value>, all: map<int, Value>)
    requires Both(a, b, all) && b == map[]
    ensures a == all
  {
    forall k ensures k in a <==> k in all {
      assert k !in b;
    }
    assert a.Keys == all.Keys;
    forall k | k in a ensures a[k] == all[k] {
    }
  }

  lemma BothSum(a: map<int, Value>, b: map<int, Value>)
    requires a.Keys !! b.Keys
    ensures Both(a, b, a + b)
  {
  }

  lemma RightOne(a: map<int, Value>, k: int, v: Value)
    requires k !in a
    ensures |a[k := v]| == |a| + 1
  {
    assert a[k := v].Keys == a.Keys + {k};
  }

  lemma NothingLeft(mask: F.Mask, tags: seq<int>, ss: Slots, hash: int -> int, left: map<int, Value>)
    requires Marked(mask, tags, ss, hash) && Stores(ss, left) && F.None(mask)
    ensures left == map[] && Marked(FirstBits(|ss|, 0), tags, ss, hash)
  {
    forall k ensures k !in left {
      assert !HasSlot(ss, k);
    }
  }

  /** How a full leaf takes one more pair. */
  function SplitOf(l: Leaf, k: int, v: Value, rid: Id): (Leaf, Leaf)
    requires |l.kvs| > 1
  {
    if !l.hasSibling && k > Ascending(l.kvs.Keys)[|l.kvs| - 1] then SplitTail(l, k, v, rid) else SplitHalf(l, k, v, rid)
  }
}
