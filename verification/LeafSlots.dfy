/**
 What the slots of a leaf hold, as a map from keys to values: a leaf has a bit, a fingerprint tag and a pair, if any, for
 each slot, in no particular order.
 */
module LeafSlots {
  import opened Options
  import opened Ordered
  import opened Leaves

  datatype Pair = Pair(key: int, value: Value)

  type Slots = seq<Option<Pair>>

  predicate Keyed(x: Option<Pair>, k: int) {
    x.Some? && x.value.key == k
  }

  ghost predicate HasSlot(ss: Slots, k: int) {
    exists i :: 0 <= i < |ss| && Keyed(ss[i], k)
  }

  predicate FromMap(x: Option<Pair>, m: map<int, Value>) {
    x.Some? ==> x.value.key in m && m[x.value.key] == x.value.value
  }

  predicate OtherKeys(x: Option<Pair>, y: Option<Pair>) {
    x.Some? && y.Some? ==> x.value.key != y.value.key
  }

  /** The slots hold exactly the pairs of the map, each once. */
  ghost predicate Stores(ss: Slots, m: map<int, Value>) {
    && (forall i :: 0 <= i < |ss| ==> FromMap(ss[i], m))
    && (forall i, j :: 0 <= i < j < |ss| ==> OtherKeys(ss[i], ss[j]))
    && (forall k :: k in m ==> HasSlot(ss, k))
  }

  lemma StoresEmpty(ss: Slots)
    requires forall i :: 0 <= i < |ss| ==> ss[i].None?
    ensures Stores(ss, map[])
  {
  }

  lemma SlotKept(ss: Slots, i: nat, x: Option<Pair>, k: int)
    requires i < |ss| && HasSlot(ss, k) && !Keyed(ss[i], k)
    ensures HasSlot(ss[i := x], k)
  {
    var j :| 0 <= j < |ss| && Keyed(ss[j], k);
    assert Keyed(ss[i := x][j], k);
  }

  /** A pair goes into a free slot, or replaces the one with its key. */
  lemma StoresPut(ss: Slots, m: map<int, Value>, i: nat, k: int, v: Value)
    requires Stores(ss, m) && i < |ss| && ((ss[i].None? && k !in m) || Keyed(ss[i], k))
    ensures Stores(ss[i := Some(Pair(k, v))], m[k := v])
  {
    hide HasSlot;
    var ss', m' := ss[i := Some(Pair(k, v))], m[k := v];
    forall j | 0 <= j < |ss'| ensures FromMap(ss'[j], m') {
      assert FromMap(ss[j], m);
      if Keyed(ss[i], k) && j != i {
        assert if j < i then OtherKeys(ss[j], ss[i]) else OtherKeys(ss[i], ss[j]);
      }
    }
    forall a, b | 0 <= a < b < |ss'| ensures OtherKeys(ss'[a], ss'[b]) {
      assert OtherKeys(ss[a], ss[b]) && FromMap(ss[a], m) && FromMap(ss[b], m);
    }
    forall x | x in m' ensures HasSlot(ss', x) {
      if x == k {
        PutSlot(ss, i, k, v);
      } else {
        SlotKept(ss, i, Some(Pair(k, v)), x);
      }
    }
  }

  lemma PutSlot(ss: Slots, i: nat, k: int, v: Value)
    requires i < |ss|
    ensures HasSlot(ss[i := Some(Pair(k, v))], k)
  {
    assert Keyed(ss[i := Some(Pair(k, v))][i], k);
  }

  /** The slot of a key is cleared. */
  lemma StoresDrop(ss: Slots, m: map<int, Value>, i: nat, k: int)
    requires Stores(ss, m) && i < |ss| && Keyed(ss[i], k)
    ensures Stores(ss[i := None], m - {k})
  {
    hide HasSlot;
    var ss', m' := ss[i := None], m - {k};
    forall j | 0 <= j < |ss'| ensures FromMap(ss'[j], m') {
      assert FromMap(ss[j], m);
      if j != i {
        assert if j < i then OtherKeys(ss[j], ss[i]) else OtherKeys(ss[i], ss[j]);
      }
    }
    forall x | x in m' ensures HasSlot(ss', x) {
      SlotKept(ss, i, None, x);
    }
  }

  function Filled(ss: Slots): (n: nat)
    ensures n <= |ss|
  {
    if ss == [] then 0 else Filled(ss[..|ss| - 1]) + if ss[|ss| - 1].Some? then 1 else 0
  }

  lemma {:induction false} StoresCount(ss: Slots, m: map<int, Value>)
    requires Stores(ss, m)
    ensures |m| == Filled(ss)
    decreases |ss|
  {
    if ss == [] {
      forall k ensures k !in m {
        assert !HasSlot(ss, k);
      }
      assert m == map[];
    } else {
      var n := |ss| - 1;
      if ss[n].Some? {
        var k := ss[n].value.key;
        StoresDrop(ss, m, n, k);
        assert FromMap(ss[n], m);
        assert m.Keys == (m - {k}).Keys + {k};
        StoresFront(ss[n := None], m - {k});
        assert ss[n := None][..n] == ss[..n];
        StoresCount(ss[..n], m - {k});
      } else {
        StoresFront(ss, m);
        StoresCount(ss[..n], m);
      }
    }
  }

  lemma StoresFront(ss: Slots, m: map<int, Value>)
    requires Stores(ss, m) && ss != [] && ss[|ss| - 1].None?
    ensures Stores(ss[..|ss| - 1], m)
  {
    var front := ss[..|ss| - 1];
    forall k | k in m ensures HasSlot(front, k) {
      var i :| 0 <= i < |ss| && Keyed(ss[i], k);
      assert Keyed(front[i], k);
    }
  }

  /** A leaf with fewer pairs than slots has a free one, a full one has none. */
  lemma FreeOrFull(ss: Slots)
    ensures Filled(ss) < |ss| ==> exists i :: 0 <= i < |ss| && ss[i].None?
    ensures Filled(ss) == |ss| ==> forall i :: 0 <= i < |ss| ==> ss[i].Some?
  {
    if ss != [] {
      var front := ss[..|ss| - 1];
      FreeOrFull(front);
      if Filled(front) < |front| {
        var i :| 0 <= i < |front| && front[i].None?;
        assert ss[i].None?;
      }
    }
  }

  // ---------- the slots in the order of their keys ----------

  /** The slots among the first n that hold a pair, in the order of their keys. */
  ghost predicate Orders(ss: Slots, n: nat, ord: seq<nat>) {
    && n <= |ss| && (forall p :: 0 <= p < |ord| ==> ord[p] < n && ss[ord[p]].Some?)
    && (forall p, q :: 0 <= p < q < |ord| ==> SlotLess(ss, ord[p], ord[q]))
    && (forall i :: 0 <= i < n && ss[i].Some? ==> i in ord)
  }

  predicate SlotLess(ss: Slots, i: nat, j: nat) {
    i < |ss| && j < |ss| && ss[i].Some? && ss[j].Some? && ss[i].value.key < ss[j].value.key
  }

  function KeysAt(ss: Slots, ord: seq<nat>): (ks: seq<int>)
    requires forall p :: 0 <= p < |ord| ==> ord[p] < |ss| && ss[ord[p]].Some?
    ensures |ks| == |ord| && forall p :: 0 <= p < |ord| ==> ks[p] == ss[ord[p]].value.key
  {
    seq(|ord|, p requires 0 <= p < |ord| => ss[ord[p]].value.key)
  }

  /** These keys are the keys of the map in ascending order. */
  lemma OrdersKeys(ss: Slots, m: map<int, Value>, ord: seq<nat>)
    requires Stores(ss, m) && Orders(ss, |ss|, ord)
    ensures KeysAt(ss, ord) == Ascending(m.Keys)
  {
    var ks := KeysAt(ss, ord);
    AscendingIs(m.Keys);
    forall p, q | 0 <= p < q < |ks| ensures ks[p] < ks[q] {
      assert SlotLess(ss, ord[p], ord[q]);
    }
    forall x ensures x in ks <==> x in Ascending(m.Keys) {
      if x in ks {
        var p :| 0 <= p < |ks| && ks[p] == x;
        assert FromMap(ss[ord[p]], m);
      }
      if x in m {
        assert HasSlot(ss, x);
        var i :| 0 <= i < |ss| && Keyed(ss[i], x);
        var p :| 0 <= p < |ord| && ord[p] == i;
        assert ks[p] == x;
      }
    }
    AscendingUnique(ks, Ascending(m.Keys));
  }

  /** One more slot is put in its place. */
  lemma OrdersMore(ss: Slots, n: nat, ord: seq<nat>, m: map<int, Value>)
    requires Stores(ss, m) && n < |ss| && Orders(ss, n, ord)
    ensures ss[n].None? ==> Orders(ss, n + 1, ord)
    ensures ss[n].Some? ==> Orders(ss, n + 1, InsertAt(ord, Rank(KeysAt(ss, ord), ss[n].value.key), n))
  {
    if ss[n].Some? {
      var ks, k := KeysAt(ss, ord), ss[n].value.key;
      forall p, q | 0 <= p < q < |ks| ensures ks[p] < ks[q] {
        assert SlotLess(ss, ord[p], ord[q]);
      }
      var r := Rank(ks, k);
      assert r < |ks| ==> ks[r] != k by {
        assert r < |ks| ==> OtherKeys(ss[ord[r]], ss[n]);
      }
      PlaceOrders(ss, n, ord, r);
    }
  }

  lemma PlaceOrders(ss: Slots, n: nat, ord: seq<nat>, r: nat)
    requires n < |ss| && Orders(ss, n, ord) && ss[n].Some? && r <= |ord|
    requires forall p :: 0 <= p < r ==> SlotLess(ss, ord[p], n)
    requires forall p :: r <= p < |ord| ==> SlotLess(ss, n, ord[p])
    ensures Orders(ss, n + 1, InsertAt(ord, r, n))
  {
    var more := InsertAt(ord, r, n);
    forall i | 0 <= i < n + 1 && ss[i].Some? ensures i in more {
      PlaceHas(ord, r, n, i);
    }
    forall p, q | 0 <= p < q < |more| ensures SlotLess(ss, more[p], more[q]) {
      PlaceLess(ss, ord, n, r, p, q);
    }
  }

  lemma PlaceHas(ord: seq<nat>, r: nat, n: nat, i: nat)
    requires r <= |ord| && (i == n || i in ord)
    ensures i in InsertAt(ord, r, n)
  {
    var more := InsertAt(ord, r, n);
    if i == n {
      assert more[r] == n;
    } else {
      var p :| 0 <= p < |ord| && ord[p] == i;
      assert more[if p < r then p else p + 1] == i;
    }
  }

  lemma PlaceLess(ss: Slots, ord: seq<nat>, n: nat, r: nat, p: nat, q: nat)
    requires r <= |ord| && p < q <= |ord|
    requires forall p, q :: 0 <= p < q < |ord| ==> SlotLess(ss, ord[p], ord[q])
    requires forall p :: 0 <= p < r ==> SlotLess(ss, ord[p], n)
    requires forall p :: r <= p < |ord| ==> SlotLess(ss, n, ord[p])
    ensures SlotLess(ss, InsertAt(ord, r, n)[p], InsertAt(ord, r, n)[q])
  {
    hide SlotLess;
    var more := InsertAt(ord, r, n);
    if p == r {
      assert more[p] == n && more[q] == ord[q - 1];
    } else if q == r {
      assert more[q] == n && more[p] == ord[p];
    } else {
      var a, b := if p < r then p else p - 1, if q < r then q else q - 1;
      assert more[p] == ord[a] && more[q] == ord[b];
    }
  }

  /** The first n slots hold pairs in the order of their keys, the others nothing. */
  ghost predicate Tidy(ss: Slots, n: nat) {
    && n <= |ss| && (forall i :: 0 <= i < |ss| ==> (ss[i].Some? <==> i < n))
    && (forall i, j :: 0 <= i < j < n ==> SlotLess(ss, i, j))
  }

  lemma TidyKeys(ss: Slots, n: nat, m: map<int, Value>)
    requires Stores(ss, m) && Tidy(ss, n)
    ensures |m| == n && forall i :: 0 <= i < n ==> ss[i].value.key == Ascending(m.Keys)[i]
  {
    var ord := seq(n, i requires 0 <= i < n => i);
    forall i | 0 <= i < |ss| && ss[i].Some? ensures i in ord {
      assert ord[i] == i;
    }
    OrdersKeys(ss, m, ord);
    assert |Ascending(m.Keys)| == |m.Keys| == |m|;
  }

  // ---------- the two halves of a leaf ----------

  /** What is left of the slots when those from position h on in the order of keys have gone. */
  ghost predicate LowerHalf(ss: Slots, ord: seq<nat>, h: nat, left: Slots)
    requires h <= |ord|
  {
    |left| == |ss| && forall j :: 0 <= j < |ss| ==> left[j] == if j in ord[h..] then None else ss[j]
  }

  /** The slots they have gone to. */
  ghost predicate UpperHalf(ss: Slots, ord: seq<nat>, h: nat, right: Slots)
    requires h <= |ord| <= |ss| && forall p :: 0 <= p < |ord| ==> ord[p] < |ss|
  {
    |right| == |ss| && forall r :: 0 <= r < |ss| ==> right[r] == if r < |ord| - h then ss[ord[h + r]] else None
  }

  /** Which half a slot is in tells on which side of the middle key its own key is. */
  lemma HalfOf(ss: Slots, ord: seq<nat>, h: nat, j: nat)
    requires Orders(ss, |ss|, ord) && 0 < h <= |ord| && j < |ss| && ss[j].Some?
    ensures j in ord[h..] <==> ss[ord[h - 1]].value.key < ss[j].value.key
  {
    assert j in ord;
    var p :| 0 <= p < |ord| && ord[p] == j;
    if p < h {
      if p < h - 1 {
        assert SlotLess(ss, ord[p], ord[h - 1]);
      }
      forall q | h <= q < |ord| ensures ord[q] != j {
        assert SlotLess(ss, ord[p], ord[q]);
      }
    } else {
      assert SlotLess(ss, ord[h - 1], ord[p]);
      assert ord[h..][p - h] == j;
    }
  }

  lemma LowerStores(ss: Slots, m: map<int, Value>, ord: seq<nat>, h: nat, left: Slots)
    requires Stores(ss, m) && Orders(ss, |ss|, ord) && 0 < h <= |ord| && LowerHalf(ss, ord, h, left)
    ensures Stores(left, AtMost(m, ss[ord[h - 1]].value.key))
  {
    hide Orders;
    OrdersAt(ss, ord, h - 1);
    var b := ss[ord[h - 1]].value.key;
    var low := AtMost(m, b);
    forall j | 0 <= j < |left| ensures FromMap(left[j], low) {
      assert FromMap(ss[j], m);
      if ss[j].Some? {
        HalfOf(ss, ord, h, j);
      }
    }
    forall i, j | 0 <= i < j < |left| ensures OtherKeys(left[i], left[j]) {
      assert OtherKeys(ss[i], ss[j]);
    }
    forall k | k in low ensures HasSlot(left, k) {
      assert HasSlot(ss, k);
      var j :| 0 <= j < |ss| && Keyed(ss[j], k);
      HalfOf(ss, ord, h, j);
      assert Keyed(left[j], k);
    }
  }

  lemma OrdersAt(ss: Slots, ord: seq<nat>, p: nat)
    requires Orders(ss, |ss|, ord) && p < |ord|
    ensures ord[p] < |ss| && ss[ord[p]].Some?
  {
  }

  lemma UpperStores(ss: Slots, m: map<int, Value>, ord: seq<nat>, h: nat, right: Slots)
    requires Stores(ss, m) && Orders(ss, |ss|, ord) && h <= |ord| <= |ss| && UpperHalf(ss, ord, h, right)
    ensures Stores(right, if h == 0 then m else Above(m, ss[ord[h - 1]].value.key))
  {
    var up := if h == 0 then m else Above(m, ss[ord[h - 1]].value.key);
    forall r | 0 <= r < |right| ensures FromMap(right[r], up) {
      if r < |ord| - h {
        assert FromMap(ss[ord[h + r]], m);
        if h > 0 {
          assert SlotLess(ss, ord[h - 1], ord[h + r]);
        }
      }
    }
    forall i, j | 0 <= i < j < |right| ensures OtherKeys(right[i], right[j]) {
      if j < |ord| - h {
        assert SlotLess(ss, ord[h + i], ord[h + j]);
      }
    }
    forall k | k in up ensures HasSlot(right, k) {
      assert HasSlot(ss, k);
      var j :| 0 <= j < |ss| && Keyed(ss[j], k);
      UpperSlot(ss, ord, h, j);
      var p :| h <= p < |ord| && ord[p] == j;
      assert Keyed(right[p - h], k);
    }
  }

  lemma UpperSlot(ss: Slots, ord: seq<nat>, h: nat, j: nat)
    requires Orders(ss, |ss|, ord) && h <= |ord| && j < |ss| && ss[j].Some? && (h > 0 ==> ss[ord[h - 1]].value.key < ss[j].value.key)
    ensures exists p :: h <= p < |ord| && ord[p] == j
  {
    forall p | 0 <= p < h ensures ord[p] != j {
      AtMostMiddle(ss, ord, h, p);
    }
    assert j in ord;
  }

  lemma AtMostMiddle(ss: Slots, ord: seq<nat>, h: nat, p: nat)
    requires Orders(ss, |ss|, ord) && p < h <= |ord|
    ensures ss[ord[p]].value.key <= ss[ord[h - 1]].value.key
  {
    if p < h - 1 {
      assert SlotLess(ss, ord[p], ord[h - 1]);
    }
  }

  /** All slots moved, in the order of their keys, to the front. */
  lemma FrontStores(ss: Slots, m: map<int, Value>, ord: seq<nat>, front: Slots)
    requires Stores(ss, m) && Orders(ss, |ss|, ord) && |ord| <= |ss| && UpperHalf(ss, ord, 0, front)
    ensures Stores(front, m) && Tidy(front, |ord|) && |m| == |ord|
  {
    UpperStores(ss, m, ord, 0, front);
    forall i, j | 0 <= i < j < |ord| ensures SlotLess(front, i, j) {
      assert SlotLess(ss, ord[i], ord[j]);
    }
    OrdersKeys(ss, m, ord);
  }

  lemma TidyPut(ss: Slots, n: nat, i: nat, k: int, v: Value)
    requires Tidy(ss, n) && i < |ss| && Keyed(ss[i], k)
    ensures Tidy(ss[i := Some(Pair(k, v))], n)
  {
    var ss' := ss[i := Some(Pair(k, v))];
    forall a, b | 0 <= a < b < n ensures SlotLess(ss', a, b) {
      assert SlotLess(ss, a, b);
    }
  }

  lemma EmptySlots(ss: Slots)
    requires Stores(ss, map[])
    ensures forall i :: 0 <= i < |ss| ==> ss[i].None?
  {
    assert forall i :: 0 <= i < |ss| ==> FromMap(ss[i], map[]);
  }

  /** There are no more slots in the order than there are pairs. */
  lemma OrdersLength(ss: Slots, m: map<int, Value>, ord: seq<nat>)
    requires Stores(ss, m) && Orders(ss, |ss|, ord)
    ensures |ord| == |m| <= |ss|
  {
    OrdersKeys(ss, m, ord);
    StoresCount(ss, m);
  }
}
