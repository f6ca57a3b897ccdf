/** What an insertion, a split, a removal and a merge of leaves mean for the whole chain of leaves. */
module LeafEdits {
  import opened Options
  import opened Ordered
  import opened Level
  import opened Leaves

  /** The plain finite map a tree stands for, after the value of one key is set or cleared. */
  function Assign(m: map<int, Value>, k: int, v: Option<Value>): map<int, Value> {
    match v
    case Some(x) => m[k := x]
    case None => m - {k}
  }

  lemma AssignKeys(m: map<int, Value>, k: int, v: Option<Value>)
    ensures Assign(m, k, v).Keys <= m.Keys + {k}
  {
  }

  function Find(m: map<int, Value>, k: int): Option<Value> {
    if k in m then Some(m[k]) else None
  }

  // ---------- the leaf edits, one per branch of the code ----------

  /** LeafNode::upsert of a present key, or of a new key into a leaf with an empty slot. */
  function Put(l: Leaf, k: int, v: Value): Leaf {
    l.(kvs := l.kvs[k := v])
  }

  /** LeafNode::upsert into a full rightmost leaf, key above all: the new leaf takes the new pair alone. */
  function SplitTail(l: Leaf, k: int, v: Value, rid: Id): (Leaf, Leaf)
    requires l.kvs != map[]
  {
    (Leaf(l.kvs, Ascending(l.kvs.Keys)[|l.kvs| - 1], rid, true), Leaf(map[k := v], 0, 0, false))
  }

  /** LeafNode::upsert into a full leaf otherwise: the upper half moves to the new leaf. */
  function SplitHalf(l: Leaf, k: int, v: Value, rid: Id): (Leaf, Leaf)
    requires |l.kvs| > 1
  {
    var h := Ascending(l.kvs.Keys)[|l.kvs| / 2 - 1];
    var a := Leaf(AtMost(l.kvs, h), h, rid, true);
    var b := Leaf(Above(l.kvs, h), l.high, l.sibling, l.hasSibling);
    if k > h then (a, Put(b, k, v)) else (Put(a, k, v), b)
  }

  function Drop(l: Leaf, k: int): Leaf {
    l.(kvs := l.kvs - {k})
  }

  predicate LeafMergeGuard(l: Leaf, r: Leaf, mergeSize: nat) {
    |l.kvs| + |r.kvs| <= mergeSize || |l.kvs| == 0
  }

  /** LeafNode::merge. */
  function Join(l: Leaf, r: Leaf): Leaf {
    Leaf(l.kvs + r.kvs, r.high, r.sibling, r.hasSibling)
  }

  // ---------- contents ----------

  function SpliceLeaves(ls: seq<Leaf>, j: nat, c: nat, w: seq<Leaf>): seq<Leaf>
    requires j + c <= |ls|
  {
    ls[..j] + w + ls[j + c..]
  }

  lemma HoldsConcat(a: seq<Leaf>, b: seq<Leaf>, k: int, v: Value)
    ensures Holds(a + b, k, v) <==> Holds(a, k, v) || Holds(b, k, v)
  {
    if Holds(a, k, v) {
      var i :| 0 <= i < |a| && k in a[i].kvs && a[i].kvs[k] == v;
      assert (a + b)[i] == a[i];
    }
    if Holds(b, k, v) {
      var i :| 0 <= i < |b| && k in b[i].kvs && b[i].kvs[k] == v;
      assert (a + b)[|a| + i] == b[i];
    }
  }

  lemma HoldsWindow(a: seq<Leaf>, w: seq<Leaf>, b: seq<Leaf>, k: int, v: Value)
    ensures Holds(a + w + b, k, v) <==> Holds(a, k, v) || Holds(w, k, v) || Holds(b, k, v)
  {
    HoldsConcat(a + w, b, k, v);
    HoldsConcat(a, w, k, v);
  }

  lemma NotOutside(ls: seq<Leaf>, ids: seq<Id>, size: nat, k: int, j: nat, c: nat, v: Value)
    requires LeavesOk(ls, ids, size) && j <= Rank(LeafHighs(ls), k) < j + c <= |ls|
    ensures !Holds(ls[..j], k, v) && !Holds(ls[j + c..], k, v)
  {
    if Holds(ls[..j], k, v) {
      var i :| 0 <= i < j && k in ls[..j][i].kvs;
      HoldsAtRank(ls, ids, size, k, i);
    }
    if Holds(ls[j + c..], k, v) {
      var i :| 0 <= i < |ls| - j - c && k in ls[j + c..][i].kvs;
      HoldsAtRank(ls, ids, size, k, j + c + i);
    }
  }

  /** Editing a window of leaves around k edits the map at k and nowhere else. */
  lemma RepresentsSplice(ls: seq<Leaf>, ids: seq<Id>, size: nat, m: map<int, Value>, k: int, nv: Option<Value>,
                         j: nat, c: nat, w: seq<Leaf>)
    requires LeavesOk(ls, ids, size) && Represents(ls, m)
    requires j <= Rank(LeafHighs(ls), k) < j + c <= |ls|
    requires forall x, v :: x != k ==> (Holds(w, x, v) <==> Holds(ls[j..j + c], x, v))
    requires forall v: Value :: Holds(w, k, v) <==> nv == Some(v)
    ensures Represents(SpliceLeaves(ls, j, c, w), Assign(m, k, nv))
  {
    hide LeavesOk, Rank, Holds;
    var ls', m' := SpliceLeaves(ls, j, c, w), Assign(m, k, nv);
    assert ls == ls[..j] + ls[j..j + c] + ls[j + c..];
    forall x, v ensures (x in m' && m'[x] == v) <==> Holds(ls', x, v) {
      HoldsWindow(ls[..j], ls[j..j + c], ls[j + c..], x, v);
      HoldsWindow(ls[..j], w, ls[j + c..], x, v);
      if x == k {
        NotOutside(ls, ids, size, k, j, c, v);
      } else {
        assert (x in m && m[x] == v) <==> Holds(ls, x, v);
      }
    }
  }

  lemma HoldsOne(l: Leaf, k: int, v: Value)
    ensures Holds([l], k, v) <==> k in l.kvs && l.kvs[k] == v
  {
    if k in l.kvs && l.kvs[k] == v {
      assert [l][0] == l;
    }
  }

  lemma HoldsTwo(a: Leaf, b: Leaf, k: int, v: Value)
    ensures Holds([a, b], k, v) <==> (k in a.kvs && a.kvs[k] == v) || (k in b.kvs && b.kvs[k] == v)
  {
    HoldsConcat([a], [b], k, v);
    assert [a] + [b] == [a, b];
    HoldsOne(a, k, v);
    HoldsOne(b, k, v);
  }

  // ---------- shape ----------

  lemma ReplaceContents(ls: seq<Leaf>, ids: seq<Id>, size: nat, m: map<int, Value>, j: nat, l: Leaf, k: int, nv: Option<Value>)
    requires LeavesOk(ls, ids, size) && Represents(ls, m) && j < |ls| && j == Rank(LeafHighs(ls), k)
    requires l.kvs == Assign(ls[j].kvs, k, nv)
    ensures Represents(SpliceLeaves(ls, j, 1, [l]), Assign(m, k, nv))
  {
    hide LeavesOk, Represents, Rank;
    assert ls[j..j + 1] == [ls[j]];
    forall x, v ensures x != k ==> (Holds([l], x, v) <==> Holds(ls[j..j + 1], x, v)) {
      HoldsOne(l, x, v);
      HoldsOne(ls[j], x, v);
    }
    forall v: Value ensures Holds([l], k, v) <==> nv == Some(v) {
      HoldsOne(l, k, v);
    }
    RepresentsSplice(ls, ids, size, m, k, nv, j, 1, [l]);
  }

  lemma ReplaceRanges(ls: seq<Leaf>, ids: seq<Id>, size: nat, j: nat, l: Leaf, k: int)
    requires LeavesOk(ls, ids, size) && j < |ls| && j == Rank(LeafHighs(ls), k)
    requires l.high == ls[j].high && l.kvs.Keys <= ls[j].kvs.Keys + {k}
    ensures var ls' := ls[j := l]; forall i :: 0 <= i < |ls| ==> InRange(ls', i)
  {
    assert j > 0 ==> LeafHighs(ls)[j - 1] < k;
    assert j < |ls| - 1 ==> k <= LeafHighs(ls)[j];
    assert InRange(ls, j);
    assert forall x :: x in l.kvs.Keys ==> x in ls[j].kvs.Keys || x == k;
    hide Sorted, Rank;
    var ls' := ls[j := l];
    assert InRange(ls', j);
    forall i | 0 <= i < |ls| && i != j ensures InRange(ls', i) {
      assert InRange(ls, i);
      assert ls'[i] == ls[i] && (i > 0 ==> ls'[i - 1].high == ls[i - 1].high);
    }
  }

  /** One leaf replaced by another with the same bounds. */
  lemma ReplaceEdit(ls: seq<Leaf>, ids: seq<Id>, size: nat, m: map<int, Value>, j: nat, l: Leaf, k: int, nv: Option<Value>)
    requires LeavesOk(ls, ids, size) && Represents(ls, m) && j < |ls| && j == Rank(LeafHighs(ls), k)
    requires l == ls[j].(kvs := l.kvs) && |l.kvs| <= size && (l.hasSibling ==> l.kvs != map[])
    requires l.kvs == Assign(ls[j].kvs, k, nv)
    ensures var ls' := SpliceLeaves(ls, j, 1, [l]);
            LeavesOk(ls', ids, size) && Represents(ls', Assign(m, k, nv)) && LeavesRaise(ls, ids, ls', ids, Keep)
  {
    hide Represents, Holds, InRange, Rank, Sorted, Assign;
    ReplaceContents(ls, ids, size, m, j, l, k, nv);
    var ls' := ls[j := l];
    assert SpliceLeaves(ls, j, 1, [l]) == ls';
    assert LeafHighs(ls') == LeafHighs(ls);
    assert Assign(ls[j].kvs, k, nv).Keys <= ls[j].kvs.Keys + {k} by { AssignKeys(ls[j].kvs, k, nv); }
    ReplaceRanges(ls, ids, size, j, l, k);
  }

  ghost predicate Halves(l: Leaf, p: map<int, Value>, a: Leaf, b: Leaf, rid: Id, size: nat) {
    && a.hasSibling && a.sibling == rid && b.hasSibling == l.hasSibling
    && (l.hasSibling ==> b.high == l.high && b.sibling == l.sibling && a.high < l.high)
    && a.kvs != map[] && b.kvs != map[] && |a.kvs| <= size && |b.kvs| <= size
    && a.kvs.Keys + b.kvs.Keys == p.Keys
    && (forall k :: k in a.kvs ==> a.kvs[k] == p[k] && k <= a.high)
    && (forall k :: k in b.kvs ==> b.kvs[k] == p[k] && a.high < k)
  }

  lemma SplitAt(ls: seq<Leaf>, j: nat, a: Leaf, b: Leaf)
    requires j < |ls|
    ensures var ls' := SpliceLeaves(ls, j, 1, [a, b]);
            && |ls'| == |ls| + 1
            && ls'[j] == a && ls'[j + 1] == b
            && (forall i :: 0 <= i < j ==> ls'[i] == ls[i])
            && (forall i :: j + 1 < i < |ls'| ==> ls'[i] == ls[i - 1])
  {
  }

  lemma LeafHighsInsert(ls: seq<Leaf>, j: nat, a: Leaf, b: Leaf)
    requires j < |ls| && (j < |ls| - 1 ==> b.high == ls[j].high)
    ensures LeafHighs(SpliceLeaves(ls, j, 1, [a, b])) == InsertAt(LeafHighs(ls), j, a.high)
  {
    SplitAt(ls, j, a, b);
    var ls', hs' := SpliceLeaves(ls, j, 1, [a, b]), InsertAt(LeafHighs(ls), j, a.high);
    forall i | 0 <= i < |ls'| - 1 ensures ls'[i].high == hs'[i] {
    }
  }

  lemma SortedInsert(s: seq<int>, p: nat, x: int)
    requires Sorted(s) && p <= |s| && (p > 0 ==> s[p - 1] < x) && (p < |s| ==> x < s[p])
    ensures Sorted(InsertAt(s, p, x))
  {
    var t := InsertAt(s, p, x);
    forall i, j | 0 <= i < j < |t| ensures t[i] < t[j] {
      assert i < p ==> t[i] == s[i] && s[i] <= s[p - 1];
      assert j > p ==> t[j] == s[j - 1] && s[p] <= s[j - 1];
    }
  }

  lemma SplitBounds(ls: seq<Leaf>, ids: seq<Id>, size: nat, j: nat, k: int, p: map<int, Value>)
    requires LeavesOk(ls, ids, size) && j < |ls| && j == Rank(LeafHighs(ls), k) && p.Keys == ls[j].kvs.Keys + {k}
    ensures forall x :: x in p ==> (j > 0 ==> ls[j - 1].high < x) && (j < |ls| - 1 ==> x <= ls[j].high)
  {
    assert InRange(ls, j);
    assert j > 0 ==> LeafHighs(ls)[j - 1] < k;
    assert j < |ls| - 1 ==> k <= LeafHighs(ls)[j];
  }

  lemma SplitRanges(ls: seq<Leaf>, ids: seq<Id>, size: nat, j: nat, k: int, p: map<int, Value>, a: Leaf, b: Leaf, rid: Id)
    requires LeavesOk(ls, ids, size) && j < |ls| && j == Rank(LeafHighs(ls), k)
    requires p.Keys == ls[j].kvs.Keys + {k} && Halves(ls[j], p, a, b, rid, size)
    ensures var ls' := SpliceLeaves(ls, j, 1, [a, b]);
            && (forall i :: 0 <= i < |ls'| ==> InRange(ls', i))
            && (j > 0 ==> ls[j - 1].high < a.high)
  {
    hide Rank;
    var ls' := SpliceLeaves(ls, j, 1, [a, b]);
    SplitAt(ls, j, a, b);
    SplitBounds(ls, ids, size, j, k, p);
    assert forall x :: x in a.kvs.Keys || x in b.kvs.Keys ==> x in p;
    var some := Pick(a.kvs.Keys);
    assert InRange(ls', j) && InRange(ls', j + 1);
    forall i | 0 <= i < |ls'| && i != j && i != j + 1 ensures InRange(ls', i) {
      assert InRange(ls, if i < j then i else i - 1);
    }
  }

  lemma CutShape(ls: seq<Leaf>, ids: seq<Id>, size: nat, j: nat, a: Leaf, b: Leaf, rid: Id)
    requires LeavesOk(ls, ids, size) && j < |ls| && |a.kvs| <= size && |b.kvs| <= size
    requires a.hasSibling && a.sibling == rid && b.hasSibling == ls[j].hasSibling && a.kvs != map[] && b.kvs != map[]
    requires b.hasSibling ==> b.high == ls[j].high && b.sibling == ls[j].sibling && a.high < ls[j].high
    requires j > 0 ==> ls[j - 1].high < a.high
    requires var ls' := SpliceLeaves(ls, j, 1, [a, b]); forall i :: 0 <= i < |ls'| ==> InRange(ls', i)
    ensures var ls', ids' := SpliceLeaves(ls, j, 1, [a, b]), InsertAt(ids, j + 1, rid);
            LeavesOk(ls', ids', size) && LeavesRaise(ls, ids, ls', ids', Insert(j, a.high, rid))
  {
    hide InRange, Sorted, SpliceLeaves;
    LeafHighsInsert(ls, j, a, b);
    assert Sorted(LeafHighs(SpliceLeaves(ls, j, 1, [a, b]))) by {
      var hs := LeafHighs(ls);
      assert j > 0 ==> hs[j - 1] == ls[j - 1].high;
      assert j < |hs| ==> hs[j] == ls[j].high && b.hasSibling;
      SortedInsert(hs, j, a.high);
    }
    var ls', ids' := SpliceLeaves(ls, j, 1, [a, b]), InsertAt(ids, j + 1, rid);
    SplitAt(ls, j, a, b);
    assert ids'[j + 1] == rid && (forall i :: j + 1 < i < |ids'| ==> ids'[i] == ids[i - 1]);
    forall i | 0 <= i < |ls'| - 1 ensures ls'[i].hasSibling && ls'[i].kvs != map[] && ls'[i].sibling == ids'[i + 1] {
      assert i > j + 1 ==> ls'[i] == ls[i - 1] && ids'[i + 1] == ids[i];
    }
  }

  /** One leaf cut in two. */
  lemma CutEdit(ls: seq<Leaf>, ids: seq<Id>, size: nat, m: map<int, Value>, j: nat, k: int, v: Value,
                a: Leaf, b: Leaf, rid: Id)
    requires LeavesOk(ls, ids, size) && Represents(ls, m) && j < |ls| && j == Rank(LeafHighs(ls), k)
    requires Halves(ls[j], ls[j].kvs[k := v], a, b, rid, size)
    ensures var ls' := SpliceLeaves(ls, j, 1, [a, b]);
            var ids' := InsertAt(ids, j + 1, rid);
            && LeavesOk(ls', ids', size)
            && Represents(ls', m[k := v])
            && LeavesRaise(ls, ids, ls', ids', Insert(j, a.high, rid))
  {
    hide Represents, Holds, Rank, InRange, Sorted, SpliceLeaves, LeavesRaise;
    SplitRanges(ls, ids, size, j, k, ls[j].kvs[k := v], a, b, rid);
    CutShape(ls, ids, size, j, a, b, rid);
    CutContents(ls, ids, size, m, j, k, v, a, b, rid);
  }

  lemma CutContents(ls: seq<Leaf>, ids: seq<Id>, size: nat, m: map<int, Value>, j: nat, k: int, v: Value,
                    a: Leaf, b: Leaf, rid: Id)
    requires LeavesOk(ls, ids, size) && Represents(ls, m) && j < |ls| && j == Rank(LeafHighs(ls), k)
    requires Halves(ls[j], ls[j].kvs[k := v], a, b, rid, size)
    ensures Represents(SpliceLeaves(ls, j, 1, [a, b]), m[k := v])
  {
    hide LeavesOk, Represents, Rank;
    var p := ls[j].kvs[k := v];
    assert ls[j..j + 1] == [ls[j]];
    forall x, y ensures Holds([a, b], x, y) <==> x in p && p[x] == y {
      HoldsTwo(a, b, x, y);
      assert x in p <==> x in a.kvs.Keys + b.kvs.Keys;
    }
    forall x, y ensures x != k ==> (Holds([a, b], x, y) <==> Holds(ls[j..j + 1], x, y)) {
      HoldsOne(ls[j], x, y);
    }
    RepresentsSplice(ls, ids, size, m, k, Some(v), j, 1, [a, b]);
  }

  lemma SplitHalfHalves(l: Leaf, k: int, v: Value, rid: Id, size: nat)
    requires |l.kvs| == size >= 4 && k !in l.kvs
    requires l.hasSibling ==> (forall x :: x in l.kvs ==> x <= l.high)
    ensures var (a, b) := SplitHalf(l, k, v, rid); Halves(l, l.kvs[k := v], a, b, rid, size)
  {
    hide Ascending, Halves;
    CutSizes(l.kvs, size / 2);
    var h := Ascending(l.kvs.Keys)[size / 2 - 1];
    if k > h {
      CutRight(l, h, k, v, rid, size);
    } else {
      CutLeft(l, h, k, v, rid, size);
    }
  }

  lemma CutRight(l: Leaf, h: int, k: int, v: Value, rid: Id, size: nat)
    requires k !in l.kvs && h in l.kvs && size >= 4 && k > h
    requires |AtMost(l.kvs, h)| == size / 2 && |Above(l.kvs, h)| == size - size / 2
    requires l.hasSibling ==> (forall x :: x in l.kvs ==> x <= l.high)
    ensures Halves(l, l.kvs[k := v], Leaf(AtMost(l.kvs, h), h, rid, true),
                   Leaf(Above(l.kvs, h)[k := v], l.high, l.sibling, l.hasSibling), rid, size)
  {
    var lo, hi := AtMost(l.kvs, h), Above(l.kvs, h);
    var some := Pick(hi.Keys);
    assert some in l.kvs && h < some;
    assert hi[k := v].Keys == hi.Keys + {k};
    assert lo.Keys + (hi.Keys + {k}) == l.kvs[k := v].Keys;
    assert |hi.Keys + {k}| <= |hi.Keys| + 1;
  }

  lemma CutLeft(l: Leaf, h: int, k: int, v: Value, rid: Id, size: nat)
    requires k !in l.kvs && h in l.kvs && size >= 4 && k <= h
    requires |AtMost(l.kvs, h)| == size / 2 && |Above(l.kvs, h)| == size - size / 2
    requires l.hasSibling ==> (forall x :: x in l.kvs ==> x <= l.high)
    ensures Halves(l, l.kvs[k := v], Leaf(AtMost(l.kvs, h)[k := v], h, rid, true),
                   Leaf(Above(l.kvs, h), l.high, l.sibling, l.hasSibling), rid, size)
  {
    var lo, hi := AtMost(l.kvs, h), Above(l.kvs, h);
    var some := Pick(hi.Keys);
    assert some in l.kvs && h < some;
    assert lo[k := v].Keys == lo.Keys + {k};
    assert lo.Keys + {k} + hi.Keys == l.kvs[k := v].Keys;
    assert |lo.Keys + {k}| <= |lo.Keys| + 1;
  }

  lemma SplitTailHalves(l: Leaf, k: int, v: Value, rid: Id, size: nat)
    requires |l.kvs| == size >= 4 && !l.hasSibling && (forall x :: x in l.kvs ==> x < k)
    ensures var (a, b) := SplitTail(l, k, v, rid); Halves(l, l.kvs[k := v], a, b, rid, size)
  {
    var r := Ascending(l.kvs.Keys);
    AscendingIs(l.kvs.Keys);
    var (a, b) := SplitTail(l, k, v, rid);
    forall x | x in l.kvs ensures x <= a.high {
      assert x in r;
    }
    assert a.high in r;
    assert a.kvs.Keys + b.kvs.Keys == l.kvs[k := v].Keys;
  }

  lemma JoinAt(ls: seq<Leaf>, j: nat, l: Leaf)
    requires j + 1 < |ls|
    ensures var ls' := SpliceLeaves(ls, j, 2, [l]);
            && |ls'| == |ls| - 1
            && ls'[j] == l
            && (forall i :: 0 <= i < j ==> ls'[i] == ls[i])
            && (forall i :: j < i < |ls'| ==> ls'[i] == ls[i + 1])
  {
  }

  lemma LeafHighsDelete(ls: seq<Leaf>, j: nat, l: Leaf)
    requires j + 1 < |ls| && (j + 1 < |ls| - 1 ==> l.high == ls[j + 1].high)
    ensures LeafHighs(SpliceLeaves(ls, j, 2, [l])) == RemoveAt(LeafHighs(ls), j)
  {
    JoinAt(ls, j, l);
    var ls', hs' := SpliceLeaves(ls, j, 2, [l]), RemoveAt(LeafHighs(ls), j);
    forall i | 0 <= i < |ls'| - 1 ensures ls'[i].high == hs'[i] {
    }
  }

  lemma SortedRemove(s: seq<int>, p: nat)
    requires Sorted(s) && p < |s|
    ensures Sorted(RemoveAt(s, p))
  {
  }

  lemma JoinShape(ls: seq<Leaf>, ids: seq<Id>, size: nat, j: nat, l: Leaf)
    requires LeavesOk(ls, ids, size) && j + 1 < |ls| && |l.kvs| <= size
    requires l.high == ls[j + 1].high && l.sibling == ls[j + 1].sibling && l.hasSibling == ls[j + 1].hasSibling
    requires l.hasSibling ==> l.kvs != map[]
    requires var ls' := SpliceLeaves(ls, j, 2, [l]); forall i :: 0 <= i < |ls'| ==> InRange(ls', i)
    ensures var ls', ids' := SpliceLeaves(ls, j, 2, [l]), RemoveAt(ids, j + 1);
            LeavesOk(ls', ids', size) && LeavesRaise(ls, ids, ls', ids', Delete(j))
  {
    LeafHighsDelete(ls, j, l);
    SortedRemove(LeafHighs(ls), j);
    hide InRange, Sorted;
    var ls', ids' := SpliceLeaves(ls, j, 2, [l]), RemoveAt(ids, j + 1);
    JoinAt(ls, j, l);
    assert forall i :: j < i < |ids'| ==> ids'[i] == ids[i + 1];
  }

  /** A key removed from a leaf that then absorbs its right sibling. */
  lemma JoinEdit(ls: seq<Leaf>, ids: seq<Id>, size: nat, mergeSize: nat, m: map<int, Value>, j: nat, k: int)
    requires LeavesOk(ls, ids, size) && Represents(ls, m) && j + 1 < |ls| && j == Rank(LeafHighs(ls), k)
    requires mergeSize < size && LeafMergeGuard(Drop(ls[j], k), ls[j + 1], mergeSize)
    ensures var l := Join(Drop(ls[j], k), ls[j + 1]);
            var ls' := SpliceLeaves(ls, j, 2, [l]);
            var ids' := RemoveAt(ids, j + 1);
            && LeavesOk(ls', ids', size)
            && Represents(ls', m - {k})
            && LeavesRaise(ls, ids, ls', ids', Delete(j))
  {
    hide Represents, Holds, Rank, InRange, Sorted, SpliceLeaves, LeavesRaise;
    JoinRanges(ls, ids, size, j, k);
    JoinSize(Drop(ls[j], k), ls[j + 1]);
    JoinShape(ls, ids, size, j, Join(Drop(ls[j], k), ls[j + 1]));
    JoinContents(ls, ids, size, m, j, k);
  }

  lemma JoinSize(l: Leaf, r: Leaf)
    ensures |Join(l, r).kvs| <= |l.kvs| + |r.kvs|
    ensures r.kvs != map[] ==> Join(l, r).kvs != map[]
  {
    assert Join(l, r).kvs.Keys == l.kvs.Keys + r.kvs.Keys;
    assert |l.kvs.Keys + r.kvs.Keys| <= |l.kvs.Keys| + |r.kvs.Keys|;
  }

  lemma JoinRanges(ls: seq<Leaf>, ids: seq<Id>, size: nat, j: nat, k: int)
    requires LeavesOk(ls, ids, size) && j + 1 < |ls|
    ensures var ls' := SpliceLeaves(ls, j, 2, [Join(Drop(ls[j], k), ls[j + 1])]);
            forall i :: 0 <= i < |ls'| ==> InRange(ls', i)
  {
    var l := Join(Drop(ls[j], k), ls[j + 1]);
    var ls' := SpliceLeaves(ls, j, 2, [l]);
    JoinAt(ls, j, l);
    assert InRange(ls, j) && InRange(ls, j + 1);
    assert j > 0 ==> LeafHighs(ls)[j - 1] < LeafHighs(ls)[j];
    assert j + 1 < |ls| - 1 ==> LeafHighs(ls)[j] < LeafHighs(ls)[j + 1];
    forall i | 0 <= i < |ls'| ensures InRange(ls', i) {
      if i < j {
        assert InRange(ls, i);
      } else if i > j {
        assert InRange(ls, i + 1);
      }
    }
  }

  lemma NeighboursDisjoint(ls: seq<Leaf>, ids: seq<Id>, size: nat, j: nat, k: int)
    requires LeavesOk(ls, ids, size) && j + 1 < |ls| && j == Rank(LeafHighs(ls), k)
    ensures ls[j].kvs.Keys !! ls[j + 1].kvs.Keys && k !in ls[j + 1].kvs
  {
    assert InRange(ls, j) && InRange(ls, j + 1);
    assert k <= LeafHighs(ls)[j];
    assert forall x :: x in ls[j].kvs.Keys ==> x !in ls[j + 1].kvs.Keys;
  }

  lemma JoinContents(ls: seq<Leaf>, ids: seq<Id>, size: nat, m: map<int, Value>, j: nat, k: int)
    requires LeavesOk(ls, ids, size) && Represents(ls, m) && j + 1 < |ls| && j == Rank(LeafHighs(ls), k)
    ensures Represents(SpliceLeaves(ls, j, 2, [Join(Drop(ls[j], k), ls[j + 1])]), m - {k})
  {
    hide LeavesOk, Represents, Rank, Holds;
    var a, b := ls[j], ls[j + 1];
    var l := Join(Drop(a, k), b);
    assert ls[j..j + 2] == [a, b];
    NeighboursDisjoint(ls, ids, size, j, k);
    forall x, v ensures x != k ==> (Holds([l], x, v) <==> Holds(ls[j..j + 2], x, v)) {
      HoldsOne(l, x, v);
      HoldsTwo(a, b, x, v);
    }
    forall v: Value ensures !Holds([l], k, v) {
      HoldsOne(l, k, v);
    }
    RepresentsSplice(ls, ids, size, m, k, None, j, 2, [l]);
  }
}
