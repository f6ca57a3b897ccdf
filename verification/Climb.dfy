/**
 Propagating a change upwards. After a level is edited, the level above still describes the old state;
 what it lacks is one edit. Carrying that edit out either finishes the tree or leaves one edit for the
 next level.
 */
module Climb {
  import opened Ordered
  import opened Level
  import opened Leaves
  import opened Routing
  import opened Store

  /** The key the code searches the parent with, for an edit of the parent's separators s. */
  ghost predicate SearchKey(e: Edit, s: seq<int>, mid: int)
    requires Fits(e, |s|)
  {
    match e
    case Keep => true
    case Insert(_, x, _) => mid == x
    case Delete(p) => mid == s[p]
    case Lower(p, x) => mid == x && x <= s[p]
  }

  /** Levels up to a are final; level a + 1 still has separators s and children ch and owes the edit e at key k's place. */
  ghost predicate Pending(h: Heap, levels: seq<seq<Id>>, c: Config, a: nat, e: Edit, k: int, mid: int, s: seq<int>, ch: seq<Id>) {
    && Formed(h, levels, c) && a < |levels| && Linked(h, levels, a + 1)
    && |ch| == |s| + 1 && Fits(e, |s|)
    && Bounds(h, levels, a) == EditSeps(e, s) && levels[a] == EditKids(e, ch)
    && (a + 1 < |levels| ==>
          && s == FlatSeps(Inners(h, levels[a + 1])) && ch == FlatKids(Inners(h, levels[a + 1]))
          && |levels[|levels| - 1]| == 1)
    && (a + 1 == |levels| ==> s == [])
    && (!e.Keep? ==> e.pos == Rank(s, k))
    && SearchKey(e, s, mid)
    && Sorted(s) && Sorted(EditSeps(e, s))
  }

  /** The nodes visited above level a on the way down to key k, outermost first. */
  ghost predicate PathTo(h: Heap, levels: seq<seq<Id>>, a: nat, path: seq<Id>, k: int) {
    && a < |levels|
    && |path| == |levels| - 1 - a
    && forall b :: a < b < |levels| ==>
                     Rank(Bounds(h, levels, b), k) < |levels[b]| && path[|levels| - 1 - b] == levels[b][Rank(Bounds(h, levels, b), k)]
  }

  /** Bounds are ascending on every level, since each level's are among the one below's. */
  lemma {:induction false} SortedBounds(h: Heap, levels: seq<seq<Id>>, c: Config, a: nat)
    requires Formed(h, levels, c) && a < |levels|
    requires forall b :: 1 <= b <= a ==> LinkedAt(h, levels, b)
    ensures Sorted(Bounds(h, levels, a))
  {
    hide FlatSeps, FlatKids, Sorted, Placed;
    if a > 0 {
      SortedBounds(h, levels, c, a - 1);
      assert LinkedAt(h, levels, a);
      SortedHighs(Inners(h, levels[a]), levels[a], c.innerSize);
    }
  }

  lemma BoundsSize(h: Heap, levels: seq<seq<Id>>, c: Config, a: nat)
    requires Formed(h, levels, c) && a < |levels|
    ensures |levels[a]| > 0 && |Bounds(h, levels, a)| == |levels[a]| - 1
  {
  }

  /** The position of any key near a separator position is found inside the node that covers that position. */
  lemma RouteNear(ns: seq<Inner>, ids: seq<Id>, size: nat, k: int, mid: int)
    requires LevelOk(ns, ids, size) && Sorted(FlatSeps(ns))
    requires var p := Rank(FlatSeps(ns), k);
             (p > 0 ==> FlatSeps(ns)[p - 1] < mid) && (p < |FlatSeps(ns)| ==> mid <= FlatSeps(ns)[p])
    ensures Rank(Highs(ns), k) < |ns|
    ensures var j := Rank(Highs(ns), k);
            var i := Rank(ns[j].seps, mid);
            && Off(ns, j) + i == Rank(FlatSeps(ns), k)
            && (ns[j].hasSibling ==> i < |ns[j].seps|)
            && Off(ns, j) + i < |FlatKids(ns)|
            && Kids(ns[j])[i] == FlatKids(ns)[Off(ns, j) + i]
  {
    hide FlatSeps, FlatKids, Highs, Rank;
    var fs, p := FlatSeps(ns), Rank(FlatSeps(ns), k);
    HighsSize(ns);
    Route(ns, ids, size, k);
    var j := Rank(Highs(ns), k);
    RankIs(fs, mid, p);
    if j > 0 {
      HighAt(ns, ids, size, j - 1);
      assert Highs(ns)[j - 1] < mid;
    }
    if j < |ns| - 1 {
      HighAt(ns, ids, size, j);
      OffStep(ns, j);
      assert fs[p] <= Highs(ns)[j];
    }
    RouteAt(ns, ids, size, mid, j);
  }

  lemma InsertBetween(s: seq<int>, p: nat, x: int)
    requires p <= |s| && Sorted(InsertAt(s, p, x))
    ensures (p > 0 ==> s[p - 1] < x) && (p < |s| ==> x < s[p])
  {
    var t := InsertAt(s, p, x);
    assert p > 0 ==> t[p - 1] < t[p];
    assert p < |s| ==> t[p] < t[p + 1];
  }

  lemma UpdateBetween(s: seq<int>, p: nat, x: int)
    requires p < |s| && Sorted(s[p := x])
    ensures p > 0 ==> s[p - 1] < x
  {
    var t := s[p := x];
    assert p > 0 ==> t[p - 1] < t[p];
  }

  /** Searching the parent finds the place of the pending edit. */
  lemma WorkIndex(h: Heap, levels: seq<seq<Id>>, c: Config, a: nat, e: Edit, k: int, mid: int, s: seq<int>, ch: seq<Id>)
    requires Pending(h, levels, c, a, e, k, mid, s, ch) && !e.Keep? && a + 1 < |levels|
    ensures Rank(Bounds(h, levels, a + 1), k) < |levels[a + 1]|
    ensures var ns := Inners(h, levels[a + 1]);
            var j := Rank(Highs(ns), k);
            var i := Rank(ns[j].seps, mid);
            && Off(ns, j) + i == e.pos
            && (ns[j].hasSibling ==> i < |ns[j].seps|)
            && Kids(ns[j])[i] == ch[e.pos]
            && Sorted(Highs(ns)) && |Highs(ns)| == |ns| - 1
  {
    hide FlatSeps, FlatKids, Sorted, Placed, LevelOk, LeavesOk, Linked, Highs, Rank;
    var ns := Inners(h, levels[a + 1]);
    match e {
      case Insert(p, x, _) => InsertBetween(s, p, x);
      case Delete(p) => DeleteBetween(s, p);
      case Lower(p, x) => UpdateBetween(s, p, x);
    }
    RouteNear(ns, levels[a + 1], c.innerSize, k, mid);
    SortedHighs(ns, levels[a + 1], c.innerSize);
    assert ns != [] by { BoundsSize(h, levels, c, a + 1); }
    HighsSize(ns);
  }

  lemma DeleteBetween(s: seq<int>, p: nat)
    requires p < |s| && Sorted(s)
    ensures p > 0 ==> s[p - 1] < s[p]
  {
  }

  /** Carrying the edit out on level b = a + 1 leaves the tree finished up to b, with the edit up for the level above. */
  lemma Climbed(h: Heap, h': Heap, levels: seq<seq<Id>>, c: Config, a: nat, e: Edit, k: int, mid: int, s: seq<int>, ch: seq<Id>,
                ids': seq<Id>, up: Edit, mid': int)
    requires Pending(h, levels, c, a, e, k, mid, s, ch) && a + 1 < |levels|
    requires Agree(h, h', levels[a + 1]) && Replaces(h, levels[a + 1], ids')
    requires forall x :: x in ids' ==> x in h' && h'[x].InnerNode?
    requires LevelOk(Inners(h', ids'), ids', c.innerSize)
    requires Absorbs(Inners(h, levels[a + 1]), Inners(h', ids'), e)
    requires Raises(Inners(h, levels[a + 1]), levels[a + 1], Inners(h', ids'), ids', up)
    requires SearchKey(up, Highs(Inners(h, levels[a + 1])), mid')
    requires !up.Keep? ==> up.pos == Rank(Highs(Inners(h, levels[a + 1])), k)
    ensures Pending(h', levels[a + 1 := ids'], c, a + 1, up, k, mid', Highs(Inners(h, levels[a + 1])), levels[a + 1])
    ensures forall b :: a + 1 < b < |levels| ==> Bounds(h', levels[a + 1 := ids'], b) == Bounds(h, levels, b)
  {
    hide FlatSeps, FlatKids, Sorted, Placed, LevelOk, LeavesOk, Highs, Rank, Agree, Replaces, LeafHighs;
    var b := a + 1;
    var levels' := levels[b := ids'];
    FormedReplace(h, h', levels, c, b, ids');
    BoundsSize(h, levels, c, b);
    assert Sorted(Highs(Inners(h, levels[b]))) by { SortedHighs(Inners(h, levels[b]), levels[b], c.innerSize); }
    assert Sorted(Highs(Inners(h', ids'))) by { SortedHighs(Inners(h', ids'), ids', c.innerSize); }
    forall d | 1 <= d < |levels'| && d != b + 1 ensures LinkedAt(h', levels', d) {
      if d != b {
        assert LinkedAt(h, levels, d);
      }
    }
    if b + 1 < |levels| {
      assert LinkedAt(h, levels, b + 1);
    } else {
      assert |levels[b]| == 1;
    }
  }

  /** Nothing pending: the tree is complete. */
  lemma Settled(h: Heap, levels: seq<seq<Id>>, c: Config, a: nat, k: int, mid: int, s: seq<int>, ch: seq<Id>)
    requires Pending(h, levels, c, a, Keep, k, mid, s, ch)
    ensures TreeOk(h, levels, c)
  {
    hide FlatSeps, FlatKids, Sorted, Placed, LevelOk, LeavesOk, Highs, Rank;
    forall b | 1 <= b < |levels| ensures LinkedAt(h, levels, b) {
      if b != a + 1 {
        assert LinkedAt(h, levels, b);
      }
    }
    if a + 1 == |levels| {
      assert |levels[a]| == 1;
    }
  }
}
