/**
 Descending one level: the node whose bounds contain a key, searched for that key, leads to the child
 whose bounds contain it, and the search never leaves the node.
 */
module Routing {
  import opened Ordered
  import opened Level

  lemma OffStep(ns: seq<Inner>, j: nat)
    requires j < |ns|
    ensures Off(ns, j + 1) == Off(ns, j) + |ns[j].seps|
  {
    assert ns[..j + 1] == ns[..j] + [ns[j]];
    FlatConcat(ns[..j], [ns[j]]);
    FlatOne(ns[j]);
  }

  lemma {:induction false} OffMonotone(ns: seq<Inner>, a: nat, b: nat)
    requires a <= b <= |ns|
    ensures Off(ns, a) <= Off(ns, b) <= |FlatSeps(ns)|
    decreases |ns| - a
  {
    hide FlatSeps;
    if a < b {
      OffStep(ns, a);
      OffMonotone(ns, a + 1, b);
    } else if b < |ns| {
      OffStep(ns, b);
      OffMonotone(ns, b + 1, b + 1);
    } else {
      assert ns[..b] == ns;
    }
  }

  /** Where the separators and children of node j sit in the level. */
  lemma FlatAt(ns: seq<Inner>, ids: seq<Id>, size: nat, j: nat)
    requires LevelOk(ns, ids, size) && j < |ns|
    ensures Off(ns, j) + |ns[j].seps| <= |FlatSeps(ns)| && Off(ns, j) + |Kids(ns[j])| <= |FlatKids(ns)|
    ensures forall i :: 0 <= i < |ns[j].seps| ==> FlatSeps(ns)[Off(ns, j) + i] == ns[j].seps[i]
    ensures forall i :: 0 <= i < |Kids(ns[j])| ==> FlatKids(ns)[Off(ns, j) + i] == Kids(ns[j])[i]
    ensures j == |ns| - 1 ==> Off(ns, j) + |ns[j].seps| == |FlatSeps(ns)|
  {
    hide FlatSeps, FlatKids;
    FlatCounts(ns, ids, size);
    FlatWindow(ns[..j], [ns[j]], ns[j + 1..]);
    assert ns == ns[..j] + [ns[j]] + ns[j + 1..];
    FlatOne(ns[j]);
    if j == |ns| - 1 {
      assert ns[j + 1..] == [];
      FlatNone();
    }
  }

  lemma FlatNone()
    ensures FlatSeps([]) == [] && FlatKids([]) == []
  {
  }

  lemma HighAt(ns: seq<Inner>, ids: seq<Id>, size: nat, j: nat)
    requires LevelOk(ns, ids, size) && j < |ns| - 1
    ensures 0 < Off(ns, j + 1) <= |FlatSeps(ns)| && Highs(ns)[j] == FlatSeps(ns)[Off(ns, j + 1) - 1]
  {
    hide FlatSeps, FlatKids;
    OffStep(ns, j);
    FlatAt(ns, ids, size, j);
  }

  lemma SortedHighs(ns: seq<Inner>, ids: seq<Id>, size: nat)
    requires LevelOk(ns, ids, size) && Sorted(FlatSeps(ns))
    ensures Sorted(Highs(ns))
  {
    hide FlatSeps, FlatKids;
    var hs := Highs(ns);
    forall a, b | 0 <= a < b < |hs| ensures hs[a] < hs[b] {
      HighAt(ns, ids, size, a);
      HighAt(ns, ids, size, b);
      OffStep(ns, b);
      OffMonotone(ns, a + 1, b);
    }
  }

  /** The search in the node that covers k finds the position of k in the whole level. */
  lemma Route(ns: seq<Inner>, ids: seq<Id>, size: nat, k: int)
    requires LevelOk(ns, ids, size) && Sorted(FlatSeps(ns))
    ensures Rank(Highs(ns), k) < |ns|
    ensures var j := Rank(Highs(ns), k);
            var i := Rank(ns[j].seps, k);
            && Off(ns, j) + i == Rank(FlatSeps(ns), k)
            && (ns[j].hasSibling ==> i < |ns[j].seps|)
            && Off(ns, j) + i < |FlatKids(ns)|
            && Kids(ns[j])[i] == FlatKids(ns)[Off(ns, j) + i]
  {
    hide FlatSeps, FlatKids, Highs;
    assert |Highs(ns)| == |ns| - 1 by { HighsSize(ns); }
    var j := Rank(Highs(ns), k);
    RouteAt(ns, ids, size, k, j);
  }

  lemma HighsSize(ns: seq<Inner>)
    requires ns != []
    ensures |Highs(ns)| == |ns| - 1
  {
  }

  /** The same for any node known to cover k. */
  lemma RouteAt(ns: seq<Inner>, ids: seq<Id>, size: nat, k: int, j: nat)
    requires LevelOk(ns, ids, size) && Sorted(FlatSeps(ns)) && j < |ns|
    requires |Highs(ns)| == |ns| - 1
    requires j > 0 ==> Highs(ns)[j - 1] < k
    requires j < |ns| - 1 ==> k <= Highs(ns)[j]
    ensures var i := Rank(ns[j].seps, k);
            && Off(ns, j) + i == Rank(FlatSeps(ns), k)
            && (ns[j].hasSibling ==> i < |ns[j].seps|)
            && Off(ns, j) + i < |FlatKids(ns)|
            && Kids(ns[j])[i] == FlatKids(ns)[Off(ns, j) + i]
  {
    hide FlatSeps, FlatKids, Highs, Sorted, Rank;
    FlatAt(ns, ids, size, j);
    var i, o := Rank(ns[j].seps, k), Off(ns, j);
    var fs := FlatSeps(ns);
    if j < |ns| - 1 {
      HighAt(ns, ids, size, j);
      OffStep(ns, j);
      assert ns[j].seps[|ns[j].seps| - 1] == Highs(ns)[j];
      assert i < |ns[j].seps|;
    }
    if i == 0 {
      if j > 0 {
        HighAt(ns, ids, size, j - 1);
      } else {
        assert ns[..0] == [];
        FlatNone();
      }
    } else {
      assert fs[o + i - 1] == ns[j].seps[i - 1];
    }
    RankIs(fs, k, o + i);
  }
}
