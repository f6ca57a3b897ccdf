/**
 The nodes of GoogleBTree in place: an array of values and, unless the node is a leaf, one of child pointers. Two
 neighbours and the value between them are the same values and children in the same order after each edit.
 */
module BtreePages {
  import opened Ordered
  import opened Arrays

  /** A node with its children as pointers. */
  datatype View = View(values: seq<int>, kids: seq<int>)

  function Joined(l: View, v: int, r: View): View {
    View(l.values + [v] + r.values, l.kids + r.kids)
  }

  function LowPart(j: View, c: nat): View
    requires c < |j.values|
  {
    View(j.values[..c], if c < |j.kids| then j.kids[..c + 1] else [])
  }

  function HighPart(j: View, c: nat): View
    requires c < |j.values|
  {
    View(j.values[c + 1..], if c < |j.kids| then j.kids[c + 1..] else [])
  }

  /** Two neighbours and the parent's value between them: joined as before, cut at another place. */
  ghost predicate Shared(l: View, vs: seq<int>, r: View, l': View, vs': seq<int>, r': View, pos: nat) {
    && pos < |vs| == |vs'|
    && var j, c := Joined(l, vs[pos], r), |l'.values|;
    && c < |j.values| && l' == LowPart(j, c) && vs' == vs[pos := j.values[c]] && r' == HighPart(j, c)
  }

  /** A node cut in two; the value at the cut is in neither. */
  ghost predicate Parted(j: View, l: View, r: View) {
    |l.values| < |j.values| && l == LowPart(j, |l.values|) && r == HighPart(j, |l.values|)
  }

  class Page {
    const size: nat
    const leaf: bool
    const values: array<int>
    const kids: array<int>
    var count: nat

    ghost predicate Valid()
      reads this
    {
      values.Length == size && kids.Length == size + 1 && count <= size && values != kids
    }

    ghost function Content(): View
      requires Valid()
      reads this, values, kids
    {
      View(values[..count], if leaf then [] else kids[..count + 1])
    }

    ghost predicate Beside(o: Page) {
      this != o && values != o.values && values != o.kids && kids != o.values && kids != o.kids && size == o.size
    }

    constructor (size: nat, leaf: bool)
      ensures Valid() && count == 0 && this.size == size && this.leaf == leaf && fresh(values) && fresh(kids)
    {
      this.size, this.leaf, count := size, leaf, 0;
      values := new int[size];
      kids := new int[size + 1];
    }

    /** insert_value, and the child after it. */
    method InsertValue(i: nat, v: int, k: int)
      requires Valid() && i <= count < size
      modifies this, values, kids
      ensures Valid() && count == old(count) + 1
      ensures Content() == View(InsertAt(old(Content()).values, i, v), if leaf then [] else InsertAt(old(Content()).kids, i + 1, k))
    {
      OpenAt(values, count, i, v);
      if !leaf {
        OpenAt(kids, count + 1, i + 1, k);
      }
      count := count + 1;
    }

    /** remove_value, with the child after it. */
    method RemoveValue(i: nat)
      requires Valid() && i < count
      modifies this, values, kids
      ensures Valid() && count == old(count) - 1
      ensures Content() == View(RemoveAt(old(Content()).values, i), if leaf then [] else RemoveAt(old(Content()).kids, i + 1))
    {
      CloseAt(values, count, i);
      if !leaf {
        CloseAt(kids, count + 1, i + 1);
      }
      count := count - 1;
    }

    /** rebalance_right_to_left: n values come from the right neighbour by way of the parent. */
    method TakeFromRight(src: Page, parent: Page, pos: nat, n: nat)
      requires Valid() && src.Valid() && parent.Valid() && Beside(src) && Beside(parent) && src.Beside(parent) && leaf == src.leaf
      requires pos < parent.count && 1 <= n <= src.count && count + n <= size
      modifies this, values, kids, src, src.values, src.kids, parent.values
      ensures Valid() && src.Valid() && count == old(count) + n && src.count == old(src.count) - n
      ensures Shared(old(Content()), old(parent.values[..]), old(src.Content()), Content(), parent.values[..], src.Content(), pos)
    {
      hide Shared;
      ghost var l, r, vs := Content(), src.Content(), parent.values[..];
      TakeOver(src, parent, pos, n);
      count, src.count := count + n, src.count - n;
      TakenParts(l, vs, r, n, leaf, pos);
    }

    /** The arrays of that, before the counts change. */
    method TakeOver(src: Page, parent: Page, pos: nat, n: nat)
      requires Valid() && src.Valid() && parent.Valid() && Beside(src) && Beside(parent) && src.Beside(parent) && leaf == src.leaf
      requires pos < parent.count && 1 <= n <= src.count && count + n <= size
      modifies values, kids, src.values, src.kids, parent.values
      ensures values[..count + n] == old(Content()).values + [old(parent.values[pos])] + old(src.Content()).values[..n - 1]
      ensures src.values[..src.count - n] == old(src.Content()).values[n..]
      ensures !leaf ==> kids[..count + n + 1] == old(Content()).kids + old(src.Content()).kids[..n]
      ensures !leaf ==> src.kids[..src.count - n + 1] == old(src.Content()).kids[n..]
      ensures parent.values[..] == old(parent.values[..])[pos := old(src.Content()).values[n - 1]]
    {
      if !leaf {
        TakeKids(kids, count + 1, src.kids, src.count + 1, n);
      }
      TakeValues(values, count, src.values, src.count, parent.values, pos, n);
    }

    /** rebalance_left_to_right: n values go to the right neighbour by way of the parent. */
    method GiveToRight(dest: Page, parent: Page, pos: nat, n: nat)
      requires Valid() && dest.Valid() && parent.Valid() && Beside(dest) && Beside(parent) && dest.Beside(parent) && leaf == dest.leaf
      requires pos < parent.count && 1 <= n <= count && dest.count + n <= size
      modifies this, dest, dest.values, dest.kids, parent.values
      ensures Valid() && dest.Valid() && count == old(count) - n && dest.count == old(dest.count) + n
      ensures Shared(old(Content()), old(parent.values[..]), old(dest.Content()), Content(), parent.values[..], dest.Content(), pos)
    {
      hide Shared;
      ghost var l, r, vs := Content(), dest.Content(), parent.values[..];
      GiveOver(dest, parent, pos, n);
      count, dest.count := count - n, dest.count + n;
      GivenParts(l, vs, r, n, leaf, pos);
    }

    /** The arrays of that, before the counts change. */
    method GiveOver(dest: Page, parent: Page, pos: nat, n: nat)
      requires Valid() && dest.Valid() && parent.Valid() && Beside(dest) && Beside(parent) && dest.Beside(parent) && leaf == dest.leaf
      requires pos < parent.count && 1 <= n <= count && dest.count + n <= size
      modifies dest.values, dest.kids, parent.values
      ensures values[..count - n] == Content().values[..count - n] && (!leaf ==> kids[..count - n + 1] == Content().kids[..count - n + 1])
      ensures dest.values[..dest.count + n] == Content().values[count - n + 1..] + [old(parent.values[pos])] + old(dest.Content()).values
      ensures !leaf ==> dest.kids[..dest.count + n + 1] == Content().kids[count - n + 1..] + old(dest.Content()).kids
      ensures parent.values[..] == old(parent.values[..])[pos := Content().values[count - n]]
    {
      if !leaf {
        GiveKids(kids, count + 1, dest.kids, dest.count + 1, n);
      }
      GiveValues(values, count, dest.values, dest.count, parent.values, pos, n);
    }

    /** split: the values after the cut go to a new node, the one at the cut to the parent. */
    method Split(dest: Page, parent: Page, pos: nat, insertPosition: nat, id: int)
      requires Valid() && dest.Valid() && parent.Valid() && Beside(dest) && Beside(parent) && dest.Beside(parent)
      requires leaf == dest.leaf && !parent.leaf && dest.count == 0 && count == size >= 3 && pos <= parent.count < size && insertPosition <= size
      modifies this, dest, dest.values, dest.kids, parent, parent.values, parent.kids
      ensures Valid() && dest.Valid() && parent.Valid()
      ensures count == if insertPosition == 0 then 0 else if insertPosition == size then size - 1 else size - size / 2 - 1
      ensures Parted(old(Content()), Content(), dest.Content())
      ensures parent.Content() ==
              View(InsertAt(old(parent.Content()).values, pos, old(Content()).values[count]), InsertAt(old(parent.Content()).kids, pos + 1, id))
    {
      hide Parted;
      ghost var j, above := Content(), parent.Content();
      SplitOff(dest, if insertPosition == 0 then count - 1 else if insertPosition == size then 0 else count / 2);
      assert values[count] == j.values[count] && parent.Content() == above;
      parent.InsertValue(pos, values[count], id);
    }

    method SplitOff(dest: Page, n: nat)
      requires Valid() && dest.Valid() && Beside(dest) && leaf == dest.leaf && n < count
      modifies this, dest, dest.values, dest.kids
      ensures Valid() && dest.Valid() && count == old(count) - n - 1 && Parted(old(Content()), Content(), dest.Content())
      ensures values[count] == old(Content()).values[count]
    {
      hide Parted;
      ghost var j := Content();
      if !leaf {
        MoveUpper(kids, count + 1, dest.kids, n + 1);
      }
      MoveUpper(values, count, dest.values, n);
      assert values[..count] == j.values;
      count, dest.count := count - n - 1, n;
      SplitParts(j, count, leaf);
    }

    /** merge: the value between and all of the right neighbour come to this node. */
    method Merge(src: Page, parent: Page, pos: nat)
      requires Valid() && src.Valid() && parent.Valid() && Beside(src) && Beside(parent) && src.Beside(parent)
      requires leaf == src.leaf && !parent.leaf && pos < parent.count && count + 1 + src.count <= size
      modifies this, values, kids, src, parent, parent.values, parent.kids
      ensures Valid() && parent.Valid() && src.Valid() && src.count == 0
      ensures Content() == Joined(old(Content()), old(parent.values[pos]), old(src.Content()))
      ensures parent.Content() == View(RemoveAt(old(parent.Content()).values, pos), RemoveAt(old(parent.Content()).kids, pos + 1))
    {
      hide Joined;
      ghost var above := parent.Content();
      AppendAll(src, parent.values[pos]);
      assert parent.Content() == above;
      parent.RemoveValue(pos);
    }

    method AppendAll(src: Page, v: int)
      requires Valid() && src.Valid() && Beside(src) && leaf == src.leaf && count + 1 + src.count <= size
      modifies this, values, kids, src
      ensures Valid() && src.Valid() && src.count == 0 && Content() == Joined(old(Content()), v, old(src.Content()))
    {
      MergeValues(values, count, src.values, src.count, v);
      if !leaf {
        CopyBehind(kids, count + 1, src.kids, src.count + 1);
      }
      count, src.count := 1 + count + src.count, 0;
    }
  }

  // ---------- the arrays ----------

  method TakeValues(left: array<int>, lc: nat, right: array<int>, rc: nat, parent: array<int>, pos: nat, n: nat)
    requires left != right && left != parent && right != parent
    requires 1 <= n <= rc <= right.Length && lc + n <= left.Length && pos < parent.Length
    modifies left, right, parent
    ensures left[..lc + n] == old(left[..lc]) + [old(parent[pos])] + old(right[..rc])[..n - 1] && right[..rc - n] == old(right[..rc])[n..]
    ensures parent[..] == old(parent[..])[pos := old(right[n - 1])]
  {
    left[lc] := parent[pos];
    parent[pos] := right[n - 1];
    forall i | 1 <= i < n {
      left[lc + i] := right[i - 1];
    }
    SlideDown(right, n, rc - n);
  }

  method TakeKids(left: array<int>, lc: nat, right: array<int>, rc: nat, n: nat)
    requires left != right && n <= rc <= right.Length && lc + n <= left.Length
    modifies left, right
    ensures left[..lc + n] == old(left[..lc]) + old(right[..rc])[..n] && right[..rc - n] == old(right[..rc])[n..]
  {
    CopyBehind(left, lc, right, n);
    SlideDown(right, n, rc - n);
  }

  method GiveValues(left: array<int>, lc: nat, right: array<int>, rc: nat, parent: array<int>, pos: nat, n: nat)
    requires left != right && left != parent && right != parent
    requires 1 <= n <= lc <= left.Length && rc + n <= right.Length && pos < parent.Length
    modifies right, parent
    ensures right[..rc + n] == left[..lc][lc - n + 1..] + [old(parent[pos])] + old(right[..rc]) && left[..lc - n] == left[..lc][..lc - n]
    ensures parent[..] == old(parent[..])[pos := left[lc - n]]
  {
    SlideUp(right, rc, n);
    ghost var up := right[n..rc + n];
    right[n - 1] := parent[pos];
    parent[pos] := left[lc - n];
    forall i | 1 <= i < n {
      right[i - 1] := left[lc - n + i];
    }
    assert right[n..rc + n] == up;
  }

  method GiveKids(left: array<int>, lc: nat, right: array<int>, rc: nat, n: nat)
    requires left != right && n <= lc <= left.Length && rc + n <= right.Length
    modifies right
    ensures right[..rc + n] == left[..lc][lc - n..] + old(right[..rc]) && left[..lc - n] == left[..lc][..lc - n]
  {
    SlideUp(right, rc, n);
    ghost var up := right[n..rc + n];
    forall i | 0 <= i < n {
      right[i] := left[lc - n + i];
    }
    assert right[n..rc + n] == up;
  }

  method CopyBehind(left: array<int>, lc: nat, right: array<int>, n: nat)
    requires left != right && n <= right.Length && lc + n <= left.Length
    modifies left
    ensures left[..lc + n] == old(left[..lc]) + right[..n]
  {
    forall i | 0 <= i < n {
      left[lc + i] := right[i];
    }
  }

  method MergeValues(left: array<int>, lc: nat, right: array<int>, rc: nat, v: int)
    requires left != right && rc <= right.Length && lc + 1 + rc <= left.Length
    modifies left
    ensures left[..lc + 1 + rc] == old(left[..lc]) + [v] + right[..rc]
  {
    left[lc] := v;
    forall i | 0 <= i < rc {
      left[lc + 1 + i] := right[i];
    }
  }

  /** The last n of the first lc elements go to another array; two parts of what they were. */
  method MoveUpper(left: array<int>, lc: nat, right: array<int>, n: nat)
    requires left != right && n <= lc <= left.Length && n <= right.Length
    modifies right
    ensures right[..n] == left[..lc][lc - n..] && left[..lc - n] == left[..lc][..lc - n] && (n < lc ==> left[..lc - n - 1] == left[..lc][..lc - n - 1])
  {
    CopyTo(left, lc - n, n, right);
  }

  lemma SplitParts(j: View, c: nat, leaf: bool)
    requires c < |j.values| && if leaf then j.kids == [] else |j.kids| == |j.values| + 1
    ensures Parted(j, View(j.values[..c], if leaf then [] else j.kids[..c + 1]), View(j.values[c + 1..], if leaf then [] else j.kids[c + 1..]))
  {
  }

  lemma TakenParts(l: View, vs: seq<int>, r: View, n: nat, leaf: bool, pos: nat)
    requires pos < |vs| && 1 <= n <= |r.values| && (if leaf then l.kids == [] == r.kids else |l.kids| == |l.values| + 1 && |r.kids| == |r.values| + 1)
    ensures Shared(l, vs, r, View(l.values + [vs[pos]] + r.values[..n - 1], if leaf then [] else l.kids + r.kids[..n]),
                   vs[pos := r.values[n - 1]], View(r.values[n..], if leaf then [] else r.kids[n..]), pos)
  {
  }

  lemma GivenParts(l: View, vs: seq<int>, r: View, n: nat, leaf: bool, pos: nat)
    requires pos < |vs| && 1 <= n <= |l.values| && (if leaf then l.kids == [] == r.kids else |l.kids| == |l.values| + 1 && |r.kids| == |r.values| + 1)
    ensures var c := |l.values| - n;
      Shared(l, vs, r, View(l.values[..c], if leaf then [] else l.kids[..c + 1]), vs[pos := l.values[c]],
             View(l.values[c + 1..] + [vs[pos]] + r.values, if leaf then [] else l.kids[c + 1..] + r.kids), pos)
  {
  }
}
