/** Whole runs: any sequence of operations on a fresh tree gives the results of a plain finite map. */
module Runs {
  import opened Options
  import opened Leaves
  import opened LeafEdits
  import opened Store
  import opened Tree

  datatype Op = UpsertOp(k: int, v: Value) | UpdateOp(k: int, v: Value) | RemoveOp(k: int) | LookupOp(k: int)

  /** The map after one operation; every operation answers with the value the key had before. */
  function After(m: map<int, Value>, op: Op): map<int, Value> {
    match op
    case UpsertOp(k, v) => m[k := v]
    case UpdateOp(k, v) => if k in m then m[k := v] else m
    case RemoveOp(k) => m - {k}
    case LookupOp(_) => m
  }

  function AfterAll(m: map<int, Value>, ops: seq<Op>): map<int, Value> {
    if ops == [] then m else After(AfterAll(m, ops[..|ops| - 1]), ops[|ops| - 1])
  }

  method RunOne(t: FBTree, op: Op) returns (answer: Option<Value>)
    requires t.Valid()
    modifies t
    ensures t.Valid() && answer == Find(old(t.content), op.k) && t.content == After(old(t.content), op)
  {
    match op {
      case UpsertOp(k, v) => answer := t.Upsert(k, v);
      case UpdateOp(k, v) => answer := t.Update(k, v);
      case RemoveOp(k) => answer := t.Remove(k);
      case LookupOp(k) => answer := t.Lookup(k);
    }
  }

  method Run(c: Config, ops: seq<Op>) returns (t: FBTree, answers: seq<Option<Value>>)
    requires ConfigOk(c)
    ensures t.Valid() && t.content == AfterAll(map[], ops)
    ensures |answers| == |ops|
    ensures forall i :: 0 <= i < |ops| ==> answers[i] == Find(AfterAll(map[], ops[..i]), ops[i].k)
  {
    hide Complete, After;
    t := new FBTree(c);
    answers := [];
    for i := 0 to |ops|
      invariant t.Valid() && fresh(t) && t.content == AfterAll(map[], ops[..i])
      invariant |answers| == i
      invariant forall j :: 0 <= j < i ==> answers[j] == Find(AfterAll(map[], ops[..j]), ops[j].k)
    {
      var a := RunOne(t, ops[i]);
      answers := answers + [a];
      assert ops[..i + 1][..i] == ops[..i];
    }
    assert ops[..|ops|] == ops;
  }
}
