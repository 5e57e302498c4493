/**
 * convert_operation_from_opset11_to_opset13 of the ONNX Runtime exporter: opset 13 takes
 * the `axes` of ReduceSum/Squeeze/Unsqueeze and the `split` of Split as an input rather
 * than an attribute, so each such attribute is moved into a new int64 parameter that the
 * operation reads as its last input.
 */
module OrtMigrate {
  import opened Failures
  import opened Graphs

  /** The attribute opset 13 turns into an input, for the operation types that have one. */
  function MovedAttribute(kind: OpType): Option<string> {
    if kind == ReduceSum || kind == Squeeze || kind == Unsqueeze then Some("axes")
    else if kind == Split then Some("split")
    else None
  }

  /** An integer attribute's values (a single integer is a one-element list). */
  function AttrInts(a: Attr): seq<int> {
    match a
    case IntAttr(i) => [i]
    case IntsAttr(xs) => xs
  }

  /** The shape of the int64 tensor an attribute converts to: a scalar or a vector. */
  function AttrShape(a: Attr): seq<int> {
    match a
    case IntAttr(_) => []
    case IntsAttr(xs) => [|xs|]
  }

  /** A registered operation still in its opset 11 form. */
  predicate NeedsMigration(op: Operation) {
    op.alive && MovedAttribute(op.kind).Some? && MovedAttribute(op.kind).value in op.attrs
  }

  /**
   * One operation: the attribute is popped, its values become a new int64 parameter
   * (variable |vars|), the operation reads it as its last input, and an input meta for
   * it is appended. Operations in their opset 13 form are left as they are.
   */
  function MigrateOp(s: GraphState, o: OpId): (r: GraphState)
    requires o < |s.ops|
    ensures |r.ops| == |s.ops|
    ensures !NeedsMigration(s.ops[o]) ==> r == s
    ensures NeedsMigration(s.ops[o]) ==>
      var key := MovedAttribute(s.ops[o].kind).value;
      var a := s.ops[o].attrs[key];
      && |r.vars| == |s.vars| + 1
      && r.vars[|s.vars|].isParameter && r.vars[|s.vars|].alive
      && r.vars[|s.vars|].value == Ints(AttrInts(a), Int64)
      && r.ops[o].attrs == s.ops[o].attrs - {key}
      && r.ops[o].inputs == s.ops[o].inputs + [|s.vars|]
      && r.ops[o].meta.inputMetas == s.ops[o].meta.inputMetas + [TensorMeta(Int64, AttrShape(a))]
      && r.ops[o].kind == s.ops[o].kind && r.ops[o].outputs == s.ops[o].outputs
      && r.ops[o].config == s.ops[o].config && r.ops[o].alive
      && !NeedsMigration(r.ops[o])
    ensures forall p :: 0 <= p < |s.ops| && p != o ==> r.ops[p] == s.ops[p]
    ensures |s.vars| <= |r.vars| && forall x :: 0 <= x < |s.vars| ==> r.vars[x] == s.vars[x]
    ensures r.outputs == s.outputs
  {
    if !NeedsMigration(s.ops[o]) then s
    else
      var op := s.ops[o];
      var key := MovedAttribute(op.kind).value;
      var a := op.attrs[key];
      var linked := LinkInput(NewVariable(s, true, Ints(AttrInts(a), Int64), AttrShape(a)), |s.vars|, o);
      WithDetails(linked, o, op.attrs - {key}, op.config,
                  op.meta.(inputMetas := op.meta.inputMetas + [TensorMeta(Int64, AttrShape(a))]))
  }

  /** The loop over the registered operations from index `i` on, in registry order. */
  function MigrateFrom(s: GraphState, i: nat): (r: GraphState)
    ensures |r.ops| == |s.ops| && |s.vars| <= |r.vars| && r.outputs == s.outputs
    decreases |s.ops| - i
  {
    if i >= |s.ops| then s else MigrateFrom(MigrateOp(s, i), i + 1)
  }

  /** convert_operation_from_opset11_to_opset13. */
  function Migrate(s: GraphState): (r: GraphState)
    ensures |r.ops| == |s.ops| && |s.vars| <= |r.vars| && r.outputs == s.outputs
  {
    MigrateFrom(s, 0)
  }

  method MigrateOn(g: Graph)
    modifies g
    ensures g.State() == Migrate(old(g.State()))
  {
    var i := 0;
    while i < |g.ops|
      invariant i <= |g.ops|
      invariant Migrate(old(g.State())) == MigrateFrom(g.State(), i)
    {
      var op := g.ops[i];
      if NeedsMigration(op) {
        var key := MovedAttribute(op.kind).value;
        var a := op.attrs[key];
        var created := g.CreateVariable(true, Ints(AttrInts(a), Int64), AttrShape(a));
        g.CreateLinkWithOp(created, i);
        g.SetDetails(i, op.attrs - {key}, op.config,
                     op.meta.(inputMetas := op.meta.inputMetas + [TensorMeta(Int64, AttrShape(a))]));
      }
      i := i + 1;
    }
  }

  // ---------------------------------------------------------------------------------
  // What the migration does.

  /**
   * After the loop from `i`, no operation from `i` on is left in its opset 11 form; the
   * operations before `i`, and those that needed nothing, are unchanged; and each migrated
   * operation reads, as its new last input, a parameter holding the attribute's values.
   */
  lemma {:induction false} MigrateFromEffect(s: GraphState, i: nat)
    ensures var r := MigrateFrom(s, i);
      && (forall j :: i <= j < |s.ops| ==> !NeedsMigration(r.ops[j]))
      && (forall j :: 0 <= j < |s.ops| && (j < i || !NeedsMigration(s.ops[j])) ==> r.ops[j] == s.ops[j])
      && (forall x :: 0 <= x < |s.vars| ==> r.vars[x] == s.vars[x])
      && (forall j :: i <= j < |s.ops| && NeedsMigration(s.ops[j]) ==>
            var key := MovedAttribute(s.ops[j].kind).value;
            && r.ops[j].attrs == s.ops[j].attrs - {key}
            && |r.ops[j].inputs| == |s.ops[j].inputs| + 1
            && r.ops[j].inputs[..|s.ops[j].inputs|] == s.ops[j].inputs
            && var w := r.ops[j].inputs[|s.ops[j].inputs|];
               w < |r.vars| && r.vars[w].isParameter && r.vars[w].value == Ints(AttrInts(s.ops[j].attrs[key]), Int64))
    decreases |s.ops| - i
  {
    if i < |s.ops| {
      var s1 := MigrateOp(s, i);
      MigrateFromEffect(s1, i + 1);
      var r := MigrateFrom(s1, i + 1);
      assert r == MigrateFrom(s, i);
      if NeedsMigration(s.ops[i]) {
        var key := MovedAttribute(s.ops[i].kind).value;
        assert r.ops[i] == s1.ops[i];
        assert s1.ops[i].inputs[..|s.ops[i].inputs|] == s.ops[i].inputs;
        assert r.vars[|s.vars|] == s1.vars[|s.vars|];
      }
    }
  }

  /** On a graph with nothing left in opset 11 form (from `i` on), the loop changes nothing. */
  lemma {:induction false} MigrateFromIdle(s: GraphState, i: nat)
    requires forall j :: i <= j < |s.ops| ==> !NeedsMigration(s.ops[j])
    ensures MigrateFrom(s, i) == s
    decreases |s.ops| - i
  {
    if i < |s.ops| {
      MigrateFromIdle(s, i + 1);
    }
  }

  /** Running the migration twice is the same as running it once. */
  lemma MigrateIdempotent(s: GraphState)
    ensures Migrate(Migrate(s)) == Migrate(s)
  {
    MigrateFromEffect(s, 0);
    MigrateFromIdle(Migrate(s), 0);
  }

  /** Migrating one operation keeps the graph consistent. */
  lemma MigrateOpConsistent(s: GraphState, o: OpId)
    requires Consistent(s) && o < |s.ops|
    ensures Consistent(MigrateOp(s, o))
  {
    if NeedsMigration(s.ops[o]) {
      var op := s.ops[o];
      var key := MovedAttribute(op.kind).value;
      var a := op.attrs[key];
      var s1 := NewVariable(s, true, Ints(AttrInts(a), Int64), AttrShape(a));
      NewVariableConsistent(s, true, Ints(AttrInts(a), Int64), AttrShape(a));
      LinkInputConsistent(s1, |s.vars|, o);
      var linked := LinkInput(s1, |s.vars|, o);
      WithDetailsConsistent(linked, o, op.attrs - {key}, op.config,
                            op.meta.(inputMetas := op.meta.inputMetas + [TensorMeta(Int64, AttrShape(a))]));
    }
  }

  /** Migrating one operation keeps indices in range. */
  lemma MigrateOpClosed(s: GraphState, o: OpId)
    requires Closed(s) && o < |s.ops|
    ensures Closed(MigrateOp(s, o))
  {
    if NeedsMigration(s.ops[o]) {
      var op := s.ops[o];
      var key := MovedAttribute(op.kind).value;
      var a := op.attrs[key];
      var s1 := NewVariable(s, true, Ints(AttrInts(a), Int64), AttrShape(a));
      NewVariableClosed(s, true, Ints(AttrInts(a), Int64), AttrShape(a));
      LinkInputClosed(s1, |s.vars|, o);
      var linked := LinkInput(s1, |s.vars|, o);
      WithDetailsConsistent(linked, o, op.attrs - {key}, op.config,
                            op.meta.(inputMetas := op.meta.inputMetas + [TensorMeta(Int64, AttrShape(a))]));
    }
  }

  /** The migration keeps indices in range. */
  lemma {:induction false} MigrateFromClosed(s: GraphState, i: nat)
    requires Closed(s)
    ensures Closed(MigrateFrom(s, i))
    decreases |s.ops| - i
  {
    if i < |s.ops| {
      MigrateOpClosed(s, i);
      MigrateFromClosed(MigrateOp(s, i), i + 1);
    }
  }

  /** The migration keeps the graph consistent. */
  lemma {:induction false} MigrateFromConsistent(s: GraphState, i: nat)
    requires Consistent(s)
    ensures Consistent(MigrateFrom(s, i))
    decreases |s.ops| - i
  {
    if i < |s.ops| {
      MigrateOpConsistent(s, i);
      MigrateFromConsistent(MigrateOp(s, i), i + 1);
    }
  }
}
