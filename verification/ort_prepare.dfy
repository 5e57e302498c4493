/**
 * prepare_graph of the ONNX Runtime exporter: the opset migration, convert_operation on
 * every quantable operation, the activation elision and the Dequantize/Quantize collapse,
 * in that order; and the facts that keep the graph well formed through them.
 */
module OrtPrepare {
  import opened Failures
  import opened Seqs
  import opened Quant
  import opened Graphs
  import opened QdqHelper
  import opened OrtInsert
  import opened OrtConvert
  import opened OrtMigrate
  import opened OrtActivation
  import opened OrtDedup

  /** Every variable of `s` is still in `r`, and is live in `r` exactly when it was in `s`. */
  ghost predicate KeepsLiveness(s: GraphState, r: GraphState) {
    |s.vars| <= |r.vars| && forall x :: 0 <= x < |s.vars| ==> r.vars[x].alive == s.vars[x].alive
  }

  // ---------------------------------------------------------------------------------
  // convert_operation keeps the graph well formed.

  /** An insertion keeps indices in range and liveness, and keeps a consistent graph consistent. */
  lemma InsertKeeps(s: GraphState, v: VarId, c: QuantConfig, o: OpId, quantize: bool)
    requires Closed(s) && v < |s.vars| && o < |s.ops|
    requires InsertQdq(s, v, c, o, quantize).Ok?
    ensures var r := InsertQdq(s, v, c, o, quantize).value.graph;
      Closed(r) && KeepsLiveness(s, r) && r.vars[|s.vars| + 2].alive
    ensures Consistent(s) && s.vars[v].alive ==> Consistent(InsertQdq(s, v, c, o, quantize).value.graph)
  {
    InsertQdqClosed(s, v, c, o, quantize);
    InsertQdqPreserves(s, v, c, o, quantize);
    if Consistent(s) && s.vars[v].alive {
      InsertQdqConsistent(s, v, c, o, quantize);
    }
  }

  lemma QuantThenDequantKeeps(s: GraphState, v: VarId, c: QuantConfig, o: OpId)
    requires Closed(s) && v < |s.vars| && o < |s.ops|
    requires QuantThenDequant(s, v, c, o).Ok?
    ensures var r := QuantThenDequant(s, v, c, o).value;
      Closed(r) && KeepsLiveness(s, r) && (Consistent(s) && s.vars[v].alive ==> Consistent(r))
  {
    var s1 := InsertQdq(s, v, c, o, true).value.graph;
    var r := InsertQdq(s1, |s.vars| + 2, c, o, false).value.graph;
    ChainOf(s, v, c, o, s1, r);
    InsertKeeps(s, v, c, o, true);
    SecondKeeps(s, v, c, o, s1, r);
  }

  /** The second insertion of a chain, on the first one's result taken as a plain state. */
  lemma SecondKeeps(s: GraphState, v: VarId, c: QuantConfig, o: OpId, s1: GraphState, r: GraphState)
    requires Closed(s1) && KeepsLiveness(s, s1) && |s.vars| + 2 < |s1.vars| && o < |s1.ops|
    requires s1.vars[|s.vars| + 2].alive
    requires Consistent(s) && v < |s.vars| && s.vars[v].alive ==> Consistent(s1)
    requires c.Has(Linear) || c.Has(Floating)
    requires r == InsertQdq(s1, |s.vars| + 2, c, o, false).value.graph
    ensures Closed(r) && KeepsLiveness(s, r) && (Consistent(s) && v < |s.vars| && s.vars[v].alive ==> Consistent(r))
  {
    InsertKeeps(s1, |s.vars| + 2, c, o, false);
  }

  lemma DequantToIntKeeps(s: GraphState, v: VarId, c: QuantConfig, o: OpId)
    requires Closed(s) && v < |s.vars| && o < |s.ops|
    requires DequantToInt(s, v, c, o).Ok?
    ensures var r := DequantToInt(s, v, c, o).value;
      Closed(r) && KeepsLiveness(s, r) && (Consistent(s) && s.vars[v].alive ==> Consistent(r))
  {
    var s1 := InsertQdq(s, v, c, o, false).value.graph;
    InsertKeeps(s, v, c, o, false);
    WithValueConsistent(s1, v, IntFormOf(s.vars[v].value, c));
  }

  /** Writing a configuration state changes no link. */
  lemma WithSlotStateKeeps(s: GraphState, o: OpId, slot: Slot, st: State)
    requires o < |s.ops|
    ensures var r := WithSlotState(s, o, slot, st);
      (Closed(s) ==> Closed(r)) && (Consistent(s) ==> Consistent(r))
  {
    var r := WithSlotState(s, o, slot, st);
    assert forall p :: 0 <= p < |s.ops| ==> r.ops[p].inputs == s.ops[p].inputs && r.ops[p].outputs == s.ops[p].outputs;
  }

  lemma ConvertBindingKeeps(s: GraphState, o: OpId, b: Binding, activations: bool, parameters: bool, toInt: bool)
    requires Closed(s) && o < |s.ops| && b.v < |s.vars|
    requires ConvertBinding(s, o, b, activations, parameters, toInt).Ok?
    ensures var r := ConvertBinding(s, o, b, activations, parameters, toInt).value;
      Closed(r) && KeepsLiveness(s, r) && (Consistent(s) && s.vars[b.v].alive ==> Consistent(r))
  {
    if !Exportable(b.config) {
    } else if s.vars[b.v].isParameter && parameters {
      var c := b.config.(state := Normalized(b.config.state));
      var s1 := WithSlotState(s, o, b.slot, c.state);
      WithSlotStateKeeps(s, o, b.slot, c.state);
      if toInt {
        DequantToIntKeeps(s1, b.v, c, o);
      } else {
        QuantThenDequantKeeps(s1, b.v, c, o);
      }
    } else if !s.vars[b.v].isParameter && activations {
      QuantThenDequantKeeps(s, b.v, b.config, o);
    }
  }

  lemma {:induction false} ConvertBindingsKeeps(s: GraphState, o: OpId, bs: seq<Binding>, activations: bool, parameters: bool, toInt: bool)
    requires Closed(s) && o < |s.ops| && forall b :: b in bs ==> b.v < |s.vars|
    requires ConvertBindings(s, o, bs, activations, parameters, toInt).Ok?
    ensures var r := ConvertBindings(s, o, bs, activations, parameters, toInt).value;
      && Closed(r) && KeepsLiveness(s, r)
      && (Consistent(s) && (forall b :: b in bs ==> s.vars[b.v].alive) ==> Consistent(r))
    decreases |bs|
  {
    if |bs| > 0 {
      assert bs[0] in bs && forall b :: b in bs[1..] ==> b in bs;
      var s1 := ConvertBinding(s, o, bs[0], activations, parameters, toInt).value;
      ConvertBindingKeeps(s, o, bs[0], activations, parameters, toInt);
      ConvertBindingsKeeps(s1, o, bs[1..], activations, parameters, toInt);
    }
  }

  /** convert_operation keeps indices in range and liveness, and keeps a consistent graph consistent. */
  lemma ConvertOperationKeeps(s: GraphState, o: OpId, activations: bool, parameters: bool, toInt: bool)
    requires Closed(s) && o < |s.ops|
    requires ConvertOperation(s, o, activations, parameters, toInt).Ok?
    ensures var r := ConvertOperation(s, o, activations, parameters, toInt).value;
      Closed(r) && KeepsLiveness(s, r) && (Consistent(s) ==> Consistent(r))
  {
    var bs := Bindings(s.ops[o]);
    if Consistent(s) {
      forall b | b in bs
        ensures s.vars[b.v].alive
      {
        LinkedVariablesAlive(s, o, b.v);
      }
    }
    ConvertBindingsKeeps(s, o, bs, activations, parameters, toInt);
  }

  // ---------------------------------------------------------------------------------
  // prepare_graph.

  /** Whether the operation loop of prepare_graph converts this operation: a live quantable one. */
  predicate Converted(op: Operation) {
    op.alive && op.Quantable()
  }

  /**
   * The operation loop of prepare_graph from operation `i` on, over the operations that
   * were registered when it started (ids below `n`): convert_operation on every live
   * quantable one; the first failure aborts.
   */
  function ConvertFrom(s: GraphState, i: nat, n: nat, activations: bool, parameters: bool, toInt: bool): (r: Result<GraphState>)
    requires Closed(s) && n <= |s.ops|
    ensures r.Ok? ==> Closed(r.value) && |s.ops| <= |r.value.ops| && KeepsLiveness(s, r.value)
    decreases n - i
  {
    if i >= n then Ok(s)
    else if !Converted(s.ops[i]) then ConvertFrom(s, i + 1, n, activations, parameters, toInt)
    else
      var s1 :- ConvertOperation(s, i, activations, parameters, toInt);
      ConvertOperationKeeps(s, i, activations, parameters, toInt);
      ConvertFrom(s1, i + 1, n, activations, parameters, toInt)
  }

  /**
   * prepare_graph(graph, process_activation, process_parameter, remove_activation_fn,
   * quant_parameter_to_int): the opset migration, convert_operation on every quantable
   * operation, the activation elision when asked for, and the Dequantize/Quantize collapse.
   */
  function PrepareGraph(s: GraphState, activations: bool, parameters: bool, removeActivations: bool, toInt: bool): (r: Result<GraphState>)
    requires Closed(s)
    ensures r.Ok? ==> Closed(r.value)
  {
    var m := Migrate(s);
    MigrateFromClosed(s, 0);
    var c :- ConvertFrom(m, 0, |m.ops|, activations, parameters, toInt);
    RemoveActivationsClosed(c);
    var e :- if removeActivations then RemoveActivations(c) else Ok(c);
    RemoveDuplicated(e)
  }

  /** The operation loop of prepare_graph on the graph object. */
  method ConvertAllOn(g: Graph, activations: bool, parameters: bool, toInt: bool) returns (res: Outcome)
    requires Closed(g.State())
    modifies g
    ensures res == OutcomeOf(ConvertFrom(old(g.State()), 0, old(|g.ops|), activations, parameters, toInt))
    ensures res.Pass? ==> g.State() == ConvertFrom(old(g.State()), 0, old(|g.ops|), activations, parameters, toInt).value
  {
    var n := |g.ops|;
    var i := 0;
    while i < n
      invariant i <= n <= |g.ops| && Closed(g.State())
      invariant ConvertFrom(old(g.State()), 0, n, activations, parameters, toInt)
             == ConvertFrom(g.State(), i, n, activations, parameters, toInt)
    {
      if g.ops[i].alive && g.ops[i].config.Some? {
        var before := g.State();
        res := ConvertOperationOn(g, i, activations, parameters, toInt);
        if res.Raise? {
          return;
        }
        ConvertOperationKeeps(before, i, activations, parameters, toInt);
      }
      i := i + 1;
    }
    res := Pass;
  }

  /** prepare_graph on the graph object. */
  method PrepareGraphOn(g: Graph, activations: bool, parameters: bool, removeActivations: bool, toInt: bool) returns (res: Outcome)
    requires Closed(g.State())
    modifies g
    ensures res == OutcomeOf(PrepareGraph(old(g.State()), activations, parameters, removeActivations, toInt))
    ensures res.Pass? ==> g.State() == PrepareGraph(old(g.State()), activations, parameters, removeActivations, toInt).value
  {
    MigrateFromClosed(g.State(), 0);
    MigrateOn(g);
    res := ConvertAllOn(g, activations, parameters, toInt);
    if res.Raise? {
      return;
    }
    if removeActivations {
      RemoveActivationsClosed(g.State());
      res := RemoveActivationsOn(g);
      if res.Raise? {
        return;
      }
    }
    res := RemoveDuplicatedOn(g);
  }

  /** The operation loop of prepare_graph keeps a consistent graph consistent. */
  lemma {:induction false} ConvertFromConsistent(s: GraphState, i: nat, n: nat, activations: bool, parameters: bool, toInt: bool)
    requires Consistent(s) && n <= |s.ops|
    requires ConvertFrom(s, i, n, activations, parameters, toInt).Ok?
    ensures Consistent(ConvertFrom(s, i, n, activations, parameters, toInt).value)
    decreases n - i
  {
    if i < n {
      if Converted(s.ops[i]) {
        ConvertOperationKeeps(s, i, activations, parameters, toInt);
        ConvertFromConsistent(ConvertOperation(s, i, activations, parameters, toInt).value, i + 1, n, activations, parameters, toInt);
      } else {
        ConvertFromConsistent(s, i + 1, n, activations, parameters, toInt);
      }
    }
  }

  /** prepare_graph keeps a consistent graph consistent. */
  lemma PrepareGraphConsistent(s: GraphState, activations: bool, parameters: bool, removeActivations: bool, toInt: bool)
    requires Consistent(s)
    requires PrepareGraph(s, activations, parameters, removeActivations, toInt).Ok?
    ensures Consistent(PrepareGraph(s, activations, parameters, removeActivations, toInt).value)
  {
    var m := Migrate(s);
    MigrateFromConsistent(s, 0);
    ConvertFromConsistent(m, 0, |m.ops|, activations, parameters, toInt);
    var c := ConvertFrom(m, 0, |m.ops|, activations, parameters, toInt).value;
    RemoveActivationsClosed(c);
    var e := if removeActivations then RemoveActivations(c).value else c;
    if removeActivations {
      RemoveActivationsConsistent(c);
    }
    RemoveDuplicatedConsistent(e, false);
  }
}
