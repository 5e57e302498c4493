/**
 * prepare_graph of the TensorRT QDQ exporter: after the opset migration, each quantable
 * operation of the graph as it then stands is visited once. Conv, Gemm, ConvTranspose and
 * MatMul get a QDQ pair on their weight (input 1), and on their data input (input 0)
 * when its configuration is activated; their bias stays in FP32. AveragePool and
 * GlobalAveragePool get one on their input when activated. Every other quantable
 * operation goes through the ONNX Runtime convert_operation, activations and parameters
 * both processed, parameters left in floating point.
 */
module TrtPrepare {
  import opened Failures
  import opened Seqs
  import opened Quant
  import opened Graphs
  import opened OrtConvert
  import opened OrtMigrate
  import OrtPrepare
  import opened TrtInsert

  /** The types whose weight TensorRT wants quantized. */
  predicate Weighted(k: OpType) {
    k == Conv || k == Gemm || k == ConvTranspose || k == MatMul
  }

  /** The types whose input TensorRT wants quantized. */
  predicate Pooling(k: OpType) {
    k == AveragePool || k == GlobalAveragePool
  }

  /** An insertion keeps indices in range and liveness, and keeps a consistent graph consistent. */
  lemma InsertKeeps(s: GraphState, v: VarId, c: QuantConfig, o: OpId)
    requires Closed(s) && v < |s.vars| && o < |s.ops|
    ensures var r := Insert(s, v, c, o);
      && Closed(r) && OrtPrepare.KeepsLiveness(s, r)
      && (Consistent(s) && v in s.ops[o].inputs ==> Consistent(r))
  {
    InsertClosed(s, v, c, o);
    if Consistent(s) && v in s.ops[o].inputs {
      InsertConsistent(s, v, c, o);
    }
  }

  /**
   * The loop body of prepare_graph for a quantable operation `o`. A weighted operation
   * with fewer than two input configurations fails its assertion, one with fewer than two
   * inputs fails to unpack them; a pooling operation with no input configuration fails its
   * assertion, one with no input fails to index it.
   */
  function PrepareOperation(s: GraphState, o: OpId): (r: Result<GraphState>)
    requires Closed(s) && o < |s.ops| && s.ops[o].Quantable()
    ensures r.Ok? ==> Closed(r.value) && |s.ops| <= |r.value.ops| && OrtPrepare.KeepsLiveness(s, r.value)
  {
    var op := s.ops[o];
    var configs := op.config.value.inputConfigs;
    if Weighted(op.kind) then
      if |configs| < 2 then Fail(AssertionError)
      else if |op.inputs| < 2 then Fail(ValueError)
      else
        var x, w := op.inputs[0], op.inputs[1];
        assert x in op.inputs && w in op.inputs;
        InsertKeeps(s, x, configs[0], o);
        var s1 := if IsActivated(configs[0].state) then Insert(s, x, configs[0], o) else s;
        InsertKeeps(s1, w, configs[1], o);
        Ok(Insert(s1, w, configs[1], o))
    else if Pooling(op.kind) then
      if |configs| < 1 then Fail(AssertionError)
      else if |op.inputs| < 1 then Fail(IndexError)
      else
        assert op.inputs[0] in op.inputs;
        InsertKeeps(s, op.inputs[0], configs[0], o);
        Ok(if IsActivated(configs[0].state) then Insert(s, op.inputs[0], configs[0], o) else s)
    else
      var r :- ConvertOperation(s, o, true, true, false);
      OrtPrepare.ConvertOperationKeeps(s, o, true, true, false);
      Ok(r)
  }

  /**
   * The loop of prepare_graph from operation `i` on, over the operations registered when
   * it started (ids below `n`): every live quantable one is prepared; the first failure
   * aborts.
   */
  function PrepareFrom(s: GraphState, i: nat, n: nat): (r: Result<GraphState>)
    requires Closed(s) && n <= |s.ops|
    ensures r.Ok? ==> Closed(r.value) && |s.ops| <= |r.value.ops| && OrtPrepare.KeepsLiveness(s, r.value)
    decreases n - i
  {
    if i >= n then Ok(s)
    else if !OrtPrepare.Converted(s.ops[i]) then PrepareFrom(s, i + 1, n)
    else
      var s1 :- PrepareOperation(s, i);
      PrepareFrom(s1, i + 1, n)
  }

  /** prepare_graph: the opset migration, then the loop over the operations. */
  function PrepareGraph(s: GraphState): (r: Result<GraphState>)
    requires Closed(s)
    ensures r.Ok? ==> Closed(r.value)
  {
    var m := Migrate(s);
    MigrateFromClosed(s, 0);
    PrepareFrom(m, 0, |m.ops|)
  }

  // ---------------------------------------------------------------------------------
  // The methods.

  /** The loop body of prepare_graph on the graph object. */
  method PrepareOperationOn(g: Graph, o: OpId) returns (res: Outcome)
    requires Closed(g.State()) && o < |g.ops| && g.ops[o].Quantable()
    modifies g
    ensures res == OutcomeOf(PrepareOperation(old(g.State()), o))
    ensures res.Pass? ==> g.State() == PrepareOperation(old(g.State()), o).value
  {
    var op := g.ops[o];
    var configs := op.config.value.inputConfigs;
    if Weighted(op.kind) {
      if |configs| < 2 {
        return Raise(AssertionError);
      }
      if |op.inputs| < 2 {
        return Raise(ValueError);
      }
      var x, w := op.inputs[0], op.inputs[1];
      assert x in op.inputs && w in op.inputs;
      if IsActivated(configs[0].state) {
        InsertKeeps(g.State(), x, configs[0], o);
        InsertOn(g, x, configs[0], o);
      }
      InsertOn(g, w, configs[1], o);
      res := Pass;
    } else if Pooling(op.kind) {
      if |configs| < 1 {
        return Raise(AssertionError);
      }
      if |op.inputs| < 1 {
        return Raise(IndexError);
      }
      assert op.inputs[0] in op.inputs;
      if IsActivated(configs[0].state) {
        InsertOn(g, op.inputs[0], configs[0], o);
      }
      res := Pass;
    } else {
      res := ConvertOperationOn(g, o, true, true, false);
    }
  }

  /** prepare_graph on the graph object. */
  method PrepareGraphOn(g: Graph) returns (res: Outcome)
    requires Closed(g.State())
    modifies g
    ensures res == OutcomeOf(PrepareGraph(old(g.State())))
    ensures res.Pass? ==> g.State() == PrepareGraph(old(g.State())).value
  {
    MigrateFromClosed(g.State(), 0);
    MigrateOn(g);
    var n := |g.ops|;
    var i := 0;
    while i < n
      invariant i <= n <= |g.ops| && Closed(g.State())
      invariant PrepareGraph(old(g.State())) == PrepareFrom(g.State(), i, n)
    {
      if g.ops[i].alive && g.ops[i].config.Some? {
        res := PrepareOperationOn(g, i);
        if res.Raise? {
          return;
        }
      }
      i := i + 1;
    }
    res := Pass;
  }

  // ---------------------------------------------------------------------------------
  // What preparing one operation does.

  /**
   * When preparing a weighted or pooling operation fails, and with which exception: the
   * assertion on the number of input configurations comes first, then the unpacking or
   * indexing of the inputs. Other operations fail exactly when convert_operation does.
   */
  lemma PrepareOperationFails(s: GraphState, o: OpId)
    requires Closed(s) && o < |s.ops| && s.ops[o].Quantable()
    ensures var op := s.ops[o];
      var cs, r := op.config.value.inputConfigs, PrepareOperation(s, o);
      && (Weighted(op.kind) ==>
            && (r.Fail? <==> |cs| < 2 || |op.inputs| < 2)
            && (r.Fail? ==> r.error == if |cs| < 2 then AssertionError else ValueError))
      && (Pooling(op.kind) ==>
            && (r.Fail? <==> |cs| < 1 || |op.inputs| < 1)
            && (r.Fail? ==> r.error == if |cs| < 1 then AssertionError else IndexError))
      && (!Weighted(op.kind) && !Pooling(op.kind) ==> (r.Fail? <==> ConvertOperation(s, o, true, true, false).Fail?))
  {
  }

  /**
   * A weighted operation that passes the checks, with an activated data input: its data
   * input (slot 0) is read through a fresh Quantize/Dequantize pair (nodes n, n+1) built
   * from the first input configuration, its weight (slot 1) through a second pair (nodes
   * n+2, n+3) built from the second, and its other inputs (the bias) are untouched.
   */
  lemma WeightedActivatedWrapped(s: GraphState, o: OpId)
    requires Closed(s) && o < |s.ops| && s.ops[o].Quantable() && Weighted(s.ops[o].kind)
    requires |s.ops[o].config.value.inputConfigs| >= 2 && |s.ops[o].inputs| >= 2
    requires IsActivated(s.ops[o].config.value.inputConfigs[0].state)
    ensures PrepareOperation(s, o).Ok?
    ensures var r, ins, cs := PrepareOperation(s, o).value, s.ops[o].inputs, s.ops[o].config.value.inputConfigs;
      var n, m := |s.ops|, |s.vars|;
      && |r.ops| == n + 4 && |r.vars| == m + 12
      && r.ops[o].inputs == ins[0 := m][1 := m + 6]
      && r.ops[n].kind == QuantizeLinear && r.ops[n].attrs == AxisAttrs(cs[0]) && r.ops[n].inputs == [ins[0], m + 2, m + 3]
      && r.ops[n + 1].kind == DequantizeLinear && r.ops[n + 1].outputs == [m]
      && r.ops[n + 2].kind == QuantizeLinear && r.ops[n + 2].attrs == AxisAttrs(cs[1]) && r.ops[n + 2].inputs == [ins[1], m + 8, m + 9]
      && r.ops[n + 3].kind == DequantizeLinear && r.ops[n + 3].outputs == [m + 6]
      && r.vars[m + 8] == Parameter(m + 8, Reals(cs[1].scale), |cs[1].scale|, n + 2)
      && r.vars[m + 9] == Parameter(m + 9, Int8Offset(cs[1]), |cs[1].offset|, n + 2)
  {
    var ins, cs := s.ops[o].inputs, s.ops[o].config.value.inputConfigs;
    assert ins[0] in ins && ins[1] in ins;
    var r := Insert(Insert(s, ins[0], cs[0], o), ins[1], cs[1], o);
    assert PrepareOperation(s, o) == Ok(r);
    TwoInsertions(s, o, cs[0], cs[1], r);
  }

  /** The two insertions on a weighted operation, as a plain result. */
  lemma TwoInsertions(s: GraphState, o: OpId, c0: QuantConfig, c1: QuantConfig, r: GraphState)
    requires Closed(s) && o < |s.ops| && |s.ops[o].inputs| >= 2
    requires s.ops[o].inputs[0] < |s.vars| && s.ops[o].inputs[1] < |s.vars|
    requires r == Insert(Insert(s, s.ops[o].inputs[0], c0, o), s.ops[o].inputs[1], c1, o)
    ensures var ins, n, m := s.ops[o].inputs, |s.ops|, |s.vars|;
      && |r.ops| == n + 4 && |r.vars| == m + 12
      && r.ops[o].inputs == ins[0 := m][1 := m + 6]
      && r.ops[n].kind == QuantizeLinear && r.ops[n].attrs == AxisAttrs(c0) && r.ops[n].inputs == [ins[0], m + 2, m + 3]
      && r.ops[n + 1].kind == DequantizeLinear && r.ops[n + 1].outputs == [m]
      && r.ops[n + 2].kind == QuantizeLinear && r.ops[n + 2].attrs == AxisAttrs(c1) && r.ops[n + 2].inputs == [ins[1], m + 8, m + 9]
      && r.ops[n + 3].kind == DequantizeLinear && r.ops[n + 3].outputs == [m + 6]
      && r.vars[m + 8] == Parameter(m + 8, Reals(c1.scale), |c1.scale|, n + 2)
      && r.vars[m + 9] == Parameter(m + 9, Int8Offset(c1), |c1.offset|, n + 2)
  {
    var ins := s.ops[o].inputs;
    var x, w, m := ins[0], ins[1], |s.vars|;
    assert x in ins && w in ins;
    var s1 := Insert(s, x, c0, o);
    ReplaceFirstAt<nat>(ins, 0, m);
    assert s1.ops[o].inputs == ins[0 := m];
    assert ins[0 := m][..1] == [m];
    ReplaceFirstAt<nat>(ins[0 := m], 1, m + 6);
    WeightedSecond(s, s1, o, w, c1);
  }

  /**
   * A weighted operation that passes the checks, with a data input that is not activated:
   * only its weight gets a Quantize/Dequantize pair (nodes n, n+1), built from the second
   * input configuration, on the first slot that reads the weight: slot 1, or slot 0 when
   * the data input is the weight variable itself. Every other slot is untouched.
   */
  lemma WeightedInactiveWrapped(s: GraphState, o: OpId)
    requires Closed(s) && o < |s.ops| && s.ops[o].Quantable() && Weighted(s.ops[o].kind)
    requires |s.ops[o].config.value.inputConfigs| >= 2 && |s.ops[o].inputs| >= 2
    requires !IsActivated(s.ops[o].config.value.inputConfigs[0].state)
    ensures PrepareOperation(s, o).Ok?
    ensures var r, ins, cs := PrepareOperation(s, o).value, s.ops[o].inputs, s.ops[o].config.value.inputConfigs;
      var n, m := |s.ops|, |s.vars|;
      && |r.ops| == n + 2 && |r.vars| == m + 6
      && (ins[0] != ins[1] ==> r.ops[o].inputs == ins[1 := m])
      && (ins[0] == ins[1] ==> r.ops[o].inputs == ins[0 := m])
      && r.ops[n].kind == QuantizeLinear && r.ops[n].attrs == AxisAttrs(cs[1]) && r.ops[n].inputs == [ins[1], m + 2, m + 3]
      && r.ops[n + 1].kind == DequantizeLinear && r.ops[n + 1].outputs == [m]
      && r.vars[m + 2] == Parameter(m + 2, Reals(cs[1].scale), |cs[1].scale|, n)
      && r.vars[m + 3] == Parameter(m + 3, Int8Offset(cs[1]), |cs[1].offset|, n)
  {
    var ins := s.ops[o].inputs;
    var m := |s.vars|;
    assert ins[1] in ins;
    if ins[0] != ins[1] {
      assert ins[..1] == [ins[0]];
      ReplaceFirstAt<nat>(ins, 1, m);
    } else {
      ReplaceFirstAt<nat>(ins, 0, m);
    }
  }

  /** The weight insertion after the data input's, on the first insertion's result. */
  lemma WeightedSecond(s: GraphState, s1: GraphState, o: OpId, w: VarId, c: QuantConfig)
    requires o < |s.ops| && w < |s.vars|
    requires |s1.ops| == |s.ops| + 2 && |s1.vars| == |s.vars| + 6
    ensures var r, n, m := Insert(s1, w, c, o), |s.ops|, |s.vars|;
      && r.ops[n] == s1.ops[n] && r.ops[n + 1] == s1.ops[n + 1]
      && r.ops[n + 2].inputs == [w, m + 8, m + 9]
      && r.vars[m + 8] == Parameter(m + 8, Reals(c.scale), |c.scale|, n + 2)
      && r.vars[m + 9] == Parameter(m + 9, Int8Offset(c), |c.offset|, n + 2)
  {
  }

  /**
   * A pooling operation that passes the checks: with an activated input configuration
   * its input is read through a fresh Quantize/Dequantize pair built from it, and the
   * graph is otherwise as it was; with any other, nothing changes.
   */
  lemma PoolingWrapped(s: GraphState, o: OpId)
    requires Closed(s) && o < |s.ops| && s.ops[o].Quantable() && Pooling(s.ops[o].kind)
    requires |s.ops[o].config.value.inputConfigs| >= 1 && |s.ops[o].inputs| >= 1
    ensures PrepareOperation(s, o).Ok?
    ensures var r, ins, c := PrepareOperation(s, o).value, s.ops[o].inputs, s.ops[o].config.value.inputConfigs[0];
      var n, m := |s.ops|, |s.vars|;
      && (IsActivated(c.state) ==>
            && |r.ops| == n + 2 && |r.vars| == m + 6
            && r.ops[n].kind == QuantizeLinear && r.ops[n].attrs == AxisAttrs(c) && r.ops[n].inputs == [ins[0], m + 2, m + 3]
            && r.ops[n + 1].kind == DequantizeLinear && r.ops[n + 1].outputs == [m]
            && r.ops[o].inputs == ins[0 := m]
            && (forall p :: 0 <= p < n && p != o ==> r.ops[p] == s.ops[p]))
      && (!IsActivated(c.state) ==> r == s)
  {
    var ins := s.ops[o].inputs;
    assert ins[0] in ins;
    ReplaceFirstAt<nat>(ins, 0, |s.vars|);
  }

  // ---------------------------------------------------------------------------------
  // prepare_graph keeps the graph consistent.

  lemma PrepareOperationConsistent(s: GraphState, o: OpId)
    requires Consistent(s) && o < |s.ops| && s.ops[o].Quantable()
    requires PrepareOperation(s, o).Ok?
    ensures Consistent(PrepareOperation(s, o).value)
  {
    var op := s.ops[o];
    var cs := op.config.value.inputConfigs;
    if Weighted(op.kind) {
      var ins := op.inputs;
      var x, w, m := ins[0], ins[1], |s.vars|;
      assert x in ins && w in ins;
      InsertKeeps(s, x, cs[0], o);
      if IsActivated(cs[0].state) {
        var s1 := Insert(s, x, cs[0], o);
        ReplaceFirstAt<nat>(ins, 0, m);
        assert s1.ops[o].inputs[1] == w;
        InsertKeeps(s1, w, cs[1], o);
      } else {
        InsertKeeps(s, w, cs[1], o);
      }
    } else if Pooling(op.kind) {
      assert op.inputs[0] in op.inputs;
      InsertKeeps(s, op.inputs[0], cs[0], o);
    } else {
      OrtPrepare.ConvertOperationKeeps(s, o, true, true, false);
    }
  }

  lemma {:induction false} PrepareFromConsistent(s: GraphState, i: nat, n: nat)
    requires Consistent(s) && n <= |s.ops|
    requires PrepareFrom(s, i, n).Ok?
    ensures Consistent(PrepareFrom(s, i, n).value)
    decreases n - i
  {
    if i < n {
      if OrtPrepare.Converted(s.ops[i]) {
        PrepareOperationConsistent(s, i);
        PrepareFromConsistent(PrepareOperation(s, i).value, i + 1, n);
      } else {
        PrepareFromConsistent(s, i + 1, n);
      }
    }
  }

  /** prepare_graph keeps a consistent graph consistent. */
  lemma PrepareGraphConsistent(s: GraphState)
    requires Consistent(s)
    requires PrepareGraph(s).Ok?
    ensures Consistent(PrepareGraph(s).value)
  {
    MigrateFromConsistent(s, 0);
    PrepareFromConsistent(Migrate(s), 0, |Migrate(s).ops|);
  }
}
