/**
 * insert_quant_dequant_on_variable of the TensorRT QDQ exporter: the edge `var -> op`
 * becomes `var -> QuantizeLinear -> DequantizeLinear -> op`, each node with a scale and an
 * int8 offset parameter of its own, an `axis` only when per-channel, and FP32/INT8
 * metadata.
 */
module TrtInsert {
  import opened Failures
  import opened Seqs
  import opened Quant
  import opened Graphs
  import opened QdqHelper

  /** The offset constant: the offsets cast to int8, whatever the symmetry. */
  function Int8Offset(c: QuantConfig): (t: Tensor)
    ensures t.Ints? && t.dtype == Int8 && |t.ints| == |c.offset|
    ensures forall k :: 0 <= k < |c.offset| ==> Fits(t.ints[k], Int8) && (Fits(c.offset[k], Int8) ==> t.ints[k] == c.offset[k])
  {
    var ints := seq(|c.offset|, k requires 0 <= k < |c.offset| => CastTo(c.offset[k], Int8));
    assert forall k :: 0 <= k < |c.offset| && Fits(c.offset[k], Int8) ==> ints[k] == c.offset[k] by {
      forall k | 0 <= k < |c.offset| && Fits(c.offset[k], Int8) {
        CastKeepsFitting(c.offset[k], Int8);
      }
    }
    Ints(ints, Int8)
  }

  /** The attributes both nodes get: `axis` exactly when per-channel. */
  function AxisAttrs(c: QuantConfig): (r: map<string, Attr>)
    ensures "axis" in r <==> c.Has(PerChannel)
    ensures r.Keys <= {"axis"}
    ensures "axis" in r ==> r["axis"] == IntAttr(c.channelAxis)
  {
    if c.Has(PerChannel) then map["axis" := IntAttr(c.channelAxis)] else map[]
  }

  /** The shape recorded for a one-dimensional constant of `n` values. */
  function VectorShape(n: nat): seq<int> { [n] }

  /** The metadata of a node: data in `from`, scale in FP32, offset in INT8, data out in `to`. */
  function NodeMeta(shape: seq<int>, c: QuantConfig, from: DType, to: DType): OpMeta {
    OpMeta([TensorMeta(from, shape), TensorMeta(Float32, VectorShape(|c.scale|)), TensorMeta(Int8, VectorShape(|c.offset|))],
           [TensorMeta(to, shape)])
  }

  /** create_variable(value, is_parameter=True) followed by create_link_with_op(it, None, o). */
  function LinkParameter(s: GraphState, value: Tensor, shape: seq<int>, o: OpId): (r: GraphState)
    requires o < |s.ops|
    ensures |r.ops| == |s.ops| && |r.vars| == |s.vars| + 1 && r.outputs == s.outputs
  {
    LinkInput(NewVariable(s, true, value, shape), |s.vars|, o)
  }

  /** A live parameter constant with id `id`, read by operation `reader` alone. */
  function Parameter(id: nat, value: Tensor, n: nat, reader: OpId): Variable {
    Variable(VariableName(id), true, value, VectorShape(n), None, [reader], true)
  }

  /**
   * What the insertion leaves, with n = |ops| and m = |vars|: the edge `v -> o` becomes
   * `v -> n -> m+1 -> n+1 -> m -> o`. Node n is the QuantizeLinear, reading `v`, its scale
   * m+2 and its int8 offset m+3; node n+1 is the DequantizeLinear, reading m+1, its scale
   * m+4 and its int8 offset m+5. Both carry `axis` exactly when per-channel, no
   * quantization configuration, and FP32/INT8 metadata over the shape of `v`. `o` reads m
   * in the first slot where it read `v`, and `v` lists n where it listed `o`.
   */
  function Insert(s: GraphState, v: VarId, c: QuantConfig, o: OpId): (r: GraphState)
    requires v < |s.vars| && o < |s.ops|
    ensures |r.ops| == |s.ops| + 2 && |r.vars| == |s.vars| + 6 && r.outputs == s.outputs
  {
    GraphState(InsertedOps(s, v, c, o), InsertedVars(s, v, c, o), s.outputs)
  }

  /** The operations after an insertion: `o` rerouted, then the Quantize and Dequantize nodes. */
  function InsertedOps(s: GraphState, v: VarId, c: QuantConfig, o: OpId): (r: seq<Operation>)
    requires v < |s.vars| && o < |s.ops|
    ensures |r| == |s.ops| + 2
  {
    var n, m, shape := |s.ops|, |s.vars|, s.vars[v].shape;
    s.ops[o := s.ops[o].(inputs := ReplaceFirst<nat>(s.ops[o].inputs, v, m))]
      + [Operation(OperationName(n), QuantizeLinear, AxisAttrs(c), [v, m + 2, m + 3], [m + 1], None, NodeMeta(shape, c, Float32, Int8), true),
         Operation(OperationName(n + 1), DequantizeLinear, AxisAttrs(c), [m + 1, m + 4, m + 5], [m], None, NodeMeta(shape, c, Int8, Float32), true)]
  }

  /** The variables after an insertion: `v` rerouted, then the two links and the four constants. */
  function InsertedVars(s: GraphState, v: VarId, c: QuantConfig, o: OpId): (r: seq<Variable>)
    requires v < |s.vars| && o < |s.ops|
    ensures |r| == |s.vars| + 6
  {
    var n, m := |s.ops|, |s.vars|;
    s.vars[v := s.vars[v].(consumers := ReplaceFirst<nat>(s.vars[v].consumers, o, n))]
      + [Variable(VariableName(m), false, NoValue, [], Some(n + 1), [o], true),
         Variable(VariableName(m + 1), false, NoValue, [], Some(n), [n + 1], true),
         Parameter(m + 2, Reals(c.scale), |c.scale|, n),
         Parameter(m + 3, Int8Offset(c), |c.offset|, n),
         Parameter(m + 4, Reals(c.scale), |c.scale|, n + 1),
         Parameter(m + 5, Int8Offset(c), |c.offset|, n + 1)]
  }

  /**
   * The insertion as the source performs it: the Quantize node (id |ops|) and the
   * Dequantize node (id |ops|+1) are created; the Dequantize goes between `v` and `o` (its
   * output is variable |vars|), then the Quantize between `v` and the Dequantize (output
   * |vars|+1); scale and offset are created and linked for the Quantize (|vars|+2,
   * |vars|+3) and again for the Dequantize (|vars|+4, |vars|+5); then attributes and
   * metadata are set.
   */
  function InsertSteps(s: GraphState, v: VarId, c: QuantConfig, o: OpId): (r: GraphState)
    requires v < |s.vars| && o < |s.ops|
    ensures |r.ops| == |s.ops| + 2 && |r.vars| == |s.vars| + 6 && r.outputs == s.outputs
  {
    var qt, dq := |s.ops|, |s.ops| + 1;
    Annotate(WithParameters(Splice(s, v, o), c, qt, dq), c, s.vars[v].shape, qt, dq)
  }

  /** The two nodes, created and spliced onto the edge `v -> o`. */
  function Splice(s: GraphState, v: VarId, o: OpId): (r: GraphState)
    requires v < |s.vars| && o < |s.ops|
    ensures |r.ops| == |s.ops| + 2 && |r.vars| == |s.vars| + 2 && r.outputs == s.outputs
  {
    var qt, dq := |s.ops|, |s.ops| + 1;
    var s1 := NewOperation(NewOperation(s, QuantizeLinear, map[]), DequantizeLinear, map[]);
    InsertBetween(InsertBetween(s1, dq, v, o), qt, v, dq)
  }

  /** Scale and offset for the Quantize node, then scale and offset for the Dequantize node. */
  function WithParameters(s: GraphState, c: QuantConfig, qt: OpId, dq: OpId): (r: GraphState)
    requires qt < |s.ops| && dq < |s.ops|
    ensures |r.ops| == |s.ops| && |r.vars| == |s.vars| + 4 && r.outputs == s.outputs
  {
    var s4 := LinkParameter(s, Reals(c.scale), VectorShape(|c.scale|), qt);
    var s5 := LinkParameter(s4, Int8Offset(c), VectorShape(|c.offset|), qt);
    var s6 := LinkParameter(s5, Reals(c.scale), VectorShape(|c.scale|), dq);
    LinkParameter(s6, Int8Offset(c), VectorShape(|c.offset|), dq)
  }

  /** The `axis` attribute and the metadata of both nodes. */
  function Annotate(s: GraphState, c: QuantConfig, shape: seq<int>, qt: OpId, dq: OpId): (r: GraphState)
    requires qt < |s.ops| && dq < |s.ops|
    ensures |r.ops| == |s.ops| && r.vars == s.vars && r.outputs == s.outputs
  {
    var s8 := WithDetails(s, qt, AxisAttrs(c), None, NodeMeta(shape, c, Float32, Int8));
    WithDetails(s8, dq, AxisAttrs(c), None, NodeMeta(shape, c, Int8, Float32))
  }

  /** insert_quant_dequant_on_variable on the graph object. */
  method InsertOn(g: Graph, v: VarId, c: QuantConfig, o: OpId)
    requires Closed(g.State()) && v < |g.vars| && o < |g.ops|
    modifies g
    ensures g.State() == Insert(old(g.State()), v, c, o)
  {
    ghost var s := g.State();
    var shape := g.vars[v].shape;
    var qt, dq := SpliceOn(g, v, o);
    LinkParametersOn(g, c, qt, dq);
    AnnotateOn(g, c, shape, qt, dq);
    InsertStepsIsInsert(s, v, c, o);
  }

  /** The first half of InsertOn: both nodes created and spliced in. */
  method SpliceOn(g: Graph, v: VarId, o: OpId) returns (qt: OpId, dq: OpId)
    requires v < |g.vars| && o < |g.ops|
    modifies g
    ensures qt == |old(g.ops)| && dq == |old(g.ops)| + 1
    ensures g.State() == Splice(old(g.State()), v, o)
  {
    qt := g.CreateOperation(QuantizeLinear, map[]);
    dq := g.CreateOperation(DequantizeLinear, map[]);
    g.InsertOpBetweenVarAndOp(dq, v, o);
    g.InsertOpBetweenVarAndOp(qt, v, dq);
  }

  /** The four parameter constants of InsertOn, created and linked. */
  method LinkParametersOn(g: Graph, c: QuantConfig, qt: OpId, dq: OpId)
    requires qt < |g.ops| && dq < |g.ops|
    modifies g
    ensures g.State() == WithParameters(old(g.State()), c, qt, dq)
  {
    var scaleQ := g.CreateVariable(true, Reals(c.scale), VectorShape(|c.scale|));
    g.CreateLinkWithOp(scaleQ, qt);
    var offsetQ := g.CreateVariable(true, Int8Offset(c), VectorShape(|c.offset|));
    g.CreateLinkWithOp(offsetQ, qt);
    var scaleD := g.CreateVariable(true, Reals(c.scale), VectorShape(|c.scale|));
    g.CreateLinkWithOp(scaleD, dq);
    var offsetD := g.CreateVariable(true, Int8Offset(c), VectorShape(|c.offset|));
    g.CreateLinkWithOp(offsetD, dq);
  }

  /** The attribute and metadata updates that end InsertOn. */
  method AnnotateOn(g: Graph, c: QuantConfig, shape: seq<int>, qt: OpId, dq: OpId)
    requires qt < |g.ops| && dq < |g.ops|
    modifies g
    ensures g.State() == Annotate(old(g.State()), c, shape, qt, dq)
  {
    g.SetDetails(qt, AxisAttrs(c), None, NodeMeta(shape, c, Float32, Int8));
    g.SetDetails(dq, AxisAttrs(c), None, NodeMeta(shape, c, Int8, Float32));
  }

  // ---------------------------------------------------------------------------------
  // What an insertion does to the graph, stage by stage.

  // ---------------------------------------------------------------------------------
  // The source's steps leave what Insert describes.

  /**
   * The Quantize node of an insertion (id |ops|): it reads `v`, a scale and an int8 offset,
   * and writes |vars|+1, which only the Dequantize node reads; it carries `axis` exactly
   * when per-channel, no quantization configuration, and FP32-to-INT8 metadata. Its two
   * constants are live parameters holding the scale and the offsets cast to int8, read by
   * it alone.
   */
  lemma StepsQuantizeNode(s: GraphState, v: VarId, c: QuantConfig, o: OpId)
    requires v < |s.vars| && o < |s.ops|
    ensures var r := InsertSteps(s, v, c, o);
      var n, m, shape := |s.ops|, |s.vars|, s.vars[v].shape;
      && r.ops[n] == Operation(OperationName(n), QuantizeLinear, AxisAttrs(c), [v, m + 2, m + 3], [m + 1], None, NodeMeta(shape, c, Float32, Int8), true)
      && r.vars[m + 1] == Variable(VariableName(m + 1), false, NoValue, [], Some(n), [n + 1], true)
      && r.vars[m + 2] == Variable(VariableName(m + 2), true, Reals(c.scale), VectorShape(|c.scale|), None, [n], true)
      && r.vars[m + 3] == Variable(VariableName(m + 3), true, Int8Offset(c), VectorShape(|c.offset|), None, [n], true)
  {
    StepsQuantizeOp(s, v, c, o);
    StepsQuantizeOutput(s, v, c, o);
    StepsQuantizeParameters(s, v, c, o);
  }

  // Each entry the steps leave is worked out through the whole chain of primitives; one
  // entry per lemma keeps each of these computations small.

  lemma StepsQuantizeOp(s: GraphState, v: VarId, c: QuantConfig, o: OpId)
    requires v < |s.vars| && o < |s.ops|
    ensures var r := InsertSteps(s, v, c, o);
      var n, m, shape := |s.ops|, |s.vars|, s.vars[v].shape;
      r.ops[n] == Operation(OperationName(n), QuantizeLinear, AxisAttrs(c), [v, m + 2, m + 3], [m + 1], None, NodeMeta(shape, c, Float32, Int8), true)
  {
    var m := |s.vars|;
    assert [] + [v] + [m + 2] + [m + 3] == [v, m + 2, m + 3];
    assert [] + [m + 1] == [m + 1];
  }

  lemma StepsQuantizeOutput(s: GraphState, v: VarId, c: QuantConfig, o: OpId)
    requires v < |s.vars| && o < |s.ops|
    ensures var r := InsertSteps(s, v, c, o);
      r.vars[|s.vars| + 1] == Variable(VariableName(|s.vars| + 1), false, NoValue, [], Some(|s.ops|), [|s.ops| + 1], true)
  {
    assert [] + [|s.ops| + 1] == [|s.ops| + 1];
  }

  lemma StepsQuantizeParameters(s: GraphState, v: VarId, c: QuantConfig, o: OpId)
    requires v < |s.vars| && o < |s.ops|
    ensures var r := InsertSteps(s, v, c, o);
      var n, m := |s.ops|, |s.vars|;
      && r.vars[m + 2] == Parameter(m + 2, Reals(c.scale), |c.scale|, n)
      && r.vars[m + 3] == Parameter(m + 3, Int8Offset(c), |c.offset|, n)
  {
    assert [] + [|s.ops|] == [|s.ops|];
  }

  /**
   * The Dequantize node of an insertion (id |ops|+1): it reads the Quantize node's output,
   * a scale and an int8 offset of its own, and writes |vars|, which `o` alone reads; it
   * carries `axis` exactly when per-channel, no quantization configuration, and
   * INT8-to-FP32 metadata. Its two constants are live parameters read by it alone.
   */
  lemma StepsDequantizeNode(s: GraphState, v: VarId, c: QuantConfig, o: OpId)
    requires v < |s.vars| && o < |s.ops|
    ensures var r := InsertSteps(s, v, c, o);
      var n, m, shape := |s.ops|, |s.vars|, s.vars[v].shape;
      && r.ops[n + 1] == Operation(OperationName(n + 1), DequantizeLinear, AxisAttrs(c), [m + 1, m + 4, m + 5], [m], None, NodeMeta(shape, c, Int8, Float32), true)
      && r.vars[m] == Variable(VariableName(m), false, NoValue, [], Some(n + 1), [o], true)
      && r.vars[m + 4] == Variable(VariableName(m + 4), true, Reals(c.scale), VectorShape(|c.scale|), None, [n + 1], true)
      && r.vars[m + 5] == Variable(VariableName(m + 5), true, Int8Offset(c), VectorShape(|c.offset|), None, [n + 1], true)
  {
    StepsDequantizeOp(s, v, c, o);
    StepsDequantizeOutput(s, v, c, o);
    StepsDequantizeParameters(s, v, c, o);
  }

  lemma StepsDequantizeOp(s: GraphState, v: VarId, c: QuantConfig, o: OpId)
    requires v < |s.vars| && o < |s.ops|
    ensures var r := InsertSteps(s, v, c, o);
      var n, m, shape := |s.ops|, |s.vars|, s.vars[v].shape;
      r.ops[n + 1] == Operation(OperationName(n + 1), DequantizeLinear, AxisAttrs(c), [m + 1, m + 4, m + 5], [m], None, NodeMeta(shape, c, Int8, Float32), true)
  {
    var m := |s.vars|;
    assert [] + [m + 1] + [m + 4] + [m + 5] == [m + 1, m + 4, m + 5];
    assert [] + [m] == [m];
  }

  lemma StepsDequantizeOutput(s: GraphState, v: VarId, c: QuantConfig, o: OpId)
    requires v < |s.vars| && o < |s.ops|
    ensures var r := InsertSteps(s, v, c, o);
      r.vars[|s.vars|] == Variable(VariableName(|s.vars|), false, NoValue, [], Some(|s.ops| + 1), [o], true)
  {
  }

  lemma StepsDequantizeParameters(s: GraphState, v: VarId, c: QuantConfig, o: OpId)
    requires v < |s.vars| && o < |s.ops|
    ensures var r := InsertSteps(s, v, c, o);
      var n, m := |s.ops|, |s.vars|;
      && r.vars[m + 4] == Parameter(m + 4, Reals(c.scale), |c.scale|, n + 1)
      && r.vars[m + 5] == Parameter(m + 5, Int8Offset(c), |c.offset|, n + 1)
  {
    assert [] + [|s.ops| + 1] == [|s.ops| + 1];
  }

  /**
   * The rest of the graph after an insertion: `o` reads the Dequantize node's output in
   * the slot where it read `v`, `v` feeds the Quantize node where it fed `o`, and every
   * other operation and variable, and the graph outputs, are as they were.
   */
  lemma StepsRewire(s: GraphState, v: VarId, c: QuantConfig, o: OpId)
    requires Closed(s) && v < |s.vars| && o < |s.ops|
    ensures var r := InsertSteps(s, v, c, o);
      var n, m := |s.ops|, |s.vars|;
      && r.ops[o] == s.ops[o].(inputs := ReplaceFirst<nat>(s.ops[o].inputs, v, m))
      && r.vars[v] == s.vars[v].(consumers := ReplaceFirst<nat>(s.vars[v].consumers, o, n))
      && (forall p :: 0 <= p < n && p != o ==> r.ops[p] == s.ops[p])
      && (forall x :: 0 <= x < m && x != v ==> r.vars[x] == s.vars[x])
      && r.outputs == s.outputs
  {
    assert |s.ops| + 1 !in s.vars[v].consumers;
    StepsRewireOps(s, v, c, o);
    StepsRewireVars(s, v, c, o);
  }

  lemma StepsRewireOps(s: GraphState, v: VarId, c: QuantConfig, o: OpId)
    requires v < |s.vars| && o < |s.ops|
    ensures var r := InsertSteps(s, v, c, o);
      && r.ops[o] == s.ops[o].(inputs := ReplaceFirst<nat>(s.ops[o].inputs, v, |s.vars|))
      && (forall p :: 0 <= p < |s.ops| && p != o ==> r.ops[p] == s.ops[p])
  {
  }

  /** The Dequantize node (id |ops|+1) is not yet a consumer of `v` when the Quantize node takes its place. */
  lemma StepsRewireVars(s: GraphState, v: VarId, c: QuantConfig, o: OpId)
    requires v < |s.vars| && o < |s.ops| && |s.ops| + 1 !in s.vars[v].consumers
    ensures var r := InsertSteps(s, v, c, o);
      && r.vars[v] == s.vars[v].(consumers := ReplaceFirst<nat>(s.vars[v].consumers, o, |s.ops|))
      && (forall x :: 0 <= x < |s.vars| && x != v ==> r.vars[x] == s.vars[x])
  {
    ReplaceFirstTwice<nat>(s.vars[v].consumers, o, |s.ops| + 1, |s.ops|);
  }

  /**
   * The source's sequence of primitives leaves exactly the graph Insert describes, on any
   * graph whose indices are in range.
   */
  lemma InsertStepsIsInsert(s: GraphState, v: VarId, c: QuantConfig, o: OpId)
    requires Closed(s) && v < |s.vars| && o < |s.ops|
    ensures InsertSteps(s, v, c, o) == Insert(s, v, c, o)
  {
    var r := InsertSteps(s, v, c, o);
    StepsQuantizeNode(s, v, c, o);
    StepsDequantizeNode(s, v, c, o);
    StepsRewire(s, v, c, o);
    PartsAgree(s, r, v, c, o);
  }

  /** A graph that agrees with Insert entry by entry is the graph Insert describes. */
  lemma PartsAgree(s: GraphState, r: GraphState, v: VarId, c: QuantConfig, o: OpId)
    requires v < |s.vars| && o < |s.ops|
    requires |r.ops| == |s.ops| + 2 && |r.vars| == |s.vars| + 6 && r.outputs == s.outputs
    requires var n, m, shape := |s.ops|, |s.vars|, s.vars[v].shape;
      && r.ops[n] == Operation(OperationName(n), QuantizeLinear, AxisAttrs(c), [v, m + 2, m + 3], [m + 1], None, NodeMeta(shape, c, Float32, Int8), true)
      && r.ops[n + 1] == Operation(OperationName(n + 1), DequantizeLinear, AxisAttrs(c), [m + 1, m + 4, m + 5], [m], None, NodeMeta(shape, c, Int8, Float32), true)
      && r.vars[m] == Variable(VariableName(m), false, NoValue, [], Some(n + 1), [o], true)
      && r.vars[m + 1] == Variable(VariableName(m + 1), false, NoValue, [], Some(n), [n + 1], true)
      && r.vars[m + 2] == Parameter(m + 2, Reals(c.scale), |c.scale|, n)
      && r.vars[m + 3] == Parameter(m + 3, Int8Offset(c), |c.offset|, n)
      && r.vars[m + 4] == Parameter(m + 4, Reals(c.scale), |c.scale|, n + 1)
      && r.vars[m + 5] == Parameter(m + 5, Int8Offset(c), |c.offset|, n + 1)
      && r.ops[o] == s.ops[o].(inputs := ReplaceFirst<nat>(s.ops[o].inputs, v, m))
      && r.vars[v] == s.vars[v].(consumers := ReplaceFirst<nat>(s.vars[v].consumers, o, n))
      && (forall p :: 0 <= p < n && p != o ==> r.ops[p] == s.ops[p])
      && (forall x :: 0 <= x < m && x != v ==> r.vars[x] == s.vars[x])
    ensures r == Insert(s, v, c, o)
  {
    OpsAgree(s, r.ops, v, c, o);
    VarsAgree(s, r.vars, v, c, o);
  }

  lemma OpsAgree(s: GraphState, ops: seq<Operation>, v: VarId, c: QuantConfig, o: OpId)
    requires v < |s.vars| && o < |s.ops| && |ops| == |s.ops| + 2
    requires var n, m, shape := |s.ops|, |s.vars|, s.vars[v].shape;
      && ops[n] == Operation(OperationName(n), QuantizeLinear, AxisAttrs(c), [v, m + 2, m + 3], [m + 1], None, NodeMeta(shape, c, Float32, Int8), true)
      && ops[n + 1] == Operation(OperationName(n + 1), DequantizeLinear, AxisAttrs(c), [m + 1, m + 4, m + 5], [m], None, NodeMeta(shape, c, Int8, Float32), true)
      && ops[o] == s.ops[o].(inputs := ReplaceFirst<nat>(s.ops[o].inputs, v, m))
      && (forall p :: 0 <= p < n && p != o ==> ops[p] == s.ops[p])
    ensures ops == InsertedOps(s, v, c, o)
  {
    var n := |s.ops|;
    var head := s.ops[o := s.ops[o].(inputs := ReplaceFirst<nat>(s.ops[o].inputs, v, |s.vars|))];
    assert ops[..n] == head;
    assert ops[n..] == [ops[n], ops[n + 1]];
    assert ops == ops[..n] + ops[n..];
  }

  lemma VarsAgree(s: GraphState, vars: seq<Variable>, v: VarId, c: QuantConfig, o: OpId)
    requires v < |s.vars| && o < |s.ops| && |vars| == |s.vars| + 6
    requires var n, m := |s.ops|, |s.vars|;
      && vars[m] == Variable(VariableName(m), false, NoValue, [], Some(n + 1), [o], true)
      && vars[m + 1] == Variable(VariableName(m + 1), false, NoValue, [], Some(n), [n + 1], true)
      && vars[m + 2] == Parameter(m + 2, Reals(c.scale), |c.scale|, n)
      && vars[m + 3] == Parameter(m + 3, Int8Offset(c), |c.offset|, n)
      && vars[m + 4] == Parameter(m + 4, Reals(c.scale), |c.scale|, n + 1)
      && vars[m + 5] == Parameter(m + 5, Int8Offset(c), |c.offset|, n + 1)
      && vars[v] == s.vars[v].(consumers := ReplaceFirst<nat>(s.vars[v].consumers, o, n))
      && (forall x :: 0 <= x < m && x != v ==> vars[x] == s.vars[x])
    ensures vars == InsertedVars(s, v, c, o)
  {
    var m := |s.vars|;
    var head := s.vars[v := s.vars[v].(consumers := ReplaceFirst<nat>(s.vars[v].consumers, o, |s.ops|))];
    assert vars[..m] == head;
    assert vars == vars[..m] + vars[m..];
  }

  // ---------------------------------------------------------------------------------
  // An insertion keeps the graph well formed.

  /** Every index stored after an insertion addresses an entry, when that held before. */
  lemma InsertClosed(s: GraphState, v: VarId, c: QuantConfig, o: OpId)
    requires Closed(s) && v < |s.vars| && o < |s.ops|
    ensures Closed(Insert(s, v, c, o))
  {
    var r := Insert(s, v, c, o);
    var n, m := |s.ops|, |s.vars|;
    forall p, x | 0 <= p < |r.ops| && x in r.ops[p].inputs
      ensures x < |r.vars|
    {
      if p < n && p != o {
        assert r.ops[p] == s.ops[p];
      }
    }
    forall p, y | 0 <= p < |r.ops| && y in r.ops[p].outputs
      ensures y < |r.vars|
    {
      if p < n && p != o {
        assert r.ops[p] == s.ops[p];
      }
    }
    forall x, p | 0 <= x < |r.vars| && p in r.vars[x].consumers
      ensures p < |r.ops|
    {
      if x < m && x != v {
        assert r.vars[x] == s.vars[x];
      }
    }
    forall x | 0 <= x < |r.vars| && r.vars[x].producer.Some?
      ensures r.vars[x].producer.value < |r.ops|
    {
      if x < m && x != v {
        assert r.vars[x] == s.vars[x];
      }
    }
  }

  /**
   * An insertion on an edge that exists keeps a consistent graph consistent: every link is
   * recorded on both ends, as often on each, and every produced variable is its
   * producer's output.
   */
  lemma InsertConsistent(s: GraphState, v: VarId, c: QuantConfig, o: OpId)
    requires Consistent(s) && v < |s.vars| && o < |s.ops| && v in s.ops[o].inputs
    ensures Consistent(Insert(s, v, c, o))
  {
    InsertClosed(s, v, c, o);
    InsertTombstones(s, v, c, o);
    InsertLinked(s, v, c, o);
    InsertProduced(s, v, c, o);
  }

  lemma InsertTombstones(s: GraphState, v: VarId, c: QuantConfig, o: OpId)
    requires Consistent(s) && v < |s.vars| && o < |s.ops| && v in s.ops[o].inputs
    ensures Tombstones(Insert(s, v, c, o))
  {
    var r := Insert(s, v, c, o);
    var n, m := |s.ops|, |s.vars|;
    LinkedVariablesAlive(s, o, v);
    assert s.ops[o].alive by {
      assert s.ops[o].inputs != [];
    }
    forall p | 0 <= p < |r.ops| && !r.ops[p].alive
      ensures r.ops[p].inputs == [] && r.ops[p].outputs == []
    {
      assert p < n && p != o;
      assert r.ops[p] == s.ops[p];
    }
    forall x | 0 <= x < |r.vars| && !r.vars[x].alive
      ensures r.vars[x].consumers == [] && r.vars[x].producer == None
    {
      assert x < m && x != v;
      assert r.vars[x] == s.vars[x];
    }
  }

  lemma InsertLinked(s: GraphState, v: VarId, c: QuantConfig, o: OpId)
    requires Consistent(s) && v < |s.vars| && o < |s.ops| && v in s.ops[o].inputs
    ensures Closed(Insert(s, v, c, o)) && Linked(Insert(s, v, c, o))
  {
    var r := Insert(s, v, c, o);
    InsertClosed(s, v, c, o);
    forall x, p | 0 <= x < |r.vars| && 0 <= p < |r.ops|
      ensures Count<nat>(r.vars[x].consumers, p) == Count<nat>(r.ops[p].inputs, x)
    {
      InsertLinkedAt(s, v, c, o, x, p);
    }
  }

  lemma InsertProduced(s: GraphState, v: VarId, c: QuantConfig, o: OpId)
    requires Consistent(s) && v < |s.vars| && o < |s.ops|
    ensures Closed(Insert(s, v, c, o)) && Produced(Insert(s, v, c, o))
  {
    InsertClosed(s, v, c, o);
    InsertHasLinks(s, v, c, o);
    ProducedAfter(s, Insert(s, v, c, o), v, o);
  }

  /**
   * The links an insertion leaves, with n = |ops| and m = |vars|: `o` and `v` rerouted,
   * the two nodes and the six new variables linked as Insert describes, the rest as before.
   */
  ghost predicate InsertLinks(s: GraphState, r: GraphState, v: VarId, o: OpId) {
    var n, m := |s.ops|, |s.vars|;
    && v < m && o < n && |r.ops| == n + 2 && |r.vars| == m + 6
    && r.ops[o].inputs == ReplaceFirst<nat>(s.ops[o].inputs, v, m) && r.ops[o].outputs == s.ops[o].outputs
    && (forall p :: 0 <= p < n && p != o ==> r.ops[p] == s.ops[p])
    && r.ops[n].inputs == [v, m + 2, m + 3] && r.ops[n].outputs == [m + 1]
    && r.ops[n + 1].inputs == [m + 1, m + 4, m + 5] && r.ops[n + 1].outputs == [m]
    && r.vars[v].consumers == ReplaceFirst<nat>(s.vars[v].consumers, o, n) && r.vars[v].producer == s.vars[v].producer
    && (forall x :: 0 <= x < m && x != v ==> r.vars[x] == s.vars[x])
    && r.vars[m].producer == Some(n + 1) && r.vars[m + 1].producer == Some(n)
    && (forall x :: m <= x < m + 6 ==> r.vars[x].consumers == [NewReader(o, n, m, x)])
    && r.vars[m + 2].producer.None? && r.vars[m + 3].producer.None?
    && r.vars[m + 4].producer.None? && r.vars[m + 5].producer.None?
  }

  /**
   * The one operation reading the new variable `x` of an insertion that adds operations
   * from `n` and variables from `m`: `o` reads the Dequantize node's output, the
   * Dequantize node the Quantize node's output and its own parameters, the Quantize node
   * its parameters.
   */
  function NewReader(o: OpId, n: nat, m: nat, x: VarId): OpId {
    if x == m then o else if x == m + 2 || x == m + 3 then n else n + 1
  }

  lemma InsertHasLinks(s: GraphState, v: VarId, c: QuantConfig, o: OpId)
    requires v < |s.vars| && o < |s.ops|
    ensures InsertLinks(s, Insert(s, v, c, o), v, o)
  {
    var r := Insert(s, v, c, o);
    var n := |s.ops|;
    assert forall p :: 0 <= p < n && p != o ==> r.ops[p] == s.ops[p];
    assert forall x :: 0 <= x < |s.vars| && x != v ==> r.vars[x] == s.vars[x];
  }

  /** Every produced variable is its producer's output after an insertion, taken as a plain state. */
  lemma ProducedAfter(s: GraphState, r: GraphState, v: VarId, o: OpId)
    requires Consistent(s) && InsertLinks(s, r, v, o) && Closed(r)
    ensures Produced(r)
  {
    ProducersAfter(s, r, v, o);
    OutputsAfter(s, r, v, o);
  }

  lemma ProducersAfter(s: GraphState, r: GraphState, v: VarId, o: OpId)
    requires Closed(s) && Produced(s) && InsertLinks(s, r, v, o) && Closed(r)
    ensures forall x :: 0 <= x < |r.vars| && r.vars[x].producer.Some? ==> x in r.ops[r.vars[x].producer.value].outputs
  {
    var m := |s.vars|;
    forall x | 0 <= x < |r.vars| && r.vars[x].producer.Some?
      ensures x in r.ops[r.vars[x].producer.value].outputs
    {
      if x < m {
        var q := s.vars[x].producer.value;
        assert r.vars[x].producer == s.vars[x].producer;
        assert r.ops[q].outputs == s.ops[q].outputs;
      }
    }
  }

  lemma OutputsAfter(s: GraphState, r: GraphState, v: VarId, o: OpId)
    requires Closed(s) && Produced(s) && InsertLinks(s, r, v, o) && Closed(r)
    ensures forall p, y :: 0 <= p < |r.ops| && y in r.ops[p].outputs ==> r.vars[y].producer == Some(p)
  {
    var n := |s.ops|;
    forall p, y | 0 <= p < |r.ops| && y in r.ops[p].outputs
      ensures r.vars[y].producer == Some(p)
    {
      if p < n {
        assert r.ops[p].outputs == s.ops[p].outputs;
        assert r.vars[y].producer == s.vars[y].producer;
      }
    }
  }

  /** The link counts of one variable and one operation after an insertion. */
  lemma InsertLinkedAt(s: GraphState, v: VarId, c: QuantConfig, o: OpId, x: VarId, p: OpId)
    requires Consistent(s) && v < |s.vars| && o < |s.ops| && v in s.ops[o].inputs
    requires x < |s.vars| + 6 && p < |s.ops| + 2
    ensures var r := Insert(s, v, c, o);
      Count<nat>(r.vars[x].consumers, p) == Count<nat>(r.ops[p].inputs, x)
  {
    assert o in s.vars[v].consumers by {
      assert Count<nat>(s.ops[o].inputs, v) > 0;
    }
    InsertHasLinks(s, v, c, o);
    var r := Insert(s, v, c, o);
    if x < |s.vars| && p < |s.ops| {
      LinkedOldOld(s, r, v, o, x, p);
    } else if x < |s.vars| {
      assert |s.ops| !in s.vars[x].consumers && |s.ops| + 1 !in s.vars[x].consumers;
      assert x != v ==> r.vars[x] == s.vars[x];
      NewOpInputs(s, r, v, o, p);
      LinkedOldNew(s, r, v, o, x, p);
    } else {
      assert p < |s.ops| ==> x !in s.ops[p].inputs;
      NewVarConsumers(s, r, v, o, x);
      NewOpInputs(s, r, v, o, p);
      LinkedNew(s, r, v, o, x, p);
    }
  }

  lemma LinkedOldOld(s: GraphState, r: GraphState, v: VarId, o: OpId, x: VarId, p: OpId)
    requires Consistent(s) && InsertLinks(s, r, v, o) && o in s.vars[v].consumers
    requires x < |s.vars| && p < |s.ops|
    ensures Count<nat>(r.vars[x].consumers, p) == Count<nat>(r.ops[p].inputs, x)
  {
    var n, m := |s.ops|, |s.vars|;
    CountReplaceFirst<nat>(s.vars[v].consumers, o, n, p);
    CountReplaceFirst<nat>(s.ops[o].inputs, v, m, x);
    if x != v {
      assert r.vars[x] == s.vars[x];
    }
    if p != o {
      assert r.ops[p] == s.ops[p];
    }
  }

  lemma LinkedOldNew(s: GraphState, r: GraphState, v: VarId, o: OpId, x: VarId, p: OpId)
    requires x < |s.vars| && v < |s.vars| && |s.ops| <= p < |s.ops| + 2
    requires |r.ops| == |s.ops| + 2 && |r.vars| == |s.vars| + 6
    requires |s.ops| !in s.vars[x].consumers && |s.ops| + 1 !in s.vars[x].consumers
    requires x == v ==> o in s.vars[v].consumers && r.vars[x].consumers == ReplaceFirst<nat>(s.vars[v].consumers, o, |s.ops|)
    requires x != v ==> r.vars[x].consumers == s.vars[x].consumers
    requires var n, m := |s.ops|, |s.vars|;
      && (p == n ==> r.ops[p].inputs == [v, m + 2, m + 3])
      && (p == n + 1 ==> r.ops[p].inputs == [m + 1, m + 4, m + 5])
    ensures Count<nat>(r.vars[x].consumers, p) == Count<nat>(r.ops[p].inputs, x)
  {
    var n, m := |s.ops|, |s.vars|;
    if x == v {
      CountReplaceFirst<nat>(s.vars[v].consumers, o, n, p);
    }
    if p == n {
      CountTriple<nat>(v, m + 2, m + 3, x);
    } else {
      CountTriple<nat>(m + 1, m + 4, m + 5, x);
    }
  }

  lemma LinkedNew(s: GraphState, r: GraphState, v: VarId, o: OpId, x: VarId, p: OpId)
    requires v < |s.vars| <= x < |s.vars| + 6 && o < |s.ops| && p < |s.ops| + 2 && v in s.ops[o].inputs
    requires |r.ops| == |s.ops| + 2 && |r.vars| == |s.vars| + 6
    requires r.vars[x].consumers == [NewReader(o, |s.ops|, |s.vars|, x)]
    requires var n, m := |s.ops|, |s.vars|;
      && (p == n ==> r.ops[p].inputs == [v, m + 2, m + 3])
      && (p == n + 1 ==> r.ops[p].inputs == [m + 1, m + 4, m + 5])
      && (p == o ==> r.ops[p].inputs == ReplaceFirst<nat>(s.ops[o].inputs, v, m))
      && (p < n && p != o ==> r.ops[p].inputs == s.ops[p].inputs)
    requires p < |s.ops| ==> x !in s.ops[p].inputs
    ensures Count<nat>(r.vars[x].consumers, p) == Count<nat>(r.ops[p].inputs, x)
  {
    var n, m := |s.ops|, |s.vars|;
    if p == n {
      QuantizeReads(r.vars[x].consumers, r.ops[p].inputs, v, o, n, m, x);
    } else if p == n + 1 {
      DequantizeReads(r.vars[x].consumers, r.ops[p].inputs, o, n, m, x);
    } else if p == o {
      RerouteReads(r.vars[x].consumers, r.ops[p].inputs, s.ops[o].inputs, v, o, n, m, x);
    } else {
      UntouchedReads(r.vars[x].consumers, r.ops[p].inputs, NewReader(o, n, m, x), p, x);
    }
  }

  lemma NewVarConsumers(s: GraphState, r: GraphState, v: VarId, o: OpId, x: VarId)
    requires InsertLinks(s, r, v, o) && |s.vars| <= x < |s.vars| + 6
    ensures r.vars[x].consumers == [NewReader(o, |s.ops|, |s.vars|, x)]
  {
  }

  lemma NewOpInputs(s: GraphState, r: GraphState, v: VarId, o: OpId, p: OpId)
    requires InsertLinks(s, r, v, o) && p < |s.ops| + 2
    ensures var n, m := |s.ops|, |s.vars|;
      && (p == n ==> r.ops[p].inputs == [v, m + 2, m + 3])
      && (p == n + 1 ==> r.ops[p].inputs == [m + 1, m + 4, m + 5])
      && (p == o ==> r.ops[p].inputs == ReplaceFirst<nat>(s.ops[o].inputs, v, m))
      && (p < n && p != o ==> r.ops[p].inputs == s.ops[p].inputs)
  {
  }


  /** The Quantize node reads the new variable `x` as often as `x` lists it: once for its two parameters. */
  lemma QuantizeReads(consumers: seq<nat>, inputs: seq<nat>, v: VarId, o: OpId, n: nat, m: nat, x: VarId)
    requires v < m <= x < m + 6 && o < n
    requires consumers == [NewReader(o, n, m, x)] && inputs == [v, m + 2, m + 3]
    ensures Count<nat>(consumers, n) == Count<nat>(inputs, x)
  {
    CountSingleton<nat>(NewReader(o, n, m, x), n);
    CountTriple<nat>(v, m + 2, m + 3, x);
  }

  /** The Dequantize node reads the new variable `x` as often as `x` lists it. */
  lemma DequantizeReads(consumers: seq<nat>, inputs: seq<nat>, o: OpId, n: nat, m: nat, x: VarId)
    requires m <= x < m + 6 && o < n
    requires consumers == [NewReader(o, n, m, x)] && inputs == [m + 1, m + 4, m + 5]
    ensures Count<nat>(consumers, n + 1) == Count<nat>(inputs, x)
  {
    CountSingleton<nat>(NewReader(o, n, m, x), n + 1);
    CountTriple<nat>(m + 1, m + 4, m + 5, x);
  }

  /** The rerouted operation `o` reads the new variable `x` as often as `x` lists it: once for the Dequantize node's output. */
  lemma RerouteReads(consumers: seq<nat>, inputs: seq<nat>, before: seq<nat>, v: VarId, o: OpId, n: nat, m: nat, x: VarId)
    requires v in before && x !in before && v < m <= x < m + 6 && o < n
    requires consumers == [NewReader(o, n, m, x)] && inputs == ReplaceFirst<nat>(before, v, m)
    ensures Count<nat>(consumers, o) == Count<nat>(inputs, x)
  {
    CountSingleton<nat>(NewReader(o, n, m, x), o);
    CountReplaceFirst<nat>(before, v, m, x);
  }

  /** An operation that neither reads nor is read by a new variable. */
  lemma UntouchedReads(consumers: seq<nat>, inputs: seq<nat>, reader: OpId, p: OpId, x: VarId)
    requires consumers == [reader] && reader != p && x !in inputs
    ensures Count<nat>(consumers, p) == Count<nat>(inputs, x)
  {
    CountSingleton<nat>(reader, p);
  }



}
