/**
 * insert_quant_on_variable / insert_dequant_on_variable of the ONNX Runtime exporter:
 * one quantize or dequantize node, with its scale and offset as two new parameter
 * inputs, spliced onto the edge `var -> related_op` or onto `var` itself.
 */
module OrtInsert {
  import opened Failures
  import opened Seqs
  import opened Quant
  import opened Graphs
  import opened QdqHelper

  /** A successful insertion: the new graph and the inserted node. */
  datatype Inserted = Inserted(graph: GraphState, node: OpId)

  /** The node type a policy calls for; LINEAR wins over FLOATING, anything else has no encoding. */
  function NodeKind(c: QuantConfig, quantize: bool): (r: Result<OpType>)
    ensures r.Fail? <==> !c.Has(Linear) && !c.Has(Floating)
    ensures r.Fail? ==> r.error == TypeError
    ensures r.Ok? && c.Has(Linear) ==> r.value == (if quantize then QuantizeLinear else DequantizeLinear)
    ensures r.Ok? && !c.Has(Linear) ==> r.value == (if quantize then QuantizeFloating else DequantizeFloating)
  {
    if c.Has(Linear) then Ok(if quantize then QuantizeLinear else DequantizeLinear)
    else if c.Has(Floating) then Ok(if quantize then QuantizeFloating else DequantizeFloating)
    else Fail(TypeError)
  }

  /**
   * The node's attributes. LINEAR: `axis` is the channel axis when per-channel and 0 when
   * per-tensor (the later assignment wins). FLOATING: min, max, exponent and mantissa, and
   * `axis` only when per-channel.
   */
  function NodeAttrs(c: QuantConfig): (r: map<string, Attr>)
    ensures c.Has(Linear) && c.Has(PerTensor) ==> r == map["axis" := IntAttr(0)]
    ensures c.Has(Linear) && !c.Has(PerTensor) && c.Has(PerChannel) ==> r == map["axis" := IntAttr(c.channelAxis)]
    ensures c.Has(Linear) && !c.Has(PerTensor) && !c.Has(PerChannel) ==> r == map[]
    ensures !c.Has(Linear) ==> r.Keys == {"min", "max", "exponent", "mantissa"} + (if c.Has(PerChannel) then {"axis"} else {})
    ensures !c.Has(Linear) ==> r["min"] == IntAttr(c.quantMin) && r["max"] == IntAttr(c.quantMax)
    ensures !c.Has(Linear) ==> r["exponent"] == IntAttr(c.exponentBits) && r["mantissa"] == IntAttr(c.mantissaBits)
    ensures !c.Has(Linear) && c.Has(PerChannel) ==> r["axis"] == IntAttr(c.channelAxis)
  {
    if c.Has(Linear) then
      var perChannel: map<string, Attr> := if c.Has(PerChannel) then map["axis" := IntAttr(c.channelAxis)] else map[];
      if c.Has(PerTensor) then perChannel["axis" := IntAttr(0)] else perChannel
    else
      var floating := map["min" := IntAttr(c.quantMin), "max" := IntAttr(c.quantMax),
                          "exponent" := IntAttr(c.exponentBits), "mantissa" := IntAttr(c.mantissaBits)];
      if c.Has(PerChannel) then floating["axis" := IntAttr(c.channelAxis)] else floating
  }

  /**
   * The offset constant: for LINEAR the (already integral) offsets cast to the type
   * infer_qtype picks, for FLOATING the offsets as float32.
   */
  function OffsetTensor(c: QuantConfig): (t: Tensor)
    ensures c.Has(Linear) ==> t.Ints? && t.dtype == InferQType(c).0 && |t.ints| == |c.offset|
    ensures c.Has(Linear) ==> forall k :: 0 <= k < |c.offset| ==>
              Fits(t.ints[k], t.dtype) && (Fits(c.offset[k], t.dtype) ==> t.ints[k] == c.offset[k])
    ensures !c.Has(Linear) ==> t.Reals? && |t.reals| == |c.offset|
    ensures !c.Has(Linear) ==> forall k :: 0 <= k < |c.offset| ==> t.reals[k] == c.offset[k] as real
  {
    if c.Has(Linear) then
      var dtype := InferQType(c).0;
      var ints := seq(|c.offset|, k requires 0 <= k < |c.offset| => CastTo(c.offset[k], dtype));
      assert forall k :: 0 <= k < |c.offset| && Fits(c.offset[k], dtype) ==> ints[k] == c.offset[k] by {
        forall k | 0 <= k < |c.offset| && Fits(c.offset[k], dtype) {
          CastKeepsFitting(c.offset[k], dtype);
        }
      }
      Ints(ints, dtype)
    else
      Reals(seq(|c.offset|, k requires 0 <= k < |c.offset| => c.offset[k] as real))
  }

  /** The shape recorded for a one-dimensional constant of `n` values. */
  function VectorShape(n: nat): seq<int> { [n] }

  /**
   * The insertion, as a function of the graph. The scale and offset variables are created
   * first (ids |vars| and |vars|+1), then the node (id |ops|); the splice creates the
   * node's output (id |vars|+2); finally scale and offset are linked as inputs 1 and 2.
   * A policy with no encoding fails before anything is created.
   */
  function InsertQdq(s: GraphState, v: VarId, c: QuantConfig, related: OpId, quantize: bool): (r: Result<Inserted>)
    requires v < |s.vars| && related < |s.ops|
    ensures r.Fail? <==> !c.Has(Linear) && !c.Has(Floating)
    ensures r.Fail? ==> r.error == TypeError
    ensures r.Ok? ==> r.value.node == |s.ops|
    ensures r.Ok? ==> |r.value.graph.ops| == |s.ops| + 1 && |r.value.graph.vars| == |s.vars| + 3
  {
    var kind :- NodeKind(c, quantize);
    var scale, offset, node := |s.vars|, |s.vars| + 1, |s.ops|;
    var s4 := Splice(Materialize(s, c, kind), node, v, related);
    Ok(Inserted(LinkInput(LinkInput(s4, scale, node), offset, node), node))
  }

  /** The scale and offset parameters and the unlinked node, created in that order. */
  function Materialize(s: GraphState, c: QuantConfig, kind: OpType): (r: GraphState)
    ensures |r.vars| == |s.vars| + 2 && |r.ops| == |s.ops| + 1 && r.outputs == s.outputs
  {
    var s1 := NewVariable(s, true, Reals(c.scale), VectorShape(|c.scale|));
    var s2 := NewVariable(s1, true, OffsetTensor(c), VectorShape(|c.offset|));
    NewOperation(s2, kind, NodeAttrs(c))
  }

  /** The node goes on the edge `v -> related` when `related` reads `v`, otherwise onto `v`. */
  function Splice(s: GraphState, node: OpId, v: VarId, related: OpId): (r: GraphState)
    requires node < |s.ops| && v < |s.vars| && related < |s.ops| && node != related
    ensures |r.vars| == |s.vars| + 1 && |r.ops| == |s.ops|
  {
    if v in s.ops[related].inputs then InsertBetween(s, node, v, related) else InsertOnVar(s, node, v)
  }

  /** The two graph methods that perform an insertion, in the source's order. */
  method InsertOnVariable(g: Graph, v: VarId, c: QuantConfig, related: OpId, quantize: bool) returns (r: Result<OpId>)
    requires v < |g.vars| && related < |g.ops|
    modifies g
    ensures r.Fail? ==> r == Fail(TypeError) && g.State() == old(g.State())
    ensures InsertQdq(old(g.State()), v, c, related, quantize).Fail? <==> r.Fail?
    ensures r.Ok? ==> InsertQdq(old(g.State()), v, c, related, quantize).value == Inserted(g.State(), r.value)
  {
    var kind := NodeKind(c, quantize);
    if kind.Fail? {
      return Fail(TypeError);
    }
    var scale := g.CreateVariable(true, Reals(c.scale), VectorShape(|c.scale|));
    var offset := g.CreateVariable(true, OffsetTensor(c), VectorShape(|c.offset|));
    var created := g.CreateOperation(kind.value, NodeAttrs(c));
    if v in g.ops[related].inputs {
      g.InsertOpBetweenVarAndOp(created, v, related);
    } else {
      g.InsertOpOnVar(created, v);
    }
    g.CreateLinkWithOp(scale, created);
    g.CreateLinkWithOp(offset, created);
    r := Ok(created);
  }

  // ---------------------------------------------------------------------------------
  // What an insertion does to the graph.

  /**
   * The inserted node: its type follows the policy, its inputs are the variable (or the
   * edge's source), the new scale and the new offset, and it produces one new variable.
   * Scale and offset are parameters holding the configuration's values.
   */
  lemma InsertedNode(s: GraphState, v: VarId, c: QuantConfig, related: OpId, quantize: bool)
    requires v < |s.vars| && related < |s.ops|
    requires InsertQdq(s, v, c, related, quantize).Ok?
    ensures var r := InsertQdq(s, v, c, related, quantize).value.graph;
      var node, scale, offset, out := |s.ops|, |s.vars|, |s.vars| + 1, |s.vars| + 2;
      && Ok(r.ops[node].kind) == NodeKind(c, quantize)
      && r.ops[node].attrs == NodeAttrs(c)
      && r.ops[node].inputs == [v, scale, offset]
      && r.ops[node].outputs == [out]
      && r.ops[node].config.None?
      && r.vars[scale].isParameter && r.vars[scale].value == Reals(c.scale)
      && r.vars[offset].isParameter && r.vars[offset].value == OffsetTensor(c)
      && r.vars[scale].consumers == [node] && r.vars[offset].consumers == [node]
      && r.vars[out].producer == Some(node)
  {
    var s4 := InsertQdqStaged(s, v, c, related, quantize);
    LinkBoth(s4, |s.vars|, |s.vars| + 1, |s.ops|);
  }

  /**
   * The insertion up to the splice, as a state of its own: the parameters and the node
   * are in place, the node's output is a new live activation, and nothing old changed kind.
   */
  lemma InsertQdqStaged(s: GraphState, v: VarId, c: QuantConfig, related: OpId, quantize: bool) returns (s4: GraphState)
    requires v < |s.vars| && related < |s.ops|
    requires InsertQdq(s, v, c, related, quantize).Ok?
    ensures var node, scale, offset, out := |s.ops|, |s.vars|, |s.vars| + 1, |s.vars| + 2;
      && |s4.vars| == |s.vars| + 3 && |s4.ops| == |s.ops| + 1
      && InsertQdq(s, v, c, related, quantize).value.graph == LinkInput(LinkInput(s4, scale, node), offset, node)
      && s4.ops[node] == Operation(OperationName(node), NodeKind(c, quantize).value, NodeAttrs(c), [v], [out], None, OpMeta([], []), true)
      && s4.vars[scale] == Variable(VariableName(scale), true, Reals(c.scale), VectorShape(|c.scale|), None, [], true)
      && s4.vars[offset] == Variable(VariableName(offset), true, OffsetTensor(c), VectorShape(|c.offset|), None, [], true)
      && s4.vars[out].producer == Some(node) && s4.vars[out].alive && !s4.vars[out].isParameter
      && Extends(s, s4)
  {
    var kind := NodeKind(c, quantize).value;
    var node := |s.ops|;
    var s3 := Materialize(s, c, kind);
    MaterializeExtends(s, c, kind);
    assert s3.ops[node] == Operation(OperationName(node), kind, NodeAttrs(c), [], [], None, OpMeta([], []), true);
    s4 := Splice(s3, node, v, related);
    SpliceNode(s3, node, v, related);
    SpliceExtends(s3, node, v, related);
    ExtendsTransitive(s, s3, s4);
    InsertQdqUnfolds(s, v, c, related, quantize);
  }

  /** The splice gives a detached node its first input and its one output, and touches no other variable. */
  lemma SpliceNode(s: GraphState, node: OpId, v: VarId, related: OpId)
    requires Detached(s, node) && v < |s.vars| && related < |s.ops| && node != related
    ensures var r := Splice(s, node, v, related);
      && r.ops[node] == s.ops[node].(inputs := [v], outputs := [|s.vars|])
      && r.vars[|s.vars|].producer == Some(node)
      && forall x :: 0 <= x < |s.vars| && x != v ==> r.vars[x] == s.vars[x]
  {
  }

  /** Linking two distinct variables as the node's next inputs. */
  lemma LinkBoth(s: GraphState, a: VarId, b: VarId, node: OpId)
    requires a < |s.vars| && b < |s.vars| && a != b && node < |s.ops|
    ensures var r := LinkInput(LinkInput(s, a, node), b, node);
      && r.ops[node] == s.ops[node].(inputs := s.ops[node].inputs + [a, b])
      && r.vars[a] == s.vars[a].(consumers := s.vars[a].consumers + [node])
      && r.vars[b] == s.vars[b].(consumers := s.vars[b].consumers + [node])
      && forall x :: 0 <= x < |s.vars| && x != a && x != b ==> r.vars[x] == s.vars[x]
  {
    assert s.ops[node].inputs + [a] + [b] == s.ops[node].inputs + [a, b];
  }

  /**
   * The splice on an edge: when `related` reads `v`, its first such input now reads the
   * node's output, which has `related` as its only reader, and no other operation's
   * inputs change.
   */
  lemma InsertedOnEdge(s: GraphState, v: VarId, c: QuantConfig, related: OpId, quantize: bool)
    requires v < |s.vars| && related < |s.ops|
    requires InsertQdq(s, v, c, related, quantize).Ok?
    requires v in s.ops[related].inputs
    ensures var r := InsertQdq(s, v, c, related, quantize).value.graph;
      var out := |s.vars| + 2;
      && r.ops[related].inputs == ReplaceFirst<nat>(s.ops[related].inputs, v, out)
      && r.vars[out].consumers == [related]
      && r.vars[v].consumers == ReplaceFirst<nat>(s.vars[v].consumers, related, |s.ops|)
      && r.outputs == s.outputs
      && forall o :: 0 <= o < |s.ops| && o != related ==> r.ops[o] == s.ops[o]
  {
    var s3 := Materialize(s, c, NodeKind(c, quantize).value);
    assert s3.ops[related] == s.ops[related] && s3.vars[v] == s.vars[v];
  }

  /**
   * The splice on a variable: when `related` does not read `v`, `v` feeds only the node,
   * every former reader of `v` reads the node's output instead, and a graph output `v`
   * becomes the node's output.
   */
  lemma InsertedOnVariable(s: GraphState, v: VarId, c: QuantConfig, related: OpId, quantize: bool)
    requires v < |s.vars| && related < |s.ops|
    requires InsertQdq(s, v, c, related, quantize).Ok?
    requires v !in s.ops[related].inputs
    ensures var r := InsertQdq(s, v, c, related, quantize).value.graph;
      var out := |s.vars| + 2;
      && r.vars[v].consumers == [|s.ops|]
      && r.vars[out].consumers == s.vars[v].consumers
      && (forall o :: 0 <= o < |s.ops| ==> r.ops[o].inputs == ReplaceAll<nat>(s.ops[o].inputs, v, out))
      && (forall o :: 0 <= o < |s.ops| ==> r.ops[o].outputs == s.ops[o].outputs && r.ops[o].kind == s.ops[o].kind)
      && r.outputs == if v in s.outputs then s.outputs - {v} + {out} else s.outputs
  {
    var s3 := Materialize(s, c, NodeKind(c, quantize).value);
    assert s3.ops[related] == s.ops[related] && s3.vars[v] == s.vars[v];
  }

  /** Only a splice onto a variable changes the graph outputs, handing `v` over to the node's output. */
  lemma InsertQdqOutputs(s: GraphState, v: VarId, c: QuantConfig, related: OpId, quantize: bool)
    requires v < |s.vars| && related < |s.ops|
    requires InsertQdq(s, v, c, related, quantize).Ok?
    ensures var r := InsertQdq(s, v, c, related, quantize).value.graph;
      r.outputs == if v in s.ops[related].inputs || v !in s.outputs then s.outputs else s.outputs - {v} + {|s.vars| + 2}
  {
    var s3 := Materialize(s, c, NodeKind(c, quantize).value);
    assert s3.ops[related] == s.ops[related];
    InsertQdqUnfolds(s, v, c, related, quantize);
  }

  /**
   * An insertion changes no existing variable's value, kind or liveness and no existing
   * operation's type, configuration or liveness; the node's output is a live activation.
   */
  lemma InsertQdqPreserves(s: GraphState, v: VarId, c: QuantConfig, related: OpId, quantize: bool)
    requires v < |s.vars| && related < |s.ops|
    requires InsertQdq(s, v, c, related, quantize).Ok?
    ensures var r := InsertQdq(s, v, c, related, quantize).value.graph;
      Extends(s, r) && r.vars[|s.vars| + 2].alive && !r.vars[|s.vars| + 2].isParameter
  {
    var s4 := InsertQdqStaged(s, v, c, related, quantize);
    LinkBothExtends(s, s4, |s.vars|, |s.vars| + 1, |s.ops|);
  }

  /** Linking inputs after a state that extends `s` still extends `s`, and keeps every variable's kind. */
  lemma LinkBothExtends(s: GraphState, s4: GraphState, a: VarId, b: VarId, node: OpId)
    requires Extends(s, s4) && a < |s4.vars| && b < |s4.vars| && node < |s4.ops|
    ensures var r := LinkInput(LinkInput(s4, a, node), b, node);
      && Extends(s, r)
      && forall x :: 0 <= x < |s4.vars| ==> r.vars[x].alive == s4.vars[x].alive && r.vars[x].isParameter == s4.vars[x].isParameter
  {
    var s5 := LinkInput(s4, a, node);
    LinkInputExtends(s4, a, node);
    LinkInputExtends(s5, b, node);
    ExtendsTransitive(s4, s5, LinkInput(s5, b, node));
    ExtendsTransitive(s, s4, LinkInput(s5, b, node));
  }

  lemma MaterializeExtends(s: GraphState, c: QuantConfig, kind: OpType)
    ensures Extends(s, Materialize(s, c, kind))
  {
    var s1 := NewVariable(s, true, Reals(c.scale), VectorShape(|c.scale|));
    NewVariableExtends(s, true, Reals(c.scale), VectorShape(|c.scale|));
    var s2 := NewVariable(s1, true, OffsetTensor(c), VectorShape(|c.offset|));
    NewVariableExtends(s1, true, OffsetTensor(c), VectorShape(|c.offset|));
    NewOperationExtends(s2, kind, NodeAttrs(c));
    ExtendsTransitive(s, s1, s2);
    ExtendsTransitive(s, s2, NewOperation(s2, kind, NodeAttrs(c)));
  }

  lemma SpliceExtends(s: GraphState, node: OpId, v: VarId, related: OpId)
    requires node < |s.ops| && v < |s.vars| && related < |s.ops| && node != related
    ensures var r := Splice(s, node, v, related);
      Extends(s, r) && r.vars[|s.vars|].alive && !r.vars[|s.vars|].isParameter
  {
    if v in s.ops[related].inputs {
      InsertBetweenExtends(s, node, v, related);
    } else {
      InsertOnVarExtends(s, node, v);
    }
  }

  /** An operation that does not read `v` keeps its links. */
  lemma InsertQdqUntouched(s: GraphState, v: VarId, c: QuantConfig, related: OpId, quantize: bool, p: OpId)
    requires v < |s.vars| && related < |s.ops| && p < |s.ops|
    requires InsertQdq(s, v, c, related, quantize).Ok?
    requires v !in s.ops[p].inputs
    ensures var r := InsertQdq(s, v, c, related, quantize).value.graph;
      r.ops[p].inputs == s.ops[p].inputs && r.ops[p].outputs == s.ops[p].outputs
  {
    if v in s.ops[related].inputs {
      InsertedOnEdge(s, v, c, related, quantize);
    } else {
      InsertedOnVariable(s, v, c, related, quantize);
      ReplaceAllAbsent<nat>(s.ops[p].inputs, v, |s.vars| + 2);
    }
  }

  /** Creating the parameters and the node keeps the graph consistent and leaves the node detached. */
  lemma MaterializeConsistent(s: GraphState, c: QuantConfig, kind: OpType)
    requires Consistent(s)
    ensures var r := Materialize(s, c, kind);
      && Consistent(r) && Detached(r, |s.ops|)
      && r.vars[|s.vars|].alive && r.vars[|s.vars| + 1].alive
      && (forall x :: 0 <= x < |s.vars| ==> r.vars[x] == s.vars[x])
      && (forall o :: 0 <= o < |s.ops| ==> r.ops[o] == s.ops[o])
  {
    var s1 := NewVariable(s, true, Reals(c.scale), VectorShape(|c.scale|));
    NewVariableConsistent(s, true, Reals(c.scale), VectorShape(|c.scale|));
    var s2 := NewVariable(s1, true, OffsetTensor(c), VectorShape(|c.offset|));
    NewVariableConsistent(s1, true, OffsetTensor(c), VectorShape(|c.offset|));
    NewOperationConsistent(s2, kind, NodeAttrs(c));
  }

  lemma SpliceConsistent(s: GraphState, node: OpId, v: VarId, related: OpId)
    requires Consistent(s) && Detached(s, node) && v < |s.vars| && related < |s.ops| && node != related
    requires s.vars[v].alive
    ensures var r := Splice(s, node, v, related);
      && Consistent(r) && r.ops[node].alive
      && forall x :: 0 <= x < |s.vars| && x != v ==> r.vars[x].alive == s.vars[x].alive
  {
    if v in s.ops[related].inputs {
      InsertBetweenConsistent(s, node, v, related);
    } else {
      InsertOnVarConsistent(s, node, v);
    }
  }

  /** The insertion is the splice of the materialized node, followed by the two links. */
  lemma InsertQdqUnfolds(s: GraphState, v: VarId, c: QuantConfig, related: OpId, quantize: bool)
    requires v < |s.vars| && related < |s.ops|
    requires InsertQdq(s, v, c, related, quantize).Ok?
    ensures var s4 := Splice(Materialize(s, c, NodeKind(c, quantize).value), |s.ops|, v, related);
      InsertQdq(s, v, c, related, quantize)
        == Ok(Inserted(LinkInput(LinkInput(s4, |s.vars|, |s.ops|), |s.vars| + 1, |s.ops|), |s.ops|))
  {
  }

  lemma MaterializeClosed(s: GraphState, c: QuantConfig, kind: OpType)
    requires Closed(s)
    ensures Closed(Materialize(s, c, kind))
  {
    var s1 := NewVariable(s, true, Reals(c.scale), VectorShape(|c.scale|));
    NewVariableClosed(s, true, Reals(c.scale), VectorShape(|c.scale|));
    var s2 := NewVariable(s1, true, OffsetTensor(c), VectorShape(|c.offset|));
    NewVariableClosed(s1, true, OffsetTensor(c), VectorShape(|c.offset|));
    NewOperationClosed(s2, kind, NodeAttrs(c));
  }

  lemma SpliceClosed(s: GraphState, node: OpId, v: VarId, related: OpId)
    requires Closed(s) && node < |s.ops| && v < |s.vars| && related < |s.ops| && node != related
    ensures Closed(Splice(s, node, v, related))
  {
    if v in s.ops[related].inputs {
      InsertBetweenClosed(s, node, v, related);
    } else {
      InsertOnVarClosed(s, node, v);
    }
  }

  /** An insertion keeps indices in range. */
  lemma InsertQdqClosed(s: GraphState, v: VarId, c: QuantConfig, related: OpId, quantize: bool)
    requires Closed(s) && v < |s.vars| && related < |s.ops|
    requires InsertQdq(s, v, c, related, quantize).Ok?
    ensures Closed(InsertQdq(s, v, c, related, quantize).value.graph)
  {
    var kind := NodeKind(c, quantize).value;
    var scale, offset, node := |s.vars|, |s.vars| + 1, |s.ops|;
    var s3 := Materialize(s, c, kind);
    MaterializeClosed(s, c, kind);
    var s4 := Splice(s3, node, v, related);
    SpliceClosed(s3, node, v, related);
    var s5 := LinkInput(s4, scale, node);
    LinkInputClosed(s4, scale, node);
    LinkInputClosed(s5, offset, node);
    InsertQdqUnfolds(s, v, c, related, quantize);
  }

  /** An insertion keeps the graph consistent. */
  lemma InsertQdqConsistent(s: GraphState, v: VarId, c: QuantConfig, related: OpId, quantize: bool)
    requires Consistent(s) && v < |s.vars| && related < |s.ops|
    requires s.vars[v].alive
    requires InsertQdq(s, v, c, related, quantize).Ok?
    ensures Consistent(InsertQdq(s, v, c, related, quantize).value.graph)
  {
    var s4 := InsertQdqSpliced(s, v, c, related, quantize);
    LinkBothConsistent(s4, |s.vars|, |s.vars| + 1, |s.ops|);
  }

  /** The insertion up to the splice, as a state of its own: consistent, with the parameters and the node alive. */
  lemma InsertQdqSpliced(s: GraphState, v: VarId, c: QuantConfig, related: OpId, quantize: bool) returns (s4: GraphState)
    requires Consistent(s) && v < |s.vars| && related < |s.ops|
    requires s.vars[v].alive
    requires InsertQdq(s, v, c, related, quantize).Ok?
    ensures |s4.vars| == |s.vars| + 3 && |s4.ops| == |s.ops| + 1
    ensures InsertQdq(s, v, c, related, quantize).value.graph
         == LinkInput(LinkInput(s4, |s.vars|, |s.ops|), |s.vars| + 1, |s.ops|)
    ensures Consistent(s4) && s4.vars[|s.vars|].alive && s4.vars[|s.vars| + 1].alive && s4.ops[|s.ops|].alive
  {
    var kind := NodeKind(c, quantize).value;
    var s3 := Materialize(s, c, kind);
    MaterializeConsistent(s, c, kind);
    s4 := Splice(s3, |s.ops|, v, related);
    SpliceConsistent(s3, |s.ops|, v, related);
    SpliceExtends(s3, |s.ops|, v, related);
    InsertQdqUnfolds(s, v, c, related, quantize);
  }

  /** Linking two live variables into a live operation keeps the graph consistent. */
  lemma LinkBothConsistent(s: GraphState, a: VarId, b: VarId, node: OpId)
    requires Consistent(s) && a < |s.vars| && b < |s.vars| && node < |s.ops|
    requires s.vars[a].alive && s.vars[b].alive && s.ops[node].alive
    ensures Consistent(LinkInput(LinkInput(s, a, node), b, node))
  {
    LinkInputConsistent(s, a, node);
    LinkInputExtends(s, a, node);
    LinkInputConsistent(LinkInput(s, a, node), b, node);
  }
}
