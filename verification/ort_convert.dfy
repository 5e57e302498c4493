/**
 * convert_operation of the ONNX Runtime exporter: every exportable (configuration,
 * variable) pair of a quantable operation gets its quantize/dequantize chain.
 */
module OrtConvert {
  import opened Failures
  import opened Seqs
  import opened Quant
  import opened Graphs
  import opened QdqHelper
  import opened OrtInsert

  /** Where a configuration sits in its operation: the k-th input or the k-th output. */
  datatype Slot = InputSlot(k: nat) | OutputSlot(k: nat)

  /** One entry of config_with_variable. */
  datatype Binding = Binding(config: QuantConfig, v: VarId, slot: Slot)

  function Min(a: nat, b: nat): nat { if a <= b then a else b }

  /**
   * config_with_variable: input configurations zipped with the inputs, then output
   * configurations zipped with the outputs (each zip as long as the shorter list).
   */
  function Bindings(op: Operation): (r: seq<Binding>)
    ensures op.config.None? ==> r == []
    ensures op.config.Some? ==> |r| == Min(|op.config.value.inputConfigs|, |op.inputs|)
                                    + Min(|op.config.value.outputConfigs|, |op.outputs|)
    ensures forall b :: b in r ==> b.v in op.inputs || b.v in op.outputs
  {
    match op.config
    case None => []
    case Some(cfg) =>
      var n := Min(|cfg.inputConfigs|, |op.inputs|);
      var m := Min(|cfg.outputConfigs|, |op.outputs|);
      seq(n, k requires 0 <= k < n => Binding(cfg.inputConfigs[k], op.inputs[k], InputSlot(k)))
      + seq(m, k requires 0 <= k < m => Binding(cfg.outputConfigs[k], op.outputs[k], OutputSlot(k)))
  }

  /** The state override applied to a parameter's configuration before export. */
  function Normalized(st: State): (r: State)
    ensures r != Baked && r != PassiveBaked
    ensures st != Baked && st != PassiveBaked ==> r == st
  {
    if st == Baked then Activated else if st == PassiveBaked then Passive else st
  }

  /** After the override, every exportable configuration is in an activated state. */
  lemma ExportableNormalizedIsActivated(c: QuantConfig)
    requires Exportable(c)
    ensures IsActivated(Normalized(c.state))
    ensures c.state == Baked ==> Normalized(c.state) == Activated
    ensures c.state == PassiveBaked ==> Normalized(c.state) == Passive
  {
  }

  /** Writes a configuration state back into the operation's slot. */
  function WithSlotState(s: GraphState, o: OpId, slot: Slot, st: State): (r: GraphState)
    requires o < |s.ops|
    ensures |r.ops| == |s.ops| && r.vars == s.vars && r.outputs == s.outputs
    ensures forall p :: 0 <= p < |s.ops| && p != o ==> r.ops[p] == s.ops[p]
    ensures r.ops[o].inputs == s.ops[o].inputs && r.ops[o].outputs == s.ops[o].outputs && r.ops[o].alive == s.ops[o].alive
    ensures r.ops[o].config.Some? == s.ops[o].config.Some?
    ensures r.ops[o].config.Some? ==>
      && |r.ops[o].config.value.inputConfigs| == |s.ops[o].config.value.inputConfigs|
      && |r.ops[o].config.value.outputConfigs| == |s.ops[o].config.value.outputConfigs|
    ensures r.ops[o].config.Some? ==> match slot
      case InputSlot(k) => k < |s.ops[o].config.value.inputConfigs| ==> r.ops[o].config.value.inputConfigs[k].state == st
      case OutputSlot(k) => k < |s.ops[o].config.value.outputConfigs| ==> r.ops[o].config.value.outputConfigs[k].state == st
  {
    match s.ops[o].config
    case None => s
    case Some(cfg) =>
      var cfg' := match slot
        case InputSlot(k) =>
          if k < |cfg.inputConfigs| then cfg.(inputConfigs := cfg.inputConfigs[k := cfg.inputConfigs[k].(state := st)]) else cfg
        case OutputSlot(k) =>
          if k < |cfg.outputConfigs| then cfg.(outputConfigs := cfg.outputConfigs[k := cfg.outputConfigs[k].(state := st)]) else cfg;
      WithDetails(s, o, s.ops[o].attrs, Some(cfg'), s.ops[o].meta)
  }

  /** One pass of the loop body of convert_operation. */
  function ConvertBinding(s: GraphState, o: OpId, b: Binding, activations: bool, parameters: bool, toInt: bool): (r: Result<GraphState>)
    requires o < |s.ops| && b.v < |s.vars|
    ensures r.Ok? ==> |r.value.ops| >= |s.ops| && |r.value.vars| >= |s.vars|
  {
    if !Exportable(b.config) then Ok(s)
    else if s.vars[b.v].isParameter && parameters then ConvertParameter(s, o, b, toInt)
    else if !s.vars[b.v].isParameter && activations then ConvertActivation(s, o, b)
    else Ok(s)
  }

  /**
   * A parameter: it must have exactly one reader; its configuration's state is overridden
   * (in the operation's slot too); with quant_param_to_int only a dequantize node goes
   * between it and the operation and a LINEAR parameter takes its integer form, otherwise
   * a quantize node and then a dequantize node on the quantize node's output.
   */
  function ConvertParameter(s: GraphState, o: OpId, b: Binding, toInt: bool): (r: Result<GraphState>)
    requires o < |s.ops| && b.v < |s.vars|
    ensures r.Ok? ==> |r.value.ops| >= |s.ops| && |r.value.vars| >= |s.vars|
  {
    if |s.vars[b.v].consumers| != 1 then Fail(AssertionError)
    else
      var c := b.config.(state := Normalized(b.config.state));
      ParameterChain(WithSlotState(s, o, b.slot, c.state), o, b.v, c, toInt)
  }

  /** The nodes a parameter gets once its configuration is settled. */
  function ParameterChain(s: GraphState, o: OpId, v: VarId, c: QuantConfig, toInt: bool): (r: Result<GraphState>)
    requires o < |s.ops| && v < |s.vars|
    ensures r.Ok? ==> |r.value.ops| >= |s.ops| && |r.value.vars| >= |s.vars|
  {
    if toInt then DequantToInt(s, v, c, o) else QuantThenDequant(s, v, c, o)
  }

  /** An activation: a quantize node, then a dequantize node on the quantize node's output. */
  function ConvertActivation(s: GraphState, o: OpId, b: Binding): (r: Result<GraphState>)
    requires o < |s.ops| && b.v < |s.vars|
    ensures r.Ok? ==> |r.value.ops| == |s.ops| + 2 && |r.value.vars| == |s.vars| + 6
  {
    QuantThenDequant(s, b.v, b.config, o)
  }

  /**
   * A quantize node on `v` towards `o`, then a dequantize node on the quantize node's
   * output (variable |vars| + 2) towards `o`.
   */
  function QuantThenDequant(s: GraphState, v: VarId, c: QuantConfig, o: OpId): (r: Result<GraphState>)
    requires o < |s.ops| && v < |s.vars|
    ensures r.Ok? ==> |r.value.ops| == |s.ops| + 2 && |r.value.vars| == |s.vars| + 6
  {
    var quantized :- InsertQdq(s, v, c, o, true);
    Ok(InsertQdq(quantized.graph, |s.vars| + 2, c, o, false).value.graph)
  }

  /** Only a dequantize node; a LINEAR parameter's value becomes its integer form. */
  function DequantToInt(s: GraphState, v: VarId, c: QuantConfig, o: OpId): (r: Result<GraphState>)
    requires o < |s.ops| && v < |s.vars|
    ensures r.Ok? ==> |r.value.ops| == |s.ops| + 1 && |r.value.vars| == |s.vars| + 3
  {
    var dequantized :- InsertQdq(s, v, c, o, false);
    if c.Has(Linear) then Ok(WithValue(dequantized.graph, v, IntFormOf(s.vars[v].value, c)))
    else Ok(dequantized.graph)
  }

  /**
   * When one pair is skipped (not exportable, or a parameter or activation the caller did
   * not select), and the only two ways it fails: a parameter with other than
   * one reader, and a policy with no node encoding.
   */
  lemma ConvertBindingOutcomes(s: GraphState, o: OpId, b: Binding, activations: bool, parameters: bool, toInt: bool)
    requires o < |s.ops| && b.v < |s.vars|
    ensures var r := ConvertBinding(s, o, b, activations, parameters, toInt);
      && (!Exportable(b.config) ==> r == Ok(s))
      && (!(s.vars[b.v].isParameter && parameters) && !(!s.vars[b.v].isParameter && activations) ==> r == Ok(s))
      && (r == Fail(AssertionError) <==>
            Exportable(b.config) && s.vars[b.v].isParameter && parameters && |s.vars[b.v].consumers| != 1)
      && (r == Fail(TypeError) <==>
            && Exportable(b.config) && !b.config.Has(Linear) && !b.config.Has(Floating)
            && (if s.vars[b.v].isParameter then parameters && |s.vars[b.v].consumers| == 1 else activations))
      && (r.Fail? ==> r.error in {AssertionError, TypeError})
  {
    var c := b.config.(state := Normalized(b.config.state));
    assert c.Has(Linear) == b.config.Has(Linear) && c.Has(Floating) == b.config.Has(Floating);
  }

  /** The loop of convert_operation over a snapshot of the pairs; the first failure aborts. */
  function ConvertBindings(s: GraphState, o: OpId, bs: seq<Binding>, activations: bool, parameters: bool, toInt: bool): (r: Result<GraphState>)
    requires o < |s.ops| && forall b :: b in bs ==> b.v < |s.vars|
    ensures r.Ok? ==> |r.value.ops| >= |s.ops| && |r.value.vars| >= |s.vars|
    decreases |bs|
  {
    if |bs| == 0 then Ok(s)
    else
      var s1 :- ConvertBinding(s, o, bs[0], activations, parameters, toInt);
      ConvertBindings(s1, o, bs[1..], activations, parameters, toInt)
  }

  /** One step of the loop: the first pair, then the rest on its result. */
  lemma ConvertBindingsStep(s: GraphState, o: OpId, b: Binding, rest: seq<Binding>, activations: bool, parameters: bool, toInt: bool)
    requires o < |s.ops| && b.v < |s.vars| && forall x :: x in rest ==> x.v < |s.vars|
    ensures var r := ConvertBinding(s, o, b, activations, parameters, toInt);
      ConvertBindings(s, o, [b] + rest, activations, parameters, toInt)
        == if r.Fail? then Fail(r.error) else ConvertBindings(r.value, o, rest, activations, parameters, toInt)
  {
    assert ([b] + rest)[0] == b && ([b] + rest)[1..] == rest;
  }

  /** convert_operation(graph, op, process_activation, process_parameter, quant_param_to_int). */
  function ConvertOperation(s: GraphState, o: OpId, activations: bool, parameters: bool, toInt: bool): (r: Result<GraphState>)
    requires Closed(s) && o < |s.ops|
    ensures r.Ok? ==> |r.value.ops| >= |s.ops| && |r.value.vars| >= |s.vars|
  {
    ConvertBindings(s, o, Bindings(s.ops[o]), activations, parameters, toInt)
  }

  // ---------------------------------------------------------------------------------
  // The methods.

  method ConvertBindingOn(g: Graph, o: OpId, b: Binding, activations: bool, parameters: bool, toInt: bool) returns (res: Outcome)
    requires o < |g.ops| && b.v < |g.vars|
    modifies g
    ensures res == OutcomeOf(ConvertBinding(old(g.State()), o, b, activations, parameters, toInt))
    ensures res.Pass? ==> g.State() == ConvertBinding(old(g.State()), o, b, activations, parameters, toInt).value
  {
    if !Exportable(b.config) {
      res := Pass;
    } else if g.vars[b.v].isParameter && parameters {
      res := ConvertParameterOn(g, o, b, toInt);
    } else if !g.vars[b.v].isParameter && activations {
      res := ConvertActivationOn(g, o, b);
    } else {
      res := Pass;
    }
  }

  method ConvertParameterOn(g: Graph, o: OpId, b: Binding, toInt: bool) returns (res: Outcome)
    requires o < |g.ops| && b.v < |g.vars|
    modifies g
    ensures res == OutcomeOf(ConvertParameter(old(g.State()), o, b, toInt))
    ensures res.Pass? ==> g.State() == ConvertParameter(old(g.State()), o, b, toInt).value
  {
    if |g.vars[b.v].consumers| != 1 {
      return Raise(AssertionError);
    }
    var c := b.config.(state := Normalized(b.config.state));
    SetSlotState(g, o, b.slot, c.state);
    res := ParameterChainOn(g, o, b.v, c, toInt);
  }

  /** Writes the settled state into the operation's configuration slot. */
  method SetSlotState(g: Graph, o: OpId, slot: Slot, st: State)
    requires o < |g.ops|
    modifies g
    ensures g.State() == WithSlotState(old(g.State()), o, slot, st)
  {
    match g.ops[o].config {
      case None =>
      case Some(cfg) =>
        var cfg' := match slot
          case InputSlot(k) =>
            if k < |cfg.inputConfigs| then cfg.(inputConfigs := cfg.inputConfigs[k := cfg.inputConfigs[k].(state := st)]) else cfg
          case OutputSlot(k) =>
            if k < |cfg.outputConfigs| then cfg.(outputConfigs := cfg.outputConfigs[k := cfg.outputConfigs[k].(state := st)]) else cfg;
        g.SetDetails(o, g.ops[o].attrs, Some(cfg'), g.ops[o].meta);
    }
  }

  method ParameterChainOn(g: Graph, o: OpId, v: VarId, c: QuantConfig, toInt: bool) returns (res: Outcome)
    requires o < |g.ops| && v < |g.vars|
    modifies g
    ensures res == OutcomeOf(ParameterChain(old(g.State()), o, v, c, toInt))
    ensures res.Pass? ==> g.State() == ParameterChain(old(g.State()), o, v, c, toInt).value
  {
    if toInt {
      res := DequantToIntOn(g, v, c, o);
    } else {
      res := QuantThenDequantOn(g, v, c, o);
    }
  }

  method ConvertActivationOn(g: Graph, o: OpId, b: Binding) returns (res: Outcome)
    requires o < |g.ops| && b.v < |g.vars|
    modifies g
    ensures res == OutcomeOf(ConvertActivation(old(g.State()), o, b))
    ensures res.Pass? ==> g.State() == ConvertActivation(old(g.State()), o, b).value
  {
    res := QuantThenDequantOn(g, b.v, b.config, o);
  }

  method QuantThenDequantOn(g: Graph, v: VarId, c: QuantConfig, o: OpId) returns (res: Outcome)
    requires o < |g.ops| && v < |g.vars|
    modifies g
    ensures res == OutcomeOf(QuantThenDequant(old(g.State()), v, c, o))
    ensures res.Pass? ==> g.State() == QuantThenDequant(old(g.State()), v, c, o).value
  {
    var known := |g.vars|;
    var created := InsertOnVariable(g, v, c, o, true);
    if created.Fail? {
      return Raise(created.error);
    }
    var dq := InsertOnVariable(g, known + 2, c, o, false);
    res := Pass;
  }

  method DequantToIntOn(g: Graph, v: VarId, c: QuantConfig, o: OpId) returns (res: Outcome)
    requires o < |g.ops| && v < |g.vars|
    modifies g
    ensures res == OutcomeOf(DequantToInt(old(g.State()), v, c, o))
    ensures res.Pass? ==> g.State() == DequantToInt(old(g.State()), v, c, o).value
  {
    var original := g.vars[v].value;
    var dq := InsertOnVariable(g, v, c, o, false);
    if dq.Fail? {
      return Raise(dq.error);
    }
    if c.Has(Linear) {
      g.SetValue(v, IntFormOf(original, c));
    }
    res := Pass;
  }

  /** convert_operation on the graph object. */
  method ConvertOperationOn(g: Graph, o: OpId, activations: bool, parameters: bool, toInt: bool) returns (res: Outcome)
    requires Closed(g.State()) && o < |g.ops|
    modifies g
    ensures res == OutcomeOf(ConvertOperation(old(g.State()), o, activations, parameters, toInt))
    ensures res.Pass? ==> g.State() == ConvertOperation(old(g.State()), o, activations, parameters, toInt).value
  {
    var bs := Bindings(g.ops[o]);
    forall b | b in bs
      ensures b.v < |g.vars|
    {
    }
    var i := 0;
    while i < |bs|
      invariant 0 <= i <= |bs|
      invariant o < |g.ops| && forall b :: b in bs[i..] ==> b.v < |g.vars|
      invariant ConvertOperation(old(g.State()), o, activations, parameters, toInt)
             == ConvertBindings(g.State(), o, bs[i..], activations, parameters, toInt)
    {
      assert bs[i..] == [bs[i]] + bs[i + 1..];
      assert bs[i] in bs[i..];
      ConvertBindingsStep(g.State(), o, bs[i], bs[i + 1..], activations, parameters, toInt);
      res := ConvertBindingOn(g, o, bs[i], activations, parameters, toInt);
      if res.Raise? {
        return;
      }
      i := i + 1;
    }
    res := Pass;
  }

  // ---------------------------------------------------------------------------------
  // What the conversion does to the graph.

  /**
   * On an input edge `v -> o`: `o` now reads the dequantize node's output where it read
   * `v`, and the chain is `v -> quantize -> dequantize -> o`; no other operation changes.
   */
  lemma QuantThenDequantOnEdge(s: GraphState, v: VarId, c: QuantConfig, o: OpId)
    requires Closed(s) && v < |s.vars| && o < |s.ops|
    requires v in s.ops[o].inputs
    requires c.Has(Linear) || c.Has(Floating)
    ensures QuantThenDequant(s, v, c, o).Ok?
    ensures var r := QuantThenDequant(s, v, c, o).value;
      var q, d, n := |s.ops|, |s.ops| + 1, |s.vars|;
      && r.ops[o].inputs == ReplaceFirst<nat>(s.ops[o].inputs, v, n + 5)
      && Ok(r.ops[q].kind) == NodeKind(c, true) && Ok(r.ops[d].kind) == NodeKind(c, false)
      && r.ops[q].inputs == [v, n, n + 1] && r.ops[q].outputs == [n + 2]
      && r.ops[d].inputs == [n + 2, n + 3, n + 4] && r.ops[d].outputs == [n + 5]
      && r.vars[n + 2].consumers == [d] && r.vars[n + 5].consumers == [o]
      && r.outputs == s.outputs
      && forall p :: 0 <= p < |s.ops| && p != o ==> r.ops[p] == s.ops[p]
  {
    ChainQuantizeNode(s, v, c, o);
    ChainDequantizeNode(s, v, c, o);
    ChainEdgeRewired(s, v, c, o);
    ChainEdgeReaders(s, v, c, o);
    ChainEdgeOthers(s, v, c, o);
  }

  /**
   * On an output `v` of `o`: every former reader of `v` reads the dequantize node's output
   * instead, `v` feeds only the quantize node, and a graph output `v` is handed over to the
   * dequantize node's output.
   */
  lemma QuantThenDequantOnVariable(s: GraphState, v: VarId, c: QuantConfig, o: OpId)
    requires Closed(s) && v < |s.vars| && o < |s.ops|
    requires forall x :: x in s.outputs ==> x < |s.vars|
    requires v !in s.ops[o].inputs
    requires c.Has(Linear) || c.Has(Floating)
    ensures QuantThenDequant(s, v, c, o).Ok?
    ensures var r := QuantThenDequant(s, v, c, o).value;
      var q, d, n := |s.ops|, |s.ops| + 1, |s.vars|;
      && (forall p :: 0 <= p < |s.ops| ==> r.ops[p].inputs == ReplaceAll<nat>(s.ops[p].inputs, v, n + 5))
      && Ok(r.ops[q].kind) == NodeKind(c, true) && Ok(r.ops[d].kind) == NodeKind(c, false)
      && r.ops[q].inputs == [v, n, n + 1] && r.ops[q].outputs == [n + 2]
      && r.ops[d].inputs == [n + 2, n + 3, n + 4] && r.ops[d].outputs == [n + 5]
      && r.vars[n + 5].consumers == s.vars[v].consumers
      && r.outputs == if v in s.outputs then s.outputs - {v} + {n + 5} else s.outputs
  {
    ChainQuantizeNode(s, v, c, o);
    ChainDequantizeNode(s, v, c, o);
    ChainReaders(s, v, c, o);
    ChainGraphOutputs(s, v, c, o);
    ChainRerouted(s, v, c, o);
  }

  // Each fact about a chain is proved on the two intermediate states as plain variables:
  // ChainOf ties them to QuantThenDequant, and each step lemma below states one effect of
  // one insertion on the state before it.

  /** A chain is its two insertions, the second one on the quantize node's output. */
  lemma ChainOf(s: GraphState, v: VarId, c: QuantConfig, o: OpId, s1: GraphState, r: GraphState)
    requires v < |s.vars| && o < |s.ops| && (c.Has(Linear) || c.Has(Floating))
    requires s1 == InsertQdq(s, v, c, o, true).value.graph
    requires r == InsertQdq(s1, |s.vars| + 2, c, o, false).value.graph
    ensures QuantThenDequant(s, v, c, o) == Ok(r)
  {
  }

  lemma PlacedStep(s: GraphState, v: VarId, c: QuantConfig, o: OpId, quantize: bool, r: GraphState)
    requires v < |s.vars| && o < |s.ops| && (c.Has(Linear) || c.Has(Floating))
    requires r == InsertQdq(s, v, c, o, quantize).value.graph
    ensures |r.ops| == |s.ops| + 1 && |r.vars| == |s.vars| + 3
    ensures Ok(r.ops[|s.ops|].kind) == NodeKind(c, quantize)
    ensures r.ops[|s.ops|].inputs == [v, |s.vars|, |s.vars| + 1] && r.ops[|s.ops|].outputs == [|s.vars| + 2]
  {
    InsertedNode(s, v, c, o, quantize);
  }

  lemma KeptStep(s: GraphState, v: VarId, c: QuantConfig, o: OpId, quantize: bool, r: GraphState, p: OpId)
    requires v < |s.vars| && o < |s.ops| && p < |s.ops| && (c.Has(Linear) || c.Has(Floating))
    requires v !in s.ops[p].inputs
    requires r == InsertQdq(s, v, c, o, quantize).value.graph
    ensures r.ops[p].inputs == s.ops[p].inputs && r.ops[p].outputs == s.ops[p].outputs && r.ops[p].kind == s.ops[p].kind
  {
    InsertQdqUntouched(s, v, c, o, quantize, p);
    InsertQdqPreserves(s, v, c, o, quantize);
  }

  lemma EdgeSlotStep(s: GraphState, v: VarId, c: QuantConfig, o: OpId, quantize: bool, r: GraphState)
    requires v < |s.vars| && o < |s.ops| && (c.Has(Linear) || c.Has(Floating))
    requires v in s.ops[o].inputs
    requires r == InsertQdq(s, v, c, o, quantize).value.graph
    ensures r.ops[o].inputs == ReplaceFirst<nat>(s.ops[o].inputs, v, |s.vars| + 2)
  {
    InsertedOnEdge(s, v, c, o, quantize);
  }

  lemma EdgeReadersStep(s: GraphState, v: VarId, c: QuantConfig, o: OpId, quantize: bool, r: GraphState)
    requires v < |s.vars| && o < |s.ops| && (c.Has(Linear) || c.Has(Floating))
    requires v in s.ops[o].inputs
    requires r == InsertQdq(s, v, c, o, quantize).value.graph
    ensures r.vars[|s.vars| + 2].consumers == [o]
    ensures r.vars[v].consumers == ReplaceFirst<nat>(s.vars[v].consumers, o, |s.ops|)
    ensures r.outputs == s.outputs
  {
    InsertedOnEdge(s, v, c, o, quantize);
  }

  lemma EdgeOthersStep(s: GraphState, v: VarId, c: QuantConfig, o: OpId, quantize: bool, r: GraphState)
    requires v < |s.vars| && o < |s.ops| && (c.Has(Linear) || c.Has(Floating))
    requires v in s.ops[o].inputs
    requires r == InsertQdq(s, v, c, o, quantize).value.graph
    ensures forall p :: 0 <= p < |s.ops| && p != o ==> r.ops[p] == s.ops[p]
  {
    InsertedOnEdge(s, v, c, o, quantize);
  }

  lemma VariableReadersStep(s: GraphState, v: VarId, c: QuantConfig, o: OpId, quantize: bool, r: GraphState)
    requires v < |s.vars| && o < |s.ops| && (c.Has(Linear) || c.Has(Floating))
    requires v !in s.ops[o].inputs
    requires r == InsertQdq(s, v, c, o, quantize).value.graph
    ensures r.vars[|s.vars| + 2].consumers == s.vars[v].consumers
  {
    InsertedOnVariable(s, v, c, o, quantize);
  }

  lemma VariableReroutedStep(s: GraphState, v: VarId, c: QuantConfig, o: OpId, quantize: bool, r: GraphState)
    requires v < |s.vars| && o < |s.ops| && (c.Has(Linear) || c.Has(Floating))
    requires v !in s.ops[o].inputs
    requires r == InsertQdq(s, v, c, o, quantize).value.graph
    ensures forall p :: 0 <= p < |s.ops| ==> r.ops[p].inputs == ReplaceAll<nat>(s.ops[p].inputs, v, |s.vars| + 2)
  {
    InsertedOnVariable(s, v, c, o, quantize);
  }

  lemma OutputsStep(s: GraphState, v: VarId, c: QuantConfig, o: OpId, quantize: bool, r: GraphState)
    requires v < |s.vars| && o < |s.ops| && (c.Has(Linear) || c.Has(Floating))
    requires r == InsertQdq(s, v, c, o, quantize).value.graph
    ensures r.outputs == if v in s.ops[o].inputs || v !in s.outputs then s.outputs else s.outputs - {v} + {|s.vars| + 2}
  {
    InsertQdqOutputs(s, v, c, o, quantize);
  }

  /** The quantize node of a chain is left as the first insertion made it. */
  lemma ChainQuantizeNode(s: GraphState, v: VarId, c: QuantConfig, o: OpId)
    requires v < |s.vars| && o < |s.ops|
    requires c.Has(Linear) || c.Has(Floating)
    ensures var r := QuantThenDequant(s, v, c, o).value;
      var q, n := |s.ops|, |s.vars|;
      && Ok(r.ops[q].kind) == NodeKind(c, true)
      && r.ops[q].inputs == [v, n, n + 1] && r.ops[q].outputs == [n + 2]
  {
    var n := |s.vars|;
    var s1 := InsertQdq(s, v, c, o, true).value.graph;
    var r := InsertQdq(s1, n + 2, c, o, false).value.graph;
    ChainOf(s, v, c, o, s1, r);
    PlacedStep(s, v, c, o, true, s1);
    QuantizeNodeKept(s, v, c, o, s1, r);
  }

  /** The second insertion leaves the quantize node alone: it does not read the dequantized variable. */
  lemma QuantizeNodeKept(s: GraphState, v: VarId, c: QuantConfig, o: OpId, s1: GraphState, r: GraphState)
    requires v < |s.vars| && o < |s.ops| && (c.Has(Linear) || c.Has(Floating))
    requires |s1.ops| == |s.ops| + 1 && |s1.vars| == |s.vars| + 3
    requires r == InsertQdq(s1, |s.vars| + 2, c, o, false).value.graph
    requires Ok(s1.ops[|s.ops|].kind) == NodeKind(c, true)
    requires s1.ops[|s.ops|].inputs == [v, |s.vars|, |s.vars| + 1] && s1.ops[|s.ops|].outputs == [|s.vars| + 2]
    ensures var q, n := |s.ops|, |s.vars|;
      && Ok(r.ops[q].kind) == NodeKind(c, true)
      && r.ops[q].inputs == [v, n, n + 1] && r.ops[q].outputs == [n + 2]
  {
    KeptStep(s1, |s.vars| + 2, c, o, false, r, |s.ops|);
  }

  /** The dequantize node of a chain reads the quantize node's output. */
  lemma ChainDequantizeNode(s: GraphState, v: VarId, c: QuantConfig, o: OpId)
    requires v < |s.vars| && o < |s.ops|
    requires c.Has(Linear) || c.Has(Floating)
    ensures var r := QuantThenDequant(s, v, c, o).value;
      var d, n := |s.ops| + 1, |s.vars|;
      && Ok(r.ops[d].kind) == NodeKind(c, false)
      && r.ops[d].inputs == [n + 2, n + 3, n + 4] && r.ops[d].outputs == [n + 5]
  {
    var n := |s.vars|;
    var s1 := InsertQdq(s, v, c, o, true).value.graph;
    var r := InsertQdq(s1, n + 2, c, o, false).value.graph;
    ChainOf(s, v, c, o, s1, r);
    DequantizeNodePlaced(s, v, c, o, s1, r);
  }

  /** The second insertion's node, numbered from the state before the chain. */
  lemma DequantizeNodePlaced(s: GraphState, v: VarId, c: QuantConfig, o: OpId, s1: GraphState, r: GraphState)
    requires v < |s.vars| && o < |s.ops| && (c.Has(Linear) || c.Has(Floating))
    requires |s1.ops| == |s.ops| + 1 && |s1.vars| == |s.vars| + 3
    requires r == InsertQdq(s1, |s.vars| + 2, c, o, false).value.graph
    ensures var d, n := |s.ops| + 1, |s.vars|;
      && Ok(r.ops[d].kind) == NodeKind(c, false)
      && r.ops[d].inputs == [n + 2, n + 3, n + 4] && r.ops[d].outputs == [n + 5]
  {
    PlacedStep(s1, |s.vars| + 2, c, o, false, r);
  }

  /** On an input edge, `o` reads the dequantize output in the slot where it read `v`. */
  lemma ChainEdgeRewired(s: GraphState, v: VarId, c: QuantConfig, o: OpId)
    requires Closed(s) && v < |s.vars| && o < |s.ops|
    requires v in s.ops[o].inputs
    requires c.Has(Linear) || c.Has(Floating)
    ensures var r := QuantThenDequant(s, v, c, o).value;
      r.ops[o].inputs == ReplaceFirst<nat>(s.ops[o].inputs, v, |s.vars| + 5)
  {
    var n := |s.vars|;
    var s1 := InsertQdq(s, v, c, o, true).value.graph;
    var r := InsertQdq(s1, n + 2, c, o, false).value.graph;
    ChainOf(s, v, c, o, s1, r);
    EdgeSlotStep(s, v, c, o, true, s1);
    EdgeRewiredSecond(s, v, c, o, s1, r);
  }

  lemma EdgeRewiredSecond(s: GraphState, v: VarId, c: QuantConfig, o: OpId, s1: GraphState, r: GraphState)
    requires v < |s.vars| && o < |s.ops| && (c.Has(Linear) || c.Has(Floating))
    requires |s1.ops| == |s.ops| + 1 && |s1.vars| == |s.vars| + 3
    requires r == InsertQdq(s1, |s.vars| + 2, c, o, false).value.graph
    requires Closed(s) && v in s.ops[o].inputs
    requires s1.ops[o].inputs == ReplaceFirst<nat>(s.ops[o].inputs, v, |s.vars| + 2)
    ensures r.ops[o].inputs == ReplaceFirst<nat>(s.ops[o].inputs, v, |s.vars| + 5)
  {
    var n := |s.vars|;
    EdgeSlotStep(s1, n + 2, c, o, false, r);
    assert n + 2 !in s.ops[o].inputs;
    ReplaceFirstTwice<nat>(s.ops[o].inputs, v, n + 2, n + 5);
  }

  /** On an input edge, each new variable has its one reader and the graph outputs stay. */
  lemma ChainEdgeReaders(s: GraphState, v: VarId, c: QuantConfig, o: OpId)
    requires v < |s.vars| && o < |s.ops|
    requires v in s.ops[o].inputs
    requires c.Has(Linear) || c.Has(Floating)
    ensures var r := QuantThenDequant(s, v, c, o).value;
      var n := |s.vars|;
      && r.vars[n + 2].consumers == [|s.ops| + 1] && r.vars[n + 5].consumers == [o]
      && r.outputs == s.outputs
  {
    var n := |s.vars|;
    var s1 := InsertQdq(s, v, c, o, true).value.graph;
    var r := InsertQdq(s1, n + 2, c, o, false).value.graph;
    ChainOf(s, v, c, o, s1, r);
    EdgeSlotStep(s, v, c, o, true, s1);
    EdgeReadersStep(s, v, c, o, true, s1);
    EdgeReadersSecond(s, v, c, o, s1, r);
  }

  lemma EdgeReadersSecond(s: GraphState, v: VarId, c: QuantConfig, o: OpId, s1: GraphState, r: GraphState)
    requires v < |s.vars| && o < |s.ops| && (c.Has(Linear) || c.Has(Floating))
    requires |s1.ops| == |s.ops| + 1 && |s1.vars| == |s.vars| + 3
    requires r == InsertQdq(s1, |s.vars| + 2, c, o, false).value.graph
    requires |s.vars| + 2 in s1.ops[o].inputs
    requires s1.vars[|s.vars| + 2].consumers == [o] && s1.outputs == s.outputs
    ensures r.vars[|s.vars| + 2].consumers == [|s.ops| + 1] && r.vars[|s.vars| + 5].consumers == [o]
    ensures r.outputs == s.outputs
  {
    EdgeReadersStep(s1, |s.vars| + 2, c, o, false, r);
    EdgeReadersCompose(s, s1, r, o, |s.vars| + 2);
  }

  /** The reader bookkeeping of two edge splices in a row. */
  lemma EdgeReadersCompose(s: GraphState, s1: GraphState, r: GraphState, o: OpId, w: VarId)
    requires |s1.ops| == |s.ops| + 1 && w + 1 == |s1.vars| && |s1.vars| + 3 <= |r.vars|
    requires s1.vars[w].consumers == [o] && s1.outputs == s.outputs
    requires r.vars[w].consumers == ReplaceFirst<nat>(s1.vars[w].consumers, o, |s1.ops|)
    requires r.vars[|s1.vars| + 2].consumers == [o] && r.outputs == s1.outputs
    ensures r.vars[w].consumers == [|s.ops| + 1] && r.vars[w + 3].consumers == [o] && r.outputs == s.outputs
  {
  }

  /** On an input edge, no operation other than `o` changes. */
  lemma ChainEdgeOthers(s: GraphState, v: VarId, c: QuantConfig, o: OpId)
    requires v < |s.vars| && o < |s.ops|
    requires v in s.ops[o].inputs
    requires c.Has(Linear) || c.Has(Floating)
    ensures var r := QuantThenDequant(s, v, c, o).value;
      forall p :: 0 <= p < |s.ops| && p != o ==> r.ops[p] == s.ops[p]
  {
    var n := |s.vars|;
    var s1 := InsertQdq(s, v, c, o, true).value.graph;
    var r := InsertQdq(s1, n + 2, c, o, false).value.graph;
    ChainOf(s, v, c, o, s1, r);
    EdgeSlotStep(s, v, c, o, true, s1);
    EdgeOthersStep(s, v, c, o, true, s1);
    EdgeOthersSecond(s, v, c, o, s1, r);
  }

  lemma EdgeOthersSecond(s: GraphState, v: VarId, c: QuantConfig, o: OpId, s1: GraphState, r: GraphState)
    requires v < |s.vars| && o < |s.ops| && (c.Has(Linear) || c.Has(Floating))
    requires |s1.ops| == |s.ops| + 1 && |s1.vars| == |s.vars| + 3
    requires r == InsertQdq(s1, |s.vars| + 2, c, o, false).value.graph
    requires |s.vars| + 2 in s1.ops[o].inputs
    requires forall p :: 0 <= p < |s.ops| && p != o ==> s1.ops[p] == s.ops[p]
    ensures forall p :: 0 <= p < |s.ops| && p != o ==> r.ops[p] == s.ops[p]
  {
    EdgeOthersStep(s1, |s.vars| + 2, c, o, false, r);
  }

  /** After a splice onto `v`, the operation that does not read `v` does not read the new output either. */
  lemma SpliceLeavesRelated(s: GraphState, s1: GraphState, v: VarId, o: OpId)
    requires o < |s.ops| <= |s1.ops| && v !in s.ops[o].inputs && |s.vars| + 2 !in s.ops[o].inputs
    requires forall p :: 0 <= p < |s.ops| ==> s1.ops[p].inputs == ReplaceAll<nat>(s.ops[p].inputs, v, |s.vars| + 2)
    ensures |s.vars| + 2 !in s1.ops[o].inputs
  {
    ReplaceAllAbsent<nat>(s.ops[o].inputs, v, |s.vars| + 2);
  }

  /** On an output, the dequantize output takes over the readers of `v`. */
  lemma ChainReaders(s: GraphState, v: VarId, c: QuantConfig, o: OpId)
    requires Closed(s) && v < |s.vars| && o < |s.ops|
    requires c.Has(Linear) || c.Has(Floating)
    requires v !in s.ops[o].inputs
    ensures QuantThenDequant(s, v, c, o).value.vars[|s.vars| + 5].consumers == s.vars[v].consumers
  {
    assert |s.vars| + 2 !in s.ops[o].inputs;
    ReadersChained(s, v, c, o);
  }

  lemma ReadersChained(s: GraphState, v: VarId, c: QuantConfig, o: OpId)
    requires v < |s.vars| && o < |s.ops|
    requires c.Has(Linear) || c.Has(Floating)
    requires v !in s.ops[o].inputs && |s.vars| + 2 !in s.ops[o].inputs
    ensures QuantThenDequant(s, v, c, o).value.vars[|s.vars| + 5].consumers == s.vars[v].consumers
  {
    var n := |s.vars|;
    var s1 := InsertQdq(s, v, c, o, true).value.graph;
    var r := InsertQdq(s1, n + 2, c, o, false).value.graph;
    ChainOf(s, v, c, o, s1, r);
    VariableReadersStep(s, v, c, o, true, s1);
    VariableReroutedStep(s, v, c, o, true, s1);
    SpliceLeavesRelated(s, s1, v, o);
    ReadersSecond(s, v, c, o, s1, r);
  }

  lemma ReadersSecond(s: GraphState, v: VarId, c: QuantConfig, o: OpId, s1: GraphState, r: GraphState)
    requires v < |s.vars| && o < |s.ops| && (c.Has(Linear) || c.Has(Floating))
    requires |s1.ops| == |s.ops| + 1 && |s1.vars| == |s.vars| + 3
    requires r == InsertQdq(s1, |s.vars| + 2, c, o, false).value.graph
    requires |s.vars| + 2 !in s1.ops[o].inputs
    requires s1.vars[|s.vars| + 2].consumers == s.vars[v].consumers
    ensures r.vars[|s.vars| + 5].consumers == s.vars[v].consumers
  {
    VariableReadersStep(s1, |s.vars| + 2, c, o, false, r);
  }

  /** On an output, a graph-output role passes from `v` to the dequantize output. */
  lemma ChainGraphOutputs(s: GraphState, v: VarId, c: QuantConfig, o: OpId)
    requires Closed(s) && v < |s.vars| && o < |s.ops|
    requires forall x :: x in s.outputs ==> x < |s.vars|
    requires c.Has(Linear) || c.Has(Floating)
    requires v !in s.ops[o].inputs
    ensures var r := QuantThenDequant(s, v, c, o).value;
      r.outputs == if v in s.outputs then s.outputs - {v} + {|s.vars| + 5} else s.outputs
  {
    assert |s.vars| + 2 !in s.ops[o].inputs;
    GraphOutputsChained(s, v, c, o);
  }

  lemma GraphOutputsChained(s: GraphState, v: VarId, c: QuantConfig, o: OpId)
    requires v < |s.vars| && o < |s.ops|
    requires forall x :: x in s.outputs ==> x < |s.vars|
    requires c.Has(Linear) || c.Has(Floating)
    requires v !in s.ops[o].inputs && |s.vars| + 2 !in s.ops[o].inputs
    ensures var r := QuantThenDequant(s, v, c, o).value;
      r.outputs == if v in s.outputs then s.outputs - {v} + {|s.vars| + 5} else s.outputs
  {
    var n := |s.vars|;
    var s1 := InsertQdq(s, v, c, o, true).value.graph;
    var r := InsertQdq(s1, n + 2, c, o, false).value.graph;
    ChainOf(s, v, c, o, s1, r);
    OutputsStep(s, v, c, o, true, s1);
    VariableReroutedStep(s, v, c, o, true, s1);
    SpliceLeavesRelated(s, s1, v, o);
    OutputsSecond(s, v, c, o, s1, r);
  }

  lemma OutputsSecond(s: GraphState, v: VarId, c: QuantConfig, o: OpId, s1: GraphState, r: GraphState)
    requires v < |s.vars| && o < |s.ops| && (c.Has(Linear) || c.Has(Floating))
    requires |s1.ops| == |s.ops| + 1 && |s1.vars| == |s.vars| + 3
    requires r == InsertQdq(s1, |s.vars| + 2, c, o, false).value.graph
    requires forall x :: x in s.outputs ==> x < |s.vars|
    requires v !in s.ops[o].inputs && |s.vars| + 2 !in s1.ops[o].inputs
    requires s1.outputs == if v in s.ops[o].inputs || v !in s.outputs then s.outputs else s.outputs - {v} + {|s.vars| + 2}
    ensures r.outputs == if v in s.outputs then s.outputs - {v} + {|s.vars| + 5} else s.outputs
  {
    OutputsStep(s1, |s.vars| + 2, c, o, false, r);
    OutputsTwice(s, s1, r, v, o);
  }

  /** The graph outputs after two splices onto variables, the second onto the first one's output. */
  lemma OutputsTwice(s: GraphState, s1: GraphState, r: GraphState, v: VarId, o: OpId)
    requires v < |s.vars| && o < |s.ops| && o < |s1.ops|
    requires forall x :: x in s.outputs ==> x < |s.vars|
    requires v !in s.ops[o].inputs && |s.vars| + 2 !in s1.ops[o].inputs
    requires s1.outputs == if v in s.ops[o].inputs || v !in s.outputs then s.outputs else s.outputs - {v} + {|s.vars| + 2}
    requires r.outputs == if |s.vars| + 2 in s1.ops[o].inputs || |s.vars| + 2 !in s1.outputs then s1.outputs else s1.outputs - {|s.vars| + 2} + {|s.vars| + 5}
    ensures r.outputs == if v in s.outputs then s.outputs - {v} + {|s.vars| + 5} else s.outputs
  {
    HandOverTwice(s.outputs, v, |s.vars| + 2, |s.vars| + 5);
  }

  /** On an output, every existing operation reads the dequantize output in place of `v`. */
  lemma ChainRerouted(s: GraphState, v: VarId, c: QuantConfig, o: OpId)
    requires Closed(s) && v < |s.vars| && o < |s.ops|
    requires c.Has(Linear) || c.Has(Floating)
    requires v !in s.ops[o].inputs
    ensures var r := QuantThenDequant(s, v, c, o).value;
      forall p :: 0 <= p < |s.ops| ==> r.ops[p].inputs == ReplaceAll<nat>(s.ops[p].inputs, v, |s.vars| + 5)
  {
    assert forall p :: 0 <= p < |s.ops| ==> |s.vars| + 2 !in s.ops[p].inputs;
    ReroutedChained(s, v, c, o);
  }

  lemma ReroutedChained(s: GraphState, v: VarId, c: QuantConfig, o: OpId)
    requires v < |s.vars| && o < |s.ops|
    requires c.Has(Linear) || c.Has(Floating)
    requires v !in s.ops[o].inputs
    requires forall p :: 0 <= p < |s.ops| ==> |s.vars| + 2 !in s.ops[p].inputs
    ensures var r := QuantThenDequant(s, v, c, o).value;
      forall p :: 0 <= p < |s.ops| ==> r.ops[p].inputs == ReplaceAll<nat>(s.ops[p].inputs, v, |s.vars| + 5)
  {
    var n := |s.vars|;
    var s1 := InsertQdq(s, v, c, o, true).value.graph;
    var r := InsertQdq(s1, n + 2, c, o, false).value.graph;
    ChainOf(s, v, c, o, s1, r);
    VariableReroutedStep(s, v, c, o, true, s1);
    SpliceLeavesRelated(s, s1, v, o);
    ReroutedSecond(s, v, c, o, s1, r);
  }

  lemma ReroutedSecond(s: GraphState, v: VarId, c: QuantConfig, o: OpId, s1: GraphState, r: GraphState)
    requires v < |s.vars| && o < |s.ops| && (c.Has(Linear) || c.Has(Floating))
    requires |s1.ops| == |s.ops| + 1 && |s1.vars| == |s.vars| + 3
    requires r == InsertQdq(s1, |s.vars| + 2, c, o, false).value.graph
    requires |s.vars| + 2 !in s1.ops[o].inputs
    requires forall p :: 0 <= p < |s.ops| ==> |s.vars| + 2 !in s.ops[p].inputs
    requires forall p :: 0 <= p < |s.ops| ==> s1.ops[p].inputs == ReplaceAll<nat>(s.ops[p].inputs, v, |s.vars| + 2)
    ensures forall p :: 0 <= p < |s.ops| ==> r.ops[p].inputs == ReplaceAll<nat>(s.ops[p].inputs, v, |s.vars| + 5)
  {
    VariableReroutedStep(s1, |s.vars| + 2, c, o, false, r);
    RerouteTwice(s, s1, r, v, |s.vars| + 2, |s.vars| + 5);
  }

  /** Handing a graph output over twice is handing it over once, to the last variable. */
  lemma HandOverTwice(outs: set<VarId>, v: VarId, w: VarId, z: VarId)
    requires w !in outs && v != w
    ensures var outs1 := if v in outs then outs - {v} + {w} else outs;
      (if w in outs1 then outs1 - {w} + {z} else outs1) == if v in outs then outs - {v} + {z} else outs
  {
  }

  /** Two global reroutes through a variable nobody read before compose into one. */
  lemma RerouteTwice(s: GraphState, s1: GraphState, r: GraphState, v: VarId, w: VarId, z: VarId)
    requires forall p :: 0 <= p < |s.ops| ==> w !in s.ops[p].inputs
    requires |s.ops| <= |s1.ops| <= |r.ops|
    requires forall p :: 0 <= p < |s.ops| ==> s1.ops[p].inputs == ReplaceAll<nat>(s.ops[p].inputs, v, w)
    requires forall p :: 0 <= p < |s1.ops| ==> r.ops[p].inputs == ReplaceAll<nat>(s1.ops[p].inputs, w, z)
    ensures forall p :: 0 <= p < |s.ops| ==> r.ops[p].inputs == ReplaceAll<nat>(s.ops[p].inputs, v, z)
  {
    forall p | 0 <= p < |s.ops|
      ensures r.ops[p].inputs == ReplaceAll<nat>(s.ops[p].inputs, v, z)
    {
      ReplaceAllTwice<nat>(s.ops[p].inputs, v, w, z);
    }
  }

  /**
   * With quant_param_to_int, on an input edge `v -> o`: `o` reads the dequantize node's
   * output where it read `v`, the node reads `v` directly, and a LINEAR parameter now holds
   * its integer form.
   */
  lemma DequantToIntOnEdge(s: GraphState, v: VarId, c: QuantConfig, o: OpId)
    requires v < |s.vars| && o < |s.ops|
    requires v in s.ops[o].inputs
    requires c.Has(Linear) || c.Has(Floating)
    ensures DequantToInt(s, v, c, o).Ok?
    ensures var r := DequantToInt(s, v, c, o).value;
      var d, n := |s.ops|, |s.vars|;
      && r.ops[o].inputs == ReplaceFirst<nat>(s.ops[o].inputs, v, n + 2)
      && Ok(r.ops[d].kind) == NodeKind(c, false)
      && r.ops[d].inputs == [v, n, n + 1] && r.ops[d].outputs == [n + 2]
      && r.vars[n + 2].consumers == [o]
      && r.vars[v].value == (if c.Has(Linear) then IntFormOf(s.vars[v].value, c) else s.vars[v].value)
      && forall p :: 0 <= p < |s.ops| && p != o ==> r.ops[p] == s.ops[p]
  {
    InsertedNode(s, v, c, o, false);
    InsertedOnEdge(s, v, c, o, false);
    InsertQdqPreserves(s, v, c, o, false);
  }
}
