/**
 * The computation graph the exporters rewrite in place (PPQ's BaseGraph), as an arena:
 * operations and variables are addressed by their index, and removing one leaves a
 * tombstone (`alive == false`, no links) so that indices stay stable. Index order is
 * creation order, which is the order in which the graph's registries are iterated.
 *
 * BaseGraph itself is not part of this model. Its primitives are given the contracts
 * their documented and observed uses call for: the splice `var -> inserted -> new var
 * -> op`, the splice onto a variable, and the remove-and-relink of an operation.
 */
module Graphs {
  import opened Failures
  import opened Seqs
  import opened Quant

  type OpId = nat
  type VarId = nat

  /** The closed catalogue of operation types the exporters tell apart. */
  datatype OpType =
    | Conv | Gemm | ConvTranspose | MatMul | AveragePool | GlobalAveragePool
    | Relu | Clip | ReduceSum | Squeeze | Unsqueeze | Split
    | QuantizeLinear | DequantizeLinear | QuantizeFloating | DequantizeFloating
    | Shape | Gather | Concat | Reshape
    | Other(typeName: string)

  datatype Attr = IntAttr(i: int) | IntsAttr(xs: seq<int>)

  datatype DType = Float32 | Int8 | UInt8 | Int32 | Int64

  /**
   * The value a variable holds. `IntFormOf(t, c)` is the integer form of `t` under `c`
   * (PPQLinearQuant_toInt), kept symbolic: its arithmetic is not modelled.
   */
  datatype Tensor =
    | NoValue
    | Reals(reals: seq<real>)
    | Ints(ints: seq<int>, dtype: DType)
    | IntFormOf(source: Tensor, config: QuantConfig)

  datatype TensorMeta = TensorMeta(dtype: DType, shape: seq<int>)

  datatype OpMeta = OpMeta(inputMetas: seq<TensorMeta>, outputMetas: seq<TensorMeta>)

  /** The configurations of a quantable operation, one per input and one per output. */
  datatype OpConfig = OpConfig(inputConfigs: seq<QuantConfig>, outputConfigs: seq<QuantConfig>)

  datatype Operation = Operation(
    name: string,
    kind: OpType,
    attrs: map<string, Attr>,
    inputs: seq<VarId>,
    outputs: seq<VarId>,
    config: Option<OpConfig>,   // Some exactly for a QuantableOperation
    meta: OpMeta,
    alive: bool)
  {
    predicate Quantable() { config.Some? }
  }

  datatype Variable = Variable(
    name: string,
    isParameter: bool,
    value: Tensor,
    shape: seq<int>,
    producer: Option<OpId>,
    consumers: seq<OpId>,       // one entry per input slot that reads this variable
    alive: bool)

  datatype GraphState = GraphState(ops: seq<Operation>, vars: seq<Variable>, outputs: set<VarId>)

  function VariableName(id: nat): string { "PPQ_Variable_" + NatToString(id) }

  function OperationName(id: nat): string { "PPQ_Operation_" + NatToString(id) }

  // ---------------------------------------------------------------------------------
  // The structural invariant.

  /** Every index stored in the graph addresses an entry of it. */
  ghost predicate Closed(s: GraphState) {
    && (forall o, x :: 0 <= o < |s.ops| && x in s.ops[o].inputs ==> x < |s.vars|)
    && (forall o, y :: 0 <= o < |s.ops| && y in s.ops[o].outputs ==> y < |s.vars|)
    && (forall v, p :: 0 <= v < |s.vars| && p in s.vars[v].consumers ==> p < |s.ops|)
    && (forall v :: 0 <= v < |s.vars| && s.vars[v].producer.Some? ==> s.vars[v].producer.value < |s.ops|)
  }

  /** Removed entries carry no links. */
  ghost predicate Tombstones(s: GraphState) {
    && (forall o :: 0 <= o < |s.ops| && !s.ops[o].alive ==> s.ops[o].inputs == [] && s.ops[o].outputs == [])
    && (forall v :: 0 <= v < |s.vars| && !s.vars[v].alive ==> s.vars[v].consumers == [] && s.vars[v].producer == None)
  }

  /** A variable lists an operation as consumer exactly as often as the operation reads it. */
  ghost predicate Linked(s: GraphState)
    requires Closed(s)
  {
    forall v, o :: 0 <= v < |s.vars| && 0 <= o < |s.ops| ==>
      Count<nat>(s.vars[v].consumers, o) == Count<nat>(s.ops[o].inputs, v)
  }

  /** A variable's producer is the operation that lists it as an output. */
  ghost predicate Produced(s: GraphState)
    requires Closed(s)
  {
    && (forall v :: 0 <= v < |s.vars| && s.vars[v].producer.Some? ==>
          v in s.ops[s.vars[v].producer.value].outputs)
    && (forall o, y :: 0 <= o < |s.ops| && y in s.ops[o].outputs ==> s.vars[y].producer == Some(o))
  }

  ghost predicate Consistent(s: GraphState) {
    Closed(s) && Tombstones(s) && Linked(s) && Produced(s)
  }

  /** A live operation with no links yet, as create_operation leaves it. */
  predicate Detached(s: GraphState, o: OpId) {
    o < |s.ops| && s.ops[o].alive && s.ops[o].inputs == [] && s.ops[o].outputs == []
  }

  // ---------------------------------------------------------------------------------
  // Navigation.

  /** The producers of the given variables, in order, skipping those without one. */
  function ProducersOf(s: GraphState, xs: seq<VarId>): (r: seq<OpId>)
    requires Closed(s) && forall x :: x in xs ==> x < |s.vars|
    ensures forall p :: p in r ==> p < |s.ops|
  {
    if |xs| == 0 then []
    else
      assert xs[0] in xs && forall x :: x in xs[1..] ==> x in xs;
      (match s.vars[xs[0]].producer
       case Some(p) => [p]
       case None => []) + ProducersOf(s, xs[1..])
  }

  /** The consumers of the given variables, concatenated in order. */
  function ConsumersOf(s: GraphState, ys: seq<VarId>): (r: seq<OpId>)
    requires Closed(s) && forall y :: y in ys ==> y < |s.vars|
    ensures forall p :: p in r ==> p < |s.ops|
  {
    if |ys| == 0 then [] else assert ys[0] in ys && forall y :: y in ys[1..] ==> y in ys; s.vars[ys[0]].consumers + ConsumersOf(s, ys[1..])
  }

  /** BaseGraph.get_upstream_operations. */
  function Upstream(s: GraphState, o: OpId): (r: seq<OpId>)
    requires Closed(s) && o < |s.ops|
    ensures forall p :: p in r ==> p < |s.ops|
  {
    ProducersOf(s, s.ops[o].inputs)
  }

  /** BaseGraph.get_downstream_operations. */
  function Downstream(s: GraphState, o: OpId): (r: seq<OpId>)
    requires Closed(s) && o < |s.ops|
    ensures forall p :: p in r ==> p < |s.ops|
  {
    ConsumersOf(s, s.ops[o].outputs)
  }

  // ---------------------------------------------------------------------------------
  // The primitives, as functions of the graph.

  /** create_variable: a new, unlinked variable at the end of the registry. */
  function NewVariable(s: GraphState, isParameter: bool, value: Tensor, shape: seq<int>): (r: GraphState)
    ensures |r.vars| == |s.vars| + 1 && r.ops == s.ops && r.outputs == s.outputs
  {
    s.(vars := s.vars + [Variable(VariableName(|s.vars|), isParameter, value, shape, None, [], true)])
  }

  /** create_operation: a new, unlinked, non-quantable operation at the end of the registry. */
  function NewOperation(s: GraphState, kind: OpType, attrs: map<string, Attr>): (r: GraphState)
    ensures |r.ops| == |s.ops| + 1 && r.vars == s.vars && r.outputs == s.outputs
  {
    s.(ops := s.ops + [Operation(OperationName(|s.ops|), kind, attrs, [], [], None, OpMeta([], []), true)])
  }

  /** create_link_with_op(variable=v, upstream_op=None, downstream_op=o): o reads v as its last input. */
  function LinkInput(s: GraphState, v: VarId, o: OpId): (r: GraphState)
    requires v < |s.vars| && o < |s.ops|
    ensures |r.ops| == |s.ops| && |r.vars| == |s.vars| && r.outputs == s.outputs
  {
    s.(ops := s.ops[o := s.ops[o].(inputs := s.ops[o].inputs + [v])],
       vars := s.vars[v := s.vars[v].(consumers := s.vars[v].consumers + [o])])
  }

  /**
   * insert_op_between_var_and_op: `up -> down` becomes `up -> ins -> w -> down`, where `w`
   * is a new variable; only the first slot in which `down` reads `up` is rerouted.
   */
  function InsertBetween(s: GraphState, ins: OpId, up: VarId, down: OpId): (r: GraphState)
    requires ins < |s.ops| && down < |s.ops| && up < |s.vars| && ins != down
    ensures |r.ops| == |s.ops| && |r.vars| == |s.vars| + 1 && r.outputs == s.outputs
  {
    var w := |s.vars|;
    var s1 := NewVariable(s, false, NoValue, []);
    var vars := s1.vars[up := s1.vars[up].(consumers := ReplaceFirst<nat>(s1.vars[up].consumers, down, ins))]
                       [w := s1.vars[w].(producer := Some(ins), consumers := [down])];
    var ops1 := s1.ops[ins := s1.ops[ins].(inputs := s1.ops[ins].inputs + [up], outputs := s1.ops[ins].outputs + [w])];
    var ops2 := ops1[down := ops1[down].(inputs := ReplaceFirst<nat>(ops1[down].inputs, up, w))];
    GraphState(ops2, vars, s.outputs)
  }

  /**
   * insert_op_on_var: `v -> consumers` becomes `v -> ins -> w -> consumers`, where `w` is a
   * new variable that every former consumer reads in place of `v`; a graph output `v` is
   * handed over to `w`.
   */
  function InsertOnVar(s: GraphState, ins: OpId, v: VarId): (r: GraphState)
    requires ins < |s.ops| && v < |s.vars|
    ensures |r.ops| == |s.ops| && |r.vars| == |s.vars| + 1
  {
    var w := |s.vars|;
    var former := s.vars[v].consumers;
    var s1 := NewVariable(s, false, NoValue, []);
    var vars := s1.vars[w := s1.vars[w].(producer := Some(ins), consumers := former)]
                       [v := s1.vars[v].(consumers := [ins])];
    var ops := seq(|s.ops|, i requires 0 <= i < |s.ops| =>
      if i == ins then s.ops[i].(inputs := s.ops[i].inputs + [v], outputs := s.ops[i].outputs + [w])
      else s.ops[i].(inputs := ReplaceAll<nat>(s.ops[i].inputs, v, w)));
    var outputs := if v in s.outputs then s.outputs - {v} + {w} else s.outputs;
    GraphState(ops, vars, outputs)
  }

  /**
   * remove_operation(o) followed by create_link_with_var(a, b), where `a` is o's first input
   * and `b` its first output: o is detached and removed together with the parameters only
   * it reads (other than `a`), the readers of `b` read `a` instead, and `b` is removed
   * (and so leaves the graph outputs).
   */
  function RemoveAndRelink(s: GraphState, o: OpId): (r: GraphState)
    requires Relinkable(s, o)
    ensures |r.ops| == |s.ops| && |r.vars| == |s.vars|
  {
    var a := s.ops[o].inputs[0];
    var b := s.ops[o].outputs[0];
    var vars1 := seq(|s.vars|, i requires 0 <= i < |s.vars| =>
      if DroppedWith(s, o, i) then s.vars[i].(value := NoValue, consumers := [], alive := false)
      else s.vars[i].(consumers := RemoveAll<nat>(s.vars[i].consumers, o),
                      producer := if s.vars[i].producer == Some(o) then None else s.vars[i].producer));
    var ops1 := s.ops[o := s.ops[o].(inputs := [], outputs := [], alive := false)];
    var moved := vars1[b].consumers;
    var vars2 := vars1[a := vars1[a].(consumers := vars1[a].consumers + moved)]
                      [b := vars1[b].(consumers := [], alive := false)];
    var ops2 := seq(|ops1|, i requires 0 <= i < |ops1| => ops1[i].(inputs := ReplaceAll<nat>(ops1[i].inputs, b, a)));
    GraphState(ops2, vars2, s.outputs - {b})
  }

  /**
   * What remove-and-relink does: `o` and its first output `b` are gone, every other
   * operation reads its first input `a` where it read `b`, and `b` leaves the graph outputs.
   */
  lemma RemoveAndRelinkEffect(s: GraphState, o: OpId)
    requires Relinkable(s, o)
    ensures var r := RemoveAndRelink(s, o);
      var a, b := s.ops[o].inputs[0], s.ops[o].outputs[0];
      && !r.ops[o].alive && r.ops[o].inputs == [] && r.ops[o].outputs == []
      && !r.vars[b].alive && r.vars[a].alive == s.vars[a].alive
      && r.outputs == s.outputs - {b}
      && forall p :: 0 <= p < |s.ops| && p != o ==>
           && r.ops[p].inputs == ReplaceAll<nat>(s.ops[p].inputs, b, a)
           && r.ops[p].outputs == s.ops[p].outputs && r.ops[p].kind == s.ops[p].kind
           && r.ops[p].config == s.ops[p].config && r.ops[p].alive == s.ops[p].alive
  {
  }

  /** `o` can be removed and relinked: it has a first input and a first output, and they differ. */
  predicate Relinkable(s: GraphState, o: OpId) {
    && o < |s.ops|
    && |s.ops[o].inputs| > 0 && |s.ops[o].outputs| > 0
    && s.ops[o].inputs[0] < |s.vars| && s.ops[o].outputs[0] < |s.vars|
    && s.ops[o].inputs[0] != s.ops[o].outputs[0]
  }

  /** remove_operation deletes a parameter of `o`, other than its first input, that only `o` reads. */
  predicate DroppedWith(s: GraphState, o: OpId, i: VarId)
    requires o < |s.ops| && i < |s.vars| && |s.ops[o].inputs| > 0
  {
    && i != s.ops[o].inputs[0]
    && i in s.ops[o].inputs
    && s.vars[i].isParameter
    && s.vars[i].producer == None
    && forall c :: c in s.vars[i].consumers ==> c == o
  }

  /** `var.value = t`. */
  function WithValue(s: GraphState, v: VarId, t: Tensor): (r: GraphState)
    requires v < |s.vars|
    ensures |r.vars| == |s.vars| && r.ops == s.ops && r.outputs == s.outputs
  {
    s.(vars := s.vars[v := s.vars[v].(value := t)])
  }

  /** Replaces an operation's attributes, configuration and metadata; its links stay. */
  function WithDetails(s: GraphState, o: OpId, attrs: map<string, Attr>, config: Option<OpConfig>, meta: OpMeta): (r: GraphState)
    requires o < |s.ops|
    ensures |r.ops| == |s.ops| && r.vars == s.vars && r.outputs == s.outputs
  {
    s.(ops := s.ops[o := s.ops[o].(attrs := attrs, config := config, meta := meta)])
  }

  function WithOutputs(s: GraphState, outputs: set<VarId>): (r: GraphState)
  {
    s.(outputs := outputs)
  }

  // ---------------------------------------------------------------------------------
  // What the splicing primitives leave alone.

  /**
   * `r` only adds to `s` and rewires links: every existing variable keeps its value, kind
   * and liveness, every existing operation its type, attributes, configuration, metadata
   * and liveness.
   */
  ghost predicate Extends(s: GraphState, r: GraphState) {
    && |s.vars| <= |r.vars| && |s.ops| <= |r.ops|
    && (forall x :: 0 <= x < |s.vars| ==>
          r.vars[x].value == s.vars[x].value && r.vars[x].isParameter == s.vars[x].isParameter
          && r.vars[x].alive == s.vars[x].alive)
    && (forall p :: 0 <= p < |s.ops| ==>
          r.ops[p].kind == s.ops[p].kind && r.ops[p].config == s.ops[p].config
          && r.ops[p].attrs == s.ops[p].attrs && r.ops[p].meta == s.ops[p].meta && r.ops[p].alive == s.ops[p].alive)
  }

  lemma ExtendsTransitive(s: GraphState, s1: GraphState, r: GraphState)
    requires Extends(s, s1) && Extends(s1, r)
    ensures Extends(s, r)
  {
  }

  lemma NewVariableExtends(s: GraphState, isParameter: bool, value: Tensor, shape: seq<int>)
    ensures Extends(s, NewVariable(s, isParameter, value, shape))
  {
  }

  lemma NewOperationExtends(s: GraphState, kind: OpType, attrs: map<string, Attr>)
    ensures Extends(s, NewOperation(s, kind, attrs))
  {
  }

  lemma LinkInputExtends(s: GraphState, v: VarId, o: OpId)
    requires v < |s.vars| && o < |s.ops|
    ensures Extends(s, LinkInput(s, v, o))
  {
  }

  lemma InsertBetweenExtends(s: GraphState, ins: OpId, up: VarId, down: OpId)
    requires ins < |s.ops| && down < |s.ops| && up < |s.vars| && ins != down
    ensures var r := InsertBetween(s, ins, up, down);
      Extends(s, r) && r.vars[|s.vars|].alive && !r.vars[|s.vars|].isParameter
  {
  }

  lemma InsertOnVarExtends(s: GraphState, ins: OpId, v: VarId)
    requires ins < |s.ops| && v < |s.vars|
    ensures var r := InsertOnVar(s, ins, v);
      Extends(s, r) && r.vars[|s.vars|].alive && !r.vars[|s.vars|].isParameter
  {
  }

  /**
   * What insert-between does: `ins` reads `up` and writes the new variable, which only
   * `down` reads, in the first slot where it read `up`; `up` feeds `ins` in place of `down`.
   */
  lemma InsertBetweenEffect(s: GraphState, ins: OpId, up: VarId, down: OpId)
    requires ins < |s.ops| && down < |s.ops| && up < |s.vars| && ins != down
    ensures var r := InsertBetween(s, ins, up, down);
      var w := |s.vars|;
      && r.ops[ins] == s.ops[ins].(inputs := s.ops[ins].inputs + [up], outputs := s.ops[ins].outputs + [w])
      && r.ops[down] == s.ops[down].(inputs := ReplaceFirst<nat>(s.ops[down].inputs, up, w))
      && (forall p :: 0 <= p < |s.ops| && p != ins && p != down ==> r.ops[p] == s.ops[p])
      && r.vars[up] == s.vars[up].(consumers := ReplaceFirst<nat>(s.vars[up].consumers, down, ins))
      && r.vars[w] == Variable(VariableName(w), false, NoValue, [], Some(ins), [down], true)
      && (forall x :: 0 <= x < w && x != up ==> r.vars[x] == s.vars[x])
  {
  }

  // ---------------------------------------------------------------------------------
  // Every primitive keeps indices in range.

  lemma NewVariableClosed(s: GraphState, isParameter: bool, value: Tensor, shape: seq<int>)
    requires Closed(s)
    ensures Closed(NewVariable(s, isParameter, value, shape))
  {
  }

  lemma NewOperationClosed(s: GraphState, kind: OpType, attrs: map<string, Attr>)
    requires Closed(s)
    ensures Closed(NewOperation(s, kind, attrs))
  {
  }

  lemma LinkInputClosed(s: GraphState, v: VarId, o: OpId)
    requires Closed(s) && v < |s.vars| && o < |s.ops|
    ensures Closed(LinkInput(s, v, o))
  {
  }

  lemma InsertBetweenClosed(s: GraphState, ins: OpId, up: VarId, down: OpId)
    requires Closed(s) && ins < |s.ops| && down < |s.ops| && up < |s.vars| && ins != down
    ensures Closed(InsertBetween(s, ins, up, down))
  {
  }

  lemma InsertOnVarClosed(s: GraphState, ins: OpId, v: VarId)
    requires Closed(s) && ins < |s.ops| && v < |s.vars|
    ensures Closed(InsertOnVar(s, ins, v))
  {
  }

  lemma RemoveAndRelinkClosed(s: GraphState, o: OpId)
    requires Closed(s) && Relinkable(s, o)
    ensures Closed(RemoveAndRelink(s, o))
  {
  }

  lemma WithValueConsistent(s: GraphState, v: VarId, t: Tensor)
    requires v < |s.vars|
    ensures Closed(s) ==> Closed(WithValue(s, v, t))
    ensures Consistent(s) ==> Consistent(WithValue(s, v, t))
  {
    var r := WithValue(s, v, t);
    if Closed(s) {
      forall x, o | 0 <= x < |r.vars| && 0 <= o < |r.ops|
        ensures Count<nat>(r.vars[x].consumers, o) == Count<nat>(s.vars[x].consumers, o)
      {
      }
    }
  }

  lemma WithDetailsConsistent(s: GraphState, o: OpId, attrs: map<string, Attr>, config: Option<OpConfig>, meta: OpMeta)
    requires o < |s.ops|
    ensures Closed(s) ==> Closed(WithDetails(s, o, attrs, config, meta))
    ensures Consistent(s) ==> Consistent(WithDetails(s, o, attrs, config, meta))
  {
    var r := WithDetails(s, o, attrs, config, meta);
    if Closed(s) {
      forall x, p | 0 <= x < |r.vars| && 0 <= p < |r.ops|
        ensures Count<nat>(r.ops[p].inputs, x) == Count<nat>(s.ops[p].inputs, x)
      {
      }
    }
  }

  lemma WithOutputsConsistent(s: GraphState, outputs: set<VarId>)
    ensures Closed(s) ==> Closed(WithOutputs(s, outputs))
    ensures Consistent(s) ==> Consistent(WithOutputs(s, outputs))
  {
  }

  /** In a consistent graph every variable an operation reads or writes is live. */
  lemma LinkedVariablesAlive(s: GraphState, o: OpId, x: VarId)
    requires Consistent(s) && o < |s.ops|
    requires x in s.ops[o].inputs || x in s.ops[o].outputs
    ensures x < |s.vars| && s.vars[x].alive
  {
    if x in s.ops[o].inputs {
      assert Count<nat>(s.ops[o].inputs, x) > 0;
      assert Count<nat>(s.vars[x].consumers, o) > 0;
    } else {
      assert s.vars[x].producer == Some(o);
    }
  }

  // ---------------------------------------------------------------------------------
  // Every primitive keeps the graph consistent.

  lemma NewVariableConsistent(s: GraphState, isParameter: bool, value: Tensor, shape: seq<int>)
    requires Consistent(s)
    ensures Consistent(NewVariable(s, isParameter, value, shape))
  {
    NewVariableClosed(s, isParameter, value, shape);
    var r := NewVariable(s, isParameter, value, shape);
    var w := |s.vars|;
    forall v, o | 0 <= v < |r.vars| && 0 <= o < |r.ops|
      ensures Count<nat>(r.vars[v].consumers, o) == Count<nat>(r.ops[o].inputs, v)
    {
      if v == w {
        assert w !in s.ops[o].inputs;
      }
    }
  }

  lemma NewOperationConsistent(s: GraphState, kind: OpType, attrs: map<string, Attr>)
    requires Consistent(s)
    ensures Consistent(NewOperation(s, kind, attrs))
    ensures Detached(NewOperation(s, kind, attrs), |s.ops|)
  {
    NewOperationClosed(s, kind, attrs);
    var r := NewOperation(s, kind, attrs);
    var n := |s.ops|;
    forall v, o | 0 <= v < |r.vars| && 0 <= o < |r.ops|
      ensures Count<nat>(r.vars[v].consumers, o) == Count<nat>(r.ops[o].inputs, v)
    {
      if o == n {
        assert n !in s.vars[v].consumers;
      }
    }
  }

  lemma LinkInputConsistent(s: GraphState, v: VarId, o: OpId)
    requires Consistent(s) && v < |s.vars| && o < |s.ops|
    requires s.vars[v].alive && s.ops[o].alive
    ensures Consistent(LinkInput(s, v, o))
  {
    LinkInputClosed(s, v, o);
    var r := LinkInput(s, v, o);
    forall x, p | 0 <= x < |r.vars| && 0 <= p < |r.ops|
      ensures Count<nat>(r.vars[x].consumers, p) == Count<nat>(r.ops[p].inputs, x)
    {
      if x == v {
        CountConcat<nat>(s.vars[v].consumers, [o], p);
      }
      if p == o {
        CountConcat<nat>(s.ops[o].inputs, [v], x);
      }
    }
  }

  lemma InsertBetweenConsistent(s: GraphState, ins: OpId, up: VarId, down: OpId)
    requires Consistent(s)
    requires Detached(s, ins) && down < |s.ops| && up < |s.vars| && ins != down
    requires up in s.ops[down].inputs
    ensures Consistent(InsertBetween(s, ins, up, down))
  {
    InsertBetweenLinked(s, ins, up, down);
    InsertBetweenTombstones(s, ins, up, down);
    InsertBetweenProduced(s, ins, up, down);
  }

  lemma InsertBetweenTombstones(s: GraphState, ins: OpId, up: VarId, down: OpId)
    requires Consistent(s)
    requires Detached(s, ins) && down < |s.ops| && up < |s.vars| && ins != down
    requires up in s.ops[down].inputs
    ensures Tombstones(InsertBetween(s, ins, up, down))
  {
    assert Count<nat>(s.vars[up].consumers, down) > 0;
    assert s.vars[up].alive && s.ops[down].alive;
  }

  lemma InsertBetweenProduced(s: GraphState, ins: OpId, up: VarId, down: OpId)
    requires Consistent(s)
    requires Detached(s, ins) && down < |s.ops| && up < |s.vars| && ins != down
    requires up in s.ops[down].inputs
    ensures Closed(InsertBetween(s, ins, up, down)) && Produced(InsertBetween(s, ins, up, down))
  {
    InsertBetweenClosed(s, ins, up, down);
  }

  lemma InsertBetweenLinked(s: GraphState, ins: OpId, up: VarId, down: OpId)
    requires Consistent(s)
    requires Detached(s, ins) && down < |s.ops| && up < |s.vars| && ins != down
    requires up in s.ops[down].inputs
    ensures Closed(InsertBetween(s, ins, up, down))
    ensures Linked(InsertBetween(s, ins, up, down))
  {
    InsertBetweenClosed(s, ins, up, down);
    var r := InsertBetween(s, ins, up, down);
    var w := |s.vars|;
    forall v, o | 0 <= v < |r.vars| && 0 <= o < |r.ops|
      ensures Count<nat>(r.vars[v].consumers, o) == Count<nat>(r.ops[o].inputs, v)
    {
      if v == w {
        assert r.vars[v].consumers == [down];
        if o == down {
          CountReplaceFirst<nat>(s.ops[down].inputs, up, w, w);
          assert w !in s.ops[down].inputs;
        } else if o == ins {
          assert r.ops[o].inputs == [up];
        } else {
          assert w !in s.ops[o].inputs;
          assert r.ops[o] == s.ops[o];
        }
      } else if o == down {
        CountReplaceFirst<nat>(s.ops[down].inputs, up, w, v);
        if v == up {
          CountReplaceFirst<nat>(s.vars[up].consumers, down, ins, o);
        }
      } else if o == ins {
        assert r.ops[o].inputs == [up];
        assert Count<nat>(s.vars[v].consumers, ins) == Count<nat>(s.ops[ins].inputs, v);
        if v == up {
          CountReplaceFirst<nat>(s.vars[up].consumers, down, ins, o);
        }
      } else {
        assert r.ops[o] == s.ops[o];
        if v == up {
          CountReplaceFirst<nat>(s.vars[up].consumers, down, ins, o);
        }
      }
    }
  }

  lemma InsertOnVarConsistent(s: GraphState, ins: OpId, v: VarId)
    requires Consistent(s)
    requires Detached(s, ins) && v < |s.vars| && s.vars[v].alive
    ensures Consistent(InsertOnVar(s, ins, v))
  {
    InsertOnVarLinked(s, ins, v);
    InsertOnVarTombstones(s, ins, v);
    InsertOnVarProduced(s, ins, v);
  }

  lemma InsertOnVarTombstones(s: GraphState, ins: OpId, v: VarId)
    requires Consistent(s)
    requires Detached(s, ins) && v < |s.vars| && s.vars[v].alive
    ensures Tombstones(InsertOnVar(s, ins, v))
  {
    var r := InsertOnVar(s, ins, v);
    forall o | 0 <= o < |r.ops| && !r.ops[o].alive
      ensures r.ops[o].inputs == [] && r.ops[o].outputs == []
    {
      assert o != ins && r.ops[o].inputs == ReplaceAll<nat>(s.ops[o].inputs, v, |s.vars|);
    }
  }

  lemma InsertOnVarProduced(s: GraphState, ins: OpId, v: VarId)
    requires Consistent(s)
    requires Detached(s, ins) && v < |s.vars| && s.vars[v].alive
    ensures Closed(InsertOnVar(s, ins, v)) && Produced(InsertOnVar(s, ins, v))
  {
    InsertOnVarClosed(s, ins, v);
    var r := InsertOnVar(s, ins, v);
    var w := |s.vars|;
    forall x | 0 <= x < |r.vars| && r.vars[x].producer.Some?
      ensures x in r.ops[r.vars[x].producer.value].outputs
    {
      if x != w {
        var p := s.vars[x].producer.value;
        assert x in s.ops[p].outputs;
        assert p != ins;
      }
    }
    forall p, y | 0 <= p < |r.ops| && y in r.ops[p].outputs
      ensures r.vars[y].producer == Some(p)
    {
      if p != ins {
        assert y in s.ops[p].outputs;
      }
    }
  }

  lemma InsertOnVarLinked(s: GraphState, ins: OpId, v: VarId)
    requires Consistent(s)
    requires Detached(s, ins) && v < |s.vars| && s.vars[v].alive
    ensures Closed(InsertOnVar(s, ins, v)) && Linked(InsertOnVar(s, ins, v))
  {
    InsertOnVarClosed(s, ins, v);
    var r := InsertOnVar(s, ins, v);
    var w := |s.vars|;
    assert Count<nat>(s.vars[v].consumers, ins) == 0 by {
      assert Count<nat>(s.vars[v].consumers, ins) == Count<nat>(s.ops[ins].inputs, v);
    }
    forall x, o | 0 <= x < |r.vars| && 0 <= o < |r.ops|
      ensures Count<nat>(r.vars[x].consumers, o) == Count<nat>(r.ops[o].inputs, x)
    {
      if o == ins {
        assert r.ops[o].inputs == [v];
        CountSingleton<nat>(v, x);
        if x == v {
          CountSingleton<nat>(ins, o);
        } else if x < w {
          assert Count<nat>(s.vars[x].consumers, ins) == Count<nat>(s.ops[ins].inputs, x);
        }
      } else {
        CountReplaceAll<nat>(s.ops[o].inputs, v, w, x);
        assert r.ops[o].inputs == ReplaceAll<nat>(s.ops[o].inputs, v, w);
        if x == w {
          assert w !in s.ops[o].inputs;
          assert r.vars[x].consumers == s.vars[v].consumers;
          assert Count<nat>(s.vars[v].consumers, o) == Count<nat>(s.ops[o].inputs, v);
        } else if x == v {
          CountSingleton<nat>(ins, o);
        } else {
          assert r.vars[x] == s.vars[x];
          assert Count<nat>(s.vars[x].consumers, o) == Count<nat>(s.ops[o].inputs, x);
        }
      }
    }
  }

  lemma RemoveAndRelinkConsistent(s: GraphState, o: OpId)
    requires Consistent(s) && Relinkable(s, o)
    ensures Consistent(RemoveAndRelink(s, o))
  {
    RemoveAndRelinkClosed(s, o);
    var a := s.ops[o].inputs[0];
    var b := s.ops[o].outputs[0];
    assert a in s.ops[o].inputs && b in s.ops[o].outputs;
    RemoveAndRelinkLinked(s, o);
    RemoveAndRelinkTombstones(s, o);
    RemoveAndRelinkProduced(s, o);
  }

  lemma RemoveAndRelinkTombstones(s: GraphState, o: OpId)
    requires Consistent(s) && Relinkable(s, o)
    ensures Tombstones(RemoveAndRelink(s, o))
  {
    RemoveAndRelinkClosed(s, o);
    var r := RemoveAndRelink(s, o);
    var a := s.ops[o].inputs[0];
    var b := s.ops[o].outputs[0];
    assert a in s.ops[o].inputs && b in s.ops[o].outputs;
    assert Count<nat>(s.vars[a].consumers, o) > 0;
    assert s.vars[b].producer == Some(o);
    forall x | 0 <= x < |r.vars| && !r.vars[x].alive
      ensures r.vars[x].consumers == [] && r.vars[x].producer == None
    {
      if x != b && !DroppedWith(s, o, x) {
        assert !s.vars[x].alive;
      }
    }
  }

  lemma RemoveAndRelinkProduced(s: GraphState, o: OpId)
    requires Consistent(s) && Relinkable(s, o)
    ensures Closed(RemoveAndRelink(s, o)) && Produced(RemoveAndRelink(s, o))
  {
    RemoveAndRelinkClosed(s, o);
    RelinkKeepsProducers(s, o);
    RelinkKeepsOutputs(s, o);
  }

  lemma RelinkKeepsProducers(s: GraphState, o: OpId)
    requires Closed(s) && Produced(s) && Relinkable(s, o)
    ensures var r := RemoveAndRelink(s, o);
      forall x :: 0 <= x < |r.vars| && r.vars[x].producer.Some? ==>
        r.vars[x].producer.value < |r.ops| && x in r.ops[r.vars[x].producer.value].outputs
  {
    var r := RemoveAndRelink(s, o);
    var b := s.ops[o].outputs[0];
    assert b in s.ops[o].outputs;
    assert s.vars[b].producer == Some(o);
    forall x | 0 <= x < |r.vars| && r.vars[x].producer.Some?
      ensures r.vars[x].producer.value < |r.ops| && x in r.ops[r.vars[x].producer.value].outputs
    {
      assert x != b && r.vars[x].producer == s.vars[x].producer;
    }
  }

  lemma RelinkKeepsOutputs(s: GraphState, o: OpId)
    requires Closed(s) && Produced(s) && Relinkable(s, o)
    ensures var r := RemoveAndRelink(s, o);
      forall p, y :: 0 <= p < |r.ops| && y in r.ops[p].outputs ==> y < |r.vars| && r.vars[y].producer == Some(p)
  {
    var r := RemoveAndRelink(s, o);
    var b := s.ops[o].outputs[0];
    assert b in s.ops[o].outputs;
    forall p, y | 0 <= p < |r.ops| && y in r.ops[p].outputs
      ensures y < |r.vars| && r.vars[y].producer == Some(p)
    {
      assert p != o && y in s.ops[p].outputs;
      assert y != b;
    }
  }

  lemma RemoveAndRelinkLinked(s: GraphState, o: OpId)
    requires Consistent(s) && Relinkable(s, o)
    ensures Closed(RemoveAndRelink(s, o)) && Linked(RemoveAndRelink(s, o))
  {
    RemoveAndRelinkClosed(s, o);
    var r := RemoveAndRelink(s, o);
    var a := s.ops[o].inputs[0];
    var b := s.ops[o].outputs[0];
    assert a in s.ops[o].inputs && b in s.ops[o].outputs;
    forall x, p | 0 <= x < |r.vars| && 0 <= p < |r.ops|
      ensures Count<nat>(r.vars[x].consumers, p) == Count<nat>(r.ops[p].inputs, x)
    {
      RemoveAndRelinkLinkedAt(s, o, x, p);
    }
  }

  lemma RemoveAndRelinkLinkedAt(s: GraphState, o: OpId, x: VarId, p: OpId)
    requires Consistent(s) && Relinkable(s, o) && x < |s.vars| && p < |s.ops|
    ensures var r := RemoveAndRelink(s, o);
      Count<nat>(r.vars[x].consumers, p) == Count<nat>(r.ops[p].inputs, x)
  {
    var r := RemoveAndRelink(s, o);
    var a := s.ops[o].inputs[0];
    var b := s.ops[o].outputs[0];
    var before := if p == o then [] else s.ops[p].inputs;
    assert r.ops[p].inputs == ReplaceAll<nat>(before, b, a);
    if p != o {
      assert Count<nat>(s.vars[x].consumers, p) == Count<nat>(s.ops[p].inputs, x);
      assert Count<nat>(s.vars[b].consumers, p) == Count<nat>(s.ops[p].inputs, b);
    }
    if x == a {
      assert r.vars[x].consumers == RemoveAll<nat>(s.vars[a].consumers, o) + RemoveAll<nat>(s.vars[b].consumers, o);
      RelinkCountFirst(s.vars[a].consumers, s.vars[b].consumers, before, a, b, o, p);
    } else if x == b {
      assert r.vars[x].consumers == [];
      CountReplaceAll<nat>(before, b, a, x);
    } else if DroppedWith(s, o, x) {
      assert r.vars[x].consumers == [];
      assert p !in s.vars[x].consumers || p == o;
      RelinkCountOther(s.vars[x].consumers, before, a, b, x, o, p);
    } else {
      assert r.vars[x].consumers == RemoveAll<nat>(s.vars[x].consumers, o);
      RelinkCountOther(s.vars[x].consumers, before, a, b, x, o, p);
      CountRemoveAll<nat>(s.vars[x].consumers, o, p);
    }
  }

  /** The first input `a` of a relinked operation `o` gains the readers of its output `b`. */
  lemma RelinkCountFirst(consA: seq<nat>, consB: seq<nat>, before: seq<nat>, a: VarId, b: VarId, o: OpId, p: OpId)
    requires a != b
    requires p == o ==> before == []
    requires p != o ==> Count<nat>(consA, p) == Count<nat>(before, a) && Count<nat>(consB, p) == Count<nat>(before, b)
    ensures Count<nat>(RemoveAll<nat>(consA, o) + RemoveAll<nat>(consB, o), p) == Count<nat>(ReplaceAll<nat>(before, b, a), a)
  {
    CountReplaceAll<nat>(before, b, a, a);
    CountConcat<nat>(RemoveAll<nat>(consA, o), RemoveAll<nat>(consB, o), p);
    CountRemoveAll<nat>(consA, o, p);
    CountRemoveAll<nat>(consB, o, p);
  }

  /** Any other variable is read by `p` after the relink as often as before. */
  lemma RelinkCountOther(consX: seq<nat>, before: seq<nat>, a: VarId, b: VarId, x: VarId, o: OpId, p: OpId)
    requires x != a && x != b
    requires p == o ==> before == []
    requires p != o ==> Count<nat>(consX, p) == Count<nat>(before, x)
    ensures Count<nat>(ReplaceAll<nat>(before, b, a), x) == if p == o then 0 else Count<nat>(consX, p)
  {
    CountReplaceAll<nat>(before, b, a, x);
  }

  // ---------------------------------------------------------------------------------
  // The graph object.

  class Graph {
    var ops: seq<Operation>
    var vars: seq<Variable>
    var outputs: set<VarId>

    function State(): GraphState
      reads this
    {
      GraphState(ops, vars, outputs)
    }

    constructor (s: GraphState)
      ensures State() == s
    {
      ops, vars, outputs := s.ops, s.vars, s.outputs;
    }

    method CreateVariable(isParameter: bool, value: Tensor, shape: seq<int>) returns (v: VarId)
      modifies this
      ensures v == |old(vars)|
      ensures State() == NewVariable(old(State()), isParameter, value, shape)
    {
      v := |vars|;
      vars := vars + [Variable(VariableName(v), isParameter, value, shape, None, [], true)];
    }

    method CreateOperation(kind: OpType, attrs: map<string, Attr>) returns (o: OpId)
      modifies this
      ensures o == |old(ops)|
      ensures State() == NewOperation(old(State()), kind, attrs)
    {
      o := |ops|;
      ops := ops + [Operation(OperationName(o), kind, attrs, [], [], None, OpMeta([], []), true)];
    }

    method CreateLinkWithOp(v: VarId, down: OpId)
      requires v < |vars| && down < |ops|
      modifies this
      ensures State() == LinkInput(old(State()), v, down)
    {
      vars := vars[v := vars[v].(consumers := vars[v].consumers + [down])];
      ops := ops[down := ops[down].(inputs := ops[down].inputs + [v])];
    }

    method InsertOpBetweenVarAndOp(inserting: OpId, up: VarId, down: OpId)
      requires inserting < |ops| && down < |ops| && up < |vars| && inserting != down
      modifies this
      ensures State() == InsertBetween(old(State()), inserting, up, down)
    {
      var created := CreateVariable(false, NoValue, []);
      vars := vars[up := vars[up].(consumers := ReplaceFirst<nat>(vars[up].consumers, down, inserting))];
      ops := ops[inserting := ops[inserting].(inputs := ops[inserting].inputs + [up],
                                              outputs := ops[inserting].outputs + [created])];
      vars := vars[created := vars[created].(producer := Some(inserting), consumers := [down])];
      ops := ops[down := ops[down].(inputs := ReplaceFirst<nat>(ops[down].inputs, up, created))];
    }

    method InsertOpOnVar(inserting: OpId, v: VarId)
      requires inserting < |ops| && v < |vars|
      modifies this
      ensures State() == InsertOnVar(old(State()), inserting, v)
    {
      var former := vars[v].consumers;
      var link := CreateVariable(false, NoValue, []);
      vars := vars[link := vars[link].(producer := Some(inserting), consumers := former)];
      vars := vars[v := vars[v].(consumers := [inserting])];
      var before := ops;
      ops := seq(|before|, i requires 0 <= i < |before| =>
        if i == inserting then before[i].(inputs := before[i].inputs + [v], outputs := before[i].outputs + [link])
        else before[i].(inputs := ReplaceAll<nat>(before[i].inputs, v, link)));
      if v in outputs {
        outputs := outputs - {v} + {link};
      }
    }

    method RemoveOperationAndRelink(o: OpId)
      requires Relinkable(State(), o)
      modifies this
      ensures State() == RemoveAndRelink(old(State()), o)
    {
      var a, b := ops[o].inputs[0], ops[o].outputs[0];
      // remove_operation: o leaves every consumer list and producer slot; its own parameters go
      var s := State();
      vars := seq(|s.vars|, i requires 0 <= i < |s.vars| =>
        if DroppedWith(s, o, i) then s.vars[i].(value := NoValue, consumers := [], alive := false)
        else s.vars[i].(consumers := RemoveAll<nat>(s.vars[i].consumers, o),
                        producer := if s.vars[i].producer == Some(o) then None else s.vars[i].producer));
      ops := ops[o := ops[o].(inputs := [], outputs := [], alive := false)];
      // create_link_with_var(a, b): b's readers move to a, and b is removed
      var moved := vars[b].consumers;
      vars := vars[a := vars[a].(consumers := vars[a].consumers + moved)];
      vars := vars[b := vars[b].(consumers := [], alive := false)];
      var readers := ops;
      ops := seq(|readers|, i requires 0 <= i < |readers| => readers[i].(inputs := ReplaceAll<nat>(readers[i].inputs, b, a)));
      outputs := outputs - {b};
    }

    method SetValue(v: VarId, t: Tensor)
      requires v < |vars|
      modifies this
      ensures State() == WithValue(old(State()), v, t)
    {
      vars := vars[v := vars[v].(value := t)];
    }

    method SetDetails(o: OpId, attrs: map<string, Attr>, config: Option<OpConfig>, meta: OpMeta)
      requires o < |ops|
      modifies this
      ensures State() == WithDetails(old(State()), o, attrs, config, meta)
    {
      ops := ops[o := ops[o].(attrs := attrs, config := config, meta := meta)];
    }

    method SetOutputs(outs: set<VarId>)
      modifies this
      ensures State() == WithOutputs(old(State()), outs)
    {
      outputs := outs;
    }
  }
}
