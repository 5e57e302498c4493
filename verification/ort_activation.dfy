/**
 * remove_activation_ops of the ONNX Runtime exporter: under asymmetric quantization a
 * Relu or Clip whose output range already lies where the activation would clamp it is
 * redundant, so it is removed and its input is wrapped in a dequantize node and a
 * quantize node that carry the activation's output configuration.
 */
module OrtActivation {
  import opened Failures
  import opened Seqs
  import opened Quant
  import opened Graphs
  import opened OrtInsert

  /**
   * The number of channels scale * (q - offset) has: the two lists broadcast, a one-entry
   * list stretching to the other's length.
   */
  function Width(c: QuantConfig): Result<nat> {
    Broadcast(|c.scale|, |c.offset|)
  }

  /** The real value integer `q` stands for in broadcast channel `k`: scale * (q - offset). */
  function Dequant(c: QuantConfig, k: nat, q: int): real
    requires Width(c).Ok? && k < Width(c).value
  {
    c.scale[Pick(|c.scale|, k)] * (q - c.offset[Pick(|c.offset|, k)]) as real
  }

  datatype Range = Range(lo: real, hi: real)

  /**
   * range_min and range_max: the least value quant_min stands for and the greatest value
   * quant_max stands for, over the broadcast channels. Lists that do not broadcast make
   * the tensor arithmetic fail, and so does `.min()` of an empty result.
   */
  function OutputRange(c: QuantConfig): (r: Result<Range>)
    ensures r.Fail? <==> Width(c).Fail? || Width(c).value == 0
    ensures r.Fail? ==> r.error == RuntimeError
    ensures r.Ok? ==> r.value.lo in Lows(c) && r.value.hi in Highs(c)
    ensures r.Ok? ==> forall k :: 0 <= k < Width(c).value ==>
      r.value.lo <= Dequant(c, k, c.quantMin) && Dequant(c, k, c.quantMax) <= r.value.hi
  {
    var w :- Width(c);
    if w == 0 then Fail(RuntimeError)
    else
      assert forall k :: 0 <= k < w ==> Lows(c)[k] in Lows(c) && Highs(c)[k] in Highs(c);
      Ok(Range(Least(Lows(c)), Greatest(Highs(c))))
  }

  /** The value quant_min stands for, channel by channel. */
  function Lows(c: QuantConfig): (r: seq<real>)
    requires Width(c).Ok?
    ensures |r| == Width(c).value && forall k :: 0 <= k < |r| ==> r[k] == Dequant(c, k, c.quantMin)
  {
    seq(Width(c).value, k requires 0 <= k < Width(c).value => Dequant(c, k, c.quantMin))
  }

  /** The value quant_max stands for, channel by channel. */
  function Highs(c: QuantConfig): (r: seq<real>)
    requires Width(c).Ok?
    ensures |r| == Width(c).value && forall k :: 0 <= k < |r| ==> r[k] == Dequant(c, k, c.quantMax)
  {
    seq(Width(c).value, k requires 0 <= k < Width(c).value => Dequant(c, k, c.quantMax))
  }

  /**
   * One scale against two offsets: the scale stretches over both channels, so quant_min 0
   * stands for 0.5 * (0 - 0) and 0.5 * (0 - 10), and range_min is -5.
   */
  lemma OutputRangeBroadcasts(c: QuantConfig)
    requires c.scale == [0.5] && c.offset == [0, 10] && c.quantMin == 0
    ensures OutputRange(c).Ok? && OutputRange(c).value.lo == -5.0
  {
    assert Lows(c)[0] == 0.0 && Lows(c)[1] == -5.0;
  }

  /**
   * A Clip bound read from its input's value: no value is no bound (minus or plus
   * infinity), a one-element tensor is that number, and `.item()` fails on anything else.
   */
  function Bound(t: Tensor): (r: Result<Option<real>>)
    ensures r.Ok? && r.value.Some? <==> (t.Reals? && |t.reals| == 1) || (t.Ints? && |t.ints| == 1)
    ensures r.Ok? && r.value.Some? && t.Reals? ==> r.value.value == t.reals[0]
    ensures r.Ok? && r.value.Some? && t.Ints? ==> r.value.value == t.ints[0] as real
    ensures r.Ok? && r.value.None? <==> t.NoValue?
  {
    match t
    case NoValue => Ok(None)
    case Reals(xs) => if |xs| == 1 then Ok(Some(xs[0])) else Fail(RuntimeError)
    case Ints(xs, _) => if |xs| == 1 then Ok(Some(xs[0] as real)) else Fail(RuntimeError)
    // Not reached in prepare_graph: a quantized Clip bound is read through the output of
    // its dequantize node, which holds no value, not through the rewritten weight.
    case IntFormOf(_, _) => Fail(RuntimeError)
  }

  /** `x >= bound`, where no bound is minus infinity. */
  predicate AtLeast(x: real, bound: Option<real>) { bound.None? || x >= bound.value }

  /** `x <= bound`, where no bound is plus infinity. */
  predicate AtMost(x: real, bound: Option<real>) { bound.None? || x <= bound.value }

  /**
   * The first loop: whether operation `o` is a removal candidate. A registered quantable
   * Relu or Clip whose output configuration is not SYMMETRICAL qualifies, a Relu when its
   * range starts at zero or above, a Clip with three inputs when its range lies within
   * the clip bounds.
   */
  function Candidate(s: GraphState, o: OpId): (r: Result<bool>)
    requires Closed(s) && o < |s.ops|
  {
    var op := s.ops[o];
    if !op.alive || !op.Quantable() || (op.kind != Relu && op.kind != Clip) then Ok(false)
    else if |op.config.value.outputConfigs| == 0 then Fail(IndexError)
    else
      var c := op.config.value.outputConfigs[0];
      if c.Has(Symmetrical) then Ok(false)
      else
        var range :- OutputRange(c);
        if op.kind == Relu then Ok(range.lo >= 0.0)
        else if |op.inputs| != 3 then Ok(false)
        else
          assert op.inputs[1] in op.inputs && op.inputs[2] in op.inputs;
          var lo :- Bound(s.vars[op.inputs[1]].value);
          var hi :- Bound(s.vars[op.inputs[2]].value);
          Ok(AtLeast(range.lo, lo) && AtMost(range.hi, hi))
  }

  /** The first loop's verdict on every operation, in registry order. */
  function Verdicts(s: GraphState): (r: seq<Result<bool>>)
    requires Closed(s)
    ensures |r| == |s.ops| && forall o :: 0 <= o < |s.ops| ==> r[o] == Candidate(s, o)
  {
    seq(|s.ops|, o requires 0 <= o < |s.ops| => Candidate(s, o))
  }

  /**
   * The first loop from operation `i` on, given the verdicts: it stops at the first
   * operation that cannot be judged, and appends each candidate to `found`.
   */
  function CandidatesFrom(verdicts: seq<Result<bool>>, i: nat, found: seq<OpId>): (r: Result<seq<OpId>>)
    ensures r.Ok? ==> forall o :: o in r.value ==> o in found || o < |verdicts|
    decreases |verdicts| - i
  {
    if i >= |verdicts| then Ok(found)
    else
      var keep :- verdicts[i];
      CandidatesFrom(verdicts, i + 1, if keep then found + [i] else found)
  }

  /** removed_activations, in registry order. */
  function Candidates(s: GraphState): (r: Result<seq<OpId>>)
    requires Closed(s)
    ensures r.Ok? ==> forall o :: o in r.value ==> o < |s.ops|
  {
    CandidatesFrom(Verdicts(s), 0, [])
  }

  method FindCandidates(g: Graph) returns (res: Result<seq<OpId>>)
    requires Closed(g.State())
    ensures res == Candidates(g.State())
  {
    var removed: seq<OpId> := [];
    var i := 0;
    while i < |g.ops|
      invariant i <= |g.ops|
      invariant Candidates(g.State()) == CandidatesFrom(Verdicts(g.State()), i, removed)
    {
      var keep := Candidate(g.State(), i);
      if keep.Fail? {
        return Fail(keep.error);
      }
      if keep.value {
        removed := removed + [i];
      }
      i := i + 1;
    }
    res := Ok(removed);
  }

  /** What the second loop removes: o's input `a` and output `b`, o's output configuration, and the upstream operation. */
  datatype Removal = Removal(a: VarId, b: VarId, config: QuantConfig, up: OpId)

  /**
   * The checks of the second loop for candidate `o`: nothing to do (None) when it is not
   * quantable, has no upstream operation, the first upstream operation is not quantable
   * or feeds anything else, or o's input configuration is not ASYMMETRICAL; a missing
   * configuration or output fails, and so does an operation whose output is its input.
   */
  function Plan(s: GraphState, o: OpId): (r: Result<Option<Removal>>)
    requires Closed(s) && o < |s.ops|
    ensures r.Ok? && r.value.Some? <==> Removable(s, o)
    ensures r.Ok? && r.value.Some? ==>
      var m := r.value.value;
      && Relinkable(s, o) && m.a == s.ops[o].inputs[0] && m.b == s.ops[o].outputs[0]
      && m.up < |s.ops| && m.up == Upstream(s, o)[0]
      && m.config == s.ops[o].config.value.outputConfigs[0]
    ensures r.Fail? ==> r.error in {IndexError, SelfLoop}
  {
    var op := s.ops[o];
    var ups := Upstream(s, o);
    if !op.Quantable() || |ups| == 0 then Ok(None)
    else if |op.config.value.outputConfigs| == 0 then Fail(IndexError)
    else
      assert ups[0] in ups;
      var up := ups[0];
      if !s.ops[up].Quantable() || |Downstream(s, up)| != 1 then Ok(None)
      else if |op.config.value.inputConfigs| == 0 then Fail(IndexError)
      else if !op.config.value.inputConfigs[0].Has(Asymmetrical) then Ok(None)
      else if |op.outputs| == 0 then Fail(IndexError)
      else
        assert |op.inputs| > 0;
        assert op.inputs[0] in op.inputs && op.outputs[0] in op.outputs;
        var a, b := op.inputs[0], op.outputs[0];
        if a == b then Fail(SelfLoop)
        else Ok(Some(Removal(a, b, op.config.value.outputConfigs[0], up)))
  }

  /**
   * Everything the second loop demands before it removes `o`: a quantable operation with
   * an upstream operation, the first of which is quantable and feeds only `o`, an
   * ASYMMETRICAL input configuration, an output configuration, and an output that differs
   * from the first input.
   */
  predicate Removable(s: GraphState, o: OpId)
    requires Closed(s) && o < |s.ops|
  {
    var op := s.ops[o];
    var ups := Upstream(s, o);
    && op.Quantable() && |ups| > 0
    && (assert ups[0] in ups; s.ops[ups[0]].Quantable() && |Downstream(s, ups[0])| == 1)
    && |op.config.value.outputConfigs| > 0 && |op.config.value.inputConfigs| > 0
    && op.config.value.inputConfigs[0].Has(Asymmetrical)
    && |op.inputs| > 0 && |op.outputs| > 0 && op.inputs[0] != op.outputs[0]
  }

  /** The graph outputs once a graph output `b` is handed to `a`. */
  function Rebound(outputs: set<VarId>, m: Removal): (r: set<VarId>)
    ensures m.a != m.b && m.b in outputs ==> m.b !in r && m.a in r
    ensures m.b !in outputs ==> r == outputs
    ensures m.a != m.b ==> r - {m.a} == outputs - {m.a, m.b}
  {
    if m.b in outputs then outputs - {m.b} + {m.a} else outputs
  }

  /**
   * The rewrite: a graph output `b` is handed to `a`; `o` is removed and its readers
   * relinked to `a`; then a dequantize node and a quantize node for o's output
   * configuration go onto `a`, towards the upstream operation.
   */
  function Apply(s: GraphState, o: OpId, m: Removal): (r: Result<GraphState>)
    requires Relinkable(s, o) && m.a == s.ops[o].inputs[0] && m.b == s.ops[o].outputs[0] && m.up < |s.ops|
    ensures r.Ok? ==> |r.value.ops| == |s.ops| + 2 && |r.value.vars| == |s.vars| + 6
  {
    var rebound := WithOutputs(s, Rebound(s.outputs, m));
    DequantThenQuant(RemoveAndRelink(rebound, o), m.a, m.config, m.up)
  }

  /** The second loop's body for one candidate. */
  function Elide(s: GraphState, o: OpId): (r: Result<GraphState>)
    requires Closed(s) && o < |s.ops|
    ensures r.Ok? ==> |r.value.ops| >= |s.ops| && |r.value.vars| >= |s.vars|
  {
    var plan :- Plan(s, o);
    match plan
    case None => Ok(s)
    case Some(m) => Apply(s, o, m)
  }

  /** A dequantize node onto `a`, then a quantize node onto `a`, both towards `up`. */
  function DequantThenQuant(s: GraphState, a: VarId, c: QuantConfig, up: OpId): (r: Result<GraphState>)
    requires a < |s.vars| && up < |s.ops|
    ensures r.Ok? ==> |r.value.ops| == |s.ops| + 2 && |r.value.vars| == |s.vars| + 6
  {
    var dequantized :- InsertQdq(s, a, c, up, false);
    Ok(InsertQdq(dequantized.graph, a, c, up, true).value.graph)
  }

  lemma ElideClosed(s: GraphState, o: OpId)
    requires Closed(s) && o < |s.ops|
    requires Elide(s, o).Ok?
    ensures Closed(Elide(s, o).value)
  {
    var plan := Plan(s, o).value;
    if plan.Some? {
      ApplyClosed(s, o, plan.value);
    }
  }

  lemma ApplyClosed(s: GraphState, o: OpId, m: Removal)
    requires Closed(s) && Relinkable(s, o) && m.a == s.ops[o].inputs[0] && m.b == s.ops[o].outputs[0] && m.up < |s.ops|
    requires Apply(s, o, m).Ok?
    ensures Closed(Apply(s, o, m).value)
  {
    var rebound := WithOutputs(s, Rebound(s.outputs, m));
    WithOutputsConsistent(s, Rebound(s.outputs, m));
    RemoveAndRelinkClosed(rebound, o);
    DequantThenQuantClosed(RemoveAndRelink(rebound, o), m.a, m.config, m.up);
  }

  lemma DequantThenQuantClosed(s: GraphState, a: VarId, c: QuantConfig, up: OpId)
    requires Closed(s) && a < |s.vars| && up < |s.ops|
    requires DequantThenQuant(s, a, c, up).Ok?
    ensures Closed(DequantThenQuant(s, a, c, up).value)
  {
    var s1 := InsertQdq(s, a, c, up, false).value.graph;
    InsertQdqClosed(s, a, c, up, false);
    InsertQdqClosed(s1, a, c, up, true);
  }

  /** The second loop over the candidates from the `i`-th on, in order; the first failure aborts. */
  function ElideFrom(s: GraphState, cs: seq<OpId>, i: nat): (r: Result<GraphState>)
    requires Closed(s) && forall k :: i <= k < |cs| ==> cs[k] < |s.ops|
    decreases |cs| - i
  {
    if i >= |cs| then Ok(s)
    else
      var s1 :- Elide(s, cs[i]);
      ElideClosed(s, cs[i]);
      ElideFrom(s1, cs, i + 1)
  }

  /** remove_activation_ops. */
  function RemoveActivations(s: GraphState): (r: Result<GraphState>)
    requires Closed(s)
  {
    var cs :- Candidates(s);
    assert forall k :: 0 <= k < |cs| ==> cs[k] in cs;
    ElideFrom(s, cs, 0)
  }

  // ---------------------------------------------------------------------------------
  // The methods.

  method ElideOn(g: Graph, o: OpId) returns (res: Outcome)
    requires Closed(g.State()) && o < |g.ops|
    modifies g
    ensures res == OutcomeOf(Elide(old(g.State()), o))
    ensures res.Pass? ==> g.State() == Elide(old(g.State()), o).value
  {
    var plan := Plan(g.State(), o);
    if plan.Fail? {
      return Raise(plan.error);
    }
    if plan.value.None? {
      return Pass;
    }
    var m := plan.value.value;
    if m.b in g.outputs {
      g.SetOutputs(g.outputs - {m.b} + {m.a});
    }
    g.RemoveOperationAndRelink(o);
    var dequantized := InsertOnVariable(g, m.a, m.config, m.up, false);
    if dequantized.Fail? {
      return Raise(dequantized.error);
    }
    var quantized := InsertOnVariable(g, m.a, m.config, m.up, true);
    res := Pass;
  }

  /** The second loop on the graph object. */
  method ElideAllOn(g: Graph, cs: seq<OpId>) returns (res: Outcome)
    requires Closed(g.State()) && forall k :: 0 <= k < |cs| ==> cs[k] < |g.ops|
    modifies g
    ensures res == OutcomeOf(ElideFrom(old(g.State()), cs, 0))
    ensures res.Pass? ==> g.State() == ElideFrom(old(g.State()), cs, 0).value
  {
    var i := 0;
    while i < |cs|
      invariant i <= |cs| && Closed(g.State())
      invariant forall k :: i <= k < |cs| ==> cs[k] < |g.ops|
      invariant ElideFrom(old(g.State()), cs, 0) == ElideFrom(g.State(), cs, i)
    {
      var before := g.State();
      res := ElideOn(g, cs[i]);
      if res.Raise? {
        return;
      }
      ElideClosed(before, cs[i]);
      i := i + 1;
    }
    res := Pass;
  }

  /** remove_activation_ops on the graph object. */
  method RemoveActivationsOn(g: Graph) returns (res: Outcome)
    requires Closed(g.State())
    modifies g
    ensures res == OutcomeOf(RemoveActivations(old(g.State())))
    ensures res.Pass? ==> g.State() == RemoveActivations(old(g.State())).value
  {
    var found := FindCandidates(g);
    if found.Fail? {
      return Raise(found.error);
    }
    assert forall k :: 0 <= k < |found.value| ==> found.value[k] in found.value;
    res := ElideAllOn(g, found.value);
  }

  // ---------------------------------------------------------------------------------
  // Which operations are candidates, and why removing them changes nothing.

  /**
   * The first loop from `i` on fails exactly when some operation from `i` on cannot be
   * judged, and otherwise collects exactly the operations judged to be candidates.
   */
  lemma CandidatesFromExactly(verdicts: seq<Result<bool>>, i: nat, found: seq<OpId>)
    ensures var r := CandidatesFrom(verdicts, i, found);
      && (r.Fail? <==> exists o :: i <= o < |verdicts| && verdicts[o].Fail?)
      && (r.Ok? ==> forall o :: o in r.value <==> o in found || (i <= o < |verdicts| && verdicts[o] == Ok(true)))
  {
    CandidatesFromFails(verdicts, i, found);
    CandidatesFromCollects(verdicts, i, found);
  }

  lemma {:induction false} CandidatesFromFails(verdicts: seq<Result<bool>>, i: nat, found: seq<OpId>)
    ensures CandidatesFrom(verdicts, i, found).Fail? <==> exists o :: i <= o < |verdicts| && verdicts[o].Fail?
    decreases |verdicts| - i
  {
    if i < |verdicts| && verdicts[i].Ok? {
      CandidatesFromFails(verdicts, i + 1, if verdicts[i].value then found + [i] else found);
    }
  }

  lemma {:induction false} CandidatesFromCollects(verdicts: seq<Result<bool>>, i: nat, found: seq<OpId>)
    ensures var r := CandidatesFrom(verdicts, i, found);
      r.Ok? ==> forall o :: o in r.value <==> o in found || (i <= o < |verdicts| && verdicts[o] == Ok(true))
    decreases |verdicts| - i
  {
    if i < |verdicts| && verdicts[i].Ok? {
      CandidatesFromCollects(verdicts, i + 1, if verdicts[i].value then found + [i] else found);
    }
  }

  /** removed_activations holds exactly the candidates, and the loop fails only on an operation it cannot judge. */
  lemma CandidatesExactly(s: GraphState)
    requires Closed(s)
    ensures Candidates(s).Fail? <==> exists o :: 0 <= o < |s.ops| && Candidate(s, o).Fail?
    ensures Candidates(s).Ok? ==> forall o: OpId :: o in Candidates(s).value <==> o < |s.ops| && Candidate(s, o) == Ok(true)
  {
    CandidatesFromExactly(Verdicts(s), 0, []);
  }

  /** With a non-negative scale, a larger integer stands for a larger value. */
  lemma DequantMonotone(c: QuantConfig, k: nat, q1: int, q2: int)
    requires Width(c).Ok? && k < Width(c).value && 0.0 <= c.scale[Pick(|c.scale|, k)] && q1 <= q2
    ensures Dequant(c, k, q1) <= Dequant(c, k, q2)
  {
    var d := (q2 - q1) as real;
    var sk := c.scale[Pick(|c.scale|, k)];
    assert Dequant(c, k, q2) - Dequant(c, k, q1) == sk * d;
    assert 0.0 <= sk * d;
  }

  /**
   * A Relu candidate is a no-op: with non-negative scales, every integer its output
   * configuration can hold (quant_min or above) stands for a value of zero or more,
   * which the Relu passes through unchanged.
   */
  lemma ReluCandidateIsIdentity(s: GraphState, o: OpId, k: nat, q: int)
    requires Closed(s) && o < |s.ops| && s.ops[o].kind == Relu && Candidate(s, o) == Ok(true)
    requires var c := s.ops[o].config.value.outputConfigs[0];
      Width(c).Ok? && k < Width(c).value && 0.0 <= c.scale[Pick(|c.scale|, k)] && c.quantMin <= q
    ensures var c := s.ops[o].config.value.outputConfigs[0];
      Dequant(c, k, q) >= 0.0
  {
    var c := s.ops[o].config.value.outputConfigs[0];
    DequantMonotone(c, k, c.quantMin, q);
  }

  /**
   * For a quantable asymmetric Relu, being a candidate is exactly every channel's
   * quant_min standing for zero or more.
   */
  lemma ReluCandidateExactly(s: GraphState, o: OpId)
    requires Closed(s) && o < |s.ops|
    requires var op := s.ops[o];
      op.alive && op.Quantable() && op.kind == Relu && |op.config.value.outputConfigs| > 0
      && !op.config.value.outputConfigs[0].Has(Symmetrical)
      && OutputRange(op.config.value.outputConfigs[0]).Ok?
    ensures var c := s.ops[o].config.value.outputConfigs[0];
      Candidate(s, o) == Ok(true) <==> forall k :: 0 <= k < Width(c).value ==> Dequant(c, k, c.quantMin) >= 0.0
  {
    var c := s.ops[o].config.value.outputConfigs[0];
    var lo := OutputRange(c).value.lo;
    if forall k :: 0 <= k < Width(c).value ==> Dequant(c, k, c.quantMin) >= 0.0 {
      var k :| 0 <= k < |Lows(c)| && Lows(c)[k] == lo;
    }
  }

  /**
   * A Clip candidate is a no-op: with non-negative scales, every integer its output
   * configuration can hold stands for a value inside the clip bounds.
   */
  lemma ClipCandidateIsIdentity(s: GraphState, o: OpId, k: nat, q: int)
    requires Closed(s) && o < |s.ops| && s.ops[o].kind == Clip && Candidate(s, o) == Ok(true)
    requires var c := s.ops[o].config.value.outputConfigs[0];
      Width(c).Ok? && k < Width(c).value && 0.0 <= c.scale[Pick(|c.scale|, k)] && c.quantMin <= q <= c.quantMax
    ensures var op := s.ops[o];
      var c := op.config.value.outputConfigs[0];
      && |op.inputs| == 3 && op.inputs[1] < |s.vars| && op.inputs[2] < |s.vars|
      && Bound(s.vars[op.inputs[1]].value).Ok? && Bound(s.vars[op.inputs[2]].value).Ok?
      && AtLeast(Dequant(c, k, q), Bound(s.vars[op.inputs[1]].value).value)
      && AtMost(Dequant(c, k, q), Bound(s.vars[op.inputs[2]].value).value)
  {
    var op := s.ops[o];
    var c := op.config.value.outputConfigs[0];
    assert op.inputs[1] in op.inputs && op.inputs[2] in op.inputs;
    DequantMonotone(c, k, c.quantMin, q);
    DequantMonotone(c, k, q, c.quantMax);
  }

  // ---------------------------------------------------------------------------------
  // What the rewrite does to the graph.

  /**
   * The two insertions onto `a`, when `up` does not read `a`: the dequantize node (id
   * |ops|) reads the quantize node's output and produces the variable every former reader
   * of `a` now reads; the quantize node (id |ops|+1) is `a`'s only reader.
   */
  lemma DequantThenQuantEffect(s: GraphState, a: VarId, c: QuantConfig, up: OpId)
    requires a < |s.vars| && up < |s.ops| && a !in s.ops[up].inputs
    requires DequantThenQuant(s, a, c, up).Ok?
    ensures var r := DequantThenQuant(s, a, c, up).value;
      var n, m := |s.vars|, |s.ops|;
      && Ok(r.ops[m].kind) == NodeKind(c, false) && r.ops[m].inputs == [n + 5, n, n + 1] && r.ops[m].outputs == [n + 2]
      && Ok(r.ops[m + 1].kind) == NodeKind(c, true) && r.ops[m + 1].inputs == [a, n + 3, n + 4] && r.ops[m + 1].outputs == [n + 5]
      && r.vars[a].consumers == [m + 1] && r.vars[n + 5].consumers == [m]
      && (forall p :: 0 <= p < m ==> r.ops[p].inputs == ReplaceAll<nat>(s.ops[p].inputs, a, n + 2) && r.ops[p].outputs == s.ops[p].outputs)
      && Extends(s, r)
      && r.outputs == if a in s.outputs then s.outputs - {a} + {n + 2} else s.outputs
  {
    var n, m := |s.vars|, |s.ops|;
    var s1 := InsertQdq(s, a, c, up, false).value.graph;
    InsertedNode(s, a, c, up, false);
    InsertedOnVariable(s, a, c, up, false);
    InsertQdqPreserves(s, a, c, up, false);
    QuantAfterDequant(s, a, c, up, s1);
  }

  /** The second insertion of the rewrite, on the first one's result taken as a plain state. */
  lemma QuantAfterDequant(s: GraphState, a: VarId, c: QuantConfig, up: OpId, s1: GraphState)
    requires a < |s.vars| && up < |s.ops| && |s1.ops| == |s.ops| + 1 && |s1.vars| == |s.vars| + 3
    requires Ok(s1.ops[|s.ops|].kind) == NodeKind(c, false)
    requires s1.ops[|s.ops|].inputs == [a, |s.vars|, |s.vars| + 1] && s1.ops[|s.ops|].outputs == [|s.vars| + 2]
    requires forall p :: 0 <= p < |s.ops| ==>
      s1.ops[p].inputs == ReplaceAll<nat>(s.ops[p].inputs, a, |s.vars| + 2) && s1.ops[p].outputs == s.ops[p].outputs
    requires Extends(s, s1)
    requires s1.outputs == if a in s.outputs then s.outputs - {a} + {|s.vars| + 2} else s.outputs
    requires s1.vars[a].consumers == [|s.ops|]
    requires InsertQdq(s1, a, c, up, true).Ok?
    ensures var r := InsertQdq(s1, a, c, up, true).value.graph;
      var n, m := |s.vars|, |s.ops|;
      && Ok(r.ops[m].kind) == NodeKind(c, false) && r.ops[m].inputs == [n + 5, n, n + 1] && r.ops[m].outputs == [n + 2]
      && Ok(r.ops[m + 1].kind) == NodeKind(c, true) && r.ops[m + 1].inputs == [a, n + 3, n + 4] && r.ops[m + 1].outputs == [n + 5]
      && r.vars[a].consumers == [m + 1] && r.vars[n + 5].consumers == [m]
      && (forall p :: 0 <= p < m ==> r.ops[p].inputs == ReplaceAll<nat>(s.ops[p].inputs, a, n + 2) && r.ops[p].outputs == s.ops[p].outputs)
      && Extends(s, r)
      && r.outputs == if a in s.outputs then s.outputs - {a} + {n + 2} else s.outputs
  {
    assert a !in s1.ops[up].inputs;
    var r := InsertQdq(s1, a, c, up, true).value.graph;
    InsertedNode(s1, a, c, up, true);
    InsertedOnVariable(s1, a, c, up, true);
    InsertQdqPreserves(s1, a, c, up, true);
    QuantAfterDequantCombined(s, a, c, s1, r);
  }

  /** The facts of the two insertions, put together on plain states. */
  lemma QuantAfterDequantCombined(s: GraphState, a: VarId, c: QuantConfig, s1: GraphState, r: GraphState)
    requires a < |s.vars| && |s1.ops| == |s.ops| + 1 && |s1.vars| == |s.vars| + 3
    requires |r.ops| == |s1.ops| + 1 && |r.vars| == |s1.vars| + 3
    requires Ok(s1.ops[|s.ops|].kind) == NodeKind(c, false)
    requires s1.ops[|s.ops|].inputs == [a, |s.vars|, |s.vars| + 1] && s1.ops[|s.ops|].outputs == [|s.vars| + 2]
    requires forall p :: 0 <= p < |s.ops| ==>
      s1.ops[p].inputs == ReplaceAll<nat>(s.ops[p].inputs, a, |s.vars| + 2) && s1.ops[p].outputs == s.ops[p].outputs
    requires Extends(s, s1)
    requires s1.outputs == if a in s.outputs then s.outputs - {a} + {|s.vars| + 2} else s.outputs
    requires s1.vars[a].consumers == [|s.ops|]
    requires Ok(r.ops[|s1.ops|].kind) == NodeKind(c, true)
    requires r.ops[|s1.ops|].inputs == [a, |s1.vars|, |s1.vars| + 1] && r.ops[|s1.ops|].outputs == [|s1.vars| + 2]
    requires r.vars[a].consumers == [|s1.ops|] && r.vars[|s1.vars| + 2].consumers == s1.vars[a].consumers
    requires forall o :: 0 <= o < |s1.ops| ==> r.ops[o].inputs == ReplaceAll<nat>(s1.ops[o].inputs, a, |s1.vars| + 2)
    requires forall o :: 0 <= o < |s1.ops| ==> r.ops[o].outputs == s1.ops[o].outputs && r.ops[o].kind == s1.ops[o].kind
    requires r.outputs == if a in s1.outputs then s1.outputs - {a} + {|s1.vars| + 2} else s1.outputs
    requires Extends(s1, r)
    ensures var n, m := |s.vars|, |s.ops|;
      && Ok(r.ops[m].kind) == NodeKind(c, false) && r.ops[m].inputs == [n + 5, n, n + 1] && r.ops[m].outputs == [n + 2]
      && Ok(r.ops[m + 1].kind) == NodeKind(c, true) && r.ops[m + 1].inputs == [a, n + 3, n + 4] && r.ops[m + 1].outputs == [n + 5]
      && r.vars[a].consumers == [m + 1] && r.vars[n + 5].consumers == [m]
      && (forall p :: 0 <= p < m ==> r.ops[p].inputs == ReplaceAll<nat>(s.ops[p].inputs, a, n + 2) && r.ops[p].outputs == s.ops[p].outputs)
      && Extends(s, r)
      && r.outputs == if a in s.outputs then s.outputs - {a} + {n + 2} else s.outputs
  {
    QuantNodeWiring(s, a, c, s1, r);
    OldReadersKept(s, a, s1, r);
    ExtendsTransitive(s, s1, r);
  }

  /** The two nodes' links after the second insertion. */
  lemma QuantNodeWiring(s: GraphState, a: VarId, c: QuantConfig, s1: GraphState, r: GraphState)
    requires |s1.ops| == |s.ops| + 1 && |s1.vars| == |s.vars| + 3 && a < |s.vars|
    requires |r.ops| == |s1.ops| + 1 && |r.vars| == |s1.vars| + 3
    requires s1.ops[|s.ops|].inputs == [a, |s.vars|, |s.vars| + 1]
    requires forall o :: 0 <= o < |s1.ops| ==> r.ops[o].inputs == ReplaceAll<nat>(s1.ops[o].inputs, a, |s1.vars| + 2)
    ensures r.ops[|s.ops|].inputs == [|s.vars| + 5, |s.vars|, |s.vars| + 1]
  {
    var n := |s.vars|;
    assert r.ops[|s.ops|].inputs == ReplaceAll<nat>([a, n, n + 1], a, n + 5);
    assert ReplaceAll<nat>([n + 1], a, n + 5) == [n + 1];
    assert [a, n, n + 1][1..] == [n, n + 1] && [n, n + 1][1..] == [n + 1];
  }

  /** The old operations' inputs are those after the first insertion, which no longer name `a`. */
  lemma OldReadersKept(s: GraphState, a: VarId, s1: GraphState, r: GraphState)
    requires |s1.ops| == |s.ops| + 1 && |s1.vars| == |s.vars| + 3 && a < |s.vars|
    requires |r.ops| == |s1.ops| + 1
    requires forall p :: 0 <= p < |s.ops| ==> s1.ops[p].inputs == ReplaceAll<nat>(s.ops[p].inputs, a, |s.vars| + 2)
    requires forall o :: 0 <= o < |s1.ops| ==> r.ops[o].inputs == ReplaceAll<nat>(s1.ops[o].inputs, a, |s1.vars| + 2)
    ensures forall p :: 0 <= p < |s.ops| ==> r.ops[p].inputs == ReplaceAll<nat>(s.ops[p].inputs, a, |s.vars| + 2)
  {
    forall p | 0 <= p < |s.ops|
      ensures r.ops[p].inputs == s1.ops[p].inputs
    {
      ReplaceAllAbsent<nat>(s1.ops[p].inputs, a, |s1.vars| + 2);
    }
  }

  /**
   * Removing a candidate, when the upstream operation reads neither o's input `a` nor its
   * output `b`: `o` and `b` are gone; the quantize node (id |ops|+1) is `a`'s only reader
   * and feeds the dequantize node (id |ops|), whose output every former reader of `a` or
   * `b` now reads; a graph output `a` or `b` becomes that output; nothing else changes
   * type, liveness or outputs.
   */
  lemma ElideEffect(s: GraphState, o: OpId)
    requires Closed(s) && o < |s.ops| && Removable(s, o)
    requires var m := Plan(s, o).value.value;
      m.a !in s.ops[m.up].inputs && m.b !in s.ops[m.up].inputs
    requires Elide(s, o).Ok?
    ensures var m := Plan(s, o).value.value;
      var r := Elide(s, o).value;
      var n, k := |s.vars|, |s.ops|;
      && !r.ops[o].alive && !r.vars[m.b].alive
      && Ok(r.ops[k].kind) == NodeKind(m.config, false) && r.ops[k].inputs == [n + 5, n, n + 1] && r.ops[k].outputs == [n + 2]
      && Ok(r.ops[k + 1].kind) == NodeKind(m.config, true) && r.ops[k + 1].inputs == [m.a, n + 3, n + 4] && r.ops[k + 1].outputs == [n + 5]
      && r.vars[m.a].consumers == [k + 1]
      && (forall p :: 0 <= p < k && p != o ==>
            && r.ops[p].inputs == ReplaceAll<nat>(ReplaceAll<nat>(s.ops[p].inputs, m.b, m.a), m.a, n + 2)
            && r.ops[p].outputs == s.ops[p].outputs && r.ops[p].kind == s.ops[p].kind && r.ops[p].alive == s.ops[p].alive)
      && r.outputs == if m.a in s.outputs || m.b in s.outputs then s.outputs - {m.a, m.b} + {n + 2} else s.outputs
  {
    ApplyEffect(s, o, Plan(s, o).value.value);
  }

  /** The rewrite's effect, for a given removal. */
  lemma ApplyEffect(s: GraphState, o: OpId, m: Removal)
    requires Relinkable(s, o) && m.a == s.ops[o].inputs[0] && m.b == s.ops[o].outputs[0] && m.up < |s.ops|
    requires m.a !in s.ops[m.up].inputs && m.b !in s.ops[m.up].inputs
    requires Apply(s, o, m).Ok?
    ensures var r := Apply(s, o, m).value;
      var n, k := |s.vars|, |s.ops|;
      && !r.ops[o].alive && !r.vars[m.b].alive
      && Ok(r.ops[k].kind) == NodeKind(m.config, false) && r.ops[k].inputs == [n + 5, n, n + 1] && r.ops[k].outputs == [n + 2]
      && Ok(r.ops[k + 1].kind) == NodeKind(m.config, true) && r.ops[k + 1].inputs == [m.a, n + 3, n + 4] && r.ops[k + 1].outputs == [n + 5]
      && r.vars[m.a].consumers == [k + 1]
      && (forall p :: 0 <= p < k && p != o ==>
            && r.ops[p].inputs == ReplaceAll<nat>(ReplaceAll<nat>(s.ops[p].inputs, m.b, m.a), m.a, n + 2)
            && r.ops[p].outputs == s.ops[p].outputs && r.ops[p].kind == s.ops[p].kind && r.ops[p].alive == s.ops[p].alive)
      && r.outputs == if m.a in s.outputs || m.b in s.outputs then s.outputs - {m.a, m.b} + {n + 2} else s.outputs
  {
    var s2 := RemoveAndRelink(WithOutputs(s, Rebound(s.outputs, m)), o);
    RelinkStage(s, o, m);
    InsertStage(s, o, m, s2);
  }

  /** The hand-over of the graph output and the removal, in terms of the original graph. */
  lemma RelinkStage(s: GraphState, o: OpId, m: Removal)
    requires Relinkable(s, o) && m.a == s.ops[o].inputs[0] && m.b == s.ops[o].outputs[0]
    ensures var s2 := RemoveAndRelink(WithOutputs(s, Rebound(s.outputs, m)), o);
      && |s2.ops| == |s.ops| && |s2.vars| == |s.vars|
      && !s2.ops[o].alive && !s2.vars[m.b].alive
      && s2.outputs == Rebound(s.outputs, m) - {m.b}
      && forall p :: 0 <= p < |s.ops| && p != o ==>
           && s2.ops[p].inputs == ReplaceAll<nat>(s.ops[p].inputs, m.b, m.a)
           && s2.ops[p].outputs == s.ops[p].outputs && s2.ops[p].kind == s.ops[p].kind && s2.ops[p].alive == s.ops[p].alive
  {
    RemoveAndRelinkEffect(WithOutputs(s, Rebound(s.outputs, m)), o);
  }

  /** The two insertions after the removal, with the removal's result taken as a plain state. */
  lemma InsertStage(s: GraphState, o: OpId, m: Removal, s2: GraphState)
    requires Relinkable(s, o) && m.a == s.ops[o].inputs[0] && m.b == s.ops[o].outputs[0] && m.up < |s.ops|
    requires m.a !in s.ops[m.up].inputs && m.b !in s.ops[m.up].inputs
    requires |s2.ops| == |s.ops| && |s2.vars| == |s.vars|
    requires !s2.ops[o].alive && !s2.vars[m.b].alive
    requires s2.outputs == Rebound(s.outputs, m) - {m.b}
    requires forall p :: 0 <= p < |s.ops| && p != o ==>
      && s2.ops[p].inputs == ReplaceAll<nat>(s.ops[p].inputs, m.b, m.a)
      && s2.ops[p].outputs == s.ops[p].outputs && s2.ops[p].kind == s.ops[p].kind && s2.ops[p].alive == s.ops[p].alive
    requires DequantThenQuant(s2, m.a, m.config, m.up).Ok?
    ensures var r := DequantThenQuant(s2, m.a, m.config, m.up).value;
      var n, k := |s.vars|, |s.ops|;
      && !r.ops[o].alive && !r.vars[m.b].alive
      && Ok(r.ops[k].kind) == NodeKind(m.config, false) && r.ops[k].inputs == [n + 5, n, n + 1] && r.ops[k].outputs == [n + 2]
      && Ok(r.ops[k + 1].kind) == NodeKind(m.config, true) && r.ops[k + 1].inputs == [m.a, n + 3, n + 4] && r.ops[k + 1].outputs == [n + 5]
      && r.vars[m.a].consumers == [k + 1]
      && (forall p :: 0 <= p < k && p != o ==>
            && r.ops[p].inputs == ReplaceAll<nat>(ReplaceAll<nat>(s.ops[p].inputs, m.b, m.a), m.a, n + 2)
            && r.ops[p].outputs == s.ops[p].outputs && r.ops[p].kind == s.ops[p].kind && r.ops[p].alive == s.ops[p].alive)
      && r.outputs == if m.a in s.outputs || m.b in s.outputs then s.outputs - {m.a, m.b} + {n + 2} else s.outputs
  {
    UpstreamUntouched(s, o, m, s2);
    DequantThenQuantEffect(s2, m.a, m.config, m.up);
    ElideEffectCombined(s, o, m, s2, DequantThenQuant(s2, m.a, m.config, m.up).value);
  }

  /** The upstream operation reads neither `a` nor `b`, so the removal leaves its inputs alone. */
  lemma UpstreamUntouched(s: GraphState, o: OpId, m: Removal, s2: GraphState)
    requires Relinkable(s, o) && m.a == s.ops[o].inputs[0] && m.up < |s.ops|
    requires m.a !in s.ops[m.up].inputs && m.b !in s.ops[m.up].inputs
    requires |s2.ops| == |s.ops|
    requires forall p :: 0 <= p < |s.ops| && p != o ==> s2.ops[p].inputs == ReplaceAll<nat>(s.ops[p].inputs, m.b, m.a)
    ensures m.a !in s2.ops[m.up].inputs
  {
    assert m.a in s.ops[o].inputs;
    ReplaceAllAbsent<nat>(s.ops[m.up].inputs, m.b, m.a);
  }

  /** The removal's and the insertions' facts, put together on plain states. */
  lemma ElideEffectCombined(s: GraphState, o: OpId, m: Removal, s2: GraphState, r: GraphState)
    requires Relinkable(s, o) && m.a == s.ops[o].inputs[0] && m.b == s.ops[o].outputs[0]
    requires |s2.ops| == |s.ops| && |s2.vars| == |s.vars|
    requires !s2.ops[o].alive && !s2.vars[m.b].alive
    requires s2.outputs == Rebound(s.outputs, m) - {m.b}
    requires forall p :: 0 <= p < |s.ops| && p != o ==>
      && s2.ops[p].inputs == ReplaceAll<nat>(s.ops[p].inputs, m.b, m.a)
      && s2.ops[p].outputs == s.ops[p].outputs && s2.ops[p].kind == s.ops[p].kind && s2.ops[p].alive == s.ops[p].alive
    requires var n, k := |s2.vars|, |s2.ops|;
      && |r.ops| == k + 2 && |r.vars| == n + 6
      && Ok(r.ops[k].kind) == NodeKind(m.config, false) && r.ops[k].inputs == [n + 5, n, n + 1] && r.ops[k].outputs == [n + 2]
      && Ok(r.ops[k + 1].kind) == NodeKind(m.config, true) && r.ops[k + 1].inputs == [m.a, n + 3, n + 4] && r.ops[k + 1].outputs == [n + 5]
      && r.vars[m.a].consumers == [k + 1]
      && (forall p :: 0 <= p < k ==> r.ops[p].inputs == ReplaceAll<nat>(s2.ops[p].inputs, m.a, n + 2) && r.ops[p].outputs == s2.ops[p].outputs)
      && Extends(s2, r)
      && r.outputs == if m.a in s2.outputs then s2.outputs - {m.a} + {n + 2} else s2.outputs
    ensures var n, k := |s.vars|, |s.ops|;
      && !r.ops[o].alive && !r.vars[m.b].alive
      && Ok(r.ops[k].kind) == NodeKind(m.config, false) && r.ops[k].inputs == [n + 5, n, n + 1] && r.ops[k].outputs == [n + 2]
      && Ok(r.ops[k + 1].kind) == NodeKind(m.config, true) && r.ops[k + 1].inputs == [m.a, n + 3, n + 4] && r.ops[k + 1].outputs == [n + 5]
      && r.vars[m.a].consumers == [k + 1]
      && (forall p :: 0 <= p < k && p != o ==>
            && r.ops[p].inputs == ReplaceAll<nat>(ReplaceAll<nat>(s.ops[p].inputs, m.b, m.a), m.a, n + 2)
            && r.ops[p].outputs == s.ops[p].outputs && r.ops[p].kind == s.ops[p].kind && r.ops[p].alive == s.ops[p].alive)
      && r.outputs == if m.a in s.outputs || m.b in s.outputs then s.outputs - {m.a, m.b} + {n + 2} else s.outputs
  {
  }

  /** Removing a candidate keeps a consistent graph consistent. */
  lemma ElideConsistent(s: GraphState, o: OpId)
    requires Consistent(s) && o < |s.ops|
    requires Elide(s, o).Ok?
    ensures Consistent(Elide(s, o).value)
  {
    var plan := Plan(s, o).value;
    if plan.Some? {
      var m := plan.value;
      var rebound := WithOutputs(s, Rebound(s.outputs, m));
      WithOutputsConsistent(s, Rebound(s.outputs, m));
      RemoveAndRelinkConsistent(rebound, o);
      RemoveAndRelinkEffect(rebound, o);
      LinkedVariablesAlive(s, o, m.a);
      DequantThenQuantConsistent(RemoveAndRelink(rebound, o), m.a, m.config, m.up);
    }
  }

  lemma DequantThenQuantConsistent(s: GraphState, a: VarId, c: QuantConfig, up: OpId)
    requires Consistent(s) && a < |s.vars| && up < |s.ops| && s.vars[a].alive
    requires DequantThenQuant(s, a, c, up).Ok?
    ensures Consistent(DequantThenQuant(s, a, c, up).value)
  {
    var s1 := InsertQdq(s, a, c, up, false).value.graph;
    InsertQdqConsistent(s, a, c, up, false);
    InsertQdqPreserves(s, a, c, up, false);
    InsertQdqConsistent(s1, a, c, up, true);
  }

  /** The second loop keeps a consistent graph consistent. */
  lemma {:induction false} ElideFromConsistent(s: GraphState, cs: seq<OpId>, i: nat)
    requires Consistent(s) && forall k :: i <= k < |cs| ==> cs[k] < |s.ops|
    requires ElideFrom(s, cs, i).Ok?
    ensures Consistent(ElideFrom(s, cs, i).value)
    decreases |cs| - i
  {
    if i < |cs| {
      ElideConsistent(s, cs[i]);
      ElideClosed(s, cs[i]);
      ElideFromConsistent(Elide(s, cs[i]).value, cs, i + 1);
    }
  }

  /** The second loop keeps indices in range. */
  lemma {:induction false} ElideFromClosed(s: GraphState, cs: seq<OpId>, i: nat)
    requires Closed(s) && forall k :: i <= k < |cs| ==> cs[k] < |s.ops|
    requires ElideFrom(s, cs, i).Ok?
    ensures Closed(ElideFrom(s, cs, i).value)
    decreases |cs| - i
  {
    if i < |cs| {
      ElideClosed(s, cs[i]);
      ElideFromClosed(Elide(s, cs[i]).value, cs, i + 1);
    }
  }

  /** remove_activation_ops keeps indices in range. */
  lemma RemoveActivationsClosed(s: GraphState)
    requires Closed(s)
    ensures RemoveActivations(s).Ok? ==> Closed(RemoveActivations(s).value)
  {
    if RemoveActivations(s).Ok? {
      var cs := Candidates(s).value;
      assert forall k :: 0 <= k < |cs| ==> cs[k] in cs;
      ElideFromClosed(s, cs, 0);
    }
  }

  /** remove_activation_ops keeps a consistent graph consistent. */
  lemma RemoveActivationsConsistent(s: GraphState)
    requires Consistent(s) && RemoveActivations(s).Ok?
    ensures Consistent(RemoveActivations(s).value)
  {
    var cs := Candidates(s).value;
    assert forall k :: 0 <= k < |cs| ==> cs[k] in cs;
    ElideFromConsistent(s, cs, 0);
  }
}
