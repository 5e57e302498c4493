/**
 * remove_duplicated_quant_op of the ONNX Runtime exporter: in a chain
 * Quantize - Dequantize - Quantize - Dequantize whose middle Dequantize and Quantize
 * carry the same scale and zero point, the second Quantize and the Dequantize after it
 * cancel out, so both are removed and their readers relinked.
 */
module OrtDedup {
  import opened Failures
  import opened Seqs
  import opened Graphs
  import opened QdqHelper

  /** The largest scale difference taken as equal, 1e-5. */
  const ScaleTolerance: real := 0.00001

  /** The largest zero-point difference taken as equal, 0.5: zero points are integers. */
  const ZeroPointTolerance: real := 0.5

  // ---------------------------------------------------------------------------------
  // Tensor arithmetic: an element-wise difference with broadcasting, and its maximum.

  function Abs(x: real): real {
    if x < 0.0 then -x else x
  }

  /**
   * A tensor's elements as numbers: a tensor with no value cannot be subtracted from,
   * and the integer form a parameter was rewritten to is not available as numbers.
   */
  function Values(t: Tensor): (r: Result<seq<real>>)
    ensures r.Fail? <==> t.NoValue? || t.IntFormOf?
    ensures t.Reals? ==> r == Ok(t.reals)
    ensures t.Ints? ==> r.Ok? && |r.value| == |t.ints| && forall k :: 0 <= k < |t.ints| ==> r.value[k] == t.ints[k] as real
  {
    match t
    case NoValue => Fail(TypeError)
    case Reals(xs) => Ok(xs)
    case Ints(xs, _) => Ok(seq(|xs|, k requires 0 <= k < |xs| => xs[k] as real))
    // Not reached in prepare_graph: only a weight is rewritten to its integer form, and
    // the scale and offset variables read here are never weights.
    case IntFormOf(_, _) => Fail(RuntimeError)
  }

  /**
   * `torch.max(torch.abs(x - y)).item()`, computed exactly: the shapes must broadcast,
   * and the maximum of an empty tensor fails.
   */
  function MaxAbsDiff(x: seq<real>, y: seq<real>): (r: Result<real>)
    ensures r.Fail? ==> r.error == RuntimeError
    ensures r.Ok? ==> Broadcast(|x|, |y|).Ok? && Broadcast(|x|, |y|).value > 0
    ensures r.Ok? ==> forall k :: 0 <= k < Broadcast(|x|, |y|).value ==>
      Abs(x[Pick(|x|, k)] - y[Pick(|y|, k)]) <= r.value
    ensures r.Ok? ==> exists k :: 0 <= k < Broadcast(|x|, |y|).value && r.value == Abs(x[Pick(|x|, k)] - y[Pick(|y|, k)])
    ensures Broadcast(|x|, |y|).Ok? && Broadcast(|x|, |y|).value > 0 ==> r.Ok?
  {
    var n :- Broadcast(|x|, |y|);
    if n == 0 then Fail(RuntimeError)
    else
      var diffs := seq(n, k requires 0 <= k < n => Abs(x[Pick(|x|, k)] - y[Pick(|y|, k)]));
      assert forall k :: 0 <= k < n ==> diffs[k] in diffs;
      var m := Greatest(diffs);
      assert forall k :: 0 <= k < n ==> Abs(x[Pick(|x|, k)] - y[Pick(|y|, k)]) == diffs[k] <= m;
      var k :| 0 <= k < n && diffs[k] == m;
      Ok(m)
  }

  /**
   * The zero-point difference as the source computes it when both zero points are
   * integer tensors of one type: the subtraction and the absolute value are taken in that
   * type, so they wrap around, and the absolute value of the type's lowest value is that
   * lowest value again. Anything else is subtracted exactly.
   */
  function ZeroPointDiffAsWritten(t1: Tensor, t2: Tensor): (r: Result<real>)
    ensures !(t1.Ints? && t2.Ints? && t1.dtype == t2.dtype) ==> r == ZeroPointDiff(t1, t2)
    ensures t1.Ints? && t2.Ints? && t1.dtype == t2.dtype ==> r == MaxWrappedAbsDiff(t1.ints, t2.ints, t1.dtype)
  {
    if t1.Ints? && t2.Ints? && t1.dtype == t2.dtype then MaxWrappedAbsDiff(t1.ints, t2.ints, t1.dtype)
    else ZeroPointDiff(t1, t2)
  }

  /** The largest wrapped difference over the broadcast positions. */
  function MaxWrappedAbsDiff(x: seq<int>, y: seq<int>, t: DType): (r: Result<real>)
    ensures r.Ok? ==> Broadcast(|x|, |y|).Ok? && Broadcast(|x|, |y|).value > 0
    ensures r.Ok? ==> forall k :: 0 <= k < Broadcast(|x|, |y|).value ==>
      WrappedAbsDiff(x[Pick(|x|, k)], y[Pick(|y|, k)], t) as real <= r.value
    ensures Broadcast(|x|, |y|).Ok? && Broadcast(|x|, |y|).value > 0 ==> r.Ok?
  {
    var n :- Broadcast(|x|, |y|);
    if n == 0 then Fail(RuntimeError)
    else
      var diffs := seq(n, k requires 0 <= k < n => WrappedAbsDiff(x[Pick(|x|, k)], y[Pick(|y|, k)], t) as real);
      assert forall k :: 0 <= k < n ==> diffs[k] in diffs;
      var m := Greatest(diffs);
      assert forall k :: 0 <= k < n ==> WrappedAbsDiff(x[Pick(|x|, k)], y[Pick(|y|, k)], t) as real == diffs[k] <= m;
      Ok(m)
  }

  /** `abs(x - y)` computed in integer type `t`: wrapped, and with the lowest value its own absolute value. */
  function WrappedAbsDiff(x: int, y: int, t: DType): (r: int)
    ensures Fits(r, t)
  {
    var w := CastTo(x - y, t);
    if w == Lowest(t) || w >= 0 then w else -w
  }

  /** The zero-point difference, subtracted exactly. */
  function ZeroPointDiff(t1: Tensor, t2: Tensor): (r: Result<real>)
    ensures r.Ok? ==> Values(t1).Ok? && Values(t2).Ok? && MaxAbsDiff(Values(t1).value, Values(t2).value) == r
  {
    var x :- Values(t1);
    var y :- Values(t2);
    MaxAbsDiff(x, y)
  }

  // ---------------------------------------------------------------------------------
  // The pairs, the marks and the removal.

  /** A QuantizeLinear and the DequantizeLinear that is its only upstream operation. */
  datatype Pair = Pair(q: OpId, dq: OpId)

  /** Whether operation `q` starts a pair: a QuantizeLinear whose only upstream operation is a DequantizeLinear. */
  predicate PairAt(s: GraphState, q: OpId)
    requires Closed(s) && q < |s.ops|
  {
    var ups := Upstream(s, q);
    s.ops[q].alive && s.ops[q].kind == QuantizeLinear && |ups| == 1
    && (assert ups[0] in ups; s.ops[ups[0]].kind == DequantizeLinear)
  }

  /** The first loop from operation `i` on: interested_pairs, in registry order. */
  function PairsFrom(s: GraphState, i: nat): (r: seq<Pair>)
    requires Closed(s)
    ensures forall k :: 0 <= k < |r| ==> i <= r[k].q < |s.ops| && r[k].dq < |s.ops|
    decreases |s.ops| - i
  {
    if i >= |s.ops| then []
    else if PairAt(s, i) then
      var up := Upstream(s, i)[0];
      assert up in Upstream(s, i);
      [Pair(i, up)] + PairsFrom(s, i + 1)
    else PairsFrom(s, i + 1)
  }

  function Pairs(s: GraphState): (r: seq<Pair>)
    requires Closed(s)
    ensures forall k :: 0 <= k < |r| ==> r[k].q < |s.ops| && r[k].dq < |s.ops|
  {
    PairsFrom(s, 0)
  }

  method FindPairs(g: Graph) returns (pairs: seq<Pair>)
    requires Closed(g.State())
    ensures pairs == Pairs(g.State())
  {
    var s := g.State();
    pairs := [];
    var i := 0;
    while i < |s.ops|
      invariant i <= |s.ops|
      invariant Pairs(s) == pairs + PairsFrom(s, i)
    {
      if PairAt(s, i) {
        var p := Pair(i, Upstream(s, i)[0]);
        assert PairsFrom(s, i) == [p] + PairsFrom(s, i + 1);
        assert pairs + PairsFrom(s, i) == (pairs + [p]) + PairsFrom(s, i + 1);
        pairs := pairs + [p];
      }
      i := i + 1;
    }
  }

  /**
   * Whether the pair's Dequantize and Quantize carry the same scale (within 1e-5) and the
   * same zero point (within 0.5); a missing scale or zero-point input fails, and so does
   * arithmetic on tensors that do not broadcast. As written, zero points of one integer
   * type are subtracted in that type; the `intended` reading subtracts them exactly.
   */
  function Collapsible(s: GraphState, p: Pair, intended: bool): (r: Result<bool>)
    requires Closed(s) && p.q < |s.ops| && p.dq < |s.ops|
  {
    var dq, q := s.ops[p.dq], s.ops[p.q];
    if |dq.inputs| < 2 || |q.inputs| < 2 then Fail(IndexError)
    else
      assert dq.inputs[1] in dq.inputs && q.inputs[1] in q.inputs;
      var x :- Values(s.vars[dq.inputs[1]].value);
      var y :- Values(s.vars[q.inputs[1]].value);
      var scaleDiff :- MaxAbsDiff(x, y);
      if |dq.inputs| < 3 || |q.inputs| < 3 then Fail(IndexError)
      else
        assert dq.inputs[2] in dq.inputs && q.inputs[2] in q.inputs;
        var z1, z2 := s.vars[dq.inputs[2]].value, s.vars[q.inputs[2]].value;
        var zeroPointDiff :- if intended then ZeroPointDiff(z1, z2) else ZeroPointDiffAsWritten(z1, z2);
        Ok(scaleDiff < ScaleTolerance && zeroPointDiff < ZeroPointTolerance)
  }

  /** The two operations a collapsible pair marks: its Quantize and the one operation after it. */
  function Marked(s: GraphState, p: Pair): set<OpId>
    requires Closed(s) && p.q < |s.ops|
  {
    var downs := Downstream(s, p.q);
    if |downs| == 1 then {p.q, downs[0]} else {}
  }

  /** One pair of the second loop: the operations it marks, or the failure it raises. */
  function MarkPair(s: GraphState, p: Pair, intended: bool): (r: Result<set<OpId>>)
    requires Closed(s) && p.q < |s.ops| && p.dq < |s.ops|
    ensures r.Ok? ==> forall m :: m in r.value ==> m < |s.ops|
  {
    var collapse :- Collapsible(s, p, intended);
    if !collapse then Ok({})
    else
      var downs := Downstream(s, p.q);
      if |downs| != 1 then Fail(AssertionError)
      else
        assert downs[0] in downs;
        Ok({p.q, downs[0]})
  }

  /**
   * The second loop from pair `i` on, adding to `marks`: a collapsible pair marks its
   * Quantize and the operation after it, which must be the only one.
   */
  function MarksFrom(s: GraphState, pairs: seq<Pair>, i: nat, marks: set<OpId>, intended: bool): (r: Result<set<OpId>>)
    requires Closed(s) && forall k :: 0 <= k < |pairs| ==> pairs[k].q < |s.ops| && pairs[k].dq < |s.ops|
    ensures r.Ok? ==> marks <= r.value && forall m :: m in r.value ==> m in marks || m < |s.ops|
    decreases |pairs| - i
  {
    if i >= |pairs| then Ok(marks)
    else
      var add :- MarkPair(s, pairs[i], intended);
      MarksFrom(s, pairs, i + 1, marks + add, intended)
  }

  /** mark_to_remove. */
  function Marks(s: GraphState, intended: bool): (r: Result<set<OpId>>)
    requires Closed(s)
    ensures r.Ok? ==> forall m :: m in r.value ==> m < |s.ops|
  {
    MarksFrom(s, Pairs(s), 0, {}, intended)
  }

  method MarkPairs(g: Graph, pairs: seq<Pair>) returns (res: Result<set<OpId>>)
    requires Closed(g.State()) && forall k :: 0 <= k < |pairs| ==> pairs[k].q < |g.ops| && pairs[k].dq < |g.ops|
    ensures res == MarksFrom(g.State(), pairs, 0, {}, false)
  {
    var s := g.State();
    var marks: set<OpId> := {};
    var i := 0;
    while i < |pairs|
      invariant i <= |pairs|
      invariant MarksFrom(s, pairs, 0, {}, false) == MarksFrom(s, pairs, i, marks, false)
    {
      MarksFromStep(s, pairs, i, marks, false);
      var step := MarkPair(s, pairs[i], false);
      if step.Fail? {
        return Fail(step.error);
      }
      marks := marks + step.value;
      i := i + 1;
    }
    res := Ok(marks);
  }

  /**
   * Removing one marked operation: its first input and first output are read first (a
   * missing one fails), then it is removed and its readers relinked to its input; an
   * operation whose output is its input cannot be relinked.
   */
  function RemoveOne(s: GraphState, o: OpId): (r: Result<GraphState>)
    requires Closed(s) && o < |s.ops|
    ensures r.Ok? <==> Relinkable(s, o)
    ensures r.Ok? ==> r.value == RemoveAndRelink(s, o) && Closed(r.value)
    ensures r.Fail? ==> r.error in {IndexError, SelfLoop}
  {
    var op := s.ops[o];
    if |op.inputs| == 0 || |op.outputs| == 0 then Fail(IndexError)
    else
      assert op.inputs[0] in op.inputs && op.outputs[0] in op.outputs;
      if op.inputs[0] == op.outputs[0] then Fail(SelfLoop)
      else
        RemoveAndRelinkClosed(s, o);
        Ok(RemoveAndRelink(s, o))
  }

  /** The third loop, over the marked operations in registry order from `i` on. */
  function RemoveFrom(s: GraphState, marks: set<OpId>, i: nat): (r: Result<GraphState>)
    requires Closed(s)
    ensures r.Ok? ==> Closed(r.value) && |r.value.ops| == |s.ops| && |r.value.vars| == |s.vars|
    decreases |s.ops| - i
  {
    if i >= |s.ops| then Ok(s)
    else if i !in marks then RemoveFrom(s, marks, i + 1)
    else
      var s1 :- RemoveOne(s, i);
      RemoveFrom(s1, marks, i + 1)
  }

  /** remove_duplicated_quant_op, with the zero points compared as written or as intended. */
  function RemoveDuplicatedWith(s: GraphState, intended: bool): (r: Result<GraphState>)
    requires Closed(s)
    ensures r.Ok? ==> Closed(r.value)
  {
    var marks :- Marks(s, intended);
    RemoveFrom(s, marks, 0)
  }

  /** remove_duplicated_quant_op as written. */
  function RemoveDuplicated(s: GraphState): (r: Result<GraphState>)
    requires Closed(s)
    ensures r.Ok? ==> Closed(r.value)
  {
    RemoveDuplicatedWith(s, false)
  }

  /** remove_duplicated_quant_op with the zero points subtracted exactly. */
  function IntendedRemoveDuplicated(s: GraphState): (r: Result<GraphState>)
    requires Closed(s)
    ensures r.Ok? ==> Closed(r.value)
  {
    RemoveDuplicatedWith(s, true)
  }

  method RemoveMarkedOn(g: Graph, marks: set<OpId>) returns (res: Outcome)
    requires Closed(g.State())
    modifies g
    ensures res == OutcomeOf(RemoveFrom(old(g.State()), marks, 0))
    ensures res.Pass? ==> g.State() == RemoveFrom(old(g.State()), marks, 0).value
  {
    var i := 0;
    while i < |g.ops|
      invariant Closed(g.State())
      invariant RemoveFrom(old(g.State()), marks, 0) == RemoveFrom(g.State(), marks, i)
    {
      if i in marks {
        var removed := RemoveOne(g.State(), i);
        if removed.Fail? {
          return Raise(removed.error);
        }
        g.RemoveOperationAndRelink(i);
      }
      i := i + 1;
    }
    res := Pass;
  }

  /** remove_duplicated_quant_op on the graph object. */
  method RemoveDuplicatedOn(g: Graph) returns (res: Outcome)
    requires Closed(g.State())
    modifies g
    ensures res == OutcomeOf(RemoveDuplicated(old(g.State())))
    ensures res.Pass? ==> g.State() == RemoveDuplicated(old(g.State())).value
  {
    var pairs := FindPairs(g);
    var marks := MarkPairs(g, pairs);
    assert marks == Marks(g.State(), false);
    if marks.Fail? {
      return Raise(marks.error);
    }
    res := RemoveMarkedOn(g, marks.value);
  }

  // ---------------------------------------------------------------------------------
  // What the pass finds and removes.

  /** The first loop lists its pairs in increasing order of their Quantize. */
  lemma {:induction false} PairsFromSorted(s: GraphState, i: nat)
    requires Closed(s)
    ensures forall k, l :: 0 <= k < l < |PairsFrom(s, i)| ==> PairsFrom(s, i)[k].q < PairsFrom(s, i)[l].q
    decreases |s.ops| - i
  {
    if i < |s.ops| {
      PairsFromSorted(s, i + 1);
      var r1 := PairsFrom(s, i + 1);
      var r := PairsFrom(s, i);
      if PairAt(s, i) {
        assert r == [Pair(i, Upstream(s, i)[0])] + r1;
        forall k, l | 0 <= k < l < |r|
          ensures r[k].q < r[l].q
        {
          assert r[l] == r1[l - 1] && i + 1 <= r1[l - 1].q;
          if k > 0 {
            assert r[k] == r1[k - 1];
          }
        }
      } else {
        assert r == r1;
      }
    }
  }

  /**
   * The first loop from operation `i` on lists exactly the operations from `i` on that
   * start a pair, each with its only upstream operation.
   */
  lemma {:induction false} PairsFromExactly(s: GraphState, i: nat)
    requires Closed(s)
    ensures var r := PairsFrom(s, i);
      forall p :: p in r <==> i <= p.q < |s.ops| && PairAt(s, p.q) && p.dq == Upstream(s, p.q)[0]
    decreases |s.ops| - i
  {
    if i < |s.ops| {
      PairsFromExactly(s, i + 1);
      var r1 := PairsFrom(s, i + 1);
      var r := PairsFrom(s, i);
      if PairAt(s, i) {
        var first := Pair(i, Upstream(s, i)[0]);
        assert r == [first] + r1;
        forall p
          ensures p in r <==> i <= p.q < |s.ops| && PairAt(s, p.q) && p.dq == Upstream(s, p.q)[0]
        {
          assert p in r <==> p == first || p in r1;
        }
      } else {
        assert r == r1;
      }
    }
  }

  /**
   * One pair of the second loop fails exactly when it is stuck; otherwise it marks its
   * Quantize and the operation after it when it compares equal, and nothing when not.
   */
  lemma MarkPairMeans(s: GraphState, p: Pair, intended: bool)
    requires Closed(s) && p.q < |s.ops| && p.dq < |s.ops|
    ensures MarkPair(s, p, intended).Fail? <==> Stuck(s, p, intended)
    ensures MarkPair(s, p, intended).Ok? ==>
      MarkPair(s, p, intended).value == if Collapsible(s, p, intended) == Ok(true) then Marked(s, p) else {}
  {
  }

  /** One step of the second loop. */
  lemma MarksFromStep(s: GraphState, pairs: seq<Pair>, i: nat, marks: set<OpId>, intended: bool)
    requires Closed(s) && forall k :: 0 <= k < |pairs| ==> pairs[k].q < |s.ops| && pairs[k].dq < |s.ops|
    requires i < |pairs|
    ensures MarksFrom(s, pairs, i, marks, intended) ==
      if MarkPair(s, pairs[i], intended).Fail? then Fail(MarkPair(s, pairs[i], intended).error)
      else MarksFrom(s, pairs, i + 1, marks + MarkPair(s, pairs[i], intended).value, intended)
  {
  }

  /**
   * The second loop from pair `i` on fails exactly when some pair cannot be compared, or
   * compares equal but has other than one operation after its Quantize.
   */
  lemma {:induction false} MarksFromFails(s: GraphState, pairs: seq<Pair>, i: nat, marks: set<OpId>, intended: bool)
    requires Closed(s) && forall k :: 0 <= k < |pairs| ==> pairs[k].q < |s.ops| && pairs[k].dq < |s.ops|
    ensures MarksFrom(s, pairs, i, marks, intended).Fail? <==> exists k :: i <= k < |pairs| && Stuck(s, pairs[k], intended)
    decreases |pairs| - i
  {
    if i < |pairs| {
      MarkPairMeans(s, pairs[i], intended);
      if !Stuck(s, pairs[i], intended) {
        MarksFromFails(s, pairs, i + 1, marks + MarkPair(s, pairs[i], intended).value, intended);
        assert (exists k :: i <= k < |pairs| && Stuck(s, pairs[k], intended))
          ==> exists k :: i + 1 <= k < |pairs| && Stuck(s, pairs[k], intended);
      }
    }
  }

  /** What pair `p` marks when it compares equal: its Quantize and the one operation after it. */
  ghost function Added(s: GraphState, p: Pair, intended: bool): set<OpId>
    requires Closed(s) && p.q < |s.ops| && p.dq < |s.ops|
  {
    if Collapsible(s, p, intended) == Ok(true) then Marked(s, p) else {}
  }

  /** What each pair marks when it compares equal, pair by pair. */
  ghost function AddedAll(s: GraphState, pairs: seq<Pair>, intended: bool): (r: seq<set<OpId>>)
    requires Closed(s) && forall k :: 0 <= k < |pairs| ==> pairs[k].q < |s.ops| && pairs[k].dq < |s.ops|
    ensures |r| == |pairs| && forall k :: 0 <= k < |pairs| ==> r[k] == Added(s, pairs[k], intended)
  {
    seq(|pairs|, k requires 0 <= k < |pairs| => Added(s, pairs[k], intended))
  }

  /** The union of `adds` from `i` on. */
  ghost function UnionFrom(adds: seq<set<OpId>>, i: nat): set<OpId>
    decreases |adds| - i
  {
    if i >= |adds| then {} else adds[i] + UnionFrom(adds, i + 1)
  }

  lemma {:induction false} UnionFromExactly(adds: seq<set<OpId>>, i: nat, m: OpId)
    ensures m in UnionFrom(adds, i) <==> exists k :: i <= k < |adds| && m in adds[k]
    decreases |adds| - i
  {
    if i < |adds| {
      UnionFromExactly(adds, i + 1, m);
      if exists k :: i <= k < |adds| && m in adds[k] {
        var k :| i <= k < |adds| && m in adds[k];
        if k > i {
          assert m in UnionFrom(adds, i + 1);
        }
      }
    }
  }

  /**
   * When the second loop from pair `i` on succeeds, it marks exactly the Quantize of every
   * pair that compares equal and the operation after it.
   */
  lemma {:induction false} MarksFromExactly(s: GraphState, pairs: seq<Pair>, i: nat, marks: set<OpId>, intended: bool)
    requires Closed(s) && forall k :: 0 <= k < |pairs| ==> pairs[k].q < |s.ops| && pairs[k].dq < |s.ops|
    requires MarksFrom(s, pairs, i, marks, intended).Ok?
    ensures MarksFrom(s, pairs, i, marks, intended).value == marks + UnionFrom(AddedAll(s, pairs, intended), i)
    decreases |pairs| - i
  {
    if i < |pairs| {
      MarkPairMeans(s, pairs[i], intended);
      MarksFromExactly(s, pairs, i + 1, marks + MarkPair(s, pairs[i], intended).value, intended);
    }
  }

  /** A pair the second loop stops at: it cannot be compared, or it compares equal but its Quantize has other than one operation after it. */
  predicate Stuck(s: GraphState, p: Pair, intended: bool)
    requires Closed(s) && p.q < |s.ops| && p.dq < |s.ops|
  {
    Collapsible(s, p, intended).Fail? || (Collapsible(s, p, intended) == Ok(true) && |Downstream(s, p.q)| != 1)
  }

  /**
   * A pair collapses only when its Dequantize and Quantize carry scales within 1e-5 of
   * each other at every broadcast position and, for integer zero points, zero points that
   * compare equal: read as intended, or for zero points of two integer types, they are
   * equal; as written, zero points of one integer type differ by a multiple of the type's
   * width or wrap to its lowest value, so int8 zero points are equal or 128 apart.
   */
  lemma CollapsibleMeans(s: GraphState, p: Pair, intended: bool)
    requires Closed(s) && p.q < |s.ops| && p.dq < |s.ops|
    requires Collapsible(s, p, intended) == Ok(true)
    ensures var dq, q := s.ops[p.dq], s.ops[p.q];
      && |dq.inputs| >= 3 && |q.inputs| >= 3
      && dq.inputs[1] < |s.vars| && q.inputs[1] < |s.vars| && dq.inputs[2] < |s.vars| && q.inputs[2] < |s.vars|
      && var x, y := Values(s.vars[dq.inputs[1]].value), Values(s.vars[q.inputs[1]].value);
         x.Ok? && y.Ok? && Broadcast(|x.value|, |y.value|).Ok?
         && forall k :: 0 <= k < Broadcast(|x.value|, |y.value|).value ==>
              Abs(x.value[Pick(|x.value|, k)] - y.value[Pick(|y.value|, k)]) < ScaleTolerance
    ensures var dq, q := s.ops[p.dq], s.ops[p.q];
      var z1, z2 := s.vars[dq.inputs[2]].value, s.vars[q.inputs[2]].value;
      z1.Ints? && z2.Ints? && (intended || z1.dtype != z2.dtype) ==>
        Broadcast(|z1.ints|, |z2.ints|).Ok?
        && forall k :: 0 <= k < Broadcast(|z1.ints|, |z2.ints|).value ==>
             z1.ints[Pick(|z1.ints|, k)] == z2.ints[Pick(|z2.ints|, k)]
    ensures var dq, q := s.ops[p.dq], s.ops[p.q];
      var z1, z2 := s.vars[dq.inputs[2]].value, s.vars[q.inputs[2]].value;
      !intended && z1.Ints? && z2.Ints? && z1.dtype == z2.dtype ==>
        Broadcast(|z1.ints|, |z2.ints|).Ok?
        && forall k :: 0 <= k < Broadcast(|z1.ints|, |z2.ints|).value ==>
             var w := CastTo(z1.ints[Pick(|z1.ints|, k)] - z2.ints[Pick(|z2.ints|, k)], z1.dtype);
             w == 0 || w == Lowest(z1.dtype)
    ensures var dq, q := s.ops[p.dq], s.ops[p.q];
      var z1, z2 := s.vars[dq.inputs[2]].value, s.vars[q.inputs[2]].value;
      !intended && z1.Ints? && z2.Ints? && z1.dtype == Int8 && z2.dtype == Int8
      && (forall k :: 0 <= k < |z1.ints| ==> Fits(z1.ints[k], Int8))
      && (forall k :: 0 <= k < |z2.ints| ==> Fits(z2.ints[k], Int8)) ==>
        Broadcast(|z1.ints|, |z2.ints|).Ok?
        && forall k :: 0 <= k < Broadcast(|z1.ints|, |z2.ints|).value ==>
             var a, b := z1.ints[Pick(|z1.ints|, k)], z2.ints[Pick(|z2.ints|, k)];
             a == b || a - b == 128 || b - a == 128
  {
    var dq, q := s.ops[p.dq], s.ops[p.q];
    assert dq.inputs[1] in dq.inputs && q.inputs[1] in q.inputs;
    assert dq.inputs[2] in dq.inputs && q.inputs[2] in q.inputs;
    var z1, z2 := s.vars[dq.inputs[2]].value, s.vars[q.inputs[2]].value;
    var zd := if intended then ZeroPointDiff(z1, z2) else ZeroPointDiffAsWritten(z1, z2);
    assert zd.Ok? && zd.value < ZeroPointTolerance;
    if z1.Ints? && z2.Ints? {
      if intended || z1.dtype != z2.dtype {
        assert zd == ZeroPointDiff(z1, z2);
        ExactZeroPointsClose(z1.ints, z2.ints, zd.value);
      } else {
        assert zd == MaxWrappedAbsDiff(z1.ints, z2.ints, z1.dtype);
        WrappedZeroPointsClose(z1.ints, z2.ints, z1.dtype, zd.value);
      }
    }
  }

  /** Integer zero points whose exact difference is below the tolerance are equal. */
  lemma ExactZeroPointsClose(x: seq<int>, y: seq<int>, d: real)
    requires MaxAbsDiff(seq(|x|, k requires 0 <= k < |x| => x[k] as real), seq(|y|, k requires 0 <= k < |y| => y[k] as real)) == Ok(d)
    requires d < ZeroPointTolerance
    ensures Broadcast(|x|, |y|).Ok?
    ensures forall k :: 0 <= k < Broadcast(|x|, |y|).value ==> x[Pick(|x|, k)] == y[Pick(|y|, k)]
  {
    forall k | 0 <= k < Broadcast(|x|, |y|).value
      ensures x[Pick(|x|, k)] == y[Pick(|y|, k)]
    {
      var a, b := x[Pick(|x|, k)], y[Pick(|y|, k)];
      assert Abs(a as real - b as real) <= d;
    }
  }

  /** Zero points of one integer type whose wrapped difference is below the tolerance. */
  lemma WrappedZeroPointsClose(x: seq<int>, y: seq<int>, t: DType, d: real)
    requires MaxWrappedAbsDiff(x, y, t) == Ok(d) && d < ZeroPointTolerance
    ensures Broadcast(|x|, |y|).Ok?
    ensures forall k :: 0 <= k < Broadcast(|x|, |y|).value ==>
      var w := CastTo(x[Pick(|x|, k)] - y[Pick(|y|, k)], t);
      w == 0 || w == Lowest(t)
    ensures t == Int8 && (forall k :: 0 <= k < |x| ==> Fits(x[k], Int8)) && (forall k :: 0 <= k < |y| ==> Fits(y[k], Int8)) ==>
      forall k :: 0 <= k < Broadcast(|x|, |y|).value ==>
        var a, b := x[Pick(|x|, k)], y[Pick(|y|, k)];
        a == b || a - b == 128 || b - a == 128
  {
    forall k | 0 <= k < Broadcast(|x|, |y|).value
      ensures WrappedAbsDiff(x[Pick(|x|, k)], y[Pick(|y|, k)], t) <= 0
    {
      assert WrappedAbsDiff(x[Pick(|x|, k)], y[Pick(|y|, k)], t) as real <= d;
    }
    if t == Int8 && (forall k :: 0 <= k < |x| ==> Fits(x[k], Int8)) && (forall k :: 0 <= k < |y| ==> Fits(y[k], Int8)) {
      forall k | 0 <= k < Broadcast(|x|, |y|).value
        ensures var a, b := x[Pick(|x|, k)], y[Pick(|y|, k)];
          a == b || a - b == 128 || b - a == 128
      {
        WrappedInt8Collapse(x[Pick(|x|, k)], y[Pick(|y|, k)]);
      }
    }
  }

  /**
   * The third loop from `i` on removes every marked operation from `i` on, and keeps the
   * liveness and type of every other operation.
   */
  lemma {:induction false} RemoveFromEffect(s: GraphState, marks: set<OpId>, i: nat)
    requires Closed(s)
    requires RemoveFrom(s, marks, i).Ok?
    ensures var r := RemoveFrom(s, marks, i).value;
      && (forall o :: i <= o < |s.ops| && o in marks ==> !r.ops[o].alive)
      && (forall o :: 0 <= o < |s.ops| && (o < i || o !in marks) ==> r.ops[o].alive == s.ops[o].alive && r.ops[o].kind == s.ops[o].kind)
    decreases |s.ops| - i
  {
    if i < |s.ops| {
      if i !in marks {
        RemoveFromEffect(s, marks, i + 1);
      } else {
        var s1 := RemoveOne(s, i).value;
        RemoveAndRelinkEffect(s, i);
        RemoveFromEffect(s1, marks, i + 1);
      }
    }
  }

  /** The third loop keeps a consistent graph consistent. */
  lemma {:induction false} RemoveFromConsistent(s: GraphState, marks: set<OpId>, i: nat)
    requires Consistent(s)
    requires RemoveFrom(s, marks, i).Ok?
    ensures Consistent(RemoveFrom(s, marks, i).value)
    decreases |s.ops| - i
  {
    if i < |s.ops| {
      if i !in marks {
        RemoveFromConsistent(s, marks, i + 1);
      } else {
        RemoveAndRelinkConsistent(s, i);
        RemoveFromConsistent(RemoveOne(s, i).value, marks, i + 1);
      }
    }
  }

  /**
   * remove_duplicated_quant_op removes the Quantize of every pair whose Dequantize and
   * Quantize compare equal, and the operation after it, and no other operation.
   */
  lemma RemoveDuplicatedEffect(s: GraphState, intended: bool)
    requires Closed(s) && RemoveDuplicatedWith(s, intended).Ok?
    ensures var r := RemoveDuplicatedWith(s, intended).value;
      var pairs := Pairs(s);
      forall o :: 0 <= o < |s.ops| ==>
        if exists k :: 0 <= k < |pairs| && o in Added(s, pairs[k], intended)
        then !r.ops[o].alive
        else r.ops[o].alive == s.ops[o].alive && r.ops[o].kind == s.ops[o].kind
  {
    var pairs := Pairs(s);
    var marks := Marks(s, intended).value;
    MarksFromExactly(s, pairs, 0, {}, intended);
    RemoveFromEffect(s, marks, 0);
    RemovedExactly(s, pairs, AddedAll(s, pairs, intended), marks, RemoveFrom(s, marks, 0).value, intended);
  }

  /** RemoveDuplicatedEffect on the marks and the resulting graph taken as plain values. */
  lemma RemovedExactly(s: GraphState, pairs: seq<Pair>, adds: seq<set<OpId>>, marks: set<OpId>, r: GraphState, intended: bool)
    requires Closed(s) && forall k :: 0 <= k < |pairs| ==> pairs[k].q < |s.ops| && pairs[k].dq < |s.ops|
    requires adds == AddedAll(s, pairs, intended) && marks == {} + UnionFrom(adds, 0) && |r.ops| == |s.ops|
    requires forall o :: 0 <= o < |s.ops| && o in marks ==> !r.ops[o].alive
    requires forall o :: 0 <= o < |s.ops| && (o < 0 || o !in marks) ==> r.ops[o].alive == s.ops[o].alive && r.ops[o].kind == s.ops[o].kind
    ensures forall o :: 0 <= o < |s.ops| ==>
        if exists k :: 0 <= k < |pairs| && o in Added(s, pairs[k], intended)
        then !r.ops[o].alive
        else r.ops[o].alive == s.ops[o].alive && r.ops[o].kind == s.ops[o].kind
  {
    forall o | 0 <= o < |s.ops| {
      UnionFromExactly(adds, 0, o);
    }
  }

  /** remove_duplicated_quant_op keeps a consistent graph consistent. */
  lemma RemoveDuplicatedConsistent(s: GraphState, intended: bool)
    requires Consistent(s) && RemoveDuplicatedWith(s, intended).Ok?
    ensures Consistent(RemoveDuplicatedWith(s, intended).value)
  {
    RemoveFromConsistent(s, Marks(s, intended).value, 0);
  }

  // ---------------------------------------------------------------------------------
  // The zero-point comparison as written.

  /**
   * As written, two int8 zero points compare equal exactly when they are equal or 128
   * apart: the wrapped difference of the latter is -128, whose int8 absolute value is
   * -128 again, below the tolerance.
   */
  lemma WrappedInt8Collapse(x: int, y: int)
    requires Fits(x, Int8) && Fits(y, Int8)
    ensures (WrappedAbsDiff(x, y, Int8) as real < ZeroPointTolerance) <==> x == y || x - y == 128 || y - x == 128
  {
    var w := CastTo(x - y, Int8);
    assert -255 <= x - y <= 255;
    if x - y >= 128 {
      assert w == x - y - 256;
    } else if x - y < -128 {
      assert w == x - y + 256;
    } else {
      assert w == x - y;
    }
  }

  /** The zero points 0 and -128 of two int8 tensors pass the source's comparison although they differ. */
  lemma AsWrittenCollapsesDistinctZeroPoints()
    ensures ZeroPointDiffAsWritten(Ints([0], Int8), Ints([-128], Int8)).Ok?
    ensures ZeroPointDiffAsWritten(Ints([0], Int8), Ints([-128], Int8)).value < ZeroPointTolerance
    ensures ZeroPointDiff(Ints([0], Int8), Ints([-128], Int8)) == Ok(128.0)
  {
    WrappedInt8Collapse(0, -128);
    var d := MaxWrappedAbsDiff([0], [-128], Int8).value;
    assert WrappedAbsDiff(0, -128, Int8) as real <= d;
    assert [0][Pick(1, 0)] == 0;
  }

  /** With the exact difference, integer zero points pass the comparison exactly when they are equal. */
  lemma ExactZeroPointsCollapse(x: int, y: int)
    ensures var d := ZeroPointDiff(Ints([x], Int8), Ints([y], Int8));
      d.Ok? && (d.value < ZeroPointTolerance <==> x == y)
  {
    var d := ZeroPointDiff(Ints([x], Int8), Ints([y], Int8)).value;
    assert [x][Pick(1, 0)] == x && [y][Pick(1, 0)] == y;
    assert Values(Ints([x], Int8)).value == [x as real];
    assert d == Abs(x as real - y as real);
  }
}
