/**
 * export_quantization_config of the TensorRT JSON exporter: the `act_quant_info` map from
 * variable names to TensorRT dynamic ranges, scale·(quant_max − quant_min)/2, filled in
 * one pass over the operations in topological order.
 *
 * Shape, Gather, Unsqueeze, Concat and Reshape are passed over wherever they stand. The
 * operation at position 0 must read a graph input through an ACTIVATED per-tensor
 * configuration, and maps both that input and its own first output. Every later quantable
 * operation maps its first output to the range of its first output configuration; an
 * operation that is not quantable is passed over. A later write to a name replaces an
 * earlier one.
 */
module TrtJson {
  import opened Failures
  import opened Quant
  import opened Graphs
  import opened Views

  /** The types the report passes over: shape bookkeeping rather than quantized arithmetic. */
  predicate Skipped(op: OpView) {
    op.kind in {Shape, Gather, Unsqueeze, Concat, Reshape}
  }

  /** The dynamic range of a configuration; `scale.item()` needs exactly one scale. */
  function TrtRange(c: QuantConfig): (r: Result<real>)
    ensures r.Ok? <==> |c.scale| == 1
    ensures r.Fail? ==> r.error == RuntimeError
    ensures r.Ok? ==> r.value * 2.0 == c.scale[0] * (c.quantMax - c.quantMin) as real
    ensures r.Ok? && c.scale[0] >= 0.0 && c.quantMin <= c.quantMax ==> r.value >= 0.0
  {
    if |c.scale| == 1 then Ok(c.scale[0] * (c.quantMax - c.quantMin) as real / 2.0)
    else Fail(RuntimeError)
  }

  /** The range of an operation's first input configuration, or the error reading it raises. */
  function InputRange(op: OpView): Result<real> {
    if op.config.None? then Fail(AttributeError)
    else if |op.config.value.inputConfigs| == 0 then Fail(IndexError)
    else TrtRange(op.config.value.inputConfigs[0])
  }

  /** The range of an operation's first output configuration, or the error reading it raises. */
  function OutputRange(op: OpView): Result<real> {
    if op.config.None? then Fail(AttributeError)
    else if |op.config.value.outputConfigs| == 0 then Fail(IndexError)
    else TrtRange(op.config.value.outputConfigs[0])
  }

  /**
   * One iteration of the loop, for the operation at position `index`. With `intended`
   * false it is the exporter as written, which maps the first operation's output to the
   * range of its input; with `intended` true that output gets the range of its own
   * configuration, which the exporter computes and then leaves unused.
   */
  function Step(info: map<string, real>, op: OpView, index: nat, graphInputs: set<string>, intended: bool)
    : (r: Result<map<string, real>>)
  {
    if Skipped(op) then Ok(info)
    else if index == 0 then
      if |op.inputs| == 0 then Fail(IndexError)
      else if op.inputs[0].name !in graphInputs then Fail(AssertionError)
      else if op.config.None? then Fail(AttributeError)
      else if |op.config.value.inputConfigs| == 0 then Fail(IndexError)
      else
        var inputCfg := op.config.value.inputConfigs[0];
        if !(inputCfg.state == Activated && inputCfg.Has(PerTensor)) then Fail(AssertionError)
        else
          var rangeIn :- TrtRange(inputCfg);
          var rangeOut :- OutputRange(op);
          if |op.outputs| == 0 then Fail(IndexError)
          else Ok(info[op.inputs[0].name := rangeIn][op.outputs[0].name := if intended then rangeOut else rangeIn])
    else if op.config.None? then Ok(info)
    else
      var rangeOut :- OutputRange(op);
      if |op.outputs| == 0 then Fail(IndexError) else Ok(info[op.outputs[0].name := rangeOut])
  }

  /** The map after the first `n` operations of the order, or the first error raised. */
  function RangesUpTo(order: seq<OpView>, n: nat, graphInputs: set<string>, intended: bool): Result<map<string, real>>
    requires n <= |order|
  {
    if n == 0 then Ok(map[])
    else
      var info :- RangesUpTo(order, n - 1, graphInputs, intended);
      Step(info, order[n - 1], n - 1, graphInputs, intended)
  }

  /** The report as the exporter writes it. */
  function Ranges(order: seq<OpView>, graphInputs: set<string>): Result<map<string, real>> {
    RangesUpTo(order, |order|, graphInputs, false)
  }

  /** The report with the first operation's output given its own range. */
  function IntendedRanges(order: seq<OpView>, graphInputs: set<string>): Result<map<string, real>> {
    RangesUpTo(order, |order|, graphInputs, true)
  }

  /** An error raised part-way is the result of the whole pass. */
  lemma {:induction false} FailurePersists(order: seq<OpView>, i: nat, n: nat, graphInputs: set<string>, intended: bool)
    requires i <= n <= |order| && RangesUpTo(order, i, graphInputs, intended).Fail?
    ensures RangesUpTo(order, n, graphInputs, intended) == RangesUpTo(order, i, graphInputs, intended)
    decreases n
  {
    if i < n {
      FailurePersists(order, i, n - 1, graphInputs, intended);
    }
  }

  /** The exporter's loop, building `act_quant_info` entry by entry. */
  method ExportQuantizationConfig(order: seq<OpView>, graphInputs: set<string>) returns (res: Result<map<string, real>>)
    ensures res == Ranges(order, graphInputs)
  {
    var info: map<string, real> := map[];
    var index := 0;
    while index < |order|
      invariant index <= |order|
      invariant RangesUpTo(order, index, graphInputs, false) == Ok(info)
    {
      var op := order[index];
      ghost var before := info;
      if op.kind in {Shape, Gather, Unsqueeze, Concat, Reshape} {
        index := index + 1;
        continue;
      }
      if index == 0 {
        var failure := if |op.inputs| == 0 then Some(IndexError)
          else if op.inputs[0].name !in graphInputs then Some(AssertionError)
          else if op.config.None? then Some(AttributeError)
          else if |op.config.value.inputConfigs| == 0 then Some(IndexError)
          else None;
        if failure.Some? {
          res := Fail(failure.value);
          FailurePersists(order, index + 1, |order|, graphInputs, false);
          return;
        }
        var inputCfg := op.config.value.inputConfigs[0];
        if !(inputCfg.state == Activated && inputCfg.Has(PerTensor)) {
          res := Fail(AssertionError);
          FailurePersists(order, index + 1, |order|, graphInputs, false);
          return;
        }
        var rangeIn := TrtRange(inputCfg);
        if rangeIn.Fail? {
          res := Fail(rangeIn.error);
          FailurePersists(order, index + 1, |order|, graphInputs, false);
          return;
        }
        info := info[op.inputs[0].name := rangeIn.value];
        var rangeOut := OutputRange(op);
        if rangeOut.Fail? || |op.outputs| == 0 {
          res := if rangeOut.Fail? then Fail(rangeOut.error) else Fail(IndexError);
          FailurePersists(order, index + 1, |order|, graphInputs, false);
          return;
        }
        info := info[op.outputs[0].name := rangeIn.value];
      } else if op.config.Some? {
        var rangeOut := OutputRange(op);
        if rangeOut.Fail? || |op.outputs| == 0 {
          res := if rangeOut.Fail? then Fail(rangeOut.error) else Fail(IndexError);
          FailurePersists(order, index + 1, |order|, graphInputs, false);
          return;
        }
        info := info[op.outputs[0].name := rangeOut.value];
      }
      assert Step(before, op, index, graphInputs, false) == Ok(info);
      index := index + 1;
    }
    res := Ok(info);
  }

  // ---------------------------------------------------------------------------------
  // Which names the report maps, and to what.

  /** Whether the operation at position `index` writes the name `k` (in a pass that does not fail). */
  predicate OpWrites(op: OpView, index: nat, k: string) {
    && !Skipped(op) && |op.outputs| > 0
    && if index == 0 then |op.inputs| > 0 && (k == op.inputs[0].name || k == op.outputs[0].name)
       else op.config.Some? && k == op.outputs[0].name
  }

  /** Whether the operation at position `i` of the order writes the name `k`. */
  predicate Writes(order: seq<OpView>, i: nat, k: string)
    requires i < |order|
  {
    OpWrites(order[i], i, k)
  }

  /** The range the operation at position `i` writes for `k`. */
  function Written(op: OpView, i: nat, k: string, intended: bool): Result<real>
    requires |op.outputs| > 0
  {
    if i == 0 && !(intended && k == op.outputs[0].name) then InputRange(op) else OutputRange(op)
  }

  /** One iteration adds the names the operation writes, with their ranges, and keeps the rest. */
  lemma StepEffect(info: map<string, real>, op: OpView, index: nat, graphInputs: set<string>, intended: bool)
    requires Step(info, op, index, graphInputs, intended).Ok?
    ensures var r := Step(info, op, index, graphInputs, intended).value;
      && (forall k :: k in r <==> k in info || OpWrites(op, index, k))
      && (forall k :: OpWrites(op, index, k) ==> Written(op, index, k, intended) == Ok(r[k]))
      && (forall k :: k in info && !OpWrites(op, index, k) ==> r[k] == info[k])
  {
  }

  /**
   * After `n` operations, the mapped names are exactly those some operation writes, and
   * each is mapped to what the last operation writing it wrote.
   */
  lemma {:induction false} RangesUpToWriters(order: seq<OpView>, n: nat, graphInputs: set<string>, intended: bool)
    requires n <= |order| && RangesUpTo(order, n, graphInputs, intended).Ok?
    ensures var r := RangesUpTo(order, n, graphInputs, intended).value;
      && (forall k :: k in r <==> exists i :: 0 <= i < n && Writes(order, i, k))
      && (forall i, k :: 0 <= i < n && Writes(order, i, k) && (forall j :: i < j < n ==> !Writes(order, j, k))
            ==> Written(order[i], i, k, intended) == Ok(r[k]))
    decreases n
  {
    if n > 0 {
      var prev := RangesUpTo(order, n - 1, graphInputs, intended);
      assert prev.Ok?;
      RangesUpToWriters(order, n - 1, graphInputs, intended);
      StepEffect(prev.value, order[n - 1], n - 1, graphInputs, intended);
      var r := RangesUpTo(order, n, graphInputs, intended).value;
      forall k
        ensures k in r <==> exists i :: 0 <= i < n && Writes(order, i, k)
      {
        if Writes(order, n - 1, k) {
          assert k in r;
        }
      }
      forall i, k | 0 <= i < n && Writes(order, i, k) && (forall j :: i < j < n ==> !Writes(order, j, k))
        ensures Written(order[i], i, k, intended) == Ok(r[k])
      {
        if i < n - 1 {
          assert !Writes(order, n - 1, k);
          assert forall j :: i < j < n - 1 ==> !Writes(order, j, k);
          assert Written(order[i], i, k, intended) == Ok(prev.value[k]);
          assert r[k] == prev.value[k];
        }
      }
    }
  }

  /** The report's names and values: each name mapped to its last writer's range. */
  lemma LastWriterWins(order: seq<OpView>, graphInputs: set<string>)
    requires Ranges(order, graphInputs).Ok?
    ensures var r := Ranges(order, graphInputs).value;
      && (forall k :: k in r <==> exists i :: 0 <= i < |order| && Writes(order, i, k))
      && (forall i, k :: 0 <= i < |order| && Writes(order, i, k) && (forall j :: i < j < |order| ==> !Writes(order, j, k))
            ==> Written(order[i], i, k, false) == Ok(r[k]))
  {
    RangesUpToWriters(order, |order|, graphInputs, false);
  }

  /**
   * A report that does not fail has an ACTIVATED per-tensor configuration on a graph input
   * at its first operation (unless that one is passed over), and maps that input.
   */
  lemma FirstOperationChecked(order: seq<OpView>, graphInputs: set<string>)
    requires Ranges(order, graphInputs).Ok? && |order| > 0 && !Skipped(order[0])
    ensures var op := order[0];
      && |op.inputs| > 0 && op.inputs[0].name in graphInputs
      && op.config.Some? && |op.config.value.inputConfigs| > 0
      && op.config.value.inputConfigs[0].state == Activated
      && op.config.value.inputConfigs[0].Has(PerTensor)
      && op.inputs[0].name in Ranges(order, graphInputs).value
  {
    var r1 := RangesUpTo(order, 1, graphInputs, false);
    if r1.Fail? {
      FailurePersists(order, 1, |order|, graphInputs, false);
    }
    RangesUpToWriters(order, |order|, graphInputs, false);
    assert Writes(order, 0, order[0].inputs[0].name);
  }

  /** A first operation that reads something other than a graph input makes the export fail. */
  lemma FirstInputMustBeGraphInput(order: seq<OpView>, graphInputs: set<string>)
    requires |order| > 0 && !Skipped(order[0]) && |order[0].inputs| > 0
    requires order[0].inputs[0].name !in graphInputs
    ensures Ranges(order, graphInputs) == Fail(AssertionError)
  {
    FailurePersists(order, 1, |order|, graphInputs, false);
  }

  // ---------------------------------------------------------------------------------
  // The first operation's output.

  /** A one-operation graph: a Conv reading graph input `x` at scale 1 and writing `y` at scale 2. */
  function FirstConv(): OpView {
    var cfg := QuantConfig({Linear, PerTensor, Symmetrical}, 8, -128, 127, [1.0], [0], 0, 0, 0, Activated, ExportWhenActive);
    OpView("conv", Conv, [VarView("x", false, [1, 3, 8, 8])], [VarView("y", false, [1, 4, 8, 8])],
      Some(OpConfig([cfg], [cfg.(scale := [2.0])])), None)
  }

  /**
   * As written, the first operation's output is mapped to its input's range: `y` gets
   * 127.5 although its own configuration gives 255.
   */
  lemma FirstOutputTakesInputRange()
    ensures Ranges([FirstConv()], {"x"}) == Ok(map["x" := 127.5, "y" := 127.5])
    ensures OutputRange(FirstConv()) == Ok(255.0)
  {
    var op := FirstConv();
    assert Step(map[], op, 0, {"x"}, false) == Ok(map["x" := 127.5, "y" := 127.5]);
  }

  /**
   * With the correction, every mapped output name carries the range of the configuration
   * of the last operation that writes it, the first operation included.
   */
  lemma IntendedOutputsOwnRange(order: seq<OpView>, graphInputs: set<string>)
    requires IntendedRanges(order, graphInputs).Ok?
    ensures var r := IntendedRanges(order, graphInputs).value;
      forall i, k :: 0 <= i < |order| && Writes(order, i, k) && k == order[i].outputs[0].name
          && (forall j :: i < j < |order| ==> !Writes(order, j, k))
        ==> k in r && OutputRange(order[i]) == Ok(r[k])
  {
    RangesUpToWriters(order, |order|, graphInputs, true);
  }
}
