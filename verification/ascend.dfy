/**
 * export_quantization_config of the Ascend exporter: one text record per Conv and per Gemm,
 * in topological order, each a list of lines
 *
 *   record {
 *     key: "<operation name>"
 *     value {
 *       scale_d: <clamped input scale>
 *       offset_d: <input offset − 128>
 *       scale_w: <clamped weight scale>        (one per kernel for a Conv, one for a Gemm)
 *       offset_w: 0                            (as many as the scale_w lines)
 *       channels: <c>
 *       height: <h>
 *       width: <w>
 *     }
 *   }
 *
 * Records are kept as lists of `Line` values; `Text` gives the characters of each line.
 * Floating-point rendering (`str` of a float) is a parameter of `Text`, `render`; integers
 * render as Python's `str`.
 */
module Ascend {
  import opened Failures
  import opened Seqs
  import opened Quant
  import opened Graphs
  import opened Views

  /** FLT_EPSILON, 1.1920929e-7. */
  const FltEpsilon: real := 0.00000011920929

  /** The largest scale the device takes, 1 / FLT_EPSILON. */
  const FltMax: real := 1.0 / FltEpsilon

  /** adapt_scale: the scale clamped into [FLT_EPSILON, 1 / FLT_EPSILON]. */
  function AdaptScale(scale: real): (r: real)
    ensures FltEpsilon <= r <= FltMax
    ensures FltEpsilon <= scale <= FltMax ==> r == scale
  {
    if scale < FltEpsilon then FltEpsilon
    else if scale > FltMax then FltMax
    else scale
  }

  /** Clamping is monotone, and clamping twice is clamping once. */
  lemma AdaptScaleMonotone(a: real, b: real)
    requires a <= b
    ensures AdaptScale(a) <= AdaptScale(b)
    ensures AdaptScale(AdaptScale(a)) == AdaptScale(a)
    ensures a < FltEpsilon ==> AdaptScale(a) == FltEpsilon
    ensures a > FltMax ==> AdaptScale(a) == FltMax
  {
  }

  /** check_offset: the offset must fit a signed byte. */
  function CheckOffset(offset: int): (r: Outcome)
    ensures r == Pass <==> -128 <= offset <= 127
    ensures r.Raise? ==> r.error == RuntimeError
  {
    if offset > 127 || offset < -128 then Raise(RuntimeError) else Pass
  }

  /** generate_shape: (channels, height, width) of a rank-2 or rank-4 input. */
  function GenerateShape(shape: seq<int>): (r: Result<(int, int, int)>)
    ensures r.Ok? <==> |shape| == 2 || |shape| == 4
    ensures r.Fail? ==> r.error == RuntimeError
    ensures r.Ok? ==> r.value.0 == shape[1]
    ensures r.Ok? && |shape| == 2 ==> r.value.1 == 1 && r.value.2 == 1
    ensures r.Ok? && |shape| == 4 ==> r.value.1 == shape[2] && r.value.2 == shape[3]
  {
    if |shape| == 2 then Ok((shape[1], 1, 1))
    else if |shape| == 4 then Ok((shape[1], shape[2], shape[3]))
    else Fail(RuntimeError)
  }

  // ---------------------------------------------------------------------------------
  // The lines of a record.

  /** One line of a record; `Text` gives its characters. */
  datatype Line =
    | RecordOpen | Key(name: string) | ValueOpen
    | ScaleD(scale: real) | OffsetD(offset: int)
    | ScaleW(scale: real) | OffsetW
    | Channels(channels: int) | Height(height: int) | Width(width: int)
    | ValueClose | RecordClose

  /** The text of a line, newline included. */
  function Text(l: Line, render: real -> string): (r: string)
    ensures |r| > 0 && r[|r| - 1] == '\n'
  {
    match l
    case RecordOpen => "record {\n"
    case Key(name) => "  key: \"" + name + "\"\n"
    case ValueOpen => "  value {\n"
    case ScaleD(s) => "    scale_d: " + render(s) + "\n"
    case OffsetD(o) => "    offset_d: " + IntToString(o) + "\n"
    case ScaleW(s) => "    scale_w: " + render(s) + "\n"
    case OffsetW => "    offset_w: 0\n"
    case Channels(c) => "    channels: " + IntToString(c) + "\n"
    case Height(h) => "    height: " + IntToString(h) + "\n"
    case Width(w) => "    width: " + IntToString(w) + "\n"
    case ValueClose => "  }\n"
    case RecordClose => "}\n"
  }

  /** The three lines that open a record. */
  function Header(name: string): seq<Line> {
    [RecordOpen, Key(name), ValueOpen]
  }

  /** The five lines that close a record. */
  function Footer(channels: int, height: int, width: int): seq<Line> {
    [Channels(channels), Height(height), Width(width), ValueClose, RecordClose]
  }

  /**
   * The scale_d and offset_d lines of an operation's input: its first input configuration
   * must be ACTIVATED and per tensor, with one scale and one offset, and offset − 128 must
   * fit a signed byte.
   */
  function InputLines(op: OpView): (r: Result<seq<Line>>)
    ensures r.Ok? ==>
      && op.config.Some? && |op.config.value.inputConfigs| > 0
      && var c := op.config.value.inputConfigs[0];
      && c.state == Activated && c.Has(PerTensor) && |c.scale| == 1 && |c.offset| == 1
      && 0 <= c.offset[0] <= 255
      && r.value == [ScaleD(AdaptScale(c.scale[0])), OffsetD(c.offset[0] - 128)]
  {
    if op.config.None? then Fail(AttributeError)
    else if |op.config.value.inputConfigs| == 0 then Fail(IndexError)
    else
      var c := op.config.value.inputConfigs[0];
      if !(c.state == Activated && c.Has(PerTensor)) then Fail(AssertionError)
      else if |c.scale| != 1 || |c.offset| != 1 then Fail(RuntimeError)
      else
        var offsetD := c.offset[0] - 128;
        if CheckOffset(offsetD).Raise? then Fail(RuntimeError)
        else Ok([ScaleD(AdaptScale(c.scale[0])), OffsetD(offsetD)])
  }

  /** max(|min k|, |max k|) / 127 of a weight; `.min()` of an empty tensor raises. */
  function WeightScale(k: seq<real>): (r: Result<real>)
    ensures r.Ok? <==> |k| > 0
    ensures r.Fail? ==> r.error == RuntimeError
    ensures r.Ok? ==> r.value >= 0.0 && forall x :: x in k ==> -127.0 * r.value <= x <= 127.0 * r.value
    ensures r.Ok? ==> exists x :: x in k && (x == 127.0 * r.value || x == -127.0 * r.value)
  {
    if |k| == 0 then Fail(RuntimeError)
    else
      var lo, hi := Least(k), Greatest(k);
      var a := if lo < 0.0 then -lo else lo;
      var b := if hi < 0.0 then -hi else hi;
      Ok((if a >= b then a else b) / 127.0)
  }

  /** The scale_w lines of the kernels, in order, or the error of the first empty kernel. */
  function KernelLines(kernels: seq<seq<real>>): (r: Result<seq<Line>>)
    ensures r.Ok? <==> forall k :: 0 <= k < |kernels| ==> |kernels[k]| > 0
    ensures r.Fail? ==> r.error == RuntimeError
    ensures r.Ok? ==> |r.value| == |kernels|
    ensures r.Ok? ==> forall k :: 0 <= k < |kernels| ==> r.value[k] == ScaleW(AdaptScale(WeightScale(kernels[k]).value))
  {
    if |kernels| == 0 then Ok([])
    else
      var init :- KernelLines(kernels[..|kernels| - 1]);
      var s :- WeightScale(kernels[|kernels| - 1]);
      Ok(init + [ScaleW(AdaptScale(s))])
  }

  /** All entries of a weight, kernel after kernel. */
  function Flatten(kernels: seq<seq<real>>): (r: seq<real>)
    ensures forall k, x :: 0 <= k < |kernels| && x in kernels[k] ==> x in r
    ensures |r| == 0 <==> forall k :: 0 <= k < |kernels| ==> |kernels[k]| == 0
  {
    if |kernels| == 0 then [] else Flatten(kernels[..|kernels| - 1]) + kernels[|kernels| - 1]
  }

  /** The channels, height and width of the operation's first input, or the error of reading them. */
  function ShapeOf(op: OpView): Result<(int, int, int)> {
    if |op.inputs| == 0 then Fail(IndexError) else GenerateShape(op.inputs[0].shape)
  }

  /** `n` copies of a line. */
  function Repeat(l: Line, n: nat): (r: seq<Line>)
    ensures |r| == n && forall k :: 0 <= k < n ==> r[k] == l
  {
    if n == 0 then [] else Repeat(l, n - 1) + [l]
  }

  /** The record of a Conv: one scale_w line per kernel of its weight, and as many offset_w lines. */
  function ConvRecord(op: OpView): Result<seq<Line>> {
    var input :- InputLines(op);
    if op.weight.None? then Fail(IndexError)
    else
      var scales :- KernelLines(op.weight.value);
      var shape :- ShapeOf(op);
      Ok(Header(op.name) + (input + scales + Repeat(OffsetW, |op.weight.value|)) + Footer(shape.0, shape.1, shape.2))
  }

  /** The record of a Gemm: one scale_w line over its whole weight, and one offset_w line. */
  function GemmRecord(op: OpView): Result<seq<Line>> {
    var input :- InputLines(op);
    if op.weight.None? then Fail(IndexError)
    else
      var scale :- WeightScale(Flatten(op.weight.value));
      var shape :- ShapeOf(op);
      Ok(Header(op.name) + (input + [ScaleW(AdaptScale(scale)), OffsetW]) + Footer(shape.0, shape.1, shape.2))
  }

  /**
   * The record the AveragePool/ConvTranspose branch would write: no weight lines, and the
   * input shape unpacked as (_, channels, height, width).
   */
  function PoolRecord(op: OpView): Result<seq<Line>> {
    var input :- InputLines(op);
    if |op.inputs| == 0 then Fail(IndexError)
    else if |op.inputs[0].shape| != 4 then Fail(ValueError)
    else
      var shape := op.inputs[0].shape;
      Ok(Header(op.name) + input + Footer(shape[1], shape[2], shape[3]))
  }

  /**
   * Whether an operation gets a record. As written, the third branch compares the type
   * with a set and never holds, so only Conv and Gemm do; `intended` adds AveragePool and
   * ConvTranspose, the other members of ASCEND_QUANT_OP.
   */
  predicate Recorded(op: OpView, intended: bool) {
    op.kind == Conv || op.kind == Gemm || (intended && (op.kind == AveragePool || op.kind == ConvTranspose))
  }

  /** The record of an operation that gets one. */
  function RecordOf(op: OpView): Result<seq<Line>> {
    if op.kind == Conv then ConvRecord(op)
    else if op.kind == Gemm then GemmRecord(op)
    else PoolRecord(op)
  }

  /** `matched_nodes` after the first `n` operations of the order, or the first error raised. */
  function RecordsUpTo(order: seq<OpView>, n: nat, intended: bool): Result<seq<seq<Line>>>
    requires n <= |order|
  {
    if n == 0 then Ok([])
    else
      var records :- RecordsUpTo(order, n - 1, intended);
      var op := order[n - 1];
      if !Recorded(op, intended) then Ok(records)
      else
        var record :- RecordOf(op);
        Ok(records + [record])
  }

  /** The records as the exporter writes them. */
  function Records(order: seq<OpView>): Result<seq<seq<Line>>> {
    RecordsUpTo(order, |order|, false)
  }

  /** The records with the AveragePool/ConvTranspose branch taken. */
  function IntendedRecords(order: seq<OpView>): Result<seq<seq<Line>>> {
    RecordsUpTo(order, |order|, true)
  }

  // ---------------------------------------------------------------------------------
  // The exporter's loops.

  /** An error raised part-way is the result of the whole pass. */
  lemma {:induction false} FailurePersists(order: seq<OpView>, i: nat, n: nat, intended: bool)
    requires i <= n <= |order| && RecordsUpTo(order, i, intended).Fail?
    ensures RecordsUpTo(order, n, intended) == RecordsUpTo(order, i, intended)
    decreases n
  {
    if i < n {
      FailurePersists(order, i, n - 1, intended);
    }
  }

  /** The first loop over the kernels: one scale_w line each. */
  method ScaleLines(kernels: seq<seq<real>>) returns (res: Result<seq<Line>>)
    ensures res == KernelLines(kernels)
  {
    var lines: seq<Line> := [];
    var num := 0;
    while num < |kernels|
      invariant num <= |kernels|
      invariant KernelLines(kernels[..num]) == Ok(lines)
    {
      assert kernels[..num + 1][..num] == kernels[..num];
      var scale := WeightScale(kernels[num]);
      if scale.Fail? {
        assert KernelLines(kernels).Fail?;
        return Fail(scale.error);
      }
      lines := lines + [ScaleW(AdaptScale(scale.value))];
      num := num + 1;
    }
    assert kernels[..|kernels|] == kernels;
    res := Ok(lines);
  }

  /** The second loop over the kernels: one offset_w line each. */
  method OffsetLines(n: nat) returns (lines: seq<Line>)
    ensures lines == Repeat(OffsetW, n)
  {
    lines := [];
    var num := 0;
    while num < n
      invariant num <= n
      invariant lines == Repeat(OffsetW, num)
    {
      lines := lines + [OffsetW];
      num := num + 1;
    }
  }

  /** The Conv branch: the header and input lines, the two loops over the kernels, the shape. */
  method BuildConvRecord(op: OpView) returns (res: Result<seq<Line>>)
    ensures res == ConvRecord(op)
  {
    var input := InputLines(op);
    if input.Fail? {
      return Fail(input.error);
    }
    if op.weight.None? {
      return Fail(IndexError);
    }
    var scales := ScaleLines(op.weight.value);
    if scales.Fail? {
      return Fail(scales.error);
    }
    var offsets := OffsetLines(|op.weight.value|);
    var shape := ShapeOf(op);
    if shape.Fail? {
      return Fail(shape.error);
    }
    res := Ok(Header(op.name) + (input.value + scales.value + offsets) + Footer(shape.value.0, shape.value.1, shape.value.2));
  }

  /** The loop over the operations, appending one record per Conv and per Gemm. */
  method ExportQuantizationConfig(order: seq<OpView>) returns (res: Result<seq<seq<Line>>>)
    ensures res == Records(order)
  {
    var matched: seq<seq<Line>> := [];
    var i := 0;
    while i < |order|
      invariant i <= |order|
      invariant RecordsUpTo(order, i, false) == Ok(matched)
    {
      var op := order[i];
      if op.kind == Conv || op.kind == Gemm {
        var record;
        if op.kind == Conv {
          record := BuildConvRecord(op);
        } else {
          record := GemmRecord(op);
        }
        if record.Fail? {
          FailurePersists(order, i + 1, |order|, false);
          return Fail(record.error);
        }
        matched := matched + [record.value];
      }
      i := i + 1;
    }
    res := Ok(matched);
  }

  // ---------------------------------------------------------------------------------
  // What the records hold.

  /** A header, a middle and a footer, and where each line of the middle lands. */
  lemma Framed(h: seq<Line>, mid: seq<Line>, f: seq<Line>)
    requires |h| == 3 && |f| == 5
    ensures var r := h + mid + f;
      && |r| == 8 + |mid| && r[..3] == h && r[|r| - 2..] == f[3..]
      && forall j :: 0 <= j < |mid| ==> r[3 + j] == mid[j]
  {
    var r := h + mid + f;
    assert r[..3] == h;
    assert r[|r| - 2..] == f[3..];
  }

  /** Where the two weight blocks of a Conv record lie. */
  lemma Layout(h: seq<Line>, a: seq<Line>, b: seq<Line>, c: seq<Line>, f: seq<Line>)
    requires |h| == 3 && |a| == 2
    ensures var r := h + (a + b + c) + f;
      r[5..5 + |b|] == b && r[5 + |b|..5 + |b| + |c|] == c
  {
    var r := h + (a + b + c) + f;
    assert forall i :: 0 <= i < |b| ==> r[5..5 + |b|][i] == b[i];
    assert forall i :: 0 <= i < |c| ==> r[5 + |b|..5 + |b| + |c|][i] == c[i];
  }

  /** What every record holds: its frame, the clamped input scale and the shifted input offset. */
  predicate FramedRecord(op: OpView, r: seq<Line>)
    requires op.config.Some? && |op.config.value.inputConfigs| > 0
  {
    var c := op.config.value.inputConfigs[0];
    && |r| >= 10 && r[..3] == [RecordOpen, Key(op.name), ValueOpen] && r[|r| - 2..] == [ValueClose, RecordClose]
    && c.state == Activated && c.Has(PerTensor) && |c.scale| == 1 && |c.offset| == 1
    && 0 <= c.offset[0] <= 255
    && r[3] == ScaleD(AdaptScale(c.scale[0])) && r[4] == OffsetD(c.offset[0] - 128)
  }

  /** A Conv record has one scale_w line per kernel, then as many offset_w lines. */
  lemma ConvFraming(op: OpView)
    requires ConvRecord(op).Ok?
    ensures op.config.Some? && |op.config.value.inputConfigs| > 0 && op.weight.Some?
    ensures var r := ConvRecord(op).value;
      var k := |op.weight.value|;
      && FramedRecord(op, r)
      && |r| == 10 + 2 * k
      && r[5..5 + k] == KernelLines(op.weight.value).value
      && r[5 + k..5 + 2 * k] == Repeat(OffsetW, k)
  {
    var input := InputLines(op).value;
    var kernels := op.weight.value;
    var scales := KernelLines(kernels).value;
    var shape := ShapeOf(op).value;
    var offsets := Repeat(OffsetW, |kernels|);
    var mid := input + scales + offsets;
    var f := Footer(shape.0, shape.1, shape.2);
    var r := ConvRecord(op).value;
    assert r == Header(op.name) + mid + f;
    Framed(Header(op.name), mid, f);
    Layout(Header(op.name), input, scales, offsets, f);
  }

  /** A Gemm record has one scale_w line over the whole weight and one offset_w line. */
  lemma GemmFraming(op: OpView)
    requires GemmRecord(op).Ok?
    ensures op.config.Some? && |op.config.value.inputConfigs| > 0 && op.weight.Some?
    ensures var r := GemmRecord(op).value;
      && FramedRecord(op, r)
      && |r| == 12
      && r[5] == ScaleW(AdaptScale(WeightScale(Flatten(op.weight.value)).value)) && r[6] == OffsetW
  {
    var input := InputLines(op).value;
    var scale := WeightScale(Flatten(op.weight.value)).value;
    var shape := ShapeOf(op).value;
    var mid := input + [ScaleW(AdaptScale(scale)), OffsetW];
    var f := Footer(shape.0, shape.1, shape.2);
    assert GemmRecord(op).value == Header(op.name) + mid + f;
    Framed(Header(op.name), mid, f);
  }

  /** A pooling record has no weight lines. */
  lemma PoolFraming(op: OpView)
    requires PoolRecord(op).Ok?
    ensures op.config.Some? && |op.config.value.inputConfigs| > 0
    ensures FramedRecord(op, PoolRecord(op).value) && |PoolRecord(op).value| == 10
  {
    var input := InputLines(op).value;
    var shape := op.inputs[0].shape;
    var f := Footer(shape[1], shape[2], shape[3]);
    assert PoolRecord(op).value == Header(op.name) + input + f;
    Framed(Header(op.name), input, f);
  }

  /** Every record is framed and keyed by its operation's name. */
  lemma RecordFraming(op: OpView)
    requires RecordOf(op).Ok?
    ensures op.config.Some? && |op.config.value.inputConfigs| > 0
    ensures FramedRecord(op, RecordOf(op).value)
  {
    if op.kind == Conv {
      ConvFraming(op);
    } else if op.kind == Gemm {
      GemmFraming(op);
    } else {
      PoolFraming(op);
    }
  }

  /** The second line of a record is its key, the operation's name. */
  lemma RecordKey(op: OpView)
    requires RecordOf(op).Ok?
    ensures |RecordOf(op).value| > 1 && RecordOf(op).value[1] == Key(op.name)
  {
    RecordFraming(op);
    var r := RecordOf(op).value;
    assert r[..3][1] == r[1];
  }

  /** The operations that get a record, in order. */
  function Matched(order: seq<OpView>, intended: bool): (r: seq<OpView>)
    ensures forall op :: op in r ==> op in order && Recorded(op, intended)
  {
    if |order| == 0 then []
    else
      var op := order[|order| - 1];
      Matched(order[..|order| - 1], intended) + (if Recorded(op, intended) then [op] else [])
  }

  /** One record per matched operation, in order. */
  lemma {:induction false} RecordsUpToMatched(order: seq<OpView>, n: nat, intended: bool)
    requires n <= |order| && RecordsUpTo(order, n, intended).Ok?
    ensures var r := RecordsUpTo(order, n, intended).value;
      && |r| == |Matched(order[..n], intended)|
      && forall i :: 0 <= i < |r| ==> RecordOf(Matched(order[..n], intended)[i]) == Ok(r[i])
    decreases n
  {
    if n > 0 {
      RecordsUpToMatched(order, n - 1, intended);
      assert order[..n][..n - 1] == order[..n - 1];
      var op := order[n - 1];
      var r, prev := RecordsUpTo(order, n, intended).value, RecordsUpTo(order, n - 1, intended).value;
      var m, pm := Matched(order[..n], intended), Matched(order[..n - 1], intended);
      assert m == pm + (if Recorded(op, intended) then [op] else []);
      if Recorded(op, intended) {
        assert r == prev + [RecordOf(op).value];
        forall i | 0 <= i < |r|
          ensures RecordOf(m[i]) == Ok(r[i])
        {
          if i < |prev| {
            assert r[i] == prev[i] && m[i] == pm[i];
          }
        }
      } else {
        assert r == prev && m == pm;
      }
    }
  }

  /**
   * The exporter writes exactly one record per Conv and per Gemm, in topological order,
   * each the record of that operation, whose key is its name.
   */
  lemma RecordsMatchConvAndGemm(order: seq<OpView>)
    requires Records(order).Ok?
    ensures var r := Records(order).value;
      var m := Matched(order, false);
      && |r| == |m|
      && forall i :: 0 <= i < |r| ==>
          && (m[i].kind == Conv || m[i].kind == Gemm)
          && RecordOf(m[i]) == Ok(r[i]) && r[i][1] == Key(m[i].name)
  {
    RecordsUpToMatched(order, |order|, false);
    assert order[..|order|] == order;
    var r := Records(order).value;
    var m := Matched(order, false);
    forall i | 0 <= i < |r|
      ensures m[i].kind == Conv || m[i].kind == Gemm
      ensures r[i][1] == Key(m[i].name)
    {
      assert m[i] in m;
      RecordKey(m[i]);
    }
  }

  // ---------------------------------------------------------------------------------
  // The AveragePool/ConvTranspose branch.

  /** An AveragePool on a 1×8×4×4 input, with a configuration the record accepts. */
  function Pool(): OpView {
    var cfg := QuantConfig({Linear, PerTensor, Asymmetrical}, 8, 0, 255, [0.5], [128], 0, 0, 0, Activated, ExportWhenActive);
    OpView("pool", AveragePool, [VarView("x", false, [1, 8, 4, 4])], [VarView("y", false, [1, 8, 2, 2])],
      Some(OpConfig([cfg], [cfg])), None)
  }

  /**
   * As written, an AveragePool gets no record although its configuration is a valid one:
   * the branch meant for it never fires. With the branch taken it gets one.
   */
  lemma PoolNeverRecorded()
    ensures Records([Pool()]) == Ok([])
    ensures IntendedRecords([Pool()]).Ok? && |IntendedRecords([Pool()]).value| == 1
  {
    var op := Pool();
    assert InputLines(op).Ok?;
    assert RecordOf(op).Ok?;
  }

  /**
   * With the branch taken, the records are exactly those of the Conv, Gemm, AveragePool and
   * ConvTranspose operations, in order; a pooling record has no weight lines.
   */
  lemma IntendedRecordsMatch(order: seq<OpView>)
    requires IntendedRecords(order).Ok?
    ensures var r := IntendedRecords(order).value;
      var m := Matched(order, true);
      && |r| == |m|
      && forall i :: 0 <= i < |r| ==>
          && Recorded(m[i], true) && RecordOf(m[i]) == Ok(r[i])
          && (m[i].kind == AveragePool || m[i].kind == ConvTranspose ==> |r[i]| == 10)
  {
    RecordsUpToMatched(order, |order|, true);
    assert order[..|order|] == order;
    var r := IntendedRecords(order).value;
    var m := Matched(order, true);
    forall i | 0 <= i < |r|
      ensures Recorded(m[i], true)
      ensures m[i].kind == AveragePool || m[i].kind == ConvTranspose ==> |r[i]| == 10
    {
      assert m[i] in m;
      if m[i].kind == AveragePool || m[i].kind == ConvTranspose {
        assert RecordOf(m[i]) == PoolRecord(m[i]);
        PoolFraming(m[i]);
      }
    }
  }
}
