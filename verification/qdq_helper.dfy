/**
 * The pure checks of the ONNX Runtime QDQ exporter: whether a configuration may be
 * written out at all (QDQHelper.TQC_Exportable_Check), which integer type stores its
 * offset (infer_qtype), and the casts into those types.
 */
module QdqHelper {
  import opened Quant
  import opened Graphs

  /**
   * The integer range an 8-bit LINEAR configuration must stay within: [0, 255] when
   * asymmetrical, [-128, 127] otherwise; any other configuration is not range-checked.
   */
  predicate RangeSafe(c: QuantConfig) {
    if c.numOfBits == 8 && c.Has(Linear) then
      if c.Has(Asymmetrical) then c.quantMax <= 255 && c.quantMin >= 0
      else c.quantMax <= 127 && c.quantMin >= -128
    else true
  }

  /** TQC_Exportable_Check: exportable state, not internal, and a safe 8-bit range. */
  predicate Exportable(c: QuantConfig) {
    CanExport(c) && c.visibility != Internal && RangeSafe(c)
  }

  /** The smallest and largest value a tensor of integer type `t` holds. */
  function Lowest(t: DType): int {
    match t
    case Int8 => -128
    case UInt8 => 0
    case Int32 => -0x8000_0000
    case Int64 => -0x8000_0000_0000_0000
    case Float32 => 0
  }

  function Width(t: DType): (w: nat)
    ensures t != Float32 ==> w > 0
  {
    match t
    case Int8 => 0x100
    case UInt8 => 0x100
    case Int32 => 0x1_0000_0000
    case Int64 => 0x1_0000_0000_0000_0000
    case Float32 => 0
  }

  /** `x` is representable in type `t` (integers are exact in the model's float type). */
  predicate Fits(x: int, t: DType) {
    t == Float32 || Lowest(t) <= x < Lowest(t) + Width(t)
  }

  /** A tensor cast `.type(t)`: integer types wrap around (two's complement), floats keep the value. */
  function CastTo(x: int, t: DType): (r: int)
    ensures Fits(r, t)
    ensures t != Float32 ==> (r - x) % Width(t) == 0
  {
    if t == Float32 then x else Lowest(t) + (x - Lowest(t)) % Width(t)
  }

  /** A cast changes no value that already fits the target type. */
  lemma CastKeepsFitting(x: int, t: DType)
    requires Fits(x, t)
    ensures CastTo(x, t) == x
  {
    if t != Float32 {
      assert 0 <= x - Lowest(t) < Width(t);
    }
  }

  /**
   * infer_qtype: the (offset, value) storage types. int8 by default, uint8 when
   * asymmetrical, int32 above 16 bits; the two always agree.
   */
  function InferQType(c: QuantConfig): (r: (DType, DType))
    ensures r.0 == r.1
    ensures r.0 in {Int8, UInt8, Int32}
    ensures r.0 == Int32 <==> c.numOfBits > 16
    ensures r.0 == UInt8 <==> c.numOfBits <= 16 && c.Has(Asymmetrical)
  {
    var t := if c.Has(Asymmetrical) then UInt8 else Int8;
    var t' := if c.numOfBits > 16 then Int32 else t;
    (t', t')
  }

  /**
   * The exportability check guarantees that an 8-bit LINEAR configuration's clamp range
   * is representable in the type infer_qtype picks for it (for a well-formed range,
   * quant_min <= quant_max: the check bounds each end on one side only).
   */
  lemma ExportableRangeFitsStorage(c: QuantConfig)
    requires Exportable(c) && c.numOfBits == 8 && c.Has(Linear) && c.quantMin <= c.quantMax
    ensures Fits(c.quantMin, InferQType(c).0) && Fits(c.quantMax, InferQType(c).0)
  {
  }

  /** A configuration that fails the range check is never exportable, whatever its state. */
  lemma UnsafeRangeNotExportable(c: QuantConfig)
    requires c.numOfBits == 8 && c.Has(Linear)
    requires if c.Has(Asymmetrical) then c.quantMin < 0 || c.quantMax > 255 else c.quantMin < -128 || c.quantMax > 127
    ensures !Exportable(c)
  {
  }
}
