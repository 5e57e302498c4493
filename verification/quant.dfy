/**
 * The per-tensor quantization configuration (PPQ's TensorQuantizationConfig) and the
 * state/visibility/policy vocabulary the exporters consult.
 *
 * The enumerations and the two export predicates stand in for ppq.core, which is not
 * part of this model; their membership sets are stated once here.
 */
module Quant {

  /** One flag of a quantization policy; a policy is the set of its flags. */
  datatype Property =
    | Symmetrical | Asymmetrical
    | PerTensor | PerChannel
    | Linear | Floating
    | PowerOf2 | Dynamic

  /** The lifecycle state of a configuration. */
  datatype State =
    | Initial | Activated | Baked | Overlapped | Deactivated | Dequantized
    | Soi | Passive | PassiveInit | PassiveBaked | Fp32

  datatype Visibility = ForceExport | ExportWhenActive | Internal

  datatype QuantConfig = QuantConfig(
    policy: set<Property>,
    numOfBits: int,
    quantMin: int,
    quantMax: int,
    scale: seq<real>,      // one entry per channel, a single entry per tensor
    offset: seq<int>,      // one entry per channel, or a single entry broadcast over them
    channelAxis: int,
    exponentBits: int,
    mantissaBits: int,
    state: State,
    visibility: Visibility)
  {
    predicate Has(p: Property) { p in policy }
  }

  /** QuantizationStates.is_activated: the state is a live quantization. */
  predicate IsActivated(s: State) {
    s == Activated || s == Passive
  }

  /** QuantizationStates.can_export: the state is not an unfinished or switched-off one. */
  predicate StateCanExport(s: State) {
    s !in {Initial, Deactivated, Dequantized, PassiveInit}
  }

  /** TensorQuantizationConfig.can_export(): visible, and activated or baked. */
  predicate CanExport(c: QuantConfig) {
    c.visibility != Internal && (IsActivated(c.state) || c.state == Baked || c.state == PassiveBaked)
  }
}
