/**
 * What the three text reports (the TensorRT range file, the Ascend record file and the QNN
 * encodings) read from the graph: its operations in topological order, each seen with the
 * names of its variables, its configuration and, for a weighted operation, its weight.
 *
 * BaseGraph.topological_sort is not part of this model: the reports take the order it
 * returns as a parameter.
 */
module Views {
  import opened Failures
  import opened Quant
  import opened Graphs

  /** A variable as the reports see it. */
  datatype VarView = VarView(name: string, isParameter: bool, shape: seq<int>)

  /**
   * An operation as the reports see it. `config` is present exactly for a quantable
   * operation; `weight` is the value of its first parameter split along the first axis
   * (one row per output kernel), absent when the operation has no parameter.
   */
  datatype OpView = OpView(
    name: string,
    kind: OpType,
    inputs: seq<VarView>,
    outputs: seq<VarView>,
    config: Option<OpConfig>,
    weight: Option<seq<seq<real>>>)

  /** Python's `zip`: the pairs of equal position, up to the shorter list. */
  function Zip(cs: seq<QuantConfig>, vs: seq<VarView>): (r: seq<(QuantConfig, VarView)>)
    ensures |r| == if |cs| <= |vs| then |cs| else |vs|
    ensures forall k :: 0 <= k < |r| ==> r[k] == (cs[k], vs[k])
  {
    if |cs| == 0 || |vs| == 0 then [] else [(cs[0], vs[0])] + Zip(cs[1..], vs[1..])
  }

  /**
   * QuantableOperation.config_with_variable: each input configuration with its input,
   * then each output configuration with its output.
   */
  function ConfigWithVariable(op: OpView): (r: seq<(QuantConfig, VarView)>)
    requires op.config.Some?
    ensures var c := op.config.value;
      |r| == |Zip(c.inputConfigs, op.inputs)| + |Zip(c.outputConfigs, op.outputs)|
    ensures var c := op.config.value;
      forall k :: 0 <= k < |Zip(c.inputConfigs, op.inputs)| ==> r[k] == (c.inputConfigs[k], op.inputs[k])
    ensures var c := op.config.value; var n := |Zip(c.inputConfigs, op.inputs)|;
      forall k :: 0 <= k < |Zip(c.outputConfigs, op.outputs)| ==> r[n + k] == (c.outputConfigs[k], op.outputs[k])
  {
    Zip(op.config.value.inputConfigs, op.inputs) + Zip(op.config.value.outputConfigs, op.outputs)
  }
}
