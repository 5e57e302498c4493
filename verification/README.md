# PPQ quantized-model exporters, modelled in Dafny

PPQ (the PPL quantization tool) turns a quantized computation graph into files that an
inference back end can load. This project models the core of four of its exporters:

- **ONNX Runtime QDQ exporter** (`ppq/parser/onnxruntime_exporter.py`). It rewrites the
  graph in place:
  - it migrates opset 11 operations to opset 13;
  - it puts a QuantizeLinear/DequantizeLinear pair, or a Floating pair, around every
    exportable (configuration, variable) binding of every quantable operation;
  - it removes Relu and Clip activations whose output range is already clamped;
  - it collapses Dequantize-Quantize pairs that carry equal parameters (as written, int8
    zero points 128 apart also compare equal);
  - it builds the opset list of the exported model.
- **TensorRT QDQ exporter and TensorRT JSON exporter** (`ppq/parser/tensorRT.py`). The QDQ
  exporter gives weighted and pooling operations the QDQ pairs TensorRT expects. The JSON
  exporter writes the `act_quant_info` dynamic-range map and then picks the exporter for
  the model file.
- **Ascend exporter** (`ppq/parser/ascend_export.py`). It writes one text record per Conv
  and per Gemm, and dispatches the model file.
- **QNN DSP exporter** (`ppq/parser/qnn_exporter.py`). It writes the
  `activation_encodings` and `param_encodings` maps.

Layout:

- The graph (`graph.dfy`, module `Graphs`) is an arena `GraphState(ops, vars, outputs)`.
  - Operations and variables are addressed by index, and removal leaves a tombstone.
  - The structural invariant `Consistent` says that every index is in range, that a
    removed entry carries no links, that every link is recorded on both ends equally often,
    and that every produced variable is its producer's output.
  - `class Graph` holds the same state as fields. Its methods change it in place, and each
    is proved equal to a function on `GraphState`.
  - Every rewrite pass is a method on `Graph`, proved against a specification function.
    The properties of that function (what it inserts, what it removes, and that it keeps
    the graph `Consistent`) are proved as lemmas.
- The three text reports (`trt_json.dfy`, `ascend.dfy`, `qnn.dfy`) read the graph through
  `Views`: the operations in topological order, each with its variables, its
  configuration and its weight. Each report's loop is a method proved equal to a fold,
  and what the report contains is proved about the fold.
- `dispatch.dfy` models the `export` entry points:
  - the report is written when a report path is given;
  - the model file goes to the ONNX or the Caffe exporter, chosen by `os.path.splitext`
    of the model path and then by the framework the graph was read from.
- The quantization configuration (`quant.dfy`) is a plain record:
  - state, policy properties, visibility and bit widths;
  - scales as reals, offsets as integers, and `quant_min`/`quant_max`.
- Errors are values: `Result`/`Outcome` carry the Python exception class raised
  (`TypeError`, `RuntimeError`, `PermissionError`, `AssertionError`, `IndexError`, ...).
- Where the code does something other than what it evidently means (see "## Findings"),
  the function carries an `intended` flag. With `intended` false it does what the code
  does, and the passes, reports and entry points use that reading. With `intended` true it
  does the corrected thing, and the lemmas that take the flag hold for both readings. For
  example, `OrtDedup.RemoveDuplicated` compares int8 zero points with wrap-around, as at
  onnxruntime_exporter.py:329, and `OrtDedup.IntendedRemoveDuplicated` compares them exactly.

## Model

| member | source | states |
|---|---|---|
| QdqHelper.ExportableRangeFitsStorage | ppq/parser/onnxruntime_exporter.py:23-40 | an exportable 8-bit LINEAR configuration has its clamp range inside the integer type infer_qtype picks for it |
| QdqHelper.UnsafeRangeNotExportable | ppq/parser/onnxruntime_exporter.py:29-39 | an 8-bit LINEAR configuration outside [0,255] (asymmetrical) or [-128,127] (otherwise) is never exportable, whatever its state |
| QdqHelper.InferQType | ppq/parser/onnxruntime_exporter.py:82-90 | offset and value types agree; int32 exactly above 16 bits, uint8 exactly when asymmetrical and at most 16 bits, int8 otherwise |
| QdqHelper.CastTo | ppq/parser/onnxruntime_exporter.py:107 | `.type(t)` yields a value representable in `t`, congruent to the input modulo the type's width |
| QdqHelper.CastKeepsFitting | ppq/parser/onnxruntime_exporter.py:107 | a cast leaves a value that already fits the target type unchanged |
| Graphs.InsertBetweenEffect | ppq/parser/onnxruntime_exporter.py:120-121 | insert-between makes `ins` read `up` and write a new variable that only `down` reads, in the first slot where `down` read `up` |
| Graphs.InsertBetweenConsistent | ppq/parser/onnxruntime_exporter.py:120-121 | inserting a detached operation on an existing edge keeps the graph consistent |
| Graphs.InsertOnVarConsistent | ppq/parser/onnxruntime_exporter.py:122 | inserting a detached operation onto a live variable keeps the graph consistent |
| Graphs.RemoveAndRelinkEffect | ppq/parser/onnxruntime_exporter.py:289-291 | removing `o` and relinking drops `o` and its first output `b`; every other reader of `b` reads o's first input instead; `b` leaves the graph outputs |
| Graphs.RemoveAndRelinkConsistent | ppq/parser/onnxruntime_exporter.py:289-291 | remove-and-relink keeps the graph consistent |
| Graphs.LinkInputConsistent | ppq/parser/onnxruntime_exporter.py:124-125 | linking a live variable as a live operation's new last input keeps the graph consistent |
| Graphs.NewVariableConsistent | ppq/parser/onnxruntime_exporter.py:109-110 | creating a variable keeps the graph consistent |
| Graphs.NewOperationConsistent | ppq/parser/onnxruntime_exporter.py:111 | creating an operation keeps the graph consistent and leaves the new operation detached |
| Graphs.LinkedVariablesAlive | ppq/parser/onnxruntime_exporter.py:410 | in a consistent graph every variable an operation reads or writes is live |
| Graphs.Graph.CreateVariable | ppq/parser/onnxruntime_exporter.py:109-110 | the new variable gets the next index, and the state becomes the function NewVariable of the old state |
| Graphs.Graph.CreateOperation | ppq/parser/onnxruntime_exporter.py:111 | the new operation gets the next index, and the state becomes NewOperation of the old state |
| Graphs.Graph.CreateLinkWithOp | ppq/parser/onnxruntime_exporter.py:124-125 | the state becomes LinkInput of the old state |
| Graphs.Graph.InsertOpBetweenVarAndOp | ppq/parser/onnxruntime_exporter.py:120-121 | the state becomes InsertBetween of the old state |
| Graphs.Graph.InsertOpOnVar | ppq/parser/onnxruntime_exporter.py:122 | the state becomes InsertOnVar of the old state |
| Graphs.Graph.RemoveOperationAndRelink | ppq/parser/onnxruntime_exporter.py:289-291 | the state becomes RemoveAndRelink of the old state |
| Graphs.Graph.SetValue | ppq/parser/onnxruntime_exporter.py:435 | the state becomes WithValue of the old state; only that variable's value changes |
| OrtInsert.NodeKind | ppq/parser/onnxruntime_exporter.py:101-161 | LINEAR gives a Quantize/DequantizeLinear node, else FLOATING gives a Floating node, and a policy with neither fails with TypeError |
| OrtInsert.NodeAttrs | ppq/parser/onnxruntime_exporter.py:113-118 | LINEAR: `axis` 0 when per-tensor, the channel axis when per-channel only; FLOATING: min, max, exponent, mantissa, plus `axis` exactly when per-channel |
| OrtInsert.OffsetTensor | ppq/parser/onnxruntime_exporter.py:105-107 | the LINEAR offset constant holds each offset cast to infer_qtype's type; the FLOATING one holds the offsets as floats |
| OrtInsert.InsertQdq | ppq/parser/onnxruntime_exporter.py:92-161 | the insertion fails with TypeError exactly when the policy has no encoding; otherwise it adds one operation and three variables |
| OrtInsert.InsertOnVariable | ppq/parser/onnxruntime_exporter.py:92-127 | the method fails exactly when InsertQdq does, leaving the graph unchanged; on success it leaves InsertQdq's graph and returns its node |
| OrtInsert.InsertedNode | ppq/parser/onnxruntime_exporter.py:109-125 | the inserted node has the policy's type and reads the variable (or edge source), the new scale and the new offset; scale and offset are parameters holding the configuration's values |
| OrtInsert.InsertedOnEdge | ppq/parser/onnxruntime_exporter.py:120-121 | when `related_op` reads the variable, its first such slot reads the node's output, which it alone reads, and no other operation's inputs change |
| OrtInsert.InsertedOnVariable | ppq/parser/onnxruntime_exporter.py:122 | otherwise the variable feeds only the node, every former reader reads the node's output, and a graph output moves to it |
| OrtInsert.InsertQdqOutputs | ppq/parser/onnxruntime_exporter.py:120-122 | only a splice onto a variable changes the graph outputs, handing that variable over to the node's output |
| OrtInsert.InsertQdqPreserves | ppq/parser/onnxruntime_exporter.py:92-161 | no existing variable changes value, kind or liveness, and no existing operation changes type, configuration or liveness |
| OrtInsert.InsertQdqUntouched | ppq/parser/onnxruntime_exporter.py:120-122 | an operation that does not read the variable keeps its links |
| OrtInsert.InsertQdqConsistent | ppq/parser/onnxruntime_exporter.py:92-228 | an insertion on a live variable keeps the graph consistent |
| OrtMigrate.MigrateOp | ppq/parser/onnxruntime_exporter.py:370-382 | an opset 11 ReduceSum/Squeeze/Unsqueeze/Split loses its attribute and reads a new int64 parameter holding its values as last input, with an input meta appended; any other operation is left as it is |
| OrtMigrate.MigrateOn | ppq/parser/onnxruntime_exporter.py:361-382 | the loop on the graph object leaves exactly the state Migrate gives |
| OrtMigrate.MigrateFromEffect | ppq/parser/onnxruntime_exporter.py:369-382 | after the loop no operation is left in opset 11 form; untouched operations are unchanged; each migrated one reads a parameter holding the attribute's values |
| OrtMigrate.MigrateIdempotent | ppq/parser/onnxruntime_exporter.py:361-382 | migrating twice is migrating once |
| OrtMigrate.MigrateFromConsistent | ppq/parser/onnxruntime_exporter.py:369-382 | the migration keeps the graph consistent |
| Views.Zip | ppq/parser/onnxruntime_exporter.py:410 | the pairs of equal position, as many as the shorter list has |
| Views.ConfigWithVariable | ppq/parser/qnn_exporter.py:17 | position by position, input configurations paired with inputs, then output configurations paired with outputs |
| OrtConvert.Bindings | ppq/parser/onnxruntime_exporter.py:410 | config_with_variable of a graph operation: no binding without a configuration, input bindings first, each binding's variable among the operation's inputs or outputs |
| OrtConvert.Normalized | ppq/parser/onnxruntime_exporter.py:420-423 | the state override leaves no BAKED or PASSIVE_BAKED state and changes no other state |
| OrtConvert.ExportableNormalizedIsActivated | ppq/parser/onnxruntime_exporter.py:411-423 | after the override, every exportable configuration is activated: BAKED becomes ACTIVATED, PASSIVE_BAKED becomes PASSIVE |
| OrtConvert.ConvertBindingOutcomes | ppq/parser/onnxruntime_exporter.py:410-442 | a binding is skipped when not exportable or not selected; it fails only for a parameter with other than one reader (AssertionError) or a policy with no encoding (TypeError) |
| OrtConvert.ConvertOperationOn | ppq/parser/onnxruntime_exporter.py:384-442 | the method fails exactly when ConvertOperation does, and otherwise leaves its graph |
| OrtConvert.QuantThenDequantOnEdge | ppq/parser/onnxruntime_exporter.py:427-433 | on an input edge the chain is `v -> quantize -> dequantize -> o`, `o` reads the dequantize output where it read `v`, and no other operation changes |
| OrtConvert.QuantThenDequantOnVariable | ppq/parser/onnxruntime_exporter.py:437-442 | on an output `v`, every former reader reads the dequantize output, `v` feeds only the quantize node, and a graph output moves to the dequantize output |
| OrtConvert.DequantToIntOnEdge | ppq/parser/onnxruntime_exporter.py:432-435 | with quant_param_to_int only a dequantize node reads the parameter, `o` reads its output in the same slot, and a LINEAR parameter holds its integer form |
| OrtActivation.OutputRange | ppq/parser/onnxruntime_exporter.py:252-253 | range_min/range_max are the least value quant_min and the greatest value quant_max stand for over the channels scale and offset broadcast to (a one-entry list stretches); lists that do not broadcast, or broadcast to nothing, raise RuntimeError |
| OrtActivation.OutputRangeBroadcasts | ppq/parser/onnxruntime_exporter.py:252 | one scale 0.5 against offsets 0 and 10 with quant_min 0 gives range_min -5 |
| OrtActivation.Bound | ppq/parser/onnxruntime_exporter.py:261-266 | a Clip bound is its one value, none (infinite) when the input has no value, and `.item()` fails on any other size |
| OrtActivation.FindCandidates | ppq/parser/onnxruntime_exporter.py:241-269 | the first loop returns exactly Candidates of the graph |
| OrtActivation.CandidatesExactly | ppq/parser/onnxruntime_exporter.py:241-269 | the candidate list fails exactly when some operation cannot be judged, and otherwise holds exactly the operations judged candidates |
| OrtActivation.ReluCandidateIsIdentity | ppq/parser/onnxruntime_exporter.py:255-257 | for a Relu candidate with non-negative scales, every integer its output configuration holds stands for a value of zero or more, which Relu leaves unchanged |
| OrtActivation.ReluCandidateExactly | ppq/parser/onnxruntime_exporter.py:244-257 | a quantable asymmetric Relu is a candidate exactly when every channel's quant_min stands for zero or more |
| OrtActivation.ClipCandidateIsIdentity | ppq/parser/onnxruntime_exporter.py:259-269 | for a Clip candidate with non-negative scales, every integer its output configuration holds stands for a value inside the clip bounds |
| OrtActivation.Plan | ppq/parser/onnxruntime_exporter.py:273-289 | the second loop removes a candidate exactly when all its checks pass; missing inputs/outputs fail with IndexError, an output equal to the input with SelfLoop |
| OrtActivation.Rebound | ppq/parser/onnxruntime_exporter.py:285-287 | a graph output `b` is replaced by the input `a`; other outputs stay |
| OrtActivation.ElideEffect | ppq/parser/onnxruntime_exporter.py:284-299 | the candidate and its output are gone; a quantize node is `a`'s only reader and feeds a dequantize node whose output every former reader of `a` or `b` reads; graph outputs follow |
| OrtActivation.ElideOn | ppq/parser/onnxruntime_exporter.py:273-299 | one removal on the graph object leaves exactly Elide's graph |
| OrtActivation.RemoveActivationsOn | ppq/parser/onnxruntime_exporter.py:230-303 | remove_activation_ops on the graph object fails exactly when RemoveActivations does and otherwise leaves its graph |
| OrtActivation.RemoveActivationsConsistent | ppq/parser/onnxruntime_exporter.py:230-303 | remove_activation_ops keeps the graph consistent |
| Seqs.Broadcast | ppq/parser/onnxruntime_exporter.py:328-329 | two lengths broadcast exactly when equal or one is 1, to the length that is not 1; otherwise RuntimeError |
| OrtDedup.MaxAbsDiff | ppq/parser/onnxruntime_exporter.py:328 | the result is the largest absolute difference over the broadcast positions; it exists exactly when the shapes broadcast to a non-empty length |
| OrtDedup.FindPairs | ppq/parser/onnxruntime_exporter.py:318-323 | the first loop returns exactly Pairs of the graph |
| OrtDedup.PairsFromExactly | ppq/parser/onnxruntime_exporter.py:318-323 | the pairs are exactly the QuantizeLinear operations whose only upstream operation is a DequantizeLinear, with that operation |
| OrtDedup.MarkPairMeans | ppq/parser/onnxruntime_exporter.py:326-334 | under either zero-point reading, one pair fails exactly when it is stuck; otherwise it marks its Quantize and the operation after it when it compares equal, and nothing when not |
| OrtDedup.MarkPairs | ppq/parser/onnxruntime_exporter.py:325-334 | the second loop returns exactly MarksFrom of the pairs with the zero points compared as written |
| OrtDedup.MarksFromFails | ppq/parser/onnxruntime_exporter.py:326-334 | under either reading, the second loop fails exactly when some pair cannot be compared, or compares equal with other than one operation after its Quantize (the AssertionError at :333) |
| OrtDedup.MarksFromExactly | ppq/parser/onnxruntime_exporter.py:326-334 | under either reading, on success the marks are exactly the Quantize of each pair that compares equal and the operation after it |
| OrtDedup.CollapsibleMeans | ppq/parser/onnxruntime_exporter.py:328-330 | a pair collapses only when scales are within 1e-5 at every broadcast position; as written, zero points of one integer type then differ by a multiple of its width or wrap to its lowest value, and int8 zero points are equal or 128 apart; as intended, or across two integer types, they are equal |
| OrtDedup.RemoveOne | ppq/parser/onnxruntime_exporter.py:337-340 | removing a marked operation succeeds exactly when it has a first input and output that differ |
| OrtDedup.RemoveMarkedOn | ppq/parser/onnxruntime_exporter.py:336-340 | the third loop on the graph object leaves exactly RemoveFrom's graph |
| OrtDedup.RemoveDuplicatedOn | ppq/parser/onnxruntime_exporter.py:305-354 | remove_duplicated_quant_op on the graph object fails exactly when RemoveDuplicated (the as-written comparison) does, and otherwise leaves its graph |
| OrtDedup.RemoveDuplicatedEffect | ppq/parser/onnxruntime_exporter.py:318-340 | under either zero-point reading, removes the Quantize of every pair that compares equal and the operation after it, and no other operation |
| OrtDedup.RemoveDuplicatedConsistent | ppq/parser/onnxruntime_exporter.py:305-354 | remove_duplicated_quant_op keeps the graph consistent under either zero-point reading |
| OrtDedup.ZeroPointDiffAsWritten | ppq/parser/onnxruntime_exporter.py:329 | two integer zero-point tensors of one type are subtracted in that type (wrapping); anything else is subtracted exactly |
| OrtDedup.AsWrittenCollapsesDistinctZeroPoints | ppq/parser/onnxruntime_exporter.py:329-330 | int8 zero points 0 and -128 pass the comparison as written although they differ |
| OrtDedup.WrappedInt8Collapse | ppq/parser/onnxruntime_exporter.py:329-330 | as written, two int8 zero points pass exactly when equal or 128 apart |
| OrtDedup.ExactZeroPointsCollapse | ppq/parser/onnxruntime_exporter.py:329-330 | with the exact difference, integer zero points pass exactly when equal |
| OrtPrepare.ConvertAllOn | ppq/parser/onnxruntime_exporter.py:469-475 | the operation loop on the graph object fails exactly when ConvertFrom does and otherwise leaves its graph |
| OrtPrepare.PrepareGraphOn | ppq/parser/onnxruntime_exporter.py:444-482 | prepare_graph on the graph object fails exactly when PrepareGraph does and otherwise leaves its graph |
| OrtPrepare.ConvertOperationKeeps | ppq/parser/onnxruntime_exporter.py:384-442 | convert_operation keeps indices in range, keeps every variable's liveness, and keeps a consistent graph consistent |
| OrtPrepare.ConvertFromConsistent | ppq/parser/onnxruntime_exporter.py:469-475 | the operation loop keeps the graph consistent |
| OrtPrepare.PrepareGraphConsistent | ppq/parser/onnxruntime_exporter.py:444-482 | migration, conversion, activation removal and collapse together keep the graph consistent |
| OrtExport.BuildOpsets | ppq/parser/onnxruntime_exporter.py:535-551 | the two loops return the kept declared opsets, in order, followed by required_opsets |
| OrtExport.KeptExactly | ppq/parser/onnxruntime_exporter.py:538-545 | a declared opset is kept exactly when its domain is neither the default one nor a required one, in declared order |
| OrtExport.MergeOpsetsExactly | ppq/parser/onnxruntime_exporter.py:535-551 | the list holds exactly the kept declared opsets followed by the required ones, and ends with them |
| OrtExport.MergeOpsetsNoDefault | ppq/parser/onnxruntime_exporter.py:540 | no opset of the list is in the default domain unless the required list names it |
| OrtExport.ExportedOpsetsOneAiOnnx | ppq/parser/onnxruntime_exporter.py:357-359 | the model imports exactly one ai.onnx opset, version 13, and none in the default domain, whatever the graph declares |
| TrtInsert.Int8Offset | ppq/parser/tensorRT.py:77 | the offset constant holds each offset cast to int8, whatever the symmetry |
| TrtInsert.AxisAttrs | ppq/parser/tensorRT.py:90-92 | both nodes carry `axis` = channel axis exactly when per-channel, and no other attribute |
| TrtInsert.InsertOn | ppq/parser/tensorRT.py:52-109 | insert_quant_dequant_on_variable on the graph object leaves exactly the graph Insert describes |
| TrtInsert.InsertStepsIsInsert | ppq/parser/tensorRT.py:79-109 | the source's sequence of primitives leaves exactly the graph Insert describes |
| TrtInsert.StepsQuantizeNode | ppq/parser/tensorRT.py:79-100 | the Quantize node reads `v`, a scale and an int8 offset; only the Dequantize node reads its output; it has `axis` exactly when per-channel and FP32-to-INT8 metadata |
| TrtInsert.StepsDequantizeNode | ppq/parser/tensorRT.py:80-106 | the Dequantize node reads the Quantize output, its own scale and offset; only `o` reads its output; it has INT8-to-FP32 metadata |
| TrtInsert.StepsRewire | ppq/parser/tensorRT.py:82-83 | `o` reads the Dequantize output in the slot where it read `v`, `v` feeds the Quantize node instead, and nothing else changes |
| TrtInsert.InsertConsistent | ppq/parser/tensorRT.py:52-109 | an insertion on an existing edge keeps the graph consistent |
| TrtPrepare.PrepareOperationOn | ppq/parser/tensorRT.py:143-173 | the loop body on the graph object fails exactly when PrepareOperation does and otherwise leaves its graph |
| TrtPrepare.PrepareGraphOn | ppq/parser/tensorRT.py:111-175 | prepare_graph on the graph object fails exactly when PrepareGraph does and otherwise leaves its graph |
| TrtPrepare.PrepareOperationFails | ppq/parser/tensorRT.py:147-163 | a weighted or pooling operation fails first on too few input configurations (AssertionError), then on too few inputs (ValueError/IndexError); others fail exactly when convert_operation does |
| TrtPrepare.WeightedActivatedWrapped | ppq/parser/tensorRT.py:150-155 | with an activated data input, the data input and the weight each go through their own fresh QDQ pair, and the bias is untouched |
| TrtPrepare.WeightedInactiveWrapped | ppq/parser/tensorRT.py:153-155 | with a data input that is not activated, only the weight gets a QDQ pair, on the first slot reading it |
| TrtPrepare.PoolingWrapped | ppq/parser/tensorRT.py:157-166 | a pooling input gets a QDQ pair exactly when its configuration is activated; otherwise nothing changes |
| TrtPrepare.PrepareGraphConsistent | ppq/parser/tensorRT.py:111-175 | TensorRT prepare_graph keeps the graph consistent |
| TrtJson.TrtRange | ppq/parser/tensorRT.py:277 | the dynamic range scale·(quant_max − quant_min)/2 of a configuration with exactly one scale; other sizes fail |
| TrtJson.ExportQuantizationConfig | ppq/parser/tensorRT.py:262-294 | the loop builds exactly the report function Ranges |
| TrtJson.RangesUpToWriters | ppq/parser/tensorRT.py:266-291 | the mapped names are exactly those some operation writes, each mapped to its last writer's range |
| TrtJson.LastWriterWins | ppq/parser/tensorRT.py:266-291 | the report maps each name to the range written by the last operation that writes it |
| TrtJson.FirstOperationChecked | ppq/parser/tensorRT.py:272-278 | a report that does not fail has an ACTIVATED per-tensor configuration on a graph input at its first operation, and maps that input |
| TrtJson.FirstInputMustBeGraphInput | ppq/parser/tensorRT.py:273 | a first operation reading something other than a graph input makes the export fail |
| TrtJson.FirstOutputTakesInputRange | ppq/parser/tensorRT.py:279-281 | as written, the first operation's output gets its input's range (127.5), not its own (255) |
| TrtJson.IntendedOutputsOwnRange | ppq/parser/tensorRT.py:279-291 | corrected, every mapped output carries its last writer's own output range, the first operation included |
| Ascend.AdaptScale | ppq/parser/ascend_export.py:28-37 | the scale is clamped into [FLT_EPSILON, 1/FLT_EPSILON] and left alone inside it |
| Ascend.AdaptScaleMonotone | ppq/parser/ascend_export.py:28-37 | clamping is monotone and idempotent, and sends each out-of-range side to its bound |
| Ascend.CheckOffset | ppq/parser/ascend_export.py:39-41 | passes exactly for offsets in [-128, 127], otherwise RuntimeError |
| Ascend.GenerateShape | ppq/parser/ascend_export.py:43-55 | rank 2 gives (shape[1], 1, 1), rank 4 gives (shape[1], shape[2], shape[3]), any other rank RuntimeError |
| Ascend.InputLines | ppq/parser/ascend_export.py:69-78 | the scale_d/offset_d lines need an ACTIVATED per-tensor input configuration and an offset − 128 that fits a signed byte |
| Ascend.WeightScale | ppq/parser/ascend_export.py:82-84 | the weight scale is max(|min|, |max|)/127: every value lies within ±127 times it and some value is exactly +127 or -127 times it; an empty weight fails |
| Ascend.KernelLines | ppq/parser/ascend_export.py:80-85 | one clamped scale_w line per kernel, in order; fails exactly when some kernel is empty |
| Ascend.ScaleLines | ppq/parser/ascend_export.py:80-85 | the first kernel loop returns exactly KernelLines |
| Ascend.OffsetLines | ppq/parser/ascend_export.py:87-88 | the second kernel loop returns one offset_w line per kernel |
| Ascend.BuildConvRecord | ppq/parser/ascend_export.py:63-97 | the Conv branch returns exactly ConvRecord |
| Ascend.ExportQuantizationConfig | ppq/parser/ascend_export.py:58-154 | the loop over the operations returns exactly Records |
| Ascend.ConvFraming | ppq/parser/ascend_export.py:63-97 | a Conv record is framed, with one scale_w line per kernel followed by as many offset_w lines |
| Ascend.GemmFraming | ppq/parser/ascend_export.py:99-128 | a Gemm record is framed, with one scale_w line over the whole weight and one offset_w line |
| Ascend.RecordFraming | ppq/parser/ascend_export.py:64-78 | every record is framed and carries the clamped input scale and the shifted input offset |
| Ascend.RecordKey | ppq/parser/ascend_export.py:64-67 | the second line of a record is its key, the operation's name |
| Ascend.RecordsMatchConvAndGemm | ppq/parser/ascend_export.py:62-154 | exactly one record per Conv and per Gemm, in topological order, each that operation's record, keyed by its name |
| Ascend.PoolNeverRecorded | ppq/parser/ascend_export.py:130 | as written, an AveragePool with a valid configuration gets no record; with the branch taken it gets one |
| Ascend.IntendedRecordsMatch | ppq/parser/ascend_export.py:130-152 | corrected, the records are exactly those of Conv, Gemm, AveragePool and ConvTranspose, in order; a pooling record has no weight lines |
| Qnn.Bound | ppq/parser/qnn_exporter.py:34-35 | scale·(q − offset) element by element with broadcasting; lists of two other different lengths fail |
| Qnn.Entry | ppq/parser/qnn_exporter.py:32-38 | an entry holds bit width, max = scale·(quant_max − offset), min = scale·(quant_min − offset), offsets and scales |
| Qnn.VisitPairs | ppq/parser/qnn_exporter.py:17-42 | the inner loop returns exactly Resume of the maps over the operation's pairs |
| Qnn.ExportQuantizationConfig | ppq/parser/qnn_exporter.py:13-47 | the outer loop returns exactly Export of the order |
| Qnn.PermissionErrorExactly | ppq/parser/qnn_exporter.py:18-23 | with well-shaped configurations, the export fails exactly when some state cannot be exported, and then with PermissionError |
| Qnn.VisitEffect | ppq/parser/qnn_exporter.py:25-42 | one pair writes at most its variable's name, into the map its variable's kind selects, with its entry |
| Qnn.ActivationEntries | ppq/parser/qnn_exporter.py:31-42 | a name has an activation entry exactly when some pair would write it; the entry is that of the last overwriting pair, else of the first writing PASSIVE pair |
| Qnn.ParamEntries | ppq/parser/qnn_exporter.py:39-42 | a name has a parameter entry only when some parameter pair writes it, and then, if no activation pair shares the name, that of the last such pair |
| Qnn.ExportActivationEntries | ppq/parser/qnn_exporter.py:25-42 | the exported activation map: a PASSIVE pair never replaces an existing entry |
| Qnn.ExportParamEntries | ppq/parser/qnn_exporter.py:39-42 | the exported parameter map: each entry comes from a parameter pair of that name, the last one when no activation pair shares it |
| Dispatch.SplitExt | ppq/parser/tensorRT.py:323 | root + extension is the path; the extension is empty or a dot followed by neither dots nor slashes |
| Dispatch.SplitExtOf | ppq/parser/tensorRT.py:323 | a named root followed by an extension splits back into the two |
| Dispatch.HiddenFileHasNoExtension | ppq/parser/tensorRT.py:323 | `.onnx` and `models/.onnx` have no extension |
| Dispatch.ChooseExporter | ppq/parser/tensorRT.py:324-338 | ONNX exactly for `.onnx` or an ONNX-built graph without a Caffe extension; Caffe exactly for `.prototxt`/`.caffemodel` or a Caffe-built graph without `.onnx`; none otherwise |
| Dispatch.ExtensionWins | ppq/parser/ascend_export.py:165-171 | an explicit `.onnx`, `.prototxt` or `.caffemodel` extension wins over the framework the graph came from |
| Dispatch.HiddenFileFollowsFramework | ppq/parser/ascend_export.py:165-181 | a file named `.onnx` is exported in the graph's own format, or not at all |
| Dispatch.TrtExportWith | ppq/parser/tensorRT.py:319-338 | with a report path the export fails exactly when the range report does and returns it; without one it fails with TypeError unless corrected; the exporter is the chosen one |
| Dispatch.TrtExportNeedsConfigPath | ppq/parser/tensorRT.py:322 | as written, the export without a report path always fails with TypeError |
| Dispatch.IntendedTrtExportWithoutReport | ppq/parser/tensorRT.py:319-326 | corrected, the export of a `.onnx` path without a report path writes no ranges and goes to the ONNX exporter |
| Dispatch.TrtExportToOnnx | ppq/parser/tensorRT.py:319-326 | with a report path, a `.onnx` path gets the range report and the ONNX exporter |
| Dispatch.ReportPath | ppq/parser/ascend_export.py:59 | the record file name ends in `.txt` after a prefix of the report path |
| Dispatch.ReportPathOf | ppq/parser/ascend_export.py:59 | a report path `root.ext` puts the records in `root.txt` |
| Dispatch.AscendExport | ppq/parser/ascend_export.py:161-181 | without a report path nothing is written; with one the export fails exactly when the records do, writing them beside it; the exporter is the chosen one |
| Dispatch.AscendExportBesideReport | ppq/parser/ascend_export.py:161-171 | a report path `root.ext` and a model path `root.prototxt` give the records in `root.txt` and the Caffe exporter |

## Left out

- BaseGraph itself is not part of this model. Its primitives are given contracts that
  match their uses in the exporters:
  - `create_variable`, `create_operation` and `create_link_with_op`;
  - `insert_op_between_var_and_op` and `insert_op_on_var`;
  - `remove_operation` followed by `create_link_with_var`.
  `create_link_with_var` on a variable that is its own operation's input would not
  terminate; the model reports it as an error (`SelfLoop`).
- ppq.core is not part of this model. This covers the quantization states and their
  `can_export`/`is_activated` predicates, `TensorQuantizationConfig`,
  `config_with_variable` and `PPQLinearQuant_toInt`.
  - The predicates are written out from their documented meaning.
  - The integer form of a parameter is kept symbolic (`IntFormOf`).
- Floating point:
  - scales, ranges and differences are exact reals;
  - float32 rounding, `ppq_tensor_round` and the exactness of the 1e-5 tolerance are not
    modelled;
  - offsets are integers;
  - the textual rendering of a float in the Ascend records is a parameter.
- Iteration order:
  - `graph.operations` is iterated in creation (index) order;
  - `mark_to_remove` is a set, and its removals are performed in index order;
  - `graph.topological_sort()` is not part of this model: the reports take the order as a
    parameter.
  - `graph.outputs` is an insertion-ordered dictionary and is modelled as a set, so the
    order of the graph outputs is not modelled. The re-pointing of `b` to `a`
    (onnxruntime_exporter.py:286-288) pops `b` and appends `a` at the end, unless `a` is
    already an output. The model records only which variables are outputs
    (OrtActivation.Rebound, Graphs.InsertOnVar, Graphs.RemoveAndRelink).
- Tensor metadata: shapes recorded in the metadata of inserted nodes are the variable's
  shape and the length of the scale/offset lists. The scale tensor's own shape is not
  modelled.
- File output is not modelled:
  - JSON serialization and key order of the TensorRT and QNN reports;
  - the writing of the Ascend record file;
  - the TensorRT weight file content (tensorRT.py:296-316), apart from the TypeError its
    path raises without a report path;
  - the ONNX protobuf building and saving (onnxruntime_exporter.py:518-560), apart from
    the opset list.
- The TensorRT engine build (tensorRT.py:178-258) is not modelled. It calls into TensorRT
  and the file system.
- The ONNX and Caffe exporters are foreign code, as is the base class's
  `export_quantization_config` (onnxruntime_exporter.py:516). The model records only
  which exporter is called.
- `ppq_warning` and `ppq_info` logging is not modelled.
- OrtActivation.Candidate: a configuration whose scale or offset is not a tensor cannot be
  represented, because a configuration always holds them as lists; the skips at
  onnxruntime_exporter.py:249-250 are therefore not modelled.
- Qnn.PermissionErrorExactly: the if-and-only-if is stated for configurations whose scale
  and offset lists combine. Otherwise the tensor arithmetic may fail first.

## Findings

| source | as written | input that shows it | evidently intended | confidence | as-written member | corrected member |
|---|---|---|---|---|---|---|
| ppq/parser/onnxruntime_exporter.py:329-330 | zero points are subtracted and `abs`-ed in their own int8 type, so a difference of 128 wraps to -128, whose absolute value is -128 < 0.5 | int8 zero points 0 and -128 compare equal, and the Quantize/Dequantize pair is removed | zero points compare equal only when equal | not executed | OrtDedup.AsWrittenCollapsesDistinctZeroPoints | OrtDedup.ExactZeroPointsCollapse |
| ppq/parser/tensorRT.py:279-281 | the first operation's output is mapped to `trt_range_input`; `trt_range_output` is computed and unused | a Conv from graph input `x` (scale 1) to `y` (scale 2), 8-bit range [-128,127]: `y` gets 127.5 instead of 255 | the output gets the range of its own output configuration | not executed | TrtJson.FirstOutputTakesInputRange | TrtJson.IntendedOutputsOwnRange |
| ppq/parser/ascend_export.py:130 | `op.type == {"AveragePool", "ConvTranspose"}` compares a string with a set and is never true | an AveragePool with a valid ACTIVATED per-tensor configuration gets no record | AveragePool and ConvTranspose (the rest of ASCEND_QUANT_OP) get a record | not executed | Ascend.PoolNeverRecorded | Ascend.IntendedRecordsMatch |
| ppq/parser/tensorRT.py:322 | `export_weights` runs even when `config_path` is None, and `os.path.dirname(None)` raises TypeError | `export("m.onnx", graph)` with the default `config_path=None` | the weight file is written only beside a given report path | not executed | Dispatch.TrtExportNeedsConfigPath | Dispatch.IntendedTrtExportWithoutReport |
