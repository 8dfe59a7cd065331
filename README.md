# OpenVINO plugin core, modelled in Dafny

This project models four pieces of OpenVINO's device plugins and proves
properties about them.

- **CPU inference requests** (`infer_request.cpp`). This covers:
  - the base class `InferRequestBase`: memory-state naming, the input
    precision rule, and `changeDefaultPtr`, which re-points graph edges at
    user buffers;
  - the legacy `LegacyInferRequest`;
  - the 2.0-API `InferRequest`.

  For both request classes the model covers `SetBatch`, `SetBlob` and
  `GetBlob`. These operations update the maps `_inputs`, `_outputs`,
  `externalPtr` and `_preProcData` and the field `m_curBatch`. Each is a
  method on a class. It is proved equal to a specification function over
  the maps (`Bindings`), and lemmas state properties of those functions.
  The graph is a class whose edge data pointers and node batch limits are
  arrays. The request updates those arrays in place.
- **CPU Reshape node** (`mkldnn_reshape_node.cpp`). This covers which
  operations the node accepts, its edge checks, the memory formats it
  offers per rank, and the primitive descriptors it enumerates from its
  parent's. `initSupportedPrimitiveDescriptors` is a method with the
  source's nested loops.
- **GPU reference concatenation kernel** (`concatenation_kernel_ref.cpp`).
  This covers:
  - its capability key;
  - the input and output dimension-order strings, built by a loop;
  - the in-place work-group fix-up of the base class's kernels;
  - its priority.
- **GPU int8 `b_fs_yx_fsv4` convolution kernel**
  (`convolution_kernel_b_fs_yx_fsv4_int8.cpp`). This covers:
  - its capability key;
  - `Validate`;
  - the priority rule;
  - the dispatch sizes;
  - the JIT constants, including the eight fused-operation slots.

Throws are modelled as `Result`/`Outcome` values that carry a `Failure`.
`Code` maps each failure to the `IE_THROW` kind it is raised as. When a
throw happens part way through an operation, the model returns the state
the source leaves behind at that point.

Some helpers are not part of this model. They enter as parameters:
- `preProcessingRequired`;
- `isCompatible`;
- `normalizeToSupportedPrecision`;
- the buffer the allocator returns;
- `MKLDNNMemory::Convert`;
- `GetConcatChannel` and the two `Channelndex` results;
- the base classes' JIT constants and validation verdicts;
- `MakeTypeJitConstants` and `MakeFusedOpsJitConstants`;
- the iteration order of `std::map`.

Some Inference Engine helpers are written out, because their behaviour is
fixed:
- `details::product` is 0 for no dimensions;
- `ngraph::shape_size` is 1 for a scalar;
- `getLayoutByRank`;
- `Align` rounds up to a multiple;
- `CeilDiv(a, b)` is `(a + b - 1) / b`.

One helper is assumed rather than written out. `findInputAndOutputBlobByName`
(legacy `SetBlob`, line 393, and `GetBlob`, line 536) is taken to report a
name's network input and network output independently. A name that is both
is found as both, so `SetBlob` runs both halves for it (lines 395-482). It is
also taken to succeed for every network input, so the throw at lines 536-538
cannot happen.

Files:
- `common.dfy`: `Option`, `Result`, `Outcome`.
- `text.dfy`: substring search and comma joining.
- `cpu_graph.dfy`: tensor descriptors, blobs, and the execution graph.
- `cpu_infer_base.dfy`: the shared request logic.
- `cpu_legacy_infer_request.dfy` and `cpu_infer_request.dfy`: the two request classes.
- `reshape_node.dfy`: the Reshape node.
- `kernel_selector.dfy`: kernel-selector vocabulary.
- `concatenation_kernel_ref.dfy`: the concatenation kernel.
- `convolution_kernel_fsv4_int8.dfy`: the convolution kernel.

## Model

| member | source | states |
|---|---|---|
| CpuGraph.ProductShapeSize | src/plugins/intel_cpu/src/infer_request.cpp:416-422 | For at least one dimension, the legacy element count (`details::product`) equals `shape_size`. |
| CpuGraph.AllocationDims | src/plugins/intel_cpu/src/infer_request.cpp:779 | An allocated blob has one dimension per port dimension. They are all zero for a dynamic shape. For a static shape they are the shape itself. |
| CpuGraph.ShapeCompatibleBounds | src/plugins/intel_cpu/src/infer_request.cpp:701-705 | A static shape is compatible exactly with its own dimensions. A blob whose dimension lies outside a bounded dimension's interval is incompatible, so SetBlob throws for it (lines 701 and 736). |
| CpuGraph.SetDynamicBatchLimits | src/plugins/intel_cpu/src/infer_request.cpp:370-372 | Afterwards every node's dynamic batch limit equals the new batch. |
| CpuInferBase.Rebind | src/plugins/intel_cpu/src/infer_request.cpp:438-444 | The name is in the zero-copy map exactly when eligible, and then it maps to the blob's buffer. Other names are unchanged. |
| CpuInferBase.RebindKeepsBound | src/plugins/intel_cpu/src/infer_request.cpp:438-444 | Binding a blob and deciding its zero-copy entry keeps every recorded pointer equal to the buffer of a blob bound under that name. |
| CpuInferBase.ExtendsTransitive | src/plugins/intel_cpu/src/infer_request.cpp:503-544 | Two steps, each keeping all bindings and adding at most one name, together keep all bindings and add at most that name. |
| CpuInferBase.StripStateSuffix | src/plugins/intel_cpu/src/infer_request.cpp:54-57 | The state name is a prefix of the id and never contains "/id=". It is the whole id when the marker is absent. Otherwise it ends just before the marker's first occurrence. |
| CpuInferBase.StripStateSuffixIdempotent | src/plugins/intel_cpu/src/infer_request.cpp:54-57 | Stripping twice is the same as stripping once. |
| CpuInferBase.MemoryStatesShape | src/plugins/intel_cpu/src/infer_request.cpp:45-60 | There is one state per MemoryInput node, and no state name contains the pair-id marker. |
| CpuInferBase.CollectMemoryStates | src/plugins/intel_cpu/src/infer_request.cpp:45-60 | The loop yields the stripped states of the MemoryInput nodes in node order. |
| CpuInferBase.CreateInferRequest | src/plugins/intel_cpu/src/infer_request.cpp:32-62 | Without a graph it throws. Otherwise it appends the graph's memory states to the existing ones. |
| CpuInferBase.NormToInputSupportedPrec | src/plugins/intel_cpu/src/infer_request.cpp:325-340 | U8 or BOOL data with a mean image becomes FP32. Anything else becomes the normalized precision. An UNSPECIFIED result throws, and no success is UNSPECIFIED. |
| CpuInferBase.SharesMemory | src/plugins/intel_cpu/src/infer_request.cpp:244-254 | The result is false exactly when every child edge is alive and holds a different pointer. True means an edge holds the pointer. It throws EmptyChildEdge exactly when an expired edge comes before any edge holding the pointer. |
| CpuInferBase.InputEdgesCanBeInPlace | src/plugins/intel_cpu/src/infer_request.cpp:212-258 | The result is true exactly when every child edge allows in-place use: it is alive, its child is not constant, an optimized concat, a split or in-place, and it shares no memory with its own child edges. Only EmptyChildEdge is thrown, and nothing is thrown when every child edge and every edge of those children is alive. |
| CpuInferBase.Repointed | src/plugins/intel_cpu/src/infer_request.cpp:259-266 | Exactly the listed edges now hold the new pointer. Every other edge is unchanged. |
| CpuInferBase.InputEntry | src/plugins/intel_cpu/src/infer_request.cpp:205-268 | A missing or expired first child edge throws EmptyChildEdge, the only failure. When the first child edge already holds the user pointer nothing changes. Otherwise, when every child allows in-place use, the result is every child edge re-pointed (Repointed); when all those edges are alive and some child forbids it, nothing changes. Only child edges ever change, and only to the user pointer. |
| CpuInferBase.FindEdgeHolding | src/plugins/intel_cpu/src/infer_request.cpp:291-301 | Some(k): edge k is alive and holds the pointer, and every earlier edge is alive and holds another. None exactly when every edge is alive and holds another pointer. EmptyParentEdge is thrown exactly when an expired edge comes before any edge holding the pointer. |
| CpuInferBase.FindEdgeHoldingAt | src/plugins/intel_cpu/src/infer_request.cpp:291-301 | When every edge before k is alive and holds another pointer, edge k decides the scan: Some(k) if it is alive and holds the pointer, a throw if it has expired. |
| CpuInferBase.ParentChainAllowsInPlace | src/plugins/intel_cpu/src/infer_request.cpp:281-302 | A true result means the producer has a single consumer and is neither constant nor in-place. Only EmptyParentEdge is thrown. The full reading along the walk is ParentChainIsWalk. |
| CpuInferBase.StepTarget | src/plugins/intel_cpu/src/infer_request.cpp:291-301 | The node a move of the walk reaches has a lower index than the node it leaves, so the do-while loop ends. |
| CpuInferBase.Walk | src/plugins/intel_cpu/src/infer_request.cpp:284-302 | The nodes visited start at the producer and all exist. |
| CpuInferBase.WalkSteps | src/plugins/intel_cpu/src/infer_request.cpp:284-302 | Each visited node but the last is single-use and moves to the producer of its first alive parent edge holding the default pointer, at a lower index; no move is possible from the last node. |
| CpuInferBase.ParentChainAtLast | src/plugins/intel_cpu/src/infer_request.cpp:284-302 | The outcome of the walk is the outcome of the chain test at its last node. |
| CpuInferBase.ParentChainIsWalk | src/plugins/intel_cpu/src/infer_request.cpp:281-302 | True exactly when every visited node is single-use and the last node's parent edges are all alive and hold other pointers. False exactly when the last node is not single-use. A throw exactly when the last node is single-use and an expired parent edge comes before any edge holding the pointer. |
| CpuInferBase.OutputEntry | src/plugins/intel_cpu/src/infer_request.cpp:270-305 | A missing or expired parent edge throws EmptyParentEdge, the only failure. When it already holds the user pointer nothing changes. Otherwise the result is the parent edge re-pointed when the producer chain allows in-place use, unchanged when it does not, and a throw when the chain test throws. Only that edge ever changes. |
| CpuInferBase.ChangeDefaultPtrSpec | src/plugins/intel_cpu/src/infer_request.cpp:202-309 | On success every entry names an input or an output. A first entry that is neither throws UnknownExternalName and leaves every edge unchanged. Every changed edge holds one of the recorded user pointers. |
| CpuInferBase.ChangeDefaultPtrSpecEntries | src/plugins/intel_cpu/src/infer_request.cpp:203-308 | No entries pass with the edges unchanged. One entry naming an input does InputEntry's work, one naming an output (and no input) does OutputEntry's, and any other name throws UnknownExternalName; a throw keeps the edges as they were. |
| CpuInferBase.ChangeDefaultPtrSpecAppend | src/plugins/intel_cpu/src/infer_request.cpp:203-308 | The entries are applied in order: running two lists one after the other is running the first and, only when it succeeds, the second from the edges it left; a throw keeps what the earlier entries did. |
| CpuInferBase.ChildSharesMemory | src/plugins/intel_cpu/src/infer_request.cpp:244-254 | The loop computes SharesMemory on the current edge pointers. |
| CpuInferBase.InputCanBeInPlace | src/plugins/intel_cpu/src/infer_request.cpp:212-258 | The loop computes InputEdgesCanBeInPlace. |
| CpuInferBase.RepointEdges | src/plugins/intel_cpu/src/infer_request.cpp:259-266 | The edge pointers become Repointed of the old ones. |
| CpuInferBase.FindParentEdge | src/plugins/intel_cpu/src/infer_request.cpp:291-301 | The loop computes FindEdgeHolding on the current edge pointers. |
| CpuInferBase.OutputCanBeInPlace | src/plugins/intel_cpu/src/infer_request.cpp:281-302 | The do-while walk computes ParentChainAllowsInPlace. |
| CpuInferBase.RepointInput | src/plugins/intel_cpu/src/infer_request.cpp:205-268 | The outcome and the new edge pointers are those of InputEntry; a throw changes no edge. By InputEntry's contract nothing changes when the first child edge already holds the pointer. |
| CpuInferBase.RepointOutput | src/plugins/intel_cpu/src/infer_request.cpp:270-305 | The outcome and the new edge pointers are those of OutputEntry; a throw changes no edge. |
| CpuInferBase.ChangeDefaultPtr | src/plugins/intel_cpu/src/infer_request.cpp:202-309 | The outcome and the new edge pointers are those of ChangeDefaultPtrSpec over `externalPtr` in key order. |
| CpuLegacyInferRequest.CheckBlobArgs | src/plugins/intel_cpu/src/infer_request.cpp:377-388 | Passes exactly when the name is non-empty, the blob exists, a non-compound blob has a buffer, and the size is non-zero. |
| CpuLegacyInferRequest.SetBlobArgumentErrors | src/plugins/intel_cpu/src/infer_request.cpp:377-388 | Each argument error throws its own failure and leaves all four maps unchanged. |
| CpuLegacyInferRequest.SetBlobChecksBlob | src/plugins/intel_cpu/src/infer_request.cpp:395-482 | After a successful SetBlob the blob matches every network input and output of that name: the same precision, the expected element count (1 for SCALAR, else the product of the dims) and the same dims. Each check is skipped where the source skips it. |
| CpuLegacyInferRequest.SetBlobBindsInput | src/plugins/intel_cpu/src/infer_request.cpp:426-444 | After a successful plain input SetBlob, `_inputs[name]` is the blob. `externalPtr[name]` is its buffer exactly when the descriptor matches the graph memory, there is no normalization and the batch limit is 0; otherwise the name is absent. Other keys are unchanged. |
| CpuLegacyInferRequest.SetBlobKeepsBound | src/plugins/intel_cpu/src/infer_request.cpp:375-483 | SetBlob keeps every zero-copy pointer bound, also when it throws part way. |
| CpuLegacyInferRequest.GetInputSpec | src/plugins/intel_cpu/src/infer_request.cpp:503-544 | On success the returned blob is the one bound under the name. |
| CpuLegacyInferRequest.GetOutputSpec | src/plugins/intel_cpu/src/infer_request.cpp:547-594 | A bound output is kept as it is. Otherwise a success binds only that name as an output: to the given input blob when there is one, else to a blob with the network output's normalized precision and dims and the allocator's buffer. A missing network output throws AbsentInNetworkOutputs. |
| CpuLegacyInferRequest.GetBlobKeepsBindings | src/plugins/intel_cpu/src/infer_request.cpp:485-599 | GetBlob never rebinds a bound name and binds at most the requested one. It keeps zero-copy pointers bound, and returns the blob bound under the name. |
| CpuLegacyInferRequest.GetBlobKeepsBound | src/plugins/intel_cpu/src/infer_request.cpp:485-599 | GetBlob keeps every zero-copy pointer bound. |
| CpuLegacyInferRequest.GetBlobIdempotent | src/plugins/intel_cpu/src/infer_request.cpp:503-526 | A second GetBlob of the same name, without preprocessing, returns the same blob and changes nothing, whatever the allocator returns. |
| CpuLegacyInferRequest.LegacyInferRequest.SetBatch | src/plugins/intel_cpu/src/infer_request.cpp:359-373 | Throws when dynamic batch is disabled, or the batch is below 1 or above the limit; the state is then unchanged. On success `m_curBatch` is the batch and every node's limit equals it. |
| CpuLegacyInferRequest.LegacyInferRequest.SetInput | src/plugins/intel_cpu/src/infer_request.cpp:395-446 | The maps become those of SetInputSpec. |
| CpuLegacyInferRequest.LegacyInferRequest.SetOutput | src/plugins/intel_cpu/src/infer_request.cpp:447-482 | The maps become those of SetOutputSpec. |
| CpuLegacyInferRequest.LegacyInferRequest.SetBlob | src/plugins/intel_cpu/src/infer_request.cpp:375-483 | The outcome and the maps are those of SetBlobSpec. |
| CpuLegacyInferRequest.LegacyInferRequest.GetInput | src/plugins/intel_cpu/src/infer_request.cpp:503-544 | The result and the maps are those of GetInputSpec. |
| CpuLegacyInferRequest.LegacyInferRequest.GetOutput | src/plugins/intel_cpu/src/infer_request.cpp:547-594 | The maps are those of GetOutputSpec. |
| CpuLegacyInferRequest.LegacyInferRequest.OutputOrInput | src/plugins/intel_cpu/src/infer_request.cpp:547-598 | The result and the maps are those of OutputOrInputBlob: the output half for an output name, the input's blob otherwise. |
| CpuLegacyInferRequest.LegacyInferRequest.GetBlob | src/plugins/intel_cpu/src/infer_request.cpp:485-599 | The result and the maps are those of GetBlobSpec. |
| CpuInferRequest.PortDescElements | src/plugins/intel_cpu/src/infer_request.cpp:768-799 | A blob allocated for a dynamic port holds no elements. One for a static port has the port's shape and `shape_size` elements. |
| CpuInferRequest.SetBlobInputFirst | src/plugins/intel_cpu/src/infer_request.cpp:669-684 | The name is resolved against the model inputs first, then the outputs. A name in both is bound as an input only; a name only in the outputs is bound as an output only. |
| CpuInferRequest.SetBlobRejects | src/plugins/intel_cpu/src/infer_request.cpp:659-684 | An empty name throws EmptyName and a null blob NullBlob. A name whose model port is a null node throws NullModelNode. A name in neither map throws NoSuchInputOutput, raised as NotFound. None of these changes the bindings. |
| CpuInferRequest.SetBlobChecksBlob | src/plugins/intel_cpu/src/infer_request.cpp:692-754 | A successful SetBlob has checked the precision and the shape compatibility, for a static port the element count, and that an output blob is not compound. |
| CpuInferRequest.SetBlobKeepsBound | src/plugins/intel_cpu/src/infer_request.cpp:659-755 | SetBlob keeps every zero-copy pointer bound. |
| CpuInferRequest.GetBlobKeepsBindings | src/plugins/intel_cpu/src/infer_request.cpp:757-856 | GetBlob never rebinds a bound name and binds at most the requested one. It keeps zero-copy pointers bound even when it throws part way, and returns the bound blob. |
| CpuInferRequest.GetBlobKeepsBound | src/plugins/intel_cpu/src/infer_request.cpp:757-856 | GetBlob keeps every zero-copy pointer bound. |
| CpuInferRequest.GetBlobIdempotent | src/plugins/intel_cpu/src/infer_request.cpp:768-799 | A second GetBlob of the same name returns the same blob and changes nothing. |
| CpuInferRequest.GetBlobDynamicInput | src/plugins/intel_cpu/src/infer_request.cpp:776-785 | An input blob allocated for a dynamic port has rank-many zero dims and is never recorded for zero-copy. |
| CpuInferRequest.InferRequest.SetBatch | src/plugins/intel_cpu/src/infer_request.cpp:643-657 | Throws for batch limit 0. With a limit, an empty input map or a null first input throws, a static first input throws, and so does a batch below 1 or above the limit; the state is then unchanged. It succeeds exactly otherwise, and then `m_curBatch` and every node's limit equal the batch. |
| CpuInferRequest.InferRequest.SetBlob | src/plugins/intel_cpu/src/infer_request.cpp:659-755 | The outcome and the maps are those of SetBlobSpec. |
| CpuInferRequest.InferRequest.SetInput | src/plugins/intel_cpu/src/infer_request.cpp:692-724 | The maps become those of SetInputSpec. |
| CpuInferRequest.InferRequest.SetOutput | src/plugins/intel_cpu/src/infer_request.cpp:725-754 | The maps become those of SetOutputSpec. |
| CpuInferRequest.InferRequest.GetInput | src/plugins/intel_cpu/src/infer_request.cpp:763-801 | The result and the maps are those of GetInputSpec. |
| CpuInferRequest.InferRequest.GetOutput | src/plugins/intel_cpu/src/infer_request.cpp:803-849 | The result and the maps are those of GetOutputSpec. |
| CpuInferRequest.InferRequest.GetBlob | src/plugins/intel_cpu/src/infer_request.cpp:757-856 | The result and the maps are those of GetBlobSpec. |
| Reshape.DataFormats | inference-engine/src/mkldnn_plugin/nodes/mkldnn_reshape_node.cpp:57-75 | The list is never empty and starts with the plain order. Ranks 1-6 give [a], [ab, ba], [abc, acb], [abcd, acdb], [abcde] and [abcdef]. Every other rank gives [undef]. |
| Reshape.DataFormatsAreDimOrders | inference-engine/src/mkldnn_plugin/nodes/mkldnn_reshape_node.cpp:57-75 | Every tag offered for ranks 1-6 orders the dimensions: each exactly once. |
| Reshape.IsSupportedOperation | inference-engine/src/mkldnn_plugin/nodes/mkldnn_reshape_node.cpp:15-31 | The result is true exactly for static Reshape, Squeeze and Unsqueeze. A dynamic op or any other op type gets its own message. |
| Reshape.ConstructionCheck | inference-engine/src/mkldnn_plugin/nodes/mkldnn_reshape_node.cpp:33-39 | The constructor throws exactly for unsupported operations, as a NotImplemented exception with a non-empty message. |
| Reshape.SettledPrecisions | inference-engine/src/mkldnn_plugin/nodes/mkldnn_reshape_node.cpp:81-87 | The input precision is forced to equal the output precision. |
| Reshape.ReshapeNode.GetSupportedDescriptors | inference-engine/src/mkldnn_plugin/nodes/mkldnn_reshape_node.cpp:50-55 | Passes exactly with 1 or 2 parent edges and at least one child edge. The input-edge error is reported first. |
| Reshape.ReshapeNode.ConfigFor | inference-engine/src/mkldnn_plugin/nodes/mkldnn_reshape_node.cpp:99-113 | There is one input config per parent edge, each with inPlace -1, not constant and the input data type. The first uses the parent descriptor's dims and format; each later one uses its own parent edge's dims and the default format. There is one output config with inPlace 0, not constant, the child edge's dims, the output data type and the output format. |
| Reshape.ReshapeNode.ParentConfigsAt | inference-engine/src/mkldnn_plugin/nodes/mkldnn_reshape_node.cpp:98-115 | Within one parent descriptor's block, config j is the one for output format j. |
| Reshape.ReshapeNode.ConfigsOrder | inference-engine/src/mkldnn_plugin/nodes/mkldnn_reshape_node.cpp:93-116 | Config number i·\|formats\|+j is the one for parent descriptor i and format j: the nested loop order. |
| Reshape.ReshapeNode.ConfigsCount | inference-engine/src/mkldnn_plugin/nodes/mkldnn_reshape_node.cpp:93-116 | Exactly \|parent descriptors\| × \|formats\| configs are produced. |
| Reshape.ReshapeNode.ConfigsShape | inference-engine/src/mkldnn_plugin/nodes/mkldnn_reshape_node.cpp:99-113 | Every config has the shape ConfigFor states. |
| Reshape.ReshapeNode.BuildConfig | inference-engine/src/mkldnn_plugin/nodes/mkldnn_reshape_node.cpp:99-113 | The loop over parent edges builds ConfigFor. |
| Reshape.ReshapeNode.InitSupportedPrimitiveDescriptors | inference-engine/src/mkldnn_plugin/nodes/mkldnn_reshape_node.cpp:77-117 | A non-empty list is returned untouched. Otherwise the list becomes Configs of the parent's descriptors with the rank's formats. |
| Reshape.ReshapeNode.AppendParentConfigs | inference-engine/src/mkldnn_plugin/nodes/mkldnn_reshape_node.cpp:98-115 | The inner loop appends one config per format. |
| Reshape.ReshapeNode.CreatePrimitive | inference-engine/src/mkldnn_plugin/nodes/mkldnn_reshape_node.cpp:119-128 | Passes exactly when both edges exist, both memories are allocated and a descriptor is selected, and has no effect. Otherwise it throws for the first missing piece in the source's order: child edge, parent edge, destination memory, input memory, selected descriptor. |
| KernelSelector.Align | src/plugins/intel_gpu/src/kernel_selector/core/actual_kernels/concatenation/concatenation_kernel_ref.cpp:110 | The result is the least multiple of n that is not below x. |
| KernelSelector.CeilDivCovers | src/plugins/intel_gpu/src/kernel_selector/core/actual_kernels/convolution/convolution_kernel_b_fs_yx_fsv4_int8.cpp:41 | CeilDiv(a, b) blocks of b cover a, with less than one block to spare. |
| ConcatenationKernelRef.SupportedKeyIsSymmetric | src/plugins/intel_gpu/src/kernel_selector/core/actual_kernels/concatenation/concatenation_kernel_ref.cpp:12-60 | Input and output data types are the same six. Input and output layouts are the same twelve. The axes are exactly batch, feature, y and x. |
| ConcatenationKernelRef.OutputDim | src/plugins/intel_gpu/src/kernel_selector/core/actual_kernels/concatenation/concatenation_kernel_ref.cpp:86-90 | Only the dimension whose channel is the axis is shifted by the concat offset. |
| ConcatenationKernelRef.OutputDims | src/plugins/intel_gpu/src/kernel_selector/core/actual_kernels/concatenation/concatenation_kernel_ref.cpp:77-91 | There is one output name per dimension, in order. |
| ConcatenationKernelRef.DimsOrders | src/plugins/intel_gpu/src/kernel_selector/core/actual_kernels/concatenation/concatenation_kernel_ref.cpp:82-91 | The loop builds the comma-joined input names and the comma-joined output names, with no trailing comma. |
| ConcatenationKernelRef.InputDimsOrderIsFixed | src/plugins/intel_gpu/src/kernel_selector/core/actual_kernels/concatenation/concatenation_kernel_ref.cpp:74-85 | INPUT_DIMS_ORDER is always "d3,d2,d1,d0". |
| ConcatenationKernelRef.OutputDimsOrderOffAxis | src/plugins/intel_gpu/src/kernel_selector/core/actual_kernels/concatenation/concatenation_kernel_ref.cpp:77-91 | For an axis that is none of batch, feature, y and x, the two orders are equal. |
| ConcatenationKernelRef.OutputDimsOrderOnAxis | src/plugins/intel_gpu/src/kernel_selector/core/actual_kernels/concatenation/concatenation_kernel_ref.cpp:77-91 | Along one of the four axes the output differs from the input in exactly that axis' item, which is shifted. |
| ConcatenationKernelRef.OutputDimsOrderAlongFeature | src/plugins/intel_gpu/src/kernel_selector/core/actual_kernels/concatenation/concatenation_kernel_ref.cpp:84-91 | Along the features, the output order is "d3,(d2 + output_offset_in_concat_axis),d1,d0". |
| ConcatenationKernelRef.KernelJit | src/plugins/intel_gpu/src/kernel_selector/core/actual_kernels/concatenation/concatenation_kernel_ref.cpp:66-96 | CHECK_FEATURES=1 and FEATURE_CHANNEL come first when the feature count is not 1. INPUT_DIMS_ORDER, OUTPUT_DIMS_ORDER and INPUT_DIM_0 always come last. |
| ConcatenationKernelRef.FeatureCheckOnlyForManyFeatures | src/plugins/intel_gpu/src/kernel_selector/core/actual_kernels/concatenation/concatenation_kernel_ref.cpp:66-70 | CHECK_FEATURES and FEATURE_CHANNEL are defined exactly when the first input's feature count is not 1. |
| ConcatenationKernelRef.GetJitConstants | src/plugins/intel_gpu/src/kernel_selector/core/actual_kernels/concatenation/concatenation_kernel_ref.cpp:62-99 | The result is the base constants followed by KernelJit, with the two joined orders. |
| ConcatenationKernelRef.AlignedWorkGroups | src/plugins/intel_gpu/src/kernel_selector/core/actual_kernels/concatenation/concatenation_kernel_ref.cpp:108-112 | A kernel with local[0] == 1 and global[1] != 1 gets local[1] = 32 and global[1] rounded up to a multiple of 32. All other entries and all other kernels are unchanged. |
| ConcatenationKernelRef.AlignedWorkGroupsIdempotent | src/plugins/intel_gpu/src/kernel_selector/core/actual_kernels/concatenation/concatenation_kernel_ref.cpp:108-112 | Applying the fix-up twice is applying it once. |
| ConcatenationKernelRef.AlignedWorkGroupsAvoidUnitLocal | src/plugins/intel_gpu/src/kernel_selector/core/actual_kernels/concatenation/concatenation_kernel_ref.cpp:108-112 | Afterwards no kernel spread over dimension 1 has a 1×1 local size in dimensions 0 and 1. |
| ConcatenationKernelRef.Kernels.AlignAll | src/plugins/intel_gpu/src/kernel_selector/core/actual_kernels/concatenation/concatenation_kernel_ref.cpp:105-113 | Every kernel's work sizes become AlignedWorkGroups of the old ones, in place. |
| ConcatenationKernelRef.GetKernelsData | src/plugins/intel_gpu/src/kernel_selector/core/actual_kernels/concatenation/concatenation_kernel_ref.cpp:101-117 | The kernels of the first kernel data get the fix-up. An empty result is returned as it is. |
| ConcatenationKernelRef.GetKernelsPriority | src/plugins/intel_gpu/src/kernel_selector/core/actual_kernels/concatenation/concatenation_kernel_ref.cpp:119-121 | The priority is never a forced level: the kernel is always DONT_USE_IF_HAVE_SOMETHING_ELSE. |
| ConvolutionFsv4Int8.SupportedKeyIsInt8Fsv4 | src/plugins/intel_gpu/src/kernel_selector/core/actual_kernels/convolution/convolution_kernel_b_fs_yx_fsv4_int8.cpp:13-36 | Inputs are INT8 or UINT8 only, and weights INT8 only. Input and output layouts are only b_fs_yx_fsv4. Every input type is also an output type. |
| ConvolutionFsv4Int8.ValidateIff | src/plugins/intel_gpu/src/kernel_selector/core/actual_kernels/convolution/convolution_kernel_b_fs_yx_fsv4_int8.cpp:61-81 | Validate holds exactly when all of these hold: the base checks pass; input X is a multiple of 64; the filter is 1×1, 5×5, or 3×3 with input features a multiple of 4; the stride is 1×1; output features are a multiple of 4; the batch is 1. |
| ConvolutionFsv4Int8.ValidateNeedsBaseAndWidth | src/plugins/intel_gpu/src/kernel_selector/core/actual_kernels/convolution/convolution_kernel_b_fs_yx_fsv4_int8.cpp:62-68 | A failed base check or an input width that is not a multiple of 64 rejects. |
| ConvolutionFsv4Int8.ValidFilterIsSquare | src/plugins/intel_gpu/src/kernel_selector/core/actual_kernels/convolution/convolution_kernel_b_fs_yx_fsv4_int8.cpp:70-72 | An accepted filter is square, with side 1, 3 or 5. A 3×3 filter needs input features in groups of four. |
| ConvolutionFsv4Int8.GetKernelsPriority | src/plugins/intel_gpu/src/kernel_selector/core/actual_kernels/convolution/convolution_kernel_b_fs_yx_fsv4_int8.cpp:52-59 | The priority is FORCE_PRIORITY_2 or FORCE_PRIORITY_9. |
| ConvolutionFsv4Int8.PriorityTwoIff | src/plugins/intel_gpu/src/kernel_selector/core/actual_kernels/convolution/convolution_kernel_b_fs_yx_fsv4_int8.cpp:55-58 | The priority is FORCE_PRIORITY_2 exactly when output X > 512 and the filter is 5×5. |
| ConvolutionFsv4Int8.SetDefault | src/plugins/intel_gpu/src/kernel_selector/core/actual_kernels/convolution/convolution_kernel_b_fs_yx_fsv4_int8.cpp:38-50 | lws = [1, 1, 16] and gws = [·, output Y, 16]. gws[0] is half the number of 16-column blocks, rounded down. |
| ConvolutionFsv4Int8.SetDefaultOneSubGroup | src/plugins/intel_gpu/src/kernel_selector/core/actual_kernels/convolution/convolution_kernel_b_fs_yx_fsv4_int8.cpp:43-47 | lws[2] == gws[2] == 16. |
| ConvolutionFsv4Int8.SetDefaultSpansRow | src/plugins/intel_gpu/src/kernel_selector/core/actual_kernels/convolution/convolution_kernel_b_fs_yx_fsv4_int8.cpp:41 | 32·gws[0] lies within 16 columns of output X: below output X + 16 and at least output X − 16. |
| ConvolutionFsv4Int8.FusedOpsConfigs | src/plugins/intel_gpu/src/kernel_selector/core/actual_kernels/convolution/convolution_kernel_b_fs_yx_fsv4_int8.cpp:93-100 | There are exactly eight configurations. |
| ConvolutionFsv4Int8.FusedOpsConfigsAreSlots | src/plugins/intel_gpu/src/kernel_selector/core/actual_kernels/convolution/convolution_kernel_b_fs_yx_fsv4_int8.cpp:93-100 | Configuration i has suffix "_i", result "res i", feature offset i mod 4, the activation type and vector size 1. |
| ConvolutionFsv4Int8.FusedSlotsDistinct | src/plugins/intel_gpu/src/kernel_selector/core/actual_kernels/convolution/convolution_kernel_b_fs_yx_fsv4_int8.cpp:93-100 | The suffixes and the result variables are pairwise distinct. Slots i and i+4 index the same feature. |
| ConvolutionFsv4Int8.GetJitConstants | src/plugins/intel_gpu/src/kernel_selector/core/actual_kernels/convolution/convolution_kernel_b_fs_yx_fsv4_int8.cpp:83-105 | The parent constants come first, then SUB_GROUP_SIZE = lws[2], then the ACCUMULATOR and ACTIVATION type groups. With fused ops, the constants of the eight configurations come last; without, nothing follows. |
| ConvolutionFsv4Int8.FusedOpsAppendConstants | src/plugins/intel_gpu/src/kernel_selector/core/actual_kernels/convolution/convolution_kernel_b_fs_yx_fsv4_int8.cpp:91-102 | Fused ops only append: the list with fused ops is the list without them followed by the constants of the eight configurations. |
| ConvolutionFsv4Int8.SubGroupSizeConstant | src/plugins/intel_gpu/src/kernel_selector/core/actual_kernels/convolution/convolution_kernel_b_fs_yx_fsv4_int8.cpp:86 | With the kernel's own dispatch sizes, SUB_GROUP_SIZE is 16. |
| Text.Find | src/plugins/intel_cpu/src/infer_request.cpp:55 | The result is the first occurrence at or after the start, or none when there is none. |
| Text.AccumulatedIsJoin | src/plugins/intel_gpu/src/kernel_selector/core/actual_kernels/concatenation/concatenation_kernel_ref.cpp:84-91 | Appending each item followed by a comma, except after the last, joins the items by commas. |

## Left out

- `pushInput`, `PushStates`/`PullStates` and `PushInputData`: byte copies and precision conversion of tensor data.
- `InferImpl`, `redefineMemoryForInputNodes`, `GetPerformanceCounts`, `QueryState`, `SetAsyncRequest`, `ThrowIfCanceled`, the ITT profiling handle and the `_numRequests` counter: inference itself, concurrency and profiling.
- `initBlobs` (both classes) is a loop of `GetBlob` calls, and `GetBlob` is modelled; the loop itself is not.
- `checkBlob`, `isApplicable`, `CreatePreprocDataHelper` and the ROI blob machinery: their bodies are not part of this model. `preProcessingRequired` and the ROI check enter as parameters.
- `changeEdgePtr` calls `setDataHandle` on the edge's memory object. Edges that share one memory object all change together in the source. In the model each edge's data pointer is a separate cell, and Repointed changes only the edges it lists.
- `dynamic_cast` failures (a MemoryInput node that is not a `MemoryInput`, a concat that is not a `Concat`): the node kinds are taken as given.
- CpuLegacyInferRequest.SetInputSpec: in the preprocessing branch the source first reads `_inputs[name]`, which inserts an empty entry when absent. This empty-placeholder side effect is not modelled.
- CpuLegacyInferRequest.GetOutputSpec: `_networkOutputs[name]` for an absent name is undefined in the source. It is modelled as a throw (`AbsentInNetworkOutputs`).
- CpuLegacyInferRequest.GetOutputSpec: an allocated output blob gets the network output's layout and the dense blocking. The source keeps the network descriptor's block dims and order and drops its offsets and strides. `Blocking` cannot express that, so for a network output that is not dense the model's descriptor can differ. The comparison with the graph memory that decides zero-copy (line 588) can then differ too.
- CpuLegacyInferRequest.AllocateInput: the blocking of a blob allocated from the network input is modelled as the dense blocking its layout implies; the source rebuilds it from the layout and dims.
- CpuInferRequest.GetOutputSpec: the output half of `GetBlob` dereferences the model output port without a null check. A null port is modelled as a throw (`NullModelNode`).
- Dimensions are `ov::Dimension` intervals written out (`Dim`), with an unbounded upper end as `None`; the interval arithmetic of `ov::Dimension` beyond `is_static` and `compatible` is not modelled.
- Ports of dynamic rank: `shape.rank().get_length()` (lines 779 and 814) throws for them. A partial shape in this model always has a known rank, so that throw is not modelled.
- CpuInferRequest.InferRequest.SetBatch: the source reads the first model input without checking that the map is non-empty or that the node is non-null. Both cases are modelled as throws (`NoModelInputs`, `NullModelNode`). The first input is passed in as `first`, the least key of the map.
- Reshape.ReshapeNode.InitSupportedPrimitiveDescriptors: requires that every parent descriptor has an output config at `inNum`, which the source indexes unchecked.
- Reshape.IsSupportedOperation: the `try`/`catch` around the checks is left out, since the checks modelled here cannot throw.
- `created()` in the Reshape node is only a type comparison and is not modelled. The `inPrec`/`outPrec` locals are modelled by SettledPrecisions, but the configs use `inputDataType`/`outputDataType`, as the source does.
- `ConvolutionKernel_b_fs_yx_fsv4_int8::GetKernelsData` only calls `GetTunedKernelsDataByIndex`, which is not part of this model.
- Base classes `ConcatenationKernelBase`, `ConvolutionKernelBase`, `GetCommonKernelsData`, `Channelndex`, `MakeTypeJitConstants` and `MakeFusedOpsJitConstants` are not part of this model: their results are parameters.
- The OpenCL kernels and the numerics of concatenation and convolution are not part of this model.
- Priority values: the numeric values behind `FORCE_PRIORITY_n` and `DONT_USE_IF_HAVE_SOMETHING_ELSE` are not part of this model; priorities are a datatype.
