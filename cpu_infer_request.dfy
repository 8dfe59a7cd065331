/** `InferRequest`: the CPU plugin's inference request for the 2.0 API, which
    describes inputs and outputs by model ports with partial shapes. */
module CpuInferRequest {
  import opened Common
  import opened CpuGraph
  import opened CpuInferBase

  /** What a model port tells the request: the element precision and the
      (partial) shape of the tensor. */
  datatype ModelPort = ModelPort(precision: Precision, shape: PartialShape)

  /** `std::string` ordering, as `std::map` iterates its keys. */
  predicate LexLeq(a: string, b: string)
    decreases |a|
  {
    |a| == 0 || (|b| > 0 && (a[0] < b[0] || (a[0] == b[0] && LexLeq(a[1..], b[1..]))))
  }

  /** The descriptor of a blob allocated for a model port: rank-many zero
      dimensions for a dynamic shape, otherwise the static shape, with the
      plain layout for that rank. */
  function PortDesc(port: ModelPort): TensorDesc {
    var dims := AllocationDims(port.shape);
    TensorDesc(port.precision, dims, LayoutByRank(|dims|), Dense)
  }

  /** A blob allocated for a dynamic port of rank at least 1 holds no
      elements; one for a static port holds as many as the shape says. */
  lemma {:induction false} PortDescElements(port: ModelPort)
    ensures |PortDesc(port).dims| == |port.shape| && PortDesc(port).precision == port.precision
    ensures IsDynamic(port.shape) ==> ElementCount(PortDesc(port)) == 0
    ensures !IsDynamic(port.shape) ==> ShapeCompatible(port.shape, PortDesc(port).dims)
    ensures !IsDynamic(port.shape) ==> ElementCount(PortDesc(port)) == ShapeSize(PortDesc(port).dims)
  {
    var dims := PortDesc(port).dims;
    if IsDynamic(port.shape) {
      var i :| 0 <= i < |port.shape| && !DimIsStatic(port.shape[i]);
      assert |dims| > 0 && dims[i] == 0;
      ProductHasZero(dims, i);
    } else if |dims| > 0 {
      ProductShapeSize(dims);
    }
  }

  lemma {:induction false} ProductHasZero(dims: seq<nat>, i: nat)
    requires i < |dims| && dims[i] == 0
    ensures Product(dims) == 0
  {
    if |dims| > 1 && i < |dims| - 1 {
      ProductHasZero(dims[..|dims| - 1], i);
    }
  }

  // ---------------------------------------------------------------- SetBlob

  /** The input half of `SetBlob` (lines 692-724); `compatible` is the
      verdict of the graph input's memory descriptor on the blob's. */
  function SetInputSpec(b: Bindings, g: Graph, port: ModelPort, name: string, d: Blob, compatible: bool)
    : Result<Bindings, Failure>
    requires g.Valid()
  {
    if port.precision != d.desc.precision then Err(PrecisionMismatch)
    else if !ShapeCompatible(port.shape, d.desc.dims) then Err(ShapeIncompatible)
    else if !IsDynamic(port.shape) && ShapeSize(AllocationDims(port.shape)) != d.size then Err(SizeMismatch)
    else if name !in g.inputNodes then Err(NoInputMemory)
    else
      var eligible := compatible && name !in g.normalizePreproc && g.props.batchLimit == 0;
      Ok(b.(externalPtr := Rebind(b.externalPtr, name, eligible, d.buffer), inputs := b.inputs[name := d]))
  }

  /** The output half of `SetBlob` (lines 725-754). */
  function SetOutputSpec(b: Bindings, g: Graph, port: ModelPort, name: string, d: Blob): Result<Bindings, Failure>
    requires g.Valid()
  {
    if d.compound then Err(CompoundNotSupported)
    else if port.precision != d.desc.precision then Err(PrecisionMismatch)
    else if !ShapeCompatible(port.shape, d.desc.dims) then Err(ShapeIncompatible)
    else if !IsDynamic(port.shape) && ShapeSize(AllocationDims(port.shape)) != d.size then Err(SizeMismatch)
    else if OutputEdge(g, name).None? then Err(NoOutputMemory)
    else
      var memDesc := g.edges[OutputEdge(g, name).value].blobDesc;
      if !IsDynamic(port.shape) && memDesc.None? then Err(NullInterpretedBlob)
      else
        var eligible := !IsDynamic(port.shape) && memDesc == Some(d.desc) && g.props.batchLimit == 0;
        Ok(b.(externalPtr := Rebind(b.externalPtr, name, eligible, d.buffer), outputs := b.outputs[name := d]))
  }

  /** `SetBlob` (lines 659-755): a name is looked up among the model inputs
      first, then among the model outputs. */
  function SetBlobSpec(b: Bindings, g: Graph, modelIn: map<string, Option<ModelPort>>, modelOut: map<string, Option<ModelPort>>,
                       name: string, data: Option<Blob>, compatible: bool): (Outcome<Failure>, Bindings)
    requires g.Valid()
  {
    if name == [] then (Fail(EmptyName), b)
    else if data.None? then (Fail(NullBlob), b)
    else
      var isInput := name in modelIn;
      var port := if isInput then modelIn[name] else if name in modelOut then modelOut[name] else None;
      if !isInput && name !in modelOut then (Fail(NoSuchInputOutput), b)
      else if port.None? then (Fail(NullModelNode), b)
      else if !data.value.compound && data.value.buffer == NullPtr then (Fail(BufferNotAllocated), b)
      else
        var r := if isInput then SetInputSpec(b, g, port.value, name, data.value, compatible)
                 else SetOutputSpec(b, g, port.value, name, data.value);
        if r.Err? then (Fail(r.error), b) else (Pass, r.value)
  }

  /** A name that is both a model input and a model output is bound as an
      input only; a name that is an output only is bound as an output only. */
  lemma {:induction false} SetBlobInputFirst(b: Bindings, g: Graph, modelIn: map<string, Option<ModelPort>>,
                          modelOut: map<string, Option<ModelPort>>, name: string, data: Option<Blob>, compatible: bool)
    requires g.Valid()
    requires SetBlobSpec(b, g, modelIn, modelOut, name, data, compatible).0.Pass?
    ensures data.Some? && (name in modelIn || name in modelOut)
    ensures var b' := SetBlobSpec(b, g, modelIn, modelOut, name, data, compatible).1;
      if name in modelIn then b'.inputs == b.inputs[name := data.value] && b'.outputs == b.outputs
      else b'.outputs == b.outputs[name := data.value] && b'.inputs == b.inputs
  {
    var port := if name in modelIn then modelIn[name] else modelOut[name];
    if name in modelIn {
      assert SetInputSpec(b, g, port.value, name, data.value, compatible).Ok?;
    } else {
      assert SetOutputSpec(b, g, port.value, name, data.value).Ok?;
    }
  }

  /** The early throws of `SetBlob` (lines 661-684): an empty name and a
      null blob are refused before any lookup, a name whose model port is a
      null node is refused, and a name that is neither a model input nor a
      model output is reported as not found; none of them changes the
      bindings. */
  lemma {:induction false} SetBlobRejects(b: Bindings, g: Graph, modelIn: map<string, Option<ModelPort>>,
                          modelOut: map<string, Option<ModelPort>>, name: string, data: Option<Blob>, compatible: bool)
    requires g.Valid()
    ensures name == [] ==> SetBlobSpec(b, g, modelIn, modelOut, name, data, compatible) == (Fail(EmptyName), b)
    ensures name != [] && data.None? ==> SetBlobSpec(b, g, modelIn, modelOut, name, data, compatible) == (Fail(NullBlob), b)
    ensures name != [] && data.Some? && name !in modelIn && name !in modelOut ==>
              && SetBlobSpec(b, g, modelIn, modelOut, name, data, compatible) == (Fail(NoSuchInputOutput), b)
              && Code(NoSuchInputOutput) == NotFound
    ensures name != [] && data.Some? && name in modelIn && modelIn[name].None? ==>
              SetBlobSpec(b, g, modelIn, modelOut, name, data, compatible) == (Fail(NullModelNode), b)
    ensures name != [] && data.Some? && name !in modelIn && name in modelOut && modelOut[name].None? ==>
              SetBlobSpec(b, g, modelIn, modelOut, name, data, compatible) == (Fail(NullModelNode), b)
  {
  }

  /** A successful `SetBlob` has checked the blob against its model port: the
      same precision, a compatible shape and, for a static port, as many
      elements as the shape holds; an output blob is never compound. */
  lemma {:induction false} SetBlobChecksBlob(b: Bindings, g: Graph, modelIn: map<string, Option<ModelPort>>,
                          modelOut: map<string, Option<ModelPort>>, name: string, data: Option<Blob>, compatible: bool)
    requires g.Valid()
    requires SetBlobSpec(b, g, modelIn, modelOut, name, data, compatible).0.Pass?
    ensures data.Some? && (name in modelIn || name in modelOut)
    ensures var port := if name in modelIn then modelIn[name] else modelOut[name];
      && port.Some?
      && (data.value.compound || data.value.buffer != NullPtr)
      && port.value.precision == data.value.desc.precision
      && ShapeCompatible(port.value.shape, data.value.desc.dims)
      && (!IsDynamic(port.value.shape) ==> data.value.size == ShapeSize(AllocationDims(port.value.shape)))
      && (name !in modelIn ==> !data.value.compound)
  {
    var port := if name in modelIn then modelIn[name] else modelOut[name];
    if name in modelIn {
      assert SetInputSpec(b, g, port.value, name, data.value, compatible).Ok?;
    } else {
      assert SetOutputSpec(b, g, port.value, name, data.value).Ok?;
    }
  }

  /** `SetBlob` keeps every recorded zero-copy pointer bound. */
  lemma {:induction false} SetBlobKeepsBound(b: Bindings, g: Graph, modelIn: map<string, Option<ModelPort>>,
                          modelOut: map<string, Option<ModelPort>>, name: string, data: Option<Blob>, compatible: bool)
    requires g.Valid() && ZeroCopyBound(b)
    ensures ZeroCopyBound(SetBlobSpec(b, g, modelIn, modelOut, name, data, compatible).1)
  {
    var r := SetBlobSpec(b, g, modelIn, modelOut, name, data, compatible);
    if r.0.Pass? {
      var d := data.value;
      var port := if name in modelIn then modelIn[name] else modelOut[name];
      if name in modelIn {
        RebindKeepsBound(b, name, d, compatible && name !in g.normalizePreproc && g.props.batchLimit == 0, true);
      } else {
        var memDesc := g.edges[OutputEdge(g, name).value].blobDesc;
        RebindKeepsBound(b, name, d, !IsDynamic(port.value.shape) && memDesc == Some(d.desc) && g.props.batchLimit == 0, false);
      }
    }
  }

  // ---------------------------------------------------------------- GetBlob

  /** The input half of `GetBlob` (lines 763-801): an unbound input gets a
      blob allocated for its model port, and a static port whose descriptor
      equals the graph memory's, without a normalization step and with batch
      limit 0, records its buffer for zero-copy. The blob is bound before
      the graph memory is read, so a throw there keeps the binding. */
  function GetInputSpec(b: Bindings, g: Graph, modelIn: map<string, Option<ModelPort>>, name: string, newBuffer: Ptr)
    : (Result<Blob, Failure>, Bindings)
    requires g.Valid()
  {
    if name in b.inputs then (Ok(b.inputs[name]), b)
    else if name !in modelIn then (Err(AbsentInNetworkInputs), b)
    else if modelIn[name].None? then (Err(NullModelNode), b)
    else
      var port := modelIn[name].value;
      var desc := PortDesc(port);
      var blob := Blob(desc, ElementCount(desc), newBuffer, false);
      var b1 := b.(inputs := b.inputs[name := blob]);
      if IsDynamic(port.shape) then (Ok(blob), b1)
      else match InputMemDesc(g, name)
        case Err(f) => (Err(f), b1)
        case Ok(memDesc) =>
          var eligible := desc == memDesc && name !in g.normalizePreproc && g.props.batchLimit == 0;
          (Ok(blob), if eligible then b1.(externalPtr := b1.externalPtr[name := newBuffer]) else b1)
  }

  /** The output half of `GetBlob` (lines 803-849): an unbound output takes
      the input's blob of the same name, checked against the model port, or a
      newly allocated one. */
  function GetOutputSpec(b: Bindings, g: Graph, modelOut: map<string, Option<ModelPort>>, name: string, data: Option<Blob>,
                         newBuffer: Ptr): (Result<Blob, Failure>, Bindings)
    requires g.Valid()
  {
    if name in b.outputs then (Ok(b.outputs[name]), b)
    else if name !in modelOut then (Err(AbsentInNetworkOutputs), b)
    else if modelOut[name].None? then (Err(NullModelNode), b)
    else
      var port := modelOut[name].value;
      var blob :=
        if data.None? then Ok(Blob(PortDesc(port), ElementCount(PortDesc(port)), newBuffer, false))
        else if !ShapeCompatible(port.shape, data.value.desc.dims) then Err(SharedNameMismatch)
        else if port.precision != data.value.desc.precision then Err(SharedNameMismatch)
        else Ok(data.value);
      if blob.Err? then (Err(blob.error), b)
      else
        var d := blob.value;
        var b1 := b.(outputs := b.outputs[name := d]);
        if IsDynamic(port.shape) || name in b.externalPtr then (Ok(d), b1)
        else match OutputMemDesc(g, name)
          case Err(f) => (Err(f), b1)
          case Ok(memDesc) =>
            (Ok(d), if d.desc == memDesc && g.props.batchLimit == 0 then b1.(externalPtr := b1.externalPtr[name := d.buffer]) else b1)
  }

  /** The end of `GetBlob`: an output name takes its blob from the output
      half, any other name returns the input's blob if there is one. */
  function OutputOrInputBlob(b: Bindings, g: Graph, modelOut: map<string, Option<ModelPort>>, name: string,
                             data: Option<Blob>, newBuffer: Ptr): (Result<Blob, Failure>, Bindings)
    requires g.Valid()
  {
    if name !in g.outputNodes then (if data.Some? then Ok(data.value) else Err(BlobNotFound), b)
    else GetOutputSpec(b, g, modelOut, name, data, newBuffer)
  }

  /** `GetBlob` (lines 757-856). */
  function GetBlobSpec(b: Bindings, g: Graph, modelIn: map<string, Option<ModelPort>>, modelOut: map<string, Option<ModelPort>>,
                       name: string, newBuffer: Ptr): (Result<Blob, Failure>, Bindings)
    requires g.Valid()
  {
    if !g.ready then (Err(GraphNotReady), b)
    else if name !in g.inputNodes then OutputOrInputBlob(b, g, modelOut, name, None, newBuffer)
    else
      var (ri, b1) := GetInputSpec(b, g, modelIn, name, newBuffer);
      if ri.Err? then (ri, b1) else OutputOrInputBlob(b1, g, modelOut, name, Some(ri.value), newBuffer)
  }

  lemma {:induction false} GetInputSpecStep(b: Bindings, g: Graph, modelIn: map<string, Option<ModelPort>>, name: string,
                                            newBuffer: Ptr)
    requires g.Valid()
    ensures var (r, b1) := GetInputSpec(b, g, modelIn, name, newBuffer);
      && Extends(b, b1, name) && b1.outputs == b.outputs && (ZeroCopyBound(b) ==> ZeroCopyBound(b1))
      && (r.Ok? ==> name in b1.inputs && r.value == b1.inputs[name])
  {
    if name !in b.inputs && name in modelIn && modelIn[name].Some? {
      var desc := PortDesc(modelIn[name].value);
      var blob := Blob(desc, ElementCount(desc), newBuffer, false);
      var b1 := b.(inputs := b.inputs[name := blob]);
      var r := GetInputSpec(b, g, modelIn, name, newBuffer);
      assert r.1 == b1 || r.1 == b1.(externalPtr := b1.externalPtr[name := newBuffer]);
      BindInputStep(b, name, blob, false);
      BindInputStep(b, name, blob, true);
    }
  }

  lemma {:induction false} GetOutputSpecStep(b: Bindings, g: Graph, modelOut: map<string, Option<ModelPort>>, name: string,
                                             data: Option<Blob>, newBuffer: Ptr)
    requires g.Valid()
    requires data.Some? ==> name in b.inputs && b.inputs[name] == data.value
    ensures var (r, b1) := GetOutputSpec(b, g, modelOut, name, data, newBuffer);
      && Extends(b, b1, name) && b1.inputs == b.inputs && (ZeroCopyBound(b) ==> ZeroCopyBound(b1))
      && (r.Ok? ==> name in b1.outputs && r.value == b1.outputs[name])
  {
    if name !in b.outputs && name in modelOut && modelOut[name].Some? {
      var port := modelOut[name].value;
      var blob :=
        if data.None? then Ok(Blob(PortDesc(port), ElementCount(PortDesc(port)), newBuffer, false))
        else if !ShapeCompatible(port.shape, data.value.desc.dims) then Err(SharedNameMismatch)
        else if port.precision != data.value.desc.precision then Err(SharedNameMismatch)
        else Ok(data.value);
      if blob.Ok? {
        var d := blob.value;
        var b1 := b.(outputs := b.outputs[name := d]);
        var r := GetOutputSpec(b, g, modelOut, name, data, newBuffer);
        assert r.1 == b1 || r.1 == b1.(externalPtr := b1.externalPtr[name := d.buffer]);
        BindOutputStep(b, name, blob.value, false);
        BindOutputStep(b, name, blob.value, true);
      }
    }
  }

  /** The end of `GetBlob` extends the bindings it is given and returns the
      blob bound under the name. */
  lemma {:induction false} OutputOrInputBlobStep(b: Bindings, g: Graph, modelOut: map<string, Option<ModelPort>>, name: string,
                                                 data: Option<Blob>, newBuffer: Ptr)
    requires g.Valid()
    requires data.Some? ==> name in b.inputs && b.inputs[name] == data.value
    ensures var (r, b1) := OutputOrInputBlob(b, g, modelOut, name, data, newBuffer);
      && Extends(b, b1, name)
      && (ZeroCopyBound(b) ==> ZeroCopyBound(b1))
      && (r.Ok? ==> (name in b1.outputs && r.value == b1.outputs[name]) || (name in b1.inputs && r.value == b1.inputs[name]))
  {
    if name in g.outputNodes {
      GetOutputSpecStep(b, g, modelOut, name, data, newBuffer);
    }
  }

  /** `GetBlob` never rebinds a bound name, binds at most the requested one,
      keeps every zero-copy pointer bound (also when it throws part way) and
      returns the blob bound under the name. */
  lemma {:induction false} GetBlobKeepsBindings(b: Bindings, g: Graph, modelIn: map<string, Option<ModelPort>>,
                             modelOut: map<string, Option<ModelPort>>, name: string, newBuffer: Ptr)
    requires g.Valid()
    ensures var (r, b') := GetBlobSpec(b, g, modelIn, modelOut, name, newBuffer);
      && Extends(b, b', name)
      && (ZeroCopyBound(b) ==> ZeroCopyBound(b'))
      && (r.Ok? ==> (name in b'.outputs && r.value == b'.outputs[name]) || (name in b'.inputs && r.value == b'.inputs[name]))
  {
    if !g.ready {
    } else if name !in g.inputNodes {
      OutputOrInputBlobStep(b, g, modelOut, name, None, newBuffer);
    } else {
      GetInputSpecStep(b, g, modelIn, name, newBuffer);
      var (ri, b1) := GetInputSpec(b, g, modelIn, name, newBuffer);
      if ri.Ok? {
        OutputOrInputBlobStep(b1, g, modelOut, name, Some(ri.value), newBuffer);
        ExtendsTransitive(b, b1, OutputOrInputBlob(b1, g, modelOut, name, Some(ri.value), newBuffer).1, name);
      }
    }
  }

  lemma GetBlobKeepsBound(b: Bindings, g: Graph, modelIn: map<string, Option<ModelPort>>,
                          modelOut: map<string, Option<ModelPort>>, name: string, newBuffer: Ptr)
    requires g.Valid() && ZeroCopyBound(b)
    ensures ZeroCopyBound(GetBlobSpec(b, g, modelIn, modelOut, name, newBuffer).1)
  {
    GetBlobKeepsBindings(b, g, modelIn, modelOut, name, newBuffer);
  }

  /** A second `GetBlob` of the same name returns the same blob and changes
      nothing. */
  lemma {:induction false} GetBlobIdempotent(b: Bindings, g: Graph, modelIn: map<string, Option<ModelPort>>,
                          modelOut: map<string, Option<ModelPort>>, name: string, newBuffer: Ptr, newBuffer': Ptr)
    requires g.Valid()
    requires GetBlobSpec(b, g, modelIn, modelOut, name, newBuffer).0.Ok?
    ensures var first := GetBlobSpec(b, g, modelIn, modelOut, name, newBuffer);
      GetBlobSpec(first.1, g, modelIn, modelOut, name, newBuffer') == first
  {
    var first := GetBlobSpec(b, g, modelIn, modelOut, name, newBuffer);
    if name !in g.inputNodes {
      GetOutputSpecStep(b, g, modelOut, name, None, newBuffer);
      assert GetOutputSpec(first.1, g, modelOut, name, None, newBuffer') == first;
    } else {
      GetInputSpecStep(b, g, modelIn, name, newBuffer);
      var (ri, b1) := GetInputSpec(b, g, modelIn, name, newBuffer);
      if name in g.outputNodes {
        GetOutputSpecStep(b1, g, modelOut, name, Some(ri.value), newBuffer);
        assert GetInputSpec(first.1, g, modelIn, name, newBuffer') == (ri, first.1);
        assert GetOutputSpec(first.1, g, modelOut, name, Some(ri.value), newBuffer') == first;
      } else {
        assert GetInputSpec(b1, g, modelIn, name, newBuffer') == (ri, b1);
      }
    }
  }

  /** The blob `GetBlob` allocates for an input of a dynamic model port has
      rank-many zero dimensions and is never used zero-copy. */
  lemma {:induction false} GetBlobDynamicInput(b: Bindings, g: Graph, modelIn: map<string, Option<ModelPort>>,
                            modelOut: map<string, Option<ModelPort>>, name: string, newBuffer: Ptr)
    requires g.Valid() && g.ready
    requires name in g.inputNodes && name !in g.outputNodes && name !in b.inputs && name !in b.externalPtr
    requires name in modelIn && modelIn[name].Some? && IsDynamic(modelIn[name].value.shape)
    ensures var (r, b') := GetBlobSpec(b, g, modelIn, modelOut, name, newBuffer);
      && r.Ok? && |r.value.desc.dims| == |modelIn[name].value.shape|
      && (forall i :: 0 <= i < |r.value.desc.dims| ==> r.value.desc.dims[i] == 0)
      && r.value.desc.precision == modelIn[name].value.precision
      && name !in b'.externalPtr
  {
  }

  // ---------------------------------------------------------------- the request

  class InferRequest {
    const graph: Graph
    const modelInputs: map<string, Option<ModelPort>>
    const modelOutputs: map<string, Option<ModelPort>>
    var inputs: map<string, Blob>
    var outputs: map<string, Blob>
    var externalPtr: map<string, Ptr>
    var curBatch: int
    var memoryStates: seq<VariableState>

    function State(): Bindings
      reads this
    {
      Bindings(inputs, outputs, externalPtr, map[])
    }

    predicate Valid()
      reads this
    {
      graph.Valid() && ZeroCopyBound(State())
    }

    constructor (graph: Graph, modelInputs: map<string, Option<ModelPort>>, modelOutputs: map<string, Option<ModelPort>>,
                 curBatch: int)
      requires graph.Valid()
      ensures Valid() && this.graph == graph && this.curBatch == curBatch && memoryStates == []
      ensures this.modelInputs == modelInputs && this.modelOutputs == modelOutputs
      ensures State() == Bindings(map[], map[], map[], map[])
    {
      this.graph, this.modelInputs, this.modelOutputs := graph, modelInputs, modelOutputs;
      inputs, outputs, externalPtr := map[], map[], map[];
      this.curBatch, memoryStates := curBatch, [];
    }

    /** `SetBatch` (lines 643-657); `first` is the first model input in map
        order, which the source reads when the batch limit is set. An empty
        input map or a null first node, which the source dereferences
        unchecked, is a throw here. */
    method SetBatch(first: string, newBatch: int) returns (r: Outcome<Failure>)
      requires Valid()
      requires modelInputs != map[] ==> first in modelInputs && forall k :: k in modelInputs ==> LexLeq(first, k)
      modifies this`curBatch, graph.batchLim
      ensures Valid()
      ensures graph.props.batchLimit == 0 ==> r == Fail(BatchNotApplicable)
      ensures graph.props.batchLimit != 0 && modelInputs == map[] ==> r == Fail(NoModelInputs)
      ensures graph.props.batchLimit != 0 && first in modelInputs && modelInputs[first].None? ==> r == Fail(NullModelNode)
      ensures graph.props.batchLimit != 0 && first in modelInputs && modelInputs[first].Some? &&
                !IsDynamic(modelInputs[first].value.shape) ==>
              r == Fail(BatchNotApplicable)
      ensures r.Pass? <==>
        && graph.props.batchLimit != 0 && first in modelInputs && modelInputs[first].Some?
        && IsDynamic(modelInputs[first].value.shape) && 1 <= newBatch <= graph.props.batchLimit
      ensures r.Fail? ==> curBatch == old(curBatch) && graph.batchLim[..] == old(graph.batchLim[..])
      ensures r.Pass? ==> curBatch == newBatch && forall n :: 0 <= n < graph.batchLim.Length ==> graph.batchLim[n] == newBatch
    {
      if graph.props.batchLimit == 0 {
        return Fail(BatchNotApplicable);
      }
      if first !in modelInputs {
        return Fail(NoModelInputs);
      }
      if modelInputs[first].None? {
        return Fail(NullModelNode);
      }
      if !IsDynamic(modelInputs[first].value.shape) {
        return Fail(BatchNotApplicable);
      }
      if newBatch < 1 || newBatch > graph.props.batchLimit {
        return Fail(InvalidBatch);
      }
      curBatch := newBatch;
      SetDynamicBatchLimits(graph, newBatch);
      return Pass;
    }

    /** `SetBlob` (lines 659-755); `compatible` is `isCompatible` of the graph
        input's memory descriptor with the blob's. */
    method SetBlob(name: string, data: Option<Blob>, compatible: bool) returns (r: Outcome<Failure>)
      requires Valid()
      modifies this`inputs, this`outputs, this`externalPtr
      ensures Valid()
      ensures (r, State()) == SetBlobSpec(old(State()), graph, modelInputs, modelOutputs, name, data, compatible)
    {
      SetBlobKeepsBound(State(), graph, modelInputs, modelOutputs, name, data, compatible);
      if name == [] {
        return Fail(EmptyName);
      }
      if data.None? {
        return Fail(NullBlob);
      }
      var isInput := false;
      var port: ModelPort;
      if name in modelInputs {
        if modelInputs[name].None? {
          return Fail(NullModelNode);
        }
        isInput, port := true, modelInputs[name].value;
      } else if name in modelOutputs {
        if modelOutputs[name].None? {
          return Fail(NullModelNode);
        }
        port := modelOutputs[name].value;
      } else {
        return Fail(NoSuchInputOutput);
      }
      var d := data.value;
      if !d.compound && d.buffer == NullPtr {
        return Fail(BufferNotAllocated);
      }
      if isInput {
        r := SetInput(name, port, d, compatible);
      } else {
        r := SetOutput(name, port, d);
      }
    }

    /** The input half of `SetBlob`. */
    method SetInput(name: string, port: ModelPort, d: Blob, compatible: bool) returns (r: Outcome<Failure>)
      requires Valid()
      modifies this`inputs, this`externalPtr
      ensures match SetInputSpec(old(State()), graph, port, name, d, compatible)
              case Err(f) => r == Fail(f) && State() == old(State())
              case Ok(b) => r == Pass && State() == b
    {
      if port.precision != d.desc.precision {
        return Fail(PrecisionMismatch);
      }
      if !ShapeCompatible(port.shape, d.desc.dims) {
        return Fail(ShapeIncompatible);
      }
      var isDynamic := IsDynamic(port.shape);
      if !isDynamic && ShapeSize(AllocationDims(port.shape)) != d.size {
        return Fail(SizeMismatch);
      }
      if name !in graph.inputNodes {
        return Fail(NoInputMemory);
      }
      if compatible && name !in graph.normalizePreproc && graph.props.batchLimit == 0 {
        externalPtr := externalPtr[name := d.buffer];
      } else if name in externalPtr {
        externalPtr := externalPtr - {name};
      }
      inputs := inputs[name := d];
      return Pass;
    }

    /** The output half of `SetBlob`. */
    method SetOutput(name: string, port: ModelPort, d: Blob) returns (r: Outcome<Failure>)
      requires Valid()
      modifies this`outputs, this`externalPtr
      ensures match SetOutputSpec(old(State()), graph, port, name, d)
              case Err(f) => r == Fail(f) && State() == old(State())
              case Ok(b) => r == Pass && State() == b
    {
      if d.compound {
        return Fail(CompoundNotSupported);
      }
      if port.precision != d.desc.precision {
        return Fail(PrecisionMismatch);
      }
      if !ShapeCompatible(port.shape, d.desc.dims) {
        return Fail(ShapeIncompatible);
      }
      var isDynamic := IsDynamic(port.shape);
      if !isDynamic && ShapeSize(AllocationDims(port.shape)) != d.size {
        return Fail(SizeMismatch);
      }
      var edge := OutputEdge(graph, name);
      if edge.None? {
        return Fail(NoOutputMemory);
      }
      var memDesc := graph.edges[edge.value].blobDesc;
      if !isDynamic && memDesc.None? {
        return Fail(NullInterpretedBlob);
      }
      if !isDynamic && memDesc == Some(d.desc) && graph.props.batchLimit == 0 {
        externalPtr := externalPtr[name := d.buffer];
      } else if name in externalPtr {
        externalPtr := externalPtr - {name};
      }
      outputs := outputs[name := d];
      return Pass;
    }

    /** The input half of `GetBlob`. */
    method GetInput(name: string, newBuffer: Ptr) returns (r: Result<Blob, Failure>)
      requires Valid()
      modifies this`inputs, this`externalPtr
      ensures (r, State()) == GetInputSpec(old(State()), graph, modelInputs, name, newBuffer)
    {
      if name in inputs {
        return Ok(inputs[name]);
      }
      if name !in modelInputs {
        return Err(AbsentInNetworkInputs);
      }
      if modelInputs[name].None? {
        return Err(NullModelNode);
      }
      var port := modelInputs[name].value;
      var isDynamic := IsDynamic(port.shape);
      var desc := PortDesc(port);
      inputs := inputs[name := Blob(desc, ElementCount(desc), newBuffer, false)];
      if !isDynamic {
        var memDesc := InputMemDesc(graph, name);
        if memDesc.Err? {
          return Err(memDesc.error);
        }
        if desc == memDesc.value && name !in graph.normalizePreproc && graph.props.batchLimit == 0 {
          externalPtr := externalPtr[name := newBuffer];
        }
      }
      return Ok(inputs[name]);
    }

    /** The output half of `GetBlob`; `data` is the input's blob, if any. */
    method GetOutput(name: string, data: Option<Blob>, newBuffer: Ptr) returns (r: Result<Blob, Failure>)
      requires Valid()
      modifies this`outputs, this`externalPtr
      ensures (r, State()) == GetOutputSpec(old(State()), graph, modelOutputs, name, data, newBuffer)
    {
      if name in outputs {
        return Ok(outputs[name]);
      }
      if name !in modelOutputs {
        return Err(AbsentInNetworkOutputs);
      }
      if modelOutputs[name].None? {
        return Err(NullModelNode);
      }
      var port := modelOutputs[name].value;
      var isDynamic := IsDynamic(port.shape);
      var d: Blob;
      if data.None? {
        d := Blob(PortDesc(port), ElementCount(PortDesc(port)), newBuffer, false);
      } else {
        d := data.value;
        if !ShapeCompatible(port.shape, d.desc.dims) {
          return Err(SharedNameMismatch);
        }
        if port.precision != d.desc.precision {
          return Err(SharedNameMismatch);
        }
      }
      outputs := outputs[name := d];
      if !isDynamic && name !in externalPtr {
        var memDesc := OutputMemDesc(graph, name);
        if memDesc.Err? {
          return Err(memDesc.error);
        }
        if d.desc == memDesc.value && graph.props.batchLimit == 0 {
          externalPtr := externalPtr[name := d.buffer];
        }
      }
      return Ok(d);
    }

    /** `GetBlob` (lines 757-856); `newBuffer` is what the allocator returns. */
    method GetBlob(name: string, newBuffer: Ptr) returns (r: Result<Blob, Failure>)
      requires Valid()
      modifies this`inputs, this`outputs, this`externalPtr
      ensures Valid()
      ensures (r, State()) == GetBlobSpec(old(State()), graph, modelInputs, modelOutputs, name, newBuffer)
    {
      GetBlobKeepsBound(State(), graph, modelInputs, modelOutputs, name, newBuffer);
      if !graph.ready {
        return Err(GraphNotReady);
      }
      var data: Option<Blob> := None;
      if name in graph.inputNodes {
        var ri := GetInput(name, newBuffer);
        if ri.Err? {
          return ri;
        }
        data := Some(ri.value);
      }
      if name in graph.outputNodes {
        r := GetOutput(name, data, newBuffer);
        return r;
      }
      if data.None? {
        return Err(BlobNotFound);
      }
      return Ok(data.value);
    }
  }
}
