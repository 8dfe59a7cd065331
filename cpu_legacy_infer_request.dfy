/** `LegacyInferRequest`: the CPU plugin's inference request for the legacy
    (CNNNetwork) API, which describes inputs and outputs by tensor descriptors
    and supports input preprocessing. */
module CpuLegacyInferRequest {
  import opened Common
  import opened CpuGraph
  import opened CpuInferBase

  // ---------------------------------------------------------------- SetBlob

  /** The four checks `SetBlob` makes before it looks the name up. */
  function CheckBlobArgs(name: string, data: Option<Blob>): (r: Outcome<Failure>)
    ensures r.Pass? <==> name != [] && data.Some? && (data.value.compound || data.value.buffer != NullPtr) && data.value.size != 0
  {
    if name == [] then Fail(EmptyName)
    else if data.None? then Fail(NullBlob)
    else if !data.value.compound && data.value.buffer == NullPtr then Fail(BufferNotAllocated)
    else if data.value.size == 0 then Fail(EmptyData)
    else Pass
  }

  /** The input half of `SetBlob` (lines 395-446). */
  function SetInputSpec(b: Bindings, g: Graph, expected: TensorDesc, name: string, d: Blob, preProcRequired: bool)
    : Result<Bindings, Failure>
    requires g.Valid()
  {
    if expected.precision != d.desc.precision then Err(PrecisionMismatch)
    else if d.compound && !preProcRequired then Err(CompoundNotSupported)
    else if preProcRequired then Ok(b.(preProcData := b.preProcData[name := d]))
    else if d.size != ElementCount(expected) then Err(SizeMismatch)
    else if expected.dims != d.desc.dims then Err(DimsMismatch)
    else if BlockingConflict(d.desc, expected) then Err(BlockingMismatch)
    else match InputMemDesc(g, name)
      case Err(f) => Err(f)
      case Ok(memDesc) =>
        var eligible := d.desc == memDesc && name !in g.normalizePreproc && g.props.batchLimit == 0;
        Ok(b.(externalPtr := Rebind(b.externalPtr, name, eligible, d.buffer), inputs := b.inputs[name := d]))
  }

  /** The output half of `SetBlob` (lines 447-482). */
  function SetOutputSpec(b: Bindings, g: Graph, expected: TensorDesc, name: string, d: Blob): Result<Bindings, Failure>
    requires g.Valid()
  {
    if d.compound then Err(CompoundNotSupported)
    else if expected.precision != d.desc.precision then Err(PrecisionMismatch)
    else if d.size != ElementCount(expected) then Err(SizeMismatch)
    else if expected.dims != d.desc.dims then Err(DimsMismatch)
    else if BlockingConflict(d.desc, expected) then Err(BlockingMismatch)
    else match OutputMemDesc(g, name)
      case Err(f) => Err(f)
      case Ok(memDesc) =>
        var eligible := d.desc == memDesc && g.props.batchLimit == 0;
        Ok(b.(externalPtr := Rebind(b.externalPtr, name, eligible, d.buffer), outputs := b.outputs[name := d]))
  }

  /** `SetBlob`: the outcome and the bindings afterwards. A name that is both
      an input and an output is bound as an input first; a throw from the
      output half keeps the input half's changes. */
  function SetBlobSpec(b: Bindings, g: Graph, netIn: map<string, TensorDesc>, netOut: map<string, TensorDesc>,
                       name: string, data: Option<Blob>, preProcRequired: bool): (r: (Outcome<Failure>, Bindings))
    requires g.Valid()
  {
    var check := CheckBlobArgs(name, data);
    if check.Fail? then (check, b)
    else if name !in netIn && name !in netOut then (Fail(NoSuchInputOutput), b)
    else
      var afterInput := if name in netIn then SetInputSpec(b, g, netIn[name], name, data.value, preProcRequired) else Ok(b);
      match afterInput
      case Err(f) => (Fail(f), b)
      case Ok(b1) =>
        if name !in netOut then (Pass, b1)
        else match SetOutputSpec(b1, g, netOut[name], name, data.value)
          case Err(f) => (Fail(f), b1)
          case Ok(b2) => (Pass, b2)
  }

  /** The argument checks throw before any map is touched. */
  lemma SetBlobArgumentErrors(b: Bindings, g: Graph, netIn: map<string, TensorDesc>, netOut: map<string, TensorDesc>,
                              name: string, data: Option<Blob>, preProcRequired: bool)
    requires g.Valid()
    ensures var r := SetBlobSpec(b, g, netIn, netOut, name, data, preProcRequired);
      && (name == [] ==> r == (Fail(EmptyName), b))
      && (name != [] && data.None? ==> r == (Fail(NullBlob), b))
      && (name != [] && data.Some? && !data.value.compound && data.value.buffer == NullPtr ==> r == (Fail(BufferNotAllocated), b))
      && ((name != [] && data.Some? && (data.value.compound || data.value.buffer != NullPtr) && data.value.size == 0)
            ==> r == (Fail(EmptyData), b))
  {
  }

  /** A successful `SetBlob` has checked the blob against every network
      input and output of that name: the same precision and, unless the input
      is preprocessed, the expected element count and the same dimensions. */
  lemma {:induction false} SetBlobChecksBlob(b: Bindings, g: Graph, netIn: map<string, TensorDesc>, netOut: map<string, TensorDesc>,
                          name: string, data: Option<Blob>, preProcRequired: bool)
    requires g.Valid()
    requires SetBlobSpec(b, g, netIn, netOut, name, data, preProcRequired).0.Pass?
    ensures data.Some? && (name in netIn || name in netOut)
    ensures name in netIn ==> data.value.desc.precision == netIn[name].precision
    ensures name in netIn && !preProcRequired ==>
              data.value.size == ElementCount(netIn[name]) && data.value.desc.dims == netIn[name].dims
    ensures name in netOut ==> !data.value.compound && data.value.desc.precision == netOut[name].precision
    ensures name in netOut ==> data.value.size == ElementCount(netOut[name]) && data.value.desc.dims == netOut[name].dims
  {
    var d := data.value;
    var afterInput := if name in netIn then SetInputSpec(b, g, netIn[name], name, d, preProcRequired) else Ok(b);
    assert afterInput.Ok?;
    if name in netOut {
      assert SetOutputSpec(afterInput.value, g, netOut[name], name, d).Ok?;
    }
  }

  /** After a successful `SetBlob` of a name that is only an input and needs
      no preprocessing, the name is bound to the blob, and its buffer is
      recorded for zero-copy exactly when the blob's descriptor equals the
      graph memory's, the input has no normalization step and the batch limit
      is 0; nothing else changes. */
  lemma {:induction false} SetBlobBindsInput(b: Bindings, g: Graph, netIn: map<string, TensorDesc>, netOut: map<string, TensorDesc>,
                          name: string, data: Option<Blob>)
    requires g.Valid()
    requires name in netIn && name !in netOut
    requires SetBlobSpec(b, g, netIn, netOut, name, data, false).0.Pass?
    ensures InputMemDesc(g, name).Ok? && data.Some?
    ensures var b' := SetBlobSpec(b, g, netIn, netOut, name, data, false).1;
      var eligible := data.value.desc == InputMemDesc(g, name).value && name !in g.normalizePreproc && g.props.batchLimit == 0;
      && b'.inputs == b.inputs[name := data.value]
      && b'.outputs == b.outputs && b'.preProcData == b.preProcData
      && (name in b'.externalPtr <==> eligible)
      && (eligible ==> b'.externalPtr[name] == data.value.buffer)
      && (forall k :: k != name ==> (k in b'.externalPtr <==> k in b.externalPtr))
      && (forall k :: k != name && k in b.externalPtr ==> b'.externalPtr[k] == b.externalPtr[k])
  {
    assert SetInputSpec(b, g, netIn[name], name, data.value, false).Ok?;
  }

  lemma SetInputSpecKeepsBound(b: Bindings, g: Graph, expected: TensorDesc, name: string, d: Blob, preProcRequired: bool)
    requires g.Valid() && ZeroCopyBound(b)
    ensures var r := SetInputSpec(b, g, expected, name, d, preProcRequired);
      r.Ok? ==> ZeroCopyBound(r.value)
  {
    if !preProcRequired && InputMemDesc(g, name).Ok? {
      var eligible := d.desc == InputMemDesc(g, name).value && name !in g.normalizePreproc && g.props.batchLimit == 0;
      RebindKeepsBound(b, name, d, eligible, true);
    }
  }

  lemma SetOutputSpecKeepsBound(b: Bindings, g: Graph, expected: TensorDesc, name: string, d: Blob)
    requires g.Valid() && ZeroCopyBound(b)
    ensures var r := SetOutputSpec(b, g, expected, name, d);
      r.Ok? ==> ZeroCopyBound(r.value)
  {
    if OutputMemDesc(g, name).Ok? {
      RebindKeepsBound(b, name, d, d.desc == OutputMemDesc(g, name).value && g.props.batchLimit == 0, false);
    }
  }

  /** `SetBlob` keeps every recorded zero-copy pointer bound. */
  lemma {:induction false} SetBlobKeepsBound(b: Bindings, g: Graph, netIn: map<string, TensorDesc>, netOut: map<string, TensorDesc>,
                          name: string, data: Option<Blob>, preProcRequired: bool)
    requires g.Valid() && ZeroCopyBound(b)
    ensures ZeroCopyBound(SetBlobSpec(b, g, netIn, netOut, name, data, preProcRequired).1)
  {
    if CheckBlobArgs(name, data).Pass? && (name in netIn || name in netOut) {
      var d := data.value;
      var b1 := b;
      if name in netIn {
        SetInputSpecKeepsBound(b, g, netIn[name], name, d, preProcRequired);
        var r1 := SetInputSpec(b, g, netIn[name], name, d, preProcRequired);
        if r1.Ok? { b1 := r1.value; }
      }
      if name in netOut {
        SetOutputSpecKeepsBound(b1, g, netOut[name], name, d);
      }
    }
  }

  // ---------------------------------------------------------------- GetBlob

  /** The allocation step of `GetBlob`'s input half (lines 505-531): an
      unbound input gets a new blob, described by the network input when
      there is one and by the graph memory otherwise; its buffer is recorded
      for zero-copy when that description equals the graph memory's, the
      input has no normalization step and the batch limit is 0. */
  function AllocateInput(b: Bindings, g: Graph, netIn: map<string, TensorDesc>, name: string, newBuffer: Ptr)
    : Result<Bindings, Failure>
    requires g.Valid()
  {
    if name in b.inputs then Ok(b)
    else match InputMemDesc(g, name)
      case Err(f) => Err(f)
      case Ok(memDesc) =>
        var desc := if name in netIn then TensorDesc(netIn[name].precision, netIn[name].dims, netIn[name].layout, Dense)
                    else memDesc;
        var eligible := memDesc == desc && name !in g.normalizePreproc && g.props.batchLimit == 0;
        Ok(b.(inputs := b.inputs[name := Blob(desc, ElementCount(desc), newBuffer, false)],
              externalPtr := if eligible then b.externalPtr[name := newBuffer] else b.externalPtr))
  }

  /** The input half of `GetBlob` after the ROI check (lines 503-544): allocate
      a blob when the name is unbound, then record it as the ROI blob when
      preprocessing is required. Returns the input's blob. */
  function GetInputSpec(b: Bindings, g: Graph, netIn: map<string, TensorDesc>, name: string, newBuffer: Ptr,
                        preProcRequired: bool): (r: Result<(Blob, Bindings), Failure>)
    requires g.Valid()
    ensures r.Ok? ==> name in r.value.1.inputs && r.value.0 == r.value.1.inputs[name]
  {
    match AllocateInput(b, g, netIn, name, newBuffer)
    case Err(f) => Err(f)
    case Ok(b1) =>
      assert name in b1.inputs;
      var data := b1.inputs[name];
      Ok((data, if name in netIn && preProcRequired then b1.(preProcData := b1.preProcData[name := data]) else b1))
  }

  /** The output half of `GetBlob` (lines 547-594): when the name is unbound,
      bind the input's blob (checked against the graph memory) or a newly
      allocated one. */
  function GetOutputSpec(b: Bindings, g: Graph, netOut: map<string, TensorDesc>, name: string, data: Option<Blob>,
                         newBuffer: Ptr, normalize: Precision -> Precision): (r: Result<Bindings, Failure>)
    requires g.Valid()
    ensures r.Ok? ==> name in r.value.outputs
    ensures name in b.outputs ==> r == Ok(b)
    ensures r.Ok? && name !in b.outputs ==>
              && r.value.inputs == b.inputs && r.value.preProcData == b.preProcData
              && r.value.outputs == b.outputs[name := r.value.outputs[name]]
    ensures r.Ok? && name !in b.outputs && data.Some? ==> r.value.outputs[name] == data.value
    ensures r.Ok? && name !in b.outputs && data.None? ==>
              && name in netOut
              && r.value.outputs[name].desc.precision == normalize(netOut[name].precision)
              && r.value.outputs[name].desc.dims == netOut[name].dims
              && r.value.outputs[name].buffer == newBuffer
    ensures name !in b.outputs && data.None? && OutputMemDesc(g, name).Ok? && name !in netOut ==>
              r == Err(AbsentInNetworkOutputs)
  {
    if name in b.outputs then Ok(b)
    else match OutputMemDesc(g, name)
      case Err(f) => Err(f)
      case Ok(expected) =>
        var blob :=
          if data.None? then
            if name !in netOut then Err(AbsentInNetworkOutputs)
            else
              var desc := TensorDesc(normalize(netOut[name].precision), netOut[name].dims, netOut[name].layout, Dense);
              Ok(Blob(desc, ElementCount(desc), newBuffer, false))
          else if expected.precision != data.value.desc.precision then Err(SharedNameMismatch)
          else if expected.dims != data.value.desc.dims then Err(SharedNameMismatch)
          else if BlockingConflict(data.value.desc, expected) then Err(SharedNameMismatch)
          else Ok(data.value);
        match blob
        case Err(f) => Err(f)
        case Ok(d) =>
          var eligible := name !in b.externalPtr && d.desc == expected && g.props.batchLimit == 0;
          Ok(b.(outputs := b.outputs[name := d], externalPtr := if eligible then b.externalPtr[name := d.buffer] else b.externalPtr))
  }

  /** The end of `GetBlob`: an output name takes its blob from the output
      half, any other name returns the input's blob if there is one. */
  function OutputOrInputBlob(b: Bindings, g: Graph, netOut: map<string, TensorDesc>, name: string, data: Option<Blob>,
                             newBuffer: Ptr, normalize: Precision -> Precision): (Result<Blob, Failure>, Bindings)
    requires g.Valid()
  {
    if name !in g.outputNodes then (if data.Some? then Ok(data.value) else Err(BlobNotFound), b)
    else match GetOutputSpec(b, g, netOut, name, data, newBuffer, normalize)
      case Err(f) => (Err(f), b)
      case Ok(b2) => (Ok(b2.outputs[name]), b2)
  }

  /** `GetBlob`: the blob returned and the bindings afterwards. `newBuffer` is
      the buffer the allocator hands out if a blob is allocated. */
  function GetBlobSpec(b: Bindings, g: Graph, netIn: map<string, TensorDesc>, netOut: map<string, TensorDesc>,
                       name: string, newBuffer: Ptr, preProcRequired: bool, normalize: Precision -> Precision)
    : (Result<Blob, Failure>, Bindings)
    requires g.Valid()
  {
    if !g.ready then (Err(GraphNotReady), b)
    else if name !in g.inputNodes then OutputOrInputBlob(b, g, netOut, name, None, newBuffer, normalize)
    else if name in b.preProcData then (Ok(b.preProcData[name]), b)
    else match GetInputSpec(b, g, netIn, name, newBuffer, preProcRequired)
      case Err(f) => (Err(f), b)
      case Ok(res) => OutputOrInputBlob(res.1, g, netOut, name, Some(res.0), newBuffer, normalize)
  }

  lemma {:induction false} GetInputSpecStep(b: Bindings, g: Graph, netIn: map<string, TensorDesc>, name: string, newBuffer: Ptr,
                                            preProcRequired: bool)
    requires g.Valid()
    requires GetInputSpec(b, g, netIn, name, newBuffer, preProcRequired).Ok?
    ensures var b1 := GetInputSpec(b, g, netIn, name, newBuffer, preProcRequired).value.1;
      Extends(b, b1, name) && b1.outputs == b.outputs && (ZeroCopyBound(b) ==> ZeroCopyBound(b1))
  {
    var a := AllocateInput(b, g, netIn, name, newBuffer);
    assert a.Ok?;
    if name !in b.inputs {
      var memDesc := InputMemDesc(g, name).value;
      var desc := if name in netIn then TensorDesc(netIn[name].precision, netIn[name].dims, netIn[name].layout, Dense)
                  else memDesc;
      var blob := Blob(desc, ElementCount(desc), newBuffer, false);
      var b1 := b.(inputs := b.inputs[name := blob]);
      assert a.value == b1 || a.value == b1.(externalPtr := b1.externalPtr[name := newBuffer]);
      BindInputStep(b, name, blob, false);
      BindInputStep(b, name, blob, true);
    }
  }

  lemma {:induction false} GetOutputSpecStep(b: Bindings, g: Graph, netOut: map<string, TensorDesc>, name: string, data: Option<Blob>,
                                             newBuffer: Ptr, normalize: Precision -> Precision)
    requires g.Valid()
    requires data.Some? ==> name in b.inputs && b.inputs[name] == data.value
    requires GetOutputSpec(b, g, netOut, name, data, newBuffer, normalize).Ok?
    ensures var b1 := GetOutputSpec(b, g, netOut, name, data, newBuffer, normalize).value;
      Extends(b, b1, name) && b1.inputs == b.inputs && b1.preProcData == b.preProcData
      && (ZeroCopyBound(b) ==> ZeroCopyBound(b1))
  {
    if name !in b.outputs {
      var d := if data.Some? then data.value else
        var desc := TensorDesc(normalize(netOut[name].precision), netOut[name].dims, netOut[name].layout, Dense);
        Blob(desc, ElementCount(desc), newBuffer, false);
      BindOutputStep(b, name, d, false);
      BindOutputStep(b, name, d, true);
    }
  }

  /** The end of `GetBlob` extends the bindings it is given and returns the
      blob bound under the name. */
  lemma {:induction false} OutputOrInputBlobStep(b: Bindings, g: Graph, netOut: map<string, TensorDesc>, name: string,
                                                 data: Option<Blob>, newBuffer: Ptr, normalize: Precision -> Precision)
    requires g.Valid()
    requires data.Some? ==> name in b.inputs && b.inputs[name] == data.value
    ensures var r := OutputOrInputBlob(b, g, netOut, name, data, newBuffer, normalize);
      && Extends(b, r.1, name)
      && (ZeroCopyBound(b) ==> ZeroCopyBound(r.1))
      && (r.0.Ok? ==> ((name in r.1.outputs && r.0.value == r.1.outputs[name])
                   || (name in r.1.inputs && r.0.value == r.1.inputs[name])))
  {
    if name in g.outputNodes && GetOutputSpec(b, g, netOut, name, data, newBuffer, normalize).Ok? {
      GetOutputSpecStep(b, g, netOut, name, data, newBuffer, normalize);
    }
  }

  /** `GetBlob` never rebinds a bound name and binds at most the requested
      one; the blob it returns is the one bound under the name. */
  lemma {:induction false} GetBlobKeepsBindings(b: Bindings, g: Graph, netIn: map<string, TensorDesc>, netOut: map<string, TensorDesc>,
                             name: string, newBuffer: Ptr, preProcRequired: bool, normalize: Precision -> Precision)
    requires g.Valid()
    ensures var r := GetBlobSpec(b, g, netIn, netOut, name, newBuffer, preProcRequired, normalize);
      && Extends(b, r.1, name)
      && (ZeroCopyBound(b) ==> ZeroCopyBound(r.1))
      && (r.0.Ok? ==> ((name in r.1.outputs && r.0.value == r.1.outputs[name])
                   || (name in r.1.inputs && r.0.value == r.1.inputs[name])
                   || (name in r.1.preProcData && r.0.value == r.1.preProcData[name])))
  {
    if !g.ready || (name in g.inputNodes && name in b.preProcData) {
    } else if name !in g.inputNodes {
      OutputOrInputBlobStep(b, g, netOut, name, None, newBuffer, normalize);
    } else {
      var ri := GetInputSpec(b, g, netIn, name, newBuffer, preProcRequired);
      if ri.Ok? {
        var b1 := ri.value.1;
        GetInputSpecStep(b, g, netIn, name, newBuffer, preProcRequired);
        OutputOrInputBlobStep(b1, g, netOut, name, Some(ri.value.0), newBuffer, normalize);
        var r := OutputOrInputBlob(b1, g, netOut, name, Some(ri.value.0), newBuffer, normalize);
        ExtendsTransitive(b, b1, r.1, name);
      }
    }
  }

  /** `GetBlob` keeps every recorded zero-copy pointer bound. */
  lemma GetBlobKeepsBound(b: Bindings, g: Graph, netIn: map<string, TensorDesc>, netOut: map<string, TensorDesc>,
                          name: string, newBuffer: Ptr, preProcRequired: bool, normalize: Precision -> Precision)
    requires g.Valid() && ZeroCopyBound(b)
    ensures ZeroCopyBound(GetBlobSpec(b, g, netIn, netOut, name, newBuffer, preProcRequired, normalize).1)
  {
    GetBlobKeepsBindings(b, g, netIn, netOut, name, newBuffer, preProcRequired, normalize);
  }

  /** A second `GetBlob` of the same name, without preprocessing, returns the
      same blob and changes nothing. */
  lemma {:induction false} GetBlobIdempotent(b: Bindings, g: Graph, netIn: map<string, TensorDesc>, netOut: map<string, TensorDesc>,
                          name: string, newBuffer: Ptr, newBuffer': Ptr, normalize: Precision -> Precision)
    requires g.Valid()
    requires GetBlobSpec(b, g, netIn, netOut, name, newBuffer, false, normalize).0.Ok?
    ensures var first := GetBlobSpec(b, g, netIn, netOut, name, newBuffer, false, normalize);
      GetBlobSpec(first.1, g, netIn, netOut, name, newBuffer', false, normalize) == first
  {
    var first := GetBlobSpec(b, g, netIn, netOut, name, newBuffer, false, normalize);
    if name !in g.inputNodes {
      assert GetOutputSpec(first.1, g, netOut, name, None, newBuffer', normalize) == Ok(first.1);
    } else if name !in b.preProcData {
      var ri := GetInputSpec(b, g, netIn, name, newBuffer, false).value;
      if name in g.outputNodes {
        GetOutputSpecStep(ri.1, g, netOut, name, Some(ri.0), newBuffer, normalize);
        assert GetInputSpec(first.1, g, netIn, name, newBuffer', false) == Ok((ri.0, first.1));
        assert GetOutputSpec(first.1, g, netOut, name, Some(ri.0), newBuffer', normalize) == Ok(first.1);
      } else {
        assert GetInputSpec(ri.1, g, netIn, name, newBuffer', false) == Ok(ri);
      }
    }
  }

  // ---------------------------------------------------------------- the request

  class LegacyInferRequest {
    const graph: Graph
    const networkInputs: map<string, TensorDesc>
    const networkOutputs: map<string, TensorDesc>
    var inputs: map<string, Blob>
    var outputs: map<string, Blob>
    var externalPtr: map<string, Ptr>
    var preProcData: map<string, Blob>
    var curBatch: int
    var memoryStates: seq<VariableState>

    function State(): Bindings
      reads this
    {
      Bindings(inputs, outputs, externalPtr, preProcData)
    }

    predicate Valid()
      reads this
    {
      graph.Valid() && ZeroCopyBound(State())
    }

    constructor (graph: Graph, networkInputs: map<string, TensorDesc>, networkOutputs: map<string, TensorDesc>, curBatch: int)
      requires graph.Valid()
      ensures Valid() && this.graph == graph && this.curBatch == curBatch && memoryStates == []
      ensures this.networkInputs == networkInputs && this.networkOutputs == networkOutputs
      ensures State() == Bindings(map[], map[], map[], map[])
    {
      this.graph, this.networkInputs, this.networkOutputs := graph, networkInputs, networkOutputs;
      inputs, outputs, externalPtr, preProcData := map[], map[], map[], map[];
      this.curBatch, memoryStates := curBatch, [];
    }

    /** `SetBatch` (lines 359-373). */
    method SetBatch(newBatch: int) returns (r: Outcome<Failure>)
      requires Valid()
      modifies this`curBatch, graph.batchLim
      ensures Valid()
      ensures !graph.props.enableDynamicBatch ==> r == Fail(DynamicBatchDisabled)
      ensures graph.props.enableDynamicBatch && (newBatch < 1 || newBatch > graph.props.batchLimit) ==> r == Fail(InvalidBatch)
      ensures r.Pass? <==> graph.props.enableDynamicBatch && 1 <= newBatch <= graph.props.batchLimit
      ensures r.Fail? ==> curBatch == old(curBatch) && graph.batchLim[..] == old(graph.batchLim[..])
      ensures r.Pass? ==> curBatch == newBatch && forall n :: 0 <= n < graph.batchLim.Length ==> graph.batchLim[n] == newBatch
    {
      if !graph.props.enableDynamicBatch {
        return Fail(DynamicBatchDisabled);
      }
      if newBatch < 1 || newBatch > graph.props.batchLimit {
        return Fail(InvalidBatch);
      }
      curBatch := newBatch;
      SetDynamicBatchLimits(graph, newBatch);
      return Pass;
    }

    /** The input half of `SetBlob`. */
    method SetInput(name: string, d: Blob, preProcRequired: bool) returns (r: Outcome<Failure>)
      requires graph.Valid() && name in networkInputs
      modifies this`inputs, this`externalPtr, this`preProcData
      ensures match SetInputSpec(old(State()), graph, networkInputs[name], name, d, preProcRequired)
              case Err(f) => r == Fail(f) && State() == old(State())
              case Ok(b) => r == Pass && State() == b
    {
      var expected := networkInputs[name];
      if expected.precision != d.desc.precision {
        return Fail(PrecisionMismatch);
      }
      if d.compound && !preProcRequired {
        return Fail(CompoundNotSupported);
      }
      if preProcRequired {
        preProcData := preProcData[name := d];
        return Pass;
      }
      if d.size != ElementCount(expected) {
        return Fail(SizeMismatch);
      }
      if expected.dims != d.desc.dims {
        return Fail(DimsMismatch);
      }
      if d.desc.layout != AnyLayout && expected.layout != AnyLayout && !SameBlocking(expected, d.desc) {
        return Fail(BlockingMismatch);
      }
      var memDesc := InputMemDesc(graph, name);
      if memDesc.Err? {
        return Fail(memDesc.error);
      }
      if d.desc == memDesc.value && name !in graph.normalizePreproc && graph.props.batchLimit == 0 {
        externalPtr := externalPtr[name := d.buffer];
      } else if name in externalPtr {
        externalPtr := externalPtr - {name};
      }
      inputs := inputs[name := d];
      return Pass;
    }

    /** The output half of `SetBlob`. */
    method SetOutput(name: string, d: Blob) returns (r: Outcome<Failure>)
      requires graph.Valid() && name in networkOutputs
      modifies this`outputs, this`externalPtr
      ensures match SetOutputSpec(old(State()), graph, networkOutputs[name], name, d)
              case Err(f) => r == Fail(f) && State() == old(State())
              case Ok(b) => r == Pass && State() == b
    {
      var expected := networkOutputs[name];
      if d.compound {
        return Fail(CompoundNotSupported);
      }
      if expected.precision != d.desc.precision {
        return Fail(PrecisionMismatch);
      }
      if d.size != ElementCount(expected) {
        return Fail(SizeMismatch);
      }
      if expected.dims != d.desc.dims {
        return Fail(DimsMismatch);
      }
      if d.desc.layout != AnyLayout && expected.layout != AnyLayout && !SameBlocking(expected, d.desc) {
        return Fail(BlockingMismatch);
      }
      var memDesc := OutputMemDesc(graph, name);
      if memDesc.Err? {
        return Fail(memDesc.error);
      }
      if d.desc == memDesc.value && graph.props.batchLimit == 0 {
        externalPtr := externalPtr[name := d.buffer];
      } else if name in externalPtr {
        externalPtr := externalPtr - {name};
      }
      outputs := outputs[name := d];
      return Pass;
    }

    /** `SetBlob` (lines 375-483); `preProcRequired` is the verdict of
        `preProcessingRequired` for this input and blob. */
    method SetBlob(name: string, data: Option<Blob>, preProcRequired: bool) returns (r: Outcome<Failure>)
      requires Valid()
      modifies this`inputs, this`outputs, this`externalPtr, this`preProcData
      ensures Valid()
      ensures (r, State()) == SetBlobSpec(old(State()), graph, networkInputs, networkOutputs, name, data, preProcRequired)
    {
      SetBlobKeepsBound(State(), graph, networkInputs, networkOutputs, name, data, preProcRequired);
      if name == [] {
        return Fail(EmptyName);
      }
      if data.None? {
        return Fail(NullBlob);
      }
      var d := data.value;
      if !d.compound && d.buffer == NullPtr {
        return Fail(BufferNotAllocated);
      }
      if d.size == 0 {
        return Fail(EmptyData);
      }
      var foundInput := name in networkInputs;
      var foundOutput := name in networkOutputs;
      if !foundInput && !foundOutput {
        return Fail(NoSuchInputOutput);
      }
      if foundInput {
        r := SetInput(name, d, preProcRequired);
        if r.Fail? {
          return r;
        }
      }
      if foundOutput {
        r := SetOutput(name, d);
        return r;
      }
      return Pass;
    }

    /** The input half of `GetBlob` after the ROI check. */
    method GetInput(name: string, newBuffer: Ptr, preProcRequired: bool) returns (r: Result<Blob, Failure>)
      requires graph.Valid()
      modifies this`inputs, this`externalPtr, this`preProcData
      ensures match GetInputSpec(old(State()), graph, networkInputs, name, newBuffer, preProcRequired)
              case Err(f) => r == Err(f) && State() == old(State())
              case Ok(res) => r == Ok(res.0) && State() == res.1
    {
      if name !in inputs {
        var memDesc := InputMemDesc(graph, name);
        if memDesc.Err? {
          return Err(memDesc.error);
        }
        var desc := memDesc.value;
        if name in networkInputs {
          desc := TensorDesc(networkInputs[name].precision, networkInputs[name].dims, networkInputs[name].layout, Dense);
        }
        inputs := inputs[name := Blob(desc, ElementCount(desc), newBuffer, false)];
        if memDesc.value == desc && name !in graph.normalizePreproc && graph.props.batchLimit == 0 {
          externalPtr := externalPtr[name := newBuffer];
        }
      }
      var data := inputs[name];
      if name in networkInputs && preProcRequired {
        preProcData := preProcData[name := data];
      }
      return Ok(data);
    }

    /** The output half of `GetBlob`; `data` is the input's blob, if any. */
    method GetOutput(name: string, data: Option<Blob>, newBuffer: Ptr, normalize: Precision -> Precision)
      returns (r: Outcome<Failure>)
      requires graph.Valid()
      modifies this`outputs, this`externalPtr
      ensures match GetOutputSpec(old(State()), graph, networkOutputs, name, data, newBuffer, normalize)
              case Err(f) => r == Fail(f) && State() == old(State())
              case Ok(b) => r == Pass && State() == b
    {
      if name in outputs {
        return Pass;
      }
      var memDesc := OutputMemDesc(graph, name);
      if memDesc.Err? {
        return Fail(memDesc.error);
      }
      var expected := memDesc.value;
      var d: Blob;
      if data.None? {
        if name !in networkOutputs {
          return Fail(AbsentInNetworkOutputs);
        }
        var netDesc := networkOutputs[name];
        var desc := TensorDesc(normalize(netDesc.precision), netDesc.dims, netDesc.layout, Dense);
        d := Blob(desc, ElementCount(desc), newBuffer, false);
      } else {
        d := data.value;
        if expected.precision != d.desc.precision {
          return Fail(SharedNameMismatch);
        }
        if expected.dims != d.desc.dims {
          return Fail(SharedNameMismatch);
        }
        if d.desc.layout != AnyLayout && expected.layout != AnyLayout && !SameBlocking(expected, d.desc) {
          return Fail(SharedNameMismatch);
        }
      }
      if name !in externalPtr && d.desc == expected && graph.props.batchLimit == 0 {
        externalPtr := externalPtr[name := d.buffer];
      }
      outputs := outputs[name := d];
      return Pass;
    }

    /** `GetBlob` (lines 485-599); `newBuffer` is what the allocator returns,
        `preProcRequired` the verdict of `preProcessingRequired` and
        `normalize` is `normalizeToSupportedPrecision`. */
    method GetBlob(name: string, newBuffer: Ptr, preProcRequired: bool, normalize: Precision -> Precision)
      returns (r: Result<Blob, Failure>)
      requires Valid()
      modifies this`inputs, this`outputs, this`externalPtr, this`preProcData
      ensures Valid()
      ensures (r, State()) == GetBlobSpec(old(State()), graph, networkInputs, networkOutputs, name, newBuffer, preProcRequired, normalize)
    {
      ghost var b0 := State();
      GetBlobKeepsBound(b0, graph, networkInputs, networkOutputs, name, newBuffer, preProcRequired, normalize);
      if !graph.ready {
        return Err(GraphNotReady);
      }
      var data: Option<Blob> := None;
      if name in graph.inputNodes {
        if name in preProcData {
          return Ok(preProcData[name]);
        }
        var ri := GetInput(name, newBuffer, preProcRequired);
        if ri.Err? {
          return ri;
        }
        data := Some(ri.value);
      }
      r := OutputOrInput(name, data, newBuffer, normalize);
    }

    /** The end of `GetBlob`: the output half for an output name, the
        input's blob otherwise. */
    method OutputOrInput(name: string, data: Option<Blob>, newBuffer: Ptr, normalize: Precision -> Precision)
      returns (r: Result<Blob, Failure>)
      requires graph.Valid()
      modifies this`outputs, this`externalPtr
      ensures (r, State()) == OutputOrInputBlob(old(State()), graph, networkOutputs, name, data, newBuffer, normalize)
    {
      if name in graph.outputNodes {
        var ro := GetOutput(name, data, newBuffer, normalize);
        if ro.Fail? {
          return Err(ro.error);
        }
        return Ok(outputs[name]);
      }
      if data.None? {
        return Err(BlobNotFound);
      }
      return Ok(data.value);
    }
  }
}
