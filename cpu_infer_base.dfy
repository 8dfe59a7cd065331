/** What the two inference-request classes of the CPU plugin share
    (`InferRequestBase`): the exceptions they throw, the blob bindings they keep,
    the memory states created with the request, the input precision rule and
    the re-pointing of graph edges at user buffers (`changeDefaultPtr`). */
module CpuInferBase {
  import opened Common
  import opened Text
  import opened CpuGraph

  /** Why an operation threw. */
  datatype Failure =
    | EmptyName | NullBlob | BufferNotAllocated | EmptyData | NoSuchInputOutput
    | PrecisionMismatch | CompoundNotSupported | SizeMismatch | DimsMismatch | BlockingMismatch
    | ShapeIncompatible | NullModelNode | NoInputMemory | NoOutputMemory | NullInterpretedBlob
    | GraphNotReady | AbsentInNetworkInputs | AbsentInNetworkOutputs | SharedNameMismatch | BlobNotFound
    | DynamicBatchDisabled | InvalidBatch | BatchNotApplicable | NoGraph | NoModelInputs
    | EmptyChildEdge | EmptyParentEdge | UnknownExternalName | UnsupportedPrecision

  /** The kind of exception each failure is thrown as. */
  function Code(f: Failure): StatusCode {
    match f
    case EmptyName | NoSuchInputOutput => NotFound
    case NullBlob | BufferNotAllocated => NotAllocated
    case PrecisionMismatch | DimsMismatch | BlockingMismatch | SharedNameMismatch => ParameterMismatch
    case CompoundNotSupported => NotImplemented
    case _ => GeneralError
  }

  /** The request's blob maps: `_inputs`, `_outputs`, `externalPtr` (names whose
      user buffer the graph may use directly) and `_preProcData` (the ROI blob
      kept for inputs that need preprocessing). */
  datatype Bindings = Bindings(inputs: map<string, Blob>, outputs: map<string, Blob>,
                               externalPtr: map<string, Ptr>, preProcData: map<string, Blob>)

  /** Every pointer recorded for zero-copy is the buffer of a blob bound under
      the same name. */
  predicate ZeroCopyBound(b: Bindings) {
    forall name :: name in b.externalPtr ==>
      (name in b.inputs && b.inputs[name].buffer == b.externalPtr[name]) ||
      (name in b.outputs && b.outputs[name].buffer == b.externalPtr[name])
  }

  /** The zero-copy decision of `SetBlob`: record `ptr` under `name` when
      eligible, otherwise erase `name`. */
  function Rebind(ext: map<string, Ptr>, name: string, eligible: bool, ptr: Ptr): (r: map<string, Ptr>)
    ensures name in r <==> eligible
    ensures eligible ==> r[name] == ptr
    ensures forall k :: k != name ==> (k in r <==> k in ext) && (k in r ==> r[k] == ext[k])
  {
    if eligible then ext[name := ptr] else ext - {name}
  }

  /** The descriptor of the memory on the input node's first child edge as a
      blob (`interpretAsBlob`): no such edge or a memory that is not a blob
      throws. */
  function InputMemDesc(g: Graph, name: string): Result<TensorDesc, Failure>
    requires g.Valid()
  {
    match InputEdge(g, name)
    case None => Err(NoInputMemory)
    case Some(e) => if g.edges[e].blobDesc.Some? then Ok(g.edges[e].blobDesc.value) else Err(NullInterpretedBlob)
  }

  /** The descriptor of the memory on the output node's first parent edge. */
  function OutputMemDesc(g: Graph, name: string): Result<TensorDesc, Failure>
    requires g.Valid()
  {
    match OutputEdge(g, name)
    case None => Err(NoOutputMemory)
    case Some(e) => if g.edges[e].blobDesc.Some? then Ok(g.edges[e].blobDesc.value) else Err(NullInterpretedBlob)
  }

  /** Binding a blob under `name` and deciding its zero-copy entry keeps every
      recorded pointer bound. */
  lemma RebindKeepsBound(b: Bindings, name: string, d: Blob, eligible: bool, asInput: bool)
    requires ZeroCopyBound(b)
    ensures ZeroCopyBound(
      if asInput then b.(inputs := b.inputs[name := d], externalPtr := Rebind(b.externalPtr, name, eligible, d.buffer))
      else b.(outputs := b.outputs[name := d], externalPtr := Rebind(b.externalPtr, name, eligible, d.buffer)))
  {
  }

  /** `b1` keeps every binding of `b` and binds at most `name` besides. */
  predicate Extends(b: Bindings, b1: Bindings, name: string) {
    && (forall k :: k in b.inputs ==> k in b1.inputs && b1.inputs[k] == b.inputs[k])
    && (forall k :: k in b.outputs ==> k in b1.outputs && b1.outputs[k] == b.outputs[k])
    && b1.inputs.Keys <= b.inputs.Keys + {name}
    && b1.outputs.Keys <= b.outputs.Keys + {name}
  }

  /** Binding a blob under an unbound input name, and possibly recording its
      buffer for zero-copy, extends the bindings and keeps them bound. */
  lemma BindInputStep(b: Bindings, name: string, d: Blob, record: bool)
    requires name !in b.inputs
    ensures var b1 := b.(inputs := b.inputs[name := d]);
      var b2 := if record then b1.(externalPtr := b1.externalPtr[name := d.buffer]) else b1;
      Extends(b, b2, name) && b2.outputs == b.outputs && b2.preProcData == b.preProcData
      && (ZeroCopyBound(b) ==> ZeroCopyBound(b2))
  {
  }

  /** The same for an unbound output name. */
  lemma BindOutputStep(b: Bindings, name: string, d: Blob, record: bool)
    requires name !in b.outputs
    ensures var b1 := b.(outputs := b.outputs[name := d]);
      var b2 := if record then b1.(externalPtr := b1.externalPtr[name := d.buffer]) else b1;
      Extends(b, b2, name) && b2.inputs == b.inputs && b2.preProcData == b.preProcData
      && (ZeroCopyBound(b) ==> ZeroCopyBound(b2))
  {
  }

  lemma ExtendsTransitive(b: Bindings, b1: Bindings, b2: Bindings, name: string)
    requires Extends(b, b1, name) && Extends(b1, b2, name)
    ensures Extends(b, b2, name)
  {
  }

  // ---------------------------------------------------------------- memory states

  /** A variable state exposed by `QueryState`: its name and its storage. */
  datatype VariableState = VariableState(name: string, store: Ptr)

  /** The marker that separates a memory layer's id from its pair id. */
  const PairIdMarker: string := "/id="

  /** The state name of a memory layer: its id cut just before the first
      "/id=", or the id itself when the marker does not occur. */
  function StripStateSuffix(id: string): (name: string)
    ensures name <= id
    ensures !Contains(name, PairIdMarker)
    ensures !Contains(id, PairIdMarker) ==> name == id
    ensures Contains(id, PairIdMarker) ==> OccursAt(id, PairIdMarker, |name|)
  {
    match Find(id, PairIdMarker, 0)
    case Some(i) =>
      NoOccurrenceBeforeFirst(id, PairIdMarker, i);
      id[..i]
    case None =>
      NoOccurrenceBeforeFirst(id, PairIdMarker, |id|);
      assert id[..|id|] == id;
      id
  }

  /** Stripping a state name a second time changes nothing. */
  lemma StripStateSuffixIdempotent(id: string)
    ensures StripStateSuffix(StripStateSuffix(id)) == StripStateSuffix(id)
  {
  }

  /** The states a request creates for its graph, in node order: one per
      MemoryInput node, named by its stripped id. */
  function MemoryStatesOf(nodes: seq<Node>): seq<VariableState> {
    if |nodes| == 0 then [] else MemoryStatesOf(nodes[..|nodes| - 1]) + StateOf(nodes[|nodes| - 1])
  }

  /** The state a single node contributes. */
  function StateOf(n: Node): seq<VariableState> {
    match n.kind
    case MemoryInput(id, store) => [VariableState(StripStateSuffix(id), store)]
    case _ => []
  }

  /** The number of MemoryInput nodes. */
  function MemoryInputCount(nodes: seq<Node>): nat {
    if |nodes| == 0 then 0
    else MemoryInputCount(nodes[..|nodes| - 1]) + (if nodes[|nodes| - 1].kind.MemoryInput? then 1 else 0)
  }

  /** There is one state per MemoryInput node, and no state name contains the
      pair-id marker. */
  lemma {:induction false} MemoryStatesShape(nodes: seq<Node>)
    ensures |MemoryStatesOf(nodes)| == MemoryInputCount(nodes)
    ensures forall k :: 0 <= k < |MemoryStatesOf(nodes)| ==> !Contains(MemoryStatesOf(nodes)[k].name, PairIdMarker)
  {
    if |nodes| > 0 {
      MemoryStatesShape(nodes[..|nodes| - 1]);
    }
  }

  /** The loop of `CreateInferRequest` over the graph's nodes. */
  method CollectMemoryStates(g: Graph) returns (states: seq<VariableState>)
    ensures states == MemoryStatesOf(g.nodes)
  {
    states := [];
    for i := 0 to |g.nodes|
      invariant states == MemoryStatesOf(g.nodes[..i])
    {
      assert g.nodes[..i + 1][..i] == g.nodes[..i];
      match g.nodes[i].kind {
        case MemoryInput(id, store) =>
          var suffixIdx := Find(id, PairIdMarker, 0);
          var stateName := if suffixIdx.Some? then id[..suffixIdx.value] else id;
          states := states + [VariableState(stateName, store)];
        case _ =>
      }
    }
    assert g.nodes[..|g.nodes|] == g.nodes;
  }

  /** `CreateInferRequest` apart from `initBlobs`: it throws when the network
      has no graph, and otherwise appends the graph's memory states. */
  method CreateInferRequest(graphCount: nat, g: Graph, memoryStates: seq<VariableState>)
    returns (r: Result<seq<VariableState>, Failure>)
    ensures graphCount == 0 <==> r == Err(NoGraph)
    ensures r.Ok? ==> r.value == memoryStates + MemoryStatesOf(g.nodes)
  {
    if graphCount == 0 {
      return Err(NoGraph);
    }
    var states := CollectMemoryStates(g);
    return Ok(memoryStates + states);
  }

  // ---------------------------------------------------------------- input precision

  /** `normToInputSupportedPrec`: inputs with a mean image and U8 or BOOL data
      are fed as FP32; any other precision goes through `normalize` (the
      plugin's `normalizeToSupportedPrecision`), and an UNSPECIFIED result
      throws. */
  function NormToInputSupportedPrec(g: Graph, name: string, input: Blob, normalize: Precision -> Precision)
    : (r: Result<Precision, Failure>)
    ensures r.Ok? ==> r.value != Unspecified
    ensures r.Err? ==> r.error == UnsupportedPrecision
    ensures name in g.meanImage && input.desc.precision in {U8, Bool} ==> r == Ok(FP32)
    ensures !(name in g.meanImage && input.desc.precision in {U8, Bool}) ==>
              r == if normalize(input.desc.precision) == Unspecified then Err(UnsupportedPrecision)
                   else Ok(normalize(input.desc.precision))
  {
    var inPrec := if name in g.meanImage && (input.desc.precision == U8 || input.desc.precision == Bool)
                  then FP32 else normalize(input.desc.precision);
    if inPrec == Unspecified then Err(UnsupportedPrecision) else Ok(inPrec)
  }

  // ---------------------------------------------------------------- changeDefaultPtr

  /** A child of the input node through which the input memory cannot be
      shared with the user's buffer. */
  predicate BlocksInPlace(n: Node) {
    n.isConstant || (n.kind.Concatenation? && n.kind.optimized) || n.kind.Split? || n.isInPlace
  }

  /** The input may share its child edge `ce`: the edge is alive, its child
      does not block in-place use, and none of the child's own child edges is
      alive with the same memory. */
  predicate ChildAllowsInPlace(g: Graph, mem: seq<Ptr>, ce: nat)
    requires g.Valid() && |mem| == |g.edges|
  {
    && ce < |g.edges|
    && !BlocksInPlace(g.nodes[g.edges[ce].child])
    && forall j :: 0 <= j < |g.nodes[g.edges[ce].child].childEdges| ==>
         && g.nodes[g.edges[ce].child].childEdges[j] < |g.edges|
         && mem[g.nodes[g.edges[ce].child].childEdges[j]] != mem[ce]
  }

  /** Every edge of `es` before position `j` is alive and does not hold `ptr`. */
  predicate NoneHoldsBefore(g: Graph, mem: seq<Ptr>, es: seq<nat>, ptr: Ptr, j: nat)
    requires g.Valid() && |mem| == |g.edges| && j <= |es|
  {
    forall i :: 0 <= i < j ==> es[i] < |g.edges| && mem[es[i]] != ptr
  }

  /** An expired edge is met in a scan of `es` for `ptr` before any edge
      holding `ptr`. */
  predicate ExpiredBeforeMatch(g: Graph, mem: seq<Ptr>, es: seq<nat>, ptr: Ptr)
    requires g.Valid() && |mem| == |g.edges|
  {
    exists j :: 0 <= j < |es| && es[j] >= |g.edges| && NoneHoldsBefore(g, mem, es, ptr, j)
  }

  /** Scanning `es` after a first edge that is alive and does not hold `ptr`
      is scanning its tail. */
  lemma {:induction false} ScanTail(g: Graph, mem: seq<Ptr>, es: seq<nat>, ptr: Ptr)
    requires g.Valid() && |mem| == |g.edges| && |es| > 0 && es[0] < |g.edges| && mem[es[0]] != ptr
    ensures forall j :: 0 <= j < |es| - 1 ==> (NoneHoldsBefore(g, mem, es, ptr, j + 1) <==> NoneHoldsBefore(g, mem, es[1..], ptr, j))
    ensures ExpiredBeforeMatch(g, mem, es, ptr) <==> ExpiredBeforeMatch(g, mem, es[1..], ptr)
  {
    assert forall i :: 1 <= i < |es| ==> es[i] == es[1..][i - 1];
    forall j | 0 <= j < |es| - 1
      ensures NoneHoldsBefore(g, mem, es, ptr, j + 1) <==> NoneHoldsBefore(g, mem, es[1..], ptr, j)
    {
      if NoneHoldsBefore(g, mem, es[1..], ptr, j) {
        forall i | 0 <= i < j + 1 ensures es[i] < |g.edges| && mem[es[i]] != ptr {
          if i > 0 { assert es[i] == es[1..][i - 1]; }
        }
      }
    }
    if ExpiredBeforeMatch(g, mem, es, ptr) {
      var j :| 0 <= j < |es| && es[j] >= |g.edges| && NoneHoldsBefore(g, mem, es, ptr, j);
      assert j > 0;
      assert es[1..][j - 1] >= |g.edges| && NoneHoldsBefore(g, mem, es[1..], ptr, j - 1);
    }
    if ExpiredBeforeMatch(g, mem, es[1..], ptr) {
      var j :| 0 <= j < |es[1..]| && es[1..][j] >= |g.edges| && NoneHoldsBefore(g, mem, es[1..], ptr, j);
      assert es[j + 1] >= |g.edges| && NoneHoldsBefore(g, mem, es, ptr, j + 1);
    }
  }

  /** Scanning `es` whose first edge has expired throws. */
  lemma ScanHeadExpired(g: Graph, mem: seq<Ptr>, es: seq<nat>, ptr: Ptr)
    requires g.Valid() && |mem| == |g.edges| && |es| > 0 && es[0] >= |g.edges|
    ensures ExpiredBeforeMatch(g, mem, es, ptr)
  {
    assert NoneHoldsBefore(g, mem, es, ptr, 0);
  }

  /** The scan of a child's edges for one holding `ptr`; an expired edge met
      before a match throws. */
  function SharesMemory(g: Graph, mem: seq<Ptr>, es: seq<nat>, ptr: Ptr): (r: Result<bool, Failure>)
    requires g.Valid() && |mem| == |g.edges|
    ensures r == Ok(false) <==> NoneHoldsBefore(g, mem, es, ptr, |es|)
    ensures r == Ok(true) ==> exists j :: 0 <= j < |es| && es[j] < |g.edges| && mem[es[j]] == ptr
    ensures r.Err? <==> ExpiredBeforeMatch(g, mem, es, ptr)
    ensures r.Err? ==> r.error == EmptyChildEdge
  {
    if |es| == 0 then Ok(false)
    else if es[0] >= |g.edges| then ScanHeadExpired(g, mem, es, ptr); Err(EmptyChildEdge)
    else if mem[es[0]] == ptr then Ok(true)
    else
      var rest := SharesMemory(g, mem, es[1..], ptr);
      ScanTail(g, mem, es, ptr);
      assert forall j :: 1 <= j < |es| ==> es[j] == es[1..][j - 1];
      rest
  }

  /** The child of `ce` and all of that child's own child edges are alive. */
  predicate ChildEdgesAlive(g: Graph, ce: nat)
    requires g.Valid()
  {
    && ce < |g.edges|
    && forall j :: 0 <= j < |g.nodes[g.edges[ce].child].childEdges| ==>
         g.nodes[g.edges[ce].child].childEdges[j] < |g.edges|
  }

  /** The `canBeInPlace` loop over the input node's child edges. */
  function InputEdgesCanBeInPlace(g: Graph, mem: seq<Ptr>, ces: seq<nat>): (r: Result<bool, Failure>)
    requires g.Valid() && |mem| == |g.edges|
    ensures r == Ok(true) <==> forall k :: 0 <= k < |ces| ==> ChildAllowsInPlace(g, mem, ces[k])
    ensures r.Err? ==> r.error == EmptyChildEdge
    ensures (forall k :: 0 <= k < |ces| ==> ChildEdgesAlive(g, ces[k])) ==> r.Ok?
  {
    if |ces| == 0 then Ok(true)
    else if ces[0] >= |g.edges| then Err(EmptyChildEdge)
    else
      var child := g.nodes[g.edges[ces[0]].child];
      if BlocksInPlace(child) then Ok(false)
      else match SharesMemory(g, mem, child.childEdges, mem[ces[0]])
        case Err(f) =>
          assert !ChildEdgesAlive(g, ces[0]);
          Err(f)
        case Ok(true) => Ok(false)
        case Ok(false) =>
          var rest := InputEdgesCanBeInPlace(g, mem, ces[1..]);
          assert forall k :: 1 <= k < |ces| ==> ces[k] == ces[1..][k - 1];
          rest
  }

  /** `mem` with every edge of `es` pointed at `ptr`. */
  function Repointed(mem: seq<Ptr>, es: seq<nat>, ptr: Ptr): (r: seq<Ptr>)
    requires forall k :: 0 <= k < |es| ==> es[k] < |mem|
    ensures |r| == |mem|
    ensures forall e :: 0 <= e < |mem| ==> r[e] == if e in es then ptr else mem[e]
    decreases |es|
  {
    if |es| == 0 then mem
    else
      var rest := Repointed(mem[es[0] := ptr], es[1..], ptr);
      assert forall e :: e in es <==> e == es[0] || e in es[1..];
      rest
  }

  /** The effect of an `externalPtr` entry that names a graph input: nothing
      when the first child edge already holds `ptr`, otherwise every child
      edge re-pointed at `ptr` when every child allows it. */
  function InputEntry(g: Graph, mem: seq<Ptr>, name: string, ptr: Ptr): (r: Result<seq<Ptr>, Failure>)
    requires g.Valid() && |mem| == |g.edges| && name in g.inputNodes
    ensures r.Ok? ==> |r.value| == |mem|
    ensures r.Ok? ==> forall e :: 0 <= e < |mem| && r.value[e] != mem[e] ==>
              r.value[e] == ptr && e in g.nodes[g.inputNodes[name]].childEdges
    ensures r.Ok? && r.value != mem ==>
              forall k :: 0 <= k < |g.nodes[g.inputNodes[name]].childEdges| ==>
                ChildAllowsInPlace(g, mem, g.nodes[g.inputNodes[name]].childEdges[k])
    ensures r.Err? ==> r.error == EmptyChildEdge
    ensures var ces := g.nodes[g.inputNodes[name]].childEdges;
            |ces| == 0 || ces[0] >= |g.edges| ==> r == Err(EmptyChildEdge)
    ensures var ces := g.nodes[g.inputNodes[name]].childEdges;
            |ces| > 0 && ces[0] < |g.edges| && mem[ces[0]] == ptr ==> r == Ok(mem)
    ensures var ces := g.nodes[g.inputNodes[name]].childEdges;
            |ces| > 0 && ces[0] < |g.edges| && mem[ces[0]] != ptr &&
            (forall k :: 0 <= k < |ces| ==> ChildAllowsInPlace(g, mem, ces[k])) ==>
              r == Ok(Repointed(mem, ces, ptr))
    ensures var ces := g.nodes[g.inputNodes[name]].childEdges;
            |ces| > 0 && (forall k :: 0 <= k < |ces| ==> ChildEdgesAlive(g, ces[k])) &&
            !(forall k :: 0 <= k < |ces| ==> ChildAllowsInPlace(g, mem, ces[k])) ==>
              r == Ok(mem)
  {
    var ces := g.nodes[g.inputNodes[name]].childEdges;
    if |ces| == 0 || ces[0] >= |g.edges| then Err(EmptyChildEdge)
    else if mem[ces[0]] == ptr then Ok(mem)
    else match InputEdgesCanBeInPlace(g, mem, ces)
      case Err(f) => Err(f)
      case Ok(canBeInPlace) => Ok(if canBeInPlace then Repointed(mem, ces, ptr) else mem)
  }

  /** A producer whose output memory an output may not replace: it has other
      consumers, or is constant or in-place. */
  predicate SingleUse(n: Node) {
    |n.childEdges| == 1 && !n.isConstant && !n.isInPlace
  }

  /** The scan of a node's parent edges for one holding `ptr`: the index of
      the first alive edge that does, `None` if none does; an expired edge met
      first throws. */
  function FindEdgeHolding(g: Graph, mem: seq<Ptr>, es: seq<nat>, ptr: Ptr): (r: Result<Option<nat>, Failure>)
    requires g.Valid() && |mem| == |g.edges|
    ensures r.Ok? && r.value.Some? ==>
              && r.value.value < |es| && es[r.value.value] < |g.edges| && mem[es[r.value.value]] == ptr
              && NoneHoldsBefore(g, mem, es, ptr, r.value.value)
    ensures r == Ok(None) <==> NoneHoldsBefore(g, mem, es, ptr, |es|)
    ensures r.Err? <==> ExpiredBeforeMatch(g, mem, es, ptr)
    ensures r.Err? ==> r.error == EmptyParentEdge
  {
    if |es| == 0 then Ok(None)
    else if es[0] >= |g.edges| then ScanHeadExpired(g, mem, es, ptr); Err(EmptyParentEdge)
    else if mem[es[0]] == ptr then Ok(Some(0))
    else
      ScanTail(g, mem, es, ptr);
      assert forall j :: 1 <= j < |es| ==> es[j] == es[1..][j - 1];
      match FindEdgeHolding(g, mem, es[1..], ptr)
      case Err(f) => Err(f)
      case Ok(None) => Ok(None)
      case Ok(Some(k)) => Ok(Some(k + 1))
  }

  /** The do-while walk from the output's producer up the chain of nodes that
      hold the same memory `defaultPtr`: in-place use is allowed when every
      node on the chain is single-use. */
  function ParentChainAllowsInPlace(g: Graph, mem: seq<Ptr>, p: nat, defaultPtr: Ptr): (r: Result<bool, Failure>)
    requires g.Valid() && |mem| == |g.edges| && p < |g.nodes|
    ensures r == Ok(true) ==> SingleUse(g.nodes[p])
    ensures r.Err? ==> r.error == EmptyParentEdge
    decreases p
  {
    var n := g.nodes[p];
    if !SingleUse(n) then Ok(false)
    else match FindEdgeHolding(g, mem, n.parentEdges, defaultPtr)
      case Err(f) => Err(f)
      case Ok(None) => Ok(true)
      case Ok(Some(k)) =>
        ParentChainAllowsInPlace(g, mem, g.edges[n.parentEdges[k]].parent, defaultPtr)
  }

  /** A move of the walk is possible from `a`: it is single-use and one of
      its alive parent edges holds `ptr`. */
  predicate CanStep(g: Graph, mem: seq<Ptr>, ptr: Ptr, a: nat)
    requires g.Valid() && |mem| == |g.edges| && a < |g.nodes|
  {
    && SingleUse(g.nodes[a])
    && var f := FindEdgeHolding(g, mem, g.nodes[a].parentEdges, ptr);
       f.Ok? && f.value.Some?
  }

  /** The node a move from `a` reaches: the producer of `a`'s first alive
      parent edge holding `ptr`. */
  function StepTarget(g: Graph, mem: seq<Ptr>, ptr: Ptr, a: nat): (b: nat)
    requires g.Valid() && |mem| == |g.edges| && a < |g.nodes| && CanStep(g, mem, ptr, a)
    ensures b < a
  {
    g.edges[g.nodes[a].parentEdges[FindEdgeHolding(g, mem, g.nodes[a].parentEdges, ptr).value.value]].parent
  }

  /** The nodes the do-while walk visits from `p`, in order: it moves on
      while the current node is single-use and one of its parent edges holds
      `ptr`. */
  function Walk(g: Graph, mem: seq<Ptr>, p: nat, ptr: Ptr): (w: seq<nat>)
    requires g.Valid() && |mem| == |g.edges| && p < |g.nodes|
    ensures |w| >= 1 && w[0] == p
    ensures forall i :: 0 <= i < |w| ==> w[i] < |g.nodes|
    decreases p
  {
    var n := g.nodes[p];
    if !SingleUse(n) then [p]
    else match FindEdgeHolding(g, mem, n.parentEdges, ptr)
      case Ok(Some(k)) => [p] + Walk(g, mem, g.edges[n.parentEdges[k]].parent, ptr)
      case _ => [p]
  }

  /** The walk makes every move possible, each to a lower node index, and
      stops at the first node from which no move is possible. */
  lemma {:induction false} WalkSteps(g: Graph, mem: seq<Ptr>, p: nat, ptr: Ptr)
    requires g.Valid() && |mem| == |g.edges| && p < |g.nodes|
    ensures var w := Walk(g, mem, p, ptr);
            forall i :: 0 <= i < |w| - 1 ==>
              CanStep(g, mem, ptr, w[i]) && w[i + 1] == StepTarget(g, mem, ptr, w[i]) && w[i + 1] < w[i]
    ensures var w := Walk(g, mem, p, ptr);
            !CanStep(g, mem, ptr, w[|w| - 1])
    decreases p
  {
    var w := Walk(g, mem, p, ptr);
    if CanStep(g, mem, ptr, p) {
      var q := StepTarget(g, mem, ptr, p);
      WalkMove(g, mem, p, ptr);
      WalkSteps(g, mem, q, ptr);
      var w' := Walk(g, mem, q, ptr);
      forall i | 0 <= i < |w| - 1
        ensures CanStep(g, mem, ptr, w[i]) && w[i + 1] == StepTarget(g, mem, ptr, w[i]) && w[i + 1] < w[i]
      {
        if i > 0 {
          assert w[i] == w'[i - 1] && w[i + 1] == w'[i];
        }
      }
      assert w[|w| - 1] == w'[|w'| - 1];
    }
  }

  /** A move of the walk: both the walk and the chain test go on from the
      node it reaches. */
  lemma {:induction false} WalkMove(g: Graph, mem: seq<Ptr>, p: nat, ptr: Ptr)
    requires g.Valid() && |mem| == |g.edges| && p < |g.nodes| && CanStep(g, mem, ptr, p)
    ensures Walk(g, mem, p, ptr) == [p] + Walk(g, mem, StepTarget(g, mem, ptr, p), ptr)
    ensures ParentChainAllowsInPlace(g, mem, p, ptr) == ParentChainAllowsInPlace(g, mem, StepTarget(g, mem, ptr, p), ptr)
  {
    var f := FindEdgeHolding(g, mem, g.nodes[p].parentEdges, ptr);
    assert f == Ok(Some(f.value.value));
  }

  /** The walk's outcome is decided at its last node. */
  lemma {:induction false} ParentChainAtLast(g: Graph, mem: seq<Ptr>, p: nat, ptr: Ptr)
    requires g.Valid() && |mem| == |g.edges| && p < |g.nodes|
    ensures var w := Walk(g, mem, p, ptr);
            ParentChainAllowsInPlace(g, mem, p, ptr) == ParentChainAllowsInPlace(g, mem, w[|w| - 1], ptr)
    decreases p
  {
    if CanStep(g, mem, ptr, p) {
      var q := StepTarget(g, mem, ptr, p);
      WalkMove(g, mem, p, ptr);
      ParentChainAtLast(g, mem, q, ptr);
      var w' := Walk(g, mem, q, ptr);
      assert Walk(g, mem, p, ptr)[|w'|] == w'[|w'| - 1];
    } else {
      assert Walk(g, mem, p, ptr) == [p];
    }
  }

  /** At a node from which the walk cannot move on, the chain test is the
      node's own verdict. */
  lemma {:induction false} ParentChainAtStop(g: Graph, mem: seq<Ptr>, l: nat, ptr: Ptr)
    requires g.Valid() && |mem| == |g.edges| && l < |g.nodes| && !CanStep(g, mem, ptr, l)
    ensures ParentChainAllowsInPlace(g, mem, l, ptr) == Ok(true) <==>
              SingleUse(g.nodes[l]) && NoneHoldsBefore(g, mem, g.nodes[l].parentEdges, ptr, |g.nodes[l].parentEdges|)
    ensures ParentChainAllowsInPlace(g, mem, l, ptr) == Ok(false) <==> !SingleUse(g.nodes[l])
    ensures ParentChainAllowsInPlace(g, mem, l, ptr).Err? <==>
              SingleUse(g.nodes[l]) && ExpiredBeforeMatch(g, mem, g.nodes[l].parentEdges, ptr)
  {
    var f := FindEdgeHolding(g, mem, g.nodes[l].parentEdges, ptr);
    assert SingleUse(g.nodes[l]) ==> f.Err? || f == Ok(None);
  }

  /** Every node the walk visits is single-use exactly when its last one is. */
  lemma {:induction false} WalkSingleUse(g: Graph, mem: seq<Ptr>, p: nat, ptr: Ptr)
    requires g.Valid() && |mem| == |g.edges| && p < |g.nodes|
    ensures var w := Walk(g, mem, p, ptr);
            (forall i :: 0 <= i < |w| ==> SingleUse(g.nodes[w[i]])) <==> SingleUse(g.nodes[w[|w| - 1]])
  {
    WalkSteps(g, mem, p, ptr);
    var w := Walk(g, mem, p, ptr);
    assert forall i :: 0 <= i < |w| - 1 ==> CanStep(g, mem, ptr, w[i]);
  }

  /** `ParentChainAllowsInPlace` read along the walk: true exactly when every
      visited node is single-use and the last one's scan finds no edge
      holding the pointer; false when the walk stops at a node that is not
      single-use; a throw when the last scan meets an expired edge first. */
  lemma {:induction false} ParentChainIsWalk(g: Graph, mem: seq<Ptr>, p: nat, ptr: Ptr)
    requires g.Valid() && |mem| == |g.edges| && p < |g.nodes|
    ensures var w := Walk(g, mem, p, ptr);
            var last := g.nodes[w[|w| - 1]];
            ParentChainAllowsInPlace(g, mem, p, ptr) == Ok(true) <==>
              (forall i :: 0 <= i < |w| ==> SingleUse(g.nodes[w[i]])) &&
              NoneHoldsBefore(g, mem, last.parentEdges, ptr, |last.parentEdges|)
    ensures var w := Walk(g, mem, p, ptr);
            ParentChainAllowsInPlace(g, mem, p, ptr) == Ok(false) <==> !SingleUse(g.nodes[w[|w| - 1]])
    ensures var w := Walk(g, mem, p, ptr);
            var last := g.nodes[w[|w| - 1]];
            ParentChainAllowsInPlace(g, mem, p, ptr).Err? <==>
              SingleUse(last) && ExpiredBeforeMatch(g, mem, last.parentEdges, ptr)
  {
    var w := Walk(g, mem, p, ptr);
    WalkSteps(g, mem, p, ptr);
    ParentChainAtLast(g, mem, p, ptr);
    ParentChainAtStop(g, mem, w[|w| - 1], ptr);
    WalkSingleUse(g, mem, p, ptr);
  }

  /** The effect of an `externalPtr` entry that names a graph output: nothing
      when its parent edge already holds `ptr`, otherwise that edge
      re-pointed at `ptr` when the producer chain allows it. */
  function OutputEntry(g: Graph, mem: seq<Ptr>, name: string, ptr: Ptr): (r: Result<seq<Ptr>, Failure>)
    requires g.Valid() && |mem| == |g.edges| && name in g.outputNodes
    ensures r.Ok? ==> r.value == mem || (OutputEdge(g, name).Some? && r.value == mem[OutputEdge(g, name).value := ptr])
    ensures r.Ok? && r.value != mem ==>
              OutputEdge(g, name).Some? && SingleUse(g.nodes[g.edges[OutputEdge(g, name).value].parent])
    ensures r.Err? ==> r.error == EmptyParentEdge
    ensures OutputEdge(g, name).None? ==> r == Err(EmptyParentEdge)
    ensures OutputEdge(g, name).Some? && mem[OutputEdge(g, name).value] == ptr ==> r == Ok(mem)
    ensures var pe := OutputEdge(g, name);
            pe.Some? && mem[pe.value] != ptr ==>
              && (ParentChainAllowsInPlace(g, mem, g.edges[pe.value].parent, mem[pe.value]) == Ok(true) ==>
                    r == Ok(mem[pe.value := ptr]))
              && (ParentChainAllowsInPlace(g, mem, g.edges[pe.value].parent, mem[pe.value]) == Ok(false) ==>
                    r == Ok(mem))
              && (ParentChainAllowsInPlace(g, mem, g.edges[pe.value].parent, mem[pe.value]).Err? ==>
                    r == Err(EmptyParentEdge))
  {
    var pes := g.nodes[g.outputNodes[name]].parentEdges;
    if |pes| == 0 || pes[0] >= |g.edges| then Err(EmptyParentEdge)
    else if mem[pes[0]] == ptr then Ok(mem)
    else match ParentChainAllowsInPlace(g, mem, g.edges[pes[0]].parent, mem[pes[0]])
      case Err(f) => Err(f)
      case Ok(canBeInPlace) => Ok(if canBeInPlace then mem[pes[0] := ptr] else mem)
  }

  /** `changeDefaultPtr` over the entries of `externalPtr` in the order
      `order`: the outcome and the edges' data pointers afterwards. A throw
      keeps what the earlier entries did. */
  function ChangeDefaultPtrSpec(g: Graph, mem: seq<Ptr>, ext: map<string, Ptr>, order: seq<string>)
    : (r: (Outcome<Failure>, seq<Ptr>))
    requires g.Valid() && |mem| == |g.edges|
    requires forall k :: 0 <= k < |order| ==> order[k] in ext
    ensures |r.1| == |mem|
    ensures r.0.Pass? ==> forall k :: 0 <= k < |order| ==> order[k] in g.inputNodes || order[k] in g.outputNodes
    ensures forall e :: 0 <= e < |mem| && r.1[e] != mem[e] ==> exists k :: 0 <= k < |order| && r.1[e] == ext[order[k]]
    ensures |order| > 0 && order[0] !in g.inputNodes && order[0] !in g.outputNodes ==>
              r == (Fail(UnknownExternalName), mem)
    decreases |order|
  {
    if |order| == 0 then (Pass, mem)
    else
      var name := order[0];
      var step := if name in g.inputNodes then InputEntry(g, mem, name, ext[name])
                  else if name in g.outputNodes then OutputEntry(g, mem, name, ext[name])
                  else Err(UnknownExternalName);
      match step
      case Err(f) => (Fail(f), mem)
      case Ok(mem1) =>
        var rest := ChangeDefaultPtrSpec(g, mem1, ext, order[1..]);
        assert forall k :: 1 <= k < |order| ==> order[k] == order[1..][k - 1];
        assert forall e :: 0 <= e < |mem| && rest.1[e] != mem[e] && rest.1[e] == mem1[e] ==> mem1[e] == ext[order[0]];
        rest
  }

  /** The entries are applied one after another: running `a + b` is running
      `a` and, when that succeeds, running `b` from where it left the edges;
      a throw in `a` skips `b` and keeps what `a` did before it. */
  lemma {:induction false} ChangeDefaultPtrSpecAppend(g: Graph, mem: seq<Ptr>, ext: map<string, Ptr>,
                                                      a: seq<string>, b: seq<string>)
    requires g.Valid() && |mem| == |g.edges|
    requires forall k :: 0 <= k < |a| ==> a[k] in ext
    requires forall k :: 0 <= k < |b| ==> b[k] in ext
    ensures forall k :: 0 <= k < |a + b| ==> (a + b)[k] in ext
    ensures ChangeDefaultPtrSpec(g, mem, ext, a + b) ==
            var first := ChangeDefaultPtrSpec(g, mem, ext, a);
            if first.0.Pass? then ChangeDefaultPtrSpec(g, first.1, ext, b) else first
    decreases |a|
  {
    assert forall k :: 0 <= k < |a + b| ==> (a + b)[k] == if k < |a| then a[k] else b[k - |a|];
    if |a| > 0 {
      assert (a + b)[0] == a[0];
      assert (a + b)[1..] == a[1..] + b;
      var name := a[0];
      var step := if name in g.inputNodes then InputEntry(g, mem, name, ext[name])
                  else if name in g.outputNodes then OutputEntry(g, mem, name, ext[name])
                  else Err(UnknownExternalName);
      if step.Ok? {
        ChangeDefaultPtrSpecAppend(g, step.value, ext, a[1..], b);
      }
    } else {
      assert a + b == b;
    }
  }

  /** The outcome and edges of one entry's work: a success passes with the
      new edges, a throw fails and leaves `mem` as it was. */
  function Lift(step: Result<seq<Ptr>, Failure>, mem: seq<Ptr>): (r: (Outcome<Failure>, seq<Ptr>))
    ensures r.0.Pass? <==> step.Ok?
    ensures step.Ok? ==> r == (Pass, step.value)
    ensures step.Err? ==> r == (Fail(step.error), mem)
  {
    if step.Ok? then (Pass, step.value) else (Fail(step.error), mem)
  }

  /** No entry passes with the edges unchanged, and a single entry does the
      work of InputEntry for an input name and of OutputEntry for an output
      name. With ChangeDefaultPtrSpecAppend this fixes the outcome entry by
      entry. */
  lemma {:induction false} ChangeDefaultPtrSpecEntries(g: Graph, mem: seq<Ptr>, ext: map<string, Ptr>, name: string)
    requires g.Valid() && |mem| == |g.edges| && name in ext
    ensures ChangeDefaultPtrSpec(g, mem, ext, []) == (Pass, mem)
    ensures name in g.inputNodes ==>
              ChangeDefaultPtrSpec(g, mem, ext, [name]) == Lift(InputEntry(g, mem, name, ext[name]), mem)
    ensures name !in g.inputNodes && name in g.outputNodes ==>
              ChangeDefaultPtrSpec(g, mem, ext, [name]) == Lift(OutputEntry(g, mem, name, ext[name]), mem)
    ensures name !in g.inputNodes && name !in g.outputNodes ==>
              ChangeDefaultPtrSpec(g, mem, ext, [name]) == (Fail(UnknownExternalName), mem)
  {
    assert [name][1..] == [];
  }

  /** The inner loop over a child's edges (lines 244-254). */
  method ChildSharesMemory(g: Graph, es: seq<nat>, ptr: Ptr) returns (r: Result<bool, Failure>)
    requires g.Valid()
    ensures r == SharesMemory(g, g.edgeMem[..], es, ptr)
  {
    for k := 0 to |es|
      invariant SharesMemory(g, g.edgeMem[..], es, ptr) == SharesMemory(g, g.edgeMem[..], es[k..], ptr)
    {
      assert es[k..][1..] == es[k + 1..];
      if es[k] >= |g.edges| {
        return Err(EmptyChildEdge);
      }
      if g.edgeMem[es[k]] == ptr {
        return Ok(true);
      }
    }
    return Ok(false);
  }

  /** The `canBeInPlace` loop over the input node's child edges (lines 212-258). */
  method InputCanBeInPlace(g: Graph, ces: seq<nat>) returns (r: Result<bool, Failure>)
    requires g.Valid()
    ensures r == InputEdgesCanBeInPlace(g, g.edgeMem[..], ces)
  {
    for k := 0 to |ces|
      invariant InputEdgesCanBeInPlace(g, g.edgeMem[..], ces) == InputEdgesCanBeInPlace(g, g.edgeMem[..], ces[k..])
    {
      assert ces[k..][1..] == ces[k + 1..];
      var ce := ces[k];
      if ce >= |g.edges| {
        return Err(EmptyChildEdge);
      }
      var child := g.nodes[g.edges[ce].child];
      if BlocksInPlace(child) {
        return Ok(false);
      }
      var shares := ChildSharesMemory(g, child.childEdges, g.edgeMem[ce]);
      if shares.Err? {
        return Err(shares.error);
      }
      if shares.value {
        return Ok(false);
      }
    }
    return Ok(true);
  }

  /** Points every edge of `es` at `ptr` (`changeEdgePtr`). */
  method RepointEdges(g: Graph, es: seq<nat>, ptr: Ptr)
    requires g.Valid() && forall k :: 0 <= k < |es| ==> es[k] < |g.edges|
    modifies g.edgeMem
    ensures g.edgeMem[..] == Repointed(old(g.edgeMem[..]), es, ptr)
  {
    for k := 0 to |es|
      invariant Repointed(old(g.edgeMem[..]), es, ptr) == Repointed(g.edgeMem[..], es[k..], ptr)
    {
      assert es[k..][1..] == es[k + 1..];
      g.edgeMem[es[k]] := ptr;
    }
  }

  /** The first edge of `es` that is alive and holds `ptr`, or that has
      expired, decides the scan. */
  lemma {:induction false} FindEdgeHoldingAt(g: Graph, mem: seq<Ptr>, es: seq<nat>, ptr: Ptr, j: nat)
    requires g.Valid() && |mem| == |g.edges| && j < |es| && NoneHoldsBefore(g, mem, es, ptr, j)
    ensures es[j] < |g.edges| && mem[es[j]] == ptr ==> FindEdgeHolding(g, mem, es, ptr) == Ok(Some(j))
    ensures es[j] >= |g.edges| ==> FindEdgeHolding(g, mem, es, ptr) == Err(EmptyParentEdge)
  {
    if es[j] >= |g.edges| {
      assert ExpiredBeforeMatch(g, mem, es, ptr);
    } else if mem[es[j]] == ptr {
      var r := FindEdgeHolding(g, mem, es, ptr);
      assert r.Ok? && r.value.Some? ==> r.value.value == j;
    }
  }

  /** The scan of a node's parent edges for the one holding `ptr` (lines 291-301). */
  method FindParentEdge(g: Graph, es: seq<nat>, ptr: Ptr) returns (r: Result<Option<nat>, Failure>)
    requires g.Valid()
    ensures r == FindEdgeHolding(g, g.edgeMem[..], es, ptr)
  {
    for k := 0 to |es|
      invariant NoneHoldsBefore(g, g.edgeMem[..], es, ptr, k)
    {
      if es[k] >= |g.edges| {
        FindEdgeHoldingAt(g, g.edgeMem[..], es, ptr, k);
        return Err(EmptyParentEdge);
      }
      if g.edgeMem[es[k]] == ptr {
        FindEdgeHoldingAt(g, g.edgeMem[..], es, ptr, k);
        return Ok(Some(k));
      }
    }
    return Ok(None);
  }

  /** The do-while walk up the producers of an output (lines 284-302). */
  method OutputCanBeInPlace(g: Graph, start: nat, defaultPtr: Ptr) returns (r: Result<bool, Failure>)
    requires g.Valid() && start < |g.nodes|
    ensures r == ParentChainAllowsInPlace(g, g.edgeMem[..], start, defaultPtr)
  {
    var parent: nat := start;
    // the source's `while (previousParent != parent)` ends exactly when no parent
    // edge holds `defaultPtr`: a found edge's parent always has a lower index
    while true
      invariant parent < |g.nodes|
      invariant ParentChainAllowsInPlace(g, g.edgeMem[..], start, defaultPtr) ==
                ParentChainAllowsInPlace(g, g.edgeMem[..], parent, defaultPtr)
      decreases parent
    {
      var n := g.nodes[parent];
      if !SingleUse(n) {
        return Ok(false);
      }
      var found := FindParentEdge(g, n.parentEdges, defaultPtr);
      if found.Err? {
        return Err(found.error);
      }
      if found.value.None? {
        return Ok(true);
      }
      parent := g.edges[n.parentEdges[found.value.value]].parent;
    }
  }

  /** Applies one `externalPtr` entry that names a graph input. */
  method RepointInput(g: Graph, name: string, ptr: Ptr) returns (r: Outcome<Failure>)
    requires g.Valid() && name in g.inputNodes
    modifies g.edgeMem
    ensures match InputEntry(g, old(g.edgeMem[..]), name, ptr)
            case Err(f) => r == Fail(f) && g.edgeMem[..] == old(g.edgeMem[..])
            case Ok(mem) => r == Pass && g.edgeMem[..] == mem
  {
    var ces := g.nodes[g.inputNodes[name]].childEdges;
    if |ces| == 0 || ces[0] >= |g.edges| {
      return Fail(EmptyChildEdge);
    }
    if g.edgeMem[ces[0]] == ptr {
      return Pass;
    }
    var canBeInPlace := InputCanBeInPlace(g, ces);
    if canBeInPlace.Err? {
      return Fail(canBeInPlace.error);
    }
    if canBeInPlace.value {
      RepointEdges(g, ces, ptr);
    }
    return Pass;
  }

  /** Applies one `externalPtr` entry that names a graph output. */
  method RepointOutput(g: Graph, name: string, ptr: Ptr) returns (r: Outcome<Failure>)
    requires g.Valid() && name in g.outputNodes
    modifies g.edgeMem
    ensures match OutputEntry(g, old(g.edgeMem[..]), name, ptr)
            case Err(f) => r == Fail(f) && g.edgeMem[..] == old(g.edgeMem[..])
            case Ok(mem) => r == Pass && g.edgeMem[..] == mem
  {
    var pes := g.nodes[g.outputNodes[name]].parentEdges;
    if |pes| == 0 || pes[0] >= |g.edges| {
      return Fail(EmptyParentEdge);
    }
    var parentEdge := pes[0];
    if g.edgeMem[parentEdge] == ptr {
      return Pass;
    }
    var canBeInPlace := OutputCanBeInPlace(g, g.edges[parentEdge].parent, g.edgeMem[parentEdge]);
    if canBeInPlace.Err? {
      return Fail(canBeInPlace.error);
    }
    if canBeInPlace.value {
      g.edgeMem[parentEdge] := ptr;
    }
    return Pass;
  }

  /** `changeDefaultPtr`: walks `externalPtr` in key order (`order`, the order
      in which `std::map` iterates it) and re-points graph edges at the
      recorded user buffers where that is safe. */
  method ChangeDefaultPtr(g: Graph, externalPtr: map<string, Ptr>, order: seq<string>) returns (r: Outcome<Failure>)
    requires g.Valid()
    requires forall k :: 0 <= k < |order| ==> order[k] in externalPtr
    requires forall name :: name in externalPtr ==> name in order
    requires forall i, j :: 0 <= i < j < |order| ==> order[i] != order[j]
    modifies g.edgeMem
    ensures (r, g.edgeMem[..]) == ChangeDefaultPtrSpec(g, old(g.edgeMem[..]), externalPtr, order)
  {
    for i := 0 to |order|
      invariant ChangeDefaultPtrSpec(g, old(g.edgeMem[..]), externalPtr, order) ==
                ChangeDefaultPtrSpec(g, g.edgeMem[..], externalPtr, order[i..])
    {
      assert order[i..][1..] == order[i + 1..];
      var name := order[i];
      var step: Outcome<Failure>;
      if name in g.inputNodes {
        step := RepointInput(g, name, externalPtr[name]);
      } else if name in g.outputNodes {
        step := RepointOutput(g, name, externalPtr[name]);
      } else {
        step := Fail(UnknownExternalName);
      }
      if step.Fail? {
        return step;
      }
    }
    return Pass;
  }
}
