/** The part of the CPU plugin's execution graph and of the Inference Engine's
    tensor types that an inference request reads and writes. Blobs and
    descriptors are records; the graph's structure is fixed, while the data
    pointers of the edges' memories and the nodes' dynamic batch limits are
    arrays that the request updates in place. */
module CpuGraph {
  import opened Common

  /** The `IE_THROW` kinds. */
  datatype StatusCode = GeneralError | NotFound | NotAllocated | ParameterMismatch | NotImplemented

  /** A raw data pointer; 0 is `nullptr`. */
  type Ptr = nat
  const NullPtr: Ptr := 0

  datatype Precision =
    | Unspecified | FP64 | FP32 | FP16 | BF16
    | I8 | U8 | I16 | U16 | I32 | U32 | I64 | U64 | Bool
    | OtherPrecision(code: nat)

  datatype Layout =
    | AnyLayout | Scalar | C | NC | CN | HW | CHW | HWC | NCHW | NHWC | NCDHW | NDHWC | Blocked

  /** The blocking part of a tensor descriptor: `Dense` is the blocking that the
      layout implies for the dimensions; `Strided(id)` stands for any other
      blocking (offsets, padding, blocked formats), identified by `id`. */
  datatype Blocking = Dense | Strided(id: nat)

  datatype TensorDesc = TensorDesc(precision: Precision, dims: seq<nat>, layout: Layout, blocking: Blocking)

  /** A blob: its descriptor, its element count (`size()`), its data pointer
      (`buffer()`) and whether it is a compound blob. */
  datatype Blob = Blob(desc: TensorDesc, size: nat, buffer: Ptr, compound: bool)

  /** `InferenceEngine::details::product`: 0 for no dimensions, otherwise the
      product of the dimensions. */
  function Product(dims: seq<nat>): nat {
    if |dims| == 0 then 0
    else if |dims| == 1 then dims[0]
    else Product(dims[..|dims| - 1]) * dims[|dims| - 1]
  }

  /** `ngraph::shape_size`: the product of the dimensions, 1 for a scalar. */
  function ShapeSize(dims: seq<nat>): nat {
    if |dims| == 0 then 1 else ShapeSize(dims[..|dims| - 1]) * dims[|dims| - 1]
  }

  /** The element count a descriptor calls for: 1 for the SCALAR layout,
      otherwise the product of its dimensions. */
  function ElementCount(d: TensorDesc): nat {
    if d.layout == Scalar then 1 else Product(d.dims)
  }

  lemma {:induction false} ProductShapeSize(dims: seq<nat>)
    requires |dims| > 0
    ensures Product(dims) == ShapeSize(dims)
  {
    if |dims| > 1 {
      ProductShapeSize(dims[..|dims| - 1]);
    }
  }

  /** `TensorDesc::getLayoutByRank`. */
  function LayoutByRank(rank: nat): Layout {
    match rank
    case 0 => Scalar
    case 1 => C
    case 2 => NC
    case 3 => CHW
    case 4 => NCHW
    case 5 => NCDHW
    case _ => Blocked
  }

  /** Two descriptors have equal blocking descriptors. */
  predicate SameBlocking(x: TensorDesc, y: TensorDesc) {
    x.blocking == y.blocking && (x.blocking.Dense? ==> x.layout == y.layout && x.dims == y.dims)
  }

  /** The blocking check of `SetBlob`: neither layout is ANY and the blocking
      descriptors differ. */
  predicate BlockingConflict(data: TensorDesc, expected: TensorDesc) {
    data.layout != AnyLayout && expected.layout != AnyLayout && !SameBlocking(expected, data)
  }

  /** A dimension of a partial shape (`ov::Dimension`): a known value, or the
      interval of values from `lo` up to `hi` (`None`: no upper bound). */
  datatype Dim = Static(n: nat) | Interval(lo: nat, hi: Option<nat>)

  type PartialShape = seq<Dim>

  /** `Dimension::is_static`: a known value, or an interval holding one value. */
  predicate DimIsStatic(d: Dim) {
    d.Static? || d.hi == Some(d.lo)
  }

  function DimValue(d: Dim): nat
    requires DimIsStatic(d)
  {
    if d.Static? then d.n else d.lo
  }

  predicate IsDynamic(s: PartialShape) {
    exists i :: 0 <= i < |s| && !DimIsStatic(s[i])
  }

  /** `Dimension::compatible` with a static value: the value lies in the
      dimension's interval. */
  predicate DimCompatible(d: Dim, v: nat) {
    if d.Static? then d.n == v else d.lo <= v && (d.hi.None? || v <= d.hi.value)
  }

  /** `PartialShape::compatible` against static dimensions: the same rank and
      every dimension compatible with its value. */
  predicate ShapeCompatible(s: PartialShape, dims: seq<nat>) {
    |s| == |dims| && forall i :: 0 <= i < |s| ==> DimCompatible(s[i], dims[i])
  }

  /** A static shape is compatible with its own dimensions and with no others;
      a dimension with bounds rejects every value outside them. */
  lemma {:induction false} ShapeCompatibleBounds(s: PartialShape, dims: seq<nat>)
    ensures !IsDynamic(s) ==> (ShapeCompatible(s, dims) <==> dims == AllocationDims(s))
    ensures ShapeCompatible(s, dims) ==> forall i :: 0 <= i < |s| && s[i].Interval? ==>
              s[i].lo <= dims[i] && (s[i].hi.Some? ==> dims[i] <= s[i].hi.value)
  {
    if !IsDynamic(s) && ShapeCompatible(s, dims) {
      assert forall i :: 0 <= i < |s| ==> dims[i] == AllocationDims(s)[i];
    }
  }

  /** The dimensions a request allocates for a model port: for a dynamic shape
      rank-many zeros, otherwise the static shape. */
  function AllocationDims(s: PartialShape): (dims: seq<nat>)
    ensures |dims| == |s|
    ensures IsDynamic(s) ==> forall i :: 0 <= i < |dims| ==> dims[i] == 0
    ensures !IsDynamic(s) ==> ShapeCompatible(s, dims)
  {
    if IsDynamic(s) then seq(|s|, _ => 0)
    else seq(|s|, i requires 0 <= i < |s| => DimValue(s[i]))
  }

  datatype NodeType =
    | InputNode
    | OutputNode
    | MemoryInput(id: string, store: Ptr)
    | Concatenation(optimized: bool)
    | Split
    | GenericNode

  /** A graph node. Its edge lists hold edge indices; an index outside the
      graph's edge list is an expired weak pointer. */
  datatype Node = Node(kind: NodeType, isConstant: bool, isInPlace: bool,
                       parentEdges: seq<nat>, childEdges: seq<nat>)

  /** An edge from `parent` to `child`; `blobDesc` is the descriptor of its
      memory as a tensor, or `None` when that memory cannot be seen as a blob. */
  datatype Edge = Edge(parent: nat, child: nat, blobDesc: Option<TensorDesc>)

  datatype GraphProps = GraphProps(enableDynamicBatch: bool, batchLimit: int, isNewApi: bool)

  /** The execution graph. `edgeMem[e]` is the data pointer of edge `e`'s
      memory and `batchLim[n]` is node `n`'s dynamic batch limit. Nodes are
      numbered in topological order: every edge runs from a lower to a higher
      node index. */
  class Graph {
    const nodes: seq<Node>
    const edges: seq<Edge>
    const inputNodes: map<string, nat>
    const outputNodes: map<string, nat>
    const props: GraphProps
    const normalizePreproc: set<string>
    const meanImage: set<string>
    const ready: bool
    const edgeMem: array<Ptr>
    const batchLim: array<int>

    predicate Valid() {
      && edgeMem.Length == |edges|
      && batchLim.Length == |nodes|
      && (forall e :: 0 <= e < |edges| ==> edges[e].parent < edges[e].child < |nodes|)
      && (forall n, k :: 0 <= n < |nodes| && 0 <= k < |nodes[n].childEdges| && nodes[n].childEdges[k] < |edges|
            ==> edges[nodes[n].childEdges[k]].parent == n)
      && (forall n, k :: 0 <= n < |nodes| && 0 <= k < |nodes[n].parentEdges| && nodes[n].parentEdges[k] < |edges|
            ==> edges[nodes[n].parentEdges[k]].child == n)
      && (forall name :: name in inputNodes ==> inputNodes[name] < |nodes|)
      && (forall name :: name in outputNodes ==> outputNodes[name] < |nodes|)
    }

    constructor (nodes: seq<Node>, edges: seq<Edge>, inputNodes: map<string, nat>, outputNodes: map<string, nat>,
                 props: GraphProps, normalizePreproc: set<string>, meanImage: set<string>, ready: bool,
                 mem: seq<Ptr>, lims: seq<int>)
      ensures this.nodes == nodes && this.edges == edges && this.inputNodes == inputNodes
      ensures this.outputNodes == outputNodes && this.props == props && this.ready == ready
      ensures this.normalizePreproc == normalizePreproc && this.meanImage == meanImage
      ensures fresh(edgeMem) && fresh(batchLim) && edgeMem[..] == mem && batchLim[..] == lims
    {
      this.nodes, this.edges := nodes, edges;
      this.inputNodes, this.outputNodes := inputNodes, outputNodes;
      this.props, this.normalizePreproc, this.meanImage, this.ready := props, normalizePreproc, meanImage, ready;
      this.edgeMem := new Ptr[|mem|](i requires 0 <= i < |mem| => mem[i]);
      this.batchLim := new int[|lims|](i requires 0 <= i < |lims| => lims[i]);
    }
  }

  /** The input node's first child edge (`getChildEdgesAtPort(0)[0]`), if it
      exists and has not expired. */
  function InputEdge(g: Graph, name: string): (r: Option<nat>)
    requires g.Valid()
    ensures r.Some? ==> r.value < |g.edges|
  {
    if name in g.inputNodes
       && |g.nodes[g.inputNodes[name]].childEdges| > 0
       && g.nodes[g.inputNodes[name]].childEdges[0] < |g.edges|
    then Some(g.nodes[g.inputNodes[name]].childEdges[0])
    else None
  }

  /** The output node's first parent edge (`getParentEdgesAtPort(0)[0]`), if it
      exists and has not expired. */
  function OutputEdge(g: Graph, name: string): (r: Option<nat>)
    requires g.Valid()
    ensures r.Some? ==> r.value < |g.edges|
  {
    if name in g.outputNodes
       && |g.nodes[g.outputNodes[name]].parentEdges| > 0
       && g.nodes[g.outputNodes[name]].parentEdges[0] < |g.edges|
    then Some(g.nodes[g.outputNodes[name]].parentEdges[0])
    else None
  }

  /** Sets every node's dynamic batch limit (`setDynamicBatchLim`). */
  method SetDynamicBatchLimits(g: Graph, batch: int)
    modifies g.batchLim
    ensures forall n :: 0 <= n < g.batchLim.Length ==> g.batchLim[n] == batch
  {
    for n := 0 to g.batchLim.Length
      invariant forall m :: 0 <= m < n ==> g.batchLim[m] == batch
    {
      g.batchLim[n] := batch;
    }
  }
}
