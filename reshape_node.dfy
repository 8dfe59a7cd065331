/** The CPU plugin's Reshape node (`MKLDNNReshapeNode`): which operations it
    accepts, the edge-count check, the memory formats it offers per rank and
    the primitive descriptors it enumerates from its parent's. */
module Reshape {
  import opened Common
  import opened CpuGraph

  // ---------------------------------------------------------------- formats

  /** A oneDNN `format_tag`: a dimension order written as letters, the
      outermost first (`acdb` is NHWC for rank 4), or `undef`. */
  datatype FormatTag = Tag(order: string) | Undef

  /** The first `n` letters in order: the plain (row-major) order of rank `n`. */
  function Plain(n: nat): (s: string)
    requires n <= 26
    ensures |s| == n
  {
    if n == 0 then [] else Plain(n - 1) + [('a' as int + n - 1) as char]
  }

  /** An order of the `n` dimensions: `n` distinct letters among the first
      `n`, so every dimension exactly once. */
  predicate IsDimOrder(s: string, n: nat) {
    && |s| == n
    && (forall i :: 0 <= i < n ==> 'a' as int <= s[i] as int < 'a' as int + n)
    && (forall i, j :: 0 <= i < j < n ==> s[i] != s[j])
  }

  /** The plain order with dimension `b` (the channels) moved innermost. */
  function ChannelsLast(n: nat): (s: string)
    requires 3 <= n <= 26
    ensures |s| == n
  {
    Plain(n)[..1] + Plain(n)[2..] + [Plain(n)[1]]
  }

  /** `getDataFormats` (lines 57-75). The `defalut:` on line 71 is a label,
      not `default`, so every other rank leaves the switch and reaches the
      `undef` return on line 74 — the same result. */
  function DataFormats(ndims: int): (r: seq<FormatTag>)
    ensures |r| > 0
    ensures !(1 <= ndims <= 6) <==> r == [Undef]
    ensures 1 <= ndims <= 6 ==> r[0] == Tag(Plain(ndims))
    ensures ndims == 2 ==> r == [Tag(Plain(2)), Tag([Plain(2)[1], Plain(2)[0]])]
    ensures ndims == 3 || ndims == 4 ==> r == [Tag(Plain(ndims)), Tag(ChannelsLast(ndims))]
    ensures ndims == 1 || ndims == 5 || ndims == 6 ==> |r| == 1
  {
    PlainLetters();
    match ndims
    case 1 => [Tag("a")]
    case 2 => [Tag("ab"), Tag("ba")]
    case 3 => [Tag("abc"), Tag("acb")]
    case 4 => [Tag("abcd"), Tag("acdb")]
    case 5 => [Tag("abcde")]
    case 6 => [Tag("abcdef")]
    case _ => [Undef]
  }

  lemma PlainLetters()
    ensures Plain(1) == "a" && Plain(2) == "ab" && Plain(3) == "abc" && Plain(4) == "abcd"
    ensures Plain(5) == "abcde" && Plain(6) == "abcdef"
    ensures ChannelsLast(3) == "acb" && ChannelsLast(4) == "acdb"
  {
    assert Plain(1) == "a";
    assert Plain(2) == "ab";
    assert Plain(3) == "abc";
    assert Plain(4) == "abcd";
    assert Plain(5) == "abcde";
    assert Plain(6) == "abcdef";
  }

  /** Letter `i` of the plain order is the `i`-th letter of the alphabet. */
  lemma {:induction false} PlainAt(n: nat)
    requires n <= 26
    ensures forall i :: 0 <= i < n ==> Plain(n)[i] as int == 'a' as int + i
  {
    if n > 0 {
      PlainAt(n - 1);
      assert Plain(n) == Plain(n - 1) + [('a' as int + n - 1) as char];
    }
  }

  lemma PlainIsDimOrder(n: nat)
    requires n <= 26
    ensures IsDimOrder(Plain(n), n)
  {
    PlainAt(n);
  }

  /** Moving the channels innermost keeps every dimension exactly once. */
  lemma ChannelsLastIsDimOrder(n: nat)
    requires 3 <= n <= 26
    ensures IsDimOrder(ChannelsLast(n), n)
    ensures ChannelsLast(n)[1] as int == 'a' as int + 2
  {
    PlainAt(n);
    var p, s := Plain(n), ChannelsLast(n);
    assert forall i :: 0 <= i < n ==>
      s[i] as int == 'a' as int + (if i == 0 then 0 else if i == n - 1 then 1 else i + 1) by {
      forall i | 0 <= i < n
        ensures s[i] as int == 'a' as int + (if i == 0 then 0 else if i == n - 1 then 1 else i + 1)
      {
        if i == 0 {
          assert s[i] == p[0];
        } else if i == n - 1 {
          assert s[i] == p[1];
        } else {
          assert s[i] == p[2..][i - 1];
        }
      }
    }
  }

  /** Every tag `getDataFormats` offers for a rank in 1..6 orders exactly
      that many dimensions, each once; the tags are distinct. */
  lemma {:induction false} DataFormatsAreDimOrders(ndims: int)
    requires 1 <= ndims <= 6
    ensures var r := DataFormats(ndims);
      && (forall k :: 0 <= k < |r| ==> r[k].Tag? && IsDimOrder(r[k].order, ndims))
      && (forall k, l :: 0 <= k < l < |r| ==> r[k] != r[l])
  {
    var r := DataFormats(ndims);
    PlainIsDimOrder(ndims);
    PlainAt(ndims);
    if ndims == 2 {
      assert r[0].order[0] != r[1].order[0];
    } else if ndims == 3 || ndims == 4 {
      ChannelsLastIsDimOrder(ndims);
      assert r[0].order[1] != r[1].order[1];
    }
  }

  // ---------------------------------------------------------------- operations

  /** The nGraph operation a node is built from. */
  datatype OpKind = ReshapeV1 | SqueezeV1 | UnsqueezeV1 | OtherOp(typeName: string)
  datatype Op = Op(kind: OpKind, isDynamic: bool)

  const DynamicShapesMessage := "Doesn't support op with dynamic shapes"
  const UnsupportedOpMessage := "Only opset1 Reshape, Squeeze, Unsqueeze operations are supported"

  /** `isSupportedOperation` (lines 15-31): the verdict and the error message
      afterwards. */
  function IsSupportedOperation(op: Op, errorMessage: string): (r: (bool, string))
    ensures r.0 <==> !op.isDynamic && !op.kind.OtherOp?
    ensures r.0 ==> r.1 == errorMessage
    ensures op.isDynamic ==> r.1 == DynamicShapesMessage
    ensures !op.isDynamic && op.kind.OtherOp? ==> r.1 == UnsupportedOpMessage
  {
    if op.isDynamic then (false, DynamicShapesMessage)
    else if op.kind.OtherOp? then (false, UnsupportedOpMessage)
    else (true, errorMessage)
  }

  /** The node constructor (lines 33-39) throws NotImplemented with the
      message of an unsupported operation. */
  function ConstructionCheck(op: Op): (r: Outcome<(StatusCode, string)>)
    ensures r.Pass? <==> IsSupportedOperation(op, "").0
    ensures r.Fail? ==> r.error.0 == NotImplemented
    ensures r.Fail? ==> r.error.1 == IsSupportedOperation(op, "").1 && r.error.1 != ""
  {
    var (ok, message) := IsSupportedOperation(op, "");
    if ok then Pass else Fail((NotImplemented, message))
  }

  // ---------------------------------------------------------------- descriptors

  datatype NodeError =
    | IncorrectInputEdges | IncorrectOutputEdges
    | MissingParentEdge | MissingChildEdge
    | DestinationNotAllocated | InputNotAllocated | DescriptorNotSet

  /** A memory descriptor: dimensions, data type and format; `None` is the
      format the two-argument `MKLDNNMemoryDesc` constructor picks. */
  datatype MemoryDesc = MemoryDesc(dims: seq<nat>, dataType: Precision, format: Option<FormatTag>)
  datatype PortConfig = PortConfig(inPlace: int, constant: bool, desc: MemoryDesc)
  datatype LayerConfig = LayerConfig(dynBatchSupport: bool, inConfs: seq<PortConfig>, outConfs: seq<PortConfig>)

  /** An output port of one of the parent's supported primitive descriptors. */
  datatype ParentPortDesc = ParentPortDesc(dims: seq<nat>, layout: Layout)
  datatype ParentPrimitive = ParentPrimitive(outConfs: seq<ParentPortDesc>)

  /** The precision the node settles on (lines 81-87): the input precision is
      replaced by the output's, since a reshape only reinterprets memory. */
  function SettledPrecisions(inPrec: Precision, outPrec: Precision): (r: (Precision, Precision))
    ensures r.0 == r.1 == outPrec
    ensures inPrec == outPrec ==> r == (inPrec, outPrec)
  {
    (if inPrec != outPrec then outPrec else inPrec, outPrec)
  }

  // ---------------------------------------------------------------- nested loops

  /** The position where block `i` starts when each block holds `m`
      entries: `i * m`, written as a sum. */
  function Offset(i: nat, m: nat): nat {
    if i == 0 then 0 else Offset(i - 1, m) + m
  }

  lemma {:induction false} OffsetIsProduct(i: nat, m: nat)
    ensures Offset(i, m) == i * m
  {
    if i > 0 {
      OffsetIsProduct(i - 1, m);
    }
  }

  /** Entry `j` of block `i` lies before the end of block `n - 1`. */
  lemma {:induction false} OffsetBelow(i: nat, j: nat, n: nat, m: nat)
    requires i < n && j < m
    ensures Offset(i, m) + j < Offset(n, m)
  {
    if i < n - 1 {
      OffsetBelow(i, j, n - 1, m);
    }
  }

  /** The blocks one after another, as a loop appending each in turn
      produces them. */
  function Flatten<T>(bs: seq<seq<T>>): seq<T> {
    if |bs| == 0 then [] else Flatten(bs[..|bs| - 1]) + bs[|bs| - 1]
  }

  lemma {:induction false} FlattenLength<T>(bs: seq<seq<T>>, m: nat)
    requires forall k :: 0 <= k < |bs| ==> |bs[k]| == m
    ensures |Flatten(bs)| == Offset(|bs|, m)
  {
    if |bs| > 0 {
      FlattenLength(bs[..|bs| - 1], m);
    }
  }

  /** With blocks of `m` entries, entry `j` of block `i` sits at
      `Offset(i, m) + j`. */
  lemma {:induction false} FlattenIndex<T>(bs: seq<seq<T>>, m: nat, i: nat, j: nat)
    requires forall k :: 0 <= k < |bs| ==> |bs[k]| == m
    requires i < |bs| && j < m
    ensures Offset(i, m) + j < |Flatten(bs)|
    ensures Flatten(bs)[Offset(i, m) + j] == bs[i][j]
  {
    var n := |bs| - 1;
    var front := bs[..n];
    FlattenLength(bs, m);
    FlattenLength(front, m);
    OffsetBelow(i, j, |bs|, m);
    if i < n {
      FlattenIndex(front, m, i, j);
      assert front[i] == bs[i];
    }
  }

  class ReshapeNode {
    /** The dimensions of each parent edge and each child edge, in port order. */
    const parentEdgeDims: seq<seq<nat>>
    const childEdgeDims: seq<seq<nat>>
    /** `getParentEdgeAt(0)->getInputNum()`: the parent's output port feeding this node. */
    const inNum: nat
    const inputDataType: Precision
    const outputDataType: Precision
    var supportedPrimitiveDescriptors: seq<LayerConfig>
    var selectedPrimitiveDescriptor: Option<nat>

    constructor (parentEdgeDims: seq<seq<nat>>, childEdgeDims: seq<seq<nat>>, inNum: nat,
                 inputDataType: Precision, outputDataType: Precision)
      ensures this.parentEdgeDims == parentEdgeDims && this.childEdgeDims == childEdgeDims && this.inNum == inNum
      ensures this.inputDataType == inputDataType && this.outputDataType == outputDataType
      ensures supportedPrimitiveDescriptors == [] && selectedPrimitiveDescriptor == None
    {
      this.parentEdgeDims, this.childEdgeDims, this.inNum := parentEdgeDims, childEdgeDims, inNum;
      this.inputDataType, this.outputDataType := inputDataType, outputDataType;
      supportedPrimitiveDescriptors, selectedPrimitiveDescriptor := [], None;
    }

    /** `getSupportedDescriptors` (lines 50-55). */
    function GetSupportedDescriptors(): (r: Outcome<NodeError>)
      ensures r.Pass? <==> (|parentEdgeDims| == 1 || |parentEdgeDims| == 2) && |childEdgeDims| > 0
      ensures r.Fail? ==> (r.error == IncorrectInputEdges <==> |parentEdgeDims| != 1 && |parentEdgeDims| != 2)
    {
      if |parentEdgeDims| != 1 && |parentEdgeDims| != 2 then Fail(IncorrectInputEdges)
      else if |childEdgeDims| == 0 then Fail(IncorrectOutputEdges)
      else Pass
    }

    /** The configuration emitted for one parent port and one output format
        (lines 99-114). */
    function ConfigFor(port: ParentPortDesc, inFmt: FormatTag, outFmt: FormatTag): (c: LayerConfig)
      requires |childEdgeDims| > 0
      ensures c.dynBatchSupport && |c.inConfs| == |parentEdgeDims| && |c.outConfs| == 1
      ensures forall i :: 0 <= i < |c.inConfs| ==> c.inConfs[i].inPlace == -1 && !c.inConfs[i].constant
      ensures forall i :: 0 <= i < |c.inConfs| ==> c.inConfs[i].desc.dataType == inputDataType
      ensures |c.inConfs| > 0 ==> c.inConfs[0].desc == MemoryDesc(port.dims, inputDataType, Some(inFmt))
      ensures forall i :: 0 < i < |c.inConfs| ==> c.inConfs[i].desc == MemoryDesc(parentEdgeDims[i], inputDataType, None)
      ensures c.outConfs[0] == PortConfig(0, false, MemoryDesc(childEdgeDims[0], outputDataType, Some(outFmt)))
    {
      LayerConfig(true, InConfs(port, inFmt, |parentEdgeDims|),
                  [PortConfig(0, false, MemoryDesc(childEdgeDims[0], outputDataType, Some(outFmt)))])
    }

    /** The first `n` input configurations of a configuration. */
    function InConfs(port: ParentPortDesc, inFmt: FormatTag, n: nat): (r: seq<PortConfig>)
      requires n <= |parentEdgeDims|
      ensures |r| == n
      ensures forall i :: 0 <= i < n ==> r[i].inPlace == -1 && !r[i].constant && r[i].desc.dataType == inputDataType
      ensures n > 0 ==> r[0].desc == MemoryDesc(port.dims, inputDataType, Some(inFmt))
      ensures forall i :: 0 < i < n ==> r[i].desc == MemoryDesc(parentEdgeDims[i], inputDataType, None)
    {
      if n == 0 then []
      else
        var desc := if n - 1 == 0 then MemoryDesc(port.dims, inputDataType, Some(inFmt))
                    else MemoryDesc(parentEdgeDims[n - 1], inputDataType, None);
        InConfs(port, inFmt, n - 1) + [PortConfig(-1, false, desc)]
    }

    /** The configurations emitted for one parent descriptor: one per output
        format, in order. */
    function ParentConfigs(port: ParentPortDesc, inFmt: FormatTag, formats: seq<FormatTag>): (r: seq<LayerConfig>)
      requires |childEdgeDims| > 0
      ensures |r| == |formats|
    {
      if |formats| == 0 then []
      else ParentConfigs(port, inFmt, formats[..|formats| - 1]) + [ConfigFor(port, inFmt, formats[|formats| - 1])]
    }

    /** Configuration `j` of a parent descriptor's block is the one for
        output format `j`. */
    lemma {:induction false} ParentConfigsAt(port: ParentPortDesc, inFmt: FormatTag, formats: seq<FormatTag>, j: nat)
      requires |childEdgeDims| > 0 && j < |formats|
      ensures ParentConfigs(port, inFmt, formats)[j] == ConfigFor(port, inFmt, formats[j])
    {
      if j < |formats| - 1 {
        ParentConfigsAt(port, inFmt, formats[..|formats| - 1], j);
      }
    }

    /** Every configuration the nested loops emit for the parent descriptors
        `pds`, where `convert` is `MKLDNNMemory::Convert` of a layout. */
    function Configs(pds: seq<ParentPrimitive>, convert: Layout -> FormatTag, formats: seq<FormatTag>): (r: seq<LayerConfig>)
      requires |childEdgeDims| > 0
      requires forall k :: 0 <= k < |pds| ==> inNum < |pds[k].outConfs|
    {
      if |pds| == 0 then []
      else
        var port := pds[|pds| - 1].outConfs[inNum];
        Configs(pds[..|pds| - 1], convert, formats) + ParentConfigs(port, convert(port.layout), formats)
    }

    lemma {:induction false} ConfigsLength(pds: seq<ParentPrimitive>, convert: Layout -> FormatTag, formats: seq<FormatTag>)
      requires |childEdgeDims| > 0
      requires forall k :: 0 <= k < |pds| ==> inNum < |pds[k].outConfs|
      ensures |Configs(pds, convert, formats)| == Offset(|pds|, |formats|)
    {
      if |pds| > 0 {
        ConfigsLength(pds[..|pds| - 1], convert, formats);
      }
    }

    /** The blocks the outer loop emits, one per parent descriptor. */
    function Blocks(pds: seq<ParentPrimitive>, convert: Layout -> FormatTag, formats: seq<FormatTag>)
      : (r: seq<seq<LayerConfig>>)
      requires |childEdgeDims| > 0
      requires forall k :: 0 <= k < |pds| ==> inNum < |pds[k].outConfs|
      ensures |r| == |pds|
      ensures forall k :: 0 <= k < |pds| ==>
        r[k] == ParentConfigs(pds[k].outConfs[inNum], convert(pds[k].outConfs[inNum].layout), formats)
    {
      if |pds| == 0 then []
      else
        var port := pds[|pds| - 1].outConfs[inNum];
        Blocks(pds[..|pds| - 1], convert, formats) + [ParentConfigs(port, convert(port.layout), formats)]
    }

    lemma {:induction false} ConfigsAreFlattened(pds: seq<ParentPrimitive>, convert: Layout -> FormatTag, formats: seq<FormatTag>)
      requires |childEdgeDims| > 0
      requires forall k :: 0 <= k < |pds| ==> inNum < |pds[k].outConfs|
      ensures Configs(pds, convert, formats) == Flatten(Blocks(pds, convert, formats))
    {
      if |pds| > 0 {
        var front := pds[..|pds| - 1];
        ConfigsAreFlattened(front, convert, formats);
        assert Blocks(pds, convert, formats)[..|pds| - 1] == Blocks(front, convert, formats);
      }
    }

    /** The nested loop order: the configuration at `Offset(i, |formats|) + j`
        (that is `i * |formats| + j`) pairs parent descriptor `i` with output
        format `j`. */
    lemma {:induction false} ConfigsOrder(pds: seq<ParentPrimitive>, convert: Layout -> FormatTag, formats: seq<FormatTag>,
                       i: nat, j: nat)
      requires |childEdgeDims| > 0
      requires forall k :: 0 <= k < |pds| ==> inNum < |pds[k].outConfs|
      requires i < |pds| && j < |formats|
      ensures Offset(i, |formats|) + j < |Configs(pds, convert, formats)|
      ensures Configs(pds, convert, formats)[Offset(i, |formats|) + j]
                == ConfigFor(pds[i].outConfs[inNum], convert(pds[i].outConfs[inNum].layout), formats[j])
    {
      var bs := Blocks(pds, convert, formats);
      var port := pds[i].outConfs[inNum];
      var pc := ParentConfigs(port, convert(port.layout), formats);
      assert bs[i] == pc;
      FlattenIndex(bs, |formats|, i, j);
      assert Flatten(bs)[Offset(i, |formats|) + j] == pc[j];
      ParentConfigsAt(port, convert(port.layout), formats, j);
      ConfigsAreFlattened(pds, convert, formats);
    }

    /** There are |pds| × |formats| configurations. */
    lemma ConfigsCount(pds: seq<ParentPrimitive>, convert: Layout -> FormatTag, formats: seq<FormatTag>)
      requires |childEdgeDims| > 0
      requires forall k :: 0 <= k < |pds| ==> inNum < |pds[k].outConfs|
      ensures |Configs(pds, convert, formats)| == |pds| * |formats|
    {
      ConfigsLength(pds, convert, formats);
      OffsetIsProduct(|pds|, |formats|);
    }

    /** Every emitted configuration has one input configuration per parent
        edge, none in-place or constant, and one output configuration, in
        place on input 0 and not constant. */
    lemma {:induction false} ConfigsShape(pds: seq<ParentPrimitive>, convert: Layout -> FormatTag, formats: seq<FormatTag>)
      requires |childEdgeDims| > 0
      requires forall k :: 0 <= k < |pds| ==> inNum < |pds[k].outConfs|
      ensures forall c :: c in Configs(pds, convert, formats) ==>
        && c.dynBatchSupport && |c.inConfs| == |parentEdgeDims| && |c.outConfs| == 1
        && (forall i :: 0 <= i < |c.inConfs| ==> c.inConfs[i].inPlace == -1 && !c.inConfs[i].constant)
        && c.outConfs[0].inPlace == 0 && !c.outConfs[0].constant
    {
      if |pds| > 0 {
        ConfigsShape(pds[..|pds| - 1], convert, formats);
        var port := pds[|pds| - 1].outConfs[inNum];
        var pc := ParentConfigs(port, convert(port.layout), formats);
        forall j | 0 <= j < |pc|
          ensures pc[j] == ConfigFor(port, convert(port.layout), formats[j])
        {
          ParentConfigsAt(port, convert(port.layout), formats, j);
        }
      }
    }

    /** Builds one configuration with the loop over the parent edges. */
    method BuildConfig(port: ParentPortDesc, inFmt: FormatTag, outFmt: FormatTag) returns (c: LayerConfig)
      requires |childEdgeDims| > 0
      ensures c == ConfigFor(port, inFmt, outFmt)
    {
      var inConfs: seq<PortConfig> := [];
      for i := 0 to |parentEdgeDims|
        invariant inConfs == InConfs(port, inFmt, i)
      {
        var desc := if i == 0 then MemoryDesc(port.dims, inputDataType, Some(inFmt))
                    else MemoryDesc(parentEdgeDims[i], inputDataType, None);
        inConfs := inConfs + [PortConfig(-1, false, desc)];
      }
      var outConf := PortConfig(0, false, MemoryDesc(childEdgeDims[0], outputDataType, Some(outFmt)));
      c := LayerConfig(true, inConfs, [outConf]);
    }

    /** `initSupportedPrimitiveDescriptors` (lines 77-117); `pds` are the
        parent's supported primitive descriptors. A non-empty list is left
        alone; otherwise the list becomes one configuration per parent
        descriptor and output format. */
    method InitSupportedPrimitiveDescriptors(pds: seq<ParentPrimitive>, convert: Layout -> FormatTag)
      returns (r: Outcome<NodeError>)
      requires forall k :: 0 <= k < |pds| ==> inNum < |pds[k].outConfs|
      modifies this`supportedPrimitiveDescriptors
      ensures old(supportedPrimitiveDescriptors) != [] ==> r == Pass && supportedPrimitiveDescriptors == old(supportedPrimitiveDescriptors)
      ensures old(supportedPrimitiveDescriptors) == [] && |parentEdgeDims| == 0 ==> r == Fail(MissingParentEdge)
      ensures old(supportedPrimitiveDescriptors) == [] && |parentEdgeDims| > 0 && |childEdgeDims| == 0 ==> r == Fail(MissingChildEdge)
      ensures r.Fail? ==> supportedPrimitiveDescriptors == old(supportedPrimitiveDescriptors)
      ensures old(supportedPrimitiveDescriptors) == [] && r.Pass? ==>
        |parentEdgeDims| > 0 && |childEdgeDims| > 0 && supportedPrimitiveDescriptors == Configs(pds, convert, DataFormats(|childEdgeDims[0]|))
    {
      if supportedPrimitiveDescriptors != [] {
        return Pass;
      }
      var (inPrec, outPrec) := SettledPrecisions(inputDataType, outputDataType);
      if |parentEdgeDims| == 0 {
        return Fail(MissingParentEdge);
      }
      if |childEdgeDims| == 0 {
        return Fail(MissingChildEdge);
      }
      var formats := DataFormats(|childEdgeDims[0]|);
      for k := 0 to |pds|
        invariant supportedPrimitiveDescriptors == Configs(pds[..k], convert, formats)
      {
        var port := pds[k].outConfs[inNum];
        AppendParentConfigs(port, convert(port.layout), formats);
        assert pds[..k + 1][..k] == pds[..k];
      }
      assert pds[..|pds|] == pds;
      return Pass;
    }

    /** The inner loop: one configuration per output format, appended. */
    method AppendParentConfigs(port: ParentPortDesc, inFmt: FormatTag, formats: seq<FormatTag>)
      requires |childEdgeDims| > 0
      modifies this`supportedPrimitiveDescriptors
      ensures supportedPrimitiveDescriptors == old(supportedPrimitiveDescriptors) + ParentConfigs(port, inFmt, formats)
    {
      for j := 0 to |formats|
        invariant supportedPrimitiveDescriptors == old(supportedPrimitiveDescriptors) + ParentConfigs(port, inFmt, formats[..j])
      {
        var config := BuildConfig(port, inFmt, formats[j]);
        assert formats[..j + 1][..j] == formats[..j];
        supportedPrimitiveDescriptors := supportedPrimitiveDescriptors + [config];
      }
      assert formats[..|formats|] == formats;
    }

    /** `createPrimitive` (lines 119-128): the checks and nothing else;
        `dstAllocated` and `srcAllocated` say whether the child and parent
        edge memories hold a primitive. */
    function CreatePrimitive(dstAllocated: bool, srcAllocated: bool): (r: Outcome<NodeError>)
      reads this
      ensures r.Pass? <==> |childEdgeDims| > 0 && |parentEdgeDims| > 0 && dstAllocated && srcAllocated
                           && selectedPrimitiveDescriptor.Some?
      ensures |childEdgeDims| > 0 && |parentEdgeDims| > 0 && !dstAllocated ==> r == Fail(DestinationNotAllocated)
      ensures |childEdgeDims| > 0 && |parentEdgeDims| > 0 && dstAllocated && !srcAllocated ==> r == Fail(InputNotAllocated)
      ensures |childEdgeDims| == 0 ==> r == Fail(MissingChildEdge)
      ensures |childEdgeDims| > 0 && |parentEdgeDims| == 0 ==> r == Fail(MissingParentEdge)
      ensures |childEdgeDims| > 0 && |parentEdgeDims| > 0 && dstAllocated && srcAllocated &&
                selectedPrimitiveDescriptor.None? ==>
              r == Fail(DescriptorNotSet)
    {
      if |childEdgeDims| == 0 then Fail(MissingChildEdge)
      else if |parentEdgeDims| == 0 then Fail(MissingParentEdge)
      else if !dstAllocated then Fail(DestinationNotAllocated)
      else if !srcAllocated then Fail(InputNotAllocated)
      else if selectedPrimitiveDescriptor.None? then Fail(DescriptorNotSet)
      else Pass
    }
  }
}
