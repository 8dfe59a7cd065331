/** The GPU plugin's reference concatenation kernel (`ConcatenationKernelRef`):
    what it supports, the dimension-order strings it hands to the OpenCL
    source, the work-group fix-up it applies to the kernels the base class
    builds, and its priority. */
module ConcatenationKernelRef {
  import opened Text
  import opened KernelSelector

  // ---------------------------------------------------------------- key

  /** The data types enabled on each side, in the order of lines 14-19 and
      20-25. */
  const ConcatTypeList: seq<Datatype> := [F16, F32, INT8, UINT8, INT32, INT64]

  /** The layouts enabled on each side, in the order of lines 26-37 and
      38-49. */
  const ConcatLayoutList: seq<DataLayout> :=
    [bf, fb, bfyx, yxfb, byxf, fyxb, b_fs_yx_fsv16, b_fs_yx_fsv4, b_fs_yx_fsv32,
     bs_fs_yx_bsv16_fsv16, bs_fs_yx_bsv32_fsv16, bs_fs_yx_bsv32_fsv32]

  /** `GetSupportedKey` (lines 12-60) as data. */
  function GetSupportedKey(): ParamsKey {
    ParamsKey(
      inputTypes := Elements(ConcatTypeList),
      outputTypes := Elements(ConcatTypeList),
      weightsTypes := {},
      inputLayouts := Elements(ConcatLayoutList),
      outputLayouts := Elements(ConcatLayoutList),
      concatAxes := {X, Y, Feature, Batch},
      features := {TensorOffset, TensorPitches, Batching, ConcatKernelPerInput, DifferentTypes})
  }

  /** The same six data types on both sides, the same twelve layouts on both
      sides, and exactly the four axes batch, feature, y and x. */
  lemma SupportedKeyIsSymmetric()
    ensures GetSupportedKey().inputTypes == GetSupportedKey().outputTypes
    ensures |GetSupportedKey().inputTypes| == 6
    ensures GetSupportedKey().inputLayouts == GetSupportedKey().outputLayouts
    ensures |GetSupportedKey().inputLayouts| == 12
    ensures forall a :: a in GetSupportedKey().concatAxes <==> a in AxisOrder
  {
    DistinctElements(ConcatTypeList);
    DistinctElements(ConcatLayoutList);
  }

  // ---------------------------------------------------------------- JIT

  /** The dimension names of the OpenCL source, outermost first: d3 is
      batch, d2 feature, d1 y and d0 x (lines 72-74). */
  const DimsId: seq<string> := ["d3", "d2", "d1", "d0"]

  /** The channel each entry of `DimsId` stands for (lines 77-80). */
  const AxisOrder: seq<Channel> := [Batch, Feature, Y, X]

  /** A dimension moved by the offset of this input inside the output. */
  function Shifted(d: string): string {
    "(" + d + " + output_offset_in_concat_axis)"
  }

  /** The output-side name of `DimsId[i]` when the concatenation runs along
      `axis`: the one dimension that is the axis is shifted by the offset of
      this input inside the output. */
  function OutputDim(axis: Channel, i: nat): (d: string)
    requires i < |DimsId|
    ensures AxisOrder[i] != axis ==> d == DimsId[i]
    ensures AxisOrder[i] == axis ==> d == Shifted(DimsId[i])
  {
    if AxisOrder[i] == axis then Shifted(DimsId[i]) else DimsId[i]
  }

  /** The four output-side names, in `DimsId` order. */
  function OutputDims(axis: Channel): (ds: seq<string>)
    ensures |ds| == |DimsId|
    ensures forall i :: 0 <= i < |DimsId| ==> ds[i] == OutputDim(axis, i)
  {
    [OutputDim(axis, 0), OutputDim(axis, 1), OutputDim(axis, 2), OutputDim(axis, 3)]
  }

  /** The loop of lines 84-91: both strings are built one dimension at a
      time, each followed by a comma except the last. */
  method DimsOrders(axis: Channel) returns (inputDimsOrder: string, outputDimsOrder: string)
    ensures inputDimsOrder == Join(DimsId)
    ensures outputDimsOrder == Join(OutputDims(axis))
  {
    inputDimsOrder := "";
    outputDimsOrder := "";
    ghost var outputDims := OutputDims(axis);
    var i := 0;
    while i < |DimsId|
      invariant 0 <= i <= |DimsId|
      invariant inputDimsOrder == Accumulated(DimsId, i)
      invariant outputDimsOrder == Accumulated(outputDims, i)
    {
      var separator := if i == |DimsId| - 1 then "" else ",";
      assert separator == Separator(i, |DimsId|);
      inputDimsOrder := inputDimsOrder + DimsId[i] + separator;
      if AxisOrder[i] == axis {
        outputDimsOrder := outputDimsOrder + Shifted(DimsId[i]) + separator;
      } else {
        outputDimsOrder := outputDimsOrder + DimsId[i] + separator;
      }
      assert outputDims[i] == OutputDim(axis, i);
      i := i + 1;
    }
    AccumulatedIsJoin(DimsId);
    AccumulatedIsJoin(OutputDims(axis));
  }

  /** INPUT_DIMS_ORDER is always `d3,d2,d1,d0`. */
  lemma InputDimsOrderIsFixed()
    ensures Join(DimsId) == "d3,d2,d1,d0"
  {
    assert DimsId[1..][1..][1..] == ["d0"];
  }

  /** An axis that is none of batch, feature, y and x shifts nothing: both
      orders are the same string. */
  lemma OutputDimsOrderOffAxis(axis: Channel)
    requires axis !in AxisOrder
    ensures Join(OutputDims(axis)) == Join(DimsId)
  {
    assert OutputDims(axis) == DimsId;
  }

  /** Along one of the four axes, the output order differs from the input
      order in exactly the item of that axis. */
  lemma OutputDimsOrderOnAxis(axis: Channel, k: nat)
    requires k < |AxisOrder| && AxisOrder[k] == axis
    ensures OutputDims(axis)[k] == Shifted(DimsId[k])
    ensures forall i :: 0 <= i < |DimsId| && i != k ==> OutputDims(axis)[i] == DimsId[i]
    ensures OutputDims(axis) != DimsId
  {
    assert OutputDims(axis)[k] != DimsId[k] by {
      assert |OutputDims(axis)[k]| > |DimsId[k]|;
    }
    forall i | 0 <= i < |DimsId| && i != k
      ensures OutputDims(axis)[i] == DimsId[i]
    {
      assert AxisOrder[i] != AxisOrder[k];
    }
  }

  /** Concatenating along the features gives the order with the feature
      dimension shifted. */
  lemma OutputDimsOrderAlongFeature()
    ensures Join(OutputDims(Feature)) == "d3," + Shifted("d2") + ",d1,d0"
  {
    var ds := OutputDims(Feature);
    assert ds[0] == "d3" && ds[1] == Shifted("d2") && ds[2] == "d1" && ds[3] == "d0";
    assert ds[1..][1..][1..] == ["d0"];
  }

  /** How the concatenation is parametrised, as far as this kernel reads it:
      the first input's feature count, the axis the base class derives
      (`GetConcatChannel`), and the channel indices `Channelndex` gives for
      the output's feature channel and the first input's x channel. */
  datatype ConcatParams = ConcatParams(
    inputFeatures: nat,
    axis: Channel,
    outputFeatureChannel: int,
    inputXChannel: int)

  /** The constants this kernel adds after the base class's (lines 66-96). */
  function KernelJit(p: ConcatParams, inputDimsOrder: string, outputDimsOrder: string): (jit: seq<JitConstant>)
    ensures p.inputFeatures == 1 ==> |jit| == 3
    ensures p.inputFeatures != 1 ==>
        && |jit| == 5
        && jit[0] == JitConstant("CHECK_FEATURES", IntValue(1))
        && jit[1] == JitConstant("FEATURE_CHANNEL", IntValue(p.outputFeatureChannel))
    ensures jit[|jit| - 3] == JitConstant("INPUT_DIMS_ORDER", StrValue(inputDimsOrder))
    ensures jit[|jit| - 2] == JitConstant("OUTPUT_DIMS_ORDER", StrValue(outputDimsOrder))
    ensures jit[|jit| - 1] == JitConstant("INPUT_DIM_0", IntValue(p.inputXChannel))
  {
    (if p.inputFeatures != 1
     then [JitConstant("CHECK_FEATURES", IntValue(1)),
           JitConstant("FEATURE_CHANNEL", IntValue(p.outputFeatureChannel))]
     else [])
    + [JitConstant("INPUT_DIMS_ORDER", StrValue(inputDimsOrder)),
       JitConstant("OUTPUT_DIMS_ORDER", StrValue(outputDimsOrder)),
       JitConstant("INPUT_DIM_0", IntValue(p.inputXChannel))]
  }

  /** Whether a constant of this name is among `jit`. */
  predicate Defines(jit: seq<JitConstant>, name: string) {
    exists i :: 0 <= i < |jit| && jit[i].name == name
  }

  /** CHECK_FEATURES and FEATURE_CHANNEL appear exactly when the first input
      does not have a single feature. */
  lemma FeatureCheckOnlyForManyFeatures(p: ConcatParams, inputDimsOrder: string, outputDimsOrder: string)
    ensures Defines(KernelJit(p, inputDimsOrder, outputDimsOrder), "CHECK_FEATURES") <==> p.inputFeatures != 1
    ensures Defines(KernelJit(p, inputDimsOrder, outputDimsOrder), "FEATURE_CHANNEL") <==> p.inputFeatures != 1
  {
    var jit := KernelJit(p, inputDimsOrder, outputDimsOrder);
    if p.inputFeatures != 1 {
      assert jit[0].name == "CHECK_FEATURES";
      assert jit[1].name == "FEATURE_CHANNEL";
    } else {
      assert jit[0].name == "INPUT_DIMS_ORDER" && jit[1].name == "OUTPUT_DIMS_ORDER" && jit[2].name == "INPUT_DIM_0";
      assert jit[0].name[0..2] == "IN" && jit[1].name[0..2] == "OU";
      assert forall i :: 0 <= i < |jit| ==> jit[i].name[0] == 'I' || jit[i].name[0] == 'O';
    }
  }

  /** `GetJitConstants` (lines 62-99): the base class's constants, then the
      ones above with the orders the loop builds. */
  method GetJitConstants(base: seq<JitConstant>, p: ConcatParams) returns (jit: seq<JitConstant>)
    ensures jit == base + KernelJit(p, Join(DimsId), Join(OutputDims(p.axis)))
  {
    var inputDimsOrder, outputDimsOrder := DimsOrders(p.axis);
    jit := base + KernelJit(p, inputDimsOrder, outputDimsOrder);
  }

  // ---------------------------------------------------------------- kernels

  /** The fix-up of lines 108-112 for one kernel: one that would run with a
      local size of 1 along dimension 0 while having more than one item along
      dimension 1 gets 32 local items along dimension 1 and a global size
      along dimension 1 rounded up to a multiple of 32. */
  function AlignedWorkGroups(w: WorkGroups): (r: WorkGroups)
    requires ThreeDimensional(w)
    ensures ThreeDimensional(r)
    ensures w.local[0] == 1 && w.global[1] != 1 ==>
        && r.global[1] % 32 == 0 && w.global[1] <= r.global[1] < w.global[1] + 32
        && r.local[1] == 32
        && r.global[0] == w.global[0] && r.global[2] == w.global[2]
        && r.local[0] == w.local[0] && r.local[2] == w.local[2]
    ensures !(w.local[0] == 1 && w.global[1] != 1) ==> r == w
  {
    if w.local[0] == 1 && w.global[1] != 1 then
      WorkGroups(w.global[1 := Align(w.global[1], 32)], w.local[1 := 32])
    else w
  }

  /** The fix-up only rounds the global size, so it never drops work items,
      and applying it twice is applying it once. */
  lemma AlignedWorkGroupsIdempotent(w: WorkGroups)
    requires ThreeDimensional(w)
    ensures AlignedWorkGroups(AlignedWorkGroups(w)) == AlignedWorkGroups(w)
  {
    var r := AlignedWorkGroups(w);
    if w.local[0] == 1 && w.global[1] != 1 {
      assert r.local[0] == 1;
      assert r.global[1] != 1 by {
        if w.global[1] == 0 { assert r.global[1] == 0; }
      }
      assert Align(r.global[1], 32) == r.global[1];
      assert r.local[1 := 32] == r.local;
      assert r.global[1 := Align(r.global[1], 32)] == r.global;
    }
  }

  /** After the fix-up no kernel that spreads over dimension 1 runs with a
      1x1 local size in dimensions 0 and 1. */
  lemma AlignedWorkGroupsAvoidUnitLocal(w: WorkGroups)
    requires ThreeDimensional(w)
    ensures var r := AlignedWorkGroups(w);
      r.global[1] != 1 ==> !(r.local[0] == 1 && r.local[1] == 1)
  {
    var r := AlignedWorkGroups(w);
    if w.local[0] == 1 && w.global[1] != 1 {
      assert r.local[1] == 32;
    }
  }

  /** The work sizes of the first kernel data's kernels: the ones
      `GetCommonKernelsData` built. */
  class Kernels {
    var workGroups: array<WorkGroups>

    predicate Valid()
      reads this, workGroups
    {
      forall i :: 0 <= i < workGroups.Length ==> ThreeDimensional(workGroups[i])
    }

    constructor (ws: seq<WorkGroups>)
      requires forall i :: 0 <= i < |ws| ==> ThreeDimensional(ws[i])
      ensures Valid() && workGroups[..] == ws && fresh(workGroups)
    {
      workGroups := new WorkGroups[|ws|](i requires 0 <= i < |ws| => ws[i]);
    }

    /** The loop of lines 105-113 over the kernels of `kd[0]`: every kernel
        gets the fix-up, in place. */
    method AlignAll()
      requires Valid()
      modifies workGroups
      ensures Valid()
      ensures workGroups.Length == old(workGroups.Length)
      ensures forall i :: 0 <= i < workGroups.Length ==> workGroups[i] == AlignedWorkGroups(old(workGroups[i]))
    {
      var i := 0;
      while i < workGroups.Length
        invariant 0 <= i <= workGroups.Length
        invariant forall j :: 0 <= j < i ==> workGroups[j] == AlignedWorkGroups(old(workGroups[j]))
        invariant forall j :: i <= j < workGroups.Length ==> workGroups[j] == old(workGroups[j])
        invariant Valid()
      {
        workGroups[i] := AlignedWorkGroups(workGroups[i]);
        i := i + 1;
      }
    }
  }

  /** `GetKernelsData` (lines 101-117): when the base class produced any
      kernel data, the kernels of the first one get the fix-up; an empty
      result is returned as it is. */
  method GetKernelsData(kd: seq<Kernels>)
    requires |kd| > 0 ==> kd[0].Valid()
    modifies if |kd| > 0 then {kd[0].workGroups} else {}
    ensures |kd| > 0 ==> kd[0].Valid()
    ensures |kd| > 0 ==> forall i :: 0 <= i < kd[0].workGroups.Length ==>
        kd[0].workGroups[i] == AlignedWorkGroups(old(kd[0].workGroups[i]))
  {
    if |kd| > 0 {
      kd[0].AlignAll();
    }
  }

  /** `GetKernelsPriority` (lines 119-121): the reference kernel is the last
      resort whatever the parameters. */
  function GetKernelsPriority(p: ConcatParams): (r: Priority)
    ensures !r.ForcePriority?
  {
    DontUseIfHaveSomethingElse
  }
}
