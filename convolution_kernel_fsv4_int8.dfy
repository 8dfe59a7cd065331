/** The GPU plugin's int8 convolution kernel for the `b_fs_yx_fsv4` layout
    (`ConvolutionKernel_b_fs_yx_fsv4_int8`): which convolutions it accepts,
    how strongly it asks to be chosen, how it sizes its dispatch and which
    fused-operation slots it declares. */
module ConvolutionFsv4Int8 {
  import opened KernelSelector

  /** The sub-group width the kernel is written for (line 11). */
  const SubGroupSize: nat := 16

  /** The parts of `convolution_params` this kernel reads. The accumulator
      and activation types are what the base class derives from the
      parameters (`GetAccumulatorType`, `GetActivationType`). */
  datatype ConvParams = ConvParams(
    inputX: nat,
    inputFeatures: nat,
    outputX: nat,
    outputY: nat,
    outputFeatures: nat,
    outputBatch: nat,
    filterX: nat,
    filterY: nat,
    strideX: nat,
    strideY: nat,
    fusedOps: nat,
    accumulatorType: Datatype,
    activationType: Datatype)

  // ---------------------------------------------------------------- key

  /** `GetSupportedKey` (lines 13-36) as data. */
  function GetSupportedKey(): ParamsKey {
    ParamsKey(
      inputTypes := {INT8, UINT8},
      outputTypes := {F32, F16, INT8, UINT8},
      weightsTypes := {WeightsINT8},
      inputLayouts := {b_fs_yx_fsv4},
      outputLayouts := {b_fs_yx_fsv4},
      concatAxes := {},
      features := {TensorOffset, TensorPitches, SubGroup, BiasPerFeature, NonBiasTerm,
                   SymmetricQuantization, DifferentTypes, DifferentInputWeightsTypes})
  }

  /** Only 8-bit integer inputs and weights, in and out of the one layout;
      every input type is also an output type. */
  lemma SupportedKeyIsInt8Fsv4()
    ensures forall t :: t in GetSupportedKey().inputTypes <==> t == INT8 || t == UINT8
    ensures GetSupportedKey().inputTypes <= GetSupportedKey().outputTypes
    ensures forall w :: w in GetSupportedKey().weightsTypes <==> w == WeightsINT8
    ensures forall l :: l in GetSupportedKey().inputLayouts <==> l == b_fs_yx_fsv4
    ensures GetSupportedKey().inputLayouts == GetSupportedKey().outputLayouts
  {
  }

  // ---------------------------------------------------------------- validate

  /** `Validate` (lines 61-81). `baseValid` and `inputChecked` are the
      verdicts of `ConvolutionKernelBase::Validate` and
      `ConvolutionCheckInput`. */
  function Validate(p: ConvParams, baseValid: bool, inputChecked: bool): bool {
    if !baseValid || !inputChecked then false
    else if p.inputX % 64 != 0 then false
    else
      var bFilterSize :=
        || (p.filterX == 5 && p.filterY == 5)
        || (p.filterX == 3 && p.filterY == 3 && p.inputFeatures % 4 == 0)
        || (p.filterX == 1 && p.filterY == 1);
      var bStride := p.strideX == 1 && p.strideY == 1;
      if !bFilterSize || !bStride || p.outputFeatures % 4 != 0 || p.outputBatch != 1 then false
      else true
  }

  /** The filter shapes the kernel is written for, given the input's
      feature count: 1x1 and 5x5 always, 3x3 only over whole groups of four
      features. */
  function AcceptedFilters(inputFeatures: nat): set<(nat, nat)> {
    {(1, 1), (5, 5)} + (if inputFeatures % 4 == 0 then {(3, 3)} else {})
  }

  /** `Validate` accepts exactly when the base checks pass, the input width
      is a multiple of 64, the filter is one of the accepted shapes, the
      stride is 1 in both directions, the output features come in groups of
      four and there is a single image. */
  lemma ValidateIff(p: ConvParams, baseValid: bool, inputChecked: bool)
    ensures Validate(p, baseValid, inputChecked) <==>
      && baseValid && inputChecked
      && p.inputX % 64 == 0
      && (p.filterX, p.filterY) in AcceptedFilters(p.inputFeatures)
      && p.strideX == 1 && p.strideY == 1
      && p.outputFeatures % 4 == 0
      && p.outputBatch == 1
  {
  }

  /** Whatever else holds, the kernel refuses what its base refuses, and an
      input width that is not a multiple of 64. */
  lemma ValidateNeedsBaseAndWidth(p: ConvParams, baseValid: bool, inputChecked: bool)
    requires !baseValid || !inputChecked || p.inputX % 64 != 0
    ensures !Validate(p, baseValid, inputChecked)
  {
  }

  /** Every accepted filter is square, of side 1, 3 or 5. */
  lemma ValidFilterIsSquare(p: ConvParams, baseValid: bool, inputChecked: bool)
    requires Validate(p, baseValid, inputChecked)
    ensures p.filterX == p.filterY
    ensures p.filterX == 1 || p.filterX == 3 || p.filterX == 5
    ensures p.filterX == 3 ==> p.inputFeatures % 4 == 0
  {
  }

  // ---------------------------------------------------------------- priority

  /** `GetKernelsPriority` (lines 52-59). */
  function GetKernelsPriority(p: ConvParams): (r: Priority)
    ensures r == ForcePriority(2) || r == ForcePriority(9)
  {
    if p.outputX > 512 && p.filterX == 5 && p.filterY == 5 then ForcePriority(2)
    else ForcePriority(9)
  }

  /** The kernel asks for the stronger priority exactly for wide outputs
      under a 5x5 filter. */
  lemma PriorityTwoIff(p: ConvParams)
    ensures GetKernelsPriority(p) == ForcePriority(2) <==>
      p.outputX > 512 && p.filterX == 5 && p.filterY == 5
  {
  }

  // ---------------------------------------------------------------- dispatch

  /** Global and local work sizes (`gws`, `lws`). */
  datatype DispatchData = DispatchData(gws: seq<nat>, lws: seq<nat>)

  /** `SetDefault` (lines 38-50): each work-group is one sub-group, and the
      output row is split into blocks of 16 columns, two per work item. */
  function SetDefault(p: ConvParams): (d: DispatchData)
    ensures |d.gws| == 3 && |d.lws| == 3
    ensures d.lws == [1, 1, SubGroupSize]
    ensures d.gws[1] == p.outputY && d.gws[2] == SubGroupSize
    ensures 2 * d.gws[0] <= CeilDiv(p.outputX, SubGroupSize) <= 2 * d.gws[0] + 1
  {
    DispatchData(
      [CeilDiv(p.outputX, SubGroupSize) / 2, p.outputY, SubGroupSize],
      [1, 1, SubGroupSize])
  }

  /** The local size along 2 equals the global size along 2, so dimension 2
      is one sub-group wide. */
  lemma SetDefaultOneSubGroup(p: ConvParams)
    ensures SetDefault(p).lws[2] == SetDefault(p).gws[2] == 16
  {
  }

  /** The dispatched work items span the output row up to the last half
      pair of blocks: 32 columns each, short of the width by at most 16. */
  lemma {:induction false} SetDefaultSpansRow(p: ConvParams)
    ensures 32 * SetDefault(p).gws[0] < p.outputX + 16
    ensures p.outputX <= 32 * SetDefault(p).gws[0] + 16
  {
    CeilDivCovers(p.outputX, SubGroupSize);
  }

  // ---------------------------------------------------------------- JIT

  /** `FusedOpsConfiguration`: how a fused operation is applied to one
      result variable: the name suffix, the b/f/y/x index expressions, the
      variable and its type, and the vector width. */
  datatype FusedOpsConfiguration = FusedOpsConfiguration(
    suffix: string,
    bfyxIdxOrder: seq<string>,
    inputVarName: string,
    inputDt: Datatype,
    vecSize: nat)

  /** Slot `i` of the eight: result `res<i>`, at feature offset `i mod 4`
      within the current group of output features. */
  function FusedSlot(i: nat, dt: Datatype): FusedOpsConfiguration
    requires i < 8
  {
    FusedOpsConfiguration(
      "_" + Digit(i),
      ["batch", "FILTER_OFM_MAX * iter + ofm + " + Digit(i % 4), "idy", "idx"],
      "res" + Digit(i), dt, 1)
  }

  /** The eight configurations of lines 93-100. */
  function FusedOpsConfigs(dt: Datatype): (cs: seq<FusedOpsConfiguration>)
    ensures |cs| == 8
  {
    [ FusedOpsConfiguration("_0", ["batch", "FILTER_OFM_MAX * iter + ofm + 0", "idy", "idx"], "res0", dt, 1),
      FusedOpsConfiguration("_1", ["batch", "FILTER_OFM_MAX * iter + ofm + 1", "idy", "idx"], "res1", dt, 1),
      FusedOpsConfiguration("_2", ["batch", "FILTER_OFM_MAX * iter + ofm + 2", "idy", "idx"], "res2", dt, 1),
      FusedOpsConfiguration("_3", ["batch", "FILTER_OFM_MAX * iter + ofm + 3", "idy", "idx"], "res3", dt, 1),
      FusedOpsConfiguration("_4", ["batch", "FILTER_OFM_MAX * iter + ofm + 0", "idy", "idx"], "res4", dt, 1),
      FusedOpsConfiguration("_5", ["batch", "FILTER_OFM_MAX * iter + ofm + 1", "idy", "idx"], "res5", dt, 1),
      FusedOpsConfiguration("_6", ["batch", "FILTER_OFM_MAX * iter + ofm + 2", "idy", "idx"], "res6", dt, 1),
      FusedOpsConfiguration("_7", ["batch", "FILTER_OFM_MAX * iter + ofm + 3", "idy", "idx"], "res7", dt, 1) ]
  }

  /** The feature offset written out in the four index expressions. */
  lemma FeatureOffsetText(k: nat)
    requires k < 4
    ensures "FILTER_OFM_MAX * iter + ofm + " + Digit(k) ==
      ["FILTER_OFM_MAX * iter + ofm + 0", "FILTER_OFM_MAX * iter + ofm + 1",
       "FILTER_OFM_MAX * iter + ofm + 2", "FILTER_OFM_MAX * iter + ofm + 3"][k]
  {
    assert Digit(0) == "0" && Digit(1) == "1" && Digit(2) == "2" && Digit(3) == "3";
  }

  /** Configuration `i` is slot `i`. */
  lemma FusedOpsConfigsAreSlots(dt: Datatype)
    ensures forall i :: 0 <= i < 8 ==> FusedOpsConfigs(dt)[i] == FusedSlot(i, dt)
  {
    var cs := FusedOpsConfigs(dt);
    assert Digit(0) == "0" && Digit(1) == "1" && Digit(2) == "2" && Digit(3) == "3";
    assert Digit(4) == "4" && Digit(5) == "5" && Digit(6) == "6" && Digit(7) == "7";
    forall i | 0 <= i < 8
      ensures cs[i] == FusedSlot(i, dt)
    {
      FeatureOffsetText(i % 4);
    }
  }

  /** The eight slots carry distinct suffixes and distinct result
      variables, and slots `i` and `i + 4` apply to the same feature. */
  lemma FusedSlotsDistinct(dt: Datatype)
    ensures forall i, j :: 0 <= i < j < 8 ==>
      FusedOpsConfigs(dt)[i].suffix != FusedOpsConfigs(dt)[j].suffix
      && FusedOpsConfigs(dt)[i].inputVarName != FusedOpsConfigs(dt)[j].inputVarName
    ensures forall i :: 0 <= i < 4 ==>
      FusedOpsConfigs(dt)[i].bfyxIdxOrder == FusedOpsConfigs(dt)[i + 4].bfyxIdxOrder
  {
    FusedOpsConfigsAreSlots(dt);
    forall i, j | 0 <= i < j < 8
      ensures FusedOpsConfigs(dt)[i].suffix != FusedOpsConfigs(dt)[j].suffix
      ensures FusedOpsConfigs(dt)[i].inputVarName != FusedOpsConfigs(dt)[j].inputVarName
    {
      assert FusedSlot(i, dt).suffix[1] != FusedSlot(j, dt).suffix[1];
      assert FusedSlot(i, dt).inputVarName[3] != FusedSlot(j, dt).inputVarName[3];
    }
  }

  /** `GetJitConstants` (lines 83-105). `parent` is what the base class
      defines, `typeJit` stands for `MakeTypeJitConstants` and `fusedJit`
      for `MakeFusedOpsJitConstants`, neither of which is part of this
      model. */
  function GetJitConstants(
    p: ConvParams, d: DispatchData, parent: seq<JitConstant>,
    typeJit: (Datatype, string) -> seq<JitConstant>,
    fusedJit: seq<FusedOpsConfiguration> -> seq<JitConstant>): (jit: seq<JitConstant>)
    requires |d.lws| == 3
    ensures |jit| > |parent| && jit[..|parent|] == parent
    ensures jit[|parent|] == JitConstant("SUB_GROUP_SIZE", IntValue(d.lws[2]))
    ensures p.fusedOps == 0 ==>
      jit == parent + [jit[|parent|]]
             + typeJit(p.accumulatorType, "ACCUMULATOR") + typeJit(p.activationType, "ACTIVATION")
    ensures p.fusedOps != 0 ==>
      jit == parent + [jit[|parent|]]
             + typeJit(p.accumulatorType, "ACCUMULATOR") + typeJit(p.activationType, "ACTIVATION")
             + fusedJit(FusedOpsConfigs(p.activationType))
  {
    parent
    + [JitConstant("SUB_GROUP_SIZE", IntValue(d.lws[2]))]
    + typeJit(p.accumulatorType, "ACCUMULATOR")
    + typeJit(p.activationType, "ACTIVATION")
    + (if p.fusedOps != 0 then fusedJit(FusedOpsConfigs(p.activationType)) else [])
  }

  /** Fused ops only add their constants at the end: the list with fused ops
      is the list without them followed by the eight configurations'
      constants. */
  lemma FusedOpsAppendConstants(
    p: ConvParams, d: DispatchData, parent: seq<JitConstant>,
    typeJit: (Datatype, string) -> seq<JitConstant>,
    fusedJit: seq<FusedOpsConfiguration> -> seq<JitConstant>)
    requires |d.lws| == 3 && p.fusedOps != 0
    ensures GetJitConstants(p, d, parent, typeJit, fusedJit) ==
            GetJitConstants(p.(fusedOps := 0), d, parent, typeJit, fusedJit) + fusedJit(FusedOpsConfigs(p.activationType))
  {
  }

  /** With the kernel's own dispatch sizes, SUB_GROUP_SIZE is the sub-group
      width of line 11. */
  lemma SubGroupSizeConstant(
    p: ConvParams, parent: seq<JitConstant>,
    typeJit: (Datatype, string) -> seq<JitConstant>,
    fusedJit: seq<FusedOpsConfiguration> -> seq<JitConstant>)
    ensures GetJitConstants(p, SetDefault(p), parent, typeJit, fusedJit)[|parent|]
      == JitConstant("SUB_GROUP_SIZE", IntValue(16))
  {
  }
}
