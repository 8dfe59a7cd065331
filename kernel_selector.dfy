/** Vocabulary the GPU plugin's kernel selector shares between kernels: data
    types and layouts, the capability key a kernel advertises, priorities,
    JIT constants, work-group sizes, and the two rounding helpers `Align` and
    `CeilDiv`. */
module KernelSelector {

  // ---------------------------------------------------------------- keys

  datatype Datatype = F16 | F32 | INT8 | UINT8 | INT32 | INT64

  datatype WeightsType = WeightsINT8 | WeightsF16 | WeightsF32

  datatype DataLayout =
    | bf | fb | bfyx | yxfb | byxf | fyxb
    | b_fs_yx_fsv4 | b_fs_yx_fsv16 | b_fs_yx_fsv32
    | bs_fs_yx_bsv16_fsv16 | bs_fs_yx_bsv32_fsv16 | bs_fs_yx_bsv32_fsv32

  /** A tensor channel (`Tensor::DataChannelName`). */
  datatype Channel = X | Y | Z | W | Feature | Batch

  /** The switches of a `ParamsKey` that are not sets of values. */
  datatype KeyFeature =
    | TensorOffset | TensorPitches | Batching | ConcatKernelPerInput
    | DifferentTypes | DifferentInputWeightsTypes | SubGroup
    | BiasPerFeature | NonBiasTerm | SymmetricQuantization

  /** What a kernel advertises it can handle: each `Enable…` call of
      `GetSupportedKey` adds one element to one of these sets. */
  datatype ParamsKey = ParamsKey(
    inputTypes: set<Datatype>,
    outputTypes: set<Datatype>,
    weightsTypes: set<WeightsType>,
    inputLayouts: set<DataLayout>,
    outputLayouts: set<DataLayout>,
    concatAxes: set<Channel>,
    features: set<KeyFeature>)

  /** The set of values a sequence of `Enable…` calls switches on. */
  function Elements<T>(xs: seq<T>): set<T> {
    set x | x in xs
  }

  /** Enabling distinct values one after another enables as many values as
      there were calls. */
  lemma {:induction false} DistinctElements<T>(xs: seq<T>)
    requires forall i, j :: 0 <= i < j < |xs| ==> xs[i] != xs[j]
    ensures |Elements(xs)| == |xs|
  {
    if |xs| > 0 {
      DistinctElements(xs[1..]);
      assert Elements(xs) == Elements(xs[1..]) + {xs[0]};
      assert xs[0] !in Elements(xs[1..]);
    }
  }

  // ---------------------------------------------------------------- priority

  /** `KernelsPriority`: a forced level (lower is tried first) or the level
      after every forced one. */
  datatype Priority = ForcePriority(level: nat) | DontUseIfHaveSomethingElse

  // ---------------------------------------------------------------- JIT

  datatype JitValue = IntValue(i: int) | StrValue(s: string)

  /** One `#define` handed to the OpenCL compiler. */
  datatype JitConstant = JitConstant(name: string, value: JitValue)

  // ---------------------------------------------------------------- dispatch

  /** Global and local work sizes of one kernel launch, three entries each. */
  datatype WorkGroups = WorkGroups(global: seq<nat>, local: seq<nat>)

  predicate ThreeDimensional(w: WorkGroups) {
    |w.global| == 3 && |w.local| == 3
  }

  // ---------------------------------------------------------------- rounding

  /** `Align(x, n)`: `x` rounded up to the next multiple of `n`. */
  function Align(x: nat, n: nat): (r: nat)
    requires n > 0
    ensures r % n == 0
    ensures x <= r < x + n
    ensures x % n == 0 ==> r == x
  {
    if x % n == 0 then x
    else
      var q := x / n;
      assert x == q * n + x % n;
      MultipleHasNoRemainder(q + 1, n);
      x - x % n + n
  }

  lemma MultipleHasNoRemainder(q: int, n: int)
    requires n > 0
    ensures (q * n) % n == 0
  {
    var d, m := (q * n) / n, (q * n) % n;
    assert (q - d) * n == m;
    SmallMultipleIsZero(q - d, n);
  }

  /** The only multiple of `n` strictly between `-n` and `n` is zero. */
  lemma SmallMultipleIsZero(k: int, n: int)
    requires n > 0 && -n < k * n < n
    ensures k == 0
  {
    if k >= 1 {
      MultipleAtLeast(k, n);
    } else if k <= -1 {
      MultipleAtLeast(-k, n);
    }
  }

  lemma {:induction false} MultipleAtLeast(k: int, n: int)
    requires k >= 1 && n > 0
    ensures k * n >= n
  {
    if k > 1 {
      MultipleAtLeast(k - 1, n);
    }
  }

  /** `CeilDiv(a, b)`: the quotient rounded up. */
  function CeilDiv(a: nat, b: nat): nat
    requires b > 0
  {
    (a + b - 1) / b
  }

  /** `b` blocks of `CeilDiv(a, b)` cover `a`, with less than one block to
      spare. */
  lemma CeilDivCovers(a: nat, b: nat)
    requires b > 0
    ensures CeilDiv(a, b) * b >= a
    ensures CeilDiv(a, b) * b < a + b
  {
    var q := CeilDiv(a, b);
    assert q * b + (a + b - 1) % b == a + b - 1;
  }

  /** One decimal digit as a string. */
  function Digit(i: nat): (s: string)
    requires i < 10
    ensures |s| == 1 && '0' <= s[0] <= '9'
  {
    [('0' as int + i) as char]
  }
}
