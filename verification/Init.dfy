/**
  The integer and flag logic of `megatron/initialize.py`: the rank-dependent
  random seed, the device and local-rank assignment, the fused-softmax
  constraint check, the torch-version gate that picks the JIT fuser, the
  dtype and shapes of the JIT warmup, and the lazy/eager branch of
  `initialize_megatron`. Seeding the random generators, creating process
  groups, compiling and running kernels are side effects outside the model;
  where the code asks `torch` or `mpu` for a value, that value is an input.
 */
module Init {
  import opened Results
  import opened Text
  import opened Arith
  import opened FusedKernels

  // ----- _set_random_seed -----

  /** The seed `_set_random_seed(seed_, data_parallel_random_init)` installs on
      the process at the given pipeline and data-parallel ranks. A missing or
      non-positive seed makes the error message read the local `seed` before
      it was assigned, so Python raises `UnboundLocalError`. */
  function RandomSeed(seed: Option<int>, pipelineRank: nat, dataParallelRank: nat, dataParallelRandomInit: bool)
    : (r: Result<int>)
    ensures r.Ok? <==> seed.Some? && seed.value > 0
    ensures r.Err? ==> r.error == UnboundLocalError("seed")
    ensures r.Ok? ==> r.value > 0 && r.value % 10 == seed.value % 10
    ensures r.Ok? ==> (r.value - seed.value) / 100 >= pipelineRank
    ensures r.Ok? && !dataParallelRandomInit ==> r.value == seed.value + 100 * pipelineRank
    ensures r.Ok? && dataParallelRandomInit ==> r.value == seed.value + 100 * pipelineRank + 10 * dataParallelRank
  {
    if seed.Some? && seed.value > 0 then
      var s := seed.value + 100 * pipelineRank;
      Ok(if dataParallelRandomInit then s + 10 * dataParallelRank else s)
    else
      Err(UnboundLocalError("seed"))
  }

  /** Different pipeline stages of the same data-parallel replica get
      different seeds. */
  lemma SeedsDifferAcrossStages(seed: int, p1: nat, p2: nat, d: nat, randomInit: bool)
    requires seed > 0 && p1 != p2
    ensures RandomSeed(Some(seed), p1, d, randomInit).value != RandomSeed(Some(seed), p2, d, randomInit).value
  {
  }

  /** With `data_parallel_random_init`, replicas on the same stage get
      different seeds; without it they share one, as gradient averaging needs. */
  lemma SeedsAcrossReplicas(seed: int, p: nat, d1: nat, d2: nat, randomInit: bool)
    requires seed > 0 && d1 != d2
    ensures randomInit <==> RandomSeed(Some(seed), p, d1, randomInit) != RandomSeed(Some(seed), p, d2, randomInit)
  {
  }

  /** The two offsets overlap: with ten or more data-parallel replicas, stage 1
      replica 0 and stage 0 replica 10 are given the same seed. */
  lemma SeedsOverlapAcrossStageAndReplica(seed: int)
    requires seed > 0
    ensures RandomSeed(Some(seed), 1, 0, true) == RandomSeed(Some(seed), 0, 10, true)
  {
  }

  // ----- _initialize_distributed -----

  datatype DistArgs = DistArgs(rank: nat, worldSize: nat, localRank: Option<int>)

  /** What `_initialize_distributed` asks `torch` and `mpu`. */
  datatype DistEnv = DistEnv(
    alreadyInitialized: bool,    // torch.distributed.is_initialized()
    torchRank: nat,              // torch.distributed.get_rank()
    torchWorldSize: nat,         // torch.distributed.get_world_size()
    deviceCount: nat,            // torch.cuda.device_count()
    modelParallelInitialized: bool)

  /** The updated arguments, the CUDA device selected (if any), and whether
      the process group and the model-parallel groups get created. */
  datatype DistOutcome = DistOutcome(args: DistArgs, device: Option<nat>, initProcessGroup: bool, initModelParallel: bool)

  function InitializeDistributed(args: DistArgs, env: DistEnv): (r: Result<DistOutcome>)
    ensures r.Err? <==>
              && !env.alreadyInitialized && env.deviceCount > 0
              && args.localRank.Some? && args.localRank.value != args.rank % env.deviceCount
    ensures r.Err? ==> r.error.AssertionError?
    ensures r.Ok? && env.alreadyInitialized ==>
              && r.value.args == DistArgs(env.torchRank, env.torchWorldSize, args.localRank)
              && r.value.device.None? && !r.value.initProcessGroup
    ensures r.Ok? && !env.alreadyInitialized ==>
              && r.value.initProcessGroup
              && r.value.args.rank == args.rank && r.value.args.worldSize == args.worldSize
              && (r.value.device.Some? <==> env.deviceCount > 0)
              && (env.deviceCount == 0 ==> r.value.args.localRank == args.localRank)
    ensures r.Ok? && r.value.device.Some? ==>
              && r.value.device.value < env.deviceCount
              && r.value.device.value == r.value.args.rank % env.deviceCount
              && r.value.args.localRank == Some(r.value.device.value as int)
    ensures r.Ok? ==> (r.value.initModelParallel <==> env.deviceCount > 0 && !env.modelParallelInitialized)
  {
    var initModelParallel := env.deviceCount > 0 && !env.modelParallelInitialized;
    if env.alreadyInitialized then
      Ok(DistOutcome(DistArgs(env.torchRank, env.torchWorldSize, args.localRank), None, false, initModelParallel))
    else if env.deviceCount > 0 then
      var device := args.rank % env.deviceCount;
      if args.localRank.Some? && args.localRank.value != device then
        Err(AssertionError("local-rank"))
      else
        Ok(DistOutcome(args.(localRank := Some(device)), Some(device), true, initModelParallel))
    else
      Ok(DistOutcome(args, None, true, initModelParallel))
  }

  /** The device a fresh process of rank `rank` selects when no local rank
      is given. */
  function DeviceOf(rank: nat, worldSize: nat, env: DistEnv): Option<nat> {
    var r := InitializeDistributed(DistArgs(rank, worldSize, None), env);
    if r.Ok? then r.value.device else None
  }

  /** Some rank among `base .. base + deviceCount - 1` selects device `d`. */
  predicate NodeUsesDevice(base: nat, worldSize: nat, env: DistEnv, d: nat) {
    exists r: nat :: base <= r < base + env.deviceCount && DeviceOf(r, worldSize, env) == Some(d)
  }

  /** Any `deviceCount` consecutive ranks, the processes of one node, select
      pairwise distinct devices, and together they use every device. */
  lemma NodeRanksCoverDevices(base: nat, worldSize: nat, env: DistEnv)
    requires !env.alreadyInitialized && env.deviceCount > 0
    ensures forall r1: nat, r2: nat :: base <= r1 < r2 < base + env.deviceCount ==>
              DeviceOf(r1, worldSize, env) != DeviceOf(r2, worldSize, env)
    ensures forall d: nat :: d < env.deviceCount ==> NodeUsesDevice(base, worldSize, env, d)
  {
    var m := env.deviceCount;
    forall r1: nat, r2: nat | base <= r1 < r2 < base + m
      ensures DeviceOf(r1, worldSize, env) != DeviceOf(r2, worldSize, env)
    {
      CloseRemaindersDiffer(r1, r2, m);
    }
    forall d: nat | d < m
      ensures NodeUsesDevice(base, worldSize, env, d)
    {
      var r := RankOfDevice(base, worldSize, env, d);
    }
  }

  /** The rank among `base .. base + deviceCount - 1` that selects device `d`. */
  lemma RankOfDevice(base: nat, worldSize: nat, env: DistEnv, d: nat) returns (r: nat)
    requires !env.alreadyInitialized && d < env.deviceCount
    ensures base <= r < base + env.deviceCount && DeviceOf(r, worldSize, env) == Some(d)
  {
    var m := env.deviceCount;
    var q := (d - base) / m;
    r := base + (d - base) % m;
    assert r == (-q) * m + d;
    DivUnique(r, m, -q, d);
  }

  /** Initializing again with the arguments the first call left behind, the
      local rank it assigned included, is accepted and changes nothing. */
  lemma InitializeDistributedIdempotent(args: DistArgs, env: DistEnv)
    requires InitializeDistributed(args, env).Ok? && !env.alreadyInitialized
    ensures var out := InitializeDistributed(args, env).value;
            InitializeDistributed(out.args, env) == Ok(out)
  {
  }

  // ----- _compile_dependencies: fused softmax constraint -----

  datatype SoftmaxArgs = SoftmaxArgs(
    seqLength: int,
    numAttentionHeads: int,
    tensorModelParallelSize: Pos,
    microBatchSize: int,
    fp16: bool,
    bf16: bool,
    maskedSoftmaxFusion: bool,
    rank: int)

  /** Python's `x % 4 == 0` on a float, read in exact arithmetic: the float64
      rounding of `x` is not modelled, so the two can differ when `x` is not
      an integer Python computes exactly. */
  predicate IsMultipleOf4(x: real) {
    (x / 4.0).Floor as real == x / 4.0
  }

  /** `(heads / tp) * micro_batch_size`: Python's `/` is true division,
      here taken without float64 rounding. */
  function AttnBatchSize(a: SoftmaxArgs): real {
    (a.numAttentionHeads as real / a.tensorModelParallelSize as real) * a.microBatchSize as real
  }

  predicate CustomKernelConstraint(a: SoftmaxArgs) {
    && 16 < a.seqLength <= 8192
    && a.seqLength % 4 == 0
    && IsMultipleOf4(AttnBatchSize(a))
  }

  /** The run falls back to unfused softmax kernels. */
  predicate SoftmaxFallback(a: SoftmaxArgs) {
    !((a.fp16 || a.bf16) && CustomKernelConstraint(a) && a.maskedSoftmaxFusion)
  }

  /** A real number is an integer multiple of a positive integer `b` exactly
      when it is `a / b` for an `a` divisible by `b`. */
  lemma RealQuotientIsInteger(a: int, b: int)
    requires b > 0
    ensures ((a as real / b as real).Floor as real == a as real / b as real) <==> a % b == 0
  {
    var q := a as real / b as real;
    assert q * b as real == a as real;
    if a % b == 0 {
      var k := a / b;
      assert a == b * k;
      CastProduct(b, k);
      assert q == k as real;
    } else if q.Floor as real == q {
      var k := q.Floor;
      CastProduct(b, k);
      assert (b * k) as real == a as real;
      DivUnique(b * k, b, k, 0);
    }
  }

  lemma CastProduct(b: int, k: int)
    ensures (b * k) as real == b as real * k as real
  {
  }

  /** In exact arithmetic the attention batch-size clause holds exactly when
      `4 * tp` divides `heads * micro_batch_size`. */
  lemma AttnBatchSizeCondition(a: SoftmaxArgs)
    ensures IsMultipleOf4(AttnBatchSize(a)) <==>
              (a.numAttentionHeads * a.microBatchSize) % (4 * a.tensorModelParallelSize) == 0
  {
    var h := a.numAttentionHeads as real;
    var t := a.tensorModelParallelSize as real;
    var m := a.microBatchSize as real;
    assert AttnBatchSize(a) / 4.0 == (h * m) / (4.0 * t);
    assert (a.numAttentionHeads * a.microBatchSize) as real == h * m;
    assert (4 * a.tensorModelParallelSize) as real == 4.0 * t;
    RealQuotientIsInteger(a.numAttentionHeads * a.microBatchSize, 4 * a.tensorModelParallelSize);
  }

  /** When `tp` divides the head count, the attention batch size is the
      integer `(heads // tp) * micro_batch_size`, which float64 represents
      exactly below 2^53; there the exact reading agrees with Python's, and
      the clause is that integer being a multiple of 4. */
  lemma AttnBatchSizeWhenTpDividesHeads(a: SoftmaxArgs)
    requires a.numAttentionHeads % a.tensorModelParallelSize == 0
    ensures AttnBatchSize(a) == ((a.numAttentionHeads / a.tensorModelParallelSize) * a.microBatchSize) as real
    ensures IsMultipleOf4(AttnBatchSize(a)) <==>
              ((a.numAttentionHeads / a.tensorModelParallelSize) * a.microBatchSize) % 4 == 0
  {
    var t := a.tensorModelParallelSize;
    var q := a.numAttentionHeads / t;
    assert a.numAttentionHeads == q * t;
    CastProduct(q, t);
    assert a.numAttentionHeads as real / t as real == q as real;
    CastProduct(q, a.microBatchSize);
    RealQuotientIsInteger(q * a.microBatchSize, 4);
    assert AttnBatchSize(a) / 4.0 == (q * a.microBatchSize) as real / 4 as real;
  }

  /** The kernels are used exactly when half precision is on, masked softmax
      fusion is on, and the sequence and batch shapes fit the kernels; the
      warning is printed by rank 0 only. */
  function SoftmaxWarningPrinted(a: SoftmaxArgs): (printed: bool)
    ensures printed <==> a.rank == 0 && SoftmaxFallback(a)
    ensures !printed && a.rank == 0 ==>
              && (a.fp16 || a.bf16) && a.maskedSoftmaxFusion
              && 16 < a.seqLength <= 8192 && a.seqLength % 4 == 0
              && (a.numAttentionHeads * a.microBatchSize) % (4 * a.tensorModelParallelSize) == 0
  {
    AttnBatchSizeCondition(a);
    a.rank == 0 && SoftmaxFallback(a)
  }

  // ----- set_jit_fusion_options -----

  datatype Fuser = NvFuser | LegacyFuser

  /** The fuser `set_jit_fusion_options` enables for a `torch.__version__`
      string: nvfuser from version 1.10 on. */
  function JitFuser(torchVersion: string): (r: Result<Fuser>)
    ensures r.Ok? ==>
              var parts := SplitOn(torchVersion, '.');
              && |parts| >= 2
              && ParseInt(parts[0]).Some? && ParseInt(parts[1]).Some?
              && var major := ParseInt(parts[0]).value;
                 var minor := ParseInt(parts[1]).value;
                 (r.value == NvFuser <==> major > 1 || (major == 1 && minor >= 10))
    ensures var parts := SplitOn(torchVersion, '.');
            ParseInt(parts[0]).None? ==> r == Err(ValueError)
    ensures var parts := SplitOn(torchVersion, '.');
            ParseInt(parts[0]).Some? && |parts| < 2 ==> r == Err(IndexError)
    ensures var parts := SplitOn(torchVersion, '.');
            ParseInt(parts[0]).Some? && |parts| >= 2 && ParseInt(parts[1]).None? ==> r == Err(ValueError)
    ensures var parts := SplitOn(torchVersion, '.');
            ParseInt(parts[0]).Some? && |parts| >= 2 && ParseInt(parts[1]).Some? ==> r.Ok?
  {
    var parts := SplitOn(torchVersion, '.');
    match ParseInt(parts[0])
    case None => Err(ValueError)
    case Some(major) =>
      if |parts| < 2 then Err(IndexError)
      else
        match ParseInt(parts[1])
        case None => Err(ValueError)
        case Some(minor) =>
          Ok(if major > 1 || (major == 1 && minor >= 10) then NvFuser else LegacyFuser)
  }

  /** A version string `major.minor.rest` selects nvfuser exactly when
      `(major, minor)` is at least `(1, 10)`. */
  lemma JitFuserOfVersion(major: int, minor: int, rest: string)
    ensures JitFuser(ShowInt(major) + "." + ShowInt(minor) + "." + rest) ==
              Ok(if major > 1 || (major == 1 && minor >= 10) then NvFuser else LegacyFuser)
  {
    var v := ShowInt(major) + "." + ShowInt(minor) + "." + rest;
    assert v == ShowInt(major) + ['.'] + (ShowInt(minor) + ['.'] + rest);
    SplitCons(ShowInt(major), '.', ShowInt(minor) + ['.'] + rest);
    SplitCons(ShowInt(minor), '.', rest);
    ParseShowInt(major);
    ParseShowInt(minor);
  }

  // ----- _warmup_jit_function -----

  datatype DType = BFloat16 | Float16 | Float32

  datatype WarmupArgs = WarmupArgs(
    bf16: bool,
    fp16: bool,
    sequenceParallel: bool,
    seqLength: int,
    ffnHiddenSize: int,
    tensorModelParallelSize: Pos)

  /** The dtype of the warmup tensors, the width of the bias+gelu bias and the
      sequence length of the bias+dropout+add inputs. */
  datatype WarmupShapes = WarmupShapes(dtype: DType, geluWidth: int, dropoutSeqLength: int)

  /** Python's `a // b` for a positive `b`, stated by what it means. */
  predicate IsFloorDiv(q: int, a: int, b: int)
    requires b > 0
  {
    q * b <= a < (q + 1) * b
  }

  function JitWarmupShapes(a: WarmupArgs): (w: WarmupShapes)
    ensures w.dtype == BFloat16 <==> a.bf16
    ensures w.dtype == Float16 <==> !a.bf16 && a.fp16
    ensures w.dtype == Float32 <==> !a.bf16 && !a.fp16
    ensures IsFloorDiv(w.geluWidth, a.ffnHiddenSize, a.tensorModelParallelSize)
    ensures a.sequenceParallel ==> IsFloorDiv(w.dropoutSeqLength, a.seqLength, a.tensorModelParallelSize)
    ensures !a.sequenceParallel ==> w.dropoutSeqLength == a.seqLength
  {
    var dtype := if a.bf16 then BFloat16 else if a.fp16 then Float16 else Float32;
    var seqLength := if a.sequenceParallel then a.seqLength / a.tensorModelParallelSize else a.seqLength;
    WarmupShapes(dtype, a.ffnHiddenSize / a.tensorModelParallelSize, seqLength)
  }

  // ----- initialize_megatron -----

  datatype InitArgs = InitArgs(
    lazyMpuInit: bool,
    useCpuInitialization: bool,
    useCheckpointArgs: bool,      // the flag or its `args_defaults` entry
    loadGiven: bool,              // `args.load is not None`
    tensorModelParallelSize: nat,
    seed: Option<int>,
    dataParallelRandomInit: bool,
    maskedSoftmaxFusion: bool,
    gradientAccumulationFusion: bool,
    dist: DistArgs)

  /** What the eager path asks of the environment: the distributed state, the
      pipeline and data-parallel ranks `mpu` reports once its groups exist,
      and the banner `nvcc -V` prints when the fused kernels are loaded. */
  datatype InitEnv = InitEnv(cudaAvailable: bool, dist: DistEnv, pipelineRank: nat, dataParallelRank: nat,
                             nvccBanner: string)

  /** The steps performed, in order. */
  datatype Phase = DistributedInit | SeedsSet(seed: int) | AutoresumeInit | DependenciesCompiled(extensions: seq<Extension>)

  datatype InitOutcome = InitOutcome(
    useCpuInitialization: bool,
    tensorParallelWorldSize: Option<nat>,  // set eagerly on the lazy path
    tensorParallelRank: Option<nat>,       // set eagerly on the lazy path
    continuation: bool,                    // a finishing function is returned
    phases: seq<Phase>)

  /** `finish_mpu_init`: distributed set-up, then seeding. */
  function FinishMpuInit(args: InitArgs, env: InitEnv): (r: Result<seq<Phase>>)
    ensures InitializeDistributed(args.dist, env.dist).Err? ==> r == Err(InitializeDistributed(args.dist, env.dist).error)
    ensures InitializeDistributed(args.dist, env.dist).Ok? ==>
              (r.Ok? <==> args.seed.Some? && args.seed.value > 0)
    ensures r.Err? && InitializeDistributed(args.dist, env.dist).Ok? ==> r == Err(UnboundLocalError("seed"))
    ensures r.Ok? ==> |r.value| == 2 && r.value[0] == DistributedInit && r.value[1].SeedsSet?
    ensures r.Ok? ==> RandomSeed(args.seed, env.pipelineRank, env.dataParallelRank, args.dataParallelRandomInit) == Ok(r.value[1].seed)
  {
    var _ :- InitializeDistributed(args.dist, env.dist);
    var seed :- RandomSeed(args.seed, env.pipelineRank, env.dataParallelRank, args.dataParallelRandomInit);
    Ok([DistributedInit, SeedsSet(seed)])
  }

  /** The arguments `fused_kernels.load` reads, the rank being the one
      `_initialize_distributed` left in the arguments. */
  function KernelArgsOf(args: InitArgs, env: InitEnv): KernelArgs {
    var dist := InitializeDistributed(args.dist, env.dist);
    var rank := if dist.Ok? then dist.value.args.rank else args.dist.rank;
    KernelArgs(rank, args.maskedSoftmaxFusion, args.gradientAccumulationFusion)
  }

  /** `initialize_megatron` after argument parsing: the lazy path only
      records the tensor-parallel size and rank and hands back the rest as a
      continuation; the eager path runs it and then the autoresume and
      compilation steps, the latter loading the fused kernels. */
  function InitializeMegatron(args: InitArgs, env: InitEnv, allowNoCuda: bool): (r: Result<InitOutcome>)
    ensures !allowNoCuda && !env.cudaAvailable ==> r.Err?
    ensures args.useCheckpointArgs && !args.loadGiven ==> r.Err?
    ensures r.Ok? && args.lazyMpuInit ==>
              && r.value.useCpuInitialization
              && r.value.continuation
              && r.value.phases == []
              && r.value.tensorParallelWorldSize == Some(args.tensorModelParallelSize)
              && r.value.tensorParallelRank == Some(args.dist.rank)
    ensures r.Ok? && !args.lazyMpuInit ==>
              && !r.value.continuation
              && r.value.useCpuInitialization == args.useCpuInitialization
              && FinishMpuInit(args, env).Ok?
              && Load(KernelArgsOf(args, env), env.nvccBanner).Ok?
              && |r.value.phases| == 4
              && r.value.phases[..2] == FinishMpuInit(args, env).value
              && r.value.phases[2] == AutoresumeInit
              && r.value.phases[3] == DependenciesCompiled(Load(KernelArgsOf(args, env), env.nvccBanner).value)
    ensures (allowNoCuda || env.cudaAvailable) && (!args.useCheckpointArgs || args.loadGiven) && args.lazyMpuInit ==>
              r.Ok?
    ensures (allowNoCuda || env.cudaAvailable) && (!args.useCheckpointArgs || args.loadGiven) && !args.lazyMpuInit ==>
              && (FinishMpuInit(args, env).Err? ==> r == Err(FinishMpuInit(args, env).error))
              && (FinishMpuInit(args, env).Ok? ==>
                    match Load(KernelArgsOf(args, env), env.nvccBanner)
                    case Err(e) => r == Err(e)
                    case Ok(_) => r.Ok?)
  {
    if !allowNoCuda && !env.cudaAvailable then Err(AssertionError("cuda"))
    else if args.useCheckpointArgs && !args.loadGiven then Err(AssertionError("load"))
    else if args.lazyMpuInit then
      Ok(InitOutcome(true, Some(args.tensorModelParallelSize), Some(args.dist.rank), true, []))
    else
      var finished :- FinishMpuInit(args, env);
      var extensions :- Load(KernelArgsOf(args, env), env.nvccBanner);
      var phases := finished + [AutoresumeInit, DependenciesCompiled(extensions)];
      assert phases[..2] == finished;
      Ok(InitOutcome(args.useCpuInitialization, None, None, false, phases))
  }

  /** Calling the continuation the lazy path returns performs the eager
      path's first two steps, with the same seed: if the eager path gets
      past them, the continuation succeeds with exactly those steps, and if
      the continuation fails, the eager path fails with the same error. */
  lemma LazyThenFinishIsEager(args: InitArgs, env: InitEnv, allowNoCuda: bool)
    requires InitializeMegatron(args.(lazyMpuInit := true), env, allowNoCuda).Ok?
    ensures var eager := InitializeMegatron(args.(lazyMpuInit := false), env, allowNoCuda);
            && (eager.Ok? ==> FinishMpuInit(args, env).Ok? && eager.value.phases[..2] == FinishMpuInit(args, env).value)
            && (FinishMpuInit(args, env).Err? ==> eager == Err(FinishMpuInit(args, env).error))
  {
    var eagerArgs := args.(lazyMpuInit := false);
    assert FinishMpuInit(eagerArgs, env) == FinishMpuInit(args, env);
    assert KernelArgsOf(eagerArgs, env) == KernelArgsOf(args, env);
  }
}
