/**
  The training budget from `megatron/training.py`: the microbatch calculator
  as the driver sees it, `update_train_iters` (turning a sample budget into
  an iteration count, simulating a batch-size ramp-up) and the step sizes
  `get_optimizer_param_scheduler` hands to the learning-rate scheduler.

  The calculator itself is not part of this model: it is any pair of
  functions from the number of consumed samples to the current global batch
  size and the current number of microbatches.
 */
module Budget {
  import opened Results
  import opened Text

  /** `update_num_microbatches(c)` followed by `get_current_global_batch_size()`
      or `get_num_microbatches()`: both depend only on the consumed-sample
      count `c` last passed in. */
  datatype Calculator = Calculator(globalBatchSize: nat -> Pos, numMicrobatches: nat -> Pos)

  /** The calculator's batch size equals what the data-parallel replicas
      actually consume per step. */
  ghost predicate Consistent(calculator: Calculator, microBatchSize: Pos, dataParallelSize: Pos) {
    forall c: nat :: calculator.globalBatchSize(c) == calculator.numMicrobatches(c) * microBatchSize * dataParallelSize
  }

  /** The consumed-sample count after `k` steps starting at `c`, each step
      adding the global batch size at the count it starts from. */
  function Advance(calculator: Calculator, c: nat, k: nat): nat
    decreases k
  {
    if k == 0 then c else Advance(calculator, c + calculator.globalBatchSize(c), k - 1)
  }

  /** One more step appends one batch at the end. */
  lemma {:induction false} AdvanceStep(calculator: Calculator, c: nat, k: nat)
    ensures Advance(calculator, c, k + 1) == Advance(calculator, c, k) + calculator.globalBatchSize(Advance(calculator, c, k))
    decreases k
  {
    if k > 0 {
      AdvanceStep(calculator, c + calculator.globalBatchSize(c), k - 1);
    }
  }

  /** Steps compose: `k1` steps then `k2` more are `k1 + k2` steps. */
  lemma {:induction false} AdvanceCompose(calculator: Calculator, c: nat, k1: nat, k2: nat)
    ensures Advance(calculator, Advance(calculator, c, k1), k2) == Advance(calculator, c, k1 + k2)
    decreases k1
  {
    if k1 > 0 {
      AdvanceCompose(calculator, c + calculator.globalBatchSize(c), k1 - 1, k2);
    }
  }

  /** Where the batch size no longer changes, `k` steps add `k` full batches. */
  lemma {:induction false} AdvanceConstant(calculator: Calculator, c: nat, k: nat, g: Pos)
    requires forall x: nat :: x >= c ==> calculator.globalBatchSize(x) == g
    ensures Advance(calculator, c, k) == c + k * g
    decreases k
  {
    if k > 0 {
      AdvanceConstant(calculator, c + g, k - 1, g);
    }
  }

  /** The ramp-up loop of `update_train_iters`, from `consumed` on: the
      number of steps taken and the consumed count it stops at. It runs
      exactly until the count first exceeds `rampSamples`. */
  function RampPhase(calculator: Calculator, consumed: nat, rampSamples: int): (r: (nat, nat))
    ensures r.1 == Advance(calculator, consumed, r.0)
    ensures r.1 > rampSamples
    ensures forall j: nat :: j < r.0 ==> Advance(calculator, consumed, j) <= rampSamples
    decreases rampSamples + 1 - consumed
  {
    if consumed > rampSamples then (0, consumed)
    else
      var rest := RampPhase(calculator, consumed + calculator.globalBatchSize(consumed), rampSamples);
      assert forall j: nat :: 0 < j < rest.0 + 1 ==>
        Advance(calculator, consumed, j) == Advance(calculator, consumed + calculator.globalBatchSize(consumed), j - 1);
      (rest.0 + 1, rest.1)
  }

  /** Python's `samples // g` for a positive batch size: the number of whole
      batches in `samples`, rounded towards minus infinity. */
  function WholeBatches(samples: int, g: Pos): (q: int)
    ensures q * g <= samples < (q + 1) * g
  {
    samples / g
  }

  /** The arguments `update_train_iters` reads. `rampupBatchSize` holds the
      three command-line strings start, increment and ramp-up samples. */
  datatype SampleArgs = SampleArgs(
    trainIters: Option<int>,
    trainSamples: Option<int>,
    rampupBatchSize: Option<seq<string>>,
    globalBatchSize: Pos)

  /** The iteration count `update_train_iters` leaves in the arguments, and
      the consumed count the calculator is left at (`None`: not touched). */
  datatype ItersUpdate = ItersUpdate(trainIters: Option<int>, calculatorAt: Option<nat>)

  /** `update_train_iters`: iteration-based runs are left alone; a sample
      budget becomes a number of iterations, the ramp-up phase simulated
      step by step and the rest divided by the full global batch size, a
      partial last batch dropped. */
  function UpdateTrainIters(args: SampleArgs, calculator: Calculator): (r: Result<ItersUpdate>)
    ensures Truthy(args.trainIters) ==> r == Ok(ItersUpdate(args.trainIters, None))
    ensures !Truthy(args.trainIters) && args.trainSamples.None? ==> r.Err?
    ensures !Truthy(args.trainIters) && args.rampupBatchSize.None? ==>
              match args.trainSamples
              case None => r == Err(TypeError)
              case Some(ts) =>
                && r.Ok? && r.value.calculatorAt.None? && r.value.trainIters.Some?
                && r.value.trainIters.value * args.globalBatchSize <= ts
                && ts < (r.value.trainIters.value + 1) * args.globalBatchSize
    ensures !Truthy(args.trainIters) && args.rampupBatchSize.Some? ==>
              var ramp := args.rampupBatchSize.value;
              && (|ramp| < 3 ==> r == Err(IndexError))
              && (|ramp| >= 3 && ParseInt(ramp[2]).None? ==> r == Err(ValueError))
              && (|ramp| >= 3 && ParseInt(ramp[2]).Some? ==>
                    (r.Ok? <==> args.trainSamples.Some?)
                    && (r.Ok? ==>
                          var (k, c) := RampPhase(calculator, 0, ParseInt(ramp[2]).value);
                          var rest := args.trainSamples.value - c;
                          && r.value.calculatorAt == Some(0)
                          && r.value.trainIters.Some?
                          && (r.value.trainIters.value - k) * args.globalBatchSize <= rest
                          && rest < (r.value.trainIters.value - k + 1) * args.globalBatchSize))
  {
    if Truthy(args.trainIters) then Ok(ItersUpdate(args.trainIters, None))
    else match args.rampupBatchSize
      case None =>
        (match args.trainSamples
         case None => Err(TypeError)
         case Some(ts) => Ok(ItersUpdate(Some(WholeBatches(ts, args.globalBatchSize)), None)))
      case Some(ramp) =>
        if |ramp| < 3 then Err(IndexError)
        else match ParseInt(ramp[2])
          case None => Err(ValueError)
          case Some(rampSamples) =>
            var (iterations, consumed) := RampPhase(calculator, 0, rampSamples);
            match args.trainSamples
            case None => Err(TypeError)
            case Some(ts) =>
              Ok(ItersUpdate(Some(iterations + WholeBatches(ts - consumed, args.globalBatchSize)), Some(0)))
  }

  /** Running the computed number of iterations on a constant batch size
      consumes the whole sample budget but for less than one batch. */
  lemma ConstantBudgetCovered(args: SampleArgs, calculator: Calculator)
    requires !Truthy(args.trainIters) && args.rampupBatchSize.None? && args.trainSamples.Some?
    requires args.trainSamples.value >= 0
    requires forall x: nat :: calculator.globalBatchSize(x) == args.globalBatchSize
    ensures var n := UpdateTrainIters(args, calculator).value.trainIters.value;
            && n >= 0
            && Advance(calculator, 0, n) <= args.trainSamples.value < Advance(calculator, 0, n + 1)
  {
    var ts := args.trainSamples.value;
    var g := args.globalBatchSize;
    var n := WholeBatches(ts, g);
    assert UpdateTrainIters(args, calculator) == Ok(ItersUpdate(Some(n), None));
    assert n * g <= ts < (n + 1) * g;
    AdvanceConstant(calculator, 0, n, g);
    AdvanceConstant(calculator, 0, n + 1, g);
  }

  /** With a ramp-up that is over once `rampSamples` samples are consumed,
      running the computed number of iterations on the calculator's own
      schedule consumes the whole sample budget but for less than one full
      batch: the simulated ramp-up is the schedule the run will follow. */
  lemma {:induction false} RampBudgetCovered(args: SampleArgs, calculator: Calculator)
    requires !Truthy(args.trainIters) && args.trainSamples.Some?
    requires args.rampupBatchSize.Some? && |args.rampupBatchSize.value| >= 3
    requires ParseInt(args.rampupBatchSize.value[2]).Some?
    requires var rampSamples := ParseInt(args.rampupBatchSize.value[2]).value;
             forall x: nat :: x > rampSamples ==> calculator.globalBatchSize(x) == args.globalBatchSize
    requires args.trainSamples.value >= RampPhase(calculator, 0, ParseInt(args.rampupBatchSize.value[2]).value).1
    ensures var n := UpdateTrainIters(args, calculator).value.trainIters.value;
            && n >= 0
            && Advance(calculator, 0, n) <= args.trainSamples.value < Advance(calculator, 0, n + 1)
  {
    var rampSamples := ParseInt(args.rampupBatchSize.value[2]).value;
    var (k, c) := RampPhase(calculator, 0, rampSamples);
    var g := args.globalBatchSize;
    var m := (args.trainSamples.value - c) / g;
    var n := UpdateTrainIters(args, calculator).value.trainIters.value;
    assert n == k + m;
    assert forall x: nat :: x >= c ==> calculator.globalBatchSize(x) == g;
    AdvanceConstant(calculator, c, m, g);
    AdvanceConstant(calculator, c, m + 1, g);
    AdvanceCompose(calculator, 0, k, m);
    AdvanceCompose(calculator, 0, k, m + 1);
  }

  // ----- get_optimizer_param_scheduler -----

  /** The arguments `get_optimizer_param_scheduler` reads. */
  datatype SchedulerArgs = SchedulerArgs(
    budget: SampleArgs,
    lrDecayIters: Option<int>,
    lrDecaySamples: Option<int>,
    lrWarmupFraction: Option<real>,
    lrWarmupIters: int,
    lrWarmupSamples: int)

  /** The step sizes handed to the scheduler, all counted in samples, and
      the iteration count the arguments hold afterwards. */
  datatype SchedulerSteps = SchedulerSteps(
    trainIters: Option<int>,
    lrDecaySteps: int,
    lrWarmupSteps: real,
    wdIncrSteps: int)

  function OrElse(x: Option<int>, default: int): int {
    if x.Some? then x.value else default
  }

  /** The warm-up length: a fraction of the decay length when one is given,
      otherwise an explicit step count. */
  function WarmupSteps(fraction: Option<real>, decaySteps: int, explicit: int): (w: real)
    ensures fraction.Some? && 0.0 <= fraction.value <= 1.0 && decaySteps >= 0 ==> 0.0 <= w <= decaySteps as real
    ensures fraction.None? ==> w == explicit as real
  {
    if fraction.Some? then
      var d := decaySteps as real;
      assert 0.0 <= fraction.value <= 1.0 && d >= 0.0 ==> 0.0 <= fraction.value * d <= d by {
        if 0.0 <= fraction.value <= 1.0 && d >= 0.0 {
          assert d - fraction.value * d == (1.0 - fraction.value) * d;
        }
      }
      fraction.value * d
    else explicit as real
  }

  /** `get_optimizer_param_scheduler`: iteration counts are scaled by the
      global batch size, sample counts are used as they are, and a run with
      neither budget is refused. */
  function OptimizerParamScheduler(args: SchedulerArgs, calculator: Calculator): (r: Result<SchedulerSteps>)
    ensures !Truthy(args.budget.trainIters) && !Truthy(args.budget.trainSamples) ==> r == Err(RuntimeError)
    ensures Truthy(args.budget.trainIters) ==> r.Ok? && r.value.trainIters == args.budget.trainIters
    ensures !Truthy(args.budget.trainIters) && Truthy(args.budget.trainSamples) ==>
              && (r.Err? <==> UpdateTrainIters(args.budget, calculator).Err?)
              && (r.Err? ==> r.error == UpdateTrainIters(args.budget, calculator).error)
              && (r.Ok? ==> r.value.trainIters == UpdateTrainIters(args.budget, calculator).value.trainIters
                            && r.value.wdIncrSteps == args.budget.trainSamples.value)
    // without an explicit decay length, the learning rate decays over the whole run
    ensures r.Ok? && Truthy(args.budget.trainIters) && args.lrDecayIters.None? ==>
              r.value.lrDecaySteps == r.value.wdIncrSteps
    ensures r.Ok? && !Truthy(args.budget.trainIters) && args.lrDecaySamples.None? ==>
              r.value.lrDecaySteps == r.value.wdIncrSteps
    // a warm-up fraction in [0, 1] keeps the warm-up inside the decay phase
    ensures r.Ok? && args.lrWarmupFraction.Some? && 0.0 <= args.lrWarmupFraction.value <= 1.0
            && r.value.lrDecaySteps >= 0 ==>
              0.0 <= r.value.lrWarmupSteps <= r.value.lrDecaySteps as real
  {
    var b := args.budget;
    if Truthy(b.trainIters) then
      var decaySteps := OrElse(args.lrDecayIters, b.trainIters.value) * b.globalBatchSize;
      Ok(SchedulerSteps(
        b.trainIters,
        decaySteps,
        WarmupSteps(args.lrWarmupFraction, decaySteps, args.lrWarmupIters * b.globalBatchSize),
        b.trainIters.value * b.globalBatchSize))
    else if Truthy(b.trainSamples) then
      var u :- UpdateTrainIters(b, calculator);
      var decaySteps := OrElse(args.lrDecaySamples, b.trainSamples.value);
      Ok(SchedulerSteps(
        u.trainIters,
        decaySteps,
        WarmupSteps(args.lrWarmupFraction, decaySteps, args.lrWarmupSamples),
        b.trainSamples.value))
    else Err(RuntimeError)
  }

  /** On an iteration budget with a constant batch size, every step count
      handed to the scheduler is the number of samples the run consumes in
      that many iterations: the weight-decay ramp spans the whole run, and
      decay and warm-up span their own iteration counts. */
  lemma IterationScheduleCountsSamples(args: SchedulerArgs, calculator: Calculator)
    requires Truthy(args.budget.trainIters) && args.budget.trainIters.value > 0
    requires args.lrDecayIters.Some? ==> args.lrDecayIters.value >= 0
    requires args.lrWarmupFraction.None? && args.lrWarmupIters >= 0
    requires forall x: nat :: calculator.globalBatchSize(x) == args.budget.globalBatchSize
    ensures var steps := OptimizerParamScheduler(args, calculator).value;
            && steps.wdIncrSteps == Advance(calculator, 0, args.budget.trainIters.value)
            && steps.lrDecaySteps == Advance(calculator, 0, OrElse(args.lrDecayIters, args.budget.trainIters.value))
            && steps.lrWarmupSteps == Advance(calculator, 0, args.lrWarmupIters) as real
  {
    var g := args.budget.globalBatchSize;
    AdvanceConstant(calculator, 0, args.budget.trainIters.value, g);
    AdvanceConstant(calculator, 0, OrElse(args.lrDecayIters, args.budget.trainIters.value), g);
    AdvanceConstant(calculator, 0, args.lrWarmupIters, g);
  }

  /** On a sample budget with a constant batch size and no ramp-up, the
      weight-decay ramp spans the sample budget, which the iterations the
      scheduler records consume but for less than one batch. */
  lemma SampleScheduleCoversRun(args: SchedulerArgs, calculator: Calculator)
    requires !Truthy(args.budget.trainIters) && Truthy(args.budget.trainSamples)
    requires args.budget.trainSamples.value >= 0 && args.budget.rampupBatchSize.None?
    requires forall x: nat :: calculator.globalBatchSize(x) == args.budget.globalBatchSize
    ensures OptimizerParamScheduler(args, calculator).Ok?
    ensures var steps := OptimizerParamScheduler(args, calculator).value;
            && steps.trainIters.Some? && steps.trainIters.value >= 0
            && Advance(calculator, 0, steps.trainIters.value) <= steps.wdIncrSteps
            && steps.wdIncrSteps < Advance(calculator, 0, steps.trainIters.value + 1)
  {
    ConstantBudgetCovered(args.budget, calculator);
  }

  /** With a constant batch size, a sample budget of `n` whole batches gives
      the scheduler the same step sizes as a budget of `n` iterations, when
      decay and warm-up are given in matching units. */
  lemma SampleAndIterationSchedulesAgree(g: Pos, n: int, decayIters: Option<int>, warmupIters: int,
                                         fraction: Option<real>, calculator: Calculator)
    requires n > 0
    ensures var bySamples := SchedulerArgs(SampleArgs(None, Some(n * g), None, g),
                                           None, if decayIters.Some? then Some(decayIters.value * g) else None,
                                           fraction, 0, warmupIters * g);
            var byIters := SchedulerArgs(SampleArgs(Some(n), None, None, g),
                                         decayIters, None, fraction, warmupIters, 0);
            && OptimizerParamScheduler(bySamples, calculator).Ok?
            && OptimizerParamScheduler(bySamples, calculator) == OptimizerParamScheduler(byIters, calculator)
  {
    var bySamples := SchedulerArgs(SampleArgs(None, Some(n * g), None, g),
                                   None, if decayIters.Some? then Some(decayIters.value * g) else None,
                                   fraction, 0, warmupIters * g);
    assert UpdateTrainIters(bySamples.budget, calculator) == Ok(ItersUpdate(Some(n), None));
  }
}
