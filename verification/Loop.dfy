/**
  The main loop of `train` in `megatron/training.py`: one iteration is a
  training step, the consumed-sample count advancing, the running totals of
  `training_log`, an evaluation at the evaluation interval, and the
  checkpoint and exit decisions in their fixed order; the loop repeats until
  the iteration count reaches the budget or an exit is decided.

  Everything the world supplies for an iteration (the optimizer's verdict,
  the losses, the learning rate, whether a signal arrived, whether each rank
  is over the time limit) is an input indexed by the iteration number.
  Checkpoints are recorded as the iteration numbers they are written at.
 */
module Loop {
  import opened Results
  import opened Losses
  import opened Budget
  import opened Step
  import opened Metrics
  import opened DataSetup

  /** The arguments the loop reads. An interval or limit of `0` stands for
      one that is not set. */
  datatype TrainConfig = TrainConfig(
    trainIters: int,
    microBatchSize: Pos,
    dataParallelSize: Pos,
    logInterval: Pos,
    evalInterval: int,
    doValid: bool,
    numValid: nat,          // number of validation iterators
    evalIters: int,
    exitSignalHandler: bool,
    save: bool,             // a checkpoint directory is set
    saveInterval: int,
    exitDurationInMins: int,
    exitInterval: int)

  /** What the world supplies for one iteration. */
  datatype IterationInput = IterationInput(
    optimizer: OptimizerStep,
    lastStage: bool,
    losses: seq<LossDict>,     // per-microbatch losses, on the last stage
    learningRate: real,
    signalReceived: bool,
    overdue: seq<bool>)        // per rank: training time exceeds the limit

  /** The loop state: the iteration counter and the counters in `args`, the
      scheduler's step count, the running totals, the memory-report flag
      and the checkpoints written so far. */
  datatype TrainState = TrainState(
    iteration: nat,
    consumedTrain: nat,
    consumedValid: int,
    schedulerSteps: int,
    totals: Totals,
    reportMemoryFlag: bool,
    checkpoints: seq<nat>)

  datatype ExitReason = SignalExit | DurationExit | IntervalExit

  /** The state after an iteration, and the exit it decided on, if any. */
  datatype IterationResult = IterationResult(state: TrainState, exit: Option<ExitReason>)

  /** `all_reduce` with `MAX` over one value per rank. */
  function AllReduceMax(xs: seq<int>): (m: int)
    ensures forall i :: 0 <= i < |xs| ==> xs[i] <= m
    ensures |xs| > 0 ==> exists i :: 0 <= i < |xs| && xs[i] == m
    ensures |xs| == 0 ==> m == 0
  {
    if |xs| == 0 then 0
    else if |xs| == 1 then xs[0]
    else
      var m := AllReduceMax(xs[1..]);
      assert forall i :: 1 <= i < |xs| ==> xs[i] == xs[1..][i - 1];
      if xs[0] >= m then xs[0] else m
  }

  /** The duration check: every rank contributes `train_time > limit` as
      0 or 1 and all ranks act on the maximum. */
  predicate DurationDone(overdue: seq<bool>) {
    AllReduceMax(seq(|overdue|, i requires 0 <= i < |overdue| => if overdue[i] then 1 else 0)) != 0
  }

  /** Training stops for time as soon as any one rank is over the limit, and
      then on every rank alike. */
  lemma DurationDoneIffAnyRank(overdue: seq<bool>)
    ensures DurationDone(overdue) <==> exists i :: 0 <= i < |overdue| && overdue[i]
  {
    var flags := seq(|overdue|, i requires 0 <= i < |overdue| => if overdue[i] then 1 else 0);
    if exists i :: 0 <= i < |overdue| && overdue[i] {
      var i :| 0 <= i < |overdue| && overdue[i];
      assert flags[i] == 1;
    } else {
      assert forall i :: 0 <= i < |flags| ==> flags[i] == 0;
    }
  }

  /** The samples the iteration starting at `consumed` takes. */
  function Batch(cfg: TrainConfig, calculator: Calculator, consumed: nat): Pos {
    SamplesPerIteration(calculator.numMicrobatches(consumed), cfg.microBatchSize, cfg.dataParallelSize)
  }

  /** `x % interval == 0` for a set interval; the test agrees with Python's
      for divisors of either sign. */
  predicate Due(interval: int, iteration: int) {
    interval != 0 && iteration % interval == 0
  }

  predicate SaveDue(cfg: TrainConfig, iteration: int) {
    cfg.save && Due(cfg.saveInterval, iteration)
  }

  /** The exit an iteration decides on, in the order the loop checks them:
      a received signal, the time limit, then the exit interval. */
  function ExitAfter(cfg: TrainConfig, iteration: int, input: IterationInput): Option<ExitReason> {
    if cfg.exitSignalHandler && input.signalReceived then Some(SignalExit)
    else if cfg.exitDurationInMins != 0 && DurationDone(input.overdue) then Some(DurationExit)
    else if Due(cfg.exitInterval, iteration) then Some(IntervalExit)
    else None
  }

  /** The checkpoint and exit block at the bottom of the loop body, for the
      state `s` the iteration has reached: a received signal saves and exits;
      the save interval saves; the time limit and the exit interval exit,
      saving first unless the save interval just did. */
  function CheckpointAndExit(cfg: TrainConfig, s: TrainState, input: IterationInput): (r: IterationResult)
    ensures r.exit == ExitAfter(cfg, s.iteration, input)
    ensures r.state.(checkpoints := s.checkpoints) == s
    ensures s.checkpoints <= r.state.checkpoints
    ensures |r.state.checkpoints| == |s.checkpoints| + 1 <==> r.exit.Some? || SaveDue(cfg, s.iteration)
    ensures |r.state.checkpoints| != |s.checkpoints| + 1 ==> r.state.checkpoints == s.checkpoints
    ensures |r.state.checkpoints| == |s.checkpoints| + 1 ==> r.state.checkpoints[|s.checkpoints|] == s.iteration
  {
    var iteration := s.iteration;
    if cfg.exitSignalHandler && input.signalReceived then
      IterationResult(s.(checkpoints := s.checkpoints + [iteration]), Some(SignalExit))
    else
      var savedCheckpoint := SaveDue(cfg, iteration);
      var s1 := if savedCheckpoint then s.(checkpoints := s.checkpoints + [iteration]) else s;
      // an exit writes a checkpoint unless this iteration already wrote one
      var s2 := if savedCheckpoint then s1 else s1.(checkpoints := s1.checkpoints + [iteration]);
      if cfg.exitDurationInMins != 0 && DurationDone(input.overdue) then IterationResult(s2, Some(DurationExit))
      else if Due(cfg.exitInterval, iteration) then IterationResult(s2, Some(IntervalExit))
      else IterationResult(s1, None)
  }

  /** The loop body up to the checkpoint block: the training step, the
      sample counter, the log totals and the evaluation. */
  function Progress(cfg: TrainConfig, calculator: Calculator, nonFinite: real -> bool,
                    st: TrainState, input: IterationInput): (r: Result<TrainState>)
    ensures r.Ok? <==> !input.lastStage || KeysShared(input.losses)
    ensures r.Ok? ==>
              var s := r.value;
              var batch := Batch(cfg, calculator, st.consumedTrain);
              && s.iteration == st.iteration + 1
              && s.consumedTrain == st.consumedTrain + batch
              && s.schedulerSteps == st.schedulerSteps + (if input.optimizer.updateSuccessful then batch else 0)
              && s.consumedValid == st.consumedValid
                   + (if Due(cfg.evalInterval, s.iteration) && cfg.doValid
                      then cfg.numValid * EvalSamples(cfg.evalIters, batch) else 0)
              && s.checkpoints == st.checkpoints
              && (s.iteration % cfg.logInterval == 0 ==> s.totals.advanced == 0 && s.totals.skipped == 0 && s.totals.nan == 0)
              && (s.iteration % cfg.logInterval != 0 ==>
                    s.totals.advanced + s.totals.skipped >= st.totals.advanced + st.totals.skipped + 1)
  {
    var nmb := calculator.numMicrobatches(st.consumedTrain);
    var step :- TrainStep(cfg.microBatchSize, cfg.dataParallelSize, nmb, st.schedulerSteps,
                          input.optimizer, input.lastStage, input.losses);
    var iteration := st.iteration + 1;
    var batch := cfg.dataParallelSize * cfg.microBatchSize * nmb;
    var log := TrainingLog(st.totals, StepLog(step.lossDict, step.skippedIter), iteration, cfg.logInterval,
                           st.reportMemoryFlag, input.learningRate, nonFinite);
    var consumedValid :=
      if Due(cfg.evalInterval, iteration) && cfg.doValid
      then st.consumedValid + cfg.numValid * EvalSamples(cfg.evalIters, batch)
      else st.consumedValid;
    Ok(TrainState(iteration, st.consumedTrain + batch, consumedValid, step.schedulerSteps,
                  log.totals, log.reportMemoryFlag, st.checkpoints))
  }

  /** One pass through the body of the training loop. */
  function Iteration(cfg: TrainConfig, calculator: Calculator, nonFinite: real -> bool,
                     st: TrainState, input: IterationInput): (r: Result<IterationResult>)
    ensures r.Ok? <==> !input.lastStage || KeysShared(input.losses)
    ensures r.Ok? ==>
              var s := r.value.state;
              var batch := Batch(cfg, calculator, st.consumedTrain);
              && s.iteration == st.iteration + 1
              && s.consumedTrain == st.consumedTrain + batch
              && s.schedulerSteps == st.schedulerSteps + (if input.optimizer.updateSuccessful then batch else 0)
              && r.value.exit == ExitAfter(cfg, s.iteration, input)
              && st.checkpoints <= s.checkpoints
              && (|s.checkpoints| == |st.checkpoints| + 1 <==> r.value.exit.Some? || SaveDue(cfg, s.iteration))
              && (|s.checkpoints| != |st.checkpoints| + 1 ==> s.checkpoints == st.checkpoints)
              && (|s.checkpoints| == |st.checkpoints| + 1 ==> s.checkpoints[|st.checkpoints|] == s.iteration)
  {
    var s :- Progress(cfg, calculator, nonFinite, st, input);
    Ok(CheckpointAndExit(cfg, s, input))
  }

  /** The consumed-sample count after `k` iterations from `c`, each taking
      the samples of its own microbatch count. */
  function ConsumedAfter(cfg: TrainConfig, calculator: Calculator, c: nat, k: nat): nat {
    if k == 0 then c
    else ConsumedAfter(cfg, calculator, c, k - 1) + Batch(cfg, calculator, ConsumedAfter(cfg, calculator, c, k - 1))
  }

  /** The scheduler steps after `k` iterations from iteration `it` and count
      `c`: only the iterations whose update succeeded count. */
  function ScheduledAfter(cfg: TrainConfig, calculator: Calculator, env: nat -> IterationInput,
                          it: nat, c: nat, k: nat): nat {
    if k == 0 then 0
    else ScheduledAfter(cfg, calculator, env, it, c, k - 1)
         + (if env(it + k - 1).optimizer.updateSuccessful then Batch(cfg, calculator, ConsumedAfter(cfg, calculator, c, k - 1)) else 0)
  }

  predicate Increasing(xs: seq<nat>) {
    forall i, j :: 0 <= i < j < |xs| ==> xs[i] < xs[j]
  }

  function Last(xs: seq<nat>): nat
    requires |xs| > 0
  {
    xs[|xs| - 1]
  }

  /** What holds of a state `st` reached from `start` by iterations of the
      loop: the counters are those of `st.iteration - start.iteration`
      iterations, and the checkpoints added since are of distinct, increasing
      iterations in between. */
  predicate Reached(cfg: TrainConfig, calculator: Calculator, env: nat -> IterationInput,
                    start: TrainState, st: TrainState) {
    var k := st.iteration - start.iteration;
    var n := |start.checkpoints|;
    && st.iteration >= start.iteration
    && st.consumedTrain == ConsumedAfter(cfg, calculator, start.consumedTrain, k)
    && st.schedulerSteps == start.schedulerSteps + ScheduledAfter(cfg, calculator, env, start.iteration, start.consumedTrain, k)
    && start.checkpoints <= st.checkpoints
    && Increasing(st.checkpoints[n..])
    && (forall i :: n <= i < |st.checkpoints| ==> start.iteration < st.checkpoints[i] <= st.iteration)
  }

  /** One more iteration keeps `Reached`. */
  lemma IterationReaches(cfg: TrainConfig, calculator: Calculator, env: nat -> IterationInput,
                         start: TrainState, st: TrainState, next: TrainState)
    requires Reached(cfg, calculator, env, start, st)
    requires next.iteration == st.iteration + 1
    requires next.consumedTrain == st.consumedTrain + Batch(cfg, calculator, st.consumedTrain)
    requires next.schedulerSteps == st.schedulerSteps
               + (if env(st.iteration).optimizer.updateSuccessful then Batch(cfg, calculator, st.consumedTrain) else 0)
    requires next.checkpoints == st.checkpoints || next.checkpoints == st.checkpoints + [next.iteration]
    ensures Reached(cfg, calculator, env, start, next)
  {
    var k := st.iteration - start.iteration;
    var n := |start.checkpoints|;
    assert next.iteration - start.iteration == k + 1;
    assert start.iteration + (k + 1) - 1 == st.iteration;
    assert next.consumedTrain == ConsumedAfter(cfg, calculator, start.consumedTrain, k + 1);
    assert next.schedulerSteps == start.schedulerSteps + ScheduledAfter(cfg, calculator, env, start.iteration, start.consumedTrain, k + 1);
    if next.checkpoints != st.checkpoints {
      assert next.checkpoints[n..] == st.checkpoints[n..] + [next.iteration];
    }
  }

  /** The training loop, run from `start` until the iteration budget is
      reached or an exit is decided; `env(i)` is the input of the iteration
      that starts at iteration count `i`. The loop ends at the budget exactly
      unless an exit comes first; every exit leaves a checkpoint of the
      iteration it exits at; no iteration is checkpointed twice; skipped
      iterations consume samples like any other but do not step the
      scheduler. */
  method Train(cfg: TrainConfig, calculator: Calculator, nonFinite: real -> bool,
               env: nat -> IterationInput, start: TrainState)
    returns (r: Result<IterationResult>)
    ensures r.Ok? ==> Reached(cfg, calculator, env, start, r.value.state)
    ensures r.Ok? && r.value.exit.None? ==>
              r.value.state.iteration == (if start.iteration >= cfg.trainIters then start.iteration else cfg.trainIters)
    ensures r.Ok? && r.value.exit.Some? ==>
              var s := r.value.state;
              start.iteration < s.iteration <= cfg.trainIters && |s.checkpoints| > 0 && Last(s.checkpoints) == s.iteration
    ensures r.Err? ==> exists i: nat :: i >= start.iteration && env(i).lastStage && !KeysShared(env(i).losses)
  {
    var st := start;
    assert st.checkpoints[|start.checkpoints|..] == [];
    while st.iteration < cfg.trainIters
      invariant Reached(cfg, calculator, env, start, st)
      invariant st.iteration <= (if start.iteration >= cfg.trainIters then start.iteration else cfg.trainIters)
      decreases cfg.trainIters - st.iteration
    {
      var step := Iteration(cfg, calculator, nonFinite, st, env(st.iteration));
      if step.Err? {
        assert env(st.iteration).lastStage && !KeysShared(env(st.iteration).losses);
        return Err(step.error);
      }
      var next := step.value.state;
      assert next.checkpoints == st.checkpoints || next.checkpoints == st.checkpoints + [next.iteration];
      IterationReaches(cfg, calculator, env, start, st, next);
      if step.value.exit.Some? {
        return step;
      }
      st := step.value.state;
    }
    return Ok(IterationResult(st, None));
  }

  /** With a calculator consistent with the parallel layout, the live loop
      consumes samples exactly as `update_train_iters` simulated it would:
      step for step, skipped iterations included. */
  lemma {:induction false} LoopFollowsSimulation(cfg: TrainConfig, calculator: Calculator, c: nat, k: nat)
    requires Consistent(calculator, cfg.microBatchSize, cfg.dataParallelSize)
    ensures ConsumedAfter(cfg, calculator, c, k) == Advance(calculator, c, k)
    decreases k
  {
    if k > 0 {
      LoopFollowsSimulation(cfg, calculator, c, k - 1);
      AdvanceStep(calculator, c, k - 1);
    }
  }

  /** The samples of the iterations whose update was skipped. */
  function SkippedSamples(cfg: TrainConfig, calculator: Calculator, env: nat -> IterationInput,
                          it: nat, c: nat, k: nat): nat {
    if k == 0 then 0
    else SkippedSamples(cfg, calculator, env, it, c, k - 1)
         + (if env(it + k - 1).optimizer.updateSuccessful then 0 else Batch(cfg, calculator, ConsumedAfter(cfg, calculator, c, k - 1)))
  }

  /** The scheduler trails the consumed-sample count by exactly the samples
      of the skipped iterations, so it is never ahead, and it is level with
      it exactly when no update in the window was skipped. */
  lemma {:induction false} SchedulerTrailsConsumed(cfg: TrainConfig, calculator: Calculator,
                                                   env: nat -> IterationInput, it: nat, c: nat, k: nat)
    ensures ScheduledAfter(cfg, calculator, env, it, c, k) + SkippedSamples(cfg, calculator, env, it, c, k)
            == ConsumedAfter(cfg, calculator, c, k) - c
    ensures ScheduledAfter(cfg, calculator, env, it, c, k) == ConsumedAfter(cfg, calculator, c, k) - c
            <==> forall j :: it <= j < it + k ==> env(j).optimizer.updateSuccessful
    decreases k
  {
    if k > 0 {
      SchedulerTrailsConsumed(cfg, calculator, env, it, c, k - 1);
      if !env(it + k - 1).optimizer.updateSuccessful {
        SkippedGrows(cfg, calculator, env, it, c, k - 1);
      }
    }
  }

  lemma SkippedGrows(cfg: TrainConfig, calculator: Calculator, env: nat -> IterationInput, it: nat, c: nat, k: nat)
    requires !env(it + k).optimizer.updateSuccessful
    ensures SkippedSamples(cfg, calculator, env, it, c, k + 1) > 0
  {
  }
}
