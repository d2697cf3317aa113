/**
  `train_step` from `megatron/training.py`, after the forward and backward
  passes: whether the optimizer update counts, how far the learning-rate
  scheduler advances, and the per-microbatch losses averaged on the last
  pipeline stage. The forward-backward schedule and the optimizer are
  inputs: their outcome is given as data.
 */
module Step {
  import opened Results
  import opened Losses
  import opened Budget

  /** What `optimizer.step` returned. */
  datatype OptimizerStep = OptimizerStep(updateSuccessful: bool, gradNorm: Option<real>, numZerosInGrad: Option<real>)

  /** What `train_step` returns, together with the scheduler's step count
      after the call and whether the model parameters were gathered. */
  datatype StepOutcome = StepOutcome(
    lossDict: LossDict,
    skippedIter: nat,
    gradNorm: Option<real>,
    numZerosInGrad: Option<real>,
    paramsGathered: bool,
    schedulerSteps: int)

  /** Every microbatch's dictionary has every key of the first one. */
  predicate KeysShared(losses: seq<LossDict>) {
    |losses| > 0 && forall i, k :: 0 <= i < |losses| && k in losses[0] ==> k in losses[i]
  }

  /** The values of key `k` over the microbatches, a missing key read as zero. */
  function Column(losses: seq<LossDict>, k: string): (c: seq<real>)
    ensures |c| == |losses|
    ensures forall i :: 0 <= i < |losses| ==> c[i] == Get(losses[i], k)
  {
    seq(|losses|, i requires 0 <= i < |losses| => Get(losses[i], k))
  }

  /** The averaging block of `train_step`: for every key of the first
      microbatch's dictionary, the mean of that key over all microbatches. */
  function AverageLosses(losses: seq<LossDict>): (r: Result<LossDict>)
    ensures |losses| == 0 ==> r == Err(IndexError)
    ensures |losses| > 0 && !KeysShared(losses) ==> r == Err(KeyError)
    ensures r.Ok? <==> KeysShared(losses)
    ensures r.Ok? ==> r.value.Keys == losses[0].Keys
    ensures r.Ok? ==> forall k :: k in r.value ==> r.value[k] == Mean(Column(losses, k))
  {
    if |losses| == 0 then Err(IndexError)
    else if !KeysShared(losses) then Err(KeyError)
    else Ok(map k | k in losses[0] :: Mean(Column(losses, k)))
  }

  lemma {:induction false} SumColumn(losses: seq<LossDict>, k: string)
    ensures Sum(Column(losses, k)) == KeyTotal(losses, k)
    decreases |losses|
  {
    if |losses| > 0 {
      var front := losses[..|losses| - 1];
      SumColumn(front, k);
      assert Column(losses, k)[..|losses| - 1] == Column(front, k);
    }
  }

  /** An averaged loss is its key's total over the microbatches divided by
      the number of microbatches, and lies between the smallest and the
      largest microbatch value of that key. */
  lemma AveragedLossIsMean(losses: seq<LossDict>, k: string, lo: real, hi: real)
    requires AverageLosses(losses).Ok? && k in losses[0]
    requires forall i :: 0 <= i < |losses| ==> lo <= losses[i][k] <= hi
    ensures AverageLosses(losses).value[k] == KeyTotal(losses, k) / |losses| as real
    ensures lo <= AverageLosses(losses).value[k] <= hi
  {
    SumColumn(losses, k);
    MeanBounds(Column(losses, k), lo, hi);
  }

  /** The samples one iteration consumes: microbatches times microbatch size
      times data-parallel replicas. */
  function SamplesPerIteration(numMicrobatches: Pos, microBatchSize: Pos, dataParallelSize: Pos): Pos {
    numMicrobatches * microBatchSize * dataParallelSize
  }

  /** `train_step` from the optimizer update on: gather parameters and step
      the scheduler by one global batch of samples only after a successful
      update; report a skipped iteration otherwise. Only the last pipeline
      stage averages losses. */
  function TrainStep(microBatchSize: Pos, dataParallelSize: Pos, numMicrobatches: Pos, schedulerSteps: int,
                     opt: OptimizerStep, lastStage: bool, losses: seq<LossDict>): (r: Result<StepOutcome>)
    ensures r.Ok? <==> !lastStage || KeysShared(losses)
    ensures r.Err? ==> r.error == (if |losses| == 0 then IndexError else KeyError)
    ensures r.Ok? ==>
              && (r.value.skippedIter == 0 <==> opt.updateSuccessful)
              && r.value.skippedIter <= 1
              && (r.value.paramsGathered <==> opt.updateSuccessful)
              && r.value.schedulerSteps == schedulerSteps
                   + (if opt.updateSuccessful then SamplesPerIteration(numMicrobatches, microBatchSize, dataParallelSize) else 0)
              && r.value.gradNorm == opt.gradNorm
              && r.value.numZerosInGrad == opt.numZerosInGrad
    ensures r.Ok? && !lastStage ==> r.value.lossDict == map[]
    ensures r.Ok? && lastStage ==> r.value.lossDict == AverageLosses(losses).value
  {
    var steps := if opt.updateSuccessful
                 then schedulerSteps + numMicrobatches * microBatchSize * dataParallelSize
                 else schedulerSteps;
    var skipped := if opt.updateSuccessful then 0 else 1;
    var lossDict :- if lastStage then AverageLosses(losses) else Ok(map[]);
    Ok(StepOutcome(lossDict, skipped, opt.gradNorm, opt.numZerosInGrad, opt.updateSuccessful, steps))
  }

  /** With a calculator consistent with the parallel layout, a successful
      step advances the scheduler by exactly the calculator's global batch
      size: the scheduler counts samples, the unit of the step sizes it was
      built with. */
  lemma SchedulerCountsSamples(calculator: Calculator, consumed: nat, microBatchSize: Pos, dataParallelSize: Pos,
                               schedulerSteps: int, opt: OptimizerStep, lastStage: bool, losses: seq<LossDict>)
    requires Consistent(calculator, microBatchSize, dataParallelSize)
    requires TrainStep(microBatchSize, dataParallelSize, calculator.numMicrobatches(consumed),
                       schedulerSteps, opt, lastStage, losses).Ok?
    ensures var s := TrainStep(microBatchSize, dataParallelSize, calculator.numMicrobatches(consumed),
                               schedulerSteps, opt, lastStage, losses).value;
            s.schedulerSteps == schedulerSteps + (if opt.updateSuccessful then calculator.globalBatchSize(consumed) else 0)
  {
  }
}
