/**
  The running totals of `training_log` in `megatron/training.py`: counts of
  advanced, skipped and non-finite iterations and the summed losses since
  the last log line, and what happens to them at a logging iteration.
  Timers, TensorBoard and Weights & Biases output are outside the model.

  Losses are exact reals, which cannot be infinite or NaN; whether a loss
  value counts as non-finite is therefore an input predicate.
 */
module Metrics {
  import opened Results
  import opened Losses

  /** The totals kept between log lines. */
  datatype Totals = Totals(advanced: nat, skipped: nat, nan: nat, losses: LossDict)

  /** The totals at the start of training. */
  const NoTotals := Totals(0, 0, 0, map[])

  /** One iteration's contribution: the averaged losses and the skip flag
      `train_step` returned. */
  datatype StepLog = StepLog(lossDict: LossDict, skippedIter: nat)

  /** Some loss of a skipped iteration is non-finite. */
  predicate GotNan(lossDict: LossDict, skippedIter: nat, nonFinite: real -> bool) {
    skippedIter != 0 && exists k :: k in lossDict && nonFinite(lossDict[k])
  }

  /** The bookkeeping at the top of `training_log`: an iteration either
      advances, adding its losses key by key, or is skipped, its losses only
      inspected for non-finite values. */
  function Record(t: Totals, step: StepLog, nonFinite: real -> bool): (r: Totals)
    ensures r.advanced + r.skipped >= 1
    ensures r.advanced == t.advanced + (if step.skippedIter == 0 then 1 else 0)
    ensures r.skipped == t.skipped + step.skippedIter
    ensures r.nan == t.nan + (if GotNan(step.lossDict, step.skippedIter, nonFinite) then 1 else 0)
    ensures step.skippedIter != 0 ==> r.losses == t.losses
    ensures step.skippedIter == 0 ==> r.losses.Keys == t.losses.Keys + step.lossDict.Keys
    ensures step.skippedIter == 0 ==> forall k :: k in r.losses ==> r.losses[k] == Get(t.losses, k) + Get(step.lossDict, k)
  {
    Totals(
      if step.skippedIter == 0 then t.advanced + 1 else t.advanced,
      t.skipped + step.skippedIter,
      t.nan + (if GotNan(step.lossDict, step.skippedIter, nonFinite) then 1 else 0),
      if step.skippedIter == 0 then Accumulate(t.losses, step.lossDict) else t.losses)
  }

  /** What the log line reports about the window since the previous one. */
  datatype LogLine = LogLine(averages: LossDict, skipped: nat, nan: nat, iterations: nat)

  /** The totals after `training_log`, the log line if one was written, and
      the memory-report flag `training_log` returns. */
  datatype LogOutcome = LogOutcome(totals: Totals, line: Option<LogLine>, reportMemoryFlag: bool)

  function MaxOne(n: nat): nat {
    if n >= 1 then n else 1
  }

  /** `training_log`: record the iteration; at every `logInterval`-th
      iteration report each loss averaged over the advanced iterations of
      the window (only the positive averages are printed), then zero the
      losses, keeping their keys, and the counters. Memory is reported once,
      at the first log line with a positive learning rate. */
  function TrainingLog(t: Totals, step: StepLog, iteration: int, logInterval: Pos,
                       reportMemoryFlag: bool, learningRate: real, nonFinite: real -> bool): (r: LogOutcome)
    ensures var recorded := Record(t, step, nonFinite);
            iteration % logInterval != 0 ==> r == LogOutcome(recorded, None, reportMemoryFlag)
    ensures var recorded := Record(t, step, nonFinite);
            iteration % logInterval == 0 ==>
              && r.line.Some?
              && r.line.value.skipped == recorded.skipped
              && r.line.value.nan == recorded.nan
              && r.line.value.iterations == recorded.advanced + recorded.skipped
              && r.line.value.averages.Keys <= recorded.losses.Keys
              && (forall k :: k in recorded.losses ==>
                    var avg := recorded.losses[k] / MaxOne(recorded.advanced) as real;
                    (k in r.line.value.averages <==> avg > 0.0)
                    && (k in r.line.value.averages ==> r.line.value.averages[k] == avg))
              && r.totals.advanced == 0 && r.totals.skipped == 0 && r.totals.nan == 0
              && r.totals.losses.Keys == recorded.losses.Keys
              && (forall k :: k in r.totals.losses ==> r.totals.losses[k] == 0.0)
              && (r.reportMemoryFlag <==> reportMemoryFlag && !(learningRate > 0.0))
  {
    var recorded := Record(t, step, nonFinite);
    if iteration % logInterval == 0 then
      var divisor := MaxOne(recorded.advanced) as real;
      var averages := map k | k in recorded.losses && recorded.losses[k] / divisor > 0.0 :: recorded.losses[k] / divisor;
      var line := LogLine(averages, recorded.skipped, recorded.nan, recorded.advanced + recorded.skipped);
      var cleared := Totals(0, 0, 0, map k | k in recorded.losses :: 0.0);
      LogOutcome(cleared, Some(line), if reportMemoryFlag && learningRate > 0.0 then false else reportMemoryFlag)
    else LogOutcome(recorded, None, reportMemoryFlag)
  }

  // ----- the totals over a window of iterations -----

  /** Recording a window of iterations one after the other. */
  function RecordAll(t: Totals, steps: seq<StepLog>, nonFinite: real -> bool): Totals {
    if |steps| == 0 then t else Record(RecordAll(t, steps[..|steps| - 1], nonFinite), steps[|steps| - 1], nonFinite)
  }

  function CountAdvanced(steps: seq<StepLog>): nat {
    if |steps| == 0 then 0 else CountAdvanced(steps[..|steps| - 1]) + (if steps[|steps| - 1].skippedIter == 0 then 1 else 0)
  }

  function SumSkipped(steps: seq<StepLog>): nat {
    if |steps| == 0 then 0 else SumSkipped(steps[..|steps| - 1]) + steps[|steps| - 1].skippedIter
  }

  function CountNan(steps: seq<StepLog>, nonFinite: real -> bool): nat {
    if |steps| == 0 then 0
    else CountNan(steps[..|steps| - 1], nonFinite)
         + (if GotNan(steps[|steps| - 1].lossDict, steps[|steps| - 1].skippedIter, nonFinite) then 1 else 0)
  }

  /** The loss dictionaries of the iterations that advanced, in order. */
  function Advanced(steps: seq<StepLog>): seq<LossDict> {
    if |steps| == 0 then []
    else Advanced(steps[..|steps| - 1]) + (if steps[|steps| - 1].skippedIter == 0 then [steps[|steps| - 1].lossDict] else [])
  }

  /** From empty totals, a window's counters count its advanced, skipped and
      non-finite iterations. */
  lemma {:induction false} WindowCounters(steps: seq<StepLog>, nonFinite: real -> bool)
    ensures var t := RecordAll(NoTotals, steps, nonFinite);
            && t.advanced == CountAdvanced(steps)
            && t.skipped == SumSkipped(steps)
            && t.nan == CountNan(steps, nonFinite)
    decreases |steps|
  {
    if |steps| > 0 {
      var front := steps[..|steps| - 1];
      WindowCounters(front, nonFinite);
      assert RecordAll(NoTotals, steps, nonFinite) == Record(RecordAll(NoTotals, front, nonFinite), steps[|steps| - 1], nonFinite);
    }
  }

  /** From empty totals, a window's losses are the key-by-key sums over the
      iterations that advanced: skipped iterations contribute no loss. */
  lemma {:induction false} WindowLosses(steps: seq<StepLog>, nonFinite: real -> bool)
    ensures RecordAll(NoTotals, steps, nonFinite).losses == AccumulateAll(Advanced(steps))
    decreases |steps|
  {
    if |steps| > 0 {
      var front := steps[..|steps| - 1];
      var last := steps[|steps| - 1];
      var before := RecordAll(NoTotals, front, nonFinite);
      WindowLosses(front, nonFinite);
      assert RecordAll(NoTotals, steps, nonFinite) == Record(before, last, nonFinite);
      if last.skippedIter == 0 {
        var adv := Advanced(front) + [last.lossDict];
        assert Advanced(steps) == adv;
        assert adv[..|adv| - 1] == Advanced(front);
        assert AccumulateAll(adv) == Accumulate(AccumulateAll(Advanced(front)), last.lossDict);
        assert Record(before, last, nonFinite).losses == Accumulate(before.losses, last.lossDict);
      } else {
        var empty: seq<LossDict> := [];
        assert Advanced(front) + empty == Advanced(front);
        assert Advanced(steps) == Advanced(front);
      }
    }
  }

  /** The averages a log line reports for a window that starts from empty
      totals: each loss's sum over the advanced iterations divided by their
      number. */
  lemma WindowAverages(steps: seq<StepLog>, iteration: int, logInterval: Pos, reportMemoryFlag: bool,
                       learningRate: real, nonFinite: real -> bool, k: string)
    requires |steps| > 0 && iteration % logInterval == 0
    requires k in TrainingLog(RecordAll(NoTotals, steps[..|steps| - 1], nonFinite), steps[|steps| - 1], iteration,
                              logInterval, reportMemoryFlag, learningRate, nonFinite).line.value.averages
    ensures TrainingLog(RecordAll(NoTotals, steps[..|steps| - 1], nonFinite), steps[|steps| - 1], iteration,
                        logInterval, reportMemoryFlag, learningRate, nonFinite).line.value.averages[k]
            == KeyTotal(Advanced(steps), k) / MaxOne(CountAdvanced(steps)) as real
  {
    WindowCounters(steps, nonFinite);
    WindowLosses(steps, nonFinite);
    AccumulateAllTotals(Advanced(steps));
  }
}
