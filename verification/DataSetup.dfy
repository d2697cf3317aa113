/**
  The data side of `megatron/training.py`: rebuilding the consumed-sample
  counters of a resumed run, the dataset target sizes and run flags of
  `build_train_valid_test_data_iterators`, and the sample accounting and
  loss averaging of `evaluate`.

  Datasets and loaders are represented only by how many there are in each
  group; the dataset provider and the loader builder are inputs.
 */
module DataSetup {
  import opened Results
  import opened Losses
  import opened Arith

  /** Python's `a // b` for a non-zero divisor of either sign. */
  function FloorDiv(a: int, b: int): (q: int)
    requires b != 0
    ensures b > 0 ==> q * b <= a < q * b + b
    ensures b < 0 ==> q * b >= a > q * b + b
  {
    if b > 0 then a / b else (-a) / (-b)
  }

  /** The arguments the data setup reads. */
  datatype DataArgs = DataArgs(
    iteration: int,
    consumedTrainSamples: int,
    consumedValidSamples: int,
    trainIters: int,
    trainSamples: Option<int>,
    globalBatchSize: Pos,
    evalInterval: int,
    evalIters: int,
    dataloaderType: string)

  /** The consumed-sample counters after resuming. */
  datatype Counters = Counters(consumedTrain: int, consumedValid: int)

  /** The backward-compatibility block: a checkpoint from iteration-based
      training that did not record sample counts gets them rebuilt,
      assuming the batch size was constant. */
  function ReconstructCounters(a: DataArgs): (r: Result<Counters>)
    ensures a.iteration > 0 && a.consumedTrainSamples == 0 && a.trainSamples.Some? ==> r.Err? && r.error.AssertionError?
    ensures r.Ok? ==>
              r.value.consumedTrain == (if a.iteration > 0 && a.consumedTrainSamples == 0
                                        then a.iteration * a.globalBatchSize
                                        else a.consumedTrainSamples)
    ensures r.Ok? && a.iteration > 0 && a.consumedValidSamples == 0 && a.trainSamples.None? ==>
              a.evalInterval != 0
              && r.value.consumedValid == FloorDiv(a.iteration, a.evalInterval) * a.evalIters * a.globalBatchSize
    ensures r.Ok? && !(a.iteration > 0 && a.consumedValidSamples == 0 && a.trainSamples.None?) ==>
              r.value.consumedValid == a.consumedValidSamples
    ensures r.Err? ==>
              (r.error.AssertionError? && a.iteration > 0 && a.consumedTrainSamples == 0 && a.trainSamples.Some?)
              || (r.error == ZeroDivisionError && a.iteration > 0 && a.consumedValidSamples == 0
                  && a.trainSamples.None? && a.evalInterval == 0)
  {
    var consumedTrain :-
      if a.iteration > 0 && a.consumedTrainSamples == 0 then
        if a.trainSamples.Some? then Err(AssertionError("iteration-based training only"))
        else Ok(a.iteration * a.globalBatchSize)
      else Ok(a.consumedTrainSamples);
    var consumedValid :-
      if a.iteration > 0 && a.consumedValidSamples == 0 && a.trainSamples.None? then
        if a.evalInterval == 0 then Err(ZeroDivisionError)
        else Ok(FloorDiv(a.iteration, a.evalInterval) * a.evalIters * a.globalBatchSize)
      else Ok(a.consumedValidSamples);
    Ok(Counters(consumedTrain, consumedValid))
  }

  /** A counter rebuilt for an iteration-based run is the one an
      uninterrupted run with that batch size would have recorded: one batch
      per iteration, and `evalIters` batches at every evaluation point. */
  lemma ReconstructedCountersMatchRun(a: DataArgs)
    requires a.iteration > 0 && a.consumedTrainSamples == 0 && a.consumedValidSamples == 0
    requires a.trainSamples.None? && a.evalInterval > 0
    ensures ReconstructCounters(a).Ok?
    ensures ReconstructCounters(a).value.consumedTrain == a.iteration * a.globalBatchSize
    ensures ReconstructCounters(a).value.consumedValid
              == EvalPoints(a.iteration, a.evalInterval) * a.evalIters * a.globalBatchSize
  {
    EvalPointsCount(a.iteration, a.evalInterval);
  }

  /** How many of the iterations `1..n` are evaluation points, i.e.
      multiples of the evaluation interval. */
  function EvalPoints(n: nat, interval: Pos): nat {
    if n == 0 then 0 else EvalPoints(n - 1, interval) + (if n % interval == 0 then 1 else 0)
  }

  lemma DivStep(n: nat, m: Pos)
    requires n > 0
    ensures n / m == (n - 1) / m + (if n % m == 0 then 1 else 0)
  {
    var q := (n - 1) / m;
    var r := (n - 1) % m;
    assert n - 1 == q * m + r && 0 <= r < m;
    if r + 1 < m {
      assert n == q * m + (r + 1);
      DivUnique(n, m, q, r + 1);
    } else {
      assert n == (q + 1) * m + 0;
      DivUnique(n, m, q + 1, 0);
    }
  }

  /** The number of evaluation points among `1..n` is `n // interval`. */
  lemma {:induction false} EvalPointsCount(n: nat, interval: Pos)
    ensures EvalPoints(n, interval) == n / interval
    decreases n
  {
    if n > 0 {
      EvalPointsCount(n - 1, interval);
      DivStep(n, interval);
    }
  }

  /** The `[train, validation, test]` sample counts asked of the dataset
      provider: the sample budget (or iterations times batch size), enough
      validation batches for every evaluation point plus one more, and one
      evaluation's worth of test batches. */
  function TargetSizes(a: DataArgs): (r: Result<seq<int>>)
    ensures r.Err? <==> a.evalInterval == 0
    ensures r.Err? ==> r.error == ZeroDivisionError
    ensures r.Ok? ==>
              && |r.value| == 3
              && r.value[0] == (if Truthy(a.trainSamples) then a.trainSamples.value else a.trainIters * a.globalBatchSize)
              && r.value[1] == (FloorDiv(a.trainIters, a.evalInterval) + 1) * a.evalIters * a.globalBatchSize
              && r.value[2] == a.evalIters * a.globalBatchSize
  {
    if a.evalInterval == 0 then Err(ZeroDivisionError)
    else
      var trainSamples := if Truthy(a.trainSamples) then a.trainSamples.value else a.trainIters * a.globalBatchSize;
      var evalIters := (FloorDiv(a.trainIters, a.evalInterval) + 1) * a.evalIters;
      Ok([trainSamples, evalIters * a.globalBatchSize, a.evalIters * a.globalBatchSize])
  }

  /** The validation target holds one evaluation's batches for every
      evaluation point of the run and one more for the final validation. */
  lemma ValidationTargetCoversRun(a: DataArgs)
    requires a.evalInterval > 0 && a.trainIters >= 0
    ensures TargetSizes(a).Ok?
    ensures TargetSizes(a).value[1]
              == (EvalPoints(a.trainIters, a.evalInterval) + 1) * (a.evalIters * a.globalBatchSize)
  {
    EvalPointsCount(a.trainIters, a.evalInterval);
    var e := EvalPoints(a.trainIters, a.evalInterval) + 1;
    assert e * a.evalIters * a.globalBatchSize == e * (a.evalIters * a.globalBatchSize);
  }

  /** What the dataset provider returned, and whether the loader builder made
      a training loader. Each group is the number of datasets in it after a
      single dataset is wrapped in a list; `None` is a group the provider
      left as `None`. */
  datatype Provided = Provided(train: Option<nat>, valid: Option<nat>, test: Option<nat>, trainLoaderBuilt: bool)

  /** The outcome of the data setup on the source rank of a tensor-parallel
      group; the broadcast gives every rank of the group the same flags. */
  datatype DataSetupOutcome = DataSetupOutcome(
    counters: Counters,
    targetSizes: seq<int>,
    validOffsets: seq<int>,   // the consumed count each validation loader starts from
    testLoaders: nat,
    doTrain: bool,
    numValid: nat,
    numTest: nat,
    doValid: bool,
    doTest: bool)

  /** The start offset of each of `n` validation loaders: validation samples
      are counted over all validation datasets together. */
  function ValidOffsets(consumedValid: int, n: nat): (r: seq<int>)
    ensures |r| == n
    ensures forall i :: 0 <= i < n ==> r[i] * n <= consumedValid < r[i] * n + n
  {
    if n == 0 then []
    else
      var q := FloorDiv(consumedValid, n);
      assert q * n <= consumedValid < q * n + n;
      seq(n, i requires 0 <= i < n => q)
  }

  /** After `evaluations` evaluations of each of `n` validation datasets, every
      loader resumes just past the batches it served. */
  lemma ValidOffsetsAfterEvaluations(n: nat, evaluations: nat, perEvaluation: nat)
    requires n > 0
    ensures forall i :: 0 <= i < n ==> ValidOffsets(n * evaluations * perEvaluation, n)[i] == evaluations * perEvaluation
  {
    var offsets := ValidOffsets(n * evaluations * perEvaluation, n);
    var each := evaluations * perEvaluation;
    assert n * evaluations * perEvaluation == each * n + 0;
    DivUnique(n * evaluations * perEvaluation, n, each, 0);
    assert FloorDiv(n * evaluations * perEvaluation, n) == each;
  }

  /** `build_train_valid_test_data_iterators` up to the broadcast flags and the
      loader type check. */
  function BuildDataSetup(a: DataArgs, p: Provided): (r: Result<DataSetupOutcome>)
    ensures ReconstructCounters(a).Err? ==> r == Err(ReconstructCounters(a).error)
    ensures ReconstructCounters(a).Ok? && a.evalInterval == 0 ==> r == Err(ZeroDivisionError)
    ensures r.Err? && r.error == TypeError <==>
              ReconstructCounters(a).Ok? && a.evalInterval != 0 && p.train.None?
    ensures r.Ok? <==>
              && ReconstructCounters(a).Ok? && a.evalInterval != 0
              && p.train == Some(1)
              && (a.dataloaderType == "single" || a.dataloaderType == "cyclic")
    ensures r.Ok? ==>
              var o := r.value;
              && o.counters == ReconstructCounters(a).value
              && o.targetSizes == TargetSizes(a).value
              && (o.doTrain <==> p.trainLoaderBuilt && a.trainIters > 0)
              && o.numValid == (if a.evalIters > 0 && p.valid.Some? then p.valid.value else 0)
              && o.numTest == (if a.evalIters > 0 && p.test.Some? then p.test.value else 0)
              && (o.doValid <==> o.numValid > 0)
              && (o.doTest <==> o.numTest > 0)
              && |o.validOffsets| == (if p.valid.Some? then p.valid.value else 0)
              && forall i :: 0 <= i < |o.validOffsets| ==>
                   o.validOffsets[i] * |o.validOffsets| <= o.counters.consumedValid
                   < o.validOffsets[i] * |o.validOffsets| + |o.validOffsets|
  {
    var counters :- ReconstructCounters(a);
    var sizes :- TargetSizes(a);
    match p.train
    case None => Err(TypeError)
    case Some(numTrain) =>
      if numTrain != 1 then Err(AssertionError("one training dataset group"))
      else
        var validLoaders := if p.valid.Some? then p.valid.value else 0;
        var testLoaders := if p.test.Some? then p.test.value else 0;
        var doTrain := p.trainLoaderBuilt && a.trainIters > 0;
        var numValid := if a.evalIters > 0 then validLoaders else 0;
        var numTest := if a.evalIters > 0 then testLoaders else 0;
        if !(a.dataloaderType == "single" || a.dataloaderType == "cyclic") then
          Err(AssertionError("dataloader type"))
        else
          Ok(DataSetupOutcome(counters, sizes, ValidOffsets(counters.consumedValid, validLoaders),
                              testLoaders, doTrain, numValid, numTest, numValid > 0, numTest > 0))
  }

  // ----- evaluate -----

  /** The validation samples one `evaluate` call consumes: one global batch
      per forward pass, and no pass at all for a non-positive `evalIters`. */
  function EvalSamples(evalIters: int, batch: Pos): (n: nat)
    ensures evalIters <= 0 <==> n == 0
    ensures evalIters > 0 ==> n == evalIters * batch
  {
    if evalIters > 0 then evalIters * batch else 0
  }

  /** The loss dictionaries of microbatches `0..n` of the evaluation, the
      forward passes of iterations `0..n` laid end to end. */
  function Outputs(forward: nat -> seq<LossDict>, n: nat): seq<LossDict> {
    if n == 0 then [] else Outputs(forward, n - 1) + forward(n - 1)
  }

  lemma AccumulateAppend(prefix: seq<LossDict>, ds: seq<LossDict>, j: nat)
    requires j < |ds|
    ensures AccumulateAll(prefix + ds[..j + 1]) == Accumulate(AccumulateAll(prefix + ds[..j]), ds[j])
  {
    var s := prefix + ds[..j + 1];
    assert s[..|s| - 1] == prefix + ds[..j];
    assert s[|s| - 1] == ds[j];
  }

  /** The inner loop of one evaluation pass on the last stage: add every
      microbatch's dictionary into the totals, one after the other. */
  method AccumulatePass(totals: LossDict, ghost before: seq<LossDict>, lossDicts: seq<LossDict>)
    returns (r: LossDict)
    requires totals == AccumulateAll(before)
    ensures r == AccumulateAll(before + lossDicts)
  {
    r := totals;
    var j := 0;
    assert before + lossDicts[..0] == before;
    while j < |lossDicts|
      invariant 0 <= j <= |lossDicts|
      invariant r == AccumulateAll(before + lossDicts[..j])
    {
      AccumulateAppend(before, lossDicts, j);
      r := Accumulate(r, lossDicts[j]);
      j := j + 1;
    }
    assert lossDicts[..|lossDicts|] == lossDicts;
  }

  /** `evaluate`: run `evalIters` forward passes, `forward(i)` being the loss
      dictionaries of the microbatches of pass `i`; on the last pipeline
      stage sum them key by key and divide by the number of microbatches
      evaluated; advance the validation counter by one global batch per pass. */
  method Evaluate(evalIters: int, lastStage: bool, forward: nat -> seq<LossDict>,
                  numMicrobatches: Pos, microBatchSize: Pos, dataParallelSize: Pos, consumedValid: int)
    returns (averages: LossDict, consumed: int)
    ensures consumed == consumedValid + EvalSamples(evalIters, dataParallelSize * microBatchSize * numMicrobatches)
    ensures !lastStage ==> averages == map[]
    ensures lastStage && evalIters > 0 ==>
              var all := Outputs(forward, evalIters);
              && averages.Keys == KeysOf(all)
              && forall k :: k in averages ==>
                   averages[k] == KeyTotal(all, k) / (evalIters * numMicrobatches) as real
    ensures lastStage && evalIters <= 0 ==> averages == map[]
  {
    var totals: LossDict := map[];
    var iteration := 0;
    consumed := consumedValid;
    var batch := dataParallelSize * microBatchSize * numMicrobatches;
    ghost var passes := 0;   // `iteration * batch`, kept as a sum
    while iteration < evalIters
      invariant 0 <= iteration <= (if evalIters > 0 then evalIters else 0)
      invariant passes == iteration * batch
      invariant consumed == consumedValid + passes
      invariant lastStage ==> totals == AccumulateAll(Outputs(forward, iteration))
      invariant !lastStage ==> totals == map[]
      decreases evalIters - iteration
    {
      var lossDicts := forward(iteration);
      if lastStage {
        totals := AccumulatePass(totals, Outputs(forward, iteration), lossDicts);
      }
      iteration := iteration + 1;
      consumed := consumed + batch;
      passes := passes + batch;
      assert passes == iteration * batch by {
        assert (iteration - 1) * batch + batch == iteration * batch;
      }
    }
    if evalIters > 0 {
      var divisor := (evalIters * numMicrobatches) as real;
      averages := map k | k in totals :: totals[k] / divisor;
      if lastStage {
        AccumulateAllTotals(Outputs(forward, evalIters));
      }
    } else {
      averages := totals;
    }
  }
}
