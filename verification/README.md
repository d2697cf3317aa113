# Megatron-LM training driver: bookkeeping and decisions

This project models the integer bookkeeping and decision logic of the
Megatron-LM training driver and its setup code, and proves properties of
the model. It covers:

- the training budget: `update_train_iters`, the learning-rate scheduler step
  sizes, the resumed consumed-sample counters, dataset target sizes and flags;
- one training step: the optimizer verdict, the scheduler increment and the
  per-microbatch loss averaging of `train_step`;
- the running counters of `training_log` and their reset at every log line;
- the training loop of `train`: the iteration transition, the evaluation
  accounting, the checkpoint and exit sequence (signal, save interval,
  duration, exit interval) and the loop bound;
- `evaluate`: validation-sample accounting and loss averaging;
- `get_model`: which pipeline ranks embed and compute outputs, and how the
  chunks are wrapped;
- `initialize.py`: the rank-dependent seed, device and local-rank choice,
  the fused-softmax constraint, the torch-version gate, the JIT warmup dtype
  and shapes, and the lazy and eager initialization paths;
- prompt batching and detokenization for text generation;
- reading the CUDA release from the `nvcc -V` banner and choosing the kernel
  extensions and compiler flags.

Losses are exact reals, and whether a value is non-finite is an input
predicate. The microbatch calculator is any pair of functions from the
consumed-sample count to a positive global batch size and microbatch count.
The model-parallel state (`mpu`), the optimizer, the tokenizer, the clock,
the signal handler and every collective are inputs: their answers are
passed in as data. Python errors are values of `Results.PyError` naming the
exception raised.

Modules, in dependency order:

| file | module | models |
|---|---|---|
| Results.dfy | `Results` | `Option`, `Result`, the raised Python exceptions, truthiness |
| Arith.dfy | `Arith` | uniqueness of Euclidean quotient and remainder |
| Text.dfy | `Text` | `str.split()`, `str.split(sep)`, `list.index`, `int(str)` |
| FusedKernels.dfy | `FusedKernels` | `megatron/fused_kernels/cuda/__init__.py` |
| Init.dfy | `Init` | `megatron/initialize.py` |
| Tokenization.dfy | `Tokenization` | `megatron/text_generation/tokenization.py` |
| Losses.dfy | `Losses` | loss dictionaries: key-by-key sums and means |
| Budget.dfy | `Budget` | `update_train_iters`, `get_optimizer_param_scheduler` |
| DataSetup.dfy | `DataSetup` | `build_train_valid_test_data_iterators`, `evaluate` |
| Step.dfy | `Step` | `train_step` after the forward and backward passes |
| Metrics.dfy | `Metrics` | the counters of `training_log` |
| Loop.dfy | `Loop` | the loop of `train` |
| Stages.dfy | `Stages` | `get_model` |

Two behaviours of the code differ from what a reader of the error messages
would expect, and the model follows the code:

- `_set_random_seed` formats its error message with the local `seed`, which
  is unassigned on that path. A missing or non-positive seed therefore
  raises `UnboundLocalError`, not the `ValueError` the code constructs.
- The non-finite check in `training_log` runs only on skipped iterations.
  A non-finite loss of an iteration that advanced is summed into the totals
  and never counted as a NaN iteration.

## Model

| member | source | states |
|---|---|---|
| Text.Words | megatron/fused_kernels/cuda/__init__.py:106 | `str.split()` yields non-empty runs free of whitespace that, concatenated, are the string with its whitespace removed |
| Text.WordsSkipGap | megatron/fused_kernels/cuda/__init__.py:106 | leading whitespace of any kind and length does not change the words |
| Text.WordsOfInterleave | megatron/fused_kernels/cuda/__init__.py:106 | words laid out with any non-empty whitespace runs between them and any whitespace around them split back into exactly those words: the words are the maximal non-whitespace runs |
| Text.WordsOfJoin | megatron/fused_kernels/cuda/__init__.py:106 | splitting a space-joined list of words gives back exactly those words |
| Text.SplitOn | megatron/fused_kernels/cuda/__init__.py:108 | `str.split(sep)` yields at least one piece, no piece holds the separator, and joining the pieces with it restores the string |
| Text.SplitOfJoin | megatron/initialize.py:317-318 | splitting undoes joining when no part holds the separator |
| Text.IndexOf | megatron/fused_kernels/cuda/__init__.py:107 | `list.index` finds the first occurrence, and fails exactly when the value is absent |
| Text.ParseShowInt | megatron/initialize.py:317-318 | `int` reads back what `str` writes, for every integer |
| FusedKernels.BareMetalVersion | megatron/fused_kernels/cuda/__init__.py:103-112 | no `release` word raises ValueError; otherwise the version parses exactly when a token follows it and has a non-empty minor part (IndexError otherwise); major is the token up to its first `.`, minor the next character, and the banner is returned unchanged |
| FusedKernels.ParseOfBanner | megatron/fused_kernels/cuda/__init__.py:103-112 | any banner whose first `release` word is followed by `major.minor...` parses to that major and minor, whatever spaces, tabs and line breaks separate its words |
| FusedKernels.Build | megatron/fused_kernels/cuda/__init__.py:26-51 | an extension is verbose only on rank 0; its CUDA flags are the base flags, then the kernel's own flags, then the sm_80 `-gencode` pair exactly when the major version is at least 11, and nothing else |
| FusedKernels.Plan | megatron/fused_kernels/cuda/__init__.py:57-100 | the three softmax kernels are built exactly when masked-softmax fusion is on, layer norm always, fused dense exactly when gradient-accumulation fusion is on, and nothing else |
| FusedKernels.Load | megatron/fused_kernels/cuda/__init__.py:26-100 | `load` succeeds exactly when the banner parses and its major is an integer, and then builds exactly the planned kernels, in order, each as `Build` makes it for the parsed major version |
| Init.RandomSeed | megatron/initialize.py:273-287 | a seed is installed exactly when it is given and positive (UnboundLocalError otherwise); it is the seed plus 100 per pipeline rank, plus 10 per data-parallel rank exactly when data-parallel random init is on |
| Init.SeedsDifferAcrossStages | megatron/initialize.py:277 | two pipeline stages of one replica never share a seed |
| Init.SeedsAcrossReplicas | megatron/initialize.py:279-280 | two replicas of one stage get different seeds exactly when data-parallel random init is on |
| Init.SeedsOverlapAcrossStageAndReplica | megatron/initialize.py:277-280 | with random init, stage 1 replica 0 and stage 0 replica 10 get the same seed |
| Init.InitializeDistributed | megatron/initialize.py:218-261 | an already initialized process group supplies rank and world size; otherwise the device is `rank % device_count`, a supplied local rank must equal it (AssertionError), a missing one is set to it; model-parallel groups are created exactly when there is a device and they do not exist yet |
| Init.NodeRanksCoverDevices | megatron/initialize.py:236-242 | any `device_count` consecutive ranks select pairwise distinct devices and together use every device |
| Init.RankOfDevice | megatron/initialize.py:236-242 | every device is selected by one of any `device_count` consecutive ranks |
| Init.InitializeDistributedIdempotent | megatron/initialize.py:236-242 | repeating the set-up with the local rank it assigned is accepted and yields the same outcome |
| Init.AttnBatchSizeCondition | megatron/initialize.py:181-187 | in exact arithmetic, `(heads / tp) * micro_batch_size` is a multiple of 4 exactly when `4 * tp` divides `heads * micro_batch_size` |
| Init.AttnBatchSizeWhenTpDividesHeads | megatron/initialize.py:181-187 | when `tp` divides `heads` the attention batch size is the integer `(heads // tp) * micro_batch_size`, and the test is whether it is a multiple of 4 |
| Init.SoftmaxWarningPrinted | megatron/initialize.py:180-195 | rank 0 warns exactly when half precision, the shape constraints and masked-softmax fusion do not all hold |
| Init.JitFuser | megatron/initialize.py:314-333 | a parsed version selects nvfuser exactly when `(major, minor) >= (1, 10)`; a major that is not an integer raises ValueError, a version without a `.` IndexError, a minor that is not an integer ValueError, and two integer fields are always accepted |
| Init.JitFuserOfVersion | megatron/initialize.py:317-319 | every version string `major.minor.rest` is accepted and selects nvfuser exactly when `(major, minor) >= (1, 10)` |
| Init.JitWarmupShapes | megatron/initialize.py:338-366 | bf16 takes precedence over fp16 over fp32; the gelu width is `ffn_hidden_size // tp`; the dropout sequence length is `seq_length // tp` under sequence parallelism and `seq_length` otherwise |
| Init.FinishMpuInit | megatron/initialize.py:76-85 | distributed set-up comes before seeding and its AssertionError is raised first; after it, the call succeeds exactly when the seed is given and positive (UnboundLocalError otherwise), and the seed set is the one `RandomSeed` derives |
| Init.InitializeMegatron | megatron/initialize.py:58-108 | without CUDA or with checkpoint arguments but no load path the call fails; the lazy path forces CPU initialization, sets the tensor-parallel size and rank and returns a continuation; the eager path runs `finish_mpu_init`, autoresume and compilation in that order, compilation recording the extensions `load` builds for the rank distributed set-up leaves; it succeeds exactly when `finish_mpu_init` and `load` do, and raises the first error otherwise |
| Init.LazyThenFinishIsEager | megatron/initialize.py:76-99 | running the continuation the lazy path returns performs exactly the eager path's first two steps with the same seed, and fails exactly as the eager path would |
| Tokenization.PadRow | megatron/text_generation/tokenization.py:124-126 | a padded row starts with the prompt tokens, every added token is `eod`, and the row reaches the sample length unless it was longer already |
| Tokenization.TokenizePromptsAndBatch | megatron/text_generation/tokenization.py:96-132 | no prompts raises ValueError; each row starts with its prompt's tokens (with `eod` in front when a BOS is asked for), is padded with `eod`, and has length longest prompt plus tokens to generate; the lengths are the unpadded ones, in order |
| Tokenization.SlicePrefix | megatron/text_generation/tokenization.py:40 | Python's `s[:n]` is a prefix of `s`, of length `n` inside the row, the whole row beyond it, and counted from the end for negative `n` |
| Tokenization.DetokenizeGenerations | megatron/text_generation/tokenization.py:26-58 | the token rows are returned untouched; each text is the detokenized prefix of its row's length; with segments each kept token is detokenized on its own |
| Tokenization.BatchThenDetokenize | megatron/text_generation/tokenization.py:96-132 | detokenizing a batch recovers each prompt's own tokens: the padding is cut off exactly |
| Tokenization.PromptsRoundTrip | megatron/text_generation/tokenization.py:26-58 | with a tokenizer its detokenizer inverts and no BOS, batching then detokenizing gives back the prompts |
| Losses.Accumulate | megatron/training.py:510-513 | adding a dictionary into the totals keeps the union of keys, each key's value being the sum with a missing key read as zero |
| Losses.MeanBounds | megatron/training.py:481 | a mean lies between the smallest and the largest value averaged |
| Losses.AccumulateAllTotals | megatron/training.py:842-847 | accumulating dictionaries one after another has exactly the keys that occur, each holding its total over all dictionaries |
| Budget.AdvanceCompose | megatron/training.py:202-205 | `k1` simulated steps followed by `k2` more are `k1 + k2` steps |
| Budget.AdvanceConstant | megatron/training.py:210-211 | where the batch size is constant, `k` steps consume `k` full batches |
| Budget.RampPhase | megatron/training.py:202-205 | the ramp-up loop stops at the first count past the ramp-up samples, after the number of steps the calculator's schedule takes to get there |
| Budget.WholeBatches | megatron/training.py:195 | `samples // g` is the number of whole batches, rounded towards minus infinity |
| Budget.UpdateTrainIters | megatron/training.py:187-212 | a set `train_iters` is left alone; without a ramp it becomes the whole batches in the sample budget; with one, the ramp steps plus the whole batches in what remains, the calculator reset to 0; a short ramp list, an unparsable ramp length or a missing sample budget raise |
| Budget.ConstantBudgetCovered | megatron/training.py:194-195 | on a constant batch size the computed iterations consume the sample budget but for less than one batch |
| Budget.RampBudgetCovered | megatron/training.py:197-212 | with a ramp-up that ends at its sample count, the computed iterations consume the sample budget but for less than one batch on the calculator's own schedule |
| Budget.OptimizerParamScheduler | megatron/training.py:319-349 | neither budget raises; an iteration budget always succeeds and keeps `train_iters`; a sample budget fails exactly when `update_train_iters` does, with its error, and otherwise takes its `train_iters` and spans weight decay over the sample budget; without an explicit decay length the decay spans the weight-decay ramp; a warm-up fraction in [0, 1] keeps warm-up within decay |
| Budget.IterationScheduleCountsSamples | megatron/training.py:323-333 | on an iteration budget with a constant batch size, the weight-decay, decay and warm-up step counts are the samples consumed in that many iterations |
| Budget.SampleScheduleCoversRun | megatron/training.py:334-346 | on a sample budget without ramp-up, the recorded iterations consume the weight-decay span but for less than one batch |
| Budget.SampleAndIterationSchedulesAgree | megatron/training.py:323-346 | with a constant batch size, a budget of `n` whole batches of samples and one of `n` iterations give the scheduler the same step sizes |
| DataSetup.FloorDiv | megatron/training.py:937 | Python's `//` for a divisor of either sign |
| DataSetup.ReconstructCounters | megatron/training.py:930-938 | a resumed iteration-based run without sample counts gets `iteration * global_batch_size` training samples and `(iteration // eval_interval) * eval_iters * global_batch_size` validation samples; a sample-based one is refused; a zero eval interval raises ZeroDivisionError |
| DataSetup.ReconstructedCountersMatchRun | megatron/training.py:930-938 | the rebuilt counters are those of an uninterrupted run: one batch per iteration and `eval_iters` batches per evaluation point passed |
| DataSetup.EvalPointsCount | megatron/training.py:937 | the evaluation points among iterations `1..n` number `n // eval_interval` |
| DataSetup.TargetSizes | megatron/training.py:943-953 | the train target is the sample budget or iterations times batch size; validation holds `train_iters // eval_interval + 1` evaluations; test one evaluation |
| DataSetup.ValidationTargetCoversRun | megatron/training.py:948-953 | the validation target is one evaluation's samples for each evaluation point of the run and one more |
| DataSetup.ValidOffsets | megatron/training.py:987 | each validation loader starts at its share `consumed_valid_samples // len(valid_ds)` |
| DataSetup.ValidOffsetsAfterEvaluations | megatron/training.py:987 | after equal evaluations of every validation dataset each loader resumes just past the batches it served |
| DataSetup.BuildDataSetup | megatron/training.py:921-1020 | the data setup succeeds exactly when the counters rebuild, an eval interval is set, there is one training dataset group and the loader type is single or cyclic; a missing group raises TypeError; the flags and offsets follow the loaders and `eval_iters` |
| DataSetup.EvalSamples | megatron/training.py:849-851 | an evaluation consumes one global batch per pass, none for a non-positive `eval_iters` |
| DataSetup.AccumulatePass | megatron/training.py:842-847 | adding one pass's loss dictionaries into the totals gives the totals of all dictionaries seen so far |
| DataSetup.Evaluate | megatron/training.py:808-865 | the validation counter advances by one global batch per pass; on the last stage each key's average is its total over all microbatches of all passes divided by their number, other stages return nothing |
| Step.AverageLosses | megatron/training.py:476-483 | no microbatch raises IndexError, a key of the first dictionary missing from another raises KeyError; otherwise each key of the first dictionary maps to its mean over the microbatches |
| Step.AveragedLossIsMean | megatron/training.py:479-481 | an averaged loss is its total over the microbatches divided by their number and lies between its smallest and largest value |
| Step.TrainStep | megatron/training.py:447-483 | a successful update gathers parameters and advances the scheduler by microbatches times microbatch size times replicas; a failed one skips the iteration and leaves the scheduler; only the last stage averages losses |
| Step.SchedulerCountsSamples | megatron/training.py:463-467 | with a calculator consistent with the layout, a successful step advances the scheduler by exactly one global batch |
| Metrics.Record | megatron/training.py:494-521 | an iteration advances or adds its skip count; only advanced iterations add their losses; the NaN count grows only for skipped iterations with a non-finite loss; at least one iteration is counted, so `total_iterations` is positive |
| Metrics.TrainingLog | megatron/training.py:616-666 | at a log iteration each loss is averaged over `max(1, advanced)` and printed only when positive, the counters reset, losses zero but keep their keys, and memory is reported once a learning rate is positive; otherwise only the record changes |
| Metrics.WindowCounters | megatron/training.py:499-521 | over a window from empty totals, the counters count the advanced, skipped and non-finite iterations |
| Metrics.WindowLosses | megatron/training.py:510-513 | over a window from empty totals, the loss totals are the key-by-key sums of the advanced iterations only |
| Metrics.WindowAverages | megatron/training.py:639-646 | a reported average is the key's total over the advanced iterations divided by their number |
| Loop.AllReduceMax | megatron/training.py:782-787 | the reduced value is the largest rank value |
| Loop.DurationDoneIffAnyRank | megatron/training.py:781-787 | training stops for time exactly when some rank is over the limit, on every rank alike |
| Loop.CheckpointAndExit | megatron/training.py:765-802 | the exit follows the order signal, duration, exit interval; an iteration writes exactly one checkpoint when it exits or its save interval is due, and none otherwise; nothing else in the state changes |
| Loop.Progress | megatron/training.py:722-762 | an iteration adds one to the count and one batch to consumed samples, steps the scheduler only on success, adds validation samples at evaluation points, resets the log counters at a log line and grows them otherwise |
| Loop.Iteration | megatron/training.py:722-802 | one loop pass combines `Progress` with the checkpoint and exit decision of the iteration it reaches |
| Loop.IterationReaches | megatron/training.py:722-734 | one more iteration keeps the loop invariant: counters of the iterations run, checkpoints increasing and within the run |
| Loop.Train | megatron/training.py:696-805 | without an exit the loop ends exactly at the iteration budget; an exit happens inside the budget and leaves a checkpoint of its own iteration; checkpoints are distinct and increasing; a failure comes from an iteration whose losses lack a key |
| Loop.LoopFollowsSimulation | megatron/training.py:732-734 | with a consistent calculator the loop consumes samples exactly as the `update_train_iters` simulation does, skipped iterations included |
| Loop.SchedulerTrailsConsumed | megatron/training.py:722-734 | the scheduler trails consumed samples by exactly the samples of skipped iterations, and is level with them exactly when no update was skipped |
| Stages.ModelChunks | megatron/training.py:223-266 | the interleaved schedule builds one chunk per virtual stage and rejects encoder-decoder models; an encoder-decoder pipeline needs a split rank, embeds on ranks 0 and split and outputs on ranks split-1 and last |
| Stages.GetModel | megatron/training.py:217-316 | the chunks are wrapped for half precision when fp16 or bf16 is on, then in the chosen DDP implementation; an unknown implementation raises NotImplementedError |
| Stages.SplitRolesAreSubPipelineEnds | megatron/training.py:244-255 | a rank embeds exactly when it is the first stage of its sub-pipeline and outputs exactly when it is the last |
| Stages.TwoEmbeddingAndTwoOutputRanks | megatron/training.py:244-255 | exactly two ranks embed and two compute outputs; the encoder is built before the split and the decoder after it |

## Left out

- I/O and timing: printing, timers, TensorBoard, Weights & Biases, the memory report itself, `_configure_logging`, throughput and TFLOPs figures.
- Collectives and device work: barriers, broadcasts, `all_reduce` (only its result is modelled, by `Loop.AllReduceMax`), `torch.cuda.empty_cache`, the JIT warmup tensors, kernel compilation and `subprocess` calls.
- The microbatch calculator, `mpu`, the optimizer, the scheduler object, the tokenizer encoding and the dataloaders: their source is not part of this model, so each is an input function or value.
- Checkpoint contents and `load_args_from_checkpoint`: a checkpoint is recorded only as the iteration it is written at.
- Autoresume: `check_adlr_autoresume_termination` (megatron/training.py:748-751) can save a checkpoint and exit before the evaluation step of an iteration; it is not modelled, because the autoresume object is not part of this model.
- The dino vision hooks: they do not touch the modelled counters.
- Loop.Train: its exit guarantees cover the signal, duration and exit-interval exits only; an autoresume exit is not modelled.
- `pretrain` and `setup_model_and_optimizer`, the final validation and test after the loop, `evaluate_and_print_results` and the non-loss data collected by `evaluate`.
- `tokenize_prompts`: it only broadcasts what `_tokenize_prompts_and_batch` computes.
- Floating point: losses, averages and the warm-up fraction product are exact reals, so float32 rounding, infinities and NaN are not modelled; the non-finite test is an input predicate.
- Loop.Progress: `numValid` is the number of validation iterators evaluated; when `valid_weighted_split_names` is shorter than the iterator list, `zip` evaluates fewer, and the caller must pass that smaller number.
- Loop.TrainConfig: intervals and limits that Python reads as `None` are modelled as `0`, which Python treats the same way in these truthiness tests.
- Metrics.TrainingLog: takes a positive `log_interval`; a zero interval, which Python rejects with ZeroDivisionError, is not modelled.
- Metrics.Record: the counters are kept apart from the losses, so a loss named `advanced iterations`, `skipped iterations` or `nan iterations`, which would collide with them in Python's single dictionary, is not modelled.
- Budget.UpdateTrainIters: only the third ramp-up string is parsed; the first two are read by the calculator, whose internals are not modelled.
- Budget.OptimizerParamScheduler: writing `lr_decay_iters` and `lr_decay_samples` back into the arguments is not modelled; only the step sizes and `train_iters` are.
- Stages.SplitView: assumes `mpu` places a rank before the split exactly when it is below the split rank.
- Stages.GetModel: setting tensor-parallel defaults on parameters, moving to the GPU, the parameter-count print and the parameter broadcast of local DDP are side effects, not modelled.
- DataSetup.BuildDataSetup: dataset groups are counted, not built; non-source ranks of a tensor-parallel group receive the broadcast flags and are not modelled separately.
- Init.AttnBatchSizeCondition: Python computes `heads / tp` and the product in float64; the model uses exact reals, so a rounded product (heads 1, tp 49, micro batch 196 gives 3.9999999999999996) is not modelled. Init.AttnBatchSizeWhenTpDividesHeads covers the exact case.
- Init.SoftmaxWarningPrinted: the multiple-of-4 test is decided in exact arithmetic, not float64, for the same reason.
- Text.ParseInt: `int(str)` also accepts non-ASCII Unicode decimal digits; the model accepts ASCII digits only, so such version strings parse in Python and fail in the model (Init.JitFuser, FusedKernels.Load).
- Init.InitializeMegatron: argument parsing, `validate_args` and `set_global_variables` are not modelled; their results are the arguments passed in.
