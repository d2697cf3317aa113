/**
  The model-building decisions of `get_model` in `megatron/training.py`:
  which model chunks a pipeline rank builds, whether each chunk does the
  pre-processing (embedding) and post-processing (output head), which halves
  of an encoder-decoder model it holds, and how the chunks are wrapped.

  The queries to the model-parallel state are inputs: `firstStageAt(v)` and
  `lastStageAt(v)` are the answers of `is_pipeline_first_stage()` and
  `is_pipeline_last_stage()` after the virtual pipeline rank is set to `v`,
  `firstStage` and `lastStage` the answers when it is not set.
 */
module Stages {
  import opened Results

  datatype ModelType = EncoderOrDecoder | EncoderAndDecoder

  /** This rank's view of the pipeline. */
  datatype PipelineView = PipelineView(
    worldSize: nat,
    rank: nat,
    firstStage: bool,
    lastStage: bool,
    firstStageAt: nat -> bool,
    lastStageAt: nat -> bool,
    beforeSplit: bool,
    afterSplit: bool)

  datatype DdpImpl = TorchDdp | LocalDdp | OtherDdp(name: string)

  /** The arguments `get_model` reads. */
  datatype ModelArgs = ModelArgs(
    virtualPipelineSize: Option<nat>,
    splitRank: Option<int>,
    float16: bool,           // `fp16` or `bf16`
    ddpImpl: DdpImpl)

  /** One call of the model provider: `addEncoder` and `addDecoder` are
      `None` when the provider is called without them. */
  datatype Chunk = Chunk(preProcess: bool, postProcess: bool, addEncoder: Option<bool>, addDecoder: Option<bool>)

  datatype Wrapper = Unwrapped | TorchDdpWrapper | LocalDdpWrapper

  /** The chunks, whether each is wrapped for half precision, and the
      data-parallel wrapper around each. */
  datatype BuiltModel = BuiltModel(chunks: seq<Chunk>, float16: bool, wrapper: Wrapper)

  /** The provider calls of `get_model`. */
  function ModelChunks(args: ModelArgs, view: PipelineView, modelType: ModelType): (r: Result<seq<Chunk>>)
    ensures view.worldSize > 1 && args.virtualPipelineSize.Some? ==>
              if modelType == EncoderAndDecoder then r.Err? && r.error.AssertionError?
              else r.Ok? && |r.value| == args.virtualPipelineSize.value
                   && forall v :: 0 <= v < |r.value| ==>
                        r.value[v] == Chunk(view.firstStageAt(v), view.lastStageAt(v), None, None)
    ensures modelType == EncoderAndDecoder && view.worldSize > 1 && args.splitRank.None? ==>
              r.Err? && r.error.AssertionError?
    ensures r.Err? ==> r.error.AssertionError? && modelType == EncoderAndDecoder && view.worldSize > 1
    ensures !(view.worldSize > 1 && args.virtualPipelineSize.Some?) && r.Ok? ==> |r.value| == 1
    ensures !(view.worldSize > 1 && args.virtualPipelineSize.Some?) && modelType == EncoderOrDecoder ==>
              r == Ok([Chunk(view.firstStage, view.lastStage, None, None)])
    ensures modelType == EncoderAndDecoder && view.worldSize <= 1 ==>
              r == Ok([Chunk(view.firstStage, view.lastStage, Some(true), Some(true))])
    ensures modelType == EncoderAndDecoder && view.worldSize > 1 && args.virtualPipelineSize.None? && args.splitRank.Some? ==>
              var split := args.splitRank.value;
              && r.Ok?
              && (r.value[0].preProcess <==> view.rank == 0 || view.rank == split)
              && (r.value[0].postProcess <==> view.rank == split - 1 || view.rank == view.worldSize - 1)
              && r.value[0].addEncoder == Some(view.beforeSplit)
              && r.value[0].addDecoder == Some(view.afterSplit)
  {
    if view.worldSize > 1 && args.virtualPipelineSize.Some? then
      if modelType == EncoderAndDecoder then Err(AssertionError("interleaved schedule with encoder and decoder"))
      else
        var size := args.virtualPipelineSize.value;
        Ok(seq(size, v requires 0 <= v < size => Chunk(view.firstStageAt(v), view.lastStageAt(v), None, None)))
    else if modelType == EncoderAndDecoder then
      if view.worldSize > 1 then
        if args.splitRank.None? then Err(AssertionError("split rank"))
        else
          var split := args.splitRank.value;
          var pre := view.rank == 0 || view.rank == split;
          var post := view.rank == split - 1 || view.rank == view.worldSize - 1;
          Ok([Chunk(pre, post, Some(view.beforeSplit), Some(view.afterSplit))])
      else Ok([Chunk(view.firstStage, view.lastStage, Some(true), Some(true))])
    else Ok([Chunk(view.firstStage, view.lastStage, None, None)])
  }

  /** `get_model`: build the chunks, wrap them for half precision when asked,
      and wrap them for data parallelism with the chosen implementation. */
  function GetModel(args: ModelArgs, view: PipelineView, modelType: ModelType, wrapWithDdp: bool): (r: Result<BuiltModel>)
    ensures ModelChunks(args, view, modelType).Err? ==> r == Err(ModelChunks(args, view, modelType).error)
    ensures ModelChunks(args, view, modelType).Ok? ==>
              (r.Ok? <==> !wrapWithDdp || !args.ddpImpl.OtherDdp?)
    ensures r.Err? && ModelChunks(args, view, modelType).Ok? ==> r.error == NotImplementedError
    ensures r.Ok? ==>
              && r.value.chunks == ModelChunks(args, view, modelType).value
              && r.value.float16 == args.float16
              && (r.value.wrapper == Unwrapped <==> !wrapWithDdp)
              && (wrapWithDdp && args.ddpImpl == TorchDdp ==> r.value.wrapper == TorchDdpWrapper)
              && (wrapWithDdp && args.ddpImpl == LocalDdp ==> r.value.wrapper == LocalDdpWrapper)
  {
    var chunks :- ModelChunks(args, view, modelType);
    if !wrapWithDdp then Ok(BuiltModel(chunks, args.float16, Unwrapped))
    else match args.ddpImpl
      case TorchDdp => Ok(BuiltModel(chunks, args.float16, TorchDdpWrapper))
      case LocalDdp => Ok(BuiltModel(chunks, args.float16, LocalDdpWrapper))
      case OtherDdp(_) => Err(NotImplementedError)
  }

  // ----- the encoder-decoder split -----

  /** The encoder occupies pipeline ranks `0..split-1` and the decoder ranks
      `split..worldSize-1`; each is a pipeline of its own. */
  function SubPipelineFirst(rank: nat, split: nat): nat {
    if rank < split then 0 else split
  }

  function SubPipelineLast(rank: nat, split: nat, worldSize: nat): int {
    if rank < split then split - 1 else worldSize - 1
  }

  /** With a split strictly inside the pipeline, a rank embeds exactly when it
      is the first stage of its own sub-pipeline (encoder or decoder) and
      computes the output exactly when it is the last stage of it. */
  lemma SplitRolesAreSubPipelineEnds(args: ModelArgs, view: PipelineView)
    requires view.worldSize > 1 && args.virtualPipelineSize.None? && args.splitRank.Some?
    requires 0 < args.splitRank.value < view.worldSize && view.rank < view.worldSize
    ensures var c := ModelChunks(args, view, EncoderAndDecoder).value[0];
            var split := args.splitRank.value;
            && (c.preProcess <==> view.rank == SubPipelineFirst(view.rank, split))
            && (c.postProcess <==> view.rank == SubPipelineLast(view.rank, split, view.worldSize))
  {
  }

  /** The view of rank `rank` in a pipeline of `worldSize` stages split at
      `split`, the stages before the split holding the encoder. */
  function SplitView(worldSize: nat, split: int, rank: nat): PipelineView {
    PipelineView(worldSize, rank, rank == 0, rank == worldSize - 1, _ => false, _ => false, rank < split, rank >= split)
  }

  /** The one chunk rank `rank` builds for an encoder-decoder model. */
  function RankChunk(args: ModelArgs, worldSize: nat, rank: nat): Chunk
    requires worldSize > 1 && args.virtualPipelineSize.None? && args.splitRank.Some?
  {
    ModelChunks(args, SplitView(worldSize, args.splitRank.value, rank), EncoderAndDecoder).value[0]
  }

  /** Exactly two ranks of an encoder-decoder pipeline embed and exactly two
      compute outputs, one of each per sub-pipeline; the encoder is built on
      the ranks before the split and the decoder on the others. */
  lemma TwoEmbeddingAndTwoOutputRanks(args: ModelArgs, worldSize: nat)
    requires worldSize > 1 && args.virtualPipelineSize.None? && args.splitRank.Some?
    requires 0 < args.splitRank.value < worldSize
    ensures (set rank: nat | rank < worldSize && RankChunk(args, worldSize, rank).preProcess) == {0, args.splitRank.value}
    ensures (set rank: nat | rank < worldSize && RankChunk(args, worldSize, rank).postProcess)
              == {args.splitRank.value - 1, worldSize - 1}
    ensures forall rank: nat :: rank < worldSize ==>
              RankChunk(args, worldSize, rank).addEncoder == Some(rank < args.splitRank.value)
              && RankChunk(args, worldSize, rank).addDecoder == Some(rank >= args.splitRank.value)
  {
    var split := args.splitRank.value;
    var pre := set rank: nat | rank < worldSize && RankChunk(args, worldSize, rank).preProcess;
    var post := set rank: nat | rank < worldSize && RankChunk(args, worldSize, rank).postProcess;
    assert RankChunk(args, worldSize, 0).preProcess && RankChunk(args, worldSize, split).preProcess;
    assert RankChunk(args, worldSize, split - 1).postProcess && RankChunk(args, worldSize, worldSize - 1).postProcess;
    assert pre == {0, split};
    assert post == {split - 1, worldSize - 1};
  }
}
