/**
  Prompt batching and detokenization from
  `megatron/text_generation/tokenization.py`. The tokenizer is abstract: any
  text-to-ids function, any ids-to-text function and an end-of-document id.
  Broadcasting the batch to the other ranks is outside the model.
 */
module Tokenization {
  import opened Results

  datatype Tokenizer = Tokenizer(tokenize: string -> seq<int>, detokenize: seq<int> -> string, eod: int)

  /** The padded token rows and the unpadded prompt lengths. */
  datatype Batch = Batch(tokens: seq<seq<int>>, lengths: seq<int>)

  /** The tokens of one prompt, with the end-of-document id in front when a
      beginning-of-sequence token is asked for. */
  function PromptTokens(tok: Tokenizer, prompt: string, addBos: bool): seq<int> {
    if addBos then [tok.eod] + tok.tokenize(prompt) else tok.tokenize(prompt)
  }

  /** Python's `max` of a non-empty list. */
  function Max(xs: seq<int>): (m: int)
    requires |xs| > 0
    ensures forall i :: 0 <= i < |xs| ==> xs[i] <= m
    ensures exists i :: 0 <= i < |xs| && xs[i] == m
  {
    if |xs| == 1 then xs[0]
    else
      var m := Max(xs[1..]);
      assert forall i :: 1 <= i < |xs| ==> xs[i] == xs[1..][i - 1];
      if xs[0] >= m then xs[0] else m
  }

  /** Python's `[x] * n`, which is empty for `n <= 0`. */
  function Repeat(x: int, n: int): (r: seq<int>)
    ensures |r| == (if n > 0 then n else 0)
    ensures forall i :: 0 <= i < |r| ==> r[i] == x
  {
    if n <= 0 then [] else [x] + Repeat(x, n - 1)
  }

  /** `row.extend([eod] * (samplesLength - len(row)))` */
  function PadRow(row: seq<int>, eod: int, samplesLength: int): (r: seq<int>)
    ensures row <= r
    ensures forall j :: |row| <= j < |r| ==> r[j] == eod
    ensures samplesLength >= |row| ==> |r| == samplesLength
    ensures samplesLength < |row| ==> r == row
  {
    var r := row + Repeat(eod, samplesLength - |row|);
    assert r[..|row|] == row;
    r
  }

  predicate SameLengths(rows: seq<seq<int>>) {
    forall i, j :: 0 <= i < |rows| && 0 <= j < |rows| ==> |rows[i]| == |rows[j]|
  }

  /** Every row padded to `samplesLength`. */
  function PadAll(rows: seq<seq<int>>, eod: int, samplesLength: int): (r: seq<seq<int>>)
    ensures |r| == |rows|
    ensures forall i :: 0 <= i < |rows| ==> r[i] == PadRow(rows[i], eod, samplesLength)
  {
    seq(|rows|, i requires 0 <= i < |rows| => PadRow(rows[i], eod, samplesLength))
  }

  /** The lengths of the rows. */
  function Lengths(rows: seq<seq<int>>): (r: seq<int>)
    ensures |r| == |rows|
    ensures forall i :: 0 <= i < |rows| ==> r[i] == |rows[i]|
  {
    seq(|rows|, i requires 0 <= i < |rows| => |rows[i]|)
  }

  /** `_tokenize_prompts_and_batch`: tokenize every prompt, pad each with the
      end-of-document id to the longest prompt length plus
      `tokensToGenerate`, and return the rows with the unpadded lengths. */
  function TokenizePromptsAndBatch(tok: Tokenizer, prompts: seq<string>, tokensToGenerate: int, addBos: bool)
    : (r: Result<Batch>)
    ensures |prompts| == 0 ==> r == Err(ValueError)
    ensures |prompts| > 0 && tokensToGenerate >= 0 ==> r.Ok?
    ensures r.Err? ==> r.error == ValueError
    ensures r.Ok? ==> |r.value.tokens| == |prompts| && |r.value.lengths| == |prompts|
    ensures r.Ok? ==> forall i :: 0 <= i < |prompts| ==>
              && r.value.lengths[i] == |PromptTokens(tok, prompts[i], addBos)|
              && PromptTokens(tok, prompts[i], addBos) <= r.value.tokens[i]
              && (forall j :: r.value.lengths[i] <= j < |r.value.tokens[i]| ==> r.value.tokens[i][j] == tok.eod)
    ensures r.Ok? && tokensToGenerate >= 0 ==>
              var longest := Max(r.value.lengths);
              forall i :: 0 <= i < |prompts| ==> |r.value.tokens[i]| == longest + tokensToGenerate
  {
    var promptsTokens := seq(|prompts|, i requires 0 <= i < |prompts| => PromptTokens(tok, prompts[i], addBos));
    var promptsLength := Lengths(promptsTokens);
    if |promptsLength| == 0 then Err(ValueError)
    else
      var samplesLength := Max(promptsLength) + tokensToGenerate;
      var padded := PadAll(promptsTokens, tok.eod, samplesLength);
      assert tokensToGenerate >= 0 ==> forall i :: 0 <= i < |padded| ==> |padded[i]| == samplesLength;
      if SameLengths(padded) then Ok(Batch(padded, promptsLength))
      else Err(ValueError)
  }

  /** Python's `s[:n]`: a negative `n` counts from the end. */
  function SlicePrefix(s: seq<int>, n: int): (r: seq<int>)
    ensures r <= s
    ensures 0 <= n <= |s| ==> |r| == n
    ensures n > |s| ==> r == s
    ensures n < 0 ==> |r| == (if |s| + n > 0 then |s| + n else 0)
  {
    if n >= |s| then s
    else if n >= 0 then s[..n]
    else if |s| + n > 0 then s[..|s| + n]
    else []
  }

  /** What `detokenize_generations` returns: the full token rows, the text of
      each row's first `length` tokens, and optionally the text of each of
      those tokens on its own. */
  datatype Generations = Generations(tokens: seq<seq<int>>, texts: seq<string>, segments: Option<seq<seq<string>>>)

  function Min(a: int, b: int): int {
    if a <= b then a else b
  }

  /** `detokenize_generations`: rows and lengths are paired up as `zip` does. */
  function DetokenizeGenerations(tok: Tokenizer, tokens: seq<seq<int>>, lengths: seq<int>, returnSegments: bool)
    : (r: Generations)
    ensures r.tokens == tokens
    ensures |r.texts| == Min(|tokens|, |lengths|)
    ensures forall i :: 0 <= i < |r.texts| ==> r.texts[i] == tok.detokenize(SlicePrefix(tokens[i], lengths[i]))
    ensures r.segments.Some? <==> returnSegments
    ensures r.segments.Some? ==>
              && |r.segments.value| == |r.texts|
              && forall i :: 0 <= i < |r.texts| ==>
                   var kept := SlicePrefix(tokens[i], lengths[i]);
                   && |r.segments.value[i]| == |kept|
                   && forall j :: 0 <= j < |kept| ==> r.segments.value[i][j] == tok.detokenize([tokens[i][j]])
  {
    var n := Min(|tokens|, |lengths|);
    var kept := seq(n, i requires 0 <= i < n => SlicePrefix(tokens[i], lengths[i]));
    var texts := seq(n, i requires 0 <= i < n => tok.detokenize(kept[i]));
    var segments :=
      if returnSegments then
        Some(seq(n, i requires 0 <= i < n =>
          seq(|kept[i]|, j requires 0 <= j < |kept[i]| => tok.detokenize([kept[i][j]]))))
      else None;
    Generations(tokens, texts, segments)
  }

  /** Detokenizing a batch recovers each prompt's own tokens: the padding is
      cut off exactly. */
  lemma {:induction false} BatchThenDetokenize(tok: Tokenizer, prompts: seq<string>, tokensToGenerate: int, addBos: bool, returnSegments: bool)
    requires TokenizePromptsAndBatch(tok, prompts, tokensToGenerate, addBos).Ok?
    ensures var b := TokenizePromptsAndBatch(tok, prompts, tokensToGenerate, addBos).value;
            var g := DetokenizeGenerations(tok, b.tokens, b.lengths, returnSegments);
            && |g.texts| == |prompts|
            && forall i :: 0 <= i < |prompts| ==> g.texts[i] == tok.detokenize(PromptTokens(tok, prompts[i], addBos))
  {
    var b := TokenizePromptsAndBatch(tok, prompts, tokensToGenerate, addBos).value;
    var g := DetokenizeGenerations(tok, b.tokens, b.lengths, returnSegments);
    forall i | 0 <= i < |prompts|
      ensures g.texts[i] == tok.detokenize(PromptTokens(tok, prompts[i], addBos))
    {
      var p := PromptTokens(tok, prompts[i], addBos);
      assert b.lengths[i] == |p| && p <= b.tokens[i];
      assert SlicePrefix(b.tokens[i], b.lengths[i]) == p;
    }
  }

  /** With a tokenizer whose detokenizer inverts it and no BOS token, a batch
      detokenizes back to the prompts themselves. */
  lemma PromptsRoundTrip(tok: Tokenizer, prompts: seq<string>, tokensToGenerate: int)
    requires forall p: string :: tok.detokenize(tok.tokenize(p)) == p
    requires |prompts| > 0 && tokensToGenerate >= 0
    ensures TokenizePromptsAndBatch(tok, prompts, tokensToGenerate, false).Ok?
    ensures var b := TokenizePromptsAndBatch(tok, prompts, tokensToGenerate, false).value;
            DetokenizeGenerations(tok, b.tokens, b.lengths, false).texts == prompts
  {
    BatchThenDetokenize(tok, prompts, tokensToGenerate, false, false);
  }
}
