/**
 * Generation on the main thread in the newer package (`packages/wandler/utils/transformers.ts`):
 * `generateWithTransformers` hands the module-level KV cache to the runtime when the model
 * supports it, stores the cache the runtime returns and clears it on any failure, normalises
 * abort errors, reads the messages back with the provider's parser, and works out the finish
 * reason and the token usage.
 */
module WandlerTransformers {
  import opened Types
  import opened Strings
  import opened Protocol
  import opened Runtime
  import WandlerQwen
  import WandlerDeepseek

  const NoInputMessage: string := "Either inputs or messages must be provided"
  const NoSequencesMessage: string := "No sequences in model output"

  /** `TransformersGenerateConfig`, reduced to what this function reads. */
  datatype GenerateConfig = GenerateConfig(hasInputs: bool, messages: Option<seq<Message>>)

  /**
   * What the world answers during one call: whether the abort signal has fired before
   * `generate` and at the end, the prompt length, what `generate` does, the decoded text and the
   * tokenizer's end-of-sequence id.
   */
  datatype Run = Run(
    abortedBefore: bool,
    abortedAfter: bool,
    promptTokens: nat,
    outcome: RuntimeOutcome,
    decoded: string,
    eosTokenId: int)

  /** `TransformersGenerateResult` */
  datatype Generated = Generated(
    text: string,
    pastKeyValues: Option<nat>,
    tokenCount: int,
    reasoning: Option<string>,
    sources: Option<seq<string>>,
    finishReason: FinishReason,
    usage: Usage,
    messages: seq<Message>)

  /** An error the runtime throws counts as an abort when its name is `AbortError` or its message mentions "abort" in any case. */
  predicate LooksLikeAbort(e: ErrorInfo)
  {
    e.name == "AbortError" || Contains(Lower(e.message), "abort")
  }

  /** The error a failing `generate` surfaces as. */
  function RuntimeError(e: ErrorInfo): (r: ErrorInfo)
    ensures LooksLikeAbort(e) ==> r == AbortError()
    ensures !LooksLikeAbort(e) ==>
      r == PlainError("Model execution failed: " + ErrorText(e) + ". Please try a different dtype or open an issue.")
  {
    if LooksLikeAbort(e) then AbortError()
    else PlainError("Model execution failed: " + ErrorText(e) + ". Please try a different dtype or open an issue.")
  }

  /**
   * `model.providerInstance.reverseTemplate(fullOutput)`, falling back to the whole output as one
   * assistant message when the model has no parser to call.
   */
  function ParseOutput(parser: Option<ParserKind>, fullOutput: string): (p: ParsedOutput)
    ensures parser == Some(QwenParser) ==> p == WandlerQwen.Parse(fullOutput)
    ensures parser == Some(DeepseekParser) ==> p == WandlerDeepseek.Parse(fullOutput)
    ensures parser.None? || parser == Some(NoParser) ==> p == ParsedOutput([Message("assistant", fullOutput)], None, None)
  {
    match parser
    case Some(QwenParser) => WandlerQwen.Parse(fullOutput)
    case Some(DeepseekParser) => WandlerDeepseek.Parse(fullOutput)
    case _ => ParsedOutput([Message("assistant", fullOutput)], None, None)
  }

  /** `messages[messages.length - 1]?.content || ""` */
  function LastContent(messages: seq<Message>): (text: string)
    ensures messages == [] ==> text == ""
    ensures messages != [] ==> text == messages[|messages| - 1].content
  {
    if messages == [] then "" else messages[|messages| - 1].content
  }

  /** The finish reason: an aborted signal wins, then an end-of-sequence last token, else the length limit. */
  function FinishReasonOf(abortedAfter: bool, sequence: seq<int>, eosTokenId: int): (f: FinishReason)
    ensures f == AbortFinish <==> abortedAfter
    ensures f == Stop <==> !abortedAfter && |sequence| > 0 && sequence[|sequence| - 1] == eosTokenId
  {
    if abortedAfter then AbortFinish
    else if |sequence| > 0 && sequence[|sequence| - 1] == eosTokenId then Stop
    else Length
  }

  /** The token usage: the completion is whatever the output holds beyond the prompt. */
  function UsageOf(promptTokens: nat, sequence: seq<int>): (u: Usage)
    ensures u.promptTokens == promptTokens
    ensures u.completionTokens == |sequence| - promptTokens
    ensures u.totalTokens == u.promptTokens + u.completionTokens
  {
    Usage(promptTokens, |sequence| - promptTokens, promptTokens + (|sequence| - promptTokens))
  }

  /** The result built from a successful runtime output. */
  function Success(model: LoadedModel, run: Run, output: ModelOutput, sequence: seq<int>): Generated
  {
    var parsed := ParseOutput(model.parser, run.decoded);
    var text := LastContent(parsed.messages);
    Generated(
      text,
      if SupportsKV(model) then output.pastKeyValues else None,
      |sequence| - run.promptTokens,
      parsed.reasoning,
      parsed.sources,
      FinishReasonOf(run.abortedAfter, sequence, run.eosTokenId),
      UsageOf(run.promptTokens, sequence),
      parsed.messages)
  }

  /** One call: the result, the slot afterwards, and the call made to `generate`, if one was made. */
  datatype Step = Step(result: Result<Generated>, slot: Slot, call: Option<RuntimeCall>)

  /** `generateWithTransformers(model, config)` from slot `slot`, as a specification. */
  function Generate(model: LoadedModel, config: GenerateConfig, run: Run, slot: Slot): Step
  {
    var cleared := if SupportsKV(model) then NullSlot else slot;
    if !config.hasInputs && config.messages.None? then
      Step(Err(PlainError(NoInputMessage)), cleared, None)
    else if run.abortedBefore then
      Step(Err(AbortError()), cleared, None)
    else
      var call := Some(RuntimeCall(if SupportsKV(model) then Some(slot) else None));
      match run.outcome
      case RuntimeThrows(e) => Step(Err(RuntimeError(e)), cleared, call)
      case RuntimeReturns(output) =>
        if output.sequence.None? then Step(Err(PlainError(NoSequencesMessage)), cleared, call)
        else
          Step(Ok(Success(model, run, output, output.sequence.value)),
               if SupportsKV(model) then Stored(output.pastKeyValues) else slot, call)
  }

  /** The module-level `past_key_values_cache`. */
  class KVCache {
    var slot: Slot

    constructor()
      ensures slot == NullSlot
    {
      slot := NullSlot;
    }

    /** `hasActiveKVCache()`: anything but `null` counts, `undefined` included. */
    function HasActiveKVCache(): (b: bool)
      reads this
      ensures b <==> slot != NullSlot
    {
      slot != NullSlot
    }

    /** `resetKVCache()` */
    method ResetKVCache()
      modifies this
      ensures slot == NullSlot && !HasActiveKVCache()
    {
      slot := NullSlot;
    }

    /** `generateWithTransformers(model, config)` */
    method GenerateWithTransformers(model: LoadedModel, config: GenerateConfig, run: Run)
      returns (result: Result<Generated>, call: Option<RuntimeCall>)
      modifies this
      ensures Step(result, slot, call) == Generate(model, config, run, old(slot))
    {
      call := None;
      if !config.hasInputs && config.messages.None? {
        result := Err(PlainError(NoInputMessage));
      } else if run.abortedBefore {
        result := Err(AbortError());
      } else {
        call := Some(RuntimeCall(if SupportsKV(model) then Some(slot) else None));
        match run.outcome {
          case RuntimeThrows(e) =>
            result := Err(RuntimeError(e));
          case RuntimeReturns(output) =>
            if SupportsKV(model) {
              slot := Stored(output.pastKeyValues);
            }
            if output.sequence.None? {
              result := Err(PlainError(NoSequencesMessage));
            } else {
              result := Ok(Success(model, run, output, output.sequence.value));
            }
        }
      }
      if result.Err? && SupportsKV(model) {
        slot := NullSlot;
      }
    }
  }

  /**
   * The slot follows the last call: with KV support, a success stores the output's cache and a
   * failure empties the slot; without it, the slot is never touched.
   */
  lemma SlotDiscipline(model: LoadedModel, config: GenerateConfig, run: Run, slot: Slot)
    ensures var s := Generate(model, config, run, slot);
      (!SupportsKV(model) ==> s.slot == slot)
      && (SupportsKV(model) && s.result.Err? ==> s.slot == NullSlot)
      && (SupportsKV(model) && s.result.Ok? ==> run.outcome.RuntimeReturns? && s.slot == Stored(run.outcome.output.pastKeyValues))
  {
  }

  /** The cache goes to `generate` only for a model that supports it, and it is the slot's current content. */
  lemma CachePassedOnlyWithKV(model: LoadedModel, config: GenerateConfig, run: Run, slot: Slot)
    ensures var s := Generate(model, config, run, slot);
      s.call.Some? ==> (s.call.value.cache.Some? <==> SupportsKV(model)) && (s.call.value.cache.Some? ==> s.call.value.cache.value == slot)
  {
  }

  /** A missing input fails first; an already aborted signal fails with `AbortError` before `generate` is called. */
  lemma ChecksBeforeRuntime(model: LoadedModel, config: GenerateConfig, run: Run, slot: Slot)
    ensures !config.hasInputs && config.messages.None? ==>
      Generate(model, config, run, slot).result == Err(PlainError(NoInputMessage)) && Generate(model, config, run, slot).call.None?
    ensures (config.hasInputs || config.messages.Some?) && run.abortedBefore ==>
      Generate(model, config, run, slot).result == Err(AbortError()) && Generate(model, config, run, slot).call.None?
    ensures Generate(model, config, run, slot).call.Some? <==> (config.hasInputs || config.messages.Some?) && !run.abortedBefore
  {
  }

  /** A runtime error surfaces as `AbortError` exactly when it looks like an abort. */
  lemma AbortNormalised(model: LoadedModel, config: GenerateConfig, run: Run, slot: Slot)
    requires (config.hasInputs || config.messages.Some?) && !run.abortedBefore && run.outcome.RuntimeThrows?
    ensures Generate(model, config, run, slot).result == Err(AbortError()) <==> LooksLikeAbort(run.outcome.error)
  {
    var e := run.outcome.error;
    if !LooksLikeAbort(e) {
      assert RuntimeError(e).name == "Error";
    }
  }

  /** "ABORTED by the runtime" and an `AbortError` name both count as aborts. */
  lemma AbortWordAnyCase()
    ensures LooksLikeAbort(ErrorInfo("Error", "ABORTED by the runtime", None))
    ensures LooksLikeAbort(ErrorInfo("AbortError", "", None))
    ensures !LooksLikeAbort(ErrorInfo("Error", "out of memory", None))
  {
    assert Lower("ABORTED by the runtime")[0..5] == "abort";
    assert OccursAt(Lower("ABORTED by the runtime"), "abort", 0);
    var m := Lower("out of memory");
    assert m == "out of memory";
    forall k | 0 <= k <= |m| - 5 ensures !OccursAt(m, "abort", k) {
      assert m[k] != 'a';
    }
    ContainsIff(m, "abort");
  }

  /** Without a parser, the messages are the whole output as one assistant message, and so is the text. */
  lemma ParserFallback(model: LoadedModel, config: GenerateConfig, run: Run, slot: Slot)
    requires model.parser.None?
    requires Generate(model, config, run, slot).result.Ok?
    ensures var g := Generate(model, config, run, slot).result.value;
      g.messages == [Message("assistant", run.decoded)] && g.text == run.decoded
      && g.reasoning.None? && g.sources.None?
  {
  }

  /** Usage adds up, and the total is the length of the output. */
  lemma UsageAddsUp(model: LoadedModel, config: GenerateConfig, run: Run, slot: Slot)
    requires Generate(model, config, run, slot).result.Ok?
    ensures var g := Generate(model, config, run, slot).result.value;
      g.usage.totalTokens == g.usage.promptTokens + g.usage.completionTokens
      && g.usage.totalTokens == |run.outcome.output.sequence.value|
      && g.tokenCount == g.usage.completionTokens
  {
  }

  /** After a success on a KV model whose output carries no cache, the slot reads as active although it holds nothing. */
  lemma UndefinedCacheCountsAsActive(model: LoadedModel, config: GenerateConfig, run: Run, slot: Slot)
    requires SupportsKV(model) && (config.hasInputs || config.messages.Some?) && !run.abortedBefore
    requires run.outcome.RuntimeReturns? && run.outcome.output.sequence.Some? && run.outcome.output.pastKeyValues.None?
    ensures Generate(model, config, run, slot).slot == UndefinedSlot
  {
  }
}
