/**
 * Generation on the main thread in the older package (`packages/core/utils/transformers.ts`):
 * `generateWithTransformers` hands the module-level KV cache to the runtime when the model
 * supports it, stores the cache the runtime returns, clears it on any failure, and rethrows the
 * runtime's errors unchanged. It returns the decoded text and, when streaming, the number of
 * tokens generated.
 */
module CoreTransformers {
  import opened Types
  import opened Runtime

  const NoInputMessage: string := "Either inputs or messages must be provided"
  const NoSequencesMessage: string := "No sequences in model output"

  /** `GenerateConfig`, reduced to what this function reads. */
  datatype GenerateConfig = GenerateConfig(hasInputs: bool, messages: Option<seq<Message>>, hasStreamCallback: bool)

  /** What the world answers during one call: the prompt length, what `generate` does, and the decoded text. */
  datatype Run = Run(promptTokens: nat, outcome: RuntimeOutcome, decoded: string)

  /** `GenerateResult` */
  datatype Generated = Generated(result: string, pastKeyValues: Option<nat>, tokenCount: Option<int>)

  /** One call: the result, the slot afterwards, and the call made to `generate`, if one was made. */
  datatype Step = Step(result: Result<Generated>, slot: Slot, call: Option<RuntimeCall>)

  /** `generateWithTransformers(model, config)` from slot `slot`, as a specification. */
  function Generate(model: LoadedModel, config: GenerateConfig, run: Run, slot: Slot): Step
  {
    var cleared := if SupportsKV(model) then NullSlot else slot;
    if !config.hasInputs && config.messages.None? then
      Step(Err(PlainError(NoInputMessage)), cleared, None)
    else
      var call := Some(RuntimeCall(if SupportsKV(model) then Some(slot) else None));
      match run.outcome
      case RuntimeThrows(e) => Step(Err(e), cleared, call)
      case RuntimeReturns(output) =>
        if output.sequence.None? then Step(Err(PlainError(NoSequencesMessage)), cleared, call)
        else
          var count := if config.hasStreamCallback then Some(|output.sequence.value| - run.promptTokens) else None;
          Step(Ok(Generated(run.decoded, if SupportsKV(model) then output.pastKeyValues else None, count)),
               if SupportsKV(model) then Stored(output.pastKeyValues) else slot, call)
  }

  /** The module-level `past_key_values_cache`. */
  class KVCache {
    var slot: Slot

    constructor()
      ensures slot == NullSlot
    {
      slot := NullSlot;
    }

    /** `hasActiveKVCache()`: anything but `null` counts, `undefined` included. */
    function HasActiveKVCache(): (b: bool)
      reads this
      ensures b <==> slot != NullSlot
    {
      slot != NullSlot
    }

    /** `resetKVCache()` */
    method ResetKVCache()
      modifies this
      ensures slot == NullSlot && !HasActiveKVCache()
    {
      slot := NullSlot;
    }

    /** `generateWithTransformers(model, config)` */
    method GenerateWithTransformers(model: LoadedModel, config: GenerateConfig, run: Run)
      returns (result: Result<Generated>, call: Option<RuntimeCall>)
      modifies this
      ensures Step(result, slot, call) == Generate(model, config, run, old(slot))
    {
      call := None;
      if !config.hasInputs && config.messages.None? {
        result := Err(PlainError(NoInputMessage));
      } else {
        call := Some(RuntimeCall(if SupportsKV(model) then Some(slot) else None));
        match run.outcome {
          case RuntimeThrows(e) =>
            result := Err(e);
          case RuntimeReturns(output) =>
            if SupportsKV(model) {
              slot := Stored(output.pastKeyValues);
            }
            if output.sequence.None? {
              result := Err(PlainError(NoSequencesMessage));
            } else {
              var count := if config.hasStreamCallback then Some(|output.sequence.value| - run.promptTokens) else None;
              result := Ok(Generated(run.decoded, if SupportsKV(model) then output.pastKeyValues else None, count));
            }
        }
      }
      if result.Err? && SupportsKV(model) {
        slot := NullSlot;
      }
    }
  }

  /**
   * The slot follows the last call: with KV support, a success stores the output's cache and a
   * failure empties the slot; without it, the slot is never touched.
   */
  lemma SlotDiscipline(model: LoadedModel, config: GenerateConfig, run: Run, slot: Slot)
    ensures var s := Generate(model, config, run, slot);
      (!SupportsKV(model) ==> s.slot == slot)
      && (SupportsKV(model) && s.result.Err? ==> s.slot == NullSlot)
      && (SupportsKV(model) && s.result.Ok? ==> run.outcome.RuntimeReturns? && s.slot == Stored(run.outcome.output.pastKeyValues))
  {
  }

  /** The cache goes to `generate` only for a model that supports it, and it is the slot's current content. */
  lemma CachePassedOnlyWithKV(model: LoadedModel, config: GenerateConfig, run: Run, slot: Slot)
    ensures var s := Generate(model, config, run, slot);
      s.call.Some? ==> (s.call.value.cache.Some? <==> SupportsKV(model)) && (s.call.value.cache.Some? ==> s.call.value.cache.value == slot)
  {
  }

  /** A runtime error is rethrown as it is: this version neither wraps nor renames it. */
  lemma RuntimeErrorsPassThrough(model: LoadedModel, config: GenerateConfig, run: Run, slot: Slot)
    requires config.hasInputs || config.messages.Some?
    requires run.outcome.RuntimeThrows?
    ensures Generate(model, config, run, slot).result == Err(run.outcome.error)
    ensures Generate(model, config, run, slot).call.Some?
  {
  }

  /** The token count is reported exactly when streaming, and it is the output's length beyond the prompt. */
  lemma TokenCountOnlyWhenStreaming(model: LoadedModel, config: GenerateConfig, run: Run, slot: Slot)
    requires Generate(model, config, run, slot).result.Ok?
    ensures var g := Generate(model, config, run, slot).result.value;
      (g.tokenCount.Some? <==> config.hasStreamCallback)
      && (g.tokenCount.Some? ==> g.tokenCount.value + run.promptTokens == |run.outcome.output.sequence.value|)
      && g.result == run.decoded
      && (g.pastKeyValues.Some? ==> SupportsKV(model))
  {
  }
}
