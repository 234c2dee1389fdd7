/**
 * Generation settings of the older package (`packages/core/utils/generation-utils.ts`):
 * `prepareGenerationConfig` fills each sampling field from the caller's option, else the
 * model's `generationConfig`, else a constant, and `validateGenerationConfig` checks the
 * ranges in a fixed order, raising at the first failure.
 */
module GenerationUtils {
  import opened Types
  import opened Request

  /** The tool fields, present only for options that look like `streamText` options. */
  datatype ToolFields = ToolFields(tools: Option<seq<string>>, toolChoice: Option<string>, maxSteps: real)

  /** `GenerateConfig`; a `None` field is `undefined`. */
  datatype GenerateConfig = GenerateConfig(
    maxNewTokens: Option<Value>,
    temperature: Option<Value>,
    topP: Option<Value>,
    doSample: Option<bool>,
    repetitionPenalty: Option<Value>,
    stop: Option<seq<string>>,
    seed: Option<real>,
    toolFields: Option<ToolFields>)

  /** `option ?? model.generationConfig?.[key] ?? fallback` */
  function Pick(option: Option<real>, modelConfig: map<string, Value>, key: string, fallback: real): (v: Value)
    ensures option.Some? ==> v == Num(option.value)
    ensures option.None? && Field(modelConfig, key).Some? ==> v == modelConfig[key]
    ensures option.None? && Field(modelConfig, key).None? ==> v == Num(fallback)
    ensures v != Undefined
  {
    if option.Some? then Num(option.value)
    else match Field(modelConfig, key)
      case Some(x) => x
      case None => Num(fallback)
  }

  /** `isStreamTextOptions(options)`: the options object has a `tools`, `toolChoice` or `maxSteps` key. */
  predicate IsStreamTextOptions(options: GenerationOptions)
  {
    options.hasToolsKey || options.hasToolChoiceKey || options.hasMaxStepsKey
  }

  /** `prepareGenerationConfig(options)` for a model whose `generationConfig` is `modelConfig`. */
  function PrepareGenerationConfig(options: GenerationOptions, modelConfig: map<string, Value>): (c: GenerateConfig)
    ensures c.maxNewTokens == Some(Pick(options.maxTokens, modelConfig, "max_new_tokens", 1024.0))
    ensures c.temperature == Some(Pick(options.temperature, modelConfig, "temperature", 1.0))
    ensures c.topP == Some(Pick(options.topP, modelConfig, "top_p", 1.0))
    ensures c.repetitionPenalty == Some(Pick(options.frequencyPenalty, modelConfig, "repetition_penalty", 1.1))
    ensures c.doSample == Some(options.temperature.Some? || options.topP.Some?)
    ensures c.stop == options.stopSequences && c.seed == options.seed
    ensures c.toolFields.Some? <==> IsStreamTextOptions(options)
    ensures c.toolFields.Some? ==> c.toolFields.value == ToolFields(options.tools, options.toolChoice, OrElse(options.maxSteps, 1.0))
  {
    GenerateConfig(
      Some(Pick(options.maxTokens, modelConfig, "max_new_tokens", 1024.0)),
      Some(Pick(options.temperature, modelConfig, "temperature", 1.0)),
      Some(Pick(options.topP, modelConfig, "top_p", 1.0)),
      Some(options.temperature.Some? || options.topP.Some?),
      Some(Pick(options.frequencyPenalty, modelConfig, "repetition_penalty", 1.1)),
      options.stopSequences,
      options.seed,
      if IsStreamTextOptions(options) then Some(ToolFields(options.tools, options.toolChoice, OrElse(options.maxSteps, 1.0))) else None)
  }

  /** A model's own sampling settings never switch sampling on: only the caller's `temperature` or `topP` does. */
  lemma DoSampleIgnoresModel(options: GenerationOptions, a: map<string, Value>, b: map<string, Value>)
    ensures PrepareGenerationConfig(options, a).doSample == PrepareGenerationConfig(options, b).doSample
    ensures PrepareGenerationConfig(options, a).doSample == Some(true) <==> options.temperature.Some? || options.topP.Some?
  {
  }

  /** The repetition penalty is read from the caller's `frequencyPenalty`. */
  lemma PenaltyFromFrequency(options: GenerationOptions, modelConfig: map<string, Value>, p: real)
    requires options.frequencyPenalty == Some(p)
    ensures PrepareGenerationConfig(options, modelConfig).repetitionPenalty == Some(Num(p))
  {
  }

  /** With no option and nothing in the model's settings, the defaults are 1024, 1.0, 1.0 and 1.1. */
  lemma Defaults(options: GenerationOptions)
    requires options.maxTokens.None? && options.temperature.None? && options.topP.None? && options.frequencyPenalty.None?
    ensures var c := PrepareGenerationConfig(options, map[]);
      c.maxNewTokens == Some(Num(1024.0)) && c.temperature == Some(Num(1.0)) && c.topP == Some(Num(1.0))
      && c.repetitionPenalty == Some(Num(1.1)) && c.doSample == Some(false)
  {
  }

  const MaxTokensError: string := "max_new_tokens must be greater than 0"
  const TemperatureError: string := "temperature must be between 0 and 2"
  const TopPError: string := "top_p must be between 0 and 1"
  const PenaltyError: string := "repetition_penalty must be greater than or equal to 1"
  const MaxStepsError: string := "max_steps must be greater than 0"

  /**
   * The five checks, each true when the field is undefined or the comparison that throws does
   * not hold; a `NaN` value makes every comparison false and so passes.
   */
  predicate MaxTokensOk(c: GenerateConfig) { c.maxNewTokens.None? || !AtMost(c.maxNewTokens.value, 0.0) }
  predicate TemperatureOk(c: GenerateConfig) { c.temperature.None? || !(Less(c.temperature.value, 0.0) || Greater(c.temperature.value, 2.0)) }
  predicate TopPOk(c: GenerateConfig) { c.topP.None? || !(Less(c.topP.value, 0.0) || Greater(c.topP.value, 1.0)) }
  predicate PenaltyOk(c: GenerateConfig) { c.repetitionPenalty.None? || !Less(c.repetitionPenalty.value, 1.0) }
  predicate MaxStepsOk(c: GenerateConfig) { c.toolFields.None? || c.toolFields.value.maxSteps >= 1.0 }

  /** `validateGenerationConfig(config)`: the first failing check, in the order of the source. */
  function ValidateGenerationConfig(c: GenerateConfig): (r: Result<()>)
    ensures r.Ok? <==> MaxTokensOk(c) && TemperatureOk(c) && TopPOk(c) && PenaltyOk(c) && MaxStepsOk(c)
    ensures !MaxTokensOk(c) ==> r == Err(PlainError(MaxTokensError))
    ensures MaxTokensOk(c) && !TemperatureOk(c) ==> r == Err(PlainError(TemperatureError))
    ensures MaxTokensOk(c) && TemperatureOk(c) && !TopPOk(c) ==> r == Err(PlainError(TopPError))
    ensures MaxTokensOk(c) && TemperatureOk(c) && TopPOk(c) && !PenaltyOk(c) ==> r == Err(PlainError(PenaltyError))
    ensures MaxTokensOk(c) && TemperatureOk(c) && TopPOk(c) && PenaltyOk(c) && !MaxStepsOk(c) ==> r == Err(PlainError(MaxStepsError))
  {
    if !MaxTokensOk(c) then Err(PlainError(MaxTokensError))
    else if !TemperatureOk(c) then Err(PlainError(TemperatureError))
    else if !TopPOk(c) then Err(PlainError(TopPError))
    else if !PenaltyOk(c) then Err(PlainError(PenaltyError))
    else if !MaxStepsOk(c) then Err(PlainError(MaxStepsError))
    else Ok(())
  }

  /** The bounds are inclusive: temperature 0 and 2, `top_p` 0 and 1, penalty 1 and one step all pass. */
  lemma BoundsInclusive(t: real, p: real)
    requires t == 0.0 || t == 2.0
    requires p == 0.0 || p == 1.0
    ensures ValidateGenerationConfig(
      GenerateConfig(Some(Num(1.0)), Some(Num(t)), Some(Num(p)), Some(false), Some(Num(1.0)), None, None,
                     Some(ToolFields(None, None, 1.0)))).Ok?
  {
  }

  /** Undefined fields are never rejected. */
  lemma UndefinedAccepted()
    ensures ValidateGenerationConfig(GenerateConfig(None, None, None, None, None, None, None, None)).Ok?
  {
  }

  /**
   * A request with no sampling options, for a model whose settings hold numbers in range,
   * passes validation.
   */
  lemma PreparedFromModelValid(options: GenerationOptions, modelConfig: map<string, Value>)
    requires options.maxTokens.None? && options.temperature.None? && options.topP.None? && options.frequencyPenalty.None?
    requires options.maxSteps.None?
    requires Field(modelConfig, "max_new_tokens").Some? ==> !AtMost(modelConfig["max_new_tokens"], 0.0)
    requires Field(modelConfig, "temperature").Some? ==>
      !Less(modelConfig["temperature"], 0.0) && !Greater(modelConfig["temperature"], 2.0)
    requires Field(modelConfig, "top_p").Some? ==> !Less(modelConfig["top_p"], 0.0) && !Greater(modelConfig["top_p"], 1.0)
    requires Field(modelConfig, "repetition_penalty").Some? ==> !Less(modelConfig["repetition_penalty"], 1.0)
    ensures ValidateGenerationConfig(PrepareGenerationConfig(options, modelConfig)).Ok?
  {
  }

  /** A value that reads as `NaN`, such as a list of words, is never rejected: every comparison with it is false. */
  lemma NaNAccepted(w: seq<string>)
    requires w != []
    ensures ValidateGenerationConfig(
      GenerateConfig(Some(Words(w)), Some(Words(w)), Some(Words(w)), None, Some(Words(w)), None, None, None)).Ok?
  {
  }
}
