/**
 * Generation defaults of the newer package (`packages/wandler/utils/generation-defaults.ts`):
 * each sampling field is the caller's option, else the model's `generationConfig`, else a
 * constant; `createGenerationConfig` adds `stop` and `seed` and lays any extra settings on top.
 */
module GenerationDefaults {
  import opened Types

  /** The caller's `GenerationOptions`; a `None` field is `undefined`. */
  datatype SamplingOptions = SamplingOptions(
    maxNewTokens: Option<real>,
    temperature: Option<real>,
    topP: Option<real>,
    doSample: Option<bool>,
    repetitionPenalty: Option<real>,
    stop: Option<seq<string>>,
    seed: Option<real>)

  /** The five fields `getGenerationDefaults` always fills. */
  datatype Defaults = Defaults(maxNewTokens: Value, temperature: Value, topP: Value, doSample: bool, repetitionPenalty: Value)

  /** `option ?? model.generationConfig?.[key] ?? fallback` */
  function Fill(option: Option<real>, modelConfig: map<string, Value>, key: string, fallback: real): (v: Value)
    ensures option.Some? ==> v == Num(option.value)
    ensures option.None? && Field(modelConfig, key).Some? ==> v == modelConfig[key]
    ensures option.None? && Field(modelConfig, key).None? ==> v == Num(fallback)
  {
    if option.Some? then Num(option.value)
    else match Field(modelConfig, key)
      case Some(x) => x
      case None => Num(fallback)
  }

  /** `getGenerationDefaults(options, model)` */
  function GetGenerationDefaults(options: SamplingOptions, modelConfig: map<string, Value>): (d: Defaults)
    ensures d.maxNewTokens == Fill(options.maxNewTokens, modelConfig, "max_new_tokens", 100.0)
    ensures d.temperature == Fill(options.temperature, modelConfig, "temperature", 1.0)
    ensures d.topP == Fill(options.topP, modelConfig, "top_p", 1.0)
    ensures d.repetitionPenalty == Fill(options.repetitionPenalty, modelConfig, "repetition_penalty", 1.0)
    ensures options.doSample.Some? ==> d.doSample == options.doSample.value
    ensures options.doSample.None? ==> (d.doSample <==> options.temperature.Some? || options.topP.Some?)
  {
    Defaults(
      Fill(options.maxNewTokens, modelConfig, "max_new_tokens", 100.0),
      Fill(options.temperature, modelConfig, "temperature", 1.0),
      Fill(options.topP, modelConfig, "top_p", 1.0),
      if options.doSample.Some? then options.doSample.value else options.temperature.Some? || options.topP.Some?,
      Fill(options.repetitionPenalty, modelConfig, "repetition_penalty", 1.0))
  }

  /** With nothing given by the caller or the model: 100 new tokens, greedy decoding, no penalty. */
  lemma NothingGiven()
    ensures GetGenerationDefaults(SamplingOptions(None, None, None, None, None, None, None), map[])
      == Defaults(Num(100.0), Num(1.0), Num(1.0), false, Num(1.0))
  {
  }

  /** An explicit `do_sample` wins over the inference from `temperature` and `top_p`. */
  lemma ExplicitDoSampleWins(options: SamplingOptions, modelConfig: map<string, Value>, b: bool)
    requires options.doSample == Some(b)
    ensures GetGenerationDefaults(options, modelConfig).doSample == b
  {
  }

  /** The model's settings never change `do_sample`. */
  lemma DoSampleIgnoresModel(options: SamplingOptions, a: map<string, Value>, b: map<string, Value>)
    ensures GetGenerationDefaults(options, a).doSample == GetGenerationDefaults(options, b).doSample
  {
  }

  /** The defaults as a settings record. */
  function DefaultsRecord(d: Defaults): map<string, Value>
  {
    map["max_new_tokens" := d.maxNewTokens, "temperature" := d.temperature, "top_p" := d.topP,
        "do_sample" := Flag(d.doSample), "repetition_penalty" := d.repetitionPenalty]
  }

  /** An optional field as a record value. */
  function Optional<T>(o: Option<T>, f: T -> Value): Value
  {
    if o.Some? then f(o.value) else Undefined
  }

  /** `createGenerationConfig(options, model, additionalConfig)`: later keys overwrite earlier ones. */
  function CreateGenerationConfig(options: SamplingOptions, modelConfig: map<string, Value>, additional: map<string, Value>): (c: map<string, Value>)
    ensures c.Keys == DefaultsRecord(GetGenerationDefaults(options, modelConfig)).Keys + {"stop", "seed"} + additional.Keys
    ensures forall k :: k in additional ==> k in c && c[k] == additional[k]
    ensures "stop" !in additional ==> c["stop"] == Optional(options.stop, (s: seq<string>) => Words(s))
    ensures "seed" !in additional ==> c["seed"] == Optional(options.seed, (n: real) => Num(n))
    ensures forall k :: k in DefaultsRecord(GetGenerationDefaults(options, modelConfig)) && k !in additional ==>
      k in c && c[k] == DefaultsRecord(GetGenerationDefaults(options, modelConfig))[k]
  {
    DefaultsRecord(GetGenerationDefaults(options, modelConfig))
      ["stop" := Optional(options.stop, (s: seq<string>) => Words(s))]
      ["seed" := Optional(options.seed, (n: real) => Num(n))]
      + additional
  }

  /** With no extra settings, the record holds the five defaults, `stop` and `seed`, and nothing else. */
  lemma CreateWithoutExtras(options: SamplingOptions, modelConfig: map<string, Value>)
    ensures CreateGenerationConfig(options, modelConfig, map[]).Keys
      == {"max_new_tokens", "temperature", "top_p", "do_sample", "repetition_penalty", "stop", "seed"}
    ensures CreateGenerationConfig(options, modelConfig, map[])["max_new_tokens"]
      == GetGenerationDefaults(options, modelConfig).maxNewTokens
  {
  }
}
