/**
 * `TransformersProvider` of the newer package (`packages/wandler/providers/transformers.ts`):
 * the generic provider every unmatched model id falls back to. It loads the tokenizer and the
 * model instance side by side, forcing dtype `q4f16`, and lays its configured performance over
 * the detected one.
 */
module WandlerTransformersProvider {
  import opened Types
  import opened ProviderConfig
  import WandlerBase

  /** `baseConfig` */
  const BaseConfig: ModelConfig := ModelConfig(
    Some(AutoDtype), Some(AutoDevice),
    map["max_new_tokens" := Num(1024.0), "do_sample" := Flag(false), "temperature" := Num(1.0), "top_p" := Num(1.0)],
    FullPerformance(true, false, AutoDtype))

  /** `modelConfigs`: no model has an override. */
  const ModelConfigs: map<string, PartialConfig> := map[]

  /** Every path is configured with the base configuration: dtype and device `auto`, KV cache on. */
  lemma EveryPathUsesBase(path: string)
    ensures ConfigForModel(BaseConfig, ModelConfigs, path) == BaseConfig
    ensures ConfigForModel(BaseConfig, ModelConfigs, path).performance.supportsKVCache == Some(true)
  {
    ConfigWithoutOverride(BaseConfig, ModelConfigs, path);
  }

  /** `loadInstance(path, options)`: each of dtype and device is the option when given, else the configured one. */
  function InstanceRequestFor(path: string, options: ModelOptions): (req: InstanceRequest)
    ensures options.dtype.Some? ==> req.dtype == options.dtype
    ensures options.dtype.None? ==> req.dtype == ConfigForModel(BaseConfig, ModelConfigs, path).dtype
    ensures options.device.Some? ==> req.device == options.device
    ensures options.device.None? ==> req.device == ConfigForModel(BaseConfig, ModelConfigs, path).device
  {
    var c := ConfigForModel(BaseConfig, ModelConfigs, path);
    InstanceRequest(FirstOf(options.dtype, c.dtype), FirstOf(options.device, c.device))
  }

  /** `{ ...options, dtype: "q4f16" }`: what `loadModel` hands to both loaders. */
  function ForcedOptions(options: ModelOptions): (o: ModelOptions)
    ensures o.dtype == Some(Q4f16)
    ensures o.device == options.device && o.useWorker == options.useWorker && o.performance == options.performance
  {
    options.(dtype := Some(Q4f16))
  }

  /**
   * `loadModel(path, options)`. `tokenizer` and `instance` are the outcomes of the two loads
   * `Promise.all` waits for; both are started, so the instance is always asked for. When both
   * fail, `tokenizerFailsFirst` says which rejection settles first and so becomes the error.
   */
  function LoadModel(path: string, options: ModelOptions, tokenizer: Result<()>, instance: Result<()>, tokenizerFailsFirst: bool): (r: ProviderLoad)
    ensures r.request == Some(InstanceRequestFor(path, ForcedOptions(options)))
    ensures r.result.Ok? <==> tokenizer.Ok? && instance.Ok?
    ensures r.result.Err? ==> (tokenizer.Err? && r.result.error == tokenizer.error) || (instance.Err? && r.result.error == instance.error)
    ensures r.result.Ok? ==> r.result.value.id == path && r.result.value.provider == "transformers"
    ensures r.result.Ok? ==> r.result.value.generationConfig == BaseConfig.generationConfig
    ensures r.result.Ok? ==> r.result.value.performance == Spread(WandlerBase.DefaultDetection.performance, BaseConfig.performance)
    ensures r.result.Ok? ==> r.result.value.capabilities == WandlerBase.DefaultDetection.capabilities
    ensures r.result.Ok? ==> r.result.value.options.None? && r.result.value.parser.None?
  {
    var request := InstanceRequestFor(path, ForcedOptions(options));
    var loads := All2(tokenizer, instance, tokenizerFailsFirst);
    if loads.Err? then ProviderLoad(Some(request), Err(loads.error))
    else
      var config := ConfigForModel(BaseConfig, ModelConfigs, path);
      EveryPathUsesBase(path);
      ProviderLoad(Some(request), Ok(LoadedModel(path, "transformers", None, WandlerBase.DefaultDetection.capabilities,
        Spread(WandlerBase.DefaultDetection.performance, config.performance),
        config.generationConfig, None, true, true, None)))
  }

  /**
   * Whatever dtype the caller asks for, `loadModel` asks for the instance as `q4f16`; the
   * device follows the options, else the configured `auto`.
   */
  lemma LoadForcesQ4f16(path: string, options: ModelOptions, tokenizer: Result<()>, instance: Result<()>, tokenizerFailsFirst: bool)
    ensures InstanceRequestFor(path, ForcedOptions(options)).dtype == Some(Q4f16)
    ensures InstanceRequestFor(path, ForcedOptions(options)).device == FirstOf(options.device, Some(AutoDevice))
    ensures LoadModel(path, options, tokenizer, instance, tokenizerFailsFirst).request
      == Some(InstanceRequest(Some(Q4f16), FirstOf(options.device, Some(AutoDevice))))
  {
    EveryPathUsesBase(path);
  }

  /** A loaded model always has the KV cache on, no grouped-query attention and dtype `auto`. */
  lemma LoadedPerformance(path: string, options: ModelOptions, tokenizerFailsFirst: bool)
    ensures var r := LoadModel(path, options, Ok(()), Ok(()), tokenizerFailsFirst).result;
      r.Ok? && r.value.performance == FullPerformance(true, false, AutoDtype) && SupportsKV(r.value)
  {
  }
}
