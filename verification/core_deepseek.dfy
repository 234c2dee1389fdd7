/**
 * `DeepseekProvider` of the older package (`packages/core/providers/deepseek.ts`): its
 * configuration tables and `loadModel`, which detects capabilities first, then loads the
 * tokenizer and the model side by side with "option, else configured" dtype and device.
 */
module CoreDeepseek {
  import opened Types
  import opened ProviderConfig
  import CoreBase

  const DistillModel: string := "onnx-community/DeepSeek-R1-Distill-Qwen-1.5B-ONNX"

  /** `baseConfig` */
  const BaseConfig: ModelConfig := ModelConfig(
    Some(AutoDtype), Some(WebGpu),
    map["max_new_tokens" := Num(1024.0), "do_sample" := Flag(false), "temperature" := Num(1.0),
        "top_p" := Num(1.0), "repetition_penalty" := Num(1.1)],
    FullPerformance(true, false, AutoDtype))

  /** `modelConfigs` */
  const ModelConfigs: map<string, PartialConfig> := map[
    DistillModel := PartialConfig(
      Some(Q4f16), None,
      Some(map["max_new_tokens" := Num(2048.0), "temperature" := Num(0.7), "top_p" := Num(0.95)]),
      Some(Performance(Some(false), None, Some(Q4f16))))]

  /** The distilled R1 model turns the KV cache off although the base turns it on, and loads as `q4f16`. */
  lemma DistillConfig()
    ensures BaseConfig.performance.supportsKVCache == Some(true)
    ensures var c := ConfigForModel(BaseConfig, ModelConfigs, DistillModel);
      c.performance == FullPerformance(false, false, Q4f16)
      && c.dtype == Some(Q4f16) && c.device == Some(WebGpu)
      && c.generationConfig == map["max_new_tokens" := Num(2048.0), "do_sample" := Flag(false), "temperature" := Num(0.7),
                                   "top_p" := Num(0.95), "repetition_penalty" := Num(1.1)]
  {
    var o := ModelConfigs[DistillModel];
    assert OverrideFor(ModelConfigs, DistillModel) == o;
    DistillMerge();
  }

  /** The distilled model's generation settings laid over the base's. */
  lemma DistillMerge()
    ensures BaseConfig.generationConfig + ModelConfigs[DistillModel].generationConfig.value
      == map["max_new_tokens" := Num(2048.0), "do_sample" := Flag(false), "temperature" := Num(0.7),
             "top_p" := Num(0.95), "repetition_penalty" := Num(1.1)]
  {
  }

  /** Each of dtype and device is the option when given, else the merged configuration's. */
  function InstanceRequestFor(path: string, options: ModelOptions): (req: InstanceRequest)
    ensures options.dtype.Some? ==> req.dtype == options.dtype
    ensures options.dtype.None? ==> req.dtype == ConfigForModel(BaseConfig, ModelConfigs, path).dtype
    ensures options.device.Some? ==> req.device == options.device
    ensures options.device.None? ==> req.device == ConfigForModel(BaseConfig, ModelConfigs, path).device
  {
    var c := ConfigForModel(BaseConfig, ModelConfigs, path);
    InstanceRequest(FirstOf(options.dtype, c.dtype), FirstOf(options.device, c.device))
  }

  /**
   * `loadModel(path, options)` given what the library calls return: `outcomes.detected` is the
   * capability detection (its performance part is always `CoreBase`'s constant), then the two loads.
   * Once detection succeeds, the model load is asked for with the options' dtype and device, else
   * the configured ones.
   */
  function LoadModel(path: string, options: ModelOptions, outcomes: CoreBase.LoadOutcomes): (r: ProviderLoad)
    ensures outcomes.detected.Err? ==> r == ProviderLoad(None, Err(outcomes.detected.error))
    ensures outcomes.detected.Ok? ==> r.request == Some(InstanceRequestFor(path, options))
    ensures r.result.Ok? <==> outcomes.detected.Ok? && outcomes.tokenizer.Ok? && outcomes.instance.Ok?
    ensures r.result.Ok? ==> r.result.value.id == path && r.result.value.provider == "deepseek"
    ensures r.result.Ok? ==> r.result.value.capabilities == outcomes.detected.value
    ensures r.result.Ok? ==>
      r.result.value.performance == Spread(CoreBase.DetectedPerformance, ConfigForModel(BaseConfig, ModelConfigs, path).performance)
    ensures r.result.Ok? ==> r.result.value.generationConfig == ConfigForModel(BaseConfig, ModelConfigs, path).generationConfig
  {
    if outcomes.detected.Err? then ProviderLoad(None, Err(outcomes.detected.error))
    else
      var config := ConfigForModel(BaseConfig, ModelConfigs, path);
      var request := InstanceRequest(FirstOf(options.dtype, config.dtype), FirstOf(options.device, config.device));
      var loads := All2(outcomes.tokenizer, outcomes.instance, outcomes.tokenizerFailsFirst);
      if loads.Err? then ProviderLoad(Some(request), Err(loads.error))
      else
        ProviderLoad(Some(request), Ok(LoadedModel(path, "deepseek", None, outcomes.detected.value,
          Spread(CoreBase.DetectedPerformance, config.performance), config.generationConfig, None, true, true, None)))
  }

  /** The distilled model comes back without KV cache support; any other id keeps the detected `true`. */
  lemma LoadedKVCache(path: string, options: ModelOptions, outcomes: CoreBase.LoadOutcomes)
    requires LoadModel(path, options, outcomes).result.Ok?
    ensures SupportsKV(LoadModel(path, options, outcomes).result.value) <==> path != DistillModel
  {
    if path == DistillModel {
      DistillConfig();
    } else {
      ConfigWithoutOverride(BaseConfig, ModelConfigs, path);
    }
  }
}
