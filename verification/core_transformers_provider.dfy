/**
 * `TransformersProvider` of the older package (`packages/core/providers/transformers.ts`):
 * one fixed configuration for every model, "option, else constant" dtype and device, and the
 * detected performance passed through unchanged.
 */
module CoreTransformersProvider {
  import opened Types
  import CoreBase

  /** `this.modelConfig.generationConfig` */
  const GenerationConfig: map<string, Value> :=
    map["max_new_tokens" := Num(1024.0), "do_sample" := Flag(false), "temperature" := Num(1.0), "top_p" := Num(1.0)]

  /** `getGenerationConfig(path)`: the same object whatever the path. */
  function GetGenerationConfig(path: string): (r: map<string, Value>)
    ensures r == GenerationConfig
  {
    GenerationConfig
  }

  /** `getModelPerformance(path)`: KV cache on, no grouped-query attention, the configured dtype `auto`. */
  function GetModelPerformance(path: string): (r: Performance)
    ensures r == FullPerformance(true, false, AutoDtype)
  {
    FullPerformance(true, false, AutoDtype)
  }

  /** dtype is the option or `auto`; device is the option or `webgpu`. */
  function InstanceRequestFor(options: ModelOptions): (req: InstanceRequest)
    ensures req.dtype.Some? && req.device.Some?
    ensures options.dtype.Some? ==> req.dtype == options.dtype
    ensures options.dtype.None? ==> req.dtype == Some(AutoDtype)
    ensures options.device.Some? ==> req.device == options.device
    ensures options.device.None? ==> req.device == Some(WebGpu)
  {
    InstanceRequest(Some(OrElse(options.dtype, AutoDtype)), Some(OrElse(options.device, WebGpu)))
  }

  /**
   * `loadModel(path, options)` given the outcomes of detection and of the two loads. Once
   * detection succeeds, the model load is asked for with the options' dtype and device, else
   * `auto` and `webgpu`.
   */
  function LoadModel(path: string, options: ModelOptions, outcomes: CoreBase.LoadOutcomes): (r: ProviderLoad)
    ensures outcomes.detected.Err? ==> r == ProviderLoad(None, Err(outcomes.detected.error))
    ensures outcomes.detected.Ok? ==> r.request == Some(InstanceRequestFor(options))
    ensures r.result.Ok? <==> outcomes.detected.Ok? && outcomes.tokenizer.Ok? && outcomes.instance.Ok?
    ensures r.result.Ok? ==> r.result.value.id == path && r.result.value.provider == "transformers"
    ensures r.result.Ok? ==> r.result.value.capabilities == outcomes.detected.value
    ensures r.result.Ok? ==> r.result.value.performance == CoreBase.DetectedPerformance
    ensures r.result.Ok? ==> r.result.value.generationConfig == GenerationConfig
  {
    if outcomes.detected.Err? then ProviderLoad(None, Err(outcomes.detected.error))
    else
      var request := InstanceRequest(Some(OrElse(options.dtype, AutoDtype)), Some(OrElse(options.device, WebGpu)));
      var loads := All2(outcomes.tokenizer, outcomes.instance, outcomes.tokenizerFailsFirst);
      if loads.Err? then ProviderLoad(Some(request), Err(loads.error))
      else
        ProviderLoad(Some(request), Ok(LoadedModel(path, "transformers", None, outcomes.detected.value,
          CoreBase.DetectedPerformance, GenerationConfig, None, true, true, None)))
  }
}
