/**
 * A provider's configuration (`ModelConfig`) and the merge both `BaseProvider` classes apply
 * in `getConfigForModel`: the per-model override replaces top-level fields, while
 * `generationConfig` and `performance` are merged key by key with the override winning.
 */
module ProviderConfig {
  import opened Types

  /** `ModelConfig` (the `deviceConfigs` field is never read and is not modelled). */
  datatype ModelConfig = ModelConfig(
    dtype: Option<Dtype>,
    device: Option<Device>,
    generationConfig: map<string, Value>,
    performance: Performance)

  /** `Partial<ModelConfig>`: one entry of `modelConfigs`; every field may be absent. */
  datatype PartialConfig = PartialConfig(
    dtype: Option<Dtype>,
    device: Option<Device>,
    generationConfig: Option<map<string, Value>>,
    performance: Option<Performance>)

  const NoOverride: PartialConfig := PartialConfig(None, None, None, None)

  /** `modelConfigs[path] || {}` */
  function OverrideFor(overrides: map<string, PartialConfig>, path: string): PartialConfig
  {
    if path in overrides then overrides[path] else NoOverride
  }

  /** `getConfigForModel(path)` for a provider with `baseConfig` = `base` and `modelConfigs` = `overrides`. */
  function ConfigForModel(base: ModelConfig, overrides: map<string, PartialConfig>, path: string): (r: ModelConfig)
    // top-level fields: the override's when it has one, the base's otherwise
    ensures r.dtype == if OverrideFor(overrides, path).dtype.Some? then OverrideFor(overrides, path).dtype else base.dtype
    ensures r.device == if OverrideFor(overrides, path).device.Some? then OverrideFor(overrides, path).device else base.device
    // generationConfig: the keys of both, the override's value winning
    ensures var o := OverrideFor(overrides, path).generationConfig;
      forall k :: k in r.generationConfig <==> k in base.generationConfig || (o.Some? && k in o.value)
    ensures var o := OverrideFor(overrides, path).generationConfig;
      forall k :: k in r.generationConfig ==>
        r.generationConfig[k] == if o.Some? && k in o.value then o.value[k] else base.generationConfig[k]
    // performance: field by field, the override's value winning
    ensures var o := OverrideFor(overrides, path).performance;
      r.performance.supportsKVCache ==
        if o.Some? && o.value.supportsKVCache.Some? then o.value.supportsKVCache else base.performance.supportsKVCache
    ensures var o := OverrideFor(overrides, path).performance;
      r.performance.groupedQueryAttention ==
        if o.Some? && o.value.groupedQueryAttention.Some? then o.value.groupedQueryAttention else base.performance.groupedQueryAttention
    ensures var o := OverrideFor(overrides, path).performance;
      r.performance.recommendedDtype ==
        if o.Some? && o.value.recommendedDtype.Some? then o.value.recommendedDtype else base.performance.recommendedDtype
  {
    var o := OverrideFor(overrides, path);
    ModelConfig(
      FirstOf(o.dtype, base.dtype),
      FirstOf(o.device, base.device),
      base.generationConfig + OrElse(o.generationConfig, map[]),
      Spread(base.performance, OrElse(o.performance, NoPerformance)))
  }

  /** A path without an override entry gets the base configuration unchanged. */
  lemma ConfigWithoutOverride(base: ModelConfig, overrides: map<string, PartialConfig>, path: string)
    requires path !in overrides
    ensures ConfigForModel(base, overrides, path) == base
  {
    var r := ConfigForModel(base, overrides, path);
    assert r.generationConfig == base.generationConfig;
  }

  /** `getGenerationConfig(path)`: the merged `generationConfig`. */
  function GenerationConfigFor(base: ModelConfig, overrides: map<string, PartialConfig>, path: string): (r: map<string, Value>)
    ensures forall k :: k in base.generationConfig ==> k in r
    ensures forall k :: k in r ==> k in base.generationConfig || k in OrElse(OverrideFor(overrides, path).generationConfig, map[])
  {
    ConfigForModel(base, overrides, path).generationConfig
  }

  /** `getModelPerformance(path)`: the merged `performance`. */
  function PerformanceFor(base: ModelConfig, overrides: map<string, PartialConfig>, path: string): (r: Performance)
    ensures OverrideFor(overrides, path).performance == None ==> r == base.performance
  {
    ConfigForModel(base, overrides, path).performance
  }
}
