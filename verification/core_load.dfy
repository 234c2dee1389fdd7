/**
 * `loadModel` of the older package (`packages/core/utils/load.ts`): a private copy of the
 * provider table (with its own shared instances), and delegation of the load to the first
 * matching provider, or to a new `TransformersProvider`.
 */
module CoreLoad {
  import opened Types
  import opened Strings
  import opened Registry
  import ProviderConfig
  import CoreBase
  import CoreDeepseek
  import CoreTransformersProvider

  /** `PROVIDER_REGISTRY` of this file; only the first pattern ignores case. */
  const Entries: seq<Entry> := [
    Entry(Pattern("onnx-community/deepseek", true), DeepseekProvider),
    Entry(Pattern("deepseek/", false), DeepseekProvider),
    Entry(Pattern("stabilityai/", false), TransformersProvider)]

  /** The provider `loadModel` delegates to. */
  function ProviderFor(path: string): (p: ProviderRef)
    ensures FindEntry(Entries, path).Some? ==>
      p == ProviderRef(Entries[FindEntry(Entries, path).value].kind, Shared(FindEntry(Entries, path).value))
    ensures FindEntry(Entries, path).None? ==> p == ProviderRef(TransformersProvider, Fresh)
    ensures p.kind != QwenProvider
  {
    match FindEntry(Entries, path)
    case Some(k) => ProviderRef(Entries[k].kind, Shared(k))
    case None => ProviderRef(TransformersProvider, Fresh)
  }

  /**
   * `loadModel(path, options)`: the chosen provider's `loadModel` with the same path and options;
   * the provider reads missing options as `{}`.
   */
  function LoadModel(path: string, options: Option<ModelOptions>, outcomes: CoreBase.LoadOutcomes): (r: ProviderLoad)
    ensures ProviderFor(path).kind == DeepseekProvider ==>
      r == CoreDeepseek.LoadModel(path, OrElse(options, DefaultOptions), outcomes)
    ensures ProviderFor(path).kind == TransformersProvider ==>
      r == CoreTransformersProvider.LoadModel(path, OrElse(options, DefaultOptions), outcomes)
  {
    var given := OrElse(options, DefaultOptions);
    match ProviderFor(path).kind
    case DeepseekProvider => CoreDeepseek.LoadModel(path, given, outcomes)
    case TransformersProvider => CoreTransformersProvider.LoadModel(path, given, outcomes)
    case QwenProvider => assert false; ProviderLoad(None, Err(PlainError("")))
  }

  /**
   * Whichever provider is chosen, the model load asks for the caller's dtype and device when
   * the caller gives them; without options the provider's configured dtype and device are used.
   */
  lemma CallerOptionsReachLoad(path: string, options: Option<ModelOptions>, outcomes: CoreBase.LoadOutcomes)
    requires outcomes.detected.Ok?
    ensures var r := LoadModel(path, options, outcomes);
      r.request.Some?
      && (options.Some? && options.value.dtype.Some? ==> r.request.value.dtype == options.value.dtype)
      && (options.Some? && options.value.device.Some? ==> r.request.value.device == options.value.device)
      && (options.None? && ProviderFor(path).kind == TransformersProvider ==>
            r.request.value == InstanceRequest(Some(AutoDtype), Some(WebGpu)))
      && (options.None? && ProviderFor(path).kind == DeepseekProvider ==>
            r.request.value == InstanceRequest(
              ProviderConfig.ConfigForModel(CoreDeepseek.BaseConfig, CoreDeepseek.ModelConfigs, path).dtype,
              ProviderConfig.ConfigForModel(CoreDeepseek.BaseConfig, CoreDeepseek.ModelConfigs, path).device))
  {
  }

  /** A loaded model keeps the requested id and names the provider the table picked for it. */
  lemma LoadedIdentity(path: string, options: Option<ModelOptions>, outcomes: CoreBase.LoadOutcomes)
    requires LoadModel(path, options, outcomes).result.Ok?
    ensures LoadModel(path, options, outcomes).result.value.id == path
    ensures LoadModel(path, options, outcomes).result.value.provider == (if ProviderFor(path).kind == DeepseekProvider then "deepseek" else "transformers")
  {
  }

  /** Only the first pattern ignores case: `Deepseek/…` is loaded by the default provider. */
  lemma DeepseekCaseSensitive()
    ensures ProviderFor("DeepSeek/r1") == ProviderRef(TransformersProvider, Fresh)
  {
    var d := "DeepSeek/r1";
    MismatchAt(Entries[0].pattern, d, 0);
    assert d[..9][0] != "deepseek/"[0];
    MismatchAt(Entries[2].pattern, d, 0);
  }

  /** The load fails exactly when detection or one of the two loads fails, whichever provider is used. */
  lemma LoadFailsIff(path: string, options: Option<ModelOptions>, outcomes: CoreBase.LoadOutcomes)
    ensures LoadModel(path, options, outcomes).result.Err? <==>
      outcomes.detected.Err? || outcomes.tokenizer.Err? || outcomes.instance.Err?
  {
  }
}
