/**
 * `BaseProvider` of the newer package (`packages/wandler/providers/base.ts`): progress
 * forwarding, the default capability result, the provider-name derivation and the default
 * `loadModel`, whose loader hooks a subclass is expected to override.
 */
module WandlerBase {
  import opened Types
  import opened Strings
  import opened ProviderConfig

  /** The `ProgressInfo` handed to the caller's `onProgress`. */
  datatype ProgressInfo = ProgressInfo(
    status: string, component: string, file: Option<string>, loaded: Option<real>, total: Option<real>)

  /**
   * `handleProgress(component, info, callback)`: the call made on the callback, if any.
   * Only `progress` events reach the callback, and only when one was supplied.
   */
  function HandleProgress(component: string, info: ProgressEvent, hasCallback: bool): (call: Option<ProgressInfo>)
    ensures call.Some? <==> hasCallback && info.status == "progress"
    ensures call.Some? ==> call.value.status == "progress" && call.value.component == component
    ensures call.Some? ==> call.value.file == info.file && call.value.loaded == info.loaded && call.value.total == info.total
  {
    if hasCallback && info.status == "progress" then
      Some(ProgressInfo("progress", component, info.file, info.loaded, info.total))
    else None
  }

  /** What `detectCapabilities` reports. */
  datatype Detection = Detection(capabilities: Capabilities, performance: Performance, config: map<string, Value>)

  /** The default `detectCapabilities`: text generation only, KV cache assumed, dtype `auto`. */
  const DefaultDetection: Detection := Detection(
    Capabilities(Some(true), Some(false), Some(false), Some(false), Some(false)),
    FullPerformance(true, false, AutoDtype),
    map[])

  /** `this.constructor.name.toLowerCase().replace("provider", "")` */
  function ProviderName(className: string): string
  {
    RemoveFirst(Lower(className), "provider")
  }

  /** `QwenProvider` is named `qwen`. */
  lemma QwenProviderName()
    ensures ProviderName("QwenProvider") == "qwen"
  {
    var q := Lower("QwenProvider");
    assert q == "qwenprovider";
    assert q[4..12] == "provider";
    forall j | 0 <= j < 4 ensures !OccursAt(q, "provider", j) {
      assert q[j] != 'p';
    }
    FirstOccurrence(q, "provider", 4);
    assert q[..4] + q[12..] == "qwen";
  }

  /** The class name lower-cased, one character at a time. */
  lemma LowerDeepseek()
    ensures Lower("DeepseekProvider") == "deepseekprovider"
  {
    var d := Lower("DeepseekProvider");
    forall i | 0 <= i < 16 ensures d[i] == "deepseekprovider"[i] {
      assert d[i] == LowerChar("DeepseekProvider"[i]);
    }
  }

  /** `DeepseekProvider` is named `deepseek`. */
  lemma DeepseekProviderName()
    ensures ProviderName("DeepseekProvider") == "deepseek"
  {
    var d := "deepseekprovider";
    LowerDeepseek();
    assert d[8..16] == "provider";
    forall j | 0 <= j < 8 ensures !OccursAt(d, "provider", j) {
      assert d[j] != 'p' || d[j + 1] != 'r';
    }
    FirstOccurrence(d, "provider", 8);
    assert d[..8] + d[16..] == "deepseek";
  }

  /** The base `loadTokenizer`, which subclasses are meant to override. */
  const TokenizerNotImplemented: ErrorInfo := PlainError("loadTokenizer not implemented")

  /** The base `loadInstance`, which subclasses are meant to override. */
  const InstanceNotImplemented: ErrorInfo := PlainError("loadInstance not implemented")

  /**
   * The default `loadModel(path, options)`: the tokenizer loads first, then the instance, then
   * the capabilities are detected. `tokenizer` and `instance` are the outcomes of the two
   * loader hooks. The handle carries no `options` and no `providerInstance`.
   */
  function LoadModel(className: string, base: ModelConfig, overrides: map<string, PartialConfig>,
                     path: string, tokenizer: Result<()>, instance: Result<()>): (r: Result<LoadedModel>)
    ensures tokenizer.Err? ==> r == Err(tokenizer.error)
    ensures tokenizer.Ok? && instance.Err? ==> r == Err(instance.error)
    ensures r.Ok? <==> tokenizer.Ok? && instance.Ok?
    ensures r.Ok? ==> r.value.id == path && r.value.provider == ProviderName(className)
    ensures r.Ok? ==> r.value.generationConfig == GenerationConfigFor(base, overrides, path)
    ensures r.Ok? ==> IsTrue(r.value.capabilities.textGeneration) && r.value.options.None? && r.value.parser.None?
  {
    if tokenizer.Err? then Err(tokenizer.error)
    else if instance.Err? then Err(instance.error)
    else
      Ok(LoadedModel(path, ProviderName(className), None, DefaultDetection.capabilities,
        DefaultDetection.performance, GenerationConfigFor(base, overrides, path), None, true, true, None))
  }

  /** A provider that keeps the base loader hooks can never load: the tokenizer hook throws first. */
  lemma InheritedLoadFails(className: string, base: ModelConfig, overrides: map<string, PartialConfig>, path: string)
    ensures LoadModel(className, base, overrides, path, Err(TokenizerNotImplemented), Err(InstanceNotImplemented))
      == Err(PlainError("loadTokenizer not implemented"))
  {
  }
}
