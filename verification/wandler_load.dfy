/**
 * `loadModel` of the newer package (`packages/wandler/utils/load.ts`): it loads through a worker
 * when one is wanted and available, sending a `load` message whose performance hints default to
 * "no KV cache", and falls back to the provider on the main thread only when asked to.
 *
 * Creating the worker, the reply to the `load` message and the provider's two loads are
 * inputs; the worker manager and the bridge that produce them are modelled on their own.
 */
module WandlerLoad {
  import opened Types
  import opened Protocol
  import Registry
  import WandlerRegistry
  import WandlerQwen
  import WandlerDeepseek
  import WandlerTransformersProvider
  import WandlerWorkerManager
  import Bridge

  /** The performance hints of a `load` message before the caller's are laid over them. */
  const LoadPerformanceDefaults: Performance := FullPerformance(false, false, AutoDtype)

  /** `{supportsKVCache: false, groupedQueryAttention: false, recommendedDtype: "auto", ...performance}` */
  function LoadPerformance(options: ModelOptions): (p: Performance)
    ensures options.performance.None? ==> p == LoadPerformanceDefaults
    ensures options.performance.Some? ==>
      p.supportsKVCache == FirstOf(options.performance.value.supportsKVCache, Some(false))
      && p.groupedQueryAttention == FirstOf(options.performance.value.groupedQueryAttention, Some(false))
      && p.recommendedDtype == FirstOf(options.performance.value.recommendedDtype, Some(AutoDtype))
    ensures p.supportsKVCache.Some? && p.groupedQueryAttention.Some? && p.recommendedDtype.Some?
  {
    Spread(LoadPerformanceDefaults, OrElse(options.performance, NoPerformance))
  }

  /** The `load` message: the caller's options without `onProgress`, with the completed performance hints. */
  function LoadMessage(path: string, options: ModelOptions, time: string): (m: Request)
    ensures m.kind == LoadRequest && m.modelPath == Some(path) && m.id == "load-" + time
    ensures m.options.Some? && !m.options.value.hasOnProgress
    ensures m.options.value.performance == Some(LoadPerformance(options))
    ensures m.options.value.(hasOnProgress := options.hasOnProgress, performance := options.performance) == options
  {
    Request(LoadRequest, Some(path), Some(options.(hasOnProgress := false, performance := Some(LoadPerformance(options)))),
      None, map[], "load-" + time)
  }

  /** `options.useWorker ?? workerManager.canUseWorker()` */
  function UseWorker(options: ModelOptions, env: WandlerWorkerManager.Environment): (b: bool)
    ensures options.useWorker.Some? ==> b == options.useWorker.value
    ensures options.useWorker.None? ==> b == WandlerWorkerManager.CanUseWorker(env)
  {
    if options.useWorker.Some? then options.useWorker.value else WandlerWorkerManager.CanUseWorker(env)
  }

  /** The handler `loadModel` installs when `onProgress` is given: it passes on the payload of `progress` frames only. */
  function ForwardProgress(frame: Frame): (call: Option<Payload>)
    ensures call.Some? <==> frame.kind == ProgressFrame
    ensures call.Some? ==> call.value == frame.payload
  {
    if frame.kind == ProgressFrame then Some(frame.payload) else None
  }

  /** What the environment answers: the worker's creation, the reply to `load`, and the provider's two loads. */
  datatype LoadInputs = LoadInputs(
    env: WandlerWorkerManager.Environment,
    worker: Result<()>,
    time: string,
    reply: Bridge.Settlement,
    tokenizer: Result<()>,
    instance: Result<()>,
    tokenizerFailsFirst: bool)

  /**
   * A run of `loadModel`: its outcome, the message sent to the worker, whether a progress
   * handler was installed, whether the provider loaded on the main thread, and the model
   * instance the main thread asked for.
   */
  datatype LoadRun = LoadRun(result: Outcome<LoadedModel>, sent: Option<Request>, progressHandler: bool, mainThread: bool,
                             request: Option<InstanceRequest>)

  /**
   * `getProvider(modelPath).loadModel(modelPath, options)`: the load of whichever provider the
   * registry picks, given the outcomes of the tokenizer and instance loads. The Qwen and
   * DeepSeek providers throw in the inherited tokenizer hook before any instance is asked for.
   */
  function RegistryLoad(path: string, options: ModelOptions, tokenizer: Result<()>, instance: Result<()>, tokenizerFailsFirst: bool): ProviderLoad
  {
    match WandlerRegistry.GetProvider(path).kind
    case QwenProvider => ProviderLoad(None, WandlerQwen.LoadModel(path))
    case DeepseekProvider => ProviderLoad(None, WandlerDeepseek.LoadModel(path))
    case TransformersProvider =>
      WandlerTransformersProvider.LoadModel(path, options, tokenizer, instance, tokenizerFailsFirst)
  }

  /** `provider.loadModel(modelPath, options)` on the main thread, with the caller's options. */
  function MainThreadLoad(path: string, options: ModelOptions, inputs: LoadInputs): ProviderLoad
  {
    RegistryLoad(path, options, inputs.tokenizer, inputs.instance, inputs.tokenizerFailsFirst)
  }

  /** `loadModel(modelPath, options)`. A load request is answered with the model, or rejected. */
  function LoadModel(path: string, options: ModelOptions, inputs: LoadInputs): (run: LoadRun)
    requires inputs.reply.Resolved? ==> inputs.reply.frame.payload.ModelPayload?
    ensures !UseWorker(options, inputs.env) ==>
      run == LoadRun(FromResult(MainThreadLoad(path, options, inputs).result), None, false, true, MainThreadLoad(path, options, inputs).request)
    ensures UseWorker(options, inputs.env) && inputs.worker.Ok? ==>
      run.sent == Some(LoadMessage(path, options, inputs.time)) && run.progressHandler == options.hasOnProgress
    ensures UseWorker(options, inputs.env) && inputs.worker.Ok? && inputs.reply.Resolved? && inputs.reply.frame.kind != ErrorFrame ==>
      run.result == Done(inputs.reply.frame.payload.model.(worker := Some(WorkerLink(true)))) && !run.mainThread
    ensures run.mainThread <==> !UseWorker(options, inputs.env) || (options.fallback && WorkerFailed(inputs))
    ensures run.mainThread ==> run.result == FromResult(MainThreadLoad(path, options, inputs).result)
    ensures run.mainThread ==> run.request == MainThreadLoad(path, options, inputs).request
    ensures !run.mainThread ==> run.request.None?
    ensures UseWorker(options, inputs.env) && !options.fallback && inputs.worker.Err? ==>
      run.result == Thrown(ErrorPayload(inputs.worker.error, true))
    ensures UseWorker(options, inputs.env) && !options.fallback && inputs.worker.Ok? && inputs.reply.Rejected? ==>
      run.result == Thrown(inputs.reply.error)
  {
    var main := MainThreadLoad(path, options, inputs);
    if !UseWorker(options, inputs.env) then
      LoadRun(FromResult(main.result), None, false, true, main.request)
    else
      var sent := if inputs.worker.Ok? then Some(LoadMessage(path, options, inputs.time)) else None;
      var handler := inputs.worker.Ok? && options.hasOnProgress;
      var attempt: Outcome<LoadedModel> :=
        if inputs.worker.Err? then Thrown(ErrorPayload(inputs.worker.error, true))
        else match inputs.reply
          case Rejected(error) => Thrown(error)
          case Resolved(frame) =>
            if frame.kind == ErrorFrame then Thrown(frame.payload)
            else Done(frame.payload.model.(worker := Some(WorkerLink(true))));
      if attempt.Thrown? && options.fallback then
        LoadRun(FromResult(main.result), sent, handler, true, main.request)
      else
        LoadRun(attempt, sent, handler, false, None)
  }

  /** Whether the worker path ends in an error. */
  predicate WorkerFailed(inputs: LoadInputs)
  {
    inputs.worker.Err? || inputs.reply.Rejected? || inputs.reply.frame.kind == ErrorFrame
  }

  /** Without a caller performance, a worker loads with the KV cache off; the caller's hints win key by key. */
  lemma WorkerLoadsWithoutKV(path: string, options: ModelOptions, time: string)
    requires options.performance.None? || options.performance.value.supportsKVCache.None?
    ensures LoadMessage(path, options, time).options.value.performance.value.supportsKVCache == Some(false)
  {
  }

  /** An explicit `useWorker` decides the route whatever the environment offers. */
  lemma ExplicitRoute(path: string, options: ModelOptions, inputs: LoadInputs, env: WandlerWorkerManager.Environment)
    requires inputs.reply.Resolved? ==> inputs.reply.frame.payload.ModelPayload?
    requires options.useWorker == Some(false)
    ensures LoadModel(path, options, inputs).mainThread
    ensures LoadModel(path, options, inputs) == LoadModel(path, options, inputs.(env := env))
    ensures LoadModel(path, options, inputs).sent.None?
  {
  }

  /** A worker-path failure surfaces unchanged unless `fallback` is set; with it, the main-thread load decides. */
  lemma FallbackOnlyWhenAsked(path: string, options: ModelOptions, inputs: LoadInputs)
    requires inputs.reply.Resolved? ==> inputs.reply.frame.payload.ModelPayload?
    requires UseWorker(options, inputs.env) && WorkerFailed(inputs)
    ensures !options.fallback ==> LoadModel(path, options, inputs).result.Thrown?
    ensures options.fallback ==> LoadModel(path, options, inputs).result == FromResult(MainThreadLoad(path, options, inputs).result)
  {
  }

  /** On the main thread, Qwen and DeepSeek ids cannot load: those providers inherit the base `loadTokenizer`, which throws. */
  lemma MainThreadQwenFails(path: string, options: ModelOptions, inputs: LoadInputs)
    requires WandlerRegistry.GetProvider(path).kind != Registry.TransformersProvider
    ensures MainThreadLoad(path, options, inputs) == ProviderLoad(None, Err(PlainError("loadTokenizer not implemented")))
  {
  }

  /**
   * A load that ends on the main thread hands the caller's options to the provider: the
   * default provider asks for the instance as `q4f16` whatever dtype the caller gave, on the
   * caller's device, else `auto`; the Qwen and DeepSeek providers ask for no instance.
   */
  lemma CallerOptionsReachLoad(path: string, options: ModelOptions, inputs: LoadInputs)
    requires inputs.reply.Resolved? ==> inputs.reply.frame.payload.ModelPayload?
    requires LoadModel(path, options, inputs).mainThread
    ensures WandlerRegistry.GetProvider(path).kind == Registry.TransformersProvider ==>
      LoadModel(path, options, inputs).request == Some(InstanceRequest(Some(Q4f16), FirstOf(options.device, Some(AutoDevice))))
    ensures WandlerRegistry.GetProvider(path).kind != Registry.TransformersProvider ==>
      LoadModel(path, options, inputs).request.None?
  {
    WandlerTransformersProvider.LoadForcesQ4f16(path, options, inputs.tokenizer, inputs.instance, inputs.tokenizerFailsFirst);
  }
}
