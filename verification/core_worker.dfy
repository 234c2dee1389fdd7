/**
 * The worker script of the older package (`packages/core/worker/worker.ts`). It loads the
 * tokenizer and the model itself (dtype from the performance hints or `auto`, device from the
 * options or `webgpu`), keeps the model and its own `past_key_values_cache` in module-level
 * state, and answers `load`, `generate`, `stream` and `terminate` messages with frames; any
 * failure is answered with a `{message, name, code}` error frame under the request's id.
 *
 * The two loads, the warm-up, the runtime, the decoded text and the tokens streamed are inputs.
 */
module CoreWorker {
  import opened Types
  import opened Protocol
  import opened Runtime
  import WandlerWorker

  /** `WorkerOptions`: what `loadModel` reads from the `load` message's options. */
  datatype WorkerOptions = WorkerOptions(
    generationConfig: Option<map<string, Value>>,
    performance: Option<Performance>,
    device: Option<Device>)

  const NoWorkerOptions: WorkerOptions := WorkerOptions(None, None, None)

  /** This package's `WorkerMessage`; `config` holds the payload's sampling fields. */
  datatype WorkerMessage = WorkerMessage(
    kind: RequestKind,
    modelPath: Option<string>,
    options: Option<WorkerOptions>,
    messages: Option<seq<Message>>,
    config: map<string, Value>,
    id: string)

  const NoSequencesMessage: string := "No sequences in model output"
  const LoadFailurePrefix: string := "Failed to load model: "

  const DefaultPerformance: Performance := FullPerformance(true, false, AutoDtype)

  // ---------------------------------------------------------------- loading

  /** The dtype and device `AutoModelForCausalLM.from_pretrained` is called with. */
  datatype LoadCall = LoadCall(dtype: Dtype, device: Device)

  /** What the world answers during `loadModel`: the two loads `Promise.all` waits for, and the warm-up. */
  datatype LoadWorld = LoadWorld(tokenizer: Result<()>, instance: Result<()>, tokenizerFailsFirst: bool, warmup: Result<()>)

  /** `options.performance?.recommendedDtype || "auto"` and `options.device || "webgpu"`. */
  function LoadCallFor(options: WorkerOptions): (c: LoadCall)
    ensures options.performance.Some? && options.performance.value.recommendedDtype.Some? ==>
      c.dtype == options.performance.value.recommendedDtype.value
    ensures (options.performance.None? || options.performance.value.recommendedDtype.None?) ==> c.dtype == AutoDtype
    ensures c.device == OrElse(options.device, WebGpu)
  {
    LoadCall(if options.performance.Some? then OrElse(options.performance.value.recommendedDtype, AutoDtype) else AutoDtype,
      OrElse(options.device, WebGpu))
  }

  /** The model `loadModel` builds once both loads resolve. */
  function Built(path: string, options: WorkerOptions): (m: LoadedModel)
    ensures m.id == path && m.provider == "worker" && m.hasTokenizer && m.hasInstance
    ensures m.capabilities == Capabilities(Some(true), Some(false), Some(false), Some(false), Some(false))
    ensures m.performance == OrElse(options.performance, DefaultPerformance)
    ensures m.generationConfig == OrElse(options.generationConfig, map[])
  {
    LoadedModel(path, "worker", None, Capabilities(Some(true), Some(false), Some(false), Some(false), Some(false)),
      OrElse(options.performance, DefaultPerformance), OrElse(options.generationConfig, map[]), None, true, true, None)
  }

  /** `createSerializableModel(model)`: the capabilities as they are, no tokenizer, no instance, no generation config. */
  function Serializable(m: LoadedModel): (s: LoadedModel)
    ensures s.id == m.id && s.provider == "worker" && s.capabilities == m.capabilities && s.performance == m.performance
    ensures !s.hasTokenizer && !s.hasInstance && s.generationConfig == map[]
  {
    LoadedModel(m.id, "worker", None, m.capabilities, m.performance, map[], None, false, false, None)
  }

  /** Every load failure is rethrown with this prefix. */
  function LoadFailure(e: ErrorInfo): ErrorInfo
  {
    PlainError(LoadFailurePrefix + e.message)
  }

  /** How `loadModel` ends: the module-level `model` afterwards, the reply and the instance load's settings. */
  datatype LoadEnd = LoadEnd(model: Option<LoadedModel>, reply: Result<LoadedModel>, call: LoadCall)

  /** `loadModel(modelPath, options)` from module-level `model` `current`. */
  function Load(current: Option<LoadedModel>, path: string, options: WorkerOptions, w: LoadWorld): LoadEnd
  {
    var call := LoadCallFor(options);
    var loads := All2(w.tokenizer, w.instance, w.tokenizerFailsFirst);
    if loads.Err? then LoadEnd(current, Err(LoadFailure(loads.error)), call)
    else
      var m := Built(path, options);
      if w.warmup.Err? then LoadEnd(Some(m), Err(LoadFailure(w.warmup.error)), call)
      else LoadEnd(Some(m), Ok(Serializable(m)), call)
  }

  /**
   * Without options a model loads as `auto` on `webgpu`, with the KV cache on and an empty
   * generation config; given performance hints, they are kept whole and their dtype is used.
   */
  lemma LoadDefaults(current: Option<LoadedModel>, path: string, w: LoadWorld)
    requires w.tokenizer.Ok? && w.instance.Ok?
    ensures var end := Load(current, path, NoWorkerOptions, w);
      end.call == LoadCall(AutoDtype, WebGpu)
      && end.model.Some? && SupportsKV(end.model.value) && end.model.value.generationConfig == map[]
  {
  }

  /**
   * A load answers with the model exactly when both loads and the warm-up succeed. A failure is
   * reported as `Failed to load model: <message>`; a failed load keeps the previous model, but a
   * failed warm-up leaves the new one in place.
   */
  lemma LoadOutcome(current: Option<LoadedModel>, path: string, options: WorkerOptions, w: LoadWorld)
    ensures var end := Load(current, path, options, w);
      (end.reply.Ok? <==> w.tokenizer.Ok? && w.instance.Ok? && w.warmup.Ok?)
      && (end.reply.Err? ==>
            end.reply.error.name == "Error" && end.reply.error.message[..|LoadFailurePrefix|] == LoadFailurePrefix)
      && (!(w.tokenizer.Ok? && w.instance.Ok?) ==> end.model == current)
      && (w.tokenizer.Ok? && w.instance.Ok? ==> end.model == Some(Built(path, options)))
      && (end.reply.Ok? ==> end.reply.value == Serializable(Built(path, options)))
  {
  }

  /** The failure reported is the tokenizer's or the instance's, whichever settles first. */
  lemma LoadFailureNamesCause(current: Option<LoadedModel>, path: string, options: WorkerOptions, w: LoadWorld)
    requires w.tokenizer.Err? || w.instance.Err?
    ensures var r := Load(current, path, options, w).reply;
      (w.tokenizer.Err? && r == Err(LoadFailure(w.tokenizer.error))) || (w.instance.Err? && r == Err(LoadFailure(w.instance.error)))
  {
  }

  // ------------------------------------------------------------- generation

  /**
   * What the runtime does for one `generate` or `stream` message: the outcome of `generate`, the
   * decoded first sequence, what `batch_decode` throws when handed no sequences, and the tokens
   * the streamer reports.
   */
  datatype Run = Run(outcome: RuntimeOutcome, decoded: string, decodeError: ErrorInfo, tokens: seq<string>)

  /** `generateText(messages, options)`: the runtime with the sampling options and no cache; the decoded text. */
  function GenerateText(model: Option<LoadedModel>, run: Run): (r: Result<string>)
    ensures !WandlerWorker.Ready(model) ==> r == Err(PlainError(WandlerWorker.NotLoadedMessage))
    ensures WandlerWorker.Ready(model) && run.outcome.RuntimeThrows? ==> r == Err(run.outcome.error)
    ensures WandlerWorker.Ready(model) && run.outcome.RuntimeReturns? && run.outcome.output.sequence.Some? ==> r == Ok(run.decoded)
  {
    if !WandlerWorker.Ready(model) then Err(PlainError(WandlerWorker.NotLoadedMessage))
    else
      match run.outcome
      case RuntimeThrows(e) => Err(e)
      case RuntimeReturns(output) => if output.sequence.None? then Err(run.decodeError) else Ok(run.decoded)
  }

  /** The flags `streamText` lays over every stream's options. */
  const StreamFlags: map<string, Value> := map["return_dict_in_generate" := Flag(true), "output_scores" := Flag(false)]

  /** The call `streamText` makes to `generate`: its options and, when the model has the KV cache, the cache given. */
  datatype StreamCall = StreamCall(config: map<string, Value>, cache: Option<Slot>)

  /** How `streamText` ends: the token frames posted, the decoded text or error, the slot afterwards and the call made. */
  datatype Streamed = Streamed(posted: seq<Frame>, result: Result<string>, slot: Slot, call: Option<StreamCall>)

  /** `streamText(messages, options)` from slot `slot`. */
  function StreamText(model: Option<LoadedModel>, options: map<string, Value>, run: Run, slot: Slot): Streamed
  {
    if !WandlerWorker.Ready(model) then Streamed([], Err(PlainError(WandlerWorker.NotLoadedMessage)), slot, None)
    else
      var m := model.value;
      var kv := IsTrue(m.performance.supportsKVCache);
      var call := StreamCall(m.generationConfig + options + StreamFlags, if kv then Some(slot) else None);
      var posted := WandlerWorker.TokenFrames(run.tokens);
      var cleared := if kv then NullSlot else slot;
      match run.outcome
      case RuntimeThrows(e) => Streamed(posted, Err(e), cleared, Some(call))
      case RuntimeReturns(output) =>
        if output.sequence.None? then Streamed(posted, Err(PlainError(NoSequencesMessage)), cleared, Some(call))
        else Streamed(posted, Ok(run.decoded), if kv then Stored(output.pastKeyValues) else slot, Some(call))
  }

  /**
   * The cache is handed to `generate` only when the model supports it; afterwards it holds the
   * output's cache on success and is emptied on failure, and without KV support it is never touched.
   */
  lemma StreamCacheDiscipline(model: Option<LoadedModel>, options: map<string, Value>, run: Run, slot: Slot)
    requires WandlerWorker.Ready(model)
    ensures var s := StreamText(model, options, run, slot);
      var kv := IsTrue(model.value.performance.supportsKVCache);
      s.call.Some? && (s.call.value.cache.Some? <==> kv) && (kv ==> s.call.value.cache == Some(slot))
      && (!kv ==> s.slot == slot)
      && (kv && s.result.Err? ==> s.slot == NullSlot)
      && (kv && s.result.Ok? ==> s.slot == Stored(run.outcome.output.pastKeyValues))
  {
  }

  /**
   * The options a stream runs with: the stream flags win, then the message's own fields, then
   * the model's generation config.
   */
  lemma StreamOptionsPrecedence(model: LoadedModel, payload: map<string, Value>, run: Run, slot: Slot, key: string)
    requires WandlerWorker.Ready(Some(model))
    ensures var c := StreamText(Some(model), model.generationConfig + payload, run, slot).call.value.config;
      (key in c <==> key in StreamFlags || key in payload || key in model.generationConfig)
      && (key in StreamFlags ==> c[key] == StreamFlags[key])
      && (key !in StreamFlags && key in payload ==> c[key] == payload[key])
      && (key !in StreamFlags && key !in payload && key in model.generationConfig ==> c[key] == model.generationConfig[key])
  {
  }

  // --------------------------------------------------------------- dispatch

  /** The worker's module-level state: the model and `past_key_values_cache`. */
  datatype State = State(model: Option<LoadedModel>, slot: Slot)

  /** What the world answers while one message is handled. */
  datatype World = World(load: LoadWorld, run: Run)

  /** The state after a message, the frames posted in order, and whether the worker closed itself. */
  datatype Reply = Reply(state: State, posted: seq<Frame>, closed: bool)

  function Failed(st: State, message: string, id: string): Reply
  {
    Reply(st, [WandlerWorker.Envelope(PlainError(message), id)], false)
  }

  /** The answer to a message once its handler settled with `result`. */
  function Answer(kind: FrameKind, result: Result<Payload>, id: string): Frame
  {
    if result.Ok? then Frame(kind, result.value, id) else WandlerWorker.Envelope(result.error, id)
  }

  /** `self.onmessage` for one message, from state `st`. */
  function Handle(st: State, message: WorkerMessage, w: World): Reply
  {
    var id := message.id;
    match message.kind
    case LoadRequest =>
      if message.modelPath.None? || message.modelPath.value == "" then Failed(st, WandlerWorker.NoPathMessage, id)
      else
        var end := Load(st.model, message.modelPath.value, OrElse(message.options, NoWorkerOptions), w.load);
        Reply(st.(model := end.model),
          [Answer(LoadedFrame, if end.reply.Ok? then Ok(ModelPayload(end.reply.value)) else Err(end.reply.error), id)], false)
    case GenerateRequest =>
      if message.messages.None? then Failed(st, WandlerWorker.NoMessagesMessage, id)
      else
        var r := GenerateText(st.model, w.run);
        Reply(st, [Answer(GeneratedFrame, if r.Ok? then Ok(TextPayload(r.value)) else Err(r.error), id)], false)
    case StreamRequest =>
      if message.messages.None? then Failed(st, WandlerWorker.NoMessagesMessage, id)
      else if st.model.None? then Failed(st, WandlerWorker.NotLoadedMessage, id)
      else
        var s := StreamText(st.model, st.model.value.generationConfig + message.config, w.run, st.slot);
        Reply(st.(slot := s.slot),
          s.posted + [Answer(GeneratedFrame, if s.result.Ok? then Ok(TextPayload(s.result.value)) else Err(s.result.error), id)], false)
    case TerminateRequest => Reply(st.(model := None), [], true)
    case ResetRequest => Failed(st, "Unknown message type: " + WandlerWorker.KindName(message.kind), id)
  }

  /** The worker: its module-level `model` and `past_key_values_cache`, and whether it has closed. */
  class Worker {
    var model: Option<LoadedModel>
    var cache: Slot
    var closed: bool

    constructor()
      ensures model.None? && cache == NullSlot && !closed
    {
      model := None;
      cache := NullSlot;
      closed := false;
    }

    /** `loadModel(modelPath, options)`; also returns the settings the instance was loaded with. */
    method LoadModel(path: string, options: WorkerOptions, w: LoadWorld) returns (reply: Result<LoadedModel>, call: LoadCall)
      modifies this
      ensures LoadEnd(model, reply, call) == Load(old(model), path, options, w)
      ensures cache == old(cache) && closed == old(closed)
    {
      call := LoadCallFor(options);
      var loads := All2(w.tokenizer, w.instance, w.tokenizerFailsFirst);
      if loads.Err? {
        return Err(LoadFailure(loads.error)), call;
      }
      var m := Built(path, options);
      model := Some(m);
      if w.warmup.Err? {
        return Err(LoadFailure(w.warmup.error)), call;
      }
      reply := Ok(Serializable(m));
    }

    /** `streamText(messages, options)`; also returns the call made to `generate`. */
    method HandleStream(options: map<string, Value>, run: Run) returns (posted: seq<Frame>, result: Result<string>, call: Option<StreamCall>)
      modifies this
      ensures Streamed(posted, result, cache, call) == StreamText(old(model), options, run, old(cache))
      ensures model == old(model) && closed == old(closed)
    {
      if !WandlerWorker.Ready(model) {
        return [], Err(PlainError(WandlerWorker.NotLoadedMessage)), None;
      }
      var m := model.value;
      var kv := IsTrue(m.performance.supportsKVCache);
      call := Some(StreamCall(m.generationConfig + options + StreamFlags, if kv then Some(cache) else None));
      posted := WandlerWorker.PostTokens(run.tokens);
      match run.outcome {
        case RuntimeThrows(e) =>
          result := Err(e);
        case RuntimeReturns(output) =>
          if kv {
            cache := Stored(output.pastKeyValues);
          }
          if output.sequence.None? {
            result := Err(PlainError(NoSequencesMessage));
          } else {
            result := Ok(run.decoded);
          }
      }
      if result.Err? && kv {
        cache := NullSlot;
      }
    }

    /** `self.onmessage`: handles one message and returns the frames posted, in order. */
    method OnMessage(message: WorkerMessage, w: World) returns (posted: seq<Frame>)
      requires !closed
      modifies this
      ensures Reply(State(model, cache), posted, closed) == Handle(State(old(model), old(cache)), message, w)
    {
      var id := message.id;
      match message.kind {
        case LoadRequest =>
          if message.modelPath.None? || message.modelPath.value == "" {
            return [WandlerWorker.Envelope(PlainError(WandlerWorker.NoPathMessage), id)];
          }
          var reply, _ := LoadModel(message.modelPath.value, OrElse(message.options, NoWorkerOptions), w.load);
          posted := [Answer(LoadedFrame, if reply.Ok? then Ok(ModelPayload(reply.value)) else Err(reply.error), id)];
        case GenerateRequest =>
          if message.messages.None? {
            return [WandlerWorker.Envelope(PlainError(WandlerWorker.NoMessagesMessage), id)];
          }
          var r := GenerateText(model, w.run);
          posted := [Answer(GeneratedFrame, if r.Ok? then Ok(TextPayload(r.value)) else Err(r.error), id)];
        case StreamRequest =>
          if message.messages.None? {
            return [WandlerWorker.Envelope(PlainError(WandlerWorker.NoMessagesMessage), id)];
          }
          if model.None? {
            return [WandlerWorker.Envelope(PlainError(WandlerWorker.NotLoadedMessage), id)];
          }
          var streamed, result, _ := HandleStream(model.value.generationConfig + message.config, w.run);
          posted := streamed + [Answer(GeneratedFrame, if result.Ok? then Ok(TextPayload(result.value)) else Err(result.error), id)];
        case TerminateRequest =>
          model := None;
          closed := true;
          posted := [];
        case ResetRequest =>
          posted := [WandlerWorker.Envelope(PlainError("Unknown message type: " + WandlerWorker.KindName(message.kind)), id)];
      }
    }
  }

  // ---------------------------------------------------------------- properties

  /**
   * Every message but `terminate` is answered, last, by one frame under its own id; every frame
   * before it is a token under `stream`. `terminate` posts nothing and closes the worker.
   */
  lemma EveryMessageAnswered(st: State, message: WorkerMessage, w: World)
    ensures var r := Handle(st, message, w);
      (message.kind == TerminateRequest ==> r.posted == [] && r.closed && r.state == State(None, st.slot))
      && (message.kind != TerminateRequest ==>
            r.posted != [] && !r.closed
            && r.posted[|r.posted| - 1].id == message.id
            && forall k :: 0 <= k < |r.posted| - 1 ==> r.posted[k] == WandlerWorker.TokenFrame(w.run.tokens[k]))
  {
  }

  /** Without a loaded model, `generate` and `stream` answer "Model not loaded" and neither the runtime nor the cache is touched. */
  lemma NothingRunsUnloaded(st: State, message: WorkerMessage, w: World)
    requires message.kind in {GenerateRequest, StreamRequest} && message.messages.Some?
    requires !WandlerWorker.Ready(st.model)
    ensures Handle(st, message, w) == Failed(st, WandlerWorker.NotLoadedMessage, message.id)
  {
  }

  /** `generate` runs without the cache and leaves it as it was; only `stream` reads and writes it. */
  lemma GenerateLeavesCache(st: State, message: WorkerMessage, w: World)
    requires message.kind in {GenerateRequest, LoadRequest, ResetRequest, TerminateRequest}
    ensures Handle(st, message, w).state.slot == st.slot
  {
  }

  /** Unlike the newer worker, a failing stream posts no error frame of its own: only the answer under the message's id. */
  lemma StreamFailureAnsweredOnce(st: State, message: WorkerMessage, w: World)
    requires message.kind == StreamRequest && message.messages.Some? && WandlerWorker.Ready(st.model)
    requires w.run.outcome.RuntimeThrows?
    ensures Handle(st, message, w).posted ==
      WandlerWorker.TokenFrames(w.run.tokens) + [WandlerWorker.Envelope(w.run.outcome.error, message.id)]
  {
  }
}
