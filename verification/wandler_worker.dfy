/**
 * The worker script of the newer package (`packages/wandler/worker/worker.ts`). It keeps one
 * model (and, through `generateWithTransformers`, the KV cache) in module-level state and
 * answers each message from the main thread with frames: `load` loads through the provider the
 * registry picks, warms the model up and replies with a serialisable copy; `generate` replies with
 * the whole result; `stream` posts each token under the id `stream` and then a completion frame;
 * `terminate` drops the model and closes the worker. Any failure is answered with an error frame
 * carrying `{message, name, code}` under the request's id.
 *
 * The provider's loads, the warm-up, the runtime and the tokens it streams are inputs.
 */
module WandlerWorker {
  import opened Types
  import opened Strings
  import opened Protocol
  import opened Runtime
  import Registry
  import WandlerRegistry
  import WandlerLoad
  import WandlerTransformers
  import WandlerStreamText

  const NotLoadedMessage: string := "Model not loaded"
  const NoPathMessage: string := "Model path is required"
  const NoMessagesMessage: string := "Messages are required"
  const NoTextGenerationMessage: string := "Model does not support text generation"
  const UnauthorizedMarker: string := "Unauthorized access to file"
  const FetchMarker: string := "Failed to fetch"

  /** The `type` field of a message, as the unknown-type error prints it. */
  function KindName(kind: RequestKind): string
  {
    match kind
    case LoadRequest => "load"
    case GenerateRequest => "generate"
    case StreamRequest => "stream"
    case TerminateRequest => "terminate"
    case ResetRequest => "reset"
  }

  /** `String(n)` for an integer. */
  function IntText(n: int): (r: string)
    ensures forall i :: 0 <= i < |r| ==> r[i] == '-' || '0' <= r[i] <= '9'
  {
    if n < 0 then "-" + Decimal(-n) else Decimal(n)
  }

  // ---------------------------------------------------------------- loading

  /** `createSerializableModel(model)`: each capability flag `?? false`, no tokenizer, no instance. */
  function Serializable(m: LoadedModel): (s: LoadedModel)
    ensures s.id == m.id && s.provider == "worker" && s.performance == m.performance
    ensures !s.hasTokenizer && !s.hasInstance && s.worker.None? && s.options.None? && s.parser.None?
    ensures IsTrue(s.capabilities.textGeneration) <==> IsTrue(m.capabilities.textGeneration)
    ensures s.capabilities.textGeneration.Some? && s.capabilities.textClassification.Some?
      && s.capabilities.imageGeneration.Some? && s.capabilities.audioProcessing.Some? && s.capabilities.vision.Some?
  {
    var c := m.capabilities;
    LoadedModel(m.id, "worker", None,
      Capabilities(Some(OrElse(c.textGeneration, false)), Some(OrElse(c.textClassification, false)),
        Some(OrElse(c.imageGeneration, false)), Some(OrElse(c.audioProcessing, false)), Some(OrElse(c.vision, false))),
      m.performance, map[], None, false, false, None)
  }

  /** What a failing provider load throws: an `Error`, or a bare number from the runtime. */
  datatype Thrown = ThrownError(info: ErrorInfo) | ThrownNumber(n: int)

  /** `error?.message || String(error)` */
  function ThrownMessage(t: Thrown): string
  {
    match t
    case ThrownError(e) => if e.message != "" then e.message else ErrorText(e)
    case ThrownNumber(n) => IntText(n)
  }

  function MissingModel(path: string): string
  {
    "The model \"" + path + "\" does not exist on Hugging Face"
  }

  function UnknownNumber(n: int): string
  {
    "There was an error in transformers.js, but we don't know exactly what it means: " + IntText(n)
  }

  /** The error a failed provider load is rethrown as. */
  function LoadError(path: string, t: Thrown): (e: ErrorInfo)
    ensures e.name == "Error" && e.code.None?
    ensures t.ThrownNumber? ==> e == PlainError(UnknownNumber(t.n))
  {
    var message := ThrownMessage(t);
    if Contains(message, UnauthorizedMarker) || Contains(message, FetchMarker) then
      if t.ThrownNumber? then
        NumberHasNoMarker(t.n, UnauthorizedMarker);
        NumberHasNoMarker(t.n, FetchMarker);
        assert false;
        PlainError(MissingModel(path))
      else PlainError(MissingModel(path))
    else if t.ThrownNumber? then PlainError(UnknownNumber(t.n))
    else PlainError(message)
  }

  /** A text without the first letter of `marker` does not contain it. */
  lemma NoMarkerWithoutFirstLetter(s: string, marker: string)
    requires marker != [] && marker[0] !in s
    ensures !Contains(s, marker)
  {
    ContainsIff(s, marker);
  }

  /** The printed number holds only digits and a sign, so it never mentions a word that starts with a letter. */
  lemma NumberHasNoMarker(n: int, marker: string)
    requires marker != [] && 'A' <= marker[0] <= 'Z'
    ensures !Contains(IntText(n), marker)
  {
    NoMarkerWithoutFirstLetter(IntText(n), marker);
  }

  /** A load error keeps only the message: the thrown error's name and code are lost. */
  lemma LoadErrorKeepsMessageOnly(path: string, e: ErrorInfo)
    requires e.message != "" && !Contains(e.message, UnauthorizedMarker) && !Contains(e.message, FetchMarker)
    ensures LoadError(path, ThrownError(e)) == PlainError(e.message)
    ensures e == AbortError() ==> LoadError(path, ThrownError(e)).name != e.name
  {
  }

  /** A refused file download is reported as a model missing from the Hugging Face hub. */
  lemma UnauthorizedMeansMissing(path: string, file: string)
    ensures LoadError(path, ThrownError(PlainError(UnauthorizedMarker + ": " + file))) == PlainError(MissingModel(path))
  {
    var m := UnauthorizedMarker + ": " + file;
    assert OccursAt(m, UnauthorizedMarker, 0) by {
      assert m[0..|UnauthorizedMarker|] == UnauthorizedMarker;
    }
    ContainsIff(m, UnauthorizedMarker);
  }

  /** What the world answers during `loadModel`: the provider's two loads and the warm-up generation. */
  datatype LoadWorld = LoadWorld(tokenizer: Result<()>, instance: Result<()>, tokenizerFailsFirst: bool, warmup: Result<()>)

  /** `payload.options`, or `{}` when the message has none. */
  function LoadOptions(request: Request): ModelOptions
  {
    OrElse(request.options, DefaultOptions)
  }

  /**
   * The provider the registry picks, loading `path` with `{...options, onProgress}`: the
   * caller's options with a progress callback that posts `progress` frames.
   */
  function ProviderResult(path: string, options: ModelOptions, w: LoadWorld): Result<LoadedModel>
  {
    WandlerLoad.RegistryLoad(path, options.(hasOnProgress := true), w.tokenizer, w.instance, w.tokenizerFailsFirst).result
  }

  /** How `loadModel` ends: the module-level `model` afterwards and the reply. */
  datatype LoadEnd = LoadEnd(model: Option<LoadedModel>, reply: Result<LoadedModel>)

  /** Reading `model.options.dtype` when the provider left `options` undefined. */
  const OptionsTypeError: ErrorInfo := ErrorInfo("TypeError", "Cannot read properties of undefined (reading 'dtype')", None)

  /**
   * `loadModel(modelPath, options)` as written: `model` is assigned as soon as the provider
   * resolves, and the dtype and device are then read from `model.options`.
   */
  function LoadAsWritten(current: Option<LoadedModel>, path: string, options: ModelOptions, w: LoadWorld): LoadEnd
  {
    var loaded := ProviderResult(path, options, w);
    if loaded.Err? then LoadEnd(current, Err(LoadError(path, ThrownError(loaded.error))))
    else if loaded.value.options.None? then LoadEnd(Some(loaded.value), Err(OptionsTypeError))
    else if w.warmup.Err? then LoadEnd(Some(loaded.value), Err(w.warmup.error))
    else LoadEnd(Some(loaded.value), Ok(Serializable(loaded.value)))
  }

  /** No provider sets `options`, so as written every load is answered with an error, even one that loaded the model. */
  lemma LoadAsWrittenAlwaysFails(current: Option<LoadedModel>, path: string, options: ModelOptions, w: LoadWorld)
    ensures LoadAsWritten(current, path, options, w).reply.Err?
    ensures ProviderResult(path, options, w).Ok? ==>
      LoadAsWritten(current, path, options, w) == LoadEnd(Some(ProviderResult(path, options, w).value), Err(OptionsTypeError))
  {
    match WandlerRegistry.GetProvider(path).kind
    case QwenProvider =>
    case DeepseekProvider =>
    case TransformersProvider =>
  }

  /** `loadModel` with the dtype and device logged only when the model has options: the load goes on to the warm-up. */
  function LoadCorrected(current: Option<LoadedModel>, path: string, options: ModelOptions, w: LoadWorld): LoadEnd
  {
    var loaded := ProviderResult(path, options, w);
    if loaded.Err? then LoadEnd(current, Err(LoadError(path, ThrownError(loaded.error))))
    else if w.warmup.Err? then LoadEnd(Some(loaded.value), Err(w.warmup.error))
    else LoadEnd(Some(loaded.value), Ok(Serializable(loaded.value)))
  }

  /**
   * Corrected, a load replies with the model exactly when the provider and the warm-up succeed;
   * the worker then keeps the full model while the reply carries neither tokenizer nor
   * instance. A failed provider load leaves the previous model in place.
   */
  lemma CorrectedLoadAnswers(current: Option<LoadedModel>, path: string, options: ModelOptions, w: LoadWorld)
    ensures var end := LoadCorrected(current, path, options, w);
      (end.reply.Ok? <==> ProviderResult(path, options, w).Ok? && w.warmup.Ok?)
      && (ProviderResult(path, options, w).Err? ==> end.model == current)
      && (end.reply.Ok? ==>
            end.model.Some? && end.model.value.hasTokenizer && end.model.value.hasInstance
            && end.reply.value == Serializable(end.model.value) && !end.reply.value.hasTokenizer)
  {
    var loaded := ProviderResult(path, options, w);
    if loaded.Ok? {
      match WandlerRegistry.GetProvider(path).kind
      case QwenProvider =>
      case DeepseekProvider =>
      case TransformersProvider =>
    }
  }

  /** A provider failure without a capital `U` or `F` in its message reaches the caller as it was thrown. */
  lemma PassedThrough(current: Option<LoadedModel>, path: string, options: ModelOptions, w: LoadWorld, message: string)
    requires ProviderResult(path, options, w) == Err(PlainError(message))
    requires message != [] && 'U' !in message && 'F' !in message
    ensures LoadCorrected(current, path, options, w) == LoadEnd(current, Err(PlainError(message)))
  {
    NoMarkerWithoutFirstLetter(message, UnauthorizedMarker);
    NoMarkerWithoutFirstLetter(message, FetchMarker);
  }

  /** Qwen and DeepSeek ids cannot load in the worker either: their providers do not implement the tokenizer load. */
  lemma NamedProvidersFail(current: Option<LoadedModel>, path: string, options: ModelOptions, w: LoadWorld)
    requires WandlerRegistry.GetProvider(path).kind != Registry.TransformersProvider
    ensures LoadCorrected(current, path, options, w) == LoadEnd(current, Err(PlainError("loadTokenizer not implemented")))
  {
    var message := "loadTokenizer not implemented";
    NamedProviderLoad(path, options, w);
    NoMarkerLetters(message);
    PassedThrough(current, path, options, w, message);
  }

  /** The provider load of a Qwen or DeepSeek id fails on the tokenizer hook. */
  lemma NamedProviderLoad(path: string, options: ModelOptions, w: LoadWorld)
    requires WandlerRegistry.GetProvider(path).kind != Registry.TransformersProvider
    ensures ProviderResult(path, options, w) == Err(PlainError("loadTokenizer not implemented"))
  {
    match WandlerRegistry.GetProvider(path).kind
    case QwenProvider =>
    case DeepseekProvider =>
  }

  /** The tokenizer hook's message has neither marker's first letter. */
  lemma NoMarkerLetters(message: string)
    requires message == "loadTokenizer not implemented"
    ensures message != [] && 'U' !in message && 'F' !in message
  {
    assert message[0] == 'l';
  }

  // ------------------------------------------------------------- generation

  /** The model is usable only with both its tokenizer and its instance. */
  predicate Ready(model: Option<LoadedModel>)
  {
    model.Some? && model.value.hasTokenizer && model.value.hasInstance
  }

  /** The worker's own abort controller is never fired, so the runtime never sees an abort. */
  function RuntimeRun(run: WandlerTransformers.Run): WandlerTransformers.Run
  {
    WandlerStreamText.Unsignalled(run)
  }

  /** `handleGenerateText(messages, options)` from KV slot `slot`. */
  function GenerateText(model: Option<LoadedModel>, slot: Slot, messages: seq<Message>, aborted: bool, run: WandlerTransformers.Run): (s: WandlerTransformers.Step)
    ensures !Ready(model) ==> s == WandlerTransformers.Step(Err(PlainError(NotLoadedMessage)), slot, None)
    ensures Ready(model) && aborted ==> s == WandlerTransformers.Step(Err(AbortError()), slot, None)
    ensures Ready(model) && !aborted ==> s.call.Some?
    ensures Ready(model) && s.result.Err? && WandlerTransformers.LooksLikeAbort(s.result.error) ==> s.result.error == AbortError()
  {
    if !Ready(model) then WandlerTransformers.Step(Err(PlainError(NotLoadedMessage)), slot, None)
    else if aborted then WandlerTransformers.Step(Err(AbortError()), slot, None)
    else
      var step := WandlerTransformers.Generate(model.value, WandlerTransformers.GenerateConfig(false, Some(messages)), RuntimeRun(run), slot);
      match step.result
      case Ok(_) => step
      case Err(e) => step.(result := Err(if WandlerTransformers.LooksLikeAbort(e) then AbortError() else e))
  }

  /** A token as the worker posts it. */
  function TokenFrame(token: string): Frame
  {
    Frame(StreamFrame, TextPayload(token), "stream")
  }

  function TokenFrames(tokens: seq<string>): (r: seq<Frame>)
    ensures |r| == |tokens| && forall i :: 0 <= i < |tokens| ==> r[i] == TokenFrame(tokens[i])
  {
    seq(|tokens|, i requires 0 <= i < |tokens| => TokenFrame(tokens[i]))
  }

  /** How `handleStreamText` ends: the frames it posted, its outcome, the slot and the runtime call. */
  datatype Streamed = Streamed(posted: seq<Frame>, result: Result<()>, slot: Slot, call: Option<RuntimeCall>)

  /** The error frame `handleStreamText` posts itself: a plain `{message, stack}` object, without a name. */
  function StreamErrorFrame(e: ErrorInfo): Frame
  {
    Frame(ErrorFrame, ErrorPayload(ErrorInfo("", e.message, None), false), "stream")
  }

  /** `handleStreamText(messages, options)` from KV slot `slot`; `tokens` are what the runtime streams. */
  function StreamText(model: LoadedModel, slot: Slot, messages: seq<Message>, run: WandlerTransformers.Run, tokens: seq<string>): (s: Streamed)
    ensures !Ready(Some(model)) ==> s == Streamed([], Err(PlainError(NotLoadedMessage)), slot, None)
    ensures Ready(Some(model)) ==> s.call.Some?
    ensures s.call.Some? && s.result.Ok? ==> s.posted == TokenFrames(tokens)
    ensures s.call.Some? && s.result.Err? ==> s.posted == TokenFrames(tokens) + [StreamErrorFrame(s.result.error)]
  {
    if !Ready(Some(model)) then Streamed([], Err(PlainError(NotLoadedMessage)), slot, None)
    else
      var step := WandlerTransformers.Generate(model, WandlerTransformers.GenerateConfig(false, Some(messages)), RuntimeRun(run), slot);
      var streamed := if step.call.Some? then TokenFrames(tokens) else [];
      match step.result
      case Ok(_) => Streamed(streamed, Ok(()), step.slot, step.call)
      case Err(e) => Streamed(streamed + [StreamErrorFrame(e)], Err(e), step.slot, step.call)
  }

  // --------------------------------------------------------------- dispatch

  /** The worker's module-level state: the model and the KV cache slot. */
  datatype State = State(model: Option<LoadedModel>, slot: Slot)

  /** What the world answers while one message is handled. */
  datatype World = World(load: LoadWorld, run: WandlerTransformers.Run, tokens: seq<string>)

  /** The state after a message, the frames posted in order, and whether the worker closed itself. */
  datatype Reply = Reply(state: State, posted: seq<Frame>, closed: bool)

  /** The catch-all answer: a plain `{message, name, code}` object under the request's id. */
  function Envelope(e: ErrorInfo, id: string): Frame
  {
    Frame(ErrorFrame, ErrorPayload(e, false), id)
  }

  function Failed(st: State, message: string, id: string): Reply
  {
    Reply(st, [Envelope(PlainError(message), id)], false)
  }

  /** The completion frame of a stream: every field `null`. */
  const NoResult: GenerationResult := GenerationResult(None, None, None, None, None, None)

  /** `self.onmessage` for one message, from state `st`. */
  function Handle(st: State, request: Request, w: World): Reply
  {
    var id := request.id;
    match request.kind
    case LoadRequest =>
      if request.modelPath.None? || request.modelPath.value == "" then Failed(st, NoPathMessage, id)
      else
        var end := LoadCorrected(st.model, request.modelPath.value, LoadOptions(request), w.load);
        Reply(st.(model := end.model),
          [if end.reply.Ok? then Frame(LoadedFrame, ModelPayload(end.reply.value), id) else Envelope(end.reply.error, id)], false)
    case GenerateRequest =>
      if request.messages.None? then Failed(st, NoMessagesMessage, id)
      else
        var step := GenerateText(st.model, st.slot, request.messages.value, false, w.run);
        Reply(st.(slot := step.slot),
          [if step.result.Ok? then Frame(GeneratedFrame, WandlerStreamText.AsResult(step.result.value), id) else Envelope(step.result.error, id)], false)
    case StreamRequest =>
      if request.messages.None? then Failed(st, NoMessagesMessage, id)
      else if st.model.None? then Failed(st, NotLoadedMessage, id)
      else if !IsTrue(st.model.value.capabilities.textGeneration) then Failed(st, NoTextGenerationMessage, id)
      else
        var s := StreamText(st.model.value, st.slot, request.messages.value, w.run, w.tokens);
        Reply(st.(slot := s.slot),
          s.posted + [if s.result.Ok? then Frame(GeneratedFrame, ResultPayload(NoResult), id) else Envelope(s.result.error, id)], false)
    case TerminateRequest => Reply(st.(model := None), [], true)
    case ResetRequest => Failed(st, "Unknown message type: " + KindName(request.kind), id)
  }

  /** The worker: its module-level `model`, the KV cache of its transformers module, and whether it has closed. */
  class Worker {
    var model: Option<LoadedModel>
    var closed: bool
    const cache: WandlerTransformers.KVCache

    constructor(cache: WandlerTransformers.KVCache)
      ensures model.None? && !closed && this.cache == cache
    {
      model := None;
      closed := false;
      this.cache := cache;
    }

    /** `loadModel(modelPath, options)`, with the options read guarded. */
    method LoadModel(path: string, options: ModelOptions, w: LoadWorld) returns (reply: Result<LoadedModel>)
      modifies this
      ensures LoadEnd(model, reply) == LoadCorrected(old(model), path, options, w)
      ensures closed == old(closed)
    {
      var loaded := ProviderResult(path, options, w);
      if loaded.Err? {
        return Err(LoadError(path, ThrownError(loaded.error)));
      }
      model := Some(loaded.value);
      if w.warmup.Err? {
        return Err(w.warmup.error);
      }
      reply := Ok(Serializable(loaded.value));
    }

    /** `handleGenerateText(messages, options)` */
    method HandleGenerateText(messages: seq<Message>, aborted: bool, run: WandlerTransformers.Run)
      returns (result: Result<WandlerTransformers.Generated>, call: Option<RuntimeCall>)
      modifies cache
      ensures WandlerTransformers.Step(result, cache.slot, call) == GenerateText(model, old(cache.slot), messages, aborted, run)
    {
      if !Ready(model) {
        return Err(PlainError(NotLoadedMessage)), None;
      }
      if aborted {
        return Err(AbortError()), None;
      }
      result, call := cache.GenerateWithTransformers(model.value, WandlerTransformers.GenerateConfig(false, Some(messages)), RuntimeRun(run));
      if result.Err? && WandlerTransformers.LooksLikeAbort(result.error) {
        result := Err(AbortError());
      }
    }

    /** `handleStreamText(messages, options)` for a loaded model. */
    method HandleStreamText(messages: seq<Message>, run: WandlerTransformers.Run, tokens: seq<string>)
      returns (posted: seq<Frame>, result: Result<()>, call: Option<RuntimeCall>)
      requires model.Some?
      modifies cache
      ensures Streamed(posted, result, cache.slot, call) == StreamText(model.value, old(cache.slot), messages, run, tokens)
    {
      if !Ready(model) {
        return [], Err(PlainError(NotLoadedMessage)), None;
      }
      var generated;
      generated, call := cache.GenerateWithTransformers(model.value, WandlerTransformers.GenerateConfig(false, Some(messages)), RuntimeRun(run));
      posted := [];
      if call.Some? {
        posted := PostTokens(tokens);
      }
      if generated.Ok? {
        result := Ok(());
      } else {
        posted := posted + [StreamErrorFrame(generated.error)];
        result := Err(generated.error);
      }
    }

    /** `self.onmessage`: handles one message and returns the frames posted, in order. */
    method OnMessage(request: Request, w: World) returns (posted: seq<Frame>)
      requires !closed
      modifies this, cache
      ensures Reply(State(model, cache.slot), posted, closed) == Handle(State(old(model), old(cache.slot)), request, w)
    {
      var id := request.id;
      match request.kind {
        case LoadRequest =>
          if request.modelPath.None? || request.modelPath.value == "" {
            return [Envelope(PlainError(NoPathMessage), id)];
          }
          var reply := LoadModel(request.modelPath.value, LoadOptions(request), w.load);
          posted := [if reply.Ok? then Frame(LoadedFrame, ModelPayload(reply.value), id) else Envelope(reply.error, id)];
        case GenerateRequest =>
          if request.messages.None? {
            return [Envelope(PlainError(NoMessagesMessage), id)];
          }
          var result, _ := HandleGenerateText(request.messages.value, false, w.run);
          posted := [if result.Ok? then Frame(GeneratedFrame, WandlerStreamText.AsResult(result.value), id) else Envelope(result.error, id)];
        case StreamRequest =>
          if request.messages.None? {
            return [Envelope(PlainError(NoMessagesMessage), id)];
          }
          if model.None? {
            return [Envelope(PlainError(NotLoadedMessage), id)];
          }
          if !IsTrue(model.value.capabilities.textGeneration) {
            return [Envelope(PlainError(NoTextGenerationMessage), id)];
          }
          var streamed, result, _ := HandleStreamText(request.messages.value, w.run, w.tokens);
          posted := streamed + [if result.Ok? then Frame(GeneratedFrame, ResultPayload(NoResult), id) else Envelope(result.error, id)];
        case TerminateRequest =>
          model := None;
          closed := true;
          posted := [];
        case ResetRequest =>
          posted := [Envelope(PlainError("Unknown message type: " + KindName(request.kind)), id)];
      }
    }
  }

  /** Token frames, posted one by one as the runtime streams them. */
  method PostTokens(tokens: seq<string>) returns (posted: seq<Frame>)
    ensures posted == TokenFrames(tokens)
  {
    posted := [];
    for i := 0 to |tokens|
      invariant |posted| == i && forall k :: 0 <= k < i ==> posted[k] == TokenFrame(tokens[k])
    {
      posted := posted + [TokenFrame(tokens[i])];
    }
  }

  // ---------------------------------------------------------------- properties

  /**
   * Every message but `terminate` is answered, last, by one frame under its own id (a `loaded`,
   * `generated` or `error` frame); every frame before it is a `stream` frame. `terminate` posts
   * nothing, drops the model and closes the worker.
   */
  lemma EveryRequestAnswered(st: State, request: Request, w: World)
    ensures var r := Handle(st, request, w);
      (request.kind == TerminateRequest ==> r.posted == [] && r.closed && r.state.model.None?)
      && (request.kind != TerminateRequest ==>
            r.posted != [] && !r.closed
            && r.posted[|r.posted| - 1].id == request.id
            && r.posted[|r.posted| - 1].kind in {LoadedFrame, GeneratedFrame, ErrorFrame}
            && forall k :: 0 <= k < |r.posted| - 1 ==> r.posted[k].id == "stream")
  {
    var r := Handle(st, request, w);
    if request.kind == StreamRequest && request.messages.Some? && st.model.Some? && IsTrue(st.model.value.capabilities.textGeneration) {
      var s := StreamText(st.model.value, st.slot, request.messages.value, w.run, w.tokens);
      assert r.posted[..|s.posted|] == s.posted;
      forall k | 0 <= k < |r.posted| - 1 ensures r.posted[k].id == "stream" {
        assert r.posted[k] == s.posted[k];
      }
    }
  }

  /** Without a loaded model, `generate` and `stream` answer "Model not loaded" without running anything. */
  lemma NothingRunsUnloaded(st: State, request: Request, w: World)
    requires request.kind in {GenerateRequest, StreamRequest} && request.messages.Some?
    requires st.model.None?
    ensures Handle(st, request, w) == Reply(st, [Envelope(PlainError(NotLoadedMessage), request.id)], false)
  {
  }

  /**
   * Only `stream` checks the text-generation capability: a loaded model without it still runs a
   * `generate` message, while a `stream` message is refused before the runtime.
   */
  lemma CapabilityOnlyForStreams(st: State, messages: seq<Message>, id: string, w: World)
    requires Ready(st.model) && !IsTrue(st.model.value.capabilities.textGeneration)
    ensures GenerateText(st.model, st.slot, messages, false, w.run).call.Some?
    ensures Handle(st, Request(StreamRequest, None, None, Some(messages), map[], id), w)
      == Failed(st, NoTextGenerationMessage, id)
  {
  }

  /**
   * A stream of a loaded model posts every token in order under `stream`, then the completion
   * frame; when the runtime fails, the worker's own `stream` error frame and the error answer
   * under the request's id carry the same message.
   */
  lemma StreamFrames(st: State, messages: seq<Message>, id: string, w: World)
    requires Ready(st.model) && IsTrue(st.model.value.capabilities.textGeneration)
    ensures var r := Handle(st, Request(StreamRequest, None, None, Some(messages), map[], id), w);
      var s := StreamText(st.model.value, st.slot, messages, w.run, w.tokens);
      r.posted[..|w.tokens|] == TokenFrames(w.tokens)
      && (s.result.Ok? ==> r.posted == TokenFrames(w.tokens) + [Frame(GeneratedFrame, ResultPayload(NoResult), id)])
      && (s.result.Err? ==>
            |r.posted| == |w.tokens| + 2
            && r.posted[|w.tokens|].payload.info.message == r.posted[|w.tokens| + 1].payload.info.message)
  {
    var r := Handle(st, Request(StreamRequest, None, None, Some(messages), map[], id), w);
    var s := StreamText(st.model.value, st.slot, messages, w.run, w.tokens);
    if s.result.Err? {
      assert r.posted == TokenFrames(w.tokens) + [StreamErrorFrame(s.result.error), Envelope(s.result.error, id)];
    }
  }

  /** A generation asked to start aborted fails with `AbortError` before the runtime and keeps the cache. */
  lemma AbortedGenerateRunsNothing(model: Option<LoadedModel>, slot: Slot, messages: seq<Message>, run: WandlerTransformers.Run)
    requires Ready(model)
    ensures GenerateText(model, slot, messages, true, run) == WandlerTransformers.Step(Err(AbortError()), slot, None)
  {
  }

  /**
   * A `generate` message never asks to start aborted, so its runtime always runs; the reply
   * carries the text and the messages, never the `[{assistant, text}]` default.
   */
  lemma GenerateReply(st: State, messages: seq<Message>, id: string, w: World)
    requires Ready(st.model)
    ensures var r := Handle(st, Request(GenerateRequest, None, None, Some(messages), map[], id), w);
      var step := GenerateText(st.model, st.slot, messages, false, w.run);
      step.call.Some? && r.state.slot == step.slot
      && (step.result.Ok? ==>
            r.posted[0].payload.result.text == Some(step.result.value.text)
            && r.posted[0].payload.result.messages == Some(step.result.value.messages))
  {
  }

  /** `terminate` clears the model but leaves the KV cache as it was. */
  lemma TerminateKeepsCache(st: State, id: string, w: World)
    ensures Handle(st, Request(TerminateRequest, None, None, None, map[], id), w).state == State(None, st.slot)
  {
  }

  /** A load keeps the KV cache, and a refused load path changes nothing. */
  lemma LoadKeepsCache(st: State, request: Request, w: World)
    requires request.kind == LoadRequest
    ensures Handle(st, request, w).state.slot == st.slot
    ensures request.modelPath.None? ==> Handle(st, request, w).state == st
  {
  }
}
