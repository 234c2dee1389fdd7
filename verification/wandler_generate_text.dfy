/**
 * `generateText` of the newer package (`packages/wandler/utils/generate-text.ts`): the checks in
 * their order, the choice between the worker and the main thread, the worker path's race between
 * the reply and the abort signal, and the shape of the result on either path.
 */
module WandlerGenerateText {
  import opened Types
  import opened Protocol
  import opened Request
  import opened MessageUtils
  import opened GenerationUtils
  import opened Runtime
  import Bridge
  import WandlerTransformers
  import CoreGenerateText

  const NoModelMessage: string := "\"model\" is required, make sure to load a model first using loadModel()"

  /** The checks `generateText` runs before anything is sent, in their order. */
  function Checks(model: Option<LoadedModel>, options: GenerationOptions, aborted: bool): (r: Result<CoreGenerateText.Prepared>)
    ensures model.None? ==> r == Err(PlainError(NoModelMessage))
    ensures model.Some? && !IsTrue(model.value.capabilities.textGeneration) ==> r == Err(PlainError(NoTextGeneration(model.value.id)))
    ensures model.Some? && IsTrue(model.value.capabilities.textGeneration) && aborted ==> r == Err(AbortError())
    ensures r.Ok? <==>
      model.Some? && IsTrue(model.value.capabilities.textGeneration) && !aborted && Validate(Prepare(options)).Ok?
      && ValidateGenerationConfig(PrepareGenerationConfig(options, model.value.generationConfig)).Ok?
    ensures r.Ok? ==> r.value == CoreGenerateText.Prepared(Prepare(options), PrepareGenerationConfig(options, model.value.generationConfig))
  {
    if model.None? then Err(PlainError(NoModelMessage))
    else if !IsTrue(model.value.capabilities.textGeneration) then Err(PlainError(NoTextGeneration(model.value.id)))
    else if aborted then Err(AbortError())
    else
      var messages := Prepare(options);
      var checked := Validate(messages);
      if checked.Err? then Err(checked.error)
      else
        var config := PrepareGenerationConfig(options, model.value.generationConfig);
        var valid := ValidateGenerationConfig(config);
        if valid.Err? then Err(valid.error) else Ok(CoreGenerateText.Prepared(messages, config))
  }

  /** The error a reply without any payload raises when its fields are read. */
  const MissingPayloadError: ErrorInfo := ErrorInfo("TypeError", "Cannot read properties of undefined (reading 'text')", None)

  /**
   * A successful worker reply turned into a result: the six result fields are copied; a payload
   * that is not a result record has none of them.
   */
  function FromReply(payload: Payload): (o: Outcome<GenerationResult>)
    ensures payload.ResultPayload? ==> o == Done(payload.result)
    ensures payload.NoPayload? ==> o == Thrown(ErrorPayload(MissingPayloadError, true))
    ensures !payload.ResultPayload? && !payload.NoPayload? ==> o == Done(GenerationResult(None, None, None, None, None, None))
  {
    match payload
    case ResultPayload(r) => Done(GenerationResult(r.text, r.reasoning, r.sources, r.finishReason, r.usage, r.messages))
    case NoPayload => Thrown(ErrorPayload(MissingPayloadError, true))
    case _ => Done(GenerationResult(None, None, None, None, None, None))
  }

  /**
   * How the worker path ends: the settled outcome (`None` while pending), and whether the abort
   * listener is still registered.
   */
  datatype WorkerEnd = WorkerEnd(settled: Option<Outcome<GenerationResult>>, listening: bool)

  /**
   * `generateWithWorker`. The message is always sent. `abortedAtStart`: the signal had fired when
   * the call began; `abortBeforeReply`: it fires while the reply is awaited; `reply`: how the
   * send settles, `None` if it never does.
   */
  function GenerateWithWorker(abortedAtStart: bool, abortBeforeReply: bool, reply: Option<Bridge.Settlement>): (w: WorkerEnd)
    ensures w.listening <==> reply.None?
    ensures abortedAtStart || abortBeforeReply ==> w.settled == Some(Thrown(ErrorPayload(AbortError(), true)))
  {
    var listening := reply.None?;
    if abortedAtStart || abortBeforeReply then WorkerEnd(Some(Thrown(ErrorPayload(AbortError(), true))), listening)
    else if reply.None? then WorkerEnd(None, listening)
    else
      match reply.value
      case Rejected(error) => WorkerEnd(Some(Thrown(error)), listening)
      case Resolved(frame) =>
        if frame.kind == ErrorFrame then WorkerEnd(Some(Thrown(frame.payload)), listening)
        else WorkerEnd(Some(FromReply(frame.payload)), listening)
  }

  /** The runtime configuration of the main-thread call; the abort signal travels with the run. */
  function MainConfig(p: CoreGenerateText.Prepared): WandlerTransformers.GenerateConfig
  {
    WandlerTransformers.GenerateConfig(false, Some(AsMessages(p.messages)))
  }

  /** `generateInMainThread`'s result: the optional fields become `null` when missing. */
  function MainResult(r: Result<WandlerTransformers.Generated>): (o: Outcome<GenerationResult>)
    ensures r.Err? ==> o == Thrown(ErrorPayload(r.error, true))
    ensures r.Ok? ==>
      o.Done? && o.value.text == Some(r.value.text) && o.value.reasoning == r.value.reasoning
      && o.value.sources == r.value.sources && o.value.finishReason == Some(r.value.finishReason)
      && o.value.usage == Some(r.value.usage) && o.value.messages == Some(r.value.messages)
  {
    if r.Err? then Thrown(ErrorPayload(r.error, true))
    else
      var g := r.value;
      Done(GenerationResult(Some(g.text), g.reasoning, g.sources, Some(g.finishReason), Some(g.usage), Some(g.messages)))
  }

  /**
   * What the world answers: whether the signal had fired at the call and fires while the worker's
   * reply is awaited, the clock, the worker's reply, and the main-thread runtime's run.
   */
  datatype World = World(
    aborted: bool,
    abortBeforeReply: bool,
    time: nat,
    reply: Option<Bridge.Settlement>,
    run: WandlerTransformers.Run)

  /** The answer to one call: how it settles (`None`: pending), the KV slot, the message sent and whether the abort listener remains. */
  datatype Answer = Answer(settled: Option<Outcome<GenerationResult>>, slot: Slot, sent: Option<CoreGenerateText.WorkerMessage>, listening: bool)

  /** `generateText(options)` from KV slot `slot`, as a specification. */
  function Generation(model: Option<LoadedModel>, options: GenerationOptions, world: World, slot: Slot): Answer
  {
    match Checks(model, options, world.aborted)
    case Err(e) => Answer(Some(Thrown(ErrorPayload(e, true))), slot, None, false)
    case Ok(p) =>
      if CoreGenerateText.UsesWorker(model.value) then
        var w := GenerateWithWorker(world.aborted, world.abortBeforeReply, world.reply);
        Answer(w.settled, slot, Some(CoreGenerateText.GenerateMessage(p, world.time)), w.listening)
      else
        var st := WandlerTransformers.Generate(model.value, MainConfig(p), world.run, slot);
        Answer(Some(MainResult(st.result)), st.slot, None, false)
  }

  /** `generateText(options)` */
  method GenerateText(cache: WandlerTransformers.KVCache, model: Option<LoadedModel>, options: GenerationOptions, world: World)
    returns (settled: Option<Outcome<GenerationResult>>, sent: Option<CoreGenerateText.WorkerMessage>, listening: bool)
    modifies cache
    ensures Answer(settled, cache.slot, sent, listening) == Generation(model, options, world, old(cache.slot))
  {
    var checked := Checks(model, options, world.aborted);
    if checked.Err? {
      return Some(Thrown(ErrorPayload(checked.error, true))), None, false;
    }
    var p := checked.value;
    if CoreGenerateText.UsesWorker(model.value) {
      sent := Some(CoreGenerateText.GenerateMessage(p, world.time));
      var w := GenerateWithWorker(world.aborted, world.abortBeforeReply, world.reply);
      settled, listening := w.settled, w.listening;
    } else {
      var result, _ := cache.GenerateWithTransformers(model.value, MainConfig(p), world.run);
      settled, sent, listening := Some(MainResult(result)), None, false;
    }
  }

  /** A request that fails a check settles at once with that error; nothing is sent and the KV slot is untouched. */
  lemma FailedCheckRunsNothing(model: Option<LoadedModel>, options: GenerationOptions, world: World, slot: Slot)
    requires Checks(model, options, world.aborted).Err?
    ensures Generation(model, options, world, slot) ==
      Answer(Some(Thrown(ErrorPayload(Checks(model, options, world.aborted).error, true))), slot, None, false)
  {
  }

  /**
   * A signal that had fired at the call is caught by the checks, so the worker path's own
   * "already aborted" branch is never reached from `generateText`: the worker always receives the
   * message with the signal not yet fired.
   */
  lemma WorkerNeverStartsAborted(model: Option<LoadedModel>, options: GenerationOptions, world: World, slot: Slot)
    ensures Generation(model, options, world, slot).sent.Some? ==> !world.aborted
    ensures world.aborted ==> Generation(model, options, world, slot).sent.None?
  {
  }

  /** On the worker path, an abort while the reply is awaited wins over any reply, and the listener goes once the send settles. */
  lemma WorkerAbortWins(model: Option<LoadedModel>, options: GenerationOptions, world: World, slot: Slot)
    requires Checks(model, options, world.aborted).Ok? && CoreGenerateText.UsesWorker(model.value)
    ensures var a := Generation(model, options, world, slot);
      a.sent == Some(CoreGenerateText.GenerateMessage(Checks(model, options, world.aborted).value, world.time))
      && a.slot == slot
      && (world.abortBeforeReply ==> a.settled == Some(Thrown(ErrorPayload(AbortError(), true))))
      && (a.listening <==> world.reply.None?)
  {
  }

  /** Without an abort, a worker's result reply is handed back field for field, and an error reply rejects with its payload. */
  lemma WorkerReplyCopied(model: Option<LoadedModel>, options: GenerationOptions, world: World, slot: Slot)
    requires Checks(model, options, world.aborted).Ok? && CoreGenerateText.UsesWorker(model.value)
    requires !world.abortBeforeReply && world.reply.Some? && world.reply.value.Resolved?
    ensures var frame := world.reply.value.frame;
      var a := Generation(model, options, world, slot);
      (frame.kind == ErrorFrame ==> a.settled == Some(Thrown(frame.payload)))
      && (frame.kind != ErrorFrame && frame.payload.ResultPayload? ==> a.settled == Some(Done(frame.payload.result)))
  {
  }

  /**
   * On the main thread, a successful call always reports a finish reason, usage and messages;
   * with a model that has no parser the messages are the whole output and reasoning and sources are `null`.
   */
  lemma MainThreadResult(model: Option<LoadedModel>, options: GenerationOptions, world: World, slot: Slot)
    requires Checks(model, options, world.aborted).Ok? && !CoreGenerateText.UsesWorker(model.value)
    requires Generation(model, options, world, slot).settled.value.Done?
    ensures var r := Generation(model, options, world, slot).settled.value.value;
      r.finishReason.Some? && r.usage.Some? && r.messages.Some? && r.text.Some?
      && (model.value.parser.None? ==> r.reasoning.None? && r.sources.None? && r.messages == Some([Message("assistant", world.run.decoded)]))
  {
    var p := Checks(model, options, world.aborted).value;
    var st := WandlerTransformers.Generate(model.value, MainConfig(p), world.run, slot);
    if model.value.parser.None? {
      WandlerTransformers.ParserFallback(model.value, MainConfig(p), world.run, slot);
    }
  }

  /** The KV slot is only ever changed on the main thread. */
  lemma WorkerKeepsSlot(model: Option<LoadedModel>, options: GenerationOptions, world: World, slot: Slot)
    ensures Generation(model, options, world, slot).slot != slot ==>
      Checks(model, options, world.aborted).Ok? && !CoreGenerateText.UsesWorker(model.value) && SupportsKV(model.value)
  {
    if Checks(model, options, world.aborted).Ok? && !CoreGenerateText.UsesWorker(model.value) {
      var p := Checks(model, options, world.aborted).value;
      WandlerTransformers.SlotDiscipline(model.value, MainConfig(p), world.run, slot);
    }
  }
}
