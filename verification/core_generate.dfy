/**
 * The minimal `generateText` of the older package (`packages/core/utils/generate.ts`): no option
 * handling and no retries. A worker-backed model must have a bridge; any other model generates on
 * the main thread with its own generation configuration.
 */
module CoreGenerate {
  import opened Types
  import opened Protocol
  import opened Runtime
  import opened Strings
  import Bridge
  import CoreGenerateText

  const NoBridgeMessage: string := "Worker bridge not found"

  /** Where a call went: a message to the worker, a runtime call with the given configuration, or nowhere. */
  datatype Route =
    | ToWorker(messages: seq<Message>, id: string)
    | ToRuntime(messages: seq<Message>, config: map<string, Value>)
    | NoRoute

  /** What the main thread's runtime does: `generate` returns or throws, then decoding yields the text or throws. */
  datatype MainRun = MainRun(outcome: RuntimeOutcome, decoded: Result<string>)

  /** One call: how it ends and where it went. */
  datatype Generated = Generated(outcome: Outcome<Payload>, route: Route)

  /** `generateText({model, messages})` */
  function GenerateText(model: LoadedModel, messages: seq<Message>, time: nat, reply: Bridge.Settlement, run: MainRun): Generated
  {
    if !IsTrue(model.capabilities.textGeneration) then
      Generated(Thrown(ErrorPayload(PlainError(NoTextGeneration(model.id)), true)), NoRoute)
    else if model.provider == "worker" then
      if model.worker.None? || !model.worker.value.hasBridge then
        Generated(Thrown(ErrorPayload(PlainError(NoBridgeMessage), true)), NoRoute)
      else
        Generated(CoreGenerateText.ReplyOutcome(reply), ToWorker(messages, "generate-" + Decimal(time)))
    else
      var route := ToRuntime(messages, model.generationConfig);
      match run.outcome
      case RuntimeThrows(e) => Generated(Thrown(ErrorPayload(e, true)), route)
      case RuntimeReturns(_) =>
        if run.decoded.Ok? then Generated(Done(TextPayload(run.decoded.value)), route)
        else Generated(Thrown(ErrorPayload(run.decoded.error, true)), route)
  }

  /** A model without text generation is rejected first, before the provider is looked at, and nothing is sent or run. */
  lemma CapabilityFirst(model: LoadedModel, messages: seq<Message>, time: nat, reply: Bridge.Settlement, run: MainRun)
    requires !IsTrue(model.capabilities.textGeneration)
    ensures GenerateText(model, messages, time, reply, run) ==
      Generated(Thrown(ErrorPayload(PlainError("Model " + model.id + " doesn't support text generation"), true)), NoRoute)
  {
    assert NoTextGeneration(model.id) == "Model " + model.id + " doesn't support text generation";
  }

  /** A worker-backed model without a bridge fails with `Worker bridge not found` and never falls back to the main thread. */
  lemma WorkerNeedsBridge(model: LoadedModel, messages: seq<Message>, time: nat, reply: Bridge.Settlement, run: MainRun)
    requires IsTrue(model.capabilities.textGeneration) && model.provider == "worker"
    ensures !GenerateText(model, messages, time, reply, run).route.ToRuntime?
    ensures GenerateText(model, messages, time, reply, run).route.ToWorker? <==> model.worker.Some? && model.worker.value.hasBridge
    ensures model.worker.None? || !model.worker.value.hasBridge ==>
      GenerateText(model, messages, time, reply, run) == Generated(Thrown(ErrorPayload(PlainError(NoBridgeMessage), true)), NoRoute)
  {
  }

  /** Through the bridge, an `error` response is thrown with its payload, and any other response's payload is the result. */
  lemma WorkerReply(model: LoadedModel, messages: seq<Message>, time: nat, frame: Frame, run: MainRun)
    requires IsTrue(model.capabilities.textGeneration) && CoreGenerateText.UsesWorker(model)
    ensures var g := GenerateText(model, messages, time, Bridge.Resolved(frame), run);
      g.route == ToWorker(messages, "generate-" + Decimal(time))
      && (frame.kind == ErrorFrame ==> g.outcome == Thrown(frame.payload))
      && (frame.kind != ErrorFrame ==> g.outcome == Done(frame.payload))
  {
  }

  /**
   * Any provider but `worker` runs on the main thread with the model's own generation
   * configuration, even when the model carries a worker.
   */
  lemma OthersRunOnMainThread(model: LoadedModel, messages: seq<Message>, time: nat, reply: Bridge.Settlement, run: MainRun)
    requires IsTrue(model.capabilities.textGeneration) && model.provider != "worker"
    ensures GenerateText(model, messages, time, reply, run).route == ToRuntime(messages, model.generationConfig)
    ensures GenerateText(model, messages, time, reply, run).outcome.Done? <==> run.outcome.RuntimeReturns? && run.decoded.Ok?
  {
  }

  /** Unlike the full `generateText`, which falls back to the main thread, a bridgeless worker model is an error here. */
  lemma BridgelessWorkerDiffers(model: LoadedModel, messages: seq<Message>, time: nat, reply: Bridge.Settlement, run: MainRun)
    requires IsTrue(model.capabilities.textGeneration) && model.provider == "worker" && model.worker.None?
    ensures !CoreGenerateText.UsesWorker(model)
    ensures GenerateText(model, messages, time, reply, run).route == NoRoute
  {
  }
}
