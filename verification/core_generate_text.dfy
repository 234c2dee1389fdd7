/**
 * `generateText` of the older package (`packages/core/utils/generate-text.ts`): the checks, the
 * choice between the worker and the main thread, and on either path a loop that retries a failed
 * attempt while the retry budget lasts and the signal has not fired.
 */
module CoreGenerateText {
  import opened Types
  import opened Protocol
  import opened Request
  import opened MessageUtils
  import opened GenerationUtils
  import opened Runtime
  import opened Retry
  import opened Strings
  import Bridge
  import CoreTransformers

  /** The messages and sampling configuration a request is sent with. */
  datatype Prepared = Prepared(messages: seq<PreparedMessage>, config: GenerateConfig)

  /** The checks `generateText` runs before anything is sent, in their order. */
  function Checks(model: LoadedModel, options: GenerationOptions, aborted: bool): (r: Result<Prepared>)
    ensures !IsTrue(model.capabilities.textGeneration) ==> r == Err(PlainError(NoTextGeneration(model.id)))
    ensures IsTrue(model.capabilities.textGeneration) && aborted ==> r == Err(PlainError(AbortMessage))
    ensures IsTrue(model.capabilities.textGeneration) && !aborted && Validate(Prepare(options)).Err? ==>
      r == Err(Validate(Prepare(options)).error)
    ensures r.Ok? <==>
      IsTrue(model.capabilities.textGeneration) && !aborted && Validate(Prepare(options)).Ok?
      && ValidateGenerationConfig(PrepareGenerationConfig(options, model.generationConfig)).Ok?
    ensures r.Ok? ==> r.value == Prepared(Prepare(options), PrepareGenerationConfig(options, model.generationConfig))
  {
    if !IsTrue(model.capabilities.textGeneration) then Err(PlainError(NoTextGeneration(model.id)))
    else if aborted then Err(PlainError(AbortMessage))
    else
      var messages := Prepare(options);
      var checked := Validate(messages);
      if checked.Err? then Err(checked.error)
      else
        var config := PrepareGenerationConfig(options, model.generationConfig);
        var valid := ValidateGenerationConfig(config);
        if valid.Err? then Err(valid.error) else Ok(Prepared(messages, config))
  }

  /** The worker path is taken for a worker-backed model that has a bridge. */
  predicate UsesWorker(model: LoadedModel)
  {
    model.provider == "worker" && model.worker.Some? && model.worker.value.hasBridge
  }

  /** The `generate` message; every attempt sends this same record. */
  datatype WorkerMessage = WorkerMessage(kind: RequestKind, messages: seq<PreparedMessage>, config: GenerateConfig, id: string)

  function GenerateMessage(p: Prepared, time: nat): (m: WorkerMessage)
    ensures m.kind == GenerateRequest && m.messages == p.messages && m.config == p.config
    ensures m.id == "generate-" + Decimal(time)
  {
    WorkerMessage(GenerateRequest, p.messages, p.config, "generate-" + Decimal(time))
  }

  /** One attempt on the worker: an `error` response and a rejected send both fail with the payload. */
  function ReplyOutcome(reply: Bridge.Settlement): (o: Outcome<Payload>)
    ensures reply.Rejected? ==> o == Thrown(reply.error)
    ensures reply.Resolved? && reply.frame.kind == ErrorFrame ==> o == Thrown(reply.frame.payload)
    ensures reply.Resolved? && reply.frame.kind != ErrorFrame ==> o == Done(reply.frame.payload)
  {
    match reply
    case Rejected(error) => Thrown(error)
    case Resolved(frame) => if frame.kind == ErrorFrame then Thrown(frame.payload) else Done(frame.payload)
  }

  /** Attempt `k` on the worker sends `message` and reads reply `k`; the state is the list of messages sent. */
  function WorkerStep(message: WorkerMessage, replies: nat -> Bridge.Settlement): (nat, seq<WorkerMessage>) -> (Outcome<Payload>, seq<WorkerMessage>)
  {
    (k: nat, sent: seq<WorkerMessage>) => (ReplyOutcome(replies(k)), sent + [message])
  }

  /** The runtime configuration of a main-thread attempt. */
  function MainConfig(p: Prepared): CoreTransformers.GenerateConfig
  {
    CoreTransformers.GenerateConfig(false, Some(AsMessages(p.messages)), false)
  }

  /** Attempt `k` on the main thread runs the runtime with the slot the last attempt left; the state is the slot. */
  function MainStep(model: LoadedModel, config: CoreTransformers.GenerateConfig, runs: nat -> CoreTransformers.Run): (nat, Slot) -> (Outcome<Payload>, Slot)
  {
    (k: nat, slot: Slot) =>
      var st := CoreTransformers.Generate(model, config, runs(k), slot);
      (if st.result.Ok? then Done(TextPayload(st.result.value.result)) else Thrown(ErrorPayload(st.result.error, true)), st.slot)
  }

  /**
   * What the world answers: whether the signal had fired at the call, the clock, the worker's reply
   * to each attempt, what the runtime does on each attempt, and whether the signal has fired when
   * attempt `k` fails.
   */
  datatype World = World(
    aborted: bool,
    time: nat,
    replies: nat -> Bridge.Settlement,
    runs: nat -> CoreTransformers.Run,
    abortedAt: nat -> bool)

  /** The answer to one call: its outcome, the KV slot afterwards, the worker messages sent and the attempts made. */
  datatype Answer = Answer(outcome: Outcome<Payload>, slot: Slot, sent: seq<WorkerMessage>, attempts: nat)

  /** `generateText(options)` from KV slot `slot`, as a specification. */
  function Generation(model: LoadedModel, options: GenerationOptions, world: World, slot: Slot): Answer
  {
    match Checks(model, options, world.aborted)
    case Err(e) => Answer(Thrown(ErrorPayload(e, true)), slot, [], 0)
    case Ok(p) =>
      if UsesWorker(model) then
        var e := RunFrom(0, MaxRetries(options.maxRetries), WorkerStep(GenerateMessage(p, world.time), world.replies), world.abortedAt, []);
        Answer(e.outcome, slot, e.state, e.attempts)
      else
        var e := RunFrom(0, MaxRetries(options.maxRetries), MainStep(model, MainConfig(p), world.runs), world.abortedAt, slot);
        Answer(e.outcome, e.state, [], e.attempts)
  }

  /** `generateWithWorker`: the retry loop around `bridge.sendMessage(message)`. */
  method GenerateWithWorker(message: WorkerMessage, maxRetries: int, replies: nat -> Bridge.Settlement, abortedAt: nat -> bool)
    returns (outcome: Outcome<Payload>, sent: seq<WorkerMessage>, attempts: nat)
    ensures Ending(outcome, sent, attempts) == RunFrom(0, maxRetries, WorkerStep(message, replies), abortedAt, [])
  {
    var retries: nat := 0;
    sent := [];
    while true
      invariant RunFrom(retries, maxRetries, WorkerStep(message, replies), abortedAt, sent)
             == RunFrom(0, maxRetries, WorkerStep(message, replies), abortedAt, [])
      decreases if maxRetries > retries then maxRetries - retries else 0
    {
      outcome := ReplyOutcome(replies(retries));
      sent := sent + [message];
      if outcome.Thrown? && retries < maxRetries && !abortedAt(retries) {
        retries := retries + 1;
      } else {
        attempts := retries + 1;
        return;
      }
    }
  }

  /** `generateInMainThread`: the retry loop around `generateWithTransformers`, which updates the KV slot. */
  method GenerateInMainThread(cache: CoreTransformers.KVCache, model: LoadedModel, config: CoreTransformers.GenerateConfig,
                              maxRetries: int, runs: nat -> CoreTransformers.Run, abortedAt: nat -> bool)
    returns (outcome: Outcome<Payload>, attempts: nat)
    modifies cache
    ensures Ending(outcome, cache.slot, attempts) == RunFrom(0, maxRetries, MainStep(model, config, runs), abortedAt, old(cache.slot))
  {
    var retries: nat := 0;
    while true
      invariant RunFrom(retries, maxRetries, MainStep(model, config, runs), abortedAt, cache.slot)
             == RunFrom(0, maxRetries, MainStep(model, config, runs), abortedAt, old(cache.slot))
      decreases if maxRetries > retries then maxRetries - retries else 0
    {
      var result, _ := cache.GenerateWithTransformers(model, config, runs(retries));
      outcome := if result.Ok? then Done(TextPayload(result.value.result)) else Thrown(ErrorPayload(result.error, true));
      if outcome.Thrown? && retries < maxRetries && !abortedAt(retries) {
        retries := retries + 1;
      } else {
        attempts := retries + 1;
        return;
      }
    }
  }

  /** `generateText(options)` */
  method GenerateText(cache: CoreTransformers.KVCache, model: LoadedModel, options: GenerationOptions, world: World)
    returns (outcome: Outcome<Payload>, sent: seq<WorkerMessage>, attempts: nat)
    modifies cache
    ensures Answer(outcome, cache.slot, sent, attempts) == Generation(model, options, world, old(cache.slot))
  {
    var checked := Checks(model, options, world.aborted);
    if checked.Err? {
      return Thrown(ErrorPayload(checked.error, true)), [], 0;
    }
    var p := checked.value;
    if UsesWorker(model) {
      outcome, sent, attempts := GenerateWithWorker(GenerateMessage(p, world.time), MaxRetries(options.maxRetries), world.replies, world.abortedAt);
    } else {
      outcome, attempts := GenerateInMainThread(cache, model, MainConfig(p), MaxRetries(options.maxRetries), world.runs, world.abortedAt);
      sent := [];
    }
  }

  /** A request that fails a check sends nothing, runs nothing and leaves the KV slot alone. */
  lemma FailedCheckRunsNothing(model: LoadedModel, options: GenerationOptions, world: World, slot: Slot)
    requires Checks(model, options, world.aborted).Err?
    ensures var a := Generation(model, options, world, slot);
      a.attempts == 0 && a.sent == [] && a.slot == slot
      && a.outcome == Thrown(ErrorPayload(Checks(model, options, world.aborted).error, true))
  {
  }

  /** An aborted signal is reported before the messages are looked at, but only for a model that can generate. */
  lemma AbortCheckedBeforeMessages(model: LoadedModel, options: GenerationOptions, world: World, slot: Slot)
    requires IsTrue(model.capabilities.textGeneration) && world.aborted
    ensures Generation(model, options, world, slot).outcome == Thrown(ErrorPayload(PlainError(AbortMessage), true))
  {
  }

  /** However attempts go, at most `maxRetries + 1` are made (one when `maxRetries` is not positive). */
  lemma AttemptsBounded(model: LoadedModel, options: GenerationOptions, world: World, slot: Slot)
    ensures var m := MaxRetries(options.maxRetries);
      Generation(model, options, world, slot).attempts <= (if m > 0 then m + 1 else 1)
  {
  }

  /** Every attempt's message is the same: the worker sees `attempts` copies of one message under one id. */
  lemma {:induction false} WorkerSentCopies(message: WorkerMessage, replies: nat -> Bridge.Settlement, k: nat)
    ensures StateAfter(0, k, WorkerStep(message, replies), []) == seq(k, _ => message)
    decreases k
  {
    if k > 0 {
      WorkerSentCopies(message, replies, k - 1);
    }
  }

  /**
   * On the worker path, the message is sent once per attempt, always the same one with id
   * `generate-<time>`; the outcome is that of the last reply; the KV slot is not touched.
   */
  lemma WorkerPath(model: LoadedModel, options: GenerationOptions, world: World, slot: Slot)
    requires UsesWorker(model) && Checks(model, options, world.aborted).Ok?
    ensures var a := Generation(model, options, world, slot);
      var message := GenerateMessage(Checks(model, options, world.aborted).value, world.time);
      a.slot == slot && 1 <= a.attempts && a.sent == seq(a.attempts, _ => message)
      && a.outcome == ReplyOutcome(world.replies(a.attempts - 1))
  {
    var p := Checks(model, options, world.aborted).value;
    var message := GenerateMessage(p, world.time);
    var step := WorkerStep(message, world.replies);
    var m := MaxRetries(options.maxRetries);
    Trace(0, m, step, world.abortedAt, []);
    var e := RunFrom(0, m, step, world.abortedAt, []);
    WorkerSentCopies(message, world.replies, e.attempts);
  }

  /** A worker that rejects every attempt, with the signal never firing, is tried exactly `maxRetries + 1` times. */
  lemma WorkerAlwaysFailing(model: LoadedModel, options: GenerationOptions, world: World, slot: Slot)
    requires UsesWorker(model) && Checks(model, options, world.aborted).Ok?
    requires forall k: nat :: world.replies(k).Rejected?
    requires forall k: nat :: !world.abortedAt(k)
    ensures var m := MaxRetries(options.maxRetries);
      Generation(model, options, world, slot).attempts == (if m > 0 then m + 1 else 1)
      && Generation(model, options, world, slot).outcome.Thrown?
  {
    var p := Checks(model, options, world.aborted).value;
    var step := WorkerStep(GenerateMessage(p, world.time), world.replies);
    forall k: nat, t: seq<WorkerMessage> ensures step(k, t).0.Thrown? {
    }
    FailuresExhaustBudget(0, MaxRetries(options.maxRetries), step, world.abortedAt, []);
  }

  /** A failed first attempt with the signal already fired is not retried, whatever the budget. */
  lemma AbortedFailureNotRetried(model: LoadedModel, options: GenerationOptions, world: World, slot: Slot)
    requires Checks(model, options, world.aborted).Ok? && world.abortedAt(0)
    requires UsesWorker(model) ==> ReplyOutcome(world.replies(0)).Thrown?
    requires !UsesWorker(model) ==> CoreTransformers.Generate(model, MainConfig(Checks(model, options, world.aborted).value), world.runs(0), slot).result.Err?
    ensures Generation(model, options, world, slot).attempts == 1
    ensures Generation(model, options, world, slot).outcome.Thrown?
  {
  }

  /** The main thread sends nothing to a worker, and the KV slot afterwards is the one the last attempt left. */
  lemma MainThreadPath(model: LoadedModel, options: GenerationOptions, world: World, slot: Slot)
    requires !UsesWorker(model) && Checks(model, options, world.aborted).Ok?
    ensures var a := Generation(model, options, world, slot);
      var config := MainConfig(Checks(model, options, world.aborted).value);
      var before := StateAfter(0, a.attempts - 1, MainStep(model, config, world.runs), slot);
      var last := CoreTransformers.Generate(model, config, world.runs(a.attempts - 1), before);
      a.sent == [] && 1 <= a.attempts && a.slot == last.slot
      && (a.outcome.Done? <==> last.result.Ok?)
  {
    var config := MainConfig(Checks(model, options, world.aborted).value);
    Trace(0, MaxRetries(options.maxRetries), MainStep(model, config, world.runs), world.abortedAt, slot);
  }
}
