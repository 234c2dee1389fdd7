/**
 * `streamText` of the older package (`packages/core/utils/stream-text.ts`): one text stream fed
 * by the worker's frames or by the main thread's tokens, and a response promise produced by the
 * same bounded retry as `generateText`.
 */
module CoreStreamText {
  import opened Types
  import opened Protocol
  import opened Request
  import opened Runtime
  import opened Retry
  import opened Strings
  import S = WandlerStreamText
  import MessageUtils
  import Bridge
  import CoreTransformers
  import CoreGenerateText

  /** The frame handler `streamWithWorker` installs, run on one frame; `aborted` is the signal's state then. */
  function OnWorkerFrame(c: S.Channel<Payload>, frame: Frame, aborted: bool): (d: S.Channel<Payload>)
    ensures aborted ==> d == S.Fail(c, ErrorPayload(PlainError(AbortMessage), true))
    ensures !aborted && frame.kind == StreamFrame ==> d == S.Enqueue(c, frame.payload)
    ensures !aborted && frame.kind == GeneratedFrame ==> d == S.Close(c)
    ensures !aborted && frame.kind == ErrorFrame ==> d == S.Fail(c, frame.payload)
    ensures !aborted && frame.kind !in {StreamFrame, GeneratedFrame, ErrorFrame} ==> d == c
  {
    if aborted then S.Fail(c, ErrorPayload(PlainError(AbortMessage), true))
    else match frame.kind
      case StreamFrame => S.Enqueue(c, frame.payload)
      case GeneratedFrame => S.Close(c)
      case ErrorFrame => S.Fail(c, frame.payload)
      case _ => c
  }

  /** Frames handled one after another, each with the signal's state when it arrived. */
  function WorkerFrames(c: S.Channel<Payload>, frames: seq<(Frame, bool)>): S.Channel<Payload>
  {
    if frames == [] then c else OnWorkerFrame(WorkerFrames(c, frames[..|frames| - 1]), frames[|frames| - 1].0, frames[|frames| - 1].1)
  }

  /** Once the stream is closed or has errored, no later frame changes it. */
  lemma {:induction false} DoneStreamIsFinal(c: S.Channel<Payload>, frames: seq<(Frame, bool)>)
    requires !c.status.Open?
    ensures WorkerFrames(c, frames) == c
    decreases |frames|
  {
    if frames != [] {
      DoneStreamIsFinal(c, frames[..|frames| - 1]);
    }
  }

  /** Before any abort, end or error, the stream holds exactly the payloads of the `stream` frames, in order. */
  lemma {:induction false} StreamHoldsPayloads(frames: seq<(Frame, bool)>)
    requires forall i :: 0 <= i < |frames| ==> frames[i].0.kind == StreamFrame && !frames[i].1
    ensures WorkerFrames(S.Channel([], S.Open), frames) == S.Channel(seq(|frames|, i requires 0 <= i < |frames| => frames[i].0.payload), S.Open)
    decreases |frames|
  {
    if frames != [] {
      var init := frames[..|frames| - 1];
      StreamHoldsPayloads(init);
    }
  }

  /** The stream of one call, fed by callbacks. */
  class CoreStream {
    var stream: S.Channel<Payload>

    constructor()
      ensures stream == S.Channel([], S.Open)
    {
      stream := S.Channel([], S.Open);
    }

    /** The handler `streamWithWorker` installs with `setMessageHandler`. */
    method HandleFrame(frame: Frame, aborted: bool)
      modifies this
      ensures stream == OnWorkerFrame(old(stream), frame, aborted)
    {
      if aborted {
        stream := S.Fail(stream, ErrorPayload(PlainError(AbortMessage), true));
        return;
      }
      match frame.kind {
        case StreamFrame => stream := S.Enqueue(stream, frame.payload);
        case GeneratedFrame => stream := S.Close(stream);
        case ErrorFrame => stream := S.Fail(stream, frame.payload);
        case _ =>
      }
    }
  }

  /** Where `streamText` goes: a `stream` message to the worker, or the runtime on the main thread with this configuration. */
  datatype Route = ToWorker(message: CoreGenerateText.WorkerMessage) | OnMainThread(config: CoreTransformers.GenerateConfig)

  /** `streamText(options)` up to the choice of path: the same checks as the newer package, then `model.worker` decides. */
  function StreamText(model: LoadedModel, options: GenerationOptions, time: nat): (r: Result<Route>)
    ensures S.StreamChecks(model, options).Err? ==> r == Err(S.StreamChecks(model, options).error)
    ensures r.Ok? ==> (r.value.ToWorker? <==> model.worker.Some?)
    ensures r.Ok? && r.value.ToWorker? ==> r.value.message.kind == StreamRequest && r.value.message.id == "stream-" + Decimal(time)
    ensures r.Ok? && r.value.OnMainThread? ==> r.value.config.hasStreamCallback
  {
    match S.StreamChecks(model, options)
    case Err(e) => Err(e)
    case Ok(p) =>
      if model.worker.Some? then
        if !model.worker.value.hasBridge then Err(S.NoBridgeError)
        else Ok(ToWorker(CoreGenerateText.WorkerMessage(StreamRequest, p.messages, p.config, "stream-" + Decimal(time))))
      else Ok(OnMainThread(CoreTransformers.GenerateConfig(false, Some(MessageUtils.AsMessages(p.messages)), true)))
  }

  /** Tokens enqueued one after another. */
  function EnqueueAll(c: S.Channel<Payload>, tokens: seq<string>): (d: S.Channel<Payload>)
    ensures d.status == c.status
    ensures !c.status.Open? ==> d == c
  {
    if tokens == [] then c else S.Enqueue(EnqueueAll(c, tokens[..|tokens| - 1]), TextPayload(tokens[|tokens| - 1]))
  }

  /** What the main thread keeps across attempts: the KV slot and the stream. */
  datatype MainState = MainState(slot: Slot, stream: S.Channel<Payload>)

  /**
   * Attempt `k` on the main thread: the runtime streams `tokens(k)` while it runs, from the slot the
   * last attempt left; a success closes the stream, a failure leaves it as it is.
   */
  function MainStep(model: LoadedModel, config: CoreTransformers.GenerateConfig,
                    runs: nat -> CoreTransformers.Run, tokens: nat -> seq<string>): (nat, MainState) -> (Outcome<Payload>, MainState)
  {
    (k: nat, m: MainState) =>
      var st := CoreTransformers.Generate(model, config, runs(k), m.slot);
      var streamed := if st.call.Some? then EnqueueAll(m.stream, tokens(k)) else m.stream;
      if st.result.Ok? then (Done(TextPayload(st.result.value.result)), MainState(st.slot, S.Close(streamed)))
      else (Thrown(ErrorPayload(st.result.error, true)), MainState(st.slot, streamed))
  }

  /** `streamInMainThread`: the retry loop around `generateWithTransformers`, streaming each attempt's tokens. */
  method StreamInMainThread(session: CoreStream, cache: CoreTransformers.KVCache, model: LoadedModel,
                            config: CoreTransformers.GenerateConfig, maxRetries: int,
                            runs: nat -> CoreTransformers.Run, tokens: nat -> seq<string>, abortedAt: nat -> bool)
    returns (response: Outcome<Payload>, attempts: nat)
    modifies session, cache
    ensures Ending(response, MainState(cache.slot, session.stream), attempts)
         == RunFrom(0, maxRetries, MainStep(model, config, runs, tokens), abortedAt, MainState(old(cache.slot), old(session.stream)))
  {
    var step := MainStep(model, config, runs, tokens);
    var retries: nat := 0;
    while true
      invariant RunFrom(retries, maxRetries, step, abortedAt, MainState(cache.slot, session.stream))
             == RunFrom(0, maxRetries, step, abortedAt, MainState(old(cache.slot), old(session.stream)))
      decreases if maxRetries > retries then maxRetries - retries else 0
    {
      var result, call := cache.GenerateWithTransformers(model, config, runs(retries));
      if call.Some? {
        var ts := tokens(retries);
        var before := session.stream;
        var slotAfter := cache.slot;
        for i := 0 to |ts|
          invariant session.stream == EnqueueAll(before, ts[..i])
          invariant cache.slot == slotAfter
        {
          assert ts[..i + 1][..i] == ts[..i];
          session.stream := S.Enqueue(session.stream, TextPayload(ts[i]));
        }
        assert ts[..|ts|] == ts;
      }
      if result.Ok? {
        session.stream := S.Close(session.stream);
        response := Done(TextPayload(result.value.result));
      } else {
        response := Thrown(ErrorPayload(result.error, true));
      }
      if response.Thrown? && retries < maxRetries && !abortedAt(retries) {
        retries := retries + 1;
      } else {
        attempts := retries + 1;
        return;
      }
    }
  }

  /** Tokens land on an open stream in order. */
  lemma {:induction false} EnqueueAllOpen(c: S.Channel<Payload>, tokens: seq<string>)
    requires c.status.Open?
    ensures EnqueueAll(c, tokens).items == c.items + seq(|tokens|, i requires 0 <= i < |tokens| => TextPayload(tokens[i]))
    decreases |tokens|
  {
    if tokens != [] {
      EnqueueAllOpen(c, tokens[..|tokens| - 1]);
    }
  }

  /** On the main thread the stream stays open until an attempt succeeds, and a success closes it. */
  lemma {:induction false} OpenUntilSuccess(model: LoadedModel, config: CoreTransformers.GenerateConfig,
                                             runs: nat -> CoreTransformers.Run, tokens: nat -> seq<string>, k: nat, m: MainState)
    requires m.stream.status.Open?
    ensures var (o, m') := MainStep(model, config, runs, tokens)(k, m);
      (o.Done? ==> m'.stream.status == S.Closed) && (o.Thrown? ==> m'.stream.status == S.Open)
  {
    var st := CoreTransformers.Generate(model, config, runs(k), m.slot);
    var streamed := if st.call.Some? then EnqueueAll(m.stream, tokens(k)) else m.stream;
    assert streamed.status == S.Open;
    if st.result.Ok? {
      assert MainStep(model, config, runs, tokens)(k, m) == (Done(TextPayload(st.result.value.result)), MainState(st.slot, S.Close(streamed)));
    } else {
      assert MainStep(model, config, runs, tokens)(k, m) == (Thrown(ErrorPayload(st.result.error, true)), MainState(st.slot, streamed));
    }
  }

  /**
   * A failed attempt's tokens stay on the stream: the next attempt's tokens follow them. Reading
   * the stream after a retry shows the abandoned attempt's text and then the new one.
   */
  lemma RetryKeepsEarlierTokens(model: LoadedModel, config: CoreTransformers.GenerateConfig,
                                runs: nat -> CoreTransformers.Run, tokens: nat -> seq<string>, m: MainState)
    requires m.stream == S.Channel([], S.Open)
    requires CoreTransformers.Generate(model, config, runs(0), m.slot).result.Err?
    requires CoreTransformers.Generate(model, config, runs(0), m.slot).call.Some?
    ensures var (_, m1) := MainStep(model, config, runs, tokens)(0, m);
      m1.stream == S.Channel(seq(|tokens(0)|, i requires 0 <= i < |tokens(0)| => TextPayload(tokens(0)[i])), S.Open)
  {
    EnqueueAllOpen(m.stream, tokens(0));
  }

  /** On the worker path, the response is the retry loop around the `stream` message, the same as `generateText`'s. */
  lemma WorkerResponse(message: CoreGenerateText.WorkerMessage, maxRetries: int, replies: nat -> Bridge.Settlement, abortedAt: nat -> bool)
    ensures var e := RunFrom(0, maxRetries, CoreGenerateText.WorkerStep(message, replies), abortedAt, []);
      1 <= e.attempts <= Budget(0, maxRetries) && e.state == seq(e.attempts, _ => message)
      && e.outcome == CoreGenerateText.ReplyOutcome(replies(e.attempts - 1))
  {
    Trace(0, maxRetries, CoreGenerateText.WorkerStep(message, replies), abortedAt, []);
    var e := RunFrom(0, maxRetries, CoreGenerateText.WorkerStep(message, replies), abortedAt, []);
    CoreGenerateText.WorkerSentCopies(message, replies, e.attempts);
  }

  /** Main-thread run of one call from a fresh stream. */
  function MainThread(model: LoadedModel, config: CoreTransformers.GenerateConfig, maxRetries: int,
                      runs: nat -> CoreTransformers.Run, tokens: nat -> seq<string>, abortedAt: nat -> bool, slot: Slot): Ending<MainState, Payload>
  {
    RunFrom(0, maxRetries, MainStep(model, config, runs, tokens), abortedAt, MainState(slot, S.Channel([], S.Open)))
  }

  /** The main-thread stream is open at every attempt and only ever closes: it never errors, whatever the attempts do. */
  lemma {:induction false} MainStreamNeverErrors(model: LoadedModel, config: CoreTransformers.GenerateConfig,
                                                  runs: nat -> CoreTransformers.Run, tokens: nat -> seq<string>,
                                                  i: nat, maxRetries: int, abortedAt: nat -> bool, m: MainState)
    requires m.stream.status.Open?
    ensures var e := RunFrom(i, maxRetries, MainStep(model, config, runs, tokens), abortedAt, m);
      (e.outcome.Done? ==> e.state.stream.status == S.Closed) && (e.outcome.Thrown? ==> e.state.stream.status == S.Open)
    decreases if maxRetries > i then maxRetries - i else 0
  {
    var step := MainStep(model, config, runs, tokens);
    OpenUntilSuccess(model, config, runs, tokens, i, m);
    var (o, m') := step(i, m);
    if o.Thrown? && RetryAfter(i, maxRetries, abortedAt(i)) {
      MainStreamNeverErrors(model, config, runs, tokens, i + 1, maxRetries, abortedAt, m');
    }
  }

  /**
   * As written, a main-thread stream whose last attempt fails is left open: the response rejects
   * but a reader of the stream waits forever. With no retries and a runtime that throws, this
   * happens on the first attempt.
   */
  lemma FailedStreamLeftOpen(model: LoadedModel, config: CoreTransformers.GenerateConfig, e: ErrorInfo, slot: Slot)
    requires config.hasInputs || config.messages.Some?
    ensures var runs := (k: nat) => CoreTransformers.Run(0, RuntimeThrows(e), "");
      var end := MainThread(model, config, 0, runs, (k: nat) => [], (k: nat) => false, slot);
      end.outcome.Thrown? && end.state.stream.status == S.Open
  {
    var runs := (k: nat) => CoreTransformers.Run(0, RuntimeThrows(e), "");
    var tokens := (k: nat) => [];
    var m := MainState(slot, S.Channel([], S.Open));
    assert CoreTransformers.Generate(model, config, runs(0), slot).result.Err?;
    OpenUntilSuccess(model, config, runs, tokens, 0, m);
    assert MainStep(model, config, runs, tokens)(0, m).0.Thrown?;
  }

  /** The evidently intended ending: once the response rejects, the stream errors with the same reason. */
  function MainThreadCorrected(model: LoadedModel, config: CoreTransformers.GenerateConfig, maxRetries: int,
                               runs: nat -> CoreTransformers.Run, tokens: nat -> seq<string>, abortedAt: nat -> bool, slot: Slot): Ending<MainState, Payload>
  {
    var e := MainThread(model, config, maxRetries, runs, tokens, abortedAt, slot);
    if e.outcome.Thrown? then Ending(e.outcome, e.state.(stream := S.Fail(e.state.stream, e.outcome.error)), e.attempts)
    else e
  }

  /** With the correction, a reader is never left waiting: the stream is closed exactly when the response resolves and errored with its reason otherwise. */
  lemma CorrectedStreamEnds(model: LoadedModel, config: CoreTransformers.GenerateConfig, maxRetries: int,
                            runs: nat -> CoreTransformers.Run, tokens: nat -> seq<string>, abortedAt: nat -> bool, slot: Slot)
    ensures var e := MainThreadCorrected(model, config, maxRetries, runs, tokens, abortedAt, slot);
      (e.outcome.Done? <==> e.state.stream.status == S.Closed)
      && (e.outcome.Thrown? ==> e.state.stream.status == S.Errored(e.outcome.error))
  {
    MainStreamNeverErrors(model, config, runs, tokens, 0, maxRetries, abortedAt, MainState(slot, S.Channel([], S.Open)));
  }
}
