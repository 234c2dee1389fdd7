/**
 * `streamText` of the newer package (`packages/wandler/utils/stream-text.ts`): the checks and the
 * choice of path, and the two streams (`textStream` of strings, `fullStream` of parts) with the
 * result promise that the worker's frames or the main thread's tokens feed, close and fail.
 *
 * A stream controller accepts items only while its stream is open: `enqueue` and `close` on a
 * closed or errored stream throw, which ends the callback there; `error` on such a stream does
 * nothing. A promise settles once.
 */
module WandlerStreamText {
  import opened Types
  import opened Protocol
  import opened Request
  import opened MessageUtils
  import opened GenerationUtils
  import opened Runtime
  import opened Strings
  import WandlerTransformers
  import CoreGenerateText

  /** The state of one stream. */
  datatype Status = Open | Closed | Errored(reason: Payload)

  /** One stream: what has been enqueued, and its state. */
  datatype Channel<T> = Channel(items: seq<T>, status: Status)

  /** `controller.enqueue(x)`; only an open stream takes it. */
  function Enqueue<T>(c: Channel<T>, x: T): (d: Channel<T>)
    ensures d.status == c.status
    ensures d.items == if c.status.Open? then c.items + [x] else c.items
  {
    if c.status.Open? then Channel(c.items + [x], c.status) else c
  }

  /** `controller.close()` */
  function Close<T>(c: Channel<T>): (d: Channel<T>)
    ensures d.items == c.items
    ensures d.status == if c.status.Open? then Closed else c.status
  {
    if c.status.Open? then Channel(c.items, Closed) else c
  }

  /** `controller.error(reason)`; a stream that is no longer open is left as it is. */
  function Fail<T>(c: Channel<T>, reason: Payload): (d: Channel<T>)
    ensures d.items == c.items
    ensures d.status == if c.status.Open? then Errored(reason) else c.status
  {
    if c.status.Open? then Channel(c.items, Errored(reason)) else c
  }

  /** One `onChunk` call. */
  datatype Chunk = Chunk(kind: string, text: string)

  /** The two streams, the result promise (`None` while pending) and the `onChunk` calls made. */
  datatype Session = Session(text: Channel<string>, full: Channel<Payload>, result: Option<Outcome<Payload>>, chunks: seq<Chunk>)

  const Start: Session := Session(Channel([], Open), Channel([], Open), None, [])

  /** `resolve`/`reject`: only the first call counts. */
  function SettleOnce(result: Option<Outcome<Payload>>, o: Outcome<Payload>): (r: Option<Outcome<Payload>>)
    ensures r == if result.None? then Some(o) else result
  {
    if result.None? then Some(o) else result
  }

  /** Both streams error with `reason` and the result rejects with it. */
  function FailAll(s: Session, reason: Payload): (t: Session)
    ensures t.text == Fail(s.text, reason) && t.full == Fail(s.full, reason) && t.chunks == s.chunks
    ensures t.result == SettleOnce(s.result, Thrown(reason))
  {
    Session(Fail(s.text, reason), Fail(s.full, reason), SettleOnce(s.result, Thrown(reason)), s.chunks)
  }

  /** Both streams close and the result resolves with `value`; on a stream already done, `close` throws and nothing happens. */
  function CloseAll(s: Session, value: Payload): (t: Session)
    ensures s.text.status.Open? ==> t == Session(Close(s.text), Close(s.full), SettleOnce(s.result, Done(value)), s.chunks)
    ensures !s.text.status.Open? ==> t == s
  {
    if s.text.status.Open? then Session(Close(s.text), Close(s.full), SettleOnce(s.result, Done(value)), s.chunks) else s
  }

  /** A part of the given type whose `textDelta` is non-empty. */
  predicate Carries(p: Payload, kind: string)
  {
    p.PartPayload? && p.part.kind == kind && p.part.textDelta.Some? && p.part.textDelta.value != ""
  }

  /** `e.data.payload instanceof Error ? e.data.payload : new Error(e.data.payload)` */
  function AsError(p: Payload): (e: ErrorInfo)
    ensures p.ErrorPayload? && p.isInstance ==> e == p.info
    ensures p.ErrorPayload? && !p.isInstance ==> e == PlainError("[object Object]")
    ensures p.TextPayload? ==> e == PlainError(p.text)
  {
    match p
    case ErrorPayload(info, isInstance) => if isInstance then info else PlainError("[object Object]")
    case TextPayload(t) => PlainError(t)
    case NoPayload => PlainError("")
    case _ => PlainError("[object Object]")
  }

  /** The frame handler `streamWithWorker` installs, run on one frame; `aborted` is the signal's state then. */
  function OnFrame(s: Session, frame: Frame, aborted: bool, hasOnChunk: bool): Session
  {
    if aborted then FailAll(s, ErrorPayload(AbortError(), true))
    else match frame.kind
      case StreamFrame =>
        if !s.full.status.Open? then s
        else
          var p := frame.payload;
          var s1 := s.(full := Enqueue(s.full, p));
          if Carries(p, "text-delta") then
            s1.(text := Enqueue(s1.text, p.part.textDelta.value),
                chunks := s1.chunks + (if hasOnChunk then [Chunk("text-delta", p.part.textDelta.value)] else []))
          else if Carries(p, "reasoning") then
            s1.(chunks := s1.chunks + (if hasOnChunk then [Chunk("reasoning", p.part.textDelta.value)] else []))
          else s1
      case GeneratedFrame => CloseAll(s, frame.payload)
      case ErrorFrame => FailAll(s, ErrorPayload(AsError(frame.payload), true))
      case _ => s
  }

  /** The main thread's streamer callback, run on one token: the token on the text stream, a `text-delta` part on the full stream. */
  function OnToken(s: Session, token: string): Session
  {
    if !s.text.status.Open? then s
    else s.(text := Enqueue(s.text, token), full := Enqueue(s.full, PartPayload(StreamPart("text-delta", Some(token)))))
  }

  /** The extra parts a finished main-thread run adds to the full stream: every part that is not a `text-delta`, in order. */
  function Extras(parts: seq<StreamPart>): (r: seq<Payload>)
    ensures |r| <= |parts|
    ensures forall i :: 0 <= i < |r| ==> r[i].PartPayload? && r[i].part.kind != "text-delta"
  {
    if parts == [] then []
    else Extras(parts[..|parts| - 1]) + (if parts[|parts| - 1].kind != "text-delta" then [PartPayload(parts[|parts| - 1])] else [])
  }

  /** Completion on the main thread: the extra parts, then both streams close and the result resolves. */
  function OnGenerated(s: Session, value: Payload, streamParts: Option<seq<StreamPart>>): Session
  {
    if !s.full.status.Open? then s
    else
      var s1 := if streamParts.Some? then s.(full := Channel(s.full.items + Extras(streamParts.value), s.full.status)) else s;
      CloseAll(s1, value)
  }

  /** The text each `text-delta` part on the full stream carries (empty when it has none). */
  function Deltas(items: seq<Payload>): seq<string>
  {
    if items == [] then []
    else
      var p := items[|items| - 1];
      Deltas(items[..|items| - 1])
      + (if p.PartPayload? && p.part.kind == "text-delta" then [if p.part.textDelta.Some? then p.part.textDelta.value else ""] else [])
  }

  /** The strings joined end to end. */
  function Concat(parts: seq<string>): string
  {
    if parts == [] then [] else Concat(parts[..|parts| - 1]) + parts[|parts| - 1]
  }

  lemma ConcatSnoc(parts: seq<string>, x: string)
    ensures Concat(parts + [x]) == Concat(parts) + x
  {
    assert (parts + [x])[..|parts|] == parts;
  }

  lemma DeltasSnoc(items: seq<Payload>, p: Payload)
    ensures Deltas(items + [p]) == Deltas(items)
      + (if p.PartPayload? && p.part.kind == "text-delta" then [if p.part.textDelta.Some? then p.part.textDelta.value else ""] else [])
  {
    assert (items + [p])[..|items|] == items;
  }

  lemma {:induction false} DeltasAppendExtras(items: seq<Payload>, parts: seq<StreamPart>)
    ensures Deltas(items + Extras(parts)) == Deltas(items)
    decreases |parts|
  {
    if parts == [] {
      assert items + Extras(parts) == items;
    } else {
      var init := parts[..|parts| - 1];
      var last := parts[|parts| - 1];
      DeltasAppendExtras(items, init);
      if last.kind != "text-delta" {
        assert items + Extras(parts) == (items + Extras(init)) + [PartPayload(last)];
        DeltasSnoc(items + Extras(init), PartPayload(last));
      } else {
        assert Extras(parts) == Extras(init);
      }
    }
  }

  /**
   * The invariant both paths keep: the two streams are in the same state; the text stream spells
   * out exactly the text deltas of the full stream; the result is pending while the streams are
   * open, resolved once they are closed, and rejected with the reason once they have errored.
   */
  predicate Coherent(s: Session)
  {
    s.text.status == s.full.status
    && Concat(s.text.items) == Concat(Deltas(s.full.items))
    && (s.text.status.Open? <==> s.result.None?)
    && (s.text.status.Closed? ==> s.result.Some? && s.result.value.Done?)
    && (s.text.status.Errored? ==> s.result == Some(Thrown(s.text.status.reason)))
  }

  lemma StartCoherent()
    ensures Coherent(Start)
  {
  }

  lemma FailAllCoherent(s: Session, reason: Payload)
    requires Coherent(s)
    ensures Coherent(FailAll(s, reason))
  {
  }

  /** Every frame keeps the invariant. */
  lemma FrameCoherent(s: Session, frame: Frame, aborted: bool, hasOnChunk: bool)
    requires Coherent(s)
    ensures Coherent(OnFrame(s, frame, aborted, hasOnChunk))
  {
    if !aborted && frame.kind == StreamFrame && s.full.status.Open? {
      var p := frame.payload;
      DeltasSnoc(s.full.items, p);
      if Carries(p, "text-delta") {
        ConcatSnoc(s.text.items, p.part.textDelta.value);
        ConcatSnoc(Deltas(s.full.items), p.part.textDelta.value);
      } else if p.PartPayload? && p.part.kind == "text-delta" {
        var d := if p.part.textDelta.Some? then p.part.textDelta.value else "";
        assert d == "";
        ConcatSnoc(Deltas(s.full.items), d);
        assert Concat(Deltas(s.full.items)) + d == Concat(Deltas(s.full.items));
      } else {
        assert Deltas(s.full.items) + [] == Deltas(s.full.items);
      }
    }
  }

  /** Every main-thread token keeps the invariant. */
  lemma TokenCoherent(s: Session, token: string)
    requires Coherent(s)
    ensures Coherent(OnToken(s, token))
  {
    if s.text.status.Open? {
      DeltasSnoc(s.full.items, PartPayload(StreamPart("text-delta", Some(token))));
      ConcatSnoc(s.text.items, token);
      ConcatSnoc(Deltas(s.full.items), token);
    }
  }

  /** Main-thread completion keeps the invariant, whatever extra parts come with it. */
  lemma GeneratedCoherent(s: Session, value: Payload, streamParts: Option<seq<StreamPart>>)
    requires Coherent(s)
    ensures Coherent(OnGenerated(s, value, streamParts))
  {
    if s.full.status.Open? && streamParts.Some? {
      DeltasAppendExtras(s.full.items, streamParts.value);
    }
  }

  /** Frames handled one after another, each with the signal's state when it arrived. */
  function Frames(s: Session, frames: seq<(Frame, bool)>, hasOnChunk: bool): Session
  {
    if frames == [] then s
    else OnFrame(Frames(s, frames[..|frames| - 1], hasOnChunk), frames[|frames| - 1].0, frames[|frames| - 1].1, hasOnChunk)
  }

  /** However many frames arrive, the invariant holds after each of them. */
  lemma {:induction false} FramesCoherent(s: Session, frames: seq<(Frame, bool)>, hasOnChunk: bool)
    requires Coherent(s)
    ensures Coherent(Frames(s, frames, hasOnChunk))
    decreases |frames|
  {
    if frames != [] {
      FramesCoherent(s, frames[..|frames| - 1], hasOnChunk);
      FrameCoherent(Frames(s, frames[..|frames| - 1], hasOnChunk), frames[|frames| - 1].0, frames[|frames| - 1].1, hasOnChunk);
    }
  }

  /** Once the result has settled, later frames change neither it nor what the streams hold. */
  lemma {:induction false} SettledIsFinal(s: Session, frames: seq<(Frame, bool)>, hasOnChunk: bool)
    requires Coherent(s) && s.result.Some?
    ensures Frames(s, frames, hasOnChunk).result == s.result
    ensures Frames(s, frames, hasOnChunk).text == s.text && Frames(s, frames, hasOnChunk).full == s.full
    decreases |frames|
  {
    if frames != [] {
      SettledIsFinal(s, frames[..|frames| - 1], hasOnChunk);
    }
  }

  /** A frame that arrives after the signal has fired is ignored: both streams error with `AbortError` and the result rejects. */
  lemma AbortedFrameIgnored(s: Session, frame: Frame, hasOnChunk: bool)
    requires Coherent(s) && s.text.status.Open?
    ensures var t := OnFrame(s, frame, true, hasOnChunk);
      var abort := ErrorPayload(AbortError(), true);
      t.text == Channel(s.text.items, Errored(abort)) && t.full == Channel(s.full.items, Errored(abort))
      && t.result == Some(Thrown(abort)) && t.chunks == s.chunks
  {
  }

  /**
   * On an open session, every `stream` frame's payload goes to the full stream; the text stream
   * and `onChunk("text-delta")` get its text exactly when it is a `text-delta` part with non-empty
   * text; a `reasoning` part with text reaches only `onChunk("reasoning")`.
   */
  lemma StreamFrameRouting(s: Session, frame: Frame, hasOnChunk: bool)
    requires s.text.status.Open? && s.full.status.Open? && frame.kind == StreamFrame
    ensures var t := OnFrame(s, frame, false, hasOnChunk);
      var p := frame.payload;
      t.full.items == s.full.items + [p] && t.result == s.result
      && (Carries(p, "text-delta") ==>
            t.text.items == s.text.items + [p.part.textDelta.value]
            && t.chunks == s.chunks + (if hasOnChunk then [Chunk("text-delta", p.part.textDelta.value)] else []))
      && (!Carries(p, "text-delta") ==> t.text == s.text)
      && (Carries(p, "reasoning") ==> t.chunks == s.chunks + (if hasOnChunk then [Chunk("reasoning", p.part.textDelta.value)] else []))
      && (!Carries(p, "text-delta") && !Carries(p, "reasoning") ==> t.chunks == s.chunks)
  {
  }

  /** A `generated` frame closes both streams and resolves the result with its payload; an `error` frame errors both and rejects. */
  lemma EndFrames(s: Session, frame: Frame, hasOnChunk: bool)
    requires Coherent(s) && s.text.status.Open?
    ensures frame.kind == GeneratedFrame ==>
      OnFrame(s, frame, false, hasOnChunk) == Session(Channel(s.text.items, Closed), Channel(s.full.items, Closed), Some(Done(frame.payload)), s.chunks)
    ensures frame.kind == ErrorFrame ==>
      var reason := ErrorPayload(AsError(frame.payload), true);
      OnFrame(s, frame, false, hasOnChunk) == Session(Channel(s.text.items, Errored(reason)), Channel(s.full.items, Errored(reason)), Some(Thrown(reason)), s.chunks)
  {
  }

  /** A plain-object error payload, as the worker posts it, surfaces with the message `[object Object]`, losing the worker's text. */
  lemma PlainErrorLosesMessage(s: Session, info: ErrorInfo, id: string)
    requires Coherent(s) && s.text.status.Open?
    ensures OnFrame(s, Frame(ErrorFrame, ErrorPayload(info, false), id), false, false).result ==
      Some(Thrown(ErrorPayload(PlainError("[object Object]"), true)))
  {
  }

  /** The two streams and the result promise of one call, fed by callbacks. */
  class StreamSession {
    var text: Channel<string>
    var full: Channel<Payload>
    var result: Option<Outcome<Payload>>
    var chunks: seq<Chunk>

    function State(): Session
      reads this
    {
      Session(text, full, result, chunks)
    }

    constructor()
      ensures State() == Start && Coherent(State())
    {
      text := Channel([], Open);
      full := Channel([], Open);
      result := None;
      chunks := [];
    }

    /** The handler `streamWithWorker` installs with `setMessageHandler`. */
    method HandleFrame(frame: Frame, aborted: bool, hasOnChunk: bool)
      modifies this
      ensures State() == OnFrame(old(State()), frame, aborted, hasOnChunk)
    {
      if aborted {
        var abort := ErrorPayload(AbortError(), true);
        text, full, result := Fail(text, abort), Fail(full, abort), SettleOnce(result, Thrown(abort));
        return;
      }
      match frame.kind {
        case StreamFrame =>
          if full.status.Open? {
            var p := frame.payload;
            full := Enqueue(full, p);
            if Carries(p, "text-delta") {
              text := Enqueue(text, p.part.textDelta.value);
              if hasOnChunk {
                chunks := chunks + [Chunk("text-delta", p.part.textDelta.value)];
              }
            } else if Carries(p, "reasoning") {
              if hasOnChunk {
                chunks := chunks + [Chunk("reasoning", p.part.textDelta.value)];
              }
            }
          }
        case GeneratedFrame =>
          if text.status.Open? {
            text, full, result := Close(text), Close(full), SettleOnce(result, Done(frame.payload));
          }
        case ErrorFrame =>
          var reason := ErrorPayload(AsError(frame.payload), true);
          text, full, result := Fail(text, reason), Fail(full, reason), SettleOnce(result, Thrown(reason));
        case _ =>
      }
    }

    /** The `catch` on `bridge.sendMessage(message)` and on the main thread's run: both streams error and the result rejects. */
    method FailWith(reason: Payload)
      modifies this
      ensures State() == FailAll(old(State()), reason)
    {
      text, full, result := Fail(text, reason), Fail(full, reason), SettleOnce(result, Thrown(reason));
    }

    /** The main thread's streamer callback. */
    method HandleToken(token: string)
      modifies this
      ensures State() == OnToken(old(State()), token)
    {
      if text.status.Open? {
        text := Enqueue(text, token);
        full := Enqueue(full, PartPayload(StreamPart("text-delta", Some(token))));
      }
    }

    /** The main thread's completion: the loop over `streamParts`, then both streams close and the result resolves. */
    method HandleGenerated(value: Payload, streamParts: Option<seq<StreamPart>>)
      modifies this
      ensures State() == OnGenerated(old(State()), value, streamParts)
    {
      if !full.status.Open? {
        return;
      }
      if streamParts.Some? {
        var parts := streamParts.value;
        var items := full.items;
        for i := 0 to |parts|
          invariant items == old(full.items) + Extras(parts[..i])
        {
          assert parts[..i + 1][..i] == parts[..i];
          if parts[i].kind != "text-delta" {
            items := items + [PartPayload(parts[i])];
          }
        }
        assert parts[..|parts|] == parts;
        full := Channel(items, full.status);
      }
      if text.status.Open? {
        text, full, result := Close(text), Close(full), SettleOnce(result, Done(value));
      }
    }
  }

  /** The checks `streamText` runs, in their order: capability, messages, configuration. There is no abort check. */
  function StreamChecks(model: LoadedModel, options: GenerationOptions): (r: Result<CoreGenerateText.Prepared>)
    ensures !IsTrue(model.capabilities.textGeneration) ==> r == Err(PlainError(NoTextGeneration(model.id)))
    ensures r.Ok? <==>
      IsTrue(model.capabilities.textGeneration) && Validate(Prepare(options)).Ok?
      && ValidateGenerationConfig(PrepareGenerationConfig(options, model.generationConfig)).Ok?
    ensures r.Ok? ==> r.value == CoreGenerateText.Prepared(Prepare(options), PrepareGenerationConfig(options, model.generationConfig))
  {
    if !IsTrue(model.capabilities.textGeneration) then Err(PlainError(NoTextGeneration(model.id)))
    else
      var messages := Prepare(options);
      var checked := Validate(messages);
      if checked.Err? then Err(checked.error)
      else
        var config := PrepareGenerationConfig(options, model.generationConfig);
        var valid := ValidateGenerationConfig(config);
        if valid.Err? then Err(valid.error) else Ok(CoreGenerateText.Prepared(messages, config))
  }

  /** The error a worker-backed model without a bridge raises when the handler is installed. */
  const NoBridgeError: ErrorInfo := ErrorInfo("TypeError", "Cannot read properties of undefined (reading 'setMessageHandler')", None)

  /** Where `streamText` goes: a `stream` message to the worker, or the runtime on the main thread with this configuration. */
  datatype Route = ToWorker(message: CoreGenerateText.WorkerMessage) | OnMainThread(config: WandlerTransformers.GenerateConfig)

  /** `streamText(options)` up to the choice of path. */
  function StreamText(model: LoadedModel, options: GenerationOptions, time: nat): (r: Result<Route>)
    ensures StreamChecks(model, options).Err? ==> r == Err(StreamChecks(model, options).error)
    ensures r.Ok? ==> (r.value.ToWorker? <==> model.worker.Some?)
    ensures model.worker.Some? && !model.worker.value.hasBridge ==> r.Err?
  {
    match StreamChecks(model, options)
    case Err(e) => Err(e)
    case Ok(p) =>
      if model.worker.Some? then
        if !model.worker.value.hasBridge then Err(NoBridgeError)
        else Ok(ToWorker(CoreGenerateText.WorkerMessage(StreamRequest, p.messages, p.config, "stream-" + Decimal(time))))
      else Ok(OnMainThread(WandlerTransformers.GenerateConfig(false, Some(AsMessages(p.messages)))))
  }

  /** The record the main thread's result resolves with. */
  function AsResult(g: WandlerTransformers.Generated): Payload
  {
    ResultPayload(GenerationResult(Some(g.text), g.reasoning, g.sources, Some(g.finishReason), Some(g.usage), Some(g.messages)))
  }

  /** Tokens streamed one after another. */
  function Tokens(s: Session, tokens: seq<string>): Session
  {
    if tokens == [] then s else OnToken(Tokens(s, tokens[..|tokens| - 1]), tokens[|tokens| - 1])
  }

  /** The abort signal is not part of the main thread's runtime configuration, so the runtime never sees it. */
  function Unsignalled(run: WandlerTransformers.Run): WandlerTransformers.Run
  {
    run.(abortedBefore := false, abortedAfter := false)
  }

  /**
   * `streamInMainThread` from KV slot `slot`: the runtime streams `tokens` while it runs, then the
   * session completes or fails. The result promise carries the runtime's result record.
   */
  function MainThread(s: Session, model: LoadedModel, config: WandlerTransformers.GenerateConfig,
                      run: WandlerTransformers.Run, tokens: seq<string>, slot: Slot): (Session, Slot)
  {
    var st := WandlerTransformers.Generate(model, config, Unsignalled(run), slot);
    var streamed := if st.call.Some? then Tokens(s, tokens) else s;
    match st.result
    case Ok(g) => (OnGenerated(streamed, AsResult(g), None), st.slot)
    case Err(e) => (FailAll(streamed, ErrorPayload(e, true)), st.slot)
  }

  /** The main-thread path of one session. */
  method StreamInMainThread(session: StreamSession, cache: WandlerTransformers.KVCache, model: LoadedModel,
                            config: WandlerTransformers.GenerateConfig, run: WandlerTransformers.Run, tokens: seq<string>)
    modifies session, cache
    ensures (session.State(), cache.slot) == MainThread(old(session.State()), model, config, run, tokens, old(cache.slot))
  {
    var result, call := cache.GenerateWithTransformers(model, config, Unsignalled(run));
    if call.Some? {
      var slotAfter := cache.slot;
      for i := 0 to |tokens|
        invariant session.State() == Tokens(old(session.State()), tokens[..i])
        invariant cache.slot == slotAfter
      {
        assert tokens[..i + 1][..i] == tokens[..i];
        session.HandleToken(tokens[i]);
      }
      assert tokens[..|tokens|] == tokens;
    }
    match result {
      case Ok(g) => session.HandleGenerated(AsResult(g), None);
      case Err(e) => session.FailWith(ErrorPayload(e, true));
    }
  }

  /** Streaming many tokens keeps the invariant. */
  lemma {:induction false} TokensCoherent(s: Session, tokens: seq<string>)
    requires Coherent(s)
    ensures Coherent(Tokens(s, tokens))
    decreases |tokens|
  {
    if tokens != [] {
      TokensCoherent(s, tokens[..|tokens| - 1]);
      TokenCoherent(Tokens(s, tokens[..|tokens| - 1]), tokens[|tokens| - 1]);
    }
  }

  /** On an open session, the text stream receives exactly the tokens, in order. */
  lemma {:induction false} TokensInOrder(s: Session, tokens: seq<string>)
    requires s.text.status.Open?
    ensures Tokens(s, tokens).text == Channel(s.text.items + tokens, Open)
    decreases |tokens|
  {
    if tokens != [] {
      TokensInOrder(s, tokens[..|tokens| - 1]);
      assert s.text.items + tokens == (s.text.items + tokens[..|tokens| - 1]) + [tokens[|tokens| - 1]];
    }
  }

  /**
   * From a fresh session, the main thread's run always ends settled and coherent; a success
   * resolves it with every token on the text stream, and the abort signal never shows up as a
   * finish reason.
   */
  lemma MainThreadEnds(model: LoadedModel, config: WandlerTransformers.GenerateConfig, run: WandlerTransformers.Run, tokens: seq<string>, slot: Slot)
    ensures var (s, _) := MainThread(Start, model, config, run, tokens, slot);
      Coherent(s) && s.result.Some? && !s.text.status.Open?
      && (s.result.value.Done? ==>
            s.text == Channel(tokens, Closed)
            && s.result.value.value.ResultPayload? && s.result.value.value.result.finishReason != Some(AbortFinish))
  {
    var st := WandlerTransformers.Generate(model, config, Unsignalled(run), slot);
    UnsignalledRun(model, config, run, slot);
    StartCoherent();
    var streamed := if st.call.Some? then Tokens(Start, tokens) else Start;
    if st.call.Some? {
      TokensCoherent(Start, tokens);
      TokensInOrder(Start, tokens);
    }
    match st.result {
      case Ok(g) =>
        EndsDone(streamed, AsResult(g));
      case Err(e) =>
        EndsFailed(streamed, ErrorPayload(e, true));
    }
  }

  /** Without the signal, a run that succeeds called the runtime and did not finish by abort. */
  lemma UnsignalledRun(model: LoadedModel, config: WandlerTransformers.GenerateConfig, run: WandlerTransformers.Run, slot: Slot)
    ensures var st := WandlerTransformers.Generate(model, config, Unsignalled(run), slot);
      st.result.Ok? ==> st.call.Some? && st.result.value.finishReason != AbortFinish
  {
  }

  /** Completing an open, coherent session closes the text stream as it is and resolves the result. */
  lemma EndsDone(s: Session, value: Payload)
    requires Coherent(s) && s.text.status.Open?
    ensures var t := OnGenerated(s, value, None);
      Coherent(t) && t.text == Channel(s.text.items, Closed) && t.result == Some(Done(value))
  {
    GeneratedCoherent(s, value, None);
  }

  /** Failing an open, coherent session errors the text stream and rejects the result. */
  lemma EndsFailed(s: Session, reason: Payload)
    requires Coherent(s) && s.text.status.Open?
    ensures var t := FailAll(s, reason);
      Coherent(t) && t.text.status == Errored(reason) && t.result == Some(Thrown(reason))
  {
    FailAllCoherent(s, reason);
  }
}
