/**
 * The chat hook of the React package (`packages/react/hooks/useChat.ts`). The hook keeps the
 * message list, the input, the loading flag, the error, the status and the current abort
 * controller. Its `setMessages` updates are list functions: append a message, add a part to
 * the last assistant message, mark a message complete, or grow the streamed assistant message
 * by each chunk's text or reasoning.
 *
 * Message ids (`uuidv4`) and timestamps (`Date.now`) are parameters. React batches the state
 * updates; here each update applies when its event happens.
 */
module UseChat {
  import opened Types
  import opened Strings
  import opened Protocol
  import WandlerStreamText

  /** `MessagePartUnion`; a tool call's arguments and a source's extra fields are kept as text. */
  datatype Part =
    | TextPart(text: string)
    | ReasoningPart(reasoning: string)
    | ToolCallPart(tool: string, args: string)
    | SourcePart(url: Option<string>, title: Option<string>)

  /** The hook's `Message`; data, annotations and tool invocations are not modelled. */
  datatype ChatMessage = ChatMessage(
    id: string,
    role: string,
    content: string,
    isComplete: Option<bool>,
    createdAt: int,
    parts: Option<seq<Part>>)

  /** `StreamChunk` */
  datatype StreamChunk = StreamChunk(kind: string, text: Option<string>)

  datatype Status = Idle | Loading | Streaming | ErrorStatus

  // --------------------------------------------------------------- list updates

  /** The position of the last assistant message (`map`, `filter`, `pop`), if any. */
  function LastAssistant(ms: seq<ChatMessage>): (r: Option<nat>)
    ensures r.Some? ==>
      r.value < |ms| && ms[r.value].role == "assistant"
      && forall j :: r.value < j < |ms| ==> ms[j].role != "assistant"
    ensures r.None? ==> forall j :: 0 <= j < |ms| ==> ms[j].role != "assistant"
  {
    if ms == [] then None
    else if ms[|ms| - 1].role == "assistant" then Some(|ms| - 1)
    else LastAssistant(ms[..|ms| - 1])
  }

  /** `findIndex(msg => msg.id === id)`, as an option. */
  function FindById(ms: seq<ChatMessage>, id: string): (r: Option<nat>)
    ensures r.Some? ==> r.value < |ms| && ms[r.value].id == id && forall j :: 0 <= j < r.value ==> ms[j].id != id
    ensures r.None? ==> forall j :: 0 <= j < |ms| ==> ms[j].id != id
  {
    if ms == [] then None
    else if ms[0].id == id then Some(0)
    else
      var rest := FindById(ms[1..], id);
      if rest.Some? then Some(rest.value + 1) else None
  }

  /** The entry `addMessage` appends: the caller's role and content, complete. */
  function Entry(m: Message, id: string, now: int): ChatMessage
  {
    ChatMessage(id, m.role, m.content, Some(true), now, None)
  }

  /** The `addMessage` update. */
  function AddMessage(ms: seq<ChatMessage>, m: Message, id: string, now: int): (r: seq<ChatMessage>)
    ensures |r| == |ms| + 1 && r[..|ms|] == ms
    ensures r[|ms|].role == m.role && r[|ms|].content == m.content && r[|ms|].isComplete == Some(true)
  {
    ms + [Entry(m, id, now)]
  }

  /** The `addMessagePart` update: the last assistant message gains `part` at the end of its parts. */
  function AddMessagePart(ms: seq<ChatMessage>, part: Part): (r: seq<ChatMessage>)
    ensures |r| == |ms|
    ensures LastAssistant(ms).None? ==> r == ms
    ensures LastAssistant(ms).Some? ==>
      var i := LastAssistant(ms).value;
      r[i] == ms[i].(parts := Some(OrElse(ms[i].parts, []) + [part]))
      && forall j :: 0 <= j < |ms| && j != i ==> r[j] == ms[j]
  {
    match LastAssistant(ms)
    case None => ms
    case Some(i) => ms[i := ms[i].(parts := Some(OrElse(ms[i].parts, []) + [part]))]
  }

  /** The `stop` update: only the last assistant message is marked complete. */
  function CompleteLastAssistant(ms: seq<ChatMessage>): (r: seq<ChatMessage>)
    ensures |r| == |ms|
    ensures LastAssistant(ms).None? ==> r == ms
    ensures LastAssistant(ms).Some? ==>
      var i := LastAssistant(ms).value;
      r[i] == ms[i].(isComplete := Some(true)) && forall j :: 0 <= j < |ms| && j != i ==> r[j] == ms[j]
  {
    match LastAssistant(ms)
    case None => ms
    case Some(i) => ms[i := ms[i].(isComplete := Some(true))]
  }

  /** The completion update: the message with id `id` is marked complete. */
  function CompleteById(ms: seq<ChatMessage>, id: string): (r: seq<ChatMessage>)
    ensures |r| == |ms|
    ensures FindById(ms, id).None? ==> r == ms
    ensures FindById(ms, id).Some? ==>
      var i := FindById(ms, id).value;
      r[i] == ms[i].(isComplete := Some(true)) && forall j :: 0 <= j < |ms| && j != i ==> r[j] == ms[j]
  {
    match FindById(ms, id)
    case None => ms
    case Some(i) => ms[i := ms[i].(isComplete := Some(true))]
  }

  /** A reasoning part's position among `parts` (`findIndex(part => part.type === "reasoning")`). */
  function FirstReasoning(parts: seq<Part>): (r: Option<nat>)
    ensures r.Some? ==>
      r.value < |parts| && parts[r.value].ReasoningPart?
      && forall j :: 0 <= j < r.value ==> !parts[j].ReasoningPart?
    ensures r.None? ==> forall j :: 0 <= j < |parts| ==> !parts[j].ReasoningPart?
  {
    if parts == [] then None
    else if parts[0].ReasoningPart? then Some(0)
    else
      var rest := FirstReasoning(parts[1..]);
      if rest.Some? then Some(rest.value + 1) else None
  }

  /** A message's parts after a reasoning chunk: the first reasoning part grows, or a new one is added. */
  function WithReasoning(parts: seq<Part>, text: string): (r: seq<Part>)
    ensures FirstReasoning(parts).None? ==> r == parts + [ReasoningPart(text)]
    ensures FirstReasoning(parts).Some? ==>
      var k := FirstReasoning(parts).value;
      |r| == |parts| && r[k] == ReasoningPart(parts[k].reasoning + text)
      && forall j :: 0 <= j < |parts| && j != k ==> r[j] == parts[j]
  {
    match FirstReasoning(parts)
    case None => parts + [ReasoningPart(text)]
    case Some(k) => parts[k := ReasoningPart(parts[k].reasoning + text)]
  }

  predicate IsTextChunk(chunk: StreamChunk)
  {
    chunk.kind == "text" || chunk.kind == "text-delta"
  }

  /** The `onChunk` update for the assistant message with id `id`. */
  function OnChunk(ms: seq<ChatMessage>, id: string, chunk: StreamChunk): (r: seq<ChatMessage>)
    ensures |r| == |ms| && forall j :: 0 <= j < |ms| ==> r[j].id == ms[j].id && r[j].role == ms[j].role
    ensures FindById(ms, id).None? || !(IsTextChunk(chunk) || chunk.kind == "reasoning") ==> r == ms
    ensures FindById(ms, id).Some? ==>
      var i := FindById(ms, id).value;
      forall j :: 0 <= j < |ms| && j != i ==> r[j] == ms[j]
    ensures FindById(ms, id).Some? && IsTextChunk(chunk) ==>
      var i := FindById(ms, id).value;
      r[i] == ms[i].(content := ms[i].content + OrElse(chunk.text, ""))
    ensures FindById(ms, id).Some? && chunk.kind == "reasoning" ==>
      var i := FindById(ms, id).value;
      r[i] == ms[i].(parts := Some(WithReasoning(OrElse(ms[i].parts, []), OrElse(chunk.text, ""))))
  {
    match FindById(ms, id)
    case None => ms
    case Some(i) =>
      if IsTextChunk(chunk) then ms[i := ms[i].(content := ms[i].content + OrElse(chunk.text, ""))]
      else if chunk.kind == "reasoning" then
        ms[i := ms[i].(parts := Some(WithReasoning(OrElse(ms[i].parts, []), OrElse(chunk.text, ""))))]
      else ms
  }

  /** The chunks applied in order. */
  function OnChunks(ms: seq<ChatMessage>, id: string, chunks: seq<StreamChunk>): (r: seq<ChatMessage>)
    ensures |r| == |ms|
  {
    if chunks == [] then ms else OnChunk(OnChunks(ms, id, chunks[..|chunks| - 1]), id, chunks[|chunks| - 1])
  }

  /** The text the text chunks carry, in order. */
  function StreamedText(chunks: seq<StreamChunk>): string
  {
    if chunks == [] then ""
    else
      var last := chunks[|chunks| - 1];
      StreamedText(chunks[..|chunks| - 1]) + (if IsTextChunk(last) then OrElse(last.text, "") else "")
  }

  /**
   * However many chunks arrive, the list keeps its length and its ids, every other message is
   * untouched, and the assistant message's content grows by exactly the text the text chunks carry.
   */
  lemma {:induction false} ChunksAccumulate(ms: seq<ChatMessage>, id: string, chunks: seq<StreamChunk>)
    requires FindById(ms, id).Some?
    ensures var r := OnChunks(ms, id, chunks);
      var i := FindById(ms, id).value;
      FindById(r, id) == Some(i)
      && r[i].content == ms[i].content + StreamedText(chunks)
      && forall j :: 0 <= j < |ms| && j != i ==> r[j] == ms[j]
  {
    if chunks != [] {
      var prefix, last := chunks[..|chunks| - 1], chunks[|chunks| - 1];
      var i := FindById(ms, id).value;
      var mid := OnChunks(ms, id, prefix);
      var added := if IsTextChunk(last) then OrElse(last.text, "") else "";
      ChunksAccumulate(ms, id, prefix);
      ChunkStep(ms, mid, id, i, last);
      assert OnChunks(ms, id, chunks) == OnChunk(mid, id, last);
      assert StreamedText(chunks) == StreamedText(prefix) + added;
      Reassociate(ms[i].content, StreamedText(prefix), added);
    }
  }

  lemma Reassociate(a: string, b: string, c: string)
    ensures (a + b) + c == a + (b + c)
  {
  }

  /** One more chunk on a list that so far differs from `ms` only at the assistant message `i`. */
  lemma ChunkStep(ms: seq<ChatMessage>, mid: seq<ChatMessage>, id: string, i: nat, last: StreamChunk)
    requires i < |ms| == |mid| && FindById(mid, id) == Some(i)
    requires forall j :: 0 <= j < |ms| && j != i ==> mid[j] == ms[j]
    ensures var r := OnChunk(mid, id, last);
      FindById(r, id) == Some(i)
      && r[i].content == mid[i].content + (if IsTextChunk(last) then OrElse(last.text, "") else "")
      && forall j :: 0 <= j < |ms| && j != i ==> r[j] == ms[j]
  {
    OneChunk(mid, id, last);
  }

  /** One chunk keeps the assistant message where it was and grows its content by the chunk's text, if any. */
  lemma OneChunk(ms: seq<ChatMessage>, id: string, chunk: StreamChunk)
    requires FindById(ms, id).Some?
    ensures var r := OnChunk(ms, id, chunk);
      var i := FindById(ms, id).value;
      FindById(r, id) == Some(i)
      && r[i].content == ms[i].content + (if IsTextChunk(chunk) then OrElse(chunk.text, "") else "")
  {
    var i := FindById(ms, id).value;
    var r := OnChunk(ms, id, chunk);
    FindFirst(r, id, i);
  }

  /** An id found at `i` with none before it is the one `FindById` reports. */
  lemma {:induction false} FindFirst(ms: seq<ChatMessage>, id: string, i: nat)
    requires i < |ms| && ms[i].id == id && forall j :: 0 <= j < i ==> ms[j].id != id
    ensures FindById(ms, id) == Some(i)
  {
    if i > 0 {
      FindFirst(ms[1..], id, i - 1);
    }
  }

  /** Two reasoning chunks extend one reasoning part instead of adding a second. */
  lemma ReasoningExtendsOnePart(parts: seq<Part>, a: string, b: string)
    requires forall j :: 0 <= j < |parts| ==> !parts[j].ReasoningPart?
    ensures WithReasoning(WithReasoning(parts, a), b) == parts + [ReasoningPart(a + b)]
  {
    var once := parts + [ReasoningPart(a)];
    assert FirstReasoning(once) == Some(|parts|) by {
      FirstReasoningAt(once, |parts|);
    }
  }

  /** A reasoning part at `k` with none before it is the one `FirstReasoning` reports. */
  lemma {:induction false} FirstReasoningAt(parts: seq<Part>, k: nat)
    requires k < |parts| && parts[k].ReasoningPart? && forall j :: 0 <= j < k ==> !parts[j].ReasoningPart?
    ensures FirstReasoning(parts) == Some(k)
  {
    if k > 0 {
      FirstReasoningAt(parts[1..], k - 1);
    }
  }

  // ------------------------------------------------------------------ submit

  /** What `handleSubmit` starts: the list before it, the two new messages and what is sent to the model. */
  datatype Turn = Turn(history: seq<ChatMessage>, user: ChatMessage, assistant: ChatMessage, sent: seq<Message>)

  /** `input.trim()` is empty, or a request is in flight: `handleSubmit` does nothing. */
  predicate Ignored(input: string, isLoading: bool)
  {
    Trim(input) == "" || isLoading
  }

  /** The base messages a list is sent as: role and content only. */
  function AsBase(ms: seq<ChatMessage>): (r: seq<Message>)
    ensures |r| == |ms| && forall i :: 0 <= i < |ms| ==> r[i] == Message(ms[i].role, ms[i].content)
  {
    seq(|ms|, i requires 0 <= i < |ms| => Message(ms[i].role, ms[i].content))
  }

  lemma AsBaseSnoc(ms: seq<ChatMessage>, m: ChatMessage)
    ensures AsBase(ms + [m]) == AsBase(ms) + [Message(m.role, m.content)]
  {
    var l := AsBase(ms + [m]);
    var r := AsBase(ms) + [Message(m.role, m.content)];
    forall i | 0 <= i < |l| ensures l[i] == r[i] {
      if i < |ms| {
        assert (ms + [m])[i] == ms[i];
      }
    }
  }

  /** The turn a submission of `input` over `history` starts. */
  function Begin(history: seq<ChatMessage>, input: string, userId: string, assistantId: string, now: int): (t: Turn)
    ensures t.history == history
    ensures t.user.role == "user" && t.user.content == Trim(input) && t.user.isComplete == Some(true)
    ensures t.assistant.id == assistantId && t.assistant.role == "assistant" && t.assistant.content == ""
      && t.assistant.isComplete == Some(false)
    ensures t.sent == AsBase(history) + [Message("user", Trim(input))]
  {
    var user := ChatMessage(userId, "user", Trim(input), Some(true), now, None);
    var assistant := ChatMessage(assistantId, "assistant", "", Some(false), now, None);
    AsBaseSnoc(history, user);
    Turn(history, user, assistant, AsBase(history + [user]))
  }

  /**
   * What `onFinish` is called with, as written: the list before the submission, the user
   * message, and the assistant message as it was created, empty, marked complete.
   */
  function FinishedAsWritten(t: Turn): seq<ChatMessage>
  {
    t.history + [t.user, t.assistant.(isComplete := Some(true))]
  }

  /**
   * What `onFinish` is meant to receive: the assistant message as the chunks left it in `ms`,
   * marked complete (the message as created when the list no longer holds it).
   */
  function Finished(t: Turn, ms: seq<ChatMessage>): seq<ChatMessage>
  {
    var streamed := match FindById(ms, t.assistant.id) case Some(i) => ms[i] case None => t.assistant;
    t.history + [t.user, streamed.(isComplete := Some(true))]
  }

  /** A list `history + [user, assistant]` holds the assistant message at the end, where `FindById` finds it. */
  lemma FoundAtEnd(t: Turn, ms: seq<ChatMessage>)
    requires |ms| >= 1 && ms[|ms| - 1].id == t.assistant.id
    requires forall j :: 0 <= j < |ms| - 1 ==> ms[j].id != t.assistant.id
    ensures FindById(ms, t.assistant.id) == Some(|ms| - 1)
  {
    FindFirst(ms, t.assistant.id, |ms| - 1);
  }

  /**
   * As written, `onFinish` never sees the streamed reply: whatever text the chunks carried, the
   * assistant message it receives is empty, while the message in the list holds the text.
   */
  lemma FinishedAsWrittenDropsReply(history: seq<ChatMessage>, input: string, userId: string, assistantId: string, now: int, chunks: seq<StreamChunk>)
    requires forall j :: 0 <= j < |history| ==> history[j].id != assistantId
    requires userId != assistantId
    ensures var t := Begin(history, input, userId, assistantId, now);
      var ms := OnChunks(history + [t.user, t.assistant], assistantId, chunks);
      FinishedAsWritten(t)[|history| + 1].content == ""
      && ms[|history| + 1].content == StreamedText(chunks)
  {
    var t := Begin(history, input, userId, assistantId, now);
    var start := history + [t.user, t.assistant];
    FoundAtEnd(t, start);
    ChunksAccumulate(start, assistantId, chunks);
  }

  /** Corrected, `onFinish` receives the assistant message with the whole streamed reply, complete. */
  lemma FinishedCarriesReply(history: seq<ChatMessage>, input: string, userId: string, assistantId: string, now: int, chunks: seq<StreamChunk>)
    requires forall j :: 0 <= j < |history| ==> history[j].id != assistantId
    requires userId != assistantId
    ensures var t := Begin(history, input, userId, assistantId, now);
      var f := Finished(t, OnChunks(history + [t.user, t.assistant], assistantId, chunks));
      |f| == |history| + 2 && f[..|history|] == history && f[|history|] == t.user
      && f[|history| + 1].id == assistantId && f[|history| + 1].content == StreamedText(chunks)
      && f[|history| + 1].isComplete == Some(true)
  {
    var t := Begin(history, input, userId, assistantId, now);
    var start := history + [t.user, t.assistant];
    FoundAtEnd(t, start);
    ChunksAccumulate(start, assistantId, chunks);
  }

  // -------------------------------------------------------------------- hook

  /** An `AbortController`, reduced to whether it has fired. */
  class AbortController {
    var aborted: bool

    constructor()
      ensures !aborted
    {
      aborted := false;
    }

    method Abort()
      modifies this
      ensures aborted
    {
      aborted := true;
    }
  }

  /**
   * `err instanceof Error ? err : new Error(String(err))`: an `Error` is kept; anything else
   * becomes an `Error` whose message is the value converted to a string.
   */
  function CaughtAsError(err: Payload): (e: ErrorInfo)
    ensures err.ErrorPayload? && err.isInstance ==> e == err.info
    ensures err.TextPayload? ==> e == PlainError(err.text)
    ensures err.NoPayload? ==> e == PlainError("undefined")
    ensures !err.TextPayload? && !err.NoPayload? && !(err.ErrorPayload? && err.isInstance) ==>
      e == PlainError("[object Object]")
  {
    match err
    case ErrorPayload(info, isInstance) => if isInstance then info else PlainError("[object Object]")
    case TextPayload(t) => PlainError(t)
    case NoPayload => PlainError("undefined")
    case _ => PlainError("[object Object]")
  }

  /**
   * The hook and the worker bridge wrap a thrown value the same way, except `undefined`: the hook
   * goes through `String(err)`, which gives `"undefined"`, where `new Error(undefined)` has an
   * empty message.
   */
  lemma CaughtMatchesFrameError(err: Payload)
    ensures CaughtAsError(err) == WandlerStreamText.AsError(err) <==> !err.NoPayload?
  {
    if err.NoPayload? {
      assert CaughtAsError(err).message[0] == 'u';
    }
  }

  /** The hook's state. */
  class Chat {
    var messages: seq<ChatMessage>
    var input: string
    var isLoading: bool
    var error: Option<ErrorInfo>
    var status: Status
    var controller: AbortController?

    /** The initial state: each initial message gets its own id, marked complete. */
    constructor(initialMessages: seq<Message>, initialInput: string, ids: seq<string>, now: int)
      requires |ids| == |initialMessages|
      ensures |messages| == |initialMessages|
      ensures forall i :: 0 <= i < |initialMessages| ==> messages[i] == Entry(initialMessages[i], ids[i], now)
      ensures input == initialInput && !isLoading && error.None? && status == Idle && controller == null
    {
      messages := seq(|initialMessages|, i requires 0 <= i < |initialMessages| => Entry(initialMessages[i], ids[i], now));
      input := initialInput;
      isLoading := false;
      error := None;
      status := Idle;
      controller := null;
    }

    /** `setInput` / `handleInputChange` */
    method SetInput(value: string)
      modifies this
      ensures input == value
      ensures messages == old(messages) && isLoading == old(isLoading) && error == old(error)
        && status == old(status) && controller == old(controller)
    {
      input := value;
    }

    /** `addMessage(message)` */
    method AddMessageTo(m: Message, id: string, now: int)
      modifies this
      ensures messages == AddMessage(old(messages), m, id, now)
      ensures input == old(input) && isLoading == old(isLoading) && error == old(error)
        && status == old(status) && controller == old(controller)
    {
      messages := AddMessage(messages, m, id, now);
    }

    /** `addMessagePart(part)` */
    method AddMessagePartTo(part: Part)
      modifies this
      ensures messages == AddMessagePart(old(messages), part)
      ensures input == old(input) && isLoading == old(isLoading) && error == old(error)
        && status == old(status) && controller == old(controller)
    {
      messages := AddMessagePart(messages, part);
    }

    /** `clearMessages()` */
    method ClearMessages()
      modifies this
      ensures messages == []
      ensures input == old(input) && isLoading == old(isLoading) && error == old(error)
        && status == old(status) && controller == old(controller)
    {
      messages := [];
    }

    /** `stop()`: fires and drops the controller, completes the last assistant message, and goes idle. */
    method Stop()
      modifies this, controller
      ensures old(controller) != null ==> old(controller).aborted
      ensures controller == null
      ensures messages == CompleteLastAssistant(old(messages))
      ensures status == Idle && !isLoading
      ensures input == old(input) && error == old(error)
    {
      if controller != null {
        controller.Abort();
        controller := null;
      }
      messages := CompleteLastAssistant(messages);
      status := Idle;
      isLoading := false;
    }

    /**
     * `handleSubmit`, up to the call to `streamText`: unless ignored, it starts a turn.
     */
    method Submit(userId: string, assistantId: string, now: int) returns (turn: Option<Turn>)
      modifies this, controller
      ensures Ignored(old(input), old(isLoading)) ==>
        turn.None? && messages == old(messages) && input == old(input) && isLoading == old(isLoading)
        && error == old(error) && status == old(status) && controller == old(controller)
      ensures !Ignored(old(input), old(isLoading)) ==>
        turn == Some(Begin(old(messages), old(input), userId, assistantId, now))
        && messages == old(messages) + [turn.value.user, turn.value.assistant]
        && input == "" && isLoading && error.None? && status == Streaming
        && controller != null && fresh(controller) && !controller.aborted
        && (old(controller) != null ==> old(controller).aborted)
    {
      if Ignored(input, isLoading) {
        return None;
      }
      var t := Start(userId, assistantId, now);
      turn := Some(t);
    }

    /**
     * A submission that is not ignored fires any previous controller and makes a fresh one,
     * appends the user message and the empty assistant message, clears the input and the error,
     * and starts streaming.
     */
    method Start(userId: string, assistantId: string, now: int) returns (turn: Turn)
      modifies this, controller
      ensures turn == Begin(old(messages), old(input), userId, assistantId, now)
      ensures messages == old(messages) + [turn.user, turn.assistant]
      ensures input == "" && isLoading && error.None? && status == Streaming
      ensures controller != null && fresh(controller) && !controller.aborted
      ensures old(controller) != null ==> old(controller).aborted
    {
      var history := messages;
      turn := Begin(history, input, userId, assistantId, now);
      if controller != null {
        controller.Abort();
      }
      controller := new AbortController();
      messages := history + [turn.user, turn.assistant];
      input := "";
      isLoading := true;
      error := None;
      status := Streaming;
    }

    /** The `onChunk` callback of the turn whose assistant message has id `assistantId`. */
    method Chunk(assistantId: string, chunk: StreamChunk)
      modifies this
      ensures messages == OnChunk(old(messages), assistantId, chunk)
      ensures input == old(input) && isLoading == old(isLoading) && error == old(error)
        && status == old(status) && controller == old(controller)
    {
      messages := OnChunk(messages, assistantId, chunk);
    }

    /**
     * The result of `turn` resolved: its assistant message is marked complete, the hook goes
     * idle, and the messages `onFinish` receives are returned.
     */
    method Finish(turn: Turn) returns (finished: seq<ChatMessage>)
      modifies this
      ensures messages == CompleteById(old(messages), turn.assistant.id)
      ensures !isLoading && status == Idle && controller == null
      ensures input == old(input) && error == old(error)
      ensures finished == Finished(turn, old(messages))
    {
      finished := Finished(turn, messages);
      messages := CompleteById(messages, turn.assistant.id);
      isLoading := false;
      status := Idle;
      controller := null;
    }

    /**
     * `streamText` or its result failed with `err`: the error is recorded and the hook goes to
     * `error`. Returns the error `onError` is called with, which happens only for an `Error` instance.
     */
    method Fail(err: Payload) returns (reported: Option<ErrorInfo>)
      modifies this
      ensures error == Some(CaughtAsError(err)) && status == ErrorStatus && !isLoading && controller == null
      ensures messages == old(messages) && input == old(input)
      ensures reported.Some? <==> err.ErrorPayload? && err.isInstance
      ensures reported.Some? ==> reported.value == err.info
    {
      error := Some(CaughtAsError(err));
      status := ErrorStatus;
      isLoading := false;
      controller := null;
      reported := if err.ErrorPayload? && err.isInstance then Some(err.info) else None;
    }
  }

  /** A submission adds exactly two messages after the earlier ones and sends them, with the user's, to the model. */
  lemma SubmitAppendsTwo(history: seq<ChatMessage>, input: string, userId: string, assistantId: string, now: int)
    requires !Ignored(input, false)
    ensures var t := Begin(history, input, userId, assistantId, now);
      var ms := history + [t.user, t.assistant];
      |ms| == |history| + 2 && ms[..|history|] == history
      && |t.sent| == |history| + 1 && t.sent[|history|].content != ""
  {
  }

  /** Stopping twice is stopping once: the second `stop` finds the last assistant message already complete. */
  lemma StopIdempotent(ms: seq<ChatMessage>)
    ensures CompleteLastAssistant(CompleteLastAssistant(ms)) == CompleteLastAssistant(ms)
  {
    var r := CompleteLastAssistant(ms);
    if LastAssistant(ms).Some? {
      var i := LastAssistant(ms).value;
      assert forall j :: 0 <= j < |r| ==> r[j].role == ms[j].role;
      LastAssistantSameRoles(ms, r);
    }
  }

  /** Two lists with the same roles have their last assistant message at the same place. */
  lemma {:induction false} LastAssistantSameRoles(a: seq<ChatMessage>, b: seq<ChatMessage>)
    requires |a| == |b| && forall j :: 0 <= j < |a| ==> a[j].role == b[j].role
    ensures LastAssistant(a) == LastAssistant(b)
  {
    if a != [] && a[|a| - 1].role != "assistant" {
      LastAssistantSameRoles(a[..|a| - 1], b[..|b| - 1]);
    }
  }
}
