/**
 * Message preparation and validation of the older package (`packages/core/utils/message-utils.ts`):
 * `convertComplexContent` flattens multi-part content to text, `prepareMessages` assembles the
 * system message, the prompt and the caller's messages, and `validateMessages` rejects an empty
 * list or the first message without a role or a content.
 */
module MessageUtils {
  import opened Types
  import opened Strings
  import opened Request

  /** A message as `prepareMessages` builds it; the content is missing when the caller's was. */
  datatype PreparedMessage = PreparedMessage(role: string, content: Option<string>)

  /** The text one part becomes. */
  function PartText(part: ContentPart): string
  {
    match part
    case TextPart(text) => text
    case ImagePart(url) => "[Image: " + (if url.Some? then url.value else "binary data") + "]"
    case FilePart(mimeType) => "[File: " + mimeType + "]"
    case ToolCallPart(name, args) => "[Tool Call: " + name + "(" + args + ")]"
    case ToolResultPart(name, result) => "[Tool Result: " + name + " -> " + result + "]"
    case OtherPart(json) => json
  }

  /** The texts of the parts, in order. */
  function PartTexts(parts: seq<ContentPart>): (r: seq<string>)
    ensures |r| == |parts| && forall i :: 0 <= i < |parts| ==> r[i] == PartText(parts[i])
  {
    seq(|parts|, i requires 0 <= i < |parts| => PartText(parts[i]))
  }

  /** `convertComplexContent(parts)`: each part's text, joined with newlines. */
  function ConvertComplexContent(parts: seq<ContentPart>): (r: string)
    ensures |parts| == 1 ==> r == PartText(parts[0])
    ensures parts == [] ==> r == []
  {
    Join(PartTexts(parts), "\n")
  }

  /** When no part's text holds a newline, splitting the result on newlines gives back each part's text. */
  lemma ConvertSplits(parts: seq<ContentPart>)
    requires parts != [] && forall i :: 0 <= i < |parts| ==> '\n' !in PartText(parts[i])
    ensures Split(ConvertComplexContent(parts), '\n') == PartTexts(parts)
  {
    SplitJoin(PartTexts(parts), '\n');
  }

  /** A file part is shown by its MIME type, and an image given as bytes as `binary data`. */
  lemma PartLabels(mimeType: string)
    ensures ConvertComplexContent([FilePart(mimeType)]) == "[File: " + mimeType + "]"
    ensures ConvertComplexContent([ImagePart(None)]) == "[Image: binary data]"
  {
  }

  /** One caller message after preparation: string content as is, parts flattened. */
  function PrepareOne(m: InputMessage): (p: PreparedMessage)
    ensures p.role == m.role
    ensures m.content.TextContent? ==> p.content == Some(m.content.text)
    ensures m.content.PartsContent? ==> p.content == Some(ConvertComplexContent(m.content.parts))
    ensures m.content.NoContent? ==> p.content.None?
  {
    match m.content
    case TextContent(t) => PreparedMessage(m.role, Some(t))
    case PartsContent(parts) => PreparedMessage(m.role, Some(ConvertComplexContent(parts)))
    case NoContent => PreparedMessage(m.role, None)
  }

  /** The system message and the prompt, each when non-empty, in that order. */
  function Leading(options: GenerationOptions): (r: seq<PreparedMessage>)
    ensures |r| == (if options.system != [] then 1 else 0) + (if options.prompt != [] then 1 else 0)
  {
    (if options.system != [] then [PreparedMessage("system", Some(options.system))] else [])
    + (if options.prompt != [] then [PreparedMessage("user", Some(options.prompt))] else [])
  }

  /** `prepareMessages(options)` as a specification. */
  function Prepare(options: GenerationOptions): (r: seq<PreparedMessage>)
    ensures var given := if options.messages.Some? then options.messages.value else [];
      |r| == |Leading(options)| + |given|
      && r[..|Leading(options)|] == Leading(options)
      && forall i :: 0 <= i < |given| ==> r[|Leading(options)| + i] == PrepareOne(given[i])
  {
    var given := if options.messages.Some? then options.messages.value else [];
    Leading(options) + seq(|given|, i requires 0 <= i < |given| => PrepareOne(given[i]))
  }

  /** `prepareMessages(options)` */
  method PrepareMessages(options: GenerationOptions) returns (messages: seq<PreparedMessage>)
    ensures messages == Prepare(options)
  {
    messages := [];
    if options.system != [] {
      messages := messages + [PreparedMessage("system", Some(options.system))];
    }
    if options.prompt != [] {
      messages := messages + [PreparedMessage("user", Some(options.prompt))];
    }
    if options.messages.Some? {
      var given := options.messages.value;
      var lead := messages;
      var i := 0;
      while i < |given|
        invariant 0 <= i <= |given|
        invariant |messages| == |lead| + i && messages[..|lead|] == lead
        invariant forall k :: 0 <= k < i ==> messages[|lead| + k] == PrepareOne(given[k])
      {
        messages := messages + [PrepareOne(given[i])];
        i := i + 1;
      }
    }
  }

  /** The system message comes first, then the prompt as a user message; empty strings add nothing. */
  lemma PrepareOrder(options: GenerationOptions)
    ensures options.system != [] ==> Prepare(options)[0] == PreparedMessage("system", Some(options.system))
    ensures options.system == [] && options.prompt != [] ==> Prepare(options)[0] == PreparedMessage("user", Some(options.prompt))
    ensures options.system != [] && options.prompt != [] ==> Prepare(options)[1] == PreparedMessage("user", Some(options.prompt))
    ensures options.system == [] && options.prompt == [] && options.messages.Some? ==>
      Prepare(options) == seq(|options.messages.value|, i requires 0 <= i < |options.messages.value| => PrepareOne(options.messages.value[i]))
  {
    var lead := Leading(options);
    var r := Prepare(options);
    if options.system != [] {
      assert r[0] == r[..|lead|][0];
    }
    if options.system == [] && options.prompt != [] {
      assert r[0] == r[..|lead|][0];
    }
    if options.system != [] && options.prompt != [] {
      assert r[1] == r[..|lead|][1];
    }
  }

  /** Prepared messages as the runtime receives them; a missing content (never left after validation) reads as empty. */
  function AsMessages(ms: seq<PreparedMessage>): (r: seq<Message>)
    ensures |r| == |ms|
    ensures forall i :: 0 <= i < |ms| ==> r[i].role == ms[i].role && (ms[i].content.Some? ==> r[i].content == ms[i].content.value)
  {
    seq(|ms|, i requires 0 <= i < |ms| => Message(ms[i].role, if ms[i].content.Some? then ms[i].content.value else ""))
  }

  const NoMessagesError: string := "No messages provided. Please provide either 'messages', 'system', or 'prompt'."

  function MissingRole(index: nat): string
  {
    "Message at index " + Decimal(index) + " is missing 'role'"
  }

  function MissingContent(index: nat): string
  {
    "Message at index " + Decimal(index) + " is missing 'content'"
  }

  /** Whether a prepared message passes the per-message checks. */
  predicate Complete(m: PreparedMessage)
  {
    m.role != [] && m.content.Some?
  }

  /** The per-message checks from index `i` on: the first failure, by index. */
  function CheckFrom(messages: seq<PreparedMessage>, i: nat): (r: Result<()>)
    ensures r.Ok? <==> forall k :: i <= k < |messages| ==> Complete(messages[k])
    decreases |messages| - i
  {
    if i >= |messages| then Ok(())
    else if messages[i].role == [] then Err(PlainError(MissingRole(i)))
    else if messages[i].content.None? then Err(PlainError(MissingContent(i)))
    else CheckFrom(messages, i + 1)
  }

  /** `validateMessages(messages)` as a specification. */
  function Validate(messages: seq<PreparedMessage>): Result<()>
  {
    if |messages| == 0 then Err(PlainError(NoMessagesError)) else CheckFrom(messages, 0)
  }

  /** `validateMessages(messages)` */
  method ValidateMessages(messages: seq<PreparedMessage>) returns (r: Result<()>)
    ensures r == Validate(messages)
  {
    if |messages| == 0 {
      return Err(PlainError(NoMessagesError));
    }
    var i := 0;
    while i < |messages|
      invariant 0 <= i <= |messages|
      invariant CheckFrom(messages, i) == CheckFrom(messages, 0)
    {
      if messages[i].role == [] {
        return Err(PlainError(MissingRole(i)));
      }
      if messages[i].content.None? {
        return Err(PlainError(MissingContent(i)));
      }
      i := i + 1;
    }
    return Ok(());
  }

  /** The list passes exactly when it is non-empty and every message has a role and a content. */
  lemma ValidateOkIff(messages: seq<PreparedMessage>)
    ensures Validate(messages).Ok? <==> |messages| > 0 && forall k :: 0 <= k < |messages| ==> Complete(messages[k])
  {
  }

  /** The error reported names the first incomplete message, and says which field it lacks. */
  lemma {:induction false} ValidateFirstError(messages: seq<PreparedMessage>, i: nat, k: nat)
    requires i <= k < |messages| && !Complete(messages[k])
    requires forall j :: i <= j < k ==> Complete(messages[j])
    ensures CheckFrom(messages, i) ==
      Err(PlainError(if messages[k].role == [] then MissingRole(k) else MissingContent(k)))
    decreases k - i
  {
    if i < k {
      ValidateFirstError(messages, i + 1, k);
    }
  }

  /** An empty string is a content: only a missing one is rejected. */
  lemma EmptyContentAccepted(role: string)
    requires role != []
    ensures Validate([PreparedMessage(role, Some(""))]).Ok?
  {
    var ms := [PreparedMessage(role, Some(""))];
    assert Complete(ms[0]);
    ValidateOkIff(ms);
  }

  /** Every prepared message is complete exactly when every caller message has a role and a content. */
  lemma PreparedComplete(options: GenerationOptions)
    ensures var r := Prepare(options);
      (forall k :: 0 <= k < |r| ==> Complete(r[k])) <==>
      (options.messages.Some? ==> forall k :: 0 <= k < |options.messages.value| ==>
         options.messages.value[k].role != [] && !options.messages.value[k].content.NoContent?)
  {
    var r := Prepare(options);
    var lead := Leading(options);
    var given := if options.messages.Some? then options.messages.value else [];
    forall k | 0 <= k < |lead| ensures Complete(r[k]) {
      assert r[k] == r[..|lead|][k];
    }
    forall k | 0 <= k < |given| ensures Complete(r[|lead| + k]) <==> given[k].role != [] && !given[k].content.NoContent? {
      assert r[|lead| + k] == PrepareOne(given[k]);
    }
    if forall k :: 0 <= k < |given| ==> given[k].role != [] && !given[k].content.NoContent? {
      forall k | |lead| <= k < |r| ensures Complete(r[k]) {
        assert Complete(r[|lead| + (k - |lead|)]);
      }
    }
  }

  /** A prepared request passes validation exactly when it has something to say and every caller message has a role and a content. */
  lemma PreparedValid(options: GenerationOptions)
    ensures Validate(Prepare(options)).Ok? <==>
      (options.system != [] || options.prompt != [] || (options.messages.Some? && options.messages.value != []))
      && (options.messages.Some? ==> forall k :: 0 <= k < |options.messages.value| ==>
            options.messages.value[k].role != [] && !options.messages.value[k].content.NoContent?)
  {
    ValidateOkIff(Prepare(options));
    PreparedComplete(options);
  }
}
