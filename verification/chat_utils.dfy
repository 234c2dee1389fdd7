/**
 * The plain-text chat parsers of the newer package (`packages/wandler/utils/chat-utils.ts`).
 * `extractMessagesFromText` reads a transcript in which a line that is exactly `system`,
 * `user` or `assistant` starts a message and the following lines are its content;
 * `extractAssistantMessageFromText` picks the assistant's answer out of such a transcript.
 */
module ChatUtils {
  import opened Types
  import opened Strings
  import opened Seqs

  /** A line that switches the current role: exactly a role name, with no trimming. */
  predicate IsRoleLine(line: string)
  {
    line == "system" || line == "user" || line == "assistant"
  }

  /** `messages`, `currentRole` and `currentContent` between two lines. */
  datatype ChatState = ChatState(messages: seq<Message>, role: Option<string>, content: seq<string>)

  const Init: ChatState := ChatState([], None, [])

  /** The messages with the pending one pushed, when it has a role and collected at least one line. */
  function Flush(st: ChatState): seq<Message>
  {
    if st.role.Some? && |st.content| > 0 then
      st.messages + [Message(st.role.value, Trim(Join(st.content, "\n")))]
    else st.messages
  }

  /** One turn of the loop over lines. */
  function Step(st: ChatState, line: string): ChatState
  {
    if IsRoleLine(line) then ChatState(Flush(st), Some(line), [])
    else if st.role.Some? then st.(content := st.content + [line])
    else st
  }

  /** The loop over `lines`, from state `st`. */
  function Run(st: ChatState, lines: seq<string>): ChatState
    decreases |lines|
  {
    if lines == [] then st else Run(Step(st, lines[0]), lines[1..])
  }

  lemma RunUnfold(st: ChatState, lines: seq<string>)
    requires lines != []
    ensures Run(st, lines) == Run(Step(st, lines[0]), lines[1..])
  {
  }

  /** `extractMessagesFromText(text)` as a specification. */
  function Extract(text: string): seq<Message>
  {
    Flush(Run(Init, Split(text, '\n')))
  }

  /** `extractMessagesFromText(text)` */
  method ExtractMessagesFromText(text: string) returns (messages: seq<Message>)
    ensures messages == Extract(text)
  {
    var lines := Split(text, '\n');
    messages := [];
    var currentRole: Option<string> := None;
    var currentContent: seq<string> := [];
    var i := 0;
    while i < |lines|
      invariant 0 <= i <= |lines|
      invariant Flush(Run(ChatState(messages, currentRole, currentContent), lines[i..])) == Extract(text)
      invariant currentRole.None? ==> currentContent == []
    {
      RunUnfold(ChatState(messages, currentRole, currentContent), lines[i..]);
      TailOfSuffix(lines, i);
      var line := lines[i];
      ghost var before := ChatState(messages, currentRole, currentContent);
      if IsRoleLine(line) {
        if currentRole.Some? && |currentContent| > 0 {
          messages := messages + [Message(currentRole.value, Trim(Join(currentContent, "\n")))];
          currentContent := [];
        }
        currentRole := Some(line);
      } else if currentRole.Some? {
        currentContent := currentContent + [line];
      }
      assert ChatState(messages, currentRole, currentContent) == Step(before, line);
      i := i + 1;
    }
    if currentRole.Some? && |currentContent| > 0 {
      messages := messages + [Message(currentRole.value, Trim(Join(currentContent, "\n")))];
    }
  }

  // ---------------------------------------------------------------------------------------
  // Roles and order

  predicate RolesOk(st: ChatState)
  {
    (forall m :: m in st.messages ==> IsRoleLine(m.role))
    && (st.role.Some? ==> IsRoleLine(st.role.value))
  }

  lemma {:induction false} RunRoles(st: ChatState, lines: seq<string>)
    requires RolesOk(st)
    ensures RolesOk(Run(st, lines)) && forall m :: m in Flush(Run(st, lines)) ==> IsRoleLine(m.role)
    decreases |lines|
  {
    if lines != [] {
      RunRoles(Step(st, lines[0]), lines[1..]);
    }
  }

  /** Every extracted message has one of the three roles. */
  lemma ExtractedRoles(text: string)
    ensures forall m :: m in Extract(text) ==> IsRoleLine(m.role)
  {
    RunRoles(Init, Split(text, '\n'));
  }

  /** The role a line switches to, as a sequence of zero or one role. */
  function LineRole(line: string): seq<string>
  {
    if IsRoleLine(line) then [line] else []
  }

  /** The roles of the role lines, in order. */
  function RoleLines(lines: seq<string>): seq<string>
  {
    if lines == [] then [] else LineRole(lines[0]) + RoleLines(lines[1..])
  }

  /** The roles already emitted followed by the pending one. */
  function Announced(st: ChatState): seq<string>
  {
    RolesOf(st.messages) + (if st.role.Some? then [st.role.value] else [])
  }

  lemma FlushOrder(st: ChatState, seen: seq<string>)
    requires IsSubseq(Announced(st), seen)
    ensures IsSubseq(RolesOf(Flush(st)), seen)
  {
    if st.role.Some? {
      if |st.content| > 0 {
        RolesOfSnoc(st.messages, Message(st.role.value, Trim(Join(st.content, "\n"))));
        assert RolesOf(Flush(st)) == Announced(st);
      } else {
        SubseqDropLast(Announced(st), seen);
        assert Announced(st)[..|Announced(st)| - 1] == RolesOf(st.messages);
      }
    } else {
      assert Announced(st) == RolesOf(st.messages);
    }
  }

  lemma StepOrder(st: ChatState, line: string, seen: seq<string>)
    requires IsSubseq(Announced(st), seen)
    ensures IsSubseq(Announced(Step(st, line)), seen + LineRole(line))
  {
    if IsRoleLine(line) {
      FlushOrder(st, seen);
      SubseqSnoc(RolesOf(Flush(st)), seen, line);
      assert Announced(Step(st, line)) == RolesOf(Flush(st)) + [line];
    } else {
      assert seen + LineRole(line) == seen;
      assert Announced(Step(st, line)) == Announced(st);
    }
  }

  lemma {:induction false} RunOrder(st: ChatState, lines: seq<string>, seen: seq<string>)
    requires IsSubseq(Announced(st), seen)
    ensures IsSubseq(Announced(Run(st, lines)), seen + RoleLines(lines))
    decreases |lines|
  {
    if lines == [] {
      AppendNil(seen);
    } else {
      StepOrder(st, lines[0], seen);
      RunOrder(Step(st, lines[0]), lines[1..], seen + LineRole(lines[0]));
      AppendAssoc(seen, LineRole(lines[0]), RoleLines(lines[1..]));
    }
  }

  /** Messages come out in the order of the role lines that start them, at most one per role line. */
  lemma MessagesFollowRoleLines(text: string)
    ensures IsSubseq(RolesOf(Extract(text)), RoleLines(Split(text, '\n')))
    ensures |Extract(text)| <= |RoleLines(Split(text, '\n'))|
  {
    var lines := Split(text, '\n');
    assert Announced(Init) == [];
    RunOrder(Init, lines, []);
    assert [] + RoleLines(lines) == RoleLines(lines);
    FlushOrder(Run(Init, lines), RoleLines(lines));
    SubseqLength(RolesOf(Extract(text)), RoleLines(lines));
  }

  /** Lines before the first role line are dropped: they do not change the result. */
  lemma {:induction false} PreambleDropped(preamble: seq<string>, rest: seq<string>)
    requires RoleLines(preamble) == []
    ensures Run(Init, preamble + rest) == Run(Init, rest)
    decreases |preamble|
  {
    if preamble == [] {
      assert preamble + rest == rest;
    } else {
      TailOfAppend(preamble, rest);
      assert RoleLines(preamble) == LineRole(preamble[0]) + RoleLines(preamble[1..]);
      PreambleDropped(preamble[1..], rest);
    }
  }

  /** A role line followed only by a blank line still gives a message, with empty content. */
  lemma BlankLineCounts()
    ensures Extract("user\n") == [Message("user", "")]
  {
    var lines := ["user", ""];
    assert Join(lines, "\n") == "user\n";
    SplitJoin(lines, '\n');
    var first := ChatState([], Some("user"), []);
    assert Step(Init, "user") == first;
    RunUnfold(Init, lines);
    assert lines[1..] == [""];
    RunUnfold(first, [""]);
    assert Run(Init, lines) == ChatState([], Some("user"), [""]);
    assert Trim(Join([""], "\n")) == "";
  }

  /** A role line with nothing after it gives no message. */
  lemma TrailingRoleDropped()
    ensures Extract("user") == []
  {
    var lines := ["user"];
    assert Join(lines, "\n") == "user";
    SplitJoin(lines, '\n');
    RunUnfold(Init, lines);
    assert Run(Init, lines) == ChatState([], Some("user"), []);
  }

  // ---------------------------------------------------------------------------------------
  // Round trip: a transcript written one role line and one content line per message

  /** The lines of a transcript: each message's role, then its content. */
  function Lines(ms: seq<Message>): seq<string>
  {
    if ms == [] then [] else [ms[0].role, ms[0].content] + Lines(ms[1..])
  }

  /** A message that can be written on two lines and read back: a role, and one trimmed content line that is no role. */
  predicate Writable(m: Message)
  {
    IsRoleLine(m.role) && '\n' !in m.content && !IsRoleLine(m.content) && Trim(m.content) == m.content
  }

  lemma {:induction false} LinesFree(ms: seq<Message>)
    requires forall k :: 0 <= k < |ms| ==> IsRoleLine(ms[k].role) && '\n' !in ms[k].content
    ensures forall i :: 0 <= i < |Lines(ms)| ==> '\n' !in Lines(ms)[i]
    decreases |ms|
  {
    if ms != [] {
      LinesFree(ms[1..]);
      var rest := Lines(ms[1..]);
      assert Lines(ms) == [ms[0].role, ms[0].content] + rest;
      assert IsRoleLine(ms[0].role);
      assert '\n' !in ms[0].role;
    }
  }

  lemma {:induction false} RunLines(st: ChatState, ms: seq<Message>)
    requires forall m :: m in ms ==> Writable(m)
    ensures Flush(Run(st, Lines(ms))) == Flush(st) + ms
    decreases |ms|
  {
    if ms == [] {
      assert Flush(st) + ms == Flush(st);
    } else {
      var m := ms[0];
      assert Writable(m);
      var lines := Lines(ms);
      assert lines[0] == m.role && lines[1] == m.content && lines[2..] == Lines(ms[1..]);
      var st1 := Step(st, m.role);
      assert st1 == ChatState(Flush(st), Some(m.role), []);
      var st2 := Step(st1, m.content);
      assert st2 == ChatState(Flush(st), Some(m.role), [m.content]);
      assert Join([m.content], "\n") == m.content;
      assert Flush(st2) == Flush(st) + [m];
      RunUnfold(st, lines);
      RunUnfold(st1, lines[1..]);
      assert lines[1..][1..] == lines[2..];
      RunLines(st2, ms[1..]);
      assert Flush(st) + [m] + ms[1..] == Flush(st) + ms;
    }
  }

  /** Writing messages as a transcript and reading it back gives the same messages. */
  lemma ExtractRoundTrip(ms: seq<Message>)
    requires forall m :: m in ms ==> Writable(m)
    ensures Extract(Join(Lines(ms), "\n")) == ms
  {
    if ms == [] {
      assert Split([], '\n') == [[]];
      assert Run(Init, [[]]) == Init;
    } else {
      forall k | 0 <= k < |ms| ensures IsRoleLine(ms[k].role) && '\n' !in ms[k].content {
        assert Writable(ms[k]);
      }
      LinesFree(ms);
      SplitJoin(Lines(ms), '\n');
      RunLines(Init, ms);
    }
  }

  // ---------------------------------------------------------------------------------------
  // extractAssistantMessageFromText

  const AssistantBlock: string := "\nassistant\n"

  /** `extractAssistantMessageFromText(text)` */
  function ExtractAssistant(text: string): (r: string)
    ensures var ms := Extract(text);
      |ms| > 0 && ms[|ms| - 1].role == "assistant" ==> r == ms[|ms| - 1].content
    ensures var ms := Extract(text);
      !(|ms| > 0 && ms[|ms| - 1].role == "assistant") && LastIndexOf(text, AssistantBlock, |text|).Some? ==>
        r == Trim(text[LastIndexOf(text, AssistantBlock, |text|).value + |AssistantBlock|..])
    ensures var ms := Extract(text);
      !(|ms| > 0 && ms[|ms| - 1].role == "assistant") && LastIndexOf(text, AssistantBlock, |text|).None? ==>
        r == Trim(text)
  {
    var ms := Extract(text);
    if |ms| > 0 && ms[|ms| - 1].role == "assistant" then ms[|ms| - 1].content
    else match LastIndexOf(text, AssistantBlock, |text|)
      case Some(k) => Trim(text[k + |AssistantBlock|..])
      case None => Trim(text)
  }

  /** A transcript that ends with an assistant message gives back exactly that message's content. */
  lemma AssistantAnswer(ms: seq<Message>, answer: string)
    requires forall m :: m in ms ==> Writable(m)
    requires Writable(Message("assistant", answer))
    ensures ExtractAssistant(Join(Lines(ms + [Message("assistant", answer)]), "\n")) == answer
  {
    var all := ms + [Message("assistant", answer)];
    forall m | m in all ensures Writable(m) {
    }
    ExtractRoundTrip(all);
  }
}
