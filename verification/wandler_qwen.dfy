/**
 * `QwenProvider` (`packages/wandler/providers/qwen.ts`): its configuration tables and
 * `reverseTemplate`, a line parser that reads role-marker lines (`system`, `user`, `human`,
 * `assistant`, `bot`, or their `<|…|>` forms, in any letter case) back into chat messages.
 */
module WandlerQwen {
  import opened Types
  import opened Strings
  import opened Seqs
  import opened ProviderConfig
  import WandlerBase

  const CoderModel: string := "onnx-community/Qwen2.5-Coder-0.5B-Instruct"

  /** `baseConfig` */
  const BaseConfig: ModelConfig := ModelConfig(
    Some(Q4f16), Some(Best),
    map["max_new_tokens" := Num(1024.0), "do_sample" := Flag(false), "temperature" := Num(1.0),
        "top_p" := Num(1.0), "repetition_penalty" := Num(1.1)],
    FullPerformance(false, false, AutoDtype))

  /** `modelConfigs` */
  const ModelConfigs: map<string, PartialConfig> := map[
    CoderModel := PartialConfig(
      Some(Q4f16), None,
      Some(map["max_new_tokens" := Num(2048.0), "temperature" := Num(0.7), "top_p" := Num(0.95)]),
      Some(Performance(Some(false), None, Some(Q4f16))))]

  /** The coder model gets the longer, sampled settings and keeps the base's other keys. */
  lemma CoderConfig()
    ensures var c := ConfigForModel(BaseConfig, ModelConfigs, CoderModel);
      c.generationConfig == map["max_new_tokens" := Num(2048.0), "do_sample" := Flag(false), "temperature" := Num(0.7),
                                "top_p" := Num(0.95), "repetition_penalty" := Num(1.1)]
      && c.performance == FullPerformance(false, false, Q4f16)
      && c.dtype == Some(Q4f16) && c.device == Some(Best)
  {
    var o := ModelConfigs[CoderModel];
    assert OverrideFor(ModelConfigs, CoderModel) == o;
    CoderMerge();
  }

  /** The coder model's generation settings laid over the base's. */
  lemma CoderMerge()
    ensures BaseConfig.generationConfig + ModelConfigs[CoderModel].generationConfig.value
      == map["max_new_tokens" := Num(2048.0), "do_sample" := Flag(false), "temperature" := Num(0.7),
             "top_p" := Num(0.95), "repetition_penalty" := Num(1.1)]
  {
  }

  /** The inherited `loadModel`: `QwenProvider` overrides neither loader hook. */
  function LoadModel(path: string): (r: Result<LoadedModel>)
    ensures r == Err(PlainError("loadTokenizer not implemented"))
  {
    WandlerBase.LoadModel("QwenProvider", BaseConfig, ModelConfigs, path,
      Err(WandlerBase.TokenizerNotImplemented), Err(WandlerBase.InstanceNotImplemented))
  }

  /** `rolePatterns`, in the order they are tried: each role with the prefixes its pattern accepts. */
  const RolePatterns: seq<(string, seq<string>)> := [
    ("system", ["system", "<|system|>"]),
    ("user", ["user", "<|user|>", "human"]),
    ("assistant", ["assistant", "<|assistant|>", "bot"])]

  /** `pattern.test(line)` for a `/^(a|b|…)/i` pattern. */
  predicate MatchesPattern(line: string, prefixes: seq<string>)
  {
    prefixes != [] && (StartsWithIgnoreCase(line, prefixes[0]) || MatchesPattern(line, prefixes[1..]))
  }

  /** The role of the first pattern, from the `j`-th on, that the line matches. */
  function MarkerFrom(line: string, j: nat): (r: Option<string>)
    ensures r.Some? ==> r.value in {"system", "user", "assistant"}
    decreases |RolePatterns| - j
  {
    if j >= |RolePatterns| then None
    else if MatchesPattern(line, RolePatterns[j].1) then Some(RolePatterns[j].0)
    else MarkerFrom(line, j + 1)
  }

  /** The role a (trimmed, non-empty) line announces, if it is a marker line. */
  function MarkerRole(line: string): Option<string>
  {
    MarkerFrom(line, 0)
  }

  /** `messages`, `currentRole` and `currentContent` between two lines. */
  datatype ParseState = ParseState(messages: seq<Message>, role: Option<string>, content: seq<string>)

  const Init: ParseState := ParseState([], None, [])

  /** The messages with the pending one pushed, when it has a role and collected a line. */
  function Flush(st: ParseState): seq<Message>
  {
    if st.role.Some? && |st.content| > 0 then
      st.messages + [Message(st.role.value, Trim(Join(st.content, "\n")))]
    else st.messages
  }

  /** One turn of the loop over lines. */
  function Step(st: ParseState, line: string): ParseState
  {
    var t := Trim(line);
    if t == [] then st
    else match MarkerRole(t)
      case Some(role) => ParseState(Flush(st), Some(role), [])
      case None => if st.role.Some? then st.(content := st.content + [t]) else st
  }

  /** The three shapes a turn takes: blank line, marker line, other line. */
  lemma StepCases(st: ParseState, line: string)
    ensures Trim(line) == [] ==> Step(st, line) == st
    ensures Trim(line) != [] && MarkerRole(Trim(line)).Some? ==>
      Step(st, line) == ParseState(Flush(st), MarkerRole(Trim(line)), [])
    ensures Trim(line) != [] && MarkerRole(Trim(line)).None? ==>
      Step(st, line) == if st.role.Some? then st.(content := st.content + [Trim(line)]) else st
  {
  }

  /** The loop over `lines`, from state `st`. */
  function Run(st: ParseState, lines: seq<string>): ParseState
    decreases |lines|
  {
    if lines == [] then st else Run(Step(st, lines[0]), lines[1..])
  }

  lemma RunUnfold(st: ParseState, lines: seq<string>)
    requires lines != []
    ensures Run(st, lines) == Run(Step(st, lines[0]), lines[1..])
  {
  }

  /** The messages `reverseTemplate` reads from a list of lines. */
  function ParseLines(lines: seq<string>): seq<Message>
  {
    Flush(Run(Init, lines))
  }

  /** `reverseTemplate(text)` as a specification. */
  function Parse(text: string): ParsedOutput
  {
    ParsedOutput(ParseLines(Split(text, '\n')), None, None)
  }

  /** The inner loop of `reverseTemplate`: the patterns are tried in order and the first match wins. */
  method FindRole(trimmedLine: string) returns (role: Option<string>)
    ensures role == MarkerRole(trimmedLine)
  {
    role := None;
    var j := 0;
    while j < |RolePatterns|
      invariant 0 <= j <= |RolePatterns|
      invariant MarkerFrom(trimmedLine, j) == MarkerRole(trimmedLine)
    {
      if MatchesPattern(trimmedLine, RolePatterns[j].1) {
        role := Some(RolePatterns[j].0);
        return;
      }
      j := j + 1;
    }
  }

  /** One turn of the loop of `reverseTemplate`, on `messages`, `currentRole` and `currentContent`. */
  method ReadLine(messages: seq<Message>, currentRole: Option<string>, currentContent: seq<string>, line: string)
    returns (messages': seq<Message>, currentRole': Option<string>, currentContent': seq<string>)
    ensures ParseState(messages', currentRole', currentContent') == Step(ParseState(messages, currentRole, currentContent), line)
  {
    messages', currentRole', currentContent' := messages, currentRole, currentContent;
    var trimmedLine := Trim(line);
    if trimmedLine != [] {
      var role := FindRole(trimmedLine);
      if role.Some? {
        if currentRole.Some? && |currentContent| > 0 {
          messages' := messages + [Message(currentRole.value, Trim(Join(currentContent, "\n")))];
        }
        currentRole' := role;
        currentContent' := [];
      } else if currentRole.Some? {
        currentContent' := currentContent + [trimmedLine];
      }
    }
    StepCases(ParseState(messages, currentRole, currentContent), line);
  }

  /** The loop of `reverseTemplate` over the lines of the text, and the final push. */
  method ReadLines(lines: seq<string>) returns (messages: seq<Message>)
    ensures messages == ParseLines(lines)
  {
    messages := [];
    var currentRole: Option<string> := None;
    var currentContent: seq<string> := [];
    var i := 0;
    while i < |lines|
      invariant 0 <= i <= |lines|
      invariant Flush(Run(ParseState(messages, currentRole, currentContent), lines[i..])) == ParseLines(lines)
    {
      RunUnfold(ParseState(messages, currentRole, currentContent), lines[i..]);
      TailOfSuffix(lines, i);
      messages, currentRole, currentContent := ReadLine(messages, currentRole, currentContent, lines[i]);
      i := i + 1;
    }
    if currentRole.Some? && |currentContent| > 0 {
      messages := messages + [Message(currentRole.value, Trim(Join(currentContent, "\n")))];
    }
  }

  /** `reverseTemplate(formattedOutput)` */
  method ReverseTemplate(formattedOutput: string) returns (result: ParsedOutput)
    ensures result == Parse(formattedOutput)
    ensures result.reasoning.None? && result.sources.None?
  {
    var lines := Split(formattedOutput, '\n');
    var messages := ReadLines(lines);
    result := ParsedOutput(messages, None, None);
  }

  // ---------------------------------------------------------------------------------------
  // What every parsed message looks like

  /** A message as `reverseTemplate` emits it: a known role and non-empty, trimmed content. */
  predicate WellFormed(m: Message)
  {
    m.role in {"system", "user", "assistant"} && m.content != [] && Trim(m.content) == m.content
  }

  predicate Solid(line: string)
  {
    line != [] && !IsSpace(line[0])
  }

  predicate StateOk(st: ParseState)
  {
    (forall m :: m in st.messages ==> WellFormed(m))
    && (st.role.Some? ==> st.role.value in {"system", "user", "assistant"})
    && (forall c :: c in st.content ==> Solid(c))
  }

  lemma FlushOk(st: ParseState)
    requires StateOk(st)
    ensures forall m :: m in Flush(st) ==> WellFormed(m)
  {
    if st.role.Some? && |st.content| > 0 {
      var joined := Join(st.content, "\n");
      assert Solid(st.content[0]);
      JoinFirst(st.content, "\n");
      TrimKeepsFirst(joined);
      TrimIdempotent(joined);
    }
  }

  lemma StepOk(st: ParseState, line: string)
    requires StateOk(st)
    ensures StateOk(Step(st, line))
  {
    var t := Trim(line);
    if t != [] {
      match MarkerRole(t)
      case Some(role) =>
        FlushOk(st);
        assert Step(st, line) == ParseState(Flush(st), Some(role), []);
      case None =>
        if st.role.Some? {
          TrimmedStartsSolid(line);
          var next := st.content + [t];
          assert Step(st, line) == st.(content := next);
          forall c | c in next ensures Solid(c) {
            if c !in st.content {
              assert c == t;
            }
          }
        }
    }
  }

  lemma {:induction false} RunOk(st: ParseState, lines: seq<string>)
    requires StateOk(st)
    ensures StateOk(Run(st, lines))
    decreases |lines|
  {
    if lines != [] {
      StepOk(st, lines[0]);
      RunOk(Step(st, lines[0]), lines[1..]);
    }
  }

  /** Every message has a known role and non-empty content with no surrounding whitespace. */
  lemma ParsedMessagesWellFormed(text: string)
    ensures forall m :: m in Parse(text).messages ==> WellFormed(m)
  {
    RunOk(Init, Split(text, '\n'));
    FlushOk(Run(Init, Split(text, '\n')));
  }

  // ---------------------------------------------------------------------------------------
  // Order: the messages follow the marker lines

  /** The role a line announces, as a sequence of zero or one role. */
  function LineMarker(line: string): seq<string>
  {
    var t := Trim(line);
    if t != [] && MarkerRole(t).Some? then [MarkerRole(t).value] else []
  }

  /** The roles of the marker lines, in order. */
  function MarkerRoles(lines: seq<string>): seq<string>
  {
    if lines == [] then [] else LineMarker(lines[0]) + MarkerRoles(lines[1..])
  }

  /** The roles already emitted followed by the pending one. */
  function Announced(st: ParseState): seq<string>
  {
    RolesOf(st.messages) + (if st.role.Some? then [st.role.value] else [])
  }

  lemma FlushOrder(st: ParseState, seen: seq<string>)
    requires IsSubseq(Announced(st), seen)
    ensures IsSubseq(RolesOf(Flush(st)), seen)
  {
    if st.role.Some? {
      if |st.content| > 0 {
        RolesOfSnoc(st.messages, Message(st.role.value, Trim(Join(st.content, "\n"))));
        assert RolesOf(Flush(st)) == Announced(st);
      } else {
        SubseqDropLast(Announced(st), seen);
        assert Announced(st)[..|Announced(st)| - 1] == RolesOf(st.messages);
      }
    } else {
      assert Announced(st) == RolesOf(st.messages);
    }
  }

  lemma StepOrder(st: ParseState, line: string, seen: seq<string>)
    requires IsSubseq(Announced(st), seen)
    ensures IsSubseq(Announced(Step(st, line)), seen + LineMarker(line))
  {
    var t := Trim(line);
    if t != [] && MarkerRole(t).Some? {
      FlushOrder(st, seen);
      SubseqSnoc(RolesOf(Flush(st)), seen, MarkerRole(t).value);
      assert Announced(Step(st, line)) == RolesOf(Flush(st)) + [MarkerRole(t).value];
    } else {
      assert seen + LineMarker(line) == seen;
      assert Announced(Step(st, line)) == Announced(st);
    }
  }

  lemma {:induction false} RunOrder(st: ParseState, lines: seq<string>, seen: seq<string>)
    requires IsSubseq(Announced(st), seen)
    ensures IsSubseq(Announced(Run(st, lines)), seen + MarkerRoles(lines))
    decreases |lines|
  {
    if lines == [] {
      AppendNil(seen);
    } else {
      StepOrder(st, lines[0], seen);
      RunOrder(Step(st, lines[0]), lines[1..], seen + LineMarker(lines[0]));
      AppendAssoc(seen, LineMarker(lines[0]), MarkerRoles(lines[1..]));
    }
  }

  /**
   * Messages come out in input order: their roles, in order, are a subsequence of the roles
   * announced by the marker lines. So there are never more messages than marker lines.
   */
  lemma MessagesFollowMarkers(lines: seq<string>)
    ensures IsSubseq(RolesOf(ParseLines(lines)), MarkerRoles(lines))
    ensures |ParseLines(lines)| <= |MarkerRoles(lines)|
  {
    assert Announced(Init) == [];
    RunOrder(Init, lines, []);
    assert [] + MarkerRoles(lines) == MarkerRoles(lines);
    FlushOrder(Run(Init, lines), MarkerRoles(lines));
    SubseqLength(RolesOf(ParseLines(lines)), MarkerRoles(lines));
  }

  /** Lines before the first marker line are dropped: they do not change the result. */
  lemma {:induction false} PreambleDropped(preamble: seq<string>, rest: seq<string>)
    requires MarkerRoles(preamble) == []
    ensures ParseLines(preamble + rest) == ParseLines(rest)
  {
    PreambleRun(preamble, rest);
  }

  lemma StepWithoutRole(line: string)
    requires LineMarker(line) == []
    ensures Step(Init, line) == Init
  {
  }

  lemma {:induction false} PreambleRun(preamble: seq<string>, rest: seq<string>)
    requires MarkerRoles(preamble) == []
    ensures Run(Init, preamble + rest) == Run(Init, rest)
    decreases |preamble|
  {
    if preamble == [] {
      assert preamble + rest == rest;
    } else {
      TailOfAppend(preamble, rest);
      assert MarkerRoles(preamble) == LineMarker(preamble[0]) + MarkerRoles(preamble[1..]);
      StepWithoutRole(preamble[0]);
      PreambleRun(preamble[1..], rest);
    }
  }


}
