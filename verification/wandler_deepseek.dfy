/**
 * `DeepseekProvider` (`packages/wandler/providers/deepseek.ts`): its configuration tables and
 * `reverseTemplate`, which splits decoded text on the `<｜User｜>` / `<｜Assistant｜>` markers,
 * reads the pieces as (role, content) pairs, lifts the first `<think>…</think>` block of an
 * assistant piece into `reasoning`, and cleans the content.
 */
module WandlerDeepseek {
  import opened Types
  import opened Strings
  import opened Seqs
  import opened ProviderConfig
  import WandlerBase

  const DistillModel: string := "onnx-community/DeepSeek-R1-Distill-Qwen-1.5B-ONNX"

  /** `baseConfig` */
  const BaseConfig: ModelConfig := ModelConfig(
    Some(Q4f16), Some(Best),
    map["max_new_tokens" := Num(1024.0), "do_sample" := Flag(false), "temperature" := Num(1.0),
        "top_p" := Num(1.0), "repetition_penalty" := Num(1.1)],
    FullPerformance(false, false, AutoDtype))

  /** `modelConfigs` */
  const ModelConfigs: map<string, PartialConfig> := map[
    DistillModel := PartialConfig(
      Some(Q4f16), None,
      Some(map["max_new_tokens" := Num(2048.0), "temperature" := Num(0.7), "top_p" := Num(0.95)]),
      Some(Performance(Some(false), None, Some(Q4f16))))]

  /** The distilled R1 model: longer, sampled settings, no KV cache, dtype `q4f16`. */
  lemma DistillConfig()
    ensures var c := ConfigForModel(BaseConfig, ModelConfigs, DistillModel);
      c.generationConfig == map["max_new_tokens" := Num(2048.0), "do_sample" := Flag(false), "temperature" := Num(0.7),
                                "top_p" := Num(0.95), "repetition_penalty" := Num(1.1)]
      && c.performance == FullPerformance(false, false, Q4f16)
      && c.dtype == Some(Q4f16) && c.device == Some(Best)
  {
    var o := ModelConfigs[DistillModel];
    assert OverrideFor(ModelConfigs, DistillModel) == o;
    var c := ConfigForModel(BaseConfig, ModelConfigs, DistillModel);
    assert c.generationConfig == BaseConfig.generationConfig + o.generationConfig.value;
    DistillMerge();
  }

  /** The distilled model's generation settings laid over the base's. */
  lemma DistillMerge()
    ensures BaseConfig.generationConfig + ModelConfigs[DistillModel].generationConfig.value
      == map["max_new_tokens" := Num(2048.0), "do_sample" := Flag(false), "temperature" := Num(0.7),
             "top_p" := Num(0.95), "repetition_penalty" := Num(1.1)]
  {
  }

  /** The inherited `loadModel`: `DeepseekProvider` overrides neither loader hook. */
  function LoadModel(path: string): (r: Result<LoadedModel>)
    ensures r == Err(PlainError("loadTokenizer not implemented"))
  {
    WandlerBase.LoadModel("DeepseekProvider", BaseConfig, ModelConfigs, path,
      Err(WandlerBase.TokenizerNotImplemented), Err(WandlerBase.InstanceNotImplemented))
  }

  const UserMarker: string := "<\U{FF5C}User\U{FF5C}>"
  const AssistantMarker: string := "<\U{FF5C}Assistant\U{FF5C}>"

  /**
   * `text.split(/<｜(User|Assistant)｜>/)`: the text between markers, with the captured role
   * word between every two pieces. There is always an odd number of parts, and every odd
   * position holds `User` or `Assistant`.
   */
  function SplitMarkers(s: string): (parts: seq<string>)
    ensures |parts| % 2 == 1
    ensures forall k :: 0 <= k < |parts| && k % 2 == 1 ==> parts[k] == "User" || parts[k] == "Assistant"
    decreases |s|
  {
    if s == [] then [[]]
    else if StartsWith(s, UserMarker) then [[], "User"] + SplitMarkers(s[|UserMarker|..])
    else if StartsWith(s, AssistantMarker) then [[], "Assistant"] + SplitMarkers(s[|AssistantMarker|..])
    else
      var rest := SplitMarkers(s[1..]);
      [[s[0]] + rest[0]] + rest[1..]
  }

  /** A text that starts with a marker splits into an empty first piece. */
  lemma SplitAtMarker(s: string)
    requires StartsWith(s, UserMarker) || StartsWith(s, AssistantMarker)
    ensures SplitMarkers(s)[0] == []
  {
  }

  /** `s.replace(/<｜(User|Assistant)｜>/g, "")`; a text without `<` is left as it is. */
  function RemoveMarkers(s: string): (r: string)
    ensures |r| <= |s|
    ensures '<' !in s ==> r == s
    decreases |s|
  {
    if s == [] then []
    else if StartsWith(s, UserMarker) then
      assert s[0] == UserMarker[0];
      RemoveMarkers(s[|UserMarker|..])
    else if StartsWith(s, AssistantMarker) then
      assert s[0] == AssistantMarker[0];
      RemoveMarkers(s[|AssistantMarker|..])
    else [s[0]] + RemoveMarkers(s[1..])
  }

  /** The marker a role word stands for: `<｜` role `｜>`. */
  function MarkerFor(role: string): string
  {
    "<\U{FF5C}" + role + "\U{FF5C}>"
  }

  lemma MarkersByRole()
    ensures MarkerFor("User") == UserMarker && MarkerFor("Assistant") == AssistantMarker
  {
  }

  /** The parts of a split put back together, each role word inside its marker again. */
  function Rejoin(parts: seq<string>): string
    requires |parts| % 2 == 1
    decreases |parts|
  {
    if |parts| == 1 then parts[0] else parts[0] + MarkerFor(parts[1]) + Rejoin(parts[2..])
  }

  /** The pieces of a split (the even positions) run together. */
  function JoinPieces(parts: seq<string>): string
    requires |parts| % 2 == 1
    decreases |parts|
  {
    if |parts| == 1 then parts[0] else parts[0] + JoinPieces(parts[2..])
  }

  /** A first part with one more character in front: the rejoined text has it in front too. */
  lemma RejoinLongerHead(c: char, rest: seq<string>)
    requires |rest| % 2 == 1
    ensures var parts := [[c] + rest[0]] + rest[1..];
      |parts| % 2 == 1 && Rejoin(parts) == [c] + Rejoin(rest)
  {
    var parts := [[c] + rest[0]] + rest[1..];
    if |rest| > 1 {
      assert parts[1] == rest[1] && parts[2..] == rest[2..];
      ConsThree(c, rest[0], MarkerFor(rest[1]), Rejoin(rest[2..]));
    }
  }

  lemma ConsThree(c: char, a: string, b: string, d: string)
    ensures ([c] + a) + b + d == [c] + (a + b + d)
  {
  }

  /** A first part with one more character in front: the joined pieces have it in front too. */
  lemma PiecesLongerHead(c: char, rest: seq<string>)
    requires |rest| % 2 == 1
    ensures var parts := [[c] + rest[0]] + rest[1..];
      |parts| % 2 == 1 && JoinPieces(parts) == [c] + JoinPieces(rest)
  {
    var parts := [[c] + rest[0]] + rest[1..];
    if |rest| > 1 {
      assert parts[2..] == rest[2..];
    }
  }

  /** A text that starts with `p` is `p` followed by the rest. */
  lemma PrefixThenRest(s: string, p: string)
    requires StartsWith(s, p)
    ensures s == p + s[|p|..]
  {
  }

  /** A marker in front of a split: rejoining puts that marker in front of the rejoined rest. */
  lemma RejoinAfterMarker(m: string, role: string, rest: seq<string>)
    requires |rest| % 2 == 1 && m == MarkerFor(role)
    ensures |[[], role] + rest| % 2 == 1 && Rejoin([[], role] + rest) == m + Rejoin(rest)
  {
    assert ([[], role] + rest)[2..] == rest;
  }

  /** Splitting on the markers loses nothing: putting each role back in its marker gives the text. */
  lemma {:induction false} SplitRejoins(s: string)
    ensures Rejoin(SplitMarkers(s)) == s
    decreases |s|
  {
    if s == [] {
    } else if StartsWith(s, UserMarker) {
      var tail := s[|UserMarker|..];
      SplitRejoins(tail);
      MarkersByRole();
      RejoinAfterMarker(UserMarker, "User", SplitMarkers(tail));
      PrefixThenRest(s, UserMarker);
    } else if StartsWith(s, AssistantMarker) {
      var tail := s[|AssistantMarker|..];
      SplitRejoins(tail);
      MarkersByRole();
      RejoinAfterMarker(AssistantMarker, "Assistant", SplitMarkers(tail));
      PrefixThenRest(s, AssistantMarker);
    } else {
      SplitRejoins(s[1..]);
      RejoinLongerHead(s[0], SplitMarkers(s[1..]));
      assert s == [s[0]] + s[1..];
    }
  }

  /** Removing the markers leaves exactly the pieces the split puts between them, in order. */
  lemma {:induction false} RemoveKeepsPieces(s: string)
    ensures RemoveMarkers(s) == JoinPieces(SplitMarkers(s))
    decreases |s|
  {
    if s == [] {
    } else if StartsWith(s, UserMarker) {
      var rest := SplitMarkers(s[|UserMarker|..]);
      RemoveKeepsPieces(s[|UserMarker|..]);
      assert ([[], "User"] + rest)[2..] == rest;
    } else if StartsWith(s, AssistantMarker) {
      var rest := SplitMarkers(s[|AssistantMarker|..]);
      RemoveKeepsPieces(s[|AssistantMarker|..]);
      assert ([[], "Assistant"] + rest)[2..] == rest;
    } else {
      RemoveKeepsPieces(s[1..]);
      PiecesLongerHead(s[0], SplitMarkers(s[1..]));
    }
  }

  const ThinkOpen: string := "<think>"
  const ThinkClose: string := "</think>"

  /**
   * `content.match(/<think>([\s\S]*?)<\/think>/)`: the leftmost opening tag that has a closing
   * tag after it, and the first closing tag after it. Only the first opening tag can be the
   * leftmost one, since any closing tag after a later opening tag also follows the first.
   */
  function ThinkMatch(content: string): (r: Option<(nat, nat)>)
    ensures r.Some? ==> OccursAt(content, ThinkOpen, r.value.0) && OccursAt(content, ThinkClose, r.value.1)
    ensures r.Some? ==> r.value.0 + |ThinkOpen| <= r.value.1
    ensures r.Some? ==> forall k :: 0 <= k < r.value.0 ==> !OccursAt(content, ThinkOpen, k)
    ensures r.Some? ==> forall k :: r.value.0 + |ThinkOpen| <= k < r.value.1 ==> !OccursAt(content, ThinkClose, k)
    ensures r.None? ==> forall a, b :: OccursAt(content, ThinkOpen, a) && a + |ThinkOpen| <= b ==> !OccursAt(content, ThinkClose, b)
  {
    match IndexOf(content, ThinkOpen, 0)
    case None => None
    case Some(a) =>
      match IndexOf(content, ThinkClose, a + |ThinkOpen|)
      case None => None
      case Some(b) => Some((a, b))
  }

  /** The content after the leftover markers and every `**` are removed, trimmed. */
  function Clean(content: string): string
  {
    Trim(RemoveAll(RemoveMarkers(content), "**"))
  }

  /** `messages` and `reasoning` between two pairs. */
  datatype Acc = Acc(messages: seq<Message>, reasoning: Option<string>)

  /** `parts[i + 1] || ""` */
  function ContentAt(parts: seq<string>, i: nat): string
  {
    if i + 1 < |parts| then parts[i + 1] else []
  }

  /** Whether the pair at `i` is an assistant piece with a think block. */
  predicate IsThinkPiece(parts: seq<string>, i: nat)
    requires i < |parts|
  {
    Lower(parts[i]) == "assistant" && ThinkMatch(ContentAt(parts, i)).Some?
  }

  /** The trimmed text of the think block of the pair at `i`. */
  function ThinkText(parts: seq<string>, i: nat): string
    requires i < |parts| && IsThinkPiece(parts, i)
  {
    var content := ContentAt(parts, i);
    var m := ThinkMatch(content).value;
    Trim(content[m.0 + |ThinkOpen|..m.1])
  }

  /** The content of the pair at `i`, with its think block cut out when it is an assistant piece. */
  function Body(parts: seq<string>, i: nat): string
    requires i < |parts|
  {
    var content := ContentAt(parts, i);
    if IsThinkPiece(parts, i) then
      var m := ThinkMatch(content).value;
      content[..m.0] + content[m.1 + |ThinkClose|..]
    else content
  }

  /** One turn of the loop: the pair at index `i`. */
  function Piece(parts: seq<string>, i: nat, acc: Acc): Acc
    requires i < |parts|
  {
    var cleaned := Clean(Body(parts, i));
    Acc(if cleaned != [] then acc.messages + [Message(Lower(parts[i]), cleaned)] else acc.messages,
        if IsThinkPiece(parts, i) then Some(ThinkText(parts, i)) else acc.reasoning)
  }

  /** The loop over pairs from index `i`. */
  function Pairs(parts: seq<string>, i: nat, acc: Acc): Acc
    decreases |parts| - i
  {
    if i >= |parts| then acc else Pairs(parts, i + 2, Piece(parts, i, acc))
  }

  /** The parts after a leading empty piece is dropped (`parts.shift()`). */
  function Pieces(text: string): seq<string>
  {
    var parts := SplitMarkers(text);
    if parts[0] == [] then parts[1..] else parts
  }

  /** `reverseTemplate(text)` as a specification. */
  function Parse(text: string): ParsedOutput
  {
    var acc := Pairs(Pieces(text), 0, Acc([], None));
    ParsedOutput(acc.messages, acc.reasoning, None)
  }

  lemma PairsUnfold(parts: seq<string>, i: nat, acc: Acc)
    requires i < |parts|
    ensures Pairs(parts, i, acc) == Pairs(parts, i + 2, Piece(parts, i, acc))
  {
  }

  /**
   * The think step of one turn: for an assistant piece whose content has a think block, the
   * block's trimmed text becomes the reasoning and the block is cut out of the content.
   */
  method CutThink(parts: seq<string>, i: nat, reasoning: Option<string>) returns (content: string, reasoning': Option<string>)
    requires i < |parts|
    ensures content == Body(parts, i)
    ensures reasoning' == if IsThinkPiece(parts, i) then Some(ThinkText(parts, i)) else reasoning
  {
    reasoning' := reasoning;
    var role := Lower(parts[i]);
    content := if i + 1 < |parts| then parts[i + 1] else [];
    assert content == ContentAt(parts, i);
    var thinkMatch := ThinkMatch(content);
    if thinkMatch.Some? && role == "assistant" {
      assert IsThinkPiece(parts, i);
      reasoning' := Some(Trim(content[thinkMatch.value.0 + |ThinkOpen|..thinkMatch.value.1]));
      content := content[..thinkMatch.value.0] + content[thinkMatch.value.1 + |ThinkClose|..];
    } else {
      assert !IsThinkPiece(parts, i);
    }
  }

  /** One turn of the loop of `reverseTemplate`: the pair at index `i`. */
  method ReadPair(parts: seq<string>, i: nat, messages: seq<Message>, reasoning: Option<string>)
    returns (messages': seq<Message>, reasoning': Option<string>)
    requires i < |parts|
    ensures Acc(messages', reasoning') == Piece(parts, i, Acc(messages, reasoning))
  {
    var content;
    content, reasoning' := CutThink(parts, i, reasoning);
    content := Trim(RemoveAll(RemoveMarkers(content), "**"));
    messages' := messages;
    if content != [] {
      messages' := messages + [Message(Lower(parts[i]), content)];
    }
  }

  /** The loop of `reverseTemplate` over (role, content) pairs. */
  method ReadPairs(parts: seq<string>) returns (messages: seq<Message>, reasoning: Option<string>)
    ensures Acc(messages, reasoning) == Pairs(parts, 0, Acc([], None))
  {
    messages, reasoning := [], None;
    var i := 0;
    while i < |parts|
      invariant Pairs(parts, i, Acc(messages, reasoning)) == Pairs(parts, 0, Acc([], None))
      decreases |parts| - i
    {
      PairsUnfold(parts, i, Acc(messages, reasoning));
      messages, reasoning := ReadPair(parts, i, messages, reasoning);
      i := i + 2;
    }
  }

  /** `reverseTemplate(formattedOutput)` */
  method ReverseTemplate(formattedOutput: string) returns (result: ParsedOutput)
    ensures result == Parse(formattedOutput)
    ensures result.sources.None?
  {
    var parts := SplitMarkers(formattedOutput);
    if parts[0] == [] {
      parts := parts[1..];
    }
    var messages, reasoning := ReadPairs(parts);
    result := ParsedOutput(messages, reasoning, None);
  }

  // ---------------------------------------------------------------------------------------
  // Properties

  /** A message as this parser emits it: non-empty, trimmed content with no `**` left. */
  predicate CleanMessage(m: Message)
  {
    m.content != [] && Trim(m.content) == m.content && NoDoubleStar(m.content)
  }

  lemma CleanIsClean(content: string)
    requires Clean(content) != []
    ensures CleanMessage(Message("", Clean(content)))
  {
    var stripped := RemoveAll(RemoveMarkers(content), "**");
    RemoveDoubleStar(RemoveMarkers(content));
    NoDoubleStarTrim(stripped);
    TrimIdempotent(stripped);
  }

  lemma {:induction false} PairsClean(parts: seq<string>, i: nat, acc: Acc)
    requires forall m :: m in acc.messages ==> CleanMessage(m)
    ensures forall m :: m in Pairs(parts, i, acc).messages ==> CleanMessage(m)
    decreases |parts| - i
  {
    if i < |parts| {
      PieceClean(parts, i, acc);
      PairsClean(parts, i + 2, Piece(parts, i, acc));
    }
  }

  lemma PieceClean(parts: seq<string>, i: nat, acc: Acc)
    requires i < |parts|
    requires forall m :: m in acc.messages ==> CleanMessage(m)
    ensures forall m :: m in Piece(parts, i, acc).messages ==> CleanMessage(m)
  {
    var next := Piece(parts, i, acc);
    if next.messages != acc.messages {
      CleanIsClean(Body(parts, i));
    }
  }

  /** Every message has non-empty, trimmed content without `**`. */
  lemma MessagesClean(text: string)
    ensures forall m :: m in Parse(text).messages ==> CleanMessage(m)
  {
    PairsClean(Pieces(text), 0, Acc([], None));
  }

  /** Whether some pair at `i`, `i + 2`, … is an assistant piece with a think block. */
  predicate AnyThink(parts: seq<string>, i: nat)
    decreases |parts| - i
  {
    i < |parts| && (IsThinkPiece(parts, i) || AnyThink(parts, i + 2))
  }

  lemma {:induction false} PairsReasoning(parts: seq<string>, i: nat, acc: Acc)
    ensures !AnyThink(parts, i) ==> Pairs(parts, i, acc).reasoning == acc.reasoning
    ensures AnyThink(parts, i) ==> Pairs(parts, i, acc).reasoning.Some?
    ensures acc.reasoning.Some? ==> Pairs(parts, i, acc).reasoning.Some?
    decreases |parts| - i
  {
    if i < |parts| {
      PairsReasoning(parts, i + 2, Piece(parts, i, acc));
    }
  }

  /** `reasoning` is set exactly when some assistant piece carries a think block. */
  lemma ReasoningIffThink(text: string)
    ensures Parse(text).reasoning.Some? <==> AnyThink(Pieces(text), 0)
    ensures Parse(text).sources.None?
  {
    PairsReasoning(Pieces(text), 0, Acc([], None));
  }

  /** The index of the last pair at `i`, `i + 2`, … that is an assistant piece with a think block. */
  function LastThink(parts: seq<string>, i: nat): (j: Option<nat>)
    ensures j.Some? ==> i <= j.value < |parts| && IsThinkPiece(parts, j.value)
    decreases |parts| - i
  {
    if i >= |parts| then None
    else match LastThink(parts, i + 2)
      case Some(k) => Some(k)
      case None => if IsThinkPiece(parts, i) then Some(i) else None
  }

  /** `LastThink` finds a pair exactly when there is one, and none comes after it. */
  lemma {:induction false} LastThinkIsLast(parts: seq<string>, i: nat)
    ensures var j := LastThink(parts, i);
      (j.Some? <==> AnyThink(parts, i)) && (j.Some? ==> !AnyThink(parts, j.value + 2))
    decreases |parts| - i
  {
    if i < |parts| {
      LastThinkIsLast(parts, i + 2);
    }
  }

  /** `j` is one of `i`, `i + 2`, `i + 4`, …: an index the pair loop started at `i` visits. */
  predicate OnStride(j: int, i: int)
    decreases j - i
  {
    j == i || (j >= i + 2 && OnStride(j, i + 2))
  }

  /** The pair `LastThink` finds is one the loop visits. */
  lemma {:induction false} LastThinkOnStride(parts: seq<string>, i: nat)
    ensures var j := LastThink(parts, i); j.Some? ==> OnStride(j.value, i)
    decreases |parts| - i
  {
    if i < |parts| && LastThink(parts, i + 2).Some? {
      LastThinkOnStride(parts, i + 2);
    }
  }

  /**
   * The loop leaves as `reasoning` the trimmed think text of the last assistant piece with a
   * think block: each such piece overwrites what an earlier one set. Without one, the
   * reasoning it started with is kept.
   */
  lemma {:induction false} PairsLastReasoning(parts: seq<string>, i: nat, acc: Acc)
    ensures var j := LastThink(parts, i);
      Pairs(parts, i, acc).reasoning == if j.Some? then Some(ThinkText(parts, j.value)) else acc.reasoning
    decreases |parts| - i
  {
    if i < |parts| {
      PairsLastReasoning(parts, i + 2, Piece(parts, i, acc));
    }
  }

  /** `reasoning` is the trimmed think text of the last assistant piece that has a think block, else `null`. */
  lemma ReasoningIsLastThink(text: string)
    ensures var j := LastThink(Pieces(text), 0);
      Parse(text).reasoning == if j.Some? then Some(ThinkText(Pieces(text), j.value)) else None
  {
    PairsLastReasoning(Pieces(text), 0, Acc([], None));
  }

  /** A pair adds at most one message, carrying its lower-cased role. */
  lemma PieceMessages(parts: seq<string>, i: nat, acc: Acc)
    requires i < |parts|
    ensures Piece(parts, i, acc).messages == acc.messages
      || Piece(parts, i, acc).messages == acc.messages + [Message(Lower(parts[i]), Clean(Body(parts, i)))]
  {
  }

  /** The lower-cased role of every pair, in order. */
  function PieceRoles(parts: seq<string>, i: nat): seq<string>
    decreases |parts| - i
  {
    if i >= |parts| then [] else [Lower(parts[i])] + PieceRoles(parts, i + 2)
  }

  lemma PieceOrder(parts: seq<string>, i: nat, acc: Acc, seen: seq<string>)
    requires i < |parts|
    requires IsSubseq(RolesOf(acc.messages), seen)
    ensures IsSubseq(RolesOf(Piece(parts, i, acc).messages), seen + [Lower(parts[i])])
  {
    var next := Piece(parts, i, acc);
    var role := Lower(parts[i]);
    var before := RolesOf(acc.messages);
    PieceMessages(parts, i, acc);
    if next.messages == acc.messages {
      SubseqExtend(before, seen, role);
    } else {
      assert RolesOf(next.messages) == before + [role];
      SubseqSnoc(before, seen, role);
    }
  }

  lemma {:induction false} PairsOrder(parts: seq<string>, i: nat, acc: Acc, seen: seq<string>)
    requires IsSubseq(RolesOf(acc.messages), seen)
    ensures IsSubseq(RolesOf(Pairs(parts, i, acc).messages), seen + PieceRoles(parts, i))
    decreases |parts| - i
  {
    if i >= |parts| {
      AppendNil(seen);
    } else {
      var role := Lower(parts[i]);
      PieceOrder(parts, i, acc, seen);
      PairsOrder(parts, i + 2, Piece(parts, i, acc), seen + [role]);
      AppendAssoc(seen, [role], PieceRoles(parts, i + 2));
    }
  }

  /** Messages keep the order of the pairs they come from, at most one per pair. */
  lemma MessagesInOrder(text: string)
    ensures IsSubseq(RolesOf(Parse(text).messages), PieceRoles(Pieces(text), 0))
  {
    PairsOrder(Pieces(text), 0, Acc([], None), []);
    AppendNil(PieceRoles(Pieces(text), 0));
  }

  lemma {:induction false} RolesOfMarkers(parts: seq<string>, i: nat)
    requires i % 2 == 0
    requires forall k :: 0 <= k < |parts| && k % 2 == 0 ==> parts[k] == "User" || parts[k] == "Assistant"
    ensures forall r :: r in PieceRoles(parts, i) ==> r == "user" || r == "assistant"
    decreases |parts| - i
  {
    if i < |parts| {
      assert Lower("User") == "user";
      assert Lower("Assistant") == "assistant";
      RolesOfMarkers(parts, i + 2);
    }
  }

  /**
   * A text that starts with a marker is read with the roles the markers name: every message
   * is a `user` or an `assistant` message.
   */
  lemma MarkedRoles(text: string)
    requires StartsWith(text, UserMarker) || StartsWith(text, AssistantMarker)
    ensures forall m :: m in Parse(text).messages ==> m.role == "user" || m.role == "assistant"
  {
    SplitAtMarker(text);
    var parts := SplitMarkers(text);
    var pieces := Pieces(text);
    assert pieces == parts[1..];
    forall k | 0 <= k < |pieces| && k % 2 == 0 ensures pieces[k] == "User" || pieces[k] == "Assistant" {
      assert pieces[k] == parts[k + 1];
    }
    RolesOfMarkers(pieces, 0);
    MessagesInOrder(text);
    var roles := RolesOf(Parse(text).messages);
    forall m | m in Parse(text).messages ensures m.role == "user" || m.role == "assistant" {
      var j :| 0 <= j < |Parse(text).messages| && Parse(text).messages[j] == m;
      SubseqMember(roles, PieceRoles(pieces, 0), j);
    }
  }
}
