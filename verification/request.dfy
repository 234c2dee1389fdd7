/**
 * The request a caller hands to `generateText` and `streamText` in the older package
 * (`BaseGenerationOptions`, `ToolOptions` and the `Message` type they carry), reduced to the
 * fields the orchestration reads. The abort signal and the model are passed separately.
 */
module Request {
  import opened Types

  /** One part of a multi-part message content. JSON texts are kept as given, already serialised. */
  datatype ContentPart =
    | TextPart(text: string)
    | ImagePart(url: Option<string>)                 // `None`: binary image data
    | FilePart(mimeType: string)
    | ToolCallPart(toolName: string, argsJson: string)
    | ToolResultPart(toolName: string, resultJson: string)
    | OtherPart(json: string)

  /** A message's `content`: a string, an array of parts, or missing (`undefined` or `null`). */
  datatype Content = TextContent(text: string) | PartsContent(parts: seq<ContentPart>) | NoContent

  /** A caller's message; an empty `role` stands for a missing one (both are falsy). */
  datatype InputMessage = InputMessage(role: string, content: Content)

  /**
   * The generation options. `system` and `prompt` are `""` when absent (only truthiness is read);
   * the three `has…Key` flags say whether the options object has a `tools`, `toolChoice` or
   * `maxSteps` key at all, whatever its value.
   */
  datatype GenerationOptions = GenerationOptions(
    messages: Option<seq<InputMessage>>,
    system: string,
    prompt: string,
    maxTokens: Option<real>,
    temperature: Option<real>,
    topP: Option<real>,
    frequencyPenalty: Option<real>,
    stopSequences: Option<seq<string>>,
    seed: Option<real>,
    maxRetries: Option<int>,
    hasToolsKey: bool,
    hasToolChoiceKey: bool,
    hasMaxStepsKey: bool,
    tools: Option<seq<string>>,
    toolChoice: Option<string>,
    maxSteps: Option<real>)
}
