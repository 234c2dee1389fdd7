/**
 * The message protocol between the main thread and a worker (`WorkerMessage` and
 * `WorkerResponse` in each package's `types/worker.ts`), and the result records the frames carry.
 */
module Protocol {
  import opened Types

  /** `finishReason` */
  datatype FinishReason = Stop | Length | AbortFinish

  /** `usage` */
  datatype Usage = Usage(promptTokens: int, completionTokens: int, totalTokens: int)

  /** `GenerationResult`; `None` is `null`. */
  datatype GenerationResult = GenerationResult(
    text: Option<string>,
    reasoning: Option<string>,
    sources: Option<seq<string>>,
    finishReason: Option<FinishReason>,
    usage: Option<Usage>,
    messages: Option<seq<Message>>)

  /** `TextStreamPart`: a part type and its optional `textDelta`. */
  datatype StreamPart = StreamPart(kind: string, textDelta: Option<string>)

  /**
   * A frame payload. An error travels either as an `Error` instance or as a plain
   * `{message, name, code}` object; `isInstance` tells them apart.
   */
  datatype Payload =
    | ErrorPayload(info: ErrorInfo, isInstance: bool)
    | ModelPayload(model: LoadedModel)
    | ResultPayload(result: GenerationResult)
    | TextPayload(text: string)
    | PartPayload(part: StreamPart)
    | ProgressPayload(event: ProgressEvent)
    | NoPayload

  /** `WorkerResponseType` */
  datatype FrameKind = LoadedFrame | GeneratedFrame | StreamFrame | ErrorFrame | ProgressFrame | ResetFrame

  /** `WorkerResponse` */
  datatype Frame = Frame(kind: FrameKind, payload: Payload, id: string)

  /** `WorkerMessageType` */
  datatype RequestKind = LoadRequest | GenerateRequest | StreamRequest | TerminateRequest | ResetRequest

  /** `WorkerMessage`: the payload fields the workers read; `config` holds the sampling fields. */
  datatype Request = Request(
    kind: RequestKind,
    modelPath: Option<string>,
    options: Option<ModelOptions>,
    messages: Option<seq<Message>>,
    config: map<string, Value>,
    id: string)

  /** How an async call ends: with a value, or by throwing a payload (an `Error` or a plain object). */
  datatype Outcome<T> = Done(value: T) | Thrown(error: Payload)

  /** A `Result` seen as an outcome: its error is thrown as an `Error` instance. */
  function FromResult<T>(r: Result<T>): (o: Outcome<T>)
    ensures o.Done? <==> r.Ok?
    ensures r.Ok? ==> o.value == r.value
    ensures r.Err? ==> o.error == ErrorPayload(r.error, true)
  {
    if r.Ok? then Done(r.value) else Thrown(ErrorPayload(r.error, true))
  }
}
