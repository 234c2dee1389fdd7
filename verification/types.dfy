/** Value types shared by both generations of the library (`packages/core` and `packages/wandler`). */
module Types {

  datatype Option<T> = None | Some(value: T)

  /** A JavaScript error as the code inspects it: `name`, `message` and the optional `code`. */
  datatype ErrorInfo = ErrorInfo(name: string, message: string, code: Option<string>)

  /** `new Error(message)` */
  function PlainError(message: string): ErrorInfo
  {
    ErrorInfo("Error", message, None)
  }

  /** The error both generations raise for a cancelled request. */
  const AbortMessage: string := "Request aborted by user"

  /** The message every generation entry point rejects a model without text generation with. */
  function NoTextGeneration(id: string): string
  {
    "Model " + id + " doesn't support text generation"
  }

  function AbortError(): ErrorInfo
  {
    ErrorInfo("AbortError", AbortMessage, None)
  }

  /** `Error.prototype.toString`: `name: message`, dropping an empty half. */
  function ErrorText(e: ErrorInfo): string
  {
    if e.name == "" then e.message
    else if e.message == "" then e.name
    else e.name + ": " + e.message
  }

  /** A value or the error an async call rejects (or a function throws) with. */
  datatype Result<T> = Ok(value: T) | Err(error: ErrorInfo)

  /**
   * `Promise.all([a, b])` for two loads: it fulfils when both do and otherwise rejects with the
   * rejection that settles first (`aFailsFirst` says which, when both fail).
   */
  function All2(a: Result<()>, b: Result<()>, aFailsFirst: bool): (r: Result<()>)
    ensures r.Ok? <==> a.Ok? && b.Ok?
    ensures r.Err? ==> (a.Err? && r.error == a.error) || (b.Err? && r.error == b.error)
    ensures a.Err? && b.Ok? ==> r == a
    ensures a.Ok? && b.Err? ==> r == b
  {
    if a.Err? && (b.Ok? || aFailsFirst) then a
    else if b.Err? then b
    else Ok(())
  }

  /** A chat message. The role is text: the DeepSeek parser can turn any leading text into a role. */
  datatype Message = Message(role: string, content: string)

  /** The roles of a message list, in order. */
  function RolesOf(ms: seq<Message>): (r: seq<string>)
    ensures |r| == |ms| && forall i :: 0 <= i < |ms| ==> r[i] == ms[i].role
  {
    seq(|ms|, i requires 0 <= i < |ms| => ms[i].role)
  }

  /** Appending a message appends its role. */
  lemma RolesOfSnoc(ms: seq<Message>, m: Message)
    ensures RolesOf(ms + [m]) == RolesOf(ms) + [m.role]
  {
    var l := RolesOf(ms + [m]);
    forall i | 0 <= i < |ms| ensures l[i] == RolesOf(ms)[i] {
      assert (ms + [m])[i] == ms[i];
    }
  }

  /** `ReverseTemplateResult`: the messages a provider reads back out of decoded text. */
  datatype ParsedOutput = ParsedOutput(messages: seq<Message>, reasoning: Option<string>, sources: Option<seq<string>>)

  /** One value of a `Record<string, any>` generation config. */
  datatype Value = Num(n: real) | Flag(b: bool) | Words(ws: seq<string>) | Undefined

  /**
   * `Number(v)` for the values comparisons meet, with `NaN` as `None`: `true` is 1, `false` is 0
   * and `undefined` is `NaN`. A list reads as its comma-joined text, so the empty list is 0 and
   * a longer one is `NaN` unless it is a single numeric text, which is not parsed here.
   */
  function AsNumber(v: Value): Option<real>
  {
    match v
    case Num(n) => Some(n)
    case Flag(b) => Some(if b then 1.0 else 0.0)
    case Words(ws) => if ws == [] then Some(0.0) else None
    case Undefined => None
  }

  /** `v < x` as JavaScript compares a value with a number: false when `v` is `NaN`. */
  predicate Less(v: Value, x: real)
  {
    AsNumber(v).Some? && AsNumber(v).value < x
  }

  /** `v <= x`, false when `v` is `NaN`. */
  predicate AtMost(v: Value, x: real)
  {
    AsNumber(v).Some? && AsNumber(v).value <= x
  }

  /** `v > x`, false when `v` is `NaN`. */
  predicate Greater(v: Value, x: real)
  {
    AsNumber(v).Some? && AsNumber(v).value > x
  }

  /** `record[key]`, with an absent key and an `undefined` value both reading as missing. */
  function Field(r: map<string, Value>, key: string): Option<Value>
  {
    if key in r && r[key] != Undefined then Some(r[key]) else None
  }

  /** `a ?? b` */
  function OrElse<T>(a: Option<T>, b: T): T
  {
    match a
    case Some(x) => x
    case None => b
  }

  /** The values `m` holds under the keys `keys`. */
  ghost function ValuesAt<K, V>(m: map<K, V>, keys: set<K>): set<V>
    requires keys <= m.Keys
  {
    set k | k in keys :: m[k]
  }

  lemma ValuesAtAdd<K, V>(m: map<K, V>, keys: set<K>, k: K)
    requires keys <= m.Keys && k in m
    ensures ValuesAt(m, keys + {k}) == ValuesAt(m, keys) + {m[k]}
  {
  }

  lemma ValuesAtAll<K, V>(m: map<K, V>)
    ensures ValuesAt(m, m.Keys) == m.Values
  {
  }

  /** `a ?? b ?? c` for optional first and second choices */
  function FirstOf<T>(a: Option<T>, b: Option<T>): Option<T>
  {
    if a.Some? then a else b
  }

  datatype Dtype = Q4f16 | AutoDtype | Fp32 | Fp16 | Q8 | Int8 | Uint8 | Q4 | Bnb4

  datatype Device =
    | AutoDevice | Best | WebGpu | Gpu | Cpu | Wasm | Cuda | Dml
    | WebNn | WebNnNpu | WebNnGpu | WebNnCpu

  /** Performance hints; every field may be missing, as in a spread of partial objects. */
  datatype Performance = Performance(
    supportsKVCache: Option<bool>,
    groupedQueryAttention: Option<bool>,
    recommendedDtype: Option<Dtype>)

  const NoPerformance: Performance := Performance(None, None, None)

  /** `{...p, ...q}`: every field `q` has wins, the others keep `p`'s. */
  function Spread(p: Performance, q: Performance): Performance
  {
    Performance(
      FirstOf(q.supportsKVCache, p.supportsKVCache),
      FirstOf(q.groupedQueryAttention, p.groupedQueryAttention),
      FirstOf(q.recommendedDtype, p.recommendedDtype))
  }

  /** `{supportsKVCache, groupedQueryAttention, recommendedDtype}` with all three set. */
  function FullPerformance(kv: bool, gqa: bool, dtype: Dtype): Performance
  {
    Performance(Some(kv), Some(gqa), Some(dtype))
  }

  /** Capability flags; a missing flag is `None`. */
  datatype Capabilities = Capabilities(
    textGeneration: Option<bool>,
    textClassification: Option<bool>,
    imageGeneration: Option<bool>,
    audioProcessing: Option<bool>,
    vision: Option<bool>)

  predicate IsTrue(b: Option<bool>)
  {
    b == Some(true)
  }

  /** Options a caller passes to `loadModel`; `onProgress` is reduced to whether one was given. */
  datatype ModelOptions = ModelOptions(
    dtype: Option<Dtype>,
    device: Option<Device>,
    useWorker: Option<bool>,
    fallback: bool,
    hasOnProgress: bool,
    performance: Option<Performance>,
    terminateOnIdle: bool,
    timeout: Option<real>)

  const DefaultOptions: ModelOptions :=
    ModelOptions(None, None, None, false, false, None, false, None)

  /** The dtype and device a provider asks transformers.js to load the model instance with. */
  datatype InstanceRequest = InstanceRequest(dtype: Option<Dtype>, device: Option<Device>)

  /**
   * What a provider's `loadModel` did: the model-instance load it asked for (none when it
   * failed before that load started) and what it returned.
   */
  datatype ProviderLoad = ProviderLoad(request: Option<InstanceRequest>, result: Result<LoadedModel>)

  /** A progress event as transformers.js reports it (`ProgressInfo`). */
  datatype ProgressEvent = ProgressEvent(status: string, file: Option<string>, loaded: Option<real>, total: Option<real>)

  /** Which `reverseTemplate` the provider instance attached to a model offers. */
  datatype ParserKind = QwenParser | DeepseekParser | NoParser

  /** A loaded model handle (`BaseModel`); tokenizer and instance are reduced to their presence. */
  datatype LoadedModel = LoadedModel(
    id: string,
    provider: string,
    parser: Option<ParserKind>,
    capabilities: Capabilities,
    performance: Performance,
    generationConfig: map<string, Value>,
    options: Option<ModelOptions>,
    hasTokenizer: bool,
    hasInstance: bool,
    worker: Option<WorkerLink>)

  /** `model.worker`: the worker instance, reduced to whether it carries a bridge. */
  datatype WorkerLink = WorkerLink(hasBridge: bool)

  predicate SupportsKV(m: LoadedModel)
  {
    IsTrue(m.performance.supportsKVCache)
  }
}
