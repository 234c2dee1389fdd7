/**
 * The transformers.js runtime as the orchestration code sees it. Tokenising, generating and
 * decoding happen outside this model: a generation call is described by what it returns or
 * throws, and the KV cache it hands back is an opaque token.
 */
module Runtime {
  import opened Types

  /**
   * A module-level `past_key_values_cache`: `null`, `undefined` (stored from an output that had
   * no `past_key_values`), or a cache.
   */
  datatype Slot = NullSlot | UndefinedSlot | Cache(id: nat)

  /** The cache an output carries, as it lands in the slot. */
  function Stored(pastKeyValues: Option<nat>): (s: Slot)
    ensures s != NullSlot
    ensures pastKeyValues.Some? <==> s.Cache?
  {
    if pastKeyValues.Some? then Cache(pastKeyValues.value) else UndefinedSlot
  }

  /** What `model.instance.generate` resolves to: the token sequence (prompt included), if any, and the cache. */
  datatype ModelOutput = ModelOutput(sequence: Option<seq<int>>, pastKeyValues: Option<nat>)

  /** `model.instance.generate(...)` either throws or returns an output. */
  datatype RuntimeOutcome = RuntimeThrows(error: ErrorInfo) | RuntimeReturns(output: ModelOutput)

  /** The call made to `generate`, reduced to the cache it was given (`None`: no `past_key_values` key). */
  datatype RuntimeCall = RuntimeCall(cache: Option<Slot>)
}
