/**
 * The retry discipline the older package uses around every attempt to generate
 * (`packages/core/utils/generate-text.ts` and `packages/core/utils/stream-text.ts`): after a
 * failed attempt another one is made while fewer than `maxRetries` retries have happened and the
 * abort signal has not fired; otherwise the failure is rethrown. Each attempt may change some
 * state (the KV cache slot, the stream, the messages sent), which the next attempt starts from.
 */
module Retry {
  import opened Types
  import opened Protocol

  /** `options.maxRetries ?? 2` */
  function MaxRetries(given: Option<int>): (m: int)
    ensures given.None? ==> m == 2
    ensures given.Some? ==> m == given.value
  {
    if given.Some? then given.value else 2
  }

  /** Whether a failure after `retries` retries is followed by another attempt. */
  predicate RetryAfter(retries: nat, maxRetries: int, aborted: bool)
  {
    retries < maxRetries && !aborted
  }

  /** The largest number of attempts a budget allows from attempt `i` on (counted from 0). */
  function Budget(i: nat, maxRetries: int): nat
  {
    if maxRetries > i then maxRetries + 1 else i + 1
  }

  /** How a run of attempts ends: the last attempt's outcome, the state it left and the number of attempts made. */
  datatype Ending<S, T> = Ending(outcome: Outcome<T>, state: S, attempts: nat)

  /**
   * The attempts from attempt `i` (after `i` retries) on, from state `s`. `step(k, s)` is what
   * attempt `k` does from state `s`; `abortedAt(k)` says whether the signal has fired when attempt
   * `k` fails.
   */
  function RunFrom<S, T>(i: nat, maxRetries: int, step: (nat, S) -> (Outcome<T>, S), abortedAt: nat -> bool, s: S): (e: Ending<S, T>)
    ensures i < e.attempts <= Budget(i, maxRetries)
    decreases if maxRetries > i then maxRetries - i else 0
  {
    var (o, s') := step(i, s);
    if o.Thrown? && RetryAfter(i, maxRetries, abortedAt(i)) then RunFrom(i + 1, maxRetries, step, abortedAt, s')
    else Ending(o, s', i + 1)
  }

  /** The state after attempts `i` .. `k - 1`, each run from the state the previous one left. */
  function StateAfter<S, T>(i: nat, k: nat, step: (nat, S) -> (Outcome<T>, S), s: S): S
    decreases k
  {
    if k <= i then s else step(k - 1, StateAfter(i, k - 1, step, s)).1
  }

  /**
   * What happened, attempt by attempt: the ending is the last attempt's outcome and state;
   * every earlier attempt failed, within the budget and before any abort.
   */
  lemma {:induction false} Trace<S, T>(i: nat, maxRetries: int, step: (nat, S) -> (Outcome<T>, S), abortedAt: nat -> bool, s: S)
    ensures var e := RunFrom(i, maxRetries, step, abortedAt, s);
      var last := step(e.attempts - 1, StateAfter(i, e.attempts - 1, step, s));
      e.outcome == last.0 && e.state == last.1 && e.state == StateAfter(i, e.attempts, step, s)
      && forall k :: i <= k < e.attempts - 1 ==>
           step(k, StateAfter(i, k, step, s)).0.Thrown? && RetryAfter(k, maxRetries, abortedAt(k))
    decreases if maxRetries > i then maxRetries - i else 0
  {
    var (o, s') := step(i, s);
    if o.Thrown? && RetryAfter(i, maxRetries, abortedAt(i)) {
      Trace(i + 1, maxRetries, step, abortedAt, s');
      var e := RunFrom(i + 1, maxRetries, step, abortedAt, s');
      ShiftStart(i, e.attempts, step, s);
      forall k | i + 1 <= k <= e.attempts
        ensures StateAfter(i + 1, k, step, s') == StateAfter(i, k, step, s)
      {
        ShiftStart(i, k, step, s);
      }
    }
  }

  /** Starting one attempt later from the state the first attempt left is the same as starting at `i`. */
  lemma {:induction false} ShiftStart<S, T>(i: nat, k: nat, step: (nat, S) -> (Outcome<T>, S), s: S)
    requires i + 1 <= k
    ensures StateAfter(i + 1, k, step, step(i, s).1) == StateAfter(i, k, step, s)
    decreases k
  {
    if k > i + 1 {
      ShiftStart(i, k - 1, step, s);
    }
  }

  /** When every attempt fails and the signal never fires, the whole budget is spent: `maxRetries + 1` attempts from the start. */
  lemma {:induction false} FailuresExhaustBudget<S, T>(i: nat, maxRetries: int, step: (nat, S) -> (Outcome<T>, S), abortedAt: nat -> bool, s: S)
    requires forall k: nat, t: S :: step(k, t).0.Thrown?
    requires forall k: nat :: !abortedAt(k)
    ensures RunFrom(i, maxRetries, step, abortedAt, s).attempts == Budget(i, maxRetries)
    ensures RunFrom(i, maxRetries, step, abortedAt, s).outcome.Thrown?
    decreases if maxRetries > i then maxRetries - i else 0
  {
    var (o, s') := step(i, s);
    if RetryAfter(i, maxRetries, abortedAt(i)) {
      FailuresExhaustBudget(i + 1, maxRetries, step, abortedAt, s');
    }
  }

  /** A failure once the signal has fired is final: no further attempt is made, whatever budget is left. */
  lemma AbortStopsRetrying<S, T>(i: nat, maxRetries: int, step: (nat, S) -> (Outcome<T>, S), abortedAt: nat -> bool, s: S)
    requires step(i, s).0.Thrown? && abortedAt(i)
    ensures RunFrom(i, maxRetries, step, abortedAt, s).attempts == i + 1
    ensures RunFrom(i, maxRetries, step, abortedAt, s).outcome == step(i, s).0
  {
  }

  /** A success is returned at once. */
  lemma SuccessStops<S, T>(i: nat, maxRetries: int, step: (nat, S) -> (Outcome<T>, S), abortedAt: nat -> bool, s: S)
    requires step(i, s).0.Done?
    ensures RunFrom(i, maxRetries, step, abortedAt, s) == Ending(step(i, s).0, step(i, s).1, i + 1)
  {
  }

  /** With no retries allowed (`maxRetries` zero or negative), exactly one attempt is made. */
  lemma NoBudgetOneAttempt<S, T>(maxRetries: int, step: (nat, S) -> (Outcome<T>, S), abortedAt: nat -> bool, s: S)
    requires maxRetries <= 0
    ensures RunFrom(0, maxRetries, step, abortedAt, s).attempts == 1
  {
  }
}
