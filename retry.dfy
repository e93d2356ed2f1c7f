/** `retry_with_backoff` (src/utils/retry.py): call an operation up to
    `max_retries` times, sleeping between failed attempts for a delay that
    starts at 2 seconds, doubles and is capped at 30. The awaited operation is
    the function `attempt` from the attempt number to that call's outcome; the
    sleeps are returned as the list of their delays. */
module Retry {
  import opened Types

  /** The outcome of one call of the operation: a value, an `Exception`, or a
      `BaseException` that is not an `Exception` (`CancelledError`,
      `KeyboardInterrupt`, `SystemExit`), which `except Exception` does not catch. */
  datatype Attempt<T, E> = Succeeded(value: T) | Failed(error: E) | Interrupted(signal: E)

  /** What `retry_with_backoff` ends with: the first successful value, the
      last attempt's exception, the TypeError of `raise None` when it made
      no attempt at all, or an uncaught `BaseException` passing straight through. */
  datatype Result<T, E> = Returned(value: T) | Raised(error: E) | RaisedNone | Escaped(signal: E)

  const InitialDelay := 2
  const MaxDelay := 30

  /** `min(delay * 2, 30)`. */
  function NextDelay(delay: int): int
  {
    if delay * 2 < MaxDelay then delay * 2 else MaxDelay
  }

  /** The delay slept after the failed attempt numbered `k` (counting from 0). */
  function DelayAt(k: nat): int
  {
    if k == 0 then InitialDelay else NextDelay(DelayAt(k - 1))
  }

  /** The delays of the first `n` sleeps. */
  function Backoff(n: nat): (r: seq<int>)
    ensures |r| == n
  {
    if n == 0 then [] else Backoff(n - 1) + [DelayAt(n - 1)]
  }

  function Pow2(k: nat): nat
  {
    if k == 0 then 1 else 2 * Pow2(k - 1)
  }

  /** The schedule is 2, 4, 8, 16 and then 30 for ever. */
  lemma {:induction false} DelayClosedForm(k: nat)
    ensures DelayAt(k) == if k < 4 then Pow2(k + 1) else MaxDelay
  {
    if k > 0 {
      DelayClosedForm(k - 1);
    }
  }

  /** Every delay lies between 2 and 30 inclusive, and no delay is shorter than the one before. */
  lemma DelayBounds(k: nat)
    ensures InitialDelay <= DelayAt(k) <= MaxDelay
    ensures DelayAt(k) <= DelayAt(k + 1)
  {
    DelayClosedForm(k);
    DelayClosedForm(k + 1);
  }

  lemma {:induction false} BackoffAt(n: nat, k: nat)
    requires k < n
    ensures Backoff(n)[k] == DelayAt(k)
  {
    if k < n - 1 {
      BackoffAt(n - 1, k);
    }
  }

  /** Every delay slept lies between 2 and 30 inclusive. */
  lemma BackoffBounded(n: nat)
    ensures forall k :: 0 <= k < n ==> InitialDelay <= Backoff(n)[k] <= MaxDelay
  {
    forall k | 0 <= k < n
      ensures InitialDelay <= Backoff(n)[k] <= MaxDelay
    {
      BackoffAt(n, k);
      DelayBounds(k);
    }
  }

  /** Calls `attempt(0)`, `attempt(1)`, ... until one succeeds or `maxRetries`
      calls have failed, or one is interrupted. `calls` counts the calls made
      and `delays` lists the sleeps, one after each failed attempt that is not
      the last. */
  method RetryWithBackoff<T, E>(attempt: nat -> Attempt<T, E>, maxRetries: int := 3)
    returns (result: Result<T, E>, calls: nat, delays: seq<int>)
    ensures result == RaisedNone <==> maxRetries <= 0
    ensures maxRetries <= 0 ==> calls == 0 && delays == []
    ensures maxRetries > 0 ==> 1 <= calls <= maxRetries
    ensures forall i :: 0 <= i < calls - 1 ==> attempt(i).Failed?
    ensures result.Returned? <==> calls >= 1 && attempt(calls - 1).Succeeded?
    ensures result.Returned? ==> result.value == attempt(calls - 1).value
    ensures result.Escaped? <==> calls >= 1 && attempt(calls - 1).Interrupted?
    ensures result.Escaped? ==> result.signal == attempt(calls - 1).signal
    ensures result.Raised? ==> calls == maxRetries && attempt(calls - 1).Failed?
                               && result.error == attempt(calls - 1).error
    ensures calls >= 1 ==> delays == Backoff(calls - 1)
  {
    var delay := InitialDelay;
    var lastError: Option<E> := None;
    var i := 0;
    calls := 0;
    delays := [];
    while i < maxRetries
      invariant 0 <= i <= (if maxRetries > 0 then maxRetries else 0)
      invariant calls == i
      invariant forall j :: 0 <= j < i ==> attempt(j).Failed?
      invariant lastError == if i == 0 then None else Some(attempt(i - 1).error)
      invariant |delays| == (if i < maxRetries || i == 0 then i else i - 1)
      invariant delays == Backoff(|delays|)
      invariant delay == DelayAt(|delays|)
      decreases maxRetries - i
    {
      var outcome := attempt(i);
      calls := calls + 1;
      if outcome.Succeeded? {
        return Returned(outcome.value), calls, delays;
      }
      if outcome.Interrupted? {
        return Escaped(outcome.signal), calls, delays;
      }
      lastError := Some(outcome.error);
      if i < maxRetries - 1 {
        delays := delays + [delay];
        delay := NextDelay(delay);
      }
      i := i + 1;
    }
    if lastError.None? {
      result := RaisedNone;
    } else {
      result := Raised(lastError.value);
    }
  }
}
