/**
 * `with_retries`, the bounded-attempt helper that the worker and the upload
 * API wrap around every store, blob and queue call.  The retried function is
 * an oracle `call`: `call(a)` is what its `a`-th invocation does.  Sleeping is
 * recorded, not performed.
 */
module Retry {
  import opened Wrappers

  /** What one invocation of the retried function did. */
  datatype Outcome<T> = Returned(value: T) | Raised(fault: Fault)

  /** `raise last_exception` with `last_exception = None` raises this instead. */
  const RaiseNone := Fault("exceptions must derive from BaseException")

  /** Invocations 1..k all raised. */
  ghost predicate AllRaised<T>(call: nat -> Outcome<T>, k: nat)
  {
    forall a :: 1 <= a <= k ==> call(a).Raised?
  }

  function Pow(x: real, n: nat): real
  {
    if n == 0 then 1.0 else x * Pow(x, n - 1)
  }

  /** The delay slept after failed attempt `a`: `base_delay * factor ** (a - 1)`. */
  function Delay(baseDelay: real, factor: real, a: nat): real
    requires a >= 1
  {
    baseDelay * Pow(factor, a - 1)
  }

  /** The delays slept after failed attempts 1..k, in order. */
  function Backoff(baseDelay: real, factor: real, k: nat): (d: seq<real>)
    ensures |d| == k
    ensures forall j :: 0 <= j < k ==> d[j] == Delay(baseDelay, factor, j + 1)
  {
    if k == 0 then [] else Backoff(baseDelay, factor, k - 1) + [Delay(baseDelay, factor, k)]
  }

  /**
   * Calls `call` until it returns, at most `maxRetries` times.  The first
   * value returned is the result; after `maxRetries` failures the last
   * fault is re-raised.  `sleeps` are the delays slept, one after each
   * failed attempt except the last.
   */
  method WithRetries<T>(call: nat -> Outcome<T>, maxRetries: int, baseDelay: real, factor: real)
    returns (result: Outcome<T>, calls: nat, sleeps: seq<real>)
    ensures maxRetries < 1 ==> calls == 0 && result == Raised(RaiseNone)
    ensures maxRetries >= 1 ==> 1 <= calls <= maxRetries
    ensures result.Returned? ==> result == call(calls) && AllRaised(call, calls - 1)
    ensures result.Returned? <==> exists a :: 1 <= a <= maxRetries && call(a).Returned?
    ensures maxRetries >= 1 && result.Raised? ==>
      calls == maxRetries && result == call(maxRetries) && AllRaised(call, maxRetries)
    ensures sleeps == Backoff(baseDelay, factor, if calls == 0 then 0 else calls - 1)
  {
    result := Raised(RaiseNone);
    calls := 0;
    sleeps := [];
    var attempt := 1;
    while attempt <= maxRetries
      invariant 1 <= attempt
      invariant maxRetries >= 1 ==> attempt <= maxRetries
      invariant maxRetries < 1 ==> attempt == 1
      invariant calls == attempt - 1
      invariant AllRaised(call, calls)
      invariant sleeps == Backoff(baseDelay, factor, calls)
      invariant calls == 0 ==> result == Raised(RaiseNone)
    {
      var outcome := call(attempt);
      calls := calls + 1;
      result := outcome;
      if outcome.Returned? {
        return;
      }
      if attempt == maxRetries {
        break;
      }
      sleeps := sleeps + [Delay(baseDelay, factor, attempt)];
      attempt := attempt + 1;
    }
  }
}
