/** Bounded retry with capped exponential backoff. The handler keeps no
    state between calls; each failed attempt is followed by a wait of
    `min(baseDelay * backoffMultiplier^attempt, maxDelay)`. */
module RetryHandlers {
  import opened Outcomes

  /** How `executeWithRetry` ends: with the first successful attempt's value,
      or by throwing the last attempt's error. `Threw(None)` is the
      `throw undefined` of a loop that made no attempt at all. */
  datatype Retried<T> = Returned(value: T) | Threw(lastError: Option<string>)

  /** `b` raised to `k` (JavaScript `Math.pow` for a whole exponent). */
  function Power(b: real, k: nat): real
  {
    if k == 0 then 1.0 else b * Power(b, k - 1)
  }

  function Min(x: real, y: real): real
  {
    if x <= y then x else y
  }

  /** The wait after the failure of attempt `k` (counting from 0). */
  function Delay(baseDelay: real, multiplier: real, maxDelay: real, k: nat): (d: real)
    ensures d <= maxDelay
  {
    Min(baseDelay * Power(multiplier, k), maxDelay)
  }

  /** With a multiplier of at least 1, each power is at least the one before. */
  lemma {:induction false} PowerGrows(b: real, k: nat)
    requires b >= 1.0
    ensures 1.0 <= Power(b, k) <= Power(b, k + 1)
  {
    if k > 0 {
      PowerGrows(b, k - 1);
    }
    assert Power(b, k + 1) == b * Power(b, k);
    assert b * Power(b, k) >= 1.0 * Power(b, k);
  }

  /** Waits never shrink from one attempt to a later one when the base delay
      is non-negative and the multiplier at least 1. */
  lemma {:induction false} DelaysNonDecreasing(baseDelay: real, multiplier: real, maxDelay: real, i: nat, j: nat)
    requires baseDelay >= 0.0 && multiplier >= 1.0 && i <= j
    ensures Delay(baseDelay, multiplier, maxDelay, i) <= Delay(baseDelay, multiplier, maxDelay, j)
  {
    if i < j {
      DelaysNonDecreasing(baseDelay, multiplier, maxDelay, i, j - 1);
      PowerGrows(multiplier, j - 1);
      assert baseDelay * Power(multiplier, j - 1) <= baseDelay * Power(multiplier, j);
    }
  }

  function Max0(n: int): nat
  {
    if n < 0 then 0 else n
  }

  class RetryHandler {
    const maxRetries: int
    const baseDelay: real
    const maxDelay: real
    const backoffMultiplier: real

    /** Falsy options fall back to 3 attempts, 1000 ms, 30000 ms and x2. */
    constructor (maxRetriesOption: Option<int>, baseDelayOption: Option<real>,
                 maxDelayOption: Option<real>, multiplierOption: Option<real>)
      ensures maxRetries == IntOr(maxRetriesOption, 3)
      ensures baseDelay == RealOr(baseDelayOption, 1000.0)
      ensures maxDelay == RealOr(maxDelayOption, 30000.0)
      ensures backoffMultiplier == RealOr(multiplierOption, 2.0)
    {
      maxRetries := IntOr(maxRetriesOption, 3);
      baseDelay := RealOr(baseDelayOption, 1000.0);
      maxDelay := RealOr(maxDelayOption, 30000.0);
      backoffMultiplier := RealOr(multiplierOption, 2.0);
    }

    /** `executeWithRetry(operation)`, where `operation(i)` is what the i-th
        invocation produces. Also returns how many invocations were made and
        the waits slept, in order. */
    method ExecuteWithRetry<T>(operation: nat -> Outcome<T>) returns (r: Retried<T>, attempts: nat, waits: seq<real>)
      // never more than maxRetries invocations, and none after the first success
      ensures attempts <= Max0(maxRetries)
      ensures forall i :: 0 <= i < attempts - 1 ==> operation(i).Failure?
      // the value returned is that of the first successful attempt
      ensures r.Returned? <==> attempts > 0 && operation(attempts - 1).Success?
      ensures r.Returned? ==> r.value == operation(attempts - 1).value
      // when every attempt fails, the last error is thrown
      ensures r.Threw? ==>
        && attempts == Max0(maxRetries)
        && (forall i :: 0 <= i < attempts ==> operation(i).Failure?)
        && r.lastError == (if attempts == 0 then None else Some(operation(attempts - 1).error))
      // one capped exponential wait after every failed attempt, the last one included
      ensures |waits| == (if r.Returned? then attempts - 1 else attempts)
      ensures forall k :: 0 <= k < |waits| ==> waits[k] == Delay(baseDelay, backoffMultiplier, maxDelay, k)
    {
      var lastError: Option<string> := None;
      var attempt: nat := 0;
      waits := [];
      while attempt < maxRetries
        invariant attempt <= Max0(maxRetries)
        invariant forall i :: 0 <= i < attempt ==> operation(i).Failure?
        invariant |waits| == attempt
        invariant forall k :: 0 <= k < attempt ==> waits[k] == Delay(baseDelay, backoffMultiplier, maxDelay, k)
        invariant lastError == if attempt == 0 then None else Some(operation(attempt - 1).error)
      {
        var outcome := operation(attempt);
        if outcome.Success? {
          return Returned(outcome.value), attempt + 1, waits;
        }
        lastError := Some(outcome.error);
        waits := waits + [Min(baseDelay * Power(backoffMultiplier, attempt), maxDelay)];
        attempt := attempt + 1;
      }
      return Threw(lastError), attempt, waits;
    }
  }
}
