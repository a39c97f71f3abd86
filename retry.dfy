/**
  The `retries(max_retries, delay, exceptions)` decorator: calls a fallible
  operation until it returns, raises an exception outside `exceptions`, or has
  failed `max_retries` times, sleeping `delay` between attempts.
 */
module Retry {

  /** What one invocation of the wrapped operation does: return a value, raise
      an exception of one of the retried kinds, or raise any other exception. */
  datatype Attempt<T> = Ok(value: T) | Retryable(error: string) | Fatal(error: string)

  /** What the wrapper does: return a value, re-raise an exception, or, when
      the loop never runs, fall off the end and return `None`. */
  datatype Outcome<T> = Returned(value: T) | Raised(error: string) | NoResult

  /** Runs the wrapper. `op(k)` is how the operation behaves on its attempt
      number `k` (from 0). `calls` counts invocations, `sleeps` the pauses. */
  method Retry<T>(maxRetries: int, op: nat -> Attempt<T>)
    returns (r: Outcome<T>, calls: nat, sleeps: nat)
    ensures maxRetries <= 0 ==> r == NoResult && calls == 0 && sleeps == 0
    ensures maxRetries > 0 ==> 1 <= calls <= maxRetries && sleeps == calls - 1
    ensures forall k :: 0 <= k < calls - 1 ==> op(k).Retryable?
    ensures calls > 0 ==>
      match op(calls - 1)
      case Ok(v) => r == Returned(v)
      case Fatal(e) => r == Raised(e)
      case Retryable(e) => calls == maxRetries && r == Raised(e)
  {
    var attempts: nat := 0;
    sleeps := 0;
    while attempts < maxRetries
      invariant sleeps == attempts
      invariant attempts == 0 || attempts < maxRetries
      invariant forall k :: 0 <= k < attempts ==> op(k).Retryable?
      decreases maxRetries - attempts
    {
      match op(attempts)
      case Ok(v) =>
        return Returned(v), attempts + 1, sleeps;
      case Fatal(e) =>
        return Raised(e), attempts + 1, sleeps;
      case Retryable(e) =>
        attempts := attempts + 1;
        if attempts < maxRetries {
          sleeps := sleeps + 1;
        } else {
          return Raised(e), attempts, sleeps;
        }
    }
    return NoResult, 0, 0;
  }
}
