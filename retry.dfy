/**
 * The bounded retry loop every network check wraps around its storage calls:
 * attempts `0 .. maxRetries`, a deadline tested at the top of each attempt,
 * an immediate return on the first success, a backoff sleep only after an
 * attempt below the ceiling, and cancellation during that sleep reported as
 * the context error rather than the "failed to ..." error.
 */
module Retry {
  import opened Wrappers
  import Base

  /** The retry configuration of one check. */
  datatype RetryCount = RetryCount(
    maxGetRetries: int,
    maxSaveRetries: int,
    maxDeleteRetries: int,
    maxRetryTime: Base.Duration,
    delay: Base.Duration)

  /**
   * What the environment does during one retry loop: the outcome of the
   * storage call at each attempt, the time elapsed since the loop started as
   * read at the top of each attempt, and whether cancellation wins the race
   * against the backoff timer in the sleep after each attempt.
   */
  datatype Oracle<T> = Oracle(
    outcome: nat -> Result<T, Base.Error>,
    elapsed: nat -> Base.Duration,
    cancelInSleep: nat -> bool)

  /** How a retry loop ends: the first success, the "failed to ..." error, or the context error. */
  datatype RetryResult<T> = Ok(value: T) | Exhausted(message: string) | Cancelled
  {
    /** The same error, returned from a caller whose success value has another type. */
    function Propagate<U>(): (r: RetryResult<U>)
      requires !Ok?
      ensures r.Cancelled? == Cancelled? && (Exhausted? ==> r == Exhausted(message))
    {
      if Cancelled? then Cancelled else Exhausted(message)
    }
  }

  /** A finished retry loop: its result, how many storage calls it made and how many backoff sleeps it began. */
  datatype Exit<T> = Exit(result: RetryResult<T>, calls: nat, sleeps: nat)

  /** `e` with `calls` more calls and `sleeps` more sleeps in front of it. */
  function Shift<T>(e: Exit<T>, calls: nat, sleeps: nat): Exit<T> {
    Exit(e.result, e.calls + calls, e.sleeps + sleeps)
  }

  /**
   * The loop from attempt index `attempt` on. The contract says how many
   * calls and sleeps it makes and why it stopped; `RunTrace` adds what held
   * at every call before the last.
   */
  function Run<T(==)>(maxRetries: int, maxRetryTime: Base.Duration, message: string, o: Oracle<T>, attempt: nat)
    : (e: Exit<T>)
    decreases maxRetries + 1 - attempt
    // never more than maxRetries + 1 calls in all, none at all past the ceiling
    ensures e.calls == 0 || attempt + e.calls <= maxRetries + 1
    // one backoff between consecutive calls, at most one more after the last call
    ensures e.sleeps <= e.calls <= e.sleeps + 1
    // every backoff follows an attempt whose index is below the ceiling
    ensures e.sleeps == 0 || attempt + e.sleeps <= maxRetries
    ensures e.result.Ok? ==>
              e.calls > 0 && o.outcome(attempt + e.calls - 1) == Success(e.result.value)
    ensures e.result.Cancelled? ==>
              e.calls > 0 && e.sleeps == e.calls &&
              o.outcome(attempt + e.calls - 1).Failure? && o.cancelInSleep(attempt + e.calls - 1)
    ensures e.result.Exhausted? ==>
              e.result.message == message &&
              (e.calls > 0 ==> o.outcome(attempt + e.calls - 1).Failure?) &&
              (e.calls > 0 && attempt + e.calls - 1 < maxRetries ==> !o.cancelInSleep(attempt + e.calls - 1)) &&
              (attempt + e.calls > maxRetries || o.elapsed(attempt + e.calls) >= maxRetryTime)
  {
    if attempt > maxRetries then Exit(Exhausted(message), 0, 0)
    else if o.elapsed(attempt) >= maxRetryTime then Exit(Exhausted(message), 0, 0)
    else match o.outcome(attempt)
      case Success(v) => Exit(Ok(v), 1, 0)
      case Failure(_) =>
        if attempt < maxRetries then
          if o.cancelInSleep(attempt) then Exit(Cancelled, 1, 1)
          else Shift(Run(maxRetries, maxRetryTime, message, o, attempt + 1), 1, 1)
        else Shift(Run(maxRetries, maxRetryTime, message, o, attempt + 1), 1, 0)
  }

  /** Every call was made before the deadline. */
  lemma {:induction false} RunBeforeDeadline<T>(
    maxRetries: int, maxRetryTime: Base.Duration, message: string, o: Oracle<T>, attempt: nat)
    ensures var e := Run(maxRetries, maxRetryTime, message, o, attempt);
            forall i: nat :: attempt <= i < attempt + e.calls ==> o.elapsed(i) < maxRetryTime
    decreases maxRetries + 1 - attempt
  {
    if attempt <= maxRetries && o.elapsed(attempt) < maxRetryTime && o.outcome(attempt).Failure?
       && !(attempt < maxRetries && o.cancelInSleep(attempt))
    {
      RunBeforeDeadline(maxRetries, maxRetryTime, message, o, attempt + 1);
    }
  }

  /** Every call but the last failed, and the backoff after it was not cancelled. */
  lemma {:induction false} RunFailsBeforeLast<T>(
    maxRetries: int, maxRetryTime: Base.Duration, message: string, o: Oracle<T>, attempt: nat)
    ensures var e := Run(maxRetries, maxRetryTime, message, o, attempt);
            forall i: nat :: attempt <= i < attempt + e.calls - 1 ==>
              o.outcome(i).Failure? && !o.cancelInSleep(i)
    decreases maxRetries + 1 - attempt
  {
    if attempt <= maxRetries && o.elapsed(attempt) < maxRetryTime && o.outcome(attempt).Failure?
       && !(attempt < maxRetries && o.cancelInSleep(attempt))
    {
      var rest := Run(maxRetries, maxRetryTime, message, o, attempt + 1);
      assert Run(maxRetries, maxRetryTime, message, o, attempt).calls == rest.calls + 1;
      RunFailsBeforeLast(maxRetries, maxRetryTime, message, o, attempt + 1);
    }
  }

  /**
   * `retryX`: the loop as the checks write it, with the attempt counter,
   * the deadline break, the early returns and the backoff sleep.
   */
  method RetryLoop<T(==)>(maxRetries: int, maxRetryTime: Base.Duration, message: string, o: Oracle<T>)
    returns (e: Exit<T>)
    ensures e == Run(maxRetries, maxRetryTime, message, o, 0)
  {
    var attempt: nat := 0;
    var sleeps: nat := 0;
    while attempt <= maxRetries
      invariant attempt == 0 || attempt <= maxRetries + 1
      invariant sleeps == attempt || (attempt == maxRetries + 1 && sleeps == maxRetries)
      invariant Run(maxRetries, maxRetryTime, message, o, 0)
                == Shift(Run(maxRetries, maxRetryTime, message, o, attempt), attempt, sleeps)
      decreases maxRetries + 1 - attempt
    {
      if o.elapsed(attempt) >= maxRetryTime {
        break;
      }
      var r := o.outcome(attempt);
      if r.Success? {
        return Exit(Ok(r.value), attempt + 1, sleeps);
      }
      if attempt < maxRetries {
        // the backoff of CalculateBackOff(delay, attempt) is raced against cancellation
        if o.cancelInSleep(attempt) {
          return Exit(Cancelled, attempt + 1, sleeps + 1);
        }
        sleeps := sleeps + 1;
      }
      attempt := attempt + 1;
    }
    e := Exit(Exhausted(message), attempt, sleeps);
  }

  /** The attempt at index `i` failed before the deadline and its backoff, if any, was not cancelled. */
  predicate FailsQuietly<T>(maxRetries: int, maxRetryTime: Base.Duration, o: Oracle<T>, i: nat) {
    o.elapsed(i) < maxRetryTime && o.outcome(i).Failure? && (i < maxRetries ==> !o.cancelInSleep(i))
  }

  /** A run of quiet failures from `j` up to `k` only shifts the rest of the loop. */
  lemma {:induction false} QuietPrefix<T>(
    maxRetries: int, maxRetryTime: Base.Duration, message: string, o: Oracle<T>, j: nat, k: nat)
    requires j <= k <= maxRetries
    requires forall i: nat :: j <= i < k ==> FailsQuietly(maxRetries, maxRetryTime, o, i)
    ensures Run(maxRetries, maxRetryTime, message, o, j)
            == Shift(Run(maxRetries, maxRetryTime, message, o, k), k - j, k - j)
    decreases k - j
  {
    if j < k {
      assert FailsQuietly(maxRetries, maxRetryTime, o, j);
      QuietPrefix(maxRetries, maxRetryTime, message, o, j + 1, k);
    }
  }

  /** An operation that fails `k` times and then succeeds, with `k` within the ceiling, succeeds after `k + 1` calls and `k` backoffs. */
  lemma SucceedsAfterFailures<T>(
    maxRetries: int, maxRetryTime: Base.Duration, message: string, o: Oracle<T>, k: nat)
    requires k <= maxRetries
    requires forall i: nat :: i < k ==> FailsQuietly(maxRetries, maxRetryTime, o, i)
    requires o.elapsed(k) < maxRetryTime && o.outcome(k).Success?
    ensures Run(maxRetries, maxRetryTime, message, o, 0) == Exit(Ok(o.outcome(k).value), k + 1, k)
  {
    QuietPrefix(maxRetries, maxRetryTime, message, o, 0, k);
  }

  /** An operation that fails at every attempt, in time and uncancelled, exhausts the ceiling: `maxRetries + 1` calls, `maxRetries` backoffs. */
  lemma ExhaustsCeiling<T>(maxRetries: nat, maxRetryTime: Base.Duration, message: string, o: Oracle<T>)
    requires forall i: nat :: i <= maxRetries ==> FailsQuietly(maxRetries, maxRetryTime, o, i)
    ensures Run(maxRetries, maxRetryTime, message, o, 0) == Exit(Exhausted(message), maxRetries + 1, maxRetries)
  {
    QuietPrefix(maxRetries, maxRetryTime, message, o, 0, maxRetries);
    assert FailsQuietly(maxRetries, maxRetryTime, o, maxRetries);
  }

  /** Reaching the deadline at the top of attempt `k` stops the loop there with the "failed to ..." error. */
  lemma DeadlineStops<T>(maxRetries: int, maxRetryTime: Base.Duration, message: string, o: Oracle<T>, k: nat)
    requires k <= maxRetries
    requires forall i: nat :: i < k ==> FailsQuietly(maxRetries, maxRetryTime, o, i)
    requires o.elapsed(k) >= maxRetryTime
    ensures Run(maxRetries, maxRetryTime, message, o, 0) == Exit(Exhausted(message), k, k)
  {
    QuietPrefix(maxRetries, maxRetryTime, message, o, 0, k);
  }

  /** Cancellation during the backoff after a failed attempt `k` yields the context error after `k + 1` calls. */
  lemma CancelledInBackoff<T>(maxRetries: int, maxRetryTime: Base.Duration, message: string, o: Oracle<T>, k: nat)
    requires k < maxRetries
    requires forall i: nat :: i < k ==> FailsQuietly(maxRetries, maxRetryTime, o, i)
    requires o.elapsed(k) < maxRetryTime && o.outcome(k).Failure? && o.cancelInSleep(k)
    ensures Run(maxRetries, maxRetryTime, message, o, 0) == Exit(Cancelled, k + 1, k + 1)
  {
    QuietPrefix(maxRetries, maxRetryTime, message, o, 0, k);
  }
}
