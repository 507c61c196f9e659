/**
 * The retry and log_execution decorators of core/decorators.py. The wrapped
 * function is an oracle: `func(n)` is what its n-th invocation returns or
 * raises. `retryable(e)` says whether `e` is an instance of one of the
 * exception types the decorator was given. Sleeping and logging leave only
 * their count behind.
 */
module Decorators {
  import opened Wrappers

  /** What one invocation of the wrapped function does: return a value or raise. */
  datatype Outcome<T, E> = Returned(value: T) | Threw(error: E)

  /**
   * What the retrying wrapper does: return a value, re-raise an exception, or
   * execute `raise None` (a TypeError) when no attempt was ever made.
   */
  datatype RetryResult<T, E> = Success(value: T) | Failure(error: E) | RaisedNone

  /** A full account of one call of the wrapper: its result, how often it invoked the function and how often it slept. */
  datatype Retried<T, E> = Retried(result: RetryResult<T, E>, calls: nat, sleeps: nat)

  /** An attempt that ends the loop: it returned, or raised something outside the retried types. */
  predicate Stops<T, E>(o: Outcome<T, E>, retryable: E -> bool)
  {
    o.Returned? || !retryable(o.error)
  }

  /** The first attempt in [from, max] that ends the loop, or -1 when every one of them raises a retried exception. */
  function FirstStop<T, E>(func: nat -> Outcome<T, E>, retryable: E -> bool, from: nat, max: int): (k: int)
    ensures k == -1 || (from <= k <= max && Stops(func(k), retryable))
    ensures forall j: nat :: from <= j <= max && (k == -1 || j < k) ==> !Stops(func(j), retryable)
    decreases if max < from then 0 else max - from + 1
  {
    if max < from then -1
    else if Stops(func(from), retryable) then from
    else FirstStop(func, retryable, from + 1, max)
  }

  /**
   * The behaviour of the wrapper with `max_attempts = maxAttempts`:
   * attempts are numbered from 1; the first value returned is the result;
   * an exception outside the retried types propagates from its attempt; after
   * `maxAttempts` retried failures the last exception is re-raised; a sleep
   * follows every failed attempt but the last one made; with no attempt at
   * all the wrapper raises None.
   */
  function RetrySpec<T, E>(maxAttempts: int, func: nat -> Outcome<T, E>, retryable: E -> bool): (r: Retried<T, E>)
    ensures r.calls <= if maxAttempts <= 0 then 0 else maxAttempts
    ensures r.result.RaisedNone? <==> maxAttempts <= 0
    ensures r.result.RaisedNone? ==> r.calls == 0 && r.sleeps == 0
    ensures !r.result.RaisedNone? ==> 1 <= r.calls && r.sleeps == r.calls - 1
    ensures forall j: nat :: 1 <= j < r.calls ==> func(j).Threw? && retryable(func(j).error)
    ensures r.result.Success? ==> func(r.calls) == Returned(r.result.value)
    ensures r.result.Failure? ==>
      func(r.calls) == Threw(r.result.error) && (!retryable(r.result.error) || r.calls == maxAttempts)
  {
    if maxAttempts <= 0 then Retried(RaisedNone, 0, 0)
    else
      var k := FirstStop(func, retryable, 1, maxAttempts);
      if k == -1 then Retried(Failure(func(maxAttempts).error), maxAttempts, maxAttempts - 1)
      else
        var o := func(k);
        Retried(if o.Returned? then Success(o.value) else Failure(o.error), k, k - 1)
  }

  /** retry(max_attempts, delay, exceptions)(func)(...): the attempt loop. */
  method Retry<T, E>(maxAttempts: int, func: nat -> Outcome<T, E>, retryable: E -> bool)
    returns (result: RetryResult<T, E>, calls: nat, sleeps: nat)
    ensures Retried(result, calls, sleeps) == RetrySpec(maxAttempts, func, retryable)
  {
    var lastException: Option<E> := None;
    calls, sleeps := 0, 0;
    var attempt := 1;
    while attempt <= maxAttempts
      invariant attempt == 1 || 1 < attempt <= maxAttempts + 1
      invariant calls == attempt - 1
      invariant attempt <= maxAttempts ==> sleeps == attempt - 1
      invariant attempt > maxAttempts && attempt > 1 ==> sleeps == attempt - 2
      invariant attempt == 1 ==> sleeps == 0 && lastException.None?
      invariant attempt > 1 ==> func(attempt - 1).Threw? && lastException == Some(func(attempt - 1).error)
      invariant FirstStop(func, retryable, 1, maxAttempts) == FirstStop(func, retryable, attempt, maxAttempts)
    {
      var o := func(attempt);
      calls := calls + 1;
      if o.Returned? {
        return Success(o.value), calls, sleeps;
      }
      if !retryable(o.error) {
        return Failure(o.error), calls, sleeps;
      }
      lastException := Some(o.error);
      if attempt < maxAttempts {
        sleeps := sleeps + 1;
      }
      attempt := attempt + 1;
    }
    if maxAttempts >= 1 {
      assert attempt == maxAttempts + 1;
      assert FirstStop(func, retryable, attempt, maxAttempts) == -1;
    }
    result := if lastException.None? then RaisedNone else Failure(lastException.value);
  }

  /** With a single attempt the wrapper behaves exactly like the function, never sleeping. */
  lemma SingleAttemptIsPlainCall<T, E>(func: nat -> Outcome<T, E>, retryable: E -> bool)
    ensures var r := RetrySpec(1, func, retryable);
      r.calls == 1 && r.sleeps == 0
      && r.result == (match func(1) case Returned(v) => Success(v) case Threw(e) => Failure(e))
  {
    assert FirstStop(func, retryable, 2, 1) == -1;
  }

  /** Allowing more attempts never changes a call that already succeeded, or failed for good, within fewer. */
  lemma MoreAttemptsKeepStop<T, E>(m: int, n: int, func: nat -> Outcome<T, E>, retryable: E -> bool)
    requires 1 <= m <= n
    requires FirstStop(func, retryable, 1, m) != -1
    ensures RetrySpec(n, func, retryable) == RetrySpec(m, func, retryable)
  {
    var k := FirstStop(func, retryable, 1, m);
    var k' := FirstStop(func, retryable, 1, n);
    assert k' != -1 && k' <= k by {
      assert Stops(func(k), retryable);
    }
  }

  /** When every attempt raises a retried exception, the wrapper makes all of them and re-raises the last one. */
  lemma ExhaustedRaisesLast<T, E>(maxAttempts: int, func: nat -> Outcome<T, E>, retryable: E -> bool)
    requires maxAttempts >= 1
    requires forall j: nat :: 1 <= j <= maxAttempts ==> func(j).Threw? && retryable(func(j).error)
    ensures RetrySpec(maxAttempts, func, retryable)
      == Retried(Failure(func(maxAttempts).error), maxAttempts, maxAttempts - 1)
  {
    assert !Stops(func(maxAttempts), retryable);
  }

  /** log_execution(func)(...): one invocation, whose value is returned and whose exception is re-raised, both unchanged. */
  method LogExecution<T, E>(func: () -> Outcome<T, E>) returns (r: Outcome<T, E>)
    ensures r.Returned? <==> func().Returned?
    ensures r.Returned? ==> r.value == func().value
    ensures r.Threw? ==> r.error == func().error
  {
    var o := func();
    match o {
      case Returned(v) => r := Returned(v);
      case Threw(e) => r := Threw(e);
    }
  }
}
