/** GingerTemplate.Core.Utilities.RetryPolicy: running an action up to
    `maxAttempts` times. The action is an oracle that gives the outcome of the
    call made on each attempt; the backoff delays are recorded as the attempt
    numbers they were asked for, not slept. Computing a delay or sleeping for
    it can throw too (a backoff delegate that throws, a negative delay, one
    too long to sleep): a second oracle gives that exception, if any. */
module Retry {
  import opened Base

  /** What one call of the action did. */
  datatype Outcome<T> = Returned(value: T) | Threw(error: Exception)

  const MaxAttemptsError := ArgumentError(ArgumentOutOfRange, "maxAttempts", "Specified argument was out of the range of valid values.")
  const UnknownError := Error(InvalidOperation, "RetryPolicy encountered an unknown error.")

  /** The numbers 1, 2, ..., n. */
  function UpTo(n: int): (r: seq<int>)
    ensures |r| == if n > 0 then n else 0
    ensures forall i :: 0 <= i < |r| ==> r[i] == i + 1
  {
    if n <= 0 then [] else UpTo(n - 1) + [n]
  }

  /** `Execute<T>`: `action(attempt)` is the outcome of the call on attempt
      `attempt` (counting from 1), and `delayFails(attempt)` the exception
      that computing the backoff after it or sleeping for that long throws.
      Returns the result or the exception thrown, how many calls were made,
      and the attempt numbers passed to `backoff`. */
  method Execute<T>(action: int -> Outcome<T>, maxAttempts: int, delayFails: int -> Option<Exception>)
    returns (r: Result<T>, calls: int, backoffs: seq<int>)
    ensures maxAttempts <= 0 ==> r == Err(MaxAttemptsError) && calls == 0 && backoffs == []
    ensures maxAttempts > 0 ==> 1 <= calls <= maxAttempts
    ensures forall a :: 1 <= a < calls ==> action(a).Threw? && delayFails(a).None?
    ensures r.Ok? <==> maxAttempts > 0 && action(calls).Returned?
    ensures r.Ok? ==> r.value == action(calls).value
    ensures maxAttempts > 0 && r.Err? ==>
              || (calls == maxAttempts && r.error == action(calls).error)
              || (calls < maxAttempts && action(calls).Threw? && delayFails(calls) == Some(r.error))
    ensures backoffs == UpTo(if r.Ok? || calls == maxAttempts then calls - 1 else calls)
  {
    if maxAttempts <= 0 {
      return Err(MaxAttemptsError), 0, [];
    }
    var lastError: Option<Exception> := None;
    backoffs := [];
    calls := 0;
    var attempt := 1;
    while attempt <= maxAttempts
      invariant 1 <= attempt <= maxAttempts + 1
      invariant calls == attempt - 1
      invariant forall a :: 1 <= a < attempt ==> action(a).Threw? && delayFails(a).None?
      invariant backoffs == UpTo(calls)
      invariant attempt > 1 ==> lastError == Some(action(attempt - 1).error)
      invariant attempt <= maxAttempts
    {
      calls := calls + 1;
      var outcome := action(attempt);
      if outcome.Returned? {
        return Ok(outcome.value), calls, UpTo(calls - 1);
      }
      if attempt < maxAttempts {
        lastError := Some(outcome.error);
        backoffs := backoffs + [attempt];
        if delayFails(attempt).Some? {
          return Err(delayFails(attempt).value), calls, backoffs;
        }
      } else {
        lastError := Some(outcome.error);
        break;
      }
      attempt := attempt + 1;
    }
    backoffs := UpTo(calls - 1);
    r := if lastError.Some? then Err(lastError.value) else Err(UnknownError);
  }

  /** The void overload: the action returns nothing, and the generic loop runs
      it with a null result. `r` is `None` when an attempt succeeded. */
  method ExecuteAction(action: int -> Option<Exception>, maxAttempts: int, delayFails: int -> Option<Exception>)
    returns (r: Option<Exception>, calls: int, backoffs: seq<int>)
    ensures maxAttempts <= 0 ==> r == Some(MaxAttemptsError) && calls == 0 && backoffs == []
    ensures maxAttempts > 0 ==> 1 <= calls <= maxAttempts
    ensures forall a :: 1 <= a < calls ==> action(a).Some? && delayFails(a).None?
    ensures r.None? <==> maxAttempts > 0 && action(calls).None?
    ensures maxAttempts > 0 && r.Some? ==>
              || (calls == maxAttempts && r == action(calls))
              || (calls < maxAttempts && action(calls).Some? && r == delayFails(calls))
    ensures backoffs == UpTo(if r.None? || calls == maxAttempts then calls - 1 else calls)
  {
    var generic := (a: int) => if action(a).None? then Returned(()) else Threw(action(a).value);
    var result;
    result, calls, backoffs := Execute(generic, maxAttempts, delayFails);
    r := if result.Ok? then None else Some(result.error);
    forall a | 1 <= a < calls
      ensures action(a).Some?
    {
      assert generic(a).Threw?;
    }
  }

  const CanceledError := Error(OperationCanceled, "The operation was canceled.")
  const DelayCanceledError := Error(OperationCanceled, "A task was canceled.")

  /** `ExecuteAsync<T>`: as `Execute`, but the cancellation token is checked
      before every attempt, and the backoff delay after a failed attempt ends
      early, throwing, when the token is cancelled meanwhile.
      `cancelledBefore(a)` is the token's state when attempt `a` is about to
      start; `delayFails(a)` is the exception that computing the backoff after
      attempt `a` or starting its delay throws; `cancelledInDelay(a)` says
      whether the token is cancelled during that delay. */
  method ExecuteAsync<T>(action: int -> Outcome<T>, maxAttempts: int, delayFails: int -> Option<Exception>,
                         cancelledBefore: int -> bool, cancelledInDelay: int -> bool)
    returns (r: Result<T>, calls: int, backoffs: seq<int>)
    ensures maxAttempts <= 0 ==> r == Err(MaxAttemptsError) && calls == 0
    ensures maxAttempts > 0 ==> 0 <= calls <= maxAttempts
    ensures forall a :: 1 <= a <= calls ==> !cancelledBefore(a)
    ensures forall a :: 1 <= a < calls ==> action(a).Threw? && delayFails(a).None? && !cancelledInDelay(a)
    ensures r.Ok? <==> maxAttempts > 0 && calls >= 1 && action(calls).Returned?
    ensures r.Ok? ==> r.value == action(calls).value
    ensures maxAttempts > 0 && r.Err? ==>
              || (calls == maxAttempts && r.error == action(calls).error)
              || (calls < maxAttempts && cancelledBefore(calls + 1) && r.error == CanceledError
                  && (calls >= 1 ==> action(calls).Threw?))
              || (1 <= calls < maxAttempts && action(calls).Threw? && delayFails(calls) == Some(r.error))
              || (1 <= calls < maxAttempts && action(calls).Threw? && delayFails(calls).None?
                  && cancelledInDelay(calls) && r.error == DelayCanceledError)
    ensures backoffs == UpTo(if r.Ok? || calls == maxAttempts then calls - 1 else calls)
  {
    if maxAttempts <= 0 {
      return Err(MaxAttemptsError), 0, [];
    }
    var lastError: Option<Exception> := None;
    backoffs := [];
    calls := 0;
    var attempt := 1;
    while attempt <= maxAttempts
      invariant 1 <= attempt <= maxAttempts
      invariant calls == attempt - 1
      invariant forall a :: 1 <= a < attempt ==> !cancelledBefore(a)
      invariant forall a :: 1 <= a < attempt ==> action(a).Threw? && delayFails(a).None? && !cancelledInDelay(a)
      invariant backoffs == UpTo(calls)
      invariant attempt > 1 ==> lastError == Some(action(attempt - 1).error)
    {
      if cancelledBefore(attempt) {
        return Err(CanceledError), calls, backoffs;
      }
      calls := calls + 1;
      var outcome := action(attempt);
      if outcome.Returned? {
        return Ok(outcome.value), calls, UpTo(calls - 1);
      }
      if attempt < maxAttempts {
        lastError := Some(outcome.error);
        backoffs := backoffs + [attempt];
        if delayFails(attempt).Some? {
          return Err(delayFails(attempt).value), calls, backoffs;
        }
        if cancelledInDelay(attempt) {
          return Err(DelayCanceledError), calls, backoffs;
        }
      } else {
        lastError := Some(outcome.error);
        break;
      }
      attempt := attempt + 1;
    }
    backoffs := UpTo(calls - 1);
    r := if lastError.Some? then Err(lastError.value) else Err(UnknownError);
  }

  /** The void asynchronous overload, running the generic loop with a null
      result. `r` is `None` when an attempt succeeded. */
  method ExecuteActionAsync(action: int -> Option<Exception>, maxAttempts: int, delayFails: int -> Option<Exception>,
                            cancelledBefore: int -> bool, cancelledInDelay: int -> bool)
    returns (r: Option<Exception>, calls: int, backoffs: seq<int>)
    ensures maxAttempts <= 0 ==> r == Some(MaxAttemptsError) && calls == 0
    ensures maxAttempts > 0 ==> 0 <= calls <= maxAttempts
    ensures forall a :: 1 <= a <= calls ==> !cancelledBefore(a)
    ensures forall a :: 1 <= a < calls ==> action(a).Some? && delayFails(a).None? && !cancelledInDelay(a)
    ensures r.None? <==> maxAttempts > 0 && calls >= 1 && action(calls).None?
    ensures maxAttempts > 0 && r.Some? ==>
              || (calls == maxAttempts && r == action(calls))
              || (calls < maxAttempts && cancelledBefore(calls + 1) && r == Some(CanceledError))
              || (1 <= calls < maxAttempts && action(calls).Some? && r == delayFails(calls) && r.Some?)
              || (1 <= calls < maxAttempts && delayFails(calls).None? && cancelledInDelay(calls)
                  && r == Some(DelayCanceledError))
    ensures backoffs == UpTo(if r.None? || calls == maxAttempts then calls - 1 else calls)
  {
    var generic := (a: int) => if action(a).None? then Returned(()) else Threw(action(a).value);
    var result;
    result, calls, backoffs := ExecuteAsync(generic, maxAttempts, delayFails, cancelledBefore, cancelledInDelay);
    r := if result.Ok? then None else Some(result.error);
    forall a | 1 <= a < calls
      ensures action(a).Some?
    {
      assert generic(a).Threw?;
    }
  }

  /** `Math.Pow(2, attempt)` for a whole exponent. */
  function Pow2(n: nat): (r: nat)
    ensures r >= 1
  {
    if n == 0 then 1 else 2 * Pow2(n - 1)
  }

  /** The default backoff, `2^attempt * 100` milliseconds. */
  function DefaultDelayMs(attempt: nat): (r: nat)
    ensures attempt >= 1 ==> r >= 200
  {
    Pow2(attempt) * 100
  }

  /** Each further attempt doubles the default delay. */
  lemma DefaultDelayDoubles(attempt: nat)
    ensures DefaultDelayMs(attempt + 1) == 2 * DefaultDelayMs(attempt)
  {
    assert Pow2(attempt + 1) == 2 * Pow2(attempt);
  }

  /** The longest finite timeout `Thread.Sleep` accepts, `int.MaxValue`
      milliseconds; a longer one throws `ArgumentOutOfRangeException`. */
  const SleepMaxMs := 0x7FFF_FFFF

  lemma {:induction false} Pow2Monotone(m: nat, n: nat)
    requires m <= n
    ensures Pow2(m) <= Pow2(n)
    decreases n
  {
    if m < n {
      Pow2Monotone(m, n - 1);
    }
  }

  lemma {:induction false} Pow2Add(m: nat, n: nat)
    ensures Pow2(m + n) == Pow2(m) * Pow2(n)
    decreases n
  {
    if n > 0 {
      Pow2Add(m, n - 1);
      assert Pow2(m + n) == 2 * Pow2(m + (n - 1));
    }
  }

  /** With the default backoff, `Execute` can sleep after attempts 1 to 24,
      and the delay after attempt 25 or later is too long for `Thread.Sleep`,
      whose exception then ends the loop. */
  lemma DefaultSleepOutOfRange(attempt: nat)
    ensures DefaultDelayMs(attempt) > SleepMaxMs <==> attempt >= 25
  {
    assert Pow2(3) == 8;
    Pow2Add(3, 3);
    Pow2Add(6, 6);
    Pow2Add(12, 12);
    Pow2Add(24, 1);
    assert Pow2(24) == 16777216 && Pow2(25) == 33554432;
    if attempt >= 25 {
      Pow2Monotone(25, attempt);
    } else {
      Pow2Monotone(attempt, 24);
    }
  }
}
