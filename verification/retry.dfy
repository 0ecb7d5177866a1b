/**
 * The retry executor: a bounded retry loop with capped exponential backoff,
 * and the string classifier that decides which API errors are worth retrying.
 *
 * The wrapped function is a script `func: nat -> Attempt` giving what the
 * i-th call returns or raises. `time.sleep` is not performed; the delays the
 * loop asks for are returned, in order, as `delays`.
 */
module Retry {
  import opened Wrappers
  import opened Text

  /* ---------- backoff ---------- */

  datatype RetryHandler = RetryHandler(
    maxAttempts: int := 3,
    baseDelay: real := 1.0,
    maxDelay: real := 60.0,
    exponentialBase: real := 2.0)

  function Pow(b: real, n: nat): real {
    if n == 0 then 1.0 else b * Pow(b, n - 1)
  }

  lemma {:induction false} PowPositive(b: real, n: nat)
    requires b > 0.0
    ensures Pow(b, n) > 0.0
  {
    if n > 0 {
      PowPositive(b, n - 1);
    }
  }

  lemma {:induction false} PowMonotone(b: real, m: nat, n: nat)
    requires b >= 1.0 && m <= n
    ensures 1.0 <= Pow(b, m) <= Pow(b, n)
    decreases n
  {
    if n > m {
      PowMonotone(b, m, n - 1);
      assert Pow(b, n) == b * Pow(b, n - 1);
      assert b * Pow(b, n - 1) >= 1.0 * Pow(b, n - 1);
    } else if n > 0 {
      PowMonotone(b, 0, n - 1);
      assert b * Pow(b, n - 1) >= 1.0 * Pow(b, n - 1);
    }
  }

  /** `calculate_delay(attempt) = min(base_delay * exponential_base ** attempt, max_delay)` */
  function CalculateDelay(h: RetryHandler, attempt: nat): (d: real)
    ensures d <= h.maxDelay
    ensures d <= h.baseDelay * Pow(h.exponentialBase, attempt)
    ensures d == h.maxDelay || d == h.baseDelay * Pow(h.exponentialBase, attempt)
  {
    var delay := h.baseDelay * Pow(h.exponentialBase, attempt);
    if delay <= h.maxDelay then delay else h.maxDelay
  }

  /** With a non-negative base delay and a base of at least 1, later attempts never wait less. */
  lemma DelayNonDecreasing(h: RetryHandler, a: nat, b: nat)
    requires 0.0 <= h.baseDelay && 1.0 <= h.exponentialBase
    requires a <= b
    ensures CalculateDelay(h, a) <= CalculateDelay(h, b)
  {
    PowMonotone(h.exponentialBase, a, b);
    var pa := Pow(h.exponentialBase, a);
    var pb := Pow(h.exponentialBase, b);
    assert h.baseDelay * pa <= h.baseDelay * pb by {
      assert h.baseDelay * pb - h.baseDelay * pa == h.baseDelay * (pb - pa);
    }
  }

  /** Positive parameters give a positive delay. */
  lemma DelayPositive(h: RetryHandler, attempt: nat)
    requires h.baseDelay > 0.0 && h.exponentialBase > 0.0 && h.maxDelay > 0.0
    ensures CalculateDelay(h, attempt) > 0.0
  {
    PowPositive(h.exponentialBase, attempt);
    assert h.baseDelay * Pow(h.exponentialBase, attempt) > 0.0;
  }

  /** The handler of the unit test: `RetryHandler(max_attempts=3, base_delay=0.1)` waits 0.2 after attempt 1. */
  lemma UnitTestDelay()
    ensures CalculateDelay(RetryHandler(3, 0.1), 1) == 0.2
    ensures CalculateDelay(RetryHandler(3, 0.1), 1) > 0.0
  {
    assert Pow(2.0, 1) == 2.0;
  }

  /* ---------- the retry loop ---------- */

  /** What one call of the wrapped function did. */
  datatype Attempt<T, E> = Returned(value: T) | Raised(error: E)

  /** What the wrapper did: returned a value, raised, or fell off the end and returned None. */
  datatype Outcome<T, E> = Returns(value: T) | Raises(error: E) | ReturnsNone

  /** The outcome, how many times the function was called, and the sleeps requested, in order. */
  datatype Trace<T, E> = Trace(outcome: Outcome<T, E>, calls: nat, delays: seq<real>)

  /**
   * The `exceptions` filter of `retry_on_exception` and its optional
   * `should_retry_func`.
   */
  datatype Policy<!E> = Policy(catches: E -> bool, shouldRetry: Option<E -> bool>)

  /** The wrapper goes on after a failure with `e`: it is caught and the predicate, if any, allows it. */
  predicate Retries<E>(pol: Policy<E>, e: E) {
    pol.catches(e) && (pol.shouldRetry.None? || pol.shouldRetry.value(e))
  }

  /** Attempt `i` failed with an error the wrapper retries. */
  predicate RetriedFailure<T, E>(pol: Policy<E>, func: nat -> Attempt<T, E>, i: nat) {
    func(i).Raised? && Retries(pol, func(i).error)
  }

  /**
   * The body of `wrapper` from iteration `attempt` of
   * `for attempt in range(max_attempts)` on, having remembered `last` and slept `delays`.
   */
  function Loop<T, E>(h: RetryHandler, pol: Policy<E>, func: nat -> Attempt<T, E>,
                      attempt: nat, last: Option<E>, delays: seq<real>): Trace<T, E>
    decreases if attempt < h.maxAttempts then h.maxAttempts - attempt else 0
  {
    if attempt >= h.maxAttempts then
      // the loop is exhausted: `if last_exception: raise last_exception`, else None
      if last.Some? then Trace(Raises(last.value), attempt, delays) else Trace(ReturnsNone, attempt, delays)
    else
      match func(attempt)
      case Returned(v) => Trace(Returns(v), attempt + 1, delays)
      case Raised(e) =>
        if !pol.catches(e) then Trace(Raises(e), attempt + 1, delays)
        else if pol.shouldRetry.Some? && !pol.shouldRetry.value(e) then Trace(Raises(e), attempt + 1, delays)
        else if attempt == h.maxAttempts - 1 then Trace(Raises(e), attempt + 1, delays)
        else Loop(h, pol, func, attempt + 1, Some(e), delays + [CalculateDelay(h, attempt)])
  }

  /** `handler.retry_on_exception(exceptions, should_retry_func)(func)()` */
  function RetryOnException<T, E>(h: RetryHandler, pol: Policy<E>, func: nat -> Attempt<T, E>): Trace<T, E> {
    Loop(h, pol, func, 0, None, [])
  }

  /** What a trace of the wrapper looks like, stated without reference to the loop. */
  ghost predicate Explains<T, E>(h: RetryHandler, pol: Policy<E>, func: nat -> Attempt<T, E>, t: Trace<T, E>) {
    if h.maxAttempts <= 0 then t == Trace(ReturnsNone, 0, [])
    else
      && 1 <= t.calls <= h.maxAttempts
      && |t.delays| == t.calls - 1
      && (forall i | 0 <= i < |t.delays| :: t.delays[i] == CalculateDelay(h, i))
      && (forall i: nat | i < t.calls - 1 :: RetriedFailure(pol, func, i))
      && match t.outcome
         case Returns(v) => func(t.calls - 1) == Returned(v)
         case Raises(e) => func(t.calls - 1) == Raised(e) && (!Retries(pol, e) || t.calls == h.maxAttempts)
         case ReturnsNone => false
  }

  lemma {:induction false} LoopExplained<T, E>(h: RetryHandler, pol: Policy<E>, func: nat -> Attempt<T, E>,
                                               attempt: nat, last: Option<E>, delays: seq<real>)
    requires attempt < h.maxAttempts
    requires |delays| == attempt
    requires forall i | 0 <= i < attempt :: delays[i] == CalculateDelay(h, i)
    requires forall i: nat | i < attempt :: RetriedFailure(pol, func, i)
    ensures Explains(h, pol, func, Loop(h, pol, func, attempt, last, delays))
    decreases h.maxAttempts - attempt
  {
    var t := Loop(h, pol, func, attempt, last, delays);
    match func(attempt)
    case Returned(v) =>
    case Raised(e) =>
      if Retries(pol, e) && attempt != h.maxAttempts - 1 {
        var delays' := delays + [CalculateDelay(h, attempt)];
        LoopExplained(h, pol, func, attempt + 1, Some(e), delays');
      }
  }

  /**
   * The wrapper's behaviour in full: with no attempts allowed it never calls
   * the function and returns None; otherwise it calls it between 1 and
   * `max_attempts` times, every call but the last failed with a retried error,
   * it slept `calculate_delay(0)`, ..., `calculate_delay(calls - 2)` between
   * calls and never after the last, and it returns the last call's value or
   * re-raises the last call's exception unchanged, which was either not retried
   * or the last allowed attempt.
   */
  lemma RetryOnExceptionExplained<T, E>(h: RetryHandler, pol: Policy<E>, func: nat -> Attempt<T, E>)
    ensures Explains(h, pol, func, RetryOnException(h, pol, func))
  {
    if h.maxAttempts > 0 {
      LoopExplained(h, pol, func, 0, None, []);
    }
  }

  /** `Explains` pins the trace down: there is exactly one trace it admits. */
  lemma ExplainsUnique<T, E>(h: RetryHandler, pol: Policy<E>, func: nat -> Attempt<T, E>, t1: Trace<T, E>, t2: Trace<T, E>)
    requires Explains(h, pol, func, t1) && Explains(h, pol, func, t2)
    ensures t1 == t2
  {
    if h.maxAttempts > 0 {
      assert t1.calls < t2.calls ==> RetriedFailure(pol, func, t1.calls - 1);
      assert t2.calls < t1.calls ==> RetriedFailure(pol, func, t2.calls - 1);
      assert t1.calls == t2.calls;
      assert t1.delays == t2.delays;
    }
  }

  /** When every attempt fails with a retried error, the function runs exactly `max_attempts` times and the last error is re-raised. */
  lemma ExhaustedRetries<T, E>(h: RetryHandler, pol: Policy<E>, func: nat -> Attempt<T, E>)
    requires h.maxAttempts >= 1
    requires forall i: nat | i < h.maxAttempts :: RetriedFailure(pol, func, i)
    ensures RetryOnException(h, pol, func).calls == h.maxAttempts
    ensures RetryOnException(h, pol, func).outcome.Raises?
    ensures func(h.maxAttempts - 1) == Raised(RetryOnException(h, pol, func).outcome.error)
    ensures |RetryOnException(h, pol, func).delays| == h.maxAttempts - 1
  {
    RetryOnExceptionExplained(h, pol, func);
    var t := RetryOnException(h, pol, func);
    assert RetriedFailure(pol, func, t.calls - 1);
  }

  /**
   * An error the wrapper does not retry (not caught, or refused by
   * `should_retry_func`) at attempt `k` is re-raised at once: `k + 1` calls
   * and only the `k` sleeps before it.
   */
  lemma StopsOnRefusedError<T, E>(h: RetryHandler, pol: Policy<E>, func: nat -> Attempt<T, E>, k: nat)
    requires k < h.maxAttempts
    requires forall i: nat | i < k :: RetriedFailure(pol, func, i)
    requires func(k).Raised? && !Retries(pol, func(k).error)
    ensures RetryOnException(h, pol, func).outcome == Raises(func(k).error)
    ensures RetryOnException(h, pol, func).calls == k + 1
    ensures |RetryOnException(h, pol, func).delays| == k
  {
    RetryOnExceptionExplained(h, pol, func);
    var t := RetryOnException(h, pol, func);
    assert !RetriedFailure(pol, func, k);
    assert t.calls - 1 < k ==> RetriedFailure(pol, func, t.calls - 1);
  }

  /** The first successful call's value is returned at once. */
  lemma ReturnsFirstSuccess<T, E>(h: RetryHandler, pol: Policy<E>, func: nat -> Attempt<T, E>, k: nat)
    requires k < h.maxAttempts
    requires forall i: nat | i < k :: RetriedFailure(pol, func, i)
    requires func(k).Returned?
    ensures RetryOnException(h, pol, func).outcome == Returns(func(k).value)
    ensures RetryOnException(h, pol, func).calls == k + 1
  {
    RetryOnExceptionExplained(h, pol, func);
    var t := RetryOnException(h, pol, func);
    assert !RetriedFailure(pol, func, k);
    assert t.calls - 1 < k ==> RetriedFailure(pol, func, t.calls - 1);
  }

  /** The closing `if last_exception: raise` is dead code: None comes back only when no attempt is allowed. */
  lemma NoneOnlyWithoutAttempts<T, E>(h: RetryHandler, pol: Policy<E>, func: nat -> Attempt<T, E>)
    ensures RetryOnException(h, pol, func).outcome.ReturnsNone? <==> h.maxAttempts <= 0
    ensures RetryOnException(h, pol, func).calls == 0 <==> h.maxAttempts <= 0
  {
    RetryOnExceptionExplained(h, pol, func);
  }

  /**
   * The decorated wrapper, run as an imperative loop: `for attempt in
   * range(max_attempts)`, returning on the first success and raising where
   * the Python code raises. Sleeps are recorded in `delays`.
   */
  method RunWithRetry<T, E>(h: RetryHandler, pol: Policy<E>, func: nat -> Attempt<T, E>)
    returns (outcome: Outcome<T, E>, calls: nat, delays: seq<real>)
    ensures Trace(outcome, calls, delays) == RetryOnException(h, pol, func)
    ensures h.maxAttempts > 0 ==> 1 <= calls <= h.maxAttempts && |delays| == calls - 1
  {
    var lastException: Option<E> := None;
    delays := [];
    var attempt: nat := 0;
    while attempt < h.maxAttempts
      invariant Loop(h, pol, func, attempt, lastException, delays) == RetryOnException(h, pol, func)
      invariant h.maxAttempts > 0 ==> attempt < h.maxAttempts
      invariant |delays| == attempt
      decreases h.maxAttempts - attempt
    {
      match func(attempt)
      case Returned(v) =>
        outcome, calls := Returns(v), attempt + 1;
        return;
      case Raised(e) =>
        lastException := Some(e);
        if !pol.catches(e) || (pol.shouldRetry.Some? && !pol.shouldRetry.value(e)) || attempt == h.maxAttempts - 1 {
          outcome, calls := Raises(e), attempt + 1;
          return;
        }
        var delay := CalculateDelay(h, attempt);
        delays := delays + [delay];
        attempt := attempt + 1;
    }
    if lastException.Some? {
      outcome := Raises(lastException.value);
    } else {
      outcome := ReturnsNone;
    }
    calls := attempt;
  }

  /* ---------- error classification ---------- */

  const RetryablePatterns: seq<string> := [
    "rate limit", "timeout", "temporary", "service unavailable", "internal server error",
    "connection error", "network error", "502", "503", "504"]

  const NonRetryablePatterns: seq<string> := [
    "invalid api key", "authentication", "unauthorized", "forbidden", "not found",
    "400", "401", "403", "404"]

  predicate MatchesAny(text: string, patterns: seq<string>) {
    exists k | 0 <= k < |patterns| :: Contains(text, patterns[k])
  }

  /**
   * `is_retryable_api_error`: lower-case the message, answer False on the
   * first non-retryable pattern, then True on the first retryable one, and
   * True when nothing matches.
   */
  function IsRetryableApiError(message: string): bool {
    var text := Lower(message);
    if MatchesAny(text, NonRetryablePatterns) then false
    else if MatchesAny(text, RetryablePatterns) then true
    else true
  }

  /**
   * Because the non-retryable patterns are checked first and the default is
   * True, the answer is exactly "no non-retryable pattern occurs": the
   * retryable list never changes it.
   */
  lemma RetryableIffNoFatalPattern(message: string)
    ensures IsRetryableApiError(message) <==> !MatchesAny(Lower(message), NonRetryablePatterns)
  {
  }

  /** A non-retryable pattern wins over any retryable one: "Unauthorized ... timeout" is not retried. */
  lemma FatalPatternWins(message: string, k: nat)
    requires k < |NonRetryablePatterns|
    requires Contains(Lower(message), NonRetryablePatterns[k])
    ensures !IsRetryableApiError(message)
  {
  }

  /** Both "unauthorized" and "timeout" in the text: not retried. */
  lemma UnauthorizedTimeoutNotRetried(message: string)
    requires Contains(Lower(message), "unauthorized") && Contains(Lower(message), "timeout")
    ensures !IsRetryableApiError(message)
  {
    assert NonRetryablePatterns[2] == "unauthorized";
  }

  /** Any text with "400", "401", "403" or "404" inside it, even within a longer number, is not retried. */
  lemma ClientStatusCodeNotRetried(message: string, code: string)
    requires code == "400" || code == "401" || code == "403" || code == "404"
    requires Contains(message, code)
    ensures !IsRetryableApiError(message)
  {
    ContainsLower(message, code);
    if code == "400" {
      assert NonRetryablePatterns[5] == code;
    } else if code == "401" {
      assert NonRetryablePatterns[6] == code;
    } else if code == "403" {
      assert NonRetryablePatterns[7] == code;
    } else {
      assert NonRetryablePatterns[8] == code;
    }
  }

  /** The unit test's retryable example: "rate limit exceeded" is retried. */
  lemma RateLimitRetried()
    ensures IsRetryableApiError("rate limit exceeded")
  {
    var s := "rate limit exceeded";
    RateLimitIsLower();
    LowerOfLower(s);
    RateLimitLacks1();
    RateLimitLacks2();
    forall k | 0 <= k < |NonRetryablePatterns|
      ensures !Contains(s, NonRetryablePatterns[k])
    {
      var p := NonRetryablePatterns[k];
      if k == 0 {
        AbsentChar(s, p, 2);      // 'v'
      } else if k == 1 {
        AbsentChar(s, p, 1);      // 'u'
      } else {
        AbsentChar(s, p, 0);      // 'u', 'f', 'n', '4'
      }
    }
  }

  lemma RateLimitIsLower()
    ensures IsLower("rate limit exceeded")
  {
  }

  lemma RateLimitLacks1()
    ensures 'v' !in "rate limit exceeded" && 'u' !in "rate limit exceeded"
  {
  }

  lemma RateLimitLacks2()
    ensures 'f' !in "rate limit exceeded" && 'n' !in "rate limit exceeded" && '4' !in "rate limit exceeded"
  {
  }

  /** The unit test's non-retryable example: "invalid api key" is not retried. */
  lemma InvalidApiKeyNotRetried()
    ensures !IsRetryableApiError("invalid api key")
  {
    var t := "invalid api key";
    assert IsLower(t);
    LowerOfLower(t);
    ContainsInfix("", t, "");
    assert "" + t + "" == t;
    assert Contains(Lower(t), NonRetryablePatterns[0]);
  }

  /* ---------- the preconfigured decorators ---------- */

  /** A handler and policy: what `retry_on_exception` is given. */
  datatype Decorator<!E> = Decorator(handler: RetryHandler, policy: Policy<E>)

  /** `exceptions=Exception`: every error is caught. */
  function CatchAll<E>(): E -> bool {
    _ => true
  }

  /** `retry_api_call(max_attempts, base_delay)`: errors are their `str()`, judged by the classifier. */
  function RetryApiCall(maxAttempts: int, baseDelay: real): Decorator<string> {
    Decorator(RetryHandler(maxAttempts, baseDelay), Policy(CatchAll(), Some(IsRetryableApiError)))
  }

  /** `retry_with_backoff(max_attempts, base_delay)`: every error is retried. */
  function RetryWithBackoff<E>(maxAttempts: int, baseDelay: real): Decorator<E> {
    Decorator(RetryHandler(maxAttempts, baseDelay), Policy(CatchAll(), None))
  }

  /** `execute_with_retry(func, max_attempts, base_delay, should_retry_func)` */
  function ExecuteWithRetry<T, E>(func: nat -> Attempt<T, E>, maxAttempts: int, baseDelay: real,
                                  shouldRetry: Option<E -> bool>): Trace<T, E> {
    RetryOnException(RetryHandler(maxAttempts, baseDelay), Policy(CatchAll(), shouldRetry), func)
  }

  /** `retry_with_backoff` retries every failure, so it stops only on success or after `max_attempts` calls. */
  lemma BackoffRetriesEverything<T, E>(func: nat -> Attempt<T, E>, maxAttempts: int, baseDelay: real)
    requires maxAttempts >= 1
    ensures var d: Decorator<E> := RetryWithBackoff(maxAttempts, baseDelay);
      var t := RetryOnException(d.handler, d.policy, func);
      t.outcome.Raises? ==> t.calls == maxAttempts
  {
    var d: Decorator<E> := RetryWithBackoff(maxAttempts, baseDelay);
    RetryOnExceptionExplained(d.handler, d.policy, func);
  }
}
