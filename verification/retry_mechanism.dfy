/**
 * The retry decorators of the self-healing layer (retry_mechanism.py): the
 * jittered backoff formula, the retry decision, the per-call `RetryContext`
 * bookkeeping, and the attempt loop shared by `retry` and `async_retry`,
 * optionally guarded by a circuit breaker.
 *
 * `random.uniform(-1, 1)` for attempt `i` is `jitter(i)`, the wrapped
 * function's outcome at attempt `i` is `call(i)` (for `async_retry` this is
 * what the awaited call, or its `asyncio.wait_for` timeout, produced), and
 * the clock at attempt `i` is `clock(i)`. The `on_retry`, `on_failure` and
 * `on_success` callbacks, logging and the sleeps themselves are not modelled.
 */
module RetryMechanism {
  import opened Wrappers
  import opened Exceptions
  import opened Numeric
  import CB = CircuitBreaker

  /** `RetryConfig` without callbacks, timeout and breaker (the breaker is a parameter of the loop). */
  datatype RetryConfig = RetryConfig(
    maxRetries: int,
    baseDelay: real,
    maxDelay: real,
    exponentialBase: real,
    jitter: bool,
    jitterMax: real,
    retryable: seq<string>,
    nonRetryable: seq<string>)

  const DefaultConfig := RetryConfig(3, 1.0, 60.0, 2.0, true, 0.5, [], [])

  /** The counters of `RetryStats` (its timestamp is not modelled). */
  datatype RetryStats = RetryStats(
    attempts: nat,
    successes: nat,
    failures: nat,
    totalWaitTime: real,
    consecutiveFailures: nat)

  const NoStats := RetryStats(0, 0, 0, 0.0, 0)

  /**
   * `calculate_delay(attempt)` with `random.uniform(-1, 1)` given as `u`:
   * `min(base_delay * exponential_base ** attempt, max_delay)`, then with
   * jitter `max(0, d + d * jitter_max * u)`, which lies in
   * [0, d * (1 + jitter_max)].
   */
  function CalculateDelay(config: RetryConfig, attempt: nat, u: real): (d: real)
    requires -1.0 <= u <= 1.0
    ensures var capped := CappedPow(config.baseDelay, config.exponentialBase, config.maxDelay, attempt);
      (!config.jitter ==> d == capped)
      && (config.jitter ==> d >= 0.0)
      && (config.jitter && capped >= 0.0 && config.jitterMax >= 0.0 ==> d <= capped * (1.0 + config.jitterMax))
  {
    var delay := CappedPow(config.baseDelay, config.exponentialBase, config.maxDelay, attempt);
    if config.jitter then Jittered(delay, config.jitterMax, u) else delay
  }

  /** `max(0, d + d * jitter_max * u)` */
  function Jittered(d: real, jm: real, u: real): (r: real)
    requires -1.0 <= u <= 1.0
    ensures r >= 0.0
    ensures d >= 0.0 && jm >= 0.0 ==> r <= d * (1.0 + jm)
  {
    JitterBound(d, jm, u);
    Max(0.0, d + d * jm * u)
  }

  lemma JitterBound(d: real, jm: real, u: real)
    requires -1.0 <= u <= 1.0
    ensures d >= 0.0 && jm >= 0.0 ==> d + d * jm * u <= d * (1.0 + jm)
  {
    if d >= 0.0 && jm >= 0.0 {
      ScaleMonotone(d * jm, u, 1.0);
      assert d * (1.0 + jm) == d + d * jm * 1.0;
    }
  }

  /** Without jitter, and with a non-negative base delay and a base of at least 1, later attempts never wait less. */
  lemma DelayNonDecreasing(config: RetryConfig, m: nat, n: nat)
    requires !config.jitter && config.baseDelay >= 0.0 && config.exponentialBase >= 1.0 && m <= n
    ensures CalculateDelay(config, m, 0.0) <= CalculateDelay(config, n, 0.0)
  {
    CappedPowMonotone(config.baseDelay, config.exponentialBase, config.maxDelay, m, n);
  }

  /**
   * `should_retry(error, attempt)`: never at or past `max_retries`; never
   * for a non-retryable class (which wins over the retryable list); with a
   * retryable list, only for its classes; otherwise always.
   */
  function ShouldRetry(config: RetryConfig, e: Exc, attempt: int): (r: bool)
    ensures attempt >= config.maxRetries ==> !r
    ensures IsInstanceAny(e, config.nonRetryable) ==> !r
    ensures config.retryable != [] && !IsInstanceAny(e, config.retryable) ==> !r
    ensures attempt < config.maxRetries && config.retryable == [] && config.nonRetryable == [] ==> r
  {
    if attempt >= config.maxRetries then false
    else if config.nonRetryable != [] && IsInstanceAny(e, config.nonRetryable) then false
    else if config.retryable != [] then IsInstanceAny(e, config.retryable)
    else true
  }

  /** `RetryContext`: the statistics and the errors of one decorated call. */
  class RetryContext {
    const config: RetryConfig
    const operation: string
    var stats: RetryStats
    var errors: seq<Exc>

    constructor (config: RetryConfig, operation: string)
      ensures this.config == config && this.operation == operation
      ensures stats == NoStats && errors == []
    {
      this.config := config;
      this.operation := operation;
      stats := NoStats;
      errors := [];
    }

    /** `record_attempt()` */
    method RecordAttempt()
      modifies this
      ensures stats == old(stats).(attempts := old(stats).attempts + 1) && errors == old(errors)
    {
      stats := stats.(attempts := stats.attempts + 1);
    }

    /** `record_success()`: the consecutive-failure count goes back to 0. */
    method RecordSuccess()
      modifies this
      ensures stats == old(stats).(successes := old(stats).successes + 1, consecutiveFailures := 0)
      ensures errors == old(errors)
    {
      stats := stats.(successes := stats.successes + 1, consecutiveFailures := 0);
    }

    /** `record_failure(error)` */
    method RecordFailure(error: Exc)
      modifies this
      ensures stats == old(stats).(failures := old(stats).failures + 1,
                                   consecutiveFailures := old(stats).consecutiveFailures + 1)
      ensures errors == old(errors) + [error]
    {
      stats := stats.(failures := stats.failures + 1, consecutiveFailures := stats.consecutiveFailures + 1);
      errors := errors + [error];
    }
  }

  /** What happened at one attempt: the breaker refused it, or the function ran with this result. */
  datatype Attempt<T> = Rejected | Ran(result: Result<T, Exc>)
  {
    predicate Failed() { Rejected? || result.Err? }
  }

  /** The `CircuitBreakerOpenError` raised inside the `try` when the breaker refuses a call. */
  function BreakerOpenError(operation: string): (e: Exc)
    ensures IsInstance(e, "CircuitBreakerOpenError") && !IsInstance(e, "TimeoutError")
  {
    Exc(["CircuitBreakerOpenError", "Exception", "BaseException", "object"],
        "Circuit breaker is OPEN for " + operation, true)
  }

  /** The exception a failed attempt raised. */
  function ErrorOf<T>(a: Attempt<T>, operation: string): Exc
    requires a.Failed()
  {
    if a.Rejected? then BreakerOpenError(operation) else a.result.error
  }

  /** Caught by `except asyncio.TimeoutError` in `async_retry`. */
  predicate IsTimeout(e: Exc) { IsInstance(e, "TimeoutError") }

  /** Caught by the wrappers: `except Exception`, and in `async_retry` also `except asyncio.TimeoutError`. */
  predicate Caught(e: Exc, isAsync: bool) { IsInstance(e, "Exception") || (isAsync && IsTimeout(e)) }

  /**
   * An attempt whose exception no `except` clause catches (a
   * `KeyboardInterrupt`, an `asyncio.CancelledError`): it leaves the
   * wrapper at once, recorded nowhere. A refusal never escapes, since
   * `CircuitBreakerOpenError` is an `Exception`.
   */
  predicate Escaped<T>(a: Attempt<T>, isAsync: bool) { a.Ran? && a.result.Err? && !Caught(a.result.error, isAsync) }

  /** A failure one of the `except` clauses handles. */
  predicate Handled<T>(a: Attempt<T>, isAsync: bool) { a.Failed() && !Escaped(a, isAsync) }

  /**
   * What one attempt does to the guarding breaker: `can_execute()`, then
   * `record_success()` after a success and `record_failure()` after a
   * handled failure, a refusal included, except that `async_retry`'s
   * timeout branch records nothing on the breaker; an escaping exception
   * leaves the breaker as `can_execute()` left it.
   */
  function AfterAttempt<T>(b: CB.Breaker, a: Attempt<T>, now: real, isAsync: bool): (r: CB.Breaker)
    ensures CB.Inv(b) ==> CB.Inv(r)
    ensures a.Rejected? ==> r.stats.failures == b.stats.failures + 1
    ensures a.Ran? && a.result.Ok? ==> r.stats.successes == b.stats.successes + 1
    ensures a.Ran? && a.result.Err? && IsInstance(a.result.error, "Exception") && !(isAsync && IsTimeout(a.result.error)) ==>
      r.stats.failures == b.stats.failures + 1
    ensures isAsync && a.Ran? && a.result.Err? && IsTimeout(a.result.error) ==>
      r.stats.failures == b.stats.failures && r.stats.successes == b.stats.successes
    ensures Escaped(a, isAsync) ==> r == CB.CanExecuteStep(b, now).0
  {
    var b1 := CB.CanExecuteStep(b, now).0;
    match a
    case Rejected => CB.RecordFailureStep(b1, now)
    case Ran(res) =>
      if res.Ok? then CB.RecordSuccessStep(b1)
      else if !Caught(res.error, isAsync) || (isAsync && IsTimeout(res.error)) then b1
      else CB.RecordFailureStep(b1, now)
  }

  /** The waits added to `total_wait_time`: every sleep except those of the async timeout branch. */
  function CountedWait<T>(trace: seq<Attempt<T>>, sleeps: seq<real>, isAsync: bool, operation: string): real
    requires |sleeps| <= |trace|
    requires forall i :: 0 <= i < |sleeps| ==> trace[i].Failed()
    decreases |sleeps|
  {
    if sleeps == [] then 0.0
    else
      var n := |sleeps| - 1;
      CountedWait(trace[..n], sleeps[..n], isAsync, operation)
      + (if isAsync && IsTimeout(ErrorOf(trace[n], operation)) then 0.0 else sleeps[n])
  }

  lemma CountedWaitSnoc<T>(trace: seq<Attempt<T>>, sleeps: seq<real>, d: real, isAsync: bool, operation: string)
    requires |sleeps| < |trace|
    requires forall i :: 0 <= i <= |sleeps| ==> trace[i].Failed()
    ensures CountedWait(trace, sleeps + [d], isAsync, operation)
         == CountedWait(trace, sleeps, isAsync, operation)
            + (if isAsync && IsTimeout(ErrorOf(trace[|sleeps|], operation)) then 0.0 else d)
  {
    var n := |sleeps|;
    assert (sleeps + [d])[..n] == sleeps;
    CountedWaitPrefix(trace, sleeps, n, isAsync, operation);
  }

  /** `CountedWait` only looks at as many attempts as there are sleeps. */
  lemma {:induction false} CountedWaitPrefix<T>(trace: seq<Attempt<T>>, sleeps: seq<real>, m: nat, isAsync: bool, operation: string)
    requires |sleeps| <= m <= |trace|
    requires forall i :: 0 <= i < |sleeps| ==> trace[i].Failed()
    ensures CountedWait(trace[..m], sleeps, isAsync, operation) == CountedWait(trace, sleeps, isAsync, operation)
    decreases |sleeps|
  {
    if sleeps != [] {
      var n := |sleeps| - 1;
      assert trace[..m][..n] == trace[..n];
      assert trace[..m][n] == trace[n];
    }
  }

  /**
   * One guarded attempt: the breaker in state `before` refused it exactly
   * when `can_execute` said no, otherwise it ran and produced `result`, and
   * the breaker ended in `after`.
   */
  ghost predicate Guards<T>(before: CB.Breaker, a: Attempt<T>, now: real, result: Result<T, Exc>, isAsync: bool,
                            after: CB.Breaker)
  {
    (a.Rejected? <==> !CB.CanExecuteStep(before, now).1)
    && (a.Ran? ==> a.result == result)
    && after == AfterAttempt(before, a, now, isAsync)
  }

  /**
   * `states[i]` is the guarding breaker before attempt `i` of `trace`, and
   * the last of them the breaker after the last attempt.
   */
  ghost predicate Guarded<T>(states: seq<CB.Breaker>, trace: seq<Attempt<T>>, clock: nat -> real, isAsync: bool,
                             call: nat -> Result<T, Exc>)
  {
    |states| == |trace| + 1
    && forall i :: 0 <= i < |trace| ==> Guards(states[i], trace[i], clock(i), call(i), isAsync, states[i + 1])
  }

  /** Without a breaker every attempt ran: attempt `i` returned `call(i)`. */
  ghost predicate Unguarded<T>(trace: seq<Attempt<T>>, call: nat -> Result<T, Exc>)
  {
    forall i :: 0 <= i < |trace| ==> trace[i] == Ran(call(i))
  }

  lemma UnguardedSnoc<T>(trace: seq<Attempt<T>>, call: nat -> Result<T, Exc>)
    requires Unguarded(trace, call)
    ensures Unguarded(trace + [Ran(call(|trace|))], call)
  {
  }

  lemma GuardedSnoc<T>(states: seq<CB.Breaker>, trace: seq<Attempt<T>>, a: Attempt<T>, after: CB.Breaker,
                       clock: nat -> real, isAsync: bool, call: nat -> Result<T, Exc>)
    requires Guarded(states, trace, clock, isAsync, call)
    requires Guards(states[|trace|], a, clock(|trace|), call(|trace|), isAsync, after)
    ensures Guarded(states + [after], trace + [a], clock, isAsync, call)
  {
  }

  /** Every attempt of `trace` before `n` failed, was handled, and `should_retry` allowed another one after it. */
  predicate RetriedBefore<T>(config: RetryConfig, trace: seq<Attempt<T>>, operation: string, isAsync: bool, n: nat)
    requires n <= |trace|
  {
    forall i :: 0 <= i < n ==> Handled(trace[i], isAsync) && ShouldRetry(config, ErrorOf(trace[i], operation), i)
  }

  /** `errors` lists the exceptions of the first `|errors|` attempts of `trace`, all of them failures. */
  predicate ErrorsOf<T>(errors: seq<Exc>, trace: seq<Attempt<T>>, operation: string)
  {
    |errors| <= |trace| && forall i :: 0 <= i < |errors| ==> trace[i].Failed() && errors[i] == ErrorOf(trace[i], operation)
  }

  lemma RetriedSnoc<T>(config: RetryConfig, trace: seq<Attempt<T>>, a: Attempt<T>, operation: string, isAsync: bool)
    requires RetriedBefore(config, trace, operation, isAsync, |trace|)
    ensures RetriedBefore(config, trace + [a], operation, isAsync, |trace|)
    ensures Handled(a, isAsync) && ShouldRetry(config, ErrorOf(a, operation), |trace|) ==>
      RetriedBefore(config, trace + [a], operation, isAsync, |trace| + 1)
  {
  }

  lemma ErrorsSnoc<T>(errors: seq<Exc>, trace: seq<Attempt<T>>, a: Attempt<T>, operation: string)
    requires ErrorsOf(errors, trace, operation) && |errors| == |trace|
    ensures ErrorsOf(errors, trace + [a], operation)
    ensures a.Failed() ==> ErrorsOf(errors + [ErrorOf(a, operation)], trace + [a], operation)
  {
  }

  /**
   * One attempt as the wrapper's `try` block runs it: ask the breaker, if
   * any; run the function when admitted; report the outcome to the breaker
   * (a refusal as a failure, the async timeout branch and an escaping
   * exception not at all).
   */
  method RunAttempt<T>(breaker: CB.CircuitBreaker?, now: real, result: Result<T, Exc>, isAsync: bool)
    returns (a: Attempt<T>)
    requires breaker != null ==> breaker.Valid()
    modifies breaker
    ensures breaker == null ==> a == Ran(result)
    ensures breaker != null ==>
      breaker.Valid() && Guards(old(breaker.Model()), a, now, result, isAsync, breaker.Model())
  {
    if breaker == null {
      return Ran(result);
    }
    var admitted := breaker.CanExecute(now);
    a := if admitted then Ran(result) else Rejected;
    if a.Ran? && result.Ok? {
      breaker.RecordSuccess();
    } else if a.Rejected? || (Caught(result.error, isAsync) && !(isAsync && IsTimeout(result.error))) {
      breaker.RecordFailure(now);
    }
  }

  /**
   * One pass of the wrappers' loop body: count the attempt, run it, record
   * the outcome on the context (an escaping exception is not recorded and
   * ends the call), and on a handled failure ask `should_retry`; when
   * another attempt follows, compute the delay and add it to the total wait
   * (except in `async_retry`'s timeout branch).
   */
  method Step<T>(ctx: RetryContext, breaker: CB.CircuitBreaker?, attempt: nat, result: Result<T, Exc>,
                 u: real, now: real, isAsync: bool)
    returns (a: Attempt<T>, stop: bool, delay: real)
    requires breaker != null ==> breaker.Valid()
    requires -1.0 <= u <= 1.0
    modifies ctx, breaker
    ensures breaker == null ==> a == Ran(result)
    ensures breaker != null ==>
      breaker.Valid() && Guards(old(breaker.Model()), a, now, result, isAsync, breaker.Model())
    ensures Stepped(ctx.config, ctx.operation, isAsync, attempt, u, a, stop, delay,
                    old(ctx.errors), old(ctx.stats), ctx.errors, ctx.stats)
  {
    ctx.RecordAttempt();
    a := RunAttempt(breaker, now, result, isAsync);
    delay := 0.0;
    if !a.Failed() {
      ctx.RecordSuccess();
      return a, true, delay;
    }
    if Escaped(a, isAsync) {
      return a, true, delay;
    }
    var e := ErrorOf(a, ctx.operation);
    ctx.RecordFailure(e);
    if !ShouldRetry(ctx.config, e, attempt) {
      return a, true, delay;
    }
    stop := false;
    delay := CalculateDelay(ctx.config, attempt, u);
    if !(isAsync && IsTimeout(e)) {
      ctx.stats := ctx.stats.(totalWaitTime := ctx.stats.totalWaitTime + delay);
    }
  }

  /** The exception the wrapper raises when its loop never ran. */
  const AllRetriesFailed := Raise("Exception", "All retries failed")

  /**
   * The context after `n` attempts that all failed and were all retried:
   * one error and one delay per attempt, the delays following the backoff
   * formula, and only the waits outside the async timeout branch counted.
   */
  ghost predicate Bookkept<T>(config: RetryConfig, operation: string, isAsync: bool, jitter: nat -> real,
                              trace: seq<Attempt<T>>, sleeps: seq<real>, errors: seq<Exc>, stats: RetryStats)
    requires forall i :: -1.0 <= jitter(i) <= 1.0
  {
    var n := |trace|;
    |sleeps| == n && |errors| == n
    && stats == RetryStats(n, 0, n, stats.totalWaitTime, n)
    && RetriedBefore(config, trace, operation, isAsync, n) && ErrorsOf(errors, trace, operation)
    && (forall i :: 0 <= i < n ==> sleeps[i] == CalculateDelay(config, i, jitter(i)))
    && stats.totalWaitTime == CountedWait(trace, sleeps, isAsync, operation)
  }

  /**
   * How a decorated call ends: every attempt but the last failed, was
   * handled and was judged retryable, and the last one's result is the
   * outcome (a handled failure there is one `should_retry` refused, an
   * escaping exception propagates as it is); with no attempt at all the
   * wrapper raises "All retries failed". The context holds one error per
   * handled failure, in order, one success at most, and the
   * consecutive-failure count; a delay follows every attempt but the last.
   */
  ghost predicate Concluded<T>(config: RetryConfig, operation: string, isAsync: bool, jitter: nat -> real,
                               outcome: Result<T, Exc>, trace: seq<Attempt<T>>, stats: RetryStats,
                               errors: seq<Exc>, sleeps: seq<real>)
    requires forall i :: -1.0 <= jitter(i) <= 1.0
  {
    |trace| == stats.attempts
    && (trace == [] ==> outcome == Err(AllRetriesFailed))
    && (trace != [] ==>
         var last := trace[|trace| - 1];
         RetriedBefore(config, trace, operation, isAsync, |trace| - 1)
         && (Escaped(last, isAsync) ==> outcome == last.result)
         && (Handled(last, isAsync) ==>
               outcome == Err(ErrorOf(last, operation)) && !ShouldRetry(config, ErrorOf(last, operation), |trace| - 1))
         && (!last.Failed() ==> outcome == last.result))
    && |errors| == stats.failures && ErrorsOf(errors, trace, operation)
    && (outcome.Ok? ==> stats.successes == 1 && stats.consecutiveFailures == 0 && |errors| == |trace| - 1)
    && (outcome.Err? ==>
          stats.successes == 0 && stats.consecutiveFailures == |errors|
          && |errors| == (if trace != [] && Escaped(trace[|trace| - 1], isAsync) then |trace| - 1 else |trace|))
    && |sleeps| == (if trace == [] then 0 else |trace| - 1)
    && (forall i :: 0 <= i < |sleeps| ==> sleeps[i] == CalculateDelay(config, i, jitter(i)))
    && stats.totalWaitTime == CountedWait(trace, sleeps, isAsync, operation)
  }

  /**
   * An escaping exception ends the call at the attempt that raised it and
   * propagates unchanged; the context counts that attempt but records no
   * failure for it.
   */
  lemma EscapeEndsCall<T>(config: RetryConfig, operation: string, isAsync: bool, jitter: nat -> real,
                          outcome: Result<T, Exc>, trace: seq<Attempt<T>>, stats: RetryStats,
                          errors: seq<Exc>, sleeps: seq<real>, i: nat)
    requires forall i :: -1.0 <= jitter(i) <= 1.0
    requires Concluded(config, operation, isAsync, jitter, outcome, trace, stats, errors, sleeps)
    requires i < |trace| && Escaped(trace[i], isAsync)
    ensures i == |trace| - 1 && outcome == trace[i].result
    ensures stats.attempts == i + 1 && stats.failures == stats.consecutiveFailures == |errors| == i
  {
  }

  /** The effect of one `Step` on the context, as values. */
  ghost predicate Stepped<T>(config: RetryConfig, operation: string, isAsync: bool, attempt: nat, u: real,
                             a: Attempt<T>, stop: bool, delay: real,
                             errors: seq<Exc>, stats: RetryStats, errors': seq<Exc>, stats': RetryStats)
    requires -1.0 <= u <= 1.0
  {
    (stop <==> !Handled(a, isAsync) || !ShouldRetry(config, ErrorOf(a, operation), attempt))
    && (!stop ==> delay == CalculateDelay(config, attempt, u))
    && errors' == errors + (if Handled(a, isAsync) then [ErrorOf(a, operation)] else [])
    && stats' == if !a.Failed() then stats.(attempts := stats.attempts + 1, successes := stats.successes + 1, consecutiveFailures := 0)
                 else if Escaped(a, isAsync) then stats.(attempts := stats.attempts + 1)
                 else stats.(attempts := stats.attempts + 1, failures := stats.failures + 1,
                             consecutiveFailures := stats.consecutiveFailures + 1,
                             totalWaitTime := stats.totalWaitTime
                               + (if stop || (isAsync && IsTimeout(ErrorOf(a, operation))) then 0.0 else delay))
  }

  lemma BookkeptEmpty<T>(config: RetryConfig, operation: string, isAsync: bool, jitter: nat -> real)
    requires forall i :: -1.0 <= jitter(i) <= 1.0
    ensures Bookkept<T>(config, operation, isAsync, jitter, [], [], [], NoStats)
    ensures Concluded<T>(config, operation, isAsync, jitter, Err(AllRetriesFailed), [], NoStats, [], [])
  {
  }

  lemma BookkeptStep<T>(config: RetryConfig, operation: string, isAsync: bool, jitter: nat -> real,
                        trace: seq<Attempt<T>>, sleeps: seq<real>, errors: seq<Exc>, stats: RetryStats,
                        a: Attempt<T>, stop: bool, delay: real, errors': seq<Exc>, stats': RetryStats)
    requires forall i :: -1.0 <= jitter(i) <= 1.0
    requires Bookkept(config, operation, isAsync, jitter, trace, sleeps, errors, stats)
    requires Stepped(config, operation, isAsync, |trace|, jitter(|trace|), a, stop, delay, errors, stats, errors', stats')
    ensures !stop ==> Bookkept(config, operation, isAsync, jitter, trace + [a], sleeps + [delay], errors', stats')
    ensures stop ==>
      Concluded(config, operation, isAsync, jitter, if a.Failed() then Err(ErrorOf(a, operation)) else a.result,
                trace + [a], stats', errors', sleeps)
  {
    var n := |trace|;
    var t := trace + [a];
    RetriedSnoc(config, trace, a, operation, isAsync);
    ErrorsSnoc(errors, trace, a, operation);
    assert t[..n] == trace;
    CountedWaitPrefix(t, sleeps, n, isAsync, operation);
    if !stop {
      CountedWaitSnoc(t, sleeps, delay, isAsync, operation);
    }
  }

  /**
   * One call of a function decorated by `retry` (`isAsync == false`) or
   * `async_retry` (`isAsync == true`), optionally guarded by `breaker`.
   * Returns the outcome, what happened at each attempt, the statistics and
   * error list of its `RetryContext` as the loop leaves them, and the delays
   * slept.
   */
  method Retry<T>(
    config: RetryConfig, breaker: CB.CircuitBreaker?, operation: string, isAsync: bool,
    call: nat -> Result<T, Exc>, jitter: nat -> real, clock: nat -> real)
    returns (outcome: Result<T, Exc>, trace: seq<Attempt<T>>, stats: RetryStats,
             errors: seq<Exc>, sleeps: seq<real>, ghost states: seq<CB.Breaker>)
    requires breaker != null ==> breaker.Valid()
    requires forall i :: -1.0 <= jitter(i) <= 1.0
    modifies breaker
    ensures if config.maxRetries >= 0 then 1 <= |trace| <= config.maxRetries + 1 else trace == []
    ensures Concluded(config, operation, isAsync, jitter, outcome, trace, stats, errors, sleeps)
    // which attempts ran the function, and with what result
    ensures breaker == null ==> Unguarded(trace, call)
    ensures breaker != null ==>
      breaker.Valid()
      && Guarded(states, trace, clock, isAsync, call)
      && states[0] == old(breaker.Model()) && breaker.Model() == states[|trace|]
  {
    var ctx := new RetryContext(config, operation);
    trace, sleeps := [], [];
    states := [if breaker != null then breaker.Model() else CB.Initial(CB.DefaultConfig(""))];
    BookkeptEmpty<T>(config, operation, isAsync, jitter);
    var attempt: nat := 0;
    while attempt < config.maxRetries + 1
      invariant if config.maxRetries >= 0 then attempt <= config.maxRetries else attempt == 0
      invariant |trace| == attempt
      invariant Bookkept(config, operation, isAsync, jitter, trace, sleeps, ctx.errors, ctx.stats)
      invariant breaker == null ==> Unguarded(trace, call)
      invariant breaker != null ==>
        breaker.Valid() && Guarded(states, trace, clock, isAsync, call)
        && states[0] == old(breaker.Model()) && breaker.Model() == states[|trace|]
      decreases config.maxRetries + 1 - attempt
    {
      ghost var errs, st := ctx.errors, ctx.stats;
      var a, stop, delay := Step(ctx, breaker, attempt, call(attempt), jitter(attempt), clock(attempt), isAsync);
      if breaker != null {
        GuardedSnoc(states, trace, a, breaker.Model(), clock, isAsync, call);
        states := states + [breaker.Model()];
      } else {
        UnguardedSnoc(trace, call);
      }
      BookkeptStep(config, operation, isAsync, jitter, trace, sleeps, errs, st, a, stop, delay, ctx.errors, ctx.stats);
      trace := trace + [a];
      if stop {
        outcome := if a.Failed() then Err(ErrorOf(a, operation)) else a.result;
        return outcome, trace, ctx.stats, ctx.errors, sleeps, states;
      }
      sleeps := sleeps + [delay];
      attempt := attempt + 1;
    }
    // Only reached when the loop never ran: the attempt at `max_retries` always
    // stops it, so the context's error list is empty here.
    outcome := Err(AllRetriesFailed);
    stats, errors := ctx.stats, ctx.errors;
  }
}
