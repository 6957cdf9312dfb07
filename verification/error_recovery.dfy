/**
 * The agent bot's error-recovery utilities
 * (invoice_agent_bot/src/utils/error_recovery.py): a jittered backoff
 * formula, the retry-with-backoff wrapper, a second circuit-breaker variant
 * with a failure counter that successes wind down, the recovery manager that
 * owns breakers and a bounded error history, and the severity and
 * recoverability classifiers.
 *
 * `random.random()` is supplied by the caller as a value in [0, 1), each
 * awaited call of the wrapped function as its outcome, and the clock as `now`.
 */
module ErrorRecovery {
  import opened Wrappers
  import opened Exceptions
  import opened Numeric

  datatype ErrorSeverity = Low | Medium | High | Critical

  /** `RetryConfig` (the exception tuple is a parameter of the wrapper). */
  datatype RetryConfig = RetryConfig(
    maxAttempts: int,
    baseDelay: real,
    maxDelay: real,
    exponentialBase: real,
    jitter: bool)

  /** The configuration the wrapper builds: jitter on, exponential base 2. */
  function WrapperConfig(attempts: int, baseDelay: real, maxDelay: real): RetryConfig
  {
    RetryConfig(attempts, baseDelay, maxDelay, 2.0, true)
  }

  /**
   * `calculate_delay(attempt, config)` with `random.random()` given as `r`:
   * the capped exponential delay, scaled into [0.5, 1) of itself by jitter.
   */
  function CalculateDelay(attempt: nat, config: RetryConfig, r: real): (d: real)
    requires 0.0 <= r < 1.0
    ensures var capped := CappedPow(config.baseDelay, config.exponentialBase, config.maxDelay, attempt);
      (!config.jitter ==> d == capped)
      && (config.jitter && capped >= 0.0 ==> capped * 0.5 <= d <= capped)
      && (config.maxDelay >= 0.0 ==> d <= config.maxDelay)
  {
    var delay := CappedPow(config.baseDelay, config.exponentialBase, config.maxDelay, attempt);
    if config.jitter then JitterBounds(delay, r); delay * (0.5 + r * 0.5) else delay
  }

  lemma JitterBounds(delay: real, r: real)
    requires 0.0 <= r < 1.0
    ensures delay >= 0.0 ==> delay * 0.5 <= delay * (0.5 + r * 0.5) <= delay
    ensures delay < 0.0 ==> delay * (0.5 + r * 0.5) <= 0.0
  {
    assert delay * (0.5 + r * 0.5) == delay * 0.5 + (delay * r) * 0.5;
    if delay >= 0.0 {
      ScaleMonotone(delay, 0.0, r);
      ScaleMonotone(delay, r, 1.0);
    } else {
      ScaleMonotone(-delay, 0.0, r);
    }
  }

  /** Without jitter, and with a non-negative base delay and a base of at least 1, later attempts never wait less. */
  lemma DelayNonDecreasing(config: RetryConfig, m: nat, n: nat)
    requires !config.jitter && config.baseDelay >= 0.0 && config.exponentialBase >= 1.0 && m <= n
    ensures CalculateDelay(m, config, 0.0) <= CalculateDelay(n, config, 0.0)
  {
    CappedPowMonotone(config.baseDelay, config.exponentialBase, config.maxDelay, m, n);
  }

  /** Python's `x or default` for an optional count: `None` and 0 fall back. */
  function OrInt(x: Option<int>, default: int): int
  {
    if x.Some? && x.value != 0 then x.value else default
  }

  /** Python's `x or default` for an optional delay: `None` and 0.0 fall back. */
  function OrReal(x: Option<real>, default: real): real
  {
    if x.Some? && x.value != 0.0 then x.value else default
  }

  const LoopExitError := Raise("RuntimeError", "Unexpected retry loop exit")

  /**
   * The `retry_with_backoff` wrapper around one invocation. Attempt `i` of
   * the wrapped function ends as `call(i)`; `random(i)` is the jitter draw
   * for the delay after attempt `i`. Returns the outcome, how many times the
   * function ran, and the delays slept, in order. The retry and failure
   * callbacks are not modelled (their own errors are swallowed).
   */
  method RetryWithBackoff<T>(
    maxAttempts: Option<int>, baseDelay: Option<real>, maxDelay: real, retryable: seq<string>,
    settingsAttempts: int, settingsDelayBase: real,
    call: nat -> Result<T, Exc>, random: nat -> real)
    returns (outcome: Result<T, Exc>, calls: nat, sleeps: seq<real>)
    requires forall i :: 0.0 <= random(i) < 1.0
    ensures var attempts := OrInt(maxAttempts, settingsAttempts);
      (calls == 0 <==> attempts <= 0) && calls <= if attempts < 0 then 0 else attempts
    ensures calls == 0 ==> outcome == Err(LoopExitError) && sleeps == []
    ensures calls > 0 ==> outcome == call(calls - 1) && |sleeps| == calls - 1
    ensures forall i :: 0 <= i < calls - 1 ==> call(i).Err? && IsInstanceAny(call(i).error, retryable)
    ensures outcome.Err? && calls < OrInt(maxAttempts, settingsAttempts) ==>
      !IsInstanceAny(outcome.error, retryable)
    ensures var config := WrapperConfig(OrInt(maxAttempts, settingsAttempts),
                                        OrReal(baseDelay, settingsDelayBase), maxDelay);
      forall i :: 0 <= i < |sleeps| ==> sleeps[i] == CalculateDelay(i, config, random(i))
  {
    var attempts := OrInt(maxAttempts, settingsAttempts);
    var config := WrapperConfig(attempts, OrReal(baseDelay, settingsDelayBase), maxDelay);
    calls, sleeps := 0, [];
    var attempt := 0;
    while attempt < attempts
      invariant 0 <= attempt && (if attempts > 0 then attempt < attempts else attempt == 0)
      invariant calls == attempt && |sleeps| == attempt
      invariant forall i :: 0 <= i < attempt ==> call(i).Err? && IsInstanceAny(call(i).error, retryable)
      invariant forall i :: 0 <= i < |sleeps| ==> sleeps[i] == CalculateDelay(i, config, random(i))
      decreases attempts - attempt
    {
      var result := call(attempt);
      calls := calls + 1;
      if result.Ok? {
        return result, calls, sleeps;
      }
      if !IsInstanceAny(result.error, retryable) {
        return result, calls, sleeps;
      }
      if attempt < attempts - 1 {
        sleeps := sleeps + [CalculateDelay(attempt, config, random(attempt))];
      } else {
        return result, calls, sleeps;
      }
      attempt := attempt + 1;
    }
    outcome := Err(LoopExitError);
  }

  datatype BreakerState = Closed | Open | HalfOpen

  /** The fields of the agent bot's `CircuitBreaker`. */
  datatype Breaker = Breaker(
    failureThreshold: int,
    cooldownSeconds: real,
    halfOpenMaxCalls: int,
    failures: nat,
    lastFailureTime: Option<real>,
    state: BreakerState,
    halfOpenCalls: nat)

  /** `CircuitBreaker()` with its defaults. */
  function NewBreaker(): (b: Breaker)
    ensures b.state == Closed && b.failures == 0 && Inv(b)
  {
    Breaker(5, 60.0, 3, 0, None, Closed, 0)
  }

  /** A breaker that is not closed has seen a failure (so the cooldown test has a time to use). */
  predicate Inv(b: Breaker)
  {
    b.state != Closed ==> b.lastFailureTime.Some?
  }

  predicate CooledDown(b: Breaker, now: real)
  {
    b.lastFailureTime.Some? && now - b.lastFailureTime.value >= b.cooldownSeconds
  }

  /**
   * The `is_open` property at time `now`: the new breaker and its answer.
   * An open breaker whose cooldown has passed turns half-open and reports
   * false; only an open breaker still cooling down reports true.
   */
  function IsOpenStep(b: Breaker, now: real): (r: (Breaker, bool))
    ensures Inv(b) ==> Inv(r.0)
    ensures r.1 <==> b.state == Open && !CooledDown(b, now)
    ensures r.1 || b.state != Open ==> r.0 == b
    ensures b.state == Open && CooledDown(b, now) ==>
      r.0 == b.(state := HalfOpen, halfOpenCalls := 0)
  {
    if b.state == Open then
      if CooledDown(b, now) then (b.(state := HalfOpen, halfOpenCalls := 0), false)
      else (b, true)
    else (b, false)
  }

  /** `record_success()` */
  function RecordSuccessStep(b: Breaker): (r: Breaker)
    ensures Inv(b) ==> Inv(r)
    ensures b.state == HalfOpen ==>
      r.halfOpenCalls == b.halfOpenCalls + 1
      && (r.state == Closed <==> b.halfOpenCalls + 1 >= b.halfOpenMaxCalls)
      && (r.state == Closed ==> r.failures == 0)
      && (r.state != Closed ==> r.state == HalfOpen && r.failures == b.failures)
    ensures b.state != HalfOpen ==>
      r.state == b.state && r.failures == (if b.failures > 0 then b.failures - 1 else 0)
    ensures r.lastFailureTime == b.lastFailureTime
  {
    if b.state == HalfOpen then
      var calls := b.halfOpenCalls + 1;
      if calls >= b.halfOpenMaxCalls then b.(halfOpenCalls := calls, state := Closed, failures := 0)
      else b.(halfOpenCalls := calls)
    else
      b.(failures := if b.failures > 0 then b.failures - 1 else 0)
  }

  /** `record_failure()` at time `now`. */
  function RecordFailureStep(b: Breaker, now: real): (r: Breaker)
    ensures Inv(r)
    ensures r.failures == b.failures + 1 && r.lastFailureTime == Some(now)
    ensures b.state == HalfOpen ==> r.state == Open
    ensures b.state != HalfOpen ==>
      (r.state == Open <==> b.state == Open || b.failures + 1 >= b.failureThreshold)
    ensures r.state != Open ==> r.state == b.state
    ensures r.halfOpenCalls == b.halfOpenCalls
  {
    var b1 := b.(failures := b.failures + 1, lastFailureTime := Some(now));
    if b.state == HalfOpen then b1.(state := Open)
    else if b1.failures >= b.failureThreshold then b1.(state := Open)
    else b1
  }

  function Successes(b: Breaker, n: nat): Breaker
    decreases n
  {
    if n == 0 then b else Successes(RecordSuccessStep(b), n - 1)
  }

  /** While closed, each success takes one off the failure count, down to 0. */
  lemma {:induction false} SuccessesWindDown(b: Breaker, n: nat)
    requires b.state == Closed
    ensures Successes(b, n).state == Closed
    ensures Successes(b, n).failures == if b.failures >= n then b.failures - n else 0
    decreases n
  {
    if n > 0 {
      SuccessesWindDown(RecordSuccessStep(b), n - 1);
    }
  }

  /** In half-open, the breaker closes with failures reset once `half_open_max_calls` successes have been counted. */
  lemma {:induction false} HalfOpenSuccessesClose(b: Breaker, n: nat)
    requires b.state == HalfOpen && n >= 1
    ensures Successes(b, n).state == Closed <==> b.halfOpenCalls + n >= b.halfOpenMaxCalls
    ensures Successes(b, n).state != Closed ==> Successes(b, n).state == HalfOpen
    ensures Successes(b, n).state == Closed ==> Successes(b, n).failures == 0
    decreases n
  {
    var b1 := RecordSuccessStep(b);
    if b1.state == Closed {
      SuccessesWindDown(b1, n - 1);
    } else if n > 1 {
      HalfOpenSuccessesClose(b1, n - 1);
    }
  }

  /** The agent bot's circuit breaker, updated in place. */
  class CircuitBreaker {
    const failureThreshold: int
    const cooldownSeconds: real
    const halfOpenMaxCalls: int
    var failures: nat
    var lastFailureTime: Option<real>
    var state: BreakerState
    var halfOpenCalls: nat

    function Model(): Breaker
      reads this
    {
      Breaker(failureThreshold, cooldownSeconds, halfOpenMaxCalls, failures, lastFailureTime, state, halfOpenCalls)
    }

    predicate Valid()
      reads this
    {
      Inv(Model())
    }

    constructor ()
      ensures Model() == NewBreaker() && Valid()
    {
      failureThreshold := 5;
      cooldownSeconds := 60.0;
      halfOpenMaxCalls := 3;
      failures := 0;
      lastFailureTime := None;
      state := Closed;
      halfOpenCalls := 0;
    }

    method IsOpen(now: real) returns (open: bool)
      requires Valid()
      modifies this
      ensures Valid()
      ensures (Model(), open) == IsOpenStep(old(Model()), now)
    {
      if state == Open {
        if lastFailureTime.Some? {
          var elapsed := now - lastFailureTime.value;
          if elapsed >= cooldownSeconds {
            state := HalfOpen;
            halfOpenCalls := 0;
            return false;
          }
        }
        return true;
      }
      return false;
    }

    method RecordSuccess()
      requires Valid()
      modifies this
      ensures Valid()
      ensures Model() == RecordSuccessStep(old(Model()))
    {
      if state == HalfOpen {
        halfOpenCalls := halfOpenCalls + 1;
        if halfOpenCalls >= halfOpenMaxCalls {
          state := Closed;
          failures := 0;
        }
      } else {
        failures := if failures > 0 then failures - 1 else 0;
      }
    }

    method RecordFailure(now: real)
      requires Valid()
      modifies this
      ensures Valid()
      ensures Model() == RecordFailureStep(old(Model()), now)
    {
      failures := failures + 1;
      lastFailureTime := Some(now);
      if state == HalfOpen {
        state := Open;
      } else if failures >= failureThreshold {
        state := Open;
      }
    }
  }

  /** One entry of the error history (its timestamp is the `now` of the call). */
  datatype ErrorEntry = ErrorEntry(timestamp: real, typeName: string, message: string, context: map<string, string>)

  const MaxHistory: nat := 100

  /** The history after appending: only the newest `MaxHistory` entries are kept. */
  function Trimmed(h: seq<ErrorEntry>): (r: seq<ErrorEntry>)
    ensures |r| <= MaxHistory
    ensures |h| <= MaxHistory ==> r == h
    ensures |h| > MaxHistory ==> |r| == MaxHistory
    ensures r == h[|h| - |r|..]
  {
    if |h| > MaxHistory then h[|h| - MaxHistory..] else h
  }

  /** How many entries of `h` have the given type name. */
  function CountType(h: seq<ErrorEntry>, t: string): (n: nat)
    ensures n <= |h|
  {
    if h == [] then 0 else (if h[0].typeName == t then 1 else 0) + CountType(h[1..], t)
  }

  /** `get_error_stats()`: total, counts by type, and the last ten entries. */
  datatype ErrorStats = ErrorStats(total: nat, byType: map<string, nat>, recent: seq<ErrorEntry>)

  function GetErrorStats(h: seq<ErrorEntry>): (s: ErrorStats)
    ensures s.total == |h|
    ensures s.byType.Keys == set i | 0 <= i < |h| :: h[i].typeName
    ensures forall t :: t in s.byType ==> 1 <= s.byType[t] == CountType(h, t) <= |h|
    ensures |s.recent| == (if |h| < 10 then |h| else 10) && s.recent == h[|h| - |s.recent|..]
  {
    var types := set i | 0 <= i < |h| :: h[i].typeName;
    forall t | t in types ensures CountType(h, t) >= 1 {
      var i :| 0 <= i < |h| && h[i].typeName == t;
      CountTypeAt(h, t, i);
    }
    ErrorStats(|h|, map t | t in types :: CountType(h, t),
               if |h| < 10 then h else h[|h| - 10..])
  }

  lemma {:induction false} CountTypeAt(h: seq<ErrorEntry>, t: string, i: nat)
    requires i < |h| && h[i].typeName == t
    ensures CountType(h, t) >= 1
  {
    if i > 0 {
      CountTypeAt(h[1..], t, i - 1);
    }
  }

  /** The error the manager raises when a breaker is open and there is no fallback. */
  function CircuitOpenError(name: string): (e: Exc)
    ensures IsInstance(e, "ProcessingError") && !e.recoverable
  {
    Exc(["ProcessingError", "Exception", "BaseException", "object"],
        "Circuit breaker open for " + name, false)
  }

  /** `ErrorRecoveryManager`: breakers by name and a bounded error history. */
  class ErrorRecoveryManager {
    var breakers: map<string, CircuitBreaker>
    var errorHistory: seq<ErrorEntry>

    predicate Valid()
      reads this, breakers.Values
    {
      |errorHistory| <= MaxHistory && forall n :: n in breakers ==> breakers[n].Valid()
    }

    constructor ()
      ensures Valid() && breakers == map[] && errorHistory == []
    {
      breakers := map[];
      errorHistory := [];
    }

    /** `get_circuit_breaker(name)`: get or create, so repeated calls return the same breaker. */
    method GetCircuitBreaker(name: string) returns (cb: CircuitBreaker)
      requires Valid()
      modifies this
      ensures Valid() && errorHistory == old(errorHistory)
      ensures name in breakers && breakers[name] == cb
      ensures name in old(breakers) ==> cb == old(breakers[name]) && breakers == old(breakers)
      ensures name !in old(breakers) ==>
        fresh(cb) && cb.Model() == NewBreaker() && breakers == old(breakers)[name := cb]
    {
      if name !in breakers {
        var created := new CircuitBreaker();
        breakers := breakers[name := created];
      }
      cb := breakers[name];
    }

    /** `record_error(error, context)` at time `now`. */
    method RecordError(error: Exc, context: map<string, string>, now: real)
      requires Valid()
      modifies this
      ensures Valid() && breakers == old(breakers)
      ensures errorHistory ==
        Trimmed(old(errorHistory) + [ErrorEntry(now, error.TypeName(), error.message, context)])
      ensures errorHistory[|errorHistory| - 1] == ErrorEntry(now, error.TypeName(), error.message, context)
    {
      var entry := ErrorEntry(now, error.TypeName(), error.message, context);
      errorHistory := errorHistory + [entry];
      if |errorHistory| > MaxHistory {
        errorHistory := errorHistory[|errorHistory| - MaxHistory..];
      }
    }

    /**
     * `execute_with_recovery(func, fallback, circuit_breaker_name)` at time
     * `now`. `primary` is how the function ends if it runs, `fallback` how
     * the fallback ends if one is given; `breakerName == ""` means no breaker.
     * Only an `Exception` is caught: any other error of the primary function
     * (a `KeyboardInterrupt`, an `asyncio.CancelledError`) propagates with no
     * history entry, no breaker failure and no fallback.
     * Returns the outcome and whether the primary function ran.
     */
    method ExecuteWithRecovery<T>(
      primary: Result<T, Exc>, funcName: string, fallback: Option<Result<T, Exc>>,
      breakerName: string, now: real)
      returns (outcome: Result<T, Exc>, ran: bool)
      requires Valid()
      modifies this, breakers.Values
      ensures Valid()
      ensures var before := if breakerName in old(breakers) then old(breakers[breakerName].Model()) else NewBreaker();
        (!ran <==> breakerName != "" && IsOpenStep(before, now).1)
        && (breakerName != "" ==>
              (breakerName in breakers
               && breakers[breakerName].Model() ==
                  (var b1 := IsOpenStep(before, now).0;
                   if !ran then b1
                   else if primary.Ok? then RecordSuccessStep(b1)
                   else if IsInstance(primary.error, "Exception") then RecordFailureStep(b1, now)
                   else b1)))
    ensures !ran ==>
        outcome == (if fallback.Some? then fallback.value else Err(CircuitOpenError(breakerName)))
    ensures ran && primary.Ok? ==> outcome == primary && errorHistory == old(errorHistory)
    ensures ran && primary.Err? && !IsInstance(primary.error, "Exception") ==>
        outcome == primary && errorHistory == old(errorHistory)
    ensures ran && primary.Err? && IsInstance(primary.error, "Exception") ==>
        outcome == (if fallback.Some? then fallback.value else primary)
        && errorHistory == Trimmed(old(errorHistory) +
             [ErrorEntry(now, primary.error.TypeName(), primary.error.message, map["function" := funcName])])
    {
      var cb: CircuitBreaker? := null;
      if breakerName != "" {
        var open;
        cb, open := Admit(breakerName, now);
        if open {
          ran := false;
          if fallback.Some? {
            return fallback.value, ran;
          }
          return Err(CircuitOpenError(breakerName)), ran;
        }
      }
      ran := true;
      if primary.Ok? {
        if cb != null {
          Settle(cb, true, now);
        }
        return primary, ran;
      }
      if !IsInstance(primary.error, "Exception") {
        return primary, ran;
      }
      RecordError(primary.error, map["function" := funcName], now);
      if cb != null {
        Settle(cb, false, now);
      }
      if fallback.Some? {
        return fallback.value, ran;
      }
      return primary, ran;
    }

    /** The breaker check that opens `execute_with_recovery`: get or create the breaker, then ask whether it is open. */
    method Admit(name: string, now: real) returns (cb: CircuitBreaker, open: bool)
      requires Valid() && name != ""
      modifies this, breakers.Values
      ensures Valid() && errorHistory == old(errorHistory)
      ensures name in breakers && breakers[name] == cb
      ensures name in old(breakers) ==> cb == old(breakers[name])
      ensures name !in old(breakers) ==> fresh(cb)
      ensures var before := if name in old(breakers) then old(breakers[name].Model()) else NewBreaker();
        (cb.Model(), open) == IsOpenStep(before, now)
    {
      cb := GetCircuitBreaker(name);
      open := cb.IsOpen(now);
    }

    /** The breaker update after the primary function ran: a success or a failure at `now`. */
    method Settle(cb: CircuitBreaker, ok: bool, now: real)
      requires Valid() && cb in breakers.Values
      modifies cb
      ensures Valid()
      ensures cb.Model() == if ok then RecordSuccessStep(old(cb.Model())) else RecordFailureStep(old(cb.Model()), now)
    {
      if ok {
        cb.RecordSuccess();
      } else {
        cb.RecordFailure(now);
      }
    }
  }

  const ProcessingClasses := ["AIError", "DocumentError", "ValidationError", "ProcessingError"]

  /** `classify_error(error)`: severity by exception class, MEDIUM by default. */
  function ClassifyError(e: Exc): (s: ErrorSeverity)
    ensures s != Critical
    ensures s == Low <==>
      IsInstance(e, "ValidationError") && !IsInstance(e, "AIError") && !IsInstance(e, "DocumentError")
    ensures s == High <==>
      (IsInstance(e, "PermissionError") || IsInstance(e, "FileNotFoundError"))
      && !IsInstanceAny(e, ["AIError", "DocumentError", "ValidationError", "ConnectionError", "TimeoutError"])
  {
    if IsInstance(e, "AIError") || IsInstance(e, "DocumentError") then Medium
    else if IsInstance(e, "ValidationError") then Low
    else if IsInstance(e, "ConnectionError") || IsInstance(e, "TimeoutError") then Medium
    else if IsInstance(e, "PermissionError") || IsInstance(e, "FileNotFoundError") then High
    else Medium
  }

  const UnrecoverableClasses := ["ValueError", "TypeError", "KeyError", "AttributeError", "NotImplementedError"]

  /**
   * `is_recoverable(error)`: a `ProcessingError` answers with its own flag;
   * otherwise the five programming-error classes are unrecoverable and
   * everything else is recoverable.
   */
  function IsRecoverable(e: Exc): (r: bool)
    ensures IsInstance(e, "ProcessingError") ==> r == e.recoverable
    ensures !IsInstance(e, "ProcessingError") ==>
      (r <==> forall c :: c in UnrecoverableClasses ==> c !in e.mro)
  {
    if IsInstance(e, "ProcessingError") then e.recoverable
    else !IsInstanceAny(e, UnrecoverableClasses)
  }
}
