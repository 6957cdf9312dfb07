/**
 * The thread-safe circuit breaker of the self-healing layer and its registry
 * (circuit_breaker.py). Wall-clock reads become a `now` parameter; the
 * state-change callbacks and logging are not modelled.
 *
 * `Breaker` is the value of a breaker's observable fields and the `...Step`
 * functions say what each operation does to it; the class `CircuitBreaker`
 * updates its fields in place and each method is proved to follow its step.
 */
module CircuitBreaker {
  import opened Wrappers

  datatype CircuitState = Closed | Open | HalfOpen

  /** `CircuitBreakerConfig` without its callbacks. */
  datatype Config = Config(
    failureThreshold: int,
    recoveryTimeout: real,
    halfOpenMaxCalls: int,
    successThreshold: int,
    name: string)

  /** `CircuitBreakerConfig(name=name)`: every other field at its default. */
  function DefaultConfig(name: string): Config
  {
    Config(5, 30.0, 3, 2, name)
  }

  /** The counters of `CircuitBreakerStats` (its timestamps are not modelled). */
  datatype Stats = Stats(
    stateChanges: nat,
    failures: nat,
    successes: nat,
    rejected: nat,
    consecutiveSuccesses: nat,
    consecutiveFailures: nat)

  const NoStats := Stats(0, 0, 0, 0, 0, 0)

  datatype Breaker = Breaker(
    config: Config,
    state: CircuitState,
    stats: Stats,
    halfOpenCalls: nat,
    openedAt: Option<real>)

  /**
   * The invariant every reachable breaker keeps: it is closed exactly when no
   * opening time is recorded (so OPEN implies `opened_at` is set), and the
   * half-open call counter never passes its limit once it has left zero.
   */
  predicate Inv(b: Breaker)
  {
    (b.state == Closed <==> b.openedAt.None?)
    && (b.halfOpenCalls == 0 || b.halfOpenCalls <= b.config.halfOpenMaxCalls)
  }

  /** A freshly constructed breaker. */
  function Initial(config: Config): (b: Breaker)
    ensures Inv(b) && b.state == Closed && b.stats == NoStats
  {
    Breaker(config, Closed, NoStats, 0, None)
  }

  /**
   * The recovery test of `can_execute`: `_opened_at` is truthy (set and not
   * 0.0) and at least `recovery_timeout` seconds have passed since it.
   */
  predicate RecoveryDue(b: Breaker, now: real)
  {
    b.openedAt.Some? && b.openedAt.value != 0.0
    && now - b.openedAt.value >= b.config.recoveryTimeout
  }

  /** `can_execute()` at time `now`: the new breaker and whether the call may go through. */
  function CanExecuteStep(b: Breaker, now: real): (r: (Breaker, bool))
    ensures Inv(b) ==> Inv(r.0)
    ensures b.state == Closed ==> r == (b, true)
    ensures b.state == Open && !RecoveryDue(b, now) ==>
      !r.1 && r.0 == b.(stats := b.stats.(rejected := b.stats.rejected + 1))
    ensures b.state == Open && RecoveryDue(b, now) ==>
      r.1 && r.0.state == HalfOpen && r.0.halfOpenCalls == 0
      && r.0.stats.consecutiveSuccesses == 0 && r.0.openedAt == b.openedAt
    ensures b.state == HalfOpen ==>
      r.0.state == HalfOpen && (r.1 <==> b.halfOpenCalls < b.config.halfOpenMaxCalls)
    ensures r.0.config == b.config && r.0.stats.stateChanges == b.stats.stateChanges
    ensures r.1 <==> r.0.stats.rejected == b.stats.rejected
  {
    match b.state
    case Closed => (b, true)
    case Open =>
      if RecoveryDue(b, now) then
        (b.(state := HalfOpen, halfOpenCalls := 0,
            stats := b.stats.(consecutiveSuccesses := 0)), true)
      else
        (b.(stats := b.stats.(rejected := b.stats.rejected + 1)), false)
    case HalfOpen =>
      if b.halfOpenCalls < b.config.halfOpenMaxCalls then
        (b.(halfOpenCalls := b.halfOpenCalls + 1), true)
      else
        (b.(stats := b.stats.(rejected := b.stats.rejected + 1)), false)
  }

  /** `record_success()` */
  function RecordSuccessStep(b: Breaker): (r: Breaker)
    ensures Inv(b) ==> Inv(r)
    ensures r.stats.successes == b.stats.successes + 1
    ensures r.stats.consecutiveSuccesses == b.stats.consecutiveSuccesses + 1
    ensures r.stats.consecutiveFailures == 0
    ensures r.state == Closed <==>
      b.state == Closed
      || (b.state == HalfOpen && b.stats.consecutiveSuccesses + 1 >= b.config.successThreshold)
    ensures r.state != Closed ==> r.state == b.state && r.openedAt == b.openedAt
    ensures b.state != Closed && r.state == Closed ==>
      r.openedAt.None? && r.stats.stateChanges == b.stats.stateChanges + 1
    ensures r.config == b.config && r.halfOpenCalls == b.halfOpenCalls
  {
    var s := b.stats.(successes := b.stats.successes + 1,
                      consecutiveSuccesses := b.stats.consecutiveSuccesses + 1,
                      consecutiveFailures := 0);
    if b.state == HalfOpen && s.consecutiveSuccesses >= b.config.successThreshold then
      b.(state := Closed, stats := s.(stateChanges := s.stateChanges + 1), openedAt := None)
    else
      b.(stats := s)
  }

  /** `record_failure()` at time `now`. */
  function RecordFailureStep(b: Breaker, now: real): (r: Breaker)
    ensures Inv(b) ==> Inv(r)
    ensures r.stats.failures == b.stats.failures + 1
    ensures r.stats.consecutiveFailures == b.stats.consecutiveFailures + 1
    ensures r.stats.consecutiveSuccesses == 0
    ensures b.state == Closed ==>
      (r.state == Open <==> b.stats.consecutiveFailures + 1 >= b.config.failureThreshold)
    ensures b.state == HalfOpen ==> r.state == Open
    ensures b.state == Open ==> r.state == Open && r.openedAt == b.openedAt
    ensures b.state != Open && r.state == Open ==>
      r.openedAt == Some(now) && r.stats.stateChanges == b.stats.stateChanges + 1
    ensures r.state != Open ==> r.state == b.state && r.openedAt == b.openedAt
    ensures r.config == b.config && r.halfOpenCalls == b.halfOpenCalls
  {
    var s := b.stats.(failures := b.stats.failures + 1,
                      consecutiveFailures := b.stats.consecutiveFailures + 1,
                      consecutiveSuccesses := 0);
    if (b.state == Closed && s.consecutiveFailures >= b.config.failureThreshold)
       || b.state == HalfOpen then
      b.(state := Open, openedAt := Some(now), stats := s.(stateChanges := s.stateChanges + 1))
    else
      b.(stats := s)
  }

  /** `force_open()` at time `now`. */
  function ForceOpenStep(b: Breaker, now: real): (r: Breaker)
    ensures Inv(b) ==> Inv(r)
    ensures r.state == Open
    ensures b.state == Open ==> r == b
    ensures b.state != Open ==>
      r.openedAt == Some(now) && r.stats == b.stats.(stateChanges := b.stats.stateChanges + 1)
      && r.halfOpenCalls == b.halfOpenCalls && r.config == b.config
  {
    if b.state != Open then
      b.(state := Open, openedAt := Some(now),
         stats := b.stats.(stateChanges := b.stats.stateChanges + 1))
    else b
  }

  /** `force_close()`; note it leaves the half-open call counter as it was. */
  function ForceCloseStep(b: Breaker): (r: Breaker)
    ensures Inv(b) ==> Inv(r)
    ensures r.state == Closed && (Inv(b) ==> r.openedAt.None?)
    ensures b.state == Closed ==> r == b
    ensures b.state != Closed ==>
      r.openedAt.None?
      && r.stats == b.stats.(stateChanges := b.stats.stateChanges + 1, consecutiveFailures := 0)
      && r.halfOpenCalls == b.halfOpenCalls && r.config == b.config
  {
    if b.state != Closed then
      b.(state := Closed, openedAt := None,
         stats := b.stats.(stateChanges := b.stats.stateChanges + 1, consecutiveFailures := 0))
    else b
  }

  /** `n` successive `record_failure()` calls at time `now`. */
  function Failures(b: Breaker, n: nat, now: real): Breaker
    decreases n
  {
    if n == 0 then b else Failures(RecordFailureStep(b, now), n - 1, now)
  }

  /** `n` successive `record_success()` calls. */
  function Successes(b: Breaker, n: nat): Breaker
    decreases n
  {
    if n == 0 then b else Successes(RecordSuccessStep(b), n - 1)
  }

  /** `n` successive `can_execute()` calls at time `now`, with how many returned true. */
  function Checks(b: Breaker, n: nat, now: real): (Breaker, nat)
    decreases n
  {
    if n == 0 then (b, 0)
    else
      var (b1, ok) := CanExecuteStep(b, now);
      var (b2, k) := Checks(b1, n - 1, now);
      (b2, k + (if ok then 1 else 0))
  }

  /** Once open, further failures keep the breaker open without re-arming it. */
  lemma {:induction false} FailuresKeepOpen(b: Breaker, n: nat, now: real)
    requires b.state == Open
    ensures Failures(b, n, now).state == Open
    ensures Failures(b, n, now).openedAt == b.openedAt
    decreases n
  {
    if n > 0 {
      FailuresKeepOpen(RecordFailureStep(b, now), n - 1, now);
    }
  }

  /**
   * While closed, the breaker opens (with `opened_at` set to the time of the
   * tripping failure) exactly when `failure_threshold` consecutive failures
   * have been seen; with fewer it stays closed.
   */
  lemma {:induction false} ConsecutiveFailuresOpen(b: Breaker, n: nat, now: real)
    requires Inv(b) && b.state == Closed && n >= 1
    ensures Failures(b, n, now).state == Open <==>
      b.stats.consecutiveFailures + n >= b.config.failureThreshold
    ensures Failures(b, n, now).state == Open ==> Failures(b, n, now).openedAt == Some(now)
    ensures Failures(b, n, now).state != Open ==> Failures(b, n, now).state == Closed
    decreases n
  {
    var b1 := RecordFailureStep(b, now);
    if b1.state == Open {
      FailuresKeepOpen(b1, n - 1, now);
    } else if n > 1 {
      ConsecutiveFailuresOpen(b1, n - 1, now);
    }
  }

  /** Once closed, successes keep it closed. */
  lemma {:induction false} SuccessesKeepClosed(b: Breaker, n: nat)
    requires Inv(b) && b.state == Closed
    ensures Successes(b, n).state == Closed && Successes(b, n).openedAt.None?
    decreases n
  {
    if n > 0 {
      SuccessesKeepClosed(RecordSuccessStep(b), n - 1);
    }
  }

  /**
   * In HALF_OPEN, the breaker closes and clears `opened_at` exactly once
   * `success_threshold` consecutive successes have been counted.
   */
  lemma {:induction false} ConsecutiveSuccessesClose(b: Breaker, n: nat)
    requires Inv(b) && b.state == HalfOpen && n >= 1
    ensures Successes(b, n).state == Closed <==>
      b.stats.consecutiveSuccesses + n >= b.config.successThreshold
    ensures Successes(b, n).state == Closed ==> Successes(b, n).openedAt.None?
    ensures Successes(b, n).state != Closed ==> Successes(b, n).state == HalfOpen
    decreases n
  {
    var b1 := RecordSuccessStep(b);
    if b1.state == Closed {
      SuccessesKeepClosed(b1, n - 1);
    } else if n > 1 {
      ConsecutiveSuccessesClose(b1, n - 1);
    }
  }

  /**
   * In HALF_OPEN, of `n` further checks exactly
   * min(n, half_open_max_calls - half_open_calls) go through (none once the
   * limit is reached), and the breaker stays half-open with the counter
   * within its limit.
   */
  lemma {:induction false} HalfOpenAdmitsAtMost(b: Breaker, n: nat, now: real)
    requires Inv(b) && b.state == HalfOpen
    ensures var (b2, k) := Checks(b, n, now);
      var room := if b.halfOpenCalls < b.config.halfOpenMaxCalls
                  then b.config.halfOpenMaxCalls - b.halfOpenCalls else 0;
      b2.state == HalfOpen && Inv(b2)
      && k == (if n < room then n else room)
      && b2.halfOpenCalls == b.halfOpenCalls + k
    decreases n
  {
    if n > 0 {
      HalfOpenAdmitsAtMost(CanExecuteStep(b, now).0, n - 1, now);
    }
  }

  /** A breaker whose fields the operations update in place. */
  class CircuitBreaker {
    const config: Config
    var state: CircuitState
    var stats: Stats
    var halfOpenCalls: nat
    var openedAt: Option<real>

    /** The observable fields as one value. */
    function Model(): Breaker
      reads this
    {
      Breaker(config, state, stats, halfOpenCalls, openedAt)
    }

    predicate Valid()
      reads this
    {
      Inv(Model())
    }

    constructor (config: Config)
      ensures Model() == Initial(config) && Valid()
    {
      this.config := config;
      state := Closed;
      stats := NoStats;
      halfOpenCalls := 0;
      openedAt := None;
    }

    method CanExecute(now: real) returns (allowed: bool)
      requires Valid()
      modifies this
      ensures Valid()
      ensures (Model(), allowed) == CanExecuteStep(old(Model()), now)
    {
      if state == Closed {
        return true;
      } else if state == Open {
        if openedAt.Some? && openedAt.value != 0.0 && now - openedAt.value >= config.recoveryTimeout {
          state := HalfOpen;
          halfOpenCalls := 0;
          stats := stats.(consecutiveSuccesses := 0);
          return true;
        } else {
          stats := stats.(rejected := stats.rejected + 1);
          return false;
        }
      } else {
        if halfOpenCalls < config.halfOpenMaxCalls {
          halfOpenCalls := halfOpenCalls + 1;
          return true;
        } else {
          stats := stats.(rejected := stats.rejected + 1);
          return false;
        }
      }
    }

    method RecordSuccess()
      requires Valid()
      modifies this
      ensures Valid()
      ensures Model() == RecordSuccessStep(old(Model()))
    {
      stats := stats.(successes := stats.successes + 1,
                      consecutiveSuccesses := stats.consecutiveSuccesses + 1,
                      consecutiveFailures := 0);
      if state == HalfOpen {
        if stats.consecutiveSuccesses >= config.successThreshold {
          state := Closed;
          stats := stats.(stateChanges := stats.stateChanges + 1);
          openedAt := None;
        }
      }
    }

    method RecordFailure(now: real)
      requires Valid()
      modifies this
      ensures Valid()
      ensures Model() == RecordFailureStep(old(Model()), now)
    {
      stats := stats.(failures := stats.failures + 1,
                      consecutiveFailures := stats.consecutiveFailures + 1,
                      consecutiveSuccesses := 0);
      if state == Closed {
        if stats.consecutiveFailures >= config.failureThreshold {
          state := Open;
          openedAt := Some(now);
          stats := stats.(stateChanges := stats.stateChanges + 1);
        }
      } else if state == HalfOpen {
        state := Open;
        openedAt := Some(now);
        stats := stats.(stateChanges := stats.stateChanges + 1);
      }
    }

    method ForceOpen(now: real)
      requires Valid()
      modifies this
      ensures Valid()
      ensures Model() == ForceOpenStep(old(Model()), now)
    {
      if state != Open {
        state := Open;
        openedAt := Some(now);
        stats := stats.(stateChanges := stats.stateChanges + 1);
      }
    }

    method ForceClose()
      requires Valid()
      modifies this
      ensures Valid()
      ensures Model() == ForceCloseStep(old(Model()))
    {
      if state != Closed {
        state := Closed;
        stats := stats.(stateChanges := stats.stateChanges + 1);
        openedAt := None;
        stats := stats.(consecutiveFailures := 0);
      }
    }
  }

  /** `CircuitBreakerRegistry`: breakers by name. */
  class Registry {
    var breakers: map<string, CircuitBreaker>

    predicate Valid()
      reads this, breakers.Values
    {
      forall n :: n in breakers ==> breakers[n].Valid()
    }

    constructor ()
      ensures Valid() && breakers == map[]
    {
      breakers := map[];
    }

    /**
     * `get_or_create(name, config)`: an existing breaker is returned as is;
     * otherwise a fresh closed one, configured by `config` or by the defaults
     * under `name`, is registered and returned.
     */
    method GetOrCreate(name: string, config: Option<Config>) returns (cb: CircuitBreaker)
      requires Valid()
      modifies this
      ensures Valid()
      ensures name in breakers && breakers[name] == cb
      ensures name in old(breakers) ==> cb == old(breakers[name]) && breakers == old(breakers)
      ensures name !in old(breakers) ==>
        fresh(cb) && breakers == old(breakers)[name := cb]
        && cb.Model() == Initial(config.GetOr(DefaultConfig(name)))
    {
      if name !in breakers {
        var cfg := if config.Some? then config.value else DefaultConfig(name);
        var created := new CircuitBreaker(cfg);
        breakers := breakers[name := created];
      }
      cb := breakers[name];
    }

    /** `get(name)` */
    function Get(name: string): (r: Option<CircuitBreaker>)
      reads this
      ensures r.Some? <==> name in breakers
      ensures r.Some? ==> r.value == breakers[name]
    {
      if name in breakers then Some(breakers[name]) else None
    }

    /** `remove(name)`: only that name goes; an absent name changes nothing. */
    method Remove(name: string)
      requires Valid()
      modifies this
      ensures Valid()
      ensures breakers == old(breakers) - {name}
    {
      if name in breakers {
        breakers := breakers - {name};
      }
    }

    /** `reset_all()`: every registered breaker is force-closed. */
    method ResetAll()
      requires Valid()
      modifies breakers.Values
      ensures Valid()
      ensures forall n :: n in breakers ==> breakers[n].Model() == ForceCloseStep(old(breakers[n].Model()))
      ensures forall n :: n in breakers ==> breakers[n].state == Closed && breakers[n].openedAt.None?
    {
      var todo := breakers.Keys;
      while todo != {}
        invariant todo <= breakers.Keys
        invariant Valid()
        // Two names may share one breaker, so a name still to do may already be closed.
        invariant forall n :: n in breakers ==>
          breakers[n].Model() == old(breakers[n].Model())
          || breakers[n].Model() == ForceCloseStep(old(breakers[n].Model()))
        invariant forall n :: n in breakers && n !in todo ==>
          breakers[n].Model() == ForceCloseStep(old(breakers[n].Model()))
        decreases |todo|
      {
        var n :| n in todo;
        breakers[n].ForceClose();
        todo := todo - {n};
      }
    }
  }
}
