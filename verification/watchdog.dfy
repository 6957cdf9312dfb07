/**
 * The watchdog and health monitor of the self-healing bot
 * (invoice_bot/watchdog.py): a periodic check that fails every task running
 * well past its timeout, with counters of what it found and did, and the
 * health verdict over the orchestrator's report.
 *
 * The background loop, its sleeps and the periodic health log are not
 * modelled; one check is one call of `CheckHealth` at time `now`.
 */
module Watchdog {
  import opened Wrappers
  import opened Numeric
  import opened Orchestrator

  const DefaultCheckInterval := 5.0
  const DefaultStuckThreshold := 1.5

  /** The watchdog's own test: elapsed beyond `threshold` times the task's timeout. */
  predicate BeyondThreshold(t: TrackedTask, now: real, threshold: real)
  {
    t.Elapsed(now) > t.timeoutSeconds * threshold
  }

  /**
   * The loop of `_check_health` over the stuck tasks: the registry after
   * recovering each task beyond the threshold, the bot calls made, and how
   * many recoveries were triggered.
   */
  function Swept(s: Registry, tasks: seq<TrackedTask>, now: real, threshold: real): (r: (Registry, seq<BotCall>, nat))
    ensures r.2 <= |tasks|
    ensures s.Valid() ==> r.0.Valid()
    ensures r.0.Ids() == s.Ids()
    ensures (forall i :: 0 <= i < |tasks| ==> !BeyondThreshold(tasks[i], now, threshold)) ==> r == (s, [], 0)
    decreases |tasks|
  {
    if tasks == [] then (s, [], 0)
    else
      var prev := Swept(s, tasks[..|tasks| - 1], now, threshold);
      var step := SweepStep(prev.0, tasks[|tasks| - 1], now, threshold);
      (step.0, prev.1 + step.1, prev.2 + step.2)
  }

  /** One pass of that loop: the registry, the bot calls and the recoveries (0 or 1). */
  function SweepStep(s: Registry, t: TrackedTask, now: real, threshold: real): (r: (Registry, seq<BotCall>, nat))
    ensures r.2 == (if BeyondThreshold(t, now, threshold) then 1 else 0)
    ensures !BeyondThreshold(t, now, threshold) ==> r == (s, [], 0)
    ensures BeyondThreshold(t, now, threshold) ==> (r.0, r.1) == RecoveredStuck(s, t)
  {
    if BeyondThreshold(t, now, threshold) then
      var (s1, calls) := RecoveredStuck(s, t);
      (s1, calls, 1)
    else (s, [], 0)
  }

  /** The sweep over one more task is one more step. */
  lemma SweptSnoc(s: Registry, tasks: seq<TrackedTask>, i: nat, now: real, threshold: real)
    requires i < |tasks|
    ensures var prev := Swept(s, tasks[..i], now, threshold);
      var step := SweepStep(prev.0, tasks[i], now, threshold);
      Swept(s, tasks[..i + 1], now, threshold) == (step.0, prev.1 + step.1, prev.2 + step.2)
  {
    assert tasks[..i + 1][..i] == tasks[..i];
  }

  /** Some task of `tasks` with id `k` is beyond the threshold. */
  ghost predicate Recovers(tasks: seq<TrackedTask>, k: string, now: real, threshold: real)
  {
    exists i :: 0 <= i < |tasks| && tasks[i].taskId == k && BeyondThreshold(tasks[i], now, threshold)
  }

  lemma RecoversSnoc(tasks: seq<TrackedTask>, t: TrackedTask, k: string, now: real, threshold: real)
    ensures Recovers(tasks + [t], k, now, threshold) <==>
      Recovers(tasks, k, now, threshold) || (t.taskId == k && BeyondThreshold(t, now, threshold))
  {
    var all := tasks + [t];
    if Recovers(all, k, now, threshold) {
      var i :| 0 <= i < |all| && all[i].taskId == k && BeyondThreshold(all[i], now, threshold);
      if i < |tasks| {
        assert all[i] == tasks[i];
      }
    }
    if Recovers(tasks, k, now, threshold) {
      var i :| 0 <= i < |tasks| && tasks[i].taskId == k && BeyondThreshold(tasks[i], now, threshold);
      assert all[i] == tasks[i];
    }
    if t.taskId == k && BeyondThreshold(t, now, threshold) {
      assert all[|tasks|] == t;
    }
  }

  /**
   * A sweep removes task `k` from the active registry exactly when it
   * recovers it, files it as FAILED with the watchdog's reason, and leaves it
   * as it was otherwise.
   */
  lemma {:induction false} SweptAt(s: Registry, tasks: seq<TrackedTask>, k: string, now: real, threshold: real)
    ensures var r := Swept(s, tasks, now, threshold).0;
      && (k in r.active <==> k in s.active && !Recovers(tasks, k, now, threshold))
      && (k in r.active ==> r.active[k] == s.active[k])
      && (k in s.active && Recovers(tasks, k, now, threshold) ==>
            k in r.history && r.history[k] == s.active[k].(status := Failed, error := Some(WatchdogReason)))
    decreases |tasks|
  {
    if tasks != [] {
      var init := tasks[..|tasks| - 1];
      var t := tasks[|tasks| - 1];
      assert tasks == init + [t];
      SweptAt(s, init, k, now, threshold);
      RecoversSnoc(init, t, k, now, threshold);
    }
  }

  /** `HealthMonitor.is_healthy()` over a health report. */
  function IsHealthy(h: Health): (r: bool)
    ensures r <==> h.activeTasks <= 5 && forall i :: 0 <= i < |h.tasks| ==> !Overdue(h.tasks[i])
  {
    if h.activeTasks > 5 then false else NoneOverdue(h.tasks)
  }

  /** Running for more than twice its timeout. */
  predicate Overdue(t: TaskSummary)
  {
    t.elapsed > t.timeout * 2.0
  }

  function NoneOverdue(tasks: seq<TaskSummary>): (r: bool)
    ensures r <==> forall i :: 0 <= i < |tasks| ==> !Overdue(tasks[i])
  {
    if tasks == [] then true
    else if Overdue(tasks[0]) then false
    else
      var rest := NoneOverdue(tasks[1..]);
      assert forall i :: 1 <= i < |tasks| ==> tasks[i] == tasks[1..][i - 1];
      rest
  }

  /** The orchestrator is healthy iff at most five tasks are active and none has run past twice its timeout. */
  lemma HealthyIff(s: Registry, now: real)
    requires s.Valid()
    ensures IsHealthy(HealthStatus(s, now)) <==>
      |s.active| <= 5 && forall k :: k in s.active ==> s.active[k].Elapsed(now) <= s.active[k].timeoutSeconds * 2.0
  {
    var h := HealthStatus(s, now);
    if IsHealthy(h) {
      forall k | k in s.active ensures s.active[k].Elapsed(now) <= s.active[k].timeoutSeconds * 2.0 {
        assert k in s.activeOrder;
        var i :| 0 <= i < |s.activeOrder| && s.activeOrder[i] == k;
        assert !Overdue(h.tasks[i]);
      }
    }
  }

  /**
   * With a threshold of at most 2 and non-negative timeouts, one check leaves
   * no RUNNING task that has run past twice its timeout: the health monitor
   * can then only object to a backlog or to tasks the orchestrator has
   * already marked.
   */
  lemma SweepClearsOverdue(s: Registry, now: real, threshold: real)
    requires s.Valid() && threshold <= 2.0
    requires forall k :: k in s.active ==> s.active[k].timeoutSeconds >= 0.0
    ensures var r := Swept(s, StuckTasks(s, now), now, threshold).0;
      forall k :: k in r.active && r.active[k].status == Running ==>
        r.active[k].Elapsed(now) <= r.active[k].timeoutSeconds * 2.0
  {
    var stuck := StuckTasks(s, now);
    var r := Swept(s, stuck, now, threshold).0;
    forall k | k in r.active && r.active[k].status == Running
      ensures r.active[k].Elapsed(now) <= r.active[k].timeoutSeconds * 2.0
    {
      SweptAt(s, stuck, k, now, threshold);
      if s.active[k].Elapsed(now) > s.active[k].timeoutSeconds * 2.0 {
        OverdueRecovered(s, stuck, k, now, threshold);
      }
    }
  }

  /** A RUNNING task past twice its non-negative timeout is reported stuck and is beyond any threshold up to 2. */
  lemma OverdueRecovered(s: Registry, stuck: seq<TrackedTask>, k: string, now: real, threshold: real)
    requires s.Valid() && threshold <= 2.0 && stuck == StuckTasks(s, now)
    requires k in s.active && s.active[k].timeoutSeconds >= 0.0 && s.active[k].status == Running
    requires s.active[k].Elapsed(now) > s.active[k].timeoutSeconds * 2.0
    ensures Recovers(stuck, k, now, threshold)
  {
    var t := s.active[k];
    OverdueBeyond(t, now, threshold);
    StuckTasksSpec(s, now);
    assert t in stuck;
    var i :| 0 <= i < |stuck| && stuck[i] == t;
    assert 0 <= i < |stuck| && stuck[i].taskId == k && BeyondThreshold(stuck[i], now, threshold);
  }

  lemma OverdueBeyond(t: TrackedTask, now: real, threshold: real)
    requires threshold <= 2.0 && t.timeoutSeconds >= 0.0 && t.status == Running
    requires t.Elapsed(now) > t.timeoutSeconds * 2.0
    ensures BeyondThreshold(t, now, threshold) && t.IsTimedOut(now)
  {
    ScaleMonotone(t.timeoutSeconds, threshold, 2.0);
    ScaleMonotone(t.timeoutSeconds, 1.0, 2.0);
    assert t.timeoutSeconds * threshold <= t.timeoutSeconds * 2.0;
  }

  /** `Watchdog`: a check counter and timestamps over an orchestrator it does not own. */
  class Watchdog {
    const orchestrator: TaskOrchestrator
    const checkInterval: real
    const stuckThreshold: real
    var running: bool
    var checksPerformed: nat
    var stuckTasksFound: nat
    var recoveriesTriggered: nat
    var lastCheck: Option<real>
    var startedAt: Option<real>

    ghost predicate Valid()
      reads this, orchestrator
    {
      orchestrator.Valid() && recoveriesTriggered <= stuckTasksFound
    }

    constructor(orchestrator: TaskOrchestrator, checkInterval: real, stuckThreshold: real)
      requires orchestrator.Valid()
      ensures Valid() && this.orchestrator == orchestrator
      ensures this.checkInterval == checkInterval && this.stuckThreshold == stuckThreshold
      ensures !running && checksPerformed == 0 && stuckTasksFound == 0 && recoveriesTriggered == 0
      ensures lastCheck == None && startedAt == None
    {
      this.orchestrator := orchestrator;
      this.checkInterval := checkInterval;
      this.stuckThreshold := stuckThreshold;
      running := false;
      checksPerformed, stuckTasksFound, recoveriesTriggered := 0, 0, 0;
      lastCheck, startedAt := None, None;
    }

    /** `TaskWatchdog(orchestrator)`: checks every 5 s, stuck past 1.5 times the timeout. */
    constructor WithDefaults(orchestrator: TaskOrchestrator)
      requires orchestrator.Valid()
      ensures Valid() && this.orchestrator == orchestrator
      ensures checkInterval == DefaultCheckInterval && stuckThreshold == DefaultStuckThreshold
      ensures !running && checksPerformed == 0 && stuckTasksFound == 0 && recoveriesTriggered == 0
      ensures lastCheck == None && startedAt == None
    {
      this.orchestrator := orchestrator;
      checkInterval := DefaultCheckInterval;
      stuckThreshold := DefaultStuckThreshold;
      running := false;
      checksPerformed, stuckTasksFound, recoveriesTriggered := 0, 0, 0;
      lastCheck, startedAt := None, None;
    }

    /** `start()`: a second start while running changes nothing. */
    method Start(now: real)
      modifies this
      ensures running
      ensures old(running) ==> startedAt == old(startedAt)
      ensures !old(running) ==> startedAt == Some(now)
      ensures checksPerformed == old(checksPerformed) && stuckTasksFound == old(stuckTasksFound)
      ensures recoveriesTriggered == old(recoveriesTriggered) && lastCheck == old(lastCheck)
    {
      if running {
        return;
      }
      running := true;
      startedAt := Some(now);
    }

    /** `stop()` */
    method Stop()
      modifies this
      ensures !running
      ensures checksPerformed == old(checksPerformed) && stuckTasksFound == old(stuckTasksFound)
      ensures recoveriesTriggered == old(recoveriesTriggered) && lastCheck == old(lastCheck)
      ensures startedAt == old(startedAt)
    {
      running := false;
    }

    /** `_check_health()`: count the health check, fetch the stuck tasks, recover those beyond the threshold. */
    method CheckHealth(now: real) returns (calls: seq<BotCall>)
      requires Valid()
      modifies this, orchestrator
      ensures Valid()
      ensures checksPerformed == old(checksPerformed) + 1 && lastCheck == Some(now)
      ensures running == old(running) && startedAt == old(startedAt)
      ensures var stuck := StuckTasks(old(orchestrator.Model()), now);
        var (r, c, n) := Swept(old(orchestrator.Model()), stuck, now, stuckThreshold);
        && stuckTasksFound == old(stuckTasksFound) + |stuck|
        && recoveriesTriggered == old(recoveriesTriggered) + n
        && orchestrator.Model() == r && calls == c
    {
      checksPerformed := checksPerformed + 1;
      lastCheck := Some(now);
      var stuck := orchestrator.GetStuckTasks(now);
      stuckTasksFound := stuckTasksFound + |stuck|;
      var n;
      calls, n := Recover(stuck, now);
      recoveriesTriggered := recoveriesTriggered + n;
    }

    /** The loop over the stuck tasks; `n` counts the recoveries triggered. */
    method Recover(stuck: seq<TrackedTask>, now: real) returns (calls: seq<BotCall>, n: nat)
      requires orchestrator.Valid()
      modifies orchestrator
      ensures orchestrator.Valid()
      ensures (orchestrator.Model(), calls, n) == Swept(old(orchestrator.Model()), stuck, now, stuckThreshold)
    {
      ghost var start := orchestrator.Model();
      calls, n := [], 0;
      var i := 0;
      while i < |stuck|
        invariant 0 <= i <= |stuck|
        invariant orchestrator.Valid()
        invariant (orchestrator.Model(), calls, n) == Swept(start, stuck[..i], now, stuckThreshold)
      {
        ghost var prev := (orchestrator.Model(), calls, n);
        ghost var step := SweepStep(prev.0, stuck[i], now, stuckThreshold);
        SweptSnoc(start, stuck, i, now, stuckThreshold);
        var more, d := RecoverOne(stuck[i], now);
        assert (orchestrator.Model(), more, d) == step;
        calls, n := calls + more, n + d;
        i := i + 1;
      }
      assert stuck[..i] == stuck;
    }

    /** One pass of the loop: recover the task if it is beyond the threshold. */
    method RecoverOne(task: TrackedTask, now: real) returns (more: seq<BotCall>, d: nat)
      requires orchestrator.Valid()
      modifies orchestrator
      ensures orchestrator.Valid()
      ensures (orchestrator.Model(), more, d) == SweepStep(old(orchestrator.Model()), task, now, stuckThreshold)
    {
      more, d := [], 0;
      if task.Elapsed(now) > task.timeoutSeconds * stuckThreshold {
        more := orchestrator.RecoverStuckTask(task);
        d := 1;
      }
    }
  }
}
