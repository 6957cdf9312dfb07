/**
 * The self-healing bot's orchestrator (invoice_bot/orchestrator.py): a
 * registry of tracked tasks, each started with a per-type timeout, moved to
 * the history when it completes or fails, and the timeout/fallback/feedback
 * protocol that wraps every awaited operation.
 *
 * The clock is a `now` parameter, the awaited operation and the fallback
 * handler are given by their outcomes, `uuid4()` is the caller's `taskId`,
 * and the bot's send/delete calls are returned as a list of attempted calls
 * (their failures are swallowed, so nothing depends on how they end).
 */
module Orchestrator {
  import opened Wrappers
  import opened Exceptions
  import opened Sequences

  datatype TaskStatus = Pending | Running | Completed | Failed | TimedOut | Recovered

  /** `TrackedTask`; `result` stands for the operation's value, `None` for Python's `None`. */
  datatype TrackedTask = TrackedTask(
    taskId: string,
    chatId: int,
    userId: int,
    taskType: string,
    startedAt: real,
    timeoutSeconds: real,
    status: TaskStatus,
    messageId: Option<int>,
    retryCount: int,
    maxRetries: int,
    error: Option<string>,
    result: Option<string>)
  {
    function Elapsed(now: real): real
    {
      now - startedAt
    }

    /** Running for longer than its own timeout. */
    predicate IsTimedOut(now: real)
    {
      Elapsed(now) > timeoutSeconds && status == Running
    }

    predicate CanRetry()
    {
      retryCount < maxRetries
    }
  }

  /** Per-type timeouts, in seconds. */
  const Timeouts: map<string, real> := map[
    "document_processing" := 45.0,
    "invoice_generation" := 30.0,
    "ai_extraction" := 60.0,
    "file_download" := 15.0,
    "default" := 30.0]

  const DefaultMaxRetries := 3

  /** `self.timeouts.get(task_type, self.timeouts["default"])` */
  function TimeoutFor(taskType: string): (t: real)
    ensures taskType in Timeouts ==> t == Timeouts[taskType]
    ensures taskType !in Timeouts ==> t == Timeouts["default"]
    ensures t in Timeouts.Values && t > 0.0
  {
    if taskType in Timeouts then Timeouts[taskType] else Timeouts["default"]
  }

  /** `str(t)` for the timeouts of the table. */
  function SecondsText(t: real): string
    requires t in Timeouts.Values
  {
    if t == 45.0 then "45.0" else if t == 60.0 then "60.0" else if t == 15.0 then "15.0" else "30.0"
  }

  /** The error recorded when the wait runs out: `f"Timeout after {timeout}s"`. */
  function TimeoutError(taskType: string): string
  {
    "Timeout after " + SecondsText(TimeoutFor(taskType)) + "s"
  }

  const WatchdogReason := "Stuck task recovered by watchdog"

  /** The three fallback texts, named by their keys in `fallback_messages`. */
  datatype Notice = DocumentProcessingNotice | TimeoutNotice | DefaultNotice

  const FallbackMessages: map<string, Notice> := map[
    "document_processing" := DocumentProcessingNotice,
    "timeout" := TimeoutNotice,
    "default" := DefaultNotice]

  /** The text `_send_timeout_feedback` picks: looked up by task type, "timeout" otherwise. */
  function TimeoutFeedback(taskType: string): (n: Notice)
    ensures n == DocumentProcessingNotice <==> taskType == "document_processing"
    ensures n == DefaultNotice <==> taskType == "default"
  {
    if taskType in FallbackMessages then FallbackMessages[taskType] else FallbackMessages["timeout"]
  }

  /** The text `_send_error_feedback` picks: looked up by task type, "default" otherwise. */
  function ErrorFeedback(taskType: string): (n: Notice)
    ensures n == DocumentProcessingNotice <==> taskType == "document_processing"
    ensures n == TimeoutNotice <==> taskType == "timeout"
  {
    if taskType in FallbackMessages then FallbackMessages[taskType] else FallbackMessages["default"]
  }

  /** A call the orchestrator makes on the bot. */
  datatype BotCall = SendMessage(chatId: int, notice: Notice) | DeleteMessage(chatId: int, messageId: int)

  /**
   * The orchestrator's state: `active_tasks` and `task_history`, each with the
   * insertion order of its keys.
   */
  datatype Registry = Registry(
    active: map<string, TrackedTask>,
    activeOrder: seq<string>,
    history: map<string, TrackedTask>,
    historyOrder: seq<string>)
  {
    ghost predicate Valid()
    {
      && NoDup(activeOrder) && (forall k :: k in activeOrder <==> k in active)
      && NoDup(historyOrder) && (forall k :: k in historyOrder <==> k in history)
      && (forall k :: k in active ==> active[k].taskId == k)
      && (forall k :: k in history ==> history[k].taskId == k)
    }

    /** Every id the orchestrator has ever been told about. */
    ghost function Ids(): set<string>
    {
      active.Keys + history.Keys
    }
  }

  const Empty := Registry(map[], [], map[], [])

  /** No history entry other than COMPLETED or FAILED. */
  ghost predicate Settled(s: Registry)
  {
    forall k :: k in s.history ==> s.history[k].status in {Completed, Failed}
  }

  /** The task `start_task` registers. */
  function NewTask(taskId: string, chatId: int, userId: int, taskType: string, messageId: Option<int>, now: real): (t: TrackedTask)
    ensures t.status == Running && t.timeoutSeconds == TimeoutFor(taskType)
    ensures !t.IsTimedOut(now)
  {
    TrackedTask(taskId, chatId, userId, taskType, now, TimeoutFor(taskType), Running,
                messageId, 0, DefaultMaxRetries, None, None)
  }

  /** `active_tasks[task.task_id] = task` */
  function Started(s: Registry, task: TrackedTask): (r: Registry)
    ensures s.Valid() ==> r.Valid()
    ensures r.active == s.active[task.taskId := task] && r.history == s.history
    ensures r.Ids() == s.Ids() + {task.taskId}
  {
    s.(active := s.active[task.taskId := task],
       activeOrder := if task.taskId in s.active then s.activeOrder else s.activeOrder + [task.taskId])
  }

  /** `task = active_tasks.pop(id)` followed by `task_history[id] = task`. */
  function Archived(s: Registry, id: string, task: TrackedTask): (r: Registry)
    requires id in s.active
    ensures s.Valid() && task.taskId == id ==> r.Valid()
    ensures id !in r.active && r.history == s.history[id := task]
    ensures forall k :: k in r.active <==> k in s.active && k != id
    ensures forall k :: k in r.active ==> r.active[k] == s.active[k]
    ensures r.Ids() == s.Ids()
  {
    Registry(s.active - {id}, RemoveValue(s.activeOrder, id),
             s.history[id := task],
             if id in s.history then s.historyOrder else s.historyOrder + [id])
  }

  /** `complete_task(task_id, result)` */
  function Complete(s: Registry, taskId: string, result: Option<string>): (r: Registry)
    ensures s.Valid() ==> r.Valid()
    ensures taskId !in s.active ==> r == s
    ensures taskId in s.active ==>
      taskId !in r.active && taskId in r.history
      && r.history[taskId] == s.active[taskId].(status := Completed, result := result)
    ensures Settled(s) ==> Settled(r)
    ensures r.Ids() == s.Ids()
  {
    if taskId in s.active then Archived(s, taskId, s.active[taskId].(status := Completed, result := result)) else s
  }

  /** `fail_task(task_id, error)` */
  function Fail(s: Registry, taskId: string, error: string): (r: Registry)
    ensures s.Valid() ==> r.Valid()
    ensures taskId !in s.active ==> r == s
    ensures taskId in s.active ==>
      taskId !in r.active && taskId in r.history
      && r.history[taskId] == s.active[taskId].(status := Failed, error := Some(error))
    ensures Settled(s) ==> Settled(r)
    ensures r.Ids() == s.Ids()
  {
    if taskId in s.active then Archived(s, taskId, s.active[taskId].(status := Failed, error := Some(error))) else s
  }

  /** `task.status = status` on the registered task object. */
  function Marked(s: Registry, taskId: string, status: TaskStatus): (r: Registry)
    ensures s.Valid() ==> r.Valid()
    ensures r.history == s.history && r.active.Keys == s.active.Keys
    ensures taskId in s.active ==> r.active[taskId] == s.active[taskId].(status := status)
  {
    if taskId in s.active then s.(active := s.active[taskId := s.active[taskId].(status := status)]) else s
  }

  /** How the awaited operation ends: `wait_for` returns, times out, or re-raises. */
  datatype CoroOutcome = Completes(value: Option<string>) | TimesOut | Throws(exc: Exc)

  /** How the awaited fallback handler ends. */
  datatype FallbackOutcome = FallbackReturns(value: Option<string>) | FallbackThrows(exc: Exc)

  /** The exception `wait_for` raises when the timeout expires. */
  const WaitTimeout := Raise("TimeoutError", "")

  predicate IsTimeout(coro: CoroOutcome)
  {
    coro.TimesOut? || (coro.Throws? && IsInstance(coro.exc, "TimeoutError"))
  }

  /** The state, result and bot calls of the `except asyncio.TimeoutError` branch. */
  function AfterTimeout(s: Registry, taskId: string, chatId: int, taskType: string,
                        timeout: Exc, fallback: Option<FallbackOutcome>)
    : (Registry, Result<Option<string>, Exc>, seq<BotCall>)
  {
    var s1 := Marked(s, taskId, TimedOut);
    var calls := [SendMessage(chatId, TimeoutFeedback(taskType))];
    match fallback
    case Some(FallbackReturns(v)) =>
      (Complete(Marked(s1, taskId, Recovered), taskId, v), Ok(v), calls)
    case Some(FallbackThrows(e)) =>
      if IsInstance(e, "Exception") then (Fail(s1, taskId, TimeoutError(taskType)), Err(timeout), calls)
      else (s1, Err(e), calls)
    case None =>
      (Fail(s1, taskId, TimeoutError(taskType)), Err(timeout), calls)
  }

  /** `execute_with_timeout`: the new state, the value returned or the exception raised, and the bot calls. */
  function Executed(s: Registry, taskId: string, coro: CoroOutcome, chatId: int, userId: int, taskType: string,
                    messageId: Option<int>, fallback: Option<FallbackOutcome>, now: real)
    : (Registry, Result<Option<string>, Exc>, seq<BotCall>)
  {
    var s1 := Started(s, NewTask(taskId, chatId, userId, taskType, messageId, now));
    match coro
    case Completes(v) => (Complete(s1, taskId, v), Ok(v), [])
    case TimesOut => AfterTimeout(s1, taskId, chatId, taskType, WaitTimeout, fallback)
    case Throws(e) =>
      if IsInstance(e, "TimeoutError") then AfterTimeout(s1, taskId, chatId, taskType, e, fallback)
      else if IsInstance(e, "Exception") then
        (Fail(s1, taskId, e.message), Err(e), [SendMessage(chatId, ErrorFeedback(taskType))])
      else (s1, Err(e), [])
  }

  /**
   * An exception no `except` clause of `execute_with_timeout` catches: one
   * not derived from `Exception`, raised by the operation or by the fallback.
   */
  predicate Escapes(coro: CoroOutcome, fallback: Option<FallbackOutcome>)
  {
    || (coro.Throws? && !IsTimeout(coro) && !IsInstance(coro.exc, "Exception"))
    || (IsTimeout(coro) && fallback.Some? && fallback.value.FallbackThrows?
        && !IsInstance(fallback.value.exc, "Exception"))
  }

  /**
   * How a wrapped operation ends up in the registry: a value comes back only
   * when the operation or its fallback produced it, and then the task is in
   * the history as COMPLETED; an exception that escapes every `except`
   * clause leaves it registered as active; any other exception leaves it in
   * the history as FAILED, with the timeout message after a timeout.
   */
  lemma ExecuteOutcome(s: Registry, taskId: string, coro: CoroOutcome, chatId: int, userId: int, taskType: string,
                       messageId: Option<int>, fallback: Option<FallbackOutcome>, now: real)
    ensures var (r, res, _) := Executed(s, taskId, coro, chatId, userId, taskType, messageId, fallback, now);
      && r.Ids() == s.Ids() + {taskId}
      && (res.Ok? <==> coro.Completes? || (IsTimeout(coro) && fallback.Some? && fallback.value.FallbackReturns?))
      && (res.Ok? ==> taskId !in r.active && r.history[taskId].status == Completed && r.history[taskId].result == res.value)
      && (res.Err? && taskId in r.active <==> Escapes(coro, fallback))
      && (res.Err? && taskId in r.active ==> !IsInstance(res.error, "Exception"))
      && (res.Err? && taskId !in r.active ==> r.history[taskId].status == Failed)
      && (res.Err? && IsTimeout(coro) && taskId !in r.active ==>
            r.history[taskId].error == Some(TimeoutError(taskType)))
  {
  }

  /**
   * The owner is never left without a reply: a timeout, or any failure derived
   * from `Exception`, sends exactly one notice to the chat, picked by the task
   * type; an operation that finishes in time sends nothing.
   */
  lemma ExecuteNotifies(s: Registry, taskId: string, coro: CoroOutcome, chatId: int, userId: int, taskType: string,
                        messageId: Option<int>, fallback: Option<FallbackOutcome>, now: real)
    ensures var (_, res, calls) := Executed(s, taskId, coro, chatId, userId, taskType, messageId, fallback, now);
      && (IsTimeout(coro) ==> calls == [SendMessage(chatId, TimeoutFeedback(taskType))])
      && (coro.Throws? && !IsTimeout(coro) && IsInstance(coro.exc, "Exception") ==>
            calls == [SendMessage(chatId, ErrorFeedback(taskType))] && res == Err(coro.exc))
      && (res.Err? && IsInstance(res.error, "Exception") ==> |calls| == 1 && calls[0].chatId == chatId)
      && (coro.Completes? ==> calls == [])
  {
  }

  /**
   * As written, a fallback that rescues a timed-out task marks it RECOVERED
   * and then calls `complete_task`, which overwrites the status with
   * COMPLETED: the history records the rescue as an ordinary completion.
   */
  lemma FallbackRecordedAsCompleted(s: Registry, taskId: string, chatId: int, userId: int, taskType: string,
                                    messageId: Option<int>, v: Option<string>, now: real)
    ensures var (r, res, _) := Executed(s, taskId, TimesOut, chatId, userId, taskType, messageId, Some(FallbackReturns(v)), now);
      res == Ok(v) && r.history[taskId].status == Completed && r.history[taskId].status != Recovered
  {
  }

  /** Hence no run of `execute_with_timeout` ever puts a RECOVERED (or TIMEOUT) task in the history. */
  lemma ExecuteKeepsSettled(s: Registry, taskId: string, coro: CoroOutcome, chatId: int, userId: int, taskType: string,
                            messageId: Option<int>, fallback: Option<FallbackOutcome>, now: real)
    requires Settled(s)
    ensures Settled(Executed(s, taskId, coro, chatId, userId, taskType, messageId, fallback, now).0)
  {
  }

  /** `complete_task` as evidently intended: a task already marked RECOVERED keeps that status. */
  function CompletedKeepingRecovery(s: Registry, taskId: string, result: Option<string>): (r: Registry)
    ensures s.Valid() ==> r.Valid()
    ensures taskId !in s.active ==> r == s
    ensures taskId in s.active ==>
      taskId !in r.active && taskId in r.history
      && r.history[taskId].status == (if s.active[taskId].status == Recovered then Recovered else Completed)
      && r.history[taskId].result == result
  {
    if taskId in s.active then
      var task := s.active[taskId];
      Archived(s, taskId, task.(status := if task.status == Recovered then Recovered else Completed, result := result))
    else s
  }

  /** The timeout branch with the intended completion. */
  function AfterTimeoutIntended(s: Registry, taskId: string, chatId: int, taskType: string,
                                timeout: Exc, fallback: Option<FallbackOutcome>)
    : (Registry, Result<Option<string>, Exc>, seq<BotCall>)
  {
    match fallback
    case Some(FallbackReturns(v)) =>
      var s1 := Marked(s, taskId, TimedOut);
      (CompletedKeepingRecovery(Marked(s1, taskId, Recovered), taskId, v), Ok(v),
       [SendMessage(chatId, TimeoutFeedback(taskType))])
    case _ => AfterTimeout(s, taskId, chatId, taskType, timeout, fallback)
  }

  /**
   * With the intended completion, a fallback that rescues a timed-out task
   * leaves it in the history as RECOVERED with the fallback's value, which is
   * what the health report's `recovered_tasks` counts.
   */
  lemma IntendedRecordsRecovery(s: Registry, taskId: string, chatId: int, userId: int, taskType: string,
                                messageId: Option<int>, v: Option<string>, now: real)
    ensures var s1 := Started(s, NewTask(taskId, chatId, userId, taskType, messageId, now));
      var (r, res, _) := AfterTimeoutIntended(s1, taskId, chatId, taskType, WaitTimeout, Some(FallbackReturns(v)));
      res == Ok(v) && taskId !in r.active && r.history[taskId].status == Recovered && r.history[taskId].result == v
  {
  }

  /** The tasks of `ids`, in order, that are registered in `m` and timed out. */
  function Stuck(ids: seq<string>, m: map<string, TrackedTask>, now: real): (r: seq<TrackedTask>)
    ensures |r| <= |ids|
    ensures forall t :: t in r ==> t.IsTimedOut(now) && t in m.Values
    ensures forall k :: k in ids && k in m && m[k].IsTimedOut(now) ==> m[k] in r
  {
    if ids == [] then []
    else
      var rest := Stuck(ids[..|ids| - 1], m, now);
      var k := ids[|ids| - 1];
      assert forall j :: j in ids ==> j in ids[..|ids| - 1] || j == k;
      if k in m && m[k].IsTimedOut(now) then rest + [m[k]] else rest
  }

  /** Scanning one more id adds its task when that task is timed out. */
  lemma StuckSnoc(ids: seq<string>, i: nat, m: map<string, TrackedTask>, now: real)
    requires i < |ids|
    ensures Stuck(ids[..i + 1], m, now) ==
      if ids[i] in m && m[ids[i]].IsTimedOut(now) then Stuck(ids[..i], m, now) + [m[ids[i]]] else Stuck(ids[..i], m, now)
  {
    assert ids[..i + 1][..i] == ids[..i];
  }

  /** `get_stuck_tasks()` */
  function StuckTasks(s: Registry, now: real): seq<TrackedTask>
  {
    Stuck(s.activeOrder, s.active, now)
  }

  /** Every timed-out active task is reported, and nothing else. */
  lemma StuckTasksSpec(s: Registry, now: real)
    requires s.Valid()
    ensures forall t :: t in StuckTasks(s, now) ==> t.IsTimedOut(now) && t.taskId in s.active && s.active[t.taskId] == t
    ensures forall k :: k in s.active && s.active[k].IsTimedOut(now) ==> s.active[k] in StuckTasks(s, now)
  {
  }

  /** The message-id test `if task.message_id:` (0 is falsy). */
  predicate HasNotice(task: TrackedTask)
  {
    task.messageId.Some? && task.messageId.value != 0
  }

  /** `recover_stuck_task(task)`: notify the owner, fail the task, delete its processing message. */
  function RecoveredStuck(s: Registry, task: TrackedTask): (r: (Registry, seq<BotCall>))
    ensures r.0 == Fail(s, task.taskId, WatchdogReason)
    ensures |r.1| >= 1 && r.1[0] == SendMessage(task.chatId, TimeoutFeedback(task.taskType))
    ensures HasNotice(task) <==> |r.1| == 2
  {
    (Fail(s, task.taskId, WatchdogReason),
     [SendMessage(task.chatId, TimeoutFeedback(task.taskType))]
     + (if HasNotice(task) then [DeleteMessage(task.chatId, task.messageId.value)] else []))
  }

  /** One row of the health report's task list. */
  datatype TaskSummary = TaskSummary(taskId: string, taskType: string, status: TaskStatus, elapsed: real, timeout: real)

  /** `get_health_status()` */
  datatype Health = Health(
    activeTasks: nat,
    completedTasks: nat,
    failedTasks: nat,
    timeoutTasks: nat,
    recoveredTasks: nat,
    tasks: seq<TaskSummary>)

  /** How many of the tasks under `ids` in `m` have the given status. */
  function CountStatus(ids: seq<string>, m: map<string, TrackedTask>, status: TaskStatus): (n: nat)
    ensures n <= |ids|
    ensures (forall k :: k in m ==> m[k].status != status) ==> n == 0
  {
    if ids == [] then 0
    else CountStatus(ids[1..], m, status) + (if ids[0] in m && m[ids[0]].status == status then 1 else 0)
  }

  /** The ids of the tasks in `m` that have the given status. */
  ghost function WithStatus(m: map<string, TrackedTask>, status: TaskStatus): set<string>
  {
    set k | k in m && m[k].status == status
  }

  /** The ids of `ids` whose task in `m` has the given status. */
  ghost function StatusIds(ids: seq<string>, m: map<string, TrackedTask>, status: TaskStatus): (r: set<string>)
    ensures forall k :: k in r <==> k in ids && k in m && m[k].status == status
  {
    if ids == [] then {}
    else
      assert forall k :: k in ids <==> k == ids[0] || k in ids[1..] by {
        assert ids == [ids[0]] + ids[1..];
      }
      (if ids[0] in m && m[ids[0]].status == status then {ids[0]} else {}) + StatusIds(ids[1..], m, status)
  }

  /** Over ids without repeats, the count is the number of those ids whose task has the status. */
  lemma {:induction false} CountStatusSpec(ids: seq<string>, m: map<string, TrackedTask>, status: TaskStatus)
    requires NoDup(ids)
    ensures CountStatus(ids, m, status) == |StatusIds(ids, m, status)|
    decreases |ids|
  {
    if ids != [] {
      NoDupTail(ids);
      CountStatusSpec(ids[1..], m, status);
    }
  }

  /** Dropping the head of a sequence without repeats leaves one without repeats, and without the head. */
  lemma NoDupTail(ids: seq<string>)
    requires NoDup(ids) && ids != []
    ensures NoDup(ids[1..]) && ids[0] !in ids[1..]
  {
    var tail := ids[1..];
    forall i, j | 0 <= i < j < |tail| ensures tail[i] != tail[j] {
      assert tail[i] == ids[i + 1] && tail[j] == ids[j + 1];
    }
    forall j | 0 <= j < |tail| ensures tail[j] != ids[0] {
      assert tail[j] == ids[j + 1];
    }
  }

  /** The history's count for a status is the number of archived tasks that have it. */
  lemma HistoryCount(s: Registry, status: TaskStatus)
    requires s.Valid()
    ensures CountStatus(s.historyOrder, s.history, status) == |WithStatus(s.history, status)|
  {
    CountStatusSpec(s.historyOrder, s.history, status);
    assert StatusIds(s.historyOrder, s.history, status) == WithStatus(s.history, status);
  }

  /** The rows of the active tasks of `ids`, in order. */
  function Summaries(ids: seq<string>, m: map<string, TrackedTask>, now: real): (r: seq<TaskSummary>)
    requires forall k :: k in ids ==> k in m
    ensures |r| == |ids|
    ensures forall i :: 0 <= i < |ids| ==>
      r[i].elapsed == m[ids[i]].Elapsed(now) && r[i].timeout == m[ids[i]].timeoutSeconds
  {
    if ids == [] then []
    else
      var t := m[ids[0]];
      [TaskSummary(t.taskId, t.taskType, t.status, t.Elapsed(now), t.timeoutSeconds)] + Summaries(ids[1..], m, now)
  }

  function HealthStatus(s: Registry, now: real): (h: Health)
    requires s.Valid()
    ensures h.activeTasks == |s.active|
    ensures h.completedTasks + h.failedTasks <= |s.history| && h.timeoutTasks <= |s.history|
    ensures Settled(s) ==> h.timeoutTasks == 0 && h.recoveredTasks == 0
    ensures h.completedTasks == |WithStatus(s.history, Completed)| && h.failedTasks == |WithStatus(s.history, Failed)|
    ensures h.timeoutTasks == |WithStatus(s.history, TimedOut)| && h.recoveredTasks == |WithStatus(s.history, Recovered)|
  {
    ActiveCount(s);
    HistoryCount(s, Completed);
    HistoryCount(s, Failed);
    HistoryCount(s, TimedOut);
    HistoryCount(s, Recovered);
    Health(|s.activeOrder|,
           CountStatus(s.historyOrder, s.history, Completed),
           CountStatus(s.historyOrder, s.history, Failed),
           CountStatus(s.historyOrder, s.history, TimedOut),
           CountStatus(s.historyOrder, s.history, Recovered),
           Summaries(s.activeOrder, s.active, now))
  }

  /** A key list without repeats that holds exactly the keys of a map is as long as the map. */
  lemma KeysCount<V>(order: seq<string>, m: map<string, V>)
    requires NoDup(order) && forall k :: k in order <==> k in m
    ensures |order| == |m|
  {
    var ks := set k | k in order;
    assert ks == m.Keys;
    NoDupCard(order);
  }

  lemma {:induction false} NoDupCard(order: seq<string>)
    requires NoDup(order)
    ensures |set k | k in order| == |order|
    decreases |order|
  {
    if order != [] {
      var tail := order[1..];
      assert NoDup(tail) by {
        forall i, j | 0 <= i < j < |tail| ensures tail[i] != tail[j] {
          assert tail[i] == order[i + 1] && tail[j] == order[j + 1];
        }
      }
      NoDupCard(tail);
      assert (set k | k in order) == (set k | k in tail) + {order[0]};
      assert order[0] !in tail;
    }
  }

  lemma ActiveCount(s: Registry)
    requires s.Valid()
    ensures |s.activeOrder| == |s.active| && |s.historyOrder| == |s.history|
    ensures CountStatus(s.historyOrder, s.history, Completed) + CountStatus(s.historyOrder, s.history, Failed) <= |s.history|
  {
    KeysCount(s.activeOrder, s.active);
    KeysCount(s.historyOrder, s.history);
    CountTwo(s.historyOrder, s.history, Completed, Failed);
  }

  lemma CountTwo(ids: seq<string>, m: map<string, TrackedTask>, a: TaskStatus, b: TaskStatus)
    requires a != b
    ensures CountStatus(ids, m, a) + CountStatus(ids, m, b) <= |ids|
  {
    if ids != [] {
      CountTwo(ids[1..], m, a, b);
    }
  }

  /**
   * The orchestrator object. Its registry is a `Registry` value held in
   * fields; each method states its new registry through the functions above.
   */
  class TaskOrchestrator {
    var active: map<string, TrackedTask>
    var activeOrder: seq<string>
    var history: map<string, TrackedTask>
    var historyOrder: seq<string>

    function Model(): Registry
      reads this
    {
      Registry(active, activeOrder, history, historyOrder)
    }

    ghost predicate Valid()
      reads this
    {
      Model().Valid()
    }

    constructor()
      ensures Valid() && Model() == Empty
    {
      active := map[];
      activeOrder := [];
      history := map[];
      historyOrder := [];
    }

    /** `start_task`; `taskId` is the caller's fresh identifier. */
    method StartTask(taskId: string, chatId: int, userId: int, taskType: string, messageId: Option<int>, now: real)
      returns (task: TrackedTask)
      requires Valid()
      modifies this
      ensures Valid()
      ensures task == NewTask(taskId, chatId, userId, taskType, messageId, now)
      ensures Model() == Started(old(Model()), task)
    {
      task := NewTask(taskId, chatId, userId, taskType, messageId, now);
      if taskId !in active {
        activeOrder := activeOrder + [taskId];
      }
      active := active[taskId := task];
    }

    method Archive(id: string, task: TrackedTask)
      requires Valid() && id in active && task.taskId == id
      modifies this
      ensures Valid()
      ensures Model() == Archived(old(Model()), id, task)
    {
      active := active - {id};
      activeOrder := RemoveValue(activeOrder, id);
      if id !in history {
        historyOrder := historyOrder + [id];
      }
      history := history[id := task];
    }

    /** `complete_task` */
    method CompleteTask(taskId: string, result: Option<string>)
      requires Valid()
      modifies this
      ensures Valid()
      ensures Model() == Complete(old(Model()), taskId, result)
    {
      if taskId in active {
        var task := active[taskId];
        Archive(taskId, task.(status := Completed, result := result));
      }
    }

    /** `fail_task` */
    method FailTask(taskId: string, error: string)
      requires Valid()
      modifies this
      ensures Valid()
      ensures Model() == Fail(old(Model()), taskId, error)
    {
      if taskId in active {
        var task := active[taskId];
        Archive(taskId, task.(status := Failed, error := Some(error)));
      }
    }

    method SetStatus(taskId: string, status: TaskStatus)
      requires Valid()
      modifies this
      ensures Valid()
      ensures Model() == Marked(old(Model()), taskId, status)
    {
      if taskId in active {
        active := active[taskId := active[taskId].(status := status)];
      }
    }

    method HandleTimeout(taskId: string, chatId: int, taskType: string, timeout: Exc, fallback: Option<FallbackOutcome>)
      returns (r: Result<Option<string>, Exc>, calls: seq<BotCall>)
      requires Valid()
      modifies this
      ensures Valid()
      ensures (Model(), r, calls) == AfterTimeout(old(Model()), taskId, chatId, taskType, timeout, fallback)
    {
      SetStatus(taskId, TimedOut);
      calls := [SendMessage(chatId, TimeoutFeedback(taskType))];
      if fallback.Some? {
        match fallback.value
        case FallbackReturns(v) =>
          SetStatus(taskId, Recovered);
          CompleteTask(taskId, v);
          return Ok(v), calls;
        case FallbackThrows(e) =>
          if !IsInstance(e, "Exception") {
            return Err(e), calls;
          }
      }
      FailTask(taskId, TimeoutError(taskType));
      r := Err(timeout);
    }

    /** `execute_with_timeout` */
    method ExecuteWithTimeout(taskId: string, coro: CoroOutcome, chatId: int, userId: int, taskType: string,
                              messageId: Option<int>, fallback: Option<FallbackOutcome>, now: real)
      returns (r: Result<Option<string>, Exc>, calls: seq<BotCall>)
      requires Valid()
      modifies this
      ensures Valid()
      ensures (Model(), r, calls) == Executed(old(Model()), taskId, coro, chatId, userId, taskType, messageId, fallback, now)
    {
      var task := StartTask(taskId, chatId, userId, taskType, messageId, now);
      match coro
      case Completes(v) =>
        CompleteTask(taskId, v);
        r, calls := Ok(v), [];
      case TimesOut =>
        r, calls := HandleTimeout(taskId, chatId, taskType, WaitTimeout, fallback);
      case Throws(e) =>
        if IsInstance(e, "TimeoutError") {
          r, calls := HandleTimeout(taskId, chatId, taskType, e, fallback);
        } else if IsInstance(e, "Exception") {
          FailTask(taskId, e.message);
          r, calls := Err(e), [SendMessage(chatId, ErrorFeedback(taskType))];
        } else {
          r, calls := Err(e), [];
        }
    }

    /** `get_stuck_tasks()` */
    method GetStuckTasks(now: real) returns (stuck: seq<TrackedTask>)
      requires Valid()
      ensures stuck == StuckTasks(Model(), now)
    {
      stuck := [];
      var i := 0;
      while i < |activeOrder|
        invariant 0 <= i <= |activeOrder|
        invariant stuck == Stuck(activeOrder[..i], active, now)
      {
        var k := activeOrder[i];
        assert k in active;
        StuckSnoc(activeOrder, i, active, now);
        if active[k].IsTimedOut(now) {
          stuck := stuck + [active[k]];
        }
        i := i + 1;
      }
      assert activeOrder[..i] == activeOrder;
    }

    /** `recover_stuck_task(task)` */
    method RecoverStuckTask(task: TrackedTask) returns (calls: seq<BotCall>)
      requires Valid()
      modifies this
      ensures Valid()
      ensures Model() == RecoveredStuck(old(Model()), task).0
      ensures calls == RecoveredStuck(old(Model()), task).1
    {
      calls := [SendMessage(task.chatId, TimeoutFeedback(task.taskType))];
      FailTask(task.taskId, WatchdogReason);
      if HasNotice(task) {
        calls := calls + [DeleteMessage(task.chatId, task.messageId.value)];
      }
    }
  }
}
