/**
 * The dead-letter queue: failed operations parked with their payload and
 * error, retried in the background with exponential backoff by a handler
 * registered for their operation type, and finally marked failed,
 * succeeded or discarded.
 *
 * An item's observable fields are the value `Item`; the `Marked...`
 * functions are its `mark_*` transitions and `ProcessStep` is one pass of
 * the queue's processing over one item. `DLQItem` and `Queue` are the
 * mutable objects, proved against those functions.
 */
module DeadLetterQueue {
  import opened Wrappers
  import opened Exceptions
  import opened Numeric
  import opened Sequences

  datatype ItemStatus = Pending | Processing | Retrying | Failed | Success | Discarded

  /** One record of `processing_history`, one per `mark_*` call. */
  datatype HistoryEntry =
    | ProcessingStarted(at: real)
    | ScheduledRetry(retryCount: int, nextRetry: real)
    | Succeeded(at: real)
    | FailedEntry(error: string, at: real)
    | DiscardedEntry(reason: string, at: real)

  /** `error_info`: the exception's type name and text when it was enqueued. */
  datatype ErrorInfo = ErrorInfo(errorType: string, errorMessage: string, timestamp: real)

  /** The fields of a `DLQItem`; timestamps are seconds on one clock. */
  datatype Item = Item(
    id: string,
    operationType: string,
    payload: map<string, string>,
    errorInfo: ErrorInfo,
    status: ItemStatus,
    createdAt: real,
    updatedAt: real,
    retryCount: int,
    maxRetries: int,
    nextRetryAt: Option<real>,
    lastError: Option<string>,
    history: seq<HistoryEntry>,
    tags: seq<string>,
    priority: int)

  const DefaultMaxRetries: int := 5
  const DefaultPriority: int := 5

  /** The retry counter stays within the item's budget (or at zero when the budget is not positive). */
  predicate WithinBudget(v: Item)
  {
    v.retryCount <= (if v.maxRetries > 0 then v.maxRetries else 0)
  }

  // ----- the mark_* transitions -----

  function MarkedProcessing(v: Item, now: real): (r: Item)
    ensures r.status == Processing && r.updatedAt == now
    ensures r.history == v.history + [ProcessingStarted(now)]
    ensures r.(status := v.status, updatedAt := v.updatedAt, history := v.history) == v
  {
    v.(status := Processing, updatedAt := now, history := v.history + [ProcessingStarted(now)])
  }

  function MarkedRetry(v: Item, delay: real, now: real): (r: Item)
    ensures r.status == Retrying && r.updatedAt == now
    ensures r.retryCount == v.retryCount + 1 && r.nextRetryAt == Some(now + delay)
    ensures r.history == v.history + [ScheduledRetry(r.retryCount, now + delay)]
    ensures r.(status := v.status, updatedAt := v.updatedAt, history := v.history,
               retryCount := v.retryCount, nextRetryAt := v.nextRetryAt) == v
  {
    var count := v.retryCount + 1;
    v.(retryCount := count, status := Retrying, updatedAt := now, nextRetryAt := Some(now + delay),
       history := v.history + [ScheduledRetry(count, now + delay)])
  }

  function MarkedSuccess(v: Item, now: real): (r: Item)
    ensures r.status == Success && r.updatedAt == now
    ensures r.history == v.history + [Succeeded(now)]
    ensures r.(status := v.status, updatedAt := v.updatedAt, history := v.history) == v
  {
    v.(status := Success, updatedAt := now, history := v.history + [Succeeded(now)])
  }

  function MarkedFailed(v: Item, error: string, now: real): (r: Item)
    ensures r.status == Failed && r.updatedAt == now && r.lastError == Some(error)
    ensures r.history == v.history + [FailedEntry(error, now)]
    ensures r.(status := v.status, updatedAt := v.updatedAt, history := v.history, lastError := v.lastError) == v
  {
    v.(status := Failed, lastError := Some(error), updatedAt := now, history := v.history + [FailedEntry(error, now)])
  }

  function MarkedDiscarded(v: Item, reason: string, now: real): (r: Item)
    ensures r.status == Discarded && r.updatedAt == now
    ensures r.history == v.history + [DiscardedEntry(reason, now)]
    ensures r.(status := v.status, updatedAt := v.updatedAt, history := v.history) == v
  {
    v.(status := Discarded, updatedAt := now, history := v.history + [DiscardedEntry(reason, now)])
  }

  /** `is_ready_for_retry` at time `now`. */
  function IsReady(v: Item, now: real): (r: bool)
    ensures r <==> (v.status == Pending || v.status == Retrying)
                   && v.retryCount < v.maxRetries
                   && (v.nextRetryAt.None? || now >= v.nextRetryAt.value)
  {
    if v.status != Pending && v.status != Retrying then false
    else if v.retryCount >= v.maxRetries then false
    else if v.nextRetryAt.Some? && now < v.nextRetryAt.value then false
    else true
  }

  // ----- backoff -----

  /** `2 ** n` for any integer `n`, as Python computes it (a fraction when `n < 0`). */
  function TwoPow(n: int): (r: real)
    ensures r > 0.0
  {
    if n >= 0 then (PowAtLeastOne(2.0, n); Pow(2.0, n))
    else (PowAtLeastOne(2.0, -n); 1.0 / Pow(2.0, -n))
  }

  /** `min(60 * 2 ** retry_count, 3600)`: seconds before the next attempt. */
  function RetryDelay(retryCount: int): (r: real)
    ensures 0.0 < r <= 3600.0
  {
    Min(60.0 * TwoPow(retryCount), 3600.0)
  }

  /** The delay starts at one minute and doubles with each retry until it reaches the hour. */
  lemma {:induction false} RetryDelayDoubles(n: nat)
    requires n < 5
    ensures RetryDelay(0) == 60.0
    ensures RetryDelay(n + 1) == 2.0 * RetryDelay(n)
  {
    assert Pow(2.0, n + 1) == 2.0 * Pow(2.0, n);
    assert Pow(2.0, 5) == 32.0 by {
      assert Pow(2.0, 0) == 1.0;
      assert Pow(2.0, 1) == 2.0;
      assert Pow(2.0, 2) == 4.0;
      assert Pow(2.0, 3) == 8.0;
      assert Pow(2.0, 4) == 16.0;
    }
    PowMonotone(2.0, n + 1, 5);
  }

  /** From the sixth retry on, the delay is the one-hour cap. */
  lemma {:induction false} RetryDelayCapped(n: nat)
    requires n >= 6
    ensures RetryDelay(n) == 3600.0
  {
    assert Pow(2.0, 6) == 64.0 by {
      assert Pow(2.0, 1) == 2.0;
      assert Pow(2.0, 2) == 4.0;
      assert Pow(2.0, 3) == 8.0;
      assert Pow(2.0, 4) == 16.0;
      assert Pow(2.0, 5) == 32.0;
    }
    PowMonotone(2.0, 6, n);
  }

  /** The delay never shrinks as the retry count grows. */
  lemma {:induction false} RetryDelayMonotone(m: nat, n: nat)
    requires m <= n
    ensures RetryDelay(m) <= RetryDelay(n)
  {
    PowMonotone(2.0, m, n);
  }

  // ----- processing one item -----

  /** What the awaited handler did: returned a value of the given truthiness, or raised. */
  datatype HandlerOutcome = Returned(truthy: bool) | Raised(message: string)

  const NoHandlerReason: string := "No handler registered"
  const ReturnedFalseMessage: string := "Handler returned False"

  /** `str(e)` of the exception `_process_item` catches. */
  function FailureMessage(outcome: HandlerOutcome): string
  {
    match outcome
    case Raised(message) => message
    case Returned(_) => ReturnedFalseMessage
  }

  /**
   * `_process_item`: discard the item when no handler is registered for its
   * type; otherwise mark it processing, run the handler, and mark it
   * succeeded, rescheduled with backoff, or failed once its budget is spent.
   */
  function ProcessStep(v: Item, hasHandler: bool, outcome: HandlerOutcome, now: real): (r: Item)
    ensures !hasHandler ==> r == MarkedDiscarded(v, NoHandlerReason, now)
    ensures hasHandler ==> |r.history| == |v.history| + 2 && r.history[|v.history|] == ProcessingStarted(now)
    ensures hasHandler && outcome == Returned(true) ==>
              r.status == Success && r.retryCount == v.retryCount && r.lastError == v.lastError
    ensures hasHandler && outcome != Returned(true) && v.retryCount < v.maxRetries ==>
              r.status == Retrying && r.retryCount == v.retryCount + 1
              && r.nextRetryAt == Some(now + RetryDelay(v.retryCount))
              && r.lastError == Some(FailureMessage(outcome))
    ensures hasHandler && outcome != Returned(true) && v.retryCount >= v.maxRetries ==>
              r.status == Failed && r.retryCount == v.retryCount && r.lastError == Some(FailureMessage(outcome))
    ensures r.id == v.id && r.operationType == v.operationType && r.priority == v.priority
            && r.createdAt == v.createdAt && r.tags == v.tags && r.maxRetries == v.maxRetries
            && r.history[..|v.history|] == v.history
    ensures WithinBudget(v) ==> WithinBudget(r)
  {
    if !hasHandler then MarkedDiscarded(v, NoHandlerReason, now)
    else
      var started := MarkedProcessing(v, now);
      if outcome == Returned(true) then MarkedSuccess(started, now)
      else
        var message := FailureMessage(outcome);
        var noted := started.(lastError := Some(message));
        if noted.retryCount < noted.maxRetries then MarkedRetry(noted, RetryDelay(noted.retryCount), now)
        else MarkedFailed(noted, message, now)
  }

  /**
   * After one pass the item is ready again only if the handler failed, the
   * budget still allows another attempt, and the backoff delay has passed:
   * failed, succeeded and discarded items are never picked up again.
   */
  lemma ReadyAfterProcess(v: Item, hasHandler: bool, outcome: HandlerOutcome, now: real, later: real)
    ensures IsReady(ProcessStep(v, hasHandler, outcome, now), later) <==>
              hasHandler && outcome != Returned(true) && v.retryCount + 1 < v.maxRetries
              && later >= now + RetryDelay(v.retryCount)
  {
  }

  /** The counters of `_stats`. */
  datatype QueueStats = QueueStats(totalEnqueued: nat, totalSuccess: nat, totalFailed: nat, totalDiscarded: nat)

  /** How one `_process_item` pass moves the counters. */
  function StatsAfter(s: QueueStats, v: Item, hasHandler: bool, outcome: HandlerOutcome): QueueStats
  {
    if !hasHandler then s
    else if outcome == Returned(true) then s.(totalSuccess := s.totalSuccess + 1)
    else if v.retryCount < v.maxRetries then s
    else s.(totalFailed := s.totalFailed + 1)
  }

  /**
   * The success counter moves exactly when a pass ends in SUCCESS and the
   * failure counter exactly when it ends in FAILED; discarding for want of
   * a handler moves neither.
   */
  lemma StatsTrackOutcome(s: QueueStats, v: Item, hasHandler: bool, outcome: HandlerOutcome, now: real)
    ensures var r := ProcessStep(v, hasHandler, outcome, now);
            var t := StatsAfter(s, v, hasHandler, outcome);
            t.totalSuccess == s.totalSuccess + (if r.status == Success then 1 else 0)
            && t.totalFailed == s.totalFailed + (if r.status == Failed then 1 else 0)
            && t.totalEnqueued == s.totalEnqueued && t.totalDiscarded == s.totalDiscarded
  {
  }

  /**
   * How many of `ids` end one pass in `status`, each processed from its
   * state in `before` against the registered `handlers`.
   */
  function CountEnding(ids: seq<string>, before: map<string, Item>, handlers: set<string>,
                       outcome: string -> HandlerOutcome, now: real, status: ItemStatus): (n: nat)
    ensures n <= |ids|
    decreases |ids|
  {
    if ids == [] then 0
    else
      var k := ids[|ids| - 1];
      CountEnding(ids[..|ids| - 1], before, handlers, outcome, now, status)
      + (if k in before && ProcessStep(before[k], before[k].operationType in handlers, outcome(k), now).status == status
         then 1 else 0)
  }

  /** Counting one more id of `ids` adds one exactly when its pass ends in `status`. */
  lemma CountEndingSnoc(ids: seq<string>, i: nat, before: map<string, Item>, handlers: set<string>,
                        outcome: string -> HandlerOutcome, now: real, status: ItemStatus)
    requires i < |ids| && ids[i] in before
    ensures var k := ids[i];
      CountEnding(ids[..i + 1], before, handlers, outcome, now, status)
      == CountEnding(ids[..i], before, handlers, outcome, now, status)
         + (if ProcessStep(before[k], before[k].operationType in handlers, outcome(k), now).status == status then 1 else 0)
  {
    assert ids[..i + 1][..i] == ids[..i];
  }

  /** `retry_item` before it processes: counter, status and schedule reset. */
  function ResetForRetry(v: Item): (r: Item)
    ensures r.retryCount == 0 && r.status == Pending && r.nextRetryAt == None
    ensures r.history == v.history && WithinBudget(r)
    ensures r.maxRetries > 0 ==> IsReady(r, r.createdAt)
  {
    v.(retryCount := 0, status := Pending, nextRetryAt := None)
  }

  /** The item `enqueue` creates (its fresh id is a parameter). */
  function NewItem(id: string, operationType: string, payload: map<string, string>, error: Exc,
                   maxRetries: int, priority: int, tags: Option<seq<string>>, now: real): (r: Item)
    ensures r.id == id && r.status == Pending && r.retryCount == 0 && r.history == []
    ensures r.errorInfo == ErrorInfo(error.TypeName(), error.message, now)
    ensures r.createdAt == now && r.updatedAt == now && r.nextRetryAt == None && r.lastError == None
    ensures tags.Some? ==> r.tags == tags.value
    ensures tags.None? ==> r.tags == []
    ensures WithinBudget(r)
    ensures IsReady(r, now) <==> maxRetries > 0
  {
    Item(id, operationType, payload, ErrorInfo(error.TypeName(), error.message, now), Pending, now, now,
         0, maxRetries, None, None, [], tags.GetOr([]), priority)
  }

  /** `datetime.now() - timedelta(days=max_age_days)` in seconds. */
  function Cutoff(now: real, maxAgeDays: int): real
  {
    now - (maxAgeDays as real) * 86400.0
  }

  /** `cleanup_old_items` removes exactly the finished items last touched before the cutoff. */
  predicate Expired(v: Item, cutoff: real)
  {
    (v.status == Success || v.status == Discarded) && v.updatedAt < cutoff
  }

  /** The `get_all_items` filters; an empty operation type or tag list filters nothing. */
  predicate Matches(v: Item, status: Option<ItemStatus>, operationType: Option<string>, tags: Option<seq<string>>)
  {
    (status.None? || v.status == status.value)
    && (operationType.None? || operationType.value == [] || v.operationType == operationType.value)
    && (tags.None? || tags.value == [] || exists t :: t in tags.value && t in v.tags)
  }

  // ----- to_dict / from_dict -----

  /** The JSON values an item's dictionary holds; payload, error info and history pass through whole. */
  datatype Json =
    | JStr(s: string)
    | JInt(i: int)
    | JNull
    | JTime(t: real)
    | JStrs(ss: seq<string>)
    | JPayload(p: map<string, string>)
    | JErrorInfo(e: ErrorInfo)
    | JHistory(h: seq<HistoryEntry>)

  /** `DLQItemStatus.name` */
  function StatusName(s: ItemStatus): string
  {
    match s
    case Pending => "PENDING"
    case Processing => "PROCESSING"
    case Retrying => "RETRYING"
    case Failed => "FAILED"
    case Success => "SUCCESS"
    case Discarded => "DISCARDED"
  }

  /** `DLQItemStatus[name]`: `None` where Python raises `KeyError`. */
  function StatusFromName(name: string): (r: Option<ItemStatus>)
    ensures r.Some? ==> StatusName(r.value) == name
    ensures forall s :: StatusName(s) == name ==> r == Some(s)
  {
    if name == "PENDING" then Some(Pending)
    else if name == "PROCESSING" then Some(Processing)
    else if name == "RETRYING" then Some(Retrying)
    else if name == "FAILED" then Some(Failed)
    else if name == "SUCCESS" then Some(Success)
    else if name == "DISCARDED" then Some(Discarded)
    else None
  }

  function ToDict(v: Item): map<string, Json>
  {
    map[
      "id" := JStr(v.id),
      "operation_type" := JStr(v.operationType),
      "payload" := JPayload(v.payload),
      "error_info" := JErrorInfo(v.errorInfo),
      "status" := JStr(StatusName(v.status)),
      "created_at" := JTime(v.createdAt),
      "updated_at" := JTime(v.updatedAt),
      "retry_count" := JInt(v.retryCount),
      "max_retries" := JInt(v.maxRetries),
      "next_retry_at" := (if v.nextRetryAt.Some? then JTime(v.nextRetryAt.value) else JNull),
      "last_error" := (if v.lastError.Some? then JStr(v.lastError.value) else JNull),
      "processing_history" := JHistory(v.history),
      "tags" := JStrs(v.tags),
      "priority" := JInt(v.priority)]
  }

  /** `data.get(key, default)` for an integer field. */
  function IntOr(d: map<string, Json>, key: string, default: int): Result<int, string>
  {
    if key !in d then Ok(default)
    else match d[key]
      case JInt(i) => Ok(i)
      case _ => Err("TypeError")
  }

  /** `fromisoformat(data["next_retry_at"]) if data.get("next_retry_at") else None` */
  function NextRetryFrom(d: map<string, Json>): Result<Option<real>, string>
  {
    if "next_retry_at" !in d then Ok(None)
    else match d["next_retry_at"]
      case JNull => Ok(None)
      case JStr(s) => if s == [] then Ok(None) else Err("ValueError")
      case JTime(t) => Ok(Some(t))
      case _ => Err("TypeError")
  }

  /** `data.get("last_error")` */
  function LastErrorFrom(d: map<string, Json>): Result<Option<string>, string>
  {
    if "last_error" !in d then Ok(None)
    else match d["last_error"]
      case JNull => Ok(None)
      case JStr(s) => Ok(Some(s))
      case _ => Err("TypeError")
  }

  function HistoryFrom(d: map<string, Json>): Result<seq<HistoryEntry>, string>
  {
    if "processing_history" !in d then Ok([])
    else match d["processing_history"]
      case JHistory(h) => Ok(h)
      case _ => Err("TypeError")
  }

  function TagsFrom(d: map<string, Json>): Result<seq<string>, string>
  {
    if "tags" !in d then Ok([])
    else match d["tags"]
      case JStrs(ss) => Ok(ss)
      case _ => Err("TypeError")
  }

  /** The seven keys `from_dict` indexes directly, with the shapes it needs. */
  predicate HasRequired(d: map<string, Json>)
  {
    "id" in d && d["id"].JStr?
    && "operation_type" in d && d["operation_type"].JStr?
    && "payload" in d && d["payload"].JPayload?
    && "error_info" in d && d["error_info"].JErrorInfo?
    && "status" in d && d["status"].JStr?
    && "created_at" in d && d["created_at"].JTime?
    && "updated_at" in d && d["updated_at"].JTime?
  }

  /**
   * `from_dict`: the required keys must be present (else `KeyError`), the
   * status must name a member (else `KeyError`); the optional keys take the
   * dataclass defaults.
   */
  function FromDict(d: map<string, Json>): (r: Result<Item, string>)
    ensures r.Ok? ==> HasRequired(d) && StatusFromName(d["status"].s).Some?
    ensures r.Ok? ==> r.value.id == d["id"].s && StatusName(r.value.status) == d["status"].s
    ensures r.Ok? && "retry_count" !in d ==> r.value.retryCount == 0
    ensures r.Ok? && "max_retries" !in d ==> r.value.maxRetries == DefaultMaxRetries
    ensures r.Ok? && "priority" !in d ==> r.value.priority == DefaultPriority
    ensures (forall k :: k !in d) ==> r == Err("KeyError")
  {
    var required := ["id", "operation_type", "payload", "error_info", "status", "created_at", "updated_at"];
    if exists k :: k in required && k !in d then Err("KeyError")
    else if !HasRequired(d) then Err("TypeError")
    else match StatusFromName(d["status"].s)
      case None => Err("KeyError")
      case Some(status) =>
        var retryCount := IntOr(d, "retry_count", 0);
        var maxRetries := IntOr(d, "max_retries", DefaultMaxRetries);
        var priority := IntOr(d, "priority", DefaultPriority);
        var next := NextRetryFrom(d);
        var lastError := LastErrorFrom(d);
        var history := HistoryFrom(d);
        var tags := TagsFrom(d);
        if retryCount.Err? || maxRetries.Err? || priority.Err? || next.Err? || lastError.Err?
           || history.Err? || tags.Err?
        then Err("TypeError")
        else Ok(Item(d["id"].s, d["operation_type"].s, d["payload"].p, d["error_info"].e, status,
                     d["created_at"].t, d["updated_at"].t, retryCount.value, maxRetries.value, next.value,
                     lastError.value, history.value, tags.value, priority.value))
  }

  /** The fields `to_dict` writes under the keys `from_dict` indexes. */
  lemma ToDictRequired(v: Item)
    ensures HasRequired(ToDict(v))
    ensures var d := ToDict(v);
            d["id"].s == v.id && d["operation_type"].s == v.operationType && d["payload"].p == v.payload
            && d["error_info"].e == v.errorInfo && d["status"].s == StatusName(v.status)
            && d["created_at"].t == v.createdAt && d["updated_at"].t == v.updatedAt
  {
  }

  /** The fields `to_dict` writes under the keys `from_dict` reads with defaults. */
  lemma ToDictOptional(v: Item)
    ensures var d := ToDict(v);
            IntOr(d, "retry_count", 0) == Ok(v.retryCount)
            && IntOr(d, "max_retries", DefaultMaxRetries) == Ok(v.maxRetries)
            && IntOr(d, "priority", DefaultPriority) == Ok(v.priority)
            && NextRetryFrom(d) == Ok(v.nextRetryAt) && LastErrorFrom(d) == Ok(v.lastError)
            && HistoryFrom(d) == Ok(v.history) && TagsFrom(d) == Ok(v.tags)
  {
  }

  /** What `_save_item` writes, `_load_items` reads back unchanged. */
  lemma RoundTrip(v: Item)
    ensures FromDict(ToDict(v)) == Ok(v)
  {
    ToDictRequired(v);
    ToDictOptional(v);
    assert StatusFromName(StatusName(v.status)) == Some(v.status);
  }

  // ----- the mutable objects -----

  /** `DLQItem`: the fields `mark_*` and `retry_item` update are variables. */
  class DLQItem {
    const id: string
    const operationType: string
    const payload: map<string, string>
    const errorInfo: ErrorInfo
    const createdAt: real
    const maxRetries: int
    const tags: seq<string>
    const priority: int
    var status: ItemStatus
    var updatedAt: real
    var retryCount: int
    var nextRetryAt: Option<real>
    var lastError: Option<string>
    var history: seq<HistoryEntry>

    function Model(): Item
      reads this
    {
      Item(id, operationType, payload, errorInfo, status, createdAt, updatedAt, retryCount, maxRetries,
           nextRetryAt, lastError, history, tags, priority)
    }

    /** `WithinBudget` of the item's current fields. */
    predicate Budgeted()
      reads this
    {
      retryCount <= (if maxRetries > 0 then maxRetries else 0)
    }

    constructor (v: Item)
      ensures Model() == v
    {
      id, operationType, payload, errorInfo := v.id, v.operationType, v.payload, v.errorInfo;
      createdAt, maxRetries, tags, priority := v.createdAt, v.maxRetries, v.tags, v.priority;
      status, updatedAt, retryCount := v.status, v.updatedAt, v.retryCount;
      nextRetryAt, lastError, history := v.nextRetryAt, v.lastError, v.history;
    }

    method MarkProcessing(now: real)
      modifies this
      ensures Model() == MarkedProcessing(old(Model()), now)
    {
      status := Processing;
      updatedAt := now;
      history := history + [ProcessingStarted(now)];
    }

    method MarkRetry(delay: real, now: real)
      modifies this
      ensures Model() == MarkedRetry(old(Model()), delay, now)
    {
      retryCount := retryCount + 1;
      status := Retrying;
      updatedAt := now;
      nextRetryAt := Some(now + delay);
      history := history + [ScheduledRetry(retryCount, now + delay)];
    }

    method MarkSuccess(now: real)
      modifies this
      ensures Model() == MarkedSuccess(old(Model()), now)
    {
      status := Success;
      updatedAt := now;
      history := history + [Succeeded(now)];
    }

    method MarkFailed(error: string, now: real)
      modifies this
      ensures Model() == MarkedFailed(old(Model()), error, now)
    {
      status := Failed;
      lastError := Some(error);
      updatedAt := now;
      history := history + [FailedEntry(error, now)];
    }

    method MarkDiscarded(reason: string, now: real)
      modifies this
      ensures Model() == MarkedDiscarded(old(Model()), reason, now)
    {
      status := Discarded;
      updatedAt := now;
      history := history + [DiscardedEntry(reason, now)];
    }
  }

  /** The items the queue holds, as values. */
  function Values(items: map<string, DLQItem>): (m: map<string, Item>)
    reads items.Values
    ensures m.Keys == items.Keys
  {
    map k | k in items :: items[k].Model()
  }

  /** Ranks ids by their item's priority, as `_process_ready_items` sorts. */
  function ByPriority(m: map<string, Item>): string -> (int, real)
  {
    k => if k in m then (m[k].priority, 0.0) else (0, 0.0)
  }

  /** Ranks ids by `(priority, created_at)`, as `get_all_items` sorts. */
  function ByPriorityThenAge(m: map<string, Item>): string -> (int, real)
  {
    k => if k in m then (m[k].priority, m[k].createdAt) else (0, 0.0)
  }

  /** The ids one sweep of `_process_ready_items` processes, in processing order. */
  function ReadyOrder(m: map<string, Item>, order: seq<string>, now: real): seq<string>
  {
    SortByRank(Filter(order, k => k in m && IsReady(m[k], now)), ByPriority(m))
  }

  /**
   * A sweep processes each item that is ready at its start exactly once, no
   * other item, and in non-decreasing priority order.
   */
  lemma ReadyOrderSpec(m: map<string, Item>, order: seq<string>, now: real)
    requires NoDup(order)
    ensures var r := ReadyOrder(m, order, now);
            NoDup(r)
            && (forall k :: k in r <==> k in order && k in m && IsReady(m[k], now))
            && (forall i, j :: 0 <= i < j < |r| ==> r[i] in m && r[j] in m && m[r[i]].priority <= m[r[j]].priority)
  {
    var ready := Filter(order, k => k in m && IsReady(m[k], now));
    var r := ReadyOrder(m, order, now);
    FilterNoDup(order, k => k in m && IsReady(m[k], now));
    SortByRankKeeps(ready, ByPriority(m));
    forall i, j | 0 <= i < j < |r| ensures r[i] in m && r[j] in m && m[r[i]].priority <= m[r[j]].priority {
      assert r[i] in ready && r[j] in ready;
      assert RankLe(ByPriority(m)(r[i]), ByPriority(m)(r[j]));
    }
  }

  lemma ReadyOrderDistinct(m: map<string, Item>, order: seq<string>, now: real)
    requires NoDup(order)
    ensures NoDup(ReadyOrder(m, order, now))
    ensures forall k :: k in ReadyOrder(m, order, now) ==> k in m
  {
    ReadyOrderSpec(m, order, now);
  }

  /** The ids `get_all_items` returns, in the order it returns them. */
  function Listed(m: map<string, Item>, order: seq<string>, status: Option<ItemStatus>,
                  operationType: Option<string>, tags: Option<seq<string>>): seq<string>
  {
    SortByRank(Filter(order, k => k in m && Matches(m[k], status, operationType, tags)), ByPriorityThenAge(m))
  }

  /**
   * `get_all_items` lists every item that passes the filters, once, and no
   * other, ordered by priority and then by creation time.
   */
  lemma ListedSpec(m: map<string, Item>, order: seq<string>, status: Option<ItemStatus>,
                   operationType: Option<string>, tags: Option<seq<string>>)
    requires NoDup(order)
    ensures var r := Listed(m, order, status, operationType, tags);
            NoDup(r)
            && (forall k :: k in r <==> k in order && k in m && Matches(m[k], status, operationType, tags))
            && (forall i, j :: 0 <= i < j < |r| ==>
                  r[i] in m && r[j] in m && RankLe((m[r[i]].priority, m[r[i]].createdAt), (m[r[j]].priority, m[r[j]].createdAt)))
  {
    var matching := Filter(order, k => k in m && Matches(m[k], status, operationType, tags));
    var r := Listed(m, order, status, operationType, tags);
    FilterNoDup(order, k => k in m && Matches(m[k], status, operationType, tags));
    SortByRankKeeps(matching, ByPriorityThenAge(m));
    forall i, j | 0 <= i < j < |r|
      ensures r[i] in m && r[j] in m && RankLe((m[r[i]].priority, m[r[i]].createdAt), (m[r[j]].priority, m[r[j]].createdAt))
    {
      assert r[i] in matching && r[j] in matching;
      assert RankLe(ByPriorityThenAge(m)(r[i]), ByPriorityThenAge(m)(r[j]));
    }
  }

  /** The ids `cleanup_old_items` keeps, in dictionary order. */
  function Kept(m: map<string, Item>, order: seq<string>, cutoff: real): seq<string>
  {
    Filter(order, k => !(k in m && Expired(m[k], cutoff)))
  }

  lemma KeptNoDup(m: map<string, Item>, order: seq<string>, cutoff: real)
    requires NoDup(order)
    ensures NoDup(Kept(m, order, cutoff))
  {
    FilterNoDup(order, k => !(k in m && Expired(m[k], cutoff)));
  }

  /** What `get_stats` reports besides the counters. */
  datatype StatsReport = StatsReport(counters: QueueStats, currentItems: nat,
                                     statusBreakdown: map<string, nat>, handlersRegistered: set<string>)

  /** How many of the listed items have status `s`. */
  function CountStatus(ids: seq<string>, m: map<string, Item>, s: ItemStatus): (n: nat)
    ensures n <= |ids|
    ensures n > 0 <==> exists k :: k in ids && k in m && m[k].status == s
  {
    if ids == [] then 0
    else
      var rest := CountStatus(ids[1..], m, s);
      assert forall k :: k in ids <==> k == ids[0] || k in ids[1..];
      if ids[0] in m && m[ids[0]].status == s then rest + 1 else rest
  }

  /** `status_counts`: a name appears exactly for the statuses some item has. */
  function Breakdown(ids: seq<string>, m: map<string, Item>): (b: map<string, nat>)
    ensures forall s :: StatusName(s) in b <==> exists k :: k in ids && k in m && m[k].status == s
    ensures forall s :: StatusName(s) in b ==> b[StatusName(s)] == CountStatus(ids, m, s)
    ensures forall name :: name in b ==> StatusFromName(name).Some?
  {
    map name | name in {"PENDING", "PROCESSING", "RETRYING", "FAILED", "SUCCESS", "DISCARDED"}
                 && StatusFromName(name).Some? && CountStatus(ids, m, StatusFromName(name).value) > 0
      :: CountStatus(ids, m, StatusFromName(name).value)
  }

  /** `done` holds exactly the first `i` entries of `ids`. */
  ghost predicate DoneUpTo(done: set<string>, ids: seq<string>, i: int)
  {
    0 <= i <= |ids| && done == set k | k in ids[..i]
  }

  lemma DoneStep(done: set<string>, ids: seq<string>, i: int)
    requires NoDup(ids) && DoneUpTo(done, ids, i) && i < |ids|
    ensures ids[i] !in done && DoneUpTo(done + {ids[i]}, ids, i + 1)
  {
    assert ids[..i + 1] == ids[..i] + [ids[i]];
  }

  lemma DoneAll(done: set<string>, ids: seq<string>)
    requires DoneUpTo(done, ids, |ids|)
    ensures done == set k | k in ids
  {
    assert ids[..|ids|] == ids;
  }

  /** `DeadLetterQueue`: items by id, the handlers registered, and the counters. */
  class Queue {
    var items: map<string, DLQItem>
    /** The ids in the dictionary's insertion order. */
    var order: seq<string>
    var handlers: set<string>
    var stats: QueueStats

    /**
     * Each item is stored under its own id, `order` lists each id once, and
     * no item has used more retries than its budget allows.
     */
    ghost predicate Valid()
      reads this, items.Values
    {
      (forall k :: k in items ==> items[k].id == k && items[k].Budgeted())
      && NoDup(order)
      && (forall k :: k in order <==> k in items)
    }

    constructor ()
      ensures Valid() && items == map[] && order == [] && handlers == {}
      ensures stats == QueueStats(0, 0, 0, 0)
    {
      items, order, handlers := map[], [], {};
      stats := QueueStats(0, 0, 0, 0);
    }

    /** `enqueue`, with the new uuid as the parameter `id`. */
    method Enqueue(operationType: string, payload: map<string, string>, error: Exc, maxRetries: int,
                   priority: int, tags: Option<seq<string>>, id: string, now: real) returns (itemId: string)
      requires Valid() && id !in items
      modifies this
      ensures Valid() && itemId == id
      ensures id in items && fresh(items[id])
      ensures items[id].Model() == NewItem(id, operationType, payload, error, maxRetries, priority, tags, now)
      ensures items == old(items)[id := items[id]] && order == old(order) + [id]
      ensures handlers == old(handlers)
      ensures stats == old(stats).(totalEnqueued := old(stats).totalEnqueued + 1)
    {
      var item := new DLQItem(NewItem(id, operationType, payload, error, maxRetries, priority, tags, now));
      items := items[id := item];
      order := order + [id];
      stats := stats.(totalEnqueued := stats.totalEnqueued + 1);
      itemId := id;
    }

    method RegisterHandler(operationType: string)
      modifies this
      ensures handlers == old(handlers) + {operationType}
      ensures items == old(items) && order == old(order) && stats == old(stats)
    {
      handlers := handlers + {operationType};
    }

    /** `_process_item` on one item of the queue. */
    method ProcessItem(item: DLQItem, outcome: HandlerOutcome, now: real)
      requires Valid() && item in items.Values
      modifies this, item
      ensures Valid()
      ensures items == old(items) && order == old(order) && handlers == old(handlers)
      ensures item.Model() == ProcessStep(old(item.Model()), item.operationType in handlers, outcome, now)
      ensures stats == StatsAfter(old(stats), old(item.Model()), item.operationType in handlers, outcome)
    {
      if item.operationType !in handlers {
        item.MarkDiscarded(NoHandlerReason, now);
        return;
      }
      item.MarkProcessing(now);
      if outcome == Returned(true) {
        item.MarkSuccess(now);
        stats := stats.(totalSuccess := stats.totalSuccess + 1);
      } else {
        var message := FailureMessage(outcome);
        item.lastError := Some(message);
        if item.retryCount < item.maxRetries {
          item.MarkRetry(RetryDelay(item.retryCount), now);
        } else {
          item.MarkFailed(message, now);
          stats := stats.(totalFailed := stats.totalFailed + 1);
        }
      }
    }

    /** Every item in `done` has had one pass since the snapshot `before`; every other item is as it was. */
    ghost predicate SweptOnce(done: set<string>, before: map<string, Item>, outcome: string -> HandlerOutcome, now: real)
      reads this, items.Values
    {
      forall k :: k in items ==>
        k in before
        && items[k].Model() == if k in done
                               then ProcessStep(before[k], items[k].operationType in handlers, outcome(k), now)
                               else before[k]
    }

    /** One iteration of the sweep: process item `k`, which has not been processed yet. */
    method SweepStep(k: string, ghost done: set<string>, ghost before: map<string, Item>,
                     outcome: string -> HandlerOutcome, now: real)
      requires Valid() && k in items && k !in done && SweptOnce(done, before, outcome, now)
      modifies this, items[k]
      ensures Valid() && SweptOnce(done + {k}, before, outcome, now)
      ensures items == old(items) && order == old(order) && handlers == old(handlers)
      ensures k in before && items[k].Model() == ProcessStep(before[k], before[k].operationType in handlers, outcome(k), now)
      ensures var r := items[k].Model();
        stats == old(stats).(totalSuccess := old(stats).totalSuccess + (if r.status == Success then 1 else 0),
                             totalFailed := old(stats).totalFailed + (if r.status == Failed then 1 else 0))
    {
      ProcessItem(items[k], outcome(k), now);
      StatsTrackOutcome(old(stats), before[k], before[k].operationType in handlers, outcome(k), now);
    }

    /** The loop of `_process_ready_items`: process each listed item once, in list order. */
    method Sweep(ids: seq<string>, ghost before: map<string, Item>, outcome: string -> HandlerOutcome, now: real)
      requires Valid() && NoDup(ids) && (forall k :: k in ids ==> k in items)
      requires SweptOnce({}, before, outcome, now)
      modifies this, items.Values
      ensures Valid() && SweptOnce((set k | k in ids), before, outcome, now)
      ensures items == old(items) && order == old(order) && handlers == old(handlers)
      ensures stats == old(stats).(
        totalSuccess := old(stats).totalSuccess + CountEnding(ids, before, handlers, outcome, now, Success),
        totalFailed := old(stats).totalFailed + CountEnding(ids, before, handlers, outcome, now, Failed))
    {
      ghost var done: set<string> := {};
      var i := 0;
      while i < |ids|
        invariant 0 <= i <= |ids|
        invariant Valid()
        invariant items == old(items) && order == old(order) && handlers == old(handlers)
        invariant DoneUpTo(done, ids, i)
        invariant SweptOnce(done, before, outcome, now)
        invariant stats.totalEnqueued == old(stats).totalEnqueued && stats.totalDiscarded == old(stats).totalDiscarded
        invariant stats.totalSuccess == old(stats).totalSuccess + CountEnding(ids[..i], before, handlers, outcome, now, Success)
        invariant stats.totalFailed == old(stats).totalFailed + CountEnding(ids[..i], before, handlers, outcome, now, Failed)
      {
        var k := ids[i];
        DoneStep(done, ids, i);
        SweepStep(k, done, before, outcome, now);
        CountEndingSnoc(ids, i, before, handlers, outcome, now, Success);
        CountEndingSnoc(ids, i, before, handlers, outcome, now, Failed);
        done := done + {k};
        i := i + 1;
      }
      DoneAll(done, ids);
      assert ids[..|ids|] == ids;
    }

    /** `_process_ready_items`: one sweep over the items ready at `now`; `outcome` gives each handler's result. */
    method ProcessReadyItems(outcome: string -> HandlerOutcome, now: real) returns (processed: seq<string>)
      requires Valid()
      modifies this, items.Values
      ensures Valid()
      ensures items == old(items) && order == old(order) && handlers == old(handlers)
      ensures processed == ReadyOrder(old(Values(items)), order, now)
      ensures SweptOnce((set k | k in processed), old(Values(items)), outcome, now)
      ensures stats == old(stats).(
        totalSuccess := old(stats).totalSuccess + CountEnding(processed, old(Values(items)), handlers, outcome, now, Success),
        totalFailed := old(stats).totalFailed + CountEnding(processed, old(Values(items)), handlers, outcome, now, Failed))
    {
      ghost var before := Values(items);
      processed := ReadyOrder(Values(items), order, now);
      ReadyOrderDistinct(before, order, now);
      Sweep(processed, before, outcome, now);
    }

    /** `retry_item`: reset the counter and schedule, then process at once. */
    method RetryItem(id: string, outcome: HandlerOutcome, now: real) returns (found: bool)
      requires Valid()
      modifies this, items.Values
      ensures Valid()
      ensures found <==> id in old(items)
      ensures items == old(items) && order == old(order) && handlers == old(handlers)
      ensures found ==> items[id].Model()
                          == ProcessStep(ResetForRetry(old(items[id].Model())), items[id].operationType in handlers, outcome, now)
      ensures forall k :: k in items && k != id ==> items[k].Model() == old(items[k].Model())
      ensures found ==>
        stats == StatsAfter(old(stats), ResetForRetry(old(items[id].Model())), old(items[id].operationType) in handlers, outcome)
      ensures !found ==> stats == old(stats)
    {
      if id !in items {
        return false;
      }
      var item := items[id];
      item.retryCount := 0;
      item.status := Pending;
      item.nextRetryAt := None;
      ProcessItem(item, outcome, now);
      found := true;
    }

    /** `discard_item` */
    method DiscardItem(id: string, reason: string, now: real) returns (found: bool)
      requires Valid()
      modifies this, items.Values
      ensures Valid()
      ensures found <==> id in old(items)
      ensures items == old(items) && order == old(order) && handlers == old(handlers)
      ensures found ==> items[id].Model() == MarkedDiscarded(old(items[id].Model()), reason, now)
      ensures found ==> stats == old(stats).(totalDiscarded := old(stats).totalDiscarded + 1)
      ensures !found ==> stats == old(stats)
      ensures forall k :: k in items && k != id ==> items[k].Model() == old(items[k].Model())
    {
      if id !in items {
        return false;
      }
      items[id].MarkDiscarded(reason, now);
      stats := stats.(totalDiscarded := stats.totalDiscarded + 1);
      found := true;
    }

    /** `get_item` */
    function GetItem(id: string): (r: Option<DLQItem>)
      reads this
      ensures r.Some? <==> id in items
      ensures r.Some? ==> r.value == items[id]
    {
      if id in items then Some(items[id]) else None
    }

    /** `get_all_items` */
    function GetAllItems(status: Option<ItemStatus>, operationType: Option<string>, tags: Option<seq<string>>)
      : (r: seq<DLQItem>)
      requires Valid()
      reads this, items.Values
      ensures var ids := Listed(Values(items), order, status, operationType, tags);
              |r| == |ids| && forall i :: 0 <= i < |r| ==> ids[i] in items && r[i] == items[ids[i]]
    {
      var ids := Listed(Values(items), order, status, operationType, tags);
      ListedSpec(Values(items), order, status, operationType, tags);
      var m := items;
      seq(|ids|, i requires 0 <= i < |ids| && ids[i] in m => m[ids[i]])
    }

    /** `get_stats` */
    function GetStats(): (r: StatsReport)
      reads this, items.Values
      ensures r.counters == stats && r.currentItems == |items| && r.handlersRegistered == handlers
      ensures r.statusBreakdown == Breakdown(order, Values(items))
    {
      StatsReport(stats, |items|, Breakdown(order, Values(items)), handlers)
    }

    /** The first loop of `cleanup_old_items`: the ids of finished items last updated before `cutoff`. */
    method ExpiredIds(cutoff: real) returns (toRemove: seq<string>)
      requires Valid()
      ensures forall k :: k in toRemove <==> k in items && Expired(items[k].Model(), cutoff)
    {
      toRemove := [];
      var i := 0;
      while i < |order|
        invariant 0 <= i <= |order|
        invariant forall k :: k in toRemove <==> k in order[..i] && Expired(items[k].Model(), cutoff)
      {
        var k := order[i];
        if items[k].status == Success || items[k].status == Discarded {
          if items[k].updatedAt < cutoff {
            toRemove := toRemove + [k];
          }
        }
        assert order[..i + 1] == order[..i] + [k];
        i := i + 1;
      }
      assert order[..i] == order;
    }

    /** The second loop of `cleanup_old_items`: `del self._items[item_id]` for each listed id. */
    method DeleteAll(ids: seq<string>)
      modifies this
      ensures forall k :: k in items <==> k in old(items) && k !in ids
      ensures forall k :: k in items ==> items[k] == old(items[k])
      ensures order == old(order) && handlers == old(handlers) && stats == old(stats)
    {
      var j := 0;
      while j < |ids|
        invariant 0 <= j <= |ids|
        invariant forall k :: k in items <==> k in old(items) && k !in ids[..j]
        invariant forall k :: k in items ==> items[k] == old(items[k])
        invariant order == old(order) && handlers == old(handlers) && stats == old(stats)
      {
        items := items - {ids[j]};
        assert ids[..j + 1] == ids[..j] + [ids[j]];
        j := j + 1;
      }
      assert ids[..j] == ids;
    }

    /** `cleanup_old_items`: drop finished items untouched for `maxAgeDays` days. */
    method CleanupOldItems(maxAgeDays: int, now: real)
      requires Valid()
      modifies this
      ensures Valid()
      ensures forall k :: k in items <==> k in old(items) && !Expired(old(items[k].Model()), Cutoff(now, maxAgeDays))
      ensures forall k :: k in items ==> items[k] == old(items[k])
      ensures order == Kept(old(Values(items)), old(order), Cutoff(now, maxAgeDays))
      ensures handlers == old(handlers) && stats == old(stats)
    {
      var cutoff := Cutoff(now, maxAgeDays);
      var snapshot := Values(items);
      var toRemove := ExpiredIds(cutoff);
      DeleteAll(toRemove);
      KeptNoDup(snapshot, order, cutoff);
      // deleting from a dictionary keeps the remaining keys in insertion order
      order := Kept(snapshot, order, cutoff);
    }
  }
}
