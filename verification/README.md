# Invoice bot self-healing fabric and invoice rules, in Dafny

This project models the core of a Telegram invoice bot written in Python. It has two parts.

The first part is the bot's self-healing fabric:
- two circuit breaker variants (`circuit_breaker.dfy`, and the one in `error_recovery.dfy`);
- retry with exponential backoff (`retry_mechanism.dfy`, `error_recovery.dfy`);
- keyword-based error classification (`error_classification.dfy`);
- the dead-letter queue of failed operations (`dead_letter_queue.dfy`);
- the layered session-state manager (`state_persistence.dfy`);
- the task orchestrator and its watchdog (`orchestrator.dfy`, `watchdog.dfy`);
- the tiered AI model fallback chain (`fallback_chain.dfy`);
- the user-facing message catalogue (`user_messages.dfy`).

The second part is the invoice rules around it:
- the extraction pipeline's helpers, schema, validators, cleaners and enricher (`pipeline_utils.dfy`, `pipeline_models.dfy`, `validators.dfy`, `cleaners.dfy`, `enrichment.dfy`);
- file-type detection and result bookkeeping (`pipeline.dfy`);
- the chat bot's invoice model and conversation state machine (`agent_invoice.dfy`, `conversation_state.dfy`);
- the upload bot's invoice record (`bot_invoice_data.dfy`);
- the sandbox extraction agent with its strategy table (`extraction_agent.dfy`, `extraction_strategies.dfy`, `extracted_data.dfy`);
- the heuristic quality score (`ai_quality.dfy`).

Shared helpers:
- `wrappers.dfy`: `Option` and `Result`;
- `text.dfy`: the ASCII part of Python's string methods;
- `sequences.dfy`: filtering, de-duplication and stable sorting;
- `numeric.dfy`: min, max and powers;
- `exceptions.dfy`: Python exceptions as their class hierarchy and message.

How the model treats the program's environment:
- Time is a `now` parameter.
- Random jitter is a parameter: `u` in [-1, 1] for `RetryMechanism` (the source's `random.uniform(-1, 1)`), and `r` in [0, 1) for `ErrorRecovery` (the source's `random.random()`).
- An awaited operation, a handler, a model call or a sandbox run is an outcome value passed in.
- No module performs I/O.

Code that updates objects in place is modelled as Dafny classes:
- Each such class has a value-level `Model()`.
- Each method is proved against a `...Step` specification function: `Model() == Step(old(Model()))`.
- The properties are proved as lemmas about those step functions.

Pure code is modelled as functions with lemmas.

Where the documented behaviour and the code disagree, the model follows the code:
- A circuit-breaker rejection inside `retry()` counts as a failed attempt. It happens inside the `try`, so it consumes an attempt.
- A task that times out with no fallback is failed through `fail_task` and ends FAILED, not TIMEOUT.

The exception is code that is evidently wrong (see "## Findings"). There, a member models the code as written and a corrected member models the intended behaviour, and the members that use it follow the intended behaviour:
- `ErrorClassification.AnalyzeRetryability` and `ErrorClassification.ErrorClassifier.Classify` use the corrected keyword-group order.
- `Validators.ContractorProblems`, `Validators.ValidateInvoice` and `Enrichment.InvoiceRecord.ValidateAndClean` use the corrected NI check.
- `ConversationStateMachine.Manager.GetOrCreate` and `ConversationStateMachine.Manager.ResetConversation` create a context with no draft, where the default factory raises.
- `BotInvoiceData.TotalAfterItems` uses the corrected subtotal.
- `AgentInvoice.NewItem` fills in an omitted amount.
- The orchestrator's own members follow the code as written (a rescued task ends COMPLETED); `Orchestrator.AfterTimeoutIntended` and `Orchestrator.IntendedRecordsRecovery` give the intended behaviour beside them.

## Model

| member | source | states |
|---|---|---|
| CircuitBreaker.Initial | circuit_breaker.py:96-103 | a new breaker is CLOSED with zeroed counters and keeps the invariant |
| CircuitBreaker.CanExecuteStep | circuit_breaker.py:116-146 | CLOSED admits and changes nothing; OPEN before the recovery timeout rejects and counts one rejection; OPEN after it moves to HALF_OPEN with the call counter at 0 and admits; HALF_OPEN admits iff fewer than `half_open_max_calls` calls were admitted; the invariant is kept |
| CircuitBreaker.RecordSuccessStep | circuit_breaker.py:148-165 | counts the success, resets consecutive failures, and closes (clearing `opened_at`, one state change) exactly when HALF_OPEN reaches `success_threshold` consecutive successes; otherwise the state is unchanged |
| CircuitBreaker.RecordFailureStep | circuit_breaker.py:167-195 | counts the failure, resets consecutive successes; CLOSED opens iff consecutive failures reach `failure_threshold`; HALF_OPEN always reopens; opening records `opened_at = now` and one state change; OPEN stays OPEN without re-arming |
| CircuitBreaker.ForceOpenStep | circuit_breaker.py:205-215 | the result is OPEN; an already open breaker is unchanged; otherwise `opened_at = now` and one state change |
| CircuitBreaker.ForceCloseStep | circuit_breaker.py:217-228 | the result is CLOSED with `opened_at` cleared and consecutive failures reset; an already closed breaker is unchanged; the half-open counter is left as it was |
| CircuitBreaker.FailuresKeepOpen | circuit_breaker.py:167-195 | further failures keep an open breaker open without moving `opened_at` |
| CircuitBreaker.ConsecutiveFailuresOpen | circuit_breaker.py:175-181 | from CLOSED, n failures open the breaker iff the consecutive count reaches the threshold, with `opened_at` the time of the tripping failure; otherwise it stays CLOSED |
| CircuitBreaker.SuccessesKeepClosed | circuit_breaker.py:148-165 | successes keep a closed breaker closed with no opening time |
| CircuitBreaker.ConsecutiveSuccessesClose | circuit_breaker.py:156-162 | from HALF_OPEN, n successes close the breaker (clearing `opened_at`) iff the consecutive count reaches `success_threshold`; otherwise it stays HALF_OPEN |
| CircuitBreaker.HalfOpenAdmitsAtMost | circuit_breaker.py:138-144 | of n checks in HALF_OPEN exactly min(n, room) are admitted, where room is what is left under `half_open_max_calls`; the counter never passes the limit |
| CircuitBreaker.CircuitBreaker.constructor | circuit_breaker.py:96-103 | the new object's state is the initial breaker |
| CircuitBreaker.CircuitBreaker.CanExecute | circuit_breaker.py:116-146 | updates the fields as `CanExecuteStep` says and returns its verdict |
| CircuitBreaker.CircuitBreaker.RecordSuccess | circuit_breaker.py:148-165 | updates the fields as `RecordSuccessStep` says |
| CircuitBreaker.CircuitBreaker.RecordFailure | circuit_breaker.py:167-195 | updates the fields as `RecordFailureStep` says |
| CircuitBreaker.CircuitBreaker.ForceOpen | circuit_breaker.py:205-215 | updates the fields as `ForceOpenStep` says |
| CircuitBreaker.CircuitBreaker.ForceClose | circuit_breaker.py:217-228 | updates the fields as `ForceCloseStep` says |
| CircuitBreaker.Registry.GetOrCreate | circuit_breaker.py:286-291 | an existing name returns its breaker and changes nothing; a new name registers and returns a fresh initial breaker with the given config or the defaults under that name |
| CircuitBreaker.Registry.Get | circuit_breaker.py:293-295 | returns the breaker registered under the name, or nothing |
| CircuitBreaker.Registry.Remove | circuit_breaker.py:297-300 | removes only that name; an absent name changes nothing |
| CircuitBreaker.Registry.ResetAll | circuit_breaker.py:306-309 | every registered breaker's state becomes `ForceCloseStep` of its old state (CLOSED, no opening time, one more state change and no consecutive failures unless it was already closed), also when two names share one breaker |
| DeadLetterQueue.MarkedProcessing | dead_letter_queue.py:94-101 | status PROCESSING, `updated_at = now`, one `processing_started` history entry appended, every other field unchanged |
| DeadLetterQueue.MarkedRetry | dead_letter_queue.py:103-113 | retry count plus one, status RETRYING, next retry at `now + delay`, one `scheduled_retry` entry carrying the new count; nothing else changes |
| DeadLetterQueue.MarkedSuccess | dead_letter_queue.py:115-122 | status SUCCESS, one `success` entry appended, nothing else changes |
| DeadLetterQueue.MarkedFailed | dead_letter_queue.py:124-133 | status FAILED, `last_error` set, one `failed` entry appended, nothing else changes |
| DeadLetterQueue.MarkedDiscarded | dead_letter_queue.py:135-143 | status DISCARDED, one `discarded` entry appended, nothing else changes |
| DeadLetterQueue.IsReady | dead_letter_queue.py:145-153 | ready iff PENDING or RETRYING, retry count below the budget, and no next-retry time or one already reached |
| DeadLetterQueue.RetryDelay | dead_letter_queue.py:332-336 | the backoff `min(60 * 2 ** retry_count, 3600)` is positive and at most an hour |
| DeadLetterQueue.RetryDelayDoubles | dead_letter_queue.py:335 | the delay starts at 60 s and doubles with each retry below the cap |
| DeadLetterQueue.RetryDelayCapped | dead_letter_queue.py:335 | from the sixth retry on the delay is 3600 s |
| DeadLetterQueue.RetryDelayMonotone | dead_letter_queue.py:335 | the delay never shrinks as the retry count grows |
| DeadLetterQueue.ProcessStep | dead_letter_queue.py:303-342 | no handler: discarded with "No handler registered" and nothing run; otherwise PROCESSING then SUCCESS on a truthy result, RETRYING with the backoff delay while the budget allows, else FAILED, with `last_error` the exception text; exactly two history entries; identity fields unchanged; the retry budget is kept |
| DeadLetterQueue.ReadyAfterProcess | dead_letter_queue.py:303-342 | after one pass an item is ready again iff the handler failed, another retry is allowed, and the backoff has elapsed; FAILED, SUCCESS and DISCARDED items are never ready (see also lines 145-153) |
| DeadLetterQueue.StatsTrackOutcome | dead_letter_queue.py:319-340 | `total_success` moves exactly when a pass ends in SUCCESS and `total_failed` exactly when it ends in FAILED; a missing handler moves neither |
| DeadLetterQueue.ResetForRetry | dead_letter_queue.py:350-352 | retry count 0, status PENDING, no next-retry time, history kept; an item with a positive budget is then ready |
| DeadLetterQueue.NewItem | dead_letter_queue.py:224-240 | a PENDING item with retry count 0, empty history, the error's type name and text, `tags or []`; it is ready at once iff its budget is positive |
| DeadLetterQueue.StatusFromName | dead_letter_queue.py:85 | looking a status up by name is the inverse of `.name`, and fails only for names no status has |
| DeadLetterQueue.FromDict | dead_letter_queue.py:76-92 | succeeds only with every required key and a known status name; absent optional keys take the dataclass defaults; an empty dict is a `KeyError` |
| DeadLetterQueue.ToDictRequired | dead_letter_queue.py:57-74 | `to_dict` writes every key `from_dict` indexes, with the item's own values |
| DeadLetterQueue.ToDictOptional | dead_letter_queue.py:57-92 | the defaulted keys written by `to_dict` read back as the item's own values |
| DeadLetterQueue.RoundTrip | dead_letter_queue.py:57-92 | `from_dict(to_dict(item))` is the item, every field included |
| DeadLetterQueue.DLQItem.constructor | dead_letter_queue.py:40-55 | the object's fields are the given item |
| DeadLetterQueue.DLQItem.MarkProcessing | dead_letter_queue.py:94-101 | updates the fields as `MarkedProcessing` says |
| DeadLetterQueue.DLQItem.MarkRetry | dead_letter_queue.py:103-113 | updates the fields as `MarkedRetry` says |
| DeadLetterQueue.DLQItem.MarkSuccess | dead_letter_queue.py:115-122 | updates the fields as `MarkedSuccess` says |
| DeadLetterQueue.DLQItem.MarkFailed | dead_letter_queue.py:124-133 | updates the fields as `MarkedFailed` says |
| DeadLetterQueue.DLQItem.MarkDiscarded | dead_letter_queue.py:135-143 | updates the fields as `MarkedDiscarded` says |
| DeadLetterQueue.ReadyOrderSpec | dead_letter_queue.py:290-301 | a sweep processes each item ready at its start exactly once, no other, in non-decreasing priority order |
| DeadLetterQueue.ListedSpec | dead_letter_queue.py:374-395 | `get_all_items` lists each item passing the status, type and tag filters exactly once, ordered by priority and then creation time |
| DeadLetterQueue.CountStatus | dead_letter_queue.py:399-402 | the count for a status is positive iff some item has it |
| DeadLetterQueue.Breakdown | dead_letter_queue.py:399-402 | the breakdown names exactly the statuses some item has, each with its count |
| DeadLetterQueue.Queue.constructor | dead_letter_queue.py:168-181 | an empty queue with zero counters |
| DeadLetterQueue.Queue.Enqueue | dead_letter_queue.py:210-251 | stores a fresh item as `NewItem` describes under the new id, appends the id, bumps `total_enqueued` by one, changes nothing else |
| DeadLetterQueue.Queue.RegisterHandler | dead_letter_queue.py:253-256 | adds the operation type to the handlers and changes nothing else |
| DeadLetterQueue.Queue.ProcessItem | dead_letter_queue.py:303-342 | the item moves as `ProcessStep` says and the counters as `StatsAfter`; the item set is unchanged |
| DeadLetterQueue.Queue.SweepStep | dead_letter_queue.py:300-342 | the next listed item, if still stored, ends as `ProcessStep` of its state before the sweep; `total_success` goes up by one exactly when it ends SUCCESS and `total_failed` exactly when it ends FAILED, no other counter changes; every other item is as it was |
| DeadLetterQueue.CountEnding | dead_letter_queue.py:300-342 | the number of listed items whose single pass ends in the given status is at most the number listed |
| DeadLetterQueue.CountEndingSnoc | dead_letter_queue.py:300-342 | one more stored item adds one to the count exactly when its pass ends in the status |
| DeadLetterQueue.Queue.Sweep | dead_letter_queue.py:300-342 | every listed item has had exactly one pass and every other item is unchanged; `total_success` and `total_failed` grow by the number of passes ending SUCCESS and FAILED (lines 320 and 337), the other counters are unchanged |
| DeadLetterQueue.Queue.ProcessReadyItems | dead_letter_queue.py:290-342 | processes exactly `ReadyOrder` of the items at the start, one pass each; `total_success` and `total_failed` grow by the number of those passes ending SUCCESS and FAILED; enqueue and discard counters unchanged |
| DeadLetterQueue.Queue.RetryItem | dead_letter_queue.py:344-357 | returns whether the id was present; the item is reset and then processed once, and the counters move as `StatsAfter` says for that pass; an absent id changes nothing; every other item is unchanged |
| DeadLetterQueue.Queue.DiscardItem | dead_letter_queue.py:359-368 | returns whether the id was present; the item is marked discarded and `total_discarded` bumped; otherwise nothing changes |
| DeadLetterQueue.Queue.GetItem | dead_letter_queue.py:370-372 | the item stored under the id, or nothing |
| DeadLetterQueue.Queue.GetAllItems | dead_letter_queue.py:374-395 | the stored items in the order `Listed` gives |
| DeadLetterQueue.Queue.GetStats | dead_letter_queue.py:397-409 | the counters, the item count, the handlers and the status breakdown |
| DeadLetterQueue.Queue.ExpiredIds | dead_letter_queue.py:415-419 | exactly the SUCCESS or DISCARDED items last updated before the cutoff |
| DeadLetterQueue.Queue.DeleteAll | dead_letter_queue.py:421-427 | removes exactly the listed ids and keeps every other item |
| DeadLetterQueue.Queue.CleanupOldItems | dead_letter_queue.py:411-429 | removes exactly the finished items older than the cutoff; every other item, the handlers and the counters are kept |
| RetryMechanism.CalculateDelay | retry_mechanism.py:103-114 | without jitter the delay is `min(base_delay * exponential_base ** attempt, max_delay)`; with jitter it is never negative and at most that delay times `1 + jitter_max` |
| RetryMechanism.Jittered | retry_mechanism.py:110-112 | `max(0, d + d * jitter_max * u)` lies in `[0, d * (1 + jitter_max)]` for `u` in `[-1, 1]` |
| RetryMechanism.DelayNonDecreasing | retry_mechanism.py:106-107 | without jitter, with a non-negative base delay and a base of at least 1, a later attempt never waits less |
| RetryMechanism.ShouldRetry | retry_mechanism.py:116-131 | false at or past `max_retries`; false for a non-retryable class, which wins over the retryable list; with a retryable list only its classes retry; with neither list, true |
| RetryMechanism.RetryContext.constructor | retry_mechanism.py:74-79 | zeroed statistics and no errors |
| RetryMechanism.RetryContext.RecordAttempt | retry_mechanism.py:90-92 | the attempt counter goes up by one and nothing else changes |
| RetryMechanism.RetryContext.RecordSuccess | retry_mechanism.py:94-96 | counts the success and resets consecutive failures to 0 |
| RetryMechanism.RetryContext.RecordFailure | retry_mechanism.py:98-101 | counts the failure, bumps consecutive failures and appends the exception to the errors |
| RetryMechanism.BreakerOpenError | retry_mechanism.py:167-170 | the refusal raises a `CircuitBreakerOpenError`, which is not a timeout (see also lines 322-325) |
| RetryMechanism.AfterAttempt | retry_mechanism.py:167-188 | a refused attempt counts as a breaker failure; a success is recorded as a breaker success; a failure that is an `Exception` is a breaker failure, except in the async timeout branch, which records nothing; an error that is not an `Exception` escapes `except Exception` and the breaker is left as `can_execute` left it; the breaker invariant is kept (see also lines 271-290) |
| RetryMechanism.CountedWaitSnoc | retry_mechanism.py:271-277 | each sleep adds its delay to `total_wait_time`, except one after an async timeout (see also lines 197-198) |
| RetryMechanism.RunAttempt | retry_mechanism.py:165-188 | without a breaker the function runs; with one, the attempt is refused exactly when `can_execute` says no, and the breaker's new state is `AfterAttempt` of the outcome (so an escaping non-`Exception` error records nothing) |
| RetryMechanism.Step | retry_mechanism.py:162-209 | one loop pass: counts the attempt and runs it; a success is recorded; a caught failure is recorded with its error, `should_retry` is asked and the delay computed; an error the `except` clauses do not catch stops the loop at once with only the attempt counted |
| RetryMechanism.BookkeptStep | retry_mechanism.py:162-220 | the bookkeeping after n caught and retried failures extends by one pass; a pass that stops concludes the call: with the success, with the escaping error unchanged, or with the caught error that `should_retry` refused |
| RetryMechanism.EscapeEndsCall | retry_mechanism.py:162-218 | an error that is not an `Exception` (nor, in the async wrapper, a timeout) can only be the last attempt; it is the call's outcome, and the errors and failure counts hold only the earlier caught failures (see also lines 266-290) |
| RetryMechanism.Retry | retry_mechanism.py:235-318 | the function runs between 1 and `max_retries + 1` times (never when `max_retries` is negative, which raises "All retries failed"); every attempt but the last failed with a caught error and was judged retryable; the outcome is the last attempt's, and an error that is not an `Exception` propagates unrecorded; statistics, errors and waits match the attempts; with a breaker, each attempt is guarded by the breaker state before it (see also lines 156-220) |
| ErrorClassification.FirstGroup | error_classification.py:147-171 | the index of the first keyword group with a keyword in the message or the type name; no earlier group has one |
| ErrorClassification.DetermineCategory | error_classification.py:147-171 | the category of the first matching group, in the order the checks run; UNKNOWN exactly when no group matches |
| ErrorClassification.KindPolicy | error_classification.py:183-192 | every retryable keyword group gives a retryable policy with at least one retry |
| ErrorClassification.CategoryDefault | error_classification.py:194-208 | a non-retryable default allows no retries and no delay; a retryable one allows at least one retry |
| ErrorClassification.AnalyzeWith | error_classification.py:173-208 | a non-retryable keyword always gives (False, HIGH, 0, 0.0); otherwise a rate-limit match gives (True, MEDIUM, 5, 2.0), a timeout match (True, MEDIUM, 3, 1.0), and no match the category's default; a non-retryable result never allows retries |
| ErrorClassification.AnalyzeRetryability | error_classification.py:173-208 | over the groups in the corrected order (service_down before transient): a non-retryable keyword gives (False, HIGH, 0, 0.0), and a non-retryable result never allows retries |
| ErrorClassification.ServiceUnavailableShadowed | error_classification.py:79-85 | as written, a message holding "service unavailable" never gets the service_down policy, because "unavailable" in the earlier transient group matches first |
| ErrorClassification.ServiceUnavailableCorrected | error_classification.py:183-192 | with service_down checked before transient, such a message (with no non-retryable, rate-limit or timeout keyword) gets (True, HIGH, 10, 5.0) |
| ErrorClassification.CorrectionOnlyMovesServiceDown | error_classification.py:79-85 | for a message and type name without a service_down keyword, the corrected order gives the same policy as the source's order |
| ErrorClassification.FallbackStrategy | error_classification.py:210-224 | USER_INPUT always maps to "clarify_request"; every other category maps to different strategies for the two retryability values |
| ErrorClassification.UserMessage | error_classification.py:226-249 | categories without a message of their own in the table for the retryability get that retryability's default message |
| ErrorClassification.LogLevel | error_classification.py:251-260 | the level is one of the five names, and no two severities share a level |
| ErrorClassification.ErrorClassifier.constructor | error_classification.py:95-96 | a new classifier has no custom classifiers |
| ErrorClassification.ErrorClassifier.RegisterCustomClassifier | error_classification.py:262-264 | registers the classifier under the exact type name, replacing any earlier one and leaving the others |
| ErrorClassification.ErrorClassifier.Classify | error_classification.py:98-145 | a classifier registered for the exact type decides alone; otherwise the category is `DetermineCategory` of the lower-cased message and type name, and retryability, severity, maximum retries and base delay are exactly those of the corrected `AnalyzeRetryability` of the lower-cased message and type name; the fallback and user message are the `FallbackStrategy` and `UserMessage` table entries for that category and policy; the context is the given one or empty; a non-retryable result allows no retries, the log level follows the severity, and USER_INPUT asks for clarification |
| StatePersistence.NewSession | state_persistence.py:29-42 | a new session keeps the three ids, is at step "start", version 1, with no history, and both timestamps are the creation time |
| StatePersistence.UpdateTimestamp | state_persistence.py:83-86 | the version goes up by one, `updated_at` becomes the current time, and no other field changes |
| StatePersistence.FromDict | state_persistence.py:60-81 | a missing id raises `KeyError`; a success reads the ids from the dictionary; a dictionary holding only the three ids gives exactly the freshly constructed session |
| StatePersistence.ToDictFields | state_persistence.py:44-58 | every field `to_dict` writes is read back unchanged by the matching `get` of `from_dict` |
| StatePersistence.RoundTrip | state_persistence.py:44-81 | `from_dict(to_dict(s))` gives back `s`, whatever the current time |
| StatePersistence.OldestAt | state_persistence.py:118-119 | the position of a key with the earliest access time, and the first such position in insertion order |
| StatePersistence.Oldest | state_persistence.py:118-119 | the key `min(access_times, key=access_times.get)` picks: a stored key whose access time is the smallest, the first such one in insertion order |
| StatePersistence.MemoryLayer.constructor | state_persistence.py:111-114 | an empty layer with the given capacity |
| StatePersistence.MemoryLayer.Save | state_persistence.py:116-125 | a new key at capacity evicts the least recently accessed key first; the key is stored with access time now; the keys stay within capacity; the insertion order is kept for an existing key, and for a new key loses the evicted key (if any) and gains the new one at the end; with no positive capacity a new key raises `ValueError` and nothing changes |
| StatePersistence.MemoryLayer.EvictOldest | state_persistence.py:118-121 | removes exactly the `Oldest` key from both dictionaries and the insertion order |
| StatePersistence.MemoryLayer.Load | state_persistence.py:127-131 | a hit returns the stored state and refreshes only that key's access time; a miss returns None and changes nothing |
| StatePersistence.MemoryLayer.Delete | state_persistence.py:133-138 | the result says whether the key was stored; the key is gone from both dictionaries and from the insertion order, whose other keys keep their order |
| StatePersistence.MemoryLayer.AllKeys | state_persistence.py:143-144 | every stored key exactly once |
| StatePersistence.WrittenBySnoc | state_persistence.py:390-394 | one more sync step adds exactly the next write layer, unless it fails |
| StatePersistence.SavedStep | state_persistence.py:390-394 | writing the state to the next write layer (or skipping a failing one) extends what has been saved by one layer |
| StatePersistence.DeletedStep | state_persistence.py:431-437 | deleting from the next write layer (or skipping one that does not remove the key) extends what has been deleted by one layer |
| StatePersistence.DeletedLayers | state_persistence.py:429-442 | after the loop, a layer has lost the session exactly when it is a write layer whose delete removed it; every other layer is as it was (see also lines 246-254 and 327-334) |
| StatePersistence.PrimaryOnly | state_persistence.py:380-386 | without a sync only the primary write layer is written, and only when it does not fail |
| StatePersistence.StateManager.constructor | state_persistence.py:358-362 | no layers, no write layers, no sync times |
| StatePersistence.StateManager.AddLayer | state_persistence.py:364-368 | appends the layer, and lists it as a write layer exactly when `write` |
| StatePersistence.StateManager.SaveState | state_persistence.py:370-402 | the state is saved with the next version and time now; the result is true iff there is a primary write layer and it did not fail; on a sync (requested, never synced, or the interval elapsed) every non-failing write layer holds the state and the sync time is now, otherwise only the primary; other layers are untouched |
| StatePersistence.StateManager.SyncLayers | state_persistence.py:389-396 | every non-failing write layer after the primary holds the saved state |
| StatePersistence.StateManager.LoadState | state_persistence.py:412-427 | the state of the first layer, in order, that holds the session and does not raise; None exactly when there is no such layer |
| StatePersistence.StateManager.DeleteState | state_persistence.py:429-442 | the session is removed from exactly the write layers whose delete removed it; the result is false iff some write layer's delete raised, so a file or Redis layer that swallowed its error and kept the key still counts as a success; its sync time is forgotten (see also lines 246-254 and 327-334) |
| Orchestrator.TimeoutFor | invoice_bot/orchestrator.py:83-89 | a listed task type gets its own timeout from the table, an unlisted one the "default" timeout; every timeout is one of the table's positive values |
| Orchestrator.TimeoutFeedback | invoice_bot/orchestrator.py:225-238 | document processing gets its own notice, the "default" type the default notice, every other type the timeout notice |
| Orchestrator.ErrorFeedback | invoice_bot/orchestrator.py:240-253 | document processing gets its own notice, the "timeout" type the timeout notice, every other type the default notice |
| Orchestrator.NewTask | invoice_bot/orchestrator.py:121-147 | a started task is RUNNING with its type's timeout and is not timed out at its start |
| Orchestrator.Started | invoice_bot/orchestrator.py:144-145 | the task is registered under its id, the history is unchanged, and the registry stays well formed |
| Orchestrator.Archived | invoice_bot/orchestrator.py:152-155 | the id leaves the active tasks and enters the history with the given task; no other active task changes |
| Orchestrator.Complete | invoice_bot/orchestrator.py:149-157 | an unknown id changes nothing; otherwise the task moves to the history as COMPLETED with the result; a history of only COMPLETED and FAILED tasks stays so |
| Orchestrator.Fail | invoice_bot/orchestrator.py:159-167 | an unknown id changes nothing; otherwise the task moves to the history as FAILED with the error; a history of only COMPLETED and FAILED tasks stays so |
| Orchestrator.Marked | invoice_bot/orchestrator.py:198-208 | only the status of that active task changes |
| Orchestrator.ExecuteOutcome | invoice_bot/orchestrator.py:169-223 | a value is returned exactly when the operation finished in time or timed out and the fallback returned, and then the task is in the history as COMPLETED with that value; an exception that escapes every `except` leaves the task active; any other failure leaves it FAILED, with "Timeout after Ns" on a timeout |
| Orchestrator.ExecuteNotifies | invoice_bot/orchestrator.py:196-223 | a timeout sends exactly the timeout notice for the type; a failure derived from `Exception` sends exactly the error notice and re-raises it; an operation that finishes in time sends nothing |
| Orchestrator.FallbackRecordedAsCompleted | invoice_bot/orchestrator.py:206-210 | as written, a fallback that rescues a timed-out task leaves it in the history as COMPLETED, never RECOVERED |
| Orchestrator.ExecuteKeepsSettled | invoice_bot/orchestrator.py:169-223 | as written, no run ever puts a RECOVERED or TIMEOUT task in the history |
| Orchestrator.CompletedKeepingRecovery | invoice_bot/orchestrator.py:149-157 | the intended completion: a task already marked RECOVERED keeps that status, any other becomes COMPLETED, with the result |
| Orchestrator.IntendedRecordsRecovery | invoice_bot/orchestrator.py:204-210 | with the intended completion, a rescued timed-out task is in the history as RECOVERED with the fallback's value |
| Orchestrator.Stuck | invoice_bot/orchestrator.py:255-262 | only timed-out registered tasks are listed, and every timed-out task of the scanned ids is |
| Orchestrator.StuckTasksSpec | invoice_bot/orchestrator.py:255-262 | `get_stuck_tasks` reports every timed-out active task and nothing else |
| Orchestrator.RecoveredStuck | invoice_bot/orchestrator.py:264-279 | the task is failed with "Stuck task recovered by watchdog", the owner first gets the timeout notice, and the processing message is deleted exactly when the task has a (non-zero) message id |
| Orchestrator.CountStatus | invoice_bot/orchestrator.py:284-287 | a count never exceeds the tasks scanned, and is zero when no task has the status |
| Orchestrator.CountStatusSpec | invoice_bot/orchestrator.py:284-287 | over ids without repeats, the count is exactly the number of those ids whose task has the status |
| Orchestrator.HistoryCount | invoice_bot/orchestrator.py:284-287 | the history's count for a status is the number of archived tasks that have it |
| Orchestrator.Summaries | invoice_bot/orchestrator.py:288-297 | one row per active task, with its elapsed time and timeout |
| Orchestrator.HealthStatus | invoice_bot/orchestrator.py:281-299 | the active count is the number of active tasks; the completed, failed, timeout and recovered counts are the numbers of history tasks with each status; a history of only COMPLETED and FAILED tasks reports no timeouts and no recoveries |
| Orchestrator.TaskOrchestrator.constructor | invoice_bot/orchestrator.py:76-80 | no active tasks and no history |
| Orchestrator.TaskOrchestrator.StartTask | invoice_bot/orchestrator.py:121-147 | returns `NewTask` and registers it (`Started`) |
| Orchestrator.TaskOrchestrator.Archive | invoice_bot/orchestrator.py:152-155 | the registry becomes `Archived` |
| Orchestrator.TaskOrchestrator.CompleteTask | invoice_bot/orchestrator.py:149-157 | the registry becomes `Complete` |
| Orchestrator.TaskOrchestrator.FailTask | invoice_bot/orchestrator.py:159-167 | the registry becomes `Fail` |
| Orchestrator.TaskOrchestrator.SetStatus | invoice_bot/orchestrator.py:198-208 | the registry becomes `Marked` |
| Orchestrator.TaskOrchestrator.HandleTimeout | invoice_bot/orchestrator.py:196-215 | state, result and bot calls are those of `AfterTimeout` |
| Orchestrator.TaskOrchestrator.ExecuteWithTimeout | invoice_bot/orchestrator.py:169-223 | state, result and bot calls are those of `Executed`, so `ExecuteOutcome` and `ExecuteNotifies` hold of it |
| Orchestrator.TaskOrchestrator.GetStuckTasks | invoice_bot/orchestrator.py:255-262 | returns `StuckTasks` and changes nothing |
| Orchestrator.TaskOrchestrator.RecoverStuckTask | invoice_bot/orchestrator.py:264-279 | state and bot calls are those of `RecoveredStuck` |
| Watchdog.Swept | invoice_bot/watchdog.py:101-112 | at most one recovery per stuck task; the registry stays well formed and knows the same ids; with no task beyond the threshold nothing happens |
| Watchdog.SweepStep | invoice_bot/watchdog.py:103-112 | a task beyond the threshold is recovered (`recover_stuck_task`) and counted once; any other task is left alone |
| Watchdog.SweptSnoc | invoice_bot/watchdog.py:101-112 | sweeping one more task is one more step |
| Watchdog.RecoversSnoc | invoice_bot/watchdog.py:101-112 | a task is recovered by a longer sweep iff it was by the shorter one or it is the new task and beyond the threshold |
| Watchdog.SweptAt | invoice_bot/watchdog.py:101-112 | a sweep removes a task from the active registry exactly when it recovers it, files it as FAILED with the watchdog's reason, and leaves every other task as it was |
| Watchdog.IsHealthy | invoice_bot/watchdog.py:155-169 | healthy iff at most five tasks are active and no listed task has run past twice its timeout |
| Watchdog.NoneOverdue | invoice_bot/watchdog.py:164-167 | true iff no listed task has run past twice its timeout |
| Watchdog.HealthyIff | invoice_bot/watchdog.py:155-169 | over the orchestrator's report: healthy iff at most five tasks are active and none has run past twice its timeout |
| Watchdog.SweepClearsOverdue | invoice_bot/watchdog.py:90-112 | with a threshold of at most 2 and non-negative timeouts, after one check no RUNNING task has run past twice its timeout |
| Watchdog.OverdueRecovered | invoice_bot/watchdog.py:96-112 | a RUNNING task past twice its timeout is reported stuck and recovered by the health check |
| Watchdog.OverdueBeyond | invoice_bot/watchdog.py:104 | such a task is timed out and beyond any threshold up to 2 |
| Watchdog.Watchdog.constructor | invoice_bot/watchdog.py:35-54 | not running, all counters zero, no check and no start time |
| Watchdog.Watchdog.WithDefaults | invoice_bot/watchdog.py:35-54 | with the default arguments, checks every 5 seconds and treats a task as stuck past 1.5 times its timeout; not running, counters zero |
| Watchdog.Watchdog.Start | invoice_bot/watchdog.py:56-65 | running afterwards; a second start keeps the first start time; the counters are unchanged |
| Watchdog.Watchdog.Stop | invoice_bot/watchdog.py:67-76 | not running afterwards; the counters and start time are unchanged |
| Watchdog.Watchdog.CheckHealth | invoice_bot/watchdog.py:90-112 | one more check at time now; the stuck count grows by the number of stuck tasks, the recovery count by the recoveries of `Swept`, and the orchestrator's registry and the bot calls are those of `Swept` over `StuckTasks` |
| Watchdog.Watchdog.Recover | invoice_bot/watchdog.py:101-112 | the orchestrator's registry, the bot calls and the recovery count are those of `Swept` |
| Watchdog.Watchdog.RecoverOne | invoice_bot/watchdog.py:103-112 | the registry, calls and count are those of `SweepStep` |
| FallbackChain.CallModel | fallback_chain.py:245-278 | a model that answers gives a successful response naming that model and its tier; a timeout or error raises a failure naming the model |
| FallbackChain.StaticKey | fallback_chain.py:320-326 | a known operation type gets its own canned reply, any other the "general_chat" one |
| FallbackChain.TiersToTrySpec | fallback_chain.py:195-202 | without a cap all four callable tiers are tried, in order; a cap of STATIC raises `ValueError`; any other cap gives the callable tiers from PRIMARY up to and including the cap |
| FallbackChain.TiersNoStatic | fallback_chain.py:195-202 | no cap ever lets `generate` try the STATIC tier |
| FallbackChain.TierLists.Set | fallback_chain.py:158-166 | replaces one tier's list and leaves the other tiers' lists alone |
| FallbackChain.Ordinal | fallback_chain.py:26-32 | the position of a tier in the enumeration's order |
| FallbackChain.OrdinalAt | fallback_chain.py:26-32 | `Ordinal` is the inverse of indexing the enumeration |
| FallbackChain.WellTieredSet | fallback_chain.py:156-166 | replacing a tier's list by models of that tier keeps every model under its own tier |
| FallbackChain.ListedTier | fallback_chain.py:156-160 | in such a chain a model listed under a tier is of that tier |
| FallbackChain.CandidatesMembers | fallback_chain.py:204-207 | a model is tried by `generate` iff it is enabled and listed under one of the tiers tried |
| FallbackChain.CandidateTier | fallback_chain.py:204-207 | every model tried is enabled and of one of the tiers tried |
| FallbackChain.GetAvailableModels | fallback_chain.py:168-176 | for one tier: exactly that tier's enabled models |
| FallbackChain.AllAvailable | fallback_chain.py:168-176 | without a tier: exactly the enabled models of every tier |
| FallbackChain.Scan | fallback_chain.py:206-223 | the model the walk stops at is one of the candidates and answered |
| FallbackChain.ScanSpec | fallback_chain.py:204-223 | the walk stops at the first candidate that answers; when none does, it reports the last candidate's failure, or none when there were no candidates |
| FallbackChain.ScanAppend | fallback_chain.py:204-223 | walking one tier after another is walking the concatenation of their candidates |
| FallbackChain.SuccessStats | fallback_chain.py:300-318 | one more success for the tier; the average latency stays the mean over all successes; cost and tokens are added; the other counters are unchanged |
| FallbackChain.Bumped | fallback_chain.py:302-309 | only the success counter of the tier moves, by one |
| FallbackChain.MeanOf | fallback_chain.py:317-318 | dividing by the success count and multiplying back gives the total |
| FallbackChain.StaticResponse | fallback_chain.py:228-243 | a STATIC-tier, unsuccessful reply from "static_fallback" with the operation's canned text |
| FallbackChain.FellBack | fallback_chain.py:226-230 | one more failure and one more static reply; successes, average latency and calls unchanged (see also lines 320-322) |
| FallbackChain.Succeeded | fallback_chain.py:212-215 | the answering model becomes the last one used, with one more success |
| FallbackChain.Generated | fallback_chain.py:178-243 | every request is counted once |
| FallbackChain.Walked | fallback_chain.py:204-243 | the walk itself does not count calls |
| FallbackChain.Concluded | fallback_chain.py:212-243 | once the walk has ended, a reply always comes back and calls are not counted again |
| FallbackChain.GenerateRaisesSpec | fallback_chain.py:195-199 | `generate` raises exactly for a cap of STATIC, a `ValueError`, with only the call counted |
| FallbackChain.GenerateAnswerSpec | fallback_chain.py:204-218 | a successful reply is the answer of the first enabled model, in tier order up to the cap, that answers; it counts as a success of its tier, never STATIC, and that model becomes the last used |
| FallbackChain.GenerateFallbackSpec | fallback_chain.py:220-243 | an unsuccessful reply means no candidate answered; it is the canned reply for the operation from tier STATIC, carrying the last model's failure or "All models failed"; one more failure and static reply, no new success |
| FallbackChain.ConcludedSpec | fallback_chain.py:212-243 | a success exactly when a model answered, recorded as such; otherwise the static fallback with the last failure |
| FallbackChain.GeneratedRaises | fallback_chain.py:195-199 | a cap that `list.index` rejects raises before any model is tried |
| FallbackChain.GeneratedWalks | fallback_chain.py:195-204 | an accepted cap never includes STATIC, and `generate` then walks the tiers it gives |
| FallbackChain.WalkedAfterScan | fallback_chain.py:204-243 | the walk ends with the first candidate that answers, or with none |
| FallbackChain.MeanLatencyKept | fallback_chain.py:86-98 | counters other than successes and the average leave the mean latency intact |
| FallbackChain.MeanLatencySnoc | fallback_chain.py:311-318 | the running-mean update keeps the average the mean of all the latencies |
| FallbackChain.RemovedSpec | fallback_chain.py:163-166 | what is left is exactly the models of other names; each tier stays under its own tier and sorted by priority |
| FallbackChain.AIFallbackChain.constructor | fallback_chain.py:148-154 | empty tiers and zero counters |
| FallbackChain.AIFallbackChain.AddModel | fallback_chain.py:156-161 | the model is appended to its tier's list, which is then stably sorted by priority; other tiers and the counters are unchanged |
| FallbackChain.AIFallbackChain.RemoveModel | fallback_chain.py:163-166 | every model of that name leaves every tier, and nothing else does |
| FallbackChain.AIFallbackChain.Generate | fallback_chain.py:178-243 | the models are unchanged; counters and reply are those of `Generated`; the average latency stays the mean latency of the answered calls |
| FallbackChain.FilterTiers | fallback_chain.py:163-166 | each tier keeps exactly the models of other names, in order |
| FallbackChain.GenerateStep | fallback_chain.py:178-243 | counters and reply are those of `Generated` |
| FallbackChain.Answered | fallback_chain.py:300-318 | at most one latency per reply |
| FallbackChain.GeneratedMean | fallback_chain.py:178-243 | `generate` keeps `avg_latency_ms` the mean latency of the answered calls (see also lines 300-318) |
| FallbackChain.ConcludedMean | fallback_chain.py:300-318 | recording a success or a fallback keeps the average the mean of the answered calls (see also lines 212-243) |
| FallbackChain.Walk | fallback_chain.py:204-223 | the nested loops stop at the model `Scan` picks over the candidates, with the same last failure, and report that model's tier |
| FallbackChain.TryTier | fallback_chain.py:207-223 | the inner loop over one tier's enabled models is `Scan` |
| UserMessages.AllKeysComplete | user_messages.py:45-195 | every template key is in the catalogue's key list |
| UserMessages.KeyNameInjective | user_messages.py:45-195 | different templates have different dictionary keys, so a lookup is unambiguous |
| UserMessages.KeyOf | user_messages.py:199 | `key in MESSAGES`, and the template the key names |
| UserMessages.Lookup | user_messages.py:199 | a known key gets its own template; an unknown key gets `general_error` |
| UserMessages.LookupName | user_messages.py:199 | each template is found under its own key |
| UserMessages.CloseFrom | user_messages.py:204-207 | the first `}` at or after a position, or the end of the text |
| UserMessages.FormatPlain | user_messages.py:204-207 | formatting a text without braces gives the text back, whatever the arguments |
| UserMessages.FormatUnknownField | user_messages.py:204-207 | a field whose name is not an argument makes formatting fail |
| UserMessages.GetMessage | user_messages.py:197-218 | a copy of the template for the key (`general_error` for an unknown key) with every field but the text unchanged; without arguments it is the template; with arguments the text is the formatted text, or the template's own when formatting fails |
| UserMessages.GetMessagePlain | user_messages.py:197-218 | a template without braces comes back unchanged, whatever the arguments |
| UserMessages.GetMessageUnknown | user_messages.py:199 | an unknown key gets the `general_error` message |
| UserMessages.GetMessageNamed | user_messages.py:197-218 | a key's own name gets its template |
| UserMessages.GetMessageForError | user_messages.py:221-256 | the template the table gives the (category, type) pair, or `general_error` for a pair it lacks; `is_retryable` is not consulted |
| UserMessages.FormatForTelegram | user_messages.py:259-271 | the emoji when there is one, the text, then the non-empty follow-up after a blank line, joined by single spaces |
| UserMessages.JoinCons | user_messages.py:329-331 | joining a first part before the rest |
| UserMessages.JoinSnoc | user_messages.py:329-331 | joining one more part adds the separator and the part at the end |
| UserMessages.MessageBuilder.constructor | user_messages.py:296-299 | no parts, no emoji, no actions |
| UserMessages.MessageBuilder.AddText | user_messages.py:301-307 | appends the text, after the emoji and a space when one is given; returns the builder itself |
| UserMessages.MessageBuilder.AddLineBreak | user_messages.py:309-312 | appends an empty part; returns the builder itself |
| UserMessages.MessageBuilder.AddBullet | user_messages.py:314-317 | appends "• " and the text; returns the builder itself |
| UserMessages.MessageBuilder.AddNumbered | user_messages.py:319-322 | appends the number in decimal, ". " and the text; returns the builder itself |
| UserMessages.MessageBuilder.AddAction | user_messages.py:324-327 | appends one action and leaves the parts alone; returns the builder itself |
| UserMessages.MessageBuilder.Build | user_messages.py:329-331 | the parts joined by newlines, in insertion order; one part comes back alone, none gives the empty string |
| Validators.ValidateInvoiceNumber | invoice_pipeline/validators.py:21-39 | valid iff no errors iff the number is absent or empty, or 3 to 50 characters of letters, digits, `-` and `/`; too short and too long are reported as such |
| Validators.ValidateDate | invoice_pipeline/validators.py:42-60 | valid iff no errors iff the date is absent or neither after today nor more than 5·365 days before it; a future date is reported as such |
| Validators.ValidateUtr | invoice_pipeline/validators.py:63-76 | valid iff no errors iff the UTR is absent or empty, or has exactly ten digits once everything else is dropped; otherwise the one error gives the digit count |
| Validators.UtrCheckAgrees | invoice_pipeline/validators.py:63-76 | for a given UTR the validator agrees with the extraction helper `is_valid_utr` |
| Validators.ValidateNiNumberAsWritten | invoice_pipeline/validators.py:79-102 | as written, raises `IndexError` exactly when the number is given but nothing is left once the spaces are removed |
| Validators.NiSpacesRaise | invoice_pipeline/validators.py:85-100 | a number of one space makes the NI validator as written raise |
| Validators.ValidateNiNumber | invoice_pipeline/validators.py:79-102 | never raises; valid iff no errors iff the number is absent or empty, or without spaces is two letters, six digits and a letter, with no barred prefix and an allowed last letter |
| Validators.NiCorrectionAgrees | invoice_pipeline/validators.py:79-102 | wherever the NI validator as written returns, the corrected validator returns the same verdict |
| Validators.ValidateEmail | invoice_pipeline/validators.py:105-116 | valid iff no errors; a given email is valid iff it matches the email pattern |
| Validators.ValidatePostcode | invoice_pipeline/validators.py:119-133 | valid iff no errors iff the postcode is absent or empty, or, upper-cased without spaces, matches the UK postcode shape |
| Validators.PostcodeCheckImpliesHelper | invoice_pipeline/validators.py:119-133 | a postcode this check accepts is accepted by the extraction helper too |
| Validators.ValidateSortCode | invoice_pipeline/validators.py:136-148 | valid iff no errors iff absent or empty, or exactly six digits |
| Validators.ValidateAccountNumber | invoice_pipeline/validators.py:151-163 | valid iff no errors iff absent or empty, or six to eight digits |
| Validators.EffectiveVatRate | invoice_pipeline/validators.py:186 | `vat_rate or 20` is never zero |
| Validators.ValidateFinancials | invoice_pipeline/validators.py:166-207 | valid iff no errors iff there are no financials or no negative subtotal, total or VAT; a total more than 0.10 away from subtotal + VAT − CIS, and a total over 1,000,000, are only warnings; no financials, no warnings |
| Validators.TotalMismatchOnlyWarns | invoice_pipeline/validators.py:194-201 | for any invoice whose total misses subtotal + VAT − CIS by more than 0.10 and that has no negative amount, the mismatch is warned about, the financials are valid, and the invoice's validity depends only on its other checks (see also lines 210-266) |
| Validators.PeriodProblems | invoice_pipeline/validators.py:224-237 | no problems iff there is no period or both dates pass and the start is not after the end |
| Validators.ContractorProblems | invoice_pipeline/validators.py:239-260 | no problems iff there is no contractor or every contractor field it checks passes, with the NI number checked by the corrected `ValidateNiNumber` |
| Validators.ValidateInvoice | invoice_pipeline/validators.py:210-266 | valid iff no errors iff every field check passes (the NI check in its corrected form); the warnings are exactly the financial ones and have no say |
| Cleaners.RoundHalfEven | invoice_pipeline/validators.py:409-415 | the integer nearest to the value, a whole number unchanged, a tie going to the even neighbour (the default rounding of `Decimal.quantize`) |
| Cleaners.Quantize | invoice_pipeline/validators.py:415 | a whole number of pence within half a penny of the amount; an amount already in pence is unchanged |
| Cleaners.CleanMoney | invoice_pipeline/validators.py:409-415 | absent stays absent; otherwise a whole number of pence within half a penny, and an amount in pence is kept |
| Cleaners.FirstLabel | invoice_pipeline/validators.py:282 | the first prefix of the alternation that the text starts with, ignoring case |
| Cleaners.FirstLabelSpec | invoice_pipeline/validators.py:282 | the label found is one the text starts with, and no earlier alternative is |
| Cleaners.SkipSpaces | invoice_pipeline/validators.py:282 | the end of the greedy run of whitespace |
| Cleaners.SeparatorEnd | invoice_pipeline/validators.py:282 | the end of `\s*[:\-]?\s*`, never before whitespace |
| Cleaners.DropLabel | invoice_pipeline/validators.py:282 | the result is a suffix of the text that starts with no whitespace (or is the whole text, or empty); a text with no label is unchanged |
| Cleaners.DropLabelColon | invoice_pipeline/validators.py:282 | "inv" in any case, a colon and the number leave only the number |
| Cleaners.CleanInvoiceNumber | invoice_pipeline/validators.py:273-284 | an absent or empty number gives None; a result is non-empty, upper-case and single-spaced |
| Cleaners.UnlabelledNumberKept | invoice_pipeline/validators.py:273-284 | a number with no label is only single-spaced and upper-cased |
| Cleaners.UpperSingleSpaced | invoice_pipeline/validators.py:284 | upper-casing keeps a text single-spaced |
| Cleaners.CleanName | invoice_pipeline/validators.py:287-298 | a result exactly for a given name |
| Cleaners.CleanNameSpec | invoice_pipeline/validators.py:287-298 | the cleaned name is title-cased, single-spaced, and equal to the single-spaced original up to the case of letters |
| Cleaners.TitleSingleSpaced | invoice_pipeline/validators.py:296 | title-casing keeps a text single-spaced |
| Cleaners.TitleLower | invoice_pipeline/validators.py:296 | title-casing changes only the case of letters |
| Cleaners.SpaceCommasSpaced | invoice_pipeline/validators.py:310 | after `re.sub(r'\s*,\s*', ', ')` every comma is followed by a space |
| Cleaners.SpaceCommasKeeps | invoice_pipeline/validators.py:310 | that substitution changes only whitespace |
| Cleaners.CleanAddress | invoice_pipeline/validators.py:301-312 | a result exactly for a given address |
| Cleaners.CleanAddressSpec | invoice_pipeline/validators.py:301-312 | every comma of the cleaned address is followed by a space, and it differs from the original only in whitespace |
| Cleaners.CleanEmail | invoice_pipeline/validators.py:315-326 | a result exactly for a given email |
| Cleaners.CleanEmailAgrees | invoice_pipeline/validators.py:315-326 | without a `mailto:` link, cleaning an email does what the agent's invoice schema does to it |
| Cleaners.CleanEmailOfLink | invoice_pipeline/validators.py:321-324 | an address whose lower-cased, stripped form is a `mailto:` link loses the prefix |
| Cleaners.CleanEmailMailto | invoice_pipeline/validators.py:315-326 | a `mailto:` link to a lower-case address is reduced to the address |
| Cleaners.CleanPhone | invoice_pipeline/validators.py:329-344 | a result exactly for a given number, made only of digits and `+` |
| Cleaners.UkPhoneFormsAgree | invoice_pipeline/validators.py:338-342 | the national form 0… and the form 44… of a UK number both clean to +44… |
| Cleaners.CleanPhoneIdempotent | invoice_pipeline/validators.py:329-344 | cleaning a cleaned non-empty number changes nothing |
| Cleaners.CleanPostcode | invoice_pipeline/validators.py:347-362 | a result exactly for a given postcode |
| Cleaners.CleanPostcodeSpec | invoice_pipeline/validators.py:347-362 | the cleaned postcode compacts back to the original's upper-case spaceless form; with five characters or more its only space stands before the last three |
| Cleaners.SpacedCompact | invoice_pipeline/validators.py:353-360 | the space put into a compact postcode is compacted away again |
| Cleaners.CompactIdempotent | invoice_pipeline/validators.py:353 | compacting a compact text changes nothing |
| Cleaners.CleanPostcodeIdempotent | invoice_pipeline/validators.py:347-362 | cleaning a cleaned postcode changes nothing, unless nothing was left of it |
| Cleaners.CleanPostcodeKeepsVerdict | invoice_pipeline/validators.py:347-362 | cleaning keeps the postcode check's verdict, unless nothing was left of the postcode (see also lines 119-133) |
| Cleaners.CleanDigits | invoice_pipeline/validators.py:365-371 | a result exactly for a given value: its digits only, never longer; an all-digit value is kept (see also lines 400-406) |
| Cleaners.CleanDigitsVerdicts | invoice_pipeline/validators.py:365-406 | cleaning keeps the UTR and account-number verdicts for a value with a digit; a given value without digits fails both checks before cleaning and passes both after (see also lines 63-76, 151-163) |
| Cleaners.CleanNiNumber | invoice_pipeline/validators.py:374-382 | a result exactly for a given number, upper-case and without spaces |
| Cleaners.CleanedNiNeverRaises | invoice_pipeline/validators.py:374-382 | the NI check as written never raises on a cleaned number (see also lines 79-102) |
| Cleaners.CleanNiKeepsVerdict | invoice_pipeline/validators.py:374-382 | cleaning keeps the NI verdict, unless nothing was left of the number (see also lines 79-102) |
| Cleaners.CleanSortCode | invoice_pipeline/validators.py:385-397 | a result exactly for a given value, with the same digits; six digits become `XX-XX-XX`, any other count the bare digits |
| Cleaners.CleanSortCodeKeepsVerdict | invoice_pipeline/validators.py:385-397 | cleaning keeps the sort-code verdict for a value with a digit (see also lines 136-148) |
| Cleaners.CleanedInvoiceSpec | invoice_pipeline/validators.py:418-454 | after `clean_invoice` every amount is in whole pence, cleaning again changes no amount, and the NI check as written cannot raise |
| Cleaners.CleanedFinancialsSpec | invoice_pipeline/validators.py:442-447 | the cleaned summary is in pence, and cleaning it again changes nothing |
| Cleaners.CleanedItemSpec | invoice_pipeline/validators.py:450-452 | a cleaned work item is in pence, and cleaning it again changes nothing |
| Enrichment.EnrichOnlyFills | invoice_pipeline/validators.py:461-527 | enrichment only fills in what is missing: every field that was present keeps its value, the rest of the invoice is unchanged, and afterwards every summary has a VAT code |
| Enrichment.FinancialsOnlyFilled | invoice_pipeline/validators.py:461-527 | on one summary, enrichment keeps every given field and leaves a VAT code |
| Enrichment.EnrichedTotalsAgree | invoice_pipeline/validators.py:477-485 | a total the enricher fills in is subtotal + VAT − CIS, so the financial validator never warns about it; a VAT amount it fills in is within half a penny of the subtotal at the effective rate, so the financial validator never warns about that either (see also lines 185-201) |
| Enrichment.InferredCodes | invoice_pipeline/validators.py:490-519 | an inferred VAT code is `S` for a positive VAT amount, `Z` for zero, `N` for none or a negative amount; an inferred CIS code is `L`, exactly for a positive CIS deduction |
| Enrichment.EnrichIdempotent | invoice_pipeline/validators.py:522-527 | enriching an enriched invoice changes nothing |
| Enrichment.SumAmounts | invoice_pipeline/validators.py:470-472 | the loop adds up the item amounts, a missing amount counting as 0 |
| Enrichment.FillSubtotal | invoice_pipeline/validators.py:469-474 | a missing subtotal becomes the item total when there are items and it is positive |
| Enrichment.FillVat | invoice_pipeline/validators.py:477-479 | a missing VAT amount becomes the subtotal at the effective rate, quantized to pence |
| Enrichment.FillTotal | invoice_pipeline/validators.py:482-485 | a missing total becomes subtotal + VAT − CIS |
| Enrichment.InvoiceRecord.constructor | invoice_pipeline/validators.py:418 | holds the given invoice |
| Enrichment.InvoiceRecord.CleanInvoice | invoice_pipeline/validators.py:418-454 | the invoice becomes `CleanedInvoice` of the old one, so `CleanedInvoiceSpec` holds of it |
| Enrichment.InvoiceRecord.CalculateMissingFinancials | invoice_pipeline/validators.py:461-487 | without financials nothing changes; otherwise only the summary changes, by the three fill steps |
| Enrichment.InvoiceRecord.InferVatCode | invoice_pipeline/validators.py:490-505 | without financials nothing changes; otherwise only the VAT code is inferred |
| Enrichment.InvoiceRecord.InferCisCode | invoice_pipeline/validators.py:508-519 | without financials nothing changes; otherwise only the CIS code is inferred |
| Enrichment.InvoiceRecord.Enrich | invoice_pipeline/validators.py:522-527 | the invoice becomes `Enriched` of the old one, so `EnrichOnlyFills` and `EnrichIdempotent` hold of it |
| Enrichment.InvoiceRecord.ValidateAndClean | invoice_pipeline/validators.py:530-564 | cleaning, then validation (with the corrected NI check), then enrichment, each when asked; the errors and warnings are those of the invoice between cleaning and enrichment, and none without validation |
| Enrichment.CleanedBeforeValidation | invoice_pipeline/validators.py:530-564 | with cleaning on, validation never meets an NI number that makes the NI validator as written raise, and every amount it sees is in pence |
| PipelineUtils.NormalizeWhitespace | invoice_pipeline/utils.py:171-175 | normalising keeps the words of the text, leaves it single-spaced (no leading, trailing or double whitespace), and never lengthens it |
| PipelineUtils.NormalizeWhitespaceIdempotent | invoice_pipeline/utils.py:171-175 | normalising twice is normalising once |
| PipelineUtils.WordsOfJoin | invoice_pipeline/utils.py:175 | `split()` undoes `' '.join` of words |
| PipelineUtils.JoinWordsSingleSpaced | invoice_pipeline/utils.py:175 | joining words with single spaces gives a single-spaced text |
| PipelineUtils.WordsLength | invoice_pipeline/utils.py:175 | the words of a text, joined by single spaces, are no longer than the text |
| PipelineUtils.SplitOn | invoice_pipeline/utils.py:182 | `split('\n')` gives at least one piece, none holding the separator |
| PipelineUtils.SplitOnJoin | invoice_pipeline/utils.py:182 | joining the pieces with the separator gives the text back |
| PipelineUtils.StrippedLinesShape | invoice_pipeline/utils.py:183 | every kept line is non-empty, stripped and free of newlines |
| PipelineUtils.StrippedLinesKeeps | invoice_pipeline/utils.py:183 | a line that is not blank is kept, stripped |
| PipelineUtils.StrippedLinesSource | invoice_pipeline/utils.py:183 | every kept line is the stripped form of an input line |
| PipelineUtils.ExtractLinesSpec | invoice_pipeline/utils.py:178-183 | a line of the text is extracted exactly when it is not blank, as its stripped form, and every extracted line comes from a line of the text |
| PipelineUtils.ExtractLines | invoice_pipeline/utils.py:178-183 | every extracted line is non-empty, stripped and free of newlines |
| PipelineUtils.Without | invoice_pipeline/utils.py:269-273 | `re.sub` of a character class with '' leaves none of the class |
| PipelineUtils.WithoutNothing | invoice_pipeline/utils.py:269-273 | with nothing of the class present the text is unchanged |
| PipelineUtils.WithoutAppend | invoice_pipeline/utils.py:269-273 | removing a class distributes over concatenation |
| PipelineUtils.DecimalOfPlain | invoice_pipeline/utils.py:276 | without a sign or exponent, `Decimal(s)` reads the digits and point as the mantissa, and raises when they do not form one |
| PipelineUtils.DecimalOfDigits | invoice_pipeline/utils.py:276 | a run of digits is read as that whole number |
| PipelineUtils.DecimalOfPoint | invoice_pipeline/utils.py:276 | digits around a point are read as their digits scaled by the places after the point |
| PipelineUtils.ParseMoneySteps | invoice_pipeline/utils.py:263-281 | once symbols, separators and signs are removed, a leading `-` or `(` negates the amount, and otherwise it is kept |
| PipelineUtils.ParseMoneyDigits | invoice_pipeline/utils.py:263-281 | a run of digits parses as that whole number |
| PipelineUtils.ParseMoney | invoice_pipeline/utils.py:263-281 | an amount comes back exactly when the text is non-empty and what is left once symbols, separators and signs are removed reads as a decimal; its size is that decimal's |
| PipelineUtils.ParseMoneySymbol | invoice_pipeline/utils.py:268-269 | a currency symbol or comma in front of an amount is ignored |
| PipelineUtils.ParseMoneyMinus | invoice_pipeline/utils.py:271-279 | a minus sign in front of digits negates the amount |
| PipelineUtils.ParseMoneyBrackets | invoice_pipeline/utils.py:271-279 | digits in brackets are a negative amount |
| PipelineUtils.ParseMoneyPence | invoice_pipeline/utils.py:263-281 | `12.50` parses with its pence: 1250 hundredths |
| PipelineUtils.NegateValue | invoice_pipeline/utils.py:278-279 | negating a decimal negates its value |
| PipelineUtils.ParseMoneyNothingLeft | invoice_pipeline/utils.py:263-281 | nothing left after removing symbols, separators and signs gives no amount |
| PipelineUtils.PostcodeTightIsSpaced | invoice_pipeline/utils.py:408-413 | a postcode of the shape without the optional gap also has the shape with it |
| PipelineUtils.ValidEmailOneAt | invoice_pipeline/utils.py:400-405 | a valid email has exactly one `@`, with something on each side |
| PipelineUtils.ValidNiShape | invoice_pipeline/utils.py:424-430 | a valid NI number reads, upper-cased without spaces, as nine characters (or ten ending in a newline, which `$` lets through) |
| PipelineUtils.ExtractionConfidenceBounds | invoice_pipeline/utils.py:437-476 | the confidence is between 0 and 1; the weights add up to one, so the final cap never lowers the sum; a fully populated extraction with at least three work items scores 1; empty text or data scores 0 |
| PipelineUtils.ExtractionConfidenceMonotone | invoice_pipeline/utils.py:437-476 | finding more fields or more work items never lowers the confidence |
| PipelineUtils.MaxOf | invoice_pipeline/utils.py:479-491 | the largest of the scores |
| PipelineUtils.SquaresBelow | invoice_pipeline/utils.py:486-487 | for scores between 0 and m, the sum of squares is at most m times the sum |
| PipelineUtils.MergeConfidenceBounds | invoice_pipeline/utils.py:479-491 | for non-negative scores the merged score lies between 0 and the highest score, and a zero sum (in particular no scores) gives 0 |
| PipelineUtils.MergeConfidenceUniform | invoice_pipeline/utils.py:479-491 | merging equal positive scores gives that score back |
| PipelineModels.UpperStripped | invoice_pipeline/models.py:26 | upper-casing and stripping leaves no lower-case letter and no surrounding whitespace, and never lengthens the value |
| PipelineModels.UpperStrippedIdempotent | invoice_pipeline/models.py:26 | normalising an already normalised value changes nothing |
| PipelineModels.NormalizeUpper | invoice_pipeline/models.py:20-29 | the postcode, VAT-code and CIS-code validators leave a missing or empty value alone and upper-case and strip a given one, whatever the pattern or code table says |
| PipelineModels.NormalizeUpperIdempotent | invoice_pipeline/models.py:186-201 | running a validator on its own output changes nothing |
| PipelineModels.FormatSortCode | invoice_pipeline/models.py:45-48 | the result keeps exactly the input's digits; six digits come out as `XX-XX-XX`, any other number of digits come out bare |
| PipelineModels.FormatSortCodeIdempotent | invoice_pipeline/models.py:45-48 | formatting a formatted sort code changes nothing |
| PipelineModels.NormalizeSortCode | invoice_pipeline/models.py:40-49 | a missing or empty sort code is kept; a given one keeps its digits and takes the `XX-XX-XX` shape when it has six |
| PipelineModels.NormalizeDigits | invoice_pipeline/models.py:51-58 | account number and UTR: a given value is reduced to its digits whatever their number (both length branches return them); an all-digit value is unchanged |
| PipelineModels.NormalizeDigitsIdempotent | invoice_pipeline/models.py:74-81 | reducing to digits twice is reducing once |
| PipelineModels.Compact | invoice_pipeline/models.py:87 | upper-casing and dropping spaces leaves no lower-case letter and no space, and never lengthens the value |
| PipelineModels.NormalizeNi | invoice_pipeline/models.py:83-91 | a missing NI number is kept; a given one comes out upper-case without spaces, whether or not it matches the pattern |
| PipelineModels.NormalizeEmail | invoice_pipeline/models.py:93-100 | a missing e-mail is kept; a given one comes out lower-case, stripped and no longer than before, whether or not it matches the pattern |
| PipelineModels.BasicsScore | invoice_pipeline/models.py:272-274 | the invoice basics earn between 0 and 2 points, and 2 only with an invoice number |
| PipelineModels.ContractorScore | invoice_pipeline/models.py:277-281 | a contractor earns between 0 and 2 points, and 2 only with a name |
| PipelineModels.ItemsScore | invoice_pipeline/models.py:284-286 | work items earn half a point each, capped at 2, reached from four items on |
| PipelineModels.FinancialsScore | invoice_pipeline/models.py:289-294 | the financials earn between 0 and 2.5 points, and 2.5 only with a non-zero subtotal and total |
| PipelineModels.TotalFields | invoice_pipeline/models.py:269-294 | the points available are at least the 2 of the invoice basics, so the division never divides by zero |
| PipelineModels.EarnedScore | invoice_pipeline/models.py:268-294 | the points earned never exceed the points available |
| PipelineModels.CompletenessScore | invoice_pipeline/models.py:267-296 | the score lies between 0 and 1, and is 1 exactly when every available point is earned |
| PipelineModels.FullScoreIsValid | invoice_pipeline/models.py:257-296 | an invoice with a full completeness score passes `is_valid`, and has both an invoice number and a date |
| PipelineModels.IsValid | invoice_pipeline/models.py:257-265 | an invoice number alone makes an invoice valid; a valid invoice has an invoice number, or a contractor and financials |
| PipelineModels.EmptyContractorLowersScore | invoice_pipeline/models.py:276-281 | adding a contractor with no name, address or UTR to an invoice that has earned points strictly lowers its score |
| Pipeline.DropTrailing | invoice_pipeline/pipeline.py:72 | the path loses only trailing separators and trailing `.` components: what remains is a prefix ending in neither; a path already ending in neither is kept whole |
| Pipeline.Name | invoice_pipeline/pipeline.py:72 | the last path component holds no separator and is never `.` |
| Pipeline.NameOfPlain | invoice_pipeline/pipeline.py:72 | for a path ending in neither a separator nor a `.` component, the name is everything after the last separator |
| Pipeline.TrailingDropped | invoice_pipeline/pipeline.py:72 | a trailing `/` or `/.` does not change the name |
| Pipeline.DotComponentKeepsType | invoice_pipeline/pipeline.py:70-83 | a path such as `x.pdf/.` detects as its extension's type, as `x.pdf` does |
| Pipeline.Suffix | invoice_pipeline/pipeline.py:72 | a suffix is empty or runs from the name's last dot to its end, with at least one character after the dot and the dot not first |
| Pipeline.ExtensionType | invoice_pipeline/pipeline.py:64-83 | an extension gives IMAGE, PDF, DOCX or TEXT exactly when it is in that type's table, and UNKNOWN exactly when it is in none |
| Pipeline.ExtensionOf | invoice_pipeline/pipeline.py:70-83 | a dotted extension appended to a path detects as that extension lower-cased, whatever precedes it |
| Pipeline.FromExtension | invoice_pipeline/pipeline.py:70-83 | a name without a suffix is UNKNOWN; the type is PDF exactly for `.pdf` and DOCX exactly for `.docx` or `.doc`, in any letter case |
| Pipeline.NameAppend | invoice_pipeline/pipeline.py:72 | text without separators appended to a path not ending in a separator extends its last component, which is non-empty |
| Pipeline.SuffixAppend | invoice_pipeline/pipeline.py:72 | a dotted extension after a non-empty name is that name's suffix |
| Pipeline.ExtensionTable | invoice_pipeline/pipeline.py:64-67 | `.pdf`, `.jpg`, `.jpeg`, `.png`, `.docx`, `.txt` map to their types and `.unknown` to UNKNOWN |
| Pipeline.ExtensionIgnoresCase | invoice_pipeline/pipeline.py:72 | detection by name ignores the letter case of the extension |
| Pipeline.NoSuffixUnknown | invoice_pipeline/pipeline.py:70-83 | a hidden-file name such as `.pdf`, or a name ending in a dot, has no suffix and so an unknown type |
| Pipeline.FromContent | invoice_pipeline/pipeline.py:86-130 | an unreadable file is UNKNOWN; PDF exactly on the `%PDF` signature; IMAGE exactly on an image signature without it; DOCX only for a zip holding `word/document.xml`; TEXT only for printable ASCII content |
| Pipeline.Detect | invoice_pipeline/pipeline.py:133-141 | a known extension decides; the content is consulted only when the extension says UNKNOWN |
| Pipeline.DetectFallsBackToContent | invoice_pipeline/pipeline.py:133-141 | with no known extension a PDF signature still gives PDF, and an empty readable file without a signature gives TEXT |
| Pipeline.BestUnique | invoice_pipeline/pipeline.py:336-342 | the best attempt, ties going to the earliest, is unique |
| Pipeline.ErrorMessages | invoice_pipeline/pipeline.py:357 | the collected errors are the non-empty messages, and there are none exactly when every attempt's message is missing or empty |
| Pipeline.BuildResult | invoice_pipeline/pipeline.py:329-366 | success exactly when some attempt succeeded with positive confidence; then the most confident one (earliest on ties) supplies data and method with the low-confidence warning; otherwise the non-empty error messages, or "All extraction methods failed" when there are none |
| Pipeline.SuccessCount | invoice_pipeline/pipeline.py:400 | the successful results are at most all of them |
| Pipeline.TypeSuccess | invoice_pipeline/pipeline.py:403-409 | a type's successes are at most its results and at most all successes |
| Pipeline.ConfidenceSumBounded | invoice_pipeline/pipeline.py:411-414 | confidences in [0, 1] sum to between 0 and their number |
| Pipeline.TypeCountsStep | invoice_pipeline/pipeline.py:403-409 | one more result adds to its own type's counts and to no other's |
| Pipeline.RatioAtMostOne | invoice_pipeline/pipeline.py:424 | a guarded ratio of a part to its whole lies in [0, 1] |
| Pipeline.GetStatistics | invoice_pipeline/pipeline.py:397-429 | totals, successes and failures add up; the success rate is the ratio (0 for an empty batch) and lies in [0, 1]; each file type seen has its own total and success counts and no other type appears; averages follow the guarded divisions |
| Pipeline.AverageConfidenceBounded | invoice_pipeline/pipeline.py:411-414 | with confidences in [0, 1], the batch's average confidence lies in [0, 1] |
| AgentInvoice.NewItemAsWritten | invoice_agent_bot/src/models/invoice.py:48-64 | as written, an item is built exactly when its declared field constraints hold, and an amount left out stays missing, because the "before" validator is not run on a default |
| AgentInvoice.NewItem | invoice_agent_bot/src/models/invoice.py:48-64 | as intended, an item is built exactly when its constraints hold; an amount left out or passed as None becomes quantity times unit price, which is never negative; a passed amount is kept |
| AgentInvoice.ValidateEmail | invoice_agent_bot/src/models/invoice.py:81-92 | rejected exactly when longer than 255 characters or non-empty without `@`; an accepted address is returned lower-cased (`v.lower()`), so it has no upper case, keeps its length, and keeps its `@` |
| AgentInvoice.ValidateEmailIdempotent | invoice_agent_bot/src/models/invoice.py:86-92 | an accepted address validates again to itself |
| AgentInvoice.NormalizeCurrency | invoice_agent_bot/src/models/invoice.py:216-220 | rejected exactly when not three characters long; accepted codes are upper-cased and equal the input up to case (see also line 162) |
| AgentInvoice.NormalizeCurrencyIdempotent | invoice_agent_bot/src/models/invoice.py:216-220 | a normalised code normalises to itself |
| AgentInvoice.TotalsConcat | invoice_agent_bot/src/models/invoice.py:239-243 | the subtotal and the tax of a list of items split over any concatenation |
| AgentInvoice.RemoveLowersTotals | invoice_agent_bot/src/models/invoice.py:228-243 | removing the item at an index takes exactly its amount and its tax off the totals |
| AgentInvoice.TotalsSplice | invoice_agent_bot/src/models/invoice.py:239-243 | an item spliced into a list adds exactly its amount and tax |
| AgentInvoice.TaxBounded | invoice_agent_bot/src/models/invoice.py:239-243 | with non-negative amounts and rates of at most 100%, the tax is never negative and never more than the subtotal (see also lines 50-53) |
| AgentInvoice.ItemTaxBounded | invoice_agent_bot/src/models/invoice.py:241-243 | one item's tax lies between 0 and its amount |
| AgentInvoice.FirstWithId | invoice_agent_bot/src/models/invoice.py:230-231 | finds the first item carrying the id, or reports that none does |
| AgentInvoice.RemoveUndoesAdd | invoice_agent_bot/src/models/invoice.py:222-235 | removing the fresh id of a just-added item restores the items |
| AgentInvoice.Invoice.constructor | invoice_agent_bot/src/models/invoice.py:180-214 | a new invoice has the given items and discount and no totals, since the totals' validators do not run on defaults (see also lines 152-158) |
| AgentInvoice.Invoice.RecalculateTotals | invoice_agent_bot/src/models/invoice.py:237-245 | the items and discount are unchanged; subtotal is the sum of amounts, tax the sum of amount times rate over 100, total subtotal plus tax minus discount; the update time is set |
| AgentInvoice.Invoice.AddItem | invoice_agent_bot/src/models/invoice.py:222-226 | exactly the one item is appended, the totals agree with the items again, and from agreeing totals the subtotal and tax grow by the item's amount and tax |
| AgentInvoice.Invoice.RemoveItem | invoice_agent_bot/src/models/invoice.py:228-235 | answers true exactly when some item has the id; only the first such item is removed and the totals follow; otherwise nothing changes |
| AgentInvoice.OmittedAmountAddsNothing | invoice_agent_bot/src/models/invoice.py:55-64 | as written, an item of quantity 2 at 50 with its amount left out adds nothing to a subtotal |
| AgentInvoice.DefaultAmountAdds | invoice_agent_bot/src/models/invoice.py:55-64 | as intended, the same item adds 100 |
| ConversationStateMachine.InvoiceDataFor | invoice_agent_bot/src/models/invoice.py:149 | an invoice draft is built exactly when a customer is given, the customer being a required field |
| ConversationStateMachine.NewContextRaises | invoice_agent_bot/src/core/state.py:58 | as written, the default `invoice_data` factory builds an invoice without its required customer, so creating a context without one raises |
| ConversationStateMachine.Context.constructor | invoice_agent_bot/src/core/state.py:42-73 | as intended, a fresh context is idle, with no history, no retries, no error and no draft, active now, and so not expired under any non-negative timeout |
| ConversationStateMachine.Context.AddMessage | invoice_agent_bot/src/core/state.py:86-94 | exactly one entry carrying role, content, time and the extra fields is appended and the context becomes active now; nothing else changes |
| ConversationStateMachine.Context.TransitionTo | invoice_agent_bot/src/core/state.py:96-106 | the state becomes the new one and exactly one system message recording the old and new state names is appended |
| ConversationStateMachine.Context.RecordError | invoice_agent_bot/src/core/state.py:108-115 | the error is kept and the retry count grows by one; the context enters ERROR, with its transition message after the error message, exactly when the error is not recoverable or the count reaches the maximum |
| ConversationStateMachine.Context.ResetRetryCount | invoice_agent_bot/src/core/state.py:117-120 | the retry count returns to 0 and the error is cleared; state, history, activity, start time and draft are unchanged |
| ConversationStateMachine.Manager.constructor | invoice_agent_bot/src/core/state.py:146-151 | a new manager holds no conversations |
| ConversationStateMachine.Manager.GetOrCreate | invoice_agent_bot/src/core/state.py:166-189 | an existing key returns its context and changes nothing; a new key stores a fresh idle context and changes no other key; either way the key then maps to the returned context, so a second call returns the same one |
| ConversationStateMachine.Manager.Get | invoice_agent_bot/src/core/state.py:191-207 | the context stored under the key, or none exactly when the key is absent |
| ConversationStateMachine.Manager.EndConversation | invoice_agent_bot/src/core/state.py:209-226 | answers true exactly when the key was present, and removes that key and no other |
| ConversationStateMachine.Manager.ResetConversation | invoice_agent_bot/src/core/state.py:228-246 | a fresh idle context, active now, replaces whatever the key held; other keys are unchanged |
| ConversationStateMachine.Manager.UpdateState | invoice_agent_bot/src/core/state.py:248-271 | the key's context, if any, is returned after transitioning to the new state with one transition message; its last activity is now, and its retry count, last error, start time and draft are unchanged |
| ConversationStateMachine.Manager.CleanupExpired | invoice_agent_bot/src/core/state.py:329-346 | exactly the contexts inactive for longer than the timeout are removed, the others stay as they were, and the number removed is returned (see also lines 79-84) |
| BotInvoiceData.MissingFields | invoice_bot/invoice_data.py:95-112 | each required label is listed exactly when its field is empty (the e-mail included), and there are at most six |
| BotInvoiceData.CompleteUnlessOnlyEmail | invoice_bot/invoice_data.py:85-112 | a record is complete exactly when nothing but the e-mail is missing, so a complete record without an e-mail still reports the e-mail missing |
| BotInvoiceData.InvoiceRecord.constructor | invoice_bot/invoice_data.py:40-73 | the record holds the given data |
| BotInvoiceData.InvoiceRecord.CalculateTotal | invoice_bot/invoice_data.py:75-78 | the total becomes subtotal plus VAT minus CIS, is returned, and is the only field that changes |
| BotInvoiceData.InvoiceRecord.CalculateSubtotalFromItemsAsWritten | invoice_bot/invoice_data.py:80-83 | as written, every call fails with a NameError and changes nothing |
| BotInvoiceData.InvoiceRecord.CalculateSubtotalFromItems | invoice_bot/invoice_data.py:80-83 | as intended, the subtotal becomes the sum of the work item amounts and is the only field that changes |
| BotInvoiceData.TotalAfterItems | invoice_bot/invoice_data.py:75-83 | with the corrected subtotal, the total follows the items: their sum plus VAT minus CIS |
| BotInvoiceData.ItemsToDicts | invoice_bot/invoice_data.py:19-26 | one dictionary per work item, in order (see also line 127) |
| BotInvoiceData.ItemsFromDicts | invoice_bot/invoice_data.py:29-37 | the work items read back are as many as the dictionaries (see also lines 164-166) |
| BotInvoiceData.FromDict | invoice_bot/invoice_data.py:140-168 | an empty dictionary gives a record with no work items, a total of 0, and so not complete |
| BotInvoiceData.ItemsRoundTrip | invoice_bot/invoice_data.py:19-37 | every list of work items reads back from its dictionaries |
| BotInvoiceData.ContractorFieldsRead | invoice_bot/invoice_data.py:143-147 | the contractor fields read back from the saved dictionary (see also lines 114-122) |
| BotInvoiceData.PaymentFieldsRead | invoice_bot/invoice_data.py:148-150 | the bank account, sort code and cardholder read back (see also lines 119-121) |
| BotInvoiceData.DetailFieldsRead | invoice_bot/invoice_data.py:151-161 | the invoice details, operatives and metadata read back (see also lines 123-126, 128, 133-134) |
| BotInvoiceData.MoneyFieldsRead | invoice_bot/invoice_data.py:157-166 | the four amounts and the work items read back (see also lines 127, 129-132) |
| BotInvoiceData.RoundTrip | invoice_bot/invoice_data.py:114-168 | a saved record reads back with every field, work items included |
| ExtractionStrategies.Strategies | invoice_bot/e2b_agent/strategies.py:157-202 | every strategy but vision has an entry under its own name, in cost tier 1 or 2; vision has none |
| ExtractionStrategies.StrategyOrder | invoice_bot/e2b_agent/strategies.py:205-227 | a PDF gets five strategies starting with the PDF text reader, anything else four starting with the basic OCR pass; EasyOCR only for non-PDFs; both end with vision, which appears once, and no strategy repeats |
| ExtractionStrategies.CheaperFirst | invoice_bot/e2b_agent/strategies.py:157-227 | along either order the cost tiers of the registered strategies never decrease |
| ExtractionStrategies.PackagesInstalled | invoice_bot/e2b_agent/strategies.py:164-200 | every registered strategy of the PDF order finds its packages among those the agent installs; EasyOCR's package is not among them |
| ExtractedData.Get | invoice_bot/ai_integration.py:127 | `get` returns the default when the key is absent and the value of the key's first entry otherwise |
| AiQuality.NamePoints | invoice_bot/ai_integration.py:126-133 | a name raises exactly when present but not a string; 2 points exactly for a valid-looking string longer than two characters other than "Not found", 0.5 for such a string that looks garbled, 0 otherwise |
| AiQuality.IsValidText | invoice_bot/ai_integration.py:167-181 | valid text has a clean character; non-empty text that is entirely clean is valid; text of at most three characters is valid only when entirely clean |
| AiQuality.EmailPoints | invoice_bot/ai_integration.py:135-138 | an e-mail raises exactly when truthy but not a string, and earns 2 points exactly when it holds both `@` and `.` |
| AiQuality.AddressPoints | invoice_bot/ai_integration.py:140-143 | an address raises exactly when present but not a string, and earns 1 point exactly when longer than five characters and not "Not found" |
| AiQuality.PresencePoints | invoice_bot/ai_integration.py:145-153 | the invoice number or date earns either nothing or its weight: nothing for null, empty, zero, False or "Not found"; its weight for any other text, a non-zero number or True, where a numeric name would raise `TypeError` |
| AiQuality.AmountPoints | invoice_bot/ai_integration.py:155-161 | an amount raises exactly when a non-empty string, and earns 1.25 exactly when a positive number or `True` |
| AiQuality.HeuristicQualityCheck | invoice_bot/ai_integration.py:123-165 | the quality check raises exactly when one of its field tests does; otherwise the score, points over ten, lies in [0, 1] |
| AiQuality.EmptyScoresZero | invoice_bot/ai_integration.py:123-165 | nothing extracted scores 0 |
| AiQuality.FullMarks | invoice_bot/ai_integration.py:123-165 | every checked field well filled scores 1 |
| AiQuality.GarbledNameCosts | invoice_bot/ai_integration.py:167-181 | a garbled name earns 0.15 less than a valid one on the same record (see also lines 127-133) |
| ExtractionAgent.Slice | invoice_bot/e2b_agent/agent.py:321 | Python slicing: the text between the indices, or empty when they cross |
| ExtractionAgent.ParseOutput | invoice_bot/e2b_agent/agent.py:316-322 | output lacking either marker comes back stripped and whole; the result is never longer than the output |
| ExtractionAgent.ParseBetween | invoice_bot/e2b_agent/agent.py:316-322 | output without both markers comes back stripped and whole; the result is never longer than the output |
| ExtractionAgent.ParseBetweenFramed | invoice_bot/e2b_agent/agent.py:316-322 | text framed by the markers, neither occurring earlier, reads back stripped |
| ExtractionAgent.ParseBetweenAt | invoice_bot/e2b_agent/agent.py:319-321 | with the markers first found at two positions in order, the text between them is read |
| ExtractionAgent.FindFirst | invoice_bot/e2b_agent/agent.py:319-320 | `index` returns the first occurrence |
| ExtractionAgent.ParseOutputBetween | invoice_bot/e2b_agent/agent.py:316-322 | what a strategy prints between its two markers reads back as that text, stripped |
| ExtractionAgent.AgentExtension | invoice_bot/e2b_agent/agent.py:326 | the extension holds no dot, and is empty for a name without one |
| ExtractionAgent.DetectFileType | invoice_bot/e2b_agent/agent.py:324-333 | the answer is image, pdf or docx: pdf exactly for a pdf extension, docx exactly for doc or docx, image otherwise |
| ExtractionAgent.AgentExtensionOf | invoice_bot/e2b_agent/agent.py:326 | the extension is what follows the last dot, lower-cased |
| ExtractionAgent.DetectIgnoresCase | invoice_bot/e2b_agent/agent.py:324-333 | the detected type ignores the letter case of the extension |
| ExtractionAgent.DocumentsReadAsImages | invoice_bot/e2b_agent/agent.py:324-333 | a Word document is detected as docx, yet gets the image strategy order (see also line 104) |
| ExtractionAgent.FilledCount | invoice_bot/e2b_agent/agent.py:403 | the extracted values are at most the entries |
| ExtractionAgent.AssessQuality | invoice_bot/e2b_agent/agent.py:390-450 | the score lies in [0, 1]; empty data scores 0.1 with "No data extracted"; the model's answer is clamped; without it the score is min(1, filled/8), at most 0.6 with any issue and at most 0.15 with fewer than three values |
| ExtractionAgent.HeuristicThresholds | invoice_bot/e2b_agent/agent.py:399-450 | without the model, any issue keeps the score below the good threshold, fewer than three values keep it below the minimum, and six clean values reach the good threshold (see also lines 177, 184) |
| ExtractionAgent.GarbageComplementsValidText | invoice_bot/e2b_agent/agent.py:408-412 | valid text in the quality check's sense is never high garbage, and non-empty text that is not high garbage is at least 70% clean |
| ExtractionAgent.ComplementRatio | invoice_bot/e2b_agent/agent.py:410-411 | the clean and garbage shares of a text add up to one |
| ExtractionAgent.Execute | invoice_bot/e2b_agent/agent.py:263-314 | an attempt is scored exactly when it did not fail with a non-empty message; a scored attempt lies in [0, 1]; a failure keeps no data and its message; a run keeps its parsed fields only when it printed text (see also lines 149-170) |
| ExtractionAgent.BestIndex | invoice_bot/e2b_agent/agent.py:173-174 | the kept index is -1 or a scored attempt |
| ExtractionAgent.BestOfSnoc | invoice_bot/e2b_agent/agent.py:152-174 | recording one attempt replaces the best only with a scored attempt of strictly higher score |
| ExtractionAgent.BestIndexIsFirstBest | invoice_bot/e2b_agent/agent.py:173-174 | the kept attempt is the first of the highest-scoring ones; none is kept only when no attempt scored |
| ExtractionAgent.BestOfIsFirstBest | invoice_bot/e2b_agent/agent.py:173-174 | a best attempt exists exactly when some attempt scored, and it is the first of the highest-scoring ones |
| ExtractionAgent.StrategiesOf | invoice_bot/e2b_agent/agent.py:187 | the strategies of the attempts, in order |
| ExtractionAgent.RequeuedKeepsQueue | invoice_bot/e2b_agent/agent.py:186-188 | the old queue stays at the back of the new one, in its order |
| ExtractionAgent.RequeuedMembers | invoice_bot/e2b_agent/agent.py:186-188 | afterwards the queue holds exactly the old queue and the suggestions not yet tried |
| ExtractionAgent.RequeuedNoDup | invoice_bot/e2b_agent/agent.py:186-188 | nothing is queued twice |
| ExtractionAgent.Requeue | invoice_bot/e2b_agent/agent.py:186-188 | the insertion loop computes the requeued order |
| ExtractionAgent.Tried | invoice_bot/e2b_agent/agent.py:149-188 | trying a strategy records exactly its attempt; the loop stops exactly on a good score; the queue is kept or has the suggestions put in front of it |
| ExtractionAgent.AppendAttempt | invoice_bot/e2b_agent/agent.py:150 | recording the attempt of an untried strategy keeps the attempts' strategies distinct, each attempt what its strategy produced |
| ExtractionAgent.TriedKeeps | invoice_bot/e2b_agent/agent.py:149-188 | trying an untried, unqueued strategy keeps the queue and attempts free of repeats and of each other, and the best the first highest-scoring attempt; only the new attempt can be good enough |
| ExtractionAgent.TryStrategy | invoice_bot/e2b_agent/agent.py:149-188 | the new queue, attempts, best and stop flag are exactly `Tried`'s: the attempt recorded, the best replaced only by a strictly higher score, a stop exactly on a good score, and after a score below the minimum the untried suggestions put in front of the queue; the loop's consistency is kept |
| ExtractionAgent.Pass | invoice_bot/e2b_agent/agent.py:128-188 | one pass uses one unit of budget and records at most one attempt; it stops only on a good-enough attempt |
| ExtractionAgent.PassKeeps | invoice_bot/e2b_agent/agent.py:128-188 | a pass within the budget keeps what holds of the loop: no repeats, no vision, each attempt executed, only the last attempt good enough |
| ExtractionAgent.RunStep | invoice_bot/e2b_agent/agent.py:128-188 | the new variables are exactly `Pass`'s: the first entry is popped; vision and unregistered strategies are skipped, any other is tried; the remaining loop from here is the remaining loop from there with one pass less |
| ExtractionAgent.LoopEnds | invoice_bot/e2b_agent/agent.py:128-188 | the loop makes no more passes than its budget and no more attempts than passes; when no attempt was good enough, it ended only because the queue or the budget ran out |
| ExtractionAgent.RunStrategies | invoice_bot/e2b_agent/agent.py:128-188 | the attempts and the best are exactly those of `Loop` from the initial order with the full budget: the loop goes on after an attempt that fell short while budget and queue remain; at most the budget of attempts, no strategy twice and never vision; each attempt is what its strategy produced; only the last could stop the loop; the best is the first highest-scoring attempt; the first registered strategy ran first |
| ExtractionAgent.AgentState.constructor | invoice_bot/e2b_agent/agent.py:38-46 | a new state has no attempts and no best |
| ExtractionAgent.Sandboxed | invoice_bot/e2b_agent/agent.py:128-188 | the sandbox attempts are all of them when vision was not tried |
| ExtractionAgent.SandboxedSnoc | invoice_bot/e2b_agent/agent.py:210-220 | recording the vision attempt leaves the sandbox attempts unchanged |
| ExtractionAgent.VisionAttempt | invoice_bot/e2b_agent/agent.py:211-222 | the vision result is recorded as a scored vision attempt carrying that data |
| ExtractionAgent.VisionFallback | invoice_bot/e2b_agent/agent.py:205-225 | when no attempt scored at least the minimum and vision returns data, exactly one vision attempt is recorded; otherwise nothing; the best stays the first highest-scoring attempt |
| ExtractionAgent.ExtractInvoice | invoice_bot/e2b_agent/agent.py:68-236 | the state's type is the detected one; the attempts are the strategy loop's (none without a sandbox) followed by one vision attempt exactly when the loop's best is missing or below the minimum and vision returned data; the data returned is the best attempt's or empty; at most the budget plus one vision attempt |
| ErrorRecovery.CalculateDelay | invoice_agent_bot/src/utils/error_recovery.py:74-105 | without jitter the delay is the capped exponential; with jitter it lies between half of it and all of it; it never exceeds a non-negative cap |
| ErrorRecovery.JitterBounds | invoice_agent_bot/src/utils/error_recovery.py:102-103 | the jitter factor scales a non-negative delay into [half, whole] |
| ErrorRecovery.DelayNonDecreasing | invoice_agent_bot/src/utils/error_recovery.py:96-99 | without jitter, with a non-negative base delay and a base of at least 1, later attempts never wait less |
| ErrorRecovery.RetryWithBackoff | invoice_agent_bot/src/utils/error_recovery.py:132-182 | the function is called at most the configured number of times (the given count or, when it is None or 0, the setting), and not at all when that is not positive, which raises the RuntimeError; the outcome is the last call's; every earlier call failed with a retryable error; stopping early means a non-retryable error; the sleeps fall between calls only, each the calculated delay |
| ErrorRecovery.NewBreaker | invoice_agent_bot/src/utils/error_recovery.py:196-209 | a new breaker is closed with no failures |
| ErrorRecovery.IsOpenStep | invoice_agent_bot/src/utils/error_recovery.py:211-224 | reports open exactly when open and still cooling down; an open breaker whose cooldown passed turns half-open with its call count reset and reports closed; otherwise nothing changes |
| ErrorRecovery.RecordSuccessStep | invoice_agent_bot/src/utils/error_recovery.py:226-235 | in half-open a success is counted and closes the breaker, failures reset, exactly when the count reaches the maximum; otherwise the failure count drops by one, not below 0 |
| ErrorRecovery.RecordFailureStep | invoice_agent_bot/src/utils/error_recovery.py:237-247 | a failure is counted and timed; it opens a half-open breaker, and opens a closed one exactly when the count reaches the threshold |
| ErrorRecovery.SuccessesWindDown | invoice_agent_bot/src/utils/error_recovery.py:234-235 | while closed, each success takes one off the failure count, down to 0 |
| ErrorRecovery.HalfOpenSuccessesClose | invoice_agent_bot/src/utils/error_recovery.py:228-233 | in half-open, the breaker closes with failures reset exactly once the successes reach the maximum, and stays half-open before |
| ErrorRecovery.CircuitBreaker.constructor | invoice_agent_bot/src/utils/error_recovery.py:196-209 | the breaker starts as a new closed breaker |
| ErrorRecovery.CircuitBreaker.IsOpen | invoice_agent_bot/src/utils/error_recovery.py:211-224 | the breaker's new state and answer are those of the `is_open` step |
| ErrorRecovery.CircuitBreaker.RecordSuccess | invoice_agent_bot/src/utils/error_recovery.py:226-235 | the breaker's new state is the success step's |
| ErrorRecovery.CircuitBreaker.RecordFailure | invoice_agent_bot/src/utils/error_recovery.py:237-247 | the breaker's new state is the failure step's |
| ErrorRecovery.Trimmed | invoice_agent_bot/src/utils/error_recovery.py:286-287 | the history keeps at most 100 entries, all of them when there are no more, and always the newest |
| ErrorRecovery.CountType | invoice_agent_bot/src/utils/error_recovery.py:299-301 | a type's count is at most the history's length |
| ErrorRecovery.GetErrorStats | invoice_agent_bot/src/utils/error_recovery.py:291-303 | the total is the history's length; exactly the types present are counted, each with its number of entries; the recent list is the last ten entries |
| ErrorRecovery.CountTypeAt | invoice_agent_bot/src/utils/error_recovery.py:299-301 | a type with an entry has a count of at least one |
| ErrorRecovery.CircuitOpenError | invoice_agent_bot/src/utils/error_recovery.py:335-339 | the open-circuit error is an unrecoverable ProcessingError |
| ErrorRecovery.ErrorRecoveryManager.constructor | invoice_agent_bot/src/utils/error_recovery.py:258-262 | a new manager has no breakers and no history |
| ErrorRecovery.ErrorRecoveryManager.GetCircuitBreaker | invoice_agent_bot/src/utils/error_recovery.py:264-268 | an existing breaker is returned and nothing changes; otherwise a new one is stored under the name; repeated calls return the same breaker |
| ErrorRecovery.ErrorRecoveryManager.RecordError | invoice_agent_bot/src/utils/error_recovery.py:270-289 | one entry with the error's type name, message and context is appended, the history trimmed to the newest 100; the breakers are unchanged |
| ErrorRecovery.ErrorRecoveryManager.ExecuteWithRecovery | invoice_agent_bot/src/utils/error_recovery.py:305-364 | the function runs exactly when there is no breaker or it is not open; a refused call returns the fallback or raises the open-circuit error; a success is returned and recorded on the breaker; a failure that is an `Exception` is logged in the history, recorded on the breaker, and answered by the fallback or re-raised; any other error propagates with the history unchanged and nothing recorded on the breaker |
| ErrorRecovery.ErrorRecoveryManager.Admit | invoice_agent_bot/src/utils/error_recovery.py:329-331 | the named breaker is got or created, and asked whether it is open |
| ErrorRecovery.ErrorRecoveryManager.Settle | invoice_agent_bot/src/utils/error_recovery.py:344-353 | the breaker records the primary call's success or failure |
| ErrorRecovery.ClassifyError | invoice_agent_bot/src/utils/error_recovery.py:379-398 | never CRITICAL; LOW exactly for a ValidationError that is not an AIError or DocumentError; HIGH exactly for a permission or missing-file error that is none of the earlier classes; MEDIUM otherwise |
| ErrorRecovery.IsRecoverable | invoice_agent_bot/src/utils/error_recovery.py:401-422 | a ProcessingError answers with its own flag; any other error is recoverable exactly when it is none of ValueError, TypeError, KeyError, AttributeError, NotImplementedError |

## Left out

- I/O is not modelled: files, Redis, the network, the Telegram bot API, the E2B sandbox, OCR and PDF libraries, and language-model calls. Their results are parameters: outcome values, `run`/`reason`/`reply` functions, a file header and archive member names.
- Logging, the reasoning history strings, and execution-time measurements are not modelled. They do not affect any decision.
- Concurrency is not modelled: locks, background loops (`_processor_loop`, `_monitor_loop`, `_cleanup_loop`), `asyncio.wait_for` and task scheduling. Each operation runs to completion, and a timeout is an outcome value.
- Floating point is modelled as exact reals. `Decimal` is modelled as reals with half-even quantisation. `Decimal` infinities and NaN, and float formatting in messages, are not modelled.
- Strings are ASCII: `upper`, `lower`, `title`, `isalnum` and `isspace` follow their ASCII behaviour. Other Unicode characters are not classified.
- JSON values in the extracted-data dictionaries are scalars (null, string, number, boolean). Arrays and nested objects are not modelled.
- CircuitBreaker: the statistics timestamps, the state-change callbacks, `get_status`, `AsyncCircuitBreaker` (a locked wrapper), `get_all_status` and the presets are not modelled.
- RetryMechanism: `get_summary`, the `on_retry`, `on_success` and `on_failure` callbacks, and the policy presets are not modelled.
- RetryMechanism.Retry: the returned errors are the context's list as the loop leaves it. When an exception propagates out of the synchronous wrapper, `RetryContext.__exit__` (retry_mechanism.py:85-88) appends it once more; that context is then discarded, so the extra entry is not modelled.
- DeadLetterQueue: disk persistence (`_load_items`, `_save_item`, `initialize`), the processor task, and `enqueue_with_dlq` are not modelled. UUIDs are a fresh-id parameter.
- DeadLetterQueue.FromDict: a field with the wrong JSON type is rejected, whereas Python would store it unchecked.
- StatePersistence.FromDict: an optional field of the wrong JSON type (for example `"version": null` or a numeric `current_step`) is rejected with a `TypeError`, whereas Python stores it unchecked. A session is a typed value here, so an ill-typed field cannot be stored.
- BotInvoiceData.FromDict: a text field that is not a string is rejected (`BotInvoiceData.Text`), whereas Python stores it. An amount that is a numeric string or a boolean is rejected (`BotInvoiceData.Number`), whereas `float(...)` accepts it. Python's float parsing is not modelled.
- PipelineUtils.DecimalOf: underscores between digits (`1_000`), `Infinity` and `NaN` are rejected, whereas `Decimal` accepts them.
- ErrorClassification.AnalyzeRetryability and ErrorClassification.ErrorClassifier.Classify use the corrected group order (see Findings). For a message that holds a service_down keyword and also a transient or network keyword (every "service unavailable" does), the source gives the transient policy (True, TRANSIENT, 3, 0.5) instead. `CorrectionOnlyMovesServiceDown` shows that no other message is affected.
- Validators.ContractorProblems, Validators.ValidateInvoice and Enrichment.InvoiceRecord.ValidateAndClean use the corrected NI check (see Findings). For a contractor NI number made only of spaces, the source raises `IndexError` instead of reporting an NI error. With cleaning on, this cannot happen (`CleanedBeforeValidation`).
- StatePersistence.StateManager.SaveState and StatePersistence.StateManager.SyncLayers treat each layer as a plain map. A full memory layer used as a write layer evicts its least recently accessed key in the source; inside the manager that eviction is not modelled, and the frame "other entries untouched" holds only for layers without a size limit. `MemoryLayer.Save` models the eviction on its own.
- StatePersistence: the file and Redis layers are abstract key-value maps with a failure flag. `exists`, `get_memory_usage`, `recover_session` (which always returns None) and `get_all_active_sessions` are not modelled. A `SessionState` object shared by several layers is copied, so aliasing is not modelled.
- Orchestrator: `get_stats`, and `to_dict` of a task, are not modelled. The fallback message texts are represented by their keys.
- Watchdog: the periodic health log, `get_stats` and `get_full_status` are not modelled.
- FallbackChain: `_execute_model_call` (a stub that raises `NotImplementedError`) is not modelled; a model call's outcome is a parameter. `get_stats`, `get_health_status`, the per-model circuit-breaker and health dictionaries, and `DegradedModeHandler` are not modelled.
- UserMessages: the inline keyboards (`get_retry_keyboard`, `get_help_keyboard`) and `MessageSequences` are constant data and are not modelled.
- PipelineUtils: `clean_text`, `find_nearby_text`, the date parsers, `find_money_in_text`, `extract_pattern*`, `extract_with_context` and `extract_address` are not modelled. They are regex heuristics over OCR text.
- Validators: the date-range checks compare dates given as day numbers. Calendar parsing is not modelled.
- Pipeline: `process`, `_process_*`, `batch_process` and the extractor set-up are not modelled; they run the extractors. `InvoiceData.parse_date` is not modelled.
- AgentInvoice: `to_dict`, `from_dict`, `to_invoice_data`, the company and customer records, and `DocumentMetadata` are not modelled (serialisation and construction glue). The `updated_at` clock reading is a parameter.
- ConversationStateMachine: `to_dict`, `get_stats`, `get_active_conversations`, the state handlers and their scheduling, and the start/stop of the cleanup task are not modelled.
- BotInvoiceData: `format_for_display` is not modelled (display text).
- ExtractionAgent: the model-backed branches are not modelled. `_parse_invoice_fields`, `_reason_about_failure` and the vision extraction are parameters. The model's quality rating is an optional parameter.
- ExtractionAgent.ExtractInvoice: the sandbox is either up for the whole loop (`sandboxUp`) or not at all. An error raised part-way through the loop (agent.py:190-192 catches it and goes on to the vision fallback with the attempts made so far) is not modelled.
- ExtractionAgent: the vision-only path taken when the sandbox package is missing is not modelled. Package installation is not modelled; EasyOCR's package is not among those installed (see `PackagesInstalled`).
- AiQuality: the model-backed quality check that precedes the heuristic is not modelled.

## Findings

| source | as written | input that shows it | evidently intended | confidence | as-written member | corrected member |
|---|---|---|---|---|---|---|
| invoice_bot/orchestrator.py:207-209 | after a timeout, a successful fallback sets RECOVERED and then calls `complete_task`, which overwrites the status with COMPLETED | a task whose call times out and whose fallback returns a value | the history keeps RECOVERED, which `recovered_tasks` (line 288) counts; as written that count is always 0 | not executed; high | Orchestrator.FallbackRecordedAsCompleted | Orchestrator.IntendedRecordsRecovery |
| error_classification.py:79-85 | the transient group, whose keywords include "unavailable", comes before service_down, and the first group whose keyword matches wins | the message "service unavailable" | the service_down policy (5 s base delay, 10 retries) | not executed; medium | ErrorClassification.ServiceUnavailableShadowed | ErrorClassification.ServiceUnavailableCorrected |
| invoice_pipeline/validators.py:86-100 | a value made only of spaces passes the emptiness check, becomes "" once the spaces are removed, and `ni_clean[-1]` then raises IndexError | NI number " " | reported as an invalid format, like any other malformed number | not executed; high | Validators.NiSpacesRaise | Validators.ValidateNiNumber |
| invoice_bot/invoice_data.py:80-83 | the generator reads the name `work_items`, which is bound nowhere, instead of `self.work_items` | any record | the subtotal becomes the sum of the work-item amounts | not executed; high | BotInvoiceData.InvoiceRecord.CalculateSubtotalFromItemsAsWritten | BotInvoiceData.InvoiceRecord.CalculateSubtotalFromItems |
| invoice_agent_bot/src/models/invoice.py:55-64 | the amount default is computed by a "before" validator, and the validation library does not run validators on fields that were left out, so the amount stays None | `InvoiceItem(description="x", quantity=2, unit_price=50)` | amount 100, as invoice_agent_bot/tests/unit/test_models.py:21-32 expects | not executed; medium | AgentInvoice.OmittedAmountAddsNothing | AgentInvoice.DefaultAmountAdds |
| invoice_agent_bot/src/core/state.py:58 | the default `invoice_data` factory calls `InvoiceData()` without its required `customer`, so it raises a validation error | `get_or_create(1, 1)` on a new key, or any `reset_conversation` | a fresh context can be created; whether it should start with no draft or with an empty draft is not evident, since handlers.py reads `ctx.invoice_data` unguarded in some places and checks it in others; the model takes no draft | not executed; high | ConversationStateMachine.NewContextRaises | ConversationStateMachine.Context.constructor |
