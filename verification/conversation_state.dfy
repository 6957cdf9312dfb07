/**
 * The chat bot's conversation state machine
 * (invoice_agent_bot/src/core/state.py): one context per (user, chat) pair
 * with its state, activity time, message history and retry counter, and the
 * manager that creates, resets, ends and expires contexts.
 */
module ConversationStateMachine {
  import opened Wrappers

  datatype ConversationState =
    | IDLE
    | AWAITING_DOCUMENT
    | PROCESSING_DOCUMENT
    | CONFIRMING_EXTRACTED_DATA
    | COLLECTING_CUSTOMER
    | COLLECTING_ITEMS
    | COLLECTING_DATES
    | COLLECTING_NOTES
    | REVIEWING
    | GENERATING
    | COMPLETED
    | ERROR

  /** The enum member's `name`. */
  function StateName(s: ConversationState): string
  {
    match s
    case IDLE => "IDLE"
    case AWAITING_DOCUMENT => "AWAITING_DOCUMENT"
    case PROCESSING_DOCUMENT => "PROCESSING_DOCUMENT"
    case CONFIRMING_EXTRACTED_DATA => "CONFIRMING_EXTRACTED_DATA"
    case COLLECTING_CUSTOMER => "COLLECTING_CUSTOMER"
    case COLLECTING_ITEMS => "COLLECTING_ITEMS"
    case COLLECTING_DATES => "COLLECTING_DATES"
    case COLLECTING_NOTES => "COLLECTING_NOTES"
    case REVIEWING => "REVIEWING"
    case GENERATING => "GENERATING"
    case COMPLETED => "COMPLETED"
    case ERROR => "ERROR"
  }

  /** A history entry: role, content, time, and the extra keyword fields in order. */
  datatype Message = Message(role: string, content: string, timestamp: int, extra: seq<(string, string)>)

  /** The system message a transition records. */
  function TransitionMessage(from: ConversationState, to: ConversationState, now: int): Message
  {
    Message("system", "State transition: " + StateName(from) + " -> " + StateName(to), now,
            [("old_state", StateName(from)), ("new_state", StateName(to))])
  }

  /** The system message an error records. */
  function ErrorMessage(error: string, recoverable: bool, now: int): Message
  {
    Message("system", "Error: " + error, now, [("recoverable", if recoverable then "True" else "False")])
  }

  /** Times are in microseconds, the resolution of the timestamps compared. */
  const MicrosPerMinute: int := 60_000_000

  /** The invoice model's draft, reduced to the one field its construction needs. */
  datatype InvoiceDraft = InvoiceDraft(customerName: string)

  /** `InvoiceData(customer=...)`: `customer` is a required field. */
  function InvoiceDataFor(customer: Option<string>): (r: Result<InvoiceDraft, string>)
    ensures r.Ok? <==> customer.Some?
  {
    match customer
    case None => Err("ValidationError")
    case Some(name) => Ok(InvoiceDraft(name))
  }

  /**
   * The `invoice_data` a `ConversationContext(user_id, chat_id)` is given as
   * written: its default factory calls `InvoiceData()` with no customer.
   */
  function DefaultInvoiceDataAsWritten(): Result<InvoiceDraft, string>
  {
    InvoiceDataFor(None)
  }

  /**
   * As written, building a context without passing `invoice_data` raises,
   * so `get_or_create` on a new key and `reset_conversation` always raise.
   */
  lemma NewContextRaises()
    ensures DefaultInvoiceDataAsWritten().Err?
  {
  }

  /** `ConversationContext` */
  class Context {
    const userId: int
    const chatId: int
    var state: ConversationState
    var startedAt: int
    var lastActivity: int
    var invoiceData: Option<InvoiceDraft>
    var messages: seq<Message>
    var retryCount: int
    var lastError: Option<string>

    /**
     * A fresh context: idle, no history, no retries, active now. As
     * intended it starts without an invoice draft instead of raising.
     */
    constructor(userId: int, chatId: int, now: int)
      ensures this.userId == userId && this.chatId == chatId
      ensures state == IDLE && startedAt == now && lastActivity == now
      ensures invoiceData == None && messages == [] && retryCount == 0 && lastError == None
      ensures forall timeoutMinutes :: timeoutMinutes >= 0 ==> !IsExpired(now, timeoutMinutes)
    {
      this.userId := userId;
      this.chatId := chatId;
      state := IDLE;
      startedAt := now;
      lastActivity := now;
      invoiceData := None;
      messages := [];
      retryCount := 0;
      lastError := None;
    }

    /** `is_expired`: inactive for strictly longer than the timeout. */
    predicate IsExpired(now: int, timeoutMinutes: int)
      reads this
    {
      now - lastActivity > timeoutMinutes * MicrosPerMinute
    }

    /** `add_message`: one entry is appended and the context is active now. */
    method AddMessage(role: string, content: string, extra: seq<(string, string)>, now: int)
      modifies this
      ensures messages == old(messages) + [Message(role, content, now, extra)]
      ensures lastActivity == now
      ensures state == old(state) && retryCount == old(retryCount) && lastError == old(lastError)
      ensures startedAt == old(startedAt) && invoiceData == old(invoiceData)
    {
      messages := messages + [Message(role, content, now, extra)];
      lastActivity := now;
    }

    /** `transition_to`: the new state, and exactly one system message recording the step. */
    method TransitionTo(newState: ConversationState, now: int)
      modifies this
      ensures state == newState && lastActivity == now
      ensures messages == old(messages) + [TransitionMessage(old(state), newState, now)]
      ensures retryCount == old(retryCount) && lastError == old(lastError)
      ensures startedAt == old(startedAt) && invoiceData == old(invoiceData)
    {
      var oldState := state;
      state := newState;
      lastActivity := now;
      AddMessage("system", "State transition: " + StateName(oldState) + " -> " + StateName(newState),
                 [("old_state", StateName(oldState)), ("new_state", StateName(newState))], now);
    }

    /**
     * `record_error`: the error is kept and counted; the context enters ERROR
     * exactly when the error is not recoverable or the count reaches the
     * configured maximum.
     */
    method RecordError(error: string, recoverable: bool, maxRetryAttempts: int, now: int)
      modifies this
      ensures lastError == Some(error) && retryCount == old(retryCount) + 1
      ensures state == (if !recoverable || retryCount >= maxRetryAttempts then ERROR else old(state))
      ensures messages == old(messages) + [ErrorMessage(error, recoverable, now)]
        + (if !recoverable || retryCount >= maxRetryAttempts then [TransitionMessage(old(state), ERROR, now)] else [])
      ensures lastActivity == now && startedAt == old(startedAt) && invoiceData == old(invoiceData)
    {
      lastError := Some(error);
      retryCount := retryCount + 1;
      AddMessage("system", "Error: " + error, [("recoverable", if recoverable then "True" else "False")], now);
      if !recoverable || retryCount >= maxRetryAttempts {
        TransitionTo(ERROR, now);
      }
    }

    /** `reset_retry_count` */
    method ResetRetryCount()
      modifies this
      ensures retryCount == 0 && lastError == None
      ensures state == old(state) && messages == old(messages) && lastActivity == old(lastActivity)
      ensures startedAt == old(startedAt) && invoiceData == old(invoiceData)
    {
      retryCount := 0;
      lastError := None;
    }
  }

  /** A conversation's key: (user id, chat id). */
  type Key = (int, int)

  /** `ConversationManager` */
  class Manager {
    var conversations: map<Key, Context>

    constructor()
      ensures conversations == map[]
    {
      conversations := map[];
    }

    /**
     * `get_or_create`: the existing context for the key, or a fresh idle one
     * that is stored; no other key changes. A second call returns the same
     * context.
     */
    method GetOrCreate(userId: int, chatId: int, now: int) returns (c: Context)
      modifies this
      ensures (userId, chatId) in old(conversations) ==>
        c == old(conversations)[(userId, chatId)] && conversations == old(conversations)
      ensures (userId, chatId) !in old(conversations) ==>
        fresh(c) && conversations == old(conversations)[(userId, chatId) := c]
        && c.state == IDLE && c.messages == [] && c.retryCount == 0
      ensures (userId, chatId) in conversations && conversations[(userId, chatId)] == c
    {
      var key := (userId, chatId);
      if key !in conversations {
        var created := new Context(userId, chatId, now);
        conversations := conversations[key := created];
      }
      c := conversations[key];
    }

    /** `get` */
    function Get(userId: int, chatId: int): (r: Option<Context>)
      reads this
      ensures r.Some? <==> (userId, chatId) in conversations
      ensures r.Some? ==> r.value == conversations[(userId, chatId)]
    {
      if (userId, chatId) in conversations then Some(conversations[(userId, chatId)]) else None
    }

    /** `end_conversation`: true exactly when the key was present; only that key goes. */
    method EndConversation(userId: int, chatId: int) returns (removed: bool)
      modifies this
      ensures removed <==> (userId, chatId) in old(conversations)
      ensures conversations == old(conversations) - {(userId, chatId)}
    {
      var key := (userId, chatId);
      if key in conversations {
        conversations := conversations - {key};
        return true;
      }
      return false;
    }

    /** `reset_conversation`: a fresh idle context replaces whatever the key held. */
    method ResetConversation(userId: int, chatId: int, now: int) returns (c: Context)
      modifies this
      ensures fresh(c) && conversations == old(conversations)[(userId, chatId) := c]
      ensures c.state == IDLE && c.messages == [] && c.retryCount == 0 && c.lastActivity == now
    {
      c := new Context(userId, chatId, now);
      conversations := conversations[(userId, chatId) := c];
    }

    /**
     * `update_state`: the key's context, if any, transitions; the state
     * handlers it schedules are not modelled.
     */
    method UpdateState(userId: int, chatId: int, newState: ConversationState, now: int)
      returns (r: Option<Context>)
      modifies if (userId, chatId) in conversations then {conversations[(userId, chatId)]} else {}
      ensures r == old(Get(userId, chatId))
      ensures r.Some? ==> (r.value.state == newState
        && r.value.messages == old(r.value.messages) + [TransitionMessage(old(r.value.state), newState, now)])
      ensures r.Some? ==> (r.value.lastActivity == now
        && r.value.retryCount == old(r.value.retryCount) && r.value.lastError == old(r.value.lastError)
        && r.value.startedAt == old(r.value.startedAt) && r.value.invoiceData == old(r.value.invoiceData))
    {
      r := Get(userId, chatId);
      if r.Some? {
        r.value.TransitionTo(newState, now);
      }
    }

    /**
     * `_cleanup_expired`: exactly the expired contexts are removed, the
     * others stay as they were, and the number removed is returned.
     */
    method CleanupExpired(now: int, timeoutMinutes: int) returns (removed: nat)
      modifies this
      ensures forall k :: k in conversations <==>
        k in old(conversations) && !old(conversations)[k].IsExpired(now, timeoutMinutes)
      ensures forall k :: k in conversations ==> conversations[k] == old(conversations)[k]
      ensures removed == |old(conversations).Keys - conversations.Keys|
    {
      var expired: set<Key> := {};
      var pending := conversations.Keys;
      while pending != {}
        invariant pending <= conversations.Keys
        invariant forall k :: k in expired <==>
          k in conversations && k !in pending && conversations[k].IsExpired(now, timeoutMinutes)
        decreases pending
      {
        var k :| k in pending;
        if conversations[k].IsExpired(now, timeoutMinutes) {
          expired := expired + {k};
        }
        pending := pending - {k};
      }
      var before := conversations;
      conversations := conversations - expired;
      assert before.Keys - conversations.Keys == expired;
      removed := |expired|;
    }
  }
}
