/**
 * The error classifier of the self-healing layer (error_classification.py):
 * keyword tables over the lower-cased message and type name decide the
 * category, the retry policy, the fallback strategy, the user message and
 * the log level of a raised exception.
 */
module ErrorClassification {
  import opened Wrappers
  import opened Text
  import opened Exceptions

  datatype Severity = Critical | High | Medium | Low | Transient

  datatype Category =
    | AiModel | DocumentProcessing | Database | Network | Webhook
    | Memory | UserInput | FileDownload | ThirdParty | Unknown

  /** `(is_retryable, severity, max_retries, delay_base)` as `_analyze_retryability` returns it. */
  datatype Policy = Policy(retryable: bool, severity: Severity, maxRetries: nat, delayBase: real)

  /** `ClassifiedError` */
  datatype ClassifiedError = ClassifiedError(
    error: Exc,
    category: Category,
    severity: Severity,
    isRetryable: bool,
    maxRetries: int,
    delayBase: real,
    fallback: string,
    userMessage: string,
    logLevel: string,
    context: map<string, string>)

  /** `p in error_msg or p in error_type` */
  predicate Hit(p: string, msg: string, typeName: string)
  {
    Contains(msg, p) || Contains(typeName, p)
  }

  /** `any(p in error_msg or p in error_type for p in keys)` */
  predicate HitAny(keys: seq<string>, msg: string, typeName: string)
  {
    exists k :: 0 <= k < |keys| && Hit(keys[k], msg, typeName)
  }

  /** The index of the first keyword group from `i` on that matches, or `|groups|` when none does. */
  function FirstGroupFrom(groups: seq<seq<string>>, msg: string, typeName: string, i: nat): (k: nat)
    requires i <= |groups|
    ensures i <= k <= |groups|
    ensures k < |groups| ==> HitAny(groups[k], msg, typeName)
    ensures forall j :: i <= j < k ==> !HitAny(groups[j], msg, typeName)
    decreases |groups| - i
  {
    if i == |groups| then i
    else if HitAny(groups[i], msg, typeName) then i
    else FirstGroupFrom(groups, msg, typeName, i + 1)
  }

  function FirstGroup(groups: seq<seq<string>>, msg: string, typeName: string): (k: nat)
    ensures k <= |groups|
    ensures k < |groups| ==> HitAny(groups[k], msg, typeName)
    ensures forall j :: 0 <= j < k ==> !HitAny(groups[j], msg, typeName)
  {
    FirstGroupFrom(groups, msg, typeName, 0)
  }

  // ---------------------------------------------------------------- category

  /** The category checks of `_determine_category`, in order. */
  const CategoryTable: seq<(Category, seq<string>)> := [
    (AiModel, ["openai", "anthropic", "ai", "llm", "model"]),
    (DocumentProcessing, ["ocr", "document", "pdf", "image"]),
    (Database, ["database", "db", "sql", "mongo", "redis"]),
    (Network, ["network", "connection", "http", "url", "ssl"]),
    (Webhook, ["webhook", "callback"]),
    (Memory, ["memory", "state", "session"]),
    (UserInput, ["user", "input", "command"]),
    (FileDownload, ["download", "file", "telegram"]),
    (ThirdParty, ["cloudconvert", "google", "sheets", "api"])
  ]

  function CategoryKeys(): (groups: seq<seq<string>>)
    ensures |groups| == |CategoryTable|
    ensures forall k :: 0 <= k < |groups| ==> groups[k] == CategoryTable[k].1
  {
    seq(|CategoryTable|, k requires 0 <= k < |CategoryTable| => CategoryTable[k].1)
  }

  /**
   * `_determine_category(error, error_msg)`: the category of the first
   * group with a keyword in the lower-cased message or type name, and
   * UNKNOWN exactly when no group matches.
   */
  function DetermineCategory(msg: string, typeName: string): (c: Category)
    ensures c == Unknown <==> forall k :: 0 <= k < |CategoryTable| ==> !HitAny(CategoryTable[k].1, msg, typeName)
    ensures c != Unknown ==>
      exists k :: (0 <= k < |CategoryTable| && CategoryTable[k].0 == c && HitAny(CategoryTable[k].1, msg, typeName)
                   && forall j :: 0 <= j < k ==> !HitAny(CategoryTable[j].1, msg, typeName))
  {
    var k := FirstGroup(CategoryKeys(), msg, typeName);
    if k < |CategoryTable| then CategoryTable[k].0 else Unknown
  }

  // ------------------------------------------------------------ retryability

  /** The non-retryable keyword groups: auth, not_found, validation, quota, corrupted. */
  const NonRetryableKeys: seq<seq<string>> := [
    ["unauthorized", "forbidden", "401", "403", "authentication", "invalid key"],
    ["not found", "404", "does not exist", "missing"],
    ["invalid", "bad request", "validation", "malformed", "400"],
    ["quota exceeded", "limit exceeded", "insufficient", "out of credits"],
    ["corrupt", "invalid format", "cannot parse", "unsupported"]
  ]

  datatype RetryKind = RateLimit | Timeout | TransientKind | NetworkKind | ServiceDown

  const RateLimitKeys: seq<string> := ["rate limit", "too many requests", "429", "throttled"]
  const TimeoutKeys: seq<string> := ["timeout", "timed out", "connection timeout", "read timeout"]
  const TransientKeys: seq<string> := ["temporary", "transient", "unavailable", "try again", "503", "502", "504"]
  const NetworkKeys: seq<string> := ["connection error", "network error", "dns", "unreachable", "reset by peer"]
  const ServiceDownKeys: seq<string> := ["service unavailable", "maintenance", "overloaded"]

  /** The retryable groups in the order the source's dictionary lists them. */
  const RetryableAsWritten: seq<(RetryKind, seq<string>)> := [
    (RateLimit, RateLimitKeys), (Timeout, TimeoutKeys), (TransientKind, TransientKeys),
    (NetworkKind, NetworkKeys), (ServiceDown, ServiceDownKeys)
  ]

  /** The same groups with "service_down" checked before "transient", so that its "service unavailable" can match. */
  const RetryableCorrected: seq<(RetryKind, seq<string>)> := [
    (RateLimit, RateLimitKeys), (Timeout, TimeoutKeys), (ServiceDown, ServiceDownKeys),
    (TransientKind, TransientKeys), (NetworkKind, NetworkKeys)
  ]

  function Keys(groups: seq<(RetryKind, seq<string>)>): (r: seq<seq<string>>)
    ensures |r| == |groups|
    ensures forall k :: 0 <= k < |r| ==> r[k] == groups[k].1
  {
    seq(|groups|, k requires 0 <= k < |groups| => groups[k].1)
  }

  const NonRetryablePolicy := Policy(false, High, 0, 0.0)
  const ServiceDownPolicy := Policy(true, High, 10, 5.0)

  /** The policy of a matched retryable group. */
  function KindPolicy(kind: RetryKind): (p: Policy)
    ensures p.retryable && p.maxRetries > 0
  {
    match kind
    case RateLimit => Policy(true, Medium, 5, 2.0)
    case Timeout => Policy(true, Medium, 3, 1.0)
    case ServiceDown => ServiceDownPolicy
    case _ => Policy(true, Transient, 3, 0.5)
  }

  /** `category_defaults` */
  function CategoryDefault(c: Category): (p: Policy)
    ensures !p.retryable ==> p.maxRetries == 0 && p.delayBase == 0.0
    ensures p.retryable ==> p.maxRetries > 0
  {
    match c
    case AiModel => Policy(true, High, 3, 1.0)
    case DocumentProcessing => Policy(false, High, 0, 0.0)
    case Database => Policy(true, Critical, 5, 1.0)
    case Network => Policy(true, Medium, 5, 1.0)
    case Webhook => Policy(true, Low, 3, 2.0)
    case Memory => Policy(false, Critical, 0, 0.0)
    case UserInput => Policy(false, Low, 0, 0.0)
    case FileDownload => Policy(true, Medium, 3, 1.0)
    case ThirdParty => Policy(true, Medium, 3, 1.0)
    case Unknown => Policy(true, Medium, 2, 1.0)
  }

  /**
   * `_analyze_retryability` over the retryable groups `groups`: a
   * non-retryable keyword wins; otherwise the first matching retryable
   * group decides; otherwise the category's default. Whatever the path, a
   * non-retryable result allows no retries.
   */
  function AnalyzeWith(groups: seq<(RetryKind, seq<string>)>, msg: string, typeName: string, c: Category): (p: Policy)
    requires |groups| >= 2 && groups[0] == (RateLimit, RateLimitKeys) && groups[1] == (Timeout, TimeoutKeys)
    ensures (exists k :: 0 <= k < |NonRetryableKeys| && HitAny(NonRetryableKeys[k], msg, typeName)) ==>
      p == NonRetryablePolicy
    ensures (forall k :: 0 <= k < |NonRetryableKeys| ==> !HitAny(NonRetryableKeys[k], msg, typeName)) ==>
      (HitAny(RateLimitKeys, msg, typeName) ==> p == Policy(true, Medium, 5, 2.0))
      && (!HitAny(RateLimitKeys, msg, typeName) && HitAny(TimeoutKeys, msg, typeName) ==> p == Policy(true, Medium, 3, 1.0))
      && ((forall k :: 0 <= k < |groups| ==> !HitAny(groups[k].1, msg, typeName)) ==> p == CategoryDefault(c))
    ensures !p.retryable ==> p.maxRetries == 0
  {
    var n := FirstGroup(NonRetryableKeys, msg, typeName);
    if n < |NonRetryableKeys| then NonRetryablePolicy
    else
      var k := FirstGroup(Keys(groups), msg, typeName);
      if k < |groups| then KindPolicy(groups[k].0) else CategoryDefault(c)
  }

  /** `_analyze_retryability` as the classifier uses it (see `ServiceUnavailableShadowed`). */
  function AnalyzeRetryability(msg: string, typeName: string, c: Category): (p: Policy)
    ensures !p.retryable ==> p.maxRetries == 0
    ensures (exists k :: 0 <= k < |NonRetryableKeys| && HitAny(NonRetryableKeys[k], msg, typeName)) ==>
      p == NonRetryablePolicy
  {
    AnalyzeWith(RetryableCorrected, msg, typeName, c)
  }

  lemma OccursInside(s: string, a: string, b: string, i: int)
    requires OccursAt(s, a + b, i)
    ensures OccursAt(s, b, i + |a|)
  {
    assert s[i + |a|..i + |a| + |b|] == s[i..i + |a| + |b|][|a|..];
  }

  /**
   * As written, "service unavailable" can never select the service_down
   * policy: any message holding it also holds "unavailable", which the
   * earlier transient group matches first.
   */
  lemma ServiceUnavailableShadowed(msg: string, typeName: string, c: Category)
    requires Contains(msg, "service unavailable")
    ensures AnalyzeWith(RetryableAsWritten, msg, typeName, c) != ServiceDownPolicy
  {
    var i :| 0 <= i <= |msg| && OccursAt(msg, "service unavailable", i);
    assert "service unavailable" == "service " + "unavailable";
    OccursInside(msg, "service ", "unavailable", i);
    assert Hit(TransientKeys[2], msg, typeName);
    var keys := Keys(RetryableAsWritten);
    assert HitAny(keys[2], msg, typeName);
    var k := FirstGroup(keys, msg, typeName);
    assert k <= 2;
  }

  /** With service_down checked before transient, "service unavailable" gets the service_down policy. */
  lemma ServiceUnavailableCorrected(msg: string, typeName: string, c: Category)
    requires Contains(msg, "service unavailable")
    requires forall k :: 0 <= k < |NonRetryableKeys| ==> !HitAny(NonRetryableKeys[k], msg, typeName)
    requires !HitAny(RateLimitKeys, msg, typeName) && !HitAny(TimeoutKeys, msg, typeName)
    ensures AnalyzeRetryability(msg, typeName, c) == ServiceDownPolicy
  {
    assert Hit(ServiceDownKeys[0], msg, typeName);
    var keys := Keys(RetryableCorrected);
    assert HitAny(keys[2], msg, typeName);
    var k := FirstGroup(keys, msg, typeName);
    assert k == 2;
  }

  /**
   * The correction changes nothing for a message without a service_down
   * keyword: the classifier then gives the policy of the groups in the
   * source's own order.
   */
  lemma CorrectionOnlyMovesServiceDown(msg: string, typeName: string, c: Category)
    requires !HitAny(ServiceDownKeys, msg, typeName)
    ensures AnalyzeRetryability(msg, typeName, c) == AnalyzeWith(RetryableAsWritten, msg, typeName, c)
  {
    var a := Keys(RetryableAsWritten);
    var b := Keys(RetryableCorrected);
    assert a[0] == b[0] && a[1] == b[1] && a[2] == b[3] && a[3] == b[4] && a[4] == b[2] == ServiceDownKeys;
    var ka := FirstGroup(a, msg, typeName);
    var kb := FirstGroup(b, msg, typeName);
    // Group j of the source's order is group `moved[j]` of the corrected one.
    var moved := [0, 1, 3, 4, 2];
    assert ka != 4 && kb != 2;
    assert !HitAny(a[4], msg, typeName) && !HitAny(b[2], msg, typeName);
    if ka < 5 {
      assert HitAny(b[moved[ka]], msg, typeName);
      forall j | 0 <= j < moved[ka] ensures !HitAny(b[j], msg, typeName) {
        if j < 2 { assert b[j] == a[j]; }
        else if j == 3 { assert b[j] == a[2]; }
      }
      assert kb == moved[ka];
    } else {
      forall j | 0 <= j < 5 ensures !HitAny(b[j], msg, typeName) {
        if j < 2 { assert b[j] == a[j]; }
        else if j == 3 { assert b[j] == a[2]; }
        else if j == 4 { assert b[j] == a[3]; }
      }
      assert kb == 5;
    }
  }

  // ------------------------------------------------ fallback, message, level

  /** `_get_fallback_strategy`: USER_INPUT always asks for clarification; every other category depends on retryability. */
  function FallbackStrategy(c: Category, retryable: bool): (s: string)
    ensures c == UserInput ==> s == "clarify_request"
    ensures c != UserInput ==> s != FallbackTable(c, !retryable)
  {
    FallbackTable(c, retryable)
  }

  function FallbackTable(c: Category, retryable: bool): string
  {
    match c
    case AiModel => if retryable then "fallback_model" else "static_response"
    case DocumentProcessing => if retryable then "manual_extraction" else "request_new_file"
    case Database => if retryable then "local_cache" else "in_memory_state"
    case Network => if retryable then "queue_for_retry" else "degraded_mode"
    case Webhook => if retryable then "queue_for_retry" else "log_and_continue"
    case Memory => if retryable then "reconstruct_state" else "start_fresh"
    case UserInput => "clarify_request"
    case FileDownload => if retryable then "retry_download" else "request_again"
    case ThirdParty => if retryable then "alternative_service" else "skip_operation"
    case Unknown => if retryable then "generic_retry" else "graceful_degradation"
  }

  const RetryingDefault := "I'm working on it. One moment please..."
  const FailedDefault := "I encountered an issue, but I'm still here to help!"

  /**
   * `_generate_user_message`: a category-specific message when the table
   * for the retryability has one, the retryability's default otherwise;
   * the severity is not consulted.
   */
  function UserMessage(c: Category, severity: Severity, retryable: bool): (m: string)
    ensures retryable && c in {DocumentProcessing, Webhook, Memory, UserInput, Unknown} ==> m == RetryingDefault
    ensures !retryable && c in {Network, Webhook, Memory, Unknown} ==> m == FailedDefault
  {
    if retryable then
      match c
      case AiModel => "I'm experiencing a brief delay. Let me try again..."
      case Database => "Just a moment, reconnecting to my systems..."
      case Network => "Connection hiccup! Retrying..."
      case FileDownload => "Having trouble accessing your file. Trying again..."
      case ThirdParty => "Connecting to external service..."
      case _ => RetryingDefault
    else
      match c
      case AiModel => "I'm having trouble processing that. Could you rephrase?"
      case DocumentProcessing => "I couldn't read that document. Could you try a clearer image or PDF?"
      case Database => "I'm having trouble saving your data. Your current session is safe."
      case UserInput => "I'm not sure I understood. Could you clarify what you need?"
      case FileDownload => "I couldn't download your file. Please try uploading it again."
      case ThirdParty => "An external service is temporarily unavailable. I'll continue with what I can do."
      case _ => FailedDefault
  }

  /** `_get_log_level`: a one-to-one map from severity to level name. */
  function LogLevel(s: Severity): (level: string)
    ensures level in ["CRITICAL", "ERROR", "WARNING", "INFO", "DEBUG"]
    ensures forall t: Severity :: t != s ==> LevelName(t) != level
  {
    LevelName(s)
  }

  function LevelName(s: Severity): string
  {
    match s
    case Critical => "CRITICAL"
    case High => "ERROR"
    case Medium => "WARNING"
    case Low => "INFO"
    case Transient => "DEBUG"
  }

  // -------------------------------------------------------------- classifier

  /** A custom classifier registered for one exception type. */
  type Classifier = (Exc, map<string, string>) -> ClassifiedError

  /** `ErrorClassifier`: the default rules plus custom classifiers keyed by exact type name. */
  class ErrorClassifier {
    var customClassifiers: map<string, Classifier>

    constructor ()
      ensures customClassifiers == map[]
    {
      customClassifiers := map[];
    }

    /** `register_custom_classifier(error_type, classifier)` */
    method RegisterCustomClassifier(typeName: string, classifier: Classifier)
      modifies this
      ensures customClassifiers == old(customClassifiers)[typeName := classifier]
    {
      customClassifiers := customClassifiers[typeName := classifier];
    }

    /**
     * `classify(error, context)`: a classifier registered for the exact
     * type decides alone; otherwise the category comes from the keyword
     * groups, a non-retryable result allows no retries, the log level
     * follows the severity and USER_INPUT asks for clarification.
     */
    function Classify(e: Exc, context: Option<map<string, string>>): (r: ClassifiedError)
      reads this
      ensures var ctx := if context.Some? then context.value else map[];
        e.TypeName() in customClassifiers ==> r == customClassifiers[e.TypeName()](e, ctx)
      ensures e.TypeName() !in customClassifiers ==>
        r.error == e
        && r.category == DetermineCategory(Lower(e.message), Lower(e.TypeName()))
        && (!r.isRetryable ==> r.maxRetries == 0)
        && r.logLevel == LogLevel(r.severity)
        && (r.category == UserInput ==> r.fallback == "clarify_request")
      ensures e.TypeName() !in customClassifiers ==>
        var p := AnalyzeRetryability(Lower(e.message), Lower(e.TypeName()), r.category);
        (r.isRetryable, r.severity, r.maxRetries, r.delayBase) == (p.retryable, p.severity, p.maxRetries, p.delayBase)
        && r.fallback == FallbackStrategy(r.category, p.retryable)
        && r.userMessage == UserMessage(r.category, p.severity, p.retryable)
        && r.context == (if context.Some? then context.value else map[])
    {
      var ctx := if context.Some? then context.value else map[];
      var msg := Lower(e.message);
      var typeName := Lower(e.TypeName());
      if e.TypeName() in customClassifiers then customClassifiers[e.TypeName()](e, ctx)
      else
        var category := DetermineCategory(msg, typeName);
        var p := AnalyzeRetryability(msg, typeName, category);
        ClassifiedError(e, category, p.severity, p.retryable, p.maxRetries, p.delayBase,
                        FallbackStrategy(category, p.retryable), UserMessage(category, p.severity, p.retryable),
                        LogLevel(p.severity), ctx)
    }
  }
}
