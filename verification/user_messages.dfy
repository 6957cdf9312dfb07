/**
 * The user-facing message catalogue (user_messages.py): templates by key,
 * the (category, type) table that picks a template for an error, the
 * Telegram rendering of a message, and the builder that joins lines.
 */
module UserMessages {
  import opened Wrappers
  import opened Text

  datatype MessageCategory = TechnicalIssue | UserError | ExternalService | Recovery | Information

  /** One entry of `actions`: a button label and its callback. */
  datatype Action = Action(text: string, callback: string)

  /** `UserMessage` */
  datatype UserMessage = UserMessage(
    text: string,
    category: MessageCategory,
    showRetryButton: bool,
    showHelpButton: bool,
    emoji: string,
    followUp: Option<string>,
    actions: seq<Action>)

  /** The keys of `UserMessageManager.MESSAGES`. */
  datatype MessageKey =
    | AiModelTimeout | AiModelRateLimit | AiModelUnavailable
    | DocumentCorrupted | DocumentTooLarge | OcrFailed
    | DatabaseConnection | DatabaseTimeout
    | NetworkError | DownloadFailed
    | WebhookFailed
    | CloudconvertFailed | GoogleSheetsFailed | ExternalApiDown
    | InvalidInput | UnknownCommand
    | Recovering | UsingFallback | StateRecovered
    | GeneralError | WorkingOnIt | AlmostDone

  /** The dictionary key of each template. */
  function KeyName(k: MessageKey): string
  {
    match k
    case AiModelTimeout => "ai_model_timeout"
    case AiModelRateLimit => "ai_model_rate_limit"
    case AiModelUnavailable => "ai_model_unavailable"
    case DocumentCorrupted => "document_corrupted"
    case DocumentTooLarge => "document_too_large"
    case OcrFailed => "ocr_failed"
    case DatabaseConnection => "database_connection"
    case DatabaseTimeout => "database_timeout"
    case NetworkError => "network_error"
    case DownloadFailed => "download_failed"
    case WebhookFailed => "webhook_failed"
    case CloudconvertFailed => "cloudconvert_failed"
    case GoogleSheetsFailed => "google_sheets_failed"
    case ExternalApiDown => "external_api_down"
    case InvalidInput => "invalid_input"
    case UnknownCommand => "unknown_command"
    case Recovering => "recovering"
    case UsingFallback => "using_fallback"
    case StateRecovered => "state_recovered"
    case GeneralError => "general_error"
    case WorkingOnIt => "working_on_it"
    case AlmostDone => "almost_done"
  }

  /** The keys in the dictionary's order. */
  const AllKeys: seq<MessageKey> := [
    AiModelTimeout, AiModelRateLimit, AiModelUnavailable,
    DocumentCorrupted, DocumentTooLarge, OcrFailed,
    DatabaseConnection, DatabaseTimeout,
    NetworkError, DownloadFailed,
    WebhookFailed,
    CloudconvertFailed, GoogleSheetsFailed, ExternalApiDown,
    InvalidInput, UnknownCommand,
    Recovering, UsingFallback, StateRecovered,
    GeneralError, WorkingOnIt, AlmostDone]

  lemma AllKeysComplete(k: MessageKey)
    ensures k in AllKeys
  {
  }

  /** Different templates have different keys, so the dictionary lookup is unambiguous. */
  lemma KeyNameInjective(a: MessageKey, b: MessageKey)
    requires KeyName(a) == KeyName(b)
    ensures a == b
  {
    var x, y := KeyName(a), KeyName(b);
    assert |x| == |y| && x[0] == y[0] && x[|x| - 1] == y[|y| - 1];
    assert x[1] == y[1] && x[3] == y[3] && x[5] == y[5] && x[9] == y[9];
  }

  /** A plain-text message with no flags, follow-up or actions. */
  function Plain(text: string, category: MessageCategory, emoji: string): UserMessage
  {
    UserMessage(text, category, false, false, emoji, None, [])
  }

  /** `MESSAGES[k]` */
  function Template(k: MessageKey): UserMessage
  {
    match k
    case AiModelTimeout =>
      Plain("I'm taking a bit longer than usual to think about this. Let me try again...",
        TechnicalIssue, "\U{1F914}").(showRetryButton := true)
    case AiModelRateLimit =>
      Plain("I'm experiencing high demand right now. Please give me a moment...",
        TechnicalIssue, "\U{23F3}").(showRetryButton := true)
    case AiModelUnavailable =>
      Plain("My AI systems are temporarily unavailable. Let me use my backup brain!",
        TechnicalIssue, "\U{1F9E0}").(followUp := Some("I'm still here to help you with your invoices!"))
    case DocumentCorrupted =>
      Plain("I couldn't read that file. It might be corrupted or in an unsupported format.",
        UserError, "\U{1F4C4}\U{274C}").(showHelpButton := true,
        followUp := Some("Could you try uploading a PDF, JPG, or PNG file?"))
    case DocumentTooLarge =>
      Plain("That file is too large for me to process. Please try a smaller file (under 20MB).",
        UserError, "\U{1F4E6}").(followUp := Some("You could also try compressing the image or using a lower resolution."))
    case OcrFailed =>
      Plain("I had trouble reading the text in that image. Could you try a clearer photo?",
        UserError, "\U{1F50D}").(showHelpButton := true,
        followUp := Some("Tips: Make sure the image is well-lit and the text is clearly visible."))
    case DatabaseConnection =>
      Plain("I'm having trouble saving your data, but don't worry - your current session is safe!",
        TechnicalIssue, "\U{1F4BE}").(followUp := Some("I'll keep trying to save your information in the background."))
    case DatabaseTimeout =>
      Plain("My database is taking longer than expected to respond...", TechnicalIssue, "\U{1F504}")
    case NetworkError =>
      Plain("I'm having trouble connecting to my services. Let me retry...",
        TechnicalIssue, "\U{1F310}").(showRetryButton := true)
    case DownloadFailed =>
      Plain("I couldn't download your file. Please try uploading it again.",
        TechnicalIssue, "\U{1F4E5}").(showRetryButton := true)
    case WebhookFailed =>
      Plain("I couldn't notify external systems, but your invoice was processed successfully!",
        ExternalService, "\U{1F4E1}").(followUp := Some("I'll retry sending the notification in the background."))
    case CloudconvertFailed =>
      Plain("I had trouble converting that file format. Could you try a different file?",
        ExternalService, "\U{1F504}").(showHelpButton := true)
    case GoogleSheetsFailed =>
      Plain("I couldn't save to Google Sheets, but your data is safely stored!",
        ExternalService, "\U{1F4CA}").(followUp := Some("You can export your data anytime from the menu."))
    case ExternalApiDown =>
      Plain("An external service I use is temporarily down. I'll continue with what I can do!",
        ExternalService, "\U{1F50C}")
    case InvalidInput =>
      Plain("I'm not sure I understood that. Could you rephrase or be more specific?",
        UserError, "\U{1F937}").(showHelpButton := true)
    case UnknownCommand =>
      Plain("I don't recognize that command. Here are some things I can help with:",
        UserError, "\U{2753}").(actions := [
          Action("\U{1F4E4} Upload Invoice", "upload"),
          Action("\U{1F4CB} View Invoices", "list"),
          Action("\U{2753} Help", "help")])
    case Recovering =>
      Plain("I'm recovering from a brief issue. Thanks for your patience!", Recovery, "\U{1FA79}")
    case UsingFallback =>
      Plain("I'm using my backup systems to help you. Everything is working!", Recovery, "\U{1F504}")
    case StateRecovered =>
      Plain("Good news! I recovered your previous session. Let's continue!", Recovery, "\U{2705}")
    case GeneralError =>
      Plain("I encountered a small hiccup, but I'm still here to help!",
        TechnicalIssue, "\U{26A0}\U{FE0F}").(showRetryButton := true)
    case WorkingOnIt =>
      Plain("I'm working on that for you...", Information, "\U{2699}\U{FE0F}")
    case AlmostDone =>
      Plain("Almost done! Just a moment...", Information, "\U{1F3C3}")
  }

  /** The first key from position `i` of `AllKeys` on whose name is `key`. */
  function KeyOfFrom(key: string, i: nat): (r: Option<MessageKey>)
    requires i <= |AllKeys|
    ensures r.Some? ==> KeyName(r.value) == key
    ensures r.None? ==> forall j :: i <= j < |AllKeys| ==> KeyName(AllKeys[j]) != key
    decreases |AllKeys| - i
  {
    if i == |AllKeys| then None
    else if KeyName(AllKeys[i]) == key then Some(AllKeys[i])
    else KeyOfFrom(key, i + 1)
  }

  /** `key in MESSAGES`, and which template it names. */
  function KeyOf(key: string): (r: Option<MessageKey>)
    ensures r.Some? ==> KeyName(r.value) == key
    ensures r.None? <==> forall k :: KeyName(k) != key
  {
    var r := KeyOfFrom(key, 0);
    assert r.None? ==> forall k :: KeyName(k) != key by {
      if r.None? {
        forall k ensures KeyName(k) != key {
          AllKeysComplete(k);
        }
      }
    }
    r
  }

  /** `MESSAGES.get(key, MESSAGES["general_error"])` */
  function Lookup(key: string): (k: MessageKey)
    ensures KeyName(k) == key || (k == GeneralError && forall j :: KeyName(j) != key)
  {
    match KeyOf(key)
    case Some(k) => k
    case None => GeneralError
  }

  /** A key names its own template. */
  lemma LookupName(k: MessageKey)
    ensures Lookup(KeyName(k)) == k
  {
    KeyNameInjective(Lookup(KeyName(k)), k);
  }

  /** No brace anywhere, so `str.format` has no field to replace. */
  predicate NoBraces(s: string)
  {
    '{' !in s && '}' !in s
  }

  /** The first `}` at or after `i`, or `|s|` when there is none. */
  function CloseFrom(s: string, i: nat): (k: nat)
    requires i <= |s|
    ensures i <= k <= |s|
    ensures k < |s| ==> s[k] == '}'
    ensures forall j :: i <= j < k ==> s[j] != '}'
    decreases |s| - i
  {
    if i == |s| || s[i] == '}' then i else CloseFrom(s, i + 1)
  }

  function Prepend(p: string, r: Option<string>): Option<string>
  {
    match r
    case Some(t) => Some(p + t)
    case None => None
  }

  /**
   * `text.format(**args)` with keyword arguments only: `{{` and `}}` are
   * literal braces, `{name}` is replaced by `args[name]`, and an unknown
   * name, a `{` that is never closed or a lone `}` raises (`None`).
   */
  function Format(s: string, args: map<string, string>): (r: Option<string>)
    decreases |s|
  {
    if s == [] then Some([])
    else if |s| > 1 && s[0] == '{' && s[1] == '{' then Prepend("{", Format(s[2..], args))
    else if |s| > 1 && s[0] == '}' && s[1] == '}' then Prepend("}", Format(s[2..], args))
    else if s[0] == '}' then None
    else if s[0] == '{' then
      var k := CloseFrom(s, 1);
      if k == |s| || s[1..k] !in args then None
      else Prepend(args[s[1..k]], Format(s[k + 1..], args))
    else Prepend([s[0]], Format(s[1..], args))
  }

  /** Formatting a text without braces gives the text back, whatever the arguments. */
  lemma {:induction false} FormatPlain(s: string, args: map<string, string>)
    requires NoBraces(s)
    ensures Format(s, args) == Some(s)
    decreases |s|
  {
    if s != [] {
      assert NoBraces(s[1..]) by {
        assert forall c :: c in s[1..] ==> c in s;
      }
      FormatPlain(s[1..], args);
      assert [s[0]] + s[1..] == s;
    }
  }

  /** A text with a field whose name is not an argument fails to format. */
  lemma FormatUnknownField(name: string, args: map<string, string>)
    requires '{' !in name && '}' !in name && name !in args
    ensures Format("{" + name + "}", args) == None
  {
    var s := "{" + name + "}";
    assert s[|s| - 1] == '}' && s[1..|s| - 1] == name;
    forall j | 1 <= j < |s| - 1 ensures s[j] != '}' {
      assert s[j] == name[j - 1];
    }
    assert CloseFrom(s, 1) == |s| - 1;
    assert s[1] != '{' by {
      if name != [] {
        assert s[1] == name[0];
      }
    }
  }

  /**
   * `get_message(key, **format_args)`: a copy of the template for `key`, or
   * of `general_error` for an unknown key; the text is formatted when
   * arguments are given and kept when formatting fails.
   */
  function GetMessage(key: string, args: map<string, string>): (m: UserMessage)
    ensures var t := Template(Lookup(key));
      m.(text := t.text) == t
      && (m.text == t.text || (args != map[] && Format(t.text, args) == Some(m.text)))
      && (args == map[] ==> m == t)
      && (args != map[] && Format(t.text, args).Some? ==> m.text == Format(t.text, args).value)
  {
    var t := Template(Lookup(key));
    var text :=
      if args == map[] then t.text
      else match Format(t.text, args)
        case Some(f) => f
        case None => t.text;
    t.(text := text, actions := if t.actions != [] then t.actions else [])
  }

  /** A template text without braces comes back unchanged, whatever the arguments. */
  lemma GetMessagePlain(key: string, args: map<string, string>)
    requires NoBraces(Template(Lookup(key)).text)
    ensures GetMessage(key, args) == Template(Lookup(key))
  {
    FormatPlain(Template(Lookup(key)).text, args);
  }

  /** An unknown key gets the `general_error` message. */
  lemma GetMessageUnknown(key: string)
    requires forall k :: KeyName(k) != key
    ensures GetMessage(key, map[]) == Template(GeneralError)
  {
  }

  /** `error_map.get((category, type))`: the template for an error, by category and type. */
  function ErrorTable(category: string, errorType: string): Option<MessageKey>
  {
    if category == "ai_model" then
      if errorType == "timeout" then Some(AiModelTimeout)
      else if errorType == "rate_limit" then Some(AiModelRateLimit)
      else if errorType == "unavailable" then Some(AiModelUnavailable)
      else None
    else if category == "document_processing" then
      if errorType == "corrupted" then Some(DocumentCorrupted)
      else if errorType == "too_large" then Some(DocumentTooLarge)
      else if errorType == "ocr" then Some(OcrFailed)
      else None
    else if category == "database" then
      if errorType == "connection" then Some(DatabaseConnection)
      else if errorType == "timeout" then Some(DatabaseTimeout)
      else None
    else if category == "network" && errorType == "error" then Some(NetworkError)
    else if category == "file_download" && errorType == "failed" then Some(DownloadFailed)
    else if category == "webhook" && errorType == "failed" then Some(WebhookFailed)
    else if category == "third_party" then
      if errorType == "cloudconvert" then Some(CloudconvertFailed)
      else if errorType == "google_sheets" then Some(GoogleSheetsFailed)
      else if errorType == "api_down" then Some(ExternalApiDown)
      else None
    else if category == "user_input" then
      if errorType == "invalid" then Some(InvalidInput)
      else if errorType == "unknown_command" then Some(UnknownCommand)
      else None
    else None
  }

  /** A key's own name looks up its template. */
  lemma GetMessageNamed(k: MessageKey)
    ensures GetMessage(KeyName(k), map[]) == Template(k)
  {
    LookupName(k);
  }

  /**
   * `get_message_for_error(category, type, is_retryable)`: the template the
   * table gives the pair, or `general_error` for a pair it lacks.
   * `is_retryable` is not consulted.
   */
  function GetMessageForError(category: string, errorType: string, isRetryable: bool): (m: UserMessage)
    ensures ErrorTable(category, errorType).None? ==> m == Template(GeneralError)
    ensures ErrorTable(category, errorType).Some? ==> m == Template(ErrorTable(category, errorType).value)
  {
    var k := ErrorTable(category, errorType).GetOr(GeneralError);
    GetMessageNamed(k);
    GetMessage(KeyName(k), map[])
  }

  /** `message.follow_up` is set and non-empty. */
  predicate HasFollowUp(m: UserMessage)
  {
    m.followUp.Some? && m.followUp.value != ""
  }

  /**
   * `format_for_telegram(message)`: the emoji when there is one, the text,
   * and the follow-up after a blank line when it is non-empty, joined by
   * single spaces.
   */
  function FormatForTelegram(m: UserMessage): (r: string)
    ensures m.emoji == "" && !HasFollowUp(m) ==> r == m.text
    ensures m.emoji != "" && !HasFollowUp(m) ==> r == m.emoji + " " + m.text
    ensures m.emoji == "" && HasFollowUp(m) ==> r == m.text + " \n\n" + m.followUp.value
    ensures m.emoji != "" && HasFollowUp(m) ==> r == m.emoji + " " + m.text + " \n\n" + m.followUp.value
  {
    var lead := if m.emoji != "" then [m.emoji] else [];
    var tail := if HasFollowUp(m) then ["\n\n" + m.followUp.value] else [];
    var parts := lead + [m.text] + tail;
    if m.emoji != "" && HasFollowUp(m) then
      assert parts == [m.emoji, m.text, tail[0]];
      Join3(" ", m.emoji, m.text, tail[0]);
      Join(" ", parts)
    else if m.emoji != "" then
      assert parts == [m.emoji, m.text];
      Join2(" ", m.emoji, m.text);
      Join(" ", parts)
    else if HasFollowUp(m) then
      assert parts == [m.text, tail[0]];
      Join2(" ", m.text, tail[0]);
      Join(" ", parts)
    else
      assert parts == [m.text];
      Join(" ", parts)
  }

  /** Joining a first part before the rest. */
  lemma JoinCons(sep: string, p: string, rest: seq<string>)
    ensures Join(sep, [p] + rest) == if rest == [] then p else p + sep + Join(sep, rest)
  {
    assert ([p] + rest)[1..] == rest;
  }

  lemma Join2(sep: string, a: string, b: string)
    ensures Join(sep, [a, b]) == a + sep + b
  {
    assert [a, b] == [a] + [b];
    JoinCons(sep, a, [b]);
  }

  lemma Join3(sep: string, a: string, b: string, c: string)
    ensures Join(sep, [a, b, c]) == a + sep + b + sep + c
  {
    assert [a, b, c] == [a] + [b, c];
    JoinCons(sep, a, [b, c]);
    Join2(sep, b, c);
  }

  /** Joining one more part adds the separator and the part at the end. */
  lemma {:induction false} JoinSnoc(sep: string, parts: seq<string>, p: string)
    ensures Join(sep, parts + [p]) == if parts == [] then p else Join(sep, parts) + sep + p
    decreases |parts|
  {
    if parts != [] {
      assert parts + [p] == [parts[0]] + (parts[1..] + [p]);
      JoinCons(sep, parts[0], parts[1..] + [p]);
      JoinSnoc(sep, parts[1..], p);
      assert parts == [parts[0]] + parts[1..];
      JoinCons(sep, parts[0], parts[1..]);
    }
  }

  /** `MessageBuilder`: lines and action buttons appended in order. */
  class MessageBuilder {
    var parts: seq<string>
    var emoji: string
    var actions: seq<Action>

    constructor ()
      ensures parts == [] && emoji == "" && actions == []
    {
      parts, emoji, actions := [], "", [];
    }

    /** `add_text(text, emoji)`: the text, after the emoji and a space when one is given. */
    method AddText(text: string, emoji: string) returns (self: MessageBuilder)
      modifies this
      ensures self == this
      ensures parts == old(parts) + [if emoji != "" then emoji + " " + text else text]
      ensures this.emoji == old(this.emoji) && actions == old(actions)
    {
      if emoji != "" {
        parts := parts + [emoji + " " + text];
      } else {
        parts := parts + [text];
      }
      return this;
    }

    /** `add_line_break()`: an empty part, so the built message has a blank line there. */
    method AddLineBreak() returns (self: MessageBuilder)
      modifies this
      ensures self == this
      ensures parts == old(parts) + [""] && emoji == old(emoji) && actions == old(actions)
    {
      parts := parts + [""];
      return this;
    }

    /** `add_bullet(text)` */
    method AddBullet(text: string) returns (self: MessageBuilder)
      modifies this
      ensures self == this
      ensures parts == old(parts) + ["\U{2022} " + text] && emoji == old(emoji) && actions == old(actions)
    {
      parts := parts + ["\U{2022} " + text];
      return this;
    }

    /** `add_numbered(number, text)` */
    method AddNumbered(number: int, text: string) returns (self: MessageBuilder)
      modifies this
      ensures self == this
      ensures parts == old(parts) + [IntToDecimal(number) + ". " + text]
      ensures emoji == old(emoji) && actions == old(actions)
    {
      parts := parts + [IntToDecimal(number) + ". " + text];
      return this;
    }

    /** `add_action(text, callback)` */
    method AddAction(text: string, callback: string) returns (self: MessageBuilder)
      modifies this
      ensures self == this
      ensures actions == old(actions) + [Action(text, callback)] && parts == old(parts) && emoji == old(emoji)
    {
      actions := actions + [Action(text, callback)];
      return this;
    }

    /**
     * `build()`: the parts joined by newlines, in the order they were added;
     * a single part comes back alone and no part means the empty string.
     */
    method Build() returns (r: string)
      ensures r == Join("\n", parts)
      ensures parts == [] ==> r == ""
      ensures |parts| == 1 ==> r == parts[0]
    {
      r := Join("\n", parts);
    }
  }
}
