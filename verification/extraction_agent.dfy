/**
 * The sandbox extraction agent (invoice_bot/e2b_agent/agent.py): it tries
 * the strategies of its file type one by one, scores each result, keeps the
 * best, stops early on a good score, queues the strategies a failure
 * suggests, and falls back to vision when nothing scored well enough.
 *
 * The sandbox, the language model and the clock are outside the model: what
 * running a strategy produced, what the model suggested after a failure and
 * what vision returned are parameters.
 */
module ExtractionAgent {
  import opened Wrappers
  import opened Text
  import opened Numeric
  import opened Sequences
  import opened ExtractedData
  import opened ExtractionStrategies
  import AiQuality

  // ---------------------------------------------------------------------------
  // Sandbox output and file type
  // ---------------------------------------------------------------------------

  const StartMarker: string := "===EXTRACTED_TEXT_START==="
  const EndMarker: string := "===EXTRACTED_TEXT_END==="

  /** Python's `s[i:j]` for `0 <= i, j <= |s|`: empty when `j < i`. */
  function Slice(s: string, i: nat, j: nat): (r: string)
    requires i <= |s| && j <= |s|
    ensures i <= j ==> r == s[i..j]
    ensures j < i ==> r == []
  {
    if i <= j then s[i..j] else []
  }

  /**
   * The stripped text between the first `start` and the first `end` when
   * both occur, otherwise the whole output stripped.
   */
  function ParseBetween(stdout: string, start: string, end: string): (r: string)
    ensures !Contains(stdout, start) || !Contains(stdout, end) ==> r == Strip(stdout)
    ensures |r| <= |stdout|
  {
    var a := Find(stdout, start);
    var b := Find(stdout, end);
    if a >= 0 && b >= 0 then Strip(Slice(stdout, a + |start|, b)) else Strip(stdout)
  }

  /** `_parse_output` */
  function ParseOutput(stdout: string): (r: string)
    ensures !Contains(stdout, StartMarker) || !Contains(stdout, EndMarker) ==> r == Strip(stdout)
    ensures |r| <= |stdout|
  {
    ParseBetween(stdout, StartMarker, EndMarker)
  }

  /** Text framed by the two markers, neither occurring earlier, is read back stripped. */
  lemma ParseBetweenFramed(pre: string, start: string, text: string, end: string, post: string)
    requires var s := pre + start + text + end + post;
      forall j :: 0 <= j < |pre| ==> !OccursAt(s, start, j)
    requires var s := pre + start + text + end + post;
      forall j :: 0 <= j < |pre| + |start| + |text| ==> !OccursAt(s, end, j)
    ensures ParseBetween(pre + start + text + end + post, start, end) == Strip(text)
  {
    var s := pre + start + text + end + post;
    var a := |pre|;
    var b := |pre| + |start| + |text|;
    assert OccursAt(s, start, a) by {
      assert s == pre + start + (text + end + post);
      Middle(pre, start, text + end + post);
    }
    assert OccursAt(s, end, b) by {
      assert s == (pre + start + text) + end + post;
      Middle(pre + start + text, end, post);
    }
    assert s[a + |start|..b] == text by {
      assert s == (pre + start) + text + (end + post);
      Middle(pre + start, text, end + post);
    }
    FindFirst(s, start, a);
    FindFirst(s, end, b);
    ParseBetweenAt(s, start, end, a, b);
  }

  /** With the markers first found at `a` and `b`, the text between them is read. */
  lemma ParseBetweenAt(s: string, start: string, end: string, a: nat, b: nat)
    requires Find(s, start) == a && Find(s, end) == b && a + |start| <= b
    ensures ParseBetween(s, start, end) == Strip(s[a + |start|..b])
  {
  }

  lemma Middle(x: string, y: string, z: string)
    ensures (x + y + z)[|x|..|x| + |y|] == y
  {
  }

  /** `find` returns an occurrence with none before it. */
  lemma FindFirst(s: string, sub: string, k: nat)
    requires OccursAt(s, sub, k)
    requires forall j :: 0 <= j < k ==> !OccursAt(s, sub, j)
    ensures Find(s, sub) == k
  {
    assert Contains(s, sub);
  }

  /**
   * What a strategy prints, `pre`, the start marker, the text, the end
   * marker, `post`, reads back as the text, stripped, as long as the markers
   * do not occur earlier; output without both markers is only stripped.
   */
  lemma ParseOutputBetween(pre: string, text: string, post: string)
    requires var s := pre + StartMarker + text + EndMarker + post;
      forall j :: 0 <= j < |pre| ==> !OccursAt(s, StartMarker, j)
    requires var s := pre + StartMarker + text + EndMarker + post;
      forall j :: 0 <= j < |pre| + |StartMarker| + |text| ==> !OccursAt(s, EndMarker, j)
    ensures ParseOutput(pre + StartMarker + text + EndMarker + post) == Strip(text)
  {
    ParseBetweenFramed(pre, StartMarker, text, EndMarker, post);
  }

  /** `filename.lower().split('.')[-1] if '.' in filename else ''` */
  function AgentExtension(filename: string): (e: string)
    ensures '.' !in e
    ensures '.' !in filename ==> e == []
  {
    var n := Lower(filename);
    var i := RFind(n, '.');
    if i >= 0 then n[i + 1..]
    else
      assert '.' !in filename by {
        forall k | 0 <= k < |filename| ensures filename[k] != '.' {
          assert n[k] == LowerChar(filename[k]);
        }
      }
      []
  }

  const ImageExtensions: set<string> := {"jpg", "jpeg", "png", "gif", "bmp", "tiff", "webp"}

  /**
   * `_detect_file_type`: "pdf" and "docx" by their extensions, "image" for
   * the image extensions and for anything else.
   */
  function DetectFileType(filename: string): (r: string)
    ensures r in {"image", "pdf", "docx"}
    ensures r == "pdf" <==> AgentExtension(filename) == "pdf"
    ensures r == "docx" <==> AgentExtension(filename) in {"doc", "docx"}
  {
    var e := AgentExtension(filename);
    if e in ImageExtensions then "image"
    else if e == "pdf" then "pdf"
    else if e in ["doc", "docx"] then "docx"
    else "image"
  }

  /** The extension is what follows the last dot, lower-cased. */
  lemma AgentExtensionOf(stem: string, e: string)
    requires '.' !in e
    ensures AgentExtension(stem + "." + e) == Lower(e)
  {
    var f := stem + "." + e;
    var n := Lower(f);
    assert Lower(e) == n[|stem| + 1..];
    assert '.' !in Lower(e) by {
      forall k | 0 <= k < |e| ensures Lower(e)[k] != '.' {
        assert e[k] != '.';
      }
    }
    assert n == n[..|stem| + 1] + Lower(e);
    RFindAppend(n[..|stem| + 1], Lower(e), '.');
    assert n[|stem|] == '.';
  }

  /** The type from the name ignores the letter case of the extension. */
  lemma DetectIgnoresCase(stem: string, e: string)
    requires '.' !in e
    ensures DetectFileType(stem + "." + e) == DetectFileType(stem + "." + Lower(e))
  {
    assert '.' !in Lower(e) by {
      forall k | 0 <= k < |e| ensures Lower(e)[k] != '.' {
        assert e[k] != '.';
      }
    }
    AgentExtensionOf(stem, e);
    AgentExtensionOf(stem, Lower(e));
    LowerFixed(Lower(e));
  }

  /**
   * A Word document is recognised as "docx", yet the strategy order treats
   * every type but "pdf" as an image: it is read by the OCR passes.
   */
  lemma DocumentsReadAsImages(stem: string, e: string)
    requires '.' !in e && Lower(e) in {"doc", "docx"}
    ensures DetectFileType(stem + "." + e) == "docx"
    ensures StrategyOrder(DetectFileType(stem + "." + e)) == StrategyOrder("image")
  {
    AgentExtensionOf(stem, e);
  }

  // ---------------------------------------------------------------------------
  // Quality assessment
  // ---------------------------------------------------------------------------

  /** `_assess_quality`'s result. */
  datatype Assessment = Assessment(score: real, issues: seq<string>)

  /** A value the assessment counts as extracted: not None, not "", not 0 (nor `False`, which equals 0). */
  predicate Filled(v: Value)
  {
    v != VNull && v != VStr("") && v != VNum(0.0) && v != VBool(false)
  }

  /** The number of extracted values. */
  function FilledCount(data: Dict): (n: nat)
    ensures n <= |data|
  {
    if data == [] then 0 else FilledCount(data[..|data| - 1]) + (if Filled(data[|data| - 1].1) then 1 else 0)
  }

  /**
   * More than 30% of the text is neither letter, digit nor whitespace; the
   * empty text has no garbage.
   */
  predicate HighGarbage(raw: string)
  {
    raw != [] && (|raw| - CleanCount(raw)) as real / |raw| as real > 0.3
  }

  /** The assessment's issues for non-empty data, in the order found. */
  function Issues(raw: string, data: Dict): seq<string>
  {
    (if FilledCount(data) < 3 then ["Very few fields extracted"] else [])
    + (if HighGarbage(raw) then ["High garbage character ratio"] else [])
  }

  /**
   * `_assess_quality`: nothing extracted scores 0.1; otherwise the model's
   * answer, clamped to [0, 1], when it gives one (`llmReply`), else one
   * eighth per extracted value up to 1, cut to 60% when there are issues.
   */
  function AssessQuality(raw: string, data: Dict, llmReply: Option<real>): (a: Assessment)
    ensures 0.0 <= a.score <= 1.0
    ensures data == [] ==> a == Assessment(0.1, ["No data extracted"])
    ensures data != [] ==> a.issues == Issues(raw, data)
    ensures data != [] && llmReply.Some? ==> a.score == Max(0.0, Min(1.0, llmReply.value))
    ensures data != [] && llmReply.None? && a.issues == [] ==> a.score == Min(1.0, FilledCount(data) as real / 8.0)
    ensures data != [] && llmReply.None? && a.issues != [] ==> a.score <= 0.6
    ensures data != [] && llmReply.None? && FilledCount(data) < 3 ==> a.score <= 0.15
  {
    if data == [] then Assessment(0.1, ["No data extracted"])
    else
      var issues := Issues(raw, data);
      match llmReply
      case Some(reply) => Assessment(Max(0.0, Min(1.0, reply)), issues)
      case None =>
        var h := Min(1.0, FilledCount(data) as real / 8.0);
        Assessment(if issues != [] then h * 0.6 else h, issues)
  }

  /** The agent's thresholds and strategy budget. */
  datatype AgentConfig = AgentConfig(maxStrategies: int, minQuality: real, goodQuality: real)

  const DefaultConfig: AgentConfig := AgentConfig(5, 0.4, 0.65)

  /**
   * Without the model, a result with any issue never reaches the good
   * threshold, and one with fewer than three values, or none, is below the
   * minimum, so the agent looks for another strategy.
   */
  lemma HeuristicThresholds(raw: string, data: Dict)
    ensures var a := AssessQuality(raw, data, None);
      a.issues != [] ==> a.score < DefaultConfig.goodQuality
    ensures FilledCount(data) < 3 ==> AssessQuality(raw, data, None).score < DefaultConfig.minQuality
    ensures data != [] && !HighGarbage(raw) && FilledCount(data) >= 6 ==>
      AssessQuality(raw, data, None).score >= DefaultConfig.goodQuality
  {
  }

  /**
   * The agent's garbage test and the quality check's valid-text test are
   * two sides of one ratio: valid text is never high garbage, and non-empty
   * text that is not high garbage has at least 70% clean characters.
   */
  lemma GarbageComplementsValidText(t: string)
    ensures AiQuality.IsValidText(t) ==> !HighGarbage(t)
    ensures t != [] && !HighGarbage(t) ==> CleanCount(t) as real / |t| as real >= 0.7
  {
    if t != [] {
      ComplementRatio(CleanCount(t), |t|);
    }
  }

  /** The shares of `c` and of `n - c` in `n` add up to one. */
  lemma ComplementRatio(c: nat, n: nat)
    requires 0 < n && c <= n
    ensures c as real / n as real > 0.7 ==> !((n - c) as real / n as real > 0.3)
    ensures !((n - c) as real / n as real > 0.3) ==> c as real / n as real >= 0.7
  {
    var x := n as real;
    var y := c as real;
    assert (n - c) as real == x - y;
    RatioAbove(y, x, 0.7);
    RatioAbove(x - y, x, 0.3);
  }

  /** Comparing a ratio is comparing its numerator with the scaled denominator. */
  lemma RatioAbove(x: real, n: real, k: real)
    requires n > 0.0
    ensures x / n > k <==> x > k * n
    ensures x / n >= k <==> x >= k * n
  {
    var q := x / n;
    assert q * n == x;
    if q > k {
      assert q * n > k * n;
    } else {
      assert q * n <= k * n;
    }
    if q >= k {
      assert q * n >= k * n;
    } else {
      assert q * n < k * n;
    }
  }

  // ---------------------------------------------------------------------------
  // Attempts and the best one
  // ---------------------------------------------------------------------------

  /** `ExtractionAttempt`, without its raw text, issues and timing. */
  datatype Attempt = Attempt(strategy: StrategyType, data: Dict, score: real, error: Option<string>)

  /** What running a strategy in the sandbox produced. */
  datatype Outcome =
    | Failed(message: string)
    | Ran(rawText: string, parsed: Dict, llmReply: Option<real>)

  /** An attempt whose error is falsy (None or empty) is scored and can be the best. */
  predicate Scored(a: Attempt)
  {
    a.error.None? || a.error == Some("")
  }

  /**
   * One attempt: a failure records its message and scores 0, unless the
   * message is empty, in which case the empty result is assessed (0.1); a
   * run keeps its parsed fields when it printed text and is assessed.
   */
  function Execute(s: StrategyType, o: Outcome): (a: Attempt)
    ensures a.strategy == s
    ensures Scored(a) <==> !(o.Failed? && o.message != "")
    ensures Scored(a) ==> 0.0 <= a.score <= 1.0
    ensures o.Failed? ==> a.data == [] && a.error == Some(o.message)
    ensures o.Ran? ==> a.data == (if o.rawText != "" then o.parsed else []) && a.error == None
  {
    match o
    case Failed(m) =>
      if m != "" then Attempt(s, [], 0.0, Some(m))
      else Attempt(s, [], AssessQuality("", [], None).score, Some(m))
    case Ran(raw, parsed, reply) =>
      var data := if raw != "" then parsed else [];
      Attempt(s, data, AssessQuality(raw, data, reply).score, None)
  }

  /**
   * The index of the best attempt as the agent keeps it, or -1: a later
   * scored attempt replaces it only with a strictly higher score.
   */
  function BestIndex(attempts: seq<Attempt>): (i: int)
    ensures -1 <= i < |attempts|
    ensures i >= 0 ==> Scored(attempts[i])
  {
    if attempts == [] then -1
    else
      var p := BestIndex(attempts[..|attempts| - 1]);
      var a := attempts[|attempts| - 1];
      if Scored(a) && (p < 0 || a.score > attempts[p].score) then |attempts| - 1 else p
  }

  /** `state.best_attempt` after the attempts, in order. */
  function BestOf(attempts: seq<Attempt>): Option<Attempt>
  {
    var i := BestIndex(attempts);
    if i >= 0 then Some(attempts[i]) else None
  }

  /** Recording one more attempt updates the best as the agent's loop does. */
  lemma BestOfSnoc(attempts: seq<Attempt>, a: Attempt)
    ensures var b := BestOf(attempts);
      BestOf(attempts + [a]) == if Scored(a) && (b.None? || a.score > b.value.score) then Some(a) else b
  {
    var s := attempts + [a];
    assert s[..|s| - 1] == attempts;
    var p := BestIndex(attempts);
    if p >= 0 {
      assert s[p] == attempts[p];
    }
  }

  /** `attempts[i]` is scored, beats every scored attempt before it and is not beaten after it. */
  predicate FirstBest(attempts: seq<Attempt>, i: int)
  {
    && 0 <= i < |attempts| && Scored(attempts[i])
    && (forall j :: 0 <= j < i && Scored(attempts[j]) ==> attempts[j].score < attempts[i].score)
    && (forall j :: i < j < |attempts| && Scored(attempts[j]) ==> attempts[j].score <= attempts[i].score)
  }

  /**
   * The kept attempt is the first of the highest-scoring ones, and there is
   * none only when no attempt scored.
   */
  lemma {:induction false} BestIndexIsFirstBest(attempts: seq<Attempt>)
    ensures BestIndex(attempts) >= 0 ==> FirstBest(attempts, BestIndex(attempts))
    ensures BestIndex(attempts) < 0 ==> forall j :: 0 <= j < |attempts| ==> !Scored(attempts[j])
    decreases |attempts|
  {
    if attempts != [] {
      var init := attempts[..|attempts| - 1];
      var last := |attempts| - 1;
      BestIndexIsFirstBest(init);
      var p := BestIndex(init);
      assert forall j :: 0 <= j < last ==> attempts[j] == init[j];
      if Scored(attempts[last]) && (p < 0 || attempts[last].score > attempts[p].score) {
        assert BestIndex(attempts) == last;
      } else {
        assert BestIndex(attempts) == p;
      }
    }
  }

  /** The same, for the attempt kept. */
  lemma BestOfIsFirstBest(attempts: seq<Attempt>)
    ensures BestOf(attempts).Some? <==> exists i :: 0 <= i < |attempts| && Scored(attempts[i])
    ensures BestOf(attempts).Some? ==> exists i :: FirstBest(attempts, i) && attempts[i] == BestOf(attempts).value
  {
    BestIndexIsFirstBest(attempts);
  }

  /** The strategies of the attempts, in order. */
  function StrategiesOf(attempts: seq<Attempt>): (r: seq<StrategyType>)
    ensures |r| == |attempts|
    ensures forall i :: 0 <= i < |attempts| ==> r[i] == attempts[i].strategy
  {
    seq(|attempts|, i requires 0 <= i < |attempts| => attempts[i].strategy)
  }

  // ---------------------------------------------------------------------------
  // Requeueing suggested strategies
  // ---------------------------------------------------------------------------

  /**
   * The queue after the suggestions are inserted at its front, last
   * suggestion first, each only when neither tried nor already queued.
   */
  function Requeued(order: seq<StrategyType>, next: seq<StrategyType>, tried: seq<StrategyType>): seq<StrategyType>
    decreases |next|
  {
    if next == [] then order
    else
      var s := next[|next| - 1];
      Requeued(if s !in tried && s !in order then [s] + order else order, next[..|next| - 1], tried)
  }

  /** The strategies `Requeued` puts in front of the old queue. */
  function Front(order: seq<StrategyType>, next: seq<StrategyType>, tried: seq<StrategyType>): seq<StrategyType>
    decreases |next|
  {
    if next == [] then []
    else
      var s := next[|next| - 1];
      if s !in tried && s !in order then Front([s] + order, next[..|next| - 1], tried) + [s]
      else Front(order, next[..|next| - 1], tried)
  }

  /** The old queue stays at the back of the new one, in its order. */
  lemma {:induction false} RequeuedKeepsQueue(order: seq<StrategyType>, next: seq<StrategyType>, tried: seq<StrategyType>)
    ensures Requeued(order, next, tried) == Front(order, next, tried) + order
    decreases |next|
  {
    if next != [] {
      var s := next[|next| - 1];
      var init := next[..|next| - 1];
      if s !in tried && s !in order {
        RequeuedKeepsQueue([s] + order, init, tried);
        assert Front([s] + order, init, tried) + ([s] + order) == (Front([s] + order, init, tried) + [s]) + order;
      } else {
        RequeuedKeepsQueue(order, init, tried);
      }
    }
  }

  /** What is queued afterwards is the old queue and the untried suggestions. */
  lemma {:induction false} RequeuedMembers(order: seq<StrategyType>, next: seq<StrategyType>, tried: seq<StrategyType>)
    ensures forall s :: s in Requeued(order, next, tried) <==> s in order || (s in next && s !in tried)
    decreases |next|
  {
    if next != [] {
      var s := next[|next| - 1];
      var init := next[..|next| - 1];
      var o := if s !in tried && s !in order then [s] + order else order;
      RequeuedMembers(o, init, tried);
      assert next == init + [s];
    }
  }

  /** Nothing is queued twice. */
  lemma {:induction false} RequeuedNoDup(order: seq<StrategyType>, next: seq<StrategyType>, tried: seq<StrategyType>)
    requires NoDup(order)
    ensures NoDup(Requeued(order, next, tried))
    decreases |next|
  {
    if next != [] {
      var s := next[|next| - 1];
      var o := if s !in tried && s !in order then [s] + order else order;
      assert NoDup(o) by {
        if o != order {
          forall i, j | 0 <= i < j < |o| ensures o[i] != o[j] {
            if i == 0 {
              assert o[j] == order[j - 1];
            } else {
              assert o[i] == order[i - 1] && o[j] == order[j - 1];
            }
          }
        }
      }
      RequeuedNoDup(o, next[..|next| - 1], tried);
    }
  }

  /** The loop `for s in reversed(next_strategies): ... strategy_order.insert(0, s)`. */
  method Requeue(order: seq<StrategyType>, next: seq<StrategyType>, tried: seq<StrategyType>)
    returns (r: seq<StrategyType>)
    ensures r == Requeued(order, next, tried)
  {
    r := order;
    var i := |next|;
    assert next[..i] == next;
    while i > 0
      invariant 0 <= i <= |next|
      invariant Requeued(r, next[..i], tried) == Requeued(order, next, tried)
    {
      assert next[..i][..i - 1] == next[..i - 1];
      i := i - 1;
      var s := next[i];
      if s !in tried && s !in r {
        r := [s] + r;
      }
    }
    assert next[..0] == [];
  }

  // ---------------------------------------------------------------------------
  // The strategy loop
  // ---------------------------------------------------------------------------

  /** A scored attempt good enough to stop at. */
  predicate GoodEnough(a: Attempt, config: AgentConfig)
  {
    Scored(a) && a.score >= config.goodQuality
  }

  /** No attempt was good enough to stop at. */
  predicate NoneGood(attempts: seq<Attempt>, config: AgentConfig)
  {
    forall i :: 0 <= i < |attempts| ==> !GoodEnough(attempts[i], config)
  }

  /** No attempt but the last was good enough to stop at. */
  predicate NoneGoodBeforeLast(attempts: seq<Attempt>, config: AgentConfig)
  {
    forall i :: 0 <= i < |attempts| - 1 ==> !GoodEnough(attempts[i], config)
  }

  /** Every attempt is what running its strategy produced. */
  predicate Executed(attempts: seq<Attempt>, run: StrategyType -> Outcome)
  {
    forall i :: 0 <= i < |attempts| ==> attempts[i] == Execute(attempts[i].strategy, run(attempts[i].strategy))
  }

  /** The loop's queue, attempts and best stay consistent. */
  predicate LoopInvariant(order: seq<StrategyType>, attempts: seq<Attempt>, best: Option<Attempt>,
                          run: StrategyType -> Outcome)
  {
    && best == BestOf(attempts)
    && NoDup(order) && NoDup(StrategiesOf(attempts))
    && (forall s :: s in order ==> s !in StrategiesOf(attempts))
    && GPT4_VISION !in StrategiesOf(attempts)
    && Executed(attempts, run)
  }

  /** The loop's variables: the queue, the attempts, the best, whether it stopped, and the passes made. */
  datatype Progress = Progress(order: seq<StrategyType>, attempts: seq<Attempt>, best: Option<Attempt>,
                               stop: bool, passes: nat)

  /** The loop before its first pass. */
  function Start(initial: seq<StrategyType>): Progress
  {
    Progress(initial, [], None, false, 0)
  }

  /**
   * What trying the registered strategy `s`, already taken from the queue,
   * does to the loop's variables: the attempt is recorded; a scored one
   * becomes the best if it beats it; a good score stops the loop; a score
   * below the minimum puts the suggestions for the attempts so far in front
   * of the queue.
   */
  function Tried(config: AgentConfig, s: StrategyType, order: seq<StrategyType>, attempts: seq<Attempt>,
                 best: Option<Attempt>, run: StrategyType -> Outcome, reason: seq<Attempt> -> seq<StrategyType>): (r: Progress)
    ensures r.attempts == attempts + [Execute(s, run(s))] && r.passes == 0
    ensures r.stop <==> GoodEnough(Execute(s, run(s)), config)
    ensures r.order == order || r.order == Requeued(order, reason(r.attempts), StrategiesOf(r.attempts))
  {
    var a := Execute(s, run(s));
    var attempts' := attempts + [a];
    if !Scored(a) then Progress(order, attempts', best, false, 0)
    else
      var best' := if best.None? || a.score > best.value.score then Some(a) else best;
      if a.score >= config.goodQuality then Progress(order, attempts', best', true, 0)
      else if a.score < config.minQuality then
        Progress(Requeued(order, reason(attempts'), StrategiesOf(attempts')), attempts', best', false, 0)
      else Progress(order, attempts', best', false, 0)
  }

  /**
   * One pass of the loop: the first queue entry is taken; vision and
   * unregistered strategies are skipped, any other is tried.
   */
  function Pass(config: AgentConfig, p: Progress, run: StrategyType -> Outcome,
                reason: seq<Attempt> -> seq<StrategyType>): (r: Progress)
    requires p.order != []
    ensures r.passes == p.passes + 1
    ensures |p.attempts| <= |r.attempts| <= |p.attempts| + 1
    ensures r.stop ==> |r.attempts| == |p.attempts| + 1 && GoodEnough(r.attempts[|r.attempts| - 1], config)
  {
    var s := p.order[0];
    if s == GPT4_VISION || Strategies(s).None? then p.(order := p.order[1..], stop := false, passes := p.passes + 1)
    else Tried(config, s, p.order[1..], p.attempts, p.best, run, reason).(passes := p.passes + 1)
  }

  /** The loop with `k` passes of budget left: it ends when the budget or the queue runs out, or it stopped. */
  function Loop(config: AgentConfig, k: int, p: Progress, run: StrategyType -> Outcome,
                reason: seq<Attempt> -> seq<StrategyType>): Progress
    decreases k
  {
    if k <= 0 || p.order == [] || p.stop then p
    else Loop(config, k - 1, Pass(config, p, run, reason), run, reason)
  }

  /** A loop with budget, queue and no stop makes one pass and goes on. */
  lemma LoopUnfold(config: AgentConfig, k: int, p: Progress, run: StrategyType -> Outcome,
                   reason: seq<Attempt> -> seq<StrategyType>)
    requires k > 0 && p.order != [] && !p.stop
    ensures Loop(config, k, p, run, reason) == Loop(config, k - 1, Pass(config, p, run, reason), run, reason)
  {
  }

  /** A loop out of budget or queue, or stopped, is over. */
  lemma LoopDone(config: AgentConfig, k: int, p: Progress, run: StrategyType -> Outcome,
                 reason: seq<Attempt> -> seq<StrategyType>)
    requires k <= 0 || p.order == [] || p.stop
    ensures Loop(config, k, p, run, reason) == p
  {
  }

  /**
   * The loop never makes more passes than its budget nor more attempts than
   * passes, and when no attempt was good enough it ended only because the
   * queue ran out or every pass of the budget was made.
   */
  lemma {:induction false} LoopEnds(config: AgentConfig, k: int, p: Progress, run: StrategyType -> Outcome,
                                    reason: seq<Attempt> -> seq<StrategyType>)
    requires !p.stop
    ensures var r := Loop(config, k, p, run, reason);
      && p.passes <= r.passes <= p.passes + (if k > 0 then k else 0)
      && |r.attempts| - |p.attempts| <= r.passes - p.passes
      && (NoneGood(r.attempts, config) ==> r.order == [] || r.passes == p.passes + (if k > 0 then k else 0))
    decreases k
  {
    if k > 0 && p.order != [] {
      var q := Pass(config, p, run, reason);
      if !q.stop {
        LoopEnds(config, k - 1, q, run, reason);
      } else {
        assert !NoneGood(q.attempts, config);
      }
    }
  }

  /** Recording the attempt of a strategy not yet tried keeps the attempts' strategies distinct and executed. */
  lemma AppendAttempt(attempts: seq<Attempt>, a: Attempt, run: StrategyType -> Outcome)
    requires NoDup(StrategiesOf(attempts)) && Executed(attempts, run)
    requires a.strategy !in StrategiesOf(attempts) && a == Execute(a.strategy, run(a.strategy))
    ensures StrategiesOf(attempts + [a]) == StrategiesOf(attempts) + [a.strategy]
    ensures NoDup(StrategiesOf(attempts + [a])) && Executed(attempts + [a], run)
  {
    assert StrategiesOf(attempts + [a]) == StrategiesOf(attempts) + [a.strategy];
  }

  /** Trying a strategy not yet tried nor queued keeps the loop consistent, and only a good score stops it. */
  lemma TriedKeeps(config: AgentConfig, s: StrategyType, order: seq<StrategyType>, attempts: seq<Attempt>,
                   best: Option<Attempt>, run: StrategyType -> Outcome, reason: seq<Attempt> -> seq<StrategyType>)
    requires s != GPT4_VISION && s !in order && s !in StrategiesOf(attempts)
    requires LoopInvariant(order, attempts, best, run)
    ensures var r := Tried(config, s, order, attempts, best, run, reason);
      && LoopInvariant(r.order, r.attempts, r.best, run)
      && (NoneGood(attempts, config) && !r.stop ==> NoneGood(r.attempts, config))
      && (NoneGood(attempts, config) ==> NoneGoodBeforeLast(r.attempts, config))
      && r.attempts[0].strategy == (if attempts == [] then s else attempts[0].strategy)
  {
    var a := Execute(s, run(s));
    var attempts' := attempts + [a];
    assert attempts'[..|attempts'| - 1] == attempts;
    AppendAttempt(attempts, a, run);
    BestOfSnoc(attempts, a);
    var r := Tried(config, s, order, attempts, best, run, reason);
    assert r.attempts == attempts' && r.best == BestOf(attempts');
    if Scored(a) && config.goodQuality > a.score && a.score < config.minQuality {
      var next := reason(attempts');
      RequeuedMembers(order, next, StrategiesOf(attempts'));
      RequeuedNoDup(order, next, StrategiesOf(attempts'));
    } else {
      assert r.order == order;
    }
  }

  /**
   * One pass of the strategy loop with a registered strategy `s` just taken
   * from the queue: run it, keep it if it scores higher, stop on a good
   * score, and queue the suggestions after a poor one.
   */
  method TryStrategy(config: AgentConfig, s: StrategyType, order: seq<StrategyType>, attempts: seq<Attempt>,
                     best: Option<Attempt>, run: StrategyType -> Outcome, reason: seq<Attempt> -> seq<StrategyType>)
    returns (order': seq<StrategyType>, attempts': seq<Attempt>, best': Option<Attempt>, stop: bool)
    requires s != GPT4_VISION && s !in order && s !in StrategiesOf(attempts)
    requires LoopInvariant(order, attempts, best, run)
    ensures attempts' == attempts + [Execute(s, run(s))]
    ensures LoopInvariant(order', attempts', best', run)
    ensures stop <==> GoodEnough(Execute(s, run(s)), config)
    ensures NoneGood(attempts, config) && !stop ==> NoneGood(attempts', config)
    ensures NoneGood(attempts, config) ==> NoneGoodBeforeLast(attempts', config)
    ensures attempts'[0].strategy == (if attempts == [] then s else attempts[0].strategy)
    ensures Progress(order', attempts', best', stop, 0) == Tried(config, s, order, attempts, best, run, reason)
  {
    TriedKeeps(config, s, order, attempts, best, run, reason);
    var a := Execute(s, run(s));
    attempts' := attempts + [a];
    best' := best;
    order' := order;
    stop := false;
    if Scored(a) {
      if best.None? || a.score > best.value.score {
        best' := Some(a);
      }
      if a.score >= config.goodQuality {
        stop := true;
        return;
      }
      if a.score < config.minQuality {
        order' := Requeue(order, reason(attempts'), StrategiesOf(attempts'));
      }
    }
  }

  /** When the first strategy queued is registered and the loop has started, it ran first. */
  predicate RanFirst(n: int, initial: seq<StrategyType>, attempts: seq<Attempt>)
  {
    n > 0 && initial != [] && initial[0] != GPT4_VISION ==> attempts != [] && attempts[0].strategy == initial[0]
  }

  /** What holds of the agent's loop after `n` queue entries. */
  predicate RunInvariant(config: AgentConfig, initial: seq<StrategyType>, n: int, order: seq<StrategyType>,
                         attempts: seq<Attempt>, best: Option<Attempt>, stop: bool, run: StrategyType -> Outcome)
  {
    && 0 <= n && |attempts| <= n && (n <= config.maxStrategies || n == 0)
    && LoopInvariant(order, attempts, best, run) && NoneGoodBeforeLast(attempts, config)
    && (!stop ==> NoneGood(attempts, config))
    && (n == 0 ==> order == initial && attempts == [] && !stop)
    && RanFirst(n, initial, attempts)
  }

  /** A pass within the budget keeps what holds of the loop. */
  lemma PassKeeps(config: AgentConfig, initial: seq<StrategyType>, n: nat, order: seq<StrategyType>,
                  attempts: seq<Attempt>, best: Option<Attempt>, run: StrategyType -> Outcome,
                  reason: seq<Attempt> -> seq<StrategyType>)
    requires n < config.maxStrategies && order != []
    requires RunInvariant(config, initial, n, order, attempts, best, false, run)
    ensures var r := Pass(config, Progress(order, attempts, best, false, n), run, reason);
      RunInvariant(config, initial, n + 1, r.order, r.attempts, r.best, r.stop, run)
  {
    var s := order[0];
    var rest := order[1..];
    assert NoDup(rest) && s !in rest && forall t :: t in rest ==> t in order;
    var r := Pass(config, Progress(order, attempts, best, false, n), run, reason);
    if s != GPT4_VISION && Strategies(s).Some? {
      var t := Tried(config, s, rest, attempts, best, run, reason);
      assert r == t.(passes := n + 1);
      TriedKeeps(config, s, rest, attempts, best, run, reason);
      assert LoopInvariant(r.order, r.attempts, r.best, run);
    } else {
      assert r == Progress(rest, attempts, best, false, n + 1);
    }
  }

  /** One pass of the loop: the next queue entry is taken and, when registered, tried. */
  method RunStep(config: AgentConfig, initial: seq<StrategyType>, n: int, order: seq<StrategyType>,
                 attempts: seq<Attempt>, best: Option<Attempt>, run: StrategyType -> Outcome,
                 reason: seq<Attempt> -> seq<StrategyType>)
    returns (order': seq<StrategyType>, attempts': seq<Attempt>, best': Option<Attempt>, stop: bool)
    requires n < config.maxStrategies && order != []
    requires RunInvariant(config, initial, n, order, attempts, best, false, run)
    ensures RunInvariant(config, initial, n + 1, order', attempts', best', stop, run)
    ensures Progress(order', attempts', best', stop, n + 1) == Pass(config, Progress(order, attempts, best, false, n), run, reason)
    ensures Loop(config, config.maxStrategies - n, Progress(order, attempts, best, false, n), run, reason)
         == Loop(config, config.maxStrategies - (n + 1), Progress(order', attempts', best', stop, n + 1), run, reason)
  {
    LoopUnfold(config, config.maxStrategies - n, Progress(order, attempts, best, false, n), run, reason);
    PassKeeps(config, initial, n, order, attempts, best, run, reason);
    var s := order[0];
    var rest := order[1..];
    assert NoDup(rest) && s !in rest;
    if s != GPT4_VISION && Strategies(s).Some? {
      order', attempts', best', stop := TryStrategy(config, s, rest, attempts, best, run, reason);
    } else {
      order', attempts', best', stop := rest, attempts, best, false;
    }
  }

  /**
   * The agent's loop over at most `maxStrategies` queue entries: vision and
   * unregistered strategies are skipped; every registered one runs once at
   * most; the loop stops at the first good score; the best attempt is the
   * first of the highest scored.
   */
  method RunStrategies(config: AgentConfig, initial: seq<StrategyType>, run: StrategyType -> Outcome,
                       reason: seq<Attempt> -> seq<StrategyType>)
    returns (attempts: seq<Attempt>, best: Option<Attempt>)
    requires NoDup(initial)
    ensures |attempts| <= (if config.maxStrategies > 0 then config.maxStrategies else 0)
    ensures NoDup(StrategiesOf(attempts)) && GPT4_VISION !in StrategiesOf(attempts)
    ensures Executed(attempts, run)
    ensures NoneGoodBeforeLast(attempts, config)
    ensures best == BestOf(attempts)
    ensures RanFirst(config.maxStrategies, initial, attempts)
    ensures var r := Loop(config, config.maxStrategies, Start(initial), run, reason);
      attempts == r.attempts && best == r.best
  {
    attempts := [];
    best := None;
    var order := initial;
    var n := 0;
    var stop := false;
    while n < config.maxStrategies && order != [] && !stop
      invariant RunInvariant(config, initial, n, order, attempts, best, stop, run)
      invariant Loop(config, config.maxStrategies - n, Progress(order, attempts, best, stop, n), run, reason)
                == Loop(config, config.maxStrategies, Start(initial), run, reason)
    {
      order, attempts, best, stop := RunStep(config, initial, n, order, attempts, best, run, reason);
      n := n + 1;
    }
    LoopDone(config, config.maxStrategies - n, Progress(order, attempts, best, stop, n), run, reason);
  }

  // ---------------------------------------------------------------------------
  // The agent's state and the whole extraction
  // ---------------------------------------------------------------------------

  /** `AgentState`, without the reasoning history and the timing. */
  class AgentState {
    const filePath: string
    const fileType: string
    var attempts: seq<Attempt>
    var best: Option<Attempt>

    constructor(filePath: string, fileType: string)
      ensures this.filePath == filePath && this.fileType == fileType
      ensures attempts == [] && best == None
    {
      this.filePath := filePath;
      this.fileType := fileType;
      attempts := [];
      best := None;
    }
  }

  /** The attempts made in the sandbox: all but the vision ones. */
  function Sandboxed(attempts: seq<Attempt>): (r: seq<Attempt>)
    ensures |r| <= |attempts|
    ensures GPT4_VISION !in StrategiesOf(attempts) ==> r == attempts
  {
    if attempts == [] then []
    else if attempts[|attempts| - 1].strategy == GPT4_VISION then Sandboxed(attempts[..|attempts| - 1])
    else Sandboxed(attempts[..|attempts| - 1]) + [attempts[|attempts| - 1]]
  }

  lemma SandboxedSnoc(attempts: seq<Attempt>, v: Attempt)
    requires v.strategy == GPT4_VISION
    ensures Sandboxed(attempts + [v]) == Sandboxed(attempts)
  {
    assert (attempts + [v])[..|attempts|] == attempts;
  }

  /** The attempt recorded for a vision result. */
  function VisionAttempt(result: Dict, reply: Option<real>): (a: Attempt)
    ensures a.strategy == GPT4_VISION && Scored(a) && a.data == result
  {
    Attempt(GPT4_VISION, result, AssessQuality("", result, reply).score, None)
  }

  /** Vision is asked when no attempt scored or the best is below the minimum. */
  predicate NeedsVision(best: Option<Attempt>, config: AgentConfig)
  {
    best.None? || best.value.score < config.minQuality
  }

  /**
   * The final fallback: when vision is needed and returns a non-empty
   * result, it is recorded as one more attempt and becomes the best if it
   * scores strictly higher.
   */
  method VisionFallback(state: AgentState, config: AgentConfig, vision: Option<Dict>, reply: Option<real>)
    modifies state
    requires state.best == BestOf(state.attempts)
    ensures NeedsVision(old(state.best), config) && vision.Some? && vision.value != [] ==>
      state.attempts == old(state.attempts) + [VisionAttempt(vision.value, reply)]
    ensures !(NeedsVision(old(state.best), config) && vision.Some? && vision.value != []) ==>
      state.attempts == old(state.attempts)
    ensures state.best == BestOf(state.attempts)
  {
    if NeedsVision(state.best, config) {
      if vision.Some? && vision.value != [] {
        var v := VisionAttempt(vision.value, reply);
        BestOfSnoc(state.attempts, v);
        state.attempts := state.attempts + [v];
        assert state.attempts[..|state.attempts| - 1] == old(state.attempts);
        if state.best.None? || v.score > state.best.value.score {
          state.best := Some(v);
        }
      }
    }
  }

  /**
   * `extract_invoice` with a working sandbox (`sandboxUp`; otherwise no
   * strategy runs): the strategies of the detected type, then the vision
   * fallback; the data returned is the best attempt's, or empty.
   */
  method ExtractInvoice(filename: string, config: AgentConfig, sandboxUp: bool, run: StrategyType -> Outcome,
                        reason: seq<Attempt> -> seq<StrategyType>, vision: Option<Dict>, reply: Option<real>)
    returns (data: Dict, state: AgentState)
    ensures fresh(state) && state.fileType == DetectFileType(filename)
    ensures state.best == BestOf(state.attempts)
    ensures data == (if state.best.Some? then state.best.value.data else [])
    ensures Executed(Sandboxed(state.attempts), run)
    ensures |state.attempts| <= (if config.maxStrategies > 0 then config.maxStrategies else 0) + 1
    ensures var sandbox := if sandboxUp then Loop(config, config.maxStrategies, Start(StrategyOrder(DetectFileType(filename))), run, reason).attempts else [];
      state.attempts == sandbox + (if NeedsVision(BestOf(sandbox), config) && vision.Some? && vision.value != []
                                   then [VisionAttempt(vision.value, reply)] else [])
  {
    var fileType := DetectFileType(filename);
    state := new AgentState("/tmp/" + filename, fileType);
    if sandboxUp {
      var attempts, best := RunStrategies(config, StrategyOrder(fileType), run, reason);
      state.attempts := attempts;
      state.best := best;
    }
    ghost var ran := state.attempts;
    assert Sandboxed(ran) == ran;
    VisionFallback(state, config, vision, reply);
    assert Sandboxed(state.attempts) == ran by {
      if state.attempts != ran {
        SandboxedSnoc(ran, state.attempts[|ran|]);
        assert state.attempts == ran + [state.attempts[|ran|]];
      }
    }
    data := if state.best.Some? then state.best.value.data else [];
  }
}
