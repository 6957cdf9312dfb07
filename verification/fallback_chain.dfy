/**
 * The multi-tier AI model fallback chain (fallback_chain.py): models are
 * registered per tier and kept ordered by priority, and a generation request
 * tries the enabled models tier by tier until one answers, falling back to a
 * canned reply when none does.
 *
 * Each model call is given by its outcome (`outcome(config)`), the clock by
 * the latencies the outcomes and the caller report, and the canned replies
 * by their keys in `STATIC_RESPONSES`.
 */
module FallbackChain {
  import opened Wrappers
  import opened Exceptions
  import opened Sequences

  datatype ModelTier = Primary | Secondary | Tertiary | Local | Static

  /** `ModelTier` in definition order, as `for tier in ModelTier` visits it. */
  const AllTierOrder: seq<ModelTier> := [Primary, Secondary, Tertiary, Local, Static]

  /** The tiers `generate` may try, best first. */
  const CallableTiers: seq<ModelTier> := [Primary, Secondary, Tertiary, Local]

  /** `ModelConfig` without its client object. */
  datatype ModelConfig = ModelConfig(
    name: string,
    tier: ModelTier,
    timeout: real,
    maxTokens: int,
    temperature: real,
    enabled: bool,
    priority: int,
    costPer1kTokens: real,
    capabilities: seq<string>)

  /** The sort key `lambda m: m.priority`. */
  function PriorityRank(m: ModelConfig): (int, real)
  {
    (m.priority, 0.0)
  }

  /** How one awaited model call ends. */
  datatype CallOutcome =
    | Answer(content: string, tokensUsed: int, cost: real, latencyMs: real)
    | CallTimedOut
    | CallRaised(message: string)

  /** The exception `_call_model` turns a failed call into. */
  datatype CallFailure = TimedOutAfter(model: string, timeout: real) | ErrorFrom(model: string, message: string)

  /** A reply's text: a model's answer, or the canned reply stored under a key. */
  datatype Content = ModelText(text: string) | StaticReply(key: string)

  /** The `error` of a static reply: the last model failure, or "All models failed". */
  datatype FailureNote = LastError(failure: CallFailure) | AllModelsFailed

  /** `ModelResponse` without its metadata. */
  datatype ModelResponse = ModelResponse(
    content: Content,
    modelUsed: string,
    tier: ModelTier,
    latencyMs: real,
    tokensUsed: int,
    cost: real,
    success: bool,
    error: Option<FailureNote>)

  /** `_call_model(config, ...)`: a response from the model, or the failure it raised. */
  function CallModel(config: ModelConfig, outcome: CallOutcome): (r: Result<ModelResponse, CallFailure>)
    ensures r.Ok? <==> outcome.Answer?
    ensures r.Ok? ==> r.value.success && r.value.modelUsed == config.name && r.value.tier == config.tier
    ensures r.Err? ==> r.error.model == config.name
  {
    match outcome
    case Answer(content, tokens, cost, latency) =>
      Ok(ModelResponse(ModelText(content), config.name, config.tier, latency, tokens, cost, true, None))
    case CallTimedOut => Err(TimedOutAfter(config.name, config.timeout))
    case CallRaised(message) => Err(ErrorFrom(config.name, message))
  }

  /** The keys of `STATIC_RESPONSES`. */
  const StaticKeys: set<string> := {"invoice_extraction", "general_chat", "data_validation", "error_recovery"}

  /** The canned reply `_get_static_response` picks. */
  function StaticKey(operationType: string): (k: string)
    ensures k in StaticKeys
    ensures operationType in StaticKeys ==> k == operationType
    ensures operationType !in StaticKeys ==> k == "general_chat"
  {
    if operationType in StaticKeys then operationType else "general_chat"
  }

  /** The tiers `generate` tries: all four, or up to and including `max_fallback_tier`. */
  function TiersToTry(maxTier: Option<ModelTier>): Result<seq<ModelTier>, Exc>
  {
    match maxTier
    case None => Ok(CallableTiers)
    case Some(t) =>
      match t
      case Primary => Ok(CallableTiers[..1])
      case Secondary => Ok(CallableTiers[..2])
      case Tertiary => Ok(CallableTiers[..3])
      case Local => Ok(CallableTiers)
      case Static => Err(Raise("ValueError", "<ModelTier.STATIC: 5> is not in list"))
  }

  /**
   * Without a cap every callable tier is tried; a cap of STATIC raises
   * ValueError; any other cap gives the callable tiers from PRIMARY up to
   * and including the cap, never STATIC.
   */
  lemma TiersToTrySpec(maxTier: Option<ModelTier>)
    ensures var r := TiersToTry(maxTier);
      && (maxTier.None? ==> r == Ok(CallableTiers))
      && (maxTier == Some(Static) <==> r.Err?)
      && (r.Err? ==> IsInstance(r.error, "ValueError"))
      && (r.Ok? ==>
            && 1 <= |r.value| <= |CallableTiers| && r.value == CallableTiers[..|r.value|]
            && (maxTier.Some? ==> r.value[|r.value| - 1] == maxTier.value)
            && Static !in r.value)
  {
  }

  /** No cap lets `generate` try tier STATIC. */
  lemma TiersNoStatic(maxTier: Option<ModelTier>)
    ensures TiersToTry(maxTier).Ok? ==> Static !in TiersToTry(maxTier).value
  {
  }

  /** The chain's `_models`: one list of models per tier. */
  datatype TierLists = TierLists(
    primary: seq<ModelConfig>,
    secondary: seq<ModelConfig>,
    tertiary: seq<ModelConfig>,
    local: seq<ModelConfig>,
    fixed: seq<ModelConfig>)
  {
    /** `_models[t]` */
    function Get(t: ModelTier): seq<ModelConfig>
    {
      match t
      case Primary => primary
      case Secondary => secondary
      case Tertiary => tertiary
      case Local => local
      case Static => fixed
    }

    /** `_models[t] = l` */
    function Set(t: ModelTier, l: seq<ModelConfig>): (r: TierLists)
      ensures r.Get(t) == l
      ensures forall u :: u != t ==> r.Get(u) == Get(u)
    {
      match t
      case Primary => this.(primary := l)
      case Secondary => this.(secondary := l)
      case Tertiary => this.(tertiary := l)
      case Local => this.(local := l)
      case Static => this.(fixed := l)
    }
  }

  const NoModels := TierLists([], [], [], [], [])

  /** The position of a tier in `ModelTier`. */
  function Ordinal(t: ModelTier): (r: nat)
    ensures r < |AllTierOrder| && AllTierOrder[r] == t
  {
    match t
    case Primary => 0
    case Secondary => 1
    case Tertiary => 2
    case Local => 3
    case Static => 4
  }

  /** `Ordinal` undoes indexing into `AllTierOrder`. */
  lemma OrdinalAt(i: nat)
    requires i < |AllTierOrder|
    ensures Ordinal(AllTierOrder[i]) == i
  {
    if i == 0 {
    } else if i == 1 {
    } else if i == 2 {
    } else if i == 3 {
    } else {
    }
  }

  /** Every model sits in the list of its own tier. */
  predicate WellTiered(models: TierLists)
  {
    forall t, i :: 0 <= i < |models.Get(t)| ==> models.Get(t)[i].tier == t
  }

  /** Replacing one tier's list by models of that tier keeps every model under its own tier. */
  lemma WellTieredSet(models: TierLists, t: ModelTier, l: seq<ModelConfig>)
    requires WellTiered(models)
    requires forall m :: m in l ==> m.tier == t
    ensures WellTiered(models.Set(t, l))
  {
    var after := models.Set(t, l);
    forall u, i | 0 <= i < |after.Get(u)| ensures after.Get(u)[i].tier == u {
      if u == t {
        assert after.Get(u)[i] in l;
      }
    }
  }

  /** In a chain whose models sit under their own tiers, a model listed under a tier is of that tier. */
  lemma ListedTier(models: TierLists, t: ModelTier, m: ModelConfig)
    requires WellTiered(models) && m in models.Get(t)
    ensures m.tier == t
  {
    var i :| 0 <= i < |models.Get(t)| && models.Get(t)[i] == m;
  }

  /** `get_available_models(tier)`: the enabled models of one tier, in order. */
  function Available(models: TierLists, tier: ModelTier): seq<ModelConfig>
  {
    Filter(models.Get(tier), (m: ModelConfig) => m.enabled)
  }


  /** The enabled models of `tiers`, tier after tier. */
  function Candidates(models: TierLists, tiers: seq<ModelTier>): seq<ModelConfig>
    decreases |tiers|
  {
    if tiers == [] then [] else Available(models, tiers[0]) + Candidates(models, tiers[1..])
  }

  /** `m` is listed under one of `tiers`. */
  predicate Listed(models: TierLists, tiers: seq<ModelTier>, m: ModelConfig)
  {
    exists k :: 0 <= k < |tiers| && m in models.Get(tiers[k])
  }

  /** A model is a candidate exactly when it is enabled and listed under one of the tiers. */
  lemma {:induction false} CandidatesMembers(models: TierLists, tiers: seq<ModelTier>, m: ModelConfig)
    ensures m in Candidates(models, tiers) <==> m.enabled && Listed(models, tiers, m)
    decreases |tiers|
  {
    if tiers != [] {
      var rest := tiers[1..];
      CandidatesMembers(models, rest, m);
      if Listed(models, tiers, m) {
        var k :| 0 <= k < |tiers| && m in models.Get(tiers[k]);
        if k > 0 {
          assert rest[k - 1] == tiers[k];
        }
      }
      if Listed(models, rest, m) {
        var k :| 0 <= k < |rest| && m in models.Get(rest[k]);
        assert tiers[k + 1] == rest[k];
      }
    }
  }

  /** In a chain whose models sit under their own tiers, every candidate comes from one of the tiers tried. */
  lemma CandidateTier(models: TierLists, tiers: seq<ModelTier>, m: ModelConfig)
    requires WellTiered(models)
    requires m in Candidates(models, tiers)
    ensures m.enabled && m.tier in tiers
  {
    CandidatesMembers(models, tiers, m);
    var k :| 0 <= k < |tiers| && m in models.Get(tiers[k]);
    ListedTier(models, tiers[k], m);
  }

  /** `get_available_models(tier)`: one tier's enabled models, or every tier's in `ModelTier` order. */
  function GetAvailableModels(models: TierLists, tier: Option<ModelTier>): (r: seq<ModelConfig>)
    ensures tier.Some? ==> forall m :: m in r <==> m in models.Get(tier.value) && m.enabled
  {
    if tier.Some? then Available(models, tier.value) else Candidates(models, AllTierOrder)
  }

  /** Without a tier, every enabled model of every tier is available. */
  lemma AllAvailable(models: TierLists, m: ModelConfig)
    ensures m in GetAvailableModels(models, None) <==> m.enabled && exists t :: m in models.Get(t)
  {
    CandidatesMembers(models, AllTierOrder, m);
    if Listed(models, AllTierOrder, m) {
      var k :| 0 <= k < |AllTierOrder| && m in models.Get(AllTierOrder[k]);
    }
    if exists t :: m in models.Get(t) {
      var t :| m in models.Get(t);
      assert AllTierOrder[Ordinal(t)] == t;
    }
  }

  /**
   * The walk of `generate` over the candidates in order, `last` being the
   * failure seen so far: the first candidate that answers, and the last
   * failure.
   */
  function Scan(cands: seq<ModelConfig>, last: Option<CallFailure>, outcome: ModelConfig -> CallOutcome)
    : (r: (Option<ModelConfig>, Option<CallFailure>))
    ensures r.0.Some? ==> r.0.value in cands && outcome(r.0.value).Answer?
    decreases |cands|
  {
    if cands == [] then (None, last)
    else
      match CallModel(cands[0], outcome(cands[0]))
      case Ok(_) => (Some(cands[0]), last)
      case Err(f) => Scan(cands[1..], Some(f), outcome)
  }

  /**
   * The walk stops at the first candidate that answers; when none does, it
   * reports the failure of the last one, or the failure it started with
   * when there are no candidates.
   */
  lemma {:induction false} ScanSpec(cands: seq<ModelConfig>, last: Option<CallFailure>, outcome: ModelConfig -> CallOutcome)
    ensures var r := Scan(cands, last, outcome);
      && (r.0.Some? ==>
            exists k :: 0 <= k < |cands| && cands[k] == r.0.value
                        && forall j :: 0 <= j < k ==> !outcome(cands[j]).Answer?)
      && (r.0.None? ==> forall c :: c in cands ==> !outcome(c).Answer?)
      && (r.0.None? && cands == [] ==> r.1 == last)
      && (r.0.None? && cands != [] ==>
            var l := CallModel(cands[|cands| - 1], outcome(cands[|cands| - 1]));
            l.Err? && r.1 == Some(l.error))
    decreases |cands|
  {
    if cands != [] {
      var rest := cands[1..];
      var res := CallModel(cands[0], outcome(cands[0]));
      if res.Ok? {
        assert cands[0] == Scan(cands, last, outcome).0.value;
      } else {
        ScanSpec(rest, Some(res.error), outcome);
        var r := Scan(rest, Some(res.error), outcome);
        if r.0.Some? {
          var k :| 0 <= k < |rest| && rest[k] == r.0.value && forall j :: 0 <= j < k ==> !outcome(rest[j]).Answer?;
          assert cands[k + 1] == rest[k];
          forall j | 0 <= j < k + 1 ensures !outcome(cands[j]).Answer? {
            if j > 0 {
              assert cands[j] == rest[j - 1];
            }
          }
        } else if rest != [] {
          assert cands[|cands| - 1] == rest[|rest| - 1];
        }
      }
    }
  }

  /** Walking `a + b` is walking `a`, then `b` when nothing in `a` answered. */
  lemma {:induction false} ScanAppend(a: seq<ModelConfig>, b: seq<ModelConfig>, last: Option<CallFailure>,
                                      outcome: ModelConfig -> CallOutcome)
    ensures Scan(a + b, last, outcome) ==
      var r := Scan(a, last, outcome);
      if r.0.Some? then r else Scan(b, r.1, outcome)
    decreases |a|
  {
    if a == [] {
      assert a + b == b;
    } else {
      assert (a + b)[0] == a[0];
      assert (a + b)[1..] == a[1..] + b;
      var res := CallModel(a[0], outcome(a[0]));
      if res.Err? {
        ScanAppend(a[1..], b, Some(res.error), outcome);
      }
    }
  }

  /** Counters of `FallbackStats`. */
  datatype FallbackStats = FallbackStats(
    totalCalls: nat,
    primarySuccess: nat,
    secondarySuccess: nat,
    tertiarySuccess: nat,
    localSuccess: nat,
    staticFallback: nat,
    totalFailures: nat,
    totalCost: real,
    totalTokens: int,
    avgLatencyMs: real,
    lastUsedModel: Option<string>)

  const NoStats := FallbackStats(0, 0, 0, 0, 0, 0, 0, 0.0, 0, 0.0, None)

  function Successes(s: FallbackStats): nat
  {
    s.primarySuccess + s.secondarySuccess + s.tertiarySuccess + s.localSuccess
  }

  /**
   * `_update_success_stats(tier, response)`: one more success for the tier,
   * and the average latency moved so that it stays the mean over all
   * successes.
   */
  function SuccessStats(s: FallbackStats, tier: ModelTier, resp: ModelResponse): (r: FallbackStats)
    requires tier != Static
    ensures Successes(r) == Successes(s) + 1
    ensures r.avgLatencyMs * (Successes(r) as real) == s.avgLatencyMs * (Successes(s) as real) + resp.latencyMs
    ensures r.totalCost == s.totalCost + resp.cost && r.totalTokens == s.totalTokens + resp.tokensUsed
    ensures r.totalCalls == s.totalCalls && r.totalFailures == s.totalFailures && r.staticFallback == s.staticFallback
  {
    var s1 := Bumped(s, tier);
    var n := Successes(s) + 1;
    var total := s.avgLatencyMs * (Successes(s) as real) + resp.latencyMs;
    MeanOf(total, n);
    s1.(totalCost := s.totalCost + resp.cost,
        totalTokens := s.totalTokens + resp.tokensUsed,
        avgLatencyMs := total / (n as real))
  }

  /** The success counter of `tier` moved up by one. */
  function Bumped(s: FallbackStats, tier: ModelTier): (r: FallbackStats)
    requires tier != Static
    ensures Successes(r) == Successes(s) + 1
    ensures r == s.(primarySuccess := r.primarySuccess, secondarySuccess := r.secondarySuccess,
                    tertiarySuccess := r.tertiarySuccess, localSuccess := r.localSuccess)
  {
    match tier
    case Primary => s.(primarySuccess := s.primarySuccess + 1)
    case Secondary => s.(secondarySuccess := s.secondarySuccess + 1)
    case Tertiary => s.(tertiarySuccess := s.tertiarySuccess + 1)
    case Local => s.(localSuccess := s.localSuccess + 1)
  }

  /** Dividing a total by a positive count and multiplying back gives the total. */
  lemma MeanOf(total: real, n: nat)
    requires n > 0
    ensures (total / (n as real)) * (n as real) == total
  {
  }

  /** The canned reply after every model failed, `elapsedMs` after the request began. */
  function StaticResponse(operationType: string, last: Option<CallFailure>, elapsedMs: real): (r: ModelResponse)
    ensures r.tier == Static && !r.success && r.modelUsed == "static_fallback"
    ensures r.content == StaticReply(StaticKey(operationType))
  {
    ModelResponse(StaticReply(StaticKey(operationType)), "static_fallback", Static, elapsedMs, 0, 0.0, false,
                  Some(if last.Some? then LastError(last.value) else AllModelsFailed))
  }

  /** The counters after a call that no model answered: one more failure, one more static reply. */
  function FellBack(s: FallbackStats): (r: FallbackStats)
    ensures r.totalFailures == s.totalFailures + 1 && r.staticFallback == s.staticFallback + 1
    ensures Successes(r) == Successes(s) && r.avgLatencyMs == s.avgLatencyMs && r.totalCalls == s.totalCalls
  {
    s.(totalFailures := s.totalFailures + 1, staticFallback := s.staticFallback + 1)
  }

  /** The counters after model `name` of `tier` answered with `resp`. */
  function Succeeded(s: FallbackStats, tier: ModelTier, resp: ModelResponse, name: string): (r: FallbackStats)
    requires tier != Static
    ensures r.lastUsedModel == Some(name) && Successes(r) == Successes(s) + 1
  {
    SuccessStats(s, tier, resp).(lastUsedModel := Some(name))
  }

  /** `generate(prompt, operation_type, max_fallback_tier=maxTier)`: the new counters and the reply or exception. */
  function Generated(models: TierLists, stats: FallbackStats, operationType: string,
                     maxTier: Option<ModelTier>, outcome: ModelConfig -> CallOutcome, elapsedMs: real)
    : (r: (FallbackStats, Result<ModelResponse, Exc>))
    requires WellTiered(models)
    ensures r.0.totalCalls == stats.totalCalls + 1
  {
    var s1 := stats.(totalCalls := stats.totalCalls + 1);
    TiersNoStatic(maxTier);
    match TiersToTry(maxTier)
    case Err(e) => (s1, Err(e))
    case Ok(tiers) => Walked(models, s1, tiers, operationType, outcome, elapsedMs)
  }

  /** `generate` after the call was counted in `s1` and the tiers to try were chosen. */
  function Walked(models: TierLists, s1: FallbackStats, tiers: seq<ModelTier>, operationType: string,
                  outcome: ModelConfig -> CallOutcome, elapsedMs: real): (r: (FallbackStats, Result<ModelResponse, Exc>))
    requires WellTiered(models) && Static !in tiers
    ensures r.0.totalCalls == s1.totalCalls
  {
    var (winner, last) := Scan(Candidates(models, tiers), None, outcome);
    if winner.Some? then CandidateTier(models, tiers, winner.value); Concluded(s1, winner, last, operationType, outcome, elapsedMs)
    else Concluded(s1, winner, last, operationType, outcome, elapsedMs)
  }

  /** The end of `generate` once the walk has found its first answering model, or none. */
  function Concluded(s1: FallbackStats, winner: Option<ModelConfig>, last: Option<CallFailure>, operationType: string,
                     outcome: ModelConfig -> CallOutcome, elapsedMs: real): (r: (FallbackStats, Result<ModelResponse, Exc>))
    requires winner.Some? ==> winner.value.tier != Static && outcome(winner.value).Answer?
    ensures r.0.totalCalls == s1.totalCalls && r.1.Ok?
  {
    if winner.Some? then
      var c := winner.value;
      var resp := CallModel(c, outcome(c)).value;
      (Succeeded(s1, c.tier, resp, c.name), Ok(resp))
    else
      (FellBack(s1), Ok(StaticResponse(operationType, last, elapsedMs)))
  }

  /** The candidates `generate` walks through for a cap, or none when the cap raises. */
  function CandidatesFor(models: TierLists, maxTier: Option<ModelTier>): seq<ModelConfig>
  {
    match TiersToTry(maxTier)
    case Ok(tiers) => Candidates(models, tiers)
    case Err(_) => []
  }

  /** `generate` raises exactly for a cap of STATIC, and then a ValueError. */
  lemma GenerateRaisesSpec(models: TierLists, stats: FallbackStats, operationType: string,
                           maxTier: Option<ModelTier>, outcome: ModelConfig -> CallOutcome, elapsedMs: real)
    requires WellTiered(models)
    ensures var (s, r) := Generated(models, stats, operationType, maxTier, outcome, elapsedMs);
      && (r.Err? <==> maxTier == Some(Static))
      && (r.Err? ==> IsInstance(r.error, "ValueError") && s == stats.(totalCalls := stats.totalCalls + 1))
  {
    TiersToTrySpec(maxTier);
    if maxTier == Some(Static) {
      GeneratedRaises(models, stats, operationType, maxTier, outcome, elapsedMs);
    } else {
      GeneratedWalks(models, stats, operationType, maxTier, outcome, elapsedMs);
    }
  }

  /**
   * A successful reply of `generate` is the answer of the first enabled
   * model, in tier order up to the cap, that answers; it is counted as a
   * success of its tier, and that model becomes the last one used.
   */
  lemma GenerateAnswerSpec(models: TierLists, stats: FallbackStats, operationType: string,
                           maxTier: Option<ModelTier>, outcome: ModelConfig -> CallOutcome, elapsedMs: real)
    requires WellTiered(models)
    ensures var (s, r) := Generated(models, stats, operationType, maxTier, outcome, elapsedMs);
      var cands := CandidatesFor(models, maxTier);
      r.Ok? && r.value.success ==>
        && r.value.tier != Static
        && Successes(s) == Successes(stats) + 1
        && s.lastUsedModel == Some(r.value.modelUsed)
        && exists k :: 0 <= k < |cands|
             && outcome(cands[k]).Answer?
             && r.value == CallModel(cands[k], outcome(cands[k])).value
             && forall j :: 0 <= j < k ==> !outcome(cands[j]).Answer?
  {
    TiersToTrySpec(maxTier);
    if maxTier == Some(Static) {
      GeneratedRaises(models, stats, operationType, maxTier, outcome, elapsedMs);
    } else {
      var tiers := TiersToTry(maxTier).value;
      var cands := Candidates(models, tiers);
      var s1 := stats.(totalCalls := stats.totalCalls + 1);
      var (winner, last) := Scan(cands, None, outcome);
      GeneratedWalks(models, stats, operationType, maxTier, outcome, elapsedMs);
      WalkedAfterScan(models, s1, tiers, operationType, outcome, elapsedMs, winner, last);
      ConcludedSpec(s1, winner, last, operationType, outcome, elapsedMs);
      var g := Concluded(s1, winner, last, operationType, outcome, elapsedMs);
      assert Generated(models, stats, operationType, maxTier, outcome, elapsedMs) == g;
      assert CandidatesFor(models, maxTier) == cands;
      if winner.Some? {
        ScanSpec(cands, None, outcome);
        var k :| 0 <= k < |cands| && cands[k] == winner.value && forall j :: 0 <= j < k ==> !outcome(cands[j]).Answer?;
        assert outcome(cands[k]).Answer? && g.1.value == CallModel(cands[k], outcome(cands[k])).value;
      }
    }
  }

  /**
   * When no model answers, `generate` replies with the canned reply for
   * the operation, from tier STATIC, marked unsuccessful and carrying the
   * last model's failure ("All models failed" when there was no model to
   * try), and counts one more failure and one more static fallback.
   */
  lemma GenerateFallbackSpec(models: TierLists, stats: FallbackStats, operationType: string,
                             maxTier: Option<ModelTier>, outcome: ModelConfig -> CallOutcome, elapsedMs: real)
    requires WellTiered(models)
    ensures var (s, r) := Generated(models, stats, operationType, maxTier, outcome, elapsedMs);
      var cands := CandidatesFor(models, maxTier);
      r.Ok? && !r.value.success ==>
        && (forall c :: c in cands ==> !outcome(c).Answer?)
        && r.value.tier == Static
        && r.value.content == StaticReply(StaticKey(operationType))
        && r.value.error == Some(if cands == [] then AllModelsFailed
                                 else LastError(CallModel(cands[|cands| - 1], outcome(cands[|cands| - 1])).error))
        && s.totalFailures == stats.totalFailures + 1
        && s.staticFallback == stats.staticFallback + 1
        && Successes(s) == Successes(stats)
  {
    TiersToTrySpec(maxTier);
    if maxTier == Some(Static) {
      GeneratedRaises(models, stats, operationType, maxTier, outcome, elapsedMs);
    } else {
      var tiers := TiersToTry(maxTier).value;
      var cands := Candidates(models, tiers);
      var s1 := stats.(totalCalls := stats.totalCalls + 1);
      var (winner, last) := Scan(cands, None, outcome);
      GeneratedWalks(models, stats, operationType, maxTier, outcome, elapsedMs);
      WalkedAfterScan(models, s1, tiers, operationType, outcome, elapsedMs, winner, last);
      ConcludedSpec(s1, winner, last, operationType, outcome, elapsedMs);
      assert Generated(models, stats, operationType, maxTier, outcome, elapsedMs)
        == Concluded(s1, winner, last, operationType, outcome, elapsedMs);
      assert CandidatesFor(models, maxTier) == cands;
      if winner.None? {
        ScanSpec(cands, None, outcome);
        if cands != [] {
          var l := CallModel(cands[|cands| - 1], outcome(cands[|cands| - 1]));
          assert last == Some(l.error);
        }
      }
    }
  }

  /** The end of `generate`: a success exactly when a model answered, recorded as such; otherwise the fallback. */
  lemma ConcludedSpec(s1: FallbackStats, winner: Option<ModelConfig>, last: Option<CallFailure>, operationType: string,
                      outcome: ModelConfig -> CallOutcome, elapsedMs: real)
    requires winner.Some? ==> winner.value.tier != Static && outcome(winner.value).Answer?
    ensures var (s, r) := Concluded(s1, winner, last, operationType, outcome, elapsedMs);
      && (r.value.success <==> winner.Some?)
      && (winner.Some? ==>
            && r.value == CallModel(winner.value, outcome(winner.value)).value
            && r.value.tier != Static
            && Successes(s) == Successes(s1) + 1
            && s.lastUsedModel == Some(r.value.modelUsed))
      && (winner.None? ==>
            && r.value.tier == Static
            && r.value.content == StaticReply(StaticKey(operationType))
            && r.value.error == Some(if last.Some? then LastError(last.value) else AllModelsFailed)
            && s.totalFailures == s1.totalFailures + 1
            && s.staticFallback == s1.staticFallback + 1
            && Successes(s) == Successes(s1))
  {
  }

  /** A cap that `list.index` rejects raises before any model is tried. */
  lemma GeneratedRaises(models: TierLists, stats: FallbackStats, operationType: string,
                        maxTier: Option<ModelTier>, outcome: ModelConfig -> CallOutcome, elapsedMs: real)
    requires WellTiered(models) && TiersToTry(maxTier).Err?
    ensures Generated(models, stats, operationType, maxTier, outcome, elapsedMs)
      == (stats.(totalCalls := stats.totalCalls + 1), Err(TiersToTry(maxTier).error))
  {
  }

  /** Once the cap is accepted, `generate` walks the tiers it gives. */
  lemma GeneratedWalks(models: TierLists, stats: FallbackStats, operationType: string,
                       maxTier: Option<ModelTier>, outcome: ModelConfig -> CallOutcome, elapsedMs: real)
    requires WellTiered(models) && TiersToTry(maxTier).Ok?
    ensures Static !in TiersToTry(maxTier).value
    ensures Generated(models, stats, operationType, maxTier, outcome, elapsedMs)
      == Walked(models, stats.(totalCalls := stats.totalCalls + 1), TiersToTry(maxTier).value, operationType, outcome, elapsedMs)
  {
    TiersNoStatic(maxTier);
  }

  /** The walk ends with the first candidate that answers, or with none. */
  lemma WalkedAfterScan(models: TierLists, s1: FallbackStats, tiers: seq<ModelTier>, operationType: string,
                        outcome: ModelConfig -> CallOutcome, elapsedMs: real, winner: Option<ModelConfig>, last: Option<CallFailure>)
    requires WellTiered(models) && Static !in tiers
    requires Scan(Candidates(models, tiers), None, outcome) == (winner, last)
    ensures winner.Some? ==> winner.value.tier != Static && outcome(winner.value).Answer?
    ensures Walked(models, s1, tiers, operationType, outcome, elapsedMs) == Concluded(s1, winner, last, operationType, outcome, elapsedMs)
  {
    if winner.Some? {
      CandidateTier(models, tiers, winner.value);
    }
  }

  /** The name filter of `remove_model(name)`. */
  function NameIsNot(name: string): ModelConfig -> bool
  {
    (m: ModelConfig) => m.name != name
  }

  function Sum(xs: seq<real>): real
  {
    if xs == [] then 0.0 else Sum(xs[..|xs| - 1]) + xs[|xs| - 1]
  }

  /** `avg_latency_ms` is the mean latency of the successful calls so far. */
  ghost predicate MeanLatency(stats: FallbackStats, latencies: seq<real>)
  {
    |latencies| == Successes(stats) && stats.avgLatencyMs * (|latencies| as real) == Sum(latencies)
  }

  /** Counters other than the successes and the average leave the mean alone. */
  lemma MeanLatencyKept(s: FallbackStats, s': FallbackStats, latencies: seq<real>)
    requires MeanLatency(s, latencies)
    requires Successes(s') == Successes(s) && s'.avgLatencyMs == s.avgLatencyMs
    ensures MeanLatency(s', latencies)
  {
  }

  /** The running-mean update keeps the average the mean of all the latencies. */
  lemma MeanLatencySnoc(s: FallbackStats, latencies: seq<real>, s': FallbackStats, x: real)
    requires MeanLatency(s, latencies)
    requires Successes(s') == Successes(s) + 1
    requires s'.avgLatencyMs * (Successes(s') as real) == s.avgLatencyMs * (Successes(s) as real) + x
    ensures MeanLatency(s', latencies + [x])
  {
    assert (latencies + [x])[..|latencies|] == latencies;
  }

  /** `after` is `models` with the models named `name` dropped from every tier. */
  predicate RemovedFrom(after: TierLists, models: TierLists, name: string)
  {
    forall t :: after.Get(t) == Filter(models.Get(t), NameIsNot(name))
  }

  /**
   * `remove_model(name)` filters every tier: what is left is exactly the
   * models of other names, each tier still sorted and under its own tier.
   */
  lemma RemovedSpec(models: TierLists, after: TierLists, name: string)
    requires RemovedFrom(after, models, name)
    ensures forall t, m :: m in after.Get(t) <==> m in models.Get(t) && m.name != name
    ensures WellTiered(models) ==> WellTiered(after)
    ensures (forall t :: SortedBy(models.Get(t), PriorityRank)) ==> forall t :: SortedBy(after.Get(t), PriorityRank)
  {
    if WellTiered(models) {
      forall t, i | 0 <= i < |after.Get(t)| ensures after.Get(t)[i].tier == t {
        assert after.Get(t)[i] in models.Get(t);
        ListedTier(models, t, after.Get(t)[i]);
      }
    }
    if forall t :: SortedBy(models.Get(t), PriorityRank) {
      forall t ensures SortedBy(after.Get(t), PriorityRank) {
        FilterSorted(models.Get(t), NameIsNot(name), PriorityRank);
      }
    }
  }

  /** `AIFallbackChain`: the per-tier lists and the statistics. */
  class AIFallbackChain {
    var models: TierLists
    var stats: FallbackStats
    /** The latency of every successful call so far. */
    ghost var latencies: seq<real>

    ghost predicate Valid()
      reads this
    {
      && WellTiered(models)
      && (forall t :: SortedBy(models.Get(t), PriorityRank))
      && MeanLatency(stats, latencies)
    }

    constructor()
      ensures Valid() && stats == NoStats && latencies == []
      ensures models == NoModels
    {
      models := NoModels;
      stats := NoStats;
      latencies := [];
    }

    /** `add_model(config)`: append to its tier, then sort the tier by priority (stably). */
    method AddModel(config: ModelConfig)
      requires Valid()
      modifies this
      ensures Valid()
      ensures models == old(models).Set(config.tier, SortByRank(old(models).Get(config.tier) + [config], PriorityRank))
      ensures forall m :: m in models.Get(config.tier) <==> m in old(models).Get(config.tier) || m == config
      ensures stats == old(stats) && latencies == old(latencies)
    {
      var list := models.Get(config.tier) + [config];
      SortByRankMembers(list, PriorityRank);
      forall m | m in list ensures m.tier == config.tier {
        if m != config {
          ListedTier(models, config.tier, m);
        }
      }
      WellTieredSet(models, config.tier, SortByRank(list, PriorityRank));
      models := models.Set(config.tier, SortByRank(list, PriorityRank));
    }

    /** `remove_model(name)`: drop every model of that name from every tier. */
    method RemoveModel(name: string)
      requires Valid()
      modifies this
      ensures Valid()
      ensures RemovedFrom(models, old(models), name)
      ensures forall t, m :: m in models.Get(t) <==> m in old(models).Get(t) && m.name != name
      ensures stats == old(stats) && latencies == old(latencies)
    {
      var lists := FilterTiers(models, name);
      RemovedSpec(models, lists, name);
      models := lists;
    }

    /** `generate(...)`: one more call counted, and the success or the static fallback recorded. */
    method Generate(operationType: string, maxTier: Option<ModelTier>, outcome: ModelConfig -> CallOutcome, elapsedMs: real)
      returns (r: Result<ModelResponse, Exc>)
      requires Valid()
      modifies this
      ensures Valid()
      ensures models == old(models)
      ensures (stats, r) == Generated(old(models), old(stats), operationType, maxTier, outcome, elapsedMs)
      ensures latencies == old(latencies) + Answered(r)
    {
      var after;
      after, r := GenerateStep(models, stats, operationType, maxTier, outcome, elapsedMs);
      GeneratedMean(models, stats, operationType, maxTier, outcome, elapsedMs, latencies);
      stats := after;
      latencies := latencies + Answered(r);
    }
  }

  /** The loop of `remove_model(name)`: each tier in turn keeps the models of other names. */
  method FilterTiers(models: TierLists, name: string) returns (lists: TierLists)
    ensures RemovedFrom(lists, models, name)
  {
    lists := models;
    var i := 0;
    while i < |AllTierOrder|
      invariant 0 <= i <= |AllTierOrder|
      invariant forall t :: Ordinal(t) < i ==> lists.Get(t) == Filter(models.Get(t), NameIsNot(name))
      invariant forall t :: Ordinal(t) >= i ==> lists.Get(t) == models.Get(t)
    {
      var t := AllTierOrder[i];
      OrdinalAt(i);
      var next := lists.Set(t, Filter(lists.Get(t), NameIsNot(name)));
      forall u ensures Ordinal(u) < i + 1 ==> next.Get(u) == Filter(models.Get(u), NameIsNot(name))
        ensures Ordinal(u) >= i + 1 ==> next.Get(u) == models.Get(u)
      {
        if u != t {
          assert Ordinal(u) != i;
          assert next.Get(u) == lists.Get(u);
        }
      }
      lists := next;
      i := i + 1;
    }
  }

  /** The steps of `generate` on the counters `stats`: the new counters and the reply or exception. */
  method GenerateStep(models: TierLists, stats: FallbackStats, operationType: string, maxTier: Option<ModelTier>,
                      outcome: ModelConfig -> CallOutcome, elapsedMs: real)
    returns (s: FallbackStats, r: Result<ModelResponse, Exc>)
    requires WellTiered(models)
    ensures (s, r) == Generated(models, stats, operationType, maxTier, outcome, elapsedMs)
  {
    s := stats.(totalCalls := stats.totalCalls + 1);
    var tiersOr := TiersToTry(maxTier);
    if tiersOr.Err? {
      GeneratedRaises(models, stats, operationType, maxTier, outcome, elapsedMs);
      return s, Err(tiersOr.error);
    }
    GeneratedWalks(models, stats, operationType, maxTier, outcome, elapsedMs);
    var found, lastError := Walk(models, tiersOr.value, outcome);
    WalkedAfterScan(models, s, tiersOr.value, operationType, outcome, elapsedMs,
                    if found.Some? then Some(found.value.1) else None, lastError);
    if found.Some? {
      var (tier, c) := found.value;
      var resp := CallModel(c, outcome(c)).value;
      s := Succeeded(s, tier, resp, c.name);
      return s, Ok(resp);
    }
    s := FellBack(s);
    r := Ok(StaticResponse(operationType, lastError, elapsedMs));
  }

  /** The latency a reply adds to the mean: that of a model's answer, none for an exception or a canned reply. */
  function Answered(r: Result<ModelResponse, Exc>): (l: seq<real>)
    ensures |l| <= 1
  {
    if r.Ok? && r.value.success then [r.value.latencyMs] else []
  }

  /** `generate` keeps `avg_latency_ms` the mean latency of the answered calls. */
  lemma GeneratedMean(models: TierLists, stats: FallbackStats, operationType: string, maxTier: Option<ModelTier>,
                      outcome: ModelConfig -> CallOutcome, elapsedMs: real, latencies: seq<real>)
    requires WellTiered(models) && MeanLatency(stats, latencies)
    ensures var (s, r) := Generated(models, stats, operationType, maxTier, outcome, elapsedMs);
      MeanLatency(s, latencies + Answered(r))
  {
    var s1 := stats.(totalCalls := stats.totalCalls + 1);
    MeanLatencyKept(stats, s1, latencies);
    if TiersToTry(maxTier).Err? {
      GeneratedRaises(models, stats, operationType, maxTier, outcome, elapsedMs);
      assert latencies + [] == latencies;
    } else {
      var tiers := TiersToTry(maxTier).value;
      GeneratedWalks(models, stats, operationType, maxTier, outcome, elapsedMs);
      var (winner, last) := Scan(Candidates(models, tiers), None, outcome);
      WalkedAfterScan(models, s1, tiers, operationType, outcome, elapsedMs, winner, last);
      ConcludedMean(s1, winner, last, operationType, outcome, elapsedMs, latencies);
    }
  }

  /** Recording a success or a fallback keeps `avg_latency_ms` the mean latency of the answered calls. */
  lemma ConcludedMean(s1: FallbackStats, winner: Option<ModelConfig>, last: Option<CallFailure>, operationType: string,
                      outcome: ModelConfig -> CallOutcome, elapsedMs: real, latencies: seq<real>)
    requires winner.Some? ==> winner.value.tier != Static && outcome(winner.value).Answer?
    requires MeanLatency(s1, latencies)
    ensures var (s, r) := Concluded(s1, winner, last, operationType, outcome, elapsedMs);
      MeanLatency(s, latencies + Answered(r))
  {
    if winner.Some? {
      var c := winner.value;
      var resp := CallModel(c, outcome(c)).value;
      MeanLatencySnoc(s1, latencies, Succeeded(s1, c.tier, resp, c.name), resp.latencyMs);
    } else {
      MeanLatencyKept(s1, FellBack(s1), latencies);
      assert latencies + [] == latencies;
    }
  }

  /** The nested loops of `generate`: the tier and model that first answer, and the last failure. */
  method Walk(models: TierLists, tiers: seq<ModelTier>, outcome: ModelConfig -> CallOutcome)
    returns (found: Option<(ModelTier, ModelConfig)>, lastError: Option<CallFailure>)
    requires WellTiered(models)
    ensures (if found.Some? then Some(found.value.1) else None, lastError) == Scan(Candidates(models, tiers), None, outcome)
    ensures found.Some? ==> found.value.0 == found.value.1.tier && found.value.0 in tiers
  {
    lastError := None;
    var i := 0;
    while i < |tiers|
      invariant 0 <= i <= |tiers|
      invariant Scan(Candidates(models, tiers), None, outcome) == Scan(Candidates(models, tiers[i..]), lastError, outcome)
    {
      var avail := GetAvailableModels(models, Some(tiers[i]));
      assert tiers[i..][1..] == tiers[i + 1..];
      ScanAppend(avail, Candidates(models, tiers[i + 1..]), lastError, outcome);
      var winner;
      winner, lastError := TryTier(avail, lastError, outcome);
      if winner.Some? {
        ListedTier(models, tiers[i], winner.value);
        return Some((tiers[i], winner.value)), lastError;
      }
      i := i + 1;
    }
    assert tiers[i..] == [];
    found := None;
  }

  /** The inner loop of `generate` over one tier's enabled models. */
  method TryTier(avail: seq<ModelConfig>, last0: Option<CallFailure>, outcome: ModelConfig -> CallOutcome)
    returns (winner: Option<ModelConfig>, last: Option<CallFailure>)
    ensures (winner, last) == Scan(avail, last0, outcome)
  {
    last := last0;
    var j := 0;
    while j < |avail|
      invariant 0 <= j <= |avail|
      invariant Scan(avail, last0, outcome) == Scan(avail[j..], last, outcome)
    {
      assert avail[j..][1..] == avail[j + 1..];
      var res := CallModel(avail[j], outcome(avail[j]));
      if res.Ok? {
        return Some(avail[j]), last;
      }
      last := Some(res.error);
      j := j + 1;
    }
    winner := None;
  }
}
