/** The AI-assisted analyser around the features: the rule-based fallback
    scorer, risk-level banding, the availability flag of the external
    completion service as a small state machine, the per-user analysis of a
    seven-day window, and the weekly run that classifies, blocks or monitors
    and summarises. The completion service is an oracle: each consultation
    yields either a reply text (possibly null) or an error code and status. */
module ThreatDetector {
  import opened Basics
  import opened Domain
  import opened Features
  import opened AIResponse

  // ---------------------------------------------------------------------------
  // Thresholds and risk levels
  // ---------------------------------------------------------------------------

  datatype Thresholds = Thresholds(highRisk: real, mediumRisk: real, lowRisk: real)

  const DEFAULT_THRESHOLDS: Thresholds := Thresholds(0.8, 0.6, 0.4)

  datatype RiskLevel = Low | Medium | High
  {
    function Name(): string
    {
      match this
      case Low => "Low"
      case Medium => "Medium"
      case High => "High"
    }
  }

  /** The fallback's banding against the current thresholds: High from
      `highRisk`, Medium from `mediumRisk` below that, Low otherwise. No
      ordering between the two thresholds is assumed. */
  function Level(score: real, th: Thresholds): (l: RiskLevel)
    ensures l == High <==> score >= th.highRisk
    ensures l == Medium <==> th.mediumRisk <= score < th.highRisk
    ensures l == Low <==> score < th.mediumRisk && score < th.highRisk
  {
    if score >= th.highRisk then High
    else if score >= th.mediumRisk then Medium
    else Low
  }

  // ---------------------------------------------------------------------------
  // The fallback rules
  // ---------------------------------------------------------------------------

  /** The six pattern rules of the fallback, in the order they are checked. */
  datatype Rule = AfterHoursRule | RapidRule | DownloadRule | IpRule | UnusualRule | RepetitiveRule
  {
    function Weight(): real
    {
      match this
      case AfterHoursRule => 0.2
      case RapidRule => 0.2
      case DownloadRule => 0.2
      case IpRule => 0.1
      case UnusualRule => 0.15
      case RepetitiveRule => 0.1
    }

    function Recommendation(): string
    {
      match this
      case AfterHoursRule => "High after-hours activity detected"
      case RapidRule => "Rapid succession of actions detected"
      case DownloadRule => "High download activity detected"
      case IpRule => "Multiple IP addresses used"
      case UnusualRule => "High percentage of unusual hours activity"
      case RepetitiveRule => "High repetitive action pattern detected"
    }
  }

  const RULES: seq<Rule> := [AfterHoursRule, RapidRule, DownloadRule, IpRule, UnusualRule, RepetitiveRule]

  const NO_CONCERNS: string := "No immediate concerns detected"
  const SUSPICIOUS_TEXT: string := "Suspicious patterns detected"
  const NORMAL_TEXT: string := "Normal behavior patterns"

  /** The warning a rule records, with the figures the source formats into
      its text. */
  datatype Warning =
    | AfterHoursWarning(after: nat, work: nat)
    | RapidWarning(rapid: nat)
    | DownloadWarning(downloads: nat)
    | IpWarning(addresses: nat)
    | UnusualWarning(unusual: nat, total: nat)
    | RepetitiveWarning(repetitive: nat, total: nat)

  /** Whether a rule fires on a summary; the fractional comparisons are on
      reals, as in JavaScript. */
  predicate Fires(r: Rule, s: Summary)
  {
    match r
    case AfterHoursRule => s.afterHoursActivity as real > s.workHoursActivity as real * 0.3
    case RapidRule => s.accessPatterns.rapidSuccession > 5
    case DownloadRule => s.downloadActivity > 10
    case IpRule => |s.ipAddresses| > 3
    case UnusualRule => s.accessPatterns.unusualHours as real > s.totalActivities as real * 0.4
    case RepetitiveRule => s.accessPatterns.repetitiveActions as real > s.totalActivities as real * 0.5
  }

  function FiresP(s: Summary): Rule -> bool
  {
    (r: Rule) => Fires(r, s)
  }

  function WarningOf(r: Rule, s: Summary): Warning
  {
    match r
    case AfterHoursRule => AfterHoursWarning(s.afterHoursActivity, s.workHoursActivity)
    case RapidRule => RapidWarning(s.accessPatterns.rapidSuccession)
    case DownloadRule => DownloadWarning(s.downloadActivity)
    case IpRule => IpWarning(|s.ipAddresses|)
    case UnusualRule => UnusualWarning(s.accessPatterns.unusualHours, s.totalActivities)
    case RepetitiveRule => RepetitiveWarning(s.accessPatterns.repetitiveActions, s.totalActivities)
  }

  /** The rules that fire, in checking order. */
  function Triggered(s: Summary): seq<Rule>
  {
    Filter(RULES, FiresP(s))
  }

  function WeightSum(rs: seq<Rule>): real
  {
    if |rs| == 0 then 0.0 else WeightSum(rs[..|rs| - 1]) + rs[|rs| - 1].Weight()
  }

  function Recs(rs: seq<Rule>): (r: seq<string>)
    ensures |r| == |rs|
  {
    seq(|rs|, i requires 0 <= i < |rs| => rs[i].Recommendation())
  }

  function Warnings(rs: seq<Rule>, s: Summary): (w: seq<Warning>)
    ensures |w| == |rs|
  {
    seq(|rs|, i requires 0 <= i < |rs| => WarningOf(rs[i], s))
  }

  /** What the source's sequence of `if`s accumulates. */
  datatype RuleTally = RuleTally(score: real, recs: seq<string>, warnings: seq<Warning>)

  /** One `if` of the fallback: a firing rule adds its weight, its
      recommendation and its warning. */
  function Check(t: RuleTally, r: Rule, s: Summary): RuleTally
  {
    if Fires(r, s) then RuleTally(t.score + r.Weight(), t.recs + [r.Recommendation()], t.warnings + [WarningOf(r, s)])
    else t
  }

  lemma RecsSnoc(rs: seq<Rule>, x: Rule, s: Summary)
    ensures WeightSum(rs + [x]) == WeightSum(rs) + x.Weight()
    ensures Recs(rs + [x]) == Recs(rs) + [x.Recommendation()]
    ensures Warnings(rs + [x], s) == Warnings(rs, s) + [WarningOf(x, s)]
  {
    assert (rs + [x])[..|rs|] == rs;
  }

  /** Running the checks in order accumulates exactly the weights,
      recommendations and warnings of the rules that fire, in order. */
  function RunChecks(rs: seq<Rule>, s: Summary): (t: RuleTally)
    ensures t.score == WeightSum(Filter(rs, FiresP(s)))
    ensures t.recs == Recs(Filter(rs, FiresP(s)))
    ensures t.warnings == Warnings(Filter(rs, FiresP(s)), s)
  {
    if |rs| == 0 then RuleTally(0.0, [], [])
    else
      var x := rs[|rs| - 1];
      var t := RunChecks(rs[..|rs| - 1], s);
      var f := Filter(rs[..|rs| - 1], FiresP(s));
      RecsSnoc(f, x, s);
      assert Filter(rs, FiresP(s)) == if Fires(x, s) then f + [x] else f;
      Check(t, x, s)
  }

  /** Average of the entry scores, 0 for an empty window. */
  function Mean(scores: seq<real>): real
  {
    if |scores| > 0 then Sum(scores) / |scores| as real else 0.0
  }

  datatype Fallback = Fallback(
    riskScore: real,
    level: RiskLevel,
    analysis: string,
    recommendations: seq<string>,
    warnings: seq<Warning>)

  /** The analysis text, whose "suspicious" cutoff is a fixed 0.6 rather than
      a threshold. */
  function FallbackText(level: RiskLevel, score: real): string
  {
    "Fallback analysis (" + level.Name() + " Risk): " + (if score > 0.6 then SUSPICIOUS_TEXT else NORMAL_TEXT)
  }

  /** `fallbackAnalysis`: the weights of the firing rules plus 0.3 times the
      mean entry score, capped at 1.0; the level against the thresholds; one
      recommendation and one warning per firing rule, and the no-concerns
      recommendation when none fires. */
  function FallbackAnalysis(s: Summary, th: Thresholds): (r: Fallback)
    ensures r.riskScore == Min(WeightSum(Triggered(s)) + Mean(s.riskScores) * 0.3, 1.0)
    ensures r.riskScore <= 1.0
    ensures r.level == Level(r.riskScore, th)
    ensures r.analysis == FallbackText(r.level, r.riskScore)
    ensures r.recommendations == if |Triggered(s)| == 0 then [NO_CONCERNS] else Recs(Triggered(s))
    ensures |r.recommendations| >= 1
    ensures |r.warnings| == |Triggered(s)|
    ensures forall i :: 0 <= i < |r.warnings| ==> r.warnings[i] == WarningOf(Triggered(s)[i], s)
  {
    var t := RunChecks(RULES, s);
    var score := Min(t.score + Mean(s.riskScores) * 0.3, 1.0);
    var level := Level(score, th);
    Fallback(score, level, FallbackText(level, score),
             if |t.recs| > 0 then t.recs else [NO_CONCERNS], t.warnings)
  }

  lemma {:induction false} WeightSumNonNegative(rs: seq<Rule>)
    ensures WeightSum(rs) >= 0.0
    decreases |rs|
  {
    if |rs| > 0 {
      WeightSumNonNegative(rs[..|rs| - 1]);
    }
  }

  /** The fallback score lies in [0, 1] whenever the entry scores are
      non-negative. */
  lemma FallbackInRange(s: Summary, th: Thresholds)
    requires forall i :: 0 <= i < |s.riskScores| ==> s.riskScores[i] >= 0.0
    ensures 0.0 <= FallbackAnalysis(s, th).riskScore <= 1.0
  {
    WeightSumNonNegative(Triggered(s));
    MeanNonNegative(s.riskScores);
  }

  /** The mean of non-negative scores is non-negative. */
  lemma MeanNonNegative(scores: seq<real>)
    requires forall i :: 0 <= i < |scores| ==> scores[i] >= 0.0
    ensures Mean(scores) >= 0.0
  {
    SumNonNegative(scores);
  }

  /** The text's 0.6 cutoff is strict while the Medium band starts at 0.6:
      under the default thresholds a score of exactly 0.6 is Medium yet
      described as normal. */
  lemma MediumYetNormal()
    ensures Level(0.6, DEFAULT_THRESHOLDS) == Medium
    ensures FallbackText(Level(0.6, DEFAULT_THRESHOLDS), 0.6) == "Fallback analysis (Medium Risk): " + NORMAL_TEXT
  {
  }

  // ---------------------------------------------------------------------------
  // Availability of the completion service
  // ---------------------------------------------------------------------------

  const PLACEHOLDER_KEY: string := "your-openai-api-key-here"

  /** The environment variable is set (JavaScript-truthy: present and not
      empty). */
  predicate KeySet(key: Option<string>)
  {
    key.Some? && key.value != ""
  }

  /** Set and not the placeholder: the constructor's condition. */
  predicate KeyConfigured(key: Option<string>)
  {
    KeySet(key) && key.value != PLACEHOLDER_KEY
  }

  /** The detector's availability state: the key it sees, the flag, and
      whether a client object exists. */
  datatype AIState = AIState(apiKey: Option<string>, available: bool, hasClient: bool)

  /** The flag and the client go together in every reachable state. */
  predicate Coherent(st: AIState)
  {
    st.available == st.hasClient
  }

  predicate Serving(st: AIState)
  {
    st.available && st.hasClient
  }

  /** The constructor: a client, and the flag set, exactly when a non-
      placeholder key is configured. */
  function InitialState(apiKey: Option<string>): (st: AIState)
    ensures Coherent(st)
    ensures st.apiKey == apiKey
    ensures Serving(st) <==> KeyConfigured(apiKey)
  {
    if KeyConfigured(apiKey) then AIState(apiKey, true, true) else AIState(apiKey, false, false)
  }

  /** `checkAIAvailability`: with a key set and no client it builds one (the
      placeholder key included) and reports true, or reports false leaving
      the state alone when construction fails; otherwise it reports the
      current flag and changes nothing. */
  function CheckAIAvailability(st: AIState, constructionFails: bool): (r: (AIState, bool))
    ensures r.0.apiKey == st.apiKey
    ensures Coherent(st) ==> Coherent(r.0)
    ensures r.0 != st <==> KeySet(st.apiKey) && !st.hasClient && !constructionFails
    ensures r.0 != st ==> Serving(r.0) && r.1
    ensures r.0 == st ==> r.1 == (st.available && !(KeySet(st.apiKey) && !st.hasClient))
  {
    if KeySet(st.apiKey) && !st.hasClient then
      if constructionFails then (st, false)
      else (st.(available := true, hasClient := true), true)
    else (st, st.available)
  }

  /** The placeholder key never enables the service at start, but a re-check
      does enable it. */
  lemma PlaceholderReenabled()
    ensures !Serving(InitialState(Some(PLACEHOLDER_KEY)))
    ensures var r := CheckAIAvailability(InitialState(Some(PLACEHOLDER_KEY)), false);
            Serving(r.0) && r.1
  {
  }

  // ---------------------------------------------------------------------------
  // Consulting the service
  // ---------------------------------------------------------------------------

  /** The error codes the detector distinguishes. */
  datatype ErrorCode = InsufficientQuota | InvalidApiKey | RateLimitExceeded | OtherCode(code: string) | NoCode

  /** One consultation: the first choice's message content (null allowed), or
      an error with its code and HTTP status. */
  datatype Reply = Completion(content: Option<string>) | Failure(code: ErrorCode, status: Option<int>)

  /** The flag a fallback result carries. */
  datatype Flag = NoFlag | QuotaExceeded | ApiKeyError | RateLimited | AIError
  {
    /** The `aiResponse` text of a fallback after an error. */
    function Message(): string
    {
      match this
      case NoFlag => ""
      case QuotaExceeded => "AI analysis unavailable due to quota exceeded - using fallback rules"
      case ApiKeyError => "AI analysis unavailable due to invalid API key - using fallback rules"
      case RateLimited => "AI analysis temporarily unavailable due to rate limits - using fallback rules"
      case AIError => "AI analysis failed - using fallback rules"
    }

    predicate Disables()
    {
      this == QuotaExceeded || this == ApiKeyError
    }
  }

  /** The error classification: quota (by code, or by status 429) first,
      then an invalid key, then a rate limit, anything else a generic
      error. */
  function ClassifyError(code: ErrorCode, status: Option<int>): (f: Flag)
    ensures f != NoFlag
    ensures f == QuotaExceeded <==> code == InsufficientQuota || status == Some(429)
    ensures f == ApiKeyError <==> code == InvalidApiKey && status != Some(429)
    ensures f == RateLimited <==> code == RateLimitExceeded && status != Some(429)
    ensures f == AIError <==>
              !(code == InsufficientQuota || code == InvalidApiKey || code == RateLimitExceeded) && status != Some(429)
    ensures f.Disables() <==> code == InsufficientQuota || code == InvalidApiKey || status == Some(429)
  {
    if code == InsufficientQuota || status == Some(429) then QuotaExceeded
    else if code == InvalidApiKey then ApiKeyError
    else if code == RateLimitExceeded then RateLimited
    else AIError
  }

  /** Where a result came from. */
  datatype Source =
    | NoActivity
    | QueryFailed
    | FromService(response: Option<string>)
    | RuleBased(level: RiskLevel, warnings: seq<Warning>, flag: Flag)

  datatype Analysis = Analysis(riskScore: real, analysis: string, recommendations: seq<string>, source: Source)

  /** The fallback as an analysis result, with the error flag it carries. */
  function FallbackResult(s: Summary, th: Thresholds, flag: Flag): (a: Analysis)
    ensures a.riskScore == FallbackAnalysis(s, th).riskScore
    ensures a.source.RuleBased? && a.source.flag == flag
    ensures |a.recommendations| >= 1
  {
    var f := FallbackAnalysis(s, th);
    Analysis(f.riskScore, f.analysis, f.recommendations, RuleBased(f.level, f.warnings, flag))
  }

  /** The score a reply's text yields. A `RISK_SCORE` digit run with no
      number at its start (where `parseFloat` gives NaN) is carried as 0. */
  function ScoreOf(p: Parsed): real
  {
    p.riskScore.GetOr(0.0)
  }

  /** `getAIAnalysis`. Without a client the fallback is returned and the
      reply is not consulted. A completion is parsed. An error yields the
      fallback with the error's flag; a quota or key error also drops the
      client and the flag, and no other outcome changes the state. */
  function GetAIAnalysis(st: AIState, s: Summary, th: Thresholds, reply: Reply): (r: (AIState, Analysis))
    ensures r.0.apiKey == st.apiKey
    ensures Coherent(st) ==> Coherent(r.0)
    ensures !Serving(st) ==> r == (st, FallbackResult(s, th, NoFlag))
    ensures Serving(st) && reply.Completion? ==>
              var p := ParseAIAnalysis(reply.content);
              r.0 == st && r.1 == Analysis(ScoreOf(p), p.analysis, p.recommendations, FromService(reply.content))
    ensures Serving(st) && reply.Failure? ==>
              r.1 == FallbackResult(s, th, ClassifyError(reply.code, reply.status))
              && (ClassifyError(reply.code, reply.status).Disables() <==> !r.0.available && !r.0.hasClient)
              && (!ClassifyError(reply.code, reply.status).Disables() <==> r.0 == st)
  {
    if !st.available || !st.hasClient then (st, FallbackResult(s, th, NoFlag))
    else
      match reply
      case Completion(content) =>
        var p := ParseAIAnalysis(content);
        (st, Analysis(ScoreOf(p), p.analysis, p.recommendations, FromService(content)))
      case Failure(code, status) =>
        var flag := ClassifyError(code, status);
        var st' := if flag.Disables() then st.(available := false, hasClient := false) else st;
        (st', FallbackResult(s, th, flag))
  }

  /** Every outcome that is not a parsed completion is the fallback score. */
  lemma ErrorsFallBack(st: AIState, s: Summary, th: Thresholds, reply: Reply)
    requires !Serving(st) || reply.Failure?
    ensures GetAIAnalysis(st, s, th, reply).1.source.RuleBased?
    ensures GetAIAnalysis(st, s, th, reply).1.riskScore == FallbackAnalysis(s, th).riskScore
  {
  }

  /** After a quota error the service stays off: the next consultation, with
      any reply, is the fallback and leaves the state as it is. */
  lemma QuotaSticky(st: AIState, s1: Summary, s2: Summary, th: Thresholds, status: Option<int>, reply: Reply)
    requires Serving(st)
    ensures var r1 := GetAIAnalysis(st, s1, th, Failure(InsufficientQuota, status));
            var r2 := GetAIAnalysis(r1.0, s2, th, reply);
            r1.1.source.flag == QuotaExceeded
            && r2 == (r1.0, FallbackResult(s2, th, NoFlag))
  {
  }

  // ---------------------------------------------------------------------------
  // Per-user analysis
  // ---------------------------------------------------------------------------

  const NO_ACTIVITY: string := "No activity detected"
  const ANALYSIS_RUN_FAILED: string := "Analysis failed"

  /** The user's entries from `since` up to `now`, both ends included. */
  function WindowP(id: UserId, since: int, now: int): LogEntry -> bool
  {
    (e: LogEntry) => e.userId == id && since <= e.timestamp <= now
  }

  /** `analyzeUserBehavior` over the window from `since` (the clock moved
      back by the requested number of days) to now: a failed query gives 0.5
      and a manual review; an empty window gives 0 with no recommendations;
      otherwise the consultation on the window's summary. The window is
      taken in the log's own order; the query's sort is not modelled. */
  function AnalyzeUserBehavior(st: AIState, logs: seq<LogEntry>, id: UserId, since: int, now: int, th: Thresholds,
                               reply: Reply, queryFails: bool): (r: (AIState, Analysis))
    ensures Coherent(st) ==> Coherent(r.0)
    ensures r.0.apiKey == st.apiKey
    ensures !Serving(st) ==> r.0 == st && !r.1.source.FromService?
    ensures queryFails ==> r == (st, Analysis(0.5, ANALYSIS_RUN_FAILED, [MANUAL_REVIEW], QueryFailed))
    ensures !queryFails && Count(logs, WindowP(id, since, now)) == 0 ==>
              r == (st, Analysis(0.0, NO_ACTIVITY, [], NoActivity))
    ensures !queryFails && Count(logs, WindowP(id, since, now)) > 0 ==>
              r == GetAIAnalysis(st, PrepareAnalysisData(Filter(logs, WindowP(id, since, now))), th, reply)
  {
    if queryFails then (st, Analysis(0.5, ANALYSIS_RUN_FAILED, [MANUAL_REVIEW], QueryFailed))
    else
      var acts := Filter(logs, WindowP(id, since, now));
      if |acts| == 0 then (st, Analysis(0.0, NO_ACTIVITY, [], NoActivity))
      else GetAIAnalysis(st, PrepareAnalysisData(acts), th, reply)
  }

  // ---------------------------------------------------------------------------
  // The weekly run
  // ---------------------------------------------------------------------------

  /** What the run consults, per analysed user by position: the service's
      reply and whether the window query fails. */
  datatype Oracle = Oracle(reply: nat -> Reply, queryFails: nat -> bool)

  datatype Row = Row(user: User, analysis: Analysis)

  /** The weekly decision for one score: block from `highRisk`, monitor from
      `mediumRisk` below that, nothing otherwise. */
  function WeeklyAction(score: real, th: Thresholds): (a: Option<Action>)
    ensures a == Some(Block) <==> score >= th.highRisk
    ensures a == Some(Monitor) <==> th.mediumRisk <= score < th.highRisk
  {
    if score >= th.highRisk then Some(Block)
    else if score >= th.mediumRisk then Some(Monitor)
    else None
  }

  /** The weekly decision and the fallback's band agree: block is High,
      monitor is Medium, nothing is Low. */
  lemma WeeklyActionIsLevel(score: real, th: Thresholds)
    ensures WeeklyAction(score, th) == Some(Block) <==> Level(score, th) == High
    ensures WeeklyAction(score, th) == Some(Monitor) <==> Level(score, th) == Medium
    ensures WeeklyAction(score, th) == None <==> Level(score, th) == Low
  {
  }

  /** Analyses the users in order over one window, from position `k` of the
      oracle, threading the availability state: one row per user, for that
      user. */
  function AnalyzeAll(st: AIState, users: seq<User>, logs: seq<LogEntry>, since: int, now: int, th: Thresholds,
                      o: Oracle, k: nat): (r: (AIState, seq<Row>))
    ensures |r.1| == |users|
    ensures forall i :: 0 <= i < |users| ==> r.1[i].user == users[i]
    ensures Coherent(st) ==> Coherent(r.0)
    decreases |users|
  {
    if |users| == 0 then (st, [])
    else
      var (st1, a) := AnalyzeUserBehavior(st, logs, users[0].id, since, now, th, o.reply(k), o.queryFails(k));
      var (st2, rest) := AnalyzeAll(st1, users[1..], logs, since, now, th, o, k + 1);
      (st2, [Row(users[0], a)] + rest)
  }

  /** Once the service is off it stays off for the rest of the run, and no
      later user's result comes from the service. */
  lemma {:induction false} OffStaysOff(st: AIState, users: seq<User>, logs: seq<LogEntry>, since: int, now: int,
                                       th: Thresholds, o: Oracle, k: nat)
    requires !Serving(st)
    ensures AnalyzeAll(st, users, logs, since, now, th, o, k).0 == st
    ensures forall i :: 0 <= i < |users| ==> !AnalyzeAll(st, users, logs, since, now, th, o, k).1[i].analysis.source.FromService?
    decreases |users|
  {
    if |users| > 0 {
      OffStaysOff(st, users[1..], logs, since, now, th, o, k + 1);
      var r := AnalyzeAll(st, users, logs, since, now, th, o, k);
      var rest := AnalyzeAll(st, users[1..], logs, since, now, th, o, k + 1).1;
      forall i | 0 <= i < |users|
        ensures !r.1[i].analysis.source.FromService?
      {
        if i > 0 {
          assert r.1[i] == rest[i - 1];
        }
      }
    }
  }

  datatype Flagged = Flagged(user: User, analysis: Analysis, action: Action)

  /** A classification of scores: block, monitor, or nothing. */
  type Decider = real -> Option<Action>

  function WeeklyDecider(th: Thresholds): Decider
  {
    (x: real) => WeeklyAction(x, th)
  }

  function FlaggedP(decide: Decider): Row -> bool
  {
    (r: Row) => decide(r.analysis.riskScore).Some?
  }

  function BlockP(decide: Decider): Row -> bool
  {
    (r: Row) => decide(r.analysis.riskScore) == Some(Block)
  }

  function MonitorP(decide: Decider): Row -> bool
  {
    (r: Row) => decide(r.analysis.riskScore) == Some(Monitor)
  }

  function BlockItemP(): Flagged -> bool
  {
    (f: Flagged) => f.action == Block
  }

  function MonitorItemP(): Flagged -> bool
  {
    (f: Flagged) => f.action == Monitor
  }

  /** `f` lists the rows `decide` flags, each with its decision: one item per
      flagged row, every item from a flagged row, and every flagged row has
      its item. */
  predicate FlagsExactly(rows: seq<Row>, decide: Decider, f: seq<Flagged>)
  {
    && |f| == Count(rows, FlaggedP(decide))
    && (forall i :: 0 <= i < |f| ==>
          Some(f[i].action) == decide(f[i].analysis.riskScore) && Row(f[i].user, f[i].analysis) in rows)
    && (forall r :: r in rows && decide(r.analysis.riskScore).Some? ==>
          Flagged(r.user, r.analysis, decide(r.analysis.riskScore).value) in f)
  }

  /** The flagged rows in order, each with its decision; the block and
      monitor items are the rows decided so. */
  function FlagRows(rows: seq<Row>, decide: Decider): (f: seq<Flagged>)
    ensures FlagsExactly(rows, decide, f)
    ensures Count(f, BlockItemP()) == Count(rows, BlockP(decide))
    ensures Count(f, MonitorItemP()) == Count(rows, MonitorP(decide))
  {
    if |rows| == 0 then []
    else
      var front := FlagRows(rows[..|rows| - 1], decide);
      var x := rows[|rows| - 1];
      assert forall r :: r in rows ==> r in rows[..|rows| - 1] || r == x;
      match decide(x.analysis.riskScore)
      case Some(act) =>
        CountAppend(front, [Flagged(x.user, x.analysis, act)], BlockItemP());
        CountAppend(front, [Flagged(x.user, x.analysis, act)], MonitorItemP());
        front + [Flagged(x.user, x.analysis, act)]
      case None => front
  }

  /** Blocking a flagged user records the block; monitoring adds a note. */
  function ApplyItem(f: Flagged, now: int): (u: User)
    ensures u.id == f.user.id && u.role == f.user.role && u.name == f.user.name && u.email == f.user.email
    ensures f.action == Block ==> u.isBlocked && u.blockedAt == Some(now)
    ensures f.action == Monitor ==> u.isBlocked == f.user.isBlocked && u.blockedAt == f.user.blockedAt
    ensures |u.riskNotes| == |f.user.riskNotes| + 1 && u.riskNotes[..|f.user.riskNotes|] == f.user.riskNotes
    ensures u.riskNotes[|f.user.riskNotes|].action == f.action
    ensures u.riskNotes[|f.user.riskNotes|].timestamp == now
  {
    match f.action
    case Block =>
      f.user.(isBlocked := true, blockedAt := Some(now),
              riskNotes := f.user.riskNotes + [RiskNote(AIHighRisk(f.analysis.riskScore, f.analysis.analysis), now, Block)])
    case Monitor =>
      f.user.(riskNotes := f.user.riskNotes + [RiskNote(AIMediumRisk(f.analysis.riskScore, f.analysis.analysis), now, Monitor)])
  }

  /** The admin alerts of the weekly run. */
  datatype WeeklyAlert = UserBlockedAlert(user: UserId, score: real) | UserMonitoredAlert(user: UserId, score: real)

  function AlertOf(f: Flagged): WeeklyAlert
  {
    if f.action == Block then UserBlockedAlert(f.user.id, f.analysis.riskScore)
    else UserMonitoredAlert(f.user.id, f.analysis.riskScore)
  }

  function SavedP(saveFails: UserId -> bool): Flagged -> bool
  {
    (f: Flagged) => !saveFails(f.user.id)
  }

  /** `applyWeeklyAnalysisActions`: each item is applied and saved on its
      own; a failed save is caught, so that user is not persisted and not
      alerted on, and the loop goes on. The saved records are the applied
      items whose save succeeded, in order, each followed by its alert. There
      is no role check. */
  function ApplyWeeklyActions(items: seq<Flagged>, now: int, saveFails: UserId -> bool): (r: (seq<User>, seq<WeeklyAlert>))
    ensures |r.0| == |r.1| == Count(items, SavedP(saveFails))
    ensures forall u :: u in r.0 ==> exists f :: f in items && !saveFails(f.user.id) && u == ApplyItem(f, now)
    ensures forall f :: f in items && !saveFails(f.user.id) ==> ApplyItem(f, now) in r.0 && AlertOf(f) in r.1
  {
    if |items| == 0 then ([], [])
    else
      var (us, al) := ApplyWeeklyActions(items[..|items| - 1], now, saveFails);
      var f := items[|items| - 1];
      assert forall g :: g in items ==> g in items[..|items| - 1] || g == f;
      if saveFails(f.user.id) then (us, al)
      else (us + [ApplyItem(f, now)], al + [AlertOf(f)])
  }

  /** An Admin flagged for blocking, whose save succeeds, is blocked. */
  lemma AdminBlockedByWeekly(items: seq<Flagged>, now: int, saveFails: UserId -> bool, i: nat)
    requires i < |items| && items[i].user.role == Admin && items[i].action == Block && !saveFails(items[i].user.id)
    ensures exists u :: u in ApplyWeeklyActions(items, now, saveFails).0 && u.role == Admin && u.isBlocked
  {
    assert items[i] in items;
    var u := ApplyItem(items[i], now);
    assert u in ApplyWeeklyActions(items, now, saveFails).0;
  }

  /** One line of the summary's violation list. */
  datatype Violation = Violation(name: string, email: string, role: Role, score: real, action: Action, analysis: string)

  function Violations(items: seq<Flagged>): (v: seq<Violation>)
    ensures |v| == |items|
  {
    seq(|items|, i requires 0 <= i < |items| =>
      Violation(items[i].user.name, items[i].user.email, items[i].user.role,
                items[i].analysis.riskScore, items[i].action, items[i].analysis.analysis))
  }

  function RowScores(rows: seq<Row>): (s: seq<real>)
    ensures |s| == |rows|
  {
    seq(|rows|, i requires 0 <= i < |rows| => rows[i].analysis.riskScore)
  }

  /** The summary; the average and the share are None (NaN in the source)
      when nobody was analysed. */
  datatype WeeklySummary = WeeklySummary(
    totalSuspicious: nat,
    blockedUsers: nat,
    monitoredUsers: nat,
    violations: seq<Violation>,
    totalUsersAnalyzed: nat,
    averageRiskScore: Option<real>,
    highRiskPercentage: Option<real>)

  /** `generateWeeklySummary`: the block and monitor items, which partition
      the flagged ones, the mean score, and the flagged share in percent. */
  function WeeklySummaryOf(rows: seq<Row>, items: seq<Flagged>): (s: WeeklySummary)
    ensures s.totalSuspicious == |items| == |s.violations|
    ensures s.blockedUsers == Count(items, BlockItemP()) && s.monitoredUsers == Count(items, MonitorItemP())
    ensures s.blockedUsers + s.monitoredUsers == s.totalSuspicious
    ensures s.totalUsersAnalyzed == |rows|
    ensures s.averageRiskScore.None? <==> |rows| == 0
    ensures s.averageRiskScore.Some? ==> s.averageRiskScore.value * |rows| as real == Sum(RowScores(rows))
    ensures s.highRiskPercentage.None? <==> |rows| == 0
    ensures s.highRiskPercentage.Some? ==> s.highRiskPercentage.value * |rows| as real == |items| as real * 100.0
  {
    CountSplit(items, BlockItemP(), MonitorItemP());
    var n := |rows|;
    WeeklySummary(
      |items|,
      Count(items, BlockItemP()),
      Count(items, MonitorItemP()),
      Violations(items),
      n,
      if n == 0 then None else Some(MeanOf(Sum(RowScores(rows)), n)),
      if n == 0 then None else Some(ShareOf(|items|, n)))
  }

  /** `total / n`: times n it gives back the total. */
  function MeanOf(total: real, n: nat): (m: real)
    requires n > 0
    ensures m * n as real == total
  {
    total / n as real
  }

  /** `k / n * 100`: times n it gives back 100 k. */
  function ShareOf(k: nat, n: nat): (p: real)
    requires n > 0
    ensures p * n as real == k as real * 100.0
  {
    var q := MeanOf(k as real, n);
    assert q * 100.0 * n as real == (q * n as real) * 100.0;
    q * 100.0
  }

  function NotBlockedP(): User -> bool
  {
    (u: User) => !u.isBlocked
  }

  datatype WeeklyReport = WeeklyReport(rows: seq<Row>, flagged: seq<Flagged>, summary: WeeklySummary)

  /** What a run leaves behind: the saved records and the alerts sent, the
      state, and the report, None when the run rethrows. */
  datatype WeeklyOutcome = WeeklyOutcome(state: AIState, saved: seq<User>, alerts: seq<WeeklyAlert>, report: Option<WeeklyReport>)

  /** `performWeeklyAnalysis`: the non-blocked users are analysed in order,
      classified, the flagged ones acted on, and the summary mailed. The
      mailer swallows its own errors, so only a failed user query makes the
      run rethrow, and then with no effect. */
  function PerformWeeklyAnalysis(st: AIState, store: seq<User>, logs: seq<LogEntry>, c: Clock, th: Thresholds,
                                 o: Oracle, usersQueryFails: bool, saveFails: UserId -> bool): (r: WeeklyOutcome)
    ensures usersQueryFails ==> r == WeeklyOutcome(st, [], [], None)
    ensures r.report.None? <==> usersQueryFails
    ensures Coherent(st) ==> Coherent(r.state)
    ensures r.report.Some? ==>
              var rep := r.report.value;
              |rep.rows| == Count(store, NotBlockedP())
              && (forall i :: 0 <= i < |rep.rows| ==> rep.rows[i].user == Filter(store, NotBlockedP())[i])
              && (forall i :: 0 <= i < |rep.rows| ==> !rep.rows[i].user.isBlocked && rep.rows[i].user in store)
              && FlagsExactly(rep.rows, WeeklyDecider(th), rep.flagged)
              && rep.summary.blockedUsers == Count(rep.rows, BlockP(WeeklyDecider(th)))
              && rep.summary.monitoredUsers == Count(rep.rows, MonitorP(WeeklyDecider(th)))
              && rep.summary.blockedUsers + rep.summary.monitoredUsers == rep.summary.totalSuspicious
    ensures r.report.Some? ==>
              (r.saved, r.alerts) == ApplyWeeklyActions(r.report.value.flagged, c.now, saveFails)
  {
    if usersQueryFails then WeeklyOutcome(st, [], [], None)
    else
      var run := AnalyzeActive(st, store, logs, c.weekAgo, c.now, th, o);
      WeeklyOf(run.0, run.1, c.now, th, saveFails)
  }

  /** The analysis of every non-blocked user of the store, in store order,
      over the window from `since`. */
  function AnalyzeActive(st: AIState, store: seq<User>, logs: seq<LogEntry>, since: int, now: int, th: Thresholds,
                         o: Oracle): (r: (AIState, seq<Row>))
    ensures |r.1| == Count(store, NotBlockedP())
    ensures forall i :: 0 <= i < |r.1| ==> r.1[i].user == Filter(store, NotBlockedP())[i]
    ensures forall i :: 0 <= i < |r.1| ==> !r.1[i].user.isBlocked && r.1[i].user in store
    ensures Coherent(st) ==> Coherent(r.0)
  {
    var users := Filter(store, NotBlockedP());
    var run := AnalyzeAll(st, users, logs, since, now, th, o, 0);
    assert forall i :: 0 <= i < |run.1| ==> run.1[i].user in users;
    run
  }

  /** The weekly outcome of the analysed rows: the flagged ones acted on and
      summarised. */
  function WeeklyOf(st: AIState, rows: seq<Row>, now: int, th: Thresholds, saveFails: UserId -> bool): (r: WeeklyOutcome)
    ensures r.state == st && r.report.Some?
    ensures var rep := r.report.value;
            && rep.rows == rows
            && FlagsExactly(rows, WeeklyDecider(th), rep.flagged)
            && rep.summary.blockedUsers == Count(rows, BlockP(WeeklyDecider(th)))
            && rep.summary.monitoredUsers == Count(rows, MonitorP(WeeklyDecider(th)))
            && rep.summary.blockedUsers + rep.summary.monitoredUsers == rep.summary.totalSuspicious
            && (r.saved, r.alerts) == ApplyWeeklyActions(rep.flagged, now, saveFails)
  {
    var items := FlagRows(rows, WeeklyDecider(th));
    var applied := ApplyWeeklyActions(items, now, saveFails);
    WeeklyOutcome(st, applied.0, applied.1, Some(WeeklyReport(rows, items, WeeklySummaryOf(rows, items))))
  }

  /** The weekly run at the level of one user: the i-th non-blocked user of
      the store is flagged for blocking iff their score reaches `highRisk`,
      for monitoring iff it lies in [mediumRisk, highRisk), and otherwise
      not at all; a block whose save succeeds is among the saved records. */
  lemma WeeklyFlagging(st: AIState, store: seq<User>, logs: seq<LogEntry>, c: Clock, th: Thresholds,
                       o: Oracle, saveFails: UserId -> bool, i: nat)
    requires i < Count(store, NotBlockedP())
    ensures var out := PerformWeeklyAnalysis(st, store, logs, c, th, o, false, saveFails);
            var rep := out.report.value;
            var row := rep.rows[i];
            && row.user == Filter(store, NotBlockedP())[i]
            && (row.analysis.riskScore >= th.highRisk <==> Flagged(row.user, row.analysis, Block) in rep.flagged)
            && (th.mediumRisk <= row.analysis.riskScore < th.highRisk <==>
                  Flagged(row.user, row.analysis, Monitor) in rep.flagged)
            && (row.analysis.riskScore >= th.highRisk && !saveFails(row.user.id) ==>
                  ApplyItem(Flagged(row.user, row.analysis, Block), c.now) in out.saved)
  {
    var out := PerformWeeklyAnalysis(st, store, logs, c, th, o, false, saveFails);
    var rep := out.report.value;
    WeeklyRowFlagged(rep.rows, th, rep.flagged, rep.rows[i]);
  }

  /** One row of an exact weekly flag list: flagged for blocking iff its
      score reaches `highRisk`, for monitoring iff it lies below that and at
      least `mediumRisk`. */
  lemma WeeklyRowFlagged(rows: seq<Row>, th: Thresholds, f: seq<Flagged>, row: Row)
    requires FlagsExactly(rows, WeeklyDecider(th), f) && row in rows
    ensures row.analysis.riskScore >= th.highRisk <==> Flagged(row.user, row.analysis, Block) in f
    ensures th.mediumRisk <= row.analysis.riskScore < th.highRisk <==> Flagged(row.user, row.analysis, Monitor) in f
  {
    FlaggedItemDecided(rows, WeeklyDecider(th), f, Flagged(row.user, row.analysis, Block));
    FlaggedItemDecided(rows, WeeklyDecider(th), f, Flagged(row.user, row.analysis, Monitor));
  }

  /** An item of an exact flag list carries its row's decision. */
  lemma FlaggedItemDecided(rows: seq<Row>, decide: Decider, f: seq<Flagged>, x: Flagged)
    requires FlagsExactly(rows, decide, f)
    ensures x in f ==> Some(x.action) == decide(x.analysis.riskScore)
  {
    if x in f {
      var k :| 0 <= k < |f| && f[k] == x;
    }
  }
}
