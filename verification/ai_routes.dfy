/** The decision rules of the administrator's AI-analysis endpoints, once the
    store, the scheduler singleton and the detector's threshold object are
    passed in and handed back: the threshold update, the insights
    aggregation, the scheduler start/stop dispatch, the history pagination
    and the manual weekly trigger. Every handler answers with an HTTP status;
    a thrown error is the 500 answer. */
module AIRoutes {
  import opened Basics
  import opened Domain
  import opened ThreatDetector
  import opened Aggregates
  import opened Scheduler

  const OK: nat := 200
  const BAD_REQUEST: nat := 400
  const SERVER_ERROR: nat := 500

  // ---------------------------------------------------------------------------
  // PUT /thresholds
  // ---------------------------------------------------------------------------

  /** The request body: a field left out is None. */
  datatype ThresholdUpdate = ThresholdUpdate(highRisk: Option<real>, mediumRisk: Option<real>, lowRisk: Option<real>)

  /** Which check turned the request away; the checks run high, medium, low. */
  datatype Rejection = HighOutOfRange | MediumOutOfRange | LowOutOfRange
  {
    function Message(): string
    {
      match this
      case HighOutOfRange => "High risk threshold must be between 0 and 1"
      case MediumOutOfRange => "Medium risk threshold must be between 0 and 1"
      case LowOutOfRange => "Low risk threshold must be between 0 and 1"
    }
  }

  /** A field is acceptable when absent or within [0, 1]. */
  predicate Acceptable(v: Option<real>)
  {
    v.None? || 0.0 <= v.value <= 1.0
  }

  predicate AllAcceptable(u: ThresholdUpdate)
  {
    Acceptable(u.highRisk) && Acceptable(u.mediumRisk) && Acceptable(u.lowRisk)
  }

  predicate InUnit(th: Thresholds)
  {
    0.0 <= th.highRisk <= 1.0 && 0.0 <= th.mediumRisk <= 1.0 && 0.0 <= th.lowRisk <= 1.0
  }

  /** All three checks come before any write: a rejected request, reported
      by its first failing field, leaves every threshold as it was; an
      accepted one sets the fields it carries and keeps the others. */
  function UpdateThresholds(th: Thresholds, u: ThresholdUpdate): (r: (Thresholds, Option<Rejection>))
    ensures r.1.None? <==> AllAcceptable(u)
    ensures r.1.Some? ==> r.0 == th
    ensures r.1 == Some(HighOutOfRange) <==> !Acceptable(u.highRisk)
    ensures r.1 == Some(MediumOutOfRange) <==> Acceptable(u.highRisk) && !Acceptable(u.mediumRisk)
    ensures r.1 == Some(LowOutOfRange) <==>
              Acceptable(u.highRisk) && Acceptable(u.mediumRisk) && !Acceptable(u.lowRisk)
    ensures r.1.None? ==>
              (u.highRisk.Some? ==> r.0.highRisk == u.highRisk.value)
              && (u.highRisk.None? ==> r.0.highRisk == th.highRisk)
              && (u.mediumRisk.Some? ==> r.0.mediumRisk == u.mediumRisk.value)
              && (u.mediumRisk.None? ==> r.0.mediumRisk == th.mediumRisk)
              && (u.lowRisk.Some? ==> r.0.lowRisk == u.lowRisk.value)
              && (u.lowRisk.None? ==> r.0.lowRisk == th.lowRisk)
  {
    if !Acceptable(u.highRisk) then (th, Some(HighOutOfRange))
    else if !Acceptable(u.mediumRisk) then (th, Some(MediumOutOfRange))
    else if !Acceptable(u.lowRisk) then (th, Some(LowOutOfRange))
    else
      var th1 := if u.highRisk.Some? then th.(highRisk := u.highRisk.value) else th;
      var th2 := if u.mediumRisk.Some? then th1.(mediumRisk := u.mediumRisk.value) else th1;
      (if u.lowRisk.Some? then th2.(lowRisk := u.lowRisk.value) else th2, None)
  }

  /** The status the endpoint answers with. */
  function ThresholdStatus(th: Thresholds, u: ThresholdUpdate): (s: nat)
    ensures s == OK <==> AllAcceptable(u)
    ensures s == BAD_REQUEST <==> !AllAcceptable(u)
  {
    if UpdateThresholds(th, u).1.None? then OK else BAD_REQUEST
  }

  /** Sending the same request twice is sending it once, accepted or not. */
  lemma UpdateIdempotent(th: Thresholds, u: ThresholdUpdate)
    ensures UpdateThresholds(UpdateThresholds(th, u).0, u) == UpdateThresholds(th, u)
  {
  }

  /** Thresholds within [0, 1] stay within [0, 1], whatever is sent. */
  lemma UpdateKeepsUnitRange(th: Thresholds, u: ThresholdUpdate)
    requires InUnit(th)
    ensures InUnit(UpdateThresholds(th, u).0)
  {
  }

  /** No order between the three thresholds is enforced: an accepted update
      can put the high threshold below the medium one, after which no score
      is banded Medium. */
  lemma NoOrderingEnforced()
    ensures var r := UpdateThresholds(DEFAULT_THRESHOLDS, ThresholdUpdate(Some(0.3), None, None));
            r.1.None? && r.0.highRisk < r.0.mediumRisk
            && forall x: real :: Level(x, r.0) != Medium
  {
    var th := UpdateThresholds(DEFAULT_THRESHOLDS, ThresholdUpdate(Some(0.3), None, None)).0;
    assert th == Thresholds(0.3, 0.6, 0.4);
  }

  // ---------------------------------------------------------------------------
  // POST /scheduler/:action
  // ---------------------------------------------------------------------------

  /** "start" initialises (a throwing initialisation is the 500 answer),
      "stop" stops everything, and anything else is a 400 that leaves the
      scheduler alone. */
  function SchedulerAction(st: SchedulerState, action: string, failAt: Option<nat>): (r: (SchedulerState, nat))
    ensures action == "start" ==> r.0 == Initialize(st, failAt).0
                                  && (r.1 == OK <==> Initialize(st, failAt).1)
                                  && (r.1 == SERVER_ERROR <==> !Initialize(st, failAt).1)
    ensures action == "stop" ==> r == (StopAll(st), OK)
    ensures r.1 == BAD_REQUEST <==> action != "start" && action != "stop"
    ensures r.1 == BAD_REQUEST ==> r.0 == st
    ensures WellFormed(st) ==> WellFormed(r.0)
  {
    if action == "start" then
      var (st', ok) := Initialize(st, failAt);
      (st', if ok then OK else SERVER_ERROR)
    else if action == "stop" then (StopAll(st), OK)
    else (st, BAD_REQUEST)
  }

  /** After a successful start the three jobs are registered; after a stop
      none is. */
  lemma StartStopEffect(st: SchedulerState, failAt: Option<nat>)
    ensures SchedulerAction(st, "start", failAt).1 == OK ==>
              SchedulerAction(st, "start", failAt).0.jobs.Keys == ALL_JOBS
              || (st.isInitialized && SchedulerAction(st, "start", failAt).0 == st)
    ensures SchedulerAction(st, "stop", failAt).0.jobs == map[]
  {
  }

  // ---------------------------------------------------------------------------
  // GET /history
  // ---------------------------------------------------------------------------

  /** `Math.ceil(a / b)` for a non-zero divisor. */
  function CeilDiv(a: int, b: int): (c: int)
    requires b != 0
    ensures b > 0 ==> (c - 1) * b < a <= c * b
    ensures b < 0 ==> c * b <= a < (c - 1) * b
  {
    if b > 0 then
      CeilBounds(a, b);
      -((-a) / b)
    else
      CeilBounds(-a, -b);
      -(a / (-b))
  }

  lemma CeilBounds(a: int, b: int)
    requires b > 0
    ensures (-((-a) / b) - 1) * b < a <= -((-a) / b) * b
  {
    var q := (-a) / b;
    var m := (-a) % b;
    assert -a == q * b + m && 0 <= m < b;
  }

  function Abs(x: int): nat { if x < 0 then -x else x }

  /** One page of the answer. `pages` is None where the source's division by
      a zero limit gives Infinity or NaN, which serialise as null. */
  datatype Page<T> = Page(entries: seq<T>, page: int, limit: int, total: nat, pages: Option<int>)

  /** The entries a query with this skip and limit returns from the sorted
      matches: from `skip` on, at most |limit| of them, and all of them for
      a zero limit (no limit, in the driver's terms). */
  function Window<T>(matches: seq<T>, skip: nat, limit: int): (w: seq<T>)
    ensures skip >= |matches| ==> w == []
    ensures skip < |matches| && limit == 0 ==> w == matches[skip..]
    ensures skip < |matches| && limit != 0 ==>
              w == matches[skip..if skip + Abs(limit) < |matches| then skip + Abs(limit) else |matches|]
  {
    if skip >= |matches| then []
    else if limit == 0 || skip + Abs(limit) >= |matches| then matches[skip..]
    else matches[skip..skip + Abs(limit)]
  }

  /** `GET /history` over the matching entries, newest first: page `page`
      holds the entries from (page − 1)·limit on, and the page count is the
      total divided by the limit, rounded up. A negative skip makes the
      query throw: None, the 500 answer. */
  function History<T>(matches: seq<T>, page: int, limit: int): (r: Option<Page<T>>)
    ensures r.None? <==> (page - 1) * limit < 0
    ensures r.Some? ==> r.value.total == |matches| && r.value.page == page && r.value.limit == limit
    ensures r.Some? ==> r.value.entries == Window(matches, (page - 1) * limit, limit)
    ensures r.Some? ==> (r.value.pages.None? <==> limit == 0)
    ensures r.Some? && limit > 0 ==> (r.value.pages.value - 1) * limit < |matches| <= r.value.pages.value * limit
  {
    var skip := (page - 1) * limit;
    if skip < 0 then None
    else Some(Page(Window(matches, skip, limit), page, limit, |matches|,
                   if limit == 0 then None else Some(CeilDiv(|matches|, limit))))
  }

  /** With a positive limit, every matching entry is on exactly one page,
      page j / limit + 1, and that page is within the page count. */
  lemma EveryEntryOnOnePage<T>(matches: seq<T>, limit: int, j: nat)
    requires limit > 0 && j < |matches|
    ensures var p := j / limit + 1;
            History(matches, p, limit).Some? && p <= History(matches, p, limit).value.pages.value
            && matches[j] in History(matches, p, limit).value.entries
    ensures forall p :: p >= 1 ==> ((p - 1) * limit <= j < p * limit <==> p == j / limit + 1)
  {
    var p := j / limit + 1;
    var q := j / limit;
    assert j == q * limit + j % limit;
    assert (p - 1) * limit <= j < p * limit;
    var c := CeilDiv(|matches|, limit);
    assert (c - 1) * limit < |matches| <= c * limit;
    MulCancel(p - 1, c, limit);
    var w := Window(matches, (p - 1) * limit, limit);
    assert w[j - (p - 1) * limit] == matches[j];
    forall p' | p' >= 1
      ensures (p' - 1) * limit <= j < p' * limit <==> p' == p
    {
      if p' < p {
        MulMono(p', p - 1, limit);
      } else if p' > p {
        MulMono(p, p' - 1, limit);
      }
    }
  }

  lemma MulCancel(a: int, b: int, n: int)
    requires n > 0 && a * n < b * n
    ensures a < b
  {
    if a >= b {
      MulMono(b, a, n);
    }
  }

  lemma MulMono(a: int, b: int, n: int)
    requires a <= b && n > 0
    ensures a * n <= b * n
  {
  }

  // ---------------------------------------------------------------------------
  // GET /insights
  // ---------------------------------------------------------------------------

  /** The insights object: the non-blocked users' count, the score
      distribution and per-role breakdown over their analyses, the ten
      highest scorers, and a health check. */
  datatype Insights = Insights(
    totalUsers: nat,
    timeRange: int,
    riskDistribution: Distribution,
    roleBasedRisk: seq<RoleRisk>,
    topRiskUsers: seq<Ranked>,
    systemHealth: HealthStatus)

  /** One analysed user as the ranking lists them. */
  function Rankings(rows: seq<Row>): (s: seq<Ranked>)
    ensures |s| == |rows|
    ensures forall i :: 0 <= i < |rows| ==>
              s[i].id == rows[i].user.id && s[i].role == rows[i].user.role
              && s[i].riskScore == rows[i].analysis.riskScore
  {
    seq(|rows|, i requires 0 <= i < |rows| =>
      Ranked(rows[i].user.id, rows[i].user.name, rows[i].user.email, rows[i].user.role,
             rows[i].analysis.riskScore, rows[i].analysis.analysis))
  }

  /** The insights over the analysed users' rows: the buckets and the
      per-role counts each add up to the number of users, each role's entry
      carries its average (see WithAverage), and the ranking keeps the ten
      highest scorers in descending order. */
  function Assemble(rows: seq<Row>, days: int, health: HealthStatus): (ins: Insights)
    requires Consistent(health)
    ensures ins.totalUsers == |rows|
    ensures ins.riskDistribution == Distribute(RowScores(rows))
    ensures ins.riskDistribution.low + ins.riskDistribution.medium + ins.riskDistribution.high == ins.totalUsers
    ensures RiskCount(ins.roleBasedRisk) == ins.totalUsers
    ensures ins.roleBasedRisk == RoleBreakdown(Observations(rows))
    ensures |ins.topRiskUsers| == (if ins.totalUsers < TOP_N then ins.totalUsers else TOP_N)
    ensures Descending(ins.topRiskUsers)
    ensures multiset(ins.topRiskUsers) <= multiset(Rankings(rows))
    ensures Consistent(ins.systemHealth)
  {
    RoleCountsTotal(rows);
    Insights(|rows|, days, Distribute(RowScores(rows)), RoleBreakdown(Observations(rows)),
             TopRiskUsers(Rankings(rows)), health)
  }

  /** `GET /insights`: the non-blocked users, each analysed over the last
      `days` days (from `since`, the clock moved back that many calendar
      days), then assembled with a health check. A failed user query
      is the 500 answer (None). */
  function GetInsights(st: AIState, store: seq<User>, logs: seq<LogEntry>, env: Environment, now: int, since: int, days: int,
                       th: Thresholds, o: Oracle, usersQueryFails: bool, healthLogsFails: bool,
                       healthUsersFails: bool): (r: (AIState, Option<Insights>))
    ensures r.1.None? <==> usersQueryFails
    ensures usersQueryFails ==> r.0 == st
    ensures Coherent(st) ==> Coherent(r.0)
    ensures r.1.Some? ==> r.1.value.totalUsers == Count(store, NotBlockedP())
    ensures r.1.Some? ==>
              var rows := AnalyzeAll(st, Filter(store, NotBlockedP()), logs, since, now, th, o, 0).1;
              r.1.value == Assemble(rows, days, PerformHealthCheck(env, logs, store, now, healthLogsFails, healthUsersFails))
  {
    if usersQueryFails then (st, None)
    else
      var users := Filter(store, NotBlockedP());
      var health := PerformHealthCheck(env, logs, store, now, healthLogsFails, healthUsersFails);
      var (st', rows) := AnalyzeAll(st, users, logs, since, now, th, o, 0);
      (st', Some(Assemble(rows, days, health)))
  }

  /** Over the same analyses, the insights' buckets and per-role breakdown
      are the monthly trends' own. */
  lemma InsightsAgreeWithTrends(st: AIState, store: seq<User>, logs: seq<LogEntry>, env: Environment, now: int,
                                since: int, days: int, th: Thresholds, o: Oracle, hl: bool, hu: bool)
    ensures var ins := GetInsights(st, store, logs, env, now, since, days, th, o, false, hl, hu).1.value;
            var t := AnalyzeTrends(AnalyzeAll(st, Filter(store, NotBlockedP()), logs, since, now, th, o, 0).1);
            ins.riskDistribution == t.distribution
            && (ins.totalUsers > 0 ==> ins.roleBasedRisk == t.roleBasedRisk)
  {
  }

  // ---------------------------------------------------------------------------
  // POST /trigger-weekly
  // ---------------------------------------------------------------------------

  datatype WeeklyCounts = WeeklyCounts(usersAnalyzed: nat, highRiskUsers: nat, blockedUsers: nat, monitoredUsers: nat)

  /** The manual trigger: the weekly run, rethrown to the handler as a 500
      when it fails, otherwise its counts, where the blocked and monitored
      users partition the high-risk ones. */
  function TriggerWeekly(st: AIState, store: seq<User>, logs: seq<LogEntry>, c: Clock, th: Thresholds, o: Oracle,
                         usersQueryFails: bool, saveFails: UserId -> bool): (r: (WeeklyOutcome, nat, Option<WeeklyCounts>))
    ensures r.0 == PerformWeeklyAnalysis(st, store, logs, c, th, o, usersQueryFails, saveFails)
    ensures r.1 == SERVER_ERROR <==> usersQueryFails
    ensures r.1 == OK <==> r.2.Some?
    ensures r.2.Some? ==>
              r.2.value.usersAnalyzed == Count(store, NotBlockedP())
              && r.2.value.blockedUsers + r.2.value.monitoredUsers == r.2.value.highRiskUsers
    ensures r.2.Some? ==>
              r.0.report.Some?
              && r.2.value.usersAnalyzed == |r.0.report.value.rows|
              && r.2.value.highRiskUsers == |r.0.report.value.flagged|
              && r.2.value.blockedUsers == r.0.report.value.summary.blockedUsers
              && r.2.value.monitoredUsers == r.0.report.value.summary.monitoredUsers
  {
    var out := PerformWeeklyAnalysis(st, store, logs, c, th, o, usersQueryFails, saveFails);
    match out.report
    case None => (out, SERVER_ERROR, None)
    case Some(rep) =>
      CountSplit(rep.flagged, BlockItemP(), MonitorItemP());
      (out, OK, Some(WeeklyCounts(|rep.rows|, |rep.flagged|, Count(rep.flagged, BlockItemP()),
                                 Count(rep.flagged, MonitorItemP()))))
  }
}
