/** The scheduler: its registered jobs and initialisation flag, the health
    check and the daily alert it drives, the monthly classification with its
    trends and report, and the failure handling of the weekly job. The cron
    timing itself is not modelled; a job is run by calling its handler. */
module Scheduler {
  import opened Basics
  import opened Domain
  import opened ThreatDetector
  import opened Aggregates

  // ---------------------------------------------------------------------------
  // Registered jobs
  // ---------------------------------------------------------------------------

  datatype Job = WeeklyAnalysisJob | DailyHealthCheckJob | MonthlyAnalysisJob
  {
    /** The job's key in the jobs map. */
    function Name(): string
    {
      match this
      case WeeklyAnalysisJob => "weeklyAnalysis"
      case DailyHealthCheckJob => "dailyHealthCheck"
      case MonthlyAnalysisJob => "monthlyAnalysis"
    }

    /** The cron expression it is scheduled with (UTC). */
    function Cron(): string
    {
      match this
      case WeeklyAnalysisJob => "0 2 * * 0"
      case DailyHealthCheckJob => "0 6 * * *"
      case MonthlyAnalysisJob => "0 3 1 * *"
    }
  }

  /** The order `initialize` schedules the jobs in. */
  const JOB_ORDER: seq<Job> := [WeeklyAnalysisJob, DailyHealthCheckJob, MonthlyAnalysisJob]
  const ALL_JOBS: set<Job> := {WeeklyAnalysisJob, DailyHealthCheckJob, MonthlyAnalysisJob}

  /** The jobs map (job to its cron expression) and the initialisation flag. */
  datatype SchedulerState = SchedulerState(jobs: map<Job, string>, isInitialized: bool)

  const STARTUP: SchedulerState := SchedulerState(map[], false)

  /** Every registered job carries its own expression, and an initialised
      scheduler has all three. */
  predicate WellFormed(st: SchedulerState)
  {
    (forall j :: j in st.jobs ==> st.jobs[j] == j.Cron())
    && (st.isInitialized ==> st.jobs.Keys == ALL_JOBS)
  }

  /** Registers the given jobs in order. */
  function Register(jobs: map<Job, string>, js: seq<Job>): (r: map<Job, string>)
    ensures r.Keys == jobs.Keys + (set j | j in js)
    ensures forall j :: j in r ==> r[j] == if j in js then j.Cron() else jobs[j]
    decreases |js|
  {
    if |js| == 0 then jobs else Register(jobs[js[0] := js[0].Cron()], js[1..])
  }

  /** `initialize`: a second call does nothing; otherwise the three jobs are
      registered in order and the flag set. `failAt` is the position of a
      scheduling call that throws, if any: the jobs registered before it
      stay, the flag stays unset, and the error is rethrown (false). */
  function Initialize(st: SchedulerState, failAt: Option<nat>): (r: (SchedulerState, bool))
    ensures WellFormed(st) ==> WellFormed(r.0)
    ensures st.isInitialized ==> r == (st, true)
    ensures !st.isInitialized && (failAt.None? || failAt.value >= |JOB_ORDER|) ==>
              r.1 && r.0.isInitialized && r.0.jobs.Keys == ALL_JOBS
    ensures !st.isInitialized && failAt.Some? && failAt.value < |JOB_ORDER| ==>
              !r.1 && !r.0.isInitialized && r.0.jobs.Keys == st.jobs.Keys + (set j | j in JOB_ORDER[..failAt.value])
  {
    if st.isInitialized then (st, true)
    else if failAt.Some? && failAt.value < |JOB_ORDER| then
      (st.(jobs := Register(st.jobs, JOB_ORDER[..failAt.value])), false)
    else
      (SchedulerState(RegisterAll(st.jobs), true), true)
  }

  /** Registering the whole schedule leaves exactly the three jobs, each with
      its own expression, whatever was registered before. */
  function RegisterAll(jobs: map<Job, string>): (r: map<Job, string>)
    ensures r.Keys == ALL_JOBS
    ensures forall j :: j in r ==> r[j] == j.Cron()
  {
    var r := Register(jobs, JOB_ORDER);
    assert r.Keys == ALL_JOBS && forall j :: j in r ==> r[j] == j.Cron() by {
      forall j: Job
        ensures j in r && r[j] == j.Cron()
      {
        InSchedule(j);
      }
      EveryJob();
    }
    r
  }

  /** Every job is in the schedule. */
  lemma InSchedule(j: Job)
    ensures j in JOB_ORDER
  {
    match j
    case WeeklyAnalysisJob => assert JOB_ORDER[0] == j;
    case DailyHealthCheckJob => assert JOB_ORDER[1] == j;
    case MonthlyAnalysisJob => assert JOB_ORDER[2] == j;
  }

  /** The three jobs are all the jobs there are. */
  lemma EveryJob()
    ensures forall j: Job :: j in ALL_JOBS
  {
    forall j: Job
      ensures j in ALL_JOBS
    {
      match j
      case WeeklyAnalysisJob =>
      case DailyHealthCheckJob =>
      case MonthlyAnalysisJob =>
    }
  }

  /** Initialising twice is initialising once. */
  lemma InitializeIdempotent(st: SchedulerState, f1: Option<nat>, f2: Option<nat>)
    requires Initialize(st, f1).1
    ensures Initialize(Initialize(st, f1).0, f2) == (Initialize(st, f1).0, true)
  {
  }

  /** `stopAll`: every job stopped and forgotten, the flag cleared. */
  function StopAll(st: SchedulerState): (r: SchedulerState)
    ensures r.jobs == map[] && !r.isInitialized
    ensures WellFormed(r)
  {
    SchedulerState(map[], false)
  }

  /** After a stop, a start registers the three jobs again. */
  lemma StopThenStart(st: SchedulerState)
    ensures var r := Initialize(StopAll(st), None);
            r.1 && r.0.isInitialized && r.0.jobs.Keys == ALL_JOBS
            && forall j :: j in r.0.jobs ==> r.0.jobs[j] == j.Cron()
  {
  }

  // ---------------------------------------------------------------------------
  // Health check
  // ---------------------------------------------------------------------------

  const DAY_MS: int := 86400000
  const BLOCKED_WARNING_LIMIT: nat := 10

  datatype Issue =
    | DatabaseNotReady
    | ApiKeyNotConfigured
    | EmailIncomplete
    | NoRecentLogs
    | ManyBlockedUsers(count: nat)
    | CheckError
  {
    /** Whether the issue makes the status unhealthy; the log and blocked-
        user issues are warnings. */
    predicate Critical()
    {
      !(this.NoRecentLogs? || this.ManyBlockedUsers?)
    }
  }

  function CriticalP(): Issue -> bool
  {
    (i: Issue) => i.Critical()
  }

  datatype HealthStatus = HealthStatus(isHealthy: bool, issues: seq<Issue>, criticalIssues: nat)

  /** What the check reads from its surroundings: the database connection,
      and the environment variables. */
  datatype Environment = Environment(dbReady: bool, apiKey: Option<string>, emailUser: Option<string>, emailPass: Option<string>)

  /** A JavaScript-truthy environment variable. */
  predicate Truthy(v: Option<string>)
  {
    v.Some? && v.value != ""
  }

  /** The status's invariant: healthy exactly when no critical issue was
      counted, and the counter is the number of critical issues. */
  predicate Consistent(h: HealthStatus)
  {
    (h.isHealthy <==> h.criticalIssues == 0) && h.criticalIssues == Count(h.issues, CriticalP())
  }

  /** Records one issue: a critical one clears the flag and bumps the
      counter, a warning is only listed. */
  function AddIssue(h: HealthStatus, i: Issue): (r: HealthStatus)
    requires Consistent(h)
    ensures Consistent(r)
    ensures r.isHealthy <==> h.isHealthy && !i.Critical()
    ensures r.issues == h.issues + [i]
  {
    if i.Critical() then HealthStatus(false, h.issues + [i], h.criticalIssues + 1)
    else HealthStatus(h.isHealthy, h.issues + [i], h.criticalIssues)
  }

  function RecentLogP(now: int): LogEntry -> bool
  {
    (e: LogEntry) => e.timestamp >= now - DAY_MS
  }

  function BlockedP(): User -> bool
  {
    (u: User) => u.isBlocked
  }

  /** The configuration checks, which cannot throw. */
  function ConfigChecks(env: Environment): (h: HealthStatus)
    ensures Consistent(h)
    ensures h.isHealthy <==> env.dbReady && Truthy(env.apiKey) && Truthy(env.emailUser) && Truthy(env.emailPass)
    ensures forall k :: 0 <= k < |h.issues| ==> ConfigIssue(h.issues[k])
  {
    var h1 := CheckStep(HealthStatus(true, [], 0), !env.dbReady, DatabaseNotReady);
    var h2 := CheckStep(h1, !Truthy(env.apiKey), ApiKeyNotConfigured);
    CheckStep(h2, !Truthy(env.emailUser) || !Truthy(env.emailPass), EmailIncomplete)
  }

  /** Each configuration issue is listed exactly when its check fails. */
  lemma ConfigChecksIssues(env: Environment)
    ensures var h := ConfigChecks(env);
            && (DatabaseNotReady in h.issues <==> !env.dbReady)
            && (ApiKeyNotConfigured in h.issues <==> !Truthy(env.apiKey))
            && (EmailIncomplete in h.issues <==> !Truthy(env.emailUser) || !Truthy(env.emailPass))
  {
    ConfigChecksList(env);
    ConfigListMembers(!env.dbReady, !Truthy(env.apiKey), !Truthy(env.emailUser) || !Truthy(env.emailPass));
  }

  /** The list the configuration checks build, in check order. */
  lemma ConfigChecksList(env: Environment)
    ensures ConfigChecks(env).issues == ConfigList(!env.dbReady, !Truthy(env.apiKey), !Truthy(env.emailUser) || !Truthy(env.emailPass))
  {
    var h1 := CheckStep(HealthStatus(true, [], 0), !env.dbReady, DatabaseNotReady);
    var h2 := CheckStep(h1, !Truthy(env.apiKey), ApiKeyNotConfigured);
    assert h2.issues == ConfigList(!env.dbReady, !Truthy(env.apiKey), false);
  }

  function ConfigList(db: bool, key: bool, mail: bool): seq<Issue>
  {
    (if db then [DatabaseNotReady] else []) + (if key then [ApiKeyNotConfigured] else [])
    + (if mail then [EmailIncomplete] else [])
  }

  /** Membership in the list the three configuration checks build. */
  lemma ConfigListMembers(db: bool, key: bool, mail: bool)
    ensures var s := ConfigList(db, key, mail);
            && (DatabaseNotReady in s <==> db)
            && (ApiKeyNotConfigured in s <==> key)
            && (EmailIncomplete in s <==> mail)
  {
  }

  /** An issue only the configuration checks raise. */
  predicate ConfigIssue(i: Issue)
  {
    i.Critical() && !i.CheckError?
  }

  /** One configuration check: records the configuration issue `i` when
      `bad`. */
  function CheckStep(h: HealthStatus, bad: bool, i: Issue): (r: HealthStatus)
    requires Consistent(h) && ConfigIssue(i)
    requires forall k :: 0 <= k < |h.issues| ==> ConfigIssue(h.issues[k])
    ensures Consistent(r)
    ensures r.isHealthy <==> h.isHealthy && !bad
    ensures forall k :: 0 <= k < |r.issues| ==> ConfigIssue(r.issues[k])
    ensures r.issues == h.issues + if bad then [i] else []
  {
    if bad then
      var r := AddIssue(h, i);
      assert forall k :: 0 <= k < |h.issues| ==> r.issues[k] == h.issues[k];
      r
    else h
  }

  /** `performHealthCheck`: the configuration checks, then the two count
      queries; a query that throws adds one critical error issue and skips
      what follows it. Healthy exactly when there is no critical issue. */
  function PerformHealthCheck(env: Environment, logs: seq<LogEntry>, store: seq<User>, now: int,
                              logsQueryFails: bool, usersQueryFails: bool): (h: HealthStatus)
    ensures Consistent(h)
    ensures h.criticalIssues <= |h.issues|
    ensures h.isHealthy <==>
              env.dbReady && Truthy(env.apiKey) && Truthy(env.emailUser) && Truthy(env.emailPass)
              && !logsQueryFails && !usersQueryFails
    ensures NoRecentLogs in h.issues <==> !logsQueryFails && Count(logs, RecentLogP(now)) == 0
    ensures ManyBlockedUsers(Count(store, BlockedP())) in h.issues <==>
              !logsQueryFails && !usersQueryFails && Count(store, BlockedP()) > BLOCKED_WARNING_LIMIT
  {
    var h := ConfigChecks(env);
    QueryWarnings(h, Count(logs, RecentLogP(now)), Count(store, BlockedP()), logsQueryFails, usersQueryFails);
    QueryChecks(h, Count(logs, RecentLogP(now)), Count(store, BlockedP()), logsQueryFails, usersQueryFails)
  }

  /** The two count queries on top of the configuration checks. */
  function QueryChecks(h: HealthStatus, recent: nat, blocked: nat, logsQueryFails: bool, usersQueryFails: bool): (r: HealthStatus)
    requires Consistent(h)
    ensures Consistent(r)
    ensures r.isHealthy <==> h.isHealthy && !logsQueryFails && !usersQueryFails
  {
    if logsQueryFails then AddIssue(h, CheckError)
    else
      var h' := if recent == 0 then AddIssue(h, NoRecentLogs) else h;
      if usersQueryFails then AddIssue(h', CheckError)
      else if blocked > BLOCKED_WARNING_LIMIT then AddIssue(h', ManyBlockedUsers(blocked))
      else h'
  }

  /** The two warnings of the count queries: no log in the last day, and
      more blocked users than the limit; a failing query suppresses those
      after it. */
  lemma QueryWarnings(h: HealthStatus, recent: nat, blocked: nat, logsQueryFails: bool, usersQueryFails: bool)
    requires Consistent(h)
    requires forall k :: 0 <= k < |h.issues| ==> ConfigIssue(h.issues[k])
    ensures var r := QueryChecks(h, recent, blocked, logsQueryFails, usersQueryFails);
            && (NoRecentLogs in r.issues <==> !logsQueryFails && recent == 0)
            && (ManyBlockedUsers(blocked) in r.issues <==>
                  !logsQueryFails && !usersQueryFails && blocked > BLOCKED_WARNING_LIMIT)
  {
    ConfigOnly(h.issues, blocked);
    if logsQueryFails {
      InAppend(h.issues, CheckError, NoRecentLogs);
      InAppend(h.issues, CheckError, ManyBlockedUsers(blocked));
    } else {
      var h' := if recent == 0 then AddIssue(h, NoRecentLogs) else h;
      InAppend(h.issues, NoRecentLogs, NoRecentLogs);
      InAppend(h.issues, NoRecentLogs, ManyBlockedUsers(blocked));
      var x := if usersQueryFails then CheckError else ManyBlockedUsers(blocked);
      InAppend(h'.issues, x, NoRecentLogs);
      InAppend(h'.issues, x, ManyBlockedUsers(blocked));
    }
  }

  /** The configuration checks raise neither of the query warnings. */
  lemma ConfigOnly(issues: seq<Issue>, n: nat)
    requires forall k :: 0 <= k < |issues| ==> ConfigIssue(issues[k])
    ensures NoRecentLogs !in issues && ManyBlockedUsers(n) !in issues
  {
  }

  lemma InAppend(s: seq<Issue>, x: Issue, y: Issue)
    ensures y in s + [x] <==> y in s || y == x
  {
  }

  /** Warnings alone never make the status unhealthy: with the configuration
      complete and both queries answering, the check is healthy whatever the
      log and the number of blocked users. */
  lemma WarningsStayHealthy(env: Environment, logs: seq<LogEntry>, store: seq<User>, now: int)
    requires env.dbReady && Truthy(env.apiKey) && Truthy(env.emailUser) && Truthy(env.emailPass)
    ensures PerformHealthCheck(env, logs, store, now, false, false).isHealthy
  {
  }

  /** The placeholder key passes the health check's key test although it
      never enables the service at start. */
  lemma PlaceholderPassesHealthCheck(env: Environment, logs: seq<LogEntry>, store: seq<User>, now: int)
    requires env.apiKey == Some(PLACEHOLDER_KEY)
    ensures ApiKeyNotConfigured !in PerformHealthCheck(env, logs, store, now, false, false).issues
    ensures !Serving(InitialState(env.apiKey))
  {
    ConfigChecksIssues(env);
  }

  /** The alerts the scheduler itself sends, with the score it attaches. */
  datatype SystemAlert = WeeklyAnalysisFailed | HealthCheckFailed(criticalIssues: nat)
  {
    function Score(): real
    {
      match this
      case WeeklyAnalysisFailed => 0.9
      case HealthCheckFailed(_) => 0.7
    }
  }

  /** The daily job's condition: unhealthy and at least one critical issue. */
  function DailyAlert(h: HealthStatus): (a: Option<SystemAlert>)
    requires Consistent(h)
    ensures a.Some? <==> !h.isHealthy
    ensures a.Some? ==> a.value == HealthCheckFailed(h.criticalIssues) && h.criticalIssues > 0
  {
    if !h.isHealthy && h.criticalIssues > 0 then Some(HealthCheckFailed(h.criticalIssues)) else None
  }

  /** The daily job: the check, and the alert it attempts. A failed mailing
      is swallowed, so the job never fails. */
  function DailyHealthJob(env: Environment, logs: seq<LogEntry>, store: seq<User>, now: int,
                          logsQueryFails: bool, usersQueryFails: bool): (a: Option<SystemAlert>)
    ensures a.Some? <==> PerformHealthCheck(env, logs, store, now, logsQueryFails, usersQueryFails).criticalIssues > 0
  {
    DailyAlert(PerformHealthCheck(env, logs, store, now, logsQueryFails, usersQueryFails))
  }

  // ---------------------------------------------------------------------------
  // Monthly analysis
  // ---------------------------------------------------------------------------

  const MONTHLY_FLAG: real := 0.7
  const MONTHLY_BLOCK: real := 0.8

  /** The monthly cutoffs are fixed at 0.7 and 0.8 and ignore the configured
      thresholds. */
  function MonthlyAction(score: real): (a: Option<Action>)
    ensures a == Some(Block) <==> score >= 0.8
    ensures a == Some(Monitor) <==> 0.7 <= score < 0.8
    ensures a.None? <==> score < 0.7
  {
    if score >= MONTHLY_FLAG then Some(if score >= MONTHLY_BLOCK then Block else Monitor) else None
  }

  function MonthlyDecider(): Decider
  {
    (x: real) => MonthlyAction(x)
  }

  /** A score the weekly run monitors under the default thresholds is not
      flagged at all by the monthly run. */
  lemma MonthlyDiffersFromWeekly()
    ensures WeeklyAction(0.65, DEFAULT_THRESHOLDS) == Some(Monitor)
    ensures MonthlyAction(0.65).None?
  {
  }

  datatype Trends = Trends(averageRiskScore: real, distribution: Distribution, roleBasedRisk: seq<RoleRisk>)

  function Observations(rows: seq<Row>): (o: seq<Obs>)
    ensures |o| == |rows|
  {
    seq(|rows|, i requires 0 <= i < |rows| => Obs(rows[i].user.role, rows[i].analysis.riskScore))
  }

  function RiskCount(b: seq<RoleRisk>): nat
  {
    if |b| == 0 then 0 else b[0].count + RiskCount(b[1..])
  }

  lemma {:induction false} RiskCountIsSumCount(b: seq<RoleRisk>, t: seq<RoleStat>)
    requires |b| == |t| && forall i :: 0 <= i < |b| ==> b[i].count == t[i].count
    ensures RiskCount(b) == SumCount(t)
    decreases |b|
  {
    if |b| > 0 {
      RiskCountIsSumCount(b[1..], t[1..]);
    }
  }

  /** `analyzeTrends`: all zero for no results; otherwise the mean score,
      the three buckets, which add up to the number of results, and the
      per-role breakdown, whose counts add up to it too. */
  function AnalyzeTrends(rows: seq<Row>): (t: Trends)
    ensures |rows| == 0 ==> t == Trends(0.0, Distribution(0, 0, 0), [])
    ensures t.distribution.low + t.distribution.medium + t.distribution.high == |rows|
    ensures RiskCount(t.roleBasedRisk) == |rows|
    ensures |rows| > 0 ==> t.roleBasedRisk == RoleBreakdown(Observations(rows))
    ensures t.distribution == Distribute(RowScores(rows))
    ensures |rows| > 0 ==> t.averageRiskScore == Average(RowScores(rows))
  {
    if |rows| == 0 then Trends(0.0, Distribution(0, 0, 0), [])
    else
      var scores := RowScores(rows);
      var b := RoleBreakdown(Observations(rows));
      RoleCountsTotal(rows);
      Trends(Average(scores), Distribute(scores), b)
  }

  /** The mean of a non-empty sequence: times the length, it gives back the
      sum. */
  function Average(xs: seq<real>): (m: real)
    requires |xs| > 0
    ensures m * |xs| as real == Sum(xs)
  {
    DivMul(Sum(xs), |xs| as real);
    Sum(xs) / |xs| as real
  }

  /** The per-role counts add up to the number of results. */
  lemma RoleCountsTotal(rows: seq<Row>)
    ensures RiskCount(RoleBreakdown(Observations(rows))) == |rows|
  {
    RiskCountIsSumCount(RoleBreakdown(Observations(rows)), Tally(Observations(rows)));
  }

  lemma DivMul(a: real, n: real)
    requires n > 0.0
    ensures (a / n) * n == a
  {
  }

  datatype MonthlyResult = MonthlyResult(rows: seq<Row>, flagged: seq<Flagged>, trends: Trends)

  /** `performMonthlyAnalysis`: the non-blocked users over a thirty-day
      window, flagged by the fixed cutoffs, and the trends. It returns no
      user records: nothing is saved. A failed user query rethrows (None). */
  function PerformMonthlyAnalysis(st: AIState, store: seq<User>, logs: seq<LogEntry>, monthAgo: int, now: int,
                                  th: Thresholds, o: Oracle, usersQueryFails: bool): (r: (AIState, Option<MonthlyResult>))
    ensures usersQueryFails ==> r == (st, None)
    ensures Coherent(st) ==> Coherent(r.0)
    ensures r.1.Some? ==>
              var m := r.1.value;
              |m.rows| == Count(store, NotBlockedP())
              && (forall i :: 0 <= i < |m.rows| ==> m.rows[i].user == Filter(store, NotBlockedP())[i])
              && FlagsExactly(m.rows, MonthlyDecider(), m.flagged)
              && (forall i :: 0 <= i < |m.flagged| ==>
                    m.flagged[i].analysis.riskScore >= 0.7
                    && (m.flagged[i].action == Block <==> m.flagged[i].analysis.riskScore >= 0.8))
              && m.trends == AnalyzeTrends(m.rows)
  {
    if usersQueryFails then (st, None)
    else
      var run := AnalyzeActive(st, store, logs, monthAgo, now, th, o);
      (run.0, Some(MonthlyOf(run.1)))
  }

  /** The monthly result of the analysed rows: those the fixed cutoffs flag,
      and the trends. */
  function MonthlyOf(rows: seq<Row>): (m: MonthlyResult)
    ensures m.rows == rows
    ensures FlagsExactly(rows, MonthlyDecider(), m.flagged)
    ensures forall i :: 0 <= i < |m.flagged| ==>
              m.flagged[i].analysis.riskScore >= 0.7
              && (m.flagged[i].action == Block <==> m.flagged[i].analysis.riskScore >= 0.8)
    ensures m.trends == AnalyzeTrends(rows)
  {
    MonthlyResult(rows, FlagRows(rows, MonthlyDecider()), AnalyzeTrends(rows))
  }

  /** The monthly run at the level of one user: the i-th non-blocked user of
      the store is flagged for blocking iff their score is at least 0.8, for
      monitoring iff it lies in [0.7, 0.8), and otherwise not at all. */
  lemma MonthlyFlagging(st: AIState, store: seq<User>, logs: seq<LogEntry>, monthAgo: int, now: int,
                        th: Thresholds, o: Oracle, i: nat)
    requires i < Count(store, NotBlockedP())
    ensures var m := PerformMonthlyAnalysis(st, store, logs, monthAgo, now, th, o, false).1.value;
            var row := m.rows[i];
            && row.user == Filter(store, NotBlockedP())[i]
            && (row.analysis.riskScore >= 0.8 <==> Flagged(row.user, row.analysis, Block) in m.flagged)
            && (0.7 <= row.analysis.riskScore < 0.8 <==> Flagged(row.user, row.analysis, Monitor) in m.flagged)
  {
    var m := PerformMonthlyAnalysis(st, store, logs, monthAgo, now, th, o, false).1.value;
    var row := m.rows[i];
    assert row in m.rows;
    FlaggedItemDecided(m.rows, MonthlyDecider(), m.flagged, Flagged(row.user, row.analysis, Block));
    FlaggedItemDecided(m.rows, MonthlyDecider(), m.flagged, Flagged(row.user, row.analysis, Monitor));
  }

  datatype MonthlyReport = MonthlyReport(
    totalSuspicious: nat, blockedUsers: nat, monitoredUsers: nat, violations: seq<Violation>, trends: Trends)

  /** `generateMonthlyReport`: the counts of the flagged users, which the
      block and monitor counts partition. A failed mailing is swallowed. */
  function GenerateMonthlyReport(m: MonthlyResult): (r: MonthlyReport)
    ensures r.totalSuspicious == |m.flagged| == |r.violations|
    ensures r.blockedUsers + r.monitoredUsers == r.totalSuspicious
    ensures r.blockedUsers == Count(m.flagged, BlockItemP())
    ensures r.monitoredUsers == Count(m.flagged, MonitorItemP())
    ensures r.trends == m.trends
  {
    CountSplit(m.flagged, BlockItemP(), MonitorItemP());
    MonthlyReport(|m.flagged|, Count(m.flagged, BlockItemP()), Count(m.flagged, MonitorItemP()),
                  Violations(m.flagged), m.trends)
  }

  /** The monthly job: the run and, when it succeeds, its report. A failed
      run is only logged. */
  function MonthlyJob(st: AIState, store: seq<User>, logs: seq<LogEntry>, monthAgo: int, now: int,
                      th: Thresholds, o: Oracle, usersQueryFails: bool): (r: (AIState, Option<MonthlyReport>))
    ensures r.1.Some? <==> !usersQueryFails
    ensures r.1.Some? ==> r.1.value.blockedUsers + r.1.value.monitoredUsers == r.1.value.totalSuspicious
    ensures r.1.Some? ==>
              var run := PerformMonthlyAnalysis(st, store, logs, monthAgo, now, th, o, usersQueryFails);
              && run.1.Some?
              && r.1.value.totalSuspicious == |run.1.value.flagged|
              && r.1.value.blockedUsers == Count(run.1.value.flagged, BlockItemP())
              && r.1.value.monitoredUsers == Count(run.1.value.flagged, MonitorItemP())
              && r.1.value.trends == run.1.value.trends
  {
    var (st', m) := PerformMonthlyAnalysis(st, store, logs, monthAgo, now, th, o, usersQueryFails);
    (st', if m.Some? then Some(GenerateMonthlyReport(m.value)) else None)
  }

  // ---------------------------------------------------------------------------
  // The weekly job
  // ---------------------------------------------------------------------------

  /** The weekly job: the run, and when the run throws, one attempted alert
      about the failure. Neither the run's error nor a mailing error leaves
      the job. */
  function WeeklyJob(st: AIState, store: seq<User>, logs: seq<LogEntry>, c: Clock, th: Thresholds,
                     o: Oracle, usersQueryFails: bool, saveFails: UserId -> bool): (r: (WeeklyOutcome, seq<SystemAlert>))
    ensures r.1 == if usersQueryFails then [WeeklyAnalysisFailed] else []
    ensures r.0.report.None? <==> usersQueryFails
    ensures r.0.saved == PerformWeeklyAnalysis(st, store, logs, c, th, o, usersQueryFails, saveFails).saved
  {
    var out := PerformWeeklyAnalysis(st, store, logs, c, th, o, usersQueryFails, saveFails);
    (out, if out.report.None? then [WeeklyAnalysisFailed] else [])
  }
}
