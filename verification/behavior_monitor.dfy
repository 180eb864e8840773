/** The behaviour monitor: work hours, per-role daily download quotas, the
    weekly-violation and per-role risk-threshold block rules (both exempting
    Admin), the evaluation that merges them, and the consequence step, the one
    place in the request path that changes a user's block state. */
module BehaviorMonitor {
  import opened Basics
  import opened Text
  import opened Domain

  const WORK_START: int := 9
  const WORK_END: int := 17
  const WEEKLY_VIOLATION_LIMIT: nat := 3
  /** Entries above this stored score count as violations, and evaluations
      above it always notify. */
  const HIGH_RISK_CUTOFF: real := 0.7

  /** The per-role quota table; Admin has no entry. */
  function LimitEntry(role: Role): Option<nat>
  {
    match role
    case Manager => Some(10)
    case Analyst => Some(8)
    case Intern => Some(5)
    case Admin => None
  }

  /** `downloadLimits[role] || 5`. */
  function DownloadLimit(role: Role): nat
  {
    LimitEntry(role).GetOr(5)
  }

  /** The per-role blocking-threshold table; Admin has no entry. */
  function ThresholdEntry(role: Role): Option<real>
  {
    match role
    case Manager => Some(0.8)
    case Analyst => Some(0.8)
    case Intern => Some(1.5)
    case Admin => None
  }

  /** `blockingThresholds[role] || 1.0`. */
  function BlockingThreshold(role: Role): real
  {
    ThresholdEntry(role).GetOr(1.0)
  }

  /** Monday to Friday, 09:00 to 16:59. */
  predicate IsWorkHours(c: Clock)
  {
    1 <= c.weekday <= 5 && WORK_START <= c.hour < WORK_END
  }

  /** Work hours lie inside the risk scorer's daytime window. */
  lemma WorkHoursAreDaytime(c: Clock)
    ensures IsWorkHours(c) <==> 1 <= c.weekday <= 5 && 9 <= c.hour < 17
    ensures IsWorkHours(c) ==> 6 <= c.hour <= 22
  {
  }

  /** The regular expression `/download|access|modify/i`. */
  predicate IsViolationAction(action: string)
  {
    var a := Lower(action);
    Contains(a, "download") || Contains(a, "access") || Contains(a, "modify")
  }

  function TodayDownloadP(id: UserId, midnight: int): LogEntry -> bool
  {
    (e: LogEntry) => e.userId == id && MentionsDownload(e.action) && e.timestamp >= midnight
  }

  function ViolationP(id: UserId, weekAgo: int): LogEntry -> bool
  {
    (e: LogEntry) => e.userId == id && IsViolationAction(e.action)
                     && e.riskScore > HIGH_RISK_CUTOFF && e.timestamp >= weekAgo
  }

  /** Downloads of the user since local midnight, at any hour of the day. */
  function TodayDownloads(logs: seq<LogEntry>, id: UserId, c: Clock): nat
  {
    Count(logs, TodayDownloadP(id, c.midnight))
  }

  /** High-risk download/access/modify entries of the user in the last seven
      days. */
  function WeeklyViolations(logs: seq<LogEntry>, id: UserId, c: Clock): nat
  {
    Count(logs, ViolationP(id, c.weekAgo))
  }

  datatype DownloadCheck = DownloadCheck(exceeded: bool, current: nat, limit: nat)

  /** The quota applies only during work hours; outside them the check is a
      no-op reporting zero of zero. */
  function CheckDownloadLimit(logs: seq<LogEntry>, id: UserId, role: Role, c: Clock): (r: DownloadCheck)
    ensures !IsWorkHours(c) ==> r == DownloadCheck(false, 0, 0)
    ensures IsWorkHours(c) ==> r.current == TodayDownloads(logs, id, c) && r.limit == DownloadLimit(role)
    ensures r.exceeded <==> IsWorkHours(c) && r.current >= r.limit
  {
    if !IsWorkHours(c) then DownloadCheck(false, 0, 0)
    else
      var current := TodayDownloads(logs, id, c);
      var limit := DownloadLimit(role);
      DownloadCheck(current >= limit, current, limit)
  }

  /** The table's limits: Manager 10, Analyst 8, Intern 5, and Admin, absent
      from the table, the default 5. */
  lemma QuotaTable()
    ensures DownloadLimit(Manager) == 10 && DownloadLimit(Analyst) == 8
    ensures DownloadLimit(Intern) == 5 && DownloadLimit(Admin) == 5
  {
  }

  /** A logged download can only push a user over the quota, never back
      under it. */
  lemma {:induction false} QuotaMonotone(logs: seq<LogEntry>, e: LogEntry, id: UserId, role: Role, c: Clock)
    ensures CheckDownloadLimit(logs, id, role, c).exceeded ==> CheckDownloadLimit(logs + [e], id, role, c).exceeded
    ensures IsWorkHours(c) && TodayDownloadP(id, c.midnight)(e) ==>
            CheckDownloadLimit(logs + [e], id, role, c).current == CheckDownloadLimit(logs, id, role, c).current + 1
  {
    CountAppend(logs, [e], TodayDownloadP(id, c.midnight));
  }

  /** Admin is exempt; anyone else is blocked from the third violation. */
  function ShouldBlockForWeeklyViolations(logs: seq<LogEntry>, id: UserId, role: Role, c: Clock): (b: bool)
    ensures role == Admin ==> !b
    ensures role != Admin ==> (b <==> WeeklyViolations(logs, id, c) >= WEEKLY_VIOLATION_LIMIT)
  {
    if role == Admin then false else WeeklyViolations(logs, id, c) >= WEEKLY_VIOLATION_LIMIT
  }

  /** Exactly three qualifying entries in the week block a non-Admin user;
      two do not. */
  lemma {:induction false} WeeklyLimitBoundary(logs: seq<LogEntry>, id: UserId, role: Role, c: Clock)
    requires role != Admin
    requires |logs| == 3 || |logs| == 2
    requires forall i :: 0 <= i < |logs| ==> ViolationP(id, c.weekAgo)(logs[i])
    ensures ShouldBlockForWeeklyViolations(logs, id, role, c) <==> |logs| == 3
  {
    CountAll(logs, ViolationP(id, c.weekAgo));
  }

  /** Admin is exempt; anyone else is blocked at or above the role's
      threshold. */
  function ShouldBlockForRiskScore(role: Role, riskScore: real): (b: bool)
    ensures role == Admin ==> !b
    ensures role != Admin ==> (b <==> riskScore >= BlockingThreshold(role))
  {
    if role == Admin then false else riskScore >= BlockingThreshold(role)
  }

  /** The thresholds: Manager and Analyst block from 0.8, Intern from 1.5
      (never, on a normalised score), and Admin never. */
  lemma RiskThresholds(riskScore: real)
    ensures ShouldBlockForRiskScore(Manager, riskScore) <==> riskScore >= 0.8
    ensures ShouldBlockForRiskScore(Analyst, riskScore) <==> riskScore >= 0.8
    ensures ShouldBlockForRiskScore(Intern, riskScore) <==> riskScore >= 1.5
    ensures !ShouldBlockForRiskScore(Admin, riskScore)
  {
  }

  datatype Evaluation = Evaluation(shouldBlock: bool, shouldNotify: bool, reason: NoteReason, action: Action)

  /** The admin alerts an evaluation sends, by headline. */
  datatype Alert =
    | DownloadLimitAlert(current: nat, limit: nat)
    | WeeklyViolationAlert
    | BlockedForRiskAlert
    | HighRiskActivityAlert

  datatype Outcome = Outcome(eval: Evaluation, alerts: seq<Alert>)

  /** `evaluateBehavior`: the download quota (notify), the weekly-violation
      rule (block), the risk-threshold rule (block) and the always-notify
      cutoff, applied in that order to one result record. */
  function EvaluateBehavior(u: User, logs: seq<LogEntry>, action: string, riskScore: real, c: Clock): (r: Outcome)
    ensures r.eval.shouldBlock <==> ShouldBlockForWeeklyViolations(logs, u.id, u.role, c)
                                    || ShouldBlockForRiskScore(u.role, riskScore)
    ensures r.eval.action == (if r.eval.shouldBlock then Block else Monitor)
    ensures r.eval.shouldNotify <==>
              (riskScore > HIGH_RISK_CUTOFF
               || (MentionsDownload(action) && CheckDownloadLimit(logs, u.id, u.role, c).exceeded))
    ensures u.role == Admin ==> !r.eval.shouldBlock
    ensures r.eval.reason ==
      if ShouldBlockForRiskScore(u.role, riskScore) then RiskScoreAboveThreshold(riskScore, u.role)
      else if ShouldBlockForWeeklyViolations(logs, u.id, u.role, c) then WeeklyViolationLimit
      else if MentionsDownload(action) && CheckDownloadLimit(logs, u.id, u.role, c).exceeded then
        DownloadLimitExceeded(CheckDownloadLimit(logs, u.id, u.role, c).current, CheckDownloadLimit(logs, u.id, u.role, c).limit)
      else if riskScore > HIGH_RISK_CUTOFF then HighRiskActivity(riskScore)
      else NoReason
    ensures r.eval.shouldBlock ==> BlockedForRiskAlert in r.alerts || WeeklyViolationAlert in r.alerts
  {
    var r0 := Evaluation(false, false, NoReason, Monitor);
    var dc := CheckDownloadLimit(logs, u.id, u.role, c);
    var quota := MentionsDownload(action) && dc.exceeded;
    var r1 := if quota then r0.(shouldNotify := true, reason := DownloadLimitExceeded(dc.current, dc.limit)) else r0;
    var a1 := if quota then [DownloadLimitAlert(dc.current, dc.limit)] else [];
    var weekly := ShouldBlockForWeeklyViolations(logs, u.id, u.role, c);
    var r2 := if weekly then r1.(shouldBlock := true, reason := WeeklyViolationLimit, action := Block) else r1;
    var a2 := a1 + if weekly then [WeeklyViolationAlert] else [];
    var risky := ShouldBlockForRiskScore(u.role, riskScore);
    var r3 := if risky then r2.(shouldBlock := true, reason := RiskScoreAboveThreshold(riskScore, u.role), action := Block) else r2;
    var a3 := a2 + if risky then [BlockedForRiskAlert] else [];
    var high := riskScore > HIGH_RISK_CUTOFF;
    var r4 := if high then r3.(shouldNotify := true, reason := if r3.reason == NoReason then HighRiskActivity(riskScore) else r3.reason) else r3;
    var a4 := a3 + if high then [HighRiskActivityAlert] else [];
    Outcome(r4, a4)
  }

  /** `applyConsequences`: a block sets the flag and the time and appends one
      note carrying the evaluation's action; a notify-only evaluation appends
      one monitor note; anything else leaves the user as it was. */
  function ApplyConsequences(u: User, e: Evaluation, now: int): (r: User)
    ensures r.id == u.id && r.name == u.name && r.email == u.email && r.role == u.role
    ensures r.isBlocked == (u.isBlocked || e.shouldBlock)
    ensures r.blockedAt == if e.shouldBlock then Some(now) else u.blockedAt
    ensures |r.riskNotes| == |u.riskNotes| + (if e.shouldBlock || e.shouldNotify then 1 else 0)
    ensures r.riskNotes[..|u.riskNotes|] == u.riskNotes
    ensures e.shouldBlock ==> r.riskNotes[|u.riskNotes|] == RiskNote(e.reason, now, e.action)
    ensures !e.shouldBlock && e.shouldNotify ==> r.riskNotes[|u.riskNotes|] == RiskNote(e.reason, now, Monitor)
  {
    if e.shouldBlock then
      u.(isBlocked := true, blockedAt := Some(now), riskNotes := u.riskNotes + [RiskNote(e.reason, now, e.action)])
    else if e.shouldNotify then
      u.(riskNotes := u.riskNotes + [RiskNote(e.reason, now, Monitor)])
    else u
  }

  /** The pipeline's invariant on this path: evaluating and applying never
      blocks an Admin who was not blocked already, whatever the score or the
      log. */
  lemma AdminNeverBlocked(u: User, logs: seq<LogEntry>, action: string, riskScore: real, c: Clock)
    requires u.role == Admin && !u.isBlocked
    ensures !ApplyConsequences(u, EvaluateBehavior(u, logs, action, riskScore, c).eval, c.now).isBlocked
  {
  }

  /** A block recorded through the monitor always records the block action
      in its note. */
  lemma BlockNoteSaysBlock(u: User, logs: seq<LogEntry>, action: string, riskScore: real, c: Clock)
    requires EvaluateBehavior(u, logs, action, riskScore, c).eval.shouldBlock
    ensures var v := ApplyConsequences(u, EvaluateBehavior(u, logs, action, riskScore, c).eval, c.now);
            v.isBlocked && v.riskNotes[|v.riskNotes| - 1].action == Block
  {
  }
}
