/** The deterministic risk scorer: an additive score over a user's activity
    log, the address of the current request and the current local hour. Six
    heuristics each add a fixed weight and a reason; the result is suspicious
    when the score reaches 12. */
module RiskEngine {
  import opened Basics
  import opened Text
  import opened Domain

  const HOUR_MS: int := 3600000
  const SUSPICION_THRESHOLD: int := 12
  /** 2 + 3 + 1 + 8 + 5 + 15: every heuristic at its largest weight. */
  const MAX_SCORE: int := 34

  datatype Assessment = Assessment(score: int, suspicious: bool, reasons: seq<Reason>)

  /** The reasons the heuristics push; Text gives the source's wording. */
  datatype Reason =
    | LateHours | HighActivity | NewIp
    | ExcessiveDownloads | HighDownloads | ModerateDownloads
    | SuspiciousActions | CriticalExcessive | CriticalVeryHigh
  {
    function Text(): string
    {
      match this
      case LateHours => "Accessed system during very late hours"
      case HighActivity => "Very high activity within 1 hour"
      case NewIp => "Access from new IP address"
      case ExcessiveDownloads => "Excessive download frequency"
      case HighDownloads => "High download frequency"
      case ModerateDownloads => "Moderate download frequency"
      case SuspiciousActions => "Suspicious actions detected"
      case CriticalExcessive => "CRITICAL: Excessive downloads detected"
      case CriticalVeryHigh => "CRITICAL: Very high download frequency"
    }
  }

  /** The scorer's download match is case-sensitive. */
  predicate IsDownload(action: string)
  {
    Contains(action, "Download")
  }

  predicate IsSuspiciousAction(action: string)
  {
    Contains(action, "Failed Login") || Contains(action, "Unauthorized Access") || Contains(action, "Suspicious")
  }

  predicate IsRecent(e: LogEntry, now: int)
  {
    e.timestamp > now - HOUR_MS
  }

  function RecentP(now: int): LogEntry -> bool
  {
    (e: LogEntry) => IsRecent(e, now)
  }

  function RecentDownloadP(now: int): LogEntry -> bool
  {
    (e: LogEntry) => IsRecent(e, now) && IsDownload(e.action)
  }

  function RecentSuspiciousP(now: int): LogEntry -> bool
  {
    (e: LogEntry) => IsRecent(e, now) && IsSuspiciousAction(e.action)
  }

  /** The distinct addresses the user has been seen from. */
  function KnownIps(logs: seq<LogEntry>): set<string>
  {
    set e | e in logs :: e.ipAddress
  }

  /** What the heuristics observe in a log snapshot. */
  datatype Signals = Signals(offHours: bool, recent: nat, newIp: bool, downloads: nat, suspicious: nat)

  function Observe(logs: seq<LogEntry>, ip: string, now: int, hour: Hour): Signals
  {
    Signals(
      OffHours(hour),
      Count(logs, RecentP(now)),
      ip !in KnownIps(logs) && |KnownIps(logs)| > 3,
      Count(logs, RecentDownloadP(now)),
      Count(logs, RecentSuspiciousP(now)))
  }

  function OffHoursWeight(s: Signals): int { if s.offHours then 2 else 0 }
  function ActivityWeight(s: Signals): int { if s.recent > 10 then 3 else 0 }
  function NewIpWeight(s: Signals): int { if s.newIp then 1 else 0 }
  /** The three mutually exclusive download tiers. */
  function TierWeight(s: Signals): int
  {
    if s.downloads > 10 then 8 else if s.downloads > 5 then 5 else if s.downloads > 3 then 3 else 0
  }
  function SuspiciousWeight(s: Signals): int { if s.suspicious > 0 then 5 else 0 }
  /** The two critical tiers, added on top of the download tier. */
  function CriticalWeight(s: Signals): int
  {
    if s.downloads > 20 then 15 else if s.downloads > 15 then 12 else 0
  }

  /** The score is the sum of the triggered weights. */
  function Score(s: Signals): (r: int)
    ensures 0 <= r <= MAX_SCORE
  {
    OffHoursWeight(s) + ActivityWeight(s) + NewIpWeight(s) + TierWeight(s)
      + SuspiciousWeight(s) + CriticalWeight(s)
  }

  function TierReason(s: Signals): seq<Reason>
  {
    if s.downloads > 10 then [ExcessiveDownloads]
    else if s.downloads > 5 then [HighDownloads]
    else if s.downloads > 3 then [ModerateDownloads]
    else []
  }

  function CriticalReason(s: Signals): seq<Reason>
  {
    if s.downloads > 20 then [CriticalExcessive]
    else if s.downloads > 15 then [CriticalVeryHigh]
    else []
  }

  /** One reason per triggered heuristic, in the order the heuristics run. */
  function Reasons(s: Signals): seq<Reason>
  {
    (if s.offHours then [LateHours] else [])
    + (if s.recent > 10 then [HighActivity] else [])
    + (if s.newIp then [NewIp] else [])
    + TierReason(s)
    + (if s.suspicious > 0 then [SuspiciousActions] else [])
    + CriticalReason(s)
  }

  /** Number of heuristics that fire. */
  function Triggered(s: Signals): nat
  {
    (if OffHoursWeight(s) > 0 then 1 else 0) + (if ActivityWeight(s) > 0 then 1 else 0)
    + (if NewIpWeight(s) > 0 then 1 else 0) + (if TierWeight(s) > 0 then 1 else 0)
    + (if SuspiciousWeight(s) > 0 then 1 else 0) + (if CriticalWeight(s) > 0 then 1 else 0)
  }

  /** `evaluateRisk` over the user's log (any order: only counts and the set
      of addresses matter). An empty log is not an error: it scores zero. */
  function Evaluate(logs: seq<LogEntry>, ip: string, now: int, hour: Hour): (r: Assessment)
    ensures |logs| == 0 ==> r == Assessment(0, false, [])
    ensures 0 <= r.score <= MAX_SCORE
    ensures r.suspicious <==> r.score >= SUSPICION_THRESHOLD
  {
    if |logs| == 0 then Assessment(0, false, [])
    else
      var s := Observe(logs, ip, now, hour);
      Assessment(Score(s), Score(s) >= SUSPICION_THRESHOLD, Reasons(s))
  }

  /** Every triggered heuristic contributes exactly one reason, and every
      reason comes from a triggered heuristic. */
  lemma ReasonPerTrigger(s: Signals)
    ensures |Reasons(s)| == Triggered(s)
    ensures Triggered(s) == 0 <==> Score(s) == 0
  {
  }

  /** The off-hours weight applies iff the hour is before 06:00 or after
      22:00; the activity weight iff more than ten entries are from the last
      hour; the new-address weight iff the address is unseen among more than
      three known ones. */
  lemma HeuristicConditions(logs: seq<LogEntry>, ip: string, now: int, hour: Hour)
    requires |logs| > 0
    ensures LateHours in Evaluate(logs, ip, now, hour).reasons <==> hour < 6 || hour > 22
    ensures HighActivity in Evaluate(logs, ip, now, hour).reasons
            <==> Count(logs, RecentP(now)) > 10
    ensures NewIp in Evaluate(logs, ip, now, hour).reasons
            <==> ip !in KnownIps(logs) && |KnownIps(logs)| > 3
  {
    ReasonFlags(Observe(logs, ip, now, hour));
  }

  lemma ReasonFlags(s: Signals)
    ensures LateHours in Reasons(s) <==> s.offHours
    ensures HighActivity in Reasons(s) <==> s.recent > 10
    ensures NewIp in Reasons(s) <==> s.newIp
  {
    var a: seq<Reason> := if s.offHours then [LateHours] else [];
    var b: seq<Reason> := if s.recent > 10 then [HighActivity] else [];
    var c: seq<Reason> := if s.newIp then [NewIp] else [];
    var d: seq<Reason> := if s.suspicious > 0 then [SuspiciousActions] else [];
    var t := TierReason(s);
    var u := CriticalReason(s);
    assert Reasons(s) == a + b + c + t + d + u;
    assert forall x :: x in Reasons(s) <==> x in a || x in b || x in c || x in t || x in d || x in u;
  }

  /** More recent downloads never lower the score (the tiers only rise). */
  lemma DownloadsMonotone(s: Signals, d: nat)
    requires s.downloads <= d
    ensures Score(s) <= Score(s.(downloads := d))
  {
  }

  /** Raising any heuristic's trigger count, or turning a flag on, never
      lowers the score. */
  lemma ScoreMonotone(a: Signals, b: Signals)
    requires a.offHours ==> b.offHours
    requires a.newIp ==> b.newIp
    requires a.recent <= b.recent && a.downloads <= b.downloads && a.suspicious <= b.suspicious
    ensures Score(a) <= Score(b)
  {
  }

  /** An entry older than one hour from an address already known changes
      nothing: the download and suspicious-action heuristics look only at the
      last hour. */
  lemma {:induction false} StaleEntryIgnored(logs: seq<LogEntry>, e: LogEntry, ip: string, now: int, hour: Hour)
    requires |logs| > 0
    requires !IsRecent(e, now)
    requires e.ipAddress in KnownIps(logs)
    ensures Evaluate(logs + [e], ip, now, hour) == Evaluate(logs, ip, now, hour)
  {
    CountAppend(logs, [e], RecentP(now));
    CountAppend(logs, [e], RecentDownloadP(now));
    CountAppend(logs, [e], RecentSuspiciousP(now));
    assert KnownIps(logs + [e]) == KnownIps(logs);
  }

  /** One more last-hour download from a known address never lowers the
      score. */
  lemma {:induction false} RecentDownloadRaises(logs: seq<LogEntry>, e: LogEntry, ip: string, now: int, hour: Hour)
    requires |logs| > 0
    requires IsRecent(e, now) && IsDownload(e.action)
    requires e.ipAddress in KnownIps(logs)
    ensures Evaluate(logs, ip, now, hour).score <= Evaluate(logs + [e], ip, now, hour).score
  {
    CountAppend(logs, [e], RecentP(now));
    CountAppend(logs, [e], RecentDownloadP(now));
    CountAppend(logs, [e], RecentSuspiciousP(now));
    assert KnownIps(logs + [e]) == KnownIps(logs);
    ScoreMonotone(Observe(logs, ip, now, hour), Observe(logs + [e], ip, now, hour));
  }

  /** Twelve last-hour downloads from the current address, at a daytime
      hour, with nothing else: 8 for the download tier plus 3 for the
      activity volume is 11, below the threshold of 12. */
  lemma {:induction false} TwelveDownloadsNotSuspicious(logs: seq<LogEntry>, ip: string, now: int, hour: Hour)
    requires |logs| == 12
    requires 6 <= hour <= 22
    requires forall i :: 0 <= i < |logs| ==>
      && IsRecent(logs[i], now) && IsDownload(logs[i].action)
      && !IsSuspiciousAction(logs[i].action) && logs[i].ipAddress == ip
    ensures Evaluate(logs, ip, now, hour) == Assessment(11, false, [HighActivity, ExcessiveDownloads])
  {
    CountAll(logs, RecentP(now));
    CountAll(logs, RecentDownloadP(now));
    CountNone(logs, RecentSuspiciousP(now));
    assert logs[0] in logs;
    assert ip in KnownIps(logs);
  }

  /** The single pass of the scorer over the log: last-hour entries,
      last-hour downloads, last-hour suspicious actions and the distinct
      addresses, gathered together. */
  method Scan(logs: seq<LogEntry>, ip: string, now: int, hour: Hour) returns (s: Signals)
    ensures s == Observe(logs, ip, now, hour)
  {
    var recent, downloads, suspicious := 0, 0, 0;
    var ips: set<string> := {};
    var i := 0;
    while i < |logs|
      invariant 0 <= i <= |logs|
      invariant recent == Count(logs[..i], RecentP(now))
      invariant downloads == Count(logs[..i], RecentDownloadP(now))
      invariant suspicious == Count(logs[..i], RecentSuspiciousP(now))
      invariant ips == KnownIps(logs[..i])
    {
      var e := logs[i];
      assert logs[..i + 1][..i] == logs[..i];
      assert logs[..i + 1] == logs[..i] + [e];
      if IsRecent(e, now) {
        recent := recent + 1;
        if IsDownload(e.action) {
          downloads := downloads + 1;
        }
        if IsSuspiciousAction(e.action) {
          suspicious := suspicious + 1;
        }
      }
      ips := ips + {e.ipAddress};
      i := i + 1;
    }
    assert logs[..i] == logs;
    s := Signals(OffHours(hour), recent, ip !in ips && |ips| > 3, downloads, suspicious);
  }

  /** The scorer as the source writes it: each heuristic in turn adding its
      weight and pushing its reason. It computes exactly the declarative
      Evaluate. */
  method EvaluateRisk(logs: seq<LogEntry>, ip: string, now: int, hour: Hour) returns (r: Assessment)
    ensures r == Evaluate(logs, ip, now, hour)
  {
    if |logs| == 0 {
      return Assessment(0, false, []);
    }
    var s := Scan(logs, ip, now, hour);
    var score := 0;
    var reasons: seq<Reason> := [];
    if s.offHours {
      score, reasons := score + 2, reasons + [LateHours];
    }
    assert score == OffHoursWeight(s);
    if s.recent > 10 {
      score, reasons := score + 3, reasons + [HighActivity];
    }
    assert score == OffHoursWeight(s) + ActivityWeight(s);
    if s.newIp {
      score, reasons := score + 1, reasons + [NewIp];
    }
    ghost var head := reasons;
    assert head == (if s.offHours then [LateHours] else [])
      + (if s.recent > 10 then [HighActivity] else []) + (if s.newIp then [NewIp] else []);
    assert score == OffHoursWeight(s) + ActivityWeight(s) + NewIpWeight(s);
    if s.downloads > 10 {
      score, reasons := score + 8, reasons + [ExcessiveDownloads];
    } else if s.downloads > 5 {
      score, reasons := score + 5, reasons + [HighDownloads];
    } else if s.downloads > 3 {
      score, reasons := score + 3, reasons + [ModerateDownloads];
    }
    assert reasons == head + TierReason(s);
    if s.suspicious > 0 {
      score, reasons := score + 5, reasons + [SuspiciousActions];
    }
    assert reasons == head + TierReason(s) + (if s.suspicious > 0 then [SuspiciousActions] else []);
    assert score == OffHoursWeight(s) + ActivityWeight(s) + NewIpWeight(s) + TierWeight(s) + SuspiciousWeight(s);
    if s.downloads > 20 {
      score, reasons := score + 15, reasons + [CriticalExcessive];
    } else if s.downloads > 15 {
      score, reasons := score + 12, reasons + [CriticalVeryHigh];
    }
    r := Assessment(score, score >= SUSPICION_THRESHOLD, reasons);
  }
}
