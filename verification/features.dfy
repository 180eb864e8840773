/** Feature extraction of the AI-assisted analyser: the summary it builds from
    a user's activity window (oldest first) before asking the external service
    or the fallback rules for a score. */
module Features {
  import opened Basics
  import opened Text
  import opened Domain

  const RAPID_MS: int := 60000

  datatype AccessPatterns = AccessPatterns(
    rapidSuccession: nat, unusualHours: nat, repetitiveActions: nat, mixedActions: nat)

  /** One entry of the action-frequency table (lower-cased action, count),
      kept in first-seen order. */
  datatype Bucket = Bucket(action: string, count: nat)

  datatype Summary = Summary(
    totalActivities: nat,
    uniqueActions: set<string>,
    hourly: seq<nat>,
    daily: seq<nat>,
    actionFrequency: seq<Bucket>,
    riskScores: seq<real>,
    workHoursActivity: nat,
    afterHoursActivity: nat,
    downloadActivity: nat,
    accessPatterns: AccessPatterns,
    ipAddresses: set<string>)

  function EqP(k: nat): nat -> bool
  {
    (x: nat) => x == k
  }

  /** A histogram with `bins` bins of the keys. Each bin holds the number of
      keys equal to its index. */
  function Histogram(keys: seq<nat>, bins: nat): (h: seq<nat>)
    requires forall i :: 0 <= i < |keys| ==> keys[i] < bins
    ensures |h| == bins
    ensures forall k :: 0 <= k < bins ==> h[k] == Count(keys, EqP(k))
  {
    if |keys| == 0 then seq(bins, _ => 0)
    else
      var h := Histogram(keys[..|keys| - 1], bins);
      var k := keys[|keys| - 1];
      h[k := h[k] + 1]
  }

  /** The bins of a histogram add up to the number of keys. */
  lemma {:induction false} HistogramTotal(keys: seq<nat>, bins: nat)
    requires forall i :: 0 <= i < |keys| ==> keys[i] < bins
    ensures Total(Histogram(keys, bins)) == |keys|
    decreases |keys|
  {
    if |keys| == 0 {
      TotalZeros(bins);
    } else {
      HistogramTotal(keys[..|keys| - 1], bins);
      TotalBump(Histogram(keys[..|keys| - 1], bins), keys[|keys| - 1]);
    }
  }

  function Hours(acts: seq<LogEntry>): (r: seq<nat>)
    ensures |r| == |acts| && forall i :: 0 <= i < |r| ==> r[i] < 24
  {
    seq(|acts|, i requires 0 <= i < |acts| => acts[i].hour as nat)
  }

  function Days(acts: seq<LogEntry>): (r: seq<nat>)
    ensures |r| == |acts| && forall i :: 0 <= i < |r| ==> r[i] < 7
  {
    seq(|acts|, i requires 0 <= i < |acts| => acts[i].weekday as nat)
  }

  /** `analyzeTimeDistribution`: 24 hourly and 7 daily bins, each set of
      bins summing to the number of entries. */
  lemma TimeDistributionTotals(acts: seq<LogEntry>)
    ensures |Histogram(Hours(acts), 24)| == 24 && Total(Histogram(Hours(acts), 24)) == |acts|
    ensures |Histogram(Days(acts), 7)| == 7 && Total(Histogram(Days(acts), 7)) == |acts|
  {
    HistogramTotal(Hours(acts), 24);
    HistogramTotal(Days(acts), 7);
  }

  /** Count stored in the first bucket for `k`, 0 if there is none. */
  function Lookup(f: seq<Bucket>, k: string): nat
  {
    if |f| == 0 then 0 else if f[0].action == k then f[0].count else Lookup(f[1..], k)
  }

  function SumCounts(f: seq<Bucket>): nat
  {
    if |f| == 0 then 0 else f[0].count + SumCounts(f[1..])
  }

  /** `frequency[a] = (frequency[a] || 0) + 1`. */
  function Bump(f: seq<Bucket>, a: string): (r: seq<Bucket>)
    ensures SumCounts(r) == SumCounts(f) + 1
    ensures forall k :: Lookup(r, k) == Lookup(f, k) + (if k == a then 1 else 0)
  {
    if |f| == 0 then [Bucket(a, 1)]
    else if f[0].action == a then [f[0].(count := f[0].count + 1)] + f[1..]
    else
      var r := [f[0]] + Bump(f[1..], a);
      assert r[1..] == Bump(f[1..], a);
      r
  }

  function LowerActionP(k: string): LogEntry -> bool
  {
    (e: LogEntry) => Lower(e.action) == k
  }

  /** `getActionFrequency`: occurrences of each lower-cased action. The
      counts add up to the number of entries, and each key's count is the
      number of entries whose lower-cased action is that key. */
  function ActionFrequency(acts: seq<LogEntry>): (f: seq<Bucket>)
    ensures SumCounts(f) == |acts|
    ensures forall k :: Lookup(f, k) == Count(acts, LowerActionP(k))
  {
    if |acts| == 0 then []
    else Bump(ActionFrequency(acts[..|acts| - 1]), Lower(acts[|acts| - 1].action))
  }

  /** Number of adjacent pairs (i-1, i) satisfying `p`. */
  function PairCount(acts: seq<LogEntry>, p: (LogEntry, LogEntry) -> bool): (n: nat)
    ensures |acts| >= 1 ==> n <= |acts| - 1
    ensures |acts| <= 1 ==> n == 0
  {
    if |acts| < 2 then 0
    else PairCount(acts[..|acts| - 1], p) + (if p(acts[|acts| - 2], acts[|acts| - 1]) then 1 else 0)
  }

  function RapidP(): (LogEntry, LogEntry) -> bool
  {
    (a: LogEntry, b: LogEntry) => b.timestamp - a.timestamp < RAPID_MS
  }

  function RepeatP(): (LogEntry, LogEntry) -> bool
  {
    (a: LogEntry, b: LogEntry) => a.action == b.action
  }

  function UnusualP(): LogEntry -> bool
  {
    (e: LogEntry) => OffHours(e.hour)
  }

  /** Off-hours entries, the first entry excluded (the source's loop starts
      at the second entry). */
  function UnusualCount(acts: seq<LogEntry>): (n: nat)
    ensures |acts| >= 1 ==> n <= |acts| - 1
  {
    if |acts| == 0 then 0 else Count(acts[1..], UnusualP())
  }

  function ActionSet(acts: seq<LogEntry>): set<string>
  {
    set e | e in acts :: e.action
  }

  function PatternsOf(acts: seq<LogEntry>): AccessPatterns
  {
    AccessPatterns(PairCount(acts, RapidP()), UnusualCount(acts), PairCount(acts, RepeatP()), |ActionSet(acts)|)
  }

  /** `analyzeAccessPatterns` as written: one loop from the second entry,
      comparing each entry with its predecessor, then the number of distinct
      (case-sensitive) actions. The three loop counters never exceed n - 1. */
  method AnalyzeAccessPatterns(acts: seq<LogEntry>) returns (p: AccessPatterns)
    ensures p == PatternsOf(acts)
    ensures |acts| >= 1 ==>
              p.rapidSuccession <= |acts| - 1 && p.unusualHours <= |acts| - 1 && p.repetitiveActions <= |acts| - 1
    ensures p.mixedActions == |ActionSet(acts)|
  {
    if |acts| == 0 {
      return AccessPatterns(0, 0, 0, 0);
    }
    var rapid, unusual, repetitive := 0, 0, 0;
    var i := 1;
    while i < |acts|
      invariant 1 <= i <= |acts|
      invariant rapid == PairCount(acts[..i], RapidP())
      invariant repetitive == PairCount(acts[..i], RepeatP())
      invariant unusual == Count(acts[1..i], UnusualP())
    {
      assert acts[..i + 1][..i] == acts[..i];
      assert acts[1..i + 1][..i - 1] == acts[1..i];
      if acts[i].timestamp - acts[i - 1].timestamp < RAPID_MS {
        rapid := rapid + 1;
      }
      if OffHours(acts[i].hour) {
        unusual := unusual + 1;
      }
      if acts[i].action == acts[i - 1].action {
        repetitive := repetitive + 1;
      }
      i := i + 1;
    }
    assert acts[..i] == acts;
    p := AccessPatterns(rapid, unusual, repetitive, |ActionSet(acts)|);
  }

  /** The first entry of the window is never counted as unusual, whatever its
      hour. */
  lemma FirstEntryNotUnusual(acts: seq<LogEntry>, e: LogEntry)
    requires |acts| >= 1
    ensures UnusualCount(acts[0 := e]) == UnusualCount(acts)
  {
    assert acts[0 := e][1..] == acts[1..];
  }

  function WorkP(): LogEntry -> bool
  {
    (e: LogEntry) => e.workHours
  }

  function AfterP(): LogEntry -> bool
  {
    (e: LogEntry) => !e.workHours
  }

  function DownloadP(): LogEntry -> bool
  {
    (e: LogEntry) => MentionsDownload(e.action)
  }

  function RiskScores(acts: seq<LogEntry>): (r: seq<real>)
    ensures |r| == |acts| && forall i :: 0 <= i < |acts| ==> r[i] == acts[i].riskScore
  {
    seq(|acts|, i requires 0 <= i < |acts| => acts[i].riskScore)
  }

  /** Distinct non-empty source addresses. */
  function IpAddresses(acts: seq<LogEntry>): set<string>
  {
    set e | e in acts && e.ipAddress != "" :: e.ipAddress
  }

  /** `prepareAnalysisData`: the summary of a window. Work-hours and
      after-hours counts partition the entries, downloads are among them, and
      the histograms and the frequency table each account for every entry. */
  function PrepareAnalysisData(acts: seq<LogEntry>): (s: Summary)
    ensures s.totalActivities == |acts|
    ensures s.workHoursActivity + s.afterHoursActivity == s.totalActivities
    ensures s.downloadActivity <= s.totalActivities
    ensures |s.hourly| == 24 && Total(s.hourly) == s.totalActivities
    ensures |s.daily| == 7 && Total(s.daily) == s.totalActivities
    ensures SumCounts(s.actionFrequency) == s.totalActivities
    ensures |s.riskScores| == s.totalActivities
    ensures s.accessPatterns == PatternsOf(acts)
  {
    CountSplit(acts, WorkP(), AfterP());
    TimeDistributionTotals(acts);
    Summary(
      |acts|,
      ActionSet(acts),
      Histogram(Hours(acts), 24),
      Histogram(Days(acts), 7),
      ActionFrequency(acts),
      RiskScores(acts),
      Count(acts, WorkP()),
      Count(acts, AfterP()),
      Count(acts, DownloadP()),
      PatternsOf(acts),
      IpAddresses(acts))
  }
}
