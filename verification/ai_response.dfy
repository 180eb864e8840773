/** The tolerant reader of the external assessment's reply. The reply is asked
    to look like

      RISK_SCORE: <score>
      ANALYSIS: <two or three sentences>
      RECOMMENDATIONS:
      - <recommendation>
      - <recommendation>

    and each field is taken with its own case-insensitive regular expression,
    falling back to a fixed default when that expression finds nothing. The
    functions below follow the expressions' leftmost, backtracking matching
    exactly; labels are searched in the lower-cased reply, which has the same
    indices as the reply itself. */
module AIResponse {
  import opened Basics
  import opened Text

  const SCORE_LABEL: string := "risk_score:"
  const ANALYSIS_LABEL: string := "analysis:"
  const RECS_LABEL: string := "recommendations:"

  const DEFAULT_SCORE: real := 0.5
  const ANALYSIS_FAILED: string := "Analysis parsing failed"
  const MANUAL_REVIEW: string := "Manual review required"

  /** The three fields. `riskScore` is None where `parseFloat` yields NaN
      (a digit run such as "." or "..5" with no number at its start). */
  datatype Parsed = Parsed(riskScore: Option<real>, analysis: string, recommendations: seq<string>)

  // ---------------------------------------------------------------------------
  // Numbers: the `[0-9.]+` capture and `parseFloat`

  predicate IsDigit(c: char)
  {
    '0' <= c <= '9'
  }

  predicate IsNumChar(c: char)
  {
    IsDigit(c) || c == '.'
  }

  predicate AllDigits(d: string)
  {
    forall k :: 0 <= k < |d| ==> IsDigit(d[k])
  }

  /** Length of the run of `[0-9.]` characters starting at `i`. */
  function NumRun(s: string, i: nat): (n: nat)
    requires i <= |s|
    ensures i + n <= |s|
    ensures forall k :: i <= k < i + n ==> IsNumChar(s[k])
    ensures i + n == |s| || !IsNumChar(s[i + n])
    decreases |s| - i
  {
    if i < |s| && IsNumChar(s[i]) then 1 + NumRun(s, i + 1) else 0
  }

  /** Length of the run of decimal digits starting at `i`. */
  function DigitRun(s: string, i: nat): (n: nat)
    requires i <= |s|
    ensures i + n <= |s|
    ensures forall k :: i <= k < i + n ==> IsDigit(s[k])
    ensures i + n == |s| || !IsDigit(s[i + n])
    decreases |s| - i
  {
    if i < |s| && IsDigit(s[i]) then 1 + DigitRun(s, i + 1) else 0
  }

  /** Value of a string of decimal digits (leading zeros allowed). */
  function DigitsValue(d: string): nat
    requires AllDigits(d)
  {
    if |d| == 0 then 0 else DigitsValue(d[..|d| - 1]) * 10 + (d[|d| - 1] as int - '0' as int)
  }

  function Pow10(n: nat): (r: nat)
    ensures r >= 1
  {
    if n == 0 then 1 else 10 * Pow10(n - 1)
  }

  /** Value of the digits after a decimal point. */
  function FractionValue(d: string): real
    requires AllDigits(d)
  {
    DigitsValue(d) as real / Pow10(|d|) as real
  }

  /** Value of a decimal number written as integer digits, a dot and
      fraction digits; the fraction never makes it smaller. */
  function DecimalValue(whole: string, frac: string): (v: real)
    requires AllDigits(whole) && AllDigits(frac)
    ensures v >= DigitsValue(whole) as real
  {
    DigitsValue(whole) as real + FractionValue(frac)
  }

  /** `parseFloat` applied to a run of digits and dots: the integer digits,
      then, behind the first dot, the fraction digits up to the next dot or
      the end. NaN (None) when the run neither starts with a digit nor has a
      digit right behind its leading dot. */
  function ParseFloat(run: string): (r: Option<real>)
    requires forall k :: 0 <= k < |run| ==> IsNumChar(run[k])
    ensures r.None? <==> |run| == 0 || (run[0] == '.' && (|run| == 1 || run[1] == '.'))
    ensures r.Some? ==> r.value >= 0.0
  {
    var n := DigitRun(run, 0);
    var m := if n < |run| then DigitRun(run, n + 1) else 0;
    var frac := if n < |run| then run[n + 1..n + 1 + m] else "";
    assert n == 0 && |run| > 0 ==> !IsDigit(run[0 + n]) && IsNumChar(run[0]);
    assert n == 0 && m == 0 && |run| > 1 ==> !IsDigit(run[n + 1 + m]) && IsNumChar(run[1]);
    if n == 0 && m == 0 then None
    else Some(DecimalValue(run[..n], frac))
  }

  /** The score is read exactly as written, integer part and fraction, with
      no clamping to [0, 1]: "12.5" reads as 12.5. */
  lemma ParseFloatDecimal(ip: string, fp: string, rest: string)
    requires |ip| >= 1 && AllDigits(ip) && AllDigits(fp)
    requires forall k :: 0 <= k < |rest| ==> IsNumChar(rest[k])
    requires |rest| == 0 || rest[0] == '.'
    ensures ParseFloat(ip + "." + fp + rest) == Some(DecimalValue(ip, fp))
  {
    var run := ip + "." + fp + rest;
    var e := |ip| + 1 + |fp|;
    assert run[..|ip|] == ip && run[|ip|] == '.';
    assert run[|ip| + 1..e] == fp;
    assert e < |run| ==> run[e] == rest[0];
    forall k | 0 <= k < |run|
      ensures IsNumChar(run[k])
    {
      if k < |ip| {
        assert run[k] == ip[k];
      } else if k == |ip| {
      } else if k < e {
        assert run[k] == fp[k - |ip| - 1];
      } else {
        assert run[k] == rest[k - e];
      }
    }
    ParseFloatOf(run, ip, fp);
  }

  /** A number run laid out as integer digits, a dot, fraction digits, and
      then the end or another dot. */
  lemma ParseFloatOf(run: string, ip: string, fp: string)
    requires forall k :: 0 <= k < |run| ==> IsNumChar(run[k])
    requires |ip| >= 1 && AllDigits(ip) && AllDigits(fp)
    requires |ip| + 1 + |fp| <= |run| && run[..|ip|] == ip && run[|ip|] == '.'
    requires run[|ip| + 1..|ip| + 1 + |fp|] == fp
    requires |ip| + 1 + |fp| == |run| || run[|ip| + 1 + |fp|] == '.'
    ensures ParseFloat(run) == Some(DecimalValue(ip, fp))
  {
    assert run[0..|ip|] == ip;
    DigitRunOf(run, 0, ip);
    DigitRunOf(run, |ip| + 1, fp);
  }

  /** A digit run of a known shape: `d` is at `i` and is followed by a
      non-digit or the end. */
  lemma DigitRunOf(s: string, i: nat, d: string)
    requires i + |d| <= |s| && s[i..i + |d|] == d && AllDigits(d)
    requires i + |d| == |s| || !IsDigit(s[i + |d|])
    ensures DigitRun(s, i) == |d|
    decreases |d|
  {
    if |d| > 0 {
      assert s[i] == d[0];
      assert s[i + 1..i + 1 + |d[1..]|] == d[1..];
      DigitRunOf(s, i + 1, d[1..]);
    }
  }

  // ---------------------------------------------------------------------------
  // RISK_SCORE:\s*([0-9.]+)

  /** What the score expression captures when its label sits at `p`: the
      non-empty number run behind the label and any whitespace. */
  function ScoreRunAt(s: string, p: nat): (r: Option<string>)
    requires p + |SCORE_LABEL| <= |s|
    ensures r.Some? ==> |r.value| >= 1 && forall k :: 0 <= k < |r.value| ==> IsNumChar(r.value[k])
  {
    var q := p + |SCORE_LABEL|;
    var w := SpaceRun(s, q);
    var n := NumRun(s, q + w);
    if n == 0 then None else Some(s[q + w..q + w + n])
  }

  /** Leftmost match at or after `from`: the first label occurrence with a
      number behind it (an occurrence without one is skipped). */
  function FindScore(s: string, low: string, from: nat): (r: Option<string>)
    requires |low| == |s|
    ensures r.Some? ==> |r.value| >= 1 && forall k :: 0 <= k < |r.value| ==> IsNumChar(r.value[k])
    ensures FindFrom(low, SCORE_LABEL, from).None? ==> r.None?
    decreases |s| - from
  {
    match FindFrom(low, SCORE_LABEL, from)
    case None => None
    case Some(p) =>
      var r := ScoreRunAt(s, p);
      if r.Some? then r else FindScore(s, low, p + 1)
  }

  function ParseRiskScore(s: string): (r: Option<real>)
    ensures FindFrom(Lower(s), SCORE_LABEL, 0).None? ==> r == Some(DEFAULT_SCORE)
  {
    match FindScore(s, Lower(s), 0)
    case None => Some(DEFAULT_SCORE)
    case Some(run) => ParseFloat(run)
  }

  // ---------------------------------------------------------------------------
  // ANALYSIS:\s*(.+?)(?=\n|RECOMMENDATIONS:)   (flags i and s)

  /** The lookahead succeeds at `j`: a line feed or the recommendations label. */
  predicate IsLookahead(low: string, j: nat)
  {
    j < |low| && (low[j] == '\n' || StartsAt(low, j, RECS_LABEL))
  }

  /** First position at or after `from` where the lookahead succeeds. */
  function NextLookahead(low: string, from: nat): (r: Option<nat>)
    ensures r.Some? ==> from <= r.value < |low| && IsLookahead(low, r.value)
    ensures r.Some? ==> forall k :: from <= k < r.value ==> !IsLookahead(low, k)
    ensures r.None? ==> forall k :: from <= k < |low| ==> !IsLookahead(low, k)
    decreases |low| - from
  {
    if from >= |low| then None
    else if IsLookahead(low, from) then Some(from)
    else NextLookahead(low, from + 1)
  }

  /** With `v` whitespace characters taken behind the label end `q`, a
      capture of at least one character can end at a lookahead. */
  predicate CanEnd(low: string, q: nat, v: nat)
  {
    NextLookahead(low, q + v + 1).Some?
  }

  /** Backtracking over `\s*`: the longest whitespace prefix, at most `w`
      characters, behind which the lazy capture of at least one character can
      still end at a lookahead. */
  function CaptureStart(low: string, q: nat, w: nat): (r: Option<nat>)
    ensures r.Some? ==> r.value <= w && CanEnd(low, q, r.value)
    ensures r.Some? ==> forall v :: r.value < v <= w ==> !CanEnd(low, q, v)
    ensures r.None? ==> forall v :: 0 <= v <= w ==> !CanEnd(low, q, v)
    decreases w
  {
    if CanEnd(low, q, w) then Some(w)
    else if w == 0 then None
    else CaptureStart(low, q, w - 1)
  }

  /** What the analysis expression captures when its label sits at `p`. */
  function AnalysisAt(s: string, low: string, p: nat): (r: Option<string>)
    requires |low| == |s| && p + |ANALYSIS_LABEL| <= |s|
    ensures r.Some? ==> |r.value| >= 1
  {
    var q := p + |ANALYSIS_LABEL|;
    var w := SpaceRun(s, q);
    match CaptureStart(low, q, w)
    case None => None
    case Some(k) =>
      var j := NextLookahead(low, q + k + 1).value;
      Some(s[q + k..j])
  }

  function FindAnalysis(s: string, low: string, from: nat): (r: Option<string>)
    requires |low| == |s|
    ensures FindFrom(low, ANALYSIS_LABEL, from).None? ==> r.None?
    decreases |s| - from
  {
    match FindFrom(low, ANALYSIS_LABEL, from)
    case None => None
    case Some(p) =>
      var r := AnalysisAt(s, low, p);
      if r.Some? then r else FindAnalysis(s, low, p + 1)
  }

  /** The trimmed capture, or the failure text. */
  function ParseAnalysis(s: string): (r: string)
    ensures FindFrom(Lower(s), ANALYSIS_LABEL, 0).None? ==> r == ANALYSIS_FAILED
  {
    match FindAnalysis(s, Lower(s), 0)
    case None => ANALYSIS_FAILED
    case Some(c) => Trim(c)
  }

  // ---------------------------------------------------------------------------
  // RECOMMENDATIONS:\s*((?:- .+\n?)+)   (flags i and s)

  /** What the recommendations expression captures when its label sits at
      `p`: behind any whitespace, "- " and at least one more character; with
      the `s` flag `.+` runs to the end of the reply. */
  function RecsAt(s: string, p: nat): (r: Option<string>)
    requires p + |RECS_LABEL| <= |s|
    ensures r.Some? ==> |r.value| >= 3 && r.value[0] == '-' && r.value[1] == ' '
  {
    var b := p + |RECS_LABEL| + SpaceRun(s, p + |RECS_LABEL|);
    if b + 3 <= |s| && s[b] == '-' && s[b + 1] == ' ' then Some(s[b..]) else None
  }

  function FindRecs(s: string, low: string, from: nat): (r: Option<string>)
    requires |low| == |s|
    ensures r.Some? ==> |r.value| >= 3 && r.value[0] == '-' && r.value[1] == ' '
    ensures FindFrom(low, RECS_LABEL, from).None? ==> r.None?
    decreases |s| - from
  {
    match FindFrom(low, RECS_LABEL, from)
    case None => None
    case Some(p) =>
      var r := RecsAt(s, p);
      if r.Some? then r else FindRecs(s, low, p + 1)
  }

  /** JavaScript `t.substring(2)`. */
  function DropTwo(t: string): string
  {
    if |t| >= 2 then t[2..] else ""
  }

  predicate IsBullet(line: string)
  {
    var t := Trim(line);
    |t| > 0 && t[0] == '-'
  }

  /** The lines whose trimmed text starts with '-', each trimmed and with its
      first two characters dropped. */
  function BulletItems(lines: seq<string>): (r: seq<string>)
    ensures |r| <= |lines|
    ensures |r| == Count(lines, IsBulletP())
  {
    if |lines| == 0 then []
    else
      var last := lines[|lines| - 1];
      BulletItems(lines[..|lines| - 1]) + (if IsBullet(last) then [DropTwo(Trim(last))] else [])
  }

  function IsBulletP(): string -> bool
  {
    (line: string) => IsBullet(line)
  }

  /** A capture that starts with "- " yields at least one recommendation. */
  lemma FirstLineIsBullet(c: string)
    requires |c| >= 2 && c[0] == '-' && c[1] == ' '
    ensures IsBullet(Split(c, '\n')[0])
  {
    var i := FindFrom(c, ['\n'], 0);
    if i.Some? {
      if i.value == 0 {
        assert c[0..1] == ['\n'];
      }
    }
    var line := Split(c, '\n')[0];
    assert |line| >= 1 && line[0] == '-';
    assert SpaceRun(line, 0) == 0;
  }

  lemma {:induction false} BulletItemsNonEmpty(lines: seq<string>)
    requires |lines| >= 1 && IsBullet(lines[0])
    ensures |BulletItems(lines)| >= 1
  {
    CountAll(lines[..1], IsBulletP());
    assert lines == lines[..1] + lines[1..];
    CountAppend(lines[..1], lines[1..], IsBulletP());
  }

  function ParseRecommendations(s: string): (r: seq<string>)
    ensures |r| >= 1
    ensures FindFrom(Lower(s), RECS_LABEL, 0).None? ==> r == [MANUAL_REVIEW]
  {
    match FindRecs(s, Lower(s), 0)
    case None => [MANUAL_REVIEW]
    case Some(c) =>
      FirstLineIsBullet(c);
      BulletItemsNonEmpty(Split(c, '\n'));
      BulletItems(Split(c, '\n'))
  }

  /** `parseAIAnalysis`. A reply without content (a null message) makes the
      first match throw, and the handler returns all three defaults. Each
      field falls back to its own default when its label is absent, and the
      recommendations are never empty. */
  function ParseAIAnalysis(content: Option<string>): (r: Parsed)
    ensures content.None? ==> r == Parsed(Some(DEFAULT_SCORE), ANALYSIS_FAILED, [MANUAL_REVIEW])
    ensures content.Some? && FindFrom(Lower(content.value), SCORE_LABEL, 0).None? ==>
              r.riskScore == Some(DEFAULT_SCORE)
    ensures content.Some? && FindFrom(Lower(content.value), ANALYSIS_LABEL, 0).None? ==>
              r.analysis == ANALYSIS_FAILED
    ensures content.Some? && FindFrom(Lower(content.value), RECS_LABEL, 0).None? ==>
              r.recommendations == [MANUAL_REVIEW]
    ensures |r.recommendations| >= 1
    ensures r.riskScore.Some? ==> r.riskScore.value >= 0.0
  {
    match content
    case None => Parsed(Some(DEFAULT_SCORE), ANALYSIS_FAILED, [MANUAL_REVIEW])
    case Some(s) => Parsed(ParseRiskScore(s), ParseAnalysis(s), ParseRecommendations(s))
  }

  // ---------------------------------------------------------------------------
  // The requested format, and reading it back

  /** One line of text: non-empty, no line feed, no surrounding whitespace. */
  predicate OneLine(t: string)
  {
    |t| >= 1 && !IsSpace(t[0]) && !IsSpace(t[|t| - 1]) && '\n' !in t
  }

  function BulletLines(rs: seq<string>): (r: seq<string>)
    ensures |r| == |rs| && forall i :: 0 <= i < |rs| ==> r[i] == "- " + rs[i]
  {
    seq(|rs|, i requires 0 <= i < |rs| => "- " + rs[i])
  }

  function ScoreLine(num: string): string
  {
    "RISK_SCORE: " + num + "\n"
  }

  function AnalysisLine(a: string): string
  {
    "ANALYSIS: " + a + "\n"
  }

  function RecsBlock(rs: seq<string>): string
    requires |rs| >= 1
  {
    "RECOMMENDATIONS:\n" + Join(BulletLines(rs), '\n')
  }

  /** A reply in the format the prompt asks for, with the score written as
      integer digits, a dot and fraction digits. */
  function Render(ip: string, fp: string, a: string, rs: seq<string>): string
    requires |rs| >= 1
  {
    ScoreLine(ip + "." + fp) + AnalysisLine(a) + RecsBlock(rs)
  }

  /** Each rendered bullet line reads back as its recommendation. */
  lemma {:induction false} BulletItemsOfLines(rs: seq<string>)
    requires forall i :: 0 <= i < |rs| ==> OneLine(rs[i])
    ensures BulletItems(BulletLines(rs)) == rs
    decreases |rs|
  {
    if |rs| > 0 {
      var n := |rs|;
      var lines := BulletLines(rs);
      var last := lines[n - 1];
      assert lines[..n - 1] == BulletLines(rs[..n - 1]);
      BulletItemsOfLines(rs[..n - 1]);
      BulletLineReadsBack(rs[n - 1]);
      assert IsBullet(last) && DropTwo(Trim(last)) == rs[n - 1];
      assert BulletItems(lines) == rs[..n - 1] + [rs[n - 1]];
      Snoc(rs);
    }
  }

  lemma BulletLineReadsBack(r: string)
    requires OneLine(r)
    ensures IsBullet("- " + r) && DropTwo(Trim("- " + r)) == r
  {
    var line := "- " + r;
    BulletLineTrimmed(r);
    BulletOfTrimmed(line);
    assert line[2..] == r;
  }

  lemma BulletOfTrimmed(line: string)
    requires Trim(line) == line && |line| >= 1 && line[0] == '-'
    ensures IsBullet(line)
  {
  }

  lemma BulletLineTrimmed(r: string)
    requires OneLine(r)
    ensures Trim("- " + r) == "- " + r
  {
    var line := "- " + r;
    assert line[0] == '-';
    assert line[|line| - 1] == r[|r| - 1];
    TrimTrimmed(line);
  }

  lemma LowerScoreLabel(s: string, t: string)
    requires s == "RISK_SCORE: " + t
    ensures Lower(s)[..|SCORE_LABEL|] == SCORE_LABEL
  {
  }

  /** A reply opening with the score line reads its number run. */
  lemma ScoreOfLeadingLabel(num: string, t: string)
    requires |num| >= 1 && forall k :: 0 <= k < |num| ==> IsNumChar(num[k])
    requires IsDigit(num[0])
    ensures ParseRiskScore(ScoreLine(num) + t) == ParseFloat(num)
  {
    var s := ScoreLine(num) + t;
    assert s == "RISK_SCORE: " + (num + "\n" + t);
    var low := Lower(s);
    LowerScoreLabel(s, num + "\n" + t);
    assert StartsAt(low, 0, SCORE_LABEL);
    assert FindFrom(low, SCORE_LABEL, 0) == Some(0);
    assert s[11] == ' ' && s[12] == num[0];
    assert SpaceRun(s, 12) == 0;
    assert SpaceRun(s, 11) == 1;
    assert s[12 + |num|] == '\n';
    assert s[12..12 + |num|] == num;
    NumRunOf(s, 12, num);
    assert ScoreRunAt(s, 0) == Some(num);
  }

  lemma NumRunOf(s: string, i: nat, d: string)
    requires i + |d| <= |s| && s[i..i + |d|] == d
    requires forall k :: 0 <= k < |d| ==> IsNumChar(d[k])
    requires i + |d| == |s| || !IsNumChar(s[i + |d|])
    ensures NumRun(s, i) == |d|
    decreases |d|
  {
    if |d| > 0 {
      assert s[i] == d[0];
      assert s[i + 1..i + 1 + |d[1..]|] == d[1..];
      NumRunOf(s, i + 1, d[1..]);
    }
  }

  /** No lookahead position lies inside a line free of the recommendations
      label that is followed by a line feed. */
  lemma NoLookaheadInLine(low: string, lo: nat, la: string)
    requires lo + |la| < |low| && low[lo..lo + |la|] == la && low[lo + |la|] == '\n'
    requires '\n' !in la && FindFrom(la, RECS_LABEL, 0).None?
    ensures forall k :: lo <= k < lo + |la| ==> !IsLookahead(low, k)
  {
    forall k | lo <= k < lo + |la|
      ensures !IsLookahead(low, k)
    {
      NotLookaheadAt(low, lo, la, k);
    }
  }

  lemma NotLookaheadAt(low: string, lo: nat, la: string, k: nat)
    requires lo + |la| < |low| && low[lo..lo + |la|] == la && low[lo + |la|] == '\n'
    requires '\n' !in la && FindFrom(la, RECS_LABEL, 0).None?
    requires lo <= k < lo + |la|
    ensures !IsLookahead(low, k)
  {
    SliceOfSlice(low, lo, la, k - lo, k - lo + 1);
    assert low[k] == la[k - lo];
    if k + |RECS_LABEL| <= lo + |la| {
      LabelNotInside(low, lo, la, k);
    } else {
      LabelNotAcross(low, lo + |la|, k);
    }
  }

  /** A label window lying inside the line `la` is not the label. */
  lemma LabelNotInside(low: string, lo: nat, la: string, k: nat)
    requires lo + |la| <= |low| && low[lo..lo + |la|] == la
    requires FindFrom(la, RECS_LABEL, 0).None?
    requires lo <= k && k + |RECS_LABEL| <= lo + |la|
    ensures !StartsAt(low, k, RECS_LABEL)
  {
    SliceOfSlice(low, lo, la, k - lo, k - lo + |RECS_LABEL|);
    assert !StartsAt(la, k - lo, RECS_LABEL);
  }

  /** A label window that covers a line break is not the label. */
  lemma LabelNotAcross(low: string, e: nat, k: nat)
    requires e < |low| && low[e] == '\n' && k < e < k + |RECS_LABEL|
    ensures !StartsAt(low, k, RECS_LABEL)
  {
    if k + |RECS_LABEL| <= |low| {
      assert low[k..k + |RECS_LABEL|][e - k] == '\n';
      assert '\n' !in RECS_LABEL;
    }
  }

  /** The next lookahead from `from` is `e` when `e` is one and nothing
      between is. */
  lemma NextLookaheadIs(low: string, from: nat, e: nat)
    requires from <= e && IsLookahead(low, e)
    requires forall k :: from <= k < e ==> !IsLookahead(low, k)
    ensures NextLookahead(low, from) == Some(e)
  {
  }

  /** The analysis capture when the label at `p` (ending at `q`) is
      followed by one space and a line `a` that ends at the lookahead `e`. */
  lemma AnalysisAtLine(s: string, low: string, p: nat, q: nat, e: nat, a: string)
    requires |low| == |s| && q == p + |ANALYSIS_LABEL| && e == q + 1 + |a| && e <= |s|
    requires |a| >= 1
    requires SpaceRun(s, q) == 1
    requires s[q + 1..e] == a
    requires NextLookahead(low, q + 2) == Some(e)
    ensures AnalysisAt(s, low, p) == Some(a)
  {
    assert CanEnd(low, q, 1);
    assert CaptureStart(low, q, 1) == Some(1);
  }

  /** Behind a prefix that lacks a label and ends a line, the first label
      occurrence is where the remainder starts with it. */
  lemma LabelAfterPrefix(x: string, y: string, lab: string)
    requires |x| >= 1 && x[|x| - 1] == '\n' && '\n' !in lab
    requires FindFrom(Lower(x), lab, 0).None?
    requires |lab| <= |y| && Lower(y)[..|lab|] == lab
    ensures FindFrom(Lower(x + y), lab, 0) == Some(|x|)
  {
    LowerAppend(x, y);
    assert StartsAt(Lower(y), 0, lab);
    assert FindFrom(Lower(y), lab, 0) == Some(0);
    assert Lower(x)[|Lower(x)| - 1] == '\n';
    FindAfterPrefix(Lower(x), Lower(y), lab);
  }

  /** The lower-cased line contains no line feed either. */
  lemma LowerOneLine(a: string)
    requires '\n' !in a
    ensures '\n' !in Lower(a)
  {
    forall k | 0 <= k < |a| ensures Lower(a)[k] != '\n' {
      assert a[k] != '\n';
    }
  }

  /** Behind a label-free prefix ending a line, "ANALYSIS: " followed by one
      line reads as that line. */
  lemma AnalysisAfterPrefix(x: string, a: string, t: string)
    requires |x| >= 1 && x[|x| - 1] == '\n'
    requires FindFrom(Lower(x), ANALYSIS_LABEL, 0).None?
    requires OneLine(a) && FindFrom(Lower(a), RECS_LABEL, 0).None?
    ensures ParseAnalysis(x + (AnalysisLine(a) + t)) == a
  {
    var y := AnalysisLine(a) + t;
    var s := x + y;
    var low := Lower(s);
    var q := |x| + |ANALYSIS_LABEL|;
    var e := q + 1 + |a|;
    AnalysisLineLayout(x, a, t);
    assert FindFrom(low, ANALYSIS_LABEL, 0) == Some(|x|) by {
      LabelAfterPrefix(x, y, ANALYSIS_LABEL);
    }
    assert SpaceRun(s, q) == 1 by {
      assert SpaceRun(s, q + 1) == 0;
    }
    assert NextLookahead(low, q + 2) == Some(e) by {
      LowerOneLine(a);
      NoLookaheadInLine(low, q + 1, Lower(a));
      NextLookaheadIs(low, q + 2, e);
    }
    AnalysisAtLine(s, low, |x|, q, e, a);
    ParseAnalysisOf(s, |x|, a);
    TrimTrimmed(a);
  }

  /** Where the pieces of `x + "ANALYSIS: " + a + "\n" + t` lie. */
  lemma AnalysisLineLayout(x: string, a: string, t: string)
    requires OneLine(a)
    ensures var s := x + (AnalysisLine(a) + t);
            var q := |x| + |ANALYSIS_LABEL|;
            var e := q + 1 + |a|;
            && e < |s| && s[q] == ' ' && s[q + 1] == a[0] && s[q + 1..e] == a && s[e] == '\n'
            && Lower(s)[q + 1..e] == Lower(a) && Lower(s)[e] == '\n'
            && |ANALYSIS_LABEL| <= |AnalysisLine(a) + t|
            && Lower(AnalysisLine(a) + t)[..|ANALYSIS_LABEL|] == ANALYSIS_LABEL
  {
    var y := AnalysisLine(a) + t;
    var s := x + y;
    var q := |x| + |ANALYSIS_LABEL|;
    var e := q + 1 + |a|;
    assert y == "ANALYSIS: " + a + "\n" + t;
    assert s[|x|..] == y;
    assert y[9] == ' ' && y[10..10 + |a|] == a && y[10 + |a|] == '\n';
    assert s[q + 1..e] == a;
  }

  /** The analysis read from the first label occurrence's capture. */
  lemma ParseAnalysisOf(s: string, p: nat, c: string)
    requires p + |ANALYSIS_LABEL| <= |s|
    requires FindFrom(Lower(s), ANALYSIS_LABEL, 0) == Some(p)
    requires AnalysisAt(s, Lower(s), p) == Some(c)
    ensures ParseAnalysis(s) == Trim(c)
  {
    assert FindAnalysis(s, Lower(s), 0) == Some(c);
  }

  lemma BulletLineOneLine(r: string)
    requires OneLine(r)
    ensures '\n' !in "- " + r
  {
    assert forall k :: 0 <= k < |r| ==> ("- " + r)[k + 2] == r[k];
  }

  /** The recommendations capture when the label at `p` is followed by a line
      feed and the text `b`, which starts with "- " and one more character. */
  lemma RecsAtLine(s: string, p: nat, b: string)
    requires p + |RECS_LABEL| + 1 + |b| == |s|
    requires s[p + |RECS_LABEL|] == '\n' && s[p + |RECS_LABEL| + 1..] == b
    requires |b| >= 3 && b[0] == '-' && b[1] == ' '
    ensures RecsAt(s, p) == Some(b)
  {
    var q := p + |RECS_LABEL|;
    assert s[q + 1] == b[0];
    assert SpaceRun(s, q + 1) == 0;
    assert SpaceRun(s, q) == 1;
  }

  /** Behind a label-free prefix ending a line, "RECOMMENDATIONS:" and the
      bullet lines read as the recommendations. */
  lemma RecsAfterPrefix(x: string, rs: seq<string>)
    requires |x| >= 1 && x[|x| - 1] == '\n'
    requires FindFrom(Lower(x), RECS_LABEL, 0).None?
    requires |rs| >= 1 && forall i :: 0 <= i < |rs| ==> OneLine(rs[i])
    ensures ParseRecommendations(x + RecsBlock(rs)) == rs
  {
    var lines := BulletLines(rs);
    var b := Join(lines, '\n');
    var y := RecsBlock(rs);
    var s := x + y;
    var low := Lower(s);
    assert Lower(y)[..|RECS_LABEL|] == RECS_LABEL;
    LabelAfterPrefix(x, y, RECS_LABEL);
    JoinHead(lines, '\n');
    assert b[..|lines[0]|] == "- " + rs[0];
    assert b[0] == '-' && b[1] == ' ' && |b| >= 3;
    var q := |x| + |RECS_LABEL|;
    assert s[q] == '\n' && s[q + 1..] == b;
    RecsAtLine(s, |x|, b);
    assert FindRecs(s, low, 0) == Some(b);
    forall i | 0 <= i < |lines|
      ensures '\n' !in lines[i]
    {
      BulletLineOneLine(rs[i]);
    }
    SplitJoin(lines, '\n');
    BulletItemsOfLines(rs);
  }

  /** The score line "RISK_SCORE: <num>" and its line feed hold neither of the
      other two labels. */
  lemma ScoreLineLacksLabels(num: string)
    requires forall k :: 0 <= k < |num| ==> IsNumChar(num[k])
    ensures FindFrom(Lower("RISK_SCORE: " + num + "\n"), ANALYSIS_LABEL, 0).None?
    ensures FindFrom(Lower("RISK_SCORE: " + num + "\n"), RECS_LABEL, 0).None?
  {
    var line := "RISK_SCORE: " + num + "\n";
    var low := Lower(line);
    forall k | 0 <= k < |low|
      ensures low[k] != 'y' && low[k] != 'm'
    {
      if k < 12 {
        assert line[k] == "RISK_SCORE: "[k];
      } else if k < 12 + |num| {
        assert line[k] == num[k - 12];
      }
    }
    assert ANALYSIS_LABEL[4] == 'y';
    MissingChar(low, ANALYSIS_LABEL, 4);
    assert RECS_LABEL[4] == 'm';
    MissingChar(low, RECS_LABEL, 4);
  }

  /** The text ahead of the recommendations label holds no such label when the
      analysis line does not. */
  lemma HeaderLacksRecsLabel(num: string, a: string)
    requires forall k :: 0 <= k < |num| ==> IsNumChar(num[k])
    requires FindFrom(Lower(a), RECS_LABEL, 0).None?
    ensures FindFrom(Lower(ScoreLine(num) + AnalysisLine(a)), RECS_LABEL, 0).None?
  {
    var line := ScoreLine(num);
    var u1 := Lower(line);
    var u2 := Lower("ANALYSIS: ");
    var u3 := Lower(a);
    assert '\n' !in RECS_LABEL && ' ' !in RECS_LABEL;
    assert FindFrom(u1 + u2, RECS_LABEL, 0).None? by {
      ScoreLineLacksLabels(num);
      assert FindFrom(u2, RECS_LABEL, 0).None?;
      assert u1[|u1| - 1] == '\n';
      NoneAcross(u1, u2, RECS_LABEL);
    }
    assert FindFrom(u1 + u2 + u3, RECS_LABEL, 0).None? by {
      assert (u1 + u2)[|u1 + u2| - 1] == ' ';
      NoneAcross(u1 + u2, u3, RECS_LABEL);
    }
    assert FindFrom(u1 + u2 + u3 + "\n", RECS_LABEL, 0).None? by {
      assert FindFrom("\n", RECS_LABEL, 0).None?;
      NoneAcross(u1 + u2 + u3, "\n", RECS_LABEL);
    }
    HeaderLower(line, a);
  }

  lemma HeaderLower(line: string, a: string)
    ensures Lower(line + AnalysisLine(a)) == Lower(line) + Lower("ANALYSIS: ") + Lower(a) + "\n"
  {
    assert line + AnalysisLine(a) == line + "ANALYSIS: " + a + "\n";
    LowerAppend(line, "ANALYSIS: ");
    LowerAppend(line + "ANALYSIS: ", a);
    LowerAppend(line + "ANALYSIS: " + a, "\n");
  }

  lemma ParseAIAnalysisOf(s: string)
    ensures ParseAIAnalysis(Some(s)) == Parsed(ParseRiskScore(s), ParseAnalysis(s), ParseRecommendations(s))
  {
  }

  /** Reading back a reply written in the requested format gives exactly what
      was written: the score as a decimal number (not clamped to [0, 1]), the
      analysis line, and every recommendation in order. */
  lemma ParseRendered(ip: string, fp: string, a: string, rs: seq<string>)
    requires |ip| >= 1 && AllDigits(ip) && AllDigits(fp)
    requires OneLine(a) && FindFrom(Lower(a), RECS_LABEL, 0).None?
    requires |rs| >= 1 && forall i :: 0 <= i < |rs| ==> OneLine(rs[i])
    ensures ParseAIAnalysis(Some(Render(ip, fp, a, rs)))
         == Parsed(Some(DecimalValue(ip, fp)), a, rs)
  {
    RenderedFields(ip, fp, a, rs);
    ParseAIAnalysisOf(Render(ip, fp, a, rs));
  }

  lemma RenderedFields(ip: string, fp: string, a: string, rs: seq<string>)
    requires |ip| >= 1 && AllDigits(ip) && AllDigits(fp)
    requires OneLine(a) && FindFrom(Lower(a), RECS_LABEL, 0).None?
    requires |rs| >= 1 && forall i :: 0 <= i < |rs| ==> OneLine(rs[i])
    ensures ParseRiskScore(Render(ip, fp, a, rs)) == Some(DecimalValue(ip, fp))
    ensures ParseAnalysis(Render(ip, fp, a, rs)) == a
    ensures ParseRecommendations(Render(ip, fp, a, rs)) == rs
  {
    var num := ip + "." + fp;
    NumberText(ip, fp);
    var sl := ScoreLine(num);
    var al := AnalysisLine(a);
    var rb := RecsBlock(rs);
    assert Render(ip, fp, a, rs) == sl + al + rb;
    Assoc(sl, al, rb);
    assert ParseRiskScore(sl + (al + rb)) == Some(DecimalValue(ip, fp)) by {
      ScoreOfLeadingLabel(num, al + rb);
      ParseFloatDecimal(ip, fp, "");
      assert num == ip + "." + fp + "";
    }
    assert ParseAnalysis(sl + (al + rb)) == a by {
      ScoreLineLacksLabels(num);
      assert sl[|sl| - 1] == '\n';
      AnalysisAfterPrefix(sl, a, rb);
    }
    assert ParseRecommendations(sl + al + rb) == rs by {
      assert (sl + al)[|sl + al| - 1] == '\n';
      HeaderLacksRecsLabel(num, a);
      RecsAfterPrefix(sl + al, rs);
    }
  }

  /** The score text "<ip>.<fp>" is a run of number characters opening with
      a digit. */
  lemma NumberText(ip: string, fp: string)
    requires |ip| >= 1 && AllDigits(ip) && AllDigits(fp)
    ensures var num := ip + "." + fp;
            IsDigit(num[0]) && forall k :: 0 <= k < |num| ==> IsNumChar(num[k])
  {
    var num := ip + "." + fp;
    assert num[0] == ip[0];
    forall k | 0 <= k < |num| ensures IsNumChar(num[k]) {
      if k < |ip| { assert num[k] == ip[k]; }
      else if k > |ip| { assert num[k] == fp[k - |ip| - 1]; }
    }
  }
}
