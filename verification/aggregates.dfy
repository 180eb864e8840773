/** The aggregates that the monthly trends and the insights endpoint compute
    over a set of analysis results: the three-bucket score distribution, the
    per-role count, total and average, and the ten highest-scoring users. */
module Aggregates {
  import opened Basics
  import opened Domain

  // ---------------------------------------------------------------------------
  // Score distribution
  // ---------------------------------------------------------------------------

  datatype Distribution = Distribution(low: nat, medium: nat, high: nat)

  predicate IsLow(x: real) { x < 0.4 }
  predicate IsMedium(x: real) { 0.4 <= x < 0.7 }
  predicate IsHigh(x: real) { x >= 0.7 }

  function LowP(): real -> bool { (x: real) => IsLow(x) }
  function MediumP(): real -> bool { (x: real) => IsMedium(x) }
  function HighP(): real -> bool { (x: real) => IsHigh(x) }

  /** The bucket loop: below 0.4 is low, below 0.7 medium, anything else
      high. Each bucket holds exactly the scores in its band, so the buckets
      add up to the number of scores. */
  function Distribute(scores: seq<real>): (d: Distribution)
    ensures d.low == Count(scores, LowP())
    ensures d.medium == Count(scores, MediumP())
    ensures d.high == Count(scores, HighP())
    ensures d.low + d.medium + d.high == |scores|
  {
    if |scores| == 0 then Distribution(0, 0, 0)
    else
      var d := Distribute(scores[..|scores| - 1]);
      var x := scores[|scores| - 1];
      if x < 0.4 then d.(low := d.low + 1)
      else if x < 0.7 then d.(medium := d.medium + 1)
      else d.(high := d.high + 1)
  }

  // ---------------------------------------------------------------------------
  // Per-role breakdown
  // ---------------------------------------------------------------------------

  /** One (role, score) observation. */
  datatype Obs = Obs(role: Role, score: real)

  /** A role's running count and score total, in first-seen order like the
      keys of a JavaScript object. */
  datatype RoleStat = RoleStat(role: Role, count: nat, totalScore: real)

  function RoleP(r: Role): Obs -> bool
  {
    (o: Obs) => o.role == r
  }

  /** The scores observed for role `r`, added up. */
  function RoleTotal(obs: seq<Obs>, r: Role): real
  {
    if |obs| == 0 then 0.0
    else RoleTotal(obs[..|obs| - 1], r) + (if obs[|obs| - 1].role == r then obs[|obs| - 1].score else 0.0)
  }

  function CountOf(stats: seq<RoleStat>, r: Role): nat
  {
    if |stats| == 0 then 0 else if stats[0].role == r then stats[0].count else CountOf(stats[1..], r)
  }

  function TotalOf(stats: seq<RoleStat>, r: Role): real
  {
    if |stats| == 0 then 0.0 else if stats[0].role == r then stats[0].totalScore else TotalOf(stats[1..], r)
  }

  function SumCount(stats: seq<RoleStat>): nat
  {
    if |stats| == 0 then 0 else stats[0].count + SumCount(stats[1..])
  }

  predicate DistinctRoles(stats: seq<RoleStat>)
  {
    forall i, j :: 0 <= i < j < |stats| ==> stats[i].role != stats[j].role
  }

  /** Counting one more observation: its role's entry gains one and its
      score, or a new entry is appended. */
  function Record(stats: seq<RoleStat>, o: Obs): (r: seq<RoleStat>)
    requires DistinctRoles(stats)
    ensures DistinctRoles(r)
    ensures SumCount(r) == SumCount(stats) + 1
    ensures forall x :: CountOf(r, x) == CountOf(stats, x) + (if x == o.role then 1 else 0)
    ensures forall x :: TotalOf(r, x) == TotalOf(stats, x) + (if x == o.role then o.score else 0.0)
    ensures |r| >= |stats|
    ensures forall i :: 0 <= i < |stats| ==> r[i].role == stats[i].role && r[i].count >= stats[i].count
    ensures forall i :: |stats| <= i < |r| ==> r[i].role == o.role && r[i].count == 1
  {
    if |stats| == 0 then [RoleStat(o.role, 1, o.score)]
    else if stats[0].role == o.role then
      [stats[0].(count := stats[0].count + 1, totalScore := stats[0].totalScore + o.score)] + stats[1..]
    else
      var rest := Record(stats[1..], o);
      var r := [stats[0]] + rest;
      assert r[1..] == rest;
      assert forall i :: 0 < i < |r| ==> r[i].role == rest[i - 1].role;
      r
  }

  /** The per-role accumulation: one entry per role present, none empty,
      counts adding up to the number of observations, and each role's count
      and total those of its own observations. */
  function Tally(obs: seq<Obs>): (stats: seq<RoleStat>)
    ensures DistinctRoles(stats)
    ensures forall i :: 0 <= i < |stats| ==> stats[i].count >= 1
    ensures SumCount(stats) == |obs|
    ensures forall x :: CountOf(stats, x) == Count(obs, RoleP(x))
    ensures forall x :: TotalOf(stats, x) == RoleTotal(obs, x)
  {
    if |obs| == 0 then []
    else Record(Tally(obs[..|obs| - 1]), obs[|obs| - 1])
  }

  /** A role's entry with its average. */
  datatype RoleRisk = RoleRisk(role: Role, count: nat, totalScore: real, averageScore: real)

  /** The average times the count gives back the total. */
  function WithAverage(t: RoleStat): (r: RoleRisk)
    requires t.count >= 1
    ensures r.role == t.role && r.count == t.count && r.totalScore == t.totalScore
    ensures r.averageScore * r.count as real == r.totalScore
  {
    RoleRisk(t.role, t.count, t.totalScore, t.totalScore / t.count as real)
  }

  /** Each role's entry with its average (see WithAverage); the count is
      never zero, so the division is always defined. */
  function RoleBreakdown(obs: seq<Obs>): (b: seq<RoleRisk>)
    ensures |b| == |Tally(obs)|
    ensures forall i :: 0 <= i < |b| ==>
              b[i].role == Tally(obs)[i].role && b[i].count == Tally(obs)[i].count >= 1
              && b[i].totalScore == Tally(obs)[i].totalScore
    ensures forall i :: 0 <= i < |b| ==> b[i] == WithAverage(Tally(obs)[i])
  {
    var t := Tally(obs);
    var b := seq(|t|, i requires 0 <= i < |t| => WithAverage(t[i]));
    b
  }

  /** The entry of role `x`, if any, is at the index where its count sits. */
  lemma {:induction false} CountOfPresent(stats: seq<RoleStat>, x: Role)
    requires forall i :: 0 <= i < |stats| ==> stats[i].count >= 1
    ensures CountOf(stats, x) > 0 <==> exists i :: 0 <= i < |stats| && stats[i].role == x
    decreases |stats|
  {
    if |stats| > 0 {
      CountOfPresent(stats[1..], x);
      if stats[0].role != x && CountOf(stats, x) > 0 {
        var i :| 0 <= i < |stats[1..]| && stats[1..][i].role == x;
        assert stats[i + 1].role == x;
      }
      if stats[0].role != x && (exists i :: 0 <= i < |stats| && stats[i].role == x) {
        var i :| 0 <= i < |stats| && stats[i].role == x;
        assert stats[1..][i - 1].role == x;
      }
    }
  }

  /** A role appears in the breakdown exactly when some observation has it. */
  lemma RolePresent(obs: seq<Obs>, x: Role)
    ensures (exists i :: 0 <= i < |Tally(obs)| && Tally(obs)[i].role == x) <==> Count(obs, RoleP(x)) > 0
  {
    CountOfPresent(Tally(obs), x);
  }

  // ---------------------------------------------------------------------------
  // Ranking
  // ---------------------------------------------------------------------------

  /** One user's line in the ranking. */
  datatype Ranked = Ranked(id: UserId, name: string, email: string, role: Role, riskScore: real, analysis: string)

  predicate Descending(s: seq<Ranked>)
  {
    forall i, j :: 0 <= i < j < |s| ==> s[i].riskScore >= s[j].riskScore
  }

  /** Places `x` after every entry scoring at least as much, so equal scores
      keep their arrival order. */
  function Insert(x: Ranked, s: seq<Ranked>): (r: seq<Ranked>)
    requires Descending(s)
    ensures Descending(r)
    ensures multiset(r) == multiset(s) + multiset{x}
  {
    if |s| == 0 then [x]
    else if s[0].riskScore >= x.riskScore then
      var rest := Insert(x, s[1..]);
      assert s == [s[0]] + s[1..];
      BoundedByHead(x, s, rest);
      [s[0]] + rest
    else
      assert s == [s[0]] + s[1..];
      [x] + s
  }

  /** A permutation of the tail plus an entry scoring no more than the head
      scores no more than the head. */
  lemma BoundedByHead(x: Ranked, s: seq<Ranked>, rest: seq<Ranked>)
    requires Descending(s) && |s| > 0 && s[0].riskScore >= x.riskScore
    requires multiset(rest) == multiset(s[1..]) + multiset{x}
    ensures forall j :: 0 <= j < |rest| ==> rest[j].riskScore <= s[0].riskScore
  {
    forall j | 0 <= j < |rest|
      ensures rest[j].riskScore <= s[0].riskScore
    {
      assert rest[j] in multiset(rest);
      if rest[j] != x {
        assert rest[j] in multiset(s[1..]);
        var m :| 0 <= m < |s[1..]| && s[1..][m] == rest[j];
        assert s[m + 1] == rest[j];
      }
    }
  }

  /** The comparator sort `(a, b) => b.riskScore - a.riskScore` on a stable
      sort: descending by score, a permutation of its input. */
  function SortByRisk(s: seq<Ranked>): (r: seq<Ranked>)
    ensures Descending(r)
    ensures multiset(r) == multiset(s)
    ensures |r| == |s|
  {
    if |s| == 0 then []
    else
      Snoc(s);
      assert multiset(s) == multiset(s[..|s| - 1]) + multiset{s[|s| - 1]} by {
        assert s == s[..|s| - 1] + [s[|s| - 1]];
      }
      Insert(s[|s| - 1], SortByRisk(s[..|s| - 1]))
  }

  function ScoreIsP(k: real): Ranked -> bool
  {
    (x: Ranked) => x.riskScore == k
  }

  /** Inserting `x` adds it after the entries with its score. */
  lemma {:induction false} FilterInsert(x: Ranked, s: seq<Ranked>, k: real)
    requires Descending(s)
    ensures Filter(Insert(x, s), ScoreIsP(k)) == Filter(s, ScoreIsP(k)) + Filter([x], ScoreIsP(k))
    decreases |s|
  {
    if |s| == 0 {
    } else if s[0].riskScore >= x.riskScore {
      FilterInsert(x, s[1..], k);
      FilterInsertHead(x, s, k);
    } else {
      FilterInsertFront(x, s, k);
    }
  }

  lemma FilterInsertHead(x: Ranked, s: seq<Ranked>, k: real)
    requires Descending(s) && |s| > 0 && s[0].riskScore >= x.riskScore
    requires Filter(Insert(x, s[1..]), ScoreIsP(k)) == Filter(s[1..], ScoreIsP(k)) + Filter([x], ScoreIsP(k))
    ensures Filter(Insert(x, s), ScoreIsP(k)) == Filter(s, ScoreIsP(k)) + Filter([x], ScoreIsP(k))
  {
    var tail := Insert(x, s[1..]);
    assert Insert(x, s) == [s[0]] + tail;
    assert [s[0]] + s[1..] == s;
    FilterHeadStep(s[0], tail, s[1..], [x], ScoreIsP(k));
  }

  /** A common head does not disturb a filtered equation. */
  lemma FilterHeadStep<T>(h: T, t: seq<T>, u: seq<T>, v: seq<T>, p: T -> bool)
    requires Filter(t, p) == Filter(u, p) + Filter(v, p)
    ensures Filter([h] + t, p) == Filter([h] + u, p) + Filter(v, p)
  {
    var c: seq<T> := if p(h) then [h] else [];
    FilterCons(h, t, p);
    FilterCons(h, u, p);
    Assoc(c, Filter(u, p), Filter(v, p));
  }

  /** Filtering an element followed by a tail. */
  lemma FilterCons<T>(h: T, t: seq<T>, p: T -> bool)
    ensures Filter([h] + t, p) == (if p(h) then [h] else []) + Filter(t, p)
  {
    var one := [h];
    assert one[..|one| - 1] == [];
    assert Filter(one, p) == (if p(h) then [h] else []);
    FilterAppend(one, t, p);
  }

  lemma FilterInsertFront(x: Ranked, s: seq<Ranked>, k: real)
    requires Descending(s) && |s| > 0 && s[0].riskScore < x.riskScore
    ensures Filter(Insert(x, s), ScoreIsP(k)) == Filter(s, ScoreIsP(k)) + Filter([x], ScoreIsP(k))
  {
    var p := ScoreIsP(k);
    assert Insert(x, s) == [x] + s;
    FilterAppend([x], s, p);
    if x.riskScore == k {
      NoneWithScore(s, k);
    } else {
      assert Filter([x], p) == [];
    }
  }

  /** No entry of a descending sequence headed below `k` scores `k`. */
  lemma NoneWithScore(s: seq<Ranked>, k: real)
    requires Descending(s) && |s| > 0 && s[0].riskScore < k
    ensures Filter(s, ScoreIsP(k)) == []
  {
    CountNone(s, ScoreIsP(k));
  }

  /** The sort is stable: the entries of any one score come out in the order
      they went in. */
  lemma {:induction false} SortStable(s: seq<Ranked>, k: real)
    ensures Filter(SortByRisk(s), ScoreIsP(k)) == Filter(s, ScoreIsP(k))
    decreases |s|
  {
    if |s| > 0 {
      var front := s[..|s| - 1];
      SortStable(front, k);
      FilterInsert(s[|s| - 1], SortByRisk(front), k);
      Snoc(s);
      FilterAppend(front, [s[|s| - 1]], ScoreIsP(k));
    }
  }

  const TOP_N: nat := 10

  /** The first ten of the ranking: at most ten entries, descending, drawn
      from the input, and none of the entries left out scores above any
      entry kept. */
  function TopRiskUsers(s: seq<Ranked>): (r: seq<Ranked>)
    ensures |r| == if |s| < TOP_N then |s| else TOP_N
    ensures Descending(r)
    ensures multiset(r) <= multiset(s)
    ensures forall y, i :: y in multiset(s) - multiset(r) && 0 <= i < |r| ==> y.riskScore <= r[i].riskScore
  {
    var sorted := SortByRisk(s);
    var k := if |s| < TOP_N then |s| else TOP_N;
    PrefixDominates(sorted, k);
    sorted[..k]
  }

  /** In a descending sequence, a prefix is a sub-multiset and nothing
      outside it scores above anything in it. */
  lemma PrefixDominates(sorted: seq<Ranked>, k: nat)
    requires Descending(sorted) && k <= |sorted|
    ensures Descending(sorted[..k])
    ensures multiset(sorted[..k]) <= multiset(sorted)
    ensures forall y, i :: y in multiset(sorted) - multiset(sorted[..k]) && 0 <= i < k ==>
              y.riskScore <= sorted[..k][i].riskScore
  {
    var r := sorted[..k];
    assert sorted == r + sorted[k..];
    assert multiset(sorted) == multiset(r) + multiset(sorted[k..]);
    forall y, i | y in multiset(sorted) - multiset(r) && 0 <= i < k
      ensures y.riskScore <= r[i].riskScore
    {
      assert y in multiset(sorted[k..]);
      var j :| 0 <= j < |sorted[k..]| && sorted[k..][j] == y;
      assert sorted[k + j] == y;
    }
  }
}
