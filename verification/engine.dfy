/** The candidate scorer (src/analyzer/engine.ts): five capped, additive
    factors over a skill's aggregate, rounded to an integer score that a
    threshold rule turns into a recommendation; and the ranking of every
    tracked skill by a stable descending sort on the score. */
module Engine {
  import opened Types
  import opened Js
  import opened Ledger

  datatype Factor = TokenFactor | LatencyFactor | SpikeFactor | FailureFactor | VolumeFactor

  /** The position of a factor in the order the scorer evaluates them. */
  function FactorIndex(f: Factor): nat
  {
    match f
    case TokenFactor => 0
    case LatencyFactor => 1
    case SpikeFactor => 2
    case FailureFactor => 3
    case VolumeFactor => 4
  }

  function MinReal(a: real, b: real): real { if a <= b then a else b }

  function TotalTokens(m: AggregatedMetrics): real
  {
    m.avgTokensIn + m.avgTokensOut
  }

  /** The trigger condition of each factor. */
  predicate Triggered(f: Factor, m: AggregatedMetrics)
  {
    match f
    case TokenFactor => TotalTokens(m) > 2000.0
    case LatencyFactor => m.avgExecutionMs > 2000.0
    case SpikeFactor => m.p95ExecutionMs as real > m.avgExecutionMs * 2.0
    case FailureFactor => m.failureRate > 0.05
    case VolumeFactor => m.totalRuns > 20
  }

  /** The most a factor can add to the score. */
  function Cap(f: Factor): real
  {
    match f
    case TokenFactor => 30.0
    case LatencyFactor => 25.0
    case SpikeFactor => 20.0
    case FailureFactor => 15.0
    case VolumeFactor => 10.0
  }

  /** What a factor adds to the score: nothing unless it triggers, then a
      positive amount no larger than its cap. */
  function Contribution(f: Factor, m: AggregatedMetrics): (c: real)
    ensures Triggered(f, m) ==> 0.0 < c <= Cap(f)
    ensures !Triggered(f, m) ==> c == 0.0
  {
    if !Triggered(f, m) then 0.0
    else
      match f
      case TokenFactor => MinReal(30.0, (TotalTokens(m) - 2000.0) / 100.0)
      case LatencyFactor => MinReal(25.0, (m.avgExecutionMs - 2000.0) / 200.0)
      case SpikeFactor => 20.0
      case FailureFactor => MinReal(15.0, m.failureRate * 100.0)
      case VolumeFactor => MinReal(10.0, m.totalRuns as real / 10.0)
  }

  /** The reason a triggered factor reports, with the values it quotes. */
  function ReasonFor(f: Factor, m: AggregatedMetrics): Reason
  {
    match f
    case TokenFactor => HighTokenUsage(TotalTokens(m))
    case LatencyFactor => SlowExecution(m.avgExecutionMs)
    case SpikeFactor => LatencySpikes(m.p95ExecutionMs, m.avgExecutionMs)
    case FailureFactor => HighFailureRate(m.failureRate)
    case VolumeFactor => HighVolume(m.totalRuns)
  }

  function ReasonFactor(r: Reason): Factor
  {
    match r
    case HighTokenUsage(_) => TokenFactor
    case SlowExecution(_) => LatencyFactor
    case LatencySpikes(_, _) => SpikeFactor
    case HighFailureRate(_) => FailureFactor
    case HighVolume(_) => VolumeFactor
  }

  /** The sum of the five contributions, before rounding. */
  function RawScore(m: AggregatedMetrics): real
  {
    Contribution(TokenFactor, m) + Contribution(LatencyFactor, m) + Contribution(SpikeFactor, m)
      + Contribution(FailureFactor, m) + Contribution(VolumeFactor, m)
  }

  /** Math.min(100, Math.round(score)): a score from 0 to 100 within half
      a point of the raw sum. */
  function Score(m: AggregatedMetrics): (r: int)
    ensures 0 <= r <= 100
    ensures RawScore(m) - 0.5 < r as real <= RawScore(m) + 0.5
  {
    RawScoreBounds(m);
    var rounded := Round(RawScore(m));
    if rounded < 100 then rounded else 100
  }

  function ReasonIf(f: Factor, m: AggregatedMetrics): seq<Reason>
  {
    if Triggered(f, m) then [ReasonFor(f, m)] else []
  }

  /** The factors in the order the scorer evaluates them. */
  const AllFactors: seq<Factor> := [TokenFactor, LatencyFactor, SpikeFactor, FailureFactor, VolumeFactor]

  /** The reasons the factors `fs` push, one after the other. */
  function ReasonsOver(fs: seq<Factor>, m: AggregatedMetrics): seq<Reason>
  {
    if fs == [] then [] else ReasonIf(fs[0], m) + ReasonsOver(fs[1..], m)
  }

  /** The reasons pushed, factor by factor. */
  function Reasons(m: AggregatedMetrics): seq<Reason>
  {
    ReasonsOver(AllFactors, m)
  }

  lemma ReasonsInFactorOrder(m: AggregatedMetrics)
    ensures Reasons(m) == ReasonIf(TokenFactor, m) + ReasonIf(LatencyFactor, m) + ReasonIf(SpikeFactor, m)
                          + ReasonIf(FailureFactor, m) + ReasonIf(VolumeFactor, m)
  {
    var fs := AllFactors;
    assert ReasonsOver(fs[4..], m) == ReasonIf(VolumeFactor, m) by {
      assert fs[4..][1..] == [];
    }
    assert ReasonsOver(fs[3..], m) == ReasonIf(FailureFactor, m) + ReasonsOver(fs[4..], m) by {
      assert fs[3..][1..] == fs[4..];
    }
    assert ReasonsOver(fs[2..], m) == ReasonIf(SpikeFactor, m) + ReasonsOver(fs[3..], m) by {
      assert fs[2..][1..] == fs[3..];
    }
    assert ReasonsOver(fs[1..], m) == ReasonIf(LatencyFactor, m) + ReasonsOver(fs[2..], m) by {
      assert fs[1..][1..] == fs[2..];
    }
  }

  /** The threshold rule. */
  function RecommendationFor(score: int): Recommendation
  {
    if score >= 50 then Optimize else if score >= 25 then Monitor else Ok
  }

  /** The analysis of one skill's aggregate: the recommendation is
      `optimize` exactly from 50 up, `monitor` exactly from 25 to 49, and
      `ok` below 25. */
  function Assess(skillId: string, m: AggregatedMetrics): (a: AnalysisResult)
    ensures a.skillId == skillId && a.metrics == m
    ensures 0 <= a.score <= 100
    ensures a.recommendation == Optimize <==> a.score >= 50
    ensures a.recommendation == Monitor <==> 25 <= a.score < 50
    ensures a.recommendation == Ok <==> a.score < 25
  {
    AnalysisResult(skillId, m, Score(m), Reasons(m), RecommendationFor(Score(m)))
  }

  /** analyze(skillId): read the skill's aggregate and score it. */
  method Analyze(db: ForgeDB, skillId: string) returns (r: AnalysisResult)
    ensures r == Assess(skillId, Aggregate(db.metrics, skillId))
  {
    var metrics := Aggregate(db.metrics, skillId);
    r := ScoreMetrics(skillId, metrics);
  }

  /** The body of analyze once the aggregate is in hand: add up the factors
      and push their reasons one at a time, then round, cap and classify. */
  method ScoreMetrics(skillId: string, metrics: AggregatedMetrics) returns (r: AnalysisResult)
    ensures r == Assess(skillId, metrics)
  {
    var reasons: seq<Reason> := [];
    var score: real := 0.0;

    var totalTokens := metrics.avgTokensIn + metrics.avgTokensOut;
    if totalTokens > 2000.0 {
      score := score + MinReal(30.0, (totalTokens - 2000.0) / 100.0);
      reasons := reasons + [HighTokenUsage(totalTokens)];
    }
    assert score == Contribution(TokenFactor, metrics);
    assert reasons == ReasonIf(TokenFactor, metrics);
    if metrics.avgExecutionMs > 2000.0 {
      score := score + MinReal(25.0, (metrics.avgExecutionMs - 2000.0) / 200.0);
      reasons := reasons + [SlowExecution(metrics.avgExecutionMs)];
    }
    assert score == Contribution(TokenFactor, metrics) + Contribution(LatencyFactor, metrics);
    assert reasons == ReasonIf(TokenFactor, metrics) + ReasonIf(LatencyFactor, metrics);
    if metrics.p95ExecutionMs as real > metrics.avgExecutionMs * 2.0 {
      score := score + 20.0;
      reasons := reasons + [LatencySpikes(metrics.p95ExecutionMs, metrics.avgExecutionMs)];
    }
    assert reasons == ReasonIf(TokenFactor, metrics) + ReasonIf(LatencyFactor, metrics)
      + ReasonIf(SpikeFactor, metrics);
    if metrics.failureRate > 0.05 {
      score := score + MinReal(15.0, metrics.failureRate * 100.0);
      reasons := reasons + [HighFailureRate(metrics.failureRate)];
    }
    assert score == Contribution(TokenFactor, metrics) + Contribution(LatencyFactor, metrics)
      + Contribution(SpikeFactor, metrics) + Contribution(FailureFactor, metrics);
    assert reasons == ReasonIf(TokenFactor, metrics) + ReasonIf(LatencyFactor, metrics)
      + ReasonIf(SpikeFactor, metrics) + ReasonIf(FailureFactor, metrics);
    if metrics.totalRuns > 20 {
      score := score + MinReal(10.0, metrics.totalRuns as real / 10.0);
      reasons := reasons + [HighVolume(metrics.totalRuns)];
    }
    assert score == RawScore(metrics);
    ReasonsInFactorOrder(metrics);
    assert reasons == Reasons(metrics);

    var rounded := Round(score);
    var finalScore := if rounded < 100 then rounded else 100;
    var recommendation := Ok;
    if finalScore >= 50 {
      recommendation := Optimize;
    } else if finalScore >= 25 {
      recommendation := Monitor;
    }
    r := AnalysisResult(skillId, metrics, finalScore, reasons, recommendation);
  }

  // ---------------------------------------------------------------------
  // Properties of one analysis

  /** The caps add up to 100 and no contribution is negative, so the raw
      sum lies between 0 and 100. */
  lemma RawScoreBounds(m: AggregatedMetrics)
    ensures 0.0 <= RawScore(m) <= 100.0
  {
    var _ := Contribution(TokenFactor, m);
    var _ := Contribution(LatencyFactor, m);
    var _ := Contribution(SpikeFactor, m);
    var _ := Contribution(FailureFactor, m);
    var _ := Contribution(VolumeFactor, m);
  }

  /** Hence the final `Math.min(100, ...)` never changes the rounded score. */
  lemma ScoreCapNeverBinds(m: AggregatedMetrics)
    ensures Score(m) == Round(RawScore(m))
  {
    RawScoreBounds(m);
    assert Round(RawScore(m)) <= 100;
  }

  /** How severe a recommendation is. */
  function Severity(r: Recommendation): nat
  {
    match r
    case Ok => 0
    case Monitor => 1
    case Optimize => 2
  }

  /** A higher score never gets a milder recommendation. */
  lemma RecommendationMonotone(s1: int, s2: int)
    requires s1 <= s2
    ensures Severity(RecommendationFor(s1)) <= Severity(RecommendationFor(s2))
  {
  }
  lemma ReasonNamesItsFactor(f: Factor, m: AggregatedMetrics)
    ensures ReasonFactor(ReasonFor(f, m)) == f
  {
  }

  /** Every reason pushed by the factors `fs` comes from a listed factor
      that triggered, and quotes that factor's values. */
  lemma {:induction false} ReasonsOverSound(fs: seq<Factor>, m: AggregatedMetrics)
    ensures forall i {:trigger ReasonsOver(fs, m)[i]} :: 0 <= i < |ReasonsOver(fs, m)| ==>
              && ReasonFactor(ReasonsOver(fs, m)[i]) in fs && Triggered(ReasonFactor(ReasonsOver(fs, m)[i]), m)
              && ReasonsOver(fs, m)[i] == ReasonFor(ReasonFactor(ReasonsOver(fs, m)[i]), m)
  {
    if fs != [] {
      var head := ReasonIf(fs[0], m);
      var tail := ReasonsOver(fs[1..], m);
      ReasonsOverSound(fs[1..], m);
      ReasonNamesItsFactor(fs[0], m);
      var rs := head + tail;
      assert ReasonsOver(fs, m) == rs;
      forall i | 0 <= i < |rs|
        ensures ReasonFactor(rs[i]) in fs && Triggered(ReasonFactor(rs[i]), m)
        ensures rs[i] == ReasonFor(ReasonFactor(rs[i]), m)
      {
        if i < |head| {
          assert rs[i] == ReasonFor(fs[0], m);
        } else {
          assert rs[i] == tail[i - |head|];
          assert ReasonFactor(rs[i]) in fs[1..];
        }
      }
    }
  }

  /** Every listed factor that triggers pushes a reason. */
  lemma {:induction false} ReasonsOverComplete(fs: seq<Factor>, m: AggregatedMetrics, f: Factor)
    requires f in fs && Triggered(f, m)
    ensures var rs := ReasonsOver(fs, m);
            exists i :: 0 <= i < |rs| && ReasonFactor(rs[i]) == f
  {
    var head := ReasonIf(fs[0], m);
    var tail := ReasonsOver(fs[1..], m);
    var rs := head + tail;
    assert ReasonsOver(fs, m) == rs;
    if f == fs[0] {
      ReasonNamesItsFactor(f, m);
      assert rs[0] == ReasonFor(f, m);
    } else {
      assert f in fs[1..];
      ReasonsOverComplete(fs[1..], m, f);
      var i :| 0 <= i < |tail| && ReasonFactor(tail[i]) == f;
      assert rs[|head| + i] == tail[i];
    }
  }

  predicate InFactorOrder(fs: seq<Factor>)
  {
    forall i, j :: 0 <= i < j < |fs| ==> FactorIndex(fs[i]) < FactorIndex(fs[j])
  }

  /** Factors listed in order push their reasons in that order. */
  lemma {:induction false} ReasonsOverOrdered(fs: seq<Factor>, m: AggregatedMetrics)
    requires InFactorOrder(fs)
    ensures forall i, j {:trigger ReasonsOver(fs, m)[i], ReasonsOver(fs, m)[j]} :: 0 <= i < j < |ReasonsOver(fs, m)| ==>
              FactorIndex(ReasonFactor(ReasonsOver(fs, m)[i])) < FactorIndex(ReasonFactor(ReasonsOver(fs, m)[j]))
  {
    if fs != [] {
      var head := ReasonIf(fs[0], m);
      var tail := ReasonsOver(fs[1..], m);
      assert InFactorOrder(fs[1..]) by {
        forall i, j | 0 <= i < j < |fs[1..]| ensures FactorIndex(fs[1..][i]) < FactorIndex(fs[1..][j]) {
          assert fs[1..][i] == fs[i + 1] && fs[1..][j] == fs[j + 1];
        }
      }
      ReasonsOverOrdered(fs[1..], m);
      ReasonsOverSound(fs[1..], m);
      ReasonNamesItsFactor(fs[0], m);
      forall x | x in fs[1..] ensures FactorIndex(fs[0]) < FactorIndex(x) {
        var k :| 0 <= k < |fs[1..]| && fs[1..][k] == x;
        assert fs[k + 1] == x;
      }
      var rs := head + tail;
      assert ReasonsOver(fs, m) == rs;
      forall i, j | 0 <= i < j < |rs|
        ensures FactorIndex(ReasonFactor(rs[i])) < FactorIndex(ReasonFactor(rs[j]))
      {
        assert rs[j] == tail[j - |head|];
        if i < |head| {
          assert rs[i] == ReasonFor(fs[0], m);
          assert ReasonFactor(tail[j - |head|]) in fs[1..];
        } else {
          assert rs[i] == tail[i - |head|];
        }
      }
    }
  }

  /** One reason per triggered factor, in factor order, each quoting that
      factor's measured values. */
  lemma ReasonsFollowFactors(m: AggregatedMetrics)
    ensures var rs := Reasons(m);
            && (forall i, j :: 0 <= i < j < |rs| ==>
                  FactorIndex(ReasonFactor(rs[i])) < FactorIndex(ReasonFactor(rs[j])))
            && (forall f :: Triggered(f, m) <==> exists i :: 0 <= i < |rs| && ReasonFactor(rs[i]) == f)
            && (forall i :: 0 <= i < |rs| ==> rs[i] == ReasonFor(ReasonFactor(rs[i]), m))
  {
    assert Reasons(m) == ReasonsOver(AllFactors, m);
    ReasonsOverSound(AllFactors, m);
    ReasonsOverOrdered(AllFactors, m);
    forall f | Triggered(f, m) ensures exists i :: 0 <= i < |Reasons(m)| && ReasonFactor(Reasons(m)[i]) == f {
      assert f in AllFactors by {
        assert AllFactors[FactorIndex(f)] == f;
      }
      ReasonsOverComplete(AllFactors, m, f);
    }
  }

  /** When no factor triggers the score is 0, there are no reasons and the
      recommendation is `ok`; the reasons are empty only then. */
  lemma NothingTriggeredMeansOk(skillId: string, m: AggregatedMetrics)
    ensures (forall f :: !Triggered(f, m)) ==>
              Assess(skillId, m).score == 0 && Assess(skillId, m).reasons == []
              && Assess(skillId, m).recommendation == Ok
    ensures Reasons(m) == [] <==> forall f :: !Triggered(f, m)
  {
    if forall f :: !Triggered(f, m) {
      assert !Triggered(TokenFactor, m) && !Triggered(LatencyFactor, m) && !Triggered(SpikeFactor, m)
        && !Triggered(FailureFactor, m) && !Triggered(VolumeFactor, m);
      ReasonsInFactorOrder(m);
    } else {
      var f :| Triggered(f, m);
      ReasonsFollowFactors(m);
    }
  }

  /** A skill without runs gets the all-zero aggregate, hence score 0, no
      reasons and `ok`. */
  lemma UnknownSkillIsOk(ms: seq<SkillMetric>, skillId: string)
    requires !HasRun(ms, skillId)
    ensures var a := Assess(skillId, Aggregate(ms, skillId));
            a.score == 0 && a.reasons == [] && a.recommendation == Ok
  {
    AggregateOfUnknownSkill(ms, skillId);
    var m := Aggregate(ms, skillId);
    assert m == ZeroAggregate(skillId);
    ZeroTriggersNothing(skillId);
    NothingTriggeredMeansOk(skillId, m);
  }

  lemma ZeroTriggersNothing(skillId: string)
    ensures forall f :: !Triggered(f, ZeroAggregate(skillId))
  {
  }

  /** A skill with 30 runs, 2500 tokens and 2500 ms on average, a p95 of
      6000 ms and a 10% failure rate triggers all five factors, but the
      contributions 5 + 2.5 + 20 + 10 + 3 round to 41: `monitor`. */
  lemma AllFactorsScenario()
    ensures var m := AggregatedMetrics("s", 2500.0, 1500.0, 1000.0, 30, 0.1, 6000);
            && (forall f :: Triggered(f, m))
            && Assess("s", m).score == 41
            && Assess("s", m).recommendation == Monitor
  {
    var m := AggregatedMetrics("s", 2500.0, 1500.0, 1000.0, 30, 0.1, 6000);
    assert RawScore(m) == 40.5;
  }

  // ---------------------------------------------------------------------
  // Ranking (analyzeAll)

  predicate Descending(s: seq<AnalysisResult>)
  {
    forall i, j :: 0 <= i < j < |s| ==> s[i].score >= s[j].score
  }

  /** The results with score `k`, in their order in `s`. */
  function WithScore(s: seq<AnalysisResult>, k: int): seq<AnalysisResult>
  {
    if s == [] then []
    else (if s[0].score == k then [s[0]] else []) + WithScore(s[1..], k)
  }

  /** Insert `x` ahead of every result whose score is not higher. */
  function InsertByScore(x: AnalysisResult, s: seq<AnalysisResult>): (r: seq<AnalysisResult>)
    requires Descending(s)
    ensures |r| == |s| + 1 && Descending(r)
    ensures multiset(r) == multiset([x] + s)
    ensures r[0] == x || (s != [] && r[0] == s[0])
  {
    if s == [] || s[0].score <= x.score then [x] + s
    else
      var rest := InsertByScore(x, s[1..]);
      assert s == [s[0]] + s[1..];
      [s[0]] + rest
  }

  /** Inserting `x` passes only results of a higher score, so among results
      of any one score the order of `[x] + s` is kept. */
  lemma {:induction false} InsertByScoreKeepsTies(x: AnalysisResult, s: seq<AnalysisResult>, k: int)
    requires Descending(s)
    ensures WithScore(InsertByScore(x, s), k) == WithScore([x] + s, k)
  {
    if s != [] && s[0].score > x.score {
      var rest := InsertByScore(x, s[1..]);
      InsertByScoreKeepsTies(x, s[1..], k);
      assert InsertByScore(x, s) == [s[0]] + rest;
      assert ([s[0]] + rest)[1..] == rest;
      assert ([x] + s)[1..] == s;
      assert s == [s[0]] + s[1..];
      assert ([x] + s[1..])[1..] == s[1..];
    }
  }

  /** `results.sort((a, b) => b.score - a.score)` with a stable sort: the
      same results, scores non-increasing, and results of equal score in
      their original order. */
  function SortByScore(s: seq<AnalysisResult>): (r: seq<AnalysisResult>)
    ensures |r| == |s| && Descending(r)
    ensures multiset(r) == multiset(s)
  {
    if s == [] then []
    else
      var rest := SortByScore(s[1..]);
      assert s == [s[0]] + s[1..];
      InsertByScore(s[0], rest)
  }

  /** The sort is stable: the results of any one score keep their order. */
  lemma {:induction false} SortByScoreStable(s: seq<AnalysisResult>, k: int)
    ensures WithScore(SortByScore(s), k) == WithScore(s, k)
  {
    if s != [] {
      var rest := SortByScore(s[1..]);
      SortByScoreStable(s[1..], k);
      InsertByScoreKeepsTies(s[0], rest, k);
      assert ([s[0]] + rest)[1..] == rest;
      assert s[1..] == ([s[0]] + s[1..])[1..];
      assert s == [s[0]] + s[1..];
    }
  }

  /** The analyses in the order getAllSkillIds lists the skills. */
  function AnalysesInIdOrder(ms: seq<SkillMetric>): (r: seq<AnalysisResult>)
    ensures |r| == |DistinctIds(ms)|
    ensures forall i :: 0 <= i < |r| ==> r[i] == Assess(DistinctIds(ms)[i], Aggregate(ms, DistinctIds(ms)[i]))
  {
    var ids := DistinctIds(ms);
    seq(|ids|, i requires 0 <= i < |ids| => Assess(ids[i], Aggregate(ms, ids[i])))
  }

  /** analyzeAll: one analysis per tracked skill, a permutation of the
      analyses in getAllSkillIds order, by non-increasing score. */
  function AnalyzeAll(ms: seq<SkillMetric>): (r: seq<AnalysisResult>)
    ensures |r| == |DistinctIds(ms)|
    ensures multiset(r) == multiset(AnalysesInIdOrder(ms))
    ensures Descending(r)
  {
    SortByScore(AnalysesInIdOrder(ms))
  }

  /** The ranking keeps ties in getAllSkillIds order, and a skill appears
      in it exactly when it has runs. */
  lemma AnalyzeAllRanksEveryTrackedSkill(ms: seq<SkillMetric>)
    ensures var r := AnalyzeAll(ms);
            && (forall k :: WithScore(r, k) == WithScore(AnalysesInIdOrder(ms), k))
            && (forall id :: HasRun(ms, id) <==> exists i :: 0 <= i < |r| && r[i].skillId == id)
  {
    var r := AnalyzeAll(ms);
    var byId := AnalysesInIdOrder(ms);
    var ids := DistinctIds(ms);
    forall k ensures WithScore(r, k) == WithScore(byId, k) {
      SortByScoreStable(byId, k);
    }
    forall id | HasRun(ms, id) ensures exists i :: 0 <= i < |r| && r[i].skillId == id {
      var j :| 0 <= j < |ids| && ids[j] == id;
      assert byId[j] in multiset(r);
      var i :| 0 <= i < |r| && r[i] == byId[j];
    }
    forall i | 0 <= i < |r| ensures HasRun(ms, r[i].skillId) {
      assert r[i] in multiset(byId);
      var j :| 0 <= j < |byId| && byId[j] == r[i];
      assert ids[j] in ids;
    }
  }
}
