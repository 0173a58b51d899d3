/** The metrics ledger (src/profiler/db.ts): an append-only stream of run
    samples, an append-only stream of lifecycle events and a skill registry,
    with the windowed aggregate and the dashboard export computed on read.
    The newline-delimited files become in-memory sequences and a map. */
module Ledger {
  import opened Types
  import opened Js
  import opened Text

  /** How many of a skill's most recent runs getAggregate reads. */
  const AggregateWindow: nat := 500
  /** How many recent events the dashboard export carries. */
  const DashboardEventCount: nat := 100
  /** The fixed average-savings figure the dashboard export reports. */
  const AvgTokenSavingsFigure: int := 34

  function Min(a: int, b: int): int { if a <= b then a else b }

  // ---------------------------------------------------------------------
  // Registry

  datatype SkillEntry = SkillEntry(path: string, currentVersion: string)

  /** Every plain JavaScript object inherits these members from
      Object.prototype, so looking one of them up is never falsy. */
  const InheritedKeys: set<string> := {
    "constructor", "__proto__", "__defineGetter__", "__defineSetter__",
    "__lookupGetter__", "__lookupSetter__", "hasOwnProperty", "isPrototypeOf",
    "propertyIsEnumerable", "toLocaleString", "toString", "valueOf" }

  /** registerSkill as written: the `!skills[id]` test on the parsed registry
      object also sees the inherited members, so an id naming one of them is
      never registered. */
  function RegisterAsWritten(skills: map<string, SkillEntry>, id: string, path: string): map<string, SkillEntry>
  {
    if id in skills || id in InheritedKeys then skills
    else skills[id := SkillEntry(path, "v1")]
  }

  /** registerSkill as intended: a new id gets its path and version "v1";
      a known id keeps its entry. */
  function Register(skills: map<string, SkillEntry>, id: string, path: string): (r: map<string, SkillEntry>)
    ensures id in r
    ensures r.Keys == skills.Keys + {id}
  {
    if id in skills then skills else skills[id := SkillEntry(path, "v1")]
  }

  /** A first registration records the path and "v1"; a later one, whatever
      its path, changes nothing, and no other entry is touched. */
  lemma RegisterIsIdempotent(skills: map<string, SkillEntry>, id: string, path: string, otherPath: string)
    ensures id !in skills ==> Register(skills, id, path)[id] == SkillEntry(path, "v1")
    ensures id in skills ==> Register(skills, id, path) == skills
    ensures Register(Register(skills, id, path), id, otherPath) == Register(skills, id, path)
    ensures forall k :: k in skills && k != id ==> Register(skills, id, path)[k] == skills[k]
  {
  }

  /** The as-written registry misses an id called "constructor": the
      registry stays empty, where the intended one records the skill. */
  lemma RegisterAsWrittenDropsInheritedName(path: string)
    ensures RegisterAsWritten(map[], "constructor", path) == map[]
    ensures Register(map[], "constructor", path) == map["constructor" := SkillEntry(path, "v1")]
  {
  }

  /** Apart from the inherited names the two definitions agree. */
  lemma RegisterAsWrittenAgreesElsewhere(skills: map<string, SkillEntry>, id: string, path: string)
    ensures id !in InheritedKeys ==> RegisterAsWritten(skills, id, path) == Register(skills, id, path)
    ensures id in InheritedKeys && id !in skills ==> RegisterAsWritten(skills, id, path) != Register(skills, id, path)
  {
    if id in InheritedKeys && id !in skills {
      assert id !in RegisterAsWritten(skills, id, path);
    }
  }

  // ---------------------------------------------------------------------
  // Per-skill window (getMetrics)

  /** `metrics.filter(m => m.skillId === id)`. */
  function RunsOf(ms: seq<SkillMetric>, id: string): (r: seq<SkillMetric>)
    ensures |r| <= |ms|
    ensures forall k :: 0 <= k < |r| ==> r[k].skillId == id
    ensures forall m :: m in ms && m.skillId == id <==> m in r
    ensures IsSubsequence(r, ms)
  {
    if ms == [] then []
    else if ms[0].skillId == id then
      var rest := RunsOf(ms[1..], id);
      assert [ms[0]] + rest == [ms[0]] + rest;
      assert ([ms[0]] + rest)[1..] == rest;
      [ms[0]] + rest
    else
      var rest := RunsOf(ms[1..], id);
      assert rest != [] ==> rest[0] in ms[1..];
      rest
  }

  lemma NoRunsMeansNoWindow(ms: seq<SkillMetric>, id: string)
    requires !HasRun(ms, id)
    ensures RunsOf(ms, id) == []
  {
  }

  lemma {:induction false} RunsOfAppend(ms: seq<SkillMetric>, m: SkillMetric, id: string)
    ensures RunsOf(ms + [m], id) == RunsOf(ms, id) + (if m.skillId == id then [m] else [])
  {
    if ms != [] {
      assert (ms + [m])[1..] == ms[1..] + [m];
      RunsOfAppend(ms[1..], m, id);
    } else {
      assert RunsOf([m], id) == (if m.skillId == id then [m] else []) + RunsOf([], id);
    }
  }

  /** getMetrics(id, limit): the skill's runs, then `.slice(-limit)`. */
  function MetricsWindow(ms: seq<SkillMetric>, id: string, limit: int): (r: seq<SkillMetric>)
    ensures forall k :: 0 <= k < |r| ==> r[k].skillId == id
    ensures |r| <= |RunsOf(ms, id)| && r == RunsOf(ms, id)[|RunsOf(ms, id)| - |r|..]
    ensures limit >= 1 ==> |r| == Min(limit, |RunsOf(ms, id)|)
    ensures limit == 0 ==> r == RunsOf(ms, id)
  {
    var all := RunsOf(ms, id);
    SliceFrom(all, -limit)
  }

  // ---------------------------------------------------------------------
  // Distinct ids (getAllSkillIds)

  predicate HasRun(ms: seq<SkillMetric>, id: string)
  {
    exists k :: 0 <= k < |ms| && ms[k].skillId == id
  }

  predicate NoDuplicates(ids: seq<string>)
  {
    forall i, j :: 0 <= i < j < |ids| ==> ids[i] != ids[j]
  }

  /** The distinct skill ids of the run stream, in the order a Set filled by
      a forEach over the stream keeps them. */
  function DistinctIds(ms: seq<SkillMetric>): (r: seq<string>)
    ensures NoDuplicates(r)
    ensures forall id :: id in r <==> HasRun(ms, id)
    ensures |r| <= |ms|
  {
    if ms == [] then []
    else
      var prefix := ms[..|ms| - 1];
      var d := DistinctIds(prefix);
      var x := ms[|ms| - 1].skillId;
      assert forall id :: HasRun(prefix, id) ==> HasRun(ms, id) by {
        forall id | HasRun(prefix, id) ensures HasRun(ms, id) {
          var k :| 0 <= k < |prefix| && prefix[k].skillId == id;
          assert ms[k].skillId == id;
        }
      }
      assert forall id :: HasRun(ms, id) ==> HasRun(prefix, id) || id == x by {
        forall id | HasRun(ms, id) ensures HasRun(prefix, id) || id == x {
          var k :| 0 <= k < |ms| && ms[k].skillId == id;
          if k < |ms| - 1 { assert prefix[k].skillId == id; }
        }
      }
      assert HasRun(ms, x) by { assert ms[|ms| - 1].skillId == x; }
      if x in d then d else d + [x]
  }

  /** `k` is the position of the first run of `id`. */
  predicate FirstRunAt(ms: seq<SkillMetric>, id: string, k: int)
  {
    0 <= k < |ms| && ms[k].skillId == id && forall k' :: 0 <= k' < k ==> ms[k'].skillId != id
  }

  lemma FirstRunExists(ms: seq<SkillMetric>, id: string) returns (k: nat)
    requires HasRun(ms, id)
    ensures FirstRunAt(ms, id, k)
  {
    k := 0;
    while ms[k].skillId != id
      invariant k < |ms|
      invariant forall k' :: 0 <= k' < k ==> ms[k'].skillId != id
      invariant HasRun(ms[k..], id)
      decreases |ms| - k
    {
      var w :| 0 <= w < |ms[k..]| && ms[k..][w].skillId == id;
      assert w != 0;
      assert ms[k + 1..][w - 1].skillId == id;
      k := k + 1;
    }
  }

  /** The ids come out in the order of their first runs. */
  lemma {:induction false} DistinctIdsInFirstSeenOrder(ms: seq<SkillMetric>, i: int, j: int, ki: int, kj: int)
    requires 0 <= i < j < |DistinctIds(ms)|
    requires FirstRunAt(ms, DistinctIds(ms)[i], ki) && FirstRunAt(ms, DistinctIds(ms)[j], kj)
    ensures ki < kj
    decreases |ms|
  {
    var prefix := ms[..|ms| - 1];
    var d := DistinctIds(prefix);
    var x := ms[|ms| - 1].skillId;
    var r := DistinctIds(ms);
    assert r[i] in d && HasRun(prefix, r[i]);
    var pi := FirstRunExists(prefix, r[i]);
    assert FirstRunAt(ms, r[i], pi);
    assert ki == pi;
    if j < |d| {
      assert r[j] == d[j];
      var pj := FirstRunExists(prefix, r[j]);
      assert FirstRunAt(ms, r[j], pj);
      assert kj == pj;
      DistinctIdsInFirstSeenOrder(prefix, i, j, pi, pj);
    } else {
      assert r[j] == x && x !in d;
      assert !HasRun(prefix, x);
      assert forall k' :: 0 <= k' < |ms| - 1 ==> ms[k'].skillId == prefix[k'].skillId != x;
      assert kj == |ms| - 1;
    }
  }

  // ---------------------------------------------------------------------
  // Aggregate (getAggregate)

  function Sum(s: seq<nat>): nat
  {
    if s == [] then 0 else s[0] + Sum(s[1..])
  }

  predicate Ascending(s: seq<nat>)
  {
    forall i, j :: 0 <= i < j < |s| ==> s[i] <= s[j]
  }

  function InsertAscending(x: nat, s: seq<nat>): (r: seq<nat>)
    requires Ascending(s)
    ensures |r| == |s| + 1 && Ascending(r)
    ensures multiset(r) == multiset(s) + multiset{x}
    ensures r[0] == x || (s != [] && r[0] == s[0])
  {
    if s == [] || x <= s[0] then
      ConsAscending(x, s);
      [x] + s
    else
      var rest := InsertAscending(x, s[1..]);
      InsertAscendingStep(s, x, rest);
      [s[0]] + rest
  }

  /** One step of the insertion: the head of `s` stays in front of the
      insertion into the tail. */
  lemma InsertAscendingStep(s: seq<nat>, x: nat, rest: seq<nat>)
    requires Ascending(s) && s != [] && s[0] < x
    requires Ascending(rest) && multiset(rest) == multiset(s[1..]) + multiset{x}
    requires rest[0] == x || (s[1..] != [] && rest[0] == s[1])
    ensures Ascending([s[0]] + rest)
    ensures multiset([s[0]] + rest) == multiset(s) + multiset{x}
  {
    assert s == [s[0]] + s[1..];
    assert s[1..] != [] ==> s[0] <= s[1];
    ConsAscending(s[0], rest);
  }

  lemma ConsAscending(a: nat, t: seq<nat>)
    requires Ascending(t) && (t == [] || a <= t[0])
    ensures Ascending([a] + t)
  {
    var r := [a] + t;
    forall i, j | 0 <= i < j < |r| ensures r[i] <= r[j] {
      if i == 0 {
        assert r[j] == t[j - 1];
        assert t[0] <= t[j - 1];
      }
    }
  }

  lemma SumCons(a: nat, t: seq<nat>)
    ensures Sum([a] + t) == a + Sum(t)
  {
    assert ([a] + t)[1..] == t;
  }

  /** Inserting a time adds it to the total. */
  lemma {:induction false} InsertAscendingSum(x: nat, s: seq<nat>)
    requires Ascending(s)
    ensures Sum(InsertAscending(x, s)) == x + Sum(s)
  {
    if s == [] || x <= s[0] {
      SumCons(x, s);
    } else {
      InsertAscendingSum(x, s[1..]);
      SumCons(s[0], InsertAscending(x, s[1..]));
      SumCons(s[0], s[1..]);
      assert s == [s[0]] + s[1..];
    }
  }

  /** `times.sort((a, b) => a - b)`: ascending and the same values. */
  function SortAscending(s: seq<nat>): (r: seq<nat>)
    ensures |r| == |s| && Ascending(r)
    ensures multiset(r) == multiset(s)
  {
    if s == [] then []
    else
      assert s == [s[0]] + s[1..];
      InsertAscending(s[0], SortAscending(s[1..]))
  }

  /** Sorting keeps the sum of the times, so the mean is taken over the window. */
  lemma {:induction false} SortAscendingSum(s: seq<nat>)
    ensures Sum(SortAscending(s)) == Sum(s)
  {
    if s != [] {
      SortAscendingSum(s[1..]);
      InsertAscendingSum(s[0], SortAscending(s[1..]));
      SumCons(s[0], s[1..]);
      assert s == [s[0]] + s[1..];
    }
  }

  /** The last element of an ascending list is its maximum. */
  lemma AscendingLastIsMaximum(s: seq<nat>, v: nat)
    requires Ascending(s) && v in multiset(s)
    ensures v <= s[|s| - 1]
  {
    var u :| 0 <= u < |s| && s[u] == v;
  }

  function ExecTimes(rows: seq<SkillMetric>): (r: seq<nat>)
    ensures |r| == |rows| && forall k :: 0 <= k < |rows| ==> r[k] == rows[k].executionMs
  {
    seq(|rows|, k requires 0 <= k < |rows| => rows[k].executionMs)
  }

  function TokensInOf(rows: seq<SkillMetric>): seq<nat>
  {
    seq(|rows|, k requires 0 <= k < |rows| => rows[k].tokensIn)
  }

  function TokensOutOf(rows: seq<SkillMetric>): seq<nat>
  {
    seq(|rows|, k requires 0 <= k < |rows| => rows[k].tokensOut)
  }

  /** `rows.filter(r => !r.success).length`. */
  function Failures(rows: seq<SkillMetric>): (r: nat)
    ensures r <= |rows|
  {
    if rows == [] then 0 else (if rows[0].success then 0 else 1) + Failures(rows[1..])
  }

  /** Math.floor(n * 0.95), evaluated exactly; for the window sizes that
      occur (n <= 500) the floating-point product floors to the same value. */
  function P95Index(n: nat): (r: nat)
    ensures 100 * r <= 95 * n < 100 * r + 100
    ensures n >= 1 ==> r < n
  {
    (95 * n) / 100
  }

  /** `times[idx] || times[times.length - 1]` on the ascending times: a
      zero at the index (falsy) is replaced by the last, largest time. The
      result is one of the times, no smaller than the first 95% of them,
      and the largest when the fallback fires. */
  function P95(sorted: seq<nat>): (r: nat)
    requires |sorted| >= 1
    ensures r in sorted
    ensures Ascending(sorted) ==> forall k :: 0 <= k <= P95Index(|sorted|) ==> sorted[k] <= r
    ensures Ascending(sorted) && sorted[P95Index(|sorted|)] == 0 ==>
              forall k :: 0 <= k < |sorted| ==> sorted[k] <= r
  {
    var v := sorted[P95Index(|sorted|)];
    if v != 0 then v else sorted[|sorted| - 1]
  }

  function ZeroAggregate(id: string): AggregatedMetrics
  {
    AggregatedMetrics(id, 0.0, 0.0, 0.0, 0, 0.0, 0)
  }

  /** The summary of a non-empty window of runs: its size, the failure
      rate as a fraction, the mean of the window's times (sorting did not
      change their sum), the other means and the p95. */
  function Summarize(id: string, rows: seq<SkillMetric>): (a: AggregatedMetrics)
    requires |rows| >= 1
    ensures a.skillId == id && a.totalRuns == |rows|
    ensures 0.0 <= a.failureRate <= 1.0
    ensures a.avgExecutionMs == Sum(ExecTimes(rows)) as real / (|rows| as real)
  {
    var times := SortAscending(ExecTimes(rows));
    var n := |rows| as real;
    FractionBounds(Failures(rows) as real, n);
    SortAscendingSum(ExecTimes(rows));
    AggregatedMetrics(
      id,
      Sum(times) as real / n,
      Sum(TokensInOf(rows)) as real / n,
      Sum(TokensOutOf(rows)) as real / n,
      |rows|,
      Failures(rows) as real / n,
      P95(times))
  }

  /** getAggregate(id): the summary of the skill's last 500 runs, or all
      zeros when it has none. */
  function Aggregate(ms: seq<SkillMetric>, id: string): (a: AggregatedMetrics)
    ensures a.skillId == id
  {
    var rows := MetricsWindow(ms, id, AggregateWindow);
    if |rows| == 0 then ZeroAggregate(id) else Summarize(id, rows)
  }

  /** A skill without runs has the all-zero aggregate (no division by zero),
      and only such a skill has zero runs in its aggregate. */
  lemma AggregateOfUnknownSkill(ms: seq<SkillMetric>, id: string)
    ensures !HasRun(ms, id) <==> Aggregate(ms, id) == ZeroAggregate(id)
  {
    if HasRun(ms, id) {
      var k :| 0 <= k < |ms| && ms[k].skillId == id;
      assert ms[k] in RunsOf(ms, id);
      var rows := MetricsWindow(ms, id, AggregateWindow);
      assert Summarize(id, rows).totalRuns >= 1;
    }
  }

  /** The p95 of a non-empty list of times is one of the times. */
  lemma P95IsATime(rows: seq<SkillMetric>)
    requires |rows| >= 1
    ensures exists k :: 0 <= k < |rows| && rows[k].executionMs == P95(SortAscending(ExecTimes(rows)))
  {
    var times := ExecTimes(rows);
    var sorted := SortAscending(times);
    var p := P95(sorted);
    assert p in multiset(sorted);
    assert p in multiset(times);
    var w :| 0 <= w < |times| && times[w] == p;
    assert rows[w].executionMs == p;
  }

  /** When the time at the p95 index is zero, the fallback picks the largest time. */
  lemma P95FallbackIsMaximum(rows: seq<SkillMetric>)
    requires |rows| >= 1
    requires SortAscending(ExecTimes(rows))[P95Index(|rows|)] == 0
    ensures forall k :: 0 <= k < |rows| ==> rows[k].executionMs <= P95(SortAscending(ExecTimes(rows)))
  {
    var times := ExecTimes(rows);
    var sorted := SortAscending(times);
    forall k | 0 <= k < |rows| ensures rows[k].executionMs <= sorted[|sorted| - 1] {
      assert times[k] in multiset(times);
      AscendingLastIsMaximum(sorted, times[k]);
    }
  }

  /** The p95 of a window, in terms of its runs: the time of one of the
      runs and, when the `||` fallback fires, the largest. */
  lemma SummarizeFacts(id: string, rows: seq<SkillMetric>)
    requires |rows| >= 1
    ensures var a := Summarize(id, rows);
            && (exists k :: 0 <= k < |rows| && rows[k].executionMs == a.p95ExecutionMs)
            && (SortAscending(ExecTimes(rows))[P95Index(|rows|)] == 0 ==>
                  forall k :: 0 <= k < |rows| ==> rows[k].executionMs <= a.p95ExecutionMs)
  {
    P95IsATime(rows);
    if SortAscending(ExecTimes(rows))[P95Index(|rows|)] == 0 {
      P95FallbackIsMaximum(rows);
    }
  }

  lemma FractionBounds(f: real, n: real)
    requires 0.0 <= f <= n && n > 0.0
    ensures 0.0 <= f / n <= 1.0
  {
  }

  /** For a skill with runs, the aggregate summarises its last
      min(500, count) runs. */
  lemma AggregateOfWindow(ms: seq<SkillMetric>, id: string)
    requires HasRun(ms, id)
    ensures var rows := MetricsWindow(ms, id, AggregateWindow);
            && |rows| == Min(AggregateWindow, |RunsOf(ms, id)|) >= 1
            && Aggregate(ms, id) == Summarize(id, rows)
  {
    var k0 :| 0 <= k0 < |ms| && ms[k0].skillId == id;
    assert ms[k0] in RunsOf(ms, id);
  }

  /** The aggregate counts the last min(500, count) runs. */
  lemma AggregateTotalRuns(ms: seq<SkillMetric>, id: string)
    ensures Aggregate(ms, id).totalRuns == Min(AggregateWindow, |RunsOf(ms, id)|)
  {
    var rows := MetricsWindow(ms, id, AggregateWindow);
    if |rows| >= 1 {
      assert Summarize(id, rows).totalRuns == |rows|;
    }
  }

  // ---------------------------------------------------------------------
  // Recent events and the dashboard export

  /** getRecentEvents(limit): `.slice(-limit).reverse()`. Always the
      newest events, newest first: the last `limit` of them for a positive
      limit, all of them for 0 (`slice(-0)` is `slice(0)`), and all but the
      first `-limit` for a negative one. */
  function RecentEvents(es: seq<ForgeEvent>, limit: int): (r: seq<ForgeEvent>)
    ensures |r| <= |es|
    ensures forall k :: 0 <= k < |r| ==> r[k] == es[|es| - 1 - k]
    ensures limit >= 1 ==> |r| == Min(limit, |es|)
    ensures limit == 0 ==> |r| == |es|
    ensures limit < 0 ==> |r| == |es| - Min(-limit, |es|)
  {
    var s := SliceFrom(es, -limit);
    assert s == es[|es| - |s|..];
    Reverse(s)
  }

  datatype DashboardSummary = DashboardSummary(
    skillsTracked: nat, totalRuns: nat, avgTokenSavings: int, avgRuntime: real)

  datatype DashboardData = DashboardData(
    timestamp: int, summary: DashboardSummary,
    skills: seq<AggregatedMetrics>, events: seq<ForgeEvent>)

  function AggregatesOf(ms: seq<SkillMetric>, ids: seq<string>): (r: seq<AggregatedMetrics>)
    ensures |r| == |ids| && forall k :: 0 <= k < |ids| ==> r[k] == Aggregate(ms, ids[k])
  {
    seq(|ids|, k requires 0 <= k < |ids| => Aggregate(ms, ids[k]))
  }

  function SumRuns(aggs: seq<AggregatedMetrics>): nat
  {
    if aggs == [] then 0 else aggs[0].totalRuns + SumRuns(aggs[1..])
  }

  function SumRuntime(aggs: seq<AggregatedMetrics>): real
  {
    if aggs == [] then 0.0 else aggs[0].avgExecutionMs + SumRuntime(aggs[1..])
  }

  /** exportDashboardData, at clock reading `now`: one aggregate per
      tracked skill, in first-run order, the fixed savings figure and at
      most the 100 newest events. */
  function ExportDashboardData(ms: seq<SkillMetric>, es: seq<ForgeEvent>, now: int): (d: DashboardData)
    ensures d.timestamp == now
    ensures d.summary.skillsTracked == |d.skills| == |DistinctIds(ms)|
    ensures forall k :: 0 <= k < |d.skills| ==> d.skills[k] == Aggregate(ms, DistinctIds(ms)[k])
    ensures d.summary.avgTokenSavings == AvgTokenSavingsFigure
    ensures |d.events| == Min(DashboardEventCount, |es|)
  {
    var ids := DistinctIds(ms);
    var aggs := AggregatesOf(ms, ids);
    DashboardData(
      now,
      DashboardSummary(
        |ids|,
        SumRuns(aggs),
        AvgTokenSavingsFigure,
        if |aggs| > 0 then SumRuntime(aggs) / (|aggs| as real) else 0.0),
      aggs,
      RecentEvents(es, DashboardEventCount))
  }

  /** `|RunsOf(ms, ids[0])| + ... + |RunsOf(ms, ids[n-1])|`. */
  function CountSum(ms: seq<SkillMetric>, ids: seq<string>): nat
  {
    if ids == [] then 0 else |RunsOf(ms, ids[0])| + CountSum(ms, ids[1..])
  }

  function Occurrences(ids: seq<string>, x: string): nat
  {
    if ids == [] then 0 else (if ids[0] == x then 1 else 0) + Occurrences(ids[1..], x)
  }

  lemma {:induction false} OccurrencesOfDistinct(ids: seq<string>, x: string)
    requires NoDuplicates(ids)
    ensures Occurrences(ids, x) == if x in ids then 1 else 0
  {
    if ids != [] {
      assert NoDuplicates(ids[1..]) by {
        forall i, j | 0 <= i < j < |ids[1..]| ensures ids[1..][i] != ids[1..][j] {
          assert ids[1..][i] == ids[i + 1] && ids[1..][j] == ids[j + 1];
        }
      }
      OccurrencesOfDistinct(ids[1..], x);
      if ids[0] == x {
        assert x !in ids[1..] by {
          forall j | 0 <= j < |ids[1..]| ensures ids[1..][j] != x {
            assert ids[1..][j] == ids[j + 1];
          }
        }
      } else {
        assert x in ids <==> x in ids[1..] by {
          assert ids == [ids[0]] + ids[1..];
        }
      }
    }
  }

  lemma {:induction false} CountSumAppendRun(ms: seq<SkillMetric>, m: SkillMetric, ids: seq<string>)
    ensures CountSum(ms + [m], ids) == CountSum(ms, ids) + Occurrences(ids, m.skillId)
  {
    if ids != [] {
      RunsOfAppend(ms, m, ids[0]);
      CountSumAppendRun(ms, m, ids[1..]);
    }
  }

  lemma {:induction false} CountSumAppendId(ms: seq<SkillMetric>, ids: seq<string>, x: string)
    ensures CountSum(ms, ids + [x]) == CountSum(ms, ids) + |RunsOf(ms, x)|
  {
    if ids != [] {
      assert (ids + [x])[1..] == ids[1..] + [x];
      CountSumAppendId(ms, ids[1..], x);
    }
  }

  /** Every run belongs to exactly one tracked id. */
  lemma {:induction false} RunsPartitionByDistinctIds(ms: seq<SkillMetric>)
    ensures CountSum(ms, DistinctIds(ms)) == |ms|
  {
    if ms != [] {
      var prefix := ms[..|ms| - 1];
      var m := ms[|ms| - 1];
      var d := DistinctIds(prefix);
      assert ms == prefix + [m];
      RunsPartitionByDistinctIds(prefix);
      CountSumAppendRun(prefix, m, d);
      OccurrencesOfDistinct(d, m.skillId);
      if m.skillId in d {
        assert DistinctIds(ms) == d;
      } else {
        assert DistinctIds(ms) == d + [m.skillId];
        CountSumAppendId(ms, d, m.skillId);
        RunsOfAppend(prefix, m, m.skillId);
        NoRunsMeansNoWindow(prefix, m.skillId);
      }
    }
  }

  lemma {:induction false} SumRunsBound(ms: seq<SkillMetric>, ids: seq<string>)
    ensures SumRuns(AggregatesOf(ms, ids)) <= CountSum(ms, ids)
    ensures (forall k :: 0 <= k < |ids| ==> |RunsOf(ms, ids[k])| <= AggregateWindow) ==>
              SumRuns(AggregatesOf(ms, ids)) == CountSum(ms, ids)
  {
    if ids != [] {
      var aggs := AggregatesOf(ms, ids);
      assert aggs[1..] == AggregatesOf(ms, ids[1..]);
      SumRunsBound(ms, ids[1..]);
      AggregateTotalRuns(ms, ids[0]);
      if forall k :: 0 <= k < |ids| ==> |RunsOf(ms, ids[k])| <= AggregateWindow {
        assert forall k :: 0 <= k < |ids[1..]| ==> |RunsOf(ms, ids[1..][k])| <= AggregateWindow by {
          forall k | 0 <= k < |ids[1..]| ensures |RunsOf(ms, ids[1..][k])| <= AggregateWindow {
            assert ids[1..][k] == ids[k + 1];
          }
        }
      }
    }
  }

  /** The export's summary: total runs never more than the runs recorded
      (equal unless some skill has more than 500 runs), nothing tracked and
      a zero average runtime exactly for an empty run stream, and the
      events newest first. */
  lemma DashboardSummaryFacts(ms: seq<SkillMetric>, es: seq<ForgeEvent>, now: int)
    ensures var d := ExportDashboardData(ms, es, now);
            var ids := DistinctIds(ms);
            && d.summary.totalRuns <= |ms|
            && ((forall id :: id in ids ==> |RunsOf(ms, id)| <= AggregateWindow) ==> d.summary.totalRuns == |ms|)
            && (d.summary.skillsTracked == 0 <==> ms == [])
            && (ms == [] ==> d.summary.avgRuntime == 0.0 && d.summary.totalRuns == 0)
            && (forall k :: 0 <= k < |d.events| ==> d.events[k] == es[|es| - 1 - k])
  {
    var ids := DistinctIds(ms);
    RunsPartitionByDistinctIds(ms);
    SumRunsBound(ms, ids);
    if ms != [] {
      assert HasRun(ms, ms[0].skillId);
    }
  }

  // ---------------------------------------------------------------------
  // The ledger object

  class ForgeDB {
    var metrics: seq<SkillMetric>
    var events: seq<ForgeEvent>
    var skills: map<string, SkillEntry>

    /** Opens a ledger whose stores already hold the given records. */
    constructor (storedMetrics: seq<SkillMetric>, storedEvents: seq<ForgeEvent>, storedSkills: map<string, SkillEntry>)
      ensures metrics == storedMetrics && events == storedEvents && skills == storedSkills
    {
      metrics := storedMetrics;
      events := storedEvents;
      skills := storedSkills;
    }

    /** insertMetric: one record appended at the end of the run stream. */
    method InsertMetric(m: SkillMetric)
      modifies this
      ensures metrics == old(metrics) + [m]
      ensures events == old(events) && skills == old(skills)
    {
      metrics := metrics + [m];
    }

    /** insertEvent: one record appended at the end of the event stream. */
    method InsertEvent(e: ForgeEvent)
      modifies this
      ensures events == old(events) + [e]
      ensures metrics == old(metrics) && skills == old(skills)
    {
      events := events + [e];
    }

    /** registerSkill: read the registry, add the id if it is new, write back. */
    method RegisterSkill(skillId: string, skillPath: string)
      modifies this
      ensures skills == Register(old(skills), skillId, skillPath)
      ensures metrics == old(metrics) && events == old(events)
    {
      var current := skills;
      if skillId !in current {
        current := current[skillId := SkillEntry(skillPath, "v1")];
        skills := current;
      }
    }

    /** getAllSkillIds: a Set filled by one pass over the run stream. */
    method GetAllSkillIds() returns (ids: seq<string>)
      ensures ids == DistinctIds(metrics)
    {
      ids := [];
      var i := 0;
      while i < |metrics|
        invariant 0 <= i <= |metrics|
        invariant ids == DistinctIds(metrics[..i])
      {
        assert metrics[..i + 1][..i] == metrics[..i];
        if metrics[i].skillId !in ids {
          ids := ids + [metrics[i].skillId];
        }
        i := i + 1;
      }
      assert metrics[..i] == metrics;
    }
  }
}
