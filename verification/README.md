# Skill Forge core, modelled in Dafny

Skill Forge watches how "skills" (Markdown instruction files for an AI
agent) perform and decides which ones are worth rewriting. This project
models the sequential logic at the heart of that metrics-to-decision
pipeline and proves properties of it:

- **Ledger** (`ledger.dfy`, module `Ledger`) — `ForgeDB`, a class whose
  fields hold the append-only stream of run samples, the append-only stream
  of lifecycle events and the skill registry. Its queries are functions over
  those fields: the per-skill window, distinct ids in first-seen order, the
  500-run aggregate (means, failure rate, p95 with its `||` fallback),
  newest-first recent events and the dashboard export.
- **Scorer** (`engine.dfy`, module `Engine`) — five capped, additive
  factors, rounded to an integer score; the threshold rule that maps the
  score to optimize, monitor or ok; and the stable descending ranking of all
  tracked skills.
- **A/B gate** (`abtest.dfy`, module `AbTest`) — the timing loop, the means
  (with the error thrown by `reduce` on an empty list), Jaccard similarity
  over lower-cased `\w+` word sets, the length/4 token proxy and savings
  ratio, the pass rule `similarity > 0.7 && tokenSavings > 0`, and the one
  audit event each call appends.
- **Optimizer** (`runner.dfy`, module `Runner`) — the text heuristics:
  - collapsing runs of three or more newlines;
  - removing HTML comments;
  - deduplicating lines while keeping blank lines and headings;
  - the savings header.
  It also models the change summary, the savings arithmetic and the event
  `optimize` appends.
- **Pipeline** (`pipeline.dfy`) — what happens when the optimizer's output
  goes through the gate.

Supporting modules:

- `Types` mirrors the records of `src/types.ts`.
- `Js` models the JavaScript number and array operations the code relies on:
  - division that yields NaN or ±Infinity on a zero divisor;
  - `Math.round`, `slice` with a negative start, and `reverse`;
  - number-to-text conversion.
- `Text` models whitespace trimming, `split`/`join` on `'\n'`, subsequences,
  the JavaScript `length` of a string and the `Math.floor(length / 4)`
  token estimate.

A JavaScript string's `length` counts UTF-16 code units, so a character
above U+FFFF counts twice. The model's `Text.Utf16Length` does the same, and
every `length` in the source (the token estimates, the header percentage, the
character comparison of the change summary) is `Utf16Length`. A Dafny
`string`'s own `|s|` counts characters and appears only where the source
works character by character.

File contents, clock readings and timing samples are parameters:

- an unreadable file is `None`;
- the clock difference of iteration `i` is `elapsed(arm, i)`;
- `Date.now()` is `now`.

Every operation that `reduce`s without an initial value returns
`Failure(EmptyReduce)` on an empty list instead of requiring a non-empty one.

A skill that trips every factor is not necessarily an optimization
candidate. For example, 30 runs averaging 2500 ms and 2500 tokens, with p95
6000 ms and a 10% failure rate, score 41 in src/analyzer/engine.ts. That is a
*monitor* recommendation, not *optimize*. The model follows the code
(`Engine.AllFactorsScenario`).

## Model

| member | source | states |
|---|---|---|
| Ledger.ForgeDB.constructor | src/profiler/db.ts:17-29 | the ledger starts from the stored metrics, events and registry |
| Ledger.ForgeDB.InsertMetric | src/profiler/db.ts:31-33 | appending a metric adds exactly that record at the end of the metrics stream; events and registry unchanged |
| Ledger.ForgeDB.InsertEvent | src/profiler/db.ts:47-49 | appending an event adds exactly that record at the end of the events stream; metrics and registry unchanged |
| Ledger.ForgeDB.RegisterSkill | src/profiler/db.ts:51-57 | the registry becomes `Register(old registry, id, path)`, the intended rule of the db.ts:53 finding below; the streams are unchanged |
| Ledger.Register | src/profiler/db.ts:51-57 | after registering, the id is present and the key set grows by exactly that id |
| Ledger.RegisterIsIdempotent | src/profiler/db.ts:51-57 | a new id gets `{path, "v1"}`; a known id leaves the registry unchanged even with another path; registering twice equals once; other entries untouched |
| Ledger.RegisterAsWrittenDropsInheritedName | src/profiler/db.ts:53 | the code as written leaves the registry empty for id "constructor", while the intended rule records it |
| Ledger.RegisterAsWrittenAgreesElsewhere | src/profiler/db.ts:53 | the as-written and intended rules agree on every id except the inherited object members, where they differ for a new id |
| Ledger.RunsOf | src/profiler/db.ts:60-61 | the filter keeps exactly the records of that skill, in stream order (a subsequence) |
| Ledger.RunsOfAppend | src/profiler/db.ts:43-45 | appending a metric extends a skill's runs by that record exactly when it is that skill's |
| Ledger.NoRunsMeansNoWindow | src/profiler/db.ts:59-63 | a skill without runs has an empty window |
| Ledger.MetricsWindow | src/profiler/db.ts:59-63 | for limit >= 1 the window is the last min(limit, count) runs of the skill, in insertion order, all of that skill; limit 0 keeps them all |
| Ledger.DistinctIds | src/profiler/db.ts:65-69 | no duplicates; an id is present exactly when some run has it, so registered skills without runs are absent |
| Ledger.FirstRunExists | src/profiler/db.ts:65-69 | every id with a run has a first run |
| Ledger.DistinctIdsInFirstSeenOrder | src/profiler/db.ts:65-69 | ids appear in the order of their first run in the stream |
| Ledger.ForgeDB.GetAllSkillIds | src/profiler/db.ts:65-69 | the loop over the stream yields exactly `DistinctIds(metrics)` |
| Ledger.InsertAscending | src/profiler/db.ts:75 | inserting a time into an ascending list keeps it ascending and adds exactly that time |
| Ledger.InsertAscendingSum | src/profiler/db.ts:75 | inserting a time adds it to the sum |
| Ledger.SortAscending | src/profiler/db.ts:75 | `sort((a, b) => a - b)` yields an ascending permutation of the times |
| Ledger.SortAscendingSum | src/profiler/db.ts:75-80 | sorting does not change the sum of the times |
| Ledger.AscendingLastIsMaximum | src/profiler/db.ts:85 | the last element of a sorted list bounds every element |
| Ledger.Failures | src/profiler/db.ts:76 | at most one failure per run |
| Ledger.P95Index | src/profiler/db.ts:85 | `floor(0.95 n)` is `(95 n) div 100` and lies below n when n >= 1 |
| Ledger.Aggregate | src/profiler/db.ts:71-87 | the aggregate names the skill it was asked for |
| Ledger.AggregateOfUnknownSkill | src/profiler/db.ts:72-73 | the all-zero aggregate is returned exactly for a skill without runs |
| Ledger.AggregateOfWindow | src/profiler/db.ts:72-86 | for a skill with runs the aggregate summarises its last min(500, count) runs |
| Ledger.AggregateTotalRuns | src/profiler/db.ts:72-83 | totalRuns is min(500, count) |
| Ledger.P95 | src/profiler/db.ts:85 | p95 is one of the sorted times, no smaller than any time up to index floor(0.95 n), and the largest time when the fallback fires |
| Ledger.Summarize | src/profiler/db.ts:75-86 | the summary names the skill; totalRuns is the window size; 0 <= failureRate <= 1; avgExecutionMs is the mean of the window's unsorted times |
| Ledger.SummarizeFacts | src/profiler/db.ts:75-85 | p95 is the time of one of the window's runs, and the largest of them when the fallback fires |
| Ledger.P95IsATime | src/profiler/db.ts:85 | p95 is one of the window's times, so it lies between their minimum and maximum |
| Ledger.P95FallbackIsMaximum | src/profiler/db.ts:85 | when the time at the p95 index is 0 the `||` fallback yields the maximum time |
| Ledger.RecentEvents | src/profiler/db.ts:89-91 | the k-th event is the k-th newest; min(limit, count) events for limit >= 1, all of them for limit 0, all but the first -limit for a negative limit |
| Ledger.ExportDashboardData | src/profiler/db.ts:93-110 | the export carries the clock reading, one aggregate per distinct id in id order, skillsTracked equal to their number, the savings figure 34, and min(100, count) events |
| Ledger.OccurrencesOfDistinct | src/profiler/db.ts:65-69 | an id occurs once in the distinct list when present, else not at all |
| Ledger.RunsPartitionByDistinctIds | src/profiler/db.ts:94-97 | the runs of the distinct ids add up to the whole stream |
| Ledger.SumRunsBound | src/profiler/db.ts:97 | the summed totalRuns never exceed the runs, and equal them when no skill has more than 500 runs |
| Ledger.DashboardSummaryFacts | src/profiler/db.ts:93-110 | totalRuns <= stream size, and equals it when no skill exceeds the window; nothing is tracked exactly when there are no runs, and then avgRuntime and totalRuns are 0; events are newest first |
| Engine.Contribution | src/analyzer/engine.ts:27-56 | a factor contributes nothing unless it triggers, then a positive amount no larger than its cap (30, 25, 20, 15, 10) |
| Engine.ScoreMetrics | src/analyzer/engine.ts:24-64 | the step-by-step score and reason list equal the factor-wise assessment |
| Engine.Analyze | src/analyzer/engine.ts:22-65 | the analysis is the assessment of exactly `getAggregate(skillId)` |
| Engine.ReasonsInFactorOrder | src/analyzer/engine.ts:27-56 | the reasons are the triggered factors' reasons in the order token, latency, spike, failure, volume |
| Engine.RawScoreBounds | src/analyzer/engine.ts:27-56 | the capped contributions add up to a raw score between 0 and 100 |
| Engine.Score | src/analyzer/engine.ts:58 | the score is an integer from 0 to 100 within half a point of the raw sum |
| Engine.ScoreCapNeverBinds | src/analyzer/engine.ts:58 | the score is exactly the rounded raw sum: `min(100, ...)` never binds |
| Engine.Assess | src/analyzer/engine.ts:58-64 | the analysis keeps the id and metrics, scores 0 to 100, and recommends optimize iff score >= 50, monitor iff 25 <= score < 50, ok iff score < 25 |
| Engine.RecommendationMonotone | src/analyzer/engine.ts:60-62 | a higher score never gives a milder recommendation |
| Engine.ReasonNamesItsFactor | src/analyzer/engine.ts:31-55 | each reason identifies the factor that produced it |
| Engine.ReasonsOverSound | src/analyzer/engine.ts:27-56 | every reason comes from a triggered factor of the list |
| Engine.ReasonsOverComplete | src/analyzer/engine.ts:27-56 | every triggered factor of the list has a reason |
| Engine.ReasonsOverOrdered | src/analyzer/engine.ts:27-56 | reasons follow the factor order |
| Engine.ReasonsFollowFactors | src/analyzer/engine.ts:27-56 | one reason per triggered factor, in factor order, each with that factor's values |
| Engine.NothingTriggeredMeansOk | src/analyzer/engine.ts:24-62 | with no factor triggered the score is 0, there are no reasons and the recommendation is ok; reasons are empty exactly then |
| Engine.UnknownSkillIsOk | src/analyzer/engine.ts:23-62 | a skill without runs (the all-zero aggregate) scores 0 with no reasons and ok |
| Engine.AllFactorsScenario | src/analyzer/engine.ts:27-62 | 30 runs at 2500 ms and 2500 tokens, p95 6000 ms and 10% failures trigger every factor and score 41, monitor |
| Engine.InsertByScore | src/analyzer/engine.ts:19 | inserting into a descending list keeps it descending and adds exactly that result |
| Engine.InsertByScoreKeepsTies | src/analyzer/engine.ts:19 | the inserted result goes before every result of equal score, as a stable sort over the list does |
| Engine.SortByScore | src/analyzer/engine.ts:19 | the sort yields a descending permutation |
| Engine.SortByScoreStable | src/analyzer/engine.ts:19 | results with the same score keep their relative order |
| Engine.AnalyzeAll | src/analyzer/engine.ts:15-20 | one result per tracked id, a permutation of the analyses in getAllSkillIds order, scores non-increasing |
| Engine.AnalyzeAllRanksEveryTrackedSkill | src/analyzer/engine.ts:15-20 | ties keep getAllSkillIds order, and a skill is ranked exactly when it has runs |
| AbTest.LowerChar | src/validator/abtest.ts:87-88 | lower-casing leaves no ASCII capital and does not change whether a character is a word character |
| AbTest.WordRuns | src/validator/abtest.ts:87-88 | the `\w+` matches are non-empty runs of word characters |
| AbTest.NoRunsWithoutWordChars | src/validator/abtest.ts:87-88 | there are no matches exactly when the text has no word character |
| AbTest.WordsEmptyIff | src/validator/abtest.ts:87-88 | the word set is empty exactly when the text has no word character |
| AbTest.Jaccard | src/validator/abtest.ts:89-91 | the similarity lies in [0, 1] |
| AbTest.JaccardSymmetric | src/validator/abtest.ts:85-92 | similarity is symmetric in its arguments |
| AbTest.JaccardOneIff | src/validator/abtest.ts:89-91 | similarity is 1 exactly when the word sets are equal and non-empty; 0 when both are empty |
| AbTest.SameWordsFullySimilar | src/validator/abtest.ts:85-92 | texts equal up to ASCII case are fully similar when they have words, else 0 |
| AbTest.Similarity | src/validator/abtest.ts:85-92 | computeSimilarity lies in [0, 1], is 1 exactly for the same non-empty word set, and 0 for two texts without words |
| AbTest.TokenSavings | src/validator/abtest.ts:48-50 | the savings are finite exactly when the original is estimated at one token or more, and then at most 1 |
| AbTest.GatePasses | src/validator/abtest.ts:55 | the gate passes iff similarity > 0.7 and the savings are +Infinity or a positive number; NaN and -Infinity never pass |
| AbTest.TokenSavingsPositiveIff | src/validator/abtest.ts:48-50 | savings are > 0 exactly when the optimized estimate is smaller; a 0-token original gives NaN or -Infinity |
| AbTest.Samples | src/validator/abtest.ts:32-42 | each timing list has `iterations` entries (none when iterations <= 0) |
| AbTest.SamplesStep | src/validator/abtest.ts:32-42 | one more iteration appends that iteration's sample |
| AbTest.Measure | src/validator/abtest.ts:29-42 | the loop collects exactly the per-iteration samples of each arm |
| AbTest.Mean | src/validator/abtest.ts:44-45 | the mean fails with the reduce error exactly on an empty list |
| AbTest.MeanTimesLength | src/validator/abtest.ts:44-45 | a mean times the count is the total, and it is non-negative |
| AbTest.Judge | src/validator/abtest.ts:44-66 | the result carries the id, version "v2" and both timing lists, a similarity in [0, 1], finite savings exactly for a non-zero original estimate, and passes only above 0.7 similarity |
| AbTest.Verdict | src/validator/abtest.ts:25-45 | success exactly when both files were read and the loop ran; an unreadable original is reported first, then an unreadable optimized file, then the reduce error |
| AbTest.Validate | src/validator/abtest.ts:19-77 | the result is the verdict for the read files and measured samples; a result appends exactly one event (validator, passed/failed); a failure appends none; metrics and registry untouched |
| AbTest.GateIff | src/validator/abtest.ts:55 | passed iff similarity > 0.7 and the optimized token estimate is strictly smaller |
| AbTest.TimingsNeverDecide | src/validator/abtest.ts:44-55 | speedImprovement and the timings play no part in passing |
| AbTest.IdenticalContentFails | src/validator/abtest.ts:48-55 | identical texts save 0 (NaN at 0 tokens) and never pass |
| AbTest.NoWordsNeverPasses | src/validator/abtest.ts:53-55 | texts without word characters are 0% similar and never pass |
| AbTest.VerdictShape | src/validator/abtest.ts:32-66 | iterations <= 0 fails with the reduce error; otherwise both sample lists have `iterations` entries and version is "v2" |
| Runner.NewlineRun | src/optimizer/runner.ts:64 | the length of the leading run of newlines |
| Runner.CollapseBlankLines | src/optimizer/runner.ts:64 | the replacement never lengthens the text |
| Runner.CollapseUtf16Length | src/optimizer/runner.ts:64 | the replacement never adds code units |
| Runner.LeadUtf16Length | src/optimizer/runner.ts:64 | each replaced run emits no more code units than it consumes |
| Runner.CollapseLeavesNoTriple | src/optimizer/runner.ts:64 | no run of three newlines remains |
| Runner.CollapseKeepsText | src/optimizer/runner.ts:64 | only newlines are removed: the text without newlines is unchanged |
| Runner.CollapseFixesCollapsed | src/optimizer/runner.ts:64 | a text without a triple newline is left as is |
| Runner.CollapseIdempotent | src/optimizer/runner.ts:64 | collapsing twice equals collapsing once |
| Runner.FindClose | src/optimizer/runner.ts:67 | the lazy `[\s\S]*?` finds the nearest following `-->`, or none |
| Runner.StripComments | src/optimizer/runner.ts:67 | removing comments never lengthens the text |
| Runner.StripCommentsSubsequence | src/optimizer/runner.ts:67 | the result is a subsequence of the input |
| Runner.StripWithoutOpener | src/optimizer/runner.ts:67 | a text without `<!--` is unchanged |
| Runner.CommentAtStartRemoved | src/optimizer/runner.ts:67 | a leading comment is removed up to the nearest `-->` |
| Runner.LineKey | src/optimizer/runner.ts:80-81 | blank and `#` lines (after trim) have no key; any other line is keyed by its trimmed text, which is non-empty, does not start with `#` and has no whitespace at either end |
| Runner.KeptDropsRepeatsOrKeeps | src/optimizer/runner.ts:81-84 | a line is kept, or dropped only when its key was already seen |
| Runner.DedupeBy | src/optimizer/runner.ts:77-86 | dedupe never adds lines |
| Runner.DedupeLineStep | src/optimizer/runner.ts:80-84 | one filter step: keep structural lines; keep and remember an unseen trimmed line; drop a seen one |
| Runner.DedupeLines | src/optimizer/runner.ts:77-86 | the filter with its mutable seen-set yields `Dedupe(lines)` |
| Runner.DedupeBySubsequence | src/optimizer/runner.ts:79-85 | the output is a subsequence of the input lines |
| Runner.RepeatsIff | src/optimizer/runner.ts:82 | a line is a repeat exactly when its key is among the earlier keys |
| Runner.KeptDropsRepeats | src/optimizer/runner.ts:81-84 | a line is dropped exactly when an earlier line has the same key |
| Runner.DedupeKeepsFirstOccurrences | src/optimizer/runner.ts:77-86 | dedupe keeps every structural line and exactly the first occurrence of every other trimmed text |
| Runner.DedupeByKeepsUnkeyed | src/optimizer/runner.ts:81 | every blank and heading line is kept, in order |
| Runner.DedupeByKeepsKeys | src/optimizer/runner.ts:82-84 | every trimmed text of the input is still present (or was already seen) |
| Runner.DedupeByDistinct | src/optimizer/runner.ts:82-84 | no two kept keyed lines share their trimmed text |
| Runner.DedupeByKeepsDistinct | src/optimizer/runner.ts:77-86 | lines already distinct and unseen are left as they are |
| Runner.DedupeFacts | src/optimizer/runner.ts:77-86 | the result is a subsequence, keeps all blank and heading lines, has distinct trimmed texts and loses none |
| Runner.DedupeIdempotent | src/optimizer/runner.ts:77-86 | deduplicating twice equals once |
| Runner.Body | src/optimizer/runner.ts:61-86 | the processed body is never longer than the content, in characters or in UTF-16 code units |
| Runner.SavingsPercent | src/optimizer/runner.ts:89 | for empty content NaN (or -Infinity for a non-empty body); for a body no longer in code units, an integer in [0, 100] |
| Runner.SavingsPercentRange | src/optimizer/runner.ts:89 | the header percentage for the file's own body is an integer in [0, 100], or NaN for empty content |
| Runner.HeaderLineShape | src/optimizer/runner.ts:90 | the header line starts with the fixed prefix and is one line ending in a newline |
| Runner.OptimizedTextShape | src/optimizer/runner.ts:89-92 | the result is the header line followed by the body, and is longer than prefix plus body in characters and in code units |
| Runner.HeuristicOptimize | src/optimizer/runner.ts:60-93 | the step-by-step rewrite yields the header for the body's savings followed by the body |
| Runner.ChangesOf | src/optimizer/runner.ts:95-106 | at most two entries; a line entry first iff fewer lines, with both counts; a character entry last iff fewer code units, with a percentage in [0, 100] |
| Runner.DiffChanges | src/optimizer/runner.ts:95-106 | the pushed changes are `ChangesOf(original, optimized)` |
| Runner.Rewrite | src/optimizer/runner.ts:27-47 | the result record holds the optimized text, its changes and the token and time savings |
| Runner.EstimatedSavings | src/optimizer/runner.ts:34-46 | timeMs is 0.15 x avg rounded to within 0.5; tokens > 0 iff the floor-by-four estimate dropped; never negative for a text no longer in code units |
| Runner.Optimize | src/optimizer/runner.ts:21-58 | an unreadable file fails with nothing written; otherwise the result is the rewrite of the content with savings from the skill's aggregate, and exactly one optimizer event is appended |
| Pipeline.SavingsAgreeWithGate | src/optimizer/runner.ts:34-44 | the optimizer reports saved tokens exactly when the gate sees positive savings |
| Pipeline.FewerTokensMeansShorter | src/validator/abtest.ts:48-49 | a smaller floor-by-four estimate means fewer code units |
| Pipeline.GateNeedsSavingsBeyondHeader | src/optimizer/runner.ts:89-90 | the gate passes the optimizer's output only when the body is shorter than the content, in code units, by more than the header prefix |
| Pipeline.UnchangedBodyFailsGate | src/optimizer/runner.ts:89-90 | content the heuristics leave unchanged never passes the gate |
| Js.Divide | src/validator/abtest.ts:46-50 | division is finite exactly for a non-zero divisor and then is the quotient |
| Js.Round | src/optimizer/runner.ts:45 | `Math.round` lies within 0.5 of its argument |
| Js.SliceFrom | src/profiler/db.ts:62 | `slice(start)` is a suffix of the computed length, also for negative starts |
| Js.Reverse | src/profiler/db.ts:90 | `reverse` maps index k to index n-1-k |
| Text.TrimFacts | src/optimizer/runner.ts:80 | `trim` keeps a contiguous middle that neither starts nor ends with whitespace, and everything it drops before and after is whitespace |
| Text.Split | src/optimizer/runner.ts:77 | `split('\n')` yields at least one piece, none containing a newline |
| Text.JoinSplit | src/optimizer/runner.ts:77-86 | joining the split lines gives back the text |
| Text.Utf16Length | src/validator/abtest.ts:48-49 | `length` counts one or two code units per character, and is 0 only for the empty string |
| Text.Utf16LengthAppend | src/optimizer/runner.ts:89-90 | the length of a concatenation is the sum of the lengths |
| Text.SurrogatePairsCountTwice | src/optimizer/runner.ts:34-35 | two emoji are 4 code units, hence estimated at 1 token |
| Text.TokenEstimate | src/validator/abtest.ts:48-49 | the estimate is `floor(length / 4)` with length in code units |
| Text.SubsequenceUtf16Length | src/optimizer/runner.ts:67 | deleting characters never adds code units |
| Text.JoinUtf16Length | src/optimizer/runner.ts:86 | a join has the code units of its lines plus one per newline |
| Text.JoinSubsequenceUtf16Length | src/optimizer/runner.ts:79-86 | joining fewer lines never gives more code units |
| Text.JoinSubsequenceLength | src/optimizer/runner.ts:79-86 | joining fewer lines never gives a longer text |

## Left out

- File I/O: the JSON lines of `appendLine`/`readLines`, the registry file, directory creation and the optimized-file write are replaced by in-memory sequences, a map and parameters.
- `readLines` throws on a malformed line (src/profiler/db.ts:35-41). The model's streams hold parsed records only.
- `Date.now`, `setTimeout`, `Math.random` and `simulateExecution` (src/validator/abtest.ts:79-83) become the parameters `now` and `elapsed`.
- Exact floating point is not modelled. Means, ratios and factor contributions are exact reals. `Math.floor(n * 0.95)` is taken as `(95 n) div 100`, which agrees for window sizes up to 500.
- The text of reasons and event details (`toFixed`, template strings) is left out. Reasons and details keep the values they quote.
- The timing lists keep the samples themselves, not their bracketed text.
- `Math.round` is modelled as `floor(x + 0.5)`, which matches JavaScript for every real argument.
- `toLowerCase` lowers ASCII letters only; other Unicode case mappings are not modelled.
- Bullet truncation (src/optimizer/runner.ts:70-74) is not modelled. It depends on backtracking regex semantics and a mis-encoded ellipsis literal. `Body` goes straight from comment stripping to deduplication.
- Runner.StripComments: states only that the text gets no longer, that the result is a subsequence, and how a leading comment is removed. It does not claim that no `<!--` remains afterwards: an unclosed opener stays.
- The optimized path (`SKILL.optimized.md` beside the skill) is a parameter. The prompt built at src/optimizer/runner.ts:24 is unused and not modelled.
- `src/optimizer/prompts.ts`, `src/core/orchestrator.ts`, `src/profiler/core.ts` and every `cli.ts` are not part of this model. They hold templating, discovery, console output and timing glue. The `promoted` event is appended only by src/validator/cli.ts:36-43; the orchestrator merely logs.
- `ForgeDB.close` and the storage directory are not modelled.
- Ledger.ForgeDB.RegisterSkill applies the intended rule of the db.ts:53 finding (`Ledger.Register`), not the code as written. `Ledger.RegisterAsWritten` models the code as written, and the two differ only for the names every object inherits, such as "constructor".

## Findings

| source | as written | input that shows it | evidently intended | confidence | as-written member | corrected member |
|---|---|---|---|---|---|---|
| src/profiler/db.ts:53 | `!skills[skillId]` on a plain object also sees the members every object inherits | `registerSkill("constructor", p)` on an empty registry leaves it empty | a new id is recorded with `{path, "v1"}` whatever its name | not executed | Ledger.RegisterAsWrittenDropsInheritedName | Ledger.RegisterIsIdempotent |
