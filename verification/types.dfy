/** The records exchanged by the ledger, the scorer, the optimizer and the
    validation gate (src/types.ts), plus the small wrappers the model needs. */
module Types {

  datatype Option<+T> = None | Some(value: T)

  datatype Result<+T, +E> = Success(value: T) | Failure(error: E)

  /** A JavaScript number produced by a division: a finite value, or one of
      the IEEE special values that a division by zero yields. */
  datatype Num = Finite(v: real) | NaN | PosInfinity | NegInfinity

  /** One observed execution of a skill version. Times and token counts are
      non-negative integers (differences of millisecond clock readings and
      length-based estimates). */
  datatype SkillMetric = SkillMetric(
    id: Option<int>,
    skillId: string,
    executionMs: nat,
    tokensIn: nat,
    tokensOut: nat,
    success: bool,
    timestamp: int,
    version: string)

  /** The windowed summary of one skill's runs. */
  datatype AggregatedMetrics = AggregatedMetrics(
    skillId: string,
    avgExecutionMs: real,
    avgTokensIn: real,
    avgTokensOut: real,
    totalRuns: nat,
    failureRate: real,
    p95ExecutionMs: nat)

  datatype Recommendation = Optimize | Monitor | Ok

  /** A human-readable reason, kept as the factor that produced it and the
      measured values it quotes (the text formatting is not modelled). */
  datatype Reason =
    | HighTokenUsage(avgTokens: real)
    | SlowExecution(avgMs: real)
    | LatencySpikes(p95Ms: nat, avgMs: real)
    | HighFailureRate(rate: real)
    | HighVolume(runs: nat)

  datatype AnalysisResult = AnalysisResult(
    skillId: string,
    metrics: AggregatedMetrics,
    score: int,
    reasons: seq<Reason>,
    recommendation: Recommendation)

  /** A change description produced when comparing the original and the
      optimized text. */
  datatype Change =
    | LinesReduced(fromLines: nat, toLines: nat)
    | FewerCharacters(percent: int)

  datatype Savings = Savings(tokens: int, timeMs: int)

  datatype OptimizationResult = OptimizationResult(
    skillId: string,
    originalPath: string,
    optimizedPath: string,
    optimizedContent: string,
    changes: seq<Change>,
    estimatedSavings: Savings)

  /** The verdict of the A/B gate. The two output fields hold the timing
      samples themselves rather than their bracketed text rendering. */
  datatype ValidationResult = ValidationResult(
    skillId: string,
    version: string,
    passed: bool,
    originalOutput: seq<nat>,
    optimizedOutput: seq<nat>,
    similarityScore: real,
    speedImprovement: Num,
    tokenSavings: Num)

  datatype EventModule = Profiler | Analyzer | Optimizer | Validator | Forge

  /** The free-text details of an event, kept as the values the text reports. */
  datatype Details =
    | Text(text: string)
    | ValidationSummary(similarity: real, speed: Num, tokens: Num)
    | OptimizationSummary(savedTokens: int, percent: Num)

  datatype ForgeEvent = ForgeEvent(
    timestamp: int,
    origin: EventModule,   // the `module` field of the record
    action: string,
    skillId: string,
    details: Details)

  /** The failures the core can raise: an unreadable artifact, and the
      TypeError of reducing an empty list without an initial value. */
  datatype ForgeError = ContentUnavailable(path: string) | EmptyReduce
}
