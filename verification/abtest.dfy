/** The A/B validation gate (src/validator/abtest.ts): time both versions of
    a skill, estimate their token counts, compare their word sets, and pass
    the optimized version only when it is similar enough and strictly
    cheaper in estimated tokens. */
module AbTest {
  import opened Types
  import opened Js
  import opened Text
  import opened Ledger

  // ---------------------------------------------------------------------
  // Word sets: `new Set(s.toLowerCase().match(/\w+/g) || [])`

  /** `\w` without the `u` flag: ASCII letters, digits and '_'. */
  predicate IsWordChar(c: char)
  {
    ('a' <= c <= 'z') || ('A' <= c <= 'Z') || ('0' <= c <= '9') || c == '_'
  }

  /** String.prototype.toLowerCase on ASCII letters. */
  function LowerChar(c: char): (r: char)
    ensures IsWordChar(r) <==> IsWordChar(c)
    ensures !('A' <= r <= 'Z')
  {
    if 'A' <= c <= 'Z' then (c as int + 32) as char else c
  }

  function Lower(s: string): (r: string)
    ensures |r| == |s| && forall i :: 0 <= i < |s| ==> r[i] == LowerChar(s[i])
  {
    seq(|s|, i requires 0 <= i < |s| => LowerChar(s[i]))
  }

  /** The length of the run of word characters at the start of `s`. */
  function RunLength(s: string): (n: nat)
    ensures n <= |s|
    ensures forall k :: 0 <= k < n ==> IsWordChar(s[k])
    ensures n == |s| || !IsWordChar(s[n])
  {
    if s == [] || !IsWordChar(s[0]) then 0 else 1 + RunLength(s[1..])
  }

  /** The matches of /\w+/g, left to right: the maximal runs of word
      characters. */
  function WordRuns(s: string): (r: seq<string>)
    ensures forall k :: 0 <= k < |r| ==> |r[k]| >= 1 && forall i :: 0 <= i < |r[k]| ==> IsWordChar(r[k][i])
    decreases |s|
  {
    if s == [] then []
    else
      var n := RunLength(s);
      if n == 0 then WordRuns(s[1..]) else [s[..n]] + WordRuns(s[n..])
  }

  /** The word set computeSimilarity builds from one text. */
  function Words(s: string): set<string>
  {
    set w | w in WordRuns(Lower(s))
  }

  /** A text has no words exactly when it has no word character. */
  lemma {:induction false} NoRunsWithoutWordChars(s: string)
    ensures WordRuns(s) == [] <==> forall i :: 0 <= i < |s| ==> !IsWordChar(s[i])
    decreases |s|
  {
    if s != [] {
      var n := RunLength(s);
      if n == 0 {
        NoRunsWithoutWordChars(s[1..]);
        assert forall i :: 1 <= i < |s| ==> s[i] == s[1..][i - 1];
      }
    }
  }

  lemma WordsEmptyIff(s: string)
    ensures Words(s) == {} <==> forall i :: 0 <= i < |s| ==> !IsWordChar(s[i])
  {
    NoRunsWithoutWordChars(Lower(s));
    if WordRuns(Lower(s)) != [] {
      assert WordRuns(Lower(s))[0] in Words(s);
    }
  }

  // ---------------------------------------------------------------------
  // Similarity and token savings

  /** Jaccard similarity of two word sets; 0 when both are empty. */
  function Jaccard(a: set<string>, b: set<string>): (r: real)
    ensures 0.0 <= r <= 1.0
  {
    var union := a + b;
    var both := a * b;
    SubsetCardinality(both, union);
    if |union| == 0 then 0.0
    else
      FractionBounds(|both| as real, |union| as real);
      |both| as real / |union| as real
  }

  lemma SubsetCardinality(x: set<string>, y: set<string>)
    requires x <= y
    ensures |x| <= |y|
    ensures |x| == |y| ==> x == y
  {
    assert y == x + (y - x);
    assert x * (y - x) == {};
    if |x| == |y| {
      assert |y - x| == 0;
    }
  }

  /** computeSimilarity: the Jaccard similarity of the two word sets, a
      fraction that is 1 exactly for the same non-empty word set and 0 for
      two texts without words. */
  function Similarity(a: string, b: string): (r: real)
    ensures 0.0 <= r <= 1.0
    ensures r == 1.0 <==> Words(a) == Words(b) && Words(a) != {}
    ensures Words(a) == {} && Words(b) == {} ==> r == 0.0
  {
    JaccardOneIff(Words(a), Words(b));
    Jaccard(Words(a), Words(b))
  }

  lemma JaccardSymmetric(a: set<string>, b: set<string>)
    ensures Jaccard(a, b) == Jaccard(b, a)
  {
    assert a + b == b + a && a * b == b * a;
  }

  /** Similarity 1 means the same, non-empty word set; two texts without
      words have similarity 0. */
  lemma {:induction false} JaccardOneIff(a: set<string>, b: set<string>)
    ensures Jaccard(a, b) == 1.0 <==> a == b && a != {}
    ensures a == {} && b == {} ==> Jaccard(a, b) == 0.0
  {
    var union := a + b;
    var both := a * b;
    if Jaccard(a, b) == 1.0 {
      assert |union| != 0;
      assert |both| == |union|;
      SubsetCardinality(both, union);
      assert a == union && b == union;
    }
    if a == b && a != {} {
      assert both == a && union == a;
    }
  }

  /** `(origTokens - optTokens) / origTokens` on the length/4 estimates:
      a finite fraction of at most 1 exactly when the original is
      estimated at one token or more. */
  function TokenSavings(original: string, optimized: string): (r: Num)
    ensures r.Finite? <==> TokenEstimate(original) > 0
    ensures r.Finite? ==> r.v <= 1.0
  {
    var origTokens := TokenEstimate(original) as real;
    var optTokens := TokenEstimate(optimized) as real;
    if origTokens > 0.0 then
      SavedFraction(origTokens, optTokens);
      Divide(origTokens - optTokens, origTokens)
    else
      Divide(origTokens - optTokens, origTokens)
  }

  /** `similarity > 0.7 && tokenSavings > 0`: NaN and -Infinity savings
      never pass, +Infinity does. */
  predicate GatePasses(similarity: real, tokenSavings: Num)
    ensures GatePasses(similarity, tokenSavings) <==>
              similarity > 0.7 && (tokenSavings == PosInfinity || (tokenSavings.Finite? && tokenSavings.v > 0.0))
  {
    similarity > 0.7 && GreaterThan(tokenSavings, 0.0)
  }

  /** The token savings are positive exactly when the optimized text has a
      strictly smaller token estimate; an original estimated at 0 tokens
      yields NaN or -Infinity, which never count as savings. */
  lemma {:induction false} TokenSavingsPositiveIff(original: string, optimized: string)
    ensures (GreaterThan(TokenSavings(original, optimized), 0.0)
             <==> TokenEstimate(optimized) < TokenEstimate(original))
    ensures TokenEstimate(original) == 0 ==>
              TokenSavings(original, optimized) == NaN || TokenSavings(original, optimized) == NegInfinity
  {
    var o := TokenEstimate(original) as real;
    var p := TokenEstimate(optimized) as real;
    if o != 0.0 {
      SavedFraction(o, p);
    }
  }

  /** The saved fraction of a positive count `o` when `p` remains. */
  lemma SavedFraction(o: real, p: real)
    requires o > 0.0 && p >= 0.0
    ensures (o - p) / o > 0.0 <==> p < o
    ensures (o - p) / o <= 1.0
  {
    var v := (o - p) / o;
    assert v * o == o - p;
    if v > 0.0 {
      assert o - p > 0.0;
    }
    if o - p > 0.0 {
      assert v > 0.0;
    }
    if v > 1.0 {
      assert (v - 1.0) * o > 0.0;
    }
  }

  // ---------------------------------------------------------------------
  // The verdict

  datatype Arm = Original | Optimized

  /** The timings the loop collects for one arm: iteration i of the loop
      measures `elapsed(arm, i)` milliseconds; a non-positive iteration
      count runs the loop zero times. */
  function Samples(elapsed: (Arm, nat) -> nat, arm: Arm, iterations: int): (r: seq<nat>)
    ensures |r| == if iterations > 0 then iterations else 0
  {
    var n := if iterations > 0 then iterations else 0;
    seq(n, i requires 0 <= i < n => elapsed(arm, i))
  }

  /** One more iteration appends one timing. */
  lemma SamplesStep(elapsed: (Arm, nat) -> nat, arm: Arm, i: nat)
    ensures Samples(elapsed, arm, i + 1) == Samples(elapsed, arm, i) + [elapsed(arm, i)]
  {
  }

  lemma SamplesOfNonPositive(elapsed: (Arm, nat) -> nat, iterations: int)
    ensures iterations <= 0 ==>
              Samples(elapsed, Original, iterations) == [] && Samples(elapsed, Optimized, iterations) == []
  {
  }

  /** `xs.reduce((a, b) => a + b) / xs.length`: reducing an empty array
      without an initial value throws. */
  function Mean(xs: seq<nat>): (r: Result<real, ForgeError>)
    ensures r.Failure? <==> xs == []
    ensures r.Failure? ==> r.error == EmptyReduce
  {
    if xs == [] then Failure(EmptyReduce) else Success(Sum(xs) as real / |xs| as real)
  }

  /** The mean of a non-empty list is non-negative and, times the length,
      gives back the total. */
  lemma MeanTimesLength(xs: seq<nat>)
    requires xs != []
    ensures 0.0 <= Mean(xs).value && Mean(xs).value * |xs| as real == Sum(xs) as real
  {
  }

  /** The result record once both texts and both timing lists are known:
      version "v2", the raw timings, a similarity fraction, and finite
      token savings exactly when the original is estimated at one token or
      more. */
  function Judge(skillId: string, original: string, optimized: string, origTimes: seq<nat>, optTimes: seq<nat>): (v: ValidationResult)
    requires origTimes != [] && optTimes != []
    ensures v.skillId == skillId && v.version == "v2"
    ensures v.originalOutput == origTimes && v.optimizedOutput == optTimes
    ensures 0.0 <= v.similarityScore <= 1.0
    ensures v.tokenSavings.Finite? <==> TokenEstimate(original) > 0
    ensures v.passed ==> v.similarityScore > 0.7
  {
    var avgOrig := Mean(origTimes).value;
    var avgOpt := Mean(optTimes).value;
    var speedImprovement := Divide(avgOrig - avgOpt, avgOrig);
    var tokenSavings := TokenSavings(original, optimized);
    var similarity := Similarity(original, optimized);
    ValidationResult(skillId, "v2", GatePasses(similarity, tokenSavings), origTimes, optTimes,
                     similarity, speedImprovement, tokenSavings)
  }

  /** validate: the file reads (original first), the timing loop, the
      averages, and the result. It succeeds exactly when both files were
      read and the loop ran; an unreadable original is reported before
      anything else, an unreadable optimized file before the timings. */
  function Verdict(skillId: string, originalPath: string, optimizedPath: string,
                   original: Option<string>, optimized: Option<string>,
                   origTimes: seq<nat>, optTimes: seq<nat>): (r: Result<ValidationResult, ForgeError>)
    ensures r.Success? <==> original.Some? && optimized.Some? && origTimes != [] && optTimes != []
    ensures original.None? ==> r == Failure(ContentUnavailable(originalPath))
    ensures original.Some? && optimized.None? ==> r == Failure(ContentUnavailable(optimizedPath))
    ensures original.Some? && optimized.Some? && (origTimes == [] || optTimes == []) ==> r == Failure(EmptyReduce)
  {
    if original.None? then Failure(ContentUnavailable(originalPath))
    else if optimized.None? then Failure(ContentUnavailable(optimizedPath))
    else if origTimes == [] || optTimes == [] then Failure(EmptyReduce)
    else Success(Judge(skillId, original.value, optimized.value, origTimes, optTimes))
  }

  /** The event validate appends once it has a result. */
  function ValidationEvent(now: int, v: ValidationResult): ForgeEvent
  {
    ForgeEvent(now, Validator, if v.passed then "passed" else "failed", v.skillId,
               ValidationSummary(v.similarityScore, v.speedImprovement, v.tokenSavings))
  }

  /** validate(skillId, originalPath, optimizedPath, iterations). The file
      contents (None for an unreadable file), the clock differences
      `elapsed` and the clock reading `now` for the event are parameters. */
  method Validate(db: ForgeDB, skillId: string, originalPath: string, optimizedPath: string,
                  original: Option<string>, optimized: Option<string>, iterations: int,
                  elapsed: (Arm, nat) -> nat, now: int)
    returns (r: Result<ValidationResult, ForgeError>)
    modifies db
    ensures r == Verdict(skillId, originalPath, optimizedPath, original, optimized,
                         Samples(elapsed, Original, iterations), Samples(elapsed, Optimized, iterations))
    ensures r.Success? ==> db.events == old(db.events) + [ValidationEvent(now, r.value)]
    ensures r.Failure? ==> db.events == old(db.events)
    ensures db.metrics == old(db.metrics) && db.skills == old(db.skills)
  {
    if original.None? {
      return Failure(ContentUnavailable(originalPath));
    }
    if optimized.None? {
      return Failure(ContentUnavailable(optimizedPath));
    }

    var origMetrics, optMetrics := Measure(iterations, elapsed);
    if origMetrics == [] || optMetrics == [] {
      return Failure(EmptyReduce);
    }
    var v := Judge(skillId, original.value, optimized.value, origMetrics, optMetrics);
    db.InsertEvent(ValidationEvent(now, v));
    r := Success(v);
  }

  /** The timing loop of validate: each iteration times the original, then
      the optimized version. */
  method Measure(iterations: int, elapsed: (Arm, nat) -> nat) returns (origMetrics: seq<nat>, optMetrics: seq<nat>)
    ensures origMetrics == Samples(elapsed, Original, iterations)
    ensures optMetrics == Samples(elapsed, Optimized, iterations)
  {
    origMetrics := [];
    optMetrics := [];
    var i := 0;
    while i < iterations
      invariant 0 <= i <= (if iterations > 0 then iterations else 0)
      invariant origMetrics == Samples(elapsed, Original, i)
      invariant optMetrics == Samples(elapsed, Optimized, i)
      decreases iterations - i
    {
      SamplesStep(elapsed, Original, i);
      SamplesStep(elapsed, Optimized, i);
      origMetrics := origMetrics + [elapsed(Original, i)];
      optMetrics := optMetrics + [elapsed(Optimized, i)];
      i := i + 1;
    }
    SamplesOfNonPositive(elapsed, iterations);
  }

  // ---------------------------------------------------------------------
  // Properties of the gate

  /** The gate passes exactly when the word sets are more than 70% similar
      and the optimized text has a strictly smaller token estimate; the
      timings never decide it. */
  lemma GateIff(skillId: string, original: string, optimized: string, origTimes: seq<nat>, optTimes: seq<nat>)
    requires origTimes != [] && optTimes != []
    ensures (Judge(skillId, original, optimized, origTimes, optTimes).passed
             <==> Similarity(original, optimized) > 0.7 && TokenEstimate(optimized) < TokenEstimate(original))
  {
    TokenSavingsPositiveIff(original, optimized);
  }

  lemma TimingsNeverDecide(skillId: string, original: string, optimized: string,
                           t1: seq<nat>, t2: seq<nat>, u1: seq<nat>, u2: seq<nat>)
    requires t1 != [] && t2 != [] && u1 != [] && u2 != []
    ensures Judge(skillId, original, optimized, t1, t2).passed == Judge(skillId, original, optimized, u1, u2).passed
  {
  }

  /** Submitting the unchanged text never passes: its savings are 0, or NaN
      when the text is estimated at 0 tokens. */
  lemma IdenticalContentFails(skillId: string, content: string, origTimes: seq<nat>, optTimes: seq<nat>)
    requires origTimes != [] && optTimes != []
    ensures var v := Judge(skillId, content, content, origTimes, optTimes);
            && !v.passed
            && v.tokenSavings == (if TokenEstimate(content) == 0 then NaN else Finite(0.0))
  {
    GateIff(skillId, content, content, origTimes, optTimes);
  }

  /** A text the same as the original up to ASCII case has similarity 1
      when it has words at all. */
  lemma SameWordsFullySimilar(a: string, b: string)
    requires Lower(a) == Lower(b)
    ensures Similarity(a, b) == (if Words(a) == {} then 0.0 else 1.0)
  {
    JaccardOneIff(Words(a), Words(b));
  }

  /** Texts without any word character (for instance empty files) are 0%
      similar, so the gate rejects them whatever the token counts. */
  lemma NoWordsNeverPasses(skillId: string, original: string, optimized: string, origTimes: seq<nat>, optTimes: seq<nat>)
    requires origTimes != [] && optTimes != []
    requires forall i :: 0 <= i < |original| ==> !IsWordChar(original[i])
    requires forall i :: 0 <= i < |optimized| ==> !IsWordChar(optimized[i])
    ensures Similarity(original, optimized) == 0.0
    ensures !Judge(skillId, original, optimized, origTimes, optTimes).passed
  {
    WordsEmptyIff(original);
    WordsEmptyIff(optimized);
    JaccardOneIff(Words(original), Words(optimized));
  }

  /** validate fails with the reduce error exactly when the loop runs zero
      times (both files readable), and otherwise reports one timing per
      iteration for each version. */
  lemma VerdictShape(skillId: string, originalPath: string, optimizedPath: string,
                     original: string, optimized: string, iterations: int, elapsed: (Arm, nat) -> nat)
    ensures var r := Verdict(skillId, originalPath, optimizedPath, Some(original), Some(optimized),
                             Samples(elapsed, Original, iterations), Samples(elapsed, Optimized, iterations));
            && (r == Failure(EmptyReduce) <==> iterations <= 0)
            && (r.Success? ==> |r.value.originalOutput| == iterations && |r.value.optimizedOutput| == iterations
                               && r.value.skillId == skillId && r.value.version == "v2")
  {
  }
}
