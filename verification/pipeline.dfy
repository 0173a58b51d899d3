/** How the optimizer's output fares at the A/B gate: the optimizer's own
    token estimate and the gate's token savings agree on the sign, and the
    savings header the optimizer prepends means that the gate only passes a
    rewrite whose body is shorter than the original by more than that header.
    Lengths are JavaScript's: UTF-16 code units. */
module Pipeline {
  import opened Types
  import opened Js
  import opened Text
  import Runner
  import AbTest

  /** The optimizer reports saved tokens exactly when the gate sees positive
      token savings for the same pair of texts. */
  lemma SavingsAgreeWithGate(content: string, optimized: string, avgExecutionMs: real)
    ensures Runner.EstimatedSavings(content, optimized, avgExecutionMs).tokens > 0
            <==> GreaterThan(AbTest.TokenSavings(content, optimized), 0.0)
  {
    AbTest.TokenSavingsPositiveIff(content, optimized);
  }

  /** A floor-by-four estimate can only drop when the text gets shorter,
      in code units. */
  lemma FewerTokensMeansShorter(a: string, b: string)
    requires TokenEstimate(b) < TokenEstimate(a)
    ensures Utf16Length(b) < Utf16Length(a)
  {
  }

  /** Validating the optimizer's output against its input passes only when
      the heuristics removed more code units than the header adds. */
  lemma {:induction false} GateNeedsSavingsBeyondHeader(skillId: string, content: string,
                                                       origTimes: seq<nat>, optTimes: seq<nat>)
    requires origTimes != [] && optTimes != []
    ensures AbTest.Judge(skillId, content, Runner.OptimizedText(content), origTimes, optTimes).passed
            ==> Utf16Length(Runner.HeaderPrefix) + Utf16Length(Runner.Body(content)) < Utf16Length(content)
  {
    var optimized := Runner.OptimizedText(content);
    AbTest.GateIff(skillId, content, optimized, origTimes, optTimes);
    Runner.OptimizedTextShape(content);
    if TokenEstimate(optimized) < TokenEstimate(content) {
      FewerTokensMeansShorter(content, optimized);
    }
  }

  /** In particular a file the heuristics leave unchanged never passes: the
      header alone makes it longer. */
  lemma {:induction false} UnchangedBodyFailsGate(skillId: string, content: string,
                                                 origTimes: seq<nat>, optTimes: seq<nat>)
    requires origTimes != [] && optTimes != []
    requires Runner.Body(content) == content
    ensures !AbTest.Judge(skillId, content, Runner.OptimizedText(content), origTimes, optTimes).passed
  {
    GateNeedsSavingsBeyondHeader(skillId, content, origTimes, optTimes);
  }
}
