/** The `ProductAnalysis` card: which of its three views it shows, and the
    confidence level it derives from the score. */
module AnalysisView {
  import opened Wrappers
  import AiClient

  datatype ConfidenceLevel = High | Medium | Low

  /** The nested ternary on `confidenceScore`: at least 0.85 is High, at least
      0.75 is Medium, anything else is Low. */
  function ConfidenceLevelOf(score: real): (level: ConfidenceLevel)
    ensures level == High <==> score >= 0.85
    ensures level == Medium <==> 0.75 <= score < 0.85
    ensures level == Low <==> score < 0.75
  {
    if score >= 0.85 then High else if score >= 0.75 then Medium else Low
  }

  /** Levels in increasing order. */
  function Rank(level: ConfidenceLevel): nat {
    match level
    case Low => 0
    case Medium => 1
    case High => 2
  }

  /** A higher score never gives a lower level. */
  lemma ConfidenceLevelMonotone(s1: real, s2: real)
    requires s1 <= s2
    ensures Rank(ConfidenceLevelOf(s1)) <= Rank(ConfidenceLevelOf(s2))
  {
  }

  /** What the card renders. */
  datatype View =
    | LoadingView                                              // "AI is analyzing product data..."
    | EmptyView                                                // "No product selected"
    | ResultView(analysis: AiClient.ProductAnalysis, level: ConfidenceLevel)

  /** The early returns: loading first, then a missing analysis, then the result. */
  function SelectView(isLoading: bool, analysis: Option<AiClient.ProductAnalysis>): (v: View)
    ensures isLoading ==> v == LoadingView
    ensures !isLoading && analysis.None? ==> v == EmptyView
    ensures !isLoading && analysis.Some? ==>
      v == ResultView(analysis.value, ConfidenceLevelOf(analysis.value.confidenceScore))
  {
    if isLoading then LoadingView
    else if analysis.None? then EmptyView
    else ResultView(analysis.value, ConfidenceLevelOf(analysis.value.confidenceScore))
  }

  /** Each view is selected by exactly one combination of the two props. */
  lemma SelectViewCases(isLoading: bool, analysis: Option<AiClient.ProductAnalysis>)
    ensures SelectView(isLoading, analysis).LoadingView? <==> isLoading
    ensures SelectView(isLoading, analysis).EmptyView? <==> !isLoading && analysis.None?
    ensures SelectView(isLoading, analysis).ResultView? <==> !isLoading && analysis.Some?
  {
  }
}
