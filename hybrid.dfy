/**
 * The hybrid backend: the primary detector's result, refined by the
 * optional verifier's baby and cat scores when those are positive.
 */
module Hybrid {
  import opened Wrappers
  import opened Base

  /** `HybridDetectionBackend.score`, given what the two backends returned. */
  function Merge(primary: DetectionResult, verifier: Option<DetectionResult>): (r: DetectionResult)
    ensures r.primaryScore == primary.primaryScore
    ensures verifier.None? ==> r == primary
  {
    match verifier
    case None => primary
    case Some(v) =>
      var baby := if v.babyScore > 0.0 then v.babyScore else primary.babyScore;
      var cat := if v.catScore > 0.0 then v.catScore else primary.catScore;
      DetectionResult(primary.primaryScore, baby, cat)
  }

  /** Each merged score is one of the two backends' scores, and a verifier
      score of zero or less never replaces the primary's. */
  lemma MergeChoosesScores(primary: DetectionResult, v: DetectionResult)
    ensures var r := Merge(primary, Some(v));
      && (r.babyScore == v.babyScore || r.babyScore == primary.babyScore)
      && (r.catScore == v.catScore || r.catScore == primary.catScore)
      && (v.babyScore <= 0.0 ==> r.babyScore == primary.babyScore)
      && (v.catScore <= 0.0 ==> r.catScore == primary.catScore)
      && (v.babyScore > 0.0 ==> r.babyScore == v.babyScore)
      && (v.catScore > 0.0 ==> r.catScore == v.catScore)
  {
  }

  /** Primary (0.9, 0.7, 0.2) with verifier (0.1, 0.8, 0.1) gives (0.9, 0.8, 0.1). */
  lemma MergeExample()
    ensures Merge(DetectionResult(0.9, 0.7, 0.2), Some(DetectionResult(0.1, 0.8, 0.1)))
         == DetectionResult(0.9, 0.8, 0.1)
  {
  }
}
