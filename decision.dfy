/**
 * The second-stage verifier decision: a detection passes unless the baby
 * score is below its threshold, the baby-over-cat margin is too small, or
 * the cat score dominates.
 */
module Decision {
  import opened Base

  /** The four thresholds of the monitor configuration the decision reads. */
  datatype VerifierConfig = VerifierConfig(
    babyThreshold: real, catWeight: real, marginThreshold: real, catSuppressThreshold: real)

  /** The configuration defaults: 0.45, 1.0, 0.15 and 0.45. */
  const DefaultConfig := VerifierConfig(0.45, 1.0, 0.15, 0.45)

  function Margin(result: DetectionResult, catWeight: real): real {
    result.babyScore - catWeight * result.catScore
  }

  /** The three rules, checked in order, each an early rejection. */
  predicate PassesVerifierWithThresholds(result: DetectionResult, babyThreshold: real, catWeight: real,
                                         marginThreshold: real, catSuppressThreshold: real)
  {
    if result.babyScore < babyThreshold then false
    else if Margin(result, catWeight) < marginThreshold then false
    else
      var catDominates := result.catScore >= catSuppressThreshold && result.babyScore <= result.catScore;
      !catDominates
  }

  /** The decision under the thresholds of a configuration. */
  predicate PassesVerifier(config: VerifierConfig, result: DetectionResult) {
    PassesVerifierWithThresholds(result, config.babyThreshold, config.catWeight,
                                 config.marginThreshold, config.catSuppressThreshold)
  }

  /** A baby score below its threshold fails, whatever the other inputs. */
  lemma BelowThresholdFails(result: DetectionResult, bt: real, w: real, mt: real, cs: real)
    requires result.babyScore < bt
    ensures !PassesVerifierWithThresholds(result, bt, w, mt, cs)
  {
  }

  /** A margin below its threshold fails. */
  lemma SmallMarginFails(result: DetectionResult, bt: real, w: real, mt: real, cs: real)
    requires result.babyScore - w * result.catScore < mt
    ensures !PassesVerifierWithThresholds(result, bt, w, mt, cs)
  {
  }

  /** A dominating cat score fails; at a tie the cat wins. */
  lemma CatDominanceFails(result: DetectionResult, bt: real, w: real, mt: real, cs: real)
    requires result.catScore >= cs && result.babyScore <= result.catScore
    ensures !PassesVerifierWithThresholds(result, bt, w, mt, cs)
  {
  }

  /** A detection passes exactly when none of the three failure conditions holds. */
  lemma PassesIff(result: DetectionResult, bt: real, w: real, mt: real, cs: real)
    ensures PassesVerifierWithThresholds(result, bt, w, mt, cs) <==>
      && result.babyScore >= bt
      && result.babyScore - w * result.catScore >= mt
      && !(result.catScore >= cs && result.babyScore <= result.catScore)
  {
  }

  /** The configuration form reads exactly the four configured thresholds. */
  lemma PassesVerifierUsesConfig(config: VerifierConfig, result: DetectionResult)
    ensures PassesVerifier(config, result) <==>
      PassesVerifierWithThresholds(result, config.babyThreshold, config.catWeight,
                                   config.marginThreshold, config.catSuppressThreshold)
  {
  }

  /** Under the defaults, baby 0.8 over cat 0.2 passes and baby 0.4 under
      cat 0.8 does not. */
  lemma DefaultExamples()
    ensures PassesVerifier(DefaultConfig, DetectionResult(0.8, 0.8, 0.2))
    ensures !PassesVerifier(DefaultConfig, DetectionResult(0.8, 0.4, 0.8))
  {
  }
}
