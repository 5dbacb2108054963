/** The score triple every detection backend produces. */
module Base {
  /** Scores are modelled as exact reals; the source holds them in binary
      floating point. */
  datatype DetectionResult = DetectionResult(primaryScore: real, babyScore: real, catScore: real)
}
