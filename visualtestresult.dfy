/** The outcome of one visual comparison: an immutable record whose five
    fields are set once by its constructor. The getters `isPassed`,
    `getSimilarity`, `getMessage`, `getCurrentScreenshotPath` and
    `getBaselineScreenshotPath` are the datatype's destructors, so each
    returns exactly what the record was built with. */
module VisualTestResults {
  import opened Rationals

  datatype VisualTestResult = VisualTestResult(
    passed: bool,
    similarity: Rat,
    message: string,
    currentScreenshotPath: string,
    baselineScreenshotPath: string)
  {
    /** getSimilarityPercentage: the similarity times 100; a similarity in
        [0, 1] gives a percentage in [0, 100]. */
    function SimilarityPercentage(): (p: Rat)
      ensures Same(DividedBy(p, 100), similarity)
      ensures InUnitInterval(similarity) ==> 0 <= p.num <= 100 * p.den
      ensures Same(p, OfInt(100)) <==> Same(similarity, OfInt(1))
    {
      Times(similarity, 100)
    }
  }
}
