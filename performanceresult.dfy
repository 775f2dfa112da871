/** One page-load measurement: an immutable record whose getters are the
    datatype's destructors, plus the millisecond-to-second conversions. */
module PerformanceResults {
  import opened Rationals

  datatype PerformanceResult = PerformanceResult(
    url: string,
    domReadyTime: int,   // ms
    pageLoadTime: int,   // ms
    jsMetrics: string,
    passed: bool)
  {
    /** getDomReadyTimeSeconds: the DOM-ready time in seconds, so that
        1000 times it gives back the milliseconds. */
    function DomReadyTimeSeconds(): (s: Rat)
      ensures Same(Times(s, 1000), OfInt(domReadyTime))
    {
      DividedBy(OfInt(domReadyTime), 1000)
    }

    /** getPageLoadTimeSeconds: the page-load time in seconds. */
    function PageLoadTimeSeconds(): (s: Rat)
      ensures Same(Times(s, 1000), OfInt(pageLoadTime))
    {
      DividedBy(OfInt(pageLoadTime), 1000)
    }
  }
}
