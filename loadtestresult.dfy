/** The summary of a load test: an immutable record (the getters are the
    datatype's destructors; `passed` is stored, never recomputed) with the
    derived rates and conversions. */
module LoadTestResults {
  import opened Rationals

  datatype LoadTestResult = LoadTestResult(
    totalRequests: int,
    successfulRequests: int,
    failedRequests: int,
    avgResponseTime: Rat,   // ms
    successRate: Rat,       // in [0, 1]
    passed: bool)
  {
    /** getSuccessRatePercentage: the success rate times 100. */
    function SuccessRatePercentage(): (p: Rat)
      ensures Same(DividedBy(p, 100), successRate)
      ensures InUnitInterval(successRate) ==> 0 <= p.num <= 100 * p.den
    {
      Times(successRate, 100)
    }

    /** getAvgResponseTimeSeconds: the average response time in seconds. */
    function AvgResponseTimeSeconds(): (s: Rat)
      ensures Same(Times(s, 1000), avgResponseTime)
    {
      DividedBy(avgResponseTime, 1000)
    }

    /** getErrorRate: failed over total, and 0 when there were no requests. */
    function ErrorRate(): (e: Rat)
      ensures totalRequests <= 0 ==> e.num == 0
      ensures totalRequests > 0 ==> Same(e, Rat(failedRequests, totalRequests))
      ensures 0 <= failedRequests <= totalRequests ==> InUnitInterval(e)
    {
      if totalRequests > 0 then Rat(failedRequests, totalRequests) else Rat(0, 1)
    }

    /** getErrorRatePercentage: the error rate times 100. */
    function ErrorRatePercentage(): (p: Rat)
      ensures totalRequests <= 0 ==> p.num == 0
      ensures Same(DividedBy(p, 100), ErrorRate())
    {
      Times(ErrorRate(), 100)
    }
  }
}
