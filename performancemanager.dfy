/** Page-load measurement verdicts, load-test aggregation and the text
    report. The browser, the clock and the thread pool are outside the
    model: a measurement arrives as an input, and a load test is analysed
    from the list of measurements it collected. */
module PerformanceManagement {
  import opened Rationals
  import opened JavaStrings
  import opened PerformanceResults
  import opened LoadTestResults

  // ------------------------------------------------------------------
  // Configuration and the page-load verdict
  // ------------------------------------------------------------------

  /** A Java int. */
  type Int32 = n: int | -0x8000_0000 <= n < 0x8000_0000

  /** Java int arithmetic: the result reduced to 32 bits, two's complement. */
  function Wrap32(n: int): (r: Int32)
    ensures -0x8000_0000 <= n < 0x8000_0000 ==> r == n
    ensures (r - n) % 0x1_0000_0000 == 0
  {
    var m := n % 0x1_0000_0000;
    if m >= 0x8000_0000 then m - 0x1_0000_0000 else m
  }

  /** performance.load.time when the test data does not set it (seconds). */
  const DefaultLoadTimeThreshold: Int32 := 10

  /** LOAD_TIME_THRESHOLD * 1000, an int multiplication: exact for every
      threshold up to 2147483 seconds, wrapped beyond. */
  function LoadTimeLimitMillis(threshold: Int32): (limit: Int32)
    ensures -2147483 <= threshold <= 2147483 ==> limit == threshold * 1000
  {
    Wrap32(threshold * 1000)
  }

  /** What loading the page produced: the two elapsed times, the
      JavaScript metrics text (empty when the script failed), or an
      exception from the browser. */
  datatype PageLoad = Loaded(domReadyTime: int, pageLoadTime: int, jsMetrics: string) | LoadFailed

  /** measurePageLoadTime: a loaded page passes when it loaded within the
      limit; a failed load gives (url, 0, 0, "", false). */
  function MeasurePageLoadTime(url: string, load: PageLoad, threshold: Int32): (r: PerformanceResult)
    ensures r.url == url
    ensures load.LoadFailed? ==> r == PerformanceResult(url, 0, 0, "", false)
    ensures load.Loaded? ==> r.domReadyTime == load.domReadyTime && r.pageLoadTime == load.pageLoadTime
                             && r.jsMetrics == load.jsMetrics
    ensures r.passed ==> load.Loaded?
    ensures load.Loaded? ==> (r.passed <==> load.pageLoadTime <= LoadTimeLimitMillis(threshold))
  {
    match load
    case Loaded(dom, page, js) => PerformanceResult(url, dom, page, js, page <= LoadTimeLimitMillis(threshold))
    case LoadFailed => PerformanceResult(url, 0, 0, "", false)
  }

  /** With the default threshold of 10 s, a loaded page passes exactly when
      it loaded within 10000 ms. */
  lemma DefaultVerdict(url: string, load: PageLoad)
    requires load.Loaded?
    ensures MeasurePageLoadTime(url, load, DefaultLoadTimeThreshold).passed <==> load.pageLoadTime <= 10000
  {
  }

  // ------------------------------------------------------------------
  // Aggregation over a list of measurements
  // ------------------------------------------------------------------

  /** filter(PerformanceResult::isPassed).count(). */
  function CountPassed(rs: seq<PerformanceResult>): (n: nat)
    ensures n <= |rs|
  {
    if rs == [] then 0 else (if rs[0].passed then 1 else 0) + CountPassed(rs[1..])
  }

  /** Every result passed exactly when the count is the length; none
      passed exactly when it is 0. */
  lemma {:induction false} CountPassedExtremes(rs: seq<PerformanceResult>)
    ensures CountPassed(rs) == |rs| <==> forall i :: 0 <= i < |rs| ==> rs[i].passed
    ensures CountPassed(rs) == 0 <==> forall i :: 0 <= i < |rs| ==> !rs[i].passed
  {
    if rs != [] {
      CountPassedExtremes(rs[1..]);
      assert forall i :: 1 <= i < |rs| ==> rs[i] == rs[1..][i - 1];
    }
  }

  /** The sum of the page-load times. */
  function TotalLoadTime(rs: seq<PerformanceResult>): int {
    if rs == [] then 0 else rs[0].pageLoadTime + TotalLoadTime(rs[1..])
  }

  /** mapToLong(getPageLoadTime).max(): the largest load time, attained. */
  function MaxLoadTime(rs: seq<PerformanceResult>): (m: int)
    requires rs != []
    ensures forall i :: 0 <= i < |rs| ==> rs[i].pageLoadTime <= m
    ensures exists i :: 0 <= i < |rs| && rs[i].pageLoadTime == m
  {
    if |rs| == 1 then rs[0].pageLoadTime
    else
      var m := MaxLoadTime(rs[1..]);
      assert forall i :: 1 <= i < |rs| ==> rs[i] == rs[1..][i - 1];
      if rs[0].pageLoadTime >= m then rs[0].pageLoadTime else m
  }

  /** mapToLong(getPageLoadTime).min(): the smallest load time, attained. */
  function MinLoadTime(rs: seq<PerformanceResult>): (m: int)
    requires rs != []
    ensures forall i :: 0 <= i < |rs| ==> m <= rs[i].pageLoadTime
    ensures exists i :: 0 <= i < |rs| && rs[i].pageLoadTime == m
  {
    if |rs| == 1 then rs[0].pageLoadTime
    else
      var m := MinLoadTime(rs[1..]);
      assert forall i :: 1 <= i < |rs| ==> rs[i] == rs[1..][i - 1];
      if rs[0].pageLoadTime <= m then rs[0].pageLoadTime else m
  }

  /** Every load time between lo and hi puts the sum between |rs|*lo and |rs|*hi. */
  lemma {:induction false} TotalBetween(rs: seq<PerformanceResult>, lo: int, hi: int)
    requires forall i :: 0 <= i < |rs| ==> lo <= rs[i].pageLoadTime <= hi
    ensures |rs| * lo <= TotalLoadTime(rs) <= |rs| * hi
  {
    if rs != [] {
      assert forall i :: 0 <= i < |rs[1..]| ==> rs[1..][i] == rs[i + 1];
      TotalBetween(rs[1..], lo, hi);
      assert |rs| * lo == lo + (|rs| - 1) * lo;
      assert |rs| * hi == hi + (|rs| - 1) * hi;
    }
  }

  /** The average load time lies between the minimum and the maximum. */
  lemma AverageBetweenMinAndMax(rs: seq<PerformanceResult>)
    requires rs != []
    ensures AtMost(OfInt(MinLoadTime(rs)), Rat(TotalLoadTime(rs), |rs|))
    ensures AtMost(Rat(TotalLoadTime(rs), |rs|), OfInt(MaxLoadTime(rs)))
  {
    var lo, hi, t, n := MinLoadTime(rs), MaxLoadTime(rs), TotalLoadTime(rs), |rs|;
    TotalBetween(rs, lo, hi);
    assert lo * n <= t * 1;
    assert t * 1 <= hi * n;
  }

  /** The success-rate bar of a load test, 0.95. */
  const RequiredSuccessRate := Rat(95, 100)

  /** analyzeLoadTestResults: counts, rates and the verdict of a load test
      from the measurements it collected. */
  function AnalyzeLoadTestResults(results: seq<PerformanceResult>, threshold: Int32): (r: LoadTestResult)
    ensures results == [] ==> r == LoadTestResult(0, 0, 0, Rat(0, 1), Rat(0, 1), false)
    ensures r.totalRequests == |results|
    ensures r.successfulRequests == CountPassed(results)
    ensures r.successfulRequests + r.failedRequests == r.totalRequests
    ensures 0 <= r.successfulRequests <= r.totalRequests
    ensures InUnitInterval(r.successRate)
    ensures results != [] ==> Same(r.successRate, Rat(CountPassed(results), |results|))
    ensures results != [] ==> Same(r.avgResponseTime, Rat(TotalLoadTime(results), |results|))
    ensures r.passed <==> results != [] && AtMost(RequiredSuccessRate, r.successRate)
                          && AtMost(r.avgResponseTime, OfInt(LoadTimeLimitMillis(threshold)))
  {
    if results == [] then LoadTestResult(0, 0, 0, Rat(0, 1), Rat(0, 1), false)
    else
      var total := |results|;
      var successful := CountPassed(results);
      var failed := total - successful;
      var avg := Rat(TotalLoadTime(results), total);
      var successRate := Rat(successful, total);
      var passed := AtMost(RequiredSuccessRate, successRate) && AtMost(avg, OfInt(LoadTimeLimitMillis(threshold)));
      LoadTestResult(total, successful, failed, avg, successRate, passed)
  }

  /** For an analysed load test with requests, the error rate and the
      success rate add up to 1. */
  lemma ErrorRatePlusSuccessRate(results: seq<PerformanceResult>, threshold: Int32)
    requires results != []
    ensures var r := AnalyzeLoadTestResults(results, threshold);
      Same(Plus(r.ErrorRate(), r.successRate), OfInt(1))
  {
    var r := AnalyzeLoadTestResults(results, threshold);
    var n := |results|;
    assert r.ErrorRate() == Rat(n - CountPassed(results), n);
    assert Plus(r.ErrorRate(), r.successRate).num == (n - CountPassed(results)) * n + CountPassed(results) * n;
    assert (n - CountPassed(results)) * n + CountPassed(results) * n == n * n;
  }

  /** A load test in which every measurement passed within the default
      limit passes: rate 1 and an average under the limit. */
  lemma AllFastPassesLoadTest(results: seq<PerformanceResult>)
    requires results != []
    requires forall i :: 0 <= i < |results| ==> results[i].passed && results[i].pageLoadTime <= 10000
    ensures AnalyzeLoadTestResults(results, DefaultLoadTimeThreshold).passed
  {
    CountPassedExtremes(results);
    TotalBetween(results, MinLoadTime(results), 10000);
  }

  // ------------------------------------------------------------------
  // The report
  // ------------------------------------------------------------------

  const NoDataReport := "Performans raporu: Veri yok"
  const ReportTitle := "=== PERFORMANS RAPORU ===\n"

  /** A pass rate of k out of k is reported as "100.00". */
  lemma FullPassRateText(n: int)
    requires n > 0
    ensures Fixed2(Rat(100 * n, n)) == "100.00"
  {
    HundredthsOfWhole(n);
    Fixed2TextOfWhole(false, 100);
    assert NatToString(100) == "100";
  }

  /** A report on measurements that all passed states a pass rate of
      100.00%, and its maximum and minimum lines carry whole numbers of
      milliseconds followed by ".00". */
  lemma AllPassedReportLines(results: seq<PerformanceResult>)
    requires results != []
    requires forall i :: 0 <= i < |results| ==> results[i].passed
    ensures Fixed2(Rat(100 * CountPassed(results), |results|)) == "100.00"
    ensures Fixed2(OfInt(MaxLoadTime(results))) == IntToString(MaxLoadTime(results)) + ".00"
    ensures Fixed2(OfInt(MinLoadTime(results))) == IntToString(MinLoadTime(results)) + ".00"
  {
    CountPassedExtremes(results);
    FullPassRateText(|results|);
    Fixed2OfInteger(MaxLoadTime(results));
    Fixed2OfInteger(MinLoadTime(results));
  }

  /** generatePerformanceReport: the title, then one line each for the
      number of tests, the passed tests, the pass rate in percent and the
      average, maximum and minimum load times (two decimals). */
  method GeneratePerformanceReport(results: seq<PerformanceResult>) returns (report: string)
    ensures results == [] ==> report == NoDataReport
    ensures results != [] ==>
      report == ReportTitle
        + "Toplam test: " + IntToString(|results|) + "\n"
        + "Başarılı test: " + IntToString(CountPassed(results)) + "\n"
        + "Başarı oranı: " + Fixed2(Rat(100 * CountPassed(results), |results|)) + "%\n"
        + "Ortalama yükleme süresi: " + Fixed2(Rat(TotalLoadTime(results), |results|)) + "ms\n"
        + "Maksimum yükleme süresi: " + Fixed2(OfInt(MaxLoadTime(results))) + "ms\n"
        + "Minimum yükleme süresi: " + Fixed2(OfInt(MinLoadTime(results))) + "ms\n"
  {
    if results == [] {
      return NoDataReport;
    }
    var total := IntToString(|results|);
    var passedTests := CountPassed(results);
    var passedText := IntToString(passedTests);
    var rateText := Fixed2(Rat(100 * passedTests, |results|));
    var avgText := Fixed2(Rat(TotalLoadTime(results), |results|));
    var maxText := Fixed2(OfInt(MaxLoadTime(results)));
    var minText := Fixed2(OfInt(MinLoadTime(results)));
    report := ReportTitle;
    report := report + "Toplam test: " + total + "\n";
    report := report + "Başarılı test: " + passedText + "\n";
    report := report + "Başarı oranı: " + rateText + "%\n";
    report := report + "Ortalama yükleme süresi: " + avgText + "ms\n";
    report := report + "Maksimum yükleme süresi: " + maxText + "ms\n";
    report := report + "Minimum yükleme süresi: " + minText + "ms\n";
  }
}
