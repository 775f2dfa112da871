/** One stored test outcome: name, class, status text, duration in
    milliseconds, error message and screenshot path. The status may be
    null. */
module TestResults {
  import opened Wrappers
  import opened Rationals
  import opened JavaStrings

  datatype TestResult = TestResult(
    testName: Option<string>,
    testClass: Option<string>,
    status: Option<string>,
    duration: int,
    errorMessage: Option<string>,
    screenshotPath: Option<string>)
  {
    /** isPassed: "PASS".equalsIgnoreCase(status); a null status is not
        passed. */
    predicate IsPassed(): (ok: bool)
      ensures ok ==> status.Some? && |status.value| == 4
      ensures status == Some("PASS") ==> ok
    {
      status.Some? && EqualsIgnoreCase("PASS", status.value)
    }

    /** getDurationSeconds: the duration divided by 1000. */
    function DurationSeconds(): (s: Rat)
      ensures Same(Times(s, 1000), OfInt(duration))
    {
      Rat(duration, 1000)
    }
  }

  /** The chars that match each letter of "PASS" ignoring case. */
  lemma MatchesP(c: char)
    ensures CharsEqualIgnoringCase('P', c) <==> c in {'P', 'p'}
  {
  }

  lemma MatchesA(c: char)
    ensures CharsEqualIgnoringCase('A', c) <==> c in {'A', 'a'}
  {
  }

  lemma MatchesS(c: char)
    ensures CharsEqualIgnoringCase('S', c) <==> c in {'S', 's', '\U{017F}'}
  {
  }

  /** The chars equalsIgnoreCase accepts at each position of "PASS": the
      long s (ſ) upper-cases to S and so matches too. */
  lemma PassedCharacterization(t: TestResult)
    ensures t.IsPassed() <==>
      t.status.Some? && |t.status.value| == 4
      && t.status.value[0] in {'P', 'p'} && t.status.value[1] in {'A', 'a'}
      && t.status.value[2] in {'S', 's', '\U{017F}'} && t.status.value[3] in {'S', 's', '\U{017F}'}
  {
    if t.status.Some? && |t.status.value| == 4 {
      var s := t.status.value;
      MatchesP(s[0]);
      MatchesA(s[1]);
      MatchesS(s[2]);
      MatchesS(s[3]);
      assert t.IsPassed() <==> (CharsEqualIgnoringCase('P', s[0]) && CharsEqualIgnoringCase('A', s[1])
                                && CharsEqualIgnoringCase('S', s[2]) && CharsEqualIgnoringCase('S', s[3]));
    }
  }

  /** "PASS" in any case is passed; a null status, "FAIL" and "PASSED"
      are not. */
  lemma PassedExamples(t: TestResult)
    ensures t.status == Some("pass") ==> t.IsPassed()
    ensures t.status == Some("Pass") ==> t.IsPassed()
    ensures t.status.None? ==> !t.IsPassed()
    ensures t.status == Some("FAIL") ==> !t.IsPassed()
    ensures t.status == Some("PASSED") ==> !t.IsPassed()
  {
    PassedCharacterization(t);
  }
}
