/**
 Run-level aggregation: once the operations have been processed, the test result's
 success, in-progress and elapsed-time fields are recomputed from its test-case results.
 */
module RunAggregation {
  import opened JavaLong
  import opened Domain

  function CaseElapsed(c: TestCaseResult): int
  {
    c.elapsedTime
  }

  /** The values the aggregation loop has computed after a prefix of the cases. */
  datatype Totals = Totals(success: bool, inProgress: bool, elapsed: Long)

  /**
   The aggregation loop over the cases in order: success is cleared by any failed case,
   progress is raised by any case whose elapsed time is zero, and elapsed times are
   summed in `long` arithmetic.
   */
  function Aggregate(cases: seq<TestCaseResult>): (t: Totals)
    ensures t.success <==> forall i :: 0 <= i < |cases| ==> cases[i].success
    ensures t.inProgress <==> exists i :: 0 <= i < |cases| && cases[i].elapsedTime == 0
    ensures t.elapsed == Wrap(SumBy(cases, CaseElapsed))
  {
    if |cases| == 0 then Totals(true, false, 0)
    else
      var prev := Aggregate(cases[..|cases| - 1]);
      var c := cases[|cases| - 1];
      WrapAbsorbs(SumBy(cases[..|cases| - 1], CaseElapsed), c.elapsedTime);
      Totals(prev.success && c.success, prev.inProgress || c.elapsedTime == 0, Add(prev.elapsed, c.elapsedTime))
  }

  /** Recomputes the run's aggregates from its cases; nothing else about the run changes. */
  function UpdateTestResult(run: TestResult): (r: TestResult)
    ensures r.id == run.id && r.testNumber == run.testNumber && r.testedEndpoint == run.testedEndpoint
    ensures r.testCaseResults == run.testCaseResults
    ensures r.success <==> forall i :: 0 <= i < |run.testCaseResults| ==> run.testCaseResults[i].success
    ensures r.inProgress <==>
              exists i :: 0 <= i < |run.testCaseResults| && run.testCaseResults[i].elapsedTime == 0
    ensures r.elapsedTime == Wrap(SumBy(run.testCaseResults, CaseElapsed))
    ensures MinLong <= SumBy(run.testCaseResults, CaseElapsed) <= MaxLong ==>
              r.elapsedTime == SumBy(run.testCaseResults, CaseElapsed)
  {
    var t := Aggregate(run.testCaseResults);
    run.(success := t.success, inProgress := t.inProgress, elapsedTime := t.elapsed)
  }

  /** A run without cases is successful, not in progress, and took no time. */
  lemma EmptyRunAggregates(run: TestResult)
    requires run.testCaseResults == []
    ensures var r := UpdateTestResult(run);
            r.success && !r.inProgress && r.elapsedTime == 0
  {
  }

  /** Recomputing the aggregates of an unchanged run gives the same run. */
  lemma UpdateTestResultIdempotent(run: TestResult)
    ensures UpdateTestResult(UpdateTestResult(run)) == UpdateTestResult(run)
  {
  }

  /**
   Appending one case updates the aggregates incrementally: success is ANDed with the
   case's, progress ORed with "the case took no time", and its elapsed time is added.
   */
  lemma AggregateAppend(cases: seq<TestCaseResult>, c: TestCaseResult)
    ensures var before := Aggregate(cases);
            var after := Aggregate(cases + [c]);
            && after.success == (before.success && c.success)
            && after.inProgress == (before.inProgress || c.elapsedTime == 0)
            && after.elapsed == Add(before.elapsed, c.elapsedTime)
  {
  }
}
