/**
 The test launch: numbering the run, then processing the service's operations in
 declared order, one test case per visited operation, and finally aggregating the
 run. A URI-syntax failure of the runner ends the run at the current operation; any
 other runner failure only leaves that operation's case without step results.
 */
module TestLaunch {
  import opened Optional
  import opened JavaLong
  import opened Domain
  import opened RunnerSelection
  import opened CaseFolding
  import opened RunAggregation

  /**
   What the runner did for one operation: the returns it produced (`None` for a null
   list), a URI-syntax failure on the tested endpoint, or any other failure.
   */
  datatype RunnerOutcome = Returned(testReturns: Option<seq<TestReturn>>) | UriSyntaxFailure | OtherFailure

  /**
   The collaborators of a launch, for one service and one run. The `nat` arguments
   number the operations in declared order (for `selectionAt` and `runTest`) and the
   responses within one saved batch (for `responseId`).
   */
  datatype Collaborators = Collaborators(
    storedRequests: Operation -> seq<Request>,
    caseIdOf: Operation -> string,
    selectionAt: nat -> SelectionEnv,
    runTest: (nat, Runner, Operation, seq<Request>) -> RunnerOutcome,
    responseId: (nat, Response) -> string)

  // ---------------------------------------------------------------------------
  // Test numbering

  /** The repository's most recent result for the service carries a test number. */
  predicate HasPriorNumber(older: Option<seq<TestResult>>)
  {
    older.Some? && |older.value| > 0 && older.value[0].testNumber.Some?
  }

  /**
   The number of the new run: one more than the first prior result's number, in
   `long` arithmetic, or 1 when there is no such number.
   */
  function NextTestNumber(older: Option<seq<TestResult>>): (n: Long)
    ensures HasPriorNumber(older) ==> n == Wrap(older.value[0].testNumber.value + 1)
    ensures HasPriorNumber(older) && older.value[0].testNumber.value < MaxLong ==>
              n == older.value[0].testNumber.value + 1
    ensures !HasPriorNumber(older) ==> n == 1
  {
    if older.Some? && |older.value| > 0 && older.value[0].testNumber.Some? then
      Add(older.value[0].testNumber.value, 1)
    else
      1
  }

  /** Prior results listed by decreasing test number, results without a number last. */
  predicate NewestFirst(older: seq<TestResult>)
  {
    forall i, j :: 0 <= i < j < |older| && older[j].testNumber.Some? ==>
      older[i].testNumber.Some? && older[j].testNumber.value <= older[i].testNumber.value
  }

  /**
   When the prior results come newest first, the new number is above every prior
   number and directly follows the highest one (short of the `long` overflow).
   */
  lemma NextTestNumberExceedsPrior(older: Option<seq<TestResult>>)
    requires older.Some? ==> NewestFirst(older.value)
    requires HasPriorNumber(older) ==> older.value[0].testNumber.value < MaxLong
    ensures older.Some? ==>
              forall i :: 0 <= i < |older.value| && older.value[i].testNumber.Some? ==>
                older.value[i].testNumber.value < NextTestNumber(older)
    ensures NextTestNumber(older) == 1 ||
              exists i :: 0 <= i < |older.value| && older.value[i].testNumber == Some(NextTestNumber(older) - 1)
  {
  }

  /** A prior number of Long.MAX_VALUE makes the next number wrap to Long.MIN_VALUE. */
  lemma NextTestNumberWrapsAtMax(prior: TestResult)
    requires prior.testNumber == Some(MaxLong as Long)
    ensures NextTestNumber(Some([prior])) == MinLong
  {
  }

  // ---------------------------------------------------------------------------
  // One operation

  /** What the runner does for the operation at position `k`, with the runner selected for it. */
  function OutcomeAt(k: nat, op: Operation, runnerType: TestRunnerType, env: Collaborators): RunnerOutcome
  {
    var requests := CloneRequestsForTestCase(env.storedRequests(op), env.caseIdOf(op));
    var runner := RetrieveRunner(runnerType, env.selectionAt(k));
    env.runTest(k, runner, op, requests)
  }

  /** The runner returned a non-empty list of returns. */
  predicate HasReturns(outcome: RunnerOutcome)
  {
    outcome.Returned? && outcome.testReturns.Some? && |outcome.testReturns.value| > 0
  }

  /** The test case appended for operation `op` when its runner ended with `outcome`. */
  function CaseFor(op: Operation, outcome: RunnerOutcome, defaults: CaseDefaults, env: Collaborators): (c: TestCaseResult)
    ensures c.operationName == op.name
    ensures outcome.UriSyntaxFailure? ==> c.stepResults == [] && !c.success && c.elapsedTime == 0
    ensures !outcome.UriSyntaxFailure? && !HasReturns(outcome) ==>
              c.stepResults == [] && c.success == defaults.success && c.elapsedTime == defaults.elapsedTime
    ensures HasReturns(outcome) ==>
              && c.stepResults == StepResults(outcome.testReturns.value)
              && (c.success <==> forall i :: 0 <= i < |outcome.testReturns.value| ==>
                                   outcome.testReturns.value[i].stepResult.success)
              && c.elapsedTime == Wrap(SumBy(outcome.testReturns.value, ReturnElapsed))
  {
    var blank := NewTestCaseResult(op.name, defaults);
    match outcome
    case UriSyntaxFailure => blank.(success := false, elapsedTime := 0)
    case OtherFailure => blank
    case Returned(testReturns) =>
      if testReturns.Some? && |testReturns.value| > 0 then
        UpdateTestCaseResultWithReturns(blank, testReturns.value, env.caseIdOf(op), env.responseId).testCase
      else
        blank
  }

  // ---------------------------------------------------------------------------
  // The loop over the operations

  /** What the loop does at one operation: the case it appends, and whether the run stops there. */
  datatype Visit = Visit(testCase: TestCaseResult, aborts: bool)

  /** The launch's step at the operation at position `k`: a URI-syntax failure stops the run. */
  function VisitOperation(runnerType: TestRunnerType, defaults: CaseDefaults, env: Collaborators): (nat, Operation) -> Visit
  {
    (k: nat, op: Operation) =>
      var outcome := OutcomeAt(k, op, runnerType, env);
      Visit(CaseFor(op, outcome, defaults, env), outcome.UriSyntaxFailure?)
  }

  /** Operation `j` is the first one from position `k` on at which the run stops. */
  predicate FirstAbortFrom(ops: seq<Operation>, k: nat, j: nat, visit: (nat, Operation) -> Visit)
  {
    && k <= j < |ops|
    && visit(j, ops[j]).aborts
    && forall m :: k <= m < j ==> !visit(m, ops[m]).aborts
  }

  /**
   The loop from operation `k` on, appending to the run's case list `cases`: each
   visited operation appends its case in declared order, and an aborting operation ends
   the loop right after its own case.
   */
  function RunFrom(cases: seq<TestCaseResult>, ops: seq<Operation>, k: nat,
                   visit: (nat, Operation) -> Visit): (r: seq<TestCaseResult>)
    requires k <= |ops|
    decreases |ops| - k
    ensures |cases| <= |r| <= |cases| + (|ops| - k)
    ensures r[..|cases|] == cases
    ensures forall i :: |cases| <= i < |r| ==> r[i] == visit(k + (i - |cases|), ops[k + (i - |cases|)]).testCase
    ensures (forall j :: k <= j < |ops| ==> !visit(j, ops[j]).aborts) ==> |r| == |cases| + (|ops| - k)
    ensures forall j: nat :: FirstAbortFrom(ops, k, j, visit) ==> |r| == |cases| + (j - k) + 1
  {
    if k == |ops| then cases
    else
      var v := visit(k, ops[k]);
      if v.aborts then cases + [v.testCase]
      else
        assert forall j: nat :: FirstAbortFrom(ops, k, j, visit) ==> FirstAbortFrom(ops, k + 1, j, visit);
        RunFrom(cases + [v.testCase], ops, k + 1, visit)
  }

  /** The loop reaches operation `j` when no operation before it stops the run. */
  lemma {:induction false} RunFromReaches(cases: seq<TestCaseResult>, ops: seq<Operation>, k: nat,
                                          visit: (nat, Operation) -> Visit, j: nat)
    requires k <= j < |ops|
    requires forall m :: k <= m < j ==> !visit(m, ops[m]).aborts
    decreases j - k
    ensures |RunFrom(cases, ops, k, visit)| > |cases| + (j - k)
  {
    if k < j {
      RunFromReaches(cases + [visit(k, ops[k]).testCase], ops, k + 1, visit, j);
    }
  }

  /** When the loop stops at operation `j`, the case of `j` is the last one appended. */
  lemma RunFromEndsAtAbort(cases: seq<TestCaseResult>, ops: seq<Operation>, k: nat,
                           visit: (nat, Operation) -> Visit, j: nat)
    requires k <= |ops| && FirstAbortFrom(ops, k, j, visit)
    ensures var r := RunFrom(cases, ops, k, visit);
            |r| == |cases| + (j - k) + 1 && r[|r| - 1] == visit(j, ops[j]).testCase
  {
  }

  /** A property every appended case has, and every case already there has, holds of all cases after the loop. */
  lemma RunFromKeeps(cases: seq<TestCaseResult>, ops: seq<Operation>, k: nat,
                     visit: (nat, Operation) -> Visit, P: TestCaseResult -> bool)
    requires k <= |ops|
    requires forall i :: 0 <= i < |cases| ==> P(cases[i])
    requires forall j :: k <= j < |ops| ==> P(visit(j, ops[j]).testCase)
    ensures var r := RunFrom(cases, ops, k, visit);
            forall i :: 0 <= i < |r| ==> P(r[i])
  {
  }

  // ---------------------------------------------------------------------------
  // The launch

  /**
   A launch with the per-operation step `visit`: the run gets its number, the operations
   are processed in declared order, and the run's aggregates are recomputed once at the
   end. The loop's collaborators are fixed for the run, so the cases are those the loop
   appends to the run as given.
   */
  function Launch(run: TestResult, ops: seq<Operation>, number: Long, visit: (nat, Operation) -> Visit): (r: TestResult)
    ensures r.id == run.id && r.testedEndpoint == run.testedEndpoint
    ensures r.testNumber == Some(number)
    ensures r.testCaseResults == RunFrom(run.testCaseResults, ops, 0, visit)
    ensures r.success <==> forall i :: 0 <= i < |r.testCaseResults| ==> r.testCaseResults[i].success
    ensures r.inProgress <==> exists i :: 0 <= i < |r.testCaseResults| && r.testCaseResults[i].elapsedTime == 0
    ensures r.elapsedTime == Wrap(SumBy(r.testCaseResults, CaseElapsed))
  {
    var numbered := run.(testNumber := Some(number));
    UpdateTestResult(numbered.(testCaseResults := RunFrom(numbered.testCaseResults, ops, 0, visit)))
  }

  /**
   The service's launch: the run is numbered after the repository's most recent result
   and each operation is visited with the runner selected for it.
   */
  function LaunchTestsInternal(run: TestResult, ops: seq<Operation>, runnerType: TestRunnerType,
                               older: Option<seq<TestResult>>, defaults: CaseDefaults,
                               env: Collaborators): (r: TestResult)
    ensures r.id == run.id && r.testedEndpoint == run.testedEndpoint
    ensures r.testNumber == Some(NextTestNumber(older))
    ensures r.testCaseResults == RunFrom(run.testCaseResults, ops, 0, VisitOperation(runnerType, defaults, env))
    ensures r.success <==> forall i :: 0 <= i < |r.testCaseResults| ==> r.testCaseResults[i].success
    ensures r.inProgress <==> exists i :: 0 <= i < |r.testCaseResults| && r.testCaseResults[i].elapsedTime == 0
    ensures r.elapsedTime == Wrap(SumBy(r.testCaseResults, CaseElapsed))
  {
    Launch(run, ops, NextTestNumber(older), VisitOperation(runnerType, defaults, env))
  }
}
