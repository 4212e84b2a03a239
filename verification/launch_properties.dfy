/**
 Properties of a launch: how a URI-syntax failure ends it, what the cases it appends
 claim, and what its aggregates then say about the run. Each is first proved for a
 launch with any per-operation step and then instantiated with the service's step.
 */
module LaunchProperties {
  import opened Optional
  import opened JavaLong
  import opened Domain
  import opened RunnerSelection
  import opened CaseFolding
  import opened RunAggregation
  import opened TestLaunch

  /** A case that failed without any step and took no time. */
  predicate FailedWithoutSteps(c: TestCaseResult)
  {
    c.stepResults == [] && !c.success && c.elapsedTime == 0
  }

  /** A case claims success only when it has steps and every step succeeded. */
  predicate PassedOnlyWithSteps(c: TestCaseResult)
  {
    c.success ==> |c.stepResults| > 0 && forall i :: 0 <= i < |c.stepResults| ==> c.stepResults[i].success
  }

  // ---------------------------------------------------------------------------
  // One step of the service's launch

  /**
   The service's step stops the run exactly at a URI-syntax failure, and the case it
   then appends is the operation's, failed, without steps, taking no time.
   */
  lemma StepAbortsOnlyOnUriFailure(runnerType: TestRunnerType, defaults: CaseDefaults, env: Collaborators,
                                   k: nat, op: Operation)
    ensures var v := VisitOperation(runnerType, defaults, env)(k, op);
            && (v.aborts <==> OutcomeAt(k, op, runnerType, env).UriSyntaxFailure?)
            && v.testCase.operationName == op.name
            && (v.aborts ==> FailedWithoutSteps(v.testCase))
  {
  }

  /** Any other runner failure appends a case without steps that keeps the fresh case's values. */
  lemma StepKeepsDefaultsOnOtherFailure(runnerType: TestRunnerType, defaults: CaseDefaults, env: Collaborators,
                                        k: nat, op: Operation)
    requires OutcomeAt(k, op, runnerType, env).OtherFailure?
    ensures var v := VisitOperation(runnerType, defaults, env)(k, op);
            && !v.aborts
            && v.testCase.stepResults == []
            && v.testCase.success == defaults.success
            && v.testCase.elapsedTime == defaults.elapsedTime
  {
  }

  /** With fresh cases defaulting to "not successful", every case the service's step builds passes only with steps. */
  lemma CaseForPassesOnlyWithSteps(op: Operation, outcome: RunnerOutcome, defaults: CaseDefaults, env: Collaborators)
    requires !defaults.success
    ensures PassedOnlyWithSteps(CaseFor(op, outcome, defaults, env))
  {
  }

  /** The same, for the case of every operation of a launch. */
  lemma VisitedCasesPassOnlyWithSteps(ops: seq<Operation>, runnerType: TestRunnerType, defaults: CaseDefaults,
                                      env: Collaborators)
    requires !defaults.success
    ensures forall j :: 0 <= j < |ops| ==> PassedOnlyWithSteps(VisitOperation(runnerType, defaults, env)(j, ops[j]).testCase)
  {
  }

  // ---------------------------------------------------------------------------
  // A launch with any step

  /**
   A launch stopped at operation `j` ends with `j`'s case; when that case failed
   without steps in no time, the run is neither successful nor, by its flags, finished.
   */
  lemma AbortedLaunchEndsWithItsCase(run: TestResult, ops: seq<Operation>, number: Long,
                                     visit: (nat, Operation) -> Visit, j: nat)
    requires FirstAbortFrom(ops, 0, j, visit)
    ensures var r := Launch(run, ops, number, visit);
            && |r.testCaseResults| == |run.testCaseResults| + j + 1
            && r.testCaseResults[|r.testCaseResults| - 1] == visit(j, ops[j]).testCase
            && (FailedWithoutSteps(visit(j, ops[j]).testCase) ==> !r.success && r.inProgress)
  {
  }

  /** When every case, old and appended, passes only with steps, a successful run has steps in every case. */
  lemma LaunchPassesOnlyWithSteps(run: TestResult, ops: seq<Operation>, number: Long, visit: (nat, Operation) -> Visit)
    requires forall i :: 0 <= i < |run.testCaseResults| ==> PassedOnlyWithSteps(run.testCaseResults[i])
    requires forall j :: 0 <= j < |ops| ==> PassedOnlyWithSteps(visit(j, ops[j]).testCase)
    ensures var r := Launch(run, ops, number, visit);
            && (forall i :: 0 <= i < |r.testCaseResults| ==> PassedOnlyWithSteps(r.testCaseResults[i]))
            && (r.success ==> forall i :: 0 <= i < |r.testCaseResults| ==> |r.testCaseResults[i].stepResults| > 0)
  {
  }

  /** A visited operation whose case took no time leaves the run flagged as in progress. */
  lemma ZeroTimeCaseKeepsLaunchInProgress(run: TestResult, ops: seq<Operation>, number: Long,
                                          visit: (nat, Operation) -> Visit, j: nat)
    requires j < |ops| && visit(j, ops[j]).testCase.elapsedTime == 0
    requires forall m :: 0 <= m < j ==> !visit(m, ops[m]).aborts
    ensures Launch(run, ops, number, visit).inProgress
  {
    var n := |run.testCaseResults|;
    RunFromReaches(run.testCaseResults, ops, 0, visit, j);
    var r := Launch(run, ops, number, visit);
    assert r.testCaseResults[n + j] == visit(j, ops[j]).testCase;
  }

  // ---------------------------------------------------------------------------
  // The service's launch

  /**
   The launch keeps the cases the run already had and appends, in declared order, the
   case built from each visited operation's runner outcome; with no URI-syntax failure
   every operation is visited.
   */
  lemma LaunchFollowsOperations(run: TestResult, ops: seq<Operation>, runnerType: TestRunnerType,
                                older: Option<seq<TestResult>>, defaults: CaseDefaults, env: Collaborators)
    ensures var r := LaunchTestsInternal(run, ops, runnerType, older, defaults, env);
            var n := |run.testCaseResults|;
            && n <= |r.testCaseResults| <= n + |ops|
            && r.testCaseResults[..n] == run.testCaseResults
            && (forall i :: n <= i < |r.testCaseResults| ==>
                  r.testCaseResults[i] == CaseFor(ops[i - n], OutcomeAt(i - n, ops[i - n], runnerType, env), defaults, env))
            && ((forall j :: 0 <= j < |ops| ==> !OutcomeAt(j, ops[j], runnerType, env).UriSyntaxFailure?) ==>
                  |r.testCaseResults| == n + |ops|)
  {
  }

  /**
   A run stopped by a URI-syntax failure at operation `j` ends with that operation's
   case, failed, without steps, taking no time; so the run is neither successful nor,
   by its own flags, finished.
   */
  lemma AbortedLaunchEndsWithFailedCase(run: TestResult, ops: seq<Operation>, runnerType: TestRunnerType,
                                        older: Option<seq<TestResult>>, defaults: CaseDefaults,
                                        env: Collaborators, j: nat)
    requires j < |ops| && OutcomeAt(j, ops[j], runnerType, env).UriSyntaxFailure?
    requires forall m :: 0 <= m < j ==> !OutcomeAt(m, ops[m], runnerType, env).UriSyntaxFailure?
    ensures var r := LaunchTestsInternal(run, ops, runnerType, older, defaults, env);
            && |r.testCaseResults| == |run.testCaseResults| + j + 1
            && r.testCaseResults[|r.testCaseResults| - 1].operationName == ops[j].name
            && FailedWithoutSteps(r.testCaseResults[|r.testCaseResults| - 1])
            && !r.success && r.inProgress
  {
    var visit := VisitOperation(runnerType, defaults, env);
    forall m | 0 <= m <= j
      ensures visit(m, ops[m]).aborts <==> OutcomeAt(m, ops[m], runnerType, env).UriSyntaxFailure?
    {
      StepAbortsOnlyOnUriFailure(runnerType, defaults, env, m, ops[m]);
    }
    StepAbortsOnlyOnUriFailure(runnerType, defaults, env, j, ops[j]);
    AbortedLaunchEndsWithItsCase(run, ops, NextTestNumber(older), visit, j);
  }

  /**
   With fresh cases defaulting to "not successful", every case of a launched run claims
   success only when backed by steps that all succeeded, and a successful run has steps
   in every case.
   */
  lemma LaunchedCasesPassOnlyWithSteps(run: TestResult, ops: seq<Operation>, runnerType: TestRunnerType,
                                       older: Option<seq<TestResult>>, defaults: CaseDefaults,
                                       env: Collaborators)
    requires !defaults.success
    requires forall i :: 0 <= i < |run.testCaseResults| ==> PassedOnlyWithSteps(run.testCaseResults[i])
    ensures var r := LaunchTestsInternal(run, ops, runnerType, older, defaults, env);
            && (forall i :: 0 <= i < |r.testCaseResults| ==> PassedOnlyWithSteps(r.testCaseResults[i]))
            && (r.success ==> forall i :: 0 <= i < |r.testCaseResults| ==> |r.testCaseResults[i].stepResults| > 0)
  {
    VisitedCasesPassOnlyWithSteps(ops, runnerType, defaults, env);
    LaunchPassesOnlyWithSteps(run, ops, NextTestNumber(older), VisitOperation(runnerType, defaults, env));
  }

  /**
   With fresh cases defaulting to zero elapsed time, an operation whose runner failed
   for any other reason than the URI leaves the whole run flagged as in progress.
   */
  lemma FailedOperationKeepsRunInProgress(run: TestResult, ops: seq<Operation>, runnerType: TestRunnerType,
                                          older: Option<seq<TestResult>>, defaults: CaseDefaults,
                                          env: Collaborators, j: nat)
    requires defaults.elapsedTime == 0
    requires j < |ops| && OutcomeAt(j, ops[j], runnerType, env).OtherFailure?
    requires forall m :: 0 <= m < j ==> !OutcomeAt(m, ops[m], runnerType, env).UriSyntaxFailure?
    ensures LaunchTestsInternal(run, ops, runnerType, older, defaults, env).inProgress
  {
    var visit := VisitOperation(runnerType, defaults, env);
    forall m | 0 <= m < j
      ensures !visit(m, ops[m]).aborts
    {
      StepAbortsOnlyOnUriFailure(runnerType, defaults, env, m, ops[m]);
    }
    StepKeepsDefaultsOnOtherFailure(runnerType, defaults, env, j, ops[j]);
    ZeroTimeCaseKeepsLaunchInProgress(run, ops, NextTestNumber(older), visit, j);
  }
}
