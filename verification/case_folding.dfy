/**
 Per-operation work of a test run: cloning the stored requests of an operation for one
 test case, and folding the returns a runner produced into that test case's result,
 together with the responses and requests the service persists for it.
 */
module CaseFolding {
  import opened Optional
  import opened JavaLong
  import opened Domain

  /** `clone` is a fresh copy of `request` for test case `testCaseId`. */
  predicate IsCloneFor(request: Request, clone: Request, testCaseId: string)
  {
    && clone.name == request.name
    && clone.content == request.content
    && clone.headers == request.headers
    && clone.queryParameters == request.queryParameters
    && clone.testCaseId == Some(testCaseId)
    && clone.id.None?
    && clone.operationId.None?
    && clone.responseId.None?
  }

  function CloneRequest(request: Request, testCaseId: string): Request
  {
    Request(None, request.name, request.content, None, request.headers, request.queryParameters,
            Some(testCaseId), None)
  }

  /** The requests replayed in a test case: one fresh, tagged clone per stored request, in order. */
  function CloneRequestsForTestCase(requests: seq<Request>, testCaseId: string): (clones: seq<Request>)
    ensures |clones| == |requests|
    ensures forall i :: 0 <= i < |requests| ==> IsCloneFor(requests[i], clones[i], testCaseId)
  {
    seq(|requests|, i requires 0 <= i < |requests| => CloneRequest(requests[i], testCaseId))
  }

  /** Cloning for a second test case only moves the clones to that case. */
  lemma CloneTwiceRetags(requests: seq<Request>, first: string, second: string)
    ensures CloneRequestsForTestCase(CloneRequestsForTestCase(requests, first), second)
         == CloneRequestsForTestCase(requests, second)
  {
  }

  function ReturnElapsed(t: TestReturn): int
  {
    t.elapsedTime
  }

  /** The flags the loop over the returns keeps, after some prefix of the returns. */
  datatype Running = Running(successFlag: bool, elapsed: Long)

  /**
   The loop over the returns, in return order: it sums the elapsed times in `long`
   arithmetic and clears the success flag at the first failed step.
   */
  function Accumulate(testReturns: seq<TestReturn>): (st: Running)
    ensures st.successFlag <==> forall k :: 0 <= k < |testReturns| ==> testReturns[k].stepResult.success
    ensures st.elapsed == Wrap(SumBy(testReturns, ReturnElapsed))
  {
    if |testReturns| == 0 then Running(true, 0)
    else
      var prev := Accumulate(testReturns[..|testReturns| - 1]);
      var t := testReturns[|testReturns| - 1];
      WrapAbsorbs(SumBy(testReturns[..|testReturns| - 1], ReturnElapsed), t.elapsedTime);
      Running(prev.successFlag && t.stepResult.success, Add(prev.elapsed, t.elapsedTime))
  }

  /** The step results of the returns, in return order. */
  function StepResults(testReturns: seq<TestReturn>): (steps: seq<TestStepResult>)
    ensures |steps| == |testReturns|
    ensures forall k :: 0 <= k < |testReturns| ==> steps[k] == testReturns[k].stepResult
  {
    seq(|testReturns|, k requires 0 <= k < |testReturns| => testReturns[k].stepResult)
  }

  /** The responses of the returns, in return order, tagged with the test case. */
  function TaggedResponses(testReturns: seq<TestReturn>, testCaseId: string): (responses: seq<Response>)
    ensures |responses| == |testReturns|
    ensures forall k :: 0 <= k < |testReturns| ==>
              responses[k] == testReturns[k].response.(testCaseId := Some(testCaseId))
  {
    seq(|testReturns|, k requires 0 <= k < |testReturns| => testReturns[k].response.(testCaseId := Some(testCaseId)))
  }

  /** The requests of the returns, in return order, tagged with the test case. */
  function TaggedRequests(testReturns: seq<TestReturn>, testCaseId: string): (requests: seq<Request>)
    ensures |requests| == |testReturns|
    ensures forall k :: 0 <= k < |testReturns| ==>
              requests[k] == testReturns[k].request.(testCaseId := Some(testCaseId))
  {
    seq(|testReturns|, k requires 0 <= k < |testReturns| => testReturns[k].request.(testCaseId := Some(testCaseId)))
  }

  /** The result of folding returns: the updated test case and what is persisted for it. */
  datatype FoldResult = FoldResult(
    testCase: TestCaseResult,
    savedResponses: seq<Response>,
    savedRequests: seq<Request>)

  /**
   The response the repository holds after saving `response` at position `k` of a
   batch, where `responseId` is the identifier the repository assigns.
   */
  function Saved(response: Response, k: nat, responseId: (nat, Response) -> string): Response
  {
    response.(id := Some(responseId(k, response)))
  }

  /** Saves a batch of responses: each gets the identifier the repository assigns to it. */
  function SaveResponses(responses: seq<Response>, responseId: (nat, Response) -> string): (saved: seq<Response>)
    ensures |saved| == |responses|
    ensures forall k :: 0 <= k < |responses| ==> saved[k] == Saved(responses[k], k, responseId)
  {
    seq(|responses|, k requires 0 <= k < |responses| => Saved(responses[k], k, responseId))
  }

  /** Links request `k` to the identifier of saved response `k`. */
  function LinkRequests(requests: seq<Request>, saved: seq<Response>): (linked: seq<Request>)
    requires |requests| == |saved|
    ensures |linked| == |requests|
    ensures forall k :: 0 <= k < |requests| ==> linked[k] == requests[k].(responseId := saved[k].id)
  {
    seq(|requests|, k requires 0 <= k < |requests| => requests[k].(responseId := saved[k].id))
  }

  /**
   Folds a runner's returns into a test case. Responses are saved first, as one batch,
   so that each request can then be linked to the identifier of its response.
   */
  function UpdateTestCaseResultWithReturns(
    testCase: TestCaseResult, testReturns: seq<TestReturn>, testCaseId: string,
    responseId: (nat, Response) -> string): (r: FoldResult)
    ensures r.testCase.operationName == testCase.operationName
    ensures r.testCase.stepResults == testCase.stepResults + StepResults(testReturns)
    ensures r.testCase.elapsedTime == Wrap(SumBy(testReturns, ReturnElapsed))
    ensures MinLong <= SumBy(testReturns, ReturnElapsed) <= MaxLong ==>
              r.testCase.elapsedTime == SumBy(testReturns, ReturnElapsed)
    ensures |r.testCase.stepResults| > 0 ==>
              (r.testCase.success <==> forall k :: 0 <= k < |testReturns| ==> testReturns[k].stepResult.success)
    ensures |r.testCase.stepResults| == 0 ==> r.testCase.success == testCase.success
    ensures |r.savedResponses| == |testReturns| && |r.savedRequests| == |testReturns|
    ensures forall k :: 0 <= k < |testReturns| ==>
              && r.savedResponses[k] == Saved(testReturns[k].response.(testCaseId := Some(testCaseId)), k, responseId)
              && r.savedRequests[k] == testReturns[k].request.(testCaseId := Some(testCaseId),
                                                           responseId := r.savedResponses[k].id)
  {
    var st := Accumulate(testReturns);
    var saved := SaveResponses(TaggedResponses(testReturns, testCaseId), responseId);
    var linked := LinkRequests(TaggedRequests(testReturns, testCaseId), saved);
    var steps := testCase.stepResults + StepResults(testReturns);
    var success := if |steps| > 0 then st.successFlag else testCase.success;
    FoldResult(TestCaseResult(testCase.operationName, steps, success, st.elapsed), saved, linked)
  }

  /**
   Every persisted request and response carries the test case's identifier, and request
   `k` refers to the identifier the repository assigned to response `k`.
   */
  lemma FoldLinksRequestsToResponses(
    testCase: TestCaseResult, testReturns: seq<TestReturn>, testCaseId: string,
    responseId: (nat, Response) -> string)
    ensures var r := UpdateTestCaseResultWithReturns(testCase, testReturns, testCaseId, responseId);
            && |r.savedRequests| == |r.savedResponses| == |testReturns|
            && forall k :: 0 <= k < |testReturns| ==>
                 && r.savedRequests[k].testCaseId == Some(testCaseId)
                 && r.savedResponses[k].testCaseId == Some(testCaseId)
                 && r.savedResponses[k].id == Some(responseId(k, testReturns[k].response.(testCaseId := Some(testCaseId))))
                 && r.savedRequests[k].responseId == r.savedResponses[k].id
  {
  }

  /**
   A test case folded from a fresh, step-less result is successful exactly when it got
   at least one step and every step succeeded.
   */
  lemma FoldedCaseSuccess(
    testCase: TestCaseResult, testReturns: seq<TestReturn>, testCaseId: string,
    responseId: (nat, Response) -> string)
    requires testCase.stepResults == []
    requires |testReturns| > 0
    ensures var c := UpdateTestCaseResultWithReturns(testCase, testReturns, testCaseId, responseId).testCase;
            c.success <==> |c.stepResults| > 0 && forall k :: 0 <= k < |c.stepResults| ==> c.stepResults[k].success
  {
    var c := UpdateTestCaseResultWithReturns(testCase, testReturns, testCaseId, responseId).testCase;
    assert c.stepResults == StepResults(testReturns);
  }
}
