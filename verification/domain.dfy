/**
 The records the test runner reads and writes: operations of a service, stored and
 replayed requests, responses, step and test-case results, the test result of a whole
 run, and the import jobs that locate runner artifacts. Only the fields the runner
 touches are modelled.
 */
module Domain {
  import opened Optional
  import opened JavaLong

  datatype Header = Header(name: string, values: seq<string>)

  datatype Parameter = Parameter(name: string, value: string)

  /** One operation of the service under test, with its declared transport method. */
  datatype Operation = Operation(name: string, httpMethod: string)

  /** A request: a template stored for an operation, or a clone replayed within a test case. */
  datatype Request = Request(
    id: Option<string>,
    name: string,
    content: string,
    operationId: Option<string>,
    headers: seq<Header>,
    queryParameters: seq<Parameter>,
    testCaseId: Option<string>,
    responseId: Option<string>)

  /** A response received while replaying a request. */
  datatype Response = Response(
    id: Option<string>,
    name: string,
    content: string,
    headers: seq<Header>,
    testCaseId: Option<string>)

  /** The outcome of one request/response exchange, as a runner builds it. */
  datatype TestStepResult = TestStepResult(success: bool, requestName: string, message: string)

  /**
   What a runner hands back for one replayed request: the exchange's elapsed time, the
   request and response objects, and the step result the runner builds from them.
   */
  datatype TestReturn = TestReturn(
    elapsedTime: Long,
    request: Request,
    response: Response,
    stepResult: TestStepResult)

  /** One operation's outcome within a test run. */
  datatype TestCaseResult = TestCaseResult(
    operationName: string,
    stepResults: seq<TestStepResult>,
    success: bool,
    elapsedTime: Long)

  /** One test run of a service: its number, endpoint, case results and aggregates. */
  datatype TestResult = TestResult(
    id: string,
    testNumber: Option<Long>,
    testedEndpoint: string,
    testCaseResults: seq<TestCaseResult>,
    success: bool,
    inProgress: bool,
    elapsedTime: Long)

  /** Where to fetch a runner-specific artifact (a SoapUI project or a Postman collection). */
  datatype ImportJob = ImportJob(name: string, repositoryUrl: string)

  /** The field values of a freshly constructed test-case result, defined outside the runner. */
  datatype CaseDefaults = CaseDefaults(success: bool, elapsedTime: Long)

  /** A fresh test-case result for the named operation, with no step results yet. */
  function NewTestCaseResult(operationName: string, defaults: CaseDefaults): TestCaseResult
  {
    TestCaseResult(operationName, [], defaults.success, defaults.elapsedTime)
  }
}
