# Test runner service of Microcks, modelled in Dafny

This project models the core of Microcks' `TestRunnerService`: the service that
launches a test run of a service's operations against a tested endpoint and builds
the run's `TestResult`. The model covers these pieces:

- **Numbering the run.** The run's number is one more than the test number of the
  repository's most recent result for the service, in Java `long` arithmetic. It is 1
  when there is no such result or that result has no number (`TestLaunch`).
- **The loop over the operations.** The operations are processed in declared order.
  For each one the service clones the operation's stored requests for the test case,
  selects a runner, and runs it. It then appends one `TestCaseResult` for the
  operation. A `URISyntaxException` on the tested endpoint marks that case failed
  with zero elapsed time and ends the loop. Any other failure raised inside the
  loop's `try` is swallowed, and the case keeps its fresh values (`TestLaunch`, `LaunchProperties`).
- **Folding a runner's returns into a test case.** Step results are appended in
  return order and elapsed times are summed. Success is the AND of the step
  successes, and is set only when the case has steps. Every response and request is
  tagged with the test case's id. Request *i* is linked to the id the repository
  assigns to response *i* (`CaseFolding`).
- **Aggregating the run.** This happens once, after the loop. The run is successful
  when every case is. It is in progress when some case took zero time. Its elapsed
  time is the `long` sum of the cases' times (`RunAggregation`).
- **Cloning requests and selecting the runner.** Runner selection interprets the
  service's `switch` statement label by label, including its fall-through: a failed
  SOAP_UI case (no import job, or a failed download) falls into the POSTMAN case. That
  case queries the jobs again, downloads again, and can return a Postman runner. Only
  when that fails too is the default HTTP runner reached (`RunnerSelection`,
  `CaseFolding`).

One might expect a failed SOAP_UI selection to reach the HTTP runner. The `switch`
instead falls through into the POSTMAN case (TestRunnerService.java:253-280), and the
model follows the code. `RunnerSelection.SoapUIFailureCanYieldPostmanRunner` exhibits
a SOAP_UI selection that returns a Postman runner. `RunnerSelection.StableEnvironmentFallsBackToHttp`
shows when a failed SOAP_UI selection does reach the HTTP runner: when the job
repository and the download answer the same way on the second attempt as on the first.

Java `long` addition wraps around silently. `JavaLong.Wrap` models it explicitly,
and every sum and the `+ 1` of the numbering are stated through it.

Collaborators are parameters: the request repository, the test-case id builder, the
job repository and the download, the runner, and the response repository's id
assignment. The runner selection's environment (`selectionAt`) and the runner
(`runTest`) are indexed by operation position, and within one selection the job
repository and the download are indexed by query and attempt. So these collaborators
may answer differently on a second call. The stored requests (`storedRequests`) and
the test-case id (`caseIdOf`) depend only on the operation. The response id
(`responseId`) depends only on the response and its position within its saved batch.

Modules: `Optional`, `JavaLong`, `Domain` (the records), `RunnerSelection`,
`CaseFolding`, `RunAggregation`, `TestLaunch` (numbering, one operation, the loop, the
launch) and `LaunchProperties` (properties of whole launches). Each property of a
launch is proved first for `TestLaunch.Launch` with an arbitrary step per operation,
then for the service's own step.

## Model

| member | source | states |
|---|---|---|
| JavaLong.Add | src/main/java/io/github/microcks/service/TestRunnerService.java:103 | Java `long` addition: the exact sum when it fits, otherwise the sum moved by 2^64 back into range |
| JavaLong.WrapIsTruncation | src/main/java/io/github/microcks/service/TestRunnerService.java:164 | the wrap-around equals the two's-complement reading of the low 64 bits of the exact value |
| JavaLong.WrapAbsorbs | src/main/java/io/github/microcks/service/TestRunnerService.java:205-207 | adding to a running total that has already wrapped gives the same `long` as wrapping the exact total once |
| TestLaunch.NextTestNumber | src/main/java/io/github/microcks/service/TestRunnerService.java:101-106 | the number is the first prior result's number plus one in `long` arithmetic, or 1 when the list is null or empty or its first number is null |
| TestLaunch.NextTestNumberExceedsPrior | src/main/java/io/github/microcks/service/TestRunnerService.java:101-106 | with prior results listed by decreasing number and no overflow, the new number exceeds every prior number and directly follows one of them (or is 1) |
| TestLaunch.NextTestNumberWrapsAtMax | src/main/java/io/github/microcks/service/TestRunnerService.java:103 | a prior number of Long.MAX_VALUE gives the new run the number Long.MIN_VALUE |
| TestLaunch.CaseFor | src/main/java/io/github/microcks/service/TestRunnerService.java:110-141 | the appended case carries the operation's name; a URI failure leaves it failed, stepless, zero time; another failure or no returns leave it stepless with its fresh values; returns give it their steps, the AND of their successes and their `long` time sum |
| TestLaunch.RunFrom | src/main/java/io/github/microcks/service/TestRunnerService.java:108-142 | the loop keeps the existing cases and appends the case of operation k+m at position n+m; without an abort it appends one per operation, with a first abort at j it appends exactly j-k+1 |
| TestLaunch.RunFromReaches | src/main/java/io/github/microcks/service/TestRunnerService.java:108-142 | the loop reaches operation j whenever no operation before j aborts |
| TestLaunch.RunFromEndsAtAbort | src/main/java/io/github/microcks/service/TestRunnerService.java:125-132 | when the loop stops at operation j, the case of j is the last one |
| TestLaunch.RunFromKeeps | src/main/java/io/github/microcks/service/TestRunnerService.java:108-142 | a property of every existing case and of every case the step can build holds of every case after the loop |
| TestLaunch.Launch | src/main/java/io/github/microcks/service/TestRunnerService.java:99-147 | the run keeps its id and endpoint, gets the given number and the loop's cases, and its three aggregates are those of its final cases |
| TestLaunch.LaunchTestsInternal | src/main/java/io/github/microcks/service/TestRunnerService.java:99-147 | the same for the service's launch: the number is the next test number and the cases are those the service's step appends |
| LaunchProperties.StepAbortsOnlyOnUriFailure | src/main/java/io/github/microcks/service/TestRunnerService.java:121-132 | the service's step stops the run exactly on a URI-syntax failure, and the case it then appends is the operation's, failed, stepless and zero-time |
| LaunchProperties.StepKeepsDefaultsOnOtherFailure | src/main/java/io/github/microcks/service/TestRunnerService.java:133-141 | any other runner failure does not stop the run and leaves the case stepless with its fresh success and elapsed values |
| LaunchProperties.CaseForPassesOnlyWithSteps | src/main/java/io/github/microcks/service/TestRunnerService.java:137-141 | with fresh cases not successful, a case claims success only when it has steps that all succeeded |
| LaunchProperties.VisitedCasesPassOnlyWithSteps | src/main/java/io/github/microcks/service/TestRunnerService.java:108-141 | the same for the case of every operation of a launch |
| LaunchProperties.AbortedLaunchEndsWithItsCase | src/main/java/io/github/microcks/service/TestRunnerService.java:125-145 | a launch stopped at operation j has n+j+1 cases, the last being j's; when that case failed stepless in no time, the run is unsuccessful and in progress |
| LaunchProperties.LaunchPassesOnlyWithSteps | src/main/java/io/github/microcks/service/TestRunnerService.java:108-145 | when every old and appended case passes only with steps, so does every case of the run, and a successful run has steps in every case |
| LaunchProperties.ZeroTimeCaseKeepsLaunchInProgress | src/main/java/io/github/microcks/service/TestRunnerService.java:201-213 | a visited operation whose case took zero time leaves the run flagged in progress |
| LaunchProperties.LaunchFollowsOperations | src/main/java/io/github/microcks/service/TestRunnerService.java:108-142 | the service's launch keeps the old cases and appends, in declared order, the case built from each visited operation's runner outcome; with no URI failure every operation is visited |
| LaunchProperties.AbortedLaunchEndsWithFailedCase | src/main/java/io/github/microcks/service/TestRunnerService.java:125-132 | a URI-syntax failure at operation j, the first one, leaves exactly n+j+1 cases, the last named after j, failed, stepless, zero-time, and the run unsuccessful and in progress |
| LaunchProperties.LaunchedCasesPassOnlyWithSteps | src/main/java/io/github/microcks/service/TestRunnerService.java:108-145 | with fresh cases not successful, every case of the service's launch passes only with steps, and a successful run has steps in every case |
| LaunchProperties.FailedOperationKeepsRunInProgress | src/main/java/io/github/microcks/service/TestRunnerService.java:133-145 | with fresh cases timed at zero, a swallowed failure of a reached operation leaves the whole run flagged in progress |
| CaseFolding.CloneRequestsForTestCase | src/main/java/io/github/microcks/service/TestRunnerService.java:225-238 | one clone per stored request, in order, each keeping name, content, headers and query parameters, tagged with the test case, with no id, operation or response link |
| CaseFolding.CloneTwiceRetags | src/main/java/io/github/microcks/service/TestRunnerService.java:225-238 | cloning the clones for another test case equals cloning the originals for it |
| CaseFolding.Accumulate | src/main/java/io/github/microcks/service/TestRunnerService.java:157-168 | the loop's success flag is the AND of all step successes, and its elapsed time the `long` sum of the returns' times |
| CaseFolding.UpdateTestCaseResultWithReturns | src/main/java/io/github/microcks/service/TestRunnerService.java:154-196 | steps appended in return order; elapsed is the `long` sum (the exact sum when it fits); success is the AND of the steps only when there are steps, else untouched; saved responses and requests are the tagged returns, linked position by position |
| CaseFolding.FoldLinksRequestsToResponses | src/main/java/io/github/microcks/service/TestRunnerService.java:171-186 | every persisted request and response carries the test-case id, and request i refers to the id assigned to response i |
| CaseFolding.FoldedCaseSuccess | src/main/java/io/github/microcks/service/TestRunnerService.java:191-194 | a fresh stepless case folded from a non-empty list of returns (the only call, :138) is successful exactly when all of the steps it got succeeded |
| RunAggregation.Aggregate | src/main/java/io/github/microcks/service/TestRunnerService.java:203-214 | success is the AND of the cases' successes, progress the OR of "elapsed is zero", elapsed the `long` sum |
| RunAggregation.UpdateTestResult | src/main/java/io/github/microcks/service/TestRunnerService.java:201-222 | only the three aggregates change, and they are those of the run's cases; the elapsed time is the exact sum when it fits |
| RunAggregation.EmptyRunAggregates | src/main/java/io/github/microcks/service/TestRunnerService.java:203-219 | a run without cases is successful, not in progress, and took no time |
| RunAggregation.UpdateTestResultIdempotent | src/main/java/io/github/microcks/service/TestRunnerService.java:201-222 | recomputing the aggregates of an unchanged run changes nothing |
| RunAggregation.AggregateAppend | src/main/java/io/github/microcks/service/TestRunnerService.java:206-214 | one more case ANDs its success in, ORs its zero time in, and adds its time in `long` arithmetic |
| RunnerSelection.RetrieveRunner | src/main/java/io/github/microcks/service/TestRunnerService.java:241-285 | SOAP_HTTP gives the SOAP runner; SOAP_UI gives a SoapUI runner exactly when its first fetch succeeds, and otherwise falls into the POSTMAN case; POSTMAN gives a Postman runner exactly when its fetch succeeds; everything else ends at the HTTP runner |
| RunnerSelection.SoapUIFailureCanYieldPostmanRunner | src/main/java/io/github/microcks/service/TestRunnerService.java:253-275 | a SOAP_UI selection whose first download fails and whose second succeeds returns a Postman runner |
| RunnerSelection.StableEnvironmentFallsBackToHttp | src/main/java/io/github/microcks/service/TestRunnerService.java:253-284 | when the job repository and the download answer a retry as before, a failed SOAP_UI or POSTMAN selection ends at the HTTP runner, and SOAP_UI never yields a Postman runner |

## Left out

- Downloading the runner artifact (`handleRemoteFileDownload`) is network and file I/O. It is modelled only as an oracle that answers a local file or an I/O failure.
- Asynchronous execution (`@Async`, `CompletableFuture`) is not modelled. Concurrent launches are not modelled either: the number is read, then incremented, without atomicity (TestRunnerService.java:101-106).
- Persistence is not modelled: every `save` is a no-op on the model. The exception is the id the response repository assigns, which is a parameter.
- The repository query behind the numbering is taken as given. Its page size is generalised: the list of prior results may have any length, and only its first entry is read. Its sort by test number is represented by the `NewestFirst` hypothesis of `TestLaunch.NextTestNumberExceedsPrior`.
- The concrete runners are not modelled: `buildMethod`, `runTest` and `buildTestStepResult`, including each `TestReturn`'s step result. Their results are opaque inputs, numbered by operation position.
- Anything a runner does to the test result while it runs is not modelled.
- The HTTP client factory and its timeouts, the runners' configuration URLs, and logging are not modelled.
- The default field values of a fresh `TestCaseResult` (success and elapsed time) are defined outside this service. They are a parameter.
- A null list of stored requests, or a null list of operations, makes the service fail before any result is aggregated. The model takes both lists as always present.
- UpdateTestCaseResultWithReturns: the returns are taken to carry distinct request and response objects, because the model holds them as values. In the code the requests are linked in place (:184-186), so a request object shared by two returns would end linked to the last of their responses, and request i would not point to response i.
- CaseFor: every `TestReturn` in a runner's list, with its request and its response, is taken as present. The returns are folded after the loop's `try` has closed (TestRunnerService.java:139), so a null return, request or response would throw out of the launch (at :164, :171 or :172) before `updateTestResult` runs; the model has no null for these records and always appends a case.
- Within one launch, the request repository and the test-case id builder answer the same for the same operation (`storedRequests`, `caseIdOf`), and the response repository assigns an id that depends only on the response and its position in its batch (`responseId`). An operation listed twice, or an equal response saved at the same position in two batches, therefore gets the same answers in the model.
- A failure raised by runner selection itself is not modelled: it happens outside the `try`, and the repository and download are oracles whose only failure is the `IOException` the `switch` catches (:261, :276).
- Only the runner types HTTP, SOAP_HTTP, SOAP_UI and POSTMAN are modelled. Any other type takes the `default` branch, as HTTP does.
- The test-case id that `IdBuilder` builds is not modelled; the model uses the given `caseIdOf` instead. The run it depends on is the same for the whole launch.
