/**
 Selection of the test runner for a runner type. The service code is a `switch` whose
 SOAP_UI and POSTMAN cases do not end in `break`: when a case cannot build its runner
 it falls through into the next case label, and the last label is `default`. This
 module interprets that switch case by case, so the fall-through is modelled as
 written rather than as a direct fallback to the HTTP runner.
 */
module RunnerSelection {
  import opened Optional
  import opened Domain

  datatype TestRunnerType = Http | SoapHttp | SoapUI | Postman

  datatype Runner = HttpRunner | SoapHttpRunner | SoapUIRunner(projectFile: string) | PostmanRunner(collectionFile: string)

  /**
   What the import-job repository and the artifact download answer during one
   selection for one service. Job queries and download attempts are numbered from 0 in
   the order the selection makes them; a download answers the local file or `None`
   when it raised an I/O error. A `None` job list stands for `null`.
   */
  datatype SelectionEnv = SelectionEnv(
    findJobs: nat -> Option<seq<ImportJob>>,
    download: (nat, string) -> Option<string>)

  /** How many job queries and downloads the selection has made so far. */
  datatype Calls = Calls(queries: nat, downloads: nat)

  /** How a case body ends: returning a runner, or falling through to the next label. */
  datatype CaseExit = Return(runner: Runner) | FallThrough(calls: Calls)

  datatype ArtifactKind = SoapUIProject | PostmanCollection

  /** The switch labels in declaration order: SOAP_HTTP, SOAP_UI, POSTMAN, default. */
  const DefaultLabel: nat := 3

  function EntryLabel(t: TestRunnerType): (at: nat)
    ensures at <= DefaultLabel
  {
    match t
    case SoapHttp => 0
    case SoapUI => 1
    case Postman => 2
    case Http => DefaultLabel
  }

  predicate HasJobs(jobs: Option<seq<ImportJob>>)
  {
    jobs.Some? && |jobs.value| > 0
  }

  /**
   Body of the SOAP_UI or POSTMAN case: query the jobs and, when there are some,
   download the first job's artifact and build the runner on it.
   */
  function ArtifactCase(kind: ArtifactKind, env: SelectionEnv, calls: Calls): CaseExit
  {
    var jobs := env.findJobs(calls.queries);
    if HasJobs(jobs) then
      match env.download(calls.downloads, jobs.value[0].repositoryUrl)
      case Some(file) =>
        Return(if kind == SoapUIProject then SoapUIRunner(file) else PostmanRunner(file))
      case None => FallThrough(Calls(calls.queries + 1, calls.downloads + 1))
    else
      FallThrough(Calls(calls.queries + 1, calls.downloads))
  }

  /** Body of the case at label `at`, one of the labels before `default`. */
  function CaseBody(at: nat, env: SelectionEnv, calls: Calls): CaseExit
    requires at < DefaultLabel
  {
    if at == 0 then Return(SoapHttpRunner)
    else if at == 1 then ArtifactCase(SoapUIProject, env, calls)
    else ArtifactCase(PostmanCollection, env, calls)
  }

  /**
   Java `switch` semantics: run the case body at label `at`, continuing with the next
   label on fall-through. The `default` body returns the HTTP runner.
   */
  function ExecuteFrom(at: nat, env: SelectionEnv, calls: Calls): Runner
    requires at <= DefaultLabel
    decreases DefaultLabel - at
  {
    if at == DefaultLabel then HttpRunner
    else
      match CaseBody(at, env, calls)
      case Return(r) => r
      case FallThrough(next) => ExecuteFrom(at + 1, env, next)
  }

  /** The artifact an artifact case obtains when it makes job query `q` and download attempt `d`. */
  function Fetched(env: SelectionEnv, q: nat, d: nat): Option<string>
  {
    var jobs := env.findJobs(q);
    if HasJobs(jobs) then env.download(d, jobs.value[0].repositoryUrl) else None
  }

  /** The download attempt the POSTMAN case makes after falling through from SOAP_UI. */
  function PostmanAttemptAfterSoapUI(env: SelectionEnv): nat
  {
    if HasJobs(env.findJobs(0)) then 1 else 0
  }

  /** The runner chosen for `t`: which branch yields which runner, fall-through included. */
  function RetrieveRunner(t: TestRunnerType, env: SelectionEnv): (r: Runner)
    ensures r == SoapHttpRunner <==> t == SoapHttp
    ensures r.SoapUIRunner? <==> t == SoapUI && Fetched(env, 0, 0).Some?
    ensures r.SoapUIRunner? ==> Fetched(env, 0, 0) == Some(r.projectFile)
    ensures r.PostmanRunner? <==>
              || (t == Postman && Fetched(env, 0, 0).Some?)
              || (t == SoapUI && Fetched(env, 0, 0).None? && Fetched(env, 1, PostmanAttemptAfterSoapUI(env)).Some?)
    ensures r.PostmanRunner? && t == Postman ==> Fetched(env, 0, 0) == Some(r.collectionFile)
    ensures r.PostmanRunner? && t == SoapUI ==>
              Fetched(env, 1, PostmanAttemptAfterSoapUI(env)) == Some(r.collectionFile)
    ensures r == HttpRunner <==>
              || t == Http
              || (t == Postman && Fetched(env, 0, 0).None?)
              || (t == SoapUI && Fetched(env, 0, 0).None? && Fetched(env, 1, PostmanAttemptAfterSoapUI(env)).None?)
  {
    ExecuteFrom(EntryLabel(t), env, Calls(0, 0))
  }

  /**
   A SOAP_UI selection whose first download fails and whose second succeeds returns a
   Postman runner built on the SoapUI project's file.
   */
  lemma SoapUIFailureCanYieldPostmanRunner()
    ensures
      var env := SelectionEnv(
        (q: nat) => Some([ImportJob("job", "http://repo/project.xml")]),
        (d: nat, url: string) => if d == 0 then None else Some("/tmp/microcks-1.project"));
      RetrieveRunner(SoapUI, env) == PostmanRunner("/tmp/microcks-1.project")
  {
  }

  /**
   When the repository and the download answer the same way every time they are asked,
   a failed SOAP_UI selection ends at the HTTP runner, as a failed POSTMAN one does.
   */
  lemma StableEnvironmentFallsBackToHttp(t: TestRunnerType, env: SelectionEnv)
    requires t == SoapUI || t == Postman
    requires env.findJobs(1) == env.findJobs(0)
    requires forall url :: env.download(1, url) == env.download(0, url)
    ensures RetrieveRunner(t, env) == HttpRunner <==> Fetched(env, 0, 0).None?
    ensures t == SoapUI ==> !RetrieveRunner(t, env).PostmanRunner?
  {
  }
}
