/** What each answer comes to in the end: for every way a download, a submission, a lookup or a resumed job can go,
    the row, the files, the reports and the place where the handler then stands. `Ended(j, s)` is the job with `s`
    written and told, `FailedJob(j)` the job failed, its file moved and FAILED told. */
module Outcomes {
  import opened Wrappers
  import opened Models
  import opened Store
  import L = Lifecycle
  import opened HandlerRuns

  /** One answer, then only plain ones. */
  function After(j: L.Job, o: L.Outcome, n: nat, maxAttempts: int): L.Job {
    RunAll(j, [L.Step(o)] + Plain(n, []), maxAttempts)
  }

  lemma AfterAnswer(j: L.Job, o: L.Outcome, n: nat, maxAttempts: int) returns (k: L.Job)
    requires !j.pc.Idle? && !j.pc.Raised? && L.Next(j, L.Step(o), maxAttempts).Some?
    ensures k == L.Next(j, L.Step(o), maxAttempts).value
    ensures After(j, o, n, maxAttempts) == RunAll(k, Plain(n, []), maxAttempts)
  {
    k := L.Next(j, L.Step(o), maxAttempts).value;
    RunOne(j, L.Step(o), Plain(n, []), maxAttempts);
  }

  /** The row with one attempt more. */
  function Counted(j: L.Job): L.Job
    requires j.row.Some?
  {
    j.(row := Some(j.row.value.(attemptCount := j.row.value.attemptCount + 1)))
  }

  /** A status stored and told. */
  function Stated(j: L.Job, status: JobStatus): L.Job
    requires j.row.Some?
  {
    j.(row := Some(j.row.value.(status := status)),
       reports := j.reports + [L.Report(status, status, j.row.value.cupsJobId)])
  }

  // ----- Retries -----

  /** A counted attempt that leaves more: RETRY_WAITING, or what the table leaves, and RETRY_WAITING told. */
  lemma CountedAttemptIsScheduled(j: L.Job, job: L.Assignment, n: nat, maxAttempts: int)
    requires j.row.Some? && j.pc == L.Retry(job, L.AttemptCounted) && n >= 2
    requires j.row.value.attemptCount < maxAttempts
    ensures RunAll(j, Plain(n, []), maxAttempts)
            == RunAll(Ended(j, RetryWaiting).(pc := L.Retry(job, L.Reported)), Plain(n - 2, []), maxAttempts)
  {
    var written := RunPlain(j, n, [], maxAttempts);
    var told := RunPlain(written, n - 1, [], maxAttempts);
  }

  /** A failure that may be retried is counted first. */
  lemma RetryableIsCounted(j: L.Job, job: L.Assignment, n: nat, maxAttempts: int)
    requires j.row.Some? && j.pc == L.Retry(job, L.PreSubmitFailure(L.Retryable)) && n >= 1
    requires j.row.value.cupsJobId.None?
    ensures RunAll(j, Plain(n, []), maxAttempts)
            == RunAll(Counted(j).(pc := L.Retry(job, L.AttemptCounted)), Plain(n - 1, []), maxAttempts)
  {
    var counted := RunPlain(j, n, [], maxAttempts);
  }

  lemma RetryIsScheduled(j: L.Job, job: L.Assignment, n: nat, maxAttempts: int)
    requires j.row.Some? && j.pc == L.Retry(job, L.PreSubmitFailure(L.Retryable)) && n >= 3
    requires j.row.value.cupsJobId.None? && j.row.value.attemptCount + 1 < maxAttempts
    ensures RunAll(j, Plain(n, []), maxAttempts)
            == RunAll(Ended(Counted(j), RetryWaiting).(pc := L.Retry(job, L.Reported)), Plain(n - 3, []), maxAttempts)
  {
    RetryableIsCounted(j, job, n, maxAttempts);
    var counted := Counted(j).(pc := L.Retry(job, L.AttemptCounted));
    CountedAttemptIsScheduled(counted, job, n - 1, maxAttempts);
    assert Ended(counted, RetryWaiting) == Ended(Counted(j), RetryWaiting);
  }

  lemma EndedIsStated(j: L.Job, status: JobStatus)
    requires j.row.Some? && CanTransition(j.row.value.status, status)
    ensures Ended(j, status) == Stated(j, status).(pc := L.Idle)
  {
  }

  /** The last attempt fails the job. */
  lemma LastAttemptFails(j: L.Job, job: L.Assignment, n: nat, maxAttempts: int)
    requires j.row.Some? && j.pc == L.Retry(job, L.PreSubmitFailure(L.Retryable)) && n >= 5
    requires j.row.value.cupsJobId.None? && j.row.value.attemptCount + 1 >= maxAttempts
    ensures RunAll(j, Plain(n, []), maxAttempts) == FailedJob(Counted(j))
  {
    RetryableIsCounted(j, job, n, maxAttempts);
    var failing := RunPlain(Counted(j).(pc := L.Retry(job, L.AttemptCounted)), n - 1, [], maxAttempts);
    FailureRuns(failing, n - 2, maxAttempts);
    RaisingForgetsPlace(Counted(j), failing.pc, true);
  }

  /** Any other failure fails it at once, and so does every failure of a row with a printer id. */
  lemma OtherFailureFails(j: L.Job, job: L.Assignment, kind: L.FailureKind, n: nat, maxAttempts: int)
    requires j.row.Some? && j.pc == L.Retry(job, L.PreSubmitFailure(kind)) && n >= 4
    requires kind.Permanent? || j.row.value.cupsJobId.Some?
    ensures RunAll(j, Plain(n, []), maxAttempts) == FailedJob(j)
  {
    var failing := RunPlain(j, n, [], maxAttempts);
    FailureRuns(failing, n - 1, maxAttempts);
    RaisingForgetsPlace(j, failing.pc, true);
  }

  /** A waiting job that wakes starts its download. */
  lemma WokenJobDownloads(j: L.Job, job: L.Assignment, n: nat, maxAttempts: int)
    requires j.row.Some? && j.pc == L.Pipeline(job, L.Start(j.row.value, false)) && job.valid && n >= 2
    requires j.row.value.status == RetryWaiting && j.row.value.cupsJobId.None?
    ensures RunAll(j, Plain(n, []), maxAttempts)
            == RunAll(Stated(j, Downloading).(pc := L.Pipeline(job, L.StartDownload)), Plain(n - 2, []), maxAttempts)
  {
    var written := RunPlain(j, n, [], maxAttempts);
    var told := RunPlain(written, n - 1, [], maxAttempts);
  }

  /** A job that waits for its retry: it sleeps, wakes and is downloaded again. */
  lemma WaitingJobRetries(j: L.Job, job: L.Assignment, n: nat, maxAttempts: int)
    requires j.row.Some? && j.pc == L.Retry(job, L.Sleep(j.row.value)) && job.valid && n >= 4
    requires j.row.value.status == RetryWaiting && j.row.value.cupsJobId.None?
    requires j.row.value.attemptCount < maxAttempts
    ensures RunAll(j, Plain(n, []), maxAttempts)
            == RunAll(Stated(j, Downloading).(pc := L.Pipeline(job, L.StartDownload)), Plain(n - 4, []), maxAttempts)
  {
    var slept := RunPlain(j, n, [], maxAttempts);
    var woke := RunPlain(slept, n - 1, [], maxAttempts);
    assert woke == j.(pc := L.Pipeline(job, L.Start(j.row.value, false)));
    WokenJobDownloads(woke, job, n - 2, maxAttempts);
  }

  /** A waiting job without an attempt left, as after a change of the policy, fails when it wakes. */
  lemma WaitingJobWithoutAttemptsFails(j: L.Job, job: L.Assignment, n: nat, maxAttempts: int)
    requires j.row.Some? && j.pc == L.Retry(job, L.Sleep(j.row.value)) && n >= 5
    requires j.row.value.cupsJobId.None? && j.row.value.attemptCount >= maxAttempts
    ensures RunAll(j, Plain(n, []), maxAttempts) == FailedJob(j)
  {
    var slept := RunPlain(j, n, [], maxAttempts);
    var failing := RunPlain(slept, n - 1, [], maxAttempts);
    FailureRuns(failing, n - 2, maxAttempts);
    RaisingForgetsPlace(j, failing.pc, true);
  }

  // ----- Downloads -----

  predicate AwaitsDownload(j: L.Job, job: L.Assignment) {
    && j.row.Some? && j.row.value.status == Downloading && j.row.value.cupsJobId.None?
    && j.pc == L.Pipeline(job, L.AwaitDownload)
  }

  /** A retryable download error is counted, and RETRY_WAITING stored and told. */
  lemma RetryableDownloadWaits(j: L.Job, job: L.Assignment, n: nat, maxAttempts: int)
    requires AwaitsDownload(j, job) && j.row.value.attemptCount + 1 < maxAttempts && n >= 3
    ensures After(j, L.RetryableError, n, maxAttempts)
            == RunAll(Stated(Counted(j), RetryWaiting).(pc := L.Retry(job, L.Reported)), Plain(n - 3, []), maxAttempts)
  {
    var k := AfterAnswer(j, L.RetryableError, n, maxAttempts);
    RetryIsScheduled(k, job, n, maxAttempts);
    CountedDownloadWaits(j, k.pc);
  }

  lemma CountedDownloadWaits(j: L.Job, pc: L.Pc)
    requires j.row.Some? && j.row.value.status == Downloading
    ensures Ended(Counted(j.(pc := pc)), RetryWaiting) == Stated(Counted(j), RetryWaiting).(pc := L.Idle)
  {
    EndedIsStated(Counted(j.(pc := pc)), RetryWaiting);
  }

  /** Then the job is downloaded again. */
  lemma RetryableDownloadIsRetried(j: L.Job, job: L.Assignment, n: nat, maxAttempts: int)
    requires AwaitsDownload(j, job) && job.valid && j.row.value.attemptCount + 1 < maxAttempts && n >= 8
    ensures After(j, L.RetryableError, n, maxAttempts)
            == RunAll(Stated(Stated(Counted(j), RetryWaiting), Downloading).(pc := L.Pipeline(job, L.StartDownload)),
                      Plain(n - 8, []), maxAttempts)
  {
    RetryableDownloadWaits(j, job, n, maxAttempts);
    var waiting := Stated(Counted(j), RetryWaiting).(pc := L.Retry(job, L.Reported));
    var sleeping := RunPlain(waiting, n - 3, [], maxAttempts);
    assert sleeping == waiting.(pc := L.Retry(job, L.Sleep(waiting.row.value)));
    WaitingJobRetries(sleeping, job, n - 4, maxAttempts);
  }

  lemma LastRetryableDownloadFails(j: L.Job, job: L.Assignment, maxAttempts: int)
    requires AwaitsDownload(j, job) && j.row.value.attemptCount + 1 >= maxAttempts
    ensures After(j, L.RetryableError, 5, maxAttempts) == FailedJob(Counted(j))
  {
    var k := AfterAnswer(j, L.RetryableError, 5, maxAttempts);
    LastAttemptFails(k, job, 5, maxAttempts);
    RaisingForgetsPlace(Counted(j), k.pc, true);
  }

  /** A permanent download error fails the job, its attempts as they were; so does a file that cannot be moved. */
  lemma PermanentDownloadFails(j: L.Job, job: L.Assignment, maxAttempts: int)
    requires j.row.Some? && (AwaitsDownload(j, job) || j.pc == L.Pipeline(job, L.MoveToProcessing))
    ensures After(j, L.PermanentError, 4, maxAttempts) == FailedJob(j)
  {
    var k := AfterAnswer(j, L.PermanentError, 4, maxAttempts);
    OtherFailureFails(k, job, L.Permanent, 4, maxAttempts);
    RaisingForgetsPlace(j, k.pc, true);
  }

  lemma DownloadExceptionFails(j: L.Job, job: L.Assignment, maxAttempts: int)
    requires AwaitsDownload(j, job)
    ensures After(j, L.Exception, 3, maxAttempts) == FailedJob(j)
  {
    var k := AfterAnswer(j, L.Exception, 3, maxAttempts);
    FailureRuns(k, 3, maxAttempts);
    RaisingForgetsPlace(j, k.pc, true);
  }

  /** A pipeline that may not start fails the job: settings that are invalid, or a record with a printer id. */
  lemma RefusedPipelineFails(j: L.Job, job: L.Assignment, record: Row, already: bool, maxAttempts: int)
    requires j.row.Some? && j.pc == L.Pipeline(job, L.Start(record, already))
    requires !job.valid || record.cupsJobId.Some?
    ensures RunAll(j, Plain(4, []), maxAttempts) == FailedJob(j)
  {
    var failing := RunPlain(j, 4, [], maxAttempts);
    FailureRuns(failing, 3, maxAttempts);
    RaisingForgetsPlace(j, failing.pc, true);
  }

  /** A file that cannot be moved to failed does not keep the job from failing. */
  lemma FailedMoveIsIgnored(j: L.Job, maxAttempts: int)
    requires j.row.Some? && j.pc == L.Failing(L.MoveToFailed)
    ensures After(j, L.PermanentError, 2, maxAttempts) == Ended(j, Failed)
  {
    var k := AfterAnswer(j, L.PermanentError, 2, maxAttempts);
    FailedMarkRuns(k, 2, maxAttempts);
  }

  /** What failing does to a row that is not terminal: FAILED stored and told, and its file gone from processing. */
  lemma FailedJobIsFailed(j: L.Job)
    requires j.row.Some? && j.row.value.status !in {Completed, Failed, Cancelled}
    ensures var file := j.row.value.filePath; var there := file.Some? && file.value in j.processing;
            FailedJob(j) ==
            Stated(if !there then j else j.(processing := j.processing - {file.value}, failedMove := true),
                   Failed).(pc := L.Idle)
  {
  }

  // ----- Submissions -----

  predicate Submitting(j: L.Job, job: L.Assignment, inTry: bool, path: L.Path, at: L.SubmissionPc) {
    && j.row.Some? && j.row.value.status == JobStatus.Ready && j.row.value.cupsJobId.None?
    && j.pc == L.Submission(job, inTry, path, at)
  }

  /** A job at the printer: its id stored, SUBMITTED stored and told, and watched with its file. */
  function WatchedPrint(j: L.Job, inTry: bool, id: L.CupsId, file: Option<L.Path>): L.Job
    requires j.row.Some?
  {
    var named := j.(row := Some(j.row.value.(cupsJobId := Some(id))));
    Stated(named, Submitted).(pc := L.Monitoring(inTry, id, L.Poll(file)))
  }

  /** An accepted `lp` puts the job at the printer. */
  lemma AcceptedLpIsWatched(j: L.Job, job: L.Assignment, inTry: bool, path: L.Path, id: L.CupsId, maxAttempts: int)
    requires Submitting(j, job, inTry, path, L.AwaitLp) && id in j.spool
    ensures After(j, L.LpAccepted(id), 3, maxAttempts) == WatchedPrint(j, inTry, id, Some(path))
  {
    var k := AfterAnswer(j, L.LpAccepted(id), 3, maxAttempts);
    NamedLpIsWatched(k, job, inTry, path, id, maxAttempts);
  }

  lemma NamedLpIsWatched(j: L.Job, job: L.Assignment, inTry: bool, path: L.Path, id: L.CupsId, maxAttempts: int)
    requires Submitting(j, job, inTry, path, L.StoreCupsId(id))
    ensures RunAll(j, Plain(3, []), maxAttempts) == WatchedPrint(j, inTry, id, Some(path))
  {
    var stored := RunPlain(j, 3, [], maxAttempts);
    StoredIdIsSubmitted(stored, job, inTry, path, id, 2, maxAttempts);
  }

  lemma StoredIdIsSubmitted(
    j: L.Job, job: L.Assignment, inTry: bool, path: L.Path, id: L.CupsId, n: nat, maxAttempts: int)
    requires j.row.Some? && j.row.value.status == JobStatus.Ready && n >= 2
    requires j.pc == L.Submission(job, inTry, path, L.MarkSubmitted(id))
    ensures RunAll(j, Plain(n, []), maxAttempts)
            == RunAll(Stated(j, Submitted).(pc := L.Monitoring(inTry, id, L.Poll(Some(path)))),
                      Plain(n - 2, []), maxAttempts)
  {
    var written := RunPlain(j, n, [], maxAttempts);
    var told := RunPlain(written, n - 1, [], maxAttempts);
  }

  /** A timed-out `lp` whose job is found afterwards is adopted like an accepted one. */
  lemma TimedOutLpIsAdopted(j: L.Job, job: L.Assignment, inTry: bool, path: L.Path, id: L.CupsId, maxAttempts: int)
    requires Submitting(j, job, inTry, path, L.AwaitLp)
    ensures RunAll(j, [L.Step(L.LpTimeout)] + ([L.Step(L.LookupFound(id))] + Plain(3, [])), maxAttempts)
            == WatchedPrint(j, inTry, id, Some(path))
  {
    var found := [L.Step(L.LookupFound(id))] + Plain(3, []);
    RunOne(j, L.Step(L.LpTimeout), found, maxAttempts);
    var k := L.Next(j, L.Step(L.LpTimeout), maxAttempts).value;
    RunOne(k, L.Step(L.LookupFound(id)), Plain(3, []), maxAttempts);
    NamedLpIsWatched(L.Next(k, L.Step(L.LookupFound(id)), maxAttempts).value, job, inTry, path, id, maxAttempts);
  }

  lemma SubmitErrorFails(j: L.Job, job: L.Assignment, inTry: bool, path: L.Path, maxAttempts: int)
    requires Submitting(j, job, inTry, path, L.SubmitError(L.Permanent))
    ensures RunAll(j, Plain(4, []), maxAttempts) == FailedJob(j)
  {
    var failing := RunPlain(j, 4, [], maxAttempts);
    FailureRuns(failing, 3, maxAttempts);
    RaisingForgetsPlace(j, failing.pc, true);
  }

  /** A refused `lp` fails the job, and so does one that timed out without leaving exactly one job to be found. */
  lemma UnprintedLpFails(j: L.Job, job: L.Assignment, inTry: bool, path: L.Path, o: L.Outcome, maxAttempts: int)
    requires || (Submitting(j, job, inTry, path, L.AwaitLp) && o == L.LpRefused)
             || (Submitting(j, job, inTry, path, L.AwaitTimeoutLookup)
                 && (o == L.LookupNotFound || o == L.LookupUndecided))
    ensures After(j, o, 4, maxAttempts) == FailedJob(j)
  {
    var k := AfterAnswer(j, o, 4, maxAttempts);
    SubmitErrorFails(k, job, inTry, path, maxAttempts);
    RaisingForgetsPlace(j, k.pc, true);
  }

  /** Without its file nothing is submitted: the job fails before any `lp`. */
  lemma MissingFileFails(j: L.Job, job: L.Assignment, inTry: bool, path: L.Path, maxAttempts: int)
    requires Submitting(j, job, inTry, path, L.Submit) && path !in j.processing
    ensures After(j, L.Go, 4, maxAttempts) == FailedJob(j)
  {
    var k := AfterAnswer(j, L.Go, 4, maxAttempts);
    SubmitErrorFails(k, job, inTry, path, maxAttempts);
    RaisingForgetsPlace(j, k.pc, true);
  }

  /** An unavailable printer is counted as an attempt; RETRY_WAITING is told, the row stays READY, and the call ends
      there. */
  lemma UnavailablePrinterLeavesReady(j: L.Job, job: L.Assignment, inTry: bool, path: L.Path, maxAttempts: int)
    requires Submitting(j, job, inTry, path, L.Submit) && path in j.processing
    requires j.row.value.attemptCount + 1 < maxAttempts
    ensures After(j, L.Unavailable, 5, maxAttempts) ==
            Counted(j).(reports := j.reports + [L.Report(RetryWaiting, JobStatus.Ready, None)], pc := L.Idle)
  {
    var failed := j.(pc := L.Retry(job, L.PreSubmitFailure(L.Retryable)));
    UnavailableIsRetryable(j, job, inTry, path, 5, maxAttempts);
    RetryIsScheduled(failed, job, 4, maxAttempts);
    ReadyStaysUnderRetry(Counted(failed), job, maxAttempts);
  }

  lemma UnavailableIsRetryable(j: L.Job, job: L.Assignment, inTry: bool, path: L.Path, n: nat, maxAttempts: int)
    requires Submitting(j, job, inTry, path, L.Submit) && path in j.processing && n > 0
    ensures After(j, L.Unavailable, n, maxAttempts)
            == RunAll(j.(pc := L.Retry(job, L.PreSubmitFailure(L.Retryable))), Plain(n - 1, []), maxAttempts)
  {
    var error := AfterAnswer(j, L.Unavailable, n, maxAttempts);
    var failed := RunPlain(error, n, [], maxAttempts);
  }

  lemma ReadyStaysUnderRetry(j: L.Job, job: L.Assignment, maxAttempts: int)
    requires j.row.Some? && j.row.value.status == JobStatus.Ready && j.row.value.cupsJobId.None?
    ensures var told := Ended(j, RetryWaiting);
            && told == j.(reports := j.reports + [L.Report(RetryWaiting, JobStatus.Ready, None)], pc := L.Idle)
            && RunAll(told.(pc := L.Retry(job, L.Reported)), Plain(1, []), maxAttempts) == told
  {
    var told := Ended(j, RetryWaiting);
    var done := RunPlain(told.(pc := L.Retry(job, L.Reported)), 1, [], maxAttempts);
  }

  /** The last attempt an unavailable printer may take fails the job. */
  lemma UnavailablePrinterFailsLast(
    j: L.Job, job: L.Assignment, inTry: bool, path: L.Path, n: nat, maxAttempts: int)
    requires Submitting(j, job, inTry, path, L.Submit) && path in j.processing && n >= 6
    requires j.row.value.attemptCount + 1 >= maxAttempts
    ensures After(j, L.Unavailable, n, maxAttempts) == FailedJob(Counted(j))
  {
    var failed := j.(pc := L.Retry(job, L.PreSubmitFailure(L.Retryable)));
    UnavailableIsRetryable(j, job, inTry, path, n, maxAttempts);
    LastAttemptFails(failed, job, n - 1, maxAttempts);
    RaisingForgetsPlace(Counted(j), failed.pc, true);
  }

  /** Any other exception of the submission, or of the monitor and its callback, fails the job inside the pipeline's
      try block and ends the handler elsewhere. */
  lemma ExceptionRaises(j: L.Job, inTry: bool, maxAttempts: int)
    requires j.row.Some?
    requires || (j.pc.Submission? && j.pc.inTry == inTry
                 && (j.pc.submission.AwaitLp? || j.pc.submission.AwaitTimeoutLookup?
                     || (j.pc.submission.Submit? && j.pc.path in j.processing)))
             || (j.pc.Monitoring? && j.pc.inTry == inTry && !j.pc.monitor.MarkCompleted?)
    ensures After(j, L.Exception, 3, maxAttempts) == Raising(j, inTry)
  {
    var k := AfterAnswer(j, L.Exception, 3, maxAttempts);
    if inTry {
      FailureRuns(k, 3, maxAttempts);
      RaisingForgetsPlace(j, k.pc, true);
    }
  }

  // ----- Recovery -----

  predicate LookingUp(j: L.Job, job: L.Assignment, path: L.Path) {
    && j.row.Some? && j.row.value.status == JobStatus.Ready && j.row.value.cupsJobId.None?
    && j.pc == L.Recovery(job, path, L.AwaitLookup)
  }

  function FileIfThere(j: L.Job, path: L.Path): Option<L.Path> {
    if path in j.processing then Some(path) else None
  }

  /** A READY row whose id is known is made SUBMITTED and watched. */
  lemma KnownPrintIsWatched(j: L.Job, job: L.Assignment, path: L.Path, id: L.CupsId, n: nat, maxAttempts: int)
    requires j.row.Some? && j.row.value.status == JobStatus.Ready && j.row.value.cupsJobId == Some(id) && n >= 3
    requires j.pc == L.Recovery(job, path, L.Existing(id))
    ensures RunAll(j, Plain(n, []), maxAttempts)
            == RunAll(WatchedPrint(j, false, id, FileIfThere(j, path)), Plain(n - 3, []), maxAttempts)
  {
    var written := RunPlain(j, n, [], maxAttempts);
    var told := RunPlain(written, n - 1, [], maxAttempts);
    var watched := RunPlain(told, n - 2, [], maxAttempts);
  }

  /** READY recovery adopts the CUPS job it finds: the id is stored, SUBMITTED stored and told, and the print
      watched, with the file if it is still there. */
  lemma FoundJobIsAdopted(j: L.Job, job: L.Assignment, path: L.Path, id: L.CupsId, maxAttempts: int)
    requires LookingUp(j, job, path)
    ensures After(j, L.LookupFound(id), 3, maxAttempts) == WatchedPrint(j, false, id, FileIfThere(j, path))
  {
    var k := AfterAnswer(j, L.LookupFound(id), 3, maxAttempts);
    KnownPrintIsWatched(k, job, path, id, 3, maxAttempts);
  }

  /** A READY row that has its id already is watched without any lookup. */
  lemma StoredIdIsWatched(j: L.Job, job: L.Assignment, path: L.Path, id: L.CupsId, maxAttempts: int)
    requires j.row.Some? && j.row.value.status == JobStatus.Ready && j.row.value.cupsJobId == Some(id)
    requires j.pc == L.Recovery(job, path, L.ResumeReady(j.row.value))
    ensures RunAll(j, Plain(4, []), maxAttempts) == WatchedPrint(j, false, id, FileIfThere(j, path))
  {
    var known := RunPlain(j, 4, [], maxAttempts);
    KnownPrintIsWatched(known, job, path, id, 3, maxAttempts);
  }

  /** Without an id, it is looked up first. */
  lemma ReadyJobIsLookedUp(j: L.Job, job: L.Assignment, path: L.Path, maxAttempts: int)
    requires j.row.Some? && j.row.value.cupsJobId.None? && j.pc == L.Recovery(job, path, L.ResumeReady(j.row.value))
    ensures After(j, L.Go, 0, maxAttempts) == j.(pc := L.Recovery(job, path, L.AwaitLookup))
  {
    var k := AfterAnswer(j, L.Go, 0, maxAttempts);
  }

  /** An undecided lookup fails the job, and an exception of the lookup ends the handler. */
  lemma UndecidedLookupFails(j: L.Job, job: L.Assignment, path: L.Path, maxAttempts: int)
    requires LookingUp(j, job, path)
    ensures After(j, L.LookupUndecided, 3, maxAttempts) == FailedJob(j)
    ensures After(j, L.Exception, 0, maxAttempts) == j.(pc := L.Raised)
  {
    var k := AfterAnswer(j, L.LookupUndecided, 3, maxAttempts);
    FailureRuns(k, 3, maxAttempts);
    RaisingForgetsPlace(j, k.pc, true);
    var raised := AfterAnswer(j, L.Exception, 0, maxAttempts);
  }

  /** Only "not found" submits: the next plain answer starts an `lp`, if the file is there. */
  lemma NotFoundSubmits(j: L.Job, job: L.Assignment, path: L.Path, maxAttempts: int)
    requires LookingUp(j, job, path) && path in j.processing
    ensures After(j, L.LookupNotFound, 1, maxAttempts)
            == j.(running := j.running + 1, pc := L.Submission(job, false, path, L.AwaitLp))
  {
    var k := AfterAnswer(j, L.LookupNotFound, 1, maxAttempts);
    var started := RunPlain(k, 1, [], maxAttempts);
  }

  // ----- Assignments of known jobs -----

  /** A row that is terminal is told once more and otherwise left alone. */
  lemma TerminalJobIsToldAgain(j: L.Job, job: L.Assignment, maxAttempts: int)
    requires j.pc.Idle? && j.row.Some? && j.row.value.status in {Completed, Failed, Cancelled}
    ensures RunAll(L.Assigned(j, job), Plain(1, []), maxAttempts) == Stated(j, j.row.value.status)
  {
    var told := RunPlain(L.Assigned(j, job), 1, [], maxAttempts);
  }

  /** A row at the printer is watched again, with its file if it is still there; so once it has settled it is
      COMPLETED. */
  lemma PrintIsWatchedAgain(j: L.Job, job: L.Assignment, id: L.CupsId, maxAttempts: int)
    requires j.pc.Idle? && j.row.Some? && j.row.value.cupsJobId == Some(id)
    requires j.row.value.status in {Submitted, Printing}
    ensures var file := j.row.value.filePath; var there := file.Some? && file.value in j.processing;
            && L.Assigned(j, job) == j.(pc := L.Monitoring(false, id, L.Poll(if there then file else None)))
            && After(L.Assigned(j, job), L.PollCompleted(true), 3, maxAttempts) ==
               Stated(if !there then j
                      else j.(processing := j.processing - {file.value}, completed := j.completed + {file.value}),
                      Completed)
  {
    CompletionRuns(L.Assigned(j, job), 3, maxAttempts);
  }

  /** A row that never got an id can not be watched: the job fails instead of being printed again. */
  lemma PrintWithoutIdFails(j: L.Job, job: L.Assignment, maxAttempts: int)
    requires j.pc.Idle? && j.row.Some? && j.row.value.status in {Submitted, Printing} && j.row.value.cupsJobId.None?
    ensures RunAll(L.Assigned(j, job), Plain(3, []), maxAttempts) == FailedJob(j)
  {
    FailureRuns(L.Assigned(j, job), 3, maxAttempts);
    RaisingForgetsPlace(j, L.Assigned(j, job).pc, true);
  }

  /** A READY row is recovered with its file and failed without it. */
  lemma ReadyJobIsRecovered(j: L.Job, job: L.Assignment, path: L.Path, maxAttempts: int)
    requires j.pc.Idle? && j.row.Some? && j.row.value.status == JobStatus.Ready && j.row.value.filePath == Some(path)
    ensures path in j.processing ==>
              L.Assigned(j, job) == j.(pc := L.Recovery(job, path, L.ResumeReady(j.row.value)))
    ensures path !in j.processing ==> RunAll(L.Assigned(j, job), Plain(3, []), maxAttempts) == FailedJob(j)
  {
    if path !in j.processing {
      FailureRuns(L.Assigned(j, job), 3, maxAttempts);
      RaisingForgetsPlace(j, L.Assigned(j, job).pc, true);
    }
  }

  /** A row that was not downloaded yet is downloaded: RECEIVED after DOWNLOADING is stored and told, DOWNLOADING at
      once, and RETRY_WAITING as after its sleep. */
  lemma UnfinishedDownloadResumes(j: L.Job, job: L.Assignment, maxAttempts: int)
    requires j.pc.Idle? && j.row.Some? && j.row.value.cupsJobId.None? && job.valid
    ensures var downloading := L.Pipeline(job, L.StartDownload); var start := L.Assigned(j, job);
            && (j.row.value.status == Received ==>
                  RunAll(start, Plain(2, []), maxAttempts) == Stated(j, Downloading).(pc := downloading))
            && (j.row.value.status == Downloading ==> RunAll(start, Plain(1, []), maxAttempts) == j.(pc := downloading))
            && (j.row.value.status == RetryWaiting && j.row.value.attemptCount < maxAttempts ==>
                  RunAll(start, Plain(4, []), maxAttempts) == Stated(j, Downloading).(pc := downloading))
  {
    var start := L.Assigned(j, job);
    match j.row.value.status
    case Received =>
      var written := RunPlain(start, 2, [], maxAttempts);
      var told := RunPlain(written, 1, [], maxAttempts);
    case Downloading =>
      var started := RunPlain(start, 1, [], maxAttempts);
    case RetryWaiting =>
      if j.row.value.attemptCount < maxAttempts {
        WaitingJobRetries(start, job, 4, maxAttempts);
      }
    case _ =>
  }

  // ----- Cancels and CUPS -----

  /** A cancel of any row that is not terminal: CANCELLED stored, unless the row is READY, and told in any case. The
      handler stays where it is. */
  lemma CancelTakesEffect(j: L.Job, maxAttempts: int)
    requires j.row.Some? && j.cancel.NoCancel? && j.row.value.status !in {Completed, Failed, Cancelled}
    ensures var arrived := L.Next(j, L.CancelArrives, maxAttempts);
            && arrived.Some?
            && var written := L.Next(arrived.value, L.CancelWrites, maxAttempts);
               && written.Some?
               && L.Next(written.value, L.CancelReports, maxAttempts) ==
                  Some(if j.row.value.status == JobStatus.Ready
                       then j.(reports := j.reports + [L.Report(Cancelled, JobStatus.Ready, j.row.value.cupsJobId)])
                       else Stated(j, Cancelled))
  {
  }

  /** A terminal row, or one the store does not know, takes no cancel; and one the printer's `cancel` raises about is
      as it was. */
  lemma CancelIsIgnored(j: L.Job, maxAttempts: int)
    ensures j.row.None? || j.row.value.status in {Completed, Failed, Cancelled} ==>
              L.Next(j, L.CancelArrives, maxAttempts).None?
    ensures var arrived := L.Next(j, L.CancelArrives, maxAttempts);
            arrived.Some? ==> L.Next(arrived.value, L.CancelDropped, maxAttempts) == Some(j)
  {
  }

  /** CUPS accepts a running `lp` as one more job, or drops it. */
  lemma RunningLpEnds(j: L.Job, id: L.CupsId, maxAttempts: int)
    requires j.running > 0
    ensures L.Next(j, L.SpoolAccepts(id), maxAttempts) == Some(j.(running := j.running - 1, spool := j.spool + [id]))
    ensures L.Next(j, L.SpoolDrops, maxAttempts) == Some(j.(running := j.running - 1))
  {
  }
}
