/** One backend job as the agent handles it (app/job_manager.py): its stored row, its file, the CUPS
    spool, and the handler's position between two effects. Every step is one store write, one file
    move, one command or one report, so a crash can fall between any two of them. */
module Lifecycle {
  import opened Wrappers
  import opened Models
  import opened Store

  type Path = string
  type CupsId = string

  /** The part of an assignment that steers the handler: the local file name the download will get
      and whether `validate_print_settings` accepts the settings. */
  datatype Assignment = Assignment(path: Path, valid: bool)

  datatype FailureKind = Retryable | Permanent

  /** Where the handler stands, function by function. `inTry` says whether the call runs inside the
      try block of `_run_download_pipeline`, which turns any exception into a failed job. */
  datatype Pc =
    | Idle
    | Raised
    | Pipeline(job: Assignment, pipeline: PipelinePc)
    | Retry(job: Assignment, retry: RetryPc)
    | Recovery(job: Assignment, path: Path, recovery: RecoveryPc)
    | Submission(job: Assignment, inTry: bool, path: Path, submission: SubmissionPc)
    | Monitoring(inTry: bool, id: CupsId, monitor: MonitorPc)
    | Failing(failing: FailingPc)
    | Emit(status: JobStatus, next: Pc)

  /** `_run_download_pipeline` */
  datatype PipelinePc =
    | Start(record: Row, alreadyDownloading: bool)
    | StartDownload
    | AwaitDownload
    | MoveToProcessing
    | RecordPath
    | MarkReady

  /** `_handle_pre_submit_failure`, `_schedule_retry` and `_retry_from_waiting` */
  datatype RetryPc =
    | PreSubmitFailure(kind: FailureKind)
    | AttemptCounted
    | Reported
    | Sleep(record: Row)
    | Wake(record: Row)

  /** `_resume_ready_job` and `_monitor_existing_submission` */
  datatype RecoveryPc =
    | ResumeReady(record: Row)
    | AwaitLookup
    | Existing(id: CupsId)
    | ChooseMonitor(id: CupsId)

  /** `_submit_and_monitor` and the printer's `submit` */
  datatype SubmissionPc =
    | Submit
    | AwaitLp
    | AwaitTimeoutLookup
    | SubmitError(kind: FailureKind)
    | StoreCupsId(id: CupsId)
    | MarkSubmitted(id: CupsId)

  /** `_monitor_printer`, `_monitor_printer_only` and `_complete_job` */
  datatype MonitorPc =
    | Poll(file: Option<Path>)
    | Completing(file: Option<Path>)
    | MarkCompleted

  /** `_fail_job` */
  datatype FailingPc = MoveToFailed | MarkFailed

  /** What the environment answers at an await; `Go` is a step with one possible outcome. */
  datatype Outcome =
    | Go
    | RetryableError
    | PermanentError
    | Exception
    | Unavailable
    | LpAccepted(id: CupsId)
    | LpRefused
    | LpTimeout
    | LookupFound(id: CupsId)
    | LookupNotFound
    | LookupUndecided
    | PollNoNews
    | PollPrinting
    | PollFailed
    | PollCompleted(settled: bool)

  datatype CancelPc = NoCancel | CancelMark | CancelReport

  datatype Report = Report(status: JobStatus, stored: JobStatus, cupsJobId: Option<CupsId>)

  /** `running` counts `lp` calls that CUPS may still accept, `spool` the jobs it has accepted for
      this backend job. `failedMove` records that `_fail_job` moved the file away. */
  datatype Job = Job(
    row: Option<Row>,
    processing: set<Path>,
    completed: set<Path>,
    failedMove: bool,
    pc: Pc,
    cancel: CancelPc,
    running: nat,
    spool: seq<CupsId>,
    downloads: nat,
    crashes: nat,
    reports: seq<Report>)

  const NEW_JOB := Job(None, {}, {}, false, Idle, NoCancel, 0, [], 0, 0, [])

  /** Prints CUPS has taken or may still take for this job. */
  function Prints(j: Job): nat {
    |j.spool| + j.running
  }

  function Wrote(j: Job, w: Write): Job
    requires j.row.Some?
  {
    j.(row := Some(Apply(j.row.value, w)))
  }

  /** `_transition`: the write may be refused, and the exception then goes to `onError`. */
  function Transition(j: Job, status: JobStatus, next: Pc, onError: Pc): Job
    requires j.row.Some?
  {
    if CanTransition(j.row.value.status, status)
    then Wrote(j, SetStatus(status)).(pc := Emit(status, next))
    else j.(pc := onError)
  }

  function Fail(j: Job): Job {
    j.(pc := Failing(MoveToFailed))
  }

  /** Inside the try block every exception ends in `_fail_job`: directly, or, once the row has a printer
      id, through the failure handler's refusal. */
  function OnException(inTry: bool): Pc {
    if inTry then Failing(MoveToFailed) else Raised
  }

  predicate HasFile(j: Job, path: Option<Path>) {
    path.Some? && path.value in j.processing
  }

  /** The start of `_resume_job` for a stored record. */
  function ResumePc(j: Job, job: Assignment, record: Row): Pc {
    match record.status
    case Received => Pipeline(job, Start(record, false))
    case Downloading => Pipeline(job, Start(record, true))
    case RetryWaiting => Retry(job, Sleep(record))
    case Ready =>
      if HasFile(j, record.filePath) then Recovery(job, record.filePath.value, ResumeReady(record))
      else Failing(MoveToFailed)
    case Submitted => ResumeMonitor(j, record)
    case Printing => ResumeMonitor(j, record)
    case _ => Idle
  }

  function ResumeMonitor(j: Job, record: Row): Pc {
    if record.cupsJobId.None? then Failing(MoveToFailed)
    else Monitoring(false, record.cupsJobId.value,
                    Poll(if HasFile(j, record.filePath) then record.filePath else None))
  }

  /** `handle_assigned` on an idle job. */
  function Assigned(j: Job, job: Assignment): Job {
    match j.row
    case None => j.(row := Some(NEW_ROW), pc := Emit(Received, Pipeline(job, Start(NEW_ROW, false))))
    case Some(record) =>
      if Terminal(record.status) then j.(pc := Emit(record.status, Idle))
      else j.(pc := ResumePc(j, job, record))
  }

  /** One handler step; None when the outcome is not one this position can see. */
  function Handle(j: Job, o: Outcome, maxAttempts: int): Option<Job>
    requires j.row.Some?
  {
    match j.pc
    case Idle => None
    case Raised => None
    case Pipeline(_, _) => HandlePipeline(j, o)
    case Retry(_, _) => HandleRetry(j, o, maxAttempts)
    case Recovery(_, _, _) => HandleRecovery(j, o)
    case Submission(_, _, _, _) => HandleSubmission(j, o)
    case Monitoring(_, _, _) => HandleMonitoring(j, o)
    case Failing(_) => HandleFailing(j, o)
    case Emit(status, next) =>
      if o.Go? then Some(j.(pc := next, reports := j.reports +
                            [Report(status, j.row.value.status, j.row.value.cupsJobId)])) else None
  }

  function HandlePipeline(j: Job, o: Outcome): Option<Job>
    requires j.row.Some? && j.pc.Pipeline?
  {
    var job := j.pc.job;
    match (j.pc.pipeline, o)
    case (Start(record, alreadyDownloading), Go) => Some(StartPipeline(j, job, record, alreadyDownloading))
    case (StartDownload, Go) => Some(j.(downloads := j.downloads + 1, pc := Pipeline(job, AwaitDownload)))
    case (AwaitDownload, Go) => Some(j.(pc := Pipeline(job, MoveToProcessing)))
    case (AwaitDownload, RetryableError) => Some(j.(pc := Retry(job, PreSubmitFailure(Retryable))))
    case (AwaitDownload, PermanentError) => Some(j.(pc := Retry(job, PreSubmitFailure(Permanent))))
    case (AwaitDownload, Exception) => Some(Fail(j))
    case (MoveToProcessing, Go) =>
      Some(j.(processing := j.processing + {job.path}, pc := Pipeline(job, RecordPath)))
    case (MoveToProcessing, PermanentError) => Some(j.(pc := Retry(job, PreSubmitFailure(Permanent))))
    case (RecordPath, Go) => Some(Wrote(j, SetFilePath(job.path)).(pc := Pipeline(job, MarkReady)))
    case (MarkReady, Go) =>
      Some(Transition(j, JobStatus.Ready, Submission(job, true, job.path, Submit), Failing(MoveToFailed)))
    case _ => None
  }

  function StartPipeline(j: Job, job: Assignment, record: Row, alreadyDownloading: bool): Job
    requires j.row.Some?
  {
    if record.cupsJobId.Some? || !job.valid then Fail(j)
    else if (!alreadyDownloading && record.status == Received) || record.status == RetryWaiting
    then Transition(j, Downloading, Pipeline(job, StartDownload), Failing(MoveToFailed))
    else j.(pc := Pipeline(job, StartDownload))
  }

  function HandleRetry(j: Job, o: Outcome, maxAttempts: int): Option<Job>
    requires j.row.Some? && j.pc.Retry?
  {
    var job := j.pc.job;
    if !o.Go? then None else
    match j.pc.retry
    case PreSubmitFailure(kind) =>
      if j.row.value.cupsJobId.Some? || kind.Permanent? then Some(Fail(j))
      else Some(Wrote(j, IncrementAttempt).(pc := Retry(job, AttemptCounted)))
    case AttemptCounted =>
      if j.row.value.attemptCount >= maxAttempts then Some(Fail(j))
      else Some(Wrote(j, SetStatus(RetryWaiting)).(pc := Emit(RetryWaiting, Retry(job, Reported))))
    case Reported =>
      if j.row.value.status == RetryWaiting then Some(j.(pc := Retry(job, Sleep(j.row.value))))
      else Some(j.(pc := Idle))
    case Sleep(record) =>
      if record.cupsJobId.Some? then Some(Fail(j)) else Some(j.(pc := Retry(job, Wake(record))))
    case Wake(record) =>
      if record.attemptCount >= maxAttempts then Some(Fail(j))
      else Some(j.(pc := Pipeline(job, Start(record, false))))
  }

  /** READY recovery: adopt a CUPS job with this title, refuse when undecided, else submit. */
  function HandleRecovery(j: Job, o: Outcome): Option<Job>
    requires j.row.Some? && j.pc.Recovery?
  {
    var Recovery(job, path, at) := j.pc;
    match (at, o)
    case (ResumeReady(record), Go) =>
      Some(j.(pc := Recovery(job, path, if record.cupsJobId.Some? then Existing(record.cupsJobId.value)
                                        else AwaitLookup)))
    case (AwaitLookup, LookupFound(id)) =>
      Some(Wrote(j, SetCupsJobId(id)).(pc := Recovery(job, path, Existing(id))))
    case (AwaitLookup, LookupUndecided) => Some(Fail(j))
    case (AwaitLookup, LookupNotFound) => Some(j.(pc := Submission(job, false, path, Submit)))
    case (AwaitLookup, Exception) => Some(j.(pc := Raised))
    case (Existing(id), Go) =>
      if j.row.value.status == JobStatus.Ready
      then Some(Transition(j, Submitted, Recovery(job, path, ChooseMonitor(id)), Raised))
      else Some(j.(pc := Recovery(job, path, ChooseMonitor(id))))
    case (ChooseMonitor(id), Go) =>
      Some(j.(pc := Monitoring(false, id, Poll(if path in j.processing then Some(path) else None))))
    case _ => None
  }

  /** `lp` names the id of a job it has queued; every other ending leaves the spool unknown. */
  function HandleSubmission(j: Job, o: Outcome): Option<Job>
    requires j.row.Some? && j.pc.Submission?
  {
    var Submission(job, inTry, path, at) := j.pc;
    match (at, o)
    case (Submit, Go) =>
      if path !in j.processing then Some(j.(pc := j.pc.(submission := SubmitError(Permanent))))
      else Some(j.(running := j.running + 1, pc := j.pc.(submission := AwaitLp)))
    case (Submit, Unavailable) =>
      if path !in j.processing then None else Some(j.(pc := j.pc.(submission := SubmitError(Retryable))))
    case (Submit, Exception) => if path !in j.processing then None else Some(j.(pc := OnException(inTry)))
    case (AwaitLp, LpAccepted(id)) =>
      if id in j.spool then Some(j.(pc := j.pc.(submission := StoreCupsId(id)))) else None
    case (AwaitLp, LpRefused) => Some(j.(pc := j.pc.(submission := SubmitError(Permanent))))
    case (AwaitLp, LpTimeout) => Some(j.(pc := j.pc.(submission := AwaitTimeoutLookup)))
    case (AwaitLp, Exception) => Some(j.(pc := OnException(inTry)))
    case (AwaitTimeoutLookup, LookupFound(id)) => Some(j.(pc := j.pc.(submission := StoreCupsId(id))))
    case (AwaitTimeoutLookup, LookupNotFound) => Some(j.(pc := j.pc.(submission := SubmitError(Permanent))))
    case (AwaitTimeoutLookup, LookupUndecided) => Some(j.(pc := j.pc.(submission := SubmitError(Permanent))))
    case (AwaitTimeoutLookup, Exception) => Some(j.(pc := OnException(inTry)))
    case (SubmitError(kind), Go) =>
      if j.row.value.cupsJobId.Some? || kind.Permanent? then Some(Fail(j))
      else Some(j.(pc := Retry(job, PreSubmitFailure(kind))))
    case (StoreCupsId(id), Go) =>
      Some(Wrote(j, SetCupsJobId(id)).(pc := j.pc.(submission := MarkSubmitted(id))))
    case (MarkSubmitted(id), Go) =>
      Some(Transition(j, Submitted, Monitoring(inTry, id, Poll(Some(path))), OnException(inTry)))
    case _ => None
  }

  /** One poll, then the callback and the move out of processing; whether a COMPLETED poll has settled
      is decided elsewhere. */
  function HandleMonitoring(j: Job, o: Outcome): Option<Job>
    requires j.row.Some? && j.pc.Monitoring?
  {
    var Monitoring(inTry, id, at) := j.pc;
    match (at, o)
    case (Poll(_), PollNoNews) => Some(j)
    case (Poll(_), PollFailed) => Some(Fail(j))
    case (Poll(_), PollPrinting) =>
      if j.row.value.status == Printing then Some(j)
      else Some(Transition(j, Printing, j.pc, OnException(inTry)))
    case (Poll(file), PollCompleted(settled)) =>
      if j.row.value.status == Completed then Some(j.(pc := Idle))
      else if !settled then Some(j)
      else Some(j.(pc := j.pc.(monitor := Completing(file))))
    case (Completing(file), Go) =>
      var f := if HasFile(j, file) then file else j.row.value.filePath;
      if HasFile(j, f)
      then Some(j.(processing := j.processing - {f.value}, completed := j.completed + {f.value},
                   pc := j.pc.(monitor := MarkCompleted)))
      else Some(j.(pc := j.pc.(monitor := MarkCompleted)))
    case (MarkCompleted, Go) => Some(Transition(j, Completed, Idle, OnException(inTry)))
    case (Poll(_), Exception) => Some(j.(pc := OnException(inTry)))
    case (Completing(_), Exception) => Some(j.(pc := OnException(inTry)))
    case _ => None
  }

  /** A move that fails is ignored, and so is a refused status. */
  function HandleFailing(j: Job, o: Outcome): Option<Job>
    requires j.row.Some? && j.pc.Failing?
  {
    var file := j.row.value.filePath;
    match (j.pc.failing, o)
    case (MoveToFailed, Go) =>
      if HasFile(j, file)
      then Some(j.(processing := j.processing - {file.value}, failedMove := true, pc := Failing(MarkFailed)))
      else Some(j.(pc := Failing(MarkFailed)))
    case (MoveToFailed, PermanentError) => Some(j.(pc := Failing(MarkFailed)))
    case (MarkFailed, Go) => Some(Wrote(j, SetStatus(Failed)).(pc := Emit(Failed, Idle)))
    case _ => None
  }

  datatype Event =
    | Assign(job: Assignment)
    | Resume(job: Assignment, record: Row)
    | Step(outcome: Outcome)
    | Unwind
    | CancelArrives
    | CancelWrites
    | CancelReports
    | CancelDropped
    | SpoolAccepts(id: CupsId)
    | SpoolDrops
    | Crash

  /** Events that may interleave with one call of the handler. */
  predicate DuringCall(e: Event) {
    !e.Assign? && !e.Resume? && !e.Crash? && !e.Unwind?
  }

  /** One event of one job. A cancel may interleave anywhere: this allows every schedule the awaits
      of the source allow, and more. A killed `lp` stays `running` until CUPS accepts or drops it. */
  function Next(j: Job, e: Event, maxAttempts: int): Option<Job> {
    match e
    case Assign(job) => if j.pc.Idle? then Some(Assigned(j, job)) else None
    case Resume(job, record) =>
      if j.pc.Idle? && j.row.Some? then Some(j.(pc := ResumePc(j, job, record))) else None
    case Step(o) => if j.row.Some? then Handle(j, o, maxAttempts) else None
    case Unwind => if j.pc.Raised? then Some(j.(pc := Idle)) else None
    case CancelArrives =>
      if j.cancel.NoCancel? && j.row.Some? && !Terminal(j.row.value.status)
      then Some(j.(cancel := CancelMark)) else None
    case CancelWrites =>
      if j.cancel.CancelMark? && j.row.Some?
      then Some(Wrote(j, SetStatus(Cancelled)).(cancel := CancelReport)) else None
    case CancelReports =>
      if j.cancel.CancelReport? && j.row.Some?
      then Some(j.(cancel := NoCancel, reports := j.reports +
                   [Report(Cancelled, j.row.value.status, j.row.value.cupsJobId)])) else None
    case CancelDropped => if j.cancel.CancelMark? then Some(j.(cancel := NoCancel)) else None
    case SpoolAccepts(id) =>
      if j.running > 0 then Some(j.(running := j.running - 1, spool := j.spool + [id])) else None
    case SpoolDrops => if j.running > 0 then Some(j.(running := j.running - 1)) else None
    case Crash => Some(j.(pc := Idle, cancel := NoCancel, crashes := j.crashes + 1))
  }
}
