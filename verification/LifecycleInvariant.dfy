/** What every event keeps true of a job, as long as READY recovery is never told "not found" about
    a job CUPS has taken or may still take. */
module LifecycleInvariant {
  import opened Wrappers
  import opened Models
  import opened Store
  import opened Lifecycle

  function Max(a: int, b: int): int {
    if a < b then b else a
  }

  /** The downloads the retry policy grants to a run without crashes. */
  function Budget(maxAttempts: int): int {
    Max(1, maxAttempts)
  }

  /** There is room for one more download, now, and for those the remaining attempts may bring. */
  predicate MayDownload(j: Job, maxAttempts: int)
    requires j.row.Some?
  {
    j.downloads + Max(Budget(maxAttempts) - j.row.value.attemptCount, 1) <= Budget(maxAttempts) + j.crashes
  }

  /** The same room once the current download has been counted. */
  predicate WithinBudget(j: Job, maxAttempts: int)
    requires j.row.Some?
  {
    j.downloads + Max(Budget(maxAttempts) - 1 - j.row.value.attemptCount, 0) <= Budget(maxAttempts) + j.crashes
  }

  /** A record the handler read before an await: a cancel may have changed the stored status since,
      and nothing else has changed. */
  predicate Stale(record: Row, row: Row) {
    row == record || row == record.(status := Cancelled)
  }

  predicate RowInv(j: Job, maxAttempts: int)
    requires j.row.Some?
  {
    var row := j.row.value;
    && (AtPrinter(row.status) ==> row.cupsJobId.Some?)
    && (BeforeReady(row.status) ==> row.cupsJobId.None? && Prints(j) == 0)
    && Prints(j) <= 1
    && (row.status.RetryWaiting? ==> 1 <= row.attemptCount < maxAttempts)
    && (row.status.Ready? ==> row.filePath.Some?)
    && WithinBudget(j, maxAttempts)
  }

  predicate FileInv(j: Job)
    requires j.row.Some?
  {
    var row := j.row.value;
    && (row.status.Completed? && row.filePath.Some? ==> row.filePath.value !in j.processing)
    && (row.status.Ready? && !HasFile(j, row.filePath) ==> j.failedMove)
    && (j.completed != {} ==> row.cupsJobId.Some? && !row.status.Ready?)
  }

  predicate InPipeline(row: Row) {
    (row.status.Downloading? || row.status.Cancelled?) && row.cupsJobId.None?
  }

  predicate OnPrinter(row: Row, id: CupsId) {
    (row.status.Submitted? || row.status.Printing? || row.status.Cancelled?) && row.cupsJobId == Some(id)
  }

  predicate At(j: Job, pc: Pc, maxAttempts: int)
    requires j.row.Some?
  {
    match pc
    case Idle => BeforeReady(j.row.value.status) ==> MayDownload(j, maxAttempts)
    case Raised => BeforeReady(j.row.value.status) ==> MayDownload(j, maxAttempts)
    case Pipeline(job, at) => AtPipeline(j, job, at, maxAttempts)
    case Retry(_, at) => AtRetry(j, at, maxAttempts)
    case Recovery(_, path, at) =>
      AtRecovery(j.row.value, path, at) && (at.ResumeReady? || at.AwaitLookup? ==> path in j.processing)
    case Submission(_, _, path, at) =>
      AtSubmission(j.row.value, path, at) && (at.Submit? ==> Prints(j) == 0 && path in j.processing)
    case Monitoring(_, id, at) => AtMonitor(j, id, at)
    case Failing(_) => true
    case Emit(_, _) => false
  }

  predicate AtPipeline(j: Job, job: Assignment, at: PipelinePc, maxAttempts: int)
    requires j.row.Some?
  {
    var row := j.row.value;
    && Prints(j) == 0
    && (!at.Start? ==> InPipeline(row))
    && match at
       case Start(record, already) =>
         && Stale(record, row) && BeforeReady(record.status) && record.cupsJobId.None?
         && already == record.status.Downloading?
         && MayDownload(j, maxAttempts)
       case StartDownload => MayDownload(j, maxAttempts)
       case AwaitDownload => true
       case MoveToProcessing => true
       case RecordPath => job.path in j.processing
       case MarkReady => row.filePath == Some(job.path) && job.path in j.processing
  }

  predicate AtRetry(j: Job, at: RetryPc, maxAttempts: int)
    requires j.row.Some?
  {
    var row := j.row.value;
    match at
    case PreSubmitFailure(_) =>
      row.cupsJobId.None? && (row.status.Downloading? || row.status.Cancelled? || row.status.Ready?)
    case AttemptCounted =>
      && row.cupsJobId.None? && (row.status.Downloading? || row.status.Cancelled? || row.status.Ready?)
      && 1 <= row.attemptCount
      && j.downloads + Max(Budget(maxAttempts) - row.attemptCount, 0) <= Budget(maxAttempts) + j.crashes
    case Reported =>
      && (row.status.RetryWaiting? || row.status.Cancelled? || row.status.Ready?)
      && (row.status.RetryWaiting? ==> MayDownload(j, maxAttempts))
    case Sleep(record) => Waiting(j, record, maxAttempts)
    case Wake(record) => Waiting(j, record, maxAttempts)
  }

  predicate Waiting(j: Job, record: Row, maxAttempts: int)
    requires j.row.Some?
  {
    && Stale(record, j.row.value) && record.status.RetryWaiting? && record.cupsJobId.None?
    && MayDownload(j, maxAttempts) && Prints(j) == 0
  }

  predicate AtRecovery(row: Row, path: Path, at: RecoveryPc) {
    && row.filePath == Some(path)
    && match at
       case ResumeReady(record) => row.status.Ready? && record == row
       case AwaitLookup => row.status.Ready? && row.cupsJobId.None?
       case Existing(id) => row.status.Ready? && row.cupsJobId == Some(id)
       case ChooseMonitor(id) => OnPrinter(row, id)
  }

  predicate AtSubmission(row: Row, path: Path, at: SubmissionPc) {
    && row.status.Ready?
    && row.filePath == Some(path)
    && (if at.MarkSubmitted? then row.cupsJobId == Some(at.id) else row.cupsJobId.None?)
  }

  predicate AtMonitor(j: Job, id: CupsId, at: MonitorPc)
    requires j.row.Some?
  {
    var row := j.row.value;
    && OnPrinter(row, id)
    && match at
       case Poll(file) => file.Some? ==> row.filePath == file
       case Completing(file) => file.Some? ==> row.filePath == file
       case MarkCompleted => row.filePath.Some? ==> row.filePath.value !in j.processing
  }

  /** A report in progress keeps what the position after it needs. */
  predicate PcInv(j: Job, maxAttempts: int)
    requires j.row.Some?
  {
    if j.pc.Emit?
    then At(j, j.pc.next, maxAttempts) && (AtPrinter(j.pc.status) ==> j.row.value.cupsJobId.Some?)
    else At(j, j.pc, maxAttempts)
  }

  /** Every report of a job at the printer carries the printer's job id. */
  predicate Identified(r: Report) {
    AtPrinter(r.status) ==> r.cupsJobId.Some?
  }

  ghost predicate Inv(j: Job, maxAttempts: int) {
    && (forall r <- j.reports :: Identified(r))
    && match j.row
       case None => j == NEW_JOB.(crashes := j.crashes)
       case Some(_) => RowInv(j, maxAttempts) && FileInv(j) && PcInv(j, maxAttempts)
  }

  /** The one thing the agent must be told truthfully: READY recovery hears "not found" only when no
      earlier `lp` of this job was accepted or still can be. */
  predicate Truthful(j: Job, e: Event) {
    e == Step(LookupNotFound) && j.pc.Recovery? && j.pc.recovery.AwaitLookup? ==> Prints(j) == 0
  }

  ghost predicate Stepping(j: Job, o: Outcome, maxAttempts: int) {
    Inv(j, maxAttempts) && Truthful(j, Step(o)) && j.row.Some? && Handle(j, o, maxAttempts).Some?
  }

  lemma PipelineStartKeepsInv(j: Job, o: Outcome, maxAttempts: int)
    requires Stepping(j, o, maxAttempts)
    requires j.pc.Pipeline? && j.pc.pipeline.Start?
    ensures Inv(Handle(j, o, maxAttempts).value, maxAttempts)
  {
  }

  lemma DownloadKeepsInv(j: Job, o: Outcome, maxAttempts: int)
    requires Stepping(j, o, maxAttempts)
    requires j.pc.Pipeline? && !j.pc.pipeline.Start? && !j.pc.pipeline.MarkReady?
    ensures Inv(Handle(j, o, maxAttempts).value, maxAttempts)
  {
  }

  lemma MarkReadyKeepsInv(j: Job, o: Outcome, maxAttempts: int)
    requires Stepping(j, o, maxAttempts)
    requires j.pc.Pipeline? && j.pc.pipeline.MarkReady?
    ensures Inv(Handle(j, o, maxAttempts).value, maxAttempts)
  {
  }

  lemma PreSubmitFailureKeepsInv(j: Job, o: Outcome, maxAttempts: int)
    requires Stepping(j, o, maxAttempts)
    requires j.pc.Retry? && j.pc.retry.PreSubmitFailure?
    ensures Inv(Handle(j, o, maxAttempts).value, maxAttempts)
  {
  }

  lemma AttemptKeepsInv(j: Job, o: Outcome, maxAttempts: int)
    requires Stepping(j, o, maxAttempts)
    requires j.pc.Retry? && j.pc.retry.AttemptCounted?
    ensures Inv(Handle(j, o, maxAttempts).value, maxAttempts)
  {
  }

  lemma ReportedKeepsInv(j: Job, o: Outcome, maxAttempts: int)
    requires Stepping(j, o, maxAttempts)
    requires j.pc.Retry? && j.pc.retry.Reported?
    ensures Inv(Handle(j, o, maxAttempts).value, maxAttempts)
  {
  }

  lemma WaitingKeepsInv(j: Job, o: Outcome, maxAttempts: int)
    requires Stepping(j, o, maxAttempts)
    requires j.pc.Retry? && (j.pc.retry.Sleep? || j.pc.retry.Wake?)
    ensures Inv(Handle(j, o, maxAttempts).value, maxAttempts)
  {
  }

  lemma LookupKeepsInv(j: Job, o: Outcome, maxAttempts: int)
    requires Stepping(j, o, maxAttempts)
    requires j.pc.Recovery? && (j.pc.recovery.ResumeReady? || j.pc.recovery.AwaitLookup?)
    ensures Inv(Handle(j, o, maxAttempts).value, maxAttempts)
  {
  }

  lemma AdoptKeepsInv(j: Job, o: Outcome, maxAttempts: int)
    requires Stepping(j, o, maxAttempts)
    requires j.pc.Recovery? && (j.pc.recovery.Existing? || j.pc.recovery.ChooseMonitor?)
    ensures Inv(Handle(j, o, maxAttempts).value, maxAttempts)
  {
  }

  lemma SubmitKeepsInv(j: Job, o: Outcome, maxAttempts: int)
    requires Stepping(j, o, maxAttempts)
    requires j.pc.Submission? && (j.pc.submission.Submit? || j.pc.submission.SubmitError?)
    ensures Inv(Handle(j, o, maxAttempts).value, maxAttempts)
  {
  }

  lemma LpKeepsInv(j: Job, o: Outcome, maxAttempts: int)
    requires Stepping(j, o, maxAttempts)
    requires j.pc.Submission? && (j.pc.submission.AwaitLp? || j.pc.submission.AwaitTimeoutLookup?)
    ensures Inv(Handle(j, o, maxAttempts).value, maxAttempts)
  {
  }

  lemma SubmittedKeepsInv(j: Job, o: Outcome, maxAttempts: int)
    requires Stepping(j, o, maxAttempts)
    requires j.pc.Submission? && (j.pc.submission.StoreCupsId? || j.pc.submission.MarkSubmitted?)
    ensures Inv(Handle(j, o, maxAttempts).value, maxAttempts)
  {
  }

  lemma PollKeepsInv(j: Job, o: Outcome, maxAttempts: int)
    requires Stepping(j, o, maxAttempts)
    requires j.pc.Monitoring? && j.pc.monitor.Poll?
    ensures Inv(Handle(j, o, maxAttempts).value, maxAttempts)
  {
  }

  lemma CompletingKeepsInv(j: Job, o: Outcome, maxAttempts: int)
    requires Stepping(j, o, maxAttempts)
    requires j.pc.Monitoring? && j.pc.monitor.Completing?
    ensures Inv(Handle(j, o, maxAttempts).value, maxAttempts)
  {
  }

  lemma MarkCompletedKeepsInv(j: Job, o: Outcome, maxAttempts: int)
    requires Stepping(j, o, maxAttempts)
    requires j.pc.Monitoring? && j.pc.monitor.MarkCompleted?
    ensures Inv(Handle(j, o, maxAttempts).value, maxAttempts)
  {
  }

  lemma MoveToFailedKeepsInv(j: Job, o: Outcome, maxAttempts: int)
    requires Stepping(j, o, maxAttempts)
    requires j.pc.Failing? && j.pc.failing.MoveToFailed?
    ensures Inv(Handle(j, o, maxAttempts).value, maxAttempts)
  {
  }

  lemma MarkFailedKeepsInv(j: Job, o: Outcome, maxAttempts: int)
    requires Stepping(j, o, maxAttempts)
    requires j.pc.Failing? && j.pc.failing.MarkFailed?
    ensures Inv(Handle(j, o, maxAttempts).value, maxAttempts)
  {
  }

  lemma EmitKeepsInv(j: Job, o: Outcome, maxAttempts: int)
    requires Stepping(j, o, maxAttempts)
    requires j.pc.Emit?
    ensures Inv(Handle(j, o, maxAttempts).value, maxAttempts)
  {
  }

  lemma StepKeepsInv(j: Job, o: Outcome, maxAttempts: int)
    requires Stepping(j, o, maxAttempts)
    ensures Inv(Handle(j, o, maxAttempts).value, maxAttempts)
  {
    match j.pc
    case Idle =>
    case Raised =>
    case Pipeline(_, at) =>
      if at.Start? { PipelineStartKeepsInv(j, o, maxAttempts); }
      else if at.MarkReady? { MarkReadyKeepsInv(j, o, maxAttempts); }
      else { DownloadKeepsInv(j, o, maxAttempts); }
    case Retry(_, at) =>
      if at.PreSubmitFailure? { PreSubmitFailureKeepsInv(j, o, maxAttempts); }
      else if at.AttemptCounted? { AttemptKeepsInv(j, o, maxAttempts); }
      else if at.Reported? { ReportedKeepsInv(j, o, maxAttempts); }
      else { WaitingKeepsInv(j, o, maxAttempts); }
    case Recovery(_, _, at) =>
      if at.ResumeReady? || at.AwaitLookup? { LookupKeepsInv(j, o, maxAttempts); }
      else { AdoptKeepsInv(j, o, maxAttempts); }
    case Submission(_, _, _, at) =>
      if at.Submit? || at.SubmitError? { SubmitKeepsInv(j, o, maxAttempts); }
      else if at.StoreCupsId? || at.MarkSubmitted? { SubmittedKeepsInv(j, o, maxAttempts); }
      else { LpKeepsInv(j, o, maxAttempts); }
    case Monitoring(_, _, at) =>
      if at.Poll? { PollKeepsInv(j, o, maxAttempts); }
      else if at.Completing? { CompletingKeepsInv(j, o, maxAttempts); }
      else { MarkCompletedKeepsInv(j, o, maxAttempts); }
    case Failing(at) =>
      if at.MoveToFailed? { MoveToFailedKeepsInv(j, o, maxAttempts); } else { MarkFailedKeepsInv(j, o, maxAttempts); }
    case Emit(_, _) => EmitKeepsInv(j, o, maxAttempts);
  }

  /** A position's invariant looks at nothing that reporting, or moving on, changes. */
  lemma AtFrame(j: Job, k: Job, pc: Pc, maxAttempts: int)
    requires j.row.Some? && At(j, pc, maxAttempts)
    requires k == j.(pc := k.pc, reports := k.reports, cancel := k.cancel)
    ensures At(k, pc, maxAttempts)
  {
  }

  lemma CancelKeepsAt(j: Job, pc: Pc, maxAttempts: int)
    requires j.row.Some? && At(j, pc, maxAttempts)
    ensures At(Wrote(j, SetStatus(Cancelled)).(cancel := CancelReport), pc, maxAttempts)
  {
  }

  lemma CancelKeepsInv(j: Job, e: Event, maxAttempts: int)
    requires Inv(j, maxAttempts) && Next(j, e, maxAttempts).Some?
    requires e.CancelArrives? || e.CancelReports? || e.CancelDropped?
    ensures Inv(Next(j, e, maxAttempts).value, maxAttempts)
  {
    AtFrame(j, Next(j, e, maxAttempts).value, if j.pc.Emit? then j.pc.next else j.pc, maxAttempts);
  }

  lemma CancelWritesKeepsInv(j: Job, maxAttempts: int)
    requires Inv(j, maxAttempts) && Next(j, CancelWrites, maxAttempts).Some?
    ensures Inv(Next(j, CancelWrites, maxAttempts).value, maxAttempts)
  {
    CancelKeepsAt(j, if j.pc.Emit? then j.pc.next else j.pc, maxAttempts);
  }

  lemma OutsideKeepsInv(j: Job, e: Event, maxAttempts: int)
    requires Inv(j, maxAttempts) && Next(j, e, maxAttempts).Some?
    requires e.SpoolAccepts? || e.SpoolDrops? || e.Crash? || e.Unwind?
    ensures Inv(Next(j, e, maxAttempts).value, maxAttempts)
  {
  }

  lemma ResumeKeepsInv(j: Job, job: Assignment, maxAttempts: int)
    requires Inv(j, maxAttempts) && j.row.Some? && j.pc.Idle?
    ensures Inv(j.(pc := ResumePc(j, job, j.row.value)), maxAttempts)
  {
  }

  lemma AssignKeepsInv(j: Job, job: Assignment, maxAttempts: int)
    requires Inv(j, maxAttempts) && j.pc.Idle?
    ensures Inv(Assigned(j, job), maxAttempts)
  {
    if j.row.Some? {
      ResumeKeepsInv(j, job, maxAttempts);
    }
  }

  /** Every event keeps the invariant. A record taken from the store at start-up is still current when
      recovery reaches it. */
  lemma NextKeepsInv(j: Job, e: Event, maxAttempts: int)
    requires Inv(j, maxAttempts) && Truthful(j, e) && Next(j, e, maxAttempts).Some?
    requires e.Resume? ==> j.row == Some(e.record)
    ensures Inv(Next(j, e, maxAttempts).value, maxAttempts)
  {
    match e
    case Assign(job) => AssignKeepsInv(j, job, maxAttempts);
    case Resume(job, _) => ResumeKeepsInv(j, job, maxAttempts);
    case Step(o) => StepKeepsInv(j, o, maxAttempts);
    case Unwind => OutsideKeepsInv(j, e, maxAttempts);
    case CancelArrives => CancelKeepsInv(j, e, maxAttempts);
    case CancelWrites => CancelWritesKeepsInv(j, maxAttempts);
    case CancelReports => CancelKeepsInv(j, e, maxAttempts);
    case CancelDropped => CancelKeepsInv(j, e, maxAttempts);
    case SpoolAccepts(_) => OutsideKeepsInv(j, e, maxAttempts);
    case SpoolDrops => OutsideKeepsInv(j, e, maxAttempts);
    case Crash => OutsideKeepsInv(j, e, maxAttempts);
  }
}
