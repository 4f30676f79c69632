/** The lifecycle the backend is told about in undisturbed runs: no cancel, no power loss, and no
    submit that finds the printer unavailable. */
module Reporting {
  import opened Wrappers
  import opened Models
  import opened Store
  import L = Lifecycle
  import opened LifecycleInvariant
  import opened HandlerRuns
  import opened Agent

  /** A report that may come next: a transition of the table, or a terminal status once more. */
  predicate Follows(a: JobStatus, b: JobStatus) {
    b in AllowedTransitions(a) || (a == b && Terminal(a))
  }

  /** Every report names the status stored at that moment, and together they walk the table from
      RECEIVED. */
  ghost predicate Lifecycle(reports: seq<L.Report>) {
    && (forall r <- reports :: r.status == r.stored)
    && (reports != [] ==> reports[0].status == Received)
    && (forall i {:trigger reports[i]} :: 0 < i < |reports| ==> Follows(reports[i - 1].status, reports[i].status))
  }

  function LastStatus(reports: seq<L.Report>): JobStatus
    requires reports != []
  {
    reports[|reports| - 1].status
  }

  /** Positions an undisturbed handler can reach. */
  predicate Undisturbed(row: Row, pc: L.Pc) {
    match pc
    case Idle => Terminal(row.status)
    case Raised => false
    case Pipeline(_, Start(record, _)) => record == row
    case Pipeline(_, _) => row.status.Downloading?
    case Retry(_, PreSubmitFailure(_)) => row.status.Downloading?
    case Retry(_, AttemptCounted) => row.status.Downloading?
    case Retry(_, Reported) => row.status.RetryWaiting?
    case Retry(_, Sleep(record)) => record == row
    case Retry(_, Wake(record)) => record == row
    case Recovery(_, _, _) => false
    case Submission(_, inTry, _, at) => inTry && (at.SubmitError? ==> at.kind.Permanent?)
    case Monitoring(inTry, _, _) => inTry && (row.status.Submitted? || row.status.Printing?)
    case Failing(_) => !Terminal(row.status)
    case Emit(_, _) => false
  }

  /** Where the handler stands between its last report and the next. */
  predicate Standing(j: Job) {
    && j.cancel.NoCancel?
    && match j.row
       case None => j.reports == []
       case Some(row) =>
         if j.pc.Emit? then
           && row.status == j.pc.status
           && (if j.reports == [] then row.status == Received else Follows(LastStatus(j.reports), row.status))
           && Undisturbed(row, j.pc.next)
         else j.reports != [] && LastStatus(j.reports) == row.status && Undisturbed(row, j.pc)
  }

  ghost predicate ReportInv(j: Job) {
    Lifecycle(j.reports) && Standing(j)
  }

  predicate CalmEvent(e: Event) {
    match e
    case Assign(_) => true
    case Step(o) => !o.Unavailable?
    case SpoolAccepts(_) => true
    case SpoolDrops => true
    case _ => false
  }

  predicate CalmStepping(j: Job, o: L.Outcome, maxAttempts: int) {
    j.row.Some? && PcInv(j, maxAttempts) && Standing(j) && !o.Unavailable? && L.Handle(j, o, maxAttempts).Some?
  }

  /** A step that reports nothing and leaves the handler where it may stand. */
  predicate Moves(j: Job, k: Job) {
    k.reports == j.reports && Standing(k)
  }

  lemma CalmStepKeepsReports(j: Job, o: L.Outcome, maxAttempts: int)
    requires Stepping(j, o, maxAttempts) && ReportInv(j) && !o.Unavailable?
    ensures ReportInv(L.Handle(j, o, maxAttempts).value)
  {
    match j.pc
    case Pipeline(_, at) =>
      if at.Start? { CalmStartMoves(j, o, maxAttempts); }
      else if at.MarkReady? { CalmReadyMoves(j, o, maxAttempts); }
      else { CalmDownloadMoves(j, o, maxAttempts); }
    case Retry(_, at) =>
      if at.PreSubmitFailure? || at.AttemptCounted? { CalmAttemptMoves(j, o, maxAttempts); }
      else { CalmWaitingMoves(j, o, maxAttempts); }
    case Submission(_, _, _, at) =>
      if at.MarkSubmitted? { CalmSubmittedMoves(j, o, maxAttempts); } else { CalmSubmissionMoves(j, o, maxAttempts); }
    case Monitoring(_, _, at) =>
      if at.Poll? { CalmPollMoves(j, o, maxAttempts); } else { CalmCompletionMoves(j, o, maxAttempts); }
    case Failing(_) => CalmFailingMoves(j, o, maxAttempts);
    case Emit(_, _) =>
      CalmEmitKeepsReports(j, L.Report(j.pc.status, j.row.value.status, j.row.value.cupsJobId));
    case _ =>
  }

  lemma CalmStartMoves(j: Job, o: L.Outcome, maxAttempts: int)
    requires CalmStepping(j, o, maxAttempts) && j.pc.Pipeline? && j.pc.pipeline.Start?
    ensures Moves(j, L.Handle(j, o, maxAttempts).value)
  {
  }

  lemma CalmDownloadMoves(j: Job, o: L.Outcome, maxAttempts: int)
    requires CalmStepping(j, o, maxAttempts) && j.pc.Pipeline? && !j.pc.pipeline.Start? && !j.pc.pipeline.MarkReady?
    ensures Moves(j, L.Handle(j, o, maxAttempts).value)
  {
  }

  lemma CalmReadyMoves(j: Job, o: L.Outcome, maxAttempts: int)
    requires CalmStepping(j, o, maxAttempts) && j.pc.Pipeline? && j.pc.pipeline.MarkReady?
    ensures Moves(j, L.Handle(j, o, maxAttempts).value)
  {
  }

  lemma CalmAttemptMoves(j: Job, o: L.Outcome, maxAttempts: int)
    requires CalmStepping(j, o, maxAttempts)
    requires j.pc.Retry? && (j.pc.retry.PreSubmitFailure? || j.pc.retry.AttemptCounted?)
    ensures Moves(j, L.Handle(j, o, maxAttempts).value)
  {
  }

  lemma CalmWaitingMoves(j: Job, o: L.Outcome, maxAttempts: int)
    requires CalmStepping(j, o, maxAttempts)
    requires j.pc.Retry? && !j.pc.retry.PreSubmitFailure? && !j.pc.retry.AttemptCounted?
    ensures Moves(j, L.Handle(j, o, maxAttempts).value)
  {
  }

  lemma CalmSubmissionMoves(j: Job, o: L.Outcome, maxAttempts: int)
    requires CalmStepping(j, o, maxAttempts) && j.pc.Submission? && !j.pc.submission.MarkSubmitted?
    ensures Moves(j, L.Handle(j, o, maxAttempts).value)
  {
  }

  lemma CalmSubmittedMoves(j: Job, o: L.Outcome, maxAttempts: int)
    requires CalmStepping(j, o, maxAttempts) && j.pc.Submission? && j.pc.submission.MarkSubmitted?
    ensures Moves(j, L.Handle(j, o, maxAttempts).value)
  {
  }

  lemma CalmPollMoves(j: Job, o: L.Outcome, maxAttempts: int)
    requires CalmStepping(j, o, maxAttempts) && j.pc.Monitoring? && j.pc.monitor.Poll?
    ensures Moves(j, L.Handle(j, o, maxAttempts).value)
  {
  }

  lemma CalmCompletionMoves(j: Job, o: L.Outcome, maxAttempts: int)
    requires CalmStepping(j, o, maxAttempts) && j.pc.Monitoring? && !j.pc.monitor.Poll?
    ensures Moves(j, L.Handle(j, o, maxAttempts).value)
  {
  }

  lemma CalmFailingMoves(j: Job, o: L.Outcome, maxAttempts: int)
    requires CalmStepping(j, o, maxAttempts) && j.pc.Failing?
    ensures Moves(j, L.Handle(j, o, maxAttempts).value)
  {
  }

  lemma CalmEmitKeepsReports(j: Job, report: L.Report)
    requires j.row.Some? && ReportInv(j) && j.pc.Emit?
    requires report == L.Report(j.pc.status, j.row.value.status, j.row.value.cupsJobId)
    ensures ReportInv(j.(pc := j.pc.next, reports := j.reports + [report]))
  {
    ReportExtends(j.reports, report);
    assert (j.reports + [report])[|j.reports|] == report;
  }

  lemma ReportExtends(reports: seq<L.Report>, report: L.Report)
    requires Lifecycle(reports) && report.status == report.stored
    requires if reports == [] then report.status == Received else Follows(LastStatus(reports), report.status)
    ensures Lifecycle(reports + [report])
  {
    var all := reports + [report];
    assert forall i :: 0 <= i < |reports| ==> all[i] == reports[i];
    assert all[|reports|] == report;
  }

  lemma CalmEventKeepsReports(j: Job, e: Event, maxAttempts: int)
    requires Inv(j, maxAttempts) && ReportInv(j) && CalmEvent(e) && L.Next(j, e, maxAttempts).Some?
    ensures ReportInv(L.Next(j, e, maxAttempts).value)
  {
    if e.Step? {
      CalmStepKeepsReports(j, e.outcome, maxAttempts);
    }
  }

  predicate CalmLabel(l: Label) {
    match l
    case HandlerStep(o) => !o.Unavailable?
    case CancelStep(_, _) => false
    case PowerLoss => false
    case _ => true
  }

  ghost predicate CalmRun(states: seq<State>, labels: seq<Label>, maxAttempts: int) {
    && IsRun(states, labels, maxAttempts)
    && forall i {:trigger labels[i]} :: 0 <= i < |labels| ==> CalmLabel(labels[i])
  }

  ghost predicate CalmInv(s: State, maxAttempts: int) {
    && StateInv(s, maxAttempts)
    && (forall id <- s.jobs :: ReportInv(s.jobs[id]))
    && (s.phase.Down? ==> s.jobs == map[])
    && (s.phase.Recovering? ==> s.phase.queue == [] && s.jobs == map[])
  }

  lemma ListedMeansStored(rows: map<JobId, Row>, unfinished: seq<JobId>)
    requires IsUnfinishedList(rows, unfinished)
    ensures unfinished != [] ==> rows != map[]
  {
    if unfinished != [] {
      assert unfinished[0] in rows;
    }
  }

  lemma CalmLabelKeepsReports(s: State, l: Label, id: JobId, maxAttempts: int)
    requires CalmInv(s, maxAttempts) && CalmLabel(l) && Next(s, l, maxAttempts).Some?
    ensures id in Next(s, l, maxAttempts).value.jobs ==> ReportInv(Next(s, l, maxAttempts).value.jobs[id])
  {
    LabelIsJobEvent(s, l, id, maxAttempts);
    NewJobInv(maxAttempts);
    match EventFor(s, l, id)
    case None =>
    case Some(e) => CalmEventKeepsReports(JobOf(s, id), e, maxAttempts);
  }

  lemma CalmLabelKeepsInv(s: State, l: Label, maxAttempts: int)
    requires CalmInv(s, maxAttempts) && CalmLabel(l) && Next(s, l, maxAttempts).Some?
    ensures CalmInv(Next(s, l, maxAttempts).value, maxAttempts)
  {
    var next := Next(s, l, maxAttempts).value;
    NextKeepsStateInv(s, l, maxAttempts);
    if l.Boot? {
      ListedMeansStored(Rows(s), l.unfinished);
    }
    forall id <- next.jobs
      ensures ReportInv(next.jobs[id])
    {
      CalmLabelKeepsReports(s, l, id, maxAttempts);
    }
  }

  lemma {:induction false} CalmRunKeepsInv(states: seq<State>, labels: seq<Label>, maxAttempts: int, i: nat)
    requires CalmRun(states, labels, maxAttempts) && i < |states|
    ensures CalmInv(states[i], maxAttempts)
  {
    if i > 0 {
      CalmRunKeepsInv(states, labels, maxAttempts, i - 1);
      assert Next(states[i - 1], labels[i - 1], maxAttempts) == Some(states[i - 1 + 1]);
      CalmLabelKeepsInv(states[i - 1], labels[i - 1], maxAttempts);
    }
  }

  /** In an undisturbed run every report equals the stored status and a job's reports are a path of the
      transition table from RECEIVED, with repeats only for a terminal job that is assigned again. */
  lemma ReportsFollowTheTable(states: seq<State>, labels: seq<Label>, maxAttempts: int, i: nat, id: JobId)
    requires CalmRun(states, labels, maxAttempts) && i < |states|
    ensures Lifecycle(JobOf(states[i], id).reports)
  {
    CalmRunKeepsInv(states, labels, maxAttempts, i);
  }

  /** Outside such runs a report can differ from the store, because of a cancel: between a write and its report a
      row may become CANCELLED; and three reports follow a write that the table may have refused. A cancel's differs
      exactly when the table refuses CANCELLED, as it does from READY. */
  lemma CancelReportMatchesStore(j: Job, maxAttempts: int)
    requires j.row.Some? && j.cancel.CancelMark?
    ensures var written := L.Next(j, L.CancelWrites, maxAttempts).value;
            var told := L.Next(written, L.CancelReports, maxAttempts).value.reports[|j.reports|];
            (told.status == told.stored <==> CanTransition(j.row.value.status, Cancelled))
            && (j.row.value.status == JobStatus.Ready ==>
                  told == L.Report(Cancelled, JobStatus.Ready, j.row.value.cupsJobId))
  {
  }

  /** A retry's report differs from the store exactly when the failure came before any download could be
      repeated: a READY row whose printer was unavailable, or a row cancelled meanwhile. */
  lemma RetryReportMatchesStore(j: Job, maxAttempts: int)
    requires Inv(j, maxAttempts) && j.row.Some? && j.pc.Retry? && j.pc.retry.AttemptCounted?
    requires j.row.value.attemptCount < maxAttempts
    ensures var written := L.Handle(j, L.Go, maxAttempts).value;
            var told := L.Handle(written, L.Go, maxAttempts).value.reports[|j.reports|];
            told.status == RetryWaiting && (told.stored == RetryWaiting <==> j.row.value.status == Downloading)
  {
  }

  /** One case of it: the printer of a READY job is unavailable, and RETRY_WAITING is reported while the row stays
      READY. */
  lemma RetryReportCanDiffer(j: Job)
    requires j == L.NEW_JOB.(
      row := Some(Row(JobStatus.Ready, Some("file"), None, 1)), processing := {"file"}, downloads := 1,
      pc := L.Retry(L.Assignment("file", true), L.AttemptCounted))
    ensures Inv(j, 3)
    ensures var told := L.Handle(L.Handle(j, L.Go, 3).value, L.Go, 3).value.reports[0];
            told == L.Report(RetryWaiting, JobStatus.Ready, None)
  {
    RetryReportMatchesStore(j, 3);
  }

  /** A failure's report differs from the store exactly when the table refuses FAILED. */
  lemma FailedReportMatchesStore(j: Job, maxAttempts: int)
    requires j.row.Some? && j.pc == L.Failing(L.MarkFailed)
    ensures var written := L.Handle(j, L.Go, maxAttempts).value;
            var told := L.Handle(written, L.Go, maxAttempts).value.reports[|j.reports|];
            told.status == Failed && (told.stored == Failed <==> CanTransition(j.row.value.status, Failed))
  {
  }

  /** A cancel that arrives while the file of a new job is downloaded. */
  function CancelDuringDownload(): seq<Event> {
    Plain(4, [L.CancelArrives] + ([L.CancelWrites] + ([L.CancelReports] + Plain(7, []))))
  }

  /** The job once the cancel is reported, still downloading. */
  function CancelledDownload(job: L.Assignment): Job {
    Started(job).(
      row := Some(Row(Cancelled, None, None, 0)), downloads := 1, pc := L.Pipeline(job, L.AwaitDownload),
      reports := Started(job).reports + [L.Report(Cancelled, Cancelled, None)])
  }

  lemma CancelRuns(job: L.Assignment, rest: seq<Event>, maxAttempts: int)
    requires job.valid
    ensures RunAll(L.Assigned(L.NEW_JOB, job),
                   Plain(4, [L.CancelArrives] + ([L.CancelWrites] + ([L.CancelReports] + rest))), maxAttempts)
            == RunAll(CancelledDownload(job), rest, maxAttempts)
  {
    var reports := [L.CancelReports] + rest;
    var writes := [L.CancelWrites] + reports;
    StartRuns(job, 4, [L.CancelArrives] + writes, maxAttempts);
    var downloading := RunPlain(Started(job), 1, [L.CancelArrives] + writes, maxAttempts);
    RunOne(downloading, L.CancelArrives, writes, maxAttempts);
    var arrived := L.Next(downloading, L.CancelArrives, maxAttempts).value;
    RunOne(arrived, L.CancelWrites, reports, maxAttempts);
    var written := L.Next(arrived, L.CancelWrites, maxAttempts).value;
    RunOne(written, L.CancelReports, rest, maxAttempts);
    assert L.Next(written, L.CancelReports, maxAttempts) == Some(CancelledDownload(job));
  }

  /** The download ends well, and READY is refused. */
  lemma RefusedReadyRuns(job: L.Assignment, n: nat, maxAttempts: int)
    requires n >= 7
    ensures var j := CancelledDownload(job);
            RunAll(j, Plain(n, []), maxAttempts) ==
            RunAll(j.(row := Some(Row(Cancelled, Some(job.path), None, 0)), processing := {job.path},
                      pc := L.Failing(L.MoveToFailed)), Plain(n - 4, []), maxAttempts)
  {
    var arrived := RunPlain(CancelledDownload(job), n, [], maxAttempts);
    var moved := RunPlain(arrived, n - 1, [], maxAttempts);
    assert moved.processing == {job.path};
    var recorded := RunPlain(moved, n - 2, [], maxAttempts);
    var refused := RunPlain(recorded, n - 3, [], maxAttempts);
  }

  /** One case of it, from the assignment on: the backend is told FAILED after CANCELLED, while CANCELLED stays
      stored. */
  lemma FailedReportCanDiffer(job: L.Assignment, maxAttempts: int)
    requires job.valid
    ensures var j := RunAll(L.Assigned(L.NEW_JOB, job), CancelDuringDownload(), maxAttempts);
            && j.row.Some? && j.row.value.status == Cancelled && j.pc.Idle?
            && j.reports == Started(job).reports
                            + [L.Report(Cancelled, Cancelled, None), L.Report(Failed, Cancelled, None)]
  {
    CancelRuns(job, Plain(7, []), maxAttempts);
    RefusedReadyRuns(job, 7, maxAttempts);
    var failing := CancelledDownload(job).(
      row := Some(Row(Cancelled, Some(job.path), None, 0)), processing := {job.path}, pc := L.Failing(L.MoveToFailed));
    FailureRuns(failing, 3, maxAttempts);
    assert FailedJob(failing).reports == failing.reports + [L.Report(Failed, Cancelled, None)];
  }
}
