/** The handlers of app/job_manager.py as they are written, method by method, for one job between two
    starts. Each does exactly what the lifecycle's events do, for every sequence of answers with cancels
    and the spool in between, and stops where the events stop. */
module JobManager {
  import opened Wrappers
  import opened Models
  import opened Store
  import L = Lifecycle
  import opened LifecycleInvariant
  import opened LifecycleSteps
  import opened HandlerRuns

  /** A poll after which the loop goes on with nothing changed. */
  predicate WatchesOn(o: L.Outcome, status: JobStatus) {
    o.PollNoNews? || (o.PollCompleted? && !o.settled && status != Completed)
  }

  datatype TransitionResult = Moved | Cut | Refused

  class JobManager {
    const db: Database
    const id: string
    const maxAttempts: int
    var processing: set<L.Path>
    var completed: set<L.Path>
    var failedMove: bool
    var running: nat
    var spool: seq<L.CupsId>
    var downloads: nat
    var reports: seq<L.Report>
    var cancel: L.CancelPc
    var events: seq<L.Event>
    const crashes: nat

    constructor (db: Database, id: string, maxAttempts: int, start: L.Job, events: seq<L.Event>)
      requires start.row == if id in db.rows then Some(db.rows[id]) else None
      ensures Stored(start.pc) == start && this.events == events
      ensures this.db == db && this.id == id && this.maxAttempts == maxAttempts
    {
      this.db, this.id, this.maxAttempts := db, id, maxAttempts;
      processing, completed, failedMove := start.processing, start.completed, start.failedMove;
      running, spool, downloads, reports := start.running, start.spool, start.downloads, start.reports;
      cancel, crashes := start.cancel, start.crashes;
      this.events := events;
    }

    ghost predicate Valid()
      reads this, db
    {
      id in db.rows
    }

    /** The lifecycle's view of this state, with the handler at `pc`. */
    ghost function Stored(pc: L.Pc): L.Job
      reads this, db
    {
      L.Job(if id in db.rows then Some(db.rows[id]) else None, processing, completed, failedMove, pc, cancel,
            running, spool, downloads, crashes, reports)
    }

    ghost function View(pc: L.Pc): (j: L.Job)
      requires Valid()
      reads this, db
      ensures j.row.Some?
    {
      Stored(pc)
    }

    /** The rows of the other jobs. */
    ghost function Others(): map<string, Row>
      reads this, db
    {
      db.rows - {id}
    }

    /** This call takes the handler from `from` to `at`, as the lifecycle does, and touches no other job. */
    twostate predicate Reaches(from: L.Pc, at: L.Pc)
      reads this, db
    {
      && old(Valid()) && Valid() && Others() == old(Others())
      && View(at) == RunAll(old(View(from)), old(events), maxAttempts)
    }

    /** One stretch of `handle_cancel` between two awaits; false when there is nothing it may do. Arriving, it
        passes the checks and awaits the printer's `cancel`, whose error is ignored unless it is of another kind
        (`CancelDropped`); then it writes, and last it reports, whether or not the write was allowed. */
    method HandleCancel(e: L.Event, ghost pc: L.Pc) returns (taken: bool)
      requires e.CancelArrives? || e.CancelWrites? || e.CancelReports? || e.CancelDropped?
      modifies this`cancel, this`reports, db
      ensures var next := L.Next(old(Stored(pc)), e, maxAttempts);
              taken == next.Some? && Stored(pc) == if taken then next.value else old(Stored(pc))
      ensures Others() == old(Others())
    {
      if e.CancelWrites? {
        taken := MarkCancelled(pc);
        return;
      }
      var record := db.GetByBackendId(id);
      match e {
        case CancelArrives =>
          taken := cancel.NoCancel? && record.Some? && !Terminal(record.value.status);
          cancel := if taken then L.CancelMark else cancel;
        case CancelDropped =>
          taken := cancel.CancelMark?;
          cancel := if taken then L.NoCancel else cancel;
        case CancelReports =>
          taken := cancel.CancelReport? && record.Some?;
          if taken {
            cancel := L.NoCancel;
            reports := reports + [L.Report(Cancelled, record.value.status, record.value.cupsJobId)];
          }
      }
    }

    method MarkCancelled(ghost pc: L.Pc) returns (taken: bool)
      modifies this`cancel, db
      ensures var next := L.Next(old(Stored(pc)), L.CancelWrites, maxAttempts);
              taken == next.Some? && Stored(pc) == if taken then next.value else old(Stored(pc))
      ensures Others() == old(Others())
    {
      var record := db.GetByBackendId(id);
      taken := cancel.CancelMark? && record.Some?;
      if taken {
        var _ := db.UpdateStatus(id, Cancelled);
        cancel := L.CancelReport;
      }
    }

    /** What CUPS does with an `lp` that is running. */
    method SpoolMoves(e: L.Event, ghost pc: L.Pc) returns (taken: bool)
      requires e.SpoolAccepts? || e.SpoolDrops?
      modifies this`running, this`spool
      ensures var next := L.Next(old(Stored(pc)), e, maxAttempts);
              taken == next.Some? && Stored(pc) == if taken then next.value else old(Stored(pc))
    {
      if running == 0 {
        return false;
      }
      running := running - 1;
      if e.SpoolAccepts? {
        spool := spool + [e.id];
      }
      return true;
    }

    /** What happens beside a handler that stands at `pc`, up to its next answer. */
    method Await(ghost pc: L.Pc) returns (answer: Option<L.Outcome>)
      requires Valid() && !pc.Idle? && !pc.Raised?
      modifies this, db
      ensures Valid() && |events| <= |old(events)| && Others() == old(Others())
      ensures answer.None? ==> Reaches(pc, pc)
      ensures answer.Some? ==> |events| < |old(events)| && L.Step(answer.value) in old(events)
      ensures old(events) != [] && old(events)[0].Step? ==>
                answer == Some(old(events)[0].outcome) && events == old(events)[1..] && View(pc) == old(View(pc))
      ensures answer.Some? ==> RunAll(old(View(pc)), old(events), maxAttempts)
                               == Answered(View(pc), answer.value, events, maxAttempts)
    {
      ghost var goal := RunAll(View(pc), events, maxAttempts);
      while events != [] && L.DuringCall(events[0])
        invariant Valid() && |events| <= |old(events)| && Others() == old(Others())
        invariant RunAll(View(pc), events, maxAttempts) == goal
        invariant forall e <- events :: e in old(events)
        invariant old(events) != [] && old(events)[0].Step? ==> events == old(events) && View(pc) == old(View(pc))
        decreases |events|
      {
        var e := events[0];
        if e.Step? {
          events := events[1..];
          return Some(e.outcome);
        }
        var taken;
        if e.SpoolAccepts? || e.SpoolDrops? {
          taken := SpoolMoves(e, pc);
        } else {
          taken := HandleCancel(e, pc);
        }
        if !taken {
          return None;
        }
        events := events[1..];
      }
      return None;
    }

    /** `_emit` */
    method Emit(status: JobStatus, ghost next: L.Pc) returns (cut: bool)
      requires Valid()
      modifies this, db
      ensures Valid() && |events| <= |old(events)| && Others() == old(Others())
      ensures cut ==> Reaches(L.Emit(status, next), L.Emit(status, next))
      ensures !cut ==> RunAll(View(next), events, maxAttempts)
                       == RunAll(old(View(L.Emit(status, next))), old(events), maxAttempts)
    {
      var answer := Await(L.Emit(status, next));
      if answer != Some(L.Go) {
        return true;
      }
      reports := reports + [L.Report(status, db.rows[id].status, db.rows[id].cupsJobId)];
      return false;
    }

    /** `_fail_job` */
    method FailJob() returns (at: L.Pc)
      requires Valid()
      modifies this, db
      ensures Reaches(L.Failing(L.MoveToFailed), at)
    {
      at := L.Failing(L.MoveToFailed);
      var answer := Await(at);
      if answer != Some(L.Go) && answer != Some(L.PermanentError) {
        return;
      }
      var file := db.rows[id].filePath;
      if answer.value.Go? && file.Some? && file.value in processing {
        processing, failedMove := processing - {file.value}, true;
      }
      at := MarkFailed();
    }

    method MarkFailed() returns (at: L.Pc)
      requires Valid()
      modifies this, db
      ensures Reaches(L.Failing(L.MarkFailed), at)
    {
      at := L.Failing(L.MarkFailed);
      var answer := Await(at);
      if answer != Some(L.Go) {
        return;
      }
      var _ := db.UpdateStatus(id, Failed);
      var cut := Emit(Failed, L.Idle);
      at := if cut then L.Emit(Failed, L.Idle) else L.Idle;
    }

    /** An exception inside the pipeline's try block fails the job; elsewhere it leaves the handler. */
    method HandleException(inTry: bool) returns (at: L.Pc)
      requires Valid()
      modifies this, db
      ensures Reaches(L.OnException(inTry), at)
    {
      if inTry {
        at := FailJob();
      } else {
        at := L.Raised;
      }
    }

    /** `_transition`: the write, then the report unless the table refuses. */
    method Transition(status: JobStatus, ghost next: L.Pc) returns (r: TransitionResult)
      requires Valid()
      modifies this, db
      ensures Valid() && |events| <= |old(events)| && Others() == old(Others())
      ensures var j := old(View(L.Idle)); var written := L.Wrote(j, SetStatus(status)).(pc := L.Emit(status, next));
              if !CanTransition(old(db.rows)[id].status, status)
              then r.Refused? && View(L.Idle) == j && events == old(events)
              else (match r
                    case Refused => false
                    case Cut => View(L.Emit(status, next)) == RunAll(written, old(events), maxAttempts)
                    case Moved => RunAll(View(next), events, maxAttempts) == RunAll(written, old(events), maxAttempts))
    {
      var updated := db.UpdateStatus(id, status);
      if updated.Err? {
        return Refused;
      }
      var cut := Emit(status, next);
      r := if cut then Cut else Moved;
    }

    /** `_run_download_pipeline` up to the start of the download. */
    method RunDownloadPipeline(job: L.Assignment, record: Row, alreadyDownloading: bool) returns (at: L.Pc)
      requires Valid()
      modifies this, db
      ensures Reaches(L.Pipeline(job, L.Start(record, alreadyDownloading)), at)
      decreases |events|, 1
    {
      at := L.Pipeline(job, L.Start(record, alreadyDownloading));
      var answer := Await(at);
      if answer != Some(L.Go) {
        return;
      }
      if record.cupsJobId.Some? || !job.valid {
        at := FailJob();
        return;
      }
      if (!alreadyDownloading && record.status == Received) || record.status == RetryWaiting {
        var moved := Transition(Downloading, L.Pipeline(job, L.StartDownload));
        if moved.Refused? {
          at := FailJob();
          return;
        }
        if moved.Cut? {
          at := L.Emit(Downloading, L.Pipeline(job, L.StartDownload));
          return;
        }
      }
      at := Download(job);
    }

    /** The download itself and its failures. */
    method Download(job: L.Assignment) returns (at: L.Pc)
      requires Valid()
      modifies this, db
      ensures Reaches(L.Pipeline(job, L.StartDownload), at)
      decreases |events|, 0
    {
      at := L.Pipeline(job, L.StartDownload);
      var answer := Await(at);
      if answer != Some(L.Go) {
        return;
      }
      downloads := downloads + 1;
      at := AwaitDownload(job);
    }

    method AwaitDownload(job: L.Assignment) returns (at: L.Pc)
      requires Valid()
      modifies this, db
      ensures Reaches(L.Pipeline(job, L.AwaitDownload), at)
      decreases |events|, 3
    {
      at := L.Pipeline(job, L.AwaitDownload);
      var answer := Await(at);
      if answer.None? {
        return;
      }
      match answer.value {
        case Go =>
          at := KeepFile(job);
        case RetryableError =>
          at := HandlePreSubmitFailure(job, L.Retryable);
        case PermanentError =>
          at := HandlePreSubmitFailure(job, L.Permanent);
        case Exception =>
          at := FailJob();
        case _ =>
      }
    }

    /** The downloaded file moves to processing, its path is stored, and the job is READY. */
    method KeepFile(job: L.Assignment) returns (at: L.Pc)
      requires Valid()
      modifies this, db
      ensures Reaches(L.Pipeline(job, L.MoveToProcessing), at)
      decreases |events|, 0
    {
      at := L.Pipeline(job, L.MoveToProcessing);
      var answer := Await(at);
      if answer != Some(L.Go) && answer != Some(L.PermanentError) {
        return;
      }
      if answer.value.PermanentError? {
        at := HandlePreSubmitFailure(job, L.Permanent);
        return;
      }
      processing := processing + {job.path};
      at := StorePath(job);
    }

    method StorePath(job: L.Assignment) returns (at: L.Pc)
      requires Valid()
      modifies this, db
      ensures Reaches(L.Pipeline(job, L.RecordPath), at)
      decreases |events|, 0
    {
      at := L.Pipeline(job, L.RecordPath);
      var answer := Await(at);
      if answer != Some(L.Go) {
        return;
      }
      db.SetFilePath(id, job.path);
      at := MarkReady(job);
    }

    method MarkReady(job: L.Assignment) returns (at: L.Pc)
      requires Valid()
      modifies this, db
      ensures Reaches(L.Pipeline(job, L.MarkReady), at)
      decreases |events|, 3
    {
      at := L.Pipeline(job, L.MarkReady);
      var answer := Await(at);
      if answer != Some(L.Go) {
        return;
      }
      var moved := Transition(JobStatus.Ready, L.Submission(job, true, job.path, L.Submit));
      match moved {
        case Refused => at := FailJob();
        case Cut => at := L.Emit(JobStatus.Ready, L.Submission(job, true, job.path, L.Submit));
        case Moved => at := SubmitAndMonitor(job, true, job.path);
      }
    }

    /** `_handle_pre_submit_failure`, with `_schedule_retry` */
    method HandlePreSubmitFailure(job: L.Assignment, kind: L.FailureKind) returns (at: L.Pc)
      requires Valid()
      modifies this, db
      ensures Reaches(L.Retry(job, L.PreSubmitFailure(kind)), at)
      decreases |events|, 2
    {
      at := L.Retry(job, L.PreSubmitFailure(kind));
      var answer := Await(at);
      if answer != Some(L.Go) {
        return;
      }
      if db.rows[id].cupsJobId.Some? || kind.Permanent? {
        at := FailJob();
        return;
      }
      db.IncrementAttempt(id);
      at := ScheduleRetry(job);
    }

    method ScheduleRetry(job: L.Assignment) returns (at: L.Pc)
      requires Valid()
      modifies this, db
      ensures Reaches(L.Retry(job, L.AttemptCounted), at)
      decreases |events|, 0
    {
      at := L.Retry(job, L.AttemptCounted);
      var answer := Await(at);
      if answer != Some(L.Go) {
        return;
      }
      if db.rows[id].attemptCount >= maxAttempts {
        at := FailJob();
        return;
      }
      var _ := db.UpdateStatus(id, RetryWaiting);
      var cut := Emit(RetryWaiting, L.Retry(job, L.Reported));
      if cut {
        at := L.Emit(RetryWaiting, L.Retry(job, L.Reported));
      } else {
        at := RetryIfWaiting(job);
      }
    }

    method RetryIfWaiting(job: L.Assignment) returns (at: L.Pc)
      requires Valid()
      modifies this, db
      ensures Reaches(L.Retry(job, L.Reported), at)
      decreases |events|, 0
    {
      at := L.Retry(job, L.Reported);
      var answer := Await(at);
      if answer != Some(L.Go) {
        return;
      }
      if db.rows[id].status == RetryWaiting {
        at := RetryFromWaiting(job, db.rows[id]);
      } else {
        at := L.Idle;
      }
    }

    /** `_retry_from_waiting` */
    method RetryFromWaiting(job: L.Assignment, record: Row) returns (at: L.Pc)
      requires Valid()
      modifies this, db
      ensures Reaches(L.Retry(job, L.Sleep(record)), at)
      decreases |events|, 2
    {
      at := L.Retry(job, L.Sleep(record));
      var answer := Await(at);
      if answer != Some(L.Go) {
        return;
      }
      if record.cupsJobId.Some? {
        at := FailJob();
        return;
      }
      at := L.Retry(job, L.Wake(record));
      answer := Await(at);
      if answer != Some(L.Go) {
        return;
      }
      if record.attemptCount >= maxAttempts {
        at := FailJob();
        return;
      }
      at := RunDownloadPipeline(job, record, false);
    }

    /** `_submit_and_monitor`: the printer's `submit`, then its outcome. */
    method SubmitAndMonitor(job: L.Assignment, inTry: bool, path: L.Path) returns (at: L.Pc)
      requires Valid()
      modifies this, db
      ensures Reaches(L.Submission(job, inTry, path, L.Submit), at)
      decreases |events|, 2
    {
      at := L.Submission(job, inTry, path, L.Submit);
      var answer := Await(at);
      if answer.None? {
        return;
      }
      if path in processing {
        at := StartLp(job, inTry, path, answer.value);
      } else if answer.value.Go? {
        at := HandleSubmitError(job, inTry, path, L.Permanent);
      }
    }

    /** The check of the printer, and `lp`. */
    method StartLp(job: L.Assignment, inTry: bool, path: L.Path, answer: L.Outcome) returns (at: L.Pc)
      requires Valid() && path in processing
      modifies this, db
      ensures Valid() && Others() == old(Others())
      ensures View(at)
              == Answered(old(View(L.Submission(job, inTry, path, L.Submit))), answer, old(events), maxAttempts)
      decreases |events|, 3
    {
      at := L.Submission(job, inTry, path, L.Submit);
      match answer {
        case Go =>
          running := running + 1;
          at := AwaitLp(job, inTry, path);
        case Unavailable =>
          at := HandleSubmitError(job, inTry, path, L.Retryable);
        case Exception =>
          at := HandleException(inTry);
        case _ =>
      }
    }

    method AwaitLp(job: L.Assignment, inTry: bool, path: L.Path) returns (at: L.Pc)
      requires Valid()
      modifies this, db
      ensures Reaches(L.Submission(job, inTry, path, L.AwaitLp), at)
      decreases |events|, 2
    {
      at := L.Submission(job, inTry, path, L.AwaitLp);
      var answer := Await(at);
      if answer.None? {
        return;
      }
      match answer.value {
        case LpAccepted(cupsId) =>
          if cupsId in spool {
            at := Submitted(job, inTry, path, cupsId);
          }
        case LpRefused =>
          at := HandleSubmitError(job, inTry, path, L.Permanent);
        case LpTimeout =>
          at := AwaitTimeoutLookup(job, inTry, path);
        case Exception =>
          at := HandleException(inTry);
        case _ =>
      }
    }

    method AwaitTimeoutLookup(job: L.Assignment, inTry: bool, path: L.Path) returns (at: L.Pc)
      requires Valid()
      modifies this, db
      ensures Reaches(L.Submission(job, inTry, path, L.AwaitTimeoutLookup), at)
      decreases |events|, 2
    {
      at := L.Submission(job, inTry, path, L.AwaitTimeoutLookup);
      var answer := Await(at);
      if answer.None? {
        return;
      }
      match answer.value {
        case LookupFound(cupsId) =>
          at := Submitted(job, inTry, path, cupsId);
        case LookupNotFound =>
          at := HandleSubmitError(job, inTry, path, L.Permanent);
        case LookupUndecided =>
          at := HandleSubmitError(job, inTry, path, L.Permanent);
        case Exception =>
          at := HandleException(inTry);
        case _ =>
      }
    }

    method HandleSubmitError(job: L.Assignment, inTry: bool, path: L.Path, kind: L.FailureKind) returns (at: L.Pc)
      requires Valid()
      modifies this, db
      ensures Reaches(L.Submission(job, inTry, path, L.SubmitError(kind)), at)
      decreases |events|, 1
    {
      at := L.Submission(job, inTry, path, L.SubmitError(kind));
      var answer := Await(at);
      if answer != Some(L.Go) {
        return;
      }
      if db.rows[id].cupsJobId.Some? || kind.Permanent? {
        at := FailJob();
      } else {
        at := HandlePreSubmitFailure(job, kind);
      }
    }

    method Submitted(job: L.Assignment, inTry: bool, path: L.Path, cupsId: L.CupsId) returns (at: L.Pc)
      requires Valid()
      modifies this, db
      ensures Reaches(L.Submission(job, inTry, path, L.StoreCupsId(cupsId)), at)
    {
      at := L.Submission(job, inTry, path, L.StoreCupsId(cupsId));
      var answer := Await(at);
      if answer != Some(L.Go) {
        return;
      }
      db.SetCupsJobId(id, cupsId);
      at := MarkSubmitted(job, inTry, path, cupsId);
    }

    method MarkSubmitted(job: L.Assignment, inTry: bool, path: L.Path, cupsId: L.CupsId) returns (at: L.Pc)
      requires Valid()
      modifies this, db
      ensures Reaches(L.Submission(job, inTry, path, L.MarkSubmitted(cupsId)), at)
    {
      at := L.Submission(job, inTry, path, L.MarkSubmitted(cupsId));
      var answer := Await(at);
      if answer != Some(L.Go) {
        return;
      }
      var moved := Transition(JobStatus.Submitted, L.Monitoring(inTry, cupsId, L.Poll(Some(path))));
      match moved {
        case Refused => at := HandleException(inTry);
        case Cut => at := L.Emit(JobStatus.Submitted, L.Monitoring(inTry, cupsId, L.Poll(Some(path))));
        case Moved => at := MonitorPrinter(inTry, cupsId, Some(path));
      }
    }

    /** `_monitor_printer` and, without a file, `_monitor_printer_only` */
    method MonitorPrinter(inTry: bool, cupsId: L.CupsId, file: Option<L.Path>) returns (at: L.Pc)
      requires Valid()
      modifies this, db
      ensures Reaches(L.Monitoring(inTry, cupsId, L.Poll(file)), at)
    {
      at := L.Monitoring(inTry, cupsId, L.Poll(file));
      ghost var goal := RunAll(View(at), events, maxAttempts);
      var done := false;
      while !done
        invariant Valid() && Others() == old(Others())
        invariant if done then View(at) == goal
                  else at == L.Monitoring(inTry, cupsId, L.Poll(file)) && RunAll(View(at), events, maxAttempts) == goal
        decreases if done then 0 else |events| + 1
      {
        done, at := ProcessPoll(inTry, cupsId, file);
      }
    }

    /** One poll: whether the loop ends with it, and where. */
    method ProcessPoll(inTry: bool, cupsId: L.CupsId, file: Option<L.Path>) returns (done: bool, at: L.Pc)
      requires Valid()
      modifies this, db
      ensures Valid() && Others() == old(Others())
      ensures var poll := L.Monitoring(inTry, cupsId, L.Poll(file));
              if done then Reaches(poll, at)
              else
                && at == poll && |events| < |old(events)|
                && RunAll(View(poll), events, maxAttempts) == RunAll(old(View(poll)), old(events), maxAttempts)
      ensures old(events) != [] && old(events)[0].Step? && !old(events)[0].outcome.PollPrinting? ==>
                var watches := WatchesOn(old(events)[0].outcome, old(db.rows)[id].status);
                done == !watches && (watches ==> View(at) == old(View(at)))
    {
      done, at := true, L.Monitoring(inTry, cupsId, L.Poll(file));
      var answer := Await(at);
      if answer.None? {
        return;
      }
      match answer.value {
        case PollNoNews =>
          done := false;
        case PollPrinting =>
          done, at := SawPrinting(inTry, cupsId, file);
        case PollFailed =>
          at := FailJob();
        case PollCompleted(settled) =>
          if db.rows[id].status == Completed {
            at := L.Idle;
          } else if settled {
            at := CompleteJob(inTry, cupsId, file);
          } else {
            done := false;
          }
        case Exception =>
          at := HandleException(inTry);
        case _ =>
      }
    }

    method SawPrinting(inTry: bool, cupsId: L.CupsId, file: Option<L.Path>) returns (done: bool, at: L.Pc)
      requires Valid()
      modifies this, db
      ensures Valid() && (!done ==> |events| <= |old(events)|) && Others() == old(Others())
      ensures var poll := L.Monitoring(inTry, cupsId, L.Poll(file)); var j := old(View(poll));
              var goal := RunAll(if j.row.value.status == Printing then j
                                 else L.Transition(j, Printing, poll, L.OnException(inTry)), old(events), maxAttempts);
              if done then View(at) == goal else at == poll && RunAll(View(poll), events, maxAttempts) == goal
    {
      at := L.Monitoring(inTry, cupsId, L.Poll(file));
      ghost var j := View(at);
      if db.rows[id].status == Printing {
        return false, at;
      }
      var moved := Transition(Printing, at);
      match moved {
        case Refused =>
          assert View(L.OnException(inTry)) == j.(pc := L.OnException(inTry));
          at := HandleException(inTry);
          return true, at;
        case Cut =>
          return true, L.Emit(Printing, at);
        case Moved =>
          return false, at;
      }
    }

    /** The callback, `_complete_job`'s move, and the last status. */
    method CompleteJob(inTry: bool, cupsId: L.CupsId, file: Option<L.Path>) returns (at: L.Pc)
      requires Valid()
      modifies this, db
      ensures Reaches(L.Monitoring(inTry, cupsId, L.Completing(file)), at)
    {
      at := L.Monitoring(inTry, cupsId, L.Completing(file));
      var answer := Await(at);
      if answer != Some(L.Go) && answer != Some(L.Exception) {
        return;
      }
      if answer.value.Exception? {
        at := HandleException(inTry);
        return;
      }
      if file.Some? && file.value in processing {
        processing, completed := processing - {file.value}, completed + {file.value};
      } else {
        var stored := db.rows[id].filePath;
        if stored.Some? && stored.value in processing {
          processing, completed := processing - {stored.value}, completed + {stored.value};
        }
      }
      at := MarkCompleted(inTry, cupsId);
    }

    method MarkCompleted(inTry: bool, cupsId: L.CupsId) returns (at: L.Pc)
      requires Valid()
      modifies this, db
      ensures Reaches(L.Monitoring(inTry, cupsId, L.MarkCompleted), at)
    {
      at := L.Monitoring(inTry, cupsId, L.MarkCompleted);
      var answer := Await(at);
      if answer != Some(L.Go) {
        return;
      }
      var moved := Transition(Completed, L.Idle);
      match moved {
        case Refused => at := HandleException(inTry);
        case Cut => at := L.Emit(Completed, L.Idle);
        case Moved => at := L.Idle;
      }
    }

    /** `_resume_ready_job` */
    method ResumeReadyJob(job: L.Assignment, record: Row, path: L.Path) returns (at: L.Pc)
      requires Valid()
      modifies this, db
      ensures Reaches(L.Recovery(job, path, L.ResumeReady(record)), at)
    {
      at := L.Recovery(job, path, L.ResumeReady(record));
      var answer := Await(at);
      if answer != Some(L.Go) {
        return;
      }
      if record.cupsJobId.Some? {
        at := MonitorExistingSubmission(job, record.cupsJobId.value, path);
      } else {
        at := LookUpExisting(job, path);
      }
    }

    method LookUpExisting(job: L.Assignment, path: L.Path) returns (at: L.Pc)
      requires Valid()
      modifies this, db
      ensures Reaches(L.Recovery(job, path, L.AwaitLookup), at)
    {
      at := L.Recovery(job, path, L.AwaitLookup);
      var answer := Await(at);
      if answer.None? {
        return;
      }
      match answer.value {
        case LookupFound(cupsId) =>
          db.SetCupsJobId(id, cupsId);
          at := MonitorExistingSubmission(job, cupsId, path);
        case LookupUndecided =>
          at := FailJob();
        case LookupNotFound =>
          at := SubmitAndMonitor(job, false, path);
        case Exception =>
          at := L.Raised;
        case _ =>
      }
    }

    /** `_monitor_existing_submission` */
    method MonitorExistingSubmission(job: L.Assignment, cupsId: L.CupsId, path: L.Path) returns (at: L.Pc)
      requires Valid()
      modifies this, db
      ensures Reaches(L.Recovery(job, path, L.Existing(cupsId)), at)
    {
      at := L.Recovery(job, path, L.Existing(cupsId));
      var answer := Await(at);
      if answer != Some(L.Go) {
        return;
      }
      if db.rows[id].status == JobStatus.Ready {
        var moved := Transition(JobStatus.Submitted, L.Recovery(job, path, L.ChooseMonitor(cupsId)));
        if moved.Refused? {
          at := L.Raised;
          return;
        }
        if moved.Cut? {
          at := L.Emit(JobStatus.Submitted, L.Recovery(job, path, L.ChooseMonitor(cupsId)));
          return;
        }
      }
      at := ChooseMonitor(job, cupsId, path);
    }

    method ChooseMonitor(job: L.Assignment, cupsId: L.CupsId, path: L.Path) returns (at: L.Pc)
      requires Valid()
      modifies this, db
      ensures Reaches(L.Recovery(job, path, L.ChooseMonitor(cupsId)), at)
    {
      at := L.Recovery(job, path, L.ChooseMonitor(cupsId));
      var answer := Await(at);
      if answer != Some(L.Go) {
        return;
      }
      at := MonitorPrinter(false, cupsId, if path in processing then Some(path) else None);
    }

    /** `_resume_job` */
    method ResumeJob(job: L.Assignment, record: Row) returns (at: L.Pc)
      requires Valid()
      modifies this, db
      ensures Valid()
      ensures Reaches(old(L.ResumePc(View(L.Idle), job, record)), at)
    {
      var path := record.filePath;
      var hasFile := path.Some? && path.value in processing;
      match record.status {
        case Received => at := RunDownloadPipeline(job, record, false);
        case Downloading => at := RunDownloadPipeline(job, record, true);
        case RetryWaiting => at := RetryFromWaiting(job, record);
        case Ready =>
          if hasFile {
            at := ResumeReadyJob(job, record, path.value);
          } else {
            at := FailJob();
          }
        case Submitted =>
          if record.cupsJobId.None? {
            at := FailJob();
          } else {
            at := MonitorPrinter(false, record.cupsJobId.value, if hasFile then path else None);
          }
        case Printing =>
          if record.cupsJobId.None? {
            at := FailJob();
          } else {
            at := MonitorPrinter(false, record.cupsJobId.value, if hasFile then path else None);
          }
        case _ => at := L.Idle;
      }
    }

    /** `handle_assigned`; so one call keeps the invariant of a job that had it, and with it at most one
        print, wherever it ends, and left alone it ends over a terminal or READY row. */
    method HandleAssigned(job: L.Assignment) returns (at: L.Pc)
      modifies this, db
      ensures Valid() && Others() == old(Others())
      ensures View(at) == RunAll(old(L.Assigned(Stored(L.Idle), job)), old(events), maxAttempts)
      ensures old(Inv(Stored(L.Idle), maxAttempts)) &&
              old(TruthfulCall(L.Assigned(Stored(L.Idle), job), events, maxAttempts)) ==>
                Inv(View(at), maxAttempts) && L.Prints(View(at)) <= 1 && EndsWell(View(at))
    {
      AssignedCallKeepsInv(Stored(L.Idle), job, events, maxAttempts);
      var existing := db.GetByBackendId(id);
      if existing.None? {
        at := ProcessNewJob(job);
      } else if Terminal(existing.value.status) {
        var cut := Emit(existing.value.status, L.Idle);
        at := if cut then L.Emit(existing.value.status, L.Idle) else L.Idle;
      } else {
        at := ResumeJob(job, existing.value);
      }
    }

    method ProcessNewJob(job: L.Assignment) returns (at: L.Pc)
      requires !Valid()
      modifies this, db
      ensures Valid() && Others() == old(Others())
      ensures View(at) == RunAll(old(L.Assigned(Stored(L.Idle), job)), old(events), maxAttempts)
    {
      var record := db.CreateJob(id);
      ghost var next := L.Pipeline(job, L.Start(record, false));
      assert View(L.Emit(Received, next)) == old(L.Assigned(Stored(L.Idle), job));
      var cut := Emit(Received, next);
      if cut {
        at := L.Emit(Received, L.Pipeline(job, L.Start(record, false)));
      } else {
        at := RunDownloadPipeline(job, record, false);
      }
    }
  }
}
