/** One call of the handler as a run of the lifecycle: answers, with cancels and the spool in between. */
module HandlerRuns {
  import opened Wrappers
  import opened Models
  import opened Store
  import L = Lifecycle
  import opened LifecycleInvariant
  import opened LifecycleSteps

  /** The lifecycle's events for as long as one call of the handler lasts. */
  function RunAll(j: L.Job, events: seq<L.Event>, maxAttempts: int): L.Job
    decreases events
  {
    if events == [] || j.pc.Idle? || j.pc.Raised? || !L.DuringCall(events[0]) then j
    else match L.Next(j, events[0], maxAttempts)
         case None => j
         case Some(k) => RunAll(k, events[1..], maxAttempts)
  }

  /** The lifecycle from an answer to the handler on. */
  function Answered(j: L.Job, o: L.Outcome, events: seq<L.Event>, maxAttempts: int): L.Job
    requires j.row.Some?
  {
    match L.Handle(j, o, maxAttempts)
    case None => j
    case Some(k) => RunAll(k, events, maxAttempts)
  }

  /** READY recovery hears no wrong "not found" in this call. */
  predicate TruthfulCall(j: L.Job, events: seq<L.Event>, maxAttempts: int)
    decreases events
  {
    if events == [] || j.pc.Idle? || j.pc.Raised? || !L.DuringCall(events[0]) then true
    else
      Truthful(j, events[0]) &&
      match L.Next(j, events[0], maxAttempts)
      case None => true
      case Some(k) => TruthfulCall(k, events[1..], maxAttempts)
  }

  /** A whole call keeps the invariant, wherever it is cut off; so whatever is answered and interleaved, the
      job has at most one print. */
  lemma {:induction false} CallKeepsInv(j: L.Job, events: seq<L.Event>, maxAttempts: int)
    requires Inv(j, maxAttempts) && j.row.Some? && TruthfulCall(j, events, maxAttempts)
    ensures var k := RunAll(j, events, maxAttempts);
            Inv(k, maxAttempts) && k.row.Some? && L.Prints(k) <= 1
    decreases events
  {
    if events != [] && !j.pc.Idle? && !j.pc.Raised? && L.DuringCall(events[0]) {
      match L.Next(j, events[0], maxAttempts)
      case None =>
      case Some(k) =>
        NextKeepsInv(j, events[0], maxAttempts);
        EventAdvances(j, events[0], maxAttempts);
        CallKeepsInv(k, events[1..], maxAttempts);
    }
  }

  /** A call that ends on its own leaves a terminal row, or a READY one; an exception never leaves a row that has
      not come that far. */
  lemma {:induction false} CallEndsWell(j: L.Job, events: seq<L.Event>, maxAttempts: int)
    requires Inv(j, maxAttempts) && j.row.Some? && TruthfulCall(j, events, maxAttempts) && EndsOver(j) && EndsWell(j)
    ensures EndsWell(RunAll(j, events, maxAttempts))
    decreases events
  {
    if events != [] && !j.pc.Idle? && !j.pc.Raised? && L.DuringCall(events[0]) {
      match L.Next(j, events[0], maxAttempts)
      case None =>
      case Some(k) =>
        NextKeepsInv(j, events[0], maxAttempts);
        EventAdvances(j, events[0], maxAttempts);
        if events[0].Step? { StepEndsWell(j, events[0].outcome, maxAttempts); }
        else { InterleavingKeepsEnd(j, events[0], maxAttempts); }
        CallEndsWell(k, events[1..], maxAttempts);
    }
  }

  /** An assignment always starts a call: it never leaves the handler idle at once. */
  lemma AssignmentStarts(j: L.Job, job: L.Assignment)
    requires j.pc.Idle?
    ensures var k := L.Assigned(j, job); !k.pc.Idle? && !k.pc.Raised? && EndsOver(k) && k.row.Some?
  {
  }

  /** So a whole assignment keeps the invariant, prints at most once, and ends well. */
  lemma AssignedCallKeepsInv(j: L.Job, job: L.Assignment, events: seq<L.Event>, maxAttempts: int)
    requires j.pc.Idle?
    ensures Inv(j, maxAttempts) && TruthfulCall(L.Assigned(j, job), events, maxAttempts) ==>
              var k := RunAll(L.Assigned(j, job), events, maxAttempts);
              Inv(k, maxAttempts) && L.Prints(k) <= 1 && EndsWell(k)
  {
    if Inv(j, maxAttempts) && TruthfulCall(L.Assigned(j, job), events, maxAttempts) {
      AssignKeepsInv(j, job, maxAttempts);
      AssignmentStarts(j, job);
      CallKeepsInv(L.Assigned(j, job), events, maxAttempts);
      CallEndsWell(L.Assigned(j, job), events, maxAttempts);
    }
  }

  /** `n` plain answers, then the rest. */
  function Plain(n: nat, rest: seq<L.Event>): seq<L.Event> {
    if n == 0 then rest else [L.Step(L.Go)] + Plain(n - 1, rest)
  }

  lemma RunOne(j: L.Job, e: L.Event, rest: seq<L.Event>, maxAttempts: int)
    requires !j.pc.Idle? && !j.pc.Raised? && L.DuringCall(e) && L.Next(j, e, maxAttempts).Some?
    ensures RunAll(j, [e] + rest, maxAttempts) == RunAll(L.Next(j, e, maxAttempts).value, rest, maxAttempts)
  {
    assert ([e] + rest)[1..] == rest;
  }

  lemma RunPlain(j: L.Job, n: nat, rest: seq<L.Event>, maxAttempts: int) returns (k: L.Job)
    requires n > 0 && !j.pc.Idle? && !j.pc.Raised? && L.Next(j, L.Step(L.Go), maxAttempts).Some?
    ensures k == L.Next(j, L.Step(L.Go), maxAttempts).value
    ensures RunAll(j, Plain(n, rest), maxAttempts) == RunAll(k, Plain(n - 1, rest), maxAttempts)
  {
    k := L.Next(j, L.Step(L.Go), maxAttempts).value;
    RunOne(j, L.Step(L.Go), Plain(n - 1, rest), maxAttempts);
  }

  /** The answers of an ordinary print: `lp` is accepted while it runs and names its job, and the printer
      completes it. */
  function PrintEvents(cupsId: string): seq<L.Event> {
    Plain(10, [L.SpoolAccepts(cupsId)] + ([L.Step(L.LpAccepted(cupsId))] + Plain(3, FinishEvents())))
  }

  function FinishEvents(): seq<L.Event> {
    [L.Step(L.PollCompleted(true))] + Plain(3, [])
  }

  /** The file a monitor moves: the one it was given, or else the recorded one. */
  function FileToMove(j: L.Job): Option<L.Path>
    requires j.row.Some? && j.pc.Monitoring? && j.pc.monitor.Poll?
  {
    var given := j.pc.monitor.file;
    var file := if L.HasFile(j, given) then given else j.row.value.filePath;
    if L.HasFile(j, file) then file else None
  }

  function Moved(j: L.Job): L.Job
    requires j.row.Some? && j.pc.Monitoring? && j.pc.monitor.Poll?
  {
    match FileToMove(j)
    case None => j
    case Some(file) => j.(processing := j.processing - {file}, completed := j.completed + {file})
  }

  /** A job with its last status written and told. */
  function Ended(j: L.Job, status: JobStatus): L.Job
    requires j.row.Some?
  {
    var row := L.Wrote(j, SetStatus(status)).row.value;
    j.(row := Some(row), pc := L.Idle, reports := j.reports + [L.Report(status, row.status, row.cupsJobId)])
  }

  /** A job `_fail_job` has dealt with: its file moved to failed, FAILED written if allowed and told anyway. */
  function FailedJob(j: L.Job): L.Job
    requires j.row.Some?
  {
    var file := j.row.value.filePath;
    Ended(if L.HasFile(j, file) then j.(processing := j.processing - {file.value}, failedMove := true) else j, Failed)
  }

  lemma FailureRuns(j: L.Job, n: nat, maxAttempts: int)
    requires j.row.Some? && j.pc == L.Failing(L.MoveToFailed) && n >= 3
    ensures RunAll(j, Plain(n, []), maxAttempts) == FailedJob(j)
  {
    var moved := RunPlain(j, n, [], maxAttempts);
    FailedMarkRuns(moved, n - 1, maxAttempts);
  }

  lemma FailedMarkRuns(j: L.Job, n: nat, maxAttempts: int)
    requires j.row.Some? && j.pc == L.Failing(L.MarkFailed) && n >= 2
    ensures RunAll(j, Plain(n, []), maxAttempts) == Ended(j, Failed)
  {
    var marked := RunPlain(j, n, [], maxAttempts);
    var told := RunPlain(marked, n - 1, [], maxAttempts);
  }

  /** An exception that leaves a call's part: it fails the job inside the pipeline's try block, and elsewhere ends the
      handler. */
  function Raising(j: L.Job, inTry: bool): L.Job
    requires j.row.Some?
  {
    if inTry then FailedJob(j) else j.(pc := L.Raised)
  }

  lemma RaisingForgetsPlace(j: L.Job, pc: L.Pc, inTry: bool)
    requires j.row.Some?
    ensures Raising(j.(pc := pc), inTry) == Raising(j, inTry)
  {
  }

  lemma CompletionMoves(j: L.Job, n: nat, maxAttempts: int)
    requires j.row.Some? && j.pc.Monitoring? && j.pc.monitor.Poll? && j.row.value.status != Completed && n > 0
    ensures RunAll(j, [L.Step(L.PollCompleted(true))] + Plain(n, []), maxAttempts)
            == RunAll(Moved(j).(pc := L.Monitoring(j.pc.inTry, j.pc.id, L.MarkCompleted)),
                      Plain(n - 1, []), maxAttempts)
  {
    RunOne(j, L.Step(L.PollCompleted(true)), Plain(n, []), maxAttempts);
    var completing := L.Next(j, L.Step(L.PollCompleted(true)), maxAttempts).value;
    var moved := RunPlain(completing, n, [], maxAttempts);
  }

  /** A settled job at the printer becomes COMPLETED. */
  lemma CompletionRuns(j: L.Job, n: nat, maxAttempts: int)
    requires j.row.Some? && j.pc.Monitoring? && j.pc.monitor.Poll? && n >= 3
    requires j.row.value.status.Submitted? || j.row.value.status.Printing?
    ensures RunAll(j, [L.Step(L.PollCompleted(true))] + Plain(n, []), maxAttempts) == Ended(Moved(j), Completed)
  {
    CompletionMoves(j, n, maxAttempts);
    CompletedMarkRuns(Moved(j).(pc := L.Monitoring(j.pc.inTry, j.pc.id, L.MarkCompleted)), n - 1, maxAttempts);
  }

  lemma CompletedMarkRuns(j: L.Job, n: nat, maxAttempts: int)
    requires j.row.Some? && j.pc.Monitoring? && j.pc.monitor.MarkCompleted? && n >= 2
    requires j.row.value.status.Submitted? || j.row.value.status.Printing?
    ensures RunAll(j, Plain(n, []), maxAttempts) == Ended(j, Completed)
  {
    var written := RunPlain(j, n, [], maxAttempts);
    var told := RunPlain(written, n - 1, [], maxAttempts);
  }

  function Told(reports: seq<L.Report>): (told: seq<JobStatus>)
    ensures |told| == |reports| && forall i :: 0 <= i < |told| ==> told[i] == reports[i].status
  {
    seq(|reports|, i requires 0 <= i < |reports| => reports[i].status)
  }

  function ToldAlike(s: JobStatus): L.Report {
    L.Report(s, s, None)
  }

  function Started(job: L.Assignment): L.Job {
    L.NEW_JOB.(
      row := Some(Row(Downloading, None, None, 0)), pc := L.Pipeline(job, L.StartDownload),
      reports := [ToldAlike(Received), ToldAlike(Downloading)])
  }

  lemma StartRuns(job: L.Assignment, n: nat, rest: seq<L.Event>, maxAttempts: int)
    requires job.valid && n >= 3
    ensures RunAll(L.Assigned(L.NEW_JOB, job), Plain(n, rest), maxAttempts)
            == RunAll(Started(job), Plain(n - 3, rest), maxAttempts)
  {
    var received := RunPlain(L.Assigned(L.NEW_JOB, job), n, rest, maxAttempts);
    var downloading := RunPlain(received, n - 1, rest, maxAttempts);
    var reported := RunPlain(downloading, n - 2, rest, maxAttempts);
    assert reported == Started(job);
  }

  function Kept(job: L.Assignment): L.Job {
    Started(job).(processing := {job.path}, downloads := 1, pc := L.Pipeline(job, L.RecordPath))
  }

  lemma DownloadRuns(job: L.Assignment, rest: seq<L.Event>, maxAttempts: int)
    ensures RunAll(Started(job), Plain(7, rest), maxAttempts) == RunAll(Kept(job), Plain(4, rest), maxAttempts)
  {
    var started := RunPlain(Started(job), 7, rest, maxAttempts);
    var arrived := RunPlain(started, 6, rest, maxAttempts);
    var moved := RunPlain(arrived, 5, rest, maxAttempts);
    assert moved == Kept(job);
  }

  function Downloaded(job: L.Assignment): L.Job {
    Kept(job).(
      row := Some(Row(JobStatus.Ready, Some(job.path), None, 0)), pc := L.Submission(job, true, job.path, L.Submit),
      reports := Kept(job).reports + [ToldAlike(JobStatus.Ready)])
  }

  lemma ReadyRuns(job: L.Assignment, rest: seq<L.Event>, maxAttempts: int)
    ensures RunAll(Kept(job), Plain(4, rest), maxAttempts) == RunAll(Downloaded(job), Plain(1, rest), maxAttempts)
  {
    var recorded := RunPlain(Kept(job), 4, rest, maxAttempts);
    var ready := RunPlain(recorded, 3, rest, maxAttempts);
    var told := RunPlain(ready, 2, rest, maxAttempts);
    assert told == Downloaded(job);
  }

  function Accepted(job: L.Assignment, cupsId: string): L.Job {
    Downloaded(job).(spool := [cupsId], pc := L.Submission(job, true, job.path, L.StoreCupsId(cupsId)))
  }

  lemma AcceptRuns(job: L.Assignment, cupsId: string, rest: seq<L.Event>, maxAttempts: int)
    ensures RunAll(Downloaded(job),
                   Plain(1, [L.SpoolAccepts(cupsId)] + ([L.Step(L.LpAccepted(cupsId))] + rest)), maxAttempts)
            == RunAll(Accepted(job, cupsId), rest, maxAttempts)
  {
    var named := [L.Step(L.LpAccepted(cupsId))] + rest;
    var running := RunPlain(Downloaded(job), 1, [L.SpoolAccepts(cupsId)] + named, maxAttempts);
    RunOne(running, L.SpoolAccepts(cupsId), named, maxAttempts);
    var accepted := L.Next(running, L.SpoolAccepts(cupsId), maxAttempts).value;
    RunOne(accepted, L.Step(L.LpAccepted(cupsId)), rest, maxAttempts);
    assert accepted.spool == [cupsId];
    assert L.Next(accepted, L.Step(L.LpAccepted(cupsId)), maxAttempts) == Some(Accepted(job, cupsId));
  }

  function Printed(job: L.Assignment, cupsId: string): L.Job {
    var j := Downloaded(job);
    j.(row := Some(j.row.value.(status := Submitted, cupsJobId := Some(cupsId))), spool := [cupsId],
       pc := L.Monitoring(true, cupsId, L.Poll(Some(job.path))),
       reports := j.reports + [L.Report(Submitted, Submitted, Some(cupsId))])
  }

  lemma SubmissionRuns(job: L.Assignment, cupsId: string, rest: seq<L.Event>, maxAttempts: int)
    ensures RunAll(Accepted(job, cupsId), Plain(3, rest), maxAttempts)
            == RunAll(Printed(job, cupsId), rest, maxAttempts)
  {
    var stored := RunPlain(Accepted(job, cupsId), 3, rest, maxAttempts);
    var submitted := RunPlain(stored, 2, rest, maxAttempts);
    var reported := RunPlain(submitted, 1, rest, maxAttempts);
    assert reported == Printed(job, cupsId);
  }

  /** The ordinary print of a new job, from its assignment to COMPLETED: one accepted `lp`, its id in the store,
      the file moved on, and every status told on the way. */
  lemma NewJobPrints(job: L.Assignment, cupsId: string, maxAttempts: int)
    requires job.valid
    ensures var j := RunAll(L.Assigned(L.NEW_JOB, job), PrintEvents(cupsId), maxAttempts);
            && j.pc.Idle? && j.row == Some(Row(Completed, Some(job.path), Some(cupsId), 0))
            && j.spool == [cupsId] && j.running == 0 && j.completed == {job.path} && j.processing == {}
            && Told(j.reports) == [Received, Downloading, JobStatus.Ready, Submitted, Completed]
  {
    var accepted := [L.SpoolAccepts(cupsId)] + ([L.Step(L.LpAccepted(cupsId))] + Plain(3, FinishEvents()));
    StartRuns(job, 10, accepted, maxAttempts);
    DownloadRuns(job, accepted, maxAttempts);
    ReadyRuns(job, accepted, maxAttempts);
    AcceptRuns(job, cupsId, Plain(3, FinishEvents()), maxAttempts);
    SubmissionRuns(job, cupsId, FinishEvents(), maxAttempts);
    CompletionRuns(Printed(job, cupsId), 3, maxAttempts);
    assert Moved(Printed(job, cupsId)).processing == {};
  }
}
