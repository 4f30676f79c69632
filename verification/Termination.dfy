/** The handler always comes to an end: download pipeline, failure handler and retry call each other, and
    only the monitor may wait for as long as the printer brings no news. */
module Termination {
  import opened Models
  import opened Store
  import opened Lifecycle
  import opened LifecycleInvariant

  /** Steps still ahead of this position, before a failure opens another attempt. */
  function Position(row: Row, pc: Pc, maxAttempts: int): nat
    decreases pc
  {
    match pc
    case Idle => 0
    case Raised => 0
    case Failing(at) => if at.MarkFailed? then 2 else 3
    case Monitoring(_, _, at) =>
      (match at
       case MarkCompleted => 4
       case Completing(_) => 5
       case Poll(_) => if row.status.Submitted? then 8 else 6)
    case Submission(_, _, _, at) =>
      (match at
       case SubmitError(_) => 6
       case MarkSubmitted(_) => 10
       case StoreCupsId(_) => 11
       case AwaitTimeoutLookup => 12
       case AwaitLp => 13
       case Submit => 14)
    case Recovery(_, _, at) =>
      (match at
       case ChooseMonitor(_) => 9
       case Existing(_) => 11
       case AwaitLookup => 15
       case ResumeReady(_) => 16)
    case Pipeline(_, at) =>
      (match at
       case MarkReady => 16
       case RecordPath => 17
       case MoveToProcessing => 18
       case AwaitDownload => 19
       case StartDownload => 20
       case Start(_, _) => 22)
    case Retry(_, at) =>
      (match at
       case PreSubmitFailure(_) => 5
       case AttemptCounted => if row.attemptCount >= maxAttempts then 4 else 27
       case Reported => 25
       case Sleep(_) => 24
       case Wake(_) => 23)
    case Emit(_, next) => 1 + Position(row, next, maxAttempts)
  }

  function Work(j: Job, maxAttempts: int): nat
    requires j.row.Some?
  {
    23 * Max(maxAttempts - j.row.value.attemptCount, 0) + Position(j.row.value, j.pc, maxAttempts)
  }

  /** Every step of the handler does some of the work, except a poll that changes nothing. */
  lemma StepWorks(j: Job, o: Outcome, maxAttempts: int)
    requires j.row.Some? && Handle(j, o, maxAttempts).Some?
    ensures var k := Handle(j, o, maxAttempts).value;
            k.row.Some? && (k == j || Work(k, maxAttempts) < Work(j, maxAttempts))
    ensures Handle(j, o, maxAttempts).value == j ==> j.pc.Monitoring? && j.pc.monitor.Poll?
  {
    if j.pc.Pipeline? { PipelineWorks(j, o, maxAttempts); }
    else if j.pc.Retry? { RetryWorks(j, o, maxAttempts); }
    else if j.pc.Recovery? { RecoveryWorks(j, o, maxAttempts); }
    else if j.pc.Submission? { SubmissionWorks(j, o, maxAttempts); }
    else { EndWorks(j, o, maxAttempts); }
  }

  /** Progress within the current attempt. */
  predicate Ahead(j: Job, k: Job, maxAttempts: int)
    requires j.row.Some?
  {
    && k.row.Some? && k.row.value.attemptCount == j.row.value.attemptCount
    && Position(k.row.value, k.pc, maxAttempts) < Position(j.row.value, j.pc, maxAttempts)
  }

  lemma EmitIsOneStep(row: Row, status: JobStatus, next: Pc, maxAttempts: int)
    ensures Position(row, Emit(status, next), maxAttempts) == 1 + Position(row, next, maxAttempts)
  {
  }

  lemma PipelineWorks(j: Job, o: Outcome, maxAttempts: int)
    requires j.row.Some? && j.pc.Pipeline? && HandlePipeline(j, o).Some?
    ensures Ahead(j, HandlePipeline(j, o).value, maxAttempts) && HandlePipeline(j, o).value != j
  {
    var k := HandlePipeline(j, o).value;
    if k.pc.Emit? { EmitIsOneStep(k.row.value, k.pc.status, k.pc.next, maxAttempts); }
  }

  lemma RetryWorks(j: Job, o: Outcome, maxAttempts: int)
    requires j.row.Some? && j.pc.Retry? && HandleRetry(j, o, maxAttempts).Some?
    ensures var k := HandleRetry(j, o, maxAttempts).value;
            k.row.Some? && k != j && Work(k, maxAttempts) < Work(j, maxAttempts)
  {
    var k := HandleRetry(j, o, maxAttempts).value;
    if k.pc.Emit? { EmitIsOneStep(k.row.value, k.pc.status, k.pc.next, maxAttempts); }
  }

  lemma SubmissionWorks(j: Job, o: Outcome, maxAttempts: int)
    requires j.row.Some? && j.pc.Submission? && HandleSubmission(j, o).Some?
    ensures Ahead(j, HandleSubmission(j, o).value, maxAttempts) && HandleSubmission(j, o).value != j
  {
    var k := HandleSubmission(j, o).value;
    if k.pc.Emit? { EmitIsOneStep(k.row.value, k.pc.status, k.pc.next, maxAttempts); }
  }

  lemma RecoveryWorks(j: Job, o: Outcome, maxAttempts: int)
    requires j.row.Some? && j.pc.Recovery? && HandleRecovery(j, o).Some?
    ensures Ahead(j, HandleRecovery(j, o).value, maxAttempts) && HandleRecovery(j, o).value != j
  {
    var k := HandleRecovery(j, o).value;
    if k.pc.Emit? { EmitIsOneStep(k.row.value, k.pc.status, k.pc.next, maxAttempts); }
  }

  lemma EndWorks(j: Job, o: Outcome, maxAttempts: int)
    requires j.row.Some? && (j.pc.Monitoring? || j.pc.Failing? || j.pc.Emit?) && Handle(j, o, maxAttempts).Some?
    ensures var k := Handle(j, o, maxAttempts).value;
            if k == j then j.pc.Monitoring? && j.pc.monitor.Poll? else Ahead(j, k, maxAttempts)
  {
    var k := Handle(j, o, maxAttempts).value;
    if k.pc.Emit? { EmitIsOneStep(k.row.value, k.pc.status, k.pc.next, maxAttempts); }
    if j.pc.Emit? { EmitIsOneStep(j.row.value, j.pc.status, j.pc.next, maxAttempts); }
  }

  lemma EventAddsNoWork(j: Job, e: Event, maxAttempts: int)
    requires j.row.Some? && DuringCall(e) && !e.Step? && Next(j, e, maxAttempts).Some?
    ensures var k := Next(j, e, maxAttempts).value;
            k.row.Some? && Work(k, maxAttempts) <= Work(j, maxAttempts)
  {
    if e.CancelWrites? {
      CancelAddsNoWork(j.row.value, j.pc, maxAttempts);
    } else {
      assert Next(j, e, maxAttempts).value.row == j.row;
    }
  }

  lemma {:induction false} CancelAddsNoWork(row: Row, pc: Pc, maxAttempts: int)
    ensures Position(Apply(row, SetStatus(Cancelled)), pc, maxAttempts) <= Position(row, pc, maxAttempts)
    decreases pc
  {
    if pc.Emit? {
      CancelAddsNoWork(row, pc.next, maxAttempts);
    }
  }

  /** How many of these events are handler steps that change something, up to the first that cannot
      happen. */
  function StepsTaken(j: Job, es: seq<Event>, maxAttempts: int): nat
    decreases es
  {
    if es == [] then 0
    else match Next(j, es[0], maxAttempts)
         case None => 0
         case Some(k) => (if es[0].Step? && k != j then 1 else 0) + StepsTaken(k, es[1..], maxAttempts)
  }

  lemma {:induction false} WorkBoundsSteps(j: Job, es: seq<Event>, maxAttempts: int)
    requires j.row.Some? && forall e <- es :: DuringCall(e)
    ensures StepsTaken(j, es, maxAttempts) <= Work(j, maxAttempts)
    decreases es
  {
    if es != [] && Next(j, es[0], maxAttempts).Some? {
      assert DuringCall(es[0]);
      if es[0].Step? { StepWorks(j, es[0].outcome, maxAttempts); } else { EventAddsNoWork(j, es[0], maxAttempts); }
      WorkBoundsSteps(Next(j, es[0], maxAttempts).value, es[1..], maxAttempts);
    }
  }

  /** However cancels and the spool interleave and whatever is answered, one assignment takes a number of
      steps linear in `max_attempts`, polls without news aside. */
  lemma AssignmentTerminates(j: Job, job: Assignment, es: seq<Event>, maxAttempts: int)
    requires forall e <- es :: DuringCall(e)
    ensures StepsTaken(Assigned(j, job), es, maxAttempts) <= 23 * Max(maxAttempts, 0) + 24
  {
    WorkBoundsSteps(Assigned(j, job), es, maxAttempts);
    var start := Assigned(j, job);
    AssignmentWork(j, job, maxAttempts);
  }

  lemma AssignmentWork(j: Job, job: Assignment, maxAttempts: int)
    ensures Work(Assigned(j, job), maxAttempts) <= 23 * Max(maxAttempts, 0) + 24
  {
    var start := Assigned(j, job);
    assert Max(maxAttempts - start.row.value.attemptCount, 0) <= Max(maxAttempts, 0);
    assert Position(start.row.value, start.pc, maxAttempts) <= 24;
  }
}
