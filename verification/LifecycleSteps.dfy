/** What one event may change in a job that meets the invariant. */
module LifecycleSteps {
  import opened Wrappers
  import opened Models
  import opened Lifecycle
  import opened LifecycleInvariant

  /** A row is never lost, its printer id is written once, its attempts are never taken back, a terminal
      status is final, and a new `lp` starts only for a READY row without an id, with its file in place. */
  predicate Advances(j: Job, k: Job) {
    && (j.row.Some? ==>
          && k.row.Some?
          && (Terminal(j.row.value.status) ==> k.row.value.status == j.row.value.status)
          && (j.row.value.cupsJobId.Some? ==> k.row.value.cupsJobId == j.row.value.cupsJobId)
          && j.row.value.attemptCount <= k.row.value.attemptCount)
    && j.crashes <= k.crashes
    && (Prints(k) > Prints(j) ==> LpAllowed(j))
    && (k.running > j.running ==> LpAllowed(j))
  }

  predicate LpAllowed(j: Job) {
    && j.row.Some? && j.row.value.status == JobStatus.Ready && j.row.value.cupsJobId.None?
    && HasFile(j, j.row.value.filePath)
    && Prints(j) == 0
  }

  lemma EventAdvances(j: Job, e: Event, maxAttempts: int)
    requires Inv(j, maxAttempts) && Truthful(j, e) && Next(j, e, maxAttempts).Some?
    ensures Advances(j, Next(j, e, maxAttempts).value)
  {
    if e.Step? {
      StepAdvances(j, e.outcome, maxAttempts);
    }
  }

  lemma StepAdvances(j: Job, o: Outcome, maxAttempts: int)
    requires Stepping(j, o, maxAttempts)
    ensures Advances(j, Handle(j, o, maxAttempts).value)
  {
    if j.pc.Pipeline? { DownloadAdvances(j, o, maxAttempts); }
    else if j.pc.Retry? { RetryAdvances(j, o, maxAttempts); }
    else if j.pc.Recovery? { RecoveryAdvances(j, o, maxAttempts); }
    else if j.pc.Submission? { SubmissionAdvances(j, o, maxAttempts); }
    else { EndAdvances(j, o, maxAttempts); }
  }

  lemma DownloadAdvances(j: Job, o: Outcome, maxAttempts: int)
    requires Stepping(j, o, maxAttempts)
    requires j.pc.Pipeline?
    ensures Advances(j, Handle(j, o, maxAttempts).value)
  {
  }

  lemma RetryAdvances(j: Job, o: Outcome, maxAttempts: int)
    requires Stepping(j, o, maxAttempts)
    requires j.pc.Retry?
    ensures Advances(j, Handle(j, o, maxAttempts).value)
  {
  }

  lemma RecoveryAdvances(j: Job, o: Outcome, maxAttempts: int)
    requires Stepping(j, o, maxAttempts)
    requires j.pc.Recovery?
    ensures Advances(j, Handle(j, o, maxAttempts).value)
  {
  }

  lemma SubmissionAdvances(j: Job, o: Outcome, maxAttempts: int)
    requires Stepping(j, o, maxAttempts)
    requires j.pc.Submission?
    ensures Advances(j, Handle(j, o, maxAttempts).value)
  {
  }

  lemma EndAdvances(j: Job, o: Outcome, maxAttempts: int)
    requires Stepping(j, o, maxAttempts)
    requires j.pc.Monitoring? || j.pc.Failing? || j.pc.Emit?
    ensures Advances(j, Handle(j, o, maxAttempts).value)
  {
  }

  /** A record that carries a printer id, or SUBMITTED or PRINTING without one, would be refused as a
      possible duplicate print. The handler never stands before such a record. */
  predicate RefusesDuplicate(j: Job) {
    match j.pc
    case Pipeline(_, Start(record, _)) => record.cupsJobId.Some?
    case Retry(_, Sleep(record)) => record.cupsJobId.Some?
    case Submission(_, _, _, SubmitError(_)) => j.row.Some? && j.row.value.cupsJobId.Some?
    case Idle =>
      j.row.Some? && (j.row.value.status == Submitted || j.row.value.status == Printing) && j.row.value.cupsJobId.None?
    case _ => false
  }

  lemma RefusalUnreachable(j: Job, maxAttempts: int)
    requires Inv(j, maxAttempts)
    ensures !RefusesDuplicate(j)
  {
  }

  /** Recovery of a row whose file is gone: at the printer it is watched without a file, and READY, which
      lost its file to an interrupted failure, becomes FAILED in two steps. */
  lemma MissingFileRecovery(j: Job, job: Assignment, maxAttempts: int)
    requires Inv(j, maxAttempts) && j.row.Some? && j.pc.Idle? && !HasFile(j, j.row.value.filePath)
    ensures j.row.value.status in {Submitted, Printing} ==>
              && j.row.value.cupsJobId.Some?
              && ResumePc(j, job, j.row.value) == Monitoring(false, j.row.value.cupsJobId.value, Poll(None))
    ensures j.row.value.status == JobStatus.Ready ==>
              && j.failedMove && j.completed == {}
              && var start := j.(pc := ResumePc(j, job, j.row.value));
                 var moved := Handle(start, Go, maxAttempts);
                 moved.Some? && var done := Handle(moved.value, Go, maxAttempts);
                 done.Some? && done.value.row == Some(j.row.value.(status := Failed))
  {
  }

  /** A last report is only ever made about a finished row, and none before an exception leaves the handler. */
  predicate EndsOver(j: Job) {
    j.pc.Emit? ==>
      && !j.pc.next.Raised?
      && (j.pc.next.Idle? ==> j.row.Some? && Terminal(j.row.value.status))
  }

  /** What a call leaves behind: on its own it ends over a finished row, or a READY one whose printer was not
      available; an exception leaves it only once the file is ready. */
  predicate EndsWell(j: Job) {
    && (j.pc.Idle? ==> j.row.Some? && (Terminal(j.row.value.status) || j.row.value.status == JobStatus.Ready))
    && (j.pc.Raised? ==> j.row.Some? && !BeforeReady(j.row.value.status))
  }

  lemma StepEndsWell(j: Job, o: Outcome, maxAttempts: int)
    requires Stepping(j, o, maxAttempts) && EndsOver(j)
    ensures EndsOver(Handle(j, o, maxAttempts).value) && EndsWell(Handle(j, o, maxAttempts).value)
  {
    if j.pc.Pipeline? || j.pc.Retry? { DownloadEndsWell(j, o, maxAttempts); }
    else if j.pc.Recovery? { RecoveryEndsWell(j, o, maxAttempts); }
    else if j.pc.Submission? { SubmissionEndsWell(j, o, maxAttempts); }
    else if j.pc.Monitoring? { MonitoringEndsWell(j, o, maxAttempts); }
    else { LastStepsEndWell(j, o, maxAttempts); }
  }

  lemma DownloadEndsWell(j: Job, o: Outcome, maxAttempts: int)
    requires Stepping(j, o, maxAttempts) && EndsOver(j) && (j.pc.Pipeline? || j.pc.Retry?)
    ensures EndsOver(Handle(j, o, maxAttempts).value) && EndsWell(Handle(j, o, maxAttempts).value)
  {
  }

  lemma RecoveryEndsWell(j: Job, o: Outcome, maxAttempts: int)
    requires Stepping(j, o, maxAttempts) && EndsOver(j) && j.pc.Recovery?
    ensures EndsOver(Handle(j, o, maxAttempts).value) && EndsWell(Handle(j, o, maxAttempts).value)
  {
  }

  lemma SubmissionEndsWell(j: Job, o: Outcome, maxAttempts: int)
    requires Stepping(j, o, maxAttempts) && EndsOver(j) && j.pc.Submission?
    ensures EndsOver(Handle(j, o, maxAttempts).value) && EndsWell(Handle(j, o, maxAttempts).value)
  {
  }

  lemma MonitoringEndsWell(j: Job, o: Outcome, maxAttempts: int)
    requires Stepping(j, o, maxAttempts) && EndsOver(j) && j.pc.Monitoring?
    ensures EndsOver(Handle(j, o, maxAttempts).value) && EndsWell(Handle(j, o, maxAttempts).value)
  {
  }

  lemma LastStepsEndWell(j: Job, o: Outcome, maxAttempts: int)
    requires Stepping(j, o, maxAttempts) && EndsOver(j) && (j.pc.Failing? || j.pc.Emit?)
    ensures EndsOver(Handle(j, o, maxAttempts).value) && EndsWell(Handle(j, o, maxAttempts).value)
  {
  }

  /** What interleaves with a call does not change where it may end. */
  lemma InterleavingKeepsEnd(j: Job, e: Event, maxAttempts: int)
    requires EndsOver(j) && DuringCall(e) && !e.Step? && Next(j, e, maxAttempts).Some?
    ensures EndsOver(Next(j, e, maxAttempts).value) && Next(j, e, maxAttempts).value.pc == j.pc
  {
  }

  /** Under truthful answers, the id the agent adopts or stores is one CUPS has given this job. */
  predicate Known(j: Job, pc: Pc) {
    match pc
    case Recovery(_, _, Existing(id)) => id in j.spool
    case Recovery(_, _, ChooseMonitor(id)) => id in j.spool
    case Submission(_, _, _, StoreCupsId(id)) => id in j.spool
    case Submission(_, _, _, MarkSubmitted(id)) => id in j.spool
    case Recovery(_, _, ResumeReady(record)) => record.cupsJobId.Some? ==> record.cupsJobId.value in j.spool
    case Monitoring(_, id, _) => id in j.spool
    case Emit(_, _) => false
    case _ => true
  }

  predicate IdInv(j: Job) {
    && (j.row.Some? && j.row.value.cupsJobId.Some? ==> j.row.value.cupsJobId.value in j.spool)
    && Known(j, if j.pc.Emit? then j.pc.next else j.pc)
  }

  /** A lookup that answers with an id answers with one CUPS accepted for this job. */
  predicate FoundIsOurs(j: Job, e: Event) {
    e.Step? && e.outcome.LookupFound? ==> e.outcome.id in j.spool
  }

  lemma EventKeepsIdInv(j: Job, e: Event, maxAttempts: int)
    requires IdInv(j) && FoundIsOurs(j, e) && Next(j, e, maxAttempts).Some?
    requires e.Resume? ==> j.row == Some(e.record)
    ensures IdInv(Next(j, e, maxAttempts).value)
  {
    if e.Step? {
      StepKeepsIdInv(j, e.outcome, maxAttempts);
    }
  }

  lemma StepKeepsIdInv(j: Job, o: Outcome, maxAttempts: int)
    requires IdInv(j) && FoundIsOurs(j, Step(o)) && j.row.Some?
    requires Handle(j, o, maxAttempts).Some?
    ensures IdInv(Handle(j, o, maxAttempts).value)
  {
    if j.pc.Recovery? { RecoveryKeepsIdInv(j, o, maxAttempts); }
    else if j.pc.Submission? { SubmissionKeepsIdInv(j, o, maxAttempts); }
    else if j.pc.Pipeline? || j.pc.Retry? { DownloadKeepsIdInv(j, o, maxAttempts); }
    else { EndKeepsIdInv(j, o, maxAttempts); }
  }

  lemma RecoveryKeepsIdInv(j: Job, o: Outcome, maxAttempts: int)
    requires IdInv(j) && FoundIsOurs(j, Step(o)) && j.row.Some?
    requires Handle(j, o, maxAttempts).Some? && j.pc.Recovery?
    ensures IdInv(Handle(j, o, maxAttempts).value)
  {
  }

  lemma SubmissionKeepsIdInv(j: Job, o: Outcome, maxAttempts: int)
    requires IdInv(j) && FoundIsOurs(j, Step(o)) && j.row.Some?
    requires Handle(j, o, maxAttempts).Some? && j.pc.Submission?
    ensures IdInv(Handle(j, o, maxAttempts).value)
  {
  }

  lemma DownloadKeepsIdInv(j: Job, o: Outcome, maxAttempts: int)
    requires IdInv(j) && j.row.Some?
    requires Handle(j, o, maxAttempts).Some? && (j.pc.Pipeline? || j.pc.Retry?)
    ensures IdInv(Handle(j, o, maxAttempts).value)
  {
  }

  lemma EndKeepsIdInv(j: Job, o: Outcome, maxAttempts: int)
    requires IdInv(j) && j.row.Some?
    requires Handle(j, o, maxAttempts).Some? && (j.pc.Monitoring? || j.pc.Failing? || j.pc.Emit?)
    ensures IdInv(Handle(j, o, maxAttempts).value)
  {
  }
}
