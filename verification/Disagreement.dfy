/** How far a report may ever be from the store, over every run: with cancels, failures, crashes and restarts. */
module Disagreement {
  import opened Wrappers
  import opened Models
  import opened Store
  import L = Lifecycle
  import opened LifecycleInvariant
  import opened Agent

  /** A write, and the report that follows it: they agree unless a cancel came first or in between, or a READY row's
      retry was refused. */
  predicate Agrees(status: JobStatus, stored: JobStatus) {
    stored == status || stored == Cancelled || (status == RetryWaiting && stored == JobStatus.Ready)
  }

  /** A report agrees like this, or is that of a cancel the table refused to a row that was READY or further. */
  predicate Explained(r: L.Report) {
    Agrees(r.status, r.stored) || (r.status == Cancelled && !BeforeReady(r.stored))
  }

  /** What keeps the next report explained. */
  predicate Prepared(j: Job) {
    j.row.Some? ==>
      var status := j.row.value.status;
      && (j.pc.Emit? ==> Agrees(j.pc.status, status) && !j.pc.next.Failing?)
      && (j.pc.Failing? ==> status != Completed)
      && (j.cancel.CancelReport? ==> !BeforeReady(status))
  }

  ghost predicate ExplainedInv(j: Job) {
    (forall r <- j.reports :: Explained(r)) && Prepared(j)
  }

  /** A step at a position that meets its invariant. */
  predicate Standing(j: Job, o: L.Outcome, maxAttempts: int) {
    j.row.Some? && PcInv(j, maxAttempts) && Prepared(j) && L.Handle(j, o, maxAttempts).Some?
  }

  /** A step that reports nothing. */
  predicate Silent(j: Job, k: Job) {
    k.reports == j.reports && Prepared(k)
  }

  lemma PipelineStaysPrepared(j: Job, o: L.Outcome, maxAttempts: int)
    requires Standing(j, o, maxAttempts) && j.pc.Pipeline?
    ensures Silent(j, L.Handle(j, o, maxAttempts).value)
  {
  }

  lemma RetryStaysPrepared(j: Job, o: L.Outcome, maxAttempts: int)
    requires Standing(j, o, maxAttempts) && j.pc.Retry?
    ensures Silent(j, L.Handle(j, o, maxAttempts).value)
  {
  }

  lemma RecoveryStaysPrepared(j: Job, o: L.Outcome, maxAttempts: int)
    requires Standing(j, o, maxAttempts) && j.pc.Recovery?
    ensures Silent(j, L.Handle(j, o, maxAttempts).value)
  {
  }

  lemma SubmissionStaysPrepared(j: Job, o: L.Outcome, maxAttempts: int)
    requires Standing(j, o, maxAttempts) && j.pc.Submission?
    ensures Silent(j, L.Handle(j, o, maxAttempts).value)
  {
  }

  lemma MonitoringStaysPrepared(j: Job, o: L.Outcome, maxAttempts: int)
    requires Standing(j, o, maxAttempts) && j.pc.Monitoring?
    ensures Silent(j, L.Handle(j, o, maxAttempts).value)
  {
  }

  lemma FailingStaysPrepared(j: Job, o: L.Outcome, maxAttempts: int)
    requires Standing(j, o, maxAttempts) && j.pc.Failing?
    ensures Silent(j, L.Handle(j, o, maxAttempts).value)
  {
  }

  lemma StepStaysExplained(j: Job, o: L.Outcome, maxAttempts: int)
    requires Standing(j, o, maxAttempts) && ExplainedInv(j)
    ensures ExplainedInv(L.Handle(j, o, maxAttempts).value)
  {
    match j.pc
    case Idle =>
    case Raised =>
    case Pipeline(_, _) => PipelineStaysPrepared(j, o, maxAttempts);
    case Retry(_, _) => RetryStaysPrepared(j, o, maxAttempts);
    case Recovery(_, _, _) => RecoveryStaysPrepared(j, o, maxAttempts);
    case Submission(_, _, _, _) => SubmissionStaysPrepared(j, o, maxAttempts);
    case Monitoring(_, _, _) => MonitoringStaysPrepared(j, o, maxAttempts);
    case Failing(_) => FailingStaysPrepared(j, o, maxAttempts);
    case Emit(status, _) => assert Explained(L.Report(status, j.row.value.status, j.row.value.cupsJobId));
  }

  lemma CancelStaysExplained(j: Job, e: Event, maxAttempts: int)
    requires ExplainedInv(j) && IsCancel(e) && L.Next(j, e, maxAttempts).Some?
    ensures ExplainedInv(L.Next(j, e, maxAttempts).value)
  {
    if e.CancelReports? {
      assert Explained(L.Report(Cancelled, j.row.value.status, j.row.value.cupsJobId));
    }
  }

  lemma EventStaysExplained(j: Job, e: Event, maxAttempts: int)
    requires Inv(j, maxAttempts) && ExplainedInv(j) && L.Next(j, e, maxAttempts).Some?
    requires e.Resume? ==> j.row == Some(e.record)
    ensures ExplainedInv(L.Next(j, e, maxAttempts).value)
  {
    if e.Step? {
      StepStaysExplained(j, e.outcome, maxAttempts);
    } else if IsCancel(e) {
      CancelStaysExplained(j, e, maxAttempts);
    }
  }

  lemma {:induction false} RunStaysExplained(
    states: seq<State>, labels: seq<Label>, maxAttempts: int, i: nat, id: JobId)
    requires TruthfulRun(states, labels, maxAttempts) && i < |states|
    ensures ExplainedInv(JobOf(states[i], id))
  {
    if i > 0 {
      var s, l := states[i - 1], labels[i - 1];
      assert Next(s, l, maxAttempts) == Some(states[i - 1 + 1]);
      RunStaysExplained(states, labels, maxAttempts, i - 1, id);
      RunKeepsInv(states, labels, maxAttempts, i - 1);
      NewJobInv(maxAttempts);
      LabelIsJobEvent(s, l, id, maxAttempts);
      match EventFor(s, l, id)
      case None =>
      case Some(e) => EventStaysExplained(JobOf(s, id), e, maxAttempts);
    }
  }

  /** Every report of every run equals the store, or is about a row that a cancel made CANCELLED, or reports a
      CANCELLED that came too late for a row at least READY, or a RETRY_WAITING that a READY row refused. */
  lemma ReportsAreExplained(states: seq<State>, labels: seq<Label>, maxAttempts: int, i: nat, id: JobId)
    requires TruthfulRun(states, labels, maxAttempts) && i < |states|
    ensures forall r <- JobOf(states[i], id).reports ::
              || r.status == r.stored
              || r.stored == Cancelled
              || (r.status == Cancelled && !BeforeReady(r.stored))
              || (r.status == RetryWaiting && r.stored == JobStatus.Ready)
  {
    RunStaysExplained(states, labels, maxAttempts, i, id);
  }
}
