/** The job statuses and the table of transitions the store accepts (app/models.py). */
module Models {
  datatype JobStatus =
    | Received
    | Downloading
    | Ready
    | Submitted
    | Printing
    | Completed
    | Failed
    | Cancelled
    | RetryWaiting

  predicate Terminal(s: JobStatus) {
    s.Completed? || s.Failed? || s.Cancelled?
  }

  /** Statuses of a job that has not reached the printer yet and may still download. */
  predicate BeforeReady(s: JobStatus) {
    s.Received? || s.Downloading? || s.RetryWaiting?
  }

  /** Statuses of a job that the printer has accepted. */
  predicate AtPrinter(s: JobStatus) {
    s.Submitted? || s.Printing? || s.Completed?
  }

  function AllowedTransitions(s: JobStatus): set<JobStatus> {
    match s
    case Received => {Downloading, Failed, Cancelled}
    case Downloading => {JobStatus.Ready, Failed, RetryWaiting, Cancelled}
    case Ready => {Submitted, Failed}
    case Submitted => {Printing, Completed, Failed, Cancelled}
    case Printing => {Completed, Failed, Cancelled}
    case RetryWaiting => {Downloading, Failed, Cancelled}
    case Completed => {}
    case Failed => {}
    case Cancelled => {}
  }

  /** `assert_transition` returns; otherwise it raises InvalidTransitionError. */
  predicate CanTransition(current: JobStatus, next: JobStatus) {
    current == next || next in AllowedTransitions(current)
  }

  /** The statuses a status can be entered from. */
  function Sources(s: JobStatus): set<JobStatus> {
    match s
    case Received => {}
    case Downloading => {Received, RetryWaiting}
    case RetryWaiting => {Downloading}
    case Ready => {Downloading}
    case Submitted => {JobStatus.Ready}
    case Printing => {Submitted}
    case Completed => {Submitted, Printing}
    case Failed => {Received, Downloading, RetryWaiting, JobStatus.Ready, Submitted, Printing}
    case Cancelled => {Received, Downloading, RetryWaiting, Submitted, Printing}
  }

  /** The table read backwards: every status that is not terminal may fail, and each of these but READY may be
      cancelled; a status that is left for none is terminal. */
  lemma TableBySource(a: JobStatus, b: JobStatus)
    ensures b in AllowedTransitions(a) <==> a in Sources(b)
    ensures CanTransition(a, b) <==> a == b || a in Sources(b)
    ensures Terminal(a) <==> AllowedTransitions(a) == {}
    ensures BeforeReady(a) <==> a in {Received, Downloading, RetryWaiting}
    ensures AtPrinter(a) <==> a in {Submitted, Printing, Completed}
  {
    assert AllowedTransitions(a) != {} <==> Failed in AllowedTransitions(a);
  }
}
