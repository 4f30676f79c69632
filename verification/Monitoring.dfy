/** The monitor loop of one submitted job (app/job_manager.py): the handler's polls, with the settling timer
    deciding what a COMPLETED poll means. */
module Monitoring {
  import opened Wrappers
  import opened Models
  import Printer
  import opened Settling
  import L = Lifecycle
  import opened LifecycleInvariant
  import opened HandlerRuns
  import Outcomes
  import JobManager

  /** Everything one poll may meet: what happens before it, the polled state, the two looks, the clock and the
      checker, and the answers and interleavings that follow until the next poll. */
  datatype Poll = Poll(
    before: seq<L.Event>,
    state: Printer.PrinterJobState,
    now: real,
    first: Look,
    last: Look,
    checkerOk: bool,
    after: seq<L.Event>)

  /** What the handler is told of a poll. */
  function OutcomeOf(poll: Poll, settled: bool): L.Outcome {
    match poll.state
    case Pending => L.PollNoNews
    case Unknown => L.PollNoNews
    case Printing => L.PollPrinting
    case Completed => L.PollCompleted(settled)
    case Failed => L.PollFailed
    case Cancelled => L.PollFailed
  }

  /** What an uninterrupted poll makes of a job at the printer. */
  function PollResult(j: L.Job, poll: Poll, settled: bool): L.Job
    requires j.row.Some? && j.pc.Monitoring? && j.pc.monitor.Poll?
  {
    var status := j.row.value.status;
    match poll.state
    case Pending => j
    case Unknown => j
    case Failed => FailedJob(j)
    case Cancelled => FailedJob(j)
    case Printing =>
      if status.Printing? then j
      else if CanTransition(status, Printing) then Ended(j, Printing).(pc := j.pc)
      else Raising(j, j.pc.inTry)
    case Completed =>
      if !settled then j
      else if CanTransition(status, Completed) then Ended(Moved(j), Completed)
      else Raising(Moved(j), j.pc.inTry)
  }

  /** The handler's steps make of an uninterrupted poll exactly that: status, files, reports and where the
      handler goes. */
  lemma PollMatchesLifecycle(j: L.Job, poll: Poll, settled: bool, n: nat, maxAttempts: int)
    requires n >= 6 && j.row.Some? && j.pc.Monitoring? && j.pc.monitor.Poll? && OnPrinter(j.row.value, j.pc.id)
    ensures RunAll(j, [L.Step(OutcomeOf(poll, settled))] + Plain(n, []), maxAttempts) == PollResult(j, poll, settled)
  {
    match poll.state
    case Pending => WatchingRuns(j, L.PollNoNews, n, maxAttempts);
    case Unknown => WatchingRuns(j, L.PollNoNews, n, maxAttempts);
    case Failed => FailedRuns(j, n, maxAttempts);
    case Cancelled => FailedRuns(j, n, maxAttempts);
    case Printing => PrintingRuns(j, n, maxAttempts);
    case Completed =>
      if !settled { WatchingRuns(j, L.PollCompleted(false), n, maxAttempts); }
      else if j.row.value.status.Cancelled? { RefusedRuns(j, n, maxAttempts); }
      else { CompletionRuns(j, n, maxAttempts); }
  }

  /** So, state by state, for a job that is SUBMITTED or PRINTING: a failed or cancelled print fails it, a pending or
      unknown one is watched on, a printing one is PRINTING, and a completed one is COMPLETED once it has settled. */
  lemma PollByState(j: L.Job, poll: Poll, settled: bool, maxAttempts: int)
    requires j.row.Some? && j.pc.Monitoring? && j.pc.monitor.Poll? && j.row.value.cupsJobId == Some(j.pc.id)
    requires j.row.value.status in {Submitted, JobStatus.Printing}
    ensures var k := RunAll(j, [L.Step(OutcomeOf(poll, settled))] + Plain(6, []), maxAttempts);
            && (poll.state in {Printer.PrinterJobState.Failed, Printer.PrinterJobState.Cancelled} ==> k == FailedJob(j))
            && (poll.state in {Printer.PrinterJobState.Pending, Printer.PrinterJobState.Unknown} ==> k == j)
            && (poll.state == Printer.PrinterJobState.Printing ==>
                  k == if j.row.value.status == JobStatus.Printing then j else Outcomes.Stated(j, JobStatus.Printing))
            && (poll.state == Printer.PrinterJobState.Completed ==>
                  k == if settled then Outcomes.Stated(Moved(j), JobStatus.Completed).(pc := L.Idle) else j)
  {
    PollMatchesLifecycle(j, poll, settled, 6, maxAttempts);
  }

  lemma WatchingRuns(j: L.Job, o: L.Outcome, n: nat, maxAttempts: int)
    requires j.row.Some? && n >= 6 && j.pc.Monitoring? && j.pc.monitor.Poll? && j.row.value.status != Completed
    requires o == L.PollNoNews || o == L.PollCompleted(false) || (o == L.PollPrinting && j.row.value.status.Printing?)
    ensures RunAll(j, [L.Step(o)] + Plain(n, []), maxAttempts) == j
  {
    RunOne(j, L.Step(o), Plain(n, []), maxAttempts);
  }

  lemma FailedRuns(j: L.Job, n: nat, maxAttempts: int)
    requires j.row.Some? && n >= 6 && j.pc.Monitoring? && j.pc.monitor.Poll?
    ensures RunAll(j, [L.Step(L.PollFailed)] + Plain(n, []), maxAttempts) == FailedJob(j)
  {
    RunOne(j, L.Step(L.PollFailed), Plain(n, []), maxAttempts);
    FailureRuns(j.(pc := L.Failing(L.MoveToFailed)), n, maxAttempts);
    RaisingForgetsPlace(j, L.Failing(L.MoveToFailed), true);
  }

  lemma PrintingRuns(j: L.Job, n: nat, maxAttempts: int)
    requires j.row.Some? && n >= 6 && j.pc.Monitoring? && j.pc.monitor.Poll? && OnPrinter(j.row.value, j.pc.id)
    ensures RunAll(j, [L.Step(L.PollPrinting)] + Plain(n, []), maxAttempts)
            == (if j.row.value.status.Printing? then j
                else if CanTransition(j.row.value.status, Printing) then Ended(j, Printing).(pc := j.pc)
                else Raising(j, j.pc.inTry))
  {
    if j.row.value.status.Printing? {
      WatchingRuns(j, L.PollPrinting, n, maxAttempts);
    } else {
      RunOne(j, L.Step(L.PollPrinting), Plain(n, []), maxAttempts);
      var k := L.Next(j, L.Step(L.PollPrinting), maxAttempts).value;
      if k.pc.Failing? {
        FailureRuns(k, n, maxAttempts);
      } else if k.pc.Emit? {
        var told := RunPlain(k, n, [], maxAttempts);
      }
    }
  }

  /** A settled job that was cancelled meanwhile: its file has moved before the table refuses COMPLETED. */
  lemma RefusedRuns(j: L.Job, n: nat, maxAttempts: int)
    requires j.row.Some? && n >= 6 && j.pc.Monitoring? && j.pc.monitor.Poll? && j.row.value.status.Cancelled?
    ensures RunAll(j, [L.Step(L.PollCompleted(true))] + Plain(n, []), maxAttempts) == Raising(Moved(j), j.pc.inTry)
  {
    var marking := L.Monitoring(j.pc.inTry, j.pc.id, L.MarkCompleted);
    CompletionMoves(j, n, maxAttempts);
    RefusedMarkRuns(Moved(j).(pc := marking), n - 1, maxAttempts);
    RaisingForgetsPlace(Moved(j), marking, j.pc.inTry);
  }

  lemma RefusedMarkRuns(j: L.Job, n: nat, maxAttempts: int)
    requires j.row.Some? && n >= 5 && j.pc.Monitoring? && j.pc.monitor.MarkCompleted? && j.row.value.status.Cancelled?
    ensures RunAll(j, Plain(n, []), maxAttempts) == Raising(j, j.pc.inTry)
  {
    var refused := RunPlain(j, n, [], maxAttempts);
    if j.pc.inTry {
      FailureRuns(refused, n - 1, maxAttempts);
    }
  }

  /** A COMPLETED poll with no cancel or spool event around it, and with the callback content. */
  predicate Calm(poll: Poll) {
    poll.state.Completed? && poll.before == [] && poll.after == Plain(3, [])
  }

  /** From here on nothing interferes: the printer always answers COMPLETED, every look is clean, the checker and
      the callback are content, and the clock advances at least `d` between polls. */
  ghost predicate QuietPolls(polls: seq<Poll>, d: real) {
    && d > 0.0
    && (forall p <- polls :: Calm(p) && Clean(p.first) && Clean(p.last) && p.checkerOk)
    && (forall i :: 0 <= i < |polls| - 1 ==> polls[i].now + d <= polls[i + 1].now)
  }

  lemma {:induction false} ClockAdvances(polls: seq<Poll>, d: real, i: nat)
    requires QuietPolls(polls, d) && i < |polls|
    ensures polls[i].now >= polls[0].now + i as real * d
  {
    if i > 0 {
      ClockAdvances(polls, d, i - 1);
      assert polls[i - 1].now + d <= polls[i - 1 + 1].now;
      assert i as real * d == (i - 1) as real * d + d;
    }
  }

  /** A clean evaluation that is not the last word keeps, or starts, a quiet time. */
  lemma QuietAfterEvaluation(h: seq<Observation>, ob: Observation, o: Owner, start: real)
    requires ob.Evaluated? && ob.owner == o && !Disturbs(ob, o)
    requires (exists t :: QuietSince(h, o, t) && t <= start) || ((forall t :: !QuietSince(h, o, t)) && ob.now <= start)
    ensures exists t :: QuietSince(h + [ob], o, t) && t <= start
  {
    if t :| QuietSince(h, o, t) && t <= start {
      QuietContinues(h, ob, o, t);
    } else {
      QuietStarts(h, ob, o, ob.now);
      assert QuietSince(h + [ob], o, ob.now);
    }
  }

  function PollPc(o: Owner, inTry: bool, file: Option<L.Path>): L.Pc {
    L.Monitoring(inTry, o.printerJob, L.Poll(file))
  }

  class JobMonitor {
    const manager: JobManager.JobManager
    const timer: CompletionTimer

    constructor (manager: JobManager.JobManager, timer: CompletionTimer)
      ensures this.manager == manager && this.timer == timer
    {
      this.manager := manager;
      this.timer := timer;
    }

    ghost predicate Watching()
      reads this, manager, manager.db, timer
    {
      timer.Valid() && manager.Valid()
    }

    /** Whether the history lets the owner complete at this poll. */
    ghost predicate Settles(o: Owner, poll: Poll)
      reads this, timer
    {
      && Clean(poll.first) && poll.checkerOk
      && (timer.stableSeconds > 0.0 ==>
            Clean(poll.last) && exists t :: QuietSince(timer.history, o, t) && poll.now - t >= timer.stableSeconds)
    }

    /** What the poll says, with the timer kept: PRINTING resets it, a COMPLETED poll of a job that is not yet
        COMPLETED is evaluated, and UNKNOWN and PENDING leave it alone. */
    method Observe(o: Owner, poll: Poll, status: JobStatus) returns (outcome: L.Outcome)
      requires timer.Valid()
      modifies timer
      ensures timer.Valid() && outcome == OutcomeOf(poll, old(Settles(o, poll)) && status != Completed)
      ensures poll.state.Unknown? || poll.state.Pending? ==> timer.slot == old(timer.slot)
      ensures !poll.state.Printing? && !(poll.state.Completed? && status != Completed) ==>
                timer.history == old(timer.history)
      ensures poll.state.Printing? ==> timer.history == old(timer.history) + [PolledPrinting(o)]
      ensures poll.state.Completed? && status != Completed ==>
                Evaluates(old(timer.history), timer.history, o, poll, old(Settles(o, poll)))
    {
      match poll.state {
        case Unknown => outcome := L.PollNoNews;
        case Pending => outcome := L.PollNoNews;
        case Failed => outcome := L.PollFailed;
        case Cancelled => outcome := L.PollFailed;
        case Printing =>
          timer.PolledPrintingResets(o);
          outcome := L.PollPrinting;
        case Completed =>
          var ready := false;
          if status != Completed {
            ready := timer.Evaluate(o, poll.now, poll.first, poll.last, poll.checkerOk);
          }
          outcome := L.PollCompleted(ready);
      }
    }

    /** One poll, `_process_printer_poll_status` with the timer: the handler does what the lifecycle does for the
        outcome the history allows. */
    method ProcessPoll(o: Owner, poll: Poll, inTry: bool, file: Option<L.Path>) returns (done: bool, at: L.Pc)
      requires Watching() && forall e <- poll.before :: !e.Step?
      modifies manager, manager.db, timer
      ensures Watching() && manager.Others() == old(manager.Others())
      ensures var pc := PollPc(o, inTry, file);
              var j := RunAll(old(manager.View(pc)), poll.before, manager.maxAttempts);
              && j.row.Some?
              && var settled := old(Settles(o, poll)) && j.row.value.status != Completed;
                 var goal := RunAll(j, [L.Step(OutcomeOf(poll, settled))] + poll.after, manager.maxAttempts);
                 && (if done then manager.View(at) == goal
                     else at == pc && RunAll(manager.View(pc), manager.events, manager.maxAttempts) == goal)
                 && (!poll.state.Printing? ==>
                       var watches := JobManager.WatchesOn(OutcomeOf(poll, settled), j.row.value.status);
                       done == !watches && (watches ==> manager.View(pc) == j))
                 && (poll.state.Completed? && j.row.value.status != Completed ==>
                       Evaluates(old(timer.history), timer.history, o, poll, settled))
    {
      var pc := PollPc(o, inTry, file);
      manager.events := poll.before;
      var none := manager.Await(pc);
      ghost var j := manager.View(pc);
      var outcome := Observe(o, poll, manager.db.rows[manager.id].status);
      manager.events := [L.Step(outcome)] + poll.after;
      done, at := manager.ProcessPoll(inTry, o.printerJob, file);
    }

    /** The owner has been quiet since `start` or earlier. */
    ghost predicate QuietBy(o: Owner, start: real)
      reads timer
    {
      exists t :: QuietSince(timer.history, o, t) && t <= start
    }

    /** What the loop knows before poll `i` of a quiet sequence. */
    ghost predicate QuietAt(o: Owner, polls: seq<Poll>, i: nat, d: real, n: nat)
      reads this, manager, manager.db, timer
    {
      && Watching()
      && QuietPolls(polls, d) && i <= n < |polls| && n as real * d >= timer.stableSeconds
      && AtPrinterNow()
      && (if i == 0 then forall t :: QuietSince(timer.history, o, t) ==> t <= polls[0].now
          else timer.stableSeconds > 0.0 && QuietBy(o, polls[0].now))
    }

    ghost predicate AtPrinterNow()
      requires manager.Valid()
      reads this, manager, manager.db
    {
      var status := manager.View(L.Idle).row.value.status;
      status.Submitted? || status.Printing?
    }

    lemma TimeIsUp(o: Owner, polls: seq<Poll>, d: real, n: nat)
      requires QuietAt(o, polls, n, d, n)
      ensures Settles(o, polls[n])
    {
      ClockAdvances(polls, d, n);
    }

    /** A COMPLETED poll that nothing interrupts ends the job, or the loop goes on with the job as it was. */
    method CalmPoll(o: Owner, poll: Poll, inTry: bool, file: Option<L.Path>) returns (done: bool, at: L.Pc)
      requires Watching() && forall e <- poll.before :: !e.Step?
      modifies manager, manager.db, timer
      ensures Watching() && manager.Others() == old(manager.Others())
      ensures !done ==> at == PollPc(o, inTry, file)
      ensures old(AtPrinterNow()) && Calm(poll) ==>
                var j := old(manager.View(PollPc(o, inTry, file)));
                && Evaluates(old(timer.history), timer.history, o, poll, old(Settles(o, poll)))
                && done == old(Settles(o, poll))
                && manager.View(at) == if done then Ended(Moved(j), Completed) else j
    {
      ghost var j := manager.View(PollPc(o, inTry, file));
      if AtPrinterNow() && Settles(o, poll) {
        CompletionRuns(j, 3, manager.maxAttempts);
      }
      done, at := ProcessPoll(o, poll, inTry, file);
    }

    /** One poll of a quiet sequence completes the job or keeps it quiet. */
    method QuietPoll(o: Owner, polls: seq<Poll>, i: nat, inTry: bool, file: Option<L.Path>, ghost d: real, ghost n: nat)
      returns (done: bool, at: L.Pc)
      requires Watching() && i < |polls| && forall e <- polls[i].before :: !e.Step?
      modifies manager, manager.db, timer
      ensures Watching() && manager.Others() == old(manager.Others())
      ensures !done ==> at == PollPc(o, inTry, file)
      ensures old(QuietAt(o, polls, i, d, n)) ==>
                var j := old(manager.View(PollPc(o, inTry, file)));
                if done then manager.View(at) == Ended(Moved(j), Completed)
                else QuietAt(o, polls, i + 1, d, n) && manager.View(at) == j
    {
      ghost var before := timer.history;
      ghost var quiet := QuietAt(o, polls, i, d, n);
      if quiet && i == n {
        TimeIsUp(o, polls, d, n);
      }
      done, at := CalmPoll(o, polls[i], inTry, file);
      if quiet && !done {
        QuietAfterEvaluation(before, timer.history[|before|], o, polls[0].now);
      }
    }

    /** `_monitor_printer`, for as many polls as the environment answers. A job that stays quiet, with `d` between
        polls, ends COMPLETED, with its file moved and the status told, within n + 1 polls for any n with n * d at
        least the stable time. */
    method MonitorPrinter(o: Owner, polls: seq<Poll>, inTry: bool, file: Option<L.Path>, ghost d: real, ghost n: nat)
      returns (done: bool, at: L.Pc, used: nat)
      requires Watching() && forall p <- polls :: forall e <- p.before :: !e.Step?
      modifies manager, manager.db, timer
      ensures Watching() && used <= |polls| && (!done ==> used == |polls|)
      ensures manager.Others() == old(manager.Others())
      ensures old(QuietAt(o, polls, 0, d, n)) ==>
                && done && used <= n + 1
                && manager.View(at) == Ended(Moved(old(manager.View(PollPc(o, inTry, file)))), Completed)
    {
      ghost var quiet := QuietAt(o, polls, 0, d, n);
      ghost var j := manager.View(PollPc(o, inTry, file));
      done, at, used := false, PollPc(o, inTry, file), 0;
      while used < |polls| && !done
        invariant Watching() && used <= |polls| && manager.Others() == old(manager.Others())
        invariant !done ==> at == PollPc(o, inTry, file)
        invariant quiet && !done ==> QuietAt(o, polls, used, d, n) && manager.View(at) == j
        invariant quiet && done ==> used <= n + 1 && manager.View(at) == Ended(Moved(j), Completed)
        decreases |polls| - used, !done
      {
        done, at := QuietPoll(o, polls, used, inTry, file, d, n);
        used := used + 1;
      }
    }
  }

  ghost predicate Evaluates(h: seq<Observation>, next: seq<Observation>, o: Owner, poll: Poll, settled: bool) {
    exists last, ready :: next == h + [Evaluated(o, poll.now, poll.first, last, ready)]
                          && ready == settled && (last.Some? ==> last.value == poll.last)
  }
}
