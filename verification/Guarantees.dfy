/** What holds over every run of the agent: any assignments and re-assignments, cancels, download and
    printer failures, `lp` timeouts, power losses at any point, and restarts. */
module Guarantees {
  import opened Wrappers
  import opened Models
  import L = Lifecycle
  import opened LifecycleInvariant
  import opened LifecycleSteps
  import opened Agent

  /** CUPS accepts at most one `lp` per backend job, counting those it may still accept. */
  lemma AtMostOnePrint(states: seq<State>, labels: seq<Label>, maxAttempts: int, i: nat, id: JobId)
    requires TruthfulRun(states, labels, maxAttempts) && i < |states|
    ensures L.Prints(JobOf(states[i], id)) <= 1
    ensures |JobOf(states[i], id).spool| <= 1
  {
    RunKeepsInv(states, labels, maxAttempts, i);
  }

  /** Everything a job keeps for the rest of a run. */
  predicate Persists(j: Job, k: Job) {
    j.row.Some? ==>
      && k.row.Some?
      && (Terminal(j.row.value.status) ==> k.row.value.status == j.row.value.status && L.Prints(k) <= L.Prints(j))
      && (j.row.value.cupsJobId.Some? ==> k.row.value.cupsJobId == j.row.value.cupsJobId)
      && j.row.value.attemptCount <= k.row.value.attemptCount
  }

  lemma OneLabelAdvances(states: seq<State>, labels: seq<Label>, maxAttempts: int, i: nat, id: JobId)
    requires TruthfulRun(states, labels, maxAttempts) && i < |labels|
    ensures Advances(JobOf(states[i], id), JobOf(states[i + 1], id))
  {
    RunKeepsInv(states, labels, maxAttempts, i);
    assert Next(states[i], labels[i], maxAttempts) == Some(states[i + 1]);
    LabelIsJobEvent(states[i], labels[i], id, maxAttempts);
    NewJobInv(maxAttempts);
    match EventFor(states[i], labels[i], id)
    case None =>
    case Some(e) => EventAdvances(JobOf(states[i], id), e, maxAttempts);
  }

  /** A terminal job never changes status or prints again, a printer id once written stays, and the
      attempts never go down, however stale the records of the handlers in between. */
  lemma {:induction false} JobsPersist(
    states: seq<State>, labels: seq<Label>, maxAttempts: int, i: nat, k: nat, id: JobId)
    requires TruthfulRun(states, labels, maxAttempts) && i <= k < |states|
    ensures Persists(JobOf(states[i], id), JobOf(states[k], id))
    decreases k
  {
    if i < k {
      JobsPersist(states, labels, maxAttempts, i, k - 1, id);
      OneLabelAdvances(states, labels, maxAttempts, k - 1, id);
      PersistsThenAdvances(JobOf(states[i], id), JobOf(states[k - 1], id), JobOf(states[k - 1 + 1], id));
    }
  }

  lemma PersistsThenAdvances(a: Job, b: Job, c: Job)
    requires Persists(a, b) && Advances(b, c)
    ensures Persists(a, c)
  {
  }

  /** A new `lp` starts only while the store says READY without a printer id, and the file is there. */
  lemma LpOnlyWhenReady(states: seq<State>, labels: seq<Label>, maxAttempts: int, i: nat, id: JobId)
    requires TruthfulRun(states, labels, maxAttempts) && i < |labels|
    requires JobOf(states[i + 1], id).running > JobOf(states[i], id).running
    ensures LpAllowed(JobOf(states[i], id))
  {
    OneLabelAdvances(states, labels, maxAttempts, i, id);
  }

  /** Rows at the printer have its id and earlier rows have none; so no branch that refuses a duplicate
      print is ever taken, and every report of a job at the printer carries the id. */
  lemma IdsMatchStatuses(states: seq<State>, labels: seq<Label>, maxAttempts: int, i: nat, id: JobId)
    requires TruthfulRun(states, labels, maxAttempts) && i < |states|
    ensures var j := JobOf(states[i], id);
            && (j.row.Some? && AtPrinter(j.row.value.status) ==> j.row.value.cupsJobId.Some?)
            && (j.row.Some? && BeforeReady(j.row.value.status) ==> j.row.value.cupsJobId.None? && L.Prints(j) == 0)
            && !RefusesDuplicate(j)
            && (forall r <- j.reports :: Identified(r))
  {
    RunKeepsInv(states, labels, maxAttempts, i);
    NewJobInv(maxAttempts);
    RefusalUnreachable(JobOf(states[i], id), maxAttempts);
  }

  /** One job starts at most max(1, max_attempts) downloads plus one for each restart. */
  lemma DownloadsBounded(states: seq<State>, labels: seq<Label>, maxAttempts: int, i: nat, id: JobId)
    requires TruthfulRun(states, labels, maxAttempts) && i < |states|
    ensures JobOf(states[i], id).downloads <= Max(1, maxAttempts) + states[i].crashes
    ensures JobOf(states[i], id).row.Some? && JobOf(states[i], id).row.value.status == RetryWaiting ==>
              1 <= JobOf(states[i], id).row.value.attemptCount < maxAttempts
  {
    RunKeepsInv(states, labels, maxAttempts, i);
  }

  /** A COMPLETED row's file has left processing; a file that reached the completed directory belongs to a
      row recovery watches at the printer; READY lost its file only to a failure that was under way. */
  lemma FilesAgree(states: seq<State>, labels: seq<Label>, maxAttempts: int, i: nat, id: JobId)
    requires TruthfulRun(states, labels, maxAttempts) && i < |states|
    requires JobOf(states[i], id).row.Some?
    ensures var j := JobOf(states[i], id); var row := j.row.value;
            && (row.status == Completed ==> !L.HasFile(j, row.filePath))
            && (j.completed != {} ==> row.cupsJobId.Some? && row.status != JobStatus.Ready && !BeforeReady(row.status))
            && (row.status == JobStatus.Ready && !L.HasFile(j, row.filePath) ==> j.failedMove)
  {
    RunKeepsInv(states, labels, maxAttempts, i);
  }

  ghost predicate OursRun(states: seq<State>, labels: seq<Label>, maxAttempts: int) {
    && TruthfulRun(states, labels, maxAttempts)
    && forall i {:trigger labels[i]} :: 0 <= i < |labels| ==> FoundIsOursLabel(states[i], labels[i])
  }

  lemma {:induction false} RunKeepsIds(states: seq<State>, labels: seq<Label>, maxAttempts: int, i: nat, id: JobId)
    requires OursRun(states, labels, maxAttempts) && i < |states|
    ensures IdInv(JobOf(states[i], id))
  {
    if i > 0 {
      var s, l := states[i - 1], labels[i - 1];
      assert Next(s, l, maxAttempts) == Some(states[i - 1 + 1]);
      RunKeepsIds(states, labels, maxAttempts, i - 1, id);
      RunKeepsInv(states, labels, maxAttempts, i - 1);
      LabelIsJobEvent(s, l, id, maxAttempts);
      match EventFor(s, l, id)
      case None =>
      case Some(e) => EventKeepsIdInv(JobOf(s, id), e, maxAttempts);
    }
  }

  /** When lookups name only this job's own CUPS jobs, the id in the store is the one print there is. */
  lemma StoredIdIsThePrint(states: seq<State>, labels: seq<Label>, maxAttempts: int, i: nat, id: JobId)
    requires OursRun(states, labels, maxAttempts) && i < |states|
    requires JobOf(states[i], id).row.Some? && JobOf(states[i], id).row.value.cupsJobId.Some?
    ensures JobOf(states[i], id).spool == [JobOf(states[i], id).row.value.cupsJobId.value]
  {
    RunKeepsIds(states, labels, maxAttempts, i, id);
    AtMostOnePrint(states, labels, maxAttempts, i, id);
  }

  /** The job after some events, all of them possible and truthful; None otherwise. */
  ghost function After(j: Job, es: seq<Event>, maxAttempts: int): Option<Job>
    decreases es
  {
    if es == [] then Some(j)
    else if !Truthful(j, es[0]) || (es[0].Resume? && j.row != Some(es[0].record)) then None
    else match L.Next(j, es[0], maxAttempts)
         case None => None
         case Some(k) => After(k, es[1..], maxAttempts)
  }

  lemma {:induction false} AfterKeepsInv(j: Job, es: seq<Event>, maxAttempts: int)
    requires Inv(j, maxAttempts) && After(j, es, maxAttempts).Some?
    ensures Inv(After(j, es, maxAttempts).value, maxAttempts)
    decreases es
  {
    if es != [] {
      NextKeepsInv(j, es[0], maxAttempts);
      AfterKeepsInv(L.Next(j, es[0], maxAttempts).value, es[1..], maxAttempts);
    }
  }

  ghost predicate PrintsTwice(j: Job, es: seq<Event>, maxAttempts: int) {
    After(j, es, maxAttempts).Some? && |After(j, es, maxAttempts).value.spool| >= 2
  }

  /** The assumption of `AtMostOnePrint` is exactly what is needed: a "not found" answer to READY recovery
      leads, by events that are otherwise truthful, to a second print if and only if an earlier `lp` was
      accepted or still could be. */
  lemma NotFoundDecidesDoublePrint(j: Job, maxAttempts: int)
    requires Inv(j, maxAttempts) && j.row.Some? && j.pc.Recovery? && j.pc.recovery.AwaitLookup?
    ensures var told := L.Next(j, L.Step(L.LookupNotFound), maxAttempts);
            && told.Some?
            && ((exists es :: PrintsTwice(told.value, es, maxAttempts)) <==> L.Prints(j) > 0)
  {
    var told := L.Next(j, L.Step(L.LookupNotFound), maxAttempts).value;
    if L.Prints(j) == 0 {
      NextKeepsInv(j, L.Step(L.LookupNotFound), maxAttempts);
      forall es | After(told, es, maxAttempts).Some?
        ensures !PrintsTwice(told, es, maxAttempts)
      {
        AfterKeepsInv(told, es, maxAttempts);
      }
    } else {
      var lp := L.Step(L.Go);
      var accept := L.SpoolAccepts("");
      var es := if j.running == 0 then [lp, accept] else [lp, accept, accept];
      SecondPrint(j, told, es, maxAttempts);
    }
  }

  lemma SecondPrint(j: Job, told: Job, es: seq<Event>, maxAttempts: int)
    requires Inv(j, maxAttempts) && j.row.Some? && j.pc.Recovery? && j.pc.recovery.AwaitLookup? && L.Prints(j) == 1
    requires L.Next(j, L.Step(L.LookupNotFound), maxAttempts) == Some(told)
    requires es == if j.running == 0 then [L.Step(L.Go), L.SpoolAccepts("")]
                   else [L.Step(L.Go), L.SpoolAccepts(""), L.SpoolAccepts("")]
    ensures PrintsTwice(told, es, maxAttempts)
  {
    var sent := L.Next(told, es[0], maxAttempts).value;
    var once := L.Next(sent, es[1], maxAttempts).value;
    assert es[1..][1..] == es[2..];
    assert After(once, es[2..], maxAttempts).Some? && |After(once, es[2..], maxAttempts).value.spool| >= 2 by {
      if j.running == 0 {
        assert es[2..] == [];
      } else {
        assert es[2..] == [L.SpoolAccepts("")] && es[2..][1..] == [];
      }
    }
    assert After(sent, es[1..], maxAttempts) == After(once, es[2..], maxAttempts);
  }
}
