/** That the agent gets on: every call of the handler is a run of the agent, recovery resumes each unfinished row
    and then serves, and a power loss between `lp` and the store costs neither the print nor a second one. */
module AgentRuns {
  import opened Wrappers
  import opened Models
  import opened Store
  import L = Lifecycle
  import opened HandlerRuns
  import opened Outcomes
  import opened Agent

  ghost function Reached(s: State, labels: seq<Label>, maxAttempts: int): Option<State>
    decreases labels
  {
    if labels == [] then Some(s)
    else match Next(s, labels[0], maxAttempts)
         case None => None
         case Some(next) => Reached(next, labels[1..], maxAttempts)
  }

  lemma ReachedFirst(s: State, l: Label, labels: seq<Label>, maxAttempts: int)
    requires Next(s, l, maxAttempts).Some?
    ensures Reached(s, [l] + labels, maxAttempts) == Reached(Next(s, l, maxAttempts).value, labels, maxAttempts)
  {
    assert ([l] + labels)[1..] == labels;
  }

  lemma {:induction false} ReachedBoth(s: State, a: seq<Label>, b: seq<Label>, maxAttempts: int)
    requires Reached(s, a, maxAttempts).Some?
    ensures Reached(s, a + b, maxAttempts) == Reached(Reached(s, a, maxAttempts).value, b, maxAttempts)
    decreases a
  {
    if a == [] {
      assert a + b == b;
    } else {
      assert (a + b)[1..] == a[1..] + b;
      ReachedBoth(Next(s, a[0], maxAttempts).value, a[1..], b, maxAttempts);
    }
  }

  /** The agent's step for one event of a call. */
  function LabelOf(id: JobId, e: Event): Label {
    if e.Step? then HandlerStep(e.outcome) else if IsSpool(e) then SpoolStep(id, e) else CancelStep(id, e)
  }

  /** The agent with this job in hand. */
  predicate Handling(s: State, id: JobId, j: Job) {
    s.active == Some(id) && id in s.jobs && s.jobs[id] == j && !s.phase.Down?
  }

  /** The agent once a call has brought its job here: free again if the call is over. */
  function WithCall(s: State, id: JobId, j: Job): State {
    s.(jobs := s.jobs[id := j], active := if j.pc.Idle? then None else Some(id))
  }

  lemma InterleavingKeepsPlace(j: Job, e: Event, maxAttempts: int)
    requires L.DuringCall(e) && !e.Step? && L.Next(j, e, maxAttempts).Some?
    ensures L.Next(j, e, maxAttempts).value.pc == j.pc && (IsCancel(e) || IsSpool(e))
  {
  }

  lemma AgentTakesEvent(s: State, id: JobId, j: Job, e: Event, maxAttempts: int)
    requires Handling(s, id, j) && !j.pc.Idle? && L.DuringCall(e) && L.Next(j, e, maxAttempts).Some?
    requires IsCancel(e) ==> s.phase.Serving?
    ensures Next(s, LabelOf(id, e), maxAttempts) == Some(WithCall(s, id, L.Next(j, e, maxAttempts).value))
  {
    assert JobOf(s, id) == j;
    if !e.Step? {
      InterleavingKeepsPlace(j, e, maxAttempts);
    }
  }

  /** Whatever a call may meet, the agent has a run that meets it, with the other jobs untouched. */
  lemma {:induction false} CallIsRun(s: State, id: JobId, j: Job, events: seq<Event>, maxAttempts: int)
    returns (labels: seq<Label>)
    requires Handling(s, id, j) && !j.pc.Idle? && forall e <- events :: IsCancel(e) ==> s.phase.Serving?
    ensures Reached(s, labels, maxAttempts) == Some(WithCall(s, id, RunAll(j, events, maxAttempts)))
    decreases events
  {
    labels := [];
    assert s.jobs[id := j] == s.jobs;
    if events != [] && !j.pc.Raised? && L.DuringCall(events[0]) && L.Next(j, events[0], maxAttempts).Some? {
      var k := L.Next(j, events[0], maxAttempts).value;
      var next := WithCall(s, id, k);
      AgentTakesEvent(s, id, j, events[0], maxAttempts);
      if !k.pc.Idle? {
        labels := CallIsRun(next, id, k, events[1..], maxAttempts);
        var end := RunAll(k, events[1..], maxAttempts);
        assert next.jobs[id := end] == s.jobs[id := end];
      }
      ReachedFirst(s, LabelOf(id, events[0]), labels, maxAttempts);
      labels := [LabelOf(id, events[0])] + labels;
    }
  }

  /** A free agent that serves takes any assignment. */
  lemma AssignmentIsRun(s: State, id: JobId, job: L.Assignment, events: seq<Event>, maxAttempts: int)
    returns (labels: seq<Label>)
    requires s.phase.Serving? && s.active.None? && JobOf(s, id).pc.Idle?
    ensures Reached(s, labels, maxAttempts)
            == Some(WithCall(s, id, RunAll(L.Assigned(JobOf(s, id), job), events, maxAttempts)))
  {
    var j := L.Assigned(JobOf(s, id), job);
    AssignmentStarts(JobOf(s, id), job);
    var next := WithCall(s, id, j);
    assert Next(s, AssignJob(id, job), maxAttempts) == Some(next);
    labels := CallIsRun(next, id, j, events, maxAttempts);
    var end := RunAll(j, events, maxAttempts);
    assert next.jobs[id := end] == s.jobs[id := end];
    ReachedFirst(s, AssignJob(id, job), labels, maxAttempts);
    labels := [AssignJob(id, job)] + labels;
  }

  /** A job after a power loss: what is stored, spooled and on disk is as it was. */
  function PoweredOff(j: Job): Job {
    j.(pc := L.Idle, cancel := L.NoCancel, crashes := j.crashes + 1)
  }

  /** Wherever the agent stands, a power loss and a start bring it to recovery, with every unfinished row, as it is
      stored, in the queue. */
  lemma RestartRecovers(s: State, unfinished: seq<JobId>, maxAttempts: int)
    requires !s.phase.Down? && IsUnfinishedList(Rows(s), unfinished)
    ensures var r := Reached(s, [PowerLoss] + ([Boot(unfinished)] + []), maxAttempts);
            && r.Some? && r.value.phase.Recovering? && r.value.active.None?
            && r.value.jobs == (map id | id in s.jobs :: PoweredOff(s.jobs[id]))
            && |r.value.phase.queue| == |unfinished|
            && forall i :: 0 <= i < |unfinished| ==>
                 unfinished[i] in Rows(s) && r.value.phase.queue[i] == (unfinished[i], Rows(s)[unfinished[i]])
  {
    var off := Crashed(s);
    assert Rows(off) == Rows(s);
    assert forall i :: 0 <= i < |unfinished| ==> unfinished[i] in unfinished && unfinished[i] in Rows(off);
    ReachedFirst(s, PowerLoss, [Boot(unfinished)] + [], maxAttempts);
    ReachedFirst(off, Boot(unfinished), [], maxAttempts);
  }

  /** Recovery resumes the row in front of its queue, and serves when none is left. */
  lemma RecoveryIsRun(s: State, id: JobId, job: L.Assignment, events: seq<Event>, maxAttempts: int)
    returns (labels: seq<Label>)
    requires s.phase.Recovering? && s.active.None? && s.phase.queue != [] && s.phase.queue[0].0 == id
    requires id in s.jobs && s.jobs[id].pc.Idle? && s.jobs[id].row == Some(s.phase.queue[0].1)
    requires !Terminal(s.phase.queue[0].1.status) && forall e <- events :: !IsCancel(e)
    ensures Reached(s, labels, maxAttempts)
            == Some(WithCall(s.(phase := Recovering(s.phase.queue[1..])), id,
                             RunAll(L.Assigned(s.jobs[id], job), events, maxAttempts)))
  {
    var j := L.Assigned(s.jobs[id], job);
    AssignmentStarts(s.jobs[id], job);
    var next := WithCall(s.(phase := Recovering(s.phase.queue[1..])), id, j);
    assert JobOf(s, id) == s.jobs[id];
    assert Next(s, RecoverNext(job), maxAttempts) == Some(next);
    labels := CallIsRun(next, id, j, events, maxAttempts);
    var end := RunAll(j, events, maxAttempts);
    assert next.jobs[id := end] == s.jobs[id := end];
    ReachedFirst(s, RecoverNext(job), labels, maxAttempts);
    labels := [RecoverNext(job)] + labels;
  }

  lemma RecoveryEnds(s: State, maxAttempts: int)
    requires s.phase == Recovering([]) && s.active.None?
    ensures Next(s, RecoveryDone, maxAttempts) == Some(s.(phase := Serving))
  {
  }

  /** An exception that leaves the handler frees a serving agent for its next job, and takes a recovering one
      down. */
  lemma RaisedHandlerUnwinds(s: State, id: JobId, j: Job, maxAttempts: int)
    requires Handling(s, id, j) && j.pc.Raised?
    ensures var next := Next(s, HandlerUnwinds, maxAttempts);
            && next.Some?
            && (s.phase.Serving? ==> next.value == s.(jobs := s.jobs[id := j.(pc := L.Idle)], active := None))
            && (s.phase.Recovering? ==> next.value.phase.Down? && next.value.active.None?)
  {
    assert JobOf(s, id) == j;
  }

  // ----- The interrupted print -----

  function Interrupted(job: L.Assignment, cupsId: string): Job {
    Downloaded(job).(spool := [cupsId], pc := L.Submission(job, true, job.path, L.AwaitLp))
  }

  lemma LpIsInterrupted(job: L.Assignment, cupsId: string, maxAttempts: int)
    ensures RunAll(Downloaded(job), Plain(1, [L.SpoolAccepts(cupsId)] + []), maxAttempts) == Interrupted(job, cupsId)
  {
    var rest := [L.SpoolAccepts(cupsId)] + [];
    var running := RunPlain(Downloaded(job), 1, rest, maxAttempts);
    RunOne(running, L.SpoolAccepts(cupsId), [], maxAttempts);
    assert running.spool + [cupsId] == [cupsId];
  }

  /** A new job, up to the moment CUPS has accepted its `lp` and the agent does not know yet. */
  lemma PrintIsInterrupted(job: L.Assignment, cupsId: string, n: nat, maxAttempts: int)
    requires job.valid && n == 10
    ensures RunAll(L.Assigned(L.NEW_JOB, job), Plain(n, [L.SpoolAccepts(cupsId)] + []), maxAttempts)
            == Interrupted(job, cupsId)
  {
    var rest := [L.SpoolAccepts(cupsId)] + [];
    StartRuns(job, n, rest, maxAttempts);
    DownloadRuns(job, rest, maxAttempts);
    ReadyRuns(job, rest, maxAttempts);
    LpIsInterrupted(job, cupsId, maxAttempts);
  }

  lemma FirstStart(maxAttempts: int)
    ensures Reached(INIT, [Boot([])] + ([RecoveryDone] + []), maxAttempts) == Some(INIT.(phase := Serving))
  {
    assert IsUnfinishedList(Rows(INIT), []);
    ReachedFirst(INIT, Boot([]), [RecoveryDone] + [], maxAttempts);
    var booted := Next(INIT, Boot([]), maxAttempts).value;
    assert booted.phase == Recovering([]);
    ReachedFirst(booted, RecoveryDone, [], maxAttempts);
  }

  /** From the first start to the power loss. */
  lemma InterruptionIsReached(id: JobId, job: L.Assignment, cupsId: string, maxAttempts: int)
    requires job.valid
    ensures exists labels :: Reached(INIT, labels, maxAttempts)
                             == Some(State(map[id := Interrupted(job, cupsId)], Serving, Some(id), 0))
  {
    var start := [Boot([])] + ([RecoveryDone] + []);
    FirstStart(maxAttempts);
    var serving := INIT.(phase := Serving);
    PrintIsInterrupted(job, cupsId, 10, maxAttempts);
    var call := AssignmentIsRun(serving, id, job, Plain(10, [L.SpoolAccepts(cupsId)] + []), maxAttempts);
    ReachedBoth(INIT, start, call, maxAttempts);
    assert Reached(INIT, start + call, maxAttempts)
           == Some(State(map[id := Interrupted(job, cupsId)], Serving, Some(id), 0));
  }

  /** After the restart: the row of the interrupted print in recovery's queue. */
  lemma RestartQueuesPrint(s: State, id: JobId, job: L.Assignment, cupsId: string, maxAttempts: int)
    requires s == State(map[id := Interrupted(job, cupsId)], Serving, Some(id), 0)
    ensures var off := PoweredOff(Interrupted(job, cupsId));
            Reached(s, [PowerLoss] + ([Boot([id])] + []), maxAttempts)
            == Some(State(map[id := off], Recovering([(id, off.row.value)]), None, 1))
  {
    var off := PoweredOff(Interrupted(job, cupsId));
    assert Rows(s) == map[id := off.row.value];
    assert IsUnfinishedList(Rows(s), [id]);
    RestartRecovers(s, [id], maxAttempts);
    var r := Reached(s, [PowerLoss] + ([Boot([id])] + []), maxAttempts).value;
    assert r.jobs == map[id := off];
    assert r.phase.queue == [(id, off.row.value)];
    ReachedFirst(s, PowerLoss, [Boot([id])] + [], maxAttempts);
    ReachedFirst(Crashed(s), Boot([id]), [], maxAttempts);
  }

  /** What recovery makes of the interrupted print: the lookup finds it, and it is adopted and watched. */
  function Adopted(job: L.Assignment, cupsId: string): Job {
    WatchedPrint(PoweredOff(Interrupted(job, cupsId)), false, cupsId, Some(job.path))
  }

  lemma InterruptedPrintIsAdopted(job: L.Assignment, cupsId: string, maxAttempts: int)
    ensures RunAll(L.Assigned(PoweredOff(Interrupted(job, cupsId)), job),
                   [L.Step(L.Go)] + ([L.Step(L.LookupFound(cupsId))] + Plain(3, [])), maxAttempts)
            == Adopted(job, cupsId)
  {
    var off := PoweredOff(Interrupted(job, cupsId));
    ReadyJobIsRecovered(off, job, job.path, maxAttempts);
    RunOne(L.Assigned(off, job), L.Step(L.Go), [L.Step(L.LookupFound(cupsId))] + Plain(3, []), maxAttempts);
    var looking := off.(pc := L.Recovery(job, job.path, L.AwaitLookup));
    FoundJobIsAdopted(looking, job, job.path, cupsId, maxAttempts);
  }

  /** A power loss right after CUPS accepted `lp`, before its id was stored, costs nothing: the agent has a run in
      which the restarted handler finds the job by its title, adopts it and completes it, with one print and every
      status told in order. */
  lemma InterruptedPrintCompletes(id: JobId, job: L.Assignment, cupsId: string, maxAttempts: int)
    returns (labels: seq<Label>)
    requires job.valid
    ensures var end := Reached(INIT, labels, maxAttempts);
            && end.Some? && end.value.phase.Serving? && end.value.active.None? && end.value.crashes == 1
            && var j := JobOf(end.value, id);
               && j.row == Some(Row(Completed, Some(job.path), Some(cupsId), 0))
               && j.spool == [cupsId] && j.running == 0 && j.processing == {} && j.completed == {job.path}
               && Told(j.reports) == [Received, Downloading, JobStatus.Ready, Submitted, Completed]
  {
    InterruptionIsReached(id, job, cupsId, maxAttempts);
    var s := State(map[id := Interrupted(job, cupsId)], Serving, Some(id), 0);
    var before :| Reached(INIT, before, maxAttempts) == Some(s);
    var restart := [PowerLoss] + ([Boot([id])] + []);
    RestartQueuesPrint(s, id, job, cupsId, maxAttempts);
    ReachedBoth(INIT, before, restart, maxAttempts);
    var recovering := Reached(s, restart, maxAttempts).value;
    var after := RecoveredPrintCompletes(recovering, id, job, cupsId, maxAttempts);
    ReachedBoth(INIT, before + restart, after, maxAttempts);
    labels := before + restart + after;
  }

  function Watching(id: JobId, job: L.Assignment, cupsId: string): State {
    State(map[id := Adopted(job, cupsId)], Recovering([]), Some(id), 1)
  }

  lemma RecoveryWatchesPrint(s: State, id: JobId, job: L.Assignment, cupsId: string, maxAttempts: int)
    returns (labels: seq<Label>)
    requires var off := PoweredOff(Interrupted(job, cupsId));
             s == State(map[id := off], Recovering([(id, off.row.value)]), None, 1)
    ensures Reached(s, labels, maxAttempts) == Some(Watching(id, job, cupsId))
  {
    InterruptedPrintIsAdopted(job, cupsId, maxAttempts);
    var events := [L.Step(L.Go)] + ([L.Step(L.LookupFound(cupsId))] + Plain(3, []));
    PlainIsPlain(3);
    labels := RecoveryIsRun(s, id, job, events, maxAttempts);
    assert s.phase.queue[1..] == [];
    assert s.jobs[id := Adopted(job, cupsId)] == map[id := Adopted(job, cupsId)];
  }

  lemma WatchedPrintFinishes(id: JobId, job: L.Assignment, cupsId: string, maxAttempts: int)
    returns (labels: seq<Label>)
    ensures Reached(Watching(id, job, cupsId), labels, maxAttempts)
            == Some(State(map[id := CompletedPrint(job, cupsId)], Recovering([]), None, 1))
  {
    PlainIsPlain(3);
    CompletionRuns(Adopted(job, cupsId), 3, maxAttempts);
    AdoptedPrintEnds(job, cupsId);
    var watching := Watching(id, job, cupsId);
    labels := CallIsRun(watching, id, Adopted(job, cupsId), FinishEvents(), maxAttempts);
    assert watching.jobs[id := CompletedPrint(job, cupsId)] == map[id := CompletedPrint(job, cupsId)];
  }

  lemma RecoveredPrintCompletes(s: State, id: JobId, job: L.Assignment, cupsId: string, maxAttempts: int)
    returns (labels: seq<Label>)
    requires var off := PoweredOff(Interrupted(job, cupsId));
             s == State(map[id := off], Recovering([(id, off.row.value)]), None, 1)
    ensures Reached(s, labels, maxAttempts)
            == Some(State(map[id := CompletedPrint(job, cupsId)], Serving, None, 1))
  {
    var recovery := RecoveryWatchesPrint(s, id, job, cupsId, maxAttempts);
    var finish := WatchedPrintFinishes(id, job, cupsId, maxAttempts);
    ReachedBoth(s, recovery, finish, maxAttempts);
    var finished := State(map[id := CompletedPrint(job, cupsId)], Recovering([]), None, 1);
    RecoveryEnds(finished, maxAttempts);
    ReachedFirst(finished, RecoveryDone, [], maxAttempts);
    ReachedBoth(s, recovery + finish, [RecoveryDone] + [], maxAttempts);
    labels := recovery + finish + ([RecoveryDone] + []);
  }

  function CompletedPrint(job: L.Assignment, cupsId: string): Job {
    var j := Adopted(job, cupsId);
    Stated(j, Completed).(processing := {}, completed := {job.path}, pc := L.Idle)
  }

  lemma AdoptedPrintEnds(job: L.Assignment, cupsId: string)
    ensures Ended(Moved(Adopted(job, cupsId)), Completed) == CompletedPrint(job, cupsId)
  {
    assert Moved(Adopted(job, cupsId)).processing == {};
    assert Moved(Adopted(job, cupsId)).completed == {job.path};
  }

  lemma {:induction false} PlainIsPlain(n: nat)
    ensures forall e <- Plain(n, []) :: e == L.Step(L.Go)
  {
    if n > 0 {
      PlainIsPlain(n - 1);
    }
  }
}
