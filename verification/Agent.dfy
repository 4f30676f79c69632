/** The whole agent: any number of jobs, one handler at a time, recovery before the WebSocket starts
    (app/main.py), and a power loss between any two effects. */
module Agent {
  import opened Wrappers
  import opened Store
  import Lifecycle
  import opened LifecycleInvariant
  import opened LifecycleSteps
  type JobId = string
  type Job = Lifecycle.Job
  type Event = Lifecycle.Event

  /** Recovery works through the records it read when it started. */
  datatype Phase = Down | Recovering(queue: seq<(JobId, Row)>) | Serving

  datatype State = State(jobs: map<JobId, Job>, phase: Phase, active: Option<JobId>, crashes: nat)

  const INIT := State(map[], Down, None, 0)

  datatype Label =
    | Boot(unfinished: seq<JobId>)
    | RecoverNext(job: Lifecycle.Assignment)
    | RecoveryDone
    | AssignJob(id: JobId, job: Lifecycle.Assignment)
    | HandlerStep(outcome: Lifecycle.Outcome)
    | HandlerUnwinds
    | CancelStep(id: JobId, event: Event)
    | SpoolStep(id: JobId, event: Event)
    | PowerLoss

  function JobOf(s: State, id: JobId): Job {
    if id in s.jobs then s.jobs[id] else Lifecycle.NEW_JOB
  }

  function Rows(s: State): map<JobId, Row> {
    map id | id in s.jobs && s.jobs[id].row.Some? :: s.jobs[id].row.value
  }

  predicate IsCancel(e: Event) {
    e.CancelArrives? || e.CancelWrites? || e.CancelReports? || e.CancelDropped?
  }

  predicate IsSpool(e: Event) {
    e.SpoolAccepts? || e.SpoolDrops?
  }

  /** One job takes the event; the handler is free again once it has nothing left to do. */
  function WithJob(s: State, id: JobId, e: Event, maxAttempts: int): Option<State> {
    match Lifecycle.Next(JobOf(s, id), e, maxAttempts)
    case None => None
    case Some(j) => Some(s.(jobs := s.jobs[id := j], active := ActiveAfter(s, id, e, j)))
  }

  function ActiveAfter(s: State, id: JobId, e: Event, j: Job): Option<JobId> {
    if IsCancel(e) || IsSpool(e) then s.active
    else if j.pc.Idle? then None else Some(id)
  }

  function Crashed(s: State): State {
    State(map id | id in s.jobs ::
            s.jobs[id].(pc := Lifecycle.Idle, cancel := Lifecycle.NoCancel, crashes := s.jobs[id].crashes + 1),
          Down, None, s.crashes + 1)
  }

  function Queue(s: State, unfinished: seq<JobId>): seq<(JobId, Row)>
    requires forall id <- unfinished :: id in s.jobs && s.jobs[id].row.Some?
  {
    seq(|unfinished|, i requires 0 <= i < |unfinished| => (unfinished[i], s.jobs[unfinished[i]].row.value))
  }

  /** An exception that leaves the handler is logged by the worker, but ends the agent during recovery. */
  ghost function Next(s: State, l: Label, maxAttempts: int): Option<State> {
    match l
    case Boot(unfinished) =>
      if s.phase.Down? && IsUnfinishedList(Rows(s), unfinished)
      then Some(s.(phase := Recovering(Queue(s, unfinished)))) else None
    case RecoverNext(job) =>
      if s.phase.Recovering? && s.phase.queue != [] && s.active.None? then
        var (id, record) := s.phase.queue[0];
        WithJob(s.(phase := Recovering(s.phase.queue[1..])), id, Lifecycle.Resume(job, record), maxAttempts)
      else None
    case RecoveryDone =>
      if s.phase == Recovering([]) && s.active.None? then Some(s.(phase := Serving)) else None
    case AssignJob(id, job) =>
      if s.phase.Serving? && s.active.None? then WithJob(s, id, Lifecycle.Assign(job), maxAttempts) else None
    case HandlerStep(o) =>
      if s.active.Some? then WithJob(s, s.active.value, Lifecycle.Step(o), maxAttempts) else None
    case HandlerUnwinds =>
      if s.active.None? || !JobOf(s, s.active.value).pc.Raised? then None
      else if s.phase.Serving? then WithJob(s, s.active.value, Lifecycle.Unwind, maxAttempts)
      else Some(Crashed(s))
    case CancelStep(id, e) =>
      if s.phase.Serving? && id in s.jobs && IsCancel(e) then WithJob(s, id, e, maxAttempts) else None
    case SpoolStep(id, e) => if id in s.jobs && IsSpool(e) then WithJob(s, id, e, maxAttempts) else None
    case PowerLoss => if s.phase.Down? then None else Some(Crashed(s))
  }

  /** What the label does to one job. */
  function EventFor(s: State, l: Label, id: JobId): Option<Event> {
    match l
    case Boot(_) => None
    case RecoverNext(job) =>
      if s.phase.Recovering? && s.phase.queue != [] && s.phase.queue[0].0 == id
      then Some(Lifecycle.Resume(job, s.phase.queue[0].1)) else None
    case RecoveryDone => None
    case AssignJob(i, job) => if i == id then Some(Lifecycle.Assign(job)) else None
    case HandlerStep(o) => if s.active == Some(id) then Some(Lifecycle.Step(o)) else None
    case HandlerUnwinds =>
      if !s.phase.Serving? then (if id in s.jobs then Some(Lifecycle.Crash) else None)
      else if s.active == Some(id) then Some(Lifecycle.Unwind) else None
    case CancelStep(i, e) => if i == id then Some(e) else None
    case SpoolStep(i, e) => if i == id then Some(e) else None
    case PowerLoss => if id in s.jobs then Some(Lifecycle.Crash) else None
  }

  lemma LabelIsJobEvent(s: State, l: Label, id: JobId, maxAttempts: int)
    requires Next(s, l, maxAttempts).Some?
    ensures var next := Next(s, l, maxAttempts).value;
            match EventFor(s, l, id)
            case None => JobOf(next, id) == JobOf(s, id)
            case Some(e) => Lifecycle.Next(JobOf(s, id), e, maxAttempts) == Some(JobOf(next, id))
  {
  }

  /** Answers of the printer layer the guarantees rest on. */
  predicate TruthfulLabel(s: State, l: Label) {
    l.HandlerStep? && s.active.Some? ==> Truthful(JobOf(s, s.active.value), Lifecycle.Step(l.outcome))
  }

  predicate FoundIsOursLabel(s: State, l: Label) {
    l.HandlerStep? && s.active.Some? ==> FoundIsOurs(JobOf(s, s.active.value), Lifecycle.Step(l.outcome))
  }

  ghost predicate QueueInv(s: State, queue: seq<(JobId, Row)>) {
    && (forall i :: 0 <= i < |queue| ==> JobOf(s, queue[i].0).row == Some(queue[i].1) && s.active != Some(queue[i].0))
    && (forall i, k :: 0 <= i < k < |queue| ==> queue[i].0 != queue[k].0)
  }

  /** Only the active job is being handled, and recovery's records are still current. */
  ghost predicate Bookkept(s: State) {
    && (forall id <- s.jobs :: s.jobs[id].crashes <= s.crashes)
    && (forall id <- s.jobs :: !s.jobs[id].pc.Idle? ==> s.active == Some(id))
    && (s.active.Some? ==> s.active.value in s.jobs && s.jobs[s.active.value].row.Some?)
    && (s.phase.Down? ==> s.active.None?)
    && (s.phase.Recovering? ==> QueueInv(s, s.phase.queue))
  }

  ghost predicate StateInv(s: State, maxAttempts: int) {
    && (forall id <- s.jobs :: Inv(s.jobs[id], maxAttempts))
    && Bookkept(s)
  }

  lemma JobsKeepInv(s: State, l: Label, maxAttempts: int)
    requires StateInv(s, maxAttempts) && TruthfulLabel(s, l) && Next(s, l, maxAttempts).Some?
    ensures forall id <- Next(s, l, maxAttempts).value.jobs ::
              Inv(Next(s, l, maxAttempts).value.jobs[id], maxAttempts)
  {
    var next := Next(s, l, maxAttempts).value;
    forall id <- next.jobs
      ensures Inv(next.jobs[id], maxAttempts)
    {
      LabelIsJobEvent(s, l, id, maxAttempts);
      NewJobInv(maxAttempts);
      match EventFor(s, l, id)
      case None =>
      case Some(e) => NextKeepsInv(JobOf(s, id), e, maxAttempts);
    }
  }

  lemma NewJobInv(maxAttempts: int)
    ensures Inv(Lifecycle.NEW_JOB, maxAttempts)
  {
  }

  /** Facts about one event that do not need the invariant. */
  lemma EventShape(j: Job, e: Event, maxAttempts: int)
    requires Lifecycle.Next(j, e, maxAttempts).Some?
    ensures var k := Lifecycle.Next(j, e, maxAttempts).value;
            && (!e.Crash? ==> k.crashes == j.crashes)
            && (IsSpool(e) ==> k.pc == j.pc && k.row == j.row)
            && (IsCancel(e) ==> k.pc == j.pc)
            && (j.row.Some? || e.Assign? ==> k.row.Some?)
  {
    if e.Step? {
      StepShape(j, e.outcome, maxAttempts);
    }
  }

  lemma StepShape(j: Job, o: Lifecycle.Outcome, maxAttempts: int)
    requires j.row.Some? && Lifecycle.Handle(j, o, maxAttempts).Some?
    ensures Lifecycle.Handle(j, o, maxAttempts).value.crashes == j.crashes
    ensures Lifecycle.Handle(j, o, maxAttempts).value.row.Some?
  {
  }

  /** Bookkeeping of the state around one job's event; `s` may have popped its queue already. */
  lemma WithJobKeepsBookkeeping(s: State, id: JobId, e: Event, maxAttempts: int)
    requires WithJob(s, id, e, maxAttempts).Some? && !e.Crash?
    requires Bookkept(s) && !s.phase.Down?
    requires IsCancel(e) || IsSpool(e) ==> id in s.jobs
    requires IsCancel(e) ==> !s.phase.Recovering?
    requires !IsCancel(e) && !IsSpool(e) ==> s.active.None? || s.active == Some(id)
    requires !IsCancel(e) && !IsSpool(e) ==> JobOf(s, id).row.Some? || e.Assign?
    requires s.phase.Recovering? && !IsSpool(e) ==> forall i :: 0 <= i < |s.phase.queue| ==> s.phase.queue[i].0 != id
    ensures Bookkept(WithJob(s, id, e, maxAttempts).value)
  {
    EventShape(JobOf(s, id), e, maxAttempts);
  }

  lemma BootKeepsBookkeeping(s: State, unfinished: seq<JobId>, maxAttempts: int)
    requires Bookkept(s) && Next(s, Boot(unfinished), maxAttempts).Some?
    ensures Bookkept(Next(s, Boot(unfinished), maxAttempts).value)
  {
    var queue := Queue(s, unfinished);
    forall i | 0 <= i < |queue|
      ensures JobOf(s, queue[i].0).row == Some(queue[i].1)
    {
      assert unfinished[i] in Rows(s);
    }
  }

  lemma NextKeepsBookkeeping(s: State, l: Label, maxAttempts: int)
    requires Bookkept(s) && Next(s, l, maxAttempts).Some?
    ensures Bookkept(Next(s, l, maxAttempts).value)
  {
    match l
    case Boot(unfinished) => BootKeepsBookkeeping(s, unfinished, maxAttempts);
    case RecoverNext(job) =>
      var (id, record) := s.phase.queue[0];
      var popped := s.(phase := Recovering(s.phase.queue[1..]));
      WithJobKeepsBookkeeping(popped, id, Lifecycle.Resume(job, record), maxAttempts);
    case RecoveryDone =>
    case AssignJob(id, job) => WithJobKeepsBookkeeping(s, id, Lifecycle.Assign(job), maxAttempts);
    case HandlerStep(o) => WithJobKeepsBookkeeping(s, s.active.value, Lifecycle.Step(o), maxAttempts);
    case HandlerUnwinds =>
      if s.phase.Serving? { WithJobKeepsBookkeeping(s, s.active.value, Lifecycle.Unwind, maxAttempts); }
    case CancelStep(id, e) => WithJobKeepsBookkeeping(s, id, e, maxAttempts);
    case SpoolStep(id, e) =>
      if s.phase.Down? { EventShape(JobOf(s, id), e, maxAttempts); }
      else { WithJobKeepsBookkeeping(s, id, e, maxAttempts); }
    case PowerLoss =>
  }

  lemma NextKeepsStateInv(s: State, l: Label, maxAttempts: int)
    requires StateInv(s, maxAttempts) && TruthfulLabel(s, l) && Next(s, l, maxAttempts).Some?
    ensures StateInv(Next(s, l, maxAttempts).value, maxAttempts)
  {
    NextKeepsBookkeeping(s, l, maxAttempts);
    JobsKeepInv(s, l, maxAttempts);
  }

  /** A run: states linked by labels, from the first start on. */
  ghost predicate IsRun(states: seq<State>, labels: seq<Label>, maxAttempts: int) {
    && |states| == |labels| + 1
    && states[0] == INIT
    && forall i {:trigger labels[i]} :: 0 <= i < |labels| ==>
         Next(states[i], labels[i], maxAttempts) == Some(states[i + 1])
  }

  /** READY recovery is never told "not found" about a job CUPS has taken or may still take. */
  ghost predicate TruthfulRun(states: seq<State>, labels: seq<Label>, maxAttempts: int) {
    && IsRun(states, labels, maxAttempts)
    && forall i {:trigger labels[i]} :: 0 <= i < |labels| ==> TruthfulLabel(states[i], labels[i])
  }

  lemma {:induction false} RunKeepsInv(states: seq<State>, labels: seq<Label>, maxAttempts: int, i: nat)
    requires TruthfulRun(states, labels, maxAttempts) && i < |states|
    ensures StateInv(states[i], maxAttempts)
  {
    if i > 0 {
      RunKeepsInv(states, labels, maxAttempts, i - 1);
      assert Next(states[i - 1], labels[i - 1], maxAttempts) == Some(states[i - 1 + 1]);
      NextKeepsStateInv(states[i - 1], labels[i - 1], maxAttempts);
    }
  }
}
