/** Physical completion (app/job_manager.py): after CUPS says COMPLETED, the queue must stay quiet for a
    while before the job is. The code keeps one timer slot in memory; the history of what it observed says
    when a job has settled, and the two agree. */
module Settling {
  import opened Wrappers
  import opened Printer

  datatype Owner = Owner(job: string, printerJob: string)

  /** One status recheck followed by one queue probe; a printer without the probe has no flags. */
  datatype Look = Look(state: PrinterJobState, queue: Option<QueueFlags>)

  predicate Quiescent(queue: Option<QueueFlags>) {
    queue.Some? ==> queue.value.ok && !queue.value.printing && queue.value.idle
  }

  predicate Clean(look: Look) {
    look.state.Completed? && Quiescent(look.queue)
  }

  /** The job is COMPLETED for CUPS, and the queue, where it can be asked, is idle and not printing. */
  lemma CleanLook(look: Look)
    ensures Clean(look) <==>
              look.state == PrinterJobState.Completed && look.queue in {None, Some(QueueFlags(true, true, false))}
  {
  }

  /** The same on the answers themselves. */
  predicate SaysDone(look: Look) {
    look.state == PrinterJobState.Completed && look.queue in {None, Some(QueueFlags(true, true, false))}
  }

  /** Each of these makes a look unclean: another state, a failed probe, a queue that prints, one that is not
      idle. */
  lemma UncleanLooks(look: Look, flags: QueueFlags)
    ensures look.state != PrinterJobState.Completed ==> !Clean(look)
    ensures look.queue == Some(flags) && (!flags.ok || flags.printing || !flags.idle) ==> !Clean(look)
  {
  }

  /** `last` is the second look, taken only once the time was up. */
  datatype Observation =
    | PolledPrinting(owner: Owner)
    | Evaluated(owner: Owner, now: real, first: Look, last: Option<Look>, ready: bool)
    | Restarted

  predicate CleanEvaluation(ob: Observation, o: Owner) {
    ob.Evaluated? && ob.owner == o && Clean(ob.first)
  }

  /** What makes an owner start over: a PRINTING poll, an unclean look, having been declared ready, a
      restart, or another job taking the slot. */
  predicate Disturbs(ob: Observation, o: Owner) {
    match ob
    case PolledPrinting(p) => p == o
    case Restarted => true
    case Evaluated(p, _, first, last, ready) =>
      if p != o then Clean(first)
      else !Clean(first) || (last.Some? && !Clean(last.value)) || ready
  }

  ghost predicate UndisturbedFrom(h: seq<Observation>, o: Owner, i: nat) {
    forall k :: i <= k < |h| ==> !Disturbs(h[k], o)
  }

  ghost predicate FirstCleanAt(h: seq<Observation>, o: Owner, i: nat)
    requires i < |h|
  {
    && CleanEvaluation(h[i], o)
    && UndisturbedFrom(h, o, i)
    && forall k :: 0 <= k < i && CleanEvaluation(h[k], o) ==> !UndisturbedFrom(h, o, k)
  }

  /** `t` is the time of the owner's first clean evaluation after its last disturbance. */
  ghost predicate QuietSince(h: seq<Observation>, o: Owner, t: real) {
    exists i :: 0 <= i < |h| && FirstCleanAt(h, o, i) && h[i].now == t
  }

  lemma {:induction false} QuietSinceExists(h: seq<Observation>, o: Owner, i: nat)
    requires i < |h| && CleanEvaluation(h[i], o) && UndisturbedFrom(h, o, i)
    ensures exists t :: QuietSince(h, o, t)
    decreases i
  {
    if FirstCleanAt(h, o, i) {
      assert QuietSince(h, o, h[i].now);
    } else {
      var k :| 0 <= k < i && CleanEvaluation(h[k], o) && UndisturbedFrom(h, o, k);
      QuietSinceExists(h, o, k);
    }
  }

  lemma UndisturbedExtends(h: seq<Observation>, ob: Observation, o: Owner, i: nat)
    requires i < |h|
    ensures UndisturbedFrom(h + [ob], o, i) <==> UndisturbedFrom(h, o, i) && !Disturbs(ob, o)
  {
    var g := h + [ob];
    assert g[|h|] == ob;
    assert forall k :: 0 <= k < |h| ==> g[k] == h[k];
  }

  /** A disturbance leaves no quiet time. */
  lemma DisturbanceEndsQuiet(h: seq<Observation>, ob: Observation, o: Owner, t: real)
    requires Disturbs(ob, o)
    ensures !QuietSince(h + [ob], o, t)
  {
    var g := h + [ob];
    assert g[|h|] == ob;
  }

  /** Anything else keeps a quiet time that is running. */
  lemma QuietContinues(h: seq<Observation>, ob: Observation, o: Owner, t: real)
    requires !Disturbs(ob, o)
    requires CleanEvaluation(ob, o) ==> exists u :: QuietSince(h, o, u)
    ensures QuietSince(h + [ob], o, t) <==> QuietSince(h, o, t)
  {
    var g := h + [ob];
    forall i: nat | i < |h|
      ensures UndisturbedFrom(g, o, i) <==> UndisturbedFrom(h, o, i)
      ensures FirstCleanAt(g, o, i) <==> FirstCleanAt(h, o, i)
    {
      forall k: nat | k <= i ensures UndisturbedFrom(g, o, k) <==> UndisturbedFrom(h, o, k) {
        UndisturbedExtends(h, ob, o, k);
      }
    }
    if QuietSince(h, o, t) {
      var i :| 0 <= i < |h| && FirstCleanAt(h, o, i) && h[i].now == t;
      assert FirstCleanAt(g, o, i) && g[i].now == t;
    }
  }

  /** A clean evaluation with no quiet time running starts one. */
  lemma QuietStarts(h: seq<Observation>, ob: Observation, o: Owner, t: real)
    requires !Disturbs(ob, o) && CleanEvaluation(ob, o)
    requires forall u :: !QuietSince(h, o, u)
    ensures QuietSince(h + [ob], o, t) <==> t == ob.now
  {
    var g := h + [ob];
    assert g[|h|] == ob;
    forall i: nat | i < |h| && CleanEvaluation(g[i], o)
      ensures !UndisturbedFrom(g, o, i)
    {
      UndisturbedExtends(h, ob, o, i);
      assert g[i] == h[i];
      if UndisturbedFrom(h, o, i) {
        QuietSinceExists(h, o, i);
      }
    }
    assert FirstCleanAt(g, o, |h|);
  }

  datatype Slot = Slot(owner: Owner, stableSince: real)

  /** The timer part of JobManager. */
  class CompletionTimer {
    var slot: Option<Slot>
    const stableSeconds: real
    ghost var history: seq<Observation>

    /** The slot holds exactly the quiet time that is running, and no timer runs when none is asked for. */
    ghost predicate Valid()
      reads this
    {
      && stableSeconds >= 0.0
      && (stableSeconds == 0.0 ==> slot.None?)
      && (stableSeconds > 0.0 ==> SlotIsHistory(slot, history))
    }

    /** A restart keeps nothing of the timer, whatever was observed before. */
    constructor (stableSeconds: real, ghost before: seq<Observation>)
      ensures Valid() && slot.None? && history == before + [Restarted]
      ensures this.stableSeconds == if stableSeconds > 0.0 then stableSeconds else 0.0
    {
      this.stableSeconds := if stableSeconds > 0.0 then stableSeconds else 0.0;
      slot := None;
      history := before + [Restarted];
      new;
      forall o, t
        ensures !QuietSince(before + [Restarted], o, t)
      {
        DisturbanceEndsQuiet(before, Restarted, o, t);
      }
    }

    /** `_reset_physical_completion_settling` for a PRINTING poll: only the owner's own timer stops. */
    method PolledPrintingResets(o: Owner)
      requires Valid()
      modifies this
      ensures Valid() && history == old(history) + [PolledPrinting(o)]
    {
      if slot.Some? && slot.value.owner == o {
        slot := None;
      }
      ghost var ob := PolledPrinting(o);
      ghost var before := history;
      history := history + [ob];
      forall p, t
        ensures QuietSince(history, p, t) <==> p != o && QuietSince(before, p, t)
      {
        if p == o { DisturbanceEndsQuiet(before, ob, p, t); } else { QuietContinues(before, ob, p, t); }
      }
    }

    /** `_evaluate_physical_completion`. Ready means: both looks clean, the checker content, and the owner
        quiet for the whole stable period according to the history. */
    method Evaluate(o: Owner, now: real, first: Look, last: Look, checkerOk: bool) returns (ready: bool)
      requires Valid()
      modifies this
      ensures Valid()
      ensures var timeUp := stableSeconds > 0.0 && Clean(first)
                            && exists t :: QuietSince(old(history), o, t) && now - t >= stableSeconds;
              && history == old(history) + [Evaluated(o, now, first, if timeUp then Some(last) else None, ready)]
              && (stableSeconds > 0.0 ==> (ready <==> timeUp && Clean(last) && checkerOk))
              && (stableSeconds == 0.0 ==> (ready <==> Clean(first) && checkerOk))
      ensures ready ==> SaysDone(first) && (stableSeconds > 0.0 ==> SaysDone(last))
      ensures !SaysDone(first) ==> !ready && (stableSeconds > 0.0 ==> forall t :: !QuietSince(history, o, t))
    {
      CleanLook(first);
      CleanLook(last);
      ready := false;
      ghost var before := history;
      ghost var looked: Option<Look> := None;
      if !Clean(first) {
        if slot.Some? && slot.value.owner == o {
          slot := None;
        }
      } else if stableSeconds <= 0.0 {
        ready := checkerOk;
      } else {
        if slot.None? || slot.value.owner != o {
          slot := Some(Slot(o, now));
        }
        if now - slot.value.stableSince >= stableSeconds {
          looked := Some(last);
          if !Clean(last) {
            slot := None;
          } else if checkerOk {
            slot := None;
            ready := true;
          }
        }
      }
      ghost var ob := Evaluated(o, now, first, looked, ready);
      history := history + [ob];
      if stableSeconds > 0.0 {
        EvaluationKeepsSlot(old(slot), slot, before, ob);
      }
    }
  }

  ghost predicate SlotIsHistory(slot: Option<Slot>, h: seq<Observation>) {
    forall o, t :: QuietSince(h, o, t) <==> slot == Some(Slot(o, t))
  }

  /** What a quiet time is: it began with a clean evaluation of this job at that moment; since then every evaluation
      of this job, and each second look, found it done, none declared it ready, no poll found it printing, no clean
      evaluation of another job took the slot, and there was no restart. */
  lemma QuietTimeMeans(h: seq<Observation>, o: Owner, t: real)
    requires QuietSince(h, o, t)
    ensures exists i :: 0 <= i < |h| && Began(h[i], o, t) && forall k :: i <= k < |h| ==> Undisturbing(h[k], o)
  {
    var i :| 0 <= i < |h| && FirstCleanAt(h, o, i) && h[i].now == t;
    CleanLook(h[i].first);
    assert Began(h[i], o, t);
    forall k | i <= k < |h|
      ensures Undisturbing(h[k], o)
    {
      if h[k].Evaluated? {
        CleanLook(h[k].first);
        if h[k].last.Some? { CleanLook(h[k].last.value); }
      }
    }
  }

  predicate Began(ob: Observation, o: Owner, t: real) {
    ob.Evaluated? && ob.owner == o && ob.now == t && SaysDone(ob.first)
  }

  predicate Undisturbing(ob: Observation, o: Owner) {
    match ob
    case Restarted => false
    case PolledPrinting(p) => p != o
    case Evaluated(p, _, first, last, ready) =>
      if p == o then SaysDone(first) && (last.Some? ==> SaysDone(last.value)) && !ready else !SaysDone(first)
  }

  /** The slot an evaluation leaves behind, seen from the history. */
  lemma EvaluationKeepsSlot(slot: Option<Slot>, next: Option<Slot>, h: seq<Observation>, ob: Observation)
    requires SlotIsHistory(slot, h) && ob.Evaluated?
    requires var mine := slot.Some? && slot.value.owner == ob.owner;
             next == if !Clean(ob.first) then (if mine then None else slot)
                     else if Disturbs(ob, ob.owner) then None
                     else if mine then slot else Some(Slot(ob.owner, ob.now))
    ensures SlotIsHistory(next, h + [ob])
  {
    var o := ob.owner;
    assert slot.Some? ==> QuietSince(h, slot.value.owner, slot.value.stableSince);
    forall p, t
      ensures QuietSince(h + [ob], p, t) <==> next == Some(Slot(p, t))
    {
      if Disturbs(ob, p) {
        DisturbanceEndsQuiet(h, ob, p, t);
      } else if p == o && (slot.None? || slot.value.owner != o) {
        QuietStarts(h, ob, p, t);
      } else {
        QuietContinues(h, ob, p, t);
      }
    }
  }
}
