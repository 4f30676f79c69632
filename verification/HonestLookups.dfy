/** The lookups of app/cups.py under the lifecycle: what `find_existing_job` answers from listings that show what
    CUPS holds is what the guarantees ask for. */
module HonestLookups {
  import opened CupsIdentity
  import opened CupsPrinter
  import opened CupsLookup
  import L = Lifecycle
  import opened LifecycleInvariant
  import opened LifecycleSteps
  import opened Agent
  import HandlerRuns
  import Outcomes
  import Guarantees

  /** What the handler makes of a lookup's answer. */
  function OutcomeOf(r: Lookup): L.Outcome {
    match r
    case NotFound => L.LookupNotFound
    case Found(id) => L.LookupFound(id)
    case Ambiguous(_) => L.LookupUndecided
    case LookupFailed => L.LookupUndecided
    case Escapes => L.Exception
  }

  /** The listings show what CUPS holds, and what it holds for this job is what it accepted. */
  ghost predicate Honest(j: Job, id: JobId, a: Answers, s: Spool) {
    && |a.listings| == 2 && SafeId(id) && SafeOwners(s)
    && CupsTitle(id).Some? && Consistent(a, s, CupsTitle(id).value)
    && forall cupsId :: Owns(s, cupsId, id) <==> cupsId in j.spool
  }

  /** A job that is found is one CUPS accepted for this job, whatever queries failed. */
  lemma FoundIsAccepted(j: Job, id: JobId, a: Answers, s: Spool, r: Lookup)
    requires Honest(j, id, a, s) && LookupAnswer(id, a, r)
    ensures FoundIsOurs(j, L.Step(OutcomeOf(r)))
  {
    if r.Found? {
      assert MatchesAny(a, r.id, CupsTitle(id).value);
      MatchedIsOwned(a, s, id, r.id);
    }
  }

  /** "Not found" from queries that all succeeded means that CUPS accepted none; so it is truthful as soon as no
      `lp` is running any more. */
  lemma NotFoundIsTruthful(j: Job, id: JobId, a: Answers, s: Spool, r: Lookup)
    requires Honest(j, id, a, s) && LookupAnswer(id, a, r) && AllSucceeded(a)
    ensures r.NotFound? ==> j.spool == []
    ensures j.running == 0 ==> Truthful(j, L.Step(OutcomeOf(r)))
  {
    if r.NotFound? && j.spool != [] {
      assert j.spool[0] in j.spool;
      LookupSeesTheSpool(a, s, id, j.spool[0]);
    }
  }

  /** So READY recovery adopts what it finds: a lookup that answers FOUND ends with the job SUBMITTED and watched
      under an id CUPS gave it, and one that cannot decide fails the job. */
  lemma FoundLookupIsAdopted(
    j: Job, id: JobId, job: L.Assignment, path: L.Path, a: Answers, s: Spool, r: Lookup, maxAttempts: int)
    requires Honest(j, id, a, s) && LookupAnswer(id, a, r) && Outcomes.LookingUp(j, job, path)
    ensures r.Found? ==>
              && r.id in j.spool
              && Outcomes.After(j, OutcomeOf(r), 3, maxAttempts)
                 == Outcomes.WatchedPrint(j, false, r.id, Outcomes.FileIfThere(j, path))
    ensures r.Ambiguous? || r.LookupFailed? ==>
              Outcomes.After(j, OutcomeOf(r), 3, maxAttempts) == HandlerRuns.FailedJob(j)
    ensures r.Escapes? ==> Outcomes.After(j, OutcomeOf(r), 0, maxAttempts) == j.(pc := L.Raised)
  {
    FoundIsAccepted(j, id, a, s, r);
    Outcomes.UndecidedLookupFails(j, job, path, maxAttempts);
    if r.Found? {
      Outcomes.FoundJobIsAdopted(j, job, path, r.id, maxAttempts);
    }
  }

  /** Every id or "not found" a lookup gives the handler comes from listings like these; for "not found" to READY
      recovery, every query succeeded and no `lp` of the job is running any more. */
  ghost predicate HonestLabel(s: State, l: Label) {
    l.HandlerStep? && s.active.Some? ==>
      var j := JobOf(s, s.active.value);
      && (l.outcome.LookupFound? ==> exists a, spool, r :: HonestAnswer(j, s.active.value, l.outcome, a, spool, r))
      && (l.outcome.LookupNotFound? && j.pc.Recovery? && j.pc.recovery.AwaitLookup? ==>
            && j.running == 0
            && exists a, spool, r :: HonestAnswer(j, s.active.value, l.outcome, a, spool, r) && AllSucceeded(a))
  }

  ghost predicate HonestAnswer(j: Job, id: JobId, o: L.Outcome, a: Answers, s: Spool, r: Lookup) {
    Honest(j, id, a, s) && LookupAnswer(id, a, r) && o == OutcomeOf(r)
  }

  ghost predicate HonestRun(states: seq<State>, labels: seq<Label>, maxAttempts: int) {
    && IsRun(states, labels, maxAttempts)
    && forall i {:trigger labels[i]} :: 0 <= i < |labels| ==> HonestLabel(states[i], labels[i])
  }

  lemma HonestLabelIsOurs(s: State, l: Label)
    requires HonestLabel(s, l)
    ensures TruthfulLabel(s, l) && FoundIsOursLabel(s, l)
  {
    if l.HandlerStep? && s.active.Some? {
      var id, o := s.active.value, l.outcome;
      var j := JobOf(s, id);
      if o.LookupFound? {
        var a, spool, r :| HonestAnswer(j, id, o, a, spool, r);
        FoundIsAccepted(j, id, a, spool, r);
      } else if o.LookupNotFound? && j.pc.Recovery? && j.pc.recovery.AwaitLookup? {
        var a, spool, r :| HonestAnswer(j, id, o, a, spool, r) && AllSucceeded(a);
        NotFoundIsTruthful(j, id, a, spool, r);
      }
    }
  }

  lemma HonestRunIsOurs(states: seq<State>, labels: seq<Label>, maxAttempts: int)
    requires HonestRun(states, labels, maxAttempts)
    ensures Guarantees.OursRun(states, labels, maxAttempts)
  {
    forall i | 0 <= i < |labels|
      ensures TruthfulLabel(states[i], labels[i]) && FoundIsOursLabel(states[i], labels[i])
    {
      HonestLabelIsOurs(states[i], labels[i]);
    }
  }

  /** At-most-once printing from the listings up: when lookups read listings that show what CUPS holds, CUPS takes
      at most one `lp` per job, and the id in the store is that of the one job it took. */
  lemma AtMostOnePrintFromListings(states: seq<State>, labels: seq<Label>, maxAttempts: int, i: nat, id: JobId)
    requires HonestRun(states, labels, maxAttempts) && i < |states|
    ensures var j := JobOf(states[i], id);
            && L.Prints(j) <= 1
            && (j.row.Some? && j.row.value.cupsJobId.Some? ==> j.spool == [j.row.value.cupsJobId.value])
  {
    HonestRunIsOurs(states, labels, maxAttempts);
    Guarantees.AtMostOnePrint(states, labels, maxAttempts, i, id);
    var j := JobOf(states[i], id);
    if j.row.Some? && j.row.value.cupsJobId.Some? {
      Guarantees.StoredIdIsThePrint(states, labels, maxAttempts, i, id);
    }
  }
}
