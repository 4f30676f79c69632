/** What a lookup answer says about the jobs CUPS really holds. */
module CupsLookup {
  import opened Wrappers
  import opened CupsIdentity
  import opened CupsPrinter

  /** The jobs CUPS holds, with the backend id each was submitted for. */
  datatype Spool = Spool(active: map<string, string>, completed: map<string, string>)

  function Part(s: Spool, i: nat): map<string, string> {
    if i == 0 then s.active else s.completed
  }

  /** What a successful listing shows is so: exactly the jobs of its part, each with its own title. */
  ghost predicate Shows(a: Answers, i: nat, s: Spool, marker: string)
    requires i < |a.listings|
  {
    Succeeded(a.listings[i]) ==>
      && (forall id :: id in IdsListed(a, i) <==> id in Part(s, i))
      && (forall k: nat {:trigger a.details(i, k)} :: k < |IdsListed(a, i)| && Succeeded(a.details(i, k)) ==>
            IdsListed(a, i)[k] in Part(s, i)
            && (Shown(a, i, k, marker) <==> CupsTitle(Part(s, i)[IdsListed(a, i)[k]]) == Some(marker)))
  }

  ghost predicate Consistent(a: Answers, s: Spool, marker: string)
    requires |a.listings| == 2
  {
    Shows(a, 0, s, marker) && Shows(a, 1, s, marker)
  }

  /** Some detail query about this id succeeded. */
  ghost predicate Seen(a: Answers, i: nat, id: string)
    requires i < |a.listings|
  {
    exists k: nat {:trigger IdsListed(a, i)[k]} ::
      k < |IdsListed(a, i)| && IdsListed(a, i)[k] == id && Succeeded(a.details(i, k))
  }

  ghost predicate QuerySucceeded(a: Answers, i: nat)
    requires i < |a.listings|
  {
    Succeeded(a.listings[i]) && forall id :: id in IdsListed(a, i) ==> Seen(a, i, id)
  }

  /** Both listings succeeded, and every id they name was seen in detail. */
  ghost predicate AllSucceeded(a: Answers)
    requires |a.listings| == 2
  {
    QuerySucceeded(a, 0) && QuerySucceeded(a, 1)
  }

  predicate Owns(s: Spool, id: string, backendJobId: string) {
    || (id in s.active && s.active[id] == backendJobId)
    || (id in s.completed && s.completed[id] == backendJobId)
  }

  /** CUPS jobs of the agent carry safe ids; "" stands for a job that is not the agent's. */
  ghost predicate SafeOwners(s: Spool) {
    && (forall k <- s.active :: s.active[k] == "" || SafeId(s.active[k]))
    && (forall k <- s.completed :: s.completed[k] == "" || SafeId(s.completed[k]))
  }

  lemma MatchedHasTitle(a: Answers, i: nat, s: Spool, id: string, marker: string)
    requires i < |a.listings| && Shows(a, i, s, marker) && Matches(a, i, id, marker)
    ensures id in Part(s, i) && CupsTitle(Part(s, i)[id]) == Some(marker)
  {
    var k: nat :| k < |IdsListed(a, i)| && IdsListed(a, i)[k] == id && Shown(a, i, k, marker);
    assert Succeeded(a.details(i, k));
  }

  lemma TitledIsMatched(a: Answers, i: nat, s: Spool, id: string, marker: string)
    requires i < |a.listings| && Shows(a, i, s, marker) && QuerySucceeded(a, i)
    requires id in Part(s, i) && CupsTitle(Part(s, i)[id]) == Some(marker)
    ensures Matches(a, i, id, marker)
  {
    assert Seen(a, i, id);
    var k: nat :| k < |IdsListed(a, i)| && IdsListed(a, i)[k] == id && Succeeded(a.details(i, k));
    assert Shown(a, i, k, marker);
  }

  lemma OwnedIsMatched(a: Answers, s: Spool, backendJobId: string, id: string, marker: string)
    requires |a.listings| == 2 && CupsTitle(backendJobId) == Some(marker)
    requires Consistent(a, s, marker) && AllSucceeded(a) && Owns(s, id, backendJobId)
    ensures MatchesAny(a, id, marker)
  {
    if id in s.active && s.active[id] == backendJobId {
      TitledIsMatched(a, 0, s, id, marker);
    } else {
      TitledIsMatched(a, 1, s, id, marker);
    }
  }

  /** A title names one safe id. */
  lemma TitleNamesOwner(owner: string, backendJobId: string)
    requires SafeId(backendJobId) && (owner == "" || SafeId(owner))
    requires CupsTitle(owner).Some? && CupsTitle(owner) == CupsTitle(backendJobId)
    ensures owner == backendJobId
  {
    if owner != "" {
      TitleCollisions(owner, backendJobId);
    }
  }

  /** Whatever fails, with safe ids a lookup matches none but this job's CUPS jobs. */
  lemma MatchedIsOwned(a: Answers, s: Spool, backendJobId: string, id: string)
    requires |a.listings| == 2 && SafeId(backendJobId) && SafeOwners(s)
    requires CupsTitle(backendJobId).Some? && Consistent(a, s, CupsTitle(backendJobId).value)
    requires MatchesAny(a, id, CupsTitle(backendJobId).value)
    ensures Owns(s, id, backendJobId)
  {
    var marker := CupsTitle(backendJobId).value;
    if Matches(a, 0, id, marker) {
      MatchedHasTitle(a, 0, s, id, marker);
      TitleNamesOwner(s.active[id], backendJobId);
    } else {
      MatchedHasTitle(a, 1, s, id, marker);
      TitleNamesOwner(s.completed[id], backendJobId);
    }
  }

  /** With every query answered too, the ids a lookup matches are exactly this job's: "not found" means CUPS
      holds none. */
  lemma LookupSeesTheSpool(a: Answers, s: Spool, backendJobId: string, id: string)
    requires |a.listings| == 2 && SafeId(backendJobId) && SafeOwners(s)
    requires CupsTitle(backendJobId).Some? && Consistent(a, s, CupsTitle(backendJobId).value) && AllSucceeded(a)
    ensures MatchesAny(a, id, CupsTitle(backendJobId).value) <==> Owns(s, id, backendJobId)
  {
    if Owns(s, id, backendJobId) {
      OwnedIsMatched(a, s, backendJobId, id, CupsTitle(backendJobId).value);
    } else if MatchesAny(a, id, CupsTitle(backendJobId).value) {
      MatchedIsOwned(a, s, backendJobId, id);
    }
  }

  /** "Not found" is certain exactly when both listings succeeded and every listed id was seen in detail: in
      every other case the same answers fit a spool that does hold the job. */
  lemma NotFoundIsCertain(a: Answers, backendJobId: string)
    requires |a.listings| == 2 && Conclusive(a, backendJobId)
    requires forall id :: !MatchesAny(a, id, CupsTitle(backendJobId).value)
    ensures AllSucceeded(a) <==>
            !exists s, id :: Consistent(a, s, CupsTitle(backendJobId).value) && Owns(s, id, backendJobId)
  {
    var marker := CupsTitle(backendJobId).value;
    if AllSucceeded(a) {
      forall s, id | Consistent(a, s, marker)
        ensures !Owns(s, id, backendJobId)
      {
        if Owns(s, id, backendJobId) {
          OwnedIsMatched(a, s, backendJobId, id, marker);
        }
      }
    } else {
      var s, id := HiddenJob(a, backendJobId, marker);
      assert Consistent(a, s, marker) && Owns(s, id, backendJobId);
    }
  }

  /** A part of a spool that fits listing `i`: unseen jobs are taken to be the one looked for. */
  ghost function Hidden(a: Answers, i: nat, backendJobId: string): map<string, string>
    requires i < |a.listings|
  {
    if !Succeeded(a.listings[i]) then map["" := backendJobId]
    else map id | id in IdsListed(a, i) :: if Seen(a, i, id) then "" else backendJobId
  }

  lemma HiddenFits(a: Answers, i: nat, backendJobId: string, marker: string, s: Spool)
    requires i < |a.listings| && CupsTitle(backendJobId) == Some(marker)
    requires forall id :: !Matches(a, i, id, marker)
    requires Part(s, i) == Hidden(a, i, backendJobId)
    ensures Shows(a, i, s, marker)
  {
    assert CupsTitle("").None?;
    if Succeeded(a.listings[i]) {
      forall k: nat | k < |IdsListed(a, i)| && Succeeded(a.details(i, k))
        ensures Part(s, i)[IdsListed(a, i)[k]] == "" && !Shown(a, i, k, marker)
      {
        assert Seen(a, i, IdsListed(a, i)[k]);
        assert !Matches(a, i, IdsListed(a, i)[k], marker);
      }
    }
  }

  lemma HiddenJob(a: Answers, backendJobId: string, marker: string) returns (s: Spool, id: string)
    requires |a.listings| == 2 && CupsTitle(backendJobId) == Some(marker)
    requires forall id :: !MatchesAny(a, id, marker)
    requires !AllSucceeded(a)
    ensures Consistent(a, s, marker) && Owns(s, id, backendJobId)
  {
    s := Spool(Hidden(a, 0, backendJobId), Hidden(a, 1, backendJobId));
    assert forall k :: (Matches(a, 0, k, marker) || Matches(a, 1, k, marker)) ==> MatchesAny(a, k, marker);
    HiddenFits(a, 0, backendJobId, marker, s);
    HiddenFits(a, 1, backendJobId, marker, s);
    var i: nat := if !QuerySucceeded(a, 0) then 0 else 1;
    if !Succeeded(a.listings[i]) {
      id := "";
    } else {
      id :| id in IdsListed(a, i) && !Seen(a, i, id);
    }
    assert id in Part(s, i) && Part(s, i)[id] == backendJobId;
  }

  /** One case of it: the listing of unfinished jobs fails while it would have shown the job, the completed one
      is empty, and the answer is "not found". */
  lemma NotFoundCanBeWrong(a: Answers, s: Spool)
    requires a.listings == [Done(1, [], ""), Done(0, [], "")] && s == Spool(map["q-1" := "a"], map[])
    ensures Conclusive(a, "a") && LookupAnswer("a", a, NotFound)
    ensures Consistent(a, s, CupsTitle("a").value) && Owns(s, "q-1", "a")
  {
    SafeCharsAreStripped("a");
    assert CupsTitle("a").Some?;
  }
}
