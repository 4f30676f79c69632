/** The durable job store (app/database.py): one row a backend job, updated in place. */
module Store {
  import opened Wrappers
  import opened Models

  datatype Row = Row(
    status: JobStatus,
    filePath: Option<string>,
    cupsJobId: Option<string>,
    attemptCount: nat)

  datatype StoreError = JobNotFound | InvalidTransition

  const NEW_ROW := Row(Received, None, None, 0)

  /** What one store call does to the row it names; a refused status leaves the row as it was. */
  datatype Write =
    | SetStatus(status: JobStatus)
    | SetFilePath(path: string)
    | SetCupsJobId(id: string)
    | IncrementAttempt

  function Apply(row: Row, w: Write): (r: Row)
  {
    match w
    case SetStatus(s) => if CanTransition(row.status, s) then row.(status := s) else row
    case SetFilePath(p) => row.(filePath := Some(p))
    case SetCupsJobId(id) => row.(cupsJobId := Some(id))
    case IncrementAttempt => row.(attemptCount := row.attemptCount + 1)
  }

  function ApplyAll(row: Row, ws: seq<Write>): Row
    decreases ws
  {
    if ws == [] then row else ApplyAll(Apply(row, ws[0]), ws[1..])
  }

  /** How far a status is from the start; equal ranks share one loop, downloading and waiting. */
  function Rank(s: JobStatus): nat {
    match s
    case Received => 0
    case Downloading => 1
    case RetryWaiting => 1
    case Ready => 2
    case Submitted => 3
    case Printing => 4
    case Completed => 5
    case Failed => 5
    case Cancelled => 5
  }

  /** A transition goes up in rank, but for the loop of downloading and waiting. */
  lemma RankRises(a: JobStatus, b: JobStatus)
    requires b in AllowedTransitions(a)
    ensures Rank(a) < Rank(b) || (a == Downloading && b == RetryWaiting) || (a == RetryWaiting && b == Downloading)
  {
  }

  /** Whatever calls reach a row, in any order and with any arguments, its status never goes back:
      a terminal row keeps its status, and a READY row can become nothing but printed or failed. */
  lemma {:induction false} WritesNeverReopen(row: Row, ws: seq<Write>)
    ensures Rank(row.status) <= Rank(ApplyAll(row, ws).status)
    ensures Terminal(row.status) ==> ApplyAll(row, ws).status == row.status
    ensures row.status == Ready && ApplyAll(row, ws).status == Cancelled ==> SetStatus(Submitted) in ws
    decreases ws
  {
    if ws == [] {
    } else {
      var next := Apply(row, ws[0]);
      WritesNeverReopen(next, ws[1..]);
      assert Rank(row.status) <= Rank(next.status);
      if row.status == Ready && next.status != Ready && ApplyAll(row, ws).status == Cancelled {
        assert ws[0] in ws;
      }
    }
  }

  class Database {
    var rows: map<string, Row>

    constructor ()
      ensures rows == map[]
    {
      rows := map[];
    }

    /** An id that is already stored keeps its row (the unique index refuses the insert). */
    method CreateJob(id: string) returns (record: Row)
      modifies this
      ensures id !in old(rows) ==> rows == old(rows)[id := NEW_ROW]
      ensures id in old(rows) ==> rows == old(rows)
      ensures id in rows && record == rows[id]
    {
      if id !in rows {
        rows := rows[id := NEW_ROW];
      }
      record := rows[id];
    }

    method GetByBackendId(id: string) returns (record: Option<Row>)
      ensures record == if id in rows then Some(rows[id]) else None
    {
      record := if id in rows then Some(rows[id]) else None;
    }

    method UpdateStatus(id: string, status: JobStatus) returns (r: Result<Row, StoreError>)
      modifies this
      ensures id !in old(rows) ==> r == Err(JobNotFound) && rows == old(rows)
      ensures id in old(rows) ==> rows == old(rows)[id := Apply(old(rows)[id], SetStatus(status))]
      ensures id in old(rows) && CanTransition(old(rows)[id].status, status) ==>
                r == Ok(rows[id]) && rows[id].status == status
      ensures id in old(rows) && !CanTransition(old(rows)[id].status, status) ==>
                r == Err(InvalidTransition) && rows == old(rows)
    {
      if id !in rows {
        return Err(JobNotFound);
      }
      var current := rows[id].status;
      if current != status && status !in AllowedTransitions(current) {
        assert rows == rows[id := rows[id]];
        return Err(InvalidTransition);
      }
      rows := rows[id := rows[id].(status := status)];
      return Ok(rows[id]);
    }

    /** The three column updates below touch no row when the id is not stored. */
    method SetFilePath(id: string, path: string)
      modifies this
      ensures rows == if id in old(rows) then old(rows)[id := Apply(old(rows)[id], Write.SetFilePath(path))]
                      else old(rows)
    {
      if id in rows {
        rows := rows[id := rows[id].(filePath := Some(path))];
      }
    }

    method SetCupsJobId(id: string, cupsJobId: string)
      modifies this
      ensures rows == if id in old(rows) then old(rows)[id := Apply(old(rows)[id], Write.SetCupsJobId(cupsJobId))]
                      else old(rows)
    {
      if id in rows {
        rows := rows[id := rows[id].(cupsJobId := Some(cupsJobId))];
      }
    }

    method IncrementAttempt(id: string)
      modifies this
      ensures rows == if id in old(rows) then old(rows)[id := Apply(old(rows)[id], Write.IncrementAttempt)]
                      else old(rows)
    {
      if id in rows {
        rows := rows[id := rows[id].(attemptCount := rows[id].attemptCount + 1)];
      }
    }

    /** Each non-terminal row once, in an order the query leaves open. */
    method ListNonTerminalJobs() returns (jobs: seq<string>)
      ensures IsUnfinishedList(rows, jobs)
    {
      jobs := [];
      var remaining := rows.Keys;
      while remaining != {}
        invariant remaining <= rows.Keys
        invariant forall id :: id in jobs <==> id in rows.Keys - remaining && !Terminal(rows[id].status)
        invariant forall i, k :: 0 <= i < k < |jobs| ==> jobs[i] != jobs[k]
        decreases remaining
      {
        var id :| id in remaining;
        if !Terminal(rows[id].status) {
          jobs := jobs + [id];
        }
        remaining := remaining - {id};
      }
    }
  }

  ghost predicate IsUnfinishedList(rows: map<string, Row>, jobs: seq<string>) {
    && (forall id :: id in jobs <==> id in rows && !Terminal(rows[id].status))
    && (forall i, k :: 0 <= i < k < |jobs| ==> jobs[i] != jobs[k])
  }
}
