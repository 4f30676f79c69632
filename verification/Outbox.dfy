/** What the WebSocket client keeps for later (app/websocket_client.py): one status a job, and a bounded
    queue of telemetry. */
module Outbox {
  import opened Wrappers
  import opened Models

  type JobId = string

  datatype StatusReport = StatusReport(job: JobId, status: JobStatus, cupsJobId: Option<string>)

  /** The number of the job's last report, if it has one. */
  ghost predicate IsLastReport(reports: seq<StatusReport>, n: int) {
    0 <= n < |reports| && forall k :: n < k < |reports| ==> reports[k].job != reports[n].job
  }

  /** Report `n` is the one its job has pending. */
  ghost predicate Held(numbers: map<JobId, nat>, reports: seq<StatusReport>, n: int) {
    0 <= n < |reports| && reports[n].job in numbers && numbers[reports[n].job] == n
  }

  /** The status side of WebSocketClient. The ghost fields number the reports and record which were sent. */
  class StatusOutbox {
    var connected: bool
    var pending: map<JobId, StatusReport>
    ghost var reports: seq<StatusReport>
    ghost var sent: set<nat>
    ghost var pendingNumber: map<JobId, nat>

    /** Each job's last report was sent or is exactly its pending entry. */
    ghost predicate Valid()
      reads this
    {
      && pending.Keys == pendingNumber.Keys
      && (forall j <- pending ::
            pendingNumber[j] < |reports| && pending[j] == reports[pendingNumber[j]] && pending[j].job == j)
      && (forall n <- sent :: n < |reports|)
      && (forall n :: IsLastReport(reports, n) ==> n in sent || Held(pendingNumber, reports, n))
    }

    constructor ()
      ensures Valid() && pending == map[] && reports == [] && sent == {} && !connected
    {
      connected, pending, reports, sent, pendingNumber := false, map[], [], {}, map[];
    }

    method SetConnected(c: bool)
      requires Valid()
      modifies this`connected
      ensures Valid() && connected == c
    {
      connected := c;
    }

    /** `send_status`: an unsent report takes its job's pending place. */
    method SendStatus(report: StatusReport, sendSucceeds: bool)
      requires Valid()
      modifies this
      ensures Valid() && connected == old(connected) && reports == old(reports) + [report]
      ensures sent == old(sent) + (if old(connected) && sendSucceeds then {|old(reports)|} else {})
      ensures pending == if old(connected) && sendSucceeds then old(pending) else old(pending)[report.job := report]
    {
      ghost var n := |reports|;
      ghost var before := reports;
      reports := reports + [report];
      forall k | IsLastReport(reports, k) && k != n
        ensures IsLastReport(before, k) && reports[k].job != report.job
      {
        assert reports[n] == report && reports[k] == before[k];
        assert forall m :: k < m < n ==> before[m] == reports[m];
      }
      if connected && sendSucceeds {
        sent := sent + {n};
      } else {
        pending := pending[report.job := report];
        pendingNumber := pendingNumber[report.job := n];
      }
    }

    /** One entry taken out of the batch: sent, or put back. */
    method TryPending(report: StatusReport, ghost n: nat, sendSucceeds: bool)
      modifies this`pending, this`pendingNumber, this`sent
      ensures sendSucceeds ==> pending == old(pending) && pendingNumber == old(pendingNumber) && sent == old(sent) + {n}
      ensures !sendSucceeds ==> pending == old(pending)[report.job := report] && sent == old(sent)
      ensures !sendSucceeds ==> pendingNumber == old(pendingNumber)[report.job := n]
    {
      if sendSucceeds {
        sent := sent + {n};
      } else {
        pending := pending[report.job := report];
        pendingNumber := pendingNumber[report.job := n];
      }
    }

    /** `_flush_pending_statuses`, with no report arriving meanwhile: every pending report is tried once;
        those whose send fails stay and the others are sent. */
    method FlushPendingStatuses(sendSucceeds: JobId -> bool)
      requires Valid()
      modifies this
      ensures Valid() && connected == old(connected) && reports == old(reports)
      ensures forall j :: j in pending <==> j in old(pending) && !(connected && sendSucceeds(j))
      ensures forall j <- pending :: pending[j] == old(pending)[j]
      ensures old(sent) <= sent
      ensures connected ==> forall j <- old(pending) :: sendSucceeds(j) ==> old(pendingNumber)[j] in sent
      ensures forall n <- sent :: n in old(sent)
                || (connected && Held(old(pendingNumber), reports, n) && sendSucceeds(reports[n].job))
    {
      if !connected || pending == map[] {
        return;
      }
      var batch := pending;
      ghost var numbers := pendingNumber;
      pending := map[];
      pendingNumber := map[];
      var remaining := batch.Keys;
      while remaining != {}
        invariant remaining <= batch.Keys
        invariant connected && reports == old(reports)
        invariant pending.Keys == pendingNumber.Keys
        invariant forall j :: j in pending <==> j in batch && j !in remaining && !sendSucceeds(j)
        invariant forall j <- pending :: pending[j] == batch[j] && pendingNumber[j] == numbers[j]
        invariant old(sent) <= sent
        invariant forall j <- batch :: j !in remaining && sendSucceeds(j) ==> numbers[j] in sent
        invariant forall n <- sent :: n in old(sent) || (Held(numbers, reports, n) && sendSucceeds(reports[n].job))
        decreases remaining
      {
        var j :| j in remaining;
        remaining := remaining - {j};
        assert Held(numbers, reports, numbers[j]);
        TryPending(batch[j], numbers[j], sendSucceeds(j));
      }
    }
  }

  /** One job while a flush is under way: `waiting` is its entry in the batch, until that is tried. Reports are
      numbered, and more may arrive at every await of the flush. */
  datatype JobFlush = JobFlush(waiting: Option<nat>, pending: Option<nat>, sent: set<nat>, last: nat)

  function Reported(f: JobFlush, sendSucceeds: bool): JobFlush {
    var n := f.last + 1;
    if sendSucceeds then f.(sent := f.sent + {n}, last := n) else f.(pending := Some(n), last := n)
  }

  function ReportedAll(f: JobFlush, sends: seq<bool>): JobFlush {
    if sends == [] then f else Reported(ReportedAll(f, sends[..|sends| - 1]), sends[|sends| - 1])
  }

  function Tried(f: JobFlush, sendSucceeds: bool): JobFlush
    requires f.waiting.Some?
  {
    if sendSucceeds then f.(sent := f.sent + {f.waiting.value}, waiting := None)
    else f.(pending := f.waiting, waiting := None)
  }

  predicate LastKept(f: JobFlush) {
    f.last in f.sent || f.pending == Some(f.last)
  }

  lemma {:induction false} ReportsShape(f: JobFlush, sends: seq<bool>)
    requires forall n <- f.sent :: n <= f.last
    ensures var g := ReportedAll(f, sends);
            && g.waiting == f.waiting && g.last == f.last + |sends| && (forall n <- g.sent :: n <= g.last)
            && (sends == [] ==> g == f)
            && (sends != [] ==> LastKept(g) && (g.last in g.sent <==> sends[|sends| - 1]))
  {
    if sends != [] {
      ReportsShape(f, sends[..|sends| - 1]);
    }
  }

  /** A flush that reports interrupt can lose a job's newest status. It does exactly when that status could not
      be sent, arrived while an older one of the same job was waiting in the batch, and the older one cannot
      be sent either: the older status then takes its place. */
  lemma FlushLosesNewestReport(n: nat, sent: set<nat>, before: seq<bool>, sendSucceeds: bool, after: seq<bool>)
    requires forall k <- sent :: k < n
    ensures var start := ReportedAll(JobFlush(Some(n), None, sent, n), before);
            && start.waiting == Some(n)
            && (LastKept(ReportedAll(Tried(start, sendSucceeds), after)) <==>
                  sendSucceeds || after != [] || before == [] || before[|before| - 1])
  {
    var flush := JobFlush(Some(n), None, sent, n);
    ReportsShape(flush, before);
    ReportsShape(Tried(ReportedAll(flush, before), sendSucceeds), after);
  }

  /** One case of it: the newer status is queued, then the older one's send fails and takes its place. */
  lemma FlushCanLose()
    ensures !LastKept(Tried(ReportedAll(JobFlush(Some(0), None, {}, 0), [false]), false))
  {
    FlushLosesNewestReport(0, {}, [false], false, []);
  }

  /** A send that has ended; the sends of one job's reports may overlap and end in any order. */
  datatype SendEnd = SendEnd(number: nat, succeeded: bool)

  datatype Overlap = Overlap(pending: Option<nat>, sent: set<nat>)

  function AfterSends(start: Overlap, ends: seq<SendEnd>): Overlap {
    if ends == [] then start
    else
      var o := AfterSends(start, ends[..|ends| - 1]);
      var end := ends[|ends| - 1];
      if end.succeeded then o.(sent := o.sent + {end.number}) else o.(pending := Some(end.number))
  }

  /** Overlapping sends lose a job's newest status exactly when its send fails and that of an older one fails
      after it: the older status then takes its pending place. */
  lemma {:induction false} OverlapLosesNewestReport(start: Overlap, ends: seq<SendEnd>, newest: nat)
    requires newest < |ends| && ends[newest].number !in start.sent
    requires forall i, k :: 0 <= i < k < |ends| ==> ends[i].number != ends[k].number
    ensures var o := AfterSends(start, ends); var n := ends[newest].number;
            && (n in o.sent <==> ends[newest].succeeded)
            && (n in o.sent || o.pending == Some(n) <==>
                  ends[newest].succeeded || forall i :: newest < i < |ends| ==> ends[i].succeeded)
  {
    var init := ends[..|ends| - 1];
    if newest < |ends| - 1 {
      OverlapLosesNewestReport(start, init, newest);
      assert ends[|ends| - 1].number != ends[newest].number;
    } else {
      OnlyEndedAreSent(start, init, ends[newest].number);
    }
  }

  lemma {:induction false} OnlyEndedAreSent(start: Overlap, ends: seq<SendEnd>, n: nat)
    requires n !in start.sent && forall i :: 0 <= i < |ends| ==> ends[i].number != n
    ensures n !in AfterSends(start, ends).sent
  {
    if ends != [] {
      OnlyEndedAreSent(start, ends[..|ends| - 1], n);
    }
  }

  /** One case of it: report 1 fails, then the older report 0. */
  lemma OverlapCanLose()
    ensures AfterSends(Overlap(None, {}), [SendEnd(1, false), SendEnd(0, false)]) == Overlap(Some(0), {})
  {
    assert [SendEnd(1, false), SendEnd(0, false)][..1] == [SendEnd(1, false)];
    assert [SendEnd(1, false)][..0] == [];
    assert AfterSends(Overlap(None, {}), [SendEnd(1, false)]) == Overlap(Some(1), {});
  }

  datatype Telemetry = Telemetry(sequence: nat, heartbeat: bool)

  const QUEUE_LIMIT := 20

  function LastOf(s: seq<Telemetry>): seq<Telemetry> {
    if |s| <= QUEUE_LIMIT then s else s[|s| - QUEUE_LIMIT..]
  }

  predicate Ascending(s: seq<Telemetry>) {
    forall i, k :: 0 <= i < k < |s| ==> s[i].sequence < s[k].sequence
  }

  /** Entries in strictly increasing sequence order, with a heartbeat nowhere but in front. */
  predicate Ordered(s: seq<Telemetry>) {
    Ascending(s) && forall i :: 0 < i < |s| ==> !s[i].heartbeat
  }

  /** The trimming loop: it drops from the front while there are too many, and stops at the first entry dropped
      that is no heartbeat. */
  function Trimmed(s: seq<Telemetry>): seq<Telemetry> {
    if |s| <= QUEUE_LIMIT then s else if s[0].heartbeat then Trimmed(s[1..]) else s[1..]
  }

  /** `t` is `s` without its first `n` entries: none of a queue that fits; otherwise only heartbeats before the last
      one dropped, each while there were too many, until the rest fits or an entry that is no heartbeat went. */
  predicate DropsFront(s: seq<Telemetry>, t: seq<Telemetry>, n: nat) {
    && n <= |s| && t == s[n..]
    && (|s| <= 20 <==> n == 0)
    && (n > 0 ==>
          && |s| - (n - 1) > 20
          && (forall i :: 0 <= i < n - 1 ==> s[i].heartbeat)
          && (|t| == 20 || !s[n - 1].heartbeat))
  }

  /** Trimming loses heartbeats and at most one other entry, and that only from a queue that is too long. */
  lemma {:induction false} TrimmedDropsFront(s: seq<Telemetry>) returns (n: nat)
    ensures DropsFront(s, Trimmed(s), n)
  {
    if |s| <= QUEUE_LIMIT {
      n := 0;
    } else if s[0].heartbeat && |s| - 1 > QUEUE_LIMIT {
      var m := TrimmedDropsFront(s[1..]);
      n := m + 1;
      assert forall i :: 0 < i < n ==> s[i] == s[1..][i - 1];
      assert s[1..][m..] == s[n..];
    } else {
      n := 1;
      assert |s| - 1 <= QUEUE_LIMIT ==> Trimmed(s[1..]) == s[1..];
    }
  }

  function Enqueued(queue: seq<Telemetry>, e: Telemetry): seq<Telemetry> {
    if e.heartbeat && queue != [] then queue else Trimmed(queue + [e])
  }

  function EnqueuedAll(queue: seq<Telemetry>, entries: seq<Telemetry>): seq<Telemetry> {
    if entries == [] then queue
    else Enqueued(EnqueuedAll(queue, entries[..|entries| - 1]), entries[|entries| - 1])
  }

  lemma LastOfAppend(s: seq<Telemetry>, e: Telemetry)
    ensures var longer := LastOf(s) + [e];
            LastOf(s + [e]) == if |longer| > QUEUE_LIMIT then longer[1..] else longer
  {
  }

  lemma OrderedAppend(s: seq<Telemetry>, e: Telemetry)
    requires Ordered(s) && (e.heartbeat ==> s == []) && forall a <- s :: a.sequence < e.sequence
    ensures Ordered(s + [e])
  {
  }

  lemma LastOfOrdered(s: seq<Telemetry>)
    requires Ordered(s)
    ensures Ordered(LastOf(s))
  {
  }

  /** One entry more: what waits is still the last 20 of what was accepted. */
  lemma EnqueuedIsLast(accepted: seq<Telemetry>, e: Telemetry)
    requires Ordered(accepted) && forall a <- accepted :: a.sequence < e.sequence
    ensures LastOf(accepted) == [] <==> accepted == []
    ensures var now := if e.heartbeat && accepted != [] then accepted else accepted + [e];
            Ordered(now) && Ordered(LastOf(now)) && Enqueued(LastOf(accepted), e) == LastOf(now)
  {
    LastOfOrdered(accepted);
    if !(e.heartbeat && accepted != []) {
      LastOfAppend(accepted, e);
      OrderedAppend(accepted, e);
      LastOfOrdered(accepted + [e]);
      var longer := LastOf(accepted) + [e];
      assert |longer| > QUEUE_LIMIT ==> Trimmed(longer[1..]) == longer[1..];
    } else {
      assert |LastOf(accepted)| > 0;
    }
  }

  /** A queue that is in order takes a newer entry in order. */
  lemma EnqueuedInOrder(queue: seq<Telemetry>, e: Telemetry)
    requires Ordered(queue) && |queue| <= QUEUE_LIMIT && forall a <- queue :: a.sequence < e.sequence
    ensures var next := Enqueued(queue, e);
            Ordered(next) && 0 < |next| <= QUEUE_LIMIT && forall a <- next :: a in queue || a == e
  {
    assert LastOf(queue) == queue;
    EnqueuedIsLast(queue, e);
  }

  /** Entries numbered upwards, queued into an empty queue. */
  lemma {:induction false} QueuedInOrder(entries: seq<Telemetry>)
    requires Ascending(entries)
    ensures var queue := EnqueuedAll([], entries);
            && Ordered(queue) && |queue| <= 20 && (queue == [] <==> entries == [])
            && forall e <- queue :: e in entries
  {
    if entries != [] {
      var init, e := entries[..|entries| - 1], entries[|entries| - 1];
      QueuedInOrder(init);
      NewestIsLast(entries);
      EnqueuedInOrder(EnqueuedAll([], init), e);
      assert forall a <- init :: a in entries;
    }
  }

  lemma NewestIsLast(entries: seq<Telemetry>)
    requires entries != [] && Ascending(entries)
    ensures forall a <- entries[..|entries| - 1] :: a.sequence < entries[|entries| - 1].sequence
    ensures Ascending(entries[..|entries| - 1])
  {
  }

  /** An entry that is queued late, because its send overlapped with others and failed after them, breaks the order
      exactly when a newer one already waits; a late heartbeat is dropped instead. */
  lemma LateEntryBreaksOrder(queue: seq<Telemetry>, e: Telemetry)
    requires Ordered(queue) && |queue| <= QUEUE_LIMIT
    ensures Ordered(Enqueued(queue, e)) <==>
              queue == [] || e.heartbeat || queue[|queue| - 1].sequence < e.sequence
  {
    if queue != [] && !e.heartbeat {
      var longer, next := queue + [e], Enqueued(queue, e);
      assert |longer| > QUEUE_LIMIT ==> Trimmed(longer[1..]) == longer[1..];
      assert next == longer || next == longer[1..];
      assert next[|next| - 1] == e && next[|next| - 2] == queue[|queue| - 1];
      if queue[|queue| - 1].sequence < e.sequence {
        assert forall a <- queue :: a.sequence <= queue[|queue| - 1].sequence;
        OrderedAppend(queue, e);
        assert Ordered(longer);
      }
    }
  }

  /** One case of it: of two overlapping sends the newer fails first. */
  lemma OverlapCanDisorder()
    ensures Enqueued(Enqueued([], Telemetry(2, false)), Telemetry(1, false))
            == [Telemetry(2, false), Telemetry(1, false)]
    ensures !Ordered([Telemetry(2, false), Telemetry(1, false)])
  {
    assert [] + [Telemetry(2, false)] == [Telemetry(2, false)];
    var disordered := [Telemetry(2, false), Telemetry(1, false)];
    assert disordered[0].sequence > disordered[1].sequence;
  }

  /** A flush whose send fails puts its entry behind those queued meanwhile. So the order breaks exactly when an
      entry was queued between the start of the flush and the failure, and a queue of 20 then holds one too
      many. */
  lemma LateFailureBreaksOrder(batch: seq<Telemetry>, failed: nat, arrived: seq<Telemetry>)
    requires failed < |batch| && Ascending(arrived) && forall e <- arrived :: batch[failed].sequence < e.sequence
    ensures var queue := EnqueuedAll([], arrived);
            && (Ordered(queue + [batch[failed]]) <==> arrived == [])
            && (|queue + [batch[failed]]| > 20 <==> |queue| == 20)
  {
    var queue := EnqueuedAll([], arrived);
    QueuedInOrder(arrived);
    var after := queue + [batch[failed]];
    if arrived != [] {
      assert queue[0] in queue && after[0] == queue[0] && after[|queue|] == batch[failed];
    }
  }

  /** The telemetry side of WebSocketClient; `accepted` holds what was taken since the queue was last empty. */
  class TelemetryQueue {
    var pending: seq<Telemetry>
    ghost var accepted: seq<Telemetry>

    /** The queue is the last 20 of what was accepted, in order. */
    ghost predicate IsLastTwenty()
      reads this
    {
      pending == LastOf(accepted) && Ordered(accepted)
    }

    constructor ()
      ensures IsLastTwenty() && pending == []
    {
      pending, accepted := [], [];
    }

    /** `_queue_pending_telemetry`: a heartbeat is dropped when anything waits; the oldest goes when there are
        too many. An entry with a number above all accepted ones, as the service gives them, keeps the queue the
        last 20 in order. */
    method Enqueue(e: Telemetry)
      modifies this
      ensures accepted == if e.heartbeat && old(pending) != [] then old(accepted) else old(accepted) + [e]
      ensures pending == Enqueued(old(pending), e)
      ensures old(IsLastTwenty()) && (forall a <- old(accepted) :: a.sequence < e.sequence) ==>
                IsLastTwenty() && Ordered(pending)
    {
      if IsLastTwenty() && forall a <- accepted :: a.sequence < e.sequence {
        EnqueuedIsLast(accepted, e);
      }
      if e.heartbeat && pending != [] {
        return;
      }
      pending := pending + [e];
      accepted := accepted + [e];
      DropOldest();
    }

    /** The trimming loop. */
    method DropOldest()
      modifies this`pending
      ensures pending == Trimmed(old(pending))
      ensures exists n :: DropsFront(old(pending), pending, n)
    {
      var n := TrimmedDropsFront(pending);
      while |pending| > QUEUE_LIMIT
        invariant Trimmed(pending) == Trimmed(old(pending))
        decreases |pending|
      {
        var dropped := pending[0];
        pending := pending[1..];
        if !dropped.heartbeat {
          return;
        }
      }
    }

    method EnqueueAll(entries: seq<Telemetry>)
      modifies this
      ensures pending == EnqueuedAll(old(pending), entries)
      ensures old(IsLastTwenty()) && Ascending(old(accepted) + entries) ==> IsLastTwenty()
    {
      for i := 0 to |entries|
        invariant pending == EnqueuedAll(old(pending), entries[..i])
        invariant old(IsLastTwenty()) && Ascending(old(accepted) + entries) ==>
                    IsLastTwenty() && forall a <- accepted :: a in old(accepted) || a in entries[..i]
      {
        assert entries[..i + 1][..i] == entries[..i];
        if old(IsLastTwenty()) && Ascending(old(accepted) + entries) {
          AcceptedBefore(old(accepted), entries, i);
        }
        Enqueue(entries[i]);
      }
      assert entries[..|entries|] == entries;
    }

    /** `_flush_pending_telemetry`, where the send of entry `failsAt` is the first to fail and `arrivals[i]` are
        queued while entry i is sent: what is before it is delivered, it goes behind the arrivals, and everything
        after it is lost. */
    method Flush(failsAt: nat, arrivals: seq<seq<Telemetry>>) returns (delivered: seq<Telemetry>)
      requires |arrivals| == |pending|
      modifies this
      ensures delivered == if failsAt < |old(pending)| then old(pending)[..failsAt] else old(pending)
      ensures pending == if failsAt < |old(pending)|
                         then EnqueuedAll([], Flat(arrivals[..failsAt + 1])) + [old(pending)[failsAt]]
                         else EnqueuedAll([], Flat(arrivals))
      ensures failsAt >= |old(pending)| && Ascending(Flat(arrivals)) ==> IsLastTwenty()
      ensures failsAt < |old(pending)| && Flat(arrivals[..failsAt + 1]) == [] ==> IsLastTwenty()
    {
      delivered := [];
      var batch := pending;
      pending, accepted := [], [];
      var i := 0;
      while i < |batch|
        invariant i <= |batch| && i <= failsAt && delivered == batch[..i]
        invariant pending == EnqueuedAll([], Flat(arrivals[..i]))
      {
        ArrivalsOneMore(arrivals, i);
        EnqueueAll(arrivals[i]);
        if i == failsAt {
          pending := pending + [batch[i]];
          accepted := pending;
          return;
        }
        delivered := delivered + [batch[i]];
        i := i + 1;
      }
      assert arrivals[..|batch|] == arrivals;
      accepted := pending;
      QueuedIsLastTwenty(Flat(arrivals));
    }
  }

  lemma ArrivalsOneMore(arrivals: seq<seq<Telemetry>>, i: nat)
    requires i < |arrivals|
    ensures EnqueuedAll(EnqueuedAll([], Flat(arrivals[..i])), arrivals[i]) == EnqueuedAll([], Flat(arrivals[..i + 1]))
  {
    EnqueuedAllAppend([], Flat(arrivals[..i]), arrivals[i]);
    FlatOneMore(arrivals, i);
  }

  lemma QueuedIsLastTwenty(entries: seq<Telemetry>)
    ensures var queue := EnqueuedAll([], entries); Ascending(entries) ==> queue == LastOf(queue) && Ordered(queue)
  {
    if Ascending(entries) {
      QueuedInOrder(entries);
    }
  }

  lemma AcceptedBefore(accepted: seq<Telemetry>, entries: seq<Telemetry>, i: nat)
    requires i < |entries| && Ascending(accepted + entries)
    ensures forall a :: a in accepted || a in entries[..i] ==> a.sequence < entries[i].sequence
  {
    var all := accepted + entries;
    assert all[|accepted| + i] == entries[i];
    forall a | a in accepted || a in entries[..i]
      ensures a.sequence < entries[i].sequence
    {
      if a in accepted {
        var k :| 0 <= k < |accepted| && accepted[k] == a;
        assert all[k] == a;
      } else {
        var k :| 0 <= k < i && entries[..i][k] == a;
        assert all[|accepted| + k] == a;
      }
    }
  }

  function Flat(parts: seq<seq<Telemetry>>): seq<Telemetry> {
    if parts == [] then [] else Flat(parts[..|parts| - 1]) + parts[|parts| - 1]
  }

  lemma FlatOneMore(parts: seq<seq<Telemetry>>, i: nat)
    requires i < |parts|
    ensures Flat(parts[..i + 1]) == Flat(parts[..i]) + parts[i]
  {
    assert parts[..i + 1][..i] == parts[..i];
  }

  lemma {:induction false} EnqueuedAllAppend(queue: seq<Telemetry>, a: seq<Telemetry>, b: seq<Telemetry>)
    ensures EnqueuedAll(queue, a + b) == EnqueuedAll(EnqueuedAll(queue, a), b)
  {
    if b == [] {
      assert a + b == a;
    } else {
      assert (a + b)[..|a + b| - 1] == a + b[..|b| - 1];
      EnqueuedAllAppend(queue, a, b[..|b| - 1]);
    }
  }
}
