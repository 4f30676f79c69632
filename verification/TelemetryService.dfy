/** The telemetry stream (app/printer_telemetry/service.py): only changes, heartbeats and forced publishes
    are sent, and yet the receiver can follow every state the printer was seen in. */
module TelemetryService {
  import opened Wrappers
  import opened TelemetryNormalize

  /** `state_key`: everything but the active job. */
  function StateKey(s: Snapshot): Snapshot {
    s.(activeJobId := None)
  }

  datatype Payload = Payload(sequence: nat, snapshot: Snapshot, heartbeat: bool, forced: bool)

  /** A change is a change of connection, activity, display, either list of reasons, manufacturer, model or
      connection type; the active job is none. */
  lemma KeyFields(a: Snapshot, b: Snapshot)
    ensures StateKey(a) == StateKey(b) <==>
              && a.connection == b.connection && a.operational == b.operational && a.display == b.display
              && a.reasons == b.reasons && a.rawReasons == b.rawReasons
              && a.capabilities.manufacturer == b.capabilities.manufacturer
              && a.capabilities.model == b.capabilities.model
              && a.capabilities.connectionType == b.capabilities.connectionType
  {
  }

  function Keys(emitted: seq<Payload>): (keys: seq<Snapshot>)
    ensures |keys| == |emitted| && forall i :: 0 <= i < |keys| ==> keys[i] == StateKey(emitted[i].snapshot)
  {
    if emitted == [] then [] else Keys(emitted[..|emitted| - 1]) + [StateKey(emitted[|emitted| - 1].snapshot)]
  }

  /** The states in turn, without immediate repeats. */
  function Changes(keys: seq<Snapshot>): seq<Snapshot> {
    if |keys| <= 1 then keys
    else if keys[|keys| - 1] == keys[|keys| - 2] then Changes(keys[..|keys| - 1])
    else Changes(keys[..|keys| - 1]) + [keys[|keys| - 1]]
  }

  lemma ChangesAppend(keys: seq<Snapshot>, key: Snapshot)
    ensures Changes(keys + [key]) ==
            if keys != [] && keys[|keys| - 1] == key then Changes(keys) else Changes(keys) + [key]
  {
    var longer := keys + [key];
    assert longer[..|keys|] == keys;
    if keys != [] {
      assert longer[|longer| - 2] == keys[|keys| - 1];
    }
  }

  /** Nothing but immediate repeats is lost: the same states are left, the last one last, and no two equal
      neighbours. */
  lemma {:induction false} ChangesLoseOnlyRepeats(keys: seq<Snapshot>)
    ensures var changes := Changes(keys);
            && (changes == [] <==> keys == [])
            && (keys != [] ==> changes[|changes| - 1] == keys[|keys| - 1])
            && (forall i :: 0 < i < |changes| ==> changes[i] != changes[i - 1])
            && (forall key :: key in changes <==> key in keys)
  {
    if |keys| > 1 {
      var init, key := keys[..|keys| - 1], keys[|keys| - 1];
      ChangesLoseOnlyRepeats(init);
      assert keys == init + [key];
    }
  }

  /** Numbered 1, 2, 3, ... without a gap; a heartbeat repeats the state before it, and anything that is
      neither heartbeat nor forced brings a new state. */
  ghost predicate WellNumbered(emitted: seq<Payload>) {
    && (forall i :: 0 <= i < |emitted| ==> emitted[i].sequence == i + 1)
    && (forall i {:trigger emitted[i]} :: 0 < i < |emitted| ==>
          var same := StateKey(emitted[i].snapshot) == StateKey(emitted[i - 1].snapshot);
          (emitted[i].heartbeat ==> same) && (!emitted[i].heartbeat && !emitted[i].forced ==> !same))
  }

  /** The stream says what was observed, and its last message the current state. */
  ghost predicate Follows(emitted: seq<Payload>, observed: seq<Snapshot>, last: Option<Snapshot>) {
    && Changes(Keys(emitted)) == Changes(observed)
    && (emitted == [] <==> observed == []) && (observed == [] <==> last.None?)
    && (last.Some? ==> StateKey(last.value) == observed[|observed| - 1] == Keys(emitted)[|emitted| - 1])
  }

  class Service {
    var sequence: nat
    var last: Option<Snapshot>
    var lastHeartbeat: real
    const heartbeatSeconds: real
    ghost var emitted: seq<Payload>
    ghost var observed: seq<Snapshot>

    ghost predicate Valid()
      reads this
    {
      sequence == |emitted| && WellNumbered(emitted) && Follows(emitted, observed, last)
    }

    constructor (heartbeatSeconds: real)
      ensures Valid() && emitted == [] && observed == [] && this.heartbeatSeconds == heartbeatSeconds
    {
      this.heartbeatSeconds := heartbeatSeconds;
      sequence, last, lastHeartbeat := 0, None, 0.0;
      emitted, observed := [], [];
    }

    method Emit(snap: Snapshot, isHeartbeat: bool, force: bool)
      requires sequence == |emitted|
      modifies this`sequence, this`emitted
      ensures sequence == |emitted| && emitted == old(emitted) + [Payload(|old(emitted)| + 1, snap, isHeartbeat, force)]
    {
      sequence := sequence + 1;
      emitted := emitted + [Payload(sequence, snap, isHeartbeat, force)];
    }

    /** A fresh snapshot takes the place of the last one, and is sent when it must be or says something new. */
    method Take(snap: Snapshot, force: bool) returns (changed: bool)
      requires sequence == |emitted|
      modifies this`sequence, this`emitted, this`last
      ensures sequence == |emitted| && last == Some(snap)
      ensures changed == (old(last).None? || StateKey(snap) != StateKey(old(last).value))
      ensures emitted == old(emitted) + Sent(old(emitted), old(last), snap, force, false)
    {
      changed := last.None? || StateKey(snap) != StateKey(last.value);
      last := Some(snap);
      if force || changed {
        Emit(snap, false, force);
      }
    }

    /** `publish_physical_state` with a fresh snapshot. */
    method PublishPhysicalState(snap: Snapshot, force: bool)
      requires Valid()
      modifies this
      ensures Valid() && observed == old(observed) + [StateKey(snap)] && last == Some(snap)
      ensures emitted == old(emitted) + Sent(old(emitted), old(last), snap, force, false)
      ensures lastHeartbeat == old(lastHeartbeat)
    {
      TurnFollows(emitted, observed, last, snap, force, false);
      observed := observed + [StateKey(snap)];
      var _ := Take(snap, force);
    }

    /** One turn of the polling loop. */
    method Poll(snap: Snapshot, now: real)
      requires Valid()
      modifies this
      ensures Valid() && observed == old(observed) + [StateKey(snap)] && last == Some(snap)
      ensures var due := now - old(lastHeartbeat) >= heartbeatSeconds;
              && emitted == old(emitted) + Sent(old(emitted), old(last), snap, false, due)
              && lastHeartbeat == if due then now else old(lastHeartbeat)
    {
      ghost var due := now - lastHeartbeat >= heartbeatSeconds;
      TurnFollows(emitted, observed, last, snap, false, due);
      SentInParts(emitted, last, snap, due);
      observed := observed + [StateKey(snap)];
      var changed := Take(snap, false);
      Beat(snap, changed, now);
    }

    /** The heartbeat part of a turn; a change that was just sent stands in for the heartbeat. */
    method Beat(snap: Snapshot, changed: bool, now: real)
      requires sequence == |emitted|
      modifies this`sequence, this`emitted, this`lastHeartbeat
      ensures sequence == |emitted|
      ensures var due := now - old(lastHeartbeat) >= heartbeatSeconds;
              && lastHeartbeat == (if due then now else old(lastHeartbeat))
              && emitted == old(emitted) + Beaten(old(emitted), snap, changed, due)
    {
      if now - lastHeartbeat >= heartbeatSeconds {
        lastHeartbeat := now;
        if !changed {
          Emit(snap, true, false);
        }
      }
    }
  }

  function Beaten(emitted: seq<Payload>, snap: Snapshot, changed: bool, due: bool): seq<Payload> {
    if due && !changed then [Payload(|emitted| + 1, snap, true, false)] else []
  }

  lemma SentInParts(emitted: seq<Payload>, last: Option<Snapshot>, snap: Snapshot, due: bool)
    ensures var changed := last.None? || StateKey(snap) != StateKey(last.value);
            var taken := emitted + Sent(emitted, last, snap, false, false);
            emitted + Sent(emitted, last, snap, false, due) == taken + Beaten(taken, snap, changed, due)
  {
  }

  /** What one turn sends: a changed or forced state, or else the heartbeat that is due. */
  function Sent(emitted: seq<Payload>, last: Option<Snapshot>, snap: Snapshot, force: bool, due: bool)
    : (sent: seq<Payload>)
    ensures var changed := last.None? || StateKey(snap) != StateKey(last.value);
            && |sent| <= 1 && (sent != [] <==> force || changed || due)
            && forall p <- sent :: p.snapshot == snap && p.heartbeat == (!force && !changed) && p.forced == force
  {
    if force || last.None? || StateKey(snap) != StateKey(last.value) then [Payload(|emitted| + 1, snap, false, force)]
    else if due then [Payload(|emitted| + 1, snap, true, false)]
    else []
  }

  lemma TurnFollows(
    emitted: seq<Payload>, observed: seq<Snapshot>, last: Option<Snapshot>, snap: Snapshot, force: bool, due: bool)
    requires WellNumbered(emitted) && Follows(emitted, observed, last)
    ensures var after := emitted + Sent(emitted, last, snap, force, due);
            WellNumbered(after) && Follows(after, observed + [StateKey(snap)], Some(snap))
  {
    var sent := Sent(emitted, last, snap, force, due);
    if sent == [] {
      assert emitted + sent == emitted;
      SilenceFollows(emitted, observed, last, snap);
    } else {
      EmissionKeepsNumbers(emitted, observed, last, snap, sent[0]);
      EmissionFollows(emitted, observed, last, snap, sent[0]);
    }
  }

  lemma EmissionKeepsNumbers(
    emitted: seq<Payload>, observed: seq<Snapshot>, last: Option<Snapshot>, snap: Snapshot, p: Payload)
    requires WellNumbered(emitted) && Follows(emitted, observed, last)
    requires p.snapshot == snap && p.sequence == |emitted| + 1
    requires var changed := last.None? || StateKey(snap) != StateKey(last.value);
             (p.heartbeat ==> !changed) && (!p.heartbeat && !p.forced ==> changed)
    ensures WellNumbered(emitted + [p])
  {
    if emitted != [] {
      assert StateKey(last.value) == StateKey(emitted[|emitted| - 1].snapshot);
    }
  }

  lemma EmissionFollows(
    emitted: seq<Payload>, observed: seq<Snapshot>, last: Option<Snapshot>, snap: Snapshot, p: Payload)
    requires Follows(emitted, observed, last) && p.snapshot == snap
    ensures Follows(emitted + [p], observed + [StateKey(snap)], Some(snap))
  {
    var all := emitted + [p];
    assert all[..|emitted|] == emitted;
    ChangesAppend(Keys(emitted), StateKey(snap));
    ChangesAppend(observed, StateKey(snap));
  }

  lemma SilenceFollows(emitted: seq<Payload>, observed: seq<Snapshot>, last: Option<Snapshot>, snap: Snapshot)
    requires Follows(emitted, observed, last) && last.Some? && StateKey(snap) == StateKey(last.value)
    ensures Follows(emitted, observed + [StateKey(snap)], Some(snap))
  {
    ChangesAppend(observed, StateKey(snap));
  }
}
