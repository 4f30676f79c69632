/** Printer signals folded into one state (app/printer_telemetry/normalize.py); printer-state and
    printer-state-reasons are those of sections 5.4.11 and 5.4.12 of RFC 8011. */
module TelemetryNormalize {
  import opened Wrappers
  import opened Text

  datatype ConnectionState = Online | Offline | ConnectionUnknown

  datatype OperationalState =
    | Idle | Printing | Error | PaperOut | PaperJam | TonerLow | TonerOut | CoverOpen | Paused | Disabled
    | OperationalUnknown

  datatype DisplayState = Ready | DisplayOffline | DisplayUnknown | Showing(state: OperationalState)

  /** Manufacturer, model and connection type, read from the device elsewhere. */
  datatype Capabilities = Capabilities(manufacturer: Option<string>, model: Option<string>, connectionType: string)

  datatype Probe = Probe(
    queueExists: bool,
    schedulerRunning: bool,
    enabled: bool,
    acceptingJobs: bool,
    cupsPrinting: bool,
    ippPrinterState: Option<int>,
    rawReasons: seq<string>,
    physicalUsbPresent: Option<bool>,
    backendUnreachable: bool,
    capabilities: Capabilities)

  datatype Snapshot = Snapshot(
    connection: ConnectionState,
    operational: OperationalState,
    display: DisplayState,
    reasons: seq<OperationalState>,
    rawReasons: seq<string>,
    capabilities: Capabilities,
    activeJobId: Option<string>)

  const PROCESSING := Some(4)
  const STOPPED := Some(5)

  const REASON_TABLE: seq<(string, OperationalState)> := [
    ("media-tray-empty-error", PaperOut),
    ("media-needed-error", PaperOut),
    ("media-jam-error", PaperJam),
    ("toner-low-warning", TonerLow),
    ("toner-empty-error", TonerOut),
    ("cover-open-error", CoverOpen),
    ("door-open-error", CoverOpen),
    ("paused", Paused),
    ("shutdown", Disabled),
    ("stopped-partly", Paused),
    ("moving-to-paused", Paused)]

  const OFFLINE_MARKERS := [
    "device-offline", "offline-report", "connecting-to-device", "unreachable", "service-unavailable",
    "device-unreachable"]

  predicate SaysOffline(reason: string) {
    exists m <- OFFLINE_MARKERS :: Contains(Lower(reason), m)
  }

  predicate SaysTrouble(reason: string) {
    Contains(Lower(reason), "error") || Contains(Lower(reason), "warning")
  }

  /** The first table entry found in a reason. */
  function Mapped(reason: string, table: seq<(string, OperationalState)>): Option<OperationalState> {
    if table == [] then None
    else if Contains(Lower(reason), table[0].0) then Some(table[0].1)
    else Mapped(reason, table[1..])
  }

  /** The state a reason names by itself, if any: the table as one decision by the words it looks for. */
  function NamedBy(lower: string): Option<OperationalState> {
    if Contains(lower, "media-tray-empty-error") || Contains(lower, "media-needed-error") then Some(PaperOut)
    else if Contains(lower, "media-jam-error") then Some(PaperJam)
    else if Contains(lower, "toner-low-warning") then Some(TonerLow)
    else if Contains(lower, "toner-empty-error") then Some(TonerOut)
    else if Contains(lower, "cover-open-error") || Contains(lower, "door-open-error") then Some(CoverOpen)
    else if Contains(lower, "paused") then Some(Paused)
    else if Contains(lower, "shutdown") then Some(Disabled)
    else if Contains(lower, "stopped-partly") || Contains(lower, "moving-to-paused") then Some(Paused)
    else None
  }

  lemma MappedStep(reason: string, i: nat)
    requires i < |REASON_TABLE|
    ensures Mapped(reason, REASON_TABLE[i..]) ==
            if Contains(Lower(reason), REASON_TABLE[i].0) then Some(REASON_TABLE[i].1)
            else Mapped(reason, REASON_TABLE[i + 1..])
  {
    assert REASON_TABLE[i..][1..] == REASON_TABLE[i + 1..];
  }

  lemma TableFrom(reason: string)
    ensures REASON_TABLE[0..] == REASON_TABLE && Mapped(reason, REASON_TABLE[|REASON_TABLE|..]) == None
  {
  }

  /** The table names exactly these states. */
  lemma TableNames(reason: string)
    ensures Mapped(reason, REASON_TABLE) == NamedBy(Lower(reason))
  {
    TableFrom(reason);
    MappedStep(reason, 0);
    MappedStep(reason, 1);
    MappedStep(reason, 2);
    MappedStep(reason, 3);
    MappedStep(reason, 4);
    MappedStep(reason, 5);
    MappedStep(reason, 6);
    MappedStep(reason, 7);
    MappedStep(reason, 8);
    MappedStep(reason, 9);
    MappedStep(reason, 10);
  }

  /** The words that mean the device is not there, and those that mean trouble. */
  lemma MarkersAre(reason: string)
    ensures var lower := Lower(reason);
            && (SaysOffline(reason) <==>
                  || Contains(lower, "device-offline") || Contains(lower, "offline-report")
                  || Contains(lower, "connecting-to-device") || Contains(lower, "unreachable")
                  || Contains(lower, "service-unavailable") || Contains(lower, "device-unreachable"))
            && (SaysTrouble(reason) <==> Contains(lower, "error") || Contains(lower, "warning"))
  {
  }

  /** A reason alone: what it names, or ERROR for trouble of a device that is there, or nothing. */
  lemma ReasonAlone(reason: string)
    ensures OperationalFromReasons([reason]) ==
            if NamedBy(Lower(reason)).Some? then NamedBy(Lower(reason))
            else if SaysTrouble(reason) && !SaysOffline(reason) then Some(Error) else None
  {
    TableNames(reason);
    AloneInList(reason);
  }

  lemma AloneInList(reason: string)
    ensures OperationalFromReasons([reason]) ==
            if Mapped(reason, REASON_TABLE).Some? then Mapped(reason, REASON_TABLE)
            else if SaysTrouble(reason) && !SaysOffline(reason) then Some(Error) else None
  {
    assert [reason][1..] == [] && reason in [reason];
    assert FirstMapped([]) == None;
  }

  /** In a list the first reason that names a state decides, and trouble counts only when none does. */
  lemma {:induction false} FirstNamedDecides(before: seq<string>, reason: string, after: seq<string>)
    requires forall r <- before :: NamedBy(Lower(r)).None?
    requires NamedBy(Lower(reason)).Some?
    ensures OperationalFromReasons(before + [reason] + after) == NamedBy(Lower(reason))
  {
    var all := before + [reason] + after;
    if before == [] {
      TableNames(reason);
      assert all[0] == reason;
    } else {
      TableNames(before[0]);
      assert before[0] in before && all[0] == before[0];
      assert all[1..] == before[1..] + [reason] + after;
      FirstNamedDecides(before[1..], reason, after);
    }
  }

  function FirstMapped(reasons: seq<string>): Option<OperationalState> {
    if reasons == [] then None
    else if Mapped(reasons[0], REASON_TABLE).Some? then Mapped(reasons[0], REASON_TABLE)
    else FirstMapped(reasons[1..])
  }

  predicate AnyTrouble(reasons: seq<string>) {
    exists r <- reasons :: SaysTrouble(r) && !SaysOffline(r)
  }

  function OperationalFromReasons(reasons: seq<string>): Option<OperationalState> {
    if FirstMapped(reasons).Some? then FirstMapped(reasons)
    else if AnyTrouble(reasons) then Some(Error)
    else None
  }

  /** A reason that names no state: no table entry, and no trouble other than being offline. */
  predicate Silent(reason: string) {
    Mapped(reason, REASON_TABLE).None? && (SaysTrouble(reason) ==> SaysOffline(reason))
  }

  lemma {:induction false} FirstMappedAbsent(reasons: seq<string>)
    ensures FirstMapped(reasons).None? <==> forall i :: 0 <= i < |reasons| ==> Mapped(reasons[i], REASON_TABLE).None?
  {
    if reasons != [] {
      FirstMappedAbsent(reasons[1..]);
      assert forall i :: 1 <= i < |reasons| ==> reasons[i] == reasons[1..][i - 1];
    }
  }

  lemma SilentList(reasons: seq<string>)
    ensures OperationalFromReasons(reasons).None? <==> forall i :: 0 <= i < |reasons| ==> Silent(reasons[i])
  {
    FirstMappedAbsent(reasons);
    assert AnyTrouble(reasons) <==>
           exists i :: 0 <= i < |reasons| && SaysTrouble(reasons[i]) && !SaysOffline(reasons[i]);
  }

  /** A list says nothing exactly when none of its reasons says anything alone. */
  lemma ListSilentIffEachSilent(reasons: seq<string>)
    ensures OperationalFromReasons(reasons).None? <==>
              forall i :: 0 <= i < |reasons| ==> OperationalFromReasons([reasons[i]]).None?
  {
    SilentList(reasons);
    forall i | 0 <= i < |reasons|
      ensures OperationalFromReasons([reasons[i]]).None? <==> Silent(reasons[i])
    {
      SilentList([reasons[i]]);
      assert [reasons[i]][0] == reasons[i];
    }
  }

  predicate HasConnectivityEvidence(p: Probe) {
    || p.physicalUsbPresent == Some(true)
    || p.ippPrinterState == PROCESSING
    || p.cupsPrinting
    || p.rawReasons != []
  }

  predicate AnyOffline(reasons: seq<string>) {
    exists r <- reasons :: SaysOffline(r)
  }

  function DeriveDisplayState(connection: ConnectionState, operational: OperationalState): DisplayState {
    if connection.Offline? then DisplayOffline
    else if operational.Printing? then Showing(Printing)
    else if operational.Idle? && connection.Online? then Ready
    else if operational.Idle? || operational.OperationalUnknown? then DisplayUnknown
    else Showing(operational)
  }

  /** Each state some reason names alone, once, in order of first mention. */
  function NormalizedReasons(raw: seq<string>): (reasons: seq<OperationalState>)
    ensures (forall i :: 0 <= i < |raw| ==> OperationalFromReasons([raw[i]]).None?) ==> reasons == []
  {
    if raw == [] then []
    else
      var init := NormalizedReasons(raw[..|raw| - 1]);
      var op := OperationalFromReasons([raw[|raw| - 1]]);
      if op.Some? && op.value !in init then init + [op.value] else init
  }

  predicate NoRepeats(reasons: seq<OperationalState>) {
    forall i, k :: 0 <= i < k < |reasons| ==> reasons[i] != reasons[k]
  }

  /** Some reason names the state alone. */
  ghost predicate Names(raw: seq<string>, state: OperationalState) {
    exists i :: 0 <= i < |raw| && OperationalFromReasons([raw[i]]) == Some(state)
  }

  /** The normalised reasons are exactly the states some reason names, each once. */
  lemma {:induction false} EachReasonOnce(raw: seq<string>)
    ensures NoRepeats(NormalizedReasons(raw))
    ensures forall state :: state in NormalizedReasons(raw) <==> Names(raw, state)
  {
    if raw != [] {
      var init, last := raw[..|raw| - 1], raw[|raw| - 1];
      EachReasonOnce(init);
      forall state
        ensures Names(raw, state) <==> Names(init, state) || OperationalFromReasons([last]) == Some(state)
      {
        NamesOneMore(init, last, state);
        assert init + [last] == raw;
      }
    }
  }

  lemma NamesOneMore(raw: seq<string>, last: string, state: OperationalState)
    ensures Names(raw + [last], state) <==> Names(raw, state) || OperationalFromReasons([last]) == Some(state)
  {
    var all := raw + [last];
    assert all[|raw|] == last;
    if Names(raw, state) {
      var i :| 0 <= i < |raw| && OperationalFromReasons([raw[i]]) == Some(state);
      assert all[i] == raw[i];
    }
  }

  /** And they stand in the order of first mention: what more reasons add comes behind. */
  lemma {:induction false} ReasonsInOrder(raw: seq<string>, n: nat)
    requires n <= |raw|
    ensures NormalizedReasons(raw[..n]) <= NormalizedReasons(raw)
    decreases |raw|
  {
    if n < |raw| {
      var init := raw[..|raw| - 1];
      assert init[..n] == raw[..n];
      ReasonsInOrder(init, n);
    } else {
      assert raw[..n] == raw;
    }
  }

  /** What a READY display stands for. */
  ghost predicate ReadyToPrint(p: Probe, jobPrintingHint: bool) {
    && p.schedulerRunning && p.queueExists && p.enabled && p.acceptingJobs
    && !p.backendUnreachable && p.physicalUsbPresent != Some(false)
    && (p.physicalUsbPresent == Some(true) || p.rawReasons != [])
    && p.ippPrinterState != PROCESSING && p.ippPrinterState != STOPPED && !p.cupsPrinting && !jobPrintingHint
    && (forall i :: 0 <= i < |p.rawReasons| ==> Silent(p.rawReasons[i]) && !SaysOffline(p.rawReasons[i]))
  }

  method NormalizeReasons(raw: seq<string>) returns (reasons: seq<OperationalState>)
    ensures reasons == NormalizedReasons(raw)
    ensures NoRepeats(reasons) && forall state :: state in reasons <==> Names(raw, state)
    ensures forall n: nat :: n <= |raw| ==> NormalizedReasons(raw[..n]) <= reasons
  {
    reasons := [];
    for i := 0 to |raw|
      invariant reasons == NormalizedReasons(raw[..i])
    {
      assert raw[..i + 1][..i] == raw[..i];
      var op := OperationalFromReasons([raw[i]]);
      if op.Some? && op.value !in reasons {
        reasons := reasons + [op.value];
      }
    }
    assert raw[..|raw|] == raw;
    EachReasonOnce(raw);
    forall n: nat | n <= |raw| {
      ReasonsInOrder(raw, n);
    }
  }

  function ConnectionOf(p: Probe): ConnectionState {
    if !p.schedulerRunning || !p.queueExists then ConnectionUnknown
    else if p.backendUnreachable || p.physicalUsbPresent == Some(false) || AnyOffline(p.rawReasons) then Offline
    else if HasConnectivityEvidence(p) then Online
    else ConnectionUnknown
  }

  /** What the printer is doing, given what its reasons say together. */
  function OperationalOf(p: Probe, jobPrintingHint: bool, fromReasons: Option<OperationalState>): OperationalState {
    match ConnectionOf(p)
    case ConnectionUnknown => OperationalUnknown
    case Offline =>
      if p.backendUnreachable || p.physicalUsbPresent == Some(false) || fromReasons.None? then OperationalUnknown
      else fromReasons.value
    case Online =>
      if p.ippPrinterState == STOPPED || !p.enabled then Disabled
      else if p.ippPrinterState == PROCESSING || p.cupsPrinting || jobPrintingHint then Printing
      else if fromReasons.Some? && !fromReasons.value.Idle? then fromReasons.value
      else if p.acceptingJobs then Idle else Paused
  }

  /** READY is shown exactly when everything a print needs is in order; then no reason is reported. */
  lemma ReadyMeansReadyToPrint(p: Probe, jobPrintingHint: bool)
    ensures var operational := OperationalOf(p, jobPrintingHint, OperationalFromReasons(p.rawReasons));
            DeriveDisplayState(ConnectionOf(p), operational).Ready? <==> ReadyToPrint(p, jobPrintingHint)
    ensures ReadyToPrint(p, jobPrintingHint) ==> NormalizedReasons(p.rawReasons) == []
  {
    var raw := p.rawReasons;
    SilentList(raw);
    ListSilentIffEachSilent(raw);
    NeverIdle(raw);
    assert AnyOffline(raw) <==> exists i :: 0 <= i < |raw| && SaysOffline(raw[i]);
  }

  /** The printer can be asked, it is there, and something has been heard of it. */
  predicate Reachable(p: Probe) {
    && p.schedulerRunning && p.queueExists && !p.backendUnreachable && p.physicalUsbPresent != Some(false)
    && (p.physicalUsbPresent == Some(true) || p.ippPrinterState == Some(4) || p.cupsPrinting || p.rawReasons != [])
    && !AnyOffline(p.rawReasons)
  }

  /** A printer that can be asked is not there. */
  predicate Unreachable(p: Probe) {
    && p.schedulerRunning && p.queueExists
    && (p.backendUnreachable || p.physicalUsbPresent == Some(false) || AnyOffline(p.rawReasons))
  }

  predicate Halted(p: Probe) {
    p.ippPrinterState == Some(5) || !p.enabled
  }

  predicate Busy(p: Probe, jobPrintingHint: bool) {
    p.ippPrinterState == Some(4) || p.cupsPrinting || jobPrintingHint
  }

  /** What each display stands for: not there; halted; at work; else what the reasons say; else paused when no jobs
      are accepted, and ready when they are; and unknown when nothing is known. */
  lemma DisplayMeans(p: Probe, hint: bool)
    ensures var reasons := OperationalFromReasons(p.rawReasons);
            var display := DeriveDisplayState(ConnectionOf(p), OperationalOf(p, hint, reasons));
            && (display == DisplayOffline <==> Unreachable(p))
            && (display == DisplayUnknown <==> !Unreachable(p) && !Reachable(p))
            && (Reachable(p) ==>
                  display == if Halted(p) then Showing(Disabled)
                             else if Busy(p, hint) then Showing(Printing)
                             else if reasons.Some? then Showing(reasons.value)
                             else if p.acceptingJobs then Ready else Showing(Paused))
  {
    NeverIdle(p.rawReasons);
    NeverUnknown(p.rawReasons);
  }

  /** And which activity is reported with it. */
  lemma ActivityMeans(p: Probe, hint: bool)
    ensures var reasons := OperationalFromReasons(p.rawReasons);
            var activity := OperationalOf(p, hint, reasons);
            && (!Unreachable(p) && !Reachable(p) ==> activity == OperationalUnknown)
            && (Unreachable(p) ==>
                  activity == if p.backendUnreachable || p.physicalUsbPresent == Some(false) || reasons.None?
                              then OperationalUnknown else reasons.value)
            && (Reachable(p) ==>
                  activity == if Halted(p) then Disabled else if Busy(p, hint) then Printing
                              else if reasons.Some? then reasons.value
                              else if p.acceptingJobs then Idle else Paused)
            && ConnectionOf(p) == if Reachable(p) then Online else if Unreachable(p) then Offline else ConnectionUnknown
  {
    NeverIdle(p.rawReasons);
  }

  lemma {:induction false} NeverUnknown(reasons: seq<string>)
    ensures FirstMapped(reasons) != Some(OperationalUnknown) && FirstMapped(reasons) != Some(Printing)
    ensures OperationalFromReasons(reasons) != Some(OperationalUnknown)
  {
    if reasons != [] {
      TableNames(reasons[0]);
      NeverUnknown(reasons[1..]);
    }
  }

  lemma {:induction false} MappedNeverIdle(reason: string, table: seq<(string, OperationalState)>)
    requires forall i :: 0 <= i < |table| ==> !table[i].1.Idle?
    ensures Mapped(reason, table) != Some(Idle)
  {
    if table != [] {
      MappedNeverIdle(reason, table[1..]);
    }
  }

  lemma {:induction false} NeverIdle(reasons: seq<string>)
    ensures OperationalFromReasons(reasons) != Some(Idle) && FirstMapped(reasons) != Some(Idle)
  {
    if reasons != [] {
      MappedNeverIdle(reasons[0], REASON_TABLE);
      NeverIdle(reasons[1..]);
    }
  }

  method NormalizeProbe(p: Probe, activeJobId: Option<string>, jobPrintingHint: bool) returns (snap: Snapshot)
    ensures snap.connection == ConnectionOf(p)
    ensures snap.operational == OperationalOf(p, jobPrintingHint, OperationalFromReasons(p.rawReasons))
    ensures snap.display == DeriveDisplayState(snap.connection, snap.operational)
    ensures snap.display.Ready? <==> ReadyToPrint(p, jobPrintingHint)
    ensures snap.reasons == NormalizedReasons(p.rawReasons)
    ensures snap.rawReasons == p.rawReasons && snap.capabilities == p.capabilities && snap.activeJobId == activeJobId
  {
    ReadyMeansReadyToPrint(p, jobPrintingHint);
    NeverIdle(p.rawReasons);
    var fromReasons := OperationalFromReasons(p.rawReasons);
    var connection, operational := ConnectionUnknown, OperationalUnknown;
    if !p.schedulerRunning || !p.queueExists {
    } else if p.backendUnreachable || p.physicalUsbPresent == Some(false) {
      connection := Offline;
    } else if AnyOffline(p.rawReasons) {
      connection := Offline;
      if fromReasons.Some? {
        operational := fromReasons.value;
      }
    } else if HasConnectivityEvidence(p) {
      connection, operational := Online, Idle;
    }

    if p.ippPrinterState == STOPPED || !p.enabled {
      if connection.Online? {
        operational := Disabled;
      }
    } else if p.ippPrinterState == PROCESSING || p.cupsPrinting || jobPrintingHint {
      if connection.Online? {
        operational := Printing;
      }
    } else if connection.Online? && fromReasons.Some? {
      operational := fromReasons.value;
    }
    if !p.acceptingJobs && connection.Online? && operational.Idle? {
      operational := Paused;
    }

    var reasons := NormalizeReasons(p.rawReasons);
    snap := Snapshot(connection, operational, DeriveDisplayState(connection, operational), reasons, p.rawReasons,
                     p.capabilities, activeJobId);
  }
}
