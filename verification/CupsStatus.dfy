/** The state of one CUPS job from at most four commands (app/cups.py). */
module CupsStatus {
  import opened Wrappers
  import opened Text
  import opened Printer
  import opened CupsJobState
  import opened CupsPrinter

  /** The listing line of a job: the id alone, or the id and a blank in front of more. */
  predicate IsLineOf(line: string, id: string) {
    var s := Strip(line);
    s == id || StartsWith(s, id + " ")
  }

  function JobLine(lines: seq<string>, id: string): (r: Option<string>)
    ensures r.None? <==> forall line <- lines :: Strip(line) != "" ==> !IsLineOf(line, id)
    ensures r.Some? ==> exists i :: 0 <= i < |lines| && Strip(lines[i]) == r.value && FirstLineOf(lines, i, id)
  {
    if lines == [] then None
    else if Strip(lines[0]) != "" && IsLineOf(lines[0], id) then
      assert FirstLineOf(lines, 0, id);
      Some(Strip(lines[0]))
    else
      assert lines == [lines[0]] + lines[1..];
      assert forall i :: 0 <= i < |lines| - 1 && FirstLineOf(lines[1..], i, id) ==> FirstLineOf(lines, i + 1, id);
      JobLine(lines[1..], id)
  }

  /** No line before this one is the job's. */
  predicate FirstLineOf(lines: seq<string>, i: nat, id: string)
    requires i < |lines|
  {
    && Strip(lines[i]) != "" && IsLineOf(lines[i], id)
    && forall k :: 0 <= k < i ==> Strip(lines[k]) == "" || !IsLineOf(lines[k], id)
  }

  lemma StopsAtBlank(s: string, a: string, b: string)
    requires a == s || (|a| < |s| && s[|a|] == ' ')
    requires b <= s && ' ' !in b
    ensures |b| <= |a|
  {
    assert forall i :: 0 <= i < |b| ==> b[i] in b && s[i] == b[i];
  }

  /** A line belongs to at most one job: an id that is a prefix of another never takes its line. */
  lemma LineOfOneJob(line: string, a: string, b: string)
    requires ' ' !in a && ' ' !in b
    requires IsLineOf(line, a) && IsLineOf(line, b)
    ensures a == b
  {
    var s := Strip(line);
    assert s == a || (s[|a|] == (a + " ")[|a|] == ' ' && s[..|a|] == (a + " ")[..|a|] == a);
    assert s == b || (s[|b|] == (b + " ")[|b|] == ' ' && s[..|b|] == (b + " ")[..|b|] == b);
    StopsAtBlank(s, a, b);
    StopsAtBlank(s, b, a);
  }

  /** The answers of one call, in the order the commands run; the recheck of the active queue is only asked for a
      job of the completed listing. */
  datatype StatusAnswers = StatusAnswers(active: Command, completed: Command, recheck: Option<Command>, detail: Command)

  predicate OnActiveQueue(id: string, a: StatusAnswers) {
    Succeeded(a.active) && JobLine(a.active.lines, id).Some?
  }

  predicate RecheckDue(id: string, a: StatusAnswers) {
    && a.active.Done? && !OnActiveQueue(id, a)
    && Succeeded(a.completed) && JobLine(a.completed.lines, id).Some?
  }

  predicate Asked(id: string, a: StatusAnswers) {
    a.recheck.Some? <==> RecheckDue(id, a)
  }

  /** `_job_detail_state`: nothing usable, or a state; a timeout reads as UNKNOWN. */
  function DetailState(detail: Command): Option<PrinterJobState> {
    match detail
    case TimedOut => Some(Unknown)
    case Done(code, lines, _) => if code != 0 then None else LongState(lines)
  }

  /** `_parse_job_state` of a listing line, with the listing's error output as a last resort. */
  function LineState(line: string, stderr: string): PrinterJobState {
    var state := ShortState(line);
    if state != Unknown then state
    else if Contains(Lower(stderr), "canceled") || Contains(Lower(stderr), "cancelled") then PrinterJobState.Cancelled
    else Unknown
  }

  /** `_job_still_on_active_queue`: a recheck that fails or times out counts as yes. */
  function StillOnActiveQueue(recheck: Option<Command>, id: string): bool {
    recheck.None? || !Succeeded(recheck.value) || JobLine(recheck.value.lines, id).Some?
  }

  function GetStatus(id: string, a: StatusAnswers): PrinterJobState {
    if a.active.TimedOut? then Unknown
    else if OnActiveQueue(id, a) then ActiveStatus(id, a)
    else if a.completed.TimedOut? then Unknown
    else if Succeeded(a.completed) && JobLine(a.completed.lines, id).Some? then CompletedStatus(id, a)
    else Unknown
  }

  /** The state of a job with an active-queue line. */
  function ActiveStatus(id: string, a: StatusAnswers): PrinterJobState
    requires OnActiveQueue(id, a)
  {
    var detail := DetailState(a.detail);
    if detail.Some? && detail.value != Unknown then detail.value
    else LineState(JobLine(a.active.lines, id).value, a.active.stderr)
  }

  /** The state of a job of the completed listing. */
  function CompletedStatus(id: string, a: StatusAnswers): PrinterJobState {
    var detail := DetailState(a.detail);
    if StillOnActiveQueue(a.recheck, id) then
      if detail.Some? && (detail.value.Printing? || detail.value.Pending?) then detail.value
      else PrinterJobState.Printing
    else if detail.Some? && detail.value != PrinterJobState.Completed then detail.value
    else PrinterJobState.Completed
  }

  /** A state on which the handler finishes the job, as printed or as failed. */
  predicate Final(s: PrinterJobState) {
    s.Completed? || s.Failed? || s.Cancelled?
  }

  /** When the commands ran, the job was still active or had ended; once ended it stays ended. */
  datatype Truth = Truth(endedAtActive: bool, endedAtRecheck: bool, endedAtDetail: bool)

  /** A command that succeeds tells the truth of its moment: an active listing shows the job exactly while it
      is active, and a long listing that says completed, canceled or aborted is of a job that has ended. */
  ghost predicate Faithful(id: string, a: StatusAnswers, t: Truth) {
    && (t.endedAtActive ==> t.endedAtRecheck) && (t.endedAtRecheck ==> t.endedAtDetail)
    && (Succeeded(a.active) ==> (JobLine(a.active.lines, id).None? <==> t.endedAtActive))
    && (a.recheck.Some? && Succeeded(a.recheck.value) ==>
          (JobLine(a.recheck.value.lines, id).None? <==> t.endedAtRecheck))
    && (DetailState(a.detail).Some? && Final(DetailState(a.detail).value) ==> t.endedAtDetail)
  }

  /** The answer was read off the active queue's own line, for want of a usable long listing. */
  predicate ReadOffActiveLine(id: string, a: StatusAnswers) {
    OnActiveQueue(id, a) && (DetailState(a.detail).None? || DetailState(a.detail) == Some(Unknown))
  }

  /** A final state is certain exactly when it was not read off an active-queue line: then the job has ended,
      whatever failed or timed out; otherwise the same answers fit a job that is still active. */
  lemma FinalStateIsSound(id: string, a: StatusAnswers)
    requires Asked(id, a) && Final(GetStatus(id, a))
    ensures (forall t :: Faithful(id, a, t) ==> t.endedAtDetail) <==> !ReadOffActiveLine(id, a)
  {
    if ReadOffActiveLine(id, a) {
      assert Faithful(id, a, Truth(false, false, false));
    }
  }

  predicate PlainWord(w: string) {
    w != "" && forall i :: 0 <= i < |w| ==> !IsSpace(w[i]) && LowerChar(w[i]) == w[i]
  }

  lemma PlainLineStrips(id: string, word: string, line: string)
    requires PlainWord(id) && PlainWord(word) && line == id + " " + word
    ensures Strip(line) == line && StripRight(line) == line
  {
    assert line[|line| - 1] == word[|word| - 1] && line[0] == id[0];
    StripUnwraps("", line, "");
    assert "" + line + "" == line;
  }

  lemma PlainLineIsLower(id: string, word: string, line: string)
    requires PlainWord(id) && PlainWord(word) && line == id + " " + word
    ensures Lower(line) == line && Lower(word) == word
  {
    forall i | 0 <= i < |line|
      ensures LowerChar(line[i]) == line[i]
    {
      assert line[i] == if i < |id| then id[i] else if i == |id| then ' ' else word[i - |id| - 1];
    }
  }

  lemma PlainLine(id: string, word: string, line: string)
    requires PlainWord(id) && PlainWord(word) && line == id + " " + word
    ensures Strip(line) == line && Lower(line) == line
    ensures Lower(LastWord(StripRight(line))) == word
  {
    PlainLineStrips(id, word, line);
    PlainLineIsLower(id, word, line);
    EndsInWord(id, word);
  }

  lemma BareLineIsCompleted(id: string, word: string, line: string)
    requires PlainWord(id) && PlainWord(word) && word == "completed" && |id| <= 3 && line == id + " " + word
    ensures ShortState(line) == PrinterJobState.Completed && Strip(line) == line
  {
    PlainLine(id, word, line);
    CompletedKey(word);
    assert |line| < 14;
    ShortLineIsNoPhrase(line);
  }

  lemma OneLineListing(id: string, line: string)
    requires Strip(line) == line && line != "" && IsLineOf(line, id)
    ensures JobLine([line], id) == Some(line)
  {
  }

  /** One case of it: an active-queue line that ends in "completed", and a long listing that fails. */
  lemma ActiveLineCanBeWrong(a: StatusAnswers)
    requires a == StatusAnswers(Done(0, ["q-1" + " " + "completed"], ""), TimedOut, None, Done(1, [], ""))
    ensures Asked("q-1", a) && GetStatus("q-1", a) == PrinterJobState.Completed
    ensures Faithful("q-1", a, Truth(false, false, false))
  {
    var id, line := "q-1", a.active.lines[0];
    BareLineIsCompleted(id, "completed", line);
    OneLineListing(id, line);
  }

  /** The completed listing has the job, and a recheck of the active queue succeeded without it. */
  predicate ConfirmedGone(id: string, a: StatusAnswers) {
    a.recheck.Some? && Succeeded(a.recheck.value) && JobLine(a.recheck.value.lines, id).None?
  }

  /** The long listing answers, and names this state. */
  predicate LongSays(a: StatusAnswers, s: PrinterJobState) {
    a.detail.Done? && a.detail.code == 0 && LongState(a.detail.lines) == Some(s)
  }

  /** It answers with an error, or names no state. */
  predicate LongSilent(a: StatusAnswers) {
    a.detail.Done? && (a.detail.code != 0 || LongState(a.detail.lines).None?)
  }

  /** It times out, or names a state that is not known. */
  predicate LongUnsure(a: StatusAnswers) {
    a.detail.TimedOut? || LongSays(a, Unknown)
  }

  lemma LongListingSays(a: StatusAnswers, s: PrinterJobState)
    ensures s != Unknown ==> (DetailState(a.detail) == Some(s) <==> LongSays(a, s))
    ensures DetailState(a.detail).None? <==> LongSilent(a)
    ensures DetailState(a.detail) == Some(Unknown) <==> LongUnsure(a)
  {
  }

  /** The active-queue line decides, for want of a usable long listing. */
  predicate LineSays(id: string, a: StatusAnswers, s: PrinterJobState) {
    && OnActiveQueue(id, a) && (LongSilent(a) || LongUnsure(a))
    && LineState(JobLine(a.active.lines, id).value, a.active.stderr) == s
  }

  /** A long listing that times out never finishes a job that has left the active queue. */
  lemma TimeoutFinishesNothing(id: string, a: StatusAnswers)
    requires Asked(id, a) && a.detail.TimedOut? && !OnActiveQueue(id, a)
    ensures GetStatus(id, a) in {Unknown, PrinterJobState.Printing}
  {
  }

  /** PRINTING, by the commands: what the long listing or the line says; and a job of the completed listing that a
      recheck has not confirmed gone counts as at work, unless the long listing says that it waits. */
  lemma PrintingStates(id: string, a: StatusAnswers)
    requires Asked(id, a)
    ensures GetStatus(id, a) == PrinterJobState.Printing <==>
              || (OnActiveQueue(id, a) && LongSays(a, PrinterJobState.Printing))
              || LineSays(id, a, PrinterJobState.Printing)
              || (ConfirmedGone(id, a) && LongSays(a, PrinterJobState.Printing))
              || (RecheckDue(id, a) && !ConfirmedGone(id, a) && !LongSays(a, Pending))
  {
  }

  /** PENDING: what the long listing or the line says. */
  lemma PendingStates(id: string, a: StatusAnswers)
    requires Asked(id, a)
    ensures GetStatus(id, a) == Pending <==>
              || (OnActiveQueue(id, a) && LongSays(a, Pending))
              || LineSays(id, a, Pending)
              || (RecheckDue(id, a) && LongSays(a, Pending))
  {
    if OnActiveQueue(id, a) { ActiveSays(id, a, Pending); } else { CompletedSays(id, a); }
  }

  lemma ActiveSays(id: string, a: StatusAnswers, s: PrinterJobState)
    requires OnActiveQueue(id, a) && s != Unknown
    ensures GetStatus(id, a) == s <==> LongSays(a, s) || LineSays(id, a, s)
  {
    LongListingSays(a, s);
  }

  lemma CompletedSays(id: string, a: StatusAnswers)
    requires Asked(id, a) && !OnActiveQueue(id, a)
    ensures GetStatus(id, a) == Pending <==> RecheckDue(id, a) && LongSays(a, Pending)
    ensures forall s: PrinterJobState :: s.Failed? || s.Cancelled? ==>
              (GetStatus(id, a) == s <==> ConfirmedGone(id, a) && LongSays(a, s))
  {
  }

  /** UNKNOWN, by the commands: no listing shows the job, or the line says nothing, or the long listing of a job that
      is confirmed gone is unsure. */
  lemma UnknownStates(id: string, a: StatusAnswers)
    requires Asked(id, a)
    ensures GetStatus(id, a) == Unknown <==>
              || (!OnActiveQueue(id, a) && !RecheckDue(id, a))
              || LineSays(id, a, Unknown)
              || (ConfirmedGone(id, a) && LongUnsure(a))
  {
  }

  /** The line's own state counts, and when it says nothing, an error output that speaks of a cancel. */
  lemma ErrorOutputCancels(line: string, stderr: string)
    ensures ShortState(line) != Unknown ==> LineState(line, stderr) == ShortState(line)
    ensures ShortState(line) == Unknown ==>
              LineState(line, stderr) == if Contains(Lower(stderr), "canceled") || Contains(Lower(stderr), "cancelled")
                                         then PrinterJobState.Cancelled else Unknown
  {
  }

  /** The id alone on its line, and the id with a blank and more behind it, are lines of the job. */
  lemma OwnLines(id: string, rest: string)
    requires id != "" && rest != "" && Stripped(id) && !IsSpace(rest[|rest| - 1])
    ensures IsLineOf(id, id) && IsLineOf(id + " " + rest, id)
  {
    var line := id + " " + rest;
    StripUnwraps("", id, "");
    assert "" + id + "" == id;
    assert line[0] == id[0] && line[|line| - 1] == rest[|rest| - 1];
    StripUnwraps("", line, "");
    assert "" + line + "" == line && line[..|id| + 1] == id + " ";
  }

  /** COMPLETED comes from exactly two places: the active queue's own line with the long listing agreeing or
      silent, or the completed listing confirmed by a recheck that no longer sees the job as active. */
  lemma CompletedHasTwoSources(id: string, a: StatusAnswers)
    requires Asked(id, a)
    ensures GetStatus(id, a) == PrinterJobState.Completed <==>
              || (OnActiveQueue(id, a) && LongSays(a, PrinterJobState.Completed))
              || LineSays(id, a, PrinterJobState.Completed)
              || (ConfirmedGone(id, a) && (LongSilent(a) || LongSays(a, PrinterJobState.Completed)))
  {
  }

  /** A job is given up, as failed or cancelled, exactly on the word of the long listing, or on that of its
      active-queue line when the long listing gives nothing usable; the completed listing alone, and every
      failure or timeout, never gives a job up. */
  lemma GivenUpOnlyWhenSaid(id: string, a: StatusAnswers, s: PrinterJobState)
    requires Asked(id, a) && (s.Failed? || s.Cancelled?)
    ensures GetStatus(id, a) == s <==>
              || (OnActiveQueue(id, a) && LongSays(a, s))
              || LineSays(id, a, s)
              || (ConfirmedGone(id, a) && LongSays(a, s))
  {
    if OnActiveQueue(id, a) { ActiveSays(id, a, s); } else { CompletedSays(id, a); }
  }
}
