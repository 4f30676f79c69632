/** The CUPS queries (app/cups.py): several unreliable listings folded into one answer. */
module CupsPrinter {
  import opened Wrappers
  import opened Text
  import opened CupsIdentity

  /** What one command gives: a timeout, or an exit code with output lines. */
  datatype Command = TimedOut | Done(code: int, lines: seq<string>, stderr: string)

  predicate Succeeded(c: Command) {
    c.Done? && c.code == 0
  }

  function FirstWord(s: string): (w: string)
    ensures |w| <= |s| && w == s[..|w|]
    ensures forall c <- w :: !IsSpace(c)
    ensures |w| < |s| ==> IsSpace(s[|w|])
  {
    if s == "" || IsSpace(s[0]) then "" else
    var rest := FirstWord(s[1..]);
    [s[0]] + rest
  }

  predicate DigitsFrom(s: string, i: nat) {
    i < |s| && forall k :: i <= k < |s| ==> IsDigit(s[k])
  }

  /** A queue name, a dash and a number. */
  predicate IsJobId(w: string) {
    exists i :: 1 <= i < |w| && w[i] == '-' && DigitsFrom(w, i + 1)
  }

  /** The job id that opens a listing line, when more text follows it. */
  function JobIdOf(line: string): Option<string> {
    var s := Strip(line);
    var w := FirstWord(s);
    if |w| < |s| && IsJobId(w) then Some(w) else None
  }

  predicate NoBlanks(w: string) {
    forall i :: 0 <= i < |w| ==> !IsSpace(w[i])
  }

  predicate Digits(n: string) {
    n != "" && forall i :: 0 <= i < |n| ==> IsDigit(n[i])
  }

  lemma {:induction false} FirstWordStops(w: string, rest: string)
    requires NoBlanks(w) && rest != "" && IsSpace(rest[0])
    ensures FirstWord(w + rest) == w
  {
    if w == "" {
      assert w + rest == rest;
    } else {
      assert (w + rest)[1..] == w[1..] + rest;
      FirstWordStops(w[1..], rest);
      assert w == [w[0]] + w[1..];
    }
  }

  lemma NumberedWordIsJobId(q: string, n: string)
    requires q != "" && NoBlanks(q) && Digits(n)
    ensures IsJobId(q + "-" + n) && NoBlanks(q + "-" + n)
  {
    var w := q + "-" + n;
    assert w[|q|] == '-';
    assert forall k :: |q| + 1 <= k < |w| ==> w[k] == n[k - |q| - 1];
    assert DigitsFrom(w, |q| + 1);
  }

  /** A listing line that opens with a queue name, a dash and a number of any length, and goes on after a blank,
      names that job, whatever blanks surround it. */
  lemma JobIdReadsBack(before: string, q: string, n: string, rest: string, after: string)
    requires AllSpace(before) && AllSpace(after)
    requires q != "" && NoBlanks(q) && Digits(n)
    requires rest != "" && IsSpace(rest[0]) && !IsSpace(rest[|rest| - 1])
    ensures JobIdOf(before + (q + "-" + n + rest) + after) == Some(q + "-" + n)
  {
    var w := q + "-" + n;
    NumberedWordIsJobId(q, n);
    FirstWordStops(w, rest);
    var line := w + rest;
    assert line[0] == q[0] && line[|line| - 1] == rest[|rest| - 1];
    StripUnwraps(before, line, after);
  }

  predicate NumberedId(id: string, q: string, n: string) {
    id == q + "-" + n && q != "" && NoBlanks(q) && Digits(n)
  }

  lemma JobIdIsNumbered(id: string, i: nat)
    requires 1 <= i < |id| && id[i] == '-' && DigitsFrom(id, i + 1) && forall c <- id :: !IsSpace(c)
    ensures NumberedId(id, id[..i], id[i + 1..])
  {
    var q, n := id[..i], id[i + 1..];
    assert id == q + [id[i]] + n;
    forall k | 0 <= k < |q|
      ensures !IsSpace(q[k])
    {
      assert q[k] == id[k] && id[k] in id;
    }
    forall k | 0 <= k < |n|
      ensures IsDigit(n[k])
    {
      assert n[k] == id[i + 1 + k];
    }
  }

  /** Every id that is read has this form. */
  lemma JobIdHasForm(line: string, id: string)
    requires JobIdOf(line) == Some(id)
    ensures exists q, n :: NumberedId(id, q, n)
  {
    var i :| 1 <= i < |id| && id[i] == '-' && DigitsFrom(id, i + 1);
    JobIdIsNumbered(id, i);
  }

  /** And it opens its line, with a blank and more text behind it. */
  lemma JobIdOpensLine(line: string, id: string)
    requires JobIdOf(line) == Some(id)
    ensures exists before, rest, after ::
              && line == before + (id + rest) + after && AllSpace(before) && AllSpace(after)
              && rest != "" && IsSpace(rest[0])
  {
    var before, after := StripShape(line);
    var rest := Strip(line)[|id|..];
    assert Strip(line) == id + rest;
    assert line == before + (id + rest) + after;
  }

  /** The job ids of a listing, in order; an id may come twice. */
  function IdsOf(lines: seq<string>): seq<string> {
    if lines == [] then [] else IdsOf(lines[..|lines| - 1]) + IdOfLine(lines[|lines| - 1])
  }

  function IdOfLine(line: string): seq<string> {
    match JobIdOf(line)
    case Some(id) => [id]
    case None => []
  }

  lemma IdsOfOneMore(lines: seq<string>, i: nat)
    requires i < |lines|
    ensures IdsOf(lines[..i + 1]) == IdsOf(lines[..i]) + IdOfLine(lines[i])
  {
    assert lines[..i + 1][..i] == lines[..i];
  }

  /** They are exactly the ids that open some line. */
  lemma {:induction false} IdsOpenLines(lines: seq<string>, id: string)
    ensures id in IdsOf(lines) <==> exists line <- lines :: JobIdOf(line) == Some(id)
  {
    if lines != [] {
      var init, last := lines[..|lines| - 1], lines[|lines| - 1];
      assert lines == init + [last];
      IdsOpenLines(init, id);
    }
  }

  method JobIds(lines: seq<string>) returns (ids: seq<string>)
    ensures ids == IdsOf(lines)
  {
    ids := [];
    for i := 0 to |lines|
      invariant ids == IdsOf(lines[..i])
    {
      IdsOfOneMore(lines, i);
      var id := JobIdOf(lines[i]);
      if id.Some? {
        ids := ids + [id.value];
      }
    }
    assert lines[..|lines|] == lines;
  }

  /** `Escapes` is the timeout of a detail query, which nothing catches. */
  datatype Lookup = NotFound | Found(id: string) | Ambiguous(ids: set<string>) | LookupFailed | Escapes

  /** The answers of one lookup: the not-completed and the completed listing, and for each the long listing
      that is asked for at every position of its ids. */
  datatype Answers = Answers(listings: seq<Command>, details: (nat, nat) -> Command)

  function IdsListed(a: Answers, i: nat): seq<string>
    requires i < |a.listings|
  {
    if Succeeded(a.listings[i]) then IdsOf(a.listings[i].lines) else []
  }

  /** Position `k` of listing `i` shows the marker. */
  ghost predicate Shown(a: Answers, i: nat, k: nat, marker: string) {
    Succeeded(a.details(i, k)) && Carries(a.details(i, k).lines, marker)
  }

  ghost predicate Matches(a: Answers, i: nat, id: string, marker: string)
    requires i < |a.listings|
  {
    MatchesBefore(a, i, |IdsListed(a, i)|, id, marker)
  }

  ghost predicate MatchesBefore(a: Answers, i: nat, n: nat, id: string, marker: string)
    requires i < |a.listings| && n <= |IdsListed(a, i)|
  {
    exists k: nat {:trigger IdsListed(a, i)[k]} :: k < n && IdsListed(a, i)[k] == id && Shown(a, i, k, marker)
  }

  lemma MatchesOneMore(a: Answers, i: nat, n: nat, id: string, marker: string)
    requires i < |a.listings| && n < |IdsListed(a, i)|
    ensures MatchesBefore(a, i, n + 1, id, marker)
            <==> MatchesBefore(a, i, n, id, marker) || (IdsListed(a, i)[n] == id && Shown(a, i, n, marker))
  {
  }

  ghost predicate MatchesAny(a: Answers, id: string, marker: string)
    requires |a.listings| == 2
  {
    Matches(a, 0, id, marker) || Matches(a, 1, id, marker)
  }

  /** No detail query of this listing timed out. */
  ghost predicate DetailsAnswered(a: Answers, i: nat)
    requires i < |a.listings|
  {
    forall k: nat :: k < |IdsListed(a, i)| ==> a.details(i, k).Done?
  }

  /** The lookup got as far as an answer about titles. */
  ghost predicate Conclusive(a: Answers, id: string)
    requires |a.listings| == 2
  {
    && CupsTitle(id).Some?
    && a.listings[0].Done? && a.listings[1].Done?
    && (a.listings[0].code == 0 || a.listings[1].code == 0)
    && DetailsAnswered(a, 0) && DetailsAnswered(a, 1)
  }

  method QueryDetail(a: Answers, i: nat, k: nat, marker: string) returns (shown: bool, escaped: bool)
    ensures escaped == a.details(i, k).TimedOut?
    ensures shown == Shown(a, i, k, marker)
  {
    var detail := a.details(i, k);
    if detail.TimedOut? {
      return false, true;
    }
    shown, escaped := false, false;
    if detail.code == 0 {
      shown := ContainsExactTitle(detail.lines, marker);
    }
  }

  method MatchListing(a: Answers, i: nat, marker: string) returns (matches: set<string>, escaped: bool)
    requires i < |a.listings| && Succeeded(a.listings[i])
    ensures escaped <==> !DetailsAnswered(a, i)
    ensures !escaped ==> forall id :: id in matches <==> Matches(a, i, id, marker)
  {
    matches, escaped := {}, false;
    var ids := JobIds(a.listings[i].lines);
    var n := 0;
    while n < |ids|
      invariant n <= |ids| && ids == IdsListed(a, i)
      invariant forall k: nat :: k < n ==> a.details(i, k).Done?
      invariant forall id :: id in matches <==> MatchesBefore(a, i, n, id, marker)
    {
      var shown;
      shown, escaped := QueryDetail(a, i, n, marker);
      if escaped {
        return;
      }
      forall id {
        MatchesOneMore(a, i, n, id, marker);
      }
      if shown {
        matches := matches + {ids[n]};
      }
      n := n + 1;
    }
  }

  ghost predicate MatchesUpTo(a: Answers, i: nat, id: string, marker: string)
    requires |a.listings| == 2
  {
    (i > 0 && Matches(a, 0, id, marker)) || (i > 1 && Matches(a, 1, id, marker))
  }

  method Classify(matches: set<string>) returns (r: Lookup)
    ensures match r
            case NotFound => matches == {}
            case Found(id) => matches == {id}
            case Ambiguous(ids) => ids == matches && |matches| > 1
            case _ => false
  {
    if matches == {} {
      return NotFound;
    }
    if |matches| > 1 {
      return Ambiguous(matches);
    }
    var id :| id in matches;
    assert |matches - {id}| == 0;
    assert matches == {id};
    return Found(id);
  }

  datatype Scan = Scanned(matches: set<string>, failed: nat) | ScanTimedOut | ScanEscaped

  /** The loop over the two listings. */
  method ScanListings(a: Answers, marker: string) returns (scan: Scan)
    requires |a.listings| == 2
    ensures match scan
            case ScanEscaped =>
              a.listings[0].Done? && (!DetailsAnswered(a, 0) || (a.listings[1].Done? && !DetailsAnswered(a, 1)))
            case ScanTimedOut => a.listings[0].TimedOut? || (DetailsAnswered(a, 0) && a.listings[1].TimedOut?)
            case Scanned(matches, failed) =>
              && a.listings[0].Done? && a.listings[1].Done? && DetailsAnswered(a, 0) && DetailsAnswered(a, 1)
              && (failed == 2 <==> a.listings[0].code != 0 && a.listings[1].code != 0)
              && forall id :: id in matches <==> MatchesUpTo(a, 2, id, marker)
  {
    var matches: set<string> := {};
    var failed := 0;
    var i := 0;
    while i < 2
      invariant 0 <= i <= 2
      invariant i > 0 ==> a.listings[0].Done? && DetailsAnswered(a, 0)
      invariant i > 1 ==> a.listings[1].Done? && DetailsAnswered(a, 1)
      invariant forall id :: id in matches <==> MatchesUpTo(a, i, id, marker)
      invariant failed == (if i > 0 && a.listings[0].code != 0 then 1 else 0)
                       + (if i > 1 && a.listings[1].code != 0 then 1 else 0)
    {
      if a.listings[i].TimedOut? {
        return ScanTimedOut;
      }
      if a.listings[i].code != 0 {
        failed := failed + 1;
      } else {
        var found, escaped := MatchListing(a, i, marker);
        if escaped {
          return ScanEscaped;
        }
        matches := matches + found;
      }
      i := i + 1;
    }
    return Scanned(matches, failed);
  }

  /** The answer that belongs to the listings: the ids that show the title, none, one or more of them; no
      answer about titles when a listing timed out or both failed; and the escaping timeout. */
  ghost predicate LookupAnswer(backendJobId: string, a: Answers, r: Lookup)
    requires |a.listings| == 2
  {
    && (r.NotFound? || r.Found? || r.Ambiguous? <==> Conclusive(a, backendJobId))
    && (Conclusive(a, backendJobId) ==>
          var marker := CupsTitle(backendJobId).value;
          && (r.NotFound? <==> forall id :: !MatchesAny(a, id, marker))
          && (r.Found? ==> forall id :: MatchesAny(a, id, marker) <==> id == r.id)
          && (r.Ambiguous? ==> |r.ids| > 1 && forall id :: MatchesAny(a, id, marker) <==> id in r.ids))
    && (r.Escapes? <==>
          && CupsTitle(backendJobId).Some? && a.listings[0].Done?
          && (!DetailsAnswered(a, 0) || (a.listings[1].Done? && !DetailsAnswered(a, 1))))
  }

  /** `find_existing_job` */
  method FindExistingJob(backendJobId: string, a: Answers) returns (r: Lookup)
    requires |a.listings| == 2
    ensures LookupAnswer(backendJobId, a, r)
  {
    var title := CupsTitle(backendJobId);
    if title.None? {
      return LookupFailed;
    }
    var scan := ScanListings(a, title.value);
    match scan {
      case ScanTimedOut => return LookupFailed;
      case ScanEscaped => return Escapes;
      case Scanned(matches, failed) =>
        if failed == 2 {
          return LookupFailed;
        }
        assert forall id :: id in matches <==> MatchesAny(a, id, title.value);
        r := Classify(matches);
    }
  }
}
