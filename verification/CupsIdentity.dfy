/** Job titles that let a CUPS job be found again (app/cups_job_identity.py). */
module CupsIdentity {
  import opened Wrappers
  import opened Text

  const TITLE_PREFIX := "QuickPrint:"
  const MAX_ID := 120

  predicate SafeChar(c: char) {
    'A' <= c <= 'Z' || 'a' <= c <= 'z' || '0' <= c <= '9' || c == '_' || c == '-'
  }

  predicate SafeChars(s: string) {
    forall c <- s :: SafeChar(c)
  }

  /** Ids the backend is expected to use. */
  predicate SafeId(s: string) {
    s != "" && SafeChars(s) && |s| <= MAX_ID
  }

  function KeepSafe(s: string): (r: string)
    ensures SafeChars(r)
    ensures SafeChars(s) ==> r == s
  {
    if s == "" then "" else (if SafeChar(s[0]) then [s[0]] else "") + KeepSafe(s[1..])
  }

  /** The safe characters are the letters, the digits, underscore (95) and dash (45), by code point. */
  lemma SafeCharIsOneOf(c: char)
    ensures SafeChar(c) <==>
              65 <= c as int <= 90 || 97 <= c as int <= 122 || 48 <= c as int <= 57 || c as int in {45, 95}
  {
  }

  /** Sanitising drops the other characters, wherever they stand, and keeps the rest in order. */
  lemma {:induction false} KeepSafeDropsOthers(a: string, c: char, b: string)
    ensures KeepSafe(a + ([c] + b)) == KeepSafe(a) + ((if SafeChar(c) then [c] else []) + KeepSafe(b))
  {
    if a == "" {
      assert ([c] + b)[1..] == b;
      assert a + ([c] + b) == [c] + b;
    } else {
      assert (a + ([c] + b))[1..] == a[1..] + ([c] + b);
      KeepSafeDropsOthers(a[1..], c, b);
    }
  }

  /** The title of an id of safe characters is the agent's prefix and the first 120 of them. */
  lemma TitleOfSafeId(id: string)
    requires id != "" && SafeChars(id)
    ensures CupsTitle(id) == Some("QuickPrint:" + if |id| <= 120 then id else id[..120])
  {
    SafeCharsAreStripped(id);
  }

  /** No title without a safe character. */
  lemma NoTitleWithoutSafeCharacter(id: string)
    ensures CupsTitle(id).None? <==> KeepSafe(Strip(id)) == ""
  {
  }

  /** None stands for the ValueError. */
  function Sanitize(id: string): (r: Option<string>)
    ensures r.Some? ==> SafeId(r.value)
  {
    var safe := KeepSafe(Strip(id));
    if safe == "" then None
    else Some(if |safe| <= MAX_ID then safe else safe[..MAX_ID])
  }

  function CupsTitle(id: string): Option<string> {
    match Sanitize(id)
    case None => None
    case Some(safe) => Some(TITLE_PREFIX + safe)
  }

  lemma SafeCharsAreStripped(s: string)
    requires SafeChars(s)
    ensures Strip(s) == s
  {
    if s != "" {
      assert SafeChar(s[0]) && SafeChar(s[|s| - 1]);
      StripUnwraps("", s, "");
      assert "" + s + "" == s;
    }
  }

  /** Ids made of safe characters share a title exactly when they agree on the first 120 characters; so
      safe ids up to that length never do. */
  lemma TitleCollisions(a: string, b: string)
    requires a != "" && b != "" && SafeChars(a) && SafeChars(b)
    ensures CupsTitle(a).Some?
    ensures CupsTitle(a) == CupsTitle(b) <==> a == b || (|a| >= 120 && |b| >= 120 && a[..120] == b[..120])
    ensures SafeId(a) && SafeId(b) && CupsTitle(a) == CupsTitle(b) ==> a == b
  {
    SafeCharsAreStripped(a);
    SafeCharsAreStripped(b);
    var x, y := Sanitize(a).value, Sanitize(b).value;
    assert (TITLE_PREFIX + x)[|TITLE_PREFIX|..] == x;
    assert (TITLE_PREFIX + y)[|TITLE_PREFIX|..] == y;
    if |a| == MAX_ID { assert a[..MAX_ID] == a; }
    if |b| == MAX_ID { assert b[..MAX_ID] == b; }
  }

  lemma KeepSafeDropsBlank()
    ensures KeepSafe("a b") == "ab"
  {
    assert "a b"[1..] == " b" && " b"[1..] == "b" && "b"[1..] == "";
    assert KeepSafe("b") == "b";
    assert KeepSafe(" b") == "b";
  }

  /** Outside that form two different ids can name the same CUPS job. */
  lemma UnsafeIdsCanCollide()
    ensures CupsTitle("a b") == CupsTitle("ab") == Some("QuickPrint:" + "ab")
  {
    StripUnwraps("", "a b", "");
    assert "" + "a b" + "" == "a b";
    KeepSafeDropsBlank();
    SafeCharsAreStripped("ab");
  }

  /** The title a line of the long listing carries. */
  function TitleOf(line: string): Option<string> {
    var stripped := Strip(line);
    if StartsWith(Lower(stripped), "title:") then
      var title := Strip(stripped[6..]);
      if title == "" then None else Some(title)
    else None
  }

  ghost predicate Carries(lines: seq<string>, title: string) {
    exists line <- lines :: TitleOf(line) == Some(title)
  }

  method ExtractTitles(lines: seq<string>) returns (titles: seq<string>)
    ensures forall t :: t in titles <==> Carries(lines, t)
  {
    titles := [];
    for i := 0 to |lines|
      invariant forall t :: t in titles <==> Carries(lines[..i], t)
    {
      assert lines[..i + 1] == lines[..i] + [lines[i]];
      match TitleOf(lines[i])
      case Some(title) => titles := titles + [title];
      case None =>
    }
    assert lines[..|lines|] == lines;
  }

  method ContainsExactTitle(lines: seq<string>, marker: string) returns (found: bool)
    ensures found <==> Carries(lines, marker)
  {
    var titles := ExtractTitles(lines);
    found := marker in titles;
  }

  lemma TitleIsStripped(id: string)
    requires CupsTitle(id).Some?
    ensures CupsTitle(id).value != "" && Stripped(CupsTitle(id).value)
  {
    var safe := Sanitize(id).value;
    var title := TITLE_PREFIX + safe;
    assert title[0] == 'Q';
    assert title[|title| - 1] == safe[|safe| - 1] && SafeChar(safe[|safe| - 1]);
  }

  lemma LabelledTitle(tag: string, gap: string, title: string)
    requires Lower(tag) == "title:" && AllSpace(gap) && Stripped(title) && title != ""
    ensures var body := tag + gap + title;
            Stripped(body) && body != "" && StartsWith(Lower(body), "title:") && Strip(body[6..]) == title
  {
    var body := tag + gap + title;
    assert |tag| == 6;
    assert Stripped(body) by {
      assert body[0] == tag[0] && LowerChar(tag[0]) == 't';
      assert body[|body| - 1] == title[|title| - 1];
    }
    assert Lower(body)[..6] == Lower(tag);
    assert Strip(body[6..]) == title by {
      assert body[6..] == gap + title + "";
      StripUnwraps(gap, title, "");
    }
  }

  /** The parts of a line that carries a title. */
  predicate Labelled(line: string, before: string, tag: string, gap: string, title: string, after: string) {
    && line == before + (tag + (gap + title)) + after && Lower(tag) == "title:"
    && AllSpace(before) && AllSpace(gap) && AllSpace(after)
  }

  lemma StrippedTitleParts(stripped: string, title: string) returns (gap: string)
    requires Stripped(stripped) && StartsWith(Lower(stripped), "title:") && title == Strip(stripped[6..]) && title != ""
    ensures stripped == stripped[..6] + (gap + title) && AllSpace(gap) && Lower(stripped[..6]) == "title:"
  {
    var rest;
    gap, rest := StripShape(stripped[6..]);
    assert Lower(stripped[..6]) == Lower(stripped)[..6];
    assert stripped == (stripped[..6] + (gap + title)) + rest;
    TitleEnds(stripped, stripped[..6] + (gap + title), rest);
  }

  /** Only a line that starts with the label carries a title, and what follows the label is all of it. */
  lemma TitleComesFromLabel(line: string, title: string)
    requires TitleOf(line) == Some(title)
    ensures exists before, tag, gap, after :: Labelled(line, before, tag, gap, title, after)
  {
    var before, after := StripShape(line);
    var gap := StrippedTitleParts(Strip(line), title);
    assert Labelled(line, before, Strip(line)[..6], gap, title, after);
  }

  lemma TitleEnds(stripped: string, front: string, rest: string)
    requires stripped == front + rest && AllSpace(rest) && Stripped(stripped) && stripped != ""
    ensures rest == ""
  {
  }

  /** A title given to `lp` is read back exactly from a listing line that shows it, whatever the blanks
      around it and the case of the label. */
  lemma TitleReadsBack(id: string, before: string, tag: string, gap: string, after: string)
    requires CupsTitle(id).Some? && Lower(tag) == "title:"
    requires AllSpace(before) && AllSpace(gap) && AllSpace(after)
    ensures TitleOf(before + (tag + gap + CupsTitle(id).value) + after) == CupsTitle(id)
  {
    TitleIsStripped(id);
    LabelledTitle(tag, gap, CupsTitle(id).value);
    StripUnwraps(before, tag + gap + CupsTitle(id).value, after);
  }
}
