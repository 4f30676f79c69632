/** Job states read from lpstat text (app/cups_job_state.py). */
module CupsJobState {
  import opened Wrappers
  import opened Text
  import opened Printer

  /** The job-state keywords of section 5.3.7 of RFC 8011, as the agent folds them. */
  function IppState(key: string): Option<PrinterJobState> {
    if key == "pending" || key == "pending-held" then Some(Pending)
    else if key == "processing" || key == "processing-stopped" then Some(PrinterJobState.Printing)
    else if key == "canceled" || key == "cancelled" then Some(PrinterJobState.Cancelled)
    else if key == "aborted" then Some(PrinterJobState.Failed)
    else if key == "completed" then Some(PrinterJobState.Completed)
    else None
  }

  lemma KeywordsDiffer()
    ensures "pending" != "aborted" && "canceled" != "cancelled" && "completed" != "cancelled"
  {
    assert "pending"[0] != "aborted"[0] && "completed"[1] != "cancelled"[1];
  }

  /** Each state has exactly these keywords. */
  lemma KeywordsOfState(key: string)
    ensures IppState(key) == Some(Pending) <==> key in {"pending", "pending-held"}
    ensures IppState(key) == Some(PrinterJobState.Printing) <==> key in {"processing", "processing-stopped"}
    ensures IppState(key) == Some(PrinterJobState.Cancelled) <==> key in {"canceled", "cancelled"}
    ensures IppState(key) == Some(PrinterJobState.Failed) <==> key == "aborted"
    ensures IppState(key) == Some(PrinterJobState.Completed) <==> key == "completed"
    ensures IppState(key) != Some(Unknown)
  {
    KeywordsDiffer();
  }

  /** What follows a label at the start of a line, in any case; None when nothing follows. */
  function AfterLabel(line: string, tag: string): Option<string> {
    var s := StripLeft(line);
    if StartsWith(Lower(s), tag) && |s| > |tag| then Some(s[|tag|..]) else None
  }

  function StateOfLine(line: string): Option<PrinterJobState> {
    match AfterLabel(line, "job-state:")
    case None => None
    case Some(rest) =>
      match IppState(Lower(Strip(rest)))
      case None => Some(Unknown)
      case Some(state) => Some(state)
  }

  function Reasons(pieces: seq<string>): seq<string> {
    if pieces == [] then []
    else (if Strip(pieces[0]) == "" then [] else [Strip(pieces[0])]) + Reasons(pieces[1..])
  }

  /** The reasons a line sets; None when it leaves them alone. */
  function ReasonsOfLine(line: string): Option<seq<string>> {
    if AfterLabel(line, "job-state:").Some? then None
    else match AfterLabel(line, "job-state-reasons:")
         case None => None
         case Some(rest) =>
           var raw := Strip(rest);
           if Lower(raw) == "none" || raw == "" then None else Some(Reasons(Split(raw, ',')))
  }

  lemma LabelReadsBack(name: string, before: string, tag: string, rest: string)
    requires name != "" && Lower(tag) == name && !IsSpace(tag[0]) && AllSpace(before) && rest != ""
    ensures AfterLabel(before + (tag + rest), name) == Some(rest)
  {
    var body := tag + rest;
    StripLeftSkips(before, body);
    assert body[0] == tag[0];
    assert Lower(body)[..|name|] == Lower(tag);
    assert body[|name|..] == rest;
  }

  /** A state line is read as its keyword says, in any case and with any blanks; an unknown keyword is UNKNOWN. */
  lemma StateReadsBack(before: string, tag: string, gap: string, word: string, after: string)
    requires Lower(tag) == "job-state:" && AllSpace(before) && AllSpace(gap) && AllSpace(after)
    requires word != "" && Stripped(word)
    ensures StateOfLine(before + (tag + (gap + word + after))) ==
            (match IppState(Lower(word)) case None => Some(Unknown) case Some(state) => Some(state))
  {
    assert LowerChar(tag[0]) == 'j';
    LabelReadsBack("job-state:", before, tag, gap + word + after);
    StripUnwraps(gap, word, after);
  }

  lemma {:induction false} ReasonsOfStripped(rs: seq<string>)
    requires forall i :: 0 <= i < |rs| ==> rs[i] != "" && Strip(rs[i]) == rs[i]
    ensures Reasons(rs) == rs
  {
    if rs != [] {
      ReasonsOfStripped(rs[1..]);
      assert rs == [rs[0]] + rs[1..];
    }
  }

  lemma ReasonsLineIsNoStateLine(before: string, tag: string, rest: string)
    requires Lower(tag) == "job-state-reasons:" && AllSpace(before)
    ensures AfterLabel(before + (tag + rest), "job-state:").None?
  {
    var body := tag + rest;
    assert LowerChar(tag[0]) == 'j' && body[0] == tag[0];
    StripLeftSkips(before, body);
    assert Lower(body)[9] == LowerChar(tag[9]) && Lower(tag)[9] == '-';
  }

  /** A line of reasons is read back as they are, one by one, unless it only says "none". */
  lemma ReasonsReadBack(before: string, tag: string, gap: string, rs: seq<string>, after: string)
    requires Lower(tag) == "job-state-reasons:" && AllSpace(before) && AllSpace(gap) && AllSpace(after)
    requires rs != [] && forall i :: 0 <= i < |rs| ==> rs[i] != "" && Strip(rs[i]) == rs[i] && ',' !in rs[i]
    requires Join(rs, ',') != "" && Stripped(Join(rs, ','))
    ensures var raw := Join(rs, ',');
            ReasonsOfLine(before + (tag + (gap + raw + after))) == if Lower(raw) == "none" then None else Some(rs)
  {
    var raw := Join(rs, ',');
    assert LowerChar(tag[0]) == 'j';
    ReasonsLineIsNoStateLine(before, tag, gap + raw + after);
    LabelReadsBack("job-state-reasons:", before, tag, gap + raw + after);
    StripUnwraps(gap, raw, after);
    SplitJoin(rs, ',');
    ReasonsOfStripped(rs);
  }

  /** The last value some line gives. */
  ghost predicate LastGiven<T>(lines: seq<string>, given: string -> Option<T>, value: Option<T>) {
    match value
    case None => forall line <- lines :: given(line).None?
    case Some(v) =>
      exists i :: 0 <= i < |lines| && given(lines[i]) == Some(v)
                  && forall k :: i < k < |lines| ==> given(lines[k]).None?
  }

  lemma LastGivenExtends<T>(lines: seq<string>, line: string, given: string -> Option<T>, value: Option<T>)
    requires LastGiven(lines, given, value)
    ensures LastGiven(lines + [line], given, if given(line).Some? then given(line) else value)
  {
    var all := lines + [line];
    assert all[|lines|] == line;
    if given(line).None? && value.Some? {
      var i :| 0 <= i < |lines| && given(lines[i]) == value && forall k :: i < k < |lines| ==> given(lines[k]).None?;
      assert given(all[i]) == value && forall k :: i < k < |all| ==> given(all[k]).None?;
    }
  }

  lemma LastGivenIsOne<T>(lines: seq<string>, given: string -> Option<T>, a: Option<T>, b: Option<T>)
    requires LastGiven(lines, given, a) && LastGiven(lines, given, b)
    ensures a == b
  {
    if a.Some? && b.Some? {
      var i :| 0 <= i < |lines| && given(lines[i]) == a && forall k :: i < k < |lines| ==> given(lines[k]).None?;
      var j :| 0 <= j < |lines| && given(lines[j]) == b && forall k :: j < k < |lines| ==> given(lines[k]).None?;
      assert !(i < j) && !(j < i);
    }
  }

  /** The long listing's state as a function: the last line that names one. */
  function LongState(lines: seq<string>): (state: Option<PrinterJobState>)
    ensures LastGiven(lines, StateOfLine, state)
  {
    if lines == [] then None
    else
      var last := lines[|lines| - 1];
      var init := lines[..|lines| - 1];
      LastGivenExtends(init, last, StateOfLine, LongState(init));
      assert init + [last] == lines;
      if StateOfLine(last).Some? then StateOfLine(last) else LongState(init)
  }

  /** `parse_lpstat_long_job`: later lines override earlier ones. */
  method ParseLongJob(lines: seq<string>) returns (state: Option<PrinterJobState>, reasons: seq<string>)
    ensures LastGiven(lines, StateOfLine, state) && state == LongState(lines)
    ensures || LastGiven(lines, ReasonsOfLine, Some(reasons))
            || (reasons == [] && LastGiven(lines, ReasonsOfLine, None))
  {
    state := None;
    var given: Option<seq<string>> := None;
    for i := 0 to |lines|
      invariant LastGiven(lines[..i], StateOfLine, state)
      invariant LastGiven(lines[..i], ReasonsOfLine, given)
    {
      assert lines[..i + 1] == lines[..i] + [lines[i]];
      LastGivenExtends(lines[..i], lines[i], StateOfLine, state);
      LastGivenExtends(lines[..i], lines[i], ReasonsOfLine, given);
      var s := StateOfLine(lines[i]);
      if s.Some? {
        state := s;
      } else {
        var r := ReasonsOfLine(lines[i]);
        if r.Some? {
          given := r;
        }
      }
    }
    assert lines[..|lines|] == lines;
    LastGivenIsOne(lines, StateOfLine, state, LongState(lines));
    reasons := if given.Some? then given.value else [];
  }

  predicate WordChar(c: char) {
    'a' <= c <= 'z' || 'A' <= c <= 'Z' || '0' <= c <= '9' || c == '_'
  }

  /** Letters, digits and underscore, by code point. */
  lemma WordCharIsOneOf(c: char)
    ensures WordChar(c) <==>
              65 <= c as int <= 90 || 97 <= c as int <= 122 || 48 <= c as int <= 57 || c as int == 95
  {
  }

  predicate WordAt(s: string, word: string, i: nat) {
    && OccursAt(s, word, i)
    && (i == 0 || !WordChar(s[i - 1]))
    && (i + |word| == |s| || !WordChar(s[i + |word|]))
  }

  predicate ContainsWord(s: string, word: string) {
    exists i :: 0 <= i <= |s| && WordAt(s, word, i)
  }

  /** The word between two parts that do not run into it. */
  predicate StandsAlone(s: string, a: string, word: string, b: string) {
    && s == a + word + b
    && (a == "" || !WordChar(a[|a| - 1])) && (b == "" || !WordChar(b[0]))
  }

  lemma WordStandsAlone(s: string, word: string, i: nat)
    requires WordAt(s, word, i)
    ensures StandsAlone(s, s[..i], word, s[i + |word|..])
  {
    assert s == s[..i] + s[i..i + |word|] + s[i + |word|..];
  }

  lemma AloneIsWord(s: string, a: string, word: string, b: string)
    requires StandsAlone(s, a, word, b)
    ensures WordAt(s, word, |a|)
  {
    assert (a + word)[|a|..] == word;
    assert s[..|a| + |word|] == a + word;
    assert s[|a|..|a| + |word|] == s[..|a| + |word|][|a|..];
  }

  /** A word is contained where neither neighbour belongs to a word. */
  lemma ContainsWholeWord(s: string, word: string)
    ensures ContainsWord(s, word) <==> exists a, b :: StandsAlone(s, a, word, b)
  {
    if ContainsWord(s, word) {
      var i :| 0 <= i <= |s| && WordAt(s, word, i);
      WordStandsAlone(s, word, i);
    }
    if a, b :| StandsAlone(s, a, word, b) {
      AloneIsWord(s, a, word, b);
    }
  }

  function LastWord(s: string): string {
    if s == "" || IsSpace(s[|s| - 1]) then "" else LastWord(s[..|s| - 1]) + [s[|s| - 1]]
  }

  predicate StillActive(lower: string) {
    || Contains(lower, "rendering completed")
    || Contains(lower, "spooling completed")
    || Contains(lower, "data completed")
  }

  /** `parse_lpstat_short_job_line` */
  function ShortState(line: string): PrinterJobState {
    var lower := Strip(Lower(line));
    if lower == "" then Unknown else QueueLineState(lower, LastKey(line))
  }

  /** The state the last word of the line is a keyword of. */
  function LastKey(line: string): Option<PrinterJobState> {
    IppState(Lower(LastWord(StripRight(line))))
  }

  function QueueLineState(lower: string, key: Option<PrinterJobState>): PrinterJobState {
    if StillActive(lower) then PrinterJobState.Printing
    else match key
         case Some(state) => state
         case None => WordState(lower)
  }

  /** The first group of words that occurs on the line. */
  function WordState(lower: string): PrinterJobState {
    if ContainsWord(lower, "processing") || ContainsWord(lower, "printing") then PrinterJobState.Printing
    else if ContainsWord(lower, "pending") || ContainsWord(lower, "held") || ContainsWord(lower, "queued") then Pending
    else if ContainsWord(lower, "canceled") || ContainsWord(lower, "cancelled") then PrinterJobState.Cancelled
    else if ContainsWord(lower, "aborted") then PrinterJobState.Failed
    else if ContainsWord(lower, "completed") then PrinterJobState.Completed
    else Unknown
  }

  /** The last word of a text. */
  lemma {:induction false} EndsInWord(s: string, w: string)
    requires s != "" && forall c <- w :: !IsSpace(c)
    ensures LastWord(s + " " + w) == w
  {
    var text := s + " " + w;
    if w == "" {
      assert text[|text| - 1] == ' ';
    } else {
      assert text[|text| - 1] == w[|w| - 1] && w[|w| - 1] in w;
      assert text[..|text| - 1] == s + " " + w[..|w| - 1];
      EndsInWord(s, w[..|w| - 1]);
    }
  }

  lemma WordExtends(init: string, w: string, c: char)
    requires |w| <= |init| && init[|init| - |w|..] == w
    ensures (init + [c])[|init| - |w|..] == w + [c]
  {
  }

  lemma {:induction false} LastWordEnds(s: string)
    ensures var w := LastWord(s);
            && |w| <= |s| && s[|s| - |w|..] == w
            && (|w| < |s| ==> IsSpace(s[|s| - |w| - 1]))
  {
    if s != "" && !IsSpace(s[|s| - 1]) {
      var init := s[..|s| - 1];
      LastWordEnds(init);
      WordExtends(init, LastWord(init), s[|s| - 1]);
      assert init + [s[|s| - 1]] == s;
    }
  }

  lemma LowerAppends(s: string, c: char)
    ensures Lower(s + [c]) == Lower(s) + [LowerChar(c)]
    ensures IsSpace(LowerChar(c)) == IsSpace(c)
  {
  }

  lemma {:induction false} LastWordOfLower(s: string)
    ensures LastWord(Lower(s)) == Lower(LastWord(s))
  {
    if s != "" {
      var init, last := s[..|s| - 1], s[|s| - 1];
      assert s == init + [last];
      LowerAppends(init, last);
      assert Lower(s)[..|s| - 1] == Lower(init);
      if !IsSpace(last) {
        LastWordOfLower(init);
        LowerAppends(LastWord(init), last);
      }
    }
  }

  lemma {:induction false} StripRightOfLower(s: string)
    ensures StripRight(Lower(s)) == Lower(StripRight(s))
  {
    if s != "" && IsSpace(s[|s| - 1]) {
      assert Lower(s)[..|s| - 1] == Lower(s[..|s| - 1]);
      StripRightOfLower(s[..|s| - 1]);
    }
  }

  lemma {:induction false} LastWordSkipsBlank(c: char, s: string)
    requires IsSpace(c)
    ensures LastWord([c] + s) == LastWord(s)
  {
    if s != "" && !IsSpace(s[|s| - 1]) {
      assert ([c] + s)[..|s|] == [c] + s[..|s| - 1];
      LastWordSkipsBlank(c, s[..|s| - 1]);
    }
  }

  lemma {:induction false} StripRightKeepsHead(c: char, s: string)
    requires IsSpace(c)
    ensures LastWord(StripRight([c] + s)) == LastWord(StripRight(s))
  {
    if s == "" {
      assert [c] + s == [c] && [c][..0] == "";
    } else if IsSpace(s[|s| - 1]) {
      assert ([c] + s)[..|s|] == [c] + s[..|s| - 1];
      StripRightKeepsHead(c, s[..|s| - 1]);
    } else {
      LastWordSkipsBlank(c, s);
    }
  }

  /** Blanks in front do not change the last word. */
  lemma {:induction false} LastWordOfStrip(s: string)
    ensures LastWord(Strip(s)) == LastWord(StripRight(s))
  {
    if s != "" && IsSpace(s[0]) {
      LastWordOfStrip(s[1..]);
      StripRightKeepsHead(s[0], s[1..]);
      assert [s[0]] + s[1..] == s;
    }
  }

  lemma LastWordIsWord(s: string)
    ensures LastWord(s) != "" ==> ContainsWord(s, LastWord(s))
  {
    LastWordEnds(s);
    assert LastWord(s) != "" ==> WordAt(s, LastWord(s), |s| - |LastWord(s)|);
  }

  lemma LastWordOfLine(line: string)
    ensures LastWord(Strip(Lower(line))) == Lower(LastWord(StripRight(line)))
  {
    LastWordOfStrip(Lower(line));
    StripRightOfLower(line);
    LastWordOfLower(StripRight(line));
  }

  lemma CompletedKey(key: string)
    ensures IppState(key) == Some(PrinterJobState.Completed) <==> key == "completed"
  {
    assert "completed"[1] != "cancelled"[1];
  }

  lemma LastWordSaysSo(line: string)
    requires IppState(Lower(LastWord(StripRight(line)))) == Some(PrinterJobState.Completed)
    ensures ContainsWord(Strip(Lower(line)), "completed")
  {
    LastWordOfLine(line);
    LastWordIsWord(Strip(Lower(line)));
    CompletedKey(LastWord(Strip(Lower(line))));
  }

  /** A line reads as COMPLETED only if it has the word "completed" standing alone, and none of the phrases of a
      driver still at work: no other text is ever mistaken for completion. */
  lemma CompletedLineSaysSo(line: string)
    requires ShortState(line) == PrinterJobState.Completed
    ensures ContainsWord(Strip(Lower(line)), "completed") && !StillActive(Strip(Lower(line)))
  {
    var state := IppState(Lower(LastWord(StripRight(line))));
    if state.Some? {
      assert state == Some(PrinterJobState.Completed);
      LastWordSaysSo(line);
    } else {
      assert WordState(Strip(Lower(line))) == PrinterJobState.Completed;
    }
  }

  /** A driver that has rendered, spooled or sent its data is still at work, whatever else the line says. */
  lemma PhrasesKeepActive(a: string, b: string, key: Option<PrinterJobState>)
    ensures QueueLineState(a + "rendering completed" + b, key) == PrinterJobState.Printing
    ensures QueueLineState(a + "spooling completed" + b, key) == PrinterJobState.Printing
    ensures QueueLineState(a + "data completed" + b, key) == PrinterJobState.Printing
  {
    ContainsPart(a + "rendering completed" + b, "rendering completed");
    ContainsPart(a + "spooling completed" + b, "spooling completed");
    ContainsPart(a + "data completed" + b, "data completed");
  }

  /** The words, or phrases, that stand for a state on a queue line. */
  predicate Mentions(lower: string, s: PrinterJobState) {
    match s
    case Printing => StillActive(lower) || ContainsWord(lower, "processing") || ContainsWord(lower, "printing")
    case Pending => ContainsWord(lower, "pending") || ContainsWord(lower, "held") || ContainsWord(lower, "queued")
    case Cancelled => ContainsWord(lower, "canceled") || ContainsWord(lower, "cancelled")
    case Failed => ContainsWord(lower, "aborted")
    case Completed => ContainsWord(lower, "completed")
    case Unknown => false
  }

  lemma HyphenEndsWord(s: string, word: string, more: string)
    requires ContainsWord(s, word + "-" + more)
    ensures ContainsWord(s, word)
  {
    var whole := word + "-" + more;
    var i :| 0 <= i <= |s| && WordAt(s, whole, i);
    assert s[i..i + |whole|][..|word|] == s[i..i + |word|];
    assert whole[..|word|] == word;
    assert s[i + |word|] == whole[|word|];
    assert WordAt(s, word, i);
  }

  /** A keyword as the last word mentions its state. */
  lemma LastKeyMentions(line: string)
    ensures LastKey(line).Some? ==> Mentions(Strip(Lower(line)), LastKey(line).value)
  {
    var lower := Strip(Lower(line));
    var word := LastWord(lower);
    LastWordOfLine(line);
    LastWordIsWord(lower);
    KeyMentions(lower, word);
  }

  lemma KeyMentions(lower: string, word: string)
    requires word != "" ==> ContainsWord(lower, word)
    ensures IppState(word).Some? ==> Mentions(lower, IppState(word).value)
  {
    KeywordsOfState(word);
    if word == "pending-held" {
      assert word == "pending" + "-" + "held";
      HyphenEndsWord(lower, "pending", "held");
    } else if word == "processing-stopped" {
      assert word == "processing" + "-" + "stopped";
      HyphenEndsWord(lower, "processing", "stopped");
    }
  }

  lemma WordsMention(lower: string)
    ensures WordState(lower) != Unknown ==> Mentions(lower, WordState(lower))
    ensures WordState(lower) == Unknown ==> forall s :: Mentions(lower, s) ==> s.Printing? && StillActive(lower)
  {
  }

  lemma EmptyMentionsNothing(s: PrinterJobState)
    ensures !Mentions("", s)
  {
  }

  lemma StateIsMentioned(lower: string, key: Option<PrinterJobState>)
    requires key.Some? ==> key.value != Unknown && Mentions(lower, key.value)
    ensures QueueLineState(lower, key) != Unknown ==> Mentions(lower, QueueLineState(lower, key))
    ensures QueueLineState(lower, key) == Unknown ==> forall s :: !Mentions(lower, s)
  {
    WordsMention(lower);
  }

  lemma LastKeyIsMentioned(line: string)
    ensures LastKey(line).Some? ==> LastKey(line).value != Unknown && Mentions(Strip(Lower(line)), LastKey(line).value)
  {
    LastKeyMentions(line);
    KeywordsOfState(Lower(LastWord(StripRight(line))));
  }

  /** A queue line is only ever read as a state it mentions, as a whole word or as a phrase of a driver at work. */
  lemma LineStateIsMentioned(line: string)
    ensures ShortState(line) != Unknown ==> Mentions(Strip(Lower(line)), ShortState(line))
  {
    LastKeyIsMentioned(line);
    StateIsMentioned(Strip(Lower(line)), LastKey(line));
  }

  predicate MentionsSome(lower: string) {
    || Mentions(lower, PrinterJobState.Printing) || Mentions(lower, Pending)
    || Mentions(lower, PrinterJobState.Cancelled) || Mentions(lower, PrinterJobState.Failed)
    || Mentions(lower, PrinterJobState.Completed)
  }

  /** And it says something exactly if it mentions a state. */
  lemma LineSpeaksIfItMentions(line: string)
    ensures ShortState(line) != Unknown <==> MentionsSome(Strip(Lower(line)))
  {
    var lower := Strip(Lower(line));
    LineStateIsMentioned(line);
    LastKeyIsMentioned(line);
    StateIsMentioned(lower, LastKey(line));
    if lower == "" {
      forall s ensures !Mentions(lower, s) { EmptyMentionsNothing(s); }
    }
  }

  /** The phrases come before everything else, then a keyword at the end, then the words: at work before waiting,
      waiting before cancelled, cancelled before failed, failed before completed. */
  lemma EarlierMentionsWin(lower: string, key: Option<PrinterJobState>)
    ensures StillActive(lower) ==> QueueLineState(lower, key).Printing?
    ensures !StillActive(lower) && key.Some? ==> QueueLineState(lower, key) == key.value
    ensures !StillActive(lower) && key.None? ==>
              var state := QueueLineState(lower, key);
              && (state.Printing? <==> Mentions(lower, PrinterJobState.Printing))
              && (state.Completed? ==> forall s :: Mentions(lower, s) ==> s.Completed?)
              && (state.Failed? ==> forall s :: Mentions(lower, s) ==> s.Failed? || s.Completed?)
              && (state.Pending? ==> !Mentions(lower, PrinterJobState.Printing))
              && (state.Cancelled? ==> !Mentions(lower, PrinterJobState.Printing) && !Mentions(lower, Pending))
  {
  }

  lemma ShortLineIsNoPhrase(lower: string)
    requires |lower| < 14
    ensures !StillActive(lower)
  {
    assert |"rendering completed"| == 19 && |"spooling completed"| == 18 && |"data completed"| == 14;
  }
}
