/** Print settings as an `lp` command line (app/cups_options.py, and the title insertion of app/cups.py), and
    the way back. */
module LpOptions {
  import opened Wrappers
  import opened Text
  import PageRange

  datatype PrintSettings = PrintSettings(
    copies: int,
    pageRange: Option<string>,
    colorMode: string,
    paperSize: string,
    duplex: bool,
    pagesPerSheet: int,
    order: string,
    orientation: string,
    fitToPage: bool)

  /** `validate_print_settings` does not raise. */
  predicate ValidSettings(s: PrintSettings) {
    && 1 <= s.copies <= 99
    && 1 <= s.pagesPerSheet <= 16
    && (s.colorMode == "bw" || s.colorMode == "color")
    && (s.order == "normal" || s.order == "reverse")
    && (s.orientation == "auto" || s.orientation == "portrait" || s.orientation == "landscape")
    && PageRange.Validate(s.pageRange).Ok?
  }

  datatype OptionKey = Media | ColorMode | Sides | NumberUp | Orientation | FitToPage | OutputOrder | PageRanges

  function KeyText(k: OptionKey): string {
    match k
    case Media => "media"
    case ColorMode => "print-color-mode"
    case Sides => "sides"
    case NumberUp => "number-up"
    case Orientation => "orientation-requested"
    case FitToPage => "fit-to-page"
    case OutputOrder => "outputorder"
    case PageRanges => "page-ranges"
  }

  datatype OptionPair = OptionPair(key: OptionKey, value: string)

  function OptionText(o: OptionPair): string {
    KeyText(o.key) + "=" + o.value
  }

  function Field(key: OptionKey, present: bool, value: string): seq<OptionPair> {
    if present then [OptionPair(key, value)] else []
  }

  function NormalRange(s: PrintSettings): Option<string>
    requires ValidSettings(s)
  {
    PageRange.Validate(s.pageRange).value
  }

  function SheetPairs(s: PrintSettings): seq<OptionPair>
    requires ValidSettings(s)
  {
    Field(Media, s.paperSize != "", s.paperSize)
    + Field(ColorMode, true, if s.colorMode == "bw" then "monochrome" else "color")
    + Field(Sides, true, if s.duplex then "two-sided-long-edge" else "one-sided")
    + Field(NumberUp, s.pagesPerSheet > 1, PageRange.IntText(s.pagesPerSheet))
  }

  function PagePairs(s: PrintSettings): seq<OptionPair>
    requires ValidSettings(s)
  {
    Field(Orientation, s.orientation != "auto", if s.orientation == "portrait" then "3" else "4")
    + Field(FitToPage, true, if s.fitToPage then "true" else "false")
    + Field(OutputOrder, true, if s.order == "reverse" then "reverse" else "normal")
    + Field(PageRanges, NormalRange(s).Some?, if NormalRange(s).Some? then NormalRange(s).value else "")
  }

  /** The options in the order they are built. */
  function OptionPairs(s: PrintSettings): seq<OptionPair>
    requires ValidSettings(s)
  {
    SheetPairs(s) + PagePairs(s)
  }

  function OptionTexts(os: seq<OptionPair>): (texts: seq<string>)
    ensures |texts| == |os| && forall i :: 0 <= i < |os| ==> texts[i] == OptionText(os[i])
  {
    if os == [] then [] else [OptionText(os[0])] + OptionTexts(os[1..])
  }

  method SheetOptions(s: PrintSettings) returns (options: seq<OptionPair>)
    requires ValidSettings(s)
    ensures options == SheetPairs(s)
  {
    options := [];
    if s.paperSize != "" {
      options := options + [OptionPair(Media, s.paperSize)];
    }
    if s.colorMode == "bw" {
      options := options + [OptionPair(ColorMode, "monochrome")];
    } else if s.colorMode == "color" {
      options := options + [OptionPair(ColorMode, "color")];
    }
    if s.duplex {
      options := options + [OptionPair(Sides, "two-sided-long-edge")];
    } else {
      options := options + [OptionPair(Sides, "one-sided")];
    }
    if s.pagesPerSheet > 1 {
      options := options + [OptionPair(NumberUp, PageRange.IntText(s.pagesPerSheet))];
    }
  }

  method PageOptions(s: PrintSettings) returns (options: seq<OptionPair>)
    requires ValidSettings(s)
    ensures options == PagePairs(s)
  {
    options := [];
    if s.orientation == "portrait" {
      options := options + [OptionPair(Orientation, "3")];
    } else if s.orientation == "landscape" {
      options := options + [OptionPair(Orientation, "4")];
    }
    assert options == Field(Orientation, s.orientation != "auto", if s.orientation == "portrait" then "3" else "4");
    var order := if s.order == "reverse" then "reverse" else "normal";
    options := options + [OptionPair(FitToPage, if s.fitToPage then "true" else "false")];
    options := options + [OptionPair(OutputOrder, order)];
    options := AppendRange(options, PageRange.Validate(s.pageRange).value);
  }

  method AppendRange(start: seq<OptionPair>, range: Option<string>) returns (options: seq<OptionPair>)
    ensures options == start + Field(PageRanges, range.Some?, if range.Some? then range.value else "")
  {
    options := start;
    if range.Some? {
      options := options + [OptionPair(PageRanges, range.value)];
    }
  }

  /** `build_lp_options`; None stands for the ValueError. */
  method BuildLpOptions(s: PrintSettings) returns (r: Option<seq<string>>)
    ensures r.Some? <==> ValidSettings(s)
    ensures r.Some? ==> r.value == OptionTexts(OptionPairs(s))
  {
    if !ValidSettings(s) {
      return None;
    }
    var sheet := SheetOptions(s);
    var page := PageOptions(s);
    return Some(OptionTexts(sheet + page));
  }

  function Flags(texts: seq<string>): seq<string> {
    if texts == [] then [] else ["-o", texts[0]] + Flags(texts[1..])
  }

  function CopiesFlag(s: PrintSettings): seq<string>
    requires ValidSettings(s)
  {
    if s.copies > 1 then ["-n", PageRange.IntText(s.copies)] else []
  }

  /** What follows the queue name. */
  function ArgvTail(path: string, s: PrintSettings): seq<string>
    requires ValidSettings(s)
  {
    CopiesFlag(s) + Flags(OptionTexts(OptionPairs(s))) + [path]
  }

  lemma {:induction false} FlagsAppend(texts: seq<string>, text: string)
    ensures Flags(texts + [text]) == Flags(texts) + ["-o", text]
  {
    if texts == [] {
      assert (texts + [text])[1..] == [];
    } else {
      assert (texts + [text])[1..] == texts[1..] + [text];
      FlagsAppend(texts[1..], text);
    }
  }

  method AppendFlags(start: seq<string>, options: seq<string>) returns (argv: seq<string>)
    ensures argv == start + Flags(options)
  {
    argv := start;
    for i := 0 to |options|
      invariant argv == start + Flags(options[..i])
    {
      assert options[..i + 1] == options[..i] + [options[i]];
      FlagsAppend(options[..i], options[i]);
      argv := argv + ["-o", options[i]];
    }
    assert options[..|options|] == options;
  }

  /** `build_lp_argv` */
  method BuildLpArgv(printer: string, path: string, s: PrintSettings) returns (r: Option<seq<string>>)
    ensures r.Some? <==> ValidSettings(s)
    ensures r.Some? ==> r.value == ["lp", "-d", printer] + ArgvTail(path, s)
  {
    var argv := ["lp", "-d", printer];
    if s.copies > 1 {
      argv := argv + ["-n", PageRange.IntText(s.copies)];
    }
    var options := BuildLpOptions(s);
    if options.None? {
      return None;
    }
    argv := AppendFlags(argv, options.value);
    argv := argv + [path];
    ArgvParts(["lp", "-d", printer], path, s);
    return Some(argv);
  }

  lemma ArgvParts(start: seq<string>, path: string, s: PrintSettings)
    requires ValidSettings(s)
    ensures start + CopiesFlag(s) + Flags(OptionTexts(OptionPairs(s))) + [path] == start + ArgvTail(path, s)
    ensures start + [] == start
  {
  }

  /** What is valid, field by field: 1 to 99 copies, 1 to 16 pages a sheet, two colour modes, two orders, three
      orientations, any paper, duplex and fit, and any page range the validation accepts. */
  lemma SettingsFieldByField(s: PrintSettings, n: int, text: string, b: bool, range: Option<string>)
    requires ValidSettings(s)
    ensures ValidSettings(s.(copies := n)) <==> 0 < n < 100
    ensures ValidSettings(s.(pagesPerSheet := n)) <==> 0 < n < 17
    ensures ValidSettings(s.(colorMode := text)) <==> text in {"bw", "color"}
    ensures ValidSettings(s.(order := text)) <==> text in {"normal", "reverse"}
    ensures ValidSettings(s.(orientation := text)) <==> text in {"auto", "portrait", "landscape"}
    ensures ValidSettings(s.(paperSize := text)) && ValidSettings(s.(duplex := b)) && ValidSettings(s.(fitToPage := b))
    ensures ValidSettings(s.(pageRange := range)) <==> PageRange.Validate(range).Ok?
  {
  }

  /** The defaults are valid, so there is something to vary. */
  lemma DefaultSettingsAreValid()
    ensures ValidSettings(PrintSettings(1, None, "bw", "", false, 1, "normal", "auto", true))
  {
  }

  /** What the insertion loop makes of a command line: a title after every queue name. */
  function Titled(cmd: seq<string>, title: string): seq<string> {
    if cmd == [] then []
    else if cmd[0] == "-d" && |cmd| > 1 then ["-d", cmd[1], "-t", title] + Titled(cmd[2..], title)
    else [cmd[0]] + Titled(cmd[1..], title)
  }

  lemma TitledQueue(cmd: seq<string>, i: nat, title: string)
    requires i + 1 < |cmd| && cmd[i] == "-d"
    ensures Titled(cmd[i..], title) == ["-d", cmd[i + 1], "-t", title] + Titled(cmd[i + 2..], title)
  {
    assert cmd[i..][2..] == cmd[i + 2..];
  }

  lemma TitledOther(cmd: seq<string>, i: nat, title: string)
    requires i < |cmd| && !(cmd[i] == "-d" && i + 1 < |cmd|)
    ensures Titled(cmd[i..], title) == [cmd[i]] + Titled(cmd[i + 1..], title)
  {
    assert cmd[i..][1..] == cmd[i + 1..];
  }

  lemma Regroup(done: seq<string>, part: seq<string>, rest: seq<string>)
    ensures done + (part + rest) == (done + part) + rest
  {
  }

  /** The insertion loop of `submit`. */
  method InsertAfterQueue(cmd: seq<string>, title: string) returns (titled: seq<string>)
    ensures titled == Titled(cmd, title)
  {
    titled := [];
    var i := 0;
    while i < |cmd|
      invariant 0 <= i <= |cmd|
      invariant titled + Titled(cmd[i..], title) == Titled(cmd, title)
    {
      if cmd[i] == "-d" && i + 1 < |cmd| {
        TitledQueue(cmd, i, title);
        Regroup(titled, ["-d", cmd[i + 1], "-t", title], Titled(cmd[i + 2..], title));
        titled := titled + ["-d", cmd[i + 1], "-t", title];
        i := i + 2;
      } else {
        TitledOther(cmd, i, title);
        Regroup(titled, [cmd[i]], Titled(cmd[i + 1..], title));
        titled := titled + [cmd[i]];
        i := i + 1;
      }
    }
  }

  /** The same with the fallback for a command without a queue name. */
  method InsertTitle(cmd: seq<string>, title: string) returns (titled: seq<string>)
    requires cmd != []
    ensures titled == if "-t" in Titled(cmd, title) then Titled(cmd, title) else [cmd[0], "-t", title] + cmd[1..]
  {
    titled := InsertAfterQueue(cmd, title);
    if "-t" !in titled {
      titled := [cmd[0], "-t", title] + cmd[1..];
    }
  }

  lemma {:induction false} NoQueueNoTitle(rest: seq<string>, title: string)
    requires forall i :: 0 <= i < |rest| - 1 ==> rest[i] != "-d"
    ensures Titled(rest, title) == rest
  {
    if rest != [] {
      NoQueueNoTitle(rest[1..], title);
    }
  }

  lemma OptionTextIsNoFlag(o: OptionPair)
    ensures OptionText(o) != "-d"
  {
    assert OptionText(o)[|KeyText(o.key)|] == '=';
  }

  lemma {:induction false} FlagsHoldNoQueue(os: seq<OptionPair>)
    ensures forall i :: 0 <= i < |Flags(OptionTexts(os))| ==> Flags(OptionTexts(os))[i] != "-d"
  {
    if os != [] {
      OptionTextIsNoFlag(os[0]);
      assert OptionTexts(os)[1..] == OptionTexts(os[1..]);
      FlagsHoldNoQueue(os[1..]);
      var tail := Flags(OptionTexts(os[1..]));
      assert Flags(OptionTexts(os)) == ["-o", OptionText(os[0])] + tail;
      assert "-o"[1] != "-d"[1];
    }
  }

  lemma TailHoldsNoQueue(path: string, s: PrintSettings)
    requires ValidSettings(s)
    ensures forall i :: 0 <= i < |ArgvTail(path, s)| - 1 ==> ArgvTail(path, s)[i] != "-d"
  {
    FlagsHoldNoQueue(OptionPairs(s));
    assert "-n"[1] != "-d"[1];
    if s.copies > 1 {
      assert IsDigit(PageRange.IntText(s.copies)[0]);
    }
  }

  lemma TitledHead(printer: string, tail: seq<string>, title: string)
    ensures Titled(["lp", "-d", printer] + tail, title) == ["lp", "-d", printer, "-t", title] + Titled(tail, title)
  {
    var cmd := ["lp", "-d", printer] + tail;
    assert "lp"[0] != "-d"[0];
    assert cmd[1..] == ["-d", printer] + tail;
    assert cmd[1..][2..] == tail;
    assert Titled(cmd[1..], title) == ["-d", printer, "-t", title] + Titled(tail, title);
  }

  /** The title goes in once, right after the queue name, whatever the settings, queue and file are called,
      and the rest of the command stays, with the file last. */
  lemma TitleGoesAfterQueue(printer: string, path: string, s: PrintSettings, title: string)
    requires ValidSettings(s)
    ensures var titled := Titled(["lp", "-d", printer] + ArgvTail(path, s), title);
            titled == ["lp", "-d", printer, "-t", title] + ArgvTail(path, s) && "-t" in titled
  {
    TailHoldsNoQueue(path, s);
    NoQueueNoTitle(ArgvTail(path, s), title);
    TitledHead(printer, ArgvTail(path, s), title);
    assert (["lp", "-d", printer, "-t", title] + ArgvTail(path, s))[3] == "-t";
  }

  function KeyOf(text: string): Option<OptionKey> {
    if text == "media" then Some(Media)
    else if text == "print-color-mode" then Some(ColorMode)
    else if text == "sides" then Some(Sides)
    else if text == "number-up" then Some(NumberUp)
    else if text == "orientation-requested" then Some(Orientation)
    else if text == "fit-to-page" then Some(FitToPage)
    else if text == "outputorder" then Some(OutputOrder)
    else if text == "page-ranges" then Some(PageRanges)
    else None
  }

  lemma KeyReadsBack(k: OptionKey)
    ensures KeyOf(KeyText(k)) == Some(k) && '=' !in KeyText(k)
  {
    assert "sides"[0] != "media"[0];
    assert "outputorder"[0] != "fit-to-page"[0] && "page-ranges"[0] != "fit-to-page"[0];
    assert "page-ranges"[0] != "outputorder"[0];
  }

  function ParseOption(text: string): Option<OptionPair> {
    var key := PageRange.UpTo(text, '=');
    if |key| == |text| || KeyOf(key).None? then None
    else Some(OptionPair(KeyOf(key).value, text[|key| + 1..]))
  }

  lemma OptionReadsBack(o: OptionPair)
    ensures ParseOption(OptionText(o)) == Some(o)
  {
    KeyReadsBack(o.key);
    UpToStops(KeyText(o.key), o.value);
    assert OptionText(o)[|KeyText(o.key)| + 1..] == o.value;
  }

  lemma {:induction false} UpToStops(key: string, value: string)
    requires '=' !in key
    ensures PageRange.UpTo(key + "=" + value, '=') == key
  {
    var text := key + "=" + value;
    if key == "" {
      assert text[0] == '=';
    } else {
      assert text[0] == key[0] && text[1..] == key[1..] + "=" + value;
      UpToStops(key[1..], value);
    }
  }

  datatype Tail = Tail(options: seq<OptionPair>, path: string)

  function DecodeFlags(rest: seq<string>): Option<Tail> {
    if |rest| == 1 then Some(Tail([], rest[0]))
    else if |rest| < 3 || rest[0] != "-o" || ParseOption(rest[1]).None? then None
    else match DecodeFlags(rest[2..])
         case None => None
         case Some(tail) => Some(Tail([ParseOption(rest[1]).value] + tail.options, tail.path))
  }

  datatype LpCall = LpCall(printer: string, title: string, copies: nat, options: seq<OptionPair>, path: string)

  function DecodeCopies(rest: seq<string>): Option<nat> {
    if |rest| > 2 && rest[0] == "-n" then (if PageRange.IsNumber(rest[1]) then Some(PageRange.Value(rest[1])) else None)
    else Some(1)
  }

  function DecodeTail(rest: seq<string>): Option<Tail> {
    DecodeFlags(if |rest| > 2 && rest[0] == "-n" then rest[2..] else rest)
  }

  /** A reader of `lp` command lines of the form the agent writes. */
  function Decode(argv: seq<string>): Option<LpCall> {
    if |argv| < 5 || argv[0] != "lp" || argv[1] != "-d" || argv[3] != "-t" then None
    else
      match (DecodeCopies(argv[5..]), DecodeTail(argv[5..]))
      case (Some(copies), Some(tail)) => Some(LpCall(argv[2], argv[4], copies, tail.options, tail.path))
      case _ => None
  }

  lemma FlagReadsBack(o: OptionPair, more: seq<string>)
    requires |more| > 0
    ensures var rest := ["-o", OptionText(o)] + more;
            match DecodeFlags(more)
            case None => true
            case Some(tail) => DecodeFlags(rest) == Some(Tail([o] + tail.options, tail.path))
  {
    OptionReadsBack(o);
    var rest := ["-o", OptionText(o)] + more;
    assert rest[2..] == more;
  }

  lemma {:induction false} FlagsReadBack(os: seq<OptionPair>, path: string)
    ensures DecodeFlags(Flags(OptionTexts(os)) + [path]) == Some(Tail(os, path))
  {
    if os == [] {
      assert Flags(OptionTexts(os)) + [path] == [path];
    } else {
      FlagsReadBack(os[1..], path);
      assert OptionTexts(os)[1..] == OptionTexts(os[1..]);
      var more := Flags(OptionTexts(os[1..])) + [path];
      assert Flags(OptionTexts(os)) + [path] == ["-o", OptionText(os[0])] + more;
      FlagReadsBack(os[0], more);
      assert [os[0]] + os[1..] == os;
    }
  }

  function Lookup(os: seq<OptionPair>, key: OptionKey): Option<string> {
    if os == [] then None
    else if os[0].key == key then Some(os[0].value)
    else Lookup(os[1..], key)
  }

  /** The settings a command line stands for. */
  function SettingsOf(call: LpCall): PrintSettings {
    var numberUp := Lookup(call.options, NumberUp);
    var orientation := Lookup(call.options, Orientation);
    PrintSettings(
      call.copies,
      Lookup(call.options, PageRanges),
      if Lookup(call.options, ColorMode) == Some("monochrome") then "bw" else "color",
      if Lookup(call.options, Media).Some? then Lookup(call.options, Media).value else "",
      Lookup(call.options, Sides) == Some("two-sided-long-edge"),
      if numberUp.Some? && PageRange.IsNumber(numberUp.value) then PageRange.Value(numberUp.value) else 1,
      if Lookup(call.options, OutputOrder) == Some("reverse") then "reverse" else "normal",
      if orientation == Some("3") then "portrait" else if orientation == Some("4") then "landscape" else "auto",
      Lookup(call.options, FitToPage) == Some("true"))
  }

  /** Flags and file, without a number of copies in front. */
  predicate ReadsAs(flags: seq<string>, tail: Tail) {
    |flags| > 2 && flags[0] != "-n" && DecodeFlags(flags) == Some(tail)
  }

  lemma CopiesReadBack(n: nat, flags: seq<string>, tail: Tail)
    requires ReadsAs(flags, tail)
    ensures var rest := ["-n", PageRange.IntText(n)] + flags;
            DecodeCopies(rest) == Some(n) && DecodeTail(rest) == Some(tail)
  {
    var rest := ["-n", PageRange.IntText(n)] + flags;
    PageRange.IntTextReadsBack(n);
    assert rest[2..] == flags;
  }

  lemma NoCopiesReadBack(flags: seq<string>, tail: Tail)
    requires ReadsAs(flags, tail)
    ensures var rest := [] + flags;
            DecodeCopies(rest) == Some(1) && DecodeTail(rest) == Some(tail)
  {
    assert [] + flags == flags;
  }

  lemma AnyCopiesReadBack(copies: nat, flag: seq<string>, flags: seq<string>, tail: Tail)
    requires 1 <= copies && flag == if copies > 1 then ["-n", PageRange.IntText(copies)] else []
    requires ReadsAs(flags, tail)
    ensures DecodeCopies(flag + flags) == Some(copies) && DecodeTail(flag + flags) == Some(tail)
  {
    if copies > 1 { CopiesReadBack(copies, flags, tail); } else { NoCopiesReadBack(flags, tail); }
  }

  lemma TailParts(path: string, s: PrintSettings)
    requires ValidSettings(s)
    ensures ArgvTail(path, s) == CopiesFlag(s) + (Flags(OptionTexts(OptionPairs(s))) + [path])
  {
  }

  lemma FlagsReadAs(path: string, s: PrintSettings)
    requires ValidSettings(s)
    ensures ReadsAs(Flags(OptionTexts(OptionPairs(s))) + [path], Tail(OptionPairs(s), path))
  {
    FlagsReadBack(OptionPairs(s), path);
    FlagsStartWithOption(s, path);
  }

  lemma TailReadsBack(path: string, s: PrintSettings)
    requires ValidSettings(s)
    ensures DecodeCopies(ArgvTail(path, s)) == Some(s.copies)
    ensures DecodeTail(ArgvTail(path, s)) == Some(Tail(OptionPairs(s), path))
  {
    TailParts(path, s);
    FlagsReadAs(path, s);
    AnyCopiesReadBack(s.copies, CopiesFlag(s), Flags(OptionTexts(OptionPairs(s))) + [path], Tail(OptionPairs(s), path));
  }

  /** Reading back the titled command line gives its parts: queue, title, copies, options and file. */
  lemma CommandReadsBack(printer: string, path: string, s: PrintSettings, title: string)
    requires ValidSettings(s)
    ensures Decode(Titled(["lp", "-d", printer] + ArgvTail(path, s), title)) ==
            Some(LpCall(printer, title, s.copies, OptionPairs(s), path))
  {
    TitleGoesAfterQueue(printer, path, s, title);
    TailReadsBack(path, s);
    assert (["lp", "-d", printer, "-t", title] + ArgvTail(path, s))[5..] == ArgvTail(path, s);
  }

  lemma FlagsStartWithOption(s: PrintSettings, path: string)
    requires ValidSettings(s)
    ensures var flags := Flags(OptionTexts(OptionPairs(s))) + [path];
            |flags| > 2 && flags[0] == "-o" && flags[0] != "-n"
  {
    assert OptionPair(FitToPage, if s.fitToPage then "true" else "false") in PagePairs(s);
    assert OptionPairs(s) != [];
    assert "-o"[1] != "-n"[1];
  }

  lemma {:induction false} LookupUnique(os: seq<OptionPair>, key: OptionKey, value: string)
    requires OptionPair(key, value) in os
    requires forall o <- os :: o.key == key ==> o.value == value
    ensures Lookup(os, key) == Some(value)
  {
    if os[0].key != key {
      assert os == [os[0]] + os[1..];
      LookupUnique(os[1..], key, value);
    }
  }

  lemma {:induction false} LookupAbsent(os: seq<OptionPair>, key: OptionKey)
    requires forall o <- os :: o.key != key
    ensures Lookup(os, key) == None
  {
    if os != [] {
      LookupAbsent(os[1..], key);
    }
  }

  /** What each option is looked up to. */
  function Expected(s: PrintSettings, key: OptionKey): Option<string>
    requires ValidSettings(s)
  {
    match key
    case Media => if s.paperSize != "" then Some(s.paperSize) else None
    case ColorMode => Some(if s.colorMode == "bw" then "monochrome" else "color")
    case Sides => Some(if s.duplex then "two-sided-long-edge" else "one-sided")
    case NumberUp => if s.pagesPerSheet > 1 then Some(PageRange.IntText(s.pagesPerSheet)) else None
    case Orientation => if s.orientation == "auto" then None else Some(if s.orientation == "portrait" then "3" else "4")
    case FitToPage => Some(if s.fitToPage then "true" else "false")
    case OutputOrder => Some(if s.order == "reverse" then "reverse" else "normal")
    case PageRanges => NormalRange(s)
  }

  lemma SheetPairsAreExpected(s: PrintSettings, o: OptionPair)
    requires ValidSettings(s)
    ensures o in SheetPairs(s) <==>
              && (o.key.Media? || o.key.ColorMode? || o.key.Sides? || o.key.NumberUp?)
              && Expected(s, o.key) == Some(o.value)
  {
  }

  lemma PagePairsAreExpected(s: PrintSettings, o: OptionPair)
    requires ValidSettings(s)
    ensures o in PagePairs(s) <==>
              && (o.key.Orientation? || o.key.FitToPage? || o.key.OutputOrder? || o.key.PageRanges?)
              && Expected(s, o.key) == Some(o.value)
  {
  }

  lemma PairsAreExpected(s: PrintSettings, o: OptionPair)
    requires ValidSettings(s)
    ensures o in OptionPairs(s) <==> Expected(s, o.key) == Some(o.value)
  {
    SheetPairsAreExpected(s, o);
    PagePairsAreExpected(s, o);
    assert o in OptionPairs(s) <==> o in SheetPairs(s) || o in PagePairs(s);
  }

  lemma LookupIsExpected(s: PrintSettings, key: OptionKey)
    requires ValidSettings(s)
    ensures Lookup(OptionPairs(s), key) == Expected(s, key)
  {
    forall o: OptionPair
      ensures o in OptionPairs(s) <==> Expected(s, o.key) == Some(o.value)
    {
      PairsAreExpected(s, o);
    }
    match Expected(s, key)
    case None => LookupAbsent(OptionPairs(s), key);
    case Some(value) =>
      assert OptionPair(key, value) in OptionPairs(s);
      LookupUnique(OptionPairs(s), key, value);
  }

  lemma LiteralsDiffer()
    ensures "monochrome" != "color" && "two-sided-long-edge" != "one-sided" && "reverse" != "normal"
    ensures "3" != "4" && "true" != "false"
  {
    assert "reverse"[0] != "normal"[0] && "3"[0] != "4"[0];
  }

  lemma SheetFieldsStand(call: LpCall, s: PrintSettings)
    requires ValidSettings(s)
    requires forall key :: Lookup(call.options, key) == Expected(s, key)
    ensures var r := SettingsOf(call);
            && r.colorMode == s.colorMode && r.paperSize == s.paperSize && r.duplex == s.duplex
            && r.pagesPerSheet == s.pagesPerSheet
  {
    LiteralsDiffer();
    if s.pagesPerSheet > 1 {
      PageRange.IntTextReadsBack(s.pagesPerSheet);
    }
  }

  lemma PageFieldsStand(call: LpCall, s: PrintSettings)
    requires ValidSettings(s)
    requires forall key :: Lookup(call.options, key) == Expected(s, key)
    ensures var r := SettingsOf(call);
            && r.pageRange == NormalRange(s) && r.order == s.order && r.orientation == s.orientation
            && r.fitToPage == s.fitToPage
  {
    LiteralsDiffer();
  }

  /** The `lp` command line loses nothing: for every valid settings, reading it back gives the settings with
      the page range in its normal form. */
  lemma SettingsReadBack(printer: string, path: string, s: PrintSettings, title: string)
    requires ValidSettings(s)
    ensures var call := Decode(Titled(["lp", "-d", printer] + ArgvTail(path, s), title));
            call.Some? && SettingsOf(call.value) == s.(pageRange := NormalRange(s))
            && call.value.printer == printer && call.value.title == title && call.value.path == path
  {
    CommandReadsBack(printer, path, s, title);
    forall key
      ensures Lookup(OptionPairs(s), key) == Expected(s, key)
    {
      LookupIsExpected(s, key);
    }
    var call := LpCall(printer, title, s.copies, OptionPairs(s), path);
    SheetFieldsStand(call, s);
    PageFieldsStand(call, s);
  }
}
