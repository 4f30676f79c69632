/** Page-range texts (app/page_range.py); compare page-ranges in section 5.2.7 of RFC 8011, which also asks
    for ascending, disjoint ranges. */
module PageRange {
  import opened Wrappers
  import opened Text

  /** Where the regular expression stands inside one comma-separated piece. */
  datatype Scan = NeedPage | InPage | NeedEnd | InEnd

  /** `[0-9]+(-[0-9]+)?(,[0-9]+(-[0-9]+)?)*` from a position on. */
  predicate Accepts(s: string, at: Scan) {
    if s == "" then at.InPage? || at.InEnd?
    else if IsDigit(s[0]) then Accepts(s[1..], if at.NeedPage? || at.InPage? then InPage else InEnd)
    else if s[0] == '-' then at.InPage? && Accepts(s[1..], NeedEnd)
    else if s[0] == ',' then (at.InPage? || at.InEnd?) && Accepts(s[1..], NeedPage)
    else false
  }

  predicate AllDigits(s: string) {
    forall i :: 0 <= i < |s| ==> IsDigit(s[i])
  }

  predicate IsNumber(s: string) {
    s != "" && AllDigits(s)
  }

  function Value(s: string): nat
    requires AllDigits(s)
  {
    if s == "" then 0
    else
      Value(s[..|s| - 1]) * 10 + (s[|s| - 1] - '0') as nat
  }

  function UpTo(s: string, c: char): (r: string)
    ensures c !in r && |r| <= |s| && r == s[..|r|]
    ensures c in s ==> |r| < |s| && s[|r|] == c
  {
    if s == "" || s[0] == c then "" else [s[0]] + UpTo(s[1..], c)
  }

  datatype Segment = Page(page: string) | Range(first: string, last: string)

  function ParseSegment(piece: string): Segment {
    if '-' in piece then Range(UpTo(piece, '-'), piece[|UpTo(piece, '-')| + 1..]) else Page(piece)
  }

  predicate Numeric(seg: Segment) {
    match seg
    case Page(p) => IsNumber(p)
    case Range(a, b) => IsNumber(a) && IsNumber(b)
  }

  /** Python's `int` refuses longer texts, with the ValueError that also stands for a bad range. */
  const MAX_DIGITS := 4300

  /** Decimal pages from 1 on, and ranges that do not run backwards. */
  predicate InOrder(seg: Segment) {
    Numeric(seg) &&
    match seg
    case Page(p) => |p| <= MAX_DIGITS && 1 <= Value(p)
    case Range(a, b) => |a| <= MAX_DIGITS && |b| <= MAX_DIGITS && 1 <= Value(a) <= Value(b)
  }

  function Render(seg: Segment): string {
    match seg
    case Page(p) => p
    case Range(a, b) => a + "-" + b
  }

  function ParseAll(pieces: seq<string>): (segs: seq<Segment>)
    ensures |segs| == |pieces| && forall i :: 0 <= i < |segs| ==> segs[i] == ParseSegment(pieces[i])
  {
    if pieces == [] then [] else [ParseSegment(pieces[0])] + ParseAll(pieces[1..])
  }

  function RenderAll(segs: seq<Segment>): (pieces: seq<string>)
    ensures |pieces| == |segs| && forall i :: 0 <= i < |pieces| ==> pieces[i] == Render(segs[i])
  {
    if segs == [] then [] else [Render(segs[0])] + RenderAll(segs[1..])
  }

  function RangeText(segs: seq<Segment>): string {
    Join(RenderAll(segs), ',')
  }

  function Segments(s: string): seq<Segment> {
    ParseAll(Split(s, ','))
  }

  /** A regular-expression match is a match of every piece. */
  lemma {:induction false} AcceptsPieces(s: string, at: Scan)
    ensures var pieces := Split(s, ',');
            Accepts(s, at) <==> Accepts(pieces[0], at) && forall i :: 1 <= i < |pieces| ==> Accepts(pieces[i], NeedPage)
  {
    if s == "" {
    } else {
      var rest := Split(s[1..], ',');
      if s[0] == ',' {
        AcceptsPieces(s[1..], NeedPage);
        var pieces := [""] + rest;
        assert Split(s, ',') == pieces;
        assert forall i :: 0 <= i < |rest| ==> rest[i] == pieces[i + 1];
      } else {
        var next := if IsDigit(s[0]) then (if at.NeedPage? || at.InPage? then InPage else InEnd) else NeedEnd;
        AcceptsPieces(s[1..], next);
        var first := [s[0]] + rest[0];
        assert first[0] == s[0] && first[1..] == rest[0];
        assert forall i :: 1 <= i < |rest| ==> ([first] + rest[1..])[i] == rest[i];
      }
    }
  }

  /** Digits leave the scan inside its number. */
  lemma {:induction false} DigitsScan(d: string, rest: string, at: Scan)
    requires IsNumber(d)
    ensures Accepts(d + rest, at) == Accepts(rest, if at.NeedPage? || at.InPage? then InPage else InEnd)
  {
    assert IsDigit(d[0]) && (d + rest)[0] == d[0] && (d + rest)[1..] == d[1..] + rest;
    if |d| == 1 {
      assert d[1..] + rest == rest;
    } else {
      DigitsScan(d[1..], rest, if at.NeedPage? || at.InPage? then InPage else InEnd);
    }
  }

  lemma {:induction false} OnlyDigitsLeft(s: string, at: Scan)
    requires ',' !in s && '-' !in s
    ensures (at.InPage? || at.InEnd?) ==> (Accepts(s, at) <==> AllDigits(s))
    ensures (at.NeedPage? || at.NeedEnd?) ==> (Accepts(s, at) <==> IsNumber(s))
  {
    if s != "" {
      assert s[0] in s;
      OnlyDigitsLeft(s[1..], if at.NeedPage? || at.InPage? then InPage else InEnd);
      assert AllDigits(s) <==> IsDigit(s[0]) && AllDigits(s[1..]);
    }
  }

  lemma {:induction false} NoSecondDash(s: string, at: Scan)
    requires (at.NeedEnd? || at.InEnd?) && ',' !in s && Accepts(s, at)
    ensures '-' !in s
  {
    if s != "" {
      assert s[0] in s;
      NoSecondDash(s[1..], InEnd);
    }
  }

  lemma {:induction false} PrefixIsNumber(p: string, rest: string, at: Scan)
    requires '-' !in p && ',' !in p && (at.NeedPage? || at.InPage?) && Accepts(p + "-" + rest, at)
    ensures at.NeedPage? ==> IsNumber(p)
    ensures AllDigits(p)
    ensures Accepts(rest, NeedEnd)
  {
    var s := p + "-" + rest;
    if p == "" {
      assert s[0] == '-' && s[1..] == rest;
    } else {
      assert s[0] == p[0] && p[0] in p && s[1..] == p[1..] + "-" + rest;
      PrefixIsNumber(p[1..], rest, InPage);
      assert p == [p[0]] + p[1..];
    }
  }

  lemma DashedPiece(a: string, b: string)
    requires '-' !in a && ',' !in a && ',' !in b
    ensures Accepts(a + "-" + b, NeedPage) <==> IsNumber(a) && IsNumber(b)
  {
    if Accepts(a + "-" + b, NeedPage) {
      PrefixIsNumber(a, b, NeedPage);
      NoSecondDash(b, NeedEnd);
      OnlyDigitsLeft(b, NeedEnd);
    }
    if IsNumber(a) && IsNumber(b) {
      DigitsScan(a, "-" + b, NeedPage);
      assert a + ("-" + b) == a + "-" + b && ("-" + b)[1..] == b;
      DigitsScan(b, "", NeedEnd);
      assert b + "" == b;
    }
  }

  /** One piece matches exactly when it is a number or two numbers with a dash between. */
  lemma PieceIsSegment(piece: string)
    requires ',' !in piece
    ensures Accepts(piece, NeedPage) <==> Numeric(ParseSegment(piece))
    ensures Render(ParseSegment(piece)) == piece
  {
    if '-' in piece {
      var a := UpTo(piece, '-');
      var b := piece[|a| + 1..];
      assert piece == a + "-" + b;
      DashedPiece(a, b);
    } else {
      OnlyDigitsLeft(piece, NeedPage);
    }
  }

  lemma RenderedParsesBack(seg: Segment)
    requires Numeric(seg)
    ensures ParseSegment(Render(seg)) == seg
    ensures ',' !in Render(seg)
  {
    match seg
    case Page(p) =>
      assert forall c <- p :: IsDigit(c);
    case Range(a, b) =>
      var piece := a + "-" + b;
      var up := UpTo(piece, '-');
      assert forall c <- a :: IsDigit(c);
      assert piece[|a|] == '-';
      assert forall i :: 0 <= i < |a| ==> piece[i] == a[i] && a[i] in a;
      assert up == a;
      assert piece[|a| + 1..] == b;
  }

  /** Rendering any list of numeric segments parses back to it. */
  lemma SegmentsOfText(segs: seq<Segment>)
    requires segs != [] && forall seg <- segs :: Numeric(seg)
    ensures Segments(RangeText(segs)) == segs
  {
    var pieces := RenderAll(segs);
    forall i | 0 <= i < |segs|
      ensures ParseSegment(pieces[i]) == segs[i] && ',' !in pieces[i]
    {
      assert segs[i] in segs;
      RenderedParsesBack(segs[i]);
    }
    SplitJoin(pieces, ',');
  }

  /** And the text of the segments of any text is that text. */
  lemma TextOfSegments(s: string)
    ensures RangeText(Segments(s)) == s
  {
    var pieces := Split(s, ',');
    JoinSplit(s, ',');
    PiecesHoldNone(s, ',');
    forall i | 0 <= i < |pieces|
      ensures Render(ParseSegment(pieces[i])) == pieces[i]
    {
      assert pieces[i] in pieces;
      PieceIsSegment(pieces[i]);
    }
    assert RenderAll(Segments(s)) == pieces;
  }

  datatype InvalidRange = InvalidRange

  /** `validate_page_range`; Ok(None) is "all pages". */
  function Validate(value: Option<string>): Result<Option<string>, InvalidRange> {
    match value
    case None => Ok(None)
    case Some(v) =>
      var s := Strip(v);
      if s == "" || Lower(s) == "all" then Ok(None)
      else if Accepts(s, NeedPage) && (forall seg <- Segments(s) :: InOrder(seg)) then Ok(Some(s))
      else Err(InvalidRange)
  }

  lemma AcceptedIsNumeric(s: string)
    ensures Accepts(s, NeedPage) <==> forall seg <- Segments(s) :: Numeric(seg)
  {
    var pieces := Split(s, ',');
    JoinSplit(s, ',');
    PiecesHoldNone(s, ',');
    AcceptsPieces(s, NeedPage);
    forall i | 0 <= i < |pieces|
      ensures Accepts(pieces[i], NeedPage) <==> Numeric(Segments(s)[i])
    {
      assert pieces[i] in pieces;
      PieceIsSegment(pieces[i]);
    }
    if forall seg <- Segments(s) :: Numeric(seg) {
      forall i | 0 <= i < |pieces| ensures Accepts(pieces[i], NeedPage) {
        assert Segments(s)[i] in Segments(s);
      }
    }
  }

  /** A range is accepted exactly when, once stripped, it is the comma-joined text of some non-empty list of
      pages and ranges in order; the result is that text. */
  lemma ValidExactlyRangeTexts(v: string)
    requires Strip(v) != "" && Lower(Strip(v)) != "all"
    ensures Validate(Some(v)) == Ok(Some(Strip(v))) || Validate(Some(v)) == Err(InvalidRange)
    ensures Validate(Some(v)).Ok? <==>
              exists segs :: segs != [] && (forall seg <- segs :: InOrder(seg)) && RangeText(segs) == Strip(v)
  {
    var s := Strip(v);
    AcceptedIsNumeric(s);
    if Validate(Some(v)).Ok? {
      TextOfSegments(s);
      assert RangeText(Segments(s)) == s && Segments(s) != [];
    }
    if segs :| segs != [] && (forall seg <- segs :: InOrder(seg)) && RangeText(segs) == s {
      SegmentsOfText(segs);
    }
  }

  lemma {:induction false} LowerStartsLikeText(s: string)
    requires s != "" && IsDigit(s[0])
    ensures Lower(s) != "all"
  {
    assert Lower(s)[0] == LowerChar(s[0]);
  }

  /** Every list of pages and ranges in order is accepted as it is written, and validating a result again
      changes nothing. */
  lemma RangeTextsAreValid(segs: seq<Segment>)
    requires segs != [] && forall seg <- segs :: InOrder(seg)
    ensures Validate(Some(RangeText(segs))) == Ok(Some(RangeText(segs)))
  {
    var s := RangeText(segs);
    SegmentsOfText(segs);
    AcceptedIsNumeric(s);
    AcceptedIsPlain(s);
    assert s == Strip(s);
    ValidExactlyRangeTexts(s);
  }

  lemma AcceptedIsPlain(s: string)
    requires Accepts(s, NeedPage)
    ensures s != "" && Strip(s) == s && Lower(s) != "all"
  {
    AcceptedIsStripped(s, NeedPage);
    LowerStartsLikeText(s);
    StripUnwraps("", s, "");
    assert "" + s + "" == s;
  }

  lemma {:induction false} AcceptedIsStripped(s: string, at: Scan)
    requires Accepts(s, at)
    ensures at.NeedPage? || at.NeedEnd? ==> s != "" && IsDigit(s[0])
    ensures s != "" ==> IsDigit(s[|s| - 1])
  {
    if s != "" {
      var next := if IsDigit(s[0]) then (if at.NeedPage? || at.InPage? then InPage else InEnd)
                  else if s[0] == '-' then NeedEnd else NeedPage;
      AcceptedIsStripped(s[1..], next);
    }
  }

  lemma ValidationIsIdempotent(value: Option<string>)
    requires Validate(value).Ok?
    ensures Validate(Validate(value).value) == Validate(value)
  {
    if value.Some? {
      StripIsStripped(value.value);
    }
  }

  function IntText(n: nat): (t: string)
    ensures AllDigits(t) && t != ""
  {
    var digit := [('0' as int + n % 10) as char];
    if n < 10 then digit else IntText(n / 10) + digit
  }

  lemma {:induction false} IntTextReadsBack(n: nat)
    ensures Value(IntText(n)) == n
  {
    var t := IntText(n);
    var digit := [('0' as int + n % 10) as char];
    if n < 10 {
      assert t[..|t| - 1] == "";
    } else {
      IntTextReadsBack(n / 10);
      assert t[..|t| - 1] == IntText(n / 10);
    }
  }

  /** Pages as numbers. */
  datatype Pages = One(page: nat) | Between(first: nat, last: nat)

  function SegmentOf(p: Pages): Segment {
    match p
    case One(page) => Page(IntText(page))
    case Between(first, last) => Range(IntText(first), IntText(last))
  }

  predicate Sensible(p: Pages) {
    match p
    case One(page) => page > 0
    case Between(first, last) => 0 < first && first <= last
  }

  predicate Writable(p: Pages) {
    match p
    case One(page) => |IntText(page)| <= 4300
    case Between(first, last) => |IntText(first)| <= 4300 && |IntText(last)| <= 4300
  }

  lemma PagesReadBack(p: Pages)
    ensures Numeric(SegmentOf(p)) && (InOrder(SegmentOf(p)) <==> Sensible(p) && Writable(p))
  {
    match p
    case One(page) => IntTextReadsBack(page);
    case Between(first, last) =>
      IntTextReadsBack(first);
      IntTextReadsBack(last);
  }

  /** In numbers: pages and ranges, written in decimal and joined by commas in any order, are accepted exactly if none
      is page 0, no range runs backwards, and no number has more than 4300 digits. */
  lemma WrittenPagesAccepted(pages: seq<Pages>)
    requires pages != []
    ensures var text := RangeText(seq(|pages|, i requires 0 <= i < |pages| => SegmentOf(pages[i])));
            Validate(Some(text)).Ok? <==> forall i :: 0 <= i < |pages| ==> Sensible(pages[i]) && Writable(pages[i])
  {
    var segs := seq(|pages|, i requires 0 <= i < |pages| => SegmentOf(pages[i]));
    forall i | 0 <= i < |pages|
      ensures Numeric(segs[i]) && (InOrder(segs[i]) <==> Sensible(pages[i]) && Writable(pages[i]))
    {
      PagesReadBack(pages[i]);
    }
    NumericTextAccepted(segs);
    assert forall i :: 0 <= i < |pages| ==> segs[i] in segs;
  }

  lemma NumericTextAccepted(segs: seq<Segment>)
    requires segs != [] && forall seg <- segs :: Numeric(seg)
    ensures Validate(Some(RangeText(segs))).Ok? <==> forall seg <- segs :: InOrder(seg)
  {
    SegmentsOfText(segs);
    AcceptedIsNumeric(RangeText(segs));
    AcceptedIsPlain(RangeText(segs));
  }

  /** Nothing is asked for, or "all" in any case: all pages; and only then. */
  lemma AllPages(value: Option<string>)
    ensures Validate(value) == Ok(None) <==>
              value.None? || Strip(value.value) == "" || Lower(Strip(value.value)) == "all"
  {
  }
}
