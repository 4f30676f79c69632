/** The string operations the parsers use, on ASCII text. */
module Text {

  /** Blank, tab to carriage return, and the four separators from 0x1c on. */
  predicate IsSpace(c: char) {
    c == ' ' || '\t' <= c <= '\r' || '\U{1C}' <= c <= '\U{1F}'
  }

  predicate IsDigit(c: char) {
    '0' <= c <= '9'
  }

  function LowerChar(c: char): char {
    if 'A' <= c <= 'Z' then c - 'A' + 'a' else c
  }

  function Lower(s: string): (r: string)
    ensures |r| == |s| && forall i :: 0 <= i < |s| ==> r[i] == LowerChar(s[i])
  {
    if s == "" then "" else [LowerChar(s[0])] + Lower(s[1..])
  }

  /** Which characters these are: code points 9 to 13, 28 to 31 and 32; the ten digits; and the case of the 26
      letters, by their place in the alphabet. */
  lemma CharacterClasses(c: char)
    ensures IsSpace(c) <==> 9 <= c as int <= 13 || 28 <= c as int <= 32
    ensures IsDigit(c) <==> c in "0123456789"
    ensures LowerChar(c) as int == if 65 <= c as int <= 90 then c as int + 32 else c as int
  {
  }

  function StripLeft(s: string): string {
    if s != "" && IsSpace(s[0]) then StripLeft(s[1..]) else s
  }

  function StripRight(s: string): string {
    if s != "" && IsSpace(s[|s| - 1]) then StripRight(s[..|s| - 1]) else s
  }

  function Strip(s: string): string {
    StripRight(StripLeft(s))
  }

  predicate AllSpace(s: string) {
    forall c <- s :: IsSpace(c)
  }

  /** Nothing for `Strip` to remove. */
  predicate Stripped(s: string) {
    s != "" ==> !IsSpace(s[0]) && !IsSpace(s[|s| - 1])
  }

  lemma {:induction false} StripLeftSkips(w: string, s: string)
    requires AllSpace(w)
    ensures StripLeft(w + s) == StripLeft(s)
  {
    if w == "" {
      assert w + s == s;
    } else {
      assert (w + s)[1..] == w[1..] + s;
      StripLeftSkips(w[1..], s);
    }
  }

  lemma {:induction false} StripRightSkips(s: string, w: string)
    requires AllSpace(w)
    ensures StripRight(s + w) == StripRight(s)
  {
    if w == "" {
      assert s + w == s;
    } else {
      assert (s + w)[..|s + w| - 1] == s + w[..|w| - 1];
      StripRightSkips(s, w[..|w| - 1]);
    }
  }

  /** Blanks around a text that has none of its own at its ends come off, and nothing else does. */
  lemma StripUnwraps(before: string, s: string, after: string)
    requires AllSpace(before) && AllSpace(after) && Stripped(s) && s != ""
    ensures Strip(before + s + after) == s
  {
    StripLeftSkips(before, s + after);
    assert before + s + after == before + (s + after);
    assert StripLeft(s + after) == s + after;
    StripRightSkips(s, after);
  }

  lemma {:induction false} StripLeftShape(s: string) returns (w: string)
    ensures s == w + StripLeft(s) && AllSpace(w)
    ensures StripLeft(s) != "" ==> !IsSpace(StripLeft(s)[0])
  {
    if s != "" && IsSpace(s[0]) {
      var v := StripLeftShape(s[1..]);
      w := [s[0]] + v;
    } else {
      w := "";
    }
  }

  lemma {:induction false} StripRightShape(s: string) returns (w: string)
    ensures s == StripRight(s) + w && AllSpace(w)
    ensures StripRight(s) != "" ==> !IsSpace(StripRight(s)[|StripRight(s)| - 1]) && StripRight(s)[0] == s[0]
  {
    if s != "" && IsSpace(s[|s| - 1]) {
      var v := StripRightShape(s[..|s| - 1]);
      w := v + [s[|s| - 1]];
    } else {
      w := "";
    }
  }

  /** What `Strip` removes is blank. */
  lemma StripShape(s: string) returns (before: string, after: string)
    ensures s == before + Strip(s) + after && AllSpace(before) && AllSpace(after) && Stripped(Strip(s))
  {
    before := StripLeftShape(s);
    after := StripRightShape(StripLeft(s));
    StripIsStripped(s);
  }

  lemma StripIsStripped(s: string)
    ensures Stripped(Strip(s))
    ensures Strip(Strip(s)) == Strip(s)
  {
    var _ := StripLeftShape(s);
    var _ := StripRightShape(StripLeft(s));
  }

  predicate StartsWith(s: string, prefix: string) {
    prefix <= s
  }

  predicate OccursAt(s: string, part: string, i: nat) {
    i + |part| <= |s| && s[i..i + |part|] == part
  }

  predicate Contains(s: string, part: string) {
    exists i :: 0 <= i <= |s| && OccursAt(s, part, i)
  }

  /** A text contains exactly the parts that stand somewhere in it. */
  lemma ContainsPart(s: string, part: string)
    ensures Contains(s, part) <==> exists a, b :: s == a + part + b
  {
    if Contains(s, part) {
      var i :| 0 <= i <= |s| && OccursAt(s, part, i);
      assert s == s[..i] + part + s[i + |part|..];
    }
    if a, b :| s == a + part + b {
      assert OccursAt(s, part, |a|);
    }
  }

  /** `str.split` on one character: always at least one piece. */
  function Split(s: string, c: char): (r: seq<string>)
    ensures |r| > 0
  {
    if s == "" then [""]
    else
      var rest := Split(s[1..], c);
      if s[0] == c then [""] + rest else [[s[0]] + rest[0]] + rest[1..]
  }

  function Join(pieces: seq<string>, c: char): string {
    if pieces == [] then ""
    else if |pieces| == 1 then pieces[0]
    else pieces[0] + [c] + Join(pieces[1..], c)
  }

  /** A first character put in front of the first piece. */
  lemma JoinPrefixed(a: char, pieces: seq<string>, c: char)
    requires pieces != []
    ensures Join([[a] + pieces[0]] + pieces[1..], c) == [a] + Join(pieces, c)
  {
    var all := [[a] + pieces[0]] + pieces[1..];
    assert all[1..] == pieces[1..];
    if |pieces| > 1 {
      assert ([a] + pieces[0]) + [c] + Join(pieces[1..], c) == [a] + (pieces[0] + [c] + Join(pieces[1..], c));
    }
  }

  lemma JoinSplitHere(pieces: seq<string>, c: char)
    requires pieces != []
    ensures Join([""] + pieces, c) == [c] + Join(pieces, c)
  {
    assert ([""] + pieces)[1..] == pieces;
  }

  lemma {:induction false} JoinSplit(s: string, c: char)
    ensures Join(Split(s, c), c) == s
  {
    if s != "" {
      JoinSplit(s[1..], c);
      JoinSplitHere(Split(s[1..], c), c);
      JoinPrefixed(s[0], Split(s[1..], c), c);
      assert [s[0]] + s[1..] == s;
    }
  }

  lemma {:induction false} PiecesHoldNone(s: string, c: char)
    ensures forall p <- Split(s, c) :: c !in p
  {
    if s != "" {
      PiecesHoldNone(s[1..], c);
    }
  }

  lemma {:induction false} SplitPiece(p: string, c: char)
    requires c !in p
    ensures Split(p, c) == [p]
  {
    if p != "" {
      SplitPiece(p[1..], c);
      assert p == [p[0]] + p[1..];
    }
  }

  lemma {:induction false} SplitFirst(p: string, s: string, c: char)
    requires c !in p
    ensures Split(p + [c] + s, c) == [p] + Split(s, c)
  {
    if p == "" {
      assert (p + [c] + s)[1..] == s;
    } else {
      assert (p + [c] + s)[1..] == p[1..] + [c] + s;
      SplitFirst(p[1..], s, c);
      assert p == [p[0]] + p[1..];
    }
  }

  /** Splitting undoes joining. */
  lemma {:induction false} SplitJoin(pieces: seq<string>, c: char)
    requires pieces != [] && forall p <- pieces :: c !in p
    ensures Split(Join(pieces, c), c) == pieces
  {
    if |pieces| == 1 {
      SplitPiece(pieces[0], c);
    } else {
      SplitJoin(pieces[1..], c);
      SplitFirst(pieces[0], Join(pieces[1..], c), c);
    }
  }
}
