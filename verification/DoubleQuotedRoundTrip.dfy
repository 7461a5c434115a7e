/**
  Scanning what the emitter wrote as a double-quoted scalar gives back the scalar
  (YAML 1.1, section 9.1.1), for every string, width, indent, line break style, `unicode`
  and `allow_breaks` setting.
 */
module DoubleQuotedRoundTrip {
  import opened Chars
  import opened Printing
  import opened Options
  import opened DoubleQuoted
  import opened FlowScanner
  import opened FlowPlaces

  // ----- Escapes

  /** A remainder modulo `16 * p` is a digit and a remainder modulo `p`. */
  lemma ComposedRemainder(a: nat, b: nat, p: nat, r: nat)
    requires b < 16 && r < p
    ensures ((16 * a + b) * p + r) % (16 * p) == b * p + r
  {
    var w := b * p + r;
    assert w < 16 * p by {
      assert b * p <= 15 * p;
    }
    assert (16 * a + b) * p + r == a * (16 * p) + w;
    RemainderOf(a, 16 * p, w);
  }

  lemma ScaledBounds(k: int, m: nat)
    ensures k >= 1 ==> k * m >= m
    ensures k <= -1 ==> k * m <= -(m as int)
  {
  }

  lemma RemainderOf(a: nat, m: nat, w: nat)
    requires w < m
    ensures (a * m + w) % m == w
  {
    var x := a * m + w;
    var q, r := x / m, x % m;
    assert x == q * m + r;
    assert (q - a) * m == w - r;
    ScaledBounds(q - a, m);
  }

  /** The low `n` digits are the highest of them and the low `n - 1`. */
  lemma SplitLowDigits(v: nat, n: nat)
    requires n > 0
    ensures var p := Pow16(n - 1); v % Pow16(n) == v / p % 16 * p + v % p
  {
    var p := Pow16(n - 1);
    var q, r := v / p, v % p;
    var a, b := q / 16, q % 16;
    assert v == (16 * a + b) * p + r;
    ComposedRemainder(a, b, p, r);
  }

  /** Horner's rule, one digit on. */
  lemma HornerStep(acc: nat, d: nat, p: nat, r: nat)
    ensures (acc * 16 + d) * p + r == acc * (16 * p) + (d * p + r)
  {
  }

  lemma {:induction false} ReadHexDigits(acc: nat, v: nat, n: nat, rest: Text)
    ensures ReadHex(acc, HexDigits(v, n) + rest, n) == Some(acc * Pow16(n) + v % Pow16(n))
    decreases n
  {
    var input := HexDigits(v, n) + rest;
    if n == 0 {
      assert input == rest;
    } else {
      var p := Pow16(n - 1);
      var d := v / p % 16;
      assert input[1..] == HexDigits(v, n - 1) + rest;
      assert input[0] == HexDigit(d);
      DigitReadsBack(d);
      ReadHexDigits(acc * 16 + d, v, n - 1, rest);
      SplitLowDigits(v, n);
      HornerStep(acc, d, p, v % p);
    }
  }

  lemma DigitReadsBack(d: nat)
    requires d < 16
    ensures IsHex(HexDigit(d)) && HexValue(HexDigit(d)) == d
  {
  }

  lemma PowersOf16()
    ensures Pow16(2) == 0x100 && Pow16(4) == 0x10000 && Pow16(8) == 0x1_0000_0000
  {
    assert Pow16(3) == 0x1000 && Pow16(5) == 0x100000 && Pow16(6) == 0x1000000 && Pow16(7) == 0x10000000;
  }

  lemma CodeReadsBack(letter: Char, n: nat, c: Char, rest: Text)
    requires EscapeLetter(letter) == Code(n) && c < Pow16(n)
    ensures ReadEscape([BACKSLASH, letter] + HexDigits(c, n) + rest) == Some((c, 2 + n))
  {
    hide EscapeLetter, HexDigits, ReadHex;
    var digits := HexDigits(c, n);
    var input := [BACKSLASH, letter] + digits + rest;
    assert input[2..] == digits + rest;
    assert ReadHex(0, input[2..], n) == Some(c as nat) by {
      ReadHexDigits(0, c, n, rest);
      RemainderOf(0, Pow16(n), c);
    }
    assert At(input, 0) == BACKSLASH && At(input, 1) == letter;
  }

  lemma ShortReadsBack(c: Char, rest: Text)
    requires ShortEscape(c) != NUL
    ensures EscapeLetter(ShortEscape(c)) == Literally(c)
  {
  }

  /** Every character is read back from its escape, whatever follows. */
  lemma EscapeReadsBack(c: Char, rest: Text)
    ensures ReadEscape(Escape(c) + rest) == Some((c, |Escape(c)|))
  {
    hide ShortEscape, HexDigits, ReadHex;
    var short := ShortEscape(c);
    if short != NUL {
      ShortReadsBack(c, rest);
      assert At(Escape(c) + rest, 1) == short;
    } else {
      PowersOf16();
      if c <= 0xFF {
        CodeReadsBack(0x78, 2, c, rest);
      } else if c <= 0xFFFF {
        CodeReadsBack(0x75, 4, c, rest);
      } else {
        CodeReadsBack(0x55, 8, c, rest);
      }
    }
  }

  // ----- The body

  lemma TextReadsEscape(c: Char, rest: Text, column: nat, value: Text)
    ensures InText(false, Escape(c) + rest, column, value) == InText(false, rest, column + |Escape(c)|, value + [c])
  {
    var input := Escape(c) + rest;
    EscapeReadsBack(c, rest);
    assert input[|Escape(c)|..] == rest;
    assert At(input, 0) == BACKSLASH && !IsBreak(At(input, 1));
  }

  /** The pen between two characters: on a line of its own making, it has moved past the indent. */
  ghost predicate PenInside(level: nat, spaces: bool, pen: Pen) {
    pen.column > 0 && (pen.indention ==> pen.column >= level && (pen.column == level ==> spaces))
  }

  /** The scanner has everything written so far; what a fold leaves pending is not followed by a space. */
  ghost predicate InStep(value: Text, i: nat, spaces: bool, place: Place, read: Text)
    requires i <= |value|
  {
    && read + Pending(place) == value[..i]
    && (!place.TextPlace? ==> spaces)
    && (place.EscapePlace? ==> At(value, i) == SPACE)
    && (place.BlankPlace? && place.leadingBlanks ==> At(value, i) != SPACE)
  }

  predicate IsBareSpace(s: Settings, c: Char) {
    !NeedsEscape(s, c) && c == SPACE
  }

  /** What a turn of the loop promises: the scanner reads its text and is in step with it again. */
  ghost predicate Undone(s: Settings, level: nat, value: Text, i: nat, ink: Ink,
                         pen: Pen, place: Place, read: Text, rest: Text, place': Place, read': Text)
    requires i < |value|
  {
    && Resume(false, place, ink.text + rest, pen.column, read) == Resume(false, place', rest, ink.pen.column, read')
    && PenInside(level, IsBareSpace(s, value[i]), ink.pen)
    && InStep(value, i + 1, IsBareSpace(s, value[i]), place', read')
  }

  lemma LetterReadsBack(s: Settings, level: nat, value: Text, i: nat, spaces: bool, allowBreaks: bool,
                        pen: Pen, place: Place, read: Text, rest: Text)
    requires i < |value| && PenInside(level, spaces, pen) && InStep(value, i, spaces, place, read)
    requires value[i] != SPACE
    ensures Undone(s, level, value, i, Step(s, level, value, i, spaces, allowBreaks, pen),
                   pen, place, read, rest, TextPlace, value[..i + 1])
  {
    var c := value[i];
    assert value[..i] + [c] == value[..i + 1];
    if NeedsEscape(s, c) {
      ResumeText(false, place, Escape(c) + rest, pen.column, read);
      TextReadsEscape(c, rest, pen.column, value[..i]);
    } else {
      ResumeText(false, place, [c] + rest, pen.column, read);
      TextReadsPlain(false, c, rest, pen.column, value[..i]);
    }
  }

  lemma FoldReadsBack(s: Settings, level: nat, value: Text, i: nat, allowBreaks: bool,
                      pen: Pen, read: Text, rest: Text) returns (place': Place, read': Text)
    requires i < |value| && level > 0 && PenInside(level, false, pen) && read == value[..i]
    requires value[i] == SPACE && Folds(s, value, i, false, allowBreaks, pen) && At(rest, 0) != LF
    ensures Undone(s, level, value, i, Step(s, level, value, i, false, allowBreaks, pen),
                   pen, TextPlace, read, rest, place', read')
  {
    var lines := BreakText(s.lineBreak) + Repeat(SPACE, level);
    assert BreaksLine(level, pen) && WriteIndent(s, level, pen).text == lines;
    assert value[..i] + [SPACE] == value[..i + 1];
    if value[i + 1] != SPACE {
      TextReadsFold(false, s, level, rest, pen.column, read);
      place', read' := BlankPlace(true, [], [LF], []), read;
    } else {
      var line := [BACKSLASH] + rest;
      assert (lines + [BACKSLASH]) + rest == lines + line;
      TextReadsFold(false, s, level, line, pen.column, read);
      ResumeText(false, BlankPlace(true, [], [LF], []), line, level, read);
      place', read' := EscapePlace, value[..i + 1];
    }
  }

  lemma BareSpaceReadsBack(s: Settings, level: nat, value: Text, i: nat, spaces: bool, allowBreaks: bool,
                           pen: Pen, place: Place, read: Text, rest: Text) returns (place': Place, read': Text)
    requires i < |value| && PenInside(level, spaces, pen) && InStep(value, i, spaces, place, read)
    requires value[i] == SPACE && !Folds(s, value, i, spaces, allowBreaks, pen)
    ensures Undone(s, level, value, i, Step(s, level, value, i, spaces, allowBreaks, pen),
                   pen, place, read, rest, place', read')
  {
    assert value[..i] + [SPACE] == value[..i + 1];
    if place.EscapePlace? {
      var line := [BACKSLASH] + ([SPACE] + rest);
      assert At(line, 0) == BACKSLASH && At(line, 1) == SPACE;
      assert ReadEscape(line) == Some((SPACE, 2)) && line[2..] == rest;
      assert InText(false, line, pen.column - 1, read) == InText(false, rest, pen.column + 1, read + [SPACE]);
      place', read' := TextPlace, read + [SPACE];
      assert read + Pending(place) == read && read' + [] == read';
    } else {
      place' := ReadsSpace(false, place, rest, pen.column, read);
      read' := read;
      assert read + (Pending(place) + [SPACE]) == (read + Pending(place)) + [SPACE];
    }
  }

  /** One turn of the writing loop is undone by the scanner. */
  lemma StepReadsBack(s: Settings, level: nat, value: Text, i: nat, spaces: bool, allowBreaks: bool,
                      pen: Pen, place: Place, read: Text, rest: Text) returns (place': Place, read': Text)
    requires i < |value| && level > 0 && PenInside(level, spaces, pen) && InStep(value, i, spaces, place, read)
    requires IsBareSpace(s, value[i]) ==> At(rest, 0) != LF
    ensures Undone(s, level, value, i, Step(s, level, value, i, spaces, allowBreaks, pen),
                   pen, place, read, rest, place', read')
  {
    if value[i] != SPACE {
      LetterReadsBack(s, level, value, i, spaces, allowBreaks, pen, place, read, rest);
      place', read' := TextPlace, value[..i + 1];
    } else if Folds(s, value, i, spaces, allowBreaks, pen) {
      assert read + [] == read;
      place', read' := FoldReadsBack(s, level, value, i, allowBreaks, pen, read, rest);
    } else {
      place', read' := BareSpaceReadsBack(s, level, value, i, spaces, allowBreaks, pen, place, read, rest);
    }
  }

  /** The first turn, and a turn behind a bare space, write something other than a line feed. */
  lemma StepStart(s: Settings, level: nat, value: Text, i: nat, spaces: bool, allowBreaks: bool, pen: Pen)
    requires i < |value| && (spaces || i == 0)
    ensures var text := Step(s, level, value, i, spaces, allowBreaks, pen).text;
      text != [] && text[0] != LF && text[0] != NUL
  {
  }

  lemma BodyStart(s: Settings, level: nat, value: Text, i: nat, spaces: bool, allowBreaks: bool, pen: Pen, tail: Text)
    requires i <= |value| && (spaces || i == 0)
    ensures var text := Body(s, level, value, i, spaces, allowBreaks, pen).text + [DQUOTE] + tail;
      At(text, 0) != LF && At(text, 0) != NUL
  {
    if i < |value| {
      StepStart(s, level, value, i, spaces, allowBreaks, pen);
    }
  }

  lemma {:induction false} BodyReadsBack(s: Settings, level: nat, value: Text, i: nat, spaces: bool, allowBreaks: bool,
                                         pen: Pen, place: Place, read: Text, tail: Text)
    requires i <= |value| && level > 0 && PenInside(level, spaces, pen) && InStep(value, i, spaces, place, read)
    ensures var body := Body(s, level, value, i, spaces, allowBreaks, pen);
      Resume(false, place, body.text + [DQUOTE] + tail, pen.column, read) == Scanned(value, body.pen.column + 1, tail)
    decreases |value| - i
  {
    hide Step, NeedsEscape;
    var body := Body(s, level, value, i, spaces, allowBreaks, pen);
    var input := body.text + [DQUOTE] + tail;
    if i == |value| {
      assert input == [DQUOTE] + tail;
      ResumeText(false, place, input, pen.column, read);
      assert value[..i] == value;
    } else {
      var ink := Step(s, level, value, i, spaces, allowBreaks, pen);
      var spaces' := IsBareSpace(s, value[i]);
      var next := Body(s, level, value, i + 1, spaces', allowBreaks, ink.pen);
      var rest := next.text + [DQUOTE] + tail;
      assert input == ink.text + rest;
      if spaces' {
        BodyStart(s, level, value, i + 1, spaces', allowBreaks, ink.pen, tail);
      }
      var place', read' := StepReadsBack(s, level, value, i, spaces, allowBreaks, pen, place, read, rest);
      BodyReadsBack(s, level, value, i + 1, spaces', allowBreaks, ink.pen, place', read', tail);
    }
  }

  /** The round trip of the whole scalar, from its opening quote to the text behind its closing one. */
  lemma DoubleQuotedRoundTrip(s: Settings, level: nat, value: Text, allowBreaks: bool, pen: Pen, tail: Text)
    requires level > 0
    ensures var ink := Written(s, level, value, allowBreaks, pen);
      var gap := if pen.whitespace then 0 else 1;
      && |ink.text| > gap
      && ink.text[..gap] == Repeat(SPACE, gap)
      && Scan(false, ink.text[gap..] + tail, pen.column + gap) == Scanned(value, ink.pen.column, tail)
  {
    hide Body, InText, InBlanks;
    var ink := Written(s, level, value, allowBreaks, pen);
    var gap := if pen.whitespace then 0 else 1;
    var open := WriteIndicator([DQUOTE], true, false, false, pen);
    var body := Body(s, level, value, 0, false, allowBreaks, open.pen);
    var input := body.text + [DQUOTE] + tail;
    assert ink.text[gap..] + tail == [DQUOTE] + input;
    BodyReadsBack(s, level, value, 0, false, allowBreaks, open.pen, TextPlace, [], tail);
    BodyStart(s, level, value, 0, false, allowBreaks, open.pen, tail);
  }
}
