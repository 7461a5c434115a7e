/**
  Scanning what the emitter wrote as a literal scalar gives back the scalar (YAML 1.1, section
  9.3.1), whenever the analysis allows the style: with indentation hints, in all three chomping
  modes, with any mixture of line feeds, LS and PS, before the end of the stream or before a
  token on a less indented line.
 */
module LiteralRoundTrip {
  import opened Chars
  import opened Printing
  import opened LineBreaks
  import opened Options
  import opened ScalarAnalysis
  import opened Literal
  import opened BlockScanner

  /** Where the scanner may be between two characters of the value; breaks come at column 0. */
  datatype Place =
    | LinePlace(leadingBlank: bool)
    | BreakPlace(indent: nat, leadingBreak: Text, leadingBlank: bool, breaks: Text)

  function Resume(shape: Shape, level: nat, place: Place, input: Text, column: nat, value: Text): Scanned {
    match place
    case LinePlace(blank) => InLine(shape, level, input, column, value, blank)
    case BreakPlace(indent, lead, blank, breaks) =>
      InBreaks(shape, indent, input, column, 0, value, lead, blank, breaks)
  }

  function Pending(place: Place): Text {
    match place
    case LinePlace(_) => []
    case BreakPlace(_, lead, _, breaks) => lead + breaks
  }

  /** The shape the header announces for a value written at `level` under `parserIndent`. */
  ghost predicate LevelFits(s: Settings, shape: Shape, level: nat) {
    && s.Normal() && shape.literal && shape.parserIndent >= -1
    && level == IncreasedIndent(s, shape.parserIndent, true, false)
  }

  ghost predicate BreaksOnly(text: Text) {
    forall k :: 0 <= k < |text| ==> IsBreak(text[k])
  }

  /** The writer's flag and the scanner's place agree; the level is known unless a letter comes first. */
  ghost predicate InStep(s: Settings, level: nat, value: Text, i: nat, breaks: bool, pen: Pen, place: Place, read: Text)
    requires i <= |value|
  {
    && read + Pending(place) == value[..i]
    && breaks == place.BreakPlace?
    && (place.BreakPlace? ==>
          && BreaksOnly(place.leadingBreak + place.breaks)
          && |place.leadingBreak| <= 1 && (place.leadingBreak == [] ==> read == [])
          && pen == Pen(0, true, true)
          && (place.indent == level
              || (place.indent == 0 && place.leadingBreak == [] && place.breaks == []
                  && At(value, i) != SPACE && !IsBreak(At(value, i)) && i < |value|)))
    && (place.LinePlace? ==> !pen.indention)
  }

  lemma EatsIndent(shape: Shape, indent: nat, n: nat, rest: Text, column: nat, value: Text,
                   lead: Text, blank: bool, breaks: Text)
    requires indent == 0 || column + n <= indent
    ensures InBreaks(shape, indent, Repeat(SPACE, n) + rest, column, 0, value, lead, blank, breaks)
         == InBreaks(shape, indent, rest, column + n, 0, value, lead, blank, breaks)
    decreases n
  {
    var input := Repeat(SPACE, n) + rest;
    if n == 0 {
      assert input == rest;
    } else {
      assert input[1..] == Repeat(SPACE, n - 1) + rest;
      EatsIndent(shape, indent, n - 1, rest, column + 1, value, lead, blank, breaks);
    }
  }

  /** The first letter of a line, behind its indent. */
  lemma ReadsLineStart(s: Settings, shape: Shape, level: nat, indent: nat, c: Char, rest: Text,
                       value: Text, lead: Text, blank: bool, breaks: Text)
    requires LevelFits(s, shape, level) && IsPrintable(c) && !IsBreak(c)
    requires indent == level || (indent == 0 && c != SPACE)
    ensures InBreaks(shape, indent, Repeat(SPACE, level) + ([c] + rest), 0, 0, value, lead, blank, breaks)
         == InLine(shape, level, rest, level + 1, value + lead + breaks + [c], IsBlank(c))
  {
    var line := [c] + rest;
    EatsIndent(shape, indent, level, line, 0, value, lead, blank, breaks);
    assert InBreaks(shape, indent, line, level, 0, value, lead, blank, breaks)
        == AtLine(shape, level, line, level, value, lead, blank, breaks);
    var joined := value + lead + breaks;
    assert AtLine(shape, level, line, level, value, lead, blank, breaks)
        == InLine(shape, level, line, level, joined, IsBlank(c));
    assert line[1..] == rest;
  }

  ghost predicate Undone(s: Settings, shape: Shape, level: nat, value: Text, i: nat, ink: Ink, pen: Pen,
                         place: Place, read: Text, rest: Text, place': Place, read': Text)
    requires i < |value|
  {
    && Resume(shape, level, place, ink.text + rest, pen.column, read)
       == Resume(shape, level, place', rest, ink.pen.column, read')
    && InStep(s, level, value, i + 1, IsBreak(value[i]), ink.pen, place', read')
  }

  lemma FirstLetterReadsBack(s: Settings, shape: Shape, level: nat, value: Text, i: nat, pen: Pen,
                             place: Place, read: Text, rest: Text)
    requires LevelFits(s, shape, level) && i < |value| && BlockClean(s, value, i)
    requires InStep(s, level, value, i, true, pen, place, read)
    requires !IsBreak(value[i])
    ensures Undone(s, shape, level, value, i, Step(s, level, value[i], true, pen), pen, place, read, rest,
                   LinePlace(IsBlank(value[i])), value[..i + 1])
  {
    hide InBreaks, InLine;
    var c := value[i];
    var ink := Step(s, level, c, true, pen);
    assert ink.text + rest == Repeat(SPACE, level) + ([c] + rest);
    ReadsLineStart(s, shape, level, place.indent, c, rest, read, place.leadingBreak, place.leadingBlank, place.breaks);
    assert read + place.leadingBreak + place.breaks == read + Pending(place);
    assert value[..i] + [c] == value[..i + 1];
  }

  lemma FurtherLetterReadsBack(s: Settings, shape: Shape, level: nat, value: Text, i: nat, pen: Pen,
                               place: Place, read: Text, rest: Text)
    requires i < |value| && BlockClean(s, value, i)
    requires InStep(s, level, value, i, false, pen, place, read)
    requires !IsBreak(value[i])
    ensures Undone(s, shape, level, value, i, Step(s, level, value[i], false, pen), pen, place, read, rest,
                   place, value[..i + 1])
  {
    hide InBreaks;
    var c := value[i];
    var ink := Step(s, level, c, false, pen);
    assert ink.text + rest == [c] + rest && ([c] + rest)[1..] == rest;
    assert read + [] == read;
    assert read + [c] == value[..i + 1];
  }

  /** The scanner reads one written break, behind a line or behind other breaks. */
  lemma ReadsBreak(s: Settings, shape: Shape, level: nat, c: Char, place: Place, column: nat, read: Text, rest: Text)
    returns (place': Place)
    requires IsPrintable(c) && IsBreak(c) && (s.lineBreak.CrBreak? ==> At(rest, 0) != LF)
    requires place.BreakPlace? ==> column == 0
    ensures place' == (match place
                       case LinePlace(blank) => BreakPlace(level, [c], blank, [])
                       case BreakPlace(indent, lead, blank, more) => BreakPlace(indent, lead, blank, more + [c]))
    ensures Resume(shape, level, place, WrittenBreak(s, c) + rest, column, read)
         == Resume(shape, level, place', rest, 0, read)
  {
    hide AtLine, WrittenBreak;
    ReadsWrittenBreak(s, c, rest);
    match place
    case LinePlace(blank) => place' := BreakPlace(level, [c], blank, []);
    case BreakPlace(indent, lead, blank, more) => place' := BreakPlace(indent, lead, blank, more + [c]);
  }

  lemma BreakReadsBack(s: Settings, shape: Shape, level: nat, value: Text, i: nat, breaks: bool, pen: Pen,
                       place: Place, read: Text, rest: Text) returns (place': Place)
    requires level > 0 && i < |value| && BlockClean(s, value, i) && IsBreak(value[i])
    requires InStep(s, level, value, i, breaks, pen, place, read) && pen.whitespace
    requires s.lineBreak.CrBreak? ==> At(rest, 0) != LF
    ensures Undone(s, shape, level, value, i, Step(s, level, value[i], breaks, pen), pen, place, read, rest, place', read)
  {
    hide InBreaks, InLine, IsBreak;
    var c := value[i];
    assert Step(s, level, c, breaks, pen) == Ink(WrittenBreak(s, c), Pen(0, true, true));
    place' := ReadsBreak(s, shape, level, c, place, pen.column, read, rest);
    assert value[..i] + [c] == value[..i + 1];
    match place
    case LinePlace(blank) =>
      assert read + [] == read && [c] + [] == [c];
    case BreakPlace(indent, lead, blank, more) =>
      assert lead + (more + [c]) == (lead + more) + [c];
      assert read + ((lead + more) + [c]) == (read + (lead + more)) + [c];
  }

  /** What is written from character `i` on starts with a line feed only in the LF style. */
  lemma BodyStart(s: Settings, level: nat, value: Text, i: nat, breaks: bool, pen: Pen, tail: Text)
    requires i <= |value| && forall k :: i <= k < |value| ==> BlockClean(s, value, k)
    requires s.lineBreak.CrBreak? ==> At(tail, 0) != LF
    ensures s.lineBreak.CrBreak? ==> At(Body(s, level, value, i, breaks, pen).text + tail, 0) != LF
  {
    if i < |value| {
      assert BlockClean(s, value, i);
      assert Step(s, level, value[i], breaks, pen).text != [];
    } else {
      assert [] + tail == tail;
    }
  }

  /** One turn of the writing loop is undone by the scanner. */
  lemma StepReadsBack(s: Settings, shape: Shape, level: nat, value: Text, i: nat, breaks: bool, pen: Pen,
                      place: Place, read: Text, rest: Text) returns (place': Place, read': Text)
    requires LevelFits(s, shape, level) && i < |value| && BlockClean(s, value, i)
    requires InStep(s, level, value, i, breaks, pen, place, read) && pen.whitespace
    requires s.lineBreak.CrBreak? ==> At(rest, 0) != LF
    ensures Undone(s, shape, level, value, i, Step(s, level, value[i], breaks, pen), pen, place, read, rest, place', read')
    ensures Step(s, level, value[i], breaks, pen).pen.whitespace
  {
    hide InBreaks, InLine, BlockClean, InStep, Undone;
    if IsBreak(value[i]) {
      place' := BreakReadsBack(s, shape, level, value, i, breaks, pen, place, read, rest);
      read' := read;
    } else if breaks {
      FirstLetterReadsBack(s, shape, level, value, i, pen, place, read, rest);
      place', read' := LinePlace(IsBlank(value[i])), value[..i + 1];
    } else {
      FurtherLetterReadsBack(s, shape, level, value, i, pen, place, read, rest);
      place', read' := place, value[..i + 1];
    }
  }

  lemma {:induction false} BodyReadsBack(s: Settings, shape: Shape, level: nat, value: Text, i: nat, breaks: bool,
                                         pen: Pen, place: Place, read: Text, tail: Text)
    returns (place': Place, read': Text)
    requires i <= |value| && LevelFits(s, shape, level) && forall k :: i <= k < |value| ==> BlockClean(s, value, k)
    requires InStep(s, level, value, i, breaks, pen, place, read) && pen.whitespace
    requires s.lineBreak.CrBreak? ==> At(tail, 0) != LF
    ensures var body := Body(s, level, value, i, breaks, pen);
      && Resume(shape, level, place, body.text + tail, pen.column, read)
         == Resume(shape, level, place', tail, body.pen.column, read')
      && InStep(s, level, value, |value|, if i == |value| then breaks else IsBreak(value[|value| - 1]), body.pen, place', read')
      && body.pen.whitespace
    decreases |value| - i
  {
    hide Resume, Step, InStep, BlockClean, IsBreak;
    var body := Body(s, level, value, i, breaks, pen);
    if i == |value| {
      assert body.text + tail == tail;
      place', read' := place, read;
    } else {
      var c := value[i];
      var ink := Step(s, level, c, breaks, pen);
      var next := Body(s, level, value, i + 1, IsBreak(c), ink.pen);
      var rest := next.text + tail;
      assert body.text + tail == ink.text + rest;
      BodyStart(s, level, value, i + 1, IsBreak(c), ink.pen, tail);
      place', read' := StepReadsBack(s, shape, level, value, i, breaks, pen, place, read, rest);
      place', read' := BodyReadsBack(s, shape, level, value, i + 1, IsBreak(c), ink.pen, place', read', tail);
    }
  }

  // ----- The header

  function AnnouncedChomping(value: Text): Chomping {
    if ChompHint(value) == [DASH] then Strip else if ChompHint(value) == [PLUS] then Keep else Clip
  }

  lemma HeaderReadsBack(s: Settings, value: Text, rest: Text)
    requires s.Normal() && (At(rest, 0) == CR || At(rest, 0) == LF)
    ensures var hints := IndentHint(s, value) + ChompHint(value);
      && ReadHeader(hints + rest)
         == Header(AnnouncedChomping(value), if IndentHint(s, value) == [] then 0 else s.bestIndent, |hints|)
      && (hints + rest)[|hints|..] == rest
  {
    var input := IndentHint(s, value) + ChompHint(value) + rest;
    assert IndentHint(s, value) == [] ==> At(input, 0) == At(ChompHint(value) + rest, 0);
    assert IndentHint(s, value) != [] ==>
      At(input, 0) == DIGIT0 + s.bestIndent && At(input, 1) == At(ChompHint(value) + rest, 0);
    assert ChompHint(value) == [] || ChompHint(value) == [DASH] || ChompHint(value) == [PLUS];
    if ChompHint(value) == [] {
      assert ChompHint(value) + rest == rest;
    } else {
      assert At(input, |IndentHint(s, value)| + 1) == At(rest, 0);
    }
  }

  // ----- The end

  /** A token that may follow: its first character is neither blank nor a break nor the end. */
  predicate IsTokenStart(token: Text) {
    !IsBlankZ(At(token, 0))
  }

  /** The chomping undoes exactly the breaks left pending. */
  lemma ChompReadsBack(s: Settings, shape: Shape, level: nat, value: Text, pen: Pen, place: Place, read: Text)
    requires value != [] && InStep(s, level, value, |value|, IsBreak(value[|value| - 1]), pen, place, read)
    requires shape.chomping == AnnouncedChomping(value)
    ensures place.LinePlace? ==> shape.chomping == Strip && read == value
    ensures place.BreakPlace? ==>
      Chomp(shape, read, place.leadingBreak, place.breaks) == value && place.indent == level
  {
    hide IsBreak;
    var n := |value|;
    assert value[..n] == value;
    match place
    case LinePlace(_) => assert read + [] == read;
    case BreakPlace(_, lead, _, breaks) =>
      var pending := lead + breaks;
      assert read + lead + breaks == read + pending == value;
      if shape.chomping == Clip {
        assert forall k :: 0 <= k < |pending| ==> value[|read| + k] == pending[k];
        assert |pending| == 1 && breaks == [];
      }
  }

  lemma StopsAtToken(shape: Shape, level: nat, k: nat, token: Text, value: Text, lead: Text, blank: bool, breaks: Text)
    requires k < level && IsTokenStart(token)
    ensures InBreaks(shape, level, Repeat(SPACE, k) + token, 0, 0, value, lead, blank, breaks)
         == Scanned(Chomp(shape, value, lead, breaks), k, token)
  {
    EatsIndent(shape, level, k, token, 0, value, lead, blank, breaks);
    assert InBreaks(shape, level, token, k, 0, value, lead, blank, breaks)
        == AtLine(shape, level, token, k, value, lead, blank, breaks);
  }

  lemma EndBeforeToken(s: Settings, shape: Shape, level: nat, value: Text, pen: Pen, place: Place, read: Text,
                       k: nat, token: Text)
    requires value != [] && InStep(s, level, value, |value|, IsBreak(value[|value| - 1]), pen, place, read)
    requires pen.whitespace && shape.chomping == AnnouncedChomping(value)
    requires k < level && IsTokenStart(token)
    ensures Resume(shape, level, place, WriteIndent(s, k, pen).text + token, pen.column, read) == Scanned(value, k, token)
  {
    hide InBreaks;
    ChompReadsBack(s, shape, level, value, pen, place, read);
    var tail := WriteIndent(s, k, pen).text + token;
    match place
    case LinePlace(blank) =>
      var line := Repeat(SPACE, k) + token;
      assert tail == BreakText(s.lineBreak) + line;
      ReadsBreakText(s, line);
      assert At(tail, 0) != NUL;
      StopsAtToken(shape, level, k, token, read, [LF], blank, []);
    case BreakPlace(_, lead, blank, breaks) =>
      assert tail == Repeat(SPACE, k) + token;
      StopsAtToken(shape, level, k, token, read, lead, blank, breaks);
  }

  lemma EndOfStream(s: Settings, shape: Shape, level: nat, value: Text, pen: Pen, place: Place, read: Text)
    requires value != [] && InStep(s, level, value, |value|, IsBreak(value[|value| - 1]), pen, place, read)
    requires shape.chomping == AnnouncedChomping(value)
    ensures Resume(shape, level, place, [], pen.column, read) == Scanned(value, pen.column, [])
  {
    ChompReadsBack(s, shape, level, value, pen, place, read);
    match place
    case LinePlace(blank) =>
      assert InLine(shape, level, [], pen.column, read, blank)
          == InBreaks(shape, level, [], pen.column, 0, read, [], blank, []);
      assert InBreaks(shape, level, [], pen.column, 0, read, [], blank, [])
          == AtLine(shape, if level == 0 then DetectedIndent(shape, pen.column) else level, [], pen.column, read, [], blank, []);
    case BreakPlace(_, lead, blank, breaks) =>
      assert InBreaks(shape, level, [], pen.column, 0, read, lead, blank, breaks)
          == AtLine(shape, if level == 0 then DetectedIndent(shape, pen.column) else level, [], pen.column, read, lead, blank, breaks);
  }

  // ----- The whole scalar

  /** What follows the scalar: the end of the stream, or a token on a line indented by `k`. */
  datatype Next = StreamEnd | TokenAt(k: nat, token: Text)

  function NextText(s: Settings, next: Next, pen: Pen): Text {
    match next
    case StreamEnd => []
    case TokenAt(k, token) => WriteIndent(s, k, pen).text + token
  }

  /** A following token is less indented than the scalar's lines. */
  predicate NextFits(next: Next, level: nat) {
    next.TokenAt? ==> next.k < level && IsTokenStart(next.token)
  }

  function NextScanned(value: Text, next: Next, pen: Pen): Scanned {
    match next
    case StreamEnd => Scanned(value, pen.column, [])
    case TokenAt(k, token) => Scanned(value, k, token)
  }

  /** The lines behind the header. */
  lemma LinesReadBack(s: Settings, shape: Shape, level: nat, value: Text, next: Next)
    requires LevelFits(s, shape, level) && BlockAllowed(s, value) && shape.chomping == AnnouncedChomping(value)
    requires NextFits(next, level)
    ensures var body := Body(s, level, value, 0, true, Pen(0, true, true));
      var indent := if IndentHint(s, value) == [] then 0 else level;
      && InBreaks(shape, indent, body.text + NextText(s, next, body.pen), 0, 0, [], [], false, [])
         == NextScanned(value, next, body.pen)
      && (s.lineBreak.CrBreak? ==> At(body.text + NextText(s, next, body.pen), 0) != LF)
  {
    var indent := if IndentHint(s, value) == [] then 0 else level;
    var start := Pen(0, true, true);
    var body := Body(s, level, value, 0, true, start);
    var tail := NextText(s, next, body.pen);
    assert s.lineBreak.CrBreak? ==> At(tail, 0) != LF by {
      if next.TokenAt? {
        assert tail == WriteIndent(s, next.k, body.pen).text + next.token;
      }
    }
    BodyStart(s, level, value, 0, true, start, tail);
    var place, read := BodyReadsBack(s, shape, level, value, 0, true, start, BreakPlace(indent, [], false, []), [], tail);
    match next
    case StreamEnd => EndOfStream(s, shape, level, value, body.pen, place, read);
    case TokenAt(k, token) => EndBeforeToken(s, shape, level, value, body.pen, place, read, k, token);
  }

  /** The written header, piece by piece. */
  lemma HeaderPieces(s: Settings, indicator: Char, value: Text, pen: Pen)
    requires s.Normal()
    ensures BlockHeader(s, indicator, value, pen).text
      == Repeat(SPACE, if pen.whitespace then 0 else 1) + [indicator] + IndentHint(s, value) + ChompHint(value)
  {
    var bar := WriteIndicator([indicator], true, false, false, pen);
    assert bar.text == Repeat(SPACE, if pen.whitespace then 0 else 1) + [indicator];
    var hint := IndentHint(s, value);
    var chomp := ChompHint(value);
    assert [] + hint == hint && [] + chomp == chomp;
    assert BlockHeader(s, indicator, value, pen).text == bar.text + hint + chomp;
  }

  lemma DropGap(gap: Text, bar: Text, hint: Text, chomp: Text, newline: Text, body: Text, tail: Text)
    ensures (gap + bar + hint + chomp + newline + body)[|gap|..] + tail
         == bar + (hint + chomp + (newline + (body + tail)))
    ensures (gap + bar + hint + chomp + newline + body)[..|gap|] == gap
  {
  }

  function BlockIndicator(literal: bool): Char {
    if literal then BAR else GREATER
  }

  /** A written header is scanned up to the end of its line. */
  lemma HeaderScanned(s: Settings, literal: bool, parent: int, value: Text, lines: Text, column: nat)
    requires s.Normal() && parent >= -1 && (s.lineBreak.CrBreak? ==> At(lines, 0) != LF)
    ensures var input := [BlockIndicator(literal)] + (IndentHint(s, value) + ChompHint(value) + (BreakText(s.lineBreak) + lines));
      var indent := if IndentHint(s, value) == [] then 0 else IncreasedIndent(s, parent, true, false);
      Scan(literal, parent, input, column)
      == InBreaks(Shape(literal, AnnouncedChomping(value), parent), indent, lines, 0, 0, [], [], false, [])
  {
    hide InBreaks, ReadHeader, IndentHint, ChompHint, AnnouncedChomping, Scan;
    var hints := IndentHint(s, value) + ChompHint(value);
    var after := BreakText(s.lineBreak) + lines;
    assert At(after, 0) == CR || At(after, 0) == LF;
    HeaderReadsBack(s, value, after);
    ScannedBehindHeader(s, literal, parent, hints, lines, column);
  }

  lemma ScannedBehindHeader(s: Settings, literal: bool, parent: int, hints: Text, lines: Text, column: nat)
    requires s.lineBreak.CrBreak? ==> At(lines, 0) != LF
    requires ReadHeader(hints + (BreakText(s.lineBreak) + lines)).Header?
    requires ReadHeader(hints + (BreakText(s.lineBreak) + lines)).length == |hints|
    ensures var h := ReadHeader(hints + (BreakText(s.lineBreak) + lines));
      var indent := if h.increment == 0 then 0 else if parent >= 0 then parent + h.increment else h.increment;
      Scan(literal, parent, [BlockIndicator(literal)] + (hints + (BreakText(s.lineBreak) + lines)), column)
      == InBreaks(Shape(literal, h.chomping, parent), indent, lines, 0, 0, [], [], false, [])
  {
    hide InBreaks, ReadHeader;
    var after := BreakText(s.lineBreak) + lines;
    var input := [BlockIndicator(literal)] + (hints + after);
    assert input[1..] == hints + after && input[1 + |hints|..] == after;
    ReadsBreakText(s, lines);
    assert SkipBlanks(after) == after;
    assert SkipHeaderLine(after, column + 1 + |hints|) == Some((lines, 0));
  }

  /**
    The round trip of the whole scalar under a node at `parent` (-1 for the root), whose level the
    scanner knows: from `|` up to the end of the stream or the next token, exactly.
   */
  lemma LiteralRoundTrip(s: Settings, parent: int, value: Text, pen: Pen, next: Next)
    requires s.Normal() && parent >= -1 && BlockAllowed(s, value)
    requires NextFits(next, IncreasedIndent(s, parent, true, false))
    ensures var ink := Written(s, IncreasedIndent(s, parent, true, false), value, pen);
      var gap := if pen.whitespace then 0 else 1;
      && |ink.text| > gap
      && ink.text[..gap] == Repeat(SPACE, gap)
      && Scan(true, parent, ink.text[gap..] + NextText(s, next, ink.pen), pen.column + gap)
         == NextScanned(value, next, ink.pen)
  {
    hide InBreaks, Body, Scan, IndentHint, ChompHint;
    var level := IncreasedIndent(s, parent, true, false);
    var ink := Written(s, level, value, pen);
    var gap := if pen.whitespace then 0 else 1;
    HeaderPieces(s, BAR, value, pen);
    var body := Body(s, level, value, 0, true, Pen(0, true, true));
    var lines := body.text + NextText(s, next, body.pen);
    DropGap(Repeat(SPACE, gap), [BAR], IndentHint(s, value), ChompHint(value), BreakText(s.lineBreak),
            body.text, NextText(s, next, body.pen));
    LinesReadBack(s, Shape(true, AnnouncedChomping(value), parent), level, value, next);
    HeaderScanned(s, true, parent, value, lines, pen.column + gap);
  }
}
