/**
  Scanning what the emitter wrote as a single-quoted scalar gives back the scalar (YAML 1.1,
  section 9.1.2), whenever the analysis of the scalar allows the style.
 */
module SingleQuotedRoundTrip {
  import opened Chars
  import opened Printing
  import opened LineBreaks
  import opened ScalarAnalysis
  import opened SingleQuoted
  import opened FlowScanner
  import opened FlowPlaces

  /** The flags say what the last character was. */
  ghost predicate RunFits(value: Text, i: nat, run: Run)
    requires i <= |value|
  {
    && run.spaces == (i > 0 && value[i - 1] == SPACE)
    && run.breaks == (i > 0 && IsBreak(value[i - 1]))
  }

  /** Only a fold or a line break sets `indention`, and only a line break resets the column. */
  ghost predicate PenInside(run: Run, pen: Pen) {
    && (pen.column == 0 ==> run.breaks)
    && (run.breaks ==> pen.column == 0 && pen.indention)
    && (pen.indention ==> run.spaces || run.breaks)
  }

  /** A run of breaks is read back verbatim: its doubled line feed, or its LS or PS, comes first. */
  ghost predicate KeepsBreaks(place: Place) {
    && place.BlankPlace? && place.leadingBlanks && place.whitespaces == []
    && ((place.leadingBreak == [LF] && place.trailingBreaks != [])
        || place.leadingBreak == [LS] || place.leadingBreak == [PS])
  }

  /** What a fold leaves pending: one space. */
  const FOLD := BlankPlace(true, [], [LF], [])

  ghost predicate InStep(value: Text, i: nat, run: Run, place: Place, read: Text)
    requires i <= |value|
  {
    && read + Pending(place) == value[..i]
    && (!run.spaces && !run.breaks ==> place.TextPlace?)
    && (run.breaks ==> KeepsBreaks(place))
    && (run.spaces ==> (place.BlankPlace? && !place.leadingBlanks) || (place == FOLD && At(value, i) != SPACE))
  }

  ghost predicate Undone(value: Text, i: nat, ink: Ink, run: Run, pen: Pen, place: Place, read: Text, rest: Text,
                         place': Place, read': Text)
    requires i < |value|
  {
    && Resume(true, place, ink.text + rest, pen.column, read) == Resume(true, place', rest, ink.pen.column, read')
    && PenInside(NextRun(value[i], run), ink.pen)
    && InStep(value, i + 1, NextRun(value[i], run), place', read')
    && RunFits(value, i + 1, NextRun(value[i], run))
  }

  lemma ReadsIndent(level: nat, place: Place, rest: Text, read: Text)
    requires KeepsBreaks(place)
    ensures Resume(true, place, Repeat(SPACE, level) + rest, 0, read) == Resume(true, place, rest, level, read)
  {
    SkipSpaces(true, level, rest, 0, read, place.leadingBreak, place.trailingBreaks);
  }

  lemma ReadsLetter(c: Char, rest: Text, column: nat, read: Text)
    requires !IsBlankZ(c)
    ensures InText(true, LetterText(c) + rest, column, read)
         == InText(true, rest, column + |LetterText(c)|, read + [c])
  {
    if c == SQUOTE {
      var input := [SQUOTE, SQUOTE] + rest;
      assert input[2..] == rest;
    } else {
      TextReadsPlain(true, c, rest, column, read);
    }
  }

  function LetterText(c: Char): Text {
    if c == SQUOTE then [SQUOTE, SQUOTE] else [c]
  }

  /** A letter behind breaks is written behind an indent. */
  lemma LetterStep(s: Settings, level: nat, value: Text, i: nat, run: Run, allowBreaks: bool, pen: Pen)
    requires i < |value| && level > 0 && PenInside(run, pen) && value[i] != SPACE && !IsBreak(value[i])
    ensures var ink := Step(s, level, value, i, run, allowBreaks, pen);
      && ink.text == (if run.breaks then Repeat(SPACE, level) else []) + LetterText(value[i])
      && ink.pen == Pen((if run.breaks then level else pen.column) + |LetterText(value[i])|, run.breaks || pen.whitespace, false)
  {
    assert [] + LetterText(value[i]) == LetterText(value[i]);
  }

  /** A letter as it is written is no blank and no end. */
  lemma LetterIsText(c: Char, rest: Text)
    requires !IsBlankZ(c)
    ensures !IsBlankZ(At(LetterText(c) + rest, 0))
  {
  }

  /** The scanner reads a letter, and the indent in front of it, from any place. */
  lemma ReadsIndentedLetter(c: Char, level: nat, breaks: bool, column: nat, place: Place, read: Text, rest: Text)
    requires !IsBlankZ(c) && level > 0 && !place.EscapePlace?
    requires if breaks then KeepsBreaks(place) && column == 0 else column > 0
    ensures Resume(true, place, (if breaks then Repeat(SPACE, level) else []) + LetterText(c) + rest, column, read)
         == InText(true, rest, (if breaks then level else column) + |LetterText(c)|, read + Pending(place) + [c])
  {
    hide InText, InBlanks, Resume, Pending, IsDocumentIndicator;
    LetterIsText(c, rest);
    var line := LetterText(c) + rest;
    ReadsLetter(c, rest, if breaks then level else column, read + Pending(place));
    if breaks {
      ReadsIndent(level, place, line, read);
      assert Repeat(SPACE, level) + LetterText(c) + rest == Repeat(SPACE, level) + line;
      ResumeText(true, place, line, level, read);
    } else {
      assert [] + LetterText(c) + rest == line;
      ResumeText(true, place, line, column, read);
    }
  }

  lemma LetterReadsBack(s: Settings, level: nat, value: Text, i: nat, run: Run, allowBreaks: bool,
                        pen: Pen, place: Place, read: Text, rest: Text)
    requires i < |value| && level > 0 && CleanAt(s, value, i) && RunFits(value, i, run)
    requires PenInside(run, pen) && InStep(value, i, run, place, read)
    requires value[i] != SPACE && !IsBreak(value[i])
    ensures Undone(value, i, Step(s, level, value, i, run, allowBreaks, pen), run, pen, place, read, rest,
                   TextPlace, value[..i + 1])
  {
    LetterStep(s, level, value, i, run, allowBreaks, pen);
    ReadsIndentedLetter(value[i], level, run.breaks, pen.column, place, read, rest);
    assert value[..i] + [value[i]] == value[..i + 1];
  }

  lemma SpaceReadsBack(s: Settings, level: nat, value: Text, i: nat, run: Run, allowBreaks: bool,
                       pen: Pen, place: Place, read: Text, rest: Text) returns (place': Place)
    requires i < |value| && level > 0 && SingleQuotedAllowed(s, value) && RunFits(value, i, run)
    requires PenInside(run, pen) && InStep(value, i, run, place, read)
    requires value[i] == SPACE
    requires s.lineBreak.CrBreak? ==> At(rest, 0) != LF
    ensures Undone(value, i, Step(s, level, value, i, run, allowBreaks, pen), run, pen, place, read, rest, place', read)
  {
    hide InText, InBlanks;
    assert value[..i] + [SPACE] == value[..i + 1];
    assert CleanAt(s, value, i) && (i > 0 ==> CleanAt(s, value, i - 1));
    if Folds(s, value, i, run, allowBreaks, pen) {
      assert BreaksLine(level, pen);
      TextReadsFold(true, s, level, rest, pen.column, read);
      place' := FOLD;
      assert read + [] == read;
    } else {
      place' := ReadsSpace(true, place, rest, pen.column, read);
      assert read + (Pending(place) + [SPACE]) == (read + Pending(place)) + [SPACE];
    }
  }

  /** The first break of a run, in text. */
  lemma TextReadsBreak(s: Settings, c: Char, rest: Text, column: nat, read: Text)
    requires IsOrdinary(s, c) && IsBreak(c)
    requires s.lineBreak.CrBreak? ==> At(rest, 0) != LF
    ensures InText(true, WrittenBreak(s, c) + rest, column, read)
         == InBlanks(true, rest, 0, read, true, [], [c], [])
  {
    var input := WrittenBreak(s, c) + rest;
    ReadsWrittenBreak(s, c, rest);
    assert InText(true, input, column, read) == InBlanks(true, input, column, read, false, [], [], []);
    assert [] + [c] == [c];
  }

  /** A further break. */
  lemma BlanksReadBreak(s: Settings, c: Char, rest: Text, column: nat, read: Text, lead: Text, trail: Text)
    requires IsOrdinary(s, c) && IsBreak(c)
    requires s.lineBreak.CrBreak? ==> At(rest, 0) != LF
    ensures InBlanks(true, WrittenBreak(s, c) + rest, column, read, true, [], lead, trail)
         == InBlanks(true, rest, 0, read, true, [], lead, trail + [c])
  {
    ReadsWrittenBreak(s, c, rest);
  }

  lemma FirstBreakReadsBack(s: Settings, level: nat, value: Text, i: nat, run: Run, allowBreaks: bool,
                            pen: Pen, read: Text, rest: Text) returns (place': Place)
    requires i < |value| && IsOrdinary(s, value[i]) && IsBreak(value[i])
    requires run == Run(false, false) && read == value[..i]
    requires s.lineBreak.CrBreak? ==> At(rest, 0) != LF
    ensures Undone(value, i, Step(s, level, value, i, run, allowBreaks, pen), run, pen, TextPlace, read, rest, place', read)
  {
    hide InText, InBlanks;
    var c := value[i];
    assert value[..i] + [c] == value[..i + 1];
    var text := WrittenBreak(s, c);
    var ink := Step(s, level, value, i, run, allowBreaks, pen);
    if c == LF {
      place' := BlankPlace(true, [], [LF], [LF]);
      TextReadsBreak(s, c, text + rest, pen.column, read);
      BlanksReadBreak(s, c, rest, 0, read, [LF], []);
      assert ink.text + rest == text + (text + rest);
      assert [] + [LF] == [LF];
    } else {
      place' := BlankPlace(true, [], [c], []);
      TextReadsBreak(s, c, rest, pen.column, read);
      assert ink.text + rest == text + rest;
      assert [c] + [] == [c];
    }
  }

  lemma BreaksGrow(place: Place, c: Char)
    requires KeepsBreaks(place)
    ensures var place' := place.(trailingBreaks := place.trailingBreaks + [c]);
      KeepsBreaks(place') && Pending(place') == Pending(place) + [c]
  {
    assert place.leadingBreak + (place.trailingBreaks + [c]) == (place.leadingBreak + place.trailingBreaks) + [c];
  }

  lemma FurtherBreakStep(s: Settings, level: nat, value: Text, i: nat, run: Run, allowBreaks: bool, pen: Pen)
    requires i < |value| && IsBreak(value[i]) && run.breaks
    ensures Step(s, level, value, i, run, allowBreaks, pen) == Ink(WrittenBreak(s, value[i]), Pen(0, pen.whitespace, true))
  {
    var text := WrittenBreak(s, value[i]);
    assert [] + text == text;
  }

  lemma FurtherBreakReadsBack(s: Settings, level: nat, value: Text, i: nat, run: Run, allowBreaks: bool,
                              pen: Pen, place: Place, read: Text, rest: Text) returns (place': Place)
    requires i < |value| && IsOrdinary(s, value[i]) && IsBreak(value[i])
    requires run == Run(false, true) && KeepsBreaks(place) && read + Pending(place) == value[..i]
    requires s.lineBreak.CrBreak? ==> At(rest, 0) != LF
    ensures Undone(value, i, Step(s, level, value, i, run, allowBreaks, pen), run, pen, place, read, rest, place', read)
  {
    hide Step, InText, InBlanks, IsOrdinary, WrittenBreak;
    var c := value[i];
    assert value[..i] + [c] == value[..i + 1];
    var text := WrittenBreak(s, c);
    var ink := Step(s, level, value, i, run, allowBreaks, pen);
    FurtherBreakStep(s, level, value, i, run, allowBreaks, pen);
    place' := place.(trailingBreaks := place.trailingBreaks + [c]);
    BreaksGrow(place, c);
    assert read + (Pending(place) + [c]) == (read + Pending(place)) + [c];
    BlanksReadBreak(s, c, rest, pen.column, read, place.leadingBreak, place.trailingBreaks);
  }

  /** One turn of the writing loop is undone by the scanner. */
  lemma StepReadsBack(s: Settings, level: nat, value: Text, i: nat, run: Run, allowBreaks: bool,
                      pen: Pen, place: Place, read: Text, rest: Text) returns (place': Place, read': Text)
    requires i < |value| && level > 0 && SingleQuotedAllowed(s, value) && RunFits(value, i, run)
    requires PenInside(run, pen) && InStep(value, i, run, place, read)
    requires s.lineBreak.CrBreak? ==> At(rest, 0) != LF
    ensures Undone(value, i, Step(s, level, value, i, run, allowBreaks, pen), run, pen, place, read, rest, place', read')
  {
    hide Step;
    var c := value[i];
    read' := read;
    assert CleanAt(s, value, i);
    if c == SPACE {
      place' := SpaceReadsBack(s, level, value, i, run, allowBreaks, pen, place, read, rest);
    } else if IsBreak(c) {
      assert i > 0 ==> CleanAt(s, value, i - 1);
      if run.breaks {
        place' := FurtherBreakReadsBack(s, level, value, i, run, allowBreaks, pen, place, read, rest);
      } else {
        assert read + [] == read;
        place' := FirstBreakReadsBack(s, level, value, i, run, allowBreaks, pen, read, rest);
      }
    } else {
      LetterReadsBack(s, level, value, i, run, allowBreaks, pen, place, read, rest);
      place', read' := TextPlace, value[..i + 1];
    }
  }

  /** A turn never starts with a NUL, and with a line feed only in the LF style. */
  lemma StepStart(s: Settings, level: nat, value: Text, i: nat, run: Run, allowBreaks: bool, pen: Pen)
    requires i < |value| && CleanAt(s, value, i)
    ensures var text := Step(s, level, value, i, run, allowBreaks, pen).text;
      (s.lineBreak.CrBreak? ==> At(text, 0) != LF) && (i == 0 ==> text != [] && text[0] != NUL)
  {
  }

  lemma BodyStart(s: Settings, level: nat, value: Text, i: nat, run: Run, allowBreaks: bool, pen: Pen, tail: Text)
    requires i <= |value| && SingleQuotedAllowed(s, value)
    ensures var text := Body(s, level, value, i, run, allowBreaks, pen).text + [SQUOTE] + tail;
      (s.lineBreak.CrBreak? ==> At(text, 0) != LF) && (i == 0 ==> At(text, 0) != NUL)
    decreases |value| - i
  {
    hide Step, CleanAt;
    if i < |value| {
      var ink := Step(s, level, value, i, run, allowBreaks, pen);
      StepStart(s, level, value, i, run, allowBreaks, pen);
      var rest := Body(s, level, value, i + 1, NextRun(value[i], run), allowBreaks, ink.pen).text + [SQUOTE] + tail;
      assert Body(s, level, value, i, run, allowBreaks, pen).text + [SQUOTE] + tail == ink.text + rest;
      if ink.text == [] {
        assert ink.text + rest == rest;
        BodyStart(s, level, value, i + 1, NextRun(value[i], run), allowBreaks, ink.pen, tail);
      } else {
        assert At(ink.text + rest, 0) == At(ink.text, 0);
      }
    }
  }

  /** Behind the last character the closing quote ends the scan. */
  lemma QuoteEnds(value: Text, run: Run, place: Place, read: Text, column: nat, tail: Text)
    requires InStep(value, |value|, run, place, read) && At(tail, 0) != SQUOTE
    ensures Resume(true, place, [SQUOTE] + tail, column, read) == Scanned(value, column + 1, tail)
  {
    var input := [SQUOTE] + tail;
    assert input[1..] == tail;
    ResumeText(true, place, input, column, read);
    assert value[..|value|] == value;
  }

  lemma {:induction false} BodyReadsBack(s: Settings, level: nat, value: Text, i: nat, run: Run, allowBreaks: bool,
                                         pen: Pen, place: Place, read: Text, tail: Text)
    requires i <= |value| && level > 0 && SingleQuotedAllowed(s, value) && RunFits(value, i, run)
    requires PenInside(run, pen) && InStep(value, i, run, place, read)
    requires At(tail, 0) != SQUOTE
    ensures var body := Body(s, level, value, i, run, allowBreaks, pen);
      Resume(true, place, body.text + [SQUOTE] + tail, pen.column, read) == Scanned(value, body.pen.column + 1, tail)
    decreases |value| - i
  {
    hide Step, CleanAt, InText, InBlanks, SingleQuotedAllowed, RunFits, PenInside;
    var body := Body(s, level, value, i, run, allowBreaks, pen);
    var input := body.text + [SQUOTE] + tail;
    if i == |value| {
      assert input == [SQUOTE] + tail;
      QuoteEnds(value, run, place, read, pen.column, tail);
    } else {
      var ink := Step(s, level, value, i, run, allowBreaks, pen);
      var run' := NextRun(value[i], run);
      var next := Body(s, level, value, i + 1, run', allowBreaks, ink.pen);
      var rest := next.text + [SQUOTE] + tail;
      assert input == ink.text + rest;
      BodyStart(s, level, value, i + 1, run', allowBreaks, ink.pen, tail);
      var place', read' := StepReadsBack(s, level, value, i, run, allowBreaks, pen, place, read, rest);
      BodyReadsBack(s, level, value, i + 1, run', allowBreaks, ink.pen, place', read', tail);
    }
  }

  /**
    The round trip of the whole scalar, from its opening quote to the text behind its closing
    one, which must not be a quote itself: two quotes would be read as one inside the scalar.
   */
  lemma SingleQuotedRoundTrip(s: Settings, level: nat, value: Text, allowBreaks: bool, pen: Pen, tail: Text)
    requires level > 0 && SingleQuotedAllowed(s, value) && At(tail, 0) != SQUOTE
    ensures var ink := Written(s, level, value, allowBreaks, pen);
      var gap := if pen.whitespace then 0 else 1;
      && |ink.text| > gap
      && ink.text[..gap] == Repeat(SPACE, gap)
      && Scan(true, ink.text[gap..] + tail, pen.column + gap) == Scanned(value, ink.pen.column, tail)
  {
    hide Body, InText, InBlanks, CleanAt;
    var ink := Written(s, level, value, allowBreaks, pen);
    var gap := if pen.whitespace then 0 else 1;
    var open := WriteIndicator([SQUOTE], true, false, false, pen);
    var body := Body(s, level, value, 0, Run(false, false), allowBreaks, open.pen);
    var input := body.text + [SQUOTE] + tail;
    assert ink.text[gap..] + tail == [SQUOTE] + input;
    BodyReadsBack(s, level, value, 0, Run(false, false), allowBreaks, open.pen, TextPlace, [], tail);
    BodyStart(s, level, value, 0, Run(false, false), allowBreaks, open.pen, tail);
  }
}
