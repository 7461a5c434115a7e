/**
  Scanning what the emitter wrote as a folded scalar gives back the scalar (YAML 1.1, section
  9.3.2) if and only if no line that starts with a space is folded: the scanner takes the break
  of such a fold for one of the value.
 */
module FoldedRoundTrip {
  import opened Chars
  import opened Printing
  import opened LineBreaks
  import opened ScalarAnalysis
  import opened BlockScanner
  import opened LiteralRoundTrip
  import opened Folded
  import Literal

  /** From character `i` on the writer folds no line that started with a space. */
  predicate KeepsSpacedLines(s: Settings, level: int, value: Text, i: nat, run: Run, pen: Pen)
    requires i <= |value|
    decreases |value| - i
  {
    i == |value|
    || (!(run.leadingSpaces && Folded.Folds(s, value, i, run, pen))
        && KeepsSpacedLines(s, level, value, i + 1, Folded.NextRun(value[i], run), Folded.Step(s, level, value, i, run, pen).pen))
  }

  /** Where the line breaks around `i` end there is a blank or the end, so none of them is doubled. */
  predicate BlankBehind(value: Text, i: nat) {
    IsBlankZ(At(value, BreaksEnd(value, i)))
  }

  /** The breaks that were read stand for those of the value: doubled, the first of them does not. */
  ghost predicate BreaksFit(value: Text, i: nat, place: Place, read: Text)
    requires i <= |value| && place.BreakPlace?
  {
    && BreaksOnly(place.leadingBreak + place.breaks)
    && if place.leadingBreak == [LF] && !place.leadingBlank && !BlankBehind(value, i) then
         place.breaks != [] && read + place.breaks == value[..i]
       else
         |place.leadingBreak| <= 1 && read + place.leadingBreak + place.breaks == value[..i]
  }

  /** The writer's flags and the scanner's place agree. */
  ghost predicate FoldedInStep(level: nat, value: Text, i: nat, run: Run, pen: Pen, place: Place, read: Text)
    requires i <= |value|
  {
    && pen.whitespace && run.breaks == place.BreakPlace?
    && (place.LinePlace? ==> read == value[..i] && !pen.indention && place.leadingBlank == run.leadingSpaces)
    && (place.BreakPlace? ==>
          && BreaksFit(value, i, place, read) && pen == Pen(0, true, true)
          && (place.leadingBreak == [] ==> read == [] && !place.leadingBlank)
          && (place.leadingBreak != [] ==> place.leadingBlank == run.leadingSpaces)
          && (place.leadingBreak == [] ==> run.leadingSpaces)
          && (place.indent == level
              || (place.indent == 0 && place.leadingBreak == [] && place.breaks == []
                  && At(value, i) != SPACE && !IsBreak(At(value, i)) && i < |value|)))
  }

  ghost predicate FoldedFits(s: Settings, shape: Shape, level: nat) {
    && s.Normal() && !shape.literal && shape.parserIndent >= -1
    && level == IncreasedIndent(s, shape.parserIndent, true, false)
  }

  ghost predicate FoldedUndone(shape: Shape, level: nat, value: Text, i: nat, ink: Ink, run: Run, pen: Pen,
                               place: Place, read: Text, rest: Text, place': Place, read': Text)
    requires i < |value|
  {
    && Resume(shape, level, place, ink.text + rest, pen.column, read)
       == Resume(shape, level, place', rest, ink.pen.column, read')
    && FoldedInStep(level, value, i + 1, Folded.NextRun(value[i], run), ink.pen, place', read')
  }

  // ----- What a turn writes

  lemma StepText(s: Settings, level: nat, value: Text, i: nat, run: Run, pen: Pen)
    requires i < |value| && level > 0 && BlockClean(s, value, i) && pen.whitespace
    requires if run.breaks then pen == Pen(0, true, true) else !pen.indention
    ensures var ink := Folded.Step(s, level, value, i, run, pen);
      if IsBreak(value[i]) then
        ink == Ink((if Doubles(value, i, run) then BreakText(s.lineBreak) else []) + WrittenBreak(s, value[i]), Pen(0, true, true))
      else if run.breaks then ink == Ink(Repeat(SPACE, level) + [value[i]], Pen(level + 1, true, false))
      else if Folded.Folds(s, value, i, run, pen) then ink == Ink(BreakText(s.lineBreak) + Repeat(SPACE, level), Pen(level, true, false))
      else ink == Ink([value[i]], Pen(pen.column + 1, true, false))
  {
    assert [] + [value[i]] == [value[i]];
  }

  // ----- A first letter behind breaks

  /** The letter behind the breaks ends them. */
  lemma LetterEndsBreaks(s: Settings, value: Text, i: nat)
    requires i < |value| && BlockClean(s, value, i) && !IsBreak(value[i])
    ensures BreaksEnd(value, i) == i && (BlankBehind(value, i) <==> IsBlank(value[i]))
  {
  }

  lemma JoinedIsValue(s: Settings, shape: Shape, value: Text, i: nat, place: Place, read: Text)
    requires i < |value| && BlockClean(s, value, i) && !IsBreak(value[i]) && !shape.literal
    requires place.BreakPlace? && BreaksFit(value, i, place, read)
    ensures JoinBreaks(shape, read, place.leadingBreak, place.leadingBlank || IsBlank(value[i]), place.breaks) == value[..i]
  {
    LetterEndsBreaks(s, value, i);
    if place.leadingBreak != [LF] {
      assert At(place.leadingBreak, 0) != LF;
    }
  }

  /** The first letter of a line, behind its indent. */
  lemma ReadsFoldedLineStart(s: Settings, shape: Shape, level: nat, indent: nat, c: Char, rest: Text,
                             value: Text, lead: Text, blank: bool, breaks: Text)
    requires FoldedFits(s, shape, level) && IsPrintable(c) && !IsBreak(c)
    requires indent == level || (indent == 0 && c != SPACE)
    ensures InBreaks(shape, indent, Repeat(SPACE, level) + ([c] + rest), 0, 0, value, lead, blank, breaks)
         == InLine(shape, level, rest, level + 1, JoinBreaks(shape, value, lead, blank || IsBlank(c), breaks) + [c], IsBlank(c))
  {
    var line := [c] + rest;
    EatsIndent(shape, indent, level, line, 0, value, lead, blank, breaks);
    assert InBreaks(shape, indent, line, level, 0, value, lead, blank, breaks)
        == AtLine(shape, level, line, level, value, lead, blank, breaks);
    var joined := JoinBreaks(shape, value, lead, blank || IsBlank(c), breaks);
    assert AtLine(shape, level, line, level, value, lead, blank, breaks) == InLine(shape, level, line, level, joined, IsBlank(c));
    assert line[1..] == rest;
  }

  lemma FirstFoldedLetter(s: Settings, shape: Shape, level: nat, value: Text, i: nat, run: Run, pen: Pen,
                          place: Place, read: Text, rest: Text)
    requires FoldedFits(s, shape, level) && i < |value| && BlockClean(s, value, i) && run.breaks && !IsBreak(value[i])
    requires FoldedInStep(level, value, i, run, pen, place, read)
    ensures FoldedUndone(shape, level, value, i, Folded.Step(s, level, value, i, run, pen), run, pen, place, read, rest,
                         LinePlace(IsBlank(value[i])), value[..i + 1])
  {
    hide InBreaks, InLine, BreaksFit, Folded.Step, JoinBreaks;
    var c := value[i];
    StepText(s, level, value, i, run, pen);
    JoinedIsValue(s, shape, value, i, place, read);
    ReadsFoldedLineStart(s, shape, level, place.indent, c, rest, read, place.leadingBreak, place.leadingBlank, place.breaks);
    assert Folded.Step(s, level, value, i, run, pen).text + rest == Repeat(SPACE, level) + ([c] + rest);
    assert value[..i] + [c] == value[..i + 1];
  }

  lemma FurtherFoldedLetter(s: Settings, shape: Shape, level: nat, value: Text, i: nat, run: Run, pen: Pen,
                            place: Place, read: Text, rest: Text)
    requires level > 0 && i < |value| && BlockClean(s, value, i) && !run.breaks && !IsBreak(value[i])
    requires FoldedInStep(level, value, i, run, pen, place, read) && !Folded.Folds(s, value, i, run, pen)
    ensures FoldedUndone(shape, level, value, i, Folded.Step(s, level, value, i, run, pen), run, pen, place, read, rest,
                         place, value[..i + 1])
  {
    hide InBreaks, Folded.Step, BreaksFit;
    var c := value[i];
    StepText(s, level, value, i, run, pen);
    assert ([c] + rest)[1..] == rest;
    assert value[..i] + [c] == value[..i + 1];
  }

  // ----- Line breaks

  /** A run of breaks ends where the rest of it ends. */
  lemma SameEnd(value: Text, i: nat)
    requires i < |value| && IsBreak(value[i])
    ensures BreaksEnd(value, i) == BreaksEnd(value, i + 1) && BlankBehind(value, i) == BlankBehind(value, i + 1)
  {
  }

  lemma FirstFoldedBreak(s: Settings, shape: Shape, level: nat, value: Text, i: nat, run: Run, pen: Pen,
                         place: Place, read: Text, rest: Text) returns (place': Place)
    requires level > 0 && i < |value| && BlockClean(s, value, i) && IsBreak(value[i]) && !run.breaks
    requires FoldedInStep(level, value, i, run, pen, place, read)
    requires s.lineBreak.CrBreak? ==> At(rest, 0) != LF
    ensures FoldedUndone(shape, level, value, i, Folded.Step(s, level, value, i, run, pen), run, pen, place, read, rest, place', read)
  {
    hide InBreaks, InLine, Folded.Step, BreaksEnd, WrittenBreak, BlankBehind;
    var c := value[i];
    StepText(s, level, value, i, run, pen);
    SameEnd(value, i);
    assert value[..i] + [c] == value[..i + 1];
    if Doubles(value, i, run) {
      DoublesIs(value, i, run);
      var first := BreakText(s.lineBreak);
      LineFeedText(s);
      place' := ReadsBreak(s, shape, level, LF, place, pen.column, read, first + rest);
      assert first + first + rest == first + (first + rest);
      place' := ReadsBreak(s, shape, level, LF, place', 0, read, rest);
      assert [] + [LF] == [LF];
    } else {
      DoublesIs(value, i, run);
      place' := ReadsBreak(s, shape, level, c, place, pen.column, read, rest);
      assert [] + WrittenBreak(s, c) == WrittenBreak(s, c);
      assert read + [c] + [] == read + [c] && [c] + [] == [c];
    }
  }

  lemma LineFeedText(s: Settings)
    ensures WrittenBreak(s, LF) == BreakText(s.lineBreak)
    ensures forall rest: Text :: s.lineBreak.CrBreak? ==> At(BreakText(s.lineBreak) + rest, 0) != LF
  {
  }

  lemma DoublesIs(value: Text, i: nat, run: Run)
    requires i < |value|
    ensures Doubles(value, i, run) <==> !run.breaks && !run.leadingSpaces && value[i] == LF && !BlankBehind(value, i)
  {
  }

  lemma FurtherFoldedBreak(s: Settings, shape: Shape, level: nat, value: Text, i: nat, run: Run, pen: Pen,
                           place: Place, read: Text, rest: Text) returns (place': Place)
    requires level > 0 && i < |value| && BlockClean(s, value, i) && IsBreak(value[i]) && run.breaks
    requires FoldedInStep(level, value, i, run, pen, place, read)
    requires s.lineBreak.CrBreak? ==> At(rest, 0) != LF
    ensures FoldedUndone(shape, level, value, i, Folded.Step(s, level, value, i, run, pen), run, pen, place, read, rest, place', read)
  {
    hide InBreaks, InLine, Folded.Step, BreaksEnd, WrittenBreak, BlankBehind;
    var c := value[i];
    StepText(s, level, value, i, run, pen);
    SameEnd(value, i);
    DoublesIs(value, i, run);
    assert [] + WrittenBreak(s, c) == WrittenBreak(s, c);
    place' := ReadsBreak(s, shape, level, c, place, pen.column, read, rest);
    MoreBreaks(value, i, place, read);
  }

  lemma MoreBreaks(value: Text, i: nat, place: Place, read: Text)
    requires i < |value| && IsBreak(value[i]) && place.BreakPlace? && BreaksFit(value, i, place, read)
    ensures BreaksFit(value, i + 1, place.(breaks := place.breaks + [value[i]]), read)
  {
    var c := value[i];
    SameEnd(value, i);
    assert value[..i] + [c] == value[..i + 1];
    assert read + (place.breaks + [c]) == (read + place.breaks) + [c];
    assert read + place.leadingBreak + (place.breaks + [c]) == (read + place.leadingBreak + place.breaks) + [c];
    assert place.leadingBreak + (place.breaks + [c]) == (place.leadingBreak + place.breaks) + [c];
  }

  // ----- Folds

  /** A letter stands behind a space that is folded. */
  lemma FoldedSpaceIsInside(s: Settings, value: Text, i: nat, run: Run, pen: Pen)
    requires BlockAllowed(s, value) && i < |value| && Folded.Folds(s, value, i, run, pen)
    ensures i + 1 < |value| && !IsBlankZ(value[i + 1]) && value[i] == SPACE
  {
    assert BlockClean(s, value, i);
    if i + 1 < |value| {
      assert BlockClean(s, value, i + 1);
    }
  }

  /** A fold is read as a space, or behind a line that starts with one as a line feed. */
  lemma ReadsFold(s: Settings, shape: Shape, level: nat, blank: bool, column: nat, read: Text, rest: Text)
    requires level > 0 && !shape.literal && !IsBlankZ(At(rest, 0))
    ensures InLine(shape, level, BreakText(s.lineBreak) + Repeat(SPACE, level) + rest, column, read, blank)
      == InLine(shape, level, rest, level, read + [if blank then LF else SPACE], false)
  {
    var after := Repeat(SPACE, level) + rest;
    var input := BreakText(s.lineBreak) + after;
    assert BreakText(s.lineBreak) + Repeat(SPACE, level) + rest == input;
    ReadsBreakText(s, after);
    assert InLine(shape, level, input, column, read, blank) == InBreaks(shape, level, after, 0, 0, read, [LF], blank, []);
    EatsIndent(shape, level, level, rest, 0, read, [LF], blank, []);
    assert InBreaks(shape, level, rest, level, 0, read, [LF], blank, []) == AtLine(shape, level, rest, level, read, [LF], blank, []);
    assert read + [SPACE] + [] == read + [SPACE] && read + [LF] + [] == read + [LF];
  }

  // ----- The loop

  function BodyText(s: Settings, level: int, value: Text, i: nat, run: Run, pen: Pen, tail: Text): Text
    requires i <= |value|
  {
    Folded.Body(s, level, value, i, run, pen).text + tail
  }

  predicate PenFits(run: Run, pen: Pen) {
    pen.whitespace && if run.breaks then pen == Pen(0, true, true) else !pen.indention
  }

  lemma TextUnfolds(s: Settings, level: nat, value: Text, i: nat, run: Run, pen: Pen, tail: Text)
    requires i < |value|
    ensures var ink := Folded.Step(s, level, value, i, run, pen);
      BodyText(s, level, value, i, run, pen, tail) == ink.text + BodyText(s, level, value, i + 1, Folded.NextRun(value[i], run), ink.pen, tail)
  {
    hide Folded.Step;
  }

  /** What is written from character `i` on starts with a line feed only in the LF style. */
  lemma FoldedStart(s: Settings, level: nat, value: Text, i: nat, run: Run, pen: Pen, tail: Text)
    requires level > 0 && i <= |value| && PenFits(run, pen) && forall k :: i <= k < |value| ==> BlockClean(s, value, k)
    requires s.lineBreak.CrBreak? ==> At(tail, 0) != LF
    ensures s.lineBreak.CrBreak? ==> At(BodyText(s, level, value, i, run, pen, tail), 0) != LF
    ensures i < |value| && !run.breaks && value[i] != SPACE && !IsBreak(value[i]) ==>
      At(BodyText(s, level, value, i, run, pen, tail), 0) == value[i]
  {
    hide Folded.Step, Doubles;
    if i < |value| {
      assert BlockClean(s, value, i);
      StepText(s, level, value, i, run, pen);
      TextUnfolds(s, level, value, i, run, pen, tail);
    } else {
      assert BodyText(s, level, value, i, run, pen, tail) == tail;
    }
  }

  /** One turn that folds no line starting with a space is undone by the scanner. */
  lemma FoldedStepReadsBack(s: Settings, shape: Shape, level: nat, value: Text, i: nat, run: Run, pen: Pen,
                            place: Place, read: Text, tail: Text) returns (place': Place, read': Text)
    requires FoldedFits(s, shape, level) && BlockAllowed(s, value) && i < |value|
    requires FoldedInStep(level, value, i, run, pen, place, read) && (s.lineBreak.CrBreak? ==> At(tail, 0) != LF)
    requires !(run.leadingSpaces && Folded.Folds(s, value, i, run, pen))
    ensures var ink := Folded.Step(s, level, value, i, run, pen);
      var rest := BodyText(s, level, value, i + 1, Folded.NextRun(value[i], run), ink.pen, tail);
      && FoldedUndone(shape, level, value, i, ink, run, pen, place, read, rest, place', read')
      && PenFits(Folded.NextRun(value[i], run), ink.pen)
  {
    hide InBreaks, InLine, Folded.Step, Folded.Folds, FoldedInStep, BodyText, Doubles, FoldedUndone, BlockClean;
    place', read' := place, read;
    PenIs(level, value, i, run, pen, place, read);
    assert forall k :: i <= k < |value| ==> BlockClean(s, value, k);
    var ink := Folded.Step(s, level, value, i, run, pen);
    var run' := Folded.NextRun(value[i], run);
    var rest := BodyText(s, level, value, i + 1, run', ink.pen, tail);
    StepText(s, level, value, i, run, pen);
    FoldedStart(s, level, value, i + 1, run', ink.pen, tail);
    if IsBreak(value[i]) {
      if run.breaks {
        place' := FurtherFoldedBreak(s, shape, level, value, i, run, pen, place, read, rest);
      } else {
        place' := FirstFoldedBreak(s, shape, level, value, i, run, pen, place, read, rest);
      }
    } else if run.breaks {
      FirstFoldedLetter(s, shape, level, value, i, run, pen, place, read, rest);
      place', read' := LinePlace(IsBlank(value[i])), value[..i + 1];
    } else if Folded.Folds(s, value, i, run, pen) {
      FoldedSpaceIsInside(s, value, i, run, pen);
      FoldReadsBack(s, shape, level, value, i, run, pen, place, read, rest);
      read' := value[..i + 1];
    } else {
      FurtherFoldedLetter(s, shape, level, value, i, run, pen, place, read, rest);
      read' := value[..i + 1];
    }
  }

  lemma PenIs(level: nat, value: Text, i: nat, run: Run, pen: Pen, place: Place, read: Text)
    requires i <= |value| && FoldedInStep(level, value, i, run, pen, place, read)
    ensures PenFits(run, pen)
  {
  }

  lemma FoldReadsBack(s: Settings, shape: Shape, level: nat, value: Text, i: nat, run: Run, pen: Pen,
                      place: Place, read: Text, rest: Text)
    requires FoldedFits(s, shape, level) && i < |value| && BlockClean(s, value, i) && Folded.Folds(s, value, i, run, pen)
    requires FoldedInStep(level, value, i, run, pen, place, read) && !run.leadingSpaces && !IsBlankZ(At(rest, 0))
    ensures FoldedUndone(shape, level, value, i, Folded.Step(s, level, value, i, run, pen), run, pen, place, read, rest,
                         place, value[..i + 1])
  {
    hide InLine, InBreaks, Folded.Step, BreaksFit;
    StepText(s, level, value, i, run, pen);
    ReadsFold(s, shape, level, false, pen.column, read, rest);
    assert value[..i] + [SPACE] == value[..i + 1];
  }

  /** The value is not what was scanned. */
  predicate Misread(outcome: Scanned, value: Text) {
    outcome.Scanned? ==> outcome.value != value
  }

  /** The scanner is behind the value, in step with it. */
  ghost predicate ReadToEnd(shape: Shape, level: nat, value: Text, body: Ink, run: Run, outcome: Scanned, tail: Text, place: Place, read: Text) {
    && outcome == Resume(shape, level, place, tail, body.pen.column, read)
    && FoldedInStep(level, value, |value|, run, body.pen, place, read)
    && (value != [] ==> run.breaks == IsBreak(value[|value| - 1]))
  }

  /** All turns are undone, or one that folds a line starting with a space is not. */
  lemma {:induction false} FoldedBodyReadsBack(s: Settings, shape: Shape, level: nat, value: Text, i: nat, run: Run, pen: Pen,
                                               place: Place, read: Text, tail: Text)
    returns (run': Run, place': Place, read': Text)
    requires FoldedFits(s, shape, level) && BlockAllowed(s, value) && i <= |value|
    requires FoldedInStep(level, value, i, run, pen, place, read) && (s.lineBreak.CrBreak? ==> At(tail, 0) != LF)
    requires i > 0 ==> run.breaks == IsBreak(value[i - 1])
    ensures var outcome := Resume(shape, level, place, BodyText(s, level, value, i, run, pen, tail), pen.column, read);
      if KeepsSpacedLines(s, level, value, i, run, pen) then
        ReadToEnd(shape, level, value, Folded.Body(s, level, value, i, run, pen), run', outcome, tail, place', read')
      else Misread(outcome, value)
    decreases |value| - i
  {
    hide InLine, InBreaks, Resume, Folded.Step, Folded.Folds, FoldedInStep, FoldedFits, BlockAllowed, Misread;
    run', place', read' := run, place, read;
    if i == |value| {
      assert BodyText(s, level, value, i, run, pen, tail) == tail;
    } else if run.leadingSpaces && Folded.Folds(s, value, i, run, pen) {
      SpacedFoldIsMisread(s, shape, level, value, i, run, pen, place, read, tail);
    } else {
      var ink := Folded.Step(s, level, value, i, run, pen);
      var next := Folded.NextRun(value[i], run);
      TextUnfolds(s, level, value, i, run, pen, tail);
      var place1, read1 := FoldedStepReadsBack(s, shape, level, value, i, run, pen, place, read, tail);
      run', place', read' := FoldedBodyReadsBack(s, shape, level, value, i + 1, next, ink.pen, place1, read1, tail);
    }
  }

  // ----- A misread fold

  /** What has been read stays at the start of the value. */
  lemma {:induction false} LineKeepsRead(shape: Shape, indent: nat, input: Text, column: nat, value: Text, blank: bool)
    ensures var r := InLine(shape, indent, input, column, value, blank); r.Scanned? ==> value <= r.value
    decreases |input|, if At(input, 0) == NUL then 3 else 0
  {
    hide InBreaks;
    var c := At(input, 0);
    if c == NUL {
      BreaksKeepRead(shape, indent, input, column, 0, value, [], blank, []);
    } else if IsBreak(c) {
      BreaksKeepRead(shape, indent, input[BreakLength(input)..], 0, 0, value, [BreakValue(c)], blank, []);
    } else {
      LineKeepsRead(shape, indent, input[1..], column + 1, value + [c], blank);
    }
  }

  lemma {:induction false} BreaksKeepRead(shape: Shape, indent: nat, input: Text, column: nat, deepest: nat, value: Text,
                                          lead: Text, blank: bool, breaks: Text)
    ensures var r := InBreaks(shape, indent, input, column, deepest, value, lead, blank, breaks); r.Scanned? ==> value <= r.value
    decreases |input|, 2
  {
    hide AtLine, DetectedIndent;
    var c := At(input, 0);
    if (indent == 0 || column < indent) && c == SPACE {
      BreaksKeepRead(shape, indent, input[1..], column + 1, deepest, value, lead, blank, breaks);
    } else if IsBreak(c) {
      BreaksKeepRead(shape, indent, input[BreakLength(input)..], 0, if column > deepest then column else deepest, value, lead, blank,
                     breaks + [BreakValue(c)]);
    } else {
      var deepest := if column > deepest then column else deepest;
      StartKeepsRead(shape, if indent == 0 then DetectedIndent(shape, deepest) else indent, input, column, value, lead, blank, breaks);
    }
  }

  lemma {:induction false} StartKeepsRead(shape: Shape, indent: nat, input: Text, column: nat, value: Text,
                                          lead: Text, blank: bool, breaks: Text)
    ensures var r := AtLine(shape, indent, input, column, value, lead, blank, breaks); r.Scanned? ==> value <= r.value
    decreases |input|, 1
  {
    hide InLine;
    var c := At(input, 0);
    if column == indent && c != NUL {
      LineKeepsRead(shape, indent, input, column, JoinBreaks(shape, value, lead, blank || IsBlank(c), breaks), IsBlank(c));
    }
  }

  /** The scanner has a line feed where the value has a space. */
  lemma SpacedFoldIsMisread(s: Settings, shape: Shape, level: nat, value: Text, i: nat, run: Run, pen: Pen,
                            place: Place, read: Text, tail: Text)
    requires FoldedFits(s, shape, level) && BlockAllowed(s, value) && i < |value|
    requires FoldedInStep(level, value, i, run, pen, place, read) && (s.lineBreak.CrBreak? ==> At(tail, 0) != LF)
    requires run.leadingSpaces && Folded.Folds(s, value, i, run, pen)
    ensures Misread(Resume(shape, level, place, BodyText(s, level, value, i, run, pen, tail), pen.column, read), value)
  {
    hide InLine, InBreaks, Folded.Step, BodyText, BreaksFit, BlockClean;
    assert forall k :: i <= k < |value| ==> BlockClean(s, value, k);
    var ink := Folded.Step(s, level, value, i, run, pen);
    var run' := Folded.NextRun(value[i], run);
    var rest := BodyText(s, level, value, i + 1, run', ink.pen, tail);
    FoldedSpaceIsInside(s, value, i, run, pen);
    StepText(s, level, value, i, run, pen);
    FoldedStart(s, level, value, i + 1, run', ink.pen, tail);
    TextUnfolds(s, level, value, i, run, pen, tail);
    ReadsFold(s, shape, level, true, pen.column, read, rest);
    LineKeepsRead(shape, level, rest, level, read + [LF], false);
    var outcome := InLine(shape, level, rest, level, read + [LF], false);
    if outcome.Scanned? {
      assert (read + [LF])[i] == LF && value[i] == SPACE;
    }
  }

  // ----- The whole scalar

  const START := Run(true, true)
  const START_PEN := Pen(0, true, true)

  /** At the end the scanner is where it would be behind a literal. */
  lemma EndsLikeLiteral(s: Settings, level: nat, value: Text, run: Run, pen: Pen, place: Place, read: Text)
    requires value != [] && FoldedInStep(level, value, |value|, run, pen, place, read) && run.breaks == IsBreak(value[|value| - 1])
    ensures LiteralRoundTrip.InStep(s, level, value, |value|, IsBreak(value[|value| - 1]), pen, place, read) && pen.whitespace
  {
    match place
    case LinePlace(_) => assert read + [] == read;
    case BreakPlace(_, lead, _, breaks) => assert read + lead + breaks == read + (lead + breaks);
  }

  lemma TailStart(s: Settings, next: Next, pen: Pen, level: nat)
    requires NextFits(next, level)
    ensures s.lineBreak.CrBreak? ==> At(NextText(s, next, pen), 0) != LF
  {
  }

  lemma StartInStep(s: Settings, level: nat, value: Text)
    requires s.Normal() && BlockAllowed(s, value)
    ensures var indent := if Literal.IndentHint(s, value) == [] then 0 else level;
      FoldedInStep(level, value, 0, START, START_PEN, BreakPlace(indent, [], false, []), [])
  {
  }

  /** The lines behind the header. */
  lemma FoldedLinesReadBack(s: Settings, shape: Shape, level: nat, value: Text, next: Next)
    requires FoldedFits(s, shape, level) && BlockAllowed(s, value) && shape.chomping == AnnouncedChomping(value)
    requires NextFits(next, level)
    ensures var body := Folded.Body(s, level, value, 0, START, START_PEN);
      var indent := if Literal.IndentHint(s, value) == [] then 0 else level;
      InBreaks(shape, indent, body.text + NextText(s, next, body.pen), 0, 0, [], [], false, []) == NextScanned(value, next, body.pen)
      <==> KeepsSpacedLines(s, level, value, 0, START, START_PEN)
  {
    hide InBreaks, InLine, FoldedInStep, KeepsSpacedLines, Folded.Body, Literal.IndentHint, AnnouncedChomping;
    var indent := if Literal.IndentHint(s, value) == [] then 0 else level;
    var body := Folded.Body(s, level, value, 0, START, START_PEN);
    var tail := NextText(s, next, body.pen);
    TailStart(s, next, body.pen, level);
    StartInStep(s, level, value);
    var run, place, read := FoldedBodyReadsBack(s, shape, level, value, 0, START, START_PEN, BreakPlace(indent, [], false, []), [], tail);
    if KeepsSpacedLines(s, level, value, 0, START, START_PEN) {
      EndsLikeLiteral(s, level, value, run, body.pen, place, read);
      match next
      case StreamEnd => EndOfStream(s, shape, level, value, body.pen, place, read);
      case TokenAt(k, token) => EndBeforeToken(s, shape, level, value, body.pen, place, read, k, token);
    }
  }

  /**
    The round trip of the whole scalar under a node at `parent`, from `>` up to the end of the
    stream or the next token: the value comes back if and only if no line that starts with a
    space is folded.
   */
  lemma FoldedRoundTrip(s: Settings, parent: int, value: Text, pen: Pen, next: Next)
    requires s.Normal() && parent >= -1 && BlockAllowed(s, value)
    requires NextFits(next, IncreasedIndent(s, parent, true, false))
    ensures var level := IncreasedIndent(s, parent, true, false);
      var ink := Folded.Written(s, level, value, pen);
      var gap := if pen.whitespace then 0 else 1;
      && |ink.text| > gap
      && ink.text[..gap] == Repeat(SPACE, gap)
      && (Scan(false, parent, ink.text[gap..] + NextText(s, next, ink.pen), pen.column + gap) == NextScanned(value, next, ink.pen)
          <==> KeepsSpacedLines(s, level, value, 0, START, START_PEN))
  {
    hide InBreaks, Folded.Body, Scan, Literal.IndentHint, Literal.ChompHint, KeepsSpacedLines, Literal.BlockHeader;
    var level := IncreasedIndent(s, parent, true, false);
    var gap := if pen.whitespace then 0 else 1;
    HeaderPieces(s, GREATER, value, pen);
    var body := Folded.Body(s, level, value, 0, START, START_PEN);
    var tail := NextText(s, next, body.pen);
    var lines := body.text + tail;
    DropGap(Repeat(SPACE, gap), [GREATER], Literal.IndentHint(s, value), Literal.ChompHint(value), BreakText(s.lineBreak), body.text, tail);
    FoldedLinesReadBack(s, Shape(false, AnnouncedChomping(value), parent), level, value, next);
    LinesStart(s, level, value, next);
    HeaderScanned(s, false, parent, value, lines, pen.column + gap);
  }

  lemma LinesStart(s: Settings, level: nat, value: Text, next: Next)
    requires level > 0 && BlockAllowed(s, value) && NextFits(next, level)
    ensures var body := Folded.Body(s, level, value, 0, START, START_PEN);
      s.lineBreak.CrBreak? ==> At(body.text + NextText(s, next, body.pen), 0) != LF
  {
    hide Folded.Body;
    var body := Folded.Body(s, level, value, 0, START, START_PEN);
    TailStart(s, next, body.pen, level);
    FoldedStart(s, level, value, 0, START, START_PEN, NextText(s, next, body.pen));
  }

  // ----- Values that are safe, and one that is not

  /** No line of the value starts with a space. */
  predicate NoSpacedLine(value: Text) {
    forall i :: 0 <= i < |value| && value[i] == SPACE ==> i > 0 && !IsBreak(value[i - 1])
  }

  /** Then nothing is misread, whatever the width. */
  lemma {:induction false} UnspacedLinesAreKept(s: Settings, level: int, value: Text, i: nat, run: Run, pen: Pen)
    requires i <= |value| && NoSpacedLine(value) && BlockAllowed(s, value)
    requires run.breaks == (i == 0 || IsBreak(value[i - 1])) && (run.leadingSpaces ==> run.breaks && forall k :: 0 <= k < i ==> IsBreak(value[k]))
    ensures KeepsSpacedLines(s, level, value, i, run, pen)
    decreases |value| - i
  {
    hide Folded.Step;
    if i < |value| {
      assert BlockClean(s, value, i);
      UnspacedLinesAreKept(s, level, value, i + 1, Folded.NextRun(value[i], run), Folded.Step(s, level, value, i, run, pen).pen);
    }
  }

  /** So such a value is always read back. */
  lemma UnspacedFoldedRoundTrip(s: Settings, parent: int, value: Text, pen: Pen, next: Next)
    requires s.Normal() && parent >= -1 && BlockAllowed(s, value) && NoSpacedLine(value)
    requires NextFits(next, IncreasedIndent(s, parent, true, false))
    ensures var ink := Folded.Written(s, IncreasedIndent(s, parent, true, false), value, pen);
      var gap := if pen.whitespace then 0 else 1;
      && |ink.text| > gap
      && Scan(false, parent, ink.text[gap..] + NextText(s, next, ink.pen), pen.column + gap) == NextScanned(value, next, ink.pen)
  {
    hide Scan, Folded.Written;
    FoldedRoundTrip(s, parent, value, pen, next);
    UnspacedLinesAreKept(s, IncreasedIndent(s, parent, true, false), value, 0, START, START_PEN);
  }

  /** A value that is misread: its one line starts with a space and is folded in width 5. */
  const SPACED: Text := [SPACE, 0x61, 0x62, 0x63, SPACE, 0x64]
  const NARROW := Settings(2, 5, LnBreak, true)

  lemma SpacedLineIsMisread()
    ensures BlockAllowed(NARROW, SPACED) && !KeepsSpacedLines(NARROW, 2, SPACED, 0, START, START_PEN)
  {
    hide Folded.Step;
    var run := Run(false, true);
    Unfolds(0, START, START_PEN, run, Pen(3, true, false));
    Unfolds(1, run, Pen(3, true, false), run, Pen(4, true, false));
    Unfolds(2, run, Pen(4, true, false), run, Pen(5, true, false));
    Unfolds(3, run, Pen(5, true, false), run, Pen(6, true, false));
    assert Folded.Folds(NARROW, SPACED, 4, run, Pen(6, true, false));
  }

  lemma Unfolds(i: nat, run: Run, pen: Pen, run': Run, pen': Pen)
    requires i < 4 && PenFits(run, pen) && run' == Folded.NextRun(SPACED[i], run)
    requires pen' == Pen((if run.breaks then 2 else pen.column) + 1, true, false) && (run.breaks || pen.column < 6)
    ensures KeepsSpacedLines(NARROW, 2, SPACED, i, run, pen) ==> KeepsSpacedLines(NARROW, 2, SPACED, i + 1, run', pen')
  {
    hide Folded.Step;
    StepText(NARROW, 2, SPACED, i, run, pen);
  }
}
