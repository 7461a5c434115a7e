/**
  Scanning what the emitter wrote as a plain scalar gives back the scalar (YAML 1.1, section
  9.1.3), whenever the analysis of the scalar allows the style.
 */
module PlainRoundTrip {
  import opened Chars
  import opened Printing
  import opened LineBreaks
  import opened ScalarAnalysis
  import Plain
  import opened SingleQuoted
  import opened PlainScanner
  import FlowScanner

  // ----- What the analysis says of each character

  predicate PlainAllowed(s: Settings, value: Text, flow: bool) {
    var a := Analyze(s, value);
    if flow then a.flowPlainAllowed else a.blockPlainAllowed
  }

  predicate FitsPlain(value: Text, i: nat, flow: bool)
    requires i < |value|
  {
    var c := value[i];
    && !IsBreak(c) && c != TAB && c != NUL
    && (c == SPACE ==> 0 < i < |value| - 1)
    && (c == HASH ==> i > 0 && value[i - 1] != SPACE)
    && (c == COLON ==> i + 1 < |value| && !IsBlankZ(value[i + 1]))
    && (flow ==> !IsFlowIndicator(c))
  }

  lemma AllowedFits(s: Settings, value: Text, i: nat, flow: bool)
    requires PlainAllowed(s, value, flow) && i < |value|
    ensures FitsPlain(value, i, flow)
  {
    assert CleanAt(s, value, i);
    assert flow ==> !FlowIndicatorAt(value, i);
    assert !flow ==> !BlockIndicatorAt(value, i);
    if i + 1 < |value| {
      assert CleanAt(s, value, i + 1);
    }
  }

  predicate AllFit(value: Text, flow: bool) {
    forall i :: 0 <= i < |value| ==> FitsPlain(value, i, flow)
  }

  // ----- Writer and scanner in step

  /** Where the scalar is written: what the scanner knows of the block around it, and the writer's level for further lines. */
  datatype Place = Place(around: Around, level: nat, allowBreaks: bool)
  {
    /** Further lines are inside the block around the scalar. */
    predicate Fits() {
      level > 0 && (allowBreaks && !around.flow ==> level > around.indent)
    }
  }

  function Resume(around: Around, spaces: bool, pending: Pending, input: Text, column: nat, read: Text): PlainScan {
    if spaces then PlainBlanks(around, input, column, read, pending) else PlainText(around, input, column, read, pending)
  }

  /** What a fold leaves pending: one space. */
  const FOLD := Pending(true, [], [LF], [])

  /** Spaces are pending as they are or folded; behind a letter nothing is. */
  predicate InStep(value: Text, i: nat, run: Run, pending: Pending, read: Text)
    requires i <= |value|
  {
    && !run.breaks && run.spaces == (i > 0 && value[i - 1] == SPACE)
    && read + Join(pending) == value[..i]
    && if run.spaces then pending == Pending(false, pending.whitespaces, [], []) || (pending == FOLD && At(value, i) != SPACE)
       else pending == NOTHING
  }

  /** The column is inside the block, and only a fold sets `indention`. */
  predicate PenInside(place: Place, i: nat, run: Run, pen: Pen) {
    && (i > 0 ==> pen.column > 0 && (!run.spaces ==> !pen.indention))
    && (!place.around.flow ==> pen.column + (if i == 0 then 1 else 0) > place.around.indent)
  }

  lemma ReadsLetter(around: Around, pending: Pending, c: Char, rest: Text, column: nat, read: Text)
    requires !IsBlankZ(c) && (c == COLON ==> !IsBlankZ(At(rest, 0)))
    requires around.flow ==> !IsFlowIndicator(c)
    ensures PlainText(around, [c] + rest, column, read, pending) == PlainText(around, rest, column + 1, read + Join(pending) + [c], NOTHING)
  {
    var input := [c] + rest;
    assert input[1..] == rest && At(input, 1) == At(rest, 0);
  }

  /** Behind blanks, text goes on where it is inside the block and no comment. */
  lemma BlanksEnd(around: Around, pending: Pending, input: Text, column: nat, read: Text)
    requires !IsBlankZ(At(input, 0)) && At(input, 0) != HASH && column > 0 && (around.flow || column > around.indent)
    ensures PlainBlanks(around, input, column, read, pending) == PlainText(around, input, column, read, pending)
  {
  }

  lemma ReadsSpace(around: Around, spaces: bool, pending: Pending, rest: Text, column: nat, read: Text)
    requires !pending.breaks
    ensures Resume(around, spaces, pending, [SPACE] + rest, column, read)
      == PlainBlanks(around, rest, column + 1, read, WithBlank(pending, SPACE))
  {
    var input := [SPACE] + rest;
    assert input[1..] == rest;
    assert Resume(around, spaces, pending, input, column, read) == PlainBlanks(around, input, column, read, pending);
  }

  lemma {:induction false} SkipsSpaces(around: Around, n: nat, pending: Pending, rest: Text, column: nat, read: Text)
    requires pending.breaks
    ensures PlainBlanks(around, Repeat(SPACE, n) + rest, column, read, pending) == PlainBlanks(around, rest, column + n, read, pending)
    decreases n
  {
    var input := Repeat(SPACE, n) + rest;
    if n == 0 {
      assert input == rest;
    } else {
      assert input[1..] == Repeat(SPACE, n - 1) + rest;
      SkipsSpaces(around, n - 1, pending, rest, column + 1, read);
    }
  }

  /** A new line in text leaves the scanner behind its indent. */
  lemma ReadsNewLine(s: Settings, around: Around, n: nat, rest: Text, column: nat, read: Text)
    requires At(rest, 0) != LF
    ensures PlainText(around, BreakText(s.lineBreak) + Repeat(SPACE, n) + rest, column, read, NOTHING)
      == PlainBlanks(around, rest, n, read, FOLD)
  {
    var after := Repeat(SPACE, n) + rest;
    var input := BreakText(s.lineBreak) + after;
    assert BreakText(s.lineBreak) + Repeat(SPACE, n) + rest == input;
    ReadsBreakText(s, after);
    assert [] + [LF] == [LF];
    assert PlainText(around, input, column, read, NOTHING) == PlainBlanks(around, after, 0, read, FOLD);
    SkipsSpaces(around, n, FOLD, rest, 0, read);
  }

  // ----- One turn of the writing loop

  /** What a turn writes: a letter, a space, or a fold. */
  lemma StepText(s: Settings, place: Place, value: Text, i: nat, run: Run, pen: Pen)
    requires i < |value| && FitsPlain(value, i, place.around.flow) && !run.breaks && PenInside(place, i, run, pen)
    ensures var ink := Plain.Step(s, place.level, value, i, run, place.allowBreaks, pen);
      if value[i] != SPACE then ink == Ink([value[i]], Pen(pen.column + 1, pen.whitespace, false))
      else if Plain.Folds(s, value, i, run, place.allowBreaks, pen) then
        ink == Ink(BreakText(s.lineBreak) + Repeat(SPACE, place.level), Pen(place.level, true, true))
      else ink == Ink([SPACE], pen.(column := pen.column + 1))
  {
    assert [] + [value[i]] == [value[i]];
  }

  function BodyText(s: Settings, place: Place, value: Text, i: nat, run: Run, pen: Pen, tail: Text): Text
    requires i <= |value|
  {
    Plain.Body(s, place.level, value, i, run, place.allowBreaks, pen).text + tail
  }

  /** The text from a character on starts with that character, unless that is folded. */
  lemma TextStarts(s: Settings, place: Place, value: Text, i: nat, run: Run, pen: Pen, tail: Text)
    requires i < |value| && FitsPlain(value, i, place.around.flow) && !run.breaks && PenInside(place, i, run, pen)
    ensures var ink := Plain.Step(s, place.level, value, i, run, place.allowBreaks, pen);
      && BodyText(s, place, value, i, run, pen, tail) == ink.text + BodyText(s, place, value, i + 1, NextRun(value[i], run), ink.pen, tail)
      && (value[i] != SPACE ==> At(BodyText(s, place, value, i, run, pen, tail), 0) == value[i])
      && (value[i] == SPACE ==> At(BodyText(s, place, value, i, run, pen, tail), 0) in if run.spaces then {SPACE} else {SPACE, CR, LF})
  {
    hide Plain.Step;
    StepText(s, place, value, i, run, pen);
  }

  /** One turn is undone by the scanner, and writer and scanner are in step again. */
  predicate Undone(place: Place, value: Text, i: nat, ink: Ink, run: Run, pen: Pen, pending: Pending, read: Text, rest: Text,
                   pending': Pending, read': Text)
    requires i < |value|
  {
    var run' := NextRun(value[i], run);
    && Resume(place.around, run.spaces, pending, ink.text + rest, pen.column, read)
       == Resume(place.around, run'.spaces, pending', rest, ink.pen.column, read')
    && PenInside(place, i + 1, run', ink.pen)
    && InStep(value, i + 1, run', pending', read')
  }

  lemma LetterReadsBack(s: Settings, place: Place, value: Text, i: nat, run: Run, pen: Pen, pending: Pending, read: Text, rest: Text)
    requires i < |value| && FitsPlain(value, i, place.around.flow) && value[i] != SPACE && place.Fits()
    requires PenInside(place, i, run, pen) && InStep(value, i, run, pending, read)
    requires value[i] == COLON ==> !IsBlankZ(At(rest, 0))
    ensures Undone(place, value, i, Plain.Step(s, place.level, value, i, run, place.allowBreaks, pen), run, pen, pending, read, rest,
                   NOTHING, value[..i + 1])
  {
    hide PlainText, PlainBlanks, Plain.Step, FitsPlain;
    var c := value[i];
    LetterFits(value, i, place.around.flow);
    StepText(s, place, value, i, run, pen);
    ReadsLetter(place.around, pending, c, rest, pen.column, read);
    if run.spaces {
      BlanksEnd(place.around, pending, [c] + rest, pen.column, read);
    }
    assert value[..i] + [c] == value[..i + 1];
    assert value[..i + 1] + [] == value[..i + 1];
  }

  lemma LetterFits(value: Text, i: nat, flow: bool)
    requires i < |value| && FitsPlain(value, i, flow) && value[i] != SPACE
    ensures !IsBlankZ(value[i]) && (flow ==> !IsFlowIndicator(value[i]))
    ensures value[i] == HASH ==> i > 0 && value[i - 1] != SPACE
  {
  }

  lemma SpaceReadsBack(s: Settings, place: Place, value: Text, i: nat, run: Run, pen: Pen, pending: Pending, read: Text, rest: Text)
    returns (pending': Pending)
    requires i < |value| && FitsPlain(value, i, place.around.flow) && value[i] == SPACE && place.Fits()
    requires PenInside(place, i, run, pen) && InStep(value, i, run, pending, read)
    requires At(rest, 0) != LF
    ensures Undone(place, value, i, Plain.Step(s, place.level, value, i, run, place.allowBreaks, pen), run, pen, pending, read, rest,
                   pending', read)
  {
    hide PlainText, PlainBlanks, Plain.Step;
    StepText(s, place, value, i, run, pen);
    assert value[..i] + [SPACE] == value[..i + 1];
    if Plain.Folds(s, value, i, run, place.allowBreaks, pen) {
      pending' := FOLD;
      ReadsNewLine(s, place.around, place.level, rest, pen.column, read);
      assert read + [] == read;
    } else {
      pending' := WithBlank(pending, SPACE);
      ReadsSpace(place.around, run.spaces, pending, rest, pen.column, read);
      assert read + (Join(pending) + [SPACE]) == (read + Join(pending)) + [SPACE];
    }
  }

  /** What the scalar is followed by, right behind it or on a less indented line. */
  datatype Behind = Directly(tail: Text) | OnNextLine(column: nat, tail: Text)

  /** The end, a blank behind a colon, or in a flow collection an indicator; or in a block the next line. */
  predicate BehindFits(around: Around, b: Behind) {
    match b
    case Directly(tail) => At(tail, 0) == NUL || (EndsText(around, tail) && !IsMisplacedColon(around, tail))
    case OnNextLine(column, tail) => !around.flow && column <= around.indent && !IsBlank(At(tail, 0)) && !IsBreak(At(tail, 0))
  }

  function BehindText(s: Settings, b: Behind): Text {
    match b
    case Directly(tail) => tail
    case OnNextLine(column, tail) => BreakText(s.lineBreak) + Repeat(SPACE, column) + tail
  }

  /** The scanner stops at what is behind, on the next line behind its indent. */
  function BehindScanned(value: Text, column: nat, b: Behind): PlainScan {
    match b
    case Directly(tail) => PlainScanned(value, column, tail, false)
    case OnNextLine(column', tail) => PlainScanned(value, column', tail, true)
  }

  lemma StopsBehind(s: Settings, around: Around, b: Behind, value: Text, column: nat)
    requires BehindFits(around, b)
    ensures PlainText(around, BehindText(s, b), column, value, NOTHING) == BehindScanned(value, column, b)
  {
    match b
    case Directly(tail) =>
    case OnNextLine(column', tail) => ReadsNewLine(s, around, column', tail, column, value);
  }


  /** What is written behind a character does not change how it is read. */
  lemma RestStarts(s: Settings, place: Place, value: Text, i: nat, run: Run, pen: Pen, tail: Text)
    requires i < |value| && AllFit(value, place.around.flow) && place.Fits() && !run.breaks && PenInside(place, i, run, pen)
    ensures var ink := Plain.Step(s, place.level, value, i, run, place.allowBreaks, pen);
      var rest := BodyText(s, place, value, i + 1, NextRun(value[i], run), ink.pen, tail);
      && (value[i] == COLON ==> !IsBlankZ(At(rest, 0)))
      && (value[i] == SPACE ==> At(rest, 0) != LF)
  {
    hide Plain.Step, BodyText;
    assert FitsPlain(value, i, place.around.flow);
    StepText(s, place, value, i, run, pen);
    if value[i] == COLON || value[i] == SPACE {
      assert FitsPlain(value, i + 1, place.around.flow);
      var ink := Plain.Step(s, place.level, value, i, run, place.allowBreaks, pen);
      TextStarts(s, place, value, i + 1, NextRun(value[i], run), ink.pen, tail);
    }
  }

  lemma StepReadsBack(s: Settings, place: Place, value: Text, i: nat, run: Run, pen: Pen, pending: Pending, read: Text, tail: Text)
    returns (pending': Pending, read': Text)
    requires i < |value| && AllFit(value, place.around.flow) && place.Fits()
    requires PenInside(place, i, run, pen) && InStep(value, i, run, pending, read)
    ensures var ink := Plain.Step(s, place.level, value, i, run, place.allowBreaks, pen);
      Undone(place, value, i, ink, run, pen, pending, read, BodyText(s, place, value, i + 1, NextRun(value[i], run), ink.pen, tail),
             pending', read')
  {
    hide Plain.Step, Undone, BodyText, PenInside, FitsPlain;
    assert FitsPlain(value, i, place.around.flow);
    var ink := Plain.Step(s, place.level, value, i, run, place.allowBreaks, pen);
    var rest := BodyText(s, place, value, i + 1, NextRun(value[i], run), ink.pen, tail);
    RestStarts(s, place, value, i, run, pen, tail);
    if value[i] == SPACE {
      read' := read;
      pending' := SpaceReadsBack(s, place, value, i, run, pen, pending, read, rest);
    } else {
      pending', read' := NOTHING, value[..i + 1];
      LetterReadsBack(s, place, value, i, run, pen, pending, read, rest);
    }
  }

  lemma {:induction false} BodyReadsBack(s: Settings, place: Place, value: Text, i: nat, run: Run, pen: Pen,
                                         pending: Pending, read: Text, tail: Text)
    requires i <= |value| && value != [] && AllFit(value, place.around.flow) && place.Fits()
    requires PenInside(place, i, run, pen) && InStep(value, i, run, pending, read)
    ensures Resume(place.around, run.spaces, pending, BodyText(s, place, value, i, run, pen, tail), pen.column, read)
      == PlainText(place.around, tail, Plain.Body(s, place.level, value, i, run, place.allowBreaks, pen).pen.column, value, NOTHING)
    decreases |value| - i
  {
    hide PlainText, PlainBlanks, Plain.Step, PenInside;
    if i == |value| {
      assert FitsPlain(value, i - 1, place.around.flow);
      assert value[..i] == value && read + [] == read;
      assert BodyText(s, place, value, i, run, pen, tail) == tail;
    } else {
      assert FitsPlain(value, i, place.around.flow);
      var ink := Plain.Step(s, place.level, value, i, run, place.allowBreaks, pen);
      var run' := NextRun(value[i], run);
      TextStarts(s, place, value, i, run, pen, tail);
      var pending', read' := StepReadsBack(s, place, value, i, run, pen, pending, read, tail);
      BodyReadsBack(s, place, value, i + 1, run', ink.pen, pending', read', tail);
    }
  }

  // ----- The start

  predicate IsMark(c: Char) {
    c == DASH || c == DOT
  }

  /** A dash or dot at the start of what is written is one of the value. */
  lemma MarkIsFirst(s: Settings, place: Place, value: Text, i: nat, run: Run, pen: Pen, tail: Text)
    returns (run': Run, pen': Pen)
    requires i <= |value| && AllFit(value, place.around.flow) && place.Fits() && !run.breaks && PenInside(place, i, run, pen)
    requires IsMark(At(BodyText(s, place, value, i, run, pen, tail), 0)) && !IsMark(At(tail, 0))
    ensures i < |value| && value[i] == At(BodyText(s, place, value, i, run, pen, tail), 0) && !run'.breaks && PenInside(place, i + 1, run', pen')
    ensures BodyText(s, place, value, i, run, pen, tail)[1..] == BodyText(s, place, value, i + 1, run', pen', tail)
  {
    hide Plain.Step;
    run', pen' := run, pen;
    var text := BodyText(s, place, value, i, run, pen, tail);
    assert i == |value| ==> text == tail;
    if i < |value| {
      assert FitsPlain(value, i, place.around.flow);
      TextStarts(s, place, value, i, run, pen, tail);
      StepText(s, place, value, i, run, pen);
      run', pen' := NextRun(value[i], run), Plain.Step(s, place.level, value, i, run, place.allowBreaks, pen).pen;
    }
  }

  /** What is written does not start with a document indicator. */
  lemma NoDocumentIndicator(s: Settings, place: Place, value: Text, run: Run, pen: Pen, tail: Text)
    requires AllFit(value, place.around.flow) && place.Fits() && !run.breaks && PenInside(place, 0, run, pen)
    requires !StartsLikeDocument(value) && !IsMark(At(tail, 0))
    ensures !FlowScanner.IsDocumentIndicator(BodyText(s, place, value, 0, run, pen, tail))
  {
    hide BodyText, PenInside, AllFit;
    var text := BodyText(s, place, value, 0, run, pen, tail);
    if FlowScanner.IsDocumentIndicator(text) {
      var run1, pen1 := MarkIsFirst(s, place, value, 0, run, pen, tail);
      assert At(text[1..], 0) == At(text, 1);
      var run2, pen2 := MarkIsFirst(s, place, value, 1, run1, pen1, tail);
      assert At(text[1..][1..], 0) == At(text, 2);
      var _, _ := MarkIsFirst(s, place, value, 2, run2, pen2, tail);
    }
  }

  /** What may come behind is no dash and no dot. */
  lemma BehindIsNoMark(s: Settings, around: Around, b: Behind)
    requires BehindFits(around, b)
    ensures !IsMark(At(BehindText(s, b), 0))
  {
    match b
    case Directly(tail) =>
    case OnNextLine(column, tail) =>
      assert BehindText(s, b)[0] == BreakText(s.lineBreak)[0];
  }

  function Gap(pen: Pen): nat {
    if pen.whitespace then 0 else 1
  }

  /**
    The round trip of a plain scalar, from its first character to what comes behind it. In a
    block it must not start left of the block's column, and its further lines are right of it.
   */
  lemma PlainRoundTrip(s: Settings, place: Place, value: Text, pen: Pen, b: Behind)
    requires value != [] && PlainAllowed(s, value, place.around.flow) && place.Fits() && BehindFits(place.around, b)
    requires place.around.flow || pen.column + Gap(pen) >= place.around.indent
    ensures var ink := Plain.Written(s, place.level, value, place.allowBreaks, pen);
      && |ink.text| > Gap(pen)
      && ink.text[..Gap(pen)] == Repeat(SPACE, Gap(pen))
      && ScanPlain(place.around, ink.text[Gap(pen)..] + BehindText(s, b), pen.column + Gap(pen)) == BehindScanned(value, ink.pen.column, b)
  {
    hide PlainText, PlainBlanks, Plain.Step, FitsPlain, Plain.Body, Analyze, BehindFits, StartsLikeDocument;
    forall i | 0 <= i < |value| ensures FitsPlain(value, i, place.around.flow) {
      AllowedFits(s, value, i, place.around.flow);
    }
    var tail := BehindText(s, b);
    var run := Run(false, false);
    var pen' := pen.(column := pen.column + Gap(pen));
    var ink := Plain.Written(s, place.level, value, place.allowBreaks, pen);
    var text := BodyText(s, place, value, 0, run, pen', tail);
    WrittenIs(s, place, value, pen, tail);
    TextStarts(s, place, value, 0, run, pen', tail);
    FirstIsText(s, value, place.around.flow);
    BehindIsNoMark(s, place.around, b);
    NoDocumentIndicator(s, place, value, run, pen', tail);
    BodyReadsBack(s, place, value, 0, run, pen', NOTHING, [], tail);
    StopsBehind(s, place.around, b, value, ink.pen.column);
  }

  lemma FirstIsText(s: Settings, value: Text, flow: bool)
    requires value != [] && PlainAllowed(s, value, flow)
    ensures value[0] != HASH && value[0] != SPACE && !StartsLikeDocument(value)
  {
    AllowedFits(s, value, 0, flow);
  }

  lemma WrittenIs(s: Settings, place: Place, value: Text, pen: Pen, tail: Text)
    requires value != [] && AllFit(value, place.around.flow) && place.Fits()
    requires place.around.flow || pen.column + Gap(pen) >= place.around.indent
    ensures var ink := Plain.Written(s, place.level, value, place.allowBreaks, pen);
      var pen' := pen.(column := pen.column + Gap(pen));
      && |ink.text| > Gap(pen)
      && ink.text[..Gap(pen)] == Repeat(SPACE, Gap(pen))
      && ink.text[Gap(pen)..] + tail == BodyText(s, place, value, 0, Run(false, false), pen', tail)
      && ink.pen.column == Plain.Body(s, place.level, value, 0, Run(false, false), place.allowBreaks, pen').pen.column
  {
    hide Plain.Step;
    var pen' := pen.(column := pen.column + Gap(pen));
    assert FitsPlain(value, 0, place.around.flow);
    StepText(s, place, value, 0, Run(false, false), pen');
    var body := Plain.Body(s, place.level, value, 0, Run(false, false), place.allowBreaks, pen');
    assert [] + body.text == body.text;
    assert Repeat(SPACE, 1) == [SPACE] && Repeat(SPACE, 0) == [];
  }
}
