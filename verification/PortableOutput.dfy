/**
  Scalars through the whole way out and back: in every style the writers put only printable
  characters of the basic plane and line breaks into the output, so their text survives either
  encoding, and what the scanner reads from the decoded output is the value.
 */
module PortableOutput {
  import opened Chars
  import opened Options
  import opened Printing
  import opened ScalarAnalysis
  import opened Encodings
  import opened Writing
  import DoubleQuoted
  import SingleQuoted
  import Literal
  import Plain
  import Folded
  import ScalarEmitter
  import ScalarRoundTrip
  import FlowScanner

  /** A character that the reader lets through and the writer does not break. */
  predicate IsPortable(c: Char) {
    IsAllowed(c) && c < 0x10000 && c != BOM
  }

  predicate Portable(text: Text) {
    forall k :: 0 <= k < |text| ==> IsPortable(text[k])
  }

  lemma PortableAppend(a: Text, b: Text)
    ensures Portable(a + b) <==> Portable(a) && Portable(b)
  {
    if Portable(a + b) {
      forall k | 0 <= k < |a| ensures IsPortable(a[k]) { assert (a + b)[k] == a[k]; }
      forall k | 0 <= k < |b| ensures IsPortable(b[k]) { assert (a + b)[|a| + k] == b[k]; }
    }
  }

  lemma PrintableIsPortable(c: Char)
    ensures IsPrintable(c) || IsBreak(c) ==> IsPortable(c)
  {
  }

  lemma IndentIsPortable(s: Settings, level: int, pen: Pen)
    ensures Portable(WriteIndent(s, level, pen).text) && Portable(BreakText(s.lineBreak))
  {
  }

  lemma BreakIsPortable(s: Settings, c: Char, pen: Pen)
    requires IsBreak(c)
    ensures Portable(WriteBreak(s, c, pen).text)
  {
  }

  // ----- Double-quoted

  lemma {:induction false} HexDigitsArePortable(value: nat, n: nat)
    ensures Portable(DoubleQuoted.HexDigits(value, n))
  {
    if n > 0 {
      HexDigitsArePortable(value, n - 1);
      PortableAppend([HexDigit(value / DoubleQuoted.Pow16(n - 1) % 16)], DoubleQuoted.HexDigits(value, n - 1));
    }
  }

  lemma EscapeIsPortable(c: Char)
    ensures Portable(DoubleQuoted.Escape(c))
  {
    hide DoubleQuoted.HexDigits;
    HexDigitsArePortable(c, 2);
    HexDigitsArePortable(c, 4);
    HexDigitsArePortable(c, 8);
    PortableAppend([BACKSLASH, 0x78], DoubleQuoted.HexDigits(c, 2));
    PortableAppend([BACKSLASH, 0x75], DoubleQuoted.HexDigits(c, 4));
    PortableAppend([BACKSLASH, 0x55], DoubleQuoted.HexDigits(c, 8));
  }

  lemma {:induction false} DoubleQuotedBodyIsPortable(s: Settings, level: int, value: Text, i: nat, spaces: bool, allowBreaks: bool, pen: Pen)
    requires i <= |value|
    ensures Portable(DoubleQuoted.Body(s, level, value, i, spaces, allowBreaks, pen).text)
    decreases |value| - i
  {
    hide Portable, DoubleQuoted.Step;
    if i == |value| {
      NothingIsPortable();
    } else {
      var ink := DoubleQuoted.Step(s, level, value, i, spaces, allowBreaks, pen);
      DoubleQuotedStepIsPortable(s, level, value, i, spaces, allowBreaks, pen);
      var spaces' := !DoubleQuoted.NeedsEscape(s, value[i]) && value[i] == SPACE;
      DoubleQuotedBodyIsPortable(s, level, value, i + 1, spaces', allowBreaks, ink.pen);
      PortableAppend(ink.text, DoubleQuoted.Body(s, level, value, i + 1, spaces', allowBreaks, ink.pen).text);
    }
  }

  lemma NothingIsPortable()
    ensures Portable([])
  {
  }

  lemma DoubleQuotedStepIsPortable(s: Settings, level: int, value: Text, i: nat, spaces: bool, allowBreaks: bool, pen: Pen)
    requires i < |value|
    ensures Portable(DoubleQuoted.Step(s, level, value, i, spaces, allowBreaks, pen).text)
  {
    hide DoubleQuoted.Escape, WriteIndent;
    EscapeIsPortable(value[i]);
    IndentIsPortable(s, level, pen);
    PrintableIsPortable(value[i]);
  }

  /** Whatever the value, what is written between double quotes is portable. */
  lemma DoubleQuotedIsPortable(s: Settings, level: int, value: Text, allowBreaks: bool, pen: Pen)
    ensures Portable(DoubleQuoted.Written(s, level, value, allowBreaks, pen).text)
  {
    hide Portable, DoubleQuoted.Body;
    var open := WriteIndicator([DQUOTE], true, false, false, pen);
    var body := DoubleQuoted.Body(s, level, value, 0, false, allowBreaks, open.pen);
    DoubleQuotedBodyIsPortable(s, level, value, 0, false, allowBreaks, open.pen);
    var close := WriteIndicator([DQUOTE], false, false, false, body.pen);
    IndicatorIsPortable([DQUOTE], pen);
    IndicatorIsPortable([DQUOTE], body.pen);
    PortableAppend(open.text, body.text);
    PortableAppend(open.text + body.text, close.text);
  }

  lemma IndicatorIsPortable(text: Text, pen: Pen)
    ensures text == [DQUOTE] || text == [SQUOTE] || text == [BAR] || text == [GREATER] ==>
      Portable(WriteIndicator(text, true, false, false, pen).text) && Portable(WriteIndicator(text, false, false, false, pen).text)
  {
  }

  // ----- Single-quoted

  lemma OrdinaryIsPortable(s: Settings, value: Text, i: nat)
    requires i < |value| && (SingleQuotedAllowed(s, value) || BlockAllowed(s, value))
    ensures IsPortable(value[i])
  {
    if SingleQuotedAllowed(s, value) {
      assert CleanAt(s, value, i);
    } else {
      assert BlockClean(s, value, i);
    }
  }

  lemma SingleQuotedStepIsPortable(s: Settings, level: int, value: Text, i: nat, run: SingleQuoted.Run, allowBreaks: bool, pen: Pen)
    requires i < |value| && SingleQuotedAllowed(s, value)
    ensures Portable(SingleQuoted.Step(s, level, value, i, run, allowBreaks, pen).text)
  {
    hide WriteIndent, SingleQuotedAllowed, WriteBreak, BreakText;
    OrdinaryIsPortable(s, value, i);
    IndentIsPortable(s, level, pen);
    if IsBreak(value[i]) { BreakIsPortable(s, value[i], pen); }
  }

  lemma {:induction false} SingleQuotedBodyIsPortable(s: Settings, level: int, value: Text, i: nat, run: SingleQuoted.Run, allowBreaks: bool, pen: Pen)
    requires i <= |value| && SingleQuotedAllowed(s, value)
    ensures Portable(SingleQuoted.Body(s, level, value, i, run, allowBreaks, pen).text)
    decreases |value| - i
  {
    hide Portable, SingleQuoted.Step, SingleQuotedAllowed;
    if i == |value| {
      NothingIsPortable();
    } else {
      var ink := SingleQuoted.Step(s, level, value, i, run, allowBreaks, pen);
      SingleQuotedStepIsPortable(s, level, value, i, run, allowBreaks, pen);
      var run' := SingleQuoted.NextRun(value[i], run);
      SingleQuotedBodyIsPortable(s, level, value, i + 1, run', allowBreaks, ink.pen);
      PortableAppend(ink.text, SingleQuoted.Body(s, level, value, i + 1, run', allowBreaks, ink.pen).text);
    }
  }

  /** A value that may be single-quoted has only characters that are portable. */
  lemma SingleQuotedIsPortable(s: Settings, level: int, value: Text, allowBreaks: bool, pen: Pen)
    requires SingleQuotedAllowed(s, value)
    ensures Portable(SingleQuoted.Written(s, level, value, allowBreaks, pen).text)
  {
    hide Portable, SingleQuoted.Body, SingleQuotedAllowed;
    var open := WriteIndicator([SQUOTE], true, false, false, pen);
    var run := SingleQuoted.Run(false, false);
    var body := SingleQuoted.Body(s, level, value, 0, run, allowBreaks, open.pen);
    SingleQuotedBodyIsPortable(s, level, value, 0, run, allowBreaks, open.pen);
    var close := WriteIndicator([SQUOTE], false, false, false, body.pen);
    IndicatorIsPortable([SQUOTE], pen);
    IndicatorIsPortable([SQUOTE], body.pen);
    PortableAppend(open.text, body.text);
    PortableAppend(open.text + body.text, close.text);
  }

  // ----- Literal

  lemma LiteralStepIsPortable(s: Settings, level: int, value: Text, i: nat, breaks: bool, pen: Pen)
    requires i < |value| && BlockAllowed(s, value)
    ensures Portable(Literal.Step(s, level, value[i], breaks, pen).text)
  {
    hide WriteIndent, BlockAllowed, WriteBreak;
    OrdinaryIsPortable(s, value, i);
    IndentIsPortable(s, level, pen);
    if IsBreak(value[i]) { BreakIsPortable(s, value[i], pen); }
  }

  lemma {:induction false} LiteralBodyIsPortable(s: Settings, level: int, value: Text, i: nat, breaks: bool, pen: Pen)
    requires i <= |value| && BlockAllowed(s, value)
    ensures Portable(Literal.Body(s, level, value, i, breaks, pen).text)
    decreases |value| - i
  {
    hide Portable, Literal.Step, BlockAllowed;
    if i == |value| {
      NothingIsPortable();
    } else {
      var ink := Literal.Step(s, level, value[i], breaks, pen);
      LiteralStepIsPortable(s, level, value, i, breaks, pen);
      LiteralBodyIsPortable(s, level, value, i + 1, IsBreak(value[i]), ink.pen);
      PortableAppend(ink.text, Literal.Body(s, level, value, i + 1, IsBreak(value[i]), ink.pen).text);
    }
  }

  lemma BlockHeaderIsPortable(s: Settings, indicator: Char, value: Text, pen: Pen)
    requires s.Normal() && (indicator == BAR || indicator == GREATER)
    ensures Portable(Literal.BlockHeader(s, indicator, value, pen).text)
  {
    var bar := WriteIndicator([indicator], true, false, false, pen);
    IndicatorIsPortable([indicator], pen);
    assert forall k :: 0 <= k < |Literal.IndentHint(s, value)| ==> IsPortable(Literal.IndentHint(s, value)[k]);
    assert forall k :: 0 <= k < |Literal.ChompHint(value)| ==> IsPortable(Literal.ChompHint(value)[k]);
  }

  /** A value that may be a literal has only characters that are portable. */
  lemma LiteralIsPortable(s: Settings, level: int, value: Text, pen: Pen)
    requires s.Normal() && BlockAllowed(s, value)
    ensures Portable(Literal.Written(s, level, value, pen).text)
  {
    hide Portable, Literal.Body, BlockAllowed, Literal.BlockHeader;
    var header := Literal.Header(s, value, pen);
    var body := Literal.Body(s, level, value, 0, true, Pen(0, true, true));
    BlockHeaderIsPortable(s, BAR, value, pen);
    LiteralBodyIsPortable(s, level, value, 0, true, Pen(0, true, true));
    IndentIsPortable(s, level, pen);
    PortableAppend(header.text, BreakText(s.lineBreak));
    PortableAppend(header.text + BreakText(s.lineBreak), body.text);
  }

  // ----- Plain

  lemma PlainStepIsPortable(s: Settings, level: int, value: Text, i: nat, run: SingleQuoted.Run, allowBreaks: bool, pen: Pen)
    requires i < |value| && SingleQuotedAllowed(s, value)
    ensures Portable(Plain.Step(s, level, value, i, run, allowBreaks, pen).text)
  {
    hide WriteIndent, SingleQuotedAllowed, WriteBreak, BreakText;
    OrdinaryIsPortable(s, value, i);
    IndentIsPortable(s, level, pen);
    if IsBreak(value[i]) { BreakIsPortable(s, value[i], pen); }
  }

  lemma {:induction false} PlainBodyIsPortable(s: Settings, level: int, value: Text, i: nat, run: SingleQuoted.Run, allowBreaks: bool, pen: Pen)
    requires i <= |value| && SingleQuotedAllowed(s, value)
    ensures Portable(Plain.Body(s, level, value, i, run, allowBreaks, pen).text)
    decreases |value| - i
  {
    hide Portable, Plain.Step, SingleQuotedAllowed;
    if i == |value| {
      NothingIsPortable();
    } else {
      var ink := Plain.Step(s, level, value, i, run, allowBreaks, pen);
      PlainStepIsPortable(s, level, value, i, run, allowBreaks, pen);
      var run' := SingleQuoted.NextRun(value[i], run);
      PlainBodyIsPortable(s, level, value, i + 1, run', allowBreaks, ink.pen);
      PortableAppend(ink.text, Plain.Body(s, level, value, i + 1, run', allowBreaks, ink.pen).text);
    }
  }

  /** What may be plain may be single-quoted; so it has only characters that are portable. */
  lemma PlainIsPortable(s: Settings, level: int, value: Text, allowBreaks: bool, pen: Pen)
    requires SingleQuotedAllowed(s, value)
    ensures Portable(Plain.Written(s, level, value, allowBreaks, pen).text)
  {
    hide Plain.Body, SingleQuotedAllowed;
    var open := if pen.whitespace then Ink([], pen) else Put([SPACE], pen);
    PlainBodyIsPortable(s, level, value, 0, SingleQuoted.Run(false, false), allowBreaks, open.pen);
    PortableAppend(open.text, Plain.Body(s, level, value, 0, SingleQuoted.Run(false, false), allowBreaks, open.pen).text);
  }

  // ----- Folded

  lemma FoldedStepIsPortable(s: Settings, level: int, value: Text, i: nat, run: Folded.Run, pen: Pen)
    requires i < |value| && BlockAllowed(s, value)
    ensures Portable(Folded.Step(s, level, value, i, run, pen).text)
  {
    hide WriteIndent, BlockAllowed, WriteBreak, BreakText, Folded.BreaksEnd;
    OrdinaryIsPortable(s, value, i);
    IndentIsPortable(s, level, pen);
    IndentIsPortable(s, level, WriteIndent(s, level, pen).pen);
    if IsBreak(value[i]) { BreakIsPortable(s, value[i], pen); }
  }

  lemma {:induction false} FoldedBodyIsPortable(s: Settings, level: int, value: Text, i: nat, run: Folded.Run, pen: Pen)
    requires i <= |value| && BlockAllowed(s, value)
    ensures Portable(Folded.Body(s, level, value, i, run, pen).text)
    decreases |value| - i
  {
    hide Portable, Folded.Step, BlockAllowed;
    if i == |value| {
      NothingIsPortable();
    } else {
      var ink := Folded.Step(s, level, value, i, run, pen);
      FoldedStepIsPortable(s, level, value, i, run, pen);
      var run' := Folded.NextRun(value[i], run);
      FoldedBodyIsPortable(s, level, value, i + 1, run', ink.pen);
      PortableAppend(ink.text, Folded.Body(s, level, value, i + 1, run', ink.pen).text);
    }
  }

  /** A value that may be folded has only characters that are portable. */
  lemma FoldedIsPortable(s: Settings, level: int, value: Text, pen: Pen)
    requires s.Normal() && BlockAllowed(s, value)
    ensures Portable(Folded.Written(s, level, value, pen).text)
  {
    hide Portable, Folded.Body, BlockAllowed, Literal.BlockHeader;
    var header := Literal.BlockHeader(s, GREATER, value, pen);
    var body := Folded.Body(s, level, value, 0, Folded.Run(true, true), Pen(0, true, true));
    BlockHeaderIsPortable(s, GREATER, value, pen);
    FoldedBodyIsPortable(s, level, value, 0, Folded.Run(true, true), Pen(0, true, true));
    IndentIsPortable(s, level, pen);
    PortableAppend(header.text, BreakText(s.lineBreak));
    PortableAppend(header.text + BreakText(s.lineBreak), body.text);
  }

  // ----- Every style

  /** The style chosen is one that the value allows. */
  lemma ChosenStyleIsAllowed(s: Settings, r: Request, c: Context, style: Style)
    requires SelectStyle(s, r, c) == Some(style)
    ensures style != AnyStyle
    ensures style == PlainStyle || style == SingleQuotedStyle ==> SingleQuotedAllowed(s, r.value)
    ensures style == LiteralStyle || style == FoldedStyle ==> BlockAllowed(s, r.value)
  {
    hide FlowIndicatorAt, BlockIndicatorAt;
  }

  /** A value with a character that is not portable is always double-quoted. */
  lemma OthersAreDoubleQuoted(s: Settings, r: Request, c: Context, style: Style)
    requires SelectStyle(s, r, c) == Some(style) && style != DoubleQuotedStyle
    ensures Portable(r.value)
  {
    hide SelectStyle, SingleQuotedAllowed, BlockAllowed;
    ChosenStyleIsAllowed(s, r, c, style);
    forall i | 0 <= i < |r.value| ensures IsPortable(r.value[i]) {
      OrdinaryIsPortable(s, r.value, i);
    }
  }

  /** Whatever the value and the style asked for, what is written is portable. */
  lemma ScalarIsPortable(s: Settings, level: int, r: Request, c: Context, style: Style, simpleKey: bool, pen: Pen)
    requires s.Normal() && SelectStyle(s, r, c) == Some(style)
    ensures Portable(ScalarEmitter.ScalarInk(s, level, r.value, style, simpleKey, pen).text)
  {
    hide Portable, SelectStyle, SingleQuotedAllowed, BlockAllowed, DoubleQuoted.Written, SingleQuoted.Written, Literal.Written,
         Plain.Written, Folded.Written;
    ChosenStyleIsAllowed(s, r, c, style);
    match style {
      case PlainStyle => PlainIsPortable(s, level, r.value, !simpleKey, pen);
      case SingleQuotedStyle => SingleQuotedIsPortable(s, level, r.value, !simpleKey, pen);
      case DoubleQuotedStyle => DoubleQuotedIsPortable(s, level, r.value, !simpleKey, pen);
      case LiteralStyle => LiteralIsPortable(s, level, r.value, pen);
      case FoldedStyle => FoldedIsPortable(s, level, r.value, pen);
    }
  }

  // ----- The output

  /** Portable text is read back from the output in every encoding. */
  lemma PortableTextIsReadBack(encoding: Encoding, text: Text)
    requires Portable(text)
    ensures DecodeInput(Output(encoding, text)) == Some(text)
  {
    assert AllAllowed(text) && AllSurvive(encoding, text);
    assert text != [] ==> IsPortable(text[0]);
    OutputIsReadBack(encoding, text);
  }

  /** A scalar in quotes, through the emitter, the writer, the reader and the scanner, in any encoding. */
  lemma QuotedScalarThroughAnyEncoding(encoding: Encoding, s: Settings, parent: int, r: Request, c: Context, style: Style,
                                       pen: Pen, tail: Text)
    requires s.Normal() && parent >= -1 && SelectStyle(s, r, c) == Some(style)
    requires style == SingleQuotedStyle || style == DoubleQuotedStyle
    requires (style == SingleQuotedStyle ==> At(tail, 0) != SQUOTE) && Portable(tail)
    ensures var ink := ScalarRoundTrip.ChosenInk(s, parent, r, c, style, pen);
      var gap := ScalarRoundTrip.Gap(pen);
      var read := DecodeInput(Output(encoding, ink.text + tail));
      && read.Some? && |read.value| > gap
      && FlowScanner.Scan(style == SingleQuotedStyle, read.value[gap..], pen.column + gap)
         == FlowScanner.Scanned(r.value, ink.pen.column, tail)
  {
    hide FlowScanner.Scan, DoubleQuoted.Written, SingleQuoted.Written, SelectStyle, Portable, DecodeInput, Output;
    var level := IncreasedIndent(s, parent, true, false);
    var ink := ScalarRoundTrip.ChosenInk(s, parent, r, c, style, pen);
    var gap := ScalarRoundTrip.Gap(pen);
    ScalarRoundTrip.QuotedScalarRoundTrip(s, parent, r, c, style, pen, tail);
    if style == SingleQuotedStyle {
      ChosenStyleIsAllowed(s, r, c, style);
      SingleQuotedIsPortable(s, level, r.value, !c.simpleKey, pen);
    } else {
      DoubleQuotedIsPortable(s, level, r.value, !c.simpleKey, pen);
    }
    PortableAppend(ink.text, tail);
    PortableTextIsReadBack(encoding, ink.text + tail);
    assert (ink.text + tail)[gap..] == ink.text[gap..] + tail;
  }
}
