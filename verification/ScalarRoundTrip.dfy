/**
  The round trip of a scalar in whatever style the emitter chooses for it: the style is chosen
  by the analysis, the text is written one level deeper than the parent node, and the scanner
  that knows the parent's level gets the value back.
 */
module ScalarRoundTrip {
  import opened Chars
  import opened Options
  import opened Printing
  import opened ScalarAnalysis
  import ScalarEmitter
  import FlowScanner
  import BlockScanner
  import DoubleQuotedRoundTrip
  import SingleQuotedRoundTrip
  import LiteralRoundTrip
  import DoubleQuoted
  import SingleQuoted
  import Literal
  import Folded
  import FoldedRoundTrip
  import PlainScanner
  import PlainRoundTrip
  import Plain

  /** The ink of a request in its chosen style, under a node at `parent`. */
  function ChosenInk(s: Settings, parent: int, r: Request, c: Context, style: Style, pen: Pen): Ink
    requires s.Normal()
  {
    ScalarEmitter.ScalarInk(s, IncreasedIndent(s, parent, true, false), r.value, style, c.simpleKey, pen)
  }

  /** A space separates the scalar from what is before it, unless there is whitespace already. */
  function Gap(pen: Pen): nat {
    if pen.whitespace then 0 else 1
  }

  /** Every request that ends up in quotes, whatever style it asked for, is read back. */
  lemma QuotedScalarRoundTrip(s: Settings, parent: int, r: Request, c: Context, style: Style, pen: Pen, tail: Text)
    requires s.Normal() && parent >= -1 && SelectStyle(s, r, c) == Some(style)
    requires style == SingleQuotedStyle || style == DoubleQuotedStyle
    requires style == SingleQuotedStyle ==> At(tail, 0) != SQUOTE
    ensures var ink := ChosenInk(s, parent, r, c, style, pen);
      && |ink.text| > Gap(pen)
      && FlowScanner.Scan(style == SingleQuotedStyle, ink.text[Gap(pen)..] + tail, pen.column + Gap(pen))
         == FlowScanner.Scanned(r.value, ink.pen.column, tail)
  {
    hide FlowScanner.Scan, DoubleQuoted.Written, SingleQuoted.Written, FlowIndicatorAt, BlockIndicatorAt;
    var level := IncreasedIndent(s, parent, true, false);
    if style == SingleQuotedStyle {
      assert SingleQuotedAllowed(s, r.value);
      SingleQuotedRoundTrip.SingleQuotedRoundTrip(s, level, r.value, !c.simpleKey, pen, tail);
    } else {
      DoubleQuotedRoundTrip.DoubleQuotedRoundTrip(s, level, r.value, !c.simpleKey, pen, tail);
    }
  }

  /** Every request that ends up as a literal block scalar is read back, up to what follows it. */
  lemma LiteralScalarRoundTrip(s: Settings, parent: int, r: Request, c: Context, pen: Pen, next: LiteralRoundTrip.Next)
    requires s.Normal() && parent >= -1 && SelectStyle(s, r, c) == Some(LiteralStyle)
    requires LiteralRoundTrip.NextFits(next, IncreasedIndent(s, parent, true, false))
    ensures var ink := ChosenInk(s, parent, r, c, LiteralStyle, pen);
      && |ink.text| > Gap(pen)
      && BlockScanner.Scan(true, parent, ink.text[Gap(pen)..] + LiteralRoundTrip.NextText(s, next, ink.pen), pen.column + Gap(pen))
         == LiteralRoundTrip.NextScanned(r.value, next, ink.pen)
  {
    hide BlockScanner.Scan, Literal.Written, FlowIndicatorAt, BlockIndicatorAt;
    assert BlockAllowed(s, r.value);
    LiteralRoundTrip.LiteralRoundTrip(s, parent, r.value, pen, next);
  }

  /**
    Every request that ends up plain is read back, up to what follows it, in flow collections and
    in blocks, where it must not start left of its parent's column. An empty value is no text.
   */
  lemma PlainScalarRoundTrip(s: Settings, parent: int, r: Request, c: Context, pen: Pen, behind: PlainRoundTrip.Behind)
    requires s.Normal() && parent >= -1 && SelectStyle(s, r, c) == Some(PlainStyle)
    requires PlainRoundTrip.BehindFits(PlainScanner.Around(c.flow, parent), behind)
    requires c.flow || pen.column + Gap(pen) >= parent
    ensures var ink := ChosenInk(s, parent, r, c, PlainStyle, pen);
      if r.value == [] then ink.text == Repeat(SPACE, Gap(pen))
      else
        && |ink.text| > Gap(pen)
        && PlainScanner.ScanPlain(PlainScanner.Around(c.flow, parent), ink.text[Gap(pen)..] + PlainRoundTrip.BehindText(s, behind),
                                  pen.column + Gap(pen))
           == PlainRoundTrip.BehindScanned(r.value, ink.pen.column, behind)
  {
    hide PlainScanner.ScanPlain, FlowIndicatorAt, BlockIndicatorAt, PlainRoundTrip.BehindFits;
    var level := IncreasedIndent(s, parent, true, false);
    if r.value == [] {
      assert Repeat(SPACE, 1) == [SPACE] && Repeat(SPACE, 0) == [];
    } else {
      PlainRoundTrip.PlainRoundTrip(s, PlainRoundTrip.Place(PlainScanner.Around(c.flow, parent), level, !c.simpleKey), r.value, pen, behind);
    }
  }

  /**
    A request that ends up as a folded scalar is read back exactly if no line of its value that
    starts with a space is folded.
   */
  lemma FoldedScalarRoundTrip(s: Settings, parent: int, r: Request, c: Context, pen: Pen, next: LiteralRoundTrip.Next)
    requires s.Normal() && parent >= -1 && SelectStyle(s, r, c) == Some(FoldedStyle)
    requires LiteralRoundTrip.NextFits(next, IncreasedIndent(s, parent, true, false))
    ensures var ink := ChosenInk(s, parent, r, c, FoldedStyle, pen);
      && |ink.text| > Gap(pen)
      && (BlockScanner.Scan(false, parent, ink.text[Gap(pen)..] + LiteralRoundTrip.NextText(s, next, ink.pen), pen.column + Gap(pen))
          == LiteralRoundTrip.NextScanned(r.value, next, ink.pen)
          <==> FoldedRoundTrip.KeepsSpacedLines(s, IncreasedIndent(s, parent, true, false), r.value, 0,
                                                FoldedRoundTrip.START, FoldedRoundTrip.START_PEN))
  {
    hide BlockScanner.Scan, Folded.Written, FlowIndicatorAt, BlockIndicatorAt, FoldedRoundTrip.KeepsSpacedLines;
    assert BlockAllowed(s, r.value);
    FoldedRoundTrip.FoldedRoundTrip(s, parent, r.value, pen, next);
  }
}
