/**
  Which styles a scalar value may be written in (emitter.c, yaml_emitter_analyze_scalar and
  yaml_emitter_select_scalar_style).
 */
module ScalarAnalysis {
  import opened Chars
  import opened Printing
  import opened Options

  /** A character that needs no escape. */
  predicate IsOrdinary(s: Settings, c: Char) {
    IsPrintable(c) && (IsAscii(c) || s.unicode)
  }

  /** An ordinary character that is not a space before a line break. */
  predicate BlockClean(s: Settings, value: Text, i: nat)
    requires i < |value|
  {
    IsOrdinary(s, value[i]) && (value[i] == SPACE ==> !IsBreak(At(value, i + 1)))
  }

  /** An ordinary character that is not a space beside a line break, on either side. */
  predicate CleanAt(s: Settings, value: Text, i: nat)
    requires i < |value|
  {
    BlockClean(s, value, i) && (IsBreak(value[i]) ==> At(value, i + 1) != SPACE)
  }

  predicate SingleQuotedAllowed(s: Settings, value: Text) {
    forall i :: 0 <= i < |value| ==> CleanAt(s, value, i)
  }

  predicate BlockAllowed(s: Settings, value: Text) {
    && value != [] && value[|value| - 1] != SPACE
    && forall i :: 0 <= i < |value| ==> BlockClean(s, value, i)
  }

  predicate Multiline(value: Text) {
    exists i :: 0 <= i < |value| && IsBreak(value[i])
  }

  /** A space or a line break at either end. */
  predicate Ragged(value: Text) {
    && value != []
    && (value[0] == SPACE || IsBreak(value[0]) || value[|value| - 1] == SPACE || IsBreak(value[|value| - 1]))
  }

  predicate StartsLikeDocument(value: Text) {
    || (At(value, 0) == DASH && At(value, 1) == DASH && At(value, 2) == DASH)
    || (At(value, 0) == DOT && At(value, 1) == DOT && At(value, 2) == DOT)
  }

  predicate IsBracket(c: Char) {
    c == 0x5B || c == 0x5D || c == 0x7B || c == 0x7D
  }

  /** Indicators that cannot start a plain scalar: # , [ ] { } & * ! | > ' " % @ ` */
  predicate IsLeadingIndicator(c: Char) {
    || c == HASH || c == COMMA || IsBracket(c) || c == 0x26 || c == 0x2A || c == 0x21 || c == BAR || c == 0x3E
    || c == SQUOTE || c == DQUOTE || c == 0x25 || c == 0x40 || c == 0x60
  }

  /** A character that rules out the plain style in flow collections. */
  predicate FlowIndicatorAt(value: Text, i: nat)
    requires i < |value|
  {
    var c, followed := value[i], IsBlankZ(At(value, i + 1));
    if i == 0 then
      IsLeadingIndicator(c) || c == QUESTION || c == COLON || (c == DASH && followed)
    else
      c == COMMA || c == QUESTION || IsBracket(c) || c == COLON || (c == HASH && IsBlankZ(value[i - 1]))
  }

  /** A character that rules out the plain style in block collections. */
  predicate BlockIndicatorAt(value: Text, i: nat)
    requires i < |value|
  {
    var c, followed := value[i], IsBlankZ(At(value, i + 1));
    if i == 0 then
      IsLeadingIndicator(c) || ((c == QUESTION || c == COLON || c == DASH) && followed)
    else
      (c == COLON && followed) || (c == HASH && IsBlankZ(value[i - 1]))
  }

  datatype Analysis = Analysis(multiline: bool, flowPlainAllowed: bool, blockPlainAllowed: bool,
                               singleQuotedAllowed: bool, blockAllowed: bool)

  /** The verdict of the analysis, by what the value contains. */
  function Analyze(s: Settings, value: Text): Analysis {
    if value == [] then Analysis(false, false, true, true, false)
    else
      var plain := SingleQuotedAllowed(s, value) && !Multiline(value) && !Ragged(value);
      Analysis(
        Multiline(value),
        plain && !StartsLikeDocument(value) && !(exists i :: 0 <= i < |value| && FlowIndicatorAt(value, i)),
        plain && !StartsLikeDocument(value) && !(exists i :: 0 <= i < |value| && BlockIndicatorAt(value, i)),
        SingleQuotedAllowed(s, value),
        BlockAllowed(s, value))
  }

  datatype Style = AnyStyle | PlainStyle | SingleQuotedStyle | DoubleQuotedStyle | LiteralStyle | FoldedStyle

  /** The request of a scalar event. */
  datatype Request = Request(value: Text, style: Style, plainImplicit: bool, quotedImplicit: bool)

  /** Where the scalar stands: `noTag` when no tag will be written. */
  datatype Context = Context(canonical: bool, flow: bool, simpleKey: bool, noTag: bool)

  /** The style chosen for a request; none when neither a tag nor an implicit flag is there. */
  function SelectStyle(s: Settings, r: Request, c: Context): Option<Style> {
    var a := Analyze(s, r.value);
    if c.noTag && !r.plainImplicit && !r.quotedImplicit then None
    else
      var style := if r.style == AnyStyle then PlainStyle else r.style;
      var style := if c.canonical || (c.simpleKey && a.multiline) then DoubleQuotedStyle else style;
      var style :=
        if style == PlainStyle
           && ((c.flow && !a.flowPlainAllowed) || (!c.flow && !a.blockPlainAllowed)
               || (r.value == [] && (c.flow || c.simpleKey))
               || (c.noTag && !r.plainImplicit))
        then SingleQuotedStyle else style;
      var style := if style == SingleQuotedStyle && !a.singleQuotedAllowed then DoubleQuotedStyle else style;
      var style :=
        if (style == LiteralStyle || style == FoldedStyle) && (!a.blockAllowed || c.flow || c.simpleKey)
        then DoubleQuotedStyle else style;
      Some(style)
  }

  /** A scalar that is not plain, without a tag or the flag that allows that, gets the tag `!`. */
  predicate NeedsBang(r: Request, c: Context, style: Style) {
    c.noTag && !r.quotedImplicit && style != PlainStyle
  }
}
