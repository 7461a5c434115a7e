/**
  yaml_parser_scan_plain_scalar and yaml_parser_scan_anchor, as functions of the input still to
  be read.

  The loop of a plain scalar is in one of three places, as that of a quoted one: at the start of
  a round, in text, or among blanks and line breaks. What is pending from the blanks is joined to
  the value only when more text comes.
 */
module PlainScanner {
  import opened Chars
  import opened Options
  import opened FlowScanner
  import Tags

  /** Whether the scalar is in a flow collection, and the column of the block around it. */
  datatype Around = Around(flow: bool, indent: int)

  /** Blanks on the line of the text, or the line breaks since. */
  datatype Pending = Pending(breaks: bool, whitespaces: Text, leadingBreak: Text, trailingBreaks: Text)

  const NOTHING := Pending(false, [], [], [])

  /** With the value: where it was left, and whether there was a line break behind it. */
  datatype PlainScan = PlainScanned(value: Text, column: nat, rest: Text, afterBreak: bool) | PlainError

  function Join(p: Pending): Text {
    Joined(p.breaks, p.whitespaces, p.leadingBreak, p.trailingBreaks)
  }

  function Stop(input: Text, column: nat, value: Text, pending: Pending): PlainScan {
    PlainScanned(value, column, input, pending.breaks)
  }

  predicate IsFlowIndicator(c: Char) {
    || c == COMMA || c == COLON || c == QUESTION
    || c == LEFT_BRACKET || c == RIGHT_BRACKET || c == LEFT_BRACE || c == RIGHT_BRACE
  }

  /** A colon that is not followed by a blank is refused in a flow collection. */
  predicate IsMisplacedColon(around: Around, input: Text) {
    around.flow && At(input, 0) == COLON && !IsBlankZ(At(input, 1))
  }

  /** An indicator that ends the scalar. */
  predicate EndsText(around: Around, input: Text) {
    || (At(input, 0) == COLON && IsBlankZ(At(input, 1)))
    || (around.flow && IsFlowIndicator(At(input, 0)))
  }

  function PlainRound(around: Around, input: Text, column: nat, value: Text, pending: Pending): PlainScan
    decreases |input|, if IsBlankZ(At(input, 0)) then 4 else 1
  {
    if column == 0 && IsDocumentIndicator(input) then Stop(input, column, value, pending)
    else if At(input, 0) == HASH then Stop(input, column, value, pending)
    else PlainText(around, input, column, value, pending)
  }

  function PlainText(around: Around, input: Text, column: nat, value: Text, pending: Pending): PlainScan
    decreases |input|, if IsBlankZ(At(input, 0)) then 3 else 0
  {
    var c := At(input, 0);
    if c == NUL then Stop(input, column, value, pending)
    else if IsBlankZ(c) then PlainBlanks(around, input, column, value, pending)
    else if IsMisplacedColon(around, input) then PlainError
    else if EndsText(around, input) then Stop(input, column, value, pending)
    else PlainText(around, input[1..], column + 1, value + Join(pending) + [c], NOTHING)
  }

  function PlainBlanks(around: Around, input: Text, column: nat, value: Text, pending: Pending): PlainScan
    decreases |input|, 2
  {
    var c := At(input, 0);
    if IsBlank(c) then
      if pending.breaks && column <= around.indent && c == TAB then PlainError
      else PlainBlanks(around, input[1..], column + 1, value, WithBlank(pending, c))
    else if IsBreak(c) then
      PlainBlanks(around, input[BreakLength(input)..], 0, value, WithBreak(pending, BreakValue(c)))
    else if c == NUL || (!around.flow && column <= around.indent) then Stop(input, column, value, pending)
    else PlainRound(around, input, column, value, pending)
  }

  /** A blank counts on the line of the text only. */
  function WithBlank(pending: Pending, c: Char): Pending {
    if pending.breaks then pending else pending.(whitespaces := pending.whitespaces + [c])
  }

  /** The first break drops the blanks in front of it. */
  function WithBreak(pending: Pending, c: Char): Pending {
    if pending.breaks then pending.(trailingBreaks := pending.trailingBreaks + [c])
    else pending.(breaks := true, whitespaces := [], leadingBreak := pending.leadingBreak + [c])
  }

  /** The token that starts here. */
  function ScanPlain(around: Around, input: Text, column: nat): PlainScan {
    PlainRound(around, input, column, [], NOTHING)
  }

  // ----- Anchors and aliases

  /** What may stand behind a name: a blank, a break, the end, or one of ? : , ] } % @ ` */
  predicate EndsName(c: Char) {
    || IsBlankZ(c) || c == QUESTION || c == COLON || c == COMMA || c == RIGHT_BRACKET || c == RIGHT_BRACE
    || c == PERCENT || c == AT_SIGN || c == BACKQUOTE
  }

  /** The name behind an indicator, as its length; none if there is no name or it does not end as it should. */
  function ScanName(input: Text): (r: Option<nat>)
    requires input != []
    ensures r.Some? ==> 0 < r.value < |input|
  {
    var n := Tags.AlphaLength(input[1..]);
    if n == 0 || !EndsName(At(input, 1 + n)) then None else Some(n)
  }
}
