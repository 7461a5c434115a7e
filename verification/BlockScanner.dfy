/**
  yaml_parser_scan_block_scalar, as functions of the input still to be read.

  Behind the header the scanner is in one of three places: among indentation and line breaks
  (`InBreaks`), at the first character of a line (`AtLine`), or inside a line (`InLine`).
 */
module BlockScanner {
  import opened Chars
  import opened Options

  datatype Scanned = Scanned(value: Text, column: nat, rest: Text) | ScanError

  datatype Chomping = Strip | Clip | Keep

  /** The style of the scalar and the parser's own indentation level, which do not change. */
  datatype Shape = Shape(literal: bool, chomping: Chomping, parserIndent: int)

  datatype Header = Header(chomping: Chomping, increment: nat, length: nat) | HeaderError

  /** The indicators behind `|` or `>`, in either order. */
  function ReadHeader(input: Text): (h: Header)
    ensures h.Header? ==> h.length <= |input| && h.increment <= 9
  {
    var c0, c1 := At(input, 0), At(input, 1);
    if c0 == PLUS || c0 == DASH then
      var chomping := if c0 == PLUS then Keep else Strip;
      if !IsDigit(c1) then Header(chomping, 0, 1)
      else if c1 == DIGIT0 then HeaderError
      else Header(chomping, c1 - DIGIT0, 2)
    else if IsDigit(c0) then
      if c0 == DIGIT0 then HeaderError
      else if c1 == PLUS || c1 == DASH then Header(if c1 == PLUS then Keep else Strip, c0 - DIGIT0, 2)
      else Header(Clip, c0 - DIGIT0, 1)
    else Header(Clip, 0, 0)
  }

  function SkipBlanks(input: Text): (rest: Text)
    ensures |rest| <= |input|
  {
    if IsBlank(At(input, 0)) then SkipBlanks(input[1..]) else input
  }

  function SkipToBreak(input: Text): (rest: Text)
    ensures |rest| <= |input| && IsBreakZ(At(rest, 0))
  {
    if IsBreakZ(At(input, 0)) then input else SkipToBreak(input[1..])
  }

  /** The rest of the header line: blanks, a comment, the break. */
  function SkipHeaderLine(input: Text, column: nat): (r: Option<(Text, nat)>)
    ensures r.Some? ==> |r.value.0| <= |input|
  {
    var blank := SkipBlanks(input);
    var rest := if At(blank, 0) == HASH then SkipToBreak(blank) else blank;
    if !IsBreakZ(At(rest, 0)) then None
    else if IsBreak(At(rest, 0)) then Some((rest[BreakLength(rest)..], 0))
    else Some((rest, column + (|input| - |rest|)))
  }

  /** The level found from the deepest leading line, when no hint gave one. */
  function DetectedIndent(shape: Shape, deepest: nat): (r: nat)
    ensures r > 0
  {
    var indent := if deepest < shape.parserIndent + 1 then shape.parserIndent + 1 else deepest;
    if indent < 1 then 1 else indent
  }

  function InBreaks(shape: Shape, indent: nat, input: Text, column: nat, deepest: nat, value: Text,
                    leadingBreak: Text, leadingBlank: bool, breaks: Text): Scanned
    decreases |input|, 2
  {
    var c := At(input, 0);
    if (indent == 0 || column < indent) && c == SPACE then
      InBreaks(shape, indent, input[1..], column + 1, deepest, value, leadingBreak, leadingBlank, breaks)
    else
      var deepest := if column > deepest then column else deepest;
      if (indent == 0 || column < indent) && c == TAB then ScanError
      else if IsBreak(c) then
        InBreaks(shape, indent, input[BreakLength(input)..], 0, deepest, value, leadingBreak, leadingBlank,
                 breaks + [BreakValue(c)])
      else
        var indent := if indent == 0 then DetectedIndent(shape, deepest) else indent;
        AtLine(shape, indent, input, column, value, leadingBreak, leadingBlank, breaks)
  }

  /** How the breaks since the last line are joined to the value. */
  function JoinBreaks(shape: Shape, value: Text, leadingBreak: Text, blank: bool, breaks: Text): Text {
    if !shape.literal && At(leadingBreak, 0) == LF && !blank
    then (if breaks == [] then value + [SPACE] else value) + breaks
    else value + leadingBreak + breaks
  }

  /** The value with as many of the final breaks as the chomping keeps. */
  function Chomp(shape: Shape, value: Text, leadingBreak: Text, breaks: Text): Text {
    match shape.chomping
    case Strip => value
    case Clip => value + leadingBreak
    case Keep => value + leadingBreak + breaks
  }

  function AtLine(shape: Shape, indent: nat, input: Text, column: nat, value: Text,
                  leadingBreak: Text, leadingBlank: bool, breaks: Text): Scanned
    decreases |input|, 1
  {
    var c := At(input, 0);
    if column == indent && c != NUL then
      InLine(shape, indent, input, column,
             JoinBreaks(shape, value, leadingBreak, leadingBlank || IsBlank(c), breaks), IsBlank(c))
    else Scanned(Chomp(shape, value, leadingBreak, breaks), column, input)
  }

  function InLine(shape: Shape, indent: nat, input: Text, column: nat, value: Text, leadingBlank: bool): Scanned
    decreases |input|, if At(input, 0) == NUL then 3 else 0
  {
    var c := At(input, 0);
    if c == NUL then InBreaks(shape, indent, input, column, 0, value, [], leadingBlank, [])
    else if IsBreak(c) then
      InBreaks(shape, indent, input[BreakLength(input)..], 0, 0, value, [BreakValue(c)], leadingBlank, [])
    else InLine(shape, indent, input[1..], column + 1, value + [c], leadingBlank)
  }

  /** The token that starts at `|` or `>`. */
  function Scan(literal: bool, parserIndent: int, input: Text, column: nat): Scanned
    requires input != []
  {
    match ReadHeader(input[1..])
    case HeaderError => ScanError
    case Header(chomping, increment, n) =>
      match SkipHeaderLine(input[1 + n..], column + 1 + n) {
        case None => ScanError
        case Some((rest, column')) =>
          var indent := if increment == 0 then 0 else if parserIndent >= 0 then parserIndent + increment else increment;
          InBreaks(Shape(literal, chomping, parserIndent), indent, rest, column', 0, [], [], false, [])
      }
  }
}
