/**
  yaml_parser_scan_flow_scalar, as functions of the input still to be read.

  The loop is in one of three places: at the start of a round (`AtRound`), among non-blank
  characters (`InText`), or among blanks and line breaks (`InBlanks`).
 */
module FlowScanner {
  import opened Chars
  import opened Options

  datatype Scanned = Scanned(value: Text, column: nat, rest: Text) | ScanError

  function Quote(single: bool): Char {
    if single then SQUOTE else DQUOTE
  }

  /** `---` or `...` followed by a blank, a break or the end. */
  predicate IsDocumentIndicator(input: Text) {
    && ((At(input, 0) == DASH && At(input, 1) == DASH && At(input, 2) == DASH)
        || (At(input, 0) == DOT && At(input, 1) == DOT && At(input, 2) == DOT))
    && IsBlankZ(At(input, 3))
  }

  /** Reads `n` hexadecimal digits behind an accumulated value. */
  function ReadHex(value: nat, input: Text, n: nat): (r: Option<nat>)
    ensures r.Some? ==> n <= |input|
    decreases n
  {
    if n == 0 then Some(value)
    else if !IsHex(At(input, 0)) then None
    else ReadHex(value * 16 + HexValue(input[0]), input[1..], n - 1)
  }

  datatype EscapeCode = Literally(value: Char) | Code(digits: nat) | Unknown

  function EscapeLetter(c: Char): EscapeCode {
    match c as int
    case 0x30 => Literally(0x00)
    case 0x61 => Literally(0x07)
    case 0x62 => Literally(0x08)
    case 0x74 => Literally(TAB)
    case 0x09 => Literally(TAB)
    case 0x6E => Literally(LF)
    case 0x76 => Literally(0x0B)
    case 0x66 => Literally(0x0C)
    case 0x72 => Literally(CR)
    case 0x65 => Literally(0x1B)
    case 0x20 => Literally(SPACE)
    case 0x22 => Literally(DQUOTE)
    case 0x27 => Literally(SQUOTE)
    case 0x5C => Literally(BACKSLASH)
    case 0x4E => Literally(NEL)
    case 0x5F => Literally(NBSP)
    case 0x4C => Literally(LS)
    case 0x50 => Literally(PS)
    case 0x78 => Code(2)
    case 0x75 => Code(4)
    case 0x55 => Code(8)
    case _ => Unknown
  }

  /** The character an escape stands for and the length of the escape. */
  function ReadEscape(input: Text): (r: Option<(Char, nat)>)
    requires At(input, 0) == BACKSLASH
    ensures r.Some? ==> 2 <= r.value.1 <= |input|
  {
    match EscapeLetter(At(input, 1))
    case Unknown => None
    case Literally(c) => Some((c, 2))
    case Code(n) =>
      match ReadHex(0, input[2..], n)
      case None => None
      case Some(v) => if 0xD800 <= v <= 0xDFFF || v > 0x10FFFF then None else Some((v, 2 + n))
  }

  /** What a run of blanks or line breaks between two pieces of text stands for. */
  function Joined(leadingBlanks: bool, whitespaces: Text, leadingBreak: Text, trailingBreaks: Text): Text {
    if !leadingBlanks then whitespaces
    else if At(leadingBreak, 0) == LF then
      if trailingBreaks == [] then [SPACE] else trailingBreaks
    else leadingBreak + trailingBreaks
  }

  function AtRound(single: bool, input: Text, column: nat, value: Text): Scanned
    decreases |input|, if IsBlankZ(At(input, 0)) then 4 else 1
  {
    if column == 0 && IsDocumentIndicator(input) then ScanError
    else if At(input, 0) == NUL then ScanError
    else InText(single, input, column, value)
  }

  function InText(single: bool, input: Text, column: nat, value: Text): Scanned
    decreases |input|, if IsBlankZ(At(input, 0)) then 3 else 0
  {
    var c := At(input, 0);
    if IsBlankZ(c) then InBlanks(single, input, column, value, false, [], [], [])
    else if single && c == SQUOTE && At(input, 1) == SQUOTE then
      InText(single, input[2..], column + 2, value + [SQUOTE])
    else if c == Quote(single) then Scanned(value, column + 1, input[1..])
    else if !single && c == BACKSLASH && IsBreak(At(input, 1)) then
      InBlanks(single, input[1 + BreakLength(input[1..])..], 0, value, true, [], [], [])
    else if !single && c == BACKSLASH then
      match ReadEscape(input) {
        case None => ScanError
        case Some((e, n)) => InText(single, input[n..], column + n, value + [e])
      }
    else InText(single, input[1..], column + 1, value + [c])
  }

  function InBlanks(single: bool, input: Text, column: nat, value: Text,
                    leadingBlanks: bool, whitespaces: Text, leadingBreak: Text, trailingBreaks: Text): Scanned
    decreases |input|, 2
  {
    var c := At(input, 0);
    if IsBlank(c) then
      InBlanks(single, input[1..], column + 1, value,
               leadingBlanks, if leadingBlanks then whitespaces else whitespaces + [c], leadingBreak, trailingBreaks)
    else if IsBreak(c) then
      var rest, b := input[BreakLength(input)..], [BreakValue(c)];
      if !leadingBlanks then InBlanks(single, rest, 0, value, true, [], leadingBreak + b, trailingBreaks)
      else InBlanks(single, rest, 0, value, true, whitespaces, leadingBreak, trailingBreaks + b)
    else if c == NUL then ScanError  // the next round finds the end of the stream
    else AtRound(single, input, column, value + Joined(leadingBlanks, whitespaces, leadingBreak, trailingBreaks))
  }

  /** The token that starts at an opening quote. */
  function Scan(single: bool, input: Text, column: nat): Scanned
    requires input != []
  {
    AtRound(single, input[1..], column + 1, [])
  }
}
