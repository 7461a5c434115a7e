/**
  What yaml_emitter_write_double_quoted_scalar writes between the quotes.
 */
module DoubleQuoted {
  import opened Chars
  import opened Printing

  predicate NeedsEscape(s: Settings, c: Char) {
    !IsPrintable(c) || (!s.unicode && !IsAscii(c)) || c == BOM || IsBreak(c) || c == DQUOTE || c == BACKSLASH
  }

  function Pow16(n: nat): (r: nat)
    ensures r > 0
  {
    if n == 0 then 1 else 16 * Pow16(n - 1)
  }

  /** The low `n` hexadecimal digits, highest first. */
  function HexDigits(value: nat, n: nat): (r: Text)
    ensures |r| == n
  {
    if n == 0 then [] else [HexDigit(value / Pow16(n - 1) % 16)] + HexDigits(value, n - 1)
  }

  /** The letter of a two-character escape, if the character has one. */
  function ShortEscape(c: Char): (r: Char) {
    match c as int
    case 0x00 => 0x30  // 0
    case 0x07 => 0x61  // a
    case 0x08 => 0x62  // b
    case 0x09 => 0x74  // t
    case 0x0A => 0x6E  // n
    case 0x0B => 0x76  // v
    case 0x0C => 0x66  // f
    case 0x0D => 0x72  // r
    case 0x1B => 0x65  // e
    case 0x22 => DQUOTE
    case 0x5C => BACKSLASH
    case 0x85 => 0x4E  // N
    case 0xA0 => 0x5F  // _
    case 0x2028 => 0x4C  // L
    case 0x2029 => 0x50  // P
    case _ => NUL
  }

  function Escape(c: Char): (r: Text)
    ensures |r| >= 2
  {
    var short := ShortEscape(c);
    if short != NUL then [BACKSLASH, short]
    else if c <= 0xFF then [BACKSLASH, 0x78] + HexDigits(c, 2)
    else if c <= 0xFFFF then [BACKSLASH, 0x75] + HexDigits(c, 4)
    else [BACKSLASH, 0x55] + HexDigits(c, 8)
  }

  /** A space is folded into a line break when the line is too long and the space is inside. */
  predicate Folds(s: Settings, value: Text, i: nat, spaces: bool, allowBreaks: bool, pen: Pen) {
    allowBreaks && !spaces && pen.column > s.bestWidth && i != 0 && i != |value| - 1
  }

  /** One turn of the writing loop. */
  function Step(s: Settings, level: int, value: Text, i: nat, spaces: bool, allowBreaks: bool, pen: Pen): Ink
    requires i < |value|
  {
    var c := value[i];
    if NeedsEscape(s, c) then Put(Escape(c), pen)
    else if c == SPACE && Folds(s, value, i, spaces, allowBreaks, pen) then
      var ink := WriteIndent(s, level, pen);
      if At(value, i + 1) == SPACE then Ink(ink.text + [BACKSLASH], ink.pen.(column := ink.pen.column + 1)) else ink
    else Put([c], pen)
  }

  /** The loop from character `i` on; `spaces` says whether the last character was a bare space. */
  function Body(s: Settings, level: int, value: Text, i: nat, spaces: bool, allowBreaks: bool, pen: Pen): Ink
    requires i <= |value|
    decreases |value| - i
  {
    if i == |value| then Ink([], pen)
    else
      var ink := Step(s, level, value, i, spaces, allowBreaks, pen);
      var rest := Body(s, level, value, i + 1, !NeedsEscape(s, value[i]) && value[i] == SPACE, allowBreaks, ink.pen);
      Ink(ink.text + rest.text, rest.pen)
  }

  /** The whole scalar, quotes included. */
  function Written(s: Settings, level: int, value: Text, allowBreaks: bool, pen: Pen): Ink {
    var open := WriteIndicator([DQUOTE], true, false, false, pen);
    var body := Body(s, level, value, 0, false, allowBreaks, open.pen);
    var close := WriteIndicator([DQUOTE], false, false, false, body.pen);
    Ink(open.text + body.text + close.text, Pen(close.pen.column, false, false))
  }
}
