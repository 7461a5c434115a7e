/**
  Characters as the scanner and the emitter see them: Unicode scalar values, and the
  character classes that the code tests for.

  The code works on UTF-8 bytes and tests classes with macros over one to three bytes.
  Here a class is a predicate on the scalar value; module `Utf8` proves that each byte
  macro, on the encoding of a character, says the same.
 */
module Chars {

  /** A Unicode scalar value: any code point that is not a surrogate. */
  type Char = c: int | 0 <= c < 0xD800 || 0xE000 <= c <= 0x10FFFF

  type Text = seq<Char>

  const NUL: Char := 0
  const TAB: Char := 0x09
  const LF: Char := 0x0A
  const CR: Char := 0x0D
  const SPACE: Char := 0x20
  const DQUOTE: Char := 0x22
  const EXCLAMATION: Char := 0x21
  const HASH: Char := 0x23
  const PERCENT: Char := 0x25
  const AMPERSAND: Char := 0x26
  const SQUOTE: Char := 0x27
  const STAR: Char := 0x2A
  const PLUS: Char := 0x2B
  const COMMA: Char := 0x2C
  const DASH: Char := 0x2D
  const DOT: Char := 0x2E
  const DIGIT0: Char := 0x30
  const COLON: Char := 0x3A
  const LESS: Char := 0x3C
  const GREATER: Char := 0x3E
  const QUESTION: Char := 0x3F
  const AT_SIGN: Char := 0x40
  const LEFT_BRACKET: Char := 0x5B
  const BACKSLASH: Char := 0x5C
  const RIGHT_BRACKET: Char := 0x5D
  const BACKQUOTE: Char := 0x60
  const LEFT_BRACE: Char := 0x7B
  const BAR: Char := 0x7C
  const RIGHT_BRACE: Char := 0x7D
  const NEL: Char := 0x85
  const NBSP: Char := 0xA0
  const LS: Char := 0x2028
  const PS: Char := 0x2029
  const BOM: Char := 0xFEFF

  /** The character `k` places ahead; the reader ends the input with NUL. */
  function At(input: Text, k: nat): Char {
    if k < |input| then input[k] else NUL
  }

  predicate IsBlank(c: Char) {
    c == SPACE || c == TAB
  }

  predicate IsBreak(c: Char) {
    c == CR || c == LF || c == NEL || c == LS || c == PS
  }

  predicate IsBreakZ(c: Char) {
    IsBreak(c) || c == NUL
  }

  predicate IsBlankZ(c: Char) {
    IsBlank(c) || IsBreakZ(c)
  }

  predicate IsAscii(c: Char) {
    c <= 0x7F
  }

  /** Printable without an escape: never a byte order mark, never beyond U+FFFD. */
  predicate IsPrintable(c: Char) {
    || c == LF
    || 0x20 <= c <= 0x7E
    || 0xA0 <= c <= 0xD7FF
    || (0xE000 <= c <= 0xFFFD && c != BOM)
  }

  predicate IsDigit(c: Char) {
    DIGIT0 <= c <= 0x39
  }

  predicate IsHex(c: Char) {
    IsDigit(c) || 0x41 <= c <= 0x46 || 0x61 <= c <= 0x66
  }

  /** Digits above nine are written as capital letters. */
  function HexDigit(digit: nat): Char
    requires digit < 16
  {
    if digit < 10 then DIGIT0 + digit else 0x41 + (digit - 10)
  }

  function HexValue(c: Char): (r: nat)
    requires IsHex(c)
    ensures r < 16
  {
    if 0x41 <= c <= 0x46 then c - 0x41 + 10
    else if 0x61 <= c <= 0x66 then c - 0x61 + 10
    else c - DIGIT0
  }

  /** How many characters the line break at the start of the input takes. */
  function BreakLength(input: Text): (n: nat)
    requires IsBreak(At(input, 0))
    ensures 1 <= n <= |input|
  {
    if At(input, 0) == CR && At(input, 1) == LF then 2 else 1
  }

  /** What a line break is read as: LS and PS stay, all others become a line feed. */
  function BreakValue(c: Char): Char
    requires IsBreak(c)
  {
    if c == LS || c == PS then c else LF
  }

  /** `n` copies of `c`. */
  function Repeat(c: Char, n: nat): (r: Text) {
    seq(n, _ => c)
  }
}
