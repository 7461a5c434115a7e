/**
  The emitter's pen: how single characters, line breaks, indents and indicators move the
  column and the `whitespace` and `indention` flags (emitter.c, PUT .. WRITE_BREAK,
  yaml_emitter_write_indent, yaml_emitter_write_indicator).

  A writer is a function from a pen to `Ink`: the text it appends to the output and the
  pen it leaves.
 */
module Printing {
  import opened Chars

  datatype LineBreak = CrBreak | LnBreak | CrLnBreak

  datatype Settings = Settings(bestIndent: nat, bestWidth: nat, lineBreak: LineBreak, unicode: bool)
  {
    /** What the emitter normalises its settings to when the stream starts. */
    predicate Normal() {
      2 <= bestIndent <= 9
    }
  }

  datatype Pen = Pen(column: nat, whitespace: bool, indention: bool)

  datatype Ink = Ink(text: Text, pen: Pen)

  /** The characters that end a line in the chosen style. */
  function BreakText(lineBreak: LineBreak): Text {
    match lineBreak
    case CrBreak => [CR]
    case LnBreak => [LF]
    case CrLnBreak => [CR, LF]
  }

  function Put(text: Text, pen: Pen): Ink {
    Ink(text, pen.(column := pen.column + |text|))
  }

  function PutBreak(s: Settings, pen: Pen): Ink {
    Ink(BreakText(s.lineBreak), pen.(column := 0))
  }

  /** A line feed is written in the chosen style; LS and PS are copied. */
  function WriteBreak(s: Settings, c: Char, pen: Pen): Ink {
    if c == LF then PutBreak(s, pen) else Ink([c], pen.(column := 0))
  }

  /** Whether an indent has to start a new line first. */
  predicate BreaksLine(indent: nat, pen: Pen) {
    !pen.indention || pen.column > indent || (pen.column == indent && !pen.whitespace)
  }

  function WriteIndent(s: Settings, level: int, pen: Pen): Ink {
    var indent := if level >= 0 then level else 0;
    var newline := BreaksLine(indent, pen);
    var column := if newline then 0 else pen.column;
    Ink((if newline then BreakText(s.lineBreak) else []) + Repeat(SPACE, indent - column), Pen(indent, true, true))
  }

  function WriteIndicator(text: Text, needWhitespace: bool, isWhitespace: bool, isIndention: bool, pen: Pen): Ink {
    var gap := if needWhitespace && !pen.whitespace then [SPACE] else [];
    Ink(gap + text, Pen(pen.column + |gap + text|, isWhitespace, pen.indention && isIndention))
  }

  /** The new indentation level; `flow` asks for a nonzero level even at the root. */
  function IncreasedIndent(s: Settings, level: int, flow: bool, indentless: bool): int {
    if level < 0 then (if flow then s.bestIndent else 0)
    else if !indentless then level + s.bestIndent
    else level
  }
}
