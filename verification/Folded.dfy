/**
  What yaml_emitter_write_folded_scalar writes, header and lines.
 */
module Folded {
  import opened Chars
  import opened Printing
  import Literal

  /** The flags of the writing loop: the last character was a break; the line started with a blank. */
  datatype Run = Run(breaks: bool, leadingSpaces: bool)

  /** Where a run of line breaks ends. */
  function BreaksEnd(value: Text, i: nat): (n: nat)
    ensures n >= i && !IsBreak(At(value, n)) && forall k :: i <= k < n ==> IsBreak(At(value, k))
    decreases |value| - i
  {
    if IsBreak(At(value, i)) then BreaksEnd(value, i + 1) else i
  }

  /** A line feed is doubled between two lines of text, where folding would eat a single one. */
  predicate Doubles(value: Text, i: nat, run: Run) {
    !run.breaks && !run.leadingSpaces && At(value, i) == LF && !IsBlankZ(At(value, BreaksEnd(value, i)))
  }

  function NextRun(c: Char, run: Run): Run {
    if IsBreak(c) then run.(breaks := true)
    else Run(false, if run.breaks then IsBlank(c) else run.leadingSpaces)
  }

  predicate Folds(s: Settings, value: Text, i: nat, run: Run, pen: Pen) {
    !run.breaks && At(value, i) == SPACE && At(value, i + 1) != SPACE && pen.column > s.bestWidth
  }

  /** One turn of the writing loop. */
  function Step(s: Settings, level: int, value: Text, i: nat, run: Run, pen: Pen): Ink
    requires i < |value|
  {
    var c := value[i];
    if IsBreak(c) then
      var extra := if Doubles(value, i, run) then BreakText(s.lineBreak) else [];
      var ink := WriteBreak(s, c, pen);
      Ink(extra + ink.text, ink.pen.(indention := true))
    else
      var indent := if run.breaks then WriteIndent(s, level, pen) else Ink([], pen);
      var ink := if Folds(s, value, i, run, indent.pen) then WriteIndent(s, level, indent.pen) else Put([c], indent.pen);
      Ink(indent.text + ink.text, ink.pen.(indention := false))
  }

  function Body(s: Settings, level: int, value: Text, i: nat, run: Run, pen: Pen): Ink
    requires i <= |value|
    decreases |value| - i
  {
    if i == |value| then Ink([], pen)
    else
      var ink := Step(s, level, value, i, run, pen);
      var rest := Body(s, level, value, i + 1, NextRun(value[i], run), ink.pen);
      Ink(ink.text + rest.text, rest.pen)
  }

  function Written(s: Settings, level: int, value: Text, pen: Pen): Ink
    requires s.Normal()
  {
    var header := Literal.BlockHeader(s, GREATER, value, pen);
    var body := Body(s, level, value, 0, Run(true, true), Pen(0, true, true));
    Ink(header.text + BreakText(s.lineBreak) + body.text, body.pen)
  }
}
