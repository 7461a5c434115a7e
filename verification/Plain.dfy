/**
  What yaml_emitter_write_plain_scalar writes.
 */
module Plain {
  import opened Chars
  import opened Printing
  import SingleQuoted

  /** A space is folded when the line is too long and the space is the last of its run. */
  predicate Folds(s: Settings, value: Text, i: nat, run: SingleQuoted.Run, allowBreaks: bool, pen: Pen) {
    allowBreaks && !run.spaces && pen.column > s.bestWidth && At(value, i + 1) != SPACE
  }

  /** One turn of the writing loop; its flags are those of the single-quoted writer. */
  function Step(s: Settings, level: int, value: Text, i: nat, run: SingleQuoted.Run, allowBreaks: bool, pen: Pen): Ink
    requires i < |value|
  {
    var c := value[i];
    if c == SPACE then
      if Folds(s, value, i, run, allowBreaks, pen) then WriteIndent(s, level, pen) else Put([SPACE], pen)
    else if IsBreak(c) then
      var extra := if !run.breaks && c == LF then BreakText(s.lineBreak) else [];
      var ink := WriteBreak(s, c, pen);
      Ink(extra + ink.text, ink.pen.(indention := true))
    else
      var indent := if run.breaks then WriteIndent(s, level, pen) else Ink([], pen);
      var ink := Put([c], indent.pen);
      Ink(indent.text + ink.text, ink.pen.(indention := false))
  }

  function Body(s: Settings, level: int, value: Text, i: nat, run: SingleQuoted.Run, allowBreaks: bool, pen: Pen): Ink
    requires i <= |value|
    decreases |value| - i
  {
    if i == |value| then Ink([], pen)
    else
      var ink := Step(s, level, value, i, run, allowBreaks, pen);
      var rest := Body(s, level, value, i + 1, SingleQuoted.NextRun(value[i], run), allowBreaks, ink.pen);
      Ink(ink.text + rest.text, rest.pen)
  }

  function Written(s: Settings, level: int, value: Text, allowBreaks: bool, pen: Pen): Ink {
    var open := if pen.whitespace then Ink([], pen) else Put([SPACE], pen);
    var body := Body(s, level, value, 0, SingleQuoted.Run(false, false), allowBreaks, open.pen);
    Ink(open.text + body.text, Pen(body.pen.column, false, false))
  }
}
