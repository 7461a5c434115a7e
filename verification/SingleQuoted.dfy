/**
  What yaml_emitter_write_single_quoted_scalar writes between the quotes.
 */
module SingleQuoted {
  import opened Chars
  import opened Printing

  /** The two flags of the writing loop: the last characters were spaces, or line breaks. */
  datatype Run = Run(spaces: bool, breaks: bool)

  /** A space is folded when the line is too long and the space stands alone inside the value. */
  predicate Folds(s: Settings, value: Text, i: nat, run: Run, allowBreaks: bool, pen: Pen) {
    && allowBreaks && !run.spaces && pen.column > s.bestWidth
    && i != 0 && i != |value| - 1 && At(value, i + 1) != SPACE
  }

  function NextRun(c: Char, run: Run): Run {
    if c == SPACE then run.(spaces := true)
    else if IsBreak(c) then run.(breaks := true)
    else Run(false, false)
  }

  /** One turn of the writing loop. A first line feed is doubled: folding would eat a single one. */
  function Step(s: Settings, level: int, value: Text, i: nat, run: Run, allowBreaks: bool, pen: Pen): Ink
    requires i < |value|
  {
    var c := value[i];
    if c == SPACE then
      if Folds(s, value, i, run, allowBreaks, pen) then WriteIndent(s, level, pen) else Put([SPACE], pen)
    else if IsBreak(c) then
      var extra := if !run.breaks && c == LF then BreakText(s.lineBreak) else [];
      var ink := WriteBreak(s, c, pen);
      Ink(extra + ink.text, ink.pen.(indention := true))
    else
      var indent := if run.breaks then WriteIndent(s, level, pen) else Ink([], pen);
      var ink := Put(if c == SQUOTE then [SQUOTE, SQUOTE] else [c], indent.pen);
      Ink(indent.text + ink.text, ink.pen.(indention := false))
  }

  /** The loop from character `i` on. */
  function Body(s: Settings, level: int, value: Text, i: nat, run: Run, allowBreaks: bool, pen: Pen): Ink
    requires i <= |value|
    decreases |value| - i
  {
    if i == |value| then Ink([], pen)
    else
      var ink := Step(s, level, value, i, run, allowBreaks, pen);
      var rest := Body(s, level, value, i + 1, NextRun(value[i], run), allowBreaks, ink.pen);
      Ink(ink.text + rest.text, rest.pen)
  }

  /** The whole scalar, quotes included. */
  function Written(s: Settings, level: int, value: Text, allowBreaks: bool, pen: Pen): Ink {
    var open := WriteIndicator([SQUOTE], true, false, false, pen);
    var body := Body(s, level, value, 0, Run(false, false), allowBreaks, open.pen);
    var close := WriteIndicator([SQUOTE], false, false, false, body.pen);
    Ink(open.text + body.text + close.text, Pen(close.pen.column, false, false))
  }
}
