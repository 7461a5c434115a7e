/**
  What yaml_emitter_write_literal_scalar writes, header and lines.
 */
module Literal {
  import opened Chars
  import opened Printing

  /** The indentation hint: needed when the first line does not show the indentation. */
  function IndentHint(s: Settings, value: Text): Text
    requires s.Normal()
  {
    if At(value, 0) == SPACE || IsBreak(At(value, 0)) then [DIGIT0 + s.bestIndent] else []
  }

  /** The chomping hint: `-` without a final break, `+` when the final breaks must all be kept. */
  function ChompHint(value: Text): Text {
    var n := |value|;
    if n == 0 || !IsBreak(value[n - 1]) then [DASH]
    else if n == 1 || IsBreak(value[n - 2]) then [PLUS]
    else []
  }

  /** One turn of the writing loop; `breaks` says that the last character was a line break. */
  function Step(s: Settings, level: int, c: Char, breaks: bool, pen: Pen): Ink {
    if IsBreak(c) then
      var ink := WriteBreak(s, c, pen);
      Ink(ink.text, ink.pen.(indention := true))
    else
      var indent := if breaks then WriteIndent(s, level, pen) else Ink([], pen);
      var ink := Put([c], indent.pen);
      Ink(indent.text + ink.text, ink.pen.(indention := false))
  }

  function Body(s: Settings, level: int, value: Text, i: nat, breaks: bool, pen: Pen): Ink
    requires i <= |value|
    decreases |value| - i
  {
    if i == |value| then Ink([], pen)
    else
      var ink := Step(s, level, value[i], breaks, pen);
      var rest := Body(s, level, value, i + 1, IsBreak(value[i]), ink.pen);
      Ink(ink.text + rest.text, rest.pen)
  }

  /** Both hints, each only if it is needed. */
  function Hints(s: Settings, value: Text, pen: Pen): Ink
    requires s.Normal()
  {
    var hint := IndentHint(s, value);
    var indent := if hint != [] then WriteIndicator(hint, false, false, false, pen) else Ink([], pen);
    var chompHint := ChompHint(value);
    var chomp := if chompHint != [] then WriteIndicator(chompHint, false, false, false, indent.pen) else Ink([], indent.pen);
    Ink(indent.text + chomp.text, chomp.pen)
  }

  /** The indicator of a block scalar and its hints. */
  function BlockHeader(s: Settings, indicator: Char, value: Text, pen: Pen): Ink
    requires s.Normal()
  {
    var bar := WriteIndicator([indicator], true, false, false, pen);
    var hints := Hints(s, value, bar.pen);
    Ink(bar.text + hints.text, hints.pen)
  }

  function Header(s: Settings, value: Text, pen: Pen): Ink
    requires s.Normal()
  {
    BlockHeader(s, BAR, value, pen)
  }

  function Written(s: Settings, level: int, value: Text, pen: Pen): Ink
    requires s.Normal()
  {
    var header := Header(s, value, pen);
    var body := Body(s, level, value, 0, true, Pen(0, true, true));
    Ink(header.text + BreakText(s.lineBreak) + body.text, body.pen)
  }
}
