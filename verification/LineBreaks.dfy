/**
  A line break, as the emitter writes it and as the scanner reads it.
 */
module LineBreaks {
  import opened Chars
  import opened Printing

  /** A line break in any of the three styles is read as one line feed. */
  lemma ReadsBreakText(s: Settings, rest: Text)
    requires s.lineBreak.CrBreak? ==> At(rest, 0) != LF
    ensures var input := BreakText(s.lineBreak) + rest;
      && IsBreak(At(input, 0)) && BreakValue(At(input, 0)) == LF
      && BreakLength(input) == |BreakText(s.lineBreak)| && input[BreakLength(input)..] == rest
  {
    var input := BreakText(s.lineBreak) + rest;
    assert input[|BreakText(s.lineBreak)|..] == rest;
  }

  /** The text of a written line break: a line feed in the chosen style, LS and PS verbatim. */
  function WrittenBreak(s: Settings, c: Char): Text {
    if c == LF then BreakText(s.lineBreak) else [c]
  }

  lemma ReadsWrittenBreak(s: Settings, c: Char, rest: Text)
    requires IsPrintable(c) && IsBreak(c)
    requires s.lineBreak.CrBreak? ==> At(rest, 0) != LF
    ensures var input := WrittenBreak(s, c) + rest;
      && IsBreak(At(input, 0)) && BreakValue(At(input, 0)) == c
      && input[BreakLength(input)..] == rest
  {
    if c == LF {
      ReadsBreakText(s, rest);
    } else {
      assert ([c] + rest)[1..] == rest;
    }
  }
}
