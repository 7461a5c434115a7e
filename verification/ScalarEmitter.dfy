/**
  The emitter object at work on scalars: its state is changed character by character, as in
  emitter.c, and each writer is proved against the ink it is specified to write.

  `output` is everything ever put into the output buffer: when the buffer is flushed does not
  matter here (module `OutputBuffers` treats the buffer itself).
 */
module ScalarEmitter {
  import opened Chars
  import opened Options
  import opened Printing
  import opened ScalarAnalysis
  import AnalyzeScalar
  import DoubleQuoted
  import SingleQuoted
  import Literal
  import Plain
  import Folded
  import Tags
  import opened NodeProperties

  /** What process_scalar writes; no style chosen is AnyStyle. */
  function ScalarInk(s: Settings, level: int, value: Text, style: Style, simpleKey: bool, pen: Pen): Ink
    requires s.Normal()
  {
    match style
    case AnyStyle => Ink([], pen)
    case PlainStyle => Plain.Written(s, level, value, !simpleKey, pen)
    case SingleQuotedStyle => SingleQuoted.Written(s, level, value, !simpleKey, pen)
    case DoubleQuotedStyle => DoubleQuoted.Written(s, level, value, !simpleKey, pen)
    case LiteralStyle => Literal.Written(s, level, value, pen)
    case FoldedStyle => Folded.Written(s, level, value, pen)
  }

  /** The tag that is written: the one of the event, or `!` where one is needed. */
  function ScalarTag(data: Option<Tags.TagData>, r: Request, c: Context, style: Style): Option<Tags.TagData> {
    if NeedsBang(r, c, style) then Some(Tags.TagData(Some([EXCLAMATION]), [])) else data
  }

  /** The whole scalar node in its style: anchor, tag and value. */
  function NodeInk(s: Settings, level: int, r: Request, c: Context, style: Style,
                   anchor: Option<Text>, data: Option<Tags.TagData>, pen: Pen): Ink
    requires s.Normal()
  {
    var name := WriteAnchor(anchor, false, pen);
    var tag := WriteTag(ScalarTag(data, r, c, style), name.pen);
    Then(Then(name, tag), ScalarInk(s, level, r.value, style, c.simpleKey, tag.pen))
  }

  class Emitter {
    const settings: Settings
    var output: Text
    var column: nat
    var whitespace: bool
    var indention: bool
    var indent: int
    var indents: seq<int>

    constructor (settings: Settings)
      requires settings.Normal()
      ensures this.settings == settings && output == [] && CurrentPen() == Pen(0, true, true)
      ensures indent == -1 && indents == []
    {
      this.settings := settings;
      output, column, whitespace, indention, indent, indents := [], 0, true, true, -1, [];
    }

    function CurrentPen(): Pen
      reads this
    {
      Pen(column, whitespace, indention)
    }

    method Put(c: Char)
      modifies this`output, this`column
      ensures output == old(output) + [c] && column == old(column) + 1
    {
      output, column := output + [c], column + 1;
    }

    method PutBreak()
      modifies this`output, this`column
      ensures output == old(output) + BreakText(settings.lineBreak) && column == 0
    {
      match settings.lineBreak {
        case CrBreak => output := output + [CR];
        case LnBreak => output := output + [LF];
        case CrLnBreak => output := output + [CR, LF];
      }
      column := 0;
    }

    method WriteBreak(c: Char)
      modifies this`output, this`column
      ensures var ink := Printing.WriteBreak(settings, c, old(CurrentPen()));
        output == old(output) + ink.text && CurrentPen() == ink.pen
    {
      if c == LF {
        PutBreak();
      } else {
        output, column := output + [c], 0;
      }
    }

    method WriteIndent()
      modifies this`output, this`column, this`whitespace, this`indention
      ensures var ink := Printing.WriteIndent(settings, indent, old(CurrentPen()));
        output == old(output) + ink.text && CurrentPen() == ink.pen
    {
      var target := if indent >= 0 then indent else 0;
      if !indention || column > target || (column == target && !whitespace) {
        PutBreak();
      }
      ghost var before, start := output, column;
      assert before + Repeat(SPACE, 0) == before;
      while column < target
        invariant start <= column <= target
        invariant output == before + Repeat(SPACE, column - start)
      {
        assert Repeat(SPACE, column - start) + [SPACE] == Repeat(SPACE, column + 1 - start);
        Put(SPACE);
      }
      whitespace, indention := true, true;
      assert old(output) + ([] + Repeat(SPACE, target - start)) == old(output) + Repeat(SPACE, target - start);
    }

    /** Writes character after character. */
    method PutAll(text: Text)
      modifies this`output, this`column
      ensures output == old(output) + text && column == old(column) + |text|
    {
      assert text[..0] == [];
      var i := 0;
      while i < |text|
        invariant 0 <= i <= |text|
        invariant output == old(output) + text[..i] && column == old(column) + i
      {
        assert text[..i] + [text[i]] == text[..i + 1];
        Put(text[i]);
        i := i + 1;
      }
      assert text[..i] == text;
    }

    method WriteIndicator(text: Text, needWhitespace: bool, isWhitespace: bool, isIndention: bool)
      modifies this`output, this`column, this`whitespace, this`indention
      ensures var ink := Printing.WriteIndicator(text, needWhitespace, isWhitespace, isIndention, old(CurrentPen()));
        output == old(output) + ink.text && CurrentPen() == ink.pen
    {
      ghost var ink := Printing.WriteIndicator(text, needWhitespace, isWhitespace, isIndention, CurrentPen());
      if needWhitespace && !whitespace {
        Put(SPACE);
        assert ink.text == [SPACE] + text;
      } else {
        assert ink.text == text;
      }
      PutAll(text);
      whitespace := isWhitespace;
      indention := indention && isIndention;
      assert output == old(output) + ink.text;
    }

    method WriteHexDigits(value: nat, width: nat)
      modifies this`output, this`column
      ensures output == old(output) + DoubleQuoted.HexDigits(value, width) && column == old(column) + width
    {
      var k := width;
      while k > 0
        invariant 0 <= k <= width
        invariant output + DoubleQuoted.HexDigits(value, k) == old(output) + DoubleQuoted.HexDigits(value, width)
        invariant column == old(column) + (width - k)
      {
        ghost var rest := DoubleQuoted.HexDigits(value, k - 1);
        var digit := HexDigit(value / DoubleQuoted.Pow16(k - 1) % 16);
        assert (output + [digit]) + rest == output + ([digit] + rest);
        Put(digit);
        k := k - 1;
      }
      assert output + [] == output;
    }

    method WriteEscape(c: Char)
      modifies this`output, this`column
      ensures output == old(output) + DoubleQuoted.Escape(c) && column == old(column) + |DoubleQuoted.Escape(c)|
    {
      hide DoubleQuoted.ShortEscape, DoubleQuoted.HexDigits;
      ghost var escape := DoubleQuoted.Escape(c);
      Put(BACKSLASH);
      var short := DoubleQuoted.ShortEscape(c);
      if short != NUL {
        Put(short);
      } else if c <= 0xFF {
        Put(0x78);
        WriteHexDigits(c, 2);
      } else if c <= 0xFFFF {
        Put(0x75);
        WriteHexDigits(c, 4);
      } else {
        Put(0x55);
        WriteHexDigits(c, 8);
      }
      assert output == old(output) + escape;
    }

    method WriteDoubleQuotedScalar(value: Text, allowBreaks: bool)
      modifies this`output, this`column, this`whitespace, this`indention
      ensures var ink := DoubleQuoted.Written(settings, indent, value, allowBreaks, old(CurrentPen()));
        output == old(output) + ink.text && CurrentPen() == ink.pen
    {
      hide DoubleQuoted.Step;
      WriteIndicator([DQUOTE], true, false, false);
      ghost var open, before := CurrentPen(), output;
      ghost var body := DoubleQuoted.Body(settings, indent, value, 0, false, allowBreaks, open);
      var spaces := false;
      var i := 0;
      while i < |value|
        invariant 0 <= i <= |value|
        invariant var rest := DoubleQuoted.Body(settings, indent, value, i, spaces, allowBreaks, CurrentPen());
          output + rest.text == before + body.text && rest.pen == body.pen
      {
        ghost var here, pen := output, CurrentPen();
        ghost var ink := DoubleQuoted.Step(settings, indent, value, i, spaces, allowBreaks, pen);
        ghost var spaces' := !DoubleQuoted.NeedsEscape(settings, value[i]) && value[i] == SPACE;
        ghost var rest := DoubleQuoted.Body(settings, indent, value, i + 1, spaces', allowBreaks, ink.pen);
        assert here + (ink.text + rest.text) == (here + ink.text) + rest.text;
        spaces := WriteDoubleQuotedCharacter(value, i, spaces, allowBreaks);
        i := i + 1;
      }
      assert output + [] == output;
      WriteIndicator([DQUOTE], false, false, false);
      whitespace, indention := false, false;
      ghost var text := DoubleQuoted.Written(settings, indent, value, allowBreaks, old(CurrentPen())).text;
      assert output == old(output) + text;
    }

    method WriteDoubleQuotedCharacter(value: Text, i: nat, spaces: bool, allowBreaks: bool) returns (spaces': bool)
      requires i < |value|
      modifies this`output, this`column, this`whitespace, this`indention
      ensures var ink := DoubleQuoted.Step(settings, indent, value, i, spaces, allowBreaks, old(CurrentPen()));
        output == old(output) + ink.text && CurrentPen() == ink.pen
      ensures spaces' == (!DoubleQuoted.NeedsEscape(settings, value[i]) && value[i] == SPACE)
    {
      var c := value[i];
      if DoubleQuoted.NeedsEscape(settings, c) {
        WriteEscape(c);
        spaces' := false;
      } else if c == SPACE {
        if allowBreaks && !spaces && column > settings.bestWidth && i != 0 && i != |value| - 1 {
          WriteIndent();
          if At(value, i + 1) == SPACE {
            Put(BACKSLASH);
          }
        } else {
          Put(c);
        }
        spaces' := true;
      } else {
        Put(c);
        spaces' := false;
      }
    }

    method WriteSingleQuotedScalar(value: Text, allowBreaks: bool)
      modifies this`output, this`column, this`whitespace, this`indention
      ensures var ink := SingleQuoted.Written(settings, indent, value, allowBreaks, old(CurrentPen()));
        output == old(output) + ink.text && CurrentPen() == ink.pen
    {
      hide SingleQuoted.Step;
      WriteIndicator([SQUOTE], true, false, false);
      ghost var open, before := CurrentPen(), output;
      var run := SingleQuoted.Run(false, false);
      ghost var body := SingleQuoted.Body(settings, indent, value, 0, run, allowBreaks, open);
      var i := 0;
      while i < |value|
        invariant 0 <= i <= |value|
        invariant var rest := SingleQuoted.Body(settings, indent, value, i, run, allowBreaks, CurrentPen());
          output + rest.text == before + body.text && rest.pen == body.pen
      {
        ghost var here, pen := output, CurrentPen();
        ghost var ink := SingleQuoted.Step(settings, indent, value, i, run, allowBreaks, pen);
        ghost var rest := SingleQuoted.Body(settings, indent, value, i + 1, SingleQuoted.NextRun(value[i], run), allowBreaks, ink.pen);
        assert here + (ink.text + rest.text) == (here + ink.text) + rest.text;
        run := WriteSingleQuotedCharacter(value, i, run, allowBreaks);
        i := i + 1;
      }
      assert output + [] == output;
      WriteIndicator([SQUOTE], false, false, false);
      whitespace, indention := false, false;
      ghost var text := SingleQuoted.Written(settings, indent, value, allowBreaks, old(CurrentPen())).text;
      assert output == old(output) + text;
    }

    method WriteSingleQuotedCharacter(value: Text, i: nat, run: SingleQuoted.Run, allowBreaks: bool)
      returns (run': SingleQuoted.Run)
      requires i < |value|
      modifies this`output, this`column, this`whitespace, this`indention
      ensures var ink := SingleQuoted.Step(settings, indent, value, i, run, allowBreaks, old(CurrentPen()));
        output == old(output) + ink.text && CurrentPen() == ink.pen
      ensures run' == SingleQuoted.NextRun(value[i], run)
    {
      hide Printing.WriteIndent;
      var c := value[i];
      run' := run;
      if c == SPACE {
        if allowBreaks && !run.spaces && column > settings.bestWidth && i != 0 && i != |value| - 1
           && At(value, i + 1) != SPACE {
          WriteIndent();
        } else {
          Put(c);
        }
        run' := run'.(spaces := true);
      } else if IsBreak(c) {
        if !run.breaks && c == LF {
          PutBreak();
        }
        WriteBreak(c);
        indention := true;
        run' := run'.(breaks := true);
      } else {
        WriteSingleQuotedLetter(c, run.breaks);
        run' := SingleQuoted.Run(false, false);
      }
    }

    method WriteSingleQuotedLetter(c: Char, breaks: bool)
      modifies this`output, this`column, this`whitespace, this`indention
      ensures var indent := if breaks then Printing.WriteIndent(settings, indent, old(CurrentPen())) else Ink([], old(CurrentPen()));
        var ink := Printing.Put(if c == SQUOTE then [SQUOTE, SQUOTE] else [c], indent.pen);
        output == old(output) + (indent.text + ink.text) && CurrentPen() == ink.pen.(indention := false)
    {
      hide Printing.WriteIndent;
      if breaks {
        WriteIndent();
      }
      if c == SQUOTE {
        Put(SQUOTE);
      }
      Put(c);
      indention := false;
    }

    method WriteBlockScalarHints(value: Text)
      requires settings.Normal()
      modifies this`output, this`column, this`whitespace, this`indention
      ensures var ink := Literal.Hints(settings, value, old(CurrentPen()));
        output == old(output) + ink.text && CurrentPen() == ink.pen
    {
      hide Printing.WriteIndicator;
      if At(value, 0) == SPACE || IsBreak(At(value, 0)) {
        WriteIndicator([DIGIT0 + settings.bestIndent], false, false, false);
      }
      var chomp: Text := [];
      var n := |value|;
      if n == 0 {
        chomp := [DASH];
      } else if !IsBreak(value[n - 1]) {
        chomp := [DASH];
      } else if n == 1 {
        chomp := [PLUS];
      } else if IsBreak(value[n - 2]) {
        chomp := [PLUS];
      }
      assert chomp == Literal.ChompHint(value);
      if chomp != [] {
        WriteIndicator(chomp, false, false, false);
      }
      ghost var ink := Literal.Hints(settings, value, old(CurrentPen()));
      assert output == old(output) + ink.text;
    }

    method WriteBlockHeader(indicator: Char, value: Text)
      requires settings.Normal()
      modifies this`output, this`column, this`whitespace, this`indention
      ensures var ink := Literal.BlockHeader(settings, indicator, value, old(CurrentPen()));
        output == old(output) + ink.text && CurrentPen() == ink.pen
    {
      hide Literal.Hints, Printing.WriteIndicator;
      WriteIndicator([indicator], true, false, false);
      WriteBlockScalarHints(value);
      assert output == old(output) + Literal.BlockHeader(settings, indicator, value, old(CurrentPen())).text;
    }

    method WriteLiteralScalar(value: Text)
      requires settings.Normal()
      modifies this`output, this`column, this`whitespace, this`indention
      ensures var ink := Literal.Written(settings, indent, value, old(CurrentPen()));
        output == old(output) + ink.text && CurrentPen() == ink.pen
    {
      hide Literal.BlockHeader, Literal.Body, BreakText;
      ghost var header := Literal.Header(settings, value, CurrentPen()).text;
      WriteBlockHeader(BAR, value);
      PutBreak();
      indention, whitespace := true, true;
      ghost var body := Literal.Body(settings, indent, value, 0, true, CurrentPen()).text;
      WriteLiteralLines(value);
      assert output == old(output) + (header + BreakText(settings.lineBreak) + body);
    }

    method WriteLiteralLines(value: Text)
      modifies this`output, this`column, this`whitespace, this`indention
      ensures var ink := Literal.Body(settings, indent, value, 0, true, old(CurrentPen()));
        output == old(output) + ink.text && CurrentPen() == ink.pen
    {
      hide Literal.Step;
      ghost var body := Literal.Body(settings, indent, value, 0, true, CurrentPen());
      var breaks := true;
      var i := 0;
      while i < |value|
        invariant 0 <= i <= |value|
        invariant var rest := Literal.Body(settings, indent, value, i, breaks, CurrentPen());
          output + rest.text == old(output) + body.text && rest.pen == body.pen
      {
        ghost var here, pen := output, CurrentPen();
        ghost var ink := Literal.Step(settings, indent, value[i], breaks, pen);
        ghost var rest := Literal.Body(settings, indent, value, i + 1, IsBreak(value[i]), ink.pen);
        assert here + (ink.text + rest.text) == (here + ink.text) + rest.text;
        WriteLiteralCharacter(value[i], breaks);
        breaks := IsBreak(value[i]);
        i := i + 1;
      }
      assert output + [] == output;
    }

    method WriteLiteralCharacter(c: Char, breaks: bool)
      modifies this`output, this`column, this`whitespace, this`indention
      ensures var ink := Literal.Step(settings, indent, c, breaks, old(CurrentPen()));
        output == old(output) + ink.text && CurrentPen() == ink.pen
    {
      if IsBreak(c) {
        WriteBreak(c);
        indention := true;
      } else {
        if breaks {
          WriteIndent();
        }
        Put(c);
        indention := false;
      }
    }

    method WritePlainScalar(value: Text, allowBreaks: bool)
      modifies this`output, this`column, this`whitespace, this`indention
      ensures var ink := Plain.Written(settings, indent, value, allowBreaks, old(CurrentPen()));
        output == old(output) + ink.text && CurrentPen() == ink.pen
    {
      hide Plain.Step;
      if !whitespace {
        Put(SPACE);
      }
      ghost var open, before := CurrentPen(), output;
      var run := SingleQuoted.Run(false, false);
      ghost var body := Plain.Body(settings, indent, value, 0, run, allowBreaks, open);
      var i := 0;
      while i < |value|
        invariant 0 <= i <= |value|
        invariant var rest := Plain.Body(settings, indent, value, i, run, allowBreaks, CurrentPen());
          output + rest.text == before + body.text && rest.pen == body.pen
      {
        ghost var here, pen := output, CurrentPen();
        ghost var ink := Plain.Step(settings, indent, value, i, run, allowBreaks, pen);
        ghost var rest := Plain.Body(settings, indent, value, i + 1, SingleQuoted.NextRun(value[i], run), allowBreaks, ink.pen);
        assert here + (ink.text + rest.text) == (here + ink.text) + rest.text;
        run := WritePlainCharacter(value, i, run, allowBreaks);
        i := i + 1;
      }
      assert output + [] == output;
      whitespace, indention := false, false;
      ghost var text := Plain.Written(settings, indent, value, allowBreaks, old(CurrentPen())).text;
      assert output == old(output) + text;
    }

    method WritePlainCharacter(value: Text, i: nat, run: SingleQuoted.Run, allowBreaks: bool) returns (run': SingleQuoted.Run)
      requires i < |value|
      modifies this`output, this`column, this`whitespace, this`indention
      ensures var ink := Plain.Step(settings, indent, value, i, run, allowBreaks, old(CurrentPen()));
        output == old(output) + ink.text && CurrentPen() == ink.pen
      ensures run' == SingleQuoted.NextRun(value[i], run)
    {
      hide Printing.WriteIndent;
      var c := value[i];
      run' := run;
      if c == SPACE {
        if allowBreaks && !run.spaces && column > settings.bestWidth && At(value, i + 1) != SPACE {
          WriteIndent();
        } else {
          Put(c);
        }
        run' := run'.(spaces := true);
      } else if IsBreak(c) {
        if !run.breaks && c == LF {
          PutBreak();
        }
        WriteBreak(c);
        indention := true;
        run' := run'.(breaks := true);
      } else {
        if run.breaks {
          WriteIndent();
        }
        Put(c);
        indention := false;
        run' := SingleQuoted.Run(false, false);
      }
    }

    method WriteFoldedScalar(value: Text)
      requires settings.Normal()
      modifies this`output, this`column, this`whitespace, this`indention
      ensures var ink := Folded.Written(settings, indent, value, old(CurrentPen()));
        output == old(output) + ink.text && CurrentPen() == ink.pen
    {
      hide Literal.BlockHeader, Folded.Body, BreakText;
      ghost var header := Literal.BlockHeader(settings, GREATER, value, CurrentPen()).text;
      WriteBlockHeader(GREATER, value);
      PutBreak();
      indention, whitespace := true, true;
      ghost var body := Folded.Body(settings, indent, value, 0, Folded.Run(true, true), CurrentPen()).text;
      WriteFoldedLines(value);
      assert output == old(output) + (header + BreakText(settings.lineBreak) + body);
    }

    method WriteFoldedLines(value: Text)
      modifies this`output, this`column, this`whitespace, this`indention
      ensures var ink := Folded.Body(settings, indent, value, 0, Folded.Run(true, true), old(CurrentPen()));
        output == old(output) + ink.text && CurrentPen() == ink.pen
    {
      hide Folded.Step;
      var run := Folded.Run(true, true);
      ghost var body := Folded.Body(settings, indent, value, 0, run, CurrentPen());
      var i := 0;
      while i < |value|
        invariant 0 <= i <= |value|
        invariant var rest := Folded.Body(settings, indent, value, i, run, CurrentPen());
          output + rest.text == old(output) + body.text && rest.pen == body.pen
      {
        ghost var here, pen := output, CurrentPen();
        ghost var ink := Folded.Step(settings, indent, value, i, run, pen);
        ghost var rest := Folded.Body(settings, indent, value, i + 1, Folded.NextRun(value[i], run), ink.pen);
        assert here + (ink.text + rest.text) == (here + ink.text) + rest.text;
        run := WriteFoldedCharacter(value, i, run);
        i := i + 1;
      }
      assert output + [] == output;
    }

    method WriteFoldedCharacter(value: Text, i: nat, run: Folded.Run) returns (run': Folded.Run)
      requires i < |value|
      modifies this`output, this`column, this`whitespace, this`indention
      ensures var ink := Folded.Step(settings, indent, value, i, run, old(CurrentPen()));
        output == old(output) + ink.text && CurrentPen() == ink.pen
      ensures run' == Folded.NextRun(value[i], run)
    {
      hide Printing.WriteIndent;
      var c := value[i];
      run' := run;
      if IsBreak(c) {
        if !run.breaks && !run.leadingSpaces && c == LF {
          var k := i;
          while IsBreak(At(value, k))
            invariant Folded.BreaksEnd(value, k) == Folded.BreaksEnd(value, i)
            decreases |value| - k
          {
            k := k + 1;
          }
          if !IsBlankZ(At(value, k)) {
            PutBreak();
          }
        }
        WriteBreak(c);
        indention := true;
        run' := run'.(breaks := true);
      } else {
        if run.breaks {
          WriteIndent();
          run' := run'.(leadingSpaces := IsBlank(c));
        }
        if !run.breaks && c == SPACE && At(value, i + 1) != SPACE && column > settings.bestWidth {
          WriteIndent();
        } else {
          Put(c);
        }
        indention := false;
        run' := run'.(breaks := false);
      }
    }

    // ----- Properties

    /** write_anchor, write_tag_handle and the loop of write_tag_content. */
    method PutWord(text: Text, needWhitespace: bool)
      modifies this`output, this`column, this`whitespace, this`indention
      ensures var ink := WriteWord(text, needWhitespace, old(CurrentPen()));
        output == old(output) + ink.text && CurrentPen() == ink.pen
    {
      WriteIndicator(text, needWhitespace, false, false);
    }

    method ProcessAnchor(anchor: Option<Text>, alias: bool)
      modifies this`output, this`column, this`whitespace, this`indention
      ensures var ink := WriteAnchor(anchor, alias, old(CurrentPen()));
        output == old(output) + ink.text && CurrentPen() == ink.pen
    {
      hide Printing.WriteIndicator;
      if anchor == None {
        return;
      }
      WriteIndicator(if alias then [STAR] else [AMPERSAND], true, false, false);
      PutWord(anchor.value, false);
      assert output == old(output) + WriteAnchor(anchor, alias, old(CurrentPen())).text;
    }

    method ProcessTag(data: Option<Tags.TagData>)
      modifies this`output, this`column, this`whitespace, this`indention
      ensures var ink := WriteTag(data, old(CurrentPen()));
        output == old(output) + ink.text && CurrentPen() == ink.pen
    {
      hide Printing.WriteIndicator, WriteWord;
      if data == None {
        return;
      }
      var content := Tags.WriteTagContent(data.value.suffix);
      if data.value.handle.Some? {
        PutWord(data.value.handle.value, true);
        PutWord(content, false);
      } else {
        WriteIndicator([EXCLAMATION, LESS], true, false, false);
        PutWord(content, false);
        WriteIndicator([GREATER], false, false, false);
      }
      assert output == old(output) + WriteTag(data, old(CurrentPen())).text;
    }

    method IncreaseIndent(flow: bool, indentless: bool)
      modifies this`indent, this`indents
      ensures indents == old(indents) + [old(indent)]
      ensures indent == IncreasedIndent(settings, old(indent), flow, indentless)
    {
      indents := indents + [indent];
      if indent < 0 {
        indent := if flow then settings.bestIndent else 0;
      } else if !indentless {
        indent := indent + settings.bestIndent;
      }
    }

    /** The style, and whether the tag `!` has to be written. */
    method SelectScalarStyle(r: Request, c: Context, a: Analysis) returns (chosen: Option<Style>, bang: bool)
      requires a == Analyze(settings, r.value)
      ensures chosen == SelectStyle(settings, r, c)
      ensures chosen.Some? ==> bang == NeedsBang(r, c, chosen.value)
    {
      hide Analyze;
      if c.noTag && !r.plainImplicit && !r.quotedImplicit {
        return None, false;
      }
      var style := r.style;
      if style == AnyStyle {
        style := PlainStyle;
      }
      if c.canonical {
        style := DoubleQuotedStyle;
      }
      if c.simpleKey && a.multiline {
        style := DoubleQuotedStyle;
      }
      if style == PlainStyle {
        if (c.flow && !a.flowPlainAllowed) || (!c.flow && !a.blockPlainAllowed) {
          style := SingleQuotedStyle;
        }
        if r.value == [] && (c.flow || c.simpleKey) {
          style := SingleQuotedStyle;
        }
        if c.noTag && !r.plainImplicit {
          style := SingleQuotedStyle;
        }
      }
      if style == SingleQuotedStyle {
        if !a.singleQuotedAllowed {
          style := DoubleQuotedStyle;
        }
      }
      if style == LiteralStyle || style == FoldedStyle {
        if !a.blockAllowed || c.flow || c.simpleKey {
          style := DoubleQuotedStyle;
        }
      }
      return Some(style), c.noTag && !r.quotedImplicit && style != PlainStyle;
    }

    /**
      A scalar node: analysis, choice of style, anchor, tag, and one level of indentation more
      while the value is written. Nothing is written when no style can be chosen.
     */
    method EmitScalar(r: Request, c: Context, anchor: Option<Text>, data: Option<Tags.TagData>) returns (style: Option<Style>)
      requires settings.Normal() && c.noTag == (data == None)
      modifies this`output, this`column, this`whitespace, this`indention, this`indent, this`indents
      ensures indent == old(indent) && indents == old(indents)
      ensures style == SelectStyle(settings, r, c)
      ensures match style
        case None => output == old(output) && CurrentPen() == old(CurrentPen())
        case Some(chosen) =>
          var level := IncreasedIndent(settings, indent, true, false);
          var ink := NodeInk(settings, level, r, c, chosen, anchor, data, old(CurrentPen()));
          output == old(output) + ink.text && CurrentPen() == ink.pen
    {
      hide Analyze, SelectStyle, WriteAnchor, WriteTag, ScalarInk;
      var a := AnalyzeScalar.AnalyzeScalar(settings, r.value);
      var bang: bool;
      style, bang := SelectScalarStyle(r, c, a);
      if style == None {
        return;
      }
      StyleIsChosen(r, c);
      ProcessAnchor(anchor, false);
      ProcessTag(if bang then Some(Tags.TagData(Some([EXCLAMATION]), [])) else data);
      IncreaseIndent(true, false);
      ProcessScalar(r.value, style.value, c.simpleKey);
      assert output == old(output) + NodeInk(settings, indent, r, c, style.value, anchor, data, old(CurrentPen())).text;
      indent, indents := indents[|indents| - 1], indents[..|indents| - 1];
    }

    lemma StyleIsChosen(r: Request, c: Context)
      ensures SelectStyle(settings, r, c) != Some(AnyStyle)
    {
    }

    method ProcessScalar(value: Text, style: Style, simpleKey: bool)
      requires settings.Normal() && style != AnyStyle
      modifies this`output, this`column, this`whitespace, this`indention
      ensures var ink := ScalarInk(settings, indent, value, style, simpleKey, old(CurrentPen()));
        output == old(output) + ink.text && CurrentPen() == ink.pen
    {
      hide DoubleQuoted.Written, SingleQuoted.Written, Literal.Written, Plain.Written, Folded.Written;
      match style {
        case PlainStyle => WritePlainScalar(value, !simpleKey);
        case SingleQuotedStyle => WriteSingleQuotedScalar(value, !simpleKey);
        case DoubleQuotedStyle => WriteDoubleQuotedScalar(value, !simpleKey);
        case LiteralStyle => WriteLiteralScalar(value);
        case FoldedStyle => WriteFoldedScalar(value);
      }
    }
  }
}
