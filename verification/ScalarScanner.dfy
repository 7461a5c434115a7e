/**
  The scanner object at work on quoted, block and plain scalars and on anchors: its position in the input is moved
  character by character, as in scanner.c, and each scan is proved against the function of the
  unread input that specifies it.
 */
module ScalarScanner {
  import opened Chars
  import opened Options
  import FlowScanner
  import BlockScanner
  import PlainScanner
  import Tags

  class Scanner {
    const input: Text
    var pos: nat
    var line: nat
    var column: nat
    var indent: int
    var flowLevel: nat
    var allowed: bool  // a simple key may start here

    constructor (input: Text)
      ensures this.input == input && pos == 0 && line == 0 && column == 0 && Valid()
      ensures indent == -1 && flowLevel == 0 && !allowed
    {
      this.input := input;
      pos, line, column := 0, 0, 0;
      indent, flowLevel, allowed := -1, 0, false;
    }

    ghost predicate Valid()
      reads this
    {
      pos <= |input|
    }

    /** The input still to be read. */
    function Unread(): Text
      requires Valid()
      reads this
    {
      input[pos..]
    }

    function Peek(k: nat): (c: Char)
      requires Valid()
      reads this
      ensures c == At(Unread(), k)
    {
      if pos + k < |input| then input[pos + k] else NUL
    }

    /** SKIP and READ: there is a character, so the NUL behind the input is never consumed. */
    method Skip()
      requires Valid() && Unread() != []
      modifies this`pos, this`column
      ensures Valid() && Unread() == old(Unread())[1..] && column == old(column) + 1 && pos == old(pos) + 1
      ensures pos + |Unread()| == |input|
    {
      pos, column := pos + 1, column + 1;
    }

    method SkipMany(n: nat)
      requires Valid() && n <= |Unread()|
      modifies this`pos, this`column
      ensures Valid() && Unread() == old(Unread())[n..] && column == old(column) + n && pos == old(pos) + n
      ensures pos + |Unread()| == |input|
    {
      for k := 0 to n
        invariant Valid() && pos == old(pos) + k && column == old(column) + k
      {
        Skip();
      }
    }

    /** SKIP_LINE and READ_LINE at a line break; CR LF is one break. */
    method ReadLine() returns (c: Char)
      requires Valid() && IsBreak(At(Unread(), 0))
      modifies this`pos, this`line, this`column
      ensures Valid() && Unread() == old(Unread()[BreakLength(Unread())..]) && pos + |Unread()| == |input|
      ensures c == old(BreakValue(At(Unread(), 0))) && column == 0 && line == old(line) + 1 && pos > old(pos)
    {
      if Peek(0) == CR && Peek(1) == LF {
        c, pos := LF, pos + 2;
      } else if Peek(0) == CR || Peek(0) == LF || Peek(0) == NEL {
        c, pos := LF, pos + 1;
      } else {
        c, pos := Peek(0), pos + 1;
      }
      line, column := line + 1, 0;
    }

    // ----- Quoted scalars

    /** The value of the next digits; nothing is consumed yet. */
    method PeekHex(digits: nat) returns (r: Option<nat>)
      requires Valid()
      ensures r == FlowScanner.ReadHex(0, Unread(), digits)
    {
      var value: nat := 0;
      var k: nat := 0;
      while k < digits
        invariant k <= digits && k <= |Unread()|
        invariant FlowScanner.ReadHex(value, Unread()[k..], digits - k) == FlowScanner.ReadHex(0, Unread(), digits)
      {
        assert At(Unread()[k..], 0) == Peek(k);
        if !IsHex(Peek(k)) {
          return None;
        }
        assert Unread()[k..][1..] == Unread()[k + 1..];
        value := value * 16 + HexValue(Peek(k));
        k := k + 1;
      }
      return Some(value);
    }

    /** Reads an escape that is not an escaped line break. */
    method ScanEscape() returns (c: Option<Char>)
      requires Valid() && At(Unread(), 0) == BACKSLASH
      modifies this`pos, this`column
      ensures Valid() && pos >= old(pos)
      ensures match old(FlowScanner.ReadEscape(Unread()))
              case None => c == None
              case Some((e, n)) => c == Some(e) && Unread() == old(Unread())[n..] && column == old(column) + n && pos > old(pos)
    {
      hide FlowScanner.EscapeLetter, FlowScanner.ReadHex;
      var code := FlowScanner.EscapeLetter(Peek(1));
      if code == FlowScanner.Unknown {
        return None;
      }
      NoEscapeAtEnd();
      Skip();
      Skip();
      match code {
        case Literally(e) => return Some(e);
        case Code(digits) =>
          var value := PeekHex(digits);
          if value == None || 0xD800 <= value.value <= 0xDFFF || value.value > 0x10FFFF {
            return None;
          }
          SkipMany(digits);
          return Some(value.value);
      }
    }

    /** What a quoted scan does: the value, and the scanner moved behind it; or an error. */
    ghost predicate FlowResult(outcome: FlowScanner.Scanned, value: Option<Text>)
      reads this
    {
      && Valid()
      && match outcome
         case ScanError => value == None
         case Scanned(v, column', rest) => value == Some(v) && Unread() == rest && column == column'
    }

    method ScanFlowScalar(single: bool) returns (value: Option<Text>)
      requires Valid() && Unread() != []
      modifies this`pos, this`line, this`column
      ensures FlowResult(old(FlowScanner.Scan(single, Unread(), column)), value)
    {
      ghost var outcome := FlowScanner.Scan(single, Unread(), column);
      Skip();
      var text: Text := [];
      while true
        invariant Valid() && FlowScanner.AtRound(single, Unread(), column, text) == outcome
        decreases |input| - pos
      {
        if column == 0
           && ((Peek(0) == DASH && Peek(1) == DASH && Peek(2) == DASH) || (Peek(0) == DOT && Peek(1) == DOT && Peek(2) == DOT))
           && IsBlankZ(Peek(3)) {
          return None;
        }
        if Peek(0) == NUL {
          return None;
        }
        ghost var roundStart := pos;
        var state;
        text, state := ScanFlowText(single, text, outcome);
        match state {
          case Failed => return None;
          case Closed =>
            Skip();
            return Some(text);
          case Blanks(leadingBlanks) =>
            text := ScanFlowBlanks(single, text, leadingBlanks, outcome);
        }
        if Peek(0) == NUL {
          return None;
        }
      }
    }

    method SkipEscapedBreak()
      requires Valid() && At(Unread(), 0) == BACKSLASH && IsBreak(At(Unread(), 1))
      modifies this`pos, this`line, this`column
      ensures Valid() && Unread() == old(Unread()[1 + BreakLength(Unread()[1..])..]) && column == 0 && pos > old(pos)
    {
      ghost var from := Unread();
      ghost var n := BreakLength(from[1..]);
      assert from[1..][n..] == from[1 + n..];
      Skip();
      var _ := ReadLine();
    }

    /** The inner loop over non-blank characters, up to a quote, a blank or an escaped break. */
    method ScanFlowText(single: bool, text: Text, ghost outcome: FlowScanner.Scanned) returns (text': Text, state: TextEnd)
      requires Valid() && At(Unread(), 0) != NUL && FlowScanner.InText(single, Unread(), column, text) == outcome
      modifies this`pos, this`line, this`column
      ensures Valid() && pos >= old(pos)
      ensures match state
              case Failed => outcome == FlowScanner.ScanError
              case Closed =>
                Unread() != [] && outcome == FlowScanner.Scanned(text', column + 1, Unread()[1..])
              case Blanks(lb) =>
                && FlowScanner.InBlanks(single, Unread(), column, text', lb, [], [], []) == outcome
                && (pos > old(pos) || IsBlank(At(Unread(), 0)) || IsBreak(At(Unread(), 0)))
    {
      hide FlowScanner.InBlanks, FlowScanner.AtRound, FlowScanner.ReadEscape;
      text' := text;
      while !IsBlankZ(Peek(0))
        invariant Valid() && pos >= old(pos) && FlowScanner.InText(single, Unread(), column, text') == outcome
        invariant At(Unread(), 0) != NUL || pos > old(pos)
        decreases |input| - pos
      {
        if single && Peek(0) == SQUOTE && Peek(1) == SQUOTE {
          text' := text' + [SQUOTE];
          SkipMany(2);
        } else if Peek(0) == FlowScanner.Quote(single) {
          return text', Closed;
        } else if !single && Peek(0) == BACKSLASH && IsBreak(Peek(1)) {
          SkipEscapedBreak();
          return text', Blanks(true);
        } else if !single && Peek(0) == BACKSLASH {
          var c := ScanEscape();
          if c == None {
            return text', Failed;
          }
          text' := text' + [c.value];
        } else {
          text' := text' + [Peek(0)];
          Skip();
        }
      }
      return text', Blanks(false);
    }

    /** The inner loop over blanks and breaks, and what they are joined or folded to. */
    method ScanFlowBlanks(single: bool, text: Text, leadingBlanks: bool, ghost outcome: FlowScanner.Scanned) returns (text': Text)
      requires Valid()
      requires FlowScanner.InBlanks(single, Unread(), column, text, leadingBlanks, [], [], []) == outcome
      modifies this`pos, this`line, this`column
      ensures Valid() && pos >= old(pos)
      ensures old(IsBlank(At(Unread(), 0)) || IsBreak(At(Unread(), 0))) ==> pos > old(pos)
      ensures if At(Unread(), 0) == NUL then outcome == FlowScanner.ScanError
              else FlowScanner.AtRound(single, Unread(), column, text') == outcome
    {
      hide FlowScanner.AtRound;
      var leading := leadingBlanks;
      var whitespaces: Text, leadingBreak: Text, trailingBreaks: Text := [], [], [];
      while IsBlank(Peek(0)) || IsBreak(Peek(0))
        invariant Valid() && pos >= old(pos)
        invariant FlowScanner.InBlanks(single, Unread(), column, text, leading, whitespaces, leadingBreak, trailingBreaks) == outcome
        invariant old(IsBlank(At(Unread(), 0)) || IsBreak(At(Unread(), 0))) ==>
          pos > old(pos) || IsBlank(At(Unread(), 0)) || IsBreak(At(Unread(), 0))
        decreases |input| - pos
      {
        if IsBlank(Peek(0)) {
          if !leading {
            whitespaces := whitespaces + [Peek(0)];
          }
          Skip();
        } else if !leading {
          whitespaces := [];
          var c := ReadLine();
          leadingBreak := leadingBreak + [c];
          leading := true;
        } else {
          var c := ReadLine();
          trailingBreaks := trailingBreaks + [c];
        }
      }
      if leading {
        if At(leadingBreak, 0) == LF {
          text' := text + (if trailingBreaks == [] then [SPACE] else trailingBreaks);
        } else {
          text' := text + leadingBreak + trailingBreaks;
          assert text' == text + (leadingBreak + trailingBreaks);
        }
      } else {
        text' := text + whitespaces;
      }
    }

    // ----- Block scalars

    ghost predicate BlockResult(outcome: BlockScanner.Scanned, value: Option<Text>)
      reads this
    {
      && Valid()
      && match outcome
         case ScanError => value == None
         case Scanned(v, column', rest) => value == Some(v) && Unread() == rest && column == column'
    }

    /** The chomping and indentation indicators; none when the indentation is `0`. */
    method ScanBlockHeader() returns (header: Option<(BlockScanner.Chomping, nat)>)
      requires Valid()
      modifies this`pos, this`column
      ensures Valid()
      ensures match old(BlockScanner.ReadHeader(Unread()))
              case HeaderError => header == None
              case Header(chomping, increment, n) =>
                header == Some((chomping, increment)) && Unread() == old(Unread())[n..] && column == old(column) + n
    {
      var chomping, increment := BlockScanner.Clip, 0;
      if Peek(0) == PLUS || Peek(0) == DASH {
        chomping := if Peek(0) == PLUS then BlockScanner.Keep else BlockScanner.Strip;
        Skip();
        if IsDigit(Peek(0)) {
          if Peek(0) == DIGIT0 {
            return None;
          }
          increment := Peek(0) - DIGIT0;
          Skip();
        }
      } else if IsDigit(Peek(0)) {
        if Peek(0) == DIGIT0 {
          return None;
        }
        increment := Peek(0) - DIGIT0;
        Skip();
        if Peek(0) == PLUS || Peek(0) == DASH {
          chomping := if Peek(0) == PLUS then BlockScanner.Keep else BlockScanner.Strip;
          Skip();
        }
      }
      return Some((chomping, increment));
    }

    /** The rest of the header line: blanks, a comment, the line break. */
    method ScanHeaderLine() returns (ok: bool)
      requires Valid()
      modifies this`pos, this`line, this`column
      ensures Valid()
      ensures match old(BlockScanner.SkipHeaderLine(Unread(), column))
              case None => !ok
              case Some((rest, column')) => ok && Unread() == rest && column == column'
    {
      ghost var start := Unread();
      while IsBlank(Peek(0))
        invariant Valid() && BlockScanner.SkipBlanks(Unread()) == BlockScanner.SkipBlanks(start)
        invariant column + |Unread()| == old(column) + |start|
        decreases |input| - pos
      {
        Skip();
      }
      ghost var blank := Unread();
      if Peek(0) == HASH {
        while !IsBreakZ(Peek(0))
          invariant Valid() && BlockScanner.SkipToBreak(Unread()) == BlockScanner.SkipToBreak(blank)
          invariant column + |Unread()| == old(column) + |start|
          decreases |input| - pos
        {
          Skip();
        }
      }
      if !IsBreakZ(Peek(0)) {
        return false;
      }
      if IsBreak(Peek(0)) {
        var _ := ReadLine();
      }
      return true;
    }

    method ScanBlockScalar(literal: bool) returns (value: Option<Text>)
      requires Valid() && Unread() != []
      modifies this`pos, this`line, this`column
      ensures BlockResult(old(BlockScanner.Scan(literal, indent, Unread(), column)), value)
    {
      hide BlockScanner.ReadHeader, BlockScanner.SkipHeaderLine;
      ghost var outcome := BlockScanner.Scan(literal, indent, Unread(), column);
      ghost var start := Unread();
      Skip();
      var header := ScanBlockHeader();
      if header == None {
        return None;
      }
      var (chomping, increment) := header.value;
      assert start[1..][BlockScanner.ReadHeader(start[1..]).length..] == start[1 + BlockScanner.ReadHeader(start[1..]).length..];
      var ok := ScanHeaderLine();
      if !ok {
        return None;
      }
      var level := if increment == 0 then 0 else if indent >= 0 then indent + increment else increment;
      value := ScanBlockLines(BlockScanner.Shape(literal, chomping, indent), level, outcome);
    }

    /** The loop over the lines, behind the header. */
    method ScanBlockLines(shape: BlockScanner.Shape, hinted: nat, ghost outcome: BlockScanner.Scanned) returns (value: Option<Text>)
      requires Valid()
      requires BlockScanner.InBreaks(shape, hinted, Unread(), column, 0, [], [], false, []) == outcome
      modifies this`pos, this`line, this`column
      ensures BlockResult(outcome, value)
    {
      var text: Text, leadingBreak: Text, leadingBlank := [], [], false;
      var level: nat := hinted;
      var trailing := ScanBlockBreaks(shape, level, text, leadingBreak, leadingBlank, outcome);
      if trailing == None {
        return None;
      }
      level := trailing.value.0;
      var breaks := trailing.value.1;
      while column == level && Peek(0) != NUL
        invariant Valid()
        invariant BlockScanner.AtLine(shape, level, Unread(), column, text, leadingBreak, leadingBlank, breaks) == outcome
        decreases |input| - pos
      {
        ghost var lineStart := pos;
        var trailingBlank := IsBlank(Peek(0));
        if !shape.literal && At(leadingBreak, 0) == LF && !leadingBlank && !trailingBlank {
          if breaks == [] {
            text := text + [SPACE];
          }
        } else {
          text := text + leadingBreak;
        }
        text := text + breaks;
        leadingBlank := IsBlank(Peek(0));
        text := ScanLine(shape, level, text, leadingBlank, outcome);
        if IsBreak(Peek(0)) {
          var c := ReadLine();
          leadingBreak := [c];
        } else {
          leadingBreak := [];
        }
        trailing := ScanBlockBreaks(shape, level, text, leadingBreak, leadingBlank, outcome);
        if trailing == None {
          return None;
        }
        level, breaks := trailing.value.0, trailing.value.1;
      }
      if shape.chomping != BlockScanner.Strip {
        text := text + leadingBreak;
      }
      if shape.chomping == BlockScanner.Keep {
        text := text + breaks;
      }
      return Some(text);
    }

    /** The characters of one line. */
    method ScanLine(shape: BlockScanner.Shape, level: nat, text: Text, leadingBlank: bool, ghost outcome: BlockScanner.Scanned)
      returns (text': Text)
      requires Valid() && BlockScanner.InLine(shape, level, Unread(), column, text, leadingBlank) == outcome
      modifies this`pos, this`column
      ensures Valid() && IsBreakZ(At(Unread(), 0)) && pos >= old(pos)
      ensures old(At(Unread(), 0) != NUL) ==> pos > old(pos) || IsBreak(At(Unread(), 0))
      ensures BlockScanner.InLine(shape, level, Unread(), column, text', leadingBlank) == outcome
    {
      hide BlockScanner.InBreaks;
      text' := text;
      while !IsBreakZ(Peek(0))
        invariant Valid() && pos >= old(pos)
        invariant BlockScanner.InLine(shape, level, Unread(), column, text', leadingBlank) == outcome
        invariant old(At(Unread(), 0) != NUL) ==> pos > old(pos) || At(Unread(), 0) != NUL
        decreases |input| - pos
      {
        text' := text' + [Peek(0)];
        Skip();
      }
    }

    /** Indentation and empty lines: the level, found if it was not known, and the breaks. */
    method ScanBlockBreaks(shape: BlockScanner.Shape, level: nat, ghost text: Text, ghost leadingBreak: Text,
                           ghost leadingBlank: bool, ghost outcome: BlockScanner.Scanned)
      returns (found: Option<(nat, Text)>)
      requires Valid()
      requires BlockScanner.InBreaks(shape, level, Unread(), column, 0, text, leadingBreak, leadingBlank, []) == outcome
      modifies this`pos, this`line, this`column
      ensures Valid() && pos >= old(pos)
      ensures match found
              case None => outcome == BlockScanner.ScanError
              case Some((level', breaks)) =>
                BlockScanner.AtLine(shape, level', Unread(), column, text, leadingBreak, leadingBlank, breaks) == outcome
    {
      hide BlockScanner.AtLine;
      var breaks: Text := [];
      var deepest: nat := 0;
      while true
        invariant Valid() && pos >= old(pos)
        invariant BlockScanner.InBreaks(shape, level, Unread(), column, deepest, text, leadingBreak, leadingBlank, breaks) == outcome
        decreases |input| - pos
      {
        ghost var here := pos;
        while (level == 0 || column < level) && Peek(0) == SPACE
          invariant Valid() && pos >= here >= old(pos)
          invariant BlockScanner.InBreaks(shape, level, Unread(), column, deepest, text, leadingBreak, leadingBlank, breaks) == outcome
          decreases |input| - pos
        {
          Skip();
        }
        if column > deepest {
          deepest := column;
        }
        if (level == 0 || column < level) && Peek(0) == TAB {
          return None;
        }
        if !IsBreak(Peek(0)) {
          var level' := if level == 0 then BlockScanner.DetectedIndent(shape, deepest) else level;
          return Some((level', breaks));
        }
        var c := ReadLine();
        breaks := breaks + [c];
      }
    }

    // ----- Plain scalars

    function Around(): PlainScanner.Around
      reads this
    {
      PlainScanner.Around(flowLevel > 0, indent)
    }

    /** The value, and the scanner moved behind it; a line break behind it allows a simple key. */
    ghost predicate PlainResult(outcome: PlainScanner.PlainScan, allowedBefore: bool, value: Option<Text>)
      reads this
    {
      && Valid()
      && match outcome
         case PlainError => value == None
         case PlainScanned(v, column', rest, afterBreak) =>
           value == Some(v) && Unread() == rest && column == column' && allowed == (allowedBefore || afterBreak)
    }

    method ScanPlainScalar() returns (value: Option<Text>)
      requires Valid()
      modifies this`pos, this`line, this`column, this`allowed
      ensures PlainResult(old(PlainScanner.ScanPlain(Around(), Unread(), column)), old(allowed), value)
    {
      hide PlainScanner.PlainText, PlainScanner.PlainBlanks;
      ghost var outcome := PlainScanner.ScanPlain(Around(), Unread(), column);
      var text: Text, pending := [], PlainScanner.NOTHING;
      while true
        invariant Valid() && allowed == old(allowed)
        invariant PlainScanner.PlainRound(Around(), Unread(), column, text, pending) == outcome
        decreases |input| - pos
      {
        if column == 0
           && ((Peek(0) == DASH && Peek(1) == DASH && Peek(2) == DASH) || (Peek(0) == DOT && Peek(1) == DOT && Peek(2) == DOT))
           && IsBlankZ(Peek(3)) {
          break;
        }
        if Peek(0) == HASH {
          break;
        }
        var ok;
        ok, text, pending := ScanPlainText(text, pending, outcome);
        if !ok {
          return None;
        }
        if !IsBlank(Peek(0)) && !IsBreak(Peek(0)) {
          break;
        }
        ok, pending := ScanPlainBlanks(text, pending, outcome);
        if !ok {
          return None;
        }
        if flowLevel == 0 && column < indent + 1 {
          break;
        }
      }
      if pending.breaks {
        allowed := true;
      }
      return Some(text);
    }

    /** The inner loop over non-blank characters; it stops at a blank or where the scalar ends. */
    method ScanPlainText(text: Text, pending: PlainScanner.Pending, ghost outcome: PlainScanner.PlainScan)
      returns (ok: bool, text': Text, pending': PlainScanner.Pending)
      requires Valid() && PlainScanner.PlainText(Around(), Unread(), column, text, pending) == outcome
      modifies this`pos, this`column
      ensures Valid() && pos >= old(pos)
      ensures if !ok then outcome == PlainScanner.PlainError
              else if IsBlank(At(Unread(), 0)) || IsBreak(At(Unread(), 0)) then
                PlainScanner.PlainBlanks(Around(), Unread(), column, text', pending') == outcome
              else outcome == PlainScanner.Stop(Unread(), column, text', pending')
    {
      hide PlainScanner.PlainBlanks;
      ok, text', pending' := true, text, pending;
      while !IsBlankZ(Peek(0))
        invariant Valid() && pos >= old(pos)
        invariant PlainScanner.PlainText(Around(), Unread(), column, text', pending') == outcome
        decreases |input| - pos
      {
        if flowLevel > 0 && Peek(0) == COLON && !IsBlankZ(Peek(1)) {
          ok := false;
          return;
        }
        if (Peek(0) == COLON && IsBlankZ(Peek(1))) || (flowLevel > 0 && PlainScanner.IsFlowIndicator(Peek(0))) {
          return;
        }
        if pending'.breaks {
          if At(pending'.leadingBreak, 0) == LF {
            text' := text' + (if pending'.trailingBreaks == [] then [SPACE] else pending'.trailingBreaks);
          } else {
            ghost var joined := text' + (pending'.leadingBreak + pending'.trailingBreaks);
            text' := text' + pending'.leadingBreak + pending'.trailingBreaks;
            assert text' == joined;
          }
        } else {
          text' := text' + pending'.whitespaces;
        }
        pending' := PlainScanner.NOTHING;
        text' := text' + [Peek(0)];
        Skip();
      }
    }

    /** The inner loop over blanks and breaks. */
    method ScanPlainBlanks(ghost text: Text, pending: PlainScanner.Pending, ghost outcome: PlainScanner.PlainScan)
      returns (ok: bool, pending': PlainScanner.Pending)
      requires Valid() && (IsBlank(At(Unread(), 0)) || IsBreak(At(Unread(), 0)))
      requires PlainScanner.PlainBlanks(Around(), Unread(), column, text, pending) == outcome
      modifies this`pos, this`line, this`column
      ensures Valid() && (ok ==> pos > old(pos))
      ensures if !ok then outcome == PlainScanner.PlainError
              else if flowLevel == 0 && column <= indent then outcome == PlainScanner.Stop(Unread(), column, text, pending')
              else PlainScanner.PlainRound(Around(), Unread(), column, text, pending') == outcome
    {
      ok, pending' := true, pending;
      while IsBlank(Peek(0)) || IsBreak(Peek(0))
        invariant Valid() && pos >= old(pos) && (pos > old(pos) || IsBlank(At(Unread(), 0)) || IsBreak(At(Unread(), 0)))
        invariant PlainScanner.PlainBlanks(Around(), Unread(), column, text, pending') == outcome
        decreases |input| - pos
      {
        if IsBlank(Peek(0)) {
          if pending'.breaks && column < indent + 1 && Peek(0) == TAB {
            ok := false;
            return;
          }
          if !pending'.breaks {
            pending' := pending'.(whitespaces := pending'.whitespaces + [Peek(0)]);
          }
          Skip();
        } else if !pending'.breaks {
          var c := ReadLine();
          pending' := pending'.(breaks := true, whitespaces := [], leadingBreak := pending'.leadingBreak + [c]);
        } else {
          var c := ReadLine();
          pending' := pending'.(trailingBreaks := pending'.trailingBreaks + [c]);
        }
      }
    }

    // ----- Anchors and aliases

    /** The name behind the indicator of an anchor or alias. */
    method ScanAnchor() returns (name: Option<Text>)
      requires Valid() && Unread() != []
      modifies this`pos, this`column
      ensures Valid()
      ensures match old(PlainScanner.ScanName(Unread()))
              case None => name == None
              case Some(n) => name == Some(old(Unread())[1..1 + n]) && Unread() == old(Unread())[1 + n..] && column == old(column) + 1 + n
    {
      hide Tags.IsAlpha, PlainScanner.EndsName;
      ghost var start := pos;
      ghost var from := Unread();
      Skip();
      assert from[1..] == input[start + 1..];
      var text := ScanAlpha();
      ghost var n := pos - start - 1;
      NameAt(input, start, n);
      if text == [] || !PlainScanner.EndsName(Peek(0)) {
        return None;
      }
      return Some(text);
    }

    /** The loop over the characters of a name. */
    method ScanAlpha() returns (text: Text)
      requires Valid()
      modifies this`pos, this`column
      ensures Valid() && pos == old(pos) + Tags.AlphaLength(old(Unread())) && column == old(column) + pos - old(pos)
      ensures text == input[old(pos)..pos]
    {
      hide Tags.IsAlpha;
      text := [];
      while Tags.IsAlpha(Peek(0))
        invariant Valid() && old(pos) <= pos && column == old(column) + pos - old(pos) && text == input[old(pos)..pos]
        invariant Tags.AlphaLength(old(Unread())) == pos - old(pos) + Tags.AlphaLength(Unread())
        decreases |input| - pos
      {
        NoAlphaAtEnd();
        text := text + [Peek(0)];
        Skip();
      }
    }
  }

  lemma NoAlphaAtEnd()
    ensures !Tags.IsAlpha(NUL)
  {
  }

  /** A name in the input, and in the part of it from its indicator on. */
  lemma NameAt(input: Text, start: nat, n: nat)
    requires start + 1 + n <= |input|
    ensures input[start..][1..1 + n] == input[start + 1..start + 1 + n] && input[start..][1 + n..] == input[start + 1 + n..]
    ensures At(input[start..], 1 + n) == At(input[start + 1 + n..], 0)
  {
  }

  lemma NoEscapeAtEnd()
    ensures FlowScanner.EscapeLetter(NUL) == FlowScanner.Unknown
  {
  }

  /** How the inner text loop ended. */
  datatype TextEnd = Failed | Closed | Blanks(leadingBlanks: bool)
}
