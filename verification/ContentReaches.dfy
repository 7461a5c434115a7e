/**
  The scans of token contents are steps of the token machine: what an anchor, a tag, a quoted,
  block or plain scalar takes of the input is some number of characters and line breaks, none of
  them the NUL behind the input, so each scan is the one of `TokenScanning` for some reach.
 */
module ContentReaches {
  import opened Chars
  import opened Options
  import opened TokenScanning
  import PlainScanner
  import FlowScanner
  import BlockScanner
  import Tags
  import Utf8

  /** The input and the column behind so many characters and breaks. */
  function After(input: Text, column: nat, units: nat): (r: (Text, nat))
    ensures |r.0| <= |input|
    decreases units
  {
    if units == 0 || At(input, 0) == NUL then (input, column)
    else if IsBreak(At(input, 0)) then After(input[BreakLength(input)..], 0, units - 1)
    else After(input[1..], column + 1, units - 1)
  }

  lemma {:induction false} AfterMore(input: Text, column: nat, first: nat, second: nat)
    ensures var r := After(input, column, first); After(input, column, first + second) == After(r.0, r.1, second)
    decreases first
  {
    if first > 0 && At(input, 0) != NUL {
      if IsBreak(At(input, 0)) {
        AfterMore(input[BreakLength(input)..], 0, first - 1, second);
      } else {
        AfterMore(input[1..], column + 1, first - 1, second);
      }
    }
  }

  /** One character, not the NUL. */
  lemma AfterOne(input: Text, column: nat, more: nat)
    requires At(input, 0) != NUL && !IsBreak(At(input, 0))
    ensures After(input, column, 1 + more) == After(input[1..], column + 1, more)
  {
  }

  lemma AfterBreak(input: Text, column: nat, more: nat)
    requires IsBreak(At(input, 0))
    ensures After(input, column, 1 + more) == After(input[BreakLength(input)..], 0, more)
  {
  }

  /** Some characters in a line. */
  lemma {:induction false} AfterLine(input: Text, column: nat, n: nat)
    requires n <= |input| && forall k :: 0 <= k < n ==> input[k] != NUL && !IsBreak(input[k])
    ensures After(input, column, n) == (input[n..], column + n)
    decreases n
  {
    if n > 0 {
      AfterLine(input[1..], column + 1, n - 1);
      assert input[1..][n - 1..] == input[n..];
    }
  }

  // ----- Plain scalars

  lemma {:induction false} PlainRoundPasses(around: PlainScanner.Around, input: Text, column: nat, value: Text, pending: PlainScanner.Pending)
    returns (n: nat)
    requires PlainScanner.PlainRound(around, input, column, value, pending).PlainScanned?
    ensures var r := PlainScanner.PlainRound(around, input, column, value, pending); After(input, column, n) == (r.rest, r.column)
    decreases |input|, if IsBlankZ(At(input, 0)) then 4 else 1
  {
    n := 0;
    if !(column == 0 && FlowScanner.IsDocumentIndicator(input)) && At(input, 0) != HASH {
      n := PlainTextPasses(around, input, column, value, pending);
    }
  }

  lemma {:induction false} PlainTextPasses(around: PlainScanner.Around, input: Text, column: nat, value: Text, pending: PlainScanner.Pending)
    returns (n: nat)
    requires PlainScanner.PlainText(around, input, column, value, pending).PlainScanned?
    ensures var r := PlainScanner.PlainText(around, input, column, value, pending); After(input, column, n) == (r.rest, r.column)
    ensures !IsBlankZ(At(input, 0)) && !PlainScanner.EndsText(around, input) ==> n > 0
    decreases |input|, if IsBlankZ(At(input, 0)) then 3 else 0
  {
    n := 0;
    var c := At(input, 0);
    if c == NUL || (!IsBlankZ(c) && PlainScanner.EndsText(around, input)) {
    } else if IsBlankZ(c) {
      n := PlainBlanksPass(around, input, column, value, pending);
    } else {
      n := PlainTextPasses(around, input[1..], column + 1, value + PlainScanner.Join(pending) + [c], PlainScanner.NOTHING);
      n := 1 + n;
    }
  }

  lemma {:induction false} PlainBlanksPass(around: PlainScanner.Around, input: Text, column: nat, value: Text, pending: PlainScanner.Pending)
    returns (n: nat)
    requires PlainScanner.PlainBlanks(around, input, column, value, pending).PlainScanned?
    ensures var r := PlainScanner.PlainBlanks(around, input, column, value, pending); After(input, column, n) == (r.rest, r.column)
    decreases |input|, 2
  {
    n := 0;
    var c := At(input, 0);
    if IsBlank(c) {
      n := PlainBlanksPass(around, input[1..], column + 1, value, PlainScanner.WithBlank(pending, c));
      n := 1 + n;
    } else if IsBreak(c) {
      n := PlainBlanksPass(around, input[BreakLength(input)..], 0, value, PlainScanner.WithBreak(pending, BreakValue(c)));
      n := 1 + n;
    } else if c != NUL && (around.flow || column > around.indent) {
      n := PlainRoundPasses(around, input, column, value, pending);
    }
  }

  // ----- Quoted scalars

  lemma {:induction false} RoundPasses(single: bool, input: Text, column: nat, value: Text) returns (n: nat)
    requires FlowScanner.AtRound(single, input, column, value).Scanned?
    ensures var r := FlowScanner.AtRound(single, input, column, value); After(input, column, n) == (r.rest, r.column)
    decreases |input|, if IsBlankZ(At(input, 0)) then 4 else 1
  {
    n := TextPasses(single, input, column, value);
  }

  lemma {:induction false} TextPasses(single: bool, input: Text, column: nat, value: Text) returns (n: nat)
    requires FlowScanner.InText(single, input, column, value).Scanned?
    ensures var r := FlowScanner.InText(single, input, column, value); After(input, column, n) == (r.rest, r.column)
    decreases |input|, if IsBlankZ(At(input, 0)) then 3 else 0
  {
    hide FlowScanner.ReadEscape, FlowScanner.InBlanks;
    var c := At(input, 0);
    if IsBlankZ(c) {
      n := BlanksPass(single, input, column, value, false, [], [], []);
    } else if single && c == SQUOTE && At(input, 1) == SQUOTE {
      n := TextPasses(single, input[2..], column + 2, value + [SQUOTE]);
      AfterLine(input, column, 2);
      AfterMore(input, column, 2, n);
      n := 2 + n;
    } else if c == FlowScanner.Quote(single) {
      n := 1;
    } else if !single && c == BACKSLASH && IsBreak(At(input, 1)) {
      var rest := input[1..];
      assert rest[BreakLength(rest)..] == input[1 + BreakLength(rest)..];
      n := BlanksPass(single, input[1 + BreakLength(rest)..], 0, value, true, [], [], []);
      AfterBreak(rest, column + 1, n);
      AfterOne(input, column, 1 + n);
      n := 2 + n;
    } else if !single && c == BACKSLASH {
      var Some((e, k)) := FlowScanner.ReadEscape(input);
      n := TextPasses(single, input[k..], column + k, value + [e]);
      EscapePasses(input);
      AfterLine(input, column, k);
      AfterMore(input, column, k, n);
      n := k + n;
    } else {
      n := TextPasses(single, input[1..], column + 1, value + [c]);
      n := 1 + n;
    }
  }

  lemma {:induction false} BlanksPass(single: bool, input: Text, column: nat, value: Text,
                                      leadingBlanks: bool, whitespaces: Text, leadingBreak: Text, trailingBreaks: Text) returns (n: nat)
    requires FlowScanner.InBlanks(single, input, column, value, leadingBlanks, whitespaces, leadingBreak, trailingBreaks).Scanned?
    ensures var r := FlowScanner.InBlanks(single, input, column, value, leadingBlanks, whitespaces, leadingBreak, trailingBreaks);
      After(input, column, n) == (r.rest, r.column)
    decreases |input|, 2
  {
    hide FlowScanner.AtRound;
    var c := At(input, 0);
    if IsBlank(c) {
      n := BlanksPass(single, input[1..], column + 1, value,
                      leadingBlanks, if leadingBlanks then whitespaces else whitespaces + [c], leadingBreak, trailingBreaks);
      n := 1 + n;
    } else if IsBreak(c) {
      var rest, b := input[BreakLength(input)..], [BreakValue(c)];
      if !leadingBlanks {
        n := BlanksPass(single, rest, 0, value, true, [], leadingBreak + b, trailingBreaks);
      } else {
        n := BlanksPass(single, rest, 0, value, true, whitespaces, leadingBreak, trailingBreaks + b);
      }
      n := 1 + n;
    } else {
      n := RoundPasses(single, input, column, value + FlowScanner.Joined(leadingBlanks, whitespaces, leadingBreak, trailingBreaks));
    }
  }

  /** An escape is in one line. */
  lemma EscapePasses(input: Text)
    requires At(input, 0) == BACKSLASH && !IsBreak(At(input, 1)) && FlowScanner.ReadEscape(input).Some?
    ensures forall k :: 0 <= k < FlowScanner.ReadEscape(input).value.1 ==> input[k] != NUL && !IsBreak(input[k])
  {
    var n := FlowScanner.ReadEscape(input).value.1;
    LetterIsThere(At(input, 1));
    if FlowScanner.EscapeLetter(At(input, 1)).Code? {
      DigitsPass(0, input[2..], n - 2);
    }
    forall k | 0 <= k < n ensures input[k] != NUL && !IsBreak(input[k]) {
      if k >= 2 {
        assert input[k] == input[2..][k - 2];
      }
    }
  }

  lemma LetterIsThere(c: Char)
    ensures FlowScanner.EscapeLetter(c) != FlowScanner.Unknown ==> c != NUL
  {
  }

  lemma {:induction false} DigitsPass(value: nat, input: Text, n: nat)
    requires FlowScanner.ReadHex(value, input, n).Some?
    ensures forall k :: 0 <= k < n ==> IsHex(input[k])
    decreases n
  {
    if n > 0 {
      DigitsPass(value * 16 + HexValue(input[0]), input[1..], n - 1);
      forall k | 0 <= k < n ensures IsHex(input[k]) {
        if k > 0 {
          assert input[k] == input[1..][k - 1];
        }
      }
    }
  }

  // ----- Block scalars

  lemma {:induction false} BreaksPass(shape: BlockScanner.Shape, indent: nat, input: Text, column: nat, deepest: nat, value: Text,
                                      leadingBreak: Text, leadingBlank: bool, breaks: Text) returns (n: nat)
    requires BlockScanner.InBreaks(shape, indent, input, column, deepest, value, leadingBreak, leadingBlank, breaks).Scanned?
    ensures var r := BlockScanner.InBreaks(shape, indent, input, column, deepest, value, leadingBreak, leadingBlank, breaks);
      After(input, column, n) == (r.rest, r.column)
    decreases |input|, 2
  {
    hide BlockScanner.AtLine, BlockScanner.DetectedIndent;
    var c := At(input, 0);
    if (indent == 0 || column < indent) && c == SPACE {
      n := BreaksPass(shape, indent, input[1..], column + 1, deepest, value, leadingBreak, leadingBlank, breaks);
      n := 1 + n;
    } else {
      var deepest := if column > deepest then column else deepest;
      if IsBreak(c) {
        n := BreaksPass(shape, indent, input[BreakLength(input)..], 0, deepest, value, leadingBreak, leadingBlank,
                        breaks + [BreakValue(c)]);
        n := 1 + n;
      } else {
        var indent := if indent == 0 then BlockScanner.DetectedIndent(shape, deepest) else indent;
        n := LinePasses(shape, indent, input, column, value, leadingBreak, leadingBlank, breaks);
      }
    }
  }

  lemma {:induction false} LinePasses(shape: BlockScanner.Shape, indent: nat, input: Text, column: nat, value: Text,
                                      leadingBreak: Text, leadingBlank: bool, breaks: Text) returns (n: nat)
    requires BlockScanner.AtLine(shape, indent, input, column, value, leadingBreak, leadingBlank, breaks).Scanned?
    ensures var r := BlockScanner.AtLine(shape, indent, input, column, value, leadingBreak, leadingBlank, breaks);
      After(input, column, n) == (r.rest, r.column)
    decreases |input|, 1
  {
    hide BlockScanner.JoinBreaks, BlockScanner.InLine, BlockScanner.Chomp;
    n := 0;
    var c := At(input, 0);
    if column == indent && c != NUL {
      n := InLinePasses(shape, indent, input, column,
                        BlockScanner.JoinBreaks(shape, value, leadingBreak, leadingBlank || IsBlank(c), breaks), IsBlank(c));
    }
  }

  lemma {:induction false} InLinePasses(shape: BlockScanner.Shape, indent: nat, input: Text, column: nat, value: Text, leadingBlank: bool)
    returns (n: nat)
    requires BlockScanner.InLine(shape, indent, input, column, value, leadingBlank).Scanned?
    ensures var r := BlockScanner.InLine(shape, indent, input, column, value, leadingBlank); After(input, column, n) == (r.rest, r.column)
    decreases |input|, if At(input, 0) == NUL then 3 else 0
  {
    hide BlockScanner.InBreaks;
    var c := At(input, 0);
    if c == NUL {
      n := BreaksPass(shape, indent, input, column, 0, value, [], leadingBlank, []);
    } else if IsBreak(c) {
      n := BreaksPass(shape, indent, input[BreakLength(input)..], 0, 0, value, [BreakValue(c)], leadingBlank, []);
      n := 1 + n;
    } else {
      n := InLinePasses(shape, indent, input[1..], column + 1, value + [c], leadingBlank);
      n := 1 + n;
    }
  }

  lemma {:induction false} BlanksSkipped(input: Text, column: nat) returns (n: nat)
    ensures var rest := BlockScanner.SkipBlanks(input); After(input, column, n) == (rest, column + (|input| - |rest|))
    decreases |input|
  {
    n := 0;
    if IsBlank(At(input, 0)) {
      n := BlanksSkipped(input[1..], column + 1);
      n := 1 + n;
    }
  }

  lemma {:induction false} CommentSkipped(input: Text, column: nat) returns (n: nat)
    ensures var rest := BlockScanner.SkipToBreak(input); After(input, column, n) == (rest, column + (|input| - |rest|))
    decreases |input|
  {
    n := 0;
    if !IsBreakZ(At(input, 0)) {
      n := CommentSkipped(input[1..], column + 1);
      n := 1 + n;
    }
  }

  lemma HeaderLinePasses(input: Text, column: nat) returns (n: nat)
    requires BlockScanner.SkipHeaderLine(input, column).Some?
    ensures var r := BlockScanner.SkipHeaderLine(input, column).value; After(input, column, n) == (r.0, r.1)
  {
    n := BlanksSkipped(input, column);
    var blank := BlockScanner.SkipBlanks(input);
    var here := column + (|input| - |blank|);
    if At(blank, 0) == HASH {
      var k := CommentSkipped(blank, here);
      AfterMore(input, column, n, k);
      n := n + k;
    }
    var rest := if At(blank, 0) == HASH then BlockScanner.SkipToBreak(blank) else blank;
    if IsBreak(At(rest, 0)) {
      AfterBreak(rest, column + (|input| - |rest|), 0);
      AfterMore(input, column, n, 1);
      n := n + 1;
    }
  }

  lemma HeaderPasses(input: Text)
    requires BlockScanner.ReadHeader(input).Header?
    ensures forall k :: 0 <= k < BlockScanner.ReadHeader(input).length ==> input[k] != NUL && !IsBreak(input[k])
  {
  }

  // ----- Tags

  /** Characters of one line, the NUL not among them. */
  predicate InLine(input: Text, n: nat) {
    n <= |input| && forall k :: 0 <= k < n ==> input[k] != NUL && !IsBreak(input[k])
  }

  lemma InLineTogether(input: Text, first: nat, second: nat)
    requires InLine(input, first) && InLine(input[first..], second)
    ensures InLine(input, first + second) && input[first..][second..] == input[first + second..]
  {
    forall k | 0 <= k < first + second ensures input[k] != NUL && !IsBreak(input[k]) {
      if k >= first {
        assert input[k] == input[first..][k - first];
      }
    }
  }

  lemma {:induction false} EscapesPass(input: Text, left: nat, octets: seq<Utf8.Byte>) returns (n: nat)
    requires Tags.ScanEscapes(input, left, octets).Scanned?
    ensures n <= |input| && InLine(input, n) && Tags.ScanEscapes(input, left, octets).rest == input[n..]
    decreases |input|
  {
    hide InLine;
    n := 3;
    ThreeInLine(input);
    var octet: Utf8.Byte := HexValue(input[1]) * 16 + HexValue(input[2]);
    var width := if left == 0 then Utf8.Width(octet) else left;
    if width != 1 {
      n := EscapesPass(input[3..], width - 1, octets + [octet]);
      InLineTogether(input, 3, n);
      n := 3 + n;
    }
  }

  lemma ThreeInLine(input: Text)
    requires At(input, 0) == PERCENT && IsHex(At(input, 1)) && IsHex(At(input, 2))
    ensures InLine(input, 3)
  {
  }

  lemma {:induction false} UriPasses(input: Text, octets: seq<Utf8.Byte>) returns (n: nat)
    requires Tags.ScanUri(input, octets).Scanned?
    ensures n <= |input| && InLine(input, n) && Tags.ScanUri(input, octets).rest == input[n..]
    decreases |input|
  {
    hide Tags.ScanEscapes, Tags.IsUriChar, InLine;
    n := 0;
    if !Tags.IsUriChar(At(input, 0)) {
      NoneInLine(input);
    } else if At(input, 0) == PERCENT {
      var k := EscapesPass(input, 0, octets);
      n := UriPasses(input[k..], Tags.ScanEscapes(input, 0, octets).octets);
      InLineTogether(input, k, n);
      n := k + n;
    } else {
      UriCharInLine(input);
      n := UriPasses(input[1..], octets + [input[0]]);
      InLineTogether(input, 1, n);
      n := 1 + n;
    }
  }

  lemma NoneInLine(input: Text)
    ensures InLine(input, 0) && input[0..] == input
  {
  }

  lemma UriCharInLine(input: Text)
    requires Tags.IsUriChar(At(input, 0))
    ensures InLine(input, 1) && input != [] && 0 <= input[0] < 0x100
  {
  }

  lemma HandlePasses(input: Text)
    requires At(input, 0) == EXCLAMATION
    ensures InLine(input, Tags.HandleLength(input))
  {
    forall k | 0 <= k < Tags.HandleLength(input) ensures input[k] != NUL && !IsBreak(input[k]) {
      if 0 < k {
        assert input[k] == input[1..][k - 1];
      }
    }
  }

  lemma TagPasses(input: Text) returns (n: nat)
    requires At(input, 0) == EXCLAMATION && Tags.ScanTag(input).Some?
    ensures 0 < n && InLine(input, n) && Tags.ScanTag(input).value.rest == input[n..]
  {
    hide Tags.ScanUri, InLine;
    if At(input, 1) == LESS {
      OpeningInLine(input);
      var k := UriPasses(input[2..], []);
      InLineTogether(input, 2, k);
      ClosingInLine(input[2 + k..]);
      InLineTogether(input, 2 + k, 1);
      n := 3 + k;
    } else {
      var h := Tags.HandleLength(input);
      HandlePasses(input);
      n := UriPasses(input[h..], if Tags.IsHandle(input[..h]) then [] else Tags.Octets(input[1..h]));
      InLineTogether(input, h, n);
      n := h + n;
    }
  }

  lemma OpeningInLine(input: Text)
    requires At(input, 0) == EXCLAMATION && At(input, 1) == LESS
    ensures InLine(input, 2)
  {
  }

  lemma ClosingInLine(input: Text)
    requires At(input, 0) == GREATER
    ensures InLine(input, 1)
  {
  }

  // ----- Every content is a reach

  /** Where a token's content ends, and whether there was a line break behind a plain scalar. */
  datatype Content = Content(column: nat, rest: Text, afterBreak: bool) | ContentError

  /** The scanner is where the dispatcher finds a token of this kind. */
  predicate AtContent(s: Scanner, kind: Kind) {
    && Inside(s)
    && match kind
       case AnchorKind(alias) => Ahead(s, 0) == if alias then STAR else AMPERSAND
       case TagKind => Ahead(s, 0) == EXCLAMATION
       case BlockScalarKind(literal) => s.flowLevel == 0 && Ahead(s, 0) == if literal then BAR else GREATER
       case QuotedScalarKind(single) => Ahead(s, 0) == FlowScanner.Quote(single)
       case PlainScalarKind =>
         StartsPlain(s) && !ThreeOf(s, DASH) && !ThreeOf(s, DOT) && !(Ahead(s, 0) == DASH && IsBlankZ(Ahead(s, 1)))
       case _ => false
  }

  /** There the dispatcher calls the fetcher that scans it. */
  lemma ContentIsDispatched(s: Scanner, kind: Kind)
    requires AtContent(s, kind)
    ensures Dispatch(s) == match kind
                           case BlockScalarKind(literal) => FetchBlockScalar(s, literal)
                           case _ => FetchPossibleKey(s, kind)
  {
    hide FetchStreamEnd, FetchDirective, FetchDocumentIndicator, FetchFlowStart, FetchFlowEnd, FetchIndicator, FetchBlockEntry, FetchKey,
         FetchValue, FetchPossibleKey, FetchBlockScalar;
  }

  /** What the scan of the content does. */
  function ContentOf(s: Scanner, kind: Kind): Content
    requires AtContent(s, kind)
  {
    var input, column := s.text[s.mark.index..], s.mark.column;
    match kind
    case AnchorKind(_) =>
      (match PlainScanner.ScanName(input)
       case None => ContentError
       case Some(n) => Content(column + 1 + n, input[1 + n..], false))
    case TagKind =>
      (match Tags.ScanTag(input)
       case None => ContentError
       case Some(tag) => Content(column + (|input| - |tag.rest|), tag.rest, false))
    case BlockScalarKind(literal) =>
      (match BlockScanner.Scan(literal, s.indent, input, column)
       case ScanError => ContentError
       case Scanned(_, column', rest) => Content(column', rest, false))
    case QuotedScalarKind(single) =>
      (match FlowScanner.Scan(single, input, column)
       case ScanError => ContentError
       case Scanned(_, column', rest) => Content(column', rest, false))
    case _ =>
      match PlainScanner.ScanPlain(PlainScanner.Around(s.flowLevel > 0, s.indent), input, column)
      case PlainError => ContentError
      case PlainScanned(_, column', rest, afterBreak) => Content(column', rest, afterBreak)
  }

  /** Moving over the input and moving the mark are the same. */
  lemma {:induction false} AdvanceIsAfter(s: Scanner, units: nat)
    requires Within(s)
    ensures var s' := Advance(s, units);
      Within(s') && (s'.text[s'.mark.index..], s'.mark.column) == After(s.text[s.mark.index..], s.mark.column, units)
    decreases units
  {
    var input := s.text[s.mark.index..];
    assert At(input, 0) == Ahead(s, 0) && At(input, 1) == Ahead(s, 1);
    if units > 0 && At(input, 0) != NUL {
      var s' := if IsBreak(At(input, 0)) then SkipLine(s) else Skip(s);
      assert s'.text[s'.mark.index..] == if IsBreak(At(input, 0)) then input[BreakLength(input)..] else input[1..];
      AdvanceIsAfter(s', units - 1);
    }
  }

  lemma NamePasses(input: Text) returns (n: nat)
    requires input != [] && input[0] != NUL && !IsBreak(input[0]) && PlainScanner.ScanName(input).Some?
    ensures n == 1 + PlainScanner.ScanName(input).value && InLine(input, n)
  {
    n := 1 + PlainScanner.ScanName(input).value;
    forall k | 0 <= k < n ensures input[k] != NUL && !IsBreak(input[k]) {
      if k > 0 {
        assert input[k] == input[1..][k - 1];
      }
    }
  }

  lemma QuotedPasses(single: bool, input: Text, column: nat) returns (n: nat)
    requires At(input, 0) == FlowScanner.Quote(single) && FlowScanner.Scan(single, input, column).Scanned?
    ensures var r := FlowScanner.Scan(single, input, column); n > 0 && After(input, column, n) == (r.rest, r.column)
  {
    n := RoundPasses(single, input[1..], column + 1, []);
    n := 1 + n;
  }

  lemma IndicatorAndHeaderPass(input: Text, column: nat)
    requires (At(input, 0) == BAR || At(input, 0) == GREATER) && BlockScanner.ReadHeader(input[1..]).Header?
    ensures var h := BlockScanner.ReadHeader(input[1..]).length; After(input, column, 1 + h) == (input[1 + h..], column + 1 + h)
  {
    var h := BlockScanner.ReadHeader(input[1..]).length;
    HeaderPasses(input[1..]);
    IndicatorThenLine(input, column, h);
  }

  lemma IndicatorThenLine(input: Text, column: nat, h: nat)
    requires At(input, 0) != NUL && !IsBreak(At(input, 0)) && h <= |input[1..]|
    requires forall k :: 0 <= k < h ==> input[1..][k] != NUL && !IsBreak(input[1..][k])
    ensures After(input, column, 1 + h) == (input[1 + h..], column + 1 + h)
  {
    AfterLine(input[1..], column + 1, h);
    assert input[1..][h..] == input[1 + h..];
    AfterOne(input, column, h);
  }

  /** The indicator and the header behind it, up to the end of their line. */
  lemma HeaderAndLinePass(input: Text, column: nat, h: nat) returns (n: nat)
    requires At(input, 0) == BAR || At(input, 0) == GREATER
    requires BlockScanner.ReadHeader(input[1..]).Header? && h == BlockScanner.ReadHeader(input[1..]).length
    requires BlockScanner.SkipHeaderLine(input[1 + h..], column + 1 + h).Some?
    ensures n > 0 && After(input, column, n) == BlockScanner.SkipHeaderLine(input[1 + h..], column + 1 + h).value
  {
    hide After, BlockScanner.ReadHeader, BlockScanner.SkipHeaderLine;
    IndicatorAndHeaderPass(input, column);
    n := HeaderLinePasses(input[1 + h..], column + 1 + h);
    AfterMore(input, column, 1 + h, n);
    n := 1 + h + n;
  }

  lemma BlockPasses(literal: bool, indent: int, input: Text, column: nat) returns (n: nat)
    requires (At(input, 0) == BAR || At(input, 0) == GREATER) && BlockScanner.Scan(literal, indent, input, column).Scanned?
    ensures var r := BlockScanner.Scan(literal, indent, input, column); n > 0 && After(input, column, n) == (r.rest, r.column)
  {
    hide After, BlockScanner.ReadHeader, BlockScanner.SkipHeaderLine, BlockScanner.InBreaks;
    var Header(chomping, increment, h) := BlockScanner.ReadHeader(input[1..]);
    var k := HeaderAndLinePass(input, column, h);
    var Some((rest, column')) := BlockScanner.SkipHeaderLine(input[1 + h..], column + 1 + h);
    var level := if increment == 0 then 0 else if indent >= 0 then indent + increment else increment;
    n := BreaksPass(BlockScanner.Shape(literal, chomping, indent), level, rest, column', 0, [], [], false, []);
    AfterMore(input, column, k, n);
    n := k + n;
  }

  lemma PlainPasses(s: Scanner) returns (n: nat)
    requires AtContent(s, PlainScalarKind) && ContentOf(s, PlainScalarKind).Content?
    ensures var r := ContentOf(s, PlainScalarKind); n > 0 && After(s.text[s.mark.index..], s.mark.column, n) == (r.rest, r.column)
  {
    hide PlainScanner.PlainText;
    var input := s.text[s.mark.index..];
    assert forall k: nat :: At(input, k) == Ahead(s, k);
    n := PlainTextPasses(PlainScanner.Around(s.flowLevel > 0, s.indent), input, s.mark.column, [], PlainScanner.NOTHING);
  }

  lemma ContentPasses(s: Scanner, kind: Kind) returns (n: nat)
    requires AtContent(s, kind) && ContentOf(s, kind).Content?
    ensures var r := ContentOf(s, kind); n > 0 && After(s.text[s.mark.index..], s.mark.column, n) == (r.rest, r.column)
  {
    hide PlainScanner.ScanName, PlainScanner.ScanPlain, FlowScanner.Scan, BlockScanner.Scan, Tags.ScanTag;
    var input, column := s.text[s.mark.index..], s.mark.column;
    assert At(input, 0) == Ahead(s, 0);
    match kind {
      case AnchorKind(_) =>
        n := NamePasses(input);
        AfterLine(input, column, n);
      case TagKind =>
        n := TagPasses(input);
        AfterLine(input, column, n);
      case QuotedScalarKind(single) => n := QuotedPasses(single, input, column);
      case BlockScalarKind(literal) => n := BlockPasses(literal, s.indent, input, column);
      case PlainScalarKind => n := PlainPasses(s);
    }
  }

  /**
    The scan of a content is one step of the token machine, with the reach returned: it fails if
    the content is refused, and else it stands where the content ends. What is left and the
    position add up to the text, so the NUL behind it is not consumed.
   */
  lemma ContentIsAReach(s: Scanner, kind: Kind, more: seq<Reach>) returns (reach: Reach)
    requires AtContent(s, kind)
    ensures var outcome := Scan(s.(reaches := [reach] + more), kind);
      match ContentOf(s, kind)
      case ContentError => outcome == Failed
      case Content(column, rest, afterBreak) =>
        && outcome.Fetched?
        && var s' := outcome.scanner;
        && s' == s.(mark := s'.mark, allowed := s.allowed || afterBreak, reaches := more, queue := s.queue + [Token(kind, s.mark)])
        && Within(s') && s'.text[s'.mark.index..] == rest && s'.mark.column == column && s'.mark.index + |rest| == |s.text|
  {
    hide ContentOf, AtContent, Advance;
    match ContentOf(s, kind) {
      case ContentError => reach := BrokenToken;
      case Content(column, rest, afterBreak) =>
        var n := ContentPasses(s, kind);
        IsInside(s, kind);
        reach := Reach(n, afterBreak);
        assert ([reach] + more)[1..] == more;
        AdvanceIsAfter(s.(reaches := more), n);
        OnlyPlainBreaks(s, kind);
    }
  }

  lemma IsInside(s: Scanner, kind: Kind)
    requires AtContent(s, kind)
    ensures Within(s)
  {
  }

  lemma OnlyPlainBreaks(s: Scanner, kind: Kind)
    requires AtContent(s, kind) && ContentOf(s, kind).Content?
    ensures kind != PlainScalarKind ==> !ContentOf(s, kind).afterBreak
  {
    hide PlainScanner.ScanName, PlainScanner.ScanPlain, FlowScanner.Scan, BlockScanner.Scan, Tags.ScanTag;
  }
}
