/**
  The scanner's token queue, simple keys and indentation (scanner.c, the fetchers), as
  functions of the scanner's state.

  The text is the decoded input. How many characters and line breaks an anchor, a tag, a
  directive or a scalar takes is given in advance by `reaches`, one entry for each of them; so
  what is proved holds whatever those scans do. Popping an empty stack is an outcome of its own.
 */
module TokenScanning {
  import opened Chars
  import opened Options

  datatype Mark = Mark(index: nat, line: nat, column: nat)

  datatype Kind =
    | StreamStartKind
    | StreamEndKind
    | DirectiveKind
    | DocumentStartKind
    | DocumentEndKind
    | BlockSequenceStartKind
    | BlockMappingStartKind
    | BlockEndKind
    | FlowStartKind(sequence: bool)
    | FlowEndKind(sequence: bool)
    | FlowEntryKind
    | BlockEntryKind
    | KeyKind
    | ValueKind
    | AnchorKind(alias: bool)
    | TagKind
    | BlockScalarKind(literal: bool)
    | QuotedScalarKind(single: bool)
    | PlainScalarKind

  datatype Token = Token(kind: Kind, mark: Mark)

  datatype SimpleKey = SimpleKey(possible: bool, required: bool, number: nat, mark: Mark)

  const NO_KEY := SimpleKey(false, false, 0, Mark(0, 0, 0))

  /** How far a scanned token reaches, and whether a plain scalar ended behind a line break; or its scan fails. */
  datatype Reach = Reach(units: Positive, afterBreak: bool) | BrokenToken

  type Positive = n: nat | n > 0 witness 1

  datatype Scanner = Scanner(text: Text, mark: Mark, reaches: seq<Reach>, started: bool, indent: int, indents: seq<int>,
                             flowLevel: nat, keys: seq<SimpleKey>, allowed: bool,
                             delivered: seq<Token>, queue: seq<Token>)

  datatype Outcome =
    | Fetched(scanner: Scanner)
    | Failed     // a scanner error
    | Aborted    // a failed assertion
    | Underflow  // a pop from, or an access to the top of, an empty stack

  function Start(text: Text, reaches: seq<Reach>): Scanner {
    Scanner(text, Mark(0, 0, 0), reaches, false, 0, [], 0, [], false, [], [])
  }

  // ----- The input

  function Ahead(s: Scanner, k: nat): Char {
    if s.mark.index + k < |s.text| then s.text[s.mark.index + k] else NUL
  }

  /** There is a character to read; what is behind the last one is the NUL that ends the input. */
  predicate Inside(s: Scanner) {
    s.mark.index < |s.text|
  }

  /** The position has not passed the end of the input. */
  predicate Within(s: Scanner) {
    s.mark.index <= |s.text|
  }

  /** Nothing goes over the end: every call is at a character of the input. */
  function Skip(s: Scanner): (r: Scanner)
    requires Inside(s)
    ensures Within(r)
  {
    s.(mark := Mark(s.mark.index + 1, s.mark.line, s.mark.column + 1))
  }

  function SkipLine(s: Scanner): (r: Scanner)
    requires Inside(s) && IsBreak(Ahead(s, 0))
    ensures Within(r)
  {
    s.(mark := Mark(s.mark.index + (if Ahead(s, 0) == CR && Ahead(s, 1) == LF then 2 else 1), s.mark.line + 1, 0))
  }

  function Unread(s: Scanner): nat {
    if s.mark.index <= |s.text| then |s.text| - s.mark.index else 0
  }

  /** Goes over so many characters and breaks, never over the end of the input. */
  function Advance(s: Scanner, units: nat): (r: Scanner)
    ensures r == s.(mark := r.mark) && (Within(s) ==> Within(r))
    decreases units
  {
    if units == 0 || Ahead(s, 0) == NUL then s
    else if IsBreak(Ahead(s, 0)) then Advance(SkipLine(s), units - 1)
    else Advance(Skip(s), units - 1)
  }

  function SkipBlanks(s: Scanner): (r: Scanner)
    ensures r == s.(mark := r.mark) && (Within(s) ==> Within(r))
    decreases Unread(s)
  {
    if Ahead(s, 0) == SPACE || ((s.flowLevel > 0 || !s.allowed) && Ahead(s, 0) == TAB) then SkipBlanks(Skip(s)) else s
  }

  function SkipComment(s: Scanner): (r: Scanner)
    ensures r == s.(mark := r.mark) && (Within(s) ==> Within(r))
    decreases Unread(s)
  {
    if IsBreakZ(Ahead(s, 0)) then s else SkipComment(Skip(s))
  }

  /** A byte order mark, blanks and a comment; what is behind them is on the same line. */
  function SkipInLine(s: Scanner): (r: Scanner)
    ensures r == s.(mark := r.mark) && (Within(s) ==> Within(r))
  {
    var s := if s.mark.column == 0 && Ahead(s, 0) == BOM then Skip(s) else s;
    var s := SkipBlanks(s);
    if Ahead(s, 0) == HASH then SkipComment(s) else s
  }

  lemma SkipInLineMoves(s: Scanner)
    ensures SkipInLine(s).mark.index >= s.mark.index
  {
    var s0 := if s.mark.column == 0 && Ahead(s, 0) == BOM then Skip(s) else s;
    SkipBlanksMoves(s0);
    SkipCommentMoves(SkipBlanks(s0));
  }

  lemma SkipBlanksMoves(s: Scanner)
    ensures SkipBlanks(s).mark.index >= s.mark.index
    decreases Unread(s)
  {
    if SkipBlanks(s) != s {
      SkipBlanksMoves(Skip(s));
    }
  }

  lemma SkipCommentMoves(s: Scanner)
    ensures SkipComment(s).mark.index >= s.mark.index
    decreases Unread(s)
  {
    if !IsBreakZ(Ahead(s, 0)) {
      SkipCommentMoves(Skip(s));
    }
  }

  function ScanToNextToken(s: Scanner): (r: Scanner)
    ensures r == s.(mark := r.mark, allowed := r.allowed) && (Within(s) ==> Within(r))
    decreases Unread(s)
  {
    SkipInLineMoves(s);
    var s' := SkipInLine(s);
    if IsBreak(Ahead(s', 0)) then ScanToNextToken(SkipLine(s').(allowed := s'.flowLevel == 0 || s'.allowed)) else s'
  }

  // ----- The queue and the stacks

  function Enqueue(s: Scanner, kind: Kind, mark: Mark): Scanner {
    s.(queue := s.queue + [Token(kind, mark)])
  }

  /** Inserts in front of the token with this number. */
  function Insert(s: Scanner, number: nat, token: Token): Outcome {
    if |s.delivered| <= number <= |s.delivered| + |s.queue| then
      var k := number - |s.delivered|;
      Fetched(s.(queue := s.queue[..k] + [token] + s.queue[k..]))
    else Underflow
  }

  predicate IsStale(key: SimpleKey, mark: Mark) {
    key.possible && (key.mark.line < mark.line || key.mark.index + 1024 < mark.index)
  }

  function Refreshed(key: SimpleKey, mark: Mark): SimpleKey {
    if IsStale(key, mark) then key.(possible := false) else key
  }

  /** The keys without those that cannot be keys any more; none if one of those had to be one. */
  function Fresh(keys: seq<SimpleKey>, mark: Mark): (r: Option<seq<SimpleKey>>)
    ensures r.Some? ==> |r.value| == |keys| && forall k :: 0 <= k < |keys| ==> r.value[k] == Refreshed(keys[k], mark)
  {
    if keys == [] then Some([])
    else if IsStale(keys[0], mark) && keys[0].required then None
    else
      match Fresh(keys[1..], mark)
      case None => None
      case Some(rest) => Some([Refreshed(keys[0], mark)] + rest)
  }

  function StaleKeys(s: Scanner): Outcome {
    match Fresh(s.keys, s.mark)
    case None => Failed
    case Some(keys) => Fetched(s.(keys := keys))
  }

  function TopKey(s: Scanner): SimpleKey
    requires s.keys != []
  {
    s.keys[|s.keys| - 1]
  }

  function SetTopKey(s: Scanner, key: SimpleKey): Scanner
    requires s.keys != []
  {
    s.(keys := s.keys[|s.keys| - 1 := key])
  }

  function RemoveKey(s: Scanner): Outcome {
    if s.keys == [] then Underflow
    else if TopKey(s).possible && TopKey(s).required then Failed
    else Fetched(SetTopKey(s, TopKey(s).(possible := false)))
  }

  /** A key may start here; it has to be one on the indentation column of a block. */
  function SaveKey(s: Scanner): Outcome {
    var required := s.flowLevel == 0 && s.indent == s.mark.column;
    if required && !s.allowed then Aborted
    else if !s.allowed then Fetched(s)
    else
      match RemoveKey(s)
      case Fetched(s') => Fetched(SetTopKey(s', SimpleKey(true, required, |s.delivered| + |s.queue|, s.mark)))
      case other => other
  }

  function RollIndent(s: Scanner, column: int, number: Option<nat>, kind: Kind, mark: Mark): Outcome {
    if s.flowLevel > 0 || s.indent >= column then Fetched(s)
    else
      var s' := s.(indents := s.indents + [s.indent], indent := column);
      match number
      case None => Fetched(Enqueue(s', kind, mark))
      case Some(n) => Insert(s', n, Token(kind, mark))
  }

  function UnrollIndent(s: Scanner, column: int): (r: Outcome)
    ensures r.Fetched? ==> r.scanner.text == s.text && r.scanner.mark == s.mark
    decreases |s.indents|
  {
    if s.flowLevel > 0 || s.indent <= column then Fetched(s)
    else if s.indents == [] then Underflow
    else
      var last := |s.indents| - 1;
      UnrollIndent(Enqueue(s, BlockEndKind, s.mark).(indents := s.indents[..last], indent := s.indents[last]), column)
  }

  // ----- The fetchers

  function FetchStreamStart(s: Scanner): Outcome {
    Fetched(Enqueue(s.(indent := -1, keys := s.keys + [NO_KEY], allowed := true, started := true), StreamStartKind, s.mark))
  }

  function FetchStreamEnd(s: Scanner): Outcome {
    var s' := if s.mark.column != 0 then s.(mark := Mark(s.mark.index, s.mark.line + 1, 0)) else s;
    match ResetKeys(s')
    case Fetched(s'') => Fetched(Enqueue(s'', StreamEndKind, s''.mark))
    case other => other
  }

  /** Closes all blocks, and no simple key is possible. */
  function ResetKeys(s: Scanner): Outcome {
    match UnrollIndent(s, -1)
    case Fetched(s') =>
      (match RemoveKey(s')
       case Fetched(s'') => Fetched(s''.(allowed := false))
       case other => other)
    case other => other
  }

  /** A token that is scanned as far as the next reach says. */
  function Scan(s: Scanner, kind: Kind): Outcome {
    if s.reaches == [] || s.reaches[0].BrokenToken? then Failed
    else
      var s' := Advance(s.(reaches := s.reaches[1..]), s.reaches[0].units);
      var s'' := s'.(allowed := s.allowed || (kind == PlainScalarKind && s.reaches[0].afterBreak));
      Fetched(Enqueue(s'', kind, s.mark))
  }

  function FetchDirective(s: Scanner): Outcome {
    match ResetKeys(s)
    case Fetched(s') => Scan(s', DirectiveKind)
    case other => other
  }

  function FetchDocumentIndicator(s: Scanner, kind: Kind): Outcome
    requires s.mark.index + 3 <= |s.text|
  {
    match ResetKeys(s)
    case Fetched(s') => Fetched(Enqueue(Skip(Skip(Skip(s'))), kind, s'.mark))
    case other => other
  }

  function FetchFlowStart(s: Scanner, sequence: bool): Outcome
    requires Inside(s)
  {
    match SaveKey(s)
    case Fetched(s') =>
      var s'' := s'.(keys := s'.keys + [NO_KEY], flowLevel := s'.flowLevel + 1, allowed := true);
      Fetched(Enqueue(Skip(s''), FlowStartKind(sequence), s.mark))
    case other => other
  }

  function FetchFlowEnd(s: Scanner, sequence: bool): Outcome
    requires Inside(s)
  {
    match RemoveKey(s)
    case Fetched(s') =>
      var s'' := if s'.flowLevel > 0 then s'.(flowLevel := s'.flowLevel - 1, keys := s'.keys[..|s'.keys| - 1]) else s';
      Fetched(Enqueue(Skip(s''.(allowed := false)), FlowEndKind(sequence), s.mark))
    case other => other
  }

  /** An indicator by itself, and whether a simple key may come behind it. */
  function FetchIndicator(s: Scanner, kind: Kind, allowed: bool): Outcome
    requires Inside(s)
  {
    match RemoveKey(s)
    case Fetched(s') => Fetched(Enqueue(Skip(s'.(allowed := allowed)), kind, s.mark))
    case other => other
  }

  function FetchBlockEntry(s: Scanner): Outcome
    requires Inside(s)
  {
    if s.flowLevel == 0 && !s.allowed then Failed
    else
      match RollIndent(s, s.mark.column, None, BlockSequenceStartKind, s.mark)
      case Fetched(s') => FetchIndicator(s', BlockEntryKind, true)
      case other => other
  }

  function FetchKey(s: Scanner): Outcome
    requires Inside(s)
  {
    if s.flowLevel == 0 && !s.allowed then Failed
    else
      match RollIndent(s, s.mark.column, None, BlockMappingStartKind, s.mark)
      case Fetched(s') => FetchIndicator(s', KeyKind, s.flowLevel == 0)
      case other => other
  }

  /** The key before ':' becomes one now: KEY, and perhaps BLOCK-MAPPING-START, are put in front of it. */
  function InsertKey(s: Scanner, key: SimpleKey): Outcome {
    match Insert(s, key.number, Token(KeyKind, key.mark))
    case Fetched(s') => RollIndent(s', key.mark.column, Some(key.number), BlockMappingStartKind, key.mark)
    case other => other
  }

  function FetchValue(s: Scanner): Outcome
    requires Inside(s)
  {
    if s.keys == [] then Underflow
    else if TopKey(s).possible then
      match InsertKey(s, TopKey(s)) {
        case Fetched(s') =>
          if s'.keys == [] then Underflow
          else
            var s'' := SetTopKey(s', TopKey(s').(possible := false)).(allowed := false);
            Fetched(Enqueue(Skip(s''), ValueKind, s.mark))
        case other => other
      }
    else if s.flowLevel == 0 && !s.allowed then Failed
    else
      match RollIndent(s, s.mark.column, None, BlockMappingStartKind, s.mark)
      case Fetched(s') => Fetched(Enqueue(Skip(s'.(allowed := s.flowLevel == 0)), ValueKind, s.mark))
      case other => other
  }

  /** A token that may be a simple key, and no key may come right behind it. */
  function FetchPossibleKey(s: Scanner, kind: Kind): Outcome {
    match SaveKey(s)
    case Fetched(s') => Scan(s'.(allowed := false), kind)
    case other => other
  }

  function FetchBlockScalar(s: Scanner, literal: bool): Outcome {
    match RemoveKey(s)
    case Fetched(s') => Scan(s'.(allowed := true), BlockScalarKind(literal))
    case other => other
  }

  // ----- The dispatcher

  predicate ThreeOf(s: Scanner, c: Char) {
    s.mark.column == 0 && Ahead(s, 0) == c && Ahead(s, 1) == c && Ahead(s, 2) == c && IsBlankZ(Ahead(s, 3))
  }

  predicate IsIndicator(c: Char) {
    || c == DASH || c == QUESTION || c == COLON || c == COMMA || c == LEFT_BRACKET || c == RIGHT_BRACKET
    || c == LEFT_BRACE || c == RIGHT_BRACE || c == HASH || c == AMPERSAND || c == STAR || c == EXCLAMATION
    || c == BAR || c == GREATER || c == SQUOTE || c == DQUOTE || c == PERCENT || c == AT_SIGN || c == BACKQUOTE
  }

  predicate StartsPlain(s: Scanner) {
    var c := Ahead(s, 0);
    || !(IsBlankZ(c) || IsIndicator(c))
    || (c == DASH && !IsBlank(Ahead(s, 1)))
    || (s.flowLevel == 0 && (c == QUESTION || c == COLON) && !IsBlankZ(Ahead(s, 1)))
  }

  function Dispatch(s: Scanner): Outcome {
    var c := Ahead(s, 0);
    if c == NUL then FetchStreamEnd(s)
    else if s.mark.column == 0 && c == PERCENT then FetchDirective(s)
    else if ThreeOf(s, DASH) then FetchDocumentIndicator(s, DocumentStartKind)
    else if ThreeOf(s, DOT) then FetchDocumentIndicator(s, DocumentEndKind)
    else if c == LEFT_BRACKET then FetchFlowStart(s, true)
    else if c == LEFT_BRACE then FetchFlowStart(s, false)
    else if c == RIGHT_BRACKET then FetchFlowEnd(s, true)
    else if c == RIGHT_BRACE then FetchFlowEnd(s, false)
    else if c == COMMA then FetchIndicator(s, FlowEntryKind, true)
    else if c == DASH && IsBlankZ(Ahead(s, 1)) then FetchBlockEntry(s)
    else if c == QUESTION && (s.flowLevel > 0 || IsBlankZ(Ahead(s, 1))) then FetchKey(s)
    else if c == COLON && (s.flowLevel > 0 || IsBlankZ(Ahead(s, 1))) then FetchValue(s)
    else if c == STAR then FetchPossibleKey(s, AnchorKind(true))
    else if c == AMPERSAND then FetchPossibleKey(s, AnchorKind(false))
    else if c == EXCLAMATION then FetchPossibleKey(s, TagKind)
    else if c == BAR && s.flowLevel == 0 then FetchBlockScalar(s, true)
    else if c == GREATER && s.flowLevel == 0 then FetchBlockScalar(s, false)
    else if c == SQUOTE then FetchPossibleKey(s, QuotedScalarKind(true))
    else if c == DQUOTE then FetchPossibleKey(s, QuotedScalarKind(false))
    else if StartsPlain(s) then FetchPossibleKey(s, PlainScalarKind)
    else Failed
  }

  function FetchNextToken(s: Scanner): Outcome {
    if !s.started then FetchStreamStart(s)
    else
      match StaleKeys(ScanToNextToken(s))
      case Fetched(s') =>
        (match UnrollIndent(s', s'.mark.column)
         case Fetched(s'') => Dispatch(s'')
         case other => other)
      case other => other
  }

  /** Whether the token at the head of the queue may still become a key. */
  predicate HeadMayBeKey(s: Scanner) {
    exists k :: 0 <= k < |s.keys| && s.keys[k].possible && s.keys[k].number == |s.delivered|
  }

  /** The head of the queue is handed over. */
  function Deliver(s: Scanner): Scanner
    requires s.queue != []
  {
    s.(delivered := s.delivered + [s.queue[0]], queue := s.queue[1..])
  }

  predicate Finished(s: Scanner) {
    s.delivered != [] && s.delivered[|s.delivered| - 1].kind == StreamEndKind
  }
}
