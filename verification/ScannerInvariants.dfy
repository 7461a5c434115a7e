/**
  What every reachable state of the token scanner keeps: the key stack has an entry for each
  flow level and one more; every possible key is the number of the token it would start with,
  in the queue, and the numbers increase; the indentation levels increase from -1; and the
  block starts less the block ends are the number of open blocks, never negative on the way.
 */
module ScannerInvariants {
  import opened Chars
  import opened Options
  import opened TokenScanning

  // ----- Positions

  predicate Before(a: Mark, b: Mark) {
    a.index < b.index && (a.line < b.line || (a.line == b.line && a.column < b.column))
  }

  predicate NotAfter(a: Mark, b: Mark) {
    a.index <= b.index && (a.line < b.line || (a.line == b.line && a.column <= b.column))
  }

  // ----- Keys

  /** The key's number is that of a token in the queue, and that token starts where the key was saved. */
  predicate Placed(s: Scanner, key: SimpleKey) {
    && |s.delivered| <= key.number < |s.delivered| + |s.queue|
    && s.queue[key.number - |s.delivered|].mark == key.mark
    && Before(key.mark, s.mark)
  }

  predicate AllPlaced(s: Scanner) {
    forall k :: 0 <= k < |s.keys| && s.keys[k].possible ==> Placed(s, s.keys[k])
  }

  predicate Increasing(keys: seq<SimpleKey>) {
    forall i, j :: 0 <= i < j < |keys| && keys[i].possible && keys[j].possible ==> keys[i].number < keys[j].number
  }

  predicate KeysOk(s: Scanner) {
    AllPlaced(s) && Increasing(s.keys)
  }

  predicate Leveled(s: Scanner) {
    |s.keys| == s.flowLevel + 1
  }

  // ----- Blocks

  function Levels(s: Scanner): (r: seq<int>)
    ensures r != []
  {
    s.indents + [s.indent]
  }

  predicate Nested(levels: seq<int>) {
    levels != [] && levels[0] == -1 && forall i, j :: 0 <= i < j < |levels| ==> levels[i] < levels[j]
  }

  function Change(token: Token): int {
    match token.kind
    case BlockSequenceStartKind => 1
    case BlockMappingStartKind => 1
    case BlockEndKind => -1
    case _ => 0
  }

  /** Block starts less block ends. */
  function Depth(tokens: seq<Token>): int {
    if tokens == [] then 0 else Change(tokens[0]) + Depth(tokens[1..])
  }

  /** From a depth, no prefix has more ends than there are starts. */
  predicate Rises(depth: int, tokens: seq<Token>)
    decreases |tokens|
  {
    depth >= 0 && (tokens != [] ==> Rises(depth + Change(tokens[0]), tokens[1..]))
  }

  function Log(s: Scanner): seq<Token> {
    s.delivered + s.queue
  }

  predicate Balanced(s: Scanner) {
    Depth(Log(s)) == |s.indents| && Rises(0, Log(s))
  }

  // ----- The end

  predicate Endless(tokens: seq<Token>) {
    forall k :: 0 <= k < |tokens| ==> tokens[k].kind != StreamEndKind
  }

  predicate Ended(s: Scanner) {
    Log(s) != [] && Log(s)[|Log(s)| - 1].kind == StreamEndKind
  }

  /** STREAM-END is the last token if it is there; then the input is at its end, and all keys that are possible are stale. */
  predicate EndOk(s: Scanner) {
    if Ended(s) then
      && Ahead(s, 0) == NUL && Endless(Log(s)[..|Log(s)| - 1])
      && (s.flowLevel == 0 ==> s.indents == [])
      && forall k :: 0 <= k < |s.keys| && s.keys[k].possible ==> s.keys[k].mark.line < s.mark.line
    else Endless(Log(s))
  }

  predicate Started(s: Scanner) {
    s.started && Within(s) && Leveled(s) && KeysOk(s) && Nested(Levels(s)) && Balanced(s)
  }

  predicate Unstarted(s: Scanner) {
    !s.started && s.keys == [] && s.flowLevel == 0 && s.indents == [] && s.delivered == [] && s.queue == [] && s.mark == Mark(0, 0, 0)
  }

  /** What holds between fetches. */
  predicate Inv(s: Scanner) {
    Unstarted(s) || (Started(s) && EndOk(s))
  }

  /** What holds inside a fetch, where no STREAM-END has been seen. */
  predicate Core(s: Scanner) {
    Started(s) && Endless(Log(s))
  }

  // ----- Depths

  lemma {:induction false} DepthAppend(a: seq<Token>, b: seq<Token>)
    ensures Depth(a + b) == Depth(a) + Depth(b)
  {
    if a == [] {
      assert a + b == b;
    } else {
      assert (a + b)[1..] == a[1..] + b;
      DepthAppend(a[1..], b);
    }
  }

  lemma {:induction false} RisesAppend(depth: int, a: seq<Token>, b: seq<Token>)
    ensures Rises(depth, a + b) <==> Rises(depth, a) && Rises(depth + Depth(a), b)
    decreases |a|
  {
    if a == [] {
      assert a + b == b;
    } else {
      assert (a + b)[1..] == a[1..] + b;
      RisesAppend(depth + Change(a[0]), a[1..], b);
    }
  }

  lemma {:induction false} RisesHigher(depth: int, more: nat, tokens: seq<Token>)
    requires Rises(depth, tokens)
    ensures Rises(depth + more, tokens)
    decreases |tokens|
  {
    if tokens != [] {
      RisesHigher(depth + Change(tokens[0]), more, tokens[1..]);
    }
  }

  lemma DepthOfOne(token: Token)
    ensures Depth([token]) == Change(token)
    ensures forall d: int :: Rises(d, [token]) <==> d >= 0 && d + Change(token) >= 0
  {
    assert [token][1..] == [];
  }

  /** What a prefix of the tokens says about its starts and ends. */
  lemma {:induction false} RisesMeansPrefixes(depth: int, tokens: seq<Token>, n: nat)
    requires Rises(depth, tokens) && n <= |tokens|
    ensures depth + Depth(tokens[..n]) >= 0
    decreases |tokens|
  {
    if n > 0 {
      assert tokens[..n][1..] == tokens[1..][..n - 1];
      RisesMeansPrefixes(depth + Change(tokens[0]), tokens[1..], n - 1);
    }
  }

  /** Appending one token. */
  lemma LogAppend(log: seq<Token>, token: Token)
    ensures Depth(log + [token]) == Depth(log) + Change(token)
    ensures Rises(0, log) && Depth(log) + Change(token) >= 0 ==> Rises(0, log + [token])
    ensures Endless(log) && token.kind != StreamEndKind ==> Endless(log + [token])
  {
    DepthAppend(log, [token]);
    RisesAppend(0, log, [token]);
    DepthOfOne(token);
    if Rises(0, log) { RisesMeansPrefixes(0, log, |log|); assert log[..|log|] == log; }
  }

  /** Inserting one token that ends nothing. */
  lemma LogInsert(a: seq<Token>, token: Token, b: seq<Token>)
    requires Change(token) >= 0 && Rises(0, a + b)
    ensures Depth(a + [token] + b) == Depth(a + b) + Change(token)
    ensures Rises(0, a + [token] + b)
    ensures Endless(a + b) && token.kind != StreamEndKind ==> Endless(a + [token] + b)
  {
    DepthAppend(a, b);
    DepthAppend(a, [token]);
    DepthAppend(a + [token], b);
    DepthOfOne(token);
    RisesAppend(0, a, b);
    RisesAppend(0, a, [token]);
    RisesAppend(0, a + [token], b);
    RisesHigher(Depth(a), Change(token), b);
    RisesMeansPrefixes(0, a, |a|);
    assert a[..|a|] == a;
    EndlessParts(a, b);
  }

  lemma EndlessParts(a: seq<Token>, b: seq<Token>)
    ensures Endless(a + b) <==> Endless(a) && Endless(b)
  {
    if Endless(a + b) {
      forall k | 0 <= k < |a| ensures a[k].kind != StreamEndKind { assert (a + b)[k] == a[k]; }
      forall k | 0 <= k < |b| ensures b[k].kind != StreamEndKind { assert (a + b)[|a| + k] == b[k]; }
    }
  }

  // ----- Steps that take no key and insert nothing

  /** Every possible key is one of the old ones, in its place. */
  predicate Restricts(keys: seq<SimpleKey>, old_: seq<SimpleKey>) {
    forall k :: 0 <= k < |keys| && keys[k].possible ==> k < |old_| && keys[k] == old_[k]
  }

  /** The scanner moved on, its queue may have grown, and it may have dropped keys. */
  predicate Grows(s: Scanner, s': Scanner) {
    && s'.delivered == s.delivered && s.queue <= s'.queue && NotAfter(s.mark, s'.mark) && Restricts(s'.keys, s.keys)
  }

  lemma GrowsKeepsKeys(s: Scanner, s': Scanner)
    requires KeysOk(s) && Grows(s, s')
    ensures KeysOk(s')
  {
    forall k | 0 <= k < |s'.keys| && s'.keys[k].possible ensures Placed(s', s'.keys[k]) {
      assert Placed(s, s.keys[k]);
    }
  }

  lemma SkipMoves(s: Scanner)
    requires Inside(s)
    ensures NotAfter(s.mark, Skip(s).mark) && Before(s.mark, Skip(s).mark)
    ensures IsBreak(Ahead(s, 0)) ==> NotAfter(s.mark, SkipLine(s).mark) && Before(s.mark, SkipLine(s).mark)
  {
  }

  lemma {:induction false} AdvanceMoves(s: Scanner, units: nat)
    ensures NotAfter(s.mark, Advance(s, units).mark)
    ensures units > 0 && Ahead(s, 0) != NUL ==> Before(s.mark, Advance(s, units).mark)
    decreases units
  {
    if units != 0 && Ahead(s, 0) != NUL {
      SkipMoves(s);
      if IsBreak(Ahead(s, 0)) {
        AdvanceMoves(SkipLine(s), units - 1);
      } else {
        AdvanceMoves(Skip(s), units - 1);
      }
    }
  }

  lemma {:induction false} BlanksMove(s: Scanner)
    ensures NotAfter(s.mark, SkipBlanks(s).mark) && SkipBlanks(s).mark.line == s.mark.line
    decreases Unread(s)
  {
    if SkipBlanks(s) != s {
      BlanksMove(Skip(s));
    }
  }

  lemma {:induction false} CommentMoves(s: Scanner)
    ensures NotAfter(s.mark, SkipComment(s).mark) && SkipComment(s).mark.line == s.mark.line
    decreases Unread(s)
  {
    if !IsBreakZ(Ahead(s, 0)) {
      CommentMoves(Skip(s));
    }
  }

  lemma InLineMoves(s: Scanner)
    ensures NotAfter(s.mark, SkipInLine(s).mark) && SkipInLine(s).mark.line == s.mark.line
  {
    var s0 := if s.mark.column == 0 && Ahead(s, 0) == BOM then Skip(s) else s;
    BlanksMove(s0);
    CommentMoves(SkipBlanks(s0));
  }

  /** Either the same line, and the flag is as it was, or a new one, and the flag is set in a block. */
  lemma {:induction false} ScanToNextMoves(s: Scanner)
    ensures NotAfter(s.mark, ScanToNextToken(s).mark)
    ensures ScanToNextToken(s).mark.line == s.mark.line ==> ScanToNextToken(s).allowed == s.allowed
    ensures ScanToNextToken(s).mark.line > s.mark.line && s.flowLevel == 0 ==> ScanToNextToken(s).allowed
    decreases Unread(s)
  {
    hide SkipInLine;
    InLineMoves(s);
    SkipInLineMoves(s);
    var s' := SkipInLine(s);
    if IsBreak(Ahead(s', 0)) {
      ScanToNextMoves(SkipLine(s').(allowed := s'.flowLevel == 0 || s'.allowed));
    }
  }

  /** Only the position, the flag and the reaches are others; the position does not pass the end. */
  predicate MovesOnly(s: Scanner, s': Scanner) {
    && NotAfter(s.mark, s'.mark) && (Within(s) ==> Within(s'))
    && s' == s.(mark := s'.mark, allowed := s'.allowed, reaches := s'.reaches)
  }

  lemma MoveKeepsCore(s: Scanner, s': Scanner)
    requires Core(s) && MovesOnly(s, s')
    ensures Core(s')
  {
    hide Nested, Balanced, Endless;
    GrowsKeepsKeys(s, s');
    assert Levels(s') == Levels(s) && Log(s') == Log(s);
    SameLog(s, s');
  }

  lemma SameLog(s: Scanner, s': Scanner)
    requires Log(s') == Log(s) && s'.indents == s.indents
    ensures Balanced(s') == Balanced(s)
  {
  }

  lemma StaleKeepsCore(s: Scanner)
    requires Core(s) && StaleKeys(s).Fetched?
    ensures Core(StaleKeys(s).scanner)
  {
    hide Nested, Balanced, Endless;
    var s' := StaleKeys(s).scanner;
    GrowsKeepsKeys(s, s');
    SameLog(s, s');
  }

  lemma EnqueueKeepsCore(s: Scanner, kind: Kind, mark: Mark)
    requires Core(s) && kind != StreamEndKind && Change(Token(kind, mark)) == 0
    ensures Core(Enqueue(s, kind, mark))
  {
    hide Nested, Endless, Rises, Depth;
    var s' := Enqueue(s, kind, mark);
    GrowsKeepsKeys(s, s');
    assert Log(s') == Log(s) + [Token(kind, mark)];
    LogAppend(Log(s), Token(kind, mark));
  }

  lemma RemoveKeepsCore(s: Scanner)
    requires Core(s)
    ensures RemoveKey(s) != Underflow && RemoveKey(s) != Aborted
    ensures RemoveKey(s).Fetched? ==> Core(RemoveKey(s).scanner) && !TopKey(RemoveKey(s).scanner).possible
  {
    hide Nested, Balanced, Endless;
    if RemoveKey(s).Fetched? {
      var s' := RemoveKey(s).scanner;
      GrowsKeepsKeys(s, s');
      SameLog(s, s');
    }
  }

  lemma DeeperLevel(s: Scanner, column: int)
    requires Nested(Levels(s)) && s.indent < column
    ensures Nested(Levels(s) + [column])
  {
    var levels := Levels(s);
    forall i, j | 0 <= i < j < |levels| + 1 ensures (levels + [column])[i] < (levels + [column])[j] {
      assert levels[|s.indents|] == s.indent;
    }
  }

  lemma RollKeepsCore(s: Scanner, kind: Kind, mark: Mark)
    requires Core(s) && (kind == BlockSequenceStartKind || kind == BlockMappingStartKind)
    ensures var r := RollIndent(s, s.mark.column, None, kind, mark);
      r.Fetched? && Core(r.scanner) && MayRoll(s, r.scanner) && r.scanner.mark == s.mark
  {
    hide Endless, Rises, Depth, Nested;
    var s' := RollIndent(s, s.mark.column, None, kind, mark).scanner;
    GrowsKeepsKeys(s, s');
    if s' != s {
      assert Log(s') == Log(s) + [Token(kind, mark)];
      LogAppend(Log(s), Token(kind, mark));
      assert Levels(s') == Levels(s) + [s.mark.column];
      DeeperLevel(s, s.mark.column);
    }
  }

  /** Tokens in the queue and open blocks. */
  function Size(s: Scanner): nat {
    |s.queue| + |s.indents|
  }

  predicate MayRoll(s: Scanner, s': Scanner) {
    Size(s') <= Size(s) + 3 && s'.text == s.text && s'.flowLevel == s.flowLevel && s'.delivered == s.delivered
  }

  /** One block closed. */
  lemma CloseKeepsCore(s: Scanner, s': Scanner)
    requires Core(s) && s.indents != []
    requires var last := |s.indents| - 1;
      s' == Enqueue(s, BlockEndKind, s.mark).(indents := s.indents[..last], indent := s.indents[last])
    ensures Core(s') && s'.indent < s.indent
  {
    hide Endless, Rises, Depth;
    GrowsKeepsKeys(s, s');
    assert Log(s') == Log(s) + [Token(BlockEndKind, s.mark)];
    LogAppend(Log(s), Token(BlockEndKind, s.mark));
    assert Levels(s') == Levels(s)[..|s.indents|];
    assert Levels(s)[|s.indents| - 1] < Levels(s)[|s.indents|];
  }

  /** Blocks are closed until the indentation is at most the column; the stack is never too short. */
  lemma {:induction false} UnrollKeepsCore(s: Scanner, column: int)
    requires Core(s) && column >= -1
    ensures UnrollIndent(s, column).Fetched? && Core(UnrollIndent(s, column).scanner)
    ensures var s' := UnrollIndent(s, column).scanner;
      && s' == s.(indents := s'.indents, indent := s'.indent, queue := s'.queue)
      && (s.flowLevel == 0 ==> s'.indent <= column)
      && s.queue <= s'.queue && s'.indent <= s.indent
    ensures var s' := UnrollIndent(s, column).scanner; |s'.queue| + |s'.indents| == |s.queue| + |s.indents|
    decreases |s.indents|
  {
    hide Core;
    if s.flowLevel == 0 && s.indent > column {
      assert s.indents != [] by { OuterLevel(s); }
      var last := |s.indents| - 1;
      var s' := Enqueue(s, BlockEndKind, s.mark).(indents := s.indents[..last], indent := s.indents[last]);
      CloseKeepsCore(s, s');
      UnrollKeepsCore(s', column);
    }
  }

  lemma OuterLevel(s: Scanner)
    requires Core(s)
    ensures s.indents == [] ==> s.indent == -1
    ensures s.indent >= -1
  {
    assert Levels(s)[|s.indents|] == s.indent;
  }

  // ----- Saving a key

  /** A token that may start a key is in the queue, and the scanner is behind it. */
  predicate Queued(s: Scanner, s': Scanner, kind: Kind) {
    && s'.queue == s.queue + [Token(kind, s.mark)] && s'.delivered == s.delivered
    && s'.indents == s.indents && s'.indent == s.indent && s'.started == s.started
    && Before(s.mark, s'.mark)
  }

  lemma SavedKey(s: Scanner, s1: Scanner, s': Scanner, kind: Kind)
    requires KeysOk(s) && Leveled(s) && SaveKey(s) == Fetched(s1) && Queued(s, s', kind)
    requires s'.keys == s1.keys || s'.keys == s1.keys + [NO_KEY]
    ensures KeysOk(s') && |s1.keys| == |s.keys|
  {
    if !s.allowed {
      GrowsKeepsKeys(s, s');
    } else {
      var top := |s.keys| - 1;
      var key := s1.keys[top];
      assert Placed(s', key);
      forall k | 0 <= k < |s'.keys| && s'.keys[k].possible ensures Placed(s', s'.keys[k]) {
        if k < top { assert Placed(s, s.keys[k]); }
      }
      forall i, j | 0 <= i < j < |s'.keys| && s'.keys[i].possible && s'.keys[j].possible
        ensures s'.keys[i].number < s'.keys[j].number
      {
        assert Placed(s, s.keys[i]);
      }
    }
  }

  lemma QueuedKeepsLog(s: Scanner, s': Scanner, kind: Kind)
    requires Balanced(s) && Endless(Log(s)) && Queued(s, s', kind)
    requires kind != StreamEndKind && Change(Token(kind, s.mark)) == 0
    ensures Balanced(s') && Endless(Log(s'))
  {
    hide Endless, Rises, Depth;
    assert Log(s') == Log(s) + [Token(kind, s.mark)];
    LogAppend(Log(s), Token(kind, s.mark));
  }

  // ----- The fetchers

  /** A fetch that went well: the invariant holds, input was consumed, and at most four tokens and levels are new. */
  predicate Steps(s: Scanner, outcome: Outcome) {
    && outcome != Underflow
    && (outcome.Fetched? ==>
          && Core(outcome.scanner) && Unread(outcome.scanner) < Unread(s) && Size(outcome.scanner) <= Size(s) + 4
          && outcome.scanner.delivered == s.delivered && outcome.scanner.text == s.text)
  }

  /** Ready to dispatch on a character of the input. */
  predicate Ready(s: Scanner) {
    Core(s) && Ahead(s, 0) != NUL
  }

  lemma FetchPossibleKeySteps(s: Scanner, kind: Kind)
    requires Ready(s) && (kind.AnchorKind? || kind == TagKind || kind.QuotedScalarKind? || kind == PlainScalarKind)
    ensures Steps(s, FetchPossibleKey(s, kind))
  {
    hide Nested, Balanced, Endless, KeysOk, Advance;
    var saved := SaveKey(s);
    if saved.Fetched? && FetchPossibleKey(s, kind).Fetched? {
      var s1 := saved.scanner;
      var s' := FetchPossibleKey(s, kind).scanner;
      AdvanceMoves(s1.(allowed := false, reaches := s1.reaches[1..]), s1.reaches[0].units);
      SavedKey(s, s1, s', kind);
      QueuedKeepsLog(s, s', kind);
      assert Levels(s') == Levels(s);
    }
  }

  lemma FetchFlowStartSteps(s: Scanner, sequence: bool)
    requires Ready(s)
    ensures Steps(s, FetchFlowStart(s, sequence))
  {
    hide Nested, Balanced, Endless, KeysOk;
    var saved := SaveKey(s);
    if saved.Fetched? {
      var s' := FetchFlowStart(s, sequence).scanner;
      SavedKey(s, saved.scanner, s', FlowStartKind(sequence));
      QueuedKeepsLog(s, s', FlowStartKind(sequence));
      assert Levels(s') == Levels(s);
    }
  }

  lemma FetchFlowEndSteps(s: Scanner, sequence: bool)
    requires Ready(s)
    ensures Steps(s, FetchFlowEnd(s, sequence))
  {
    hide Nested, Balanced, Endless, KeysOk;
    RemoveKeepsCore(s);
    if RemoveKey(s).Fetched? {
      var s1 := RemoveKey(s).scanner;
      var s2 := if s1.flowLevel > 0 then s1.(flowLevel := s1.flowLevel - 1, keys := s1.keys[..|s1.keys| - 1]) else s1;
      GrowsKeepsKeys(s1, s2);
      SameLog(s1, s2);
      assert Levels(s2) == Levels(s1) && Core(s2);
      var s3 := Skip(s2.(allowed := false));
      MoveKeepsCore(s2, s3);
      EnqueueKeepsCore(s3, FlowEndKind(sequence), s.mark);
    }
  }

  lemma FetchIndicatorSteps(s: Scanner, s1: Scanner, kind: Kind, allowed: bool)
    requires Ready(s) && Core(s1) && s1.mark == s.mark && MayRoll(s, s1)
    requires kind == FlowEntryKind || kind == BlockEntryKind || kind == KeyKind
    ensures Steps(s, FetchIndicator(s1, kind, allowed))
  {
    hide Core;
    RemoveKeepsCore(s1);
    if RemoveKey(s1).Fetched? {
      var s2 := RemoveKey(s1).scanner;
      var s3 := Skip(s2.(allowed := allowed));
      MoveKeepsCore(s2, s3);
      EnqueueKeepsCore(s3, kind, s.mark);
    }
  }

  lemma FetchEntrySteps(s: Scanner)
    requires Ready(s)
    ensures Steps(s, FetchBlockEntry(s)) && Steps(s, FetchKey(s)) && Steps(s, FetchIndicator(s, FlowEntryKind, true))
  {
    hide Core, FetchIndicator, RollIndent;
    RollKeepsCore(s, BlockSequenceStartKind, s.mark);
    RollKeepsCore(s, BlockMappingStartKind, s.mark);
    FetchIndicatorSteps(s, RollIndent(s, s.mark.column, None, BlockSequenceStartKind, s.mark).scanner, BlockEntryKind, true);
    FetchIndicatorSteps(s, RollIndent(s, s.mark.column, None, BlockMappingStartKind, s.mark).scanner, KeyKind, s.flowLevel == 0);
    FetchIndicatorSteps(s, s, FlowEntryKind, true);
  }

  lemma FetchBlockScalarSteps(s: Scanner, literal: bool)
    requires Ready(s)
    ensures Steps(s, FetchBlockScalar(s, literal))
  {
    hide Core, Advance;
    RemoveKeepsCore(s);
    if FetchBlockScalar(s, literal).Fetched? {
      var s1 := RemoveKey(s).scanner.(allowed := true);
      MoveKeepsCore(RemoveKey(s).scanner, s1);
      ScanSteps(s, s1, BlockScalarKind(literal));
    }
  }

  lemma ScanSteps(s: Scanner, s1: Scanner, kind: Kind)
    requires Ready(s) && Core(s1) && s1.mark == s.mark && s1.text == s.text && Size(s1) <= Size(s)
    requires s1.delivered == s.delivered
    requires kind.BlockScalarKind? || kind == DirectiveKind
    ensures Steps(s, Scan(s1, kind))
  {
    hide Core, Advance;
    if Scan(s1, kind).Fetched? {
      var s2 := s1.(reaches := s1.reaches[1..]);
      AdvanceMoves(s2, s1.reaches[0].units);
      var s3 := Advance(s2, s1.reaches[0].units).(allowed := s1.allowed);
      MoveKeepsCore(s1, s3);
      EnqueueKeepsCore(s3, kind, s.mark);
    }
  }

  lemma ResetKeepsCore(s: Scanner)
    requires Core(s)
    ensures ResetKeys(s) != Underflow && ResetKeys(s) != Aborted
    ensures ResetKeys(s).Fetched? ==>
      var s' := ResetKeys(s).scanner;
      && Core(s') && s'.mark == s.mark && s'.text == s.text && Size(s') <= Size(s) && !TopKey(s').possible
      && s'.delivered == s.delivered
      && (s.flowLevel == 0 ==> s'.indents == []) && s'.flowLevel == s.flowLevel
      && s'.keys == s.keys[|s.keys| - 1 := TopKey(s).(possible := false)]
  {
    hide Core;
    UnrollKeepsCore(s, -1);
    var s1 := UnrollIndent(s, -1).scanner;
    RemoveKeepsCore(s1);
    if RemoveKey(s1).Fetched? {
      MoveKeepsCore(RemoveKey(s1).scanner, RemoveKey(s1).scanner.(allowed := false));
      Outermost(RemoveKey(s1).scanner);
    }
  }

  lemma Outermost(s: Scanner)
    requires Core(s)
    ensures s.indent <= -1 ==> s.indents == []
    ensures s.keys != []
  {
    if s.indents != [] {
      assert Levels(s)[0] < Levels(s)[|s.indents|];
    }
  }

  lemma FetchDirectiveSteps(s: Scanner)
    requires Ready(s)
    ensures Steps(s, FetchDirective(s))
  {
    hide Core, ResetKeys, Scan;
    ResetKeepsCore(s);
    if ResetKeys(s).Fetched? {
      ScanSteps(s, ResetKeys(s).scanner, DirectiveKind);
    }
  }

  lemma FetchDocumentIndicatorSteps(s: Scanner, kind: Kind)
    requires s.mark.index + 3 <= |s.text| && Ready(s) && (kind == DocumentStartKind || kind == DocumentEndKind)
    ensures Steps(s, FetchDocumentIndicator(s, kind))
  {
    hide Core, ResetKeys;
    ResetKeepsCore(s);
    if ResetKeys(s).Fetched? {
      var s1 := ResetKeys(s).scanner;
      var s2 := Skip(Skip(Skip(s1)));
      MoveKeepsCore(s1, s2);
      EnqueueKeepsCore(s2, kind, s1.mark);
    }
  }

  // ----- Inserting a key

  /** One token goes into the queue, in front of where the key points. */
  lemma InsertedToken(s: Scanner, n: nat, token: Token)
    requires n <= |s.queue| && Change(token) >= 0 && token.kind != StreamEndKind
    requires Rises(0, Log(s)) && Endless(Log(s))
    ensures var s' := s.(queue := s.queue[..n] + [token] + s.queue[n..]);
      Insert(s, |s.delivered| + n, token) == Fetched(s')
      && Rises(0, Log(s')) && Depth(Log(s')) == Depth(Log(s)) + Change(token) && Endless(Log(s'))
  {
    hide Rises, Depth, Endless;
    var s' := s.(queue := s.queue[..n] + [token] + s.queue[n..]);
    var before := s.delivered + s.queue[..n];
    assert Log(s) == before + s.queue[n..];
    assert Log(s') == before + [token] + s.queue[n..];
    LogInsert(before, token, s.queue[n..]);
  }

  /** What is put in front of the key. */
  function KeyTokens(s: Scanner, key: SimpleKey): seq<Token> {
    (if s.flowLevel == 0 && s.indent < key.mark.column then [Token(BlockMappingStartKind, key.mark)] else [])
    + [Token(KeyKind, key.mark)]
  }

  /** The queue with the tokens put in front of the key. */
  predicate KeyInserted(s: Scanner, s': Scanner, key: SimpleKey) {
    var n := key.number - |s.delivered|;
    var rolls := s.flowLevel == 0 && s.indent < key.mark.column;
    && 0 <= n <= |s.queue|
    && s'.queue == s.queue[..n] + KeyTokens(s, key) + s.queue[n..]
    && s' == s.(queue := s'.queue, indents := if rolls then s.indents + [s.indent] else s.indents,
                indent := if rolls then key.mark.column else s.indent)
  }

  /** BLOCK-MAPPING-START goes in front of the KEY just inserted. */
  lemma StartInserted(s: Scanner, s1: Scanner, key: SimpleKey)
    requires |s.delivered| <= key.number < |s.delivered| + |s.queue| && s.flowLevel == 0 && s.indent < key.mark.column
    requires var n := key.number - |s.delivered|; s1 == s.(queue := s.queue[..n] + [Token(KeyKind, key.mark)] + s.queue[n..])
    requires Rises(0, Log(s1)) && Endless(Log(s1))
    ensures var r := RollIndent(s1, key.mark.column, Some(key.number), BlockMappingStartKind, key.mark);
      && r.Fetched? && KeyInserted(s, r.scanner, key)
      && Rises(0, Log(r.scanner)) && Endless(Log(r.scanner)) && Depth(Log(r.scanner)) == Depth(Log(s1)) + 1
  {
    hide Rises, Depth, Endless;
    var n := key.number - |s.delivered|;
    var keyToken, start := Token(KeyKind, key.mark), Token(BlockMappingStartKind, key.mark);
    var s2 := s1.(indents := s1.indents + [s1.indent], indent := key.mark.column);
    assert Log(s2) == Log(s1);
    InsertedToken(s2, n, start);
    assert s1.queue[..n] == s.queue[..n] && s1.queue[n..] == [keyToken] + s.queue[n..];
    assert s.queue[..n] + [start] + ([keyToken] + s.queue[n..]) == s.queue[..n] + ([start] + [keyToken]) + s.queue[n..];
  }

  lemma InsertKeyQueue(s: Scanner, key: SimpleKey)
    requires |s.delivered| <= key.number < |s.delivered| + |s.queue| && Rises(0, Log(s)) && Endless(Log(s))
    ensures InsertKey(s, key).Fetched? && KeyInserted(s, InsertKey(s, key).scanner, key)
    ensures var s' := InsertKey(s, key).scanner;
      && Rises(0, Log(s')) && Endless(Log(s')) && Depth(Log(s')) == Depth(Log(s)) + |KeyTokens(s, key)| - 1
  {
    hide Rises, Depth, Endless;
    var n := key.number - |s.delivered|;
    var keyToken := Token(KeyKind, key.mark);
    InsertedToken(s, n, keyToken);
    var s1 := Insert(s, key.number, keyToken).scanner;
    if s.flowLevel == 0 && s.indent < key.mark.column {
      StartInserted(s, s1, key);
    } else {
      assert [] + [keyToken] == [keyToken];
    }
  }

  /** The other possible keys are numbered lower: their tokens stay where they are. */
  lemma OtherKeysStay(s: Scanner, s': Scanner, key: SimpleKey)
    requires KeysOk(s) && s.keys != [] && key == TopKey(s) && key.possible && KeyInserted(s, s', key)
    ensures KeysOk(SetTopKey(s', key.(possible := false)))
  {
    var s2 := SetTopKey(s', key.(possible := false));
    forall k | 0 <= k < |s2.keys| && s2.keys[k].possible ensures Placed(s2, s2.keys[k]) {
      assert Placed(s, s.keys[k]);
      assert s.keys[k].number < s.keys[|s.keys| - 1].number;
    }
  }

  lemma InsertKeyKeepsCore(s: Scanner)
    requires Core(s) && s.keys != [] && TopKey(s).possible
    ensures InsertKey(s, TopKey(s)).Fetched? && KeyInserted(s, InsertKey(s, TopKey(s)).scanner, TopKey(s))
    ensures Core(SetTopKey(InsertKey(s, TopKey(s)).scanner, TopKey(s).(possible := false)))
  {
    hide Rises, Depth, Endless, Nested, InsertKey;
    var key := TopKey(s);
    assert Placed(s, s.keys[|s.keys| - 1]);
    InsertKeyQueue(s, key);
    var s' := InsertKey(s, key).scanner;
    OtherKeysStay(s, s', key);
    var s2 := SetTopKey(s', key.(possible := false));
    assert Log(s2) == Log(s');
    if s.flowLevel == 0 && s.indent < key.mark.column {
      assert Levels(s2) == Levels(s) + [key.mark.column];
      DeeperLevel(s, key.mark.column);
    } else {
      assert Levels(s2) == Levels(s);
    }
  }

  /** The end of FetchValue: the position and the flag move, and VALUE is queued. */
  lemma ValueQueued(s: Scanner, s1: Scanner, allowed: bool)
    requires Ready(s) && Core(s1) && s1.mark == s.mark && MayRoll(s, s1)
    ensures Steps(s, Fetched(Enqueue(Skip(s1.(allowed := allowed)), ValueKind, s.mark)))
  {
    hide Core;
    var s2 := Skip(s1.(allowed := allowed));
    MoveKeepsCore(s1, s2);
    EnqueueKeepsCore(s2, ValueKind, s.mark);
  }

  lemma FetchValueSteps(s: Scanner)
    requires Ready(s)
    ensures Steps(s, FetchValue(s))
  {
    hide Core, InsertKey, RollIndent, Enqueue, Skip;
    Outermost(s);
    if TopKey(s).possible {
      InsertKeyKeepsCore(s);
      ValueQueued(s, SetTopKey(InsertKey(s, TopKey(s)).scanner, TopKey(s).(possible := false)), false);
    } else {
      RollKeepsCore(s, BlockMappingStartKind, s.mark);
      ValueQueued(s, RollIndent(s, s.mark.column, None, BlockMappingStartKind, s.mark).scanner, s.flowLevel == 0);
    }
  }

  // ----- Whole fetches

  /** No key is stale where the scanner is. */
  predicate AllFresh(s: Scanner) {
    forall k :: 0 <= k < |s.keys| ==> !IsStale(s.keys[k], s.mark)
  }

  /** How many fetches there can still be. */
  function Budget(s: Scanner): nat {
    Unread(s) + (if s.started then 0 else 1) + (if Ended(s) then 0 else 1)
  }

  /** A whole fetch: the invariant is kept, and either input was consumed or STREAM-START or STREAM-END queued. */
  predicate Progress(s: Scanner, outcome: Outcome) {
    && outcome != Underflow
    && (outcome.Fetched? ==>
          var s' := outcome.scanner;
          Inv(s') && s'.started && Budget(s') < Budget(s) && Size(s') <= Size(s) + 4 && s'.delivered == s.delivered && s'.text == s.text)
  }

  lemma StepsAreProgress(s: Scanner, outcome: Outcome)
    requires Core(s) && Steps(s, outcome)
    ensures Progress(s, outcome)
  {
    CoreIsNotEnded(s);
    if outcome.Fetched? {
      CoreIsNotEnded(outcome.scanner);
    }
  }

  lemma CoreIsNotEnded(s: Scanner)
    requires Core(s)
    ensures !Ended(s) && Inv(s)
  {
  }

  lemma FetchStreamEndSteps(s: Scanner)
    requires Ahead(s, 0) == NUL && Core(s) && AllFresh(s)
    ensures Progress(s, FetchStreamEnd(s))
  {
    hide Core, ResetKeys;
    CoreIsNotEnded(s);
    var s1 := if s.mark.column != 0 then s.(mark := Mark(s.mark.index, s.mark.line + 1, 0)) else s;
    MoveKeepsCore(s, s1);
    ResetKeepsCore(s1);
    if ResetKeys(s1).Fetched? {
      EndIsQueued(s, s1, ResetKeys(s1).scanner);
    }
  }

  lemma EndIsQueued(s: Scanner, s1: Scanner, s2: Scanner)
    requires Ahead(s, 0) == NUL && Core(s) && AllFresh(s) && Core(s2) && s2.mark == s1.mark && Size(s2) <= Size(s) && s2.text == s.text
    requires s1 == if s.mark.column != 0 then s.(mark := Mark(s.mark.index, s.mark.line + 1, 0)) else s
    requires s2.keys == s.keys[|s.keys| - 1 := TopKey(s).(possible := false)] && s2.delivered == s.delivered
    requires s2.flowLevel == 0 ==> s2.indents == []
    ensures Progress(s, Fetched(Enqueue(s2, StreamEndKind, s2.mark)))
  {
    hide Nested, Endless, Rises, Depth;
    CoreIsNotEnded(s);
    var end := Token(StreamEndKind, s2.mark);
    var s3 := Enqueue(s2, StreamEndKind, s2.mark);
    GrowsKeepsKeys(s2, s3);
    assert Log(s3) == Log(s2) + [end];
    LogAppend(Log(s2), end);
    assert Log(s3)[..|Log(s3)| - 1] == Log(s2);
    assert Levels(s3) == Levels(s2);
    forall k | 0 <= k < |s3.keys| && s3.keys[k].possible ensures s3.keys[k].mark.line < s3.mark.line {
      assert Placed(s, s.keys[k]);
    }
  }

  lemma DispatchProgresses(s: Scanner)
    requires Core(s) && AllFresh(s)
    ensures Progress(s, Dispatch(s))
  {
    hide Core, Steps, Progress, FetchStreamEnd, FetchDirective, FetchDocumentIndicator, FetchFlowStart, FetchFlowEnd, FetchIndicator,
         FetchBlockEntry, FetchKey, FetchValue, FetchPossibleKey, FetchBlockScalar, ThreeOf, StartsPlain;
    if Ahead(s, 0) == NUL {
      FetchStreamEndSteps(s);
    } else {
      DispatchSteps(s);
      StepsAreProgress(s, Dispatch(s));
    }
  }

  lemma ThreeAreThere(s: Scanner)
    requires ThreeOf(s, DASH) || ThreeOf(s, DOT)
    ensures s.mark.index + 3 <= |s.text|
  {
  }

  lemma DispatchSteps(s: Scanner)
    requires Ready(s)
    ensures Steps(s, Dispatch(s))
  {
    hide Core, FetchStreamEnd, FetchDirective, FetchDocumentIndicator, FetchFlowStart, FetchFlowEnd, FetchIndicator,
         FetchBlockEntry, FetchKey, FetchValue, FetchPossibleKey, FetchBlockScalar, ThreeOf, StartsPlain;
    FetchDirectiveSteps(s);
    if ThreeOf(s, DASH) || ThreeOf(s, DOT) {
      ThreeAreThere(s);
      FetchDocumentIndicatorSteps(s, DocumentStartKind);
      FetchDocumentIndicatorSteps(s, DocumentEndKind);
    }
    FetchFlowStartSteps(s, true);
    FetchFlowStartSteps(s, false);
    FetchFlowEndSteps(s, true);
    FetchFlowEndSteps(s, false);
    FetchEntrySteps(s);
    FetchValueSteps(s);
    FetchPossibleKeySteps(s, AnchorKind(true));
    FetchPossibleKeySteps(s, AnchorKind(false));
    FetchPossibleKeySteps(s, TagKind);
    FetchPossibleKeySteps(s, QuotedScalarKind(true));
    FetchPossibleKeySteps(s, QuotedScalarKind(false));
    FetchPossibleKeySteps(s, PlainScalarKind);
    FetchBlockScalarSteps(s, true);
    FetchBlockScalarSteps(s, false);
  }

  /** The scanner where a fetch dispatches: at the token, stale keys dropped, deeper blocks closed. */
  function AtToken(s: Scanner): Outcome {
    match StaleKeys(ScanToNextToken(s))
    case Fetched(s') => UnrollIndent(s', s'.mark.column)
    case other => other
  }

  lemma AtTokenIsCore(s: Scanner)
    requires Core(s)
    ensures AtToken(s) == Failed || AtToken(s).Fetched?
    ensures AtToken(s).Fetched? ==>
      var t := AtToken(s).scanner;
      && Core(t) && AllFresh(t) && t.mark == ScanToNextToken(s).mark && t.allowed == ScanToNextToken(s).allowed
      && Unread(t) <= Unread(s) && Size(t) == Size(s) && t.delivered == s.delivered && t.text == s.text
      && t.started == s.started && t.flowLevel == s.flowLevel && t.indent <= s.indent && (t.flowLevel == 0 ==> t.indent <= t.mark.column)
  {
    hide Core, ScanToNextToken;
    ScanToNextMoves(s);
    var s1 := ScanToNextToken(s);
    MoveKeepsCore(s, s1);
    if StaleKeys(s1).Fetched? {
      StaleKeepsCore(s1);
      UnrollKeepsCore(StaleKeys(s1).scanner, s1.mark.column);
    }
  }

  lemma FirstLog(log: seq<Token>, mark: Mark)
    requires log == [Token(StreamStartKind, mark)]
    ensures Depth(log) == 0 && Rises(0, log) && Endless(log)
  {
    DepthOfOne(Token(StreamStartKind, mark));
  }

  lemma FetchStarts(s: Scanner)
    requires Unstarted(s)
    ensures Progress(s, FetchStreamStart(s))
  {
    hide Rises, Depth;
    var s' := FetchStreamStart(s).scanner;
    assert Log(s') == [Token(StreamStartKind, s.mark)];
    FirstLog(Log(s'), s.mark);
    assert s'.keys == [NO_KEY] && Levels(s') == [-1];
  }

  /** Every fetch from a reachable state keeps the invariant and makes progress. */
  lemma FetchProgresses(s: Scanner)
    requires Inv(s) && !Ended(s)
    ensures Progress(s, FetchNextToken(s))
  {
    hide Core, Dispatch, Unstarted;
    if !s.started {
      assert Unstarted(s);
      FetchStarts(s);
    } else {
      assert Core(s) by { StartedIsCore(s); }
      AtTokenIsCore(s);
      if AtToken(s).Fetched? {
        DispatchProgresses(AtToken(s).scanner);
        CoreIsNotEnded(AtToken(s).scanner);
        CoreIsNotEnded(s);
      }
    }
  }

  lemma StartedIsCore(s: Scanner)
    requires Inv(s) && !Ended(s) && s.started
    ensures Core(s)
  {
  }
}
