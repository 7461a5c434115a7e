/**
  The scanner at work on its token queue, simple keys and indentation: the functions of
  scanner.c that change the scanner object, each proved to do what the function of the same
  purpose in `TokenScanning` says.
 */
module TokenFetcher {
  import opened Chars
  import opened Options
  import opened TokenScanning
  import ScannerInvariants
  import ScannerRuns

  /** A call went well, or failed, or an assertion failed, or an empty stack was used. */
  datatype Result = Ok | Error | Abort | Underflown

  class Fetcher {
    const text: Text
    var mark: Mark
    var reaches: seq<Reach>
    var started: bool
    var indent: int
    var indents: seq<int>
    var flowLevel: nat
    var keys: seq<SimpleKey>
    var allowed: bool
    var queue: seq<Token>
    var parsed: nat
    ghost var delivered: seq<Token>  // what has left the queue

    constructor (text: Text, reaches: seq<Reach>)
      ensures Valid() && Value() == Start(text, reaches)
    {
      this.text, mark, this.reaches, started := text, Mark(0, 0, 0), reaches, false;
      indent, indents, flowLevel, keys, allowed := 0, [], 0, [], false;
      queue, parsed, delivered := [], 0, [];
    }

    ghost predicate Valid()
      reads this
    {
      parsed == |delivered|
    }

    ghost function Value(): Scanner
      reads this
    {
      Scanner(text, mark, reaches, started, indent, indents, flowLevel, keys, allowed, delivered, queue)
    }

    ghost predicate Does(outcome: Outcome, r: Result)
      reads this
    {
      match outcome
      case Fetched(s) => r == Ok && Value() == s
      case Failed => r == Error
      case Aborted => r == Abort
      case Underflow => r == Underflown
    }

    function Peek(k: nat): (c: Char)
      reads this
      ensures c == Ahead(Value(), k)
    {
      if mark.index + k < |text| then text[mark.index + k] else NUL
    }

    /** SKIP; the character is never the NUL at the end. */
    method SkipOne()
      requires Inside(Value())
      modifies this`mark
      ensures Value() == Skip(old(Value()))
    {
      mark := Mark(mark.index + 1, mark.line, mark.column + 1);
    }

    /** SKIP_LINE. */
    method SkipBreak()
      requires Inside(Value()) && IsBreak(Ahead(Value(), 0))
      modifies this`mark
      ensures Value() == SkipLine(old(Value()))
    {
      mark := Mark(mark.index + (if Peek(0) == CR && Peek(1) == LF then 2 else 1), mark.line + 1, 0);
    }

    method ScanToToken()
      modifies this`mark, this`allowed
      ensures Value() == ScanToNextToken(old(Value()))
    {
      ghost var s := Value();
      while true
        invariant ScanToNextToken(s) == ScanToNextToken(Value())
        invariant unchanged(`reaches) && unchanged(`started) && unchanged(`indent) && unchanged(`indents) && unchanged(`flowLevel)
        invariant unchanged(`keys) && unchanged(`queue) && unchanged(`parsed) && unchanged(`delivered)
        decreases Unread(Value())
      {
        ghost var t := Value();
        SkipInLineMoves(t);
        SkipInTheLine();
        if !IsBreak(Peek(0)) {
          return;
        }
        SkipBreak();
        if flowLevel == 0 {
          allowed := true;
        }
      }
    }

    /** A byte order mark, blanks and a comment. */
    method SkipInTheLine()
      modifies this`mark
      ensures Value() == SkipInLine(old(Value()))
    {
      if mark.column == 0 && Peek(0) == BOM {
        SkipOne();
      }
      ghost var s := Value();
      while Peek(0) == SPACE || ((flowLevel > 0 || !allowed) && Peek(0) == TAB)
        invariant SkipBlanks(s) == SkipBlanks(Value())
        decreases Unread(Value())
      {
        SkipOne();
      }
      if Peek(0) == HASH {
        ghost var s' := Value();
        while !IsBreakZ(Peek(0))
          invariant SkipComment(s') == SkipComment(Value())
          decreases Unread(Value())
        {
          SkipOne();
        }
      }
    }

    // ----- The queue, the simple keys and the indentation

    method Put(kind: Kind, at: Mark)
      modifies this`queue
      ensures Value() == Enqueue(old(Value()), kind, at)
    {
      queue := queue + [Token(kind, at)];
    }

    method PutAt(number: nat, token: Token) returns (r: Result)
      requires Valid()
      modifies this`queue
      ensures Does(Insert(old(Value()), number, token), r)
    {
      if !(parsed <= number <= parsed + |queue|) {
        return Underflown;
      }
      queue := queue[..number - parsed] + [token] + queue[number - parsed..];
      return Ok;
    }

    static ghost function With(front: seq<SimpleKey>, rest: Option<seq<SimpleKey>>): Option<seq<SimpleKey>> {
      match rest
      case None => None
      case Some(keys) => Some(front + keys)
    }

    /** One more key is refreshed. */
    static lemma FreshStep(front: seq<SimpleKey>, rest: seq<SimpleKey>, at: Mark)
      requires rest != []
      ensures With(front, Fresh(rest, at))
        == if IsStale(rest[0], at) && rest[0].required then None
           else With(front + [Refreshed(rest[0], at)], Fresh(rest[1..], at))
    {
      var more := Fresh(rest[1..], at);
      if more.Some? {
        assert front + ([Refreshed(rest[0], at)] + more.value) == front + [Refreshed(rest[0], at)] + more.value;
      }
    }

    method StaleSimpleKeys() returns (r: Result)
      modifies this`keys
      ensures Does(StaleKeys(old(Value())), r)
    {
      hide Fresh;
      ghost var start := keys;
      var k := 0;
      assert start[..0] == [] && start[0..] == start;
      while k < |keys|
        invariant 0 <= k <= |keys| == |start|
        invariant keys[k..] == start[k..]
        invariant With(keys[..k], Fresh(start[k..], mark)) == With([], Fresh(start, mark))
      {
        ghost var front := keys[..k];
        FreshStep(front, start[k..], mark);
        assert start[k..][1..] == start[k + 1..] && start[k..][0] == keys[k];
        if IsStale(keys[k], mark) {
          if keys[k].required {
            return Error;
          }
          keys := keys[k := keys[k].(possible := false)];
        }
        assert keys[..k + 1] == front + [Refreshed(start[k], mark)];
        k := k + 1;
      }
      assert start[k..] == [] && Fresh([], mark) == Some([]) by { NoneFresh(mark); }
      assert keys[..k] + [] == keys;
      FreshWithNothing(start);
      return Ok;
    }

    static lemma NoneFresh(at: Mark)
      ensures Fresh([], at) == Some([])
    {
    }

    lemma FreshWithNothing(start: seq<SimpleKey>)
      ensures With([], Fresh(start, mark)) == Fresh(start, mark)
    {
      if Fresh(start, mark).Some? {
        assert [] + Fresh(start, mark).value == Fresh(start, mark).value;
      }
    }

    method RemoveSimpleKey() returns (r: Result)
      modifies this`keys
      ensures Does(RemoveKey(old(Value())), r)
    {
      if keys == [] {
        return Underflown;
      }
      var top := |keys| - 1;
      if keys[top].possible && keys[top].required {
        return Error;
      }
      keys := keys[top := keys[top].(possible := false)];
      return Ok;
    }

    method SaveSimpleKey() returns (r: Result)
      requires Valid()
      modifies this`keys
      ensures Does(SaveKey(old(Value())), r)
    {
      var required := flowLevel == 0 && indent == mark.column;
      if required && !allowed {
        return Abort;
      }
      if !allowed {
        return Ok;
      }
      var key := SimpleKey(true, required, parsed + |queue|, mark);
      r := RemoveSimpleKey();
      if r == Ok {
        keys := keys[|keys| - 1 := key];
      }
    }

    method RollTo(column: int, number: Option<nat>, kind: Kind, at: Mark) returns (r: Result)
      requires Valid()
      modifies this`indents, this`indent, this`queue
      ensures Does(RollIndent(old(Value()), column, number, kind, at), r)
    {
      if flowLevel > 0 || indent >= column {
        return Ok;
      }
      indents := indents + [indent];
      indent := column;
      if number == None {
        Put(kind, at);
        return Ok;
      }
      r := PutAt(number.value, Token(kind, at));
    }

    method UnrollTo(column: int) returns (r: Result)
      modifies this`indents, this`indent, this`queue
      ensures Does(UnrollIndent(old(Value()), column), r)
    {
      if flowLevel > 0 {
        return Ok;
      }
      ghost var s := Value();
      while indent > column
        invariant UnrollIndent(s, column) == UnrollIndent(Value(), column) && flowLevel == 0
        decreases |indents|
      {
        if indents == [] {
          return Underflown;
        }
        Put(BlockEndKind, mark);
        indent, indents := indents[|indents| - 1], indents[..|indents| - 1];
      }
      return Ok;
    }

    /** Closes all blocks and drops the simple key. */
    method Reset() returns (r: Result)
      modifies this`indents, this`indent, this`queue, this`keys, this`allowed
      ensures Does(ResetKeys(old(Value())), r)
    {
      r := UnrollTo(-1);
      if r == Ok {
        r := RemoveSimpleKey();
        if r == Ok {
          allowed := false;
        }
      }
    }

    // ----- The fetchers

    method FetchStart()
      modifies this
      ensures Fetched(Value()) == FetchStreamStart(old(Value())) && parsed == old(parsed)
    {
      indent, keys, allowed, started := -1, keys + [NO_KEY], true, true;
      Put(StreamStartKind, mark);
    }

    method FetchEnd() returns (r: Result)
      modifies this`mark, this`indents, this`indent, this`queue, this`keys, this`allowed
      ensures Does(FetchStreamEnd(old(Value())), r)
    {
      if mark.column != 0 {
        mark := Mark(mark.index, mark.line + 1, 0);
      }
      r := Reset();
      if r == Ok {
        Put(StreamEndKind, mark);
      }
    }

    /** Goes over characters and breaks, never over the end of the input. */
    method AdvanceBy(units: nat)
      modifies this`mark
      ensures Value() == Advance(old(Value()), units)
    {
      var left := units;
      ghost var s := Value();
      while left > 0 && Peek(0) != NUL
        invariant Advance(s, units) == Advance(Value(), left)
        decreases left
      {
        if IsBreak(Peek(0)) {
          SkipBreak();
        } else {
          SkipOne();
        }
        left := left - 1;
      }
    }

    /** A token scanned as far as it reaches. */
    method ScanToken(kind: Kind) returns (r: Result)
      modifies this`reaches, this`mark, this`allowed, this`queue
      ensures Does(Scan(old(Value()), kind), r)
    {
      hide Advance;
      if reaches == [] || reaches[0].BrokenToken? {
        return Error;
      }
      var reach, start := reaches[0], mark;
      reaches := reaches[1..];
      AdvanceBy(reach.units);
      if kind == PlainScalarKind && reach.afterBreak {
        allowed := true;
      }
      Put(kind, start);
      return Ok;
    }

    method FetchDirectiveToken() returns (r: Result)
      modifies this
      ensures Does(FetchDirective(old(Value())), r) && parsed == old(parsed) && delivered == old(delivered)
    {
      hide Advance;
      r := Reset();
      if r == Ok {
        r := ScanToken(DirectiveKind);
      }
    }

    method FetchDocumentToken(kind: Kind) returns (r: Result)
      requires mark.index + 3 <= |text|
      modifies this
      ensures Does(FetchDocumentIndicator(old(Value()), kind), r) && parsed == old(parsed) && delivered == old(delivered)
    {
      r := Reset();
      if r == Ok {
        var start := mark;
        SkipOne();
        SkipOne();
        SkipOne();
        Put(kind, start);
      }
    }

    method FetchFlowStartToken(sequence: bool) returns (r: Result)
      requires Valid() && Inside(Value())
      modifies this
      ensures Does(FetchFlowStart(old(Value()), sequence), r) && parsed == old(parsed) && delivered == old(delivered)
    {
      r := SaveSimpleKey();
      if r == Ok {
        keys := keys + [NO_KEY];
        flowLevel := flowLevel + 1;
        allowed := true;
        var start := mark;
        SkipOne();
        Put(FlowStartKind(sequence), start);
      }
    }

    method FetchFlowEndToken(sequence: bool) returns (r: Result)
      requires Inside(Value())
      modifies this
      ensures Does(FetchFlowEnd(old(Value()), sequence), r) && parsed == old(parsed) && delivered == old(delivered)
    {
      r := RemoveSimpleKey();
      if r == Ok {
        if flowLevel > 0 {
          flowLevel := flowLevel - 1;
          keys := keys[..|keys| - 1];
        }
        allowed := false;
        var start := mark;
        SkipOne();
        Put(FlowEndKind(sequence), start);
      }
    }

    method FetchIndicatorToken(kind: Kind, mayFollow: bool) returns (r: Result)
      requires Inside(Value())
      modifies this
      ensures Does(FetchIndicator(old(Value()), kind, mayFollow), r) && parsed == old(parsed) && delivered == old(delivered)
    {
      r := RemoveSimpleKey();
      if r == Ok {
        allowed := mayFollow;
        var start := mark;
        SkipOne();
        Put(kind, start);
      }
    }

    method FetchBlockEntryToken() returns (r: Result)
      requires Valid() && Inside(Value())
      modifies this
      ensures Does(FetchBlockEntry(old(Value())), r) && parsed == old(parsed) && delivered == old(delivered)
    {
      if flowLevel == 0 && !allowed {
        return Error;
      }
      r := RollTo(mark.column, None, BlockSequenceStartKind, mark);
      if r == Ok {
        r := FetchIndicatorToken(BlockEntryKind, true);
      }
    }

    method FetchKeyToken() returns (r: Result)
      requires Valid() && Inside(Value())
      modifies this
      ensures Does(FetchKey(old(Value())), r) && parsed == old(parsed) && delivered == old(delivered)
    {
      if flowLevel == 0 && !allowed {
        return Error;
      }
      r := RollTo(mark.column, None, BlockMappingStartKind, mark);
      if r == Ok {
        r := FetchIndicatorToken(KeyKind, flowLevel == 0);
      }
    }

    /** KEY, and perhaps BLOCK-MAPPING-START, in front of the token a simple key starts with. */
    method PutKey(key: SimpleKey) returns (r: Result)
      requires Valid()
      modifies this`indents, this`indent, this`queue
      ensures Does(InsertKey(old(Value()), key), r)
    {
      hide Insert, RollIndent;
      r := PutAt(key.number, Token(KeyKind, key.mark));
      if r == Ok {
        r := RollTo(key.mark.column, Some(key.number), BlockMappingStartKind, key.mark);
      }
    }

    method FetchValueToken() returns (r: Result)
      requires Valid() && Inside(Value())
      modifies this
      ensures Does(FetchValue(old(Value())), r) && parsed == old(parsed) && delivered == old(delivered)
    {
      hide InsertKey, RollIndent;
      if keys == [] {
        return Underflown;
      }
      var key := keys[|keys| - 1];
      if key.possible {
        r := PutKey(key);
        if r != Ok {
          return;
        }
        keys := keys[|keys| - 1 := keys[|keys| - 1].(possible := false)];
        allowed := false;
      } else {
        if flowLevel == 0 && !allowed {
          return Error;
        }
        r := RollTo(mark.column, None, BlockMappingStartKind, mark);
        if r != Ok {
          return;
        }
        allowed := flowLevel == 0;
      }
      var start := mark;
      SkipOne();
      Put(ValueKind, start);
    }

    method FetchKeyLikeToken(kind: Kind) returns (r: Result)
      requires Valid()
      modifies this
      ensures Does(FetchPossibleKey(old(Value()), kind), r) && parsed == old(parsed) && delivered == old(delivered)
    {
      hide Advance;
      r := SaveSimpleKey();
      if r == Ok {
        allowed := false;
        r := ScanToken(kind);
      }
    }

    method FetchBlockScalarToken(literal: bool) returns (r: Result)
      modifies this
      ensures Does(FetchBlockScalar(old(Value()), literal), r) && parsed == old(parsed) && delivered == old(delivered)
    {
      hide Advance;
      r := RemoveSimpleKey();
      if r == Ok {
        allowed := true;
        r := ScanToken(BlockScalarKind(literal));
      }
    }

    method FetchByCharacter() returns (r: Result)
      requires Valid()
      modifies this
      ensures Does(Dispatch(old(Value())), r) && parsed == old(parsed) && delivered == old(delivered)
    {
      hide FetchStreamEnd, FetchDirective, FetchDocumentIndicator, FetchFlowStart, FetchFlowEnd, FetchIndicator, FetchBlockEntry,
           FetchKey, FetchValue, FetchPossibleKey, FetchBlockScalar;
      var c, next := Peek(0), Peek(1);
      var three := mark.column == 0 && c == next && c == Peek(2) && IsBlankZ(Peek(3));
      if c == NUL {
        r := FetchEnd();
      } else if mark.column == 0 && c == PERCENT {
        r := FetchDirectiveToken();
      } else if three && c == DASH {
        r := FetchDocumentToken(DocumentStartKind);
      } else if three && c == DOT {
        r := FetchDocumentToken(DocumentEndKind);
      } else if c == LEFT_BRACKET || c == LEFT_BRACE {
        r := FetchFlowStartToken(c == LEFT_BRACKET);
      } else if c == RIGHT_BRACKET || c == RIGHT_BRACE {
        r := FetchFlowEndToken(c == RIGHT_BRACKET);
      } else if c == COMMA {
        r := FetchIndicatorToken(FlowEntryKind, true);
      } else if c == DASH && IsBlankZ(next) {
        r := FetchBlockEntryToken();
      } else if c == QUESTION && (flowLevel > 0 || IsBlankZ(next)) {
        r := FetchKeyToken();
      } else if c == COLON && (flowLevel > 0 || IsBlankZ(next)) {
        r := FetchValueToken();
      } else if c == STAR || c == AMPERSAND {
        r := FetchKeyLikeToken(AnchorKind(c == STAR));
      } else if c == EXCLAMATION {
        r := FetchKeyLikeToken(TagKind);
      } else if (c == BAR || c == GREATER) && flowLevel == 0 {
        r := FetchBlockScalarToken(c == BAR);
      } else if c == SQUOTE || c == DQUOTE {
        r := FetchKeyLikeToken(QuotedScalarKind(c == SQUOTE));
      } else if !(IsBlankZ(c) || IsIndicator(c)) || (c == DASH && !IsBlank(next))
                || (flowLevel == 0 && (c == QUESTION || c == COLON) && !IsBlankZ(next)) {
        r := FetchKeyLikeToken(PlainScalarKind);
      } else {
        r := Error;
      }
    }

    method FetchNext() returns (r: Result)
      requires Valid()
      modifies this
      ensures Does(FetchNextToken(old(Value())), r) && parsed == old(parsed) && delivered == old(delivered)
    {
      hide Dispatch, ScanToNextToken, UnrollIndent;
      if !started {
        FetchStart();
        return Ok;
      }
      ScanToToken();
      r := StaleSimpleKeys();
      if r == Ok {
        r := UnrollTo(mark.column);
        if r == Ok {
          r := FetchByCharacter();
        }
      }
    }

    /** Fetches until the head of the queue cannot become a simple key any more. */
    method FetchMoreTokens() returns (r: Result)
      requires Valid() && ScannerInvariants.Inv(Value()) && !Finished(Value())
      modifies this
      ensures Does(ScannerRuns.FetchMore(old(Value())), r) && Valid()
    {
      hide FetchNextToken, ScannerInvariants.Inv, ScannerInvariants.Budget, StaleKeys;
      ghost var s := Value();
      while true
        invariant Valid() && ScannerInvariants.Inv(Value()) && !Finished(Value())
        invariant ScannerRuns.FetchMore(s) == ScannerRuns.FetchMore(Value())
        decreases ScannerInvariants.Budget(Value())
      {
        ghost var t := Value();
        if queue == [] {
          ScannerRuns.NotEndedYet(t);
          ScannerInvariants.FetchProgresses(t);
        } else {
          r := StaleSimpleKeys();
          if r != Ok {
            return;
          }
          ScannerRuns.StaleKeepsInv(t);
          var more := HeadIsOpen();
          if !more {
            return;
          }
          if ScannerInvariants.Ended(t) { ScannerRuns.EndSettlesTheHead(t); }
          ScannerInvariants.FetchProgresses(Value());
        }
        r := FetchNext();
        if r != Ok {
          return;
        }
      }
    }

    /** Whether a possible key has the number of the head of the queue. */
    method HeadIsOpen() returns (yes: bool)
      requires Valid()
      ensures yes == HeadMayBeKey(Value())
    {
      var k := 0;
      while k < |keys|
        invariant 0 <= k <= |keys|
        invariant forall j :: 0 <= j < k ==> !(keys[j].possible && keys[j].number == parsed)
      {
        if keys[k].possible && keys[k].number == parsed {
          return true;
        }
        k := k + 1;
      }
      return false;
    }

    /** Hands over the head of the queue. */
    method Take() returns (token: Token)
      requires Valid() && queue != []
      modifies this`queue, this`parsed, this`delivered
      ensures Valid() && Value() == Deliver(old(Value())) && token == old(queue)[0]
    {
      token := queue[0];
      delivered := delivered + [token];
      queue, parsed := queue[1..], parsed + 1;
    }
  }
}
