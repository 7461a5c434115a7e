/**
  Whole runs of the token scanner: it ends, what it delivers is balanced, a retroactive KEY
  lands in front of the token it belongs to, nothing is fetched behind STREAM-END, and exactly
  what the failing assertion needs.
 */
module ScannerRuns {
  import opened Chars
  import opened Options
  import opened TokenScanning
  import opened ScannerInvariants

  // ----- Fetching until the head of the queue is settled

  /** An end in the queue makes every possible key stale. */
  lemma EndSettlesTheHead(s: Scanner)
    requires Inv(s) && Ended(s) && StaleKeys(s).Fetched?
    ensures !HeadMayBeKey(StaleKeys(s).scanner)
  {
    var s' := StaleKeys(s).scanner;
    forall k | 0 <= k < |s'.keys| ensures !s'.keys[k].possible {
      assert s'.keys[k] == Refreshed(s.keys[k], s.mark);
    }
  }

  /** Dropping stale keys keeps the invariant. */
  lemma StaleKeepsInv(s: Scanner)
    requires Inv(s) && StaleKeys(s).Fetched?
    ensures Inv(StaleKeys(s).scanner) && AllFresh(StaleKeys(s).scanner)
    ensures Budget(StaleKeys(s).scanner) == Budget(s) && Size(StaleKeys(s).scanner) == Size(s)
    ensures Ended(StaleKeys(s).scanner) == Ended(s)
  {
    hide Nested, Endless, Rises, Depth;
    var s' := StaleKeys(s).scanner;
    assert Log(s') == Log(s) && Levels(s') == Levels(s);
    if s.started {
      GrowsKeepsKeys(s, s');
    } else {
      assert s'.keys == [];
    }
  }

  lemma NotEndedYet(s: Scanner)
    requires Inv(s) && s.queue == [] && !Finished(s)
    ensures !Ended(s)
  {
  }

  /** yaml_parser_fetch_more_tokens: until there is a token at the head that cannot become a key any more. */
  function FetchMore(s: Scanner): Outcome
    requires Inv(s) && !Finished(s)
    decreases Budget(s)
  {
    hide FetchNextToken, Started, Unstarted;
    if s.queue == [] then
      NotEndedYet(s);
      FetchProgresses(s);
      Again(FetchNextToken(s), s)
    else
      match StaleKeys(s)
      case Fetched(s') =>
        StaleKeepsInv(s);
        if HeadMayBeKey(s') then
          assert !Ended(s) by { if Ended(s) { EndSettlesTheHead(s); } }
          FetchProgresses(s');
          Again(FetchNextToken(s'), s)
        else Fetched(s')
      case other => other
  }

  function Again(outcome: Outcome, s: Scanner): Outcome
    requires outcome.Fetched? ==> Inv(outcome.scanner) && !Finished(outcome.scanner) && Budget(outcome.scanner) < Budget(s)
    decreases Budget(s), 0
  {
    match outcome
    case Fetched(s') => FetchMore(s')
    case other => other
  }

  /** A bound on the tokens still to be delivered. */
  function Potential(s: Scanner): nat {
    4 * Budget(s) + Size(s)
  }

  /** There is a settled token at the head. */
  predicate Settled(s: Scanner) {
    Inv(s) && s.queue != [] && !HeadMayBeKey(s)
  }

  lemma {:induction false} FetchMoreSettles(s: Scanner)
    requires Inv(s) && !Finished(s)
    ensures FetchMore(s) != Underflow
    ensures FetchMore(s).Fetched? ==>
      var s' := FetchMore(s).scanner;
      Settled(s') && Potential(s') <= Potential(s) && s'.delivered == s.delivered && s'.text == s.text
    decreases Budget(s)
  {
    hide Inv, Budget, Size, FetchNextToken, HeadMayBeKey;
    if s.queue == [] {
      NotEndedYet(s);
      FetchProgresses(s);
      if FetchNextToken(s).Fetched? {
        FetchMoreSettles(FetchNextToken(s).scanner);
      }
    } else if StaleKeys(s).Fetched? {
      StaleKeepsInv(s);
      var s' := StaleKeys(s).scanner;
      if HeadMayBeKey(s') {
        if Ended(s) { EndSettlesTheHead(s); }
        FetchProgresses(s');
        if FetchNextToken(s').Fetched? {
          FetchMoreSettles(FetchNextToken(s').scanner);
        }
      }
    }
  }

  /** Behind STREAM-END nothing is fetched: only the stale keys are dropped. */
  lemma NothingIsFetchedBehindTheEnd(s: Scanner)
    requires Inv(s) && Ended(s) && !Finished(s)
    ensures FetchMore(s) == StaleKeys(s)
  {
    if s.queue == [] { NotEndedYet(s); }
    if StaleKeys(s).Fetched? { EndSettlesTheHead(s); }
  }

  // ----- Delivery

  lemma DeliverKeepsInv(s: Scanner)
    requires Settled(s)
    ensures Inv(Deliver(s)) && Potential(Deliver(s)) < Potential(s)
  {
    hide Nested, Endless, Rises, Depth;
    var s' := Deliver(s);
    assert Log(s') == Log(s) && Levels(s') == Levels(s);
    forall k | 0 <= k < |s'.keys| && s'.keys[k].possible ensures Placed(s', s'.keys[k]) {
      assert Placed(s, s.keys[k]);
    }
  }

  datatype End = AtStreamEnd | AtError | AtAbort | AtUnderflow

  /** The scanner after the last token delivered, and how the run ended. */
  datatype Run = Run(scanner: Scanner, end: End)

  function ScanAll(s: Scanner): Run
    requires Inv(s)
    decreases Potential(s)
  {
    if Finished(s) then Run(s, AtStreamEnd)
    else
      FetchMoreSettles(s);
      match FetchMore(s)
      case Fetched(s') => DeliverKeepsInv(s'); ScanAll(Deliver(s'))
      case Failed => Run(s, AtError)
      case Aborted => Run(s, AtAbort)
      case Underflow => Run(s, AtUnderflow)
  }

  lemma {:induction false} ScanAllKeepsInv(s: Scanner)
    requires Inv(s)
    ensures var run := ScanAll(s);
      && Inv(run.scanner) && run.end != AtUnderflow && (run.end == AtStreamEnd ==> Finished(run.scanner))
      && |run.scanner.delivered| <= |s.delivered| + Potential(s) && run.scanner.text == s.text
    decreases Potential(s)
  {
    hide Inv, Potential, Settled, FetchMore, Finished;
    if !Finished(s) {
      FetchMoreSettles(s);
      if FetchMore(s).Fetched? {
        SettledHasHead(FetchMore(s).scanner);
        DeliverKeepsInv(FetchMore(s).scanner);
        ScanAllKeepsInv(Deliver(FetchMore(s).scanner));
      }
    }
  }

  lemma SettledHasHead(s: Scanner)
    requires Settled(s)
    ensures s.queue != []
  {
  }

  /**
    Every run ends, with no more than four tokens to a character and eight more; no stack is
    popped empty; every prefix of the tokens delivered has at least as many block starts as
    ends; STREAM-END is the last token or is not there.
   */
  lemma EveryScanIsBalanced(text: Text, reaches: seq<Reach>)
    ensures Inv(Start(text, reaches))
    ensures var run := ScanAll(Start(text, reaches));
      && run.end != AtUnderflow
      && |run.scanner.delivered| <= 4 * |text| + 8
      && (forall n :: 0 <= n <= |run.scanner.delivered| ==> Depth(run.scanner.delivered[..n]) >= 0)
      && (run.end == AtStreamEnd ==> Finished(run.scanner))
  {
    hide ScanAll, Depth, Rises;
    var s := Start(text, reaches);
    ScanAllKeepsInv(s);
    var end := ScanAll(s).scanner;
    DeliveredRises(end);
    forall n | 0 <= n <= |end.delivered| ensures Depth(end.delivered[..n]) >= 0 {
      RisesMeansPrefixes(0, end.delivered, n);
    }
  }

  /**
    At the end of every run, however it ends, the position and the characters still unread add up
    to the whole input; and a run that delivers STREAM-END has read every character, but not the
    NUL behind the last one.
   */
  lemma PositionIsConserved(text: Text, reaches: seq<Reach>)
    requires NUL !in text
    ensures var run := ScanAll(Start(text, reaches));
      && run.scanner.text == text && run.scanner.mark.index + Unread(run.scanner) == |text|
      && (run.end == AtStreamEnd ==> run.scanner.mark.index == |text|)
  {
    hide ScanAll, Started, Depth, Rises;
    ScanAllKeepsInv(Start(text, reaches));
    InvIsWithin(ScanAll(Start(text, reaches)).scanner);
  }

  /** The same in every reachable state, between any two fetches or deliveries. */
  lemma InvIsWithin(s: Scanner)
    requires Inv(s)
    ensures s.mark.index + Unread(s) == |s.text|
    ensures Finished(s) && NUL !in s.text ==> s.mark.index == |s.text|
  {
    if Finished(s) {
      assert Log(s)[|s.delivered| - 1] == s.delivered[|s.delivered| - 1];
    }
  }

  lemma DeliveredRises(s: Scanner)
    requires Inv(s)
    ensures Rises(0, s.delivered)
  {
    if s.started {
      RisesAppend(0, s.delivered, s.queue);
    }
  }

  /** When STREAM-END is delivered, all that was opened is closed unless a flow collection is open. */
  lemma StreamEndBalances(s: Scanner)
    requires Inv(s) && Finished(s)
    ensures s.queue == [] && Endless(s.delivered[..|s.delivered| - 1])
    ensures Depth(s.delivered) == |s.indents|
    ensures s.flowLevel == 0 ==> Depth(s.delivered) == 0
  {
    hide Depth, Rises, Nested, KeysOk;
    var end := |s.delivered| - 1;
    assert Log(s)[end] == s.delivered[end];
    LastInFront(s.delivered, s.queue);
    assert s.queue == [] ==> Log(s) == s.delivered;
    NoDepth();
  }

  lemma LastInFront(a: seq<Token>, b: seq<Token>)
    ensures a != [] && b != [] && Endless((a + b)[..|a + b| - 1]) ==> a[|a| - 1].kind != StreamEndKind
  {
    if a != [] && b != [] {
      assert (a + b)[..|a + b| - 1][|a| - 1] == a[|a| - 1];
    }
  }

  lemma NoDepth()
    ensures Depth([]) == 0
  {
  }

  // ----- The retroactive insertion

  /** Where the ':' of a simple key is read: the key is on this line and at most 1024 characters back. */
  lemma KeysAreNear(s: Scanner, k: nat)
    requires Core(s) && AllFresh(s) && k < |s.keys| && s.keys[k].possible
    ensures s.keys[k].mark.line == s.mark.line && s.keys[k].mark.index < s.mark.index <= s.keys[k].mark.index + 1024
  {
    assert Placed(s, s.keys[k]);
  }

  /** The token a possible key would start with. */
  function TokenOf(s: Scanner, key: SimpleKey): Token
    requires Placed(s, key)
  {
    s.queue[key.number - |s.delivered|]
  }

  /**
    At a ':' behind a possible key, KEY and perhaps BLOCK-MAPPING-START are put into the queue
    directly in front of the token that the key starts with, at its mark, which is on the same
    line and within 1024 characters; VALUE is appended; and every other possible key still is
    the number of the token it was.
   */
  lemma SimpleKeyInsertion(s: Scanner)
    requires Inside(s) && Core(s) && AllFresh(s) && s.keys != [] && TopKey(s).possible
    ensures var key := TopKey(s);
      && Placed(s, key)
      && key.mark.line == s.mark.line && key.mark.index < s.mark.index <= key.mark.index + 1024
      && FetchValue(s).Fetched?
      && var n, s' := key.number - |s.delivered|, FetchValue(s).scanner;
      && s'.queue == s.queue[..n] + KeyTokens(s, key) + s.queue[n..] + [Token(ValueKind, s.mark)]
      && s.queue[n].mark == key.mark
      && (forall k :: 0 <= k < |s.keys| - 1 && s.keys[k].possible ==>
            Placed(s, s.keys[k]) && Placed(s', s.keys[k]) && s'.keys[k] == s.keys[k] && TokenOf(s', s.keys[k]) == TokenOf(s, s.keys[k]))
  {
    hide Nested, Balanced, Endless, InsertKey;
    var top := |s.keys| - 1;
    var key := TopKey(s);
    KeysAreNear(s, top);
    InsertKeyKeepsCore(s);
    var s' := FetchValue(s).scanner;
    var n := key.number - |s.delivered|;
    forall k | 0 <= k < top && s.keys[k].possible
      ensures Placed(s, s.keys[k]) && Placed(s', s.keys[k]) && TokenOf(s', s.keys[k]) == TokenOf(s, s.keys[k])
    {
      assert Placed(s, s.keys[k]) && s.keys[k].number < s.keys[top].number;
      assert s'.queue[..n] == s.queue[..n];
    }
  }

  // ----- The assertion on required keys

  /** Where no key may start in a block, the scanner is to the right of the indentation. */
  predicate RightOfIndent(s: Scanner) {
    s.started && s.flowLevel == 0 && !s.allowed ==> s.mark.column > s.indent
  }

  lemma AtTokenStaysRight(s: Scanner)
    requires Core(s) && RightOfIndent(s) && AtToken(s).Fetched?
    ensures RightOfIndent(AtToken(s).scanner)
  {
    hide ScanToNextToken, Core, AtToken;
    AtTokenIsCore(s);
    ScanToNextMoves(s);
  }

  /** The assertion fails: a key has to start here, and none may. */
  predicate BreaksAssertion(s: Scanner) {
    s.flowLevel == 0 && s.indent == s.mark.column && !s.allowed
  }

  /** The characters ahead start a token that may be a simple key. */
  predicate StartsKey(s: Scanner) {
    var c := Ahead(s, 0);
    || c == LEFT_BRACKET || c == LEFT_BRACE || c == STAR || c == AMPERSAND || c == EXCLAMATION || c == SQUOTE || c == DQUOTE
    || (StartsPlain(s) && !ThreeOf(s, DASH) && !ThreeOf(s, DOT) && !(c == DASH && IsBlankZ(Ahead(s, 1))))
  }

  lemma {:induction false} UnrollNeverAborts(s: Scanner, column: int)
    ensures UnrollIndent(s, column) != Aborted
    decreases |s.indents|
  {
    if !(s.flowLevel > 0 || s.indent <= column) && s.indents != [] {
      var last := |s.indents| - 1;
      UnrollNeverAborts(Enqueue(s, BlockEndKind, s.mark).(indents := s.indents[..last], indent := s.indents[last]), column);
    }
  }

  lemma OthersNeverAbort(s: Scanner)
    ensures FetchStreamEnd(s) != Aborted && FetchDirective(s) != Aborted
    ensures s.mark.index + 3 <= |s.text| ==>
      FetchDocumentIndicator(s, DocumentStartKind) != Aborted && FetchDocumentIndicator(s, DocumentEndKind) != Aborted
    ensures FetchBlockScalar(s, true) != Aborted && FetchBlockScalar(s, false) != Aborted
    ensures Inside(s) ==>
      && FetchFlowEnd(s, true) != Aborted && FetchFlowEnd(s, false) != Aborted && FetchIndicator(s, FlowEntryKind, true) != Aborted
      && FetchBlockEntry(s) != Aborted && FetchKey(s) != Aborted && FetchValue(s) != Aborted
  {
    hide UnrollIndent, Advance;
    UnrollNeverAborts(s, -1);
    UnrollNeverAborts(s.(mark := Mark(s.mark.index, s.mark.line + 1, 0)), -1);
  }

  /** A token that may be a key is fetched by one of the two fetchers that save it. */
  predicate IsKeyFetch(s: Scanner, outcome: Outcome)
    requires Inside(s)
  {
    || outcome == FetchFlowStart(s, true) || outcome == FetchFlowStart(s, false) || outcome == FetchPossibleKey(s, AnchorKind(true))
    || outcome == FetchPossibleKey(s, AnchorKind(false)) || outcome == FetchPossibleKey(s, TagKind)
    || outcome == FetchPossibleKey(s, QuotedScalarKind(true)) || outcome == FetchPossibleKey(s, QuotedScalarKind(false))
    || outcome == FetchPossibleKey(s, PlainScalarKind)
  }

  lemma KeysAreFetched(s: Scanner)
    requires StartsKey(s)
    ensures Inside(s) && IsKeyFetch(s, Dispatch(s))
  {
    hide FetchStreamEnd, FetchDirective, FetchDocumentIndicator, FetchFlowStart, FetchFlowEnd, FetchIndicator, FetchBlockEntry, FetchKey,
         FetchValue, FetchPossibleKey, FetchBlockScalar;
  }

  lemma OthersAreFetched(s: Scanner)
    requires !StartsKey(s)
    ensures Dispatch(s) != Aborted
  {
    hide FetchStreamEnd, FetchDirective, FetchDocumentIndicator, FetchFlowStart, FetchFlowEnd, FetchIndicator, FetchBlockEntry, FetchKey,
         FetchValue, FetchPossibleKey, FetchBlockScalar, ThreeOf;
    OthersNeverAbort(s);
    if ThreeOf(s, DASH) || ThreeOf(s, DOT) { ThreeAreThere(s); }
  }

  /** Exactly when a fetch aborts, where it dispatches. */
  lemma DispatchAborts(s: Scanner)
    requires s.keys != []
    ensures Dispatch(s) == Aborted <==> StartsKey(s) && BreaksAssertion(s)
  {
    hide Dispatch, StartsKey, BreaksAssertion, FetchPossibleKey, FetchFlowStart;
    if StartsKey(s) {
      KeysAreFetched(s);
      KeysAbort(s, AnchorKind(true));
      KeysAbort(s, AnchorKind(false));
      KeysAbort(s, TagKind);
      KeysAbort(s, QuotedScalarKind(true));
      KeysAbort(s, QuotedScalarKind(false));
      KeysAbort(s, PlainScalarKind);
    } else {
      OthersAreFetched(s);
    }
  }

  /** The two fetchers that save a key abort exactly where the assertion breaks. */
  lemma KeysAbort(s: Scanner, kind: Kind)
    requires Inside(s) && s.keys != []
    ensures FetchPossibleKey(s, kind) == Aborted <==> BreaksAssertion(s)
    ensures FetchFlowStart(s, true) == Aborted <==> BreaksAssertion(s)
    ensures FetchFlowStart(s, false) == Aborted <==> BreaksAssertion(s)
  {
    hide Advance;
  }

  /** A fetch aborts only if the last token left the scanner at or to the left of the indentation. */
  lemma RightOfIndentIsSafe(s: Scanner)
    requires Core(s) && RightOfIndent(s)
    ensures FetchNextToken(s) != Aborted
  {
    hide Core, AtToken, Dispatch;
    AtTokenIsCore(s);
    assert FetchNextToken(s) == if AtToken(s).Fetched? then Dispatch(AtToken(s).scanner) else AtToken(s) by { FetchIsDispatch(s); }
    if AtToken(s).Fetched? {
      AtTokenStaysRight(s);
      Outermost(AtToken(s).scanner);
      DispatchAborts(AtToken(s).scanner);
    }
  }

  lemma FetchIsDispatch(s: Scanner)
    requires Core(s)
    ensures FetchNextToken(s) == if AtToken(s).Fetched? then Dispatch(AtToken(s).scanner) else AtToken(s)
  {
    hide Dispatch, ScanToNextToken, UnrollIndent, StaleKeys;
  }

  /**
    Exactly when a fetch from a reachable state aborts: past white space, with stale keys dropped and
    deeper blocks closed, a token that may be a key stands at the indentation column, and none is allowed.
   */
  lemma FetchAborts(s: Scanner)
    requires Core(s)
    ensures FetchNextToken(s) == Aborted
      <==> AtToken(s).Fetched? && StartsKey(AtToken(s).scanner) && BreaksAssertion(AtToken(s).scanner)
  {
    hide Core, AtToken, Dispatch, StartsKey, BreaksAssertion, FetchNextToken;
    AtTokenIsCore(s);
    FetchIsDispatch(s);
    if AtToken(s).Fetched? {
      Outermost(AtToken(s).scanner);
      DispatchAborts(AtToken(s).scanner);
    }
  }

  /** A fetched token that spans lines, or closes a flow collection, ends to the right of the indentation. */
  predicate EndsRight(before: Scanner, after: Scanner) {
    after.mark.line != before.mark.line || after.flowLevel < before.flowLevel ==> RightOfIndent(after)
  }

  predicate StaysRight(before: Scanner, outcome: Outcome) {
    outcome.Fetched? && EndsRight(before, outcome.scanner) ==> RightOfIndent(outcome.scanner)
  }

  lemma ClosedBlocksStayRight(s: Scanner)
    requires Core(s)
    ensures StaysRight(s, FetchStreamEnd(s)) && StaysRight(s, FetchDirective(s))
    ensures s.mark.index + 3 <= |s.text| ==>
      StaysRight(s, FetchDocumentIndicator(s, DocumentStartKind)) && StaysRight(s, FetchDocumentIndicator(s, DocumentEndKind))
  {
    hide Core, ResetKeys, Advance;
    var s1 := if s.mark.column != 0 then s.(mark := Mark(s.mark.index, s.mark.line + 1, 0)) else s;
    MoveKeepsCore(s, s1);
    ResetKeepsCore(s);
    ResetKeepsCore(s1);
    if ResetKeys(s).Fetched? { OuterLevel(ResetKeys(s).scanner); }
    if ResetKeys(s1).Fetched? { OuterLevel(ResetKeys(s1).scanner); }
  }

  lemma FlowStaysRight(s: Scanner, sequence: bool)
    requires Inside(s) && Core(s) && (s.flowLevel == 0 ==> s.indent <= s.mark.column)
    ensures StaysRight(s, FetchFlowStart(s, sequence)) && StaysRight(s, FetchFlowEnd(s, sequence))
    ensures StaysRight(s, FetchIndicator(s, FlowEntryKind, true))
    ensures StaysRight(s, FetchBlockEntry(s)) && StaysRight(s, FetchKey(s))
  {
    hide Core;
  }

  lemma ValueStaysRight(s: Scanner)
    requires Inside(s) && Core(s) && AllFresh(s) && (s.flowLevel == 0 ==> s.indent <= s.mark.column)
    ensures StaysRight(s, FetchValue(s))
  {
    hide Core, InsertKey, RollIndent;
    Outermost(s);
    if TopKey(s).possible {
      InsertKeyKeepsCore(s);
      KeyIsLeft(s);
    }
  }

  lemma KeyIsLeft(s: Scanner)
    requires Core(s) && AllFresh(s) && s.keys != [] && TopKey(s).possible
    ensures TopKey(s).mark.column < s.mark.column
  {
    assert Placed(s, s.keys[|s.keys| - 1]);
  }

  lemma KeyStaysRight(s: Scanner, kind: Kind)
    requires Core(s) && Ahead(s, 0) != NUL && (s.flowLevel == 0 ==> s.indent <= s.mark.column)
    ensures StaysRight(s, FetchPossibleKey(s, kind))
  {
    hide Core, Advance;
    if FetchPossibleKey(s, kind).Fetched? {
      var s1 := SaveKey(s).scanner.(allowed := false);
      AdvanceMoves(s1.(reaches := s1.reaches[1..]), s1.reaches[0].units);
    }
  }

  lemma BlockScalarStaysRight(s: Scanner, literal: bool)
    ensures StaysRight(s, FetchBlockScalar(s, literal))
  {
    hide Advance;
  }

  /** All other tokens end there by themselves. */
  lemma DispatchStaysRight(s: Scanner)
    requires Core(s) && AllFresh(s) && (s.flowLevel == 0 ==> s.indent <= s.mark.column)
    ensures StaysRight(s, Dispatch(s))
  {
    hide Core, AllFresh, StaysRight, FetchStreamEnd, FetchDirective, FetchDocumentIndicator, FetchFlowStart, FetchFlowEnd, FetchIndicator,
         FetchBlockEntry, FetchKey, FetchValue, FetchPossibleKey, FetchBlockScalar, ThreeOf, StartsPlain;
    ClosedBlocksStayRight(s);
    if ThreeOf(s, DASH) || ThreeOf(s, DOT) { ThreeAreThere(s); }
    BlockScalarStaysRight(s, true);
    BlockScalarStaysRight(s, false);
    FailureStaysRight(s);
    if Ahead(s, 0) != NUL {
      FlowStaysRight(s, true);
      FlowStaysRight(s, false);
      ValueStaysRight(s);
      KeyStaysRight(s, AnchorKind(true));
      KeyStaysRight(s, AnchorKind(false));
      KeyStaysRight(s, TagKind);
      KeyStaysRight(s, QuotedScalarKind(true));
      KeyStaysRight(s, QuotedScalarKind(false));
      KeyStaysRight(s, PlainScalarKind);
    }
  }

  lemma FailureStaysRight(s: Scanner)
    ensures StaysRight(s, Failed)
  {
  }

  /** One step of a run: a fetch, or the delivery of a settled token; `EndsRight` is asked of the fetched token. */
  predicate RightStep(s: Scanner, s': Scanner) {
    || (!s.started && FetchNextToken(s) == Fetched(s'))
    || (s.started && !Ended(s) && AtToken(s).Fetched? && FetchNextToken(s) == Fetched(s') && EndsRight(AtToken(s).scanner, s'))
    || (Settled(s) && s' == Deliver(s))
    || (StaleKeys(s) == Fetched(s'))
  }

  lemma RightStepKeeps(s: Scanner, s': Scanner)
    requires Inv(s) && RightOfIndent(s) && RightStep(s, s')
    ensures Inv(s') && RightOfIndent(s')
  {
    hide Core, Unstarted, Started, EndOk, Dispatch, AtToken;
    if StaleKeys(s) == Fetched(s') {
      StaleKeepsInv(s);
    } else if Settled(s) && s' == Deliver(s) {
      DeliverKeepsInv(s);
    } else if !s.started {
      assert !Ended(s) by { UnstartedIsNotEnded(s); }
      FetchProgresses(s);
    } else {
      StartedIsCore(s);
      FetchProgresses(s);
      AtTokenIsCore(s);
      FetchIsDispatch(s);
      DispatchStaysRight(AtToken(s).scanner);
    }
  }

  lemma UnstartedIsNotEnded(s: Scanner)
    requires Inv(s) && !s.started
    ensures !Ended(s)
  {
  }

  /** On a run whose spanning tokens end to the right of the indentation, the assertion does not fail. */
  lemma {:induction false} RightRunsDoNotAbort(text: Text, reaches: seq<Reach>, run: seq<Scanner>)
    requires run != [] && run[0] == Start(text, reaches)
    requires forall i :: 0 <= i < |run| - 1 ==> RightStep(run[i], run[i + 1])
    ensures Inv(run[|run| - 1]) && RightOfIndent(run[|run| - 1])
    ensures !Ended(run[|run| - 1]) ==> FetchNextToken(run[|run| - 1]) != Aborted
    decreases |run|
  {
    hide Inv, RightStep, RightOfIndent, FetchNextToken, Ended, Core;
    var last := run[|run| - 1];
    if |run| == 1 {
      StartIsRight(text, reaches);
    } else {
      RightRunsDoNotAbort(text, reaches, run[..|run| - 1]);
      assert RightStep(run[|run| - 2], run[|run| - 1]);
      RightStepKeeps(run[|run| - 2], last);
    }
    if !Ended(last) {
      SafeFetch(last);
    }
  }

  lemma StartIsRight(text: Text, reaches: seq<Reach>)
    ensures Inv(Start(text, reaches)) && RightOfIndent(Start(text, reaches))
  {
  }

  lemma SafeFetch(s: Scanner)
    requires Inv(s) && RightOfIndent(s) && !Ended(s)
    ensures FetchNextToken(s) != Aborted
  {
    hide Core, Unstarted;
    if s.started {
      StartedIsCore(s);
      RightOfIndentIsSafe(s);
    }
  }
}
