/**
  The assertion on required simple keys can fail: a flow collection that is closed to the left
  of its block, and then a token on the block's own column, in the same line.
 */
module ScannerAbort {
  import opened Chars
  import opened Options
  import opened TokenScanning
  import opened ScannerInvariants
  import opened ScannerRuns

  // " - [", a line break, "]x"
  const TEXT: Text := [SPACE, DASH, SPACE, LEFT_BRACKET, LF, RIGHT_BRACKET, 0x78]

  function At0(): Scanner {
    Start(TEXT, [])
  }

  /** Between tokens: STREAM-START is there. */
  function Stream(): Scanner {
    Scanner(TEXT, Mark(0, 0, 0), [], true, -1, [], 0, [NO_KEY], true, [], [Token(StreamStartKind, Mark(0, 0, 0))])
  }

  function Entry(delivered: seq<Token>): Scanner {
    Scanner(TEXT, Mark(2, 0, 2), [], true, 1, [-1], 0, [NO_KEY], true, delivered,
            [Token(BlockSequenceStartKind, Mark(1, 0, 1)), Token(BlockEntryKind, Mark(1, 0, 1))])
  }

  function InFlow(delivered: seq<Token>): Scanner {
    Scanner(TEXT, Mark(4, 0, 4), [], true, 1, [-1], 1,
            [SimpleKey(true, false, |delivered|, Mark(3, 0, 3)), NO_KEY], true, delivered, [Token(FlowStartKind(true), Mark(3, 0, 3))])
  }

  function Closed(delivered: seq<Token>): Scanner {
    Scanner(TEXT, Mark(6, 1, 1), [], true, 1, [-1], 0,
            [SimpleKey(false, false, |delivered|, Mark(3, 0, 3))], false, delivered,
            [Token(FlowStartKind(true), Mark(3, 0, 3)), Token(FlowEndKind(true), Mark(5, 1, 0))])
  }

  lemma FetchesStream()
    ensures FetchNextToken(At0()) == Fetched(Stream())
  {
    assert [] + [NO_KEY] == [NO_KEY];
  }

  lemma FetchesEntry(s: Scanner)
    requires s == Stream().(delivered := s.delivered, queue := [])
    ensures FetchNextToken(s) == Fetched(Entry(s.delivered))
  {
    var s1 := s.(mark := Mark(1, 0, 1));
    assert SkipBlanks(s) == s1;
    assert ScanToNextToken(s) == s1;
    assert Fresh(s1.keys, s1.mark) == Some(s1.keys) by { OneFresh(NO_KEY, s1.mark); }
    assert AtToken(s) == Fetched(s1);
    assert [] + [-1] == [-1];
    var start, entry := Token(BlockSequenceStartKind, Mark(1, 0, 1)), Token(BlockEntryKind, Mark(1, 0, 1));
    assert [] + [start] + [entry] == [start, entry];
    assert [NO_KEY][0 := NO_KEY.(possible := false)] == [NO_KEY];
    assert Dispatch(s1) == FetchBlockEntry(s1);
  }

  lemma OneFresh(key: SimpleKey, mark: Mark)
    requires !key.possible
    ensures Fresh([key], mark) == Some([key])
  {
    assert [key][1..] == [];
    assert [key] + [] == [key];
  }

  lemma TwoFresh(key: SimpleKey, other: SimpleKey, mark: Mark)
    requires !key.required && !other.possible
    ensures Fresh([key, other], mark) == Some([Refreshed(key, mark), other])
  {
    assert [key, other][1..] == [other];
    OneFresh(other, mark);
    assert [Refreshed(key, mark)] + [other] == [Refreshed(key, mark), other];
  }

  lemma FetchesFlowStart(s: Scanner)
    requires s == Entry(s.delivered).(queue := [])
    ensures FetchNextToken(s) == Fetched(InFlow(s.delivered))
  {
    var s1 := s.(mark := Mark(3, 0, 3));
    assert SkipBlanks(s) == s1;
    assert ScanToNextToken(s) == s1;
    OneFresh(NO_KEY, s1.mark);
    assert AtToken(s) == Fetched(s1);
    var key := SimpleKey(true, false, |s.delivered|, Mark(3, 0, 3));
    assert [NO_KEY][0 := NO_KEY.(possible := false)][0 := key] + [NO_KEY] == [key, NO_KEY];
    assert [] + [Token(FlowStartKind(true), Mark(3, 0, 3))] == [Token(FlowStartKind(true), Mark(3, 0, 3))];
    assert Dispatch(s1) == FetchFlowStart(s1, true);
  }

  lemma FetchesFlowEnd(s: Scanner)
    requires s == InFlow(s.delivered)
    ensures FetchNextToken(s) == Fetched(Closed(s.delivered))
  {
    var s1 := s.(mark := Mark(5, 1, 0));
    assert SkipInLine(s) == s && SkipInLine(s1) == s1;
    assert ScanToNextToken(s1) == s1;
    assert ScanToNextToken(s) == s1;
    var key := s.keys[0];
    TwoFresh(key, NO_KEY, s1.mark);
    var s2 := s1.(keys := [key.(possible := false), NO_KEY]);
    assert AtToken(s) == Fetched(s2);
    assert [key.(possible := false), NO_KEY][1 := NO_KEY.(possible := false)][..1] == [key.(possible := false)];
    assert Dispatch(s2) == FetchFlowEnd(s2, true);
  }

  lemma Aborts(s: Scanner, before: seq<Token>)
    requires s == Closed(before).(delivered := s.delivered, queue := [])
    ensures FetchNextToken(s) == Aborted
  {
    assert SkipInLine(s) == s;
    OneFresh(s.keys[0], s.mark);
    assert AtToken(s) == Fetched(s);
    assert Dispatch(s) == FetchPossibleKey(s, PlainScalarKind);
  }

  /** A head that cannot be a key is handed over without a fetch. */
  lemma Delivers(s: Scanner)
    requires Inv(s) && !Finished(s) && s.queue != [] && Fresh(s.keys, s.mark) == Some(s.keys) && !HeadMayBeKey(s)
    ensures Settled(s) && Inv(Deliver(s)) && ScanAll(s).end == ScanAll(Deliver(s)).end
  {
    hide Inv;
    DeliverKeepsInv(s);
  }

  /** A fetch when the queue is empty or its head is still open. */
  lemma Fetches(s: Scanner, s': Scanner)
    requires Inv(s) && !Finished(s) && !Finished(s') && FetchNextToken(s) == Fetched(s')
    requires s.queue == [] || (Fresh(s.keys, s.mark) == Some(s.keys) && HeadMayBeKey(s))
    ensures Inv(s') && ScanAll(s).end == ScanAll(s').end
  {
    hide Inv, FetchNextToken, HeadMayBeKey, Budget, Size;
    MoreIsTheSame(s, s');
    FetchMoreSettles(s);
    FetchMoreSettles(s');
  }

  lemma MoreIsTheSame(s: Scanner, s': Scanner)
    requires Inv(s) && !Finished(s) && !Finished(s') && FetchNextToken(s) == Fetched(s')
    requires s.queue == [] || (Fresh(s.keys, s.mark) == Some(s.keys) && HeadMayBeKey(s))
    ensures Inv(s') && FetchMore(s) == FetchMore(s')
  {
    hide Inv, FetchNextToken, HeadMayBeKey, Budget;
    if s.queue == [] { NotEndedYet(s); } else if Ended(s) { EndSettlesTheHead(s); }
    FetchProgresses(s);
  }

  lemma ToTheEntry()
    ensures Inv(At0()) && Inv(Entry(Stream().queue)) && ScanAll(At0()).end == ScanAll(Entry(Stream().queue)).end
  {
    hide Inv, ScanAll, FetchNextToken;
    StartIsRight(TEXT, []);
    FetchesStream();
    Fetches(At0(), Stream());
    OneFresh(NO_KEY, Mark(0, 0, 0));
    Delivers(Stream());
    var s := Deliver(Stream());
    assert s.delivered == Stream().queue;
    FetchesEntry(s);
    Fetches(s, Entry(s.delivered));
  }

  lemma ToTheFlow(delivered: seq<Token>)
    requires |delivered| == 1 && delivered[0].kind != StreamEndKind && Inv(Entry(delivered))
    ensures var more := delivered + Entry(delivered).queue;
      Inv(InFlow(more)) && ScanAll(Entry(delivered)).end == ScanAll(InFlow(more)).end
  {
    hide Inv, ScanAll, FetchNextToken;
    var s1 := Entry(delivered);
    OneFresh(NO_KEY, s1.mark);
    Delivers(s1);
    var s2 := Deliver(s1);
    Delivers(s2);
    var s3 := Deliver(s2);
    assert s3.delivered == delivered + s1.queue;
    FetchesFlowStart(s3);
    Fetches(s3, InFlow(s3.delivered));
  }

  lemma ToTheAbort(delivered: seq<Token>)
    requires |delivered| == 3 && delivered[2].kind != StreamEndKind && Inv(InFlow(delivered))
    ensures ScanAll(InFlow(delivered)).end == AtAbort
  {
    hide Inv, ScanAll, FetchNextToken;
    var s1 := InFlow(delivered);
    TwoFresh(s1.keys[0], NO_KEY, s1.mark);
    assert [s1.keys[0], NO_KEY] == s1.keys;
    assert s1.keys[0].possible && s1.keys[0].number == |s1.delivered|;
    FetchesFlowEnd(s1);
    Fetches(s1, Closed(delivered));
    var s2 := Closed(delivered);
    OneFresh(s2.keys[0], s2.mark);
    assert [s2.keys[0]] == s2.keys;
    Delivers(s2);
    var s3 := Deliver(s2);
    Delivers(s3);
    var s4 := Deliver(s3);
    Aborts(s4, delivered);
    AbortEnds(s4);
  }

  lemma TheAssertionCanFail()
    ensures Inv(Start(TEXT, [])) && ScanAll(Start(TEXT, [])).end == AtAbort
  {
    hide Inv, ScanAll, Entry, InFlow;
    ToTheEntry();
    var delivered := Stream().queue;
    ToTheFlow(delivered);
    assert |Entry(delivered).queue| == 2 && Entry(delivered).queue[1].kind == BlockEntryKind by { EntryQueue(delivered); }
    ToTheAbort(delivered + Entry(delivered).queue);
  }

  lemma EntryQueue(delivered: seq<Token>)
    ensures |Entry(delivered).queue| == 2 && Entry(delivered).queue[1].kind == BlockEntryKind
  {
  }

  lemma AbortEnds(s: Scanner)
    requires Inv(s) && !Finished(s) && s.queue == [] && FetchNextToken(s) == Aborted
    ensures ScanAll(s).end == AtAbort
  {
    assert FetchMore(s) == Aborted;
  }
}
