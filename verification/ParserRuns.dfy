/**
  Every run of the parser is well formed: for every token sequence the stacks never underflow
  and mirror the open collections, and the events form a prefix of the event grammar, complete
  when the stream ends; and there are at most three events to a token, and one.
 */
module ParserRuns {
  import opened Options
  import opened Events
  import opened EventGrammar
  import opened Parsing

  /** The collections that a state, waiting on the stack or current, stands for, outermost first. */
  function FramesOf(s: State): seq<Frame> {
    match s
    case DocumentEndState => [DocumentFrame(false)]
    case BlockSequenceFirstEntryState => [SequenceFrame]
    case BlockSequenceEntryState => [SequenceFrame]
    case IndentlessSequenceEntryState => [SequenceFrame]
    case BlockMappingFirstKeyState => [MappingFrame(false)]
    case BlockMappingKeyState => [MappingFrame(false)]
    case BlockMappingValueState => [MappingFrame(true)]
    case FlowSequenceFirstEntryState => [SequenceFrame]
    case FlowSequenceEntryState => [SequenceFrame]
    case FlowSequenceEntryMappingKeyState => [SequenceFrame, MappingFrame(false)]
    case FlowSequenceEntryMappingValueState => [SequenceFrame, MappingFrame(true)]
    case FlowSequenceEntryMappingEndState => [SequenceFrame, MappingFrame(false)]
    case FlowMappingFirstKeyState => [MappingFrame(false)]
    case FlowMappingKeyState => [MappingFrame(false)]
    case FlowMappingValueState => [MappingFrame(true)]
    case FlowMappingEmptyValueState => [MappingFrame(true)]
    case _ => []
  }

  /** How many marks a state accounts for: none before its start token is passed, none if indentless. */
  function MarksOf(s: State): nat {
    match s
    case BlockSequenceEntryState => 1
    case BlockMappingKeyState => 1
    case BlockMappingValueState => 1
    case FlowSequenceEntryState => 1
    case FlowSequenceEntryMappingKeyState => 1
    case FlowSequenceEntryMappingValueState => 1
    case FlowSequenceEntryMappingEndState => 1
    case FlowMappingKeyState => 1
    case FlowMappingValueState => 1
    case FlowMappingEmptyValueState => 1
    case _ => 0
  }

  function StackFrames(states: seq<State>): seq<Frame> {
    if states == [] then []
    else StackFrames(states[..|states| - 1]) + FramesOf(states[|states| - 1])
  }

  function StackMarks(states: seq<State>): nat {
    if states == [] then 0
    else StackMarks(states[..|states| - 1]) + MarksOf(states[|states| - 1])
  }

  /** States that wait on the stack for a node to be finished, above the document's. */
  predicate IsContinuation(s: State) {
    || s == BlockSequenceEntryState || s == IndentlessSequenceEntryState
    || s == BlockMappingKeyState || s == BlockMappingValueState
    || s == FlowSequenceEntryState || s == FlowSequenceEntryMappingValueState || s == FlowSequenceEntryMappingEndState
    || s == FlowMappingKeyState || s == FlowMappingValueState || s == FlowMappingEmptyValueState
  }

  predicate IsCollectionState(s: State) {
    || IsContinuation(s)
    || s == BlockSequenceFirstEntryState || s == BlockMappingFirstKeyState
    || s == FlowSequenceFirstEntryState || s == FlowMappingFirstKeyState
    || s == FlowSequenceEntryMappingKeyState
  }

  predicate IsStack(states: seq<State>) {
    && states != [] && states[0] == DocumentEndState
    && forall k :: 1 <= k < |states| ==> IsContinuation(states[k])
  }

  /** A collection's first state has its start token in front of it. */
  predicate StartTokenAhead(p: Parser) {
    && (p.state == BlockSequenceFirstEntryState ==> p.tokens != [] && p.tokens[0] == BlockSequenceStartToken)
    && (p.state == BlockMappingFirstKeyState ==> p.tokens != [] && p.tokens[0] == BlockMappingStartToken)
    && (p.state == FlowSequenceFirstEntryState ==> p.tokens != [] && p.tokens[0] == FlowSequenceStartToken)
    && (p.state == FlowMappingFirstKeyState ==> p.tokens != [] && p.tokens[0] == FlowMappingStartToken)
  }

  /** What every reachable state keeps. */
  predicate Inv(p: Parser) {
    && StartTokenAhead(p)
    && match p.state
       case StreamStartState => p.states == [] && p.marks == []
       case ImplicitDocumentStartState => p.states == [] && p.marks == []
       case DocumentStartState => p.states == [] && p.marks == []
       case EndState => p.states == [] && p.marks == []
       case DocumentEndState => p.states == [] && p.marks == []
       case DocumentContentState => p.states == [DocumentEndState] && p.marks == []
       case BlockNodeState => p.states == [DocumentEndState] && p.marks == []
       case _ =>
         && IsStack(p.states) && IsCollectionState(p.state)
         && |p.marks| == StackMarks(p.states) + MarksOf(p.state)
  }

  /** Where a reachable state is in the event grammar. */
  function Position(p: Parser): Grammar {
    match p.state
    case StreamStartState => NotStarted
    case EndState => Ended
    case DocumentContentState => Open([StreamFrame, DocumentFrame(true)])
    case BlockNodeState => Open([StreamFrame, DocumentFrame(true)])
    case _ => Open([StreamFrame] + StackFrames(p.states) + FramesOf(p.state))
  }

  lemma PushedState(states: seq<State>, s: State)
    ensures StackFrames(states + [s]) == StackFrames(states) + FramesOf(s)
    ensures StackMarks(states + [s]) == StackMarks(states) + MarksOf(s)
  {
    assert (states + [s])[..|states|] == states;
  }

  /** The frame below a node before the node, given the state that waits for its end. */
  function BeforeNode(s: State): seq<Frame> {
    match s
    case DocumentEndState => [DocumentFrame(true)]
    case BlockSequenceEntryState => [SequenceFrame]
    case IndentlessSequenceEntryState => [SequenceFrame]
    case BlockMappingValueState => [MappingFrame(false)]
    case BlockMappingKeyState => [MappingFrame(true)]
    case FlowSequenceEntryState => [SequenceFrame]
    case FlowSequenceEntryMappingValueState => [SequenceFrame, MappingFrame(false)]
    case FlowSequenceEntryMappingEndState => [SequenceFrame, MappingFrame(true)]
    case FlowMappingValueState => [MappingFrame(false)]
    case FlowMappingEmptyValueState => [MappingFrame(false)]
    case FlowMappingKeyState => [MappingFrame(true)]
    case _ => []
  }

  /** The grammar where a node is expected, its continuation on the stack. */
  function NodePosition(states: seq<State>): Grammar
    requires IsStack(states)
  {
    Open([StreamFrame] + StackFrames(states[..|states| - 1]) + BeforeNode(states[|states| - 1]))
  }

  /** A parser about to parse a node. */
  predicate NodeInv(p: Parser) {
    IsStack(p.states) && |p.marks| == StackMarks(p.states)
  }

  /** A step that emits keeps the invariant and moves on in the grammar. */
  predicate GoodFrom(g: Grammar, outcome: Outcome) {
    && !outcome.Underflow?
    && (outcome.Emitted? ==> Inv(outcome.parser) && Accept(g, outcome.event) == Some(Position(outcome.parser)))
  }

  /** A waiting state is its frames from before the node, with the node added to the top one. */
  lemma WaitsForNode(s: State)
    requires s == DocumentEndState || IsContinuation(s)
    ensures BeforeNode(s) != [] && FramesOf(s) != [] && Below(BeforeNode(s)) == Below(FramesOf(s))
    ensures AfterNode(Top(BeforeNode(s))) == Some(Top(FramesOf(s)))
  {
  }

  lemma TopOfAppended(prefix: seq<Frame>, frames: seq<Frame>)
    requires frames != []
    ensures Top(prefix + frames) == Top(frames) && Below(prefix + frames) == prefix + Below(frames)
  {
  }

  /** Popping a state makes it the current one, and the position is the stack's. */
  lemma PoppedState(p: Parser)
    requires NodeInv(p)
    ensures var p' := p.(state := p.states[|p.states| - 1], states := p.states[..|p.states| - 1]);
      Inv(p') && Position(p') == Open([StreamFrame] + StackFrames(p.states))
  {
    var below, top := p.states[..|p.states| - 1], p.states[|p.states| - 1];
    assert [StreamFrame] + StackFrames(below) + FramesOf(top) == [StreamFrame] + (StackFrames(below) + FramesOf(top));
    if |p.states| == 1 {
      assert below == [];
    } else {
      assert IsStack(below);
    }
  }

  /** The grammar accepts a node where one is expected. */
  lemma AcceptsNode(states: seq<State>, event: Event, opens: seq<Frame>)
    requires IsStack(states)
    requires if event.SequenceStart? then opens == [SequenceFrame]
             else if event.MappingStart? then opens == [MappingFrame(false)]
             else (event.ScalarEvent? || (event.AliasEvent? && event.anchor.Some?)) && opens == []
    ensures Accept(NodePosition(states), event) == Some(Open([StreamFrame] + StackFrames(states) + opens))
  {
    hide StackFrames, BeforeNode, FramesOf, IsContinuation;
    var below, top := states[..|states| - 1], states[|states| - 1];
    var prefix := [StreamFrame] + StackFrames(below);
    WaitsForNode(top);
    TopOfAppended(prefix, BeforeNode(top));
    StackUnfolds(states);
    var after := FramesOf(top);
    assert Below(after) + [Top(after)] == after;
    assert prefix + Below(after) + ([Top(after)] + opens) == [StreamFrame] + StackFrames(states) + opens;
    assert opens == [] ==> [Top(after)] + opens == [Top(after)];
    assert opens != [] ==> [Top(after)] + opens == [Top(after), opens[0]];
  }

  lemma StackUnfolds(states: seq<State>)
    requires states != []
    ensures StackFrames(states) == StackFrames(states[..|states| - 1]) + FramesOf(states[|states| - 1])
  {
  }

  /** After a scalar or an alias the waiting state becomes the current one. */
  lemma PoppedNode(p: Parser, event: Event)
    requires NodeInv(p) && (event.ScalarEvent? || (event.AliasEvent? && event.anchor.Some?))
    ensures GoodFrom(NodePosition(p.states), EmitPop(event, p))
  {
    hide StackFrames, StackMarks, FramesOf, Inv, Position, NodePosition, Accept;
    PoppedState(p);
    AcceptsNode(p.states, event, []);
    assert [StreamFrame] + StackFrames(p.states) + [] == [StreamFrame] + StackFrames(p.states);
  }

  /** After a collection's start event its first state is current, on the same stack. */
  lemma OpenedNode(p: Parser, event: Event, next: State)
    requires NodeInv(p) && p.tokens != []
    requires event.SequenceStart? || event.MappingStart?
    requires FramesOf(next) == if event.SequenceStart? then [SequenceFrame] else [MappingFrame(false)]
    requires MarksOf(next) == 0 && IsCollectionState(next) && StartTokenAhead(p.(state := next))
    ensures GoodFrom(NodePosition(p.states), Emit(event, p, next))
  {
    hide StackFrames, StackMarks, NodePosition, Accept;
    AcceptsNode(p.states, event, FramesOf(next));
  }

  lemma NodeSteps(p: Parser, block: bool, indentless: bool)
    requires IsStack(p.states) && NodeInv(p)
    ensures GoodFrom(NodePosition(p.states), ParseNode(p, block, indentless))
  {
    hide NodePosition, GoodFrom, NodeInv, Emit, EmitPop;
    SameStack(p, p);
    if p.tokens == [] {
      FailsWell(NodePosition(p.states));
    } else if p.tokens[0].AliasToken? {
      SameStack(p, Skip(p));
      PoppedNode(Skip(p), AliasEvent(Some(p.tokens[0].name)));
    } else {
      var properties := ReadProperties(p);
      SameStack(p, properties.parser);
      FailsWell(NodePosition(p.states));
      if properties.parser.tokens != [] {
        if properties.tag == None {
          ContentSteps(properties.parser, properties.anchor, None, block, indentless);
        } else {
          var tag := ResolveTag(p.directives, properties.tag.value);
          if tag.Some? {
            ContentSteps(properties.parser, properties.anchor, tag, block, indentless);
          }
        }
      }
    }
  }

  lemma FailsWell(g: Grammar)
    ensures GoodFrom(g, Failed)
  {
  }

  lemma SameStack(p: Parser, p': Parser)
    requires NodeInv(p) && p'.states == p.states && p'.marks == p.marks
    ensures NodeInv(p') && IsStack(p.states) && NodePosition(p'.states) == NodePosition(p.states)
  {
  }

  lemma ContentSteps(p: Parser, anchor: Option<string>, tag: Option<string>, block: bool, indentless: bool)
    requires IsStack(p.states) && NodeInv(p) && p.tokens != []
    ensures GoodFrom(NodePosition(p.states), ParseContent(p, anchor, tag, block, indentless))
  {
    hide NodePosition, GoodFrom, NodeInv, Emit, EmitPop;
    var implicit := tag == None || tag.value == "";
    var token := p.tokens[0];
    SameStack(p, p);
    FailsWell(NodePosition(p.states));
    if indentless && token == BlockEntryToken {
      OpenedNode(p, SequenceStart(anchor, tag, implicit, BLOCK_STYLE), IndentlessSequenceEntryState);
    } else if token.ScalarToken? {
      var plainImplicit := (token.style == PLAIN_STYLE && tag == None) || tag == Some("!");
      SameStack(p, Skip(p));
      PoppedNode(Skip(p), ScalarEvent(anchor, tag, token.value, plainImplicit, !plainImplicit && tag == None, token.style));
    } else if token == FlowSequenceStartToken {
      OpenedNode(p, SequenceStart(anchor, tag, implicit, FLOW_STYLE), FlowSequenceFirstEntryState);
    } else if token == FlowMappingStartToken {
      OpenedNode(p, MappingStart(anchor, tag, implicit, FLOW_STYLE), FlowMappingFirstKeyState);
    } else if block && token == BlockSequenceStartToken {
      OpenedNode(p, SequenceStart(anchor, tag, implicit, BLOCK_STYLE), BlockSequenceFirstEntryState);
    } else if block && token == BlockMappingStartToken {
      OpenedNode(p, MappingStart(anchor, tag, implicit, BLOCK_STYLE), BlockMappingFirstKeyState);
    } else if anchor.Some? || tag.Some? {
      PoppedNode(p, ScalarEvent(anchor, tag, "", implicit, false, PLAIN_STYLE));
    }
  }

  /** A collection in progress: its own state is current and the stack is below it. */
  predicate InCollection(p: Parser, s: State) {
    IsStack(p.states) && IsCollectionState(s) && |p.marks| == StackMarks(p.states) + MarksOf(s)
  }

  function CollectionPosition(p: Parser, s: State): Grammar {
    Open([StreamFrame] + StackFrames(p.states) + FramesOf(s))
  }

  /** A child node: the continuation is pushed, then the node is parsed. */
  lemma ChildSteps(p: Parser, s: State, next: State, block: bool, indentless: bool)
    requires InCollection(p, s) && IsContinuation(next)
    requires BeforeNode(next) == FramesOf(s) && MarksOf(next) == MarksOf(s)
    ensures GoodFrom(CollectionPosition(p, s), ParseNode(Push(p, next), block, indentless))
  {
    PushedState(p.states, next);
    var states := p.states + [next];
    assert states[..|states| - 1] == p.states && IsStack(states);
    NodeSteps(Push(p, next), block, indentless);
  }

  /** A missing child node: an empty scalar, and the continuation is current at once. */
  lemma EmptyChildSteps(p: Parser, s: State, next: State)
    requires InCollection(p, s) && IsContinuation(next)
    requires BeforeNode(next) == FramesOf(s) && MarksOf(next) == MarksOf(s)
    ensures GoodFrom(CollectionPosition(p, s), Emit(EMPTY_SCALAR, p, next))
  {
    PushedState(p.states, next);
    var states := p.states + [next];
    assert states[..|states| - 1] == p.states && IsStack(states);
    PoppedNode(Push(p, next), EMPTY_SCALAR);
  }

  /** The grammar accepts the end of the current collection. */
  lemma AcceptsEnd(p: Parser, s: State, event: Event)
    requires (event == SequenceEnd && FramesOf(s) == [SequenceFrame]) || (event == MappingEnd && FramesOf(s) == [MappingFrame(false)])
    ensures Accept(CollectionPosition(p, s), event) == Some(Open([StreamFrame] + StackFrames(p.states)))
  {
    TopOfAppended([StreamFrame] + StackFrames(p.states), FramesOf(s));
    assert Below(FramesOf(s)) == [];
  }

  /** The end of a marked collection. */
  lemma EndSteps(p: Parser, s: State, event: Event)
    requires InCollection(p, s) && MarksOf(s) == 1
    requires (event == SequenceEnd && FramesOf(s) == [SequenceFrame]) || (event == MappingEnd && FramesOf(s) == [MappingFrame(false)])
    ensures GoodFrom(CollectionPosition(p, s), EmitPopMark(event, p))
  {
    hide StackFrames, StackMarks, Inv, Position, CollectionPosition, Accept;
    AcceptsEnd(p, s, event);
    PoppedState(p.(marks := p.marks[..|p.marks| - 1]));
  }

  /** The end of an indentless sequence. */
  lemma IndentlessEndSteps(p: Parser)
    requires InCollection(p, IndentlessSequenceEntryState)
    ensures GoodFrom(CollectionPosition(p, IndentlessSequenceEntryState), EmitPop(SequenceEnd, p))
  {
    hide StackFrames, StackMarks, Inv, Position, CollectionPosition, Accept;
    AcceptsEnd(p, IndentlessSequenceEntryState, SequenceEnd);
    PoppedState(p);
  }

  // ----- The steps of each collection

  lemma EnteredCollection(p: Parser, first: bool, s: State, entry: State)
    requires Inv(p) && p.state == s && p.tokens != [] && IsCollectionState(s) && IsContinuation(entry)
    requires FramesOf(s) == FramesOf(entry) && MarksOf(entry) == 1 && MarksOf(s) == if first then 0 else 1
    ensures InCollection(Enter(p, first), entry) && CollectionPosition(Enter(p, first), entry) == Position(p)
  {
  }

  /** The collection is the same with other tokens in front. */
  lemma SameCollection(p: Parser, p': Parser, s: State)
    requires InCollection(p, s) && p'.states == p.states && p'.marks == p.marks
    ensures InCollection(p', s) && CollectionPosition(p', s) == CollectionPosition(p, s)
  {
  }

  lemma PastToken(p: Parser, s: State)
    requires InCollection(p, s) && p.tokens != []
    ensures InCollection(Skip(p), s) && CollectionPosition(Skip(p), s) == CollectionPosition(p, s)
  {
    SameCollection(p, Skip(p), s);
  }

  lemma FailsPopping(g: Grammar, p: Parser)
    requires p.marks != []
    ensures GoodFrom(g, FailPopMark(p)) && GoodFrom(g, Failed)
  {
  }

  lemma FailsIn(p: Parser, s: State)
    requires InCollection(p, s) && MarksOf(s) == 1
    ensures GoodFrom(CollectionPosition(p, s), FailPopMark(p))
  {
    FailsPopping(CollectionPosition(p, s), p);
  }

  lemma BlockSequenceSteps(p: Parser, first: bool)
    requires Inv(p) && p.state == if first then BlockSequenceFirstEntryState else BlockSequenceEntryState
    ensures GoodFrom(Position(p), ParseBlockSequenceEntry(p, first))
  {
    hide Inv, Position, CollectionPosition, InCollection, GoodFrom, ParseNode, EmitPopMark, FailPopMark, Emit, Enter, Skip, Push, StackMarks;
    FailsWell(Position(p));
    if p.tokens != [] {
      EnteredCollection(p, first, p.state, BlockSequenceEntryState);
      var q := Enter(p, first);
      FailsIn(q, BlockSequenceEntryState);
      if q.tokens != [] {
        PastToken(q, BlockSequenceEntryState);
        ChildSteps(Skip(q), BlockSequenceEntryState, BlockSequenceEntryState, true, false);
        EmptyChildSteps(Skip(q), BlockSequenceEntryState, BlockSequenceEntryState);
        EndSteps(Skip(q), BlockSequenceEntryState, SequenceEnd);
      }
    }
  }

  lemma IndentlessSequenceSteps(p: Parser)
    requires Inv(p) && p.state == IndentlessSequenceEntryState
    ensures GoodFrom(Position(p), ParseIndentlessSequenceEntry(p))
  {
    hide Inv, Position, CollectionPosition, InCollection, GoodFrom, ParseNode, EmitPop, Emit, Skip, Push, StackMarks;
    FailsWell(Position(p));
    InIndentless(p);
    IndentlessEndSteps(p);
    if p.tokens != [] {
      PastToken(p, IndentlessSequenceEntryState);
      ChildSteps(Skip(p), IndentlessSequenceEntryState, IndentlessSequenceEntryState, true, false);
      EmptyChildSteps(Skip(p), IndentlessSequenceEntryState, IndentlessSequenceEntryState);
    }
  }

  lemma InIndentless(p: Parser)
    requires Inv(p) && p.state == IndentlessSequenceEntryState
    ensures InCollection(p, IndentlessSequenceEntryState) && CollectionPosition(p, IndentlessSequenceEntryState) == Position(p)
  {
  }

  lemma BlockMappingKeySteps(p: Parser, first: bool)
    requires Inv(p) && p.state == if first then BlockMappingFirstKeyState else BlockMappingKeyState
    ensures GoodFrom(Position(p), ParseBlockMappingKey(p, first))
  {
    hide Inv, Position, CollectionPosition, InCollection, GoodFrom, ParseNode, EmitPopMark, FailPopMark, Emit, Enter, Skip, Push, StackMarks;
    FailsWell(Position(p));
    if p.tokens != [] {
      EnteredCollection(p, first, p.state, BlockMappingKeyState);
      var q := Enter(p, first);
      FailsIn(q, BlockMappingKeyState);
      if q.tokens != [] {
        PastToken(q, BlockMappingKeyState);
        ChildSteps(Skip(q), BlockMappingKeyState, BlockMappingValueState, true, true);
        EmptyChildSteps(Skip(q), BlockMappingKeyState, BlockMappingValueState);
        EndSteps(Skip(q), BlockMappingKeyState, MappingEnd);
      }
    }
  }

  /** The second half of a pair: a value behind its token, or a missing value. */
  lemma ValueSteps(p: Parser, s: State, next: State, block: bool)
    requires Inv(p) && p.state == s && p.tokens != [] && IsCollectionState(s) && IsContinuation(next)
    requires BeforeNode(next) == FramesOf(s) && MarksOf(next) == MarksOf(s)
    ensures GoodFrom(Position(p), Emit(EMPTY_SCALAR, p, next))
    ensures GoodFrom(Position(p), Emit(EMPTY_SCALAR, Skip(p), next))
    ensures GoodFrom(Position(p), ParseNode(Push(Skip(p), next), block, block))
    ensures GoodFrom(Position(p), ParseNode(Push(p, next), block, block))
    ensures GoodFrom(Position(p), Failed)
  {
    hide GoodFrom, ParseNode;
    assert InCollection(p, s) && CollectionPosition(p, s) == Position(p);
    SameCollection(p, Skip(p), s);
    FailsWell(Position(p));
    EmptyChildSteps(p, s, next);
    EmptyChildSteps(Skip(p), s, next);
    ChildSteps(Skip(p), s, next, block, block);
    ChildSteps(p, s, next, block, block);
  }

  lemma FlowSequenceSteps(p: Parser, first: bool)
    requires Inv(p) && p.state == if first then FlowSequenceFirstEntryState else FlowSequenceEntryState
    ensures GoodFrom(Position(p), ParseFlowSequenceEntry(p, first))
  {
    hide Inv, Position, CollectionPosition, InCollection, GoodFrom, ParseNode, EmitPopMark, FailPopMark, Emit, Enter, Skip, Push, StackMarks;
    FailsWell(Position(p));
    if p.tokens != [] {
      EnteredCollection(p, first, p.state, FlowSequenceEntryState);
      var q := Enter(p, first);
      FailsIn(q, FlowSequenceEntryState);
      if q.tokens != [] {
        PastToken(q, FlowSequenceEntryState);
        EndSteps(Skip(q), FlowSequenceEntryState, SequenceEnd);
        var q' := if first then q else Skip(q);
        if q'.tokens != [] {
          PastToken(q', FlowSequenceEntryState);
          EndSteps(Skip(q'), FlowSequenceEntryState, SequenceEnd);
          ChildSteps(q', FlowSequenceEntryState, FlowSequenceEntryState, false, false);
          PairOpens(Skip(q'));
        }
      }
    }
  }

  /** A single pair opens inside a flow sequence without a state of its own on the stack. */
  lemma PairOpens(p: Parser)
    requires InCollection(p, FlowSequenceEntryState)
    ensures GoodFrom(CollectionPosition(p, FlowSequenceEntryState),
                     Emit(MappingStart(None, None, true, FLOW_STYLE), p, FlowSequenceEntryMappingKeyState))
  {
    var prefix := [StreamFrame] + StackFrames(p.states);
    TopOfAppended(prefix, [SequenceFrame]);
    assert Below([SequenceFrame]) == [];
    assert prefix + [] + [SequenceFrame, MappingFrame(false)] == prefix + [SequenceFrame, MappingFrame(false)];
  }

  /** And closes the same way. */
  lemma PairCloses(p: Parser)
    requires Inv(p) && p.state == FlowSequenceEntryMappingEndState
    ensures GoodFrom(Position(p), ParseFlowSequenceEntryMappingEnd(p))
  {
    var prefix := [StreamFrame] + StackFrames(p.states);
    TopOfAppended(prefix, [SequenceFrame, MappingFrame(false)]);
    assert Below([SequenceFrame, MappingFrame(false)]) == [SequenceFrame];
  }

  lemma FlowMappingKeySteps(p: Parser, first: bool)
    requires Inv(p) && p.state == if first then FlowMappingFirstKeyState else FlowMappingKeyState
    ensures GoodFrom(Position(p), ParseFlowMappingKey(p, first))
  {
    hide Inv, Position, CollectionPosition, InCollection, GoodFrom, ParseNode, EmitPopMark, FailPopMark, Emit, Enter, Skip, Push, StackMarks;
    FailsWell(Position(p));
    if p.tokens != [] {
      EnteredCollection(p, first, p.state, FlowMappingKeyState);
      var q := Enter(p, first);
      FailsIn(q, FlowMappingKeyState);
      if q.tokens != [] {
        PastToken(q, FlowMappingKeyState);
        EndSteps(Skip(q), FlowMappingKeyState, MappingEnd);
        var q' := if first then q else Skip(q);
        if q'.tokens != [] {
          PastToken(q', FlowMappingKeyState);
          EndSteps(Skip(q'), FlowMappingKeyState, MappingEnd);
          ChildSteps(q', FlowMappingKeyState, FlowMappingEmptyValueState, false, false);
          ChildSteps(Skip(q'), FlowMappingKeyState, FlowMappingValueState, false, false);
          EmptyChildSteps(Skip(q'), FlowMappingKeyState, FlowMappingValueState);
        }
      }
    }
  }

  // ----- The steps between collections

  /** A document opens on empty stacks, its end state alone on the stack. */
  lemma DocumentOpens(p: Parser, event: Event, next: State)
    requires p.states == [] && p.marks == [] && event.DocumentStart?
    requires next == BlockNodeState || next == DocumentContentState
    ensures GoodFrom(Open([StreamFrame]), Emit(event, Push(p, DocumentEndState), next))
  {
    hide StackFrames, StackMarks;
    assert [StreamFrame] + [DocumentFrame(true)] == [StreamFrame, DocumentFrame(true)];
  }

  lemma DocumentStartSteps(p: Parser, implicit: bool)
    requires Inv(p) && p.state == if implicit then ImplicitDocumentStartState else DocumentStartState
    ensures GoodFrom(Position(p), ParseDocumentStart(p, implicit))
  {
    hide ReadDirectives, SkipDocumentEnds, StackFrames, StackMarks, GoodFrom, Inv, Emit;
    assert p.states == [] && p.marks == [] && Position(p) == Open([StreamFrame]) by { BetweenDocuments(p); }
    FailsWell(Position(p));
    var q := if implicit then p else SkipDocumentEnds(p);
    if q.tokens != [] {
      StreamEnds(Skip(q));
      var directives := ReadDirectives(q, None, []);
      if directives.Directives? {
        var q' := directives.parser;
        DocumentOpens(q', DocumentStart(None, [], true), BlockNodeState);
        DocumentOpens(Skip(q'), DocumentStart(directives.version, directives.listed, false), DocumentContentState);
      }
    }
  }

  lemma BetweenDocuments(p: Parser)
    requires Inv(p) && (p.state == ImplicitDocumentStartState || p.state == DocumentStartState)
    ensures p.states == [] && p.marks == [] && Position(p) == Open([StreamFrame])
  {
    assert [StreamFrame] + [] + [] == [StreamFrame];
  }

  lemma StreamEnds(p: Parser)
    requires p.states == [] && p.marks == []
    ensures GoodFrom(Open([StreamFrame]), Emit(StreamEnd, p, EndState))
  {
  }

  lemma NoFrames()
    ensures StackFrames([]) == []
  {
  }

  lemma DocumentEndSteps(p: Parser)
    requires Inv(p) && p.state == DocumentEndState
    ensures GoodFrom(Position(p), ParseDocumentEnd(p))
  {
    hide StackFrames, StackMarks;
    NoFrames();
    assert Position(p) == Open([StreamFrame, DocumentFrame(false)]);
    assert Below([StreamFrame, DocumentFrame(false)]) == [StreamFrame];
  }

  lemma ContentStateSteps(p: Parser)
    requires Inv(p) && (p.state == DocumentContentState || p.state == BlockNodeState)
    ensures GoodFrom(Position(p), Step(p))
  {
    hide GoodFrom, ParseNode, EmitPop;
    assert p.states[..0] == [];
    assert [StreamFrame] + [] + [DocumentFrame(true)] == [StreamFrame, DocumentFrame(true)];
    assert StackMarks(p.states) == 0;
    assert NodeInv(p) && NodePosition(p.states) == Position(p);
    NodeSteps(p, true, false);
    PoppedNode(p, EMPTY_SCALAR);
    FailsWell(Position(p));
  }

  /** Every step of a reachable parser keeps the invariant, never underflows, and follows the grammar. */
  lemma StepKeepsInv(p: Parser)
    requires Inv(p) && p.state != EndState
    ensures GoodFrom(Position(p), Step(p))
  {
    hide Inv, Position, GoodFrom, ParseNode, ParseBlockSequenceEntry, ParseIndentlessSequenceEntry, ParseBlockMappingKey,
         ParseFlowSequenceEntry, ParseFlowSequenceEntryMappingEnd, ParseFlowMappingKey, ParseDocumentStart,
         ParseDocumentContent, ParseDocumentEnd, ParseStreamStart, Emit;
    FailsWell(Position(p));
    match p.state
    case StreamStartState => StreamSteps(p);
    case ImplicitDocumentStartState => DocumentStartSteps(p, true);
    case DocumentStartState => DocumentStartSteps(p, false);
    case DocumentEndState => DocumentEndSteps(p);
    case DocumentContentState => ContentStateSteps(p);
    case BlockNodeState => ContentStateSteps(p);
    case BlockSequenceFirstEntryState => BlockSequenceSteps(p, true);
    case BlockSequenceEntryState => BlockSequenceSteps(p, false);
    case IndentlessSequenceEntryState => IndentlessSequenceSteps(p);
    case BlockMappingFirstKeyState => BlockMappingKeySteps(p, true);
    case BlockMappingKeyState => BlockMappingKeySteps(p, false);
    case BlockMappingValueState => if p.tokens != [] { ValueSteps(p, p.state, BlockMappingKeyState, true); }
    case FlowSequenceFirstEntryState => FlowSequenceSteps(p, true);
    case FlowSequenceEntryState => FlowSequenceSteps(p, false);
    case FlowSequenceEntryMappingKeyState =>
      if p.tokens != [] { ValueSteps(p, p.state, FlowSequenceEntryMappingValueState, false); }
    case FlowSequenceEntryMappingValueState =>
      if p.tokens != [] { ValueSteps(p, p.state, FlowSequenceEntryMappingEndState, false); }
    case FlowSequenceEntryMappingEndState => PairCloses(p);
    case FlowMappingFirstKeyState => FlowMappingKeySteps(p, true);
    case FlowMappingKeyState => FlowMappingKeySteps(p, false);
    case FlowMappingValueState => if p.tokens != [] { ValueSteps(p, p.state, FlowMappingKeyState, false); }
    case FlowMappingEmptyValueState => if p.tokens != [] { ValueSteps(p, p.state, FlowMappingKeyState, false); }
    case _ => NoOtherState(p);
  }

  lemma NoOtherState(p: Parser)
    requires Inv(p)
    ensures p.state != BlockNodeOrIndentlessSequenceState && p.state != FlowNodeState
  {
  }

  lemma StreamSteps(p: Parser)
    requires Inv(p) && p.state == StreamStartState
    ensures GoodFrom(Position(p), Step(p))
  {
    assert [StreamFrame] + [] + [] == [StreamFrame];
  }

  // ----- How many events there can be

  /** How many events a state may still emit without another token. */
  function Weight(s: State): nat {
    match s
    case StreamStartState => 1
    case ImplicitDocumentStartState => 3
    case BlockNodeState => 1
    case DocumentContentState => 1
    case DocumentEndState => 1
    case IndentlessSequenceEntryState => 1
    case BlockMappingValueState => 1
    case FlowSequenceEntryMappingKeyState => 3
    case FlowSequenceEntryMappingValueState => 2
    case FlowSequenceEntryMappingEndState => 1
    case FlowMappingValueState => 1
    case FlowMappingEmptyValueState => 1
    case _ => 0
  }

  function StackWeight(states: seq<State>): nat {
    if states == [] then 0
    else StackWeight(states[..|states| - 1]) + Weight(states[|states| - 1])
  }

  /** A bound on the events still to come. */
  function Potential(p: Parser): nat {
    3 * |p.tokens| + StackWeight(p.states) + Weight(p.state)
  }

  lemma PushedWeight(states: seq<State>, s: State)
    ensures StackWeight(states + [s]) == StackWeight(states) + Weight(s)
  {
    assert (states + [s])[..|states|] == states;
  }

  predicate Spends(bound: int, outcome: Outcome) {
    outcome.Emitted? ==> Potential(outcome.parser) < bound
  }

  lemma PoppedWeight(event: Event, p: Parser)
    ensures Spends(3 * |p.tokens| + StackWeight(p.states) + 1, EmitPop(event, p))
  {
  }

  lemma ContentSpends(p: Parser, anchor: Option<string>, tag: Option<string>, block: bool, indentless: bool)
    requires p.tokens != []
    ensures anchor.Some? || tag.Some? ==>
      Spends(3 * |p.tokens| + StackWeight(p.states) + 2, ParseContent(p, anchor, tag, block, indentless))
    ensures Spends(3 * |p.tokens| + StackWeight(p.states) + 1 + (if indentless then 1 else 0),
                   ParseContent(p, anchor, tag, block, indentless))
  {
    hide StackWeight;
    forall event: Event ensures Spends(3 * |p.tokens| + StackWeight(p.states) + 1, EmitPop(event, p)) {
      PoppedWeight(event, p);
    }
    forall event: Event ensures Spends(3 * |p.tokens| + StackWeight(p.states) - 2, EmitPop(event, Skip(p))) {
      PoppedWeight(event, Skip(p));
    }
  }

  lemma NodeSpends(p: Parser, block: bool, indentless: bool)
    ensures Spends(3 * |p.tokens| + StackWeight(p.states) + 1 + (if indentless then 1 else 0), ParseNode(p, block, indentless))
  {
    hide ParseContent, ResolveTag, Spends;
    SpendsNothing(3 * |p.tokens| + StackWeight(p.states) + 1 + (if indentless then 1 else 0));
    if p.tokens != [] {
      if p.tokens[0].AliasToken? {
        PoppedWeight(AliasEvent(Some(p.tokens[0].name)), Skip(p));
        MoreSpends(3 * |p.tokens| + StackWeight(p.states) - 2, 3 * |p.tokens| + StackWeight(p.states) + 1 + (if indentless then 1 else 0),
                   ParseNode(p, block, indentless));
      } else {
        var properties := ReadProperties(p);
        var tag := if properties.tag == None then None else ResolveTag(p.directives, properties.tag.value);
        if properties.parser.tokens != [] {
          ContentSpends(properties.parser, properties.anchor, tag, block, indentless);
          MoreSpends(3 * |properties.parser.tokens| + StackWeight(p.states) + 1 + (if indentless then 1 else 0),
                     3 * |p.tokens| + StackWeight(p.states) + 1 + (if indentless then 1 else 0),
                     ParseContent(properties.parser, properties.anchor, tag, block, indentless));
        }
      }
    }
  }

  lemma SpendsNothing(bound: int)
    ensures Spends(bound, Failed)
  {
  }

  lemma MoreSpends(less: int, bound: int, outcome: Outcome)
    requires less <= bound && Spends(less, outcome)
    ensures Spends(bound, outcome)
  {
  }

  /** A child node within a bound that leaves room for its continuation. */
  lemma ChildSpends(p: Parser, next: State, block: bool, indentless: bool, bound: int)
    requires 3 * |p.tokens| + StackWeight(p.states) + Weight(next) + 1 + (if indentless then 1 else 0) <= bound
    ensures Spends(bound, ParseNode(Push(p, next), block, indentless))
  {
    hide ParseNode, StackWeight;
    PushedWeight(p.states, next);
    NodeSpends(Push(p, next), block, indentless);
    MoreSpends(3 * |p.tokens| + StackWeight(p.states) + Weight(next) + 1 + (if indentless then 1 else 0), bound,
               ParseNode(Push(p, next), block, indentless));
  }

  lemma PoppedSpends(event: Event, p: Parser, bound: int)
    requires 3 * |p.tokens| + StackWeight(p.states) < bound
    ensures Spends(bound, EmitPop(event, p)) && Spends(bound, EmitPopMark(event, p))
  {
    PoppedWeight(event, p);
    PoppedWeight(event, p.(marks := if p.marks == [] then [] else p.marks[..|p.marks| - 1]));
  }

  lemma BlockStepSpends(p: Parser)
    requires p.state == BlockSequenceFirstEntryState || p.state == BlockSequenceEntryState
      || p.state == BlockMappingFirstKeyState || p.state == BlockMappingKeyState
    ensures Spends(Potential(p), Step(p))
  {
    hide ParseNode, StackWeight, EmitPopMark, EmitPop;
    var bound := Potential(p);
    if p.tokens != [] {
      var first := p.state == BlockSequenceFirstEntryState || p.state == BlockMappingFirstKeyState;
      var q := Enter(p, first);
      if q.tokens != [] {
        var q' := Skip(q);
        PoppedSpends(SequenceEnd, q', bound);
        PoppedSpends(MappingEnd, q', bound);
        ChildSpends(q', BlockSequenceEntryState, true, false, bound);
        ChildSpends(q', BlockMappingValueState, true, true, bound);
      }
    }
  }

  lemma FlowSequenceStepSpends(p: Parser, first: bool)
    requires p.state == if first then FlowSequenceFirstEntryState else FlowSequenceEntryState
    ensures Spends(Potential(p), ParseFlowSequenceEntry(p, first))
  {
    hide ParseNode, StackWeight, EmitPopMark, EmitPop;
    var bound := Potential(p);
    if p.tokens != [] {
      var q := Enter(p, first);
      if q.tokens != [] {
        PoppedSpends(SequenceEnd, Skip(q), bound);
        var q' := if first then q else Skip(q);
        if q'.tokens != [] {
          PoppedSpends(SequenceEnd, Skip(q'), bound);
          ChildSpends(q', FlowSequenceEntryState, false, false, bound);
        }
      }
    }
  }

  lemma FlowMappingStepSpends(p: Parser, first: bool)
    requires p.state == if first then FlowMappingFirstKeyState else FlowMappingKeyState
    ensures Spends(Potential(p), ParseFlowMappingKey(p, first))
  {
    hide ParseNode, StackWeight, EmitPopMark, EmitPop;
    var bound := Potential(p);
    if p.tokens != [] {
      var q := Enter(p, first);
      if q.tokens != [] {
        PoppedSpends(MappingEnd, Skip(q), bound);
        var q' := if first then q else Skip(q);
        if q'.tokens != [] {
          PoppedSpends(MappingEnd, Skip(q'), bound);
          ChildSpends(q', FlowMappingEmptyValueState, false, false, bound);
          ChildSpends(Skip(q'), FlowMappingValueState, false, false, bound);
        }
      }
    }
  }

  lemma InsideStepSpends(p: Parser)
    requires p.state == IndentlessSequenceEntryState || p.state == BlockMappingValueState
      || p.state == FlowSequenceEntryMappingKeyState || p.state == FlowSequenceEntryMappingValueState
      || p.state == FlowSequenceEntryMappingEndState || p.state == FlowMappingValueState || p.state == FlowMappingEmptyValueState
    ensures Spends(Potential(p), Step(p))
  {
    hide ParseNode, StackWeight, EmitPop;
    var bound := Potential(p);
    if p.tokens != [] {
      PoppedSpends(SequenceEnd, p, 3 * |p.tokens| + StackWeight(p.states) + 1);
      var q := Skip(p);
      ChildSpends(q, IndentlessSequenceEntryState, true, false, 3 * |p.tokens| + StackWeight(p.states) + 1);
      ChildSpends(q, BlockMappingKeyState, true, true, 3 * |p.tokens| + StackWeight(p.states) + 1);
      ChildSpends(p, FlowSequenceEntryMappingValueState, false, false, 3 * |p.tokens| + StackWeight(p.states) + 3);
      ChildSpends(q, FlowSequenceEntryMappingEndState, false, false, 3 * |p.tokens| + StackWeight(p.states) + 1);
      ChildSpends(q, FlowMappingKeyState, false, false, 3 * |p.tokens| + StackWeight(p.states) + 1);
    }
  }

  lemma DocumentStepSpends(p: Parser)
    requires Inv(p)
    requires p.state == StreamStartState || p.state == ImplicitDocumentStartState || p.state == DocumentStartState
      || p.state == DocumentEndState
    ensures Spends(Potential(p), Step(p))
  {
    hide ReadDirectives, SkipDocumentEnds, StackWeight, StackMarks, StackFrames;
    PushedWeight([], DocumentEndState);
    assert [] + [DocumentEndState] == [DocumentEndState];
    NoWeight();
  }

  lemma ContentStepSpends(p: Parser)
    requires p.state == DocumentContentState || p.state == BlockNodeState
    ensures Spends(Potential(p), Step(p))
  {
    hide ParseNode, StackWeight, EmitPop;
    NodeSpends(p, true, false);
    PoppedSpends(EMPTY_SCALAR, p, Potential(p));
  }

  lemma NoWeight()
    ensures StackWeight([]) == 0
  {
  }

  /** Every step lowers the bound on the events still to come. */
  lemma StepSpends(p: Parser)
    requires Inv(p) && p.state != EndState
    ensures Spends(Potential(p), Step(p))
  {
    hide Inv, Potential, Spends, ParseNode, ParseFlowSequenceEntry, ParseFlowMappingKey;
    NoOtherState(p);
    match p.state
    case StreamStartState => DocumentStepSpends(p);
    case ImplicitDocumentStartState => DocumentStepSpends(p);
    case DocumentStartState => DocumentStepSpends(p);
    case DocumentContentState => ContentStepSpends(p);
    case DocumentEndState => DocumentStepSpends(p);
    case BlockNodeState => ContentStepSpends(p);
    case BlockSequenceFirstEntryState => BlockStepSpends(p);
    case BlockSequenceEntryState => BlockStepSpends(p);
    case BlockMappingFirstKeyState => BlockStepSpends(p);
    case BlockMappingKeyState => BlockStepSpends(p);
    case FlowSequenceFirstEntryState => FlowSequenceStepSpends(p, true);
    case FlowSequenceEntryState => FlowSequenceStepSpends(p, false);
    case FlowMappingFirstKeyState => FlowMappingStepSpends(p, true);
    case FlowMappingKeyState => FlowMappingStepSpends(p, false);
    case _ => InsideStepSpends(p);
  }

  // ----- Whole runs

  datatype Result = Complete | Broken | Underflowed

  datatype Run = Run(events: seq<Event>, result: Result)

  /** All the events the parser produces from here on. */
  function RunAll(p: Parser): Run
    requires Inv(p)
    decreases Potential(p)
  {
    if p.state == EndState then Run([], Complete)
    else
      StepKeepsInv(p);
      StepSpends(p);
      match Step(p)
      case Emitted(event, p') => var rest := RunAll(p'); Run([event] + rest.events, rest.result)
      case Failed => Run([], Broken)
      case Underflow => Run([], Underflowed)
  }

  lemma {:induction false} RunFollowsGrammar(p: Parser)
    requires Inv(p)
    ensures RunAll(p).result != Underflowed && |RunAll(p).events| <= Potential(p)
    ensures AcceptAll(Position(p), RunAll(p).events).Some?
    ensures RunAll(p).result == Complete ==> AcceptAll(Position(p), RunAll(p).events) == Some(Ended)
    decreases Potential(p)
  {
    hide Inv, Potential, Step, Accept;
    if p.state != EndState {
      StepKeepsInv(p);
      StepSpends(p);
      var outcome := Step(p);
      if outcome.Emitted? {
        RunFollowsGrammar(outcome.parser);
        var rest := RunAll(outcome.parser);
        assert ([outcome.event] + rest.events)[1..] == rest.events;
      }
    }
  }

  /**
    For every token sequence the run from the initial state never pops an empty stack, emits
    a prefix of the event grammar, a whole word of it when the stream ends, and emits at most
    three events for each token, and one more.
   */
  lemma EveryRunIsWellFormed(tokens: seq<Token>)
    ensures Inv(Start(tokens))
    ensures var run := RunAll(Start(tokens));
      && run.result != Underflowed
      && |run.events| <= 3 * |tokens| + 1
      && AcceptAll(NotStarted, run.events).Some?
      && (run.result == Complete ==> AcceptAll(NotStarted, run.events) == Some(Ended))
  {
    hide RunAll, AcceptAll;
    RunFollowsGrammar(Start(tokens));
    NoWeight();
  }
}
