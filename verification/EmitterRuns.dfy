/**
  The emitter accepts exactly the event grammar: for every word of valid events the machine
  goes on as long as the grammar does and reports an error where the grammar stops, and its
  stacks never underflow.
 */
module EmitterRuns {
  import opened Options
  import opened Events
  import opened EventGrammar
  import opened Emitting
  import EmitterQueue
  import Printing

  /** The collections that a state, waiting on the stack or current, stands for. */
  function FramesOf(s: State): seq<Frame> {
    match s
    case DocumentEndState => [DocumentFrame(false)]
    case FlowSequenceFirstItemState => [SequenceFrame]
    case FlowSequenceItemState => [SequenceFrame]
    case BlockSequenceFirstItemState => [SequenceFrame]
    case BlockSequenceItemState => [SequenceFrame]
    case FlowMappingFirstKeyState => [MappingFrame(false)]
    case FlowMappingKeyState => [MappingFrame(false)]
    case BlockMappingFirstKeyState => [MappingFrame(false)]
    case BlockMappingKeyState => [MappingFrame(false)]
    case FlowMappingSimpleValueState => [MappingFrame(true)]
    case FlowMappingValueState => [MappingFrame(true)]
    case BlockMappingSimpleValueState => [MappingFrame(true)]
    case BlockMappingValueState => [MappingFrame(true)]
    case _ => []
  }

  predicate IsFlowState(s: State) {
    || s == FlowSequenceItemState || s == FlowMappingKeyState
    || s == FlowMappingSimpleValueState || s == FlowMappingValueState
  }

  /** States inside a collection, past its start: its level has been pushed. */
  predicate IsContinuation(s: State) {
    || IsFlowState(s) || s == BlockSequenceItemState || s == BlockMappingKeyState
    || s == BlockMappingSimpleValueState || s == BlockMappingValueState
  }

  predicate IsFirst(s: State) {
    || s == FlowSequenceFirstItemState || s == BlockSequenceFirstItemState
    || s == FlowMappingFirstKeyState || s == BlockMappingFirstKeyState
  }

  function StackFrames(states: seq<State>): seq<Frame> {
    if states == [] then [] else StackFrames(states[..|states| - 1]) + FramesOf(states[|states| - 1])
  }

  /** How many flow collections the waiting states are in. */
  function StackFlow(states: seq<State>): nat {
    if states == [] then 0 else StackFlow(states[..|states| - 1]) + FlowOf(states[|states| - 1])
  }

  function FlowOf(s: State): nat {
    if IsFlowState(s) then 1 else 0
  }

  predicate IsStack(states: seq<State>) {
    && states != [] && states[0] == DocumentEndState
    && forall k :: 1 <= k < |states| ==> IsContinuation(states[k])
  }

  /** The stacks where a node is expected: a level for every waiting collection, the flow level for the flow ones. */
  predicate NodeInv(s: Emitter) {
    IsStack(s.states) && |s.indents| == |s.states| - 1 && s.w.flowLevel == StackFlow(s.states)
  }

  predicate NothingOpen(s: Emitter) {
    s.states == [] && s.indents == [] && s.w.flowLevel == 0
  }

  predicate Inv(s: Emitter) {
    if IsFirst(s.state) then NodeInv(s)
    else if IsContinuation(s.state) then
      && IsStack(s.states) && |s.indents| == |s.states| && s.w.flowLevel == StackFlow(s.states) + FlowOf(s.state)
    else NothingOpen(s)
  }

  function Position(s: Emitter): Grammar {
    match s.state
    case StreamStartState => NotStarted
    case EndState => Ended
    case FirstDocumentStartState => Open([StreamFrame])
    case DocumentStartState => Open([StreamFrame])
    case DocumentContentState => Open([StreamFrame, DocumentFrame(true)])
    case DocumentEndState => Open([StreamFrame, DocumentFrame(false)])
    case _ => Open([StreamFrame] + StackFrames(s.states) + FramesOf(s.state))
  }

  /** The frame below a node before it, given the state that waits for its end. */
  function BeforeNode(s: State): Frame {
    match s
    case DocumentEndState => DocumentFrame(true)
    case FlowSequenceItemState => SequenceFrame
    case BlockSequenceItemState => SequenceFrame
    case FlowMappingKeyState => MappingFrame(true)
    case BlockMappingKeyState => MappingFrame(true)
    case _ => MappingFrame(false)
  }

  function NodePosition(states: seq<State>): Grammar
    requires states != []
  {
    Open([StreamFrame] + StackFrames(states[..|states| - 1]) + [BeforeNode(states[|states| - 1])])
  }

  /** The machine does with an event what the grammar does. */
  predicate Agrees(g: Grammar, e: Event, outcome: Outcome) {
    match Accept(g, e)
    case None => outcome == Failed
    case Some(g') => outcome.Emitted? && Inv(outcome.emitter) && Position(outcome.emitter) == g'
  }

  /** Valid events, and no alias without a name. */
  predicate IsValid(cfg: Config, e: Event) {
    cfg.valid(e) && e != AliasEvent(None)
  }

  // ----- Nodes

  lemma TopOf(prefix: seq<Frame>, frame: Frame)
    ensures Top(prefix + [frame]) == frame && Below(prefix + [frame]) == prefix
  {
  }

  lemma WaitsForNode(s: State)
    requires s == DocumentEndState || IsContinuation(s)
    ensures exists f :: FramesOf(s) == [f] && AfterNode(BeforeNode(s)) == Some(f)
  {
    assert FramesOf(s) == [FramesOf(s)[0]];
  }

  lemma StackUnfolds(states: seq<State>)
    requires states != []
    ensures StackFrames(states) == StackFrames(states[..|states| - 1]) + FramesOf(states[|states| - 1])
    ensures StackFlow(states) == StackFlow(states[..|states| - 1]) + FlowOf(states[|states| - 1])
  {
  }

  lemma PushUnfolds(states: seq<State>, s: State)
    ensures StackFrames(states + [s]) == StackFrames(states) + FramesOf(s)
    ensures StackFlow(states + [s]) == StackFlow(states) + FlowOf(s)
  {
    assert (states + [s])[..|states|] == states;
  }

  /** What the grammar makes of an event on top of a frame that takes a node. */
  lemma AcceptsOnTop(prefix: seq<Frame>, before: Frame, after: Frame, e: Event)
    requires AfterNode(before) == Some(after) && e != AliasEvent(None)
    requires (e == SequenceEnd ==> before != SequenceFrame) && (e == MappingEnd ==> before != MappingFrame(false))
    ensures Accept(Open(prefix + [before]), e) ==
      if !StartsNode(e) then None
      else if e.SequenceStart? then Some(Open(prefix + [after, SequenceFrame]))
      else if e.MappingStart? then Some(Open(prefix + [after, MappingFrame(false)]))
      else Some(Open(prefix + [after]))
  {
    TopOf(prefix, before);
  }

  /** What the grammar makes of an event where a node is expected. */
  lemma {:induction false} AcceptsNode(states: seq<State>, e: Event)
    requires IsStack(states) && e != AliasEvent(None)
    requires e == SequenceEnd ==> BeforeNode(states[|states| - 1]) != SequenceFrame
    requires e == MappingEnd ==> BeforeNode(states[|states| - 1]) != MappingFrame(false)
    ensures Accept(NodePosition(states), e) ==
      if !StartsNode(e) then None
      else if e.SequenceStart? then Some(Open([StreamFrame] + StackFrames(states) + [SequenceFrame]))
      else if e.MappingStart? then Some(Open([StreamFrame] + StackFrames(states) + [MappingFrame(false)]))
      else Some(Open([StreamFrame] + StackFrames(states)))
  {
    hide StackFrames, FramesOf, BeforeNode, IsContinuation, Accept, StartsNode;
    var below, top := states[..|states| - 1], states[|states| - 1];
    var prefix := [StreamFrame] + StackFrames(below);
    WaitsForNode(top);
    var after :| FramesOf(top) == [after] && AfterNode(BeforeNode(top)) == Some(after);
    AcceptsOnTop(prefix, BeforeNode(top), after, e);
    StackUnfolds(states);
    assert prefix + [after] == [StreamFrame] + StackFrames(states);
    assert prefix + [after, SequenceFrame] == [StreamFrame] + StackFrames(states) + [SequenceFrame];
    assert prefix + [after, MappingFrame(false)] == [StreamFrame] + StackFrames(states) + [MappingFrame(false)];
  }

  /** The state popped behind a node or a collection is current, and stands for the stack. */
  lemma PoppedState(s: Emitter)
    requires NodeInv(s)
    ensures PopState(s).Emitted?
    ensures Inv(PopState(s).emitter) && Position(PopState(s).emitter) == Open([StreamFrame] + StackFrames(s.states))
  {
    var below, top := s.states[..|s.states| - 1], s.states[|s.states| - 1];
    StackUnfolds(s.states);
    assert [StreamFrame] + StackFrames(below) + FramesOf(top) == [StreamFrame] + (StackFrames(below) + FramesOf(top));
    if |s.states| == 1 {
      assert below == [] && StackFlow(below) == 0;
      assert [StreamFrame] + ([] + [DocumentFrame(false)]) == [StreamFrame, DocumentFrame(false)];
    }
  }

  lemma NodeAgrees(cfg: Config, s: Emitter, queue: seq<Event>, mapping: bool, simpleKey: bool)
    requires NodeInv(s) && queue != [] && IsValid(cfg, queue[0])
    requires queue[0] == SequenceEnd ==> BeforeNode(s.states[|s.states| - 1]) != SequenceFrame
    requires queue[0] == MappingEnd ==> BeforeNode(s.states[|s.states| - 1]) != MappingFrame(false)
    ensures Agrees(NodePosition(s.states), queue[0], EmitNode(cfg, s, queue, mapping, simpleKey))
  {
    hide Accept, NodePosition, StackFrames, StackFlow;
    var e := queue[0];
    if e.AliasEvent? || e.ScalarEvent? {
      LeafAgrees(cfg, s, queue, mapping, simpleKey);
    } else {
      AcceptsNode(s.states, e);
    }
  }

  lemma LeafAgrees(cfg: Config, s: Emitter, queue: seq<Event>, mapping: bool, simpleKey: bool)
    requires NodeInv(s) && queue != [] && IsValid(cfg, queue[0]) && (queue[0].AliasEvent? || queue[0].ScalarEvent?)
    ensures Agrees(NodePosition(s.states), queue[0], EmitNode(cfg, s, queue, mapping, simpleKey))
  {
    hide Accept, NodePosition, StackFrames, StackFlow, IsStack, Inv, Position;
    var e := queue[0];
    AcceptsNode(s.states, e);
    var w := s.w.(mapping := mapping);
    PoppedState(s.(w := WriteContent(cfg, w, e, w.indent, simpleKey)));
    var deeper := Deeper(cfg, s.(w := w), true, false);
    assert (s.indents + [w.indent])[..|s.indents|] == s.indents;
    PoppedState(s.(w := WriteContent(cfg, deeper.w, e, deeper.w.indent, simpleKey).(indent := w.indent)));
  }

  // ----- Collections

  /** Inside a collection, in one of its states. */
  predicate Inside(s: Emitter, state: State) {
    IsContinuation(state) && IsStack(s.states) && |s.indents| == |s.states| && s.w.flowLevel == StackFlow(s.states) + FlowOf(state)
  }

  function InsidePosition(s: Emitter, state: State): Grammar {
    Open([StreamFrame] + StackFrames(s.states) + FramesOf(state))
  }

  /** A child of a collection: its continuation is pushed first. */
  lemma ChildAgrees(cfg: Config, s: Emitter, state: State, next: State, w: Writer, queue: seq<Event>, mapping: bool, simpleKey: bool)
    requires Inside(s, state) && IsContinuation(next) && queue != [] && IsValid(cfg, queue[0])
    requires FramesOf(state) == [BeforeNode(next)] && FlowOf(next) == FlowOf(state) && w.flowLevel == s.w.flowLevel
    requires queue[0] == SequenceEnd ==> BeforeNode(next) != SequenceFrame
    requires queue[0] == MappingEnd ==> BeforeNode(next) != MappingFrame(false)
    ensures Agrees(InsidePosition(s, state), queue[0], EmitNode(cfg, PushState(s.(w := w), next), queue, mapping, simpleKey))
  {
    hide EmitNode, Agrees, StackFrames, StackFlow;
    var pushed := PushState(s.(w := w), next);
    PushUnfolds(s.states, next);
    assert pushed.states[..|s.states|] == s.states;
    NodeAgrees(cfg, pushed, queue, mapping, simpleKey);
  }

  /** The end of a collection pops its level and the state that waited for it. */
  lemma EndAgrees(s: Emitter, state: State, e: Event)
    requires Inside(s, state)
    requires (e == SequenceEnd && FramesOf(state) == [SequenceFrame]) || (e == MappingEnd && FramesOf(state) == [MappingFrame(false)])
    ensures PopIndent(s).Emitted?
    ensures forall w: Writer :: w.flowLevel == StackFlow(s.states) ==>
      Agrees(InsidePosition(s, state), e, PopState(PopIndent(s).emitter.(w := w)))
  {
    hide Inv, Position, StackFlow, StackFrames;
    var prefix := [StreamFrame] + StackFrames(s.states);
    TopOf(prefix, FramesOf(state)[0]);
    forall w: Writer | w.flowLevel == StackFlow(s.states)
      ensures Agrees(InsidePosition(s, state), e, PopState(PopIndent(s).emitter.(w := w)))
    {
      PoppedState(PopIndent(s).emitter.(w := w));
    }
  }

  lemma FlowEndAgrees(cfg: Config, s: Emitter, state: State, e: Event, indicator: seq<int>, first: bool)
    requires Inside(s, state) && IsFlowState(state) && (indicator == CLOSE_SEQUENCE || indicator == CLOSE_MAPPING)
    requires (e == SequenceEnd && FramesOf(state) == [SequenceFrame]) || (e == MappingEnd && FramesOf(state) == [MappingFrame(false)])
    ensures Agrees(InsidePosition(s, state), e, CloseFlow(cfg, s, indicator, first))
  {
    hide Agrees, StackFlow, InsidePosition, Inside, FramesOf;
    EndAgrees(s, state, e);
    var s1 := PopIndent(s).emitter;
    LevelOfInside(s, state);
    var w := s1.w.(flowLevel := s.w.flowLevel - 1);
    FlowEndKeepsLevel(cfg, w, indicator, first);
    assert CloseFlow(cfg, s, indicator, first) == PopState(s1.(w := WriteFlowEnd(cfg, w, indicator, first)));
  }

  lemma LevelOfInside(s: Emitter, state: State)
    requires Inside(s, state) && IsFlowState(state)
    ensures s.w.flowLevel - 1 == StackFlow(s.states)
  {
  }

  lemma FlowEndKeepsLevel(cfg: Config, w: Writer, indicator: seq<int>, first: bool)
    requires indicator == CLOSE_SEQUENCE || indicator == CLOSE_MAPPING
    ensures WriteFlowEnd(cfg, w, indicator, first).flowLevel == w.flowLevel
  {
  }

  lemma BlockEndAgrees(s: Emitter, state: State, e: Event)
    requires Inside(s, state) && !IsFlowState(state)
    requires (e == SequenceEnd && FramesOf(state) == [SequenceFrame]) || (e == MappingEnd && FramesOf(state) == [MappingFrame(false)])
    ensures Agrees(InsidePosition(s, state), e, CloseBlock(s))
  {
    hide Agrees, StackFlow, InsidePosition, FramesOf;
    EndAgrees(s, state, e);
    assert CloseBlock(s) == PopState(PopIndent(s).emitter.(w := PopIndent(s).emitter.w));
  }

  /** The collection that a first state opens is entered. */
  lemma EntersFlow(cfg: Config, s: Emitter)
    requires Inv(s) && IsFirst(s.state)
    ensures s.state == FlowSequenceFirstItemState ==>
      Inside(OpenFlow(cfg, s, OPEN_SEQUENCE), FlowSequenceItemState)
      && InsidePosition(OpenFlow(cfg, s, OPEN_SEQUENCE), FlowSequenceItemState) == Position(s)
    ensures s.state == FlowMappingFirstKeyState ==>
      Inside(OpenFlow(cfg, s, OPEN_MAPPING), FlowMappingKeyState)
      && InsidePosition(OpenFlow(cfg, s, OPEN_MAPPING), FlowMappingKeyState) == Position(s)
  {
    hide StackFrames, StackFlow, IsStack, Printing.WriteIndicator;
  }

  lemma EntersBlock(cfg: Config, s: Emitter)
    requires Inv(s) && IsFirst(s.state)
    ensures s.state == BlockSequenceFirstItemState ==>
      Inside(Deeper(cfg, s, false, Indentless(s.w)), BlockSequenceItemState)
      && InsidePosition(Deeper(cfg, s, false, Indentless(s.w)), BlockSequenceItemState) == Position(s)
    ensures s.state == BlockMappingFirstKeyState ==>
      Inside(Deeper(cfg, s, false, false), BlockMappingKeyState)
      && InsidePosition(Deeper(cfg, s, false, false), BlockMappingKeyState) == Position(s)
  {
    hide StackFrames, StackFlow, IsStack, Indentless;
  }

  lemma WritersKeepLevel(cfg: Config, w: Writer, first: bool, simple: bool)
    ensures NextFlowItem(cfg, w, first).flowLevel == w.flowLevel && BeforeFlowKey(cfg, w, first, simple).flowLevel == w.flowLevel
    ensures BeforeFlowValue(cfg, w, simple).flowLevel == w.flowLevel && BeforeBlockItem(cfg, w).flowLevel == w.flowLevel
    ensures BeforeBlockKey(cfg, w, simple).flowLevel == w.flowLevel && BeforeBlockValue(cfg, w, simple).flowLevel == w.flowLevel
  {
    hide Printing.WriteIndicator, Printing.WriteIndent;
  }

  lemma FlowSequenceAgrees(cfg: Config, s: Emitter, queue: seq<Event>, first: bool)
    requires Inside(s, FlowSequenceItemState) && queue != [] && IsValid(cfg, queue[0])
    ensures Agrees(InsidePosition(s, FlowSequenceItemState), queue[0], FlowSequenceItem(cfg, s, queue, first))
  {
    hide Agrees, InsidePosition, EmitNode, CloseFlow, Inside, NextFlowItem, PushState;
    WritersKeepLevel(cfg, s.w, first, true);
    if queue[0] == SequenceEnd {
      FlowEndAgrees(cfg, s, FlowSequenceItemState, SequenceEnd, CLOSE_SEQUENCE, first);
    } else {
      ChildAgrees(cfg, s, FlowSequenceItemState, FlowSequenceItemState, NextFlowItem(cfg, s.w, first), queue, false, false);
    }
  }

  lemma FlowMappingAgrees(cfg: Config, s: Emitter, queue: seq<Event>, first: bool)
    requires Inside(s, FlowMappingKeyState) && queue != [] && IsValid(cfg, queue[0])
    ensures Agrees(InsidePosition(s, FlowMappingKeyState), queue[0], FlowMappingKey(cfg, s, queue, first))
  {
    hide Agrees, InsidePosition, EmitNode, CloseFlow, Inside, BeforeFlowKey, PushState, SimpleKeyAhead;
    var simple := !cfg.canonical && SimpleKeyAhead(cfg, s.w.directives, queue);
    WritersKeepLevel(cfg, s.w, first, simple);
    if queue[0] == MappingEnd {
      FlowEndAgrees(cfg, s, FlowMappingKeyState, MappingEnd, CLOSE_MAPPING, first);
    } else {
      ChildAgrees(cfg, s, FlowMappingKeyState, if simple then FlowMappingSimpleValueState else FlowMappingValueState,
                  BeforeFlowKey(cfg, s.w, first, simple), queue, true, simple);
    }
  }

  lemma BlockSequenceAgrees(cfg: Config, s: Emitter, queue: seq<Event>)
    requires Inside(s, BlockSequenceItemState) && queue != [] && IsValid(cfg, queue[0])
    ensures Agrees(InsidePosition(s, BlockSequenceItemState), queue[0], BlockSequenceItem(cfg, s, queue))
  {
    hide Agrees, InsidePosition, EmitNode, CloseBlock, Inside, BeforeBlockItem, PushState;
    WritersKeepLevel(cfg, s.w, true, true);
    if queue[0] == SequenceEnd {
      BlockEndAgrees(s, BlockSequenceItemState, SequenceEnd);
    } else {
      ChildAgrees(cfg, s, BlockSequenceItemState, BlockSequenceItemState, BeforeBlockItem(cfg, s.w), queue, false, false);
    }
  }

  lemma BlockMappingAgrees(cfg: Config, s: Emitter, queue: seq<Event>)
    requires Inside(s, BlockMappingKeyState) && queue != [] && IsValid(cfg, queue[0])
    ensures Agrees(InsidePosition(s, BlockMappingKeyState), queue[0], BlockMappingKey(cfg, s, queue))
  {
    hide Agrees, InsidePosition, EmitNode, CloseBlock, Inside, BeforeBlockKey, PushState, SimpleKeyAhead;
    var simple := SimpleKeyAhead(cfg, s.w.directives, queue);
    WritersKeepLevel(cfg, s.w, true, simple);
    if queue[0] == MappingEnd {
      BlockEndAgrees(s, BlockMappingKeyState, MappingEnd);
    } else {
      ChildAgrees(cfg, s, BlockMappingKeyState, if simple then BlockMappingSimpleValueState else BlockMappingValueState,
                  BeforeBlockKey(cfg, s.w, simple), queue, true, simple);
    }
  }

  lemma ValueAgrees(cfg: Config, s: Emitter, next: State, w: Writer, queue: seq<Event>)
    requires Inside(s, s.state) && FramesOf(s.state) == [MappingFrame(true)] && queue != [] && IsValid(cfg, queue[0])
    requires next == (if IsFlowState(s.state) then FlowMappingKeyState else BlockMappingKeyState) && w.flowLevel == s.w.flowLevel
    ensures Agrees(Position(s), queue[0], EmitNode(cfg, PushState(s.(w := w), next), queue, true, false))
  {
    hide Agrees, EmitNode, Inside, PushState, StackFrames;
    ChildAgrees(cfg, s, s.state, next, w, queue, true, false);
  }

  lemma InsideItsState(s: Emitter)
    requires Inv(s) && IsContinuation(s.state)
    ensures Inside(s, s.state) && InsidePosition(s, s.state) == Position(s)
  {
  }

  // ----- Streams and documents

  lemma StreamStartAgrees(cfg: Config, s: Emitter, e: Event)
    requires Inv(s) && s.state == StreamStartState
    ensures Agrees(Position(s), e, EmitStreamStart(cfg, s, e))
  {
    hide StackFrames, StackFlow, IsStack;
  }

  lemma NothingBehindTheEnd(s: Emitter, e: Event)
    requires s.state == EndState
    ensures Agrees(Position(s), e, Failed)
  {
    hide StackFrames, StackFlow, IsStack;
  }

  lemma DocumentStartAgrees(cfg: Config, s: Emitter, e: Event, first: bool)
    requires Inv(s) && s.state == (if first then FirstDocumentStartState else DocumentStartState) && IsValid(cfg, e)
    ensures Agrees(Position(s), e, EmitDocumentStart(cfg, s, e, first))
  {
    hide WriteDocumentStart, EndOpen, Accept, StackFrames, StackFlow, AddDefaults, IsStack, Inv, Position;
    NothingIsOpen(s);
    AcceptBetween(e);
    DocumentsKeepLevel(cfg, s.w, e);
    if e.DocumentStart? || e == StreamEnd {
      NothingIsOpen(EmitDocumentStart(cfg, s, e, first).emitter);
    }
  }

  /** The invariant and the position in the states between and around documents. */
  lemma NothingIsOpen(s: Emitter)
    requires s.state in {FirstDocumentStartState, DocumentStartState, DocumentContentState, EndState}
    ensures Inv(s) <==> NothingOpen(s)
    ensures Position(s) == if s.state == DocumentContentState then Open([StreamFrame, DocumentFrame(true)])
                           else if s.state == EndState then Ended else Open([StreamFrame])
  {
  }

  /** What the grammar takes between documents. */
  lemma AcceptBetween(e: Event)
    requires e != AliasEvent(None)
    ensures Accept(Open([StreamFrame]), e) ==
      if e.DocumentStart? then Some(Open([StreamFrame, DocumentFrame(true)])) else if e == StreamEnd then Some(Ended) else None
  {
    assert [StreamFrame] + [DocumentFrame(true)] == [StreamFrame, DocumentFrame(true)];
  }

  lemma DocumentEndAgrees(cfg: Config, s: Emitter, e: Event)
    requires Inv(s) && s.state == DocumentEndState && e != AliasEvent(None)
    ensures Agrees(Position(s), e, EmitDocumentEnd(cfg, s, e))
  {
    hide Indent, Indicate;
    assert Below([StreamFrame, DocumentFrame(false)]) == [StreamFrame];
    DocumentsKeepLevel(cfg, s.w.(directives := []), e);
  }

  lemma DocumentsAgree(cfg: Config, s: Emitter, queue: seq<Event>)
    requires Inv(s) && queue != [] && IsValid(cfg, queue[0])
    requires s.state == StreamStartState || s.state == FirstDocumentStartState || s.state == DocumentStartState
      || s.state == DocumentEndState || s.state == EndState
    ensures Agrees(Position(s), queue[0], Process(cfg, s, queue))
  {
    hide Inv, Position, Agrees, EmitStreamStart, EmitDocumentStart, EmitDocumentEnd;
    if s.state == FirstDocumentStartState {
      DocumentStartAgrees(cfg, s, queue[0], true);
    } else if s.state == DocumentStartState {
      DocumentStartAgrees(cfg, s, queue[0], false);
    } else if s.state == DocumentEndState {
      DocumentEndAgrees(cfg, s, queue[0]);
    } else if s.state == StreamStartState {
      StreamStartAgrees(cfg, s, queue[0]);
    } else {
      NothingBehindTheEnd(s, queue[0]);
    }
  }

  lemma DocumentsKeepLevel(cfg: Config, w: Writer, e: Event)
    ensures e.DocumentStart? ==>
      WriteDocumentStart(cfg, w, e, true).flowLevel == w.flowLevel && WriteDocumentStart(cfg, w, e, false).flowLevel == w.flowLevel
    ensures EndOpen(cfg, w).flowLevel == w.flowLevel
    ensures Indent(cfg, w).flowLevel == w.flowLevel
      && Indent(cfg, Indicate(Indent(cfg, w), END_MARK, true, false, false)).flowLevel == w.flowLevel
  {
    hide Printing.WriteIndicator, Printing.WriteIndent;
  }

  lemma RootPosition(s: Emitter)
    requires Inv(s) && s.state == DocumentContentState
    ensures var pushed := PushState(s, DocumentEndState);
      && NodeInv(pushed) && pushed.states == [DocumentEndState] && NodePosition(pushed.states) == Position(s)
  {
    var pushed := PushState(s, DocumentEndState);
    PushUnfolds([], DocumentEndState);
    assert pushed.states == [DocumentEndState] && pushed.states[..0] == [];
    assert [StreamFrame] + [] + [DocumentFrame(true)] == [StreamFrame, DocumentFrame(true)];
  }

  lemma RootIsTheSame(cfg: Config, s: Emitter, e: Event)
    requires Inv(s)
    ensures Inv(AtRoot(cfg, s, e)) && Position(AtRoot(cfg, s, e)) == Position(s) && AtRoot(cfg, s, e).state == s.state
  {
  }

  lemma RootAgrees(cfg: Config, s: Emitter, queue: seq<Event>)
    requires Inv(s) && queue != [] && IsValid(cfg, queue[0]) && s.state == DocumentContentState
    ensures Agrees(Position(s), queue[0], Process(cfg, s, queue))
  {
    hide EmitNode, Agrees, NodeInv, NodePosition, Position, Inv, PushState, AtRoot;
    var root := AtRoot(cfg, s, queue[0]);
    RootIsTheSame(cfg, s, queue[0]);
    RootPosition(root);
    NodeAgrees(cfg, PushState(root, DocumentEndState), queue, false, false);
  }

  /** Every step of a reachable emitter does what the grammar does. */
  lemma ProcessAgrees(cfg: Config, s: Emitter, queue: seq<Event>)
    requires Inv(s) && queue != [] && IsValid(cfg, queue[0])
    ensures Agrees(Position(s), queue[0], Process(cfg, s, queue))
  {
    hide Inv, Position, Agrees, EmitNode, FlowSequenceItem, FlowMappingKey, BlockSequenceItem, BlockMappingKey, EmitStreamStart,
         EmitDocumentStart, EmitDocumentEnd, PushState, OpenFlow, Deeper, Inside, InsidePosition, BeforeFlowValue, BeforeBlockValue;
    if IsFirst(s.state) {
      FirstAgrees(cfg, s, queue);
    } else if IsContinuation(s.state) {
      InsideItsState(s);
      LaterAgrees(cfg, s, queue);
    } else if s.state == DocumentContentState {
      RootAgrees(cfg, s, queue);
    } else {
      DocumentsAgree(cfg, s, queue);
    }
  }

  lemma FirstAgrees(cfg: Config, s: Emitter, queue: seq<Event>)
    requires Inv(s) && queue != [] && IsValid(cfg, queue[0]) && IsFirst(s.state)
    ensures Agrees(Position(s), queue[0], Process(cfg, s, queue))
  {
    hide Inv, Position, Agrees, FlowSequenceItem, FlowMappingKey, BlockSequenceItem, BlockMappingKey, OpenFlow, Deeper, Inside, InsidePosition;
    EntersFlow(cfg, s);
    EntersBlock(cfg, s);
    if s.state == FlowSequenceFirstItemState {
      FlowSequenceAgrees(cfg, OpenFlow(cfg, s, OPEN_SEQUENCE), queue, true);
    } else if s.state == FlowMappingFirstKeyState {
      FlowMappingAgrees(cfg, OpenFlow(cfg, s, OPEN_MAPPING), queue, true);
    } else if s.state == BlockSequenceFirstItemState {
      BlockSequenceAgrees(cfg, Deeper(cfg, s, false, Indentless(s.w)), queue);
    } else {
      BlockMappingAgrees(cfg, Deeper(cfg, s, false, false), queue);
    }
  }

  lemma LaterAgrees(cfg: Config, s: Emitter, queue: seq<Event>)
    requires Inv(s) && queue != [] && IsValid(cfg, queue[0]) && IsContinuation(s.state)
    ensures Agrees(Position(s), queue[0], Process(cfg, s, queue))
  {
    hide Inv, Position, Agrees, EmitNode, FlowSequenceItem, FlowMappingKey, BlockSequenceItem, BlockMappingKey, PushState, Inside,
         InsidePosition, BeforeFlowValue, BeforeBlockValue;
    InsideItsState(s);
    WritersKeepLevel(cfg, s.w, false, true);
    WritersKeepLevel(cfg, s.w, false, false);
    if s.state == FlowSequenceItemState {
      FlowSequenceAgrees(cfg, s, queue, false);
    } else if s.state == FlowMappingKeyState {
      FlowMappingAgrees(cfg, s, queue, false);
    } else if s.state == BlockSequenceItemState {
      BlockSequenceAgrees(cfg, s, queue);
    } else if s.state == BlockMappingKeyState {
      BlockMappingAgrees(cfg, s, queue);
    } else if s.state == FlowMappingSimpleValueState || s.state == FlowMappingValueState {
      ValueAgrees(cfg, s, FlowMappingKeyState, BeforeFlowValue(cfg, s.w, s.state == FlowMappingSimpleValueState), queue);
    } else {
      ValueAgrees(cfg, s, BlockMappingKeyState, BeforeBlockValue(cfg, s.w, s.state == BlockMappingSimpleValueState), queue);
    }
  }

  // ----- Whole words

  predicate AllValid(cfg: Config, events: seq<Event>) {
    forall k :: 0 <= k < |events| ==> IsValid(cfg, events[k])
  }

  /** A reachable emitter at this place of the grammar. */
  predicate IsAt(outcome: Outcome, g: Grammar) {
    outcome.Emitted? && Inv(outcome.emitter) && Position(outcome.emitter) == g
  }

  /** With everything in view: the machine gets through a word exactly if the grammar does. */
  lemma {:induction false} ProcessAllAgrees(cfg: Config, s: Emitter, events: seq<Event>)
    requires Inv(s) && AllValid(cfg, events)
    ensures match AcceptAll(Position(s), events)
      case None => ProcessAll(cfg, s, events) == Failed
      case Some(g) => IsAt(ProcessAll(cfg, s, events), g)
    decreases |events|
  {
    hide Inv, Position, Process, Accept, IsValid;
    if events != [] {
      assert IsValid(cfg, events[0]);
      ProcessAgrees(cfg, s, events);
      if Accept(Position(s), events[0]).Some? {
        RestValid(cfg, events);
        ProcessAllAgrees(cfg, Process(cfg, s, events).emitter, events[1..]);
      }
    }
  }

  lemma RestValid(cfg: Config, events: seq<Event>)
    requires events != [] && AllValid(cfg, events)
    ensures AllValid(cfg, events[1..])
  {
    forall k | 0 <= k < |events[1..]| ensures IsValid(cfg, events[1..][k]) {
      assert events[1..][k] == events[k + 1];
    }
  }

  lemma StartIsReachable()
    ensures Inv(Start()) && Position(Start()) == NotStarted
  {
  }

  /**
    The emitter with its queue, over any word of valid events: it never underflows; it stops
    with an error only if the grammar does; and on a word that ends the stream it has emitted
    everything.
   */
  lemma EveryWordIsHandled(cfg: Config, events: seq<Event>)
    requires AllValid(cfg, events)
    ensures var r := EmitAll(cfg, Start(), [], events);
      && (r.Stopped? ==> r.outcome == Failed && AcceptAll(NotStarted, events) == None)
      && (r.Queued? ==> |r.queue| <= 3)
      && (AcceptAll(NotStarted, events).Some? ==>
            r.Queued? && IsAt(ProcessAll(cfg, r.emitter, r.queue), AcceptAll(NotStarted, events).value))
  {
    hide EmitAll, ProcessAll, AcceptAll, Inv, Position;
    StartIsReachable();
    assert [] + events == events;
    EmitterQueue.EmitAllFollows(cfg, Start(), [], events);
    EmitterQueue.AtMostFourWait(cfg, Start(), [], events);
    ProcessAllAgrees(cfg, Start(), events);
  }
}
