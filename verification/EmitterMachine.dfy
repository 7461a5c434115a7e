/**
  The emitter at work: the state functions of emitter.c on the emitter object, its queue of
  events and its stacks, each proved to do what the function of `Emitting` says.
 */
module EmitterMachine {
  import opened Chars
  import opened Options
  import opened Printing
  import opened Events
  import opened Emitting
  import EmitterQueue

  /** A call went well, or reported an error, or popped an empty stack. */
  datatype Result = Ok | Error | Underflown

  class Machine {
    const cfg: Config
    var events: seq<Event>  // the queue
    var state: State
    var states: seq<State>
    var indents: seq<int>
    var indent: int
    var flowLevel: int
    var mapping: bool
    var directives: seq<TagDirective>  // of the document
    var openEnded: bool
    var pen: Pen
    var text: Text  // what has been written

    constructor (cfg: Config)
      ensures this.cfg == cfg && events == [] && Value() == Start()
    {
      this.cfg, events := cfg, [];
      state, states, indents, indent, flowLevel, mapping := StreamStartState, [], [], 0, 0, false;
      directives, openEnded, pen, text := [], false, Pen(0, false, false), [];
    }

    ghost function W(): Writer
      reads this
    {
      Writer(indent, flowLevel, mapping, directives, openEnded, pen, text)
    }

    ghost function Value(): Emitter
      reads this
    {
      Emitter(state, states, indents, W())
    }

    ghost predicate Does(outcome: Outcome, r: Result)
      reads this
    {
      match outcome
      case Emitted(s) => r == Ok && Value() == s
      case Failed => r == Error
      case Underflow => r == Underflown
    }

    // ----- Writing

    method Put(ink: Ink)
      modifies this`pen, this`text
      ensures W() == Write(old(W()), ink)
    {
      pen, text := ink.pen, text + ink.text;
    }

    method PutContent(e: Event, level: int, simpleKey: bool)
      modifies this`pen, this`text
      ensures W() == WriteContent(cfg, old(W()), e, level, simpleKey)
    {
      Put(cfg.content(e, Place(level, flowLevel > 0, simpleKey, directives), pen));
    }

    method PutIndicator(indicator: Text, needWhitespace: bool, isWhitespace: bool, isIndention: bool)
      modifies this`pen, this`text
      ensures W() == Indicate(old(W()), indicator, needWhitespace, isWhitespace, isIndention)
    {
      Put(WriteIndicator(indicator, needWhitespace, isWhitespace, isIndention, pen));
    }

    method PutIndent()
      modifies this`pen, this`text
      ensures W() == Indent(cfg, old(W()))
    {
      Put(WriteIndent(cfg.settings, indent, pen));
    }

    method PutIndentIfLong()
      modifies this`pen, this`text
      ensures W() == IndentIfLong(cfg, old(W()))
    {
      if cfg.canonical || pen.column > cfg.settings.bestWidth {
        PutIndent();
      }
    }

    // ----- The stacks

    method IncreaseIndent(flow: bool, indentless: bool)
      modifies this`indent, this`indents
      ensures Value() == Deeper(cfg, old(Value()), flow, indentless)
    {
      indents := indents + [indent];
      if indent < 0 {
        indent := if flow then cfg.settings.bestIndent else 0;
      } else if !indentless {
        indent := indent + cfg.settings.bestIndent;
      }
    }

    method DecreaseIndent() returns (r: Result)
      modifies this`indent, this`indents
      ensures Does(PopIndent(old(Value())), r)
    {
      if indents == [] {
        return Underflown;
      }
      indent, indents := indents[|indents| - 1], indents[..|indents| - 1];
      return Ok;
    }

    method PushNext(next: State)
      modifies this`states
      ensures Value() == PushState(old(Value()), next)
    {
      states := states + [next];
    }

    method PopNext() returns (r: Result)
      modifies this`state, this`states
      ensures Does(PopState(old(Value())), r)
    {
      if states == [] {
        return Underflown;
      }
      state, states := states[|states| - 1], states[..|states| - 1];
      return Ok;
    }

    // ----- Streams and documents

    method EmitStreamStart() returns (r: Result)
      requires events != []
      modifies this`indent, this`pen, this`state
      ensures Does(Emitting.EmitStreamStart(cfg, old(Value()), events[0]), r)
    {
      if events[0] != StreamStart {
        return Error;
      }
      indent, pen, state := -1, Pen(0, true, true), FirstDocumentStartState;
      return Ok;
    }

    /** The marker that ends an open-ended document. */
    method EndDocument()
      modifies this`pen, this`text, this`openEnded
      ensures W() == EndOpen(cfg, old(W()))
    {
      if openEnded {
        PutIndicator(END_MARK, true, false, false);
        PutIndent();
        openEnded := false;
      }
    }

    method PutDocumentStart(e: Event, first: bool)
      requires e.DocumentStart?
      modifies this`pen, this`text, this`openEnded
      ensures W() == WriteDocumentStart(cfg, old(W()), e, first)
    {
      hide WriteContent, Indent, Indicate, EndOpen;
      var implicit := e.implicit;
      if !first || cfg.canonical {
        implicit := false;
      }
      if e.version.Some? || e.directives != [] {
        EndDocument();
        implicit := false;
      }
      PutContent(e, indent, false);
      if !implicit {
        PutIndent();
        PutIndicator(START_MARK, true, false, false);
        if cfg.canonical {
          PutIndent();
        }
      }
    }

    method EmitDocumentStart(first: bool) returns (r: Result)
      requires events != []
      modifies this`pen, this`text, this`state, this`directives, this`openEnded
      ensures Does(Emitting.EmitDocumentStart(cfg, old(Value()), events[0], first), r)
    {
      hide WriteDocumentStart, AddDefaults, EndOpen;
      var e := events[0];
      if e.DocumentStart? {
        if !cfg.valid(e) {
          return Error;
        }
        PutDocumentStart(e, first);
        directives := AddDefaults(e.directives);
        state := DocumentContentState;
        return Ok;
      } else if e == StreamEnd {
        EndDocument();
        state := EndState;
        return Ok;
      } else {
        return Error;
      }
    }

    method EmitDocumentEnd() returns (r: Result)
      requires events != []
      modifies this`pen, this`text, this`state, this`directives, this`openEnded
      ensures Does(Emitting.EmitDocumentEnd(cfg, old(Value()), events[0]), r)
    {
      hide Indent, Indicate;
      var e := events[0];
      if !e.DocumentEnd? {
        return Error;
      }
      directives := [];
      PutIndent();
      if !e.implicit {
        PutIndicator(END_MARK, true, false, false);
        PutIndent();
        openEnded := false;
      }
      state := DocumentStartState;
      return Ok;
    }

    // ----- Nodes

    method EmitScalar(e: Event, simpleKey: bool) returns (r: Result)
      modifies this`state, this`states, this`indent, this`indents, this`pen, this`text
      ensures Does(Emitting.EmitScalar(cfg, old(Value()), e, simpleKey), r)
    {
      hide WriteContent;
      IncreaseIndent(true, false);
      PutContent(e, indent, simpleKey);
      r := DecreaseIndent();
      if r == Ok {
        r := PopNext();
      }
    }

    method EmitNode(mapping: bool, simpleKey: bool) returns (r: Result)
      requires events != []
      modifies this`state, this`states, this`indent, this`indents, this`mapping, this`pen, this`text
      ensures Does(Emitting.EmitNode(cfg, old(Value()), events, mapping, simpleKey), r)
    {
      hide WriteContent, IsFlow, Emitting.EmitScalar;
      this.mapping := mapping;
      var e := events[0];
      if !StartsNode(e) || !cfg.valid(e) {
        return Error;
      }
      if e.AliasEvent? {
        PutContent(e, indent, simpleKey);
        r := PopNext();
      } else if e.ScalarEvent? {
        r := EmitScalar(e, simpleKey);
      } else if e.SequenceStart? {
        ghost var w := W();
        var flow := flowLevel != 0 || cfg.canonical || e.style == FLOW_STYLE || EmptySequenceAhead(events);
        assert flow == IsFlow(cfg, w, e.style, EmptySequenceAhead(events)) by { FlowIf(w, e.style, EmptySequenceAhead(events)); }
        PutContent(e, indent, simpleKey);
        state := if flow then FlowSequenceFirstItemState else BlockSequenceFirstItemState;
        return Ok;
      } else {
        ghost var w := W();
        var flow := flowLevel != 0 || cfg.canonical || e.style == FLOW_STYLE || EmptyMappingAhead(events);
        assert flow == IsFlow(cfg, w, e.style, EmptyMappingAhead(events)) by { FlowIf(w, e.style, EmptyMappingAhead(events)); }
        PutContent(e, indent, simpleKey);
        state := if flow then FlowMappingFirstKeyState else BlockMappingFirstKeyState;
        return Ok;
      }
    }

    lemma FlowIf(w: Writer, style: nat, empty: bool)
      ensures IsFlow(cfg, w, style, empty) == (w.flowLevel != 0 || cfg.canonical || style == FLOW_STYLE || empty)
    {
    }

    // ----- Collections

    method OpenFlowCollection(indicator: Text)
      modifies this`indent, this`indents, this`flowLevel, this`pen, this`text
      ensures Value() == OpenFlow(cfg, old(Value()), indicator)
    {
      PutIndicator(indicator, true, true, false);
      IncreaseIndent(true, false);
      flowLevel := flowLevel + 1;
    }

    method CloseFlowCollection(indicator: Text, first: bool) returns (r: Result)
      modifies this`state, this`states, this`indent, this`indents, this`flowLevel, this`pen, this`text
      ensures Does(CloseFlow(cfg, old(Value()), indicator, first), r)
    {
      hide WriteFlowEnd;
      flowLevel := flowLevel - 1;
      r := DecreaseIndent();
      if r == Ok {
        PutFlowEnd(indicator, first);
        r := PopNext();
      }
    }

    method PutFlowEnd(indicator: Text, first: bool)
      modifies this`pen, this`text
      ensures W() == WriteFlowEnd(cfg, old(W()), indicator, first)
    {
      hide Indent, Indicate;
      if cfg.canonical && !first {
        PutIndicator(NEXT_ITEM, false, false, false);
        PutIndent();
      }
      PutIndicator(indicator, false, false, false);
    }

    method CloseBlockCollection() returns (r: Result)
      modifies this`state, this`states, this`indent, this`indents
      ensures Does(CloseBlock(old(Value())), r)
    {
      r := DecreaseIndent();
      if r == Ok {
        r := PopNext();
      }
    }

    method EmitFlowSequenceItem(first: bool) returns (r: Result)
      requires events != []
      modifies this`state, this`states, this`indent, this`indents, this`flowLevel, this`mapping, this`pen, this`text
      ensures Does(Emitting.EmitFlowSequenceItem(cfg, old(Value()), events, first), r)
    {
      hide Emitting.EmitNode, OpenFlow, CloseFlow, IndentIfLong, Indicate;
      if first {
        OpenFlowCollection(OPEN_SEQUENCE);
      }
      if events[0] == SequenceEnd {
        r := CloseFlowCollection(CLOSE_SEQUENCE, first);
        return;
      }
      if !first {
        PutIndicator(NEXT_ITEM, false, false, false);
      }
      PutIndentIfLong();
      PushNext(FlowSequenceItemState);
      r := EmitNode(false, false);
    }

    method EmitFlowMappingKey(first: bool) returns (r: Result)
      requires events != []
      modifies this`state, this`states, this`indent, this`indents, this`flowLevel, this`mapping, this`pen, this`text
      ensures Does(Emitting.EmitFlowMappingKey(cfg, old(Value()), events, first), r)
    {
      hide Emitting.EmitNode, OpenFlow, CloseFlow, IndentIfLong, Indicate, SimpleKeyAhead;
      if first {
        OpenFlowCollection(OPEN_MAPPING);
      }
      if events[0] == MappingEnd {
        r := CloseFlowCollection(CLOSE_MAPPING, first);
        return;
      }
      if !first {
        PutIndicator(NEXT_ITEM, false, false, false);
      }
      PutIndentIfLong();
      if !cfg.canonical && SimpleKeyAhead(cfg, directives, events) {
        PushNext(FlowMappingSimpleValueState);
        r := EmitNode(true, true);
      } else {
        PutIndicator(KEY_MARK, true, false, false);
        PushNext(FlowMappingValueState);
        r := EmitNode(true, false);
      }
    }

    method EmitFlowMappingValue(simple: bool) returns (r: Result)
      requires events != []
      modifies this`state, this`states, this`indent, this`indents, this`mapping, this`pen, this`text
      ensures Does(Emitting.EmitFlowMappingValue(cfg, old(Value()), events, simple), r)
    {
      hide Emitting.EmitNode, IndentIfLong, Indicate;
      if simple {
        PutIndicator(VALUE_MARK, false, false, false);
      } else {
        PutIndentIfLong();
        PutIndicator(VALUE_MARK, true, false, false);
      }
      PushNext(FlowMappingKeyState);
      r := EmitNode(true, false);
    }

    method EmitBlockSequenceItem(first: bool) returns (r: Result)
      requires events != []
      modifies this`state, this`states, this`indent, this`indents, this`mapping, this`pen, this`text
      ensures Does(Emitting.EmitBlockSequenceItem(cfg, old(Value()), events, first), r)
    {
      hide Emitting.EmitNode, Deeper, CloseBlock, Indent, Indicate;
      if first {
        IncreaseIndent(false, mapping && !pen.indention);
      }
      if events[0] == SequenceEnd {
        r := CloseBlockCollection();
        return;
      }
      PutIndent();
      PutIndicator(ITEM_MARK, true, false, true);
      PushNext(BlockSequenceItemState);
      r := EmitNode(false, false);
    }

    method EmitBlockMappingKey(first: bool) returns (r: Result)
      requires events != []
      modifies this`state, this`states, this`indent, this`indents, this`mapping, this`pen, this`text
      ensures Does(Emitting.EmitBlockMappingKey(cfg, old(Value()), events, first), r)
    {
      hide Emitting.EmitNode, Deeper, CloseBlock, Indent, Indicate, SimpleKeyAhead;
      if first {
        IncreaseIndent(false, false);
      }
      if events[0] == MappingEnd {
        r := CloseBlockCollection();
        return;
      }
      PutIndent();
      if SimpleKeyAhead(cfg, directives, events) {
        PushNext(BlockMappingSimpleValueState);
        r := EmitNode(true, true);
      } else {
        PutIndicator(KEY_MARK, true, false, true);
        PushNext(BlockMappingValueState);
        r := EmitNode(true, false);
      }
    }

    method EmitBlockMappingValue(simple: bool) returns (r: Result)
      requires events != []
      modifies this`state, this`states, this`indent, this`indents, this`mapping, this`pen, this`text
      ensures Does(Emitting.EmitBlockMappingValue(cfg, old(Value()), events, simple), r)
    {
      hide Emitting.EmitNode, Indent, Indicate;
      if simple {
        PutIndicator(VALUE_MARK, false, false, false);
      } else {
        PutIndent();
        PutIndicator(VALUE_MARK, true, false, true);
      }
      PushNext(BlockMappingKeyState);
      r := EmitNode(true, false);
    }

    /** The dispatcher on the current state. */
    method Step() returns (r: Result)
      requires events != []
      modifies this`state, this`states, this`indent, this`indents, this`flowLevel, this`mapping, this`directives, this`openEnded, this`pen, this`text
      ensures Does(Process(cfg, old(Value()), events), r)
    {
      hide Emitting.EmitNode, Emitting.EmitStreamStart, Emitting.EmitDocumentStart, Emitting.EmitDocumentEnd,
           Emitting.EmitFlowSequenceItem, Emitting.EmitFlowMappingKey, Emitting.EmitFlowMappingValue,
           Emitting.EmitBlockSequenceItem, Emitting.EmitBlockMappingKey, Emitting.EmitBlockMappingValue;
      match state
      case StreamStartState => r := EmitStreamStart();
      case FirstDocumentStartState => r := EmitDocumentStart(true);
      case DocumentStartState => r := EmitDocumentStart(false);
      case DocumentContentState =>
        openEnded := cfg.plainRoot(events[0], directives);
        PushNext(DocumentEndState);
        r := EmitNode(false, false);
      case DocumentEndState => r := EmitDocumentEnd();
      case FlowSequenceFirstItemState => r := EmitFlowSequenceItem(true);
      case FlowSequenceItemState => r := EmitFlowSequenceItem(false);
      case FlowMappingFirstKeyState => r := EmitFlowMappingKey(true);
      case FlowMappingKeyState => r := EmitFlowMappingKey(false);
      case FlowMappingSimpleValueState => r := EmitFlowMappingValue(true);
      case FlowMappingValueState => r := EmitFlowMappingValue(false);
      case BlockSequenceFirstItemState => r := EmitBlockSequenceItem(true);
      case BlockSequenceItemState => r := EmitBlockSequenceItem(false);
      case BlockMappingFirstKeyState => r := EmitBlockMappingKey(true);
      case BlockMappingKeyState => r := EmitBlockMappingKey(false);
      case BlockMappingSimpleValueState => r := EmitBlockMappingValue(true);
      case BlockMappingValueState => r := EmitBlockMappingValue(false);
      case EndState => r := Error;
    }

    // ----- The queue

    /** Whether the head of the queue has to wait for more events. */
    method NeedMoreEvents() returns (more: bool)
      ensures more == NeedsMore(events)
    {
      if events == [] {
        return true;
      }
      var accumulate := Lookahead(events[0]);
      if accumulate == None {
        return false;
      }
      if |events| > accumulate.value {
        return false;
      }
      var level, k := 0, 0;
      while k < |events|
        invariant 0 <= k <= |events|
        invariant Closes(0, events) == Closes(level, events[k..])
      {
        assert events[k..][1..] == events[k + 1..];
        level := level + LevelChange(events[k]);
        if level == 0 {
          return false;
        }
        k := k + 1;
      }
      return true;
    }

    /** Takes an event and emits what can be emitted. */
    method Emit(e: Event) returns (r: Result)
      modifies this
      ensures match Drain(cfg, old(Value()), old(events) + [e])
        case Queued(s, queue) => r == Ok && Value() == s && events == queue
        case Stopped(outcome) => r == if outcome == Underflow then Underflown else Error
    {
      hide Process, NeedsMore;
      events := events + [e];
      ghost var s, queue := Value(), events;
      var more := NeedMoreEvents();
      while !more
        invariant Drain(cfg, s, queue) == Drain(cfg, Value(), events) && more == NeedsMore(events)
        decreases |events|
      {
        EmitterQueue.SomethingThere(events);
        r := Step();
        if r != Ok {
          return;
        }
        events := events[1..];
        more := NeedMoreEvents();
      }
      return Ok;
    }
  }
}
