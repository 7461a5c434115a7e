/**
  The emitter's state machine (emitter.c, yaml_emitter_emit and the state functions): a queue
  of events that is looked ahead into, stacks of states and indents, and the indicators and
  indents that are written.

  What is written for an anchor, a tag, a directive or a scalar, and whether they are short
  enough for a simple key, is given by the configuration.
 */
module Emitting {
  import opened Chars
  import opened Options
  import opened Printing
  import opened Events

  datatype State =
    | StreamStartState
    | FirstDocumentStartState
    | DocumentStartState
    | DocumentContentState
    | DocumentEndState
    | FlowSequenceFirstItemState
    | FlowSequenceItemState
    | FlowMappingFirstKeyState
    | FlowMappingKeyState
    | FlowMappingSimpleValueState
    | FlowMappingValueState
    | BlockSequenceFirstItemState
    | BlockSequenceItemState
    | BlockMappingFirstKeyState
    | BlockMappingKeyState
    | BlockMappingSimpleValueState
    | BlockMappingValueState
    | EndState

  /** Where a node stands, and the document's tag directives: for what is written for its properties and its value. */
  datatype Place = Place(level: int, flow: bool, simpleKey: bool, directives: seq<TagDirective>)

  datatype Config = Config(settings: Settings, canonical: bool,
                           valid: Event -> bool,
                           fitsKey: (Event, seq<TagDirective>) -> bool,
                           plainRoot: (Event, seq<TagDirective>) -> bool,
                           content: (Event, Place, Pen) -> Ink)

  /**
    What has been written, and what decides how to go on writing. A document with a plain scalar
    at its root is open-ended until a marker is written; nothing inside a document asks for that.
   */
  datatype Writer = Writer(indent: int, flowLevel: int, mapping: bool, directives: seq<TagDirective>, openEnded: bool,
                           pen: Pen, text: Text)

  datatype Emitter = Emitter(state: State, states: seq<State>, indents: seq<int>, w: Writer)

  datatype Outcome =
    | Emitted(emitter: Emitter)
    | Failed     // an emitter error
    | Underflow  // a pop from an empty stack

  function Start(): Emitter {
    Emitter(StreamStartState, [], [], Writer(0, 0, false, [], false, Pen(0, false, false), []))
  }

  // ----- Lookahead

  function LevelChange(e: Event): int {
    match e
    case StreamStart => 1
    case DocumentStart(_, _, _) => 1
    case SequenceStart(_, _, _, _) => 1
    case MappingStart(_, _, _, _) => 1
    case StreamEnd => -1
    case DocumentEnd(_) => -1
    case SequenceEnd => -1
    case MappingEnd => -1
    case _ => 0
  }

  /** Whether the nesting comes back to zero, counted on from a level. */
  predicate Closes(level: int, events: seq<Event>)
    decreases |events|
  {
    events != [] && (level + LevelChange(events[0]) == 0 || Closes(level + LevelChange(events[0]), events[1..]))
  }

  /** How many events must be there behind the head. */
  function Lookahead(e: Event): Option<nat> {
    match e
    case DocumentStart(_, _, _) => Some(1)
    case SequenceStart(_, _, _, _) => Some(2)
    case MappingStart(_, _, _, _) => Some(3)
    case _ => None
  }

  predicate NeedsMore(queue: seq<Event>) {
    if queue == [] then true
    else if Lookahead(queue[0]) == None then false
    else |queue| <= Lookahead(queue[0]).value && !Closes(0, queue)
  }

  predicate EmptySequenceAhead(queue: seq<Event>) {
    |queue| >= 2 && queue[0].SequenceStart? && queue[1] == SequenceEnd
  }

  predicate EmptyMappingAhead(queue: seq<Event>) {
    |queue| >= 2 && queue[0].MappingStart? && queue[1] == MappingEnd
  }

  /** Whether the next node can be a simple key. */
  predicate SimpleKeyAhead(cfg: Config, d: seq<TagDirective>, queue: seq<Event>)
    requires queue != []
  {
    match queue[0]
    case AliasEvent(_) => cfg.fitsKey(queue[0], d)
    case ScalarEvent(_, _, _, _, _, _) => cfg.fitsKey(queue[0], d)
    case SequenceStart(_, _, _, _) => EmptySequenceAhead(queue) && cfg.fitsKey(queue[0], d)
    case MappingStart(_, _, _, _) => EmptyMappingAhead(queue) && cfg.fitsKey(queue[0], d)
    case _ => false
  }

  // ----- Writing and the stacks

  function Write(w: Writer, ink: Ink): Writer {
    w.(pen := ink.pen, text := w.text + ink.text)
  }

  /** An anchor, a tag, a value or directives. */
  function WriteContent(cfg: Config, w: Writer, e: Event, level: int, simpleKey: bool): Writer {
    Write(w, cfg.content(e, Place(level, w.flowLevel > 0, simpleKey, w.directives), w.pen))
  }

  function Indicate(w: Writer, text: Text, needWhitespace: bool, isWhitespace: bool, isIndention: bool): Writer {
    Write(w, WriteIndicator(text, needWhitespace, isWhitespace, isIndention, w.pen))
  }

  function Indent(cfg: Config, w: Writer): Writer {
    Write(w, WriteIndent(cfg.settings, w.indent, w.pen))
  }

  /** In flow collections a line that is too long is broken before an item. */
  function IndentIfLong(cfg: Config, w: Writer): Writer {
    if cfg.canonical || w.pen.column > cfg.settings.bestWidth then Indent(cfg, w) else w
  }

  /** The level inside a collection or for a scalar. */
  function Deepened(cfg: Config, w: Writer, flow: bool, indentless: bool): Writer {
    w.(indent := IncreasedIndent(cfg.settings, w.indent, flow, indentless))
  }

  function Deeper(cfg: Config, s: Emitter, flow: bool, indentless: bool): Emitter {
    s.(indents := s.indents + [s.w.indent], w := Deepened(cfg, s.w, flow, indentless))
  }

  function PushState(s: Emitter, state: State): Emitter {
    s.(states := s.states + [state])
  }

  function PopState(s: Emitter): Outcome {
    if s.states == [] then Underflow
    else Emitted(s.(state := s.states[|s.states| - 1], states := s.states[..|s.states| - 1]))
  }

  function PopIndent(s: Emitter): Outcome {
    if s.indents == [] then Underflow
    else Emitted(s.(w := s.w.(indent := s.indents[|s.indents| - 1]), indents := s.indents[..|s.indents| - 1]))
  }

  // The indicators.
  const OPEN_SEQUENCE: Text := [0x5B]
  const CLOSE_SEQUENCE: Text := [0x5D]
  const OPEN_MAPPING: Text := [0x7B]
  const CLOSE_MAPPING: Text := [0x7D]
  const NEXT_ITEM: Text := [0x2C]
  const VALUE_MARK: Text := [0x3A]
  const KEY_MARK: Text := [0x3F]
  const ITEM_MARK: Text := [0x2D]
  const START_MARK: Text := [0x2D, 0x2D, 0x2D]
  const END_MARK: Text := [0x2E, 0x2E, 0x2E]

  // ----- Streams and documents

  function EmitStreamStart(cfg: Config, s: Emitter, e: Event): Outcome {
    if e != StreamStart then Failed
    else Emitted(s.(w := s.w.(indent := -1, pen := Pen(0, true, true)), state := FirstDocumentStartState))
  }

  /** The marker that ends an open-ended document. */
  function EndOpen(cfg: Config, w: Writer): Writer {
    if w.openEnded then Indent(cfg, Indicate(w, END_MARK, true, false, false)).(openEnded := false) else w
  }

  /** Directives, and the start marker unless the document is implicit. */
  function WriteDocumentStart(cfg: Config, w: Writer, e: Event, first: bool): Writer
    requires e.DocumentStart?
  {
    var w0 := if e.version.Some? || e.directives != [] then EndOpen(cfg, w) else w;
    var w1 := WriteContent(cfg, w0, e, w0.indent, false);
    if e.implicit && first && !cfg.canonical && e.version == None && e.directives == [] then w1
    else
      var w2 := Indicate(Indent(cfg, w1), START_MARK, true, false, false);
      if cfg.canonical then Indent(cfg, w2) else w2
  }

  function EmitDocumentStart(cfg: Config, s: Emitter, e: Event, first: bool): Outcome {
    match e
    case DocumentStart(_, _, _) =>
      if !cfg.valid(e) then Failed
      else Emitted(s.(w := WriteDocumentStart(cfg, s.w, e, first).(directives := AddDefaults(e.directives)), state := DocumentContentState))
    case StreamEnd => Emitted(s.(w := EndOpen(cfg, s.w), state := EndState))
    case _ => Failed
  }

  function EmitDocumentEnd(cfg: Config, s: Emitter, e: Event): Outcome {
    match e
    case DocumentEnd(implicit) =>
      var w := Indent(cfg, s.w.(directives := []));
      Emitted(s.(w := if implicit then w else Indent(cfg, Indicate(w, END_MARK, true, false, false)).(openEnded := false),
                 state := DocumentStartState))
    case _ => Failed
  }

  // ----- Nodes

  predicate IsFlow(cfg: Config, w: Writer, style: nat, empty: bool) {
    w.flowLevel != 0 || cfg.canonical || style == FLOW_STYLE || empty
  }

  predicate StartsNode(e: Event) {
    e.AliasEvent? || e.ScalarEvent? || e.SequenceStart? || e.MappingStart?
  }

  /** A scalar is written one level deeper. */
  function EmitScalar(cfg: Config, s: Emitter, e: Event, simpleKey: bool): Outcome {
    var deeper := Deeper(cfg, s, true, false);
    match PopIndent(deeper.(w := WriteContent(cfg, deeper.w, e, deeper.w.indent, simpleKey)))
    case Emitted(s') => PopState(s')
    case other => other
  }

  function EmitNode(cfg: Config, s: Emitter, queue: seq<Event>, mapping: bool, simpleKey: bool): Outcome
    requires queue != []
  {
    var e, w := queue[0], s.w.(mapping := mapping);
    if !StartsNode(e) || !cfg.valid(e) then Failed
    else
      match e
      case AliasEvent(_) => PopState(s.(w := WriteContent(cfg, w, e, w.indent, simpleKey)))
      case ScalarEvent(_, _, _, _, _, _) => EmitScalar(cfg, s.(w := w), e, simpleKey)
      case SequenceStart(_, _, _, style) =>
        var state := if IsFlow(cfg, w, style, EmptySequenceAhead(queue)) then FlowSequenceFirstItemState else BlockSequenceFirstItemState;
        Emitted(s.(w := WriteContent(cfg, w, e, w.indent, simpleKey), state := state))
      case MappingStart(_, _, _, style) =>
        var state := if IsFlow(cfg, w, style, EmptyMappingAhead(queue)) then FlowMappingFirstKeyState else BlockMappingFirstKeyState;
        Emitted(s.(w := WriteContent(cfg, w, e, w.indent, simpleKey), state := state))
  }

  // ----- Collections

  /** The opening indicator of a flow collection, and its level. */
  function OpenFlow(cfg: Config, s: Emitter, indicator: Text): Emitter {
    var s' := Deeper(cfg, s.(w := Indicate(s.w, indicator, true, true, false)), true, false);
    s'.(w := s'.w.(flowLevel := s'.w.flowLevel + 1))
  }

  /** The closing indicator, in canonical output behind a last comma. */
  function WriteFlowEnd(cfg: Config, w: Writer, indicator: Text, first: bool): Writer {
    var w' := if cfg.canonical && !first then Indent(cfg, Indicate(w, NEXT_ITEM, false, false, false)) else w;
    Indicate(w', indicator, false, false, false)
  }

  /** The end of a flow collection: the level is left, and the closing indicator written. */
  function CloseFlow(cfg: Config, s: Emitter, indicator: Text, first: bool): Outcome {
    match PopIndent(s.(w := s.w.(flowLevel := s.w.flowLevel - 1)))
    case Emitted(s') => PopState(s'.(w := WriteFlowEnd(cfg, s'.w, indicator, first)))
    case other => other
  }

  function CloseBlock(s: Emitter): Outcome {
    match PopIndent(s)
    case Emitted(s') => PopState(s')
    case other => other
  }

  /** A comma behind the last item, and a new line if the line is too long. */
  function NextFlowItem(cfg: Config, w: Writer, first: bool): Writer {
    IndentIfLong(cfg, if first then w else Indicate(w, NEXT_ITEM, false, false, false))
  }

  function EmitFlowSequenceItem(cfg: Config, s: Emitter, queue: seq<Event>, first: bool): Outcome
    requires queue != []
  {
    FlowSequenceItem(cfg, if first then OpenFlow(cfg, s, OPEN_SEQUENCE) else s, queue, first)
  }

  /** Inside the collection. */
  function FlowSequenceItem(cfg: Config, s: Emitter, queue: seq<Event>, first: bool): Outcome
    requires queue != []
  {
    if queue[0] == SequenceEnd then CloseFlow(cfg, s, CLOSE_SEQUENCE, first)
    else EmitNode(cfg, PushState(s.(w := NextFlowItem(cfg, s.w, first)), FlowSequenceItemState), queue, false, false)
  }

  /** What is written before a key of a flow mapping. */
  function BeforeFlowKey(cfg: Config, w: Writer, first: bool, simple: bool): Writer {
    var w' := NextFlowItem(cfg, w, first);
    if simple then w' else Indicate(w', KEY_MARK, true, false, false)
  }

  function EmitFlowMappingKey(cfg: Config, s: Emitter, queue: seq<Event>, first: bool): Outcome
    requires queue != []
  {
    FlowMappingKey(cfg, if first then OpenFlow(cfg, s, OPEN_MAPPING) else s, queue, first)
  }

  function FlowMappingKey(cfg: Config, s: Emitter, queue: seq<Event>, first: bool): Outcome
    requires queue != []
  {
    if queue[0] == MappingEnd then CloseFlow(cfg, s, CLOSE_MAPPING, first)
    else
      var simple := !cfg.canonical && SimpleKeyAhead(cfg, s.w.directives, queue);
      var next := if simple then FlowMappingSimpleValueState else FlowMappingValueState;
      EmitNode(cfg, PushState(s.(w := BeforeFlowKey(cfg, s.w, first, simple)), next), queue, true, simple)
  }

  function BeforeFlowValue(cfg: Config, w: Writer, simple: bool): Writer {
    if simple then Indicate(w, VALUE_MARK, false, false, false) else Indicate(IndentIfLong(cfg, w), VALUE_MARK, true, false, false)
  }

  function EmitFlowMappingValue(cfg: Config, s: Emitter, queue: seq<Event>, simple: bool): Outcome
    requires queue != []
  {
    EmitNode(cfg, PushState(s.(w := BeforeFlowValue(cfg, s.w, simple)), FlowMappingKeyState), queue, true, false)
  }

  /** Whether the items of a block sequence are not indented: inside a mapping, behind its ':'. */
  predicate Indentless(w: Writer) {
    w.mapping && !w.pen.indention
  }

  function BeforeBlockItem(cfg: Config, w: Writer): Writer {
    Indicate(Indent(cfg, w), ITEM_MARK, true, false, true)
  }

  function EmitBlockSequenceItem(cfg: Config, s: Emitter, queue: seq<Event>, first: bool): Outcome
    requires queue != []
  {
    BlockSequenceItem(cfg, if first then Deeper(cfg, s, false, Indentless(s.w)) else s, queue)
  }

  function BlockSequenceItem(cfg: Config, s: Emitter, queue: seq<Event>): Outcome
    requires queue != []
  {
    if queue[0] == SequenceEnd then CloseBlock(s)
    else EmitNode(cfg, PushState(s.(w := BeforeBlockItem(cfg, s.w)), BlockSequenceItemState), queue, false, false)
  }

  function BeforeBlockKey(cfg: Config, w: Writer, simple: bool): Writer {
    var w' := Indent(cfg, w);
    if simple then w' else Indicate(w', KEY_MARK, true, false, true)
  }

  function EmitBlockMappingKey(cfg: Config, s: Emitter, queue: seq<Event>, first: bool): Outcome
    requires queue != []
  {
    BlockMappingKey(cfg, if first then Deeper(cfg, s, false, false) else s, queue)
  }

  function BlockMappingKey(cfg: Config, s: Emitter, queue: seq<Event>): Outcome
    requires queue != []
  {
    if queue[0] == MappingEnd then CloseBlock(s)
    else
      var simple := SimpleKeyAhead(cfg, s.w.directives, queue);
      var next := if simple then BlockMappingSimpleValueState else BlockMappingValueState;
      EmitNode(cfg, PushState(s.(w := BeforeBlockKey(cfg, s.w, simple)), next), queue, true, simple)
  }

  function BeforeBlockValue(cfg: Config, w: Writer, simple: bool): Writer {
    if simple then Indicate(w, VALUE_MARK, false, false, false) else Indicate(Indent(cfg, w), VALUE_MARK, true, false, true)
  }

  function EmitBlockMappingValue(cfg: Config, s: Emitter, queue: seq<Event>, simple: bool): Outcome
    requires queue != []
  {
    EmitNode(cfg, PushState(s.(w := BeforeBlockValue(cfg, s.w, simple)), BlockMappingKeyState), queue, true, false)
  }

  /** The root node decides whether the document is open-ended. */
  function AtRoot(cfg: Config, s: Emitter, e: Event): Emitter {
    s.(w := s.w.(openEnded := cfg.plainRoot(e, s.w.directives)))
  }

  /** The dispatcher: emits the head of the queue. */
  function Process(cfg: Config, s: Emitter, queue: seq<Event>): Outcome
    requires queue != []
  {
    match s.state
    case StreamStartState => EmitStreamStart(cfg, s, queue[0])
    case FirstDocumentStartState => EmitDocumentStart(cfg, s, queue[0], true)
    case DocumentStartState => EmitDocumentStart(cfg, s, queue[0], false)
    case DocumentContentState => EmitNode(cfg, PushState(AtRoot(cfg, s, queue[0]), DocumentEndState), queue, false, false)
    case DocumentEndState => EmitDocumentEnd(cfg, s, queue[0])
    case FlowSequenceFirstItemState => EmitFlowSequenceItem(cfg, s, queue, true)
    case FlowSequenceItemState => EmitFlowSequenceItem(cfg, s, queue, false)
    case FlowMappingFirstKeyState => EmitFlowMappingKey(cfg, s, queue, true)
    case FlowMappingKeyState => EmitFlowMappingKey(cfg, s, queue, false)
    case FlowMappingSimpleValueState => EmitFlowMappingValue(cfg, s, queue, true)
    case FlowMappingValueState => EmitFlowMappingValue(cfg, s, queue, false)
    case BlockSequenceFirstItemState => EmitBlockSequenceItem(cfg, s, queue, true)
    case BlockSequenceItemState => EmitBlockSequenceItem(cfg, s, queue, false)
    case BlockMappingFirstKeyState => EmitBlockMappingKey(cfg, s, queue, true)
    case BlockMappingKeyState => EmitBlockMappingKey(cfg, s, queue, false)
    case BlockMappingSimpleValueState => EmitBlockMappingValue(cfg, s, queue, true)
    case BlockMappingValueState => EmitBlockMappingValue(cfg, s, queue, false)
    case EndState => Failed
  }

  // ----- The queue

  /** The emitter and the events it waits with. */
  datatype Queued = Queued(emitter: Emitter, queue: seq<Event>) | Stopped(outcome: Outcome)

  /** Emits from the queue until more events are needed. */
  function Drain(cfg: Config, s: Emitter, queue: seq<Event>): Queued
    decreases |queue|
  {
    if NeedsMore(queue) then Queued(s, queue)
    else
      match Process(cfg, s, queue)
      case Emitted(s') => Drain(cfg, s', queue[1..])
      case other => Stopped(other)
  }

  /** All of a word of events, one after another, as yaml_emitter_emit takes them. */
  function EmitAll(cfg: Config, s: Emitter, queue: seq<Event>, events: seq<Event>): Queued
    decreases |events|
  {
    if events == [] then Queued(s, queue)
    else
      match Drain(cfg, s, queue + [events[0]])
      case Queued(s', queue') => EmitAll(cfg, s', queue', events[1..])
      case stopped => stopped
  }

  /** The same with all of the events in view from the start. */
  function ProcessAll(cfg: Config, s: Emitter, events: seq<Event>): Outcome
    decreases |events|
  {
    if events == [] then Emitted(s)
    else
      match Process(cfg, s, events)
      case Emitted(s') => ProcessAll(cfg, s', events[1..])
      case other => other
  }
}
