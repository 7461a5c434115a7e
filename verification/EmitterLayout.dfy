/**
  The emitter's machine against a printer of trees that has no stacks: for the events of every
  tree, whatever comes behind them, the machine writes what the recursive printer writes, and
  afterwards its stacks, its indentation and its flow level are what they were before.
 */
module EmitterLayout {
  import opened Options
  import opened Printing
  import opened Events
  import opened Emitting

  datatype Tree =
    | Leaf(event: Event)
    | SequenceTree(start: Event, items: Items)
    | MappingTree(start: Event, pairs: Pairs)

  datatype Items = NoItems | MoreItems(item: Tree, rest: Items)

  datatype Pairs = NoPairs | MorePairs(key: Tree, value: Tree, rest: Pairs)

  /** The events are of the right types, and valid. */
  predicate Proper(cfg: Config, t: Tree) {
    match t
    case Leaf(event) => (event.AliasEvent? || event.ScalarEvent?) && cfg.valid(event)
    case SequenceTree(start, items) => start.SequenceStart? && cfg.valid(start) && ProperItems(cfg, items)
    case MappingTree(start, pairs) => start.MappingStart? && cfg.valid(start) && ProperPairs(cfg, pairs)
  }

  predicate ProperItems(cfg: Config, items: Items) {
    match items
    case NoItems => true
    case MoreItems(item, rest) => Proper(cfg, item) && ProperItems(cfg, rest)
  }

  predicate ProperPairs(cfg: Config, pairs: Pairs) {
    match pairs
    case NoPairs => true
    case MorePairs(key, value, rest) => Proper(cfg, key) && Proper(cfg, value) && ProperPairs(cfg, rest)
  }

  // ----- The events of a tree, in front of what comes behind

  function EventsThen(t: Tree, rest: seq<Event>): (r: seq<Event>)
    ensures |r| > |rest|
  {
    match t
    case Leaf(event) => [event] + rest
    case SequenceTree(start, items) => [start] + ItemsThen(items, rest)
    case MappingTree(start, pairs) => [start] + PairsThen(pairs, rest)
  }

  function ItemsThen(items: Items, rest: seq<Event>): (r: seq<Event>)
    ensures |r| > |rest|
  {
    match items
    case NoItems => [SequenceEnd] + rest
    case MoreItems(item, more) => EventsThen(item, ItemsThen(more, rest))
  }

  function PairsThen(pairs: Pairs, rest: seq<Event>): (r: seq<Event>)
    ensures |r| > |rest|
  {
    match pairs
    case NoPairs => [MappingEnd] + rest
    case MorePairs(key, value, more) => EventsThen(key, EventsThen(value, PairsThen(more, rest)))
  }

  // ----- The printer

  predicate IsEmpty(t: Tree) {
    match t
    case Leaf(_) => false
    case SequenceTree(_, items) => items == NoItems
    case MappingTree(_, pairs) => pairs == NoPairs
  }

  /** Leaves and empty collections that are short enough. */
  predicate IsSimpleKey(cfg: Config, d: seq<TagDirective>, t: Tree) {
    match t
    case Leaf(event) => cfg.fitsKey(event, d)
    case SequenceTree(start, _) => IsEmpty(t) && cfg.fitsKey(start, d)
    case MappingTree(start, _) => IsEmpty(t) && cfg.fitsKey(start, d)
  }

  /** Back on the outer level, the rest as inside. */
  function Outside(inner: Writer, outer: Writer): Writer {
    inner.(indent := outer.indent, flowLevel := outer.flowLevel)
  }

  /** Prints a node; only text is added, and the pen and the context flag move on. */
  function Print(cfg: Config, t: Tree, w: Writer, mapping: bool, simpleKey: bool): (r: Writer)
    ensures r.indent == w.indent && r.flowLevel == w.flowLevel
    decreases t, 1
  {
    var w := w.(mapping := mapping);
    match t
    case Leaf(event) =>
      var level := if event.ScalarEvent? then IncreasedIndent(cfg.settings, w.indent, true, false) else w.indent;
      WriteContent(cfg, w, event, level, simpleKey)
    case SequenceTree(start, items) =>
      var w' := WriteContent(cfg, w, start, w.indent, simpleKey);
      if IsFlow(cfg, w, if start.SequenceStart? then start.style else BLOCK_STYLE, IsEmpty(t)) then
        var inner := InFlow(cfg, w', OPEN_SEQUENCE);
        WriteFlowEnd(cfg, Outside(PrintFlowItems(cfg, items, inner, true), w), CLOSE_SEQUENCE, items == NoItems)
      else
        Outside(PrintBlockItems(cfg, items, Deepened(cfg, w', false, Indentless(w'))), w)
    case MappingTree(start, pairs) =>
      var w' := WriteContent(cfg, w, start, w.indent, simpleKey);
      if IsFlow(cfg, w, if start.MappingStart? then start.style else BLOCK_STYLE, IsEmpty(t)) then
        var inner := InFlow(cfg, w', OPEN_MAPPING);
        WriteFlowEnd(cfg, Outside(PrintFlowPairs(cfg, pairs, inner, true), w), CLOSE_MAPPING, pairs == NoPairs)
      else
        Outside(PrintBlockPairs(cfg, pairs, Deepened(cfg, w', false, false)), w)
  }

  /** Behind the opening indicator, one level deeper. */
  function InFlow(cfg: Config, w: Writer, indicator: seq<int>): Writer
    requires indicator == OPEN_SEQUENCE || indicator == OPEN_MAPPING
  {
    var w' := Deepened(cfg, Indicate(w, indicator, true, true, false), true, false);
    w'.(flowLevel := w'.flowLevel + 1)
  }

  function PrintFlowItems(cfg: Config, items: Items, w: Writer, first: bool): (r: Writer)
    ensures r.indent == w.indent && r.flowLevel == w.flowLevel
    decreases items, 0
  {
    match items
    case NoItems => w
    case MoreItems(item, rest) => PrintFlowItems(cfg, rest, Print(cfg, item, NextFlowItem(cfg, w, first), false, false), false)
  }

  function PrintBlockItems(cfg: Config, items: Items, w: Writer): (r: Writer)
    ensures r.indent == w.indent && r.flowLevel == w.flowLevel
    decreases items, 0
  {
    match items
    case NoItems => w
    case MoreItems(item, rest) => PrintBlockItems(cfg, rest, Print(cfg, item, BeforeBlockItem(cfg, w), false, false))
  }

  function PrintFlowPairs(cfg: Config, pairs: Pairs, w: Writer, first: bool): (r: Writer)
    ensures r.indent == w.indent && r.flowLevel == w.flowLevel
    decreases pairs, 0
  {
    match pairs
    case NoPairs => w
    case MorePairs(key, value, rest) =>
      var simple := !cfg.canonical && IsSimpleKey(cfg, w.directives, key);
      var w1 := Print(cfg, key, BeforeFlowKey(cfg, w, first, simple), true, simple);
      PrintFlowPairs(cfg, rest, Print(cfg, value, BeforeFlowValue(cfg, w1, simple), true, false), false)
  }

  function PrintBlockPairs(cfg: Config, pairs: Pairs, w: Writer): (r: Writer)
    ensures r.indent == w.indent && r.flowLevel == w.flowLevel
    decreases pairs, 0
  {
    match pairs
    case NoPairs => w
    case MorePairs(key, value, rest) =>
      var simple := IsSimpleKey(cfg, w.directives, key);
      var w1 := Print(cfg, key, BeforeBlockKey(cfg, w, simple), true, simple);
      PrintBlockPairs(cfg, rest, Print(cfg, value, BeforeBlockValue(cfg, w1, simple), true, false))
  }

  // ----- Runs

  /** The machine goes over the events in front of `rest` and is then `last`. */
  predicate Reaches(cfg: Config, s: Emitter, all: seq<Event>, rest: seq<Event>, last: Emitter)
    decreases |all|, 1
  {
    if |all| <= |rest| then all == rest && s == last else Yields(cfg, Process(cfg, s, all), all, rest, last)
  }

  predicate Yields(cfg: Config, outcome: Outcome, all: seq<Event>, rest: seq<Event>, last: Emitter)
    requires all != []
    decreases |all|, 0
  {
    outcome.Emitted? && Reaches(cfg, outcome.emitter, all[1..], rest, last)
  }

  lemma {:induction false} YieldsThen(cfg: Config, outcome: Outcome, all: seq<Event>, middle: seq<Event>, s: Emitter,
                                      rest: seq<Event>, last: Emitter)
    requires all != [] && |all| > |middle| >= |rest|
    requires Yields(cfg, outcome, all, middle, s) && Reaches(cfg, s, middle, rest, last)
    ensures Yields(cfg, outcome, all, rest, last)
    decreases |all|
  {
    hide Process;
    if |all[1..]| > |middle| {
      YieldsThen(cfg, Process(cfg, outcome.emitter, all[1..]), all[1..], middle, s, rest, last);
    }
  }

  lemma YieldsOne(cfg: Config, e: Event, rest: seq<Event>, last: Emitter)
    ensures Yields(cfg, Emitted(last), [e] + rest, rest, last)
  {
    assert ([e] + rest)[1..] == rest;
  }

  /** One event, and then on from the state it leads to. */
  lemma OneThen(cfg: Config, e: Event, s: Emitter, tail: seq<Event>, rest: seq<Event>, last: Emitter)
    requires |tail| > |rest| && Yields(cfg, Process(cfg, s, tail), tail, rest, last)
    ensures Yields(cfg, Emitted(s), [e] + tail, rest, last)
  {
    hide Process;
    assert ([e] + tail)[1..] == tail;
  }

  /** Returned to the state on the stack, with this written. */
  function Returned(s: Emitter, w: Writer): Emitter
    requires s.states != []
  {
    Emitter(s.states[|s.states| - 1], s.states[..|s.states| - 1], s.indents, w)
  }

  lemma PushedReturns(s: Emitter, state: State, w: Writer)
    ensures PushState(s, state).states != [] && Returned(PushState(s, state), w) == s.(state := state, w := w)
  {
  }

  // ----- Nodes

  lemma EventsStart(t: Tree, rest: seq<Event>, cfg: Config, d: seq<TagDirective>)
    requires Proper(cfg, t)
    ensures var all := EventsThen(t, rest);
      && StartsNode(all[0]) && cfg.valid(all[0]) && all[0] != SequenceEnd && all[0] != MappingEnd
      && EmptySequenceAhead(all) == (t.SequenceTree? && IsEmpty(t))
      && EmptyMappingAhead(all) == (t.MappingTree? && IsEmpty(t))
      && SimpleKeyAhead(cfg, d, all) == IsSimpleKey(cfg, d, t)
  {
    match t {
      case Leaf(_) =>
      case SequenceTree(start, items) =>
        var all := EventsThen(t, rest);
        assert all[1..] == ItemsThen(items, rest);
        assert all[1] == all[1..][0];
        ItemsStart(items, rest, cfg);
      case MappingTree(start, pairs) =>
        var all := EventsThen(t, rest);
        assert all[1..] == PairsThen(pairs, rest);
        assert all[1] == all[1..][0];
        PairsStart(pairs, rest, cfg);
    }
  }

  lemma FirstEvent(t: Tree, rest: seq<Event>, cfg: Config)
    requires Proper(cfg, t)
    ensures StartsNode(EventsThen(t, rest)[0])
  {
  }

  lemma ItemsStart(items: Items, rest: seq<Event>, cfg: Config)
    requires ProperItems(cfg, items)
    ensures ItemsThen(items, rest)[0] == SequenceEnd <==> items == NoItems
  {
    match items
    case NoItems =>
    case MoreItems(item, more) => FirstEvent(item, ItemsThen(more, rest), cfg);
  }

  lemma PairsStart(pairs: Pairs, rest: seq<Event>, cfg: Config)
    requires ProperPairs(cfg, pairs)
    ensures PairsThen(pairs, rest)[0] == MappingEnd <==> pairs == NoPairs
  {
    match pairs
    case NoPairs =>
    case MorePairs(key, value, more) => FirstEvent(key, EventsThen(value, PairsThen(more, rest)), cfg);
  }

  /** A node is printed, and the machine returns to its continuation. */
  lemma {:induction false} NodeIsPrinted(cfg: Config, t: Tree, s: Emitter, rest: seq<Event>, mapping: bool, simpleKey: bool)
    requires Proper(cfg, t) && s.states != []
    ensures Yields(cfg, EmitNode(cfg, s, EventsThen(t, rest), mapping, simpleKey), EventsThen(t, rest), rest,
                   Returned(s, Print(cfg, t, s.w, mapping, simpleKey)))
    decreases t, 1
  {
    hide Reaches, Yields, Process, EmitNode, Print, WriteContent, EventsThen;
    match t {
      case Leaf(event) =>
        LeafIsPrinted(cfg, event, s, rest, mapping, simpleKey);
      case SequenceTree(start, items) =>
        SequenceIsPrinted(cfg, start, items, s, rest, mapping, simpleKey);
      case MappingTree(start, pairs) =>
        MappingIsPrinted(cfg, start, pairs, s, rest, mapping, simpleKey);
    }
  }

  lemma LeafIsPrinted(cfg: Config, e: Event, s: Emitter, rest: seq<Event>, mapping: bool, simpleKey: bool)
    requires Proper(cfg, Leaf(e)) && s.states != []
    ensures Yields(cfg, EmitNode(cfg, s, EventsThen(Leaf(e), rest), mapping, simpleKey), EventsThen(Leaf(e), rest), rest,
                   Returned(s, Print(cfg, Leaf(e), s.w, mapping, simpleKey)))
  {
    hide Reaches, Yields, Process;
    var last := Returned(s, Print(cfg, Leaf(e), s.w, mapping, simpleKey));
    assert (s.indents + [s.w.indent])[..|s.indents|] == s.indents;
    assert EmitNode(cfg, s, [e] + rest, mapping, simpleKey) == Emitted(last);
    YieldsOne(cfg, e, rest, last);
  }

  /** A child from inside a collection, and then what comes from the state behind it. */
  lemma {:induction false} ChildThen(cfg: Config, t: Tree, s: Emitter, state: State, w: Writer, mapping: bool, simpleKey: bool,
                                     tail: seq<Event>, rest: seq<Event>, last: Emitter)
    requires Proper(cfg, t) && |tail| > |rest|
    requires var s' := s.(state := state, w := Print(cfg, t, w, mapping, simpleKey));
      Yields(cfg, Process(cfg, s', tail), tail, rest, last)
    ensures Yields(cfg, EmitNode(cfg, PushState(s.(w := w), state), EventsThen(t, tail), mapping, simpleKey), EventsThen(t, tail), rest, last)
    decreases t, 2
  {
    hide Reaches, Yields, Process, EmitNode, Print, EventsThen;
    var pushed := PushState(s.(w := w), state);
    var s' := s.(state := state, w := Print(cfg, t, w, mapping, simpleKey));
    PushedReturns(s.(w := w), state, s'.w);
    NodeIsPrinted(cfg, t, pushed, tail, mapping, simpleKey);
    ReachesByStep(cfg, s', tail, rest, last);
    YieldsThen(cfg, EmitNode(cfg, pushed, EventsThen(t, tail), mapping, simpleKey), EventsThen(t, tail), tail, s', rest, last);
  }

  lemma ReachesByStep(cfg: Config, s: Emitter, all: seq<Event>, rest: seq<Event>, last: Emitter)
    requires |all| > |rest| && Yields(cfg, Process(cfg, s, all), all, rest, last)
    ensures Reaches(cfg, s, all, rest, last)
  {
  }

  // ----- Collections, from inside

  /** The machine after the end of a flow collection in which this was written. */
  function FlowLeft(cfg: Config, s: Emitter, w: Writer, indicator: seq<int>, empty: bool): Emitter
    requires s.states != [] && s.indents != [] && (indicator == CLOSE_SEQUENCE || indicator == CLOSE_MAPPING)
  {
    var outer := w.(indent := s.indents[|s.indents| - 1], flowLevel := w.flowLevel - 1);
    Emitter(s.states[|s.states| - 1], s.states[..|s.states| - 1], s.indents[..|s.indents| - 1], WriteFlowEnd(cfg, outer, indicator, empty))
  }

  function BlockLeft(s: Emitter, w: Writer): Emitter
    requires s.states != [] && s.indents != []
  {
    Emitter(s.states[|s.states| - 1], s.states[..|s.states| - 1], s.indents[..|s.indents| - 1], w.(indent := s.indents[|s.indents| - 1]))
  }

  lemma FlowEnds(cfg: Config, s: Emitter, rest: seq<Event>, first: bool)
    requires s.states != [] && s.indents != []
    ensures Yields(cfg, FlowSequenceItem(cfg, s, [SequenceEnd] + rest, first), [SequenceEnd] + rest, rest,
                   FlowLeft(cfg, s, s.w, CLOSE_SEQUENCE, first))
    ensures Yields(cfg, FlowMappingKey(cfg, s, [MappingEnd] + rest, first), [MappingEnd] + rest, rest,
                   FlowLeft(cfg, s, s.w, CLOSE_MAPPING, first))
  {
    hide Reaches, Yields, EmitNode, WriteFlowEnd;
    YieldsOne(cfg, SequenceEnd, rest, FlowLeft(cfg, s, s.w, CLOSE_SEQUENCE, first));
    YieldsOne(cfg, MappingEnd, rest, FlowLeft(cfg, s, s.w, CLOSE_MAPPING, first));
  }

  lemma FlowItemGoesOn(cfg: Config, item: Tree, s: Emitter, tail: seq<Event>, first: bool)
    requires Proper(cfg, item)
    ensures FlowSequenceItem(cfg, s, EventsThen(item, tail), first)
      == EmitNode(cfg, PushState(s.(w := NextFlowItem(cfg, s.w, first)), FlowSequenceItemState), EventsThen(item, tail), false, false)
  {
    hide EmitNode, EventsThen;
    EventsStart(item, tail, cfg, s.w.directives);
  }

  lemma {:induction false} FlowItemsArePrinted(cfg: Config, items: Items, s: Emitter, rest: seq<Event>, first: bool)
    requires ProperItems(cfg, items) && s.states != [] && s.indents != []
    ensures Yields(cfg, FlowSequenceItem(cfg, s, ItemsThen(items, rest), first), ItemsThen(items, rest), rest,
                   FlowLeft(cfg, s, PrintFlowItems(cfg, items, s.w, first), CLOSE_SEQUENCE, first && items == NoItems))
    decreases items, 0
  {
    hide Reaches, Yields, Process, EmitNode, Print, WriteContent, EventsThen, WriteFlowEnd, FlowLeft, FlowSequenceItem, NextFlowItem;
    var last := FlowLeft(cfg, s, PrintFlowItems(cfg, items, s.w, first), CLOSE_SEQUENCE, first && items == NoItems);
    match items {
      case NoItems => FlowEnds(cfg, s, rest, first);
      case MoreItems(item, more) =>
        var tail := ItemsThen(more, rest);
        var w := NextFlowItem(cfg, s.w, first);
        var s' := s.(state := FlowSequenceItemState, w := Print(cfg, item, w, false, false));
        FlowItemsArePrinted(cfg, more, s', rest, false);
        LeavesTheSame(cfg, s, s', PrintFlowItems(cfg, items, s.w, first), CLOSE_SEQUENCE, false);
        Dispatch(cfg, s', tail);
        ChildThen(cfg, item, s, FlowSequenceItemState, w, false, false, tail, rest, last);
        FlowItemGoesOn(cfg, item, s, tail, first);
    }
  }

  lemma LeavesTheSame(cfg: Config, s: Emitter, s': Emitter, w: Writer, indicator: seq<int>, empty: bool)
    requires s.states != [] && s.indents != [] && s'.states == s.states && s'.indents == s.indents
    requires indicator == CLOSE_SEQUENCE || indicator == CLOSE_MAPPING
    ensures FlowLeft(cfg, s', w, indicator, empty) == FlowLeft(cfg, s, w, indicator, empty)
  {
  }

  lemma {:induction false} BlockItemsArePrinted(cfg: Config, items: Items, s: Emitter, rest: seq<Event>)
    requires ProperItems(cfg, items) && s.states != [] && s.indents != []
    ensures Yields(cfg, BlockSequenceItem(cfg, s, ItemsThen(items, rest)), ItemsThen(items, rest), rest,
                   BlockLeft(s, PrintBlockItems(cfg, items, s.w)))
    decreases items, 0
  {
    hide Reaches, Yields, Process, EmitNode, Print, WriteContent, EventsThen, WriteFlowEnd;
    var last := BlockLeft(s, PrintBlockItems(cfg, items, s.w));
    match items {
      case NoItems => YieldsOne(cfg, SequenceEnd, rest, last);
      case MoreItems(item, more) =>
        var tail := ItemsThen(more, rest);
        var w := BeforeBlockItem(cfg, s.w);
        var s' := s.(state := BlockSequenceItemState, w := Print(cfg, item, w, false, false));
        BlockItemsArePrinted(cfg, more, s', rest);
        Dispatch(cfg, s', tail);
        ChildThen(cfg, item, s, BlockSequenceItemState, w, false, false, tail, rest, last);
        EventsStart(item, tail, cfg, s.w.directives);
    }
  }

  lemma FlowPairGoesOn(cfg: Config, key: Tree, s: Emitter, behind: seq<Event>, first: bool)
    requires Proper(cfg, key)
    ensures var simple := !cfg.canonical && IsSimpleKey(cfg, s.w.directives, key);
      FlowMappingKey(cfg, s, EventsThen(key, behind), first)
      == EmitNode(cfg, PushState(s.(w := BeforeFlowKey(cfg, s.w, first, simple)), FlowKeyNext(simple)), EventsThen(key, behind), true, simple)
  {
    hide EmitNode, EventsThen, BeforeFlowKey;
    EventsStart(key, behind, cfg, s.w.directives);
  }

  function FlowKeyNext(simple: bool): State {
    if simple then FlowMappingSimpleValueState else FlowMappingValueState
  }

  lemma {:induction false} FlowPairsArePrinted(cfg: Config, pairs: Pairs, s: Emitter, rest: seq<Event>, first: bool)
    requires ProperPairs(cfg, pairs) && s.states != [] && s.indents != []
    ensures Yields(cfg, FlowMappingKey(cfg, s, PairsThen(pairs, rest), first), PairsThen(pairs, rest), rest,
                   FlowLeft(cfg, s, PrintFlowPairs(cfg, pairs, s.w, first), CLOSE_MAPPING, first && pairs == NoPairs))
    decreases pairs, 0
  {
    hide Reaches, Yields, Process, EmitNode, Print, WriteContent, EventsThen, WriteFlowEnd, BeforeFlowKey, BeforeFlowValue, FlowLeft,
         FlowMappingKey, IsSimpleKey, PushState;
    var last := FlowLeft(cfg, s, PrintFlowPairs(cfg, pairs, s.w, first), CLOSE_MAPPING, first && pairs == NoPairs);
    match pairs {
      case NoPairs => FlowEnds(cfg, s, rest, first);
      case MorePairs(key, value, more) =>
        var tail := PairsThen(more, rest);
        var behind := EventsThen(value, tail);
        var simple := !cfg.canonical && IsSimpleKey(cfg, s.w.directives, key);
        var w0 := BeforeFlowKey(cfg, s.w, first, simple);
        var s1 := s.(state := FlowKeyNext(simple), w := Print(cfg, key, w0, true, simple));
        var w1 := BeforeFlowValue(cfg, s1.w, simple);
        var s2 := s1.(state := FlowMappingKeyState, w := Print(cfg, value, w1, true, false));
        FlowPairsArePrinted(cfg, more, s2, rest, false);
        LeavesTheSame(cfg, s, s2, PrintFlowPairs(cfg, pairs, s.w, first), CLOSE_MAPPING, false);
        Dispatch(cfg, s2, tail);
        ChildThen(cfg, value, s1, FlowMappingKeyState, w1, true, false, tail, rest, last);
        Dispatch(cfg, s1, behind);
        FlowPairGoesOn(cfg, key, s, behind, first);
        ChildThen(cfg, key, s, FlowKeyNext(simple), w0, true, simple, behind, rest, last);
    }
  }

  lemma {:induction false} BlockPairsArePrinted(cfg: Config, pairs: Pairs, s: Emitter, rest: seq<Event>)
    requires ProperPairs(cfg, pairs) && s.states != [] && s.indents != []
    ensures Yields(cfg, BlockMappingKey(cfg, s, PairsThen(pairs, rest)), PairsThen(pairs, rest), rest,
                   BlockLeft(s, PrintBlockPairs(cfg, pairs, s.w)))
    decreases pairs, 0
  {
    hide Reaches, Yields, Process, EmitNode, Print, WriteContent, EventsThen, WriteFlowEnd, BeforeBlockKey, BeforeBlockValue;
    var last := BlockLeft(s, PrintBlockPairs(cfg, pairs, s.w));
    match pairs {
      case NoPairs => YieldsOne(cfg, MappingEnd, rest, last);
      case MorePairs(key, value, more) =>
        var tail := PairsThen(more, rest);
        var behind := EventsThen(value, tail);
        EventsStart(key, behind, cfg, s.w.directives);
        var simple := IsSimpleKey(cfg, s.w.directives, key);
        var next := if simple then BlockMappingSimpleValueState else BlockMappingValueState;
        var w0 := BeforeBlockKey(cfg, s.w, simple);
        var s1 := s.(state := next, w := Print(cfg, key, w0, true, simple));
        var w1 := BeforeBlockValue(cfg, s1.w, simple);
        var s2 := s1.(state := BlockMappingKeyState, w := Print(cfg, value, w1, true, false));
        BlockPairsArePrinted(cfg, more, s2, rest);
        Dispatch(cfg, s2, tail);
        ChildThen(cfg, value, s1, BlockMappingKeyState, w1, true, false, tail, rest, last);
        Dispatch(cfg, s1, behind);
        ChildThen(cfg, key, s, next, w0, true, simple, behind, rest, last);
    }
  }

  /** What the states of collections stand for. */
  lemma Dispatch(cfg: Config, s: Emitter, queue: seq<Event>)
    requires queue != []
    ensures s.state == FlowSequenceFirstItemState ==> Process(cfg, s, queue) == FlowSequenceItem(cfg, OpenFlow(cfg, s, OPEN_SEQUENCE), queue, true)
    ensures s.state == FlowSequenceItemState ==> Process(cfg, s, queue) == FlowSequenceItem(cfg, s, queue, false)
    ensures s.state == FlowMappingFirstKeyState ==> Process(cfg, s, queue) == FlowMappingKey(cfg, OpenFlow(cfg, s, OPEN_MAPPING), queue, true)
    ensures s.state == FlowMappingKeyState ==> Process(cfg, s, queue) == FlowMappingKey(cfg, s, queue, false)
    ensures s.state == FlowMappingSimpleValueState ==>
      Process(cfg, s, queue) == EmitNode(cfg, PushState(s.(w := BeforeFlowValue(cfg, s.w, true)), FlowMappingKeyState), queue, true, false)
    ensures s.state == FlowMappingValueState ==>
      Process(cfg, s, queue) == EmitNode(cfg, PushState(s.(w := BeforeFlowValue(cfg, s.w, false)), FlowMappingKeyState), queue, true, false)
    ensures s.state == BlockSequenceFirstItemState ==>
      Process(cfg, s, queue) == BlockSequenceItem(cfg, Deeper(cfg, s, false, Indentless(s.w)), queue)
    ensures s.state == BlockSequenceItemState ==> Process(cfg, s, queue) == BlockSequenceItem(cfg, s, queue)
    ensures s.state == BlockMappingFirstKeyState ==> Process(cfg, s, queue) == BlockMappingKey(cfg, Deeper(cfg, s, false, false), queue)
    ensures s.state == BlockMappingKeyState ==> Process(cfg, s, queue) == BlockMappingKey(cfg, s, queue)
    ensures s.state == BlockMappingSimpleValueState ==>
      Process(cfg, s, queue) == EmitNode(cfg, PushState(s.(w := BeforeBlockValue(cfg, s.w, true)), BlockMappingKeyState), queue, true, false)
    ensures s.state == BlockMappingValueState ==>
      Process(cfg, s, queue) == EmitNode(cfg, PushState(s.(w := BeforeBlockValue(cfg, s.w, false)), BlockMappingKeyState), queue, true, false)
  {
    hide EmitNode, FlowSequenceItem, FlowMappingKey, BlockSequenceItem, BlockMappingKey, BeforeFlowValue, BeforeBlockValue;
  }

  // ----- Collections, from outside

  /** A flow collection leaves the stacks as they were before it. */
  lemma FlowLeaves(cfg: Config, s: Emitter, w: Writer, s': Emitter, open: seq<int>, close: seq<int>, inner: Writer, empty: bool)
    requires s.states != [] && s'.states == s.states && s'.indents == s.indents
    requires s'.w.indent == w.indent && s'.w.flowLevel == w.flowLevel && inner.flowLevel == InFlowLevel(w)
    requires (open == OPEN_SEQUENCE && close == CLOSE_SEQUENCE) || (open == OPEN_MAPPING && close == CLOSE_MAPPING)
    ensures var inside := OpenFlow(cfg, s', open);
      && inside.states == s.states && inside.indents == s.indents + [w.indent] && inside.w == InFlow(cfg, s'.w, open)
      && InFlow(cfg, s'.w, open).flowLevel == InFlowLevel(w)
      && FlowLeft(cfg, inside, inner, close, empty) == Returned(s, WriteFlowEnd(cfg, Outside(inner, w), close, empty))
  {
    hide WriteFlowEnd;
    assert (s.indents + [w.indent])[..|s.indents|] == s.indents;
  }

  lemma InFlowIsDeeper(cfg: Config, w: Writer)
    ensures InFlow(cfg, w, OPEN_SEQUENCE).flowLevel == InFlowLevel(w) && InFlow(cfg, w, OPEN_MAPPING).flowLevel == InFlowLevel(w)
  {
  }

  function InFlowLevel(w: Writer): int {
    w.flowLevel + 1
  }

  lemma BlockLeaves(cfg: Config, s: Emitter, w: Writer, s': Emitter, indentless: bool, inner: Writer)
    requires s.states != [] && s'.states == s.states && s'.indents == s.indents
    requires s'.w.indent == w.indent && s'.w.flowLevel == w.flowLevel && inner.flowLevel == w.flowLevel
    ensures var inside := Deeper(cfg, s', false, indentless);
      && inside.states == s.states && inside.indents == s.indents + [w.indent] && inside.w == Deepened(cfg, s'.w, false, indentless)
      && BlockLeft(inside, inner) == Returned(s, Outside(inner, w))
  {
    assert (s.indents + [w.indent])[..|s.indents|] == s.indents;
  }

  /** The start event: what is next depends on the style, and on whether the collection is empty. */
  lemma SequenceOpens(cfg: Config, start: Event, items: Items, s: Emitter, rest: seq<Event>, mapping: bool, simpleKey: bool)
    requires Proper(cfg, SequenceTree(start, items))
    ensures var t, w := SequenceTree(start, items), s.w.(mapping := mapping);
      var state := if IsFlow(cfg, w, start.style, IsEmpty(t)) then FlowSequenceFirstItemState else BlockSequenceFirstItemState;
      EmitNode(cfg, s, EventsThen(t, rest), mapping, simpleKey)
      == Emitted(s.(w := WriteContent(cfg, w, start, w.indent, simpleKey), state := state))
  {
    hide WriteContent, ItemsThen;
    EventsStart(SequenceTree(start, items), rest, cfg, s.w.directives);
  }

  lemma {:induction false} FlowSequenceIsPrinted(cfg: Config, start: Event, items: Items, s: Emitter, rest: seq<Event>, mapping: bool, simpleKey: bool)
    requires Proper(cfg, SequenceTree(start, items)) && s.states != []
    requires IsFlow(cfg, s.w.(mapping := mapping), start.style, IsEmpty(SequenceTree(start, items)))
    ensures var t := SequenceTree(start, items);
      Yields(cfg, EmitNode(cfg, s, EventsThen(t, rest), mapping, simpleKey), EventsThen(t, rest), rest,
             Returned(s, Print(cfg, t, s.w, mapping, simpleKey)))
    decreases items, 1
  {
    hide Reaches, Yields, Process, EmitNode, WriteContent, PrintFlowItems, PrintBlockItems, FlowSequenceItem, BlockSequenceItem, WriteFlowEnd, ItemsThen, OpenFlow,
         InFlow, FlowLeft, Outside, Returned;
    var t, w := SequenceTree(start, items), s.w.(mapping := mapping);
    var w' := WriteContent(cfg, w, start, w.indent, simpleKey);
    SequenceOpens(cfg, start, items, s, rest, mapping, simpleKey);
    ContentKeeps(cfg, w, start, w.indent, simpleKey);
    var s' := s.(w := w', state := FlowSequenceFirstItemState);
    var inside := OpenFlow(cfg, s', OPEN_SEQUENCE);
    InFlowIsDeeper(cfg, w');
    FlowLeaves(cfg, s, w, s', OPEN_SEQUENCE, CLOSE_SEQUENCE, PrintFlowItems(cfg, items, InFlow(cfg, w', OPEN_SEQUENCE), true), items == NoItems);
    FlowItemsArePrinted(cfg, items, inside, rest, true);
    Dispatch(cfg, s', ItemsThen(items, rest));
    OneThen(cfg, start, s', ItemsThen(items, rest), rest, Returned(s, Print(cfg, t, s.w, mapping, simpleKey)));
  }

  lemma {:induction false} BlockSequenceIsPrinted(cfg: Config, start: Event, items: Items, s: Emitter, rest: seq<Event>, mapping: bool, simpleKey: bool)
    requires Proper(cfg, SequenceTree(start, items)) && s.states != []
    requires !IsFlow(cfg, s.w.(mapping := mapping), start.style, IsEmpty(SequenceTree(start, items)))
    ensures var t := SequenceTree(start, items);
      Yields(cfg, EmitNode(cfg, s, EventsThen(t, rest), mapping, simpleKey), EventsThen(t, rest), rest,
             Returned(s, Print(cfg, t, s.w, mapping, simpleKey)))
    decreases items, 1
  {
    hide Reaches, Yields, Process, EmitNode, WriteContent, PrintFlowItems, PrintBlockItems, FlowSequenceItem, BlockSequenceItem, WriteFlowEnd, ItemsThen, Deeper, Deepened,
         BlockLeft, Outside, Returned, Indentless;
    var t, w := SequenceTree(start, items), s.w.(mapping := mapping);
    var w' := WriteContent(cfg, w, start, w.indent, simpleKey);
    SequenceOpens(cfg, start, items, s, rest, mapping, simpleKey);
    ContentKeeps(cfg, w, start, w.indent, simpleKey);
    var s' := s.(w := w', state := BlockSequenceFirstItemState);
    var inside := Deeper(cfg, s', false, Indentless(w'));
    DeepenedKeeps(cfg, w', false, Indentless(w'));
    BlockLeaves(cfg, s, w, s', Indentless(w'), PrintBlockItems(cfg, items, Deepened(cfg, w', false, Indentless(w'))));
    BlockItemsArePrinted(cfg, items, inside, rest);
    Dispatch(cfg, s', ItemsThen(items, rest));
    OneThen(cfg, start, s', ItemsThen(items, rest), rest, Returned(s, Print(cfg, t, s.w, mapping, simpleKey)));
  }

  lemma {:induction false} SequenceIsPrinted(cfg: Config, start: Event, items: Items, s: Emitter, rest: seq<Event>, mapping: bool, simpleKey: bool)
    requires Proper(cfg, SequenceTree(start, items)) && s.states != []
    ensures var t := SequenceTree(start, items);
      Yields(cfg, EmitNode(cfg, s, EventsThen(t, rest), mapping, simpleKey), EventsThen(t, rest), rest,
             Returned(s, Print(cfg, t, s.w, mapping, simpleKey)))
    decreases items, 2
  {
    hide Yields, EmitNode, Print, IsFlow;
    if IsFlow(cfg, s.w.(mapping := mapping), start.style, IsEmpty(SequenceTree(start, items))) {
      FlowSequenceIsPrinted(cfg, start, items, s, rest, mapping, simpleKey);
    } else {
      BlockSequenceIsPrinted(cfg, start, items, s, rest, mapping, simpleKey);
    }
  }

  /** The start event: what is next depends on the style, and on whether the collection is empty. */
  lemma MappingOpens(cfg: Config, start: Event, pairs: Pairs, s: Emitter, rest: seq<Event>, mapping: bool, simpleKey: bool)
    requires Proper(cfg, MappingTree(start, pairs))
    ensures var t, w := MappingTree(start, pairs), s.w.(mapping := mapping);
      var state := if IsFlow(cfg, w, start.style, IsEmpty(t)) then FlowMappingFirstKeyState else BlockMappingFirstKeyState;
      EmitNode(cfg, s, EventsThen(t, rest), mapping, simpleKey)
      == Emitted(s.(w := WriteContent(cfg, w, start, w.indent, simpleKey), state := state))
  {
    hide WriteContent, PairsThen;
    EventsStart(MappingTree(start, pairs), rest, cfg, s.w.directives);
  }

  lemma {:induction false} FlowMappingIsPrinted(cfg: Config, start: Event, pairs: Pairs, s: Emitter, rest: seq<Event>, mapping: bool, simpleKey: bool)
    requires Proper(cfg, MappingTree(start, pairs)) && s.states != []
    requires IsFlow(cfg, s.w.(mapping := mapping), start.style, IsEmpty(MappingTree(start, pairs)))
    ensures var t := MappingTree(start, pairs);
      Yields(cfg, EmitNode(cfg, s, EventsThen(t, rest), mapping, simpleKey), EventsThen(t, rest), rest,
             Returned(s, Print(cfg, t, s.w, mapping, simpleKey)))
    decreases pairs, 1
  {
    hide Reaches, Yields, Process, EmitNode, WriteContent, PrintFlowPairs, PrintBlockPairs, FlowMappingKey, BlockMappingKey, WriteFlowEnd, PairsThen, OpenFlow,
         InFlow, FlowLeft, Outside, Returned;
    var t, w := MappingTree(start, pairs), s.w.(mapping := mapping);
    var w' := WriteContent(cfg, w, start, w.indent, simpleKey);
    MappingOpens(cfg, start, pairs, s, rest, mapping, simpleKey);
    ContentKeeps(cfg, w, start, w.indent, simpleKey);
    var s' := s.(w := w', state := FlowMappingFirstKeyState);
    var inside := OpenFlow(cfg, s', OPEN_MAPPING);
    InFlowIsDeeper(cfg, w');
    FlowLeaves(cfg, s, w, s', OPEN_MAPPING, CLOSE_MAPPING, PrintFlowPairs(cfg, pairs, InFlow(cfg, w', OPEN_MAPPING), true), pairs == NoPairs);
    FlowPairsArePrinted(cfg, pairs, inside, rest, true);
    Dispatch(cfg, s', PairsThen(pairs, rest));
    OneThen(cfg, start, s', PairsThen(pairs, rest), rest, Returned(s, Print(cfg, t, s.w, mapping, simpleKey)));
  }

  lemma {:induction false} BlockMappingIsPrinted(cfg: Config, start: Event, pairs: Pairs, s: Emitter, rest: seq<Event>, mapping: bool, simpleKey: bool)
    requires Proper(cfg, MappingTree(start, pairs)) && s.states != []
    requires !IsFlow(cfg, s.w.(mapping := mapping), start.style, IsEmpty(MappingTree(start, pairs)))
    ensures var t := MappingTree(start, pairs);
      Yields(cfg, EmitNode(cfg, s, EventsThen(t, rest), mapping, simpleKey), EventsThen(t, rest), rest,
             Returned(s, Print(cfg, t, s.w, mapping, simpleKey)))
    decreases pairs, 1
  {
    hide Reaches, Yields, Process, EmitNode, WriteContent, PrintFlowPairs, PrintBlockPairs, FlowMappingKey, BlockMappingKey, WriteFlowEnd, PairsThen, Deeper, Deepened,
         BlockLeft, Outside, Returned, Indentless;
    var t, w := MappingTree(start, pairs), s.w.(mapping := mapping);
    var w' := WriteContent(cfg, w, start, w.indent, simpleKey);
    MappingOpens(cfg, start, pairs, s, rest, mapping, simpleKey);
    ContentKeeps(cfg, w, start, w.indent, simpleKey);
    var s' := s.(w := w', state := BlockMappingFirstKeyState);
    var inside := Deeper(cfg, s', false, false);
    DeepenedKeeps(cfg, w', false, false);
    BlockLeaves(cfg, s, w, s', false, PrintBlockPairs(cfg, pairs, Deepened(cfg, w', false, false)));
    BlockPairsArePrinted(cfg, pairs, inside, rest);
    Dispatch(cfg, s', PairsThen(pairs, rest));
    OneThen(cfg, start, s', PairsThen(pairs, rest), rest, Returned(s, Print(cfg, t, s.w, mapping, simpleKey)));
  }

  lemma {:induction false} MappingIsPrinted(cfg: Config, start: Event, pairs: Pairs, s: Emitter, rest: seq<Event>, mapping: bool, simpleKey: bool)
    requires Proper(cfg, MappingTree(start, pairs)) && s.states != []
    ensures var t := MappingTree(start, pairs);
      Yields(cfg, EmitNode(cfg, s, EventsThen(t, rest), mapping, simpleKey), EventsThen(t, rest), rest,
             Returned(s, Print(cfg, t, s.w, mapping, simpleKey)))
    decreases pairs, 2
  {
    hide Yields, EmitNode, Print, IsFlow;
    if IsFlow(cfg, s.w.(mapping := mapping), start.style, IsEmpty(MappingTree(start, pairs))) {
      FlowMappingIsPrinted(cfg, start, pairs, s, rest, mapping, simpleKey);
    } else {
      BlockMappingIsPrinted(cfg, start, pairs, s, rest, mapping, simpleKey);
    }
  }

  lemma ContentKeeps(cfg: Config, w: Writer, e: Event, level: int, simpleKey: bool)
    ensures var w' := WriteContent(cfg, w, e, level, simpleKey);
      w'.indent == w.indent && w'.flowLevel == w.flowLevel && w'.mapping == w.mapping
  {
  }

  lemma DeepenedKeeps(cfg: Config, w: Writer, flow: bool, indentless: bool)
    ensures Deepened(cfg, w, flow, indentless).flowLevel == w.flowLevel
  {
  }

  // ----- Whole documents

  /**
    The machine refines the printer: from the state that expects the root node, on the events
    of any tree and whatever comes behind, it gives what the printer gives, and is then behind
    the document, with its stacks, its level and its flow level as they were.
   */
  lemma DocumentIsPrinted(cfg: Config, t: Tree, s: Emitter, rest: seq<Event>)
    requires Proper(cfg, t) && s.state == DocumentContentState
    ensures var root := AtRoot(cfg, s, EventsThen(t, rest)[0]);
      Reaches(cfg, s, EventsThen(t, rest), rest, s.(state := DocumentEndState, w := Print(cfg, t, root.w, false, false)))
  {
    hide EmitNode, Print, EventsThen, Yields;
    var root := AtRoot(cfg, s, EventsThen(t, rest)[0]);
    PushedReturns(root, DocumentEndState, Print(cfg, t, root.w, false, false));
    NodeIsPrinted(cfg, t, PushState(root, DocumentEndState), rest, false, false);
    ReachesByStep(cfg, s, EventsThen(t, rest), rest, s.(state := DocumentEndState, w := Print(cfg, t, root.w, false, false)));
  }
}
