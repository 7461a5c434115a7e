/**
  Loading the configuration store from events (conf-yaml-loader.c, ConfYamlParse), and what a
  tree of scalars, sequences and mappings denotes in the store.
 */
module ConfLoading {
  import opened Options
  import opened Events
  import opened ConfStore

  datatype Outcome = Done(node: Node, rest: seq<Event>) | Failed

  const UNDERSCORE := '_'
  const HYPHEN := '-'

  /** Every '_' becomes a '-'. */
  function Mangle(s: string): (r: string)
    ensures |r| == |s| && forall k :: 0 <= k < |s| ==> r[k] == if s[k] == UNDERSCORE then HYPHEN else s[k]
  {
    if s == [] then [] else [if s[0] == UNDERSCORE then HYPHEN else s[0]] + Mangle(s[1..])
  }

  /** The name of a sequence item: its index in decimal. */
  function IndexName(n: nat): (r: string)
    ensures r != []
  {
    if n < 10 then [Digit(n)] else IndexName(n / 10) + [Digit(n % 10)]
  }

  function Digit(n: nat): char
    requires n < 10
  {
    "0123456789"[n]
  }

  /** Names of address and port groups are kept as they are. */
  predicate KeepsNames(parent: Node) {
    parent.name == "address-groups" || parent.name == "port-groups"
  }

  /** In a mapping that is a sequence item, the first key is the item's value. */
  function NoteKey(parent: Node, key: string): Node {
    if parent.isSeq && parent.val == None then parent.(val := Some(Mangle(key))) else parent
  }

  /** The name a new child gets for a key. */
  function StoredName(parent: Node, key: string): string {
    if KeepsNames(parent) then key else Mangle(key)
  }

  /** The parent with a child for a key, and the child's place. */
  function ChildFor(parent: Node, key: string): (r: (Node, nat))
    ensures r.1 < |r.0.children|
  {
    match FindChild(parent.children, key)
    case Some(k) => (parent, k)
    case None =>
      (parent.(children := parent.children + [NewNode(StoredName(parent, key))]), |parent.children|)
  }

  function SetVal(node: Node, val: string): Node {
    if node.allowOverride then node.(val := Some(val)) else node
  }

  /** The loop's variables besides the parent: the child the values go to, none for the parent itself, the state and the index. */
  datatype Loop = Loop(current: Option<nat>, expectsValue: bool, index: nat)

  /** The node that `node` points to. */
  function Current(parent: Node, current: Option<nat>): Node {
    match current
    case None => parent
    case Some(k) => if k < |parent.children| then parent.children[k] else parent
  }

  function SetCurrent(parent: Node, current: Option<nat>, node: Node): Node {
    match current
    case None => node
    case Some(k) => if k < |parent.children| then parent.(children := parent.children[k := node]) else node
  }

  /** A scalar is an item of a sequence, a key or a value. */
  function TakeScalar(parent: Node, inSeq: bool, loop: Loop, value: string): (Node, Loop) {
    if inSeq then
      var item := NewNode(IndexName(loop.index)).(val := Some(value));
      (parent.(children := parent.children + [item]), loop.(index := loop.index + 1))
    else if !loop.expectsValue then
      var (parent', k) := ChildFor(NoteKey(parent, value), value);
      (parent', loop.(current := Some(k), expectsValue := true))
    else
      (SetCurrent(parent, loop.current, SetVal(Current(parent, loop.current), value)), loop.(expectsValue := false))
  }

  /** One call of ConfYamlParse. The events end where the parser fails. */
  function Parse(events: seq<Event>, parent: Node, inSeq: bool): (r: Outcome)
    ensures r.Done? ==> |r.rest| < |events|
    decreases |events|, 1
  {
    ParseLoop(events, parent, inSeq, Loop(None, false, 0))
  }

  function ParseLoop(events: seq<Event>, parent: Node, inSeq: bool, loop: Loop): (r: Outcome)
    ensures r.Done? ==> |r.rest| < |events|
    decreases |events|, 0
  {
    if events == [] then Failed
    else
      var rest := events[1..];
      match events[0]
      case DocumentStart(version, _, _) =>
        if version != Some((1, 1)) then Failed else ParseLoop(rest, parent, inSeq, loop)
      case ScalarEvent(_, _, value, _, _, _) =>
        var (parent', loop') := TakeScalar(parent, inSeq, loop, value);
        ParseLoop(rest, parent', inSeq, loop')
      case SequenceStart(_, _, _, _) =>
        (match Parse(rest, Current(parent, loop.current), true)
         case Failed => Failed
         case Done(node, rest') =>
           ParseLoop(rest', SetCurrent(parent, loop.current, node), inSeq, loop.(expectsValue := false)))
      case SequenceEnd => Done(parent, rest)
      case MappingStart(_, _, _, _) =>
        if inSeq then
          var item := NewNode(IndexName(loop.index)).(isSeq := true);
          var node := Current(parent, loop.current);
          (match Parse(rest, item, false)
           case Failed => Failed
           case Done(item', rest') =>
             var node' := node.(children := node.children + [item']);
             ParseLoop(rest', SetCurrent(parent, loop.current, node'), inSeq, loop.(expectsValue := false, index := loop.index + 1)))
        else
          (match Parse(rest, Current(parent, loop.current), inSeq)
           case Failed => Failed
           case Done(node, rest') =>
             ParseLoop(rest', SetCurrent(parent, loop.current, node), inSeq, loop.(expectsValue := false)))
      case MappingEnd => Done(parent, rest)
      case StreamEnd => Done(parent, rest)
      case _ => ParseLoop(rest, parent, inSeq, loop)
  }

  // ----- Trees and what they denote

  datatype Tree =
    | Scalar(value: string)
    | Sequence(items: Items)
    | Mapping(pairs: Pairs)

  datatype Items = NoItems | MoreItems(item: Tree, rest: Items)

  /** Keys are scalars. */
  datatype Pairs = NoPairs | MorePairs(key: string, value: Tree, rest: Pairs)

  /** The node a value makes of the node of its key. */
  function Denote(node: Node, t: Tree): Node
    decreases t
  {
    match t
    case Scalar(value) => SetVal(node, value)
    case Sequence(items) => DenoteItems(node, items, 0)
    case Mapping(pairs) => DenotePairs(node, pairs)
  }

  /**
    Items are children named by their index, mappings among them sequence nodes. The items of a
    sequence directly in a sequence go into the outer one, named from 0 again.
   */
  function DenoteItems(node: Node, items: Items, index: nat): Node
    decreases items
  {
    match items
    case NoItems => node
    case MoreItems(item, rest) =>
      var blank := NewNode(IndexName(index));
      match item
      case Scalar(value) => DenoteItems(node.(children := node.children + [blank.(val := Some(value))]), rest, index + 1)
      case Mapping(pairs) => DenoteItems(node.(children := node.children + [DenotePairs(blank.(isSeq := true), pairs)]), rest, index + 1)
      case Sequence(inner) => DenoteItems(DenoteItems(node, inner, 0), rest, index)
  }

  /** Pairs one after another: the child of the key is found or made, and its value applied to it. */
  function DenotePairs(node: Node, pairs: Pairs): Node
    decreases pairs
  {
    match pairs
    case NoPairs => node
    case MorePairs(key, value, rest) =>
      var (parent, k) := ChildFor(NoteKey(node, key), key);
      DenotePairs(parent.(children := parent.children[k := Denote(parent.children[k], value)]), rest)
  }

  /** A scalar without anchor, tag and style; see `Bare` for all others of this value. */
  function ScalarOf(value: string): Event {
    ScalarEvent(None, None, value, true, true, PLAIN_STYLE)
  }

  function EventsThen(t: Tree, rest: seq<Event>): (r: seq<Event>)
    ensures |r| > |rest|
  {
    match t
    case Scalar(value) => [ScalarOf(value)] + rest
    case Sequence(items) => [SequenceStart(None, None, true, BLOCK_STYLE)] + ItemsThen(items, rest)
    case Mapping(pairs) => [MappingStart(None, None, true, BLOCK_STYLE)] + PairsThen(pairs, rest)
  }

  function ItemsThen(items: Items, rest: seq<Event>): (r: seq<Event>)
    ensures |r| > |rest|
  {
    match items
    case NoItems => [SequenceEnd] + rest
    case MoreItems(item, more) => EventsThen(item, ItemsThen(more, rest))
  }

  function PairsThen(pairs: Pairs, rest: seq<Event>): (r: seq<Event>)
    ensures |r| > |rest|
  {
    match pairs
    case NoPairs => [MappingEnd] + rest
    case MorePairs(key, value, more) => [ScalarOf(key)] + EventsThen(value, PairsThen(more, rest))
  }

  // ----- Each call reads its part and denotes it, first for events without properties

  lemma First(e: Event, rest: seq<Event>)
    ensures ([e] + rest)[0] == e && ([e] + rest)[1..] == rest
  {
  }

  lemma {:induction false} BareItemsAreParsed(items: Items, node: Node, index: nat, rest: seq<Event>)
    ensures ParseLoop(ItemsThen(items, rest), node, true, Loop(None, false, index)) == Done(DenoteItems(node, items, index), rest)
    decreases items, 0
  {
    hide IndexName, Parse;
    match items {
      case NoItems => First(SequenceEnd, rest);
      case MoreItems(item, more) =>
        var tail := ItemsThen(more, rest);
        match item {
          case Scalar(value) =>
            First(ScalarOf(value), tail);
            BareItemsAreParsed(more, node.(children := node.children + [NewNode(IndexName(index)).(val := Some(value))]), index + 1, rest);
          case Mapping(pairs) =>
            First(MappingStart(None, None, true, BLOCK_STYLE), PairsThen(pairs, tail));
            var item0 := NewNode(IndexName(index)).(isSeq := true);
            BareMappingIsParsed(pairs, item0, tail);
            BareItemsAreParsed(more, node.(children := node.children + [DenotePairs(item0, pairs)]), index + 1, rest);
          case Sequence(inner) =>
            First(SequenceStart(None, None, true, BLOCK_STYLE), ItemsThen(inner, tail));
            BareSequenceIsFlattened(inner, node, index, tail);
            BareItemsAreParsed(more, DenoteItems(node, inner, 0), index, rest);
        }
    }
  }

  /** A sequence directly in a sequence. */
  lemma {:induction false} BareSequenceIsFlattened(inner: Items, node: Node, index: nat, rest: seq<Event>)
    ensures ParseLoop([SequenceStart(None, None, true, BLOCK_STYLE)] + ItemsThen(inner, rest), node, true, Loop(None, false, index))
      == ParseLoop(rest, DenoteItems(node, inner, 0), true, Loop(None, false, index))
    decreases inner, 1
  {
    hide ItemsThen, DenoteItems, IndexName;
    First(SequenceStart(None, None, true, BLOCK_STYLE), ItemsThen(inner, rest));
    BareItemsAreParsed(inner, node, 0, rest);
  }

  lemma {:induction false} BareMappingIsParsed(pairs: Pairs, node: Node, rest: seq<Event>)
    ensures Parse(PairsThen(pairs, rest), node, false) == Done(DenotePairs(node, pairs), rest)
    decreases pairs, 1
  {
    hide PairsThen, DenotePairs, ParseLoop;
    BarePairsAreParsed(pairs, node, None, rest);
  }

  lemma {:induction false} BarePairsAreParsed(pairs: Pairs, node: Node, current: Option<nat>, rest: seq<Event>)
    ensures ParseLoop(PairsThen(pairs, rest), node, false, Loop(current, false, 0)) == Done(DenotePairs(node, pairs), rest)
    decreases pairs, 0
  {
    hide ChildFor, NoteKey, Parse, SetVal, Denote, EventsThen;
    match pairs {
      case NoPairs => First(MappingEnd, rest);
      case MorePairs(key, value, more) =>
        var (parent, k) := ChildFor(NoteKey(node, key), key);
        var tail := PairsThen(more, rest);
        var parent' := parent.(children := parent.children[k := Denote(parent.children[k], value)]);
        First(ScalarOf(key), EventsThen(value, tail));
        BarePairsAreParsed(more, parent', Some(k), rest);
        BareValueIsParsed(value, parent, k, tail);
    }
  }

  /** The value behind a key is applied to the key's child, and a key is expected again. */
  lemma {:induction false} BareValueIsParsed(value: Tree, parent: Node, k: nat, tail: seq<Event>)
    requires k < |parent.children|
    ensures ParseLoop(EventsThen(value, tail), parent, false, Loop(Some(k), true, 0))
      == ParseLoop(tail, parent.(children := parent.children[k := Denote(parent.children[k], value)]), false, Loop(Some(k), false, 0))
    decreases value
  {
    hide ItemsThen, PairsThen, DenoteItems, DenotePairs;
    match value {
      case Scalar(s) => First(ScalarOf(s), tail);
      case Sequence(items) =>
        First(SequenceStart(None, None, true, BLOCK_STYLE), ItemsThen(items, tail));
        BareItemsAreParsed(items, parent.children[k], 0, tail);
        assert Parse(ItemsThen(items, tail), parent.children[k], true) == Done(DenoteItems(parent.children[k], items, 0), tail);
      case Mapping(pairs) =>
        First(MappingStart(None, None, true, BLOCK_STYLE), PairsThen(pairs, tail));
        BareMappingIsParsed(pairs, parent.children[k], tail);
    }
  }

  // ----- Anchors, tags, styles and implicit flags do not matter

  /** An event without its anchor, tag, style, implicit flags and tag directives. */
  function Bare(e: Event): Event {
    match e
    case DocumentStart(version, _, _) => DocumentStart(version, [], false)
    case DocumentEnd(_) => DocumentEnd(true)
    case ScalarEvent(_, _, value, _, _, _) => ScalarOf(value)
    case SequenceStart(_, _, _, _) => SequenceStart(None, None, true, BLOCK_STYLE)
    case MappingStart(_, _, _, _) => MappingStart(None, None, true, BLOCK_STYLE)
    case _ => e
  }

  function BareAll(events: seq<Event>): (r: seq<Event>)
    ensures |r| == |events|
  {
    seq(|events|, i requires 0 <= i < |events| => Bare(events[i]))
  }

  function BareOutcome(outcome: Outcome): Outcome {
    match outcome
    case Failed => Failed
    case Done(node, rest) => Done(node, BareAll(rest))
  }

  predicate EndsIn(events: seq<Event>, rest: seq<Event>) {
    |rest| <= |events| && rest == events[|events| - |rest|..]
  }

  /** The events left are the last of those given. */
  predicate LeavesTheLast(outcome: Outcome, events: seq<Event>) {
    outcome.Done? ==> EndsIn(events, outcome.rest)
  }

  lemma EndsInEnd(events: seq<Event>, rest: seq<Event>, end: seq<Event>)
    requires EndsIn(events, rest) && EndsIn(rest, end)
    ensures EndsIn(events, end)
  {
  }

  lemma FirstIsBare(events: seq<Event>)
    requires events != []
    ensures BareAll(events)[0] == Bare(events[0]) && BareAll(events)[1..] == BareAll(events[1..])
    ensures EndsIn(events, events[1..])
  {
  }

  /** The loader makes the same of events that differ in their properties only. */
  lemma {:induction false} PropertiesDoNotMatter(events: seq<Event>, parent: Node, inSeq: bool, loop: Loop)
    ensures ParseLoop(BareAll(events), parent, inSeq, loop) == BareOutcome(ParseLoop(events, parent, inSeq, loop))
    ensures LeavesTheLast(ParseLoop(events, parent, inSeq, loop), events)
    decreases |events|, 0
  {
    hide TakeScalar, Current, SetCurrent, IndexName, NewNode, Parse, BareAll, EndsIn;
    if events != [] {
      var e, rest := events[0], events[1..];
      FirstIsBare(events);
      if e.ScalarEvent? {
        var (parent', loop') := TakeScalar(parent, inSeq, loop, e.value);
        LoopGoesOn(events, rest, parent', inSeq, loop');
      } else if e.SequenceStart? {
        SequenceProperties(events, parent, inSeq, loop);
      } else if e.MappingStart? {
        MappingProperties(events, parent, inSeq, loop);
      } else if e != SequenceEnd && e != MappingEnd && e != StreamEnd {
        LoopGoesOn(events, rest, parent, inSeq, loop);
      }
    }
  }

  lemma LoopGoesOn(events: seq<Event>, rest: seq<Event>, parent: Node, inSeq: bool, loop: Loop)
    requires EndsIn(events, rest)
    ensures ParseLoop(BareAll(rest), parent, inSeq, loop) == BareOutcome(ParseLoop(rest, parent, inSeq, loop))
    ensures LeavesTheLast(ParseLoop(rest, parent, inSeq, loop), events)
    decreases |rest|, 1
  {
    hide ParseLoop, BareAll, EndsIn;
    PropertiesDoNotMatter(rest, parent, inSeq, loop);
    var outcome := ParseLoop(rest, parent, inSeq, loop);
    if outcome.Done? {
      EndsInEnd(events, rest, outcome.rest);
    }
  }

  lemma SequenceProperties(events: seq<Event>, parent: Node, inSeq: bool, loop: Loop)
    requires events != [] && events[0].SequenceStart?
    ensures ParseLoop(BareAll(events), parent, inSeq, loop) == BareOutcome(ParseLoop(events, parent, inSeq, loop))
    ensures LeavesTheLast(ParseLoop(events, parent, inSeq, loop), events)
    decreases |events[1..]|, 2
  {
    hide Current, SetCurrent, Parse, BareAll, EndsIn, TakeScalar, IndexName, NewNode;
    var rest := events[1..];
    FirstIsBare(events);
    var node := Current(parent, loop.current);
    PropertiesDoNotMatterToCalls(rest, node, true);
    var called := Parse(rest, node, true);
    if called.Done? {
      EndsInEnd(events, rest, called.rest);
      LoopGoesOn(events, called.rest, SetCurrent(parent, loop.current, called.node), inSeq, loop.(expectsValue := false));
    }
  }

  lemma MappingProperties(events: seq<Event>, parent: Node, inSeq: bool, loop: Loop)
    requires events != [] && events[0].MappingStart?
    ensures ParseLoop(BareAll(events), parent, inSeq, loop) == BareOutcome(ParseLoop(events, parent, inSeq, loop))
    ensures LeavesTheLast(ParseLoop(events, parent, inSeq, loop), events)
    decreases |events[1..]|, 2
  {
    hide Current, SetCurrent, Parse, BareAll, EndsIn, TakeScalar, IndexName, NewNode;
    var rest := events[1..];
    FirstIsBare(events);
    var node := Current(parent, loop.current);
    var target := if inSeq then NewNode(IndexName(loop.index)).(isSeq := true) else node;
    PropertiesDoNotMatterToCalls(rest, target, false);
    var called := Parse(rest, target, false);
    if called.Done? {
      EndsInEnd(events, rest, called.rest);
      var node' := if inSeq then node.(children := node.children + [called.node]) else called.node;
      var index := if inSeq then loop.index + 1 else loop.index;
      LoopGoesOn(events, called.rest, SetCurrent(parent, loop.current, node'), inSeq, loop.(expectsValue := false, index := index));
    }
  }

  lemma PropertiesDoNotMatterToCalls(events: seq<Event>, parent: Node, inSeq: bool)
    ensures Parse(BareAll(events), parent, inSeq) == BareOutcome(Parse(events, parent, inSeq))
    ensures LeavesTheLast(Parse(events, parent, inSeq), events)
    decreases |events|, 1
  {
    PropertiesDoNotMatter(events, parent, inSeq, Loop(None, false, 0));
  }

  /** What the bare events leave behind tells what the events leave. */
  lemma LeavesRest(outcome: Outcome, events: seq<Event>, node: Node, rest: seq<Event>)
    requires BareOutcome(outcome) == Done(node, BareAll(rest)) && LeavesTheLast(outcome, events + rest)
    ensures outcome == Done(node, rest)
  {
    assert |outcome.rest| == |BareAll(outcome.rest)| == |rest|;
  }

  lemma SameRest(first: Outcome, second: Outcome, events: seq<Event>, rest: seq<Event>)
    requires BareOutcome(first) == BareOutcome(second)
    requires LeavesTheLast(first, events + rest) && LeavesTheLast(second, rest)
    ensures first == second
  {
    if second.Done? {
      LeavesRest(first, events + rest[..|rest| - |second.rest|], second.node, second.rest);
    }
  }

  // ----- What stands behind a tree

  lemma BareTogether(first: seq<Event>, second: seq<Event>)
    ensures BareAll(first + second) == BareAll(first) + BareAll(second)
  {
  }

  lemma OneMore(e: Event, first: seq<Event>, second: seq<Event>)
    ensures [e] + (first + second) == ([e] + first) + second
  {
  }

  lemma {:induction false} EventsThenMore(t: Tree, first: seq<Event>, second: seq<Event>)
    ensures EventsThen(t, first + second) == EventsThen(t, first) + second
    decreases t
  {
    match t {
      case Scalar(value) => OneMore(ScalarOf(value), first, second);
      case Sequence(items) =>
        ItemsThenMore(items, first, second);
        OneMore(SequenceStart(None, None, true, BLOCK_STYLE), ItemsThen(items, first), second);
      case Mapping(pairs) =>
        PairsThenMore(pairs, first, second);
        OneMore(MappingStart(None, None, true, BLOCK_STYLE), PairsThen(pairs, first), second);
    }
  }

  lemma {:induction false} ItemsThenMore(items: Items, first: seq<Event>, second: seq<Event>)
    ensures ItemsThen(items, first + second) == ItemsThen(items, first) + second
    decreases items
  {
    match items {
      case NoItems => OneMore(SequenceEnd, first, second);
      case MoreItems(item, more) =>
        ItemsThenMore(more, first, second);
        EventsThenMore(item, ItemsThen(more, first), second);
    }
  }

  lemma {:induction false} PairsThenMore(pairs: Pairs, first: seq<Event>, second: seq<Event>)
    ensures PairsThen(pairs, first + second) == PairsThen(pairs, first) + second
    decreases pairs
  {
    match pairs {
      case NoPairs => OneMore(MappingEnd, first, second);
      case MorePairs(key, value, more) =>
        PairsThenMore(more, first, second);
        EventsThenMore(value, PairsThen(more, first), second);
        OneMore(ScalarOf(key), EventsThen(value, PairsThen(more, first)), second);
    }
  }

  lemma WithoutRest(rest: seq<Event>)
    ensures [] + rest == rest
  {
  }

  // ----- Each call reads its part and denotes it, whatever the properties of the events

  lemma ItemsAreParsed(items: Items, events: seq<Event>, node: Node, index: nat, rest: seq<Event>)
    requires BareAll(events) == ItemsThen(items, [])
    ensures ParseLoop(events + rest, node, true, Loop(None, false, index)) == Done(DenoteItems(node, items, index), rest)
  {
    hide ParseLoop, ItemsThen, DenoteItems;
    var outcome := ParseLoop(events + rest, node, true, Loop(None, false, index));
    BareTogether(events, rest);
    WithoutRest(BareAll(rest));
    ItemsThenMore(items, [], BareAll(rest));
    BareItemsAreParsed(items, node, index, BareAll(rest));
    PropertiesDoNotMatter(events + rest, node, true, Loop(None, false, index));
    LeavesRest(outcome, events, DenoteItems(node, items, index), rest);
  }

  lemma MappingIsParsed(pairs: Pairs, events: seq<Event>, node: Node, rest: seq<Event>)
    requires BareAll(events) == PairsThen(pairs, [])
    ensures Parse(events + rest, node, false) == Done(DenotePairs(node, pairs), rest)
  {
    hide Parse, PairsThen, DenotePairs;
    BareTogether(events, rest);
    WithoutRest(BareAll(rest));
    PairsThenMore(pairs, [], BareAll(rest));
    BareMappingIsParsed(pairs, node, BareAll(rest));
    PropertiesDoNotMatterToCalls(events + rest, node, false);
    LeavesRest(Parse(events + rest, node, false), events, DenotePairs(node, pairs), rest);
  }

  /** The value behind a key is applied to the key's child, and a key is expected again. */
  lemma ValueIsParsed(value: Tree, events: seq<Event>, parent: Node, k: nat, rest: seq<Event>)
    requires k < |parent.children| && BareAll(events) == EventsThen(value, [])
    ensures ParseLoop(events + rest, parent, false, Loop(Some(k), true, 0))
      == ParseLoop(rest, parent.(children := parent.children[k := Denote(parent.children[k], value)]), false, Loop(Some(k), false, 0))
  {
    hide ParseLoop, EventsThen, Denote;
    var parent' := parent.(children := parent.children[k := Denote(parent.children[k], value)]);
    BareTogether(events, rest);
    WithoutRest(BareAll(rest));
    EventsThenMore(value, [], BareAll(rest));
    BareValueIsParsed(value, parent, k, BareAll(rest));
    PropertiesDoNotMatter(events + rest, parent, false, Loop(Some(k), true, 0));
    PropertiesDoNotMatter(rest, parent', false, Loop(Some(k), false, 0));
    SameRest(ParseLoop(events + rest, parent, false, Loop(Some(k), true, 0)),
             ParseLoop(rest, parent', false, Loop(Some(k), false, 0)), events, rest);
  }

  /** A sequence directly in a sequence, whatever comes behind: the outer index is as before. */
  lemma NestedSequencesAreFlattened(inner: Items, events: seq<Event>, node: Node, index: nat, rest: seq<Event>)
    requires BareAll(events) == EventsThen(Sequence(inner), [])
    ensures ParseLoop(events + rest, node, true, Loop(None, false, index))
      == ParseLoop(rest, DenoteItems(node, inner, 0), true, Loop(None, false, index))
  {
    hide ParseLoop, ItemsThen, DenoteItems;
    var loop := Loop(None, false, index);
    BareTogether(events, rest);
    WithoutRest(BareAll(rest));
    EventsThenMore(Sequence(inner), [], BareAll(rest));
    BareSequenceIsFlattened(inner, node, index, BareAll(rest));
    PropertiesDoNotMatter(events + rest, node, true, loop);
    PropertiesDoNotMatter(rest, DenoteItems(node, inner, 0), true, loop);
    SameRest(ParseLoop(events + rest, node, true, loop), ParseLoop(rest, DenoteItems(node, inner, 0), true, loop), events, rest);
  }

  /** The events of a stream with one document of version 1.1, a mapping at its root. */
  function DocumentEvents(pairs: Pairs): seq<Event> {
    [StreamStart] + ([DocumentStart(Some((1, 1)), [], false)]
    + ([MappingStart(None, None, true, BLOCK_STYLE)] + PairsThen(pairs, [DocumentEnd(true), StreamEnd])))
  }

  lemma BareDocumentIsLoaded(pairs: Pairs, root: Node)
    ensures Parse(DocumentEvents(pairs), root, false) == Done(DenotePairs(root, pairs), [])
  {
    hide PairsThen, DenotePairs;
    var end := [DocumentEnd(true), StreamEnd];
    var body := [MappingStart(None, None, true, BLOCK_STYLE)] + PairsThen(pairs, end);
    First(StreamStart, [DocumentStart(Some((1, 1)), [], false)] + body);
    First(DocumentStart(Some((1, 1)), [], false), body);
    First(MappingStart(None, None, true, BLOCK_STYLE), PairsThen(pairs, end));
    BareMappingIsParsed(pairs, root, end);
    EndIsLoaded(DenotePairs(root, pairs));
    var loop := Loop(None, false, 0);
    assert ParseLoop(body, root, false, loop) == ParseLoop(end, DenotePairs(root, pairs), false, loop);
    var document := [DocumentStart(Some((1, 1)), [], false)] + body;
    assert ParseLoop(document, root, false, loop) == ParseLoop(body, root, false, loop);
    assert ParseLoop([StreamStart] + document, root, false, loop) == ParseLoop(document, root, false, loop);
  }

  lemma EndIsLoaded(root: Node)
    ensures ParseLoop([DocumentEnd(true), StreamEnd], root, false, Loop(None, false, 0)) == Done(root, [])
  {
    var end := [DocumentEnd(true), StreamEnd];
    assert end[1..] == [StreamEnd] && [StreamEnd][1..] == [];
    assert ParseLoop([StreamEnd], root, false, Loop(None, false, 0)) == Done(root, []);
  }

  /** A document of version 1.1 with a mapping at its root: everything goes into the root node. */
  lemma DocumentIsLoaded(pairs: Pairs, events: seq<Event>, root: Node)
    requires BareAll(events) == DocumentEvents(pairs)
    ensures Parse(events, root, false) == Done(DenotePairs(root, pairs), [])
  {
    hide Parse, PairsThen, DenotePairs, DocumentEvents;
    WithoutRest(events);
    assert events + [] == events && BareAll([]) == [];
    BareDocumentIsLoaded(pairs, root);
    PropertiesDoNotMatterToCalls(events, root, false);
    LeavesRest(Parse(events, root, false), events, DenotePairs(root, pairs), []);
  }

  // ----- What a loaded store contains

  /** A key keeps its name exactly if it has no '_' or stands in a group whose names are kept. */
  lemma NameIsKept(parent: Node, key: string)
    ensures StoredName(parent, key) == key <==> KeepsNames(parent) || UNDERSCORE !in key
  {
    if UNDERSCORE in key {
      var k :| 0 <= k < |key| && key[k] == UNDERSCORE;
      assert Mangle(key)[k] != key[k];
    } else {
      Unmangled(key);
    }
  }

  /**
    The child for a key has the key's name exactly if it was there or its name is kept; and the
    names of siblings stay different exactly if the key is found, or the name it is stored under
    is not.
   */
  lemma MergedKeys(parent: Node, key: string)
    requires Valid(parent)
    ensures var (parent', k) := ChildFor(parent, key);
      parent'.children[k].name == key <==> FindChild(parent.children, key).Some? || KeepsNames(parent) || UNDERSCORE !in key
    ensures DistinctNames(ChildFor(parent, key).0.children)
      <==> FindChild(parent.children, key).Some? || FindChild(parent.children, StoredName(parent, key)) == None
  {
    NameIsKept(parent, key);
    var children := ChildFor(parent, key).0.children;
    if FindChild(parent.children, key) == None {
      var name := StoredName(parent, key);
      assert children == parent.children + [NewNode(name)];
      NotFound(parent.children, name);
      if FindChild(parent.children, name) == None {
        forall i, j | 0 <= i < j < |children| ensures children[i].name != children[j].name {
        }
      } else {
        var k := FindChild(parent.children, name).value;
        assert children[k].name == children[|parent.children|].name;
      }
    }
  }

  /** A new key given twice is listed once exactly if its name is kept. */
  lemma KeysAreMerged(parent: Node, key: string)
    requires FindChild(parent.children, key) == None
    ensures var once := ChildFor(parent, key).0;
      var twice := ChildFor(once, key).0;
      |twice.children| == |once.children| <==> KeepsNames(parent) || UNDERSCORE !in key
  {
    var name := StoredName(parent, key);
    var once := ChildFor(parent, key).0;
    assert once.children == parent.children + [NewNode(name)];
    NameIsKept(parent, key);
    NotFound(parent.children, key);
    NotFound(once.children, key);
    assert once.children[|parent.children|].name == name;
  }

  lemma Unmangled(key: string)
    requires UNDERSCORE !in key
    ensures Mangle(key) == key
  {
    forall k | 0 <= k < |key| ensures key[k] != UNDERSCORE {
      assert key[k] in key;
    }
    assert forall k :: 0 <= k < |key| ==> Mangle(key)[k] == key[k];
  }

  /** An instance: looked up as `a_b` but stored as `a-b`, the key is listed twice. */
  lemma MangledKeysAreNotMerged()
    ensures var once := ChildFor(NewNode(""), "a_b").0;
      var twice := ChildFor(once, "a_b").0;
      |twice.children| == 2 && twice.children[0].name == twice.children[1].name == "a-b"
  {
    var root := NewNode("");
    assert Mangle("a_b") == "a-b";
    var once := ChildFor(root, "a_b").0;
    assert once.children == [NewNode("a-b")];
    assert FindChild(once.children, "a_b") == None by {
      assert "a-b"[1] != "a_b"[1];
      assert once.children[1..] == [];
    }
  }
}
