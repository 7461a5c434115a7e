/**
  From the tokens of a configuration to its store: the parser's events for a document of version
  1.1 are loaded to what its mapping denotes, in block and in flow style, with tags and anchors
  anywhere.
 */
module ConfStreams {
  import opened Options
  import opened Events
  import opened Parsing
  import opened ParserRuns
  import opened ParsedDocuments
  import opened ConfLoading
  import opened ConfStore
  import ParserTrees

  // ----- What the loader sees of a tree

  /** A key is a scalar or an empty node. */
  predicate IsKey(t: ParserTrees.Tree) {
    t.Missing? || t.Scalar? || t.Bare?
  }

  function KeyOf(t: ParserTrees.Tree): string {
    if t.Scalar? then t.value else ""
  }

  /** No aliases, and all keys are scalars. */
  predicate Loadable(t: ParserTrees.Tree) {
    match t
    case Missing => true
    case Alias(_) => false
    case Scalar(_, _, _) => true
    case Bare(_) => true
    case BlockSequence(_, items) => LoadableItems(items)
    case Indentless(_, items) => LoadableItems(items)
    case FlowSequence(_, items) => LoadableItems(items)
    case BlockMapping(_, items) => LoadablePairs(items)
    case FlowMapping(_, items) => LoadablePairs(items)
  }

  predicate LoadableItems(items: ParserTrees.Items) {
    match items
    case End(_) => true
    case Node(node, rest) => Loadable(node) && LoadableItems(rest)
    case Pair(key, _, value, rest) => IsKey(key) && Loadable(value) && LoadableItems(rest)
  }

  predicate LoadablePairs(items: ParserTrees.Items) {
    match items
    case End(_) => true
    case Node(node, rest) => IsKey(node) && LoadablePairs(rest)
    case Pair(key, _, value, rest) => IsKey(key) && Loadable(value) && LoadablePairs(rest)
  }

  /** The tree without its properties and styles. */
  function Plainly(t: ParserTrees.Tree): Tree
    requires Loadable(t)
  {
    match t
    case Missing => Scalar("")
    case Scalar(_, value, _) => Scalar(value)
    case Bare(_) => Scalar("")
    case BlockSequence(_, items) => Sequence(ItemsOf(items))
    case Indentless(_, items) => Sequence(ItemsOf(items))
    case FlowSequence(_, items) => Sequence(ItemsOf(items))
    case BlockMapping(_, items) => Mapping(PairsOf(items))
    case FlowMapping(_, items) => Mapping(PairsOf(items))
  }

  /** A pair in a sequence is a mapping. */
  function ItemsOf(items: ParserTrees.Items): Items
    requires LoadableItems(items)
  {
    match items
    case End(_) => NoItems
    case Node(node, rest) => MoreItems(Plainly(node), ItemsOf(rest))
    case Pair(key, _, value, rest) => MoreItems(Mapping(MorePairs(KeyOf(key), Plainly(value), NoPairs)), ItemsOf(rest))
  }

  /** A key by itself has an empty value. */
  function PairsOf(items: ParserTrees.Items): Pairs
    requires LoadablePairs(items)
  {
    match items
    case End(_) => NoPairs
    case Node(node, rest) => MorePairs(KeyOf(node), Scalar(""), PairsOf(rest))
    case Pair(key, _, value, rest) => MorePairs(KeyOf(key), Plainly(value), PairsOf(rest))
  }

  // ----- The parser's events are those of the plain tree

  lemma KeyEvents(t: ParserTrees.Tree, d: seq<TagDirective>)
    requires IsKey(t)
    ensures BareAll(ParserTrees.EventsOf(t, d)) == [ScalarOf(KeyOf(t))]
  {
  }

  lemma OneBare(e: Event)
    ensures BareAll([e]) == [Bare(e)]
  {
  }

  lemma {:induction false} EventsAreOfPlainTree(t: ParserTrees.Tree, d: seq<TagDirective>)
    requires Loadable(t)
    ensures BareAll(ParserTrees.EventsOf(t, d)) == EventsThen(Plainly(t), [])
    decreases t
  {
    hide BareAll;
    if IsKey(t) {
      KeyEvents(t, d);
      assert [ScalarOf(KeyOf(t))] + [] == [ScalarOf(KeyOf(t))];
    } else {
      var events := ParserTrees.EventsOf(t, d);
      OneBare(events[0]);
      if t.BlockMapping? || t.FlowMapping? {
        PairEventsAreOfPlainTree(t.items, d);
        BareTogether([events[0]], ParserTrees.MappingEvents(t.items, d));
      } else {
        ItemEventsAreOfPlainTree(t.items, d);
        BareTogether([events[0]], ParserTrees.SequenceEvents(t.items, d));
      }
    }
  }

  lemma {:induction false} ItemEventsAreOfPlainTree(items: ParserTrees.Items, d: seq<TagDirective>)
    requires LoadableItems(items)
    ensures BareAll(ParserTrees.SequenceEvents(items, d)) == ItemsThen(ItemsOf(items), [])
    decreases items
  {
    hide BareAll, ParserTrees.EventsOf, EventsThen, Plainly, Loadable, IsKey;
    match items {
      case End(_) =>
        OneBare(SequenceEnd);
        WithoutRest([]);
      case Node(node, rest) =>
        EventsAreOfPlainTree(node, d);
        ItemEventsAreOfPlainTree(rest, d);
        BareTogether(ParserTrees.EventsOf(node, d), ParserTrees.SequenceEvents(rest, d));
        BehindTree(Plainly(node), ItemsThen(ItemsOf(rest), []));
      case Pair(key, _, value, rest) =>
        ItemEventsAreOfPlainTree(rest, d);
        SinglePairEvents(items, d);
    }
  }

  /** Events of a tree by itself, and those in front of others. */
  lemma BehindTree(t: Tree, rest: seq<Event>)
    ensures EventsThen(t, []) + rest == EventsThen(t, rest)
  {
    EventsThenMore(t, [], rest);
    WithoutRest(rest);
  }

  lemma {:induction false} SinglePairEvents(items: ParserTrees.Items, d: seq<TagDirective>)
    requires items.Pair? && LoadableItems(items)
    ensures BareAll(ParserTrees.SequenceEvents(items, d))
      == EventsThen(Mapping(MorePairs(KeyOf(items.key), Plainly(items.value), NoPairs)), BareAll(ParserTrees.SequenceEvents(items.rest, d)))
    decreases items, 0
  {
    hide BareAll, ParserTrees.EventsOf, Plainly, Loadable, IsKey;
    var key, value, rest := ParserTrees.EventsOf(items.key, d), ParserTrees.EventsOf(items.value, d), ParserTrees.SequenceEvents(items.rest, d);
    var start := MappingStart(None, None, true, FLOW_STYLE);
    KeyEvents(items.key, d);
    EventsAreOfPlainTree(items.value, d);
    OneBare(start);
    OneBare(MappingEnd);
    BareTogether([MappingEnd], rest);
    BareTogether(value, [MappingEnd] + rest);
    BareTogether(key, value + ([MappingEnd] + rest));
    BareTogether([start], key + (value + ([MappingEnd] + rest)));
    BehindTree(Plainly(items.value), [MappingEnd] + BareAll(rest));
    assert PairsThen(NoPairs, BareAll(rest)) == [MappingEnd] + BareAll(rest);
  }

  lemma {:induction false} PairEventsAreOfPlainTree(items: ParserTrees.Items, d: seq<TagDirective>)
    requires LoadablePairs(items)
    ensures BareAll(ParserTrees.MappingEvents(items, d)) == PairsThen(PairsOf(items), [])
    decreases items
  {
    hide BareAll, ParserTrees.EventsOf, Plainly, Loadable, IsKey;
    match items {
      case End(_) =>
        OneBare(MappingEnd);
        WithoutRest([]);
      case Node(node, rest) =>
        KeyEvents(node, d);
        OneBare(EMPTY_SCALAR);
        PairEventsAreOfPlainTree(rest, d);
        BareTogether([EMPTY_SCALAR], ParserTrees.MappingEvents(rest, d));
        BareTogether(ParserTrees.EventsOf(node, d), [EMPTY_SCALAR] + ParserTrees.MappingEvents(rest, d));
      case Pair(key, _, value, rest) =>
        KeyEvents(key, d);
        EventsAreOfPlainTree(value, d);
        PairEventsAreOfPlainTree(rest, d);
        var events := ParserTrees.EventsOf(value, d);
        BareTogether(events, ParserTrees.MappingEvents(rest, d));
        BareTogether(ParserTrees.EventsOf(key, d), events + ParserTrees.MappingEvents(rest, d));
        BehindTree(Plainly(value), PairsThen(PairsOf(rest), []));
    }
  }

  // ----- A document with directives

  /** Each handle is declared once. */
  predicate HandlesDiffer(directives: seq<TagDirective>) {
    forall k :: 0 <= k < |directives| ==> FindDirective(directives[..k], directives[k].handle) == None
  }

  /** The tokens of the tag directives from the k-th on. */
  function DirectiveTokens(directives: seq<TagDirective>, rest: seq<Token>): seq<Token> {
    if directives == [] then rest else [TagDirectiveToken(directives[0])] + DirectiveTokens(directives[1..], rest)
  }

  /** All directives are read, and the defaults are added. */
  lemma {:induction false} DirectivesAreRead(p: Parser, directives: seq<TagDirective>, k: nat, rest: seq<Token>)
    requires HandlesDiffer(directives) && k <= |directives| && p.directives == directives[..k]
    requires p.tokens == DirectiveTokens(directives[k..], [DocumentStartToken] + rest)
    ensures ReadDirectives(p, Some((1, 1)), directives[..k])
      == Directives(ParserTrees.At(p, [DocumentStartToken] + rest).(directives := AddDefaults(directives)), Some((1, 1)), directives)
    decreases |directives| - k
  {
    hide AddDefaults, FindDirective;
    if k == |directives| {
      assert directives[..k] == directives && directives[k..] == [];
    } else {
      var more := DirectiveTokens(directives[k + 1..], [DocumentStartToken] + rest);
      assert directives[k..][1..] == directives[k + 1..];
      ParserTrees.SkipOne(p, TagDirectiveToken(directives[k]), more);
      assert directives[..k] + [directives[k]] == directives[..k + 1];
      DirectivesAreRead(Skip(p.(directives := directives[..k + 1])), directives, k + 1, rest);
    }
  }

  /** The stream of a configuration: version 1.1, the tag directives, and one document. */
  function ConfTokens(directives: seq<TagDirective>, t: ParserTrees.Tree): seq<Token> {
    [StreamStartToken] + ([VersionDirectiveToken(1, 1)]
    + DirectiveTokens(directives, [DocumentStartToken] + (ParserTrees.Tokens(t) + [StreamEndToken])))
  }

  /** The parser behind `---`. */
  function AtContent(directives: seq<TagDirective>, t: ParserTrees.Tree): Parser {
    ParserTrees.At(Start(ConfTokens(directives, t)), ParserTrees.Tokens(t) + [StreamEndToken])
      .(state := DocumentContentState, states := [DocumentEndState], directives := AddDefaults(directives))
  }

  lemma ConfigurationOpens(directives: seq<TagDirective>, t: ParserTrees.Tree)
    requires HandlesDiffer(directives)
    ensures ParserTrees.Reaches(Start(ConfTokens(directives, t)), [StreamStart, DocumentStart(Some((1, 1)), directives, false)],
                                AtContent(directives, t))
  {
    hide AddDefaults, ParserTrees.TokensThen, FindDirective, ParseNode;
    var tokens := ParserTrees.Tokens(t) + [StreamEndToken];
    var behind := DirectiveTokens(directives, [DocumentStartToken] + tokens);
    var p0 := Start(ConfTokens(directives, t));
    ParserTrees.SkipOne(p0, StreamStartToken, [VersionDirectiveToken(1, 1)] + behind);
    var p1 := ParserTrees.In(Skip(p0), ImplicitDocumentStartState);
    ParserTrees.SkipOne(p1, VersionDirectiveToken(1, 1), behind);
    assert directives[..0] == [] && directives[0..] == directives;
    DirectivesAreRead(Skip(p1), directives, 0, tokens);
    var p2 := ParserTrees.At(Skip(p1), [DocumentStartToken] + tokens).(directives := AddDefaults(directives));
    assert ReadDirectives(p1, None, []) == Directives(p2, Some((1, 1)), directives);
    ParserTrees.SkipOne(Push(p2, DocumentEndState), DocumentStartToken, tokens);
    assert [] + [DocumentEndState] == [DocumentEndState];
    var start := DocumentStart(Some((1, 1)), directives, false);
    assert Step(p1) == Emitted(start, AtContent(directives, t));
    ParserTrees.YieldsOne(start, AtContent(directives, t));
    ParserTrees.StepReaches(p1, [start], AtContent(directives, t));
    assert [StreamStart, start][1..] == [start];
  }

  lemma ContentParses(directives: seq<TagDirective>, t: ParserTrees.Tree)
    requires ParserTrees.Fits(t, true, false, AddDefaults(directives))
    ensures ParserTrees.Reaches(AtContent(directives, t), ParserTrees.EventsOf(t, AddDefaults(directives)),
                                ParserTrees.Returned(AtContent(directives, t), [StreamEndToken]))
  {
    hide AddDefaults, ParserTrees.TokensThen, ParserTrees.Fits, ParserTrees.EventsOf, ParserTrees.Yields, ParserTrees.Reaches, ParseNode;
    var p, rest := AtContent(directives, t), [StreamEndToken];
    ParserTrees.TokensThenMore(t, [], rest);
    assert [] + rest == rest;
    ParserTrees.StartsWithNode(t, rest, true, false, AddDefaults(directives));
    ParserTrees.NotIndentless(t, true, AddDefaults(directives));
    ParserTrees.NodeParses(t, p, rest, true, false);
    assert Step(p) == ParseNode(p, true, false);
    ParserTrees.StepReaches(p, ParserTrees.EventsOf(t, AddDefaults(directives)), ParserTrees.Returned(p, rest));
  }

  /** The run over a configuration is its events, and complete. */
  lemma ConfigurationParses(directives: seq<TagDirective>, t: ParserTrees.Tree)
    requires HandlesDiffer(directives) && ParserTrees.Fits(t, true, false, AddDefaults(directives))
    ensures var p := Start(ConfTokens(directives, t));
      && Inv(p)
      && RunAll(p) == Run([StreamStart, DocumentStart(Some((1, 1)), directives, false)]
                          + (ParserTrees.EventsOf(t, AddDefaults(directives)) + [DocumentEnd(true), StreamEnd]), Complete)
  {
    hide ParserTrees.Fits, ParserTrees.Reaches, RunAll, ParserTrees.TokensThen, ParserTrees.EventsOf, AddDefaults, DirectiveTokens;
    var p, middle := Start(ConfTokens(directives, t)), AtContent(directives, t);
    ConfigurationOpens(directives, t);
    RunReaches(p, [StreamStart, DocumentStart(Some((1, 1)), directives, false)], middle);
    ContentParses(directives, t);
    var end := ParserTrees.Returned(middle, [StreamEndToken]);
    RunReaches(middle, ParserTrees.EventsOf(t, AddDefaults(directives)), end);
    ImplicitDocumentEnds(end);
  }

  // ----- From the tokens to the store

  lemma ConfigurationIsBare(directives: seq<TagDirective>, t: ParserTrees.Tree, d: seq<TagDirective>)
    requires Loadable(t) && (t.BlockMapping? || t.FlowMapping?)
    ensures BareAll([StreamStart, DocumentStart(Some((1, 1)), directives, false)]
                    + (ParserTrees.EventsOf(t, d) + [DocumentEnd(true), StreamEnd])) == DocumentEvents(PairsOf(t.items))
  {
    hide BareAll, ParserTrees.EventsOf, PairsOf;
    var start, end := DocumentStart(Some((1, 1)), directives, false), [DocumentEnd(true), StreamEnd];
    var events := ParserTrees.EventsOf(t, d);
    EdgesAreBare(start);
    EventsAreOfPlainTree(t, d);
    BareTogether(events, end);
    BareTogether([StreamStart, start], events + end);
    BehindTree(Mapping(PairsOf(t.items)), end);
    assert [StreamStart, Bare(start)] + EventsThen(Mapping(PairsOf(t.items)), end)
      == [StreamStart] + ([Bare(start)] + EventsThen(Mapping(PairsOf(t.items)), end));
  }

  lemma EdgesAreBare(start: Event)
    ensures BareAll([StreamStart, start]) == [StreamStart, Bare(start)]
    ensures BareAll([DocumentEnd(true), StreamEnd]) == [DocumentEnd(true), StreamEnd]
  {
  }

  /**
    Whatever the styles, anchors and tags of its nodes, a document of version 1.1 with a mapping
    of scalar keys at its root and no aliases is parsed to its end, and loaded to what the plain
    mapping denotes.
   */
  lemma ConfigurationIsLoaded(directives: seq<TagDirective>, t: ParserTrees.Tree, root: Node)
    requires HandlesDiffer(directives) && ParserTrees.Fits(t, true, false, AddDefaults(directives))
    requires Loadable(t) && (t.BlockMapping? || t.FlowMapping?)
    ensures var p := Start(ConfTokens(directives, t));
      && Inv(p)
      && RunAll(p).result == Complete
      && Parse(RunAll(p).events, root, false) == Done(DenotePairs(root, PairsOf(t.items)), [])
  {
    hide Parse, DenotePairs, PairsOf, ParserTrees.Fits, RunAll, Inv, ParserTrees.EventsOf, BareAll, DocumentEvents;
    ConfigurationParses(directives, t);
    ConfigurationIsBare(directives, t, AddDefaults(directives));
    DocumentIsLoaded(PairsOf(t.items), RunAll(Start(ConfTokens(directives, t))).events, root);
  }

  /** Without a version directive the run completes, but nothing is loaded from its events. */
  lemma UnversionedIsRefused(t: ParserTrees.Tree, root: Node)
    requires ParserTrees.Fits(t, true, false, DefaultDirectives())
    ensures var p := Start([StreamStartToken] + ParserTrees.Tokens(t) + [StreamEndToken]);
      && Inv(p)
      && RunAll(p).result == Complete
      && Parse(RunAll(p).events, root, false) == ConfLoading.Failed
  {
    hide ParserTrees.Fits, RunAll, Inv, ParserTrees.EventsOf, ParserTrees.TokensThen;
    SingleDocumentParses(t);
    var events := RunAll(Start([StreamStartToken] + ParserTrees.Tokens(t) + [StreamEndToken])).events;
    assert events[0] == StreamStart && events[1..][0] == DocumentStart(None, [], true);
    assert ParseLoop(events[1..], root, false, Loop(None, false, 0)) == ConfLoading.Failed;
  }
}
