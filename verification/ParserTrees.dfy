/**
  The parser inverts linearisation: written out as tokens, a tree of nodes is parsed to exactly
  its events, whatever tokens come behind it, and the parser is then back where it was.
 */
module ParserTrees {
  import opened Options
  import opened Events
  import opened Parsing

  /** An anchor and a tag as handle and suffix; with both, either may come first. */
  datatype Props = Props(anchor: Option<string>, tag: Option<(string, string)>, tagFirst: bool)

  /**
    A node as it is written. Missing is a node without tokens, Bare one with nothing but
    properties; Indentless is a block sequence inside a mapping that has no tokens of its own
    around it.
   */
  datatype Tree =
    | Missing
    | Alias(name: string)
    | Scalar(props: Props, value: string, style: nat)
    | Bare(props: Props)
    | BlockSequence(props: Props, items: Items)
    | Indentless(props: Props, items: Items)
    | BlockMapping(props: Props, items: Items)
    | FlowSequence(props: Props, items: Items)
    | FlowMapping(props: Props, items: Items)

  /**
    What a collection holds. A pair may lack its value token, and then its value. In a flow
    collection the end may have a comma in front of it; the empty collection is written `End(true)`,
    its start token standing for the comma.
   */
  datatype Items =
    | End(comma: bool)
    | Node(node: Tree, rest: Items)
    | Pair(key: Tree, colon: bool, value: Tree, rest: Items)

  // ----- Linearisation, in front of the tokens that come behind

  function PropsThen(props: Props, rest: seq<Token>): (r: seq<Token>)
    ensures |rest| <= |r|
  {
    var anchor := if props.anchor.Some? then [AnchorToken(props.anchor.value)] else [];
    var tag := if props.tag.Some? then [TagToken(props.tag.value.0, props.tag.value.1)] else [];
    if props.tagFirst then tag + (anchor + rest) else anchor + (tag + rest)
  }

  function TokensThen(t: Tree, rest: seq<Token>): (r: seq<Token>)
    ensures |rest| <= |r|
  {
    match t
    case Missing => rest
    case Alias(name) => [AliasToken(name)] + rest
    case Scalar(props, value, style) => PropsThen(props, [ScalarToken(value, style)] + rest)
    case Bare(props) => PropsThen(props, rest)
    case BlockSequence(props, items) => PropsThen(props, [BlockSequenceStartToken] + EntriesThen(items, [BlockEndToken] + rest))
    case Indentless(props, items) => PropsThen(props, EntriesThen(items, rest))
    case BlockMapping(props, items) => PropsThen(props, [BlockMappingStartToken] + PairsThen(items, [BlockEndToken] + rest))
    case FlowSequence(props, items) =>
      PropsThen(props, [FlowSequenceStartToken] + AfterComma(items, [FlowSequenceEndToken] + rest))
    case FlowMapping(props, items) =>
      PropsThen(props, [FlowMappingStartToken] + AfterComma(items, [FlowMappingEndToken] + rest))
  }

  /** The entries of a block sequence. */
  function EntriesThen(items: Items, rest: seq<Token>): (r: seq<Token>)
    ensures |rest| <= |r|
  {
    match items
    case Node(node, more) => [BlockEntryToken] + TokensThen(node, EntriesThen(more, rest))
    case Pair(_, _, _, more) => EntriesThen(more, rest)
    case End(_) => rest
  }

  /** The pairs of a block mapping. */
  function PairsThen(items: Items, rest: seq<Token>): (r: seq<Token>)
    ensures |rest| <= |r|
  {
    match items
    case Pair(key, colon, value, more) =>
      [KeyToken] + TokensThen(key, if colon then [ValueToken] + TokensThen(value, PairsThen(more, rest)) else PairsThen(more, rest))
    case Node(_, more) => PairsThen(more, rest)
    case End(_) => rest
  }

  /** The entries of a flow collection, a comma in front of each. */
  function CommasThen(items: Items, rest: seq<Token>): (r: seq<Token>)
    ensures |rest| <= |r|
    decreases items, 1
  {
    match items
    case End(comma) => if comma then [FlowEntryToken] + rest else rest
    case _ => [FlowEntryToken] + AfterComma(items, rest)
  }

  /** The same without the first comma. */
  function AfterComma(items: Items, rest: seq<Token>): (r: seq<Token>)
    ensures |rest| <= |r|
    decreases items, 0
  {
    match items
    case End(_) => rest
    case Node(node, more) => TokensThen(node, CommasThen(more, rest))
    case Pair(key, colon, value, more) =>
      [KeyToken] + TokensThen(key, if colon then [ValueToken] + TokensThen(value, CommasThen(more, rest)) else CommasThen(more, rest))
  }

  // ----- The events of a tree

  function TagOf(props: Props, directives: seq<TagDirective>): Option<string> {
    if props.tag == None then None else ResolveTag(directives, props.tag.value)
  }

  function IsImplicit(tag: Option<string>): bool {
    tag == None || tag.value == ""
  }

  function EventsOf(t: Tree, d: seq<TagDirective>): (r: seq<Event>)
    ensures r != []
  {
    match t
    case Missing => [EMPTY_SCALAR]
    case Alias(name) => [AliasEvent(Some(name))]
    case Scalar(props, value, style) =>
      var tag := TagOf(props, d);
      var plain := if tag == None then style == PLAIN_STYLE else tag.value == "!";
      [ScalarEvent(props.anchor, tag, value, plain, !plain && tag == None, style)]
    case Bare(props) => [ScalarEvent(props.anchor, TagOf(props, d), "", IsImplicit(TagOf(props, d)), false, PLAIN_STYLE)]
    case BlockSequence(props, items) =>
      [SequenceStart(props.anchor, TagOf(props, d), IsImplicit(TagOf(props, d)), BLOCK_STYLE)] + SequenceEvents(items, d)
    case Indentless(props, items) =>
      [SequenceStart(props.anchor, TagOf(props, d), IsImplicit(TagOf(props, d)), BLOCK_STYLE)] + SequenceEvents(items, d)
    case BlockMapping(props, items) =>
      [MappingStart(props.anchor, TagOf(props, d), IsImplicit(TagOf(props, d)), BLOCK_STYLE)] + MappingEvents(items, d)
    case FlowSequence(props, items) =>
      [SequenceStart(props.anchor, TagOf(props, d), IsImplicit(TagOf(props, d)), FLOW_STYLE)] + SequenceEvents(items, d)
    case FlowMapping(props, items) =>
      [MappingStart(props.anchor, TagOf(props, d), IsImplicit(TagOf(props, d)), FLOW_STYLE)] + MappingEvents(items, d)
  }

  /** In a sequence a pair is a mapping of its own. */
  function SequenceEvents(items: Items, d: seq<TagDirective>): (r: seq<Event>)
    ensures r != []
  {
    match items
    case End(_) => [SequenceEnd]
    case Node(node, rest) => EventsOf(node, d) + SequenceEvents(rest, d)
    case Pair(key, _, value, rest) =>
      [MappingStart(None, None, true, FLOW_STYLE)]
      + (EventsOf(key, d) + (EventsOf(value, d) + ([MappingEnd] + SequenceEvents(rest, d))))
  }

  /** In a mapping a node by itself is a key with an empty value. */
  function MappingEvents(items: Items, d: seq<TagDirective>): (r: seq<Event>)
    ensures r != []
  {
    match items
    case End(_) => [MappingEnd]
    case Node(node, rest) => EventsOf(node, d) + ([EMPTY_SCALAR] + MappingEvents(rest, d))
    case Pair(key, _, value, rest) => EventsOf(key, d) + (EventsOf(value, d) + MappingEvents(rest, d))
  }

  // ----- Which trees can be written where

  predicate TagKnown(props: Props, d: seq<TagDirective>) {
    props.tag.Some? ==> TagOf(props, d).Some?
  }

  /** Block collections stand in block contexts only, indentless ones in block mappings. */
  predicate Fits(t: Tree, block: bool, indentless: bool, d: seq<TagDirective>) {
    match t
    case Missing => false
    case Alias(_) => true
    case Scalar(props, _, _) => TagKnown(props, d)
    case Bare(props) => TagKnown(props, d) && (props.anchor.Some? || props.tag.Some?)
    case BlockSequence(props, items) => block && TagKnown(props, d) && EntriesFit(items, d)
    case Indentless(props, items) => indentless && TagKnown(props, d) && items.Node? && EntriesFit(items, d)
    case BlockMapping(props, items) => block && TagKnown(props, d) && PairsFit(items, d)
    case FlowSequence(props, items) => TagKnown(props, d) && items != End(false) && FlowFits(items, false, d)
    case FlowMapping(props, items) => TagKnown(props, d) && items != End(false) && FlowFits(items, true, d)
  }

  predicate EntriesFit(items: Items, d: seq<TagDirective>) {
    match items
    case End(comma) => !comma
    case Node(node, rest) => (node == Missing || Fits(node, true, false, d)) && EntriesFit(rest, d)
    case Pair(_, _, _, _) => false
  }

  predicate PairsFit(items: Items, d: seq<TagDirective>) {
    match items
    case End(comma) => !comma
    case Node(_, _) => false
    case Pair(key, colon, value, rest) =>
      && (key == Missing || Fits(key, true, true, d)) && (value == Missing || (colon && Fits(value, true, true, d)))
      && PairsFit(rest, d)
  }

  /** A pair in a flow sequence has a key, or else a value token and no value. */
  predicate FlowFits(items: Items, mapping: bool, d: seq<TagDirective>) {
    match items
    case End(_) => true
    case Node(node, rest) => Fits(node, false, false, d) && FlowFits(rest, mapping, d)
    case Pair(key, colon, value, rest) =>
      && (if key == Missing then mapping || (colon && value == Missing) else Fits(key, false, false, d))
      && (value == Missing || (colon && Fits(value, false, false, d)))
      && FlowFits(rest, mapping, d)
  }

  /** The tokens that a node can start with. */
  predicate Starts(token: Token, block: bool, indentless: bool) {
    || token.AliasToken? || token.AnchorToken? || token.TagToken? || token.ScalarToken?
    || token == FlowSequenceStartToken || token == FlowMappingStartToken
    || (block && (token == BlockSequenceStartToken || token == BlockMappingStartToken))
    || (indentless && token == BlockEntryToken)
  }

  /** What comes behind a node without an end of its own must show that it has ended. */
  predicate Follows(t: Tree, rest: seq<Token>, block: bool, indentless: bool) {
    && (t.Bare? ==> rest != [] && !Starts(rest[0], block, indentless))
    && (t.Indentless? ==> rest != [] && (rest[0] == KeyToken || rest[0] == ValueToken || rest[0] == BlockEndToken))
  }

  // ----- Runs

  /** The parser gives these events and is then `last`. */
  predicate Reaches(p: Parser, events: seq<Event>, last: Parser)
    decreases |events|, 1
  {
    if events == [] then p == last else p.state != EndState && Yields(Step(p), events, last)
  }

  predicate Yields(outcome: Outcome, events: seq<Event>, last: Parser)
    requires events != []
    decreases |events|, 0
  {
    outcome.Emitted? && outcome.event == events[0] && Reaches(outcome.parser, events[1..], last)
  }

  lemma {:induction false} YieldsThen(outcome: Outcome, events: seq<Event>, middle: Parser, more: seq<Event>, last: Parser)
    requires events != [] && Yields(outcome, events, middle) && Reaches(middle, more, last)
    ensures Yields(outcome, events + more, last)
    decreases |events|
  {
    hide Step;
    assert (events + more)[1..] == events[1..] + more;
    if |events| > 1 {
      YieldsThen(Step(outcome.parser), events[1..], middle, more, last);
    } else {
      assert [] + more == more;
    }
  }

  lemma YieldsOne(event: Event, p: Parser)
    ensures Yields(Emitted(event, p), [event], p)
  {
    assert [event][1..] == [];
  }

  lemma StepReaches(p: Parser, events: seq<Event>, last: Parser)
    requires p.state != EndState && events != [] && Yields(Step(p), events, last)
    ensures Reaches(p, events, last)
  {
  }

  /** The parser with only these tokens left. */
  function At(p: Parser, tokens: seq<Token>): Parser {
    p.(tokens := tokens, parsed := p.parsed + |p.tokens| - |tokens|)
  }

  /** The parser in another state. */
  function In(p: Parser, s: State): Parser {
    p.(state := s)
  }

  /** Returned to the continuation on the stack, with these tokens left. */
  function Returned(p: Parser, tokens: seq<Token>): Parser
    requires p.states != []
  {
    At(p, tokens).(state := p.states[|p.states| - 1], states := p.states[..|p.states| - 1])
  }

  /** The same from inside a marked collection. */
  function Closed(p: Parser, tokens: seq<Token>): Parser
    requires p.states != [] && p.marks != []
  {
    Returned(p.(marks := p.marks[..|p.marks| - 1]), tokens)
  }

  lemma SkipOne(p: Parser, token: Token, rest: seq<Token>)
    requires p.tokens == [token] + rest
    ensures p.tokens[0] == token && Skip(p) == At(p, rest)
  {
  }

  /** A child returns to its continuation, pushed just before it. */
  lemma ReturnsToPushed(p: Parser, s: State, tokens: seq<Token>)
    ensures Push(p, s).states != [] && Returned(Push(p, s), tokens) == In(At(p, tokens), s)
  {
  }

  // ----- Properties

  predicate IsContent(rest: seq<Token>) {
    rest != [] && !rest[0].AnchorToken? && !rest[0].TagToken? && !rest[0].AliasToken?
  }

  lemma BothAreRead(props: Props, p: Parser, rest: seq<Token>)
    requires p.tokens == PropsThen(props, rest) && props.anchor.Some? && props.tag.Some?
    ensures p.tokens != [] && !p.tokens[0].AliasToken?
    ensures ReadProperties(p) == Properties(props.anchor, props.tag, At(p, rest))
  {
    var anchor, tag := AnchorToken(props.anchor.value), TagToken(props.tag.value.0, props.tag.value.1);
    if props.tagFirst {
      SkipOne(p, tag, [anchor] + rest);
      SkipOne(Skip(p), anchor, rest);
    } else {
      SkipOne(p, anchor, [tag] + rest);
      SkipOne(Skip(p), tag, rest);
    }
  }

  lemma OneIsThere(props: Props, rest: seq<Token>)
    requires props.anchor.Some? != props.tag.Some?
    ensures PropsThen(props, rest)
      == [if props.anchor.Some? then AnchorToken(props.anchor.value) else TagToken(props.tag.value.0, props.tag.value.1)] + rest
  {
    assert [] + rest == rest;
    if props.tag.Some? {
      var tag := TagToken(props.tag.value.0, props.tag.value.1);
      assert [] + ([tag] + rest) == [tag] + rest;
    }
  }

  lemma OneIsRead(props: Props, p: Parser, rest: seq<Token>)
    requires p.tokens == PropsThen(props, rest) && IsContent(rest) && props.anchor.Some? != props.tag.Some?
    ensures p.tokens != [] && !p.tokens[0].AliasToken?
    ensures ReadProperties(p) == Properties(props.anchor, props.tag, At(p, rest))
  {
    hide PropsThen;
    OneIsThere(props, rest);
    SkipOne(p, p.tokens[0], rest);
  }

  lemma PropsAreRead(props: Props, p: Parser, rest: seq<Token>)
    requires p.tokens == PropsThen(props, rest) && IsContent(rest)
    ensures p.tokens != [] && !p.tokens[0].AliasToken?
    ensures ReadProperties(p) == Properties(props.anchor, props.tag, At(p, rest))
  {
    if props.anchor.Some? && props.tag.Some? {
      BothAreRead(props, p, rest);
    } else if props.anchor.Some? || props.tag.Some? {
      OneIsRead(props, p, rest);
    } else {
      assert [] + rest == rest;
      assert [] + ([] + rest) == rest;
    }
  }

  /** Behind its properties a node is its content. */
  lemma NodeIsContent(props: Props, p: Parser, rest: seq<Token>, block: bool, indentless: bool)
    requires p.tokens == PropsThen(props, rest) && IsContent(rest)
    requires TagKnown(props, p.directives)
    ensures ParseNode(p, block, indentless)
      == ParseContent(At(p, rest), props.anchor, TagOf(props, p.directives), block, indentless)
  {
    hide PropsThen, ReadProperties, ParseContent, ResolveTag;
    PropsAreRead(props, p, rest);
  }

  lemma StartsWithNode(t: Tree, rest: seq<Token>, block: bool, indentless: bool, d: seq<TagDirective>)
    requires Fits(t, block, indentless, d)
    ensures TokensThen(t, rest) != [] && Starts(TokensThen(t, rest)[0], block, indentless)
  {
    hide EntriesFit, PairsFit, FlowFits, PairsThen, AfterComma;
  }

  // ----- Nodes

  lemma {:induction false} NodeParses(t: Tree, p: Parser, rest: seq<Token>, block: bool, indentless: bool)
    requires p.tokens == TokensThen(t, rest) && p.states != []
    requires Fits(t, block, indentless, p.directives) && Follows(t, rest, block, indentless)
    ensures Yields(ParseNode(p, block, indentless), EventsOf(t, p.directives), Returned(p, rest))
    decreases t, 0
  {
    hide ParseNode, ParseContent, PropsThen, Reaches, Yields;
    match t {
      case Alias(name) => AliasParses(name, p, rest, block, indentless);
      case Scalar(props, value, style) => ScalarParses(props, value, style, p, rest, block, indentless);
      case Bare(props) => BareParses(props, p, rest, block, indentless);
      case BlockSequence(props, items) => BlockSequenceParses(props, items, p, rest, block, indentless);
      case Indentless(props, items) => IndentlessParses(props, items, p, rest, block);
      case BlockMapping(props, items) => BlockMappingParses(props, items, p, rest, indentless);
      case FlowSequence(props, items) => FlowSequenceParses(props, items, p, rest, block, indentless);
      case FlowMapping(props, items) => FlowMappingParses(props, items, p, rest, block, indentless);
    }
  }

  lemma AliasParses(name: string, p: Parser, rest: seq<Token>, block: bool, indentless: bool)
    requires p.tokens == [AliasToken(name)] + rest && p.states != []
    ensures Yields(ParseNode(p, block, indentless), [AliasEvent(Some(name))], Returned(p, rest))
  {
    SkipOne(p, AliasToken(name), rest);
    YieldsOne(AliasEvent(Some(name)), Returned(p, rest));
  }

  lemma ScalarParses(props: Props, value: string, style: nat, p: Parser, rest: seq<Token>, block: bool, indentless: bool)
    requires p.tokens == PropsThen(props, [ScalarToken(value, style)] + rest) && p.states != [] && TagKnown(props, p.directives)
    ensures Yields(ParseNode(p, block, indentless), EventsOf(Scalar(props, value, style), p.directives), Returned(p, rest))
  {
    hide Reaches, Yields, ParseNode, PropsThen;
    NodeIsContent(props, p, [ScalarToken(value, style)] + rest, block, indentless);
    SkipOne(At(p, [ScalarToken(value, style)] + rest), ScalarToken(value, style), rest);
    YieldsOne(EventsOf(Scalar(props, value, style), p.directives)[0], Returned(p, rest));
  }

  lemma BareParses(props: Props, p: Parser, rest: seq<Token>, block: bool, indentless: bool)
    requires p.tokens == PropsThen(props, rest) && p.states != [] && TagKnown(props, p.directives)
    requires props.anchor.Some? || props.tag.Some?
    requires rest != [] && !Starts(rest[0], block, indentless)
    ensures Yields(ParseNode(p, block, indentless), EventsOf(Bare(props), p.directives), Returned(p, rest))
  {
    hide Reaches, Yields, ParseNode, PropsThen;
    NodeIsContent(props, p, rest, block, indentless);
    YieldsOne(EventsOf(Bare(props), p.directives)[0], Returned(p, rest));
  }

  /** The start event of a collection, its first state current, then the rest. */
  lemma OpensThen(start: Event, p: Parser, s: State, events: seq<Event>, last: Parser)
    requires s != EndState && events != [] && Yields(Step(In(p, s)), events, last)
    ensures Yields(Emit(start, p, s), [start] + events, last)
  {
    hide Step;
    assert ([start] + events)[1..] == events;
    StepReaches(In(p, s), events, last);
  }

  /** Which function the states between a collection's children stand for. */
  lemma Dispatch(p: Parser)
    ensures p.state == BlockSequenceEntryState ==> Step(p) == ParseBlockSequenceEntry(p, false)
    ensures p.state == IndentlessSequenceEntryState ==> Step(p) == ParseIndentlessSequenceEntry(p)
    ensures p.state == BlockMappingKeyState ==> Step(p) == ParseBlockMappingKey(p, false)
    ensures p.state == BlockMappingValueState ==> Step(p) == ParseBlockMappingValue(p)
    ensures p.state == FlowSequenceEntryState ==> Step(p) == ParseFlowSequenceEntry(p, false)
    ensures p.state == FlowSequenceEntryMappingKeyState ==> Step(p) == ParseFlowSequenceEntryMappingKey(p)
    ensures p.state == FlowSequenceEntryMappingValueState ==> Step(p) == ParseFlowSequenceEntryMappingValue(p)
    ensures p.state == FlowMappingKeyState ==> Step(p) == ParseFlowMappingKey(p, false)
    ensures p.state == FlowMappingValueState ==> Step(p) == ParseFlowMappingValue(p, false)
  {
    hide ParseNode;
  }

  /** The step that parses a child, written or missing, and puts `s` behind it. */
  function Child(node: Tree, p: Parser, tail: seq<Token>, s: State, block: bool, indentless: bool): Outcome {
    var q := At(p, TokensThen(node, tail));
    if node == Missing then Emit(EMPTY_SCALAR, q, s) else ParseNode(Push(q, s), block, indentless)
  }

  /** The node can be a child with these tokens behind it. */
  predicate Stands(node: Tree, tail: seq<Token>, block: bool, indentless: bool, d: seq<TagDirective>) {
    node == Missing || (Fits(node, block, indentless, d) && Follows(node, tail, block, indentless))
  }

  /** Past some tokens and then past some more, from one state to the next. */
  lemma Moves(p: Parser, first: seq<Token>, s: State, second: seq<Token>, s': State)
    ensures In(At(In(At(p, first), s), second), s') == In(At(p, second), s')
    ensures In(At(p, first), s).directives == p.directives && In(At(p, first), s).tokens == first
    ensures In(At(p, first), s).state == s
  {
  }

  lemma EndsTheSame(p: Parser, tokens: seq<Token>, s: State, rest: seq<Token>)
    requires p.states != []
    ensures var q := In(At(p, tokens), s);
      && q.directives == p.directives && q.tokens == tokens && q.states == p.states && q.marks == p.marks && q.state == s
      && Returned(q, rest) == Returned(p, rest) && (p.marks != [] ==> Closed(q, rest) == Closed(p, rest))
  {
  }

  lemma {:induction false} ChildParses(node: Tree, p: Parser, tail: seq<Token>, s: State, block: bool, indentless: bool)
    requires Stands(node, tail, block, indentless, p.directives)
    ensures Yields(Child(node, p, tail, s, block, indentless), EventsOf(node, p.directives), In(At(p, tail), s))
    decreases node, 1
  {
    hide Reaches, Yields, ParseNode, Fits, Follows;
    var q := At(p, TokensThen(node, tail));
    if node == Missing {
      YieldsOne(EMPTY_SCALAR, In(q, s));
    } else {
      ReturnsToPushed(q, s, tail);
      NodeParses(node, Push(q, s), tail, block, indentless);
    }
  }

  /** A child and then, from the state that follows it, what comes next. */
  lemma {:induction false} ChildThen(node: Tree, p: Parser, tail: seq<Token>, s: State, block: bool, indentless: bool,
                                     events: seq<Event>, last: Parser)
    requires Stands(node, tail, block, indentless, p.directives)
    requires s != EndState && events != [] && Yields(Step(In(At(p, tail), s)), events, last)
    ensures Yields(Child(node, p, tail, s, block, indentless), EventsOf(node, p.directives) + events, last)
    decreases node, 2
  {
    hide Reaches, Yields, Child, Stands, Step;
    ChildParses(node, p, tail, s, block, indentless);
    StepReaches(In(At(p, tail), s), events, last);
    YieldsThen(Child(node, p, tail, s, block, indentless), EventsOf(node, p.directives), In(At(p, tail), s), events, last);
  }

  // ----- Block sequences

  lemma {:induction false} BlockSequenceParses(props: Props, items: Items, p: Parser, rest: seq<Token>, block: bool, indentless: bool)
    requires p.tokens == PropsThen(props, [BlockSequenceStartToken] + EntriesThen(items, [BlockEndToken] + rest))
    requires p.states != [] && block && TagKnown(props, p.directives) && EntriesFit(items, p.directives)
    ensures Yields(ParseNode(p, block, indentless), EventsOf(BlockSequence(props, items), p.directives), Returned(p, rest))
    decreases items, 2
  {
    hide Reaches, Yields, ParseNode, PropsThen, EntriesThen, EntriesFit, SequenceEvents;
    var body := EntriesThen(items, [BlockEndToken] + rest);
    NodeIsContent(props, p, [BlockSequenceStartToken] + body, block, indentless);
    var q := At(p, [BlockSequenceStartToken] + body);
    var opening := In(q, BlockSequenceFirstEntryState);
    SkipOne(PushMark(opening), BlockSequenceStartToken, body);
    var q' := Skip(PushMark(opening));
    EntriesParse(items, q', rest);
    assert Closed(q', rest) == Returned(p, rest);
    FirstBlockEntry(opening);
    OpensThen(SequenceStart(props.anchor, TagOf(props, p.directives), IsImplicit(TagOf(props, p.directives)), BLOCK_STYLE),
              q, BlockSequenceFirstEntryState, SequenceEvents(items, p.directives), Returned(p, rest));
  }

  /** The first step of a block collection marks it, passes the start token and goes on as usual. */
  lemma FirstBlockEntry(p: Parser)
    requires |p.tokens| > 1
    ensures ParseBlockSequenceEntry(p, true) == ParseBlockSequenceEntry(Skip(PushMark(p)), false)
    ensures ParseBlockMappingKey(p, true) == ParseBlockMappingKey(Skip(PushMark(p)), false)
  {
    hide ParseNode;
  }

  lemma EntriesStart(items: Items, rest: seq<Token>, d: seq<TagDirective>)
    requires EntriesFit(items, d)
    ensures var all := EntriesThen(items, rest); if items.Node? then all != [] && all[0] == BlockEntryToken else all == rest
  {
  }

  lemma {:induction false} EntriesParse(items: Items, p: Parser, rest: seq<Token>)
    requires p.tokens == EntriesThen(items, [BlockEndToken] + rest)
    requires p.states != [] && p.marks != [] && EntriesFit(items, p.directives)
    ensures Yields(ParseBlockSequenceEntry(p, false), SequenceEvents(items, p.directives), Closed(p, rest))
    decreases items, 1
  {
    hide Reaches, Yields, Step, Child, Stands, At, In, Skip, Closed, Returned, ParseNode, ParseBlockSequenceEntry,
         ParseIndentlessSequenceEntry, ParseBlockMappingKey, ParseBlockMappingValue, ParseFlowSequenceEntry,
         ParseFlowSequenceEntryMappingKey, ParseFlowSequenceEntryMappingValue, ParseFlowMappingKey, ParseFlowMappingValue,
         Fits, TokensThen, EventsOf;
    match items {
      case End(_) => BlockEntriesEnd(p, rest);
      case Node(node, more) =>
        var tail := EntriesThen(more, [BlockEndToken] + rest);
        EntriesStart(more, [BlockEndToken] + rest, p.directives);
        BlockEntryStep(node, p, tail);
        EndsTheSame(p, tail, BlockSequenceEntryState, rest);
        Dispatch(In(At(p, tail), BlockSequenceEntryState));
        EntriesParse(more, In(At(p, tail), BlockSequenceEntryState), rest);
        ChildThen(node, p, tail, BlockSequenceEntryState, true, false, SequenceEvents(more, p.directives), Closed(p, rest));
    }
  }

  lemma BlockEntriesEnd(p: Parser, rest: seq<Token>)
    requires p.tokens == [BlockEndToken] + rest && p.states != [] && p.marks != []
    ensures Yields(ParseBlockSequenceEntry(p, false), [SequenceEnd], Closed(p, rest))
    ensures Yields(ParseBlockMappingKey(p, false), [MappingEnd], Closed(p, rest))
  {
    hide Reaches, Yields, ParseNode;
    SkipOne(p, BlockEndToken, rest);
    YieldsOne(SequenceEnd, Closed(p, rest));
    YieldsOne(MappingEnd, Closed(p, rest));
  }

  lemma BlockEntryStep(node: Tree, p: Parser, tail: seq<Token>)
    requires p.tokens == [BlockEntryToken] + TokensThen(node, tail) && (node == Missing || Fits(node, true, false, p.directives))
    requires tail != [] && (tail[0] == BlockEntryToken || tail[0] == BlockEndToken)
    ensures ParseBlockSequenceEntry(p, false) == Child(node, p, tail, BlockSequenceEntryState, true, false)
    ensures Stands(node, tail, true, false, p.directives)
  {
    hide ParseNode, Fits;
    SkipOne(p, BlockEntryToken, TokensThen(node, tail));
    if node != Missing {
      StartsWithNode(node, tail, true, false, p.directives);
      NotIndentless(node, true, p.directives);
    }
  }

  lemma NotIndentless(node: Tree, block: bool, d: seq<TagDirective>)
    requires Fits(node, block, false, d)
    ensures !node.Indentless?
  {
  }

  // ----- Indentless sequences

  /** The tokens that may come behind an indentless sequence. */
  predicate EndsIndentless(rest: seq<Token>) {
    rest != [] && (rest[0] == KeyToken || rest[0] == ValueToken || rest[0] == BlockEndToken)
  }

  lemma {:induction false} IndentlessParses(props: Props, items: Items, p: Parser, rest: seq<Token>, block: bool)
    requires p.tokens == PropsThen(props, EntriesThen(items, rest))
    requires p.states != [] && TagKnown(props, p.directives) && items.Node? && EntriesFit(items, p.directives)
    requires EndsIndentless(rest)
    ensures Yields(ParseNode(p, block, true), EventsOf(Indentless(props, items), p.directives), Returned(p, rest))
    decreases items, 2
  {
    hide Reaches, Yields, ParseNode, PropsThen, EntriesThen, EntriesFit, SequenceEvents, ParseIndentlessSequenceEntry;
    var body := EntriesThen(items, rest);
    EntriesStart(items, rest, p.directives);
    NodeIsContent(props, p, body, block, true);
    var q := At(p, body);
    IndentlessEntriesParse(items, In(q, IndentlessSequenceEntryState), rest);
    OpensThen(SequenceStart(props.anchor, TagOf(props, p.directives), IsImplicit(TagOf(props, p.directives)), BLOCK_STYLE),
              q, IndentlessSequenceEntryState, SequenceEvents(items, p.directives), Returned(p, rest));
  }

  lemma {:induction false} IndentlessEntriesParse(items: Items, p: Parser, rest: seq<Token>)
    requires p.tokens == EntriesThen(items, rest) && EndsIndentless(rest)
    requires p.states != [] && EntriesFit(items, p.directives)
    ensures Yields(ParseIndentlessSequenceEntry(p), SequenceEvents(items, p.directives), Returned(p, rest))
    decreases items, 1
  {
    hide Reaches, Yields, Step, Child, Stands, At, In, Skip, Closed, Returned, ParseNode, ParseBlockSequenceEntry,
         ParseIndentlessSequenceEntry, ParseBlockMappingKey, ParseBlockMappingValue, ParseFlowSequenceEntry,
         ParseFlowSequenceEntryMappingKey, ParseFlowSequenceEntryMappingValue, ParseFlowMappingKey, ParseFlowMappingValue,
         Fits, TokensThen, EventsOf;
    match items {
      case End(_) => IndentlessEnds(p);
      case Node(node, more) =>
        var tail := EntriesThen(more, rest);
        EntriesStart(more, rest, p.directives);
        IndentlessEntryStep(node, p, tail);
        EndsTheSame(p, tail, IndentlessSequenceEntryState, rest);
        Dispatch(In(At(p, tail), IndentlessSequenceEntryState));
        IndentlessEntriesParse(more, In(At(p, tail), IndentlessSequenceEntryState), rest);
        ChildThen(node, p, tail, IndentlessSequenceEntryState, true, false, SequenceEvents(more, p.directives), Returned(p, rest));
    }
  }

  lemma IndentlessEnds(p: Parser)
    requires EndsIndentless(p.tokens) && p.states != []
    ensures Yields(ParseIndentlessSequenceEntry(p), [SequenceEnd], Returned(p, p.tokens))
  {
    hide Reaches, Yields, ParseNode;
    YieldsOne(SequenceEnd, Returned(p, p.tokens));
  }

  lemma IndentlessEntryStep(node: Tree, p: Parser, tail: seq<Token>)
    requires p.tokens == [BlockEntryToken] + TokensThen(node, tail) && (node == Missing || Fits(node, true, false, p.directives))
    requires tail != [] && (tail[0] == BlockEntryToken || EndsIndentless(tail))
    ensures ParseIndentlessSequenceEntry(p) == Child(node, p, tail, IndentlessSequenceEntryState, true, false)
    ensures Stands(node, tail, true, false, p.directives)
  {
    hide ParseNode, Fits;
    SkipOne(p, BlockEntryToken, TokensThen(node, tail));
    if node != Missing {
      StartsWithNode(node, tail, true, false, p.directives);
      NotIndentless(node, true, p.directives);
    }
  }

  // ----- Block mappings

  lemma {:induction false} BlockMappingParses(props: Props, items: Items, p: Parser, rest: seq<Token>, indentless: bool)
    requires p.tokens == PropsThen(props, [BlockMappingStartToken] + PairsThen(items, [BlockEndToken] + rest))
    requires p.states != [] && TagKnown(props, p.directives) && PairsFit(items, p.directives)
    ensures Yields(ParseNode(p, true, indentless), EventsOf(BlockMapping(props, items), p.directives), Returned(p, rest))
    decreases items, 2
  {
    hide Reaches, Yields, ParseNode, PropsThen, PairsThen, PairsFit, MappingEvents;
    var body := PairsThen(items, [BlockEndToken] + rest);
    NodeIsContent(props, p, [BlockMappingStartToken] + body, true, indentless);
    var q := At(p, [BlockMappingStartToken] + body);
    var opening := In(q, BlockMappingFirstKeyState);
    SkipOne(PushMark(opening), BlockMappingStartToken, body);
    var q' := Skip(PushMark(opening));
    PairsParse(items, q', rest);
    assert Closed(q', rest) == Returned(p, rest);
    FirstBlockEntry(opening);
    OpensThen(MappingStart(props.anchor, TagOf(props, p.directives), IsImplicit(TagOf(props, p.directives)), BLOCK_STYLE),
              q, BlockMappingFirstKeyState, MappingEvents(items, p.directives), Returned(p, rest));
  }

  predicate EndsKeyOrValue(tokens: seq<Token>) {
    tokens != [] && (tokens[0] == KeyToken || tokens[0] == ValueToken || tokens[0] == BlockEndToken)
  }

  lemma PairsStart(items: Items, rest: seq<Token>, d: seq<TagDirective>)
    requires PairsFit(items, d)
    ensures var all := PairsThen(items, [BlockEndToken] + rest);
      all != [] && (all[0] == KeyToken || all[0] == BlockEndToken)
  {
  }

  function ColonThen(colon: bool, value: Tree, tail: seq<Token>): seq<Token> {
    if colon then [ValueToken] + TokensThen(value, tail) else tail
  }

  lemma {:induction false} PairsParse(items: Items, p: Parser, rest: seq<Token>)
    requires p.tokens == PairsThen(items, [BlockEndToken] + rest)
    requires p.states != [] && p.marks != [] && PairsFit(items, p.directives)
    ensures Yields(ParseBlockMappingKey(p, false), MappingEvents(items, p.directives), Closed(p, rest))
    decreases items, 1
  {
    hide Reaches, Yields, Step, Child, Stands, At, In, Skip, Closed, Returned, ParseNode, ParseBlockSequenceEntry,
         ParseIndentlessSequenceEntry, ParseBlockMappingKey, ParseBlockMappingValue, ParseFlowSequenceEntry,
         ParseFlowSequenceEntryMappingKey, ParseFlowSequenceEntryMappingValue, ParseFlowMappingKey, ParseFlowMappingValue,
         Fits, TokensThen, EventsOf;
    match items {
      case End(_) => BlockEntriesEnd(p, rest);
      case Pair(_, _, _, more) =>
        var tail := PairsThen(more, [BlockEndToken] + rest);
        PairsStart(more, rest, p.directives);
        EndsTheSame(p, tail, BlockMappingKeyState, rest);
        PairsParse(more, In(At(p, tail), BlockMappingKeyState), rest);
        BlockPairParses(items, p, tail, MappingEvents(more, p.directives), Closed(p, rest));
    }
  }

  lemma {:induction false} BlockPairParses(pair: Items, p: Parser, tail: seq<Token>, events: seq<Event>, last: Parser)
    requires pair.Pair? && p.tokens == [KeyToken] + TokensThen(pair.key, ColonThen(pair.colon, pair.value, tail))
    requires pair.key == Missing || Fits(pair.key, true, true, p.directives)
    requires pair.value == Missing || (pair.colon && Fits(pair.value, true, true, p.directives))
    requires tail != [] && (tail[0] == KeyToken || tail[0] == BlockEndToken) && events != []
    requires Yields(ParseBlockMappingKey(In(At(p, tail), BlockMappingKeyState), false), events, last)
    ensures Yields(ParseBlockMappingKey(p, false),
                   EventsOf(pair.key, p.directives) + (EventsOf(pair.value, p.directives) + events), last)
    decreases pair, 0
  {
    hide Reaches, Yields, Step, Child, Stands, At, In, Skip, Closed, Returned, ParseNode, ParseBlockSequenceEntry,
         ParseIndentlessSequenceEntry, ParseBlockMappingKey, ParseBlockMappingValue, ParseFlowSequenceEntry,
         ParseFlowSequenceEntryMappingKey, ParseFlowSequenceEntryMappingValue, ParseFlowMappingKey, ParseFlowMappingValue,
         Fits, TokensThen, EventsOf;
    var behind := ColonThen(pair.colon, pair.value, tail);
    var atValue := In(At(p, behind), BlockMappingValueState);
    Moves(p, behind, BlockMappingValueState, tail, BlockMappingKeyState);
    Moves(p, tail, BlockMappingKeyState, tail, BlockMappingKeyState);
    Dispatch(atValue);
    Dispatch(In(At(p, tail), BlockMappingKeyState));
    BlockValueStep(pair.value, pair.colon, atValue, tail);
    ChildThen(pair.value, atValue, tail, BlockMappingKeyState, true, true, events, last);
    BlockKeyStep(pair.key, p, behind);
    ChildThen(pair.key, p, behind, BlockMappingValueState, true, true, EventsOf(pair.value, p.directives) + events, last);
  }

  lemma BlockKeyStep(node: Tree, p: Parser, behind: seq<Token>)
    requires p.tokens == [KeyToken] + TokensThen(node, behind) && (node == Missing || Fits(node, true, true, p.directives))
    requires EndsKeyOrValue(behind)
    ensures ParseBlockMappingKey(p, false) == Child(node, p, behind, BlockMappingValueState, true, true)
    ensures Stands(node, behind, true, true, p.directives)
  {
    hide ParseNode, Fits;
    SkipOne(p, KeyToken, TokensThen(node, behind));
    if node != Missing {
      StartsWithNode(node, behind, true, true, p.directives);
    }
  }

  lemma BlockValueStep(node: Tree, colon: bool, p: Parser, tail: seq<Token>)
    requires p.tokens == ColonThen(colon, node, tail)
    requires node == Missing || (colon && Fits(node, true, true, p.directives))
    requires tail != [] && (tail[0] == KeyToken || tail[0] == BlockEndToken)
    ensures ParseBlockMappingValue(p) == Child(node, p, tail, BlockMappingKeyState, true, true)
    ensures Stands(node, tail, true, true, p.directives)
    ensures ColonThen(colon, node, tail) != [] && (ColonThen(colon, node, tail)[0] == ValueToken || ColonThen(colon, node, tail) == tail)
  {
    hide ParseNode, Fits;
    if colon {
      SkipOne(p, ValueToken, TokensThen(node, tail));
    }
    if node != Missing {
      StartsWithNode(node, tail, true, true, p.directives);
    }
  }

  // ----- Flow collections

  /** In a flow collection a start token in front of the first entry does what a comma does. */
  lemma FirstFlowEntry(p: Parser, q: Parser)
    requires |p.tokens| > 1 && q == PushMark(p).(tokens := [FlowEntryToken] + p.tokens[1..])
    ensures ParseFlowSequenceEntry(p, true) == ParseFlowSequenceEntry(q, false)
    ensures ParseFlowMappingKey(p, true) == ParseFlowMappingKey(q, false)
  {
    hide ParseNode;
    assert q.tokens[1..] == p.tokens[1..];
    assert Skip(q) == Skip(PushMark(p));
  }

  lemma CommaFirst(items: Items, rest: seq<Token>)
    requires items != End(false)
    ensures CommasThen(items, rest) == [FlowEntryToken] + AfterComma(items, rest)
  {
  }

  predicate EndsFlow(tokens: seq<Token>, mapping: bool) {
    tokens != [] && (tokens[0] == FlowEntryToken || tokens[0] == FlowEnd(mapping))
  }

  function FlowEnd(mapping: bool): Token {
    if mapping then FlowMappingEndToken else FlowSequenceEndToken
  }

  lemma CommasStart(items: Items, rest: seq<Token>, mapping: bool)
    ensures EndsFlow(CommasThen(items, [FlowEnd(mapping)] + rest), mapping)
  {
  }

  lemma {:induction false} FlowSequenceParses(props: Props, items: Items, p: Parser, rest: seq<Token>, block: bool, indentless: bool)
    requires p.tokens == PropsThen(props, [FlowSequenceStartToken] + AfterComma(items, [FlowSequenceEndToken] + rest))
    requires p.states != [] && TagKnown(props, p.directives) && items != End(false) && FlowFits(items, false, p.directives)
    ensures Yields(ParseNode(p, block, indentless), EventsOf(FlowSequence(props, items), p.directives), Returned(p, rest))
    decreases items, 2
  {
    hide Reaches, Yields, ParseNode, PropsThen, AfterComma, CommasThen, FlowFits, SequenceEvents, ParseFlowSequenceEntry;
    var body := AfterComma(items, [FlowSequenceEndToken] + rest);
    NodeIsContent(props, p, [FlowSequenceStartToken] + body, block, indentless);
    var q := At(p, [FlowSequenceStartToken] + body);
    var opening := In(q, FlowSequenceFirstEntryState);
    CommaFirst(items, [FlowSequenceEndToken] + rest);
    assert opening.tokens[1..] == body;
    var q' := PushMark(opening).(tokens := [FlowEntryToken] + body);
    FlowEntriesParse(items, q', rest);
    assert Closed(q', rest) == Returned(p, rest);
    FirstFlowEntry(opening, q');
    OpensThen(SequenceStart(props.anchor, TagOf(props, p.directives), IsImplicit(TagOf(props, p.directives)), FLOW_STYLE),
              q, FlowSequenceFirstEntryState, SequenceEvents(items, p.directives), Returned(p, rest));
  }

  lemma {:induction false} FlowMappingParses(props: Props, items: Items, p: Parser, rest: seq<Token>, block: bool, indentless: bool)
    requires p.tokens == PropsThen(props, [FlowMappingStartToken] + AfterComma(items, [FlowMappingEndToken] + rest))
    requires p.states != [] && TagKnown(props, p.directives) && items != End(false) && FlowFits(items, true, p.directives)
    ensures Yields(ParseNode(p, block, indentless), EventsOf(FlowMapping(props, items), p.directives), Returned(p, rest))
    decreases items, 2
  {
    hide Reaches, Yields, ParseNode, PropsThen, AfterComma, CommasThen, FlowFits, MappingEvents, ParseFlowMappingKey;
    var body := AfterComma(items, [FlowMappingEndToken] + rest);
    NodeIsContent(props, p, [FlowMappingStartToken] + body, block, indentless);
    var q := At(p, [FlowMappingStartToken] + body);
    var opening := In(q, FlowMappingFirstKeyState);
    CommaFirst(items, [FlowMappingEndToken] + rest);
    assert opening.tokens[1..] == body;
    var q' := PushMark(opening).(tokens := [FlowEntryToken] + body);
    FlowPairsParse(items, q', rest);
    assert Closed(q', rest) == Returned(p, rest);
    FirstFlowEntry(opening, q');
    OpensThen(MappingStart(props.anchor, TagOf(props, p.directives), IsImplicit(TagOf(props, p.directives)), FLOW_STYLE),
              q, FlowMappingFirstKeyState, MappingEvents(items, p.directives), Returned(p, rest));
  }

  /** The end of a flow collection, with or without a comma before it. */
  lemma FlowEnds(comma: bool, p: Parser, rest: seq<Token>, mapping: bool)
    requires p.tokens == CommasThen(End(comma), [FlowEnd(mapping)] + rest) && p.states != [] && p.marks != []
    ensures mapping ==> Yields(ParseFlowMappingKey(p, false), [MappingEnd], Closed(p, rest))
    ensures !mapping ==> Yields(ParseFlowSequenceEntry(p, false), [SequenceEnd], Closed(p, rest))
  {
    hide Reaches, Yields, ParseNode;
    var last := [FlowEnd(mapping)] + rest;
    if comma {
      SkipOne(p, FlowEntryToken, last);
    }
    SkipOne(At(p, last), FlowEnd(mapping), rest);
    YieldsOne(MappingEnd, Closed(p, rest));
    YieldsOne(SequenceEnd, Closed(p, rest));
  }

  lemma {:induction false} FlowEntriesParse(items: Items, p: Parser, rest: seq<Token>)
    requires p.tokens == CommasThen(items, [FlowSequenceEndToken] + rest)
    requires p.states != [] && p.marks != [] && FlowFits(items, false, p.directives)
    ensures Yields(ParseFlowSequenceEntry(p, false), SequenceEvents(items, p.directives), Closed(p, rest))
    decreases items, 1
  {
    hide Reaches, Yields, Step, Child, Stands, At, In, Skip, Closed, Returned, ParseNode, ParseBlockSequenceEntry,
         ParseIndentlessSequenceEntry, ParseBlockMappingKey, ParseBlockMappingValue, ParseFlowSequenceEntry,
         ParseFlowSequenceEntryMappingKey, ParseFlowSequenceEntryMappingValue, ParseFlowMappingKey, ParseFlowMappingValue,
         Fits, TokensThen, EventsOf;
    if items.End? {
      FlowEnds(items.comma, p, rest, false);
    } else {
      var tail := CommasThen(items.rest, [FlowSequenceEndToken] + rest);
      var q := In(At(p, tail), FlowSequenceEntryState);
      CommasStart(items.rest, rest, false);
      EndsTheSame(p, tail, FlowSequenceEntryState, rest);
      FlowEntriesParse(items.rest, q, rest);
      if items.Node? {
        FlowEntryStep(items.node, p, tail);
        Dispatch(q);
        ChildThen(items.node, p, tail, FlowSequenceEntryState, false, false, SequenceEvents(items.rest, p.directives), Closed(p, rest));
      } else if items.key == Missing {
        MissingIsEmpty(p.directives, tail);
        MissingIsEmpty(p.directives, [ValueToken] + tail);
        KeylessPairParses(p, tail, SequenceEvents(items.rest, p.directives), Closed(p, rest));
      } else {
        SinglePairParses(items, p, tail, SequenceEvents(items.rest, p.directives), Closed(p, rest));
      }
    }
  }

  lemma FlowEntryStep(node: Tree, p: Parser, tail: seq<Token>)
    requires p.tokens == [FlowEntryToken] + TokensThen(node, tail) && Fits(node, false, false, p.directives)
    requires EndsFlow(tail, false)
    ensures ParseFlowSequenceEntry(p, false) == Child(node, p, tail, FlowSequenceEntryState, false, false)
    ensures Stands(node, tail, false, false, p.directives)
  {
    hide ParseNode, Fits;
    SkipOne(p, FlowEntryToken, TokensThen(node, tail));
    StartsWithNode(node, tail, false, false, p.directives);
    NotIndentless(node, false, p.directives);
  }

  /** A single pair in a flow sequence is a mapping with no mark and no state of its own. */
  lemma {:induction false} SinglePairParses(pair: Items, p: Parser, tail: seq<Token>, events: seq<Event>, last: Parser)
    requires pair.Pair? && p.tokens == [FlowEntryToken] + ([KeyToken] + TokensThen(pair.key, ColonThen(pair.colon, pair.value, tail)))
    requires Fits(pair.key, false, false, p.directives)
    requires pair.value == Missing || (pair.colon && Fits(pair.value, false, false, p.directives))
    requires EndsFlow(tail, false) && events != []
    requires Yields(ParseFlowSequenceEntry(In(At(p, tail), FlowSequenceEntryState), false), events, last)
    ensures Yields(ParseFlowSequenceEntry(p, false),
                   [MappingStart(None, None, true, FLOW_STYLE)]
                   + (EventsOf(pair.key, p.directives) + (EventsOf(pair.value, p.directives) + ([MappingEnd] + events))), last)
    decreases pair, 0
  {
    hide Reaches, Yields, Step, Child, Stands, At, In, Skip, Closed, Returned, ParseNode, ParseBlockSequenceEntry,
         ParseIndentlessSequenceEntry, ParseBlockMappingKey, ParseBlockMappingValue, ParseFlowSequenceEntry,
         ParseFlowSequenceEntryMappingKey, ParseFlowSequenceEntryMappingValue, ParseFlowMappingKey, ParseFlowMappingValue,
         Fits, TokensThen, EventsOf, Emit;
    var behind := ColonThen(pair.colon, pair.value, tail);
    var key := TokensThen(pair.key, behind);
    var atKey, atValue := In(At(p, key), FlowSequenceEntryMappingKeyState), In(At(p, behind), FlowSequenceEntryMappingValueState);
    var atEnd := In(At(p, tail), FlowSequenceEntryMappingEndState);
    Moves(p, key, FlowSequenceEntryMappingKeyState, behind, FlowSequenceEntryMappingValueState);
    Moves(p, behind, FlowSequenceEntryMappingValueState, tail, FlowSequenceEntryMappingEndState);
    Moves(p, tail, FlowSequenceEntryMappingEndState, tail, FlowSequenceEntryState);
    Dispatch(atKey);
    Dispatch(atValue);
    SinglePairEnds(atEnd, events, last);
    SingleValueStep(pair.value, pair.colon, atValue, tail);
    ChildThen(pair.value, atValue, tail, FlowSequenceEntryMappingEndState, false, false, [MappingEnd] + events, last);
    SingleKeyStep(pair.key, atKey, behind);
    ChildThen(pair.key, atKey, behind, FlowSequenceEntryMappingValueState, false, false,
              EventsOf(pair.value, p.directives) + ([MappingEnd] + events), last);
    SinglePairOpens(p, key);
    OpensThen(MappingStart(None, None, true, FLOW_STYLE), At(p, key), FlowSequenceEntryMappingKeyState,
              EventsOf(pair.key, p.directives) + (EventsOf(pair.value, p.directives) + ([MappingEnd] + events)), last);
  }

  lemma SinglePairOpens(p: Parser, key: seq<Token>)
    requires p.tokens == [FlowEntryToken] + ([KeyToken] + key)
    ensures ParseFlowSequenceEntry(p, false)
      == Emit(MappingStart(None, None, true, FLOW_STYLE), At(p, key), FlowSequenceEntryMappingKeyState)
  {
    hide ParseNode;
    SkipOne(p, FlowEntryToken, [KeyToken] + key);
    SkipOne(Skip(p), KeyToken, key);
  }

  lemma SinglePairEnds(p: Parser, events: seq<Event>, last: Parser)
    requires p.state == FlowSequenceEntryMappingEndState && p.tokens != [] && events != []
    requires Yields(ParseFlowSequenceEntry(In(At(p, p.tokens), FlowSequenceEntryState), false), events, last)
    ensures Yields(Step(p), [MappingEnd] + events, last)
  {
    hide Reaches, Yields, ParseNode, ParseFlowSequenceEntry;
    OpensThen(MappingEnd, p, FlowSequenceEntryState, events, last);
  }

  lemma SingleKeyStep(node: Tree, p: Parser, behind: seq<Token>)
    requires p.tokens == TokensThen(node, behind) && Fits(node, false, false, p.directives)
    requires behind != [] && (behind[0] == ValueToken || EndsFlow(behind, false))
    ensures ParseFlowSequenceEntryMappingKey(p) == Child(node, p, behind, FlowSequenceEntryMappingValueState, false, false)
    ensures Stands(node, behind, false, false, p.directives)
  {
    hide ParseNode, Fits;
    StartsWithNode(node, behind, false, false, p.directives);
    NotIndentless(node, false, p.directives);
  }

  lemma SingleValueStep(node: Tree, colon: bool, p: Parser, tail: seq<Token>)
    requires p.tokens == ColonThen(colon, node, tail)
    requires node == Missing || (colon && Fits(node, false, false, p.directives))
    requires EndsFlow(tail, false)
    ensures ParseFlowSequenceEntryMappingValue(p) == Child(node, p, tail, FlowSequenceEntryMappingEndState, false, false)
    ensures Stands(node, tail, false, false, p.directives)
    ensures ColonThen(colon, node, tail) != [] && (ColonThen(colon, node, tail)[0] == ValueToken || ColonThen(colon, node, tail) == tail)
  {
    hide ParseNode, Fits;
    if colon {
      SkipOne(p, ValueToken, TokensThen(node, tail));
    }
    if node != Missing {
      StartsWithNode(node, tail, false, false, p.directives);
      NotIndentless(node, false, p.directives);
    }
  }

  lemma {:induction false} FlowPairsParse(items: Items, p: Parser, rest: seq<Token>)
    requires p.tokens == CommasThen(items, [FlowMappingEndToken] + rest)
    requires p.states != [] && p.marks != [] && FlowFits(items, true, p.directives)
    ensures Yields(ParseFlowMappingKey(p, false), MappingEvents(items, p.directives), Closed(p, rest))
    decreases items, 1
  {
    hide Reaches, Yields, Step, Child, Stands, At, In, Skip, Closed, Returned, ParseNode, ParseBlockSequenceEntry,
         ParseIndentlessSequenceEntry, ParseBlockMappingKey, ParseBlockMappingValue, ParseFlowSequenceEntry,
         ParseFlowSequenceEntryMappingKey, ParseFlowSequenceEntryMappingValue, ParseFlowMappingKey, ParseFlowMappingValue,
         Fits, TokensThen, EventsOf;
    if items.End? {
      FlowEnds(items.comma, p, rest, true);
    } else {
      var tail := CommasThen(items.rest, [FlowMappingEndToken] + rest);
      CommasStart(items.rest, rest, true);
      EndsTheSame(p, tail, FlowMappingKeyState, rest);
      FlowPairsParse(items.rest, In(At(p, tail), FlowMappingKeyState), rest);
      if items.Node? {
        LoneKeyParses(items.node, p, tail, MappingEvents(items.rest, p.directives), Closed(p, rest));
      } else {
        FlowPairParses(items, p, tail, MappingEvents(items.rest, p.directives), Closed(p, rest));
      }
    }
  }

  /** A key by itself, and an empty value without a token. */
  lemma {:induction false} LoneKeyParses(node: Tree, p: Parser, tail: seq<Token>, events: seq<Event>, last: Parser)
    requires p.tokens == [FlowEntryToken] + TokensThen(node, tail) && Fits(node, false, false, p.directives)
    requires EndsFlow(tail, true) && events != []
    requires Yields(ParseFlowMappingKey(In(At(p, tail), FlowMappingKeyState), false), events, last)
    ensures Yields(ParseFlowMappingKey(p, false), EventsOf(node, p.directives) + ([EMPTY_SCALAR] + events), last)
    decreases node, 3
  {
    hide Reaches, Yields, Step, Child, Stands, At, In, Skip, Closed, Returned, ParseNode, ParseBlockSequenceEntry,
         ParseIndentlessSequenceEntry, ParseBlockMappingKey, ParseBlockMappingValue, ParseFlowSequenceEntry,
         ParseFlowSequenceEntryMappingKey, ParseFlowSequenceEntryMappingValue, ParseFlowMappingKey, ParseFlowMappingValue,
         Fits, TokensThen, EventsOf;
    Moves(p, tail, FlowMappingEmptyValueState, tail, FlowMappingKeyState);
    LoneKeyStep(node, p, tail);
    LoneValueStep(In(At(p, tail), FlowMappingEmptyValueState), events, last);
    ChildThen(node, p, tail, FlowMappingEmptyValueState, false, false, [EMPTY_SCALAR] + events, last);
  }

  lemma LoneValueStep(p: Parser, events: seq<Event>, last: Parser)
    requires p.state == FlowMappingEmptyValueState && p.tokens != [] && events != []
    requires Yields(ParseFlowMappingKey(In(At(p, p.tokens), FlowMappingKeyState), false), events, last)
    ensures Yields(Step(p), [EMPTY_SCALAR] + events, last)
  {
    hide Reaches, Yields, ParseNode, ParseFlowMappingKey;
    OpensThen(EMPTY_SCALAR, p, FlowMappingKeyState, events, last);
  }

  lemma LoneKeyStep(node: Tree, p: Parser, tail: seq<Token>)
    requires p.tokens == [FlowEntryToken] + TokensThen(node, tail) && Fits(node, false, false, p.directives)
    requires EndsFlow(tail, true)
    ensures ParseFlowMappingKey(p, false) == Child(node, p, tail, FlowMappingEmptyValueState, false, false)
    ensures Stands(node, tail, false, false, p.directives)
  {
    hide ParseNode, Fits;
    SkipOne(p, FlowEntryToken, TokensThen(node, tail));
    StartsWithNode(node, tail, false, false, p.directives);
    NotIndentless(node, false, p.directives);
  }

  lemma {:induction false} FlowPairParses(pair: Items, p: Parser, tail: seq<Token>, events: seq<Event>, last: Parser)
    requires pair.Pair? && p.tokens == [FlowEntryToken] + ([KeyToken] + TokensThen(pair.key, ColonThen(pair.colon, pair.value, tail)))
    requires pair.key == Missing || Fits(pair.key, false, false, p.directives)
    requires pair.value == Missing || (pair.colon && Fits(pair.value, false, false, p.directives))
    requires EndsFlow(tail, true) && events != []
    requires Yields(ParseFlowMappingKey(In(At(p, tail), FlowMappingKeyState), false), events, last)
    ensures Yields(ParseFlowMappingKey(p, false), EventsOf(pair.key, p.directives) + (EventsOf(pair.value, p.directives) + events), last)
    decreases pair, 0
  {
    hide Reaches, Yields, Step, Child, Stands, At, In, Skip, Closed, Returned, ParseNode, ParseBlockSequenceEntry,
         ParseIndentlessSequenceEntry, ParseBlockMappingKey, ParseBlockMappingValue, ParseFlowSequenceEntry,
         ParseFlowSequenceEntryMappingKey, ParseFlowSequenceEntryMappingValue, ParseFlowMappingKey, ParseFlowMappingValue,
         Fits, TokensThen, EventsOf;
    var behind := ColonThen(pair.colon, pair.value, tail);
    var atValue := In(At(p, behind), FlowMappingValueState);
    Moves(p, behind, FlowMappingValueState, tail, FlowMappingKeyState);
    Moves(p, tail, FlowMappingKeyState, tail, FlowMappingKeyState);
    Dispatch(atValue);
    Dispatch(In(At(p, tail), FlowMappingKeyState));
    FlowValueStep(pair.value, pair.colon, atValue, tail);
    ChildThen(pair.value, atValue, tail, FlowMappingKeyState, false, false, events, last);
    FlowKeyStep(pair.key, p, behind);
    ChildThen(pair.key, p, behind, FlowMappingValueState, false, false, EventsOf(pair.value, p.directives) + events, last);
  }

  lemma FlowKeyStep(node: Tree, p: Parser, behind: seq<Token>)
    requires p.tokens == [FlowEntryToken] + ([KeyToken] + TokensThen(node, behind))
    requires node == Missing || Fits(node, false, false, p.directives)
    requires behind != [] && (behind[0] == ValueToken || EndsFlow(behind, true))
    ensures ParseFlowMappingKey(p, false) == Child(node, p, behind, FlowMappingValueState, false, false)
    ensures Stands(node, behind, false, false, p.directives)
  {
    hide ParseNode, Fits, TokensThen, ParseFlowMappingKey;
    if node != Missing {
      StartsWithNode(node, behind, false, false, p.directives);
      NotIndentless(node, false, p.directives);
    } else {
      MissingIsEmpty(p.directives, behind);
    }
    FlowKeyTaken(p, TokensThen(node, behind));
  }

  /** What a key of a flow mapping is depends on the token behind its key token. */
  lemma FlowKeyTaken(p: Parser, key: seq<Token>)
    requires p.tokens == [FlowEntryToken] + ([KeyToken] + key) && key != []
    ensures ParseFlowMappingKey(p, false)
      == if key[0] == ValueToken || EndsFlow(key, true) then Emit(EMPTY_SCALAR, At(p, key), FlowMappingValueState)
         else ParseNode(Push(At(p, key), FlowMappingValueState), false, false)
  {
    hide ParseNode;
    SkipOne(p, FlowEntryToken, [KeyToken] + key);
    SkipOne(Skip(p), KeyToken, key);
  }

  lemma FlowValueStep(node: Tree, colon: bool, p: Parser, tail: seq<Token>)
    requires p.tokens == ColonThen(colon, node, tail)
    requires node == Missing || (colon && Fits(node, false, false, p.directives))
    requires EndsFlow(tail, true)
    ensures ParseFlowMappingValue(p, false) == Child(node, p, tail, FlowMappingKeyState, false, false)
    ensures Stands(node, tail, false, false, p.directives)
    ensures ColonThen(colon, node, tail) != [] && (ColonThen(colon, node, tail)[0] == ValueToken || ColonThen(colon, node, tail) == tail)
  {
    hide ParseNode, Fits;
    if colon {
      SkipOne(p, ValueToken, TokensThen(node, tail));
    }
    if node != Missing {
      StartsWithNode(node, tail, false, false, p.directives);
      NotIndentless(node, false, p.directives);
    }
  }

  // ----- Single pairs without a key

  lemma MissingIsEmpty(d: seq<TagDirective>, rest: seq<Token>)
    ensures EventsOf(Missing, d) == [EMPTY_SCALAR] && TokensThen(Missing, rest) == rest
  {
  }

  /** With the value token, which is skipped for the key, and no value, the pair is passed. */
  lemma KeylessPairParses(p: Parser, tail: seq<Token>, events: seq<Event>, last: Parser)
    requires p.tokens == [FlowEntryToken] + ([KeyToken] + ([ValueToken] + tail)) && EndsFlow(tail, false) && events != []
    requires Yields(ParseFlowSequenceEntry(In(At(p, tail), FlowSequenceEntryState), false), events, last)
    ensures Yields(ParseFlowSequenceEntry(p, false),
                   [MappingStart(None, None, true, FLOW_STYLE)] + ([EMPTY_SCALAR] + ([EMPTY_SCALAR] + ([MappingEnd] + events))), last)
  {
    hide Reaches, Yields, Step, ParseNode, ParseFlowSequenceEntry;
    var key := [ValueToken] + tail;
    var atKey := In(At(p, key), FlowSequenceEntryMappingKeyState);
    SinglePairOpens(p, key);
    KeylessKeyStep(atKey, tail, events, last);
    OpensThen(MappingStart(None, None, true, FLOW_STYLE), At(p, key), FlowSequenceEntryMappingKeyState,
              [EMPTY_SCALAR] + ([EMPTY_SCALAR] + ([MappingEnd] + events)), last);
  }

  lemma KeylessKeyStep(p: Parser, tail: seq<Token>, events: seq<Event>, last: Parser)
    requires p.state == FlowSequenceEntryMappingKeyState && p.tokens == [ValueToken] + tail
    requires EndsFlow(tail, false) && events != []
    requires Yields(ParseFlowSequenceEntry(In(At(p, tail), FlowSequenceEntryState), false), events, last)
    ensures Yields(Step(p), [EMPTY_SCALAR] + ([EMPTY_SCALAR] + ([MappingEnd] + events)), last)
  {
    hide Reaches, Yields, ParseNode, ParseFlowSequenceEntry;
    SkipOne(p, ValueToken, tail);
    EmptyValueStep(In(At(p, tail), FlowSequenceEntryMappingValueState), events, last);
    OpensThen(EMPTY_SCALAR, At(p, tail), FlowSequenceEntryMappingValueState, [EMPTY_SCALAR] + ([MappingEnd] + events), last);
  }

  lemma EmptyValueStep(p: Parser, events: seq<Event>, last: Parser)
    requires p.state == FlowSequenceEntryMappingValueState && EndsFlow(p.tokens, false) && events != []
    requires Yields(ParseFlowSequenceEntry(In(p, FlowSequenceEntryState), false), events, last)
    ensures Yields(Step(p), [EMPTY_SCALAR] + ([MappingEnd] + events), last)
  {
    hide Reaches, Yields, ParseNode, ParseFlowSequenceEntry;
    SinglePairEnds(In(p, FlowSequenceEntryMappingEndState), events, last);
    OpensThen(EMPTY_SCALAR, p, FlowSequenceEntryMappingEndState, [MappingEnd] + events, last);
  }

  /** No step puts a token back. */
  lemma StepTakesTokens(p: Parser)
    requires p.state != EndState
    ensures Step(p).Emitted? ==> |Step(p).parser.tokens| <= |p.tokens|
  {
    hide ParseNode, ReadDirectives, ParseFlowSequenceEntry, ParseFlowMappingKey;
    NodeTakesTokens(p);
    FlowEntryTakesTokens(p);
  }

  lemma FlowEntryTakesTokens(p: Parser)
    ensures forall first :: TakesTokens(ParseFlowSequenceEntry(p, first), |p.tokens|)
    ensures forall first :: TakesTokens(ParseFlowMappingKey(p, first), |p.tokens|)
  {
    hide ParseNode;
    NodeTakesTokens(p);
  }

  predicate TakesTokens(outcome: Outcome, n: nat) {
    outcome.Emitted? ==> |outcome.parser.tokens| <= n
  }

  lemma NodeTakesTokens(p: Parser)
    ensures forall q: Parser, block, indentless :: TakesTokens(ParseNode(q, block, indentless), |q.tokens|)
  {
    hide ReadProperties, ResolveTag;
  }

  lemma {:induction false} ReachingTakesTokens(p: Parser, events: seq<Event>, last: Parser)
    requires Reaches(p, events, last)
    ensures |last.tokens| <= |p.tokens|
    decreases |events|
  {
    hide Step;
    if events != [] {
      StepTakesTokens(p);
      ReachingTakesTokens(Step(p).parser, events[1..], last);
    }
  }

  /** The events of a pair that is an entry of a flow sequence. */
  function PairEvents(pair: Items, d: seq<TagDirective>): seq<Event>
    requires pair.Pair?
  {
    [MappingStart(None, None, true, FLOW_STYLE)] + (EventsOf(pair.key, d) + (EventsOf(pair.value, d) + [MappingEnd]))
  }

  /** Without a value token, the comma or bracket behind the pair is skipped for the key, and lost. */
  lemma LostEnd(p: Parser, tail: seq<Token>, events: seq<Event>, last: Parser)
    requires p.state == FlowSequenceEntryMappingKeyState && p.tokens == tail && EndsFlow(tail, false)
    requires last.tokens == tail && events != []
    ensures !Reaches(p, events, last)
  {
    hide ParseNode;
    assert Step(p) == Emit(EMPTY_SCALAR, Skip(p), FlowSequenceEntryMappingValueState);
    if Reaches(p, events, last) {
      assert Yields(Step(p), events, last);
      ReachingTakesTokens(Step(p).parser, events[1..], last);
    }
  }

  /** With a value, the value token is skipped for the key, and the value stands where a comma is expected. */
  lemma MissingSingleKeyLosesTheValue(value: Tree, p: Parser, tail: seq<Token>)
    requires p.state == FlowSequenceEntryMappingKeyState && p.tokens == [ValueToken] + TokensThen(value, tail)
    requires Fits(value, false, false, p.directives)
    ensures var q := In(At(p, TokensThen(value, tail)), FlowSequenceEntryState);
      && Reaches(p, [EMPTY_SCALAR, EMPTY_SCALAR, MappingEnd], q)
      && Step(q) == FailPopMark(q)
  {
    hide ParseNode, TokensThen, Fits, Step, Reaches;
    var behind := TokensThen(value, tail);
    StartsWithNode(value, tail, false, false, p.directives);
    SkipOne(p, ValueToken, behind);
    KeyAndValueSteps(p, behind);
    AfterPairExpectsComma(In(At(p, behind), FlowSequenceEntryState));
  }

  /** The value token is skipped for the key, and both are empty. */
  lemma KeyAndValueSteps(p: Parser, behind: seq<Token>)
    requires p.state == FlowSequenceEntryMappingKeyState && p.tokens == [ValueToken] + behind
    requires behind != [] && behind[0] != ValueToken
    ensures Reaches(p, [EMPTY_SCALAR, EMPTY_SCALAR, MappingEnd], In(At(p, behind), FlowSequenceEntryState))
  {
    hide ParseNode, Reaches;
    SkipOne(p, ValueToken, behind);
    var q1 := In(At(p, behind), FlowSequenceEntryMappingValueState);
    ThreeSteps(p, q1, In(q1, FlowSequenceEntryMappingEndState), In(q1, FlowSequenceEntryState));
  }

  lemma AfterPairExpectsComma(p: Parser)
    requires p.state == FlowSequenceEntryState && p.tokens != [] && !EndsFlow(p.tokens, false)
    ensures Step(p) == FailPopMark(p)
  {
    hide ParseNode;
  }

  /** Two runs of the same machine: the shorter is the start of the longer. */
  lemma {:induction false} RunsAgree(p: Parser, first: seq<Event>, middle: Parser, events: seq<Event>, last: Parser)
    requires Reaches(p, first, middle) && Reaches(p, events, last) && |first| <= |events|
    ensures Reaches(middle, events[|first|..], last)
    decreases |first|
  {
    hide Step;
    if first != [] {
      RunsAgree(Step(p).parser, first[1..], middle, events[1..], last);
      assert events[1..][|first| - 1..] == events[|first|..];
    } else {
      assert events[0..] == events;
    }
  }

  /** The first step of a single pair is the start of its mapping. */
  lemma PairOpensThen(p: Parser, behind: seq<Token>, events: seq<Event>, last: Parser)
    requires p.state == FlowSequenceEntryState && p.tokens == [FlowEntryToken] + ([KeyToken] + behind)
    requires events != [] && events[0] == MappingStart(None, None, true, FLOW_STYLE)
    ensures Reaches(p, events, last) <==> Reaches(In(At(p, behind), FlowSequenceEntryMappingKeyState), events[1..], last)
  {
    hide ParseNode;
    SinglePairOpens(p, behind);
    Dispatch(p);
  }

  lemma FirstPairOpensThen(p: Parser, behind: seq<Token>, events: seq<Event>, last: Parser)
    requires p.state == FlowSequenceFirstEntryState && p.tokens == [FlowSequenceStartToken] + ([KeyToken] + behind)
    requires events != [] && events[0] == MappingStart(None, None, true, FLOW_STYLE)
    ensures Reaches(p, events, last) <==> Reaches(In(At(PushMark(p), behind), FlowSequenceEntryMappingKeyState), events[1..], last)
  {
    hide ParseNode;
    SkipOne(PushMark(p), FlowSequenceStartToken, [KeyToken] + behind);
    SkipOne(Skip(PushMark(p)), KeyToken, behind);
  }

  lemma PassesKeyless(p: Parser, tail: seq<Token>)
    requires p.state == FlowSequenceEntryMappingKeyState && p.tokens == [ValueToken] + tail && EndsFlow(tail, false)
    ensures Reaches(p, [EMPTY_SCALAR, EMPTY_SCALAR, MappingEnd], In(At(p, tail), FlowSequenceEntryState))
  {
    hide ParseNode;
    SkipOne(p, ValueToken, tail);
    KeyAndValueSteps(p, tail);
  }

  lemma ThreeSteps(p: Parser, q1: Parser, q2: Parser, q: Parser)
    requires p.state != EndState && q1.state != EndState && q2.state != EndState
    requires Step(p) == Emitted(EMPTY_SCALAR, q1) && Step(q1) == Emitted(EMPTY_SCALAR, q2) && Step(q2) == Emitted(MappingEnd, q)
    ensures Reaches(p, [EMPTY_SCALAR, EMPTY_SCALAR, MappingEnd], q)
  {
    hide Step;
    YieldsOne(MappingEnd, q);
    StepReaches(q2, [MappingEnd], q);
    assert [EMPTY_SCALAR, MappingEnd][1..] == [MappingEnd];
    StepReaches(q1, [EMPTY_SCALAR, MappingEnd], q);
    assert [EMPTY_SCALAR, EMPTY_SCALAR, MappingEnd][1..] == [EMPTY_SCALAR, MappingEnd];
    StepReaches(p, [EMPTY_SCALAR, EMPTY_SCALAR, MappingEnd], q);
  }

  /** Behind a lost value the parser is never where the pair ends. */
  lemma LosesValue(value: Tree, p: Parser, tail: seq<Token>, events: seq<Event>, last: Parser)
    requires p.state == FlowSequenceEntryMappingKeyState && p.tokens == [ValueToken] + TokensThen(value, tail)
    requires Fits(value, false, false, p.directives) && EndsFlow(tail, false)
    requires last.tokens == tail && |events| >= 3
    ensures !Reaches(p, events, last)
  {
    hide ParseNode, TokensThen, Fits, Step;
    MissingSingleKeyLosesTheValue(value, p, tail);
    StartsWithNode(value, tail, false, false, p.directives);
    if Reaches(p, events, last) {
      RunsAgree(p, [EMPTY_SCALAR, EMPTY_SCALAR, MappingEnd], In(At(p, TokensThen(value, tail)), FlowSequenceEntryState), events, last);
    }
  }

  /**
    Behind the start of its mapping a single pair without a key, in front of what continues the
    sequence, is parsed to its events, and the sequence goes on behind it, if and only if it has
    a value token and no value. Else the token skipped for the key is one that is needed.
   */
  lemma KeylessPairParsesExactly(pair: Items, p: Parser, tail: seq<Token>)
    requires pair.Pair? && pair.key == Missing
    requires pair.value == Missing || (pair.colon && Fits(pair.value, false, false, p.directives))
    requires p.state == FlowSequenceEntryMappingKeyState && EndsFlow(tail, false)
    requires p.tokens == ColonThen(pair.colon, pair.value, tail)
    ensures Reaches(p, PairEvents(pair, p.directives)[1..], In(At(p, tail), FlowSequenceEntryState))
      <==> pair.colon && pair.value == Missing
  {
    hide ParseNode, TokensThen, Fits, EventsOf, Step, Reaches;
    var last := In(At(p, tail), FlowSequenceEntryState);
    var events := PairEvents(pair, p.directives)[1..];
    if pair.colon && pair.value == Missing {
      MissingIsEmpty(p.directives, tail);
      PassesKeyless(p, tail);
      assert events == [EMPTY_SCALAR, EMPTY_SCALAR, MappingEnd];
    } else if !pair.colon {
      LostEnd(p, tail, events, last);
    } else {
      LosesValue(pair.value, p, tail, events, last);
    }
  }

  /** The same behind a comma. */
  lemma FurtherKeylessPairParsesExactly(pair: Items, p: Parser, tail: seq<Token>)
    requires pair.Pair? && pair.key == Missing
    requires pair.value == Missing || (pair.colon && Fits(pair.value, false, false, p.directives))
    requires p.state == FlowSequenceEntryState && EndsFlow(tail, false)
    requires p.tokens == [FlowEntryToken] + ([KeyToken] + ColonThen(pair.colon, pair.value, tail))
    ensures Reaches(p, PairEvents(pair, p.directives), In(At(p, tail), FlowSequenceEntryState))
      <==> pair.colon && pair.value == Missing
  {
    hide ParseNode, TokensThen, Fits, EventsOf, Step, Reaches;
    var behind := ColonThen(pair.colon, pair.value, tail);
    var atKey := In(At(p, behind), FlowSequenceEntryMappingKeyState);
    PairOpensThen(p, behind, PairEvents(pair, p.directives), In(At(p, tail), FlowSequenceEntryState));
    KeylessPairParsesExactly(pair, atKey, tail);
  }

  /** The same for the first entry, as in `[? : value]`: the bracket is passed and marked. */
  lemma FirstKeylessPairParsesExactly(pair: Items, p: Parser, tail: seq<Token>)
    requires pair.Pair? && pair.key == Missing
    requires pair.value == Missing || (pair.colon && Fits(pair.value, false, false, p.directives))
    requires p.state == FlowSequenceFirstEntryState && EndsFlow(tail, false)
    requires p.tokens == [FlowSequenceStartToken] + ([KeyToken] + ColonThen(pair.colon, pair.value, tail))
    ensures Reaches(p, PairEvents(pair, p.directives), In(At(PushMark(p), tail), FlowSequenceEntryState))
      <==> pair.colon && pair.value == Missing
  {
    hide ParseNode, TokensThen, Fits, EventsOf, Step, Reaches;
    var behind := ColonThen(pair.colon, pair.value, tail);
    var atKey := In(At(PushMark(p), behind), FlowSequenceEntryMappingKeyState);
    FirstPairOpensThen(p, behind, PairEvents(pair, p.directives), In(At(PushMark(p), tail), FlowSequenceEntryState));
    KeylessPairParsesExactly(pair, atKey, tail);
  }

  // ----- The main result

  /** The tokens of a tree by themselves. */
  function Tokens(t: Tree): seq<Token> {
    TokensThen(t, [])
  }

  lemma PropsThenMore(props: Props, first: seq<Token>, second: seq<Token>)
    ensures PropsThen(props, first + second) == PropsThen(props, first) + second
  {
    var anchor := if props.anchor.Some? then [AnchorToken(props.anchor.value)] else [];
    var tag := if props.tag.Some? then [TagToken(props.tag.value.0, props.tag.value.1)] else [];
    assert anchor + (first + second) == (anchor + first) + second;
    assert tag + (first + second) == (tag + first) + second;
    assert anchor + ((tag + first) + second) == (anchor + (tag + first)) + second;
    assert tag + ((anchor + first) + second) == (tag + (anchor + first)) + second;
  }

  lemma OneMore(token: Token, first: seq<Token>, second: seq<Token>)
    ensures [token] + (first + second) == ([token] + first) + second
  {
  }

  lemma {:induction false} TokensThenMore(t: Tree, first: seq<Token>, second: seq<Token>)
    ensures TokensThen(t, first + second) == TokensThen(t, first) + second
    decreases t, 0
  {
    hide PropsThen, EntriesThen, PairsThen, AfterComma;
    match t {
      case Missing =>
      case Alias(name) => OneMore(AliasToken(name), first, second);
      case Scalar(props, value, style) =>
        OneMore(ScalarToken(value, style), first, second);
        PropsThenMore(props, [ScalarToken(value, style)] + first, second);
      case Bare(props) => PropsThenMore(props, first, second);
      case BlockSequence(props, items) =>
        OneMore(BlockEndToken, first, second);
        EntriesThenMore(items, [BlockEndToken] + first, second);
        OneMore(BlockSequenceStartToken, EntriesThen(items, [BlockEndToken] + first), second);
        PropsThenMore(props, [BlockSequenceStartToken] + EntriesThen(items, [BlockEndToken] + first), second);
      case Indentless(props, items) =>
        EntriesThenMore(items, first, second);
        PropsThenMore(props, EntriesThen(items, first), second);
      case BlockMapping(props, items) =>
        OneMore(BlockEndToken, first, second);
        PairsThenMore(items, [BlockEndToken] + first, second);
        OneMore(BlockMappingStartToken, PairsThen(items, [BlockEndToken] + first), second);
        PropsThenMore(props, [BlockMappingStartToken] + PairsThen(items, [BlockEndToken] + first), second);
      case FlowSequence(props, items) =>
        OneMore(FlowSequenceEndToken, first, second);
        AfterCommaMore(items, [FlowSequenceEndToken] + first, second);
        OneMore(FlowSequenceStartToken, AfterComma(items, [FlowSequenceEndToken] + first), second);
        PropsThenMore(props, [FlowSequenceStartToken] + AfterComma(items, [FlowSequenceEndToken] + first), second);
      case FlowMapping(props, items) =>
        OneMore(FlowMappingEndToken, first, second);
        AfterCommaMore(items, [FlowMappingEndToken] + first, second);
        OneMore(FlowMappingStartToken, AfterComma(items, [FlowMappingEndToken] + first), second);
        PropsThenMore(props, [FlowMappingStartToken] + AfterComma(items, [FlowMappingEndToken] + first), second);
    }
  }

  lemma {:induction false} EntriesThenMore(items: Items, first: seq<Token>, second: seq<Token>)
    ensures EntriesThen(items, first + second) == EntriesThen(items, first) + second
    decreases items, 1
  {
    hide TokensThen;
    match items {
      case End(_) =>
      case Pair(_, _, _, more) => EntriesThenMore(more, first, second);
      case Node(node, more) =>
        EntriesThenMore(more, first, second);
        TokensThenMore(node, EntriesThen(more, first), second);
        OneMore(BlockEntryToken, TokensThen(node, EntriesThen(more, first)), second);
    }
  }

  /** A key, and a value if there is one, in front of the rest of a collection. */
  lemma {:induction false} PairThenMore(pair: Items, first: seq<Token>, second: seq<Token>)
    requires pair.Pair?
    ensures [KeyToken] + TokensThen(pair.key, ColonThen(pair.colon, pair.value, first + second))
      == ([KeyToken] + TokensThen(pair.key, ColonThen(pair.colon, pair.value, first))) + second
    decreases pair, 0
  {
    hide TokensThen;
    var behind := ColonThen(pair.colon, pair.value, first);
    TokensThenMore(pair.value, first, second);
    OneMore(ValueToken, TokensThen(pair.value, first), second);
    assert ColonThen(pair.colon, pair.value, first + second) == behind + second;
    TokensThenMore(pair.key, behind, second);
    OneMore(KeyToken, TokensThen(pair.key, behind), second);
  }

  lemma {:induction false} PairsThenMore(items: Items, first: seq<Token>, second: seq<Token>)
    ensures PairsThen(items, first + second) == PairsThen(items, first) + second
    decreases items, 1
  {
    hide TokensThen;
    match items {
      case End(_) =>
      case Node(_, more) => PairsThenMore(more, first, second);
      case Pair(_, _, _, more) =>
        PairsThenMore(more, first, second);
        PairThenMore(items, PairsThen(more, first), second);
    }
  }

  lemma {:induction false} CommasThenMore(items: Items, first: seq<Token>, second: seq<Token>)
    ensures CommasThen(items, first + second) == CommasThen(items, first) + second
    decreases items, 2
  {
    hide AfterComma;
    OneMore(FlowEntryToken, first, second);
    AfterCommaMore(items, first, second);
    OneMore(FlowEntryToken, AfterComma(items, first), second);
  }

  lemma {:induction false} AfterCommaMore(items: Items, first: seq<Token>, second: seq<Token>)
    ensures AfterComma(items, first + second) == AfterComma(items, first) + second
    decreases items, 1
  {
    hide TokensThen, CommasThen;
    match items {
      case End(_) =>
      case Node(node, more) =>
        CommasThenMore(more, first, second);
        TokensThenMore(node, CommasThen(more, first), second);
      case Pair(_, _, _, more) =>
        CommasThenMore(more, first, second);
        PairThenMore(items, CommasThen(more, first), second);
    }
  }

  /**
    Parsing inverts linearisation. From any of the three node states, on the tokens of a tree
    and whatever comes behind them, the machine gives exactly the tree's events, leaves what
    comes behind, and is in the state that was on top of its stack, the stacks and directives
    as they were.
   */
  lemma ParserInvertsLinearisation(t: Tree, p: Parser, rest: seq<Token>, block: bool, indentless: bool)
    requires p.state == if indentless then BlockNodeOrIndentlessSequenceState else if block then BlockNodeState else FlowNodeState
    requires indentless ==> block
    requires p.tokens == Tokens(t) + rest && p.states != []
    requires Fits(t, block, indentless, p.directives) && Follows(t, rest, block, indentless)
    ensures Reaches(p, EventsOf(t, p.directives), Returned(p, rest))
  {
    hide ParseNode, Fits, Follows, TokensThen, Yields;
    TokensThenMore(t, [], rest);
    assert [] + rest == rest;
    NodeParses(t, p, rest, block, indentless);
    StepReaches(p, EventsOf(t, p.directives), Returned(p, rest));
  }
}
