/**
  The composer, as functions of the events still to come (loader.c, yaml_parser_load_node and
  the functions it calls). The events end where the parser fails.
 */
module Loading {
  import opened Options
  import opened Events
  import opened Documents

  datatype AliasData = AliasData(anchor: string, index: nat)

  /** The document under construction and the registered anchors. */
  datatype Composed = Composed(nodes: seq<Node>, aliases: seq<AliasData>)

  datatype Outcome =
    | Loaded(index: nat, composed: Composed, rest: seq<Event>)
    | Failed   // a parser or composer error
    | Aborted  // a failed assertion: an event that cannot start a node

  function FindAlias(aliases: seq<AliasData>, anchor: string): Option<nat> {
    if aliases == [] then None
    else if aliases[0].anchor == anchor then Some(aliases[0].index)
    else FindAlias(aliases[1..], anchor)
  }

  /** None if the anchor is a duplicate. */
  function RegisterAnchor(c: Composed, index: nat, anchor: Option<string>): Option<Composed> {
    match anchor
    case None => Some(c)
    case Some(name) =>
      if FindAlias(c.aliases, name).Some? then None
      else Some(c.(aliases := c.aliases + [AliasData(name, index)]))
  }

  /** A missing or non-specific tag becomes the default of the kind. */
  function LoadedTag(tag: Option<string>, default: string): string {
    if tag == None || tag.value == "!" then default else tag.value
  }

  /** Pushes the node that an event opens, and registers its anchor. */
  function Push(c: Composed, node: Node, anchor: Option<string>): Option<Composed> {
    RegisterAnchor(c.(nodes := c.nodes + [node]), |c.nodes| + 1, anchor)
  }

  function AppendItem(c: Composed, index: nat, item: nat): (r: Composed)
    requires 1 <= index <= |c.nodes| && c.nodes[index - 1].SequenceNode?
  {
    var node := c.nodes[index - 1];
    c.(nodes := c.nodes[index - 1 := node.(items := node.items + [item])])
  }

  function AppendPair(c: Composed, index: nat, pair: (nat, nat)): (r: Composed)
    requires 1 <= index <= |c.nodes| && c.nodes[index - 1].MappingNode?
  {
    var node := c.nodes[index - 1];
    c.(nodes := c.nodes[index - 1 := node.(pairs := node.pairs + [pair])])
  }

  /** Loading keeps the nodes before the new ones, and the kinds of those being filled. */
  ghost predicate Extends(c: Composed, c': Composed) {
    && |c.nodes| <= |c'.nodes|
    && forall k :: 0 <= k < |c.nodes| ==> c'.nodes[k] == c.nodes[k]
  }

  ghost predicate Keeps(outcome: Outcome, c: Composed, events: seq<Event>) {
    outcome.Loaded? ==> Extends(c, outcome.composed) && |outcome.rest| < |events|
  }

  function LoadNode(events: seq<Event>, c: Composed): (r: Outcome)
    ensures Keeps(r, c, events)
    decreases |events|, 0
  {
    if events == [] then Failed
    else
      match events[0]
      case AliasEvent(anchor) =>
        if anchor == None then Aborted
        else
          match FindAlias(c.aliases, anchor.value) {
            case None => Failed
            case Some(index) => Loaded(index, c, events[1..])
          }
      case ScalarEvent(anchor, tag, value, _, _, style) =>
        (match Push(c, ScalarNode(LoadedTag(tag, SCALAR_TAG), value, style), anchor)
         case None => Failed
         case Some(c') => Loaded(|c.nodes| + 1, c', events[1..]))
      case SequenceStart(anchor, tag, _, style) =>
        (match Push(c, SequenceNode(LoadedTag(tag, SEQUENCE_TAG), [], style), anchor)
         case None => Failed
         case Some(c') => LoadItems(events[1..], c', |c.nodes| + 1))
      case MappingStart(anchor, tag, _, style) =>
        (match Push(c, MappingNode(LoadedTag(tag, MAPPING_TAG), [], style), anchor)
         case None => Failed
         case Some(c') => LoadPairs(events[1..], c', |c.nodes| + 1))
      case _ => Aborted
  }

  /** All nodes but the one at `index` are kept. */
  ghost predicate Fills(outcome: Outcome, c: Composed, index: nat, events: seq<Event>) {
    outcome.Loaded? ==>
      && |outcome.rest| < |events| && outcome.index == index
      && |c.nodes| <= |outcome.composed.nodes|
      && forall k :: 0 <= k < |c.nodes| && k != index - 1 ==> outcome.composed.nodes[k] == c.nodes[k]
  }

  function LoadItems(events: seq<Event>, c: Composed, index: nat): (r: Outcome)
    requires 1 <= index <= |c.nodes| && c.nodes[index - 1].SequenceNode?
    ensures Fills(r, c, index, events)
    decreases |events|, 1
  {
    if events == [] then Failed
    else if events[0] == SequenceEnd then Loaded(index, c, events[1..])
    else
      match LoadNode(events, c)
      case Loaded(item, c', rest) => LoadItems(rest, AppendItem(c', index, item), index)
      case other => other
  }

  function LoadPairs(events: seq<Event>, c: Composed, index: nat): (r: Outcome)
    requires 1 <= index <= |c.nodes| && c.nodes[index - 1].MappingNode?
    ensures Fills(r, c, index, events)
    decreases |events|, 1
  {
    if events == [] then Failed
    else if events[0] == MappingEnd then Loaded(index, c, events[1..])
    else
      match LoadNode(events, c)
      case Loaded(key, c', rest) =>
        (match LoadNode(rest, c')
         case Loaded(value, c'', rest') => LoadPairs(rest', AppendPair(c'', index, (key, value)), index)
         case other => other)
      case other => other
  }

  /** One document behind its start event; the index in the outcome is its root's. */
  function LoadDocument(events: seq<Event>): (r: Outcome)
    ensures r.Loaded? ==> |r.rest| < |events|
  {
    match LoadNode(events, Composed([], []))
    case Loaded(index, c, rest) =>
      if rest == [] then Failed
      else if !rest[0].DocumentEnd? then Aborted
      else Loaded(index, c, rest[1..])
    case other => other
  }
}
