/**
  The two passes of the dumper, as functions (dumper.c, yaml_emitter_anchor_node and
  yaml_emitter_dump_node).
 */
module Dumping {
  import opened Options
  import opened Events
  import opened Documents
  import opened AnchorText

  // ----- The first pass: counting references

  /** How often each node was visited, its anchor id (0 for none), and the last id given. */
  datatype Anchors = Anchors(references: seq<nat>, ids: seq<nat>, last: nat)

  predicate Fits(doc: Document, a: Anchors) {
    |a.references| == |doc| && |a.ids| == |doc|
  }

  function Unvisited(a: Anchors): set<nat> {
    set k: nat | k < |a.references| && a.references[k] == 0
  }

  /** The first visit goes on to the children, the second gives an anchor. */
  function AnchorNode(doc: Document, i: nat, a: Anchors): (r: Anchors)
    requires WellFormed(doc) && IsIndex(doc, i) && Fits(doc, a)
    ensures Fits(doc, r) && Unvisited(r) <= Unvisited(a)
    decreases Unvisited(a), 0
  {
    var n := a.references[i - 1] + 1;
    var a' := a.(references := a.references[i - 1 := n]);
    if n == 1 then
      assert i - 1 in Unvisited(a) && i - 1 !in Unvisited(a');
      AnchorItems(doc, Children(doc[i - 1]), a')
    else if n == 2 then a'.(ids := a'.ids[i - 1 := a'.last + 1], last := a'.last + 1)
    else a'
  }

  function AnchorItems(doc: Document, items: seq<nat>, a: Anchors): (r: Anchors)
    requires WellFormed(doc) && AllIndices(doc, items) && Fits(doc, a)
    ensures Fits(doc, r) && Unvisited(r) <= Unvisited(a)
    decreases Unvisited(a), |items|
  {
    if items == [] then a
    else AnchorItems(doc, items[1..], AnchorNode(doc, items[0], a))
  }

  function NoAnchors(doc: Document): (a: Anchors)
    ensures Fits(doc, a)
  {
    Anchors(seq(|doc|, _ => 0), seq(|doc|, _ => 0), 0)
  }

  // ----- The second pass: serializing

  /** The events, the nodes serialized so far in order of their first visit, and every visit made. */
  datatype Dumped = Dumped(events: seq<Event>, order: seq<nat>, visits: seq<nat>)

  function Unserialized(doc: Document, order: seq<nat>): set<nat> {
    set k: nat | 1 <= k <= |doc| && k !in order
  }

  function Anchor(ids: seq<nat>, i: nat): Option<string>
    requires 1 <= i <= |ids|
  {
    if ids[i - 1] == 0 then None else Some(AnchorName(ids[i - 1]))
  }

  /** The event that opens a node; scalars have no other. */
  function OpeningEvent(anchor: Option<string>, node: Node): Event {
    match node
    case ScalarNode(tag, value, style) =>
      ScalarEvent(anchor, Some(tag), value, tag == SCALAR_TAG, tag == SCALAR_TAG, style)
    case SequenceNode(tag, _, style) => SequenceStart(anchor, Some(tag), tag == SEQUENCE_TAG, style)
    case MappingNode(tag, _, style) => MappingStart(anchor, Some(tag), tag == MAPPING_TAG, style)
  }

  function ClosingEvents(node: Node): seq<Event> {
    match node
    case ScalarNode(_, _, _) => []
    case SequenceNode(_, _, _) => [SequenceEnd]
    case MappingNode(_, _, _) => [MappingEnd]
  }

  function DumpNode(doc: Document, ids: seq<nat>, i: nat, order: seq<nat>): (d: Dumped)
    requires WellFormed(doc) && |ids| == |doc| && IsIndex(doc, i)
    ensures Unserialized(doc, d.order) <= Unserialized(doc, order)
    decreases Unserialized(doc, order), 0
  {
    if i in order then Dumped([AliasEvent(Anchor(ids, i))], order, [i])
    else
      assert i in Unserialized(doc, order) && i !in Unserialized(doc, order + [i]);
      var d := DumpItems(doc, ids, Children(doc[i - 1]), order + [i]);
      Dumped([OpeningEvent(Anchor(ids, i), doc[i - 1])] + d.events + ClosingEvents(doc[i - 1]), d.order, [i] + d.visits)
  }

  function DumpItems(doc: Document, ids: seq<nat>, items: seq<nat>, order: seq<nat>): (d: Dumped)
    requires WellFormed(doc) && |ids| == |doc| && AllIndices(doc, items)
    ensures Unserialized(doc, d.order) <= Unserialized(doc, order)
    decreases Unserialized(doc, order), |items|
  {
    if items == [] then Dumped([], order, [])
    else
      var first := DumpNode(doc, ids, items[0], order);
      var rest := DumpItems(doc, ids, items[1..], first.order);
      Dumped(first.events + rest.events, rest.order, first.visits + rest.visits)
  }

  /** The events of a document's root node, both passes together. */
  function DumpRoot(doc: Document): Dumped
    requires WellFormed(doc) && doc != []
  {
    DumpNode(doc, AnchorNode(doc, 1, NoAnchors(doc)).ids, 1, [])
  }
}
