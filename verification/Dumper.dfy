/**
  The dumper at work: two recursions that change the anchors array in place.
 */
module Dumper {
  import opened Options
  import opened Events
  import opened Documents
  import opened AnchorText
  import Dumping

  datatype AnchorData = AnchorData(references: nat, anchor: nat, serialized: bool)

  class Dumper {
    const doc: Document
    const anchors: array<AnchorData>
    var lastAnchorId: nat
    var events: seq<Event>
    ghost var order: seq<nat>  // the serialized nodes, in order of their first visit

    constructor (doc: Document)
      requires WellFormed(doc) && doc != []
      ensures this.doc == doc && fresh(anchors) && events == [] && order == []
      ensures Valid() && State() == Dumping.NoAnchors(doc)
    {
      this.doc := doc;
      anchors := new AnchorData[|doc|](_ => AnchorData(0, 0, false));
      lastAnchorId, events, order := 0, [], [];
    }

    ghost predicate Valid()
      reads this, anchors
    {
      && WellFormed(doc) && anchors.Length == |doc|
      && forall k :: 0 <= k < anchors.Length ==> (anchors[k].serialized <==> k + 1 in order)
    }

    /** The counts and ids in the array. */
    ghost function State(): (a: Dumping.Anchors)
      requires anchors.Length == |doc|
      reads this, anchors
      ensures Dumping.Fits(doc, a)
    {
      Dumping.Anchors(seq(|doc|, k requires 0 <= k < |doc| reads anchors => anchors[k].references),
                      seq(|doc|, k requires 0 <= k < |doc| reads anchors => anchors[k].anchor),
                      lastAnchorId)
    }

    method AnchorNode(index: nat)
      requires Valid() && IsIndex(doc, index)
      modifies anchors, this`lastAnchorId
      ensures Valid() && State() == Dumping.AnchorNode(doc, index, old(State()))
      decreases Dumping.Unvisited(State()), 0
    {
      ghost var before := State();
      var data := anchors[index - 1];
      anchors[index - 1] := data.(references := data.references + 1);
      ghost var counted := before.(references := before.references[index - 1 := before.references[index - 1] + 1]);
      assert State() == counted;
      if anchors[index - 1].references == 1 {
        assert index - 1 in Dumping.Unvisited(before) && index - 1 !in Dumping.Unvisited(counted);
        match doc[index - 1] {
          case ScalarNode(_, _, _) =>
          case SequenceNode(_, items, _) => AnchorSequence(items);
          case MappingNode(_, pairs, _) => AnchorMapping(pairs);
        }
      } else if anchors[index - 1].references == 2 {
        lastAnchorId := lastAnchorId + 1;
        anchors[index - 1] := anchors[index - 1].(anchor := lastAnchorId);
        assert State() == counted.(ids := counted.ids[index - 1 := counted.last + 1], last := counted.last + 1);
      }
    }

    method AnchorSequence(items: seq<nat>)
      requires Valid() && AllIndices(doc, items)
      modifies anchors, this`lastAnchorId
      ensures Valid() && State() == Dumping.AnchorItems(doc, items, old(State()))
      decreases Dumping.Unvisited(State()), |items| + 1
    {
      ghost var goal := Dumping.AnchorItems(doc, items, State());
      var k := 0;
      while k < |items|
        invariant 0 <= k <= |items| && Valid() && Dumping.AnchorItems(doc, items[k..], State()) == goal
        invariant Dumping.Unvisited(State()) <= old(Dumping.Unvisited(State()))
      {
        assert items[k..][1..] == items[k + 1..];
        AnchorNode(items[k]);
        k := k + 1;
      }
    }

    method AnchorMapping(pairs: seq<(nat, nat)>)
      requires Valid() && AllIndices(doc, Flatten(pairs))
      modifies anchors, this`lastAnchorId
      ensures Valid() && State() == Dumping.AnchorItems(doc, Flatten(pairs), old(State()))
      decreases Dumping.Unvisited(State()), |Flatten(pairs)| + 1
    {
      ghost var goal := Dumping.AnchorItems(doc, Flatten(pairs), State());
      assert pairs[0..] == pairs;
      var k := 0;
      while k < |pairs|
        invariant 0 <= k <= |pairs| && Valid() && AllIndices(doc, Flatten(pairs[k..]))
        invariant Dumping.AnchorItems(doc, Flatten(pairs[k..]), State()) == goal
        invariant Dumping.Unvisited(State()) <= old(Dumping.Unvisited(State()))
      {
        FlattenStep(doc, pairs, k);
        AnchorNode(pairs[k].0);
        AnchorNode(pairs[k].1);
        k := k + 1;
      }
    }

    method DumpNode(index: nat)
      requires Valid() && IsIndex(doc, index)
      modifies anchors, this`events, this`order
      ensures Valid() && State() == old(State())
      ensures var d := Dumping.DumpNode(doc, old(State()).ids, index, old(order));
        events == old(events) + d.events && order == d.order
      decreases Dumping.Unserialized(doc, order), 0
    {
      hide Dumping.DumpItems, Dumping.OpeningEvent, AnchorName;
      ghost var ids := State().ids;
      var node := doc[index - 1];
      var anchorId := anchors[index - 1].anchor;
      var anchor := if anchorId == 0 then None else Some(AnchorName(anchorId));
      assert anchor == Dumping.Anchor(ids, index);
      assert anchors[index - 1].serialized <==> index - 1 + 1 in order;
      if anchors[index - 1].serialized {
        events := events + [AliasEvent(anchor)];
        return;
      }
      assert index in Dumping.Unserialized(doc, order) && index !in Dumping.Unserialized(doc, order + [index]);
      anchors[index - 1] := anchors[index - 1].(serialized := true);
      order := order + [index];
      assert State() == old(State());
      events := events + [Dumping.OpeningEvent(anchor, node)];
      DumpContent(node);
      ghost var d := Dumping.DumpItems(doc, ids, Children(node), old(order) + [index]);
      assert old(events) + [Dumping.OpeningEvent(anchor, node)] + (d.events + Dumping.ClosingEvents(node))
          == old(events) + ([Dumping.OpeningEvent(anchor, node)] + d.events + Dumping.ClosingEvents(node));
    }

    /** The events behind the opening one. */
    method DumpContent(node: Node)
      requires Valid() && AllIndices(doc, Children(node))
      modifies anchors, this`events, this`order
      ensures Valid() && State() == old(State())
      ensures var d := Dumping.DumpItems(doc, old(State()).ids, Children(node), old(order));
        events == old(events) + (d.events + Dumping.ClosingEvents(node)) && order == d.order
      decreases Dumping.Unserialized(doc, order), |Children(node)| + 2
    {
      hide Dumping.DumpNode;
      match node {
        case ScalarNode(_, _, _) =>
        case SequenceNode(_, items, _) =>
          DumpSequence(items);
          events := events + [SequenceEnd];
        case MappingNode(_, pairs, _) =>
          DumpMapping(pairs);
          events := events + [MappingEnd];
      }
    }

    method DumpSequence(items: seq<nat>)
      requires Valid() && AllIndices(doc, items)
      modifies anchors, this`events, this`order
      ensures Valid() && State() == old(State())
      ensures var d := Dumping.DumpItems(doc, old(State()).ids, items, old(order));
        events == old(events) + d.events && order == d.order
      decreases Dumping.Unserialized(doc, order), |items| + 1
    {
      ghost var ids := State().ids;
      ghost var goal := Dumping.DumpItems(doc, ids, items, order);
      var k := 0;
      while k < |items|
        invariant 0 <= k <= |items| && Valid() && State() == old(State())
        invariant var d := Dumping.DumpItems(doc, ids, items[k..], order);
          events + d.events == old(events) + goal.events && d.order == goal.order
        invariant Dumping.Unserialized(doc, order) <= old(Dumping.Unserialized(doc, order))
      {
        assert items[k..][1..] == items[k + 1..];
        ghost var here := events;
        ghost var first := Dumping.DumpNode(doc, ids, items[k], order);
        ghost var rest := Dumping.DumpItems(doc, ids, items[k + 1..], first.order);
        assert here + (first.events + rest.events) == (here + first.events) + rest.events;
        DumpNode(items[k]);
        k := k + 1;
      }
      assert events + [] == events;
    }

    method DumpMapping(pairs: seq<(nat, nat)>)
      requires Valid() && AllIndices(doc, Flatten(pairs))
      modifies anchors, this`events, this`order
      ensures Valid() && State() == old(State())
      ensures var d := Dumping.DumpItems(doc, old(State()).ids, Flatten(pairs), old(order));
        events == old(events) + d.events && order == d.order
      decreases Dumping.Unserialized(doc, order), |Flatten(pairs)| + 1
    {
      hide Dumping.DumpNode, Flatten;
      ghost var ids := State().ids;
      ghost var goal := Dumping.DumpItems(doc, ids, Flatten(pairs), order);
      assert pairs[0..] == pairs;
      var k := 0;
      while k < |pairs|
        invariant 0 <= k <= |pairs| && Valid() && State() == old(State()) && AllIndices(doc, Flatten(pairs[k..]))
        invariant var d := Dumping.DumpItems(doc, ids, Flatten(pairs[k..]), order);
          events + d.events == old(events) + goal.events && d.order == goal.order
        invariant Dumping.Unserialized(doc, order) <= old(Dumping.Unserialized(doc, order))
      {
        FlattenStep(doc, pairs, k);
        ghost var here := events;
        ghost var key := Dumping.DumpNode(doc, ids, pairs[k].0, order);
        ghost var value := Dumping.DumpNode(doc, ids, pairs[k].1, key.order);
        ghost var rest := Dumping.DumpItems(doc, ids, Flatten(pairs[k + 1..]), value.order);
        assert here + (key.events + (value.events + rest.events)) == (here + key.events + value.events) + rest.events;
        DumpNode(pairs[k].0);
        DumpNode(pairs[k].1);
        k := k + 1;
      }
      assert pairs[k..] == [];
      FlattenNone();
      assert events + [] == events;
    }

    /** Both passes over the root, as yaml_emitter_dump makes them. */
    method DumpRoot()
      requires Valid() && doc != [] && order == [] && State() == Dumping.NoAnchors(doc)
      modifies anchors, this`lastAnchorId, this`events, this`order
      ensures Valid() && events == old(events) + Dumping.DumpRoot(doc).events && order == Dumping.DumpRoot(doc).order
    {
      AnchorNode(1);
      DumpNode(1);
    }
  }

  lemma FlattenNone()
    ensures Flatten([]) == []
  {
  }

  /** The first pair of what is left, and the pairs behind it. */
  lemma FlattenStep(doc: Document, pairs: seq<(nat, nat)>, k: nat)
    requires k < |pairs| && AllIndices(doc, Flatten(pairs[k..]))
    ensures var flat := Flatten(pairs[k..]);
      && |flat| >= 2 && flat[0] == pairs[k].0 && flat[1] == pairs[k].1
      && flat[1..][0] == pairs[k].1 && flat[1..][1..] == Flatten(pairs[k + 1..])
      && AllIndices(doc, flat[1..]) && AllIndices(doc, Flatten(pairs[k + 1..]))
      && IsIndex(doc, pairs[k].0) && IsIndex(doc, pairs[k].1)
  {
    var flat := Flatten(pairs[k..]);
    assert pairs[k..][1..] == pairs[k + 1..];
    assert flat[0] == pairs[k].0 && flat[1] == pairs[k].1;
    assert flat[2..] == Flatten(pairs[k + 1..]);
    forall j | 0 <= j < |flat| - 2
      ensures IsIndex(doc, flat[2..][j])
    {
      assert IsIndex(doc, flat[j + 2]);
    }
  }
}
