/**
  Loading the events of a dumped document gives the part of its graph that the root reaches,
  renumbered in order of first visit: shared and cyclic references come back as such.
 */
module GraphRoundTrip {
  import opened Options
  import opened Events
  import opened Documents
  import opened AnchorText
  import opened Dumping
  import opened Loading
  import opened DumpOrder

  // ----- Renumbering

  ghost function IndexOf(order: seq<nat>, i: nat): (k: nat)
    requires i in order
    ensures k < |order| && order[k] == i
  {
    var k :| 0 <= k < |order| && order[k] == i;
    k
  }

  /** The number a serialized node gets in the loaded document. */
  ghost function NewIndex(order: seq<nat>, i: nat): nat
    requires i in order
  {
    IndexOf(order, i) + 1
  }

  ghost function RenumberedItems(order: seq<nat>, items: seq<nat>): seq<nat>
    requires Serialized(order, items)
  {
    if items == [] then []
    else
      assert Serialized(order, items[1..]);
      [NewIndex(order, items[0])] + RenumberedItems(order, items[1..])
  }

  ghost predicate SerializedPairs(order: seq<nat>, pairs: seq<(nat, nat)>) {
    forall k :: 0 <= k < |pairs| ==> pairs[k].0 in order && pairs[k].1 in order
  }

  ghost function RenumberedPairs(order: seq<nat>, pairs: seq<(nat, nat)>): seq<(nat, nat)>
    requires SerializedPairs(order, pairs)
  {
    if pairs == [] then []
    else
      assert SerializedPairs(order, pairs[1..]);
      [(NewIndex(order, pairs[0].0), NewIndex(order, pairs[0].1))] + RenumberedPairs(order, pairs[1..])
  }

  lemma FlattenSerialized(order: seq<nat>, pairs: seq<(nat, nat)>)
    requires Serialized(order, Flatten(pairs))
    ensures SerializedPairs(order, pairs)
  {
    if pairs != [] {
      var flat := Flatten(pairs);
      assert flat[0] in order && flat[1] in order;
      assert flat[2..] == Flatten(pairs[1..]);
      FlattenSerialized(order, pairs[1..]);
      assert pairs == [pairs[0]] + pairs[1..];
    }
  }

  /** A node as it is loaded: the same kind, content and style, its references renumbered. */
  ghost function Renumbered(order: seq<nat>, node: Node): Node
    requires Serialized(order, Children(node))
  {
    match node
    case ScalarNode(tag, value, style) => ScalarNode(LoadedTag(Some(tag), SCALAR_TAG), value, style)
    case SequenceNode(tag, items, style) =>
      SequenceNode(LoadedTag(Some(tag), SEQUENCE_TAG), RenumberedItems(order, items), style)
    case MappingNode(tag, pairs, style) =>
      FlattenSerialized(order, pairs);
      MappingNode(LoadedTag(Some(tag), MAPPING_TAG), RenumberedPairs(order, pairs), style)
  }

  lemma SameIndex(order: seq<nat>, longer: seq<nat>, i: nat)
    requires order <= longer && Distinct(longer) && i in order
    ensures i in longer && NewIndex(longer, i) == NewIndex(order, i)
  {
    assert longer[IndexOf(order, i)] == i;
  }

  lemma {:induction false} SameItems(order: seq<nat>, longer: seq<nat>, items: seq<nat>)
    requires order <= longer && Distinct(longer) && Serialized(order, items)
    ensures Serialized(longer, items) && RenumberedItems(longer, items) == RenumberedItems(order, items)
  {
    SerializedLonger(order, longer, items);
    if items != [] {
      assert Serialized(order, items[1..]);
      SameIndex(order, longer, items[0]);
      SameItems(order, longer, items[1..]);
    }
  }

  lemma {:induction false} SamePairs(order: seq<nat>, longer: seq<nat>, pairs: seq<(nat, nat)>)
    requires order <= longer && Distinct(longer) && SerializedPairs(order, pairs)
    ensures SerializedPairs(longer, pairs) && RenumberedPairs(longer, pairs) == RenumberedPairs(order, pairs)
  {
    forall k | 0 <= k < |pairs|
      ensures pairs[k].0 in longer && pairs[k].1 in longer
    {
      SameIndex(order, longer, pairs[k].0);
      SameIndex(order, longer, pairs[k].1);
    }
    if pairs != [] {
      SameIndex(order, longer, pairs[0].0);
      SameIndex(order, longer, pairs[0].1);
      SamePairs(order, longer, pairs[1..]);
    }
  }

  lemma SameNode(order: seq<nat>, longer: seq<nat>, node: Node)
    requires order <= longer && Distinct(longer) && Serialized(order, Children(node))
    ensures Serialized(longer, Children(node)) && Renumbered(longer, node) == Renumbered(order, node)
  {
    SerializedLonger(order, longer, Children(node));
    match node
    case ScalarNode(_, _, _) =>
    case SequenceNode(_, items, _) => SameItems(order, longer, items);
    case MappingNode(_, pairs, _) =>
      FlattenSerialized(order, pairs);
      SamePairs(order, longer, pairs);
  }

  // ----- Registered anchors

  /** The aliases registered while the nodes of `order` were loaded. */
  ghost function Registered(ids: seq<nat>, order: seq<nat>): seq<AliasData>
    requires forall k :: 0 <= k < |order| ==> 1 <= order[k] <= |ids|
  {
    if order == [] then []
    else
      var n := |order|;
      Registered(ids, order[..n - 1]) + NewAlias(ids, order[n - 1], n)
  }

  function NewAlias(ids: seq<nat>, i: nat, index: nat): seq<AliasData>
    requires 1 <= i <= |ids|
  {
    match Anchor(ids, i)
    case None => []
    case Some(name) => [AliasData(name, index)]
  }

  /** A new alias is found under the name of its own node and no other. */
  lemma FindNewAlias(ids: seq<nat>, last: nat, index: nat, i: nat)
    requires DistinctIds(ids) && 1 <= i <= |ids| && 1 <= last <= |ids| && ids[i - 1] != 0
    ensures FindAlias(NewAlias(ids, last, index), AnchorName(ids[i - 1])) == if last == i then Some(index) else None
  {
    if last != i && ids[last - 1] != 0 {
      assert ids[last - 1] != ids[i - 1];
      AnchorNamesDiffer(ids[last - 1], ids[i - 1]);
    }
  }

  lemma {:induction false} FindInBoth(a: seq<AliasData>, b: seq<AliasData>, name: string)
    ensures FindAlias(a + b, name) == if FindAlias(a, name).Some? then FindAlias(a, name) else FindAlias(b, name)
  {
    if a == [] {
      assert a + b == b;
    } else {
      assert (a + b)[1..] == a[1..] + b;
      FindInBoth(a[1..], b, name);
    }
  }

  /** An anchor is found exactly if its node is serialized, and stands for that node. */
  lemma {:induction false} FindRegistered(ids: seq<nat>, order: seq<nat>, i: nat)
    requires Distinct(order) && DistinctIds(ids) && 1 <= i <= |ids| && ids[i - 1] != 0
    requires forall k :: 0 <= k < |order| ==> 1 <= order[k] <= |ids|
    ensures FindAlias(Registered(ids, order), AnchorName(ids[i - 1]))
         == if i in order then Some(NewIndex(order, i)) else None
    decreases |order|
  {
    hide DistinctIds, AnchorName, FindAlias, NewAlias;
    if order == [] {
      NothingRegistered(ids, AnchorName(ids[i - 1]));
    } else {
      var n := |order|;
      var shorter, last := order[..n - 1], order[n - 1];
      FindRegistered(ids, shorter, i);
      FindInBoth(Registered(ids, shorter), NewAlias(ids, last, n), AnchorName(ids[i - 1]));
      FindNewAlias(ids, last, n, i);
      LastIndex(order, i);
    }
  }

  lemma NothingRegistered(ids: seq<nat>, name: string)
    ensures FindAlias(Registered(ids, []), name) == None
  {
  }

  /** The last node has the last number, the others have the numbers they had without it. */
  lemma LastIndex(order: seq<nat>, i: nat)
    requires Distinct(order) && order != []
    ensures var n := |order|;
      var shorter, last := order[..n - 1], order[n - 1];
      && Distinct(shorter) && (i in order <==> i in shorter || i == last)
      && (i in shorter ==> i != last && NewIndex(order, i) == NewIndex(shorter, i))
      && (i == last ==> NewIndex(order, i) == n)
  {
    var shorter := order[..|order| - 1];
    assert order == shorter + [order[|order| - 1]];
    if i in shorter {
      SameIndex(shorter, order, i);
    }
  }

  // ----- Loading what was dumped

  /** The composer has pushed one node per serialized node and registered the same anchors. */
  ghost predicate InStep(doc: Document, ids: seq<nat>, order: seq<nat>, c: Composed) {
    && |ids| == |doc| && GoodOrder(doc, order)
    && |c.nodes| == |order| && c.aliases == Registered(ids, order)
  }

  ghost predicate NodeMatches(doc: Document, order: seq<nat>, c: Composed, k: nat)
    requires WellFormed(doc) && AllIndices(doc, order) && k < |order| == |c.nodes|
  {
    var node := doc[order[k] - 1];
    Serialized(order, Children(node)) && c.nodes[k] == Renumbered(order, node)
  }

  /** The nodes from `from` on are completely loaded. */
  ghost predicate NodesMatch(doc: Document, order: seq<nat>, c: Composed, from: nat)
    requires WellFormed(doc) && AllIndices(doc, order) && |order| == |c.nodes|
  {
    forall k :: from <= k < |order| ==> NodeMatches(doc, order, c, k)
  }

  lemma MatchLonger(doc: Document, order: seq<nat>, c: Composed, longer: seq<nat>, c': Composed, from: nat)
    requires WellFormed(doc) && GoodOrder(doc, order) && GoodOrder(doc, longer)
    requires |order| == |c.nodes| && |longer| == |c'.nodes| && order <= longer
    requires NodesMatch(doc, order, c, from) && NodesMatch(doc, longer, c', |order|)
    requires forall k :: from <= k < |order| ==> c'.nodes[k] == c.nodes[k]
    ensures NodesMatch(doc, longer, c', from)
  {
    hide WellFormed;
    forall k | from <= k < |longer|
      ensures NodeMatches(doc, longer, c', k)
    {
      if k < |order| {
        MatchesLonger(doc, order, c, longer, c', k);
      }
    }
  }

  lemma MatchesLonger(doc: Document, order: seq<nat>, c: Composed, longer: seq<nat>, c': Composed, k: nat)
    requires WellFormed(doc) && GoodOrder(doc, order) && GoodOrder(doc, longer)
    requires |order| == |c.nodes| && |longer| == |c'.nodes| && order <= longer
    requires k < |order| && NodeMatches(doc, order, c, k) && c'.nodes[k] == c.nodes[k]
    ensures NodeMatches(doc, longer, c', k)
  {
    assert longer[k] == order[k];
    SameNode(order, longer, doc[order[k] - 1]);
  }

  /** A new node is pushed and its anchor registered without a clash. */
  lemma PushInStep(doc: Document, ids: seq<nat>, i: nat, order: seq<nat>, c: Composed, node: Node)
    requires DistinctIds(ids) && InStep(doc, ids, order, c) && IsIndex(doc, i) && i !in order
    ensures var pushed := Push(c, node, Anchor(ids, i));
      && pushed.Some? && InStep(doc, ids, order + [i], pushed.value)
      && pushed.value.nodes == c.nodes + [node]
  {
    var order' := order + [i];
    assert order'[..|order|] == order;
    if ids[i - 1] != 0 {
      FindRegistered(ids, order, i);
    } else {
      assert c.aliases + [] == c.aliases;
    }
  }

  /** Splitting the anchors needed by a call among its parts. */
  lemma SufficeFirst(ids: seq<nat>, order: seq<nat>, visits: seq<nat>, more: seq<nat>)
    requires AnchorsSuffice(ids, order, visits + more)
    ensures AnchorsSuffice(ids, order, visits)
  {
    assert multiset(visits + more) == multiset(visits) + multiset(more);
  }

  lemma SufficeRest(ids: seq<nat>, order: seq<nat>, visits: seq<nat>, order': seq<nat>, more: seq<nat>)
    requires AnchorsSuffice(ids, order, visits + more)
    requires forall i :: i in order' <==> i in order || i in visits
    ensures AnchorsSuffice(ids, order', more)
  {
    assert multiset(visits + more) == multiset(visits) + multiset(more);
    forall i: nat | 1 <= i <= |ids| && (if i in order' then 1 else 0) + multiset(more)[i] >= 2
      ensures ids[i - 1] != 0
    {
      if i in order' && i !in order {
        assert i in multiset(visits);
      }
    }
  }

  /** What loading a dumped node must give. */
  ghost predicate NodeLoaded(doc: Document, ids: seq<nat>, i: nat, order: seq<nat>, c: Composed, rest: seq<Event>, outcome: Outcome)
    requires WellFormed(doc) && |ids| == |doc| && IsIndex(doc, i)
  {
    var order' := DumpNode(doc, ids, i, order).order;
    && outcome.Loaded? && outcome.rest == rest
    && InStep(doc, ids, order', outcome.composed)
    && i in order' && outcome.index == NewIndex(order', i)
    && Extends(c, outcome.composed)
    && NodesMatch(doc, order', outcome.composed, |order|)
  }

  /** All nodes but the one at `index` are kept. */
  ghost predicate Frame(c: Composed, c': Composed, index: nat) {
    && |c.nodes| <= |c'.nodes|
    && forall k :: 0 <= k < |c.nodes| && k != index - 1 ==> c'.nodes[k] == c.nodes[k]
  }

  lemma {:induction false} LoadsAlias(doc: Document, ids: seq<nat>, i: nat, order: seq<nat>, c: Composed, rest: seq<Event>)
    requires WellFormed(doc) && DistinctIds(ids) && InStep(doc, ids, order, c) && IsIndex(doc, i) && i in order
    requires AnchorsSuffice(ids, order, [i])
    ensures NodeLoaded(doc, ids, i, order, c, rest, LoadNode([AliasEvent(Anchor(ids, i))] + rest, c))
  {
    assert multiset([i])[i] == 1;
    FindRegistered(ids, order, i);
    assert ([AliasEvent(Anchor(ids, i))] + rest)[1..] == rest;
  }

  lemma {:induction false} LoadsNode(doc: Document, ids: seq<nat>, i: nat, order: seq<nat>, c: Composed, rest: seq<Event>)
    requires WellFormed(doc) && DistinctIds(ids) && InStep(doc, ids, order, c) && IsIndex(doc, i)
    requires AnchorsSuffice(ids, order, DumpNode(doc, ids, i, order).visits)
    ensures NodeLoaded(doc, ids, i, order, c, rest, LoadNode(DumpNode(doc, ids, i, order).events + rest, c))
    decreases Unserialized(doc, order), 0
  {
    if i in order {
      LoadsAlias(doc, ids, i, order, c, rest);
    } else {
      var node := doc[i - 1];
      var order' := order + [i];
      assert i in Unserialized(doc, order) && i !in Unserialized(doc, order');
      var d := DumpItems(doc, ids, Children(node), order');
      SufficeRest(ids, order, [i], order', d.visits);
      match node
      case ScalarNode(tag, value, style) => LoadsScalar(doc, ids, i, order, c, rest);
      case SequenceNode(tag, items, style) => LoadsSequence(doc, ids, i, order, c, rest);
      case MappingNode(tag, pairs, style) => LoadsMapping(doc, ids, i, order, c, rest);
    }
  }

  lemma LoadsScalar(doc: Document, ids: seq<nat>, i: nat, order: seq<nat>, c: Composed, rest: seq<Event>)
    requires WellFormed(doc) && DistinctIds(ids) && InStep(doc, ids, order, c) && IsIndex(doc, i)
    requires i !in order && doc[i - 1].ScalarNode?
    ensures NodeLoaded(doc, ids, i, order, c, rest, LoadNode(DumpNode(doc, ids, i, order).events + rest, c))
  {
    hide DistinctIds, Registered, Push, LoadItems, LoadPairs;
    var node := doc[i - 1];
    var order' := order + [i];
    var event := OpeningEvent(Anchor(ids, i), node);
    assert [event] + [] + [] + rest == [event] + rest && ([event] + rest)[1..] == rest;
    var loaded := ScalarNode(LoadedTag(Some(node.tag), SCALAR_TAG), node.value, node.style);
    PushInStep(doc, ids, i, order, c, loaded);
    assert order'[|order|] == i;
  }

  lemma {:induction false} LoadsSequence(doc: Document, ids: seq<nat>, i: nat, order: seq<nat>, c: Composed, rest: seq<Event>)
    requires WellFormed(doc) && DistinctIds(ids) && InStep(doc, ids, order, c) && IsIndex(doc, i)
    requires i !in order && doc[i - 1].SequenceNode?
    requires AnchorsSuffice(ids, order + [i], DumpItems(doc, ids, Children(doc[i - 1]), order + [i]).visits)
    ensures NodeLoaded(doc, ids, i, order, c, rest, LoadNode(DumpNode(doc, ids, i, order).events + rest, c))
    decreases Unserialized(doc, order + [i]), |Children(doc[i - 1])| + 1
  {
    hide AnchorsSuffice, DistinctIds, NodesMatch, Registered, Push, RenumberedItems, Serialized, GoodOrder;
    var node := doc[i - 1];
    var order' := order + [i];
    var d := DumpItems(doc, ids, node.items, order');
    var inner := d.events + [SequenceEnd] + rest;
    var collection := SequenceNode(LoadedTag(Some(node.tag), SEQUENCE_TAG), [], node.style);
    PushInStep(doc, ids, i, order, c, collection);
    var c' := Push(c, collection, Anchor(ids, i)).value;
    CollectionOpens(doc, ids, i, order, c, rest);
    LoadsItems(doc, ids, node.items, order', c', |order| + 1, rest);
    FinishesCollection(doc, ids, i, order, c, d.order, LoadItems(inner, c', |order| + 1).composed);
  }

  /** The opening event of a collection pushes its empty node and goes on to its children. */
  lemma CollectionOpens(doc: Document, ids: seq<nat>, i: nat, order: seq<nat>, c: Composed, rest: seq<Event>)
    requires WellFormed(doc) && |ids| == |doc| && IsIndex(doc, i) && i !in order
    ensures var node := doc[i - 1];
      var d := DumpItems(doc, ids, Children(node), order + [i]);
      var events := DumpNode(doc, ids, i, order).events + rest;
      && (node.SequenceNode? ==>
            var pushed := Push(c, SequenceNode(LoadedTag(Some(node.tag), SEQUENCE_TAG), [], node.style), Anchor(ids, i));
            pushed.Some? ==>
              LoadNode(events, c) == LoadItems(d.events + [SequenceEnd] + rest, pushed.value, |c.nodes| + 1))
      && (node.MappingNode? ==>
            var pushed := Push(c, MappingNode(LoadedTag(Some(node.tag), MAPPING_TAG), [], node.style), Anchor(ids, i));
            pushed.Some? ==>
              LoadNode(events, c) == LoadPairs(d.events + [MappingEnd] + rest, pushed.value, |c.nodes| + 1))
  {
    hide LoadItems, LoadPairs, Flatten, DumpItems, Push, Registered;
    var node := doc[i - 1];
    var d := DumpItems(doc, ids, Children(node), order + [i]);
    var event := OpeningEvent(Anchor(ids, i), node);
    var inner := d.events + ClosingEvents(node) + rest;
    assert [event] + d.events + ClosingEvents(node) + rest == [event] + inner && ([event] + inner)[1..] == inner;
  }

  lemma {:induction false} LoadsMapping(doc: Document, ids: seq<nat>, i: nat, order: seq<nat>, c: Composed, rest: seq<Event>)
    requires WellFormed(doc) && DistinctIds(ids) && InStep(doc, ids, order, c) && IsIndex(doc, i)
    requires i !in order && doc[i - 1].MappingNode?
    requires AnchorsSuffice(ids, order + [i], DumpItems(doc, ids, Children(doc[i - 1]), order + [i]).visits)
    ensures NodeLoaded(doc, ids, i, order, c, rest, LoadNode(DumpNode(doc, ids, i, order).events + rest, c))
    decreases Unserialized(doc, order + [i]), |Children(doc[i - 1])| + 1
  {
    hide AnchorsSuffice, DistinctIds, NodesMatch, Registered, Push, RenumberedPairs, Serialized, SerializedPairs, GoodOrder;
    var node := doc[i - 1];
    var order' := order + [i];
    var d := DumpItems(doc, ids, Flatten(node.pairs), order');
    var inner := d.events + [MappingEnd] + rest;
    var collection := MappingNode(LoadedTag(Some(node.tag), MAPPING_TAG), [], node.style);
    PushInStep(doc, ids, i, order, c, collection);
    var c' := Push(c, collection, Anchor(ids, i)).value;
    CollectionOpens(doc, ids, i, order, c, rest);
    LoadsPairs(doc, ids, node.pairs, order', c', |order| + 1, rest);
    FinishesCollection(doc, ids, i, order, c, d.order, LoadPairs(inner, c', |order| + 1).composed);
  }

  /** The collection itself matches once its children are filled in. */
  lemma FinishesCollection(doc: Document, ids: seq<nat>, i: nat, order: seq<nat>, c: Composed, longer: seq<nat>, c': Composed)
    requires WellFormed(doc) && IsIndex(doc, i) && InStep(doc, ids, longer, c') && order + [i] <= longer
    requires |c.nodes| == |order|
    requires Frame(c, c', |order| + 1) && NodesMatch(doc, longer, c', |order| + 1)
    requires Serialized(longer, Children(doc[i - 1])) && c'.nodes[|order|] == Renumbered(longer, doc[i - 1])
    ensures i in longer && NewIndex(longer, i) == |order| + 1
    ensures Extends(c, c') && NodesMatch(doc, longer, c', |order|)
  {
    assert longer[|order|] == (order + [i])[|order|] == i;
    forall k | |order| <= k < |longer|
      ensures NodeMatches(doc, longer, c', k)
    {
    }
  }

  /** What loading the dumped items of a sequence, up to its end, must give. */
  ghost predicate ItemsLoaded(doc: Document, ids: seq<nat>, items: seq<nat>, order: seq<nat>, c: Composed,
                              index: nat, rest: seq<Event>, outcome: Outcome)
    requires WellFormed(doc) && |ids| == |doc| && AllIndices(doc, items)
    requires 1 <= index <= |c.nodes| && c.nodes[index - 1].SequenceNode?
  {
    var order' := DumpItems(doc, ids, items, order).order;
    && outcome.Loaded? && outcome.rest == rest && outcome.index == index
    && InStep(doc, ids, order', outcome.composed) && order <= order'
    && Frame(c, outcome.composed, index)
    && Serialized(order', items)
    && outcome.composed.nodes[index - 1]
       == c.nodes[index - 1].(items := c.nodes[index - 1].items + RenumberedItems(order', items))
    && NodesMatch(doc, order', outcome.composed, |order|)
  }

  lemma {:induction false} LoadsItems(doc: Document, ids: seq<nat>, items: seq<nat>, order: seq<nat>, c: Composed,
                                      index: nat, rest: seq<Event>)
    requires WellFormed(doc) && DistinctIds(ids) && InStep(doc, ids, order, c) && AllIndices(doc, items)
    requires 1 <= index <= |c.nodes| && c.nodes[index - 1].SequenceNode?
    requires AnchorsSuffice(ids, order, DumpItems(doc, ids, items, order).visits)
    ensures ItemsLoaded(doc, ids, items, order, c, index, rest,
                        LoadItems(DumpItems(doc, ids, items, order).events + [SequenceEnd] + rest, c, index))
    decreases Unserialized(doc, order), |items|
  {
    hide AnchorsSuffice, DistinctIds, NodesMatch, Registered, Serialized, IndexOf, Distinct, DumpNode, ItemsLoaded;
    var events := DumpItems(doc, ids, items, order).events + [SequenceEnd] + rest;
    if items == [] {
      LoadsNoItems(doc, ids, order, c, index, rest);
    } else {
      var first := DumpNode(doc, ids, items[0], order);
      var more := DumpItems(doc, ids, items[1..], first.order);
      var events' := more.events + [SequenceEnd] + rest;
      assert events == first.events + events';
      StepAnchors(doc, ids, items[0], items[1..], order);
      LoadsNode(doc, ids, items[0], order, c, events');
      var loaded := LoadNode(events, c);
      FirstEventOpens(doc, ids, items[0], order);
      var c' := AppendItem(loaded.composed, index, loaded.index);
      assert LoadItems(events, c, index) == LoadItems(events', c', index);
      LoadsItems(doc, ids, items[1..], first.order, c', index, rest);
      JoinsItems(doc, ids, items, order, c, index, rest, loaded, events', LoadItems(events', c', index));
    }
  }

  lemma LoadsNoItems(doc: Document, ids: seq<nat>, order: seq<nat>, c: Composed, index: nat, rest: seq<Event>)
    requires WellFormed(doc) && InStep(doc, ids, order, c)
    requires 1 <= index <= |c.nodes| && c.nodes[index - 1].SequenceNode?
    ensures ItemsLoaded(doc, ids, [], order, c, index, rest, LoadItems([] + [SequenceEnd] + rest, c, index))
  {
    var events := [] + [SequenceEnd] + rest;
    assert events[1..] == rest;
    assert c.nodes[index - 1].items + [] == c.nodes[index - 1].items;
  }

  lemma JoinsItems(doc: Document, ids: seq<nat>, items: seq<nat>, order: seq<nat>, c: Composed,
                   index: nat, rest: seq<Event>, loaded: Outcome, events': seq<Event>, outcome: Outcome)
    requires WellFormed(doc) && |ids| == |doc| && AllIndices(doc, items) && items != [] && GoodOrder(doc, order)
    requires 1 <= index <= |c.nodes| == |order| && c.nodes[index - 1].SequenceNode?
    requires NodeLoaded(doc, ids, items[0], order, c, events', loaded)
    requires var first := DumpNode(doc, ids, items[0], order);
      order <= first.order <= DumpItems(doc, ids, items[1..], first.order).order
    requires ItemsLoaded(doc, ids, items[1..], DumpNode(doc, ids, items[0], order).order,
                         AppendItem(loaded.composed, index, loaded.index), index, rest, outcome)
    ensures ItemsLoaded(doc, ids, items, order, c, index, rest, outcome)
  {
    hide Registered, IndexOf, Distinct, DumpNode, NodesMatch, Serialized;
    var first := DumpNode(doc, ids, items[0], order);
    var longer := DumpItems(doc, ids, items[1..], first.order).order;
    ItemsJoin(order, first.order, longer, items, c.nodes[index - 1].items);
    MatchLonger(doc, first.order, loaded.composed, longer, outcome.composed, |order|);
  }

  /** The order grows, and the anchors needed are shared out, over a node and the items behind it. */
  lemma StepAnchors(doc: Document, ids: seq<nat>, i: nat, items: seq<nat>, order: seq<nat>)
    requires WellFormed(doc) && |ids| == |doc| && IsIndex(doc, i) && AllIndices(doc, items) && GoodOrder(doc, order)
    requires var first := DumpNode(doc, ids, i, order);
      AnchorsSuffice(ids, order, first.visits + DumpItems(doc, ids, items, first.order).visits)
    ensures var first := DumpNode(doc, ids, i, order);
      var more := DumpItems(doc, ids, items, first.order);
      && GoodOrder(doc, first.order) && GoodOrder(doc, more.order)
      && order <= first.order <= more.order && i in first.order
      && AnchorsSuffice(ids, order, first.visits) && AnchorsSuffice(ids, first.order, more.visits)
  {
    hide AnchorsSuffice, Closed;
    var first := DumpNode(doc, ids, i, order);
    var more := DumpItems(doc, ids, items, first.order);
    NodeGrows(doc, ids, i, order);
    ItemsGrow(doc, ids, items, first.order);
    assert [i][0] in first.order;
    SufficeFirst(ids, order, first.visits, more.visits);
    SufficeRest(ids, order, first.visits, first.order, more.visits);
  }

  lemma ItemsJoin(order: seq<nat>, middle: seq<nat>, longer: seq<nat>, items: seq<nat>, before: seq<nat>)
    requires order <= middle <= longer && Distinct(longer) && items != [] && items[0] in middle
    requires Serialized(longer, items[1..])
    ensures Serialized(longer, items)
    ensures (before + [NewIndex(middle, items[0])]) + RenumberedItems(longer, items[1..])
         == before + RenumberedItems(longer, items)
  {
    SameIndex(middle, longer, items[0]);
    assert items == [items[0]] + items[1..];
    forall k | 0 <= k < |items|
      ensures items[k] in longer
    {
      assert k > 0 ==> items[k] == items[1..][k - 1];
    }
  }

  /** The events of a node start with one that opens a node or refers to one. */
  lemma FirstEventOpens(doc: Document, ids: seq<nat>, i: nat, order: seq<nat>)
    requires WellFormed(doc) && |ids| == |doc| && IsIndex(doc, i)
    ensures var events := DumpNode(doc, ids, i, order).events;
      events != [] && events[0] != SequenceEnd && events[0] != MappingEnd
  {
  }

  /** What loading the dumped pairs of a mapping, up to its end, must give. */
  ghost predicate PairsLoaded(doc: Document, ids: seq<nat>, pairs: seq<(nat, nat)>, order: seq<nat>, c: Composed,
                              index: nat, rest: seq<Event>, outcome: Outcome)
    requires WellFormed(doc) && |ids| == |doc| && AllIndices(doc, Flatten(pairs))
    requires 1 <= index <= |c.nodes| && c.nodes[index - 1].MappingNode?
  {
    var order' := DumpItems(doc, ids, Flatten(pairs), order).order;
    && outcome.Loaded? && outcome.rest == rest && outcome.index == index
    && InStep(doc, ids, order', outcome.composed) && order <= order'
    && Frame(c, outcome.composed, index)
    && Serialized(order', Flatten(pairs)) && SerializedPairs(order', pairs)
    && outcome.composed.nodes[index - 1]
       == c.nodes[index - 1].(pairs := c.nodes[index - 1].pairs + RenumberedPairs(order', pairs))
    && NodesMatch(doc, order', outcome.composed, |order|)
  }

  lemma {:induction false} LoadsPairs(doc: Document, ids: seq<nat>, pairs: seq<(nat, nat)>, order: seq<nat>, c: Composed,
                                      index: nat, rest: seq<Event>)
    requires WellFormed(doc) && DistinctIds(ids) && InStep(doc, ids, order, c) && AllIndices(doc, Flatten(pairs))
    requires 1 <= index <= |c.nodes| && c.nodes[index - 1].MappingNode?
    requires AnchorsSuffice(ids, order, DumpItems(doc, ids, Flatten(pairs), order).visits)
    ensures PairsLoaded(doc, ids, pairs, order, c, index, rest,
                        LoadPairs(DumpItems(doc, ids, Flatten(pairs), order).events + [MappingEnd] + rest, c, index))
    decreases Unserialized(doc, order), |Flatten(pairs)|
  {
    hide AnchorsSuffice, DistinctIds, NodesMatch, Registered, Serialized, IndexOf, GoodOrder, DumpNode, DumpItems,
         PairsLoaded, LoadPairs, Flatten;
    if pairs == [] {
      LoadsNoPairs(doc, ids, order, c, index, rest);
    } else {
      PairUnfolds(doc, ids, pairs, order);
      var second := DumpNode(doc, ids, pairs[0].1, DumpNode(doc, ids, pairs[0].0, order).order);
      var c' := LoadsPair(doc, ids, pairs, order, c, index, rest);
      LoadsPairs(doc, ids, pairs[1..], second.order, c', index, rest);
      var events' := DumpItems(doc, ids, Flatten(pairs[1..]), second.order).events + [MappingEnd] + rest;
      JoinsPairs(doc, ids, pairs, order, c, index, rest, c', LoadPairs(events', c', index));
    }
  }

  lemma LoadsNoPairs(doc: Document, ids: seq<nat>, order: seq<nat>, c: Composed, index: nat, rest: seq<Event>)
    requires WellFormed(doc) && InStep(doc, ids, order, c)
    requires 1 <= index <= |c.nodes| && c.nodes[index - 1].MappingNode?
    ensures PairsLoaded(doc, ids, [], order, c, index, rest,
                        LoadPairs(DumpItems(doc, ids, Flatten([]), order).events + [MappingEnd] + rest, c, index))
  {
    var events := [] + [MappingEnd] + rest;
    assert events[1..] == rest;
    assert c.nodes[index - 1].pairs + [] == c.nodes[index - 1].pairs;
  }

  lemma JoinsPairs(doc: Document, ids: seq<nat>, pairs: seq<(nat, nat)>, order: seq<nat>, c: Composed,
                   index: nat, rest: seq<Event>, c': Composed, outcome: Outcome)
    requires WellFormed(doc) && |ids| == |doc| && AllIndices(doc, Flatten(pairs)) && pairs != []
    requires 1 <= index <= |c.nodes| == |order| && index <= |c'.nodes| && c.nodes[index - 1].MappingNode?
    requires IsIndex(doc, pairs[0].0) && IsIndex(doc, pairs[0].1) && AllIndices(doc, Flatten(pairs[1..]))
    requires var first := DumpNode(doc, ids, pairs[0].0, order);
      var second := DumpNode(doc, ids, pairs[0].1, first.order);
      && InStep(doc, ids, second.order, c')
      && order <= first.order <= second.order
      && pairs[0].0 in first.order && pairs[0].1 in second.order
      && Frame(c, c', index)
      && c'.nodes[index - 1] == c.nodes[index - 1].(pairs :=
           c.nodes[index - 1].pairs + [(NewIndex(first.order, pairs[0].0), NewIndex(second.order, pairs[0].1))])
      && NodesMatch(doc, second.order, c', |order|)
      && PairsLoaded(doc, ids, pairs[1..], second.order, c', index, rest, outcome)
    ensures PairsLoaded(doc, ids, pairs, order, c, index, rest, outcome)
  {
    hide Registered, IndexOf, Distinct, DumpNode, DumpItems, NodesMatch, Serialized, SerializedPairs, Flatten;
    PairUnfolds(doc, ids, pairs, order);
    var first := DumpNode(doc, ids, pairs[0].0, order);
    var second := DumpNode(doc, ids, pairs[0].1, first.order);
    var longer := DumpItems(doc, ids, Flatten(pairs), order).order;
    PairsJoin(first.order, second.order, longer, pairs, c.nodes[index - 1].pairs);
    MatchLonger(doc, second.order, c', longer, outcome.composed, |order|);
  }

  /** The dump of the first pair, and of the pairs behind it. */
  lemma PairUnfolds(doc: Document, ids: seq<nat>, pairs: seq<(nat, nat)>, order: seq<nat>)
    requires WellFormed(doc) && |ids| == |doc| && AllIndices(doc, Flatten(pairs)) && pairs != []
    ensures IsIndex(doc, pairs[0].0) && IsIndex(doc, pairs[0].1) && AllIndices(doc, Flatten(pairs[1..]))
    ensures var first := DumpNode(doc, ids, pairs[0].0, order);
      var second := DumpNode(doc, ids, pairs[0].1, first.order);
      var more := DumpItems(doc, ids, Flatten(pairs[1..]), second.order);
      DumpItems(doc, ids, Flatten(pairs), order)
      == Dumped(first.events + (second.events + more.events), more.order, first.visits + (second.visits + more.visits))
    ensures Unserialized(doc, DumpNode(doc, ids, pairs[0].1, DumpNode(doc, ids, pairs[0].0, order).order).order)
         <= Unserialized(doc, order)
    ensures |Flatten(pairs[1..])| < |Flatten(pairs)|
  {
    hide DumpNode;
    var flat := Flatten(pairs);
    assert flat[0] == pairs[0].0 && flat[1] == pairs[0].1;
    assert flat[1..][0] == flat[1] && flat[1..][1..] == Flatten(pairs[1..]);
    forall k | 0 <= k < |Flatten(pairs[1..])|
      ensures IsIndex(doc, Flatten(pairs[1..])[k])
    {
      assert IsIndex(doc, flat[k + 2]);
    }
    var first := DumpNode(doc, ids, pairs[0].0, order);
    assert DumpItems(doc, ids, flat[1..], first.order).events
        == DumpNode(doc, ids, pairs[0].1, first.order).events
           + DumpItems(doc, ids, flat[1..][1..], DumpNode(doc, ids, pairs[0].1, first.order).order).events;
  }

  lemma {:induction false} LoadsPair(doc: Document, ids: seq<nat>, pairs: seq<(nat, nat)>, order: seq<nat>, c: Composed,
                                     index: nat, rest: seq<Event>) returns (c': Composed)
    requires WellFormed(doc) && DistinctIds(ids) && InStep(doc, ids, order, c) && AllIndices(doc, Flatten(pairs))
    requires pairs != [] && 1 <= index <= |c.nodes| && c.nodes[index - 1].MappingNode?
    requires AnchorsSuffice(ids, order, DumpItems(doc, ids, Flatten(pairs), order).visits)
    ensures IsIndex(doc, pairs[0].0) && IsIndex(doc, pairs[0].1) && AllIndices(doc, Flatten(pairs[1..]))
    ensures var first := DumpNode(doc, ids, pairs[0].0, order);
      var second := DumpNode(doc, ids, pairs[0].1, first.order);
      var more := DumpItems(doc, ids, Flatten(pairs[1..]), second.order);
      && InStep(doc, ids, second.order, c') && GoodOrder(doc, more.order)
      && order <= first.order <= second.order <= more.order
      && pairs[0].0 in first.order && pairs[0].1 in second.order
      && Frame(c, c', index) && index <= |c'.nodes|
      && c'.nodes[index - 1] == c.nodes[index - 1].(pairs :=
           c.nodes[index - 1].pairs + [(NewIndex(first.order, pairs[0].0), NewIndex(second.order, pairs[0].1))])
      && LoadPairs(DumpItems(doc, ids, Flatten(pairs), order).events + [MappingEnd] + rest, c, index)
         == LoadPairs(more.events + [MappingEnd] + rest, c', index)
      && AnchorsSuffice(ids, second.order, more.visits)
      && NodesMatch(doc, second.order, c', |order|)
    decreases Unserialized(doc, order), |Flatten(pairs)| - 1
  {
    hide AnchorsSuffice, DistinctIds, NodesMatch, Registered, IndexOf, Distinct, DumpNode, DumpItems;
    var (key, value) := pairs[0];
    PairUnfolds(doc, ids, pairs, order);
    var first := DumpNode(doc, ids, key, order);
    var second := DumpNode(doc, ids, value, first.order);
    var more := DumpItems(doc, ids, Flatten(pairs[1..]), second.order);
    var events'' := more.events + [MappingEnd] + rest;
    var events' := second.events + events'';
    var events := first.events + events';
    assert DumpItems(doc, ids, Flatten(pairs), order).events + [MappingEnd] + rest == events;
    PairAnchors(doc, ids, key, value, Flatten(pairs[1..]), order);
    LoadsNode(doc, ids, key, order, c, events');
    FirstEventOpens(doc, ids, key, order);
    var c1 := LoadNode(events, c);
    LoadsNode(doc, ids, value, first.order, c1.composed, events'');
    var c2 := LoadNode(events', c1.composed);
    c' := AppendPair(c2.composed, index, (c1.index, c2.index));
    MatchesAway(doc, second.order, c2.composed, c', |first.order|);
    MatchLonger(doc, first.order, c1.composed, second.order, c', |order|);
  }

  /** Filling in a node before `from` does not disturb the nodes from there on. */
  lemma MatchesAway(doc: Document, order: seq<nat>, c: Composed, c': Composed, from: nat)
    requires WellFormed(doc) && AllIndices(doc, order) && |order| == |c.nodes| == |c'.nodes|
    requires NodesMatch(doc, order, c, from) && forall k :: from <= k < |order| ==> c'.nodes[k] == c.nodes[k]
    ensures NodesMatch(doc, order, c', from)
  {
    forall k | from <= k < |order|
      ensures NodeMatches(doc, order, c', k)
    {
      assert NodeMatches(doc, order, c, k);
    }
  }

  lemma PairAnchors(doc: Document, ids: seq<nat>, key: nat, value: nat, items: seq<nat>, order: seq<nat>)
    requires WellFormed(doc) && |ids| == |doc| && IsIndex(doc, key) && IsIndex(doc, value) && AllIndices(doc, items)
    requires GoodOrder(doc, order)
    requires var first := DumpNode(doc, ids, key, order);
      var second := DumpNode(doc, ids, value, first.order);
      AnchorsSuffice(ids, order, first.visits + (second.visits + DumpItems(doc, ids, items, second.order).visits))
    ensures var first := DumpNode(doc, ids, key, order);
      var second := DumpNode(doc, ids, value, first.order);
      var more := DumpItems(doc, ids, items, second.order);
      && GoodOrder(doc, first.order) && GoodOrder(doc, second.order) && GoodOrder(doc, more.order)
      && order <= first.order <= second.order <= more.order
      && key in first.order && value in second.order
      && AnchorsSuffice(ids, order, first.visits)
      && AnchorsSuffice(ids, first.order, second.visits)
      && AnchorsSuffice(ids, second.order, more.visits)
      && Unserialized(doc, first.order) <= Unserialized(doc, order)
  {
    hide AnchorsSuffice, Closed;
    var first := DumpNode(doc, ids, key, order);
    var second := DumpNode(doc, ids, value, first.order);
    var more := DumpItems(doc, ids, items, second.order);
    NodeGrows(doc, ids, key, order);
    NodeGrows(doc, ids, value, first.order);
    ItemsGrow(doc, ids, items, second.order);
    assert [key][0] in first.order && [value][0] in second.order;
    SufficeFirst(ids, order, first.visits, second.visits + more.visits);
    SufficeRest(ids, order, first.visits, first.order, second.visits + more.visits);
    SufficeFirst(ids, first.order, second.visits, more.visits);
    SufficeRest(ids, first.order, second.visits, second.order, more.visits);
  }

  lemma PairsJoin(first: seq<nat>, second: seq<nat>, longer: seq<nat>, pairs: seq<(nat, nat)>, before: seq<(nat, nat)>)
    requires first <= second <= longer && Distinct(longer) && Distinct(second)
    requires pairs != [] && pairs[0].0 in first && pairs[0].1 in second
    requires SerializedPairs(longer, pairs[1..]) && Serialized(longer, Flatten(pairs[1..]))
    ensures SerializedPairs(longer, pairs) && Serialized(longer, Flatten(pairs))
    ensures (before + [(NewIndex(first, pairs[0].0), NewIndex(second, pairs[0].1))]) + RenumberedPairs(longer, pairs[1..])
         == before + RenumberedPairs(longer, pairs)
  {
    SameIndex(first, longer, pairs[0].0);
    SameIndex(second, longer, pairs[0].1);
    assert pairs == [pairs[0]] + pairs[1..];
    var flat := Flatten(pairs);
    forall k | 0 <= k < |flat|
      ensures flat[k] in longer
    {
      assert k >= 2 ==> flat[k] == Flatten(pairs[1..])[k - 2];
    }
  }

  /**
    The round trip of a document: loading the events of its root gives a document whose nodes
    are exactly the nodes reachable from the root, each once and renumbered in order of first
    visit, with every reference leading to the renumbered node. Only a node tagged `!` changes:
    it gets the default tag of its kind.
   */
  lemma GraphRoundTrip(doc: Document, rest: seq<Event>)
    requires WellFormed(doc) && doc != []
    ensures var order := DumpRoot(doc).order;
      var outcome := LoadNode(DumpRoot(doc).events + rest, Composed([], []));
      && outcome.Loaded? && outcome.index == 1 && outcome.rest == rest
      && Distinct(order) && AllIndices(doc, order) && order != [] && order[0] == 1
      && (forall i :: i in order <==> Reachable(doc, i))
      && |outcome.composed.nodes| == |order|
      && NodesMatch(doc, order, outcome.composed, 0)
  {
    var ids := AnchorNode(doc, 1, NoAnchors(doc)).ids;
    RootAnchors(doc);
    DumpsReachableNodes(doc);
    LoadsNode(doc, ids, 1, [], Composed([], []), rest);
  }

  /** Whether every loaded node has the tag of the node it stands for. */
  ghost predicate TagsMatch(doc: Document, order: seq<nat>, c: Composed)
    requires AllIndices(doc, order) && |order| == |c.nodes|
  {
    forall k :: 0 <= k < |order| ==> c.nodes[k].tag == doc[order[k] - 1].tag
  }

  /** The loaded tags are the dumped ones exactly if no node that the root reaches is tagged `!`. */
  lemma TagsAreKept(doc: Document, rest: seq<Event>)
    requires WellFormed(doc) && doc != []
    ensures var order := DumpRoot(doc).order;
      var outcome := LoadNode(DumpRoot(doc).events + rest, Composed([], []));
      && outcome.Loaded? && AllIndices(doc, order) && |outcome.composed.nodes| == |order|
      && (TagsMatch(doc, order, outcome.composed) <==> forall i: nat :: Reachable(doc, i) && IsIndex(doc, i) ==> doc[i - 1].tag != "!")
  {
    hide DumpNode, LoadNode, RenumberedItems, RenumberedPairs, Reachable;
    GraphRoundTrip(doc, rest);
    var order := DumpRoot(doc).order;
    var c := LoadNode(DumpRoot(doc).events + rest, Composed([], [])).composed;
    forall k | 0 <= k < |order|
      ensures c.nodes[k].tag == doc[order[k] - 1].tag <==> doc[order[k] - 1].tag != "!"
    {
      assert NodeMatches(doc, order, c, k);
    }
    if TagsMatch(doc, order, c) {
      forall i: nat | Reachable(doc, i) && IsIndex(doc, i)
        ensures doc[i - 1].tag != "!"
      {
        var k := IndexOf(order, i);
        assert c.nodes[k].tag == doc[order[k] - 1].tag;
      }
    } else {
      var k :| 0 <= k < |order| && c.nodes[k].tag != doc[order[k] - 1].tag;
      assert order[k] in order;
    }
  }
}
