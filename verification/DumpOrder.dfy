/**
  What the second pass visits: each reachable node once, in order of first visit, and as often
  as the first pass counted.
 */
module DumpOrder {
  import opened Options
  import opened Events
  import opened Documents
  import opened Dumping

  ghost predicate Distinct(order: seq<nat>) {
    forall j, k :: 0 <= j < k < |order| ==> order[j] != order[k]
  }

  ghost predicate GoodOrder(doc: Document, order: seq<nat>) {
    Distinct(order) && AllIndices(doc, order)
  }

  /** The nodes serialized from position `from` on have all their children serialized. */
  ghost predicate Closed(doc: Document, order: seq<nat>, from: nat)
    requires WellFormed(doc) && AllIndices(doc, order)
  {
    forall k :: from <= k < |order| ==> ClosedAt(doc, order, k)
  }

  ghost predicate ClosedAt(doc: Document, order: seq<nat>, k: nat)
    requires WellFormed(doc) && AllIndices(doc, order) && k < |order|
  {
    Serialized(order, Children(doc[order[k] - 1]))
  }

  ghost predicate Serialized(order: seq<nat>, items: seq<nat>) {
    forall k :: 0 <= k < |items| ==> items[k] in order
  }

  /** What a call adds: it extends the order by the nodes it visits, and closes them. */
  ghost predicate Grows(doc: Document, order: seq<nat>, items: seq<nat>, d: Dumped)
    requires WellFormed(doc)
  {
    && GoodOrder(doc, d.order)
    && order <= d.order
    && Serialized(d.order, items)
    && Closed(doc, d.order, |order|)
    && (forall i :: i in d.order <==> i in order || i in d.visits)
  }

  lemma {:induction false} NodeGrows(doc: Document, ids: seq<nat>, i: nat, order: seq<nat>)
    requires WellFormed(doc) && |ids| == |doc| && IsIndex(doc, i) && GoodOrder(doc, order)
    ensures Grows(doc, order, [i], DumpNode(doc, ids, i, order))
    decreases Unserialized(doc, order), 0
  {
    if i !in order {
      var items := Children(doc[i - 1]);
      var order' := order + [i];
      assert i in Unserialized(doc, order) && i !in Unserialized(doc, order');
      ItemsGrow(doc, ids, items, order');
      var d := DumpItems(doc, ids, items, order');
      assert d.order[|order|] == i;
      assert order <= d.order;
      forall k | |order| <= k < |d.order|
        ensures ClosedAt(doc, d.order, k)
      {
        assert k >= |order'| || k == |order|;
      }
    }
  }

  lemma {:induction false} ItemsGrow(doc: Document, ids: seq<nat>, items: seq<nat>, order: seq<nat>)
    requires WellFormed(doc) && |ids| == |doc| && AllIndices(doc, items) && GoodOrder(doc, order)
    ensures Grows(doc, order, items, DumpItems(doc, ids, items, order))
    decreases Unserialized(doc, order), |items|
  {
    if items != [] {
      NodeGrows(doc, ids, items[0], order);
      var first := DumpNode(doc, ids, items[0], order);
      ItemsGrow(doc, ids, items[1..], first.order);
      var rest := DumpItems(doc, ids, items[1..], first.order);
      assert [items[0]][0] in first.order;
      SerializedLonger(first.order, rest.order, [items[0]]);
      assert [items[0]] + items[1..] == items;
      assert items[0] in rest.order by { assert [items[0]][0] in rest.order; }
      ClosedLonger(doc, order, first.order, rest.order);
    }
  }

  lemma SerializedLonger(order: seq<nat>, longer: seq<nat>, items: seq<nat>)
    requires order <= longer && Serialized(order, items)
    ensures Serialized(longer, items)
  {
    forall k | 0 <= k < |items|
      ensures items[k] in longer
    {
      var j :| 0 <= j < |order| && order[j] == items[k];
      assert longer[j] == items[k];
    }
  }

  lemma ClosedLonger(doc: Document, order: seq<nat>, middle: seq<nat>, longer: seq<nat>)
    requires WellFormed(doc) && AllIndices(doc, longer) && AllIndices(doc, middle)
    requires order <= middle <= longer && Closed(doc, middle, |order|) && Closed(doc, longer, |middle|)
    ensures Closed(doc, longer, |order|)
  {
    forall k | |order| <= k < |longer|
      ensures ClosedAt(doc, longer, k)
    {
      if k < |middle| {
        assert ClosedAt(doc, middle, k) && longer[k] == middle[k];
        SerializedLonger(middle, longer, Children(doc[middle[k] - 1]));
      }
    }
  }

  // ----- The first pass makes the same visits

  /** The nodes counted so far are the nodes serialized so far. */
  ghost predicate SameSeen(doc: Document, order: seq<nat>, a: Anchors)
    requires Fits(doc, a)
  {
    forall k :: 0 <= k < |doc| ==> (k + 1 in order <==> a.references[k] > 0)
  }

  ghost predicate CountsVisits(doc: Document, a: Anchors, visits: seq<nat>, r: Anchors)
    requires Fits(doc, a) && Fits(doc, r)
  {
    forall k :: 0 <= k < |doc| ==> r.references[k] == a.references[k] + multiset(visits)[k + 1]
  }

  /** The first visit of a node, in both passes. */
  lemma FirstVisit(doc: Document, i: nat, order: seq<nat>, a: Anchors, items: seq<nat>, visits: seq<nat>, r: Anchors)
    requires IsIndex(doc, i) && i !in order && Fits(doc, a) && SameSeen(doc, order, a) && Fits(doc, r)
    ensures a.references[i - 1] == 0
    ensures var a' := a.(references := a.references[i - 1 := 1]);
      && SameSeen(doc, order + [i], a')
      && (CountsVisits(doc, a', visits, r) ==> CountsVisits(doc, a, [i] + visits, r))
  {
    assert i - 1 + 1 in order <==> a.references[i - 1] > 0;
    assert multiset([i] + visits) == multiset([i]) + multiset(visits);
  }

  lemma {:induction false} NodeCounts(doc: Document, ids: seq<nat>, i: nat, order: seq<nat>, a: Anchors)
    requires WellFormed(doc) && |ids| == |doc| && IsIndex(doc, i) && Fits(doc, a) && SameSeen(doc, order, a)
    ensures var d := DumpNode(doc, ids, i, order);
      var r := AnchorNode(doc, i, a);
      SameSeen(doc, d.order, r) && CountsVisits(doc, a, d.visits, r)
    decreases Unserialized(doc, order), 0
  {
    if i in order {
      assert i - 1 + 1 in order <==> a.references[i - 1] > 0;
    } else {
      var items := Children(doc[i - 1]);
      assert i in Unserialized(doc, order) && i !in Unserialized(doc, order + [i]);
      var a' := a.(references := a.references[i - 1 := 1]);
      var visits := DumpItems(doc, ids, items, order + [i]).visits;
      FirstVisit(doc, i, order, a, items, visits, AnchorItems(doc, items, a'));
      ItemsCount(doc, ids, items, order + [i], a');
    }
  }

  lemma {:induction false} ItemsCount(doc: Document, ids: seq<nat>, items: seq<nat>, order: seq<nat>, a: Anchors)
    requires WellFormed(doc) && |ids| == |doc| && AllIndices(doc, items) && Fits(doc, a) && SameSeen(doc, order, a)
    ensures var d := DumpItems(doc, ids, items, order);
      var r := AnchorItems(doc, items, a);
      SameSeen(doc, d.order, r) && CountsVisits(doc, a, d.visits, r)
    decreases Unserialized(doc, order), |items|
  {
    if items != [] {
      NodeCounts(doc, ids, items[0], order, a);
      var first := DumpNode(doc, ids, items[0], order);
      ItemsCount(doc, ids, items[1..], first.order, AnchorNode(doc, items[0], a));
      var rest := DumpItems(doc, ids, items[1..], first.order);
      assert multiset(first.visits + rest.visits) == multiset(first.visits) + multiset(rest.visits);
    }
  }

  // ----- Anchor ids

  /** A node has an id exactly if it was visited twice; ids are different and at most the last one. */
  ghost predicate IdsFit(doc: Document, a: Anchors)
    requires Fits(doc, a)
  {
    && (forall k :: 0 <= k < |doc| ==> (a.ids[k] != 0 <==> a.references[k] >= 2))
    && (forall k :: 0 <= k < |doc| ==> a.ids[k] <= a.last)
    && DistinctIds(a.ids)
  }

  ghost predicate DistinctIds(ids: seq<nat>) {
    forall j, k :: 0 <= j < k < |ids| && ids[j] != 0 ==> ids[j] != ids[k]
  }

  lemma {:induction false} NodeKeepsIds(doc: Document, i: nat, a: Anchors)
    requires WellFormed(doc) && IsIndex(doc, i) && Fits(doc, a) && IdsFit(doc, a)
    ensures IdsFit(doc, AnchorNode(doc, i, a))
    decreases Unvisited(a), 0
  {
    var n := a.references[i - 1] + 1;
    var a' := a.(references := a.references[i - 1 := n]);
    if n == 1 {
      assert i - 1 in Unvisited(a) && i - 1 !in Unvisited(a');
      ItemsKeepIds(doc, Children(doc[i - 1]), a');
    }
  }

  lemma {:induction false} ItemsKeepIds(doc: Document, items: seq<nat>, a: Anchors)
    requires WellFormed(doc) && AllIndices(doc, items) && Fits(doc, a) && IdsFit(doc, a)
    ensures IdsFit(doc, AnchorItems(doc, items, a))
    decreases Unvisited(a), |items|
  {
    if items != [] {
      NodeKeepsIds(doc, items[0], a);
      ItemsKeepIds(doc, items[1..], AnchorNode(doc, items[0], a));
    }
  }

  /** Every node that a call visits for the second time, or again after earlier calls, has an anchor. */
  ghost predicate AnchorsSuffice(ids: seq<nat>, order: seq<nat>, visits: seq<nat>) {
    forall i: nat :: 1 <= i <= |ids| && (if i in order then 1 else 0) + multiset(visits)[i] >= 2 ==> ids[i - 1] != 0
  }

  /** The two passes of the root: ids are different, and the second pass finds all it needs. */
  lemma RootAnchors(doc: Document)
    requires WellFormed(doc) && doc != []
    ensures var ids := AnchorNode(doc, 1, NoAnchors(doc)).ids;
      DistinctIds(ids) && AnchorsSuffice(ids, [], DumpRoot(doc).visits)
      && forall i: nat :: IsIndex(doc, i) ==> (ids[i - 1] != 0 <==> multiset(DumpRoot(doc).visits)[i] >= 2)
  {
    var a := NoAnchors(doc);
    var r := AnchorNode(doc, 1, a);
    NodeKeepsIds(doc, 1, a);
    NodeCounts(doc, r.ids, 1, [], a);
    forall i: nat | IsIndex(doc, i)
      ensures r.ids[i - 1] != 0 <==> multiset(DumpRoot(doc).visits)[i] >= 2
    {
      assert r.references[i - 1] == multiset(DumpRoot(doc).visits)[i - 1 + 1];
    }
  }

  // ----- Reachability

  /** A node visited is reachable if the node it is visited from is. */
  lemma ReachChild(doc: Document, from: nat, to: nat)
    requires WellFormed(doc) && Reachable(doc, from) && IsIndex(doc, from) && to in Children(doc[from - 1])
    ensures Reachable(doc, to)
  {
    var path :| IsPath(doc, path, 1, from);
    LongerPath(doc, path, from, to);
  }

  lemma LongerPath(doc: Document, path: seq<nat>, from: nat, to: nat)
    requires WellFormed(doc) && IsPath(doc, path, 1, from) && IsIndex(doc, to) && to in Children(doc[from - 1])
    ensures IsPath(doc, path + [to], 1, to)
  {
    var longer := path + [to];
    assert AllIndices(doc, longer);
    forall k | 0 <= k < |longer| - 1
      ensures EdgeAt(doc, longer, k)
    {
      if k < |path| - 1 {
        assert EdgeAt(doc, path, k);
      }
    }
  }

  lemma {:induction false} NodeReaches(doc: Document, ids: seq<nat>, i: nat, order: seq<nat>)
    requires WellFormed(doc) && |ids| == |doc| && IsIndex(doc, i) && Reachable(doc, i)
    ensures forall k :: k in DumpNode(doc, ids, i, order).visits ==> Reachable(doc, k)
    decreases Unserialized(doc, order), 0
  {
    if i !in order {
      var items := Children(doc[i - 1]);
      assert i in Unserialized(doc, order) && i !in Unserialized(doc, order + [i]);
      forall k | 0 <= k < |items|
        ensures Reachable(doc, items[k])
      {
        ReachChild(doc, i, items[k]);
      }
      ItemsReach(doc, ids, items, order + [i]);
    }
  }

  lemma {:induction false} ItemsReach(doc: Document, ids: seq<nat>, items: seq<nat>, order: seq<nat>)
    requires WellFormed(doc) && |ids| == |doc| && AllIndices(doc, items)
    requires forall k :: 0 <= k < |items| ==> Reachable(doc, items[k])
    ensures forall k :: k in DumpItems(doc, ids, items, order).visits ==> Reachable(doc, k)
    decreases Unserialized(doc, order), |items|
  {
    if items != [] {
      NodeReaches(doc, ids, items[0], order);
      ItemsReach(doc, ids, items[1..], DumpNode(doc, ids, items[0], order).order);
    }
  }

  lemma ShorterPath(doc: Document, path: seq<nat>, to: nat)
    requires WellFormed(doc) && |path| > 1 && IsPath(doc, path, path[0], to)
    ensures IsPath(doc, path[1..], path[1], to) && EdgeAt(doc, path, 0)
  {
    var tail := path[1..];
    assert AllIndices(doc, tail);
    forall j | 0 <= j < |tail| - 1
      ensures EdgeAt(doc, tail, j)
    {
      assert EdgeAt(doc, path, j + 1);
    }
  }

  lemma ChildInside(doc: Document, order: seq<nat>, from: nat, to: nat)
    requires WellFormed(doc) && AllIndices(doc, order) && Closed(doc, order, 0) && from in order
    requires IsIndex(doc, from) && to in Children(doc[from - 1])
    ensures to in order
  {
    var k :| 0 <= k < |order| && order[k] == from;
    assert ClosedAt(doc, order, k);
  }

  lemma {:induction false} PathStaysInside(doc: Document, order: seq<nat>, path: seq<nat>, to: nat)
    requires WellFormed(doc) && AllIndices(doc, order) && Closed(doc, order, 0)
    requires path != [] && path[0] in order && IsPath(doc, path, path[0], to)
    ensures to in order
    decreases |path|
  {
    hide Closed;
    if |path| > 1 {
      ShorterPath(doc, path, to);
      ChildInside(doc, order, path[0], path[1]);
      PathStaysInside(doc, order, path[1..], to);
    }
  }

  /** The root's dump serializes exactly the nodes reachable from the root, each once, the root first. */
  lemma DumpsReachableNodes(doc: Document)
    requires WellFormed(doc) && doc != []
    ensures var order := DumpRoot(doc).order;
      && GoodOrder(doc, order) && order != [] && order[0] == 1
      && Closed(doc, order, 0)
      && forall i :: i in order <==> Reachable(doc, i)
  {
    var ids := AnchorNode(doc, 1, NoAnchors(doc)).ids;
    var d := DumpRoot(doc);
    NodeGrows(doc, ids, 1, []);
    assert IsPath(doc, [1], 1, 1);
    NodeReaches(doc, ids, 1, []);
    var items := Children(doc[1 - 1]);
    ItemsGrow(doc, ids, items, [] + [1]);
    assert [1] <= d.order;
    forall i | Reachable(doc, i)
      ensures i in d.order
    {
      var path :| IsPath(doc, path, 1, i);
      PathStaysInside(doc, d.order, path, i);
    }
  }
}
