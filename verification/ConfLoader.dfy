/**
  The loader of the configuration in place (conf-yaml-loader.c, ConfYamlParse): one call changes
  the node it is given, and the nodes below it, as the function of `ConfLoading` says.
 */
module ConfLoader {
  import opened Options
  import opened Events
  import opened ConfStore
  import opened ConfTree
  import ConfLoading

  class Loader {
    var events: seq<Event>  // what the parser will still give

    constructor (events: seq<Event>)
      ensures this.events == events
    {
      this.events := events;
    }

    /** What a call has done, according to the function that specifies it. */
    ghost predicate Did(outcome: ConfLoading.Outcome, node: ConfNode, ok: bool)
      reads this, node, node.Repr
    {
      match outcome
      case Failed => !ok
      case Done(tree, rest) => ok && node.Good() && node.tree == tree && events == rest
    }

    /** The node is the parent, or its child with this number. */
    static ghost predicate Points(node: ConfNode, parent: ConfNode, current: Option<nat>)
      reads parent
    {
      match current
      case None => node == parent
      case Some(k) => k < |parent.children| && node == parent.children[k]
    }

    method Parse(parent: ConfNode, inSeq: bool) returns (ok: bool)
      requires parent.Good() && this !in parent.Repr
      modifies this, parent.Repr
      ensures fresh(parent.Repr - old(parent.Repr))
      ensures Did(ConfLoading.Parse(old(events), old(parent.tree), inSeq), parent, ok)
      ensures ok ==> |events| < |old(events)|
      decreases |events|, 1
    {
      hide ConfNode.Good, ConfLoading.TakeScalar;
      var node := parent;
      ghost var current: Option<nat> := None;
      var expectsValue, index := false, 0;
      ghost var outcome := ConfLoading.Parse(events, parent.tree, inSeq);
      while events != []
        invariant parent.Good() && this !in parent.Repr && fresh(parent.Repr - old(parent.Repr)) && |events| <= |old(events)|
        invariant Points(node, parent, current) && (inSeq ==> current == None)
        invariant ConfLoading.ParseLoop(events, parent.tree, inSeq, ConfLoading.Loop(current, expectsValue, index)) == outcome
        decreases |events|
      {
        var event := events[0];
        events := events[1..];
        if event.DocumentStart? {
          if event.version != Some((1, 1)) {
            return false;
          }
        } else if event.ScalarEvent? {
          node, current, expectsValue, index := TakeScalar(parent, node, current, inSeq, expectsValue, index, event.value);
        } else if event.SequenceStart? {
          var parsed := ParseInto(parent, node, current, true);
          if !parsed {
            return false;
          }
          expectsValue := false;
        } else if event.MappingStart? {
          var parsed;
          if inSeq {
            parsed := ParseItem(parent, index);
            index := index + 1;
          } else {
            parsed := ParseInto(parent, node, current, inSeq);
          }
          if !parsed {
            return false;
          }
          expectsValue := false;
        } else if event == SequenceEnd || event == MappingEnd || event == StreamEnd {
          return true;
        }
      }
      return false;
    }

    /** A scalar: an item, a key or a value. */
    static method TakeScalar(parent: ConfNode, node: ConfNode, ghost current: Option<nat>,
                             inSeq: bool, expectsValue: bool, index: nat, value: string)
      returns (node': ConfNode, ghost current': Option<nat>, expectsValue': bool, index': nat)
      requires parent.Good() && Points(node, parent, current) && (inSeq ==> current == None)
      modifies parent.Repr
      ensures parent.Good() && fresh(parent.Repr - old(parent.Repr))
      ensures Points(node', parent, current') && (inSeq ==> current' == None)
      ensures (parent.tree, ConfLoading.Loop(current', expectsValue', index'))
        == ConfLoading.TakeScalar(old(parent.tree), inSeq, ConfLoading.Loop(current, expectsValue, index), value)
    {
      hide ConfNode.Good, ConfLoading.ChildFor, ConfLoading.NoteKey, ConfLoading.SetVal, ConfLoading.SetCurrent, ConfLoading.Current;
      node', current', expectsValue', index' := node, current, expectsValue, index;
      if inSeq {
        AddItem(parent, index, value);
        index' := index + 1;
      } else if !expectsValue {
        node', current' := FindOrAdd(parent, value);
        expectsValue' := true;
      } else {
        AssignTo(parent, node, current, value);
        expectsValue' := false;
      }
    }

    /** A scalar in a sequence. */
    static method AddItem(parent: ConfNode, index: nat, value: string)
      requires parent.Good()
      modifies parent.Repr
      ensures parent.Good() && fresh(parent.Repr - old(parent.Repr))
      ensures parent.tree == old(parent.tree).(children := old(parent.tree.children)
                               + [NewNode(ConfLoading.IndexName(index)).(val := Some(value))])
    {
      parent.ListIsOwn();
      var item := new ConfNode(ConfLoading.IndexName(index));
      item.Write(value, true, false);
      parent.InsertTail(item);
    }

    /** An empty node for a mapping in a sequence. */
    static method AddMapping(parent: ConfNode, index: nat) returns (item: ConfNode)
      requires parent.Good()
      modifies parent.Repr
      ensures parent.Good() && fresh(parent.Repr - old(parent.Repr)) && parent.children == old(parent.children) + [item]
      ensures parent.tree == old(parent.tree).(children := old(parent.tree.children)
                               + [NewNode(ConfLoading.IndexName(index)).(isSeq := true)])
    {
      parent.ListIsOwn();
      item := new ConfNode(ConfLoading.IndexName(index));
      item.MarkSequence();
      parent.InsertTail(item);
    }

    /** The child for a key; the first key of a mapping in a sequence is noted as the item's value. */
    static method FindOrAdd(parent: ConfNode, key: string) returns (node: ConfNode, ghost current: Option<nat>)
      requires parent.Good()
      modifies parent.Repr
      ensures parent.Good() && fresh(parent.Repr - old(parent.Repr))
      ensures var (tree, k) := ConfLoading.ChildFor(ConfLoading.NoteKey(old(parent.tree), key), key);
        parent.tree == tree && current == Some(k) && Points(node, parent, current)
    {
      parent.ListIsOwn();
      if parent.isSeq && parent.val == None {
        parent.Write(ConfLoading.Mangle(key), parent.allowOverride, parent.isSeq);
      }
      var found, at := parent.LookupChild(key);
      if found != null {
        return found.item, Some(at);
      }
      node, current := AddKey(parent, key);
    }

    /** A new child for a key, under the name it is stored with. */
    static method AddKey(parent: ConfNode, key: string) returns (node: ConfNode, ghost current: Option<nat>)
      requires parent.Good()
      modifies parent.Repr
      ensures parent.Good() && fresh(parent.Repr - old(parent.Repr))
      ensures parent.tree == old(parent.tree).(children := old(parent.tree.children)
                               + [NewNode(ConfLoading.StoredName(old(parent.tree), key))])
      ensures current == Some(|old(parent.tree.children)|) && Points(node, parent, current)
    {
      parent.ListIsOwn();
      var keeps := parent.name == "address-groups" || parent.name == "port-groups";
      node := new ConfNode(if keeps then key else ConfLoading.Mangle(key));
      parent.InsertTail(node);
      current := Some(|parent.children| - 1);
    }

    /** The value behind a key. */
    static method AssignTo(parent: ConfNode, node: ConfNode, ghost current: Option<nat>, value: string)
      requires parent.Good() && Points(node, parent, current)
      modifies parent.Repr
      ensures parent.Good() && fresh(parent.Repr - old(parent.Repr)) && parent.children == old(parent.children)
      ensures parent.tree == ConfLoading.SetCurrent(old(parent.tree), current,
                               ConfLoading.SetVal(ConfLoading.Current(old(parent.tree), current), value))
    {
      ghost var isChild := current.Some?;
      if isChild {
        assert parent.ChildGood(current.value);
        parent.Siblings(current.value);
      }
      node.Assign(value);
      if isChild {
        parent.SiblingsStay(current.value);
        parent.Adopt(current.value);
      }
    }

    /** A mapping in a sequence: a new node, and the recursive call on it. */
    method ParseItem(parent: ConfNode, index: nat) returns (ok: bool)
      requires parent.Good() && this !in parent.Repr
      modifies this, parent.Repr
      ensures fresh(parent.Repr - old(parent.Repr))
      ensures match ConfLoading.Parse(old(events), NewNode(ConfLoading.IndexName(index)).(isSeq := true), false)
        case Failed => !ok
        case Done(node, rest) =>
          && ok && parent.Good() && events == rest
          && parent.tree == old(parent.tree).(children := old(parent.tree.children) + [node])
      ensures ok ==> |events| < |old(events)|
      decreases |events|, 3
    {
      var item := AddMapping(parent, index);
      ghost var tree, n := parent.tree, |parent.tree.children| - 1;
      ok := ParseInto(parent, item, Some(n), false);
      if ok {
        assert forall node: Node :: tree.children[n := node] == old(parent.tree.children) + [node];
      }
    }

    /** The recursive call, on a child or on the parent itself. */
    method ParseInto(parent: ConfNode, node: ConfNode, ghost current: Option<nat>, inSeq: bool) returns (ok: bool)
      requires parent.Good() && this !in parent.Repr && Points(node, parent, current)
      modifies this, parent.Repr
      ensures fresh(parent.Repr - old(parent.Repr))
      ensures match ConfLoading.Parse(old(events), ConfLoading.Current(old(parent.tree), current), inSeq)
        case Failed => !ok
        case Done(result, rest) =>
          && ok && parent.Good() && parent.tree == ConfLoading.SetCurrent(old(parent.tree), current, result) && events == rest
          && (current.Some? ==> parent.children == old(parent.children))
      ensures ok ==> |events| < |old(events)|
      decreases |events|, 2
    {
      ghost var isChild := current.Some?;
      if isChild {
        assert parent.ChildGood(current.value);
        parent.Siblings(current.value);
      }
      ok := Parse(node, inSeq);
      if ok && isChild {
        parent.SiblingsStay(current.value);
        parent.Adopt(current.value);
      }
    }
  }
}
