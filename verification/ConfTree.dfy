/**
  The configuration store in place: nodes whose children hang on a tail queue, changed by walking
  down the parts of a name. A node object is proved to change as the tree of `ConfStore` that it
  stands for.
 */
module ConfTree {
  import opened Options
  import opened ConfStore
  import TailQueue

  class ConfNode {
    const name: string
    var val: Option<string>
    var isSeq: bool
    var allowOverride: bool
    const head: TailQueue.TailQueue<ConfNode>
    ghost var children: seq<ConfNode>  // what the elements of the queue hold
    ghost var Repr: set<object>
    ghost var tree: Node               // the tree this node stands for

    constructor (name: string)
      ensures Good() && fresh(Repr) && tree == NewNode(name)
    {
      this.name, val, isSeq, allowOverride, children := name, None, false, true, [];
      head := new TailQueue.TailQueue<ConfNode>();
      tree := NewNode(name);
      new;
      Repr := {this, head};
    }

    /** The objects that belong to the node itself: the node, the head of its list, the elements in it. */
    ghost function Own(): set<object>
      reads this, head
    {
      {this, head} + (set e | e in head.elements)
    }

    /** The list holds the children, in their order. */
    ghost predicate Listed()
      reads this, head, head.elements
    {
      && head.Valid() && |head.elements| == |children|
      && forall k :: 0 <= k < |children| ==> head.elements[k].item == children[k]
    }

    /** A child is part of its parent, and stands for the child tree of the same number. */
    ghost predicate ChildGood(k: nat)
      requires k < |children| && this in Repr && head in Repr
      reads this, Repr
      decreases Repr, 0
    {
      var child := children[k];
      && child in Repr && child in child.Repr && child.Repr < Repr && child.Repr !! Own() && child.Good()
      && k < |tree.children| && child.tree == tree.children[k]
    }

    ghost predicate Apart()
      reads this, children
    {
      forall i, j :: 0 <= i < j < |children| ==> children[i].Repr !! children[j].Repr
    }

    /** The objects form a tree, and it is the one in the ghost field. */
    ghost predicate Good()
      reads this, Repr
      decreases Repr, 1
    {
      && this in Repr && head in Repr && Own() <= Repr && Listed()
      && tree == Node(name, val, isSeq, allowOverride, tree.children) && |tree.children| == |children|
      && (forall k :: 0 <= k < |children| ==> ChildGood(k))
      && (forall k :: 0 <= k < |children| ==> children[k] in Repr) && Apart()
    }

    /** The first child with a name: the element that holds it, and its place. */
    method LookupChild(name: string) returns (r: TailQueue.Element?<ConfNode>, ghost at: nat)
      requires Good()
      ensures r == null ==> FindChild(tree.children, name) == None
      ensures r != null ==>
        at < |children| && FindChild(tree.children, name) == Some(at) && r == head.elements[at] && r.item == children[at]
    {
      r, at := head.first, 0;
      assert tree.children[0..] == tree.children;
      while r != null
        invariant 0 <= at <= |children| && r == head.Place(at)
        invariant FindChild(tree.children, name) == Shifted(FindChild(tree.children[at..], name), at)
        decreases |children| - at
      {
        assert ChildGood(at) && head.Linked(at);
        NameOf(at);
        assert tree.children[at..][1..] == tree.children[at + 1..];
        if r.item.name == name {
          return;
        }
        r, at := r.next, at + 1;
      }
    }

    static function Shifted(r: Option<nat>, k: nat): Option<nat> {
      match r
      case None => None
      case Some(j) => Some(j + k)
    }

    lemma NameOf(k: nat)
      requires k < |children| && this in Repr && head in Repr && ChildGood(k)
      ensures children[k].name == tree.children[k].name
    {
    }

    /** A new child at the end of the list. */
    method InsertTail(child: ConfNode)
      requires Good() && child.Good() && child.Repr !! Repr
      modifies this, head, head.elements
      ensures Good() && old(Repr) + child.Repr <= Repr && fresh(Repr - old(Repr) - child.Repr)
      ensures tree == old(tree).(children := old(tree).children + [child.tree]) && children == old(children) + [child]
    {
      hide Good, ChildGood, Apart, Own, Listed, Ready;
      ListIsOwn();
      var e := new TailQueue.Element<ConfNode>(child);
      head.InsertTail(e);
      ListGrows(child, e);
      AdoptLast(child, e);
    }

    lemma ListIsOwn()
      requires Good()
      ensures this in Repr && head in Repr && head.Valid()
      ensures tree == Node(name, val, isSeq, allowOverride, tree.children) && |tree.children| == |children| == |head.elements|
      ensures forall e :: e in head.elements ==> e in Repr
    {
      assert forall e :: e in head.elements ==> e in Own();
    }

    /** All is as it should be but for the last element of the list, which holds a new child. */
    ghost predicate Ready(child: ConfNode, e: TailQueue.Element<ConfNode>)
      reads this, head, head.elements, Repr, child, child.Repr
    {
      && this in Repr && head in Repr && head.Valid() && |head.elements| == |children| + 1
      && (forall k :: 0 <= k < |children| ==> head.elements[k].item == children[k] && head.elements[k] in Repr)
      && e == head.elements[|children|] && e.item == child && e !in Repr
      && tree == Node(name, val, isSeq, allowOverride, tree.children) && |tree.children| == |children|
      && (forall k :: 0 <= k < |children| ==> children[k] in Repr && ChildGood(k))
      && Apart() && child.Good() && child.Repr !! Repr + {e}
    }

    /** The list has one more element, and nothing else has changed. */
    twostate lemma ListGrows(child: ConfNode, new e: TailQueue.Element<ConfNode>)
      requires old(Good()) && old(child.Good()) && old(child.Repr) !! old(Repr)
      requires fresh(e) && e.item == child && head.Valid() && head.elements == old(head.elements) + [e]
      requires forall n: object :: n in old(Repr) && n != head && n !in old(head.elements) ==> unchanged(n)
      requires forall n: object :: n in old(child.Repr) ==> unchanged(n)
      ensures Ready(child, e)
    {
      assert this in old(Own()) && head in old(Own());
      assert forall k :: 0 <= k < |children| ==> old(head.elements[k]) in old(Own());
      assert this != head as object;
      ChildrenStay();
    }

    /** The children are not touched by changes to the node's own objects. */
    twostate lemma ChildrenStay()
      requires old(Good()) && unchanged(this)
      requires forall n: object :: n in old(Repr) && n !in old(Own()) ==> unchanged(n)
      requires forall e :: e in head.elements ==> e in old(Own()) || fresh(e)
      ensures forall k :: 0 <= k < |children| ==> children[k] in Repr && ChildGood(k)
      ensures Apart()
    {
      forall k | 0 <= k < |children| ensures children[k] in Repr && ChildGood(k) {
        assert old(ChildGood(k));
      }
      forall i, j | 0 <= i < j < |children| ensures children[i].Repr !! children[j].Repr {
        assert old(ChildGood(i)) && old(ChildGood(j));
      }
    }

    /** The last element of the list holds a new child. */
    ghost method AdoptLast(child: ConfNode, e: TailQueue.Element<ConfNode>)
      requires Ready(child, e)
      modifies this
      ensures Good() && Repr == old(Repr) + child.Repr + {e} && children == old(children) + [child]
      ensures tree == old(tree).(children := old(tree).children + [child.tree])
    {
      children := children + [child];
      Repr := Repr + child.Repr + {e};
      tree := tree.(children := tree.children + [child.tree]);
      forall k | 0 <= k < |children| ensures ChildGood(k) {
        if k < |children| - 1 {
          assert old(ChildGood(k));
        }
      }
      forall i, j | 0 <= i < j < |children| ensures children[i].Repr !! children[j].Repr {
        assert old(ChildGood(i));
      }
    }

    /** Marks a node without children as a mapping in a sequence. */
    method MarkSequence()
      requires Good() && children == []
      modifies this
      ensures Good() && Repr == old(Repr) && tree == old(tree).(isSeq := true)
    {
      isSeq := true;
      tree := tree.(isSeq := true);
    }

    /** Takes a value, unless there is one that may not be overridden. */
    method Assign(newVal: string)
      requires Good()
      modifies this
      ensures Good() && Repr == old(Repr) && children == old(children)
      ensures tree == if old(allowOverride) then old(tree).(val := Some(newVal)) else old(tree)
    {
      if allowOverride {
        Write(newVal, allowOverride, isSeq);
      }
    }

    /** Writes the fields beside the list. */
    method Write(newVal: string, newOverride: bool, newSeq: bool)
      requires Good()
      modifies this
      ensures Good() && Repr == old(Repr) && children == old(children)
      ensures tree == old(tree).(val := Some(newVal), allowOverride := newOverride, isSeq := newSeq)
    {
      val, allowOverride, isSeq := Some(newVal), newOverride, newSeq;
      tree := tree.(val := Some(newVal), allowOverride := newOverride, isSeq := newSeq);
      forall k | 0 <= k < |children| ensures ChildGood(k) {
        assert old(ChildGood(k));
      }
    }

    /** After a child has changed in place, its parent stands for the changed tree. */
    ghost method Adopt(k: nat)
      requires k < |children| && this in Repr && head in Repr && Own() <= Repr && Listed()
      requires children[k] in Repr && children[k].Repr !! Own() && children[k].Good()
      requires tree == Node(name, val, isSeq, allowOverride, tree.children) && |tree.children| == |children|
      requires forall j :: 0 <= j < |children| && j != k ==> ChildGood(j)
      requires forall j :: 0 <= j < |children| ==> children[j] in Repr
      requires Apart()
      modifies this
      ensures Good() && Repr == old(Repr) + children[k].Repr && children == old(children)
      ensures tree == old(tree).(children := old(tree).children[k := children[k].tree])
    {
      Repr := Repr + children[k].Repr;
      tree := tree.(children := tree.children[k := children[k].tree]);
      forall j | 0 <= j < |children| ensures ChildGood(j) {
        if j != k {
          assert old(ChildGood(j));
        }
      }
    }

    ghost predicate Sibling(j: nat, k: nat)
      requires j < |children| && k < |children|
      reads this, children
    {
      children[j].Repr !! children[k].Repr
    }

    lemma Siblings(k: nat)
      requires k < |children| && Apart()
      ensures forall j :: 0 <= j < |children| && j != k ==> Sibling(j, k)
    {
      forall j | 0 <= j < |children| && j != k ensures Sibling(j, k) {
        if j < k {
          assert children[j].Repr !! children[k].Repr;
        } else {
          assert children[k].Repr !! children[j].Repr;
        }
      }
    }

    /** A change inside one child leaves the others, and the list, as they were. */
    twostate lemma SiblingsStay(k: nat)
      requires k < |children| && children == old(children) && tree == old(tree)
      requires old(Good()) && old(ChildGood(k)) && forall j :: 0 <= j < |children| && j != k ==> old(Sibling(j, k))
      requires fresh(children[k].Repr - old(children[k].Repr))
      requires forall n: object :: n in old(Repr) && n !in old(children[k].Repr) ==> unchanged(n)
      ensures this in Repr && head in Repr && Own() <= Repr && Listed() && children[k].Repr !! Own()
      ensures forall j :: 0 <= j < |children| && j != k ==> ChildGood(j) && Sibling(j, k) && children[j].Repr == old(children[j].Repr)
      ensures Apart()
    {
      assert forall e :: e in head.elements ==> e in old(Own());
      forall j | 0 <= j < |children| && j != k
        ensures ChildGood(j) && Sibling(j, k) && children[j].Repr == old(children[j].Repr)
      {
        assert old(ChildGood(j)) && old(Sibling(j, k));
        assert children[j] in old(children[j].Repr);
      }
      forall i, j | 0 <= i < j < |children| ensures children[i].Repr !! children[j].Repr {
        if i == k {
          assert Sibling(j, k);
        } else if j == k {
          assert Sibling(i, k);
        }
      }
    }

    /** Sets the value at the end of the parts of a name below this node; missing nodes are created. */
    method SetPath(rest: string, newVal: string, newOverride: bool)
      requires Good()
      modifies Repr
      ensures Good() && fresh(Repr - old(Repr)) && tree == SetNode(old(tree), Tokens(rest), newVal, newOverride)
      decreases |rest|, 1
    {
      hide Good, ChildGood, Apart, Listed, Own;
      ListIsOwn();
      var (token, more) := NextToken(rest);
      if token == None {
        Write(newVal, newOverride, isSeq);
        return;
      }
      assert Tokens(rest)[1..] == Tokens(more);
      var found, at := LookupChild(token.value);
      if found == null {
        AddChild(token.value, more, newVal, newOverride);
      } else {
        SetChild(found, at, more, newVal, newOverride);
      }
    }

    /** The part of the walk in a new child. */
    method AddChild(token: string, more: string, newVal: string, newOverride: bool)
      requires Good()
      modifies Repr
      ensures Good() && fresh(Repr - old(Repr))
      ensures tree == old(tree).(children := old(tree.children) + [SetNode(NewNode(token), Tokens(more), newVal, newOverride)])
      decreases |more|, 2
    {
      hide Good, ChildGood, Apart, Listed, SetNode, Tokens;
      ListIsOwn();
      var child := new ConfNode(token);
      child.SetPath(more, newVal, newOverride);
      InsertTail(child);
    }

    /** The part of the walk below one child. */
    method SetChild(e: TailQueue.Element<ConfNode>, ghost at: nat, more: string, newVal: string, newOverride: bool)
      requires Good() && at < |children| && e.item == children[at]
      modifies Repr
      ensures Good() && fresh(Repr - old(Repr))
      ensures at < |old(tree.children)|
      ensures tree == old(tree).(children := old(tree.children)[at := SetNode(old(tree.children)[at], Tokens(more), newVal, newOverride)])
      decreases |more|, 2
    {
      assert ChildGood(at);
      Siblings(at);
      e.item.SetPath(more, newVal, newOverride);
      SiblingsStay(at);
      Adopt(at);
    }

    /** The parts still to be walked: the token at hand and those of the rest. */
    static function Ahead(token: Option<string>, rest: string): Path {
      if token == None then [] else [token.value] + Tokens(rest)
    }

    /** ConfGetNode on the root: down one part of the name after another. */
    method Find(name: string) returns (r: ConfNode?)
      requires Good()
      ensures r == null <==> GetNode(tree, Tokens(name)) == None
      ensures r != null ==> r in Repr && r.Good() && Some(r.tree) == GetNode(tree, Tokens(name))
    {
      var node := this;
      var (token, rest) := NextToken(name);
      while token.Some?
        invariant node in Repr && node.Repr <= Repr && node.Good()
        invariant GetNode(tree, Tokens(name)) == GetNode(node.tree, Ahead(token, rest))
        decreases if token.Some? then |rest| + 1 else 0
      {
        var found, at := node.LookupChild(token.value);
        assert Ahead(token, rest)[1..] == Tokens(rest);
        if found == null {
          return null;
        }
        assert node.ChildGood(at);
        node := found.item;
        var next := NextToken(rest);
        token, rest := next.0, next.1;
      }
      return node;
    }

    /** ConfSet on the root. */
    method Set(name: string, newVal: string, newOverride: bool) returns (ok: bool)
      requires Good() && Tokens(name) != []
      modifies Repr
      ensures Good() && fresh(Repr - old(Repr))
      ensures Called(tree, ok) == ConfSet(old(tree), Tokens(name), newVal, newOverride)
    {
      var node := Find(name);
      if node != null && !node.allowOverride {
        return false;
      }
      SetPath(name, newVal, newOverride);
      return true;
    }

    /** ConfGet on the root. */
    method Get(name: string) returns (r: Option<Option<string>>)
      requires Good() && Tokens(name) != []
      ensures r == ConfGet(tree, Tokens(name))
    {
      var node := Find(name);
      if node == null {
        return None;
      }
      return Some(node.val);
    }

    /** Takes one child out of the list. */
    method RemoveChild(e: TailQueue.Element<ConfNode>, ghost at: nat)
      requires Good() && at < |children| && e == head.elements[at]
      modifies this, head, head.elements
      ensures Good() && Repr == old(Repr)
      ensures tree == old(tree).(children := old(tree).children[..at] + old(tree).children[at + 1..])
    {
      hide Good, ChildGood, Apart, Own, Listed, Missing;
      ListIsOwn();
      head.Remove(e, at);
      ListShrinks(at);
      Forget(at);
    }

    /** One element of the list is gone, and nothing else has changed. */
    twostate lemma ListShrinks(at: nat)
      requires old(Good()) && at < |children| && at < |old(head.elements)| && head.Valid()
      requires head.elements == old(head.elements)[..at] + old(head.elements)[at + 1..]
      requires unchanged(this) && forall n: object :: n in old(Repr) && n != head && n !in old(head.elements) ==> unchanged(n)
      ensures Missing(at)
    {
      hide ChildGood, Apart;
      assert this in old(Own()) && head in old(Own());
      forall k | 0 <= k < |head.elements|
        ensures head.elements[k].item == children[if k < at then k else k + 1] && head.elements[k] in old(Own())
      {
        var j := if k < at then k else k + 1;
        assert head.elements[k] == old(head.elements)[j] && old(head.elements[j].item) == children[j];
      }
      assert this != head as object;
      ChildrenStay();
    }

    /** All is as it should be but for one child, which is not in the list any more. */
    ghost predicate Missing(at: nat)
      reads this, head, head.elements, Repr
    {
      && this in Repr && head in Repr && head.Valid() && at < |children| && |head.elements| == |children| - 1
      && (forall k :: 0 <= k < |head.elements| ==>
            head.elements[k].item == children[if k < at then k else k + 1] && head.elements[k] in Repr)
      && tree == Node(name, val, isSeq, allowOverride, tree.children) && |tree.children| == |children|
      && (forall k :: 0 <= k < |children| ==> children[k] in Repr && ChildGood(k))
      && Apart()
    }

    ghost method Forget(at: nat)
      requires Missing(at)
      modifies this
      ensures Good() && Repr == old(Repr)
      ensures tree == old(tree).(children := old(tree).children[..at] + old(tree).children[at + 1..])
    {
      children := children[..at] + children[at + 1..];
      tree := tree.(children := tree.children[..at] + tree.children[at + 1..]);
      forall j | 0 <= j < |children| ensures ChildGood(j) {
        assert old(ChildGood(if j < at then j else j + 1));
      }
      forall i, j | 0 <= i < j < |children| ensures children[i].Repr !! children[j].Repr {
        assert old(children[if i < at then i else i + 1].Repr !! children[if j < at then j else j + 1].Repr);
      }
    }

    /** Takes the node at the end of the parts of a name out of its parent's list. */
    method DropPath(rest: string)
      requires Good() && Tokens(rest) != []
      modifies Repr
      ensures Good() && fresh(Repr - old(Repr)) && tree == DropNode(old(tree), Tokens(rest))
      decreases |rest|, 1
    {
      var (token, more) := NextToken(rest);
      assert Tokens(rest)[1..] == Tokens(more);
      var found, at := LookupChild(token.value);
      if found != null {
        if NextToken(more).0 == None {
          RemoveChild(found, at);
        } else {
          DropBelow(found, at, more);
        }
      }
    }

    method DropBelow(e: TailQueue.Element<ConfNode>, ghost at: nat, more: string)
      requires Good() && Tokens(more) != [] && at < |children| && e.item == children[at]
      modifies Repr
      ensures Good() && fresh(Repr - old(Repr))
      ensures at < |old(tree.children)|
      ensures tree == old(tree).(children := old(tree.children)[at := DropNode(old(tree.children)[at], Tokens(more))])
      decreases |more|, 2
    {
      assert ChildGood(at);
      Siblings(at);
      e.item.DropPath(more);
      SiblingsStay(at);
      Adopt(at);
    }

    /** ConfRemove on the root. */
    method Remove(name: string) returns (ok: bool)
      requires Good() && Tokens(name) != []
      modifies Repr
      ensures Good() && fresh(Repr - old(Repr))
      ensures Called(tree, ok) == ConfRemove(old(tree), Tokens(name))
    {
      var node := Find(name);
      if node == null {
        return false;
      }
      DropPath(name);
      return true;
    }
  }
}
