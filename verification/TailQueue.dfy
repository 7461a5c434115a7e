/**
  The tail queue of queue.h, on which the children of a configuration node hang. As there, an
  element's `prev` and the head's `last` are not elements but addresses of links: of the head's
  `first`, or of some element's `next`.
 */
module TailQueue {

  datatype Link<T> = ToFirst | ToNext(element: Element<T>)

  class Element<T> {
    const item: T
    var next: Element?<T>
    var prev: Link<T>

    constructor (item: T)
      ensures this.item == item && next == null
    {
      this.item := item;
      next, prev := null, ToFirst;
    }
  }

  class TailQueue<T> {
    var first: Element?<T>
    var last: Link<T>
    ghost var elements: seq<Element<T>>

    /** TAILQ_INIT. */
    constructor ()
      ensures Valid() && elements == []
    {
      first, last, elements := null, ToFirst, [];
    }

    ghost predicate Distinct(s: seq<Element<T>>) {
      forall i, j :: 0 <= i < j < |s| ==> s[i] != s[j]
    }

    /** The element at a place, none behind the last. */
    ghost function Place(k: nat): Element?<T>
      reads this
    {
      if k < |elements| then elements[k] else null
    }

    /** The address of the link to a place. */
    ghost function LinkTo(k: nat): Link<T>
      requires k <= |elements|
      reads this
    {
      if k == 0 then ToFirst else ToNext(elements[k - 1])
    }

    ghost predicate Linked(k: nat)
      requires k < |elements|
      reads this, elements
    {
      elements[k].next == Place(k + 1) && elements[k].prev == LinkTo(k)
    }

    ghost predicate Valid()
      reads this, elements
    {
      && Distinct(elements) && first == Place(0) && last == LinkTo(|elements|)
      && forall k :: 0 <= k < |elements| ==> Linked(k)
    }

    /** Writes through the address of a link. */
    method Store(link: Link<T>, e: Element?<T>)
      modifies this`first, if link.ToNext? then {link.element} else {}
      ensures match link
        case ToFirst => first == e
        case ToNext(element) => element.next == e && element.prev == old(element.prev) && first == old(first)
    {
      match link {
        case ToFirst => first := e;
        case ToNext(element) => element.next := e;
      }
    }

    /** TAILQ_INSERT_TAIL. */
    method InsertTail(e: Element<T>)
      requires Valid() && e !in elements
      modifies this, elements, e
      ensures Valid() && elements == old(elements) + [e]
    {
      e.next := null;
      e.prev := last;
      Store(last, e);
      last := ToNext(e);
      elements := elements + [e];
      forall k | 0 <= k < |elements| ensures Linked(k) {
        if k < |elements| - 1 {
          assert old(Linked(k));
        }
      }
    }

    /** TAILQ_REMOVE. */
    method Remove(e: Element<T>, ghost at: nat)
      requires Valid() && at < |elements| && elements[at] == e
      modifies this, elements
      ensures Valid() && elements == old(elements)[..at] + old(elements)[at + 1..]
    {
      ghost var before := elements;
      assert Linked(at);
      assert forall k :: 0 <= k < |before| && k != at ==> before[k] != e;
      if e.next != null {
        assert e.next == elements[at + 1] && Linked(at + 1);
        e.next.prev := e.prev;
      } else {
        last := e.prev;
      }
      Store(e.prev, e.next);
      elements := elements[..at] + elements[at + 1..];
      forall k | 0 <= k < |elements| ensures Linked(k) {
        if k < at {
          assert elements[k] == before[k] && old(Linked(k));
        } else {
          assert elements[k] == before[k + 1] && old(Linked(k + 1));
        }
      }
    }

    /** TAILQ_FOREACH goes over the elements in their order. */
    method ToSeq() returns (s: seq<Element<T>>)
      requires Valid()
      ensures s == elements
    {
      s := [];
      var e := first;
      while e != null
        invariant |s| <= |elements| && s == elements[..|s|] && e == Place(|s|)
        decreases |elements| - |s|
      {
        assert Linked(|s|);
        s := s + [e];
        e := e.next;
      }
    }
  }
}
