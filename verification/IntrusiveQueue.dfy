/** A doubly linked queue whose links live in the elements. */
module IntrusiveQueue {
  class Element {
    var prev: Element?
    var next: Element?

    constructor ()
    {
      prev, next := null, null;
    }
  }

  class Queue {
    var head: Element?
    var tail: Element?
    // The elements from head to tail.
    ghost var elems: seq<Element>

    ghost predicate Linked(i: nat)
      requires i < |elems|
      reads this, elems
    {
      && elems[i].prev == (if i == 0 then null else elems[i - 1])
      && elems[i].next == (if i == |elems| - 1 then null else elems[i + 1])
    }

    // Both chains, and both ends, spell the same sequence.
    ghost predicate Valid()
      reads this, elems
    {
      && (forall i, j :: 0 <= i < j < |elems| ==> elems[i] != elems[j])
      && head == (if elems == [] then null else elems[0])
      && tail == (if elems == [] then null else elems[|elems| - 1])
      && forall i: nat :: i < |elems| ==> Linked(i)
    }

    constructor ()
      ensures Valid() && elems == []
    {
      head, tail, elems := null, null, [];
    }

    method Add(e: Element)
      requires Valid() && e !in elems
      modifies this, e, elems
      ensures Valid() && elems == old(elems) + [e]
    {
      if head == null {
        head := e;
        e.prev := null;
      }
      e.prev := tail;
      e.next := null;
      if tail != null {
        tail.next := e;
      }
      tail := e;
      elems := elems + [e];
      forall i: nat | i < |elems| ensures Linked(i) {
        if i < |old(elems)| { assert old(Linked(i)); }
      }
    }

    /** Takes e out, wherever it stands, and keeps the order of the rest. */
    method PopIntermediate(e: Element, ghost k: nat)
      requires Valid() && k < |elems| && elems[k] == e
      modifies this, elems
      ensures Valid() && elems == old(elems)[..k] + old(elems)[k + 1..]
      ensures e.prev == old(e.prev) && e.next == old(e.next)
    {
      assert Linked(k);
      if e.prev != null {
        e.prev.next := e.next;
      } else {
        if e.next != null {
          e.next.prev := null;
        }
        head := e.next;
      }
      if e.next != null {
        e.next.prev := e.prev;
      } else {
        if e.prev != null {
          e.prev.next := null;
        }
        tail := e.prev;
      }
      elems := elems[..k] + elems[k + 1..];
      forall i: nat | i < |elems| ensures Linked(i) {
        assert old(Linked(if i < k then i else i + 1));
      }
    }

    method PopHead() returns (e: Element?)
      requires Valid()
      modifies this, elems
      ensures Valid()
      ensures old(elems) == [] ==> e == null && elems == []
      ensures old(elems) != [] ==> e == old(elems)[0] && elems == old(elems)[1..]
    {
      e := head;
      if e == null {
        return;
      }
      PopIntermediate(e, 0);
    }

    method PopTail() returns (e: Element?)
      requires Valid()
      modifies this, elems
      ensures Valid()
      ensures old(elems) == [] ==> e == null && elems == []
      ensures old(elems) != [] ==> e == old(elems)[|old(elems)| - 1] && elems == old(elems)[..|old(elems)| - 1]
    {
      e := tail;
      if e == null {
        return;
      }
      PopIntermediate(e, |elems| - 1);
    }

    // Walking the next pointers for n steps from the head.
    ghost function Forward(n: nat): (e: Element?)
      requires Valid() && n <= |elems|
      reads this, elems
      ensures e == if n < |elems| then elems[n] else null
    {
      if n == 0 then head
      else
        assert Linked(n - 1);
        Forward(n - 1).next
    }

    // Walking the prev pointers for n steps from the tail.
    ghost function Backward(n: nat): (e: Element?)
      requires Valid() && n <= |elems|
      reads this, elems
      ensures e == if n < |elems| then elems[|elems| - 1 - n] else null
    {
      if n == 0 then tail
      else
        assert Linked(|elems| - n);
        Backward(n - 1).prev
    }
  }
}
