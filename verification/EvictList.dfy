/** The recency list of the cache: a doubly linked list of elements, most recently used first.
    It stands for the standard-library list the cache is built on; an element carries the
    cached entry in place, so the key index and the list share one mutable object. */
module EvictList {

  class Element<K, V> {
    const key: K
    var value: V
    var expireAt: int
    var generation: int
    var prev: Element?<K, V>
    var next: Element?<K, V>

    constructor (key: K, value: V, expireAt: int, generation: int)
      ensures this.key == key && this.value == value
      ensures this.expireAt == expireAt && this.generation == generation
    {
      this.key := key;
      this.value := value;
      this.expireAt := expireAt;
      this.generation := generation;
      prev := null;
      next := null;
    }
  }

  class List<K, V> {
    var head: Element?<K, V>
    var tail: Element?<K, V>
    var length: nat
    ghost var elems: seq<Element<K, V>>

    ghost predicate Valid()
      reads this, elems
    {
      && length == |elems|
      && head == (if elems == [] then null else elems[0])
      && tail == (if elems == [] then null else elems[|elems| - 1])
      && Linked(elems)
      && Distinct(elems)
    }

    static ghost predicate Distinct(s: seq<Element<K, V>>)
    {
      forall i, j {:trigger Differ(s, i, j)} :: 0 <= i < j < |s| ==> Differ(s, i, j)
    }

    static ghost predicate Differ(s: seq<Element<K, V>>, i: nat, j: nat)
      requires i < |s| && j < |s|
    {
      s[i] != s[j]
    }

    static lemma OnlyAt(s: seq<Element<K, V>>, at: nat)
      requires at < |s| && Distinct(s)
      ensures forall o :: 0 <= o < |s| && o != at ==> s[o] != s[at]
    {
      forall o | 0 <= o < |s| && o != at ensures s[o] != s[at] {
        assert if o < at then Differ(s, o, at) else Differ(s, at, o);
      }
    }

    static ghost predicate Linked(s: seq<Element<K, V>>)
      reads s
    {
      && (forall i {:trigger s[i].next} :: 0 <= i < |s| ==> s[i].next == Following(s, i))
      && (forall i {:trigger s[i].prev} :: 0 <= i < |s| ==> s[i].prev == Preceding(s, i))
    }

    static ghost function Following(s: seq<Element<K, V>>, i: int): Element?<K, V>
      requires 0 <= i < |s|
    {
      if i + 1 < |s| then s[i + 1] else null
    }

    static ghost function Preceding(s: seq<Element<K, V>>, i: int): Element?<K, V>
      requires 0 <= i < |s|
    {
      if i > 0 then s[i - 1] else null
    }

    constructor ()
      ensures Valid() && elems == []
    {
      head := null;
      tail := null;
      length := 0;
      elems := [];
    }

    static lemma Prepended(e: Element<K, V>, was: seq<Element<K, V>>)
      requires Distinct(was) && e !in was
      requires e.prev == null && e.next == (if was == [] then null else was[0])
      requires forall o {:trigger was[o].next} :: 0 <= o < |was| ==> was[o].next == Following(was, o)
      requires forall o {:trigger was[o].prev} :: 0 <= o < |was| ==>
        was[o].prev == (if o == 0 then e else was[o - 1])
      ensures Linked([e] + was) && Distinct([e] + was)
    {
      var now := [e] + was;
      forall i | 0 <= i < |now|
        ensures now[i].next == Following(now, i) && now[i].prev == Preceding(now, i)
      {
        assert i > 0 ==> now[i] == was[i - 1];
      }
      forall i, j | 0 <= i < j < |now| ensures Differ(now, i, j) {
        assert i > 0 ==> Differ(was, i - 1, j - 1);
      }
    }

    method PushFront(e: Element<K, V>)
      requires Valid() && e !in elems
      modifies this, e`prev, e`next, elems`prev
      ensures Valid() && elems == [e] + old(elems)
    {
      if head != null { OnlyAt(elems, 0); }
      e.prev := null;
      e.next := head;
      if head == null {
        tail := e;
      } else {
        head.prev := e;
      }
      head := e;
      length := length + 1;
      Prepended(e, elems);
      elems := [e] + elems;
    }

    static lemma DistinctDrop(s: seq<Element<K, V>>, at: nat)
      requires at < |s| && Distinct(s)
      ensures Distinct(s[..at] + s[at + 1..]) && s[at] !in s[..at] + s[at + 1..]
    {
      var now := s[..at] + s[at + 1..];
      OnlyAt(s, at);
      forall i, j | 0 <= i < j < |now| ensures Differ(now, i, j) {
        assert Differ(s, if i < at then i else i + 1, if j < at then j else j + 1);
      }
    }

    /** Once both neighbours of position `at` bypass it, the rest is a well-linked list. */
    static lemma Bypassed(was: seq<Element<K, V>>, at: nat)
      requires at < |was|
      requires forall o {:trigger was[o].next} :: 0 <= o < |was| && o != at ==>
        was[o].next == (if o + 1 == at then Following(was, at) else Following(was, o))
      requires forall o {:trigger was[o].prev} :: 0 <= o < |was| && o != at ==>
        was[o].prev == (if o == at + 1 then Preceding(was, at) else Preceding(was, o))
      ensures Linked(was[..at] + was[at + 1..])
    {
      var now := was[..at] + was[at + 1..];
      forall i | 0 <= i < |now|
        ensures now[i].next == Following(now, i) && now[i].prev == Preceding(now, i)
      {
        var o := if i < at then i else i + 1;
        assert now[i] == was[o];
      }
    }

    /** Unlinks the element at position `at`, which only the caller's proof knows. */
    method Remove(e: Element<K, V>, ghost at: nat)
      requires Valid() && at < |elems| && elems[at] == e
      modifies this, elems`prev, elems`next
      ensures Valid() && elems == old(elems)[..at] + old(elems)[at + 1..] && e !in elems
    {
      var p, n := e.prev, e.next;
      assert p == Preceding(elems, at) && n == Following(elems, at);
      if p != null { OnlyAt(elems, at - 1); }
      if n != null { OnlyAt(elems, at + 1); }
      if p == null {
        head := n;
      } else {
        p.next := n;
      }
      if n == null {
        tail := p;
      } else {
        n.prev := p;
      }
      length := length - 1;
      Bypassed(elems, at);
      DistinctDrop(elems, at);
      elems := elems[..at] + elems[at + 1..];
    }

    method MoveToFront(e: Element<K, V>, ghost at: nat)
      requires Valid() && at < |elems| && elems[at] == e
      modifies this, elems`prev, elems`next
      ensures Valid() && elems == [e] + old(elems)[..at] + old(elems)[at + 1..]
    {
      ghost var was := elems;
      Remove(e, at);
      forall x | x in elems ensures x in was {}
      PushFront(e);
      assert elems == [e] + was[..at] + was[at + 1..];
    }

    method Back() returns (e: Element?<K, V>)
      requires Valid()
      ensures elems == [] ==> e == null
      ensures elems != [] ==> e == elems[|elems| - 1]
    {
      e := tail;
    }
  }
}
