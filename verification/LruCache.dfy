/** The cache object itself: the linked recency list, the key index that shares its elements,
    the generation and the live counter, updated in place. Each method moves the object
    exactly as `LruGeneration.GenStep` moves its value. */
module LruCache {
  import opened Options
  import opened LruReference
  import opened LruGeneration
  import opened EvictList

  class Cache<K(==, 0), V> {
    const size: int
    const defaultExpiry: int
    const evictList: List<K, V>
    var items: map<K, Element<K, V>>
    var currentGeneration: int
    var len: int
    ghost var view: GenCache<K, V>
    ghost var repr: set<object>

    /** List, index and counters describe the same entries. */
    ghost predicate Indexed()
      reads this, repr
    {
      && this in repr && evictList in repr
      && (forall i :: 0 <= i < |evictList.elems| ==> evictList.elems[i] in repr)
      && evictList.Valid()
      && view.size == size && view.generation == currentGeneration && view.len == len
      && |view.list| == |evictList.elems|
      && AllMirrored(evictList.elems, view.list, items)
      && (forall k {:trigger Known(view.list, k)} :: k in items ==> Known(view.list, k))
    }

    /** Position `i` of the list holds entry `i` of the value, and the index points at it. */
    static ghost predicate Mirrored(elems: seq<Element<K, V>>, list: seq<Entry<K, V>>, items: map<K, Element<K, V>>,
          i: nat)
      requires i < |elems| && i < |list|
      reads elems`value, elems`expireAt, elems`generation
    {
      && list[i] == EntryOf(elems[i])
      && elems[i].key in items && items[elems[i].key] == elems[i]
    }

    static ghost predicate AllMirrored(elems: seq<Element<K, V>>, list: seq<Entry<K, V>>, items: map<K, Element<K, V>>)
      requires |elems| == |list|
      reads elems`value, elems`expireAt, elems`generation
    {
      forall i {:trigger Mirrored(elems, list, items, i)} :: 0 <= i < |elems| ==> Mirrored(elems, list, items, i)
    }

    static ghost predicate Known(list: seq<Entry<K, V>>, k: K) {
      IndexOf(list, k) >= 0
    }

    ghost predicate Consistent()
      reads this, repr
    {
      Indexed() && Shaped(view)
    }

    ghost predicate Valid()
      reads this, repr
    {
      Consistent() && Sound(view)
    }

    static ghost function EntryOf(e: Element<K, V>): Entry<K, V>
      reads e`value, e`expireAt, e`generation
    {
      Entry(e.key, e.value, e.expireAt, e.generation)
    }

    constructor (size: int, defaultExpiry: int)
      ensures Valid() && fresh(repr) && this.size == size && this.defaultExpiry == defaultExpiry
      ensures view == Empty(size)
    {
      this.size := size;
      this.defaultExpiry := defaultExpiry;
      evictList := new List();
      items := map[];
      currentGeneration := 0;
      len := 0;
      view := Empty(size);
      repr := {this, evictList};
    }

    lemma IndexedAt(k: K) returns (at: nat)
      requires Consistent() && k in items
      ensures at < |evictList.elems| && evictList.elems[at] == items[k] && IndexOf(view.list, k) == at
      ensures view.list[at] == EntryOf(items[k])
    {
      assert Known(view.list, k);
      at := IndexOf(view.list, k);
      assert Mirrored(evictList.elems, view.list, items, at);
    }

    lemma NotIndexed(k: K)
      requires Consistent() && k !in items
      ensures IndexOf(view.list, k) < 0
    {
      var at := IndexOf(view.list, k);
      assert at >= 0 ==> Mirrored(evictList.elems, view.list, items, at);
    }

    /** Unlinking position `at` everywhere keeps list, value and index in step. */
    static lemma MirroredDrop(elems: seq<Element<K, V>>, list: seq<Entry<K, V>>, items: map<K, Element<K, V>>, at: nat)
      requires at < |elems| == |list| && Layered(list) && AllMirrored(elems, list, items)
      requires forall k {:trigger Known(list, k)} :: k in items ==> Known(list, k)
      ensures AllMirrored(Drop(elems, at), Drop(list, at), items - {elems[at].key})
      ensures forall k {:trigger Known(Drop(list, at), k)} ::
                k in items && k != elems[at].key ==> Known(Drop(list, at), k)
    {
      LayeredDrop(list, at);
      assert Mirrored(elems, list, items, at);
      forall i | 0 <= i < |elems| - 1
        ensures Mirrored(Drop(elems, at), Drop(list, at), items - {elems[at].key}, i)
      {
        assert Mirrored(elems, list, items, if i < at then i else i + 1);
        assert Drop(list, at)[i].key != list[at].key;
      }
      forall k | k in items && k != elems[at].key ensures Known(Drop(list, at), k) {
        assert Known(list, k);
        var i := IndexOf(list, k);
        assert Drop(list, at)[if i < at then i else i - 1].key == k;
      }
    }

    /** Takes an element out of the list and out of the index. */
    method Unlink(e: Element<K, V>, ghost at: nat)
      requires Indexed() && Layered(view.list) && at < |evictList.elems| && evictList.elems[at] == e
      modifies this`view, this`items, evictList, evictList.elems`prev, evictList.elems`next
      ensures Indexed() && view == old(view).(list := Drop(old(view).list, at))
      ensures evictList.elems == Drop(old(evictList.elems), at)
    {
      MirroredDrop(evictList.elems, view.list, items, at);
      evictList.Remove(e, at);
      items := items - {e.key};
      view := view.(list := Drop(view.list, at));
    }

    method RemoveElement(e: Element<K, V>, ghost at: nat)
      requires Consistent() && at < |evictList.elems| && evictList.elems[at] == e
      modifies this`view, this`items, this`len, evictList, evictList.elems`prev, evictList.elems`next
      ensures Consistent() && view == RemoveAt(old(view), at)
      ensures evictList.elems == Drop(old(evictList.elems), at)
    {
      RemoveAtShaped(view, at);
      assert Mirrored(evictList.elems, view.list, items, at);
      Unlink(e, at);
      if e.generation == currentGeneration {
        len := len - 1;
        view := view.(len := len);
      }
    }

    method Purge()
      requires Valid()
      modifies this
      ensures Valid() && repr == old(repr) && view == GenStep<K, V>(old(view), Op.Purge).0
    {
      StepSound<K, V>(view, Op.Purge);
      len := 0;
      currentGeneration := currentGeneration + 1;
      view := GenStep<K, V>(view, Op.Purge).0;
    }

    method AddWithExpiresInSecs(key: K, value: V, expireAtSecs: int, now: int)
      requires Valid()
      modifies repr
      ensures Valid() && view == GenStep(old(view), Add(key, value, expireAtSecs, now)).0
      ensures fresh(repr - old(repr))
    {
      StepSound(view, Add(key, value, expireAtSecs, now));
      var expireAt := Deadline(expireAtSecs, now);
      if key in items {
        Overwrite(key, value, expireAt);
      } else {
        NotIndexed(key);
        Append(key, value, expireAt);
        if evictList.length > size {
          var back := evictList.Back();
          RemoveElement(back, evictList.length - 1);
        }
      }
    }

    static lemma MirroredFront(elems: seq<Element<K, V>>, list: seq<Entry<K, V>>, items: map<K, Element<K, V>>, at: nat)
      requires at < |elems| == |list| && AllMirrored(elems, list, items)
      requires forall k {:trigger Known(list, k)} :: k in items ==> Known(list, k)
      ensures AllMirrored([elems[at]] + elems[..at] + elems[at + 1..], [list[at]] + Drop(list, at), items)
      ensures forall k {:trigger Known([list[at]] + Drop(list, at), k)} ::
                k in items ==> Known([list[at]] + Drop(list, at), k)
    {
      var es, ls := [elems[at]] + elems[..at] + elems[at + 1..], [list[at]] + Drop(list, at);
      forall i | 0 <= i < |elems| ensures Mirrored(es, ls, items, i) {
        assert Mirrored(elems, list, items, if i == 0 then at else if i <= at then i - 1 else i);
      }
      forall k | k in items ensures Known(ls, k) {
        assert Known(list, k);
        var i := IndexOf(list, k);
        assert ls[if i < at then i + 1 else if i == at then 0 else i].key == k;
      }
    }

    /** Moves an element to the front of the list; the entry itself is not changed. */
    method Promote(e: Element<K, V>, ghost at: nat)
      requires Indexed() && at < |evictList.elems| && evictList.elems[at] == e
      modifies this`view, evictList, evictList.elems`prev, evictList.elems`next
      ensures Indexed() && view == old(view).(list := [old(view).list[at]] + Drop(old(view).list, at))
      ensures evictList.elems == [e] + old(evictList.elems)[..at] + old(evictList.elems)[at + 1..]
    {
      MirroredFront(evictList.elems, view.list, items, at);
      evictList.MoveToFront(e, at);
      view := view.(list := [view.list[at]] + Drop(view.list, at));
    }

    /** Rewrites, in place, the entry at the front of the list. */
    method Refill(e: Element<K, V>, value: V, expireAt: int, generation: int)
      requires Indexed() && evictList.elems != [] && evictList.elems[0] == e
      modifies this`view, e`value, e`expireAt, e`generation
      ensures Indexed()
      ensures view == old(view).(list := [Entry(e.key, value, expireAt, generation)] + old(view).list[1..])
    {
      List<K, V>.OnlyAt(evictList.elems, 0);
      e.value := value;
      e.expireAt := expireAt;
      e.generation := generation;
      ghost var was := view.list;
      view := view.(list := [Entry(e.key, value, expireAt, generation)] + was[1..]);
      forall i | 0 <= i < |was|
        ensures Mirrored(evictList.elems, view.list, items, i) && view.list[i].key == was[i].key
      {
        assert old(Mirrored(evictList.elems, was, items, i));
      }
      forall k | k in items ensures Known(view.list, k) {
        assert Known(was, k);
        assert view.list[IndexOf(was, k)].key == k;
      }
    }

    method Overwrite(key: K, value: V, expireAt: int)
      requires Consistent() && key in items
      modifies this`view, this`len, evictList, evictList.elems
      ensures Consistent() && repr == old(repr)
      ensures IndexOf(old(view).list, key) >= 0
      ensures view ==
              Refresh(old(view), IndexOf(old(view).list, key), Entry(key, value, expireAt, old(view).generation))
    {
      ghost var at := IndexedAt(key);
      RefreshShaped(view, at, Entry(key, value, expireAt, view.generation));
      var e := items[key];
      Promote(e, at);
      if e.generation != currentGeneration {
        len := len + 1;
        view := view.(len := len);
      }
      Refill(e, value, expireAt, currentGeneration);
      assert view.list == [Entry(key, value, expireAt, view.generation)] + Drop(old(view).list, at);
    }

    static lemma MirroredPush(e: Element<K, V>, elems: seq<Element<K, V>>, list: seq<Entry<K, V>>, items: map<K,
          Element<K, V>>)
      requires |elems| == |list| && AllMirrored(elems, list, items) && e.key !in items
      requires forall k {:trigger Known(list, k)} :: k in items ==> Known(list, k)
      ensures AllMirrored([e] + elems, [EntryOf(e)] + list, items[e.key := e])
      ensures forall k {:trigger Known([EntryOf(e)] + list, k)} ::
                k in items[e.key := e] ==> Known([EntryOf(e)] + list, k)
    {
      var es, ls, it := [e] + elems, [EntryOf(e)] + list, items[e.key := e];
      forall i | 0 <= i < |es| ensures Mirrored(es, ls, it, i) {
        assert i > 0 ==> Mirrored(elems, list, items, i - 1);
      }
      forall k | k in it ensures Known(ls, k) {
        assert k != e.key ==> Known(list, k);
        assert ls[if k == e.key then 0 else IndexOf(list, k) + 1].key == k;
      }
    }

    /** Puts a new element at the front of the list and into the index. */
    method Link(e: Element<K, V>)
      requires Indexed() && e.key !in items && e !in evictList.elems
      modifies this`view, this`items, this`repr, evictList, e`prev, e`next, evictList.elems`prev
      ensures Indexed() && view == old(view).(list := [EntryOf(e)] + old(view).list) && repr == old(repr) + {e}
    {
      MirroredPush(e, evictList.elems, view.list, items);
      ghost var was := evictList.elems;
      evictList.PushFront(e);
      repr := repr + {e};
      forall i | 0 <= i < |evictList.elems| ensures evictList.elems[i] in repr {
        assert i > 0 ==> evictList.elems[i] == was[i - 1];
      }
      items := items[e.key := e];
      view := view.(list := [EntryOf(e)] + view.list);
    }

    method Append(key: K, value: V, expireAt: int)
      requires Consistent() && key !in items
      modifies this`view, this`items, this`len, this`repr, evictList, evictList.elems`prev
      ensures Consistent() && view == Push(old(view), Entry(key, value, expireAt, old(view).generation))
      ensures fresh(repr - old(repr))
    {
      NotIndexed(key);
      PushShaped(view, Entry(key, value, expireAt, view.generation));
      var e := new Element(key, value, expireAt, currentGeneration);
      Link(e);
      len := len + 1;
      view := view.(len := len);
    }

    method Get(key: K, now: int) returns (value: Option<V>)
      requires Valid()
      modifies repr
      ensures Valid() && view == GenStep(old(view), Op.Get(key, now)).0
      ensures Found(value) == GenStep(old(view), Op.Get(key, now)).1
      ensures fresh(repr - old(repr))
    {
      StepSound(view, Op.Get(key, now));
      if key in items {
        ghost var at := IndexedAt(key);
        var e := items[key];
        if e.generation != currentGeneration || Expired(e.expireAt, now) {
          RemoveElement(e, at);
          return None;
        }
        Promote(e, at);
        return Some(e.value);
      }
      NotIndexed(key);
      return None;
    }

    method Remove(key: K)
      requires Valid()
      modifies repr
      ensures Valid() && view == GenStep<K, V>(old(view), Op.Remove(key)).0
      ensures fresh(repr - old(repr))
    {
      StepSound<K, V>(view, Op.Remove(key));
      if key in items {
        ghost var at := IndexedAt(key);
        RemoveElement(items[key], at);
      } else {
        NotIndexed(key);
      }
    }

    method RemoveFunc(key: K, pred: V -> bool) returns (hit: bool)
      requires Valid()
      modifies repr
      ensures Valid() && view == GenStep(old(view), Op.RemoveFunc(key, pred)).0
      ensures Matched(hit) == GenStep(old(view), Op.RemoveFunc(key, pred)).1
      ensures fresh(repr - old(repr))
    {
      StepSound(view, Op.RemoveFunc(key, pred));
      if key !in items {
        NotIndexed(key);
        return false;
      }
      ghost var at := IndexedAt(key);
      var e := items[key];
      if !pred(e.value) {
        return false;
      }
      RemoveElement(e, at);
      return true;
    }

    /** The live entries among the first `p` of the list, counted. */
    lemma {:induction false} KeysCounted(p: nat)
      requires Consistent() && p <= |view.list|
      ensures |KeysOf(view.list[..p], view.generation)| == if p < view.len then p else view.len
    {
      if p > 0 {
        assert view.list[..p][..p - 1] == view.list[..p - 1];
        KeysCounted(p - 1);
      }
    }

    /** What a scan of the list from the back relies on. */
    static ghost predicate Scannable(elems: seq<Element<K, V>>, list: seq<Entry<K, V>>)
      reads elems`prev, elems`generation
    {
      && |elems| == |list|
      && forall i {:trigger elems[i].prev} :: 0 <= i < |elems| ==>
           && elems[i].prev == List<K, V>.Preceding(elems, i)
           && elems[i].key == list[i].key && elems[i].generation == list[i].generation
    }

    /** What is left to do before and after position `p - 1`. */
    static lemma KeysSplit(list: seq<Entry<K, V>>, p: nat, generation: int, all: seq<K>, i: nat)
      requires 0 < p <= |list| && i <= |all| && KeysOf(list[..p], generation) == all[i..]
      ensures if list[p - 1].generation == generation
              then i < |all| && all[i] == list[p - 1].key && KeysOf(list[..p - 1], generation) == all[i + 1..]
              else KeysOf(list[..p - 1], generation) == all[i..]
    {
      assert list[..p][..p - 1] == list[..p - 1];
      assert all[i..] != [] ==> all[i..][1..] == all[i + 1..];
    }

    static method WriteKey(keys: array<K>, i: nat, key: K, ghost all: seq<K>)
      requires i < keys.Length == |all| && keys[..i] == all[..i] && all[i] == key
      modifies keys
      ensures keys[..i + 1] == all[..i + 1]
    {
      keys[i] := key;
    }

    static method FillKeys(back: Element?<K, V>, generation: int, keys: array<K>, ghost elems: seq<Element<K, V>>,
          ghost list: seq<Entry<K, V>>)
      requires Scannable(elems, list) && back == (if elems == [] then null else elems[|elems| - 1])
      requires |KeysOf(list, generation)| == keys.Length
      modifies keys
      ensures keys[..] == KeysOf(list, generation)
    {
      ghost var all := KeysOf(list, generation);
      assert list[..|list|] == list;
      var i, ent := 0, back;
      ghost var p := |list|;
      while ent != null
        invariant 0 <= p <= |list| && 0 <= i <= |all|
        invariant ent == if p == 0 then null else elems[p - 1]
        invariant keys[..i] == all[..i]
        invariant KeysOf(list[..p], generation) == all[i..]
        decreases p
      {
        KeysSplit(list, p, generation, all, i);
        assert elems[p - 1].prev == List<K, V>.Preceding(elems, p - 1);
        if ent.generation == generation {
          WriteKey(keys, i, ent.key, all);
          i := i + 1;
        }
        ent := ent.prev;
        p := p - 1;
      }
      assert list[..p] == [] && i == |all| && keys[..] == keys[..i];
    }

    lemma IsScannable()
      requires Indexed()
      ensures Scannable(evictList.elems, view.list)
    {
      forall i | 0 <= i < |view.list|
        ensures evictList.elems[i].key == view.list[i].key && evictList.elems[i].generation == view.list[i].generation
      {
        assert Mirrored(evictList.elems, view.list, items, i);
      }
    }

    method Keys() returns (keys: array<K>)
      requires Valid()
      ensures AllKeys(keys[..]) == GenStep<K, V>(view, Op.Keys).1
    {
      KeysCounted(|view.list|);
      assert view.list[..|view.list|] == view.list;
      IsScannable();
      keys := new K[len];
      var back := evictList.Back();
      FillKeys(back, currentGeneration, keys, evictList.elems, view.list);
    }

    method Len() returns (n: int)
      requires Valid()
      ensures Count(n) == GenStep<K, V>(view, Op.Len).1
    {
      n := len;
    }
  }
}
