/** The cache as the code keeps it: one recency list that still holds purged entries, a
    generation number that a purge bumps, and a counter of the current generation. Every
    call keeps live entries in front of purged ones, each key once, and the counter exact. */
module LruGeneration {
  import opened Options
  import opened LruReference

  datatype Entry<K, V> = Entry(key: K, value: V, expireAt: int, generation: int)

  datatype GenCache<K, V> = GenCache(size: int, list: seq<Entry<K, V>>, generation: int, len: int)

  function IndexOf<K(==), V>(s: seq<Entry<K, V>>, k: K): (i: int)
    ensures -1 <= i < |s|
    ensures i >= 0 ==> s[i].key == k
    ensures i < 0 ==> forall j :: 0 <= j < |s| ==> s[j].key != k
  {
    if s == [] then -1
    else if s[0].key == k then 0
    else
      var i := IndexOf(s[1..], k);
      assert forall j :: 1 <= j < |s| ==> s[j] == s[1..][j - 1];
      if i < 0 then -1 else i + 1
  }

  function Drop<T>(s: seq<T>, i: int): seq<T>
    requires 0 <= i < |s|
  {
    s[..i] + s[i + 1..]
  }

  /** removeElement: unlink, and count down only an entry of the current generation. */
  function RemoveAt<K, V>(c: GenCache<K, V>, i: int): GenCache<K, V>
    requires 0 <= i < |c.list|
  {
    c.(list := Drop(c.list, i), len := if c.list[i].generation == c.generation then c.len - 1 else c.len)
  }

  /** The keys of the given generation, from the back of the list to the front. */
  function KeysOf<K, V>(s: seq<Entry<K, V>>, generation: int): seq<K> {
    if s == [] then []
    else
      var e := s[|s| - 1];
      (if e.generation == generation then [e.key] else []) + KeysOf(s[..|s| - 1], generation)
  }

  /** The element at `i` becomes `e`, of the current generation, at the front of the list. */
  function Refresh<K, V>(c: GenCache<K, V>, i: int, e: Entry<K, V>): GenCache<K, V>
    requires 0 <= i < |c.list|
  {
    c.(list := [e] + Drop(c.list, i), len := if c.list[i].generation != c.generation then c.len + 1 else c.len)
  }

  function Push<K, V>(c: GenCache<K, V>, e: Entry<K, V>): GenCache<K, V> {
    c.(list := [e] + c.list, len := c.len + 1)
  }

  function Insert<K(==), V>(c: GenCache<K, V>, e: Entry<K, V>): (GenCache<K, V>, Answer<K, V>) {
    var at := IndexOf(c.list, e.key);
    if at >= 0 then
      (Refresh(c, at, e), Added(None))
    else
      var c1 := Push(c, e);
      if |c1.list| > c.size then
        var back := c1.list[|c1.list| - 1];
        (RemoveAt(c1, |c1.list| - 1), Added(if back.generation == c.generation then Some(back.key) else None))
      else
        (c1, Added(None))
  }

  function Lookup<K(==), V>(c: GenCache<K, V>, k: K, now: int): (GenCache<K, V>, Answer<K, V>) {
    var at := IndexOf(c.list, k);
    if at < 0 then
      (c, Found(None))
    else if c.list[at].generation != c.generation || Expired(c.list[at].expireAt, now) then
      (RemoveAt(c, at), Found(None))
    else
      (Refresh(c, at, c.list[at]), Found(Some(c.list[at].value)))
  }

  function GenStep<K(==), V>(c: GenCache<K, V>, op: Op<K, V>): (GenCache<K, V>, Answer<K, V>) {
    match op
    case Add(k, v, ttl, now) => Insert(c, Entry(k, v, Deadline(ttl, now), c.generation))
    case Get(k, now) => Lookup(c, k, now)
    case Remove(k) =>
      var at := IndexOf(c.list, k);
      (if at >= 0 then RemoveAt(c, at) else c, Done)
    case RemoveFunc(k, pred) =>
      var at := IndexOf(c.list, k);
      if at >= 0 && pred(c.list[at].value) then (RemoveAt(c, at), Matched(true)) else (c, Matched(false))
    case Purge => (c.(generation := c.generation + 1, len := 0), Done)
    case Keys => (c, AllKeys(KeysOf(c.list, c.generation)))
    case Len => (c, Count(c.len))
  }

  function GenAfter<K(==), V>(c: GenCache<K, V>, ops: seq<Op<K, V>>): GenCache<K, V>
    decreases |ops|
  {
    if ops == [] then c else GenAfter(GenStep(c, ops[0]).0, ops[1..])
  }

  function Empty<K, V>(size: int): GenCache<K, V> {
    GenCache(size, [], 0, 0)
  }

  // ---- What every reachable state keeps ----------------------------------------------

  /** Position `i` is in front of `j`: a different key, of no older a generation. */
  ghost predicate Apart<K, V>(s: seq<Entry<K, V>>, i: nat, j: nat)
    requires i < |s| && j < |s|
  {
    s[i].key != s[j].key && s[i].generation >= s[j].generation
  }

  ghost predicate Layered<K, V>(s: seq<Entry<K, V>>) {
    forall i, j {:trigger Apart(s, i, j)} :: 0 <= i < j < |s| ==> Apart(s, i, j)
  }

  /** The current generation is exactly the first `len` entries, and no key is held twice. */
  ghost predicate Shaped<K, V>(c: GenCache<K, V>) {
    && Layered(c.list)
    && 0 <= c.len <= |c.list|
    && (forall i :: 0 <= i < |c.list| ==> c.list[i].generation <= c.generation)
    && (forall i :: 0 <= i < |c.list| ==> (c.list[i].generation == c.generation <==> i < c.len))
  }

  ghost predicate Sound<K, V>(c: GenCache<K, V>) {
    Shaped(c) && |c.list| <= (if c.size > 0 then c.size else 0)
  }

  lemma LayeredDrop<K, V>(s: seq<Entry<K, V>>, at: nat)
    requires at < |s| && Layered(s)
    ensures Layered(Drop(s, at))
    ensures forall i :: 0 <= i < |s| - 1 ==> Drop(s, at)[i] == s[if i < at then i else i + 1]
    ensures forall i :: 0 <= i < |s| - 1 ==> Drop(s, at)[i].key != s[at].key
  {
    var t := Drop(s, at);
    forall i, j | 0 <= i < j < |t| ensures Apart(t, i, j) {
      assert Apart(s, if i < at then i else i + 1, if j < at then j else j + 1);
    }
    forall i | 0 <= i < |t| ensures t[i].key != s[at].key {
      assert if i < at then Apart(s, i, at) else Apart(s, at, i + 1);
    }
  }

  lemma LayeredPush<K, V>(e: Entry<K, V>, s: seq<Entry<K, V>>)
    requires Layered(s)
    requires forall i :: 0 <= i < |s| ==> s[i].key != e.key && s[i].generation <= e.generation
    ensures Layered([e] + s)
  {
    var t := [e] + s;
    forall i, j | 0 <= i < j < |t| ensures Apart(t, i, j) {
      assert i > 0 ==> Apart(s, i - 1, j - 1);
    }
  }

  lemma RemoveAtShaped<K, V>(c: GenCache<K, V>, at: nat)
    requires Shaped(c) && at < |c.list|
    ensures Shaped(RemoveAt(c, at))
  {
    LayeredDrop(c.list, at);
  }

  lemma RefreshShaped<K, V>(c: GenCache<K, V>, at: nat, e: Entry<K, V>)
    requires Shaped(c) && at < |c.list| && e.key == c.list[at].key && e.generation == c.generation
    ensures Shaped(Refresh(c, at, e))
  {
    LayeredDrop(c.list, at);
    LayeredPush(e, Drop(c.list, at));
  }

  lemma PushShaped<K, V>(c: GenCache<K, V>, e: Entry<K, V>)
    requires Shaped(c) && e.generation == c.generation
    requires forall i :: 0 <= i < |c.list| ==> c.list[i].key != e.key
    ensures Shaped(Push(c, e))
  {
    LayeredPush(e, c.list);
  }

  lemma InsertSound<K, V>(c: GenCache<K, V>, e: Entry<K, V>)
    requires Sound(c) && e.generation == c.generation
    ensures Sound(Insert(c, e).0)
  {
    var at := IndexOf(c.list, e.key);
    if at >= 0 {
      RefreshShaped(c, at, e);
    } else {
      PushShaped(c, e);
      RemoveAtShaped(Push(c, e), |c.list|);
    }
  }

  lemma LookupSound<K, V>(c: GenCache<K, V>, k: K, now: int)
    requires Sound(c)
    ensures Sound(Lookup(c, k, now).0)
  {
    var at := IndexOf(c.list, k);
    if at >= 0 {
      if c.list[at].generation != c.generation || Expired(c.list[at].expireAt, now) {
        RemoveAtShaped(c, at);
      } else {
        RefreshShaped(c, at, c.list[at]);
      }
    }
  }

  lemma StepSound<K, V>(c: GenCache<K, V>, op: Op<K, V>)
    requires Sound(c)
    ensures Sound(GenStep(c, op).0)
  {
    match op {
      case Add(k, v, ttl, now) => InsertSound(c, Entry(k, v, Deadline(ttl, now), c.generation));
      case Get(k, now) => LookupSound(c, k, now);
      case Remove(k) =>
        if IndexOf(c.list, k) >= 0 { RemoveAtShaped(c, IndexOf(c.list, k)); }
      case RemoveFunc(k, pred) =>
        if IndexOf(c.list, k) >= 0 { RemoveAtShaped(c, IndexOf(c.list, k)); }
      case _ =>
    }
  }

  lemma {:induction false} RunSound<K, V>(c: GenCache<K, V>, ops: seq<Op<K, V>>)
    requires Sound(c)
    ensures Sound(GenAfter(c, ops))
    decreases |ops|
  {
    if ops != [] {
      StepSound(c, ops[0]);
      RunSound(GenStep(c, ops[0]).0, ops[1..]);
    }
  }
}
