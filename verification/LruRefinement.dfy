/** Every run of calls on the generation cache is matched, answer by answer, by the
    reference cache that really empties itself on a purge. */
module LruRefinement {
  import opened Options
  import opened LruReference
  import opened LruGeneration

  ghost predicate Stored<K, V>(e: Entry<K, V>, l: Lru<K, V>) {
    && e.key in l.cells
    && l.cells[e.key] == Cell(e.value, e.expireAt, l.cells[e.key].touched)
    && l.cells[e.key].touched < l.clock
  }

  ghost predicate Newer<K, V>(s: seq<Entry<K, V>>, l: Lru<K, V>, i: nat, j: nat)
    requires i < |s| && j < |s|
  {
    s[i].key in l.cells && s[j].key in l.cells && l.cells[s[i].key].touched > l.cells[s[j].key].touched
  }

  lemma ForgetAbsent<K, V>(l: Lru<K, V>, k: K)
    requires k !in l.cells
    ensures Forget(l, k) == l
  {
    assert l.cells - {k} == l.cells;
  }

  ghost predicate Holds<K, V>(s: seq<Entry<K, V>>, n: int, k: K) {
    exists i :: 0 <= i < n <= |s| && s[i].key == k
  }

  /** The live prefix of the list is the reference cache, ordered by last touch. */
  ghost predicate Tracks<K, V>(c: GenCache<K, V>, l: Lru<K, V>) {
    && Shaped(c) && l.size == c.size && |l.cells| == c.len
    && AllStored(c, l)
    && (forall k {:trigger Holds(c.list, c.len, k)} :: k in l.cells ==> Holds(c.list, c.len, k))
    && ByAge(c, l)
  }

  ghost predicate AllStored<K, V>(c: GenCache<K, V>, l: Lru<K, V>)
    requires c.len <= |c.list|
  {
    forall i {:trigger Stored(c.list[i], l)} :: 0 <= i < c.len ==> Stored(c.list[i], l)
  }

  ghost predicate ByAge<K, V>(c: GenCache<K, V>, l: Lru<K, V>)
    requires c.len <= |c.list|
  {
    forall i, j {:trigger Newer(c.list, l, i, j)} :: 0 <= i < j < c.len ==> Newer(c.list, l, i, j)
  }

  lemma UniqueIndex<K, V>(s: seq<Entry<K, V>>, i: nat)
    requires Layered(s) && i < |s|
    ensures IndexOf(s, s[i].key) == i
  {
    var at := IndexOf(s, s[i].key);
    assert at < i ==> Apart(s, at, i);
    assert i < at ==> Apart(s, i, at);
  }

  /** A key is live in the list exactly when the reference cache has it. */
  lemma LiveIffStored<K, V>(c: GenCache<K, V>, l: Lru<K, V>, k: K)
    requires Tracks(c, l)
    ensures k in l.cells <==> 0 <= IndexOf(c.list, k) < c.len
    ensures k in l.cells ==> Stored(c.list[IndexOf(c.list, k)], l)
  {
    if k in l.cells {
      assert Holds(c.list, c.len, k);
      var i :| 0 <= i < c.len && c.list[i].key == k;
      UniqueIndex(c.list, i);
    }
    var at := IndexOf(c.list, k);
    assert 0 <= at < c.len ==> Stored(c.list[at], l);
  }

  lemma RemoveAtByAge<K, V>(c: GenCache<K, V>, l: Lru<K, V>, at: nat)
    requires Tracks(c, l) && at < |c.list| && Shaped(RemoveAt(c, at))
    ensures AllStored(RemoveAt(c, at), Forget(l, c.list[at].key)) && ByAge(RemoveAt(c, at), Forget(l, c.list[at].key))
  {
    var c', l' := RemoveAt(c, at), Forget(l, c.list[at].key);
    LayeredDrop(c.list, at);
    forall i | 0 <= i < c'.len ensures Stored(c'.list[i], l') {
      assert Stored(c.list[if i < at then i else i + 1], l);
    }
    forall i, j | 0 <= i < j < c'.len ensures Newer(c'.list, l', i, j) {
      assert Newer(c.list, l, if i < at then i else i + 1, if j < at then j else j + 1);
    }
  }

  lemma RemoveAtTracks<K, V>(c: GenCache<K, V>, l: Lru<K, V>, at: nat)
    requires Tracks(c, l) && at < |c.list|
    ensures Tracks(RemoveAt(c, at), Forget(l, c.list[at].key))
  {
    var k := c.list[at].key;
    var c', l' := RemoveAt(c, at), Forget(l, k);
    RemoveAtShaped(c, at);
    RemoveAtByAge(c, l, at);
    UniqueIndex(c.list, at);
    LiveIffStored(c, l, k);
    assert l'.cells.Keys == l.cells.Keys - {k};
    forall x | x in l'.cells ensures Holds(c'.list, c'.len, x) {
      assert Holds(c.list, c.len, x);
      var i :| 0 <= i < c.len && c.list[i].key == x;
      assert c'.list[if i < at then i else i - 1].key == x;
    }
  }

  lemma RefreshByAge<K, V>(c: GenCache<K, V>, l: Lru<K, V>, at: nat, e: Entry<K, V>)
    requires Tracks(c, l) && at < |c.list| && e.key == c.list[at].key && e.generation == c.generation
    requires Shaped(Refresh(c, at, e))
    ensures AllStored(Refresh(c, at, e), Touch(l, e.key, e.value, e.expireAt))
    ensures ByAge(Refresh(c, at, e), Touch(l, e.key, e.value, e.expireAt))
  {
    var c', l' := Refresh(c, at, e), Touch(l, e.key, e.value, e.expireAt);
    LayeredDrop(c.list, at);
    forall i | 1 <= i < c'.len
      ensures c'.list[i] == c.list[if i <= at then i - 1 else i] && c'.list[i].key != e.key
    {
      assert c'.list[i] == Drop(c.list, at)[i - 1];
    }
    forall i | 0 <= i < c'.len ensures Stored(c'.list[i], l') {
      assert i > 0 ==> Stored(c.list[if i <= at then i - 1 else i], l);
    }
    forall i, j | 0 <= i < j < c'.len ensures Newer(c'.list, l', i, j) {
      assert Stored(c.list[if j <= at then j - 1 else j], l);
      assert i > 0 ==> Newer(c.list, l, if i <= at then i - 1 else i, if j <= at then j - 1 else j);
    }
  }

  lemma RefreshTracks<K, V>(c: GenCache<K, V>, l: Lru<K, V>, at: nat, e: Entry<K, V>)
    requires Tracks(c, l) && at < |c.list| && e.key == c.list[at].key && e.generation == c.generation
    ensures Tracks(Refresh(c, at, e), Touch(l, e.key, e.value, e.expireAt))
  {
    var c', l' := Refresh(c, at, e), Touch(l, e.key, e.value, e.expireAt);
    RefreshShaped(c, at, e);
    RefreshByAge(c, l, at, e);
    UniqueIndex(c.list, at);
    LiveIffStored(c, l, e.key);
    forall x | x in l'.cells ensures Holds(c'.list, c'.len, x) {
      if x == e.key {
        assert c'.list[0].key == x;
      } else {
        assert Holds(c.list, c.len, x);
        var i :| 0 <= i < c.len && c.list[i].key == x;
        assert c'.list[if i < at then i + 1 else i].key == x;
      }
    }
  }

  lemma PushByAge<K, V>(c: GenCache<K, V>, l: Lru<K, V>, e: Entry<K, V>)
    requires Tracks(c, l) && e.key !in l.cells && Shaped(Push(c, e))
    ensures AllStored(Push(c, e), Touch(l, e.key, e.value, e.expireAt))
    ensures ByAge(Push(c, e), Touch(l, e.key, e.value, e.expireAt))
  {
    var c', l' := Push(c, e), Touch(l, e.key, e.value, e.expireAt);
    forall i | 0 <= i < c'.len ensures Stored(c'.list[i], l') {
      assert i > 0 ==> Stored(c.list[i - 1], l);
    }
    forall i, j | 0 <= i < j < c'.len ensures Newer(c'.list, l', i, j) {
      assert Stored(c.list[j - 1], l);
      assert i > 0 ==> Newer(c.list, l, i - 1, j - 1);
    }
  }

  lemma PushTracks<K, V>(c: GenCache<K, V>, l: Lru<K, V>, e: Entry<K, V>)
    requires Tracks(c, l) && e.generation == c.generation && IndexOf(c.list, e.key) < 0
    ensures Tracks(Push(c, e), Touch(l, e.key, e.value, e.expireAt))
  {
    var c', l' := Push(c, e), Touch(l, e.key, e.value, e.expireAt);
    PushShaped(c, e);
    LiveIffStored(c, l, e.key);
    PushByAge(c, l, e);
    forall x | x in l'.cells ensures Holds(c'.list, c'.len, x) {
      if x == e.key {
        assert c'.list[0].key == x;
      } else {
        assert Holds(c.list, c.len, x);
        var i :| 0 <= i < c.len && c.list[i].key == x;
        assert c'.list[i + 1].key == x;
      }
    }
  }

  /** The last live entry of the list is the one the reference cache would evict. */
  lemma BackIsOldest<K, V>(c: GenCache<K, V>, l: Lru<K, V>)
    requires Tracks(c, l) && c.len > 0
    ensures l.cells != map[] && Oldest(l.cells) == c.list[c.len - 1].key
  {
    assert Stored(c.list[c.len - 1], l);
    var o := Oldest(l.cells);
    assert Holds(c.list, c.len, o);
    var i :| 0 <= i < c.len && c.list[i].key == o;
    assert i < c.len - 1 ==> Newer(c.list, l, i, c.len - 1);
  }

  lemma PurgedIsForgotten<K, V>(c: GenCache<K, V>, l: Lru<K, V>, at: nat)
    requires Tracks(c, l) && c.len <= at < |c.list|
    ensures Forget(l, c.list[at].key) == l
  {
    LiveIffStored(c, l, c.list[at].key);
    UniqueIndex(c.list, at);
    ForgetAbsent(l, c.list[at].key);
  }

  /** Unlinking the back of the list evicts what the reference cache evicts: its oldest cell
      when everything in the list is live, and nothing otherwise. */
  lemma EvictBack<K, V>(c: GenCache<K, V>, l: Lru<K, V>)
    requires Tracks(c, l) && c.list != []
    ensures var back := c.list[|c.list| - 1];
            && Tracks(RemoveAt(c, |c.list| - 1), Forget(l, back.key))
            && (c.len == |c.list| ==> l.cells != map[] && Oldest(l.cells) == back.key)
            && (c.len < |c.list| ==> Forget(l, back.key) == l)
  {
    RemoveAtTracks(c, l, |c.list| - 1);
    if c.len == |c.list| { BackIsOldest(c, l); } else { PurgedIsForgotten(c, l, |c.list| - 1); }
  }

  lemma InsertTracks<K, V>(c: GenCache<K, V>, l: Lru<K, V>, e: Entry<K, V>)
    requires Sound(c) && Tracks(c, l) && e.generation == c.generation
    ensures Tracks(Insert(c, e).0, Put(l, e.key, e.value, e.expireAt).0)
    ensures Insert(c, e).1 == Put(l, e.key, e.value, e.expireAt).1
  {
    LiveIffStored(c, l, e.key);
    var at := IndexOf(c.list, e.key);
    if at >= 0 {
      RefreshTracks(c, l, at, e);
    } else {
      PushTracks(c, l, e);
      EvictBack(Push(c, e), Touch(l, e.key, e.value, e.expireAt));
    }
  }

  lemma LookupTracks<K, V>(c: GenCache<K, V>, l: Lru<K, V>, k: K, now: int)
    requires Tracks(c, l)
    ensures Tracks(Lookup(c, k, now).0, Read(l, k, now).0)
    ensures Lookup(c, k, now).1 == Read(l, k, now).1
  {
    LiveIffStored(c, l, k);
    var at := IndexOf(c.list, k);
    if at < 0 {
      ForgetAbsent(l, k);
    } else {
      RemoveAtTracks(c, l, at);
      if at < c.len { RefreshTracks(c, l, at, c.list[at]); }
    }
  }

  /** Both sequences of keys start alike: with the back of the list, if it is live. */
  lemma OldestKey<K, V>(c: GenCache<K, V>, l: Lru<K, V>)
    requires Tracks(c, l) && c.list != []
    ensures var n := |c.list| - 1;
            var (first, rest) := (if c.len == |c.list| then [c.list[n].key] else [], Forget(l, c.list[n].key).cells);
            && KeysOf(c.list, c.generation) == first + KeysOf(c.list[..n], c.generation)
            && KeysByAge(l.cells) == first + KeysByAge(rest)
  {
    EvictBack(c, l);
  }

  lemma {:induction false} KeysAgree<K, V>(c: GenCache<K, V>, l: Lru<K, V>)
    requires Tracks(c, l)
    ensures KeysOf(c.list, c.generation) == KeysByAge(l.cells)
    decreases |c.list|
  {
    if c.list != [] {
      var n := |c.list| - 1;
      OldestKey(c, l);
      RemoveAtTracks(c, l, n);
      assert RemoveAt(c, n).list == c.list[..n];
      KeysAgree(RemoveAt(c, n), Forget(l, c.list[n].key));
    }
  }

  lemma RemoveTracks<K, V>(c: GenCache<K, V>, l: Lru<K, V>, k: K)
    requires Tracks(c, l)
    ensures Tracks(GenStep(c, Remove(k)).0, Forget(l, k))
  {
    LiveIffStored(c, l, k);
    var at := IndexOf(c.list, k);
    if at >= 0 {
      RemoveAtTracks(c, l, at);
    } else {
      ForgetAbsent(l, k);
    }
  }

  lemma PurgeTracks<K, V>(c: GenCache<K, V>, l: Lru<K, V>)
    requires Tracks(c, l)
    ensures Tracks(GenStep(c, Purge).0, Step(l, Purge).0)
  {
  }

  /** RemoveFunc keeps the live contents equal; its answer differs on a purged entry. */
  lemma RemoveFuncTracks<K, V>(c: GenCache<K, V>, l: Lru<K, V>, op: Op<K, V>)
    requires Tracks(c, l) && op.RemoveFunc?
    ensures Tracks(GenStep(c, op).0, Step(l, op).0)
    ensures GenStep(c, op).1 == Step(l, op).1 <==> !FindsPurged(c, op)
  {
    LiveIffStored(c, l, op.key);
    var at := IndexOf(c.list, op.key);
    if at >= 0 {
      RemoveAtTracks(c, l, at);
      if at >= c.len { PurgedIsForgotten(c, l, at); }
    }
  }

  /** A `RemoveFunc` that finds an entry purged earlier but not yet unlinked, and likes it. */
  predicate FindsPurged<K(==), V>(c: GenCache<K, V>, op: Op<K, V>) {
    op.RemoveFunc? &&
    var at := IndexOf(c.list, op.key);
    at >= 0 && c.list[at].generation != c.generation && op.pred(c.list[at].value)
  }

  /** One call: the live contents stay equal, and so does the answer, with one exception. */
  lemma StepTracks<K, V>(c: GenCache<K, V>, l: Lru<K, V>, op: Op<K, V>)
    requires Sound(c) && Tracks(c, l)
    ensures Tracks(GenStep(c, op).0, Step(l, op).0)
    ensures GenStep(c, op).1 == Step(l, op).1 <==> !FindsPurged(c, op)
  {
    match op {
      case Add(k, v, ttl, now) => InsertTracks(c, l, Entry(k, v, Deadline(ttl, now), c.generation));
      case Get(k, now) => LookupTracks(c, l, k, now);
      case Remove(k) => RemoveTracks(c, l, k);
      case RemoveFunc(k, pred) => RemoveFuncTracks(c, l, op);
      case Keys => KeysAgree(c, l);
      case Purge => PurgeTracks(c, l);
      case Len =>
    }
  }

  // ---- Whole runs --------------------------------------------------------------------

  lemma {:induction false} RunTracks<K, V>(c: GenCache<K, V>, l: Lru<K, V>, ops: seq<Op<K, V>>)
    requires Sound(c) && Tracks(c, l)
    ensures Sound(GenAfter(c, ops)) && Tracks(GenAfter(c, ops), After(l, ops))
    decreases |ops|
  {
    if ops != [] {
      StepTracks(c, l, ops[0]);
      StepSound(c, ops[0]);
      RunTracks(GenStep(c, ops[0]).0, Step(l, ops[0]).0, ops[1..]);
    }
  }

  ghost function Fresh<K, V>(size: int): Lru<K, V> {
    Lru(size, map[], 0)
  }

  /** From an empty cache, whatever was called before, each call gives the answer of the
      cache that really empties itself on a purge, and evicts the same entry; the one
      exception is a `RemoveFunc` that finds a purged entry, which answers true for false. */
  lemma AnswersLikeReference<K, V>(size: int, ops: seq<Op<K, V>>, op: Op<K, V>)
    ensures var c, l := GenAfter(Empty<K, V>(size), ops), After(Fresh<K, V>(size), ops);
            && (GenStep(c, op).1 == Step(l, op).1 <==> !FindsPurged(c, op))
            && (FindsPurged(c, op) ==> GenStep(c, op).1 == Matched(true) && Step(l, op).1 == Matched(false))
  {
    var c, l := GenAfter(Empty<K, V>(size), ops), After(Fresh<K, V>(size), ops);
    RunTracks(Empty(size), Fresh(size), ops);
    StepTracks(c, l, op);
    if FindsPurged(c, op) { LiveIffStored(c, l, op.key); }
  }

  /** The exception is reachable: add, purge, then remove by predicate. */
  lemma FindsPurgedHappens()
    ensures FindsPurged(GenAfter(Empty<int, int>(1), [Add(7, 8, 0, 0), Purge]), RemoveFunc(7, x => x == 8))
  {
    var c0 := Empty<int, int>(1);
    var c1 := GenStep(c0, Add(7, 8, 0, 0)).0;
    assert c1.list == [Entry(7, 8, 0, 0)];
    var ops: seq<Op<int, int>> := [Add(7, 8, 0, 0), Purge];
    assert ops[1..] == [Purge];
    assert GenAfter(c0, ops) == GenAfter(c1, [Purge]);
  }

  /** In every reachable state the live entries are a prefix of the list, generations never
      increase towards the back, no key is held twice, and `len` counts the live ones. */
  lemma ReachableSound<K, V>(size: int, ops: seq<Op<K, V>>)
    ensures Sound(GenAfter(Empty<K, V>(size), ops))
  {
    RunSound(Empty<K, V>(size), ops);
  }

  /** No live entry is evicted while a purged one is still in the list, and the live entry
      that is evicted is the one touched longest ago of all that are live. */
  lemma EvictsPurgedFirst<K, V>(size: int, ops: seq<Op<K, V>>, k: K, v: V, ttl: int, now: int)
    ensures var c, l := GenAfter(Empty<K, V>(size), ops), After(Fresh<K, V>(size), ops);
            var a := GenStep(c, Add(k, v, ttl, now)).1;
            a.Added? && a.evicted.Some? ==>
              && (forall i :: 0 <= i < |c.list| ==> c.list[i].generation == c.generation)
              && (a.evicted.value == k || IsOldest(l.cells, a.evicted.value))
  {
    var c, l := GenAfter(Empty<K, V>(size), ops), After(Fresh<K, V>(size), ops);
    RunTracks(Empty(size), Fresh(size), ops);
    InsertTracks(c, l, Entry(k, v, Deadline(ttl, now), c.generation));
    LiveIffStored(c, l, k);
    var a := GenStep(c, Add(k, v, ttl, now)).1;
    if a.evicted.Some? && a.evicted.value != k {
      var cells := Touch(l, k, v, Deadline(ttl, now)).cells;
      assert IsOldest(cells, a.evicted.value);
      forall x | x in l.cells ensures l.cells[a.evicted.value].touched <= l.cells[x].touched {
        assert x in cells;
      }
    }
  }

  /** Value and deadline of the key a call adds or hits. */
  ghost function Touched<K, V>(l: Lru<K, V>, touch: Op<K, V>): (V, int)
    requires touch.Add? || (touch.Get? && Hit(l, touch.key, touch.now))
  {
    if touch.Add? then (touch.value, Deadline(touch.ttl, touch.now))
    else (l.cells[touch.key].value, l.cells[touch.key].expireAt)
  }

  /** A key just added or hit is still found, with the value last added under it, if no call
      since removed or purged it, it has not expired, and fewer than `size` other keys were
      added or hit since. */
  lemma RecentKeyIsFound<K, V>(size: int, before: seq<Op<K, V>>, touch: Op<K, V>, since: seq<Op<K, V>>, now: int)
    requires touch.Add? || (touch.Get? && Hit(After(Fresh<K, V>(size), before), touch.key, touch.now))
    requires var l := After(Fresh<K, V>(size), before);
             var (v, expireAt) := Touched(l, touch);
             && Spares(since, touch.key, v, expireAt)
             && !Expired(Latest(since, touch.key, v, expireAt).1, now)
             && |TouchedOthers(Step(l, touch).0, since, touch.key)| < size
    ensures var l := After(Fresh<K, V>(size), before);
            var (v, expireAt) := Touched(l, touch);
            var c := GenAfter(GenStep(GenAfter(Empty<K, V>(size), before), touch).0, since);
            GenStep(c, Get(touch.key, now)).1 == Found(Some(Latest(since, touch.key, v, expireAt).0))
  {
    var c, l := GenAfter(Empty<K, V>(size), before), After(Fresh<K, V>(size), before);
    var c1, l1 := GenStep(c, touch).0, Step(l, touch).0;
    StampsPast(Fresh<K, V>(size), before);
    RecentKeyStays(l, touch, since);
    RunTracks(Empty(size), Fresh(size), before);
    StepTracks(c, l, touch);
    StepSound(c, touch);
    RunTracks(c1, l1, since);
    StepTracks(GenAfter(c1, since), After(l1, since), Get(touch.key, now));
  }

  lemma RecentKeyStays<K, V>(l: Lru<K, V>, touch: Op<K, V>, since: seq<Op<K, V>>)
    requires Stamped(l) && (touch.Add? || (touch.Get? && Hit(l, touch.key, touch.now)))
    requires Spares(since, touch.key, Touched(l, touch).0, Touched(l, touch).1)
    requires |TouchedOthers(Step(l, touch).0, since, touch.key)| < l.size
    ensures var (v, expireAt) := Touched(l, touch);
            var (v', expireAt') := Latest(since, touch.key, v, expireAt);
            Keeps(After(Step(l, touch).0, since), touch.key, v', expireAt')
  {
    var k, l1 := touch.key, Step(l, touch).0;
    StampsStep(l, touch);
    TouchedFirst(l, touch);
    OthersExclude(l1, since, k);
    SparedKeyStays(l1, since, k, Touched(l, touch).0, Touched(l, touch).1, TouchedOthers(l1, since, k));
  }

  lemma {:induction false} StampsPast<K, V>(l: Lru<K, V>, ops: seq<Op<K, V>>)
    requires Stamped(l)
    ensures After(l, ops).size == l.size && Stamped(After(l, ops))
    decreases |ops|
  {
    if ops != [] {
      StampsStep(l, ops[0]);
      StampsPast(Step(l, ops[0]).0, ops[1..]);
    }
  }

  lemma StampsStep<K, V>(l: Lru<K, V>, op: Op<K, V>)
    requires Stamped(l)
    ensures Step(l, op).0.size == l.size && Stamped(Step(l, op).0)
  {
  }

  /** A cell just touched is the youngest; in a cache with room for it, it is there. */
  lemma TouchedFirst<K, V>(l: Lru<K, V>, touch: Op<K, V>)
    requires l.size > 0 && Stamped(l) && (touch.Add? || (touch.Get? && Hit(l, touch.key, touch.now)))
    ensures var l' := Step(l, touch).0;
            && OnlyYounger(l', touch.key, {}) && Stamped(l')
            && Keeps(l', touch.key, Touched(l, touch).0, Touched(l, touch).1)
  {
    if touch.Add? && touch.key !in l.cells {
      var cells := Touch(l, touch.key, touch.value, Deadline(touch.ttl, touch.now)).cells;
      assert touch.key in cells;
      if Oldest(cells) == touch.key {
        forall x | x in cells ensures x == touch.key {}
        assert cells.Keys == {touch.key};
        assert |cells| == |cells.Keys|;
      }
    }
  }

  lemma {:induction false} OthersExclude<K, V>(l: Lru<K, V>, ops: seq<Op<K, V>>, k: K)
    ensures k !in TouchedOthers(l, ops, k)
    decreases |ops|
  {
    if ops != [] { OthersExclude(Step(l, ops[0]).0, ops[1..], k); }
  }
}
