/** What a caller of the cache can rely on, said by calls and their answers alone: no law
    mentions a list, a generation, a cell or a deadline. */
module LruLaws {
  import opened Options
  import opened LruReference
  import opened LruGeneration
  import opened LruRefinement

  /** The cache after these calls, from an empty one. */
  function Cached<K(==), V>(size: int, calls: seq<Op<K, V>>): GenCache<K, V> {
    GenAfter(Empty(size), calls)
  }

  function AnswerTo<K(==), V>(c: GenCache<K, V>, op: Op<K, V>): Answer<K, V> {
    GenStep(c, op).1
  }

  function Then<K(==), V>(c: GenCache<K, V>, op: Op<K, V>): GenCache<K, V> {
    GenStep(c, op).0
  }

  lemma Reference<K, V>(size: int, calls: seq<Op<K, V>>) returns (l: Lru<K, V>)
    ensures Sound(Cached(size, calls)) && Tracks(Cached(size, calls), l) && l.size == size && Stamped(l)
  {
    l := After(Fresh<K, V>(size), calls);
    RunTracks(Empty<K, V>(size), Fresh(size), calls);
    StampsPast(Fresh<K, V>(size), calls);
  }

  /** Two calls in a row are answered as by the reference. */
  lemma Follow<K, V>(c: GenCache<K, V>, l: Lru<K, V>, op: Op<K, V>, next: Op<K, V>)
    requires Sound(c) && Tracks(c, l) && !next.RemoveFunc?
    ensures Tracks(Then(c, op), Step(l, op).0) && Sound(Then(c, op))
    ensures AnswerTo(Then(c, op), next) == Step(Step(l, op).0, next).1
    ensures !op.RemoveFunc? ==> AnswerTo(c, op) == Step(l, op).1
  {
    StepTracks(c, l, op);
    StepSound(c, op);
    StepTracks(Then(c, op), Step(l, op).0, next);
  }

  /** An entry is found with its value until `ttl` seconds after it was added have passed,
      or for ever without a ttl. */
  lemma AddedIsFound<K, V>(size: int, before: seq<Op<K, V>>, k: K, v: V, ttl: int, at: int, now: int)
    requires size > 0 && at >= 0
    ensures AnswerTo(Then(Cached(size, before), Add(k, v, ttl, at)), Get(k, now))
            == Found(if ttl > 0 && now > at + ttl then None else Some(v))
  {
    var l := Reference<K, V>(size, before);
    Follow(Cached(size, before), l, Add(k, v, ttl, at), Get(k, now));
    TouchedFirst(l, Add(k, v, ttl, at));
  }

  /** A removed entry is not found, nor one that was looked up in vain. */
  lemma RemovedIsGone<K, V>(size: int, before: seq<Op<K, V>>, k: K, now: int, later: int)
    ensures AnswerTo(Then(Cached<K, V>(size, before), Remove(k)), Get(k, now)) == Found(None)
    ensures AnswerTo(Cached<K, V>(size, before), Get(k, now)) == Found(None) ==>
              AnswerTo(Then(Cached<K, V>(size, before), Get(k, now)), Get(k, later)) == Found(None)
  {
    var l := Reference<K, V>(size, before);
    Follow<K, V>(Cached(size, before), l, Remove(k), Get(k, now));
    Follow<K, V>(Cached(size, before), l, Get(k, now), Get(k, later));
  }

  /** A purged cache is empty. */
  lemma PurgedIsEmpty<K, V>(size: int, before: seq<Op<K, V>>, k: K, now: int)
    ensures var c := Then<K, V>(Cached(size, before), Purge);
            AnswerTo(c, Get(k, now)) == Found(None) && AnswerTo(c, Len) == Count(0) && AnswerTo(c, Keys) == AllKeys([])
  {
    var l := Reference<K, V>(size, before);
    Follow<K, V>(Cached(size, before), l, Purge, Get(k, now));
    Follow<K, V>(Cached(size, before), l, Purge, Len);
    Follow<K, V>(Cached(size, before), l, Purge, Keys);
  }

  /** A hit is a hit again. */
  lemma HitStays<K, V>(size: int, before: seq<Op<K, V>>, k: K, now: int)
    ensures var c := Cached<K, V>(size, before);
            AnswerTo(Then(c, Get(k, now)), Get(k, now)) == AnswerTo(c, Get(k, now))
  {
    var l := Reference<K, V>(size, before);
    Follow<K, V>(Cached(size, before), l, Get(k, now), Get(k, now));
  }

  /** Removing by predicate removes what it matches, and only that. */
  lemma RemovedIfMatched<K, V>(size: int, before: seq<Op<K, V>>, k: K, pred: V -> bool, now: int)
    ensures var c := Cached<K, V>(size, before);
            var found := AnswerTo(c, Get(k, now));
            found.Found? && (found.value.Some? ==>
              && AnswerTo(c, RemoveFunc(k, pred)) == Matched(pred(found.value.value))
              && AnswerTo(Then(c, RemoveFunc(k, pred)), Get(k, now))
                 == if pred(found.value.value) then Found(None) else found)
  {
    var c := Cached<K, V>(size, before);
    var l := Reference<K, V>(size, before);
    StepTracks(c, l, Get(k, now));
    StepTracks(c, l, RemoveFunc(k, pred));
    Follow<K, V>(c, l, RemoveFunc(k, pred), Get(k, now));
    LiveIffStored(c, l, k);
  }

  predicate About<K(==), V>(op: Op<K, V>, k: K) {
    (op.Add? || op.Get? || op.Remove? || op.RemoveFunc?) && op.key == k
  }

  lemma CellStays<K, V>(l: Lru<K, V>, op: Op<K, V>, k: K, x: K)
    requires About(op, k) && x != k
    ensures var l' := Step(l, op).0;
            if op.Add? && Step(l, op).1 == Added(Some(x)) then x !in l'.cells
            else (x in l'.cells <==> x in l.cells) && (x in l.cells ==> l'.cells[x] == l.cells[x])
  {
    if op.Add? {
      var touched := Touch(l, k, op.value, Deadline(op.ttl, op.now)).cells;
      assert (x in touched <==> x in l.cells) && (x in l.cells ==> touched[x] == l.cells[x]);
    }
  }

  lemma ReadsAlike<K, V>(l: Lru<K, V>, l': Lru<K, V>, x: K, now: int)
    requires (x in l'.cells <==> x in l.cells) && (x in l.cells ==> l'.cells[x] == l.cells[x])
    ensures Step(l', Get(x, now)).1 == Step(l, Get(x, now)).1
  {
  }

  /** A call about one key does not change what is found under another, except that an
      addition may push it out. */
  lemma OthersStay<K, V>(size: int, before: seq<Op<K, V>>, op: Op<K, V>, k: K, x: K, now: int)
    requires About(op, k) && x != k
    ensures var c := Cached<K, V>(size, before);
            AnswerTo(Then(c, op), Get(x, now))
            == if op.Add? && AnswerTo(c, op) == Added(Some(x)) then Found(None) else AnswerTo(c, Get(x, now))
  {
    var c := Cached<K, V>(size, before);
    var l := Reference<K, V>(size, before);
    StepTracks(c, l, Get(x, now));
    StepTracks(c, l, op);
    Follow(c, l, op, Get(x, now));
    CellStays(l, op, k, x);
    if !(op.Add? && AnswerTo(c, op) == Added(Some(x))) { ReadsAlike(l, Step(l, op).0, x, now); }
  }

  lemma EvictsAtSize<K, V>(l: Lru<K, V>, k: K, v: V, expireAt: int)
    requires |l.cells| <= l.size
    ensures Put(l, k, v, expireAt).1.evicted.Some? <==> k !in l.cells && |l.cells| == l.size
  {
    var cells := Touch(l, k, v, expireAt).cells;
    assert k !in l.cells ==> cells.Keys == l.cells.Keys + {k};
    assert |cells| == |cells.Keys|;
    assert |l.cells| == |l.cells.Keys|;
  }

  lemma KeysAreCells<K, V>(c: GenCache<K, V>, l: Lru<K, V>)
    requires Sound(c) && Tracks(c, l)
    ensures AnswerTo<K, V>(c, Len) == Count(|l.cells|)
    ensures AnswerTo<K, V>(c, Keys).AllKeys? && |AnswerTo<K, V>(c, Keys).keys| == |l.cells|
    ensures forall k :: k in AnswerTo<K, V>(c, Keys).keys <==> k in l.cells
    ensures |l.cells| <= if c.size > 0 then c.size else 0
  {
    StepTracks<K, V>(c, l, Keys);
    StepTracks<K, V>(c, l, Len);
    KeysAreStored(l.cells);
  }

  /** Only an addition of a new key to a full cache pushes an entry out. */
  lemma EvictsOnlyWhenFull<K, V>(size: int, before: seq<Op<K, V>>, k: K, v: V, ttl: int, at: int)
    requires size >= 0
    ensures var c := Cached<K, V>(size, before);
            var a, keys := AnswerTo(c, Add(k, v, ttl, at)), AnswerTo(c, Keys);
            a.Added? && keys.AllKeys? && (a.evicted.Some? <==> k !in keys.keys && AnswerTo(c, Len) == Count(size))
  {
    var c := Cached<K, V>(size, before);
    var l := Reference<K, V>(size, before);
    KeysAreCells(c, l);
    StepTracks(c, l, Add(k, v, ttl, at));
    EvictsAtSize(l, k, v, Deadline(ttl, at));
  }

  lemma {:induction false} KeysAreStored<K, V>(cells: map<K, Cell<V>>)
    ensures |KeysByAge(cells)| == |cells| && forall k :: k in KeysByAge(cells) <==> k in cells
    decreases |cells|
  {
    if cells != map[] {
      var k := Oldest(cells);
      assert (cells - {k}).Keys == cells.Keys - {k};
      KeysAreStored(cells - {k});
    }
  }

  /** The keys are those under which something is found before any deadline, and `Len` is
      their number. */
  lemma KeysAreFound<K, V>(size: int, before: seq<Op<K, V>>, k: K)
    ensures var c := Cached<K, V>(size, before);
            var keys := AnswerTo(c, Keys);
            keys.AllKeys? && AnswerTo(c, Len) == Count(|keys.keys|)
            && (k in keys.keys <==> AnswerTo(c, Get(k, 0)) != Found(None))
  {
    var c := Cached<K, V>(size, before);
    var l := Reference<K, V>(size, before);
    KeysAreCells(c, l);
    StepTracks(c, l, Get(k, 0));
  }
}
