/** What a least-recently-used cache promises, with no list, index or generation in it:
    a map from keys to cells, each stamped with the moment it was last touched. Eviction
    takes the cell touched longest ago, and a purge really empties the map. */
module LruReference {
  import opened Options

  datatype Cell<V> = Cell(value: V, expireAt: int, touched: nat)

  datatype Lru<K, V> = Lru(size: int, cells: map<K, Cell<V>>, clock: nat)

  /** One call on the cache; the reading of the clock, in seconds, is a parameter. */
  datatype Op<K, !V> =
    | Add(key: K, value: V, ttl: int, now: int)
    | Get(key: K, now: int)
    | Remove(key: K)
    | RemoveFunc(key: K, pred: V -> bool)
    | Purge
    | Keys
    | Len

  /** What a caller can observe, and, for an insertion, which live key it pushed out. */
  datatype Answer<K, V> =
    | Done
    | Added(evicted: Option<K>)
    | Found(value: Option<V>)
    | Matched(hit: bool)
    | AllKeys(keys: seq<K>)
    | Count(n: int)

  function Deadline(ttl: int, now: int): int {
    if ttl > 0 then now + ttl else ttl
  }

  predicate Expired(expireAt: int, now: int) {
    expireAt > 0 && now > expireAt
  }

  ghost predicate IsOldest<K, V>(cells: map<K, Cell<V>>, k: K) {
    k in cells && forall x :: x in cells ==> cells[k].touched <= cells[x].touched
  }

  lemma {:induction false} OldestExists<K, V>(cells: map<K, Cell<V>>)
    requires cells != map[]
    ensures exists k :: IsOldest(cells, k)
    decreases |cells|
  {
    var k :| k in cells;
    var rest := cells - {k};
    assert rest.Keys == cells.Keys - {k};
    if rest == map[] {
      assert forall x :: x in cells ==> x == k || x in rest;
      assert IsOldest(cells, k);
    } else {
      OldestExists(rest);
      var m :| IsOldest(rest, m);
      assert forall x :: x in cells ==> x == k || x in rest;
      if cells[k].touched <= cells[m].touched {
        assert IsOldest(cells, k);
      } else {
        assert IsOldest(cells, m);
      }
    }
  }

  ghost function Oldest<K, V>(cells: map<K, Cell<V>>): (k: K)
    requires cells != map[]
    ensures IsOldest(cells, k)
  {
    OldestExists(cells);
    var k :| IsOldest(cells, k);
    k
  }

  /** The keys, the one touched longest ago first. */
  ghost function KeysByAge<K, V>(cells: map<K, Cell<V>>): seq<K>
    decreases |cells|
  {
    if cells == map[] then []
    else
      var k := Oldest(cells);
      assert (cells - {k}).Keys == cells.Keys - {k};
      [k] + KeysByAge(cells - {k})
  }

  ghost predicate Hit<K, V>(l: Lru<K, V>, k: K, now: int) {
    k in l.cells && !Expired(l.cells[k].expireAt, now)
  }

  ghost function Touch<K, V>(l: Lru<K, V>, k: K, v: V, expireAt: int): Lru<K, V> {
    Lru(l.size, l.cells[k := Cell(v, expireAt, l.clock)], l.clock + 1)
  }

  ghost function Forget<K, V>(l: Lru<K, V>, k: K): Lru<K, V> {
    l.(cells := l.cells - {k})
  }

  ghost function Put<K, V>(l: Lru<K, V>, k: K, v: V, expireAt: int): (Lru<K, V>, Answer<K, V>) {
    var l1 := Touch(l, k, v, expireAt);
    if k !in l.cells && |l1.cells| > l.size then
      (Forget(l1, Oldest(l1.cells)), Added(Some(Oldest(l1.cells))))
    else
      (l1, Added(None))
  }

  ghost function Read<K, V>(l: Lru<K, V>, k: K, now: int): (Lru<K, V>, Answer<K, V>) {
    if Hit(l, k, now) then
      (Touch(l, k, l.cells[k].value, l.cells[k].expireAt), Found(Some(l.cells[k].value)))
    else
      (Forget(l, k), Found(None))
  }

  ghost function Step<K, V>(l: Lru<K, V>, op: Op<K, V>): (Lru<K, V>, Answer<K, V>) {
    match op
    case Add(k, v, ttl, now) => Put(l, k, v, Deadline(ttl, now))
    case Get(k, now) => Read(l, k, now)
    case Remove(k) => (Forget(l, k), Done)
    case RemoveFunc(k, pred) =>
      if k in l.cells && pred(l.cells[k].value) then (Forget(l, k), Matched(true))
      else (l, Matched(false))
    case Purge => (l.(cells := map[]), Done)
    case Keys => (l, AllKeys(KeysByAge(l.cells)))
    case Len => (l, Count(|l.cells|))
  }

  ghost function After<K, V>(l: Lru<K, V>, ops: seq<Op<K, V>>): Lru<K, V>
    decreases |ops|
  {
    if ops == [] then l else After(Step(l, ops[0]).0, ops[1..])
  }

  // ---- The guarantee a least-recently-used cache gives -------------------------------

  /** Value and deadline of `k` after these calls, read off the calls alone: those of its
      last addition, or `v` and `expireAt` from before. */
  function Latest<K(==), V>(ops: seq<Op<K, V>>, k: K, v: V, expireAt: int): (V, int)
    decreases |ops|
  {
    if ops == [] then (v, expireAt)
    else if ops[0].Add? && ops[0].key == k then Latest(ops[1..], k, ops[0].value, Deadline(ops[0].ttl, ops[0].now))
    else Latest(ops[1..], k, v, expireAt)
  }

  /** The calls leave `k` alone, wherever it is: none removes or purges it, and none reads
      it past the deadline it has by then. */
  ghost predicate Spares<K, V>(ops: seq<Op<K, V>>, k: K, v: V, expireAt: int)
    decreases |ops|
  {
    ops == [] ||
    var (v', expireAt') := Latest(ops[..1], k, v, expireAt);
    && (match ops[0]
        case Purge => false
        case Remove(x) => x != k
        case RemoveFunc(x, pred) => x != k || !pred(v)
        case Get(x, now) => x != k || !Expired(expireAt, now)
        case _ => true)
    && Spares(ops[1..], k, v', expireAt')
  }

  /** The keys other than `k` that the operations add or hit. */
  ghost function TouchedOthers<K, V>(l: Lru<K, V>, ops: seq<Op<K, V>>, k: K): set<K>
    decreases |ops|
  {
    if ops == [] then {}
    else
      (match ops[0]
       case Add(x, _, _, _) => {x} - {k}
       case Get(x, now) => if Hit(l, x, now) then {x} - {k} else {}
       case _ => {})
      + TouchedOthers(Step(l, ops[0]).0, ops[1..], k)
  }

  /** Every key touched after `k` is one of `others`. */
  ghost predicate OnlyYounger<K, V>(l: Lru<K, V>, k: K, others: set<K>) {
    && k in l.cells
    && l.cells[k].touched < l.clock
    && k !in others
    && forall x :: x in l.cells && x != k ==> x in others || l.cells[x].touched < l.cells[k].touched
  }

  /** `k` is there, with this value and deadline. */
  ghost predicate Keeps<K, V>(l: Lru<K, V>, k: K, v: V, expireAt: int) {
    k in l.cells && l.cells[k].value == v && l.cells[k].expireAt == expireAt
  }

  ghost predicate Stamped<K, V>(l: Lru<K, V>) {
    forall x :: x in l.cells ==> l.cells[x].touched < l.clock
  }

  lemma StepSpares<K, V>(l: Lru<K, V>, op: Op<K, V>, k: K, v: V, expireAt: int, others: set<K>)
    requires OnlyYounger(l, k, others) && |others| < l.size && Stamped(l) && Keeps(l, k, v, expireAt)
    requires Spares([op], k, v, expireAt) && TouchedOthers(l, [op], k) <= others
    ensures var l' := Step(l, op).0;
            OnlyYounger(l', k, others) && l'.size == l.size && Stamped(l')
            && Keeps(l', k, Latest([op], k, v, expireAt).0, Latest([op], k, v, expireAt).1)
  {
    if op.Add? {
      var cells := l.cells[op.key := Cell(op.value, Deadline(op.ttl, op.now), l.clock)];
      if op.key !in l.cells && |cells| > l.size && Oldest(cells) == k {
        assert forall x :: x in cells.Keys ==> x in others + {k};
        Subset(cells.Keys, others + {k});
        assert false;
      }
    }
  }

  lemma {:induction false} Subset<T>(a: set<T>, b: set<T>)
    requires a <= b
    ensures |a| <= |b|
  {
    if a != {} {
      var x :| x in a;
      Subset(a - {x}, b - {x});
    }
  }

  /** A spared key stays, with the value last added, while the keys touched since fit beside it. */
  lemma {:induction false} SparedKeyStays<K, V>(l: Lru<K, V>, ops: seq<Op<K, V>>, k: K, v: V, expireAt: int,
        others: set<K>)
    requires OnlyYounger(l, k, others) && |others| < l.size && Stamped(l) && Keeps(l, k, v, expireAt)
    requires Spares(ops, k, v, expireAt) && TouchedOthers(l, ops, k) <= others
    ensures var (v', expireAt') := Latest(ops, k, v, expireAt); Keeps(After(l, ops), k, v', expireAt')
    decreases |ops|
  {
    if ops != [] {
      assert ops[..1] == [ops[0]];
      assert TouchedOthers(l, [ops[0]], k) <= TouchedOthers(l, ops, k);
      StepSpares(l, ops[0], k, v, expireAt, others);
      var (v1, expireAt1) := Latest(ops[..1], k, v, expireAt);
      SparedKeyStays(Step(l, ops[0]).0, ops[1..], k, v1, expireAt1, others);
    }
  }
}
