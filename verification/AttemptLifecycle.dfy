/** The life of an attempt between its creation and its first leave: the cache of members
    and the wait group the shutdown waits for. The cache is the reference cache, which the
    real one answers like (`LruRefinement`); members are cached without an expiry. */
module AttemptLifecycle {
  import opened Options
  import opened LruReference

  datatype Event<V> = Create(id: int, attempt: V, now: int) | Leave(id: int, now: int) | Find(id: int, now: int)

  /** `evicted` counts live attempts the cache pushed out, `overwritten` creations under an
      id that was still live: the two ways an attempt is lost without leaving. */
  datatype Life<V> = Life(members: Lru<int, V>, waiting: int, evicted: nat, overwritten: nat)

  ghost function LifeStep<V>(s: Life<V>, e: Event<V>): Life<V> {
    match e
    case Create(id, attempt, now) =>
      var (members, answer) := Step(s.members, Add(id, attempt, 0, now));
      Life(members, s.waiting + 1,
           s.evicted + (if answer != Added(None) then 1 else 0),
           s.overwritten + (if id in s.members.cells then 1 else 0))
    case Leave(id, now) =>
      var (members, answer) := Step<int, V>(s.members, Get(id, now));
      if answer == Found(None) then s.(members := members)
      else s.(members := Step<int, V>(members, Remove(id)).0, waiting := s.waiting - 1)
    case Find(id, now) => s.(members := Step<int, V>(s.members, Get(id, now)).0)
  }

  ghost function LifeAfter<V>(s: Life<V>, events: seq<Event<V>>): Life<V>
    decreases |events|
  {
    if events == [] then s else LifeAfter(LifeStep(s, events[0]), events[1..])
  }

  ghost function Start<V>(size: int): Life<V> {
    Life(Lru(size, map[], 0), 0, 0, 0)
  }

  /** Every unit the wait group holds is a cached attempt or a lost one. */
  ghost predicate Balanced<V>(s: Life<V>) {
    && (forall id :: id in s.members.cells ==> s.members.cells[id].expireAt == 0)
    && s.waiting == |s.members.cells| + s.evicted + s.overwritten
  }

  lemma DropOne<V>(m: map<int, V>, k: int)
    requires k in m
    ensures |m - {k}| == |m| - 1
  {
    assert (m - {k}).Keys == m.Keys - {k};
  }

  lemma CreateBalanced<V>(s: Life<V>, id: int, attempt: V, now: int)
    requires Balanced(s)
    ensures Balanced(LifeStep(s, Create(id, attempt, now)))
  {
    var cells := Touch(s.members, id, attempt, 0).cells;
    if id !in s.members.cells && |cells| > s.members.size { DropOne(cells, Oldest(cells)); }
  }

  lemma LeaveBalanced<V>(s: Life<V>, id: int, now: int)
    requires Balanced(s)
    ensures Balanced(LifeStep(s, Leave(id, now)))
  {
    var cells, left := s.members.cells, LifeStep(s, Leave(id, now)).members.cells;
    if id in cells {
      assert left == Touch(s.members, id, cells[id].value, cells[id].expireAt).cells - {id};
      assert left == cells - {id};
      DropOne(cells, id);
    } else {
      assert left == cells - {id};
      assert cells - {id} == cells;
    }
  }

  lemma StepBalanced<V>(s: Life<V>, e: Event<V>)
    requires Balanced(s)
    ensures Balanced(LifeStep(s, e))
    ensures LifeStep(s, e).members.size == s.members.size
  {
    match e {
      case Create(id, attempt, now) => CreateBalanced(s, id, attempt, now);
      case Leave(id, now) => LeaveBalanced(s, id, now);
      case Find(id, now) =>
        assert id !in s.members.cells ==> s.members.cells - {id} == s.members.cells;
    }
  }

  /** A creation the cache absorbs: its id is not live, and there is room for it. */
  ghost predicate Absorbed<V>(s: Life<V>, e: Event<V>) {
    e.Create? ==> e.id !in s.members.cells && |s.members.cells| < s.members.size
  }

  ghost predicate Lossless<V>(s: Life<V>, events: seq<Event<V>>)
    decreases |events|
  {
    events == [] || (Absorbed(s, events[0]) && Lossless(LifeStep(s, events[0]), events[1..]))
  }

  lemma {:induction false} RunBalanced<V>(s: Life<V>, events: seq<Event<V>>)
    requires Balanced(s)
    ensures var s' := LifeAfter(s, events);
            && Balanced(s') && s'.evicted + s'.overwritten >= s.evicted + s.overwritten
            && (s'.evicted + s'.overwritten == s.evicted + s.overwritten <==> Lossless(s, events))
    decreases |events|
  {
    if events != [] {
      StepBalanced(s, events[0]);
      RunBalanced(LifeStep(s, events[0]), events[1..]);
    }
  }

  /** On every run the wait group holds the cached attempts and the lost ones, so it is never
      negative; it holds exactly the cached ones if and only if every creation found room
      and a free id, and after a loss it never returns to zero. */
  lemma WaitGroupLaw<V>(size: int, events: seq<Event<V>>, more: seq<Event<V>>)
    ensures var s := LifeAfter(Start<V>(size), events);
            && s.waiting == |s.members.cells| + s.evicted + s.overwritten
            && s.waiting >= 0
            && (s.waiting == |s.members.cells| <==> Lossless(Start(size), events))
            && (!Lossless(Start(size), events) ==> LifeAfter(s, more).waiting > 0)
  {
    RunBalanced(Start<V>(size), events);
    RunBalanced(LifeAfter(Start<V>(size), events), more);
  }

  const LOSING_RUN: seq<Event<int>> := [Create(1, 7, 0), Create(2, 8, 0)]

  /** A loss happens: in a cache for one attempt the second creation pushes the first out, and
      the wait group then counts one attempt more than can ever leave. */
  lemma LossHappens(more: seq<Event<int>>)
    ensures !Lossless(Start<int>(1), LOSING_RUN)
    ensures var s := LifeAfter(Start<int>(1), LOSING_RUN);
            s.waiting == 2 && s.waiting != |s.members.cells| && LifeAfter(s, more).waiting > 0
  {
    var first, second := LOSING_RUN[0], LOSING_RUN[1];
    var s1 := LifeStep(Start<int>(1), first);
    assert s1.members.cells == map[1 := Cell(7, 0, 0)];
    assert LOSING_RUN[1..] == [second] && [second][1..] == [];
    assert !Absorbed(s1, second);
    assert !Lossless(s1, [second]);
    assert LifeAfter(s1, [second]) == LifeAfter(LifeStep(s1, second), []);
    WaitGroupLaw(1, LOSING_RUN, more);
  }

  ghost function Extend<V>(m: map<int, V>, e: Event<V>): map<int, V> {
    match e
    case Create(id, attempt, now) => m[id := attempt]
    case Leave(id, now) => m - {id}
    case Find(id, now) => m
  }

  /** The attempts created and not left yet, read off the calls alone. */
  ghost function Outstanding<V>(events: seq<Event<V>>): map<int, V>
    decreases |events|
  {
    if events == [] then map[]
    else
      Extend(Outstanding(events[..|events| - 1]), events[|events| - 1])
  }

  ghost predicate Caches<V>(l: Lru<int, V>, m: map<int, V>) {
    && l.cells.Keys == m.Keys
    && forall id :: id in m ==> l.cells[id].value == m[id]
  }

  lemma {:induction false} LosslessSplit<V>(s: Life<V>, events: seq<Event<V>>, e: Event<V>)
    requires Lossless(s, events + [e])
    ensures Lossless(s, events) && Absorbed(LifeAfter(s, events), e)
    ensures LifeAfter(s, events + [e]) == LifeStep(LifeAfter(s, events), e)
    decreases |events|
  {
    if events == [] {
      assert events + [e] == [e] && [e][1..] == [];
    } else {
      assert (events + [e])[1..] == events[1..] + [e];
      LosslessSplit(LifeStep(s, events[0]), events[1..], e);
    }
  }

  lemma StepCaches<V>(s: Life<V>, e: Event<V>, m: map<int, V>)
    requires Balanced(s) && Absorbed(s, e) && Caches(s.members, m)
    ensures Caches(LifeStep(s, e).members, Extend(m, e))
  {
    var l, l' := s.members, LifeStep(s, e).members;
    match e {
      case Create(id, attempt, now) => assert l' == Touch(l, id, attempt, 0);
      case Leave(id, now) =>
        assert l'.cells.Keys == l.cells.Keys - {id};
      case Find(id, now) =>
        assert l'.cells.Keys == l.cells.Keys;
    }
  }

  /** While every creation is absorbed, an attempt is found, under its own id, exactly from
      its creation to its first leave; a further leave changes neither cache nor count. */
  lemma {:induction false} FindableUntilLeft<V>(size: int, events: seq<Event<V>>)
    requires Lossless(Start<V>(size), events)
    ensures var s := LifeAfter(Start<V>(size), events);
            Caches(s.members, Outstanding(events)) && s.waiting == |Outstanding(events)|
    decreases |events|
  {
    WaitGroupLaw(size, events, []);
    if events != [] {
      var n := |events| - 1;
      var prefix, e := events[..n], events[n];
      assert events == prefix + [e];
      LosslessSplit(Start<V>(size), prefix, e);
      FindableUntilLeft(size, prefix);
      RunBalanced(Start<V>(size), prefix);
      StepCaches(LifeAfter(Start<V>(size), prefix), e, Outstanding(prefix));
    }
    assert |Outstanding(events)| == |Outstanding(events).Keys|;
  }

  /** Whatever is cached after a step was cached under its id before, or was just created. */
  lemma StepKeepsAttempts<V>(s: Life<V>, e: Event<V>, id: int)
    requires id in LifeStep(s, e).members.cells
    ensures var v := LifeStep(s, e).members.cells[id].value;
            if e.Create? && e.id == id then v == e.attempt
            else id in s.members.cells && v == s.members.cells[id].value
  {
  }

  /** A leave is a lookup and, when the attempt is there, a removal. */
  lemma LeaveInTwo<V>(s: Life<V>, id: int, now: int)
    requires Balanced(s)
    ensures var f := LifeStep(s, Find(id, now));
            && (id in f.members.cells <==> id in s.members.cells)
            && LifeStep(s, Leave(id, now)) ==
                 if id in s.members.cells then f.(members := Forget(f.members, id), waiting := f.waiting - 1) else f
  {
  }

  /** Leaving twice is leaving once: nobody is found the second time, and nothing changes. */
  lemma LeaveTwice<V>(s: Life<V>, id: int, now: int, now': int)
    requires Balanced(s)
    ensures var once := LifeStep(s, Leave(id, now));
            && LifeStep(once, Leave(id, now')) == once
            && Read(once.members, id, now').1 == Found(None)
            && once.waiting == s.waiting - (if id in s.members.cells then 1 else 0)
  {
    var once := LifeStep(s, Leave(id, now));
    assert id !in once.members.cells;
    assert once.members.cells - {id} == once.members.cells;
  }
}
