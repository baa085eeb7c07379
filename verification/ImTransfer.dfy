/** Transferring an instant-messaging conversation: concurrent `TransferIM` calls and the
    runs of the target attempts they start, one step for each section under the lock of
    the source attempt. */
module ImTransfer {

  /** The transfer fields of one attempt; `closes` counts closings of `imTransferred`. */
  datatype Flags = Flags(pending: bool, to: int, transferred: bool, closes: nat)

  const FRESH := Flags(false, 0, false, 0)

  predicate CanReserve(f: Flags) {
    !f.pending && !f.transferred
  }

  function Reserve(f: Flags): Flags {
    if CanReserve(f) then f.(pending := true) else f
  }

  function Record(f: Flags, to: int): Flags {
    f.(to := to)
  }

  function Release(f: Flags, to: int): Flags {
    if f.to == 0 || f.to == to then f.(pending := false, to := 0) else f
  }

  function Complete(f: Flags): Flags {
    if f.transferred then f else f.(pending := false, transferred := true, closes := f.closes + 1)
  }

  /** Where a `TransferIM` call stands: it holds the source attempt; it has reserved it; it
      has started a target attempt whose id is not recorded yet; it has returned. */
  datatype Phase = Looked | Reserved | Started(target: int) | Over

  datatype Call = Call(source: int, phase: Phase)

  /** `runs` maps each target attempt whose run has not returned to its source attempt. */
  datatype System = System(flags: map<int, Flags>, calls: map<int, Call>, runs: map<int, int>)

  datatype Action =
    | NewAttempt(id: int)
    | Lookup(call: int, source: int)
    | TryReserve(call: int)
    | FailDistribute(call: int)
    | StartTarget(call: int, target: int)
    | StartBarred(call: int, target: int)
    | RecordTarget(call: int)
    | CompleteTransfer(target: int, found: bool)
    | EndRun(target: int, found: bool)

  predicate InPhase(s: System, c: int, p: Phase) {
    c in s.calls && s.calls[c].phase == p && s.calls[c].source in s.flags
  }

  /** Attempt ids come from a database sequence: positive and never used twice. */
  predicate FreshId(s: System, id: int) {
    id > 0 && id !in s.flags
  }

  predicate Enabled(s: System, a: Action) {
    match a
    case NewAttempt(id) => FreshId(s, id)
    case Lookup(c, source) => c !in s.calls && source in s.flags
    case TryReserve(c) => InPhase(s, c, Looked)
    case FailDistribute(c) => InPhase(s, c, Reserved)
    case StartTarget(c, t) => InPhase(s, c, Reserved) && FreshId(s, t)
    case StartBarred(c, t) => InPhase(s, c, Reserved) && FreshId(s, t)
    case RecordTarget(c) => c in s.calls && s.calls[c].phase.Started? && s.calls[c].source in s.flags
    case CompleteTransfer(t, found) => t in s.runs && s.runs[t] in s.flags
    case EndRun(t, found) => t in s.runs && s.runs[t] in s.flags
  }

  /** `found` says whether the source attempt was still in the cache when it was looked up. */
  function Apply(s: System, a: Action): System
    requires Enabled(s, a)
  {
    match a
    case NewAttempt(id) => s.(flags := s.flags[id := FRESH])
    case Lookup(c, source) => s.(calls := s.calls[c := Call(source, Looked)])
    case TryReserve(c) =>
      var id := s.calls[c].source;
      if CanReserve(s.flags[id]) then
        s.(flags := s.flags[id := Reserve(s.flags[id])], calls := s.calls[c := Call(id, Reserved)])
      else
        s.(calls := s.calls[c := Call(id, Over)])
    case FailDistribute(c) =>
      var id := s.calls[c].source;
      s.(flags := s.flags[id := Release(s.flags[id], 0)], calls := s.calls[c := Call(id, Over)])
    case StartTarget(c, t) =>
      var id := s.calls[c].source;
      System(s.flags[t := FRESH], s.calls[c := Call(id, Started(t))], s.runs[t := id])
    case StartBarred(c, t) =>
      var id := s.calls[c].source;
      s.(flags := s.flags[t := FRESH], calls := s.calls[c := Call(id, Started(t))])
    case RecordTarget(c) =>
      var id, t := s.calls[c].source, s.calls[c].phase.target;
      s.(flags := s.flags[id := Record(s.flags[id], t)], calls := s.calls[c := Call(id, Over)])
    case CompleteTransfer(t, found) =>
      var id := s.runs[t];
      if found then s.(flags := s.flags[id := Complete(s.flags[id])]) else s
    case EndRun(t, found) =>
      var id := s.runs[t];
      var flags := if found then s.flags[id := Release(s.flags[id], t)] else s.flags;
      s.(flags := flags, runs := s.runs - {t})
  }

  const EMPTY := System(map[], map[], map[])

  ghost predicate Legal(s: System, acts: seq<Action>)
    decreases |acts|
  {
    acts == [] || (Enabled(s, acts[0]) && Legal(Apply(s, acts[0]), acts[1..]))
  }

  ghost function After(s: System, acts: seq<Action>): System
    requires Legal(s, acts)
    decreases |acts|
  {
    if acts == [] then s else After(Apply(s, acts[0]), acts[1..])
  }

  // ---- Safety, on every interleaving -------------------------------------------------

  ghost predicate HasReservation(s: System, c: int, id: int) {
    c in s.calls && s.calls[c] == Call(id, Reserved)
  }

  ghost predicate IsTargetOf(s: System, t: int, id: int) {
    t in s.runs && s.runs[t] == id
  }

  /** At most one owner of a source attempt, a reserving call or a live target, and only
      while the attempt shows it: pending, or already transferred. */
  ghost predicate Exclusive(s: System, id: int)
    requires id in s.flags
  {
    var f := s.flags[id];
    && (forall c :: HasReservation(s, c, id) ==> f.pending && !f.transferred)
    && (forall t :: IsTargetOf(s, t, id) ==> f.pending || f.transferred)
    && (forall c, c' :: HasReservation(s, c, id) && HasReservation(s, c', id) ==> c == c')
    && (forall t, t' :: IsTargetOf(s, t, id) && IsTargetOf(s, t', id) ==> t == t')
    && (forall c, t :: HasReservation(s, c, id) && IsTargetOf(s, t, id) ==> false)
    && f.closes == (if f.transferred then 1 else 0)
  }

  ghost predicate Inv(s: System) {
    && (forall id :: id in s.flags ==> id > 0 && Exclusive(s, id))
    && (forall c :: c in s.calls ==>
          s.calls[c].source in s.flags && (s.calls[c].phase.Started? ==> s.calls[c].phase.target > 0))
    && (forall t :: t in s.runs ==> t in s.flags && s.runs[t] in s.flags)
  }

  /** The attempt whose fields, calls or targets a step is about. */
  function Subject(s: System, a: Action): int
    requires Enabled(s, a)
  {
    match a
    case NewAttempt(id) => id
    case Lookup(_, source) => source
    case CompleteTransfer(t, _) => s.runs[t]
    case EndRun(t, _) => s.runs[t]
    case _ => s.calls[a.call].source
  }

  lemma CallExclusive(s: System, a: Action)
    requires Inv(s) && Enabled(s, a) && (a.TryReserve? || a.FailDistribute? || a.StartTarget?)
    ensures Exclusive(Apply(s, a), Subject(s, a))
  {
    var s', id := Apply(s, a), Subject(s, a);
    assert Exclusive(s, id) && (!a.TryReserve? ==> HasReservation(s, a.call, id));
    assert forall c :: HasReservation(s', c, id) && !(a.TryReserve? && c == a.call) ==> HasReservation(s, c, id);
    assert forall t :: IsTargetOf(s', t, id) && !(a.StartTarget? && t == a.target) ==> IsTargetOf(s, t, id);
  }

  lemma StepExclusive(s: System, a: Action, id: int)
    requires Inv(s) && Enabled(s, a) && id in Apply(s, a).flags
    ensures Exclusive(Apply(s, a), id)
  {
    var s' := Apply(s, a);
    if id == Subject(s, a) && (a.TryReserve? || a.FailDistribute? || a.StartTarget?) {
      CallExclusive(s, a);
    } else {
      assert id in s.flags ==> Exclusive(s, id);
      assert forall c :: HasReservation(s', c, id) ==> HasReservation(s, c, id);
      assert forall t :: IsTargetOf(s', t, id) ==> IsTargetOf(s, t, id);
      if a.CompleteTransfer? || a.EndRun? { assert IsTargetOf(s, a.target, s.runs[a.target]); }
    }
  }

  /** Every locked section keeps the invariant. */
  lemma StepInv(s: System, a: Action)
    requires Inv(s) && Enabled(s, a)
    ensures Inv(Apply(s, a))
  {
    forall id | id in Apply(s, a).flags ensures id > 0 && Exclusive(Apply(s, a), id) {
      StepExclusive(s, a, id);
    }
  }

  lemma {:induction false} RunInv(s: System, acts: seq<Action>)
    requires Inv(s) && Legal(s, acts)
    ensures Inv(After(s, acts))
    decreases |acts|
  {
    if acts != [] {
      StepInv(s, acts[0]);
      RunInv(Apply(s, acts[0]), acts[1..]);
    }
  }

  /** Whatever the interleaving, a source attempt never has two live transfer targets, nor a
      target beside a reservation, and its channel is closed at most once. */
  lemma NeverTwoTargets(acts: seq<Action>, id: int, t: int, t': int)
    requires Legal(EMPTY, acts)
    ensures var s := After(EMPTY, acts);
            && (IsTargetOf(s, t, id) && IsTargetOf(s, t', id) ==> t == t')
            && (forall c :: HasReservation(s, c, id) ==> !IsTargetOf(s, t, id))
            && (id in s.flags ==> s.flags[id].closes <= 1 && (s.flags[id].closes == 1 <==> s.flags[id].transferred))
  {
    RunInv(EMPTY, acts);
    var s := After(EMPTY, acts);
    if id in s.flags { assert Exclusive(s, id); }
  }

  /** Once transferred, an attempt stays transferred and no call ever holds it again. */
  lemma {:induction false} TransferredIsFinal(s: System, acts: seq<Action>, id: int)
    requires Inv(s) && Legal(s, acts) && id in s.flags && s.flags[id].transferred
    ensures var s' := After(s, acts);
            id in s'.flags && s'.flags[id].transferred && s'.flags[id].closes == 1
            && forall c :: !HasReservation(s', c, id)
    decreases |acts|
  {
    if acts == [] {
      assert Exclusive(s, id);
    } else {
      StepInv(s, acts[0]);
      TransferredIsFinal(Apply(s, acts[0]), acts[1..], id);
    }
  }

  // ---- Exactly which runs transfer an attempt --------------------------------------------

  /** An attempt comes into being by itself, or as the target of a transfer. */
  predicate Creates(a: Action, id: int) {
    match a
    case NewAttempt(x) => x == id
    case StartTarget(_, t) => t == id
    case StartBarred(_, t) => t == id
    case _ => false
  }

  /** A live target of the attempt completes the transfer, and finds the attempt cached. */
  predicate Completes(s: System, a: Action, id: int) {
    a.CompleteTransfer? && a.found && a.target in s.runs && s.runs[a.target] == id
  }

  ghost predicate CompletedIn(s: System, acts: seq<Action>, id: int)
    requires Legal(s, acts)
    decreases |acts|
  {
    acts != [] && (Completes(s, acts[0], id) || CompletedIn(Apply(s, acts[0]), acts[1..], id))
  }

  /** A completion transfers the attempt and lowers its pending flag, and leaves the recorded
      target; nothing else makes an attempt transferred, and nothing undoes it. */
  lemma StepTransferred(s: System, a: Action, id: int)
    requires Inv(s) && Enabled(s, a) && id in s.flags
    ensures var f, f' := s.flags[id], Apply(s, a).flags[id];
            && (f'.transferred <==> f.transferred || Completes(s, a, id))
            && (f'.closes == f.closes + 1 <==> Completes(s, a, id) && !f.transferred)
            && (Completes(s, a, id) && !f.transferred ==> !f'.pending && f'.to == f.to)
  {
    assert Exclusive(s, id);
  }

  lemma {:induction false} RunTransferred(s: System, acts: seq<Action>, id: int)
    requires Inv(s) && Legal(s, acts) && id in s.flags
    ensures id in After(s, acts).flags
    ensures After(s, acts).flags[id].transferred <==> s.flags[id].transferred || CompletedIn(s, acts, id)
    decreases |acts|
  {
    if acts != [] {
      StepInv(s, acts[0]);
      StepTransferred(s, acts[0], id);
      RunTransferred(Apply(s, acts[0]), acts[1..], id);
    }
  }

  /** On every run from the creation of an attempt on: it is transferred, its channel closed
      once, if and only if some live target of it completed while it was cached; from then on
      no call holds a reservation of it. */
  lemma TransferredExactly(before: seq<Action>, birth: Action, id: int, acts: seq<Action>)
    requires Legal(EMPTY, before) && Enabled(After(EMPTY, before), birth) && Creates(birth, id)
    requires Legal(Apply(After(EMPTY, before), birth), acts)
    ensures var s0 := Apply(After(EMPTY, before), birth);
            var s := After(s0, acts);
            && id in s.flags
            && (s.flags[id].transferred <==> CompletedIn(s0, acts, id))
            && (s.flags[id].closes == 1 <==> CompletedIn(s0, acts, id))
            && (CompletedIn(s0, acts, id) ==> forall c :: !HasReservation(s, c, id))
  {
    var s0 := Apply(After(EMPTY, before), birth);
    RunInv(EMPTY, before);
    StepInv(After(EMPTY, before), birth);
    RunInv(s0, acts);
    RunTransferred(s0, acts, id);
    assert Exclusive(After(s0, acts), id);
  }

  /** A call gets the reservation exactly if nobody is transferring the attempt and it was not
      transferred; a call that gets none is over. */
  lemma ReservedExactly(s: System, c: int)
    requires Inv(s) && Enabled(s, TryReserve(c))
    ensures var id := s.calls[c].source;
            var s' := Apply(s, TryReserve(c));
            && (HasReservation(s', c, id) <==> !s.flags[id].pending && !s.flags[id].transferred)
            && (HasReservation(s', c, id) ==> s'.flags[id].pending && s'.flags[id].to == s.flags[id].to)
            && (!HasReservation(s', c, id) ==> s' == s.(calls := s.calls[c := Call(id, Over)]))
  {
  }

  // ---- A failed transfer does not block the next one, when ids are recorded in time ---

  ghost predicate Unrecorded(s: System, c: int, t: int, id: int) {
    c in s.calls && s.calls[c] == Call(id, Started(t))
  }

  /** Of the transfers of `id`: no target is barred, and its run ends only after its id was
      recorded and while its source is still cached. */
  ghost predicate Orderly(s: System, a: Action, id: int) {
    && (a.StartBarred? ==> !(a.call in s.calls && s.calls[a.call].source == id))
    && (a.EndRun? && IsTargetOf(s, a.target, id) ==> a.found && forall c :: !Unrecorded(s, c, a.target, id))
  }

  ghost predicate OrderlyRun(s: System, acts: seq<Action>, id: int)
    requires Legal(s, acts)
    decreases |acts|
  {
    acts == [] || (Orderly(s, acts[0], id) && OrderlyRun(Apply(s, acts[0]), acts[1..], id))
  }

  ghost predicate Owned(s: System, id: int) {
    (exists c :: HasReservation(s, c, id)) || (exists t :: IsTargetOf(s, t, id))
  }

  /** The fields of the attempt tell the truth about who owns it. */
  ghost predicate Truthful(s: System, id: int)
    requires id in s.flags
  {
    var f := s.flags[id];
    && (f.to != 0 ==> IsTargetOf(s, f.to, id))
    && (f.pending ==> Owned(s, id))
    && (forall c, t :: Unrecorded(s, c, t, id) ==> IsTargetOf(s, t, id))
    && (forall t :: IsTargetOf(s, t, id) ==> f.to == t || exists c :: Unrecorded(s, c, t, id))
  }

  /** A call reserves the attempt, or gives the reservation up. */
  lemma ReservationTruthful(s: System, a: Action, id: int)
    requires Inv(s) && Enabled(s, a) && (a.TryReserve? || a.FailDistribute?) && s.calls[a.call].source == id
    requires Truthful(s, id)
    ensures Truthful(Apply(s, a), id)
  {
    var s' := Apply(s, a);
    assert Exclusive(s, id);
    assert a.FailDistribute? ==> HasReservation(s, a.call, id);
    assert forall x, t :: Unrecorded(s', x, t, id) <==> Unrecorded(s, x, t, id);
    assert forall t :: IsTargetOf(s', t, id) <==> IsTargetOf(s, t, id);
    if a.TryReserve? && CanReserve(s.flags[id]) {
      assert HasReservation(s', a.call, id);
    } else if a.TryReserve? {
      Unchanged(s, s', id);
    }
  }

  /** The reserving call starts its target, and then records it. */
  lemma TargetTruthful(s: System, a: Action, id: int)
    requires Inv(s) && Enabled(s, a) && (a.StartTarget? || a.RecordTarget?) && s.calls[a.call].source == id
    requires Truthful(s, id)
    ensures Truthful(Apply(s, a), id)
  {
    var s', c := Apply(s, a), a.call;
    assert Exclusive(s, id);
    if a.StartTarget? {
      assert HasReservation(s, c, id);
      assert Unrecorded(s', c, a.target, id) && IsTargetOf(s', a.target, id);
      assert forall x, y :: Unrecorded(s', x, y, id) ==> (x == c && y == a.target) || Unrecorded(s, x, y, id);
      assert forall y :: IsTargetOf(s', y, id) ==> y == a.target || IsTargetOf(s, y, id);
    } else {
      var t := s.calls[c].phase.target;
      assert Unrecorded(s, c, t, id) && IsTargetOf(s', t, id);
      assert forall x, y :: Unrecorded(s', x, y, id) ==> Unrecorded(s, x, y, id);
      assert forall y :: IsTargetOf(s', y, id) <==> IsTargetOf(s, y, id);
    }
  }

  /** The target completes the transfer, or its run ends in order. */
  lemma EndTruthful(s: System, a: Action, id: int)
    requires Inv(s) && Enabled(s, a) && (a.CompleteTransfer? || a.EndRun?) && s.runs[a.target] == id && Truthful(s, id)
    requires Orderly(s, a, id)
    ensures Truthful(Apply(s, a), id)
  {
    var s' := Apply(s, a);
    assert Exclusive(s, id) && IsTargetOf(s, a.target, id);
    assert forall x, y :: Unrecorded(s', x, y, id) <==> Unrecorded(s, x, y, id);
    assert forall x :: IsTargetOf(s', x, id) <==> IsTargetOf(s, x, id) && !(a.EndRun? && x == a.target);
  }

  lemma OrderlyStep(s: System, a: Action, id: int)
    requires Inv(s) && Enabled(s, a) && Orderly(s, a, id)
    requires id in s.flags && Truthful(s, id)
    ensures Truthful(Apply(s, a), id)
  {
    if (a.TryReserve? || a.FailDistribute?) && s.calls[a.call].source == id {
      ReservationTruthful(s, a, id);
    } else if (a.StartTarget? || a.RecordTarget?) && s.calls[a.call].source == id {
      TargetTruthful(s, a, id);
    } else if (a.CompleteTransfer? || a.EndRun?) && s.runs[a.target] == id {
      EndTruthful(s, a, id);
    } else {
      Unchanged(s, Apply(s, a), id);
    }
  }

  /** A disorderly step shows: a call is to record a target that is not live, or such a
      target is recorded. */
  lemma DisorderlyStep(s: System, a: Action, id: int)
    requires Inv(s) && Enabled(s, a) && !Orderly(s, a, id)
    requires id in s.flags && Truthful(s, id)
    ensures !Truthful(Apply(s, a), id)
    ensures Troubled(Apply(s, a), id)
  {
    var s' := Apply(s, a);
    assert Exclusive(s, id);
    if a.StartBarred? {
      assert HasReservation(s, a.call, id);
      assert Unrecorded(s', a.call, a.target, id) && !IsTargetOf(s', a.target, id);
    } else {
      assert IsTargetOf(s, a.target, id) && !IsTargetOf(s', a.target, id);
      if c :| Unrecorded(s, c, a.target, id) {
        assert Unrecorded(s', c, a.target, id);
      }
    }
    forall t ensures !IsTargetOf(s', t, id) { assert IsTargetOf(s', t, id) ==> IsTargetOf(s, t, id); }
    forall c ensures !HasReservation(s', c, id) { assert HasReservation(s', c, id) ==> HasReservation(s, c, id); }
  }

  /** Nobody owns the attempt, and yet it is pending, names a target, or is about to. */
  ghost predicate Troubled(s: System, id: int)
    requires id in s.flags
  {
    && (forall t :: !IsTargetOf(s, t, id))
    && (forall c :: !HasReservation(s, c, id))
    && (!Free(s.flags[id]) || exists c, t :: Unrecorded(s, c, t, id))
  }

  predicate Free(f: Flags) {
    !f.pending && f.to == 0
  }

  /** One step keeps the fields truthful if and only if it is orderly. */
  lemma StepTruthful(s: System, a: Action, id: int)
    requires Inv(s) && Enabled(s, a) && id in s.flags && Truthful(s, id)
    ensures Truthful(Apply(s, a), id) <==> Orderly(s, a, id)
  {
    if Orderly(s, a, id) {
      OrderlyStep(s, a, id);
    } else {
      DisorderlyStep(s, a, id);
    }
  }

  /** A step that touches neither the attempt, nor its calls, nor its targets. */
  lemma Unchanged(s: System, s': System, id: int)
    requires id in s.flags && id in s'.flags && s'.flags[id] == s.flags[id] && Truthful(s, id)
    requires forall c :: HasReservation(s', c, id) <==> HasReservation(s, c, id)
    requires forall t :: IsTargetOf(s', t, id) <==> IsTargetOf(s, t, id)
    requires forall c, t :: Unrecorded(s', c, t, id) <==> Unrecorded(s, c, t, id)
    ensures Truthful(s', id)
  {
    if Owned(s, id) {
      if c :| HasReservation(s, c, id) {
        assert HasReservation(s', c, id);
      } else {
        var t :| IsTargetOf(s, t, id);
        assert IsTargetOf(s', t, id);
      }
    }
    forall t | IsTargetOf(s', t, id) && s'.flags[id].to != t ensures exists c :: Unrecorded(s', c, t, id) {
      var c :| Unrecorded(s, c, t, id);
      assert Unrecorded(s', c, t, id);
    }
  }

  /** Nobody is transferring the attempt: no call in flight, no target running. */
  ghost predicate Quiet(s: System, id: int) {
    && (forall c :: c in s.calls && s.calls[c].source == id ==> s.calls[c].phase == Over)
    && (forall t :: !IsTargetOf(s, t, id))
  }

  lemma {:induction false} OrderlyTruthful(s: System, acts: seq<Action>, id: int)
    requires Inv(s) && Legal(s, acts) && OrderlyRun(s, acts, id)
    requires id in s.flags && Truthful(s, id)
    ensures id in After(s, acts).flags && Truthful(After(s, acts), id)
    decreases |acts|
  {
    if acts != [] {
      StepInv(s, acts[0]);
      StepTruthful(s, acts[0], id);
      OrderlyTruthful(Apply(s, acts[0]), acts[1..], id);
    }
  }

  /** When nobody is transferring the attempt, its fields are truthful exactly if it is free. */
  lemma QuietTruth(s: System, id: int)
    requires Quiet(s, id) && id in s.flags
    ensures Truthful(s, id) <==> Free(s.flags[id])
  {
    assert forall c, t :: !Unrecorded(s, c, t, id);
    assert forall c :: !HasReservation(s, c, id);
  }

  lemma BornTruthful(s: System, a: Action, id: int)
    requires Inv(s) && Enabled(s, a) && Creates(a, id)
    ensures Inv(Apply(s, a)) && id in Apply(s, a).flags && Truthful(Apply(s, a), id)
  {
    var s1 := Apply(s, a);
    StepInv(s, a);
    assert forall c, t :: !Unrecorded(s1, c, t, id);
    assert forall t :: !IsTargetOf(s1, t, id);
  }

  /** From the creation of an attempt on, also of one that is itself the target of a
      transfer, on every run that is orderly for it: whenever nobody is transferring it, it
      has no pending flag and no recorded target, and unless it was transferred the next
      call can reserve it. */
  lemma QuietMeansFree(before: seq<Action>, birth: Action, id: int, acts: seq<Action>)
    requires Legal(EMPTY, before) && Enabled(After(EMPTY, before), birth) && Creates(birth, id)
    requires Legal(Apply(After(EMPTY, before), birth), acts)
    requires OrderlyRun(Apply(After(EMPTY, before), birth), acts, id)
    ensures var s := After(Apply(After(EMPTY, before), birth), acts);
            id in s.flags && (Quiet(s, id) ==>
              && Free(s.flags[id])
              && (CanReserve(s.flags[id]) <==> !s.flags[id].transferred))
  {
    RunInv(EMPTY, before);
    BornTruthful(After(EMPTY, before), birth, id);
    var s1 := Apply(After(EMPTY, before), birth);
    OrderlyTruthful(s1, acts, id);
    var s := After(s1, acts);
    if Quiet(s, id) { QuietTruth(s, id); }
  }

  // ---- Exactly when a transfer leaves trouble behind -----------------------------------

  /** However the calls and runs in flight go on, orderly from here, the attempt is free once
      nobody is transferring it. */
  ghost predicate Dependable(s: System, id: int) {
    forall more: seq<Action> :: Legal(s, more) && OrderlyRun(s, more, id) && Quiet(After(s, more), id) ==>
      id in After(s, more).flags && Free(After(s, more).flags[id])
  }

  /** Dependable at every point of the run. */
  ghost predicate AlwaysDependable(s: System, acts: seq<Action>, id: int)
    requires Legal(s, acts)
    decreases |acts|
  {
    Dependable(s, id) && (acts == [] || AlwaysDependable(Apply(s, acts[0]), acts[1..], id))
  }

  /** The calls about `id` that have not returned. */
  function InFlight(s: System, id: int): set<int> {
    set c | c in s.calls && s.calls[c].source == id && s.calls[c].phase != Over
  }

  /** Lets a call on a troubled attempt return: it records its target, or is refused, or
      reserves in vain. */
  lemma Return(s: System, id: int, c: int) returns (acts: seq<Action>)
    requires Inv(s) && id in s.flags && Troubled(s, id) && c in InFlight(s, id)
    requires s.calls[c].phase.Started? || forall c', t :: !Unrecorded(s, c', t, id)
    ensures Legal(s, acts) && OrderlyRun(s, acts, id) && Inv(After(s, acts))
    ensures id in After(s, acts).flags && Troubled(After(s, acts), id)
    ensures InFlight(After(s, acts), id) == InFlight(s, id) - {c}
  {
    assert !HasReservation(s, c, id);
    if s.calls[c].phase.Started? {
      acts := [RecordTarget(c)];
      Chain(s, RecordTarget(c), []);
      StepInv(s, RecordTarget(c));
    } else {
      var t := Apply(s, TryReserve(c));
      StepInv(s, TryReserve(c));
      acts := [TryReserve(c)];
      Chain(s, TryReserve(c), []);
      if CanReserve(s.flags[id]) {
        acts := [TryReserve(c), FailDistribute(c)];
        StepInv(t, FailDistribute(c));
        Chain(t, FailDistribute(c), []);
        Chain(s, TryReserve(c), [FailDistribute(c)]);
      }
    }
    var s' := After(s, acts);
    forall t ensures !IsTargetOf(s', t, id) { assert !IsTargetOf(s, t, id); }
    forall x ensures !HasReservation(s', x, id) { assert !HasReservation(s, x, id); }
  }

  /** A troubled attempt can be left, by orderly steps, neither free nor being transferred. */
  lemma {:induction false} Strand(s: System, id: int) returns (acts: seq<Action>)
    requires Inv(s) && id in s.flags && Troubled(s, id)
    ensures Legal(s, acts) && OrderlyRun(s, acts, id) && Quiet(After(s, acts), id)
    ensures id in After(s, acts).flags && !Free(After(s, acts).flags[id])
    decreases |InFlight(s, id)|
  {
    var calls := InFlight(s, id);
    assert forall c, t :: Unrecorded(s, c, t, id) ==> c in calls;
    if c0 :| c0 in calls {
      var c := c0;
      if c1, t :| Unrecorded(s, c1, t, id) {
        c := c1;
      }
      var first := Return(s, id, c);
      var rest := Strand(After(s, first), id);
      Joined(s, first, rest, id);
      acts := first + rest;
    } else {
      acts := [];
      assert forall c :: c in s.calls && s.calls[c].source == id && s.calls[c].phase != Over ==> c in calls;
    }
  }

  lemma {:induction false} Joined(s: System, first: seq<Action>, rest: seq<Action>, id: int)
    requires Legal(s, first) && OrderlyRun(s, first, id)
    requires Legal(After(s, first), rest) && OrderlyRun(After(s, first), rest, id)
    ensures Legal(s, first + rest) && OrderlyRun(s, first + rest, id)
    ensures After(s, first + rest) == After(After(s, first), rest)
    decreases |first|
  {
    if first == [] {
      assert first + rest == rest;
    } else {
      Joined(Apply(s, first[0]), first[1..], rest, id);
      assert (first + rest)[1..] == first[1..] + rest;
    }
  }

  lemma TruthfulDependable(s: System, id: int)
    requires Inv(s) && id in s.flags && Truthful(s, id)
    ensures Dependable(s, id)
  {
    forall more: seq<Action> | Legal(s, more) && OrderlyRun(s, more, id) && Quiet(After(s, more), id)
      ensures id in After(s, more).flags && Free(After(s, more).flags[id])
    {
      OrderlyTruthful(s, more, id);
      QuietTruth(After(s, more), id);
    }
  }

  lemma {:induction false} OrderlyIffDependable(s: System, acts: seq<Action>, id: int)
    requires Inv(s) && Legal(s, acts) && id in s.flags && Truthful(s, id)
    ensures OrderlyRun(s, acts, id) <==> AlwaysDependable(s, acts, id)
    decreases |acts|
  {
    TruthfulDependable(s, id);
    if acts != [] {
      var s1 := Apply(s, acts[0]);
      StepInv(s, acts[0]);
      StepTruthful(s, acts[0], id);
      if Orderly(s, acts[0], id) {
        OrderlyIffDependable(s1, acts[1..], id);
      } else {
        DisorderlyStep(s, acts[0], id);
        var more := Strand(s1, id);
        assert !Dependable(s1, id);
      }
    }
  }

  /** On every run from the creation of an attempt on, however it was created: at each point
      the attempt is sure to be free once nobody is transferring it, if and only if no target
      of it was barred, ended unrecorded, or ended when the attempt was no longer cached. */
  lemma FreeExactlyWhenOrderly(before: seq<Action>, birth: Action, id: int, acts: seq<Action>)
    requires Legal(EMPTY, before) && Enabled(After(EMPTY, before), birth) && Creates(birth, id)
    requires Legal(Apply(After(EMPTY, before), birth), acts)
    ensures var s := Apply(After(EMPTY, before), birth);
            OrderlyRun(s, acts, id) <==> AlwaysDependable(s, acts, id)
  {
    RunInv(EMPTY, before);
    BornTruthful(After(EMPTY, before), birth, id);
    OrderlyIffDependable(Apply(After(EMPTY, before), birth), acts, id);
  }

  /** Every attempt of every run has such a creation, so that the two theorems are about all. */
  lemma {:induction false} HasBirth(s: System, acts: seq<Action>, id: int) returns (n: nat)
    requires Legal(s, acts) && id !in s.flags && id in After(s, acts).flags
    ensures n < |acts| && Legal(s, acts[..n]) && Enabled(After(s, acts[..n]), acts[n]) && Creates(acts[n], id)
    decreases |acts|
  {
    if Creates(acts[0], id) {
      n := 0;
    } else {
      var m := HasBirth(Apply(s, acts[0]), acts[1..], id);
      n := m + 1;
      assert acts[..n][1..] == acts[1..][..m];
    }
  }

  // ---- What the trouble is ---------------------------------------------------------------

  /** A pending flag nobody owns is never cleared: no call reserves the attempt again. */
  lemma {:induction false} WedgedForever(s: System, acts: seq<Action>, id: int)
    requires Legal(s, acts) && id in s.flags && s.flags[id].pending
    requires forall c :: !HasReservation(s, c, id)
    requires forall t :: !IsTargetOf(s, t, id)
    ensures var s' := After(s, acts);
            id in s'.flags && s'.flags[id].pending && (forall c :: !HasReservation(s', c, id))
    decreases |acts|
  {
    if acts != [] {
      var a := acts[0];
      var s1 := Apply(s, a);
      if a.StartTarget? || a.FailDistribute? { assert !HasReservation(s, a.call, id); }
      if a.EndRun? || a.CompleteTransfer? { assert !IsTargetOf(s, a.target, id); }
      assert forall c :: HasReservation(s1, c, id) ==> HasReservation(s, c, id);
      assert forall t :: IsTargetOf(s1, t, id) ==> IsTargetOf(s, t, id);
      WedgedForever(s1, acts[1..], id);
    }
  }

  const FIRST_TRANSFER :=
    [NewAttempt(1), Lookup(1, 1), TryReserve(1), StartTarget(1, 2), EndRun(2, true), RecordTarget(1)]
  const SECOND_TRANSFER := [Lookup(2, 1), TryReserve(2), FailDistribute(2)]

  /** Attempt 1 is free, but still names the dead target 2. */
  const STALE := System(map[1 := Flags(false, 2, false, 0), 2 := FRESH], map[1 := Call(1, Over)], map[])

  lemma FirstTransferLeavesStale()
    ensures Legal(EMPTY, FIRST_TRANSFER) && After(EMPTY, FIRST_TRANSFER) == STALE
  {
    var s1 := System(map[1 := FRESH], map[], map[]);
    var s2 := s1.(calls := map[1 := Call(1, Looked)]);
    var s3 := System(map[1 := Flags(true, 0, false, 0)], map[1 := Call(1, Reserved)], map[]);
    var s4 := System(map[1 := Flags(true, 0, false, 0), 2 := FRESH], map[1 := Call(1, Started(2))], map[2 := 1]);
    var s5 := System(map[1 := FRESH, 2 := FRESH], map[1 := Call(1, Started(2))], map[]);
    var a := FIRST_TRANSFER;
    assert Apply(s5, a[5]) == STALE;
    assert Apply(s4, a[4]) == s5;
    assert Apply(s3, a[3]) == s4;
    assert Apply(s2, a[2]) == s3;
    Chain(s5, a[5], []);
    Chain(s4, a[4], [a[5]]);
    Chain(s3, a[3], [a[4], a[5]]);
    Chain(s2, a[2], [a[3], a[4], a[5]]);
    Chain(s1, a[1], [a[2], a[3], a[4], a[5]]);
    Chain(EMPTY, a[0], [a[1], a[2], a[3], a[4], a[5]]);
  }

  /** Such runs exist: the target ends before its id is recorded, the second transfer fails,
      and the attempt is wedged although nobody is transferring it. */
  lemma LateRecordWedges()
    ensures Legal(STALE, SECOND_TRANSFER)
    ensures var s := After(STALE, SECOND_TRANSFER); Quiet(s, 1) && 1 in s.flags && s.flags[1].pending
  {
    var a := SECOND_TRANSFER;
    var s7 := STALE.(calls := map[1 := Call(1, Over), 2 := Call(1, Looked)]);
    var s8 := System(map[1 := Flags(true, 2, false, 0), 2 := FRESH],
                     map[1 := Call(1, Over), 2 := Call(1, Reserved)], map[]);
    Chain(s8, a[2], []);
    Chain(s7, a[1], [a[2]]);
    Chain(STALE, a[0], [a[1], a[2]]);
  }

  lemma Chain(s: System, a: Action, rest: seq<Action>)
    requires Enabled(s, a) && Legal(Apply(s, a), rest)
    ensures Legal(s, [a] + rest) && After(s, [a] + rest) == After(Apply(s, a), rest)
  {
    assert ([a] + rest)[1..] == rest;
  }
}
