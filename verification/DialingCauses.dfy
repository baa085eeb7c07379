/** Why each entry of a dialling run is there, read off the entries before it. */
module DialingCauses {
  import opened Options
  import opened PredictDialing

  function Before(trace: seq<Entry>): Option<Entry> {
    if trace == [] then None else Some(trace[|trace| - 1])
  }

  function Flips(trace: seq<Entry>): nat {
    if trace == [] then 0 else Flips(trace[..|trace| - 1]) + if trace[|trace| - 1].Flip? then 1 else 0
  }

  predicate FlipFails(e: Entry) {
    e.Flip? && !e.r.flipped.NewResource?
  }

  function FailedFlips(trace: seq<Entry>): nat {
    if trace == [] then 0 else FailedFlips(trace[..|trace| - 1]) + if FlipFails(trace[|trace| - 1]) then 1 else 0
  }

  /** The resource of the last flip that gave one, and whether it may call; at first the
      attempt's own resource, which may. */
  function InUse(resource: int, trace: seq<Entry>): (int, bool) {
    if trace == [] then (resource, true)
    else
      var e := trace[|trace| - 1];
      if e.Flip? && e.r.flipped.NewResource? then (e.r.flipped.id, e.r.flipped.allow)
      else InUse(resource, trace[..|trace| - 1])
  }

  /** The resources in use at the flips, in their order. */
  function UsedUp(resource: int, trace: seq<Entry>): seq<int> {
    if trace == [] then []
    else
      var before := trace[..|trace| - 1];
      UsedUp(resource, before) + if trace[|trace| - 1].Flip? then [InUse(resource, before).0] else []
  }

  predicate CallEvent(p: Option<Entry>, event: PredictDialing.CallEvent) {
    p.Some? && p.value.Event? && p.value.r.event == event
  }

  predicate Judged(p: Option<Entry>, verdict: Verdict) {
    p.Some? && p.value.Schema? && p.value.r.verdict == verdict
  }

  const RETRY := Verdict(false, true)

  /** What must have come before an entry. A retry is granted nine times at most, and after a
      flip that fails the schema is asked once more, but only once. */
  predicate Allowed(resource: int, trace: seq<Entry>, e: Entry) {
    var p := Before(trace);
    match e
    case Consent(_) => p == None
    case Take(res, _) =>
      && res == InUse(resource, trace).0
      && p.Some? && ((p.value.Consent? && p.value.r.yes) || (p.value.Flip? && p.value.r.flipped.NewResource?))
    case MakeCall(_) => p.Some? && p.value.Take? && p.value.r.yes
    case Dial(res, allow) =>
      p.Some? && p.value.MakeCall? && p.value.r.yes && (res, allow) == InUse(resource, trace)
    case Event(_) =>
      || (p.Some? && (p.value.Dial? || p.value.HangupCall?))
      || CallEvent(p, Answered(false))
      || CallEvent(p, OtherState)
    case HangupCall => CallEvent(p, Cancelled)
    case HandOver => CallEvent(p, Answered(true))
    case Schema(_) => CallEvent(p, HungUp) || (p.Some? && FlipFails(p.value) && FailedFlips(trace) < 2)
    case Flip(skip, _) =>
      Judged(p, RETRY) && Flips(trace) < 9 && skip == UsedUp(resource, trace) + [InUse(resource, trace).0]
    case Success => p.Some? && p.value.Schema? && p.value.r.verdict.Verdict? && p.value.r.verdict.success
    case Abandon =>
      || (p.Some? && (p.value.Take? || p.value.MakeCall?) && !p.value.r.yes)
      || Judged(p, NoVerdict)
      || Judged(p, Verdict(false, false))
      || (Judged(p, RETRY) && Flips(trace) >= 9)
      || (p.Some? && FlipFails(p.value) && FailedFlips(trace) >= 2)
    case Leave => p.Some? && (p.value.Success? || p.value.Abandon? || (p.value.Consent? && !p.value.r.yes))
  }

  ghost predicate Tells(resource: int, trace: seq<Entry>) {
    var b := Read(resource, trace);
    && b.last == Before(trace)
    && (b.resource, b.allow) == InUse(resource, trace)
    && b.skip == UsedUp(resource, trace) && |b.skip| == Flips(trace)
    && b.failed == FailedFlips(trace)
  }

  lemma {:induction false} LedgerTells(resource: int, env: nat -> Reply, trace: seq<Entry>)
    requires Conforms(resource, env, trace)
    ensures Tells(resource, trace)
  {
    if trace != [] {
      LedgerTells(resource, env, trace[..|trace| - 1]);
    }
  }

  predicate OfVerdict(p: Option<Entry>) {
    p.Some? && (p.value.Schema? || p.value.Flip?)
  }

  lemma DueAfterVerdict(resource: int, trace: seq<Entry>, e: Entry)
    requires Tells(resource, trace) && OfVerdict(Before(trace))
    ensures Meets(Read(resource, trace), DueNext(Read(resource, trace)), e) <==> Allowed(resource, trace, e)
  {
  }

  lemma DueOtherwise(resource: int, trace: seq<Entry>, e: Entry)
    requires Tells(resource, trace) && !OfVerdict(Before(trace))
    ensures Meets(Read(resource, trace), DueNext(Read(resource, trace)), e) <==> Allowed(resource, trace, e)
  {
  }

  /** What is due, in terms of the same. */
  lemma DueExactly(resource: int, trace: seq<Entry>, e: Entry)
    requires Tells(resource, trace)
    ensures Meets(Read(resource, trace), DueNext(Read(resource, trace)), e) <==> Allowed(resource, trace, e)
  {
    if OfVerdict(Before(trace)) {
      DueAfterVerdict(resource, trace, e);
    } else {
      DueOtherwise(resource, trace, e);
    }
  }

  /** In every run each entry has its cause, and a run may go on with an entry, with the next
      reply, exactly if it has. */
  lemma EveryEntryHasItsCause(resource: int, env: nat -> Reply, trace: seq<Entry>, e: Entry)
    requires Conforms(resource, env, trace)
    ensures Conforms(resource, env, trace + [e]) <==>
            Allowed(resource, trace, e) && (Consults(e) ==> e.r == env(Read(resource, trace).asked))
  {
    assert (trace + [e])[..|trace|] == trace;
    LedgerTells(resource, env, trace);
    DueExactly(resource, trace, e);
  }

  // ---- Ten calls do happen -------------------------------------------------------------

  /** Every call is hung up, the schema always asks for a retry, and there is always another
      resource. */
  const STUBBORN: nat -> Reply := _ => Reply(true, HungUp, RETRY, NewResource(1, true))

  lemma Extend(trace: seq<Entry>, e: Entry) returns (longer: seq<Entry>)
    requires Conforms(1, STUBBORN, trace) && Allowed(1, trace, e) && (Consults(e) ==> e.r == STUBBORN(0))
    ensures Conforms(1, STUBBORN, longer) && longer == trace + [e] && longer[..|trace|] == trace
    ensures Dialled(longer) == Also(Dialled(trace), e)
    ensures Flips(longer) == Flips(trace) + if e.Flip? then 1 else 0
    ensures InUse(1, longer).0 == if e.Flip? && e.r.flipped.NewResource? then e.r.flipped.id else InUse(1, trace).0
    ensures InUse(1, longer).1 == if e.Flip? && e.r.flipped.NewResource? then e.r.flipped.allow else InUse(1, trace).1
  {
    longer := trace + [e];
    assert longer[..|trace|] == trace;
    EveryEntryHasItsCause(1, STUBBORN, trace, e);
  }

  /** From a resource about to be taken to the verdict on its call. */
  lemma OneCall(trace: seq<Entry>) returns (longer: seq<Entry>)
    requires Conforms(1, STUBBORN, trace) && InUse(1, trace) == (1, true)
    requires Allowed(1, trace, Take(1, STUBBORN(0)))
    ensures Conforms(1, STUBBORN, longer) && InUse(1, longer) == (1, true) && Flips(longer) == Flips(trace)
    ensures |Dialled(longer)| == |Dialled(trace)| + 1 && Before(longer) == Some(Schema(STUBBORN(0)))
  {
    longer := Placed(trace);
    longer := Extend(longer, Event(STUBBORN(0)));
    longer := Extend(longer, Schema(STUBBORN(0)));
  }

  lemma Placed(trace: seq<Entry>) returns (longer: seq<Entry>)
    requires Conforms(1, STUBBORN, trace) && InUse(1, trace) == (1, true)
    requires Allowed(1, trace, Take(1, STUBBORN(0)))
    ensures Conforms(1, STUBBORN, longer) && InUse(1, longer) == (1, true) && Flips(longer) == Flips(trace)
    ensures |Dialled(longer)| == |Dialled(trace)| + 1 && Before(longer) == Some(Dial(1, true))
  {
    longer := Extend(trace, Take(1, STUBBORN(0)));
    longer := Extend(longer, MakeCall(STUBBORN(0)));
    longer := Extend(longer, Dial(1, true));
  }

  lemma {:induction false} Calls(n: nat) returns (trace: seq<Entry>)
    requires 1 <= n <= 10
    ensures Conforms(1, STUBBORN, trace) && InUse(1, trace) == (1, true) && Flips(trace) == n - 1
    ensures |Dialled(trace)| == n && Before(trace) == Some(Schema(STUBBORN(0)))
  {
    if n == 1 {
      trace := Extend([], Consent(STUBBORN(0)));
    } else {
      trace := Calls(n - 1);
      trace := Extend(trace, Flip(UsedUp(1, trace) + [1], STUBBORN(0)));
    }
    trace := OneCall(trace);
  }

  /** Ten calls are placed, after which the run abandons although a retry was asked for. */
  lemma TenCallsHappen() returns (trace: seq<Entry>)
    ensures Conforms(1, STUBBORN, trace) && |Dialled(trace)| == 10 && Before(trace) == Some(Abandon)
  {
    trace := Calls(10);
    trace := Extend(trace, Abandon);
  }
}
