/** The first half of a predictive call: the member is dialled, over another resource after
    each retry the schema asks for, until an answer is handed over or the attempt leaves. */
module PredictDialing {
  import opened Journals
  import opened Options
  import Offering = OfferingProtocol
  import InboundQueue
  import PredictOffering

  const MAX_RETRY_COUNT := 10

  datatype CallEvent = Cancelled | Answered(human: bool) | HungUp | OtherState

  /** The schema after the call; `success` is its status, `retry` its type. */
  datatype Verdict = NoVerdict | Verdict(success: bool, retry: bool)

  datatype Flipped = FlipError | NoResource | NewResource(id: int, allow: bool)

  /** One reply of the environment; the code reads the part it asked for. */
  datatype Reply = Reply(yes: bool, event: CallEvent, verdict: Verdict, flipped: Flipped)

  datatype Entry =
    | Consent(r: Reply)                                  // DoDistributeSchema
    | Take(resource: int, r: Reply)                      // the rate limit of the resource
    | MakeCall(r: Reply)                                 // NewCall
    | Dial(resource: int, allow: bool)                   // Invite
    | Event(r: Reply)
    | HangupCall
    | Schema(r: Reply)                                   // AfterDistributeSchema
    | Flip(skip: seq<int>, r: Reply)                     // FlipAttemptResource
    | Success
    | Abandon
    | Leave                                              // LeavingMember
    | HandOver                                           // runOfferingAgents

  /** What the log says: the resource in use, whether it may call, the resources to skip,
      the flips that failed, and how many replies were used, how many by selects. */
  datatype Ledger = Ledger(last: Option<Entry>, resource: int, allow: bool, skip: seq<int>, failed: nat,
                           asked: nat, selects: nat)

  function Blank(resource: int): Ledger {
    Ledger(None, resource, true, [], 0, 0, 0)
  }

  predicate Consults(e: Entry) {
    e.Consent? || e.Take? || e.MakeCall? || e.Event? || e.Schema? || e.Flip?
  }

  function Enter(b: Ledger, e: Entry): Ledger {
    var b1 := b.(last := Some(e), asked := if Consults(e) then b.asked + 1 else b.asked,
                 selects := if e.Event? then b.selects + 1 else b.selects);
    if !e.Flip? then b1
    else
      match e.r.flipped
      case NewResource(id, allow) => b1.(resource := id, allow := allow, skip := e.skip)
      case _ => b1.(skip := e.skip, failed := b.failed + 1)
  }

  function Read(resource: int, trace: seq<Entry>): Ledger {
    if trace == [] then Blank(resource) else Enter(Read(resource, trace[..|trace| - 1]), trace[|trace| - 1])
  }

  // ---- The protocol --------------------------------------------------------------------

  datatype Due =
    | Nothing | AskConsent | AskTake | AskCall | TakeEvent | AskSchema | AskFlip(skip: seq<int>) | Do(e: Entry)

  /** The first try counts as one, and every flip starts another. */
  function RetryCounter(b: Ledger): nat {
    1 + |b.skip|
  }

  function AfterVerdict(b: Ledger, v: Verdict): Due {
    match v
    case NoVerdict => Do(Abandon)
    case Verdict(success, retry) =>
      if success then Do(Success)
      else if retry && RetryCounter(b) < MAX_RETRY_COUNT then AskFlip(b.skip + [b.resource])
      else Do(Abandon)
  }

  function DueNext(b: Ledger): Due {
    if b.last.None? then AskConsent
    else
      match b.last.value
      case Consent(r) => if r.yes then AskTake else Do(Leave)
      case Take(_, r) => if r.yes then AskCall else Do(Abandon)
      case MakeCall(r) => if r.yes then Do(Dial(b.resource, b.allow)) else Do(Abandon)
      case Dial(_, _) => TakeEvent
      case Event(r) =>
        (match r.event
         case Cancelled => Do(HangupCall)
         case Answered(human) => if human then Do(HandOver) else TakeEvent
         case HungUp => AskSchema
         case OtherState => TakeEvent)
      case HangupCall => TakeEvent
      case Schema(r) => AfterVerdict(b, r.verdict)
      case Flip(_, r) =>
        // one more verdict is sought after the first failed flip, and no more after the second
        if r.flipped.NewResource? then AskTake else if b.failed >= 2 then Do(Abandon) else AskSchema
      case Success => Do(Leave)
      case Abandon => Do(Leave)
      case _ => Nothing
  }

  predicate Meets(b: Ledger, due: Due, e: Entry) {
    match due
    case Nothing => false
    case AskConsent => e.Consent?
    case AskTake => e.Take? && e.resource == b.resource
    case AskCall => e.MakeCall?
    case TakeEvent => e.Event?
    case AskSchema => e.Schema?
    case AskFlip(skip) => e.Flip? && e.skip == skip
    case Do(d) => e == d
  }

  /** Every entry is the one that was due, and every reading is the next reply. */
  ghost predicate Conforms(resource: int, env: nat -> Reply, trace: seq<Entry>) {
    trace == [] ||
    var before, e := trace[..|trace| - 1], trace[|trace| - 1];
    && Conforms(resource, env, before)
    && Meets(Read(resource, before), DueNext(Read(resource, before)), e)
    && (Consults(e) ==> e.r == env(Read(resource, before).asked))
  }

  // ---- What the protocol guarantees ----------------------------------------------------

  function Also(dialled: seq<int>, e: Entry): seq<int> {
    if e.Dial? then dialled + [e.resource] else dialled
  }

  /** The resources dialled, in order. */
  function Dialled(trace: seq<Entry>): seq<int> {
    if trace == [] then [] else Also(Dialled(trace[..|trace| - 1]), trace[|trace| - 1])
  }

  predicate Ends(e: Entry) {
    e.Leave? || e.HandOver?
  }

  function CountEnds(trace: seq<Entry>): nat {
    if trace == [] then 0
    else CountEnds(trace[..|trace| - 1]) + if Ends(trace[|trace| - 1]) then 1 else 0
  }

  function CountOutcomes(trace: seq<Entry>): nat {
    if trace == [] then 0
    else
      var e := trace[|trace| - 1];
      CountOutcomes(trace[..|trace| - 1]) + if e.Success? || e.Abandon? then 1 else 0
  }

  predicate Over(b: Ledger) {
    b.last.Some? && (b.last.value.Success? || b.last.value.Abandon? || Ends(b.last.value))
  }

  /** The resource at hand is still to be dialled. */
  predicate Undialled(b: Ledger) {
    b.last.None? ||
    match b.last.value
    case Consent(_) => true
    case Take(_, _) => true
    case MakeCall(_) => true
    case Flip(_, r) => r.flipped.NewResource?
    case _ => false
  }

  ghost predicate Counted(b: Ledger, dialled: seq<int>) {
    && |b.skip| < MAX_RETRY_COUNT
    && |dialled| + b.failed <= |b.skip| + 1
    && (Undialled(b) ==> |dialled| + b.failed <= |b.skip|)
    && b.failed <= if Over(b) || (b.last.Some? && b.last.value.Flip? && !Undialled(b)) then 2 else 1
  }

  lemma StepCounted(b: Ledger, dialled: seq<int>, e: Entry)
    requires Counted(b, dialled) && Meets(b, DueNext(b), e)
    ensures Counted(Enter(b, e), Also(dialled, e))
  {
  }

  lemma {:induction false} RunCounted(resource: int, env: nat -> Reply, trace: seq<Entry>)
    requires Conforms(resource, env, trace)
    ensures Counted(Read(resource, trace), Dialled(trace))
  {
    if trace != [] {
      RunCounted(resource, env, trace[..|trace| - 1]);
      StepCounted(Read(resource, trace[..|trace| - 1]), Dialled(trace[..|trace| - 1]), trace[|trace| - 1]);
    }
  }

  /** No sequence of verdicts and flips makes a run place more than ten calls. */
  lemma AtMostTenCalls(resource: int, env: nat -> Reply, trace: seq<Entry>)
    requires Conforms(resource, env, trace)
    ensures |Dialled(trace)| <= 10
  {
    RunCounted(resource, env, trace);
  }

  /** The skip list holds dialled resources only, and all of them but the one in use. */
  ghost predicate Covered(b: Ledger, dialled: seq<int>) {
    && (forall x :: x in b.skip ==> x in dialled)
    && (forall x :: x in dialled ==> x in b.skip || (x == b.resource && !Undialled(b)))
    && (!Undialled(b) && !Over(b) ==> b.resource in dialled)
  }

  lemma StepCovered(b: Ledger, dialled: seq<int>, e: Entry)
    requires Covered(b, dialled) && Meets(b, DueNext(b), e)
    ensures Covered(Enter(b, e), Also(dialled, e))
  {
  }

  lemma {:induction false} RunCovered(resource: int, env: nat -> Reply, trace: seq<Entry>)
    requires Conforms(resource, env, trace)
    ensures Covered(Read(resource, trace), Dialled(trace))
  {
    if trace != [] {
      RunCovered(resource, env, trace[..|trace| - 1]);
      StepCovered(Read(resource, trace[..|trace| - 1]), Dialled(trace[..|trace| - 1]), trace[|trace| - 1]);
    }
  }

  lemma {:induction false} ConformsPrefix(resource: int, env: nat -> Reply, trace: seq<Entry>, n: nat)
    requires Conforms(resource, env, trace) && n <= |trace|
    ensures Conforms(resource, env, trace[..n])
    ensures n < |trace| ==> Meets(Read(resource, trace[..n]), DueNext(Read(resource, trace[..n])), trace[n])
    decreases |trace| - n
  {
    if n < |trace| {
      ConformsPrefix(resource, env, trace, n + 1);
      assert trace[..n + 1][..n] == trace[..n];
    } else {
      assert trace[..n] == trace;
    }
  }

  /** Whenever another resource is asked for, the skip list names exactly the resources
      dialled until then. */
  lemma SkipsEveryDialled(resource: int, env: nat -> Reply, trace: seq<Entry>, i: nat)
    requires Conforms(resource, env, trace) && i < |trace| && trace[i].Flip?
    ensures forall x :: x in trace[i].skip <==> x in Dialled(trace[..i])
  {
    ConformsPrefix(resource, env, trace, i);
    RunCovered(resource, env, trace[..i]);
  }

  /** The store answers a flip with a resource outside the skip list. */
  ghost predicate Honoured(trace: seq<Entry>) {
    forall i :: 0 <= i < |trace| && trace[i].Flip? && trace[i].r.flipped.NewResource? ==>
      trace[i].r.flipped.id !in trace[i].skip
  }

  ghost predicate NoneTwice(ids: seq<int>) {
    forall i, j :: 0 <= i < j < |ids| ==> ids[i] != ids[j]
  }

  lemma StepNoneTwice(b: Ledger, dialled: seq<int>, e: Entry)
    requires Covered(b, dialled) && NoneTwice(dialled) && Meets(b, DueNext(b), e)
    requires Undialled(b) ==> b.resource !in dialled
    requires e.Flip? && e.r.flipped.NewResource? ==> e.r.flipped.id !in e.skip
    ensures NoneTwice(Also(dialled, e))
    ensures Undialled(Enter(b, e)) ==> Enter(b, e).resource !in Also(dialled, e)
  {
  }

  /** Then no resource is dialled twice. */
  lemma {:induction false} NoResourceTwice(resource: int, env: nat -> Reply, trace: seq<Entry>)
    requires Conforms(resource, env, trace) && Honoured(trace)
    ensures NoneTwice(Dialled(trace))
    ensures Undialled(Read(resource, trace)) ==> Read(resource, trace).resource !in Dialled(trace)
  {
    if trace != [] {
      var before, e := trace[..|trace| - 1], trace[|trace| - 1];
      assert Honoured(before) by {
        forall i | 0 <= i < |before| && before[i].Flip? && before[i].r.flipped.NewResource?
          ensures before[i].r.flipped.id !in before[i].skip
        {
          assert trace[i] == before[i];
        }
      }
      NoResourceTwice(resource, env, before);
      RunCovered(resource, env, before);
      StepNoneTwice(Read(resource, before), Dialled(before), e);
    }
  }

  /** How long a log can be at most, by its last entry. */
  function Reach(b: Ledger): int {
    5 * |b.skip| + 2 * b.selects +
    if b.last.None? then 0
    else
      match b.last.value
      case Consent(_) => 1
      case Take(_, _) => 2
      case MakeCall(_) => 3
      case Dial(_, _) => 4
      case Event(_) => 3
      case HangupCall => 4
      case Schema(_) => 5
      case Flip(_, _) => 1
      case Success => 6
      case Abandon => 6
      case _ => 7
  }

  lemma StepReach(b: Ledger, e: Entry)
    requires Meets(b, DueNext(b), e)
    ensures Reach(b) + 1 <= Reach(Enter(b, e))
  {
  }

  lemma {:induction false} RunReach(resource: int, env: nat -> Reply, trace: seq<Entry>)
    requires Conforms(resource, env, trace)
    ensures |trace| <= Reach(Read(resource, trace))
  {
    if trace != [] {
      RunReach(resource, env, trace[..|trace| - 1]);
      StepReach(Read(resource, trace[..|trace| - 1]), trace[|trace| - 1]);
    }
  }

  /** The backward jumps cannot keep a run busy: all but 52 of its steps are a select or the
      hangup that answers one. */
  lemma NoBusyRun(resource: int, env: nat -> Reply, trace: seq<Entry>)
    requires Conforms(resource, env, trace)
    ensures |trace| <= 2 * Read(resource, trace).selects + 52
  {
    RunReach(resource, env, trace);
    RunCounted(resource, env, trace);
  }

  predicate Refused(trace: seq<Entry>) {
    trace != [] && trace[0].Consent? && !trace[0].r.yes
  }

  lemma {:induction false} RunOutcomes(resource: int, env: nat -> Reply, trace: seq<Entry>)
    requires Conforms(resource, env, trace)
    ensures trace != [] ==> trace[0].Consent?
    ensures Refused(trace) ==> |trace| == 1 || trace[|trace| - 1].Leave?
    ensures CountEnds(trace) == if trace != [] && Ends(trace[|trace| - 1]) then 1 else 0
    ensures CountOutcomes(trace) ==
            if Over(Read(resource, trace)) && !trace[|trace| - 1].HandOver? && !Refused(trace) then 1 else 0
  {
    if trace != [] {
      RunOutcomes(resource, env, trace[..|trace| - 1]);
    }
  }

  /** A finished run either handed the call over or left, once; it left with exactly one
      outcome, or with none when the schema refused the attempt before it was dialled. */
  lemma OneEnding(resource: int, env: nat -> Reply, trace: seq<Entry>)
    requires Conforms(resource, env, trace) && trace != [] && Ends(trace[|trace| - 1])
    ensures CountEnds(trace) == 1
    ensures CountOutcomes(trace) == if trace[|trace| - 1].HandOver? || Refused(trace) then 0 else 1
  {
    RunOutcomes(resource, env, trace);
  }

  // ---- The run -------------------------------------------------------------------------

  type Log = Journal<Entry, Ledger>

  ghost predicate Kept(resource: int, env: nat -> Reply, log: Log) {
    forall x: Log {:trigger Opened(x)} :: Opened(x) && x == log ==>
      && Conforms(resource, env, x.trace)
      && x.b == Read(resource, x.trace)
      && (x.trace != [] ==> x.b.last == Some(x.trace[|x.trace| - 1]))
      && (x.trace == [] ==> x.b.last == None)
  }

  lemma Open(resource: int, env: nat -> Reply, log: Log)
    requires Kept(resource, env, log) && log.b.last.Some?
    ensures Conforms(resource, env, log.trace) && log.b == Read(resource, log.trace)
    ensures log.trace != [] && log.trace[|log.trace| - 1] == log.b.last.value
  {
    assert Opened(log);
  }

  function Put(ghost resource: int, env: nat -> Reply, log: Log, e: Entry): (r: Log)
    requires Kept(resource, env, log)
    requires Meets(log.b, DueNext(log.b), e) && (Consults(e) ==> e.r == env(log.b.asked))
    ensures Kept(resource, env, r) && r.b == Enter(log.b, e)
  {
    assert Opened(log);
    Appended(log.trace, e);
    Journal(log.trace + [e], Enter(log.b, e))
  }

  datatype End = Blocked | Left | HandedOver(offered: seq<Offering.Entry>, end: InboundQueue.End)

  /** Runs until it leaves, hands over, or has nothing left to select. */
  method RunPark(resource: int, env: nat -> Reply, answered: nat -> Offering.Reply, limit: nat)
    returns (trace: seq<Entry>, end: End)
    ensures Conforms(resource, env, trace) && trace != []
    ensures end == Blocked <==> !Ends(trace[|trace| - 1])
    ensures end == Blocked ==> Read(resource, trace).selects == limit && DueNext(Read(resource, trace)) == TakeEvent
    ensures end.Left? <==> trace[|trace| - 1].Leave?
    ensures end.HandedOver? ==> Offering.Conforms(Offering.Predictive, answered, end.offered)
    ensures end.HandedOver? && end.end.Ended? ==> Offering.CountEnds(end.offered) == 1
  {
    var log := Journal([], Blank(resource));
    var r := env(0);
    log := Put(resource, env, log, Consent(r));
    if !r.yes {
      log := Put(resource, env, log, Leave);
      Open(resource, env, log);
      return log.trace, Left;
    }

    var current, allowCall, retryCounter, resourceIds, lastExec := resource, true, 1, [], false;
    while true
      invariant Kept(resource, env, log) && DueNext(log.b) == AskTake && log.b.selects <= limit
      invariant current == log.b.resource && allowCall == log.b.allow && resourceIds == log.b.skip
      invariant retryCounter == RetryCounter(log.b) <= MAX_RETRY_COUNT && log.b.failed == if lastExec then 1 else 0
      decreases MAX_RETRY_COUNT - retryCounter
    {
      var placed;
      log, placed := PlaceCall(resource, env, log, current, allowCall);
      if !placed {
        log := Put(resource, env, log, Leave);
        Open(resource, env, log);
        return log.trace, Left;
      }
      log := Await(resource, env, limit, log);
      if DueNext(log.b) == TakeEvent {
        Open(resource, env, log);
        return log.trace, Blocked;
      }
      if DueNext(log.b) == Do(HandOver) {
        log := Put(resource, env, log, HandOver);
        end := OfferAgents(answered, limit);
        Open(resource, env, log);
        return log.trace, end;
      }
      log, current, allowCall, retryCounter, resourceIds, lastExec :=
        Judge(resource, env, log, current, allowCall, retryCounter, resourceIds, lastExec);
      if log.b.last.value.Leave? {
        Open(resource, env, log);
        return log.trace, Left;
      }
    }
  }

  method OfferAgents(answered: nat -> Offering.Reply, limit: nat) returns (end: End)
    ensures end.HandedOver? && Offering.Conforms(Offering.Predictive, answered, end.offered)
    ensures end.end.Ended? ==> Offering.CountEnds(end.offered) == 1
  {
    var offered, how := PredictOffering.RunOfferingAgents(answered, limit);
    if how == InboundQueue.Ended {
      Offering.SettledAtTheEnd(Offering.Predictive, answered, offered);
    }
    end := HandedOver(offered, how);
  }

  /** Takes the resource and places the call; if it cannot, the attempt is abandoned. */
  method PlaceCall(ghost resource: int, env: nat -> Reply, log0: Log, current: int, allowCall: bool)
    returns (log: Log, placed: bool)
    requires Kept(resource, env, log0) && DueNext(log0.b) == AskTake
    requires current == log0.b.resource && allowCall == log0.b.allow
    ensures Kept(resource, env, log) && log.b.selects == log0.b.selects
    ensures DueNext(log.b) == if placed then TakeEvent else Do(Leave)
    ensures placed ==> log.b.(last := None, asked := 0) == log0.b.(last := None, asked := 0)
  {
    var r := env(log0.b.asked);
    log := Put(resource, env, log0, Take(current, r));
    if !r.yes {
      log := Put(resource, env, log, Abandon);
      return log, false;
    }
    r := env(log.b.asked);
    log := Put(resource, env, log, MakeCall(r));
    if !r.yes {
      log := Put(resource, env, log, Abandon);
      return log, false;
    }
    log := Put(resource, env, log, Dial(current, allowCall));
    return log, true;
  }

  /** Selects until the call is answered or hung up. */
  method Await(ghost resource: int, env: nat -> Reply, limit: nat, log0: Log) returns (log: Log)
    requires Kept(resource, env, log0) && DueNext(log0.b) == TakeEvent && log0.b.selects <= limit
    ensures Kept(resource, env, log) && log0.b.selects <= log.b.selects <= limit
    ensures DueNext(log.b) in {TakeEvent, Do(HandOver), AskSchema}
    ensures DueNext(log.b) == TakeEvent ==> log.b.selects == limit
    ensures log.b.(last := None, asked := 0, selects := 0) == log0.b.(last := None, asked := 0, selects := 0)
  {
    log := log0;
    var calling := true;
    while calling && log.b.selects < limit
      invariant Kept(resource, env, log) && log0.b.selects <= log.b.selects <= limit
      invariant DueNext(log.b) in {TakeEvent, Do(HandOver), AskSchema} && (calling <==> DueNext(log.b) == TakeEvent)
      invariant log.b.(last := None, asked := 0, selects := 0) == log0.b.(last := None, asked := 0, selects := 0)
      decreases limit - log.b.selects
    {
      var r := env(log.b.asked);
      log := Put(resource, env, log, Event(r));
      match r.event {
        case Cancelled => log := Put(resource, env, log, HangupCall);
        case Answered(human) => calling := !human;
        case HungUp => calling := false;
        case OtherState =>
      }
    }
  }

  /** Asks the schema, and after a failed flip once more; the run then goes on with another
      resource or has left. */
  method Judge(ghost resource: int, env: nat -> Reply, log0: Log, current0: int, allowCall0: bool, retryCounter0: nat,
               resourceIds0: seq<int>, lastExec0: bool)
    returns (log: Log, current: int, allowCall: bool, retryCounter: nat, resourceIds: seq<int>, lastExec: bool)
    requires Kept(resource, env, log0) && DueNext(log0.b) == AskSchema
    requires current0 == log0.b.resource && allowCall0 == log0.b.allow && resourceIds0 == log0.b.skip
    requires retryCounter0 == RetryCounter(log0.b) <= MAX_RETRY_COUNT && log0.b.failed == if lastExec0 then 1 else 0
    ensures Kept(resource, env, log) && log.b.selects == log0.b.selects && log.b.last.Some?
    ensures log.b.last.value.Leave? || DueNext(log.b) == AskTake
    ensures !log.b.last.value.Leave? ==> current == log.b.resource && allowCall == log.b.allow
    ensures !log.b.last.value.Leave? ==> resourceIds == log.b.skip
    ensures !log.b.last.value.Leave? ==> log.b.failed == if lastExec then 1 else 0
    ensures !log.b.last.value.Leave? ==> retryCounter0 < retryCounter == RetryCounter(log.b) <= MAX_RETRY_COUNT
  {
    log, current, allowCall, retryCounter, resourceIds, lastExec :=
      log0, current0, allowCall0, retryCounter0, resourceIds0, lastExec0;
    while true
      invariant Kept(resource, env, log) && DueNext(log.b) == AskSchema && log.b.selects == log0.b.selects
      invariant current == log.b.resource && allowCall == log.b.allow && resourceIds == log.b.skip
      invariant retryCounter0 <= retryCounter == RetryCounter(log.b) <= MAX_RETRY_COUNT
      invariant log.b.failed == if lastExec then 1 else 0
      decreases MAX_RETRY_COUNT - retryCounter
    {
      var r := env(log.b.asked);
      log := Put(resource, env, log, Schema(r));
      if r.verdict.NoVerdict? {
        log := Put(resource, env, log, Abandon);
        break;
      } else if r.verdict.success {
        log := Put(resource, env, log, Success);
        break;
      } else if r.verdict.retry && retryCounter < MAX_RETRY_COUNT {
        resourceIds := resourceIds + [current];
        r := env(log.b.asked);
        log := Put(resource, env, log, Flip(resourceIds, r));
        retryCounter := retryCounter + 1;
        if r.flipped.NewResource? {
          current, allowCall := r.flipped.id, r.flipped.allow;
          return;
        } else if lastExec {
          log := Put(resource, env, log, Abandon);
          break;
        } else {
          lastExec := true;
        }
      } else {
        log := Put(resource, env, log, Abandon);
        break;
      }
    }
    log := Put(resource, env, log, Leave);
  }
}
