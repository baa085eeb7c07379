/** The offering loops as one flat protocol: after everything logged so far, exactly one
    entry may come next. The environment (both call legs, timers, store, flows, other
    goroutines) is a stream of arbitrary replies, and each reading of it is logged too. */
module OfferingProtocol {
  import opened Journals
  import opened Options

  datatype Kind = Inbound | Predictive

  datatype OuterEvent = Timeout | ContextDone | Cancelled | MemberHangup | MemberBridge | MemberOther | AgentDistributed

  datatype InnerEvent =
    | CancelledInside
    | AgentRinging | AgentAccept | AgentBridge | AgentHangup | AgentOther
    | MemberBridgeInside | MemberHangupInside | MemberOtherInside

  /** One reply of the environment; the code reads the part it asked for. */
  datatype Reply = Reply(yes: bool, outer: OuterEvent, inner: InnerEvent, agent: nat)

  datatype Question =
    | StoreReady             // the attempt was marked as looking for an agent
    | MemberUp               // the member leg has no hangup time
    | TeamFound
    | RaceOpen               // the member leg has no hangup cause
    | LegsUp                 // neither leg has a hangup cause
    | BridgeDone             // the gateway bridged the legs
    | ShowsBridged           // the attempt is to be marked bridged: it is not yet (and no transfer is processed)
    | LegUpAtAccept          // the agent leg has no hangup time
    | TransferredTo          // the agent leg was transferred to a leg that is known and up
    | TransferSaved          // the new agent took over the attempt
    | ToAttempt              // the member leg was transferred to another attempt
    | FromCall | AttendedOrProcessing | CallFound
    | LegUpAtHangup          // the same; inbound, the member leg is also not an outbound one transferred here
    | MemberBridged
    | LegUnused              // never bridged, and the agent leg is still up
    | LegBridged             // the agent leg has a bridge time
    | MarkMissed             // ShouldMarkAsMissed
    | MemberWaits            // the member leg is up and not bridged
    | MarkKept               // the bridge time, read once more at the end
    | SchemaAnswered         // SendAfterDistributeSchema

  datatype Cause = LoseRace | Clearing | OriginatorCancel

  datatype Place = AtWait | AtEnd | Inside

  datatype Entry =
    | Wait                                               // the outer loop selects
    | Outer(r: Reply)
    | Inner(r: Reply)
    | Asked(q: Question, r: Reply)
    | StartLeg(leg: nat, agent: nat)                     // an agent leg is invited or taken over
    | Offering(leg: nat, agent: nat)
    | Bridged(leg: nat, agent: nat)
    | HangupLeg(leg: nat, agent: nat, cause: Cause)
    | HangupUnused(leg: nat, agent: nat)
    | HangupMember(place: Place)
    | Missed(leg: nat, agent: nat)                       // MissedAgentAndWaitingAttempt
    | PutBack(leg: nat, agent: nat)                      // WaitingAgentAndWaitingAttempt
    | PassedOn(leg: nat, agent: nat)                     // replaced by the leg it was transferred to
    | Forward(leg: nat, agent: nat)                      // the member moved on to another attempt
    | Report(leg: nat, agent: nat)                       // Reporting
    | LosePredict                                        // LosePredictAgent
    | AfterSchema                                        // the schema answer is the result
    | Abandon

  /** What the log says: its last entry, the legs started, the open leg and its agent (or
      the agent the next leg is for), and how many replies were used, how many by selects. */
  datatype Ledger = Ledger(last: Option<Entry>, legs: nat, open: Option<nat>, agent: nat, asked: nat, selects: nat)

  const BLANK := Ledger(None, 0, None, 0, 0, 0)

  predicate Discharges(e: Entry) {
    e.Missed? || e.PutBack? || e.PassedOn? || e.Forward? || e.Report?
  }

  predicate Ends(e: Entry) {
    e.Forward? || e.Report? || e.AfterSchema? || e.Abandon?
  }

  predicate Consults(e: Entry) {
    e.Outer? || e.Inner? || e.Asked?
  }

  function Enter(b: Ledger, e: Entry): Ledger {
    var b1 := b.(last := Some(e), asked := if Consults(e) then b.asked + 1 else b.asked,
                 selects := if e.Outer? || e.Inner? then b.selects + 1 else b.selects);
    match e
    case StartLeg(l, a) => b1.(legs := b.legs + 1, open := Some(l), agent := a)
    case Outer(r) => if r.outer == AgentDistributed then b1.(agent := r.agent) else b1
    case Asked(q, r) => if q == TransferSaved && r.yes then b1.(agent := r.agent) else b1
    case _ => if Discharges(e) then b1.(open := None) else b1
  }

  function Read(trace: seq<Entry>): Ledger {
    if trace == [] then BLANK else Enter(Read(trace[..|trace| - 1]), trace[|trace| - 1])
  }

  // ---- The protocol --------------------------------------------------------------------

  datatype Due = Nothing | TakeOuter | TakeInner | Ask(q: Question) | Do(e: Entry)

  function Leg(b: Ledger): nat {
    if b.open.Some? then b.open.value else 0
  }

  function AfterLoop(k: Kind): Due {
    if k == Predictive then Ask(LegUnused) else Ask(LegBridged)
  }

  function NoReport(k: Kind): Due {
    if k == Predictive then Do(LosePredict) else Ask(SchemaAnswered)
  }

  function Finish(k: Kind, b: Ledger): Due {
    if b.open.Some? then Ask(MarkKept) else NoReport(k)
  }

  function AfterOuter(k: Kind, b: Ledger, event: OuterEvent): Due {
    match event
    case AgentDistributed => Ask(TeamFound)
    case MemberHangup => Finish(k, b)
    case MemberBridge => Do(Wait)
    case MemberOther => Do(Wait)
    case Cancelled => if k == Predictive then Do(HangupMember(AtWait)) else Finish(k, b)
    case _ => if k == Predictive then Do(HangupMember(AtEnd)) else Finish(k, b)
  }

  function AfterInner(k: Kind, b: Ledger, event: InnerEvent): Due {
    match event
    case CancelledInside => if k == Predictive then Do(HangupMember(Inside)) else AfterLoop(k)
    case AgentRinging => Do(Offering(Leg(b), b.agent))
    case AgentAccept => Ask(BridgeDone)
    case AgentBridge => if k == Inbound then Ask(ShowsBridged) else Ask(LegsUp)
    case AgentHangup => Ask(TransferredTo)
    case MemberBridgeInside => if k == Inbound then Ask(ShowsBridged) else Do(Bridged(Leg(b), b.agent))
    case MemberHangupInside => if k == Inbound then Ask(ToAttempt) else Ask(LegUpAtHangup)
    case _ => Ask(LegsUp)
  }

  function AfterAnswer(k: Kind, b: Ledger, q: Question, yes: bool): Due {
    match q
    case StoreReady => if yes then Ask(MemberUp) else Nothing
    case MemberUp => if yes then Do(Wait) else Finish(k, b)
    case TeamFound => if yes then Ask(RaceOpen) else if k == Predictive then Nothing else Do(Wait)
    case RaceOpen => if yes then Do(StartLeg(b.legs, b.agent)) else Finish(k, b)
    case LegsUp => if yes then TakeInner else AfterLoop(k)
    case BridgeDone => if !yes then Ask(LegUpAtAccept) else if k == Inbound then Ask(ShowsBridged) else Ask(LegsUp)
    case LegUpAtAccept => if yes then Do(HangupLeg(Leg(b), b.agent, LoseRace)) else Ask(LegsUp)
    case ShowsBridged => if yes then Do(Bridged(Leg(b), b.agent)) else Ask(LegsUp)
    case TransferredTo => if yes then Do(PassedOn(Leg(b), b.agent)) else AfterLoop(k)
    case TransferSaved => Do(StartLeg(b.legs, b.agent))
    case ToAttempt => if yes then Do(Forward(Leg(b), b.agent)) else Ask(FromCall)
    case FromCall => if yes then Ask(AttendedOrProcessing) else Ask(LegUpAtHangup)
    case AttendedOrProcessing => if yes then Ask(CallFound) else Ask(LegUpAtHangup)
    case CallFound => if yes then Ask(LegsUp) else Ask(LegUpAtHangup)
    case LegUpAtHangup => if yes then Ask(MemberBridged) else AfterLoop(k)
    case MemberBridged =>
      Do(HangupLeg(Leg(b), b.agent, if yes then Clearing else OriginatorCancel))
    case LegUnused => if yes then Do(HangupUnused(Leg(b), b.agent)) else Ask(LegBridged)
    case LegBridged => if yes then Ask(MemberWaits) else Ask(MarkMissed)
    case MarkMissed => if yes then Do(Missed(Leg(b), b.agent)) else Do(PutBack(Leg(b), b.agent))
    case MemberWaits => if yes && b.open.None? then Do(Wait) else Finish(k, b)
    case MarkKept => if yes then Do(Report(Leg(b), b.agent)) else NoReport(k)
    case SchemaAnswered => if yes then Do(AfterSchema) else Do(Abandon)
  }

  function DueNext(k: Kind, b: Ledger): Due {
    if b.last.None? then Ask(StoreReady)
    else
      match b.last.value
      case Wait => TakeOuter
      case Outer(r) => AfterOuter(k, b, r.outer)
      case Inner(r) => AfterInner(k, b, r.inner)
      case Asked(q, r) => AfterAnswer(k, b, q, r.yes)
      case StartLeg(_, _) => Ask(LegsUp)
      case Offering(_, _) => Ask(LegsUp)
      case Bridged(_, _) => Ask(LegsUp)
      case HangupLeg(_, _, cause) => if cause == LoseRace then Ask(LegsUp) else AfterLoop(k)
      case HangupUnused(_, _) => Ask(LegBridged)
      case HangupMember(place) =>
        (match place case AtWait => Do(Wait) case AtEnd => Finish(k, b) case Inside => Ask(LegsUp))
      case Missed(_, _) => Ask(MemberWaits)
      case PutBack(_, _) => Ask(MemberWaits)
      case PassedOn(_, _) => Ask(TransferSaved)
      case LosePredict => Ask(SchemaAnswered)
      case _ => Nothing
  }

  predicate Meets(due: Due, e: Entry) {
    match due
    case Nothing => false
    case TakeOuter => e.Outer?
    case TakeInner => e.Inner?
    case Ask(q) => e.Asked? && e.q == q
    case Do(d) => e == d
  }

  /** Every entry is the one that was due, and every reading is the next reply. */
  ghost predicate Conforms(k: Kind, env: nat -> Reply, trace: seq<Entry>) {
    trace == [] ||
    var before, e := trace[..|trace| - 1], trace[|trace| - 1];
    && Conforms(k, env, before)
    && Meets(DueNext(k, Read(before)), e)
    && (Consults(e) ==> e.r == env(Read(before).asked))
  }

  // ---- What the protocol guarantees ----------------------------------------------------

  /** A leg is open exactly while it is being offered or its bridge is to be reported. */
  ghost predicate LegMatches(b: Ledger) {
    match b.last
    case None => b.open.None?
    case Some(e) =>
      match e
      case Wait => b.open.None?
      case Outer(_) => b.open.None?
      case HangupMember(place) => b.open.Some? <==> place == Inside
      case Asked(q, _) =>
        if q in {StoreReady, MemberUp, TeamFound, RaceOpen, TransferSaved} then b.open.None?
        else q in {MemberWaits, SchemaAnswered} || b.open.Some?
      case LosePredict => true
      case AfterSchema => true
      case Abandon => true
      case _ => b.open.Some? <==> !Discharges(e)
  }

  ghost predicate Numbered(b: Ledger) {
    b.open.Some? ==> b.open.value < b.legs
  }

  lemma StepMatches(k: Kind, b: Ledger, e: Entry)
    requires LegMatches(b) && Numbered(b) && Meets(DueNext(k, b), e)
    ensures LegMatches(Enter(b, e)) && Numbered(Enter(b, e))
    ensures e.StartLeg? ==> b.open.None? && e.leg == b.legs
    ensures Discharges(e) ==> b.open == Some(e.leg) && e.agent == b.agent
    ensures !(b.last.Some? && Ends(b.last.value))
  {
  }

  lemma {:induction false} LegsMatch(k: Kind, env: nat -> Reply, trace: seq<Entry>)
    requires Conforms(k, env, trace)
    ensures LegMatches(Read(trace)) && Numbered(Read(trace))
  {
    if trace != [] {
      LegsMatch(k, env, trace[..|trace| - 1]);
      StepMatches(k, Read(trace[..|trace| - 1]), trace[|trace| - 1]);
    }
  }

  function CountStarts(trace: seq<Entry>, l: nat): nat {
    if trace == [] then 0
    else CountStarts(trace[..|trace| - 1], l)
         + if trace[|trace| - 1].StartLeg? && trace[|trace| - 1].leg == l then 1 else 0
  }

  function CountDischarges(trace: seq<Entry>, l: nat): nat {
    if trace == [] then 0
    else CountDischarges(trace[..|trace| - 1], l)
         + if Discharges(trace[|trace| - 1]) && trace[|trace| - 1].leg == l then 1 else 0
  }

  function CountEnds(trace: seq<Entry>): nat {
    if trace == [] then 0
    else CountEnds(trace[..|trace| - 1]) + if Ends(trace[|trace| - 1]) then 1 else 0
  }

  /** Every started leg has been discharged exactly once. */
  ghost predicate Settled(trace: seq<Entry>) {
    forall l: nat :: CountDischarges(trace, l) == CountStarts(trace, l)
  }

  lemma {:induction false} CountLegs(k: Kind, env: nat -> Reply, trace: seq<Entry>, l: nat)
    requires Conforms(k, env, trace)
    ensures CountStarts(trace, l) == if l < Read(trace).legs then 1 else 0
    ensures CountDischarges(trace, l) == if l < Read(trace).legs && Read(trace).open != Some(l) then 1 else 0
  {
    LegsMatch(k, env, trace);
    if trace != [] {
      LegsMatch(k, env, trace[..|trace| - 1]);
      StepMatches(k, Read(trace[..|trace| - 1]), trace[|trace| - 1]);
      CountLegs(k, env, trace[..|trace| - 1], l);
    }
  }

  /** In every run, cut anywhere: no leg is started twice or discharged twice, and every leg
      is discharged except the open one. */
  lemma LegsDischargedOnce(k: Kind, env: nat -> Reply, trace: seq<Entry>)
    requires Conforms(k, env, trace)
    ensures forall l: nat :: CountDischarges(trace, l) <= CountStarts(trace, l) <= 1
    ensures Settled(trace) <==> Read(trace).open == None
  {
    forall l: nat ensures CountDischarges(trace, l) <= CountStarts(trace, l) <= 1 { CountLegs(k, env, trace, l); }
    LegsMatch(k, env, trace);
    if Read(trace).open.Some? {
      CountLegs(k, env, trace, Read(trace).open.value);
      assert CountDischarges(trace, Read(trace).open.value) != CountStarts(trace, Read(trace).open.value);
    } else {
      forall l: nat ensures CountDischarges(trace, l) == CountStarts(trace, l) { CountLegs(k, env, trace, l); }
    }
  }

  lemma {:induction false} ConformsPrefix(k: Kind, env: nat -> Reply, trace: seq<Entry>, n: nat)
    requires Conforms(k, env, trace) && n <= |trace|
    ensures Conforms(k, env, trace[..n])
    ensures n < |trace| ==> Meets(DueNext(k, Read(trace[..n])), trace[n])
    decreases |trace| - n
  {
    if n < |trace| {
      ConformsPrefix(k, env, trace, n + 1);
      assert trace[..n + 1][..n] == trace[..n];
    } else {
      assert trace[..n] == trace;
    }
  }

  /** Whenever the outer loop selects, no agent leg is outstanding. */
  lemma NoLegWhileWaiting(k: Kind, env: nat -> Reply, trace: seq<Entry>, i: nat)
    requires Conforms(k, env, trace) && i < |trace| && trace[i] == Wait
    ensures Settled(trace[..i])
  {
    ConformsPrefix(k, env, trace, i);
    LegsMatch(k, env, trace[..i]);
    StepMatches(k, Read(trace[..i]), Wait);
    LegsDischargedOnce(k, env, trace[..i]);
  }

  /** Nothing follows an ending, so there is at most one. */
  lemma {:induction false} EndsOnce(k: Kind, env: nat -> Reply, trace: seq<Entry>)
    requires Conforms(k, env, trace)
    ensures CountEnds(trace) == if Read(trace).last.Some? && Ends(Read(trace).last.value) then 1 else 0
  {
    if trace != [] {
      EndsOnce(k, env, trace[..|trace| - 1]);
      LegsMatch(k, env, trace[..|trace| - 1]);
      StepMatches(k, Read(trace[..|trace| - 1]), trace[|trace| - 1]);
    }
  }

  predicate IsReset(e: Entry) {
    e.Asked? && e.q == MarkKept && !e.r.yes
  }

  ghost predicate MarkWasReset(trace: seq<Entry>) {
    exists i :: 0 <= i < |trace| && IsReset(trace[i])
  }

  lemma ResetAtLast(trace: seq<Entry>)
    requires trace != []
    ensures MarkWasReset(trace) <==> MarkWasReset(trace[..|trace| - 1]) || IsReset(trace[|trace| - 1])
  {
    var before := trace[..|trace| - 1];
    if MarkWasReset(before) {
      var i :| 0 <= i < |before| && IsReset(before[i]);
      assert trace[i] == before[i];
    }
    if MarkWasReset(trace) {
      var i :| 0 <= i < |trace| && IsReset(trace[i]);
      assert i < |before| ==> before[i] == trace[i];
    }
  }

  ghost predicate Left(b: Ledger) {
    b.open.Some? && b.last.Some? && AfterMark(b.last.value)
  }

  lemma StepLeft(k: Kind, b: Ledger, e: Entry)
    requires LegMatches(b) && Numbered(b) && Meets(DueNext(k, b), e)
    ensures Left(Enter(b, e)) <==> Left(b) || IsReset(e)
  {
  }

  /** An ending leaves a leg behind exactly when its bridge mark, set when the inner loop
      was left, was gone when it was read again. */
  lemma {:induction false} LeftAfterReset(k: Kind, env: nat -> Reply, trace: seq<Entry>)
    requires Conforms(k, env, trace)
    ensures MarkWasReset(trace) <==> Left(Read(trace))
  {
    if trace != [] {
      var before, e := trace[..|trace| - 1], trace[|trace| - 1];
      LeftAfterReset(k, env, before);
      LegsMatch(k, env, before);
      StepLeft(k, Read(before), e);
      ResetAtLast(trace);
    }
  }

  predicate AfterMark(e: Entry) {
    || IsReset(e)
    || e.LosePredict?
    || (e.Asked? && e.q == SchemaAnswered)
    || e.AfterSchema?
    || e.Abandon?
  }

  /** A run that ends does so once, and then every leg it started was discharged exactly
      once, if and only if no bridge mark was reset after the inner loop. */
  lemma SettledAtTheEnd(k: Kind, env: nat -> Reply, trace: seq<Entry>)
    requires Conforms(k, env, trace) && Read(trace).last.Some? && Ends(Read(trace).last.value)
    ensures CountEnds(trace) == 1
    ensures Settled(trace) <==> !MarkWasReset(trace)
  {
    EndsOnce(k, env, trace);
    LegsMatch(k, env, trace);
    LegsDischargedOnce(k, env, trace);
    LeftAfterReset(k, env, trace);
  }

  lemma NothingOpen(k: Kind, b: Ledger)
    requires LegMatches(b) && DueNext(k, b) == Nothing && b.last.Some? && !Ends(b.last.value)
    ensures b.open == None
  {
  }

  /** A run that stops on a store or team error has no ending, and no leg is open. */
  lemma StoppedSettled(k: Kind, env: nat -> Reply, trace: seq<Entry>)
    requires Conforms(k, env, trace) && Read(trace).last.Some? && !Ends(Read(trace).last.value)
    ensures CountEnds(trace) == 0
    ensures DueNext(k, Read(trace)) == Nothing ==> Settled(trace)
  {
    EndsOnce(k, env, trace);
    LegsMatch(k, env, trace);
    if DueNext(k, Read(trace)) == Nothing {
      NothingOpen(k, Read(trace));
      LegsDischargedOnce(k, env, trace);
    }
  }

  /** The agent a leg was started for. */
  function Owner(trace: seq<Entry>, l: nat): Option<nat> {
    if trace == [] then None
    else
      var e := trace[|trace| - 1];
      if e.StartLeg? && e.leg == l then Some(e.agent) else Owner(trace[..|trace| - 1], l)
  }

  lemma {:induction false} OpenLegOwner(k: Kind, env: nat -> Reply, trace: seq<Entry>)
    requires Conforms(k, env, trace)
    ensures Read(trace).open.Some? ==> Owner(trace, Read(trace).open.value) == Some(Read(trace).agent)
  {
    if trace != [] {
      OpenLegOwner(k, env, trace[..|trace| - 1]);
      LegsMatch(k, env, trace[..|trace| - 1]);
      StepMatches(k, Read(trace[..|trace| - 1]), trace[|trace| - 1]);
    }
  }

  /** A leg is missed, put back, passed on or reported in the name of the agent it was
      started for, also after transfers from agent to agent. */
  lemma DischargedToItsAgent(k: Kind, env: nat -> Reply, trace: seq<Entry>, i: nat)
    requires Conforms(k, env, trace) && i < |trace| && Discharges(trace[i])
    ensures Owner(trace[..i], trace[i].leg) == Some(trace[i].agent)
  {
    ConformsPrefix(k, env, trace, i);
    LegsMatch(k, env, trace[..i]);
    StepMatches(k, Read(trace[..i]), trace[i]);
    OpenLegOwner(k, env, trace[..i]);
  }

  // ---- Keeping a log -------------------------------------------------------------------

  type Log = Journal<Entry, Ledger>

  ghost predicate Kept(k: Kind, env: nat -> Reply, log: Log) {
    forall x: Log {:trigger Opened(x)} :: Opened(x) && x == log ==> Conforms(k, env, x.trace) && x.b == Read(x.trace)
  }

  lemma Open(k: Kind, env: nat -> Reply, log: Log)
    requires Kept(k, env, log)
    ensures Conforms(k, env, log.trace) && log.b == Read(log.trace)
  {
    assert Opened(log);
  }

  function Put(ghost k: Kind, env: nat -> Reply, log: Log, e: Entry): (r: Log)
    requires Kept(k, env, log)
    requires Meets(DueNext(k, log.b), e) && (Consults(e) ==> e.r == env(log.b.asked))
    ensures Kept(k, env, r) && r.b == Enter(log.b, e)
  {
    assert Opened(log);
    Appended(log.trace, e);
    Journal(log.trace + [e], Enter(log.b, e))
  }

  function Inquire(ghost k: Kind, env: nat -> Reply, log: Log, q: Question): (r: Log)
    requires Kept(k, env, log) && DueNext(k, log.b) == Ask(q)
    ensures Kept(k, env, r) && r.b == Enter(log.b, Asked(q, env(log.b.asked)))
  {
    Put(k, env, log, Asked(q, env(log.b.asked)))
  }

  lemma BlankKept(k: Kind, env: nat -> Reply)
    ensures Kept(k, env, Journal([], BLANK))
  {
  }

  // ---- A run that leaves a leg behind --------------------------------------------------

  /** The replies of a run whose agent leg is bridged and hung up, and whose bridge mark is
      gone when it is read again. */
  function ResetReply(k: Kind): nat -> Reply {
    if k == Inbound then n => Reply(n < 5 || n == 6, AgentDistributed, AgentOther, 0)
    else n => Reply(n < 5 || n == 7, AgentDistributed, AgentOther, 0)
  }

  lemma ResetWaits(k: Kind) returns (log: Log)
    ensures Kept(k, ResetReply(k), log) && log.b == Ledger(Some(Wait), 0, None, 0, 2, 0)
  {
    var env := ResetReply(k);
    BlankKept(k, env);
    log := Inquire(k, env, Journal([], BLANK), StoreReady);
    log := Inquire(k, env, log, MemberUp);
    log := Put(k, env, log, Wait);
  }

  lemma ResetRouted(k: Kind, log0: Log) returns (log: Log)
    requires Kept(k, ResetReply(k), log0) && log0.b == Ledger(Some(Wait), 0, None, 0, 2, 0)
    ensures Kept(k, ResetReply(k), log) && log.b == Ledger(Some(Asked(RaceOpen, ResetReply(k)(4))), 0, None, 0, 5, 1)
  {
    var env := ResetReply(k);
    log := Put(k, env, log0, Outer(env(2)));
    log := Inquire(k, env, log, TeamFound);
    log := Inquire(k, env, log, RaceOpen);
  }

  /** The inner loop is left at once. */
  lemma ResetOffered(k: Kind, log0: Log) returns (log: Log)
    requires Kept(k, ResetReply(k), log0) && log0.b == Ledger(Some(Asked(RaceOpen, ResetReply(k)(4))), 0, None, 0, 5, 1)
    ensures Kept(k, ResetReply(k), log) && log.b == Ledger(Some(Asked(LegsUp, ResetReply(k)(5))), 1, Some(0), 0, 6, 1)
  {
    var env := ResetReply(k);
    log := Put(k, env, log0, StartLeg(0, 0));
    log := Inquire(k, env, log, LegsUp);
  }

  lemma ResetBridged(k: Kind, log0: Log) returns (log: Log)
    requires Kept(k, ResetReply(k), log0)
    requires log0.b == Ledger(Some(Asked(LegsUp, ResetReply(k)(5))), 1, Some(0), 0, 6, 1)
    ensures var n := if k == Inbound then 6 else 7;
            && Kept(k, ResetReply(k), log)
            && log.b == Ledger(Some(Asked(LegBridged, ResetReply(k)(n))), 1, Some(0), 0, n + 1, 1)
  {
    var env := ResetReply(k);
    log := log0;
    if k == Predictive {
      log := Inquire(k, env, log, LegUnused);
    }
    log := Inquire(k, env, log, LegBridged);
  }

  lemma ResetSeen(k: Kind, log0: Log, n: nat) returns (log: Log)
    requires n == if k == Inbound then 6 else 7
    requires Kept(k, ResetReply(k), log0)
    requires log0.b == Ledger(Some(Asked(LegBridged, ResetReply(k)(n))), 1, Some(0), 0, n + 1, 1)
    ensures Kept(k, ResetReply(k), log)
    ensures log.b == Ledger(Some(Asked(MarkKept, ResetReply(k)(n + 2))), 1, Some(0), 0, n + 3, 1)
  {
    var env := ResetReply(k);
    log := Inquire(k, env, log0, MemberWaits);
    log := Inquire(k, env, log, MarkKept);
  }

  lemma ResetEnds(k: Kind, log0: Log, n: nat) returns (log: Log)
    requires n == if k == Inbound then 6 else 7
    requires Kept(k, ResetReply(k), log0)
    requires log0.b == Ledger(Some(Asked(MarkKept, ResetReply(k)(n + 2))), 1, Some(0), 0, n + 3, 1)
    ensures Kept(k, ResetReply(k), log) && log.b.open == Some(0) && log.b.last == Some(Abandon)
  {
    var env := ResetReply(k);
    log := log0;
    if k == Predictive {
      log := Put(k, env, log, LosePredict);
    }
    log := Inquire(k, env, log, SchemaAnswered);
    log := Put(k, env, log, Abandon);
  }

  /** In both loops a reset mark does happen in a run that ends, and leaves a leg that was
      never discharged. */
  lemma ResetHappens(k: Kind) returns (trace: seq<Entry>)
    ensures Conforms(k, ResetReply(k), trace) && Read(trace).last == Some(Abandon)
    ensures MarkWasReset(trace) && !Settled(trace)
  {
    var log := ResetWaits(k);
    log := ResetRouted(k, log);
    log := ResetOffered(k, log);
    log := ResetBridged(k, log);
    log := ResetSeen(k, log, if k == Inbound then 6 else 7);
    log := ResetEnds(k, log, if k == Inbound then 6 else 7);
    Open(k, ResetReply(k), log);
    trace := log.trace;
    SettledAtTheEnd(k, ResetReply(k), trace);
    LegsDischargedOnce(k, ResetReply(k), trace);
  }
}
