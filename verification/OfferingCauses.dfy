/** Why each entry of an offering run is there: for every action and every reading, what must
    have come right before it. The protocol says what follows an entry; this says what an
    entry follows, and the two are proved to be the same. */
module OfferingCauses {
  import opened Options
  import opened OfferingProtocol

  /** The entry right before was this reading, with this answer. */
  predicate Said(p: Option<Entry>, q: Question, yes: bool) {
    p.Some? && p.value.Asked? && p.value.q == q && p.value.r.yes == yes
  }

  predicate Event(p: Option<Entry>, event: OuterEvent) {
    p.Some? && p.value.Outer? && p.value.r.outer == event
  }

  predicate LegEvent(p: Option<Entry>, event: InnerEvent) {
    p.Some? && p.value.Inner? && p.value.r.inner == event
  }

  /** The inner loop was left. */
  predicate LeftInner(k: Kind, p: Option<Entry>) {
    || Said(p, LegsUp, false)
    || Said(p, TransferredTo, false)
    || Said(p, LegUpAtHangup, false)
    || (p.Some? && p.value.HangupLeg? && p.value.cause != LoseRace)
    || (k == Inbound && LegEvent(p, CancelledInside))
  }

  /** The outer loop was left, or never entered. */
  predicate LeftOuter(k: Kind, p: Option<Entry>, open: bool) {
    || Said(p, MemberUp, false)
    || Said(p, RaceOpen, false)
    || Said(p, MemberWaits, false)
    || (Said(p, MemberWaits, true) && open)
    || Event(p, MemberHangup)
    || (k == Inbound && (Event(p, Cancelled) || Event(p, Timeout) || Event(p, ContextDone)))
    || (p.Some? && p.value == HangupMember(AtEnd))
  }

  /** There is no bridged leg to report. */
  predicate NothingToReport(k: Kind, p: Option<Entry>, open: bool) {
    (LeftOuter(k, p, open) && !open) || Said(p, MarkKept, false)
  }

  predicate AskedAfter(k: Kind, p: Option<Entry>, open: bool, q: Question) {
    match q
    case StoreReady => p == None
    case MemberUp => Said(p, StoreReady, true)
    case TeamFound => Event(p, AgentDistributed)
    case RaceOpen => Said(p, TeamFound, true)
    case LegsUp =>
      || (p.Some? && (p.value.StartLeg? || p.value.Offering? || p.value.Bridged? || p.value == HangupMember(Inside)))
      || (p.Some? && p.value.HangupLeg? && p.value.cause == LoseRace)
      || LegEvent(p, AgentOther)
      || LegEvent(p, MemberOtherInside)
      || Said(p, LegUpAtAccept, false)
      || Said(p, ShowsBridged, false)
      || Said(p, CallFound, true)
      || (k == Predictive && (LegEvent(p, AgentBridge) || Said(p, BridgeDone, true)))
    case BridgeDone => LegEvent(p, AgentAccept)
    case ShowsBridged =>
      k == Inbound && (Said(p, BridgeDone, true) || LegEvent(p, AgentBridge) || LegEvent(p, MemberBridgeInside))
    case LegUpAtAccept => Said(p, BridgeDone, false)
    case TransferredTo => LegEvent(p, AgentHangup)
    case TransferSaved => p.Some? && p.value.PassedOn?
    case ToAttempt => k == Inbound && LegEvent(p, MemberHangupInside)
    case FromCall => Said(p, ToAttempt, false)
    case AttendedOrProcessing => Said(p, FromCall, true)
    case CallFound => Said(p, AttendedOrProcessing, true)
    case LegUpAtHangup =>
      || Said(p, FromCall, false)
      || Said(p, AttendedOrProcessing, false)
      || Said(p, CallFound, false)
      || (k == Predictive && LegEvent(p, MemberHangupInside))
    case MemberBridged => Said(p, LegUpAtHangup, true)
    case LegUnused => k == Predictive && LeftInner(k, p)
    case LegBridged =>
      || (k == Inbound && LeftInner(k, p))
      || Said(p, LegUnused, false)
      || (p.Some? && p.value.HangupUnused?)
    case MarkMissed => Said(p, LegBridged, false)
    case MemberWaits => Said(p, LegBridged, true) || (p.Some? && (p.value.Missed? || p.value.PutBack?))
    case MarkKept => LeftOuter(k, p, open) && open
    case SchemaAnswered => (k == Inbound && NothingToReport(k, p, open)) || (p.Some? && p.value.LosePredict?)
  }

  /** What must have come right before an entry; `open`: a leg is not yet discharged. */
  predicate Allowed(k: Kind, p: Option<Entry>, open: bool, e: Entry) {
    match e
    case Wait =>
      || Said(p, MemberUp, true)
      || Event(p, MemberBridge)
      || Event(p, MemberOther)
      || (p.Some? && p.value == HangupMember(AtWait))
      || (k == Inbound && Said(p, TeamFound, false))
      || (Said(p, MemberWaits, true) && !open)
    case Outer(_) => p.Some? && p.value.Wait?
    case Inner(_) => Said(p, LegsUp, true)
    case Asked(q, _) => AskedAfter(k, p, open, q)
    case StartLeg(_, _) => Said(p, RaceOpen, true) || Said(p, TransferSaved, true) || Said(p, TransferSaved, false)
    case Offering(_, _) => LegEvent(p, AgentRinging)
    case Bridged(_, _) => Said(p, ShowsBridged, true) || (k == Predictive && LegEvent(p, MemberBridgeInside))
    case HangupLeg(_, _, cause) =>
      (match cause
       case LoseRace => Said(p, LegUpAtAccept, true)
       case Clearing => Said(p, MemberBridged, true)
       case OriginatorCancel => Said(p, MemberBridged, false))
    case HangupUnused(_, _) => Said(p, LegUnused, true)
    case HangupMember(place) =>
      k == Predictive &&
      (match place
       case AtWait => Event(p, Cancelled)
       case AtEnd => Event(p, Timeout) || Event(p, ContextDone)
       case Inside => LegEvent(p, CancelledInside))
    case Missed(_, _) => Said(p, MarkMissed, true)
    case PutBack(_, _) => Said(p, MarkMissed, false)
    case PassedOn(_, _) => Said(p, TransferredTo, true)
    case Forward(_, _) => Said(p, ToAttempt, true)
    case Report(_, _) => Said(p, MarkKept, true)
    case LosePredict => k == Predictive && NothingToReport(k, p, open)
    case AfterSchema => Said(p, SchemaAnswered, true)
    case Abandon => Said(p, SchemaAnswered, false)
  }

  predicate NamesLeg(e: Entry) {
    e.Offering? || e.Bridged? || e.HangupLeg? || e.HangupUnused? || Discharges(e)
  }

  /** A new leg has the next number; any other entry about a leg is about the open one. */
  predicate Labelled(b: Ledger, e: Entry) {
    && (e.StartLeg? ==> e.leg == b.legs && e.agent == b.agent)
    && (NamesLeg(e) ==> b.open == Some(e.leg) && e.agent == b.agent)
  }

  /** The readings of the inner loop and of the member's hangup. */
  predicate OfLegs(q: Question) {
    match q
    case LegsUp => true
    case BridgeDone => true
    case ShowsBridged => true
    case LegUpAtAccept => true
    case TransferredTo => true
    case TransferSaved => true
    case ToAttempt => true
    case FromCall => true
    case AttendedOrProcessing => true
    case CallFound => true
    case LegUpAtHangup => true
    case MemberBridged => true
    case _ => false
  }

  lemma DueReadingInside(k: Kind, b: Ledger, e: Entry)
    requires LegMatches(b) && Meets(DueNext(k, b), e) && e.Asked?
    requires b.last.Some? && b.last.value.Asked? && OfLegs(b.last.value.q)
    ensures Allowed(k, b.last, b.open.Some?, e)
  {
  }

  predicate Beginning(q: Question) {
    q.StoreReady? || q.MemberUp? || q.TeamFound? || q.RaceOpen?
  }

  lemma DueReadingAtFirst(k: Kind, b: Ledger, e: Entry)
    requires LegMatches(b) && Meets(DueNext(k, b), e) && e.Asked?
    requires b.last.Some? && b.last.value.Asked? && Beginning(b.last.value.q)
    ensures Allowed(k, b.last, b.open.Some?, e)
  {
  }

  lemma DueReading(k: Kind, b: Ledger, e: Entry)
    requires LegMatches(b) && Meets(DueNext(k, b), e) && e.Asked?
    requires b.last.Some? && b.last.value.Asked? && !OfLegs(b.last.value.q) && !Beginning(b.last.value.q)
    ensures Allowed(k, b.last, b.open.Some?, e)
  {
  }

  lemma DueAction(k: Kind, b: Ledger, e: Entry)
    requires LegMatches(b) && Meets(DueNext(k, b), e) && !e.Asked? && b.last.Some? && b.last.value.Asked?
    ensures Allowed(k, b.last, b.open.Some?, e)
  {
  }

  lemma DueOtherwise(k: Kind, b: Ledger, e: Entry)
    requires LegMatches(b) && Meets(DueNext(k, b), e) && !(b.last.Some? && b.last.value.Asked?)
    ensures Allowed(k, b.last, b.open.Some?, e)
  {
  }

  lemma DueLabelled(k: Kind, b: Ledger, e: Entry)
    requires LegMatches(b) && Meets(DueNext(k, b), e)
    ensures Labelled(b, e)
  {
  }

  lemma AllowedReading(k: Kind, b: Ledger, e: Entry)
    requires LegMatches(b) && Allowed(k, b.last, b.open.Some?, e) && e.Asked? && !OfLegs(e.q)
    ensures Meets(DueNext(k, b), e)
  {
  }

  lemma AllowedReadingInside(k: Kind, b: Ledger, e: Entry)
    requires LegMatches(b) && Allowed(k, b.last, b.open.Some?, e) && e.Asked? && OfLegs(e.q)
    ensures Meets(DueNext(k, b), e)
  {
  }

  lemma AllowedAction(k: Kind, b: Ledger, e: Entry)
    requires LegMatches(b) && Allowed(k, b.last, b.open.Some?, e) && Labelled(b, e) && !e.Asked?
    ensures Meets(DueNext(k, b), e)
  {
  }

  /** The protocol asks for an entry exactly if the entry has its cause and its labels. */
  lemma DueExactly(k: Kind, b: Ledger, e: Entry)
    requires LegMatches(b)
    ensures Meets(DueNext(k, b), e) <==> Allowed(k, b.last, b.open.Some?, e) && Labelled(b, e)
  {
    if Meets(DueNext(k, b), e) {
      DueLabelled(k, b, e);
      if !(b.last.Some? && b.last.value.Asked?) {
        DueOtherwise(k, b, e);
      } else if e.Asked? && OfLegs(b.last.value.q) {
        DueReadingInside(k, b, e);
      } else if e.Asked? && Beginning(b.last.value.q) {
        DueReadingAtFirst(k, b, e);
      } else if e.Asked? {
        DueReading(k, b, e);
      } else {
        DueAction(k, b, e);
      }
    } else if Allowed(k, b.last, b.open.Some?, e) && Labelled(b, e) {
      if e.Asked? && OfLegs(e.q) {
        AllowedReadingInside(k, b, e);
      } else if e.Asked? {
        AllowedReading(k, b, e);
      } else {
        AllowedAction(k, b, e);
      }
    }
  }

  // ---- Of every run --------------------------------------------------------------------

  function Before(trace: seq<Entry>): Option<Entry> {
    if trace == [] then None else Some(trace[|trace| - 1])
  }

  lemma LastIsBefore(trace: seq<Entry>)
    ensures Read(trace).last == Before(trace)
  {
  }

  /** In every run of either loop each entry has its cause right before it, and a run may go
      on with an entry, about the right leg and with the next reply, exactly if it has. */
  lemma EveryEntryHasItsCause(k: Kind, env: nat -> Reply, trace: seq<Entry>, e: Entry)
    requires Conforms(k, env, trace)
    ensures Conforms(k, env, trace + [e]) <==>
            && Allowed(k, Before(trace), !Settled(trace), e)
            && Labelled(Read(trace), e)
            && (Consults(e) ==> e.r == env(Read(trace).asked))
  {
    assert (trace + [e])[..|trace|] == trace;
    LegsMatch(k, env, trace);
    LastIsBefore(trace);
    LegsDischargedOnce(k, env, trace);
    DueExactly(k, Read(trace), e);
  }

  lemma CauseAt(k: Kind, env: nat -> Reply, trace: seq<Entry>, i: nat)
    requires Conforms(k, env, trace) && i < |trace|
    ensures Allowed(k, if i == 0 then None else Some(trace[i - 1]), !Settled(trace[..i]), trace[i])
  {
    ConformsPrefix(k, env, trace, i);
    LegsMatch(k, env, trace[..i]);
    LegsDischargedOnce(k, env, trace[..i]);
    LastIsBefore(trace[..i]);
    DueExactly(k, Read(trace[..i]), trace[i]);
  }

  /** The leg of an agent was missed if it was hung up unbridged for a cause that counts as
      missed, and put back to waiting if it was unbridged for any other cause. */
  lemma MissedExactly(k: Kind, env: nat -> Reply, trace: seq<Entry>, i: nat)
    requires Conforms(k, env, trace) && i < |trace| && (trace[i].Missed? || trace[i].PutBack?)
    ensures i >= 2 && Said(Some(trace[i - 1]), MarkMissed, trace[i].Missed?)
    ensures Said(Some(trace[i - 2]), LegBridged, false)
  {
    CauseAt(k, env, trace, i);
    MarkAfterBridge(k, env, trace, i - 1);
  }

  lemma MarkAfterBridge(k: Kind, env: nat -> Reply, trace: seq<Entry>, i: nat)
    requires Conforms(k, env, trace) && i < |trace| && trace[i].Asked? && trace[i].q == MarkMissed
    ensures i > 0 && Said(Some(trace[i - 1]), LegBridged, false)
  {
    CauseAt(k, env, trace, i);
  }

  lemma ReadAt(trace: seq<Entry>, i: nat)
    requires i < |trace|
    ensures Read(trace[..i + 1]) == Enter(Read(trace[..i]), trace[i])
  {
    assert trace[..i + 1][..i] == trace[..i];
  }

  lemma LabelAt(k: Kind, env: nat -> Reply, trace: seq<Entry>, i: nat)
    requires Conforms(k, env, trace) && i < |trace|
    ensures Labelled(Read(trace[..i]), trace[i])
  {
    ConformsPrefix(k, env, trace, i);
    LegsMatch(k, env, trace[..i]);
    DueLabelled(k, Read(trace[..i]), trace[i]);
  }

  lemma RoutedAgent(b: Ledger, routed: Entry, team: Entry, race: Entry)
    requires routed.Outer? && routed.r.outer == AgentDistributed
    requires team.Asked? && team.q == TeamFound && race.Asked? && race.q == RaceOpen
    ensures Enter(Enter(Enter(b, routed), team), race).agent == routed.r.agent
  {
  }

  lemma TakenAgent(b: Ledger, passed: Entry, saved: Entry)
    requires passed.PassedOn? && passed.agent == b.agent && saved.Asked? && saved.q == TransferSaved
    ensures Enter(Enter(b, passed), saved).agent == if saved.r.yes then saved.r.agent else passed.agent
  {
  }

  lemma RoutedBefore(k: Kind, env: nat -> Reply, trace: seq<Entry>, i: nat)
    requires Conforms(k, env, trace) && i < |trace| && trace[i].Asked? && trace[i].q == RaceOpen
    ensures i >= 2 && Said(Some(trace[i - 1]), TeamFound, true) && Event(Some(trace[i - 2]), AgentDistributed)
  {
    CauseAt(k, env, trace, i);
    CauseAt(k, env, trace, i - 1);
  }

  /** A leg started after a race that was open is for the agent that was just routed. */
  lemma StartedForRouted(k: Kind, env: nat -> Reply, trace: seq<Entry>, i: nat)
    requires Conforms(k, env, trace) && 0 < i < |trace|
    requires trace[i].StartLeg? && Said(Some(trace[i - 1]), RaceOpen, true)
    ensures i >= 3 && Event(Some(trace[i - 3]), AgentDistributed) && trace[i].agent == trace[i - 3].r.agent
  {
    RoutedBefore(k, env, trace, i - 1);
    ReadAt(trace, i - 1);
    ReadAt(trace, i - 2);
    ReadAt(trace, i - 3);
    RoutedAgent(Read(trace[..i - 3]), trace[i - 3], trace[i - 2], trace[i - 1]);
    LabelAt(k, env, trace, i);
  }

  lemma PassedBefore(k: Kind, env: nat -> Reply, trace: seq<Entry>, i: nat)
    requires Conforms(k, env, trace) && 0 < i < |trace|
    requires trace[i].StartLeg? && !Said(Some(trace[i - 1]), RaceOpen, true)
    ensures i >= 2 && trace[i - 1].Asked? && trace[i - 1].q == TransferSaved && trace[i - 2].PassedOn?
  {
    CauseAt(k, env, trace, i);
    SavedAfterPassing(k, env, trace, i - 1);
  }

  lemma SavedAfterPassing(k: Kind, env: nat -> Reply, trace: seq<Entry>, i: nat)
    requires Conforms(k, env, trace) && i < |trace| && trace[i].Asked? && trace[i].q == TransferSaved
    ensures i > 0 && trace[i - 1].PassedOn?
  {
    CauseAt(k, env, trace, i);
  }

  /** A leg that took over is for the agent it was transferred to if that was saved, and else
      for the agent of the leg it replaced. */
  lemma StartedForTransfer(k: Kind, env: nat -> Reply, trace: seq<Entry>, i: nat)
    requires Conforms(k, env, trace) && 0 < i < |trace|
    requires trace[i].StartLeg? && !Said(Some(trace[i - 1]), RaceOpen, true)
    ensures i >= 2 && trace[i - 1].Asked? && trace[i - 1].q == TransferSaved && trace[i - 2].PassedOn?
    ensures trace[i].agent == if trace[i - 1].r.yes then trace[i - 1].r.agent else trace[i - 2].agent
  {
    PassedBefore(k, env, trace, i);
    ReadAt(trace, i - 1);
    ReadAt(trace, i - 2);
    LabelAt(k, env, trace, i - 2);
    TakenAgent(Read(trace[..i - 2]), trace[i - 2], trace[i - 1]);
    LabelAt(k, env, trace, i);
  }

  /** Every entry about a leg is about one that was started, once, and not yet discharged, and
      names the agent it was started for. */
  lemma AboutTheOpenLeg(k: Kind, env: nat -> Reply, trace: seq<Entry>, i: nat)
    requires Conforms(k, env, trace) && i < |trace| && NamesLeg(trace[i])
    ensures CountStarts(trace[..i], trace[i].leg) == 1 && CountDischarges(trace[..i], trace[i].leg) == 0
    ensures Owner(trace[..i], trace[i].leg) == Some(trace[i].agent)
  {
    ConformsPrefix(k, env, trace, i);
    LabelAt(k, env, trace, i);
    LegsMatch(k, env, trace[..i]);
    CountLegs(k, env, trace[..i], trace[i].leg);
    OpenLegOwner(k, env, trace[..i]);
  }
}
