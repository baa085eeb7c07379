/** Why each entry of the run of a message attempt is there, read off the entries before it. */
module ImCauses {
  import opened Options
  import opened ImSession
  import opened ImProtocol

  function Last(trace: seq<Entry>): Option<Entry> {
    if trace == [] then None else Some(trace[|trace| - 1])
  }

  /** The entry before the last. */
  function LastButOne(trace: seq<Entry>): Option<Entry> {
    if |trace| < 2 then None else Some(trace[|trace| - 2])
  }

  predicate Said(p: Option<Entry>, q: Question, yes: bool) {
    p.Some? && p.value.Asked? && p.value.q == q && p.value.r.yes == yes
  }

  predicate Event(p: Option<Entry>, event: OuterEvent) {
    p.Some? && p.value.Outer? && p.value.r.outer == event
  }

  predicate TaskEvent(p: Option<Entry>, event: InnerEvent) {
    p.Some? && p.value.Inner? && p.value.r.inner == event
  }

  /** The agent routed last, or the one the run was finalized with. */
  function Working(trace: seq<Entry>): string {
    if trace == [] then ""
    else
      var e := trace[|trace| - 1];
      if e.Outer? && e.r.outer == AgentRouted then e.r.user
      else if e.Finalize? then e.agent
      else Working(trace[..|trace| - 1])
  }

  /** The agent the attempt holds: the one routed last, until it is skipped or its miss saved. */
  function Holder(reserved: string, trace: seq<Entry>): string {
    if trace == [] then reserved
    else
      var e := trace[|trace| - 1];
      if e.Outer? && e.r.outer == AgentRouted then e.r.user
      else if e.Skip? || (e.Miss? && e.r.yes) then ""
      else Holder(reserved, trace[..|trace| - 1])
  }

  /** The user who became a member of the thread last. */
  function Member(trace: seq<Entry>): string {
    if trace == [] then ""
    else
      var e := trace[|trace| - 1];
      if e.Assign? || ((e.Upgrade? || e.Add? || e.Transfer?) && e.r.yes) then e.user
      else Member(trace[..|trace| - 1])
  }

  /** The user with a preview. */
  function Previewer(trace: seq<Entry>): string {
    if trace == [] then ""
    else
      var e := trace[|trace| - 1];
      if e.Give? && e.r.grant == Given then e.user
      else if e.Revoke? || (e.Upgrade? && e.r.yes) then ""
      else Previewer(trace[..|trace| - 1])
  }

  /** What the entries so far say. */
  datatype Facts = Facts(last: Option<Entry>, previous: Option<Entry>, working: string, holder: string, member: string,
                         previewer: string)

  function FactsOf(reserved: string, trace: seq<Entry>): Facts {
    Facts(Last(trace), LastButOne(trace), Working(trace), Holder(reserved, trace), Member(trace), Previewer(trace))
  }

  predicate GaveNothing(p: Option<Entry>) {
    p.Some? && p.value.Give? && p.value.r.grant == AlreadyMember
  }

  predicate JoinFailed(p: Option<Entry>) {
    p.Some? && (p.value.Upgrade? || p.value.Add? || p.value.Transfer?) && !p.value.r.yes
  }

  predicate RevokedAt(p: Option<Entry>, place: Place) {
    p.Some? && p.value.Revoke? && p.value.place == place
  }

  predicate AskedAfter(info: Info, f: Facts, q: Question) {
    var p := f.last;
    match q
    case FindAgent => p == None && !info.toAgent
    case TeamFound => Event(p, AgentRouted)
    case FindAgain => Said(p, TeamFound, true) && info.transferFrom == f.working
    case InviteSeconds => Said(p, TeamFound, true) && info.transferFrom != f.working
    case Unbridged(closer) => TaskEvent(p, if closer == ByCancel then CancelledInside else InviteTimeout)
    case Declined => TaskEvent(p, TaskClosed)
    case GoesOn(waiting) => if waiting then Event(p, Tick) else TaskEvent(p, TickInside)
    case Unreported => p.Some? && p.value.Finalize? && p.value.agent != ""
  }

  /** A preview is asked for if the invite has a lifetime, and for five seconds more than it,
      but for no more than an hour. */
  predicate GiveAfter(p: Option<Entry>, millis: nat) {
    && p.Some? && p.value.Asked? && p.value.q == InviteSeconds && p.value.r.seconds > 0
    && millis == if 1000 * p.value.r.seconds + 5000 <= 3600000 then 1000 * p.value.r.seconds + 5000 else 3600000
  }

  predicate OfferAfter(p: Option<Entry>) {
    || (p.Some? && p.value.Asked? && p.value.q == InviteSeconds && p.value.r.seconds == 0)
    || (p.Some? && p.value.Give? && p.value.r.grant != Refused)
  }

  predicate InnerAfter(f: Facts) {
    var p := f.last;
    || (p.Some? && p.value.Offer? && !GaveNothing(f.previous))
    || (p.Some? && (p.value.Assign? || p.value.CloseTask? || p.value.Bridged?))
    || (p.Some? && p.value.Asked? && p.value.q.Unbridged? && !p.value.r.yes)
    || Said(p, GoesOn(false), true)
  }

  predicate MissAfter(f: Facts, why: MissCause) {
    var p := f.last;
    match why
    case NoPreview => p.Some? && p.value.Give? && p.value.r.grant == Refused
    case NoJoin => (JoinFailed(p) && f.previewer == "") || RevokedAt(p, AtJoinError)
    case WasDeclined => (Said(p, Declined, true) && f.previewer == "") || RevokedAt(p, AtDecline)
  }

  predicate RevokeAfter(info: Info, f: Facts, place: Place) {
    var p := f.last;
    match place
    case AtTransfer => TaskEvent(p, TaskBridged) && info.transferFrom != ""
    case AtJoinError => JoinFailed(p)
    case AtDecline => Said(p, Declined, true)
    case AtCleanup => p.Some? && (p.value.FinalMiss? || p.value.Report?)
  }

  /** While waiting, the run is finalized with the agent it worked with last; during an offer
      and after a miss with the agent the attempt holds; without a preview with none. */
  predicate FinalizeAfter(info: Info, f: Facts, agent: string) {
    var p := f.last;
    || ((Event(p, Cancelled) || Event(p, ContextDone) || Event(p, SessionDone) || Said(p, GoesOn(true), false))
        && agent == f.working)
    || ((TaskEvent(p, TransferredAway) || TaskEvent(p, SessionDoneInside)
         || Said(p, Declined, false) || Said(p, GoesOn(false), false))
        && agent == f.holder)
    || (p.Some? && p.value.Miss? && info.toAgent
        && agent == if p.value.why == NoPreview then "" else f.holder)
  }

  /** An agent joins by transfer, is a member already, or joins by upgrade or addition. */
  predicate JoinAfter(info: Info, f: Facts, e: Entry) {
    var accepted, here := TaskEvent(f.last, TaskBridged), info.transferFrom == "";
    match e
    case Transfer(_, from, _) =>
      && from == info.transferFrom
      && ((accepted && !here && f.previewer == "") || RevokedAt(f.last, AtTransfer))
    case Upgrade(_, _) => accepted && here && f.member != f.working && f.previewer != ""
    case Add(_, _) => accepted && here && f.member != f.working && f.previewer == ""
    case Bridged(_) =>
      || (accepted && here && f.member == f.working)
      || (f.last.Some? && (f.last.value.Upgrade? || f.last.value.Add?) && f.last.value.r.yes)
      || f.last == Some(Complete)
    case _ => false
  }

  predicate Allowed(info: Info, f: Facts, e: Entry) {
    var p := f.last;
    match e
    case Wait =>
      || (p == None && info.toAgent)
      || Said(p, FindAgent, true)
      || Said(p, GoesOn(true), true)
      || (p.Some? && (p.value.Skip? || (p.value.Miss? && !info.toAgent)))
    case Outer(_) => p == Some(Wait)
    case Inner(_) => InnerAfter(f)
    case Asked(q, _) => AskedAfter(info, f, q)
    case Skip(user) => user == f.working && p.Some? && p.value.Asked? && p.value.q == FindAgain
    case Give(user, millis, _) => user == f.working && GiveAfter(p, millis)
    case Offer(user) => user == f.working && OfferAfter(p)
    case Assign(user) => user == f.working && p.Some? && p.value.Offer? && GaveNothing(f.previous)
    case CloseTask(closer) => Said(p, Unbridged(closer), true)
    case Revoke(user, place) => user == f.previewer && RevokeAfter(info, f, place)
    case Upgrade(user, _) => user == f.working && JoinAfter(info, f, e)
    case Add(user, _) => user == f.working && JoinAfter(info, f, e)
    case Transfer(user, _, _) => user == f.working && JoinAfter(info, f, e)
    case Bridged(user) => user == f.working && JoinAfter(info, f, e)
    case Complete => p.Some? && p.value.Transfer? && p.value.r.yes
    case Miss(user, why, _) => user == f.working && MissAfter(f, why)
    case Finalize(agent) => FinalizeAfter(info, f, agent)
    case FinalMiss(agent) => agent == f.working && Said(p, Unreported, true)
    case Report(agent) => agent == f.working && Said(p, Unreported, false)
    case Abandon => p == Some(Finalize(""))
    case Cleaned =>
      || p == Some(Abandon)
      || RevokedAt(p, AtCleanup)
      || (p.Some? && (p.value.FinalMiss? || p.value.Report?) && f.previewer == "")
  }

  // ---- The ledger says the same --------------------------------------------------------

  ghost predicate Tells(b: Ledger, f: Facts) {
    && b.last == f.last
    && b.agent == f.working
    && b.attemptAgent == f.holder
    && b.joined == f.member
    && b.preview == f.previewer
  }

  lemma {:induction false} AgentsTold(reserved: string, trace: seq<Entry>)
    ensures Read(reserved, trace).agent == Working(trace)
    ensures Read(reserved, trace).attemptAgent == Holder(reserved, trace)
  {
    if trace != [] {
      AgentsTold(reserved, trace[..|trace| - 1]);
    }
  }

  lemma StepTold(b: Ledger, e: Entry)
    ensures Enter(b, e).joined ==
            if e.Assign? || ((e.Upgrade? || e.Add? || e.Transfer?) && e.r.yes) then e.user else b.joined
    ensures Enter(b, e).preview ==
            if e.Give? && e.r.grant == Given then e.user
            else if e.Revoke? || (e.Upgrade? && e.r.yes) then "" else b.preview
  {
  }

  lemma {:induction false} MemberTold(reserved: string, trace: seq<Entry>)
    ensures Read(reserved, trace).joined == Member(trace)
  {
    if trace != [] {
      MemberTold(reserved, trace[..|trace| - 1]);
      StepTold(Read(reserved, trace[..|trace| - 1]), trace[|trace| - 1]);
    }
  }

  lemma {:induction false} PreviewerTold(reserved: string, trace: seq<Entry>)
    ensures Read(reserved, trace).preview == Previewer(trace)
  {
    if trace != [] {
      PreviewerTold(reserved, trace[..|trace| - 1]);
      StepTold(Read(reserved, trace[..|trace| - 1]), trace[|trace| - 1]);
    }
  }

  lemma LedgerTells(reserved: string, trace: seq<Entry>)
    ensures Tells(Read(reserved, trace), FactsOf(reserved, trace))
  {
    AgentsTold(reserved, trace);
    MemberTold(reserved, trace);
    PreviewerTold(reserved, trace);
  }

  /** The flag for an agent who needs no invite. */
  ghost predicate FlagTells(b: Ledger, f: Facts) {
    && (b.last.Some? && b.last.value.Give? ==> (b.member <==> GaveNothing(b.last)))
    && (b.last.Some? && b.last.value.Offer? ==> (b.member <==> GaveNothing(f.previous)))
  }

  lemma StepFlag(info: Info, b: Ledger, f: Facts, e: Entry, f': Facts)
    requires OfferMatches(b) && FlagTells(b, f) && Meets(info, b, DueNext(info, b), e) && f'.previous == b.last
    ensures FlagTells(Enter(b, e), f')
  {
    assert e.Offer? ==> b.last.Some? && (b.last.value.Give? || Unasked(b.last.value));
    assert e.Give? ==> b.last.Some? && Unasked(b.last.value);
  }

  lemma {:induction false} RunFlag(info: Info, reserved: string, env: nat -> Reply, trace: seq<Entry>)
    requires Conforms(info, reserved, env, trace)
    ensures FlagTells(Read(reserved, trace), FactsOf(reserved, trace))
  {
    if trace != [] {
      var before := trace[..|trace| - 1];
      RunFlag(info, reserved, env, before);
      RunMatches(info, reserved, env, before);
      LedgerTells(reserved, before);
      StepFlag(info, Read(reserved, before), FactsOf(reserved, before), trace[|trace| - 1], FactsOf(reserved, trace));
    }
  }

  ghost predicate Agrees(b: Ledger, f: Facts) {
    Tells(b, f) && FlagTells(b, f) && OfferMatches(b) && PreviewMatches(b)
  }

  lemma DueFirst(info: Info, b: Ledger, f: Facts, e: Entry)
    requires Agrees(b, f) && b.last == None
    ensures Meets(info, b, DueNext(info, b), e) <==> Allowed(info, f, e)
  {
  }

  lemma DueAfterOuter(info: Info, b: Ledger, f: Facts, e: Entry)
    requires Agrees(b, f) && b.last.Some? && b.last.value.Outer?
    ensures Meets(info, b, DueNext(info, b), e) <==> Allowed(info, f, e)
  {
  }

  lemma DueAfterInner(info: Info, b: Ledger, f: Facts, e: Entry)
    requires Agrees(b, f) && b.last.Some? && b.last.value.Inner?
    ensures Meets(info, b, DueNext(info, b), e) <==> Allowed(info, f, e)
  {
  }

  predicate Preparing(q: Question) {
    q.FindAgent? || q.TeamFound? || q.FindAgain? || q.InviteSeconds?
  }

  lemma DueAfterPreparing(info: Info, b: Ledger, f: Facts, e: Entry)
    requires Agrees(b, f) && b.last.Some? && b.last.value.Asked? && Preparing(b.last.value.q)
    ensures Meets(info, b, DueNext(info, b), e) <==> Allowed(info, f, e)
  {
  }

  lemma DueAfterDeclined(info: Info, b: Ledger, f: Facts, e: Entry)
    requires Agrees(b, f) && b.last.Some? && b.last.value.Asked? && b.last.value.q.Declined?
    ensures Meets(info, b, DueNext(info, b), e) <==> Allowed(info, f, e)
  {
  }

  lemma DueAfterReading(info: Info, b: Ledger, f: Facts, e: Entry)
    requires Agrees(b, f) && b.last.Some? && b.last.value.Asked?
    requires !Preparing(b.last.value.q) && !b.last.value.q.Declined?
    ensures Meets(info, b, DueNext(info, b), e) <==> Allowed(info, f, e)
  {
  }

  lemma DueAfterPreview(info: Info, b: Ledger, f: Facts, e: Entry)
    requires Agrees(b, f) && b.last.Some? && (b.last.value.Give? || b.last.value.Revoke?)
    ensures Meets(info, b, DueNext(info, b), e) <==> Allowed(info, f, e)
  {
  }

  lemma DueAfterJoin(info: Info, b: Ledger, f: Facts, e: Entry)
    requires Agrees(b, f) && b.last.Some? && (b.last.value.Upgrade? || b.last.value.Add? || b.last.value.Transfer?)
    ensures Meets(info, b, DueNext(info, b), e) <==> Allowed(info, f, e)
  {
  }

  lemma DueAfterAction(info: Info, b: Ledger, f: Facts, e: Entry)
    requires Agrees(b, f) && b.last.Some? && !Consults(b.last.value) && !b.last.value.Revoke?
    ensures Meets(info, b, DueNext(info, b), e) <==> Allowed(info, f, e)
  {
  }

  lemma DueAfterMiss(info: Info, b: Ledger, f: Facts, e: Entry)
    requires Agrees(b, f) && b.last.Some? && b.last.value.Miss?
    ensures Meets(info, b, DueNext(info, b), e) <==> Allowed(info, f, e)
  {
  }

  /** The protocol asks for an entry exactly if the entry has its cause. */
  lemma DueExactly(info: Info, b: Ledger, f: Facts, e: Entry)
    requires Agrees(b, f)
    ensures Meets(info, b, DueNext(info, b), e) <==> Allowed(info, f, e)
  {
    if b.last == None {
      DueFirst(info, b, f, e);
    } else if b.last.value.Outer? {
      DueAfterOuter(info, b, f, e);
    } else if b.last.value.Inner? {
      DueAfterInner(info, b, f, e);
    } else if b.last.value.Asked? && Preparing(b.last.value.q) {
      DueAfterPreparing(info, b, f, e);
    } else if b.last.value.Asked? && b.last.value.q.Declined? {
      DueAfterDeclined(info, b, f, e);
    } else if b.last.value.Asked? {
      DueAfterReading(info, b, f, e);
    } else if b.last.value.Give? || b.last.value.Revoke? {
      DueAfterPreview(info, b, f, e);
    } else if b.last.value.Upgrade? || b.last.value.Add? || b.last.value.Transfer? {
      DueAfterJoin(info, b, f, e);
    } else if b.last.value.Miss? {
      DueAfterMiss(info, b, f, e);
    } else {
      DueAfterAction(info, b, f, e);
    }
  }

  /** In every run each entry has its cause, and a run may go on with an entry, with the next
      reply, exactly if it has. */
  lemma EveryEntryHasItsCause(info: Info, reserved: string, env: nat -> Reply, trace: seq<Entry>, e: Entry)
    requires Conforms(info, reserved, env, trace)
    ensures Conforms(info, reserved, env, trace + [e]) <==>
            && Allowed(info, FactsOf(reserved, trace), e)
            && (Consults(e) ==> e.r == env(Read(reserved, trace).asked))
  {
    assert (trace + [e])[..|trace|] == trace;
    LedgerTells(reserved, trace);
    RunFlag(info, reserved, env, trace);
    RunMatches(info, reserved, env, trace);
    DueExactly(info, Read(reserved, trace), FactsOf(reserved, trace), e);
  }
}
