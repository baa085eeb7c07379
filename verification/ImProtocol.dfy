/** The run of a message queue as one flat protocol, like that of the calls: after what was
    logged so far exactly one entry may come next, and every reading of the environment
    (gateway, store, timers, the agent's task) is logged. */
module ImProtocol {
  import opened Journals
  import opened Options
  import opened ImSession

  const PREVIEW_GRACE_MILLIS := 5000

  /** The lifetime of an invite, from the team's timeout in seconds. */
  function InviteMillis(seconds: nat): nat {
    if 1000 * seconds > MAX_PREVIEW_MILLIS then MAX_PREVIEW_MILLIS else 1000 * seconds
  }

  function PreviewMillis(invite: nat): nat {
    if invite + PREVIEW_GRACE_MILLIS > MAX_PREVIEW_MILLIS then MAX_PREVIEW_MILLIS else invite + PREVIEW_GRACE_MILLIS
  }

  /** Where the attempt came from: the user who transferred it, if any, and whether it was
      transferred to a certain agent. */
  datatype Info = Info(transferFrom: string, toAgent: bool)

  datatype OuterEvent = Cancelled | ContextDone | SessionDone | AgentRouted | Tick

  datatype InnerEvent =
    | CancelledInside | TransferredAway | SessionDoneInside | TaskBridged | TaskClosed | InviteTimeout | TickInside

  datatype Grant = Given | AlreadyMember | Refused

  /** One reply of the environment; the code reads the part it asked for. */
  datatype Reply = Reply(yes: bool, outer: OuterEvent, inner: InnerEvent, user: UserId, seconds: nat, grant: Grant,
                         memberId: string)

  datatype Question =
    | FindAgent              // the attempt was marked as looking for an agent
    | TeamFound
    | FindAgain              // the same, after the initiator of the transfer was skipped
    | InviteSeconds
    | Unbridged(closer: Closer)  // the task has no bridge time
    | Declined               // the task was closed and has no bridge time
    | GoesOn(waiting: bool)  // no idle timeout
    | Unreported             // the task was declined and not reported

  datatype Closer = ByCancel | ByTimeout

  datatype Place = AtTransfer | AtJoinError | AtDecline | AtCleanup

  datatype Entry =
    | Wait                                               // the outer loop selects
    | Outer(r: Reply)
    | Inner(r: Reply)
    | Asked(q: Question, r: Reply)
    | Skip(user: UserId)                                 // the initiator of the transfer is passed over
    | Give(user: UserId, millis: nat, r: Reply)          // GivePreviewUser
    | Offer(user: UserId)
    | Assign(user: UserId)                               // MarkUserJoined and SetAnswered
    | CloseTask(closer: Closer)
    | Revoke(user: UserId, place: Place)                 // RemovePreviewUser
    | Upgrade(user: UserId, r: Reply)                    // UpgradePreviewUser
    | Add(user: UserId, r: Reply)                        // AddMemberUser
    | Transfer(user: UserId, from: string, r: Reply)     // TransferMemberUser
    | Complete                                           // completeIMTransfer
    | Bridged(user: UserId)
    | Miss(user: UserId, why: MissCause, r: Reply)       // the attempt loses its agent if this is saved
    | Finalize(agent: string)                            // "" without an agent
    | FinalMiss(agent: string)
    | Report(agent: string)
    | Abandon
    | Cleaned                                            // cleanupSession is done

  datatype MissCause = NoPreview | NoJoin | WasDeclined

  /** What the log says: the user with a preview, the joined user, the agent of the attempt
      and the one the run works with (or was finalized with), and the users the gateway was
      called for about previews. */
  datatype Ledger = Ledger(last: Option<Entry>, preview: string, joined: string, attemptAgent: string, agent: string,
                           member: bool, calls: seq<string>, asked: nat, selects: nat)

  function Blank(reserved: string): Ledger {
    Ledger(None, "", "", reserved, "", false, [], 0, 0)
  }

  predicate Consults(e: Entry) {
    e.Outer? || e.Inner? || e.Asked? || e.Give? || e.Upgrade? || e.Add? || e.Transfer? || e.Miss?
  }

  /** The gateway is called about a preview. */
  predicate Calls(e: Entry) {
    e.Give? || e.Upgrade? || e.Revoke?
  }

  function Enter(b: Ledger, e: Entry): Ledger {
    var b1 := b.(last := Some(e), asked := if Consults(e) then b.asked + 1 else b.asked,
                 selects := if e.Outer? || e.Inner? then b.selects + 1 else b.selects,
                 calls := if Calls(e) then b.calls + [e.user] else b.calls);
    match e
    case Outer(r) =>
      if r.outer == AgentRouted then b1.(attemptAgent := r.user, agent := r.user, member := false) else b1
    case Skip(_) => b1.(attemptAgent := "")
    case Give(user, _, r) =>
      (match r.grant case Given => b1.(preview := user) case AlreadyMember => b1.(member := true) case Refused => b1)
    case Assign(user) => b1.(joined := user)
    case Revoke(_, _) => b1.(preview := "")
    case Upgrade(user, r) => if r.yes then b1.(preview := "", joined := user) else b1
    case Add(user, r) => if r.yes then b1.(joined := user) else b1
    case Transfer(user, _, r) => if r.yes then b1.(joined := user) else b1
    case Miss(_, _, r) => if r.yes then b1.(attemptAgent := "") else b1
    case Finalize(agent) => b1.(agent := agent)
    case _ => b1
  }

  function Read(reserved: string, trace: seq<Entry>): Ledger {
    if trace == [] then Blank(reserved) else Enter(Read(reserved, trace[..|trace| - 1]), trace[|trace| - 1])
  }

  // ---- The protocol --------------------------------------------------------------------

  datatype Due =
    | Nothing | TakeOuter | TakeInner | Ask(q: Question)
    | TakeGive(millis: nat) | TakeUpgrade | TakeAdd | TakeTransfer | TakeMiss(why: MissCause)
    | Do(e: Entry)

  function AfterRevoke(place: Place): Due {
    match place
    case AtTransfer => TakeTransfer
    case AtJoinError => TakeMiss(NoJoin)
    case AtDecline => TakeMiss(WasDeclined)
    case AtCleanup => Do(Cleaned)
  }

  /** Revokes the preview if there is one, and then goes on. */
  function Revoked(b: Ledger, place: Place): Due {
    if b.preview != "" then Do(Revoke(b.preview, place)) else AfterRevoke(place)
  }

  function JoinStep(info: Info, b: Ledger): Due {
    if info.transferFrom != "" then Revoked(b, AtTransfer)
    else if b.joined != "" && b.joined == b.agent then Do(Bridged(User(b)))
    else if b.preview != "" then TakeUpgrade
    else TakeAdd
  }

  function User(b: Ledger): UserId {
    if b.agent != "" then b.agent else "0"
  }

  function AfterGive(b: Ledger, r: Reply): Due {
    if r.grant == Refused then TakeMiss(NoPreview) else Do(Offer(User(b)))
  }

  function AfterMiss(info: Info, b: Ledger, why: MissCause): Due {
    if !info.toAgent then Do(Wait)
    else Do(Finalize(if why == NoPreview then "" else b.attemptAgent))
  }

  function AfterOuter(b: Ledger, event: OuterEvent): Due {
    match event
    case AgentRouted => Ask(TeamFound)
    case Tick => Ask(GoesOn(true))
    case _ => Do(Finalize(b.agent))
  }

  function AfterInner(info: Info, b: Ledger, event: InnerEvent): Due {
    match event
    case CancelledInside => Ask(Unbridged(ByCancel))
    case InviteTimeout => Ask(Unbridged(ByTimeout))
    case TaskBridged => JoinStep(info, b)
    case TaskClosed => Ask(Declined)
    case TickInside => Ask(GoesOn(false))
    case _ => Do(Finalize(b.attemptAgent))
  }

  function AfterAnswer(info: Info, b: Ledger, q: Question, r: Reply): Due {
    match q
    case FindAgent => if r.yes then Do(Wait) else Nothing
    case TeamFound =>
      if !r.yes then Nothing else if info.transferFrom == b.agent then Ask(FindAgain) else Ask(InviteSeconds)
    case FindAgain => Do(Skip(User(b)))
    case InviteSeconds =>
      if InviteMillis(r.seconds) == 0 then Do(Offer(User(b))) else TakeGive(PreviewMillis(InviteMillis(r.seconds)))
    case Unbridged(closer) => if r.yes then Do(CloseTask(closer)) else TakeInner
    case Declined => if r.yes then Revoked(b, AtDecline) else Do(Finalize(b.attemptAgent))
    case GoesOn(waiting) =>
      if waiting then (if r.yes then Do(Wait) else Do(Finalize(b.agent)))
      else (if r.yes then TakeInner else Do(Finalize(b.attemptAgent)))
    case Unreported => if r.yes then Do(FinalMiss(b.agent)) else Do(Report(b.agent))
  }

  /** The cleanup revokes a preview only if the run was finalized with an agent. */
  function Cleanup(b: Ledger): Due {
    if b.agent != "" then Revoked(b, AtCleanup) else Do(Cleaned)
  }

  function DueNext(info: Info, b: Ledger): Due {
    if b.last.None? then (if info.toAgent then Do(Wait) else Ask(FindAgent))
    else
      match b.last.value
      case Wait => TakeOuter
      case Outer(r) => AfterOuter(b, r.outer)
      case Inner(r) => AfterInner(info, b, r.inner)
      case Asked(q, r) => AfterAnswer(info, b, q, r)
      case Skip(_) => Do(Wait)
      case Give(_, _, r) => AfterGive(b, r)
      case Offer(_) => if b.member then Do(Assign(User(b))) else TakeInner
      case Assign(_) => TakeInner
      case CloseTask(_) => TakeInner
      case Revoke(_, place) => AfterRevoke(place)
      case Upgrade(_, r) => if r.yes then Do(Bridged(User(b))) else Revoked(b, AtJoinError)
      case Add(_, r) => if r.yes then Do(Bridged(User(b))) else Revoked(b, AtJoinError)
      case Transfer(_, _, r) => if r.yes then Do(Complete) else Revoked(b, AtJoinError)
      case Complete => Do(Bridged(User(b)))
      case Bridged(_) => TakeInner
      case Miss(_, why, _) => AfterMiss(info, b, why)
      case Finalize(agent) => if agent != "" then Ask(Unreported) else Do(Abandon)
      case FinalMiss(_) => Cleanup(b)
      case Report(_) => Cleanup(b)
      case Abandon => Cleanup(b)
      case Cleaned => Nothing
  }

  predicate Meets(info: Info, b: Ledger, due: Due, e: Entry) {
    match due
    case Nothing => false
    case TakeOuter => e.Outer?
    case TakeInner => e.Inner?
    case Ask(q) => e.Asked? && e.q == q
    case TakeGive(millis) => e.Give? && e.user == b.agent && e.millis == millis
    case TakeUpgrade => e.Upgrade? && e.user == b.agent
    case TakeAdd => e.Add? && e.user == b.agent
    case TakeTransfer => e.Transfer? && e.user == b.agent && e.from == info.transferFrom
    case TakeMiss(why) => e.Miss? && e.user == b.agent && e.why == why
    case Do(d) => e == d
  }

  /** Every entry is the one that was due, and every reading is the next reply. */
  ghost predicate Conforms(info: Info, reserved: string, env: nat -> Reply, trace: seq<Entry>) {
    trace == [] ||
    var before, e := trace[..|trace| - 1], trace[|trace| - 1];
    && Conforms(info, reserved, env, before)
    && Meets(info, Read(reserved, before), DueNext(info, Read(reserved, before)), e)
    && (Consults(e) ==> e.r == env(Read(reserved, before).asked))
  }

  // ---- What the protocol guarantees ----------------------------------------------------

  /** From the routing of an agent until it is missed, skipped, or the run is finalized. */
  predicate InOffer(e: Entry) {
    match e
    case Outer(r) => r.outer == AgentRouted
    case Asked(q, _) => q != FindAgent && q != GoesOn(true) && q != Unreported
    case Revoke(_, place) => place != AtCleanup
    case _ =>
      || e.Give? || e.Offer? || e.Assign? || e.Inner? || e.CloseTask?
      || e.Upgrade? || e.Add? || e.Transfer? || e.Complete? || e.Bridged?
  }

  /** Where a preview may be active. */
  predicate Previewing(e: Entry) {
    match e
    case Give(_, _, r) => r.grant == Given
    case Upgrade(_, r) => !r.yes
    case Asked(q, _) => q.Unbridged? || q.Declined? || q == GoesOn(false) || q.Unreported?
    case _ => e.Offer? || e.Inner? || e.CloseTask? || e.Bridged? || e.Finalize? || e.FinalMiss? || e.Report?
  }

  /** Before the gateway was asked for a preview. */
  predicate Unasked(e: Entry) {
    (e.Outer? && e.r.outer == AgentRouted) || (e.Asked? && (e.q.TeamFound? || e.q.FindAgain? || e.q.InviteSeconds?))
  }

  /** During an offer the attempt holds the agent the run works with. */
  ghost predicate OfferMatches(b: Ledger) {
    b.last.Some? ==>
      && (InOffer(b.last.value) ==> b.agent != "" && b.attemptAgent == b.agent)
      && (Unasked(b.last.value) ==> !b.member)
      && (b.last.value.Finalize? ==> b.agent == b.last.value.agent)
  }

  /** A preview is active only during an offer or before the cleanup, and it is the agent's. */
  ghost predicate PreviewMatches(b: Ledger) {
    b.preview != "" ==> b.preview == b.agent && b.last.Some? && Previewing(b.last.value) && !b.member
  }

  lemma OfferStarts(info: Info, b: Ledger, e: Entry)
    requires !(b.last.Some? && InOffer(b.last.value)) && Meets(info, b, DueNext(info, b), e)
    ensures OfferMatches(Enter(b, e))
  {
    assert InOffer(e) ==> e.Outer?;
  }

  lemma OfferGoesOn(info: Info, b: Ledger, e: Entry)
    requires OfferMatches(b) && b.last.Some? && InOffer(b.last.value) && Meets(info, b, DueNext(info, b), e)
    ensures OfferMatches(Enter(b, e))
  {
  }

  lemma StepOffer(info: Info, b: Ledger, e: Entry)
    requires OfferMatches(b) && Meets(info, b, DueNext(info, b), e)
    ensures OfferMatches(Enter(b, e))
  {
    if b.last.Some? && InOffer(b.last.value) {
      OfferGoesOn(info, b, e);
    } else {
      OfferStarts(info, b, e);
    }
  }

  /** Only a grant makes a preview active, and it is the agent's. */
  lemma GrantMatches(info: Info, b: Ledger, e: Entry)
    requires OfferMatches(b) && b.preview == "" && Meets(info, b, DueNext(info, b), e)
    ensures PreviewMatches(Enter(b, e))
  {
    assert Enter(b, e).preview != "" ==> e.Give? && b.last.Some? && Unasked(b.last.value);
  }

  /** An active preview ends, or the agent is still the same. */
  lemma ActiveMatches(info: Info, b: Ledger, e: Entry)
    requires OfferMatches(b) && PreviewMatches(b) && b.preview != "" && InOffer(b.last.value)
    requires Meets(info, b, DueNext(info, b), e)
    ensures PreviewMatches(Enter(b, e))
  {
  }

  lemma EndingMatches(info: Info, b: Ledger, e: Entry)
    requires OfferMatches(b) && PreviewMatches(b) && b.preview != "" && !InOffer(b.last.value)
    requires Meets(info, b, DueNext(info, b), e)
    ensures PreviewMatches(Enter(b, e))
  {
  }

  lemma StepMatches(info: Info, b: Ledger, e: Entry)
    requires OfferMatches(b) && PreviewMatches(b) && Meets(info, b, DueNext(info, b), e)
    ensures PreviewMatches(Enter(b, e))
  {
    if b.preview == "" {
      GrantMatches(info, b, e);
    } else if InOffer(b.last.value) {
      ActiveMatches(info, b, e);
    } else {
      EndingMatches(info, b, e);
    }
  }

  /** A preview is granted when none is active; what is upgraded or revoked is the active one. */
  lemma PreviewAt(info: Info, b: Ledger, e: Entry)
    requires OfferMatches(b) && PreviewMatches(b) && Meets(info, b, DueNext(info, b), e)
    ensures e.Give? ==> b.preview == ""
    ensures e.Upgrade? || e.Revoke? ==> b.preview == e.user
  {
  }

  lemma GiveAfterSeconds(info: Info, b: Ledger, e: Entry)
    requires Meets(info, b, DueNext(info, b), e) && e.Give?
    ensures b.last.Some? && b.last.value.Asked? && b.last.value.q == InviteSeconds
    ensures 0 < InviteMillis(b.last.value.r.seconds) && e.millis == PreviewMillis(InviteMillis(b.last.value.r.seconds))
  {
  }

  lemma {:induction false} RunMatches(info: Info, reserved: string, env: nat -> Reply, trace: seq<Entry>)
    requires Conforms(info, reserved, env, trace)
    ensures OfferMatches(Read(reserved, trace)) && PreviewMatches(Read(reserved, trace))
  {
    if trace != [] {
      RunMatches(info, reserved, env, trace[..|trace| - 1]);
      StepOffer(info, Read(reserved, trace[..|trace| - 1]), trace[|trace| - 1]);
      StepMatches(info, Read(reserved, trace[..|trace| - 1]), trace[|trace| - 1]);
    }
  }

  function CountGiven(trace: seq<Entry>, user: UserId): nat {
    if trace == [] then 0
    else
      CountGiven(trace[..|trace| - 1], user) + Gives(trace[|trace| - 1], user)
  }

  /** Previews turned into a membership, or revoked. */
  function CountClosed(trace: seq<Entry>, user: UserId): nat {
    if trace == [] then 0
    else
      CountClosed(trace[..|trace| - 1], user) + Closes(trace[|trace| - 1], user)
  }

  function Gives(e: Entry, user: UserId): int {
    if e.Give? && e.user == user && e.r.grant == Given then 1 else 0
  }

  function Closes(e: Entry, user: UserId): int {
    if (e.Upgrade? && e.user == user && e.r.yes) || (e.Revoke? && e.user == user) then 1 else 0
  }

  lemma CountStep(b: Ledger, e: Entry, user: UserId)
    requires (e.Give? ==> b.preview == "") && (e.Upgrade? || e.Revoke? ==> b.preview == e.user)
    ensures (if Enter(b, e).preview == user then 1 else 0)
         == (if b.preview == user then 1 else 0) + Gives(e, user) - Closes(e, user)
  {
  }

  lemma {:induction false} CountPreviews(info: Info, reserved: string, env: nat -> Reply, trace: seq<Entry>,
        user: UserId)
    requires Conforms(info, reserved, env, trace)
    ensures CountGiven(trace, user) == CountClosed(trace, user) + if Read(reserved, trace).preview == user then 1 else 0
  {
    if trace != [] {
      var before := trace[..|trace| - 1];
      CountPreviews(info, reserved, env, before, user);
      RunMatches(info, reserved, env, before);
      PreviewAt(info, Read(reserved, before), trace[|trace| - 1]);
      CountStep(Read(reserved, before), trace[|trace| - 1], user);
    }
  }

  /** The users of the entries that ask the gateway for a preview, an upgrade or a removal. */
  function PreviewCalls(trace: seq<Entry>): seq<string> {
    if trace == [] then []
    else
      var e := trace[|trace| - 1];
      PreviewCalls(trace[..|trace| - 1]) + if Calls(e) then [e.user] else []
  }

  lemma CallLogged(b: Ledger, e: Entry)
    ensures Enter(b, e).calls == b.calls + if Calls(e) then [e.user] else []
  {
  }

  lemma {:induction false} CallsLogged(reserved: string, trace: seq<Entry>)
    ensures Read(reserved, trace).calls == PreviewCalls(trace)
  {
    if trace != [] {
      CallsLogged(reserved, trace[..|trace| - 1]);
      CallLogged(Read(reserved, trace[..|trace| - 1]), trace[|trace| - 1]);
    }
  }

  /** Every preview that was granted has been upgraded or revoked. */
  ghost predicate AllClosed(trace: seq<Entry>) {
    forall user: UserId :: CountGiven(trace, user) == CountClosed(trace, user)
  }

  lemma {:induction false} ConformsPrefix(info: Info, reserved: string, env: nat -> Reply, trace: seq<Entry>, n: nat)
    requires Conforms(info, reserved, env, trace) && n <= |trace|
    ensures Conforms(info, reserved, env, trace[..n])
    ensures n < |trace| ==> Meets(info, Read(reserved, trace[..n]), DueNext(info, Read(reserved, trace[..n])), trace[n])
    decreases |trace| - n
  {
    if n < |trace| {
      ConformsPrefix(info, reserved, env, trace, n + 1);
      assert trace[..n + 1][..n] == trace[..n];
    } else {
      assert trace[..n] == trace;
    }
  }

  lemma NoneAtTheEnd(info: Info, b: Ledger)
    requires PreviewMatches(b) && DueNext(info, b) == Nothing
    ensures b.preview == ""
  {
  }

  lemma ClosedWithoutPreview(info: Info, reserved: string, env: nat -> Reply, trace: seq<Entry>)
    requires Conforms(info, reserved, env, trace) && Read(reserved, trace).preview == ""
    ensures AllClosed(trace)
  {
    forall user: UserId ensures CountGiven(trace, user) == CountClosed(trace, user) {
      CountPreviews(info, reserved, env, trace, user);
    }
  }

  /** At most one preview is active at any time. */
  lemma OnePreviewAtATime(info: Info, reserved: string, env: nat -> Reply, trace: seq<Entry>, user: UserId,
        other: UserId)
    requires Conforms(info, reserved, env, trace) && user != other
    ensures CountClosed(trace, user) <= CountGiven(trace, user) <= CountClosed(trace, user) + 1
    ensures CountGiven(trace, user) == CountClosed(trace, user) || CountGiven(trace, other) == CountClosed(trace, other)
  {
    CountPreviews(info, reserved, env, trace, user);
    CountPreviews(info, reserved, env, trace, other);
  }

  /** Whenever the run waits for an agent, no preview is active. */
  lemma NoPreviewWhileWaiting(info: Info, reserved: string, env: nat -> Reply, trace: seq<Entry>, i: nat)
    requires Conforms(info, reserved, env, trace) && i < |trace| && trace[i] == Wait
    ensures AllClosed(trace[..i])
  {
    ConformsPrefix(info, reserved, env, trace, i);
    RunMatches(info, reserved, env, trace[..i]);
    StepMatches(info, Read(reserved, trace[..i]), Wait);
    ClosedWithoutPreview(info, reserved, env, trace[..i]);
  }

  /** When nothing more is due, whether the session was cleaned up or the run stopped on a
      store or team error, every preview has been upgraded or revoked. */
  lemma AllClosedAtTheEnd(info: Info, reserved: string, env: nat -> Reply, trace: seq<Entry>)
    requires Conforms(info, reserved, env, trace) && DueNext(info, Read(reserved, trace)) == Nothing
    ensures AllClosed(trace)
  {
    RunMatches(info, reserved, env, trace);
    NoneAtTheEnd(info, Read(reserved, trace));
    ClosedWithoutPreview(info, reserved, env, trace);
  }

  lemma LastRead(reserved: string, trace: seq<Entry>)
    ensures Read(reserved, trace).last == if trace == [] then None else Some(trace[|trace| - 1])
  {
  }

  /** Every requested preview follows a reading of the invite's lifetime, which is not zero. It
      lives five seconds longer than the invite, but no longer than an hour, which is what
      the gateway accepts; an invite is cut to an hour as well. */
  lemma PreviewOutlivesInvite(info: Info, reserved: string, env: nat -> Reply, trace: seq<Entry>, i: nat)
    requires Conforms(info, reserved, env, trace) && i < |trace| && trace[i].Give?
    ensures i > 0 && trace[i - 1].Asked? && trace[i - 1].q == InviteSeconds && trace[i - 1].r.seconds > 0
    ensures var asked := 1000 * trace[i - 1].r.seconds;
            && 0 < InviteMillis(trace[i - 1].r.seconds) <= trace[i].millis <= 3600000
            && InviteMillis(trace[i - 1].r.seconds) == (if asked <= 3600000 then asked else 3600000)
            && trace[i].millis == if asked + 5000 <= 3600000 then asked + 5000 else 3600000
  {
    ConformsPrefix(info, reserved, env, trace, i);
    GiveAfterSeconds(info, Read(reserved, trace[..i]), trace[i]);
    LastRead(reserved, trace[..i]);
  }

  // ---- Keeping a log -------------------------------------------------------------------

  type Log = Journal<Entry, Ledger>

  ghost predicate Kept(info: Info, reserved: string, env: nat -> Reply, log: Log) {
    forall x: Log {:trigger Journals.Opened(x)} :: Journals.Opened(x) && x == log ==>
      Conforms(info, reserved, env, x.trace) && x.b == Read(reserved, x.trace)
  }

  lemma Open(info: Info, reserved: string, env: nat -> Reply, log: Log)
    requires Kept(info, reserved, env, log)
    ensures Conforms(info, reserved, env, log.trace) && log.b == Read(reserved, log.trace)
  {
    assert Journals.Opened(log);
  }

  lemma BlankKept(info: Info, reserved: string, env: nat -> Reply)
    ensures Kept(info, reserved, env, Journal([], Blank(reserved)))
  {
  }

  function Put(info: Info, ghost reserved: string, env: nat -> Reply, log: Log, e: Entry): (r: Log)
    requires Kept(info, reserved, env, log)
    requires Meets(info, log.b, DueNext(info, log.b), e) && (Consults(e) ==> e.r == env(log.b.asked))
    ensures Kept(info, reserved, env, r) && r.b == Enter(log.b, e)
  {
    assert Journals.Opened(log);
    Appended(log.trace, e);
    Journal(log.trace + [e], Enter(log.b, e))
  }

  function Inquire(info: Info, ghost reserved: string, env: nat -> Reply, log: Log, q: Question): (r: Log)
    requires Kept(info, reserved, env, log) && DueNext(info, log.b) == Ask(q)
    ensures Kept(info, reserved, env, r) && r.b == Enter(log.b, Asked(q, env(log.b.asked)))
  {
    Put(info, reserved, env, log, Asked(q, env(log.b.asked)))
  }
}
