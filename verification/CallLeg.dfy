/** One call leg: its timestamps, its state, its hangup record and its ring timer. */
module CallLeg {
  import opened Options

  const NEW := 0
  const INVITE := 1
  const RINGING := 2
  const ACCEPT := 4
  const BRIDGE := 7
  const HOLD := 8
  const DETECT_AMD := 9
  const HANGUP := 10

  const NO_ANSWER := "NO_ANSWER"
  const NORMAL_CLEARING := "NORMAL_CLEARING"

  datatype Transfers = Transfers(to: Option<string>, from: Option<string>, toAgent: Option<int>,
                                 fromAttempt: Option<int>, toAttempt: Option<int>)

  datatype Hangup = Hangup(cause: string, sipCode: Option<int>, at: int, reportingAt: Option<int>, transfers: Transfers)

  const NO_TRANSFER := Transfers(None, None, None, None, None)

  datatype Event = Ringing(at: int) | Progress(at: int) | Active(at: int) | Bridge(at: int, other: string) | Hold
                 | Amd(result: string) | HungUp(h: Hangup)

  /** The ring timer does not exist, is running, or was stopped or has fired. */
  datatype Timer = Unset | Armed | Idle

  /** `closes` counts how often the hangup channel was closed (a second close would panic),
      `sent` lists the hangups asked of the gateway. */
  datatype Leg = Leg(state: nat, timeout: nat, timer: Timer, cached: bool, ringingAt: int, progressAt: int,
                     acceptAt: int, bridgeAt: int, bridgedId: Option<string>, amdResult: string, hangupAt: int,
                     reportingAt: int, hangup: Option<Hangup>, transfers: Transfers, closes: nat, cancel: string,
                     sent: seq<string>)

  function Created(timeout: nat): Leg {
    Leg(NEW, timeout, Unset, false, 0, 0, 0, 0, None, "", 0, 0, None, NO_TRANSFER, 0, "", [])
  }

  function Stopped(t: Timer): Timer {
    if t == Unset then Unset else Idle
  }

  /** The part of an event's setter that runs under the lock. */
  function Locked(leg: Leg, e: Event, now: int): Leg {
    match e
    case Ringing(at) =>
      leg.(ringingAt := at, timer := if leg.timer == Unset && leg.timeout > 0 then Armed else leg.timer)
    case Progress(at) =>
      if leg.progressAt == 0
      then leg.(progressAt := at, timer := if leg.timer != Unset && leg.timeout > 0 then Armed else leg.timer)
      else leg
    case Active(at) => leg.(acceptAt := at, timer := Stopped(leg.timer))
    case Bridge(at, other) => leg.(bridgeAt := at, bridgedId := Some(other), timer := Stopped(leg.timer))
    case Hold => leg
    case Amd(result) => leg.(amdResult := result)
    case HungUp(h) =>
      if leg.hangupAt == 0
      then leg.(hangup := Some(h), cached := false, timer := Stopped(leg.timer),
                hangupAt := if h.at == 0 then now else h.at,
                reportingAt := if h.reportingAt.Some? then h.reportingAt.value else leg.reportingAt,
                transfers := h.transfers, closes := leg.closes + 1)
      else leg
  }

  /** The state written after the lock was given back, if any. */
  function StateOf(leg: Leg, e: Event): Option<nat> {
    match e
    case Ringing(_) => Some(RINGING)
    case Progress(_) => None
    case Active(_) => Some(ACCEPT)
    case Bridge(_, _) => Some(BRIDGE)
    case Hold => Some(HOLD)
    case Amd(_) => Some(DETECT_AMD)
    case HungUp(_) => if leg.hangupAt == 0 then Some(HANGUP) else None
  }

  /** A setter ignores a second active event before it takes the lock. */
  predicate Ignores(leg: Leg, e: Event) {
    e.Active? && leg.acceptAt != 0
  }

  function Write(leg: Leg, state: Option<nat>): Leg {
    if state.Some? then leg.(state := state.value) else leg
  }

  function Set(leg: Leg, e: Event, now: int): Leg {
    if Ignores(leg, e) then leg else Write(Locked(leg, e, now), StateOf(leg, e))
  }

  function Invited(leg: Leg, outbound: bool): Leg {
    leg.(cached := true, state := if outbound then INVITE else leg.state)
  }

  function HangupCause(leg: Leg): string {
    if leg.hangup.Some? then leg.hangup.value.cause else ""
  }

  function HangupCode(leg: Leg): int {
    if leg.hangup.Some? && leg.hangup.value.sipCode.Some? then leg.hangup.value.sipCode.value else 0
  }

  /** What a failed hangup request records in place of the gateway's event. */
  function OwnHangup(cause: string, now: int): Event {
    HungUp(Hangup(cause, None, now, None, NO_TRANSFER))
  }

  function AskHangup(leg: Leg, cause: string, reached: bool, now: int): Leg {
    if leg.state < INVITE then leg.(cancel := cause, closes := leg.closes + 1)
    else
      var cause := if cause == "" then NORMAL_CLEARING else cause;
      var asked := leg.(sent := leg.sent + [cause]);
      if !reached && HangupCause(asked) == "" then Set(asked, OwnHangup(cause, now), now) else asked
  }

  function Fire(leg: Leg, reached: bool, now: int): Leg {
    if leg.timer != Armed then leg
    else
      var fired := leg.(timer := Idle);
      if fired.state < ACCEPT then AskHangup(fired, NO_ANSWER, reached, now) else fired
  }

  function ResetBridge(leg: Leg): Leg {
    leg.(bridgeAt := 0, bridgedId := None)
  }

  /** WaitForHangup does not block, or the channel it blocks on is closed. */
  predicate WaitReturns(leg: Leg) {
    (HangupCode(leg) != 0 && HangupCode(leg) != 200) || HangupCause(leg) != "" || leg.closes > 0
  }

  // ---- The leg as an object ------------------------------------------------------------

  /** The same leg, updated in place by the event handler, the timer and the queues. */
  class Call {
    const outbound: bool
    const timeout: nat
    var state: nat
    var timer: Timer
    var cached: bool
    var ringingAt: int
    var progressAt: int
    var acceptAt: int
    var bridgeAt: int
    var bridgedId: Option<string>
    var amdResult: string
    var hangupAt: int
    var reportingAt: int
    var hangup: Option<Hangup>
    var transfers: Transfers
    var closes: nat
    var cancel: string
    var sent: seq<string>

    ghost function View(): Leg
      reads this
    {
      Leg(state, timeout, timer, cached, ringingAt, progressAt, acceptAt, bridgeAt, bridgedId, amdResult, hangupAt,
          reportingAt, hangup, transfers, closes, cancel, sent)
    }

    /** Invited, with the hangup recorded at most once; a hung up leg is out of the cache,
        its channel closed once, and its timer does not run. */
    ghost predicate Valid()
      reads this
    {
      Quiet(View())
    }

    constructor (outbound: bool, timeout: nat)
      ensures View() == Created(timeout) && this.outbound == outbound
    {
      this.outbound, this.timeout, state, timer, cached := outbound, timeout, NEW, Unset, false;
      ringingAt, progressAt, acceptAt, bridgeAt, hangupAt, reportingAt := 0, 0, 0, 0, 0, 0;
      bridgedId, amdResult, hangup, transfers, closes, cancel, sent := None, "", None, NO_TRANSFER, 0, "", [];
    }

    method Invite() returns (ok: bool)
      modifies this
      ensures View() == Invited(old(View()), outbound) && ok == outbound
      ensures cached && state == (if outbound then 1 else old(state)) && timer == old(timer) && closes == old(closes)
      ensures outbound && old(View()) == Created(timeout) ==> Valid()
    {
      cached := true;
      if !outbound {
        return false;
      }
      state := INVITE;
      return true;
    }

    method SetRinging(at: int)
      modifies this
      ensures View() == Set(old(View()), Ringing(at), 0)
      ensures old(Valid()) && old(cached) ==> Valid()
    {
      ringingAt := at;
      if timer == Unset && timeout > 0 {
        timer := Armed;
      }
      state := RINGING;
    }

    method SetProgress(at: int)
      modifies this
      ensures View() == Set(old(View()), Progress(at), 0)
      ensures old(Valid()) && old(cached) ==> Valid()
    {
      if progressAt == 0 && timer != Unset && timeout > 0 {
        timer := Armed;
      }
      if progressAt == 0 {
        progressAt := at;
      }
    }

    method SetActive(at: int)
      modifies this
      ensures View() == Set(old(View()), Active(at), 0)
      ensures old(Valid()) && old(cached) ==> Valid()
      ensures old(acceptAt) == 0 ==> timer != Armed && state >= ACCEPT
    {
      if acceptAt == 0 {
        acceptAt := at;
        timer := Stopped(timer);
        state := ACCEPT;
      }
    }

    method SetBridge(at: int, other: string)
      modifies this
      ensures View() == Set(old(View()), Bridge(at, other), 0)
      ensures old(Valid()) && old(cached) ==> Valid()
      ensures old(acceptAt) == 0 ==> timer != Armed && state >= ACCEPT
    {
      bridgeAt := at;
      bridgedId := Some(other);
      timer := Stopped(timer);
      state := BRIDGE;
    }

    method SetHangup(h: Hangup, now: int)
      requires now > 0
      modifies this
      ensures View() == Set(old(View()), HungUp(h), now)
      ensures old(Valid()) ==> Valid() && hangup.Some? && closes == 1 && WaitReturns(View())
      ensures old(Valid()) ==> hangup == (if old(hangup).Some? then old(hangup) else Some(h))
      ensures old(Valid()) && old(hangup).Some? ==> View() == old(View())
    {
      if hangupAt == 0 {
        RecordHangup(h, now);
        state := HANGUP;
      }
    }

    /** The section under the lock. */
    method RecordHangup(h: Hangup, now: int)
      modifies this`hangup, this`cached, this`timer, this`hangupAt, this`reportingAt, this`transfers, this`closes
      ensures hangup == Some(h) && hangupAt == (if h.at == 0 then now else h.at) && transfers == h.transfers
      ensures reportingAt == if h.reportingAt.Some? then h.reportingAt.value else old(reportingAt)
      ensures !cached && timer == Stopped(old(timer)) && closes == old(closes) + 1
    {
      hangup := Some(h);
      cached := false;
      timer := Stopped(timer);
      hangupAt := h.at;
      if hangupAt == 0 {
        hangupAt := now;
      }
      if h.reportingAt.Some? {
        reportingAt := h.reportingAt.value;
      }
      transfers := h.transfers;
      closes := closes + 1;
    }

    /** An event of the gateway, found by the id of the leg. */
    method HandleAction(e: Event, now: int)
      requires now > 0
      modifies this
      ensures View() == if old(cached) then Set(old(View()), e, now) else old(View())
      ensures old(Valid()) ==> Valid()
      ensures old(Valid()) && old(hangup).Some? ==> View() == old(View())
    {
      if cached {
        match e {
          case Ringing(at) => SetRinging(at);
          case Progress(at) => SetProgress(at);
          case Active(at) => SetActive(at);
          case Bridge(at, other) => SetBridge(at, other);
          case Hold => state := HOLD;
          case Amd(result) => amdResult := result; state := DETECT_AMD;
          case HungUp(h) => SetHangup(h, now);
        }
      }
    }

    method AskToHangup(cause: string, reached: bool, now: int)
      requires now > 0
      modifies this
      ensures View() == AskHangup(old(View()), cause, reached, now)
      ensures old(Valid()) ==> Valid()
      ensures old(Valid()) && old(hangup).Some? ==> View().(sent := []) == old(View()).(sent := [])
    {
      if state < INVITE {
        cancel := cause;
        closes := closes + 1;
        return;
      }
      var why := if cause == "" then NORMAL_CLEARING else cause;
      sent := sent + [why];
      if !reached && (if hangup.Some? then hangup.value.cause else "") == "" {
        SetHangup(Hangup(why, None, now, None, NO_TRANSFER), now);
      }
    }

    method RingTimeout(reached: bool, now: int)
      requires now > 0
      modifies this
      ensures View() == Fire(old(View()), reached, now)
      ensures old(Valid()) ==> Valid()
      ensures old(state) >= ACCEPT ==> View().(timer := old(timer)) == old(View())
      ensures old(Valid()) && old(hangup).Some? ==> View() == old(View())
    {
      if timer == Armed {
        timer := Idle;
        if state < ACCEPT {
          AskToHangup(NO_ANSWER, reached, now);
        }
      }
    }

    /** One step of whoever works with the leg. */
    method Take(step: Step, now: int)
      requires now > 0
      modifies this
      ensures View() == Atomic(old(View()), step, now)
    {
      match step {
        case Lookup(e) => HandleAction(e, now);
        case Advance(_) =>                           // no setter is on its way between two steps
        case InviteFails(h) => SetHangup(h, now);
        case AskedToHangup(cause, reached) => AskToHangup(cause, reached, now);
        case Fires(reached) => RingTimeout(reached, now);
        case BridgeReset => bridgeAt, bridgedId := 0, None;
        case Evicted => cached := false;
      }
    }
  }

  // ---- Any interleaving ----------------------------------------------------------------

  /** A setter on its way: the leg was found, the setter is about to take the lock, or has
      given it back and is about to write the state. */
  datatype Task = Found(e: Event) | AtLock(e: Event) | Writing(state: nat)

  datatype System = System(leg: Leg, tasks: seq<Task>)

  /** One step of any goroutine. */
  datatype Step =
    | Lookup(e: Event)                                   // the event handler looks the leg up
    | Advance(i: nat)                                    // a setter goes one stage further
    | InviteFails(h: Hangup)
    | AskedToHangup(cause: string, reached: bool)        // by a queue
    | Fires(reached: bool)                               // the ring timer
    | BridgeReset
    | Evicted                                            // the cache drops the leg

  function Finished(tasks: seq<Task>, i: nat): seq<Task>
    requires i < |tasks|
  {
    tasks[..i] + tasks[i + 1..]
  }

  /** The request, and if it fails and no cause is known, a setter that is about to record it. */
  function Requested(s: System, cause: string, reached: bool, now: int): System
    requires s.leg.state >= INVITE
  {
    var cause := if cause == "" then NORMAL_CLEARING else cause;
    var leg := s.leg.(sent := s.leg.sent + [cause]);
    System(leg, if !reached && HangupCause(leg) == "" then s.tasks + [AtLock(OwnHangup(cause, now))] else s.tasks)
  }

  function Next(s: System, step: Step, now: int): System
    requires s.leg.state >= INVITE
  {
    match step
    case Lookup(e) => if s.leg.cached then s.(tasks := s.tasks + [Found(e)]) else s
    case Advance(i) =>
      if i >= |s.tasks| then s
      else
        (match s.tasks[i]
         case Found(e) => s.(tasks := if Ignores(s.leg, e) then Finished(s.tasks, i) else s.tasks[i := AtLock(e)])
         case AtLock(e) =>
           var state := StateOf(s.leg, e);
           System(Locked(s.leg, e, now),
                  if state.Some? then s.tasks[i := Writing(state.value)] else Finished(s.tasks, i))
         case Writing(state) => System(s.leg.(state := state), Finished(s.tasks, i)))
    case InviteFails(h) => s.(tasks := s.tasks + [AtLock(HungUp(h))])
    case AskedToHangup(cause, reached) => Requested(s, cause, reached, now)
    case Fires(reached) =>
      if s.leg.timer != Armed then s
      else
        var fired := s.(leg := s.leg.(timer := Idle));
        if fired.leg.state < ACCEPT then Requested(fired, NO_ANSWER, reached, now) else fired
    case BridgeReset => s.(leg := ResetBridge(s.leg))
    case Evicted => s.(leg := s.leg.(cached := false))
  }

  /** The channel was closed once if there is a hangup record and not at all otherwise. */
  ghost predicate OneHangup(leg: Leg) {
    && leg.state >= INVITE
    && leg.closes == (if leg.hangup.Some? then 1 else 0)
    && (leg.hangup.Some? <==> leg.hangupAt != 0)
    && (leg.hangup.Some? ==> leg.hangup.value.at == 0 || leg.hangupAt == leg.hangup.value.at)
    && leg.transfers == (if leg.hangup.Some? then leg.hangup.value.transfers else NO_TRANSFER)
    && leg.reportingAt ==
       (if leg.hangup.Some? && leg.hangup.value.reportingAt.Some? then leg.hangup.value.reportingAt.value else 0)
  }

  ghost predicate Consistent(s: System) {
    OneHangup(s.leg) && forall i :: 0 <= i < |s.tasks| && s.tasks[i].Writing? ==> s.tasks[i].state >= INVITE
  }

  ghost predicate SameHangup(a: Leg, b: Leg) {
    && a.hangup == b.hangup && a.hangupAt == b.hangupAt && a.reportingAt == b.reportingAt
    && a.transfers == b.transfers && a.closes == b.closes
  }

  lemma StepConsistent(s: System, step: Step, now: int)
    requires Consistent(s) && now > 0
    ensures Consistent(Next(s, step, now))
    ensures s.leg.hangup.Some? ==> SameHangup(s.leg, Next(s, step, now).leg)
  {
  }

  type Timed = (Step, int)

  ghost predicate Clocked(steps: seq<Timed>) {
    forall i :: 0 <= i < |steps| ==> steps[i].1 > 0
  }

  ghost function After(s: System, steps: seq<Timed>): (r: System)
    requires Consistent(s) && Clocked(steps)
    ensures Consistent(r)
  {
    if steps == [] then s
    else
      var before := After(s, steps[..|steps| - 1]);
      StepConsistent(before, steps[|steps| - 1].0, steps[|steps| - 1].1);
      Next(before, steps[|steps| - 1].0, steps[|steps| - 1].1)
  }

  /** Whatever goroutines race over an invited leg, its hangup is recorded once and then
      never changes, its channel is closed exactly once with it, and WaitForHangup can
      return exactly from then on. */
  lemma {:induction false} HungUpOnce(s: System, steps: seq<Timed>, more: seq<Timed>)
    requires Consistent(s) && Clocked(steps) && Clocked(steps + more)
    ensures var leg := After(s, steps).leg;
            leg.closes == (if leg.hangup.Some? then 1 else 0) && (WaitReturns(leg) <==> leg.hangup.Some?)
    ensures After(s, steps).leg.hangup.Some? ==> SameHangup(After(s, steps).leg, After(s, steps + more).leg)
    decreases |more|
  {
    if more == [] {
      assert steps + more == steps;
    } else {
      var all, last := steps + more, more[|more| - 1];
      assert all[..|all| - 1] == steps + more[..|more| - 1];
      assert all[|all| - 1] == last;
      HungUpOnce(s, steps, more[..|more| - 1]);
      StepConsistent(After(s, steps + more[..|more| - 1]), last.0, last.1);
    }
  }

  /** The same from the invitation of a leg on. */
  lemma InvitedHungUpOnce(timeout: nat, steps: seq<Timed>, more: seq<Timed>)
    requires Clocked(steps) && Clocked(steps + more)
    ensures var s := System(Invited(Created(timeout), true), []);
            var leg := After(s, steps).leg;
            && leg.closes == (if leg.hangup.Some? then 1 else 0) && (WaitReturns(leg) <==> leg.hangup.Some?)
            && (leg.hangup.Some? ==> SameHangup(leg, After(s, steps + more).leg))
  {
    HungUpOnce(System(Invited(Created(timeout), true), []), steps, more);
  }

  // ---- When a request hangs the leg up ---------------------------------------------------

  /** A request always reaches for the gateway, for a normal clearing if no cause was given. If
      the gateway fails and nothing is recorded yet, the leg records the hangup itself, with
      that cause, and WaitForHangup returns; if the gateway was reached, nothing is recorded. */
  lemma RequestRecords(leg: Leg, cause: string, reached: bool, now: int)
    requires Quiet(leg) && now > 0
    ensures var after, why := AskHangup(leg, cause, reached, now), if cause == "" then "NORMAL_CLEARING" else cause;
            && after.sent == leg.sent + [why]
            && (after.hangup.Some? <==> leg.hangup.Some? || !reached)
            && (WaitReturns(after) <==> leg.hangup.Some? || !reached)
            && (leg.hangup.None? && !reached ==>
                  after.hangup.value.cause == why && after.hangupAt == now && after.transfers == NO_TRANSFER)
  {
  }

  /** The same of the interleaved steps: a failed request without a known cause leaves a setter
      that is to record it, and a request that was reached leaves none. */
  lemma RequestAddsSetter(s: System, cause: string, reached: bool, now: int)
    requires Consistent(s) && now > 0
    ensures var t, why := Next(s, AskedToHangup(cause, reached), now), if cause == "" then "NORMAL_CLEARING" else cause;
            && t.leg == s.leg.(sent := s.leg.sent + [why])
            && (reached ==> t.tasks == s.tasks)
            && (!reached && s.leg.hangup.None? ==>
                  && |t.tasks| == |s.tasks| + 1 && t.tasks[..|s.tasks|] == s.tasks
                  && t.tasks[|s.tasks|] == AtLock(HungUp(Hangup(why, None, now, None, NO_TRANSFER))))
  {
  }

  /** A hangup setter that has had the lock leaves a record: its own, if there was none. */
  lemma SetterRecords(s: System, i: nat, now: int)
    requires Consistent(s) && now > 0 && i < |s.tasks| && s.tasks[i].AtLock? && s.tasks[i].e.HungUp?
    ensures Next(s, Advance(i), now).leg.hangup
            == if s.leg.hangup.Some? then s.leg.hangup else Some(s.tasks[i].e.h)
  {
  }

  /** A leg that is told to hang up before it was invited closes its channel, keeps the cause,
      and asks nothing of the gateway. */
  lemma CancelledBeforeInvite(timeout: nat, cause: string, reached: bool, now: int)
    ensures var leg := AskHangup(Created(timeout), cause, reached, now);
            leg.closes == 1 && leg.cancel == cause && leg.sent == [] && leg.hangup.None? && WaitReturns(leg)
  {
  }

  // ---- What still changes a leg after its hangup ---------------------------------------

  /** Everything but the bridge, which may be reset, and the hangups asked for. */
  ghost predicate Frozen(a: Leg, b: Leg) {
    ResetBridge(a).(sent := []) == ResetBridge(b).(sent := [])
  }

  /** The hangup is recorded and its state written. */
  ghost predicate HungUpFully(leg: Leg) {
    leg.hangup.Some? && leg.state == HANGUP && !leg.cached && leg.timer != Armed
  }

  /** A second hangup, or a progress event that finds the first recorded (or has no time to
      record and no timer to start). */
  predicate HarmlessEvent(leg: Leg, e: Event) {
    e.HungUp? || (e.Progress? && (leg.progressAt != 0 || (e.at == 0 && (leg.timer == Unset || leg.timeout == 0))))
  }

  /** A setter on its way that will not change a hung up leg. */
  predicate Harmless(leg: Leg, t: Task) {
    match t
    case Found(e) => Ignores(leg, e) || HarmlessEvent(leg, e)
    case AtLock(e) => HarmlessEvent(leg, e)
    case Writing(state) => state == HANGUP
  }

  ghost predicate AllHarmless(s: System) {
    forall i :: 0 <= i < |s.tasks| ==> Harmless(s.leg, s.tasks[i])
  }

  lemma StepHarmless(s: System, step: Step, now: int)
    requires Consistent(s) && HungUpFully(s.leg) && AllHarmless(s)
    ensures var t := Next(s, step, now); Frozen(s.leg, t.leg) && HungUpFully(t.leg) && AllHarmless(t)
  {
    var t := Next(s, step, now);
    assert Frozen(s.leg, t.leg);
    forall i | 0 <= i < |t.tasks| ensures Harmless(t.leg, t.tasks[i]) {
      if t.tasks[i] in s.tasks {
        var j :| 0 <= j < |s.tasks| && s.tasks[j] == t.tasks[i];
        assert Harmless(s.leg, s.tasks[j]);
      }
    }
  }

  lemma {:induction false} RunHarmless(s: System, steps: seq<Timed>)
    requires Consistent(s) && Clocked(steps) && HungUpFully(s.leg) && AllHarmless(s)
    ensures var t := After(s, steps); Frozen(s.leg, t.leg) && HungUpFully(t.leg) && AllHarmless(t)
  {
    if steps != [] {
      RunHarmless(s, steps[..|steps| - 1]);
      StepHarmless(After(s, steps[..|steps| - 1]), steps[|steps| - 1].0, steps[|steps| - 1].1);
    }
  }

  lemma Extended(s: System, steps: seq<Timed>, step: Step)
    requires Consistent(s) && Clocked(steps)
    ensures Clocked(steps + [(step, 1)]) && After(s, steps + [(step, 1)]) == Next(After(s, steps), step, 1)
  {
    assert (steps + [(step, 1)])[..|steps|] == steps;
  }

  /** A setter at the lock or past it changes the leg with its next stage, or the one after. */
  lemma StageChanges(s: System, i: nat)
    requires Consistent(s) && HungUpFully(s.leg) && i < |s.tasks| && !s.tasks[i].Found? && !Harmless(s.leg, s.tasks[i])
    ensures var t := Next(s, Advance(i), 1);
            !Frozen(s.leg, t.leg) || (t.leg.state >= INVITE && !Frozen(s.leg, Next(t, Advance(i), 1).leg))
  {
  }

  /** Any other setter on its way changes the leg when it is let run. */
  lemma HarmfulChanges(s: System, i: nat) returns (steps: seq<Timed>)
    requires Consistent(s) && HungUpFully(s.leg) && i < |s.tasks| && !Harmless(s.leg, s.tasks[i])
    ensures Clocked(steps) && !Frozen(s.leg, After(s, steps).leg)
  {
    steps := [];
    if s.tasks[i].Found? {
      Extended(s, steps, Advance(i));
      steps := steps + [(Advance(i), 1)];
    }
    var t := After(s, steps);
    assert t.leg == s.leg;
    StageChanges(t, i);
    Extended(s, steps, Advance(i));
    steps := steps + [(Advance(i), 1)];
    if Frozen(s.leg, After(s, steps).leg) {
      Extended(s, steps, Advance(i));
      steps := steps + [(Advance(i), 1)];
    }
  }

  /** Nothing changes a hung up leg, whatever is let run, if and only if every setter still
      on its way is harmless. */
  lemma FrozenExactly(s: System)
    requires Consistent(s) && HungUpFully(s.leg)
    ensures (forall steps: seq<Timed> | Clocked(steps) :: Frozen(s.leg, After(s, steps).leg)) <==> AllHarmless(s)
  {
    if AllHarmless(s) {
      forall steps: seq<Timed> | Clocked(steps) ensures Frozen(s.leg, After(s, steps).leg) {
        RunHarmless(s, steps);
      }
    } else {
      var i :| 0 <= i < |s.tasks| && !Harmless(s.leg, s.tasks[i]);
      var steps := HarmfulChanges(s, i);
      assert Clocked(steps) && !Frozen(s.leg, After(s, steps).leg);
    }
  }

  /** Such setters exist: two events are looked up, the hangup runs first, and the ringing
      that was found before it then sets the state back and starts the timer. */
  lemma LateSetterWrites()
    ensures var s := Next(Next(System(Invited(Created(30), true), []), Lookup(Ringing(5)), 1),
                          Lookup(HungUp(Hangup("USER_BUSY", None, 7, None, NO_TRANSFER))), 1);
            var hung := Next(Next(Next(s, Advance(1), 1), Advance(1), 1), Advance(1), 1);
            var late := Next(Next(Next(hung, Advance(0), 1), Advance(0), 1), Advance(0), 1);
            && Consistent(hung) && HungUpFully(hung.leg) && hung.tasks == [Found(Ringing(5))]
            && late.leg.state == RINGING && late.leg.timer == Armed && late.leg.hangup == hung.leg.hangup
  {
  }

  // ---- Lookup and setter as one step ---------------------------------------------------

  /** The same steps with no setter on its way between them. */
  function Atomic(leg: Leg, step: Step, now: int): Leg {
    match step
    case Lookup(e) => if leg.cached then Set(leg, e, now) else leg
    case Advance(_) => leg
    case InviteFails(h) => Set(leg, HungUp(h), now)
    case AskedToHangup(cause, reached) => AskHangup(leg, cause, reached, now)
    case Fires(reached) => Fire(leg, reached, now)
    case BridgeReset => ResetBridge(leg)
    case Evicted => leg.(cached := false)
  }

  function Run(leg: Leg, steps: seq<Timed>): Leg {
    if steps == [] then leg
    else Atomic(Run(leg, steps[..|steps| - 1]), steps[|steps| - 1].0, steps[|steps| - 1].1)
  }

  /** A hung up leg is out of the cache and its timer does not run. */
  ghost predicate Quiet(leg: Leg) {
    OneHangup(leg) && (leg.hangup.Some? ==> !leg.cached && leg.timer != Armed)
  }

  lemma StepQuiet(leg: Leg, step: Step, now: int)
    requires Quiet(leg) && now > 0
    ensures Quiet(Atomic(leg, step, now))
    ensures leg.hangup.Some? ==> Frozen(leg, Atomic(leg, step, now))
    ensures leg.hangup.Some? && step.Lookup? ==> Atomic(leg, step, now) == leg
  {
  }

  lemma {:induction false} RunQuiet(leg: Leg, steps: seq<Timed>)
    requires Quiet(leg) && Clocked(steps)
    ensures Quiet(Run(leg, steps))
  {
    if steps != [] {
      RunQuiet(leg, steps[..|steps| - 1]);
      StepQuiet(Run(leg, steps[..|steps| - 1]), steps[|steps| - 1].0, steps[|steps| - 1].1);
    }
  }

  /** Once hung up, a leg keeps every field through any further run, except that its bridge
      may be reset and further hangups may be asked of the gateway. */
  lemma {:induction false} FrozenAfterHangup(leg: Leg, steps: seq<Timed>)
    requires Quiet(leg) && Clocked(steps) && leg.hangup.Some?
    ensures Frozen(leg, Run(leg, steps))
  {
    if steps != [] {
      FrozenAfterHangup(leg, steps[..|steps| - 1]);
      RunQuiet(leg, steps[..|steps| - 1]);
      StepQuiet(Run(leg, steps[..|steps| - 1]), steps[|steps| - 1].0, steps[|steps| - 1].1);
    }
  }

  /** One atomic step is its interleaved step and then every stage of the setter it left, if
      any, with nothing in between. */
  lemma AtomicIsInterleaved(leg: Leg, step: Step, now: int)
    requires leg.state >= INVITE && now > 0 && OneHangup(leg)
    ensures var first := Next(System(leg, []), step, now);
            var second := Next(first, Advance(0), now);
            var third := Next(second, Advance(0), now);
            Next(third, Advance(0), now) == System(Atomic(leg, step, now), [])
  {
  }

  /** The steps of a run, done to the object. */
  method Drive(call: Call, steps: seq<Timed>)
    requires Clocked(steps)
    modifies call
    ensures call.View() == Run(old(call.View()), steps)
    ensures old(call.Valid()) ==> call.Valid()
    ensures old(call.Valid()) && old(call.hangup).Some? ==> Frozen(old(call.View()), call.View())
  {
    for i := 0 to |steps|
      invariant call.View() == Run(old(call.View()), steps[..i])
    {
      assert steps[..i + 1][..i] == steps[..i];
      call.Take(steps[i].0, steps[i].1);
    }
    assert steps[..|steps|] == steps;
    if old(call.Valid()) {
      RunQuiet(old(call.View()), steps);
      if old(call.hangup).Some? {
        FrozenAfterHangup(old(call.View()), steps);
      }
    }
  }

  // ---- The ring timer ------------------------------------------------------------------

  /** The events a run applied to the leg, in order. */
  function Applied(leg: Leg, steps: seq<Timed>): seq<Event> {
    if steps == [] then []
    else
      var before, step := Run(leg, steps[..|steps| - 1]), steps[|steps| - 1].0;
      Applied(leg, steps[..|steps| - 1]) + if step.Lookup? && before.cached then [step.e] else []
  }

  predicate Answers(e: Event) {
    e.Active? || e.Bridge?
  }

  ghost predicate Answered(events: seq<Event>) {
    exists i :: 0 <= i < |events| && Answers(events[i])
  }

  /** No ringing event after an active or bridge event. */
  ghost predicate RingsFirst(events: seq<Event>) {
    forall i, j :: 0 <= i < j < |events| && Answers(events[i]) ==> !events[j].Ringing?
  }

  ghost predicate Accepted(events: seq<Event>) {
    exists i :: 0 <= i < |events| && events[i].Active? && events[i].at != 0
  }

  /** Nothing since the invite or the last ringing event has moved the leg on: no bridge,
      hold, detection or hangup, and no active event that was not ignored. */
  ghost predicate RingsLast(events: seq<Event>) {
    events == [] ||
    var before := events[..|events| - 1];
    match events[|events| - 1]
    case Ringing(_) => true
    case Progress(_) => RingsLast(before)
    case Active(_) => Accepted(before) && RingsLast(before)
    case _ => false
  }

  ghost predicate Tells(leg: Leg, events: seq<Event>) {
    && (leg.acceptAt != 0 <==> Accepted(events))
    && (if leg.hangup.Some? then leg.state == HANGUP else leg.state < ACCEPT <==> RingsLast(events))
  }

  lemma EventTells(leg: Leg, events: seq<Event>, e: Event, now: int)
    requires Quiet(leg) && Tells(leg, events) && leg.cached && now > 0
    ensures Tells(Set(leg, e, now), events + [e])
  {
    var all := events + [e];
    assert all[..|all| - 1] == events && all[|all| - 1] == e;
    if Accepted(events) {
      var i :| 0 <= i < |events| && events[i].Active? && events[i].at != 0;
      assert all[i] == events[i];
    }
    if Accepted(all) {
      var i :| 0 <= i < |all| && all[i].Active? && all[i].at != 0;
      assert i < |events| ==> events[i] == all[i];
    }
  }

  /** Steps that apply no event: the leg may be hung up by them, and is not moved otherwise. */
  lemma OtherTells(leg: Leg, events: seq<Event>, step: Step, now: int)
    requires Quiet(leg) && Tells(leg, events) && now > 0 && !(step.Lookup? && leg.cached)
    ensures Tells(Atomic(leg, step, now), events)
  {
  }

  lemma {:induction false} RunTells(timeout: nat, steps: seq<Timed>)
    requires Clocked(steps)
    ensures var leg := Invited(Created(timeout), true); Tells(Run(leg, steps), Applied(leg, steps))
  {
    var leg := Invited(Created(timeout), true);
    if steps != [] {
      var rest, last := steps[..|steps| - 1], steps[|steps| - 1];
      RunTells(timeout, rest);
      RunQuiet(leg, rest);
      if last.0.Lookup? && Run(leg, rest).cached {
        EventTells(Run(leg, rest), Applied(leg, rest), last.0.e, last.1);
      } else {
        assert Applied(leg, steps) == Applied(leg, rest);
        OtherTells(Run(leg, rest), Applied(leg, rest), last.0, last.1);
      }
    }
  }

  /** Exactly when the ring timer hangs up: while it runs, after events that end in ringing. */
  lemma TimeoutHangsUp(timeout: nat, steps: seq<Timed>, reached: bool, now: int)
    requires Clocked(steps) && now > 0
    ensures var leg0 := Invited(Created(timeout), true);
            var leg := Run(leg0, steps);
            var fired := Fire(leg, reached, now);
            if leg.timer == Armed && RingsLast(Applied(leg0, steps)) then fired.sent == leg.sent + [NO_ANSWER]
            else fired.(timer := leg.timer) == leg
  {
    RunTells(timeout, steps);
    RunQuiet(Invited(Created(timeout), true), steps);
  }

  lemma {:induction false} RingsFirstDoesNotRingLast(events: seq<Event>)
    requires Answered(events) && RingsFirst(events)
    ensures !RingsLast(events)
  {
    var before, e := events[..|events| - 1], events[|events| - 1];
    var k :| 0 <= k < |events| && Answers(events[k]);
    assert !(e.Ringing? && k < |events| - 1);
    assert k < |before| ==> before[k] == events[k];
    if e.Progress? || (e.Active? && Accepted(before)) {
      if e.Active? {
        var i :| 0 <= i < |before| && before[i].Active? && before[i].at != 0;
        assert Answers(before[i]);
      }
      assert RingsFirst(before) by {
        forall i, j | 0 <= i < j < |before| && Answers(before[i]) ensures !before[j].Ringing? {
          assert events[i] == before[i] && events[j] == before[j];
        }
      }
      RingsFirstDoesNotRingLast(before);
    }
  }

  /** If no ringing event follows the first active or bridge event, the ring timer leaves
      an accepted or bridged leg alone, even when a progress event started it again. */
  lemma RingTimeoutSparesAnswered(timeout: nat, steps: seq<Timed>, reached: bool, now: int)
    requires Clocked(steps) && now > 0
    requires Answered(Applied(Invited(Created(timeout), true), steps))
    requires RingsFirst(Applied(Invited(Created(timeout), true), steps))
    ensures var leg := Run(Invited(Created(timeout), true), steps); Fire(leg, reached, now).(timer := leg.timer) == leg
  {
    RingsFirstDoesNotRingLast(Applied(Invited(Created(timeout), true), steps));
    TimeoutHangsUp(timeout, steps, reached, now);
  }

  /** A late progress event does start the stopped timer again; after a late ringing event
      it then hangs up a leg that was accepted. */
  lemma LateRingingHangsUp()
    ensures var accepted := Set(Set(Invited(Created(30), true), Ringing(1), 9), Active(2), 9);
            var late := Set(accepted, Progress(3), 9);
            var rings := Set(Set(accepted, Ringing(3), 9), Progress(4), 9);
            && accepted.timer == Idle && late.timer == Armed && Fire(late, true, 9).sent == []
            && rings.acceptAt == 2 && Fire(rings, true, 9).sent == [NO_ANSWER]
  {
  }
}
