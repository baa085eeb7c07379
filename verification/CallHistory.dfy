/** A leg told by its history: every field of an invited leg, after any run, from the events
    it received, the one hangup that counted, and the requests made. Nothing here is updated
    in place, and no field of the leg is used. */
module CallHistory {
  import opened Options
  import opened CallLeg

  /** The events received, whether the cache dropped the leg, the hangup that was first and
      when, whether the ring timer runs, the bridge, and the hangups asked of the gateway. */
  datatype Story = Story(events: seq<Event>, evicted: bool, record: Option<(Hangup, int)>, running: bool,
                         bridge: (int, Option<string>), asked: seq<string>)

  const UNTOLD := Story([], false, None, false, (0, None), [])

  // ---- What the events say -------------------------------------------------------------

  function Rang(events: seq<Event>): bool {
    events != [] && (events[|events| - 1].Ringing? || Rang(events[..|events| - 1]))
  }

  /** The time of the last ringing event. */
  function RingTime(events: seq<Event>): int {
    if events == [] then 0
    else if events[|events| - 1].Ringing? then events[|events| - 1].at
    else RingTime(events[..|events| - 1])
  }

  /** The time of the first progress event that has one. */
  function ProgressTime(events: seq<Event>): int {
    if events == [] then 0
    else
      var first := ProgressTime(events[..|events| - 1]);
      if first == 0 && events[|events| - 1].Progress? then events[|events| - 1].at else first
  }

  /** The time of the first active event that has one. */
  function AcceptTime(events: seq<Event>): int {
    if events == [] then 0
    else
      var first := AcceptTime(events[..|events| - 1]);
      if first == 0 && events[|events| - 1].Active? then events[|events| - 1].at else first
  }

  function Detected(events: seq<Event>): string {
    if events == [] then ""
    else if events[|events| - 1].Amd? then events[|events| - 1].result
    else Detected(events[..|events| - 1])
  }

  /** Invited 1, ringing 2, accepted 4, bridged 7, on hold 8, detected 9, hung up 10. */
  function Reached(events: seq<Event>): nat {
    if events == [] then 1
    else
      var before := events[..|events| - 1];
      match events[|events| - 1]
      case Ringing(_) => 2
      case Progress(_) => Reached(before)
      case Active(_) => if AcceptTime(before) != 0 then Reached(before) else 4
      case Bridge(_, _) => 7
      case Hold => 8
      case Amd(_) => 9
      case HungUp(_) => 10
  }

  // ---- The story goes on ---------------------------------------------------------------

  /** Only the first hangup counts, and it stops the timer. */
  function HungUpBy(s: Story, h: Hangup, now: int): Story {
    if s.record.Some? then s else s.(record := Some((h, now)), running := false)
  }

  /** A request; the leg hangs up by itself if the gateway cannot be reached. */
  function AskedFor(s: Story, cause: string, reached: bool, now: int): Story {
    var t := s.(asked := s.asked + [cause]);
    if reached then t else HungUpBy(t, Hangup(cause, None, now, None, NO_TRANSFER), now)
  }

  /** The timer is started by the first ringing event and again by the first progress event
      after it, and stopped by an answer, a bridge or a hangup. */
  function Received(timeout: nat, s: Story, e: Event, now: int): Story {
    var t := s.(events := s.events + [e]);
    match e
    case Ringing(_) => t.(running := s.running || (timeout > 0 && !Rang(s.events)))
    case Progress(_) => t.(running := s.running || (timeout > 0 && Rang(s.events) && ProgressTime(s.events) == 0))
    case Active(_) => t.(running := s.running && AcceptTime(s.events) != 0)
    case Bridge(at, other) => t.(running := false, bridge := (at, Some(other)))
    case HungUp(h) => HungUpBy(t, h, now)
    case _ => t
  }

  function Tell(timeout: nat, s: Story, step: Step, now: int): Story {
    match step
    case Lookup(e) => if s.evicted || s.record.Some? then s else Received(timeout, s, e, now)
    case Advance(_) => s
    case InviteFails(h) => HungUpBy(s, h, now)
    case AskedToHangup(cause, reached) => AskedFor(s, if cause == "" then "NORMAL_CLEARING" else cause, reached, now)
    case Fires(reached) =>
      if !s.running then s
      else if s.record.None? && Reached(s.events) < 4 then AskedFor(s.(running := false), "NO_ANSWER", reached, now)
      else s.(running := false)
    case BridgeReset => s.(bridge := (0, None))
    case Evicted => s.(evicted := true)
  }

  function StoryOf(timeout: nat, steps: seq<Timed>): Story {
    if steps == [] then UNTOLD
    else Tell(timeout, StoryOf(timeout, steps[..|steps| - 1]), steps[|steps| - 1].0, steps[|steps| - 1].1)
  }

  /** The leg a story tells of. */
  function LegOf(timeout: nat, s: Story): Leg {
    var (h, now) := if s.record.Some? then s.record.value else (Hangup("", None, 0, None, NO_TRANSFER), 0);
    Leg(if s.record.Some? then 10 else Reached(s.events),
        timeout,
        if s.running then Armed else if timeout > 0 && Rang(s.events) then Idle else Unset,
        s.record.None? && !s.evicted,
        RingTime(s.events), ProgressTime(s.events), AcceptTime(s.events),
        s.bridge.0, s.bridge.1,
        Detected(s.events),
        if h.at != 0 then h.at else now,
        if h.reportingAt.Some? then h.reportingAt.value else 0,
        if s.record.Some? then Some(h) else None,
        h.transfers,
        if s.record.Some? then 1 else 0,
        "",
        s.asked)
  }

  /** Times of a record are never zero, and a running timer was started. */
  ghost predicate Plausible(timeout: nat, s: Story) {
    && (s.record.Some? ==> s.record.value.1 > 0 && !s.running)
    && (s.running ==> timeout > 0 && Rang(s.events))
    && Reached(s.events) >= 1
  }

  lemma ReceivedIsSet(timeout: nat, s: Story, e: Event, now: int)
    requires Plausible(timeout, s) && s.record.None? && !s.evicted && now > 0
    ensures Plausible(timeout, Received(timeout, s, e, now))
    ensures Set(LegOf(timeout, s), e, now) == LegOf(timeout, Received(timeout, s, e, now))
  {
    OneMore(s.events, e);
    var leg := LegOf(timeout, s);
    assert leg.acceptAt == AcceptTime(s.events) && leg.progressAt == ProgressTime(s.events);
    if e.HungUp? { HungUpByIsSet(timeout, s.(events := s.events + [e]), e.h, now); }
  }

  /** What one more event changes. */
  lemma OneMore(events: seq<Event>, e: Event)
    ensures var all := events + [e];
            && Rang(all) == (e.Ringing? || Rang(events))
            && RingTime(all) == (if e.Ringing? then e.at else RingTime(events))
            && ProgressTime(all) == (if e.Progress? && ProgressTime(events) == 0 then e.at else ProgressTime(events))
            && AcceptTime(all) == (if e.Active? && AcceptTime(events) == 0 then e.at else AcceptTime(events))
            && Detected(all) == (if e.Amd? then e.result else Detected(events))
            && Reached(all) == (match e
                                case Ringing(_) => 2
                                case Progress(_) => Reached(events)
                                case Active(_) => if AcceptTime(events) != 0 then Reached(events) else 4
                                case Bridge(_, _) => 7
                                case Hold => 8
                                case Amd(_) => 9
                                case HungUp(_) => 10)
  {
    var all := events + [e];
    assert all[..|all| - 1] == events && all[|all| - 1] == e;
  }

  lemma HungUpByIsSet(timeout: nat, s: Story, h: Hangup, now: int)
    requires Plausible(timeout, s) && now > 0
    ensures Plausible(timeout, HungUpBy(s, h, now))
    ensures Set(LegOf(timeout, s), HungUp(h), now) == LegOf(timeout, HungUpBy(s, h, now))
  {
  }

  lemma AskedForIsAsked(timeout: nat, s: Story, cause: string, reached: bool, now: int)
    requires Plausible(timeout, s) && now > 0
    ensures var why := if cause == "" then "NORMAL_CLEARING" else cause;
            && Plausible(timeout, AskedFor(s, why, reached, now))
            && AskHangup(LegOf(timeout, s), cause, reached, now) == LegOf(timeout, AskedFor(s, why, reached, now))
  {
    var why := if cause == "" then "NORMAL_CLEARING" else cause;
    HungUpByIsSet(timeout, s.(asked := s.asked + [why]), Hangup(why, None, now, None, NO_TRANSFER), now);
  }

  lemma TellIsAtomic(timeout: nat, s: Story, step: Step, now: int)
    requires Plausible(timeout, s) && now > 0
    ensures Plausible(timeout, Tell(timeout, s, step, now))
    ensures Atomic(LegOf(timeout, s), step, now) == LegOf(timeout, Tell(timeout, s, step, now))
  {
    match step {
      case Lookup(e) => if s.record.None? && !s.evicted { ReceivedIsSet(timeout, s, e, now); }
      case InviteFails(h) => HungUpByIsSet(timeout, s, h, now);
      case AskedToHangup(cause, reached) => AskedForIsAsked(timeout, s, cause, reached, now);
      case Fires(reached) => AskedForIsAsked(timeout, s.(running := false), "NO_ANSWER", reached, now);
      case _ =>
    }
  }

  lemma {:induction false} StoriesPlausible(timeout: nat, steps: seq<Timed>)
    requires Clocked(steps)
    ensures Plausible(timeout, StoryOf(timeout, steps))
    ensures Run(Invited(Created(timeout), true), steps) == LegOf(timeout, StoryOf(timeout, steps))
  {
    if steps != [] {
      var rest, last := steps[..|steps| - 1], steps[|steps| - 1];
      StoriesPlausible(timeout, rest);
      TellIsAtomic(timeout, StoryOf(timeout, rest), last.0, last.1);
    }
  }

  /** After every run an invited leg is exactly the leg its story tells of. */
  lemma LegIsItsStory(timeout: nat, steps: seq<Timed>)
    requires Clocked(steps)
    ensures Run(Invited(Created(timeout), true), steps) == LegOf(timeout, StoryOf(timeout, steps))
  {
    StoriesPlausible(timeout, steps);
  }
}
