/** The run of one inbound call: wait for an agent, offer the call to the agent's leg, and
    wait again or end. */
module InboundQueue {
  import opened Journals
  import opened Options
  import opened OfferingProtocol

  datatype End = Blocked | StoreError | Ended

  /** How the inner loop goes on after one event. */
  datatype Flow = Again | LeaveLoop | Return

  /** The variables of the run: the agent, the agent's leg, the team, and what was logged. */
  datatype Vars = Vars(log: Log, agent: Option<nat>, agentCall: Option<nat>, team: bool)

  /** The variables agree with the log, and the team is set while a leg is open. */
  ghost predicate Agrees(k: Kind, env: nat -> Reply, v: Vars) {
    && Kept(k, env, v.log)
    && v.agentCall == v.log.b.open
    && (v.agentCall.Some? ==> v.agent == Some(v.log.b.agent) && v.team)
  }

  function Said(v: Vars): bool {
    v.log.b.last.Some? && v.log.b.last.value.Asked? && v.log.b.last.value.r.yes
  }

  method Run(env: nat -> Reply, limit: nat) returns (trace: seq<Entry>, end: End)
    ensures Conforms(Inbound, env, trace)
    ensures end == Ended ==> Read(trace).last.Some? && Ends(Read(trace).last.value)
    ensures end == StoreError ==> DueNext(Inbound, Read(trace)) == Nothing && CountEnds(trace) == 0 && Settled(trace)
    ensures end == Blocked ==> Read(trace).selects == limit && DueNext(Inbound, Read(trace)) in {Do(Wait), TakeInner}
  {
    var k := Inbound;
    var v := Vars(Journal([], BLANK), None, None, false);
    BlankKept(k, env);
    v := v.(log := Inquire(k, env, v.log, StoreReady));
    if !Said(v) {
      Open(k, env, v.log);
      StoppedSettled(k, env, v.log.trace);
      return v.log.trace, StoreError;
    }
    v := v.(log := Inquire(k, env, v.log, MemberUp));
    var calling := Said(v);

    while calling
      invariant Agrees(k, env, v) && v.log.b.selects <= limit
      invariant DueNext(k, v.log.b) == if calling then Do(Wait) else Finish(k, v.log.b)
      invariant calling ==> v.agentCall.None?
      decreases calling, limit - v.log.b.selects
    {
      if v.log.b.selects == limit {
        Open(k, env, v.log);
        return v.log.trace, Blocked;
      }
      v := v.(log := Put(k, env, v.log, Wait));
      var r := env(v.log.b.asked);
      v := v.(log := Put(k, env, v.log, Outer(r)));
      match r.outer {
        case MemberBridge =>
        case MemberOther =>
        case MemberHangup =>
          if v.agentCall.Some? {
            assert false;                            // no leg is ever open here
          }
          calling := false;
        case AgentDistributed =>
          var flow;
          v, calling, flow := HandleAgent(env, limit, r.agent, v);
          if flow != Again {
            Open(k, env, v.log);
            return v.log.trace, if flow == Return then Ended else Blocked;
          }
        case _ => calling := false;                  // timeout, context done or cancelled
      }
    }

    v := Conclude(env, v);
    Open(k, env, v.log);
    return v.log.trace, Ended;
  }

  /** An agent was routed to the attempt. Again: the outer loop decides by `calling`;
      LeaveLoop: the inner loop is still selecting; Return: the run is over. */
  method HandleAgent(env: nat -> Reply, limit: nat, agent: nat, v0: Vars) returns (v: Vars, calling: bool, flow: Flow)
    requires Agrees(Inbound, env, v0) && v0.agentCall.None? && v0.log.b.agent == agent
    requires DueNext(Inbound, v0.log.b) == Ask(TeamFound) && v0.log.b.selects <= limit
    ensures Kept(Inbound, env, v.log) && v0.log.b.selects <= v.log.b.selects <= limit
    ensures flow == Return ==> v.log.b.last.Some? && Ends(v.log.b.last.value)
    ensures flow == LeaveLoop ==> v.log.b.selects == limit && DueNext(Inbound, v.log.b) == TakeInner
    ensures flow == Again ==> Agrees(Inbound, env, v) && (calling ==> v.agentCall.None?)
    ensures flow == Again ==> DueNext(Inbound, v.log.b) == if calling then Do(Wait) else Finish(Inbound, v.log.b)
  {
    var k := Inbound;
    v := v0.(agent := Some(agent), log := Inquire(k, env, v0.log, TeamFound));
    v := v.(team := Said(v));
    if !v.team {
      return v, true, Again;
    }
    v := v.(log := Inquire(k, env, v.log, RaceOpen));
    if !Said(v) {
      return v, false, Again;
    }
    v := LegStarted(k, env, v);
    v, flow := Offer(env, limit, v);
    if flow == Again {
      return v, true, LeaveLoop;
    }
    if flow == Return {
      return v, true, Return;
    }
    v, calling := AfterOffer(k, env, v);
    return v, calling, Again;
  }

  /** The end of a run: a bridged leg is reported, anything else is left to the schema. */
  method Conclude(env: nat -> Reply, v0: Vars) returns (v: Vars)
    requires Agrees(Inbound, env, v0) && DueNext(Inbound, v0.log.b) == Finish(Inbound, v0.log.b)
    ensures Kept(Inbound, env, v.log) && v.log.b.last.Some? && Ends(v.log.b.last.value)
  {
    var k := Inbound;
    v := v0;
    if v.agentCall.Some? {
      v := v.(log := Inquire(k, env, v.log, MarkKept));
      if Said(v) {
        assert v.team;                               // Reporting is a method of the team
        v := v.(log := Put(k, env, v.log, Report(v.agentCall.value, v.agent.value)));
        return;
      }
    }
    v := SchemaDecides(k, env, v);
  }

  method SchemaDecides(ghost k: Kind, env: nat -> Reply, v0: Vars) returns (v: Vars)
    requires Kept(k, env, v0.log) && DueNext(k, v0.log.b) == Ask(SchemaAnswered)
    ensures Kept(k, env, v.log) && v.log.b.last.Some? && Ends(v.log.b.last.value)
  {
    v := v0.(log := Inquire(k, env, v0.log, SchemaAnswered));
    v := v.(log := Put(k, env, v.log, if Said(v) then AfterSchema else Abandon));
  }

  /** A new leg for the agent at hand. */
  function LegStarted(ghost k: Kind, env: nat -> Reply, v: Vars): (r: Vars)
    requires Kept(k, env, v.log) && v.agent == Some(v.log.b.agent) && v.team
    requires DueNext(k, v.log.b) == Do(StartLeg(v.log.b.legs, v.log.b.agent))
    ensures Agrees(k, env, r) && r.agentCall.Some? && DueNext(k, r.log.b) == Ask(LegsUp)
    ensures r.log.b.selects == v.log.b.selects
  {
    v.(log := Put(k, env, v.log, StartLeg(v.log.b.legs, v.agent.value)), agentCall := Some(v.log.b.legs))
  }

  /** The inner loop: offers the call to the open leg until one of the legs is hung up.
      Again means that it is still selecting. */
  method Offer(env: nat -> Reply, limit: nat, v0: Vars) returns (v: Vars, flow: Flow)
    requires Agrees(Inbound, env, v0) && v0.agentCall.Some?
    requires DueNext(Inbound, v0.log.b) == Ask(LegsUp) && v0.log.b.selects <= limit
    ensures Kept(Inbound, env, v.log) && v0.log.b.selects <= v.log.b.selects <= limit
    ensures flow == Again ==> v.log.b.selects == limit && DueNext(Inbound, v.log.b) == TakeInner
    ensures flow == Return ==> v.log.b.last.Some? && Ends(v.log.b.last.value)
    ensures flow == LeaveLoop ==> Agrees(Inbound, env, v) && v.agentCall.Some?
    ensures flow == LeaveLoop ==> DueNext(Inbound, v.log.b) == Ask(LegBridged)
  {
    v, flow := v0, Again;
    while flow == Again
      invariant v0.log.b.selects <= v.log.b.selects <= limit && Kept(Inbound, env, v.log)
      invariant flow == Return ==> v.log.b.last.Some? && Ends(v.log.b.last.value)
      invariant flow != Return ==> Agrees(Inbound, env, v) && v.agentCall.Some?
      invariant flow != Return ==> DueNext(Inbound, v.log.b) == Ask(if flow == Again then LegsUp else LegBridged)
      decreases flow == Again, limit - v.log.b.selects
    {
      v := v.(log := Inquire(Inbound, env, v.log, LegsUp));
      if !Said(v) {
        flow := LeaveLoop;
      } else {
        if v.log.b.selects == limit {
          return;
        }
        var r := env(v.log.b.asked);
        v := v.(log := Put(Inbound, env, v.log, Inner(r)));
        v, flow := HandleInner(env, r.inner, v);
      }
    }
  }

  method HandleInner(env: nat -> Reply, event: InnerEvent, v0: Vars) returns (v: Vars, flow: Flow)
    requires Agrees(Inbound, env, v0) && v0.agentCall.Some?
    requires DueNext(Inbound, v0.log.b) == AfterInner(Inbound, v0.log.b, event)
    ensures Kept(Inbound, env, v.log) && v.log.b.selects == v0.log.b.selects
    ensures flow == Return ==> v.log.b.last.Some? && Ends(v.log.b.last.value)
    ensures flow != Return ==> Agrees(Inbound, env, v) && v.agentCall.Some?
    ensures flow != Return ==> DueNext(Inbound, v.log.b) == Ask(if flow == Again then LegsUp else LegBridged)
  {
    var k := Inbound;
    v, flow := v0, Again;
    var leg, agent := v.agentCall.value, v.agent.value;
    match event {
      case CancelledInside => flow := LeaveLoop;
      case AgentRinging => v := v.(log := Put(k, env, v.log, Offering(leg, agent)));
      case AgentAccept => v := Accepted(k, env, v);
      case AgentHangup =>
        var taken;
        v, taken := AgentHungUp(k, env, v);
        flow := if taken then Again else LeaveLoop;
      case MemberHangupInside => v, flow := MemberHungUp(env, v);
      case AgentOther =>
      case MemberOtherInside =>
      case _ => v := MarkBridged(k, env, v);         // either leg reports the bridge
    }
  }

  /** The agent accepted: the legs are bridged, or the agent's leg has lost the race. */
  method Accepted(k: Kind, env: nat -> Reply, v0: Vars) returns (v: Vars)
    requires Agrees(k, env, v0) && v0.agentCall.Some? && DueNext(k, v0.log.b) == Ask(BridgeDone)
    ensures Agrees(k, env, v) && v.agentCall.Some? && DueNext(k, v.log.b) == Ask(LegsUp)
    ensures v.log.b.selects == v0.log.b.selects
  {
    v := v0.(log := Inquire(k, env, v0.log, BridgeDone));
    if Said(v) {
      if k == Inbound {
        v := MarkBridged(k, env, v);
      }
    } else {
      v := LoseTheRace(k, env, v);
    }
  }

  method LoseTheRace(ghost k: Kind, env: nat -> Reply, v0: Vars) returns (v: Vars)
    requires Agrees(k, env, v0) && v0.agentCall.Some? && DueNext(k, v0.log.b) == Ask(LegUpAtAccept)
    ensures Agrees(k, env, v) && v.agentCall.Some? && DueNext(k, v.log.b) == Ask(LegsUp)
    ensures v.log.b.selects == v0.log.b.selects
  {
    v := v0.(log := Inquire(k, env, v0.log, LegUpAtAccept));
    if Said(v) {
      v := v.(log := Put(k, env, v.log, HangupLeg(v.agentCall.value, v.agent.value, LoseRace)));
    }
  }

  /** The agent's leg was hung up: the leg it was transferred to takes over, if there is one. */
  method AgentHungUp(ghost k: Kind, env: nat -> Reply, v0: Vars) returns (v: Vars, taken: bool)
    requires Agrees(k, env, v0) && v0.agentCall.Some? && DueNext(k, v0.log.b) == Ask(TransferredTo)
    ensures Agrees(k, env, v) && v.agentCall.Some? && DueNext(k, v.log.b) == if taken then Ask(LegsUp) else AfterLoop(k)
    ensures v.log.b.selects == v0.log.b.selects
  {
    v := v0.(log := Inquire(k, env, v0.log, TransferredTo));
    taken := Said(v);
    if taken {
      v := TakenOver(k, env, v);
    }
  }

  /** Marks the attempt bridged unless it already is. */
  method MarkBridged(ghost k: Kind, env: nat -> Reply, v0: Vars) returns (v: Vars)
    requires Agrees(k, env, v0) && v0.agentCall.Some? && DueNext(k, v0.log.b) == Ask(ShowsBridged)
    ensures Agrees(k, env, v) && v.agentCall.Some? && DueNext(k, v.log.b) == Ask(LegsUp)
    ensures v.log.b.selects == v0.log.b.selects
  {
    v := v0.(log := Inquire(k, env, v0.log, ShowsBridged));
    if Said(v) {
      v := v.(log := Put(k, env, v.log, Bridged(v.agentCall.value, v.agent.value)));
    }
  }

  /** The leg was transferred: the leg it went to takes its place, with its agent if the
      transfer could be saved. */
  method TakenOver(ghost k: Kind, env: nat -> Reply, v0: Vars) returns (v: Vars)
    requires Agrees(k, env, v0) && v0.agentCall.Some?
    requires DueNext(k, v0.log.b) == Do(PassedOn(v0.agentCall.value, v0.log.b.agent))
    ensures Agrees(k, env, v) && v.agentCall.Some? && DueNext(k, v.log.b) == Ask(LegsUp)
    ensures v.log.b.selects == v0.log.b.selects
  {
    v := v0.(log := Put(k, env, v0.log, PassedOn(v0.agentCall.value, v0.agent.value)));
    var r := env(v.log.b.asked);
    v := v.(log := Inquire(k, env, v.log, TransferSaved));
    if r.yes {
      v := v.(agent := Some(r.agent));
    }
    v := LegStarted(k, env, v);
  }

  /** The member hung up: on to another attempt, replaced by the call it was transferred
      from, or for good; then the agent's leg is hung up as well. */
  method MemberHungUp(env: nat -> Reply, v0: Vars) returns (v: Vars, flow: Flow)
    requires Agrees(Inbound, env, v0) && v0.agentCall.Some? && DueNext(Inbound, v0.log.b) == Ask(ToAttempt)
    ensures Kept(Inbound, env, v.log) && v.log.b.selects == v0.log.b.selects
    ensures flow == Return ==> v.log.b.last.Some? && Ends(v.log.b.last.value)
    ensures flow != Return ==> Agrees(Inbound, env, v) && v.agentCall.Some?
    ensures flow != Return ==> DueNext(Inbound, v.log.b) == Ask(if flow == Again then LegsUp else LegBridged)
  {
    var k := Inbound;
    v := v0.(log := Inquire(k, env, v0.log, ToAttempt));
    if Said(v) {
      v := v.(log := Put(k, env, v.log, Forward(v.agentCall.value, v.agent.value)));
      return v, Return;
    }
    var replaced;
    v, replaced := Replaced(env, v);
    if replaced {
      return v, Again;
    }
    v := HangupWithMember(k, env, v);
    return v, LeaveLoop;
  }

  /** The call the member was transferred from takes the member's place, if it is found. */
  method Replaced(env: nat -> Reply, v0: Vars) returns (v: Vars, replaced: bool)
    requires Agrees(Inbound, env, v0) && v0.agentCall.Some? && DueNext(Inbound, v0.log.b) == Ask(FromCall)
    ensures Agrees(Inbound, env, v) && v.agentCall.Some? && v.log.b.selects == v0.log.b.selects
    ensures DueNext(Inbound, v.log.b) == Ask(if replaced then LegsUp else LegUpAtHangup)
  {
    v, replaced := v0.(log := Inquire(Inbound, env, v0.log, FromCall)), false;
    if Said(v) {
      v := v.(log := Inquire(Inbound, env, v.log, AttendedOrProcessing));
      if Said(v) {
        v := v.(log := Inquire(Inbound, env, v.log, CallFound));
        replaced := Said(v);
      }
    }
  }

  method HangupWithMember(k: Kind, env: nat -> Reply, v0: Vars) returns (v: Vars)
    requires Agrees(k, env, v0) && v0.agentCall.Some? && DueNext(k, v0.log.b) == Ask(LegUpAtHangup)
    ensures Agrees(k, env, v) && v.agentCall.Some? && DueNext(k, v.log.b) == AfterLoop(k)
    ensures v.log.b.selects == v0.log.b.selects
  {
    v := v0.(log := Inquire(k, env, v0.log, LegUpAtHangup));
    if Said(v) {
      v := v.(log := Inquire(k, env, v.log, MemberBridged));
      var cause := if Said(v) then Clearing else OriginatorCancel;
      v := v.(log := Put(k, env, v.log, HangupLeg(v.agentCall.value, v.agent.value, cause)));
    }
  }

  /** A leg that was never bridged is missed or put back; the attempt waits again if the
      member still does and no agent holds the call. */
  method AfterOffer(ghost k: Kind, env: nat -> Reply, v0: Vars) returns (v: Vars, calling: bool)
    requires Agrees(k, env, v0) && v0.agentCall.Some? && DueNext(k, v0.log.b) == Ask(LegBridged)
    ensures Agrees(k, env, v) && (calling ==> v.agentCall.None?)
    ensures DueNext(k, v.log.b) == if calling then Do(Wait) else Finish(k, v.log.b)
    ensures v.log.b.selects == v0.log.b.selects
  {
    v := v0.(log := Inquire(k, env, v0.log, LegBridged));
    if !Said(v) {
      v := Unbridged(k, env, v);
    }
    v := v.(log := Inquire(k, env, v.log, MemberWaits));
    calling := Said(v) && v.agent.None?;
  }

  method Unbridged(ghost k: Kind, env: nat -> Reply, v0: Vars) returns (v: Vars)
    requires Agrees(k, env, v0) && v0.agentCall.Some? && DueNext(k, v0.log.b) == Ask(MarkMissed)
    ensures Agrees(k, env, v) && v.agent.None? && v.agentCall.None? && DueNext(k, v.log.b) == Ask(MemberWaits)
    ensures v.log.b.selects == v0.log.b.selects
  {
    v := v0.(log := Inquire(k, env, v0.log, MarkMissed));
    var leg, agent := v.agentCall.value, v.agent.value;
    v := v.(log := Put(k, env, v.log, if Said(v) then Missed(leg, agent) else PutBack(leg, agent)));
    v := v.(agent := None, agentCall := None, team := false);
  }
}
