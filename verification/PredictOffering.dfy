/** The second half of a predictive call: the member has answered, and agents are offered
    the call until one of them is bridged or the member is gone. */
module PredictOffering {
  import opened Journals
  import opened Options
  import opened OfferingProtocol
  import opened InboundQueue

  method RunOfferingAgents(env: nat -> Reply, limit: nat) returns (trace: seq<Entry>, end: End)
    ensures Conforms(Predictive, env, trace)
    ensures end == Ended ==> Read(trace).last.Some? && Ends(Read(trace).last.value)
    ensures end == StoreError ==> DueNext(Predictive, Read(trace)) == Nothing && CountEnds(trace) == 0 && Settled(trace)
    ensures end == Blocked ==> Read(trace).selects == limit && DueNext(Predictive, Read(trace)) in {Do(Wait), TakeInner}
  {
    var k := Predictive;
    var v := Vars(Journal([], BLANK), None, None, false);
    BlankKept(k, env);
    v := v.(log := Inquire(k, env, v.log, StoreReady));
    if !Said(v) {
      Open(k, env, v.log);
      StoppedSettled(k, env, v.log.trace);
      return v.log.trace, StoreError;
    }
    v := v.(log := Inquire(k, env, v.log, MemberUp));
    var calling := Said(v);

    while calling
      invariant Agrees(k, env, v) && v.log.b.selects <= limit
      invariant DueNext(k, v.log.b) == if calling then Do(Wait) else Finish(k, v.log.b)
      invariant calling ==> v.agentCall.None?
      decreases calling, limit - v.log.b.selects
    {
      if v.log.b.selects == limit {
        Open(k, env, v.log);
        return v.log.trace, Blocked;
      }
      var flow;
      v, calling, flow := WaitForAgent(env, limit, v);
      if flow != Again {
        Open(k, env, v.log);
        StoppedSettled(k, env, v.log.trace);
        return v.log.trace, if flow == Return then StoreError else Blocked;
      }
    }

    v := ConcludePredict(env, v);
    Open(k, env, v.log);
    return v.log.trace, Ended;
  }

  /** One pass of the outer loop. */
  method WaitForAgent(env: nat -> Reply, limit: nat, v0: Vars) returns (v: Vars, calling: bool, flow: Flow)
    requires Agrees(Predictive, env, v0) && v0.agentCall.None? && DueNext(Predictive, v0.log.b) == Do(Wait)
    requires v0.log.b.selects < limit
    ensures Kept(Predictive, env, v.log) && v0.log.b.selects < v.log.b.selects <= limit
    ensures flow == Return ==> DueNext(Predictive, v.log.b) == Nothing && v.log.b.last.Some?
    ensures flow == Return ==> !Ends(v.log.b.last.value)
    ensures flow == LeaveLoop ==> v.log.b.selects == limit && DueNext(Predictive, v.log.b) == TakeInner
    ensures flow == Again ==> Agrees(Predictive, env, v) && (calling ==> v.agentCall.None?)
    ensures flow == Again ==> DueNext(Predictive, v.log.b) == if calling then Do(Wait) else Finish(Predictive, v.log.b)
  {
    var k := Predictive;
    v := v0.(log := Put(k, env, v0.log, Wait));
    var r := env(v.log.b.asked);
    v := v.(log := Put(k, env, v.log, Outer(r)));
    calling, flow := true, Again;
    match r.outer {
      case MemberBridge =>
      case MemberOther =>
      case MemberHangup => calling := false;
      case Cancelled => v := v.(log := Put(k, env, v.log, HangupMember(AtWait)));
      case AgentDistributed => v, calling, flow := OfferToAgent(env, limit, r.agent, v);
      case _ =>                                      // timeout or context done
        calling := false;
        v := v.(log := Put(k, env, v.log, HangupMember(AtEnd)));
    }
  }

  /** As in the inbound queue, but without its team the run stops: Return. */
  method OfferToAgent(env: nat -> Reply, limit: nat, agent: nat, v0: Vars) returns (v: Vars, calling: bool, flow: Flow)
    requires Agrees(Predictive, env, v0) && v0.agentCall.None? && v0.log.b.agent == agent
    requires DueNext(Predictive, v0.log.b) == Ask(TeamFound) && v0.log.b.selects <= limit
    ensures Kept(Predictive, env, v.log) && v0.log.b.selects <= v.log.b.selects <= limit
    ensures flow == Return ==> DueNext(Predictive, v.log.b) == Nothing && v.log.b.last.Some?
    ensures flow == Return ==> !Ends(v.log.b.last.value)
    ensures flow == LeaveLoop ==> v.log.b.selects == limit && DueNext(Predictive, v.log.b) == TakeInner
    ensures flow == Again ==> Agrees(Predictive, env, v) && (calling ==> v.agentCall.None?)
    ensures flow == Again ==> DueNext(Predictive, v.log.b) == if calling then Do(Wait) else Finish(Predictive, v.log.b)
  {
    var k := Predictive;
    v := v0.(agent := Some(agent), log := Inquire(k, env, v0.log, TeamFound));
    v := v.(team := Said(v));
    if !v.team {
      return v, true, Return;
    }
    v := v.(log := Inquire(k, env, v.log, RaceOpen));
    if !Said(v) {
      return v, false, Again;
    }
    v := LegStarted(k, env, v);
    var left;
    v, left := OfferPredict(env, limit, v);
    if !left {
      return v, true, LeaveLoop;
    }
    v := HangupIfUnused(env, v);
    v, calling := AfterOffer(k, env, v);
    return v, calling, Again;
  }

  method HangupIfUnused(env: nat -> Reply, v0: Vars) returns (v: Vars)
    requires Agrees(Predictive, env, v0) && v0.agentCall.Some? && DueNext(Predictive, v0.log.b) == Ask(LegUnused)
    ensures Agrees(Predictive, env, v) && v.agentCall.Some? && DueNext(Predictive, v.log.b) == Ask(LegBridged)
    ensures v.log.b.selects == v0.log.b.selects
  {
    v := v0.(log := Inquire(Predictive, env, v0.log, LegUnused));
    if Said(v) {
      v := v.(log := Put(Predictive, env, v.log, HangupUnused(v.agentCall.value, v.agent.value)));
    }
  }

  /** The inner loop; it has not left when it is still selecting. */
  method OfferPredict(env: nat -> Reply, limit: nat, v0: Vars) returns (v: Vars, left: bool)
    requires Agrees(Predictive, env, v0) && v0.agentCall.Some?
    requires DueNext(Predictive, v0.log.b) == Ask(LegsUp) && v0.log.b.selects <= limit
    ensures Agrees(Predictive, env, v) && v.agentCall.Some? && v0.log.b.selects <= v.log.b.selects <= limit
    ensures !left ==> v.log.b.selects == limit && DueNext(Predictive, v.log.b) == TakeInner
    ensures left ==> DueNext(Predictive, v.log.b) == Ask(LegUnused)
  {
    v, left := v0, false;
    while !left
      invariant Agrees(Predictive, env, v) && v.agentCall.Some? && v0.log.b.selects <= v.log.b.selects <= limit
      invariant DueNext(Predictive, v.log.b) == Ask(if left then LegUnused else LegsUp)
      decreases !left, limit - v.log.b.selects
    {
      v := v.(log := Inquire(Predictive, env, v.log, LegsUp));
      if !Said(v) {
        left := true;
      } else {
        if v.log.b.selects == limit {
          return;
        }
        var r := env(v.log.b.asked);
        v := v.(log := Put(Predictive, env, v.log, Inner(r)));
        v, left := HandlePredict(env, r.inner, v);
      }
    }
  }

  method HandlePredict(env: nat -> Reply, event: InnerEvent, v0: Vars) returns (v: Vars, left: bool)
    requires Agrees(Predictive, env, v0) && v0.agentCall.Some?
    requires DueNext(Predictive, v0.log.b) == AfterInner(Predictive, v0.log.b, event)
    ensures Agrees(Predictive, env, v) && v.agentCall.Some? && v.log.b.selects == v0.log.b.selects
    ensures DueNext(Predictive, v.log.b) == Ask(if left then LegUnused else LegsUp)
  {
    var k := Predictive;
    v, left := v0, false;
    var leg, agent := v.agentCall.value, v.agent.value;
    match event {
      case CancelledInside => v := v.(log := Put(k, env, v.log, HangupMember(Inside)));
      case AgentRinging => v := v.(log := Put(k, env, v.log, Offering(leg, agent)));
      case AgentAccept => v := Accepted(k, env, v);
      case AgentHangup =>
        var taken;
        v, taken := AgentHungUp(k, env, v);
        left := !taken;
      case MemberBridgeInside => v := v.(log := Put(k, env, v.log, Bridged(leg, agent)));
      case MemberHangupInside =>
        v := HangupWithMember(k, env, v);
        left := true;
      case _ =>                                      // a bridge seen on the agent's leg is ignored
    }
  }

  /** The end of a run: a bridged leg is reported; otherwise the reserved agent is given
      up and the schema decides. */
  method ConcludePredict(env: nat -> Reply, v0: Vars) returns (v: Vars)
    requires Agrees(Predictive, env, v0) && DueNext(Predictive, v0.log.b) == Finish(Predictive, v0.log.b)
    ensures Kept(Predictive, env, v.log) && v.log.b.last.Some? && Ends(v.log.b.last.value)
  {
    var k := Predictive;
    v := v0;
    if v.agentCall.Some? {
      v := v.(log := Inquire(k, env, v.log, MarkKept));
      if Said(v) {
        assert v.team;                               // Reporting is a method of the team
        v := v.(log := Put(k, env, v.log, Report(v.agentCall.value, v.agent.value)));
        return;
      }
    }
    v := v.(log := Put(k, env, v.log, LosePredict));
    v := SchemaDecides(k, env, v);
  }
}
