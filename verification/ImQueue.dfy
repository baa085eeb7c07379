/** The run of one message attempt: wait for an agent, give it a preview of the thread,
    offer the thread, and wait again or finalize. */
module ImQueue {
  import opened Journals
  import opened Options
  import opened ImSession
  import opened ImProtocol

  datatype End = Blocked | StoreError | Ended

  /** How the run goes on: it waits again, is still selecting, stops on an error, or is to be
      finalized with an agent ("" for none). */
  datatype Flow = WaitAgain | StillSelecting | Stopped | Final(agent: string)

  /** The variables of the run: its agent and the agent of the attempt. */
  datatype Vars = Vars(log: Log, agent: string, attemptAgent: string)

  /** The log tells the truth about the variables and about the session. */
  ghost predicate Agrees(info: Info, reserved: string, env: nat -> Reply, v: Vars, s: Sess, calls: seq<string>) {
    && calls == v.log.b.calls
    && Kept(info, reserved, env, v.log)
    && v.agent == v.log.b.agent && v.attemptAgent == v.log.b.attemptAgent
    && s.previewUserId == v.log.b.preview && s.userId == v.log.b.joined
  }

  function Answer(ok: bool): Outcome {
    if ok then Done else Failed
  }

  function Said(v: Vars): bool {
    v.log.b.last.Some? && v.log.b.last.value.Asked? && v.log.b.last.value.r.yes
  }

  /** What has to be logged next for the flow to be right. */
  ghost predicate Goes(info: Info, b: Ledger, limit: nat, flow: Flow) {
    match flow
    case WaitAgain => DueNext(info, b) == Do(Wait)
    case StillSelecting => b.selects == limit && DueNext(info, b) in {Do(Wait), TakeInner}
    case Stopped => DueNext(info, b) == Nothing && (b.last.Some? ==> !b.last.value.Cleaned?)
    case Final(agent) => DueNext(info, b) == Do(Finalize(agent))
  }

  /** The run of an attempt whose session was just opened. */
  method Run(info: Info, reserved: string, env: nat -> Reply, limit: nat, sess: Session)
    returns (trace: seq<Entry>, end: End)
    requires sess.userId == "" && sess.previewUserId == "" && sess.calls == []
    modifies sess
    ensures sess.calls == PreviewCalls(trace)
    ensures end != Blocked ==> AllClosed(trace) && !sess.HasPreview()
    ensures Conforms(info, reserved, env, trace)
    ensures end == Ended ==> Read(reserved, trace).last == Some(Cleaned)
    ensures end == StoreError ==> DueNext(info, Read(reserved, trace)) == Nothing
    ensures end == StoreError ==> Read(reserved, trace).last != Some(Cleaned)
    ensures end == Blocked ==> Read(reserved, trace).selects == limit
    ensures end == Blocked ==> DueNext(info, Read(reserved, trace)) in {Do(Wait), TakeInner}
  {
    var v, flow := Ready(info, reserved, env, limit, sess);
    if flow == WaitAgain {
      v, flow := WaitForAgents(info, reserved, env, limit, sess, v);
    }
    if flow.Final? {
      v := FinalizeAttempt(info, reserved, env, sess, v, flow.agent);
      end := Ended;
    } else {
      end := if flow == Stopped then StoreError else Blocked;
    }
    assert end != Blocked ==> DueNext(info, v.log.b) == Nothing;
    Told(info, reserved, env, v, sess);
    trace := v.log.trace;
  }

  /** The outer loop. */
  method WaitForAgents(info: Info, ghost reserved: string, env: nat -> Reply, limit: nat, sess: Session, v0: Vars)
    returns (v: Vars, flow: Flow)
    requires Agrees(info, reserved, env, v0, sess.View(), sess.calls) && DueNext(info, v0.log.b) == Do(Wait)
    requires v0.log.b.selects <= limit
    modifies sess
    ensures Agrees(info, reserved, env, v, sess.View(), sess.calls) && flow != WaitAgain
    ensures Goes(info, v.log.b, limit, flow)
  {
    v, flow := v0, WaitAgain;
    while flow == WaitAgain
      invariant Agrees(info, reserved, env, v, sess.View(), sess.calls) && v.log.b.selects <= limit
      invariant Goes(info, v.log.b, limit, flow)
      decreases flow == WaitAgain, limit - v.log.b.selects
    {
      if v.log.b.selects == limit {
        flow := StillSelecting;
      } else {
        v, flow := WaitForAgent(info, reserved, env, limit, sess, v);
      }
    }
  }

  /** Marks the attempt as looking for an agent, unless it was transferred to one. */
  method Ready(info: Info, reserved: string, env: nat -> Reply, ghost limit: nat, ghost sess: Session)
    returns (v: Vars, flow: Flow)
    requires sess.userId == "" && sess.previewUserId == "" && sess.calls == []
    ensures Agrees(info, reserved, env, v, sess.View(), sess.calls) && v.log.b.selects == 0
    ensures (flow == WaitAgain || flow == Stopped) && Goes(info, v.log.b, limit, flow)
  {
    v, flow := Vars(Journal([], Blank(reserved)), "", reserved), WaitAgain;
    BlankKept(info, reserved, env);
    if !info.toAgent {
      v := v.(log := Inquire(info, reserved, env, v.log, FindAgent));
      if !Said(v) {
        flow := Stopped;
      }
    }
  }

  /** What the log of a run says about its session. */
  lemma Told(info: Info, reserved: string, env: nat -> Reply, v: Vars, sess: Session)
    requires Kept(info, reserved, env, v.log) && sess.calls == v.log.b.calls && sess.previewUserId == v.log.b.preview
    ensures Conforms(info, reserved, env, v.log.trace) && v.log.b == Read(reserved, v.log.trace)
    ensures sess.calls == PreviewCalls(v.log.trace)
    ensures DueNext(info, v.log.b) == Nothing ==> AllClosed(v.log.trace) && !sess.HasPreview()
  {
    ImProtocol.Open(info, reserved, env, v.log);
    CallsLogged(reserved, v.log.trace);
    if DueNext(info, v.log.b) == Nothing {
      AllClosedAtTheEnd(info, reserved, env, v.log.trace);
      RunMatches(info, reserved, env, v.log.trace);
      NoneAtTheEnd(info, v.log.b);
    }
  }

  /** One pass of the outer loop. */
  method WaitForAgent(info: Info, ghost reserved: string, env: nat -> Reply, limit: nat, sess: Session, v0: Vars)
    returns (v: Vars, flow: Flow)
    requires Agrees(info, reserved, env, v0, sess.View(), sess.calls) && DueNext(info, v0.log.b) == Do(Wait)
    requires v0.log.b.selects < limit
    modifies sess
    ensures Agrees(info, reserved, env, v, sess.View(), sess.calls) && v0.log.b.selects < v.log.b.selects <= limit
    ensures Goes(info, v.log.b, limit, flow)
  {
    v := v0.(log := Put(info, reserved, env, v0.log, Wait));
    var r := env(v.log.b.asked);
    v := v.(log := Put(info, reserved, env, v.log, Outer(r)));
    match r.outer {
      case AgentRouted =>
        v := v.(attemptAgent := r.user, agent := r.user);
        v, flow := HandleAgent(info, reserved, env, limit, sess, v);
      case Tick => v, flow := HandleTick(info, reserved, env, limit, sess, v);
      case _ => flow := Final(v.agent);              // cancelled, context done or session done
    }
  }

  method HandleTick(info: Info, ghost reserved: string, env: nat -> Reply, ghost limit: nat, ghost sess: Session,
        v0: Vars) returns (v: Vars, flow: Flow)
    requires Agrees(info, reserved, env, v0, sess.View(), sess.calls) && DueNext(info, v0.log.b) == Ask(GoesOn(true))
    ensures Agrees(info, reserved, env, v, sess.View(), sess.calls) && v.log.b.selects == v0.log.b.selects
    ensures Goes(info, v.log.b, limit, flow)
  {
    v := v0.(log := Inquire(info, reserved, env, v0.log, GoesOn(true)));
    flow := if Said(v) then WaitAgain else Final(v.agent);
  }

  /** An agent was routed to the attempt. */
  method HandleAgent(info: Info, ghost reserved: string, env: nat -> Reply, limit: nat, sess: Session, v0: Vars)
    returns (v: Vars, flow: Flow)
    requires Agrees(info, reserved, env, v0, sess.View(), sess.calls) && v0.agent != "" && !v0.log.b.member
    requires DueNext(info, v0.log.b) == Ask(TeamFound) && v0.log.b.selects <= limit
    modifies sess
    ensures Agrees(info, reserved, env, v, sess.View(), sess.calls) && v0.log.b.selects <= v.log.b.selects <= limit
    ensures Goes(info, v.log.b, limit, flow)
  {
    v := v0.(log := Inquire(info, reserved, env, v0.log, TeamFound));
    if !Said(v) {
      return v, Stopped;
    }
    if info.transferFrom == v.agent {
      v := v.(log := Inquire(info, reserved, env, v.log, FindAgain));
      v := v.(log := Put(info, reserved, env, v.log, Skip(v.agent)), attemptAgent := "");
      return v, WaitAgain;
    }
    var r := env(v.log.b.asked);
    v := v.(log := Inquire(info, reserved, env, v.log, InviteSeconds));
    var grant;
    v, grant := GivePreview(info, reserved, env, sess, v, InviteMillis(r.seconds));
    if grant == Refused {
      v, flow := Missed(info, reserved, env, limit, sess, v, NoPreview);
      return;
    }
    v := OfferThread(info, reserved, env, sess, v, grant == AlreadyMember);
    v, flow := Interact(info, reserved, env, limit, sess, v);
  }

  /** An agent that is already a member of the thread is assigned the task without an invite. */
  method OfferThread(info: Info, ghost reserved: string, env: nat -> Reply, sess: Session, v0: Vars,
        alreadyMember: bool) returns (v: Vars)
    requires Agrees(info, reserved, env, v0, sess.View(), sess.calls) && v0.agent != ""
    requires (v0.log.b.member <==> alreadyMember)
    requires DueNext(info, v0.log.b) == Do(Offer(User(v0.log.b)))
    modifies sess
    ensures Agrees(info, reserved, env, v, sess.View(), sess.calls) && v.log.b.selects == v0.log.b.selects
    ensures v.agent == v0.agent
    ensures DueNext(info, v.log.b) == TakeInner
  {
    v := v0.(log := Put(info, reserved, env, v0.log, Offer(v0.agent)));
    if alreadyMember {
      sess.MarkUserJoined(v.agent);
      v := v.(log := Put(info, reserved, env, v.log, Assign(v.agent)));
    }
  }

  /** No invite lifetime, no preview. */
  method GivePreview(info: Info, ghost reserved: string, env: nat -> Reply, sess: Session, v0: Vars, invite: nat)
    returns (v: Vars, grant: Grant)
    requires Agrees(info, reserved, env, v0, sess.View(), sess.calls) && v0.agent != "" && !v0.log.b.member
    requires DueNext(info, v0.log.b) ==
             if invite == 0 then Do(Offer(User(v0.log.b))) else TakeGive(PreviewMillis(invite))
    modifies sess
    ensures Agrees(info, reserved, env, v, sess.View(), sess.calls) && v.log.b.selects == v0.log.b.selects
    ensures v.agent == v0.agent
    ensures DueNext(info, v.log.b) == if grant == Refused then TakeMiss(NoPreview) else Do(Offer(User(v.log.b)))
    ensures v.log.b.member <==> grant == AlreadyMember
  {
    if invite == 0 {
      return v0, Given;
    }
    var r := env(v0.log.b.asked);
    v := v0.(log := Put(info, reserved, env, v0.log, Give(v0.agent, PreviewMillis(invite), r)));
    var _ := sess.GivePreviewUser(v.agent, PreviewMillis(invite), Answer(r.grant == Given));
    grant := r.grant;
  }

  /** The agent is missed; a transfer to that agent ends, other attempts wait again. */
  method Missed(info: Info, ghost reserved: string, env: nat -> Reply, ghost limit: nat, ghost sess: Session, v0: Vars,
        why: MissCause)
    returns (v: Vars, flow: Flow)
    requires Agrees(info, reserved, env, v0, sess.View(), sess.calls) && v0.agent != ""
    requires DueNext(info, v0.log.b) == TakeMiss(why)
    ensures Agrees(info, reserved, env, v, sess.View(), sess.calls) && v.log.b.selects == v0.log.b.selects
    ensures Goes(info, v.log.b, limit, flow)
  {
    var r := env(v0.log.b.asked);
    v := v0.(log := Put(info, reserved, env, v0.log, Miss(v0.agent, why, r)));
    if r.yes {
      v := v.(attemptAgent := "");
    }
    flow := if !info.toAgent then WaitAgain else if why == NoPreview then Final("") else Final(v.attemptAgent);
  }

  /** The inner loop. */
  method Interact(info: Info, ghost reserved: string, env: nat -> Reply, limit: nat, sess: Session, v0: Vars)
    returns (v: Vars, flow: Flow)
    requires Agrees(info, reserved, env, v0, sess.View(), sess.calls) && v0.agent != ""
    requires DueNext(info, v0.log.b) == TakeInner && v0.log.b.selects <= limit
    modifies sess
    ensures Agrees(info, reserved, env, v, sess.View(), sess.calls) && v0.log.b.selects <= v.log.b.selects <= limit
    ensures Goes(info, v.log.b, limit, flow)
  {
    v, flow := v0, StillSelecting;
    var inside := true;
    while inside && v.log.b.selects < limit
      invariant Agrees(info, reserved, env, v, sess.View(), sess.calls) && v0.log.b.selects <= v.log.b.selects <= limit
      invariant inside ==> v.agent != "" && DueNext(info, v.log.b) == TakeInner
      invariant !inside ==> Goes(info, v.log.b, limit, flow)
      decreases limit - v.log.b.selects
    {
      var r := env(v.log.b.asked);
      v := v.(log := Put(info, reserved, env, v.log, Inner(r)));
      v, inside, flow := HandleInner(info, reserved, env, limit, sess, v, r.inner);
    }
    if inside {
      flow := StillSelecting;
    }
  }

  method HandleInner(info: Info, ghost reserved: string, env: nat -> Reply, ghost limit: nat, sess: Session, v0: Vars,
        event: InnerEvent)
    returns (v: Vars, inside: bool, flow: Flow)
    requires Agrees(info, reserved, env, v0, sess.View(), sess.calls) && v0.agent != ""
    requires DueNext(info, v0.log.b) == AfterInner(info, v0.log.b, event)
    modifies sess
    ensures Agrees(info, reserved, env, v, sess.View(), sess.calls) && v.log.b.selects == v0.log.b.selects
    ensures if inside then v.agent != "" && DueNext(info, v.log.b) == TakeInner else Goes(info, v.log.b, limit, flow)
  {
    v, inside, flow := v0, true, WaitAgain;
    match event {
      case CancelledInside => v := CloseUnbridged(info, reserved, env, sess, v, ByCancel);
      case InviteTimeout => v := CloseUnbridged(info, reserved, env, sess, v, ByTimeout);
      case TaskBridged => v, inside, flow := Bridge(info, reserved, env, limit, sess, v);
      case TaskClosed => v, flow := Closed(info, reserved, env, limit, sess, v); inside := false;
      case TickInside =>
        v := v.(log := Inquire(info, reserved, env, v.log, GoesOn(false)));
        inside := Said(v);
        flow := Final(v.attemptAgent);
      case _ =>                                      // transferred away, or the session is done
        inside := false;
        flow := Final(v.attemptAgent);
    }
  }

  /** The agent accepted. */
  method Bridge(info: Info, ghost reserved: string, env: nat -> Reply, ghost limit: nat, sess: Session, v0: Vars)
    returns (v: Vars, inside: bool, flow: Flow)
    requires Agrees(info, reserved, env, v0, sess.View(), sess.calls) && v0.agent != ""
    requires DueNext(info, v0.log.b) == JoinStep(info, v0.log.b)
    modifies sess
    ensures Agrees(info, reserved, env, v, sess.View(), sess.calls) && v.log.b.selects == v0.log.b.selects
    ensures if inside then v.agent != "" && DueNext(info, v.log.b) == TakeInner else Goes(info, v.log.b, limit, flow)
  {
    v, inside := JoinAgent(info, reserved, env, sess, v0);
    flow := WaitAgain;
    if inside {
      v := v.(log := Put(info, reserved, env, v.log, Bridged(v.agent)));
    } else {
      v := RemovePreview(info, reserved, env, sess, v, AtJoinError);
      v, flow := Missed(info, reserved, env, limit, sess, v, NoJoin);
    }
  }

  /** The task was closed: declined by the agent, or done. */
  method Closed(info: Info, ghost reserved: string, env: nat -> Reply, ghost limit: nat, sess: Session, v0: Vars)
    returns (v: Vars, flow: Flow)
    requires Agrees(info, reserved, env, v0, sess.View(), sess.calls) && v0.agent != ""
    requires DueNext(info, v0.log.b) == Ask(Declined)
    modifies sess
    ensures Agrees(info, reserved, env, v, sess.View(), sess.calls) && v.log.b.selects == v0.log.b.selects
    ensures Goes(info, v.log.b, limit, flow)
  {
    v := v0.(log := Inquire(info, reserved, env, v0.log, Declined));
    if Said(v) {
      v := RemovePreview(info, reserved, env, sess, v, AtDecline);
      v, flow := Missed(info, reserved, env, limit, sess, v, WasDeclined);
    } else {
      flow := Final(v.attemptAgent);
    }
  }

  method CloseUnbridged(info: Info, ghost reserved: string, env: nat -> Reply, ghost sess: Session, v0: Vars,
        closer: Closer) returns (v: Vars)
    requires Agrees(info, reserved, env, v0, sess.View(), sess.calls)
    requires DueNext(info, v0.log.b) == Ask(Unbridged(closer))
    ensures Agrees(info, reserved, env, v, sess.View(), sess.calls) && v.log.b.selects == v0.log.b.selects
    ensures v.agent == v0.agent
    ensures DueNext(info, v.log.b) == TakeInner
  {
    v := v0.(log := Inquire(info, reserved, env, v0.log, Unbridged(closer)));
    if Said(v) {
      v := v.(log := Put(info, reserved, env, v.log, CloseTask(closer)));
    }
  }

  method RemovePreview(info: Info, ghost reserved: string, env: nat -> Reply, sess: Session, v0: Vars, place: Place)
    returns (v: Vars)
    requires Agrees(info, reserved, env, v0, sess.View(), sess.calls)
    requires DueNext(info, v0.log.b) == Revoked(v0.log.b, place)
    modifies sess
    ensures Agrees(info, reserved, env, v, sess.View(), sess.calls) && v.log.b.selects == v0.log.b.selects
    ensures v.agent == v0.agent
    ensures DueNext(info, v.log.b) == AfterRevoke(place) && !sess.HasPreview()
  {
    v := v0;
    if sess.HasPreview() {
      v := v.(log := Put(info, reserved, env, v.log, Revoke(sess.previewUserId, place)));
      var answer: Outcome := *;                      // only logged
      var _ := sess.RemovePreviewUser(answer);
    }
  }

  /** Makes the agent a member of the thread, from its preview if it has one. */
  method JoinAgent(info: Info, ghost reserved: string, env: nat -> Reply, sess: Session, v0: Vars)
    returns (v: Vars, joined: bool)
    requires Agrees(info, reserved, env, v0, sess.View(), sess.calls) && v0.agent != ""
    requires DueNext(info, v0.log.b) == JoinStep(info, v0.log.b)
    modifies sess
    ensures Agrees(info, reserved, env, v, sess.View(), sess.calls) && v.log.b.selects == v0.log.b.selects
    ensures v.agent == v0.agent
    ensures DueNext(info, v.log.b) == if joined then Do(Bridged(User(v.log.b))) else Revoked(v.log.b, AtJoinError)
  {
    if info.transferFrom != "" {
      v, joined := TransferAgent(info, reserved, env, sess, v0);
      return;
    }
    if sess.IsUserJoined(v0.agent) {
      return v0, true;
    }
    var r := env(v0.log.b.asked);
    if sess.HasPreview() {
      v := v0.(log := Put(info, reserved, env, v0.log, Upgrade(v0.agent, r)));
      var _ := sess.UpgradePreviewUser(v.agent, r.memberId, Answer(r.yes));
    } else {
      v := v0.(log := Put(info, reserved, env, v0.log, Add(v0.agent, r)));
      var _ := sess.AddMemberUser(v.agent, r.memberId, Answer(r.yes));
    }
    joined := r.yes;
  }

  /** Replaces the initiator of the transfer by the agent. */
  method TransferAgent(info: Info, ghost reserved: string, env: nat -> Reply, sess: Session, v0: Vars)
    returns (v: Vars, joined: bool)
    requires Agrees(info, reserved, env, v0, sess.View(), sess.calls) && v0.agent != ""
    requires DueNext(info, v0.log.b) == Revoked(v0.log.b, AtTransfer)
    modifies sess
    ensures Agrees(info, reserved, env, v, sess.View(), sess.calls) && v.log.b.selects == v0.log.b.selects
    ensures v.agent == v0.agent
    ensures DueNext(info, v.log.b) == if joined then Do(Bridged(User(v.log.b))) else Revoked(v.log.b, AtJoinError)
  {
    v := RemovePreview(info, reserved, env, sess, v0, AtTransfer);
    var r := env(v.log.b.asked);
    v := v.(log := Put(info, reserved, env, v.log, Transfer(v.agent, info.transferFrom, r)));
    var _ := sess.AddMemberUser(v.agent, r.memberId, Answer(r.yes));
    joined := r.yes;
    if joined {
      v := v.(log := Put(info, reserved, env, v.log, Complete));
    }
  }

  /** The end of a run with its cleanup. */
  method FinalizeAttempt(info: Info, ghost reserved: string, env: nat -> Reply, sess: Session, v0: Vars, agent: string)
    returns (v: Vars)
    requires Agrees(info, reserved, env, v0, sess.View(), sess.calls) && DueNext(info, v0.log.b) == Do(Finalize(agent))
    modifies sess
    ensures Agrees(info, reserved, env, v, sess.View(), sess.calls) && v.log.b.last == Some(Cleaned)
    ensures DueNext(info, v.log.b) == Nothing
  {
    v := v0.(log := Put(info, reserved, env, v0.log, Finalize(agent)), agent := agent);
    v := Conclude(info, reserved, env, sess, v);
    v := CleanupSession(info, reserved, env, sess, v);
  }

  /** With an agent the team was found as well: a report, or a miss of a declined task. */
  method Conclude(info: Info, ghost reserved: string, env: nat -> Reply, ghost sess: Session, v0: Vars)
    returns (v: Vars)
    requires Agrees(info, reserved, env, v0, sess.View(), sess.calls)
    requires DueNext(info, v0.log.b) == if v0.agent != "" then Ask(Unreported) else Do(Abandon)
    ensures Agrees(info, reserved, env, v, sess.View(), sess.calls) && v.log.b.selects == v0.log.b.selects
    ensures DueNext(info, v.log.b) == Cleanup(v.log.b)
  {
    if v0.agent != "" {
      v := v0.(log := Inquire(info, reserved, env, v0.log, Unreported));
      v := v.(log := Put(info, reserved, env, v.log, if Said(v) then FinalMiss(v.agent) else Report(v.agent)));
    } else {
      v := v0.(log := Put(info, reserved, env, v0.log, Abandon));
    }
  }

  method CleanupSession(info: Info, ghost reserved: string, env: nat -> Reply, sess: Session, v0: Vars)
    returns (v: Vars)
    requires Agrees(info, reserved, env, v0, sess.View(), sess.calls) && DueNext(info, v0.log.b) == Cleanup(v0.log.b)
    modifies sess
    ensures Agrees(info, reserved, env, v, sess.View(), sess.calls) && v.log.b.last == Some(Cleaned)
    ensures DueNext(info, v.log.b) == Nothing
  {
    v := v0;
    if v.agent != "" {
      v := RemovePreview(info, reserved, env, sess, v, AtCleanup);
    }
    v := v.(log := Put(info, reserved, env, v.log, Cleaned));
  }
}
