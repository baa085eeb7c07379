/** The race for the first agent: a run makes its attempt ready for agents in three steps,
    while the dispatcher routes an agent to it as soon as the store shows that it waits. */
module AgentRouting {
  /** The steps by which a run gets ready: it subscribes to the hook for agents, sets the
      state of the attempt, and commits to the store that the attempt waits. */
  datatype Op = Subscribe | SetWaitAgent | Commit

  const PREDICTIVE := [Subscribe, SetWaitAgent, Commit]
  const INBOUND := [Commit, Subscribe, SetWaitAgent]
  const IM := [Commit, SetWaitAgent, Subscribe]

  /** How far the first agent has come on its way to the attempt. */
  datatype Routing = Unrouted | Polled | Checked | Stored | Delivered | Lost

  datatype State = State(todo: seq<Op>, subscribed: bool, waiting: bool, visible: bool, ended: bool, routing: Routing)

  datatype Step =
    | Prepare(ok: bool)                                  // the next of the three; a commit may fail
    | Finish                                             // the run is over: left and unsubscribed
    | Poll                                               // the dispatcher finds the reserved agent
    | Check                                              // the attempt is cached and waits for an agent
    | Store                                              // the agent is written to the attempt
    | Emit                                               // the hook reaches the current listeners

  function Begin(order: seq<Op>): State {
    State(order, false, false, false, false, Unrouted)
  }

  predicate Enabled(s: State, step: Step) {
    match step
    case Prepare(_) => s.todo != [] && !s.ended
    case Finish => s.todo == [] && !s.ended
    case Poll => s.visible && s.routing == Unrouted
    case Check => s.routing == Polled
    case Store => s.routing == Checked
    case Emit => s.routing == Stored
  }

  function Next(s: State, step: Step): State
    requires Enabled(s, step)
  {
    match step
    case Prepare(ok) =>
      var rest := s.(todo := s.todo[1..]);
      (match s.todo[0]
       case Subscribe => rest.(subscribed := true)
       case SetWaitAgent => rest.(waiting := true)
       case Commit => if ok then rest.(visible := true) else s.(todo := [], ended := true))
    case Finish => s.(ended := true, subscribed := false, waiting := false)
    case Poll => s.(routing := Polled)
    case Check => s.(routing := if s.waiting then Checked else Lost)
    case Store => s.(routing := Stored)
    case Emit => s.(routing := if s.subscribed then Delivered else Lost)
  }

  ghost predicate Legal(s: State, steps: seq<Step>)
    decreases |steps|
  {
    steps == [] || (Enabled(s, steps[0]) && Legal(Next(s, steps[0]), steps[1..]))
  }

  ghost function After(s: State, steps: seq<Step>): State
    requires Legal(s, steps)
    decreases |steps|
  {
    if steps == [] then s else After(Next(s, steps[0]), steps[1..])
  }

  ghost predicate Ordering(order: seq<Op>) {
    |order| == 3 && Subscribe in order && SetWaitAgent in order && Commit in order
  }

  /** No interleaving loses the first agent of an attempt that has not ended. */
  ghost predicate NeverLost(order: seq<Op>) {
    forall steps: seq<Step> :: Legal(Begin(order), steps) && After(Begin(order), steps).routing == Lost ==>
      After(Begin(order), steps).ended
  }

  /** Once the store shows the attempt, it is subscribed and waits, or it has ended. */
  ghost predicate Ready(s: State) {
    && (s.visible || s.routing != Unrouted ==> s.ended || (s.todo == [] && s.subscribed && s.waiting))
    && (s.routing == Lost ==> s.ended)
    && (s.todo != [] ==> Prepared(s))
  }

  /** A prefix of an order that commits last has been done. */
  ghost predicate Prepared(s: State)
    requires s.todo != []
  {
    && !s.visible && s.todo[|s.todo| - 1] == Commit
    && (Subscribe in s.todo || s.subscribed)
    && (SetWaitAgent in s.todo || s.waiting)
    && (forall i :: 0 <= i < |s.todo| - 1 ==> s.todo[i] != Commit)
  }

  lemma StepReady(s: State, step: Step)
    requires Ready(s) && Enabled(s, step)
    ensures Ready(Next(s, step))
  {
  }

  lemma {:induction false} RunReady(s: State, steps: seq<Step>)
    requires Ready(s) && Legal(s, steps)
    ensures Ready(After(s, steps))
    decreases |steps|
  {
    if steps != [] {
      StepReady(s, steps[0]);
      RunReady(Next(s, steps[0]), steps[1..]);
    }
  }

  /** The dispatcher's four steps on a visible attempt that nothing else touches. */
  lemma Routed(s: State)
    requires s.visible && s.routing == Unrouted && !s.ended && !(s.waiting && s.subscribed)
    ensures var route := if s.waiting then [Poll, Check, Store, Emit] else [Poll, Check];
            Legal(s, route) && After(s, route).routing == Lost && !After(s, route).ended
  {
    var polled := Next(s, Poll);
    var checked := Next(polled, Check);
    assert Legal(checked, []);
    if s.waiting {
      var stored := Next(checked, Store);
      var emitted := Next(stored, Emit);
      assert Legal(emitted, []) && After(emitted, []) == emitted;
      assert [Emit][1..] == [];
      assert Legal(stored, [Emit]) && After(stored, [Emit]) == emitted;
      assert [Store, Emit][1..] == [Emit];
      assert Legal(checked, [Store, Emit]) && After(checked, [Store, Emit]) == emitted;
      assert [Check, Store, Emit][1..] == [Store, Emit];
      assert Legal(polled, [Check, Store, Emit]) && After(polled, [Check, Store, Emit]) == emitted;
      assert [Poll, Check, Store, Emit][1..] == [Check, Store, Emit];
    } else {
      assert [Check][1..] == [];
      assert Legal(polled, [Check]) && After(polled, [Check]) == checked;
      assert [Poll, Check][1..] == [Check];
    }
  }

  /** The steps up to and including the commit, and then the dispatcher. */
  lemma {:induction false} LosingRun(s: State) returns (steps: seq<Step>)
    requires Commit in s.todo && s.todo[|s.todo| - 1] != Commit && !s.ended && s.routing == Unrouted && !s.visible
    requires (Subscribe in s.todo <==> !s.subscribed) && (SetWaitAgent in s.todo <==> !s.waiting)
    requires forall i, j :: 0 <= i < j < |s.todo| ==> s.todo[i] != s.todo[j]
    ensures Legal(s, steps) && After(s, steps).routing == Lost && !After(s, steps).ended
    decreases |s.todo|
  {
    var t := Next(s, Prepare(true));
    var rest: seq<Step>;
    if s.todo[0] == Commit {
      assert s.todo[|s.todo| - 1] in s.todo[1..];
      assert !(t.waiting && t.subscribed);
      Routed(t);
      rest := if t.waiting then [Poll, Check, Store, Emit] else [Poll, Check];
    } else {
      rest := LosingRun(t);
    }
    steps := [Prepare(true)] + rest;
    assert steps[1..] == rest;
  }

  /** The first agent reaches every run that has not ended, in all interleavings, if and
      only if the commit comes last. */
  lemma FirstAgentNeedsCommitLast(order: seq<Op>)
    requires Ordering(order)
    ensures NeverLost(order) <==> order[2] == Commit
  {
    if order[2] == Commit {
      forall steps: seq<Step> | Legal(Begin(order), steps) ensures Ready(After(Begin(order), steps)) {
        RunReady(Begin(order), steps);
      }
    } else {
      var steps := LosingRun(Begin(order));
      assert !NeverLost(order);
    }
  }

  /** How far the agent has come tells which of the dispatcher's steps were taken. */
  ghost predicate Tracked(s: State, steps: seq<Step>) {
    && (s.routing == Unrouted <==> Poll !in steps)
    && (s.routing == Delivered ==> Emit in steps)
    && (Emit in steps ==> s.routing == Delivered || s.routing == Lost)
  }

  lemma Extended(s: State, steps: seq<Step>, step: Step)
    requires Legal(s, steps + [step])
    ensures Legal(s, steps) && Enabled(After(s, steps), step) && After(s, steps + [step]) == Next(After(s, steps), step)
    decreases |steps|
  {
    var all := steps + [step];
    if steps == [] {
      assert all == [step] && all[1..] == [];
    } else {
      assert all[1..] == steps[1..] + [step];
      Extended(Next(s, steps[0]), steps[1..], step);
    }
  }

  lemma {:induction false} RunTracked(order: seq<Op>, steps: seq<Step>)
    requires Legal(Begin(order), steps)
    ensures Tracked(After(Begin(order), steps), steps)
    decreases |steps|
  {
    if steps != [] {
      var before, last := steps[..|steps| - 1], steps[|steps| - 1];
      assert steps == before + [last];
      Extended(Begin(order), before, last);
      RunTracked(order, before);
    }
  }

  /** If the commit comes last, the agent is delivered to every run that has not ended exactly
      when the dispatcher has come to the end of its steps, and those steps stay possible one
      after the other: from the commit on the agent can be polled, checked, stored, emitted. */
  lemma DeliveredExactly(order: seq<Op>, steps: seq<Step>)
    requires Ordering(order) && order[2] == Commit && Legal(Begin(order), steps)
    ensures var s := After(Begin(order), steps);
            !s.ended ==>
              && (s.routing == Delivered <==> Emit in steps)
              && (s.visible && s.routing != Delivered ==>
                    Enabled(s, match s.routing
                               case Unrouted => Poll case Polled => Check case Checked => Store case _ => Emit))
  {
    RunReady(Begin(order), steps);
    RunTracked(order, steps);
  }

  /** The predictive queue keeps that order; the inbound and the message queues do not. */
  lemma OrdersOfTheQueues()
    ensures NeverLost(PREDICTIVE) && !NeverLost(INBOUND) && !NeverLost(IM)
  {
    FirstAgentNeedsCommitLast(PREDICTIVE);
    FirstAgentNeedsCommitLast(INBOUND);
    FirstAgentNeedsCommitLast(IM);
  }
}
