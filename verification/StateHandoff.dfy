/** Handing the states of a chat over to the goroutine that drives it: a bounded channel,
    any number of goroutines that push, one that reads, and a flag for a reader taken to be
    gone. Each step is one channel operation, one timer, or one access to the flag. */
module StateHandoff {
  const STATE_BUFFER_SIZE := 50

  datatype ChatState = Idle | Invite | Declined | Bridge | Close

  /** The no-th state pushed by a producer. */
  datatype Item = Item(producer: nat, no: nat, state: ChatState)

  /** Where a producer is inside its push. */
  datatype Phase =
    | Outside
    | Full(item: Item)                                   // the channel was full
    | Waiting(item: Item)
    | Expired(item: Item)                                // the wait is over, the flag not yet set

  datatype Producer = Producer(phase: Phase, pushed: seq<ChatState>, expiries: nat)

  datatype System = System(buffer: seq<Item>, delivered: seq<Item>, dropped: seq<Item>, stalled: bool,
                           producers: seq<Producer>)

  datatype Step =
    | Push(p: nat, state: ChatState)                     // the first, non-blocking send
    | CheckStalled(p: nat)
    | SendWaiting(p: nat)
    | Expire(p: nat)
    | Mark(p: nat)                                       // sets the flag and drops the state
    | Read

  predicate Enabled(s: System, step: Step) {
    match step
    case Push(p, _) => p < |s.producers| && s.producers[p].phase.Outside?
    case CheckStalled(p) => p < |s.producers| && s.producers[p].phase.Full?
    case SendWaiting(p) => p < |s.producers| && s.producers[p].phase.Waiting? && |s.buffer| < STATE_BUFFER_SIZE
    case Expire(p) => p < |s.producers| && s.producers[p].phase.Waiting?
    case Mark(p) => p < |s.producers| && s.producers[p].phase.Expired?
    case Read => s.buffer != []
  }

  function Moved(s: System, p: nat, phase: Phase): seq<Producer>
    requires p < |s.producers|
  {
    s.producers[p := s.producers[p].(phase := phase)]
  }

  function Next(s: System, step: Step): System
    requires Enabled(s, step)
  {
    match step
    case Push(p, state) =>
      var who := s.producers[p];
      var item := Item(p, |who.pushed|, state);
      var full := |s.buffer| >= STATE_BUFFER_SIZE;
      var phase := if full then Full(item) else Outside;
      s.(buffer := if full then s.buffer else s.buffer + [item],
         producers := s.producers[p := Producer(phase, who.pushed + [state], who.expiries)])
    case CheckStalled(p) =>
      var item := s.producers[p].phase.item;
      if s.stalled then s.(dropped := s.dropped + [item], producers := Moved(s, p, Outside))
      else s.(producers := Moved(s, p, Waiting(item)))
    case SendWaiting(p) =>
      s.(buffer := s.buffer + [s.producers[p].phase.item], producers := Moved(s, p, Outside))
    case Expire(p) =>
      var who := s.producers[p];
      s.(producers := s.producers[p := who.(phase := Expired(who.phase.item), expiries := who.expiries + 1)])
    case Mark(p) =>
      s.(stalled := true, dropped := s.dropped + [s.producers[p].phase.item], producers := Moved(s, p, Outside))
    case Read => s.(delivered := s.delivered + [s.buffer[0]], buffer := s.buffer[1..])
  }

  function Start(n: nat): System {
    System([], [], [], false, seq(n, _ => Producer(Outside, [], 0)))
  }

  ghost predicate Legal(s: System, steps: seq<Step>)
    decreases |steps|, 0
  {
    steps == [] ||
    (Legal(s, steps[..|steps| - 1]) && Enabled(After(s, steps[..|steps| - 1]), steps[|steps| - 1]))
  }

  ghost function After(s: System, steps: seq<Step>): System
    requires Legal(s, steps)
    decreases |steps|, 1
  {
    if steps == [] then s else Next(After(s, steps[..|steps| - 1]), steps[|steps| - 1])
  }

  /** Every state that got into the channel, in that order. */
  function Entered(s: System): seq<Item> {
    s.delivered + s.buffer
  }

  // ---- Order ---------------------------------------------------------------------------

  predicate Earlier(items: seq<Item>, i: nat, j: nat)
    requires i < |items| && j < |items|
  {
    items[i].producer == items[j].producer ==> items[i].no < items[j].no
  }

  ghost predicate InOrder(items: seq<Item>) {
    forall i: nat, j: nat {:trigger Earlier(items, i, j)} :: i < j < |items| ==> Earlier(items, i, j)
  }

  /** The item is what its producer pushed under that number. */
  predicate Genuine(s: System, item: Item) {
    item.producer < |s.producers| && item.no < |s.producers[item.producer].pushed|
    && s.producers[item.producer].pushed[item.no] == item.state
  }

  /** The item comes before the one its producer is still pushing. */
  predicate Past(s: System, item: Item) {
    Genuine(s, item) &&
    var who := s.producers[item.producer];
    (!who.phase.Outside? ==> item.no < |who.pushed| - 1)
  }

  predicate Current(s: System, p: nat)
    requires p < |s.producers|
  {
    !s.producers[p].phase.Outside? ==>
      var item := s.producers[p].phase.item;
      item.producer == p && item.no == |s.producers[p].pushed| - 1 && Genuine(s, item)
  }

  ghost predicate Orderly(s: System) {
    && |s.buffer| <= STATE_BUFFER_SIZE
    && InOrder(Entered(s))
    && (forall i {:trigger Past(s, Entered(s)[i])} :: 0 <= i < |Entered(s)| ==> Past(s, Entered(s)[i]))
    && (forall p: nat {:trigger Current(s, p)} :: p < |s.producers| ==> Current(s, p))
  }

  lemma Appended(items: seq<Item>, item: Item)
    requires InOrder(items)
    requires forall i :: 0 <= i < |items| && items[i].producer == item.producer ==> items[i].no < item.no
    ensures InOrder(items + [item])
  {
    var all := items + [item];
    forall i: nat, j: nat | i < j < |all| ensures Earlier(all, i, j) {
      if j < |items| {
        assert Earlier(items, i, j);
      }
    }
  }

  lemma StepOrderly(s: System, step: Step)
    requires Orderly(s) && Enabled(s, step)
    ensures Orderly(Next(s, step))
    ensures Entered(s) <= Entered(Next(s, step))
  {
    var t := Next(s, step);
    if step.Read? {
      assert Entered(t) == Entered(s);
    } else {
      assert Current(s, step.p);
      if |t.buffer| > |s.buffer| {
        var item := t.buffer[|s.buffer|];
        assert Entered(t) == Entered(s) + [item];
        forall i | 0 <= i < |Entered(s)| && Entered(s)[i].producer == item.producer ensures Entered(s)[i].no < item.no {
          assert Past(s, Entered(s)[i]);
        }
        Appended(Entered(s), item);
      } else {
        assert Entered(t) == Entered(s);
      }
    }
    forall i | 0 <= i < |Entered(t)| ensures Past(t, Entered(t)[i]) {
      if i < |Entered(s)| {
        assert Past(s, Entered(s)[i]);
      }
    }
    forall p: nat | p < |t.producers| ensures Current(t, p) {
      assert Current(s, p);
    }
  }

  lemma {:induction false} RunOrderly(s: System, steps: seq<Step>)
    requires Orderly(s) && Legal(s, steps)
    ensures Orderly(After(s, steps))
  {
    if steps != [] {
      RunOrderly(s, steps[..|steps| - 1]);
      StepOrderly(After(s, steps[..|steps| - 1]), steps[|steps| - 1]);
    }
  }

  /** In every run the reader is given what got into the channel in that order, and from
      each producer states it pushed, in the order of the pushes and none twice. */
  lemma DeliveredInOrder(n: nat, steps: seq<Step>)
    requires Legal(Start(n), steps)
    ensures var s := After(Start(n), steps);
            && s.delivered <= Entered(s)
            && InOrder(s.delivered)
            && forall i :: 0 <= i < |s.delivered| ==> Genuine(s, s.delivered[i])
  {
    var s := After(Start(n), steps);
    StartOrderly(n);
    RunOrderly(Start(n), steps);
    forall i: nat, j: nat | i < j < |s.delivered| ensures Earlier(s.delivered, i, j) {
      assert Earlier(Entered(s), i, j);
    }
    forall i | 0 <= i < |s.delivered| ensures Genuine(s, s.delivered[i]) {
      assert Past(s, Entered(s)[i]);
    }
  }

  // ---- Conservation --------------------------------------------------------------------

  function InHand(s: System, item: Item): nat {
    if item.producer >= |s.producers| then 0
    else
      var phase := s.producers[item.producer].phase;
      if !phase.Outside? && phase.item == item then 1 else 0
  }

  /** A state that was pushed is in one place, once: in the channel or delivered, dropped, or
      still in the hand of its producer. One that was not is nowhere. */
  predicate Placed(s: System, item: Item) {
    multiset(Entered(s))[item] + multiset(s.dropped)[item] + InHand(s, item) == if Genuine(s, item) then 1 else 0
  }

  lemma PushPlaced(s: System, p: nat, state: ChatState, item: Item)
    requires Enabled(s, Push(p, state)) && Placed(s, item)
    ensures Placed(Next(s, Push(p, state)), item)
  {
    var t := Next(s, Push(p, state));
    assert Entered(t) == if |t.buffer| > |s.buffer| then Entered(s) + [t.buffer[|s.buffer|]] else Entered(s);
  }

  lemma SendPlaced(s: System, p: nat, item: Item)
    requires Enabled(s, SendWaiting(p)) && Placed(s, item) && Current(s, p)
    ensures Placed(Next(s, SendWaiting(p)), item)
  {
    assert Entered(Next(s, SendWaiting(p))) == Entered(s) + [s.producers[p].phase.item];
  }

  lemma DropPlaced(s: System, step: Step, item: Item)
    requires (step.CheckStalled? || step.Mark?) && Enabled(s, step) && Placed(s, item) && Current(s, step.p)
    ensures Placed(Next(s, step), item)
  {
  }

  lemma StepPlaced(s: System, step: Step, item: Item)
    requires Enabled(s, step) && Placed(s, item) && (!step.Read? ==> Current(s, step.p))
    ensures Placed(Next(s, step), item)
  {
    match step {
      case Push(p, state) => PushPlaced(s, p, state, item);
      case SendWaiting(p) => SendPlaced(s, p, item);
      case CheckStalled(_) => DropPlaced(s, step, item);
      case Mark(_) => DropPlaced(s, step, item);
      case Expire(_) =>
      case Read => assert Entered(Next(s, step)) == Entered(s);
    }
  }

  lemma StartOrderly(n: nat)
    ensures Orderly(Start(n))
  {
    forall p: nat | p < n ensures Current(Start(n), p) { }
  }

  /** In every run each pushed state is in exactly one place. */
  lemma {:induction false} NoStateLostOrDoubled(n: nat, steps: seq<Step>, item: Item)
    requires Legal(Start(n), steps)
    ensures Placed(After(Start(n), steps), item)
  {
    if steps != [] {
      var before := steps[..|steps| - 1];
      NoStateLostOrDoubled(n, before, item);
      StartOrderly(n);
      RunOrderly(Start(n), before);
      assert !steps[|steps| - 1].Read? ==> Current(After(Start(n), before), steps[|steps| - 1].p);
      StepPlaced(After(Start(n), before), steps[|steps| - 1], item);
    }
  }

  // ---- Waiting -------------------------------------------------------------------------

  /** A producer waits only before its first expired wait; after it the flag is set before
      the next push. */
  predicate Patient(s: System, p: nat)
    requires p < |s.producers|
  {
    var who := s.producers[p];
    && who.expiries <= 1
    && (who.phase.Waiting? ==> who.expiries == 0)
    && (who.phase.Expired? ==> who.expiries == 1)
    && (who.expiries == 1 && !who.phase.Expired? ==> s.stalled)
  }

  ghost predicate SomeExpired(s: System) {
    exists p: nat :: p < |s.producers| && s.producers[p].expiries > 0
  }

  ghost predicate Bounded(s: System) {
    && (forall p: nat {:trigger Patient(s, p)} :: p < |s.producers| ==> Patient(s, p))
    && (s.stalled || s.dropped != [] ==> s.stalled && SomeExpired(s))
  }

  lemma StepBounded(s: System, step: Step)
    requires Bounded(s) && Enabled(s, step)
    ensures Bounded(Next(s, step))
  {
    var t := Next(s, step);
    if !step.Read? {
      assert Patient(s, step.p);
    }
    forall p: nat | p < |t.producers| ensures Patient(t, p) {
      assert Patient(s, p);
    }
    if s.stalled {
      var p: nat :| p < |s.producers| && s.producers[p].expiries > 0;
      assert t.producers[p].expiries > 0;
    }
    if step.Mark? {
      assert t.producers[step.p].expiries > 0;
    }
  }

  /** In every run: nothing is dropped before a first wait expires, no producer has more
      than one expired wait, and after it none of its pushes waits again. */
  lemma {:induction false} OneExpiredWaitEach(n: nat, steps: seq<Step>)
    requires Legal(Start(n), steps)
    ensures var s := After(Start(n), steps);
            && Bounded(s)
            && (forall p: nat :: p < |s.producers| ==>
                  s.producers[p].expiries <= 1 && (s.producers[p].expiries == 1 ==> !s.producers[p].phase.Waiting?))
            && (!SomeExpired(s) ==> s.dropped == [])
  {
    if steps == [] {
      forall p: nat | p < n ensures Patient(Start(n), p) { }
    } else {
      OneExpiredWaitEach(n, steps[..|steps| - 1]);
      StepBounded(After(Start(n), steps[..|steps| - 1]), steps[|steps| - 1]);
    }
    var s := After(Start(n), steps);
    forall p: nat | p < |s.producers|
      ensures s.producers[p].expiries <= 1 && (s.producers[p].expiries == 1 ==> !s.producers[p].phase.Waiting?)
    {
      assert Patient(s, p);
    }
  }

  ghost predicate NoneWaits(s: System) {
    s.stalled && forall p: nat :: p < |s.producers| ==> !s.producers[p].phase.Waiting?
  }

  /** Once the flag is set and no producer is waiting, none ever waits again: every later
      push ends without blocking, whether or not anyone reads. */
  lemma {:induction false} NeverWaitsAgain(s: System, steps: seq<Step>)
    requires NoneWaits(s) && Legal(s, steps)
    ensures NoneWaits(After(s, steps)) && |After(s, steps).producers| == |s.producers|
    ensures forall p: nat :: p < |s.producers| ==> After(s, steps).producers[p].expiries == s.producers[p].expiries
  {
    if steps != [] {
      NeverWaitsAgain(s, steps[..|steps| - 1]);
    }
  }

  /** A push is sent at once unless fifty states are waiting to be read, and at no time are
      more than fifty. */
  lemma FiftyFit(n: nat, steps: seq<Step>, p: nat, state: ChatState)
    requires Legal(Start(n), steps) && Enabled(After(Start(n), steps), Push(p, state))
    ensures var s := After(Start(n), steps);
            var t := Next(s, Push(p, state));
            && |s.buffer| <= 50
            && (t.producers[p].phase.Outside? <==> |s.buffer| < 50)
            && (|s.buffer| < 50 ==> t.buffer == s.buffer + [Item(p, |s.producers[p].pushed|, state)])
            && (|s.buffer| == 50 ==> t.buffer == s.buffer && t.producers[p].phase.Full?)
  {
    StartOrderly(n);
    RunOrderly(Start(n), steps);
  }

  // ---- Once per conversation -----------------------------------------------------------

  lemma Extended(s: System, steps: seq<Step>, step: Step)
    requires Legal(s, steps) && Enabled(After(s, steps), step)
    ensures Legal(s, steps + [step]) && After(s, steps + [step]) == Next(After(s, steps), step)
  {
    assert (steps + [step])[..|steps|] == steps;
  }

  ghost predicate Untroubled(s: System, n: nat) {
    && !s.stalled && |s.producers| == n
    && forall p: nat :: p < n ==> s.producers[p].phase.Outside? && s.producers[p].expiries == 0
  }

  lemma {:induction false} Fill(n: nat, k: nat) returns (steps: seq<Step>)
    requires 0 < n && k <= STATE_BUFFER_SIZE
    ensures Legal(Start(n), steps)
    ensures |After(Start(n), steps).buffer| == k && Untroubled(After(Start(n), steps), n)
  {
    steps := [];
    if k > 0 {
      steps := Fill(n, k - 1);
      Extended(Start(n), steps, Push(0, Close));
      steps := steps + [Push(0, Close)];
    }
  }

  /** With two producers or more the conversation can pay two waits: the second began
      before the first set the flag. */
  lemma SecondWaitHappens(n: nat) returns (steps: seq<Step>)
    requires n >= 2
    ensures Legal(Start(n), steps)
    ensures var s := After(Start(n), steps);
            |s.producers| == n && s.producers[0].expiries == 1 && s.producers[1].expiries == 1
  {
    steps := Fill(n, STATE_BUFFER_SIZE);
    steps := BothFull(n, steps);
    steps := BothWait(n, steps);
    Extended(Start(n), steps, Expire(0));
    Extended(Start(n), steps + [Expire(0)], Expire(1));
    steps := steps + [Expire(0)] + [Expire(1)];
  }

  lemma BothFull(n: nat, filling: seq<Step>) returns (steps: seq<Step>)
    requires n >= 2 && Legal(Start(n), filling)
    requires |After(Start(n), filling).buffer| == STATE_BUFFER_SIZE && Untroubled(After(Start(n), filling), n)
    ensures Legal(Start(n), steps)
    ensures var s := After(Start(n), steps);
            && |s.producers| == n && !s.stalled && s.producers[0].phase.Full? && s.producers[1].phase.Full?
            && s.producers[0].expiries == 0 && s.producers[1].expiries == 0
  {
    Extended(Start(n), filling, Push(0, Close));
    Extended(Start(n), filling + [Push(0, Close)], Push(1, Invite));
    steps := filling + [Push(0, Close)] + [Push(1, Invite)];
  }

  lemma BothWait(n: nat, full: seq<Step>) returns (steps: seq<Step>)
    requires n >= 2 && Legal(Start(n), full)
    requires var s := After(Start(n), full);
             && |s.producers| == n && !s.stalled && s.producers[0].phase.Full? && s.producers[1].phase.Full?
             && s.producers[0].expiries == 0 && s.producers[1].expiries == 0
    ensures Legal(Start(n), steps)
    ensures var s := After(Start(n), steps);
            && |s.producers| == n && s.producers[0].phase.Waiting? && s.producers[1].phase.Waiting?
            && s.producers[0].expiries == 0 && s.producers[1].expiries == 0
  {
    Extended(Start(n), full, CheckStalled(0));
    Extended(Start(n), full + [CheckStalled(0)], CheckStalled(1));
    steps := full + [CheckStalled(0)] + [CheckStalled(1)];
  }

  /** The expired waits of all producers together. */
  function Expiries(producers: seq<Producer>): nat {
    if producers == [] then 0
    else Expiries(producers[..|producers| - 1]) + producers[|producers| - 1].expiries
  }

  lemma {:induction false} SumOfOnes(producers: seq<Producer>)
    requires forall p: nat :: p < |producers| ==> producers[p].expiries <= 1
    ensures Expiries(producers) <= |producers|
  {
    if producers != [] {
      SumOfOnes(producers[..|producers| - 1]);
    }
  }

  lemma {:induction false} SumOfTwo(producers: seq<Producer>)
    requires |producers| >= 2
    ensures Expiries(producers) >= producers[0].expiries + producers[1].expiries
  {
    var n := |producers|;
    if n > 2 {
      SumOfTwo(producers[..n - 1]);
    } else {
      assert producers[..1][..0] == [];
      assert Expiries(producers[..1]) == Expiries([]) + producers[0].expiries;
    }
  }

  lemma {:induction false} ProducersStay(s: System, steps: seq<Step>)
    requires Legal(s, steps)
    ensures |After(s, steps).producers| == |s.producers|
  {
    if steps != [] {
      ProducersStay(s, steps[..|steps| - 1]);
    }
  }

  /** In no run do more than so many waits expire. */
  ghost predicate PaysAtMost(n: nat, waits: nat) {
    forall steps: seq<Step> :: Legal(Start(n), steps) ==> Expiries(After(Start(n), steps).producers) <= waits
  }

  /** A conversation pays at most one wait per producer, and at most one in all if and only
      if it has no second producer. */
  lemma OncePerConversation(n: nat)
    ensures PaysAtMost(n, n)
    ensures PaysAtMost(n, 1) <==> n <= 1
  {
    forall steps: seq<Step> | Legal(Start(n), steps) ensures Expiries(After(Start(n), steps).producers) <= n {
      OneExpiredWaitEach(n, steps);
      ProducersStay(Start(n), steps);
      SumOfOnes(After(Start(n), steps).producers);
    }
    if n >= 2 {
      var steps := SecondWaitHappens(n);
      SumOfTwo(After(Start(n), steps).producers);
      assert !PaysAtMost(n, 1);
    }
  }
}
