/** The session of one message thread in a queue: the preview of the offered agent, the
    joined operator, and the clocks that tell how long each side has been silent. */
module ImSession {
  const MAX_PREVIEW_MILLIS := 3600000

  /** The decimal text of a user id. */
  type UserId = s: string | s != "" witness "0"

  /** Timestamps are in milliseconds; "" stands for no user and no preview. */
  datatype Sess = Sess(subMember: string, userId: string, agentMemberId: string, previewUserId: string, botActive: bool,
                       lastMessageAt: int, fromMemberAt: int, fromAgentAt: int)

  function Opened(subMember: string, now: int): Sess {
    Sess(subMember, "", "", "", false, now, 0, 0)
  }

  function BotSet(s: Sess, active: bool, now: int): Sess {
    var s := if s.botActive && !active then s.(lastMessageAt := now, fromMemberAt := now, fromAgentAt := now) else s;
    s.(botActive := active)
  }

  function Heard(s: Sess, from: string, now: int): Sess {
    var s := s.(lastMessageAt := now);
    if from == s.subMember then s.(fromMemberAt := now)
    else if from == s.userId then s.(fromAgentAt := now)
    else s
  }

  function Joined(s: Sess, user: UserId, memberId: string): Sess {
    s.(userId := user, agentMemberId := if memberId != "" then memberId else s.agentMemberId)
  }

  function Previewed(s: Sess, user: UserId): Sess {
    s.(previewUserId := user)
  }

  function PreviewGone(s: Sess): Sess {
    s.(previewUserId := "")
  }

  /** Division of whole milliseconds, rounding towards zero. */
  function Seconds(millis: int): int {
    if millis >= 0 then millis / 1000 else -((-millis) / 1000)
  }

  function SilentSec(s: Sess, now: int): int {
    Seconds(now - s.lastMessageAt)
  }

  function MemberIdle(s: Sess, now: int): int {
    if s.fromMemberAt == 0 then 0 else Seconds(now - s.fromMemberAt)
  }

  function OperatorIdle(s: Sess, now: int): int {
    if s.fromAgentAt == 0 then 0 else Seconds(now - s.fromAgentAt)
  }

  // ---- The session as an object --------------------------------------------------------

  datatype Outcome = Done | Failed

  class Session {
    const subMember: string
    var userId: string
    var agentMemberId: string
    var previewUserId: string
    var botActive: bool
    var lastMessageAt: int
    var fromMemberAt: int
    var fromAgentAt: int
    var calls: seq<string>                               // the users the preview gateway was called for

    ghost function View(): Sess
      reads this
    {
      Sess(subMember, userId, agentMemberId, previewUserId, botActive, lastMessageAt, fromMemberAt, fromAgentAt)
    }

    constructor (subMember: string, now: int)
      ensures View() == Opened(subMember, now) && calls == []
    {
      this.subMember, userId, agentMemberId, previewUserId := subMember, "", "", "";
      botActive, lastMessageAt, fromMemberAt, fromAgentAt, calls := false, now, 0, 0, [];
    }

    method SetBotActive(active: bool, now: int)
      modifies this
      ensures View() == BotSet(old(View()), active, now) && calls == old(calls)
    {
      if botActive && !active {
        lastMessageAt := now;
        fromMemberAt := now;
        fromAgentAt := now;
      }
      botActive := active;
    }

    method OnMessage(from: string, now: int)
      modifies this
      ensures View() == Heard(old(View()), from, now) && calls == old(calls)
    {
      lastMessageAt := now;
      if from == subMember {
        fromMemberAt := now;
      } else if from == userId {
        fromAgentAt := now;
      }
    }

    /** `reply` is what the gateway would answer. A duration out of range never reaches it. */
    method GivePreviewUser(user: UserId, millis: int, reply: Outcome) returns (r: Outcome)
      modifies this
      ensures r == if 0 < millis <= 3600000 then reply else Failed
      ensures previewUserId == if r == Done then user else old(previewUserId)
      ensures View() == if r == Done then Previewed(old(View()), user) else old(View())
      ensures calls == if 0 < millis <= MAX_PREVIEW_MILLIS then old(calls) + [user] else old(calls)
    {
      if millis <= 0 || millis > MAX_PREVIEW_MILLIS {
        return Failed;
      }
      calls := calls + [user];
      if reply == Failed {
        return Failed;
      }
      previewUserId := user;
      return Done;
    }

    /** Whatever the gateway answers, the preview is gone: it is not revoked twice. */
    method RemovePreviewUser(reply: Outcome) returns (r: Outcome)
      modifies this
      ensures View() == PreviewGone(old(View())) && !HasPreview()
      ensures r == if old(previewUserId) == "" then Done else reply
      ensures calls == if old(previewUserId) == "" then old(calls) else old(calls) + [old(previewUserId)]
    {
      var user := previewUserId;
      if user == "" {
        return Done;
      }
      calls := calls + [user];
      previewUserId := "";
      return reply;
    }

    /** After a failed upgrade the preview can still be revoked. */
    method UpgradePreviewUser(user: UserId, memberId: string, reply: Outcome) returns (r: Outcome)
      modifies this
      ensures r == reply && calls == old(calls) + [user]
      ensures View() == if r == Done then PreviewGone(Joined(old(View()), user, memberId)) else old(View())
      ensures r == Done ==> userId == user && !HasPreview()
      ensures r == Done ==> agentMemberId == if memberId == "" then old(agentMemberId) else memberId
      ensures r == Failed ==> previewUserId == old(previewUserId) && userId == old(userId)
    {
      calls := calls + [user];
      if reply == Failed {
        return Failed;
      }
      if memberId != "" {
        agentMemberId := memberId;
      }
      userId := user;
      previewUserId := "";
      return Done;
    }

    predicate HasPreview()
      reads this`previewUserId
    {
      previewUserId != ""
    }

    predicate IsUserJoined(user: UserId)
      reads this`userId
    {
      userId != "" && userId == user
    }

    /** For an operator who is a member of the thread already: the gateway is not called. */
    method MarkUserJoined(user: UserId)
      modifies this
      ensures View() == Joined(old(View()), user, "") && calls == old(calls) && IsUserJoined(user)
      ensures agentMemberId == old(agentMemberId) && previewUserId == old(previewUserId)
    {
      userId := user;
    }

    /** A direct addition, or a transfer: a preview is neither needed nor ended by it. */
    method AddMemberUser(user: UserId, memberId: string, reply: Outcome) returns (r: Outcome)
      modifies this
      ensures r == reply && calls == old(calls)
      ensures View() == if r == Done then Joined(old(View()), user, memberId) else old(View())
      ensures r == Done ==> userId == user && previewUserId == old(previewUserId)
      ensures r == Done ==> agentMemberId == if memberId == "" then old(agentMemberId) else memberId
    {
      if reply == Failed {
        return Failed;
      }
      if memberId != "" {
        agentMemberId := memberId;
      }
      userId := user;
      return Done;
    }
  }

  // ---- Idle timeouts -------------------------------------------------------------------

  datatype Settings = Settings(maxIdleClient: int, maxIdleAgent: int, maxIdleDialog: int, lastMessageTimeout: bool)

  datatype Reason = NoReason | AgentReason | ClientReason | DialogReason

  predicate IsAgentIdle(q: Settings, task: bool, s: Sess, now: int) {
    task &&
    if q.lastMessageTimeout
    then SilentSec(s, now) >= q.maxIdleAgent && OperatorIdle(s, now) > MemberIdle(s, now)
    else OperatorIdle(s, now) >= q.maxIdleAgent
  }

  predicate IsClientIdle(q: Settings, task: bool, s: Sess, now: int) {
    task &&
    if q.lastMessageTimeout
    then SilentSec(s, now) >= q.maxIdleClient && MemberIdle(s, now) > OperatorIdle(s, now)
    else MemberIdle(s, now) >= q.maxIdleClient
  }

  /** Whether the attempt goes on, and if not, why. An attempt that was never bridged ends
      at its first tick. */
  function CheckIdle(q: Settings, bridged: bool, task: bool, s: Sess, now: int): (bool, Reason) {
    if !bridged then (false, NoReason)
    else if !s.botActive && q.maxIdleAgent > 0 && IsAgentIdle(q, task, s, now) then (false, AgentReason)
    else if !s.botActive && q.maxIdleClient > 0 && IsClientIdle(q, task, s, now) then (false, ClientReason)
    else if q.maxIdleDialog > 0 && task && SilentSec(s, now) >= q.maxIdleDialog then (false, DialogReason)
    else (true, NoReason)
  }

  /** What happens to a session: control passes to or from the bot, a message arrives, an
      operator joins. */
  datatype Event = Bot(active: bool) | Message(from: string) | Join(user: UserId)

  datatype Timed = Timed(e: Event, at: int)

  function Apply(s: Sess, t: Timed): Sess {
    match t.e
    case Bot(active) => BotSet(s, active, t.at)
    case Message(from) => Heard(s, from, t.at)
    case Join(user) => Joined(s, user, "")
  }

  function After(s: Sess, history: seq<Timed>): Sess {
    if history == [] then s else Apply(After(s, history[..|history| - 1]), history[|history| - 1])
  }

  /** The clock never goes back, and it started after zero. */
  ghost predicate Clocked(start: int, history: seq<Timed>, now: int) {
    && 0 < start <= now
    && (forall i :: 0 <= i < |history| ==> start <= history[i].at <= now)
    && (forall i, j :: 0 <= i < j < |history| ==> history[i].at <= history[j].at)
  }

  // The same facts read off the history, without the session.

  /** The bot has control after this history. */
  function InControl(history: seq<Timed>): bool {
    if history == [] then false
    else if history[|history| - 1].e.Bot? then history[|history| - 1].e.active
    else InControl(history[..|history| - 1])
  }

  function OperatorAfter(history: seq<Timed>): string {
    if history == [] then ""
    else if history[|history| - 1].e.Join? then history[|history| - 1].e.user
    else OperatorAfter(history[..|history| - 1])
  }

  predicate Releases(history: seq<Timed>, i: nat)
    requires i < |history|
  {
    history[i].e == Bot(false) && InControl(history[..i])
  }

  datatype Side = Member | Operator | Anyone

  /** A message of that side, or control given back, which counts for both. */
  predicate Speaks(subMember: string, history: seq<Timed>, i: nat, side: Side)
    requires i < |history|
  {
    Releases(history, i) ||
    (history[i].e.Message? &&
     match side
     case Member => history[i].e.from == subMember
     case Operator => history[i].e.from != subMember && history[i].e.from == OperatorAfter(history[..i])
     case Anyone => true)
  }

  /** `at` is when that side last spoke; 0 if it has not. */
  ghost predicate LastWord(subMember: string, history: seq<Timed>, side: Side, at: int) {
    && (forall i: nat :: i < |history| && Speaks(subMember, history, i, side) ==> history[i].at <= at)
    && (at == 0 || exists i: nat :: i < |history| && Speaks(subMember, history, i, side) && history[i].at == at)
  }

  /** When that side last spoke; 0 if it has not. */
  function LastTime(subMember: string, history: seq<Timed>, side: Side): int {
    if history == [] then 0
    else if Speaks(subMember, history, |history| - 1, side) then history[|history| - 1].at
    else LastTime(subMember, history[..|history| - 1], side)
  }

  /** For how many full seconds that side has been silent; 0 if it has not spoken. */
  function IdleSeconds(subMember: string, history: seq<Timed>, side: Side, now: int): int {
    var at := LastTime(subMember, history, side);
    if at == 0 then 0 else Seconds(now - at)
  }

  /** The session knows who is who, who has control, and when each side last spoke. */
  lemma {:induction false} SessionTells(start: int, subMember: string, history: seq<Timed>)
    ensures var s := After(Opened(subMember, start), history);
            && s.subMember == subMember
            && s.botActive == InControl(history)
            && s.userId == OperatorAfter(history)
            && s.fromMemberAt == LastTime(subMember, history, Member)
            && s.fromAgentAt == LastTime(subMember, history, Operator)
            && (s.lastMessageAt == if Silent(subMember, history) then start else LastTime(subMember, history, Anyone))
  {
    if history != [] {
      SessionTells(start, subMember, history[..|history| - 1]);
    }
  }

  /** Nobody has spoken yet. */
  predicate Silent(subMember: string, history: seq<Timed>) {
    history == [] || (!Speaks(subMember, history, |history| - 1, Anyone) && Silent(subMember, history[..|history| - 1]))
  }

  lemma ClockedPrefix(start: int, history: seq<Timed>, now: int)
    requires Clocked(start, history, now) && history != []
    ensures Clocked(start, history[..|history| - 1], history[|history| - 1].at)
  {
  }

  /** One more event: the last word of a side moves exactly when the event is its word. */
  lemma NextWord(subMember: string, history: seq<Timed>, side: Side, at: int)
    requires history != [] && LastWord(subMember, history[..|history| - 1], side, at)
    requires at <= history[|history| - 1].at
    ensures LastWord(subMember, history, side,
                     if Speaks(subMember, history, |history| - 1, side) then history[|history| - 1].at else at)
  {
    var before, n := history[..|history| - 1], |history| - 1;
    forall i: nat | i < n ensures Speaks(subMember, history, i, side) <==> Speaks(subMember, before, i, side) {
      assert before[..i] == history[..i];
    }
    if at != 0 {
      var i: nat :| i < |before| && Speaks(subMember, before, i, side) && before[i].at == at;
      assert Speaks(subMember, history, i, side) && history[i].at == at;
    }
    if Speaks(subMember, history, n, side) {
      assert history[n].at == history[n].at;
    }
  }

  /** `LastTime` is the time of a word of that side, and none of its words is later. */
  lemma {:induction false} LastTimeIsLast(start: int, subMember: string, history: seq<Timed>, side: Side, now: int)
    requires Clocked(start, history, now)
    ensures LastWord(subMember, history, side, LastTime(subMember, history, side))
    ensures LastTime(subMember, history, side) <= now
  {
    if history != [] {
      ClockedPrefix(start, history, now);
      LastTimeIsLast(start, subMember, history[..|history| - 1], side, history[|history| - 1].at);
      NextWord(subMember, history, side, LastTime(subMember, history[..|history| - 1], side));
    }
  }

  /** The clocks of a session say exactly when each side last spoke. */
  lemma ClocksTell(start: int, subMember: string, history: seq<Timed>, now: int)
    requires Clocked(start, history, now)
    ensures var s := After(Opened(subMember, start), history);
            && LastWord(subMember, history, Member, s.fromMemberAt)
            && LastWord(subMember, history, Operator, s.fromAgentAt)
            && (s.lastMessageAt == start || LastWord(subMember, history, Anyone, s.lastMessageAt))
  {
    SessionTells(start, subMember, history);
    LastTimeIsLast(start, subMember, history, Member, now);
    LastTimeIsLast(start, subMember, history, Operator, now);
    LastTimeIsLast(start, subMember, history, Anyone, now);
  }

  ghost predicate HasSpoken(subMember: string, history: seq<Timed>, side: Side) {
    exists i: nat :: i < |history| && Speaks(subMember, history, i, side)
  }

  /** Every word of that side is at least so many milliseconds old. */
  ghost predicate SilentFor(subMember: string, history: seq<Timed>, side: Side, millis: int, now: int) {
    forall i: nat :: i < |history| && Speaks(subMember, history, i, side) ==> now - history[i].at >= millis
  }

  lemma FullSeconds(millis: int, seconds: int)
    requires millis >= 0
    ensures Seconds(millis) >= seconds <==> millis >= 1000 * seconds
  {
  }

  lemma WordAge(start: int, subMember: string, history: seq<Timed>, side: Side, millis: int, now: int)
    requires Clocked(start, history, now)
    ensures var at := LastTime(subMember, history, side);
            && (at != 0 <==> HasSpoken(subMember, history, side))
            && (at != 0 ==> (now - at >= millis <==> SilentFor(subMember, history, side, millis, now)))
  {
    LastTimeIsLast(start, subMember, history, side, now);
    var at := LastTime(subMember, history, side);
    if HasSpoken(subMember, history, side) {
      var i: nat :| i < |history| && Speaks(subMember, history, i, side);
      assert 0 < history[i].at <= at;
    }
    if at != 0 {
      var i: nat :| i < |history| && Speaks(subMember, history, i, side) && history[i].at == at;
    }
  }

  /** Idle for so long means: it has spoken, and every word of it is that old. */
  lemma IdleAge(start: int, subMember: string, history: seq<Timed>, side: Side, seconds: int, now: int)
    requires Clocked(start, history, now) && seconds > 0
    ensures var idle := IdleSeconds(subMember, history, side, now);
            && (idle >= seconds <==>
                HasSpoken(subMember, history, side) && SilentFor(subMember, history, side, 1000 * seconds, now))
            && (idle > 0 ==> HasSpoken(subMember, history, side))
  {
    WordAge(start, subMember, history, side, 1000 * seconds, now);
    LastTimeIsLast(start, subMember, history, side, now);
    FullSeconds(now - LastTime(subMember, history, side), seconds);
  }

  lemma {:induction false} SilentHistory(subMember: string, history: seq<Timed>)
    ensures Silent(subMember, history) <==> !HasSpoken(subMember, history, Anyone)
  {
    if history != [] {
      var before, n := history[..|history| - 1], |history| - 1;
      SilentHistory(subMember, before);
      forall i: nat | i < n ensures Speaks(subMember, history, i, Anyone) <==> Speaks(subMember, before, i, Anyone) {
        assert before[..i] == history[..i];
      }
      assert HasSpoken(subMember, before, Anyone) ==> HasSpoken(subMember, history, Anyone) by {
        if i: nat :| i < |before| && Speaks(subMember, before, i, Anyone) {
          assert Speaks(subMember, history, i, Anyone);
        }
      }
    }
  }

  /** Silence of the whole thread, since it was opened. */
  lemma ThreadAge(start: int, subMember: string, history: seq<Timed>, seconds: int, now: int)
    requires Clocked(start, history, now) && seconds > 0
    ensures SilentSec(After(Opened(subMember, start), history), now) >= seconds <==>
            now - start >= 1000 * seconds && SilentFor(subMember, history, Anyone, 1000 * seconds, now)
  {
    SessionTells(start, subMember, history);
    SilentHistory(subMember, history);
    WordAge(start, subMember, history, Anyone, 1000 * seconds, now);
    LastTimeIsLast(start, subMember, history, Anyone, now);
    FullSeconds(now - After(Opened(subMember, start), history).lastMessageAt, seconds);
    if !Silent(subMember, history) {
      var i: nat :| i < |history| && Speaks(subMember, history, i, Anyone);
      assert start <= history[i].at <= LastTime(subMember, history, Anyone);
    }
  }

  function LimitOf(q: Settings, side: Side): int {
    if side == Operator then q.maxIdleAgent else q.maxIdleClient
  }

  /** When the operator or the member has been idle too long, in terms of the history alone:
      the bot is not in control, that side has spoken, and every word of it is as old as the
      limit; with lastMessageTimeout, every word of anyone is, and that side has been silent
      longer than the other. */
  ghost predicate TimedOut(q: Settings, bridged: bool, task: bool, start: int, subMember: string, history: seq<Timed>,
        side: Side, now: int)
    requires side != Anyone
  {
    var limit, other := LimitOf(q, side), if side == Operator then Member else Operator;
    && bridged && task && limit > 0
    && !InControl(history)
    && HasSpoken(subMember, history, side)
    && (if q.lastMessageTimeout
        then && now - start >= 1000 * limit && SilentFor(subMember, history, Anyone, 1000 * limit, now)
             && IdleSeconds(subMember, history, side, now) > IdleSeconds(subMember, history, other, now)
        else SilentFor(subMember, history, side, 1000 * limit, now))
  }

  /** What the two idle tests say, in those terms. */
  lemma AgentTest(q: Settings, task: bool, start: int, subMember: string, history: seq<Timed>, now: int)
    requires Clocked(start, history, now)
    ensures var s := After(Opened(subMember, start), history);
            !s.botActive && q.maxIdleAgent > 0 && IsAgentIdle(q, task, s, now) <==>
            TimedOut(q, true, task, start, subMember, history, Operator, now)
  {
    SessionTells(start, subMember, history);
    var s := After(Opened(subMember, start), history);
    assert OperatorIdle(s, now) == IdleSeconds(subMember, history, Operator, now);
    assert MemberIdle(s, now) == IdleSeconds(subMember, history, Member, now);
    if q.maxIdleAgent > 0 {
      IdleAge(start, subMember, history, Operator, q.maxIdleAgent, now);
      ThreadAge(start, subMember, history, q.maxIdleAgent, now);
      NotNegative(start, subMember, history, Member, now);
    }
  }

  lemma ClientTest(q: Settings, task: bool, start: int, subMember: string, history: seq<Timed>, now: int)
    requires Clocked(start, history, now)
    ensures var s := After(Opened(subMember, start), history);
            !s.botActive && q.maxIdleClient > 0 && IsClientIdle(q, task, s, now) <==>
            TimedOut(q, true, task, start, subMember, history, Member, now)
  {
    SessionTells(start, subMember, history);
    var s := After(Opened(subMember, start), history);
    assert OperatorIdle(s, now) == IdleSeconds(subMember, history, Operator, now);
    assert MemberIdle(s, now) == IdleSeconds(subMember, history, Member, now);
    if q.maxIdleClient > 0 {
      IdleAge(start, subMember, history, Member, q.maxIdleClient, now);
      ThreadAge(start, subMember, history, q.maxIdleClient, now);
      NotNegative(start, subMember, history, Operator, now);
    }
  }

  lemma NotNegative(start: int, subMember: string, history: seq<Timed>, side: Side, now: int)
    requires Clocked(start, history, now)
    ensures IdleSeconds(subMember, history, side, now) >= 0
  {
    LastTimeIsLast(start, subMember, history, side, now);
  }

  /** Exactly when the tick of an attempt ends it because of the agent. */
  lemma AgentTimeoutExactly(q: Settings, bridged: bool, task: bool, start: int, subMember: string, history: seq<Timed>,
        now: int)
    requires Clocked(start, history, now)
    ensures CheckIdle(q, bridged, task, After(Opened(subMember, start), history), now) == (false, AgentReason) <==>
            TimedOut(q, bridged, task, start, subMember, history, Operator, now)
  {
    AgentTest(q, task, start, subMember, history, now);
  }

  /** And because of the client: when the client has timed out and the agent has not. */
  lemma ClientTimeoutExactly(q: Settings, bridged: bool, task: bool, start: int, subMember: string,
        history: seq<Timed>, now: int)
    requires Clocked(start, history, now)
    ensures CheckIdle(q, bridged, task, After(Opened(subMember, start), history), now) == (false, ClientReason) <==>
            TimedOut(q, bridged, task, start, subMember, history, Member, now)
            && !TimedOut(q, bridged, task, start, subMember, history, Operator, now)
  {
    AgentTest(q, task, start, subMember, history, now);
    ClientTest(q, task, start, subMember, history, now);
  }

  /** No agent or client timeout while the bot is in control, nor before the full limit has
      passed since control was last given back, whatever messages came in between. */
  lemma NoTimeoutUnderBot(q: Settings, bridged: bool, task: bool, start: int, subMember: string, history: seq<Timed>,
        now: int)
    requires Clocked(start, history, now)
    ensures var (goesOn, reason) := CheckIdle(q, bridged, task, After(Opened(subMember, start), history), now);
            reason == AgentReason || reason == ClientReason ==>
              && !InControl(history)
              && forall i: nat :: i < |history| && Releases(history, i) ==>
                   now - history[i].at >= 1000 * if reason == AgentReason then q.maxIdleAgent else q.maxIdleClient
  {
    AgentTimeoutExactly(q, bridged, task, start, subMember, history, now);
    ClientTimeoutExactly(q, bridged, task, start, subMember, history, now);
    var reason := CheckIdle(q, bridged, task, After(Opened(subMember, start), history), now).1;
    if reason == AgentReason || reason == ClientReason {
      var side, limit := if reason == AgentReason then Operator else Member,
                         if reason == AgentReason then q.maxIdleAgent else q.maxIdleClient;
      forall i: nat | i < |history| && Releases(history, i) ensures now - history[i].at >= 1000 * limit {
        assert Speaks(subMember, history, i, side) && Speaks(subMember, history, i, Anyone);
      }
    }
  }

  /** The dialog timeout does not ask who is in control. */
  lemma DialogTimeoutUnderBot(q: Settings, start: int, subMember: string, history: seq<Timed>, now: int)
    requires Clocked(start, history, now) && InControl(history)
    ensures CheckIdle(q, true, true, After(Opened(subMember, start), history), now) == (false, DialogReason) <==>
            q.maxIdleDialog > 0 && now - start >= 1000 * q.maxIdleDialog
            && SilentFor(subMember, history, Anyone, 1000 * q.maxIdleDialog, now)
  {
    SessionTells(start, subMember, history);
    if q.maxIdleDialog > 0 {
      ThreadAge(start, subMember, history, q.maxIdleDialog, now);
    }
  }

  /** The whole thread has been silent for as long as a dialog may be. */
  ghost predicate DialogOver(q: Settings, bridged: bool, task: bool, start: int, subMember: string, history: seq<Timed>,
        now: int)
  {
    && bridged && task && q.maxIdleDialog > 0
    && now - start >= 1000 * q.maxIdleDialog
    && SilentFor(subMember, history, Anyone, 1000 * q.maxIdleDialog, now)
  }

  /** Exactly when the tick of an attempt ends it because of the dialog, whoever has control:
      neither side has timed out, and the dialog is over. */
  lemma DialogTimeoutExactly(q: Settings, bridged: bool, task: bool, start: int, subMember: string,
        history: seq<Timed>, now: int)
    requires Clocked(start, history, now)
    ensures CheckIdle(q, bridged, task, After(Opened(subMember, start), history), now) == (false, DialogReason) <==>
            && DialogOver(q, bridged, task, start, subMember, history, now)
            && !TimedOut(q, bridged, task, start, subMember, history, Operator, now)
            && !TimedOut(q, bridged, task, start, subMember, history, Member, now)
  {
    AgentTest(q, task, start, subMember, history, now);
    ClientTest(q, task, start, subMember, history, now);
    if q.maxIdleDialog > 0 {
      ThreadAge(start, subMember, history, q.maxIdleDialog, now);
    }
  }

  /** And when the attempt goes on: it is bridged, and none of the three has timed out. One
      that is not bridged ends at its first tick, for no reason of idleness. */
  lemma GoesOnExactly(q: Settings, bridged: bool, task: bool, start: int, subMember: string, history: seq<Timed>,
        now: int)
    requires Clocked(start, history, now)
    ensures var (goesOn, reason) := CheckIdle(q, bridged, task, After(Opened(subMember, start), history), now);
            && (goesOn <==>
                && bridged && !DialogOver(q, bridged, task, start, subMember, history, now)
                && !TimedOut(q, bridged, task, start, subMember, history, Operator, now)
                && !TimedOut(q, bridged, task, start, subMember, history, Member, now))
            && (reason == NoReason <==> goesOn || !bridged)
  {
    AgentTimeoutExactly(q, bridged, task, start, subMember, history, now);
    ClientTimeoutExactly(q, bridged, task, start, subMember, history, now);
    DialogTimeoutExactly(q, bridged, task, start, subMember, history, now);
  }
}
