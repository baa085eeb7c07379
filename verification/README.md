# Verified model of the call center's attempt machinery

A queue of the call center works on *attempts*: one customer contact each, kept consistent
while call legs, timers, agents, stores and other goroutines race over it. This project models
that machinery in Dafny and proves what it promises. `dafny verify dfyconfig.toml` checks all of it.

| module | what it models |
|---|---|
| `EvictList`, `LruGeneration`, `LruCache` | the cache every lookup rests on: a doubly linked recency list, a key index into it, and a purge that only raises a generation |
| `LruReference`, `LruRefinement` | a simple cache that really empties itself, and the proof that the real one answers like it |
| `LruLaws` | what callers can rely on, by calls and answers alone |
| `ImTransfer`, `Attempts` | the transfer of a message thread between attempts, one step per locked section, and the attempt object whose methods are those sections |
| `AttemptLifecycle`, `QueueManager` | creation, leave, timeout and report of attempts over the real cache object |
| `OfferingProtocol`, `InboundQueue`, `PredictOffering` | the two nested event loops that offer a call to agents |
| `OfferingCauses`, `DialingCauses`, `ImCauses` | for each of the three protocols, what every entry of a run follows |
| `PredictDialing` | the dialling loop of a predictive call with its retries |
| `AgentRouting` | the race between a run that gets ready and the dispatcher |
| `ImSession`, `ImProtocol`, `ImQueue` | the message session (previews, idle clocks) and the run of a message attempt |
| `CallLeg`, `CallHistory` | one call leg: event setters, hangup, ring timer; and the leg told by its history |
| `Journals` | the log the runs keep |
| `StateHandoff` | the bounded channel that hands chat states to a queue |

How the event loops are modelled. A loop becomes a method over an arbitrary stream of replies,
in which every reading of the outside world (which event a select delivers, whether a leg is
up, what the store answers) is the next reply. The method logs each action and each reading,
and its contract says that the log *conforms* to a flat protocol (`DueNext`) in which exactly
one entry is due after any log. A select may go unanswered for ever: `limit` is how many the
environment answers, and it is universally quantified. The safety properties are lemmas about
every conforming log, cut at any point, and count entries without referring to the protocol's
own variables. Each protocol also has a second description, from the other side: for every action
and reading, what must have come right before it. The two are proved equivalent, so that a wrong
branch in a protocol contradicts the other description.

## Findings

- `RemoveFunc` answers true when it matches an entry that was purged but not yet unlinked; the
  emptied cache would answer false. Contents stay equal. The condition is exact
  (`LruRefinement.AnswersLikeReference`).
- A transfer leaves trouble behind exactly when its target was barred, ended before its id was
  recorded, or ended when the source was no longer cached; otherwise the source is sure to be free
  once nobody is transferring it (`ImTransfer.FreeExactlyWhenOrderly`). A late record can block all
  later transfers (`ImTransfer.LateRecordWedges`, `ImTransfer.WedgedForever`).
- The wait group counts cached attempts exactly if every creation found a free id and room in the
  cache; after a loss it never returns to zero (`AttemptLifecycle.WaitGroupLaw`,
  `AttemptLifecycle.LossHappens`).
- A draft of an attempt whose queue does not autosave is not persisted on timeout, and neither is
  the timeout result (`QueueManager.Manager.TimeoutLeavingMember`,
  `QueueManager.DraftWithoutAutosave`).
- A leg stays undischarged at the end of an offering run exactly when its bridge mark was reset
  between the inner loop and the end (`OfferingProtocol.SettledAtTheEnd`, `OfferingProtocol.ResetHappens`).
- The branch of `queue/call_inbound.go:90-105` that clears an agent's leg when the member hangs up
  in the outer loop is never taken: no leg is open there.
- The first agent is never lost if and only if the commit comes last of the three preparing steps.
  The predictive queue keeps that order; the inbound and message queues commit first
  (`AgentRouting.OrdersOfTheQueues`).
- The comment at `chat/conversation.go:23-26` says the wait is paid at most once per conversation.
  It is paid at most once per pushing goroutine, and at most once in all if and only if there is no
  second one (`StateHandoff.OncePerConversation`).
- A ringing event after a leg was accepted, with a late first progress event, lets the ring timer
  hang up the accepted leg (`CallLeg.LateRingingHangsUp`); the exact condition is
  `CallLeg.TimeoutHangsUp`.
- After a hangup nothing but a bridge reset and hangup requests happens to a leg if and only if
  every setter that found it earlier is harmless (`CallLeg.FrozenExactly`); others do exist
  (`CallLeg.LateSetterWrites`), but none changes the hangup record (`CallLeg.HungUpOnce`).

## Model

| member | source | states |
|---|---|---|
| `LruRefinement.AnswersLikeReference` | utils/lru.go:61-178 | after any run from an empty cache, each call answers (and evicts) like a cache that really empties itself on a purge, if and only if it is not a `RemoveFunc` that matches a purged entry |
| `LruRefinement.FindsPurgedHappens` | model/lru.go:142-163 | the exception is reachable: add, purge, remove by predicate |
| `LruRefinement.StepTracks` | utils/lru.go:77-178 | one call keeps the live contents and their order of age equal to the reference, with the exact condition for equal answers |
| `LruRefinement.RemoveFuncTracks` | model/lru.go:142-163 | `RemoveFunc` keeps the live contents equal; its answer differs exactly on a purged match |
| `LruRefinement.RunTracks` | utils/lru.go:61-178 | the same over whole runs from any sound state |
| `LruRefinement.KeysAgree` | utils/lru.go:138-153 | `Keys` lists exactly the live keys from the oldest to the youngest |
| `LruRefinement.ReachableSound` | utils/lru.go:61-107 | in every reachable state live entries are a prefix of the list, generations never rise towards the back, no key occurs twice, `len` counts the live entries and the list fits the size |
| `LruRefinement.EvictsPurgedFirst` | utils/lru.go:97-106 | no live entry is evicted while a purged one is in the list, and a live entry that is evicted was touched longest ago |
| `LruRefinement.RecentKeyIsFound` | utils/lru.go:77-126 | a key added or hit is found, with the value last added under it, if no call since removed or purged it, it has not expired, and fewer than `size` other keys were added or hit since; presence is not assumed anywhere |
| `LruRefinement.RecentKeyStays` | utils/lru.go:77-126 | the same of the reference cache, from any state |
| `LruReference.SparedKeyStays` | utils/lru.go:77-126 | in the reference, a key touched last stays, with the value and deadline its additions give it, while the keys touched since fit beside it |
| `LruLaws.AddedIsFound` | utils/lru.go:77-126 | after any calls, an added entry is found with its value until `ttl` seconds have passed since, and for ever without a ttl |
| `LruLaws.RemovedIsGone` | utils/lru.go:109-136 | a removed entry, or one looked up in vain, is not found afterwards |
| `LruLaws.PurgedIsEmpty` | utils/lru.go:61-67 | after a purge nothing is found, and there are no keys |
| `LruLaws.HitStays` | utils/lru.go:109-126 | a lookup does not change what the next one finds |
| `LruLaws.RemovedIfMatched` | model/lru.go:142-163 | a found entry is removed by predicate, and the answer is true, exactly if it matches |
| `LruLaws.OthersStay` | utils/lru.go:77-136 | a call about one key changes what is found under another only by pushing it out, and then says so |
| `LruLaws.EvictsOnlyWhenFull` | utils/lru.go:97-106 | an entry is pushed out exactly when a new key is added to a full cache |
| `LruLaws.KeysAreFound` | utils/lru.go:138-160 | the keys are exactly those that can be found before any deadline, and their number is `Len` |
| `LruGeneration.StepSound` | utils/lru.go:61-178 | every call keeps the shape of the cache |
| `EvictList.List.PushFront` | utils/lru.go:97-101 | the linked list gains the element at the front; all links stay consistent |
| `EvictList.List.Remove` | utils/lru.go:171-178 | unlinks exactly the given element |
| `EvictList.List.MoveToFront` | utils/lru.go:85-95 | moves the given element to the front and keeps the order of the others |
| `EvictList.List.Back` | utils/lru.go:103-105 | the last element, or null of an empty list |
| `LruCache.Cache.constructor` | utils/lru.go:44-59 | an empty cache |
| `LruCache.Cache.Purge` | utils/lru.go:61-67 | the object moves as its value: the counter is reset and the generation raised |
| `LruCache.Cache.AddWithExpiresInSecs` | utils/lru.go:77-107 | the object moves as its value: refresh in place, or insert and evict the back over size |
| `LruCache.Cache.Get` | utils/lru.go:109-126 | the object moves and answers as its value: a hit is promoted, an expired or purged entry is unlinked |
| `LruCache.Cache.Remove` | utils/lru.go:128-136 | the object moves as its value |
| `LruCache.Cache.RemoveFunc` | model/lru.go:142-163 | the object moves and answers as its value |
| `LruCache.Cache.Keys` | utils/lru.go:138-153 | the array of length `len` is filled exactly, with no write out of range, with the live keys from the back |
| `LruCache.Cache.Len` | utils/lru.go:156-160 | the number of live entries |
| `LruCache.Cache.RemoveElement` | utils/lru.go:171-178 | unlinks from list and index, and counts down only a live entry |
| `ImTransfer.StepInv` | queue/attempt.go:669-721 | each locked section keeps: one owner per source, who is a reserving call or a live target, and the channel closed as often as its flag says |
| `ImTransfer.NeverTwoTargets` | queue/queue_manager.go:1063-1171 | under every interleaving a source never has two live targets, nor a target beside a reservation, and its channel closes at most once |
| `ImTransfer.TransferredIsFinal` | queue/attempt.go:669-679 | after completion no call ever holds a reservation of the source again |
| `ImTransfer.TransferredExactly` | queue/queue_manager.go:1141-1161 | on every run from an attempt's creation it is transferred, and its channel closed once, if and only if a live target completed while it was cached; from then on no call holds a reservation of it |
| `ImTransfer.StepTransferred` | queue/attempt.go:703-712 | exactly the completion by a live target that finds the attempt makes it transferred, lowers the pending flag and leaves the recorded target |
| `ImTransfer.ReservedExactly` | queue/attempt.go:669-679 | a call gets the reservation exactly when nothing is pending and the attempt was not transferred, and is over otherwise |
| `ImTransfer.StepTruthful` | queue/queue_manager.go:1095-1171 | each step keeps the fields truthful (a recorded target is live, a pending flag has an owner, every live target is recorded or about to be) if and only if it bars no target and ends none unrecorded or uncached |
| `ImTransfer.QuietMeansFree` | queue/queue_manager.go:1095-1109 | from the creation of an attempt on, by itself or as the target of a transfer: when its targets are recorded in time, none is barred and it stays cached, it is free whenever no call about it is in flight and no target is live, so a failed transfer never blocks the next |
| `ImTransfer.FreeExactlyWhenOrderly` | queue/queue_manager.go:1063-1171 | on every run from an attempt's creation, by itself or as the target of a transfer: at each point the attempt is sure to be free once nobody is transferring it, if and only if every step about it was orderly |
| `ImTransfer.HasBirth` | queue/queue_manager.go:1115-1139 | every attempt of every run has such a creation |
| `ImTransfer.Strand` | queue/attempt.go:669-694 | after a disorderly step some orderly continuation leaves the attempt neither free nor being transferred |
| `ImTransfer.FirstTransferLeavesStale` | queue/queue_manager.go:1103-1109 | a run in which the target ends before its id is recorded, and its id stays behind |
| `ImTransfer.LateRecordWedges` | queue/queue_manager.go:1103-1109 | after it, one failed transfer leaves a pending flag nobody owns |
| `ImTransfer.WedgedForever` | queue/attempt.go:669-694 | a pending flag without owner is never cleared and no call reserves the source again |
| `Attempts.Attempt.SetCancel` | queue/attempt.go:649-657 | the cancel channel is closed exactly once however often it is called |
| `Attempts.Attempt.UseDraft` | queue/attempt.go:149-153 | keeps the latest draft |
| `Attempts.Attempt.DropDraftResult` | queue/attempt.go:155-163 | no draft is left |
| `Attempts.Attempt.ReserveIMTransfer` | queue/attempt.go:669-679 | succeeds exactly when nothing is pending and the attempt was not transferred |
| `Attempts.Attempt.SetIMTransferTo` | queue/attempt.go:681-685 | records the target |
| `Attempts.Attempt.ReleaseIMTransfer` | queue/attempt.go:687-694 | clears the fields only for the recorded target |
| `Attempts.Attempt.CompleteIMTransfer` | queue/attempt.go:703-712 | closes the channel once and lowers the pending flag; the recorded target is left alone |
| `AttemptLifecycle.StepBalanced` | queue/queue_manager.go:176-182 | each creation, leave or lookup keeps the balance of wait group and cache |
| `AttemptLifecycle.WaitGroupLaw` | queue/queue_manager.go:1281-1322 | on every run the wait group holds the cached and the lost attempts, is never negative, equals the cached ones if and only if every creation was absorbed, and never returns to zero after a loss |
| `AttemptLifecycle.LossHappens` | utils/lru.go:97-106 | a run that loses an attempt: two creations in a cache for one, after which the wait group never returns to zero |
| `AttemptLifecycle.FindableUntilLeft` | queue/queue_manager.go:1281-1322 | while creations are absorbed, the cache holds exactly the attempts created and not yet left, each under its id, and the wait group is their number |
| `AttemptLifecycle.LeaveTwice` | queue/queue_manager.go:1295-1298 | a second leave changes neither cache nor wait group |
| `AttemptLifecycle.LeaveInTwo` | queue/queue_manager.go:1295-1322 | a leave is a lookup followed, if it hits, by a removal |
| `QueueManager.Manager.GetAttempt` | queue/queue_manager.go:1366-1372 | finds exactly the cached attempts |
| `QueueManager.Manager.CreateAttempt` | queue/queue_manager.go:176-182 | one attempt more in cache and wait group, new and without a draft |
| `QueueManager.Manager.CreateAttemptIfNotExists` | queue/queue_manager.go:156-174 | panics (None) exactly on an id that is cached, and so never overwrites one |
| `QueueManager.Manager.LeavingMember` | queue/queue_manager.go:1281-1322 | a cached attempt leaves once; its draft is persisted exactly in an autosave queue; a result is always set |
| `QueueManager.Manager.TimeoutLeavingMember` | queue/queue_manager.go:1225-1279 | what is written, whether the attempt leaves and what its result becomes, in every case of answer, draft, autosave and failed write; with successful writes exactly one schema result, the schema's answer, else the draft, else the timeout result, if and only if no unsaved draft is in the way |
| `QueueManager.Manager.ReportingAttempt` | queue/queue_manager.go:1602-1672 | the attempt cached under the id, and only it, is changed: a draft is kept on it and writes nothing; a final report discards drafts, is written once with the schema's status or its own, and ends the attempt; after a failure the attempt stays; without a cached attempt the report is still written |
| `QueueManager.DraftThenTimeout` | queue/queue_manager.go:1225-1322 | a draft and then the timeout of a cached attempt in an autosave queue persist exactly one schema result, the schema's answer or else that draft, and the attempt has left |
| `QueueManager.DraftWithoutAutosave` | queue/queue_manager.go:1255-1317 | in a queue without autosave the same two calls persist nothing |
| `QueueManager.DraftThenReport` | queue/queue_manager.go:1634-1650 | a draft and then a final report persist the report alone |
| `QueueManager.LifeOfADraft` | queue/queue_manager.go:176-182 | from a new manager: create, draft and timeout leave one result and an empty wait group |
| `OfferingProtocol.StepMatches` | queue/call_inbound.go:80-304 | every step of the protocol starts a leg only when none is open and discharges only the open one |
| `OfferingProtocol.LegsDischargedOnce` | queue/call_predict.go:349-553 | in every run of either loop, cut anywhere, no leg is started or discharged twice and only the open one is undischarged |
| `OfferingProtocol.NoLegWhileWaiting` | queue/call_inbound.go:80-106 | whenever the outer loop selects, every started leg has been discharged |
| `OfferingProtocol.EndsOnce` | queue/call_inbound.go:300-304 | forward, report, schema result and abandonment exclude each other, and nothing follows them |
| `OfferingProtocol.SettledAtTheEnd` | queue/call_inbound.go:275-304 | an ended run has exactly one ending, and has discharged every leg exactly once if and only if no bridge mark was reset |
| `OfferingProtocol.ResetHappens` | queue/call_predict.go:521-553 | in both loops a run whose bridge mark is reset, which ends and leaves its leg undischarged |
| `OfferingProtocol.StoppedSettled` | queue/call_predict.go:373-380 | a run that stops on a store or team error has no ending and no undischarged leg |
| `OfferingProtocol.LeftAfterReset` | queue/call_predict.go:505-553 | a leg is left behind exactly after its mark was found reset |
| `OfferingProtocol.DischargedToItsAgent` | queue/call_predict.go:453-471 | a leg is missed, put back, passed on or reported for the agent it was started for, also across transfers |
| `OfferingCauses.EveryEntryHasItsCause` | queue/call_predict.go:349-553 | in every run of either loop each entry has its cause right before it, and a run may go on with an entry exactly if it has |
| `OfferingCauses.DueExactly` | queue/call_inbound.go:80-304 | the protocol asks for an entry if and only if its cause came last and it is about the open leg |
| `OfferingCauses.MissedExactly` | queue/call_inbound.go:275-280 | a leg is missed after it was found unbridged with a cause that counts as missed, and put back after one that does not |
| `OfferingCauses.StartedForRouted` | queue/call_inbound.go:115-158 | a new leg is for the agent just routed |
| `OfferingCauses.StartedForTransfer` | queue/call_predict.go:453-471 | a leg that takes over is for the agent it was transferred to if that was saved, and else for the same agent |
| `OfferingCauses.AboutTheOpenLeg` | queue/call_inbound.go:162-273 | every entry about a leg is about the one started and not discharged, and names the agent it was started for |
| `InboundQueue.Run` | queue/call_inbound.go:51-319 | for every environment the run conforms to the protocol and ends with an ending, a store error with every leg discharged, or a select that is not answered |
| `InboundQueue.HandleAgent` | queue/call_inbound.go:115-292 | one routed agent: offered, discharged or kept, and the decision to wait again |
| `InboundQueue.Offer` | queue/call_inbound.go:162-273 | the inner loop conforms until a leg is hung up, the member is forwarded, or a select is not answered |
| `InboundQueue.HandleInner` | queue/call_inbound.go:164-271 | each event of the inner loop |
| `InboundQueue.MemberHungUp` | queue/call_inbound.go:246-270 | forward, replacement by the transferred call, or hangup of the agent's leg |
| `InboundQueue.Replaced` | queue/call.go:319-338 | the call the member was transferred from takes its place if the transfer was attended or is being processed and the call is found |
| `InboundQueue.Accepted` | queue/call_inbound.go:173-204 | the legs are bridged, or the agent's leg has lost the race and is hung up if it is up |
| `InboundQueue.TakenOver` | queue/call_inbound.go:213-236 | the leg it was transferred to takes the place of the agent's leg, with the new agent if that was saved |
| `InboundQueue.AfterOffer` | queue/call_inbound.go:275-292 | an unbridged leg is missed or put back, and the run waits only if the member does and no agent is held |
| `InboundQueue.Conclude` | queue/call_inbound.go:300-304 | one ending for every way out of the loop |
| `PredictOffering.RunOfferingAgents` | queue/call_predict.go:316-558 | for every environment the run conforms to the predictive protocol and ends with an ending, a store or team error with every leg discharged, or a select that is not answered |
| `PredictOffering.WaitForAgent` | queue/call_predict.go:349-524 | one pass of the outer loop |
| `PredictOffering.OfferToAgent` | queue/call_predict.go:373-523 | one routed agent; without its team the run stops |
| `PredictOffering.HandlePredict` | queue/call_predict.go:415-496 | each event of the inner loop |
| `PredictOffering.ConcludePredict` | queue/call_predict.go:540-553 | report, or the reserved agent is given up and the schema decides |
| `PredictDialing.AtMostTenCalls` | queue/call_predict.go:268-303 | no run places more than ten calls |
| `DialingCauses.TenCallsHappen` | queue/call_predict.go:268-303 | a run that places ten, and then abandons although a retry was asked for |
| `DialingCauses.EveryEntryHasItsCause` | queue/call_predict.go:87-314 | in every run each entry has its cause among the entries before it (verdicts, the number of flips and of failed flips, the resource and permission of the last flip), and a run may go on with an entry exactly if it has |
| `PredictDialing.SkipsEveryDialled` | queue/call_predict.go:269-270 | at every flip the skip list names exactly the resources dialled so far |
| `PredictDialing.NoResourceTwice` | queue/call_predict.go:268-303 | if flips honour the skip list, no resource is dialled twice |
| `PredictDialing.NoBusyRun` | queue/call_predict.go:100-314 | all but 52 steps of any run are selects and their hangups: the backward jumps end |
| `PredictDialing.OneEnding` | queue/call_predict.go:176-314 | a finished run handed over or left, once, and left with exactly one outcome unless the schema refused it at first |
| `PredictDialing.RunPark` | queue/call_predict.go:87-314 | for every environment the run conforms to the dialling protocol; a hand-over is a conforming offering run |
| `PredictDialing.PlaceCall` | queue/call_predict.go:183-232 | takes the resource and dials it, or abandons |
| `PredictDialing.Await` | queue/call_predict.go:236-260 | selects until the call is answered by a person or hung up |
| `PredictDialing.Judge` | queue/call_predict.go:263-314 | the verdict, the flip and the one further verdict after a failed flip; a retry raises the counter |
| `AgentRouting.FirstAgentNeedsCommitLast` | queue/attempt.go:335-344 | over all interleavings with the dispatcher, the first agent reaches every run that has not ended if and only if the commit is the last preparing step |
| `AgentRouting.DeliveredExactly` | queue/attempt.go:335-350 | with the commit last, the agent is delivered to every run that has not ended exactly when the dispatcher has taken its last step, and the next of its steps is always possible |
| `AgentRouting.OrdersOfTheQueues` | queue/call_predict.go:328-349 | the predictive order is safe; the inbound and message orders are not |
| `AgentRouting.RunReady` | queue/dialing.go:164-190 | once the attempt is visible in the store it is subscribed and waiting, or has ended |
| `ImSession.Session.SetBotActive` | im/session.go:83-95 | control given back resets all three clocks |
| `ImSession.Session.OnMessage` | im/session.go:138-150 | a message moves the thread's clock and that of its side |
| `ImSession.Session.GivePreviewUser` | im/session.go:185-206 | a duration out of range never reaches the gateway; only a grant sets the preview |
| `ImSession.Session.RemovePreviewUser` | im/session.go:209-234 | the preview is gone whatever the gateway answers |
| `ImSession.Session.UpgradePreviewUser` | im/session.go:238-260 | success joins the user and ends the preview; failure keeps it |
| `ImSession.Session.AddMemberUser` | im/session.go:287-324 | success joins the user; a preview is neither needed nor ended |
| `ImSession.Session.MarkUserJoined` | im/session.go:273-277 | the user counts as joined and the gateway is not called |
| `ImSession.ClocksTell` | im/session.go:83-182 | the clocks are exactly the times of each side's last word in the history |
| `ImSession.SessionTells` | im/session.go:83-150 | who is who, who has control and when each side last spoke, as the history gives it |
| `ImSession.AgentTimeoutExactly` | queue/im_inbound.go:458-505 | an agent timeout happens if and only if, in the history alone, the bot is not in control, the operator has spoken and every word of the operator is as old as the limit (with last_message_timeout: every word of anyone is, and the operator has been silent longer than the member) |
| `ImSession.ClientTimeoutExactly` | queue/im_inbound.go:476-519 | the same for the client, when the agent has not timed out |
| `ImSession.NoTimeoutUnderBot` | queue/im_inbound.go:467-481 | no agent or client timeout while the bot has control, nor before the full limit after any release |
| `ImSession.DialogTimeoutUnderBot` | queue/im_inbound.go:483-488 | the dialog timeout does fire under the bot, exactly after the silence of its limit |
| `ImSession.DialogTimeoutExactly` | queue/im_inbound.go:483-488 | a dialog timeout happens, whoever has control, if and only if the thread has been silent for the limit and neither side has timed out |
| `ImSession.GoesOnExactly` | queue/im_inbound.go:458-491 | the attempt goes on if and only if it is bridged and none of the three has timed out; one that was not bridged ends without a reason |
| `ImProtocol.StepMatches` | queue/im_inbound.go:203-436 | every step keeps: an active preview is that of the agent being offered the thread |
| `ImProtocol.NoPreviewWhileWaiting` | queue/im_inbound.go:203-290 | whenever the run waits for an agent, every preview granted has been upgraded or revoked |
| `ImProtocol.AllClosedAtTheEnd` | queue/im_inbound.go:531-576 | the same at the end of a run and its cleanup, and when it stops on an error |
| `ImProtocol.OnePreviewAtATime` | queue/im_inbound.go:341-352 | no two users have a preview at the same time, and none has two |
| `ImProtocol.PreviewOutlivesInvite` | queue/im_inbound.go:33-40 | an invite lives as long as the team says, but at most an hour; its preview is asked for exactly if that is not zero, for five seconds more, but at most an hour |
| `ImProtocol.CountPreviews` | queue/im_inbound.go:370-436 | for every user, previews granted and closed differ exactly by the one that is active |
| `ImCauses.EveryEntryHasItsCause` | queue/im_inbound.go:203-576 | in every run each entry has its cause in the entries before it (the agent routed last, the agent the attempt holds, the member and the preview of the thread), and a run may go on with an entry exactly if it has |
| `ImCauses.LedgerTells` | queue/im_inbound.go:222-240 | who is worked with, held by the attempt, a member or previewing, as the entries give it |
| `ImQueue.Run` | queue/im_inbound.go:165-290 | for every environment the run with its cleanup, driving the session object, conforms to the protocol; the preview calls it made are exactly those logged, and when it is over every preview is closed and the session holds none |
| `ImQueue.HandleAgent` | queue/im_inbound.go:222-281 | one routed agent: skipped, missed for want of a preview, or offered |
| `ImQueue.GivePreview` | queue/im_inbound.go:370-389 | no preview without an invite lifetime; otherwise one of the clamped length |
| `ImQueue.HandleInner` | queue/im_inbound.go:306-365 | each event of the interaction |
| `ImQueue.Bridge` | queue/im_inbound.go:322-339 | the agent joins, or loses its preview and is missed |
| `ImQueue.Closed` | queue/im_inbound.go:341-354 | a declined agent loses its preview and is missed; otherwise the run is over |
| `ImQueue.JoinAgent` | queue/im_inbound.go:408-422 | by transfer, already joined, by upgrade, or by adding |
| `ImQueue.TransferAgent` | queue/im_inbound.go:426-436 | the preview is revoked before the transfer, and the source is completed after it |
| `ImQueue.RemovePreview` | queue/im_inbound.go:393-404 | revokes the active preview, if any |
| `ImQueue.FinalizeAttempt` | queue/im_inbound.go:531-576 | one outcome and then the cleanup |
| `CallLeg.Call.Invite` | call_manager/call.go:435-446 | the leg is cached, and invited if it is outbound; a new leg is valid from then on |
| `CallLeg.Call.SetRinging` | call_manager/call.go:275-291 | the first ringing event starts the ring timer; a leg found in the cache stays valid |
| `CallLeg.Call.SetProgress` | call_manager/call.go:293-304 | the first progress event restarts an existing timer; a leg found in the cache stays valid |
| `CallLeg.Call.SetActive` | call_manager/call.go:306-321 | the first active event is accepted and stops the timer; a leg found in the cache stays valid |
| `CallLeg.Call.SetBridge` | call_manager/call.go:323-335 | records the bridge and stops the timer; a leg found in the cache stays valid |
| `CallLeg.Call.SetHangup` | call_manager/call.go:377-412 | the first hangup is recorded with all its data and closes the channel, for the one and only time; later ones change nothing; WaitForHangup can return |
| `CallLeg.Call.HandleAction` | call_manager/call_events.go:8-64 | an event reaches the leg only through the cache, keeps it valid, and changes nothing of a hung up leg |
| `CallLeg.Call.AskToHangup` | call_manager/call.go:681-710 | asks the gateway, and records the hangup itself if that fails and no cause is known; a hung up leg only gains a request |
| `CallLeg.Call.RingTimeout` | call_manager/call.go:280-286 | a running timer fires once, hangs up a leg below the accept state, and changes nothing of any other or of a hung up one |
| `CallHistory.LegIsItsStory` | call_manager/call.go:275-412 | after every run, every field of an invited leg is what its history gives: the first hangup with all its data, the times and the state of the events received, the bridge, the requests, and whether the ring timer runs |
| `CallLeg.RequestRecords` | call_manager/call.go:690-709 | a request asks the gateway, for a normal clearing by default; the leg is hung up afterwards if and only if it was before or the gateway failed, and then with the cause asked for |
| `CallLeg.RequestAddsSetter` | call_manager/call.go:697-707 | in the interleaved model a failed request without a record leaves a setter for that hangup, and one that was reached leaves none |
| `CallLeg.SetterRecords` | call_manager/call.go:377-412 | once a hangup setter has had the lock there is a record, its own if there was none |
| `CallLeg.CancelledBeforeInvite` | call_manager/call.go:681-688 | a leg told to hang up before its invitation closes its channel, keeps the cause and asks nothing of the gateway |
| `CallLeg.Drive` | call_manager/call_events.go:8-64 | any run of atomic steps done to the object: it moves as the value does, stays valid, and stays frozen once hung up |
| `CallLeg.HungUpOnce` | call_manager/call.go:377-412 | under any interleaving of the stages of all setters: the hangup is recorded once, with its time, transfers and reporting time, and never changes, the channel closes exactly once with it, and WaitForHangup can return exactly from then on |
| `CallLeg.InvitedHungUpOnce` | call_manager/call.go:435-463 | the same for every run from the invitation of a leg on |
| `CallLeg.StepConsistent` | call_manager/call.go:275-412 | each stage of each setter keeps that |
| `CallLeg.FrozenAfterHangup` | call_manager/call_events.go:8-64 | with lookup and setter as one step, nothing but a bridge reset and hangup requests happens to a hung up leg |
| `CallLeg.FrozenExactly` | call_manager/call_events.go:8-64 | in the interleaved model nothing changes a fully hung up leg, whatever is let run, if and only if every setter on its way is harmless: a second hangup, a pending write of the hangup state, an ignored active event, or a progress event with nothing to record |
| `CallLeg.AtomicIsInterleaved` | call_manager/call_events.go:8-64 | each atomic step is its interleaved step followed by every stage of the setter it left |
| `CallLeg.LateSetterWrites` | call_manager/call_events.go:8-64 | a run of lookups after which a late setter changes state and timer of a hung up leg |
| `CallLeg.TimeoutHangsUp` | call_manager/call.go:275-335 | the ring timer hangs up exactly while it runs and the events received end in ringing |
| `CallLeg.RingTimeoutSparesAnswered` | call_manager/call.go:275-335 | with no ringing after the first active or bridge event, it never touches an accepted or bridged leg |
| `CallLeg.LateRingingHangsUp` | call_manager/call.go:293-304 | a late progress event restarts the timer harmlessly, but after a late ringing event it hangs up an accepted leg |
| `StateHandoff.StepOrderly` | chat/conversation.go:266-291 | each step keeps the order of each producer in the channel |
| `StateHandoff.DeliveredInOrder` | chat/conversation.go:266-291 | the reader gets, from each producer, states it pushed, in order and none twice |
| `StateHandoff.FiftyFit` | chat/conversation.go:266-271 | a push is sent at once exactly if fewer than fifty states are unread, and there are never more than fifty |
| `StateHandoff.NoStateLostOrDoubled` | chat/conversation.go:266-291 | every pushed state is in exactly one place, once: entered, dropped, or in its producer's hand; a state not pushed is nowhere |
| `StateHandoff.OneExpiredWaitEach` | chat/conversation.go:273-290 | nothing is dropped before a wait expired; each producer has at most one expired wait and never waits after it |
| `StateHandoff.NeverWaitsAgain` | chat/conversation.go:273-278 | once the flag is set and nobody waits, no push ever waits again |
| `StateHandoff.SecondWaitHappens` | chat/conversation.go:280-290 | any two producers or more can pay two waits |
| `StateHandoff.OncePerConversation` | chat/conversation.go:261-291 | over all runs at most one wait per producer expires, and at most one in all if and only if there is no second producer |

## Left out

- Integers are unbounded: overflow of timestamps, of the cache generation and of ids is not modelled.
- The cache stores an entry pointer in each list element; the model merges the two into one element. The copy of the cache in `model/lru.go` is the same code plus `RemoveFunc` and is not modelled twice.
- Locks are atomic steps; only the sections named in the modules are interleaved. `LeavingMember` is one step, as its interior gives no guarantee under concurrent leaves.
- The store, the message broker, the flow service and the gateways are arbitrary replies; the emitter is assumed to deliver to current listeners.
- InboundQueue.Run: reads `processTransfer`, the attempt's state and the legs' marks as replies of the environment; call variables, greetings, tones and hold music are not logged.
- PredictOffering.RunOfferingAgents: the same.
- PredictDialing.RunPark: takes a flip that names a resource as one that can be loaded; the sleep before a retry is not modelled.
- AgentRouting.FirstAgentNeedsCommitLast: assumes that the dispatcher's queue lookup succeeds.
- ImQueue.Run: takes the agent read after a routing event to be the routed one, and the task's channel as arbitrary events; agent notifications, the release of the source (modelled in `ImTransfer`) and the removal of the member at cleanup are not logged.
- QueueManager.Manager.ReportingAttempt: does not model channel reporting, the closing of the channel before a report, wrap-up events and processing forms.
- CallLeg.Call.AskToHangup: on a leg that was never invited cancels it and closes the channel (`CallLeg.CancelledBeforeInvite`); what happens to such a leg later is not modelled.
- The channel hand-off and the transfer protocol are step relations over values rather than objects updated in place, because their point is the interleaving of goroutines; the runs keep their local variables in one value that is passed on, and nothing in them is aliased. The stop of the manager, which waits for the wait group at most ten seconds, is not modelled.
- The capacity of a leg's state channel, durations, AMD settings, the SIP and variable strings, and the agent side (status, breaks, teams' settings) would only add easy members.
- "Missed exactly once" is not claimed for message agents, as the run keeps its local agent when it waits again.
- Queue types other than inbound call, predictive call and message, the trigger and statistics loops, and configuration.
