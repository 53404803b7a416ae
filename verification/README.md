# S4BXI verification model

S4BXI simulates the Portals 4 network API on BXI hardware. This project models three of its cores in Dafny and
proves what they keep, over every run and every input:

* **The reliable NIC protocol** (`Wire`, `Queues`, `FlowControl`, `Nic`, and the `Nic*` modules). The whole
  simulated machine is one `State`; every turn of an actor - the user posting a command, the initiator taking a
  message from a transmit queue, the target handling a message in flight, the E2E actor dealing with an expired
  timer, an appended entry taking an unexpected header - is one step. The network is a bag: any message in flight
  may arrive next. A run is any sequence of steps. Panics and uses of freed objects show up as a fault of the
  state, so "unreachable" is a statement about runs. `NicObjects` holds the same code as objects with mutable
  fields, each method proved against the function of the step system it stands for.
* **The Portals matching engine** (`Portals*`): one portal table entry with its priority list, overflow list and
  unexpected headers, under any interleaving of appends, arrivals, unlinks, enables, and unlinks that fall into the
  window in which a handler uses an entry. `PortalsObjects` holds BxiME and BxiPT as classes.
* **The shared-allocation arithmetic** (`Align`, `SharedMapping`, `PrivateBlocks`): mask alignment, the ranges
  mapped for each shared block, the complement, the ordered-map lookup, framing in wrapping arithmetic, and the
  intersection of interval lists.

Two smaller pieces go with them: the E2E timer (`E2eTimer`) and the counters (`Counter`).

`dafny verify dfyconfig.toml` checks everything.

## What holds, and where it stops holding

Some promises of the program hold only under a condition. The condition is part of the statement, and where it can
be had it is an exact one:

* With E2E on, credits are conserved and no run aborts in exactly those runs in which two kinds of handler call never
  happen: a reply is handled for a request that is past RECEIVED already, or an E2E ACK of a request message is handled
  for a request that is ANSWERED. In both, a credit is released although the state of the request says that it was
  given back (`NicExactRuns.ConservesExactly`; the guards are at BxiNicTarget.cpp:408 and :499). Both kinds occur
  (`NicLimits.RepeatedReplyPanics`, `NicLimits.LateAckPanics`), and a request whose credit is given back twice always
  breaks conservation (`NicExactRuns.SettledTwiceBreaks`).
* What a caller can do to stay on that side is a clean run: no request is answered a second time while an answer to it
  is under way, and only requests are retransmitted. Requests need not find an entry. Both conditions are needed: for
  each there is a concrete run that meets the other one, conserves its credits up to its last step, and then aborts
  (`NicLimits.SecondAnswerPanics`, `NicLimits.RepeatedReplyPanics`).
* A conserved credit can still be lost: a clean run that has gone quiet has full counters exactly if no request was
  given up unanswered (`NicCreditRuns.QuietMeansFull`).
* No step uses a deleted message or request. What an initiator reads of a message some time after handing it to the
  network is safe until the E2E actor of its node wakes up; with E2E off it is safe only as long as the message is in
  flight, a pending header or answered by a live ACK (`NicLaunch`).
* Quick-ACK mode raises the same initiator events as the full exchange exactly when the request gets a Portals ACK
  or has no further event to raise (`NicQuickAck.QuickAckAgrees`). Otherwise quick mode raises events the full
  exchange does not; the credits agree in any case. Over whole clean runs, with retransmissions and any other
  traffic, an acknowledged request tells its initiator the same in both modes (`NicAckRuns.QuickAcksRefine`).
* What a request shows at both ends is proved event by event for every run, with E2E on or off (`NicStories`), and what
  each turn of an actor moves, sends and decides for every reachable state (`NicTurns`).
* Locally managed entries tile their memory, and auto-unlink tests the free space, exactly as long as no 64-bit sum
  wraps.
* Each alignment macro rounds every number exactly for powers of two; the program only checks for a multiple of the
  page size.
* A shared block at the very end of an allocation, smaller than a page and in the first page of an aligned block,
  makes the program map bytes before the block (`SharedMapping.MappedInside`). The last, partial page of an allocation
  is mapped exactly if its block holds an aligned edge, or in that case (`SharedMapping.MappedExactly`).
* Framing private blocks is exact precisely if no block straddles the start of the buffer: such a block is dropped.
* Counter waiters are found by equality, so an increment that jumps over a threshold leaves its waiter asleep;
  `Counter.SafeUpdates` says which updates are safe whoever waits.
* The E2E actor's panics are out of reach exactly when the configured timeout and retry limit are not negative.

## Model

| member | source | states |
|---|---|---|
| NicRefRuns.ReferenceCountsExact | src/s4ptl/BxiMsg.cpp:23-82 | in every run, a message's reference count is the number of its own queues, network slots, E2E slots, header lists and answer links holding it, no other queue holds it, and no place holds a deleted message; a request's count is the number of its live messages; no request is deleted twice |
| NicRefRuns.NoUseAfterFree | src/s4ptl/BxiMsg.cpp:55-82 | no step of any run touches a deleted message or request, and the recursive destructor always ends |
| NicLaunch.ReadableExactly | src/actors/BxiNicInitiator.cpp:128-143 | in every run, a message that was handed to the network can still be read, with its request, exactly while the network, a header list, an E2E queue or the answer link of a live message refers to it |
| NicLaunch.ReadableUntilTimeout | src/actors/BxiNicInitiator.cpp:128-204 | with E2E on, a message other than an E2E ACK stays readable after it left, whatever other actors do, until the E2E actor of its node takes a message |
| NicLaunch.ReadableWithoutE2e | src/actors/BxiNicInitiator.cpp:128-204 | with E2E off, exactly while it is in flight, a pending header, or answered by a live message |
| NicLimits.ReadAfterFree | src/actors/BxiNicInitiator.cpp:128-143 | a run with E2E off in which a Put is handled and deleted while its initiator has yet to read it |
| NicRefs.UnrefExact | src/s4ptl/BxiMsg.cpp:55-82 | giving back one reference, with the whole chain of destructors, keeps every count exact and causes no fault |
| NicRefs.UnrefShrinks | src/s4ptl/BxiMsg.cpp:55-82 | destructors only remove messages no place holds, and change nothing else |
| NicRefs.SpawnExact | src/s4ptl/BxiMsg.cpp:23-47 | constructing a message counts itself once, its request once more, and the message it answers once |
| NicRefRuns.DispatchExact | src/actors/BxiNicE2E.cpp:133-139 | a message handed to the network and watched by E2E has one reference for each |
| NicRefRuns.RetransmitTaken | src/actors/BxiNicE2E.cpp:96-113 | retransmitting keeps counts exact while the E2E actor still holds the old message |
| NicRefRuns.ApplyExact | src/actors/BxiNicTarget.cpp:91-124 | whatever a handler decides, counts stay exact while it runs |
| NicRefRuns.NextSound | src/actors/BxiNicTarget.cpp:39-83 | every step of every actor keeps counts and parking sound, or aborts for a reason other than memory |
| NicRefRuns.RunSound | src/actors/BxiNicTarget.cpp:39-83 | the same for every run |
| NicRefRuns.ParkingLosesNothing | src/actors/BxiNicInitiator.cpp:47-58 | every message handed to a transmit queue is in exactly one of queue, deque of waiting messages and dispatched set, at home, and in flight at most once |
| NicParking.ParkParks | src/actors/BxiNicInitiator.cpp:54-57 | a refused message is not in the deque yet and waits there once |
| NicParking.ResumeParks | src/BxiNode.cpp:212-218 | resuming moves waiting messages without losing or doubling any |
| NicTypes.E2ePanicsUnreachable | src/actors/BxiNicE2E.cpp:96-118 | in every run no message exceeds the retry limit, so the retry panic is out of reach, and every E2E ACK answers a message |
| NicTypes.ReactionTyped | src/actors/BxiNicTarget.cpp:495-526 | the handler of any well-typed message does not panic and sends back a message that fits its request |
| NicTypes.RunTypes | src/actors/BxiNicTarget.cpp:58-80 | in every run each message agrees in kind and direction with its request |
| NicOnce.AtMostOnce | src/actors/BxiNicTarget.cpp:134-185 | under any retransmission and duplication, for live requests and for the last record of deleted ones: a matched request has touched the target exactly once - one memory update, one counter increment if the entry counts, one header for an overflow entry, one direct event if it raises one - an unmatched one not at all; DIRECT and OVERFLOW event together come at most once, SEND exactly when issued, and at most one of ACK and REPLY |
| NicOnce.PhaseNeverDecreases | src/actors/BxiNicTarget.cpp:408-411 | no step moves a request back to an earlier state, and what a deleted request was last stays |
| NicOnce.SendsOnce | src/s4ptl/BxiRequest.cpp:69-104 | however often it is called, at most one SEND is raised |
| NicOnce.ReactionOnce | src/actors/BxiNicTarget.cpp:212-327 | every handler keeps the once-only story of its request |
| NicOnce.RecordedLog | src/actors/BxiNicTarget.cpp:153-177 | what one match adds to the target's log, event by event, for all kinds of entries |
| NicOnce.RunOnce | src/actors/BxiNicTarget.cpp:39-83 | every run keeps it for all requests, live or deleted, and all pending headers |
| NicStories.InitiatorStory | src/s4ptl/BxiRequest.cpp:54-104 | in every run, E2E on or off, the whole log of the initiator of a request, live or deleted: up to RECEIVED at most SEND, once a message of at most 64 bytes that carries data has left; from then on exactly what one delivered message called for when it settled the request, with that message's outcome: the request message in quick mode, a Portals ACK, a response, or an E2E ACK |
| NicStories.FirstResponseTells | src/actors/BxiNicTarget.cpp:408-454 | in every run a Get or FetchAtomic past RECEIVED shows one REPLY, counter first, with the outcome of the first response that was delivered and the length and offset of its match, or zeros without one; a FetchAtomic of at most 64 bytes shows SEND before it |
| NicStories.TargetStory | src/actors/BxiNicActor.cpp:32-83 | in every run the whole log of the target of a request: nothing before a match; then the header of an overflow entry, the memory update and the counter; then for a priority entry that is not silent one event, at once for Puts and Atomics, for Gets and FetchAtomics exactly when FINISHED (E2E on) or when a response has left (E2E off); for an overflow entry one OVERFLOW event exactly when its header is no longer pending |
| NicStories.RunStories | src/actors/BxiNicTarget.cpp:39-83 | the invariant behind these three, for every run |
| NicTurns.IssueDecides | src/actors/BxiMainActor.cpp:413-439 | with a free command slot a new request begins, takes the slot, and its first message joins the end of one transmit queue; without one the caller waits |
| NicTurns.TransmitDecides | src/actors/BxiNicInitiator.cpp:43-143 | in every run, the head of a transmit queue leaves if it needs no credit or every enabled layer and the semaphore have one; waits at the end of the deque exactly if some layer has none; otherwise nothing moves; what E2E watches and which command slot is freed |
| NicTurns.DeliveryDecides | src/actors/BxiNicTarget.cpp:91-526 | in every run, what the delivery of any message makes of its request (state, match), which message is sent back with which kind, outcome, retry count, size and direction, or none, where it is queued, what becomes an unexpected header, and which waiting messages resume ahead of it |
| NicTurns.TimeoutDecides | src/actors/BxiNicE2E.cpp:81-113 | in every run, an expired message is sent again, as one copy with one more try at the end of the transmit queue it came from, exactly if it has tries left and its request is CREATED or RECEIVED, or for a Portals ACK not FINISHED; otherwise no message is made and no transmit queue changes |
| NicTurns.QueuesByNetwork | src/s4ptl/BxiMsg.cpp:84-97 | in every run, what waits at a port belongs to its node and virtual network: service and compute traffic never meet, nor do requests and answers |
| FlowControl.CheckMovesCredits | src/BxiNode.cpp:93-159 | a granted check takes one credit of each enabled layer from exactly one counter and had one to take; a refusal moves none and found a counter at zero |
| FlowControl.ReleaseMovesCredits | src/BxiNode.cpp:169-210 | a give-back adds one credit to exactly one counter of each layer |
| FlowControl.ReleaseUndoesCheck | src/BxiNode.cpp:149-210 | a give-back on the same key undoes a granted check, semaphore included |
| NicLedger.ChargeBalanced | src/BxiNode.cpp:149-167 | charging keeps free plus open equal to the maximum for every counter of every node |
| NicLedger.ReleaseBalanced | src/BxiNode.cpp:169-210 | giving back an open charge on its own key never panics and keeps that balance |
| NicLedger.BalanceIsPositive | src/BxiNode.cpp:116-141 | with a balanced ledger no check meets a negative counter |
| NicCredits.ReactionAdvances | src/actors/BxiNicTarget.cpp:401-512 | the key lemma: in a clean state all four give-back sites rebuild exactly the key that was charged for the side of the request they settle, whether or not requests find an entry |
| NicCredits.RequestAdvances | src/actors/BxiNicTarget.cpp:101-107 | a delivered request is ignored, answered with one message, or (quick mode) settled on its own key |
| NicCredits.ReplyAdvances | src/actors/BxiNicTarget.cpp:405-406 | a delivered reply gives back the request's key and is answered by an E2E ACK |
| NicCredits.AckAdvances | src/actors/BxiNicTarget.cpp:507-512 | an E2E ACK gives back the key of the message it answers, for both kinds of message |
| NicCharges.ChargedKey | src/BxiNode.cpp:125-131 | check_flowctrl charges the key that the command of the message's request predicts |
| NicCreditRuns.CreditConservation | src/BxiNode.cpp:93-210 | in every clean run nothing aborts, and for every node, virtual network, peer and process pair free plus open credits are the maximum, and the semaphore plus open entries 8192 |
| NicExactRuns.ConservesExactly | src/actors/BxiNicTarget.cpp:398-512 | of all runs with E2E on, exactly those never abort and conserve their credits after every step in which no reply is handled for a request past RECEIVED and no E2E ACK of a request message for a request that is ANSWERED |
| NicExactRuns.StepExact | src/actors/BxiNicTarget.cpp:398-512 | the same for the next step after any run that conserved its credits so far |
| NicCharges.RequestCreditOut | src/BxiNode.cpp:93-210 | in every run, clean or not, the credit of a request, live or deleted, is out under its own key exactly from when its first message leaves until the request is past RECEIVED |
| NicCharges.ReplyCreditOut | src/BxiNode.cpp:93-210 | in every run the credit of each live reply that has left, of however many to one request, is out under its key until the request is FINISHED |
| NicCharges.GivesKey | src/actors/BxiNicTarget.cpp:401-512 | in every run, clean or not, each of the four give-back sites rebuilds exactly the key charged for one message: the first of the request, or the reply that the E2E ACK answers |
| NicExactRuns.GivesOpen | src/actors/BxiNicTarget.cpp:398-512 | a give-back names a charge that is out, under its own key, exactly if the request is not settled already |
| NicCharges.RunNames | src/BxiNode.cpp:149-210 | what is out and who paid for it, kept by every step of every run, whatever is retransmitted, answered or delivered twice |
| NicExactRuns.ReplyGivesBack | src/actors/BxiNicTarget.cpp:398-406 | every reply that is handled gives back its request's credit, a second answer or a second copy too |
| NicExactRuns.SettledTwiceBreaks | src/actors/BxiNicTarget.cpp:398-486 | a request whose credit is given back twice, by a second answer or by a reply delivered twice, ends conservation or aborts the program, in every run |
| NicCreditRuns.CleanNeverSettlesTwice | src/actors/BxiNicTarget.cpp:101-107 | a clean run settles no request twice |
| NicCreditRuns.ChargesBelongToRequests | src/BxiNode.cpp:169-210 | in a clean run every open charge belongs, under its own key, to a live unfinished request whose next message is undelivered or whose copies were all dropped without an answer, or to one that was deleted after that |
| NicCreditRuns.QuietMeansFull | src/BxiNode.cpp:161-210 | when a clean run has no message left, the open charges are exactly those of requests given up unanswered, and every counter and semaphore is full exactly if there is none |
| NicLimits.UnmatchedPutLosesCredit | src/actors/BxiNicTarget.cpp:178-184 | a clean run with conserved credits in which a Put without ACK finds no entry and leaves nothing behind but a credit that is lost for good |
| NicLimits.RepeatedReplyPanics | src/actors/BxiNicTarget.cpp:405-411 | a run that is not clean only because a response that arrives is retransmitted: it conserves its credits until the response is handled again, and that aborts |
| NicLimits.SecondAnswerPanics | src/actors/BxiNicTarget.cpp:212-250 | a run that is not clean only because a Get without an entry is answered again when its retransmission arrives: it conserves its credits, those of both responses too, until the second one is handled, and that aborts |
| NicLimits.LateAckPanics | src/actors/BxiNicTarget.cpp:495-512 | a run in which a Put is answered by a failed Portals ACK, and its retransmission by an E2E ACK that is handled when the Put is ANSWERED: it conserves its credits until then, and that aborts |
| NicWakeups.NoLostWakeup | src/BxiNode.cpp:116-147 | in every run, whatever waits for credit has its node or process counter at zero |
| NicWakeups.RunStarved | src/BxiNode.cpp:93-218 | every step keeps all waiting messages on exhausted counters |
| NicWakeups.WaitersHaveResumers | src/BxiNode.cpp:208-218 | in a clean run the whole capacity of the exhausted counter a message waits for is out, and each of its charges belongs to an unfinished request or to one given up unanswered |
| NicWakeups.OtherVnExhausted | src/BxiNode.cpp:169-218 | a give-back cannot end the wait of a message on a virtual network it does not resume |
| NicWakeups.StillExhausted | src/BxiNode.cpp:149-159 | consuming credits leaves exhausted counters exhausted |
| NicCommandQueue.CommandSlots | src/actors/BxiNicInitiator.cpp:86-92 | in every run free command slots plus commands not yet accepted are 16, plus one per retransmitted request |
| NicCommandQueue.RunSlots | src/actors/BxiMainActor.cpp:428-439 | the balance of command slots behind this is kept by every step |
| NicCommandQueue.FiniDrains | src/s4ptl/BxiNI.cpp:65-74 | the 16 acquires of fini can complete exactly when pending commands do not outnumber retransmissions; without retransmission exactly when none pends |
| NicQuickAck.QuickAckRefines | src/actors/BxiNicTarget.cpp:91-124 | a matched Put or Atomic with Portals ACK ends with the same record, FINISHED, the same events in order and the same credits on all nodes, in quick mode and through PTL_ACK and E2E_ACK |
| NicAckRuns.QuickAcksRefine | src/actors/BxiNicTarget.cpp:91-124 | in any two clean runs, one per mode, an acknowledged Put or Atomic that is FINISHED, live or deleted, has shown its initiator the same events in the same order, and holds no credit any more |
| NicAckRuns.AcknowledgedPutTells | src/s4ptl/BxiRequest.cpp:54-104 | in every clean run of either mode, such a request past RECEIVED, live or deleted, has shown SEND and then one successful ACK with its own length and offset, as its command asked for them, and nothing else |
| NicAckRuns.RunTell | src/actors/BxiNicTarget.cpp:461-519 | in every clean run, a request that has not been answered shows at most SEND, and one that gets a Portals ACK waits for exactly that ACK, which never reports a failure |
| NicAckRuns.ReactionTells | src/actors/BxiNicTarget.cpp:461-519 | whatever handler takes a delivered message, for a request with or without an entry, keeps that story of its request |
| NicQuickAck.QuickAckAgrees | src/actors/BxiNicTarget.cpp:91-124 | exactly when the initiator's events agree in both modes, for every matched Put or Atomic; credits and target events agree always |
| NicQuickAck.AckedOutcome | src/actors/BxiNicTarget.cpp:461-512 | the full exchange settles the request's credit by the ACK and the ACK's credit by the E2E ACK |
| NicQuickAck.AckCostsNothing | src/BxiNode.cpp:149-210 | the round trip of the ACK's own credit leaves all counters as quick mode leaves them |
| NicObjects.BxiQueue.Put | src/BxiQueue.cpp:33-45 | appends at the end; the semaphore stays the length |
| NicObjects.BxiQueue.Get | src/BxiQueue.cpp:47-64 | takes the oldest; the semaphore stays the length |
| NicObjects.BxiNode.CheckFlowctrl | src/BxiNode.cpp:93-159 | step by step, the verdict and the counters of the specification, including counters created on the way |
| NicObjects.BxiNode.GiveBack | src/BxiNode.cpp:169-205 | panics or returns credits exactly as specified |
| NicObjects.BxiNode.ReleaseE2eEntry | src/BxiNode.cpp:169-210 | the node's fields after a give-back are those of the step system, resumed messages included |
| NicObjects.BxiNode.ResumeWaitingTxActors | src/BxiNode.cpp:212-218 | the loop appends the waiting messages in order to the transmit queue and empties the deque |
| NicObjects.BxiNode.InitiatorTurn | src/actors/BxiNicInitiator.cpp:43-60 | one turn of the initiator leaves queue, deque and counters as the transmit step does; if the E2E semaphore is empty it blocks with the credit already charged |
| NicObjects.BxiRequest.MaybeIssueSend | src/s4ptl/BxiRequest.cpp:69-104 | the request after the call is the specified one: the first call sets the flag and adds counter then event as asked for, any other adds nothing |
| NicObjects.BxiRequest.IssueAck | src/s4ptl/BxiRequest.cpp:54-67 | counter increment and full ACK event as asked for by the request |
| NicObjects.BxiRequest.MaybeIssueGet | src/actors/BxiNicActor.cpp:32-83 | the target event of a Get or FetchAtomic is added by the first call, exactly for a priority entry that is not silent |
| NicObjects.BxiRequest.Record | src/actors/BxiNicTarget.cpp:153-169 | the request after an entry was found: state, entry, header, memory update, counter |
| NicObjects.BxiRequest.IssuePutEvent | src/actors/BxiNicTarget.cpp:559-599 | the direct event only for priority entries that are not silent |
| NicObjects.BxiNicTarget.SendAck | src/actors/BxiNicTarget.cpp:91-124 | agrees with the specified reaction in both modes |
| NicObjects.BxiNicTarget.HandlePutRequest | src/actors/BxiNicTarget.cpp:134-184 | agrees with the specified reaction on every branch |
| NicObjects.BxiNicTarget.HandleGetRequest | src/actors/BxiNicTarget.cpp:212-250 | agrees with the specified reaction, matched or not, also for FetchAtomic |
| NicObjects.BxiNicTarget.HandleAtomicRequest | src/actors/BxiNicTarget.cpp:258-327 | agrees with the specified reaction although ACK and event come in the other order than for a Put |
| NicObjects.BxiNicTarget.HandleResponse | src/actors/BxiNicTarget.cpp:398-456 | credit back first; a request not past RECEIVED is ANSWERED, adds counter and REPLY with the response's outcome and the match's length and offset, and is confirmed; any other adds nothing |
| NicObjects.BxiNicTarget.HandlePtlAck | src/actors/BxiNicTarget.cpp:461-486 | credit back and confirmation always; the first time ANSWERED, SEND if still due, and the ACK events with the outcome the message reports |
| NicObjects.BxiNicTarget.HandleBxiAck | src/actors/BxiNicTarget.cpp:495-526 | finishes the request, gives back the answered message's key, and raises what is still due: SEND of a Put or Atomic without ACK, the target event of a Get or FetchAtomic |
| E2eTimer.QueueSortedByDeadline | src/actors/BxiNicE2E.cpp:48-79 | in every run the single FIFO queue is sorted by deadline and the clock has passed none |
| E2eTimer.NeverLate | src/actors/BxiNicE2E.cpp:70-118 | both E2E panics are out of reach exactly for a non-negative timeout and retry limit |
| E2eTimer.DecidesOnTime | src/actors/BxiNicE2E.cpp:68-79 | every message is examined at its deadline, early by at most the simulation's precision, never late |
| E2eTimer.RetriesBounded | src/actors/BxiNicE2E.cpp:88-113 | an original message is retransmitted at most as often as configured, and watched at most once at a time |
| E2eTimer.BxiNicE2E.ProcessMessage | src/actors/BxiNicE2E.cpp:133-139 | enqueues with the current time |
| E2eTimer.BxiNicE2E.TakeOldest | src/actors/BxiNicE2E.cpp:65-79 | the deadline of the oldest message, or the negative-sleep panic |
| E2eTimer.BxiNicE2E.Decide | src/actors/BxiNicE2E.cpp:81-118 | acknowledged, given up, retransmitted with one more retry, or aborted, with the statistics of the node |
| PortalsMatching.MatchingOrder | src/s4ptl/BxiPT.cpp:91-171 | no pairing of any run overtakes an older pending message or an earlier-posted live priority entry (Portals 4.1, section 3.12) |
| PortalsMatching.UnexpectedHeaders | src/s4ptl/BxiPT.cpp:104-171 | after any run no linked priority entry matches any pending header, and the headers are in order of arrival |
| PortalsMatching.TakenAndLeft | src/s4ptl/BxiPT.cpp:117-169 | an appended entry takes only matches, loses no header, leaves no match unless it is USE_ONCE |
| PortalsMatching.OldestTaken | src/s4ptl/BxiPT.cpp:117-169 | what it takes is older than every match it leaves |
| PortalsMatching.ExactlyOnceUnlink | src/s4ptl/BxiME.cpp:60-101 | every entry posted is linked, or was unlinked exactly once, or took a header and was never linked |
| PortalsMatching.DeferredUnlink | src/s4ptl/BxiME.cpp:88-101 | an unlink during the in-use window leaves the entry linked through any other steps, and the end of the handler removes it once, together with an auto-unlink that falls due |
| PortalsMatching.UsedOnceLeaves | src/s4ptl/BxiME.cpp:162-191 | a USE_ONCE entry that paired while linked is unlinked when its handler ends |
| PortalsMatching.PairsOnce | src/s4ptl/BxiME.cpp:103-117 | a USE_ONCE entry pairs once in its life; a message pairs once, or with an overflow entry and later one appended entry (section 3.12.2) |
| PortalsMatching.RunFits | src/s4ptl/BxiPT.cpp:91-171 | the invariant behind these, for every run |
| PortalsLives.MatchesBits | src/s4ptl/BxiME.cpp:103-117 | an entry matches a request exactly if it is no used USE_ONCE entry and the request does not ask for matching or agrees with the entry in every bit it does not ignore (section 3.12) |
| PortalsLives.ArrivalDecides | src/s4ptl/BxiPT.cpp:91-115 | in every run, an arriving message that some linked entry matches is taken by the first one of the priority list, or else of the overflow list, which alone makes it an unexpected header; the pairing delivers what is left of the entry at most, from the entry's own offset or the one asked for; any other message is dropped |
| PortalsLives.AppendDecides | src/s4ptl/BxiME.cpp:60-86 | in every run, a posted entry is linked unless it is USE_ONCE and a pending header matched it, and a priority entry that matched one is used |
| PortalsLives.NextLives | src/s4ptl/BxiME.cpp:88-191 | for every step of every run and every linked entry: it leaves exactly if its handler ends and it is USE_ONCE, full or was to go, or if it is unlinked out of use with no pending header that wants it; otherwise exactly how it changes |
| PortalsLives.PersistentStays | src/s4ptl/BxiME.cpp:162-171 | an entry that is neither USE_ONCE nor MANAGE_LOCAL stays linked through any run until an unlink names it |
| PortalsLives.EnabledAsSet | src/s4ptl/BxiPT.cpp:54-66 | in every run the table is enabled exactly as it was last set, and at the start |
| PortalsTiling.RunTiled | src/s4ptl/BxiME.cpp:119-171 | in every run without wrapping sums each message starts where the delivered bytes of its entry end |
| PortalsTiling.ManagedEntriesTile | src/s4ptl/BxiME.cpp:119-137 | the messages one MANAGE_LOCAL entry accepts occupy disjoint, contiguous ranges within it, in order of arrival (section 3.12.1) |
| PortalsTiling.OffsetIsDelivered | src/s4ptl/BxiME.cpp:119-171 | the entry's offset is the sum of what it delivered and at most its length; once a message arrived it stays linked only while min_free bytes remain |
| PortalsTiling.AdvancesByLength | src/s4ptl/BxiME.cpp:119-160 | the next message starts where this one ends, exactly if the 64-bit sum does not wrap |
| PortalsTiling.UnlinksWhenFull | src/s4ptl/BxiME.cpp:162-171 | the auto-unlink test means less than min_free bytes left, exactly if the 64-bit sum does not wrap |
| PortalsObjects.BxiME.MatchesRequest | src/s4ptl/BxiME.cpp:103-117 | used USE_ONCE entries match nothing, otherwise requests that do not ask for matching or agree in every bit that is not ignored |
| PortalsObjects.BxiME.GetMLength | src/s4ptl/BxiME.cpp:156-160 | what is left of the entry, or the payload if it is smaller |
| PortalsObjects.BxiME.GetOffsettedAddr | src/s4ptl/BxiME.cpp:119-137 | the reported offset, and the locally managed offset moved on if asked for |
| PortalsObjects.BxiPT.WalkThroughLists | src/s4ptl/BxiPT.cpp:91-115 | the first match, priority list first, marked used; overflow matches queue the header; nothing else changes |
| PortalsObjects.BxiPT.WalkThroughUHs | src/s4ptl/BxiPT.cpp:117-169 | erasing while walking leaves exactly the headers the entry does not take |
| PortalsObjects.BxiPT.Append | src/s4ptl/BxiME.cpp:60-86 | the portal table entry moves by the append step, and the entry is linked unless consumed |
| PortalsObjects.BxiME.Accept | src/actors/BxiNicTarget.cpp:154-161 | the handler marks the entry in use and moves its offset, after reading the length that fits |
| PortalsObjects.BxiPT.TakeEntry | src/actors/BxiNicTarget.cpp:153-161 | exactly one entry changes, the first match, and the header list grows only for an overflow entry |
| PortalsObjects.BxiPT.AcceptRequest | src/actors/BxiNicTarget.cpp:536-557 | the portal table entry moves by the arrival step; the returned offset and length are the logged ones |
| PortalsObjects.BxiPT.UnlinkEntry | src/s4ptl/BxiME.cpp:88-101 | an entry in use is marked, any other leaves its list |
| PortalsObjects.BxiPT.Erase | src/s4ptl/BxiME.cpp:98-99 | what is left are all other entries in their order |
| PortalsObjects.BxiPT.MaybeAutoUnlink | src/s4ptl/BxiME.cpp:162-191 | unlinks exactly a USE_ONCE entry or a locally managed one whose offset plus min_free exceeds its length in 64 bits |
| PortalsObjects.BxiPT.Dispose | src/actors/BxiNicTarget.cpp:172-177 | an entry out of use goes exactly if it is due for auto-unlink or its unlink was put off, and goes once |
| PortalsObjects.BxiPT.FinishRequest | src/actors/BxiNicTarget.cpp:174-177 | the end of a handler auto-unlinks or executes a deferred unlink, never both |
| PortalsObjects.BxiPT.MatchesHeader | src/actors/BxiMainActor.cpp:399-402 | finds a pending header that the entry matches, if there is one |
| PortalsObjects.BxiPT.Unlink | src/actors/BxiMainActor.cpp:390-407 | refused exactly if an overflow entry matches a pending header, otherwise the unlink step |
| Counter.WaitersServed | src/s4ptl/BxiCT.cpp:34-83 | in runs of unit successes, failures and sets that do not raise success, no waiter remains at or below the success count, and none on a failed counter |
| Counter.UpdateServes | src/s4ptl/BxiCT.cpp:34-58 | for any update: all waiters stay served exactly if the counter fails or jumps over no threshold |
| Counter.SafeUpdates | src/s4ptl/BxiCT.cpp:34-83 | the updates that are safe whoever waits are exactly failures and rises by at most one |
| Counter.WokenOnce | src/s4ptl/BxiCT.cpp:34-97 | every waiter is woken at most once, none is lost, and no wake-up is spurious |
| Counter.HoldsCounted | src/s4ptl/BxiCT.cpp:60-83 | in every run the counter holds the successes and failures counted since it was last set, modulo 2^64 |
| Counter.SkippedStaysAsleep | src/s4ptl/BxiCT.cpp:60-64 | a waiter that was jumped over is not woken by any number of unit successes |
| Counter.BytesSkipWaiter | src/s4ptl/BxiME.cpp:47-55 | a byte counter that jumps over a threshold leaves its waiter asleep |
| Counter.BxiCT.OnUpdate | src/s4ptl/BxiCT.cpp:34-58 | erasing while iterating keeps exactly the waiters that are not woken, in order |
| Counter.BxiCT.IncrementSuccess | src/s4ptl/BxiCT.cpp:60-64 | the step of the specification |
| Counter.BxiCT.SetValue | src/s4ptl/BxiCT.cpp:66-73 | the step of the specification |
| Counter.BxiCT.Increment | src/s4ptl/BxiCT.cpp:75-83 | the step of the specification |
| Counter.BxiCT.Wait | src/s4ptl/BxiCT.cpp:85-97 | suspends exactly below the threshold on a counter that did not fail |
| Align.MaskIsRounding | src/s4bxi_shared.cpp:213-214 | for a power of two the masks are the nearest multiple above and below |
| Align.RoundingNeedsPowerOfTwo | src/s4bxi_shared.cpp:213-214 | either mask rounds every number exactly for powers of two |
| SharedMapping.MappedInside | src/s4bxi_shared.cpp:294-353 | nothing outside the shared block is mapped, exactly outside one named case |
| SharedMapping.MappedExactly | src/s4bxi_shared.cpp:294-353 | exactly which bytes are mapped: the whole pages of the block, at the end of the allocation also the last partial page if an aligned edge lies in the block, and in the named case the page the block lies in |
| SharedMapping.MappedDisjoint | src/s4bxi_shared.cpp:306-353 | no byte of a block is mapped twice |
| SharedMapping.MappedSmall | src/s4bxi_shared.cpp:306-353 | every mapped range is non-empty and at most one block of the file long |
| SharedMapping.PagesMapped | src/s4bxi_shared.cpp:306-353 | every whole page inside the block is mapped |
| SharedMapping.MapBlock | src/s4bxi_shared.cpp:304-353 | the loop and the two partial ranges, in order |
| SharedMapping.MapSharedBlocks | src/s4bxi_shared.cpp:291-354 | aborts exactly on blocks that are empty, too long or not ascending, and otherwise maps block after block |
| SharedMapping.OnlySharedIsMapped | src/s4bxi_shared.cpp:291-354 | over all blocks, only shared bytes are mapped |
| SharedMapping.NothingMappedTwice | src/s4bxi_shared.cpp:291-354 | over all blocks, no byte is mapped twice |
| SharedMapping.EachBlockMapped | src/s4bxi_shared.cpp:291-354 | over all blocks, exactly the bytes are mapped that some block has mapped |
| PrivateBlocks.PrivateIsComplement | src/s4bxi_shared.cpp:364-375 | the private blocks are sorted, disjoint, non-empty, and exactly the bytes that are not shared |
| PrivateBlocks.RegisterPrivateBlocks | src/s4bxi_shared.cpp:364-375 | the loop builds that list |
| PrivateBlocks.IsShared | src/s4bxi_shared.cpp:418-444 | the lookup by lower bound agrees with a linear scan in answer, offset and blocks, and its assertion never fails |
| PrivateBlocks.FramingExact | src/s4bxi_shared.cpp:446-457 | framing in wrapping arithmetic is exact precisely if the buffer is empty or no block straddles its start |
| PrivateBlocks.ShiftAndFramePrivateBlocks | src/s4bxi_shared.cpp:446-457 | the loop computes the framed list |
| PrivateBlocks.PipelineExact | src/s4bxi_shared.cpp:364-457 | from allocation to buffer, the framed blocks hold exactly the bytes of the buffer that are not shared |
| PrivateBlocks.MergePrivateBlocks | src/s4bxi_shared.cpp:459-482 | exactly the intersection of both byte sets, sorted, disjoint, non-empty, with at most one block less than both lists together |

## Left out

- NicCreditRuns.CreditConservation: clean runs only; which other runs conserve their credits is `NicExactRuns.ConservesExactly`.
- NicWakeups.WaitersHaveResumers: clean runs with E2E on, for the same reason; `NicWakeups.NoLostWakeup` covers all runs.
- NicRefRuns.NoUseAfterFree: handing a message to the network is one step with the sleep and the reads that follow it; `NicLaunch` says when those reads are safe.
- NicTurns.DeliveryDecides: deliveries that do not abort in the give-back of a credit; which runs never do is `NicExactRuns.ConservesExactly`.
- NicTurns.TransmitDecides: turns that do not abort on a negative counter, which conserving runs never meet.
- NicQuickAck.QuickAckAgrees: follows one exchange on its own, without other messages in between and with the credit of the ACK available; NicAckRuns.QuickAcksRefine covers whole runs, for acknowledged requests.
- NicObjects.BxiNode.InitiatorTurn: what follows once a turn blocked on the E2E semaphore goes on; the transmit step of the machine blocks before it charges a credit instead.
- SharedMapping.MappedInside: allocations whose size plus one block stays below 2^63, which every successful mmap satisfies.
- PrivateBlocks.FramingExact: buffers that end within the 64-bit address range.
- PrivateBlocks.IsShared: registered allocations do not overlap and are not empty; the local flavour can break this by keeping freed pointers.
- NicObjects.BxiNicTarget.HandleBxiAck: the message an ACK answers is alive, which `NicRefRuns.NoUseAfterFree` shows for every run.
- PortalsTiling.OffsetIsDelivered: entries without MANAGE_LOCAL are not bounded, because get_mlength ignores the remote offset.
- Switching E2E off is one setting of the whole machine; the program can also switch it off for single nodes.
- Handlers are atomic: simulated time passing inside a handler, and other actors running meanwhile, are not modelled, except for the window in which a match entry is in use.
- Message reference counts and the destructor are modelled on maps of messages and requests, not on linked heap objects, so what dangling pointers would hold is not represented.
- A match result is a parameter of the protocol steps, and the matching engine is a model of its own; the two are not composed, so the protocol is proved for every possible matching outcome, and the order in which an appended entry takes several headers is a matter of the matching engine only.
- Finding the network interface and the portal table entry for a request (can_match_request, disabled or missing entries) is folded into the failure a request reports.
- Memory contents, apply_atomic_op and its operand types: an atomic is one uninterpreted memory update.
- Link, unlink and auto-unlink events of match entries, and events of counters, sizes and timing, PCI transfers, logging.
- PtlPTFree with pending headers, which deletes messages whatever their count; unlinking an entry that was already deleted.
- PtlCTPoll and event queue polling, which depend on the cancellation of simulator communications.
- The local flavour of shared malloc and its free; mmap, shm_open and file handling.
- MPI middleware, deployment, benchmarking, intercepted libc calls: wrappers and input/output.
