# Kovael protocols: a Dafny model

Kovael orchestrates agents with a handful of small protocols that live in memory or in
SQLite tables. This project models them and proves what they keep over whole runs. Every
object whose methods change its fields is a class whose methods are tied to functions of
an abstract state; runs are sequences of such states, one step for each stretch of code
between two `await`s, each timer or event, and each sweep; the results are lemmas over all
runs and all interleavings.

| Component | Files | Main results |
|---|---|---|
| Claims, retries, reconciling | `TaskClaimMachine`, `MeshSpec`, `Mesh`, `MeshInvariants`, `MeshSafety`, `MeshSteps` | no two owners exactly up to stall timeout + cleanup age; retry goals on file; bounded attempts and moves; what a receipt, a throw or a hook makes of a claim |
| Sealed cycle log | `Merkle`, `JsonEnds`, `CycleText`, `CycleLog`, `CycleWriters` | receipts stay valid for ever; root and count pin down the events; which leaf lists share a root; which appends of several open logs go through |
| Per-agent hub | `JsonText`, `JsonReader`, `StableJson`, `StableOrder`, `HubText`, `HubSpec`, `AgentHub`, `HubRuns`, `HubSteps`, `HubReceipts`, `HubChain`, `HubOutbox`, `HubClaims`, `HubRefusals` | canonical JSON, read back; rows are the replay of their receipts; when the receipts of a request are one hash chain; leases; a queued reply is handed over by the next full claim; what a reply carries |
| Rates | `RateLimiter`, `RateLimiterCalls`, `RateLimitTracker`, `Routing`, `RoutingSteps` | LRU map, token bounds both ways, when Retry-After is exact; when the sliding-window bound holds; which agent is recorded |
| Front-matter parser | `WorkflowText`, `WorkflowLoader`, `WorkflowPaths`, `WorkflowLayout`, `WorkflowImage`, `WorkflowScalars`, `WorkflowErrors` | the one-pass indent-stack parser reads every layout back; its stack never underflows; which objects have a text; what a scalar line says; which texts are refused |
| Chairs and their bridge | `ChairBridge`, `ChairSteps`, `ChairRegistry`, `ChairHistory` | a request settles once, by a reply that is proved; when a reply is safe; sessions that ended stay out; a chair's beacon is its latest beat |
| Smaller machines | `RuntimeSupervisor`, `RuntimeSteps`, `FileSink`, `FileSinkSteps`, `SpeakerQueue`, `SpeakerTurns`, `ConsensusEngine`, `CommitteeVerdicts` | see the table |

`Wrappers`, `Lists` and `Texts` hold what several components share. Some predicates bind the
value they speak about (`forall x :: x == v ==> ...`): they mean the same as their plain
form, and let a proof pass a fact on without unfolding it.

What the proofs found in the code, each with its exact condition:

- Ownership of a hash is exclusive exactly as long as every ownership lasts less than
  `stallTimeoutMs + cleanupAfterMs`; at that limit a run with two owners exists
  (`MeshSafety.ExclusiveExactlyUpToLimit`).
- A JSON member named `__proto__` is dropped by `stableValue`: two payloads are taken for
  duplicates exactly when they are equal up to key order and such members
  (`StableJson.StableTextIffSame`).
- `markOutboxDeliveryFailed` does not look at the status: a sent row is delivered again
  exactly after an accepted call for it with a retry time and an attempt left
  (`HubOutbox.SentRowIsRetriedIffBounced`).
- The fallback agent is not rate limited: the window bound holds for exactly the agents other
  than the fallback (`Routing.WindowHoldsIffNotFallback`).
- Where the clock steps back, `retryAfterS` can be too short: it is exact if and only if a
  bucket can hold a token and the announced seconds also cover the lag of the clock
  (`RateLimiter.RetryAfterIsExact`).
- A log sink whose `maxQueueLines` is below 1 counts drops that did not happen; the accounting
  is exact if and only if it is at least 1 (`FileSink.EveryLineIsAccounted`).
- An inline `[]` in the front matter is a list holding one null, and an inline list loses its
  empty strings: it comes back if and only if it has an item and none of them is empty
  (`WorkflowLayout.InlineListComesBackIff`).
- A chair's reply that is let in before the POST was accepted can be lost, when the POST then
  fails; one let in later cannot be lost that way (`ChairBridge.ReplyIsSafeIffPosted`).
- A request whose receipts were all pruned goes on with a receipt that names no previous hash:
  its history is one chain, and its head determines it, exactly as long as that has not
  happened (`HubChain.HistoryIsLinkedIff`).
- The line an event is hashed by joins its fields by colons: within one cycle it determines the
  event, across cycles two events share a line exactly when one cycle id runs on like the
  other's lines (`CycleText.LinesMeetIff`).
- Several logs opened on one table do not see each other's events: an append or a seal fails
  exactly when another log has put an event on the cycle since this one was opened or last did
  so (`CycleWriters.AppendGoesThroughIff`). With one writer at a
  time no append ever fails.
- A reply never falls back to a stored proof secret, as no row has one: it is proved if and only
  if a session is known and the secret is given with the reply (`HubSteps.ReplyCarries`).
- A comment at the very start of a line between a key and its list makes the list unexpected
  (`WorkflowErrors.CommentHidesList`); which texts are refused, and at which line, follows from
  the lines alone (`WorkflowErrors.ParseFailsIffBadLine`).
- Quotes do not protect a `#` after white space in the front matter: a quoted string comes back
  if and only if it has no line break and the comment rule leaves its line alone
  (`WorkflowImage.QuotedComesBackIff`). Every string without a line break has some text, though
  (`WorkflowImage.HasTextIffSayable`).
- Repeating the last leaf of an odd leaf list leaves the Merkle root unchanged, so a receipt
  says nothing without its event count; two lists share a root exactly when they fill up to the
  same power-of-two list (`Merkle.SameRootIffSameFilled`).

## Model

| member | source | states |
|---|---|---|
| `TaskClaims.TaskClaimMachine.RegisterTask` | src/protocols/TaskClaimMachine.ts:91-106 | an unknown hash gets an unclaimed record with attempt 0 and one registration event; a known one is untouched |
| `TaskClaims.TaskClaimMachine.Move` | src/protocols/TaskClaimMachine.ts:157-170 | a legal transition sets state, time, cycle id and (on claiming) the next attempt, and emits one event; an illegal one changes nothing and says so |
| `TaskClaims.TaskClaimMachine.TryClaimTask` | src/protocols/TaskClaimMachine.ts:112-120 | the claim is won exactly when the hash is unknown, unclaimed or waiting for a retry; a refusal leaves the ledger and the events as they were |
| `TaskClaims.TaskClaimMachine.MarkRunning` | src/protocols/TaskClaimMachine.ts:122-124 | the whole ledger after the move to Running, and whether it was legal |
| `TaskClaims.TaskClaimMachine.QueueRetry` | src/protocols/TaskClaimMachine.ts:126-133 | the whole ledger after the move to RetryQueued, the retry time set only when the move was legal |
| `TaskClaims.TaskClaimMachine.Release` | src/protocols/TaskClaimMachine.ts:135-137 | the whole ledger after the move to Released, legal from every state but Released |
| `TaskClaims.TaskClaimMachine.Prune` | src/protocols/TaskClaimMachine.ts:145-147 | the record is gone, silently: no event |
| `TaskClaims.TaskClaimMachine.DueForRetry` | src/protocols/TaskClaimMachine.ts:150-155 | an enumeration, each once, of exactly the waiting claims whose retry time has come |
| `Mesh.RetryQueue.EnqueueFailure` | src/services/RetryQueue.ts:91-124 | releases when the attempts are used up, otherwise queues with exponential backoff and files the goal; unknown and already released claims are exhausted |
| `Mesh.RetryQueue.ForgetSettled` | src/services/RetryQueue.ts:129-135 | keeps exactly the goals whose claims are still waiting |
| `Mesh.RetryQueue.Sweep` | src/services/RetryQueue.ts:126-164 | a whole sweep, dispatching every due claim in turn, is one step of the protocol |
| `Mesh.Reconciler.Sweep` | src/services/Reconciler.ts:73-110 | releases exactly the stalled claims and prunes exactly the aged-out ones of its snapshot |
| `Mesh.MeshOrchestrator.InjectTask` | src/MeshOrchestrator.ts:619-643 | register, claim, mark running and workspace happen in one uninterrupted step, or the injection is refused and only the cycle id is used up |
| `Mesh.MeshOrchestrator.ResumeTask` | src/MeshOrchestrator.ts:645-683 | each continuation after an await takes the step of the protocol that its phase and its reply call for, on ledger, goals, runs and workspaces; what that step does is said by MeshSteps.ContinuationDoes and ReceiptDecides |
| `MeshSafety.OwnershipsNeverOverlap` | src/MeshOrchestrator.ts:619-683 | over all interleavings of injects, continuations, retry sweeps and reconciler sweeps no two runs own one hash, while every ownership stays below the limit |
| `MeshSafety.ExclusiveExactlyUpToLimit` | src/services/Reconciler.ts:73-110 | bounding ownerships by b excludes overlaps if and only if b is at most stall timeout plus cleanup age |
| `MeshSafety.OverlapAtLimit` | src/services/Reconciler.ts:73-110 | a run in which the first owner is stall-released and pruned and a second inject owns the same hash |
| `MeshSafety.ContinuationsTouchOwnClaims` | src/MeshOrchestrator.ts:645-683 | in every run whose ownerships stay below the limit, a continuation changes its own running claim or none, although release and enqueueFailure go by hash |
| `MeshSafety.ResumeTouchesOwnClaim` | src/MeshOrchestrator.ts:645-683 | the same for one continuation, in any state that keeps ownerships apart |
| `MeshSafety.WaitingClaimsHaveTheirGoal` | src/services/RetryQueue.ts:99-123 | after every step each waiting claim has a goal on file that hashes to its key |
| `MeshSafety.RetrySweepsSettle` | src/services/RetryQueue.ts:126-164 | the due-without-payload release never fires, every dispatched claim is won by a fresh run, nothing else moves, and afterwards the goals on file are exactly those of the waiting claims |
| `MeshSafety.AttemptsAndMovesAreBounded` | src/services/RetryQueue.ts:99-113 | attempts never exceed maxAttempts, and between two registrations a hash makes at most 3 * maxAttempts transitions |
| `MeshSafety.EveryTransitionUsesOne` | src/protocols/TaskClaimMachine.ts:157-170 | along any run a measure of state and attempt falls strictly with each transition of a task between two registrations, manual injects that pre-empt a backoff included |
| `MeshInvariants.EveryMoveUsesOne` | src/protocols/TaskClaimMachine.ts:25-31 | one legal move lowers the measure, within the attempt limits every run keeps |
| `MeshSafety.WorkspacesComeBack` | src/MeshOrchestrator.ts:636-683 | a workspace is held exactly for the runs that got one and have not ended |
| `TaskClaims.LegalMoves` | src/protocols/TaskClaimMachine.ts:25-31 | the legal moves, pair by pair |
| `MeshSteps.ContinuationDoes` | src/MeshOrchestrator.ts:645-683 | over all runs, every continuation in full: where its run goes, what becomes of its claim and its goal, and that nothing else changes |
| `MeshSteps.ReceiptDecides` | src/MeshOrchestrator.ts:664-683 | a run that got a receipt and still holds its claim when it goes on: the claim waits for a retry, its goal filed, exactly when the receipt was not verified and attempts are left, and is released otherwise |
| `MeshSteps.ThrowDecides` | src/MeshOrchestrator.ts:664-683 | a dispatch that throws ends the run at once and counts like a receipt that was not verified |
| `MeshSteps.HookFailureAborts` | src/MeshOrchestrator.ts:645-663 | a hook that fails before the dispatch releases the claim, files nothing, ends the run and gives its workspace back |
| `MeshSteps.WaitGrows` | src/services/RetryQueue.ts:99-113 | the wait is the base after the first attempt and grows by the factor with every further one |
| `MeshSteps.InjectStarts` | src/MeshOrchestrator.ts:619-643 | over all runs an inject starts a run, with its record, events and workspace as said, exactly when the task is unknown or waits for a retry; otherwise it uses up a cycle id and nothing else |
| `MeshSteps.SweepStartsTheDue` | src/services/RetryQueue.ts:126-164 | over all runs a retry sweep starts a run of the filed goal for every claim whose wait is over and for no other |
| `MeshSteps.SweepReleasesTheStalled` | src/services/Reconciler.ts:73-110 | over all runs a reconciler sweep releases the running claims untouched for the stall timeout, forgets the released ones untouched for the cleanup time and changes nothing else |
| `MeshInvariants.NextInv` | src/MeshOrchestrator.ts:619-683 | every step keeps the invariant behind these results |
| `MeshInvariants.DispatchDueTakesAll` | src/services/RetryQueue.ts:141-163 | dispatching the due claims one after another takes each of them and none is lost on the way |
| `MeshInvariants.ReconcileAt` | src/services/Reconciler.ts:78-108 | the sweep over a snapshot does to each record what it would do to it alone |
| `Merkle.ComputeRoot` | src/services/CycleLog.ts:242-258 | the nested loop that rebuilds the levels computes the recursive root |
| `Merkle.RootDeterminesLeaves` | src/services/CycleLog.ts:242-258 | with a collision-free pairing, equal-length leaf lists have the same root if and only if they are equal |
| `Merkle.SameRootIffSameFilled` | src/services/CycleLog.ts:242-258 | two leaf lists of any lengths have the same root if and only if they fill up to the same list of a power of two, given collision-free hashes and leaves that are no hashes of pairs |
| `Merkle.RepeatedLastLeafIsInvisible` | src/services/CycleLog.ts:248-254 | an odd list and the same list with its last leaf repeated have the same root |
| `CycleLog.Log.constructor` | src/services/CycleLog.ts:78-94 | a log opened on a table starts every cycle at its highest number plus one |
| `CycleLog.Log.Append` | src/services/CycleLog.ts:96-120 | the event gets the next number the log knows of for its cycle, or the key conflicts and nothing changes; which of the two is said by CycleWriters.AppendGoesThroughIff |
| `CycleLog.Log.SealCycle` | src/services/CycleLog.ts:189-222 | the receipt carries root and count of the trail before the seal event, which is appended last; a cycle without events is refused |
| `CycleLog.AppendExtends` | src/services/CycleLog.ts:96-132 | whichever log appends, the event extends its cycle by one without a gap and leaves all others alone |
| `CycleLog.TrailOfLength` | src/services/CycleLog.ts:122-132 | the trail is event 0, event 1 and so on, in order and without a gap |
| `CycleLog.ReceiptsStayValid` | src/services/CycleLog.ts:84-117 | for every receipt ever issued, in every later state, restarts and several open logs included, the first eventCount events still give its root |
| `CycleLog.ReceiptPinsEvents` | src/services/CycleLog.ts:189-255 | with a hash without collisions, a table has that many events and gives the root if and only if its first eventCount events are the sealed ones |
| `CycleText.LineDeterminesEvent` | src/services/CycleLog.ts:196-200 | two events of one cycle are hashed by the same line if and only if they are the same event, whatever colons they hold |
| `CycleText.LinesMeetIff` | src/services/CycleLog.ts:196-200 | two different cycles can have events with one line if and only if the id of one is the other, a number, a kind and perhaps a time stamp and more, joined by colons |
| `CycleText.TwoCyclesOneLine` | src/services/CycleLog.ts:196-200 | cycles `a` and `a:0:cycle_started:5` do |
| `JsonEnds.FrontOfObject` | src/services/CycleLog.ts:198 | a text in front of a colon and the JSON of an object is told from it |
| `CycleLog.SealedCyclesStayClosed` | src/services/CycleLog.ts:148-187 | a cycle with a receipt is never replayed as open |
| `CycleText.EventLineIs` | src/services/CycleLog.ts:196-200 | cycle, number, kind, time, actor and payload, joined by colons |
| `Merkle.TreeAbove` | src/services/CycleLog.ts:242-258 | the root is the hash of a perfect binary tree whose leaves, from left to right, are the list filled up |
| `CycleWriters.TakenIffOvertaken` | src/services/CycleLog.ts:96-120 | over all runs the number a log would give next is taken if and only if another log has put an event on the cycle since this one was opened or last did so |
| `CycleWriters.AppendGoesThroughIff` | src/services/CycleLog.ts:96-120 | an append changes nothing exactly then; otherwise its row goes right behind the events of its cycle |
| `CycleWriters.SealGoesThroughIff` | src/services/CycleLog.ts:189-222 | a seal issues its receipt and appends its event exactly when the cycle has an event and the log was not overtaken; otherwise it changes nothing |
| `CycleWriters.LoneWriterNeverConflicts` | src/services/CycleLog.ts:78-120 | in a run in which only the log opened last appends and seals, every append succeeds, and a seal does for exactly the cycles with an event |
| `JsonText.TextDeterminesValue` | src/services/AgentHubStore.ts:975-987 | JSON texts are equal if and only if the values are: the printer is injective |
| `StableJson.StableTextIffSame` | src/services/AgentHubStore.ts:975-987 | two values get the same canonical text exactly when they are equal up to the order of keys, `__proto__` members aside |
| `StableJson.ProtoMembersAreInvisible` | src/services/AgentHubStore.ts:979-987 | a `__proto__` member leaves no trace in the canonical text |
| `AgentHub.AgentHubStore.AppendReceipt` | src/services/AgentHubStore.ts:756-797 | the new receipt links to the newest one of its request by hash |
| `AgentHub.AgentHubStore.RecordInboundDispatch` | src/services/AgentHubStore.ts:196-254 | a first delivery inserts a row and a receipt, a redelivery counts up, a changed payload is refused, a fault leaves no trace |
| `AgentHub.AgentHubStore.MarkDispatchRunning` | src/services/AgentHubStore.ts:256-279 | status, attempt count and receipt change together or not at all |
| `AgentHub.AgentHubStore.ScheduleDispatchReplay` | src/services/AgentHubStore.ts:281-291 | only the replay time of an existing row changes |
| `AgentHub.AgentHubStore.MarkDispatchEnded` | src/services/AgentHubStore.ts:293-424 | row, outbox reply and receipt of a success or failure change together or not at all |
| `AgentHub.AgentHubStore.UpsertOutboxReply` | src/services/AgentHubStore.ts:693-754 | the reply of a request is inserted, replaced unless sent, or left alone |
| `AgentHub.AgentHubStore.MarkOutboxSent` | src/services/AgentHubStore.ts:474-489 | exactly that row becomes sent |
| `AgentHub.AgentHubStore.ClaimDueOutbox` | src/services/AgentHubStore.ts:491-536 | a claim as one transaction: the rows it picks are leased and handed over, or nothing happens; which rows these are, by status and times, is said by HubClaims.ClaimTakesWhatIsUp |
| `AgentHub.AgentHubStore.MarkOutboxDeliveryFailed` | src/services/AgentHubStore.ts:538-570 | the row is retried later or dead, by its attempts, whatever its status was |
| `AgentHub.AgentHubStore.PruneTerminalOutbox` | src/services/AgentHubStore.ts:597-604 | removes exactly the old sent and dead rows |
| `AgentHub.AgentHubStore.PruneOldReceipts` | src/services/AgentHubStore.ts:606-612 | removes exactly the receipts before the timestamp |
| `AgentHub.ClaimTakesTheEarliest` | src/services/AgentHubStore.ts:491-536 | a claim takes due rows only, min(limit, due) of them, and passes over none that was due before one it takes |
| `AgentHub.PickedAreDistinct` | src/services/AgentHubStore.ts:503-515 | no row is picked twice |
| `AgentHub.ClaimedComeOldestFirst` | src/services/AgentHubStore.ts:525-534 | exactly the picked rows are handed over, each once, by created_at and then rowid |
| `HubRuns.RedeliveryVerdict` | src/services/AgentHubStore.ts:196-254 | a redelivery is a duplicate exactly when it equals the first payload up to key order, `__proto__` members aside, otherwise refused without a change; the duplicate count is accepted deliveries minus one |
| `HubRuns.FirstPayloadStays` | src/services/AgentHubStore.ts:208-230 | the payload and hash stored first are never overwritten |
| `HubRuns.ReceiptsReplayToRows` | src/services/AgentHubStore.ts:228-424 | over all runs, rollbacks included, each row has the status and attempt count its receipts replay to |
| `HubChain.ReceiptsAreAChainSuffix` | src/services/AgentHubStore.ts:756-797 | under a clock that never goes back each request keeps a contiguous suffix of its receipts, linked hash to hash |
| `HubChain.HistoryIsLinkedIff` | src/services/AgentHubStore.ts:606-612 | in every state of every run, pruning included, the whole history of a request is one chain if and only if no step has added to it after its last stored receipt was pruned |
| `HubChain.RestartIsVisible` | src/services/AgentHubStore.ts:756-781 | whether a step breaks the chain shows in the hub and the call: it adds a receipt to a request that has a history and nothing stored |
| `HubChain.HeadDeterminesHistory` | src/services/AgentHubStore.ts:756-797 | with a collision-free hash, two hubs that never broke the chain of a request and have the same newest hash for it have the same history for it, pruned receipts included |
| `HubChain.RestartForgets` | src/services/AgentHubStore.ts:606-612 | any accepted delivery leads to two runs, delivered, pruned and started, with one newest receipt and two histories |
| `HubChain.HeadDeterminesTail` | src/services/AgentHubStore.ts:756-797 | chains with the same head agree link by link as far back as both reach |
| `HubChain.LinkDeterminesFields` | src/services/AgentHubStore.ts:771-781 | one hash fixes previous hash, kind, time and payload of its line |
| `HubChain.KeepIsSuffix` | src/services/AgentHubStore.ts:606-612 | pruning by time keeps a suffix of the log |
| `HubChain.CutIsExact` | src/services/AgentHubStore.ts:606-612 | what is cut off is exactly what is older than the given time |
| `HubOutbox.AtMostOneReplyPerRequest` | src/services/AgentHubStore.ts:693-754 | the outbox never holds two reply rows of one request |
| `JsonReader.TextReadsBack` | src/services/AgentHubStore.ts:861 | JSON.parse of what JSON.stringify wrote gives the value back, members in their order |
| `StableOrder.StableTextReadsBack` | src/services/AgentHubStore.ts:882-900 | what is stored under a stable text is read back as the stable value |
| `StableOrder.StableKeysAreOrdered` | src/services/AgentHubStore.ts:975-987 | array indices first, by length and digits, then all other keys character by character |
| `HubSteps.TextFieldIs` | src/services/AgentHubStore.ts:960-969 | a text field is the trimmed value of the member of that name, unless that is no text or blank |
| `HubSteps.RowHasFirstPayload` | src/services/AgentHubStore.ts:954-958 | over all runs a row keeps the text fields of the first payload accepted for its request, the proof secret excepted |
| `HubSteps.KnownRowAfter` | src/services/AgentHubStore.ts:196-424 | over all runs, what every step makes of a known request, field by field: a redelivery is counted, a run begins, is put off or ends, and nothing else touches the row |
| `HubSteps.NewRowIs` | src/services/AgentHubStore.ts:196-254 | a request becomes known by a committed delivery that names it, a topic and this agent, and by nothing else; its row in full |
| `HubSteps.ReplyRowAfter` | src/services/AgentHubStore.ts:474-604 | over all runs, what every step but a claim makes of a reply, field by field: sent, bounced, pruned or replaced |
| `HubSteps.NewReplyRow` | src/services/AgentHubStore.ts:693-754 | a reply appears by a committed end of a run that asks for one, and by nothing else; its row in full |
| `HubSteps.ReplyCarries` | src/services/AgentHubStore.ts:293-424 | over all runs, the members of a reply; it is proved if and only if a session is known and the secret is given with it, as no row remembers the secret |
| `HubSteps.QueuedReplyIsHandedOver` | src/services/AgentHubStore.ts:491-536 | the first claim after the end of a run that has room and meets no fault hands over its reply, with that content and address, on its first attempt, unless the reply of that request was sent before |
| `HubClaims.PickedIff` | src/services/AgentHubStore.ts:503-515 | a row is picked exactly when it is pending or retrying with its time come, or its lease is over, and fewer such rows than the limit precede it by due time, age and place |
| `HubClaims.ClaimTakesWhatIsUp` | src/services/AgentHubStore.ts:491-536 | over all runs a claim without a fault leases exactly these rows and hands them over oldest first, each once |
| `HubClaims.ClaimIsAllOrNothing` | src/services/AgentHubStore.ts:491-536 | any other claim, at whatever statement it fails, does the same or nothing at all |
| `HubClaims.RoomForAll` | src/services/AgentHubStore.ts:503-515 | with room for the whole outbox every row that is up is taken |
| `HubReceipts.CommittedStepLeavesReceipt` | src/services/AgentHubStore.ts:756-797 | over all runs a committed delivery, begin or end leaves one receipt: kind, payload, time, previous hash and own hash in full |
| `HubReceipts.OtherStepsLeaveNone` | src/services/AgentHubStore.ts:756-797 | no other step leaves a receipt |
| `HubReceipts.PruneKeepsTheRecent` | src/services/AgentHubStore.ts:606-612 | a prune keeps exactly the receipts made at the given time or later, in their order |
| `HubRefusals.RefusedChangesNothing` | src/services/AgentHubStore.ts:915-925 | an operation that answers with an error leaves every table as it was, half-way failures included |
| `HubRefusals.DeliveryIsRefusedIff` | src/services/AgentHubStore.ts:196-230 | which deliveries are refused, and with which error |
| `HubRefusals.DeliveryAnswers` | src/services/AgentHubStore.ts:196-254 | an accepted delivery is answered with the request, whether it was known, and the hash |
| `HubRefusals.OtherIsRefusedIff` | src/services/AgentHubStore.ts:256-570 | which other operations are refused, and with which error |
| `HubRefusals.ClaimIsRefused` | src/services/AgentHubStore.ts:491-502 | claims are refused for their arguments or for a fault |
| `HubOutbox.SentRowsStay` | src/services/AgentHubStore.ts:538-604 | a sent row survives a step unchanged if and only if the step neither prunes it by age nor is an accepted bounce of it |
| `HubOutbox.SentRowIsRetriedIffBounced` | src/services/AgentHubStore.ts:538-570 | a sent row is up for delivery again after a step exactly when the step is an accepted bounce of it with a retry time and an attempt left |
| `HubOutbox.BounceReopensSentRow` | src/services/AgentHubStore.ts:538-570 | any accepted delivery that asks for a reply leads to a run whose reply was sent and is retried all the same |
| `HubOutbox.LeaseSeparatesClaims` | src/services/AgentHubStore.ts:503-530 | two claims of a row with no other write between them are at least the lease apart |
| `RateLimiter.Limiter.Touch` | src/services/RateLimiter.ts:146-161 | the touched entry ends up last, a new one may push out the first |
| `RateLimiter.Limiter.Refill` | src/services/RateLimiter.ts:163-169 | tokens grow with the elapsed time up to the capacity; a clock that stepped back changes nothing |
| `RateLimiter.Limiter.Consume` | src/services/RateLimiter.ts:122-134 | the whole map after the call, and its verdict |
| `RateLimiter.MapIsRecencyCut` | src/services/RateLimiter.ts:146-161 | the map holds exactly the most recently called keys, in the order of their last calls, cut to maxEntries |
| `RateLimiter.TrackedIffRecent` | src/services/RateLimiter.ts:154-157 | a key is still tracked if and only if fewer than maxEntries other keys were called since; the map never exceeds maxEntries |
| `RateLimiter.StretchIsOneBucket` | src/services/RateLimiter.ts:122-169 | while a key is not evicted, its calls are the life of one bucket, whatever other keys do |
| `RateLimiter.BucketLetsThrough` | src/services/RateLimiter.ts:122-169 | a bucket allows at most its capacity plus the refill from its first reading to the latest, even when the clock steps back |
| `RateLimiter.StretchLetsThrough` | src/services/RateLimiter.ts:122-169 | in any stretch of calls without an eviction of the key, the calls allowed are within that allowance |
| `RateLimiter.BucketsStayInBounds` | src/services/RateLimiter.ts:163-169 | tokens always lie between 0 and the capacity |
| `RateLimiter.TokenAfterRefusal` | src/services/RateLimiter.ts:122-134 | in every run, after a refusal s seconds bring a token if and only if a bucket can hold one and s covers what is missing and the lag of the clock behind the last refill |
| `RateLimiter.RetryAfterIsExact` | src/services/RateLimiter.ts:131-133 | the announced seconds are the fewest whole seconds, at least one, that bring a token, if and only if a bucket can hold one and they cover the lag, too; without a lag they always do |
| `RateLimiter.LagMisleads` | src/services/RateLimiter.ts:163-169 | a refusal after the clock stepped back whose announced second brings no token |
| `RateLimiterCalls.CallTakes` | src/services/RateLimiter.ts:122-169 | over all runs, one call on its bucket: the tokens it finds, whether it is allowed, what it announces and what it leaves |
| `RateLimiterCalls.CallSparesOthers` | src/services/RateLimiter.ts:122-161 | a call leaves the buckets of all other keys that stay as they were |
| `RateLimiterCalls.BurstIsCapacity` | src/services/RateLimiter.ts:122-169 | a key the limiter does not know gets exactly as many calls through at one instant as the capacity holds whole tokens |
| `RateLimitTracker.RateLimitTracker.Prune` | src/services/RateLimitTracker.ts:94-97 | drops exactly the readings before the window from the front |
| `RateLimitTracker.RateLimitTracker.CanDispatch` | src/services/RateLimitTracker.ts:59-67 | the answer and the pruned list; a provider limit in force blocks first and prunes nothing |
| `RateLimitTracker.RateLimitTracker.RecordDispatch` | src/services/RateLimitTracker.ts:50-57 | the list with the new reading, pruned at each of the readings the emitted snapshot makes |
| `RateLimitTracker.RateLimitTracker.TakeSnapshot` | src/services/RateLimitTracker.ts:74-88 | counts, blocks and resets by the pruned list, and repeats the provider limit |
| `RateLimitTracker.RateLimitTracker.UpdateProviderLimit` | src/services/RateLimitTracker.ts:69-72 | the limit is stored and the list pruned by the emitted snapshot |
| `RateLimitTracker.PrunedIsSince` | src/services/RateLimitTracker.ts:94-97 | dropping from the front of a sorted history keeps exactly the readings in the window |
| `Routing.Route` | src/MevBridge.ts:172-194 | the primary is chosen exactly when the gate is open, the memory is known and at the floor |
| `Routing.MevBridge.RouteArchitect` | src/MevBridge.ts:172-194 | the branch cascade is that choice, asked of the tracker first |
| `Routing.MevBridge.Execute` | src/MevBridge.ts:212-214 | the agent routed to is the one recorded |
| `Routing.GateCountsTheWindow` | src/services/RateLimitTracker.ts:59-67 | in every reachable state the gate is open exactly when no provider limit blocks and fewer than maxPerWindow dispatches lie in the trailing window of the full history |
| `Routing.WindowIsNeverExceeded` | src/MevBridge.ts:172-214 | over all runs every closed interval of length windowMs holds at most maxPerWindow dispatches of an agent that is never the fallback |
| `Routing.WindowHoldsIffNotFallback` | src/MevBridge.ts:172-214 | for every configuration, agent and fixed fallback: all runs keep the window bound if and only if the agent is not the fallback (or the window has negative length) |
| `Routing.FallbackBurst` | src/MevBridge.ts:172-214 | any number of dispatches of the fallback fit into one instant |
| `RoutingSteps.StepRecords` | src/MevBridge.ts:172-214 | over all runs an execution is recorded for the primary agent if its provider does not hold it back, its window has room and enough memory is known to be free, for the fallback otherwise; only reports change a limit |
| `RoutingSteps.SnapshotCounts` | src/services/RateLimitTracker.ts:74-88 | over all runs a snapshot counts the dispatches in the window and names the time the oldest leaves it, unless that was made at instant 0 |
| `WorkflowLoader.ParseYamlSubset` | src/services/WorkflowLoader.ts:135-200 | the loop over the lines computes the line-by-line meaning; what that is, is said by WorkflowLayout.LayoutParsesBack for layouts, WorkflowScalars.BareTextIsItselfIff and its companions for scalars and WorkflowErrors.ParseFailsIffBadLine for errors |
| `WorkflowLoader.ReadLine` | src/services/WorkflowLoader.ts:144-197 | one line: skipped, a list item of the pending list, or a key under the frame left after popping |
| `WorkflowLoader.EnterKey` | src/services/WorkflowLoader.ts:178-197 | an empty rest opens a map or, before a list item, a list; brackets an inline list; anything else a scalar |
| `WorkflowLoader.PopStack` | src/services/WorkflowLoader.ts:167-169 | pops exactly the frames at or beyond the indent |
| `WorkflowLoader.PeekNext` | src/services/WorkflowLoader.ts:202-207 | the next line that has something on it |
| `WorkflowLoader.ParseNeverUnderflows` | src/services/WorkflowLoader.ts:166-171 | on every text the indent stack keeps its root frame and strictly increasing indents: the underflow error is never raised, and a success is an object |
| `WorkflowPaths.WritesNeverMiss` | src/services/WorkflowLoader.ts:141-197 | on every text, before every line, the objects on the stack and the pending list are part of the result, so every entry and item is stored (`__proto__` aside) |
| `WorkflowPaths.StateAtIsRun` | src/services/WorkflowLoader.ts:144-199 | the state reached line by line is the state the parse goes through |
| `WorkflowText.ScalarRoundTrip` | src/services/WorkflowLoader.ts:209-219 | every integer, string, boolean, null and decimal fraction has a text that parses to it |
| `WorkflowText.EmptyInlineList` | src/services/WorkflowLoader.ts:192-195 | an inline `[]` is a list with one null |
| `WorkflowText.ScalarsOfTrimmed` | src/services/WorkflowLoader.ts:192-195 | an inline list splits into the scalars it was joined from |
| `WorkflowImage.PlainNeedsNoRemark` | src/services/WorkflowLoader.ts:146 | a line without a # after white space loses nothing |
| `WorkflowLayout.LayoutParsesBack` | src/services/WorkflowLoader.ts:135-200 | any tree of maps, lists and scalars, with or without comments at the ends of its lines, laid out at any indent width parses to exactly its meaning |
| `WorkflowLayout.EntriesParse` | src/services/WorkflowLoader.ts:144-197 | the lines of a map, read where the map stands, add exactly its members and nothing else |
| `WorkflowLayout.ItemsParse` | src/services/WorkflowLoader.ts:155-163 | the items of a block list land in the pending list, in order |
| `WorkflowLayout.InlineDenotes` | src/services/WorkflowLoader.ts:192-195 | an inline list keeps its scalars, less its empty strings |
| `WorkflowLayout.InlineListComesBackIff` | src/services/WorkflowLoader.ts:192-195 | an inline list comes back item by item if and only if it has an item and no text of it stands for the empty string |
| `WorkflowLayout.LastEntryDecides` | src/services/WorkflowLoader.ts:175-197 | a repeated key takes its last value; with distinct keys the tree comes back member by member |
| `WorkflowImage.ParsedIsSayable` | src/services/WorkflowLoader.ts:135-219 | whatever a text parses to is made of maps, lists of scalars and scalars, and no string or key in it holds a line break |
| `WorkflowImage.HasTextIffSayable` | src/services/WorkflowLoader.ts:135-219 | an object has a text that parses to it if and only if it is of that kind: any strings without line breaks, any lists of scalars, empty ones included, any nesting |
| `WorkflowImage.QuotedComesBackIff` | src/services/WorkflowLoader.ts:144-218 | a quoted string under a key comes back if and only if it has no line break and the comment rule leaves its line alone |
| `WorkflowImage.QuotesDoNotProtect` | src/services/WorkflowLoader.ts:146 | `k: 'a #b'` is read as the string `'a` |
| `WorkflowImage.CommentIsRemark` | src/services/WorkflowLoader.ts:146 | white space, # and a note at the end of a line are cut off, and nothing else |
| `WorkflowScalars.BareTextIsItselfIff` | src/services/WorkflowLoader.ts:196-219 | over all plain keys and texts: bare text is the string it is written as if and only if it is no null, boolean or number and not in quotes |
| `WorkflowScalars.QuotedTextIsInside` | src/services/WorkflowLoader.ts:215-217 | text in single or double quotes is what is inside them |
| `WorkflowScalars.WordsSay` | src/services/WorkflowLoader.ts:210-212 | null, true and false are said by their words, and ~, and by nothing else |
| `WorkflowScalars.IntegerSays` | src/services/WorkflowLoader.ts:213 | digits, with leading zeros and a minus sign or not, say their decimal value |
| `WorkflowScalars.FractionSays` | src/services/WorkflowLoader.ts:214 | a decimal fraction is read as the number written |
| `WorkflowScalars.NumberIff` | src/services/WorkflowLoader.ts:213-214 | the patterns for numbers: an optional minus, digits, and perhaps a point and digits |
| `WorkflowErrors.ParseFailsIffBadLine` | src/services/WorkflowLoader.ts:144-207 | a text is refused if and only if some line is an item outside the list the last key opened, at another indent, or a key without a colon; the error names the first such line |
| `WorkflowErrors.PendingIsCollected` | src/services/WorkflowLoader.ts:155-189 | before every line the list being collected is the one the last key opened: that key has nothing behind its colon, and a list item comes next |
| `WorkflowErrors.CommentHidesList` | src/services/WorkflowLoader.ts:202-207 | a comment at the very start of a line between a key and its list makes the list unexpected |
| `RuntimeSupervisor.RuntimeRecord.Spawn` | src/services/AgentRuntimeSupervisor.ts:427-500 | nothing while a child is managed; otherwise the next generation runs, is blocked, or has failed to spawn, with times, reason and error on record |
| `RuntimeSupervisor.RuntimeRecord.HandleExitEvent` | src/services/AgentRuntimeSupervisor.ts:551-573 | an exit of the managed child settles the record as stopped or exited, with time, code and signal; any other is ignored |
| `RuntimeSupervisor.RuntimeRecord.HandleErrorEvent` | src/services/AgentRuntimeSupervisor.ts:575-594 | an error of the managed child fails the record, with time and message; any other is ignored |
| `RuntimeSupervisor.RuntimeRecord.Stop` | src/services/AgentRuntimeSupervisor.ts:502-529 | SIGTERM, and a stop timer unless the child has exited or errored before kill returns |
| `RuntimeSupervisor.RuntimeRecord.StartOnDemand` | src/services/AgentRuntimeSupervisor.ts:300-332 | refused when disabled or blocked, no change when a child is managed, otherwise spawned |
| `RuntimeSupervisor.RuntimeRecord.StopOnDemand` | src/services/AgentRuntimeSupervisor.ts:334-365 | refused when disabled or busy without force, otherwise stopped |
| `RuntimeSupervisor.RuntimeRecord.Restart` | src/services/AgentRuntimeSupervisor.ts:367-406 | the old child is cut loose with SIGTERM and a kill timer before the new one is spawned |
| `RuntimeSupervisor.EveryChildHasOnePlace` | src/services/AgentRuntimeSupervisor.ts:427-604 | over all runs every child is exactly one of managed, exited or errored, or cut loose after SIGTERM with its SIGKILL set; a stop timer is held only while stopping that same child |
| `RuntimeSupervisor.OldEventsAreIgnored` | src/services/AgentRuntimeSupervisor.ts:551-594 | once a child is no longer managed its events never change the record |
| `RuntimeSupervisor.NeverManagedAgain` | src/services/AgentRuntimeSupervisor.ts:427-500 | a child once let go is never managed again |
| `RuntimeSupervisor.OneChildAtATime` | src/services/AgentRuntimeSupervisor.ts:427-549 | at most one child is neither gone nor cut loose |
| `RuntimeSteps.StepDoes` | src/services/AgentRuntimeSupervisor.ts:300-604 | over all runs, every operation, event and timer in full: the record with its journal, the children, and the signals and timers |
| `RuntimeSteps.AnswersAre` | src/services/AgentRuntimeSupervisor.ts:300-406 | what a start, stop or restart on demand is answered with |
| `FileSink.NdjsonFileSink.constructor` | src/services/FileSink.ts:47-67 | over existing files the byte count starts at the size of the base |
| `FileSink.NdjsonFileSink.Write` | src/services/FileSink.ts:69-80 | drop-oldest on a full queue, then a flush when due |
| `FileSink.NdjsonFileSink.FlushNow` | src/services/FileSink.ts:82-115 | the whole queue becomes one batch at the end of the base, after a rotation if it would not fit |
| `FileSink.NdjsonFileSink.Rotate` | src/services/FileSink.ts:125-142 | the descending renames, and the byte count back to zero |
| `FileSink.StepsAreOperations` | src/services/FileSink.ts:69-99 | a step of a run does to the sink what write, flushNow or a new sink over the files does |
| `FileSink.RotatedContents` | src/services/FileSink.ts:125-142 | after a rotation file n holds what file n-1 held, the oldest is gone and there is no base |
| `FileSink.FilesAreASuffix` | src/services/FileSink.ts:82-142 | over all runs, restarts included, the files from .maxFiles to the base read as a batch-aligned suffix of all that was flushed |
| `FileSink.FilesStaySmall` | src/services/FileSink.ts:93-105 | the base and every rotated file stay within maxBytes unless one batch alone is larger, and no file lies beyond .maxFiles |
| `FileSink.EveryLineIsAccounted` | src/services/FileSink.ts:69-99 | what was flushed and queued is what was written, in order; and written equals flushed plus queued plus dropped plus lost in a restart if and only if the queue can hold a line |
| `FileSinkSteps.StepGoes` | src/services/FileSink.ts:69-142 | over all runs, every step: what is queued, when it is flushed, and where: to the base if it fits beside what that holds, to a new base with every file moved up otherwise |
| `FileSinkSteps.QueueStaysShort` | src/services/FileSink.ts:69-80 | between two steps the queue holds less than a batch and never more than it may |
| `FileSinkSteps.FewestBytes` | src/services/FileSink.ts:94-95 | a character weighs the fewest UTF-8 bytes that can hold it |
| `FileSinkSteps.PayloadWeighs` | src/services/FileSink.ts:94-95 | a batch weighs its lines and one newline each |
| `ChairBridge.ChairBridgeProvider.CleanupPending` | src/services/ChairBridgeProvider.ts:422-432 | timer, abort listener and pending entry go together |
| `ChairBridge.ChairBridgeProvider.Settle` | src/services/ChairBridgeProvider.ts:441-450 | an outcome is recorded and everything pending cleaned up |
| `ChairBridge.ChairBridgeProvider.Open` | src/services/ChairBridgeProvider.ts:417-453 | the pending entry exists before the first POST |
| `ChairBridge.ChairBridgeProvider.FetchEnded` | src/services/ChairBridgeProvider.ts:291-377 | accepted, failed for good, or backed off with full jitter |
| `ChairBridge.ChairBridgeProvider.AfterAcceptance` | src/services/ChairBridgeProvider.ts:508-533 | the reply timer starts only now, unless the request has settled or the caller has aborted |
| `ChairBridge.ChairBridgeProvider.SubmitReplyForRequest` | src/services/ChairBridgeProvider.ts:202-256 | the verdict, the state after it and the receipt; what a reply must carry to be taken is said by ChairSteps.ReplyCountsIff and AnswerTells |
| `ChairBridge.SettlesAtMostOnce` | src/services/ChairBridgeProvider.ts:417-533 | over all interleavings a request settles at most once, a settled one is not pending, and after acceptance an unsettled one has its timer armed |
| `ChairBridge.OutcomeIsFinal` | src/services/ChairBridgeProvider.ts:417-450 | no later reply, timeout or abort changes an outcome |
| `ChairBridge.AcceptedReplyIsTheOutcome` | src/services/ChairBridgeProvider.ts:202-256 | the reply taken is the outcome for good |
| `ChairBridge.BackoffIsBounded` | src/services/ChairBridgeProvider.ts:291-377 | with maxAttempts >= 2 and a positive base, all backoff of a request stays below base * (2^(maxAttempts-1) - 1), and its attempts within maxAttempts |
| `ChairBridge.ReplyIsSafeIffPosted` | src/services/ChairBridgeProvider.ts:417-544 | a reply let in has no continuation in which the stream throws the dispatch failure if and only if the POST had been accepted when it came |
| `ChairBridge.ReplyCanBeLost` | src/services/ChairBridgeProvider.ts:535-544 | a run in which a request has resolved and its stream still throws the dispatch failure |
| `ChairSteps.ReplyCountsIff` | src/services/ChairBridgeProvider.ts:202-256 | over all runs a reply changes something if and only if its request is pending, agent and session are the target, the topic is absent or the target, and the proof is that of request, session and secret; then it is the outcome |
| `ChairSteps.AnswerTells` | src/services/ChairBridgeProvider.ts:202-230 | the chair is told the first thing that is wrong, in this order |
| `ChairSteps.ResolvedByReply` | src/services/ChairBridgeProvider.ts:202-256 | over all runs every content a request is resolved with was sent in such a reply |
| `ChairSteps.EventChangesItsCall` | src/services/ChairBridgeProvider.ts:291-533 | over all runs, every event in full: what becomes of its call, that no other call changes, and that a request is pending exactly while its call is neither settled nor closed |
| `ChairSteps.DelayIs` | src/services/ChairBridgeProvider.ts:364-377 | the backoff is a random part, rounded down, of a cap that starts at the base and doubles |
| `SpeakerQueue.ConversationBus.Prepend` | src/services/ConversationBus.ts:465-471 | mentions are moved to the front, the last one first |
| `SpeakerQueue.ConversationBus.TakeTurn` | src/services/ConversationBus.ts:302-569 | one turn: presence message, not ready, spoken, or failed |
| `SpeakerQueue.ConversationBus.Convene` | src/services/ConversationBus.ts:268-569 | the loop, for whatever the chairs answer, ends in the state of the turn-by-turn meaning |
| `SpeakerQueue.BumpedIs` | src/services/ConversationBus.ts:460-471 | the mentions come first in the order of their first appearance, the rest keeps its order, without duplicates |
| `SpeakerQueue.QueueAfterTurn` | src/services/ConversationBus.ts:460-480 | the queue after a completed turn is that list, or, when it is empty and turns are left, one participant other than the speaker |
| `SpeakerQueue.ConveneIsBounded` | src/services/ConversationBus.ts:286-480 | at most six messages, as many as turns counted, all by participants and never two in a row by the same one; the queue stays a duplicate-free list of participants |
| `SpeakerTurns.MentionsAre` | src/services/ConversationBus.ts:258-262 | the mentions of a message: every @ with a name character behind it, from left to right, each with the whole name |
| `SpeakerTurns.ValidSplits` | src/services/ConversationBus.ts:461-462 | leaving out mentions goes name by name and keeps the order |
| `SpeakerTurns.ValidOne` | src/services/ConversationBus.ts:461-462 | a mention stays exactly when it is of a participant other than the speaker |
| `SpeakerTurns.FirstOtherIsFirst` | src/services/ConversationBus.ts:473-479 | the one who follows on an empty queue is the first participant other than the speaker |
| `SpeakerTurns.RoundTable` | src/services/ConversationBus.ts:268-569 | a convened table from its first turn to its last: who speaks, what is posted, the queue after every turn, and why it stops |
| `ChairRegistry.ChairRegistry.constructor` | src/services/ChairRegistry.ts:75-104 | a registry over an existing table starts from what it restores |
| `ChairRegistry.ChairRegistry.Hydrate` | src/services/ChairRegistry.ts:106-148 | rows older than the cutoff are deleted, the others restored as stale and written back |
| `ChairRegistry.ChairRegistry.Claim` | src/services/ChairRegistry.ts:190-236 | a fresh session takes the chair, in memory and in the table |
| `ChairRegistry.ChairRegistry.Heartbeat` | src/services/ChairRegistry.ts:243-265 | accepted exactly for the session that holds the chair; otherwise nothing changes |
| `ChairRegistry.ChairRegistry.Release` | src/services/ChairRegistry.ts:270-285 | frees the chair exactly for the session that holds it |
| `ChairRegistry.ChairRegistry.Sweep` | src/services/ChairRegistry.ts:296-327 | chairs past offlineMs are gone, those past healthyMs stale, in memory and in the table |
| `ChairRegistry.RunInv` | src/services/ChairRegistry.ts:150-170 | the rows equal the map at every operation boundary, and sessions are fresh and distinct |
| `ChairRegistry.EndedSessionsStayOut` | src/services/ChairRegistry.ts:190-327 | a session ends exactly when superseded, released, expired or too old at a restart, and is then never accepted again by any chair, restarts included |
| `ChairRegistry.RestartRestores` | src/services/ChairRegistry.ts:106-148 | a restart at any point restores exactly the chairs of age at most offlineMs, all stale and otherwise unchanged |
| `ChairHistory.StepOnChair` | src/services/ChairRegistry.ts:106-327 | over all runs, what every operation makes of every chair, in memory and in the table |
| `ChairHistory.BeaconIsLatestBeat` | src/services/ChairRegistry.ts:190-265 | over all runs the beacon of a chair is the time of its latest claim or accepted heartbeat, and that session holds it |
| `ChairHistory.SweepAsksForBeats` | src/services/ChairRegistry.ts:296-327 | a sweep keeps exactly the chairs whose latest beat is younger than offlineMs, and turns those as old as healthyMs stale |
| `ConsensusEngine.ClampRange` | src/services/ConsensusEngine.ts:160-163 | the value itself inside the range, the nearer bound outside of it, and the minimum for what is not a finite number |
| `ConsensusEngine.Normalized` | src/services/ConsensusEngine.ts:151-158 | confidence in [0, 1] and weight not negative, both kept where they already are; the weight is 1 when missing or not finite; agent and ballot kept |
| `ConsensusEngine.LastVoteIsLast` | src/services/ConsensusEngine.ts:138 | the vote looked up for an agent is one of the votes, and none of that agent comes after it |
| `ConsensusEngine.Quorum` | src/services/ConsensusEngine.ts:57 | quorums lie between 0.6 and 1 |
| `ConsensusEngine.FailureThreshold` | src/services/ConsensusEngine.ts:58 | the failure threshold lies between 0.5 and the quorum |
| `ConsensusEngine.AcceptedVerdictsShareApprovers` | src/services/ConsensusEngine.ts:56-73 | two accepted verdicts over the same members and weights share approvers of at least q1 + q2 - 1 of the weight, at least 0.2 |
| `ConsensusEngine.SupportersShare` | src/services/ConsensusEngine.ts:60-66 | shared support is at least the sum of the supports minus one |
| `ConsensusEngine.FewVotesAreMissing` | src/services/ConsensusEngine.ts:136-149 | an accepted verdict misses at most the share 1 - q of the votes counted |
| `ConsensusEngine.OutsidersAre` | src/services/ConsensusEngine.ts:136-149 | the votes added behind the seats are those at exactly the positions of everybody else, in order, each once |
| `ConsensusEngine.SidecarsAreIdle` | src/services/ConsensusEngine.ts:74-77 | sidecars are at most two, none of them active (by name, or by vote when no participants are named), called only when needed, and fewer than two only when no other is idle |
| `CommitteeVerdicts.CommitteeIs` | src/services/ConsensusEngine.ts:136-158 | who is counted and with what: one seat a participant, by the last vote in its name or as an abstention without confidence, then the votes of everybody else in order |
| `CommitteeVerdicts.ThresholdsAre` | src/services/ConsensusEngine.ts:57-58 | the thresholds asked for or their defaults, clamped to their ranges |
| `CommitteeVerdicts.VerdictIs` | src/services/ConsensusEngine.ts:59-73 | accepted exactly when the approving share of the weight and the mean confidence both reach the quorum, a case for sidecars exactly when they do not both reach the failure threshold, failed exactly in between |
| `CommitteeVerdicts.FirstIdleAreCalled` | src/services/ConsensusEngine.ts:74-77 | when sidecars are needed, the first two candidates who are not active are called in |

## Left out

- React cockpit, HTTP and WebSocket routes, URL and path guards, tracing, hardware telemetry and the other foreign bridges: rendering and I/O.
- CircuitBreaker, ResourceGovernor, TraceRingBuffer, HookRunner, Migrator, TriadStateMachine and LearningMatrix: counters, small tables and state machines of a few lines each. PersonaLoader parses the way the front-matter parser does.
- Clocks: an operation of the ledger, the hub, the registry and the supervisor reads the clock once (hub operations twice: the row stamp and the receipt time); the sliding window reads it as often as the code does. Where a result needs a clock that never goes back, its runs say so.
- SHA-256 and HMAC are functions, collision-free where a lemma says so; UUIDs and session ids are fresh values; encryption of stored texts, event broadcasts and log lines are not part of this model.
- JSON texts that are read back are compact, as JSON.stringify writes them; numbers are read as the run of their characters.
- SQLite tables are maps and sequences; a statement that fails is an input, and a failing transaction is undone as a whole. Rows of other programs, whose payload may be no JSON, I/O errors of the log files and of `postMessage` are not modelled.
- Numbers: milliseconds, tokens, weights and confidences are reals or unbounded integers, JSON numbers their canonical numerals; floating-point rounding, `round4`, the 2^53 limit and -0 are not modelled. Strings hold Unicode scalar values, so lone surrogates are not covered.
- Configuration is fixed for a run (`RetryQueue.updateConfig` is not modelled); hooks resolve and never throw.
- Getters and statistics.
- Replies matched by topic (`submitReply`), the playback of a reply word by word and the resolution of the inbox URL.
- The supervisor's records are independent of each other: one record is modelled, with all children it ever spawned. An error event counts a child as gone.
- ChairBridge.ChairBridgeProvider.SubmitReplyForRequest: the receipt has no dispatch latency, a difference of two clock readings.
- SpeakerQueue.ConversationBus.Convene: the stopping criterion of `convene` is an input of each turn, as are the replies; speaker events and the result message are not part of this model.
- WorkflowLoader.EnterKey: objects under construction are reached by their path from the root instead of by reference; WorkflowPaths shows that on every text no such path goes astray, except below a key `__proto__`, where the code changes a prototype (or, once that is null, stores a member) and the model stores nothing.
- WorkflowLayout.LayoutParsesBack: keys are trimmed, free of colons, not starting with # or "- " and not `__proto__`; a remark is cut off its line and nothing else is. Other texts parse or fail as they do; of the layouts not covered some come back and some do not.
- WorkflowImage.HasTextIffSayable: for objects without keys that start with "- ", which only a text with other white space than blanks before the key can say.
- Merkle.ComputeRoot: digests are abstract texts, not bytes.
