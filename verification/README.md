# alertme: the nag protocol and the single-table store

alertme lets one person page another until the page is acknowledged. The backend stores the page,
and a pager consumes queue tasks, pushes to the recipient's devices, records the attempt, and
enqueues the next one until somebody acknowledges or half an hour has passed. This project models
the two parts of that backend that are hard to get right, and proves what they promise.

**The protocol.** Tasks may be duplicated, reordered and redelivered; acks and delivery receipts
race with the pager; any handler may be lost anywhere. It is modelled at two granularities, and the
table below says which one a result is about.

- *Fine* (`Protocol.dfy`): every store call, queue call and clock reading is one atomic step; any
  number of create, ack, receipt and pager handlers, each with a program counter and the page
  snapshot it took, interleave freely. `ProtocolInvariant.dfy` holds the inductive invariant, in
  rely-guarantee form: what every step guarantees (`Grows`) is what every handler in flight may rely
  on (`ProcOK`).
- *Serial* (`Serial.dfy`): each handler takes effect as a whole. The effects are the functions that
  the imperative handlers in `Pager.dfy` and `Api.dfy` are proved to compute. Every call may fail but
  Enqueue; only what `Timelines.dfy` says about a timeline asks that its own appends succeed.
  What is said of one page needs only that handlers on that page do not overlap: a step of a handler
  on another page leaves the page, its timeline and its messages alone, and what a handler does to its
  page depends on that page, its timeline and whether its recipient has a device (`Locality.dfy`);
  devices come and go between handlers in serial runs too, so seen from the page the others might as
  well have run before or after. What is said of all pages at once, such as settling, is stated for
  the fine runs too (`Settling.dfy`).
- `Uninterrupted.dfy`, `Determined.dfy` and `DeterminedApi.dfy` connect the two, both ways: whatever
  fails, the imperative handler's outcome is that of a fine-grained handler which nobody interrupts,
  and every such handler that reaches its end, however long it takes, has the outcome of the
  imperative one.
- `Acking.dfy`, `Creation.dfy` and `EventTruth.dfy` trace what is stored back to the steps of the
  handler that stored it.
- `Witness.dfy` exhibits runs from the empty system for what can go wrong.

**The store.** `Store.dfy` has the persistence contract as functions on plain maps, and the in-memory
store as a class proved against them; `StoreLaws.dfy` says what reads answer after writes. `Dynamo.dfy` is the single DynamoDB table: prefixed keys,
begins-with queries, generated condition expressions, transactions, and a listing merged from two
truncated index queries. `SingleTable.Represents` says when a table stands for the maps, and each
method of `Dynamo.Store` is proved to move the table and the maps alike. Below it are the calendar
and timestamp texts (`Timestamps.dfy`), string order (`Text.dfy`), the key schema (`Keys.dfy`), the
record codecs (`Items.dfy`), and the condition builder with the service's reading of it
(`Condition.dfy`). `Cores.dfy` shows that the conditional writes of the protocol are calls on which
table and maps agree.

**Assumptions.** Reads are current. A message stays in the queue until a handler is done with it and
may be delivered any number of times, also while it is being handled. There is no TTL sweep, no
dead-letter limit and no lost message. Clocks, page ids, invite codes and push results come in as
parameters. Time is integer nanoseconds since year 0, one monotone clock for all handlers. Nested Go
maps are one map keyed by pairs. Attribute marshalling is taken to be the identity. The condition of
an accept names the attribute `ttl` without an alias, although that is a reserved word of the
service; everything about accepts on the table (`Dynamo.Store.AcceptInvite`, `CommitAccept`,
`AcceptAgrees`, `CommitUnderInterference`) assumes that the service accepts the condition. If it does
not, every accept of a live invite fails.

**Where code and comments disagree, the model follows the code.**

- The store interface asks for pages created after `since`; the table returns those created in or
  after its whole second (`Recency.ReadingsDifferBySecond`).
- A comment calls a self-accepted invite harmless; on the table the transaction writes one item twice
  and is refused (`Dynamo.AcceptAgrees`).
- "expired" is appended to the timeline even when the conditional write lost
  (`EventTruth.ExpiredLogIsTrueExactly`), and "push_attempt" when all three did
  (`EventTruth.PushLogIsTrueExactly`).
- A receipt writes back the attempt it read (`StaleWrites.ReceiptUndoesAttempt`), so the attempt is
  monotone in serial runs only.
- A page whose task could not be enqueued is not enqueued on replay either (`Api.ReplayedCreate`), and
  a redelivery after a failed enqueue is dropped as a duplicate (`CrashGap.FailedEnqueueEndsTheNag`).

## Model

| member | source | states |
|---|---|---|
| NoOrphan.NoOrphanedPage | backend/cmd/pager/main.go:106-240 | Fine: in a run that loses no handler between its write and its enqueue, every active page has its next attempt queued, in flight or owed, and its attempt is at most the highest ever recorded |
| CrashGap.CrashOrphansExactlyWhen | backend/cmd/pager/main.go:189-200 | Fine: losing a handler orphans a page exactly when that handler alone held the page's next task |
| CrashGap.FreshCommitIsSole | backend/internal/api/handlers.go:254-275 | Fine: at every moment of every run between the commit of a page and the enqueue of its first task, no attempt is recorded, no message names the page, no pager carries one and no other handler owes one; the API handler is the sole keeper exactly while the page is active |
| CrashGap.OrphanIsForEver | backend/internal/api/handlers.go:254-275 | Fine: after the API handler is lost between commit and enqueue, at every later moment of the run no message names the page, no pager carries it, no handler owes it a task, nothing was pushed or enqueued for it by a pager, no attempt is recorded, and it is active or acked, never expired |
| CrashGap.InertExactlyWhen | backend/cmd/pager/main.go:115-145 | Serial: when no call fails on the way, a scheduled task sends and enqueues nothing if and only if its page is gone, terminal, past its expiry, or has reached the task's attempt |
| CrashGap.FailedEnqueueEndsTheNag | backend/cmd/pager/main.go:142-200 | Serial: after a failed enqueue the redelivery is inert, at any later time and however the page moved on, if and only if the page is terminal, past its expiry, or still has the attempt that was recorded |
| Witness.OneCrashOrphans | backend/internal/api/handlers.go:254-275 | Fine: a complete run in which a single crash orphans a page, so the assumption of NoOrphanedPage is needed |
| Witness.SerialRunHasPage | backend/internal/api/handlers.go:197-278 | Serial: a run that reaches a page with its first task queued |
| Witness.SomeAttemptFalls | backend/internal/api/handlers.go:399-433 | Fine: a reachable configuration and step that lower a stored attempt |
| Witness.SomeTimelineSaysExpired | backend/cmd/pager/main.go:131-140 | Fine: a reachable acked page whose timeline ends in "expired" |
| Witness.SomeTimelineSaysPushed | backend/cmd/pager/main.go:189-194 | Fine: a reachable page, acked before any attempt was recorded, whose timeline ends in "push_attempt" |
| ProtocolInvariant.StepKeeps | backend/cmd/pager/main.go:106-240 | Fine: every step keeps the invariant (pages, tasks due by the schedule, what each handler may rely on, idempotency bijection, replies) and guarantees that pages only move forward |
| ProtocolTheorems.ForwardOnly | backend/internal/model/model.go:8-29 | Fine: between any two moments of a run a page's state rank never falls, parties and dates stay, and terminal pages never change |
| ProtocolTheorems.AckIsWriteOnce | backend/internal/api/handlers.go:346-395 | Fine: the ack time is present exactly on acked pages, and an acked page never changes again |
| ProtocolTheorems.AckRepliesAgree | backend/internal/api/handlers.go:346-395 | Fine: every 200 answer to an ack, first or second, carries the stored time and note, for ever |
| ProtocolTheorems.NothingSentAfterAck | backend/cmd/pager/main.go:115-127 | Fine: whatever is pushed or enqueued for an acked page comes from a pager that loaded it before the ack |
| ProtocolTheorems.NeverEarly | backend/internal/nag/schedule.go:11-39 | Fine: attempt k is never handled before the page's creation plus the first k delays |
| ProtocolTheorems.LastAttemptExpires | backend/cmd/pager/main.go:131-140 | Fine: attempt 10 always finds the page past its expiry |
| ProtocolTheorems.OnlyTenPushed | backend/cmd/pager/main.go:156-181 | Fine: only attempts 0 to 9 are ever pushed |
| ProtocolTheorems.AtMostTenAttempts | backend/cmd/pager/main.go:219-240 | Fine: only attempts 0 to 9 are ever recorded |
| ProtocolTheorems.ScheduleNeverExhausted | backend/cmd/pager/main.go:196-216 | Fine: every pager that gets to its enqueue has an attempt k from 0 to 9 and adds exactly one task to the queue, attempt k + 1, after the schedule's wait between the two; the final-tick branch is dead for pages the API created |
| ProtocolTheorems.RecordAttemptUnderInterference | backend/cmd/pager/main.go:219-240 | Fine: each of the three writes either sets the attempt at that instant without lowering the state or changes nothing, and if the third fails the page is terminal, whatever happened in between |
| StaleWrites.AttemptFallsExactlyWhen | backend/internal/store/dynamo/store.go:437-457 | Fine: a step lowers a page's attempt exactly when it is a receipt, an expiry or a recording that carries an older attempt and passes its state condition |
| StaleWrites.ReceiptUndoesAttempt | backend/internal/api/handlers.go:399-433 | Fine: from every configuration with a created or pushed page and its due task there is an interleaving in which a receipt writes back the attempt the pager has just raised |
| EventTruth.NothingCancels | backend/internal/model/model.go:8-29 | Fine: no page of any run is ever cancelled |
| Acking.OnlyFourMoves | backend/internal/model/model.go:8-29 | Fine: no step removes a page, and a page's state changes only from created to pushed by a recording, from created or pushed to delivered by a receipt, and from active to acked or expired by an ack or an expiry |
| Acking.AckedByItsRecipient | backend/internal/api/handlers.go:346-395 | Fine: behind every acked page of every run there is an ack that the page's recipient began, that was in flight until it committed on the active page, and whose note and clock reading are the ones stored |
| EventTruth.ExpiredLogIsTrueExactly | backend/cmd/pager/main.go:131-140 | Fine: for every logged "expired" of every run, the page is expired then and ever after if and only if it was not acked at the moment of that handler's conditional write |
| EventTruth.PushLogIsTrueExactly | backend/cmd/pager/main.go:183-194 | Fine: for every logged "push_attempt" of every run, the attempt was written if and only if the page was active at that handler's last conditional write; otherwise the page was terminal and stays as it was |
| Creation.CreatedExactlyOnce | backend/internal/store/fake/store.go:161-188 | Fine: at every moment idempotency keys and pages are in bijection and attempt 0 of a page was enqueued by the API at most once |
| Creation.ReplaysAgree | backend/internal/api/handlers.go:254-278 | Fine: all answers for one idempotency key, at whatever time, name the same stored page |
| Creation.ReplayChangesNothing | backend/internal/api/handlers.go:254-267 | Fine: a create that loses to an earlier one changes neither store nor queue, and any later lookup finds the first page |
| Consent.ConsentHistory | backend/internal/store/fake/store.go:92-127 | Fine: at every moment of every run pairings exist in both directions or in neither and stem from an accepted invite, and accepts of a code never exceed its creations |
| Consent.PageWasConsentedTo | backend/internal/api/handlers.go:222-254 | Fine: behind every stored page stands a create handler of its own, with the page's sender, recipient, message and key, that began at a moment k, was in flight until it stored exactly this page at a later moment m, and at k read the sender's own copy of the pairing as active, after an accept between the two |
| Uninterrupted.UninterruptedPagerIsHandle | backend/cmd/pager/main.go:106-217 | For every combination of failing calls there is a pager invocation of the fine-grained protocol that nobody interrupts and that leaves store, queue and the other handlers exactly as the imperative handler does |
| Determined.CompletedPagerIsHandle | backend/cmd/pager/main.go:106-217 | Every pager invocation that no other handler interrupts and that reaches its end, however much time passes in it, leaves store, queue and the other handlers exactly as the imperative handler does, for its own clock reading and whichever sends, deletions and appends failed on the way |
| DeterminedApi.AnsweredCreateIsHandle | backend/internal/api/handlers.go:222-278 | Every uninterrupted create that passes its consent check and answers leaves store and queue as the imperative handler does for some page id at its own clock reading, its task queued exactly if the page is new |
| DeterminedApi.AnsweredAckIsHandle | backend/internal/api/handlers.go:346-395 | Every uninterrupted ack that answers leaves the store as the imperative handler does at its own clock reading, with the same answer, whether or not its event was appended |
| DeterminedApi.AnsweredReceiptIsHandle | backend/internal/api/handlers.go:399-433 | Every uninterrupted receipt that answers leaves the store as the imperative handler does and the queue alone, whether or not its event was appended |
| Locality.OthersAreInvisible | backend/cmd/pager/main.go:106-240 | Fine: no step of a handler that works on another page, or on none, changes a page, its timeline or its messages |
| Locality.HandleIsLocal | backend/cmd/pager/main.go:106-217 | Serial: the next task, the error result, and what a pager leaves of its page and timeline depend only on these and on whether the recipient has a device, and no other page or timeline is touched |
| Locality.AckIsLocal | backend/internal/api/handlers.go:346-395 | Serial: the answer of an ack, and what it leaves of its page, depend on that page and its timeline only, and no other page or timeline is touched |
| Locality.ReceiptIsLocal | backend/internal/api/handlers.go:399-433 | Serial: the same for a receipt |
| Settling.EveryRunCanSettle | backend/cmd/pager/main.go:106-240 | Fine: from every configuration of a run that lost no handler between its write and its enqueue there is a continuation without crashes that leaves every page acked or expired |
| Uninterrupted.UninterruptedCreate | backend/internal/api/handlers.go:222-278 | There is an uninterrupted create with the effect of the imperative handler, a failing enqueue included |
| Uninterrupted.UninterruptedAck | backend/internal/api/handlers.go:346-395 | There is an uninterrupted ack with the effect and the answer of the imperative handler, a failing event included |
| Uninterrupted.UninterruptedReceipt | backend/internal/api/handlers.go:399-433 | There is an uninterrupted receipt with the effect of the imperative handler, a failing event included |
| Pager.Handler.RecordAttempt | backend/cmd/pager/main.go:219-240 | Sets the attempt on an active page, moves created to pushed and nothing else, and fails only for a missing page |
| Pager.Handler.PushAll | backend/cmd/pager/main.go:156-181 | Hands each listed device to the provider once, in order, with the page's id, the task's attempt and the sender's display name, or the sender's id if the sender has no row or the lookup fails; removes exactly the tokens reported gone |
| Pager.Handler.RecordAndSchedule | backend/cmd/pager/main.go:189-216 | Records, logs and enqueues the next attempt, or reports the record as failed |
| Pager.Handler.HandleRecord | backend/cmd/pager/main.go:106-217 | Store, queue, content of every push, and the error result of one record, for every branch and every failing call |
| Pager.Handler.HandleBatch | backend/cmd/pager/main.go:94-104 | Every record is handled and notified for in turn, in the store its predecessors left, and exactly the failed ones are reported |
| Pager.BatchOfOne | backend/cmd/pager/main.go:94-104 | Serial: a batch of one record is that record, reported if it failed |
| Pager.BatchOfTwoParts | backend/cmd/pager/main.go:94-104 | Serial: the second part of a batch runs from the store and queue the first part left, whatever failed there, and its failures follow those of the first |
| Pager.ReportedExactly | backend/cmd/pager/main.go:94-104 | Serial: a message is reported if and only if handling one of its records failed, whatever became of the others |
| Pager.EveryFollowUpIsQueued | backend/cmd/pager/main.go:94-104 | Serial: the next task of every record of a batch is enqueued, whatever became of the others |
| Pager.FailsExactly | backend/cmd/pager/main.go:106-217 | Serial: the exact condition, on page, clock and failing calls, for a record to be an error |
| Pager.VerdictExactly | backend/cmd/pager/main.go:124-145 | Serial: a page expires exactly if it is active and the clock is past its expiry instant, and an attempt is recorded exactly up to and at that instant and only if it is further than the page's |
| Pager.BatchForward | backend/cmd/pager/main.go:94-104 | Serial: whatever fails in a batch, pages only move forward |
| Pager.HopelessRecordIsDropped | backend/cmd/pager/main.go:107-127 | Serial: a record that redelivery cannot help is not reported and changes nothing, whatever its neighbours in the batch do |
| Pager.PushesCannotStopTheNag | backend/cmd/pager/main.go:147-202 | Serial: failing pushes, dead tokens or no devices at all stop neither the recording nor the next task, which waits for the difference of the two attempts' due times; exactly the dead tokens disappear |
| PagerRules.FinalTick | backend/cmd/pager/main.go:204-216 | After the tenth attempt there is one more tick if and only if the page has not expired; it comes at the expiry instant, or 900 seconds on if that is further away |
| Api.Server.HandleCreatePage | backend/internal/api/handlers.go:197-278 | Store, queue and answer of a create, replay and failing enqueue included |
| Api.Server.HandleAckPage | backend/internal/api/handlers.go:346-395 | Store and answer of an ack, whether or not its event can be appended |
| Api.Server.HandleDeliveredReceipt | backend/internal/api/handlers.go:399-433 | Store and answer of a receipt, whether or not its event can be appended |
| Api.Server.HandleAcceptInvite | backend/internal/api/handlers.go:125-158 | Store and answer of an accept, one's own invite included |
| Api.Server.HandleBlockPairing | backend/internal/api/handlers.go:179-191 | Store and answer of a block |
| Api.CreateAnswersExactly | backend/internal/api/handlers.go:222-278 | Serial: the exact condition for a create to make a page or to answer with an earlier one; a new page's attempt 0 is enqueued at once, and without a new page nothing changes |
| Api.CreateMakes | backend/internal/api/handlers.go:237-252 | Serial: field by field the page that a create makes, with its expiry 1800 seconds on |
| Api.CreateLeavesTheRest | backend/internal/api/handlers.go:254-278 | Serial: page, key and created event appear together and nothing else moves |
| Api.AckTakes | backend/internal/api/handlers.go:346-395 | Serial: a first ack leaves its note and its time on the page and in the timeline, and moves nothing else |
| Api.AckAnswersExactly | backend/internal/api/handlers.go:346-395 | Serial: only the recipient's acks are answered with the page, and only those of an active page change anything |
| Api.ReceiptDelivers | backend/internal/api/handlers.go:399-433 | Serial: only the recipient's receipt of a page not yet delivered moves it, to delivered, and nothing else |
| Api.AcceptAnswersExactly | backend/internal/api/handlers.go:125-158 | Serial: the exact condition for each answer to an accept, by the invite's expiry, whose it is, and whether its creator has a row |
| Api.AcceptKnowsTheCaller | backend/internal/api/handlers.go:41-54 | Serial: however an accept ends, every user row stays as it was and the only new one is the caller's, if it was missing |
| Api.AcceptNamesThePeers | backend/internal/store/fake/store.go:99-127 | Serial: after an accept that pairs, each of the two holds an active copy of that moment with the other's stored display name, the invite is gone, and nothing else moved |
| Api.AcceptWithoutAPeer | backend/internal/api/handlers.go:144-156 | Serial: an accept of one's own invite spends it and leaves a pairing with oneself; every other refusal leaves all but the caller's row alone |
| Api.BlockTurnsOneCopy | backend/internal/api/handlers.go:179-191 | Serial: a block turns the caller's copy to blocked, keeps its name and date and every other pairing, and is answered 404 exactly without a copy |
| Api.SecondAckAnswersTheFirst | backend/internal/api/handlers.go:346-395 | Serial: a second ack answers with the first one and changes nothing |
| Api.ReplayedCreate | backend/internal/api/handlers.go:254-275 | Serial: a replayed create answers with the first page as it is now and changes neither store nor queue, even when the first one was never enqueued |
| Api.AcceptOpensBothWays | backend/internal/store/fake/store.go:99-127 | Serial: an accept lets each of the two page the other and changes nobody else's permission |
| Api.InviteIsSpent | backend/internal/api/handlers.go:125-158 | Serial: after an accept, one's own included, the code is gone for everybody |
| Api.BlockRefusesOnlyTheBlocker | backend/internal/store/fake/store.go:149-159 | Serial: after a block a create is refused if and only if it was before or it is the blocker paging the peer; the peer's pages go through as before |
| Serial.StepKeeps | backend/cmd/pager/main.go:106-240 | Serial: every call, delivery and duplication, with any append failing, keeps attempts, recorded log, tasks and the queued next attempt in step |
| Timelines.StepTells | backend/cmd/pager/main.go:131-194 | Serial: a step none of whose telling appends for a page fails keeps that page's timeline telling its state and attempt |
| SerialTheorems.TimelineReplays | backend/internal/store/fake/store.go:161-174 | Serial: as long as no append of a page's events other than no_devices has failed, folding them gives the page's state and attempt, push_attempt events number attempt + 1, and the one terminal event is last, whatever happened to other pages' timelines |
| SerialTheorems.RecordedInOrder | backend/cmd/pager/main.go:142-145 | Serial: in every run, failing appends included, recorded attempts are exactly 0, 1, 2, ... and no task of an active page is further ahead than the next attempt |
| SerialTheorems.AttemptIsMonotone | backend/cmd/pager/main.go:142-145 | Serial: between any two moments of a run, failing appends included, a page's attempt never falls |
| SerialTheorems.DuplicateIsInert | backend/cmd/pager/main.go:142-145 | Serial: once attempt k of a page is recorded, every later delivery of a task for it pushes, enqueues and records nothing, and changes the store only to expire the page |
| SerialTheorems.StepDecreases | backend/cmd/pager/main.go:124-217 | Serial: each delivery or duplication uses up part of the measure (attempts left, queue, allowance of duplicates and failures), also when its appends fail; only a create adds to it, twelve at most |
| SerialTheorems.DeliveriesAreBounded | backend/cmd/pager/main.go:124-217 | Serial: from any configuration on, the number of deliveries and duplications is bounded by the measure there and twelve for every later create |
| SerialTheorems.EmptyQueueMeansSettled | backend/cmd/pager/main.go:124-217 | Serial: in every run, failing appends included, when the queue is empty every page is acked or expired |
| SerialTheorems.NeverStuck | backend/cmd/pager/main.go:94-104 | Serial: while the queue is not empty, waiting makes its first message deliverable without error |
| SerialTheorems.EveryRunCanSettle | backend/cmd/pager/main.go:124-217 | Serial: every configuration of every run has a continuation of waits and deliveries that empties the queue with every page acked or expired |
| Nag.LastAttemptOvershoots | backend/internal/nag/schedule.go:11-25 | Attempt k can fire within the expiry window exactly when k is at most 9 |
| Nag.ScheduleAdvances | backend/internal/nag/schedule.go:30-39 | The wait before attempt k + 1 is the difference of two due times, whole seconds and within the queue's limit |
| Nag.ScheduleInSeconds | backend/internal/nag/schedule.go:11-25 | Attempts 0 to 10 are due 0, 30, 60, 120, 240, 540, 840, 1140, 1440, 1740 and 2040 seconds after the creation, and a page lives 1800 seconds |
| Nag.DelaysNeverShrink | backend/internal/nag/schedule.go:30-39 | There is a delay for attempts up to the tenth and none after, zero exactly up to attempt 0, and a later one is never shorter |
| Nag.WholeSecondsTruncates | backend/internal/queue/queue.go:44 | The queue's delay is the longest one of whole seconds that is not longer than the delay asked for |
| Fake.Store.SetPageState | backend/internal/store/fake/store.go:218-239 | The conditional transition of the reference store |
| Fake.Store.AckPage | backend/internal/store/fake/store.go:200-216 | The conditional ack of the reference store |
| Fake.Store.CreatePage | backend/internal/store/fake/store.go:161-174 | Page, idempotency key and created event, or a conflict and no change |
| Fake.Store.AcceptInvite | backend/internal/store/fake/store.go:99-127 | Consumes the invite and writes both pairings, or changes nothing |
| Fake.Store.ListDevices | backend/internal/store/fake/store.go:75-83 | Each device of the user once |
| Fake.Store.ListPagesFor | backend/internal/store/fake/store.go:256-274 | Distinct matching pages, newest first, a hundred at most, none newer left out |
| StoreLaws.ReadsSeePuts | backend/internal/store/fake/store.go:48-97 | A user, device or invite that was put is read back, and no other entry changes |
| StoreLaws.ListingsSeeDevices | backend/internal/store/fake/store.go:65-90 | A user's listing after a put or a deletion of a device: one device for each token, other users' devices as before |
| StoreLaws.TransitionsExactly | backend/internal/store/fake/store.go:218-239 | Outcome of a conditional transition and what every page reads as afterwards |
| StoreLaws.AcksExactly | backend/internal/store/fake/store.go:200-216 | Outcome of a conditional ack and what every page reads as afterwards |
| StoreLaws.CreatesExactly | backend/internal/store/fake/store.go:161-188 | A create that passes is read back by id and by key with its created event; a conflict changes nothing |
| SingleTable.PutRepresents | backend/internal/store/dynamo/keys.go:8-47 | Writing one entity in the maps is one put at its own address in the table |
| SingleTable.DeleteRepresents | backend/internal/store/dynamo/keys.go:8-47 | Removing one entity is one delete |
| SingleTable.RepresentedMapsAreUnique | backend/internal/store/dynamo/keys.go:8-47 | A table determines users, devices, pairings, invites, pages and idempotency keys |
| Simulation.AppendEventSimulates | backend/internal/store/dynamo/store.go:459-468 | An appended event is one put, although the maps keep a sequence and the table one event per time and type |
| Dynamo.Store.PutUser | backend/internal/store/dynamo/store.go:82-91 | Moves table and maps alike |
| Dynamo.Store.GetUser | backend/internal/store/dynamo/store.go:93-112 | Answers as the maps do |
| Dynamo.Store.PutDevice | backend/internal/store/dynamo/store.go:116-125 | Moves table and maps alike |
| Dynamo.Store.ListDevices | backend/internal/store/dynamo/store.go:127-152 | The begins-with query finds exactly the user's devices, each once, and every record decodes |
| Dynamo.Store.DeleteDevice | backend/internal/store/dynamo/store.go:156-168 | Moves table and maps alike |
| Dynamo.Store.CreateInvite | backend/internal/store/dynamo/store.go:172-181 | Moves table and maps alike |
| Dynamo.Store.AcceptInvite | backend/internal/store/dynamo/store.go:204-256 | With the invite and the creator read from the table as it stood at each read, and the transaction on the table as it is, whatever other calls did in between, has the effect of AcceptAcross on the maps of those three moments |
| Dynamo.AcceptWithoutInterference | backend/internal/store/dynamo/store.go:204-256 | If the three moments are one, that is the acceptance on the table |
| Dynamo.Store.CommitAccept | backend/internal/store/dynamo/store.go:218-254 | The transaction on the invite and creator read before it |
| Dynamo.AcceptAgrees | backend/internal/store/dynamo/store.go:204-256 | Table and reference agree on an accept if and only if the invite is gone or expired, or its creator has a row, is not the accepter, and the clock is before the invite's last whole second |
| Dynamo.CommitUnderInterference | backend/internal/store/dynamo/store.go:218-254 | A transaction that goes through is the reference's accept at that instant if and only if the stored invite is live and from the creator that was read and that creator still has the name that was read; and the invite is spent |
| Dynamo.Store.GetPairing | backend/internal/store/dynamo/store.go:258-277 | Answers as the maps do |
| Dynamo.Store.ListPairings | backend/internal/store/dynamo/store.go:279-304 | The begins-with query finds exactly the user's pairings, each once |
| Dynamo.Store.BlockPairing | backend/internal/store/dynamo/store.go:306-329 | Moves table and maps alike |
| Dynamo.Store.CreatePage | backend/internal/store/dynamo/store.go:333-372 | The three-item transaction has the reference's effect and outcome |
| Dynamo.Store.GetPage | backend/internal/store/dynamo/store.go:398-411 | Answers as the maps do |
| Dynamo.Store.GetPageByIdempotencyKey | backend/internal/store/dynamo/store.go:377-396 | Answers as the maps do |
| Dynamo.Store.AckPage | backend/internal/store/dynamo/store.go:413-435 | The update under the generated condition has the reference's effect on every existing page |
| Dynamo.Store.SetPageState | backend/internal/store/dynamo/store.go:437-457 | The same for any list of states |
| Dynamo.TransitionsAgreeOnExistingPages | backend/internal/store/dynamo/store.go:413-457 | Table and reference agree on acks exactly for existing pages, on transitions exactly for existing pages and a non-empty list |
| Dynamo.Store.AppendEvent | backend/internal/store/dynamo/store.go:459-468 | Moves table and maps alike |
| Dynamo.Store.ListEvents | backend/internal/store/dynamo/store.go:470-495 | The last event of each time and type of the page, each once, in key order; chronological if and only if no two events of the timeline are misordered by their keys |
| Queries.ListingIsComplete | backend/internal/store/dynamo/store.go:470-495 | The listing has all events of the timeline if and only if no two share time and type |
| Queries.KeepsAllUnlessClash | backend/internal/store/dynamo/keys.go:33-35 | The table keeps as many events as the timeline has if and only if no two share time and type |
| Queries.DeviceAt | backend/internal/store/dynamo/store.go:127-136 | An item of a user's partition has the device prefix if and only if it is one of the user's devices |
| Queries.EventAt | backend/internal/store/dynamo/store.go:470-479 | An item of a page's partition has the event prefix if and only if it is one of the page's latest events |
| Cores.ConditionalWritesAgree | backend/internal/store/dynamo/store.go:413-457 | Fine: every conditional write of the protocol has on the table the outcome and effect the protocol step takes |
| Dynamo.Store.QueryPageIndex | backend/internal/store/dynamo/store.go:499-534 | One side's pages in or after the second of since, a hundred at most, the rearmost cut off |
| Dynamo.Store.ListPagesFor | backend/internal/store/dynamo/store.go:536-564 | Distinct matching pages that survive an index cut, newest first, exactly min(100, matching) of them, none of a later second left out; none newer at all if and only if the index cuts are harmless |
| Recency.MergeOmitsOlderSeconds | backend/internal/store/dynamo/store.go:536-564 | Two truncated indexes merged, sorted and truncated again leave out no page of a later second than a returned one |
| Recency.MergeIsExactIffHarmless | backend/internal/store/dynamo/store.go:536-564 | The merge is newest first to the nanosecond if and only if every page cut off its indexes has a hundred surviving pages that are not older |
| Recency.MergeCount | backend/internal/store/dynamo/store.go:546-563 | The merge returns each page once and exactly min(100, matching) of them |
| ListingGap.NewestPageCanBeCut | backend/internal/store/dynamo/store.go:510-563 | After a hundred and one creates inside one second the index cuts are not harmless and the newest page is on neither index, so that no result of ListPagesFor has it |
| Recency.ReadingsDifferBySecond | backend/internal/store/dynamo/store.go:503-508 | The two stores' readings of since differ exactly by the pages created at or before it in its own second |
| PageIndex.IndexHolds | backend/internal/store/dynamo/keys.go:36-44 | A query on an index ranges over exactly the records of the side's pages in or after the second of since |
| Condition.StateInCondition | backend/internal/store/dynamo/store.go:66-78 | Builds the IN expression and its value map in one loop |
| Condition.ConditionMeansMembership | backend/internal/store/dynamo/store.go:66-78 | Parsed and evaluated, with whatever further values, the expression is true if and only if the state is in the list; for an empty list it is invalid |
| Condition.PlaceholdersDistinct | backend/internal/store/dynamo/store.go:69-78 | Placeholders are pairwise distinct and never one of the fixed ones |
| Keys.KeyInjective | backend/internal/store/dynamo/keys.go:27-47 | No two entities share an address |
| Keys.AddressTexts | backend/internal/store/dynamo/keys.go:27-47 | One address of each kind of entity, letter by letter |
| Keys.TimedAddressTexts | backend/internal/store/dynamo/keys.go:33-38 | An event's address and an index key, letter by letter |
| Keys.EventSKInjective | backend/internal/store/dynamo/keys.go:33-35 | Event keys are injective in time and type |
| Keys.EventSKOrderExactly | backend/internal/store/dynamo/keys.go:33-35 | Event keys order as their instants do, except for two instants of one second whose earlier trimmed fraction is a prefix of the later one: exactly then the later comes first |
| Keys.IndexOrder | backend/internal/store/dynamo/keys.go:36-44 | Index keys order exactly as (second, id) does, for years 0 to 9999 |
| Keys.SinceSelects | backend/internal/store/dynamo/store.go:504-508 | The bound selects exactly the pages in or after the second of since, so none created after since is lost |
| Timestamps.CivilOrder | backend/internal/store/dynamo/keys.go:36-38 | Calendar fields order as seconds do |
| Timestamps.CalendarIsGregorian | backend/internal/store/dynamo/keys.go:36-38 | The date and time of every second of the years 0 to 9999 has the month lengths of the Gregorian calendar, and counting it in closed form gives the second back |
| Timestamps.CivilOfSeconds | backend/internal/store/dynamo/items.go:19-27 | Every date and time is that of one second |
| Timestamps.EpochIs1970 | backend/internal/store/dynamo/items.go:19 | The Unix epoch is the first instant of 1970, and how it is printed, with and without a fraction |
| Timestamps.FractionIsShortest | backend/internal/store/dynamo/items.go:19 | A printed fraction has one to nine digits and ends in one other than zero |
| Timestamps.FormatOrder | backend/internal/store/dynamo/keys.go:36-38 | Printed whole seconds are of one length and order as the seconds do |
| Timestamps.NanoRoundTrip | backend/internal/store/dynamo/items.go:19-27 | Parsing undoes printing with nanoseconds and trimmed zeros (section 5.6 of RFC 3339) |
| Timestamps.FractionOrder | backend/internal/store/dynamo/items.go:19 | Inside one second printed fractions order as the instants do if and only if the earlier one is not a prefix of the later one |
| Queries.ChronologicalExactly | backend/internal/store/dynamo/store.go:470-495 | A listing of a page's events is chronological if and only if no two events of the timeline are misordered |
| Queries.ListingCanMisorder | backend/internal/store/dynamo/store.go:470-495 | A page created on the whole second whose next event falls into the same second is never listed in order |
| Items.PageRoundTrip | backend/internal/store/dynamo/items.go:168-218 | A page survives its record, acked or not |
| Items.PageRecordTexts | backend/internal/store/dynamo/items.go:168-193 | A new page's record, field by field |
| Items.KeptForNinetyDays | backend/internal/store/dynamo/items.go:15-17 | Pages and events carry a TTL ninety days after their own instant |
| Items.StateTexts | backend/internal/model/model.go:12-20 | The stored names of the states, in the order of the lifecycle |
| Items.KindTexts | backend/internal/model/model.go:31-36 | The stored names of the pairing states and of the event types |
| Items.EventRoundTrip | backend/internal/store/dynamo/items.go:236-254 | An event survives its record |
| Items.InviteRoundTrip | backend/internal/store/dynamo/items.go:128-145 | An invite survives its record |

## Left out

- ProtocolTheorems.AckRepliesAgree: speaks of the stored time and note, not of the encoded reply body.
- DeterminedApi.AnsweredCreateIsHandle: about creates whose enqueue succeeds; a failed one is a lost handler of the fine protocol, and Uninterrupted.UninterruptedCreate covers it in the other direction.
- NoOrphan.NoOrphanedPage: assumes that no committed handler is lost and that its Enqueue succeeds; the CrashGap lemmas say what happens otherwise.
- SerialTheorems.DeliveriesAreBounded: assumes that Enqueue succeeds in serial runs, because a failed one ends the nag (CrashGap.FailedEnqueueEndsTheNag), and bounds duplicates and failures by an allowance that is part of the configuration.
- SerialTheorems.TimelineReplays: asks that the appends of the page itself succeed, because the code only logs a lost event.
- Api.AcceptKnowsTheCaller: the creation time of a new row and the check of the invite are one clock reading here and two, a store call apart, in the code.
- Dynamo.Store.ListEvents: events of one time and type collapse to the last one, which Queries.ListingIsComplete makes exact.
- Timestamps.NanoRoundTrip: covers UTC instants of years 0 to 9999; offsets and years with more digits are not part of this model.
- Items.EventRoundTrip: event types are the six the code writes, not arbitrary strings.
- Fake.Store.ListDevices: the order of a listing is arbitrary, as it is for a Go map.
- AWS calls, HTTP routing, JSON bodies, identity and claims, the push client, the canary and the deployment stack.
- Field validation, display names, invite codes, status codes and response shapes.
- Eventually consistent reads, TTL sweeps, response-size paging of queries, message loss and the dead-letter limit.
- Device registration, invite creation and the plain read handlers: one store call each.
- The mutex of the in-memory store: its methods are atomic by construction here.
- Aliasing of slices and maps returned by the in-memory store.
