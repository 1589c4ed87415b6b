# The transactional-outbox billing pipeline in Dafny

Three services turn running sandbox sessions into charges. The usage service cuts billing chunks
from a session row and stores each as an outbox row in the same database transaction that moves the
session's `last_billed_at` and `billing_sequence`. The outbox publisher leases outbox rows, sends
them to Kafka, and marks them published. The billing processor receives the messages, submits them
to Metronome under the idempotency key `session_id:sequence`, announces them, and claims the event
in a table with a UNIQUE key.

This project states what those services promise together and proves it for every run: any number of
workers and deliveries, interleaved statement by statement, with failures and crashes at any point.

`dafny verify dfyconfig.toml` checks everything.

## How it is built

There are two layers.

**State machines.** Each service is a labelled transition system: a state, a datatype of actions, a
predicate `Enabled` that says when an action can happen, a function `Next` that says what it does,
and `CanRun`/`Exec` over sequences of actions. An external call that may fail has an action for the
failure too, and a send whose acknowledgement is lost has one that puts the message on the topic
all the same. One Postgres statement is one action; a transaction that dies loses what it wrote, a
Kafka send is never taken back.

| file | machine or result | what its actions are in the source |
|---|---|---|
| `Model.dfy` | rows, payloads, messages | the columns in `pkg/repository/sql/db.go:86-142`, the gate in `outbox-publisher/service/events/service.go:48-57` |
| `Generation.dfy` | chunk generation | `CreateSession`; `ReadUnbilled`/`ReadForFinish` read a row outside any transaction and remember it; `CutChunk` computes the chunk from the remembered row; `CommitChunk` inserts and updates, guarded by the id alone; `RollBack` |
| `Tiling.dfy`, `Clock.dfy` | what generation adds up to | guards on overlapping windows, stale commits and the clock |
| `Publishing.dfy` | leases, sends, replays, resets | `TakeLease`, `CheckHit`/`CheckMiss`/`CheckFail`, `SkipInvalid`, `Send`/`SendFail`, `Record`, `Commit`, `Abort` are the statements of `processOnce`; `Reset` is the injector; `ReplayFetch`/`ReplaySend` the replayer |
| `Delivery.dfy` | delivery, duplicates, resets, marking | |
| `Starvation.dfy` | rows that are never leased | |
| `Serving.dfy` | rows that can be leased: pages of the oldest rows, a page handled without failures | |
| `Billing.dfy` | check, submit, announce, insert, commit | the statements of `ProcessBillingChunk`; `Deliver` may happen for any message, any number of times or never; `Die` is every failure |
| `SubmitOnce.dfy` | when an event is submitted at most once | |
| `Ledger.dfy` | Metronome keeps the first submission per transaction id | |
| `Ceiling.dfy` | the most that a ledger can hold for given rows | |
| `Pipeline.dfy` | all three side by side | |
| `Deployment.dfy` | the runs of the deployed pipeline | batch limit and workers (`outbox-publisher/cmd/main.go:91-98`), samples of 15, `REPLAY_ENABLED`, the consumer's offset |
| `Completion.dfy` | what the deployed pipeline can still charge, and what is lost | |
| `Charging.dfy`, `Overcharge.dfy` | the most a session can be charged, and when that is more than it was billed | |
| `TransactionId.dfy`, `Order.dfy` | the id format, the order of session ids | |

**Imperative services.** `UsageService.dfy`, `OutboxPublisher.dfy` and `BillingProcessor.dfy` hold
one class per service. Fields are the tables and topics, methods are the source's functions with
their loops, early exits and swallowed errors. Every method returns, as a ghost result, the run of
its machine that it performed, with `Exec(old(View()), run) == View()`. So everything proved over
all runs holds for what the loops do. `Paging.dfy` and `Cycle.dfy` hold the predicates and lemmas
their loops need. Failures come from `Faults.dfy`: each external call may fail as long as a budget
lasts, which makes "finitely many failures" a number that loops can be measured with, and "no
failure" the statement that the budget is unchanged. A log says which calls have failed, so that the
methods state exactly which failures they report, which ones cost a single row or session, and what
they do with everything else.

## What the results say

*Any interleaving, any clock.* No billing gap (`NoBillingGap`), sequence numbers closed under
prefixes (`SequencesArePrefixClosed`), published implies delivered, exact duplicate accounting,
disjoint leases and no UNIQUE conflict when recording, at most one claim per event with its own
submission and notice before it, and nothing is ever submitted but the contents of a committed,
valid chunk.

*As deployed.* Safety holds for every run above, however rows are leased and messages delivered. What
the pipeline can still do is stated over the runs of `Deployment.dfy`, which the code can take: a lease
is a page of the oldest rows, of at most the batch size and for a worker that has none; injector and
replayer pick random samples of 15; the replayer runs only if it is enabled; the consumer reads in order,
and a crash takes it back no further than the committed offset. From every state they reach, a row can
still be leased exactly when fewer refused rows are older than all workers together can hold
(`LeasableExactly`). With nothing under way, a valid chunk that was not submitted can still be charged
exactly when a message for it is still to be read, or its row can be leased and is not recorded yet, or
the replayer is enabled and the row is published or can be (`LostExactly`). The rest is lost: a starved
row, and without the replayer a message whose delivery failed. What is not lost is charged by some
continuation (`NothingIsLost`), so that without stale commits a session whose chunks are in order can
still be charged exactly what it was billed if and only if none of its chunks is lost
(`CompletionBillsExactly`, `BillableExactly`).

*The most a session can be charged.* For every run of the usage service, with stale commits and any
clock: of each sequence number the longest chunk that passes the gate, no more in any run of the
pipeline, and that much in some deployed run (`ChargedAtMost`, `CanChargeExactly`). A commit therefore
lets its session be charged for more than it is billed exactly when what could be charged before, and
what the new chunk is longer than the longest of its number, exceed the new last_billed_at - start_at
(`CommitOverchargesExactly`).

*No commit from a stale row, under any clock.* Sessions are tiled exactly (`TiledExactlyWhenFresh` is
an equivalence over all runs). The pipeline refines books in which each chunk is charged at most once,
and the ledger equals those charges (`PipelineRefinesBooks`, `LedgerIsTheCharges`). What a session is
charged and what is still to be charged add up to what it was billed (`LedgerAddsUp`), so it is never
charged more, as long as no chunk ends before it starts (`NoDoubleCharge`). Windows of one session that
never overlap are never stale (`SerialRunIsFresh`, `SerialisedRunsAreOrderly`). So with serialised sessions
and a clock that does not run backwards no session is overcharged in any run of the pipeline
(`NeverOvercharged`).

*What failures cost.* A failed send costs one row its turn and nothing else: the rest of the lease is
sent, recorded and published (`ProcessOnce`, `LossyPublishes`, `LossyLeavesLost`). A failed chunk costs
one session, which stays eligible (`ScanAndCreateOutboxEvents`); a failed finish leaves its session
active (`FinishActiveSessions`); a failed delivery leaves at most its own event unclaimed
(`StartConsumer`). Errors are reported exactly for the other failures, and leave the tables as they were
or, between transactions, as they had been committed. Whatever is submitted again, the ledger keeps what
the first submission stated (`LedgerOnlyGrows`).

*Where the code and its documents part.* The model follows the code; where a documented promise fails
there is a concrete run, and a theorem that says under which condition it holds.

- `DESIGN.md:28-32` announces `FOR UPDATE SKIP LOCKED` for the session scan; the code takes no lock,
  reads the session outside the transaction, and guards the update by id alone. `OverlapBreaksTiling`
  shows two overlapping chunks under one transaction id. The tiling holds exactly as long as every
  commit finds the cursor and the number that its window read (`CommitIsFresh`).
- `DESIGN.md:54-56` says that duplicates cannot cause double charges. `StaleCommitOvercharges` is a run
  of the deployed pipeline that charges 32 ticks for a session of 22. `CommitOverchargesExactly` has the
  condition for every commit of every run. For the first stale commit of a run it can be read off the
  session row (`FirstStaleCommitExactly`, and with a clock that advances between cuts `HarmlessStrictly`):
  the row has not moved since the read, or by one number only and without being billed past the end of
  the chunk at hand. That is no guard for later commits: in `HarmlessIsNotEnough` every commit meets it,
  and a session billed 24 is charged 35.
- Without stale commits a session can still be charged for more than last_billed_at - start_at when the
  wall clock steps back and a chunk ends before it starts: `StepBackOvercharges` charges 20 ticks to a
  session billed 5. `FreshChargeExactly` says that this is the only way.
- A session finished in the tick in which it was last billed gets an empty chunk, which the
  publisher's gate refuses for ever (`StandingClockCommitsEmpty`). `PublishableExactly` gives the
  condition for every chunk.
- `DESIGN.md:44` says that an already seen event is skipped before any external side effect. Two
  deliveries that both check before either claims submit twice (`RaceSubmitsTwice`), and so do two in
  sequence when the first dies after submitting (`DyingDeliverySubmitsTwice`). `SubmittedOnceExactly`
  and `GuardedRunsSubmitOnce` say when an event is submitted at most once: exactly when no attempt
  passes its check while another on the same event has passed or has submitted.
- Rows that the gate refuses stay unpublished and are leased again in every cycle. An idle worker has
  left no other row behind unless a full batch of refused rows, none of them younger, is in its way
  (`WorkUntilIdle`, `IdleMeansDrained`); and with a full batch of strictly older refused rows for each
  worker, a valid row is never leased at all (`StarvedForever`, with a concrete case in
  `ValidRowStarves`); with fewer it always can be (`LeasableExactly`). Between rows of the same
  created_at the order is the database's.
- The duplicate injector (`usage-service/service/outbox/service.go:236-238`) says that reset rows are
  sent again. They are not: the publisher's dedupe gate marks them without sending, and no worker ever
  sends a recorded event again (`ResetsAreAbsorbed`). Only the replayer duplicates messages.
- `DESIGN.md:22` selects with `<=`; the query uses `<`, and so does the model.
- `DESIGN.md:36` and `DESIGN.md:52` commit offsets after success only, and `DESIGN.md:42` promises that no
  event is lost; the consumer reads with `ReadMessage`, which commits, and goes on after errors. A message
  whose delivery fails is not read again, and a starved row is never sent: `LostExactly` says what is lost.
- A failed session of a scan page is passed over for good in that scan as soon as a later one of the
  page succeeds, because the cursor then moves past it; it stays eligible for the next scan. A page in
  which everything fails is fetched again, for as long as failures last. `ScanAndCreateOutboxEvents` says
  what is left behind: no more sessions than failures, each before one that got its chunk.

## Model

| member | source | states |
|---|---|---|
| `Generation.StepKeepsInv` | usage-service/service/outbox/service.go:143-234 | every step of either producer, from however old a snapshot, keeps each row version's cursor at start_at or at the end of an earlier committed chunk, and its number 0 or an emitted one |
| `Generation.RunKeepsInv` | usage-service/service/sessions/service.go:164-244 | the same over every run |
| `Generation.CommitContinues` | usage-service/service/outbox/service.go:205-226 | a committed row starts where its session started or where an earlier row of it ended, and follows an emitted number, even when the commit is stale |
| `Generation.CoveringRow` | usage-service/service/outbox/service.go:152-162 | below the end of any chunk of a session, every instant since its start lies in some chunk committed no later |
| `Generation.NoBillingGap` | usage-service/service/outbox/service.go:152-223 | for every run and interleaving: no instant between start_at and the largest To of a session is left unbilled |
| `Generation.EmittedDownTo` | usage-service/service/outbox/service.go:165-173 | an emitted number is preceded by all smaller positive ones |
| `Generation.SequencesArePrefixClosed` | usage-service/service/outbox/service.go:165-218 | the numbers emitted for a session are exactly 1..k, and the stored billing_sequence is 0 or one of them even after a stale commit |
| `Generation.FinishedIsCompleted` | pkg/repository/sql/usage_sessions.go:243-268 | over every run and interleaving: a session is finished exactly when its billing_status is COMPLETED, and exactly when it has an end_at; last_billed_at is never null |
| `Tiling.AdvancedIsTiled` | usage-service/service/outbox/service.go:211-218 | committing a chunk leaves its session tiled if and only if the session row still carries the cursor and number that were read |
| `Tiling.CommitTilesExactly` | usage-service/service/outbox/service.go:205-226 | the same for the whole table: one stale commit breaks the tiling, a fresh one never does |
| `Tiling.TiledExactlyWhenFresh` | usage-service/service/outbox/service.go:143-234 | over all interleavings, all sessions stay tiled throughout exactly when no commit of the run is stale |
| `Tiling.FreshStep` | pkg/repository/sql/usage_sessions.go:243-251 | a step that is not a stale commit keeps tiling, numbering and unique (session, sequence) keys |
| `Tiling.SerialRunIsFresh` | DESIGN.md:28-32 | runs in which windows of one session do not overlap have no stale commit |
| `Tiling.ExactTiling` | usage-service/service/sessions/service.go:181-240 | for every serialised run: chunks are numbered 1..billing_sequence, each From is the previous To, the first is start_at, the last To is last_billed_at, and lengths sum to it, or to end_at - start_at once finished |
| `Tiling.TilesTotal` | usage-service/service/outbox/service.go:152-162 | the lengths of tiling chunks sum to the interval they tile |
| `Tiling.OverlapBreaksTiling` | usage-service/service/outbox/service.go:107-118 | a concrete run of scanner and finisher: two overlapping chunks, both numbered 1, last_billed_at beyond end_at |
| `Clock.TimelyStep` | usage-service/service/sessions/service.go:171-195 | with a clock that does not run backwards, no interval is negative, none precedes the start, and last_billed_at is never null |
| `Clock.CommittedChunksArePublishable` | outbox-publisher/service/events/service.go:48-57 | with a strictly advancing clock every chunk either producer commits passes the publisher's gate |
| `Clock.PublishableExactly` | usage-service/service/sessions/service.go:189-205 | with a clock that may stand still: a chunk passes the gate exactly when the scanner cut it or the clock has moved since last_billed_at |
| `Clock.StandingClockCommitsEmpty` | usage-service/service/sessions/service.go:171-205 | a concrete run that commits an empty, unpublishable chunk |
| `Clock.ScannerNeverSeesAnEnd` | usage-service/service/outbox/service.go:159-162 | in no run does the scanner hold a row with an end_at, so its "bill until endAt" branch is never taken |
| `Clock.EachInstantBilledOnce` | usage-service/service/outbox/service.go:152-162 | serialised and timely: each instant of [start_at, last_billed_at) lies in exactly one chunk |
| `Publishing.StepKeepsInv` | outbox-publisher/service/events/service.go:107-213 | every statement of every worker, injector and replayer keeps: leases disjoint and unpublished, marks and records of a lease its own rows, one acknowledged message by a committed lease per recorded event |
| `Publishing.RunKeepsInv` | outbox-publisher/service/events/service.go:77-104 | the same over every run of any number of workers |
| `Publishing.CommitKeepsInv` | outbox-publisher/service/events/service.go:195-206 | a commit publishes and records only what this lease sent or found recorded |
| `Publishing.CommitLeavesOthers` | pkg/repository/sql/outbox_events.go:50-65 | a commit neither publishes nor records anything another open lease holds |
| `Publishing.MoreRowsKeepInv` | usage-service/service/outbox/service.go:205-208 | new outbox rows disturb no lease and no message |
| `Publishing.CategoriesAddUp` | outbox-publisher/service/events/service.go:170-176 | every message belongs to exactly one kind of sender |
| `Delivery.DeliveredMessage` | outbox-publisher/service/events/service.go:163-190 | a recorded event has a valid message on the topic with exactly its row's payload, sent by a committed lease |
| `Delivery.PublishedImpliesDelivered` | outbox-publisher/service/events/service.go:130-206 | published_at set implies recorded implies delivered and valid |
| `Delivery.ExactDuplicateAccounting` | outbox-publisher/service/events/service.go:163-206 | messages for an event = 1 if recorded + those of open leases + of aborted leases + of unacknowledged sends + of the replayer |
| `Delivery.RowIsNobodyElses` | pkg/repository/sql/outbox_events.go:56-65 | the event of a leased row is in no other open transaction's inserts |
| `Delivery.RecordNeverConflicts` | pkg/repository/sql/db.go:136-142 | the insert into processed_outbox_events never meets its UNIQUE constraint |
| `Delivery.ResetThenCycleRestores` | pkg/repository/sql/outbox_events.go:275-286 | after a reset, one fault-free cycle over the reset rows restores the set of published rows, sends nothing, records nothing |
| `Delivery.MarkBatchExactly` | pkg/repository/sql/outbox_events.go:217-254 | the rows-affected check passes exactly on lists of distinct, existing ids |
| `Delivery.MarkingInPieces` | outbox-publisher/service/events/service.go:196-202 | marking piece by piece reaches the same table as marking the whole list |
| `Delivery.LeaseMarksNeverFail` | outbox-publisher/service/events/service.go:196-202 | on the ids a lease collected the rows-affected check cannot fail, however they are cut |
| `Delivery.ChunkIDs` | outbox-publisher/service/events/service.go:215-221 | the pieces concatenate to the input, all but the last have exactly `size` ids, the last at most that; it ends for every positive size |
| `Billing.StepKeepsInv` | billing-processor/service/billing/service.go:183-251 | every statement of every attempt keeps: claims unique and preceded by their attempt's submission and notice, submissions true to a topic message, checks before claims |
| `Billing.RunKeepsInv` | billing-processor/service/billing/service.go:124-150 | the same over every run of overlapping deliveries |
| `Billing.UniqueStep` | pkg/repository/sql/db.go:125-132 | committed and pending claims never share an event id |
| `Billing.CommitIsServed` | billing-processor/service/billing/service.go:208-246 | when a claim commits, its own attempt has submitted the right usage and announced it |
| `Billing.ClaimsAreServed` | billing-processor/service/billing/service.go:226-246 | at most one claim per event, with the right columns, for a message of the topic, submitted and announced by its attempt |
| `Billing.SubmissionsCheckedFirst` | billing-processor/service/billing/service.go:193-211 | a submission is the usage of a topic message, the only one of its attempt, and its check came before the commit of any claim of the event |
| `SubmitOnce.GuardedRunsSubmitOnce` | billing-processor/service/billing/service.go:193-211 | every run of the pipeline in which no check passes against a rival submits each event at most once |
| `SubmitOnce.UnguardedCheckSubmitsTwice` | billing-processor/service/billing/service.go:193-211 | from every state with the invariant, after a check against a rival some event can be submitted twice without another check |
| `SubmitOnce.OneLiveExactly` | billing-processor/service/billing/service.go:193-224 | some event can be submitted twice without another check, whatever is produced, sent and delivered, exactly when two attempts on one event have passed or submitted |
| `SubmitOnce.SubmittedOnceExactly` | billing-processor/service/billing/service.go:193-224 | for every run of the pipeline: it is never on its way to a second submission exactly when all its checks are guarded |
| `SubmitOnce.RaceSubmitsTwice` | billing-processor/service/billing/service.go:193-211 | for every message: two overlapping deliveries submit the same usage twice |
| `SubmitOnce.DyingDeliverySubmitsTwice` | billing-processor/service/billing/service.go:209-211 | for every message: a delivery that dies after submitting, and a second one after it, submit twice |
| `TransactionId.RoundTrip` | billing-processor/service/billing/service.go:274 | parsing at the last colon recovers session id and sequence, for every string and every integer, and the id starts with the session id and a colon |
| `TransactionId.Injective` | billing-processor/service/billing/service.go:190 | equal transaction ids mean equal session and sequence, colons included |
| `Ledger.KeysAreTransactionIds` | billing-processor/service/billing/service.go:190 | rows have distinct (session, sequence) exactly when their transaction ids are distinct |
| `Ledger.KeptOncePerTransaction` | DESIGN.md:46-50 | the ledger has exactly one entry per transaction id ever submitted, and its entries are exactly what the first submissions of their ids stated |
| `Ledger.KeptAppend` | DESIGN.md:46-50 | a submission whose id is known leaves the ledger as it is; any other adds its usage at the end |
| `Ledger.KeptGrows` | DESIGN.md:46-50 | the ledger is append-only: whatever is submitted later, the entries there were stay as they are and where they are |
| `Ledger.SubmissionCharges` | DESIGN.md:46-50 | a submission charges its row and no other; a repeated one changes nothing |
| `Ledger.LedgerMatchesRows` | billing-processor/service/billing/service.go:271-312 | time charged to a session in the ledger = total length of its charged chunks |
| `Ledger.ChargedAtMostTotal` | DESIGN.md:54-56 | charged length is at most the total, and equal exactly when every chunk of positive length is charged |
| `Ceiling.AtMostLongest` | DESIGN.md:46-50 | no ledger for some rows, repeated numbers included, charges a session more than its longest valid chunk of each number |
| `Ceiling.LongestIsCharged` | DESIGN.md:46-50 | when only longest chunks of a session are submitted, and one of each number, it is charged exactly that |
| `Ceiling.MostCharged` | DESIGN.md:46-50 | no ledger for some rows charges a session more than x exactly when the longest valid chunks of its numbers add up to at most x |
| `Ceiling.SumLongestAppend` | usage-service/service/outbox/service.go:205-226 | one more row raises the most that can be charged by what its chunk is longer than the longest of its number |
| `Ceiling.KeyedSum` | billing-processor/service/billing/service.go:190 | with distinct keys the most that can be charged is the length of all valid chunks |
| `Pipeline.StepKeepsInv` | DESIGN.md:6-14 | every step of any service keeps the invariants of all three |
| `Pipeline.PublishedIsDelivered` | outbox-publisher/service/events/service.go:107-213 | over every run of the whole pipeline: published implies recorded implies delivered |
| `Pipeline.DuplicatesAreAccountedFor` | outbox-publisher/service/events/service.go:266-301 | over every run of the whole pipeline: exact duplicate accounting |
| `Pipeline.RecordedIsNeverSentAgain` | outbox-publisher/service/events/service.go:131-141 | in every run of the pipeline, once an event is recorded only the replayer adds messages for it |
| `Pipeline.ResetsAreAbsorbed` | usage-service/service/outbox/service.go:236-261 | every run of the pipeline keeps what is recorded and no worker sends it again; a run that leases only recorded rows adds no worker message and leaves processed_outbox_events as it is, with any chunks produced, resets, failures and replays |
| `Pipeline.LeasesExclude` | pkg/repository/sql/outbox_events.go:50-65 | over every run: open leases hold disjoint, unpublished rows, and recording meets no conflict |
| `Pipeline.ClaimsAreUniqueAndServed` | billing-processor/service/billing/service.go:193-246 | over every run: one claim per event, with its message's session, sequence and transaction id; its own attempt submitted under that id and announced the same event under it |
| `Pipeline.OnlyCommittedChunksAreSubmitted` | billing-processor/service/billing/service.go:271-312 | over every run: a submission states session, sequence, interval, customer and transaction id of a committed, valid chunk |
| `Pipeline.SubmissionsBillTheSession` | billing-processor/service/billing/service.go:271-312 | over every run: a submission bills the organization and sandbox of an existing session, a positive interval, and an emitted sequence number |
| `Pipeline.LedgerOnlyGrows` | DESIGN.md:46-50 | in every run of the pipeline, stale commits included: no later step changes, removes or reorders a ledger entry, and each is what the first submission of its id stated |
| `Pipeline.SerialisedRunsAreOrderly` | DESIGN.md:28-32 | serialised sessions satisfy the hypothesis of the ledger results, under any clock |
| `Pipeline.ProducedIsSerial` | usage-service/service/outbox/service.go:88-140 | a serialised run of the usage service, as its methods perform, is such a run of the pipeline |
| `Pipeline.EventAndTransactionIdsCorrespond` | usage-service/service/outbox/service.go:165-203 | over all outbox rows, event id and transaction id determine each other |
| `Pipeline.StepRefines` | billing-processor/service/billing/service.go:183-251 | each step is, on the books, nothing, one new chunk with a new key, or the first and only charge of a valid chunk |
| `Pipeline.RunRefines` | DESIGN.md:42-56 | every run without stale commits is step by step a run of the books |
| `Pipeline.PipelineRefinesBooks` | DESIGN.md:42-56 | from the empty start: the books start empty and take only legal steps |
| `Pipeline.LedgerIsTheCharges` | DESIGN.md:46-50 | the ledger has no two entries for one transaction id, each entry is a charged valid chunk's usage, each charged chunk has its entry |
| `Pipeline.LedgerAddsUp` | DESIGN.md:54-56 | under any clock: charged + still to be charged = last_billed_at - start_at, for every session |
| `Pipeline.NoDoubleCharge` | DESIGN.md:54-56 | as long as no chunk of the session ends before it starts, it is charged at most last_billed_at - start_at, and exactly that when every chunk of positive length has been charged |
| `Pipeline.ProducedBy` | usage-service/service/outbox/service.go:88-140 | what the usage service does in a run of the pipeline is a run of it alone, with the same tables |
| `Pipeline.TimelyIsForward` | usage-service/service/outbox/service.go:152-162 | with a clock that does not run backwards, starts in the past and ids present, every chunk is in order and named |
| `Pipeline.NeverOvercharged` | DESIGN.md:54-56 | end to end: serialised sessions and a clock that does not run backwards, so no session is charged more than it was billed, and exactly that when every chunk of positive length has been charged |
| `Serving.HandlePage` | outbox-publisher/service/events/service.go:107-213 | a page can be handled so that all its valid rows are recorded and published, and what is newly recorded has a new message |
| `Serving.LeaseRow` | outbox-publisher/service/events/service.go:60-104 | when the workers without a lease can hold more rows than older refused ones are free, some run of theirs leads to a page with the row |
| `Serving.PublishRow` | outbox-publisher/service/events/service.go:60-104 | with nothing under way and few refused rows before it, a valid row can be published |
| `Deployment.LeasableExactly` | pkg/repository/sql/outbox_events.go:56-65 | from every state with the invariant: a row can still be leased exactly when fewer refused rows are older than all workers together can hold |
| `Deployment.LeasableFromReachable` | outbox-publisher/service/events/service.go:60-75 | the same from every state that the deployed pipeline reaches |
| `Deployment.Replay` | outbox-publisher/service/events/service.go:266-301 | with the replayer enabled, a published row can be sent again |
| `Deployment.ConsumeAll` | billing-processor/service/billing/service.go:124-150 | the consumer can read the topic to its end and submit exactly the messages of chosen, unclaimed events |
| `Completion.SendRow` | outbox-publisher/service/events/service.go:107-213 | an unrecorded row that can be leased, or with the replayer a row that is published or can be, gets a new message |
| `Completion.NothingIsLost` | DESIGN.md:42-56 | from every state the deployed pipeline reaches, and any offset: some continuation charges every chunk whose message is unread or can still be sent; with the replayer and few refused rows, every valid chunk |
| `Completion.LostExactly` | billing-processor/service/billing/service.go:133-148 | with nothing under way: a valid chunk without a submission can still be charged exactly when a message for it is unread or can still be sent |
| `Completion.CompletionBillsExactly` | DESIGN.md:42-56 | without stale commits, some continuation charges exactly what it was billed every session with ordered, named chunks of which none is lost |
| `Completion.BillableExactly` | DESIGN.md:42-56 | without stale commits and with nothing under way: a session with ordered, named chunks can still be charged exactly what it was billed if and only if none of its valid chunks is lost |
| `Completion.ValidRowStarves` | outbox-publisher/service/events/service.go:163-169 | a concrete table, produced by a run of the usage service, whose valid row is never leased and never charged |
| `Charging.ChargedAtMost` | DESIGN.md:54-56 | in every run of the pipeline, however deployed: a session is charged at most its longest valid chunk of each number |
| `Charging.ChargeLongest` | DESIGN.md:54-56 | some run of the deployed pipeline charges it exactly that, if its valid rows can be leased |
| `Charging.CanChargeExactly` | DESIGN.md:46-56 | for every run of the usage service: the deployed pipeline can charge a session more than x exactly when the longest valid chunks of its numbers add up to more |
| `Overcharge.CommitOverchargesExactly` | usage-service/service/outbox/service.go:205-226 | for every commit of every run, stale or not: the session can be charged for more than it is then billed exactly when the most that could be charged and what the new chunk adds to it exceed last_billed_at - start_at |
| `Overcharge.FreshChargeExactly` | DESIGN.md:54-56 | for every run without stale commits: the deployed pipeline can charge the session for more than it was billed exactly when some named chunk ends before it starts |
| `Overcharge.FreshRunRemembers` | usage-service/service/outbox/service.go:107-118 | each open window remembers a boundary of its session's chunks together with its number |
| `Overcharge.FirstStaleCommit` | usage-service/service/sessions/service.go:166-183 | from a state without stale commits, after any commit the most that can be charged is within what is billed exactly when the commit is harmless |
| `Overcharge.FirstStaleCommitExactly` | usage-service/service/sessions/service.go:166-183 | for the first stale commit of a run, ids present and no chunk ending before it starts: the session can be overcharged exactly when its row moved by more than the next number or was billed past the chunk's end |
| `Overcharge.HarmlessStrictly` | usage-service/service/outbox/service.go:165-218 | for the first stale commit, with chunks of positive length: billing_sequence and last_billed_at decide |
| `Overcharge.HarmlessIsNotEnough` | usage-service/service/outbox/service.go:165-218 | a run with an advancing clock whose every commit is harmless in that sense, one of them stale: 35 ticks are charged, last_billed_at - start_at is 24 |
| `Overcharge.StaleCommitOvercharges` | usage-service/service/sessions/service.go:166-183 | a run of the deployed pipeline: a finisher that read early commits late, and 32 ticks are charged for a session of 22 |
| `Overcharge.StepBackOvercharges` | usage-service/service/sessions/service.go:171-205 | a serialised run whose clock steps back, in a run of the deployed pipeline: 20 ticks are charged, last_billed_at - start_at is 5 |
| `Paging.CursorMovesOn` | usage-service/service/outbox/service.go:103-127 | moving the cursor to a billed id strictly shrinks the set of ids beyond it |
| `Paging.BilledInPage` | usage-service/service/outbox/service.go:117-127 | a billed session leaves the rest of the page untouched and ahead of the cursor |
| `Paging.PageLeavesFailures` | usage-service/service/outbox/service.go:116-127 | what the cursor has passed without a chunk after a page was passed before it, or is one of the page's failures |
| `Paging.EmptyPageEndsScan` | usage-service/service/outbox/service.go:107-114 | an empty page means that everything eligible at the start has its chunk or has been passed by the cursor |
| `Paging.ScanOutcome` | usage-service/service/outbox/service.go:88-140 | no session gets two chunks in a scan; one that gets none keeps its row and stays eligible. Without an error the sessions eligible at the start without a chunk are at most as many as the failures, and each comes before a session that got one |
| `Paging.ShortPageLeavesFailures` | usage-service/service/sessions/service.go:338-341 | after a short batch, what is still active is exactly what failed in it |
| `UsageService.Service.CreateSession` | usage-service/service/sessions/service.go:80-147 | inserts one active session with last_billed_at seeded to start_at and billing_sequence 0; or it fails, exactly when its insert or the drawing of its id did, and changes nothing |
| `UsageService.Service.CreateOutboxEvent` | usage-service/service/outbox/service.go:143-234 | commits the chunk and the session update together, or neither: it fails exactly when one of its calls does. The chunk goes on from last_billed_at with the next number up to a later reading of the clock, and the row moves to its end and is otherwise unchanged |
| `UsageService.Service.FinishSession` | usage-service/service/sessions/service.go:164-244 | commits the last chunk and the finished session together, or neither; without an error the session ends where the chunk ends and its billing_status is COMPLETED |
| `UsageService.Service.CountUnbilledUsageSessions` | pkg/repository/sql/usage_sessions.go:15-32 | counts the sessions eligible now |
| `UsageService.Service.GetUnbilledUsageSessionsAfterCursor` | pkg/repository/sql/usage_sessions.go:141-195 | the first `limit` eligible rows past the cursor, in id order |
| `UsageService.Service.BillPage` | usage-service/service/outbox/service.go:116-127 | a page uses up ids beyond the cursor or failures; its rows without a chunk are at most as many as the failures, and the cursor stays or stops at a row of the page |
| `UsageService.Service.ScanRound` | usage-service/service/outbox/service.go:106-127 | ids beyond the cursor + remaining failures strictly decreases with every round that is not the last; it reports an error exactly when the fetch fails; and it is the last without an error only when everything eligible at the start has its chunk or has been passed |
| `UsageService.Service.ScanAndCreateOutboxEvents` | usage-service/service/outbox/service.go:88-140 | the scan ends and reports an error exactly when the count or a fetch fails. At most one chunk per session. Without an error, the sessions eligible at the start that get none are at most as many as the failures, and each comes before a session that got one; they keep their rows and stay eligible |
| `UsageService.Service.GetActiveSessionIDs` | pkg/repository/sql/usage_sessions.go:52-81 | the first `limit` active ids by start_at; an error exactly when the limit is negative or the fetch fails |
| `UsageService.Service.FinishPage` | usage-service/service/sessions/service.go:326-334 | finished + failed = ids of the page, the failed ones are untouched and at most as many as the failures |
| `UsageService.Service.FinishActiveSessions` | usage-service/service/sessions/service.go:297-346 | finished + still active = active at the start; with no error and a positive batch size those still active are exactly the failures of the last batch, at most one per failure; an error is exactly a failed count or fetch, or a negative batch size with something to finish |
| `Order.Transitive` | pkg/repository/sql/usage_sessions.go:152-153 | the order of ids is transitive |
| `Order.Total` | pkg/repository/sql/usage_sessions.go:152-153 | any two ids are ordered or equal |
| `Order.Least` | pkg/repository/sql/usage_sessions.go:153 | finds the least id |
| `Cycle.CycleHandlesExactly` | outbox-publisher/service/events/service.go:130-193 | a cycle sends exactly the valid, unrecorded rows of its batch and marks exactly those and the recorded ones, each once |
| `Cycle.OneMessageEach` | outbox-publisher/service/events/service.go:170-176 | sending distinct rows adds one message for each of their events and none for any other |
| `Cycle.TurnMakesProgress` | outbox-publisher/service/events/service.go:130-193 | a fault-free turn of the loop extends what was sent, recorded and marked by exactly the row at hand |
| `Cycle.LossyTurn` | outbox-publisher/service/events/service.go:130-193 | a turn in which at most the send fails: what is recorded stays exactly what was acknowledged, what is marked exactly the rows recorded now or before, and one row more is lost if the send failed |
| `Cycle.LossyPublishes` | outbox-publisher/service/events/service.go:170-206 | a cycle in which nothing but sends failed publishes, besides what was published, exactly the rows of its batch that are recorded at its end |
| `Cycle.LossyLeavesLost` | outbox-publisher/service/events/service.go:170-177 | in such a cycle, of the valid rows not recorded before, as many are left unrecorded as sends failed |
| `Cycle.MarksAreNew` | outbox-publisher/service/events/service.go:196-202 | a commit that marks anything publishes rows that were not published |
| `Cycle.NothingMarked` | outbox-publisher/service/events/service.go:100-102 | a fault-free cycle that handled nothing leaves every leasable row refused or behind a full batch of older refused rows |
| `Cycle.ResetRowsComeBack` | pkg/repository/sql/outbox_events.go:275-299 | a reset row can be leased at once: the page that the query returns holds it, to be marked without being sent, or is full of rows none of them younger |
| `Cycle.IdleMeansDrained` | outbox-publisher/service/events/service.go:76-104 | with fewer refused rows than a batch holds, an idle worker has left no other row behind |
| `Starvation.HopelessIsNeverPublished` | outbox-publisher/service/events/service.go:163-169 | in no reachable state is a row that the gate refuses published or recorded |
| `Starvation.OlderGoFirst` | pkg/repository/sql/outbox_events.go:56-65 | a row behind as many strictly older leasable rows as a batch holds is in no batch |
| `Starvation.StarvedForever` | outbox-publisher/service/events/service.go:60-104 | for any number of workers: behind as many strictly older refused rows as they can hold together, a row is never leased in any run of the pipeline, whatever is produced meanwhile, and not published unless it was before |
| `OutboxPublisher.OldestFirst` | pkg/repository/sql/outbox_events.go:62-63 | the oldest rows first, at most `limit` |
| `OutboxPublisher.Publisher.GetUnpublishedOutboxEvents` | pkg/repository/sql/outbox_events.go:50-102 | leases the oldest unpublished, unlocked rows of the type |
| `OutboxPublisher.Publisher.ProduceBillingChunk` | outbox-publisher/service/events/service.go:170-176 | one message more, or a failed send that may have arrived |
| `OutboxPublisher.Publisher.SendAndRecord` | outbox-publisher/service/events/service.go:163-192 | an invalid row is skipped, a valid one sent, recorded and marked; a failed send passes over the row with marks and records as they were; an error is a failed insert after an acknowledged send |
| `OutboxPublisher.Publisher.HandleEvent` | outbox-publisher/service/events/service.go:130-193 | performs the statements of one turn; without failures a recorded row is marked without sending, a valid unrecorded one is sent, recorded and marked, any other is passed over; a failed send only passes over its row, a failed check dooms the transaction, and only a failed insert is an error |
| `OutboxPublisher.Publisher.HandleBatch` | outbox-publisher/service/events/service.go:130-193 | the loop performs a run that touches no committed table and no other lease; it reaches the end of the lease unless an insert fails, and when nothing but sends failed the records are exactly the acknowledged rows |
| `OutboxPublisher.Publisher.BatchMarkOutboxEventsPublishedTx` | pkg/repository/sql/outbox_events.go:217-254 | one update of all ids, or an error when the count is off |
| `OutboxPublisher.Publisher.MarkAll` | outbox-publisher/service/events/service.go:195-202 | the loop over the pieces marks exactly the collected ids; it fails only by a failed statement |
| `OutboxPublisher.Publisher.Conclude` | outbox-publisher/service/events/service.go:195-206 | marks, records and commits together, or rolls everything back |
| `OutboxPublisher.Publisher.ProcessOnce` | outbox-publisher/service/events/service.go:107-213 | an error is reported exactly when something other than a send failed, and changes neither table. Otherwise, of the valid unrecorded ones among the oldest leasable rows, as many as sends failed are passed over, the others are sent and recorded, and those and the rows recorded before are published; nothing else is, and without failures the messages are one each, in order |
| `OutboxPublisher.Publisher.WorkUntilIdle` | outbox-publisher/service/events/service.go:77-104 | the cycles up to the first that handles nothing end, and leave the worker idle in the sense above |
| `OutboxPublisher.Publisher.WorkerLoop` | outbox-publisher/service/events/service.go:76-104 | an error ends no more than its round: every round leases rows unless its fetch fails, and after more rounds than unpublished rows and failures together the worker has been idle in the same sense |
| `OutboxPublisher.Publisher.ResetRandomPublishedOutboxEvents` | pkg/repository/sql/outbox_events.go:275-299 | at most `limit` published rows become unpublished, fewer only when no more are published, and nothing else changes |
| `OutboxPublisher.Publisher.ReplayOnce` | outbox-publisher/service/events/service.go:266-301 | changes no table and adds only the replayer's messages; an error is exactly a failed fetch, and a failed send costs its own row only; without failures each of at most 15 published rows once, in the order chosen |
| `BillingProcessor.OneSubmissionPerEvent` | billing-processor/service/billing/service.go:193-246 | when submissions pair with claims, a newly claimed event has exactly one submission, one claimed before has none |
| `BillingProcessor.Processor.CheckIdempotency` | billing-processor/service/billing/service.go:254-269 | says whether the event is claimed at that moment, and remembers the moment |
| `BillingProcessor.Processor.SendToMetronome` | billing-processor/service/billing/service.go:323-342 | submits the message's usage, or fails and may have submitted it |
| `BillingProcessor.Processor.PublishBillingProcessed` | billing-processor/service/billing/service.go:345-370 | announces the event, or fails and may have announced it |
| `BillingProcessor.Processor.InsertProcessedBillingEventTx` | pkg/repository/sql/processed_billing_events.go:94-115 | inserts, or meets another delivery's claim |
| `BillingProcessor.Processor.ProcessBillingChunk` | billing-processor/service/billing/service.go:183-251 | a claimed event is left alone; otherwise submit, announce and claim once each; an error is reported exactly when a call fails, and then nothing is claimed and at most one submission made |
| `BillingProcessor.Processor.StartConsumer` | billing-processor/service/billing/service.go:124-150 | any deliveries with repeats: each is attempted, in order, whatever failed before it, and those whose event is unclaimed at the end are at most as many as the failed ones; without failures every delivered event is claimed and each event not claimed before is submitted exactly once |

## Left out

- Eventual billing: that a continuation exists is proved, not that the services take it; no fairness is assumed.
- The Kafka writer retries (`pkg/repository/kafka/connector.go:70-74`, MaxAttempts), so that one acknowledged write can leave two messages; an acknowledged send counts as one here. A second message is one more delivery, of which any number is allowed, but the duplicate accounting does not count it.
- Partitions: `Deployment.dfy` reads the topic as one, in order. In the safety results messages are delivered in any order.
- The moment an offset is committed is not a step: the results about the deployed pipeline take the committed offset as given.
- Order of messages per sandbox or session: workers lease independently and a later event may overtake a failed one, so `DESIGN.md:34` does not follow from the code.
- The imperative services run one operation at a time, with nothing interfering; interleaving, stale snapshots and concurrent transactions are in the state machines, over which the safety results are proved.
- The loops of the scanner, the finisher, the publisher and the replayer, and turns of them, are methods of their own (`ScanPages`, `BillPage`, `FinishPage`, `HandleBatch`, `ReplayAll` and the like), with the control flow of the source.
- A COMMIT whose outcome is unknown: the imperative services treat a reported failure as a rollback; in the machines a transaction may commit and its caller die.
- Payload encoding: marshalling is lossless and every stored payload can be decoded, so the skip on undecodable payloads is not modelled.
- Resource amounts (cpu, gpu, ram, disk, region, class), the `duration_hours` float, time zones and sub-microsecond precision: instants are integer ticks and a duration is To - From.
- 64-bit overflow of `sequence`, which grows by one per chunk.
- BIGSERIAL ids: an outbox row is known by its position, and the set of positions with published_at set stands for that column; gaps and the timestamp itself are not modelled.
- Outbox rows are never deleted, sessions are never deleted, and event_type is always the billing type: nothing in the three services does otherwise.
- Session ids are compared character by character; a database with another collation pages in another order, which the scan's argument does not depend on beyond transitivity and totality.
- Sessions are created with status empty or ACTIVE, as all callers do.
- Metronome keeps the first submission per transaction id, as `DESIGN.md:50` relies on; its service is not part of this repository.
- Tickers, sleeps, contexts and signals: a periodic loop is an actor that may step at any time.
- The analytics exporter, the migration service, the `cmd` mains, configuration, statistics, the unused CRUD helpers and the consumer half of `pkg/repository/kafka/connector.go`: none takes part in the properties above.

