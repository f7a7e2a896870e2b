# A verified model of the mulac work queues

The repository moves messages through four PostgreSQL tables that share one leased work-queue protocol: the
inbox, the commands, the events and the outbox. A worker reserves the earliest due rows under a fresh token,
works on each inside its own unwind boundary, and then completes or fails it; a sweep releases leases whose
worker disappeared. Around the tables stand the broker intake, the command dispatcher, the kernel's
registries and the confirmed publisher. This project models all of these and proves what they keep over
every run: any number of workers, sweepers and recorders, late workers, crashes, and transactions that commit
although the caller is told they failed.

`dafny verify dfyconfig.toml` checks the whole project.

## How it is built

- `Queue` is the heart: a row, one pure step `Next` over the table, the clock and the tokens drawn, and runs
  `Exec`. A `Kind` selects the inbox, command, event or outbox rules (backoff cap, exhausted schedules,
  required metadata, the error column). A step that cannot commit leaves the table alone, so every sequence
  of events is a run.
- `Repository` is the class with the table as a field. Its methods follow the repositories' methods, loops and
  guards, and each is proved to be exactly one step, or no step when the transaction rolls back.
- `ErrorHistory`, `Metadata` and `Schedule` hold the value-level rules: the `extra_info` column, the metadata
  written and read, the retry delays. `Fields` says in plain values what a reservation reads from a row and what
  each transaction leaves in every field.
- `Leases`, `Ledger`, `Transactions`, `Fairness` and `Quiescence` prove the laws of a queue over all runs.
- `Consumer` and `Batch` are the item boundary and the batch loop over the class; `Workers` gives each claim a
  program counter, and `Passes` proves the two views of one item equal.
- `Intake` is the worker loop in front of the inbox and `Kernel` holds the registries. `Lineage`, `Links` and
  `Pipeline` stack intake, inbox, commands, events and subscribers; `Dispatching` ties the dispatch loop to the
  moves in `Links`, and `EndToEnd` follows a delivery through them all. `Publisher` and `Delivery` put the broker behind the outbox.

Assumptions. PostgreSQL's `now()` does not decrease from one committed transaction of a table to the next.
Generated UUIDs are distinct (section 5.7 of RFC 9562): a reservation's token and an output's id were not used
before. JSON text written to `jsonb` and read back gives the same value; numbers are held exactly by serde_json or
rejected by it, and columns nest below its depth limit, also with one more level around them. (An integer beyond
64 bits that serde_json would turn into a float, and a column at the depth limit, are outside the model.)
Formatted strings are kept symbolic.

## Findings

- A column that decodes but holds a number serde_json cannot represent outside `errors` loses its readable
  errors to `quarantined_extra_info` on the first recorded failure, while a sweep keeps them
  (`ErrorHistory.QuarantineCanHideReadableErrors`). Under the assumptions on JSON above,
  `FailureExtendsHistoryIff` and `SweepAgreesIff` give the exact conditions. Columns that the code itself writes
  always meet them.
- The timeout policies say that consumers and sweepers must use the same retry limit. For the outbox's retry-time
  bound less suffices: no reservation allows more attempts than a failure or sweep before it did
  (`Ledger.NeverRaised`; for a row that was not recorded healthy, earlier reservations count too). The outbox
  keeps the old schedule of an exhausted row, so until the backoff has passed such a row is claimable exactly when
  the limit has risen past its attempts (`Ledger.RaisedLimitSkipsBackoff`), and for any two limits there is a run
  in which raising the one to the other breaks the bound (`Ledger.RaisedLimitBreaksBound`). The other three queues
  need no such rule.
- The command and event sweeps have no cap, so from the fifth attempt on a timed-out row waits longer than a
  failed one (`Schedule.SchedulesAgreeIff`).
- Older design notes (`docs/pluggable-db-backends.md`) move exhausted rows to `Dead`. The code leaves them
  `Failed` with all attempts used, and so does the model.
- A broker message without a well-formed `message_id` is stored once per delivery (`Intake.OneRowIff`).

## Model

| member | source | states |
|---|---|---|
| ErrorHistory.RepeatedFailures | libs/outbox/src/infra_diesel/reservation.rs:196-220 | for any column and any list of reasons, the errors end as the readable original ones followed by the reasons, other members are kept, and quarantining happens on the first failure or never |
| ErrorHistory.FailureExtendsHistoryIff | libs/outbox/src/infra_diesel/reservation.rs:200-220 | one failure extends the readable history by exactly its reason iff the column is kept in place or had no readable error |
| ErrorHistory.QuarantineCanHideReadableErrors | libs/outbox/src/infra_diesel/reservation.rs:194-220 | a concrete decodable column whose readable errors a failure hides |
| ErrorHistory.SweepAgreesIff | libs/outbox/src/infra_diesel/repository.rs:269-272 | the sweep's `jsonb_set` computes what a recorded failure computes exactly on the columns a failure does not quarantine |
| ErrorHistory.SweepKeepsDecodable | libs/commanding/src/infra_diesel/repository.rs:247-253 | on a decodable column the sweep appends exactly its reason and keeps the rest; otherwise it errors, or stays undecodable unless `errors` was a bare string |
| Metadata.RoundTripIff | libs/outbox/src/application/models.rs:135-190 | every queue reads back unchanged exactly the metadata its write side accepts |
| Metadata.EventRoundTrip | libs/eventing/src/application/models.rs:14-24 | event metadata reads back unchanged iff its sequence is absent or in 1..i64::MAX |
| Metadata.OutboxRoundTrip | libs/outbox/src/application/models.rs:179-190 | the same for the outbox's metadata, member by member |
| Metadata.StoredMembers | libs/commanding/src/infra_diesel/conversions.rs:20-24 | the members that metadata is stored in, by name and value |
| Metadata.ReadsIff | libs/eventing/src/application/models.rs:14-24 | exactly which stored values each queue reads |
| Schedule.ExactInstants | libs/outbox/src/infra_diesel/reservation.rs:166-174 | the instant a failed and a swept row is due again, for every queue and every number of attempts |
| Schedule.SchedulesAgreeIff | libs/outbox/src/domain/reservation_timeout_policy.rs:15-30 | exactly when a failure and a sweep at one instant schedule a row alike, per queue, exhausted case included |
| Fields.DecodesIff | libs/outbox/src/infra_diesel/reservation.rs:48-60 | exactly which claimed rows decode, and the error of those that do not |
| Fields.ReadableIff | libs/inbox/src/infra_diesel/reservation.rs:41-47 | exactly which columns hold a readable error list |
| Fields.EnvelopeOfRow | libs/commanding/src/infra_diesel/reservation.rs:51-61 | the envelope carries the row's own id, token, attempts, payload, route, errors and metadata |
| Fields.FailureLeaves | libs/commanding/src/infra_diesel/reservation.rs:132-164 | every field of the table after a failure: one error more, the exact instant, the token-guarded row only |
| Fields.TimeoutsLeave | libs/outbox/src/infra_diesel/repository.rs:268-273 | every field of the table after a sweep: exactly the rows leased before the cutoff, each with its own instant and the timeout error |
| Fields.ReservationLeaves | libs/inbox/src/infra_diesel/repository.rs:69-116 | every field of the table after a reservation: exactly the picked rows, leased, or failed with the reason |
| Schedule.SweepIsNotEarlier | libs/commanding/src/domain/reservation_timeout_policy.rs:36-38 | on a claimed row a sweep never retries earlier than a failure |
| Schedule.TotalDelayClosedForm | libs/inbox/src/infra_diesel/reservation.rs:148-152 | before the n-th claim the delays sum to 15 n (n - 1) seconds, on the capped queues up to the fifth claim and then to two minutes more a claim |
| Repository.Repository.Record | libs/outbox/src/infra_diesel/repository.rs:21-38 | rejects missing metadata and bad sequences before storing, inserts the new row, field by field, once, and leaves an existing row alone |
| Repository.Repository.SelectCandidates | libs/outbox/src/infra_diesel/repository.rs:68-77 | the unlocked Received and Failed rows that are due and under the cap, up to the limit, none scheduled after one left out |
| Repository.Repository.Claim | libs/outbox/src/infra_diesel/repository.rs:78-99 | claims exactly the chosen rows and returns each once, as stored |
| Repository.Repository.FinishReservation | libs/outbox/src/infra_diesel/reservation.rs:83-116 | splits claimed rows into envelopes and failures, and says exactly when it errs; the token guards fire only on rows without the token |
| Repository.Repository.Reserve | libs/outbox/src/infra_diesel/repository.rs:55-119 | all or nothing, the error cases exactly; on Ok every picked row that decodes is returned once, with this token, its attempts plus one, its payload, route, errors and metadata, and every row's new fields |
| Repository.Repository.WriteFailure | libs/outbox/src/infra_diesel/reservation.rs:153-192 | the token-guarded failure update, its three results and nothing else changed |
| Repository.Repository.RecordFailure | libs/commanding/src/infra_diesel/reservation.rs:108-130 | fails the leased row from its stored attempts and history, or reports it as not owned |
| Repository.Repository.Completed | libs/outbox/src/infra_diesel/repository.rs:123-151 | the owned row's new fields if committed, and which of Ok, storage error and not-owned is returned |
| Repository.Repository.Failed | libs/outbox/src/infra_diesel/repository.rs:153-177 | the owned row's new fields if committed, and its exact result |
| Repository.Repository.StaleCandidates | libs/commanding/src/infra_diesel/repository.rs:218-224 | the stale rows, strictly older than the cutoff, each once, in id order |
| Repository.Repository.PlanOutcomes | libs/commanding/src/infra_diesel/repository.rs:230-237 | three vectors in step: the i-th status is Failed and the i-th schedule the exact instant for the i-th id |
| Repository.Repository.JoinOutcomes | libs/commanding/src/infra_diesel/repository.rs:239-266 | the joined update gives each stale row exactly its own outcome, leaves the others alone and counts the rows; it errs iff some column cannot be extended |
| Repository.Repository.Sweep | libs/outbox/src/infra_diesel/repository.rs:245-276 | the whole sweep is one per-row step, its count is the number of stale rows, and it changes nothing when it rolls back or cannot extend a column |
| Repository.SplitIsReserve | libs/outbox/src/infra_diesel/reservation.rs:89-115 | splitting row by row, in any returned order, is the per-row rule |
| Repository.SplitIsHealthyBatch | libs/outbox/src/infra_diesel/reservation.rs:96-97 | the returned envelopes are those of the rows still reserved by this token, each once |
| Repository.SplitsIff | libs/outbox/src/infra_diesel/reservation.rs:91-112 | the not-found guards never fire on rows the claiming update returned |
| Leases.TouchEffect | libs/commanding/src/infra_diesel/repository.rs:113-270 | every committed transaction leaves each row untouched, claimed, quarantined, completed, failed or timed out, in the state that says |
| Leases.RunKeepsInv | libs/outbox/src/infra_diesel/repository.rs:78-83 | over every run: Reserved iff a token and a reservation time, live tokens were drawn, leased rows have an attempt and decode; rows, clock and tokens only grow |
| Leases.AttemptsNeverOverflow | libs/eventing/src/infra_diesel/repository.rs:74-82 | a claim adds exactly one attempt, within the limit and so within i32 |
| Leases.LeaseIsExclusive | libs/commanding/src/infra_diesel/repository.rs:120-124 | while a row is leased only its holder's complete or fail, or a sweep past the timeout, changes it |
| Leases.LeaseNeverReturns | libs/commanding/src/infra_diesel/reservation.rs:118-130 | a lease that is over never becomes live again, in any continuation |
| Leases.LateWorkerIsPowerless | libs/commanding/src/infra_diesel/repository.rs:114-166 | completing or failing under an old token changes nothing, whatever happened in between |
| Leases.TerminalIsAbsorbing | libs/commanding/src/infra_diesel/repository.rs:120-138 | a Completed row is never changed again |
| Leases.AmbiguousCompletionStands | libs/commanding/src/execution/item_boundary.rs:50-61 | a completion that committed behind an error stands, although the same item then calls `failed`, after any interleaving |
| Leases.ClaimsHaveDistinctTokens | libs/inbox/src/infra_diesel/repository.rs:67-86 | all claims of a row in a run have distinct tokens drawn in it |
| Ledger.AttemptsCountClaims | libs/inbox/src/infra_diesel/repository.rs:82-89 | the attempt counter counts exactly the committed claims |
| Ledger.HistoryIsReasons | libs/inbox/src/infra_diesel/reservation.rs:70-101 | a row's history is every reason with which a lease of it ended, once each, in commit order |
| Ledger.ErrorsBalanceAttempts | libs/inbox/src/infra_diesel/reservation.rs:136-195 | stored errors number attempts minus one while Reserved or Completed, and attempts otherwise, in every reachable state |
| Ledger.ContentIsImmutable | libs/inbox/src/infra_diesel/repository.rs:82-89 | payload, route, metadata and receipt time never change |
| Ledger.FirstRecordWins | libs/commanding/src/infra_diesel/repository.rs:40-44 | however often and by whomever rows are recorded under one id, the first one's content stands |
| Ledger.RecordedRowsAreNeverQuarantined | libs/eventing/src/infra_diesel/reservation.rs:36-60 | a row the write side accepted decodes at every later reservation in every run |
| Ledger.RetryTimeLowerBound | libs/commanding/src/infra_diesel/reservation.rs:144-149 | the n-th claim comes at least the summed backoff after the first, whether attempts ended by failure, sweep or quarantine; on the outbox if no reservation allows more than an earlier failure or sweep did |
| Ledger.RaisedLimitSkipsBackoff | libs/outbox/src/infra_diesel/reservation.rs:173-174 | at any instant within its backoff, a failed or swept outbox row is claimable iff it exhausted the old limit and the new one is higher |
| Ledger.RaisedLimitBreaksBound | libs/outbox/src/domain/reservation_timeout_policy.rs:21-28 | for any due recorded outbox row and any two limits, a run that raises the one to the other and claims the row earlier than the bound allows |
| Transactions.OverlappingReservesCommit | libs/outbox/src/infra_diesel/repository.rs:68-76 | overlapping reservations claim disjoint rows and are valid in either commit order |
| Transactions.OverlappingReservesSerialize | libs/commanding/src/infra_diesel/repository.rs:61-78 | both commit orders of overlapping reservations leave the same table |
| Transactions.SecondSweepFindsNothing | libs/outbox/src/infra_diesel/repository.rs:263-266 | a second sweep at the same instant changes nothing |
| Transactions.SweepsNeverAbort | libs/outbox/src/infra_diesel/repository.rs:269-274 | no reachable leased row makes a sweep's update fail |
| Transactions.SweepsCountEachLeaseOnce | libs/commanding/src/infra_diesel/repository.rs:209-267 | over any run the counts of all sweeps add up to the number of distinct leases they ended |
| Fairness.NothingJoinsAhead | libs/outbox/src/infra_diesel/reservation.rs:166-176 | whatever happens to other rows, none newly gets ahead of a waiting due row |
| Fairness.PassingOverShrinksAhead | libs/outbox/src/infra_diesel/repository.rs:66-117 | a reservation that passes over a due row takes `limit` of the rows ahead of it |
| Fairness.ClaimedWithinBound | libs/outbox/src/infra_diesel/repository.rs:66-117 | no starvation: a due row is claimed within ahead / limit + 1 committed reservations |
| Fairness.OvertakenAtMostOnce | libs/outbox/src/domain/reservation_timeout_policy.rs:15-30 | every other row overtakes a waiting one at most once, and only if it was ahead |
| Quiescence.EveryChangeCosts | libs/eventing/src/infra_diesel/repository.rs:68-88 | every row a step changes lowers the potential 2 (max - attempts) + leased |
| Quiescence.RowChangesAreBounded | libs/eventing/src/infra_diesel/repository.rs:119-173 | without new rows a run changes rows at most as often as its initial potential |
| Quiescence.QuiescentIff | libs/eventing/src/infra_diesel/repository.rs:234-248 | no consumer, sweep or passing of time can change the table iff every row is settled |
| Quiescence.SettledMeansCompletedOrExhausted | libs/eventing/src/infra_diesel/repository.rs:71-73 | attempts never exceed the limit, and a row is settled iff it is Completed or is Failed with exactly the limit |
| Quiescence.QuiescentMeansDone | libs/eventing/src/infra_diesel/repository.rs:56-248 | after any run, consuming, sweeping and waiting can change nothing more iff every row is Completed or is Failed with all attempts used |
| Quiescence.QuiescenceIsReachable | libs/eventing/src/infra_diesel/repository.rs:56-248 | from every state of recorded rows some run without new rows gets there |
| Consumer.GuardedComplete | libs/outbox/src/execution/item_boundary.rs:44-49 | a completion that may commit, err or panic, and its result as the item sees it |
| Consumer.GuardedFail | libs/outbox/src/execution/item_boundary.rs:54-57 | the same for the failure |
| Consumer.RunItem | libs/outbox/src/execution/item_boundary.rs:30-62 | from the outcomes of work, complete and fail alone, under any interleaving: the table it leaves and its errors, none, the cause, or the finalization's own error then the cause |
| Consumer.NothingIsLost | libs/outbox/src/execution/item_boundary.rs:54-60 | a failed work's cause is always reported last, after the finalization error if that failed too |
| Passes.RunItemIsAPass | libs/commanding/src/execution/item_boundary.rs:30-62 | among any steps of all other passes, the item boundary and the worker's program counter change the queue alike, and completion ends the pass iff the item reports no error |
| Batch.NoErrorsIff | libs/outbox/src/execution/outbox_consumer.rs:74-80 | a batch reports no error iff every item's work and completion returned Ok |
| Batch.SuccessIsDurable | libs/outbox/src/execution/outbox_consumer.rs:54-60 | an item that succeeded is Completed and stays so |
| Batch.ItemsAreIsolated | libs/eventing/src/execution/event_consumer.rs:34-36 | while no other reservation takes its row, each item makes the transactions, reports the errors and leaves the row it would if no other item had completed or failed, whatever others, sweepers and the clock do |
| Batch.ProcessBatch | libs/commanding/src/execution/command_consumer.rs:32-34 | every item is run from where the one before ended, and the errors are the items' lists one after another |
| Batch.Consume | libs/outbox/src/execution/outbox_consumer.rs:38-72 | reserve and batch together: the table in every case; Ok(n) iff every entry succeeded, and then all n are Completed; otherwise all the items' errors in order |
| Workers.StepKeepsInv | libs/commanding/src/execution/command_consumer.rs:43-65 | every leased row has a pass, every Completed row one whose work returned Ok, and passes never outnumber attempts |
| Lineage.ForwardsIff | libs/inbox/src/application/conversions.rs:50-67 | exactly which messages are forwarded, each as one new row |
| Lineage.ExecutesIff | libs/commanding/src/execution/command_dispatcher.rs:52-77 | exactly which executions have events to store, as one new row each, in order |
| Lineage.CommandIsCaused | libs/inbox/src/application/conversions.rs:47-69 | the forwarded command carries the message's payload, type, source and correlation and names it as its cause |
| Lineage.EventsAreCaused | libs/commanding/src/execution/command_dispatcher.rs:46-77 | each event names the command as its cause and carries its correlation, or its id if it has none |
| Lineage.EventsAreCarried | libs/commanding/src/execution/command_dispatcher.rs:60-76 | the i-th row carries the i-th event's payload, type and sequence under the i-th id |
| Pipeline.StoredEventsAreValid | libs/commanding/src/execution/command_dispatcher.rs:54-59 | over every run, whatever event is stored comes from an execution all of whose sequences are valid |
| Lineage.Dispatch | libs/commanding/src/execution/command_dispatcher.rs:100-106 | with anyone at work in between, stores a prefix, stops at the first error, and returns Ok iff all were acknowledged |
| Dispatching.MovesAreDispatch | libs/commanding/src/execution/command_consumer.rs:52-57 | the moves of a pass store the prefix that the loop stores, and its work returns Ok iff the loop does |
| Dispatching.QuietDispatch | libs/commanding/src/execution/command_dispatcher.rs:102-104 | without others in between the loop leaves exactly the records of its stored prefix |
| Dispatching.FailedWorkBreaks | libs/commanding/src/execution/command_dispatcher.rs:100-102 | a handler error stores nothing and becomes the reason of the failure |
| Lineage.StoredCountIs | libs/commanding/src/execution/command_dispatcher.rs:102-104 | the stored prefix: all outputs before the first error, and that one too if its transaction committed |
| Links.ProducedIsCaused | libs/inbox/src/execution/inbox_consumer.rs:41-46 | what a pass produces from a recorded row can be recorded and names that row |
| Links.AdvanceKeepsLink | libs/inbox/src/execution/inbox_consumer.rs:31-52 | every interleaved move of a pass keeps both queues and the link: rows have a recorded origin, and a pass that returned Ok stored everything |
| Links.OneCommandPerPass | libs/inbox/src/application/conversions.rs:56-68 | two commands of one pass are one command |
| Links.CommandsFitAttempts | libs/inbox/src/execution/inbox_consumer.rs:39-52 | a message's commands number at most its attempts |
| Links.CompletedIsStored | libs/commanding/src/execution/command_dispatcher.rs:100-106 | a completed row had one pass all of whose outputs are stored |
| Pipeline.RunKeepsSysInv | kernel/src/lib.rs:358-417 | intake, inbox, commands, events and subscribers together keep all of the above over every run |
| Pipeline.InboxToCommands | libs/inbox/src/execution/inbox_consumer.rs:31-52 | two-queue at-least-once: at most attempts commands per message, at least one if Completed, each with its content and correlation |
| Pipeline.CausationIsOrigin | libs/inbox/src/application/conversions.rs:56-61 | if nobody else uses the message's id as a causation, the commands naming it are exactly those |
| Pipeline.EventsHaveCauses | libs/commanding/src/execution/command_dispatcher.rs:46-77 | no orphan events: each names an existing command and carries its correlation |
| Pipeline.ExecutionStoresPrefix | libs/commanding/src/execution/command_dispatcher.rs:100-106 | over every interleaved run an execution has stored its acknowledged events and at most the next |
| Pipeline.CompletedCommandsAreStored | libs/commanding/src/execution/command_dispatcher.rs:100-106 | a Completed command has every event of one execution stored |
| Pipeline.CompletedEventsAreServed | kernel/src/event_subscriber_registry.rs:31-41 | a Completed event had every subscriber of its type return Ok, one call after another in registration order, within one pass |
| EndToEnd.DeliveryReachesCommand | libs/inbox/src/amqp_consumption.rs:398-400 | an acknowledged delivery is an inbox row, and once that is Completed it caused a command with its content |
| EndToEnd.FirstDeliveryReachesCommand | libs/inbox/src/application/conversions.rs:26-69 | every command of a delivery has the payload, type, source and correlation of the first delivery stored under its id |
| EndToEnd.CallsAreDispatch | kernel/src/event_subscriber_registry.rs:31-41 | a pass over an event calls exactly whom the registry's loop calls, and its work returns Ok iff the loop does |
| Publisher.ConfirmedPublisher.Connect | libs/outbox/src/confirmed_amqp_publisher.rs:105-118 | a connection iff all three steps succeed, the error of the first that does not otherwise, and whether a connection was opened |
| Publisher.ConfirmedPublisher.PublishAsync | libs/outbox/src/confirmed_amqp_publisher.rs:69-103 | from the network alone: Ok iff connected, sent and acknowledged without a return, and which error otherwise; a connection stays cached iff Ok, and a cached one is reused |
| Publisher.ConnectionsAreReused | libs/outbox/src/confirmed_amqp_publisher.rs:75-101 | over any publishes, at most one connection is opened beyond the failed ones |
| Delivery.PublishMeans | libs/outbox/src/execution/outbox_consumer.rs:54-57 | from the network alone: what is published under a claim, with the broker's answer, and when its work returns Ok |
| Delivery.MessageIff | libs/outbox/src/application/conversions.rs:11-20 | exactly which rows have an outbound message, and which one |
| Delivery.NoMessageBreaks | libs/outbox/src/execution/outbox_consumer.rs:54-57 | a row without a message is not published, and its pass fails with the reason |
| Delivery.RunKeepsOutletInv | libs/outbox/src/execution/outbox_consumer.rs:52-60 | every publication is of the row its claim was for, one per pass |
| Delivery.PublicationsFitAttempts | libs/outbox/src/execution/outbox_consumer.rs:54-60 | a row reaches the broker at most once per attempt, always with its recorded payload and metadata |
| Delivery.CompletedIsPublished | libs/outbox/src/confirmed_amqp_publisher.rs:129-136 | a Completed row has a publication, unchanged and with a routing key that is not blank, that the broker answered with an acknowledgement and no return |
| Intake.WorkerLoop.StoreDelivery | libs/inbox/src/amqp_consumption.rs:391-396 | unless its id is taken the delivery becomes one row, field by field, under its own id or a drawn one |
| Intake.WorkerLoop.Next | libs/inbox/src/amqp_consumption.rs:251-276 | malformed deliveries are rejected one after another without stopping the loop |
| Intake.WorkerLoop.Take | libs/inbox/src/amqp_consumption.rs:390-408 | from the turn's fates alone: acknowledged iff the store returned Ok, handed back iff it did not, left alone if the task died, and how the turn ends |
| Intake.TurnsAreLogged | libs/inbox/src/amqp_consumption.rs:386-408 | the same for every turn of a run of the loop |
| Intake.NothingAfterEnding | libs/inbox/src/amqp_consumption.rs:409-421 | the turn that ends the loop is the last one taken |
| Intake.NothingIsStored | libs/inbox/src/amqp_consumption.rs:260-265 | a malformed delivery is never stored |
| Intake.WorkerLoop.Run | libs/inbox/src/amqp_consumption.rs:383-426 | the nested loops have the effect and the exit of their turns |
| Intake.ExitIsFirstEnding | libs/inbox/src/amqp_consumption.rs:386-425 | the loop ends exactly on cancellation, a lost transport, a dead task or a failed settlement, by the first such turn |
| Intake.IntakeLosesNothing | libs/inbox/src/amqp_consumption.rs:398-408 | over every run: acknowledged means stored, and text that was not stored is unacknowledged or handed back |
| Intake.RedeliveryKeepsFirst | libs/inbox/src/infra_diesel/repository.rs:31-36 | any redeliveries, and any other recorders of the id, leave one row with the first stored content |
| Intake.RedeliveryKeepsFirstDelivery | libs/inbox/src/amqp_consumption.rs:391-396 | where nobody else uses the id, that is the first delivery the loop stored |
| Intake.OneRowIff | libs/inbox/src/application/conversions.rs:26-44 | storing a message twice leaves one row iff it came with a well-formed id |
| Kernel.Validate | kernel/src/lib.rs:419-458 | accepts iff nothing is repeated, reserved or unsupported, and names the first offender |
| Kernel.HandlersAreRegistered | kernel/src/command_handler_registry.rs:20-29 | the registry knows exactly the registered types |
| Kernel.NoHandlerIsDropped | kernel/src/command_handler_registry.rs:12-16 | after validation the registry agrees with the registration list |
| Kernel.LastRegistrationWins | kernel/src/command_handler_registry.rs:12-16 | without validation a later registration replaces an earlier one of its type |
| Kernel.SubscribersAreRegistered | kernel/src/event_subscriber_registry.rs:11-27 | a type's subscribers are exactly its registrations, with multiplicity |
| Kernel.SubscribersKeepOrder | kernel/src/event_subscriber_registry.rs:17-22 | registration order is kept |
| Kernel.FromSubscribers | kernel/src/event_subscriber_registry.rs:11-27 | the filled map holds exactly that, for every event type |
| Kernel.Handle | kernel/src/event_subscriber_registry.rs:31-41 | calls subscribers in order up to the first failure, and returns Ok iff none failed |
| Kernel.DispatchEvent | kernel/src/event_subscriber_registry.rs:10-42 | registration and dispatch together reach the registered subscribers in order |

## Left out

- `OutboxProcessPort::dead`: an administrative call that no consumer makes; `Dead` rows are covered only as terminal.
- HTTP contracts and adapters, error reporting, configuration, status codes and packaging: one-branch claims.
- PostgreSQL, Diesel, lapin and tokio internals: a transaction is one step with a fate, `SKIP LOCKED` is a set of locked rows, and `RETURNING` gives the rows in any order.
- Serde's acceptance of arrays in place of structs, and of UUIDs in other than canonical form.
- JSON serialization errors, which are folded into a handler's error, and panics while decoding a row.
- The branch for a reserved entry without a reservation id, which decoding already rules out.
- The direct (non-persistent) command and event gateways and the non-strict AMQP publisher.
- Polling intervals, backoff sleeps and drain rounds: a run may wait anywhere.
- Undecodable status codes and unmapped columns such as the inbox's routing columns.
- Pipeline.SysNext: gives each table its own clock.
- Batch.ItemsAreIsolated: says nothing of an item whose row another reservation takes while the batch runs, because which rows that reservation takes depends on the other items.
- Publisher.ConfirmedPublisher.PublishAsync: does not model concurrent callers, because the source holds a mutex over the whole call.
