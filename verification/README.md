# Webhook to downstream: a verified model of the delivery pipeline

A Stripe event travels webhook handler → `processed_events` and `outbox_events` → publisher → Kafka topic →
worker → `consumer_completions` → downstream HTTP call. Three stores have to agree although every process may
stop between any two statements, every acknowledgement may be lost and any number of processes run at once.
This project models that pipeline and proves what it guarantees.

## How it is built

- `Completions.dfy`, `Ledger.dfy`: the SQL tables. Each write is one atomic statement; `AcceptEvent` and
  `ProcessEvent` are transactions whose first INSERT locks the event id until commit or rollback.
- `Handler.dfy`: `handleRecord` and the claim inside it as a machine with one step per statement and per
  network event. The claim is INSERT, SELECT, guarded UPDATE, and is not a transaction.
- `Pipeline.dfy`: the whole system as one state machine. An action is one statement, one broker call, one network
  answer or one crash of some webhook handler, publisher or worker; a run is any interleaving from empty,
  migrated tables. `History` records what happened and no action reads it. `NextDb`, `NextTable`, ... give the
  effect of an action store by store.
- `Invariants.dfy`, `Delivery.dfy`, `Ownership.dfy`, `Publishing.dfy`, `Runs.dfy`: what every action keeps.
- `Theorems.dfy`: the guarantees over all runs. `Sessions.dfy`: when a poll loop that never rewinds keeps them.
  `Recovery.dfy`: from every reachable state they can still be fulfilled. `Counterexamples.dfy`: runs that break them
  when a rule is dropped. `Episodes.dfy`: the short runs these two are put together from.
- `Verdicts.dfy`: a poll loop as a sequence of calls, and what downstream's answers make of the rows and the offset.
- `Store.dfy`, `Broker.dfy`, `Downstream.dfy`, `Worker.dfy`, `Publisher.dfy`, `Api.dfy`: the Go code as classes
  and methods that change those stores in place. A *plan* fixes what the environment does during one call: which
  statement fails, whether its effect was applied all the same, what the transport does, and which statements
  other sessions run just before each of ours. A method's contract equates its effect with the step machine
  run under the plan.
- `WorkerRefinement.dfy`, `PublisherRefinement.dfy`, `WebhookRefinement.dfy`: what those methods do is what the
  pipeline does, with other processes moving between any two of a method's steps. A run *follows* a plan when its
  own steps go as the plan says and the other processes' actions before each of them are what the plan lists there.
  Every run that follows a plan ends as the method does under that plan (`CallRefines`, `PollRefines`,
  `PublishRefines`, `WebhookRefines`), and every run follows some plan (`InterleavedCallHasPlan`,
  `InterleavedPollHasPlans`, `InterleavedPublishHasPlan`, `InterleavedWebhookHasPlan`). The own steps are possible
  whatever the others did, so a plan whose gaps others can carry out has its run (`PlannedCallIsRun`,
  `NextMovePossible`); only the rule on commit order may forbid one, on the commit itself.
- `Sequences.dfy`: facts about sequences.

A fault is `ErrLost` (error, no effect) or `ErrApplied` (error, although the effect was applied).

### Assumptions a theorem may name (`Pipeline.Rules`)

The two rules on fetches are asked for slot by slot, a slot being one partition as one consumer group reads it. Each
guarantee asks for them in the slot it speaks of, whatever is fetched from the others.

- `ackedStarts`: each batch fetched from the slot starts at or below its acked frontier. The poll loop never rewinds
  after a failed record, so "Kafka redelivers" (docs/branches/19-downstream-http.md:26) is an assumption on where the
  next batch starts. It holds where every batch starts at or below the committed offset, which an operator can see to
  (`CommittedStartsSuffice`). The loop as written does not see to it: within one session the client goes on where its
  last batch ended, which keeps the rule if and only if at each fetch all that was left of the last batch, from the
  record that returned false on, has been acked since (`SessionSafeIff`, and `NextBatchSafeIff` for one batch).
  `RuleOnStartsIsNeeded` is a run of the loop, with every other rule on, in which one retryable verdict loses an event
  that was answered 204; `CommitSafeIffStartAcked` shows that the rule is exactly what a commit needs.
- `oneOwner`: the slot is fetched by one worker at a time.
- `homeOnly`, asked for event by event: if other producers write readable records with the event's id, they write them
  to the event's own partition. They may write as many as they like there, and any records of other events anywhere.
- `soleProducer`: only publishers write to the topic. What they sent may also arrive late, after its send has reported
  an error or its publisher is gone. It implies `homeOnly` for all events (`SoleProducersSuffice`).
- `promptAppends`: no other producers, and nothing arrives late; the order of the partitions needs that.
- `onePublisher`: one publisher process. `inOrder`: accepts commit in the order of their outbox ids (BIGSERIAL ids may
  otherwise commit out of order).

A record is *acked* once its event is processed or a handler recorded a non-retryable verdict on it (its
`MarkConsumerFailed` returned without error). A `failed` row is not an ack: retryable failures write it too, and
any later claim takes it back. `processing` is not a lock: any number of workers may be granted `retry`, and without
`oneOwner` two of them can get a 2xx each with no fault in between (`TwoOwnersAnswerTwice`); so can the owners of two
partitions if a stray copy of an event lies in a second one (`StrayCopyAnswersTwice`). Without `inOrder` the copies of
an event need not be neighbours in the topic (`OutOfOrderPartsCopies`).

### Where the code and its documentation differ

- docs/branches/19-downstream-http.md:27 and :84 call a malformed job and a missing `stripe_event_id` permanent
  failures whose offset is committed. The code returns false for both (cmd/worker/main.go:112-121), so such a
  record stalls its partition: `PoisonStalls`. The webhook handler does not reject an empty event id, and with
  publishers as the only producers those are the only such records: `PoisonIffEmptyId`.
- docs/branches/19-downstream-http.md:83 lists 500-599 as retryable; the code treats every status from 500 up so,
  and every other status outside 200-299 but 429 as permanent.

## Model

| member | source | states |
|---|---|---|
| Theorems.NothingAcceptedIsLost | cmd/api/handlers.go:113-161 | End to end: every event answered 204 is pending in the outbox, or has a topic record at or above the committed offset, or is processed, or was rejected for good, in every reachable state with any number of processes, crashes, aborts and lost acknowledgements; only the event's own slot needs acked starts |
| Recovery.AnsweredCanBeSettled | cmd/api/handlers.go:113-161 | From every reachable state, whatever has crashed and failed before and whatever other producers wrote, some continuation without a new request or a further fault leaves processed, or rejected for good, every event answered 204 whose own slot has its batches start acked, holds no unreadable record at or above the committed offset and has no event with an empty id on its way to it |
| Theorems.CommittedIsAcked | cmd/worker/main.go:56-95 | Whatever commits fail, batches repeat or handlers crash, everything below a slot's committed offset is acked if the batches of that slot start acked |
| Theorems.CommittedStartsSuffice | cmd/worker/main.go:56-95 | For any set of slots, a run whose batches from them all start at or below the committed offset keeps the rule on batch starts in them, and so has all the guarantees that ask for it there |
| Sessions.NextBatchSafeIff | cmd/worker/main.go:56-95 | For a batch that started acked, in every reachable state and after whatever happens next, under any rules: going on behind it is safe if and only if all of it from the record that returned false on has been acked since |
| Sessions.SessionSafeIff | cmd/worker/main.go:56-95 | A whole run of a client that never rewinds keeps the rule on batch starts in a slot if and only if at each fetch all that was left of the slot's last batch has been acked since |
| Counterexamples.StartPastUnackedCommitsOverIt | cmd/worker/partition.go:5-17 | From any state with an unacked record, one clean batch that starts past it on a record of another event commits over it, leaving its row, its rejection, the outbox and the answers as they were |
| Counterexamples.StartPastLosesEvent | cmd/worker/main.go:78-86 | If the record skipped is the last one of an event that was answered 204 and published, the event is then lost: not pending, not at or above the committed offset, neither processed nor rejected |
| Counterexamples.RuleOnStartsIsNeeded | cmd/worker/main.go:56-95 | For any two events of one partition, any group and any retryable verdict there is a run from empty tables, under every other rule and with each fetch starting where the last one ended, in which both are accepted and published, the first delivery gets the verdict, the second is committed, and the first event is lost with its row failed |
| Counterexamples.TwoOwnersAnswerTwice | internal/store/postgres.go:258-271 | Without one owner per slot some run answers an event 2xx twice with no fault in between, under every other rule |
| Counterexamples.StrayCopyAnswersTwice | cmd/worker/main.go:130-157 | With one owner of every slot, some run in which another producer writes one copy of an event to any other partition answers the event 2xx twice with no fault in between |
| Counterexamples.OutOfOrderPartsCopies | internal/store/postgres.go:180-191 | Without the rule on commit order some run, with one publisher, has copies of an event apart in its partition |
| Theorems.DeliveryWaitsForPredecessors | cmd/worker/partition.go:8-17 | No delivery is attempted for a record before every record below it in the partition is acked, in each slot whose batches start acked |
| Theorems.PoisonStalls | cmd/worker/main.go:112-121 | An unreadable record keeps the committed offset of each slot whose batches start acked at or below it, and every delivery of that slot strictly below it, in all runs |
| Theorems.PoisonIffEmptyId | cmd/worker/main.go:118-121 | With publishers as the only producers a record is unreadable if and only if its event id is empty |
| Theorems.TrueMeansSettled | cmd/worker/main.go:124-165 | When handleRecord returns true its row is processed or failed at that moment, and the event is processed or this call recorded a non-retryable verdict, although the failed mark's flag is discarded |
| Theorems.OneTrueAfterOk | cmd/worker/main.go:149-165 | With any number of workers on one event, the calls that return true after a 2xx are no more than the processed marks that took effect, so at most one; a call whose mark matches no row never returns true |
| Theorems.DeliveriesWithinAttempts | internal/store/postgres.go:221-285 | With any number of workers on one event, deliveries never exceed attempt_count, which counts exactly the claim writes that took effect; failed marks equal reclaims plus the current failure; at most one processed mark; error is set exactly while failed |
| Theorems.NoDeliveryFromLaterClaims | internal/store/postgres.go:252-257 | Once processed, a row never changes again and every later delivery uses a claim that was already out, each at most once; with one owner of the event's own slot there is no later delivery, whatever other producers write, if they do not write this event to another partition |
| Theorems.AnsweredOnceUpToWindowFaults | cmd/worker/main.go:149-157 | With one owner of the event's own slot, the 2xx answers for an event are at most one plus the crashes and store errors between a 2xx and its mark, and reach that bound only if it is processed or its window is open: however many copies and refetches there are, whatever happens in other partitions and groups, and whatever other producers write, if they do not write this event to another partition |
| Theorems.SoleProducersSuffice | cmd/publisher/produce.go:14-18 | In every run with publishers as the only producers, late appends included, each event is read in its own partition only, so both bounds hold there for every event |
| Theorems.EffectHasCause | cmd/publisher/produce.go:14-18 | With publishers as the only producers, late appends included: every delivery and completion row has a topic record, every record is the payload of its event's outbox row under that event's key with that job id, outbox events are exactly the ledger events, once each |
| Theorems.OutboxInsertNeverConflicts | migrations/00002_ledger_accepted_and_outbox.sql:11-21 | The outbox INSERT of a transaction that inserted its ledger row passes the UNIQUE and the REFERENCES check in every run |
| Theorems.AppendsStutterOutbox | cmd/publisher/main.go:50-99 | With one publisher and in-order accepts, whatever others write to the topic: the outbox is published from its lowest id on, the publisher appends the published rows in id order, each at least once, then copies of the head pending row, and a mark always finds its row pending |
| Theorems.TopicStuttersOutbox | cmd/publisher/main.go:50-99 | Without other producers and late appends each partition holds exactly the appended events the hash sends there, in order; with one publisher and in-order accepts besides, every partition follows the outbox ids and copies are neighbours |
| Completions.Conservation | internal/store/postgres.go:217-321 | For every history of statements by anyone: attempts are effective claim writes, failed marks balance with reclaims, one processed mark at most, error exactly while failed |
| Completions.ProcessedAbsorbs | internal/store/postgres.go:291-296 | No history of statements changes a processed row |
| Completions.RowsPersist | internal/store/postgres.go:221-278 | No history deletes a row or lowers its attempts |
| Handler.ClaimStepRefines | internal/store/postgres.go:217-289 | In any interleaving each statement of a claim either changes nothing or is the whole atomic claim with the result returned; an error changes nothing unless its statement was applied and only the acknowledgement lost |
| Handler.ClaimRefines | internal/store/postgres.go:217-289 | A whole claim with other sessions' statements in between equals one atomic claim after them; without faults an error leaves only their effects |
| Handler.ClaimMeans | internal/store/postgres.go:221-288 | Each action says how the claim found the row (absent, processing, failed, processed) and how it left it, attempt number, status and error included; and that none of its statements reported an error |
| Handler.GrantsIff | internal/store/postgres.go:221-285 | A statement grants a claim if and only if it reports no error and finds the row absent, processing or failed as its own guard asks |
| Handler.ReturnsTrueIff | cmd/worker/main.go:130-165 | A step makes handleRecord return true if and only if, without an error, it finds the row processed, or it is a mark after a 2xx that itself turns the row from processing to processed, or it records an error that is final |
| Handler.FaultedCallFails | cmd/worker/main.go:124-157 | A call that gets to a statement which reports an error returns false, and delivers nothing if that statement is one of the claim's |
| Handler.DeliveredCallMarks | cmd/worker/main.go:141-165 | A call that has delivered ends with its mark: after a 2xx it returns true if and only if that very mark found the row processing and reported no error, after an error if and only if the mark reported none and the verdict is final |
| Handler.DeliveryDecides | cmd/worker/main.go:141-157 | With nobody else at its row, a call that has delivered leaves the row processed after a 2xx, failed with the verdict's text after an error, and processing if its mark is lost |
| Handler.AnswerDecides | cmd/worker/job_error.go:28-41 | An untroubled call leaves its row, and returns, as each class of HTTP status asks: processed and true on 2xx; failed with `downstream error` and false on 429 and from 500 up; failed with `downstream rejected job` and true on 400, 404 and 422; failed with `downstream unexpected status` and true on all others |
| Handler.HandledStep | cmd/worker/main.go:130-165 | A step that makes handleRecord return true leaves the row processed, or failed with a non-retryable verdict |
| Handler.HandledMeans | cmd/worker/main.go:124-165 | The same for a whole call under any faults and interference, the verdict being on a delivery of this call |
| Handler.CleanHandled | cmd/worker/main.go:124-165 | Without fault, retryable verdict or statement of another session at its row a call returns true, and delivers if and only if the row was not processed, whatever others do at other rows |
| Handler.CallSettles | cmd/worker/main.go:124-165 | With nobody else at its row, whatever others do at other rows and whatever faults the call meets, returning true leaves the row processed, or failed with the text of a final verdict |
| Handler.TouchesOwnRow | internal/store/postgres.go:217-321 | A call leaves every row but its own as it was, if no other session is at it |
| Handler.ProcessedGrantsNothing | internal/store/postgres.go:252-257 | No step grants a claim on a processed row |
| Ledger.NextRefinesAtomicClaim | internal/store/postgres.go:61-160 | Concurrent transactions that may abort at any step behave as atomic claims: readers see all of a claim or nothing, and each caller is told what the atomic claim answers; false only after a row is committed |
| Ledger.HolderDecides | internal/store/postgres.go:131-146 | An insert that waits for the holder of its key is told the row exists if and only if the holder committed, and inserts its own otherwise |
| Ledger.AtMostOneWinner | internal/store/store.go:70-78 | In every run at most one call is told it claimed an event, none after its row is committed, and a win leaves the row committed |
| Ledger.AcceptedIffInOutbox | internal/store/postgres.go:131-160 | In every reachable database an event has an accepted ledger row if and only if it has an outbox row, one per event, with distinct ids |
| Ledger.CommittedRows | internal/store/postgres.go:64-160 | In every reachable database each ledger row is accepted with an outbox row, or processed without one; none is processing or failed |
| Ledger.NextKeepsInv | migrations/00002_ledger_accepted_and_outbox.sql:11-21 | Every move of every transaction keeps key locks exclusive, ids distinct, events unique and the foreign key with its converse |
| Ledger.RunTxRefinesAtomicClaim | internal/store/postgres.go:116-160 | A whole call with other transactions moving in between equals one atomic claim at its last statement |
| Ledger.ReplyMeans | internal/store/postgres.go:64-160 | True means that nothing went wrong with the call, its callback included, and that it added the row of its kind, accepted with a pending outbox row or processed without one; false means that the event has a committed row; an error means that a statement, the callback, the commit or the wait for the key did fail |
| Ledger.UntroubledAnswers | internal/store/postgres.go:116-160 | Without faults and with the key free, the call is answered and takes effect as the atomic claim on the database it found |
| Ledger.NextPending | internal/store/postgres.go:180-191 | The pending row with the least id, or none exactly when nothing is pending |
| Ledger.MarkPublished | internal/store/postgres.go:201-206 | Exactly the pending rows of the event become published |
| Pipeline.FrontierIsLongest | cmd/worker/partition.go:5-7 | The frontier is the length of the longest all-acked prefix |
| Delivery.CommitSafeIffStartAcked | cmd/worker/main.go:78-86 | Committing a handled prefix stays at or below the frontier if and only if the batch started there |
| Delivery.OffsetOkStep | cmd/worker/main.go:82-86 | Every action keeps all records below a slot's committed offset acked, given acked starts in the slot |
| Delivery.CallsInOrderStep | cmd/worker/main.go:130-141 | Every action keeps each past call of a slot with acked starts on a readable record whose predecessors are all acked |
| Delivery.GrantsFreshStep | internal/store/postgres.go:258-285 | Every action keeps the attempt numbers of unused grants counted, pairwise different and not yet used by a call |
| Delivery.CallsWithinAttempts | cmd/worker/handle_job.go:17 | Calls with distinct attempt numbers within the count are at most attempt_count many |
| Invariants.LedgerInvStep | internal/store/postgres.go:119-215 | Every action keeps the database invariant, the publisher's mark included |
| Invariants.AnswersOkStep | cmd/api/handlers.go:113-161 | Every action keeps each 204 backed by a committed ledger row |
| Invariants.PublishedLoggedStep | cmd/publisher/main.go:66-76 | Every action keeps the record of every published row in the topic |
| Invariants.AcksStep | internal/store/postgres.go:291-321 | No action deletes a row, lowers its attempts, changes a processed row or forgets a rejection |
| Invariants.StepAcks | cmd/worker/main.go:130-165 | A step that returns true acks the record it works on |
| Invariants.RejectionMeans | cmd/worker/main.go:141-147 | An event becomes rejected by one step only: the failed mark of a call on it that got a final verdict, when that mark reports no error |
| Ownership.OwnersApart | cmd/publisher/produce.go:14-18 | With one owner of an event's slot and the event read in its own partition only, no two workers, of whatever slots, have its completion row in hand |
| Ownership.RowsHeldStep | cmd/worker/main.go:130-157 | With one owner of an event's slot and the event read in its own partition only, every action keeps the event's row processing from the grant of the worker at it to its mark |
| Ownership.OksBoundedStep | cmd/worker/main.go:141-157 | Every action keeps the account of 2xx answers: faulted windows, the open window, the processed mark |
| Publishing.ProduceHead | cmd/publisher/main.go:55-66 | Appending the head row extends the stuttering, and the event repeats the last one or is new |
| Publishing.MarkHead | cmd/publisher/main.go:76-94 | Marking the head row moves the queue on by exactly that row |
| Publishing.LogIsAppendedStep | cmd/publisher/produce.go:14-18 | Every action but another producer's append keeps each partition equal to the appended events that the hash sends there, in order |
| Publishing.PartitionsFollowOutbox | cmd/publisher/main.go:50-99 | A stuttering of the queue, split by any hash, lies in the order of the outbox rows in every partition |
| Publishing.CopiesTogetherStep | cmd/publisher/main.go:66-75 | With one publisher and in-order accepts every action but another producer's append keeps all copies of an event neighbours in its partition |
| Runs.InvStep | cmd/worker/main.go:56-166 | Every action that the chosen rules allow keeps all the invariants that those rules support |
| Partition.SafePrefixIsLongest | cmd/worker/partition.go:8-17 | For any stateful handler: the result is the longest prefix on which successive calls return true, and the handler ran once, in order, on it and on the record that ended it |
| Partition.OnlyLongestPrefix | cmd/worker/partition.go:8-17 | That description leaves no other result |
| Store.Postgres.InsertLedger | internal/store/postgres.go:131-146 | ON CONFLICT DO NOTHING: waits while others act, then decides: one row and the key held, no row when it is committed already, or an error, also when the wait ends with the key still held |
| Store.Postgres.InsertOutbox | internal/store/postgres.go:148-154 | Draws the next id even when the UNIQUE or the REFERENCES check then fails |
| Store.Postgres.Commit | internal/store/postgres.go:110-113 | Installs ledger row and outbox row together, possibly reporting an error all the same |
| Store.Postgres.AcceptEvent | internal/store/postgres.go:119-160 | Result and database are those of the transaction machine under the plan; true leaves the event accepted, with the last outbox row pending and holding the payload, and comes only if nothing went wrong |
| Store.Postgres.ProcessEvent | internal/store/postgres.go:64-114 | The same around a callback; true leaves the event processed and the outbox as the others left it, and comes only if nothing went wrong, the callback included |
| Store.Postgres.Status | internal/store/postgres.go:43-59 | The committed status, or not found |
| Store.Postgres.NextPendingOutbox | internal/store/postgres.go:180-199 | The lowest pending row, nil exactly when nothing is pending |
| Store.Postgres.MarkOutboxPublished | internal/store/postgres.go:201-215 | Updates the pending row of the event and says whether there was one |
| Store.Postgres.InsertCompletion | internal/store/postgres.go:221-239 | Inserts a processing row with one attempt exactly when the key is absent |
| Store.Postgres.SelectCompletion | internal/store/postgres.go:243-250 | Status and attempts, an error when there is no row |
| Store.Postgres.RetryCompletion | internal/store/postgres.go:259-267 | Raises attempts only while processing; no matching row is an error without effect |
| Store.Postgres.ReclaimCompletion | internal/store/postgres.go:273-281 | Takes back only a failed row, clearing its error |
| Store.Postgres.ClaimConsumerCompletion | internal/store/postgres.go:217-289 | Table and claim are those of the handler machine run through its claim, under any faults and interference; each action says how the row was found and left, and an error is returned whenever one of its statements reported one; without faults and with nobody else at the row there is none |
| Store.Postgres.MarkConsumerProcessed | internal/store/postgres.go:291-305 | Marks only a processing row and says whether it did |
| Store.Postgres.MarkConsumerFailed | internal/store/postgres.go:307-321 | Fails only a processing row, storing the message |
| Broker.Kafka.ProduceSync | cmd/publisher/produce.go:19-22 | Appends to the key's partition, possibly reporting an error all the same |
| Broker.Kafka.CommitRecords | cmd/worker/main.go:83-85 | Moves the group's offset on the partition past the last of the records, wherever it stood |
| Downstream.Client.DeliverJob | cmd/worker/downstream.go:32-55 | One call recorded; success exactly on 2xx, retryable exactly without a response, on 429 and from 500 up; the message, status and cause of the error are spelled out for each class of answer and each way of getting none |
| Downstream.TextIs | cmd/worker/job_error.go:12-26 | An error reads as its message, followed by its cause if it has one; without a verdict it counts as retryable |
| Downstream.Client.HandleJob | cmd/worker/handle_job.go:11-40 | One delivery, its verdict unchanged |
| Worker.CleanPrefixIsAll | cmd/worker/partition.go:8-17 | Without trouble at their own rows a batch of readable records is accepted whole |
| Worker.Process.HandleRecord | cmd/worker/main.go:101-166 | Effect and result are the handler machine's; true only with a settled row; always true without trouble at its row; after a 2xx true if and only if its own mark found the row processing and reported no error; unreadable records touch nothing |
| Worker.Process.DeliverAndMark | cmd/worker/main.go:141-165 | From a grant: exactly one delivery, then the mark its verdict asks for |
| Worker.Process.RecordsSafeToCommit | cmd/worker/partition.go:8-17 | The longest prefix that handleRecord accepts in turn, with the store and deliveries its calls leave |
| Worker.Process.PollOnce | cmd/worker/main.go:78-86 | Commits exactly past that prefix, and nothing when it is empty |
| Worker.Process.PollLoop | cmd/worker/main.go:56-95 | Table, deliveries and offset are those of the polls in turn: each starts at the offset that the last one committed, runs the prefix rule over handleRecord with its own plans on what the last one left, and commits under its own fault; no other offset changes. Drain measure: if all records can be read, after as many polls as records left plus troubled polls the offset is at the end of the log. With nobody else at the rows of the partition's records every event below the offset is settled or comes up again, and at the end of the log every event it drained is processed or failed with a final verdict. In both halves others may do anything at other rows |
| Verdicts.LoopIsReplay | cmd/worker/main.go:56-95 | A poll loop is the handleRecord calls of its polls, one after the other: they leave its table and its deliveries |
| Verdicts.RetryableIsNotCommitted | cmd/worker/main.go:78-86 | A record whose delivery got a retryable verdict is not committed by its poll, whatever others do |
| Verdicts.LoopVerdict | cmd/worker/main.go:141-157 | Over a whole poll loop, with nobody else at the row, the last delivery of an event decides its row: processed after a 2xx, failed with the verdict's text after an error if its mark is not lost; only a later claim whose effect was applied unseen takes a failed row back to processing |
| Worker.EventSettles | cmd/worker/partition.go:8-17 | With nobody else at the rows of the partition's records, an event below the committed offset is settled, or a later record will bring it up again |
| Publisher.MarkSettlesOne | internal/store/postgres.go:201-215 | Marking a pending event lowers the number of pending rows by one |
| Publisher.Process.PublishNext | cmd/publisher/main.go:55-98 | Outbox and topic after one iteration with others acting before each of its calls; alone, the row is marked only after its record is acknowledged and each fault leaves exactly the effect that was applied; if its select fails only what the others did is left |
| Publisher.Process.Iterate | cmd/publisher/main.go:50-99 | An iteration works on the lowest pending row: it appends one copy of it unless the send is lost, and no other; while no event is accepted rows are settled at most, and without trouble that row is; whatever other publishers and producers do |
| Publisher.Process.Loop | cmd/publisher/main.go:50-99 | Outbox and topic are those of the iterations in turn, each under its own plan. Drain measure with no accepts: empties the outbox in pending rows plus troubled iterations, and each event gets at most one copy, one for each troubled iteration that worked on its row, and those that others append, whatever other publishers settle and other producers write meanwhile |
| Publisher.LoopCopies | cmd/publisher/main.go:66-74 | Over the iterations in turn an event gets exactly the copies that they sent, acknowledged or not, but for those that others append |
| Publisher.LoopSettles | cmd/publisher/main.go:66-94 | Alone, exactly the rows that an iteration marked after an acknowledged send are settled |
| Publisher.UnsentStaysPending | cmd/publisher/main.go:66-74 | Alone, a row whose send failed in every iteration that chose it is still pending after the loop, and if no send of it was applied the topic has no new copy |
| Publisher.FaultsAreTroubled | cmd/publisher/main.go:50-99 | Those faults, taken over all rows, are no more than the troubled iterations |
| Api.App.HandleStripeWebhook | cmd/api/handlers.go:97-161 | Database and answer are those of the transaction followed, if it claimed nothing, by the status read; 204 only with a committed ledger row; without faults and with the key free always 204, and a new event then has exactly its accepted row and its pending outbox row with the encoded job |
| WorkerRefinement.CallRefines | cmd/worker/main.go:124-165 | Every pipeline run of a handleRecord call that follows a plan, with any actions of others between its steps, ends in the table, with the result and with the delivery of the call under that plan |
| WorkerRefinement.InterleavedCallHasPlan | cmd/worker/main.go:124-165 | Every pipeline run of a handleRecord call, whatever others do between its steps, follows some plan |
| WorkerRefinement.PlannedCallIsRun | internal/store/postgres.go:217-289 | Whenever actions of other processes carry out the gaps of a plan, the interleaving of those actions with the call is a run that follows it, under every rule |
| WorkerRefinement.BatchRefines | cmd/worker/partition.go:8-17 | Every run of a batch that follows plans hands recordsSafeToCommit the same prefix, deliveries and table, but for what others did after the last call |
| WorkerRefinement.AloneBatchIsRun | cmd/worker/partition.go:8-17 | With nobody in between, every sequence of plans has its run of a batch |
| WorkerRefinement.PollRefines | cmd/worker/main.go:78-86 | Every run of a fetch, its batch and its commit that follows plans commits the offset, makes the deliveries and leaves the table that PollOnce does |
| WorkerRefinement.InterleavedPollHasPlans | cmd/worker/main.go:78-86 | Every run of a fetched batch, whatever others do meanwhile, follows some plans |
| WorkerRefinement.OwnedPollHasPlans | cmd/worker/main.go:56-95 | With one owner of the slot and its partition's events read nowhere else, every run of a fetched batch follows plans in which others leave the rows of the partition's records alone, so what other workers do is no trouble for `PollLoop` |
| PublisherRefinement.PublishRefines | cmd/publisher/main.go:50-99 | Every run of an iteration that follows a plan, with accepts, other publishers and other producers between its calls, leaves the outbox and the topic that PublishNext does |
| PublisherRefinement.InterleavedPublishHasPlan | cmd/publisher/main.go:50-99 | Every run of an iteration, whatever others do meanwhile, follows some plan |
| PublisherRefinement.AloneIterationIsRun | cmd/publisher/main.go:50-99 | With nobody in between, every plan of an iteration has its run |
| WebhookRefinement.WebhookRefines | cmd/api/handlers.go:113-161 | Every run of a webhook call that follows a plan, from its receipt through the transaction to the status read, leaves the ledger, the outbox and the answer that HandleStripeWebhook does, and a 204 puts its event among the answered ones |
| WebhookRefinement.InterleavedWebhookHasPlan | cmd/api/handlers.go:113-161 | In any run from empty tables, every run of a webhook call, whatever other handlers and publishers do meanwhile, is the method's call under some plan |
| WebhookRefinement.AloneCallIsRun | cmd/api/handlers.go:113-161 | With nobody in between, every plan of a webhook call has its run, under the rule on commit order too |

## Left out

- Signature verification, body reading and the size cap of the webhook handler: a verified event is the input.
- JSON bytes and `jsonb` normalisation: a record value is an encoded job or garbage; `json.Marshal` of the job either works or fails.
- Kafka group membership, rebalancing, retention, batching and the key hash: a log per partition, a fixed function from keys to partitions, and an explicit start for each batch. A fetch of several partitions is a sequence of polls.
- HTTP transport, timeouts and redirects: an outcome that the environment picks.
- Logging, request ids, panics, probes, signals, configuration and timestamps: they carry no hard property.
- `OutboxStatus`, `CompletionStatus` and `TruncateLedger`: used by the repository's own checks only.
- `JobFromStripeEvent` and `ParseStripeEvent`: off the live path. `ProcessEvent` has no live caller either; it is in `Ledger` and `Store`, and the pipeline runs only accepts.
- Rows from before migration 00002, which it turns into accepted rows without an outbox row: every run starts from empty tables.
- Completions.Exec: attempt_count is unbounded; the error that the database raises beyond 2147483647 attempts is not modelled, nor is the end of the BIGSERIAL sequence.
- Publisher.Process.Loop: the drain measure is for no new accepts; what accepts do to a single iteration is in PublishNext.
- Worker.Process.PollLoop: that the drained events end settled is stated for a partition at whose rows nobody else is, which one owner sees to (`OwnedPollHasPlans`); with others at the rows `TrueMeansSettled` holds at the moment of the return.
- Crashes are actions of the pipeline; a method call that is modelled runs to its return.
