# Catapulte, verified

Catapulte accepts emails over HTTP or NATS, stores and queues them, and delivers them through SMTP senders
with quotas, retries and attachment blobs. This project models how those pieces work together and proves
what they promise: that nothing accepted is lost, that nothing a queued email needs is deleted, how often an
email can be delivered and a quota overshot, and exactly when the plainer promises fail.

`dafny verify dfyconfig.toml` checks everything (Dafny 4.11).

## How the model is built

* **The pipeline** (`Pipeline.dfy`) is one labelled transition system. Every awaited call of a submission, a
  worker task or the attachment sweeper is one step, with its success or failure, and so are clock ticks and
  crashes; a run is any interleaving. The tasks in it are the state machines of `WorkerTask.dfy`, and
  `process_one` itself is a method whose calls are proved to be complete runs of that machine. `sweep_once`
  is a method over the pipeline's own state, whose every effect is proved to be a step of it, and the calls
  of `execute` are proved to be its submission steps (`SubmitSteps`). A dequeue takes any claimable entry:
  SQLite takes the oldest, Postgres the oldest that no other transaction has locked. Postgres reads the email
  in the same transaction, SQLite in a later step. So every result holds for both, unless it says otherwise.
  The results are in `PipelineInvariant`, `AttachmentSafety`, `QueueHistory`, `Delivery`,
  `LeaseExclusion`, `SubmitOverRuns` and `StatusOverRuns`; `DeliveryLimits` and `AttachmentCompleteness` say
  under exactly which conditions the plainer claims about leases, retries and deliveries hold.
* **The queues.** `SqlQueue.LeaseQueue` is the lease queue as an object (SQLite statement by statement,
  Postgres as a transaction). The memory queue is a transition system of its atomic steps
  (`MemoryAtoms`), and an object whose every call extends a run of those steps. Both are proved to behave like
  one `AbstractQueue`.
* **Sending.** `SenderUsage`, `WindowedUsage` and `Routing` are the usage queries and the router; the event
  types a database's query looks for are a parameter throughout. `QuotaBound` lets any number of worker tasks
  run the router concurrently.
* **The rest** is imperative where the source is: the submission with its undo blocks (`SubmitSaga`), the
  worker loop (`WorkerSlots`), blob stores, status queries, calendar, timestamps, and size-limited streams.

Ids, UUIDs and tokens are natural numbers that are fresh when drawn; times are milliseconds since the epoch.
Clocks, random ids, fault positions and the answers of foreign services are parameters.

## What turned out

* The sweeper never deletes a blob that a queued email needs **if and only if** (time from storing a blob to
  referencing it) + (time from reading the references to listing the store) + the store's rounding is below
  the grace period. The rounding is 0 ms for files and 999 ms for S3 and Redis. For Redis that number needs a
  grace period of whole seconds (or below one second), which is what the configuration takes.
* On SQLite a quota of *q* with *N* worker slots lets at most *q* + *N* - 1 `Sent` events into any window of the
  quota's length, beside those whose check was skipped; a run reaches that number for every sender in use and
  every positive *q* and *N*. The bound holds **if and only if** the usage query looks for the type under which
  `Sent` is stored, or *q* is zero. The Postgres query looks for types that nobody publishes: there every sender
  counts zero, and for every quota of one or more some run puts any number of checked sends into one instant.
* Say that tasks settle their entry at most *h* ms after claiming it. No entry ever has two holders, no email
  ever gets two terminal events, and no claim comes before a nack's delay is over, each **if and only if**
  *h* is at most 300 000, the lease.
* Every email is delivered at most once if and only if *h* is at most 300 000, no worker dies and no ack is
  refused; each of the three alone allows a second delivery.
* Every attempt to deliver an email carries exactly the attachments stored for it if and only if *h* is at most
  300 000 or the dequeue reads the email in the transaction that claims it. On SQLite a task that overruns its
  lease can clear the references between another task's claim and its reading of the email, which may then go out
  without attachments.
* A terminal event is the workers' last word if and only if leases are kept and every `Retrying` notice is
  stored within 30 s of its nack, the shortest retry delay.
* The submission announces `Queued` after enqueueing. Stored after a terminal event, which no timing of the
  workers prevents, it makes the listing say "queued" about a delivered email for ever. With leases kept the
  status is right exactly if neither that notice nor a late retry notice was stored after the outcome.
* A second submission under a key is answered Ok as soon as the first one's row exists. That Ok is kept in
  every way things can go on exactly if the first one has enqueued already; until then it may still fail.
* If a failed submission cannot delete its row, a retry with the same idempotency key answers Ok and enqueues
  nothing.
* A file-store `put` that fails in its very last step reports an error although the blob is stored. No email
  ever refers to that blob, so a sweep in which nothing fails deletes it once it is old enough to be listed.
* A worker cancelled between the two polls of its dequeuing select may take one more job, and never a second one.
* The usage query hands a repeated sender name zeros: names must be distinct, and that is also sufficient.
* The port comment says `list_all_attachment_blobs` returns references of every email; the query leaves out
  emails whose latest event is terminal. The model follows the query.
* The timestamp parser inverts the printer through the end of year 9999 and rejects everything after it. It
  ignores zone and fraction, and lets days run past the end of their month. Its comment promises None for
  text it cannot read; where one of its byte positions falls inside a character it panics instead.

## Model

| member | source | states |
|---|---|---|
| Core.BackoffDefined | adapter/inbound-worker/src/worker.rs:67-70 | the delay is free of u64 overflow exactly for attempts up to 60 |
| Core.BackoffMonotone | adapter/inbound-worker/src/worker.rs:67-70 | delays never shrink with the attempt and stay between 30 s and one hour |
| LeaseTable.NextExists | adapter/outbound-sqlite/src/email_queue.rs:97-126 | some entry can be claimed exactly if `pending` is positive |
| LeaseTable.ClaimLowersPending | adapter/outbound-sqlite/src/email_queue.rs:97-126 | claiming any claimable entry, or removing it as an orphan, lowers `pending` by one |
| SqlQueue.LeaseQueue.Pending | adapter/outbound-sqlite/src/email_queue.rs:97-108 | counts the claimable entries, and is positive exactly if something can be claimed |
| SqlQueue.LeaseQueue.Enqueue | adapter/outbound-sqlite/src/email_queue.rs:187-209 | one fresh unclaimed entry appears, nothing else changes |
| SqlQueue.LeaseQueue.Ack | adapter/outbound-sqlite/src/email_queue.rs:220-229 | the entry is gone whoever holds it, every other entry is untouched |
| SqlQueue.LeaseQueue.Nack | adapter/outbound-sqlite/src/email_queue.rs:231-244 | an existing entry becomes claimable after now + delay, an absent one is not revived |
| SqlQueue.LeaseQueue.TryDequeue | adapter/outbound-sqlite/src/email_queue.rs:110-183 | claims the oldest claimable entry for 300 s and hands it out; an orphan is removed; a later failing statement leaves the claim standing |
| SqlQueue.LeaseQueue.TryDequeueTx | adapter/outbound-postgres/src/email_queue.rs:88-203 | the same among unlocked entries, but any failure leaves the table as it was |
| SqlQueue.LeaseQueue.Dequeue | adapter/outbound-sqlite/src/email_queue.rs:211-218 | loses only orphans on its way, returns the oldest claimable entry with an email, and does so within as many rounds as there are orphans plus one |
| SqlQueue.LeaseQueue.DequeueTx | adapter/outbound-postgres/src/email_queue.rs:231-238 | the same loop over transactions: it returns the oldest entry not locked in that round and makes progress as long as some ready entry with an email is never locked; an error leaves the table as it was |
| WorkerTask.TranscriptRuns | adapter/inbound-worker/src/worker.rs:136-258 | every sequence of calls a task can make, for all answers, is a complete run of the task state machine |
| WorkerTask.SettleSent | adapter/inbound-worker/src/worker.rs:173-205 | after a delivery: ack, then clear references, delete each blob in order, publish `Sent`; a refused ack stops everything |
| WorkerTask.SettleFailed | adapter/inbound-worker/src/worker.rs:206-253 | after a failure: ack and `Failed` if it is permanent or the third attempt, else nack with the backoff and `Retrying`; nothing is published if settling fails |
| WorkerTask.ProcessOne | adapter/inbound-worker/src/worker.rs:136-258 | makes exactly the calls of its transcript, a complete run of the state machine the pipeline interleaves |
| PipelineInvariant.Reachable | domain/src/use_case/submit_email.rs:129-266 | in every reachable state tasks, entries, rows, keys and blobs refer to each other consistently, and terminal events exist only for entries gone for good |
| AttachmentSafety.GraceSuffices | binary/src/gc.rs:52-90 | with a long enough grace period every blob of every queued email exists in every state of every run |
| AttachmentSafety.GraceNecessary | binary/src/gc.rs:52-90 | with any shorter one some run loses a blob that a queued email needs |
| AttachmentSafety.SweeperSafety | binary/src/gc.rs:52-90 | the sweeper is safe beside all submissions and workers if and only if delays and rounding stay below the grace period |
| QueueHistory.NoLoss | adapter/inbound-worker/src/worker.rs:172-240 | in every run, with crashes, lost claims and failing calls, an accepted email is still queued or was acked after a delivery or a failure past help |
| QueueHistory.AckIsFinal | adapter/outbound-sqlite/src/email_queue.rs:220-244 | after an ack no stale ack, nack or lease ever brings the entry back |
| QueueHistory.ClaimsApart | adapter/outbound-postgres/src/email_queue.rs:88-159 | in every run, two claims of an entry are more than 300 000 ms apart unless a nack of it lies between them, with SQLite (its lines 110-126) as with rows skipped by Postgres |
| QueueHistory.NackBlocks | adapter/outbound-postgres/src/email_queue.rs:250-267 | in every run, leases kept or not, a nack keeps its entry from every later claim until strictly after its time plus delay, unless another nack of it comes before the next claim |
| QueueHistory.NacksBounded | adapter/inbound-worker/src/worker.rs:213-249 | an entry's nacks are those of attempts 1 and 2, with 30 s and 60 s of requested delay |
| QueueHistory.RetriesBounded | adapter/inbound-worker/src/worker.rs:213-249 | an email's `Retrying` events are those of attempts 1 and 2, each at most once |
| QueueHistory.BoundedRetries | adapter/inbound-worker/src/worker.rs:213-249 | in every run at most two nacks and 90 s of requested delay per entry, at most two `Retrying` events, and every `Failed` is the last attempt or a routing error |
| LeaseExclusion.TimelyAlternates | adapter/outbound-postgres/src/email_queue.rs:88-159 | while leases are kept, claims and settlements of an entry alternate and a holder made the latest claim |
| LeaseExclusion.NackBlocksTimely | adapter/outbound-sqlite/src/email_queue.rs:231-244 | while leases are kept, a nack with delay d keeps its entry from every later claim until strictly after its time + d |
| Delivery.OneHolder | adapter/outbound-postgres/src/email_queue.rs:88-159 | while leases are kept, no entry ever has two holders |
| Delivery.OneOutcome | adapter/inbound-worker/src/worker.rs:172-258 | while leases are kept, an email has at most one terminal event, and all a worker publishes after it is a retry notice whose delay has run out |
| Delivery.LastWord | adapter/inbound-worker/src/worker.rs:172-258 | if retry notices also come before their delay is over, a terminal event is the worker's last word |
| Delivery.OneDelivery | adapter/inbound-worker/src/worker.rs:136-258 | while leases are kept and without crashes and refused acks, an email is delivered at most once across all attempts |
| DeliveryLimits.OneHolderExactly | adapter/outbound-sqlite/src/email_queue.rs:110-126 | in all runs whose tasks settle within h ms no entry has two holders, if and only if h <= 300 000 |
| DeliveryLimits.OneOutcomeExactly | adapter/inbound-worker/src/worker.rs:172-258 | in all those runs no email has two terminal events, if and only if h <= 300 000 |
| DeliveryLimits.LastWordExactly | adapter/inbound-worker/src/worker.rs:213-257 | with retry notices stored within r ms of their nack, a terminal event is always the last word, if and only if h <= 300 000 and r <= 30 000 |
| DeliveryLimits.OneDeliveryExactly | adapter/inbound-worker/src/worker.rs:136-258 | no email is ever delivered twice, if and only if h <= 300 000, no task dies and no ack is refused |
| DeliveryLimits.NackDelaysExactly | adapter/outbound-sqlite/src/email_queue.rs:231-244 | a nack's delay holds against every later claim in all those runs, if and only if h <= 300 000 |
| AttachmentCompleteness.CompleteExactly | adapter/outbound-sqlite/src/email_queue.rs:116-162 | every delivery attempt has exactly the blobs stored for its email, if and only if h <= 300 000 or the email is read together with the claim |
| DeliveryLimits.QueuedAfterSent | domain/src/use_case/submit_email.rs:248-264 | however strict those terms are, some run stores `Queued` after `Sent` |
| AbstractQueue.AttemptsCount | domain/src/port/email_queue.rs:76-120 | from the empty queue on, an item's attempt number is one more than its nacks and abandoned attempts |
| AbstractQueue.DoneStays | domain/src/port/email_queue.rs:98-107 | an acked item stays done whatever is done to it |
| SqlRefinement.Refines | adapter/outbound-sqlite/src/email_queue.rs:110-244 | every pipeline run that keeps its leases, on SQLite or Postgres, is a run of the abstract queue |
| SqlRefinement.AttemptNumber | adapter/outbound-sqlite/src/email_queue.rs:116-126 | hence the attempt count of an entry is one plus its nacks and abandoned attempts |
| MemoryAtoms.CounterExact | adapter/outbound-queue-memory/src/lib.rs:52-124 | at every interleaved step `ready_count` is the channel length plus the operations between counter and channel, so it never underflows |
| MemoryRefinement.SettlingTwice | adapter/outbound-queue-memory/src/lib.rs:96-124 | after a token's ack or nack every later ack or nack of it changes nothing |
| MemoryRefinement.RunRefines | adapter/outbound-queue-memory/src/lib.rs:52-124 | every run of the atomic steps with an open channel is a run of the abstract queue: each item in exactly one place |
| MemoryRefinement.AttemptNumber | adapter/outbound-queue-memory/src/lib.rs:105-124 | an item's attempt number is one plus the nacks of it in the run |
| MemoryQueueObject.TokenRoundTrip | adapter/outbound-queue-memory/src/lib.rs:80-101 | a token survives its little-endian bytes |
| MemoryQueueObject.BytesRoundTrip | adapter/outbound-queue-memory/src/lib.rs:96-109 | and every byte string of a width is the encoding of exactly one number |
| MemoryQueueObject.MemoryQueue.constructor | adapter/outbound-queue-memory/src/lib.rs:27-37 | an open empty queue, whose run of atomic steps is the empty one |
| MemoryQueueObject.MemoryQueue.Pending | adapter/outbound-queue-memory/src/lib.rs:40-42 | the number of ready items of the abstract queue, which is the channel length; never negative |
| MemoryQueueObject.MemoryQueue.Enqueue | adapter/outbound-queue-memory/src/lib.rs:52-67 | extends the run by increment and send, so that one new ready item appears; on a closed channel it undoes the increment and reports an error |
| MemoryQueueObject.MemoryQueue.Dequeue | adapter/outbound-queue-memory/src/lib.rs:69-94 | extends the run by receive, decrement, token and insert: the channel's first item becomes held, under a token of eight bytes that decodes to a fresh number |
| MemoryQueueObject.MemoryQueue.Ack | adapter/outbound-queue-memory/src/lib.rs:96-103 | a held item is done; other lengths than eight bytes are errors and change nothing |
| MemoryQueueObject.MemoryQueue.Nack | adapter/outbound-queue-memory/src/lib.rs:105-124 | a held item sleeps for its delay, to come back as the next attempt; an unknown token changes nothing |
| MemoryQueueObject.MemoryQueue.Wake | adapter/outbound-queue-memory/src/lib.rs:113-121 | sends the sleeping item again, ready as its next attempt, unless the channel has closed |
| MemoryQueueObject.MemoryQueue.Drop | adapter/outbound-queue-memory/src/lib.rs:16-23 | dropping the queue closes the channel and loses what is in it; sleeping tasks remain |
| WorkerSlots.SlotsConserved | adapter/inbound-worker/src/worker.rs:77-132 | at every step free permits + held permit + running tasks = concurrency, every dequeued job has exactly one task, and the worker stops only with none running |
| WorkerSlots.StopsAfterCancel | adapter/inbound-worker/src/worker.rs:83-132 | once cancelled, the loop takes no further job, or one if the cancellation struck between the two polls of the dequeuing select; it makes boundedly many steps, is never stuck before it has stopped, and has then given every job its task and freed every permit |
| WorkerSlots.OneJobAfterCancel | adapter/inbound-worker/src/worker.rs:90-94 | that one job can come, for every concurrency |
| StableSort.SortIsStable | domain/src/service/routed_email_sender.rs:71 | sorting orders by key and keeps equals in their order |
| StableSort.StableUnique | domain/src/service/routed_email_sender.rs:71 | order and stability leave only one result |
| StableSort.PushThenSort | adapter/outbound-smtp/src/multi_sender.rs:67-108 | sorting after every added sender gives the same list as sorting once at the end |
| SenderUsage.GetStats | adapter/outbound-sqlite/src/sender_usage.rs:7-71 | hands each requested name its group of the counting query, in order, each group only once, whatever types the query looks for |
| SenderUsage.GroupedCounts | adapter/outbound-sqlite/src/sender_usage.rs:21-39 | a name's group holds the numbers of its own events of the two types looked for since the window start |
| SenderUsage.StatsAreDirect | adapter/outbound-sqlite/src/sender_usage.rs:58-70 | on SQLite every requested name gets its own counts for every event log if and only if no name is requested twice |
| SenderUsage.SqliteTypesMatch | adapter/outbound-sqlite/src/sender_usage.rs:21-27 | what the SQLite query counts are a sender's own `Sent` and `Failed` events |
| SenderUsage.TypesExactly | adapter/outbound-sqlite/src/sender_usage.rs:21-39 | a query counts the own events of every sender in every log if and only if it looks for the two published types |
| SenderUsage.PostgresCountsNothing | adapter/outbound-postgres/src/sender_usage.rs:24-39 | the Postgres query counts zero for every sender in every log |
| WindowedUsage.GroupWindows | domain/src/use_case/list_senders.rs:60-70 | each window start collects the names asked about for it, in order |
| WindowedUsage.CollectOpen | domain/src/service/routed_email_sender.rs:132-158 | for every order of the windows each sender gets what the query counts for it, and nothing where its window's query failed |
| WindowedUsage.Assemble | domain/src/use_case/list_senders.rs:86-97 | one snapshot per configured sender, in order, zeros where nobody answered |
| WindowedUsage.ListSenders | domain/src/use_case/list_senders.rs:49-98 | in configured order what the query counts for each sender since its own window start: its own counts on SQLite, zeros on Postgres; an error exactly if some window's query fails |
| Routing.NormalizeIdempotent | domain/src/service/routed_email_sender.rs:36-38 | normalizing a domain again changes nothing |
| Routing.New | domain/src/service/routed_email_sender.rs:58-77 | normalizes and stably sorts the routes in place; an error exactly for no routes |
| Routing.CandidateOrder | domain/src/service/routed_email_sender.rs:102-124 | candidates are exactly the eligible configured routes, stably sorted by unmatched flag and priority |
| Routing.FirstPass | domain/src/service/routed_email_sender.rs:162-195 | asks the candidates within quota in order up to the first success, and otherwise has asked all of them in vain |
| Routing.SecondPass | domain/src/service/routed_email_sender.rs:201-231 | asks all candidates up to the first success; the error names the last one, and the fallback for no error is unreachable |
| Routing.Send | domain/src/service/routed_email_sender.rs:101-232 | first success among the candidates within quota, or among all if every one is over quota; over quota means that what the database's query counts for it in its window reaches the quota |
| Routing.FaithfulOnSqlite | adapter/outbound-sqlite/src/sender_usage.rs:21-39 | on SQLite that are the sender's own `Sent` events |
| Routing.NeverOverOnPostgres | adapter/outbound-postgres/src/sender_usage.rs:24-39 | on Postgres no sender with a quota of one or more is ever over quota, whatever it has sent |
| Routing.OverQuotaOnlyWhenAllAre | domain/src/service/routed_email_sender.rs:162-229 | a sender over quota is tried only if every candidate is over quota |
| Routing.NoTransportTwice | domain/src/service/routed_email_sender.rs:162-229 | one send asks no transport twice |
| QuotaBound.Overshoot | domain/src/service/routed_email_sender.rs:130-196 | if the query looks for the type of `Sent`, then in every interleaving and every interval of the quota's length at most quota + concurrency - 1 `Sent` events of a sender beside those that bypassed the check; for a zero quota only the latter, whatever the query |
| QuotaLimits.BoundReached | readme.md:194 | for every sender in use, every positive quota and every concurrency a run reaches that bound with no check bypassed |
| QuotaLimits.Unbounded | adapter/outbound-postgres/src/sender_usage.rs:24-39 | if the query looks for another type, some run stores any given number of checked `Sent` events of a sender at one instant |
| QuotaLimits.QuotaExactly | readme.md:194 | the bound holds in all runs if and only if the query looks for the type of `Sent` or the quota is zero |
| QuotaLimits.QuotaByDatabase | binary/src/storage.rs:101-125 | so it holds for every quota on SQLite and for none but zero on Postgres |
| SubmitSaga.Ports.SaveRow | adapter/outbound-sqlite/src/email_repository.rs:22-85 | inserts only without a clash on id or key; a clash on a key answers the email that holds it; keys stay unique |
| SubmitSaga.Ports.SetRefs | adapter/outbound-sqlite/src/email_repository.rs:172-228 | replaces the row's attachment list and nothing else; a missing row is an error |
| SubmitSaga.Ports.Undo | domain/src/use_case/submit_email.rs:187-200 | deletes exactly the written blobs and the row, except where a deletion fails |
| SubmitSaga.Write | domain/src/use_case/submit_email.rs:171-222 | fetches if remote, stores under a fresh key, and describes what was stored; a failure changes no blob |
| SubmitSaga.Reference | domain/src/use_case/submit_email.rs:224-232 | the row lists the written attachments afterwards, with no second write for none |
| SubmitSaga.Execute | domain/src/use_case/submit_email.rs:129-266 | the row is reserved first; a known key changes nothing; otherwise one row, one entry and one blob per attachment in order, announced only after the entry, or an error that leaves everything as before except exactly what an undo call failed to remove; its calls are a complete run of the submission machine |
| SubmitSaga.Resubmit | domain/src/use_case/submit_email.rs:148-160 | two successful calls with one key name the same email, and the second changes nothing |
| SubmitSaga.Retry | domain/src/use_case/submit_email.rs:148-252 | a successful retry after an error has enqueued the email, unless the first call could not delete its row: then the retry answers Ok for the failed email, exactly if its own first call works, and nothing is enqueued |
| SubmitSaga.SwallowedRetry | domain/src/use_case/submit_email.rs:148-252 | such calls exist: without attachments, on empty tables, whenever enqueue and row deletion fail and the two saves work |
| SubmitSteps.CallIsStep | domain/src/use_case/submit_email.rs:129-266 | each call an `execute` may make next is a step the pipeline may take; both leave the submission at the same place, add the same entry, and keep email rows, references, blobs, accepted emails and events the same on both sides |
| SubmitSteps.StepIsCall | domain/src/use_case/submit_email.rs:129-266 | each step the pipeline gives a submission, a crash and a put that leaves its blob aside, is a call `execute` may make next |
| SubmitSteps.LostPutIsFailedPut | adapter/outbound-attachment-fs/src/store.rs:223-244 | a put that fails and leaves its blob moves the submission as any failing put does |
| SubmitOverRuns.AcceptedOrNoTrace | domain/src/use_case/submit_email.rs:129-266 | in every interleaving whose undo calls work and whose failing puts leave nothing behind, a finished submission was accepted or left no row, no entry and no blob |
| SubmitOverRuns.LostForEver | adapter/outbound-attachment-fs/src/store.rs:223-244 | a blob left behind by a failing put is never referred to by any email, and keeps its time |
| SubmitOverRuns.DuplicateExactly | domain/src/use_case/submit_email.rs:148-160 | an email named in a duplicate's Ok is queued or properly settled after every way things can go on until the first submission ends, if and only if that one has enqueued it already |
| AttachmentRoundTrip.ResolveAttachments | domain/src/use_case/process_queued_email.rs:128-155 | reads back every reference in order, or fails exactly if one is missing or unreadable |
| AttachmentRoundTrip.SubmitThenResolve | domain/src/use_case/process_queued_email.rs:128-155 | as long as the blobs are kept, the worker reads back the submitted names, types and bytes in order |
| EmailStatus.LatestUnique | adapter/outbound-sqlite/src/email_repository.rs:91-109 | the latest event is the newest by time and id, whatever order the table is read in |
| EmailStatus.ListAllAttachmentBlobs | adapter/outbound-sqlite/src/email_repository.rs:241-274 | returns exactly the references held by emails whose latest event is not terminal |
| EmailStatus.LiveKeys | binary/src/gc.rs:57-63 | keeps exactly the keys of the given backend |
| StatusOverRuns.StatusShowsOutcome | adapter/outbound-sqlite/src/email_repository.rs:278-309 | in timely runs the listed status is the outcome of the terminal event exactly if neither a `Queued` notice nor a late retry notice was stored after it |
| StatusOverRuns.PromptlyOvertaken | adapter/outbound-sqlite/src/email_repository.rs:278-309 | with prompt retry notices only the `Queued` notice can be |
| StatusOverRuns.LiveIsSnapshot | adapter/outbound-sqlite/src/email_repository.rs:241-274 | the sweeper's live keys miss a referenced key only if its email has a terminal event |
| AttachmentGc.DeleteGarbage | binary/src/gc.rs:66-88 | tries each old key that is not live once, stops when cancelled, carries on after a failed deletion |
| AttachmentGc.SweepOnce | binary/src/gc.rs:52-90 | all effects are sweeper steps of the pipeline, only old unreferenced blobs are deleted, and when it runs to its end all of them are except failed deletions |
| AttachmentGc.CollectUnreferenced | binary/src/gc.rs:52-90 | a sweep in which nothing fails deletes every listed blob that no email refers to |
| BlobAge.ListedIsOld | adapter/outbound-attachment-redis/src/store.rs:78-92 | no store lists a blob younger than the grace period by more than its rounding |
| BlobAge.RedisSlackExact | adapter/outbound-attachment-redis/src/store.rs:78-92 | for Redis that holds exactly for grace periods of whole seconds or below one second |
| BlobStores.RedisStore.Put | adapter/outbound-attachment-redis/src/store.rs:102-141 | one MULTI transaction: blob and index entry, scored in whole seconds, appear together or not at all |
| BlobStores.RedisStore.Delete | adapter/outbound-attachment-redis/src/store.rs:156-170 | both go together, and deleting a missing blob is no error |
| BlobStores.RedisStore.ListKeysOlderThan | adapter/outbound-attachment-redis/src/store.rs:78-92 | the index lists exactly the stored blobs that the age rule selects |
| BlobStores.FsStore.WriteCommitted | adapter/outbound-attachment-fs/src/store.rs:165-219 | at whatever step it fails, only whole files appear under the root, and then only from the rename on |
| BlobStores.FsStore.Put | adapter/outbound-attachment-fs/src/store.rs:223-244 | an error leaves the root unchanged exactly unless the final directory sync failed; no temporary file stays if the clean-up works |
| BlobStores.FsStore.Delete | adapter/outbound-attachment-fs/src/store.rs:265-278 | refuses dangerous names, removes one file, and a missing file is no error |
| BlobStores.FsStore.ListKeysOlderThan | adapter/outbound-attachment-fs/src/store.rs:92-121 | lists exactly the visible files that the age rule selects |
| BlobStores.HexIsSafe | adapter/outbound-attachment-fs/src/store.rs:155-157 | keys the store hands out are never refused as dangerous |
| Calendar.GregorianDaysSinceEpoch | adapter/outbound-attachment-s3/src/store.rs:233-253 | for a valid date the number of single days from 1970-01-01 to it; nothing before 1970 |
| Calendar.ClosedFormCounts | adapter/outbound-attachment-s3/src/store.rs:233-253 | the closed form of a valid date is n exactly if n steps of one day lead to it |
| Calendar.StrictlyIncreasing | adapter/outbound-attachment-s3/src/store.rs:233-253 | a later date has a larger number |
| Calendar.EveryDateReached | adapter/outbound-attachment-s3/src/store.rs:233-253 | counting as many days as the closed form says reaches the date |
| Calendar.SurplusDays | adapter/outbound-attachment-s3/src/store.rs:216-221 | a day past the end of its month, which the parser accepts, counts into the next month |
| Calendar.DaysToYmd | adapter/outbound-attachment-s3/src/store.rs:541-578 | the subtracting loops return the date that many days after 1970-01-01, inverse to the closed form |
| Timestamp.ParseIso8601ToEpoch | adapter/outbound-attachment-s3/src/store.rs:195-227 | for every text the parser function the round trips are about, byte positions and panics included, with the day count computed by the month loop |
| Timestamp.FormatEpochAsIso8601 | adapter/outbound-attachment-s3/src/store.rs:531-539 | is the stamp of date and time of day the round trips are about |
| Timestamp.StampParses | adapter/outbound-attachment-s3/src/store.rs:195-227 | after any white space, with `T` or a space and any tail, ASCII or not, the stamped second is read back through year 9999 |
| Timestamp.RoundTrip | adapter/outbound-attachment-s3/src/store.rs:195-227 | parsing what was printed gives the second back exactly through year 9999, and nothing afterwards |
| Timestamp.PanicsExactly | adapter/outbound-attachment-s3/src/store.rs:188-208 | instead of None it panics exactly if the text has 19 bytes, a field it comes to is cut inside a character, and all fields and the separator before that are good |
| Timestamp.PanicsInYear | adapter/outbound-attachment-s3/src/store.rs:195-203 | as it does on `197`, a two-byte character and any 15 or more characters that do not end in white space |
| Timestamp.FilterIsAgeRule | adapter/outbound-attachment-s3/src/store.rs:160-182 | the S3 filter on a stamped blob is the S3 rule the sweeper proof uses |
| LimitedStream.LimitedReader.constructor | adapter/inbound-http/src/limited_reader.rs:13-19 | nothing delivered yet, the whole allowance left |
| LimitedStream.LimitedReader.PollRead | adapter/inbound-http/src/limited_reader.rs:23-70 | delivers the next inner bytes, ends only at the true end, reports too large only after exactly max bytes of a longer stream, and then for ever |
| LimitedStream.ReadToEnd | adapter/inbound-http/src/limited_reader.rs:23-70 | for every chunking and buffer sizes: all bytes if they fit, otherwise exactly the first max bytes and the error |
| LimitedStream.FetchBody | adapter/outbound-attachment-fetcher/src/fetcher.rs:172-199 | accepts exactly the same streams by taking max + 1 bytes |

## Left out

- NATS queue and inbound NATS server: redelivery happens in JetStream.
- SMTP, HTTP, S3, Redis and template libraries, rendering, configuration parsing, telemetry, health checks: foreign code or plumbing; deliver, fetch, put, get and publish may succeed or fail.
- SQL text, JSON, address validation, payload shapes and limit clamping: tables are maps and sequences, stored rows parse.
- Calls that fail although they took effect, except a put: an error means nothing happened.
- Clocks running backwards, exhaustion of u64 tokens and of i64 times, saturating additions at the ends of those ranges.
- The 30 s shutdown abort: a worker crash.
- Several blob backends at once in the pipeline: its keys belong to the configured backend; the backend filter is in `EmailStatus.LiveKeys`.
- The record sizes and MIME fields of listings, and filters and paging of `list_emails`: single-branch facts.
- The pipeline's `Put` step: a blob appears at the time recorded for it, although a large upload takes a while; the delay until it is referenced is counted from that time.
- SqlQueue.LeaseQueue.DequeueTx: other transactions appear as locked rows only; observed for a given number of rounds, like its SQLite counterpart.
- SqlQueue.LeaseQueue.Dequeue: observed for a given number of rounds with nobody else touching the tables, because the source's loop may wait for ever.
- SqlQueue.LeaseQueue.TryDequeueTx: the statements of one transaction are one step, other transactions appear as locked rows.
- MemoryQueueObject.MemoryQueue.Dequeue: waiting on an empty open channel is the answer None; the token counter has not run out.
- MemoryRefinement.RunRefines: stated for an open channel; the channel closes only when the process ends.
- QueueHistory.NackBlocks: another nack of the entry may cut the delay short; `DeliveryLimits.NackDelaysExactly` says when that can happen.
- AttachmentSafety.SweeperSafety: the two delays are measured in milliseconds, the grace period is of whole seconds, and the run starts later than one grace period after 1970.
- Routing.Send: all windows are queried on one event log; logs that grow between the queries are in `QuotaBound`.
- QuotaBound.Overshoot: a usage query is one step; `WorkerSlots.SlotsConserved` is why no more than `concurrency` tasks run.
- SubmitSaga.Ports.Put: a failing put stores nothing; one that does, see `BlobStores.FsStore.Put`, is a step of the pipeline.
- BlobStores.RedisStore.Put: that a MULTI transaction runs whole or not at all is Redis's own promise.
- SubmitOverRuns.DuplicateExactly: idempotency keys themselves are in `SubmitSaga`; to the pipeline a duplicate's answer is no step, because it changes nothing.
- SubmitSteps.CallIsStep: fetching a remote attachment and a refused or duplicate `save` are no steps of the pipeline; the reserving `save` is what creates the submission there.
- LimitedStream.ReadToEnd: the inner reader answers Pending only finitely often, otherwise reading never ends.
- LimitedStream.FetchBody: stated for limits below u64::MAX, because the source adds one to the limit.
