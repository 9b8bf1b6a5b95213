# Oxana: a verified model

Oxana is a job queue. Its state lives in a few Redis keys: a hash of job envelopes, one list per queue, one
processing list per process, two sorted sets of delayed jobs (`schedule` and `retry`) and a bounded list of dead
jobs. Workers, pollers, recovering processes and the dashboard all act on these keys. This project models that
logic in Dafny and proves what it promises. `dafny verify dfyconfig.toml` checks everything.

| file | what it models |
|---|---|
| `Redis.dfy` | list and sorted-set commands as functions: LPUSH, LREM with a count, empty lists that vanish, ordered replies |
| `Envelope.dfy`, `Store.dfy` | the envelope, the store as a value, and what each storage operation does to it |
| `Bulk.dfy`, `Storage.dfy` | the storage layer as a class whose methods issue the commands, each proved equal to its function in `Store` |
| `Whereabouts.dfy`, `Moves.dfy`, `Lifecycle.dfy` | the one-place invariant and the ledger, through every operation and every run |
| `JobLife.dfy` | which fields of an envelope never change over a job's life, and what the others record |
| `Timing.dfy`, `Cron.dfy`, `Fifo.dfy`, `DeadList.dfy` | never early, bounded attempts, cron occurrences, order of queues, the dead list and its revival |
| `Claims.dfy`, `Resurrection.dfy`, `ReplaceRace.dfy` | races at the level of single commands: pollers claiming delayed jobs, processes recovering a dead one, clients replacing one job |
| `QueueControl.dfy` | queue permits: a semaphore that can be resized and paused, with its wakeups |
| `Batcher.dfy`, `BatcherPool.dfy` | batch formers, their channels, and the coordinator's map of them |
| `BatchRun.dfy`, `BatchOutcome.dfy` | one batch from parsing to retry or kill, and the single job beside it |
| `MetricFields.dfy` to `MetricsEndToEnd.dfy` | metric field names; recording, flushing, aggregating and fetching counters |
| `Throttle.dfy` | the sliding-window throttle and its dispatcher |
| `Progress.dfy` | resumable iteration over several attempts |
| `QueueConfig.dfy` | runtime configuration as the coordinator applies it and as the dashboard shows it |
| `TypeTree.dfy` | the tree of type names that the dashboard flattens into rows |

How to read it. Where the source changes things step by step the model is a class or a method with loops; each is
proved equal to a function on values, and the lemmas are about that function. Concurrency is a state machine whose
steps are single Redis commands, critical sections or completed `await`s, and the theorems hold for every
interleaving. Job ids, queue names, process ids and job names are abstract types that are only compared, except where
their text matters (worker names and metric fields, process keys, queue keys, type names). Times are integers; clocks,
random ids, replies in score order, parsing and the outcome of a worker are parameters.

Assumptions that the code itself relies on, stated where they are used:

- ids of jobs that are not unique are fresh (`Whereabouts.EnqueueSafe`, `Bulk.IdSpacesApart`);
- a process that is recovered takes no further steps on the jobs it held (`Lifecycle.Allowed`);
- in the sequential theorems a storage operation, a failure with its retry, and a claim with its push are one step
  each; `Claims`, `Resurrection`, `ReplaceRace` and the race in `Cron` split them into commands;
- the results flushed so far stay below the signed 64-bit limit where exact totals are claimed
  (`MetricRecording.Bounded`).

Findings, each with a lemma that states exactly when the code does what one would expect:

- Replace does not look at processing lists, so an enqueue keeps every id in one place exactly when it does not
  replace a running job (`Whereabouts.EnqueueKeepsOnePlace`).
- The throttle's key expires in whole seconds: every run of one dispatcher keeps the window bound exactly when the
  window is a whole number of seconds or the limit is zero (`Throttle.RunsBoundedIffWholeSeconds`). The wait it returns
  is enough, but longer than needed (`Throttle.WaitSuffices`).
- Processes that race for a new cron occurrence, with pollers beside them, can put its job into two places exactly when
  there are several of them (`Cron.NeverTwiceIffAlone`): a poll may take the job between two writes. As long as no poll
  takes it, exactly when there are several and one of them finds the occurrence due
  (`Cron.NeverTwiceIffAheadOrAlone`).
- Clients that race with Replace for one stored job always leave it in one place exactly when nobody runs it and there
  is one client or all of them schedule it (`ReplaceRace.OnePlaceIffAloneOrScheduled`).
- Bulk enqueue looks up conflicts before the deferred commands have run: for two envelopes it agrees with enqueueing
  one by one exactly when they are not a plain job followed by a unique one with its id (`Bulk.PairsAgreeIffApart`).
- A first `set_queue_concurrency` on a sub-queue of a paused prefix makes the sub-queue active
  (`QueueConfig.SetConcurrencyTakesEffect`).
- A queue key with a hash sign makes the dashboard look at another key than the coordinator
  (`QueueConfig.ResolversAgreeIffNoHash`).
- A leftover processing list is found again exactly when the process id has no colon
  (`Resurrection.LeftoverListIsFound`).
- The parser of worker metric fields ignores bytes after the name, the one of queue metric fields refuses them
  (`MetricFields.TrailingBytes`). So a field can be read as a counter without being its printed name; the fetch of one
  worker's counters of a minute agrees with the full aggregate, before `finalize`, exactly when no such field adds to
  that worker (`MetricsEndToEnd.PointsAgreeIffNoStrays`), as on every hash that was recorded
  (`MetricsEndToEnd.RecordedHashesHaveNoStrays`). After `finalize` it can also agree because the stray fields are just
  what the fallback fills in (`MetricsEndToEnd.FinalizedPointsAgreeIff`).
- `finalize` adds three counters as plain 64-bit numbers. With overflow checks it panics above 2^64 - 1; without, it
  throws executions away exactly when the sum wraps around to zero and the stand-ins are other numbers
  (`MetricAggregation.FallbackIsRightIffNoWrap`), as for 2^63 - 1, 2^63 - 1 and 2
  (`MetricAggregation.ExecutionsCanWrap`).
- A job that does not resume starts its next attempt without its progress (`Progress.NextAttemptFindsTheCursor`).

## Model

| member | source | states |
|---|---|---|
| Redis.RemoveFirstTakesOne | oxana/src/storage_internal.rs:739-746 | LREM with count 1 takes exactly one occurrence of the id when there is one, and nothing else |
| Redis.RemoveFirstTakesTheFirst | oxana/src/storage_internal.rs:739-746 | it is the occurrence nearest the head, and the rest keeps its order |
| Store.ConflictRule | oxana/src/storage_internal.rs:331-497 | a unique job that is stored is refused, without any effect, unless its rule is Replace; any other is stored as it is and waits at the head of its queue or in the schedule at its time |
| Store.AddsOnly | oxana/src/storage_internal.rs:436-469 | an enqueue without conflict adds that one entry and moves nothing else |
| Store.ReplaceClears | oxana/src/storage_internal.rs:499-524 | Replace leaves the id nowhere else in the retry set, the schedule, its old queue and its new one, however often it was there |
| Store.RequestedTime | oxana/src/job_envelope.rs:134-138 | a requested time that has passed means now and the queue, any other waits in the schedule until exactly that time |
| Bulk.CommandsDoTheEnqueue | oxana/src/storage_internal.rs:436-524 | the pipelined commands chosen for an envelope leave the store that `Store.Enqueue` describes, for skip, default and replace |
| Bulk.StagedDecision | oxana/src/storage_internal.rs:414-434 | looking at envelopes staged earlier in the list before the store finds the action that enqueueing one by one would take |
| Bulk.StageChunk | oxana/src/storage_internal.rs:360-412 | after the deferred commands of a chunk the store is the one left by enqueueing the list up to the chunk's end one by one |
| Bulk.PairsAgreeIffApart | oxana/src/storage_internal.rs:414-434 | for any two envelopes, deferring them in one chunk is enqueueing them one by one, on every store, if and only if they are not a plain job followed by a unique one with its id |
| Storage.StorageInternal.EnqueueOne | oxana/src/storage_internal.rs:331-358 | the new store is that of the conflict rule: untouched on skip, moved from every waiting place on replace |
| Storage.StorageInternal.EnqueueList | oxana/src/storage_internal.rs:360-412 | for every list and every chunk size the same store and the same ids in order as folding `enqueue` over the list |
| Storage.StorageInternal.EnqueueAtTime | oxana/src/storage_internal.rs:539-547 | a job due now goes to its queue, any other to the schedule at its stored time |
| Storage.StorageInternal.EnqueueIn | oxana/src/storage_internal.rs:526-537 | a zero delay enqueues at once; any other stores the job as it is, due at now plus delay times 1,000,000 microseconds, and schedules it with that score |
| Storage.StorageInternal.DequeueOne | oxana/src/storage_internal.rs:580-591 | the last id of the queue moves to the head of this process's list, in front of what it holds; an empty queue changes nothing |
| Storage.StorageInternal.UpdateJobState | oxana/src/storage_internal.rs:638-649 | only the state of a stored envelope changes; an unknown id is reported and changes nothing |
| Storage.StorageInternal.FinishWithSuccess | oxana/src/storage_internal.rs:705-713 | the envelope and one occurrence in this process's list are gone, all else stays |
| Storage.StorageInternal.FinishWithSuccessBatch | oxana/src/storage_internal.rs:715-737 | all envelopes of the batch are gone and each id is taken once from the processing list |
| Storage.StorageInternal.RetryJobIn | oxana/src/storage_internal.rs:549-578 | the stored envelope with one more retry, no start and the error, and all else as it was, enters the retry set at now plus delay times 1,000,000 microseconds; an unknown id changes nothing |
| Storage.StorageInternal.KillJob | oxana/src/storage_internal.rs:692-703 | the job leaves the store and the processing list and heads the dead list, as it was and with the error; the list is cut to 1000 |
| Storage.StorageInternal.HandleError | oxana/src/executor.rs:395-432 | below the retry limit the job is retried, otherwise killed |
| Storage.StorageInternal.ClaimAndEnqueueIds | oxana/src/storage_internal.rs:757-803 | exactly the ids that were still members are claimed, and each with an envelope is pushed to that envelope's queue |
| Storage.StorageInternal.EnqueueScheduled | oxana/src/storage_internal.rs:748-755 | every due member leaves the set and the count is that of the due jobs with an envelope |
| Storage.StorageInternal.RetryAllNow | oxana/src/storage_internal.rs:805-811 | the same for every member of the retry set |
| Storage.StorageInternal.Wipe | oxana/src/storage_internal.rs:832-848 | the queue's list and the envelopes of its ids are gone, all else stays |
| Storage.StorageInternal.ReviveAllDead | oxana/src/storage_internal.rs:856-929 | without a failure every parseable entry is enqueued; at the first failure the entries before it are exactly those enqueued or unparseable, and it and the rest are restored in order |
| Storage.StorageInternal.ResurrectIds | oxana/src/storage_internal.rs:2052-2079 | an id is requeued, dropped or unknown by the envelope that is stored when its turn comes, each log in list order, and every popped id is in exactly one log as often as it was popped |
| Storage.StorageInternal.ResurrectPortion | oxana/src/storage_internal.rs:2041-2050 | LPOP of ten takes the next ids off the head and settles each |
| Storage.StorageInternal.ResurrectProcess | oxana/src/storage_internal.rs:2029-2095 | the loop ends, has handled the whole list, and leaves the store that settling it in one go leaves |
| Whereabouts.LocatedIsOnePlace | oxana/src/storage_internal.rs:436-524 | a map that says where each id is proves the one-place invariant |
| Whereabouts.OnePlaceIsLocated | oxana/src/storage_internal.rs:436-524 | and the invariant yields such a map: an id is stored exactly when it occupies exactly one slot of all lists and sets, a queue slot being in the queue its envelope names |
| Whereabouts.EnqueueKeepsOnePlace | oxana/src/storage_internal.rs:471-524 | an enqueue keeps the invariant if and only if it brings a new id or does not replace a running job |
| Moves.DequeueLocated | oxana/src/storage_internal.rs:580-591 | a dequeue moves one id from waiting to running and no other |
| Moves.RetireLocated | oxana/src/storage_internal.rs:692-713 | success and kill take a running id out of the store and out of its one place |
| Moves.RetryLocated | oxana/src/executor.rs:403-415 | a failure moves a running id to the retry set and nowhere else |
| Moves.ClaimLocated | oxana/src/storage_internal.rs:757-803 | a poll moves every claimed id to the queue of its own envelope |
| Moves.ResurrectLocated | oxana/src/storage_internal.rs:2029-2095 | a recovery moves the kept ids of the dead process to their queues and drops the others |
| Moves.WipeLocated | oxana/src/storage_internal.rs:832-848 | a wipe takes exactly the queue's ids out |
| Moves.BatchFinishIsOneByOne | oxana/src/storage_internal.rs:715-737 | finishing a batch in one pipeline is finishing its jobs one by one |
| Lifecycle.ReviveIsEnqueue | oxana/src/storage_internal.rs:881-900 | a revive is the enqueue of the parseable entries in turn |
| Lifecycle.StepKeepsMemory | oxana/src/executor.rs:33-81 | no step makes the envelope in a worker's memory differ from the stored one except in the state written during the attempt |
| Lifecycle.StepBalances | oxana/src/storage_internal.rs:692-848 | after every step the accepted jobs are, counted, those stored, succeeded, killed, dropped, wiped or replaced |
| Lifecycle.StepKeepsScores | oxana/src/storage_internal.rs:451-469 | after every step each schedule score is the stored time of its job |
| Lifecycle.StepKeepsInv | oxana/src/storage_internal.rs:436-848 | every allowed step keeps the whole invariant: one place, memory, ledger, scores |
| Lifecycle.RunKeepsInv | oxana/src/storage_internal.rs:436-848 | so does every run of steps, of any length |
| JobLife.StepRecords | oxana/src/job_envelope.rs:134-165 | every step leaves name, arguments, queue, uniqueness, conflict rule, times, recovery flag and cost of a job that stays; a start stamps and drops the state unless the job resumes, a failure counts and leaves its error, an update leaves its state |
| JobLife.RunRecords | oxana/src/storage_internal.rs:549-703 | over every run a job that is still stored and was not enqueued again is the same job, and its record is that of its own starts, failures and updates in order |
| JobLife.WorkerSeesItsStart | oxana/src/executor.rs:33-81 | the worker's copy is the envelope its start stored, stamped with that moment |
| JobLife.StepEnters | oxana/src/executor.rs:395-432 | success, kill, recovery, wipe and enqueue each enter their own column of the ledger; a failed job is killed iff it is not stored any more |
| Timing.NeverEarly | oxana/src/storage_internal.rs:748-755 | in every run without retry-all-now a delayed job is in no queue and not running before its score |
| Timing.ScoresAreTheTimes | oxana/src/storage_internal.rs:451-469 | a scheduled job's score is its stored time, also after Replace, and a retried job's is failure time plus 1,000,000 microseconds per second of delay |
| Timing.RetryPreserves | oxana/src/job_envelope.rs:145-164 | a retry changes nothing of the stored envelope but one more retry, no start, and the error |
| Timing.BoundedAttempts | oxana/src/executor.rs:395-432 | in every run without crash or new enqueue the stored retries stay within the limit and the job is started at most limit plus one times |
| Timing.StepLowersRank | oxana/src/executor.rs:395-432 | every poll, dequeue, start and failure lowers the pair of retries left and stage, and no other step raises it |
| Cron.OneJobForAnOccurrence | oxana/src/job_envelope.rs:103-132 | when processes enqueue a cron occurrence one after another, there is one job in one place while it is stored, with every field as the first enqueue made it: unique, skipped on conflict, no arguments, due at the later of the occurrence and that enqueue |
| Cron.OneSlotAfterTheRace | oxana/src/storage_internal.rs:331-358 | when processes race for a new occurrence, command by command and with pollers beside them, then once all are done and before a worker takes it the job is in one place iff nothing was pushed to its queue, by an enqueuer or a poll, or a single push was and it has left the schedule |
| Cron.NeverTwiceIffAheadOrAlone | oxana/src/storage_internal.rs:471-497 | as long as no poll takes the id, no interleaving puts it into two places iff there is at most one process or all find the occurrence still ahead |
| Cron.NeverTwiceIffAlone | oxana/src/storage_internal.rs:471-497 | with polls at any moment, no interleaving puts it into two places iff there is at most one process |
| Cron.PolledOnlyWhenDue | oxana/src/storage_internal.rs:748-755 | in every interleaving a poll takes the job no earlier than its occurrence |
| ReplaceRace.OnePlaceIffAloneOrScheduled | oxana/src/storage_internal.rs:471-524 | however many clients race with Replace for one stored job, command by command, it is in one place whenever those that looked are done, in every interleaving, iff there is no client, or nobody runs the job and there is one client or all schedule it |
| Fifo.FirstInFirstOut | oxana/src/storage_internal.rs:436-591 | over every run of the lifecycle, jobs taken from a queue followed by those still in it are the earlier ones followed by all arrivals, by enqueue, poll, retry-all, recovery or revival, in order, apart from ids that were replaced or wiped |
| Fifo.PolledByScore | oxana/src/storage_internal.rs:757-803 | of the members that a poll claims, exactly those whose envelope names the queue arrive there, lower scores first |
| DeadList.NewestKills | oxana/src/storage_internal.rs:692-703 | after any kills the dead list is the newest 1000, newest first |
| DeadList.NewestDeaths | oxana/src/storage_internal.rs:692-703 | over every run of the lifecycle the dead list is the newest 1000 of what was killed since it was last wiped or revived, newest first |
| DeadList.KillsDuringARevive | oxana/src/storage_internal.rs:856-929 | kills that happen during a failed revive stay in front of the restored rest, and the next kill leaves the newest 1000 of both |
| Claims.NoDuplicateClaims | oxana/src/storage_internal.rs:757-803 | in every interleaving of pollers and other clients, Replace included, each member that arrived is still there, in one poller's hands, pushed once, without envelope or taken out; never two of these |
| Claims.QuiescentAccounting | oxana/src/storage_internal.rs:757-803 | when all pollers are done, every arrival is in the set, pushed, lost or taken out, as often as it arrived |
| Claims.RoundsEnd | oxana/src/storage_internal.rs:757-803 | a poller that is at work can always go on, each of its actions brings it closer to the end of its round, and no other client's action touches it |
| Claims.PushedInScoreOrder | oxana/src/storage_internal.rs:780-800 | one poller's jobs for a queue join the order in which workers take them sorted by score, each in the queue its envelope names |
| Claims.RunTakesInOrder | oxana/src/storage_internal.rs:580-591 | over every run, ids taken from a queue followed by those in it are the earlier ones followed by the arrivals, in order, apart from ids taken out of the middle |
| Claims.LaterTakenInScoreOrder | oxana/src/storage_internal.rs:580-591 | so whatever follows a push, the pushed jobs are dequeued in score order, behind what waited and before what arrives later |
| Claims.RunKeepsOrder | oxana/src/storage_internal.rs:757-803 | what that needs holds in every run |
| Claims.GroupByQueue | oxana/src/storage_internal.rs:780-791 | the groups are the ids of each queue's envelopes in their order |
| Claims.PushGroups | oxana/src/storage_internal.rs:780-800 | one push per group, in any order of the groups, is one push per envelope |
| Claims.ClaimIds | oxana/src/storage_internal.rs:766-777 | the replies of the ZREMs pick exactly the ids that were members, each once |
| Resurrection.RescueConserves | oxana/src/storage_internal.rs:2029-2095 | with any number of recovering processes each listed entry is still listed, held by one, requeued, dropped or unknown; an entry listed once is requeued at most once |
| Resurrection.SettlingIsRecovering | oxana/src/storage_internal.rs:2052-2079 | reading and settling an id without interference does what recovering that one id does, and logs it so |
| Resurrection.FinishedMeansEmptied | oxana/src/storage_internal.rs:2029-2050 | in every interleaving, once a rescuer has finished the dead process's list is empty |
| Resurrection.RescueTerminates | oxana/src/storage_internal.rs:2029-2095 | every move of a recovering process lowers a measure made of the list's length and what is in hand |
| Resurrection.DeadProcessIds | oxana/src/storage_internal.rs:2291-2328 | the result is, without repeats, the stale processes and the owners of lists that have no heartbeat |
| Resurrection.FreshIsNotDead | oxana/src/storage_internal.rs:2291-2328 | a process with a fresh heartbeat is never selected |
| Resurrection.FatesOfTheStart | oxana/src/storage_internal.rs:2052-2079 | with distinct ids an id is requeued iff its envelope of the start has resurrect, dropped iff it has not, unknown iff there is none |
| Resurrection.LeftoverListIsFound | oxana/src/storage_internal.rs:2310-2325 | among any keys, the owner of a leftover list is found iff its id has no colon |
| QueueControl.QueueControl.constructor | oxana/src/semaphores_map.rs:59-68 | no permit is out, the state is the config's, and the limit is the config's or 1 |
| QueueControl.QueueControl.TryAcquire | oxana/src/semaphores_map.rs:73-81 | grants exactly when active and below the limit, and then counts one more |
| QueueControl.QueueControl.ApplyConfig | oxana/src/semaphores_map.rs:86-95 | sets the state, and the limit if the config gives one, leaves the permits that are out, and notifies |
| QueueControl.QueueControl.Release | oxana/src/semaphores_map.rs:101-107 | gives one permit back, then notifies |
| QueueControl.EventKeepsSound | oxana/src/semaphores_map.rs:70-118 | every event keeps: the counter is the number of live permits, no wakeup is lost, no ticket is from the future |
| QueueControl.GrantsRespectTheLimit | oxana/src/semaphores_map.rs:73-107 | a permit is granted only while active and below the limit of that moment, and a release never finds zero |
| QueueControl.TheLastConfigIsInForce | oxana/src/semaphores_map.rs:86-95 | in every history the state is that of the last config set, and the limit that of the last config that gave one |
| QueueControl.PausedGrantsNothing | oxana/src/semaphores_map.rs:70-95 | from a pause until an active config, in every history, no permit is granted |
| QueueControl.EveryHistoryIsSound | oxana/src/semaphores_map.rs:70-118 | in every interleaving; and the permits never exceed the largest limit that was in force |
| QueueControl.RoomMeansProgress | oxana/src/semaphores_map.rs:70-84 | whenever there is room, a caller in `acquire` can check, can wake, or has a notification still to come |
| QueueControl.RoomLeadsToAPermit | oxana/src/semaphores_map.rs:70-84 | with room, anyone in `acquire` has a permit after at most four events, none of which gives up, drops a permit or changes the config |
| QueueControl.SleepersWaitForAReason | oxana/src/semaphores_map.rs:70-84 | with all notifications sent, a waiter that is not ready sleeps because the queue is paused or full |
| Batcher.BatchFormer.SpawnBatch | oxana/src/coordinator.rs:438-458 | a nonempty `pending` becomes the next batch and is empty afterwards |
| Batcher.BatchFormer.FlushBatcher | oxana/src/coordinator.rs:409-436 | drains the channel into full batches and a last one |
| Batcher.BatchFormer.FillBatch | oxana/src/coordinator.rs:353-396 | the inner loop ends with a full batch, the timeout, the end of the channel or the flush, as the history says |
| Batcher.BatchFormer.RunBatcher | oxana/src/coordinator.rs:307-407 | for every history of observations the batches and `pending` are those of the reference `Replay` |
| Batcher.ObserveTakes | oxana/src/coordinator.rs:322-406 | an observation adds the job it brings to batches plus `pending`, and nothing else, wherever a batch is cut |
| Batcher.EveryHistoryIsSound | oxana/src/coordinator.rs:307-458 | in every interleaving with senders and cancellation: batches, `pending` and channel joined are the accepted jobs in order, batches have 1 to `size` jobs, `pending` is empty at the outer select |
| Batcher.ChannelHoldsTwoBatches | oxana/src/coordinator.rs:288 | in every history the channel holds at most two batches |
| Batcher.ReturnLeavesNothing | oxana/src/coordinator.rs:307-458 | once it has returned its batches are exactly the accepted jobs |
| Batcher.NeverStuck | oxana/src/coordinator.rs:323-342 | every select has an enabled branch and gathered jobs always wait on a running timeout or the drain |
| Batcher.BatchIsCutIff | oxana/src/coordinator.rs:344-440 | a batch is cut iff something is gathered and it is full, the timeout ends, the channel has ended, or the timeout is zero at the first job; it then takes all that is gathered, and otherwise all of it stays |
| Batcher.WhereItWaits | oxana/src/coordinator.rs:344-440 | after a cut it waits for a first job, with jobs gathered it waits with the timeout, cancelled it only drains, and drained it returns |
| Batcher.ShortBatchHasAReason | oxana/src/coordinator.rs:344-406 | a batch with room left is cut only by a timeout or the end of the channel |
| Batcher.FlushEnds | oxana/src/coordinator.rs:409-436 | a closed task takes no more jobs and returns within one step per waiting job and one more |
| BatcherPool.AcceptedByGrows | oxana/src/coordinator.rs:253-273 | a job handed over extends what the batch formers of its own key accepted, and no other key's |
| BatcherPool.EventKeepsSound | oxana/src/coordinator.rs:239-275 | while the coordinator runs, at most the registered batch former of a key is open, and it is the youngest; spawn and send are separate steps |
| BatcherPool.EveryHistoryIsSound | oxana/src/coordinator.rs:239-275 | so in every history, replacements included |
| BatcherPool.ArrivalsAreHandedOver | oxana/src/coordinator.rs:239-300 | in every history the jobs that came are those handed over, once and in order, and the one being handed over: a job that a closed channel refuses is not lost |
| BatcherPool.StopLetsGo | oxana/src/coordinator.rs:344-406 | when the coordinator returns, every batch former can see the end of its channel |
| BatcherPool.EveryJobIsBatchedOnce | oxana/src/coordinator.rs:239-458 | once the batch formers have returned, the jobs of a key that were handed over, and with none in hand those that came, are in its batches once and in order |
| BatcherPool.BatchesDoNotMix | oxana/src/coordinator.rs:108-121 | every job of a batch has the worker name and the queue of its batch former |
| BatchRun.JobBatchFactory | oxana/src/worker_registry.rs:77-108 | the jobs are the payloads of exactly the values that parse, in order, and the invalid list names exactly the others with their errors; no job at all iff none parses |
| BatchRun.InvalidJobsByIndex | oxana/src/coordinator.rs:545-558 | maps exactly the indexes below the count that occur, each to its first error |
| BatchRun.ErrorsAreTheParse | oxana/src/coordinator.rs:505-521 | the indexed errors are the parse errors of the batch, index by index |
| BatchRun.BatchRunner.DropInvalid | oxana/src/coordinator.rs:505-533 | what is left is the envelopes and the permits of the survivors position by position, each invalid job is killed with its own error, and no permit is lost or doubled |
| BatchRun.BatchRunner.SetStartedAtBatch | oxana/src/executor.rs:113-125 | every envelope of the batch is stored with its start and, unless it resumes, without old state |
| BatchRun.BatchRunner.FinishBatchResult | oxana/src/executor.rs:267-335 | success finishes all; a failure judges each job by its own policy |
| BatchRun.BatchRunner.RunBatch | oxana/src/executor.rs:85-165 | refuses exactly a length mismatch; otherwise the k-th job runs and finishes with the k-th envelope |
| BatchRun.BatchRunner.ProcessPendingBatch | oxana/src/coordinator.rs:460-543 | for every parser and every batch: lengths never mismatch, each permit is released once, the store is the one left by filtering whole jobs, and the worker gets each survivor with its own context |
| BatchRun.BatchRunner.ProcessPendingJob | oxana/src/coordinator.rs:205-237 | a job outside batches ends like a batch of one |
| BatchOutcome.EachJobTakesItsOwnPolicy | oxana/src/executor.rs:308-331 | in a failed batch every job below its own limit is stored with one more retry and the error and is due after its own delay, or after the one that the settings give for its retries and delay, in seconds of 1,000,000 microseconds; after a panic after its own; at the limit it is gone; whatever becomes of the others |
| BatchOutcome.FailOneBuries | oxana/src/executor.rs:343-432 | a job at its limit heads the dead list as it was, with the error or the panic message; one below it leaves the list alone |
| BatchOutcome.InvalidAreBuried | oxana/src/coordinator.rs:505-533 | the filter puts every invalid job on the dead list with its own error, in the order of the batch |
| BatchOutcome.AllAreBuried | oxana/src/coordinator.rs:460-504 | when nobody is registered for the worker every job of the batch is put on the dead list with that error |
| BatchOutcome.FinishJudgesEach | oxana/src/executor.rs:267-335 | a success leaves no job of the batch in the store, anything else leaves each to its own policy |
| BatchOutcome.EveryJobOfTheBatchEnds | oxana/src/coordinator.rs:460-543 | for every batch, parser, worker and outcome, each job ends by its own arguments, retries and policy: gone, or back in the retry set with its own identity, one more retry, the error, its own delay, and its state only if the worker resumes |
| BatchOutcome.FilterJudgesEach | oxana/src/coordinator.rs:505-533 | after the filter an invalid job is gone and a valid one is as it was |
| BatchOutcome.BatchKeepsOnePlace | oxana/src/coordinator.rs:460-543 | a batch of held jobs keeps the one-place invariant and leaves no survivor in the processing list |
| BatchOutcome.InvalidStaysKilled | oxana/src/coordinator.rs:505-543 | the rest of the batch never brings a killed invalid job back |
| MetricFields.ParsePrinted | oxana/src/metrics.rs:61-68 | parsing a printed length gives it back, and one of 2^64 or more is refused |
| MetricFields.PaddedLengths | oxana/src/metrics.rs:65-68 | a plus sign and leading zeros are read over, and a plus sign alone is no length |
| MetricFields.TrailingBytes | oxana/src/metrics.rs:65-77 | the worker parser takes the name off the front whatever follows at a character boundary; the queue parser accepts iff nothing follows |
| MetricFields.FieldRoundTrip | oxana/src/metrics.rs:629-643 | splitting a printed worker field gives the name and metric back, for every name |
| MetricFields.QueueFieldRoundTrip | oxana/src/metrics.rs:645-660 | the same for queue fields |
| MetricFields.FieldsAreDistinct | oxana/src/metrics.rs:79-81 | two counters share a field iff worker and metric are the same |
| MetricFields.QueueFieldsAreDistinct | oxana/src/metrics.rs:498-500 | the same for queue counters |
| MetricFields.StoredTexts | oxana/src/metrics.rs:38-81 | the stored text of a worker field: length, colon, name, bar, and p, f, pn, xs, xf, xpn or ms |
| MetricFields.StoredQueueTexts | oxana/src/metrics.rs:45-47 | of a queue field: the same with p, s or f |
| MetricFields.PrintedIsDecimal | oxana/src/metrics.rs:61-63 | lengths are printed in decimal without leading zeros |
| Metrics.HistogramBucketIndex | oxana/src/metrics.rs:576-581 | the first bucket whose bound lies above the duration, the last one for the largest duration |
| Metrics.BucketTable | oxana/src/metrics.rs:15-30 | the fourteen buckets by their thresholds, from 25 milliseconds to five minutes |
| Metrics.CountersMean | oxana/src/metrics.rs:330-365 | for any selection of results: all jobs are processed, those of failures and panics failed, those of panics panicked; executions are results of a kind, panics also among the failed; the time is that of the successful ones |
| MetricRecording.JobMetricsBuffer.Record | oxana/src/metrics.rs:330-365 | every cell of the buffer stays the direct count of its results, up to saturation |
| MetricRecording.MetricsStore.FlushCell | oxana/src/storage_internal.rs:1563-1619 | the seven counters of one cell grow by the cell's values under their printed field names, fields of value zero are not created, no other field changes |
| MetricRecording.FlushedCellMeans | oxana/src/storage_internal.rs:1563-1619 | each printed field of the cell grows by its value, cut to 2^63 - 1, and fields of other minutes and workers stay |
| MetricRecording.MetricsStore.FlushJobMetrics | oxana/src/storage_internal.rs:1555-1635 | in whatever order the cells come, every field grows by what the buffer holds for it |
| MetricRecording.FlushReflects | oxana/src/storage_internal.rs:1555-1635 | hashes that hold, under printed names and no others, the direct count of the results flushed before hold that of all results afterwards, and no field passes 2^63 - 1, where HINCRBY would refuse |
| MetricRecording.FlushMetrics | oxana/src/result_collector.rs:177-201 | a flush moves the buffer's results into the hashes and empties the buffer |
| MetricAggregation.FallbackIsRightIffNoWrap | oxana/src/metrics.rs:173-182 | jobs stand in for executions exactly when none were counted, iff the 64-bit sum of the executions does not wrap around to zero or the stand-ins equal them; a sum up to 2^64 - 1 never does |
| MetricAggregation.ExecutionsCanWrap | oxana/src/metrics.rs:173-182 | an input where it does: 2^64 executions are thrown away |
| MetricAggregation.FinalizeMeans | oxana/src/metrics.rs:173-182 | counted executions stay; when none are counted the successful, failed and panicked jobs stand in for the three; the rest never changes, and `succeeded` is processed less failed, not below zero |
| MetricAggregation.OneField | oxana/src/metrics.rs:445-469 | a hash with one field gives its worker that counter, capped at 2^64 - 1, and a value below zero gives nothing |
| MetricAggregation.FieldSumStep | oxana/src/metrics.rs:445-469 | a sum over the fields of a hash does not depend on their order |
| MetricAggregation.AggregateCounterHashes | oxana/src/metrics.rs:415-495 | for hashes with any field texts and values and any iteration order: totals, every point and every worker's summary are the finalized sums of the fields that the parser reads as theirs, capped and wrapping around in `finalize` as without overflow checks, and the workers are those that some field is read as |
| MetricsEndToEnd.MinuteCounts | oxana/src/metrics.rs:445-469 | the fields of a minute's hash add up to the direct count of that minute's results |
| MetricsEndToEnd.WindowCounts | oxana/src/metrics.rs:439-472 | the hashes of distinct minutes add up to the direct count over the window |
| MetricsEndToEnd.FinalizeIsExact | oxana/src/metrics.rs:173-182 | on recorded results the fallback for old data changes nothing and `succeeded` counts the successful jobs |
| MetricsEndToEnd.ReportsAreDirectCounts | oxana/src/storage_internal.rs:1669-1688 | what is reported after any recording, flushing under printed names and splitting of those names is, kind by kind, the number of jobs and results and the time of the successful ones: totals and series, for all workers and for each |
| MetricsEndToEnd.ListedWorkers | oxana/src/metrics.rs:474-487 | a worker is listed iff one of its results falls into the window |
| MetricsEndToEnd.HashesFor | oxana/src/storage_internal.rs:2211-2253 | cutting the HGET replies into chunks of seven gives, per minute, exactly the worker's own fields |
| MetricsEndToEnd.PointsAgreeIffNoStrays | oxana/src/storage_internal.rs:2211-2253 | for any hash of 64-bit values, the fetched fields give the worker's counters of a minute, before `finalize`, iff no field that is read as the worker's without being a printed name adds to them |
| MetricsEndToEnd.FinalizedPointsAgreeIff | oxana/src/metrics.rs:173-182 | after `finalize`, when the executions do not overflow, they agree iff there is no such field, or no execution is counted under printed names and such fields are what the fallback fills in |
| MetricsEndToEnd.StrayFieldExists | oxana/src/metrics.rs:65-77 | such fields exist: the printed key with any further byte that starts a character |
| MetricsEndToEnd.FastFetchAgrees | oxana/src/storage_internal.rs:1690-1716 | without strays, aggregating the few fetched fields gives the worker's entry of the full aggregate, totals and series |
| MetricsEndToEnd.RecordedHashesHaveNoStrays | oxana/src/storage_internal.rs:1555-1635 | hashes that were only recorded into have no strays |
| MetricsEndToEnd.FetchedReportIsDirect | oxana/src/storage_internal.rs:1690-1716 | so on them the fetch reports the worker's direct counts |
| Throttle.Throttler.State | oxana/src/throttler.rs:64-99 | expired entries are gone, allowed iff fewer than the limit are left, the wait is computed from the lowest score |
| Throttle.Throttler.Consume | oxana/src/throttler.rs:29-57 | an allowed consume adds one entry per unit of cost and renews the expiry; a refused or free one adds nothing |
| Throttle.Throttler.PopQueueMessage | oxana/src/dispatcher.rs:97-125 | pops and charges when allowed and a job is there, otherwise waits |
| Throttle.StillAllowed | oxana/src/dispatcher.rs:108-118 | between the dispatcher's check and the one in `consume` allowed cannot turn false |
| Throttle.TurnKeepsTracks | oxana/src/throttler.rs:29-99 | after every turn the key holds exactly the charges still inside the window |
| Throttle.PoppedJobsAreCharged | oxana/src/dispatcher.rs:108-118 | every popped job is charged the cost it names, or 1 if it names none, with less than the limit in the window before its score |
| Throttle.WhatAChargeLeaves | oxana/src/throttler.rs:29-57 | one entry per unit of cost with the score, and the expiry renewed to whole seconds of the window |
| Throttle.RunsChargeWell | oxana/src/dispatcher.rs:97-125 | every run of one dispatcher charges in order and below the limit |
| Throttle.EveryRunIsBounded | oxana/src/dispatcher.rs:97-125 | in every window of every run of one dispatcher the cost charged is below the limit plus the last charge, however often the clock is read |
| Throttle.WaitSuffices | oxana/src/throttler.rs:86-92 | after the returned wait the next check finds nothing and is allowed when the limit is at least 1; and the wait exceeds the need by more than twice the oldest entry's age |
| Throttle.WhatItWaits | oxana/src/throttler.rs:86-92 | the wait is the age of the oldest entry plus the window, in whole milliseconds and one more; with nothing in the key, which takes the limit 0, it is the ordinary wait |
| Throttle.RunsBoundedIffWholeSeconds | oxana/src/throttler.rs:105-107 | every run keeps that bound iff the window is whole seconds or the limit is zero |
| Progress.JobProgressIterator.constructor | oxana/src/job_state.rs:34-51 | starts at the stored cursor, at 0 without one or with a negative one |
| Progress.JobProgressIterator.Next | oxana/src/job_state.rs:53-62 | yields the next item and stores the cursor past the item before it, with the number of items |
| Progress.RunAttempt | oxana/src/job_state.rs:34-74 | an attempt of any number of calls yields the items from the cursor on and leaves the cursor after every item but the one in hand |
| Progress.OverlapAtMostOne | oxana/src/job_state.rs:53-74 | for a job that resumes, the cursor never falls and the next attempt repeats at most one item |
| Progress.StateStep | oxana/src/storage_internal.rs:638-649 | only an update, a start without resume and a new enqueue change a job's stored state |
| Progress.NextAttemptFindsTheCursor | oxana/src/executor.rs:41-44 | over any run between two attempts the next one finds the stored cursor iff it resumes or there was no progress |
| Progress.NothingSkipped | oxana/src/job_state.rs:34-74 | every item before the cursor was yielded by some attempt |
| Progress.EndLeavesTheCount | oxana/src/job_state.rs:53-74 | the cursor reaches the number of items iff an attempt called once more after the last item |
| Progress.DoneStaysDone | oxana/src/job_state.rs:34-74 | after that, attempts yield nothing and leave the cursor |
| QueueConfig.ResolversAgreeIffNoHash | oxana-web/src/handlers.rs:730-752 | the dashboard's config is what the coordinator applies, for everything that can be stored, iff the registered key has no hash sign |
| QueueConfig.AgreeWithoutHash | oxana/src/coordinator.rs:704-732 | the agreement for one key, static, prefix or sub-queue |
| QueueConfig.StatusIsHonest | oxana-web/src/handlers.rs:768-817 | Override is shown iff the limit in force differs from the inherited one, which is the default shown |
| QueueConfig.RawQueueIsTheRegistered | oxana-web/src/handlers.rs:546-592 | the queue built for the dashboard's forms is the registered one |
| QueueConfig.WhatIsInForce | oxana/src/coordinator.rs:704-732 | a fixed limit always holds, a dynamic one is the key's own, else the prefix's, else the default; the state is the key's own, else the prefix's, else active |
| QueueConfig.UnknownKeys | oxana-web/src/handlers.rs:730-817 | a key that nobody registered is shown with the fixed limit 1 and active |
| QueueConfig.OverridesOnlyWhenNeeded | oxana/src/storage.rs:474-520 | an override is stored only for a limit that is not inherited anyway, and setting the inherited one clears it |
| QueueConfig.SetStateStores | oxana/src/storage.rs:523-543 | a state is stored with the override of a dynamic queue and without that of a fixed one, and no other key changes |
| QueueConfig.QueueConfigs.SetQueueConcurrency | oxana/src/storage.rs:474-497 | refuses fixed concurrency, stores nothing when nothing is needed, clears the override at the default |
| QueueConfig.QueueConfigs.SetQueueState | oxana/src/storage.rs:523-543 | stores the state, keeps a dynamic queue's override and clears a fixed one's |
| QueueConfig.SetConcurrencyTakesEffect | oxana/src/storage.rs:474-520 | the limit in force is the one set; the state stays iff a config was stored, nothing had to be, or the inherited state is active |
| QueueConfig.SetStateTakesEffect | oxana/src/storage.rs:523-543 | only the state in force changes |
| QueueConfig.WhoFollows | oxana/src/queue.rs:260-263 | a change at a prefix reaches exactly the sub-queues without a limit of their own, a change at a sub-queue no other key |
| TypeTree.JoinSplit | oxana-web/src/handlers.rs:1089-1094 | splitting at `::` and joining again gives the name back, for every text |
| TypeTree.PathAndLeafMakeTheName | oxana-web/src/handlers.rs:1089-1094 | group path and short name joined are the full name |
| TypeTree.LeafHasTwoSegments | oxana-web/src/handlers.rs:1089-1094 | the short name is the last two segments with `::` between them, or the only one, and the group path is the others |
| TypeTree.SegmentsAreWhole | oxana-web/src/handlers.rs:1090 | no segment has a separator inside |
| TypeTree.LessIsLexicographic | oxana-web/src/handlers.rs:1073-1087 | the order of siblings is lexicographic by characters |
| TypeTree.InsertAddsOne | oxana-web/src/handlers.rs:1096-1111 | an insert appends to its own group and leaves every other path alone |
| TypeTree.InsertKeepsTidy | oxana-web/src/handlers.rs:1096-1111 | siblings stay strictly ascending and no group is empty |
| TypeTree.Flatten | oxana-web/src/handlers.rs:1147-1161 | pushes the rows of the subtree, groups before entries, behind the rows already there |
| TypeTree.BuildRows | oxana-web/src/handlers.rs:1113-1166 | the rows are those of the tree of all registrations |
| TypeTree.ReadTree | oxana-web/src/handlers.rs:1147-1161 | a reader with a stack cut to each row's depth finds every entry and group at its path |
| TypeTree.EveryPathKeepsItsEntries | oxana-web/src/handlers.rs:1113-1166 | reading the rows back gives every path its entries in the order of registration |
| TypeTree.EveryEntryOnce | oxana-web/src/handlers.rs:1113-1166 | every entry is found as often as it was registered, and its path and short name make its name |
| TypeTree.GroupRowsAscend | oxana-web/src/handlers.rs:1147-1161 | the full paths of the group rows strictly ascend |
| TypeTree.GroupsBeforeEntries | oxana-web/src/handlers.rs:1147-1161 | below every group the sub-groups come before the entries |

## Left out

- Redis connections, pools, timeouts, failure tolerance and serialization: an operation either happens or returns its error before doing anything.
- Crashes in the middle of an operation of several commands, and a Replace that meets a poller between its ZREM and its LPUSH: the one-place invariant is not claimed there.
- `delete_job` and `cleanup`: they drop an envelope and leave its id waiting, so they are not steps of the machine; `Claims` has them as other clients that delete envelopes.
- Queue names that begin with the namespace, which `namespace_queue` leaves unprefixed.
- Malformed text in the jobs hash; in the dead list it is modelled.
- Worker code, panic catching, error types and message texts: an attempt ends in success, an error or a panic.
- Cron evaluation (which occurrences there are), the loops that call poll, ping and recovery, shutdown timing and heartbeats: they only decide when steps happen.
- Queue counters and the histogram hash: recorded, flushed and summed like the worker counters; their field names and the bucket choice are modelled.
- The order of worker summaries in a report and the queue-length samples.
- Prometheus export, process statistics, listings, paging, HTML and routes.
- The discovery of sub-queues by key pattern, which can also match keys of a queue whose prefix is longer.
- `build_on_demand_rows`, which repeats the cron rows for another entry type.
- TypeTree.InsertAddsOne: the walk that changes nodes in place is modelled as a function from tree to tree, so sharing between nodes is not captured.
- Batcher.FlushEnds: says how many steps a flush takes, not that the scheduler lets it take them.
- Storage.StorageInternal.EnqueueList: asks that no unique id equals an earlier plain one, because the code differs there (`Bulk.PairsAgreeIffApart`).
- QueueControl.EveryHistoryIsSound: fairness between waiters is not claimed; all waiters are woken and race.
- MetricRecording.MetricsStore.FlushCell: an HINCRBY that would pass the signed 64-bit limit adds here, where Redis refuses it and the flush fails half-way.
- MetricAggregation.AggregateCounterHashes: where overflow checks are on, `finalize` panics for a sum of executions above 2^64 - 1; the model wraps around.
- Cron.OneSlotAfterTheRace: no worker takes the job during the race; what a worker does to a job that is in two places is not modelled.
- ReplaceRace.OnePlaceIffAloneOrScheduled: no poller, worker or other client acts on the job during the race.
- MetricRecording.FlushReflects: exact totals are claimed below the 64-bit limits, and the retention of the hashes is not modelled.
