# A verified model of the compute broker

The broker accepts scripts and WASM binaries as tasks, stores them in a table, matches them to
workers connected by WebSocket, and answers clients that poll for results. Around it sit a
credit ledger, signed receipts, a CPU fallback for GPU work, and the way batch inputs are
wrapped into scripts. This project models the logic of these parts and proves what they keep.

`dafny verify dfyconfig.toml` checks everything.

| file | content |
|---|---|
| `BrokerCore.dfy` | the broker as a transition system with one program counter per goroutine |
| `BrokerInvariant.dfy`, `BrokerKept.dfy` | its inductive invariant, and the proof that every step keeps it |
| `BrokerSafety.dfy` | no task lost, finished is final, one holder, quiescence, bounded matching, deadlocks |
| `BrokerCopies.dfy`, `BrokerOrder.dfy`, `BrokerBusy.dfy` | bounded duplication; first-in first-out dispatch; busy flags |
| `BrokerDeadlock.dfy` | exactly when a full queue is fatal |
| `BrokerMatching.dfy` | registered tiers, creation times, the half second between searches and the 30 seconds of expiry |
| `BrokerRestart.dfy` | what a restart does to unfinished tasks |
| `BrokerWitness.dfy` | concrete runs that reach the states the theorems have to exclude |
| `BrokerRuns.dfy`, `BrokerObject.dfy` | the broker as an object updated in place, with the control flow of the source; other goroutines may run between any two statements |
| `Waiters.dfy`, `LongPoll.dfy`, `PollReplies.dfy` | waiter maps, long-polling, and what replies promise |
| `WakeUps.dfy`, `WakeUpWitness.dfy` | which wake-ups cannot be lost, and one that can |
| `BatchStatus.dfy`, `BatchSize.dfy` | batch replies: aggregation, monotonicity, completeness |
| `ParallelTransform.dfy` | chunked in-place transform, all interleavings |
| `CreditLedger.dfy`, `Receipts.dfy`, `ScriptWrap.dfy` | credits, receipts, batch scripts |

## How the broker is modelled

Goroutines: one scheduler, one per worker connection, one per submission, one per status
request. A mutex-protected section, a database statement, a channel operation and a socket
write are one step each, and steps of different goroutines interleave freely. Only one section
spans several steps: the disconnect cleanup holds `activeTasksMu` while it writes rows and sends
into the queue, so that mutex is a field of the state (`lock`) and every other section on it
waits for it. `workersMu` and the waiter mutexes are taken and released inside one step, which
is why no goroutine of the model waits for one mutex while holding another; `LockHolderProgress`
says when the holder of `activeTasksMu` can go on. Go's map order is a free choice.

Four fields of the state are history and are never read by a step: `keeper` (the connection last
made responsible for a task), `pushed`, `taken` and `handled` (queue traffic by position).

Assumptions about the environment, each written as a guard of the step it concerns:

- database statements succeed, and each is atomic;
- a write on a socket the broker has closed fails, and a failed write is never answered;
- a worker answers only what was dispatched on its own connection, each dispatch at most once,
  under the same non-zero task ID (the worker loop, core/worker.go:144-252);
- a worker ID registers again only after the cleanup of its earlier connection has finished;
- task IDs are fresh and non-zero, and the ID of a batch is non-zero and its own (both are
  nanosecond clock readings; two subtasks of one batch that received the same ID would violate this);
- the clock does not run backwards;
- a socket write returns, with or without an error (core/broker.go:511 sets no write deadline, so a
  peer that stops reading could otherwise hold the scheduler there);
- the table is empty at the start, except in `BrokerRestart`.

The characters of a worker ID stand for its bytes.

## Findings

- **Worker IDs shorter than eight bytes strand their tasks.** The registration log line slices
  `reg.ID[:8]` (core/broker.go:167) after the worker has entered the registry and before the
  cleanup is deferred. With a shorter ID the goroutine panics there; the WebSocket stays open and
  the worker stays registered, so the scheduler can dispatch to it and nobody reads the answer.
  `NoTaskIsLost` therefore is an equivalence: an unfinished task is looked after if and only if it
  is not in the hands of such a worker. `ShortIdStrandsATask` reaches the bad state and
  `StrandedForever` shows that it stays bad.
- **An idle worker can be mapped.** A worker can disconnect, finish its cleanup and register again
  between being matched and being recorded in `activeTasks`. Its new connection is idle while a
  mapping names its ID. `IdleWorkerIsMappedIff` gives the exact condition, `IdleWorkerCanBeMapped`
  the run. It does no harm: the pending socket write goes to the closed connection and fails.
- **A full queue can deadlock the broker.** The scheduler is the only reader of the queue. With
  1000 entries queued, a cleanup that has to requeue one more blocks in the send while it holds the
  mutex the scheduler needs next (`FullQueueDeadlocks`). `DoomedIff` gives the exact condition: no
  run ever takes another task off the queue if and only if the pushes forced on the way back to the
  receive (the lock holder's, if the scheduler needs the lock, and its own requeue, if its target is
  closed) outnumber the free slots. It takes at most one free slot (`DoomNeedsAFullQueue`), and
  `SendsDoNotBlock` gives a bound that keeps clear of it.
- **A restart abandons unfinished tasks.** The table survives a restart, the queue does not, and
  nothing queues old rows again: `RestartAbandonsTasks` shows that no run of the new process changes
  any of them.
- **A status request can register too late.** It reads the row first and registers its channel
  second; a task that finishes and is announced in between does not wake it, and it sleeps until its
  timeout (`LateRegistrationIsNotWoken`). `NothingIsMissedIff` gives the exact condition, which holds
  or fails just before the registration: something finished since the read, and no announcement of it
  is still on its way. `CanStillBeWokenIff` says when a request that registers after everything is
  over can be woken at all.
- **Batch 0 is never announced.** Single tasks are stored under batch 0, so a batch status request
  for 0 lists all of them, but the broker notifies non-zero batches only (`BatchZeroIsNeverWoken`).
- **Inputs are not always extracted as submitted.** The broker quotes a batch input with `%q` and
  the worker reads it back with a regular expression that does not undo the escapes.
  `ExtractionIsExactIff` says for exactly which inputs the round trip holds; a URL with a backslash
  (`UrlWithBackslashIsChanged`) is one for which it does not.

## Model

| member | source | states |
|---|---|---|
| `BrokerInvariant.MappedWorkerIsBusy` | core/broker.go:216-225 | unless the scheduler is in the middle of a dispatch, the registered connection of a worker that some task is mapped to is busy |
| `BrokerKept.ScanTakesOneTask` | core/broker.go:178-184 | the disconnect scan finds at most one task; it is unfinished, and no other open connection still answers for it |
| `BrokerKept.IdlingTouchesNobody` | core/broker.go:518-522 | clearing Busy after a failed write, which goes by worker ID, never hits a connection that has a dispatch outstanding |
| `BrokerKept.SubmitKeepsInv` | core/broker.go:320-330 | creating and queueing tasks keeps the protocol invariant |
| `BrokerKept.ReplyKeepsInv` | core/broker.go:195-242 | every step of the reply loop keeps the protocol invariant |
| `BrokerKept.CleanupKeepsInv` | core/broker.go:170-193 | every step of the disconnect cleanup, the requeue under the lock included, keeps the protocol invariant |
| `BrokerKept.MatchKeepsInv` | core/broker.go:443-493 | every step from receiving a task to matching or expiring it keeps the protocol invariant |
| `BrokerKept.DispatchKeepsInv` | core/broker.go:495-526 | mapping, marking, sending and the failure path keep the protocol invariant |
| `BrokerKept.StepKeepsInv` | core/broker.go:138-527 | every step of every goroutine keeps the protocol invariant |
| `BrokerKept.RunKeepsInv` | core/broker.go:138-527 | so does every run |
| `BrokerKept.ReachableInv` | core/broker.go:45-70 | the invariant holds in every state some interleaving reaches from an empty broker |
| `BrokerSafety.OthersLeaveAlone` | core/broker.go:138-243 | a step of one goroutine never moves another connection's goroutine, and only ever adds to what is unanswered on it |
| `BrokerSafety.StepKeepsFinished` | core/broker.go:178-233 | no step of any goroutine changes any column of a completed or failed row |
| `BrokerSafety.FinishedIsFinal` | core/broker.go:451-526 | once completed or failed, a row is the same after every run, with duplicate queue entries and disconnects racing the scheduler |
| `BrokerSafety.AnswerIsRecordedVerbatim` | core/broker.go:195-233 | after every run, a reply that was read is still in its handler's hand or is the task's row, byte for byte, failed exactly if it carries an error |
| `BrokerSafety.VisibleRowsAreConsistent` | core/db.go:137-152 | in every reachable state a pending or running row carries no result, a completed one no error, a failed one an error |
| `BrokerSafety.NoTaskIsLost` | core/broker.go:138-193 | in every reachable state an unfinished task is queued, held by a goroutine that will push or dispatch it, or on a connection that will process its reply or requeue it, if and only if it was not dispatched to a worker whose ID is shorter than eight bytes |
| `BrokerSafety.NoTaskIsLostWithFullIds` | core/broker.go:167 | when all worker IDs have at least eight bytes, no task is ever lost |
| `BrokerSafety.UnstrandedIsServed` | core/broker.go:443-527 | one direction of that equivalence, from the invariant |
| `BrokerSafety.StrandedIsNotServed` | core/broker.go:163-170 | the other direction: a task dispatched to a short-ID worker is unfinished and nobody will answer or requeue it |
| `BrokerSafety.StrandedForever` | core/broker.go:163-170 | no run frees such a task: it stays unfinished and unserved |
| `BrokerSafety.OneHolderPerTask` | core/broker.go:216-233 | a task is unanswered, or its reply in processing, on at most one connection, and then it is running and the scheduler does not hold it |
| `BrokerSafety.OneTaskPerWorker` | core/broker.go:458-498 | no two tasks are mapped to one worker ID |
| `BrokerSafety.UnansweredMeansBusyAndMapped` | core/broker.go:495-511 | an unanswered dispatch is the only one on its connection, which is busy, mapped to that task and of a suitable tier |
| `BrokerSafety.IdleWorkerIsMappedIff` | core/broker.go:458-498 | a registered idle worker never has an unanswered dispatch, and has a mapped task exactly while the scheduler is dispatching to an earlier connection of the same ID |
| `BrokerSafety.QuietMeansRunning` | core/broker.go:460-511 | when nothing is in motion every unfinished task is running and mapped to one registered, busy worker of a suitable tier, which holds only this dispatch |
| `BrokerSafety.MatchingSleepsAtMost61Times` | core/broker.go:457-489 | with sleeps of at least 500 ms the matching loop sleeps at most 61 times |
| `BrokerSafety.ExpiresOnlyOldPendingTasks` | core/broker.go:475-488 | a task fails for want of a worker only if it is pending, unmapped, older than 30 s, and no connection still answers for it; its row then carries the time-out message and nothing else, and no other row changes |
| `BrokerSafety.MatchedTaskStaysPending` | core/broker.go:475-478 | the status read after a sleep is always still pending: nobody else can move the task |
| `BrokerSafety.SchedulerBlockedIff` | core/broker.go:443-527 | the scheduler cannot step in exactly four situations: empty queue, asleep, waiting for the held mutex, pushing into a full queue |
| `BrokerSafety.LockHolderProgress` | core/broker.go:178-192 | the goroutine that holds `activeTasksMu` can step if and only if it is not about to push into a full queue |
| `BrokerDeadlock.DoomedIff` | core/broker.go:178-192 | in every reachable state, no run ever takes another task off the queue if and only if the forced pushes outnumber the free slots |
| `BrokerDeadlock.DoomIsPermanent` | core/broker.go:443-527 | such a state stays such a state over every run; at a standstill neither the scheduler nor the queue moves again |
| `BrokerDeadlock.Escape` | core/broker.go:443-527 | from every other state some run brings the scheduler back to the receive |
| `BrokerDeadlock.DoomNeedsAFullQueue` | core/broker.go:48 | the queue then has at most one free slot |
| `BrokerDeadlock.DeadlockedIsDoomed` | core/broker.go:186-192 | a full queue whose reader waits for a push into it is such a state |
| `BrokerMatching.RegisteredTierHolds` | core/broker.go:154-165 | over every run a connection keeps the tier its worker registered with, and whatever is unanswered on it is a task of that tier or of tier 0 |
| `BrokerMatching.ScanIsExact` | core/broker.go:458-466 | the scheduler can match a task to exactly the registered idle connections that fit its tier, and goes to sleep only if there is none |
| `BrokerMatching.CreatedInBetween` | core/db.go:125-134 | a task created during a run carries a clock reading of that run |
| `BrokerMatching.NoExpiryWithin30Seconds` | core/broker.go:480-482 | no run of at most 30 s fails a task for want of a worker that did not exist at its beginning |
| `BrokerMatching.ExpiresAfter30Seconds` | core/broker.go:480-489 | after a sleep the task is failed if it is more than 30 s old, and searched for again otherwise |
| `BrokerMatching.EmptySearchSleeps` | core/broker.go:471-473 | after a search without result the scheduler rests for 500 ms, whatever else happens, and can then go on |
| `BrokerRestart.RestartAbandonsTasks` | core/broker.go:45-70 | whatever table a process starts with, no run of it changes one of those rows, queues or maps one of those tasks |
| `BrokerWitness.ShortIdStrandsATask` | core/broker.go:163-170 | a reachable state in which a task is stranded on a worker with a seven-byte ID |
| `BrokerWitness.IdleWorkerCanBeMapped` | core/broker.go:458-498 | a reachable state in which a registered idle worker has a mapped task |
| `BrokerWitness.FullQueueDeadlocks` | core/broker.go:48 | a reachable standstill with 1000 queued tasks |
| `BrokerCopies.StepKeepsBound` | core/broker.go:185-191 | every step keeps the sum of queue entries, copies in hand and unanswered dispatches, less the cleanups that have scanned, within the number of unfinished tasks |
| `BrokerCopies.DuplicationIsBounded` | core/broker.go:185-191 | in every reachable state the copies in circulation are at most the unfinished tasks plus the cleanups begun |
| `BrokerCopies.SendsDoNotBlock` | core/broker.go:48 | while unfinished tasks and cleanups begun total at most 1000, whoever is about to push finds a free slot |
| `BrokerOrder.StepKeepsOrder` | core/broker.go:443-527 | every step keeps the invariant that ties queue entries to push positions |
| `BrokerOrder.HandledInPushOrder` | core/broker.go:443-527 | dispatches and expiries, in the order they happen, take queue entries in increasing push position |
| `BrokerOrder.HandledEntryIsTheTask` | core/broker.go:481-511 | the entry recorded by a dispatch or an expiry is a push of exactly that task |
| `BrokerOrder.NeverOvertaken` | core/broker.go:330 | a task pushed only once has been dispatched or expired before any entry pushed after it |
| `BrokerBusy.StepKeepsBusy` | core/broker.go:195-225 | every step keeps busy flags backed by work |
| `BrokerBusy.BusyMeansOccupied` | core/broker.go:459-522 | in every reachable state a registered worker that is busy has an unanswered dispatch, a reply still to clear its flag, or a dispatch under way: no worker stays busy for nothing |
| `BrokerBusy.QuietWorkersAreBusyIff` | core/broker.go:216-225 | when nothing is in motion a registered worker is busy if and only if an unfinished task is mapped to it |
| `BrokerObject.Broker.constructor` | core/broker.go:45-70 | a new broker is the initial state and satisfies the invariant |
| `BrokerRuns.StepKeepsMine` | core/broker.go:138-527 | what a goroutine can rely on while another takes a step: its own program counter and data, the lock it holds and the mappings under it, and that rows only grow |
| `BrokerRuns.OthersKeepMine` | core/broker.go:138-527 | so it can over any run of the others, which is what the methods below allow between any two statements |
| `BrokerObject.Broker.HandleReply` | core/broker.go:195-242 | however the others interleave, a handled reply ends as the task's row, verbatim, with the mapping gone; it stops early only at a held lock |
| `BrokerObject.Broker.CollectTasks` | core/broker.go:179-184 | the scan lists every task mapped to the worker, each once |
| `BrokerObject.Broker.Cleanup` | core/broker.go:170-193 | a finished cleanup leaves the lock free, the worker out of the registry and mapped to nothing, and every task it found pushed again; it stops early only at a held lock or a full queue |
| `BrokerObject.Broker.RequeueAll` | core/broker.go:185-192 | the loop under the lock unmaps every listed task and pushes it, in spite of the other goroutines |
| `BrokerObject.Broker.HandleWorker` | core/broker.go:138-243 | a whole connection, from registration over any number of replies to the cleanup, is a run of the transition system; the connection has the registered worker ID and tier to the end; a short worker ID ends it with the worker still registered |
| `BrokerObject.Broker.FindWorker` | core/broker.go:459-465 | returns an idle worker of the right tier, and none only if there is none |
| `BrokerObject.Broker.Search` | core/broker.go:445-493 | the lookup and the matching loop end within 61 sleeps: skipped because not pending, failed with the time-out message, or matched |
| `BrokerObject.Broker.Dispatch` | core/broker.go:495-526 | a sent task is running, mapped and unanswered on a busy worker of a suitable tier; after a failed write it is pending, unmapped and last in the queue; otherwise the scheduler stands at a held lock or a full queue |
| `BrokerObject.Broker.Schedule` | core/broker.go:443-527 | one turn of the scheduler's loop takes the first queue entry and ends in one of these ways |
| `BrokerObject.Broker.SubmitBatch` | core/broker.go:897-911 | a finished submission has created one new task per input, in this batch and tier, each with a creation time between call and return, and pushed each; it stops early only at a full queue |
| `Waiters.WithoutKeepsOthers` | core/broker.go:387-392 | the clean-up filter removes one channel and keeps every other as often as it was listed |
| `Waiters.WaiterMap.Remove` | core/broker.go:385-399 | removes the channel, and the key when its list becomes empty |
| `Waiters.WaiterMap.CloseAll` | core/broker.go:72-92 | closes each listed channel as often as it is listed and forgets the key |
| `LongPoll.StepGrows` | core/broker.go:138-527 | no step deletes a row, changes its batch, tier or age, or changes it at all once finished |
| `LongPoll.NotifiesAfterFinish` | core/broker.go:233-240 | a notification for a task is sent only after its row is finished, one for a batch only after one of its rows is |
| `LongPoll.SysStepKeepsInv` | core/broker.go:363-401 | every step of broker and status requests keeps the waiter bookkeeping and the truth of every snapshot |
| `LongPoll.SysRunKeepsInv` | core/broker.go:363-401 | so does every run |
| `PollReplies.RegistryIsExact` | core/broker.go:370-400 | the waiter map lists exactly the channels of requests still waiting, each once under its own key; no key has an empty list; no channel is closed twice |
| `PollReplies.NotificationWakesAll` | core/broker.go:72-92 | a notification closes the channel of every request waiting under its key, even one whose timeout has fired, and no other |
| `PollReplies.WokenReplyIsFinal` | core/broker.go:378-382 | a task request woken by a notification replies with the finished row that is in the table |
| `PollReplies.LaterRepliesAgree` | core/broker.go:363-413 | once some request was answered with a finished row, every request asked later is answered with that row |
| `PollReplies.BatchRepliesAreMonotone` | core/broker.go:943-996 | after submission returned, a later batch reply lists the same subtasks and every finished row of an earlier one unchanged |
| `PollReplies.NotFoundMeansAbsent` | core/broker.go:363-367 | a request is answered "not found" only if there was no row under its key when it was asked, whatever ran in between |
| `PollReplies.AskedIsFound` | core/broker.go:943-954 | so a request asked while there is a row under its key, for a task or a batch, is never answered "not found" in any continuation |
| `PollReplies.FirstReadDecides` | core/broker.go:943-963 | the first read answers "not found" exactly when there are no rows, replies at once exactly when all of them are finished, and waits exactly when one is not |
| `PollReplies.RequestCanBeAnswered` | core/broker.go:943-996 | a request that has something to show comes to a reply by its own steps alone, without any other goroutine |
| `WakeUps.FinisherWillTell` | core/broker.go:233-240 | whichever step finishes a task, its goroutine is then about to notify for the task and for its batch |
| `WakeUps.StillComing` | core/broker.go:481-487 | a notification about to be sent stays so until it is sent, whatever other goroutines do |
| `WakeUps.NoWakeUpIsLostOnceRegistered` | core/broker.go:373-400 | a waiting request that is owed nothing beyond what is on its way stays so: whenever something else under its key has finished, it has been woken or some goroutine is about to send the notification |
| `WakeUps.NothingIsMissedIff` | core/broker.go:363-375 | for a request about to register: in every continuation whatever finished unseen wakes it or is about to, if and only if nothing has finished unseen and been announced already |
| `WakeUps.MissedTaskIff` | core/broker.go:363-375 | for a task request that is: the task is finished and no announcement is on its way |
| `WakeUps.CanStillBeWokenIff` | core/broker.go:72-92 | a request that registers when everything under its key is over can be woken by some run if and only if the announcement is still on its way |
| `WakeUps.QuietMeansWoken` | core/broker.go:963-995 | once the broker is quiet, a request that had missed nothing when it registered has been woken unless nothing it has not seen has finished |
| `WakeUps.BatchZeroIsNeverWoken` | core/broker.go:238-240 | no request for batch 0 is ever woken by a notification |
| `WakeUpWitness.LateRegistrationIsNotWoken` | core/broker.go:363-375 | a reachable state in which a request sleeps on a finished task and no notification is coming |
| `BatchStatus.Aggregate` | core/broker.go:998-1029 | the outputs are, in record order, the `stdout` of exactly the completed records and the errors the `error` of exactly the failed ones; pending and running count the records of those statuses; the batch is reported finished exactly when every record is, as failed exactly when one failed |
| `BatchStatus.GetBatchTasks` | core/db.go:199-236 | returns exactly the rows of the batch, each once, in some order |
| `BatchStatus.BatchRowsAreASelection` | core/db.go:204-207 | any such list is an answer the transition system lets a batch read give |
| `BatchStatus.OrderDoesNotMatter` | core/db.go:204-207 | the row order of the query shows only in the order of outputs and errors |
| `BatchStatus.FinishedNeverFalls` | core/broker.go:956-961 | finished counts of two such replies never fall |
| `BatchStatus.FinalReplyIsStable` | core/broker.go:1021-1043 | once a batch is finished, later replies have the same status and counts, and the same outputs and errors up to order |
| `BatchStatus.BatchNeverGoesBack` | core/broker.go:922-1044 | for any two requests made one after another once submission returned: the replies have the same total, the finished count is not lower, and once the status is final the later reply is the same up to the order of outputs and errors |
| `BatchStatus.AnswerIsShown` | core/broker.go:1006-1018 | once an answer is in the table, every batch reply asked for later lists its output, or its error if it has one, word for word |
| `BatchSize.BatchSizeIsKept` | core/broker.go:897-911 | in every run, subtasks created plus subtasks still to be created of a batch stay the same number |
| `BatchSize.BatchHasOneTaskPerInput` | core/broker.go:893-917 | once its submission has returned, a batch has as many subtasks as inputs, whatever else runs |
| `BatchSize.PollingChangesNothing` | core/broker.go:341-414 | leaving the status requests out of a run leaves the broker's part of it unchanged |
| `BatchSize.TotalIsTheNumberOfInputs` | core/broker.go:893-1034 | the total of every status reply asked for after submission returned is the number of inputs submitted |
| `ParallelTransform.ChunksPartition` | core/engine_gpu_host.go:59-75 | each byte lies in the chunk of exactly one thread |
| `ParallelTransform.ChunkIsLeastCover` | core/engine_gpu_host.go:59-62 | the chunk size is the least positive number of bytes per thread that covers the buffer |
| `ParallelTransform.TransformIsItsOwnInverse` | core/engine_gpu_host.go:76-79 | the transform run twice with the same thread count restores the input |
| `ParallelTransform.EveryInterleavingAgrees` | core/engine_gpu_host.go:67-82 | every interleaving of the threads' loads and stores ends in the same sequential result |
| `ParallelTransform.StepDoesOneAccess` | core/engine_gpu_host.go:76-79 | each step uses up one of a fixed number of memory accesses, so every run ends |
| `ParallelTransform.RunsFinish` | core/engine_gpu_host.go:67-82 | from every state some schedule lets all threads return |
| `ParallelTransform.RunThread` | core/engine_gpu_host.go:69-80 | one goroutine's loop changes exactly the bytes of its chunk, each once |
| `ParallelTransform.SimulateParallel` | core/engine_gpu_host.go:57-84 | under any schedule, with `c` the least positive chunk size that covers the buffer, byte `j` of the copy ends as the input's byte xor `((j / c) * 31) mod 256` |
| `CreditLedger.SumUpdate` | core/db.go:107-117 | setting one balance changes the sum of balances by exactly the difference |
| `CreditLedger.PaidOutIgnoresStatus` | core/db.go:281-287 | deciding a payout request does not change the amount recorded as requested |
| `CreditLedger.Ledger.constructor` | core/db.go:38-60 | an empty ledger is conserved |
| `CreditLedger.Ledger.SetBalance` | core/db.go:107-117 | inserts or overwrites one balance |
| `CreditLedger.Ledger.GetBalance` | core/db.go:89-104 | returns the balance, opening the account at 100 if there is none |
| `CreditLedger.Ledger.Credit` | core/sender.go:166-167 | reads a balance, opening the account if need be, and adds to it |
| `CreditLedger.Ledger.Deposit` | core/broker.go:600-604 | adds 100 credits per dollar, conserving the ledger |
| `CreditLedger.Ledger.RequestPayout` | core/broker.go:682-716 | succeeds exactly for a named account, a positive covered amount and a stored request; each refusal occurs exactly for its own cause and leaves all balances as shown before |
| `CreditLedger.Ledger.TakeAndRecord` | core/broker.go:699-710 | moves the amount from the balance to the request, or restores the balance when the insert fails |
| `CreditLedger.Ledger.DecidePayout` | core/broker.go:747-766 | changes the status of the one request and moves no credits: rejection does not refund |
| `CreditLedger.Ledger.Settle` | core/sender.go:159-170 | moves the total price from sender to worker, resetting a zero sender balance to 100 first; conserves the ledger also when both are one account |
| `CreditLedger.RunAll` | core/broker.go:588-772 | any sequence of operations keeps the sum of balances plus all payout requests equal to 100 per account, 100 per dollar deposited and 100 per sender reset, and the resets are exactly the settlements that found the sender at zero |
| `Receipts.ShownAlikeMeansClose` | core/billing.go:42-43 | amounts printed alike differ by at most a millionth |
| `Receipts.SixDecimalsIff` | core/billing.go:42-43 | an amount is printed as the millionth nearest to it, the even one of two equally near, with its sign; and as nothing else |
| `Receipts.TextReadsBack` | core/billing.go:42-43 | splitting at the first and the last three colons reads every field of the signed text back, whatever the worker ID contains |
| `Receipts.SignedTextStatesTheReceipt` | core/billing.go:42-43 | read back, the signed text gives the receipt's own task ID, worker ID, time, rate and total, in this order, each amount to the nearest millionth |
| `Receipts.SignedTextOfOneReceipt` | core/billing.go:42-43 | the text of one concrete receipt, letter by letter |
| `Receipts.SignedTextIsUnambiguous` | core/billing.go:42-43 | receipts with equal signed text agree on task ID, worker ID and all three printed amounts |
| `Receipts.HexReadsBack` | core/billing.go:46 | decoding an encoded signature gives it back |
| `Receipts.HexDecodesIff` | core/billing.go:58-69 | a text decodes to given bytes exactly when, its capital letters lowered, it is their encoding |
| `Receipts.GenerateReceipt` | core/billing.go:21-49 | each error occurs exactly for its cause; a receipt carries the given fields and their product as price, and verifies under the matching public key |
| `Receipts.VerifyReceipt` | core/billing.go:52-73 | each error occurs exactly for its cause, and the verdict depends on the receipt only through its signature and its fields as printed |
| `Receipts.GeneratedReceiptsVerify` | core/billing.go:21-73 | a receipt is generated exactly for a 64-byte key, carries the given fields and their product as price, and always verifies under the matching public key |
| `ScriptWrap.EscapedIsOneLine` | core/broker.go:901 | a quoted input contains no newline |
| `ScriptWrap.QuotingReadsBack` | core/broker.go:901 | read as a string literal, the quoted text denotes the input again, whatever characters the input has |
| `ScriptWrap.FirstNewlineEndsInputLine` | core/broker.go:901 | for every input the first newline of the wrapped script is the one that ends the `__INPUT__` line |
| `ScriptWrap.PolyfillFollowsDefinition` | core/worker.go:214-219 | the polyfill lands directly after the definition, and cutting it out gives back the wrapped script |
| `ScriptWrap.MatchIff` | core/worker.go:167 | at a given place the detection matches exactly the texts the regular expression describes, with that submatch |
| `ScriptWrap.ExtractIsLeftmost` | core/worker.go:167-170 | what is extracted is the submatch of the leftmost match; nothing is extracted only if there is no match anywhere |
| `ScriptWrap.ExtractsTheEscapedInput` | core/worker.go:167-170 | from an input without quotes the worker extracts its quoted form |
| `ScriptWrap.ExtractionIsExactIff` | core/worker.go:167-170 | the worker extracts exactly the submitted input if and only if it is not empty and each of its characters is printable and neither a quote, an apostrophe nor a backslash |
| `ScriptWrap.BackslashIsDoubled` | core/worker.go:167-170 | a backslash in an otherwise plain input comes out doubled |
| `ScriptWrap.UrlWithBackslashIsChanged` | core/worker.go:167-170 | so for a concrete URL the worker extracts another one than was submitted |
| `ScriptWrap.PlainInputsAreExtracted` | core/worker.go:167-170 | so non-empty printable ASCII without quotes and backslashes is extracted as submitted |
| `ScriptWrap.PrepareScript` | core/worker.go:164-224 | the script is unchanged unless a URL was extracted; then the polyfill for that URL stands just after the first newline, or in front when there is none, and nothing else changes |
| `ScriptWrap.PlainInputsAreServed` | core/worker.go:164-224 | for every input that is extracted exactly, the script runs with its definition first, the polyfill of its own page next if it is a URL, and the script last |

## Left out

- Transport and encodings: HTTP handlers, CORS, WebSocket upgrade, JSON, multipart forms, the dashboard.
- Payment provider: checkout session, webhook parsing and signature check; only the deposit they lead to is modelled.
- Execution: WASM, QuickJS, CUDA, Metal, GPU detection, and the fetch of a page by the worker; the polyfill is a parameter.
- SQLite: each table is a map and each statement one atomic step; no statement fails except the insert of a payout request.
- Payload columns: `wasm_bytes` and `data_bytes` are written once, at creation, and no other statement changes them; rows of the model do without them.
- Ed25519 is abstract: signing and verifying (sections 5.1.6 and 5.1.7 of RFC 8032) are functions for which one key pair's signatures verify.
- Floating point: amounts are real numbers, so rounding in arithmetic, NaN, infinities and negative zero are not modelled; rounding to six printed decimals is.
- The 20 s timeout of a status request has no clock: in the model a waiting request may time out at any moment, so what is proved of replies holds whenever the timer fires.
- Interleaved balance handlers: each reads and then writes a balance without a lock; conservation is stated for operations one after another.
- Overlapping registrations under one worker ID, and malformed or unsolicited replies.
- NoWakeUpIsLostOnceRegistered: excludes batch 0, which is never notified (`BatchZeroIsNeverWoken`).
- NothingIsMissedIff: excludes batch 0 for the same reason.
- QuietMeansWoken: excludes batch 0 for the same reason.
- SchedulerBlockedIff: does not count waiting inside a socket write, which is assumed to return.
- Timed-out replies are not refreshed; the reply then carries what the first read showed.
- Liveness: that an enabled step is eventually taken is not assumed, so theorems say who can act, not when.
- `progress_percent` of the batch reply, a quotient of the counts.
- The sender's submission and polling loop. It decodes the task ID of the submission reply as a number while the broker encodes it as a string; JSON decoding is not part of this model.
- Command line, key files, daemon and FFI entry points, broker address clean-up, sample tasks.
