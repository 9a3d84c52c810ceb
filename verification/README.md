# FORGE, verified

FORGE emulates I/O forwarding: client processes send the opens, reads, writes and closes
of a synthetic workload to forwarding servers, which queue, schedule, batch and execute
them and answer. This project models that system and the components it is built on, and
proves what they promise.

The modules, by the part of the program they follow:

| part | modules |
|---|---|
| client-to-forwarder mapping and file offsets, and the checks of the set-up | `Arithmetic`, `Offsets`, `SetupChecks` |
| the whole system as a state machine | `Forge`, `Protocol`, `Conversation`, `Forwarding`, `TableSteps`, `Staffing`, `ForwarderSteps`, `Pipeline`, `Invariant`, `Steps`, `Guarantees`, `Conservation`, `Termination`, `Budget`, `Workload`, `Manning`, `Interleavings` |
| the server's threads and the client's buffer as code that updates its state | `Server`, `ServerSteps`, `ClientBuffer` |
| the ready queue on the linked ring, and the dispatcher's batches | `FwdList`, `Dispatcher`, `DispatcherSteps` |
| the thread pool | `JobQueue` (the linked queue), `ThreadPool` (the threads as small steps) |
| the end of a forwarder's threads | `Shutdown` |
| the intrusive hash table with its application-order list and its merge sort | `Bits`, `HashChains`, `HashTable`, `MergeTheory`, `HashSort` |
| the JSON tokenizer | `JsmnModel` (one step and a run), `JsmnParser` (the code), `JsmnGrammar` (RFC 8259), `JsmnLexis` (strings and unquoted values), `JsmnLaws` |
| the priority queue | `HeapTheory`, `PriorityQueue` |

Code that changes things in place is a class or an array method, proved against a function
on values; the laws are lemmas about those functions. `Valid()` is in each class what every
operation keeps. The concurrent parts are state machines whose runs are all interleavings of
their steps; a step is what a thread does between two accesses to shared state. Fields that
a comment calls history are read by no step: they record what the theorems speak of.

The pipeline (`Pipeline.Do`) has every client with its program counter, the messages in
flight in both directions, each forwarder's incoming queue, its handlers and pool threads with
what each is doing, the pool's queue of jobs, scheduler set, ready queue, dispatcher, batches,
table of requests, table of open files and descriptors, and the files byte by byte. A handler
is busy from the taking of a request to its answer or its passing to the pool; a pool thread is
busy with a read or a write until the scheduler has it, also while it waits for the client's
buffer, and with a batch through its dispatch or its callback, which are jobs of the same
first-in first-out queue. Where the source would abort, or would use a record or a descriptor
that it does not have, the step ends in a fault. The theorems show that no fault can occur,
except in a run that only reads and validates: that one fails its validation if a range does not
hold its letter beforehand (`Guarantees.ReadOnlyRunsCheckWhatWasThere`).
The assumptions are:

- messages between two processes stay in order and are received by tag;
- the scheduler hands back each identifier it was given once, at any time and in any order;
- reads and writes move their full size, and an open gets a descriptor that is not in use;
- no request is still unanswered when 8,000,001 identifiers have been drawn since its own,
  its own included (`Forwarding.Window`); `Budget.RoomyHasRoom` shows when the set-up alone
  guarantees this;
- allocation succeeds and integers do not overflow;
- there is at least one forwarder, and the request size is at least one byte and at most the
  128 MiB of the client's buffer: the program divides by the first two and fills the last
  without checking them (`Config.Valid` has the first two; the third the model does not need).

Fairness, or an order between clients beyond their barriers, is not assumed. The numbers of
handlers and pool threads matter: both default to zero, and the set-up checks only bound them
from above. `Manning.CompletesExactly` says which numbers do: a run that goes on until no step
is possible completes the workload if and only if every forwarder has a handler, and a pool
thread if there is anything to read or write.

## Model

| member | source | states |
|---|---|---|
| Offsets.ClientsAreBalanced | src/main.c:26-29 | with the set-up checks, every client is sent to an existing forwarder; a forwarder serves the block of consecutive ranks with its own number, exactly as many clients as its shutdown counter waits for |
| Offsets.SetupsAre | src/main.c:346-354 | the set-ups that pass the checks are those with at least one forwarder and the same number of clients, at least one, for each of them |
| SetupChecks.ConfigsAre | src/main.c:331-364 | the set-ups of the model are the configurations that pass the checks, by their own numbers: at least one forwarder, each with the same number of clients, reading or writing, at most 128 handlers and 128 pool threads |
| SetupChecks.Check | src/main.c:325-364 | the checks abort with the code of the first that fails, and pass exactly those configurations |
| Offsets.ThresholdIsPositive | src/main.c:346-354 | the set-up checks leave at least one client per forwarder and make the division by forwarders exact |
| Offsets.OffsetsAre | src/main.c:729-741 | offsets in a shared file count whole requests: strided, round by round with the clients in order of rank; contiguous, client by client with the rounds in order |
| Offsets.SharedTiling | src/main.c:729-741 | a byte lies in the range of a (rank, iteration) pair if and only if it is below clients * n * request size and that pair is its owner, for both shared-file formulas |
| Offsets.EveryByteHasAnOwner | src/main.c:729-741 | every byte below clients * n * request size is covered by a real client in a real iteration |
| Offsets.OwnerIs | src/main.c:729-741 | the owner of a byte, in numbers: strided, its request number modulo the clients; contiguous, its block of n requests |
| Offsets.TilesAreDisjoint | src/main.c:729-745 | two different requests on one file never overlap, in any of the three layouts |
| Offsets.Remainder | src/main.c:635-638 | what no client covers is less than one request per client |
| Protocol.ReadsBack | src/dispatcher/posix.c:22-64 | a read yields the bytes from its offset on, in order; what was written is read back, and no byte outside the range or of another file changes |
| Conversation.GoKeeps | src/main.c:722-750 | issuing the next request, leaving a loop and signing off keep the conversation in order and do not change what the files or the server see |
| Conversation.RecvKeeps | src/main.c:755-769 | what a client receives is what it waits for; received data is accepted exactly unless a run that writes nothing finds other data than the client's letters |
| Conversation.ListenKeeps | src/server/listener.c:71-108 | every packet the listener matches is a request or a signing-off; a buffer sent under an identifier is never taken for one |
| Conversation.BufferKeeps | src/handler/write.c:26-40 | the buffer that arrives under the request's identifier has the announced size and the client's letters |
| Conversation.PerformKeeps | src/dispatcher/posix.c:19-67 | a request is performed only while its client has its file open, on the handle its open was given, and a write adds exactly its own range to what the client has written |
| Conversation.ReplyKeeps | src/dispatcher/posix.c:94-134 | the reply is what the client waits for next: data under the identifier of a read, an acknowledgement of a write |
| TableSteps.NextIsIdOf | src/utils.c:8-18 | identifiers are drawn cyclically: the n-th is 1000000 plus n modulo 8000001, and the generator leads from each to the next |
| TableSteps.IdsDiffer | src/utils.c:8-18 | within one cycle of draws no identifier repeats |
| TableSteps.IdsAreNoTags | src/utils.c:8-18 | every identifier lies in 1000000 to 9000000, and the fixed tags are 10001, 10002 and 10003 |
| TableSteps.RegisterKeeps | src/handler/write.c:42-45 | a request that registers is not in the table yet, and all tables still agree with the records |
| TableSteps.ReleaseKeeps | src/scheduler.c:7-38 | an identifier the scheduler returns belongs to a scheduled request, and all tables still agree |
| TableSteps.LookupKeeps | src/server/dispatcher.c:77-84 | the identifier taken from the ready queue is in the table |
| TableSteps.ExtendContinues | src/server/dispatcher.c:115-148 | the walk over the ready queue yields consecutive entries that all fit the first, and stops only when the batch is full, the queue ends, its head does not fit, or its head is not in the table; the last of these TableSteps.GatherBuilds excludes |
| TableSteps.GatherBuilds | src/server/dispatcher.c:115-148 | a batch continues the ready queue where the last one ended; its 1 to 16 requests all have the operation and the handle of the first; it ends before 16 only where nothing more is queued or the next request has another operation or handle; every look-up on the way succeeds |
| TableSteps.GatherKeeps | src/server/dispatcher.c:107-154 | issuing a batch keeps all tables in agreement |
| TableSteps.PerformKeeps | src/dispatcher/posix.c:22-64 | performing one request of a batch keeps all tables in agreement |
| TableSteps.CompleteKeeps | src/dispatcher/posix.c:119-139 | the look-up of a callback succeeds, and removing and answering the request keeps all tables in agreement |
| ForwarderSteps.PullOk | src/thpool.c:351-371 | the oldest job of the pool's queue, begun by a free thread, is due: a request that was passed to the pool, a batch of which nothing is performed, or one that is performed and not answered; all tables, threads and queued jobs agree afterwards |
| ForwarderSteps.ScheduleOk | src/handler/write.c:59-66 | the thread of a read or a write is free once the scheduler has the request, and tables and threads agree |
| ForwarderSteps.PerformOk | src/dispatcher/posix.c:22-66 | performing a request of a batch, the last of which frees the thread and makes the callback a job of the pool, keeps tables and threads in agreement |
| ForwarderSteps.CompleteOk | src/dispatcher/posix.c:119-147 | answering a request of a batch, the last of which frees the thread, keeps tables and threads in agreement |
| Steps.PerformsOnOpenFile | src/dispatcher/posix.c:22-64 | every read or write runs on an open descriptor, and the descriptor is that of the file of the client that asked |
| Steps.OpenHandles | src/server/handler.c:51-137 | an open adds one user to its file and one reference, opens a descriptor exactly for the first user, and keeps every other client's handle right |
| Steps.CloseHandles | src/server/handler.c:177-223 | a close removes one user and one reference, closes the descriptor exactly with the last user, and keeps every other client's handle right |
| Steps.ServeCloseStep | src/server/handler.c:182-220 | a close always finds the entry of its file, and the invariant is kept |
| Steps.WriteKeepsOtherTile | src/dispatcher/posix.c:46-64 | a write of one client's range leaves what every other (client, iteration) wrote as it is |
| Steps.ReadStep | src/dispatcher/posix.c:19-39 | a read fills the record's buffer with what its client must find there |
| Steps.WriteStep | src/dispatcher/posix.c:46-66 | a write puts the client's letters in its range and keeps the invariant |
| Steps.SignOffStep | src/server/listener.c:71-86 | a forwarder counts each signing-off of its own clients once, and stops with the last of them |
| Guarantees.StepKeepsInv | src/server/handler.c:20-246 | every step of every process keeps the whole invariant |
| Guarantees.RunKeepsInv | src/main.c:560-1132 | the invariant holds in every state of every run |
| Guarantees.NoFaultOccurs | src/server/dispatcher.c:80-83 | no look-up fails, no identifier enters the table twice, every close finds its entry, no transfer uses a closed descriptor, no buffer has a wrong size, and a run that writes before it reads never fails its validation |
| Guarantees.ReadOnlyRunsCheckWhatWasThere | src/main.c:984-998 | in a run that only reads, a client accepts its data if and only if validation is off or every byte of its range was 97 plus its rank modulo 25 before the run; no fault occurs if all were |
| Guarantees.DiffersExactly | src/main.c:984-998 | the set-ups in which a run that only reads may fail its validation are those in which some byte of some range of a client is not its letter before the run |
| Guarantees.ReadsReturnWhatWasWritten | src/main.c:935-998 | in a run that has written, the data a client receives for any read is request-size bytes, each 97 plus its rank modulo 25 |
| Guarantees.RoundsFit | src/main.c:635-638 | of the set-up: the clients times the rounds times the request size is at most the total size, and one round more would exceed it |
| Guarantees.LettersDiffer | src/main.c:641-643 | the letter of a rank is 97 plus the rank modulo 25, so two ranks have the same letter exactly if they agree modulo 25 |
| Guarantees.SharedFileHoldsLetters | src/main.c:641-779 | once any client has passed the barrier after the write phase, every byte of the tiled part of the shared file is 97 plus a rank modulo 25: strided, the rank is the request number modulo the clients; contiguous, the number of the block of as many requests as rounds |
| Guarantees.SharedFileIsWritten | src/main.c:635-779 | the tiled part has every byte below the total size less one request per client, so that these all hold their owner's letter |
| Guarantees.OwnFileHoldsLetter | src/main.c:665-779 | likewise every byte of the rounds of a file per client is 97 plus its client's rank modulo 25 |
| Guarantees.OwnFileIsWritten | src/main.c:635-779 | these are at least the bytes of the client's share of the total size less one request |
| Conservation.EveryRequestIsInOnePlace | src/server/dispatcher.c:50-154 | every request ever received is in exactly one of: the incoming queue, one handler, the pool's queue, one pool thread, the scheduler, the ready queue, the dispatcher, one batch, answered; and the table leads to it exactly from registration to answer |
| Conservation.OneTaskPerThread | src/main.c:527-568 | whatever is with a handler or a pool thread is with one that the set-up created, and no two requests or batches are with the same thread |
| Conservation.AnsweredOnce | src/dispatcher/posix.c:73-147 | a request has had its final answer once if it is finished and never otherwise; all requests of a client that is done were answered |
| Conservation.BatchesFollowReleases | src/server/dispatcher.c:107-154 | the batches, put together, are the order in which the scheduler released the requests; each has 1 to 16 requests with the operation and the handle of its first, and was ended because it had 16, because everything appended by then was taken, or because the next request released has another operation or another handle |
| Conservation.ReferencesAreUsers | src/server/handler.c:124-220 | the reference count of a file is the number of clients that use it, and it has an open descriptor if and only if that is not zero |
| Conservation.NothingOpenAtTheEnd | src/server/handler.c:188-204 | when all clients of a forwarder have finished their phases, it has no entry and no descriptor left |
| Conservation.ShutdownIsQuiescent | src/server/listener.c:71-83 | a forwarder stops if and only if all its clients have signed off, and then queues, table, scheduler, batches and open files are all empty, no job is left in the pool and all threads are free |
| Conservation.BusyWorkerGoesOn | src/handler/write.c:26-32 | the next step of a busy pool thread, on its request or its batch, is possible, or, while it waits for a buffer, that of the client it waits for |
| Conservation.ServiceGoesOn | src/server/handler.c:49-223 | the next step of a handler on the request that it works on is possible |
| Conservation.NeverStuck | src/server/handler.c:22-37 | if every forwarder has a handler, and a pool thread when there is anything to read or write, then as long as identifiers last some step is possible until every client is done and every forwarder has stopped |
| Interleavings.AnyClientGoesOn | src/main.c:694-769 | in every state of every run before a fault, a ready client can issue its next request, a client that was sent what it waits for can receive it, and a packet from a client can be taken by whoever it is for |
| Interleavings.AnyHandlerTakes | src/server/handler.c:22-46 | a handler can take the oldest incoming request exactly if it is free and there is one, whichever handler it is |
| Interleavings.AnyThreadPulls | src/thpool.c:351-366 | a pool thread can begin the oldest job exactly if it is free and there is one, whichever thread it is |
| Interleavings.AnyRequestIsReleased | src/scheduler.c:7-38 | the scheduler can return exactly the requests that it holds, in any order |
| Interleavings.AnyRequestGoesOn | src/server/handler.c:49-240 | a request with a handler or a pool thread can be served further whatever others do, and an open may get any descriptor that is not in use |
| Interleavings.AnyBatchGoesOn | src/dispatcher/posix.c:19-147 | each batch with a pool thread can be transferred or answered further, whatever becomes of the others |
| Termination.StepIsLighter | src/server/handler.c:20-246 | every step of every process takes something off a weight of the whole state |
| Termination.EveryRunEnds | src/main.c:560-1132 | no run, whatever the interleaving, has more steps than a bound computed from the set-up |
| Termination.EveryFullRunCompletes | src/main.c:560-1132 | with a handler and a pool thread per forwarder, and if identifiers have lasted to its end, a run that goes on (and, if it only reads, finds its letters or does not validate) until no step is possible ends with every client done, every forwarder stopped, every request answered exactly once and no fault |
| Budget.RequestsAreCounted | src/main.c:641-1130 | at any time, the requests a forwarder has received and those its clients have yet to send make up a number that the set-up fixes: an open, a close and one request per round, for writing and for reading, for each of its clients |
| Budget.RoomyHasRoom | src/utils.c:8-18 | if that number is below 8000001, then in every state of every run another identifier can be drawn: the window of identifiers restricts nothing |
| Budget.AllRequestsWereMade | src/main.c:641-1130 | when the clients are done, every forwarder has received exactly that number of requests: for each of its (world size less forwarders) / forwarders clients, two more than the rounds for writing and for reading, where the rounds are the most that fit into the total size |
| Workload.AskIsNext | src/main.c:722-750 | the request that a client has sent is the next one of its program, in file, operation, offset and size |
| Workload.RequestsFollowPrograms | src/main.c:663-1046 | in every state of every run, what a forwarder has received from a client of its block of ranks is, in order, the beginning of the client's program, and nothing from any other client; when the client is done it is the whole program: for writing and then for reading, an open, one transfer of the request size per round at the offset of that round, and a close, each exactly once |
| Manning.NoneCompletes | src/main.c:185-186 | without a handler, or without a pool thread when there is anything to read or write, no run ever completes: no client gets past its first open, or past its first read or write |
| Manning.CompletesExactly | src/main.c:357-364 | in a set-up with fewer requests per forwarder than identifiers, a run that goes on until no step is possible completes if and only if the forwarders have the threads (reading runs that validate must find their letters); then every forwarder has received its whole number of requests and answered each exactly once |
| Manning.RunGoesOn | src/main.c:560-1132 | every run can be continued until no step is possible, so that the theorem on such runs is about the end of every run |
| ServerSteps.HandleIsSteps | src/server/handler.c:39-240 | a round of the handler's code is the pipeline's taking, serving and replying of the oldest incoming request |
| ServerSteps.EndJobIsSteps | src/handler/read.c:23-46 | the end of a pool job is the pipeline's registration and scheduling |
| ServerSteps.DispatchIsSteps | src/dispatcher/posix.c:19-67 | the dispatch loop over a batch is one transfer step of the pipeline for each request, on the forwarder and the files |
| ServerSteps.CallbackIsSteps | src/dispatcher/posix.c:73-147 | the callback loop over a batch is one answering step of the pipeline for each request, none of which faults, and leads to exactly the forwarder that the code leaves, with exactly the code's replies sent |
| ServerSteps.PostedExtends | src/dispatcher/posix.c:83-104 | each client's channel is extended by the replies to its own requests, in the order of the batch, and nothing else of a client changes |
| DispatcherSteps.QueueIsPending | src/server/dispatcher.c:115-131 | every identifier that the walk can meet is in the table |
| DispatcherSteps.GatherIsWalk | src/server/dispatcher.c:115-148 | the batch of the walk over the ring is the batch of the pipeline's step, and what it leaves in the ring is what the step leaves in the queue |
| DispatcherSteps.IssueBatch | src/server/dispatcher.c:107-154 | the dispatcher's code on the linked ring does what the pipeline's step does |
| Server.Process.GenerateIdentifier | src/utils.c:8-18 | the generator's code steps to the next identifier, wrapping after 9000000 |
| Server.Process.Receive | src/server/listener.c:71-108 | one round of the listener is the accepting step, or the counting step, on the whole forwarder |
| Server.Process.OpenFile | src/server/handler.c:55-145 | looks up, opens or counts, and returns the handle of the file's entry; the whole new state |
| Server.Process.CloseFile | src/server/handler.c:181-223 | fails exactly if there is no entry; otherwise the whole new state |
| Server.Process.Handle | src/server/handler.c:39-240 | one round of a handler: the whole new state and the reply, for each kind of request; fails exactly on a close without an entry |
| Server.Process.PullJob | src/thpool.c:359-366 | the thread takes the oldest job and is busy with it: the whole new state |
| Server.Process.StartJob | src/handler/read.c:17-21 | allocates the buffer and sends the identifier |
| Server.Process.TakeBuffer | src/handler/write.c:26-40 | the received data is the record's buffer if it has the announced size; otherwise nothing changes |
| Server.Process.EndJob | src/handler/read.c:23-46 | registers the request, gives it to the scheduler and frees the thread |
| Server.Process.DispatchBatch | src/dispatcher/posix.c:19-67 | the loop over a batch performs each request once, in order, then adds the callback to the pool's queue; the whole new state, and the tables agree |
| Server.Process.ReadsFillBuffers | src/dispatcher/posix.c:19-39 | after the dispatch of a batch of reads, every request's buffer holds what its range of its file holds, and the files are unchanged |
| Server.Process.CallbackBatch | src/dispatcher/posix.c:73-147 | the loop finds every request of the batch in the table, removes it, and sends its client exactly what the record held, in order; the whole new state |
| ClientBuffer.FillBuffer | src/main.c:640-643 | every byte up to the request size is 97 plus the rank modulo 25, and the rest is unchanged |
| ClientBuffer.CountErrors | src/main.c:984-991 | the error count is the number of bytes up to the request size that are not 97 plus the rank modulo 25; it is zero exactly if the data is what the client wrote |
| FwdList.AddTail | src/fwd_list.c:20-22 | the node becomes the last of the ring, in both directions |
| FwdList.Add | src/fwd_list.c:16-18 | the node becomes the first of the ring, in both directions |
| FwdList.Del | src/fwd_list.c:29-33 | the entry leaves the ring, and nothing else changes place |
| FwdList.Empty | src/fwd_list.c:44-46 | true exactly if only the sentinel is left |
| Dispatcher.ReadyQueue.Callback | src/scheduler.c:7-38 | the identifier is appended to the ready ring |
| Dispatcher.ReadyQueue.CallbackAggregated | src/scheduler.c:44-76 | all identifiers are appended to the ready ring, in order |
| Dispatcher.ReadyQueue.TakeFirst | src/server/dispatcher.c:50-64 | the oldest identifier leaves the ring |
| Dispatcher.ReadyQueue.Gather | src/server/dispatcher.c:107-151 | deletion during the walk over the ring yields a batch of 1 to 16 that continues the queue and comes from the table; all its requests have the operation and the handle of the first, and it is short only because the ring was empty or its head has another operation or handle; appended identifiers equal the batches so far, what is taken, and what is queued |
| JobQueue.Queue.Push | src/thpool.c:434-455 | the job becomes the last of the linked chain; the chain has as many jobs as the counter says |
| JobQueue.Queue.Pull | src/thpool.c:465-491 | the first job leaves the chain, and the semaphore must be posted exactly if jobs remain |
| JobQueue.Queue.Clear | src/thpool.c:418-429 | every queued job is discarded, in order |
| ThreadPool.RunKeepsInv | src/thpool.c:317-384 | the invariant of the pool holds in every reachable state |
| ThreadPool.QueuedWorkIsSeen | src/thpool.c:349-491 | no lost wakeup: while work is queued, someone is about to post, or a worker is between its wait and its pull, or the semaphore is up and, if any worker sleeps, another has been woken to test it |
| ThreadPool.QueuedWorkGoesOn | src/thpool.c:349-491 | while work is queued, the pool is kept alive and no worker is in a job, a worker or pusher can take its next step, or the caller of the wait can and lets go of the lock that a worker needs; no further push, new wait or unsignalled wake-up is counted on |
| ThreadPool.NeverAllAsleep | src/thpool.c:508-551 | queued work never leaves all workers asleep with nobody about to post |
| ThreadPool.WaitReturnsWhenIdle | src/thpool.c:197-203 | whenever the wait returns, there was a check before at which no job was queued or running, jobs pushed by jobs included, and the lock was held from there on |
| ThreadPool.WaiterIsNotForgotten | src/thpool.c:197-203 | while the caller of the wait sleeps, work is queued or a worker is still counted as working, unless the pool was destroyed; a worker that is counted as idle wakes it exactly if it is the last |
| ThreadPool.EachJobOnce | src/thpool.c:353-491 | each pushed job is queued, or with exactly one worker, or finished, or discarded, and never two of these |
| ThreadPool.PullsAreFifo | src/thpool.c:465-491 | jobs are taken in the order in which they were pushed, and a worker posts for the others exactly if it leaves work behind |
| ThreadPool.LockGuardsCounts | src/thpool.c:197-203 | while the caller of the wait holds the lock, no step changes the numbers of living and working threads |
| ThreadPool.MutexGuardsQueue | src/thpool.c:434-491 | while a push or a post after a pull holds the mutex, no step changes the queue |
| ThreadPool.OnePassPerPost | src/thpool.c:527-551 | between any two passes of the semaphore, by whichever workers, it was raised by a post: one post lets at most one worker go on |
| ThreadPool.CallerGoesOn | src/thpool.c:197-203 | unless it sleeps, the caller of the wait can take its next step; once woken, by a signal or not, it repeats both tests under the lock |
| ThreadPool.PushersRun | src/thpool.c:436-455 | a job that is pushing another has not ended |
| ThreadPool.NoNewJobs | src/thpool.c:349-371 | once the pool is destroyed, no worker ever begins a job but those that had already seen it kept alive |
| ThreadPool.OnlyDestroyEnds | src/thpool.c:206-216 | only the destruction ends the keeping alive, and it does so for good |
| ThreadPool.DestructionCanEnd | src/thpool.c:206-239 | from every reachable state of a pool that is being destroyed, some run leads to one in which all workers are gone, none is counted, the queue is cleared and the semaphore reset, and every job ever pushed was finished or discarded |
| Shutdown.HandlersEndExactly | src/server/handler.c:22-37 | once the last client has signed off, all handlers are sure to end if and only if their number is not one: a lone handler can miss every signal and sleep for good, of several none can |
| Shutdown.LoneHandlerEndsExactly | src/server/handler.c:22-37 | a single handler ends if and only if it is not between its test of the flag and its wait at the listener's broadcast or at the dispatcher's signal on leaving; otherwise it sleeps for good |
| Shutdown.DispatcherEndsExactly | src/server/listener.c:78-81 | the dispatcher ends if and only if it is not between its test of the flag and its wait at the listener's last broadcast; otherwise it sleeps for good |
| Shutdown.DispatcherMayMiss | src/server/dispatcher.c:32-48 | with any number of handlers there is a run after which the dispatcher sleeps for good |
| Shutdown.GuardedThreadsEnd | src/server/listener.c:74-83 | if the flag were raised while both mutexes are held, every thread would end in every run |
| Shutdown.EveryStepMoves | src/server/handler.c:22-46 | every step changes something, and a thread that goes back to work lets go of its mutex |
| Shutdown.StepIsNearer | src/server/listener.c:74-83 | once the flag is up, every step leaves fewer signals to be given, or as many and the threads nearer to their end, so that no run goes on for ever |
| Shutdown.RunGoesOn | src/server/handler.c:22-37 | once the flag is up, every run can be continued to one after which no step is possible, whichever steps are taken, so that the theorems on such runs are about the end of every run |
| Bits.ShiftAndMaskIsCeil | include/uthash.h:939-941 | the shift-and-mask expression is the number of items per new bucket, rounded up |
| Bits.AndIsBitwise | include/uthash.h:441-444 | the mask is the bitwise and: a bit is set in it exactly if it is set in both |
| Bits.MaskIsMod | include/uthash.h:441-444 | masking with the number of buckets less one is the remainder |
| HashTable.Table.ToBucket | include/uthash.h:441-444 | the bucket of a hash value |
| HashTable.Table.ExpandBuckets | include/uthash.h:926-976 | all items stay, each in old bucket i or i plus the old number; the ideal length is the rounded-up quotient, the non-ideal count is the sum of the excesses, every bucket's multiplier is the exact value of the next row, and the count of ineffective expansions and the giving up of expansion follow from these |
| HashTable.MultiplierOfOneMore | include/uthash.h:949-954 | with n items and ideal length m, the multiplier is 0 up to n = m and then the lesser of n - m and n / m rounded up: one more item raises it by one exactly when the new count exceeds the ideal and multiplier times ideal |
| HashTable.Table.MakeTable | include/uthash.h:223-253 | a new table of 32 empty buckets and zero counters |
| HashTable.Table.AppendList | include/uthash.h:289-295 | the item becomes the last in application order, linked both ways |
| HashTable.Table.AddToTable | include/uthash.h:348-356 | the item is counted and put at the head of the bucket of its hash value; the buckets double exactly if that chain reaches ten times its multiplier plus ten and expansion was not given up; the statistics are then those of an expansion, and otherwise, with all multipliers, what they were |
| HashTable.Table.Add | include/uthash.h:407-426 | both linkings, all counts and placements hold, and the item is the last in application order; the statistics are those of a new table, of an expansion, or unchanged, by the same condition |
| HashTable.PushFront | include/uthash.h:860-879 | the item becomes the head of its bucket's chain, linked both ways and counted |
| HashTable.DropFromChain | include/uthash.h:882-895 | the item leaves its bucket's chain, which stays linked both ways and counted; no multiplier changes |
| HashTable.FindInBucket | include/uthash.h:838-857 | the first item of the chain with the key, or none |
| HashTable.Table.Find | include/uthash.h:164-183 | an item with the key if there is one; with unique keys, look-up in the finite map that the table stands for, for any hash function |
| HashTable.Table.Delete | include/uthash.h:461-488 | exactly this item leaves both linkings and the counts, down to the empty table; multipliers and statistics stay |
| HashTable.Table.Replace | include/uthash.h:265-280 | the map has the item under its key and is otherwise unchanged, what was there is returned, also when an item replaces itself |
| HashTable.Table.Fsck | include/uthash.h:526-573 | wherever the forward links lead, the check passes if and only if all backward links, all bucket counts and the number of items are right; every table that the operations leave passes |
| HashTable.InMapOf | include/uthash.h:164-183 | with unique keys, the map that a list stands for has a key exactly if an item of the list has it |
| HashTable.MapOfLess | include/uthash.h:461-488 | taking one item out of the list takes its key out of the map |
| HashTable.MapOfMore | include/uthash.h:407-426 | appending an item with a fresh key adds it to the map |
| HashTable.Table.Sort | include/uthash.h:983-1065 | whatever the comparison, the result is a permutation linked both ways with head and tail right, buckets untouched; with a total and transitive comparison it is stably sorted |
| HashTable.Table.SortList | include/uthash.h:989-1063 | the passes over the linked list terminate and compute the bottom-up merge sort of the list |
| HashSort.OnePass | include/uthash.h:995-1060 | one pass merges the runs of the linked list in pairs |
| HashSort.MergeRuns | include/uthash.h:1009-1052 | two runs of the linked list are merged, equal items in their order |
| MergeTheory.SortKeepsContents | include/uthash.h:983-1065 | the sort is a permutation, for any comparison |
| MergeTheory.SortIsStable | include/uthash.h:983-1065 | the sort is sorted and stable for a total and transitive comparison |
| JsmnParser.Parser.AllocToken | src/jsmn.c:6-19 | a fresh token, or none when the array is used up |
| JsmnParser.Parser.ParsePrimitive | src/jsmn.c:35-79 | position, tokens and error code of an unquoted value |
| JsmnParser.Parser.ParseString | src/jsmn.c:84-146 | position, tokens and error code of a string, with its escapes |
| JsmnParser.Parser.OpenBracket | src/jsmn.c:164-181 | the step for an opening bracket |
| JsmnParser.Parser.CloseBracket | src/jsmn.c:182-231 | the backward scans for the open container and the next one out are the step for a closing bracket |
| JsmnParser.Parser.CommaSign | src/jsmn.c:243-260 | the backward scan after a comma is the step for it |
| JsmnParser.Parser.Parse | src/jsmn.c:151-303 | the parser's loops compute the run of the step function: code, tokens and parser state |
| JsmnParser.Parser.Count | src/jsmn.c:151-303 | the mode without tokens computes the counting run and allocates none; if it succeeds the parser is at the end of the text, and the last token is its superior exactly if a colon was met |
| JsmnGrammar.DocumentRoundTrip | src/jsmn.c:151-303 | for every JSON value of the grammar of RFC 8259 (sections 2 to 7, its white space, escapes and hexadecimal digits written out as characters), parsing its text with enough tokens gives exactly its preorder token list, with types, bounds and sizes |
| JsmnGrammar.RunValue | src/jsmn.c:164-300 | inside any surrounding state, running over a value's text adds its tokens, counts it in its superior and restores nothing else but the known change of that superior |
| JsmnLexis.ClassesAre | src/jsmn.c:43-106 | the tokenizer's classes of characters are exactly these characters: blanks, ends of an unquoted value, simple escapes, hexadecimal digits |
| JsmnLexis.StringEndsExactly | src/jsmn.c:84-146 | a string is taken to end at a quote exactly if everything before it is characters other than quote, backslash and NUL, simple escapes, and numbered escapes of four hexadecimal digits |
| JsmnLexis.StringIsCutExactly | src/jsmn.c:84-146 | a string runs into the end of the text exactly if all up to there could be the beginning of a string's body; any other string without an end is refused |
| JsmnLexis.PrimitiveEndsExactly | src/jsmn.c:35-79 | an unquoted value is taken to end exactly at the first space, tab, line feed, carriage return, colon, comma, closing bracket, NUL or end of text, if all before it has codes 32 to 126; otherwise it is refused |
| JsmnLaws.CodeExactly | src/jsmn.c:151-303 | the result of any call is decided by the first bracket or leaf that lacks a token (-1) or a matching bracket (-2), and else by the malformed string or value that ends the text (-2, or -3 for a string cut off), open brackets (-3), or the count |
| JsmnLaws.EndsWhereItFails | src/jsmn.c:151-303 | a call leaves the parser at the end of the text, with a count or for open brackets -3, or at the bracket, string or value whose error it returns |
| JsmnLaws.AcceptsExactly | src/jsmn.c:164-300 | the result is a count if and only if, up to the first NUL, strings and unquoted values are well formed (in the sense of the rows above), the brackets match in kind, and tokens suffice; the count is the number of brackets opened and leaves |
| JsmnLaws.TokensAreNested | src/jsmn.c:164-300 | whatever the outcome, token starts strictly increase and closed ranges are nested or disjoint |
| JsmnLaws.SizesCountChildren | src/jsmn.c:172-237 | the sum of the sizes plus the number of tokens without a superior is the number of tokens |
| JsmnLaws.MoreTokensResume | src/jsmn.c:156-171 | after running out of tokens, a call with a larger array ends as one run with that array from the start |
| JsmnLaws.FewerTokensFail | src/jsmn.c:6-19 | a parse that needs n tokens runs out of them with any smaller array |
| JsmnLaws.CountExactly | src/jsmn.c:151-303 | counting without tokens returns the number of brackets opened and leaves, matched or not, or -2 or -3 for the malformed string or value that ends the text |
| JsmnLaws.CountSimulatesParse | src/jsmn.c:151-303 | counting returns what a successful parse returns, and an array of that many tokens never runs out |
| HeapTheory.InsertIsHeap | src/pqueue.c:142-166 | heap order is kept and the contents gain exactly the element |
| HeapTheory.ChangePriorityIsHeap | src/pqueue.c:169-183 | heap order is kept and only the priority of that element changes |
| HeapTheory.RemoveIsHeap | src/pqueue.c:186-197 | heap order is kept and the contents lose exactly the element, the last slot included |
| HeapTheory.PopIsHeap | src/pqueue.c:200-213 | a highest-ranked element leaves, and heap order is kept |
| HeapTheory.RootIsHighest | src/pqueue.c:216-224 | no element ranks above the first |
| HeapTheory.MaxChildIsHighest | src/pqueue.c:106-119 | no child ranks above the chosen one, and of equals the left one is chosen |
| HeapTheory.BubbleUpIs | src/pqueue.c:86-103 | an entry that moves up stops at the first slot whose parent it does not rank above; the entries it passes rank below it and move down one slot of the way each; no other entry moves |
| HeapTheory.PercolateDownIs | src/pqueue.c:122-139 | an entry that moves down stops at the first slot with no child that it ranks below; the entries it passes rank above it, are each the highest child, the left one of equals, and move up one slot each; no other entry moves |
| HeapTheory.PopAllSorts | src/pqueue.c:260-281 | popping until empty yields every element, in non-increasing rank |
| HeapTheory.IsValidExactly | src/pqueue.c:284-309 | the validity check answers yes exactly for arrays in heap order |
| PriorityQueue.Queue.constructor | src/pqueue.c:40-67 | an empty queue whose array and step are one more than the size asked for |
| PriorityQueue.Queue.MoveUp | src/pqueue.c:86-103 | moving with a hole equals swapping upwards, with every back-pointer right afterwards |
| PriorityQueue.Queue.HighestChild | src/pqueue.c:106-119 | a child above which no other ranks, or none for a leaf |
| PriorityQueue.Queue.MoveDown | src/pqueue.c:122-139 | moving with a hole equals swapping downwards, with every back-pointer right afterwards |
| PriorityQueue.Queue.Insert | src/pqueue.c:142-166 | array and back-pointers are those of the heap with the element inserted; the array is replaced exactly if it is full, by one that is a step longer than what it holds |
| PriorityQueue.Queue.ChangePriority | src/pqueue.c:169-183 | array and back-pointers are those of the heap with the priority changed |
| PriorityQueue.Queue.Remove | src/pqueue.c:186-197 | array and back-pointers are those of the heap without the element, also for the last slot |
| PriorityQueue.Queue.Pop | src/pqueue.c:200-213 | returns the first element, or none of an empty queue, and leaves the popped heap |
| PriorityQueue.Queue.Peek | src/pqueue.c:216-224 | the first element, or none |
| PriorityQueue.Queue.IsValid | src/pqueue.c:284-309 | yes exactly if the queue is in heap order |
| PriorityQueue.Queue.Print | src/pqueue.c:260-281 | prints the elements in the order of repeated popping, while the queue, its array and every element stay as they are |

## Left out

- MPI, pthreads and AGIOS themselves: they are the assumptions above. A locked section is one step; blocking is a step that is not enabled.
- Stone wall: the set-up allows it only in runs with one kind of operation; the model's loops run to their end.
- Barriers that follow each other without a request in between count as one, and so do the reductions and gathers between them.
- File names: the model takes the names of the clients' own files to be distinct, as a rank formatted into a name is.
- The double arithmetic in the contiguous formula: the model is over integers, which the source's value equals below 2^53; the rounding up of the size per rank acts on a quotient that is already an integer, so the model has none. The comment in the source suggests otherwise; the model follows the code.
- Integer widths: identifiers, offsets and counts are unbounded; the wrap-around of identifiers is modelled.
- The value of the acknowledgement of a close is not initialised in the source: any value is allowed. The client stores it where its handle was; the model does too.
- Server.Process.DispatchBatch: requires that the handles of the batch are open, which Steps.PerformsOnOpenFile proves; the source logs a failed transfer and goes on.
- Server.Process.CallbackBatch: requires that the tables agree, which the invariant gives; the source logs a failed look-up and then uses the missing record.
- The look-up, the removal and the reply of one request of a callback are one step of the pipeline: between them only that thread knows the record. The same holds for the identifier and the enqueuing of the single listener.
- A release of several identifiers at once is a sequence of releases in the pipeline, which allows more interleavings; Dispatcher.ReadyQueue.CallbackAggregated models the loop itself.
- The model keeps records after they are freed and never uses them again; memory reclamation is not modelled. Direct I/O, PVFS and OrangeFS paths, statistics files, timing and logging are left out.
- Shutdown: what it says of the end of the threads is separate from the pipeline, where Conservation.ShutdownIsQuiescent shows that no work is left when the flag goes up. It does not have the scheduler's callbacks: a callback that signals the ready queue only after the flag went up could still wake the dispatcher. Nor does it have wake-ups without a signal once the flag is up.
- Waiting loops that poll or sleep are not steps, so Termination.EveryRunEnds counts the work and not the turns spent waiting for it.
- The thread pool's pause and resume by signals, the timing of its destruction loop, and failing allocations. The pipeline begins the jobs in the order of their queue, by any free thread; that queue and its wakeups are ThreadPool and JobQueue.
- Server.Process: its tables are maps and sequences, not the hash table and the linked ring. DispatcherSteps ties the ring to the pipeline; for the hash table the tie is that HashTable.Table.Find, Add, Replace and Delete are the operations of a finite map.
- Hash functions, bloom filters, out-of-memory rollback, and the selecting, clearing and ordered-insertion macros of uthash; find, add, replace, delete, expansion, sort and integrity check hold for any hash function.
- HashTable.Table.Fsck: requires that the forward links end, as the source's loops do; the check does not look at the tail, at keys or at placements, so a table that passes need not be valid.
- JSMN with JSMN_STRICT or JSMN_PARENT_LINKS, which are not built, and the use of the tokens in the main program.
- pqueue_dump and freeing; positions and sizes of the priority queue are unbounded.
- PriorityQueue.Queue.Remove: requires that no element ranks below itself, as any comparison of priorities has it.
