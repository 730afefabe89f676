# paper2 logging pipeline: model and proofs

paper2 is an asynchronous logger. Any number of threads push entries into a queue under a
mutex and then raise a one-bit semaphore. One log thread swaps the queue out, splits every
message into lines and every line into chunks, writes the resulting records to a global
file, to the file of the context that their tag names and to a list of sinks, flushes when
the queue is empty or after 100 entries, and sleeps.

This project models that pipeline, from "an entry is accepted" to "its lines are durable in
the right files and delivered to every sink", for the build with the `file` and `sinks`
features off Android, and proves what it is for:

- `Records.dfy`: log records and the text the two printers give them.
- `Reading.dfy`: a reader of printed lines, independent of the printers.
- `Splitter.dfy`: the lines-then-chunks transformation, its contract and its algebra.
- `SemaphoreLite.dfy`: the semaphore, as steps over flag and waiters for any number of
  threads; whole waits as runs of such steps; and the object, whose `Wait` and `WaitTimeout`
  have the loops of the source, with what happens while the thread is parked as a parameter.
- `VecPool.dfy`: the buffer pool and its guard.
- `Fanout.dfy`: writing, flushing, registering and delivering, as functions on files (text in
  the file, text still in the buffer) and sinks; a failing write, a failing flush, the flush
  order and what a full buffer spills into its file are parameters.
- `LoggerThreadCtx.dfy`: the logger object, with the loops of the source, each method proved
  against `Fanout`; `LogThread` runs the loop of the log thread with what other threads log
  between its lock regions as a parameter.
- `Worker.dfy`, `Pipeline.dfy`: the concurrent system as a step relation. A step is one lock
  region of one thread, or one push under the queue lock. Producers hold the logger's read
  guard during a call, the queue lock is explicit, registrations wait for the write guard,
  and `wait_for_flush` callers hold the read guard inside the semaphore.
- `Locking.dfy`, `Delivery.dfy`, `Queueing.dfy`: what every step keeps.
- `Runs.dfy`, `Guarantees.dfy`: the invariant over every run, and the safety guarantees.
- `Failures.dfy`: what stops the log thread, and how it reports the error.
- `Progress.dfy`, `Quiescence.dfy`: exactly when no thread can move, and how the log thread
  comes to rest.
- `Service.dfy`: under any load, within how many steps of the log thread an accepted entry is
  written, delivered and durable.
- `Witnesses.dfy`: from which starts `wait_for_flush` can stop the logger.
- `Arithmetic.dfy`: facts about division.

Four properties one might expect do not hold without a condition, and are proved with it:

- Splitting by `m` and then by `d` is splitting by `d` if and only if `d` divides `m` or no
  line is longer than `m` (`SplitFusion`).
- A file cut at its newlines gives back one line for each record if and only if no record
  has a newline in its tag, file, function name or time (`GlobalLines`, `ContextLines`).
- `resize_all` reserves relative to the capacity of an empty vector, which forces the new
  capacity if and only if the vector had it already or had none (`ResizeGuarantee`).
- The system stops only with nothing left to do if and only if no thread calls
  `wait_for_flush`. Such a caller waits on the semaphore of the queue
  (`src/logger/logger_thread_ctx.rs:370-375`), not on `flush_semaphore`, contrary to the
  comment at `src/logger/logger_thread_ctx.rs:59-60`; so it can take the token meant for the
  log thread. From any start, a run can end with everybody done and the log thread asleep over
  queued entries exactly if there is such a caller and an entry to log (`StarvationExactly`).
  And it holds the read guard meanwhile (`src/ffi.rs:198`), so a run can come to a deadlock
  exactly if there is such a caller (`DeadlockExactly`). Within a run, `StuckExactly` says in
  which states no thread can move, `DeadlockFreedom` in which of these entries are queued, and
  `ComesToRest` from which states the log thread comes to rest with everything durable.

The comment at `src/logger/logger_thread_ctx.rs:287-288` speaks of a resize to 100; the code
installs a copy of an empty pooled vector, and so does the model.

## Model

| member | source | states |
|---|---|---|
| Guarantees.Refinement | src/logger/logger_thread_ctx.rs:284-323 | in every run without I/O failure: records written, the rest of the batch in hand and the split of the queue are together the split of everything accepted in queue-lock order, and the global file reads as the records written; together they spell the accepted messages, without their newlines, in that order |
| Guarantees.FailureSafety | src/logger/logger_thread_ctx.rs:157-175 | whatever fails and whenever: the global file reads as a prefix of the split of what was accepted, followed by at most one error record; the records written spell a prefix of the accepted messages |
| Guarantees.FailureIsFinal | src/logger/logger_thread_ctx.rs:157-175 | after a failure, for any continuation, no entry is drained and no entry's record is written any more |
| Failures.StopsExactly | src/logger/logger_thread_ctx.rs:302-332 | in every run the log thread has stopped exactly if some step met a failing write of a record in hand, a failing call of a registered sink, or a failing flush |
| Failures.FailsExactly | src/logger/logger_thread_ctx.rs:302-332 | the same from any state that has not failed |
| Failures.SinkFailureStops | src/logger/sink_logger.rs:10-14 | a sink that fails has been called with the record; no other sink is called with it, or with any later record, ever after, but perhaps with the error record |
| Failures.ErrorReported | src/logger/logger_thread_ctx.rs:165-174 | from a failure on, as long as the report itself meets none: it takes at most four steps of the log thread and one for each sink; when it is over the global file reads as the records written and one error record, and each sink got it behind all it had |
| Guarantees.ErrorRecordSays | src/logger/logger_thread_ctx.rs:169-174 | an error record is of level error and tag "Paper2" and begins with "Error occurred in logging thread: " |
| Failures.ReportIsMade | src/logger/logger_thread_ctx.rs:165-174 | with nobody else inside the logger a run to the end of the report exists |
| Failures.ErrorFlushes | src/logger/logger_thread_ctx.rs:166-167 | before the report the files are flushed: no text changes, and if no flush fails all that was written is durable |
| Failures.ReportFailureEnds | src/logger/logger_thread_ctx.rs:403-422 | a failure in the report ends it at the write or sink that fails, for good |
| Guarantees.StreamsGrow | src/logger/logger_thread_ctx.rs:194-213 | over any run what was accepted and what was written only grow at their ends |
| Guarantees.ProducerOrder | src/logger/logger_thread_ctx.rs:203-213 | the written stream is a prefix of whole blocks, one for each call in queue-lock order; each producer's calls come in its program order, and only the call now holding the queue lock can be there in part |
| Guarantees.GroupsStayWhole | src/logger/logger_thread_ctx.rs:203-213 | a drain takes all entries of the calls made so far, and no call in part |
| Guarantees.NeverSleepsUnflushed | src/logger/logger_thread_ctx.rs:325-340 | at every point of the log thread's wait the global file holds, durably, the split of everything drained, and each context file, durably, all that was written to it |
| Guarantees.NoLostWakeup | src/logger/logger_thread_ctx.rs:338-340 | while the log thread waits over a non-empty queue the flag is up, a producer that has pushed has still to signal, or a `wait_for_flush` caller took a token over queued entries since the last drain; without such callers the last case is gone; and the flag is never up over a log thread asleep un-notified |
| Guarantees.BoundedExposure | src/logger/logger_thread_ctx.rs:282-336 | accepted entries that are not durable, in the global file and in the context files from their registration on, are at most 99 + batch in hand + queue, and 99 + queue once the flush test is passed; at the top of the loop `logged` counts the entries drained since the last flush and is below 100 |
| Guarantees.FlushesWhenDue | src/logger/logger_thread_ctx.rs:328-336 | in every run the flush test leads to a flush exactly when nothing is queued or at least 100 entries were drained since the last one |
| Guarantees.ContextProjection | src/logger/file_logger.rs:27-45 | over any interleaving with registrations, failures included, the file of a tag received the compact form of exactly the complete records with that tag since its registration, in order; complete are all written records, but after a failure perhaps not the last, and then the error record if its context line was written |
| Guarantees.ContextFromRegistration | src/logger/logger_thread_ctx.rs:237-254 | from a registration in any state of any run on, until the tag is registered anew or removed: the file reads as the tagged records completed since then, whatever fails; without failure the registration takes effect between two batches |
| Guarantees.SinkFromRegistration | src/logger/logger_thread_ctx.rs:262-267 | from a registration in any state of any run on, in whatever follows: the sink holds the written records in order from the first that the sinks had not all received, and after a failure perhaps the error record behind them |
| Guarantees.ContextRemoved | src/logger/logger_thread_ctx.rs:257-260 | from its removal on, until its tag is registered anew, a context is gone |
| Guarantees.Registers | src/logger/logger_thread_ctx.rs:237-267 | a registration takes effect once and does what it asks for: an empty writer for its tag, or none any more, or one sink more; all other files and sinks stay |
| Guarantees.SinkAgreement | src/logger/sink_logger.rs:6-17 | each sink received a contiguous slice of the written records from its registration on (and the error record behind it after a failure), no sink is ahead of the file, two sinks are at most one record apart |
| Guarantees.GlobalLines | src/logger/log_data.rs:56-69 | in every run, cutting the global file at newlines gives one line for each written record, and the error record, in order, exactly when no written record has a newline outside its message and the error record none at all |
| Guarantees.EntryLines | src/logger/log_data.rs:56-69 | when all that was accepted is written: so it does exactly when no accepted entry that leaves records has a newline outside its message |
| Guarantees.CleanEntriesCleanLines | src/logger/log_data.rs:56-69 | in a state with entries still to be written the same condition is sufficient |
| Guarantees.ContextLines | src/logger/log_data.rs:70-82 | the same for each context file and the compact form, whatever newlines the tag has, for its complete records since registration |
| Guarantees.FileShowsRecords | src/logger/log_data.rs:56-69 | as long as nothing fails, if no accepted entry holds a newline or delimiter outside its message, an independent reader of the lines of the global file gets back level, time, tag, file, line, column, function name and message of every written record, in order |
| Guarantees.ContextShowsRecords | src/logger/log_data.rs:70-82 | and from a context file the same without the tag |
| Guarantees.DrainEmptiesQueue | src/logger/logger_thread_ctx.rs:285-293 | in every run a drain takes the whole queue out and installs an empty one |
| Guarantees.PoolRotates | src/logger/logger_thread_ctx.rs:278-292 | in every run the log thread gives its vector back each turn: the pool holds two empty vectors, or one while the other is in hand, no third is ever made, and the drain after k others takes vector k mod 2 |
| Progress.StuckExactly | src/logger/logger_thread_ctx.rs:194-213 | in every reachable state, under a reader-writer lock that keeps readers out while a writer waits, no thread can move exactly when all are finished, asleep, or behind a sleeping `wait_for_flush` caller's read guard |
| Progress.DeadlockFreedom | src/logger/logger_thread_ctx.rs:338-340 | unless a `wait_for_flush` caller sleeps with the read guard, some thread can move until all are done; then, unless the log thread is dead, the queue is empty exactly when no token was taken over queued entries since the last drain |
| Quiescence.ComesToRest | src/logger/logger_thread_ctx.rs:284-341 | whenever nobody else is inside the logger, the log thread alone takes at most `Measure` steps and makes at most two drains, and stops exactly when asleep; then the queue is empty and the split of everything accepted durable in the global file exactly if the run did not start waiting over queued entries with the flag down |
| Quiescence.RestIsReached | src/logger/logger_thread_ctx.rs:284-341 | from every state that is not starved in that sense a run leads to that rest |
| Quiescence.QuietStep | src/logger/logger_thread_ctx.rs:284-341 | every step of the log thread alone decreases the measure over queue, flag and program point, and uses up one of the drains left when it drains |
| Witnesses.StarvationExactly | src/logger/logger_thread_ctx.rs:370-375 | from any start of the logger, a fair run can end with everybody done and the log thread asleep over queued entries if and only if some thread calls `wait_for_flush` and some producer has an entry to log |
| Witnesses.StarvedForEver | src/logger/logger_thread_ctx.rs:338-340 | from such an end, whatever still happens, nothing more is drained |
| Witnesses.DeadlockExactly | src/ffi.rs:198 | from any start of the logger, a fair run can come to a state in which no thread can move and not all are done if and only if some thread calls `wait_for_flush` |
| Service.WrittenSoon | src/logger/logger_thread_ctx.rs:284-323 | under any load, as long as nothing fails: all that is accepted now is in the global file once the log thread finished its turn and took three more steps; steps in its wait count as well, at most two a wait, when no `wait_for_flush` caller and no spurious wakeup disturbs it |
| Service.DeliveredSoon | src/logger/logger_thread_ctx.rs:309-322 | and it is delivered to every registered sink within the turn in progress and the next, whose steps are bounded by the number of sinks and the records of the batch that the next drain takes |
| Service.DurableSoon | src/logger/logger_thread_ctx.rs:328-336 | and it is durable, in the global file and in the context files, within a number of steps bounded by the number of sinks and the records drained up to that flush: however the others keep the queue filled, a flush comes |
| Service.UntilFlushDrained | src/logger/logger_thread_ctx.rs:284-336 | the entries that bound counts are among those drained in the run after its start |
| Runs.RunInv | src/logger/logger_thread_ctx.rs:272-342 | the invariant of the whole system holds after every run from a state in which it holds |
| Runs.StepInv | src/logger/logger_thread_ctx.rs:272-342 | every step of every thread keeps it |
| Runs.InitInv | src/logger/logger_thread_ctx.rs:131-178 | it holds when `init` starts the log thread, over entries queued and registrations made before |
| Locking.StepLocks | src/logger/logger_thread_ctx.rs:194-213 | every step keeps: read guards belong to the threads inside the logger, the queue lock to the one producer that pushes |
| Locking.StepWaits | src/semaphore_lite.rs:25-51 | every step keeps: the semaphore's waiters are the parked log thread and the callers inside `wait_for_flush` |
| Delivery.WrittenTexts | src/logger/file_logger.rs:27-45 | a batch write, failing or not, keeps the global text equal to the rendered stream and each context text to its tagged part since registration |
| Delivery.SinkCalledSinks | src/logger/sink_logger.rs:10-14 | a call of one sink, failing or not, keeps every sink's slice of the stream |
| Delivery.RegisteredTexts | src/logger/logger_thread_ctx.rs:237-260 | adding or removing a context keeps the other contexts' texts and starts the new one at the current position |
| Delivery.RegisteredSinks | src/logger/logger_thread_ctx.rs:262-267 | a sink added between two records starts at the next one |
| Delivery.FlushedExposure | src/logger/logger_thread_ctx.rs:328-336 | a flush makes all drained entries durable and resets the count |
| Splitter.SplitContract | src/logger/logger_thread_ctx.rs:379-400 | records differ from their entry in the message alone; messages are newline-free, have 1 to max characters and concatenate to the entry's message without newlines; their number is the sum over the lines of ⌈length/max⌉ |
| Splitter.SplitLine | src/logger/logger_thread_ctx.rs:382-388 | the pieces of a line come after those of the lines before it, make up the line, and all but the last have exactly max characters |
| Splitter.LinesUnique | src/logger/logger_thread_ctx.rs:382-383 | the split at newlines is the only list of newline-free pieces that joins to the message |
| Splitter.LinesAreLines | src/logger/logger_thread_ctx.rs:382-383 | joining the lines of a message gives the message back |
| Splitter.ChunksUnique | src/logger/logger_thread_ctx.rs:386-388 | the chunks are the only cut into full chunks with at most a short last one |
| Splitter.ChunkAt | src/logger/logger_thread_ctx.rs:386-388 | chunk i is the slice of the line from i * max |
| Splitter.SplitAllAppend | src/logger/logger_thread_ctx.rs:379-400 | splitting does not depend on where the stream of entries is cut into batches |
| Splitter.SplitAllAt | src/logger/logger_thread_ctx.rs:379-400 | the records of a queue are those of its entries, entry by entry, in order |
| Splitter.QueueText | src/logger/logger_thread_ctx.rs:379-400 | the messages of the records of a queue spell the messages of its entries without newlines, in order |
| Splitter.QueueLine | src/logger/logger_thread_ctx.rs:382-395 | the pieces of any line of any entry of a queue: their place in the stream, what they make up, their lengths and their other fields |
| Splitter.SplitFusion | src/logger/logger_thread_ctx.rs:379-400 | splitting by m and then by d is splitting by d exactly when d divides m or no line is longer than m |
| Splitter.SplitIdempotent | src/logger/logger_thread_ctx.rs:379-400 | splitting twice by the same length is splitting once |
| Splitter.OneRecordPerLine | src/logger/log_data.rs:56-82 | a rendered file cut at newlines gives the printed records back exactly when no printed field holds a newline |
| Records.BodyIsOneLine | src/logger/log_data.rs:56-82 | a printed record is one line exactly when its text fields are |
| Reading.LineReads | src/logger/log_data.rs:56-69 | a reader that knows nothing of the printer gets every field of a record back from its global line, with the defaults "GLOBAL" and "default", if no field holds its delimiter |
| Reading.CompactLineReads | src/logger/log_data.rs:70-82 | and from its compact line all but the tag |
| Reading.NumeralReads | src/logger/log_data.rs:58-67 | a printed number has the digits of its value, and no zero in front |
| Semaphores.Conservation | src/semaphore_lite.rs:25-51 | for any number of threads and any schedule: signals that raised the flag equal consuming returns plus the raised flag, and nobody stays parked un-notified over a raised flag |
| Semaphores.WaitsAccounted | src/semaphore_lite.rs:32-51 | every wait that began is still inside, took one token, or ended by its timeout without taking one |
| Semaphores.BurstReleasesOne | src/semaphore_lite.rs:25-38 | a burst of signals releases at most one waiter, and exactly one once the woken threads have tested the flag if one waits without a timeout |
| Semaphores.WaitRuns | src/semaphore_lite.rs:32-51 | a whole wait is a legal run of the semaphore in which the thread takes exactly one token if it returns other than by its timeout, and none if it times out or still sleeps |
| Semaphores.ParkEnds | src/semaphore_lite.rs:32-38 | whatever other threads do, a parked thread stays inside its wait until it tests the flag itself, and only a timed one can time out |
| Semaphores.SemaphoreLite.Signal | src/semaphore_lite.rs:25-29 | raises the flag and wakes every parked thread |
| Semaphores.SemaphoreLite.NotifyAll | src/semaphore_lite.rs:28 | every parked thread is notified, the others are left alone |
| Semaphores.SemaphoreLite.Wait | src/semaphore_lite.rs:32-38 | the whole loop, over any parks in which others use the semaphore: it goes through legal steps to the state they lead to, and returns exactly when `Ends` says it took a token, with the flag down |
| Semaphores.SemaphoreLite.WaitTimeout | src/semaphore_lite.rs:41-51 | the same with a timeout in any of its parks: it ends as `Ends` says, with a token, by its timeout, or still parked |
| VecPools.Rotation | src/vec_pool.rs:31-67 | whatever is done with the vectors: pooled vectors are empty, the k-th guard gets buffer k mod n, at most max(n, 1) buffers are allocated, the pool keeps its length |
| VecPools.ResizeGuarantee | src/vec_pool.rs:50-55 | resizing forces the new capacity exactly on vectors that had it or had none; it always leaves max(old, new - old) |
| VecPools.VecPool.TakeVec | src/vec_pool.rs:42-48 | the front vector, or a new one when the pool is empty; it is empty |
| VecPools.VecPool.ResizeAll | src/vec_pool.rs:50-55 | every pooled vector keeps its place and gets a capacity that `reserve` allows |
| Fanout.WriteBatchReceived | src/logger/file_logger.rs:27-45 | with or without a failure the global file received the first `written` records in order and the context files the tagged ones of the first `complete`, at most one fewer; a batch that succeeds is received whole |
| Fanout.WriteBatchExactly | src/logger/file_logger.rs:27-45 | a batch write stops at the first record whose write fails, and only there |
| Fanout.WriteRecordReceived | src/logger/file_logger.rs:5-24 | one record reaches the global file and the file of its tag, nothing else |
| Fanout.BatchCut | src/logger/file_logger.rs:5-45 | one batch, two batches, or record by record, with any spilling: every file ends with the same text |
| Fanout.DeliverEachReceived | src/logger/logger_thread_ctx.rs:309-322 | every sink received, in order, the records all were called with; after a failure the sinks up to the one that failed are one record ahead, and no file changed |
| Fanout.DeliverEachExactly | src/logger/logger_thread_ctx.rs:309-322 | the sink calls stop at the first record for which a sink fails, after that sink, and only there |
| Fanout.FlushKeepsTexts | src/logger/logger_thread_ctx.rs:347-365 | a flush changes no text, and leaves nothing in a buffer exactly when no file's flush fails |
| Fanout.FlushStops | src/logger/logger_thread_ctx.rs:347-365 | a flush that fails has flushed the files before the one that fails and not touched those after it |
| LoggerThreads.LoggerThreadCtx.QueueLogs | src/logger/logger_thread_ctx.rs:203-213 | the entries go to the end of the queue in order, the semaphore is raised once |
| LoggerThreads.LoggerThreadCtx.DoLogFile | src/logger/file_logger.rs:5-24 | the files after one record, with or without a failing write |
| LoggerThreads.LoggerThreadCtx.DoLogBatch | src/logger/file_logger.rs:27-45 | the loop writes what `WriteBatch` says, up to the first failure |
| LoggerThreads.LoggerThreadCtx.DoLogSinks | src/logger/sink_logger.rs:6-17 | every sink up to the first that fails is called with the record, in order |
| LoggerThreads.LoggerThreadCtx.CallSinks | src/logger/logger_thread_ctx.rs:309-322 | the loop calls the sinks as `DeliverEach` says, up to the first failure |
| LoggerThreads.LoggerThreadCtx.Dispatch | src/logger/logger_thread_ctx.rs:301-322 | a batch goes to the files first, and to the sinks record by record only if no write fails; files and sinks stop where `Dispatched` says |
| LoggerThreads.DispatchedGrew | src/logger/logger_thread_ctx.rs:301-322 | a dispatched batch that succeeds is received by every file and sink; one that fails leaves a prefix in the global file, all of it but perhaps the last record in the contexts, and a prefix of it in each sink |
| LoggerThreads.LoggerThreadCtx.Flush | src/logger/logger_thread_ctx.rs:347-365 | the global file, then the context files up to the first failure; `flush_semaphore` is raised exactly on success |
| LoggerThreads.LoggerThreadCtx.Iterate | src/logger/logger_thread_ctx.rs:284-341 | one turn of the loop, idle or not, keeps written ++ split(queue) = split(accepted), hands the same new records to every file and sink, and ends with all text durable, or with a queue that is not empty and the drained entries added to the count, below 100; after a failure contexts lack at most the last record and sinks hold a prefix; it succeeds exactly if nothing in it fails, leaves the queue, count and flag that `NextLoop` says, and gives its pooled vector back |
| LoggerThreads.LoggerThreadCtx.LogThread | src/logger/logger_thread_ctx.rs:272-342 | the loop, for any number of turns and whatever others log in between: files and sinks grow by exactly the records of what was drained, and an empty queue after a turn means all text is durable; after a failure contexts lack at most the last record and sinks hold a prefix; it succeeds exactly if no turn fails |
| LoggerThreads.LoggerThreadCtx.Run | src/logger/logger_thread_ctx.rs:157-175 | at its end the global file reads as a prefix of the split of what was accepted; if a turn failed, and exactly then, followed by the error record unless its global write fails, and if none of its writes fails every sink up to the first that fails got it last |

## Left out

- The Android backends and the `stdout` and `tracing` features (`src/logger/logcat_logger.rs`, `src/logger/stdout_logger.rs`, `src/logger/tracing_logger.rs`): foreign or console output.
- The FFI layer, the C++ headers and the adapter crates: thin wrappers around the core; the read guard that `paper2_wait_for_flush` holds is modelled.
- The panic hook, which writes past the queue: it is assumed not installed, as `init_logger` does. Panics, and a `max_string_len` of 0, on which the splitter panics.
- Sinks that call the logger: a sink is a call that returns or fails.
- Real files: paths, directories, tags that name the same file, and a `BufWriter` dropped with text in its buffer; a context is the stream of its current writer.
- Writes are whole records: a write that fails leaves the record's line out, where the source can leave a part of it in the buffer.
- Clock and timeouts: a timeout may run out at any time; a timestamp is the text the printers make of it.
- LoggerThreads.LoggerThreadCtx.Iterate: other threads log at three fixed points of a turn; every interleaving is covered by `Pipeline`, on values.
- LoggerThreads.LoggerThreadCtx.LogThread: other threads act as in `Iterate`, and register nothing while the loop runs; `Pipeline` covers both.
- LoggerThreads.LoggerThreadCtx.Run: other threads act as in `LogThread`.
- Guarantees.CleanEntriesCleanLines: sufficient only, since entries still to be written can have newlines that the file does not show yet; `EntryLines` is exact once all is written.
- `flush_semaphore` in `Pipeline`: nobody waits on it.
- Allocation: `with_capacity` gives exactly the capacity asked for, and `log_max_buffer_count` and `line_end` have no effect on what is written.
