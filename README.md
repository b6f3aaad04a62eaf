# wasmedge-async: the executor, reactor and TCP endpoints in Dafny

This project models the single-threaded async runtime of `wasmedge-async`.

The **executor** keeps a FIFO queue of ready tasks. `block_on` polls the entry future, then drains the queue, polling each task with a waker bound to that task. It then asks the **reactor** to wait for readiness events.

The reactor holds two tables:
- the `Poller`'s subscriptions, mapping each descriptor to its read/write interest;
- the wakers, keyed by `2*fd` for the read direction and `2*fd+1` for the write direction.

`wait` takes the waker out of the slot each event names and wakes it, so the task is pushed back onto the queue.

The **TCP endpoints** touch these tables:
- `bind` and `connect` register a new descriptor with full interest;
- `poll_next`, `poll_read` and `poll_write` store the current waker when the socket call would block, and return `Pending`;
- dropping a stream removes its registration.

Modules, one per concern:

- `Io` (`io.dfy`): shared types. These are `Poll`, `Option`, `Result` and I/O errors with their kind (`WouldBlock`, `Unsupported`, `Other`, OS codes).
- `Tasks` (`tasks.dfy`): task ids, wakers (a task's waker, or the no-op waker of the entry future), the `TaskQueue` class, and waking.
- `Reactors` (`reactor.dfy`):
  - the key encoding;
  - the two tables as a value (`Table`), with one function per operation (`Added`, `Deleted`, `Modified`);
  - the event dispatch of `wait` as a function (`Take`, `Dispatch`);
  - the `Poller` and `Reactor` classes. Each method is proved to change the object exactly as the matching function says.
- `RunLoop` (`runloop.dfy`): the run loop of `block_on` as a step relation over a trace of actions (`Next`, `Run`), with the scheduling properties proved on it.
- `Executors` (`executor.dfy`): the `Executor` class, `spawn` and `block_on`. Futures are oracles. A `Program` says what the k-th poll of the entry future, or of task `id`, reports (`Ready` or `Pending`) and what it does: spawn, wake itself, register interest, open or close an endpoint. `BlockOn` also returns the trace of the steps it took. The trace is proved to be accepted by `RunLoop.Run` and consistent with the result. It is also proved to replay (`Replay`). Starting from the executor's tables, poll counts and task counter before the call (the books, `Books`), each step is what the oracle or the readiness input says on the books the earlier steps left. The books after the last step are the executor's state after the call.
- `Tcp` (`tcp.dfy`): listeners, streams and the read buffer. Each socket call's outcome is a parameter.

## Model

| member | source | states |
|---|---|---|
| Tasks.WokenTasks | src/executor.rs:104-108 | The ids that waking a sequence of wakers pushes: only task wakers push, one id each, never more ids than wakers. |
| Tasks.WokenTasksAppend | src/executor.rs:104-108 | Waking `ws` then `vs` pushes what waking `ws` pushes, followed by what waking `vs` pushes. |
| Tasks.WokenTasksOfTaskWakers | src/executor.rs:104-108 | Waking only task wakers pushes those tasks' ids one for one, in order. |
| Tasks.TaskQueue.constructor | src/executor.rs:79-82 | A new queue is empty and has the default capacity of 4096. |
| Tasks.TaskQueue.WithCapacity | src/executor.rs:83-87 | A new queue is empty and has the given capacity. |
| Tasks.TaskQueue.Push | src/executor.rs:89-92 | The handle is appended at the back; nothing else changes. |
| Tasks.TaskQueue.Pop | src/executor.rs:94-97 | On a non-empty queue, returns and removes the oldest handle. On an empty queue, returns `None` and changes nothing. |
| Tasks.Wake | src/executor.rs:104-108 | A task's waker pushes that task onto the queue. The no-op waker leaves the queue unchanged. |
| Reactors.ReadKey | src/executor.rs:129 | The read slot of `fd` is an even u64 key whose half is `fd`. |
| Reactors.WriteKey | src/executor.rs:130 | The write slot of `fd` is an odd u64 key whose half is `fd`. |
| Reactors.KeysInjective | src/executor.rs:129-130 | A read key never equals a write key, and two descriptors share a key only if they are the same descriptor. |
| Reactors.SlotsOf | src/executor.rs:158-171 | `Read` writes only the read slot, `Write` only the write slot, `All` both. Every slot belongs to `fd`. |
| Reactors.SubscriptionFor | src/executor.rs:33-56 | The subscription carries `fd` as its token. Read interest is on unless the interest is `Write`; write interest is on unless it is `Read`. |
| Reactors.Added | src/executor.rs:19-29 | `fd` gets full interest, replacing any earlier entry. Other descriptors and all wakers are unchanged. |
| Reactors.Deleted | src/executor.rs:151-155 | `fd`'s subscription and both its waker slots are gone. Every other descriptor's entries, in both tables, are unchanged. |
| Reactors.Modified | src/executor.rs:157-173 | The waker is stored in the slot(s) of the interest, overwriting; other slots are unchanged. The subscription of `fd` is narrowed only if it exists; otherwise the subscriptions are unchanged. |
| Reactors.SlotOfEvent | src/executor.rs:128-131 | A read event names the read slot of its token and a write event the write slot; timeouts and errors name none. |
| Reactors.Take | src/executor.rs:128-143 | An event takes a waker exactly when its slot holds one; it then returns that waker and the table without that slot. An error event aborts with its error; every other failure aborts with the Unsupported error. |
| Reactors.Dispatch | src/executor.rs:126-145 | Events are handled in order until one stops the dispatch. At most one waker is invoked per event, each one taken from the table, and the table left has no slot the given one lacked. |
| Reactors.DispatchConsumes | src/executor.rs:126-144 | Dispatch only removes wakers, never adds or changes them; every waker invoked accounts for exactly one slot removed. |
| Reactors.DispatchOkWakesEveryEvent | src/executor.rs:126-145 | `wait` succeeds only if every event was a read or write event, and then it invoked one waker per event. |
| Reactors.DispatchOkWhenAllServed | src/executor.rs:126-145 | The converse. Suppose every event is a read or write event, each for a different slot that holds a waker. Then `wait` succeeds, invokes each event's waker in event order, and leaves exactly the other slots. |
| Reactors.DispatchSplit | src/executor.rs:126-144 | Events are handled in order. After a failure the later events are not looked at; otherwise they are handled on the table the earlier ones left. |
| Reactors.ErrorEventAborts | src/executor.rs:132-134 | An error event ends `wait` with that error. Wakers invoked before it stay invoked, and later events are left unprocessed. |
| Reactors.UnservedEventAborts | src/executor.rs:131-143 | A timeout, or an event whose slot holds no waker, ends `wait` with the Unsupported error. Later events are left unprocessed. |
| Reactors.DirectionsAreIndependent | src/executor.rs:129-130 | For the waker table only: with both slots of a descriptor filled, a read event and then a write event wake the read waker, then the write waker, and empty both slots. |
| Reactors.LaterRegistrationWins | src/executor.rs:157-173 | Registering twice for the same slot keeps the later waker, and the next event for that slot wakes it alone. |
| Reactors.EventAfterDeleteFails | src/executor.rs:151-155 | After `delete(fd)`, a read or write event for `fd` fails `wait` at once. |
| Reactors.AddedKeepsWakersSubscribed | src/executor.rs:19-29 | `add` keeps every stored waker's descriptor subscribed, and subscribes `fd`. |
| Reactors.DeletedKeepsWakersSubscribed | src/executor.rs:151-155 | `delete` keeps every stored waker's descriptor subscribed. |
| Reactors.ModifiedKeepsWakersSubscribed | src/executor.rs:33-56 | `modify` keeps every stored waker's descriptor subscribed if and only if `fd` was subscribed. |
| Reactors.DispatchKeepsWakersSubscribed | src/executor.rs:126-144 | Dispatch keeps every stored waker's descriptor subscribed. |
| Reactors.UnsubscribedWakerNeverFires | src/executor.rs:124-146 | A waker stored for an unsubscribed descriptor survives any events that concern subscribed descriptors only. |
| Reactors.Poller.constructor | src/executor.rs:118-120 | A new poller has no subscriptions. |
| Reactors.Poller.Add | src/executor.rs:19-29 | `subs[fd]` becomes full interest with token `fd`, replacing any earlier entry. |
| Reactors.Poller.Delete | src/executor.rs:30-32 | `fd`'s subscription is removed. |
| Reactors.Poller.Modify | src/executor.rs:33-56 | An existing subscription of `fd` is rewritten for the interest; a missing one stays missing. |
| Reactors.Reactor.constructor | src/executor.rs:116-123 | A new reactor has empty tables. |
| Reactors.Reactor.Add | src/executor.rs:147-149 | The tables become `Added` of the old ones. |
| Reactors.Reactor.Delete | src/executor.rs:151-155 | The tables become `Deleted` of the old ones. |
| Reactors.Reactor.Modify | src/executor.rs:157-173 | The tables become `Modified` of the old ones, with the context's waker. |
| Reactors.Reactor.TakeWaker | src/executor.rs:127-135 | One event's handling is `Take` on the waker table; the slot is removed only when a waker is taken. |
| Reactors.Reactor.Wait | src/executor.rs:124-146 | A failed poll returns its error and changes nothing. Otherwise the result, the waker table left and the tasks pushed onto the queue are those of `Dispatch`; the subscriptions are unchanged. |
| RunLoop.Next | src/executor.rs:211-231 | Each step type is legal only in its phase: the entry poll when polling, task polls and lock failures on the queue's head, the wait on an empty queue. Exactly the steps with a verdict finish the loop. |
| RunLoop.RunConcat | src/executor.rs:211-231 | Running `t + u` is running `t` and then `u` from where `t` left off. |
| RunLoop.RunPrefix | src/executor.rs:211-231 | Every prefix of an accepted trace is accepted. |
| RunLoop.RunStep | src/executor.rs:211-231 | Step `i` of an accepted trace is the step rule applied to the configuration before it. |
| RunLoop.RunSegment | src/executor.rs:211-231 | The steps `t[i..j]` of an accepted trace lead from where `t[..i]` left the loop to where `t[..j]` leaves it. |
| RunLoop.FinishedIsFinal | src/executor.rs:211-233 | Once the loop has returned, it takes no further step. |
| RunLoop.TerminalStepIsLast | src/executor.rs:211-231 | A ready entry future, a lock failure or a failed wait is the last step of any accepted trace. |
| RunLoop.EntryPolledFirst | src/executor.rs:211-214 | Every run starts by polling the entry future. |
| RunLoop.EntryPolledAfterWait | src/executor.rs:228-231 | After a successful wait, the next step polls the entry future, not a task. |
| RunLoop.DrainIsFifo | src/executor.rs:215-226 | Draining polls, in order, the queued tasks followed by the tasks those polls pushed, less what is still queued. |
| RunLoop.DrainStaysDraining | src/executor.rs:215-226 | Task polls never leave the draining phase. |
| RunLoop.EveryQueuedTaskPolledBeforeWait | src/executor.rs:215-228 | Between a pending entry poll and the next wait, the tasks polled are exactly those queued at that point, then those pushed during the drain, in FIFO order. |
| RunLoop.NoLockFailureWhenUnlocked | src/executor.rs:216-225 | With no task lock held, "Cannot lock" never happens. |
| RunLoop.ReadyEntryLeavesQueuedTasks | src/executor.rs:212-213 | A ready entry future ends the loop at once, even though tasks are still queued. |
| Executors.Pushes | src/executor.rs:212-219 | The ids a poll's effects push: exactly one per spawn, plus one per self-wake when the waker is a task's own (none with the no-op waker). |
| Executors.TableAfter | src/executor.rs:212-219 | The reactor tables after a poll's effects. The only waker a poll can store is the one it was polled with. A poll that neither registers, opens nor closes leaves the tables unchanged. |
| Executors.NoopWakerPushesOnlySpawned | src/executor.rs:206-207 | Polled with the no-op waker, a future pushes only the tasks it spawns, with consecutive fresh ids. |
| Executors.TaskWakerPushesSelfOrSpawned | src/executor.rs:217-219 | Polled with its own waker, a task pushes only itself or tasks it spawned, and every task it spawned is pushed. |
| Executors.ReplayAppend | src/executor.rs:211-231 | Replaying `t + [a]` is replaying `t` and then step `a` on the books `t` left, if it follows there. |
| Executors.EntryPollStep | src/executor.rs:212-214 | An entry poll follows when it reports the oracle's answer for the entry poll count and pushes that answer's ids from the task counter on. The tables then take its effects, the task counter grows by its spawns, and the entry poll count goes up by one. |
| Executors.TaskPollStep | src/executor.rs:215-219 | A poll of task `id` follows when it is that task's next poll by the poll counts and pushes the oracle's ids from the task counter on, with the task's own waker. The tables then take its effects, that task's poll count goes up by one, and the task counter grows by its spawns. |
| Executors.LockFailedStep | src/executor.rs:216-225 | A lock failure follows and leaves the books unchanged. |
| Executors.WaitStep | src/executor.rs:228-230 | A wait follows when it gets the readiness source's answer for the wait count and reports what `Dispatch` does on the current waker table. The waker table is then the one `Dispatch` leaves (unchanged after a failed answer), and the wait count goes up by one. |
| Executors.EntryPollFollowsExactly | src/executor.rs:212-214 | A recorded entry poll replays if and only if it reports the oracle's answer for the entry poll count, its first fresh id is the task counter, and it pushes what that answer's effects push with the no-op waker. |
| Executors.TaskPollFollowsExactly | src/executor.rs:215-219 | A recorded poll of task `id` replays if and only if it is that task's next poll by the poll counts, its first fresh id is the task counter, and it pushes what the oracle's effects push with the task's own waker. |
| Executors.WaitFollowsExactly | src/executor.rs:228-230 | A recorded wait replays if and only if it starts from the current waker table and reports the readiness source's next answer: its error with nothing woken, or the result and the woken tasks of `Dispatch`. |
| Executors.ReplayCounts | src/executor.rs:211-231 | After a trace that replays, the books count exactly its entry polls and its waits. |
| Executors.RunExtend | src/executor.rs:211-231 | A step the loop can take where an accepted trace left it extends that trace to an accepted one. |
| Executors.RepollTraceRuns | src/executor.rs:211-231 | The run loop accepts every step of the repoll example and is still draining after them. |
| Executors.SelfWakeTwice | src/executor.rs:105-108 | A task that wakes itself twice in one poll pushes its own id twice and leaves the reactor's tables unchanged. |
| Executors.RepollTraceReplaysToSpawn | src/executor.rs:212-214 | In the repoll example, under any readiness source, the entry poll follows and spawns the task. |
| Executors.RepollTraceReplaysToSelfWake | src/executor.rs:215-219 | In the repoll example, under any readiness source, the task's first poll follows and queues it twice. |
| Executors.RepollTraceReplaysToReady | src/executor.rs:215-219 | In the repoll example, under any readiness source, the poll from the first queue entry follows and is the task's ready poll 1. |
| Executors.RepollTraceReplays | src/executor.rs:211-231 | Under any readiness source, every step of the repoll example follows from an executor with empty tables, leaving the task polled three times and no wait done. |
| Executors.ReadyTaskPolledAgain | src/executor.rs:215-219 | As written, a task can be polled again after its poll returned `Ready`: under any readiness source, the repoll example is accepted by the run loop and replays with no wait in it, its third step is a ready poll of the task, and its fourth polls that task again. |
| Executors.FixedDrainStep | src/executor.rs:215-219 | The corrected pass of the inner loop: a popped task already marked finished is dropped and nothing is polled; any other task gets exactly one new poll. Earlier polls and finished marks are kept. |
| Executors.FixedDrainStepNeverRepolls | src/executor.rs:215-219 | The corrected pass keeps every task with a ready poll marked finished, so no task is polled after it was ready. |
| Executors.FixedDrain | src/executor.rs:215-226 | Over a whole corrected drain, no task is polled after one of its polls was ready, and the earlier polls are kept. |
| Executors.Executor.constructor | src/executor.rs:194-199 | A new executor has an empty queue, empty reactor tables and no tasks. |
| Executors.Executor.Spawn | src/executor.rs:181-191 | A task with a fresh id and a free lock is appended to the queue. |
| Executors.Executor.Perform | src/executor.rs:212-219 | One thing a polled future does: a spawn or a wake pushes onto the queue, and registrations change the reactor tables as the table functions say. |
| Executors.Executor.PerformAll | src/executor.rs:212-219 | A poll's effects, in order: the ids pushed are `Pushes`, and the tables are `TableAfter` of the old ones. |
| Executors.Executor.PollEntry | src/executor.rs:212-214 | The k-th entry poll uses the no-op waker and reports the oracle's k-th answer. The queue grows by that answer's `Pushes`, the task counter by its spawns, and the tables become its `TableAfter`. The step is appended to the trace, and the trace still replays to the executor's new state, with one more entry poll. The loop is then finished if the poll is ready, and draining otherwise. |
| Executors.Executor.PollTask | src/executor.rs:215-219 | Task `id`, popped with its lock free, gets its next poll with its own waker. The step is appended to the trace, which the run loop accepts and which still replays to the executor's new state: tables, that task's poll count and the task counter as the oracle's step says. |
| Executors.Executor.Drain | src/executor.rs:215-226 | Queued tasks are popped and polled until the queue is empty. Each poll pushes what the oracle's step for that task does with the task's own waker. A held lock ends the call with "Cannot lock". Every step is accepted by the run loop. The trace still replays to the executor's state after the call: its tables, poll counts and task counter are what the task polls' steps say. Each task poll costs one unit of fuel, and the call stops with `OutOfFuel` only when fuel runs out with tasks still queued. |
| Executors.Executor.AwaitReactor | src/executor.rs:228-230 | The n-th wait gets the n-th readiness answer, with the queue empty. A failed answer finishes the loop with its error and changes nothing. Otherwise the result, the waker table left and the queue are those of `Dispatch` on the table before the wait. The subscriptions are unchanged. The trace still replays to the executor's new state, with one more wait. |
| Executors.Executor.DrainThenWait | src/executor.rs:215-230 | After a pending entry poll: a drain, then a wait unless the drain ended the call. Every step is accepted and replays to the executor's state after the call. It counts one unit of fuel per task poll, and returns to the polling phase only after a successful wait. |
| Executors.Executor.Round | src/executor.rs:211-231 | One pass through the loop: an entry poll, a drain, then a wait. It costs one unit of fuel per poll. The trace replays to the executor's state after the round, with one more entry poll and, when the round does not end the call, one more wait. It returns to the polling phase only after a successful wait, and otherwise says what `block_on` returns. |
| Executors.Executor.BlockOn | src/executor.rs:201-234 | The trace taken is accepted by the run loop and ends with the queue as left. It finishes exactly when a result is returned, and that result is the last step's verdict. The trace replays from the executor's books before the call to its books after it. So every entry poll, task poll and wait is what the oracle or the readiness input says on the state the earlier steps left, and the tables, poll counts and task counter end as the steps say. At most `fuel` polls are made, and exactly `fuel` when the result is `OutOfFuel`. |
| Tcp.PollFlush | src/tcp.rs:168-170 | Always `Ready(Ok(()))`. |
| Tcp.PollShutdown | src/tcp.rs:171-174 | Always ready: `Ok` exactly when the shutdown succeeded, otherwise its error. |
| Tcp.Accept | src/tcp.rs:29-34 | An accepted socket becomes a stream with the same descriptor and address; an error is passed through. |
| Tcp.Classify | src/tcp.rs:93-103 | `Pending` exactly on would-block; otherwise ready with the outcome unchanged. |
| Tcp.Bind | src/tcp.rs:17-27 | On success, the listener's descriptor is registered with full interest. On failure, the error is returned and nothing is registered. |
| Tcp.Connect | src/tcp.rs:64-71 | Succeeds only if both connecting and switching to non-blocking mode succeed, and only then registers the descriptor with full interest. Otherwise the first error is returned. |
| Tcp.PollNext | src/tcp.rs:40-56 | Accepted: `Ready(Some(Ok))`, reactor unchanged. Would-block: read interest with the context's waker, `Pending`. Other errors: `Ready(Some(Err))`, reactor unchanged. |
| Tcp.PollNextRegistered | src/tcp.rs:44-45 | As `PollNext`, but the accepted descriptor is subscribed afterwards, and every stored waker's descriptor stays subscribed. |
| Tcp.PollWrite | src/tcp.rs:91-105 | The outcome classified as in `Classify`. Would-block: write interest with the context's waker. Otherwise the reactor is unchanged. |
| Tcp.ReadBuf.Put | src/tcp.rs:136-139 | The filled part grows by exactly the bytes delivered, which are appended after it; the rest of the buffer is unchanged. |
| Tcp.PollRead | src/tcp.rs:107-141 | Success: the filled part grows by exactly the bytes read, and the result is `Ready(Ok(()))`. Would-block: read interest with the context's waker, `Pending`, buffer unchanged. Other errors: `Ready(Err)`, buffer unchanged. |
| Tcp.Drop | src/tcp.rs:144-148 | The tables become `Deleted` of the old ones for the stream's descriptor. |
| Tcp.AcceptedStreamReadOrphansWaker | src/tcp.rs:45 | A would-block on a stream that was accepted but never registered stores a waker for an unsubscribed descriptor. Events about subscribed descriptors never fire it. |
| Tcp.RegisteredAcceptedStreamReadIsWoken | src/tcp.rs:45 | Once the accepted stream is registered, the same would-block keeps every waker's descriptor subscribed, and a read event wakes the stored waker. |

## Left out

- `Poller::poll` (src/executor.rs:57-65) calls the system's readiness primitive. Its result is an input of `Reactors.Reactor.Wait`: a failure, or a sequence of events. `BlockOn` takes one such input per wait (`readiness`).
- Event tokens are modelled as descriptors (`Fd`), not as raw `u64` values. The readiness source only returns tokens it was given, and this rules out the `token * 2` overflow.
- Descriptors are restricted to `0 <= fd < 2^31`. A negative `RawFd` would sign-extend under `fd as u64`, and the model does not cover that.
- The socket calls (`bind`, `accept`, `connect`, `set_nonblocking`, `read`, `write`, `shutdown`) are foreign I/O. Each one's outcome is a parameter of the member that uses it.
- `shutdown`, `peer_addr`, `local_addr` and `set_nonblocking` on a stream only pass a socket call through, so they have no model of their own.
- Tcp.PollRead: requires the bytes read to fit in the unfilled part, which is the contract of `Read::read` on the buffer it is given. The cast of the uninitialised region (src/tcp.rs:114-116) is not modelled; initialised-but-unfilled bytes are not tracked separately from filled bytes.
- Rust's `Future`/`Pin`/`Context`, `Arc` and `futures::lock::Mutex` are replaced by task ids, wakers as values, a set of held locks and the `Program` oracle.
- Executors.Executor.BlockOn: the set of held locks (`locked`) never changes, because a lock is held only during a poll. The model does not capture a future that polls another task's future while holding its lock.
- Executors.Executor.BlockOn: makes at most `fuel` polls and returns `OutOfFuel` when they run out, so a run that never terminates is not modelled.
- Executors.Executor.Drain: follows the code as written. A task's poll result is discarded, and nothing marks a task finished, so a task queued twice is polled again after it returned `Ready` (see Findings). The corrected pass (`Executors.FixedDrain`) is modelled on values beside the executor; `BlockOn` keeps the behaviour of the code.
- Executors.Executor.Round: the poll result of each task is discarded, as in `Drain`.
- Reactors.WakersSubscribed: coherence is per descriptor, not per direction. `modify` narrows a subscription to the last interest registered (src/executor.rs:33-47), so a read waker stored before a write registration on the same descriptor, with no event between, waits on a write-only subscription; the model does not state or prove that case.
- The thread-local `EXECUTOR` (src/executor.rs:12) is passed explicitly: the reactor to the TCP members, the queue to `Wait` and `Wake`.
- `Reactor::add` returns nothing (src/executor.rs:147), yet src/tcp.rs:21 and src/tcp.rs:68 call `.unwrap()` on its result. The model treats `add` as infallible.
- The extension traits in `src/io/util/` delegate to modules that are not shown. `src/lib.rs` and `src/io/mod.rs` only re-export. The demo programs under `examples/` need a live network. None of these is part of this model.
- `block_on` returns as soon as the entry future is ready, so tasks still queued are never polled (`RunLoop.ReadyEntryLeavesQueuedTasks`). This is the usual contract of `block_on`, which waits for the entry future only; the model does not promise that every spawned task runs before `block_on` returns.

## Findings

| source | as written | input that shows it | evidently intended | confidence | as-written member | corrected member |
|---|---|---|---|---|---|---|
| src/tcp.rs:45 | `poll_next` (and likewise `accept`, src/tcp.rs:31) wraps the accepted socket in a stream without registering its descriptor with the reactor | Accept a connection on descriptor `fd`, then get would-block on the first read (or write) of the stream. `modify` stores the waker at `2*fd`, but `and_modify` leaves `fd` unsubscribed. The readiness source is never asked about `fd`, so the waker never fires. | An accepted stream is registered with full interest when it is created, as `bind` and `connect` do for theirs | not executed | Tcp.PollNext, Tcp.AcceptedStreamReadOrphansWaker | Tcp.PollNextRegistered, Tcp.RegisteredAcceptedStreamReadIsWoken |
| src/executor.rs:215-219 | `block_on` discards the result of a task's poll (`let _ = ...poll(...)`) and never records that a task finished | A spawned task's first poll wakes it twice through its own waker (a join of two futures that each yield once), and its later polls are ready. It is queued twice within the same drain, before any wait, so no readiness answer is involved. Its poll from the first queue entry returns `Ready`, and the second entry polls it again; polling a completed `async` block panics. | A task whose future has returned `Ready` is dropped, not polled again | not executed | Executors.ReadyTaskPolledAgain | Executors.FixedDrainStepNeverRepolls, Executors.FixedDrain |
