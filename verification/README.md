# A model of Molerat

Molerat is a multithreaded tasklet framework in C. This project models its five hard parts and
proves what they promise. `dafny verify dfyconfig.toml` checks all of it.

**The tasklet scheduler** (`src/tasklet.c`) is a step system: the state is everything that threads
share, each thread has a position in the code, and a step is one critical section, one unprotected
read, or one lock taken or given up. `RunQueues` has `tasklet_run`, `tasklet_stop`, `tasklet_fini` and
`run_queue_run`; `WaitLists` has the wait lists, semaphores and `tasklet_unwait`; `Tasklets` puts the
two together, driven by the same threads. The step functions are `RunQueues.Exec`, `WaitLists.Perform`
and `Tasklets.Do`, with `Enabled`, `Allowed` and `Can` saying when a thread may take a step. Main
results hold for every run of every number of threads, tasklets, queues and lists: `Ownership`,
`HandlerExclusive`, `WakeupNotLost`, `StopAnsweredIff`, `Conservation`, `TouchedIffInUse`, `StoppedStaysStopped`,
`NoLockCycle`, `UnitsReachTheHead`, `DanglingCheckHolds`. `RunRings` has the links and heads of the run
queues as the source has them, and `RingsRepresented` says that following them is following the rings.
`Histories` measures what happens by the calls that threads have made and their arguments, `Broadcasts` says who
has been run when a broadcast or the closing of a list is done, and `NeverStuck.GoesOn` that a thread in the
scheduler can go on unless another one keeps it waiting.

**Delimited streams** (`src/delim_stream.c`): the encoder and decoder as classes over streams
(`Streams`) that may move less than they are offered, move nothing, make the caller wait, or fail;
`DelimRoundTrip.RoundTrip` is the round trip over all of that, and is complete on every steady stream: one that
does not fail, and turns its caller away at most finitely often in a row.

**The bounded queue** (`src/queue.c`): the growing ring buffer in an array of 32-bit indices, and the
one semaphore that counts free places or items. `BoundedQueue.Run` is its refinement of a plain FIFO.

**Timers and the poll set** (`src/poll_common.c`, `src/poll_poll.c`): intrusive rings and the dense
array with back-pointers, on the heap, as the source has them; a ghost sequence says what a ring links.
`PollThread.Turn` is the loop of the poll thread over both, with the calls that others make while it sleeps
and with the account of every handler called.

**Buffers, HTTP writer, HTTP reader, status hash** (`src/buffer.c`, `src/http_writer.c`,
`src/http_reader.c`, `src/http_status_gen.c`): the growable buffer in an array, the resumable writer, the
reader with its in-place compaction over any parser, and the search for a perfect hash.

## Where the code departs from the obvious claim

Each of these is stated in the model as it is, with the exact condition.

- A tasklet stopped from another thread while its worker is in `mutex_transfer` keeps its `runq`, and
  every later `tasklet_run` of it is swallowed: `StrayArises`, `RunSchedulesUnlessStray` (if and only
  if), `StrayForever`, and the run `StopRaces.SwallowedWakeup`. A later stop or fini of it follows
  stale ring links, and nothing else does (`TornByStray`, if and only if); stopping such a tasklet and then
  finishing it is a run that gets there (`StopRaces.StaleLinksFollowed`). The rings come out of it undamaged if
  and only if those that were the tasklet's neighbours, as far as they are on a ring, are neighbours still
  (`RunRings.TornLinks`); `DamagedRing.Damaged` is a run after which a ring leads to a tasklet that is on none.
- A `tasklet_run` from outside that gets in between such a stop and the worker's look at
  `current_state` makes the two wait for each other for ever: `CancelStep`, `RacedStep`,
  `JammedForever`, and the run `StopRaces.StopNeverReturns`. Over any run the stop is answered if and only
  if the worker looks before any such `tasklet_run` gets in: `StopAnsweredIff`.
- `wait_list_fini` returns from an empty list without looking at `unwaiting`. Nobody is then on the way to the
  list if and only if `unwaiting` is zero (`EmptyGivenBackSafely`), and over any run a list given back is
  touched if and only if it was given back with `unwaiting` not zero (`TouchedIffInUse`). Calls of wait and
  unwait that are serialised by the tasklet's mutex are enough for it to be zero (`EmptyUnreached`,
  `ClosedUntouched`); a run without that ends in a list being touched (`CloseRace.ClosedUnderUnwait`).
- A write of nothing where a chunk begins puts an empty chunk on the wire (`DelimWriteStream.Write`, if
  and only if), and the reader never gets past an empty chunk that is not the last
  (`DelimReadStream.Read`, if and only if).
- When the underlying stream ends inside a frame, the sub-stream reports STREAM_END although it is not
  in its end state, and closing it then fails the assertion of `src/delim_stream.c:354`. At the end of the
  stream the sub-stream is in its end state if and only if what never arrives is no more than what follows
  the frame (`DelimReadStream.CutShort`); one byte is a stream on which it is not (`DelimRoundTrip.BrokenOff`).
- `growbuf_vprintf` takes text that exactly fills the room for text that has fitted, and loses its last
  byte: `PrintedFaithfully` (if and only if), `PrintedTruncated`.
- `http_reader_body` forgets body data that it has copied from the prebody buffer if the stream then has
  nothing to give. For any parser that does not fail: it is lost if and only if there was some, it left
  room, and the stream's answer was to wait, an error, or 0 (`Reader.Body`, by `Reader.Settled`); for one
  that takes the body to run to the end of the stream, the same in terms of what lay in the prebody buffer
  before the call. `HttpReader.BodyLost` is a run. A parser failing on that data is returned as -1, which is
  STREAM_WAITING and not STREAM_ERROR; the ending `Failed(true)` is this and nothing else (`Reader.Settled`).
- `http_reader_prebody` reads from the stream before it looks at what is left over from the message
  before: this is looked at if and only if the stream's first answer, idling apart, is neither to wait nor an
  error (`Reader.Prebody`). A message that is complete in the buffer is so not noticed while the stream waits;
  `HttpReader.MessageUnnoticed` is a run. At the end of the stream it stores an enumerator of another type, which is
  0: the state is PREBODY again, and the END state is never entered.
- After a `poll()` that failed (was interrupted), `poll_dispatch` goes by the report before it. A turn of the
  loop calls a handler for events that this `poll()` has not reported if and only if the `poll()` failed and some
  live entry with a slot has events standing from before: `PollThread.StaleCalls`.
- The events polled for cover an entry's interest but may be more, since `poll_dispatch` does not shrink
  them: they are the interest and what it has lost to calls of the handler since the entry was last
  synchronised (`lost`), and are just the interest if and only if nothing was lost (`Poll.Synchronised`); a
  dispatch leaves them so if and only if the handler was not called, or with nothing of the interest
  (`Poll.StillExact`). A handler may so be called with IN or OUT although it has no interest in it, if and only
  if the event is one of those lost (`Poll.Unwanted`). `PollThread.CalledAgain` is a run of two turns for this
  and the point before: the second turn calls the handler again, be it that its `poll()` failed or not.
- The generated status lookup needs at most 255 codes, besides the absence of collisions, since an index of
  255 reads as an empty slot: `LookupAgrees` and `Generate` (if and only if).

## Assumptions

- Mutexes, condition variables and `mutex_transfer` with its veto are primitives. A condition variable
  wakes only those signalled, a veto reaches the threads that are blocked in a transfer to that mutex,
  and a transfer gives up the queue's mutex before it blocks.
- A handler does not release its tasklet's mutex while it runs (so that it returns holding it), unless it has
  destroyed the tasklet, and does not call `run_queue_run`. Nobody calls `tasklet_run(t)` while
  `tasklet_fini(t)` is in progress. A thread enters `run_queue_run` holding no tasklet mutex, and one thread at a time serves
  a queue. Calls of `wait_list_wait`, `wait_list_down`, `tasklet_stop` and `tasklet_fini` own the
  tasklet's mutex; a list being closed gets no new callers.
- A stream idles (moves nothing, although it could) at most finitely often in a row; it is this that makes
  the loops of `delim_write_stream_close`, `finish_prebody` and `http_reader_prebody` terminate. A stream
  may also make its caller wait, or fail, as often as it likes, except where a result speaks of a steady, a
  willing or a silent one (`Streams.Manner`).
- A `poll()` that fails leaves the `revents` of the array as they were, which is up to the system.
- The HTTP parser takes in data from the front, makes progress when it says that all is well, hands out
  pieces that do not overlap, gives every header name a value, and hands out no header pieces in a body
  (no trailers, section 4.1.2 of RFC 7230).
- Allocation succeeds, times are not negative, sizes do not leave `size_t`, and a queue never holds 2^31 items (which
  `max_size` below 2^31 makes sure of).

## Model

| member | source | states |
|---|---|---|
| `RunQueueInvariant.InitCore` | src/tasklet.c:62-73 | fresh run queues and tasklets satisfy the invariant Core |
| `RunQueueInvariant.StepKeeps` | src/tasklet.c:497-666 | every step of every thread in tasklet_run, tasklet_stop, tasklet_fini and run_queue_run keeps Core, unless it unlinks a stray tasklet |
| `RunQueueInvariant.ClaimKeeps` | src/tasklet.c:219-229 | claiming a null `t->runq` by compare-and-swap and enqueueing keeps ring, owner and current consistent |
| `RunQueueInvariant.MarkRequeueKeeps` | src/tasklet.c:233-238 | marking the current tasklet for requeueing keeps Core, whatever the worker is doing |
| `RunQueueInvariant.UnlinkKeeps` | src/tasklet.c:591-594 | taking a scheduled tasklet off its ring for a stop keeps Core |
| `RunQueueInvariant.OwnStopKeeps` | src/tasklet.c:637-641 | a handler that stops or destroys its own tasklet keeps Core |
| `RunQueueInvariant.ForeignStopKeeps` | src/tasklet.c:595-608 | stopping the current tasklet of another thread (veto, then wait) keeps Core |
| `RunQueueInvariant.VetoReturnKeeps` | src/tasklet.c:525-534 | a vetoed mutex_transfer, retried or abandoned, keeps Core |
| `RunQueueInvariant.ReturnedKeeps` | src/tasklet.c:539-570 | leaving a handler (forget, requeue, or stopped) and going on to the next tasklet keeps Core |
| `RunQueueInvariant.DestroyedKeeps` | src/tasklet.c:540-542 | leaving a handler that destroyed its own tasklet keeps Core without touching the tasklet |
| `RunQueueTheorems.ReachableCore` | src/tasklet.c:497-666 | over every run from the start Core holds, until the first unlinking of a stray |
| `RunQueueTheorems.TornByStray` | src/tasklet.c:591-594 | stale ring links are followed by a step if and only if it is the critical section of a stop or fini of a stray, on the queue that the stray still names |
| `RunQueueTheorems.Ownership` | src/tasklet.c:175-243 | a live tasklet names q exactly when it is linked once on q's ring or is q's current (strays apart), so it is never on two queues |
| `RunQueueTheorems.HandlerExclusive` | src/tasklet.c:523-537 | at most one thread runs a tasklet's handler, and it entered owning the tasklet's mutex |
| `RunQueueTheorems.RunSchedules` | src/tasklet.c:214-243 | when tasklet_run(t) returns and t is no stray, a start of its handler is due |
| `RunQueueTheorems.PendingKept` | src/tasklet.c:518-559 | no step other than the start itself or a stop makes a due start not due; vetoed and retried transfers included |
| `RunQueueTheorems.WakeupNotLost` | src/tasklet.c:518-559 | over every run, from the return of tasklet_run(t) a start stays due until the handler starts or t is stopped |
| `RunQueueTheorems.StopReturnsQuiet` | src/tasklet.c:578-666 | tasklet_stop and tasklet_fini return with t on no ring and no start of its handler under way, from t's own handler or from another thread |
| `RunQueueTheorems.QuietKept` | src/tasklet.c:497-576 | a stopped tasklet stays so, and is not started, by any step but another tasklet_run(t) |
| `RunQueueTheorems.Quiescence` | src/tasklet.c:578-666 | over every run without tasklet_run(t), the handler of a stopped tasklet is never started |
| `RunQueueTheorems.OneWaiter` | src/tasklet.c:508-513 | at most one thread waits unsignalled on a queue's condition variable, so cond_signal (line 187) is as good as a broadcast although workers and stoppers share it |
| `RunQueueTheorems.NoMissedSignal` | src/tasklet.c:602-607 | a thread that waits unsignalled on a queue's condition variable still has a reason to wait |
| `RunQueueTheorems.BroadcastsHeard` | src/tasklet.c:563-567 | over every run `stop_waiting` is set only while a stopper waits unsignalled, so that the worker's broadcast is for somebody |
| `RunQueueTheorems.StrayMeans` | src/tasklet.c:595-607 | a stray is exactly a live tasklet that names a queue on which it is neither linked nor current |
| `RunQueueTheorems.StrayArises` | src/tasklet.c:533-534 | a tasklet becomes stray exactly by the `goto next` taken for a tasklet stopped from another thread |
| `RunQueueTheorems.RunSchedulesUnlessStray` | src/tasklet.c:233-238 | tasklet_run makes a start due if and only if the tasklet is not stray; on a stray it changes nothing |
| `RunQueueTheorems.StrayForever` | src/tasklet.c:233-238 | a stray is never scheduled and its handler never starts again, in any run |
| `RunQueueTheorems.ForeignStopCancels` | src/tasklet.c:595-607 | a stop of another thread's current tasklet either returns at once or leaves the worker vetoed with `current_state` Stopped |
| `RunQueueTheorems.CancelStep` | src/tasklet.c:595-607 | whichever thread moves next after such a stop: the worker's look ends it, a tasklet_run(t) from outside turns the state to requeue, nothing else matters |
| `RunQueueTheorems.RacedStep` | src/tasklet.c:523-535 | once a tasklet_run has got in between, the worker's next look jams it and the stopper for good |
| `RunQueueTheorems.JammedForever` | src/tasklet.c:523-535 | a stopper that awaits a worker which awaits the stopper's mutex: no step of any thread ever changes that |
| `RunQueueTheorems.StopAnsweredIff` | src/tasklet.c:595-607 | over every run a stopper that awaits a worker in mutex_transfer is signalled if and only if the worker's look at `current_state` comes before every racing tasklet_run(t) |
| `RunQueueTheorems.NeverAnswered` | src/tasklet.c:595-607 | once a tasklet_run(t) has got in between, no run signals the stopper |
| `StopRaces.StoppedAndStray` | src/tasklet.c:533-534 | a run from the initial state in which a stop returns and leaves its tasklet a stray |
| `StopRaces.StaleLinksFollowed` | src/tasklet.c:591-594 | a run from the initial state, a stop and then a fini of one tasklet, in which stale ring links are followed |
| `RunRings.EnqueueLinks` | src/tasklet.c:174-193 | the pointer writes of run_queue_enqueue append the tasklet to the ring that the links and the head show |
| `RunRings.TakeLinks` | src/tasklet.c:195-212 | the pointer writes of run_queue_remove take the tasklet off, wherever it is on the ring, and move the head |
| `RunRings.StaleRemoval` | src/tasklet.c:195-212 | removing a tasklet that is on no ring leaves a ring as it was if and only if those that its links name, as far as they are on the ring, name each other |
| `RunRings.LinksKept` | src/tasklet.c:214-666 | every step of every thread keeps the links and heads of all queues in agreement with the rings, unless it unlinks a stray |
| `RunRings.TornLinks` | src/tasklet.c:591-594 | unlinking a stray leaves all rings undamaged if and only if its old neighbours, as far as they are on a ring, are neighbours still |
| `RunRings.RingsRepresented` | src/tasklet.c:174-666 | over every run from the start the links and heads show the rings, until a stray is unlinked |
| `DamagedRing.Damaged` | src/tasklet.c:591-594 | a run from the initial state, a stop and then a fini of one of three tasklets, after which the ring's one tasklet leads to a tasklet that is on no ring |
| `StopRaces.SwallowedWakeup` | src/tasklet.c:233-237 | a run from the initial state in which a tasklet stopped from another thread loses the next tasklet_run |
| `StopRaces.StopNeverReturns` | src/tasklet.c:604-607 | a run from the initial state in which a tasklet_run racing a stop makes the stop wait for ever |
| `WaitListInvariant.InitSound` | src/tasklet.c:246-252 | fresh wait lists satisfy the invariant Sound |
| `WaitListInvariant.PerformKeeps` | src/tasklet.c:254-490 | every step of wait_list_* and tasklet_unwait by any thread keeps Sound: rings and back-pointers agree, mutexes have one holder, references are conserved |
| `WaitListInvariant.RemoveKeeps` | src/tasklet.c:338-362 | taking a tasklet off its list moves the references of the other unwaiters from tasklet to list and keeps Sound |
| `WaitListInvariant.MissedKeeps` | src/tasklet.c:324-335 | an unwaiter that finds its tasklet gone gives back its reference, and wakes the closer with the last one |
| `WaitListInvariant.DetachKeeps` | src/tasklet.c:264-297 | wait_list_fini detaching a tasklet takes over its references, and keeps Sound |
| `WaitListInvariant.AddKeeps` | src/tasklet.c:397-413 | linking a tasklet at the end of the list keeps Sound |
| `WaitListTheorems.Conservation` | src/tasklet.c:254-363 | in every reachable state `w.unwaiting` plus the `t.unwaiting` of the tasklets on w is the number of threads between dropping `t.wait_mutex` and rechecking `t.wait` for w |
| `WaitListTheorems.EmptyUnreached` | src/tasklet.c:260-261 | with serialised callers nobody is on the way to an empty list, which is why wait_list_fini may skip its wait |
| `WaitListTheorems.GivenBackSafely` | src/tasklet.c:260-297 | when wait_list_fini gives a list back, from whichever branch, nobody is inside it or on the way to it if and only if its `unwaiting` is zero |
| `WaitListTheorems.EmptyGivenBackSafely` | src/tasklet.c:260-261 | on the branch that does not wait, taken for an empty list, that is if and only if `unwaiting` was zero when the list was locked |
| `WaitListTheorems.TouchedIffInUse` | src/tasklet.c:254-299 | over every run, serialised or not, a list that has been given back is touched if and only if it was given back with `unwaiting` not zero |
| `WaitListTheorems.SerialKept` | src/tasklet.c:254-363 | serialisation of the calls for one tasklet is enough to keep every thread off closed lists, step by step |
| `WaitListTheorems.ClosedNow` | src/tasklet.c:287-297 | a list that has been given back has no thread in it or on its way to it |
| `WaitListTheorems.ClosedUntouched` | src/tasklet.c:254-299 | over every run with serialised callers, no thread touches a list once wait_list_fini has returned |
| `WaitListTheorems.NotRunByLists` | src/tasklet.c:301-363 | a tasklet that is on no list is not being run on behalf of a list |
| `WaitListTheorems.SemaphoreLedger` | src/tasklet.c:443-490 | over every run without wait_list_set the count is its initial value plus the ups less the successful downs, and never negative |
| `WaitListTheorems.RefusedIsLinked` | src/tasklet.c:453-467 | a down is refused only for want of units, and then leaves its tasklet linked on the list |
| `CloseRace.ClosedUnderUnwait` | src/tasklet.c:260-261 | without serialised callers: a run after which a thread is about to lock a mutex of a list that has been given back |
| `Tasklets.InitJoint` | src/tasklet.c:3-12 | the initial state of the whole scheduler satisfies the joint invariant |
| `Tasklets.JointKept` | src/tasklet.c:214-666 | every step of the whole scheduler keeps the joint invariant of queues and lists, until a stray is unlinked |
| `Tasklets.ListRunAllowed` | src/tasklet.c:301-363 | a wait list calls tasklet_run only for live tasklets that nobody is stopping or finishing |
| `Tasklets.BeginStopAllowed` | src/tasklet.c:619-622 | after its tasklet_unwait, tasklet_fini races no tasklet_run made by a wait list |
| `Tasklets.CallsSerial` | src/tasklet.c:578-581 | ownership of `t->mutex` gives the serialisation of wait and unwait calls that wait_list_fini relies on |
| `TaskletTheorems.Reachable` | src/tasklet.c:214-666 | in every reachable state of the whole scheduler the joint invariant holds |
| `TaskletTheorems.StopReturnsAtRest` | src/tasklet.c:578-666 | tasklet_stop and tasklet_fini return with t on no wait list, on no ring, and with no call in progress that could change that, barring a direct tasklet_run(t) at that moment |
| `TaskletTheorems.RestKept` | src/tasklet.c:214-666 | a tasklet at rest stays at rest through every step that is not a call of tasklet_run(t) or of a wait for t |
| `TaskletTheorems.StoppedStaysStopped` | src/tasklet.c:578-666 | over every run of the whole scheduler a stopped tasklet is not started again before it is run or made to wait |
| `TaskletTheorems.RankRespected` | src/tasklet.c:214-666 | t.mutex < w.mutex < t.wait_mutex < runq.mutex: every lock about to be taken, line 539 included, ranks above all those held, and mutex_transfer waits holding none |
| `TaskletTheorems.NoLockCycle` | src/tasklet.c:214-666 | no reachable state has a cycle of threads blocked on mutexes, if user code orders its own tasklet mutexes |
| `SemaphoreProgress.DueKept` | src/tasklet.c:397-490 | a linked tasklet that will look at its list again goes on to do so until a down is refused to it |
| `SemaphoreProgress.FedKept` | src/tasklet.c:346-359 | no step leaves units on a semaphore with a head that will not look at them |
| `SemaphoreProgress.ProgressingKept` | src/tasklet.c:397-490 | over every run, semaphore progress is kept together with what it rests on |
| `SemaphoreProgress.UnitsReachTheHead` | src/tasklet.c:397-490 | whenever nobody is inside w, units and waiters mean that the first waiter is scheduled, or in mid-handler and not refused since |
| `DanglingCheck.OnlyParksLull` | src/tasklet.c:397-490 | only a refusal makes a running handler one that waits: no other step of any thread does |
| `DanglingCheck.AlwaysWatched` | src/tasklet.c:254-576 | over every run, whatever handlers and other threads do, a tasklet whose handler is running with its last refusal standing is on a wait list, and a list that closes has told its tasklets before it lets them go |
| `DanglingCheck.DanglingCheckHolds` | src/tasklet.c:544-550 | the assertion of line 550 holds for every handler that returns with its last refusal standing and without having been rescheduled, even while wait_list_fini is at work |
| `Histories.WhereCalled` | src/tasklet.c:214-666 | over every run each thread is where its last calls of tasklet_run, tasklet_stop, tasklet_fini, run_queue_run and the wait lists have led it, with the arguments that it gave |
| `Histories.WaitsAsTold` | src/tasklet.c:499-576 | over every run a thread that called run_queue_run without `wait` never blocks for want of a tasklet, and one that called it with `wait` is out of it only after it has been given a tasklet (or has been refused one by a veto) |
| `Histories.RunAnswered` | src/tasklet.c:214-243 | over every run, when a user's call tasklet_run(t) returns, a start of t's handler is due if and only if t is no stray |
| `Histories.StopAnswered` | src/tasklet.c:578-666 | over every run, when tasklet_stop(t) or tasklet_fini(t) returns, t is on no ring and no wait list, no start is under way, and t is live after the one and not after the other |
| `Histories.UnitsByCalls` | src/tasklet.c:365-490 | over every run the count of a semaphore is what it was set to last, plus the later ups, less what later successful downs asked for, all by the arguments of the calls |
| `Histories.DownAnswered` | src/tasklet.c:415-479 | a down tries again exactly if its tasklet is on another list, and otherwise succeeds if and only if the units are there; a wait or a refused down leaves the tasklet on the list that the call named |
| `Histories.ListAnswered` | src/tasklet.c:254-479 | wait_list_wait and wait_list_down return only with the tasklet on the list that the call named, or with the units; wait_list_fini only with the list closed and empty; tasklet_unwait only with the tasklet on no list |
| `Broadcasts.EverybodyRun` | src/tasklet.c:254-395 | from a call of wait_list_set or wait_list_broadcast with a broadcast, or of wait_list_fini, on, over every run: when the thread gives up the list's mutex, its tasklet_run has returned for everybody who was on the list when it got it |
| `Broadcasts.JustThoseRun` | src/tasklet.c:254-490 | and just those: a wait_list_up has run the head and nobody else when it gives up the mutex, a wait_list_set without a broadcast nobody, a broadcast or wait_list_fini everybody on the list and nobody else |
| `Broadcasts.EverybodyDue` | src/tasklet.c:365-395 | and after a broadcast everybody is then due, if the handlers of the tasklets on the list behave |
| `NeverStuck.GoesOn` | src/tasklet.c:214-666 | in every reachable state a thread inside the scheduler can take its next step, or a mutex that it needs is held by another thread, or its condition variable has not been signalled |
| `NeverStuck.NoSpinning` | src/tasklet.c:508-513 | a thread that begins to wait for a condition variable, or is woken and goes back to waiting, needs a signal to wake up |
| `Frames.IntroInverse` | src/delim_stream.c:8-10 | decoding the two-byte little-endian chunk size gives back the size |
| `Frames.LittleEndian` | src/delim_stream.c:8-13 | an intro is two bytes, the low one first, and the top bit of the other is the end bit |
| `Frames.ChunksSnoc` | src/delim_stream.c:107-123 | completing a chunk appends its intro and its payload to the wire |
| `Frames.WireAllSnoc` | src/delim_stream.c:149-192 | the wire of several messages is the concatenation of their frames |
| `DelimWriter.IntroBytes` | src/delim_stream.c:125-134 | an intro written in two transfers is the intro written in one |
| `DelimWriter.PayloadBytes` | src/delim_stream.c:83-96 | payload written moves from what is owed to what is on the wire, and completes the chunk exactly when nothing is owed |
| `DelimWriter.GivenUp` | src/delim_stream.c:98-192 | whatever state a sub-stream is left in, what it has put on the wire is a proper beginning of a well-sized frame |
| `DelimWriter.DelimWriteStream.constructor` | src/delim_stream.c:67-81 | delim_write_next, allowed only when no sub-stream is open, starts an empty sub-stream |
| `DelimWriter.DelimWriteStream.WritePayload` | src/delim_stream.c:83-96 | the bytes the sink took are added to the accepted payload and taken from what the chunk still owes |
| `DelimWriter.DelimWriteStream.WriteIntro` | src/delim_stream.c:112-134 | the state counts the intro bytes moved; short, empty and waiting transfers lose nothing |
| `DelimWriter.DelimWriteStream.Write` | src/delim_stream.c:98-147 | the result is exactly the payload accepted, the wire stays accounted for, at most the caller's remainder is owed, an empty chunk arises if and only if nothing is written where a chunk begins, a chunk is as large as what is offered when it begins (at most 0x7fff) and is kept to, a negative result is the underlying stream's own, and a steady stream that takes nothing has got further or used up patience |
| `DelimWriter.DelimWriteStream.Close` | src/delim_stream.c:149-192 | close is legal where a message ends, resumes after waiting, and reports OK exactly when the closing intro is on the wire in full |
| `DelimReader.WireHead` | src/delim_stream.c:290-321 | a frame is its first intro, that chunk's payload, and the rest of the frame |
| `DelimReader.Cut` | src/delim_stream.c:262-280 | bytes taken off a stream that begins with a payload are the next ones of that payload |
| `DelimReader.PayloadTaken` | src/delim_stream.c:262-280 | delivering payload leaves the rest of the wire and the rest of the message in step |
| `DelimReader.IntroTaken` | src/delim_stream.c:291-334 | an intro read in one or two transfers gives the size written |
| `DelimReader.EveryStream` | src/delim_stream.c:282-342 | whatever the underlying stream holds is a frame and what follows it, or breaks off inside a frame: the reader's contracts leave no input out |
| `DelimReader.DelimReadStream.constructor` | src/delim_stream.c:245-260 | delim_read_next, allowed only when no sub-stream is open, starts at the next frame |
| `DelimReader.DelimReadStream.ReadPayload` | src/delim_stream.c:262-280 | payload delivered is the next of the message; the last byte of a last chunk ends the sub-stream |
| `DelimReader.DelimReadStream.HaveChunkLeft` | src/delim_stream.c:302-314 | the end bit is told from the size, and an empty last chunk ends the message at once |
| `DelimReader.DelimReadStream.ReadIntro` | src/delim_stream.c:290-334 | intro bytes change neither what is left of the message nor whether it can be read to its end |
| `DelimReader.DelimReadStream.Read` | src/delim_stream.c:282-342 | the bytes delivered are the next of the message, nothing beyond the frame is consumed, STREAM_END means the whole message or a stream that ended too soon, and a frame is blocked for ever if and only if it has an empty chunk before its last |
| `DelimReader.DelimReadStream.CutShort` | src/delim_stream.c:354 | at the end of the underlying stream the assertion in close holds if and only if what never arrives is no more than what follows the frame |
| `DelimRoundTrip.SendPayload` | src/delim_stream.c:98-147 | on a steady stream (which may make its caller wait finitely often in a row) a caller gets its whole message accepted; on any stream, a caller that keeps offering non-empty parts of its remainder accepts its message byte for byte and ends in START, so close does not abort |
| `DelimRoundTrip.Abandoned` | src/delim_stream.c:98-192 | a sub-stream left at any point has put the beginning of a well-formed frame on the wire, whose message is a beginning of the caller's |
| `DelimRoundTrip.SendMessage` | src/delim_stream.c:98-192 | a message sent is one well-formed frame with exactly that payload, one given up is a proper beginning of a frame, and on a steady stream the message is sent |
| `DelimRoundTrip.SendAll` | src/delim_stream.c:67-192 | messages sent one after another are the concatenation of their frames, and of a beginning of the one given up |
| `DelimRoundTrip.ReceiveMessage` | src/delim_stream.c:245-342 | on a stream that may break off anywhere: what is read is a beginning of the message; told the end, the reader can close the sub-stream if and only if the frame has arrived, and then has the message and leaves what follows; a frame with an empty chunk before its last is never read to its end |
| `DelimRoundTrip.ReceiveAll` | src/delim_stream.c:245-342 | reading back a sequence of frames yields their messages in order, also when a later frame breaks off |
| `DelimRoundTrip.RoundTrip` | src/delim_stream.c:67-342 | for every list of messages, every split into writes and reads, every schedule of transfers and wherever either side gives up: what is received is the messages sent, in order, then a beginning of the next; from a steady source all that were sent in full, on a steady sink all, however the waits fall; and nothing is left over when it is all there |
| `DelimRoundTrip.OneChunk` | src/delim_stream.c:98-192 | the bytes that a message of one chunk puts on the wire, written and closed on a steady stream: its size, low byte first, the message, 00 and 80 |
| `DelimRoundTrip.BrokenOff` | src/delim_stream.c:336-355 | a reader over a stream of one byte is told STREAM_END and is not in the state that close asserts |
| `Masks.MaskIsMod` | src/queue.c:58 | masking with a power of two less one is the remainder |
| `Masks.FitsTwice` | src/queue.c:44 | doubling a capacity that is below 2^31 does not leave 32 bits |
| `QueueWaiters.WaitList.SetBroadcast` | src/tasklet.c:388-395 | the count is replaced and nobody on the list is left asleep |
| `QueueWaiters.WaitList.Down` | src/tasklet.c:443-479 | a down takes a unit, or puts the tasklet to sleep on the list when there is none |
| `QueueWaiters.WaitList.Up` | src/tasklet.c:481-490 | an up adds units and wakes the head |
| `QueueWaiters.WaitList.Leave` | src/tasklet.c:338-362 | when the head leaves and there are units the next tasklet is woken |
| `BoundedQueue.WindowStore` | src/queue.c:58 | storing at the masked write index appends to the contents of the ring buffer, on either lap |
| `BoundedQueue.WindowShift` | src/queue.c:78-82 | advancing the read index, with its wrap-around, drops the oldest item |
| `BoundedQueue.WindowGrow` | src/queue.c:47-55 | unrolling the buffer into a larger one keeps the contents |
| `BoundedQueue.Queue.constructor` | src/queue.c:7-15 | a new queue is empty and valid, for every max_size |
| `BoundedQueue.Queue.FlipWaitersState` | src/queue.c:23-29 | turning the semaphore round wakes every waiter and keeps the token invariant |
| `BoundedQueue.Queue.Admit` | src/queue.c:33-40 | the semaphore refuses exactly when the queue is full (for a push) or empty (for a shift) |
| `BoundedQueue.Queue.Resize` | src/queue.c:42-56 | resizing keeps the contents, and the capacity a power of two below max(9, 2*max_size) |
| `BoundedQueue.Queue.Push` | src/queue.c:31-63 | push succeeds if and only if the queue is not full, and then appends; the token invariant is kept, `up_count` stays an int, and the wait list gains the caller exactly when it is refused |
| `BoundedQueue.Queue.Take` | src/queue.c:76-82 | the oldest item is taken; the assertion of line 76 is its precondition, met by every call |
| `BoundedQueue.Queue.Shift` | src/queue.c:65-89 | shift succeeds if and only if the queue is not empty, and then takes the oldest item; the token invariant is kept, and the wait list gains the caller exactly when it is refused |
| `BoundedQueue.Queue.NobodyForgotten` | src/queue.c:31-89 | while there are items (or free places), tasklets asleep for want of one have an awake head |
| `BoundedQueue.Run` | src/queue.c:7-89 | every sequence of pushes, shifts and departures is answered as a plain bounded FIFO would |
| `BoundedQueue.FirstInFirstOut` | src/queue.c:31-89 | in every run the items accepted are those delivered, in order, followed by those still there |
| `Rings.RemovedIsWithout` | src/poll_common.c:75-85 | taking out the element at an index removes that element and nothing else |
| `Rings.ScannedShape` | src/poll_common.c:157-193 | removing due elements one by one during a scan is filtering |
| `PollWaker.Waker.Wake` | src/poll_common.c:44-50 | a sleeping poll thread that has been woken finds a byte in its pipe, and gets exactly one for the first of any number of wake-ups |
| `PollWaker.Waker.Sleep` | src/poll_common.c:232-238 | going to sleep re-arms the flag |
| `PollWaker.Waker.Resume` | src/poll_common.c:240-245 | waking up disarms it, whether or not the pipe was read |
| `Timers.Bypass` | src/poll_common.c:77-78 | making the neighbours of a ring element each other's neighbours leaves a well-formed ring without it |
| `Timers.FirstLatestIsLeast` | src/poll_common.c:195-214 | the deadline is attained by a timer and is below every other |
| `Timers.TimerQueue.Set` | src/poll_common.c:100-125 | timer_set appends the timer unless it is on the ring already, stores its times, and wakes the poll thread |
| `Timers.TimerQueue.Cancel` | src/poll_common.c:133-141 | timer_cancel takes exactly that timer off the ring |
| `Timers.TimerQueue.Fini` | src/poll_common.c:90-98 | timer_fini leaves a well-formed ring without the timer, whose stale links nobody follows, and nobody asleep on it |
| `Timers.TimerQueue.Wait` | src/poll_common.c:143-155 | timer_wait says whether the timer has fired, and otherwise puts the tasklet to sleep on it |
| `Timers.TimerQueue.Unlink` | src/poll_common.c:71-85 | the unlinking shared by the two keeps the ring well formed in the single, head and inner cases |
| `Timers.TimerQueue.NextInRing` | src/poll_common.c:168-191 | during the scan the next pointer leads to the next timer not dealt with, or to the head exactly at the end |
| `Timers.TimerQueue.Turn` | src/poll_common.c:167-192 | one turn of the dispatch loop, with its three exits, keeps the scan in step |
| `Timers.TimerQueue.Dispatch` | src/poll_common.c:157-193 | dispatch terminates, turns the ring into its timers with `earliest > now` in the same order, and marks fired exactly those removed |
| `Timers.TimerQueue.EarliestLatest` | src/poll_common.c:195-214 | the pointer walk computes the least latest time, or -1 |
| `Timers.TimerQueue.Sleep` | src/poll_common.c:232-238 | the thread goes to sleep having planned for the first deadline |
| `Timers.TimerQueue.NeverOversleeps` | src/poll_common.c:227-249 | whatever is set and cancelled meanwhile, a sleeping thread has been poked or has planned to be back by every timer's latest time |
| `Timers.TimerQueue.PassFires` | src/poll_common.c:227-249 | a pass at or after the planned time fires some timer, and leaves none whose latest time has passed |
| `PollEvents.Told` | src/poll_poll.c:26-33 | what poll() reports reaches the handler event by event, hang-ups as errors, and nothing but POLLNVAL is kept from it |
| `PollEvents.SystemAndBack` | src/poll_poll.c:19-33 | translating an event set to the system's and back loses nothing, and empty means empty |
| `PollSet.Bypass` | src/poll_poll.c:172-175 | unlinking an entry leaves a well-formed ring of updates without it |
| `PollSet.Poll.constructor` | src/poll_poll.c:53-77 | a new poll set satisfies the invariant |
| `PollSet.Poll.Create` | src/poll_poll.c:113-130 | a new entry has no slot, no interest, and is not on the ring |
| `PollSet.Poll.Updated` | src/poll_poll.c:132-155 | an entry is put on the ring once, and a sleeping thread is woken |
| `PollSet.Poll.SetInterest` | src/poll_poll.c:190-200 | interest only grows, and the entry is on the ring |
| `PollSet.Poll.Destroy` | src/poll_poll.c:157-188 | an entry without a slot leaves the ring and is freed at once; one with a slot waits on the ring for its slot to go |
| `PollSet.Poll.AddPollfd` | src/poll_poll.c:211-230 | the entry gets the next slot, array and back-pointers stay inverse, through reallocation |
| `PollSet.Poll.RemovePollfd` | src/poll_poll.c:232-246 | the last entry moves into the slot with its pollfd; array and back-pointers stay inverse, also when it is the same entry |
| `PollSet.Poll.Sync` | src/poll_poll.c:265-278 | one entry's change reaches the array; a destroyed entry is freed |
| `PollSet.Poll.SyncAll` | src/poll_poll.c:263-281 | the walk over the ring visits every entry once, although it frees some as it goes |
| `PollSet.Poll.Prepare` | src/poll_poll.c:253-284 | afterwards the ring is empty, and the entries left are exactly those not destroyed |
| `PollSet.Poll.Synchronised` | src/poll_poll.c:253-284 | with nothing left to synchronise an entry has a slot exactly when it has an interest, covered by the events polled for, which are just the interest if and only if no handler call has taken anything from it since it was last synchronised; so it is for a sleeping thread that has not been woken |
| `PollSet.Poll.StillExact` | src/poll_poll.c:323-328 | a dispatch leaves an entry polled for just its interest if and only if its handler was not called, or with nothing of its interest |
| `PollSet.Poll.Unwanted` | src/poll_poll.c:318-324 | poll() may report IN or OUT of an entry that has no interest in it if and only if the interest was lost to a handler call since the entry was last synchronised |
| `PollSet.Poll.Report` | src/poll_poll.c:286-292 | a poll() that fails leaves the last report standing |
| `PollSet.Poll.CallHandler` | src/poll_poll.c:322-324 | the handler is called with what was reported, which leaves the interest and is counted as lost; the events polled for stay |
| `PollSet.Poll.Dismiss` | src/poll_poll.c:325-326 | removing the visited entry brings an unvisited one into its slot |
| `PollSet.Poll.VisitAll` | src/poll_poll.c:311-329 | the scan ends although removals swap entries under it |
| `PollSet.Poll.Dispatch` | src/poll_poll.c:294-330 | each live entry with something to report has its handler called exactly once, no other has, exactly those left without interest lose their slot, and the array entries of the others stay as they are |
| `PollThread.MakeDestroy` | src/poll_poll.c:157-188 | an entry destroyed while the thread sleeps leaves both halves of the poll state valid, and touches no other entry |
| `PollThread.Make` | src/poll_common.c:44-50 | each call that may be made while the thread sleeps (entries and timers created, changed, waited for and destroyed) keeps both halves of the poll state valid, and wakes the thread if it has to know |
| `PollThread.Meanwhile` | src/poll_common.c:237-240 | any number of such calls, on what there is by then, keep the state valid, and leave a byte in the pipe if one of them has to be noticed |
| `PollThread.GoToSleep` | src/poll_common.c:228-235 | the thread goes to sleep with nothing left to synchronise and its deadline worked out |
| `PollThread.Accounted` | src/poll_poll.c:286-330 | what poll_dispatch takes an entry to have to report is what this poll() said of its slot, or what stood there if it failed |
| `PollThread.DispatchFds` | src/poll_poll.c:294-330 | the handlers called are those of the live entries with something to report, each once and in the order of the account |
| `PollThread.DoEvents` | src/poll_poll.c:286-330 | polling (or not) and dispatching calls handlers by what was polled, slot by slot |
| `PollThread.DispatchTimers` | src/poll_common.c:157-193 | exactly the timers of the ring that are due have gone and fired, in both directions, and nobody is asleep on a timer that has fired |
| `PollThread.DoDue` | src/poll_common.c:240-247 | with the mutex regained, events are dispatched with their account, then the timers of the ring that is met: those with `earliest <= now` go and fire, the others stay, in order; a byte is read from the pipe exactly if poll() reported input on it |
| `PollThread.Turn` | src/poll_common.c:227-250 | one turn of the loop, with any calls meanwhile, keeps the whole poll state valid, takes off and fires exactly the timers due among those met, which are as before the turn but for those that somebody holds, and calls exactly the handlers of live entries for which this poll() has something to report, each once with just that (what stood from before, if the poll() failed), as `order` and `acc` say |
| `PollThread.QuietTurn` | src/poll_common.c:227-250 | a turn without calls meanwhile dispatches by the interests and, with nothing to synchronise, by the slots that there were before it, and takes off and fires exactly the timers of the ring before it that are due |
| `PollThread.CalledAgain` | src/poll_poll.c:294-330 | a run of two turns: a handler that was called with IN, and has no interest in it any more, is called with IN again, after a poll() that failed as after one that reports input; POLLIN is still polled for |
| `PollThread.StaleCalls` | src/poll_poll.c:286-330 | a handler is called for events that this poll() has not reported if and only if the poll() failed and a live entry with a slot has events standing |
| `StatusHash.Hash` | src/http_status_gen.c:97 | the hash is the product taken modulo 2^32, shifted by ten bits, modulo the size of the table |
| `StatusHash.Search` | src/http_status_gen.c:82-118 | search returns the least odd multiplier in range without a collision, or -1 if there is none, although stale marks are never cleared |
| `StatusHash.Attempt` | src/http_status_gen.c:92-104 | one attempt succeeds if and only if the multiplier has no collision |
| `StatusHash.Dump` | src/http_status_gen.c:120-129 | each slot holds the index of the last code that hashes to it, as an unsigned char |
| `StatusHash.LookupAgrees` | src/http_status_gen.c:145-152 | the generated lookup agrees with linear search for every int if and only if no two codes collide and there are at most 255 of them |
| `StatusHash.Missed` | src/http_status_gen.c:145-152 | a code that collides with a later one, or whose index is the mark for an empty slot, is not found |
| `StatusHash.LowestBitCleared` | src/http_status_gen.c:162 | n & (n - 1) is zero exactly for powers of two, and otherwise keeps the highest bit |
| `StatusHash.PowerAtLeast` | src/http_status_gen.c:156-168 | the least power of two that is at least n, for 2 <= n <= 2^31 |
| `StatusHash.Generate` | src/http_status_gen.c:170-191 | the table generated answers every lookup rightly if and only if it has at most 255 codes, and none is generated only if no table size has a multiplier |
| `Growbuf.Growbuf.Shift` | src/buffer.c:49-59 | the first pos bytes go, and the others keep their order through the overlapping move |
| `Growbuf.Growbuf.Grow` | src/buffer.c:61-74 | growing terminates, keeps the contents, makes room, and stays below twice what is needed unless one doubling was enough |
| `Growbuf.Growbuf.Reserve` | include/molerat/buffer.h:97-105 | room for `need` bytes, with a capacity below 2*(used+need) whenever it grows |
| `Growbuf.Growbuf.Append` | src/buffer.c:76-80 | the data is appended |
| `Growbuf.Growbuf.Printf` | src/buffer.c:96-122 | the loop terminates and appends the text, or the text with its last byte lost |
| `Growbuf.PrintedFaithfully` | src/buffer.c:115 | printed text arrives unchanged if and only if it does not exactly fill the room after doubling (or is empty, or ends in NUL anyway) |
| `Growbuf.PrintedTruncated` | src/buffer.c:115 | three bytes printed into room for three lose the last |
| `Growbuf.Growbuf.Vsnprintf` | src/buffer.c:106 | what vsnprintf leaves in the buffer, by section 7.19.6.12 of ISO C99 |
| `Growbuf.Growbuf.ToBytes` | include/molerat/buffer.h:55-64 | the slice is the whole contents, and the buffer is frozen |
| `HttpWriter.WriteBytes` | src/stream.c:59-73 | the slice advances by what was written, and STREAM_END means that it was empty |
| `HttpWriter.HttpWriter.Request` | src/http_writer.c:19-25 | the start line is what was printed, truncated when it exactly fills the buffer |
| `HttpWriter.HttpWriter.Response` | src/http_writer.c:27-38 | the start line is the status message |
| `HttpWriter.HttpWriter.Header` | src/http_writer.c:40-48 | a header line is appended |
| `HttpWriter.HttpWriter.Headerf` | src/http_writer.c:50-63 | a header line with a formatted value is appended, subject to the truncation of the value |
| `HttpWriter.HttpWriter.FinishPrebody` | src/http_writer.c:65-97 | start line, headers and blank line go out once and in order, resuming where an earlier call stopped |
| `HttpWriter.HttpWriter.Beginning` | src/http_writer.c:19-127 | at every moment the stream has had a beginning of the message, and nothing else |
| `HttpWriter.HttpWriter.Write` | src/http_writer.c:99-107 | the result counts the body bytes written after all of the head |
| `HttpWriter.HttpWriter.End` | src/http_writer.c:109-127 | done exactly when the whole message is on the stream |
| `HttpWriter.RenderedReadsBack` | src/http_writer.c:19-127 | a reader after sections 3 and 3.2 of RFC 7230 gets back start line, fields and body from a rendered message, if no part contains what ends it |
| `HttpWriter.Respond` | src/http_writer.c:19-127 | for every schedule of short, idle and waiting writes the stream gets start line, headers in call order, blank line and body, each once (section 3 of RFC 7230), has had a beginning of them at every moment, and a steady stream gets them all |
| `HttpPieces.BeginRegion` | src/http_reader.c:205-216 | a piece that begins a group is where the parser found it |
| `HttpPieces.ExtendRegion` | src/http_reader.c:218-229 | a piece that continues a group is moved up to it without touching earlier groups or bytes not yet parsed |
| `HttpPieces.GroupedWhole` | src/http_reader.c:205-296 | putting pieces together loses and reorders nothing, and joins whatever can be joined |
| `HttpPieces.LaidOutLater` | src/http_reader.c:205-296 | groups put together stay put while the buffer grows behind them |
| `HttpReader.ReadsBack` | src/http_reader.c:447-472 | the offsets kept for URL, names and values delimit exactly the text that the parser handed out for them |
| `HttpReader.Reader.constructor` | src/http_reader.c:27-48 | a new reader satisfies the byte accounting |
| `HttpReader.Reader.OnUrl` | src/http_reader.c:205-216 | the URL begins; unparsed bytes are untouched |
| `HttpReader.Reader.OnUrlCont` | src/http_reader.c:218-229 | the URL goes on, contiguously; unparsed bytes are untouched |
| `HttpReader.Reader.OnHeaderField` | src/http_reader.c:231-251 | a new header's name begins; unparsed bytes are untouched |
| `HttpReader.Reader.OnHeaderFieldCont` | src/http_reader.c:253-266 | the name goes on, contiguously; unparsed bytes are untouched |
| `HttpReader.Reader.OnHeaderValue` | src/http_reader.c:268-281 | the value begins; unparsed bytes are untouched |
| `HttpReader.Reader.OnHeaderValueCont` | src/http_reader.c:283-296 | the value goes on, contiguously; unparsed bytes are untouched |
| `HttpReader.Reader.OnPiece` | src/http_reader.c:205-296 | the callbacks in force group the pieces as their order demands |
| `HttpReader.Reader.Execute` | src/http_reader.c:166-169 | whatever the parser hands out, it reads what the stream delivered, although its callbacks compact the same buffer |
| `HttpReader.Reader.CleanUp` | src/http_reader.c:113-119 | what follows the message before becomes the start of the buffer |
| `HttpReader.Reader.Refill` | src/http_reader.c:136-159 | the bytes read from the stream go behind those unparsed |
| `HttpReader.Reader.Parse` | src/http_reader.c:166-172 | bytes move from unparsed to fed, none lost and none twice |
| `HttpReader.Reader.ParseAll` | src/http_reader.c:165-201 | the inner loop terminates with the buffer parsed or with a result |
| `HttpReader.Reader.Prebody` | src/http_reader.c:103-203 | byte accounting is kept in every outcome; data left over from the message before is looked at if and only if the stream's first answer but 0 is neither to wait nor an error, and otherwise stays as it is; a willing stream never makes the call wait, a silent one does once its data is gone |
| `HttpReader.MessageUnnoticed` | src/http_reader.c:126-142 | a run: of two messages without bodies that came together the second lies complete in the buffer, and the reader is told to wait however often it asks |
| `HttpReader.Reader.OnBody` | src/http_reader.c:435-445 | body data joins what the caller's buffer holds, in place or copied |
| `HttpReader.Reader.ExecuteBody` | src/http_reader.c:395-403 | body data never runs over unparsed bytes nor past the caller's buffer, and is handed on in order |
| `HttpReader.Reader.DrainPrebody` | src/http_reader.c:334-374 | body data left in the prebody buffer is copied as far as there is room |
| `HttpReader.Reader.BodyFromStream` | src/http_reader.c:395-417 | what follows the message in the caller's buffer goes to the prebody buffer, none lost |
| `HttpReader.Reader.Body` | src/http_reader.c:311-422 | byte accounting is kept in every outcome, a late parser error included; how the call ends is settled by what the parser said of the prebody buffer, how much came from there, the stream's answer, and what the parser said of that: body data is lost, without a late error, if and only if some was copied and the parser failed on the rest, or the stream was asked and said to wait, an error or 0; -1 for a parser error comes of the first of these and nothing else; a call that goes well returns the number of bytes handed out, which are then the first of the caller's buffer, a late parser error returns STREAM_ERROR |
| `HttpReader.AskInVain` | src/http_reader.c:376-381 | whenever the stream makes its caller wait, body data left in the prebody buffer goes to the caller's buffer and the call says STREAM_WAITING |
| `HttpReader.BodyLost` | src/http_reader.c:376-381 | a run of a new reader, through http_reader_prebody, in which the part of the body that came with the head is lost: two calls in a row say STREAM_WAITING, and the second has nothing left |

## Left out

- Sockets, the socket transport, the echo server, HTTP client and server mains, `application.c`, `base.c`: system-call plumbing around the core.
- `src/poll_epoll.c`: its state lives in the kernel; the `poll` variant is modelled.
- `src/thread.c` and the internals of skinny mutexes: assumed as primitives; spurious wakeups of condition variables are not modelled (every wait loop rechecks its condition).
- In the scheduler, wait-list rings are sequences, not linked cells (run-queue rings are both, see `RunRings`); what a worker does on a damaged ring is not modelled. The heap form of such rings is in `Timers` and `PollSet`.
- `t->waited` is modelled as a mark that is also cleared when t's own call takes t off a list (`parked`).
- Which queue a thread's `tasklet_run` targets (worker threads, thread-local storage) is arbitrary.
- User code that transfers or vetoes mutexes in ways of its own, other than by a veto of a mutex it owns.
- Streams.Sink.Write: does not say that a stream eventually takes anything unless it is steady, because it may wait or fail for ever; callers then give up after a number of calls, and the results say what holds if they get done.
- RunQueueInvariant.StepKeeps: ends at the first unlinking of a stray, because the source then follows dangling links.
- TaskletTheorems.NoLockCycle: asks user code to lock tasklet mutexes of its own in a fixed order, because the source leaves that order to user code.
- SemaphoreProgress.UnitsReachTheHead: asks that a list be used with downs of one unit, and that handlers return after a refused down or off that list, because other uses do leave units unused.
- BoundedQueue.Run: runs of calls under the lock that the users of a queue share; the wait list of a queue is modelled under that lock, its concurrent form is in `WaitLists`.
- QueueWaiters.WaitList.Down: takes one unit, for a tasklet that is on no other wait list, which is how a queue uses it; any number of units, and the retry off another list, are in `WaitLists`.
- BoundedQueue.Queue.Push: not for a queue that holds 2^31 - 1 items already and may hold more, because `up_count` is an int.
- HttpReader.Reader.Body: after a parser error in data from the stream the reader is not used again; what was left unfed is accounted for (`dropped`).
- HttpReader: the sorting of the headers and `compare_headers`, the growth of the header array, and offsets beyond INT_MAX (which the source marks as not handled).
- StatusHash.Generate: for 2 codes and more (the source has a fixed table of many), because `power_of_2` of 0 or 1 is 0 and the loop of `main` then does not end; and for at most 2^31.
- Growbuf: `bytes_compare`, `c_string_bytes` and the accessors, which would add easy members only; formatting itself, which is an arbitrary byte string here.
- PollThread.Turn: calls are made of entries and timers that somebody holds (`Held`); nothing is said of the calls that handlers make, nor of the stopping of the thread.
- PollSet: `watched_fd_set_handler`, and `poll_thread_init`, which does nothing; real time and the waiting in poll() itself.
- `http_server.c`: its connection array removes by swapping as the poll set does.
