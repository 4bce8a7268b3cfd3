# Event loop, blocking queue, deferred actions and replace loops

A Dafny model of four pieces of the repository, with proofs of what they guarantee and, where they
do not guarantee what a reader would expect, proofs of exactly where that stops.

* **The event loop** (`sys/libevent/event.c`). A single-threaded reactor with four intrusive queues
  over shared event records, whose callbacks may re-enter the library in the middle of a traversal.
  * `Tailq` is the queue macros over link memory: a removed element keeps its own links.
  * `Timeval` is the timer arithmetic.
  * `EventState` is the specification of every operation on queue contents. The `ev_read_next`
    links of all events, live or stale, are kept beside the contents, because both passes follow them.
  * `EventInvariant` has what every operation keeps, `EventPass` and `EventWalk` the two dispatch
    passes, `EventLoop` a whole iteration and whole runs, `EventStable` the induction over runs.
  * `EventEffects` says of every operation what it changes and what it leaves alone, by queue contents,
    records and globals, and `EventTurns` says of the passes whom they call, with what, and what
    the calls of the callbacks add up to; neither leans on the functions that they describe.
  * `EventOnce`, `EventReplay`, `EventTimeout`, `EventFds`, `EventRoom` and `EventStale` hold the
    main theorems, `EventWitness` runs from the start in which a stronger statement fails.
  * `Reactor` is the library as an object with explicit links, flag words and pointer-chasing
    loops; each method is proved to refine the specification.
* **The blocking queue** (`data_structure-algorithm/block_queue`). `Monitor` interleaves any number
  of threads at every observable step, with spurious wake-ups and with signals that wake more than
  one thread; `MonitorClient` adds the producer and consumer loops of the test program and
  `MonitorHang` says which programs of this kind can hang; `BlockingQueue` is the object, one method
  per step and one per uninterrupted call.
* **Deferred actions** (`c++11/defer`). `Defer` gives programs with nested scopes a recursive
  meaning, runs them on a machine of moved-from and destroyed objects, and proves the two equal.
* **The replace loops** (`cstl_algo.h`). `Replace` runs them in place on one memory in which source
  and destination may overlap.

## What the model assumes

* `TAILQ_REMOVE` leaves the removed element's own links as they are, and event memory starts zeroed.
* `event_set` is not called on a queued event: `Exec` drops such a call, so that every list of calls
  is the behaviour of some client that keeps to this (`EventInvariant.EventSetExactly` says that such
  a call breaks the flags). `event_dispatch` is not re-entered.
* A callback is any finite list of `event_add`, `event_del` and `event_set` calls. `Script` gives
  the list for the k-th callback of a run, so a statement for all scripts is a statement for all
  clients, however their callbacks depend on the past.
* `select` answers with any part of the sets it was given; the clock is an input at each reading.
* Flag words are sets of named bits. Integers are unbounded. `fd_mask` has 8 bytes and `NFDBITS` is 64.
* A condition signal wakes at least one waiter if there is one, and possibly more; a waiter may wake
  on its own (IEEE Std 1003.1-2017, System Interfaces, `pthread_cond_signal` and `pthread_cond_wait`).
* Objects of one scope are destroyed in reverse (ISO/IEC 14882:2011, section 6.6 paragraph 2), and a
  compiler makes any number of moves from temporary to variable (section 12.8 paragraph 31).

## What turned out not to hold

* The write pass steps along the read links (`event.c:173`). It terminates and visits nobody twice
  all the same, but it misses writers: any write-only event behind another writer with a smaller
  descriptor is lost to `select` after one idle iteration (`EventWitness.LargerWriterMissed`). That
  pair is all it takes and nothing less will do: a client with fixed interests and no write-only event
  beside another writer gets a sound bound at every select, as long as its timeout callbacks add no
  larger descriptor (`EventFds.ClashFreeSound`).
  `EventFds.RecalculatedBoundsExactly` and `EventFds.IdleBoundsExactly` say it iteration by iteration.
* `event_del` does not stop a callback for an event that a pass has saved as next, in any client with
  two readers (`EventWitness.DeletedCalledReached`). A pass visits queued events only, exactly if none
  of its callbacks deletes the event saved as next (`EventStale.ReadPassLiveExactly` and
  `EventStale.WritePassLiveExactly`).
* The write pass reports `EV_WRITE` to an event that only reads, as soon as the client has a reader on
  the descriptor of a writer and an event that does both (`EventWitness.ImpostorCalled`), and in no
  other client with fixed interests and descriptors (`EventStale.RunCallsWriters`).
* `timeout_process` runs after the sets are sized. A callback there can queue a descriptor that they
  do not hold (`EventWitness.TimeoutCallbackOverflows`; `EventFds.CallStaysInsideExactly` says which
  calls do). One that arms a deadline already past can keep the loop going for ever
  (`EventWitness.TimeoutsNeverEnd`): the loop ends exactly if only finitely many of the callbacks that
  it makes do that (`EventTimeout.TimeoutsEndExactly`).
* The test program need not end: its consumers test `size` and then call `take`, so one can stay
  parked, and with it the `pthread_join` in `main`. It can hang exactly if there are two consumers and
  a value to put (`MonitorHang.HangsExactly`); the program as written has three consumers.
* `algo_replace_copy` is not the pointwise replacement when the destination starts inside the source;
  `Replace.CopyExactly` says when it is.
* The comment that lists the output of `c++11/defer/hello.cc` prints `fclose("defer.h")` where the
  code prints another file name. The model follows the code; that line is not part of it.

## Model

| member | source | states |
|---|---|---|
| `Tailq.InsertTailRefines` | sys/libevent/missing/sys/queue.h:334-339 | inserting at the tail threads the contents with the element appended, and only the element's and the last element's links move |
| `Tailq.RemoveRefines` | sys/libevent/missing/sys/queue.h:358-365 | removal threads the contents without the element, only the predecessor's link moves, and the removed element keeps its own |
| `Tailq.InsertBeforeRefines` | sys/libevent/missing/sys/queue.h:351-356 | inserting before position k threads the contents with the element at k |
| `EventState.Place` | sys/libevent/event.c:264-269 | the insertion point: everything ahead of it is strictly earlier, and what stands there is not |
| `EventInvariant.PlaceSorts` | sys/libevent/event.c:264-276 | inserting there keeps the deadline queue sorted, with the latest armed first among equal deadlines |
| `EventInvariant.UnlinkAscends` | sys/libevent/event.c:326-330 | after any removal, every read link, live or stale, still leads to an event inserted strictly later |
| `EventInvariant.TailThreads` | sys/libevent/event.c:295-299 | the same after any insertion |
| `EventInvariant.EventDelInv` | sys/libevent/event.c:308-337 | deleting keeps all invariants: each flag bit set exactly for the members of its queue, once each; links; deadline order |
| `EventInvariant.EventAddInv` | sys/libevent/event.c:241-290 | so does adding, in or out of the loop, including a re-arming that overwrites the deadline of a linked event |
| `EventInvariant.EventSetExactly` | sys/libevent/event.c:205-214 | setting an event keeps them exactly if the event is on no queue |
| `EventInvariant.FireInv` | sys/libevent/event.c:164-165 | so does any callback, whatever finite list of calls it makes |
| `EventEffects.DeletionEffect` | sys/libevent/event.c:308-337 | deleting takes the event out of all four queues, leaves everybody else in place, clears exactly the queue bits and moves only its predecessor's read link |
| `EventEffects.SetEffect` | sys/libevent/event.c:205-214 | setting writes descriptor and interest, keeps the deadline and touches nothing else |
| `EventEffects.AddDeadline` | sys/libevent/event.c:251-277 | adding with a deadline moves the event, with clock plus interval, behind exactly the strictly earlier deadlines; without one it leaves deadlines alone |
| `EventEffects.AddQueues` | sys/libevent/event.c:279-306 | in the passes an added event is postponed, once, and queued nowhere; outside them it joins the end of each queue that it wants and is not on |
| `EventEffects.AddRecord` | sys/libevent/event.c:241-306 | of the record only the deadline and the bits of the queues joined change, and of other records and the globals nothing |
| `EventEffects.CallsInOrder` | sys/libevent/event.c:164-165 | a callback's calls take effect one after the other |
| `EventEffects.RecalcEffect` | sys/libevent/event.c:80-121 | a known maximum is taken as it is, otherwise the largest queued descriptor, at least 0; the sets grow to the least number of masks that holds it; nothing else changes |
| `EventEffects.ExpireEffect` | sys/libevent/event.c:377-378 | a timeout takes the first event off the deadline queue, clears its TIMEOUT bit and changes nothing else |
| `EventEffects.SilentRound` | sys/libevent/event.c:373-383 | a timeout whose callback makes no calls changes that and the log only |
| `EventEffects.TimeoutsStay` | sys/libevent/event.c:373-383 | through the timeout loop an event stays on its read and write queue unless a callback of the loop deletes it, and exactly then if none adds it |
| `EventTurns.ReadPassTurns` | sys/libevent/event.c:159-170 | turn by turn from the head of the read queue: whom the pass looks at, whether it is called, and the state after its deletion, EV_READ callback and calls |
| `EventTurns.WritePassTurns` | sys/libevent/event.c:172-182 | the same from the head of the write queue, along read links, with EV_WRITE |
| `EventTurns.CalledExactly` | sys/libevent/event.c:138-182 | a visited event is called exactly if select left its descriptor set for that pass and an event of that pass's queue had put it there |
| `EventTurns.IterateTells` | sys/libevent/event.c:158-199 | the callbacks of an iteration are EV_READ for the called visits of the read pass, EV_WRITE for those of the write pass, then EV_TIMEOUT only |
| `EventTurns.PassesAdd` | sys/libevent/event.c:158-182 | the deletions and requests of the passes are those that the turns and the calls of their callbacks make, in order |
| `EventTurns.MaxFdExactly` | sys/libevent/event.c:158-194 | events_recalc is handed the largest descriptor looked at and not called, or postponed, and 0 if there is none |
| `EventPass.RankDrops` | sys/libevent/event.c:160-182 | each turn of either pass moves to an event inserted strictly later, or ends, whatever the callback did |
| `EventPass.UnlinkClosed` | sys/libevent/event.c:158-170 | a removal during a pass leaves links that skip only events removed in that pass |
| `EventPass.PassWalks` | sys/libevent/event.c:158-182 | a pass is a walk along links as they are at each turn; whoever it calls leaves both queues; nothing enters either queue |
| `EventLoop.DrainInv` | sys/libevent/event.c:185-194 | the drain keeps all invariants and leaves nothing postponed |
| `EventLoop.Top` | sys/libevent/event.c:89-97 | the scan of a queue finds an upper bound of its descriptors that is attained |
| `EventLoop.TopVisited` | sys/libevent/event.c:166-167 | the bound that a pass computes covers exactly the descriptors it looked at and did not call |
| `EventLoop.TimeoutsSettled` | sys/libevent/event.c:365-384 | after any number of rounds of the timeout loop, so whenever a timeout callback runs, all invariants hold and nothing is postponed |
| `EventLoop.IterateSettled` | sys/libevent/event.c:134-200 | a whole iteration keeps all invariants and leaves nothing postponed |
| `EventLoop.RunSettled` | sys/libevent/event.c:66-203 | so does every run from event_init, of calls from outside and iterations in any order |
| `EventOnce.PassesVisitOnce` | sys/libevent/event.c:158-182 | both passes end and neither visits an event twice, for every script of callbacks |
| `EventOnce.ReadPassOrder` | sys/libevent/event.c:160-170 | the read pass visits only events of the queue it started with, in queue order |
| `EventOnce.ReadPassComplete` | sys/libevent/event.c:158-170 | an event still queued when the pass comes to a later one, or to the end, has been visited before |
| `EventOnce.RunCoupled` | sys/libevent/event.c:292-337 | with fixed interests, in every run, an event that wants both is never on the write queue alone and an event that does not read has no read link |
| `EventOnce.CalledNotRevisited` | sys/libevent/event.c:172-182 | with fixed interests, the write pass does not visit an event that the read pass called |
| `EventOnce.AtMostOneCallback` | sys/libevent/event.c:158-182 | with fixed interests, no event gets two descriptor callbacks in one iteration |
| `EventOnce.OldDeadlineSilent` | sys/libevent/event.c:160-199 | an event called in the read pass and not armed again in that iteration is not called for its old deadline in it |
| `EventReplay.FirstRequest` | sys/libevent/event.c:279-289 | the first request for an event that no later deletion cancels |
| `EventReplay.ReplaysUnique` | sys/libevent/event.c:279-318 | the calls made in the passes determine the postponed queue |
| `EventReplay.DrainQueues` | sys/libevent/event.c:185-194 | the drain appends to each queue the postponed events that want it and are not on it, in order |
| `EventReplay.PostponedRefineReplay` | sys/libevent/event.c:158-194 | after the drain each queue is what the deletions that the turns and callbacks make left of it, in its order, then the events requested and not deleted since that want it, by first request since last deletion, without duplicates |
| `EventReplay.DrainEffect` | sys/libevent/event.c:185-194 | besides the two queues the drain changes only the bits of the queues joined and left |
| `EventReplay.PendingExactly` | sys/libevent/event.c:220-239 | a bit is answered exactly if it is asked for and the event is on that queue or postponed and wanting it; the time is the deadline, given exactly if asked for and EV_TIMEOUT is answered |
| `EventReplay.PendingAcrossDrain` | sys/libevent/event.c:220-239 | event_pending answers the same before and after the drain, for every event, mask and state |
| `EventTimeout.WaitIsLeastRemaining` | sys/libevent/event.c:339-363 | the wait is normalised, and is the least remaining time of any queued deadline, never negative, or five seconds when there is none |
| `EventTimeout.WaitCases` | sys/libevent/event.c:345-352 | -1 exactly for a queued deadline and a failed clock, with the buffer as it was; five seconds without a deadline, whatever the clock |
| `EventTimeout.RunNormal` | sys/libevent/event.c:255-256 | with normalised arguments and clock every queued deadline is normalised, in every run |
| `EventTimeout.TimeoutsEnd` | sys/libevent/event.c:365-384 | if the callbacks that it makes arm only later deadlines, the timeout loop ends within as many rounds as events are due and leaves only deadlines after now |
| `EventTimeout.TimeoutsEndExactly` | sys/libevent/event.c:373-383 | the timeout loop ends exactly if only finitely many of the callbacks that it makes arm a deadline already past |
| `EventTimeout.TimeoutsFire` | sys/libevent/event.c:373-383 | it calls due events only, by deadline and latest arming, none twice and none that an earlier callback deleted or armed again |
| `EventTimeout.TimeoutsFireExactly` | sys/libevent/event.c:373-383 | once the loop has ended, an event due at its start has been called exactly if no callback of an event before it deleted it or armed it again |
| `EventFds.RecalcHolds` | sys/libevent/event.c:80-121 | the sets never shrink and hold more bits than event_fds; a full scan bounds every queued descriptor |
| `EventFds.OnlyUnreachedAbove` | sys/libevent/event.c:158-196 | the only queued events above event_fds are writers that neither pass reached |
| `EventFds.RecalculatedBounds` | sys/libevent/event.c:158-196 | if the passes reach every writer they leave queued, event_fds bounds every queued descriptor |
| `EventFds.RecalculatedBoundsExactly` | sys/libevent/event.c:172-196 | for every iteration, exactly when event_fds bounds every queued descriptor: when no writer that the passes missed is above what they computed |
| `EventFds.IterateBounds` | sys/libevent/event.c:158-199 | the next select is told of every queued descriptor, if moreover no callback of this timeout_process adds a larger one |
| `EventFds.EverySelectSound` | sys/libevent/event.c:123-200 | at every select of a run under these two provisos, each asked of its own iteration, event_fds bounds every queued descriptor and the sets, which never shrank, hold more bits |
| `EventFds.ClashFreeSound` | sys/libevent/event.c:123-200 | over every run of a client with fixed interests and no write-only event beside another writer, the first proviso holds, so the second alone makes every select sound |
| `EventFds.RecalculatedFitsExactly` | sys/libevent/event.c:158-196 | the sets keep room for every queued descriptor through the passes, reached or not, exactly if nobody is left postponed with an interest in a negative descriptor |
| `EventRoom.IterateFits` | sys/libevent/event.c:135-199 | every FD_SET of the next iteration stays inside the sets, on both sides, if moreover no callback of this timeout_process adds a descriptor that they do not hold |
| `EventRoom.EverySelectFits` | sys/libevent/event.c:123-200 | so at every select of a run, for a client that never asks for a negative descriptor |
| `EventRoom.RunMarked` | sys/libevent/event.c:205-214 | whatever holds of the descriptors that a client gives holds of every queued descriptor, over every run |
| `EventFds.CallStaysInsideExactly` | sys/libevent/event.c:288-289 | exactly which calls outside the passes keep every queued descriptor good, for any notion of good |
| `EventFds.MissedWriters` | sys/libevent/event.c:172-182 | with fixed interests, a missed writer is write-only and not the first writer |
| `EventFds.IdleBoundsExactly` | sys/libevent/event.c:172-196 | exactly when an iteration with nothing ready leaves event_fds bounding every queued descriptor |
| `EventFds.LargerWriterDropped` | sys/libevent/event.c:173 | a writer above all readers and the first writer drops out of the bound in an idle iteration |
| `EventWitness.LargerWriterMissed` | sys/libevent/event.c:172-173 | any write-only event and any other writer with a smaller descriptor: four calls and one idle iteration after which event_fds is the smaller one with the larger queued |
| `EventStale.ReadPassLiveExactly` | sys/libevent/event.c:160-170 | the read pass visits no event that is off the queue exactly if no callback that it makes deletes the event saved as next |
| `EventStale.WritePassLiveExactly` | sys/libevent/event.c:172-182 | the same for the write pass of a client with fixed interests, for events off both queues |
| `EventStale.WritePassCallsWriters` | sys/libevent/event.c:172-177 | whoever the write pass calls has asked to write, or reads on the descriptor of a writer while some event does both |
| `EventStale.RunCallsWriters` | sys/libevent/event.c:172-177 | over every run of a client with fixed interests and descriptors without such a reader, the write pass calls only who asked to write |
| `EventWitness.StaleVisitExactly` | sys/libevent/event.c:161-165 | a visited event is off the read queue exactly when it was deleted in the passes |
| `EventWitness.DeletedStillCalled` | sys/libevent/event.c:161-165 | an event that the first reader's callback deletes is called next all the same |
| `EventWitness.DeletedCalledReached` | sys/libevent/event.c:161-165 | a run of four calls from event_init that leads there, for any two readers |
| `EventWitness.ImpostorCalled` | sys/libevent/event.c:172-177 | for any such reader, a run from event_init after which the write pass calls it, though it never asked to write |
| `EventWitness.TimeoutsNeverEnd` | sys/libevent/event.c:373-383 | a callback that arms a deadline already past keeps the timeout loop going for any number of rounds |
| `EventWitness.TimeoutCallbackOverflows` | sys/libevent/event.c:196-199 | a timeout callback that adds a descriptor beyond the sets leaves it queued there |
| `Reactor.EventBase.constructor` | sys/libevent/event.c:66-73 | the initial object represents the initial state |
| `Reactor.EventBase.EventSet` | sys/libevent/event.c:205-214 | refines the specification, and leaves a consistent library exactly if the event was on no queue |
| `Reactor.EventBase.EventPending` | sys/libevent/event.c:220-239 | answers what the specification answers |
| `Reactor.EventBase.EventAdd` | sys/libevent/event.c:241-290 | refines the specification: flag tests and link updates do to the contents what an addition should |
| `Reactor.EventBase.EventAddPost` | sys/libevent/event.c:292-306 | the same for joining the read and write queues |
| `Reactor.EventBase.EventDel` | sys/libevent/event.c:308-337 | the same for deletion |
| `Reactor.EventBase.EventsRecalc` | sys/libevent/event.c:80-121 | event_fds and event_fdsz become what the specification says, by walking the links when the argument is 0 |
| `Reactor.EventBase.DispatchPass` | sys/libevent/event.c:160-182 | the pointer walk with callbacks ends, is the specified pass and computes the specified maximum |
| `Reactor.EventBase.DrainPostponed` | sys/libevent/event.c:185-194 | the loop is the specified drain and computes the specified maximum |
| `Reactor.EventBase.TimeoutNext` | sys/libevent/event.c:339-363 | return code and wait are the specified ones, also when the clock fails |
| `Reactor.EventBase.TimeoutProcess` | sys/libevent/event.c:365-384 | the loop ends with nothing due, after the specified rounds, whenever it ends at all |
| `Reactor.EventBase.Iteration` | sys/libevent/event.c:134-199 | one round of the dispatch loop is the specified iteration for what select answered readable and writable, its timeout loop ends, and select gets the wait that timeout_next specifies |
| `Reactor.EventBase.EventDispatch` | sys/libevent/event.c:123-203 | a whole dispatch does what its iterations specify, skips interrupted selects and returns -1 exactly at a failure |
| `Reactor.DispatchedRuns` | sys/libevent/event.c:134-200 | what a dispatch does is a run of the specification: one iteration for each ready answer in order, with that answer's readable and writable descriptors and time, each timeout loop run to its end; so every theorem about runs applies to it |
| `Monitor.NextInv` | data_structure-algorithm/block_queue/inc/BlockingQueue.h:24-44 | every step of every thread keeps exclusion, order, a value for whoever is past the wait loop, and the wake-up account |
| `Monitor.FirstInFirstOut` | data_structure-algorithm/block_queue/inc/BlockingQueue.h:24-44 | in every interleaving the values put are the values taken followed by the queue, in order, no pop meets an empty queue, take returns the value it popped and size the length it found |
| `Monitor.OwnerOnly` | data_structure-algorithm/block_queue/inc/Mutex.h:47-60 | two threads are never inside together, and only the owner changes the queue |
| `Monitor.NoLostWakeup` | data_structure-algorithm/block_queue/inc/BlockingQueue.h:24-39 | while a consumer is parked there are at most as many values as woken consumers still to act, plus one between a push and its signal |
| `Monitor.StuckMeansEmpty` | data_structure-algorithm/block_queue/inc/BlockingQueue.h:30-39 | when nobody can go on, everybody is outside or parked, and a parked consumer means an empty queue |
| `MonitorClient.StepClientInv` | data_structure-algorithm/block_queue/src/test.cc:67-96 | every step keeps: each producer has pushed its values in order so far, and somebody has left, is about to, or there is a value |
| `MonitorClient.HowItEnds` | data_structure-algorithm/block_queue/src/test.cc:67-96 | in every final state all producers are done, at least one consumer has exited, and a parked one means an empty queue and every value taken in order |
| `MonitorHang.OneConsumerExits` | data_structure-algorithm/block_queue/src/test.cc:85-96 | a single consumer always exits |
| `MonitorHang.TwoConsumersHang` | data_structure-algorithm/block_queue/src/test.cc:67-96 | two consumers and a value to put, with any number of other threads: a run that ends with one consumer parked for ever |
| `MonitorHang.HangsExactly` | data_structure-algorithm/block_queue/src/test.cc:22-96 | the program can hang exactly if there are two consumers, a producer and a value to put |
| `BlockingQueue.BlockingQueue.Acquire` | data_structure-algorithm/block_queue/inc/Mutex.h:31-33 | succeeds exactly when the mutex is free, and is the monitor's lock step |
| `BlockingQueue.BlockingQueue.Release` | data_structure-algorithm/block_queue/inc/Mutex.h:53-55 | is the monitor's unlock step |
| `BlockingQueue.BlockingQueue.Notify` | data_structure-algorithm/block_queue/inc/Condition.h:29-31 | is the monitor's signal step |
| `BlockingQueue.BlockingQueue.TestOrWait` | data_structure-algorithm/block_queue/inc/BlockingQueue.h:33-35 | waits exactly when the queue is empty, giving up the mutex |
| `BlockingQueue.BlockingQueue.PopFront` | data_structure-algorithm/block_queue/inc/BlockingQueue.h:36-38 | there is a front, it is returned and removed |
| `BlockingQueue.BlockingQueue.Put` | data_structure-algorithm/block_queue/inc/BlockingQueue.h:24-28 | an uninterrupted put appends the value, frees the mutex and wakes the chosen waiters, and nobody else moves; if the mutex is owned, the caller waits for it and nothing else happens |
| `BlockingQueue.BlockingQueue.Take` | data_structure-algorithm/block_queue/inc/BlockingQueue.h:30-39 | an uninterrupted take returns and removes the front, or parks the caller with the mutex free, or leaves it waiting for an owned mutex |
| `BlockingQueue.BlockingQueue.Size` | data_structure-algorithm/block_queue/inc/BlockingQueue.h:41-44 | returns the length and changes nothing, or leaves the caller waiting for an owned mutex |
| `Defer.ReturnCutsOff` | c++11/defer/defer.h:33-35 | after an early return only what was registered before it runs |
| `Defer.RunsInReverse` | c++11/defer/defer.h:18-36 | in every scope the registered actions run after the rest, from the last registered position to the first |
| `Defer.EachRunsOnce` | c++11/defer/defer.h:18-36 | the actions of a scope's trace are those of its reached statements and registered bodies, each exactly once |
| `Defer.DeferredAction.Move` | c++11/defer/defer.h:29-32 | the new object has the function and the old one none |
| `Defer.Destroy` | c++11/defer/defer.h:33-35 | the destructor's trace is the meaning of the held function, or nothing |
| `Defer.Register` | c++11/defer/defer.h:38-48 | through any number of moves exactly the last object holds the function, and no destroyed temporary runs it |
| `Defer.Execute` | c++11/defer/defer.h:13-36 | the object machine's trace and return flag are the recursive meaning, for every program |
| `Defer.ExampleListing` | c++11/defer/hello.cc:42-101 | the example program from its three `defer a` on, with any lines in any number: the listed order, line by line, inner loop included |
| `Replace.Find` | data_structure-algorithm/cstl-1.0.0/include/cstl_algo_private.h:70-87 | the first position of the value in the range, or its end |
| `Replace.AlgoReplace` | data_structure-algorithm/cstl-1.0.0/include/cstl_algo.h:44-57 | ends for all values, equal ones too; in the range exactly the positions that held the old value hold the new one, and all others are as they were |
| `Replace.AlgoReplaceCopy` | data_structure-algorithm/cstl-1.0.0/include/cstl_algo.h:58-82 | for any overlap, each destination position holds the replacement of the original element that the loop's own writes carried there, which is its own counterpart if the destination does not start strictly inside the source; nothing else changes |
| `Replace.CopyExactly` | data_structure-algorithm/cstl-1.0.0/include/cstl_algo.h:68-81 | the copy is pointwise exactly when the destination does not start strictly inside the source, or the replaced source repeats at that distance |
| `Replace.InPlaceSame` | data_structure-algorithm/cstl-1.0.0/include/cstl_algo.h:44-82 | run in place, the copy loop leaves what the replace loop leaves |

## Left out

- `Reactor.EventBase.TimeoutProcess`: as a method it must end, so it asks that the loop does; `EventTimeout.TimeoutsEndExactly` says when, and the specification `EventLoop.Timeouts` covers the other case round by round.
- `Reactor.EventBase.EventDispatch`: asks that each of its timeout loops ends; a finite list of select answers stands for a loop still running.
- `BlockingQueue.BlockingQueue.Take`: one uninterrupted call; a parked or waiting caller goes on by `Acquire`, `TestOrWait` and `PopFront`, and interleavings are in `Monitor`.
- `EventStale.WritePassLiveExactly`: for clients with fixed interests; an event that once read and was set again to write only may have a stale read link, which the pass would follow from off the queue.
- Failure of `realloc`, the zeroing of grown descriptor sets, logging, and what callbacks do outside the library.
- Overflow of `int` descriptors and of `time_t`.
- The callback pointer and argument of an event: what a callback does is given by the script.
- `Condition::waitForSeconds`, `notifyAll`, and errors of the pthread calls; fairness of the scheduler.
- Captured variables, C++ exceptions and threads in deferred functions: an action is the line it prints.
- The rest of the example program in `c++11/defer/hello.cc` (the same constructs again).
- All other cstl algorithms and containers, and the other directories of the repository.
