# zuvloop: verified models of its state machines

zuvloop is an asyncio event loop whose core is a set of small state machines that
arbitrary Python code may re-enter. This project models those machines in Dafny and
proves what they promise over every run:

- the **scheduler**: the ready ring (`ReadyRing`), the timer heap (`TimerOrder`,
  `HeapOrder`, `TimerHeap`), the abstract steps of the loop and their invariants
  (`SchedulerSteps`), the millisecond clock (`TimerArming`), each operation as a function from
  state to state when nothing re-enters it (`SchedulerAlone`), what the turns of a loop promise for
  good (`SchedulerTurns`), and the loop itself, a class over those structures whose every state is
  what its recorded steps lead to (`Scheduler`);
- **signal ownership**, which is process-global: closes and deferred cleanups of other loops
  (`SignalWorld`), the relation between a registration under way and the same run without it
  (`SignalShadow`), the phases of a registration (`SignalTransaction`), what one loop's close may
  touch and why interleaved closes and cleanups amount to a sequence of them (`SignalApart`,
  `SignalStripping`, `SignalInterleaving`), which handler a signal has once it has been reset
  (`SignalDefaults`), and the code itself (`SignalProcess`);
- the **hand-off of the native state** to the resolver's reaper thread, as a two-thread
  transition system (`Reaper`);
- the **intrusive lists**: transports to flush (`FlushList`) and resolver requests (`Resolver`);
- the **counted libuv handles** (`Handles`), **datagram** flow control and teardown
  (`Datagram`), **descriptor watchers** with their callback handles (`Pollers`), and the shutdown
  of a loop that has any number of them (`LoopShutdown`);
- **sendfile**, native and chunked (`Sendfile`).

Objects that the program updates in place are classes here, with the same fields, and ghost
fields for what cannot be read off them. Reentrancy is explicit: wherever Python code can
run in the middle of an operation (a callback, a protocol method, a finalizer at the release
of a reference), the operation takes a finite tree of calls, `Reaction`, and performs it there;
every contract holds for all such trees. Where nothing re-enters an operation, its contract says
what the whole new state is; where something does, it says what has been done for good: that every
call was made with its effect, that nothing done was undone, and in what order. System calls whose outcome the program cannot know
(transfers, failures, thread creation, the clock) are parameters.

Some promises turn out to be conditional, and are stated with their exact conditions:

- A timer is armed no earlier than its deadline if and only if the delay in milliseconds fits
  64 bits (`TimerArming.ExpiryBounds`, with `SaturatedExpiryIsEarly`).
- The chunked sendfile paths seek only to a non-zero offset, so with a zero offset they send
  from the file's current position (and then seek to the number of bytes sent). They agree with
  the native path if and only if the offset is not zero, or the file is at its start or empty
  (`Sendfile.PathsAgree`, with `FallbackIgnoresZeroOffset`).
- A mapped descriptor's cached mask is that of its slots if and only if its poll is open: always on an
  open loop, but not for a watcher that `closeAll` has destroyed and not yet unmapped
  (`Pollers.Watchers.MasksRight`, with `SpentIsWrong`).

And one has a single exception: a failed `add_signal_handler` is a no-op once all cleanups have
run, exactly unless its own rollback has to reset a signal for an owner finalized by the commit
point and that reset fails (`SignalProcess.Process.AddSignalHandler`, with `ResetCanRaise`). The
failure is then visible in the owner map.

`dafny verify dfyconfig.toml` checks the whole project.

## Invariants

The contracts of the classes speak of these, which every operation keeps:

- `Ready.Valid`: the capacity is zero or a power of two, and the queue is what lies between head and length, wrapped.
- `Timers.Valid`: the array is a heap by (when, seq) and holds exactly the entries of the sorted list.
- `Loop.Valid`: the structures are valid and the state is what executing the recorded steps from the initial state gives; `Loop.Safe` derives the ordering properties from that.
- `SignalWorld.Invariant`: owners are live loops with a handler, await cleanup, or could not be reset; the wakeup owner has its own, still open descriptor installed, and without an owner none is.
- `FlushState.Valid`: the list and the detached chain are linked, disjoint and free of repetition; the flag, the links and the references say exactly which transports are on them; a non-empty list has the flusher active.
- `Resolver.State.Valid`: the doubly linked list is exactly the outstanding requests, its head null exactly when there are none; while the loop is open each has its future; each lookup is outstanding, settled or given up.
- `Counters.Valid`: both counters equal their populations, and each handle was closed, and called back, at most once.
- `Registry.Valid`: all of these for every object of a loop, and every handle is a poll or some object's.
- `Endpoint.Valid`: the flow-control and teardown properties listed with `Datagram.Endpoint.Run`; a graceful close has the handle open for as long as bytes are in flight. Within the report of a completed send, before a possible resume, a paused endpoint may briefly have nothing queued.
- `Watchers.Valid`: a mapped watcher's mask is right exactly while its poll is open, and all polls of an open loop's watchers are; no callback is registered twice; what a running callback uses stays in place; a cancelled callback has not started since.

libuv runs its callbacks only from the loop, so completions, polls and the next callback do not occur inside Python code that the loop is calling.

## Model

| member | source | states |
|---|---|---|
| ReadyRing.MaskIsModulo | zig/collections.zig:9-14 | masking with a power of two minus one is remainder by that power, bit by bit |
| ReadyRing.Ready.Masked | zig/collections.zig:40-52 | the masked index of the i-th queued item lies inside the buffer and equals its position modulo the capacity |
| ReadyRing.Ready.Push | zig/collections.zig:26-29 | the queue becomes the old queue followed by the item, growing if full |
| ReadyRing.Ready.EnsureUnusedCapacity | zig/collections.zig:31-38 | the queue is unchanged and the room asked for is there; the capacity stays a power of two |
| ReadyRing.Ready.PushAssumeCapacity | zig/collections.zig:40-44 | the queue gains the item at its end without touching the capacity |
| ReadyRing.Ready.Pop | zig/collections.zig:46-52 | returns the oldest item and leaves the rest in order, or reports an empty queue |
| ReadyRing.Ready.Grow | zig/collections.zig:54-63 | relocation from any wrapped position keeps the queue; the new capacity is a power of two |
| ReadyRing.MoveAll | zig/loop.zig:379-383 | draining one ring into another appends the whole first queue, in order, and leaves it empty |
| TimerOrder.InsertSorted | zig/collections.zig:66-75 | inserting a new entry keeps a list strictly ordered by (when, seq) |
| TimerOrder.InsertElements | zig/collections.zig:97-103 | insertion adds exactly the one entry |
| TimerOrder.KeepSorted | zig/collections.zig:130-161 | filtering keeps the order, and every entry is either kept or dropped |
| TimerOrder.KeepMembers | zig/collections.zig:130-161 | the kept entries are exactly those the predicate spares |
| TimerOrder.KeepRespectsMultiset | zig/collections.zig:130-161 | what filtering keeps does not depend on the heap's layout |
| TimerOrder.DroppedExactlyOnce | zig/collections.zig:130-161 | each dropped handle is listed once for every entry that carries it, and no spared handle is listed |
| TimerOrder.SortedUnique | zig/collections.zig:71-75 | (when, seq) is a strict total order: one multiset of entries has one sorted list |
| HeapOrder.RootIsFirst | zig/collections.zig:105-108 | in a heap no entry comes before the root |
| HeapOrder.RiseStep | zig/collections.zig:169-179 | swapping a rising entry with its parent keeps the entries and moves the one possible violation up |
| HeapOrder.SinkStep | zig/collections.zig:181-194 | swapping a sinking entry with its earlier child keeps the entries and moves the one possible violation down |
| HeapOrder.Pushed | zig/collections.zig:97-103 | a heap with one more entry represents the sorted list with that entry inserted |
| HeapOrder.RestPopped | zig/collections.zig:110-119 | removing the root and restoring the heap represents the tail of the sorted list |
| HeapOrder.Compacted | zig/collections.zig:130-161 | a heap of the kept entries represents the filtered sorted list |
| TimerHeap.Timers.Push | zig/collections.zig:97-103 | the sorted contents gain the entry, with the next sequence number |
| TimerHeap.Timers.Peek | zig/collections.zig:105-108 | returns the unique (when, seq) minimum, if any |
| TimerHeap.Timers.Pop | zig/collections.zig:110-119 | returns the unique (when, seq) minimum and leaves the rest of the sorted contents |
| TimerHeap.Timers.SiftUp | zig/collections.zig:169-179 | restores the heap from one rising entry, keeping the entries |
| TimerHeap.Timers.SiftDown | zig/collections.zig:181-194 | restores the heap from one sinking entry, keeping the entries |
| TimerHeap.Timers.Heapify | zig/collections.zig:153-159 | sifting down from the last parent makes any array a heap of the same entries |
| TimerHeap.Timers.CompactHeap | zig/collections.zig:130-159 | contents afterwards are the old sorted contents with the doomed entries filtered out; the doomed handles are returned |
| TimerHeap.Timers.Compact | zig/collections.zig:130-161 | each doomed handle is released once, after the heap is whole again; finalizers may push, pop and compact in turn, with the effect they would have on a sorted list |
| TimerHeap.Timers.Drain | zig/collections.zig:110-119 | popping until empty yields exactly the sorted contents |
| TimerHeap.Timers.CompactAndDrain | zig/collections.zig:130-161 | draining after a compaction yields the drain before it with the dropped entries filtered out, and each dropped handle is listed once |
| TimerHeap.Timers.Perform | zig/collections.zig:97-161 | any tree of pushes, pops and compactions with reentrant finalizers acts on the heap as on a sorted list |
| TimerHeap.ReplaySound | zig/collections.zig:97-161 | everything pushed is still there, was popped, or was dropped, exactly once, and the list stays sorted |
| TimerHeap.DrainIsStableSort | zig/collections.zig:66-161 | after any pushes, pops and compactions on a new heap, a drain yields the rest of what was pushed, sorted by deadline, equal deadlines in push order |
| SchedulerSteps.NextKeepsFifo | zig/loop.zig:235-251 | every scheduler step keeps dequeued, ready and inbox callbacks equal to the registrations, in order, and a non-empty inbox implies a pending wakeup |
| SchedulerSteps.NextKeepsTimers | zig/loop.zig:450-504 | every step keeps: no timer lost, none early, none overtaken by a later-scheduled one with a later or equal deadline |
| SchedulerSteps.NextArrivesOnce | zig/loop.zig:450-504 | no timer enters the ready queue twice |
| SchedulerSteps.NextQueuesArrivals | zig/loop.zig:450-470 | every step keeps: the timer callbacks dequeued and ready are exactly the timers that arrived, in order of arrival |
| SchedulerSteps.NextFollows | zig/loop.zig:450-696 | no step undoes a registration, an arrival, a dequeue or a cancellation, and a timer that left the heap never returns to it |
| SchedulerSteps.NothingDueDelivers | zig/loop.zig:450-470 | once no due timer is pending, every timer that was due has left the heap and is ready or dequeued, unless it was cancelled |
| SchedulerSteps.ScheduleBypassing | zig/loop.zig:661-672 | sending a due timer past the heap overtakes nothing, because it is due strictly before the earliest entry |
| SchedulerSteps.CompactKeepsTimers | zig/loop.zig:497-504 | compaction loses no uncancelled timer and changes no order |
| SchedulerAlone.CollectMovesDue | zig/loop.zig:450-470 | collection moves exactly the uncancelled due timers, in deadline order, and leaves exactly the later entries |
| SchedulerAlone.FiredReady | zig/loop.zig:225-233 | a firing timer that nothing re-enters appends exactly the uncancelled due timers to the ready queue, in deadline order |
| SchedulerAlone.CrowdedIsCompacted | zig/loop.zig:497-504 | the cancellation that leaves more than 100 and more than half of the entries cancelled ends with no cancelled entry in the heap and a count of zero |
| SchedulerAlone.FiredExact | zig/loop.zig:450-495 | a firing timer keeps the heap's count equal to the number of cancelled entries |
| SchedulerAlone.CancelledExact | zig/loop.zig:497-504 | so does a cancellation, compaction included |
| SchedulerAlone.RescheduledExact | zig/loop.zig:649-681 | and so does scheduling a timer, which may retire cancelled ones |
| SchedulerAlone.RanExact | zig/loop.zig:401-426 | and running any batch of callbacks, whatever they call, as long as finalizers call nothing |
| SchedulerTurns.DrainIsBounded | zig/loop.zig:203-218 | a turn made of batches that go on exactly as the tests say runs at most max(first batch, 16384) callbacks in at most 256 batches, starts none after stop or a fatal error, and with I/O throughout runs singletons |
| SchedulerTurns.DeliveredRuns | zig/loop.zig:225-233 | a due timer delivered before an idle turn has its callback dequeued by it |
| SchedulerTurns.KeepAll | zig/loop.zig:191-233 | one more turn keeps what earlier turns promise: due timers delivered, ready callbacks dequeued |
| SchedulerSteps.EveryRun | zig/loop.zig:450-696 | after any sequence of steps: first in first out across both schedulers, no lost wakeup, no timer lost, early, overtaken or duplicated, and the timer callbacks queued or dequeued are those that arrived, in that order |
| TimerArming.ConversionSaturates | zig/loop.zig:171-177 | the millisecond conversion never exceeds 64 bits, and saturates |
| TimerArming.ExpiryBounds | zig/loop.zig:473-495 | the armed expiry is at most max(now, deadline + 2 ms); it is not before the deadline if and only if the delay in milliseconds fits 64 bits |
| TimerArming.SaturatedExpiryIsEarly | zig/loop.zig:171-177 | a deadline beyond the 64-bit millisecond range is armed too early |
| Scheduler.Loop.Safe | zig/loop.zig:235-251 | every valid loop state satisfies the ordering, deadline and conservation properties |
| Scheduler.Loop.ScheduleSoon | zig/loop.zig:593-610 | drains the inbox, appends the callback behind it, and leaves the idle handle active; this is the one step recorded |
| Scheduler.Loop.CallSoonThreadsafe | zig/loop.zig:621-647 | appends to the inbox and leaves a wakeup pending |
| Scheduler.Loop.OnWake | zig/loop.zig:235-251 | clears the flag, moves the whole inbox behind the ready queue, and leaves the idle handle active |
| Scheduler.Loop.ScheduleAt | zig/loop.zig:649-681 | the timer gets exactly this deadline; it bypasses the heap exactly when due before every heap entry, otherwise it is pushed and the libuv timer set, at this moment, for the earliest deadline, whatever finalizers do |
| Scheduler.Loop.CallLater | zig/loop.zig:683-689 | the deadline is the delay from now, a delay of zero or less counting as already due, now |
| Scheduler.Loop.CallAt | zig/loop.zig:691-696 | the deadline is the one given; one not after the clock counts as already due |
| Scheduler.Loop.CancelTimerHandle | zig/timer.zig:151-164 | cancellation sticks and is recorded once; finalizers may run before the loop is told, which happens, and is counted once, exactly if the timer still sits in the heap; a second cancellation changes nothing |
| SchedulerSteps.FlagPopped | zig/timer.zig:62-72 | popping a timer clears exactly its in-heap flag |
| SchedulerSteps.FlagCompacted | zig/loop.zig:182-186 | compaction clears the in-heap flags of exactly the timers it drops |
| Scheduler.Loop.CountCancelled | zig/loop.zig:497-500 | the heap counts as crowded when more than 100 and more than half of its entries are cancelled |
| Scheduler.Loop.NoteTimerCancelled | zig/loop.zig:497-504 | a cancellation is counted, and exactly a crowded heap is compacted; with no finalizer acting it then holds no cancelled entry and the count is zero |
| Scheduler.Loop.CompactAndArm | zig/loop.zig:500-504 | compaction, then releases, then arming: the libuv timer is active exactly when the heap is non-empty |
| Scheduler.Loop.ArmTimer | zig/loop.zig:473-495 | removes only cancelled entries from the front, counting each down; then the libuv timer is active exactly when the heap is non-empty and set now for its earliest, uncancelled deadline |
| Scheduler.Loop.SettledIsInTime | zig/loop.zig:473-495 | a timer set for the earliest deadline is late for no pending entry by more than 2 ms past the arming time or the deadline, and early only if the delay in milliseconds exceeds 64 bits |
| Scheduler.Loop.CollectDueTimers | zig/loop.zig:450-470 | with nothing interfering, equals the specification of collection, count included; with finalizers calling back, keeps every invariant and leaves no timer that was due on entry |
| Scheduler.Loop.OnTimer | zig/loop.zig:225-233 | whatever finalizers do, every timer due on entry has left the heap for good and is ready or dequeued unless cancelled, and the libuv timer and the idle handle are settled; with nothing interfering, the ready queue gained exactly the live due timers in deadline order |
| Scheduler.Loop.RunReady | zig/loop.zig:401-426 | dequeues exactly the callbacks queued on entry, in order, whatever they schedule and even after stop; each is performed unless it belongs to a timer cancelled by then; with nothing re-entering, the state is that of the calls made one after the other |
| Scheduler.Loop.RunOne | zig/loop.zig:387-426 | dequeues the oldest callback and performs its calls, except for a timer cancelled in the meantime |
| Scheduler.Loop.React | zig/loop.zig:593-696 | every call Python code makes has its lasting effect, however deep the calls nest; calls that nothing re-enters act as their reference functions, in order |
| Scheduler.Loop.Do | zig/loop.zig:593-696 | each kind of call performs its operation: `call_soon` and `call_soon_threadsafe` extend exactly their queue, the timer calls schedule exactly their deadline, and so on |
| Scheduler.Loop.OnIdle | zig/loop.zig:191-223 | batches start with the queue on entry, each where the one before ended; another batch runs if and only if the loop has only ready callbacks to deal with (no stop, fatal error, active timer, lookup, flush or closing handle) and the limits of 64 or 256 batches, 16384 callbacks, and with I/O singletons and 25 microseconds leave room; every callback is performed; the idle handle stops when the queue is empty |
| Scheduler.Loop.StartRunning | zig/loop.zig:703-714 | a run begins with the stop flag cleared, the idle handle and the libuv timer settled |
| Scheduler.Loop.FinishRunning | zig/loop.zig:718-733 | a run ends with the stop flag cleared, then whatever draining the flush list runs, then the fatal exception, an earlier or a new one, reported and cleared |
| Scheduler.Loop.OnPolled | zig/poller.zig:59-64 | watcher callbacks join the ready queue in order and leave the idle handle active |
| Scheduler.Loop.Run | zig/loop.zig:191-251 | over every run: idle handle active while callbacks are ready; libuv timer active exactly when timers are pending, its expiry no later than max(arming time, deadline + 2 ms) for every pending timer and not before the armed deadline unless the conversion saturates; every ordering property; a timer due when the libuv timer fires, and not cancelled, has its callback dequeued by the next idle turn; and with no finalizer calling back, the count of cancelled timers is exact |
| SignalWorld.EventsKeep | zuvloop/_base.py:155-185 | closes on the main thread or a worker and deferred cleanups, in any order and number, keep ownership and the installed descriptor consistent |
| SignalWorld.OwnerHasOpenDescriptor | zuvloop/_base.py:155-185 | in a consistent process the installed descriptor is its owner's and still open; without an owner none is installed |
| SignalWorld.CleanAllSettles | zuvloop/_base.py:495-517 | running the pending cleanups in any order leads to one and the same state |
| SignalWorld.SettledSkips | zuvloop/_base.py:495-517 | running one pending cleanup first does not change where all of them lead |
| SignalShadow.ApplyKeepsAgree | zuvloop/_base.py:495-517 | a cleanup or close of another loop keeps a half-done registration in step with the run in which it never began |
| SignalTransaction.EventsKeepRegistering | zuvloop/_loop.py:43-46 | other loops acting at a call boundary keep the registration's invariant in each of its phases |
| SignalTransaction.PublishStarts | zuvloop/_loop.py:40-47 | publishing the tokens before any system call establishes the invariant |
| SignalTransaction.ResetForPrior | zuvloop/_loop.py:56-61 | resetting on behalf of a finalized owner leads to the state its own cleanup would have left |
| SignalTransaction.GiveSignalBack | zuvloop/_loop.py:63-68 | handing a signal back to a live owner restores agreement on every signal |
| SignalTransaction.ResetRestored | zuvloop/_loop.py:69-77 | an owner finalized before the commit point is reset after all |
| SignalTransaction.UndoneLeavesNoTrace | zuvloop/_loop.py:56-82 | once all pending cleanups have run, an undone registration and one that never began have the same owners, dispositions, wakeup owner and descriptor |
| SignalTransaction.StuckIsVisible | zuvloop/_loop.py:57-77 | when resetting for a finalized owner fails, the owner map differs for good from the one without the registration |
| SignalProcess.Process.FinishCleanup | zuvloop/_base.py:495-517 | with other loops acting on every return of a system call: resets exactly the resettable signals still owned, to `default_int_handler` for signal 2 and the system default for every other, gives up the descriptor if still owned, and reports whether a reset failed |
| SignalProcess.Process.ResetOne | zuvloop/_base.py:505-514 | a reset and its recheck, with other loops acting in between, equal the reset after what they did |
| SignalProcess.Process.CleanUp | zuvloop/_base.py:495-517 | a cleanup interleaved with other loops equals the cleanup after what they did; every resettable signal its loop owned gets its default disposition |
| SignalProcess.Process.CloseLoop | zuvloop/_base.py:155-185 | closing, with other loops acting on every return of a system call, equals the atomic close after what they did: immediate on the main thread, where every resettable signal the loop owned gets its default disposition, deferred from the first signal still owned on a worker |
| SignalProcess.Process.RemoveAll | zuvloop/_base.py:164-166 | handlers are removed in order until one raises, whatever other loops do in between; the rest stay registered |
| SignalProcess.Process.Interfere | zuvloop/_base.py:45-52 | what other loops do at a boundary of a registration, nested to any depth, amounts to a sequence of events that do not close the registering loop; plain deeds amount to themselves |
| SignalProcess.Process.Perform | zuvloop/_base.py:155-185 | a close or cleanup inside which yet others close or clean up, to any depth, has the effect of a sequence of events |
| SignalApart.ApplyIsLocal | zuvloop/_base.py:495-517 | a close or cleanup touches only the record, cleanup, signals and descriptor of its own loop |
| SignalApart.Commutes | zuvloop/_base.py:495-517 | changing what one loop holds commutes with any events of other loops |
| SignalInterleaving.StrippedCarried | zuvloop/_base.py:164-166 | a close that has got part of the way stays in step with the run in which it has not begun |
| SignalInterleaving.ResetStep | zuvloop/_base.py:505-514 | resets interleaved with other loops' events add up to resetting all signals after those events |
| SignalInterleaving.ClearingTheToken | zuvloop/_base.py:445-448 | clearing the token after uninstalling the descriptor keeps the process consistent if and only if no descriptor was installed meanwhile |
| SignalInterleaving.RegistrationLosesItsToken | zuvloop/_base.py:445-448 | a registration at that point would break it |
| SignalDefaults.EventsKeepDefaults | zuvloop/_base.py:495-517 | whatever other loops close or clean up, a signal that changes hands gets its default disposition, the interrupt handler for signal 2 and the system default for every other, and a signal that has it keeps it |
| SignalDefaults.CleanedResetsAll | zuvloop/_base.py:503-514 | a cleanup leaves every resettable signal its loop owned without owner and with its default disposition, whatever others did before |
| SignalDefaults.ClosedResetsAll | zuvloop/_base.py:155-185 | so does a close on the main thread for every resettable signal its loop owned and handled |
| SignalProcess.Process.AttachWakeup | zuvloop/_base.py:384-408 | takes the token first; on failure gives it back to a live owner or abandons a finalized one, with the matching descriptor |
| SignalProcess.Process.RestoreWakeup | zuvloop/_base.py:410-433 | afterwards the descriptor is as in the run without the registration, or abandoned because its owner was finalized |
| SignalProcess.Process.ReinstallWakeup | zuvloop/_base.py:417-425 | installs the previous descriptor unless its owner is finalized or the descriptor closed meanwhile |
| SignalProcess.Process.PublishWakeup | zuvloop/_base.py:426-433 | the token goes back, and is taken away again if its owner was finalized in between; the attached flag is back too, unless exactly that happened |
| SignalProcess.Process.UndoSignal | zuvloop/_loop.py:54-79 | raises exactly when, after the events up to the commit point, the previous owner is finalized and its signal cannot be reset; otherwise this loop's handlers are those it began with and the signal is restored or reset, and reset if that owner was finalized by then and still had it |
| SignalProcess.Process.CompleteReset | zuvloop/_loop.py:56-61 | completing the reset of a finalized owner leaves `default_int_handler` for signal 2 and the system default for every other |
| SignalProcess.Process.ReturnSignal | zuvloop/_loop.py:66-77 | handing back and rechecking ends restored or reset, or loses the signal exactly when it cannot be reset |
| SignalProcess.Process.Rollback | zuvloop/_loop.py:54-82 | a no-op up to pending cleanups, exactly unless a reset for an owner finalized by the commit point fails |
| SignalProcess.Process.AddSignalHandler | zuvloop/_loop.py:29-85 | for every interleaving at the call boundaries, closes and cleanups being interleaved themselves: refused without effect, registered with this loop owning signal and descriptor and all other signals untouched, or rolled back as a no-op once all cleanups have run, handler table included, and at once unless the previous owner was finalized, in which case the signal has its default disposition; the one exception, a failing reset, occurs exactly when the signal cannot be reset and its owner is finalized by the commit point, a function of the start state and the interference |
| SignalProcess.ResetCanRaise | zuvloop/_loop.py:56-61 | an input on which that exception occurs |
| SignalProcess.Process.RemoveSignalHandler | zuvloop/_loop.py:87-100 | consistency survives whatever happens while the signal is reset and the descriptor given up, this loop's own close included, and an owned signal ends with `default_int_handler` if it is signal 2 and with the system default otherwise; if only others act, the effect is removing the handler after what they did; absent or raising, it changes nothing |
| SignalProcess.Process.TakeDown | zuvloop/_loop.py:92-98 | after the reset returns, the handler is deleted only if it is still the same, and the token only if it still names this loop |
| SignalProcess.Process.DetachWakeup | zuvloop/_base.py:435-448 | gives the descriptor up on the main thread when the last handler is gone and the loop still owns it; consistent whatever happens before the token is given up |
| SignalProcess.Process.BeginRun | zuvloop/_base.py:115-119 | a loop with handlers takes the descriptor when it starts running on the main thread; otherwise nothing changes |
| SignalProcess.Process.EndRun | zuvloop/_base.py:127-133 | a loop without handlers gives the descriptor up when it stops running, whatever happens meanwhile |
| SignalProcess.Process.DoAll | zuvloop/_base.py:155-185 | after every operation of any number of loops, each interleaved with others' closes and cleanups: a wakeup owner has its own open descriptor installed, no owner means none installed, and each signal's owner is a live loop with a handler, awaits cleanup, or could not be reset |
| Reaper.HandOff | zig/loop.zig:1014-1050 | for every interleaving of deallocation and reaper: freed at most once and only after its loop was closed, never touched afterwards, no panic, at most one retry, bounded length, and freed by the time both threads are done |
| Reaper.FreedIsFinal | zig/loop.zig:1029-1039 | the block is freed exactly when neither thread has a step left |
| Reaper.InterleavingKeeps | zig/loop.zig:1055-1068 | every interleaving keeps the ownership invariant and uses up its measure |
| Reaper.StepDecreases | zig/loop.zig:1014-1027 | every step of either thread decreases the measure, the retry included |
| Reaper.CloseDoesNotWait | zig/loop.zig:1053-1069 | as long as a thread can be started, the closing thread never waits for a lookup: the reaper does, and without lookups there is none |
| FlushList.FlushState.ScheduleFlush | zig/loop.zig:305-323 | queues a transport once, at the head, and activates the flusher; on a closed loop discards its writes |
| FlushList.FlushState.DrainFlushList | zig/loop.zig:290-300 | flushes each transport queued on entry exactly once, in list order, and leaves exactly what the flushes scheduled, whatever they schedule |
| FlushList.FlushState.OnFlush | zig/loop.zig:261-274 | drains, and stops the flusher exactly when the list is empty |
| FlushList.FlushState.DropFlushList | zig/loop.zig:278-288 | discards every queued transport's writes in list order, and whatever that schedules, and leaves no transport queued, linked or referenced |
| FlushList.FlushState.CloseLoop | zig/loop.zig:949-977 | closing drops the list, stops the flusher, and nothing is queued any more |
| FlushList.FlushState.Run | zig/loop.zig:261-323 | every run of writes, flushes and a close keeps the list, the flags, the links and the references in step; what is queued, sent and discarded is what its steps amount to one after the other |
| FlushList.ScheduledMembers | zig/loop.zig:305-323 | scheduling queues a transport unless it still waits on the detached chain |
| FlushList.FlushedMembers | zig/loop.zig:290-300 | queued after a drain are exactly the transports scheduled after they were taken off the chain |
| Resolver.State.AllocRequest | zig/dns.zig:60-77 | the new request heads the list, links consistent, its future counted |
| Resolver.State.FreeRequest | zig/dns.zig:79-89 | unlinks exactly the one request from any position, links consistent |
| Resolver.State.OnResolved | zig/dns.zig:285-339 | settles the future only while the loop is open, where it is certain to be there; unlinks exactly this request, whatever lookups start meanwhile |
| Resolver.State.CancelAll | zig/dns.zig:93-103 | visits every outstanding request once, in order, and changes no link |
| Resolver.State.ReleaseFutures | zig/dns.zig:107-110 | drops the future of every outstanding request and nothing else |
| Resolver.State.StartReaper | zig/loop.zig:1041-1050 | futures are gone before the reaper starts, and stay gone when it cannot be started |
| Resolver.State.Close | zig/loop.zig:1053-1069 | the first close cancels every outstanding request; those not answered while the handles drain pass to the reaper with their futures dropped, exactly when it can be started, and are waited for otherwise; nothing is settled |
| Resolver.State.DrainAll | zig/loop.zig:1055-1069 | after a close, answers in any order empty the list without settling a future |
| Resolver.State.Run | zig/dns.zig:60-110 | over every order of lookups, answers and a close: the list is exactly the outstanding requests; each lookup is outstanding, settled or given up, once; nothing is settled after the close |
| Resolver.KeysWithout | zig/dns.zig:79-89 | unlinking a request removes exactly its future from the outstanding ones |
| Handles.Counters.Opened | zig/datagram.zig:627-629 | a new handle is counted as open |
| Handles.Counters.CloseExternal | zig/loop.zig:85-89 | a first close request counts the handle as closing, a repeated one does nothing |
| Handles.Counters.CloseCallback | zig/loop.zig:92-95 | the close callback retires the handle from both counters, which never underflow |
| LoopShutdown.Registry.Run | zig/loop.zig:85-95 | every mix of sends, closes, aborts, exits, polls, new handles and close callbacks, on any number of objects, keeps both counters equal to their populations |
| LoopShutdown.Registry.Take | zig/loop.zig:85-95 | each turn does what its object promises: a socket its step, an exiting child its close, the watchers their event, a close callback the retirement of its handle |
| LoopShutdown.Registry.CloseWatchers | zig/poller.zig:190-195 | destroying all watchers closes every poll, whatever finalizers do to the watchers and, after each of them, to any other object |
| LoopShutdown.Registry.WalkClose | zig/loop.zig:982-991 | each socket and child is closed through its own close function, with Python code reacting, and closing or aborting any other object in between; none stays open |
| LoopShutdown.Registry.Shutdown | zig/loop.zig:1055-1060 | with arbitrary turns on all objects after the close flag, after each watcher, after each object and during the drain: both counters end at zero, every handle was closed once and called back once, and connection_lost was scheduled at most once per endpoint |
| Handles.Moved | zig/loop.zig:85-95 | a handle changing phase moves exactly one unit between the populations |
| Handles.Process.constructor | zig/process.zig:303-320 | a failed spawn leaves the handle closing, a successful one open |
| Handles.Process.CloseHandle | zig/process.zig:175-179 | closes the handle once |
| Handles.Process.CloseFromLoop | zig/process.zig:182-186 | closes the handle at most once, open or not |
| Datagram.ParseLimits | zig/datagram.zig:520-547 | which arguments are rejected, and that accepted limits are ordered, default to a quarter, and scale by four |
| Datagram.SumWithout | zig/datagram.zig:251-254 | completing a send removes exactly its size from the queued total |
| Datagram.Endpoint.DoSendTo | zig/datagram.zig:417-437 | when a datagram is dropped, sent at once, reported, queued or refused, and what is queued |
| Datagram.Endpoint.QueueSend | zig/datagram.zig:268-295 | the send is in flight and counted, and the protocol paused if that passes the high mark |
| Datagram.Endpoint.OnSent | zig/datagram.zig:244-266 | whatever the protocol does in its callbacks, the size equals the in-flight total; left alone, a pending resume happens, and the endpoint is shut down exactly if it is closing and nothing stays queued |
| Datagram.Endpoint.MaybePauseProtocol | zig/datagram.zig:297-302 | pauses exactly when above the high mark and not already paused |
| Datagram.Endpoint.MaybeResumeProtocol | zig/datagram.zig:304-310 | resumes exactly when paused, not closing and at or below the low mark |
| Datagram.Endpoint.ShutdownAndClose | zig/datagram.zig:335-347 | the handle is closed once, even if detaching the socket re-enters the endpoint |
| Datagram.Endpoint.CloseFromLoop | zig/datagram.zig:350-360 | after the loop's close the handle is closing or closed, and was closed once |
| Datagram.Endpoint.OnClosed | zig/datagram.zig:323-333 | connection_lost is scheduled at most once |
| Datagram.Endpoint.DoAbort | zig/datagram.zig:440-446 | drops the queued size to zero for good and shuts down at once |
| Datagram.Endpoint.DoClose | zig/datagram.zig:448-458 | shuts down at once with nothing queued; with bytes queued the handle stays open, whatever is to come, and only reading stops |
| Datagram.Endpoint.SetWriteBufferLimits | zig/datagram.zig:496-551 | rejected arguments change nothing; accepted ones may pause at once |
| Datagram.Endpoint.StartReceivingMethod | zig/datagram.zig:584-595 | starts reading on an endpoint that is not closing; a failure to start shuts the endpoint down |
| Datagram.Endpoint.DoPauseReading | zig/datagram.zig:566-574 | reading stops; refused on a closing endpoint |
| Datagram.Endpoint.DoResumeReading | zig/datagram.zig:577-582 | refused on a closing endpoint, raises when receiving cannot start, and reads afterwards exactly if it does not raise |
| Datagram.Endpoint.NothingOutstanding | zig/datagram.zig:297-310 | with no send outstanding a paused endpoint is closing and a closing one was shut down |
| Datagram.Endpoint.CompleteAll | zig/datagram.zig:244-266 | left alone, a paused endpoint is resumed exactly once, and a closing one is shut down |
| Datagram.Endpoint.React | zig/datagram.zig:417-595 | calls that nothing re-enters act as their reference functions, in order |
| Datagram.Endpoint.Run | zig/datagram.zig:244-360 | over every run with reentrant callbacks: size equals the in-flight total unless aborted, then zero; pause and resume alternate, starting with pause; no resume while closing; paused and open means bytes are queued; unless it was aborted, shut down with the loop or could not start receiving, the handle left the open phase with nothing in flight |
| Pollers.Watchers.Get | zig/poller.zig:94-119 | finds the watcher or opens one poll for it, and fails without effect |
| Pollers.Watchers.Rearm | zig/poller.zig:121-133 | the cached mask becomes that of the slots and is passed to libuv; an empty one unmaps the watcher and closes its poll |
| Pollers.Watchers.Register | zig/poller.zig:146-158 | before anything is released: the slot names the new handle, the superseded one is cancelled and no other, and every mask is right |
| Pollers.Watchers.Unregister | zig/poller.zig:161-171 | before anything is released: the slot is empty, its handle cancelled and no other, and every mask is right |
| Pollers.Watchers.DoAdd | zig/poller.zig:135-159 | registers a new callback, not cancelled, and cancels the superseded one, whatever its finalizer does, and no other if it does nothing |
| Pollers.Watchers.DoRemove | zig/poller.zig:161-172 | reports whether there was a callback and cancels it, whatever its finalizer does |
| Pollers.Watchers.Do | zig/poller.zig:135-172 | each kind of call performs its operation: what it takes away is cancelled for good; with nothing re-entering, what it adds is new and not cancelled |
| Pollers.Watchers.OnPoll | zig/poller.zig:32-57 | schedules exactly the uncancelled callbacks of the reported sides, both on an error, after which the descriptor is polled as before |
| Pollers.Watchers.AddThenPoll | zig/poller.zig:32-57 | the poll that reports the side of a callback just added schedules exactly that callback |
| Pollers.Watchers.Destroy | zig/poller.zig:78-92 | the slots are emptied and the poll closed first, then the reader is flagged and released, and only then the writer; the watcher stays mapped, and both callbacks end up cancelled, whatever finalizers do |
| Pollers.Watchers.CloseAll | zig/poller.zig:190-195 | every watcher's poll is closed, once, whatever finalizers do, and then the map is dropped |
| Pollers.Watchers.MasksRight | zig/poller.zig:72-92 | a mapped watcher's cached mask equals its slots' mask and is not empty if and only if its poll is open, so always on an open loop |
| Pollers.SpentIsWrong | zig/poller.zig:78-92 | a destroyed watcher that is still mapped has a wrong cached mask |
| Pollers.Watchers.Schedule | zig/poller.zig:59-64 | a cancelled handle is not scheduled |
| Pollers.Watchers.RunNext | zig/handle.zig:72-88 | takes the oldest callback off the queue and starts it exactly unless its handle was cancelled; a failing one hands its handle to the exception handler; what it cancels stays cancelled |
| Pollers.Watchers.Finish | zig/handle.zig:76-81 | a callback cancelled while running is released when it returns |
| Pollers.Watchers.FlagCancelled | zig/handle.zig:167-179 | cancelling any handle user code holds, a watcher's included, releases callback and arguments at once, unless they are in use |
| Pollers.Watchers.Run | zig/poller.zig:72-92 | over every run: a cancelled, removed or superseded callback does not start again, queued or not; each cached mask is right, and what libuv polls, exactly while the watcher's poll is open |
| Pollers.RewiredMask | zig/poller.zig:121-133 | re-arming after a slot change keeps all masks right, all registrations unique and all other slots as they were |
| Pollers.Mask | zig/poller.zig:121-125 | bit 0 of the mask asks for readability, bit 1 for writability |
| Sendfile.OsSendfile | zuvloop/_sendfile.py:132-132 | one transfer moves a non-empty prefix of what is left, nothing only at the end of the file |
| Sendfile.SendfileToFd | zuvloop/_sendfile.py:120-153 | for every pattern of partial transfers: sends exactly the requested window once and in order, returns its length, positions the file behind it; unavailable exactly if the file is not regular or the first transfer fails; it fails exactly if one of the transfers it makes does (the last may only look for the end of the file), and has then sent exactly what went through before |
| Sendfile.SockSendall | zuvloop/_sockets.py:73-77 | for every pattern of partial sends: everything is sent once, in order, exactly up to the first send that fails |
| Sendfile.CopyChunks | zuvloop/_sendfile.py:163-174 | for every pattern of short reads and partial sends: the window from the file's position, in chunks no larger than asked for; it fails exactly in the first round it makes whose read, drain or send does, having sent the whole chunks before and what got through of that one |
| Sendfile.Fallback | zuvloop/_sendfile.py:155-206 | sends the window from the offset, or from the current position when the offset is zero, in chunks of at most 16 KiB to a transport and 256 KiB to a socket; fails exactly when a round it makes does; a seekable file ends at offset plus sent |
| Sendfile.SendFile | zuvloop/_sendfile.py:50-57 | the fallback begins exactly if it is allowed and the native path was unavailable, when nothing was sent; each path sends its window exactly, on failure exactly what got through before, and nothing when the source cannot seek; it fails exactly when a call it makes does |
| Sendfile.FallbackIgnoresZeroOffset | zuvloop/_sendfile.py:158-162 | with a zero offset the fallback does not rewind, and so sends other bytes |
| Sendfile.PathsAgree | zuvloop/_sendfile.py:183-187 | native and chunked paths send the same bytes, whatever the file holds, if and only if the offset is not zero, or the position is zero, or the file is empty |

## Left out

- Out-of-memory paths, NaN deadlines and the rounding of binary floats: deadlines and the clock are reals, the clock never goes back, and allocation succeeds.
- CPython plumbing: reference counts (other than the flush list's own), argument parsing, garbage-collector traversal, contexts, and critical sections beyond treating each locked region as one step.
- Signals: other loops act on return from `signal.signal` and `set_wakeup_fd` and on entry to `is_finalized`, not in the middle of a statement; at those points they close and clean up, but do not register. Between uninstalling the descriptor and giving the token up a registration would break consistency (`SignalInterleaving.ClearingTheToken` has the exact condition).
- Signals: whether a signal can be reset is fixed, so a reset that fails once and succeeds later is not modelled; neither is a `_defer_close` that fails, which would leave a finalized owner without a pending cleanup.
- Signals: a loop is not closed during its own `add_signal_handler` or while it attaches, nothing else touches the wakeup descriptor, and descriptor numbers are not reused. Coroutine and signal-number checks, `siginterrupt` and delivery through the self-pipe are not modelled.
- SignalProcess.Process.AddSignalHandler: when a finalized owner's descriptor is abandoned during rollback, the loop's own `_wakeup_fd_attached` flag is cleared rather than restored (`PublishWakeup` says exactly when); the no-op claim covers owners, dispositions, wakeup owner, descriptor and handler table, not that flag.
- Scheduler: `debug` and slow-callback reporting, metrics, task factories, the context pool, and the callbacks and arguments of timer handles.
- Reaper: the ownership cell is sequentially consistent; a weaker reading of acquire and release is not modelled.
- FlushList: closing the loop from inside a flush drain is not modelled; `flushPending` and `discardPending` are reduced to the calls of `scheduleFlush` they make.
- Resolver: building results, literal addresses and error translation; custom `create_future` code that itself starts lookups or closes the loop. Which requests are answered while a closing loop's handles drain is arbitrary.
- Datagram: receiving, addresses, error reporting, replacing the protocol, an endpoint whose `uv_udp_open` fails, and the wait of `close` for zero-length datagrams, which are not counted. Closing the loop from inside a callback is reduced to closing this endpoint's handle.
- Pollers: `uv_poll_start` succeeds, except that libuv stops a poll it reports an error on. How the map iterates while it is changed is not modelled: the descriptors come in any order, and those removed meanwhile are passed over.
- LoopShutdown: what Python code does to other objects while one is being closed is modelled as turns right before and after that object, not in the middle of its own close function.
- Pollers: a poller is a value in the map rather than a separate allocation, so the freeing of its memory in the close callback is not modelled beyond the handle's phase.
- Sendfile: one file position stands for both the descriptor's and a buffered reader's; the file does not change during a transfer. The stand-in protocol that pauses reading and drains the transport is reduced to a drain that succeeds or fails. Parameter checks are not modelled.
- Stream transports, servers, connections, TLS, subprocess setup, DNS conversions, instrumentation: not modelled; they are orchestration, or would add easy members only.
