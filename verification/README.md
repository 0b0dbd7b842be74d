# Verified model of px4-rs

px4-rs runs each Rust async task as one PX4 work item. Its runtime rests on small lock-free
protocols that must never lose a wake-up, its in-process uORB broker splits every publication
over several locks, and its `.msg` compiler must reproduce the C layout of PX4's messages byte
for byte. This project models those three parts in Dafny and proves what they are for.

`dafny verify dfyconfig.toml` checks everything.

## How the model is built

**Wake chain** (crates/px4-workqueue). Every atomic operation and every exclusive access is one
step of a transition system over sequentially consistent memory, with a program counter for each
thread and any number of threads.

| file | what it holds |
|---|---|
| AtomicWaker.dfy | the waker slot: `register`, `take`, `wake` |
| Cell.dfy | `WorkItemCell` and `wake_by_ref`: two state bits, handle, future, queue entries, the run in progress |
| Parking.dfy | the pattern "check, register, check again, Pending" over one slot and one cell, with an abstract condition |
| Ring.dfy | the SPSC ring with wrapping counters |
| Channel.dfy | ring, two tasks, two slots, two cells: the whole channel |
| ChannelEnds.dfy | the channel as code: `try_send`, `try_recv` and the futures `Send` and `Recv` |
| Notify.dfy | permit, waiter, slot and cell |
| Scheduler.dfy | K cells on one FIFO dispatcher, and `yield_now` |

The end-to-end theorems are obtained by refinement: each step of the uORB, channel and notify
systems is shown to be a step of the parking pattern (or to leave it alone), so its "no lost
wake-up" theorem applies to all three.

The classes hold the fields of the Rust types and run their code one atomic operation at a time.
`AtomicWaker` and `WorkItemCell` carry a ghost copy of their transition system and a ghost `trail`,
everything that has happened to it since the object was made; `Valid()` says that the trail is a
run of the system from its initial state and that it ends in the object's fields. Between two
operations `Interfere` lets the trail grow by any moves of other threads. Each method states which
moves of the calling thread the trail has gained, in order, and in which state of that run the
deciding one was made. `Parking.WakeChain` does the same for a waker slot together with the cell of
the task that registers in it: `register` and `wake` at the grain of the parking system, down to the
queueing of the task. `Notify`, `TopicState` and `Subscription` work on such a chain, with the permit
or "a generation not yet seen" as the condition the task waits for, and `ChannelEnds.Channel` on two,
one waiting for room and one for an item; so a `poll` that returns Pending
must leave the system's record of the task Blocked, which the system reaches only through a
registration and a failed check after it. What these classes assume of other threads is what runs of
the systems do: `AtomicWakers.OthersSatisfyRely`, `Cells.OthersSatisfyRely`,
`Parking.OthersSatisfyRely`, `Notification.OthersMeetContract`, `ChannelEnds.OthersMeetContract`,
`Broker.OthersMeetContract`, and for the ring alone `Ring.ConsumerSatisfiesRely` and
`Ring.ProducerSatisfiesRely`.

**Broker** (crates/px4-uorb). Uorb.dfy composes the in-process broker, any number of publishers,
one receiving task, its waker slot, its cell and its queue entries. Broker.dfy holds the classes.

**Message compiler** (crates/px4-msg-codegen). Text.dfy and Parser.dfy are the line parser,
Flatten.dfy the flattened string and its hash input, Fnv.dfy the hash, Layout.dfy the layout by
plain recursion, Resolver.dfy the memoising resolver with its loops, and ReprC.dfy an independent
account of what a C compiler does with the emitted struct (Rust Reference, "Type Layout", section
"The C Representation"). The search path is a finite map from message name to text; a rank for
each name witnesses that nesting has no cycle.

## What is found to be false, and exactly when it holds

- Channel order does not survive counter wrap-around for every capacity. It does if and only if
  the capacity divides the counter range (`Ring.FifoIffCapacityDividesRange`);
  `Ring.WrapBreaksFifo` builds a failing run for every other capacity.
- `Channel::len` is exact, and so at most N, whenever the producer or the consumer asks
  (`Ring.LenIsExactForProducer`, `Ring.LenIsExactForConsumer`). Anyone else can be told more than N, by
  a value that passes between the two loads, unless the counter range is N + 1
  (`Ring.LenExceedsForOthersIff`).
- A respawn is safe if and only if nothing of the previous life is pending at its
  compare-exchange (`Cells.RespawnIsSafeIffNothingPending`). From a new cell, a spawn, a first poll,
  a wake during it, Ready and a respawn lead to a poll of the empty future slot
  (`Cells.RespawnFaultsFromNewCell`).
- A finished cell can be spawned again if and only if no stale wake has hit it since its last run
  began (`Cells.RespawnSucceedsIffNoStaleWake`). If the wake found nothing pending, the cell is
  Busy for ever (`Cells.StaleWakeBlocksForever`, reached by `Cells.NewCellCanBeBlocked`), although the doc comment
  of `try_spawn` says Busy means that the task is running (crates/px4-workqueue/src/cell.rs:75-76).
- Loss counts balance in a run if and only if no addition to the 32-bit counter overflowed in it
  (`Uorb.LossesAreConserved`, and `Uorb.AccountBalancesIffCounterHasRoom` for one delivery);
  `Uorb.LossesCanOverflow` is a run in which one did.
- A task that yields resumes behind everything queued if and only if it is not queued itself ahead
  of something else, by an earlier wake during the same poll (`Scheduler.YieldGoesBehindTheQueue`).
- `Resolver::layout` leaves the cache correct if and only if there was an error or the given
  definition agrees, in what a layout is made of, with the one its name resolves to
  (`Resolvers.Resolver.Layout`); `Resolvers.StaleRootSpoilsCache` is a definition that spoils it.

Where comments and code disagree the code is followed: the comment on `camel_to_snake` mentions
only lower-case letters before an upper-case one, but the code also splits off the last letter of
an acronym (crates/px4-msg-codegen/src/model.rs:133-154); a comment on `TopicState` speaks of a
snapshot of the callback list, but `notify` holds the list lock across the dispatch
(crates/px4-uorb/src/ffi.rs:109-123 and 234-272). A first publication makes two generations, one
in `advertise` and one in `publish`, so losses are counted in generations.

## Model

| member | source | states |
|---|---|---|
| AtomicWakers.Exclusion | crates/px4-workqueue/src/atomic_waker.rs:60-128 | in every interleaving of any number of `register` and `wake` calls the slot has at most one owner, the state word says whether there is one and of which kind, and both debug assertions hold |
| AtomicWakers.Conservation | crates/px4-workqueue/src/atomic_waker.rs:60-128 | every waker passed to `register` is in exactly one place: called once, replaced, refused, in the slot, or in the hands of exactly one thread |
| AtomicWakers.SingleRegistrantIsNeverRefused | crates/px4-workqueue/src/atomic_waker.rs:60-103 | with one registering task no registration is dropped because another holds the slot |
| AtomicWakers.WakeReachesStoredWaker | crates/px4-workqueue/src/atomic_waker.rs:106-128 | a `wake` that begins while a waker is stored leaves no quiescent state with that waker in the slot: it was called or replaced |
| AtomicWakers.OthersSatisfyRely | crates/px4-workqueue/src/atomic_waker.rs:60-128 | any run in which a thread does not move meets the interference contract used for that thread |
| AtomicWakers.StepKeepsInv | crates/px4-workqueue/src/atomic_waker.rs:60-128 | every atomic operation of every thread keeps the protocol's invariant |
| AtomicWakers.AtomicWaker.TryOwn | crates/px4-workqueue/src/atomic_waker.rs:61-67 | the opening compare-exchange of `register` is the system's step and reports the word it saw |
| AtomicWakers.AtomicWaker.TakeOut | crates/px4-workqueue/src/atomic_waker.rs:113-128 | the owner empties the slot and holds what was in it |
| AtomicWakers.AtomicWaker.Register | crates/px4-workqueue/src/atomic_waker.rs:60-103 | under interference, the thread makes the compare-exchange and the operations that complete it and no other; the waker is refused exactly if another registration held the slot at the compare-exchange, and otherwise was called or lies in a slot at rest on return; the call takes at most six operations |
| AtomicWakers.AtomicWaker.Take | crates/px4-workqueue/src/atomic_waker.rs:113-128 | under interference, in the state of the run in which its fetch-or was made: finding the word at rest it takes out exactly the waker stored then, otherwise it returns none and does nothing more |
| AtomicWakers.AtomicWaker.Wake | crates/px4-workqueue/src/atomic_waker.rs:106-110 | one `take` and the call of what it took; a waker found in a slot at rest at the fetch-or has been called on return |
| Cells.LifeCycle | crates/px4-workqueue/src/cell.rs:80-188 | in every run whose respawns find nothing pending the future is polled only between its write and its drop and never after Ready, every write but a live one is matched by one drop, and a spawn during a life changes nothing |
| Cells.StaleRunsTouchNothing | crates/px4-workqueue/src/cell.rs:156-161 | from a finished life, any wakes, queued entries and runs before the next spawn poll nothing, drop nothing and leave future slot and handle as they are |
| Cells.OnePendingRun | crates/px4-workqueue/src/waker.rs:28-40 | SPAWNED with RUN_QUEUED means exactly one queue entry, run taken off or thread about to schedule; SPAWNED alone means none of these and a non-null handle |
| Cells.WakeIsFollowedByRun | crates/px4-workqueue/src/waker.rs:28-40 | after a wake that found SPAWNED the system cannot come to rest without a run begun later, except for a spawn whose allocation fails |
| Cells.PendingIsUsedByARun | crates/px4-workqueue/src/cell.rs:156-161 | a pending run disappears only into the start of a run or a failed allocation |
| Cells.RespawnIsSafeIffNothingPending | crates/px4-workqueue/src/cell.rs:86-100 | all continuations of a respawn whose later spawns obey the same condition are faultless if and only if nothing was pending at its compare-exchange |
| Cells.LeftoverRunFaults | crates/px4-workqueue/src/cell.rs:86-100 | with a leftover pending there is a run that polls the slot before the new future is written |
| Cells.LastPollCanLeaveAnEntry | crates/px4-workqueue/src/cell.rs:177-187 | a wake during the last poll leaves the cell free to respawn with an entry still queued |
| Cells.RespawnFaultsFromNewCell | crates/px4-workqueue/src/cell.rs:86-100 | a run from a new cell, careful up to its last spawn, ends with the unwritten slot being polled |
| Cells.RespawnSucceedsIffNoStaleWake | crates/px4-workqueue/src/waker.rs:28-40 | the compare-exchange on a finished cell succeeds if and only if no wake came after the last begun run |
| Cells.StaleWakeBlocksForever | crates/px4-workqueue/src/waker.rs:32-34 | once a stale wake found nothing pending, every later spawn in every run is Busy |
| Cells.OneWakeBlocks | crates/px4-workqueue/src/waker.rs:32-34 | any wake of a finished cell at rest leads to that state |
| Cells.NewCellCanBeBlocked | crates/px4-workqueue/src/waker.rs:28-40 | a run from a new cell after which it can never be spawned again |
| Cells.StepKeepsInv | crates/px4-workqueue/src/cell.rs:80-188 | every atomic operation of spawns, wakes and runs keeps the cell's invariant |
| Cells.OthersSatisfyRely | crates/px4-workqueue/src/cell.rs:80-188 | runs in which a thread (or the dispatcher) stands still meet its interference contract |
| Cells.WorkItemCell.TrySpawn | crates/px4-workqueue/src/cell.rs:80-129 | for any history: Busy if and only if the word was not 0 at the compare-exchange, and then nothing else is done; AllocFailed only for a refused first work item, with the cell given back; the steps made are stated; after careful spawns Ok means one queue entry and a live future |
| Cells.WorkItemCell.BindWorkItem | crates/px4-workqueue/src/cell.rs:104-119 | reuses the handle, or allocates and stores one; failure, only if refused, leads to the roll-back |
| Cells.WorkItemCell.PollOnce | crates/px4-workqueue/src/cell.rs:156-188 | the dispatcher polls if and only if the fetch-and found SPAWNED, drops the future and stores 0 if and only if it finished, and does nothing else; after careful spawns the poll and the drop find the future they need |
| Cells.WorkItemCell.WakeByRef | crates/px4-workqueue/src/waker.rs:28-40 | the fetch-or, and the load and the schedule if and only if it found SPAWNED without RUN_QUEUED, and nothing else; after careful spawns the handle it loads is never null |
| Parking.ParkedTaskHasNothingToDo | crates/px4-workqueue/src/notify.rs:90-102 | for the shared pattern: a task parked in a quiescent system has nothing to do, and its waker lies in a slot at rest |
| Parking.StepKeepsInv | crates/px4-workqueue/src/channel.rs:193-236 | every step of task, signalling threads, stray wakes and dispatcher keeps "parked implies armed" |
| Parking.WakeNotifies | crates/px4-workqueue/src/atomic_waker.rs:106-128 | a wake that begins on an armed task puts a run on its way |
| Parking.RegistrationArms | crates/px4-workqueue/src/atomic_waker.rs:60-103 | a registration that comes to its end has armed the task, whatever wakes raced with it |
| Parking.OthersSatisfyRely | crates/px4-workqueue/src/channel.rs:193-236 | any run of the pattern in which a thread does nothing leaves its place, its signal and, for the task, its run and its progress alone |
| Parking.WakeChain.Register | crates/px4-workqueue/src/atomic_waker.rs:60-103 | under interference at the grain of slot and cell, the task makes exactly one registration, what completes it (including a `wake_by_ref` of its own cell) and the return |
| Parking.WakeChain.Wake | crates/px4-workqueue/src/atomic_waker.rs:106-128 | under interference, the caller makes exactly one `wake`: fetch-or, slot operations, and the `wake_by_ref` of the task; it owes no signal on return |
| Parking.WakeChain.CallWaker | crates/px4-workqueue/src/waker.rs:28-40 | a waker taken from the slot sets RUN_QUEUED and, if that found SPAWNED alone, loads a non-null handle and queues the task |
| Ring.RefinesFifo | crates/px4-workqueue/src/channel.rs:114-148 | at atomic-step grain received values are a prefix of sent ones, at most N apart, the slot written is empty, the slot read holds the next value, and the two are never the same slot |
| Ring.WrapBreaksFifo | crates/px4-workqueue/src/channel.rs:114-148 | for every capacity not dividing the counter range some run receives a value out of order |
| Ring.FifoIffCapacityDividesRange | crates/px4-workqueue/src/channel.rs:114-148 | every run is first in, first out if and only if the capacity divides the counter range |
| Ring.LenIsBoundedIffHeadHasNotPassed | crates/px4-workqueue/src/channel.rs:97-101 | `len` is at most N if and only if the head loaded second has not passed the tail loaded first, or has passed it by so much that the counters, modulo their range, do not show it |
| Ring.LenIsExactForProducer | crates/px4-workqueue/src/channel.rs:97-101 | asked by the producer, whatever the consumer does between the two loads, `len` is the number of unreceived values at the second load, at most N |
| Ring.LenIsExactForConsumer | crates/px4-workqueue/src/channel.rs:97-101 | asked by the consumer, it is that number at the first load |
| Ring.LenExceedsForOthersIff | crates/px4-workqueue/src/channel.rs:97-101 | from a new ring a run exists in which `len` returns more than N if and only if the counter range is larger than N + 1 |
| Ring.ChecksAreExact | crates/px4-workqueue/src/channel.rs:114-140 | on wrapped counters the full and empty checks tell exactly whether N values, or none, are unreceived |
| Ring.ConsumerSatisfiesRely | crates/px4-workqueue/src/channel.rs:134-148 | runs of the consumer alone meet the contract that the producer's code relies on |
| Ring.ProducerSatisfiesRely | crates/px4-workqueue/src/channel.rs:114-131 | runs of the producer alone meet the contract that the consumer's code relies on |
| Ring.Channel.Len | crates/px4-workqueue/src/channel.rs:97-101 | under interference of the other end, exact at one of its loads and never more than N |
| Ring.Channel.Drop | crates/px4-workqueue/src/channel.rs:170-179 | takes out every value still in the ring, each once and in order |
| Channels.ParkedEndsHaveNothingToDo | crates/px4-workqueue/src/channel.rs:193-236 | in a quiescent system a parked receiver faces an empty ring and a parked sender a full one |
| Channels.EndsAreNeverBothStuck | crates/px4-workqueue/src/channel.rs:193-236 | with at least one slot producer and consumer are never both parked in a quiescent system |
| Channels.ChannelIsFifo | crates/px4-workqueue/src/channel.rs:114-148 | the composed channel delivers in order under the ring's condition on wrap-around |
| Channels.RefinesParking | crates/px4-workqueue/src/channel.rs:193-236 | every step is a step, or none, of the sender's parking system and of the receiver's |
| ChannelEnds.Channel.TrySend | crates/px4-workqueue/src/channel.rs:114-131 | under interference, appends exactly the value if the ring had room when it looked, and on the consumer's side makes its condition true and after that wakes it; otherwise gives the value back and does nothing else |
| ChannelEnds.Channel.TryRecv | crates/px4-workqueue/src/channel.rs:134-148 | takes exactly the next value if there was one when it looked, and on the producer's side makes its condition true and after that wakes it; otherwise does nothing |
| ChannelEnds.Channel.Put | crates/px4-workqueue/src/channel.rs:128 | the store of `tail` appends the value, and in that same step uses up room and gives the consumer's task something to do |
| ChannelEnds.Channel.Take | crates/px4-workqueue/src/channel.rs:145 | the store of `head` hands the value over, and in that same step uses up an item and gives the producer's task room |
| ChannelEnds.Send.Poll | crates/px4-workqueue/src/channel.rs:193-215 | the task tries, and only if that finds no room registers and then tries again; Pending keeps the value, means that the ring was full at the second try and leaves the task Blocked in the system |
| ChannelEnds.Recv.Poll | crates/px4-workqueue/src/channel.rs:227-236 | the same for an item and an empty ring |
| ChannelEnds.OthersMeetContract | crates/px4-workqueue/src/channel.rs:114-236 | every run of the composed channel in which a thread does nothing is a run of both wake chains in which it does nothing, changes the ring only as the other end may, and leaves each task waiting for just what the ring can give |
| Notification.ParkedWaiterLeavesNoPermit | crates/px4-workqueue/src/notify.rs:90-102 | a waiter parked in a quiescent system implies no stored permit |
| Notification.CompletionsMatchNotifications | crates/px4-workqueue/src/notify.rs:62-102 | completions plus the stored permit equal the `notify` calls that found none stored, so they never exceed the calls |
| Notification.NotificationsCoalesce | crates/px4-workqueue/src/notify.rs:62-65 | any number of calls with no completion between leave exactly one permit |
| Notification.RefinesParking | crates/px4-workqueue/src/notify.rs:62-102 | every step is a step, or none, of the parking pattern |
| Notification.Notify.NotifyOne | crates/px4-workqueue/src/notify.rs:62-65 | the caller makes the condition true and after that exactly one `wake`, and nothing else; it owes no signal on return, and the permit is there unless a wait has completed since |
| Notification.Notify.Poll | crates/px4-workqueue/src/notify.rs:90-102 | the task swaps, and only if that finds no permit registers and then swaps again; it completes exactly if it takes a permit, and Pending leaves it Blocked in the system |
| Notification.OthersMeetContract | crates/px4-workqueue/src/notify.rs:62-102 | every run of the composed system in which a thread does nothing is a run of the parking pattern in which it does nothing, and treats permit and counters as the class assumes |
| Scheduler.QueueNeverExceedsCells | crates/px4-workqueue/src/ffi.rs:69-109 | with K cells each has at most one pending run and the queue holds at most K entries |
| Scheduler.EntryIsDispatchedInTurn | crates/px4-workqueue/src/ffi.rs:69-88 | the entry at position i is dispatched after exactly the i before it, in their order, and i is at most K - 1 |
| Scheduler.FrontEntryCanBeTaken | crates/px4-workqueue/src/ffi.rs:78-83 | an idle dispatcher with a non-empty queue is never blocked by the cell at the front |
| Scheduler.YieldGoesBehindTheQueue | crates/px4-workqueue/src/yield_.rs:74-92 | over all runs, with the self-wake anywhere and anything interleaved: the task resumes only after everything queued if and only if it is not queued itself ahead of something else |
| Scheduler.YieldResumes | crates/px4-workqueue/src/yield_.rs:74-92 | a task in its poll that no wake has reached is not queued, so the above holds of it; after its self-wake it is dispatched, or still queued or about to be, in every run |
| Scheduler.QueuedSelfWakeChangesNothing | crates/px4-workqueue/src/yield_.rs:74-92 | a self-wake of a task queued already changes nothing, so it resumes at the place of its earlier entry |
| Scheduler.OwedUntilDispatched | crates/px4-workqueue/src/ffi.rs:69-109 | a pending run of a cell does not vanish without a dispatch of the cell |
| Scheduler.ScheduledIsServedWithinBound | crates/px4-workqueue/src/ffi.rs:106-109 | an entry is dispatched after exactly the entries queued before it, at most K - 1 |
| Scheduler.WakeIsServed | crates/px4-workqueue/src/waker.rs:28-40 | after a wake that found the cell spawned and not queued, the cell is dispatched in every run that comes to rest |
| Scheduler.YieldNow.Poll | crates/px4-workqueue/src/yield_.rs:74-92 | the first poll makes one `wake_by_ref` of the task's own cell and is Pending; it schedules the cell exactly if it was not queued; later polls are Ready and make no step |
| Scheduler.Dispatcher.ScheduleNow | crates/px4-workqueue/src/ffi.rs:106-109 | appends one entry for a cell that had none; the queue stays within K |
| Scheduler.Dispatcher.TakeNext | crates/px4-workqueue/src/ffi.rs:78-83 | removes the oldest entry; its cell was at rest and has no other entry |
| Uorb.ParkedReceiverIsUpToDate | crates/px4-uorb/src/sub.rs:156-167 | in every interleaving of publishers, receiver and dispatcher: a receiver parked in a quiescent system has seen the latest generation, and the last payload delivered is the last one written |
| Uorb.RefinesParking | crates/px4-uorb/src/ffi.rs:204-272 | every step of the broker, its publishers and the receiver is a step, or none, of the parking pattern |
| Uorb.StepKeepsInv | crates/px4-uorb/src/ffi.rs:171-403 | every critical section and every task step keeps the composed invariant |
| Uorb.DeliveriesAreFresh | crates/px4-uorb/src/ffi.rs:342-365 | a delivery that observed generation `cur` carries the payload of the `cur`-th write or a later one, and deliveries never go back |
| Uorb.LossesAreConserved | crates/px4-uorb/src/ffi.rs:342-373 | in every run deliveries, drained losses and pending losses add up to `last_seen` if and only if no addition to the counter overflowed, and never exceed it; `last_seen` is at most `seq`, the completed increments of `advertise` and `publish` |
| Uorb.LossesCanOverflow | crates/px4-uorb/src/ffi.rs:346-355 | a run from a new system in which the counter overflows and the account falls short |
| Uorb.AccountBalancesIffCounterHasRoom | crates/px4-uorb/src/ffi.rs:346-355 | one delivery keeps that account if and only if the 32-bit counter has room for what it skipped |
| Uorb.NewSubscriptionHasEmptySlot | crates/px4-uorb/src/sub.rs:56-67 | when a subscription is made no call on an earlier one's waker is under way, and the new slot is empty |
| Uorb.SubscriptionOutlivesDispatch | crates/px4-uorb/src/ffi.rs:234-272 | while a publisher dispatches, no other thread registers or unregisters the subscription, it cannot be dropped, and no other publisher dispatches |
| Broker.OthersMeetContract | crates/px4-uorb/src/ffi.rs:171-403 | every run of the composed system in which a thread does nothing leaves history, lock, share, handle and subscription as the classes assume, and is a run of its wake chain in which the thread does nothing |
| Broker.TopicState.Notify | crates/px4-uorb/src/ffi.rs:234-272 | with the list locked every listed callback is called, as often as it is listed; for the subscribed task that is one `wake`, after which no signal is owed |
| Broker.TopicState.Generate | crates/px4-uorb/src/ffi.rs:204-226 | copy, count, dispatch in that order: the payload is written, then counted, and only then is the list locked and called; towards the subscribed task the condition is made true and then signalled |
| Broker.TopicState.CallAll | crates/px4-uorb/src/ffi.rs:234-272 | the dispatch loop calls every entry of the frozen list once per listing |
| Broker.Subscription.EnsureRegistered | crates/px4-uorb/src/sub.rs:71-91 | afterwards the callback is listed; a second call changes nothing |
| Broker.Subscription.CopyOut | crates/px4-uorb/src/ffi.rs:346-360 | adds what was skipped to the losses, copies the current data and remembers the generation |
| Broker.Subscription.Update | crates/px4-uorb/src/ffi.rs:342-365 | under interference, delivers exactly if the sequence it read is ahead, and then the data as of a moment no earlier |
| Broker.Subscription.TryRecv | crates/px4-uorb/src/sub.rs:95-111 | registers on first use, then as above, keeping the delivery history in order and the losses balanced |
| Broker.Subscription.Poll | crates/px4-uorb/src/sub.rs:156-167 | the task tries, and only if that finds nothing registers and then tries again; Pending means that the sequence number was not ahead at that second read and leaves the task Blocked in the system |
| Broker.Subscription.TryRecvBytes | crates/px4-uorb/src/raw.rs:240-252 | a short buffer is refused before anything is registered; otherwise exactly the first `o_size` bytes are overwritten |
| Broker.Subscription.MissedCount | crates/px4-uorb/src/raw.rs:275-284 | returns the pending losses and clears them; 0 before the first use |
| Broker.Subscription.Drop | crates/px4-uorb/src/ffi.rs:375-403 | the callback is gone from the list and no other entry is |
| Broker.Publication.EnsureAdvertised | crates/px4-uorb/src/pub_.rs:103-125 | on return a handle is installed and the caller carries none; every share is the installed one or in one thread's hands |
| Broker.Publication.Install | crates/px4-uorb/src/pub_.rs:110-123 | the winner's share becomes the handle, a loser's share is reclaimed |
| Broker.Publication.Publish | crates/px4-uorb/src/pub_.rs:128-139 | the sample is written, a generation is counted after that, and the signal follows; a call that had to advertise makes two generations; undisturbed, the first call makes two generations and later ones one |
| Broker.Publication.PublishBytes | crates/px4-uorb/src/raw.rs:146-160 | refused if and only if the length is wrong, and then nothing changes |
| Broker.Publication.Unadvertise | crates/px4-uorb/src/pub_.rs:94-101 | the installed share is reclaimed once, and only shares that other threads carry are left |
| MsgModel.ScalarTokensRoundTrip | crates/px4-msg-codegen/src/model.rs:52-85 | `px4_name` and `parse` are inverse to each other |
| Parser.ParseText | crates/px4-msg-codegen/src/parser.rs:36-149 | the line loop with its early returns computes the recursive parse, errors and their line numbers included |
| Parser.BuildSnake | crates/px4-msg-codegen/src/model.rs:135-154 | the loop computes the snake-case name defined letter by letter |
| Parser.ParsedFieldsAreWellFormed | crates/px4-msg-codegen/src/parser.rs:36-185 | whatever the text, a parsed message has its given name and only well-formed fields |
| Parser.TypeTokenRoundTrips | crates/px4-msg-codegen/src/parser.rs:151-185 | parsing a printed type gives the type back |
| Parser.FieldLineRoundTrips | crates/px4-msg-codegen/src/parser.rs:36-128 | parsing a printed field line gives the field back |
| Parser.PrintedFieldsRoundTrip | crates/px4-msg-codegen/src/parser.rs:36-149 | printing a well-formed field list as lines and parsing the text gives that list and nothing else |
| Flatten.MessageHashFields | crates/px4-msg-codegen/src/layout.rs:154-174 | the loop with its recursive splices appends exactly the flattened string, or returns the first error |
| Flatten.FlatIsInjective | crates/px4-msg-codegen/src/layout.rs:154-174 | under one acyclic directory equal flattened strings mean equal field lists, nested splices included |
| Flatten.HashInputDeterminesFields | crates/px4-msg-codegen/src/layout.rs:148-174 | so for definitions parsed from any two texts |
| Fnv.Fnv1a | crates/px4-msg-codegen/src/layout.rs:21-28 | the loop computes the fold of the hash step, within 32 bits |
| Fnv.StepIsInjective | crates/px4-msg-codegen/src/layout.rs:24-26 | for a fixed byte different 32-bit states stay different |
| Fnv.ByteMatters | crates/px4-msg-codegen/src/layout.rs:24-26 | for a fixed state different bytes give different states |
| Fnv.OneByteNeverCollides | crates/px4-msg-codegen/src/layout.rs:21-28 | inputs of one length that differ in exactly one byte never collide |
| Layout.SortIsStable | crates/px4-msg-codegen/src/layout.rs:80-88 | the sort is a permutation into non-increasing element size that keeps the order of equal keys |
| Layout.StableOrderIsUnique | crates/px4-msg-codegen/src/layout.rs:86-88 | there is only one such order, so any stable sort gives it |
| Layout.LayoutShape | crates/px4-msg-codegen/src/layout.rs:86-125 | emitted real fields are the declared ones in that order, the size is a multiple of 8, and at most one padding, shorter than 8 bytes, is inserted however many messages are nested |
| ReprC.LayoutMatchesC | crates/px4-msg-codegen/src/emit.rs:83-98 | for every message that can be laid out, the C size of the emitted struct is the computed one and the compiler inserts no byte of its own at any depth, so the emitted assertion holds |
| ReprC.FieldAgrees | crates/px4-msg-codegen/src/layout.rs:197-204 | the size given to a field is the C size of its type, and a scalar's alignment is its element size |
| ReprC.PlacedMatchesC | crates/px4-msg-codegen/src/layout.rs:94-125 | from any position aligned for what is left, the running offsets of the layout are those of the compiler |
| Resolvers.Resolver.LayoutByName | crates/px4-msg-codegen/src/layout.rs:69-76 | a cached name gives what is cached; from any correct cache the result is that of the cache-free layout, errors included, and the cache stays correct even then |
| Resolvers.Resolver.FieldTotalSize | crates/px4-msg-codegen/src/layout.rs:197-204 | the same for the size of one field |
| Resolvers.Resolver.Layout | crates/px4-msg-codegen/src/layout.rs:80-140 | for any definition, from a correct cache, the loops compute the cache-free layout; the cache is correct afterwards if and only if there was an error or the definition agrees with the one its name resolves to |
| Resolvers.Resolver.HashOf | crates/px4-msg-codegen/src/layout.rs:148-152 | the hash of the flattened string of the declared, unsorted fields |
| Resolvers.AgreesIffSameLayout | crates/px4-msg-codegen/src/layout.rs:127-139 | a definition has the layout its name resolves to if and only if it agrees with that one in snake-case name, constants, topics, sorted fields and hash |
| Resolvers.LayoutIgnoresBound | crates/px4-msg-codegen/src/layout.rs:80-140 | a layout depends on the directory alone, not on how its recursion is bounded |
| Resolvers.RootResolvesToItself | crates/px4-msg-codegen/src/layout.rs:69-76 | a root that is what its name resolves to agrees with it |
| Resolvers.StaleRootSpoilsCache | crates/px4-msg-codegen/src/layout.rs:138-139 | laying out a root that is not what its name resolves to makes `layout_by_name` return a layout for a name that has none |

## Left out

- Weak memory: all atomic operations are sequentially consistent; the acquire and release orders are not modelled.
- Lock poisoning, panics other than the absence of the two debug assertions' failure, and `_reset_broker`.
- crates/px4-workqueue/src/timer.rs and hrt.rs: completion there rests on the callout not firing between arming and the store of ARMED, which the code does not enforce.
- The foreign PX4 backends (`real` modules, crates/px4-sys), procedural macros, token building in emit.rs, crates/px4-log, xtask, examples and the repository's tests.
- Vtable plumbing of wakers: cloning and comparing `Waker` values; a waker is the number of the registration that passed it.
- Later lives of a cell are covered at atomic-step grain for runs in which each respawn finds nothing pending; without that the life cycle fails, as `Cells.RespawnIsSafeIffNothingPending` states.
- Cell, parking, channel, notify and uORB systems count the queue entries of their own cell; the order between cells is the subject of module Scheduler only.
- Ring.Channel.Drop: the wakes that its `try_recv` calls make are left out; the channel is borrowed exclusively, so no task is parked on it.
- Uorb.ParkedReceiverIsUpToDate: one task with one subscription at a time, over any number of lives and subscriptions; other subscribers of the topic appear only in `Broker.TopicState`, whose list may hold any number.
- Payloads in the composed uORB system have no size; the classes of module Broker carry it.
- The classes of module Broker see a topic together with one subscribed task; entries of others in the callback list are called without modelling what their wakers do.
- Uorb.DeliveriesAreFresh: the 64-bit sequence number is unbounded, so its overflow is not modelled.
- Publishing concurrently with `unadvertise` or `Drop` of the same `Publication`: the code does not keep the handle alive there, so what the other calls assume of other threads excludes it.
- Broker.Publication.Publish: `ffi::publish` of the in-process broker always returns 0, so the error `Failed` does not occur; the instance number of `advertise_multi` is not modelled.
- The broker's map from topic name to topic, topic sizes that differ for one name, minimum intervals and instances.
- Nesting cycles: the resolver would not terminate on them; all layout and hash results assume an acyclic directory.
- Files, paths and I/O errors: the search path is a finite map, and a name is resolved in it once.
- Overflow of `usize` in message sizes, and targets whose 8-byte scalars are not 8-byte aligned.
- Texts are sequences of Unicode scalar values and the hash runs over their UTF-8 bytes; input that is not UTF-8 (an I/O error of the source) is not modelled.
- Parser.ParseText: syntax errors carry their line number and a kind, not the wording of the message.
- Emitted constants, topic names and metadata beyond what the parser stores; `rust_type_for` and identifier sanitising.
