# CxxFiber: scheduling, hand-off and timing, verified

CxxFiber runs many fibers on a few threads. This project models the parts of it
where the order of steps matters and proves what they promise:

* **Run queue** (`QueueMachine`, `QueueInvariant`, `AtomicFifo`,
  `QueueRefinement`, `QueueRuns`, and the heap class in `RunQueue`). The
  two-lock linked queue, one step per lock, shared read and shared write, with
  any number of threads and queues, with fibers created and freed. Every run is,
  to its callers, a run of an atomic FIFO.
* **Blocker, mutex, channel** (`Blocker`, `BlockerRuns`, `Mutex`, `MutexRaces`,
  `Channel`, `ChannelRuns`, `ChannelRaces`). The token count with direct hand-off
  to parked fibers, timed waits that race with wake-ups, and the two objects
  built from it; where they fail, the failing runs.
* **Scheduler** (`JoinLoop`, `JoinInvariant`, `JoinRuns`, `JoinFibers`,
  `JoinActions`, `Scheduler` for `join()`; `Workers`, `WorkerAffinity`,
  `WorkerRuns`, `WorkerActions`, `WorkerWakes`, `UntimedRuns`, `WorkerRaces`,
  `YieldAfterGrant` and `Dispatch` for `join(n)`). Where each live fiber is, what
  each action and event does to it, when the loops may end, fairness, lost
  wake-ups, thread affinity, and the round-robin deal.
* **Event loop** (`Deadlines`, `TimerPass`, `TimerList`, `TimerRuns`,
  `FdTable`, `IoWaiter`). The timer list changed in place, deadline arithmetic
  in (seconds, milliseconds), the life of a timer, and the descriptor table with
  the kernel set it mirrors.

Objects of the program are classes whose methods are tied to functions on
values; state machines over those values carry the properties of whole runs. A
machine's state may hold history next to the program's own variables (what was
woken, granted, fired); its comments say which fields those are, and a lemma says
that they record what the steps did (`BlockerRuns.RecordIsTrue`,
`Mutex.HoldersAre`, `ChannelRuns.StepDelivers` and `LostIs`,
`TimerRuns.RecordIsTrue`).

Theorems about runs come in two kinds. Some hold for every run. The others hold
for every *careful* run: each step that is not careful breaks the invariant, and
no other does (`BlockerRuns.StepKeepsIff`, `Mutex.StepKeepsIff`,
`ChannelRuns.StepKeepsIff` and `StepCleanIff`, `WorkerRuns.StepKeepsIff`). There
are two careless steps, both conditions on the state just before them:

* a *yield by a fiber left marked*: a token granted by the scheduler at the
  swap-out leaves the fiber `BLOCKED`, and its next plain yield is taken for a
  wait;
* a *late look*: a thread that is to resume a fiber, after it popped it from a
  line or after its timer fired, looks at the fiber's state and finds it blocked
  although the fiber is not hung for that resumption, or another thread is
  resuming it already. In `ChannelRuns`, where no wait of the channel's own has a
  timer, a run with careful looks is called *timely*.

Without timers, and with swap-outs that park, as when all fibers share one
thread, every run is careful (`BlockerRuns.ParkingRunIsCareful`,
`Mutex.ParkingRunIsCareful`, `ChannelRuns.ParkingRunIsCareful`,
`UntimedRuns.UntimedIsCareful`).

## What turned out to be false

The code is modelled as it is. Some promises do not hold as stated; for each of
them lemmas say when it fails and exactly when it holds.

* A deadline computed for a negative delay can be an unnormalized pair
  (`Deadlines.NegativeDelayUnnormalized`, `Deadlines.DeadlineExact`).
* With an overdue timer the event loop can still sleep, up to 999 ms
  (`Deadlines.OverdueWaits`, `Deadlines.WaitIsGap`).
* Updating a descriptor sends the kernel the new mask alone but records the
  union (`FdTable.UpdateCanDisagree`, `FdTable.UpdateAgrees`).
* A descriptor too large for the table is counted by `setFileEvent` and never
  discounted by `delFileEvent`, so the waiter count stays up
  (`IoWaiter.CountComesBackIff`).
* A wake-up from outside the scheduler's thread, between a fiber's mark and its
  swap-out, leaves the fiber queued but marked BLOCKED; its own timer can then add
  it to the queue it stands in, and every fiber behind it is cut off
  (`JoinRuns.SwapOutAgreesIff`, `JoinRuns.TimerCutsOff`,
  `RunQueue.EFiberConcurrentQueue.Add`).
* With several workers the same grant makes the fiber's next plain yield park it
  on a blocker it no longer waits for, or take a token that no wait asked for
  (`YieldAfterGrant.YieldCanPark`, `YieldAfterGrant.YieldIsPlainIff`).
* Such a yield inside `tryRead` loses a channel's token: the read then spins for
  ever past an item in the queue (`ChannelRaces.ReadCanSpin`,
  `ChannelRaces.SpinsInPlace`, `ChannelRuns.StepCleanIff`).
* A thread that comes late to a fiber from a timed wait elsewhere resumes it in the
  middle of a channel's read, without a token: a channel without capacity keeps an
  item that nobody reads (`ChannelRaces.ReadCanComeEarly`), or a reader with its
  token finds the queue empty (`ChannelRaces.GrantedReaderCanMiss`,
  `ChannelRuns.StepKeepsIff`).
* Such a yield after an unlock loses a mutex for good, free of any holder
  (`MutexRaces.LockIsLost`, `MutexRaces.StuckForGood`).
* A wake-up that popped a fiber and looks at it only after the fiber's own timer
  resumed it can end the fiber's next wait without a token; a mutex then has two
  fibers inside (`MutexRaces.TwoInside`, `BlockerRuns.LookKeepsIff`).
* In `join(n)` a fiber granted at its swap-out and found by its worker can be
  queued again by its timer before it runs. When it has ended, its entry is still
  in the queue, its handle deleted (`WorkerRaces.EndedCanBeQueued`), and another
  worker can leave all the same (`WorkerRaces.ExitCanLeaveEntry`,
  `WorkerRuns.StepKeepsIff`).

The comment above `eco_poll_resize` speaks of descriptors at or above the size
minus one; the code refuses only those at or above the size, and the model
follows the code.

## Model

| member | source | states |
|---|---|---|
| QueueRuns.RunRefines | inc/EFiberUtil.hh:68-96 | every interleaving of add and poll steps, of any threads on any queues, looks to its callers like a run of an atomic FIFO that starts empty |
| QueueRuns.SafeRun | inc/EFiberUtil.hh:68-96 | no step of any run dereferences a node or handle that is gone, so each step has its defined outcome |
| QueueRuns.DeliveredInOrder | inc/EFiberUtil.hh:73-91 | at every point of a run the fibers taken by polls are a prefix of the fibers linked by the `tail->next` writes: each at most once and in that order |
| QueueRuns.NodesConserved | inc/EFiberUtil.hh:63-96 | at every point there are exactly as many nodes as queues and fibers |
| QueueRuns.HomeNode | inc/EFiberUtil.hh:91-95 | a polled fiber outside the queues carries its own handle in its node, shares the node with no other such fiber, and the node is no queue's head |
| QueueRefinement.StepRefines | inc/EFiberUtil.hh:68-96 | each step is exactly one step of the FIFO: the link write puts, the head write takes, everything else is a call, a return or nothing |
| QueueRefinement.EmptyMatches | inc/EFiberUtil.hh:82-88 | a poll that reads a null `next` reads it from a queue that is empty at that moment |
| QueueRefinement.NoDanglingAccess | inc/EFiberUtil.hh:68-96 | under the invariant every enabled step touches only what exists |
| QueueRefinement.StepKeeps | inc/EFiberUtil.hh:68-96 | every step keeps the chain, place, ownership and lock invariant, also when `head` has passed `tail` and a recycled dummy is the stale tail |
| RunQueue.EFiberConcurrentQueue.constructor | inc/EFiberUtil.hh:63-66 | a new queue is one dummy node and holds no fiber |
| RunQueue.EFiberConcurrentQueue.Add | inc/EFiberUtil.hh:68-76 | a fiber in no queue is last, in its own node, which carries its handle, and the others stay; one that stands in the queue already becomes last by cutting off all behind it, and the queue stays well formed if and only if it was not last before: then its node points to itself |
| RunQueue.EFiberConcurrentQueue.Poll | inc/EFiberUtil.hh:78-96 | the first fiber leaves with the old dummy, stamped with its handle, as its node; null exactly on an empty queue, which stays unchanged |
| RunQueue.Fiber.SwapIn | src/EFiber.cpp:197-203 | a hung fiber becomes RUNNABLE and goes once to the back of its bound queue; for any other fiber nothing changes |
| RunQueue.Fiber.IsWaitTimeout | src/EFiber.cpp:124-128 | returns the flag and clears it |
| RunQueue.Move | src/EFiberScheduler.cpp:454-462 | one dispatch move keeps both queues well formed and disjoint, their nodes the same set, and moves exactly the first fiber to the back |
| Blocker.EFiberBlocker.constructor | src/EFiberBlocker.cpp:28-33 | starts with the capacity as tokens, the limit and an empty line |
| Blocker.EFiberBlocker.BeginWait | src/EFiberBlocker.cpp:35-49 | takes a token and leaves the fiber alone, or leaves the blocker alone and marks the fiber BLOCKED on it |
| Blocker.EFiberBlocker.TryWait | src/EFiberBlocker.cpp:66-75 | true exactly when a token was there, which it takes |
| Blocker.EFiberBlocker.EndTimedWait | src/EFiberBlocker.cpp:103-109 | reads and clears the flag; false exactly when the flagged fiber was still in line, which it then leaves without disturbing the others |
| Blocker.EFiberBlocker.WakeUp | src/EFiberBlocker.cpp:130-158 | hands the token to the first in line, which is put in its own queue, or stores it, or at the limit does nothing and returns false |
| Blocker.EFiberBlocker.IsWaking | src/EFiberBlocker.cpp:160-164 | whether a token is stored |
| Blocker.EFiberBlocker.SwapOut | src/EFiberBlocker.cpp:166-175 | parks the fiber last in line, or takes a token for it that has come meanwhile and returns false |
| Blocker.WithoutIs | src/EFiberBlocker.cpp:103-104 | a fiber that leaves a line leaves the others in their order: the line up to it and the line behind it |
| Blocker.ParkedThenWoken | src/EFiberBlocker.cpp:130-175 | fibers that park behind a line are woken behind it in the order in which they parked, and nothing is left of them |
| Blocker.WakeUpsKept | src/EFiberBlocker.cpp:130-158 | with nobody in line, wake-ups are kept up to the limit |
| Blocker.TokensFound | src/EFiberBlocker.cpp:66-75 | exactly the tokens kept are found by later attempts, each once |
| Blocker.LateTokenTaken | src/EFiberBlocker.cpp:166-175 | a fiber about to be parked takes a token instead whenever there is one |
| BlockerRuns.TokensCounted | src/EFiberBlocker.cpp:35-175 | over every run: capacity plus accepted wake-ups is stored tokens plus those consumed by waits plus those taken for no wait; stored tokens stay within the limit and exist only while the line is empty |
| BlockerRuns.TokensConserved | src/EFiberBlocker.cpp:35-175 | over every careful run none is taken for no wait: capacity plus accepted wake-ups is stored plus consumed |
| BlockerRuns.HandedInOrder | src/EFiberBlocker.cpp:130-158 | of two fibers that parked, the later is never granted while the earlier is in line |
| BlockerRuns.TimedWaitTruthful | src/EFiberBlocker.cpp:77-109 | a timed wait returns true exactly when a token was consumed for it and false exactly when it leaves the line without one, whatever the race between timer and wake-up, over every careful run |
| BlockerRuns.GrantedIsAnswered | src/EFiberBlocker.cpp:130-158 | no wake-up is lost: a granted fiber that still hangs is about to be resumed by some thread |
| BlockerRuns.ImmediateGrantPassesNobody | src/EFiberBlocker.cpp:39-45 | over every run no arrival takes a token past a fiber in line |
| BlockerRuns.StepKeepsIff | src/EFiberBlocker.cpp:35-175 | a step keeps truthful grants, hand-off order and the agreement of line, parked and resumed fibers if and only if it is careful |
| BlockerRuns.LookKeepsIff | src/EFiber.cpp:197-203 | the look that follows a pop or a timer keeps them if and only if it finds the fiber not blocked, or due anyhow with nobody else resuming it |
| BlockerRuns.YieldKeepsIff | src/EFiberScheduler.cpp:573-580 | a plain yield keeps them if and only if the fiber is not left marked |
| BlockerRuns.RunKeepsIff | src/EFiberBlocker.cpp:35-175 | a run keeps the protocol in all its states if and only if all its steps are careful |
| BlockerRuns.TimelessCareful | src/EFiberBlocker.cpp:130-158 | a run without timers and without late wake-ups of other waits, in which no marked fiber yields, is careful: pop and resumption may lie as far apart as they like |
| BlockerRuns.ParkingRunIsCareful | src/EFiberScheduler.cpp:573-580 | if also every swap-out parks, nobody is left marked and the run is careful |
| BlockerRuns.RecordIsTrue | src/EFiberBlocker.cpp:35-175 | the counts and tickets that the theorems speak of are what the steps did: accepted wake-ups, tokens consumed for waits and for none, and parkings, each at the end of the line |
| BlockerRuns.WaitParks | src/EFiberBlocker.cpp:77-99 | a wait without a token, up to its swap-out: off the thread, last in line, with its timer if it asked for one |
| BlockerRuns.WaitGoesOn | src/EFiberBlocker.cpp:39-45 | a wait with a token goes on at once for exactly that token |
| BlockerRuns.WakeResumes | src/EFiberBlocker.cpp:130-158 | pop, look and change of an undisturbed wake-up: the first in line is ready with its token, and nobody else is touched |
| BlockerRuns.TimerResumes | src/EIoWaiter.cpp:97-103 | those of an undisturbed timer: the fiber is ready, flagged and still in line |
| BlockerRuns.LateLookDoesNothing | src/EFiber.cpp:197-203 | a look at a fiber that is resumed already does nothing more |
| BlockerRuns.ResumeEnds | src/EFiberBlocker.cpp:101-109 | back from the yield the wait is over, the flag it read is cleared, and the line is the one the fiber has left in order |
| Mutex.EFiberMutex.constructor | src/EFiberMutex.cpp:17-18 | one token, at most one |
| Mutex.EFiberMutex.BeginLock | src/EFiberMutex.cpp:20-22 | takes the token or marks the fiber BLOCKED on the mutex |
| Mutex.EFiberMutex.TryLock | src/EFiberMutex.cpp:28-30 | true exactly when the token was free |
| Mutex.EFiberMutex.Unlock | src/EFiberMutex.cpp:36-38 | one wake-up of the blocker |
| Mutex.EFiberMutex.IsLocked | src/EFiberMutex.cpp:44-46 | true exactly when no token is stored |
| Mutex.Exclusion | src/EFiberMutex.cpp:20-46 | over every careful run mixing lock, tryLock, timed tryLock and unlock by the holder: at most one holder, counting one handed the lock in its sleep, and locked exactly when there is one |
| Mutex.ReturnsToHolder | src/EFiberMutex.cpp:20-34 | a lock call that returns true from its sleep returns to the one holder; one that returns false got no token |
| Mutex.UnlockSucceeds | src/EFiberMutex.cpp:36-38 | over every careful run the holder's unlock is never refused: the lock becomes free, or belongs to the first fiber in line |
| Mutex.HoldersAre | src/EFiberMutex.cpp:20-38 | the holders are what the steps did: a lock call that gets the token makes its fiber one, an unlock hands that on to the first in line or to nobody |
| Mutex.StepKeepsIff | src/EFiberMutex.cpp:17-46 | a step keeps free token plus holders at one, and every fiber granted in its sleep a holder, together with the blocker's protocol, if and only if it is careful |
| Mutex.RunOfBlocker | src/EFiberMutex.cpp:17-46 | a run of a mutex is a run of its blocker |
| Mutex.ParkingRunIsCareful | src/EFiberMutex.cpp:20-46 | plain lock, tryLock and unlock, without late wake-ups and with swap-outs that park, make careful runs only |
| MutexRaces.TwoInside | src/EFiberBlocker.cpp:133-157 | a run in which a late resumption lets a second fiber in beside the holder |
| MutexRaces.LateCareless | src/EFiber.cpp:197-203 | the first step of that run that is not careful is the late look |
| MutexRaces.LockIsLost | src/EFiberScheduler.cpp:573-580 | a run in which a marked fiber's yield leaves the mutex locked with no holder and all fibers running |
| MutexRaces.LostCareless | src/EFiberScheduler.cpp:573-580 | the only step of that run that is not careful is the yield |
| MutexRaces.StuckForGood | src/EFiberMutex.cpp:20-46 | no step of any fiber or thread leads out of that |
| Channel.EFiberChannel.constructor | inc/EFiberChannel.hh:27-28 | writer tokens are the capacity, no reader token, no item |
| Channel.EFiberChannel.PostRead | inc/EFiberChannel.hh:31-31 | wakes the writers' blocker once and touches nothing else of the channel |
| Channel.EFiberChannel.BeginRead | inc/EFiberChannel.hh:32-32 | waits on the readers' blocker only |
| Channel.EFiberChannel.PollData | inc/EFiberChannel.hh:33-33 | removes and returns the oldest item, or nothing from an empty queue |
| Channel.EFiberChannel.BeginWrite | inc/EFiberChannel.hh:37-37 | waits on the writers' blocker only |
| Channel.EFiberChannel.FinishWrite | inc/EFiberChannel.hh:38-39 | appends the item and wakes the readers' blocker once |
| Channel.EFiberChannel.TryReadTurn | inc/EFiberChannel.hh:44-52 | one turn of the loop: an item for a reader token, or giving up for a writer token, or a yield that changes nothing |
| Channel.EFiberChannel.TryWrite | inc/EFiberChannel.hh:55-61 | writes for a writer token, and without one changes nothing |
| Channel.EFiberChannel.IsEmpty | inc/EFiberChannel.hh:63-65 | true exactly when no reader token is stored |
| ChannelRuns.RunKeeps | inc/EFiberChannel.hh:27-61 | in every state of a timely run: writer tokens, writes on their way, reader tokens and lost tokens match capacity plus waiting reads; every reader token has its item; written is delivered plus queued; the lines are the parked fibers; each fiber handed a token has one thread to resume it |
| ChannelRuns.StepKeepsIff | inc/EFiberChannel.hh:30-61 | every step of read, write, tryRead and tryWrite, of wake-ups, and of yields and waits elsewhere keeps that, except exactly a look that finds a fiber blocked that was not handed a token or that another thread is resuming |
| ChannelRuns.StepCleanIff | inc/EFiberChannel.hh:48-48 | a step keeps the channel in order, without lost tokens and without fibers parked where they do not wait, if and only if it is neither a late look nor a yield by a fiber left marked that the scheduler takes for a wait here or parks elsewhere |
| ChannelRuns.PromptRunIsTimely | src/EFiberBlocker.cpp:130-158 | without late resumptions from waits elsewhere every run is timely, however far pop, look and change of a wake-up lie apart |
| ChannelRuns.ParkingRunIsCareful | src/EFiberScheduler.cpp:573-580 | if also all swap-outs park, every run is careful |
| ChannelRuns.WaitingReadIsServed | inc/EFiberChannel.hh:30-53 | over every timely run a read that waits while neither blocker has a token implies a write on its way or a lost token |
| ChannelRuns.HandedIsAnswered | src/EFiberBlocker.cpp:130-158 | over every timely run a fiber handed a token and not yet resumed is about to be resumed by some thread |
| ChannelRuns.DeliveryIsPrefix | inc/EFiberChannel.hh:30-53 | at every point of every run readers have received a prefix of the values that the write and tryWrite steps were called with, in the order in which their fibers added them, and the queue holds the rest |
| ChannelRuns.StepDelivers | inc/EFiberChannel.hh:33-38 | a step adds exactly the value its fiber was called with behind all others, or hands out the first, or leaves the values alone |
| ChannelRuns.LostIs | inc/EFiberChannel.hh:42-53 | a token is lost exactly by a yield that takes it or by a wake-up of a fiber that does not wait there |
| ChannelRuns.WriteStores | inc/EFiberChannel.hh:36-40 | a write with a token and no reader parked moves one token to the readers and its value to the end of the queue |
| ChannelRuns.ReadTakes | inc/EFiberChannel.hh:30-34 | a read with a token, an item and no writer parked gives the token back and has the first value |
| ChannelRuns.TryReadTakes | inc/EFiberChannel.hh:42-53 | so does tryRead |
| ChannelRuns.TryWriteIff | inc/EFiberChannel.hh:55-61 | tryWrite goes on to add its value if there is a token, and changes nothing if there is none |
| ChannelRuns.ReadParks | inc/EFiberChannel.hh:32-32 | a read without a token is parked last in the reader's line |
| ChannelRuns.WriteParks | inc/EFiberChannel.hh:37-37 | a write without a token is parked last in the writer's line, with its value |
| ChannelRuns.HandedGoesOn | src/EFiber.cpp:197-203 | the look and the change of a fiber handed a token make it go on with what it waited for, and touch nobody else |
| ChannelRuns.LateLookDoesNothing | src/EFiber.cpp:197-203 | a look at a fiber that is resumed already does nothing more |
| ChannelRuns.GrantedReaderFindsItem | inc/EFiberChannel.hh:32-33 | over every timely run a reader that got its token never finds the queue empty and receives the oldest item |
| ChannelRuns.Occupancy | inc/EFiberChannel.hh:27-40 | over every timely run items never exceed the capacity plus the reads in progress |
| ChannelRuns.NeverBothParked | inc/EFiberChannel.hh:42-53 | over every careful run a waiting reader that finds neither kind of token implies a write on its way |
| ChannelRuns.ParkedMeansNoToken | inc/EFiberChannel.hh:30-40 | over every careful run a reader and a writer are both parked only while a write is on its way |
| ChannelRuns.WakeUpsAccepted | inc/EFiberChannel.hh:30-61 | over every timely run, with capacity plus fibers within the counter's range, none of the channel's own wake-ups is refused |
| ChannelRuns.NotEmptyHasItem | inc/EFiberChannel.hh:63-65 | over every timely run a channel that does not call itself empty holds an item |
| ChannelRuns.TryReadFalseIsNeutral | inc/EFiberChannel.hh:42-48 | over every careful run a tryRead brings exactly one token at its start and, returning false, takes exactly one back |
| ChannelRuns.TryReadTurnMovesNone | inc/EFiberChannel.hh:44-48 | its turns in between, careful yields included, move no token and leave both blockers and the queue as they are |
| ChannelRaces.ReadCanSpin | inc/EFiberChannel.hh:42-53 | a run after which a tryRead waits with an item in the queue, no token at either blocker and no write on its way |
| ChannelRaces.SpinCareless | inc/EFiberChannel.hh:48-48 | the first step of that run that is not careful is the yield |
| ChannelRaces.SpinsInPlace | inc/EFiberChannel.hh:44-52 | from there each turn of the loop leads back to where it began |
| ChannelRaces.ReadCanComeEarly | src/EFiber.cpp:197-203 | a run after which a channel holds more items than capacity and reads in progress, with no token at either blocker |
| ChannelRaces.EarlyCareless | src/EFiber.cpp:197-203 | the first step of that run that is not careful is the late look |
| ChannelRaces.GrantedReaderCanMiss | inc/EFiberChannel.hh:32-33 | a run after which a reader with its token finds the queue empty |
| ChannelRaces.ThiefCareless | src/EFiber.cpp:197-203 | the first step of that run that is not careful is the late look |
| JoinRuns.EveryFiberHasItsPlace | src/EFiberScheduler.cpp:305-385 | at every loop head a live fiber is in the run queue exactly once and RUNNABLE, or BLOCKED in exactly one line, or WAITING for a timer still to fire or a descriptor; a timed-out fiber is still in one line at most |
| JoinRuns.TurnKeeps | src/EFiberScheduler.cpp:305-385 | one turn of the loop, with any events and any behaviour of the dispatched fiber, keeps the whole placement invariant |
| JoinRuns.RunKeeps | src/EFiberScheduler.cpp:364-385 | so does one dispatch up to and including the switch on the fiber's state |
| JoinRuns.SwapOutAlwaysParks | src/EFiberScheduler.cpp:370-376 | with wake-ups made by fibers only, the branch that queues the fiber again after an immediate grant is never taken |
| JoinRuns.SwapOutAgreesIff | src/EFiberScheduler.cpp:370-376 | if other threads store tokens before the swap-out, states and places agree afterwards if and only if none came |
| JoinRuns.TimerCutsOff | src/EFiberScheduler.cpp:373-374 | after such a grant the fiber is queued and hung, and its own timer, firing while others stand behind it, cuts all of them off the queue |
| JoinRuns.EventsEnqueueOnce | src/EFiber.cpp:197-203 | while no queued fiber is hung, any list of timers and descriptors that fire appends to the queue exactly the hung fibers they hit, once each |
| JoinRuns.EventsWake | src/EFiberScheduler.cpp:313-335 | no event is missed: a fiber that hangs at a loop head and is hit by an event of the coming turn, idle or before a dispatch, is RUNNABLE after it, once in the queue, behind all that stood there |
| JoinRuns.ExitMeansDone | src/EFiberScheduler.cpp:313-329 | the loop ends if and only if every fiber has terminated, and then no line, timer or descriptor is left |
| JoinRuns.IdleMeansHung | src/EFiberScheduler.cpp:313-325 | with an empty queue and a positive count some fiber is hung |
| JoinRuns.NothingMissed | src/EFiberScheduler.cpp:331-335 | with no waiters there is no event that could change anything, so skipping the look is harmless |
| JoinRuns.Fairness | src/EFiberScheduler.cpp:312-385 | the next turns dispatch exactly the queued fibers in queue order whatever is woken, yields or is scheduled meanwhile: each other fiber at most once before a queued one, within as many turns as there are live fibers |
| JoinFibers.NobodyIsDropped | src/EFiberScheduler.cpp:130-137 | at every loop head the fibers are exactly those scheduled before join() and those scheduled by the actions performed since; the loop ends if and only if each of them has terminated |
| JoinFibers.ScheduleIs | src/EFiberScheduler.cpp:131-137 | a new fiber is counted, RUNNABLE and last in the queue, and nothing else changes |
| JoinActions.GivesUpIff | src/EFiberScheduler.cpp:349-357 | a fiber gives up the thread by a yield, a sleep, a wait for descriptors, or a wait on a blocker without tokens, and by nothing else |
| JoinActions.YieldGoesLast | src/EFiberScheduler.cpp:366-371 | a yield puts the fiber last in the queue, whatever was to come after it |
| JoinActions.EndLeaves | src/EFiberScheduler.cpp:377-381 | a fiber that ends is no longer counted and in no queue |
| JoinActions.WaitParks | src/EFiberBlocker.cpp:77-99 | a wait without a token puts the fiber last in the line, with a timer of its own if one was asked for |
| JoinActions.WaitTakes | src/EFiberBlocker.cpp:39-45 | a wait or an attempt with a token takes it, and the fiber goes on |
| JoinActions.SleepHangs | src/EFiber.cpp:146-152 | a sleep or a wait for descriptors leaves the fiber hung with timer and descriptors registered for it |
| JoinActions.WakeHands | src/EFiberBlocker.cpp:130-158 | a wake-up takes the first off the line, and it is RUNNABLE and once in the queue, last if it still hung |
| JoinActions.WakeKept | src/EFiberBlocker.cpp:136-146 | with nobody in line the token is kept, up to the limit |
| JoinActions.TimerWakes | src/EIoWaiter.cpp:97-103 | a timer that fires is disarmed, flags its fiber, and queues it if it hangs |
| JoinActions.ResumeGivesUp | src/EFiberBlocker.cpp:101-109 | back on the thread a fiber has cancelled its timer, given up its descriptors, left every line in order, and a timed wait has read the flag |
| JoinInvariant.WakeKeeps | src/EFiberBlocker.cpp:130-158 | a wake-up by the running fiber keeps every fiber in its place |
| JoinInvariant.FireKeeps | src/EIoWaiter.cpp:97-103 | so does a timer that fires, whatever its fiber is doing |
| JoinInvariant.ResumeKeeps | src/EFiberBlocker.cpp:101-109 | what a fiber does on its return from a yield gives up everything it had set up, and it ends in no line |
| Scheduler.EFiberScheduler.constructor | src/EFiberScheduler.cpp:118-128 | nothing queued, counted or set up |
| Scheduler.EFiberScheduler.Schedule | src/EFiberScheduler.cpp:130-137 | a new fiber is counted, RUNNABLE and last in the queue |
| Scheduler.EFiberScheduler.SwapIn | src/EFiber.cpp:197-203 | the resumption used by the invariant lemmas |
| Scheduler.EFiberScheduler.TimeEventProc | src/EIoWaiter.cpp:97-103 | the flag, then the resumption, for the timer's fiber |
| Scheduler.EFiberScheduler.OnceProcessEvents | src/EIoWaiter.cpp:56-60 | all events found are processed, in order |
| Scheduler.EFiberScheduler.WakeUp | src/EFiberBlocker.cpp:130-158 | one wake-up, with the resumption of the fiber it is handed to |
| Scheduler.EFiberScheduler.BeginWait | src/EFiberBlocker.cpp:77-99 | takes a token, or sets up the timer and marks the fiber |
| Scheduler.EFiberScheduler.WaitFor | src/EFiber.cpp:146-152 | timer and descriptors are registered and counted, and the fiber is WAITING |
| Scheduler.EFiberScheduler.Resume | src/EFiberBlocker.cpp:101-109 | timer cancelled, line left, descriptors and counts given back |
| Scheduler.EFiberScheduler.RunFiber | src/EFiberScheduler.cpp:349-357 | the fiber acts until something makes it yield, or terminates |
| Scheduler.EFiberScheduler.SwapOut | src/EFiberScheduler.cpp:364-385 | the switch on the fiber's state |
| Scheduler.EFiberScheduler.Join | src/EFiberScheduler.cpp:305-385 | the loop does one turn after another, from loop head to loop head, and when it leaves every fiber has terminated |
| WorkerRuns.ExitIsSafe | src/EFiberScheduler.cpp:507-528 | over every careful run, timed waits included: when a worker of join(n) is about to leave or has left, every fiber has terminated, all queues and lines are empty and no worker has a fiber |
| UntimedRuns.UntimedIsCareful | src/EFiberScheduler.cpp:502-592 | every run in which no fiber waits on a blocker with a timeout is careful, under every interleaving of the workers |
| WorkerRaces.ExitCanLeaveEntry | src/EFiberScheduler.cpp:507-528 | a run of two workers, with a timed wait and no node linked twice, in which one leaves while the queue of the other holds a fiber that has ended |
| WorkerRaces.EndedCanBeQueued | src/EFiberScheduler.cpp:573-584 | before that, with live fibers left, a fiber that has terminated and is no longer counted is still in a queue |
| WorkerRaces.FirstCareless | src/EFiber.cpp:197-203 | the first step of that run that is not careful is the look at the fiber on the worker's own thread |
| WorkerRuns.ZeroMeansDone | src/EFiberScheduler.cpp:131-131 | the counter is zero exactly when every fiber ever scheduled has terminated |
| WorkerRuns.ZeroIsStable | src/EFiberScheduler.cpp:582-585 | once zero, no step of any worker changes the counter or a fiber |
| WorkerRuns.StepKeepsIff | src/EFiberScheduler.cpp:502-592 | a step of any worker keeps each live fiber in exactly one place, its lines in order and the counter equal to the number of live fibers, if and only if it is careful: the look before a resumption finds a fiber that hangs, in no line unless it timed out there, and in nobody else's hand |
| WorkerRuns.CarefulIsLinked | inc/EFiberUtil.hh:68-76 | no step of a careful run adds a fiber that stands in a queue |
| WorkerWakes.NobodyIsForgotten | src/EFiberScheduler.cpp:566-590 | over every careful run a fiber that hangs is in a line, has a timer or descriptors set up, or is being resumed by a worker: no wake-up is lost |
| WorkerActions.LeavesIff | src/EFiberScheduler.cpp:507-528 | a worker with an empty queue leaves if and only if the counter stood at zero when it read it, and otherwise idles |
| WorkerActions.DispatchRuns | src/EFiberScheduler.cpp:510-555 | a worker dispatches the first of its queue, bound to it, with its waits taken down |
| WorkerActions.ChildIsQueued | src/EFiberScheduler.cpp:130-153 | a child is counted, and last in the queue of the worker it belongs to |
| WorkerActions.WakeQueues | src/EFiberBlocker.cpp:130-158 | an undisturbed wake-up makes the first in line RUNNABLE and last in the queue it is bound to |
| WorkerActions.WakeStores | src/EFiberBlocker.cpp:136-146 | with nobody in line the token is kept, up to the limit |
| WorkerActions.EventQueues | src/EIoWaiter.cpp:97-103 | an undisturbed event makes its fiber RUNNABLE and last in its queue; a timer is disarmed and leaves its flag |
| WorkerActions.LateCheckDoesNothing | src/EFiber.cpp:197-203 | a look at a fiber that is resumed already does nothing more |
| WorkerActions.WaitParksHere | src/EFiberBlocker.cpp:77-99 | a wait without a token leaves the fiber last in line and the worker free |
| WorkerActions.WaitTakesHere | src/EFiberBlocker.cpp:39-45 | a wait or an attempt with a token takes it and goes on |
| WorkerActions.SleepHangsHere | src/EFiber.cpp:146-152 | a sleep leaves the fiber hung with what will wake it |
| WorkerActions.EndLeavesHere | src/EFiberScheduler.cpp:582-585 | a fiber that ends is no longer counted |
| WorkerAffinity.Affinity | src/EFiberScheduler.cpp:510-580 | over every run, careful or not, that adds no fiber standing in a queue, a fiber once queued on a worker is queued and run only there, through yields, timed waits, timeouts, wake-ups by other workers and its own events |
| WorkerAffinity.StepKeepsAffIff | src/EFiberScheduler.cpp:502-592 | a step keeps what this rests on, a bound fiber queued, held and resumed only by its worker, each queue without repeats, an unbound fiber in one place, if and only if it adds no fiber that stands in a queue |
| WorkerAffinity.ChildBelongs | src/EFiberScheduler.cpp:140-153 | an inherited child belongs to the scheduling fiber's worker, any other child to the worker whose turn it is |
| WorkerAffinity.DealtBelongs | src/EFiberScheduler.cpp:453-463 | a fiber dealt to a worker's queue belongs to that worker |
| WorkerAffinity.OneThread | src/EFiberScheduler.cpp:510-555 | no fiber is on two threads |
| YieldAfterGrant.GrantLeavesBlocked | src/EFiberScheduler.cpp:573-580 | a fiber granted at its swap-out is queued still marked BLOCKED, for one token; one that finds no token is parked last in line |
| YieldAfterGrant.YieldIsPlainIff | src/EFiberScheduler.cpp:566-580 | a plain yield queues the fiber again and touches no blocker if and only if the fiber is not left marked; of a marked one it takes a token that no wait asked for, or parks it last in its old line |
| YieldAfterGrant.YieldCanPark | src/EFiberScheduler.cpp:573-580 | there is a run of two workers in which a fiber that only yields is parked |
| Dispatch.DealIsShares | src/EFiberScheduler.cpp:453-463 | each worker gets, behind what it had, exactly the fibers whose turn it is, in original order |
| Dispatch.DealConserves | src/EFiberScheduler.cpp:453-463 | no fiber is lost or duplicated |
| Dispatch.DealOn | src/EFiberScheduler.cpp:146-153 | later schedule calls go on where the dispatch stopped, as one deal |
| Dispatch.ShareSize | src/EFiberScheduler.cpp:460-460 | a worker's share is an n-th of what was dealt, up to its place in the round |
| Dispatch.Balanced | src/EFiberScheduler.cpp:460-460 | the shares of two workers differ by one at most |
| Dispatch.EFiberScheduler.DispatchAll | src/EFiberScheduler.cpp:452-463 | empties the default queue into the deal |
| Dispatch.EFiberScheduler.Schedule | src/EFiberScheduler.cpp:146-153 | deals one more fiber |
| Dispatch.EFiberScheduler.DispatchThenSchedule | src/EFiberScheduler.cpp:146-153 | dispatch and later calls together are one deal of all their fibers |
| Deadlines.DeadlineExact | src/eco_ae.c:215-227 | the deadline is exactly now plus delay, and a normalized pair if and only if the millisecond sum is not negative, hence for every nonnegative delay |
| Deadlines.NegativeDelayUnnormalized | src/eco_ae.c:220-225 | a negative delay can give an unnormalized pair |
| Deadlines.OrderIsTotal | src/eco_ae.c:295-298 | on normalized pairs the two-part comparisons are those of total milliseconds |
| Deadlines.WaitIsGap | src/eco_ae.c:404-413 | the computed wait is the gap to a deadline ahead; for an overdue one it is below a second, and zero if and only if the millisecond parts agree |
| Deadlines.OverdueWaits | src/eco_ae.c:404-413 | one millisecond overdue and waited for 999 ms |
| Deadlines.SleepMeetsDeadlines | src/eco_ae.c:390-430 | the loop's sleep passes no deadline still ahead when none is overdue, and keeps to the caller's timeout without timers |
| TimerList.EventPoll.PollTimeout | src/eco_ae.c:390-430 | the sleep computed from the list itself: the wait for a node with the least deadline in total milliseconds, past no deadline when none is overdue and below a second when one is; without timers the caller's timeout |
| TimerPass.VisitIs | src/eco_ae.c:336-375 | one pass: survivors are the live timers in old order, each served exactly if due; fired and finalized are the due live and the deleted ones, once each in list order |
| TimerPass.FiredExactlyDue | src/eco_ae.c:355-363 | a live timer fires in a pass, once, exactly when it is due at its turn |
| TimerPass.ClockBackFiresAll | src/eco_ae.c:320-328 | after the clock has gone back every live timer fires in that pass |
| TimerPass.OutcomeIs | src/eco_ae.c:358-372 | a due timer is deleted, or due again exactly as long after the clock's time as its procedure said; one that is not due stays as it is |
| TimerPass.ResetIs | src/eco_ae.c:320-326 | the reset changes the seconds of the deadlines and nothing else |
| TimerPass.HastenIs | src/eco_ae.c:261-276 | an interrupt makes every live timer due from now on, keeps ids and data, and leaves deleted timers as they were |
| TimerPass.HastenFiresAll | src/eco_ae.c:261-276 | so the next pass fires all live timers |
| TimerList.EventPoll.TimeProc | src/eco_ae.c:364-365 | the call of a timer's procedure, recorded under the timer's id |
| TimerList.EventPoll.FinalizerProc | src/eco_ae.c:342-343 | the call of a finalizer, recorded under the timer's client data |
| TimerList.EventPoll.Serve | src/eco_ae.c:361-372 | one call of the procedure, after which the timer is armed again or marked deleted, as it asked |
| TimerList.EventPoll.Unlink | src/eco_ae.c:336-346 | a node found deleted leaves the chain and is finalized once |
| TimerList.EventPoll.VisitLive | src/eco_ae.c:358-374 | a live node stays, its procedure called once if it is due and not at all otherwise |
| TimerList.EventPoll.Create | src/eco_ae.c:229-246 | a fresh id, and the new timer in front of the unchanged list |
| TimerList.EventPoll.Delete | src/eco_ae.c:248-259 | marks the first timer with the id and no other; reports whether there was one |
| TimerList.EventPoll.SearchNearest | src/eco_ae.c:289-302 | a node with a least deadline among all nodes, deleted ones included; null exactly for an empty list |
| TimerList.EventPoll.FireAll | src/eco_ae.c:261-276 | every timer not deleted becomes due now |
| TimerList.EventPoll.ResetSeconds | src/eco_ae.c:320-326 | every deadline's seconds become zero |
| TimerList.EventPoll.Turn | src/eco_ae.c:332-374 | one node: unlinked and finalized if deleted, else served if due and kept, with the chain before and after it intact and no other call made |
| TimerList.EventPoll.Walk | src/eco_ae.c:329-375 | the loop leaves the chain that the pass describes, with exactly its calls made, in order, and counts the fired |
| TimerList.EventPoll.Pass | src/eco_ae.c:329-376 | in place, an acyclic list of exactly the survivors, holding what the pass made of them; the procedures called are those of the due live timers and the finalizers those of the deleted, once each in list order; returns the number fired |
| TimerList.EventPoll.ProcessTimeEvents | src/eco_ae.c:305-377 | the pass with its calls, after the reset if the clock went back |
| TimerRuns.TimerLife | src/EIoWaiter.cpp:97-123 | over every run a timer fires at most once, never after a cancellation in time, and is finalized at most once and only after it fired or was cancelled |
| TimerRuns.CancelledNeverFires | src/EIoWaiter.cpp:119-123 | over every run a timer that had not fired when it was cancelled never fires after that |
| TimerRuns.IdsAreSetups | src/EIoWaiter.cpp:110-117 | the ids handed out are counted by the setups |
| TimerRuns.SetupAdds | src/EIoWaiter.cpp:110-117 | a new timer has the next id, is live, is in front of the others and due exactly after its delay |
| TimerRuns.RecordIsTrue | src/eco_ae.c:336-375 | the record that the theorems speak of is what the steps did: procedures called for exactly the due live timers, finalizers for exactly the deleted ones, cancellations as asked for |
| TimerRuns.DueFires | src/eco_ae.c:358-366 | a live timer fires in a pass if and only if it is due at its turn, and had not fired before |
| TimerRuns.PassLeaves | src/eco_ae.c:336-375 | a pass leaves the live timers in order, each as it was served or left alone |
| TimerRuns.InterruptHastens | src/eco_ae.c:261-276 | an interrupt leaves every live timer due |
| TimerRuns.TimerAccounted | src/EIoWaiter.cpp:105-123 | every timer ever set up is one entry of the list, live until it fires or is cancelled, or has been finalized |
| TimerRuns.LateCancelHarmless | src/EIoWaiter.cpp:119-123 | cancelling a timer that fired or was cancelled changes no timer |
| TimerRuns.CancelTouchesOne | src/eco_ae.c:248-259 | cancelling touches the one timer with the id |
| TimerRuns.RunKeeps | src/EIoWaiter.cpp:97-123 | the invariant behind these, in every reachable state |
| FdTable.CreateAgrees | src/eco_ae.c:131-151 | registering keeps table, maximum and kernel set in agreement if and only if it fails or leaves a nonempty mask; a failure changes nothing |
| FdTable.UpdateAgrees | src/eco_ae.c:153-175 | updating keeps the agreement if and only if it fails or drops nothing the fd was registered for |
| FdTable.UpdateCanDisagree | src/eco_ae_epoll.c:96-110 | an update that drops an event leaves table and kernel in disagreement |
| FdTable.DeleteAgrees | src/eco_ae.c:177-195 | deleting keeps the agreement, with a legal kernel call |
| FdTable.ResizeAgrees | src/eco_ae.c:113-129 | resizing keeps it and cuts off no registered fd |
| FdTable.RunAgrees | src/eco_ae.c:113-195 | after any sequence of registrations with something to watch, deletions and resizes the kernel watches exactly the fds and masks of the table, and `maxfd` is the greatest |
| FdTable.WatchedIff | src/eco_ae.c:131-195 | over any sequence an fd is watched for an event, by table and kernel, if and only if the last step that named both and did not fail was a registration |
| FdTable.CreateAdds | src/eco_ae.c:131-151 | a registration adds its events to those of its fd, in table and kernel, and touches no other fd |
| FdTable.UpdateReplaces | src/eco_ae.c:153-175 | so does an update in the table, while the kernel gets the new mask alone |
| FdTable.DeleteTakes | src/eco_ae.c:177-195 | a deletion takes its events from its fd and touches no other |
| FdTable.ResizeRefusedIff | src/eco_ae.c:113-129 | a resize is refused if and only if it would cut off a registered fd |
| FdTable.HighestBounds | src/eco_ae.c:185-191 | what `maxfd` is: the greatest fd with a nonempty mask, or -1 |
| FdTable.FdPoll.constructor | src/eco_ae.c:61-88 | an empty table in agreement with an empty kernel set |
| FdTable.FdPoll.EpollCtl | src/eco_ae_epoll.c:91-92 | ADD for an fd not in the set, MOD and DEL for one that is; a refused call changes nothing |
| FdTable.FdPoll.FileEventCreate | src/eco_ae.c:131-151 | ADD or MOD with the merged mask, then table and maximum |
| FdTable.FdPoll.FileEventUpdate | src/eco_ae.c:153-175 | ADD or MOD with the new mask alone, then table and maximum |
| FdTable.FdPoll.FileEventDelete | src/eco_ae.c:177-195 | clears the mask, searches the new maximum downwards, then MOD or DEL |
| FdTable.FdPoll.Resize | src/eco_ae.c:113-129 | refused when a registered fd would be cut off; new entries are empty |
| FdTable.FdPoll.GetFileEvents | src/eco_ae.c:197-204 | the mask of the fd, none outside the table |
| IoWaiter.DelUndoesSet | src/EIoWaiter.cpp:67-91 | deleting a descriptor's events brings the table back exactly as before their registration if and only if none of them was registered before, or the fd lies outside the table |
| IoWaiter.CountComesBackIff | src/EIoWaiter.cpp:67-91 | the waiter count comes back if and only if the fd lies inside the table |
| IoWaiter.SetWatches | src/EIoWaiter.cpp:67-78 | setting up a descriptor watches its events next to those watched before, if it is in range and the kernel agrees, and counts in any case |
| IoWaiter.DelStops | src/EIoWaiter.cpp:80-91 | giving one up stops watching its events and no others |
| IoWaiter.EIoWaiter.constructor | src/EIoWaiter.cpp:39-45 | no waiters, no timers; the wake-up pipe is watched for reading and nothing else is, and table and kernel agree |
| IoWaiter.EIoWaiter.SetupTimer | src/EIoWaiter.cpp:110-117 | clears the fiber's flag, counts a waiter, and puts one new timer in front |
| IoWaiter.EIoWaiter.CancelTimer | src/EIoWaiter.cpp:119-123 | marks that timer and discounts the waiter |
| IoWaiter.EIoWaiter.TimeEventProc | src/EIoWaiter.cpp:97-103 | flags the fiber, puts it in its queue once if it was hung, and asks for nothing more |
| IoWaiter.EIoWaiter.SetFileEvent | src/EIoWaiter.cpp:67-78 | registers, counts a waiter even if that failed, and the fiber is WAITING |
| IoWaiter.EIoWaiter.DelFileEvent | src/EIoWaiter.cpp:80-91 | unregisters and discounts, or outside the table does nothing |

## Left out

- Workers: once a fiber that has terminated is dispatched again its handle is gone and the code's behaviour is undefined; the model lets such a fiber give the thread back at once, which only runs that are not careful reach, and no theorem rests on it.
- Workers: what becomes of a queue after a step adds a fiber standing in it is not followed; `RunQueue.EFiberConcurrentQueue.Add` says what that step does to the nodes.
- JoinLoop: the list of the run queue does not show that its last node points to itself after its own fiber was added; runs of `join()` never add a queued fiber.
- QueueMachine: sequential consistency and a working spin lock are taken for granted; weak memory orders are not modelled.
- Workers: the run queues and the shared counters are atomic there, which the queue refinement justifies for the queues.
- BlockerRuns: each SYNCHRONIZED block and each operation of the concurrent containers is one step; a wait is split at its yield, a wake-up at its look and its change of the fiber's state.
- ChannelRuns: a wait elsewhere is one step, with what it can leave behind: a thread still to resume the fiber, or a mark; a fiber resumed while it runs or stands in a run queue is not followed into the run queue.
- Scheduler.EFiberScheduler.Join: runs for as many turns as its script has, and fiber bodies are sequences of scheduler-visible actions; the fiber table is a map by fiber number, so aliasing between fiber objects is left to `RunQueue` and `Blocker`.
- Dispatch.EFiberScheduler.DispatchAll: the counter does not overflow, and the queues are sequences.
- IoWaiter.EIoWaiter.SetFileEvent: who else has the same descriptor is not tracked; in `JoinLoop` a descriptor has one waiting fiber and its registration succeeds.
- FdTable.FdPoll.EpollCtl: descriptors are not negative, and a delete the kernel refuses for reasons of its own is not modelled.
- TimerList.EventPoll.Walk: timer procedures do not create or delete timers during the pass, which holds for those of the I/O waiter; the skip of ids above the last one handed out is dead code under the list invariant.
- OS threads as waiters of a blocker, which share one queue entry and rely on Java-style wait and notify of another library.
- Interrupts from another thread, what the wake-up pipe carries, idle time-outs and other questions of when rather than what; the signal sent after a resumption on another thread.
- Schedule and balance callbacks, timer fibers, fiber-local values, the condition object and the debugger.
- Context switching, stack allocation, libc hooking and file contexts; a switch is an atomic change of who runs.
- The choice between the epoll, kqueue and select back ends, the dispatch of ready descriptors to their procedures, and the one-shot `eco_poll_wait`.
- Memory exhaustion and the range of the integers, except the token counters' limit.
