# Verified models of the GameCube SDK port

This project models the algorithmic core of the host-side GameCube SDK port in Dafny and proves what its modules promise
over whole runs. Eleven C files are covered: the thread scheduler with priority-inheriting mutexes and message queues, the
heap allocator, the memory card's file allocation table with seeking and mount-time verification, the ARAM transfer queue,
the disc directory walk and path printer, the alarm queue, the waiting queues of the disc driver, calendar time, and the
registers of the card's unlock sequence.

`dafny verify dfyconfig.toml` checks everything.

## How it is built

Each component has two halves. One half says what every call does to a value that describes the state (queues as
sequences, heaps as lists of blocks, the table as 4096 words, the disc as a tree) and proves the main results about it:
invariants of every run, termination, round trips, uniqueness. The other half is a class with the fields that the C code
keeps in emulated RAM and in its host-side structures (links, heads, tails, bitmaps, cached positions), whose methods
update them step by step, with the loops of the source; each method is proved to change the described state exactly as the
function of the first half says. The theorems of the first half therefore hold of the classes.

| component | described by | updated in place by |
|---|---|---|
| scheduler | `Sched`, `SchedCalls`; invariant in `SchedInv`, `SchedGood`; calls in `SchedKeep`, `SchedSuspend`, `SchedMutex`, `SchedMessage`, `SchedExit`, `SchedRetry`; results in `SchedRuns`, `SchedOwners` (over `SchedHoldings`), `SchedRecords`, `SchedStands`, `SchedTurns`, `SchedRing`, `SchedHazards` (over the two runs of `SchedScenes`) | `OSThread.Scheduler` over `Links.Queues` |
| heap | `Blocks`, `HeapOps`, `HeapRuns`; what callers see in `HeapEffects`; the check on arbitrary memory in `HeapCheck` | `OSAlloc.Allocator` over `CellLists.Cells` |
| memory card | `Fat`, `FatOps`, `FatRuns`, and the first parts of `CardSeek` and `CardCheck` | `CardFat.Card`, `CardSeek.DirControl`, `CardCheck.Control` |
| ARAM queue | `Arq`, `ArqRuns`, `ArqProgress`; the transfers field by field in `ArqFields` | `ArqDriver.Driver` |
| disc directory | `DiscTree`, `DiscPaths`; spelling and the forms of paths in `DiscCase` | `DVD.Disc` |
| alarms | `Alarms`; firing times in `AlarmTimes` | `OSAlarm.AlarmQueue` over `Links.Queues` |
| disc waiting queues | `WaitQueues`, `Rings` | `DVDQueue.WaitingQueues` |
| calendar, unlock registers | `Calendar` | the loops of `OSTime` and `CardUnlock` |

`Lists`, `Links` and `Chains` hold the linked-list vocabulary, `ReadyBits` ties the set of ready priorities to the bits of
a 32-bit word, `SchedMoves` and `Division` are collections of small facts.

## Where the code falls short of what one would expect

Each of these is a theorem, with the exact condition under which the code does what it should.

* Cancelling a thread that waits in a deadlock of mutexes can follow the chain of owners back to the thread being
  cancelled, which by then is in no queue; its removal from queue 0 overwrites memory. It happens if and only if the thread
  stands in a ring of waiters each of which owes its priority to the one before it (`SchedRing.CancelFaultsIff`). A run of
  thirteen calls from start-up leads there (`SchedHazards.CancelCorrupts`).
* A woken waiter's retry restores a lock count that only condition waits save. A thread that never waited on a condition
  has 0xFFFFFFFF there and gets the count -1 (`SchedHazards.PendingLockCountsIff`; `SchedHazards.RetrySpoils` is a run from
  start-up). Unlocks alone, short of wrapping the 32-bit count, do not give the mutex back: over any sequence of its
  holder's locks and unlocks it is given back by the first unlock made when locks exceed unlocks by two
  (`SchedHazards.ReleasedAtTwo`). The other properties of the scheduler survive it: the invariant asks nothing of counts.
* A heap request of 0x7FFFFFC1 to 0x7FFFFFFF bytes rounds to a negative number in the signed fit test, is granted the
  first free cell, and ruins the heap (`HeapOps.AllocGoodIff`, `HeapOps.AllocRuins`).
* The mount verifier compares the two table copies' update counters as signed words of 16 bits: the update that steps the
  counter from 0x7FFF to 0x8000 is lost, the older copy overwrites it (`CardCheck.NewestSurvivesIff`).
* A printed directory path can be read back only when its names obey the 8.3 rule that the walk applies, or when long
  names are accepted (`DiscPaths.PrintThenParse`, `DVD.ChangeToPrinted`).
* A periodic alarm that starts at the current instant is due again as soon as it has fired, so firing until nothing is due
  does not end (`Alarms.DrainsIff`).
* A block taken out of a waiting queue keeps its links; taking it out again breaks a queue unless its old neighbours are
  still next to each other, or both have left the queues (`DVDQueue.SecondDequeueIff`, `DVDQueue.SecondDequeueSpoils`).
* Two words that differ in bit 0 or 31 can collide in the right-shift register: in the first step, exactly when they agree
  in bits 1 to 30 and the top bit or-ed with the bit let in comes out the same, and never later
  (`CardUnlock.CollisionsIff`, `CardUnlock.TopBitLost`).
* The weekday is negative for day numbers below -6 that are not a whole number of weeks from it (`OSTime.GetDates`).

## Model

| member | source | states |
|---|---|---|
| `SchedRuns.StartupInherits` | src/sdk_port/os/osthread.c:229-338 | After any allowed calls from start-up, the priority of each live, unsuspended thread is the least of its own base priority and of the priorities waiting at the heads of the mutexes it owns; and at the end of any chain of waiters stands an owner no less urgent than the first waiter. |
| `SchedRuns.StartupDispatches` | src/sdk_port/os/osthread.c:253-271 | After any allowed calls from start-up, bit 31-p of the ready word is set if and only if run queue p holds a thread; a thread stands in run queue p exactly when it is ready, unsuspended and of priority p; and if the scheduler was never disabled no ready thread is more urgent than the running one, and none is ready when nobody runs. |
| `SchedRuns.RunGood` | src/sdk_port/os/osthread.c:497-746 | The scheduler invariant (queues, ready word, owners, inheritance, message queues) is kept by every allowed sequence of calls. |
| `SchedRuns.StepGood` | src/sdk_port/os/osthread.c:467-979 | Each call, made when allowed, keeps the invariant, a pass of `ProcessPendingLocks` with its restored count included; with the scheduler enabled it also leaves the most urgent thread running. |
| `SchedRuns.RunSettles` | src/sdk_port/os/osthread.c:344-398 | With the scheduler enabled throughout, the running thread is the most urgent after every call of a run. |
| `SchedRuns.ChainUrgency` | src/sdk_port/os/osthread.c:329-338 | An owner is never less urgent than a thread that waits for it, through chains of any length. |
| `SchedRuns.InheritanceHolds` | src/sdk_port/os/osthread.c:229-247 | A thread has its base priority or exactly that of some waiter on a mutex it owns, is no less urgent than any of them, and mutex queues are sorted by priority. |
| `SchedRuns.RunQueuesHold` | src/sdk_port/os/osthread.c:253-271 | Run queues and ready word agree; a thread stands in one queue only, once. |
| `SchedOwners.StepHolds` | src/sdk_port/os/osthread.c:497-979 | Exactly how each call moves each mutex: a free one goes to the running thread that asks for it, a held one changes hands only through its holder, by the last unlock or the holder's end; its count is the holder's locks less unlocks, but for what a retry restores. |
| `SchedOwners.HolderKeeps` | src/sdk_port/os/osthread.c:702-772 | Over a whole run a held mutex stays with its holder unless the holder itself unlocks it, exits, or is cancelled, whatever the other threads do. |
| `SchedOwners.NobodyWaitsInVain` | src/sdk_port/os/osthread.c:576-949 | Under the invariant a waiter has something to wait for: another live thread holds its mutex, the thread it joins lives, the queue it sends to is full, the one it receives from is empty. |
| `SchedOwners.MessagesInOrder` | src/sdk_port/os/osthread.c:869-922 | First in, first out over every run that neither jams nor sets the queue up anew: what a queue held and was then sent is, in this order, what was received and what it still holds. |
| `SchedOwners.MessagesConserved` | src/sdk_port/os/osthread.c:869-949 | Over every run, jams included, that does not set the queue up anew no message is lost or doubled. |
| `SchedOwners.RoundRobin` | src/sdk_port/os/osthread.c:603-606 | Among threads of the running thread's priority the n-th yield brings up the n-th; after a full round all is as it was. |
| `SchedRecords.StepRecords` | src/sdk_port/os/osthread.c:467-979 | Exactly what each call changes in the record of each thread: a creation sets it up, suspending and resuming count by one and resuming never goes below zero, an exit leaves its value with a thread that is not detached, a contended lock and a retry note and clear the mutex; nothing else is ever changed, and only the two scheduler calls change its own count. |
| `SchedRecords.RunTally` | src/sdk_port/os/osthread.c:497-573 | Over a whole run a thread's suspension count is one from its creation, one more for each suspension, and one less, but never below zero, for each resumption; no other call of any thread counts. |
| `SchedRecords.TallyBounds` | src/sdk_port/os/osthread.c:497-573 | While there are no more resumptions than suspensions there were to take off at the start, the count is the difference exactly; it is never less than that difference, nor negative. |
| `SchedRecords.SuspendedOut` | src/sdk_port/os/osthread.c:497-573 | A thread suspended n times, whatever else happens in between, is out of the competition for the processor until it has been resumed n times. |
| `SchedRecords.ResumedIn` | src/sdk_port/os/osthread.c:497-535 | After the last of them it competes again, unless it waits or has ended. |
| `SchedStands.StepStands` | src/sdk_port/os/osthread.c:467-979 | Exactly how each call moves each thread between its places: slot not in use, ended and kept, parked in a queue, up. The end of a detached thread frees its slot and that of another keeps it; the end also brings up those that waited for the thread's mutexes and those that joined it; a wake-up, a last unlock and a message bring up exactly the waiters of one queue. |
| `SchedStands.PlacesAre` | src/sdk_port/os/osthread.c:253-307 | The queues hold exactly the threads parked in them, once; the run queues exactly those that are up and unsuspended, by priority, but for the running one. |
| `SchedTurns.StepTurn` | src/sdk_port/os/osthread.c:344-398 | Who runs after a call, and in what order: the threads made ready fall in behind those ready before, first come first; the running thread keeps the processor unless somebody strictly more urgent is ready; then the first of the most urgent takes over and the running thread falls behind those of its own priority. All calls but yielding, ending a thread, contended locks, and suspending or resuming a thread that waits or was ready. |
| `SchedTurns.ParksBehind` | src/sdk_port/os/osthread.c:576-585 | A thread that sleeps, or blocks on a message queue, stands behind all waiters at least as urgent and ahead of all the others, whose order stays. |
| `SchedTurns.LockBehind` | src/sdk_port/os/osthread.c:702-725 | So does one that blocks on a mutex, after the promotion of the owners. |
| `SchedOwners.StepCapacity` | src/sdk_port/os/osthread.c:851-922 | A message queue's capacity is the one it was set up with; no other call changes it. |
| `SchedOwners.TakenWhileRoom` | src/sdk_port/os/osthread.c:851-893 | After a queue is set up for n messages, and through any run that does not set it up again, a message is taken from a sender exactly while the queue holds fewer than n. |
| `SchedRuns.InitGood` | src/sdk_port/os/osthread.c:421-464 | Start-up establishes the invariant with the default thread running. |
| `SchedInv.EffectiveIsMin` | src/sdk_port/os/osthread.c:229-247 | Scanning the heads of the queues of the owned mutexes yields the minimum of the base priority and of the priorities of all threads blocked by the owner. |
| `SchedChain.UpdateInherits` | src/sdk_port/os/osthread.c:313-323 | The chain from waiter to owner to that owner's owner ends, on every wait graph, and leaves every thread inheriting, provided it held of all but the first and the chain meets no thread in transit. |
| `SchedChain.PromoteChain` | src/sdk_port/os/osthread.c:329-338 | Promotion ends on every wait graph, deadlock cycles included: each step shrinks the set of threads less urgent than the target. A thread keeps its priority or gets exactly the target; inheritance holds of all but the thread that is about to wait. |
| `SchedChain.SetEffectiveWF` | src/sdk_port/os/osthread.c:277-307 | One step of a chain moves a thread to its place for the new priority and keeps every queue sound. |
| `SchedKeep.MostUrgent` | src/sdk_port/os/osthread.c:206-220 | Counting leading zeros of the ready set finds the first non-empty run queue, and 32 when there is none. |
| `SchedKeep.SelectWF` | src/sdk_port/os/osthread.c:344-390 | Selection keeps the structure, changes no priority and leaves the most urgent thread running. |
| `SchedKeep.WakeAllWF` | src/sdk_port/os/osthread.c:588-600 | Waking a queue empties it, makes its unsuspended threads ready, and changes no other thread's standing. |
| `SchedGood.WakeupSettles` | src/sdk_port/os/osthread.c:588-600 | Waking a queue whose reason to wait is gone restores the invariant and dispatches. |
| `SchedGood.NotifySane` | src/sdk_port/os/osthread.c:313-323 | A waiter whose priority changed is reflected in every owner down its chain. |
| `SchedSuspend.SuspendGood` | src/sdk_port/os/osthread.c:538-573 | Suspending a thread in any state keeps the invariant and dispatches. |
| `SchedSuspend.ResumeGood` | src/sdk_port/os/osthread.c:497-535 | Resuming a thread in any state keeps the invariant and dispatches; the last resume gives it the priority it is due. |
| `SchedMutex.LockContended` | src/sdk_port/os/osthread.c:702-725 | Locking an owned mutex promotes the owner first, then parks the caller by priority; all threads then inherit correctly. |
| `SchedMutex.LockGood` | src/sdk_port/os/osthread.c:702-725 | Locking keeps the invariant whether the mutex is free, held by the caller or held by another. |
| `SchedMutex.TryLockGood` | src/sdk_port/os/osthread.c:749-772 | So does trying to lock. |
| `SchedMutex.UnlockGood` | src/sdk_port/os/osthread.c:728-746 | The last unlock wakes all waiters, lowers the owner to what its other mutexes justify, and dispatches. |
| `SchedMutex.RetryGood` | src/sdk_port/os/osthread.c:957-968 | A thread woken from a mutex queue forgets the mutex and locks it again; the invariant holds throughout. |
| `SchedRetry.PendingGood` | src/sdk_port/os/osthread.c:957-978 | A whole pass, with whatever count it restores, keeps the invariant and dispatching. |
| `SchedRetry.PendingShrinks` | src/sdk_port/os/osthread.c:957-978 | Each pass leaves strictly fewer threads that are not waiting and still name a mutex; none joins them. |
| `SchedRetry.ProcessSettles` | src/sdk_port/os/osthread.c:952-979 | The loop ends; afterwards the running thread, if any, has no retry ahead, and the invariant and dispatching hold. |
| `SchedMutex.SleepGood` | src/sdk_port/os/osthread.c:576-585 | Sleeping in a queue keeps the invariant and dispatches another thread. |
| `SchedMessage.SendGood` | src/sdk_port/os/osthread.c:869-949 | The circular buffer is a bounded deque: send appends, jam prepends, exactly when there is room; a full queue blocks the sender or leaves everything as it was. |
| `SchedMessage.ReceiveGood` | src/sdk_port/os/osthread.c:896-922 | Receive takes the first message exactly when there is one; otherwise it blocks or leaves everything as it was. |
| `SchedMessage.NoLostWakeup` | src/sdk_port/os/osthread.c:869-949 | In every reachable state no thread is parked on receive while a message is held, and none on send while a slot is free. |
| `SchedMessage.InitQueueGood` | src/sdk_port/os/osthread.c:851-866 | Setting up a queue nobody is parked on keeps the invariant. |
| `SchedExit.ExitGood` | src/sdk_port/os/osthread.c:655-675 | A thread that exits gives up all its mutexes, wakes their waiters and its joiners, and leaves every other thread inheriting. |
| `SchedExit.CancelGood` | src/sdk_port/os/osthread.c:609-652 | So does a cancelled thread, in whatever state it was, unless the chain it starts comes back to it. |
| `SchedRing.CancelFaultsIff` | src/sdk_port/os/osthread.c:619-644 | Cancelling a waiter removes it from a queue it is not in, hence from queue 0, if and only if it stands in a ring of waiters each of which has its priority only from the waiter before it. |
| `SchedHazards.CancelCorrupts` | src/sdk_port/os/osthread.c:619-644 | A run of allowed calls from start-up that ends with two threads in such a ring, so that cancelling one of them corrupts. |
| `SchedHazards.PendingLockCountsIff` | src/sdk_port/os/osthread.c:957-978 | If all held mutexes have positive counts, they still do after a pass exactly when the mutex was held or the saved word is below 0x80000000. |
| `SchedHazards.ReleasedAtTwo` | src/sdk_port/os/osthread.c:728-746 | A thread that never waited on a condition holds the mutex it was woken for -1 times: over any sequence of its locks and unlocks the mutex is given back exactly at an unlock made when locks exceed unlocks by two. |
| `SchedHazards.RetrySpoils` | src/sdk_port/os/osthread.c:957-978 | A run of allowed calls from start-up after which a retry leaves the count -1. |
| `ReadyBits.WordOps` | src/sdk_port/os/osthread.c:253-271 | Setting and clearing a bit of the 32-bit ready word are marking and unmarking in the set of its one-bits. |
| `ReadyBits.CountLeadingZeros` | src/sdk_port/os/osthread.c:206-220 | The halving steps find the number of the highest one-bit, counted from the top, and 32 for zero. |
| `OSThread.Scheduler.constructor` | src/sdk_port/os/osthread.c:421-464 | The state after initialisation is that of `Init`. |
| `OSThread.Scheduler.GetEffectivePriority` | src/sdk_port/os/osthread.c:229-247 | The loop over the owned mutexes computes the effective priority. |
| `OSThread.Scheduler.SetRun` | src/sdk_port/os/osthread.c:253-261 | Appends to the run queue of the thread's priority and sets its bit and the hint. |
| `OSThread.Scheduler.UnsetRun` | src/sdk_port/os/osthread.c:263-271 | Removes from the run queue and clears the bit when the queue becomes empty. |
| `OSThread.Scheduler.SetEffectivePriority` | src/sdk_port/os/osthread.c:277-307 | Requeues the thread for its new priority and names the owner it waits for. |
| `OSThread.Scheduler.UpdatePriority` | src/sdk_port/os/osthread.c:313-323 | The loop refines the recursive chain, and ends. |
| `OSThread.Scheduler.PromoteThread` | src/sdk_port/os/osthread.c:329-338 | The loop refines the recursive promotion, and ends. |
| `OSThread.Scheduler.SelectThread` | src/sdk_port/os/osthread.c:344-390 | The whole new state, yielding or not. |
| `OSThread.Scheduler.Reschedule` | src/sdk_port/os/osthread.c:394-398 | Selects only when hinted. |
| `OSThread.Scheduler.UnlockAllMutex` | src/sdk_port/os/osthread.c:402-414 | The loop frees each owned mutex and wakes its waiters. |
| `OSThread.Scheduler.CreateThread` | src/sdk_port/os/osthread.c:467-494 | A new thread is ready and suspended once; a bad priority is refused and changes nothing. A slot in use, which the source overwrites without looking, is outside the contract. |
| `OSThread.Scheduler.ResumeThread` | src/sdk_port/os/osthread.c:497-535 | The whole new state and the previous suspension count. |
| `OSThread.Scheduler.SuspendThread` | src/sdk_port/os/osthread.c:538-573 | The whole new state and the previous suspension count. |
| `OSThread.Scheduler.Sleep` | src/sdk_port/os/osthread.c:576-585 | Parks by priority and reschedules. |
| `OSThread.Scheduler.WakeupThread` | src/sdk_port/os/osthread.c:588-600 | The loop wakes the queue front to back. |
| `OSThread.Scheduler.Yield` | src/sdk_port/os/osthread.c:603-606 | Goes to the back of its run queue, or keeps running when alone. |
| `OSThread.Scheduler.CancelThread` | src/sdk_port/os/osthread.c:609-652 | The whole new state, for each state the thread may be in. |
| `OSThread.Scheduler.ExitThread` | src/sdk_port/os/osthread.c:655-675 | The whole new state. |
| `OSThread.Scheduler.LockMutex` | src/sdk_port/os/osthread.c:702-725 | The whole new state, taken, retaken or contended. |
| `OSThread.Scheduler.UnlockMutex` | src/sdk_port/os/osthread.c:728-746 | The whole new state; a thread that is not the owner changes nothing. |
| `OSThread.Scheduler.TryLockMutex` | src/sdk_port/os/osthread.c:749-772 | The whole new state and whether the mutex was taken. |
| `OSThread.Scheduler.RetryLock` | src/sdk_port/os/osthread.c:957-978 | One pass: the retry of a woken waiter, and the saved count put back. |
| `OSThread.Scheduler.ProcessPendingLocks` | src/sdk_port/os/osthread.c:952-979 | The loop computes `Process`, and ends. |
| `OSThread.Scheduler.InitMessageQueue` | src/sdk_port/os/osthread.c:851-866 | An empty buffer of the given size. |
| `OSThread.Scheduler.SendMessage` | src/sdk_port/os/osthread.c:869-893 | The whole new state and whether the message went in. |
| `OSThread.Scheduler.JamMessage` | src/sdk_port/os/osthread.c:925-949 | The whole new state and whether the message went in, at the front. |
| `OSThread.Scheduler.ReceiveMessage` | src/sdk_port/os/osthread.c:896-922 | The whole new state, the message, and whether there was one. |
| `OSThread.Scheduler.DisableScheduler` | src/sdk_port/os/osthread.c:678-681 | Counts up and returns the previous count. |
| `OSThread.Scheduler.EnableScheduler` | src/sdk_port/os/osthread.c:683-686 | Counts down and returns the previous count. |
| `Links.Queues.AddTail` | src/sdk_port/os/osthread.c:83-94 | Relinking appends to one of many queues and leaves the others linked. |
| `Links.Queues.AddPrio` | src/sdk_port/os/osthread.c:96-119 | The loop inserts behind every thread that is at least as urgent. |
| `Links.Queues.Remove` | src/sdk_port/os/osthread.c:121-134 | Relinking takes a thread out of the middle of its queue. |
| `Links.Queues.RemoveHead` | src/sdk_port/os/osthread.c:136-147 | Takes the first thread. |
| `Lists.InsertSorted` | src/sdk_port/os/osthread.c:96-119 | Insertion by priority keeps a queue sorted. |
| `HeapRuns.HeapsStaySound` | src/sdk_port/os/OSAlloc.c:173-396 | After any run from start-up every live heap's free list is the sorted list of the maximal free intervals, disjoint from the allocated cells and from every other heap, and the check reports exactly what can still be handed out, never -1. |
| `HeapRuns.RunsAgree` | src/sdk_port/os/OSAlloc.c:127-171 | Two runs that leave the same bytes free leave the same free list: it does not depend on the order of the frees. |
| `HeapRuns.RunGood` | src/sdk_port/os/OSAlloc.c:209-396 | Every allowed sequence of calls on all the heaps keeps them sound. |
| `HeapOps.AllocGood` | src/sdk_port/os/OSAlloc.c:255-324 | Allocation keeps the heap sound; it fails exactly for size 0 or when no free cell fits, and then changes nothing. |
| `HeapOps.AllocGrants` | src/sdk_port/os/OSAlloc.c:255-324 | A granted cell comes out of the free bytes and no others, has at most 0x5F bytes more than asked for, and is the one at the lowest address that fits. |
| `HeapOps.AllocRuins` | src/sdk_port/os/OSAlloc.c:268-278 | A size above 0x7FFFFFC0 and below 0x80000000 passes the signed test on the first free cell and ruins the heap. |
| `HeapOps.AllocGoodIff` | src/sdk_port/os/OSAlloc.c:255-324 | Of all 32-bit sizes, exactly those leave a sound heap unsound, and only when a free cell exists. |
| `HeapOps.AllocFreeRestores` | src/sdk_port/os/OSAlloc.c:255-358 | Freeing what was just allocated restores the free list and the allocated list exactly. |
| `HeapOps.ReleaseGood` | src/sdk_port/os/OSAlloc.c:333-358 | Freeing a live cell keeps the heap sound. |
| `HeapOps.ReleaseBytes` | src/sdk_port/os/OSAlloc.c:333-358 | Freeing makes the bytes of the cell free, and no others. |
| `HeapOps.FreesCommute` | src/sdk_port/os/OSAlloc.c:127-171 | Frees of the same bytes, in any order and however divided into cells, end with the same free list. |
| `HeapOps.AddRangeGood` | src/sdk_port/os/OSAlloc.c:369-396 | Adding a range the heap does not overlap keeps it sound and adds exactly those bytes. |
| `HeapOps.CheckIff` | src/sdk_port/os/OSAlloc.c:403-456 | On what soundly linked lists hold, the check accepts exactly the heaps with well-formed cells inside the arena, gaps between free cells, and sizes that add up; it then returns the sum of (size - 0x20) over the free cells. |
| `HeapCheck.RawCheckIff` | src/sdk_port/os/OSAlloc.c:403-456 | On every memory the check ends; it accepts exactly when both heads lead through lists whose links agree both ways, of well-formed cells, the free ones sorted with gaps, that add up to the heap; it then returns what can be handed out. |
| `HeapCheck.RawOfLists` | src/sdk_port/os/OSAlloc.c:403-456 | On soundly linked lists the check on memory is the one on what they hold. |
| `HeapOps.CheckGood` | src/sdk_port/os/OSAlloc.c:403-456 | A sound heap is never rejected. |
| `HeapEffects.FreePointer` | src/sdk_port/os/OSAlloc.c:333-358 | Freeing a pointer frees the cell 32 bytes below it: exactly the bytes of that cell become free, and the other allocated cells stay as they are, in their order. |
| `HeapEffects.FreeEffect` | src/sdk_port/os/OSAlloc.c:333-358 | The same for the heap named, and no other heap changes. |
| `HeapEffects.FreeNothing` | src/sdk_port/os/OSAlloc.c:333-340 | A null pointer, or a heap not in use, changes nothing. |
| `HeapEffects.AllocNothing` | src/sdk_port/os/OSAlloc.c:255-324 | A request gets nothing, and changes nothing, exactly when it is empty or no free cell has room for it and a header. |
| `HeapEffects.AllocPointer` | src/sdk_port/os/OSAlloc.c:255-324 | Else the caller gets the data of a new cell at the front of the allocated ones, at the lowest address where one fits, out of bytes that were free; what is not needed stays free. |
| `HeapEffects.AllocEffect` | src/sdk_port/os/OSAlloc.c:255-324 | The same for the heap named, and no other heap changes. |
| `HeapEffects.AddEffect` | src/sdk_port/os/OSAlloc.c:369-396 | The whole 32-byte units of the range become free in the heap named; nothing else changes anywhere. |
| `HeapEffects.CreateEffect` | src/sdk_port/os/OSAlloc.c:209-244 | The heap gets the first descriptor not in use, with exactly the whole units of the range free; -1 exactly when every descriptor is in use. |
| `HeapEffects.DestroyEffect` | src/sdk_port/os/OSAlloc.c:360-367 | The descriptor is no longer in use, and creating a heap gives it out again once those before it are taken. |
| `HeapEffects.InitEffect` | src/sdk_port/os/OSAlloc.c:173-207 | The descriptors, 12 bytes each, come first in the arena, the rest is rounded to units; no heap is in use and none is current. |
| `HeapEffects.CellStays` | src/sdk_port/os/OSAlloc.c:209-396 | An allocated cell stays so through any run of calls until its own pointer is freed or its heap destroyed, and all the while nothing else, allocated or free, in any heap overlaps it. |
| `Blocks.CanonUnique` | src/sdk_port/os/OSAlloc.c:127-171 | Two sorted lists of separate blocks that cover the same bytes are equal. |
| `Blocks.JoinCovers` | src/sdk_port/os/OSAlloc.c:127-171 | Insertion with merging adds exactly the bytes of the new cell. |
| `Blocks.JoinCanon` | src/sdk_port/os/OSAlloc.c:127-171 | Insertion with merging leaves no two neighbours touching. |
| `CellLists.Cells.DLAddFront` | src/sdk_port/os/OSAlloc.c:92-99 | Relinking prepends. |
| `CellLists.Cells.DLExtract` | src/sdk_port/os/OSAlloc.c:112-124 | Relinking takes a cell out. |
| `CellLists.Cells.DLInsert` | src/sdk_port/os/OSAlloc.c:127-171 | The search and the two merging steps perform the insertion of `Join`. |
| `CellLists.Cells.FindFit` | src/sdk_port/os/OSAlloc.c:272-278 | The loop finds the first cell that the signed test lets through. |
| `CellLists.Cells.Carve` | src/sdk_port/os/OSAlloc.c:296-314 | Splitting replaces the cell by its remainder in the list. |
| `OSAlloc.Allocator.InitAlloc` | src/sdk_port/os/OSAlloc.c:173-207 | The heap descriptors take the front of the arena; no heap is live. |
| `OSAlloc.Allocator.CreateHeap` | src/sdk_port/os/OSAlloc.c:209-244 | The first free descriptor gets one free cell, or -1 is returned. |
| `OSAlloc.Allocator.DestroyHeap` | src/sdk_port/os/OSAlloc.c:360-367 | The descriptor is free again. |
| `OSAlloc.Allocator.SetCurrentHeap` | src/sdk_port/os/OSAlloc.c:246-253 | The new current heap, and the previous one. |
| `OSAlloc.Allocator.AllocFromHeap` | src/sdk_port/os/OSAlloc.c:255-324 | The whole new state and the pointer. |
| `OSAlloc.Allocator.FreeToHeap` | src/sdk_port/os/OSAlloc.c:333-358 | The whole new state. |
| `OSAlloc.Allocator.AddToHeap` | src/sdk_port/os/OSAlloc.c:369-396 | The whole new state. |
| `OSAlloc.Allocator.Alloc` | src/sdk_port/os/OSAlloc.c:326-331 | Allocates from the current heap. |
| `OSAlloc.Allocator.Free` | src/sdk_port/os/OSAlloc.c:398-401 | Frees to the current heap. |
| `OSAlloc.Allocator.CheckHeap` | src/sdk_port/os/OSAlloc.c:403-456 | The two loops compute the check, whatever state memory is in. |
| `OSAlloc.Allocator.CheckOfHeap` | src/sdk_port/os/OSAlloc.c:403-456 | On linked heaps that is the check of the first half. |
| `FatRuns.RunGood` | src/sdk_port/card/card_fat.c:94-167 | After any run of allocations and frees of files every data block is free or in exactly one file, the free count is true, free blocks and file blocks add up to the card, and the mount verifier accepts the table. |
| `FatRuns.StepGood` | src/sdk_port/card/card_fat.c:94-167 | On such a card no call reports a broken table, and an allocation fails only for want of blocks. |
| `FatRuns.BlankGood` | src/sdk_port/card/card_fat.c:72-89 | A formatted card is such a card. |
| `FatRuns.AllocFreeRestores` | src/sdk_port/card/card_fat.c:94-167 | Freeing the chain just allocated restores every data entry and the free count. |
| `FatRuns.FreeGood` | src/sdk_port/card/card_fat.c:146-167 | Freeing a file of a sound table makes exactly its blocks free and counts them, leaves the place where the next allocation starts, and stores the table as an update that the verifier accepts. |
| `FatRuns.PartitionAdd` | src/sdk_port/card/card_fat.c:94-141 | A new chain of free blocks joins the files without touching another. |
| `FatOps.AllocGood` | src/sdk_port/card/card_fat.c:94-141 | With a true free count, allocation hands out exactly the first n free blocks in circular order after the last slot, as one chain ending in 0xFFFF, touches no other data block, and leaves a table the verifier accepts. |
| `FatOps.AllocCode` | src/sdk_port/card/card_fat.c:94-141 | With a true free count the result is success or lack of space, never a broken table; a refusal changes nothing. |
| `FatOps.NearestFirst` | src/sdk_port/card/card_fat.c:113-136 | The free blocks that allocation hands out come nearest first, counted round the data blocks from the one handed out last. |
| `FatOps.WalkChain` | src/sdk_port/card/card_fat.c:146-167 | Freeing a file clears exactly its blocks. |
| `FatOps.FreeOkIff` | src/sdk_port/card/card_fat.c:146-167 | On every table, circular chains included, freeing ends; it succeeds exactly on the end mark and on the first block of a well-formed chain. |
| `FatOps.UpdateAccepted` | src/sdk_port/card/card_fat.c:72-89 | An update with a true free count is accepted by the verifier and changes no data entry. |
| `FatOps.UpdateWords` | src/sdk_port/card/card_fat.c:72-89 | An update steps the counter by one modulo 65536, stores the checksums of the new words, and changes no other word. |
| `FatOps.CheckSumsAre` | src/sdk_port/card/card_fat.c:50-67 | The first checksum is the sum of the words and the second that of their complements, modulo 65536, with 65535 written as 0. |
| `FatOps.ChecksumsDecideSum` | src/sdk_port/card/card_fat.c:50-67 | Two contents of the 4094 covered words share both checksums if and only if their word sums agree modulo 65536. |
| `FatOps.OneWordDetected` | src/sdk_port/card/card_fat.c:50-67 | Changing one word changes the checksums. |
| `FatOps.CorruptionRejected` | src/sdk_port/card/CARDCheck.c:167-194 | An accepted table with any one of its 4096 words changed is rejected. |
| `Fat.ScanFindsAll` | src/sdk_port/card/card_fat.c:113-136 | One round of the circular scan meets each data block once and finds all the free ones. |
| `CardFat.Card.UpdateFatBlock` | src/sdk_port/card/card_fat.c:72-89 | The check code steps, and both checksums are renewed. |
| `CardFat.Card.AllocBlock` | src/sdk_port/card/card_fat.c:94-141 | The scan and link loop computes the table of `Alloc`, on every table, the broken case included. |
| `CardFat.Card.FreeBlock` | src/sdk_port/card/card_fat.c:146-167 | The loop computes the table of `FreeBlock` and ends on every table. |
| `CardFat.CheckSum` | src/sdk_port/card/card_fat.c:50-67 | The loop computes both sums, with 0xFFFF turned into 0. |
| `CardSeek.SeekLands` | src/sdk_port/card/card_dir.c:158-205 | Every in-range seek succeeds and ends on block number offset / sector size of the chain, wherever the position stood before; every other one is refused and changes nothing. |
| `CardSeek.SeeksStayOnChain` | src/sdk_port/card/card_dir.c:158-205 | After any sequence of seeks, forward, backward or unaligned, the position is on the block of its offset. |
| `CardSeek.SeekFromStart` | src/sdk_port/card/card_dir.c:158-205 | The first seek in a file just opened lands on chain[offset / sector size]. |
| `CardSeek.SeekInAllocated` | src/sdk_port/card/card_dir.c:158-205 | The same for a chain made by the allocator: the blocks are those of circular order. |
| `CardSeek.DirControl.Seek` | src/sdk_port/card/card_dir.c:158-205 | The loop computes the outcome and the new position, error cases included. |
| `CardCheck.Control.Check` | src/sdk_port/card/CARDCheck.c:166-193 | One copy passes exactly when its checksums and its free count are right. |
| `CardCheck.Control.VerifyFAT` | src/sdk_port/card/CARDCheck.c:159-209 | The number of copies that fail, and which copy overwrites which. |
| `CardCheck.NewestSurvivesIff` | src/sdk_port/card/CARDCheck.c:196-202 | Of two consecutive updates the newer copy survives the comparison unless the counter stepped from 0x7FFF to 0x8000 between them. |
| `CardCheck.DrawKeepsFirst` | src/sdk_port/card/CARDCheck.c:196-202 | Of two copies with the same counter the first survives. |
| `ArqProgress.IdleMeansDone` | src/sdk_port/ar/arq.c:74-197 | Whenever the queue is idle every posted request has completed, once, in posting order within its priority, and the transfers started for it are exactly those that cover its ranges in order. |
| `ArqProgress.RunGood` | src/sdk_port/ar/arq.c:135-197 | The queue invariant is kept by every run of posts and interrupts. |
| `ArqProgress.DoneIsCovered` | src/sdk_port/ar/arq.c:98-130 | When a request has completed, the transfers started on its behalf are exactly those that cover its source and destination. |
| `ArqFields.DoneIsMoved` | src/sdk_port/ar/arq.c:74-130 | When a request has completed, its transfers, read off the log: to ARAM the i-th takes main memory from source + 4096 i to ARAM at dest + 4096 i, from ARAM the two change places, all modulo 2^32; each has 4096 bytes but the last, which has the rest; a high request has one transfer, of its whole length. |
| `ArqFields.IdleMeansMoved` | src/sdk_port/ar/arq.c:74-197 | Whenever a run from the empty queue has become idle, this holds of every request it posted with one of the two priorities. |
| `ArqFields.HighMovesWhole` | src/sdk_port/ar/arq.c:74-93 | With k high requests ahead of it, the (k+1)-st transfer from now is the high request's own: its addresses, its direction, its whole length. |
| `ArqFields.SentCounts` | src/sdk_port/ar/arq.c:74-130 | The transfers read off the log under one request's id are all of the log's with that id, each as often as it occurs there. |
| `ArqProgress.OneInFlight` | src/sdk_port/ar/arq.c:135-152 | Transfers started minus interrupts changes only by the one in flight: never more than one is outstanding. |
| `ArqProgress.HighStarts` | src/sdk_port/ar/arq.c:74-93 | A high request with k ahead of it is the (k+1)-st transfer to start, and has started after k+1 interrupts, whatever low requests are under way. |
| `ArqProgress.Drains` | src/sdk_port/ar/arq.c:135-152 | With nothing more posted the queue becomes idle after exactly the number of interrupts that its requests have chunks left. |
| `Arq.LowTransfersCover` | src/sdk_port/ar/arq.c:98-130 | The 4096-byte chunks of a low request cover both ranges exactly once, in order, the last one with the remainder. |
| `ArqDriver.Driver.constructor` | src/sdk_port/ar/arq.c:59-69 | An empty queue. |
| `ArqDriver.Driver.PopTaskQueueHi` | src/sdk_port/ar/arq.c:74-93 | Starts the first high request and makes it pending. |
| `ArqDriver.Driver.ServiceQueueLo` | src/sdk_port/ar/arq.c:98-130 | Takes the next low request if none is pending, and starts one chunk. |
| `ArqDriver.Driver.InterruptServiceRoutine` | src/sdk_port/ar/arq.c:135-152 | Completes what was on its last transfer, then starts the next, high first. |
| `ArqDriver.Driver.PostRequest` | src/sdk_port/ar/arq.c:157-197 | Writes and links the record, and starts it when nothing is in flight. |
| `DiscPaths.PrintThenParse` | src/sdk_port/dvd/DVD.c:325-472 | The printed path of a directory, read from any current directory, leads back to it exactly when long names are accepted or every name on the way obeys the 8.3 rule; otherwise it leads nowhere. |
| `DiscPaths.ParseFile` | src/sdk_port/dvd/DVD.c:325-427 | A file is found under its name behind the printed path of its directory, under the same condition. |
| `DiscCase.RespellResolves` | src/sdk_port/dvd/DVD.c:325-427 | Two paths of one length that have at each place the same character, or the two cases of one letter, mean the same from every directory, long names accepted or not. |
| `DiscCase.MatchesIff` | src/sdk_port/dvd/DVD.c:131-143 | A component names an entry only if it is such a respelling of the stored name, and where a directory is wanted the entry is one. |
| `DiscCase.SameNameIff` | src/sdk_port/dvd/DVD.c:131-143 | So does the walk's own comparison of the rest of a path with a name: up to the next slash it must be a respelling of the name. |
| `DiscCase.RespeltPrintParses` | src/sdk_port/dvd/DVD.c:325-472 | Every respelling of the printed path of a directory leads back to it, under the condition of `DiscPaths.PrintThenParse`. |
| `DiscCase.RespeltFileParses` | src/sdk_port/dvd/DVD.c:325-427 | Every respelling of a file's path finds the file, under the condition of `DiscPaths.ParseFile`. |
| `DiscCase.NameLeads` | src/sdk_port/dvd/DVD.c:364-411 | A last component leads to the first entry of the directory whose name is a respelling of it, provided long names are accepted or it obeys the 8.3 rule; else nowhere. |
| `DiscCase.NameThenRest` | src/sdk_port/dvd/DVD.c:364-427 | Before a slash it leads to the first directory of that name, passing over files, and the rest of the path goes on there. |
| `DiscCase.SpecialForms` | src/sdk_port/dvd/DVD.c:330-362 | Nothing and a dot stay, two dots go up or stay in the root, a slash goes to the root. |
| `DiscCase.Joined` | src/sdk_port/dvd/DVD.c:325-427 | What follows a path that ends in a slash is read from where that path leads. |
| `DiscCase.ShortForms` | src/sdk_port/dvd/DVD.c:364-397 | The 8.3 rule: no dot and any length, or one dot with at most eight characters before it and three after it; never a space or a second dot. |
| `DiscCase.PrintedNames` | src/sdk_port/dvd/DVD.c:429-472 | A printed path is the stored names from the root, as they are spelt, each behind one slash, and a slash at the end. |
| `DiscPaths.EveryDirHasTrail` | src/sdk_port/dvd/DVD.c:440-449 | Every directory entry of a well-formed table is reached from the root by its parents. |
| `DiscTree.TrailEncoded` | src/sdk_port/dvd/DVD.c:440-449 | Along a path every entry is encoded in the table, with the one before it as its parent. |
| `DVD.ChangeToPrinted` | src/sdk_port/dvd/DVD.c:474-486 | Changing to the printed current directory stays there exactly when every name on the way can be read back. |
| `DVD.ResolveLands` | src/sdk_port/dvd/DVD.c:325-427 | A path that is found leads to an entry of the tree. |
| `DVD.Disc.IsSameMem` | src/sdk_port/dvd/DVD.c:131-143 | The loop compares a component with a stored name, ignoring case. |
| `DVD.Disc.ScanName` | src/sdk_port/dvd/DVD.c:364-397 | The scan finds the end of a component and applies the 8.3 rule. |
| `DVD.Disc.FindEntry` | src/sdk_port/dvd/DVD.c:399-411 | The subtree-skipping search over the preorder table finds the child that the tree lookup finds. |
| `DVD.Disc.ConvertPathToEntrynum` | src/sdk_port/dvd/DVD.c:325-427 | On a well-formed table the walk returns the entry number of the component-by-component lookup in the tree, or -1. |
| `DVD.Disc.EntryToPathRec` | src/sdk_port/dvd/DVD.c:429-449 | Writes as much of the path of a directory as fits. |
| `DVD.Disc.ConvertEntrynumToPath` | src/sdk_port/dvd/DVD.c:451-472 | Prints the path, a slash and a terminator, and says whether it fitted. |
| `DVD.Disc.GetCurrentDir` | src/sdk_port/dvd/DVD.c:474-477 | Prints the path of the current directory. |
| `DVD.Disc.ChangeDir` | src/sdk_port/dvd/DVD.c:479-486 | Moves to the directory the path leads to; a path to a file or to nothing changes nothing. |
| `Alarms.RunGood` | src/sdk_port/os/OSAlarm.c:59-184 | After every run the queue is sorted by firing time, and within one instant by order of insertion; an alarm has a handler just while it is pending; a pending periodic alarm is a whole number of periods from its start. |
| `Alarms.QueueUnique` | src/sdk_port/os/OSAlarm.c:66-114 | The queue of a set of alarms is determined by their firing times and order of insertion. |
| `Alarms.PutGood` | src/sdk_port/os/OSAlarm.c:66-114 | Insertion keeps the order and adds exactly the new alarm; removing it again restores the queue. |
| `Alarms.NextFireIsFirst` | src/sdk_port/os/OSAlarm.c:72-80 | A periodic alarm fires at its start if that has not passed, else at the first whole number of periods after it that is strictly later than now. |
| `Alarms.NextFireFits` | src/sdk_port/os/OSAlarm.c:72-80 | With non-negative times and a period of room above now no step of the formula leaves 64 bits. |
| `Alarms.CancelUndoes` | src/sdk_port/os/OSAlarm.c:118-156 | Cancelling an alarm just set restores the queue. |
| `AlarmTimes.SetFires` | src/sdk_port/os/OSAlarm.c:118-122 | An alarm set with a delay is pending and not periodic, fires at the present time plus the delay, and is due from then on; no other alarm's time, period, start or place changes. |
| `AlarmTimes.AloneFires` | src/sdk_port/os/OSAlarm.c:118-184 | Set in an empty queue, it is what firing returns from that time on, and before that firing returns nothing. |
| `AlarmTimes.PeriodicFires` | src/sdk_port/os/OSAlarm.c:126-132 | A periodic alarm first fires at its start if that has not passed, else at the first whole number of periods behind it that has not; no other alarm changes. |
| `AlarmTimes.CancelOnly` | src/sdk_port/os/OSAlarm.c:136-156 | A cancelled alarm is no longer pending; no other alarm's time, period, start or turn changes. |
| `AlarmTimes.FireAgain` | src/sdk_port/os/OSAlarm.c:160-184 | Firing takes a one-shot alarm out for good and sets a periodic one for the first whole number of periods that has not passed; no other alarm changes. |
| `Alarms.FiresFirstDue` | src/sdk_port/os/OSAlarm.c:160-184 | Firing returns nothing exactly when nothing is due, and then changes nothing; else it returns the earliest alarm, and only a periodic one stays pending. |
| `Alarms.FireStep` | src/sdk_port/os/OSAlarm.c:160-184 | A firing takes the first due alarm off those due; one that starts at this instant is due again, behind the others. |
| `Alarms.DrainsIff` | src/sdk_port/os/OSAlarm.c:160-184 | Repeated firing at one instant ends exactly when no due alarm is periodic with its start at that instant; it then fires each due alarm once, in queue order. |
| `OSAlarm.AlarmQueue.constructor` | src/sdk_port/os/OSAlarm.c:50-55 | An empty queue at time 0. |
| `OSAlarm.AlarmQueue.CreateAlarm` | src/sdk_port/os/OSAlarm.c:59-62 | The handler is cleared. |
| `OSAlarm.AlarmQueue.InsertAlarm` | src/sdk_port/os/OSAlarm.c:66-114 | The whole new state. |
| `OSAlarm.AlarmQueue.SetAlarm` | src/sdk_port/os/OSAlarm.c:118-122 | The whole new state. |
| `OSAlarm.AlarmQueue.SetPeriodicAlarm` | src/sdk_port/os/OSAlarm.c:126-132 | The whole new state. |
| `OSAlarm.AlarmQueue.CancelAlarm` | src/sdk_port/os/OSAlarm.c:136-156 | The whole new state; an alarm without a handler is left alone. |
| `OSAlarm.AlarmQueue.FireHead` | src/sdk_port/os/OSAlarm.c:160-184 | The whole new state and the alarm fired, 0 for none. |
| `WaitQueues.RunGood` | src/sdk_port/dvd/dvdqueue.c:46-123 | After every run no block waits twice, and as many wait as were pushed and not yet taken. |
| `WaitQueues.PopTakesFirst` | src/sdk_port/dvd/dvdqueue.c:84-94 | Popping returns nothing exactly when nothing waits; else the longest waiting block of the lowest non-empty queue. |
| `WaitQueues.DrainOrder` | src/sdk_port/dvd/dvdqueue.c:84-94 | Popping until nothing is left serves every block once, by queue, and within a queue in order of arrival. |
| `WaitQueues.PushServed` | src/sdk_port/dvd/dvdqueue.c:46-60 | A pushed block is served behind all that wait in its queue and in the lower-numbered ones, and ahead of all the others, whose turns stay. |
| `WaitQueues.PopLeavesOthers` | src/sdk_port/dvd/dvdqueue.c:64-94 | A pop takes one block out of its queue and leaves every other where it is. |
| `WaitQueues.DequeueOnly` | src/sdk_port/dvd/dvdqueue.c:110-123 | Taking a block out tells whether it waited, and leaves every queue as it was without that block. |
| `Rings.RingPush` | src/sdk_port/dvd/dvdqueue.c:46-60 | Linking in before the sentinel appends, and prev and next agree all the way round. |
| `Rings.RingRemove` | src/sdk_port/dvd/dvdqueue.c:110-123 | Linking the neighbours of a block to each other takes it out, and prev and next agree all the way round. |
| `DVDQueue.SecondDequeueIff` | src/sdk_port/dvd/dvdqueue.c:110-123 | Dequeuing a block that was already dequeued leaves all queues as they are if and only if its old neighbours are next to each other on some queue, or neither of them is on a queue. |
| `DVDQueue.SecondDequeueSpoils` | src/sdk_port/dvd/dvdqueue.c:110-123 | A case in which they are not. |
| `DVDQueue.WaitingQueues.constructor` | src/sdk_port/dvd/dvdqueue.c:34-42 | Four empty queues. |
| `DVDQueue.WaitingQueues.ClearWaitingQueue` | src/sdk_port/dvd/dvdqueue.c:34-42 | Empties all queues; the blocks keep stale links. |
| `DVDQueue.WaitingQueues.PushWaitingQueue` | src/sdk_port/dvd/dvdqueue.c:46-60 | Appends to one queue. |
| `DVDQueue.WaitingQueues.PopWaitingQueuePrio` | src/sdk_port/dvd/dvdqueue.c:64-80 | Takes the first block of one queue and clears its links. |
| `DVDQueue.WaitingQueues.PopWaitingQueue` | src/sdk_port/dvd/dvdqueue.c:84-94 | Takes the first block of the lowest non-empty queue. |
| `DVDQueue.WaitingQueues.CheckWaitingQueue` | src/sdk_port/dvd/dvdqueue.c:98-106 | Whether any block waits. |
| `DVDQueue.WaitingQueues.DequeueWaitingQueue` | src/sdk_port/dvd/dvdqueue.c:110-123 | Takes a waiting block out from anywhere in its queue; false for one that waits nowhere. |
| `DVDQueue.WaitingQueues.IsBlockInWaitingQueue` | src/sdk_port/dvd/dvdqueue.c:127-142 | True exactly for the blocks that wait. |
| `OSTime.OSTicksToCalendarTime` | src/sdk_port/os/OSTime.c:92-118 | For ticks of either sign the calendar time is valid, gives back the seconds rounded down, and msec * 1000 + usec is the sub-second ticks times 8 / 324 rounded down. |
| `OSTime.GetDates` | src/sdk_port/os/OSTime.c:63-88 | For every day number of either sign the date is valid and its day number is the one given; the weekday is right exactly when the C remainder is not negative. |
| `OSTime.TimeUnique` | src/sdk_port/os/OSTime.c:92-118 | A second and microsecond have one calendar time. |
| `OSTime.BiasIsYear2000` | src/sdk_port/os/OSTime.c:90-90 | The bias is the number of the first day of the year 2000. |
| `Calendar.DateUnique` | src/sdk_port/os/OSTime.c:63-88 | A day number has one valid date. |
| `Calendar.LeapDaysCount` | src/sdk_port/os/OSTime.c:57-61 | The closed formula counts the leap years before a year. |
| `Calendar.TableSums` | src/sdk_port/os/OSTime.c:47-50 | The day tables hold the running totals of the month lengths. |
| `Calendar.YearStep` | src/sdk_port/os/OSTime.c:69-74 | Consecutive years start one year length apart. |
| `CardUnlock.Mirrors` | src/sdk_port/card/card_unlock.c:45-101 | For every word and count, the bit reversal of the right-shift register is the left-shift register of the bit reversal. |
| `CardUnlock.RightBits` | src/sdk_port/card/card_unlock.c:45-57 | Bit by bit what a right shift does: place 30 is set if bit 31 was or if an even number of bits 0, 7, 15 and 23 were. |
| `CardUnlock.LeftBits` | src/sdk_port/card/card_unlock.c:61-73 | The same for a left shift: place 1, and bits 0, 31, 24, 16 and 8. |
| `CardUnlock.RightsOneToOne` | src/sdk_port/card/card_unlock.c:45-57 | Any number of right shifts is one-to-one on values below 2^31. |
| `CardUnlock.CollisionsIff` | src/sdk_port/card/card_unlock.c:45-57 | Over all 32-bit words two values collide after n > 0 shifts exactly when bits 1 to 30 agree and so does the top bit or-ed with the bit let in. |
| `CardUnlock.ReversedBits` | src/sdk_port/card/card_unlock.c:77-101 | Bit i of the reversal is bit 31 - i of the word. |
| `CardUnlock.ReversedTwice` | src/sdk_port/card/card_unlock.c:77-101 | Reversal is its own inverse. |
| `CardUnlock.StepUndone` | src/sdk_port/card/card_unlock.c:45-57 | On 31-bit values one right shift can be undone. |
| `CardUnlock.Exnor1st` | src/sdk_port/card/card_unlock.c:45-57 | The loop computes n steps of the right register. |
| `CardUnlock.Exnor` | src/sdk_port/card/card_unlock.c:61-73 | The loop computes n steps of the left register. |
| `CardUnlock.BitRev` | src/sdk_port/card/card_unlock.c:77-101 | The loop, with its two phases and last case, reverses the word. |
| `CardUnlock.WidthDoesNotMatter` | src/sdk_port/card/card_unlock.c:105-116 | From every seed the generator draws the same numbers with a 32-bit and with a 64-bit `unsigned long`. |
| `CardUnlock.FirstDraws` | src/sdk_port/card/card_unlock.c:105-116 | From the seed it starts with the generator draws 16838, 5758, 10113, 17515. |
| `CardUnlock.Generator.Srand` | src/sdk_port/card/card_unlock.c:107-110 | Restarts the generator at the seed. |
| `CardUnlock.Generator.Rand` | src/sdk_port/card/card_unlock.c:112-116 | The next draw from the seed, below 32768. |

## Left out

* Condition variables and joining (`src/sdk_port/os/osthread.c:774-837`). Waiting on a condition parks a thread whose mutex
  field names a mutex that may have no owner, which the chain of owners does not expect. Mutex and wait-queue set-up calls
  are left out with them: a field that was never written reads as zero, as in cleared RAM.
* Byte-level RAM: big-endian loads and stores, address arithmetic of records, overlap of records. Fields are typed and
  addresses are names of records. The mirror of allocator state in a second store is left out for the same reason.
* The ready word of the scheduler is a set of bit numbers in the class; `ReadyBits.WordOps` and
  `ReadyBits.CountLeadingZeros` prove the word operations equal to the set operations.
* Thread ids, and the counters and logs that only tests read. The capped transfer log of the ARAM queue is an unbounded
  history.
* The heap tag of an allocated cell, which is written and never read; and a null heap array, which makes every call fail.
* Owner and callback addresses of ARAM requests; a callback is the step that counts the request as done.
* The directory half of the card: comparing names, access rights, finding files, and verifying the ID and directory blocks
  (`src/sdk_port/card/card_dir.c:43-143`, `src/sdk_port/card/CARDCheck.c:75-157`); they are loops over fields with no state.
* Disc reads, the string table's offsets (an entry holds its name), the fallback path table, and printing the path of a
  file: the printer reads a file's disc position as its parent.
* Writing back or mounting through the card's hardware interface.
* The other SDK modules (graphics, matrices, video, pads, serial, audio, caches) and the tools.
- CardSeek.SeekLands: offsets and lengths are non-negative and offset + length does not overflow 32 bits, as every caller ensures; the sector size is any positive number, so masking is rounding down to its multiple.
- Alarms.RunGood: times are unbounded integers; `Alarms.NextFireFits` says when 64 bits suffice, beyond that signed overflow is undefined in C.
- OSTime.OSTicksToCalendarTime: asks that the whole seconds in the ticks fit 64 bits, without which the subtraction in the source overflows; that excludes less than one second at the low end.
- DVDQueue.WaitingQueues.DequeueWaitingQueue: a block that was dequeued before and not pushed since is outside its contract; `DVDQueue.SecondDequeueIff` says what happens then.
- HeapRuns.HeapsStaySound: a request above 0x7FFFFFC0 bytes is not among the allowed calls, nor is freeing a pointer that is not live; `HeapOps.AllocGoodIff` says what the first does.
- SchedRuns.RunGood: cancelling a thread in a ring of waiters is not among the allowed calls (`SchedRing.CancelFaultsIff` says what it does), nor is blocking, or leaving the processor for good, while the scheduler is disabled.
- OSThread.Scheduler.CreateThread: asks for a slot that is not in use; the source never looks, and overwrites a live thread's fields while it stands in queues.
- OSThread.Scheduler.SuspendThread: the running thread does not suspend itself while the scheduler is disabled; the source would leave it current but not running.
- OSThread.Scheduler.Sleep: asks for an enabled scheduler and no retry ahead of the caller; with the scheduler disabled the source parks the running thread and then lets it run on.
- OSThread.Scheduler.ExitThread: asks for an enabled scheduler, for the same reason.
- OSThread.Scheduler.LockMutex: a contended lock asks for an enabled scheduler, for the same reason.
- OSThread.Scheduler.RetryLock: asks for an enabled scheduler, for the same reason.
- OSThread.Scheduler.ProcessPendingLocks: asks for an enabled scheduler, for the same reason.
- OSThread.Scheduler.SendMessage: a blocking send on a full queue asks for what sleeping asks for.
- OSThread.Scheduler.JamMessage: a blocking jam on a full queue asks for what sleeping asks for.
- OSThread.Scheduler.ReceiveMessage: a blocking receive on an empty queue asks for what sleeping asks for.
- OSThread.Scheduler.InitMessageQueue: asks that nobody is parked on the queue, whose heads the source clears, and for at most 16 slots, which is how many a queue's record has in the model.
- OSThread.Scheduler.CancelThread: a thread in a ring of waiters is outside the contract, because what the source then writes is not described by the scheduler's fields; `SchedRing.CancelFaultsIff` says exactly when.
- SchedExit.CancelGood: the same.
- OSAlloc.Allocator.CreateHeap: asks for a range inside the arena, of at least 0x40 bytes, that overlaps no live heap; the source asserts nothing and would build cells in foreign memory.
- OSAlloc.Allocator.AddToHeap: the same.
- OSAlloc.Allocator.AllocFromHeap: sizes 0x7FFFFFC1 to 0x7FFFFFFF are outside the contract; `HeapOps.AllocGoodIff` says what they do.
- OSAlloc.Allocator.Alloc: the same.
- OSAlloc.Allocator.FreeToHeap: asks for a pointer to a live cell of the heap, as the source's interface does.
- OSAlloc.Allocator.Free: the same for the current heap.
- ArqDriver.Driver.PostRequest: a record that is still waiting or under way is not posted again; the source would link it into two places.
- DVD.Disc.EntryToPathRec: asks for a directory; the source reads a file's disc position as its parent.
- DVD.Disc.ConvertEntrynumToPath: the same.
- OSAlarm.AlarmQueue.InsertAlarm: asks that the alarm is not pending; the source would link it in twice.
- OSAlarm.AlarmQueue.SetAlarm: the same.
- OSAlarm.AlarmQueue.SetPeriodicAlarm: the same.
- DVDQueue.WaitingQueues.PushWaitingQueue: asks that the block does not wait already; the source would link it in twice.
