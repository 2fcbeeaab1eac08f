# Crunch concurrency: a model of its waiter machinery and blocking primitives

A Dafny model of the lock-free waiter list of the Crunch library, of the event, mutex and
semaphore built on it, of the tagged LIFO list with its queue and the waiter allocator, of
WaitForAny, WaitForAll and the meta scheduler's run loop, and of the thread pool, the spin
barrier and the system semaphore.

There are two kinds of files.

* **Machines.** Code whose point is what other threads do in between is a state machine over
  values: one step is one access to shared memory (or one stretch of code under a lock), any
  number of threads, any order, sequentially consistent. A run is a sequence of such moves and
  the main theorems speak about every run. `WaiterProtocol` has one program point for each
  point of AddWaiter, RemoveWaiter, Lock, Unlock, Post, Set and Reset; `WaiterSpec` says,
  without words, tags or links, which actions are legal when, the start and the return of
  every call included; `WaiterInvariant` and `WaiterRefinement` connect them;
  `WaiterTheorems` states the results, `WaiterOutcomes`, `WaiterHistories` and `WaiterLaws`
  what follows for every legal history, the last from its actions alone, `WaiterRuns` what
  that means for runs, and `WaiterProgress` when calls return. `LifoLists`, `LifoSpec`,
  `LifoProofs`, `LifoTheorems`, `LifoOutcomes`, `LifoLaws`, `LifoRuns` and `LifoProgress` do
  the same for the tagged stacks, and `LifoAba` shows exactly how late a pop may be.
  `RunTurns` says which scheduler gets its turn when, `RunStrands` when the end of the run
  loop can sleep on for ever, `PoolProgress` that the pool gets its work done.
* **Objects.** The code as it is written, over classes with mutable fields: the heap walks
  (`WaiterUtility`), whole calls of the list, event, mutex, semaphore, LIFO list and queue
  (`WaiterCalls`, `LifoCalls`), and the lock-protected stretches of `ThreadPool` and
  `RunLoop`: each method keeps the invariant its machine keeps, does what one move of the
  machine does, and says what that means for its caller. `ObjectChains` has the linked
  nodes, `Sequences`, `Chains`, `Numbers`, `Logs`, `Rosters`, `Storages` and
  `CallerMoves` what several modules need.

`WordBits` and `PackedWord` are about the 64 bits of the packed word, for both pointer sizes,
and show that the record the machine uses for it goes through every update with it;
`PackedRuns` carries that through whole runs.

Callers keep the library's contract: a waiter is added only while it is in no list, not
claimed and nobody is removing it; it is removed only after AddWaiter returned; only the holder
unlocks; node memory stays readable; addresses fit PTR_MASK. Atomic `Increment` and `Decrement`
return the old value, as the library's do.

Where the code does less than it seems to, the model keeps the code and states the exact
boundary: `SystemSemaphore.SoundIffZero`, `PoolTheorems.ShutdownHangsIff`,
`RunStrands.StrandsIff`, `RunTheorems.DrainWokenIff`, `WaitForAll.AwaitsUnorderedIff`,
`SpinBarrier.ReuseUnderflowsIff`, `LifoAba.WindowIff` and `WaiterProgress.ReturnsAloneIff`.

## Model

| member | source | states |
|---|---|---|
| `WaiterTheorems.Linearizable` | source/waiter_list.cpp:10-49 | in every interleaving of AddWaiter, RemoveWaiter, Lock, Unlock, Post, Set and Reset by any number of threads, calls and returns included, the steps form a legal sequential history; word, chain of `next` fields and count are the state it leads to |
| `WaiterOutcomes.OneEffectPerCall` | source/waiter_list.cpp:10-49 | between the start and the return of a call its thread takes exactly the effect of that call, once, and the effect fixes the result: a true AddWaiter pushed, a false one was refused, took the mutex or a permit; a true RemoveWaiter removed, a false one found nothing; Unlock released or granted and notified one; Post posted and then granted one or found none; Set took the list and notified all of it in order |
| `WaiterOutcomes.CallsReturn` | source/mutex.cpp:36-77 | a thread has as many returns as calls, plus one call while it is inside one |
| `WaiterRuns.CallsTakeEffect` | source/event.cpp:15-82 | over whole runs: the calls logged are the calls made, in order; a thread is idle exactly if all its calls returned; every returned call had its one effect and result |
| `WaiterLaws.ListAnswers` | source/waiter_list.cpp:10-49 | from the actions before it alone: RemoveWaiter returns true exactly for a waiter registered and not taken out since; a Post that wakes nobody, an Unlock that frees the mutex and a refused AddWaiter find nobody waiting; a grant goes to the waiter registered last; Set takes exactly those that wait, last one first |
| `WaiterLaws.EventAnswers` | source/event.cpp:15-82 | AddWaiter is refused and Set does nothing exactly while the event was set at the start or by a Set and not reset since |
| `WaiterLaws.MutexAnswers` | source/mutex.cpp:15-111 | the mutex is taken only while everybody who took it freed it; Lock gives up, waiters queue and Unlock works only otherwise, Unlock by the thread that took it or had it handed over last |
| `WaiterLaws.CountAnswers` | source/semaphore.cpp:14-69 | Post and AddWaiter see the initial count plus the posts less the AddWaiters before them |
| `WaiterRuns.ChainTold` | source/event.cpp:24-27 | over whole runs: the chain from the word's pointer is exactly the waiters registered and not taken out since, last one first |
| `WaiterRuns.EventWordTold` | include/crunch/concurrency/event.hpp:43-51 | over whole runs: EVENT_SET_BIT is set exactly while the event was set at the start or by a Set and no Reset came since |
| `WaiterRuns.MutexWordTold` | source/mutex.cpp:15-82 | over whole runs: the word is MUTEX_FREE_BIT exactly if everybody who took the mutex freed it |
| `WaiterProgress.ReturnsAlone` | source/waiter_list.cpp:10-49 | whatever other threads left behind, a call that now runs alone is over after at most three steps for each waiter, two for each callback it owes, its spins and seven, unless another thread holds LOCK_BIT or it is a Set or Post that has read LOCK_BIT |
| `WaiterProgress.SpinsForEver` | source/event.cpp:54-80 | a Set or Post that has read LOCK_BIT never returns, whatever other threads do: its loop does not load the word again |
| `WaiterProgress.ReturnsAloneIff` | source/semaphore.cpp:21-42 | with nobody else holding LOCK_BIT a call left alone returns if and only if it is not such a Set or Post |
| `WaiterTheorems.LockBitExclusive` | source/waiter_list.cpp:36-43 | LOCK_BIT is set exactly while some thread is between taking and clearing it, and that thread is unique |
| `WaiterTheorems.NoAssertFails` | include/crunch/concurrency/waiter_utility.hpp:15-30 | no assertion of the list walk, Unlock or AddWaiter ever fails, for events, mutexes and semaphores |
| `WaiterTheorems.MutexWord` | source/mutex.cpp:36-111 | the free bit is set exactly while nobody owns the mutex and then the whole word is MUTEX_FREE_BIT; a set LOCK_BIT comes with a non-empty list; who is inside Unlock owns the mutex |
| `WaiterTheorems.SetEventHasNoWaiters` | source/event.cpp:15-82 | a set event has a null list pointer and no registered waiter, whatever Set, Reset, AddWaiter and RemoveWaiter do at the same time |
| `WaiterTheorems.NoStalePop` | source/mutex.cpp:61-73 | a pop whose CAS is about to succeed installs the node that follows the head now, although a full release resets the tag to zero |
| `WaiterRuns.ScanUndisturbed` | include/crunch/concurrency/waiter_utility.hpp:15-30 | while RemoveWaiter scans, every step of another thread leaves the unseen part of the list and its links as they are and at most prepends one waiter |
| `WaiterRuns.ScanBounded` | source/waiter_list.cpp:36-43 | the scan ends: in every run the scanner takes at most two steps and three for every waiter that was in the list when it set LOCK_BIT, whatever others do and add meanwhile; from any later point at most its rank there |
| `WaiterHistories.EndedExactlyOnce` | source/waiter_list.cpp:16-45 | AddWaiters that returned true = RemoveWaiters that returned true + claims by notifiers + still registered; claims = callbacks run + claimed waiters; a waiter is claimed exactly while some thread still has to run its callback |
| `WaiterHistories.AbsentOnlyIfEnded` | source/waiter_list.cpp:16-45 | RemoveWaiter returns false for a waiter that was added only if it was claimed or removed since |
| `WaiterHistories.GrantsNewest` | include/crunch/concurrency/mutex.hpp:15-15 | a waiter granted while another stays registered was added after it: last in, first out |
| `WaiterHistories.SetNotifiesItsChain` | source/event.cpp:64-76 | the callbacks a detaching Set runs are exactly the waiters it detached, in list order |
| `WaiterHistories.MutualExclusion` | source/mutex.cpp:15-77 | between two entries into the mutex the first holder released it or handed it over |
| `WaiterHistories.OneOwner` | source/mutex.cpp:36-77 | acquisitions = releases + one while locked; handovers = resumptions + one while a granted waiter has not resumed |
| `WaiterHistories.SemaphoreAccounts` | source/semaphore.cpp:14-69 | max(mCount, 0) = initial + posts that saw a non-negative count - direct acquisitions; every other post grants one waiter, finds none, or is still under way |
| `WaiterHistories.PermitsAccounted` | source/semaphore.cpp:14-74 | in every interleaving max(-mCount, 0) + posts between count and grant + posts that found nobody = registered waiters + AddWaiters between count and push + true RemoveWaiters: exactly which permits are lost |
| `WaiterHistories.NeverOverGrants` | source/semaphore.cpp:14-69 | direct acquisitions and grants together never exceed the initial count plus the posts, RemoveWaiter included |
| `WaiterRuns.EndedOnce` | source/waiter_list.cpp:16-45 | over whole runs: AddWaiters that returned true = true RemoveWaiters + callbacks run + one while the waiter is listed or claimed |
| `WaiterRuns.OneUnlocker` | source/mutex.cpp:36-77 | in every run at most one thread is inside Unlock |
| `WaiterRuns.GrantsBounded` | source/semaphore.cpp:14-69 | over whole runs: permits handed out are within initial count plus posts, and max(mCount, 0) is what is left of the early posts |
| `WaiterUtility.RemoveWaiterFromListNotAtHead` | include/crunch/concurrency/waiter_utility.hpp:15-30 | returns whether the waiter was in the chain, takes exactly it out, and writes one `next` field, that of its predecessor |
| `WaiterUtility.RemoveWaiterFromList` | include/crunch/concurrency/waiter_utility.hpp:36-43 | the chain from the returned head is the old one without the waiter |
| `WaiterUtility.NotifyAllWaiters` | include/crunch/concurrency/waiter_utility.hpp:46-56 | every waiter is notified once, in order, although a callback may rewrite its own waiter and those notified before |
| `WaiterCalls.WaiterList.RemoveWaiter` | source/waiter_list.cpp:10-49 | a call with no other running removes the waiter if it was there, says so, and keeps order, flag and the waiter's own `next` |
| `WaiterCalls.WaiterList.Push` | source/event.cpp:24-27 | the waiter becomes the first of the chain |
| `WaiterCalls.WaiterList.Pop` | source/mutex.cpp:56-73 | the first waiter of the chain is taken off and returned |
| `WaiterCalls.WaiterList.Unlock` | source/waiter_list.cpp:40-42 | once the chain from the pointer is the list again, clearing LOCK_BIT makes the whole list valid for other calls; pointer, flag and tag stay |
| `WaiterCalls.Event.AddWaiter` | source/event.cpp:15-31 | queues the waiter in front, or returns false exactly on a set event |
| `WaiterCalls.Event.Set` | source/event.cpp:43-82 | sets the event, empties the list and notifies exactly its waiters, newest first |
| `WaiterCalls.Event.Reset` | include/crunch/concurrency/event.hpp:43-46 | clears the flag and nothing else |
| `WaiterCalls.Event.IsSet` | include/crunch/concurrency/event.hpp:48-51 | tells whether the event is set; then nobody is waiting |
| `WaiterCalls.Event.RemoveWaiter` | source/event.cpp:33-36 | removes the waiter if it was there and keeps the set flag |
| `WaiterCalls.Mutex.Lock` | source/mutex.cpp:15-34 | takes a free mutex; on a held one it changes nothing and goes on to wait |
| `WaiterCalls.Mutex.Spin` | source/mutex.cpp:21-31 | the spin loop takes a free mutex if it may spin at all |
| `WaiterCalls.Mutex.Unlock` | source/mutex.cpp:36-77 | with waiters the newest one gets the mutex, which stays locked; without it becomes free |
| `WaiterCalls.Mutex.IsLocked` | source/mutex.cpp:79-82 | true exactly on a locked mutex |
| `WaiterCalls.Mutex.AddWaiter` | source/mutex.cpp:84-111 | takes a free mutex and returns false, or queues the waiter in front |
| `WaiterCalls.Mutex.RemoveWaiter` | source/mutex.cpp:113-116 | removes the waiter if it was there and keeps the mutex locked or free |
| `WaiterCalls.Semaphore.constructor` | source/semaphore.cpp:9-12 | a new semaphore has its initial count and no waiters |
| `WaiterCalls.Semaphore.Post` | source/semaphore.cpp:14-44 | raises the count; a negative one means exactly the newest waiter is notified; list length stays max(-mCount, 0) |
| `WaiterCalls.Semaphore.AddWaiter` | source/semaphore.cpp:46-69 | lowers the count and queues the waiter exactly if there was no permit; list length stays max(-mCount, 0) |
| `WaiterCalls.Semaphore.RemoveWaiter` | source/semaphore.cpp:71-74 | list length = max(-mCount, 0) survives exactly if nothing was removed |
| `PackedWord.BothValid` | include/crunch/concurrency/detail/waiter_list.hpp:17-30 | in both layouts flags, pointer and tag are disjoint and fill the 64 bits; there are 2^16 and 2^30 tags |
| `PackedWord.PackPointer` | include/crunch/concurrency/detail/waiter_list.hpp:32-41 | SetPointer then GetPointer gives the pointer back and keeps flags and tag |
| `PackedWord.PackBump` | include/crunch/concurrency/detail/waiter_list.hpp:21-28 | adding ABA_ADDEND advances the tag by one modulo their number and touches neither pointer nor flags, also on wrap-around |
| `PackedWord.UpdatesAgree` | source/event.cpp:59-69 | every update the algorithms make to the 64-bit word does to its fields what the machine's step does to its record |
| `PackedWord.EffectsAreUpdates` | source/mutex.cpp:64-66 | those are the updates of the interleaving machine |
| `PackedWord.SameWordIff` | source/waiter_list.cpp:32-38 | two packed words are equal exactly if the records are, so both CASes succeed together |
| `PackedWord.NoHiddenUpdate` | source/mutex.cpp:63-66 | a word equal to an older reading, with fewer bumps in between than tags and no mutex release, was not bumped at all |
| `PackedRuns.PackedThroughout` | include/crunch/concurrency/detail/waiter_list.hpp:17-50 | over every run of an event, mutex or semaphore the 64-bit word, updated bit by bit as the code does, packs the machine's record at every moment |
| `LifoTheorems.Linearizable` | include/crunch/concurrency/mpmc_lifo_list.hpp:30-70 | every interleaving of any number of threads on any number of tagged stacks, the queue and the allocator, nodes being reused, calls and returns included, is a legal history of plain stacks; each root's chain is that stack |
| `LifoOutcomes.OneEffectPerCall` | include/crunch/concurrency/mpmc_lifo_queue.hpp:49-72 | between the start and the return of a call its thread takes exactly the effect of that call, once, and the effect fixes the result: Pop returns the top or null on an empty stack, TryPop the newest value, a queue Push queues its own value in a spare or new node, Allocate hands out the block it took |
| `LifoRuns.CallsTakeEffect` | include/crunch/concurrency/mpmc_lifo_list.hpp:30-70 | over whole runs: the calls logged are the calls made, in order; a thread is idle exactly if all its calls returned; every returned call had its one effect and result |
| `LifoLaws.ListAnswers` | include/crunch/concurrency/mpmc_lifo_list.hpp:30-70 | from the actions before it alone: Pop and TryPop get the node that came last of those there, and nothing exactly if none is there; what is pushed was on no list |
| `LifoLaws.AllocateAnswers` | source/waiter.cpp:105-122 | Allocate takes the block its own thread freed last, and looks at the shared list only if there is none |
| `LifoLaws.ValueAnswers` | include/crunch/concurrency/mpmc_lifo_queue.hpp:49-72 | TryPop takes the value its node was last queued with |
| `LifoLaws.QueueEmptyAnswers` | include/crunch/concurrency/mpmc_lifo_queue.hpp:62-66 | a TryPop that gets nothing finds as many values taken as were queued |
| `LifoLaws.BornOnce` | include/crunch/concurrency/mpmc_lifo_queue.hpp:52-54 | no node is made twice |
| `LifoRuns.ChainTold` | include/crunch/concurrency/mpmc_lifo_list.hpp:30-70 | over whole runs: the chain of every list in memory is exactly the nodes put on it and not taken off since, last one first |
| `LifoProgress.ReturnsAlone` | include/crunch/concurrency/mpmc_lifo_list.hpp:30-70 | from whatever state others left it in, a call that now runs alone is over after at most eleven steps |
| `LifoTheorems.NoStalePop` | include/crunch/concurrency/mpmc_lifo_list.hpp:50-70 | a Pop whose CAS is about to succeed installs the successor of the top |
| `LifoTheorems.OneOwnerPerNode` | include/crunch/concurrency/mpmc_lifo_queue.hpp:43-72 | a node that was ever allocated is always in exactly one place: on one stack, on one thread's free list, with a client, or carried by the one call whose program point names it; so no call loses a node |
| `LifoTheorems.StorageFilled` | include/crunch/concurrency/mpmc_lifo_queue.hpp:43-72 | outside calls a node holds a constructed value exactly while it is on the value stack |
| `LifoOutcomes.ValuesConserved` | include/crunch/concurrency/mpmc_lifo_queue.hpp:49-72 | for every value: Pushes called with it = TryPops that returned it + copies in the queue + Push and TryPop calls under way with it |
| `LifoRuns.QueueConserves` | include/crunch/concurrency/mpmc_lifo_queue.hpp:49-72 | the same over whole runs, with the copies in the queue being the slots of the nodes chained from mQueueNodes |
| `LifoTheorems.HandedOutOnce` | source/waiter.cpp:105-122 | a waiter block is handed out once more than it was given back while a client has it, else equally often |
| `LifoAba.WindowIff` | include/crunch/concurrency/mpmc_lifo_list.hpp:50-70 | every run in which successful pop CASes come fewer than w updates after their load keeps all lists plain stacks if and only if w is at most the number of tags (two if there is no tag); for every number of tags and every w |
| `LifoAba.StalledPopBreaksTheList` | include/crunch/concurrency/mpmc_lifo_list.hpp:50-70 | a CAS later than that by one update suffices: for every number of tags a run that ends with a node a client holds on top of the list |
| `LifoCalls.MPMCLifoList.Push` | include/crunch/concurrency/mpmc_lifo_list.hpp:30-48 | the node becomes the top of the list |
| `LifoCalls.MPMCLifoList.Pop` | include/crunch/concurrency/mpmc_lifo_list.hpp:50-70 | returns null exactly on an empty list, else takes the top |
| `LifoCalls.MPMCLifoQueue.Push` | include/crunch/concurrency/mpmc_lifo_queue.hpp:49-60 | the value becomes the newest; a node is allocated exactly if no spare one exists |
| `LifoCalls.MPMCLifoQueue.TryPop` | include/crunch/concurrency/mpmc_lifo_queue.hpp:62-72 | returns the newest value and removes it, or nothing exactly if the queue is empty |
| `SystemSemaphore.Balanced` | source/platform/darwin/system_semaphore.cpp:29-52 | threads committed to the kernel wait - kernel count - signals on their way = max(-mCount, 0); posts - completed waits = what is left to take |
| `SystemSemaphore.BlockedOnlyWhenConsumed` | source/platform/win32/system_semaphore.cpp:23-46 | with no call between its two accesses a thread is blocked only if every post has let somebody through |
| `SystemSemaphore.TryWaitAnswers` | source/platform/darwin/system_semaphore.cpp:41-52 | TryWait takes a permit exactly when its CAS sees the positive count it loaded, gives up only on a count that is not positive, and changes nothing else |
| `SystemSemaphore.CallsFinish` | source/platform/darwin/system_semaphore.cpp:24-52 | without new calls the calls under way take boundedly many steps, and when none can step all are over or blocked with every post consumed |
| `SystemSemaphore.SoundIffZero` | source/platform/darwin/system_semaphore.cpp:13-22 | no run grants more than initial count plus posts if and only if the initial count is zero, as it is given to counter and kernel object both |
| `SpinBarrier.NobodyPassesEarly` | include/crunch/concurrency/spin_barrier.hpp:23-40 | with two barriers used in turn by N threads nobody passes a phase before all N arrived there |
| `SpinBarrier.BarrierFreshOnEntry` | benchmark/mpmc_lifo_list_benchmarks.cpp:96-120 | a thread enters a barrier only after its counts were reset, and no decrement underflows |
| `SpinBarrier.OneWinnerPerPhase` | include/crunch/concurrency/spin_barrier.hpp:31-37 | every completed phase has exactly one thread that returns true |
| `SpinBarrier.NeverStuck` | include/crunch/concurrency/spin_barrier.hpp:26-28 | in every reachable state some thread can go on |
| `SpinBarrier.ReuseUnderflowsIff` | include/crunch/concurrency/spin_barrier.hpp:23-40 | one barrier reused back to back by n threads can have its wait count decremented below zero if and only if n is at least two |
| `PoolTheorems.WorkConserved` | source/thread_pool.cpp:39-86 | items are taken in the order submitted; threads never exceed the maximum; before shutdown, while a worker sleeps there are at least as many woken workers as items, and queued work always has a worker awake |
| `PoolTheorems.ExecutedExactlyOnce` | source/thread_pool.cpp:14-80 | each submission is queued, being run or run, once; while the destructor runs what is left, each is still to come or run, once; after it each has been run as often as it was submitted |
| `PoolTheorems.AddLeavesOneFree` | source/thread_pool.cpp:39-48 | while the pool may grow, right after a submission some worker is neither running an item nor gone |
| `PoolProgress.ComesToRest` | source/thread_pool.cpp:50-80 | without submissions and spurious wake-ups the pool takes boundedly many steps, the destructor's included |
| `PoolProgress.RestMeansDone` | source/thread_pool.cpp:50-80 | when no worker can step before shutdown, the queue is empty and every item has been run as often as it was submitted |
| `PoolTheorems.SleepsThroughShutdown` | source/thread_pool.cpp:55-64 | a worker asleep after the destructor's WakeAll is woken by nobody, and the join does not finish |
| `PoolTheorems.ShutdownHangsIff` | source/thread_pool.cpp:50-57 | shutdown can hang if and only if more workers have passed their test of mStop without the lock than items are queued when mStop is set |
| `PoolTheorems.ShutdownCanHang` | source/thread_pool.cpp:50-57 | such a state is reachable with one worker and one item |
| `ThreadPool.ThreadPool.constructor` | source/thread_pool.cpp:8-12 | a new pool keeps the invariant and has no workers, no work and nobody idle |
| `ThreadPool.ThreadPool.AddWorkItem` | source/thread_pool.cpp:39-86 | queues the item last; starts a thread if and only if no worker is in the condition wait or on its way out of it and the maximum allows, else wakes one of those asleep if any; unless the maximum is zero some worker is then neither asleep nor gone |
| `ThreadPool.ThreadPool.EnterLock` | source/thread_pool.cpp:52-57 | a worker takes the oldest item, or sleeps exactly if there is none; the idle count grows only if it sleeps |
| `ThreadPool.ThreadPool.ResumeFromWait` | source/thread_pool.cpp:55-70 | a woken worker leaves on mStop with the queue untouched, else takes the oldest item or sleeps again; the idle count follows |
| `ThreadPool.ThreadPool.BeginShutdown` | source/thread_pool.cpp:16-20 | sets mStop and leaves no worker asleep; mIdleThreadCount is then the number of woken ones |
| `ThreadPool.ThreadPool.RunRemaining` | source/thread_pool.cpp:27-30 | runs what is queued, in order; afterwards every item was run as often as it was submitted |
| `WaitForAny.ReturnsExactlyTheSignaled` | source/meta_scheduler.cpp:65-110 | in every interleaving with callbacks: the assertion holds; on return the result is non-empty and is exactly the waitable found ready followed by those claimed; tokens consumed = callbacks posted |
| `WaitForAny.AsksUntilReady` | source/meta_scheduler.cpp:75-86 | AddWaiter is called on the waitables in array order until one is ready; exactly those found not ready get a waiter, and only they can be claimed |
| `WaitForAny.ReturnsWhatWasFound` | source/meta_scheduler.cpp:75-110 | a position is in the result exactly if AddWaiter found it ready or a notifier claimed its waiter; the ready one comes first, the others in array order; every claim's callback has run |
| `WaitForAny.CallerReturns` | source/meta_scheduler.cpp:65-110 | whatever notifiers do the caller takes at most 4n + 9 steps, and it can step unless it has returned or waits for a token |
| `WaitForAny.DestroyedAfterCallback` | source/meta_scheduler.cpp:98-107 | once WaitForAny destroys waiters, no notifier has a move left, then or after any further moves: no callback can still reach a destroyed waiter |
| `WaitForAny.DrainWaitsForCallback` | source/meta_scheduler.cpp:95-102 | the draining loop blocks only while a claimed waiter's callback is still to run |
| `WaitForAll.Split` | source/meta_scheduler.cpp:29-58 | the two arrays are the ordered and unordered waitables in array order; the registration loop covers the first so many of the whole array |
| `WaitForAll.AwaitsUnorderedIff` | source/meta_scheduler.cpp:53-58 | the registration loop covers exactly the unordered waitables if and only if none follows an ordered one |
| `WaitForAllUnordered.AwaitsAllIff` | source/meta_scheduler.cpp:53-58 | without duplicates, every unordered waitable is awaited if and only if the unordered ones come first |
| `WaitForAllUnordered.ReturnsWhenAllNotified` | source/meta_scheduler.cpp:53-62 | when WaitForAll returns each awaited waitable was ready or has notified, and the semaphore is back at zero |
| `WaitForAllUnordered.AsksEveryOne` | source/meta_scheduler.cpp:53-58 | AddWaiter is called once on each awaited waitable in order; exactly those found not ready get a waiter |
| `WaitForAllUnordered.ReturnsWhenAllAnswered` | source/meta_scheduler.cpp:53-62 | when WaitForAll returns, each awaited waitable was found ready by AddWaiter or its waiter was claimed and its callback has run, never both |
| `WaitForAllUnordered.CallerReturns` | source/meta_scheduler.cpp:53-62 | whatever notifiers do the caller takes at most 2n + 2 steps, and it can step unless it has returned or waits for a token |
| `WaitForAllUnordered.BlocksOnlyForOutstanding` | source/meta_scheduler.cpp:60-61 | it blocks only while an awaited waitable has yet to notify |
| `WaitForAll.SortedIsStrict` | source/meta_scheduler.cpp:44-46 | sorting an array without duplicates makes the addresses strictly increasing |
| `WaitForAll.DeadlockFree` | source/meta_scheduler.cpp:44-51 | threads that each acquire such an array in address order never deadlock: in every reachable state with an unfinished thread some thread can step |
| `WaitForAll.HoldsWhatItPassed` | source/meta_scheduler.cpp:44-51 | until it has them all a thread holds exactly the mutexes it has gone past; no two threads ever hold the same one |
| `WaitForAll.HoldsAllAtOnce` | source/meta_scheduler.cpp:44-51 | the step that takes a thread past its last waitable leaves it holding all of them |
| `WaitForAll.AcquiresEachOnce` | source/meta_scheduler.cpp:44-51 | a thread acquires each mutex it has gone past exactly once and no other; a finished one has acquired and released each it wanted exactly once |
| `WaitForAll.StepsRunOut` | source/meta_scheduler.cpp:44-51 | every step lowers a non-negative rank |
| `WaitForAll.RunsFinish` | source/meta_scheduler.cpp:44-51 | a run has at most three moves for every waitable of every thread and one a thread, and it cannot go on exactly when every thread has acquired and released all its waitables |
| `RunTheorems.SchedulersAccounted` | source/meta_scheduler.cpp:388-474 | in every interleaving with callbacks: active and idle lists hold no scheduler twice and partition the schedulers, activeCount = active + idle but signalled, pollingCount = active last seen polling (less one in transition) |
| `RunTurns.SignalledIsCollected` | source/meta_scheduler.cpp:392-409 | a scheduler whose callback has run when activeCount is compared is active when the next pass begins; one still idle stays idle unless its callback runs meanwhile |
| `RunTurns.PassRunsAll` | source/meta_scheduler.cpp:411-451 | a pass not broken off by stop calls the Run of every scheduler active at its start, once and in order |
| `RunTurns.SignalledIsRun` | source/meta_scheduler.cpp:392-451 | so a signalled scheduler is run in the next pass |
| `RunTurns.ComesRound` | source/meta_scheduler.cpp:388-474 | with n schedulers the main thread is back at the top, in its idle wait or out of the loop after at most 2n + 7 steps of its own |
| `RunTurns.SleepsWhenAllIdle` | source/meta_scheduler.cpp:454-466 | with every scheduler idle after a pass and no callback to come the main thread is in its idle wait after two steps and stays there |
| `RunTurns.StopsSoon` | source/meta_scheduler.cpp:343-349 | once stop is set no scheduler is run any more and the main thread leaves the loop within seven steps of its own |
| `RunTheorems.SleepsOnlyWithoutWork` | source/meta_scheduler.cpp:454-466 | asleep in the idle wait with no wake-up pending, activeCount is zero, stop is false, and every scheduler is idle with its waiter registered or its callback due |
| `RunTheorems.IdleWaitIsWoken` | source/meta_scheduler.cpp:343-372 | any callback wakes that wait |
| `RunTheorems.LeavesNothingBehind` | source/meta_scheduler.cpp:476-489 | when Run leaves, no scheduler's waiter is registered or being called |
| `RunTheorems.DrainStops` | source/meta_scheduler.cpp:480-488 | the drain gives the lock up only to leave or to wait for a callback a notifier owes |
| `RunTheorems.DrainWokenIff` | source/meta_scheduler.cpp:369-370 | that callback wakes the drain if and only if no scheduler is active and no other idle one is signalled |
| `RunTheorems.StrandedForEver` | source/meta_scheduler.cpp:485-486 | a drain not woken by it sleeps on until a spurious wake-up |
| `RunTheorems.DrainCanStrand` | source/meta_scheduler.cpp:476-489 | such a run exists with two schedulers |
| `RunStrands.StrandsIff` | source/meta_scheduler.cpp:476-489 | when Run starts to leave, the drain can come to sleep on unwoken if and only if there are at least two schedulers and some idle one's waiter is still out |
| `RunLoop.RunLoop.constructor` | source/meta_scheduler.cpp:377-386 | a new loop keeps the invariant; every scheduler is active |
| `RunLoop.RunLoop.CollectSignalled` | source/meta_scheduler.cpp:396-409 | the erase loop moves exactly the signalled idle schedulers, in order, behind the active ones; activeCount is then the number of active ones and nobody idle is signalled |
| `RunLoop.RunLoop.RunScheduler` | source/meta_scheduler.cpp:412-451 | one turn of the active loop up to taking the lock: unless the scheduler went idle, its result is recorded and pollingCount is again the number of active ones that poll; leaves only on stop |
| `RunLoop.RunLoop.ParkScheduler` | source/meta_scheduler.cpp:425-437 | a scheduler gone idle is on the idle list exactly if its waiter was registered, else on the active one, and on no other; pollingCount is exact again and activeCount counts it off |
| `RunLoop.RunLoop.TestIdle` | source/meta_scheduler.cpp:459-465 | the idle loop goes on to yield if and only if some scheduler is not idle; else it stops if asked to, or sleeps, with every scheduler idle and its callback still to come |
| `RunLoop.RunLoop.Drain` | source/meta_scheduler.cpp:480-488 | the drain loop comes to the same point as the machine's step-by-step drain: it leaves, or waits for a waiter a notifier has claimed |
| `RunLoop.RunLoop.NotifyReady` | source/meta_scheduler.cpp:366-373 | the callback always wakes the idle wait; it wakes the drain exactly if no scheduler is active and no other idle one signalled |
| `RunLoop.RunLoop.UntilReady` | source/meta_scheduler.cpp:343-349 | the callback on `until` sets stop and always wakes the idle wait |

## Left out

- WaiterTheorems.NoStalePop: a pop's successful CAS is assumed to fall within one tag window (2^16 or 2^30 updates) of its load; `LifoAba.WindowIff` shows for the list of the same design that this is exactly what is needed. All run theorems about waiters and LIFO lists carry this condition on moves.
- WaiterProgress.ReturnsAlone: progress is stated for a call running alone; how calls delay each other under contention is not. `Event::Set` and `Semaphore::Post` never reload a head that has LOCK_BIT (source/event.cpp:54-80, source/semaphore.cpp:21-42): `WaiterProgress.ReturnsAloneIff` is exact about that.
- WaiterHistories.SemaphoreAccounts: `mCount` is an unbounded integer; int32 overflow is not modelled.
- WaiterHistories.AbsentOnlyIfEnded: allows a second RemoveWaiter for the same waiter to have ended it; callers that remove once get the stronger reading.
- WaiterCalls.Semaphore.Post: list length = max(-mCount, 0) is stated for calls that do not overlap and without RemoveWaiter; the interleaved law is `WaiterHistories.PermitsAccounted`, because Post gives up on an empty list and AddWaiter counts before it pushes.
- WaiterCalls.WaiterList.RemoveWaiter: whole calls without interference; the retry loops are kept but their failing branches are the machine's business.
- SystemSemaphore.Balanced: initial count zero, see `SystemSemaphore.SoundIffZero`.
- WaitForAll.DeadlockFree: the waitables are mutexes, with one owner each; semaphores shared by several holders are not.
- LifoOutcomes.ValuesConserved: the queue's destructor is not a step; TryPop lacks a `return true` (include/crunch/concurrency/mpmc_lifo_queue.hpp:62-72) and is modelled as if it had one.
- LifoTheorems.HandedOutOnce: `FreeGlobal` is a push on the block list, which nothing in the library calls.
- SpinBarrier, SystemSemaphore, WaitForAny, the waiting half of WaitForAll and the waiter allocator are machines on values, not objects: each consists of little more than single accesses that interleave.
- The root of the LIFO list and of the allocator is a pair of pointer and tag; only WaiterList's word is also modelled as bits.
- Memory orders, fences and the x86 atomics: every atomic access is one sequentially consistent step.
- Operating-system mutexes, conditions and kernel semaphores: standard behaviour, spurious wake-ups included, with no fairness.
- Backoff, pause, yield, sleep and throttling: timing only.
- Processor affinity, thread creation and cancellation, VersionedData, SystemEvent.
- Future and Promise: value storage over Event.
- Callback storage inside a waiter: a callback is an abstract action that may reuse its own waiter.
- AcquireMetaThread, and Run's early return that drops the meta thread (source/meta_scheduler.cpp:343-352).
- That WaiterAllocator frees its allocations at exit.
- The thread pool's unlocked test of mStop and the running of one item are moves of the machine only; its thread count is the length of the worker list.
