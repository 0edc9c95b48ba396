# Verified models of four concurrent and linked algorithms

The repository collects annotated excerpts of system code.  Four of them hold complete algorithms
whose correctness rests on invariants that are not visible in any one function.  This project models
those four in Dafny and proves what they promise.

| part | source | modules |
|---|---|---|
| wait queue of a lock, and its conditions | `JDK/concurrent/AbstractQueuedSynchronizer.java` | `Aqs*`, `Condition*` |
| lock-free stack | `boost/lockfree/stack.hpp` | `Stack*` |
| message loop | `Android/Handler/MessageQueue.java`, `Message.java`, `Looper.java` | `Looper*`, `AndroidQueue` |
| checksums, random map, io units and write history | `fio/` | `Crc*`, `Md5`, `MapWords`, `RandomMap`, `Fio*`, `Io*` |

`dafny verify dfyconfig.toml` checks everything.

## How the parts are modelled

**Wait queue.**  `AqsModel` is a state machine in which a step of a thread is one volatile read, write
or CAS, so a run is any interleaving.  The synchronizer is the `Mutex` or the `BooleanLatch` of the
class comment, or a counting semaphore.  Parked threads may return spuriously, and a thread in one of
the acquire methods may give up and then runs `cancelAcquire`.  A holder of the Mutex may also wait on
a condition or signal a waiter, whose node the signaller then queues; a waiter may give up before it
is signalled, and then queues its node itself, but no longer once it takes the lock again.  `AqsQueue`
states the queue invariant, `AqsPreserve` proves that every step keeps it, `AqsTheorems` draws the
structural conclusions, and `AqsWakeup` proves who owes a wakeup to whom.  `AqsRelease` relates the state
to the releases and acquires of a run, which turns that into a statement on callers: who is left waiting
at rest waits for something that is used up.  `AqsProgress`, `AqsOutcome` and `AqsCancel` say what a call
achieves when its thread is left alone, from whatever state the others have brought about.

The proof that no wakeup is lost needs one assumption, and the assumption is needed.
`cancelAcquire` tests `pred != head` and later sets the status of `pred` to SIGNAL with a CAS (line
731).  In between `pred` may become head and be released with status 0.  If the CAS then succeeds while
the first waiter is about to read that status, the waiter parks although the lock is free.  The
canceller's `unparkSuccessor` still finds the waiter if the next link of its cancelled node leads
there; if it does not, the backward scan looks for that node and runs past the waiter, which has
bypassed it.  `AqsWakeup.NoLostWakeup` covers all states in which no such step (`AqsModel.StaleSignal`)
has happened since head changed last and since the synchronizer became available, and
`AqsLostWakeup.LostWakeup` is a run with such a step.  `AqsLostWakeup.LostExactlyIfAborts` puts both
together for callers: wakeups of the Mutex can be lost if and only if somebody may give up an acquire.

**Conditions.**  `ConditionModel` is a machine of the same granularity for one condition: await, signal
and signalAll, interrupts and timeouts.  The lock is an owner there, and everything else that may happen
to the lock queue is a move of an environment, each of them one write.  `ConditionEnvironment` proves
that whatever a thread of `AqsModel` does to the queue is one of these moves, and that every run of the
queue, its creation included, is a run of moves.  A move is refused if it would cut a queued waiter, who is
still looking for its node, off the walk from tail; the same module proves that the lock queue never does,
because prev links skip cancelled nodes only.  `ConditionReturn` proves that isOnSyncQueue answers as of the
queue although it reads four fields one after the other, and `ConditionProgress` what each call achieves.  `ConditionQueue` has the linked list and the methods
that change it, while waits are cancelled under them at any access to a status.

**Stack.**  `StackModel` has the tagged top, link reads that may be stale, nodes that are recycled, and a
pool that hands out any node nobody uses and may overwrite the links of nodes it holds.  The tag counts
removals modulo any `n`, and the in-place reversal of a detached chain is made of steps that stale
pops may observe.  The pool may refuse a node (choice `Refuse`), and an exchange may fail spuriously (choice
`Fail`).  Runs in which a pop succeeds on a tag that `n` or more removals brought back
are excluded by the history variable `wrapped`, and `StackAba.WrappedTag` shows for every `n` that `n`
removals do break the stack.  `StackProgress` proves that an exchange fails only when somebody
else's operation took effect, and that a call left alone returns.  `StackBulk` has the loops that make the
chain of a range and that consume and reverse a detached chain.

**Message loop.**  `LooperModel` is the queue on values, one action for every section that holds the
queue's lock, `LooperTheorems` proves what holds in all runs, `LooperProgress` what gets done, and `AndroidQueue` has the linked
messages, the pool and the methods; each method refines the action of the same name.  Barriers act by
place in the queue, which is sorted by time, not by the time of the call: a message that is due
earlier than the barrier passes it although it was posted later.

**fio.**  `Crc32` relates the table-driven loop to long division of polynomials; `Md5` relates
`md5_update` to the fold over whole blocks; `RandomMap` has the bitmap of used blocks on 64-bit words.  The
bitmap is made for the part of the file behind the start offset, but the search for a free block goes on
to the size of the whole file; `RandomMap.ScanStaysExactly` says when it stays inside the map, and
`RandomMap.OffsetRunsOut` is a job for which it does not.
`FioLists` has the circular lists, `IoUnits` and `IoHistory` their users.  The verification of md5 sums in
fio adds no padding, so it does not look at the bytes behind the last whole block
(`Md5.VerifyIoUMd5`).

## Model

| member | source | states |
|---|---|---|
| `AqsPreserve.InvRun` | JDK/concurrent/AbstractQueuedSynchronizer.java:541-779 | after any run of any number of threads, with cancellation at any waiting point: head is live, prev and next links of queued nodes skip cancelled nodes only, and every live node behind head belongs to exactly the thread that still waits with it |
| `AqsTheorems.QueueIntegrity` | JDK/concurrent/AbstractQueuedSynchronizer.java:541-576 | in every reachable state with a tail, following prev from tail is finite and reaches head, head is not cancelled, and every enqueued live node behind head is on that chain |
| `AqsTheorems.PredecessorsExist` | JDK/concurrent/AbstractQueuedSynchronizer.java:705-779 | the acquire loops never find a null predecessor and the loops that skip cancelled predecessors never run off the queue |
| `AqsTheorems.ScanFindsSuccessor` | JDK/concurrent/AbstractQueuedSynchronizer.java:606-621 | the backward scan, run uninterrupted from tail, finds the first live node behind any node on the chain, however far the next links lag |
| `AqsTheorems.FifoHandOver` | JDK/concurrent/AbstractQueuedSynchronizer.java:541-589 | in every run the successive heads are the nodes in the order of their successful tail CASes with the cancelled ones left out, whatever barging does to the state |
| `AqsTheorems.MutualExclusion` | JDK/concurrent/AbstractQueuedSynchronizer.java:157-183 | with the Mutex at most one thread is between a successful acquire and its release, signallers and threads that return from await included; the state is 1 exactly while one is, and neither release nor the release of await throws |
| `AqsTheorems.TransfersApart` | JDK/concurrent/AbstractQueuedSynchronizer.java:1628-1669 | in every reachable state no node is with two threads in enq, the owner of a node that a signaller is queueing is still in await with it, and a holder never finds its own node waiting |
| `AqsWakeup.NoLostWakeup` | JDK/concurrent/AbstractQueuedSynchronizer.java:596-742 | for the Mutex with its conditions, the latch and the semaphore, after every run whatever is interrupted or times out: if all threads are outside all methods, hold the lock or are parked without a permit, the synchronizer is available and no stale signal has happened since head changed last, then nobody is parked in the lock queue and whoever is parked in await has not been signalled |
| `AqsWakeup.NoLostWakeupUninterrupted` | JDK/concurrent/AbstractQueuedSynchronizer.java:753-835 | the same for every run in which nobody gives up an acquire, without the condition on stale signals; this includes shared propagation, signals and cancelled waits for them |
| `AqsRelease.LatchGate` | JDK/concurrent/AbstractQueuedSynchronizer.java:220-243 | in every run of the latch the state is 1 from the first release on for ever, it is as at the start before that, and nobody passes before a release unless it was open at the start |
| `AqsRelease.PermitsBalance` | JDK/concurrent/AbstractQueuedSynchronizer.java:1298-1304 | in every run of the semaphore the permits left and the acquires that succeeded are the permits at the start and the releases |
| `AqsRelease.ReleaseTakesEffect` | JDK/concurrent/AbstractQueuedSynchronizer.java:1298-1304 | a call of releaseShared sets the latch or adds a permit with its first step, whatever the others do before that step |
| `AqsRelease.AcquireTakesEffect` | JDK/concurrent/AbstractQueuedSynchronizer.java:1155-1159 | a call of acquire succeeds with its first step if and only if the synchronizer is available then, whoever waits in the queue |
| `AqsRelease.WaitingMeansUsedUp` | JDK/concurrent/AbstractQueuedSynchronizer.java:596-742 | after every run without a stale signal at the end of which all threads are at rest, somebody is left waiting only if the Mutex is held, the latch was closed at the start and never released, or the semaphore has handed out all it had and was given |
| `AqsRelease.WaitingMeansUsedUpUninterrupted` | JDK/concurrent/AbstractQueuedSynchronizer.java:753-835 | the same, without the condition on stale signals, for every run in which nobody gives up an acquire |
| `AqsProgress.ComesToRest` | JDK/concurrent/AbstractQueuedSynchronizer.java:541-835 | from every reachable state a thread that runs by itself returns, holds the Mutex or parks, unless it waits for another thread to create the queue or for a signaller to queue its node; so no loop over links or statuses turns for ever |
| `AqsOutcome.FirstWaiterAcquires` | JDK/concurrent/AbstractQueuedSynchronizer.java:753-835 | while the synchronizer is available the thread of the first waiter acquires and returns when it looks |
| `AqsOutcome.ParksWithSignal` | JDK/concurrent/AbstractQueuedSynchronizer.java:753-779 | a thread that parks in the lock queue when left alone has a predecessor that is not cancelled and has status SIGNAL |
| `AqsOutcome.ReleaseUnparks` | JDK/concurrent/AbstractQueuedSynchronizer.java:596-656 | a release of either mode that finds SIGNAL on head frees the Mutex, takes the status back to 0 and unparks the thread of the first live node behind head, where that is not giving up |
| `AqsOutcome.ReleasePropagates` | JDK/concurrent/AbstractQueuedSynchronizer.java:628-656 | a releaseShared that finds status 0 on a head with others behind it leaves PROPAGATE |
| `AqsCancel.CancelWithdraws` | JDK/concurrent/AbstractQueuedSynchronizer.java:700-742 | a cancelAcquire left alone leaves its node cancelled and without thread; the queue ends with the nearest live predecessor if the node was the last, and otherwise either that predecessor has SIGNAL and is linked to the next live node, or the thread of the first live node behind is unparked |
| `AqsLinks.NextLinksFollow` | JDK/concurrent/AbstractQueuedSynchronizer.java:300-309 | in every run in which nobody gives up an acquire, the next link of the predecessor of every node behind head leads to that node unless a thread is just about to write it |
| `AqsOutcome.AwaitReleases` | JDK/concurrent/AbstractQueuedSynchronizer.java:1990-2000 | a holder that awaits, left alone, gives the lock back and parks with its node waiting for a signal |
| `AqsOutcome.SignalQueues` | JDK/concurrent/AbstractQueuedSynchronizer.java:1628-1646 | a holder that signals a waiter, left alone, has its node in the lock queue and still holds the lock |
| `AqsOutcome.InterruptLeaves` | JDK/concurrent/AbstractQueuedSynchronizer.java:1655-1669 | an interrupted waiter, left alone, leaves the condition for the lock or the lock queue, and spins only if a signal came first and its node is not queued yet |
| `AqsLostWakeup.LostWakeup` | JDK/concurrent/AbstractQueuedSynchronizer.java:722-741 | a run of the Mutex with cancellation at the end of which the lock is free, every thread is at rest and one of them is parked without a permit |
| `AqsLostWakeup.LostExactlyIfAborts` | JDK/concurrent/AbstractQueuedSynchronizer.java:596-742 | for any set of calls and outcomes that includes acquire and release: some run of the Mutex within it loses a wakeup if and only if it includes giving up an acquire |
| `ConditionTheorems.TransferredExactlyOnce` | JDK/concurrent/AbstractQueuedSynchronizer.java:1628-1669 | a waiter's node leaves CONDITION for exactly one of signal and cancellation, exactly one thread then has it to enqueue, and it is enqueued once |
| `ConditionTheorems.WaitEnds` | JDK/concurrent/AbstractQueuedSynchronizer.java:1955-1975 | a wait ends only with its node on the lock queue; it is about to throw if and only if an interrupt came before every signal, it reports a timeout if and only if the timeout did, and it is about to interrupt itself if and only if it saw an interrupt after a signal |
| `ConditionReturn.FindsItself` | JDK/concurrent/AbstractQueuedSynchronizer.java:1589-1619 | in every reachable state of a thread about to look for its node: if the node is in the lock queue the thread, left alone, goes on to take the lock within five steps more than nodes were ever queued, and if it is not it never does and parks, unless it spins for the signaller |
| `ConditionTheorems.SignalMovesTheFirst` | JDK/concurrent/AbstractQueuedSynchronizer.java:1828-1835 | a signal moves exactly the earliest node that is not cancelled, against any concurrent cancellations, and moves none only if none waits |
| `ConditionTheorems.SignalAllMovesAll` | JDK/concurrent/AbstractQueuedSynchronizer.java:1841-1849 | after signalAll no node of the condition waits |
| `ConditionTheorems.NobodyIsLost` | JDK/concurrent/AbstractQueuedSynchronizer.java:1806-1883 | while the lock is free every node that waits is listed, the list is in order of arrival, and nobody who came before a signalled waiter still waits |
| `ConditionProgress.ComesToRest` | JDK/concurrent/AbstractQueuedSynchronizer.java:1806-2007 | from every reachable state a thread that runs by itself comes to the end of its call, parks, or waits for the lock, for a signaller to queue its node or for the creation of the queue |
| `ConditionProgress.AwaitAlone` | JDK/concurrent/AbstractQueuedSynchronizer.java:1990-1997 | await, left alone, cleans the list exactly when its last node is cancelled, appends its node, gives the lock back and parks |
| `ConditionProgress.SignalAlone` | JDK/concurrent/AbstractQueuedSynchronizer.java:1628-1646 | signal, left alone, queues the earliest node that waits, behind a predecessor that has SIGNAL or is cancelled, and moves no other |
| `ConditionProgress.SignalAllAlone` | JDK/concurrent/AbstractQueuedSynchronizer.java:1841-1849 | signalAll, left alone, queues everyone who waits |
| `ConditionProgress.GivesUpAlone` | JDK/concurrent/AbstractQueuedSynchronizer.java:1655-1669 | a waiter that is interrupted or times out, left alone, no longer waits and takes the lock, or waits for it, for the signaller that came first or for the creation of the queue |
| `ConditionProgress.TakesLockAlone` | JDK/concurrent/AbstractQueuedSynchronizer.java:2001-2004 | a waiter that finds the lock free returns with it, and cleans the list exactly when its own node is still on it and not the last one |
| `ConditionEnvironment.StepIsAMove` | JDK/concurrent/AbstractQueuedSynchronizer.java:541-742 | whatever a thread does to the lock queue in a reachable state is a move that the condition's environment can make, and does, in any state with the same queue, and leads to the same queue, as long as it does not make a node head that its waiter is still looking for |
| `ConditionEnvironment.RunIsMoves` | JDK/concurrent/AbstractQueuedSynchronizer.java:541-742 | every run of the lock queue from there, with the same proviso at each step, is a run of such moves that ends with the same queue |
| `ConditionEnvironment.QueueRunIsMoves` | JDK/concurrent/AbstractQueuedSynchronizer.java:541-576 | so is every run of the Mutex from the start, without any proviso, the creation of the queue by a contending acquire included |
| `ConditionQueue.ConditionObject.UnlinkCancelledWaiters` | JDK/concurrent/AbstractQueuedSynchronizer.java:1865-1883 | whoever gives up during the walk: the list afterwards is exactly the nodes found waiting when they were visited, in order and well linked, lastWaiter is its last node, the nodes dropped have no link left, and no status changes but by giving up |
| `ConditionQueue.ConditionObject.AddConditionWaiter` | JDK/concurrent/AbstractQueuedSynchronizer.java:1806-1820 | appends a new waiting node, after cleaning the list if and only if its last node is found cancelled |
| `ConditionQueue.ConditionObject.DoSignal` | JDK/concurrent/AbstractQueuedSynchronizer.java:1828-1835 | whoever gives up meanwhile: removes the list up to and including the first node found waiting, transfers exactly that node and changes no other status |
| `ConditionQueue.ConditionObject.DoSignalAll` | JDK/concurrent/AbstractQueuedSynchronizer.java:1841-1849 | empties the list and transfers exactly the nodes found waiting, in order |
| `ConditionQueue.ConditionObject.Signal` | JDK/concurrent/AbstractQueuedSynchronizer.java:1895-1901 | throws without any change to the list if the lock is not held, otherwise signals |
| `ConditionQueue.ConditionObject.SignalAll` | JDK/concurrent/AbstractQueuedSynchronizer.java:1910-1916 | throws without any change to the list if the lock is not held, otherwise signals all |
| `ConditionQueue.KeptMembers` | JDK/concurrent/AbstractQueuedSynchronizer.java:1851-1864 | the sequence that specifies the walk keeps a node if and only if the node has not given up by its visit |
| `ConditionQueue.KeptBetween` | JDK/concurrent/AbstractQueuedSynchronizer.java:1851-1864 | so it keeps every node that waits to the end of the walk and none that had given up before its start |
| `StackTheorems.Linearizable` | boost/lockfree/stack.hpp:240-535 | in every run without a wrapped tag, replaying the operations one after the other in the order in which they took effect gives each its result and ends with the values linked from the top, although nodes are reused |
| `StackTheorems.TakesEffectOnce` | boost/lockfree/stack.hpp:517-535 | a call that has returned took effect exactly once between its start and its end, as an operation of its own kind, and the functor saw what that operation removed |
| `StackTheorems.RangeIsSinglePushes` | boost/lockfree/stack.hpp:332-356 | a range of which a prefix was pushed has the effect of single pushes of that prefix in order |
| `StackTheorems.Conservation` | boost/lockfree/stack.hpp:263-296 | as multisets, the values pushed are the values removed and the values present |
| `StackTheorems.NodesApart` | boost/lockfree/stack.hpp:529-533 | a node that a thread holds is outside the pool, not on the stack and held by no other thread, so that nothing is freed twice |
| `StackTheorems.PopReadsTrueNext` | boost/lockfree/stack.hpp:521-533 | a pop about to succeed leaves a proper stack if and only if the link it read is the present one, and it is whenever fewer than `n` removals happened since the load |
| `StackTheorems.DetachedIsLinked` | boost/lockfree/stack.hpp:601-612 | what a bulk removal detached is a chain of distinct nodes from the node it loaded to null |
| `StackProgress.WholeUnlessRefused` | boost/lockfree/stack.hpp:263-296 | in every run, a range pushed by a thread which the pool never refuses a node is pushed whole |
| `StackProgress.FailsOnlyByOthers` | boost/lockfree/stack.hpp:240-250 | over every run: when what a thread loaded was the top and its exchange fails later, though not spuriously, an operation has taken effect in between; so some thread always gets on |
| `StackProgress.CompletesAlone` | boost/lockfree/stack.hpp:517-535 | from every reachable state a call in progress, left alone, is done after a number of steps bounded by the values it has to push or the nodes on the stack |
| `StackProgress.CallCompletes` | boost/lockfree/stack.hpp:310-356 | a call left alone returns, and one operation of its kind has taken effect for it |
| `StackAba.WrappedTag` | boost/lockfree/stack.hpp:527-529 | the bound is exact: for every modulus there is a run in which a pop succeeds after `n` removals and a pushed value becomes unreachable |
| `StackBulk.PrepareNodeList` | boost/lockfree/stack.hpp:263-296 | the chain made for a range holds all its values in reverse if the pool refuses none, and otherwise those in front of the first value for which the pool had no node; it is linked from the returned top to the returned end, and consists of new nodes only |
| `StackBulk.ConsumeAllAtomic` | boost/lockfree/stack.hpp:612-632 | applies the functor in stack order, returns the length, frees every node once and reads none after freeing it |
| `StackBulk.Reverse` | boost/lockfree/stack.hpp:699-717 | reverses the links in place |
| `StackBulk.ConsumeAllAtomicReversed` | boost/lockfree/stack.hpp:699-737 | the same as consume_all_atomic in exactly the opposite order |
| `LooperTheorems.NeverMissesAWake` | Android/Handler/MessageQueue.java:226-517 | in every reachable state in which the looper polls with a timeout other than zero and no wake is pending, mBlocked is set and the deadline is at or before the time of the first deliverable message |
| `LooperTheorems.WakesExactlyIfFirst` | Android/Handler/MessageQueue.java:483-514 | enqueueMessage wakes a blocked looper if and only if the new message is the one next() would deliver first |
| `LooperTheorems.Sorted` | Android/Handler/MessageQueue.java:387-517 | in every run, if the queued times are not negative the queue is sorted by time |
| `LooperTheorems.InsertKeepsSorted` | Android/Handler/MessageQueue.java:483-509 | an insertion keeps a sorted queue sorted if and only if its time is not zero or nothing queued has a negative time |
| `LooperTheorems.NegativeTimeUnsorted` | Android/Handler/MessageQueue.java:485-489 | a run of two calls that leaves the queue unsorted |
| `LooperTheorems.ArrivalOrder` | Android/Handler/MessageQueue.java:463-517 | entries with equal positive times stay in order of arrival, those with time zero in the reverse order |
| `LooperTheorems.NotBeforeItsTime` | Android/Handler/MessageQueue.java:258-274 | in no run is a message delivered before its time |
| `LooperTheorems.BarrierHolds` | Android/Handler/MessageQueue.java:245-275 | after every run, over every continuation in which nobody removes a barrier by its token, no synchronous message behind it is delivered |
| `LooperTheorems.DeliveredInOrder` | Android/Handler/MessageQueue.java:245-275 | after every run, over every continuation a synchronous message is delivered only after every message in front of it |
| `LooperProgress.NothingIsLost` | Android/Handler/MessageQueue.java:226-517 | in every run, as multisets, what was accepted is what was delivered, what was removed by token and what is queued |
| `LooperProgress.LookDelivers` | Android/Handler/MessageQueue.java:245-303 | a pass of next() returns a message if and only if the first one that no barrier stalls is due, takes exactly that one out, and ends the loop if and only if nothing is due and the queue is quitting |
| `LooperProgress.ReturnsDue` | Android/Handler/MessageQueue.java:226-332 | from every state of its loop the looper, left alone, returns the message that is due |
| `LooperProgress.DrainsDue` | Android/Handler/MessageQueue.java:226-332 | messages in front of the queue that are due are returned in order by as many calls |
| `LooperProgress.TokensTellBarriersApart` | Android/Handler/MessageQueue.java:387-460 | in every run of at most 2^32 posts no two queued barriers have the same token, so removal by token takes out that barrier and nothing else, and a second removal nothing |
| `LooperProgress.QuitTakesHold` | Android/Handler/MessageQueue.java:334-354 | in every run after a quit nothing more is accepted, a sleeping looper has a wake pending, and the looper, left alone with nothing due, ends |
| `LooperProgress.EndsOnlyByQuit` | Android/Handler/MessageQueue.java:280-284 | in every run the loop ends only after a quit |
| `LooperProgress.WakesExactly` | Android/Handler/MessageQueue.java:334-517 | in every reachable state without a pending wake each action wakes the looper if and only if it inserts the first deliverable message of a blocked looper, removes a barrier at the head that no other barrier follows directly, or is the first quit |
| `LooperProgress.IdlersRunOnce` | Android/Handler/MessageQueue.java:289-326 | idle handlers run at most once in a call of next() |
| `LooperProgress.IdlersRunWhenIdle` | Android/Handler/MessageQueue.java:289-297 | a pass of next() with nothing due goes to the idle handlers if and only if it is the first of its call to find the queue empty or its first entry in the future |
| `AndroidQueue.MessagePool.Obtain` | Android/Handler/Message.java:129-141 | a message from the pool cannot be told from a new one, and the chain and its size stay right |
| `AndroidQueue.MessagePool.RecycleUnchecked` | Android/Handler/Message.java:300-323 | the message is wiped and marked, and joins the pool if and only if it holds fewer than 50 |
| `AndroidQueue.MessagePool.Recycle` | Android/Handler/Message.java:284-293 | a message in use is left alone, with an exception if and only if checking is on |
| `AndroidQueue.MessageQueue.EnqueueMessage` | Android/Handler/MessageQueue.java:463-517 | exactly when each of the four outcomes occurs; otherwise the linked queue, the wake and the marks change as in the action, and queue, pool and delivery stay disjoint |
| `AndroidQueue.MessageQueue.PostSyncBarrier` | Android/Handler/MessageQueue.java:387-416 | returns the next token and inserts a barrier with it as in the action |
| `AndroidQueue.MessageQueue.RemoveSyncBarrier` | Android/Handler/MessageQueue.java:430-460 | throws if and only if no barrier has the token, otherwise removes the first that has it, recycles it and wakes as in the action |
| `AndroidQueue.MessageQueue.Quit` | Android/Handler/MessageQueue.java:334-354 | throws and changes nothing where quitting is not allowed; otherwise the queue is quitting afterwards and the wake is given exactly by the first quit |
| `AndroidQueue.MessageQueue.Look` | Android/Handler/MessageQueue.java:245-303 | returns and unlinks the first message not stalled by a barrier if its time has come, otherwise blocks with its deadline, finishes or goes to the idle handlers as in the action |
| `AndroidQueue.MessageQueue.RecycleDelivered` | Android/Handler/Looper.java:160-250 | after dispatch the message goes to the pool, which it was not in, and the queue is untouched |
| `Crc32.TableIsDivision` | fio/crc32.c:20-73 | every entry of the table is eight steps of division by the generator |
| `Crc32.StepLow` | fio/crc32.c:81 | the low 32 bits of the accumulator never depend on the bits above, although it is never masked |
| `Crc32.CrcIsRemainder` | fio/crc32.c:75-84 | for every buffer the low 32 bits are the remainder of long division of its bits, 32 zeros added, by the generator of section 3.2.9 of IEEE 802.3, with no start value and no final complement |
| `Crc32.CrcAppend` | fio/crc32.c:80-81 | the checksum of a concatenation is that of the second part continued from the first |
| `Crc32.Compute` | fio/crc32.c:75-84 | the loop computes that checksum of any part of a buffer |
| `Crc32.BurstChangesCrc` | fio/crc32.c:75-84 | changing a buffer of any length only within four consecutive bytes always changes the checksum |
| `Crc32.VerifyIoUCrc32` | fio/verify.c:45-60 | accepts exactly a matching checksum, hence rejects every such change to the bytes the header was made for |
| `Crc32.FillCrc32` | fio/verify.c:101-104 | the header gets the checksum that verification computes |
| `Md5.ChunkingDoesNotMatter` | fio/md5.c:91-118 | however a stream is cut into pieces, hash, block and count are the same afterwards |
| `Md5.HashIsFold` | fio/md5.c:91-118 | from the start of a block, hash is the fold of the transform over the complete 64-byte blocks of the stream, as in section 3.4 of RFC 1321, and the block begins with what is left |
| `Md5.Md5Ctx.Update` | fio/md5.c:91-118 | the block-buffered update is feeding the bytes one at a time |
| `Md5.FillMd5` | fio/verify.c:106-113 | the digest is the fold over the whole blocks from the zero hash |
| `Md5.VerifyIoUMd5` | fio/verify.c:62-80 | accepts if and only if the whole blocks give the digest, so it accepts every change behind the last whole block |
| `RandomMap.NeverTwice` | fio/io_u.c:27-54 | the extents marked between two clears of the map are pairwise disjoint, for any requests |
| `RandomMap.BytesNeverTwice` | fio/io_u.c:27-54 | the same for the bytes of the extents |
| `RandomMap.PassCoversFree` | fio/io_u.c:36-50 | every block an extent covers was free when the pass began |
| `RandomMap.FioFile.RandomMapFree` | fio/io_u.c:15-22 | tells whether the block's bit in the map is clear |
| `RandomMap.FioFile.MarkRandomMap` | fio/io_u.c:27-54 | marks exactly the free blocks from the first requested one up to the first used one, changes no other bit, and cuts the length to that many blocks; behind them the request ends or a used block follows |
| `RandomMap.Ffz` | fio/arch.h:13-22 | the lowest clear bit of a word, or -1 for a full one |
| `RandomMap.FioFile.GetNextFreeBlock` | fio/io_u.c:59-77 | whenever it stays inside the map, the search by words and bits returns 0 with the smallest clear bit of the words up to the end of the file, and 1 if and only if all of them are set |
| `RandomMap.ScanStaysExactly` | fio/io_u.c:59-77 | the search stays inside the map if and only if the map covers the file or has a clear bit |
| `RandomMap.FullMapStays` | fio/init.c:740-744 | with the map that is allocated behind a start offset and with all its bits set, it does if and only if the offset is at most what the last word has to spare |
| `RandomMap.OffsetRunsOut` | fio/io_u.c:59-77 | for every block size a job of 64 blocks behind an offset of 64 blocks whose search leaves the full map |
| `RandomMap.FioFile.GetNextOffset` | fio/io_u.c:84-115 | random io starts at the first free one of 49 draws and otherwise at the lowest clear bit of the map, and it fails exactly if all 49 are used and so is every block of the words up to the end of the file, or the offset is behind the end of the file; with one minimum block size the block it starts at is free |
| `RandomMap.FioFile.RandomBlockIs` | fio/io_u.c:90-108 | the block of random io, said of the bits: the first of the 49 draws with a clear bit, and if all have theirs set the lowest clear bit; there is none if and only if the draws and all bits are used |
| `RandomMap.FioFile.DrawInMap` | fio/init.c:740-744 | with one minimum block size every block that can be drawn is in the map that is allocated |
| `FioLists.ListInsert` | fio/list.h:44-52 | inserts between two neighbours of a ring and leaves a ring |
| `FioLists.ListAdd` | fio/list.h:62-65 | inserts behind the head |
| `FioLists.ListAddTail` | fio/list.h:67-70 | inserts before the head |
| `FioLists.ListDel` | fio/list.h:91-96 | removes exactly that entry from the ring and clears its links |
| `FioLists.ListEmpty` | fio/list.h:102-105 | true if and only if the ring is its head alone |
| `IoUnits.ThreadData.InitIoU` | fio/fio.c:494-535 | puts one new unit for a synchronous engine and as many as the depth otherwise in front of the free ring, and changes nothing else |
| `IoUnits.ThreadData.GetIoU` | fio/io_u.c:230-246 | the first free unit becomes the first busy one, or null if none is free; the rings stay disjoint, hold the same units, and cur_depth is the busy length |
| `IoUnits.ThreadData.PutIoU` | fio/io_u.c:181-187 | a busy unit at any place becomes the first free one, and nothing else moves |
| `IoUnits.ThreadData.IosCompleted` | fio/io_u.c:339-355 | distinct busy units all return to the free ring, the last first, and the other busy units keep their order |
| `IoUnits.WithoutOne` | fio/io_u.c:184-186 | taking units out of the busy ring one by one leaves exactly the others in order |
| `IoHistory.VerifyReadsBack` | fio/verify.c:140-157 | draining returns exactly the writes logged since the prune, once each, by offset for a random overwrite job and in order of completion otherwise |
| `IoHistory.StaysSorted` | fio/log.c:64-75 | in every run a sorted history stays sorted |
| `IoHistory.LoggedIs` | fio/log.c:59-75 | a piece that is not sorted in goes last, and one that is comes directly behind the last piece with a smaller offset |
| `IoHistory.EachPieceOnce` | fio/log.c:44-76 | in every run between two prunes, logged and drained in any order, every piece is returned once or still there |
| `IoHistory.InCompletionOrder` | fio/log.c:59-62 | without sorting the history is in the order of completion |
| `IoHistory.Drained` | fio/verify.c:144-153 | draining takes the history from its first piece on |
| `IoHistory.History.LogIoPiece` | fio/log.c:44-76 | appends for a sequential or non-overwriting job and otherwise puts the piece behind the last one with a smaller offset, found by walking prev links |
| `IoHistory.History.PruneIoPieceLog` | fio/log.c:29-39 | empties the history, whatever it held |
| `IoHistory.History.GetNextVerify` | fio/verify.c:140-157 | takes the first piece off the ring, or returns 1 if there is none |

## Left out

- AqsWakeup.NoLostWakeup: goes one way; after a stale signal a later release may still deliver the wakeup.
- AqsLostWakeup.LostExactlyIfAborts: for the Mutex; for the latch and the semaphore only that nothing is lost when nobody gives up.
- ConditionEnvironment.StepIsAMove: leaves out the step that makes a node head while its waiter is still looking for it; that step is the waiter's own in the code, after it has found its node, and `ConditionModel` has it as the acquire.
- AqsOutcome.ReleasePropagates: for a head with status 0; with SIGNAL on head it is `ReleaseUnparks`.
- AqsRelease.WaitingMeansUsedUp: without stale signals, as `NoLostWakeup`.
- StackProgress.CompletesAlone: for runs without a wrapped tag, no spurious failure, and a pool that has a node.
- RandomMap.FioFile.GetNextOffset: requires, for random io with a map, that the draws are in the map (`DrawInMap`) and, if it comes to the search, that the search stays inside (`ScanStaysExactly`); the random numbers and the clock are inputs throughout.  When the fiftieth draw is free the code still searches the map, and so does the model.  With different minimum block sizes the free block promised by the search is in other units than the offset, so nothing is promised there.
- StackTheorems.Linearizable: for runs in which no pop succeeds on a wrapped tag; the width of the tag is in headers that are not part of this model.
- LooperTheorems.NeverMissesAWake: the deadline is the clock reading next() took plus the timeout; time that passes before nativePollOnce starts is not counted.
- AndroidQueue.MessageQueue.Quit: without the removal of messages and dispose, whose bodies the file does not have.
- AQS: memory is sequentially consistent; the nanosecond arithmetic of timed waits, serialization, field offsets and the inspection methods are not modelled, and a timeout is an abort at any waiting point, which allows more runs than the code.
- AQS: tryAcquire that throws, and tryAcquireShared of the semaphore as anything but one step.
- Conditions: in `AqsModel` isOnSyncQueue is one step and a signal may pick any waiter; its single accesses and the order of the list are in `ConditionModel`, where the lock is taken in one step by any thread.
- Conditions: the failure path of fullyRelease, and the reacquired state value.
- Conditions: in `ConditionQueue` a node is handed to enq without its queueing, which the two machines have.
- Stack: allocators, exceptions, the unsynchronized operations and memory orders; the freelist and the tagged pointer by contract.  The final pass of a bulk consumption may take its nodes in any order in `StackModel`; the order is proved in `StackBulk`.
- Message loop: native polling, idle handlers beyond their detour, message payloads, several queues that share the pool, and changes to the flags or the target of a queued message.
- fio: the 64 rounds of md5_transform, which is a parameter; 32-bit wrap of block counts; the accounting in io_completed; buffers of io units; io units and history pieces are their own list_head, so list_entry is the identity.
- fio: list iteration macros other than the loops that use them.
- The other directories of the repository (Android activities, bionic linker, libco, bolt, linux, redis, glibc) are framework plumbing, register code or fragments.
