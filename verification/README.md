# Verified models of the K180 camera pipeline

This project models the concurrent core and the control logic of the K180 camera server in
Dafny 4.11 and proves what they are meant to guarantee. `dafny verify dfyconfig.toml` checks
everything.

Two kinds of model are used.

* **Step systems.** Lock-free and multi-threaded code is a state with one program counter per
  thread; every atomic access, critical section or foreign call is one step. `Step` gives the
  next state, `Execute` runs any schedule of any number of threads, and its contract (in
  `Rendezvous` the lemma `EveryRun`) says that the invariant holds after every schedule.
  Statements about runs quantify over all schedules, over all reachable states, or over all
  states that satisfy the invariant. Fields marked as bookkeeping are never read to decide a
  step. What a call delivers is stated by letting its thread go on alone while the others stand
  still wherever they are.
* **Classes.** Code that updates an object in place is a class whose methods are proved against
  a function of the old state; properties of whole runs are proved about that function.

| Files | What they model |
|---|---|
| `FreeList` | the CAS free list of blocks: reference count, deferred flag, head exchange |
| `DequeueTickets` | optimistic tickets, overcommit correction and claims of one producer's consumers |
| `Circular`, `BlockIndex`, `BlockReuse` | wrapped index arithmetic, the growable block ring, block reuse under stale readers that walk over several blocks |
| `ExplicitQueue` | tickets and blocks together: one producer's whole queue |
| `ProducerHash` | thread id to producer hash: probing, lazy copies, chained resizing |
| `Semaphore`, `BlockingQueue` | the two-part semaphore and the blocking queue on top of it |
| `FpsGate`, `PtsTimeline` | the frame-rate credit gate, the PTS generator, and both together |
| `StreamPaths`, `RtspViewers` | mount paths and viewer accounting over all RTSP callbacks |
| `StageQueue`, `InferSlots`, `WarpPool` | drop-oldest queues and the ownership of slots that pass through them |
| `Rendezvous`, `Schedulers` | the parallel trigger and the catch-up schedulers |
| `BrightTuner` | the exposure and gain tuner |
| `TrackTable` | greedy matching and ageing of tracked objects |
| `RestConfig` | validation, deep merge and query of the stored configuration |
| `Sums`, `Counting`, `Products`, `Options` | shared facts |

## What the proofs found

Each of these is stated with the exact condition, or with a concrete run, next to the property
it limits.

* The rate gate thins only rates below 60: from 60 on, the rate it starts with, it grants every
  call. So "two frames plus the rate" bounds its runs exactly when it is configured below 60
  (`FpsGate.RateKeptIff`), and so does the lead of at most two frames of the timestamps behind
  it, in runs without a reset (`PtsTimeline.LeadAtMostTwoFramesIff`). Each reset, which every new
  viewer causes, adds two more frames of lead, and that many are reached
  (`PtsTimeline.LeadAfterResets`, `PtsTimeline.ResetsAddTwoFramesEach`). The timestamp generator
  alone has no bound (`PtsTimeline.UngatedLeadGrows`).
* Below 60 the gate does not grant at most 1 + length/period in every later window. It does so
  exactly when at most one period of credit is banked at the start of the window; after a longer
  idle gap two frames can pass back to back (`FpsGate.WindowRateExactly`). Every fresh gate gets
  there: one call is enough (`FpsGate.FreshGateBursts`).
* A scheduler that skips lands on the first lattice point *after* now. That is one point further
  than the first one not before now exactly when now is itself a lattice point
  (`Schedulers.SkipIsFirstUnlessOnLattice`, `Schedulers.TickIsFirstUnlessExact`).
* Camera 1 feeds three queues. All its open queues hold the same frame, so at most one slot more
  than there are consumers and closed queues is out. If frames went on being captured after
  closes, it could run dry of its six slots exactly when two or three queues are closed
  (`WarpPool.RunsDryIffTwoClosed`). The order of shutdown excludes that: the stop flags are
  raised before any queue is closed and tested before every frame, so in every run of capture,
  consumers and shutdown an acquire finds a slot (`WarpPool.AcquireNeverFails`).
* With error level 0, which a saturated picture of average brightness produces, the tuner reaches
  the corner exactly from the states `BrightTuner.ReachesCornerIff` gives. From all others, and
  from no other, it goes on sending for ever, and from some frame on always the same value
  (`BrightTuner.SendsForEverIff`). In the last phase the step is clamped a second time, so there
  level 0 moves by the least step.
* The producer hash is not free of waiting: a call whose thread has no producer yet goes round for
  ever exactly while another thread stands still with the resize lock and its number is at or
  beyond three quarters of the newest table (`ProducerHash.LoneCallEndsIff`). The free list is:
  alone, from wherever it was, every call ends within 22 steps (`FreeList.LoneCallEnds`).
* A PUT that names a section the stored configuration lacks stores that section unchecked
  (`RestConfig.ValidityKeptIff`, `RestConfig.MissingSectionIsNotChecked`). The same PUT sent again
  changes nothing, but is then refused if such a value is not valid (`RestConfig.RepeatedPut`).

## Model

| member | source | states |
|---|---|---|
| `FreeList.StepInv` | rtsp_server/common/concurrentqueue.h:1459-1538 | one step of any thread keeps the list acyclic and duplicate-free, every node in one place, and every reference word equal to holders + list reference + flag |
| `FreeList.Execute` | rtsp_server/common/concurrentqueue.h:1459-1538 | the same after any schedule of any number of threads |
| `FreeList.PopInstallsNext` | rtsp_server/common/concurrentqueue.h:1487-1490 | a successful head exchange installs what the popped node links to at that moment and leaves exactly the rest of the list: no ABA, no node lost |
| `FreeList.EveryNodeInOnePlace` | rtsp_server/common/concurrentqueue.h:1464-1470 | following next from the head visits exactly the listed nodes; a node is listed, with a client, flagged with holders left, or in the hand of exactly one thread |
| `FreeList.PoppedNodeUnflagged` | rtsp_server/common/concurrentqueue.h:1491-1493 | the assertion after the head exchange holds, and no other thread has the node in hand |
| `FreeList.HeldLinkIsStable` | rtsp_server/common/concurrentqueue.h:1487-1489 | while a thread holds a reference no step of anybody rewrites the node's next |
| `FreeList.NoNodeLost` | rtsp_server/common/concurrentqueue.h:1459-1538 | when no call is in flight a node is on the list with count 1 or with a client with count 0 |
| `FreeList.SoloTryGet` | rtsp_server/common/concurrentqueue.h:1474-1499 | with nodes listed, a try_get that goes on alone, wherever the other threads stalled, returns the first of them and leaves the rest of the list |
| `FreeList.SoloTryGetEmpty` | rtsp_server/common/concurrentqueue.h:1478-1510 | with none listed it returns nothing and changes nothing |
| `FreeList.SoloAdd` | rtsp_server/common/concurrentqueue.h:1459-1538 | an add that goes on alone puts its node at the front, or, while somebody still holds the node, leaves that to the last holder |
| `FreeList.EmptyHandedOnlyIfNull` | rtsp_server/common/concurrentqueue.h:1478-1510 | in every run a try_get returns nothing only if the list had no head at a moment during the call |
| `FreeList.LoneCallEnds` | rtsp_server/common/concurrentqueue.h:1459-1538 | no thread is held up by others that stand still: from any state that satisfies the invariant a call that goes on alone is over after at most 22 steps |
| `DequeueTickets.HeadWithinTail` | rtsp_server/common/concurrentqueue.h:1992-2003 | won tickets never outnumber published elements, though each test used an overcommit that may be stale: head <= tail |
| `DequeueTickets.StepInv` | rtsp_server/common/concurrentqueue.h:1955-2052 | one step of the producer or of any single or bulk consumer keeps the ticket invariant |
| `DequeueTickets.Execute` | rtsp_server/common/concurrentqueue.h:2247-2338 | the ticket invariant holds after any interleaving |
| `DequeueTickets.DeliveredOnceAfterConstruction` | rtsp_server/common/concurrentqueue.h:1993-2043 | an index about to be moved out is claimed, constructed, published, not delivered before and in no other consumer's range |
| `DequeueTickets.QuiescentBalance` | rtsp_server/common/concurrentqueue.h:1981-1986 | with no dequeue in flight optimistic - overcommit = head, and exactly the first head elements were delivered, each under its index |
| `DequeueTickets.SoloDequeue` | rtsp_server/common/concurrentqueue.h:1955-2052 | a dequeue that goes on alone, wherever the others stalled, takes one element in the single form and the smaller of max and what is left in the bulk form: the next ones from the head, under their own indices, and is over |
| `DequeueTickets.SoloTakesAll` | rtsp_server/common/concurrentqueue.h:1981-1986 | with no other dequeue under way what is left is everything from head to tail |
| `DequeueTickets.SoloLateClaim` | rtsp_server/common/concurrentqueue.h:2256-2330 | a thread that took tickets and goes on alone, whatever happened meanwhile, takes what it wanted or what the tail leaves for its tickets, and counts the others as lost |
| `DequeueTickets.SoloEmpty` | rtsp_server/common/concurrentqueue.h:1955-1960 | with nothing left it comes back with the state as it was |
| `DequeueTickets.NeverMoreThanAsked` | rtsp_server/common/concurrentqueue.h:2247-2266 | in every run what a call got, the range it reads and its tickets in flight never exceed what it asked for, 1 or max |
| `DequeueTickets.OpenTickets` | rtsp_server/common/concurrentqueue.h:1981-2048 | in every run optimistic - overcommit - head is what the calls in flight hold |
| `DequeueTickets.InFlightAtMost` | rtsp_server/common/concurrentqueue.h:2261-2265 | which is at most the number of threads times what one call asks for |
| `DequeueTickets.TicketDistance` | rtsp_server/common/concurrentqueue.h:1992-1992 | a ticket's corrected position leads the tail by at most the tickets in flight and the losses counted since the overcommit was read, and trails it by at most the elements in the queue and the tickets issued since |
| `DequeueTickets.FirstTestAgrees` | rtsp_server/common/concurrentqueue.h:1959-1959 | in every run the wrapped test before taking tickets decides like the true one, single and bulk, while those distances are below half a turn |
| `DequeueTickets.SecondTestAgrees` | rtsp_server/common/concurrentqueue.h:2259-2262 | so does the test after, and then the wrapped bulk count is the true number of elements left for the ticket |
| `Circular.CircularLessExact` | rtsp_server/common/concurrentqueue.h:477-480 | circular_less_than equals `<` on true values exactly when -2^63 < x - y <= 2^63 |
| `BlockIndex.LookupIsExact` | rtsp_server/common/concurrentqueue.h:2011-2017 | masked base, signed division and power-of-two mask land exactly n - f slots from the front, however often indices have wrapped |
| `BlockIndex.LookupFinds` | rtsp_server/common/concurrentqueue.h:2008-2017 | the lookup reads the entry of the index's own block |
| `BlockIndex.GrownKeepsWindow` | rtsp_server/common/concurrentqueue.h:2370-2390 | growing to twice the size keeps all live entries in order |
| `BlockIndex.AddedExtendsWindow` | rtsp_server/common/concurrentqueue.h:1934-1939 | entering a block appends its entry to the live ones and, on reuse, drops the oldest |
| `BlockIndex.Index.constructor` | rtsp_server/common/concurrentqueue.h:1771-1786 | made from half the size by growing once with nothing to copy |
| `BlockIndex.Index.NewBlockIndex` | rtsp_server/common/concurrentqueue.h:2356-2393 | in place: a fresh array of twice the size with the same live entries, the front on the newest, or before the first slot when there is none |
| `BlockIndex.Index.CopyLive` | rtsp_server/common/concurrentqueue.h:2370-2378 | the copying loop ends after exactly the used slots, none included, and has copied them oldest first |
| `BlockIndex.Index.AddBlock` | rtsp_server/common/concurrentqueue.h:1934-1939 | in place: one entry is written and published, the live entries change as said above |
| `BlockIndex.Index.Lookup` | rtsp_server/common/concurrentqueue.h:2014-2017 | returns the block of the index among consecutive live blocks |
| `BlockReuse.HeldBlockIsLive` | rtsp_server/common/concurrentqueue.h:1857-1860 | the block of an index claimed but not moved out has not been reused |
| `BlockReuse.SnapshotLookup` | rtsp_server/common/concurrentqueue.h:2006-2017 | reading header, front and base in separate steps, however stale, arrives at the entry of the block where the first index of the range was stored |
| `BlockReuse.WriteEntryInv` | rtsp_server/common/concurrentqueue.h:1935-1937 | overwriting the base or the block of the entry after the front is invisible to every consumer, whatever it has read so far |
| `BlockReuse.ThreeWritesAreAddBlock` | rtsp_server/common/concurrentqueue.h:1934-1939 | the writes of base, block and front together are the one-step AddBlock of the index, for fresh and reused blocks |
| `BlockReuse.StepInv` | rtsp_server/common/concurrentqueue.h:1849-1952 | taking a block, each write of its entry, publishing, building, growth and every step of every consumer, single or bulk, keep ring, chain, flags and stored elements consistent |
| `BlockReuse.Execute` | rtsp_server/common/concurrentqueue.h:1849-1952 | the same after any schedule |
| `BlockReuse.LookupFindsStoringBlock` | rtsp_server/common/concurrentqueue.h:2275-2293 | in every run a consumer that looked a slot up or walked on to the next one, in however old an index, finds the block its next indices were stored in, and they are all still there |
| `BlockReuse.MovedOutIsEnqueued` | rtsp_server/common/concurrentqueue.h:2287-2326 | what a consumer moved out, over however many blocks, are the elements enqueued at its indices in order, and nobody else holds one of the rest |
| `BlockReuse.NothingLost` | rtsp_server/common/concurrentqueue.h:2325-2327 | with all consumers idle exactly the claimed indices have been given back to their blocks |
| `BlockReuse.EndsOnItsOwn` | rtsp_server/common/concurrentqueue.h:2275-2329 | no consumer is ever blocked: whatever others do, a dequeue of n claimed elements ends after at most 3n + 5 steps of its own |
| `BlockReuse.ReuseIsSafe` | rtsp_server/common/concurrentqueue.h:1570-1583 | when the next block tests empty, all elements of its number were moved out, and live blocks are pairwise different |
| `BlockReuse.SoloEnqueue` | rtsp_server/common/concurrentqueue.h:1844-1952 | an enqueue while the consumers stand still fills the tail block; when its 32 places are used it takes over the oldest block exactly if all its elements were moved out, else adds a fresh one, growing a full index; it is refused, with nothing changed, only half a turn ahead of the head or out of memory |
| `ExplicitQueue.ClaimIsGranted` | rtsp_server/common/concurrentqueue.h:1992-2003 | a thread about to add to the head finds its whole range published: what the blocks ask of a claim the tickets provide |
| `ExplicitQueue.DeliversTheTicketsElement` | rtsp_server/common/concurrentqueue.h:2019-2043 | what is moved out of a block's memory is the element built under the thread's next ticketed index, delivered now and not before |
| `ExplicitQueue.StepInv` | rtsp_server/common/concurrentqueue.h:1849-2338 | every step of producer, tickets and block walk keeps both invariants and keeps head, tail, elements and ranges of the two in line |
| `ExplicitQueue.Execute` | rtsp_server/common/concurrentqueue.h:1849-2338 | the same after any schedule |
| `ExplicitQueue.ReuseAfterDelivery` | rtsp_server/common/concurrentqueue.h:1857-1860 | a block is taken over only after every element of its number was delivered under its own index |
| `ExplicitQueue.DequeuedAreConsecutive` | rtsp_server/common/concurrentqueue.h:2271-2329 | what a dequeue took out so far is the run of consecutive elements that its tickets won |
| `ExplicitQueue.QuietQueue` | rtsp_server/common/concurrentqueue.h:1981-1986 | with no dequeue under way exactly the first head elements were delivered and exactly their places were given back |
| `ExplicitQueue.LoneDequeue` | rtsp_server/common/concurrentqueue.h:1955-2329 | a dequeue that goes on alone, wherever the others stalled, walks through the blocks to its end and has taken 1 element, or the smaller of max and what is left, in the order of the enqueues |
| `ExplicitQueue.LoneEnqueue` | rtsp_server/common/concurrentqueue.h:1844-1952 | an enqueue while the consumers stand still appends its element, or changes nothing if there is no place for one more |
| `ExplicitQueue.InThenOut` | rtsp_server/common/concurrentqueue.h:1844-2052 | an element enqueued to a quiet empty queue is what the next dequeue of any thread delivers, and the queue is empty again |
| `ProducerHash.ProbesStayBelowLimit` | rtsp_server/common/concurrentqueue.h:3412-3412 | occupied slots at the start of a probe sequence belong to ids with distinct tickets below 3/4 of the capacity, so they are fewer than that |
| `ProducerHash.StepInv` | rtsp_server/common/concurrentqueue.h:3388-3533 | one step of any thread keeps all tables, tickets, producers and the resize lock consistent |
| `ProducerHash.Execute` | rtsp_server/common/concurrentqueue.h:3388-3533 | the same after any schedule |
| `ProducerHash.ProbeFinds` | rtsp_server/common/concurrentqueue.h:3415-3443 | a probe that meets the thread's id reads the producer first made for it |
| `ProducerHash.FreeSlotMeansAbsent` | rtsp_server/common/concurrentqueue.h:3444-3446 | a probe that meets a free slot has shown that the thread is not in that table |
| `ProducerHash.ProbeLoopsEnd` | rtsp_server/common/concurrentqueue.h:3411-3448 | in every reachable state the probes made stay below 3/4 of the capacity |
| `ProducerHash.FreeSlotAhead` | rtsp_server/common/concurrentqueue.h:3412-3412 | every table keeps a free slot on every thread's probe path |
| `ProducerHash.OwnProducer` | rtsp_server/common/concurrentqueue.h:3494-3526 | a call returns the thread's own producer, and distinct threads have distinct ones |
| `ProducerHash.SameProducerForever` | rtsp_server/common/concurrentqueue.h:3394-3396 | after any further schedule every call of the thread returns the same producer |
| `ProducerHash.RoomAfterGrowth` | rtsp_server/common/concurrentqueue.h:3462-3494 | a thread that published a table inserts its entry there, whatever others do meanwhile, without another turn of the outer loop |
| `ProducerHash.Doubled` | rtsp_server/common/concurrentqueue.h:3462-3465 | the doubling loop ends with the count below half of the capacity |
| `ProducerHash.TablesFollowTheCount` | rtsp_server/common/concurrentqueue.h:3455-3494 | in every run the tables start at 32 slots, are powers of two, at least double each time, and have at most four times as many slots as threads were counted |
| `ProducerHash.LoneCallEndsIff` | rtsp_server/common/concurrentqueue.h:3452-3532 | a call that goes on alone, wherever it and the others stalled, returns if and only if its thread has a producer, the resize lock is free or its own, or its number is below 3/4 of the newest table; it makes one producer if there was none |
| `ProducerHash.CountersCount` | rtsp_server/common/concurrentqueue.h:3452-3496 | in every run the hash count is the number of threads that have a ticket, as many producers were made as threads have one, and while the lock is held somebody is inside the growth |
| `ProducerHash.LoneCall` | rtsp_server/common/concurrentqueue.h:3388-3533 | so in every run, while nobody stands still inside the growth, a call that goes on alone returns the thread's own producer |
| `Semaphore.StepInv` | rtsp_server/common/lightweightsemaphore.h:278-418 | one step of any thread keeps: count + waiters = initial + signalled - acquired, and max(0, -count) = waiters - permits posted or being posted |
| `Semaphore.Execute` | rtsp_server/common/lightweightsemaphore.h:278-418 | the same after any schedule, through timeouts, compensation and multi-acquires |
| `Semaphore.NeverOversold` | rtsp_server/common/lightweightsemaphore.h:351-418 | permits returned to callers never exceed the initial count plus the signals |
| `Semaphore.ReturnsAtMostAsked` | rtsp_server/common/lightweightsemaphore.h:378-400 | a call returns at most what it asked for |
| `Semaphore.PermitComing` | rtsp_server/common/lightweightsemaphore.h:299-311 | a thread that timed out and would see a count >= 0 has a kernel permit posted or coming |
| `Semaphore.BlockedOnlyWhenExhausted` | rtsp_server/common/lightweightsemaphore.h:409-418 | no lost wake-up: waiters without a permit coming mean that every permit was acquired |
| `Semaphore.QuiescentCount` | rtsp_server/common/lightweightsemaphore.h:273-276 | with no call in flight the count alone is what is left and the kernel semaphore is empty |
| `Semaphore.SoloTakes` | rtsp_server/common/lightweightsemaphore.h:357-400 | with permits there a try or wait that goes on alone takes as many as asked for or all there are |
| `Semaphore.SoloTriesInVain` | rtsp_server/common/lightweightsemaphore.h:379-391 | with none there a try returns 0 and changes nothing |
| `Semaphore.SoloWaitsInVain` | rtsp_server/common/lightweightsemaphore.h:299-311 | a wait that spins, blocks and gets no permit gives its decrement back and returns 0 |
| `Semaphore.SoloWakes` | rtsp_server/common/lightweightsemaphore.h:335-347 | a sleeper that finds a kernel permit takes it and what more it may of the count, and returns the sum |
| `Semaphore.SoloSpins` | rtsp_server/common/lightweightsemaphore.h:314-330 | a spinning waiter that sees permits takes as many as it may or there are |
| `Semaphore.SpinsDown` | rtsp_server/common/lightweightsemaphore.h:314-330 | every step of a spin, whatever the count, brings it nearer to its end |
| `Semaphore.SoloCompensates` | rtsp_server/common/lightweightsemaphore.h:335-347 | a waiter that timed out but finds the count made up for takes the kernel permit, and what more it may, and returns the sum |
| `Semaphore.SoloSignals` | rtsp_server/common/lightweightsemaphore.h:409-418 | a signal adds its number and posts a kernel permit for each waiter it makes up for |
| `Semaphore.EmptyHandedOnlyIfNone` | rtsp_server/common/lightweightsemaphore.h:379-391 | in every run a try for at least one permit returns 0 only if the count was not positive at a moment during the call |
| `BlockingQueue.StepInv` | rtsp_server/common/blockingconcurrentqueue.h:123-386 | elements = count + waiters + enqueued but unsignalled + permits held, kept by every step |
| `BlockingQueue.Execute` | rtsp_server/common/blockingconcurrentqueue.h:123-386 | the same after any schedule |
| `BlockingQueue.SpinnersEntitled` | rtsp_server/common/blockingconcurrentqueue.h:294-335 | a thread in the inner dequeue spin, single or bulk, has as many elements there as it still asks for |
| `BlockingQueue.OthersCannotTakeMine` | rtsp_server/common/blockingconcurrentqueue.h:359-386 | whatever schedule the others follow while this spinner does not move, all it still needs stays in the queue, and a dequeue of it takes just that and ends the spin |
| `BlockingQueue.QuiescentCountIsSize` | rtsp_server/common/blockingconcurrentqueue.h:123-386 | with every thread outside, the count is the number of elements |
| `BlockingQueue.SoloEnqueue` | rtsp_server/common/blockingconcurrentqueue.h:123-131 | an enqueue of n that goes on alone adds n elements and n permits and wakes one sleeper for each it makes up for |
| `BlockingQueue.SoloDequeue` | rtsp_server/common/blockingconcurrentqueue.h:294-369 | a dequeue that goes on alone, trying or waiting, single or bulk, takes as many elements and permits as it may and there are |
| `FpsGate.StreamFpsGate.AllowFrame` | rtsp_server/include/k180_h265_hub.h:98-126 | one call turns the old gate into the specified one, with 64-bit wrap-around of the credit |
| `FpsGate.StreamFpsGate.Configure` | rtsp_server/include/k180_h265_hub.h:88-91 | sets the rate and clears the account |
| `FpsGate.StreamFpsGate.Reset` | rtsp_server/include/k180_h265_hub.h:93-96 | clears the account and keeps the rate |
| `FpsGate.Bypassed` | rtsp_server/include/k180_h265_hub.h:104-106 | configured to 0 or less the gate refuses every call, from 60 on it grants every call, and never counts |
| `FpsGate.CreditBound` | rtsp_server/include/k180_h265_hub.h:98-126 | below 60, over any run, periods granted plus credit in hand never exceed the starting credit plus the time passed |
| `FpsGate.CreditExact` | rtsp_server/include/k180_h265_hub.h:98-126 | below 60, with calls at most one period apart, that is an equation: no credit is lost to the cap |
| `FpsGate.RateBounds` | rtsp_server/include/k180_h265_hub.h:98-126 | below 60, after n grants since the first call, (n - 2) periods fit into the time passed, and, with calls at most a period apart, the time passed fits into n - 1 periods |
| `FpsGate.FramesPerSecond` | rtsp_server/include/k180_h265_hub.h:98-126 | the rate in frames: after n grants, n - 2 frames fit into the time passed at the configured rate, up to rounding to nanoseconds, and with calls at most a frame time apart n frames do not |
| `FpsGate.RateKeptIff` | rtsp_server/include/k180_h265_hub.h:104-106 | the first of these holds for every run of a gate configured to a positive rate if and only if the rate is below 60 |
| `FpsGate.WindowBound` | rtsp_server/include/k180_h265_hub.h:98-126 | below 60 a later window grants at most what is banked at its start plus its length |
| `FpsGate.WindowRateExactly` | rtsp_server/include/k180_h265_hub.h:98-126 | below 60 every call pattern of a later window gets at most 1 + length/period if and only if at most one period is banked at its start |
| `FpsGate.FreshGateBursts` | rtsp_server/include/k180_h265_hub.h:108-114 | after the first call of a fresh gate that bound holds for the window that starts with it and for no later one |
| `FpsGate.BurstAfterIdle` | rtsp_server/include/k180_h265_hub.h:115-124 | after an idle time of two frames or more, however long, of any calls at one instant exactly the first two are granted |
| `FpsGate.ClockBackStartsAfresh` | rtsp_server/include/k180_h265_hub.h:108-113 | when the clock went back the gate does from then on what one just configured would do |
| `FpsGate.H265Hub.Create` | rtsp_server/src/k180_h265_hub.cpp:82-276 | a hub made anew starts its clock anew; one that has a pipeline is stopped first |
| `FpsGate.H265Hub.StampPts` | rtsp_server/src/k180_h265_hub.cpp:406-474 | a push is refused without a buffer, a started hub, a pipeline, usable sizes or rate, or before the pipeline is paused; otherwise it stamps as specified, also when appsrc then refuses the buffer |
| `FpsGate.QuantisedIsWhole` | rtsp_server/src/k180_h265_hub.cpp:452-453 | the code's quotient times the frame time is the last frame boundary not after the elapsed time |
| `PtsTimeline.PtsIsPeak` | rtsp_server/src/k180_h265_hub.cpp:437-458 | the n-th timestamp is a whole number of frames and equals a closed-form maximum over the history of pushes |
| `PtsTimeline.PtsStrictlyIncrease` | rtsp_server/src/k180_h265_hub.cpp:455-458 | each timestamp is at least one frame later than the one before |
| `PtsTimeline.LeadAfterResets` | rtsp_server/src/k180_h265_hub.cpp:416-462 | behind a gate of the same clock and rate below 60 a timestamp leads the elapsed time by at most two frames and two more for each reset, whatever frames are lost in between |
| `PtsTimeline.ResetsAddTwoFramesEach` | rtsp_server/src/k180_h265_hub.cpp:492-497 | for any number of resets there is a run that reaches that lead |
| `PtsTimeline.LeadAtMostTwoFramesIff` | rtsp_server/include/k180_h265_hub.h:104-106 | without resets the lead stays within two frames in every run if and only if the rate is below 60 |
| `PtsTimeline.UngatedLeadGrows` | rtsp_server/src/k180_h265_hub.cpp:424-425 | without the gate n pushes at one instant lead by n frames |
| `StreamPaths.IdsDistinct` | rtsp_server/src/k180_rtsp_attach.cpp:51-54 | stream ids, and the counters behind them, tell all streams apart and are in range |
| `StreamPaths.ParseActivePath` | rtsp_server/src/k180_rtsp_attach.cpp:62-96 | a path parses to an existing stream or to nothing |
| `StreamPaths.ParseNumber` | rtsp_server/src/k180_stream_builder.cpp:165-174 | the digit loop with its early exit computes the specified number |
| `StreamPaths.ParseUndoesMountPath` | rtsp_server/src/k180_rtsp_attach.cpp:365-384 | parsing undoes naming for every stream, whatever control sub-path follows the mount |
| `StreamPaths.PathIsUnderstoodIff` | rtsp_server/src/k180_stream_builder.cpp:146-184 | a path is understood as a stream if and only if it is /s1_ or /s2_, the decimal number of the view with any zeros in front, the suffix for H264 with a view 1 to 4, and then nothing or a slash and anything |
| `RtspViewers.StepInv` | rtsp_server/src/k180_rtsp_attach.cpp:135-346 | every callback keeps the viewer equation and duplicate-free lists and equals code whose decrement has no floor: it never saturates |
| `RtspViewers.Execute` | rtsp_server/src/k180_rtsp_attach.cpp:135-346 | the same after any sequence of callbacks of any number of clients |
| `RtspViewers.ViewersAreClientsPlusToken` | rtsp_server/src/k180_rtsp_attach.cpp:199-251 | viewers of a stream = clients whose list holds it + 1 while its factory's token is set |
| `RtspViewers.StateIsHistory` | rtsp_server/src/k180_rtsp_attach.cpp:135-363 | in every run a client holds a stream if and only if it asked for it and neither halted it or all, nor was closed since; factories and tokens are those of the history too |
| `RtspViewers.PushedIffWatched` | rtsp_server/src/k180_h265_hub.cpp:518-523 | the viewer test passes exactly while a client holds the stream or the token is set |
| `RtspViewers.NobodyLeftNothingCounted` | rtsp_server/src/k180_rtsp_attach.cpp:278-326 | once all clients are closed and all media unprepared, in whatever order, nothing is counted |
| `RtspViewers.DecAllFacts` | rtsp_server/src/k180_rtsp_attach.cpp:162-170 | releasing a duplicate-free list takes one from each of its streams and no more |
| `RtspViewers.RtspServer.ViewerInc` | rtsp_server/src/k180_h265_hub.cpp:492-557 | adds one to the stream's own counter, of either codec |
| `RtspViewers.RtspServer.ViewerDec` | rtsp_server/src/k180_h265_hub.cpp:505-569 | takes one from the stream's own counter, not below zero |
| `RtspViewers.RtspServer.WantPush` | rtsp_server/src/k180_h265_hub.cpp:518-575 | true when the stream has viewers, or for H265 while it is recorded |
| `RtspViewers.RtspServer.ReleaseFactoryBootstrap` | rtsp_server/src/k180_rtsp_attach.cpp:135-144 | a set token is cleared with one decrement, a clear one changes nothing |
| `RtspViewers.RtspServer.ConsumeBootstrap` | rtsp_server/src/k180_rtsp_attach.cpp:146-160 | the token of the registered factory of that stream, if any, is released |
| `RtspViewers.RtspServer.ReleaseAllStreams` | rtsp_server/src/k180_rtsp_attach.cpp:162-170 | one decrement for each active stream, then an empty list |
| `RtspViewers.RtspServer.StartClientStream` | rtsp_server/src/k180_rtsp_attach.cpp:199-223 | describe, setup and play: the request step |
| `RtspViewers.RtspServer.StopClientStream` | rtsp_server/src/k180_rtsp_attach.cpp:225-251 | pause and teardown: the halt step, all streams without a usable path |
| `RtspViewers.RtspServer.MediaConfigure` | rtsp_server/src/k180_rtsp_attach.cpp:328-346 | sets the token and counts it once |
| `RtspViewers.RtspServer.DestroyContext` | rtsp_server/src/k180_rtsp_attach.cpp:348-363 | unregisters the factory and releases its token |
| `StageQueue.BoundedQueue.TryPush` | rtsp_server/include/k180_stage_queue.h:37-45 | refused when closed, otherwise the newest max items remain in order |
| `StageQueue.BoundedQueue.Push` | rtsp_server/include/k180_stage_queue.h:24-34 | the same without a result |
| `StageQueue.BoundedQueue.Pop` | rtsp_server/include/k180_stage_queue.h:47-54 | the oldest item, or nothing from a closed empty queue |
| `StageQueue.BoundedQueue.TryPop` | rtsp_server/include/k180_stage_queue.h:77-83 | the oldest item, or nothing when empty |
| `StageQueue.BoundedQueue.PopLatest` | rtsp_server/include/k180_stage_queue.h:57-66 | the newest item and an empty queue, or nothing |
| `StageQueue.BoundedQueue.TryPopLatest` | rtsp_server/include/k180_stage_queue.h:68-75 | the same without waiting |
| `StageQueue.BoundedQueue.Close` | rtsp_server/include/k180_stage_queue.h:85-91 | closes and keeps the items |
| `StageQueue.KeepsNewest` | rtsp_server/include/k180_stage_queue.h:23-34 | any number of pushes without a pop leaves exactly the newest max items in order |
| `StageQueue.NoDropWithRoom` | rtsp_server/include/k180_stage_queue.h:23-34 | any number of pushes without a pop drops nothing if and only if all the items fit |
| `StageQueue.FirstInFirstOut` | rtsp_server/include/k180_stage_queue.h:23-91 | after any pushes the pops give the newest max items in their order and then nothing, a pop of the latest the last one alone; a closed queue keeps what it had |
| `InferSlots.StepInv` | rtsp_server/src/gy_two_cam.cpp:1031-1096 | every step keeps a slot busy exactly while it is owned, in one place |
| `InferSlots.Execute` | rtsp_server/src/gy_two_cam.cpp:1488-1528 | the same after any schedule, with CUDA errors and close at any time |
| `InferSlots.BusyIffOwnedOnce` | rtsp_server/src/gy_two_cam.cpp:1009-1096 | busy if and only if held by the apply thread, in the queue once, or held by the worker, never two of them |
| `InferSlots.NoJobDropped` | rtsp_server/src/gy_two_cam.cpp:1518-1525 | the drop-oldest push never drops a job: it finds room, or a closed queue |
| `InferSlots.NoSlotLeaks` | rtsp_server/src/gy_two_cam.cpp:1064-1095 | with nobody working and an empty queue every slot is free |
| `InferSlots.LoneApply` | rtsp_server/src/gy_two_cam.cpp:1031-1041 | the apply thread on its own takes the first free slot and queues it as the newest job if copy and record succeed and the queue is open; otherwise nothing has changed at the end |
| `InferSlots.NoSlotNoJob` | rtsp_server/src/gy_two_cam.cpp:1488-1493 | with every slot taken nothing is offered and nothing changes |
| `InferSlots.LoneWorker` | rtsp_server/src/gy_two_cam.cpp:1055-1096 | the worker on its own takes the oldest job and frees its slot, with or without a CUDA error, also after a close |
| `InferSlots.WorkerEnds` | rtsp_server/src/gy_two_cam.cpp:1055-1056 | it leaves after a stop, and when the queue is closed and empty; it waits while it is open and empty |
| `WarpPool.GpuMatPool.constructor` | rtsp_server/include/k180_frame_item.h:27-30 | all slots free, each once |
| `WarpPool.GpuMatPool.TryAcquire` | rtsp_server/include/k180_frame_item.h:33-39 | removes and returns the last free slot, or -1 with nothing changed |
| `WarpPool.GpuMatPool.Release` | rtsp_server/include/k180_frame_item.h:41-44 | appends the slot |
| `WarpPool.StepInv` | rtsp_server/src/gy_two_cam.cpp:1614-1670 | acquiring, pushing, taking, dropping and closing keep free and live slots a partition |
| `WarpPool.Execute` | rtsp_server/src/gy_two_cam.cpp:1614-1670 | the same after any schedule |
| `WarpPool.FreeAndLivePartition` | rtsp_server/include/k180_frame_item.h:80-97 | a slot is free if and only if no reference to its frame is left, and free once |
| `WarpPool.AtMostTwoPerQueue` | rtsp_server/src/gy_two_cam.cpp:1908-1910 | when capture acquires, at most two slots per queue are out |
| `WarpPool.OneMoreThanConsumersAndClosed` | rtsp_server/src/gy_two_cam.cpp:1667-1670 | when capture acquires, at most one slot more than there are consumers and closed queues is out |
| `WarpPool.SixSlotsSuffice` | rtsp_server/src/gy_two_cam.cpp:339-339 | with six slots a camera with two queues always gets one, and one with three queues does while at most one is closed |
| `WarpPool.RunsDryIffTwoClosed` | rtsp_server/src/gy_two_cam.cpp:1636-1641 | were frames captured on after closes, a camera with three queues could find no slot if and only if two or three of them are closed |
| `WarpPool.AcquireNeverFails` | rtsp_server/src/gy_two_cam.cpp:2142-2158 | with the stop flags raised before the first close and tested every turn, no run, shutdown included, fails to acquire with two slots more than queues |
| `WarpPool.FrameReachesAll` | rtsp_server/src/gy_two_cam.cpp:1636-1670 | a frame handed over while the consumers stand still is alone in every open queue afterwards; closed queues and what consumers hold stay |
| `WarpPool.LoneConsumer` | rtsp_server/include/k180_frame_item.h:80-97 | a consumer gets the oldest frame of its queue, and when it forgets it the slot is free exactly if nobody else refers to it |
| `WarpPool.LoneTurn` | rtsp_server/src/gy_two_cam.cpp:1614-1670 | a turn of capture on its own ends the thread after a stop request and otherwise hands a frame to every open queue |
| `WarpPool.TurnWithoutFrame` | rtsp_server/src/gy_two_cam.cpp:1614-1641 | a turn without a sample or a slot changes nothing, a failed one ends the thread |
| `WarpPool.Shutdown` | rtsp_server/src/gy_two_cam.cpp:2142-2158 | queues close after the stop request and not before, a closed one still gives its frame to its consumer, and the next turn of capture is its last |
| `Rendezvous.StepInv` | rtsp_server/src/cam_half_rate_min.cpp:1252-1336 | every critical section, control call and clock read keeps count, stamps and snapshots right |
| `Rendezvous.EveryRun` | rtsp_server/src/cam_half_rate_min.cpp:1252-1336 | the same after any delays and timeouts of any number of workers |
| `Rendezvous.CountIsReported` | rtsp_server/src/cam_half_rate_min.cpp:1275-1282 | done_count is the number of workers that reported for the current round, and complete if and only if all did |
| `Rendezvous.OkMeansTriggeredThisRound` | rtsp_server/src/cam_half_rate_min.cpp:1319-1325 | the k-th snapshot is of round k; an entry marked ok is a call made in that very round between its epoch and the recorded stamp |
| `Rendezvous.AllDoneMeansEverybodyReported` | rtsp_server/src/cam_half_rate_min.cpp:1319-1331 | a snapshot taken with all done says of every worker what it did in that round |
| `Rendezvous.OneTriggerPerRound` | rtsp_server/src/cam_half_rate_min.cpp:1260-1271 | the rounds a worker triggers for strictly increase |
| `Rendezvous.SnapshotsAreFinal` | rtsp_server/src/cam_half_rate_min.cpp:1319-1331 | over any further schedule the snapshots taken stay as they are |
| `Rendezvous.LateCompletionsDoNotCount` | rtsp_server/src/cam_half_rate_min.cpp:1275-1283 | a worker late with a round stays late: however many rounds go by, its completion changes neither count, stamps, flags nor snapshots |
| `Rendezvous.RoundInTime` | rtsp_server/src/cam_half_rate_min.cpp:1252-1336 | a round in which all workers are in time, whatever happened before: each triggers once and the snapshot is complete, with each one's result and time |
| `Rendezvous.GatheringEnds` | rtsp_server/src/cam_half_rate_min.cpp:1314-1331 | a round ends at the timeout with what was reported, marked complete if and only if all reported, and before the timeout only then |
| `Rendezvous.StopEndsAll` | rtsp_server/src/cam_half_rate_min.cpp:1252-1262 | after a stop every waiting worker leaves at its next step and no round begins |
| `Schedulers.AdvancedBounds` | rtsp_server/src/cam_half_rate_min.cpp:1155-1165 | an advance goes at least one interval on, is never before now, and after a miss is at most one interval past now |
| `Schedulers.SkipIsFirstUnlessOnLattice` | rtsp_server/src/cam_half_rate_min.cpp:1158-1163 | the new deadline is the first lattice point not before now if and only if now is not a lattice point past the missed deadline |
| `Schedulers.InnerTestAlwaysHolds` | rtsp_server/src/cam_half_rate_min.cpp:1176-1182 | whenever the outer test holds, so does skip_to_tick > tick_ |
| `Schedulers.OffsetIncreases` | rtsp_server/src/cam_half_rate_min.cpp:1194-1197 | later ticks have strictly later deadlines |
| `Schedulers.OffsetKeepsRate` | rtsp_server/src/cam_half_rate_min.cpp:1194-1197 | fps ticks later is exactly one second later |
| `Schedulers.NextTickBounds` | rtsp_server/src/cam_half_rate_min.cpp:1167-1183 | an advance yields a strictly later deadline that is not before now |
| `Schedulers.OnTimeIsNext` | rtsp_server/src/cam_half_rate_min.cpp:1167-1183 | while the deadline of the following tick has not passed, also before the start, an advance goes to the following tick |
| `Schedulers.NextTickExact` | rtsp_server/src/cam_half_rate_min.cpp:1167-1183 | in all cases it goes to the first later tick whose deadline is not before now, and one further exactly when one was missed and now * fps is a whole number of seconds |
| `Schedulers.EveryTickOnTime` | rtsp_server/src/cam_half_rate_min.cpp:1139-1183 | n advances, each made before the following deadline, lead from tick 1 to tick 1 + n |
| `Schedulers.TickIsFirstUnlessExact` | rtsp_server/src/cam_half_rate_min.cpp:1176-1182 | a skip goes to the first tick not before now if and only if now * fps is not a whole number of seconds |
| `Schedulers.NoWordOverflow` | rtsp_server/src/cam_half_rate_min.cpp:1174-1178 | up to 213 days of uptime no product exceeds 64 bits |
| `Schedulers.TriggerScheduler.constructor` | rtsp_server/src/cam_half_rate_min.cpp:1139-1146 | the first deadline is one interval, or tick 1, after the start |
| `Schedulers.TriggerScheduler.Advance` | rtsp_server/src/cam_half_rate_min.cpp:1153-1183 | in place, in both modes: as specified, on the lattice, strictly later and not before now |
| `Schedulers.Longest` | rtsp_server/src/gy_two_cam.cpp:2397-2408 | the longest shutter used in a round, at least the base interval, and one of them |
| `Schedulers.TriggerThread.Round` | rtsp_server/src/gy_two_cam.cpp:2397-2420 | one round advances the deadline by the longest shutter, with the same catch-up |
| `Schedulers.DeadlinesLeaveTheShutterOpen` | rtsp_server/src/gy_two_cam.cpp:2391-2421 | in every run consecutive deadlines are at least the base and every shutter used in between apart and the later one is not before now; when the round was in time they are exactly the longest of these apart |
| `BrightTuner.LevelsInTable` | rtsp_server/src/k180_bright_tuner.cpp:206-208 | table indices stay in 0..9, and in 0..7 for gains within limits |
| `BrightTuner.StepsGrowWithError` | rtsp_server/src/k180_bright_tuner.cpp:87-130 | a larger error level gives a larger step, between the least step and the configured one |
| `BrightTuner.GainStep` | rtsp_server/src/k180_bright_tuner.cpp:88-111 | a gain step is positive exactly from error level 1 on |
| `BrightTuner.ExpoStep` | rtsp_server/src/k180_bright_tuner.cpp:114-130 | an exposure step is positive exactly from error level 1 on |
| `BrightTuner.BaseSteps` | rtsp_server/src/k180_bright_tuner.cpp:87-111 | the gain step of every octave of gain as a number |
| `BrightTuner.ErrorBands` | rtsp_server/src/k180_bright_tuner.cpp:87-130 | the steps of every band of the error level as numbers |
| `BrightTuner.SendsWhatItSets` | rtsp_server/src/k180_bright_tuner.cpp:204-337 | a frame that changes exposure or gain sends that value in the same frame, 5000 for an exposure strictly between 3000 and 7000 |
| `BrightTuner.FirstPhases` | rtsp_server/src/k180_bright_tuner.cpp:204-293 | what the phases before the last do to exposure and gain, and when they end |
| `BrightTuner.LastPhase` | rtsp_server/src/k180_bright_tuner.cpp:295-337 | what the last phase does |
| `BrightTuner.WaitsAndCounts` | rtsp_server/src/k180_bright_tuner.cpp:132-203 | when a frame changes nothing but the counters |
| `BrightTuner.Tuner.OneFrame` | rtsp_server/src/k180_bright_tuner.cpp:369-373 | the cooldown ticks before the tuning |
| `BrightTuner.Tuner.BrightTunning` | rtsp_server/src/k180_bright_tuner.cpp:132-338 | the whole new state and the request of one observation, in place |
| `BrightTuner.LimitsAreKept` | rtsp_server/src/k180_bright_tuner.cpp:132-338 | for every observation sequence exposure, gain and every value sent stay within their limits |
| `BrightTuner.MeasureFalls` | rtsp_server/src/k180_bright_tuner.cpp:204-337 | a frame that is too bright or too dark lowers a measure of distance, phase rank and cooldown: no livelock between the phases |
| `BrightTuner.ReachesCornerAndStops` | rtsp_server/src/k180_bright_tuner.cpp:132-338 | with error level at least 1 the corner is reached within the measure's number of frames, from any state, and then requests stop |
| `BrightTuner.ReachesCornerIff` | rtsp_server/src/k180_bright_tuner.cpp:88-91 | at any constant level the corner is reached if and only if the level is at least 1, or gain is at its limit and exposure is not waiting for its middle value |
| `BrightTuner.SendsForEverIff` | rtsp_server/src/k180_bright_tuner.cpp:204-337 | under a constant picture requests go on for ever if and only if the corner is not reached, and from some frame on they are all the same |
| `TrackTable.IoUIsRatio` | rtsp_server/src/k180_tracking.cpp:35-54 | for boxes with non-negative sides the overlap is a symmetric ratio between 0 and 1 |
| `TrackTable.IntersectionIsCommonArea` | rtsp_server/src/k180_tracking.cpp:35-47 | the overlap is the area of the box of exactly the common points, and 0 if and only if there is no common inner point |
| `TrackTable.IoUOfPart` | rtsp_server/src/k180_tracking.cpp:49-54 | for a box inside another the measure is the ratio of their areas |
| `TrackTable.IoUExtremes` | rtsp_server/src/k180_tracking.cpp:49-54 | it is 1 if and only if the boxes are equal and 0 if and only if no point is inside both |
| `TrackTable.IoUOfShifted` | rtsp_server/src/k180_tracking.cpp:35-54 | for a box moved by part of its side it is what is left of the side over the sides together |
| `TrackTable.Best` | rtsp_server/src/k180_tracking.cpp:137-149 | the scan finds the first of the best overlapping unused detections |
| `TrackTable.GreedyMatching` | rtsp_server/src/k180_tracking.cpp:137-156 | no detection goes to two output tracks; a match is the first best one that earlier tracks left and at least 0.3; no match means none reaches 0.3 |
| `TrackTable.Tracker.UpdateTrackTable` | rtsp_server/src/k180_tracking.cpp:91-244 | in place: the table after a call is the specified function of the table before |
| `TrackTable.Tracker.BuildUpdates` | rtsp_server/src/k180_tracking.cpp:98-196 | the loop over the output tracks computes matches and refreshed entries |
| `TrackTable.Tracker.FindMatch` | rtsp_server/src/k180_tracking.cpp:173-192 | the scan and the threshold test of one track |
| `TrackTable.Tracker.AgeOut` | rtsp_server/src/k180_tracking.cpp:227-242 | unchecked entries are one call older, and gone past the limit |
| `TrackTable.TableIsHistory` | rtsp_server/src/k180_tracking.cpp:91-243 | after any calls an id is present if and only if one of the last six named it; its lost count, age, checked flag, box, detection and velocity are those of the history |
| `RestConfig.LookupApply` | restful_api/src/restful_api_server.c:343-354 | after a merge each named key holds the merged value and every other key its old one |
| `RestConfig.UnnamedPathsUnchanged` | restful_api/src/restful_api_server.c:343-354 | a merge changes nothing at any path its updates do not name, at any depth |
| `RestConfig.NamedLeavesStored` | restful_api/src/restful_api_server.c:343-354 | every leaf of the updates is at its path afterwards |
| `RestConfig.ApplyTwice` | restful_api/src/restful_api_server.c:343-354 | applying an item twice equals applying it once, field order included |
| `RestConfig.MergeInOne` | restful_api/src/restful_api_server.c:343-354 | merging one update after another equals one merge of what the second makes of the first, field order included, when no object meets a plain value |
| `RestConfig.ArrayIsOneItem` | restful_api/src/restful_api_server.c:821-836 | the items of an array in turn are one merge of what they make together |
| `RestConfig.ValidateIff` | restful_api/src/restful_api_server.c:281-340 | while the sections it names exist an item is accepted if and only if all its values are valid, whatever the sections hold |
| `RestConfig.AcceptedValues` | restful_api/src/restful_api_server.c:291-336 | the values accepted for each key, as numbers |
| `RestConfig.AcceptedRates` | restful_api/src/restful_api_server.c:302-309 | the data rates, to within a ten-thousandth |
| `RestConfig.QueryIsKnown` | restful_api/src/restful_api_server.c:109-139 | a query is well formed if and only if all that is found in it are plain values at the known keys of the three sections |
| `RestConfig.ValidityKeptIff` | restful_api/src/restful_api_server.c:284-290 | an accepted item keeps the sections valid if and only if what it gives for missing sections is valid |
| `RestConfig.MissingSectionIsNotChecked` | restful_api/src/restful_api_server.c:284-290 | with a section missing an unacceptable rate is stored |
| `RestConfig.PutStoresMergeOrNothing` | restful_api/src/restful_api_server.c:762-847 | a PUT is accepted if and only if it is one item, or one to twelve, of known keys and valid values; then the merge of all items in turn is stored and valid again |
| `RestConfig.PutRefusals` | restful_api/src/restful_api_server.c:762-847 | what a PUT is refused for, in the order of the tests, and that it is stored otherwise |
| `RestConfig.PutLeavesTheRest` | restful_api/src/restful_api_server.c:762-847 | a stored PUT, single or array, leaves every path alone that no item names |
| `RestConfig.RepeatedPut` | restful_api/src/restful_api_server.c:762-847 | a stored PUT, single or array, sent again leaves the tree as it is, field order included, and is accepted again if and only if all its values are valid |
| `RestConfig.AskedIsAnswered` | restful_api/src/restful_api_server.c:159-181 | at every path asked for with the empty string the answer holds what the stored tree holds there |
| `RestConfig.NothingElseIsAnswered` | restful_api/src/restful_api_server.c:159-181 | at any other path it holds at most a non-empty object on the way, an object in query and tree too |
| `RestConfig.GetAnswersExactlyWhatIsAsked` | restful_api/src/restful_api_server.c:721-762 | both for every accepted query |
| `RestConfig.GetAnsweredIff` | restful_api/src/restful_api_server.c:141-157 | a GET is answered if and only if its query is well formed and holds the empty string somewhere |
| `RestConfig.GetAnswersWhatWasPut` | restful_api/src/restful_api_server.c:159-181 | a GET for the fields of a PUT item answers that item, in its own order, if and only if no section of it is empty |
| `RestConfig.ConfigStore.ValidateJson` | restful_api/src/restful_api_server.c:281-340 | the validator's loop and recursion compute the specified verdict |
| `RestConfig.ConfigStore.ApplyUpdate` | restful_api/src/restful_api_server.c:343-354 | the merge's loop and recursion compute the specified tree |
| `RestConfig.ConfigStore.HandlePut` | restful_api/src/restful_api_server.c:762-847 | the stored tree is replaced by the result exactly when the PUT is accepted, otherwise unchanged |
| `RestConfig.ConfigStore.HandleGet` | restful_api/src/restful_api_server.c:721-762 | malformed queries get nothing, others the result characterised by GetAnswersExactlyWhatIsAsked |

## Left out

- Memory orders: every atomic access is sequentially consistent.
- DequeueTickets.StepInv: counters are true integers; FirstTestAgrees and SecondTestAgrees say when the code's wrapped tests agree. Elements stored by several producers are separate instances, as in the queue.
- BlockReuse.StepInv: a claim takes its range of the head in one step, which ExplicitQueue justifies; a bulk enqueue may build several elements before it publishes them, within the blocks entered one at a time; the producer links a block and resets its flags in one step; fewer than 2^58 blocks exist. Element constructors that throw, allocation failure and the size limit of a sub-queue are not modelled.
- BlockIndex.LookupFinds: live blocks cover at most half a turn of the 64-bit index.
- ProducerHash.StepInv: the build without thread-exit tombstones, with no allocation failure; probe masks by powers of two are remainders.
- enqueue_bulk's pre-allocation of several blocks, the implicit producer's own sub-queue, producer and consumer tokens, move, swap and destructors of the queue.
- Semaphore.StepInv: the kernel semaphore is a counter whose wait ends with a permit or with a timeout or error at any moment; wait and tryWait are the many-forms with 1; machine integers do not overflow.
- BlockingQueue.StepInv: the inner queue is its number of elements and may fail a dequeue at any time; a failed enqueue has no effect and is not a step.
- FpsGate.RateBounds: clock values are positive and two seconds below 2^64; concurrent calls of one gate are not modelled. The bounds speak of rates below 60 because they are false from there on.
- PtsTimeline.LeadAfterResets: gate and hub have the same rate; a rate changed in between is not modelled.
- PtsTimeline.PtsIsPeak: no timestamp of the run reaches 2^64, and a run is one start of the hub; IDR requests are not modelled.
- RtspViewers.StepInv: one callback is one step, so the moment between setting a token and counting it is not seen; one factory per stream; a new viewer's reset of the rate gate is an event of PtsTimeline instead; requesting an IDR frame, record flags and logging are left out. A path of exactly two characters is rejected without looking past its end.
- StageQueue.BoundedQueue.Pop: the condition wait is a precondition; a capacity of zero is excluded because the dropping loop would pop an empty queue.
- InferSlots.StepInv: CUDA calls are success flags; the inference itself, the tracker and publishing are left out; a job never carries a foreign slot.
- WarpPool.RunsDryIffTwoClosed: speaks of the queues alone; in the code's order of shutdown, which AcquireNeverFails models, no frame is captured after a close but the one under way.
- WarpPool.AcquireNeverFails: the two stop flags are one, raised before the first close; a test sees their latest value.
- WarpPool.StepInv: a consumer holds at most one frame and replaces it when it takes the next; image data and CUDA events are left out.
- Rendezvous.StepInv: the 100 ms wait may end at any time; the clock never goes back; the serial dispatch and the timing statistics are left out.
- Schedulers.TriggerScheduler.Advance: the ranges are those the command line accepts; beyond 213 days the 64-bit products are not modelled.
- BrightTuner.Tuner.BrightTunning: multipliers are tenths instead of floats; histogram, saturation and hysteresis become the observation; the four per-camera mailboxes are one request; logging is left out.
- TrackTable.IoUIsRatio: reals instead of floats; ages are integers.
- TrackTable.Tracker.UpdateTrackTable: the two locks, the unused buffer of unmatched detections and the render list are left out; hash map order is arbitrary.
- RestConfig.PutStoresMergeOrNothing: parsing and printing of JSON, the file lock, write failures after truncation, authentication, the flag for changed network settings and sharing of sub-objects between request and tree are left out; numbers are exact; the IPv4 test and the highest rate are parameters; the tree is a value that the store replaces.
- The mask and gain double buffers, the blend queue join, OSD slots, client service, firmware container and configuration dump.
