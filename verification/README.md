# Keryx: models and proofs of its queues, its ring buffer and its broker

Keryx distributes events between producers and consumers. Its hard parts are a family of lock-free
queues and buffers and a single-threaded broker loop. This project models them in Dafny and proves
what they promise, for every input, every run and every interleaving.

How the models are built:

* A concurrent protocol is a state machine. A step is one access to shared memory (a load, a store, a
  compare-and-exchange, a fetch-and-add, one byte of a copy) together with the accesses to the thread's
  own variables around it; a schedule is any sequence of steps of any of the threads; memory is
  sequentially consistent. Every main theorem is about the state after an arbitrary schedule.
* Fields marked "never read by the code" record history (what was enqueued where, who owns what). They
  are what the theorems are stated with and do not influence the steps.
* 64-bit and 32-bit counters are explicit: `Wrap`, `CircularLessThan`, `Inc32`, signed differences of
  words, masks. Where the code compares wrapped counters, so does the model.
* A choice that the environment makes is a parameter of a step: which memory an allocation yields, or
  none; whether a timed wait times out; whether a weak compare-and-exchange fails spuriously; what a
  client or a notification handler calls.
* What a call returns is stated over all runs by functions of the schedule (`LastEnqueue`, `LastCall`,
  `LastTake`, ...) that note, from the shared state at each access, what the last call of a thread was, what
  it was refused and what it moved out. Next to that, for each kind of call a number is given that every step
  of the call makes smaller, whatever the others do (wait-freedom), or that its undisturbed steps make smaller
  from every reachable state, wherever the other threads have stopped.
* Code that works on an object alone is a class with methods and loops (`BoundedQueue.Queue`,
  `SpscQueue.ReaderWriterQueue`, `RingBuffer.Buffer`, `RingBuffer.BufferReader`, `Broker.ProducerImpl`, `Broker.OldBroker`) or a method
  with a loop (`Words.CeilToPow2`, `SpscQueue.Construct`, `ExplicitProducer.CopyEntries`), proved against
  the functions that the step models use.

Modules:

| module | what it models |
|---|---|
| `FreeList` | the reference-counted lock-free free list |
| `TicketDequeue` | the optimistic tickets that decide which indices a dequeuer may take |
| `ExplicitProducer` | the circular block list and block index of an explicit producer |
| `ExplicitCalls`, `ImplicitCalls` | what the calls on the two kinds of producer come to, over all runs |
| `ImplicitProducer` | the key/value block index of an implicit producer, and block recycling |
| `EmptyClaims` | bulk dequeues from an implicit producer that ask for nothing |
| `SubQueue` | an implicit producer's whole sub-queue: tickets, block index and free list composed |
| `SpscQueue` | the single-producer single-consumer queue of circular blocks |
| `Semaphore`, `BlockingQueue` | the lightweight semaphore and the blocking queue built on it |
| `BoundedQueue` | the bounded multi-producer multi-consumer queue |
| `RingBuffer` | the single-writer broadcast ring buffer and its readers |
| `Broker` | the broker, its action queue and the producers' routing caches |
| `BrokerCalls` | what the broker delivers, in terms of the calls of its clients |
| `Words`, `Positions`, `Arith`, `Sets` | machine words, element positions, and helper facts |

`SubQueue` is composed of the step models of `TicketDequeue`, `ImplicitProducer` and `FreeList`: its
dequeuers claim what their tickets got them and give emptied blocks back by `add`, and its enqueuer takes
blocks from the initial pool, by `try_get`, or from new memory. `BlockingQueue` is composed of the step
models of `SpscQueue` and `Semaphore`. `ExplicitProducer` is not composed with the tickets: of a claim it
assumes only that it lies between head and tail and that something has been enqueued, and that is what the
tickets guarantee (`TicketDequeue.AlwaysSafe`).

Places where the code does something other than its comments or assertions suggest, kept as the code
has it:

* A ring-buffer reader that has missed nothing gets LOSS, not NO_DATA, once the buffer has wrapped
  (`RingBuffer.Classified`, `RingBuffer.ReadClassified`). Every chunk has a non-zero size, so a message
  of more than 56 bytes arrives as several OK reads. The assertion in `Slot::update` would refuse a full
  56-byte chunk (`RingBuffer.DebugAccepts`); the release build, which has no assertions, is modelled.
* A bulk dequeue that asks for nothing is accepted. On an implicit producer it can give a block back to
  the pool a second time (`EmptyClaims.GivesBackTwice`); the block index is safe exactly if every call
  asks for at least one element (`EmptyClaims.SafeExactly`). On an explicit producer such a call is
  harmless and part of all runs (`ExplicitProducer.NoneKeeps`).
* `LightweightSemaphore::signal` allows a count of 0, which can grant a wait without a permit
  (`Semaphore.SignalNothing`); grants stay within permits exactly if every signal is for at least one
  (`Semaphore.SafeExactly`), and step by step exactly if no signal of 0 is made while a waiter is in debt
  (`Semaphore.DoKeeps`).
* The ticket test compares wrapped counters. Head stays behind tail in all runs that ask for at most so
  many elements in all, exactly if that is at most 2^63 + 2 (`TicketDequeue.SafeExactly`). It also does in
  runs without such a bound in which the calls that overlap one dequeue ask for at most 2^63 elements in all
  (`TicketDequeue.ModerateSafe`);
  `TicketDequeue.UnpacedOverclaims` is a run with five dequeuers that breaks it. A single ticket is
  granted no more than its own estimate of what is there exactly if it lies at most 2^63 beyond it
  (`TicketDequeue.GrantSound`).

## Model

| member | source | states |
|---|---|---|
| `FreeList.AlwaysSafe` | externals/include/moodycamel/concurrentqueue.h:1372-1451 | in every interleaving of any number of `add` and `try_get` calls: the list is a chain of distinct nodes, no linked node is held by a client or being returned, no node is returned to two getters or linked by two threads, the should-be-on-list flag is clear after a successful head exchange, and a head exchange that succeeds installs the second node of the list |
| `FreeList.RunInv` | externals/include/moodycamel/concurrentqueue.h:1372-1451 | the inductive invariant (reference counts equal list reference plus referring threads, roles of nodes, chain of next links) holds after every schedule |
| `FreeList.TakeHeadChain` | externals/include/moodycamel/concurrentqueue.h:1400-1406 | no ABA: unlinking the head leaves exactly the rest of the chain |
| `FreeList.NothingLost` | externals/include/moodycamel/concurrentqueue.h:1372-1451 | conservation: with no call in progress every node is on the list with count 1 or held by a client with count 0 |
| `FreeList.GetAlone` | externals/include/moodycamel/concurrentqueue.h:1386-1422 | from every reachable state, wherever other threads have stopped in their calls, an undisturbed `try_get` on a non-empty list hands out the first node and leaves the rest |
| `FreeList.AddAlone` | externals/include/moodycamel/concurrentqueue.h:1372-1384 | and an undisturbed `add` of a node to which no getter refers puts it at the front of the list |
| `FreeList.NullMeansEmpty` | externals/include/moodycamel/concurrentqueue.h:1386-1422 | in every run, a `try_get` that returns null saw the list empty at some moment of the call; a lost race alone does not make it return null |
| `FreeList.CallEnds` | externals/include/moodycamel/concurrentqueue.h:1372-1451 | from every reachable state every call ends after at most 18 of its own undisturbed steps |
| `TicketDequeue.AlwaysSafe` | externals/include/moodycamel/concurrentqueue.h:1883-1979 | in every run of one enqueuer and any number of single and bulk dequeuers that asks for at most 2^63 + 2 elements in all: head never passes tail, what is about to be claimed lies below the tail, claims do not overlap, overcommit is at most the ticket, and optimistic count = head + overcommit + tickets in flight |
| `TicketDequeue.SafeExactly` | externals/include/moodycamel/concurrentqueue.h:1883-1979 | head stays behind tail in all runs that ask for at most so many elements, if and only if that is at most 2^63 + 2 |
| `TicketDequeue.PacedSafe` | externals/include/moodycamel/concurrentqueue.h:2167-2258 | the same safety without a bound on the whole run, when no ticket is decided more than 2^63 beyond the tail plus the overcommit its holder saw |
| `TicketDequeue.ModeratePaced` | externals/include/moodycamel/concurrentqueue.h:2167-2258 | the pacing condition, from the calls alone: a run is paced, however long, if the calls of other dequeuers that overlap one dequeue never ask for more than 2^63 elements in all |
| `TicketDequeue.ModerateSafe` | externals/include/moodycamel/concurrentqueue.h:1883-1979 | the safety of such runs, with counters that wrap around any number of times |
| `TicketDequeue.CountBelowAsked` | externals/include/moodycamel/concurrentqueue.h:2170-2179 | the optimistic count never exceeds what the calls asked for |
| `TicketDequeue.ClaimsSomething` | externals/include/moodycamel/concurrentqueue.h:2173-2183 | if every call asks for at least one element, every claim is for at least one |
| `TicketDequeue.RunInv` | externals/include/moodycamel/concurrentqueue.h:2167-2258 | the inductive invariant after every paced run: every unit of the optimistic count is open, granted or refused, and a granted unit is backed by an enqueued element |
| `TicketDequeue.HeadBelowTail` | externals/include/moodycamel/concurrentqueue.h:1916-1929 | head plus all grants not yet claimed is at most the tail |
| `TicketDequeue.GrantSound` | externals/include/moodycamel/concurrentqueue.h:1915-1916 | the second test grants no more than tail - (ticket - overcommit seen) if and only if the ticket is at most 2^63 beyond tail + overcommit seen |
| `TicketDequeue.SingleIsBulkOfOne` | externals/include/moodycamel/concurrentqueue.h:2170-2185 | single and bulk dequeue decide alike for one element |
| `TicketDequeue.DequeueAlone` | externals/include/moodycamel/concurrentqueue.h:2167-2258 | with no dequeue in flight and fewer than 2^63 elements, a dequeue takes min(max, tail - head) elements from head on, and changes nothing if there are none |
| `TicketDequeue.NonEmptySucceeds` | externals/include/moodycamel/concurrentqueue.h:1883-1979 | after every paced run, with no dequeue in flight and less than 2^64 elements, a dequeue that asks for something gets something if and only if there are elements, and fewer than 2^63 |
| `TicketDequeue.TestedRoom` | externals/include/moodycamel/concurrentqueue.h:2413-2417 | in every paced run, if every enqueue that starts a block makes the room test, as in the implicit producer, there are always fewer than 2^63 elements |
| `TicketDequeue.DequeueGets` | externals/include/moodycamel/concurrentqueue.h:2167-2190 | in every paced run, under any interleaving, a call gets exactly the least of what it asked for, the elements it saw when it asked, and those that the tail then left beyond its ticket; nothing exactly if one of the last two was none |
| `TicketDequeue.WaitFree` | externals/include/moodycamel/concurrentqueue.h:2167-2258 | every call ends after at most seven of its own steps, whatever the others do |
| `TicketDequeue.EnqueueRefused` | externals/include/moodycamel/concurrentqueue.h:2413-2417 | an enqueue is refused exactly if it starts a block, makes the room test, and the elements not dequeued with the new block would come to 2^63 or more |
| `TicketDequeue.UnpacedOverclaims` | externals/include/moodycamel/concurrentqueue.h:2170-2194 | a run with blocks of two elements and five bulk dequeues in which head passes tail |
| `TicketDequeue.LeastOverclaim` | externals/include/moodycamel/concurrentqueue.h:1883-1929 | a run that asks for 2^63 + 3 elements, one at a time, in which head passes tail |
| `SubQueue.AlwaysSafe` | externals/include/moodycamel/concurrentqueue.h:2407-2540 | in every interleaving of the accesses of one enqueuer and any number of dequeuers in tickets, block index and free list, when every call asks for something and all for at most 2^63 + 2 elements: what the three modules promise holds at once, a dequeuer looks up exactly the indices its ticket got it, and no block in use is on the free list |
| `SubQueue.ModerateSafe` | externals/include/moodycamel/concurrentqueue.h:2407-2540 | the same in runs of any length in which the calls that overlap one dequeue ask for at most 2^63 elements in all |
| `SubQueue.NoBlockLost` | externals/include/moodycamel/concurrentqueue.h:2976-3020 | with no dequeue in flight, exactly the blocks whose elements have all been dequeued were given back, and the free list consists of exactly the blocks not in use |
| `SubQueue.ObtainAnswers` | externals/include/moodycamel/concurrentqueue.h:3000-3017 | an enqueuer that needs a block gets the one that `try_get` returned, or a new one before the list was asked or after it returned null, and gives up only when neither is there |
| `SubQueue.Projects` | externals/include/moodycamel/concurrentqueue.h:2492-2540 | a run of the composition is a run of the ticket protocol that asks for as much |
| `SubQueue.PartsProject` | externals/include/moodycamel/concurrentqueue.h:2407-2540 | and a run of the block index and of the free list, access by access |
| `SubQueue.CallsAnswer` | externals/include/moodycamel/concurrentqueue.h:2407-2540 | in every run of the composition whose calls ask for something, enqueues succeed and dequeuers move out their claims exactly as `ImplicitCalls.EnqueueAnswers` and `ImplicitCalls.DequeueAnswers` state |
| `SubQueue.RunInv` | externals/include/moodycamel/concurrentqueue.h:2407-2540 | the invariant of the composition: counters are positions, claims are tickets granted, and the producer's pool is what the free list has and no client holds |
| `ExplicitProducer.LookupsServed` | externals/include/moodycamel/concurrentqueue.h:1780-1979 | in every run of enqueues (block reuse, insertion, index growth) and single and bulk dequeues, also ones that ask for nothing, through stale fronts and superseded indices: a lookup finds the entry with the index rounded down and its block, the value moved out is the one enqueued under that index, no element is marked dequeued before its owner does so, no two dequeuers own one index, head is at most tail |
| `ExplicitProducer.LookupsByIndex` | externals/include/moodycamel/concurrentqueue.h:1935-1950 | the same in plain indices: what is moved out under index i is element number i of all elements enqueued, and the base found is i rounded down |
| `ExplicitProducer.NoneKeeps` | externals/include/moodycamel/concurrentqueue.h:2192-2246 | a bulk dequeue that asks for nothing reads within an index that has an entry and changes nothing, even when the block of its index does not exist |
| `ExplicitProducer.RunInv` | externals/include/moodycamel/concurrentqueue.h:1780-1880 | the inductive invariant tying the block ring, every published index, the emptiness flags and the dequeuers' claims together holds after every schedule |
| `ExplicitProducer.LookupSlot` | externals/include/moodycamel/concurrentqueue.h:1935-1944 | the slot computed from any front that was current when loaded is the slot of the block |
| `ExplicitProducer.ScanKeepsPinned` | externals/include/moodycamel/concurrentqueue.h:1785-1791 | a dequeuer at work in the oldest block keeps it from being reused |
| `ExplicitProducer.GrowKeeps` | externals/include/moodycamel/concurrentqueue.h:2276-2313 | replacing the index by one of twice the size keeps the invariant, for old and new index |
| `ExplicitProducer.CopyEntries` | externals/include/moodycamel/concurrentqueue.h:2290-2298 | the copy loop yields the used entries oldest first and stops exactly after them |
| `ExplicitProducer.FlagKeeps` | externals/include/moodycamel/concurrentqueue.h:1510-1562 | marking an element dequeued keeps the invariant |
| `ExplicitCalls.EnqueueAnswers` | externals/include/moodycamel/concurrentqueue.h:1780-1880 | in every run, through reuse, insertion and growth: an enqueue that has returned put its value under the index that was the tail and moved the tail on by one, exactly unless it was refused room at its load of the head (2^63 or more with another block), memory, or an index of twice the size; one that began with the block ahead empty takes that block and is refused nothing; at most one block is allocated |
| `ExplicitCalls.EnqueueAlone` | externals/include/moodycamel/concurrentqueue.h:1780-1880 | from every reachable state between calls, with room or in the middle of a block, and given memory, an undisturbed enqueue succeeds |
| `ExplicitCalls.WaitFree` | externals/include/moodycamel/concurrentqueue.h:1780-1880 | every step of the enqueuer brings its call nearer to its end, whatever the dequeuers do |
| `ExplicitCalls.ClaimTakes` | externals/include/moodycamel/concurrentqueue.h:1930-1930 | a claim moves the head on and hands the dequeuer exactly the indices in between |
| `ExplicitCalls.DequeueAnswers` | externals/include/moodycamel/concurrentqueue.h:1929-1972 | in every run, a dequeuer has moved out the elements of its claim from the first on, each once and in order, up to where it is, and all of them once it has finished |
| `ExplicitCalls.DequeueWaitFree` | externals/include/moodycamel/concurrentqueue.h:2192-2246 | every step of a dequeuer brings it nearer to the end of its claim, whatever the others do |
| `ExplicitCalls.DequeuedIsReusable` | externals/include/moodycamel/concurrentqueue.h:1785-1791 | a block becomes free for reuse: whenever no dequeuer is at work and the head has left the oldest block, an enqueue that needs a block finds that one empty |
| `ImplicitProducer.LookupsServed` | externals/include/moodycamel/concurrentqueue.h:2407-2540 | in every run of enqueues (recycled blocks, reservations abandoned for lack of memory, index growth, wrap-around) and of single and bulk dequeues that each ask for at least one element: a lookup finds an entry whose key is the index rounded down and whose value is its block, the value moved out is the one enqueued there, the counter of a block does not run over, a block enters the pool only when all its elements were dequeued and it is not there yet, by one dequeuer, no block is named by two entries in use or by one and the pool, and after growth the next entry is unused |
| `EmptyClaims.SafeExactly` | externals/include/moodycamel/concurrentqueue.h:2693-2793 | all of that holds in all runs whose calls ask for at least so many elements, if and only if that is at least one |
| `EmptyClaims.GivesBackTwice` | externals/include/moodycamel/concurrentqueue.h:2770-2781 | for every block size and index size, a run in which a bulk dequeue that asked for nothing is about to give back a block that is in the pool |
| `ImplicitProducer.NoBlockLost` | externals/include/moodycamel/concurrentqueue.h:2471-2540 | if every call asks for at least one element: with no dequeue in flight exactly the blocks whose elements were all dequeued have been given back, and a block is in the pool exactly if it is not in use |
| `ImplicitProducer.RunInv` | externals/include/moodycamel/concurrentqueue.h:2407-2540 | if every call asks for at least one element, the inductive invariant (keys, values, life of each block, claims) holds after every schedule |
| `ImplicitProducer.LookupEntry` | externals/include/moodycamel/concurrentqueue.h:2857-2873 | the assertion of the lookup: key equals the block base and the value is not null |
| `ImplicitProducer.TailKeyed` | externals/include/moodycamel/concurrentqueue.h:2862-2865 | the assertion that the tail entry of the index a dequeuer loaded is keyed |
| `ImplicitProducer.ProbeKeeps` | externals/include/moodycamel/concurrentqueue.h:2815-2830 | deciding whether the next entry is free keeps the invariant: an entry found free is unused or belongs to a block that gave it up |
| `ImplicitProducer.GrowKeeps` | externals/include/moodycamel/concurrentqueue.h:2875-2917 | the doubled index keeps every lookup through the old and the new header |
| `ImplicitProducer.RewindKeeps` | externals/include/moodycamel/concurrentqueue.h:2844-2848 | rewinding the tail slot keeps every lookup |
| `ImplicitProducer.StoreKeyAgain` | externals/include/moodycamel/concurrentqueue.h:2824-2825 | after an abandoned reservation the same entry gets the same key |
| `ImplicitProducer.CountKeeps` | externals/include/moodycamel/concurrentqueue.h:1510-1562 | counting elements as dequeued keeps the invariant, in which a block with nothing left to count is retired by at most one dequeuer |
| `ImplicitProducer.FreeKeepsMem` | externals/include/moodycamel/concurrentqueue.h:2519-2528 | the block being given back is not in the pool, and the invariant holds after it is |
| `ImplicitCalls.EnqueueAnswers` | externals/include/moodycamel/concurrentqueue.h:2407-2467 | in every run of calls that ask for something: an enqueue that has returned put its value under the index that was the tail and moved the tail on by one, exactly unless it was refused room at its load of the head, memory, or an index of twice the size; there are always fewer than 2^63 elements |
| `ImplicitCalls.EnqueueAlone` | externals/include/moodycamel/concurrentqueue.h:2407-2467 | from every reachable state between calls, with room or in the middle of a block, and given memory, an undisturbed enqueue succeeds, also if the index must grow |
| `ImplicitCalls.WaitFree` | externals/include/moodycamel/concurrentqueue.h:2407-2467 | every step of the enqueuer brings its call nearer to its end, whatever the dequeuers do |
| `ImplicitCalls.DequeueAnswers` | externals/include/moodycamel/concurrentqueue.h:2471-2540 | in every run, a dequeuer has moved out the elements of its claim from the first on, each once and in order, up to where it is, and all of them once it has finished |
| `ImplicitCalls.DequeueWaitFree` | externals/include/moodycamel/concurrentqueue.h:2693-2785 | every step of a dequeuer brings it nearer to the end of its claim, whatever the others do |
| `Words.CircularOrderExact` | externals/include/moodycamel/concurrentqueue.h:406-419 | on counters less than a turn apart, the comparison of words is the true order if and only if the second is at most 2^63 behind and less than 2^63 ahead |
| `Words.IncDecAreWraps` | externals/include/moodycamel/concurrentqueue.h:2303-2303 | increment and decrement of a word are those of 64-bit arithmetic |
| `Positions.PosIsIndex` | externals/include/moodycamel/concurrentqueue.h:1939-1947 | splitting an index into block number and offset keeps successor and order, and gives the quotient and the remainder by the block size |
| `Words.CeilToPow2` | externals/include/moodycamel/concurrentqueue.h:427-441 | the smear loop returns the least power of two at least x for 1 <= x <= 2^63, and 0 for every other word |
| `Words.SlotIsSignedDistance` | externals/include/moodycamel/concurrentqueue.h:1938-1944 | although the division is unsigned, the masked slot is front plus the true, possibly negative, block distance modulo the index size, for all power-of-two sizes with product at most 2^64, across wrap-around |
| `Words.BaseIsNotOne` | externals/include/moodycamel/concurrentqueue.h:2795-2797 | no block base is the mark of an unused entry |
| `Words.MaskIsMod` | externals/include/moodycamel/concurrentqueue.h:2820-2820 | masking with a power of two minus one is the remainder |
| `SpscQueue.AlwaysRefines` | externals/include/moodycamel/readerwriterqueue.h:206-528 | in every interleaving of one producer and one consumer: dequeued plus the concatenation of the blocks from front to tail block is what was enqueued, all other blocks are empty but for a pending one, results of dequeue, pop and peek are the oldest element, false means that the queue was empty when the call began, a refused enqueue found at least maxSize elements when it began, the assertions on the next and the reused block hold, and the tests on shadow indices decide like tests on the real ones |
| `SpscQueue.EnqueueAnswers` | externals/include/moodycamel/readerwriterqueue.h:434-528 | in every interleaving, an enqueue with permission to allocate fails exactly if its allocation yielded nothing, one without leaves the number of blocks unchanged, a block is allocated only when the queue held maxSize elements at the start of the call, and the element is appended exactly if the call says so |
| `SpscQueue.Construct` | externals/include/moodycamel/readerwriterqueue.h:80-133 | the constructor builds a closed ring of empty blocks, their number and size as the formula says, enough for the capacity guarantee |
| `SpscQueue.BlockCount` | externals/include/moodycamel/readerwriterqueue.h:98-104 | the initial block count leaves maxSize usable slots beside one spare block |
| `SpscQueue.BlockSizes` | externals/include/moodycamel/readerwriterqueue.h:490-500 | in every run, every block ever allocated has a power of two of slots, at most twice the size limit |
| `SpscQueue.NextIsMasked` | externals/include/moodycamel/readerwriterqueue.h:289-289 | in a block of such a size the circular successor of an index is the masked one |
| `SpscQueue.RunInv` | externals/include/moodycamel/readerwriterqueue.h:206-528 | the inductive invariant holds after every schedule |
| `SpscQueue.RingFull` | externals/include/moodycamel/readerwriterqueue.h:454-522 | a full tail block right before the front block means that at least maxSize elements are held |
| `SpscQueue.NextNotEmpty` | externals/include/moodycamel/readerwriterqueue.h:258-273 | the block after an empty front block has an element, the next one to be dequeued |
| `SpscQueue.ReusedIsEmpty` | externals/include/moodycamel/readerwriterqueue.h:470-480 | the block after the tail block, not being the front block, is empty |
| `SpscQueue.InvShadows` | externals/include/moodycamel/readerwriterqueue.h:229-251 | for every block, the two-stage tests decide "not empty" and "not full" exactly |
| `SpscQueue.AbsIs` | externals/include/moodycamel/readerwriterqueue.h:206-297 | the blocks from front to tail concatenate to what was enqueued and not dequeued |
| `SpscQueue.ReaderWriterQueue.constructor` | externals/include/moodycamel/readerwriterqueue.h:80-133 | a new queue is empty and has the capacity asked for |
| `SpscQueue.ReaderWriterQueue.Enqueue` | externals/include/moodycamel/readerwriterqueue.h:434-528 | a call that is not disturbed completes; it succeeds exactly if there is room (a slot in the tail block or a block ahead of the front block), or it may allocate and memory is there; it allocates a block exactly in the second case; it appends the element or leaves the queue as it was; with fewer than maxSize elements there is room |
| `SpscQueue.ReaderWriterQueue.TryDequeue` | externals/include/moodycamel/readerwriterqueue.h:206-297 | it returns and removes the first element, and fails exactly if the queue is empty |
| `SpscQueue.ReaderWriterQueue.Peek` | externals/include/moodycamel/readerwriterqueue.h:305-341 | it returns the first element, if any, and changes nothing |
| `SpscQueue.ReaderWriterQueue.Call` | externals/include/moodycamel/readerwriterqueue.h:206-410 | dequeue, pop and peek complete when not disturbed, with the outcome that the contents at the start decide |
| `Semaphore.Conserved` | externals/include/moodycamel/atomicops.h:570-649 | in every interleaving of one signaller and one waiter with no signal of 0 while the waiter is in debt, through time-outs and repairs: the count stays between -1 and all permits given, grants never exceed permits, a waiter that stays blocked has no permit to take, and between waits the count is the permits left |
| `Semaphore.SafeExactly` | externals/include/moodycamel/atomicops.h:640-649 | grants never exceed permits in all runs whose signals are for at least so many permits, if and only if that is at least one |
| `Semaphore.DoKeeps` | externals/include/moodycamel/atomicops.h:570-649 | an action keeps the protocol invariant if and only if it is not a signal of 0 while the waiter is in debt |
| `Semaphore.PermitsBalance` | externals/include/moodycamel/atomicops.h:570-649 | permits = initial + signalled - granted, counted over the run |
| `Semaphore.RefusalExact` | externals/include/moodycamel/atomicops.h:601-612 | a wait returns false only when there is no permit |
| `Semaphore.OnlyTimeoutRefuses` | externals/include/moodycamel/atomicops.h:570-638 | in every run, only a `tryWait` and a timed wait that has timed out return false; a wait without a time limit returns nothing but true; a `tryWait` never blocks, and a timed wait never without its limit |
| `Semaphore.WaitAlone` | externals/include/moodycamel/atomicops.h:570-638 | from every reachable state with no post under way, an undisturbed call takes a permit if there is one; if not, it returns false if it is a `tryWait` or is giving up, and blocks otherwise |
| `Semaphore.SignalAlone` | externals/include/moodycamel/atomicops.h:640-649 | an undisturbed signal adds its permits and leaves no post under way, and a waiter that was blocked without a permit can go on |
| `Semaphore.SignalNothing` | externals/include/moodycamel/atomicops.h:640-649 | a run in which a signal of 0 grants a wait without a permit |
| `BlockingQueue.GrantedFindsElement` | externals/include/moodycamel/readerwriterqueue.h:658-791 | from every constructed queue, in every interleaving of the accesses of producer and consumer inside the queue and inside the semaphore: a granted wait is followed by an inner dequeue that succeeds, elements come out in order, a consumer blocked while nothing is being signalled has nothing to dequeue, and between calls the semaphore counts the elements |
| `BlockingQueue.RunInv` | externals/include/moodycamel/readerwriterqueue.h:658-791 | the invariant of the composition: elements held = permits + elements enqueued and not yet signalled + elements granted and not yet dequeued |
| `BlockingQueue.NothingSignalled` | externals/include/moodycamel/readerwriterqueue.h:709-751 | a dequeue that returns nothing saw no element signalled |
| `BlockingQueue.WaitDequeues` | externals/include/moodycamel/readerwriterqueue.h:709-751 | in every run, a dequeue that waits without a time limit does not end without an element, and one with a limit only after a time-out; `try_dequeue` does not block |
| `BlockingQueue.SignalsIfEnqueued` | externals/include/moodycamel/readerwriterqueue.h:658-706 | the producer signals exactly if its enqueue appended the element |
| `BlockingQueue.Projects` | externals/include/moodycamel/readerwriterqueue.h:658-791 | a run of the composition is a run of the inner queue and of the semaphore, access by access, so their calls answer as there |
| `BoundedQueue.AlwaysSafe` | externals/include/mpmc_bounded_queue.h:75-126 | for any number of threads: dequeue position <= enqueue position <= dequeue position + size, no two threads touch one cell's data, what is dequeued at a position is what was enqueued there, and no position is dequeued twice |
| `BoundedQueue.RunInv` | externals/include/mpmc_bounded_queue.h:75-126 | each cell's sequence number encodes the position it serves and who owns it, after every schedule |
| `BoundedQueue.EnqueueRefusal` | externals/include/mpmc_bounded_queue.h:82-95 | an enqueue is refused if and only if at its load its position is still the next one and the cell still serves the lap before |
| `BoundedQueue.DequeueRefusal` | externals/include/mpmc_bounded_queue.h:107-122 | a dequeue is refused if and only if at its load its position is still the next one and is not published |
| `BoundedQueue.RefusedOnlySo` | externals/include/mpmc_bounded_queue.h:75-126 | whatever step a thread takes from whatever point, it comes to be refused only so: an enqueue when its position is still the next one and the cell still serves the lap before, a dequeue when its position is still the next one and is not published |
| `BoundedQueue.CallAnswers` | externals/include/mpmc_bounded_queue.h:75-126 | in every run, a call that has returned appended its own element once, if it was an enqueue that was not refused, and nothing otherwise, and its answer is of its kind |
| `BoundedQueue.CallEnds` | externals/include/mpmc_bounded_queue.h:75-126 | from every reachable state, wherever other threads have stopped, a call ends after a few of its own steps, with the refusals exact |
| `BoundedQueue.EnqueueWhenQuiet` | externals/include/mpmc_bounded_queue.h:75-101 | with no other call in flight an enqueue is refused exactly if the queue is full, and otherwise appends |
| `BoundedQueue.DequeueWhenQuiet` | externals/include/mpmc_bounded_queue.h:103-126 | with no other call in flight a dequeue is refused exactly if the queue is empty, and otherwise returns the oldest element |
| `BoundedQueue.DifferenceExact` | externals/include/mpmc_bounded_queue.h:83-83 | the signed difference of words is the true difference below 2^63 |
| `BoundedQueue.CellIsMasked` | externals/include/mpmc_bounded_queue.h:81-81 | the masked cell number is the position modulo the size |
| `BoundedQueue.Queue.constructor` | externals/include/mpmc_bounded_queue.h:54-67 | the initial sequence numbers make an empty queue |
| `BoundedQueue.Queue.TakeEnqueue` | externals/include/mpmc_bounded_queue.h:78-97 | in the object, which one thread uses at a time, the exchange succeeds in the first round of the loop and takes the next position exactly if there is room; the retries are in the step model |
| `BoundedQueue.Queue.Enqueue` | externals/include/mpmc_bounded_queue.h:75-101 | the object's contents gain the element at the end, exactly if there is room |
| `BoundedQueue.Queue.TakeDequeue` | externals/include/mpmc_bounded_queue.h:106-122 | in the object, which one thread uses at a time, the exchange succeeds in the first round of the loop and takes the next position exactly if there is an element; the retries are in the step model |
| `BoundedQueue.Queue.Dequeue` | externals/include/mpmc_bounded_queue.h:103-126 | the object's contents lose their first element, which is returned, exactly if there is one |
| `RingBuffer.NoTornReads` | src/lib/ring_buffer/ring_buffer.h:116-162 | in every interleaving, byte by byte, of the writer and any number of readers over fewer than 2^32 chunks: the OK results of a reader in order are a prefix of the chunks written, whole, and their bytes a prefix of the messages accepted |
| `RingBuffer.RunInv` | src/lib/ring_buffer/ring_buffer.h:30-82 | the inductive invariant of slots, writer and readers holds after every schedule |
| `RingBuffer.ReadClassified` | src/lib/ring_buffer/ring_buffer.h:116-162 | over every history, a read with no write in progress returns OK with chunk e iff W - n < e <= W, NO_DATA iff e = W + 1 and W < n, and LOSS otherwise |
| `RingBuffer.ReadAnswers` | src/lib/ring_buffer/ring_buffer.h:116-153 | in every interleaving, at every access: a read reports NO_DATA exactly if its slot is being overwritten or not yet used, goes on to copy exactly if its chunk is there, and after copying returns OK with the chunk exactly if it is still there, and LOSS otherwise |
| `RingBuffer.ReadWaitFree` | src/lib/ring_buffer/ring_buffer.h:116-153 | a read ends after a bounded number of its own steps, whatever the writer does |
| `RingBuffer.Classified` | src/lib/ring_buffer/ring_buffer.h:122-133 | what the header of the slot says in each of these cases |
| `RingBuffer.PublishKeeps` | src/lib/ring_buffer/ring_buffer.h:30-36 | after the header store the slots hold the latest chunks, the new one included |
| `RingBuffer.WriteAnswers` | src/lib/ring_buffer/ring_buffer.h:57-74 | in every interleaving, a write that has returned refused its message exactly if it was too big or empty, and otherwise published exactly its chunks |
| `RingBuffer.ChunksJoin` | src/lib/ring_buffer/ring_buffer.h:63-71 | the chunks of a message concatenate to it, are 1 to 56 bytes long, and all but the last are full |
| `RingBuffer.DebugAccepts` | src/lib/ring_buffer/ring_buffer.h:31-31 | the debug assertion holds for all chunks of a message if and only if it has fewer than 56 bytes |
| `RingBuffer.Buffer.Write` | src/lib/ring_buffer/ring_buffer.h:57-74 | a message is refused exactly if too big or empty; otherwise its chunks are appended to those written and the slots hold the latest |
| `RingBuffer.Buffer.Update` | src/lib/ring_buffer/ring_buffer.h:30-36 | one chunk is appended |
| `RingBuffer.BufferReader.ReadNext` | src/lib/ring_buffer/ring_buffer.h:116-153 | the read returns what the classification says and advances exactly on OK |
| `Broker.DeliveryTrace` | src/lib/broker/OldBroker.cpp:50-80 | in every run, with calls made at any moment also by handlers: what a consumer sees of a stream is START, events, at most one STOP; it is a prefix of what the actions taken amount to and, between actions, all of it for a consumer not destroyed |
| `BrokerCalls.TakesTheCalls` | src/lib/broker/OldBroker.cpp:93-136 | in every run, the actions taken and pending are exactly those that the client calls ask for, in their order, by a function of the calls alone that numbers handles and skips calls on closed ones; topics, filters and open handles are those of the calls |
| `BrokerCalls.Delivers` | src/lib/broker/OldBroker.cpp:93-136 | what a consumer has seen is a prefix of what the calls amount to, for a filter of the topic's type that accepts its name, and nothing otherwise; all of it when the broker has nothing left to do, for a consumer not destroyed |
| `BrokerCalls.EventReaches` | src/lib/broker/ProducerImpl.cpp:66-71 | an event published while producer and consumer are open reaches the consumer right after what was due before it, whatever calls follow that do not destroy the consumer |
| `Broker.NothingAfterDestroy` | src/lib/broker/OldBroker.cpp:123-126 | once destroy_consumer is called nothing more reaches the consumer, whatever is pending |
| `Broker.RoutingCache` | src/lib/broker/ProducerImpl.cpp:41-64 | after every action each live producer's list is the broker's consumers filtered by topic match, in order, without duplicates |
| `Broker.ExpectedFlows` | src/lib/broker/ProducerImpl.cpp:46-71 | what the actions amount to for a consumer and a stream has the shape START, events, at most one STOP, and is started and not stopped while both are live |
| `Broker.ActionsInOrder` | src/lib/broker/OldBroker.cpp:128-136 | what has been taken or is pending only ever grows at the end (what is added there is stated by `BrokerCalls.TakesTheCalls`) |
| `Broker.NextActionFinds` | src/lib/broker/OldBroker.cpp:56-80 | publishing and destroying always find the producer or consumer they name |
| `Broker.RoutedErase` | src/lib/broker/ProducerImpl.cpp:59-64 | removing a consumer from a cached list is routing without it |
| `Broker.RunInv` | src/lib/broker/OldBroker.cpp:50-136 | the inductive invariant holds after every run |
| `Broker.ProducerImpl.MaybeRemove` | src/lib/broker/ProducerImpl.cpp:59-64 | the loop removes the first occurrence, if any |
| `Broker.ProducerImpl.Init` | src/lib/broker/ProducerImpl.cpp:41-57 | the new producer's list, and whom it notifies, is the broker's consumers filtered by match |
| `Broker.OldBroker.DoWork` | src/lib/broker/OldBroker.cpp:128-134 | the loop terminates for every finite script of handler calls with the queue empty, having made only steps of the model and exactly the calls of the handlers, in the order of the notifications handled, and everything due delivered |

## Left out

- FreeList.AlwaysSafe: requires fewer than 2^31 - 2 threads, because the count shares a 32-bit word with the flag; a client adds only a node that it holds.
- TicketDequeue.AlwaysSafe: bounds the elements asked for over the whole run, because the property is false beyond that bound (`TicketDequeue.SafeExactly`).
- TicketDequeue.RunInv: assumes that no ticket is decided more than 2^63 beyond the tail plus the overcommit its holder saw; the bound of `TicketDequeue.AlwaysSafe` implies it (`TicketDequeue.AskedPaced`), and so does the bound on overlapping calls (`TicketDequeue.ModeratePaced`).
- TicketDequeue.PacedSafe: for paced runs, as `TicketDequeue.RunInv`; `TicketDequeue.ModerateSafe` and `TicketDequeue.AlwaysSafe` have conditions on the calls.
- TicketDequeue.NonEmptySucceeds: for paced runs, as `TicketDequeue.RunInv`.
- TicketDequeue.DequeueGets: for paced runs, as `TicketDequeue.RunInv`, and calls whose two differences stay within a signed word, as the code assumes.
- TicketDequeue.TestedRoom: for paced runs, as `TicketDequeue.RunInv`.
- TicketDequeue.ModerateSafe: that the calls overlapping one dequeue ask for at most 2^63 elements is sufficient; whether a slightly larger bound would do is not decided.
- SubQueue.AlwaysSafe: calls ask for at least one element and for at most 2^63 + 2 in all, because the parts need it (`EmptyClaims.SafeExactly`, `TicketDequeue.SafeExactly`); fewer than 2^31 - 3 dequeuers; one producer uses the free list, which by itself is proved for any number of users (`FreeList.AlwaysSafe`).
- SubQueue.ModerateSafe: calls ask for at least one element, like `SubQueue.AlwaysSafe`.
- SubQueue.NoBlockLost: for paced tickets, as `TicketDequeue.RunInv`, and calls that ask for at least one element.
- SubQueue.RunInv: like `SubQueue.NoBlockLost`.
- ExplicitProducer.LookupsServed: models the emptiness flags (blocks of up to 32 elements), not the counter used for larger blocks; an index is not grown beyond 2^64 / block size slots.
- ImplicitProducer.LookupsServed: every call asks for at least one element, because the property is false otherwise (`EmptyClaims.SafeExactly`); an index is not grown beyond 2^64 / block size slots; resetting a block's counter is part of the step that takes the block while it is private.
- ImplicitProducer.NoBlockLost: every call asks for at least one element, like `ImplicitProducer.LookupsServed`.
- ImplicitProducer.RunInv: every call asks for at least one element, like `ImplicitProducer.LookupsServed`.
- ImplicitCalls.EnqueueAnswers: every call asks for at least one element, like `ImplicitProducer.LookupsServed`.
- ImplicitCalls.EnqueueAlone: likewise.
- ImplicitCalls.DequeueAnswers: likewise.
- EmptyClaims.SafeExactly: block sizes below 2^63 and at least two dequeuers; with larger blocks the room test refuses every enqueue.
- FreeList.CallEnds: for a call that is not disturbed; the list is lock-free, so a call that always loses its race need not end.
- BoundedQueue.AlwaysSafe: runs of fewer than 2^63 - size steps, because the code's signed difference overflows beyond.
- BoundedQueue.CallAnswers: positions below 2^63, like `BoundedQueue.AlwaysSafe`.
- BoundedQueue.CallEnds: positions below 2^63, and no exchange of the call fails spuriously.
- BoundedQueue.Queue.TakeEnqueue: the object is used by one thread at a time, so its loop runs once and neither the failed exchange nor the position that has moved on occurs; they do in the step model.
- BoundedQueue.Queue.TakeDequeue: likewise.
- BoundedQueue.Queue.Enqueue: the object is used by one thread at a time, so the compare-and-exchange of the retry loop does not fail; that it may is in the step model.
- BoundedQueue.Queue.Dequeue: likewise.
- RingBuffer.NoTornReads: fewer than 2^32 chunks, because the code's sequence numbers are 32-bit words and 0 means no data.
- RingBuffer.ReadAnswers: fewer than 2^32 chunks, like `RingBuffer.NoTornReads`.
- RingBuffer.BufferReader.ReadNext: with no write in progress; concurrent writes are in the step model.
- Semaphore.Conserved: assumes that no signal of 0 is made while the waiter is in debt, because the property is false otherwise (`Semaphore.SafeExactly`, `Semaphore.DoKeeps`). The count is an unbounded integer, not the signed word `ssize_t`; it stays between -1 and all permits given, so the two agree while those are below 2^63.
- The step models are on values: the update of shared memory in place is the transition from one state to the next, and two pointers to one block are two equal block numbers.
- Weak memory ordering, fences and cache-line padding: memory is sequentially consistent.
- `enqueue_bulk` and exception rollback of the concurrent queue: element types do not throw.
- `MAX_SUBQUEUE_SIZE`: the default, no limit.
- The implicit-producer hash, thread ids, token rotation, queue move and swap, destructors, memory statistics: bulky, with easy properties.
- Failure to allocate in a constructor: the single-producer queue throws or aborts; an explicit producer tries again to allocate its index at the next enqueue, and an implicit producer without an index refuses every enqueue. The producers here start with an index.
- Operating-system semaphores and clocks: an abstract counting semaphore whose timed wait may fail at any time.
- `size_approx` of the queues: easy members.
- Broker teardown: the broker's members are destroyed in an order that lets producers notify destroyed consumers; clients use and destroy each handle once.
- Handlers that destroy their own consumer while running, memory resources, deleters and snapshot handlers.
- `src/lib/router`: an unfinished sketch.
- `expected.hpp`, `inplace_function.h`, `mp_utils.h`, `allocators.h`, the benchmarks and `main.cpp`: plumbing with easy members.
