# Verified model of the BidAskSpread queues and pipeline

BidAskSpread turns a file of quotes into one relative bid-ask spread per symbol and day. Its parser, four stages and
writer each have a thread and hand observations on through queues: a lock-free single-producer single-consumer ring
(`ReaderWriterQueue`, wrapped by `AtomicQueue`), while messages go through a lock-free queue for many producers and
many consumers (`ConcurrentQueue`). This project models both queues and the pipeline on top of them, and proves what
every interleaving keeps.

How the modules follow the program:

- `include/readerwriterqueue`: `RingBlock` (one circular block), `SpscQueue` (the machine), `SpscProof` (its
  invariant), `SpscFifo`, `SpscCapacity`, `SpscAnswers` and `SpscCalls` (what it promises), `ReaderWriterQueue` (the
  object), `PowersOfTwo`, `Semaphore`, `BlockingQueue` and `BlockingReaderWriterQueues`.
- `include/concurentqueue`: `FreeList*` (the reference-counted list of free blocks), `DequeueTickets*`,
  `DequeueCounters` and `DequeueWindow` (the optimistic and overcommit counters), `CircularIndex` (comparison of
  wrapping indices), `BlockIndex`, `BlockLookup*` and `ImplicitBlockIndex` (the growing index of blocks), `Slots` and
  `SlotArithmetic`, `ImplicitProducers` and `Provision` (enqueue and bulk enqueue, and when they succeed),
  `BlockLeases*` and `SharedBlocks` (where every block is), `SharedQueue*` (all of these run as one, with the
  elements), `ThreadTable*` and `ThreadIdTables` (from threads to producers).
- `BidAskSpread`: `AtomicQueue`, `StreamAnswers` and `EndOfStreamQueue` (polling, and the end of a stream),
  `StreamNetwork` (stages joined by bounded queues), `Grouping`, `Statistics`, and one module per stage:
  `TimestampMerge`, `Outliers`, `RelSpreads`, `DayRelSpreads`; `Observations` and `Pipeline` join them.

A concurrent protocol is a state machine with one step per access to a shared variable, in sequentially consistent
order: a value read earlier may be stale by the time it is used. Results about runs are for every schedule. Beside
each machine stands a class with the program's fields, whose methods change them in place and are proved to take the
machine's steps; the `Execute` methods run a whole schedule and so inherit the theorems. Sequential code is written as
methods with the program's loops.

## Findings

Each of these is a property the code, or a comment in it, suggests and that does not hold as it stands. The condition
under which it does hold is proved too.

- The end of a stream can hide an element (`BidAskSpread/AtomicQueue.h:62-69`, and `peek` at 51-60). `end()` combines
  `m_atEnd` with an `m_empty` left by an earlier failed poll, so an element put in after the last failed poll and
  before `setQueueEnd` is never delivered. `AtomicQueue.LossIff`: some schedule makes a call report the end over an
  element if and only if the call begins on an empty queue whose end has not been set.
  `AtomicQueue.EndCanHideAnElement` is an instance, and does not depend on the uninitialised `m_empty`.
- `signal(0)` with a sleeper (`include/readerwriterqueue/atomicops.h:545-554`): the assertion admits a count of zero,
  which would let the sleeping thread through with nothing to take (`Semaphore.EmptySignalReleases`). Exactly the
  signals with `n > 0`, or sent while nobody waits, are safe (`Semaphore.SignalSoundIff`). The queue only signals 1.
- `circular_less_than` (`include/concurentqueue/concurrentqueue.h:334-345`) orders two indices correctly up to half
  the range apart, with the one exception of a lesser first argument exactly half the range below the second
  (`CircularIndex.CircularLessThanExact`); no reachable comparison of head and tail is that far
  (`CircularIndex.ComparisonsStayExact`).
- `ceilToPow2` (`include/readerwriterqueue/readerwriterqueue.h:519-531`) gives 0, not a power of two, for 0 and for
  everything above the largest power of two in the word (`PowersOfTwo.CeilToPow2`).
- The comment at `include/concurentqueue/concurrentqueue.h:2775-2776` says a signed division keeps a negative offset,
  but the divisor is unsigned, so the division is too. The model follows the code; the place found is right all the
  same, because the capacity divides the number of blocks in the index range (`BlockIndex.LookUpExact`).
- `try_dequeue_bulk` with a maximum of 0 (`include/concurentqueue/concurrentqueue.h:1075-1085` and 2604-2694): on a
  sub-queue with elements the call advances the head by nothing and still looks up the block at the head, of which it
  owns nothing, and calls `set_many_empty` on it, which assumes a positive count (line 1454).
  `DequeueTicketsProof.ClaimsNothingIff`: a call claims nothing if and only if it was asked for nothing.
- On a day with one merged observation `BidAskSpread/OutliersFilter.cpp:97-108` reads past an empty vector, and on a
  day with two it divides by zero. From three observations on the statistics are defined (`Outliers.EnoughContext`).

## Model

| member | source | states |
|---|---|---|
| `SpscFifo.StepRefinesFifo` | include/readerwriterqueue/readerwriterqueue.h:186-508 | every step of producer or consumer, across blocks of mixed size, reuse and allocation, keeps the ring's invariant and acts on the elements as nothing, append at the back or remove the first |
| `SpscFifo.AlwaysFifo` | include/readerwriterqueue/readerwriterqueue.h:186-508 | after any interleaving, what was taken followed by what is inside is exactly what was put in, in order, and neither history is rewritten |
| `SpscFifo.TruthfulAnswers` | include/readerwriterqueue/readerwriterqueue.h:186-390 | a call says empty only if the queue was empty at an instant of that call, and otherwise answers with the front element |
| `SpscAnswers.EmptyWasTrue` | include/readerwriterqueue/readerwriterqueue.h:186-390 | over any run, a dequeue, pop or peek that says empty does so in a call at some instant of which, named by its place in the schedule, the queue was empty |
| `SpscFifo.PeekedLeavesNext` | include/readerwriterqueue/readerwriterqueue.h:280-322 | a peeked element is the next one to leave, whatever the producer does in between |
| `SpscFifo.AssertionsHold` | include/readerwriterqueue/readerwriterqueue.h:227-468 | the block the producer steps onto is empty, the one the consumer steps onto is not, an element is built only over a dead slot and moved only from a live one |
| `SpscFifo.NoRoomMeansFull` | include/readerwriterqueue/readerwriterqueue.h:443-499 | in a ring whose blocks have m slots or more, of whatever sizes, an enqueue is refused only if the elements present at the instant it looked were at least the capacity for m |
| `SpscFifo.RefusedOnlyWhenFull` | include/readerwriterqueue/readerwriterqueue.h:413-499 | over any run, whoever allocates, the ring never shrinks, no smaller block joins it, and every refusal for lack of room saw at least the capacity of the blocks it was made with |
| `SpscFifo.WaitFree` | include/readerwriterqueue/readerwriterqueue.h:186-508 | a call ends in at most 6 steps of the producer or 8 of the consumer, and neither can delay the other |
| `SpscCapacity.SeenWasPresent` | include/readerwriterqueue/readerwriterqueue.h:413-499 | the number of elements a refusing enqueue counted was present at an instant inside that very call |
| `SpscCapacity.RefusedOnlyAboveMaxSize` | include/readerwriterqueue/readerwriterqueue.h:68-113 | over any run that mixes enqueue and try_enqueue, a queue built for maxSize refuses an element for lack of room only if at least maxSize elements were inside at some instant of that call |
| `SpscCapacity.StaysMaskable` | include/readerwriterqueue/readerwriterqueue.h:470-487 | over any run every block added doubles the largest or is full-sized, so every size is a power of two, as masking an index needs, and at most twice the maximum |
| `SpscCalls.EnqueueOutcome` | include/readerwriterqueue/readerwriterqueue.h:148-184 | under any schedule `try_enqueue` never changes the number or size of blocks and never runs out of memory; `enqueue` is never refused for lack of room, and runs out of memory only at a named allocation of its own that failed; either way its own element is in if and only if it says stored |
| `SpscCalls.WithMemoryStored` | include/readerwriterqueue/readerwriterqueue.h:165-184 | so an `enqueue` to which no allocation is refused always stores its element |
| `SpscCalls.MakesOnlyWhenFull` | include/readerwriterqueue/readerwriterqueue.h:443-495 | and makes a block only when no block ahead is free and the elements it saw were the capacity of the ring |
| `SpscCalls.TakingOutcome` | include/readerwriterqueue/readerwriterqueue.h:186-390 | under any schedule a `peek` takes nothing out, and `try_dequeue` and `pop` exactly the element they answer with, or nothing when they say empty |
| `ReaderWriterQueue.EnoughBlocks` | include/readerwriterqueue/readerwriterqueue.h:80-88 | the constructor's block count, with one block spare and one slot spare in each, holds maxSize elements |
| `ReaderWriterQueue.Queue.constructor` | include/readerwriterqueue/readerwriterqueue.h:68-113 | an empty valid ring that has room for maxSize elements, in one block or in several of the largest size, all sizes powers of two |
| `ReaderWriterQueue.Queue.MakeBlocks` | include/readerwriterqueue/readerwriterqueue.h:89-103 | the loop makes the blocks empty, each linked to the next and the last to the first |
| `ReaderWriterQueue.Queue.StepProducer` | include/readerwriterqueue/readerwriterqueue.h:413-508 | a step of the in-place enqueue keeps the object valid and is the machine's step |
| `ReaderWriterQueue.Queue.StepConsumer` | include/readerwriterqueue/readerwriterqueue.h:186-390 | a step of the in-place dequeue, peek or pop keeps the object valid and is the machine's step |
| `ReaderWriterQueue.Queue.Execute` | include/readerwriterqueue/readerwriterqueue.h:186-508 | under any schedule of calls and steps the object stays a first-in first-out queue with growing histories |
| `RingBlock.PublishAppends` | include/readerwriterqueue/readerwriterqueue.h:427-440 | storing the tail of a block with room makes its contents longer by the element at the old tail |
| `RingBlock.TakeRemoves` | include/readerwriterqueue/readerwriterqueue.h:213-225 | storing the front of a block that is not empty removes its first element and no other |
| `RingBlock.PublishShadows` | include/readerwriterqueue/readerwriterqueue.h:427-440 | the producer's stale copy of front stays conservative, and so does the consumer's copy of tail |
| `RingBlock.TakeShadows` | include/readerwriterqueue/readerwriterqueue.h:213-225 | the consumer's stale copy of tail stays conservative, and so does the producer's view of the room |
| `RingBlock.TakeLifetimes` | include/readerwriterqueue/readerwriterqueue.h:213-225 | once front has passed a moved-out element, the live slots are exactly the queued ones and the one being built |
| `PowersOfTwo.CeilToPow2` | include/readerwriterqueue/readerwriterqueue.h:519-531 | the shifts give the least power of two at or above x, for every x from 1 to the largest one in the word, and 0 for every other x |
| `Semaphore.WaiterStepSound` | include/readerwriterqueue/atomicops.h:500-543 | no step of the one waiter takes the count below -1, and one that gets through leaves it at 0 or above |
| `Semaphore.WaiterOutcome` | include/readerwriterqueue/atomicops.h:500-543 | only a `tryWait` that sees no count is refused, and it has taken nothing; only a `wait` that finds none sleeps; whoever gets through has taken exactly one |
| `Semaphore.TryWaitAlone` | include/readerwriterqueue/atomicops.h:526-543 | alone, `tryWait` takes one off a positive count and is refused by any other |
| `Semaphore.SignalSoundIff` | include/readerwriterqueue/atomicops.h:545-554 | a signal keeps count, sleeper and kernel semaphore in agreement if and only if it adds something or nobody sleeps |
| `Semaphore.PostSound` | include/readerwriterqueue/atomicops.h:550-553 | the kernel signal that follows keeps that agreement, so a sleeper whose count is made good has one to wake it |
| `Semaphore.EmptySignalReleases` | include/readerwriterqueue/atomicops.h:545-554 | a signal of 0 to a sleeper lets it through with the count still at -1 |
| `Semaphore.LightweightSemaphore.StepWaiter` | include/readerwriterqueue/atomicops.h:500-543 | a step of the in-place wait, spinning included, keeps the semaphore sound |
| `BlockingQueue.InsideSucceeds` | include/readerwriterqueue/readerwriterqueue.h:686-735 | having got past the semaphore, the inner dequeue or pop always finds an element, so its assertion holds |
| `BlockingQueue.RefusedOverNothing` | include/readerwriterqueue/readerwriterqueue.h:686-735 | a consumer is turned away only by a call other than `wait_dequeue`, and over no element but one whose producer has yet to signal it; only `wait_dequeue` sleeps |
| `BlockingQueue.MoveOk` | include/readerwriterqueue/readerwriterqueue.h:642-735 | every move of either thread keeps the semaphore's count equal to the elements not yet spoken for |
| `BlockingQueue.NoLostWakeup` | include/readerwriterqueue/readerwriterqueue.h:642-716 | over every run, a consumer that cannot go on sleeps over an empty queue, unless the producer is on its way to wake it |
| `BlockingReaderWriterQueues.BlockingReaderWriterQueue.Execute` | include/readerwriterqueue/readerwriterqueue.h:642-735 | the same of the object, whose inner queue and semaphore are stepped in place |
| `FreeListSafety.WinnerIsExclusive` | include/concurentqueue/concurrentqueue.h:1331-1338 | in every reachable state, a node that a getter is about to return is off the list, unflagged, with no client and in no other thread's hands |
| `FreeListSafety.NoAba` | include/concurentqueue/concurrentqueue.h:1328-1338 | whenever the exchange on the head succeeds, what it installs is the popped node's current successor, and exactly the first node leaves |
| `FreeListSafety.NothingIsLost` | include/concurentqueue/concurrentqueue.h:1300-1379 | a node added and not given out again is on the list, or in a thread's hands, or flagged while a thread still holds it |
| `FreeListSafety.QuiescentCounts` | include/concurentqueue/concurrentqueue.h:1300-1379 | with no call in progress the list holds exactly the nodes added and not given out, each with count 1, and all others have count 0 |
| `FreeListSafety.RunsKeepInv` | include/concurentqueue/concurrentqueue.h:1300-1379 | over every run each count is the list's share plus one per holder plus the flag, and the chain from the head is the list |
| `FreeListProof.PopIsCurrent` | include/concurentqueue/concurrentqueue.h:1328-1331 | while a getter holds a reference to the head, the successor it read cannot have gone stale |
| `FreeListSafety.NullMeansEmpty` | include/concurentqueue/concurrentqueue.h:1319-1350 | a getter comes to hold a null head only at an instant when the list is empty |
| `FreeListAnswers.GivesOrSawNull` | include/concurentqueue/concurrentqueue.h:1319-1350 | from any state a step that ends `try_get` is that of a thread that has won a node, or of one that tests a null head and changes nothing |
| `FreeListAnswers.WinnerGives` | include/concurentqueue/concurrentqueue.h:1331-1338 | the winner gives out its node and that alone |
| `FreeListAnswers.OnlyWinnersGive` | include/concurentqueue/concurrentqueue.h:1300-1379 | no other step gives anything out |
| `FreeListAnswers.NothingOnlyIfEmpty` | include/concurentqueue/concurrentqueue.h:1319-1350 | over any run a call that ends with nothing was under way at a named instant at which the list was empty |
| `FreeListAnswers.GetAlone` | include/concurentqueue/concurrentqueue.h:1319-1350 | wherever the other threads stand, a getter that they let run gives out exactly the first node of a list that has one, and leaves the rest in order |
| `FreeListAnswers.GetNothingAlone` | include/concurentqueue/concurrentqueue.h:1319-1350 | over an empty list it comes back with nothing, and nothing has changed |
| `FreeListAnswers.AddAlone` | include/concurentqueue/concurrentqueue.h:1300-1379 | wherever they stand, an adder that they let run puts its node in front of the list, or leaves it flagged if and only if a getter still holds it |
| `FreeList.WordArithmetic` | include/concurentqueue/concurrentqueue.h:1385-1386 | additions to a count wrap as a 32-bit word does, and masking off the flag leaves the low 31 bits |
| `FreeListNodes.Nodes.Execute` | include/concurentqueue/concurrentqueue.h:1300-1379 | counts, links and head changed in place stay valid under any schedule whose clients add only nodes they have, and end where the machine does |
| `FreeListNodes.Nodes.StepThread` | include/concurentqueue/concurrentqueue.h:1300-1379 | a step on the counts, links and head in place keeps them valid and is the machine's step, of which `FreeListAnswers` says what it answers |
| `DequeueTickets.WinsBelowTail` | include/concurentqueue/concurrentqueue.h:1794-1886 | if each winning ticket is below the tail once the losers before it are discounted, there are at most tail winners |
| `DequeueTicketsProof.StepKeeps` | include/concurentqueue/concurrentqueue.h:1794-1886 | every step of every consumer, single or bulk, with a stale overcommit, keeps the ticket invariant |
| `DequeueTicketsProof.HeadNeverPassesTail` | include/concurentqueue/concurrentqueue.h:1830-1841 | head, even with the indices a winner is about to claim added, never passes tail |
| `DequeueTicketsProof.OvercommitBelowTicket` | include/concurentqueue/concurrentqueue.h:1818-1824 | the overcommit a consumer read is never above the ticket it drew, so the unsigned difference does not wrap |
| `DequeueTicketsProof.StepHandsOut` | include/concurentqueue/concurrentqueue.h:1830-1841 | a claiming step gives its thread the next indices in order, below tail, and no other step gives any |
| `DequeueTicketsProof.HandedOutOnce` | include/concurentqueue/concurrentqueue.h:1794-1886 | over any run each index goes to one consumer, in order, for good, and never beyond what was put in |
| `DequeueTicketsProof.QuiescentCountersAgree` | include/concurentqueue/concurrentqueue.h:1794-1886 | with no call in progress the optimistic counter is head plus overcommit |
| `DequeueTicketsProof.QuiescentDequeue` | include/concurentqueue/concurrentqueue.h:2604-2704 | a bulk dequeue alone takes the least of what is there and what was asked |
| `DequeueTicketsProof.CallEnds` | include/concurentqueue/concurrentqueue.h:2604-2704 | a call takes what it claims, and ends otherwise only without a ticket or after giving its tickets back |
| `DequeueTicketsProof.TurnedAwayOnlyIfSpokenFor` | include/concurentqueue/concurrentqueue.h:2604-2610 | a call that draws no ticket ends only if every element there was when it read the tail is claimed, or has a ticket in some consumer's hands or one given back since |
| `DequeueTicketsProof.FewerOnlyIfSpokenFor` | include/concurentqueue/concurrentqueue.h:2611-2623 | a call that drew claims as many as it wanted, or fewer only if all others are spoken for by tickets drawn before its own |
| `DequeueTicketsProof.ClaimsNothingIff` | include/concurentqueue/concurrentqueue.h:2604-2631 | over any run a bulk dequeue advances the head by nothing, and goes on to look a block up all the same, if and only if it was asked for no element |
| `DequeueTicketsProof.ClaimsNothing` | include/concurentqueue/concurrentqueue.h:2604-2631 | one asked for no element gets that far whenever it finds the sub-queue at rest and not empty |
| `DequeueCounters.Counters.Execute` | include/concurentqueue/concurrentqueue.h:2382-2451 | the object's four counters, changed in place under any schedule, hand each index out once and never past tail |
| `DequeueWindow.FirstTestExact` | include/concurentqueue/concurrentqueue.h:2382-2387 | over any run, if the elements queued when the call began together with those put in since, and the tickets then outstanding together with those drawn since, are each fewer than half the range of indices, the first wrapping comparison and difference are the true ones |
| `DequeueWindow.SecondTestExact` | include/concurentqueue/concurrentqueue.h:2390-2393 | under the same bound so are those after the ticket is drawn, with the tail read again |
| `DequeueWindow.OutstandingNotNegative` | include/concurentqueue/concurrentqueue.h:2382-2387 | optimistic is never below head plus overcommit |
| `CircularIndex.CircularLessThanExact` | include/concurentqueue/concurrentqueue.h:334-345 | up to half the range apart, the comparison of words is the comparison of indices if and only if the second is not exactly half the range above the first |
| `CircularIndex.RoomCheckExact` | include/concurentqueue/concurrentqueue.h:2320-2328 | the check made once per block passes if and only if the whole block fits within half the range above head |
| `CircularIndex.ComparisonsStayExact` | include/concurentqueue/concurrentqueue.h:1577-1582 | over any run that check alone keeps tail within half the range of head, and every comparison and difference of the two exact |
| `CircularIndex.DequeueTestExact` | include/concurentqueue/concurrentqueue.h:2385-2387 | the unsigned difference of the counters compares with tail as the integers do |
| `BlockIndex.LookUpExact` | include/concurentqueue/concurrentqueue.h:2765-2781 | from any header, however stale, and across wrap-around, the place computed is the distance between the two blocks round the ring |
| `BlockIndex.LookUpFinds` | include/concurentqueue/concurrentqueue.h:2765-2781 | so a block that is a given distance behind the tail is found at that place |
| `BlockIndex.AdvanceRotates` | include/concurentqueue/concurrentqueue.h:2726-2736 | moving the tail on turns the oldest entry into the newest and keeps the order of the rest |
| `BlockIndex.RetreatRotates` | include/concurentqueue/concurrentqueue.h:2752-2756 | moving the tail back turns the newest entry into the oldest |
| `BlockIndex.GrownOrder` | include/concurentqueue/concurrentqueue.h:2783-2825 | a doubled index lists its new entries as the oldest and then the former ones in their former order |
| `BlockIndex.BaseAligned` | include/concurentqueue/concurrentqueue.h:2707-2708 | no block's base is the word that marks an entry as never used |
| `BlockLookupProof.StepKeepsInv` | include/concurentqueue/concurrentqueue.h:2726-2825 | inserts, rewinds, growth, frees and every reader's loads keep the index in order and each reader's stale header useful |
| `BlockLookupProof.EntryStays` | include/concurentqueue/concurrentqueue.h:2726-2825 | no step of the producer moves the entry of a block in use |
| `BlockLookupProof.FindsBlock` | include/concurentqueue/concurrentqueue.h:2758-2781 | the newest key a reader loads is set, so its assertion holds, and the place computed is where the block's entry is |
| `BlockLookupProof.LookupsAreRight` | include/concurentqueue/concurrentqueue.h:2758-2781 | over every run a lookup ends at a filled entry whose key is the block's base |
| `BlockLookupProof.LaterLookupsAreRight` | include/concurentqueue/concurrentqueue.h:2629-2694 | a bulk dequeue that steps on through the header it loaded once, however stale, meets the entry of each later block it claimed |
| `ImplicitBlockIndex.BlockIndexTable.NewBlockIndex` | include/concurentqueue/concurrentqueue.h:2783-2825 | growing fails only for lack of memory or at the largest size, changes no block's entry, and leaves an unused entry next |
| `ImplicitBlockIndex.BlockIndexTable.InsertBlockIndexEntry` | include/concurentqueue/concurrentqueue.h:2726-2750 | succeeds if and only if the oldest entry is free, or memory is granted and the index is below its largest size; the next block then has the newest entry, and on failure nothing has changed |
| `ImplicitBlockIndex.BlockIndexTable.RewindBlockIndexTail` | include/concurentqueue/concurrentqueue.h:2752-2756 | undoes the newest insertion and no other |
| `ImplicitBlockIndex.BlockIndexTable.EntryForIndex` | include/concurentqueue/concurrentqueue.h:2758-2763 | for every block with an entry, gives the entry that holds its key and its block |
| `SlotArithmetic.BlockBaseDiff` | include/concurentqueue/concurrentqueue.h:2465-2472 | the masked word difference is the number of blocks a bulk enqueue must enter, at tail 0 and at wrap-around too |
| `Provision.EntryHadIff` | include/concurentqueue/concurrentqueue.h:2726-2751 | after k blocks and j doublings the entry for the next block is to be had if and only if some are left unused, or memory is granted and the index may double again |
| `Provision.OneMoreDone` | include/concurentqueue/concurrentqueue.h:2726-2825 | allocating block by block succeeds for exactly the number of blocks that the closed form says: block k needs a doubling when k is the entries unused at first plus n(2^j - 1) |
| `ImplicitProducers.ImplicitProducer.constructor` | include/concurentqueue/concurrentqueue.h:2254-2260 | a new producer is valid and holds nothing |
| `ImplicitProducers.ImplicitProducer.Requisition` | include/concurentqueue/concurrentqueue.h:2907-2925 | gives no block if and only if none is free and memory is refused; a free one if there is one, and otherwise a new one; no other block is gained or lost |
| `ImplicitProducers.ImplicitProducer.AllocateBlocks` | include/concurentqueue/concurrentqueue.h:2465-2527 | succeeds if and only if the blocks fit within half the range and an index entry and a block are to be had for each, told from the state before; then takes exactly those needed, chained in order, and otherwise puts everything back as it was, with every block taken free again |
| `ImplicitProducers.ImplicitProducer.EnqueueBulk` | include/concurentqueue/concurrentqueue.h:2454-2601 | under the same condition, and no other, appends all the items in order; otherwise elements, tail, index entries and tail block are as before and no block is lost |
| `ImplicitProducers.ImplicitProducer.Enqueue` | include/concurentqueue/concurrentqueue.h:2317-2379 | appends the item if and only if the tail is inside a block, or a block more fits within half the range and an index entry and a block are to be had; otherwise elements, tail, index entries and tail block are as before |
| `ImplicitProducers.ImplicitProducer.OneIsABulk` | include/concurentqueue/concurrentqueue.h:2317-2379 | an element is taken if and only if a bulk of one is |
| `ImplicitProducers.ImplicitProducer.OnlyTheRangeStops` | include/concurentqueue/concurrentqueue.h:2320-2342 | with memory, and the blocks that the head has left off the index, only half the range of indices stops an enqueue |
| `BlockLeasesProof.StepKeepsInv` | include/concurentqueue/concurrentqueue.h:2317-2451 | pools, enqueues, claims, reads and frees by any number of producers and consumers keep every block's place and count |
| `BlockLeasesProof.ExactlyOnePlace` | include/concurentqueue/concurrentqueue.h:2873-2925 | after any run each block is in exactly one of the pool, the free list, a producer's hand, one live entry or a consumer's hand |
| `BlockLeasesProof.FreedNotEarly` | include/concurentqueue/concurrentqueue.h:2431-2440 | when a consumer takes a block out of the index, every element in it has been read, and it lies below the head |
| `BlockLeasesProof.FreedUnowned` | include/concurentqueue/concurrentqueue.h:2418-2440 | nor does any consumer, itself included, still own an index in it |
| `BlockLeasesProof.FreedNotFree` | include/concurentqueue/concurrentqueue.h:2431-2440 | a block on its way to the free list is not there already |
| `BlockLeasesProof.FreedOnce` | include/concurentqueue/concurrentqueue.h:2431-2440 | no two consumers are on the way to freeing the same block |
| `BlockLeasesProof.SetManyEmptyCounts` | include/concurentqueue/concurrentqueue.h:1437-1475 | the count never passes the block's size, and the answer is yes exactly for the call that completes the last slots |
| `BlockLeasesProof.ReadsItsOwnBlock` | include/concurentqueue/concurrentqueue.h:2397-2412 | the block a consumer reads is the one leased for its index, and is not free |
| `BlockLeasesProof.AlwaysFound` | include/concurentqueue/concurrentqueue.h:2397-2402 | a consumer that owns an index finds a block for it |
| `SharedBlocks.BlockStore.Execute` | include/concurentqueue/concurrentqueue.h:2317-2451 | pools, counts and entries changed in place, under any schedule, leave each block in the one place recorded for it |
| `SharedBlocks.BlockStore.TryGetBlockFromInitialPool` | include/concurentqueue/concurrentqueue.h:2873-2882 | gives a block never given before from the pool, or none if and only if the pool is used up |
| `SharedQueueProof.AlwaysFires` | include/concurentqueue/concurrentqueue.h:2317-2704 | counters, index, blocks and slots run as one: whatever a thread is ready for, no part has a reason to refuse, so each part's premises are met by the others |
| `SharedQueueProof.ClaimRange` | include/concurentqueue/concurrentqueue.h:2382-2394 | the indices a consumer is about to claim lie between head and tail, and none is done with |
| `SharedQueueProof.RangeLive` | include/concurentqueue/concurrentqueue.h:2397-2402 | every block of published indices that are not done with has a live entry |
| `SharedQueueProof.FoundBlock` | include/concurentqueue/concurrentqueue.h:2397-2401 | the block that the entry a consumer found points at is the one leased for its index |
| `SharedQueueProof.NextIsLive` | include/concurentqueue/concurrentqueue.h:2400-2429 | the slot a consumer reads is live, and holds the element put in at that index |
| `SharedQueueProof.BuildFires` | include/concurentqueue/concurrentqueue.h:2318-2377 | the slot an element is built in is leased for its index and dead |
| `SharedQueueProof.NobodyUses` | include/concurentqueue/concurrentqueue.h:2431-2440 | no consumer that is looking blocks up, or still going to, uses the block that is taken out |
| `SharedQueueSteps.EntryStill` | include/concurentqueue/concurrentqueue.h:2726-2825 | inserting, rewinding, growing, publishing, freeing and looking up leave every other block the entry it had |
| `SharedQueueSteps.StepFits` | include/concurentqueue/concurrentqueue.h:2317-2704 | every step of every producer and consumer keeps the parts in agreement on indices, blocks and entries |
| `SharedQueueReads.SlotsApart` | include/concurentqueue/concurrentqueue.h:2317-2704 | two indices, of the same producer or of two, never share a slot |
| `SharedQueueReads.StepKeepsInv` | include/concurentqueue/concurrentqueue.h:2317-2704 | and keeps every element that has been built and not read in the slot of its index, and no other slot live |
| `SharedQueueRuns.EveryReadIsRight` | include/concurentqueue/concurrentqueue.h:2317-2704 | over every run of any number of producers and consumers, what was read at index i of a producer is what that producer put in there, and it was read by the consumer that advanced the head over i |
| `SharedQueueRuns.ReadsStay` | include/concurentqueue/concurrentqueue.h:2317-2704 | over every run nothing that was read is read again or forgotten |
| `SharedQueueRuns.NothingUnread` | include/concurentqueue/concurrentqueue.h:2317-2704 | once no consumer is in a call, every index below a head has been read |
| `SharedQueueRuns.NeverStuck` | include/concurentqueue/concurrentqueue.h:2382-2451 | a consumer in the middle of a call can always take its next step, whatever the others have done |
| `ThreadTableProof.StepKeepsInv` | include/concurentqueue/concurrentqueue.h:3201-3349 | every step of every thread, probing, copying, claiming and resizing, keeps each table's tickets apart and below three quarters of it |
| `ThreadTableProof.OneProducerEach` | include/concurentqueue/concurrentqueue.h:3201-3349 | over every run a thread gets the same producer on every call, and two threads never the same one |
| `ThreadTableCalls.CallsComeBack` | include/concurentqueue/concurrentqueue.h:3201-3349 | over every run a call whose thread is let run while no other is resizing comes back, with the thread's one producer |
| `ThreadTableProof.ProbesEnd` | include/concurentqueue/concurrentqueue.h:3219-3262 | in every reachable state every table has an empty slot, so no probe goes on for ever |
| `ThreadTableProof.ProbeEnds` | include/concurentqueue/concurrentqueue.h:3219-3262 | a probe that meets neither the thread nor an empty slot has slots left to look at |
| `ThreadTableProof.SomeEmpty` | include/concurentqueue/concurrentqueue.h:3303-3306 | distinct tickets below three quarters of the capacity leave a slot empty |
| `ThreadTableProof.ResizerHasRoom` | include/concurentqueue/concurrentqueue.h:3264-3306 | the table a resizing thread installs is the newest and has room for that thread's ticket |
| `ThreadTable.ComputeNewCapacity` | include/concurentqueue/concurrentqueue.h:3274-3277 | doubles the capacity until the ticket is below half of it |
| `ThreadIdTables.ThreadIdTable.constructor` | include/concurentqueue/concurrentqueue.h:3151-3164 | one table, with arrays of its own, whose slots are all empty |
| `ThreadIdTables.ThreadIdTable.Execute` | include/concurentqueue/concurrentqueue.h:3201-3349 | under any schedule the chain of tables, written in place, goes through the machine's states |
| `AtomicQueue.EndOfStream` | BidAskSpread/AtomicQueue.h:42-80 | over every run what is taken out is a prefix of what was put in; the end is reported only after it was set, and what is missing then came after the last failed poll |
| `StreamAnswers.CallOutcome` | BidAskSpread/AtomicQueue.h:51-73 | under any schedule a `dequeue` that ends with an element hands over the first one not delivered and takes out exactly that, with m_empty clear; a `peek` hands over the same one and takes out nothing; a call that reports the end took nothing |
| `StreamAnswers.PeekedComesNext` | BidAskSpread/AtomicQueue.h:51-73 | the element a `peek` handed over is the one the next `dequeue` takes out, whatever happens in between |
| `StreamAnswers.ReturnsWhatWentIn` | BidAskSpread/AtomicQueue.h:51-80 | over every run the elements that the calls of `dequeue` return are, in order, the elements that went in, as far as they have been delivered |
| `StreamAnswers.PutOutcome` | BidAskSpread/AtomicQueue.h:75-80 | under any schedule an `enqueue` puts in its own element, once, and comes back only then, with m_full clear |
| `StreamAnswers.WithinCapacity` | BidAskSpread/AtomicQueue.h:75-80 | over every run no more is inside than there is room for |
| `AtomicQueue.EndIsReportedInTime` | BidAskSpread/AtomicQueue.h:62-73 | once the end is set at most one more poll fails before the call that reports it |
| `AtomicQueue.LossIff` | BidAskSpread/AtomicQueue.h:48-73 | wherever the producer is, some schedule makes a call report the end over an element if and only if the call begins on an empty queue whose end is not set |
| `AtomicQueue.Safe` | BidAskSpread/AtomicQueue.h:62-73 | with the end set, or an element waiting, no schedule makes the call lose anything |
| `AtomicQueue.Unsafe` | BidAskSpread/AtomicQueue.h:62-73 | otherwise one schedule loses the element the producer is busy with, or else any one likes, whatever m_empty held |
| `AtomicQueue.EndCanHideAnElement` | BidAskSpread/AtomicQueue.h:17-20 | the first call on a new queue can lose an element |
| `EndOfStreamQueue.PolledQueue.Execute` | BidAskSpread/AtomicQueue.h:42-80 | the object's flags and queue, changed in place under any schedule, deliver a prefix, the calls of `dequeue` return exactly that, and all up to the last failed poll is delivered once the end is reported |
| `StreamNetwork.RunsKeepTotal` | BidAskSpread/BidAskSpread.cpp:51-74 | at every moment of every run what is written, queued, buffered and still to come adds up to the batch result |
| `StreamNetwork.QueuesBounded` | BidAskSpread/BidAskSpread.cpp:51-74 | over every run no queue holds more than its capacity |
| `StreamNetwork.Deterministic` | BidAskSpread/BidAskSpread.cpp:51-74 | every schedule writes a prefix of the batch result, and all of it when no worker can move |
| `StreamNetwork.StuckMeansFinished` | BidAskSpread/BidAskSpread.cpp:51-74 | no unfinished network is deadlocked, whatever the queues' capacity |
| `StreamNetwork.RunsEnd` | BidAskSpread/BidAskSpread.cpp:51-74 | no schedule goes on for ever |
| `Grouping.RunsAreRuns` | BidAskSpread/OutliersFilter.cpp:25-55 | the groups joined give back the input, are not empty, have one key each, and neighbours differ in it |
| `Grouping.RunsUnique` | BidAskSpread/OutliersFilter.cpp:25-55 | there is no other way to cut the input so |
| `Grouping.StreamGroups` | BidAskSpread/TimestampMergeFilter.cpp:17-41 | buffering until the key changes, with a flush at the end, is closing each group of the whole input |
| `Observations.ParsedExactly` | BidAskSpread/StreamParser.cpp:51-54 | what the parser sends on is exactly the records with bid and offer above a hundredth and mode 12, in order |
| `Statistics.SortUnique` | BidAskSpread/OutliersFilter.cpp:97-98 | two ascending sequences of the same values are equal, so any sort gives the same one |
| `Statistics.ComputeTrimmedMean` | BidAskSpread/StatsUtils.h:26-32 | the loop gives the mean of what is left when the skipped ends are cut off |
| `Statistics.SkipLeavesSome` | BidAskSpread/StatsUtils.h:26-32 | the rounded skip at both ends leaves at least one value |
| `Statistics.TrimmedMeanWithin` | BidAskSpread/StatsUtils.h:26-32 | the trimmed mean lies between the least and the greatest value |
| `Statistics.ComputeVariance` | BidAskSpread/StatsUtils.h:34-40 | the loop gives the sample variance about the mean |
| `Statistics.MeanBalances` | BidAskSpread/StatsUtils.h:19-24 | the mean times the number of values is their sum |
| `Statistics.VarianceFromSums` | BidAskSpread/StatsUtils.h:34-40 | n(n - 1) times the sample variance about the mean is n times the sum of squares less the square of the sum |
| `Statistics.MedianIsMiddle` | BidAskSpread/StatsUtils.h:42-52 | twice the median is the sum of the middle two values, or twice the middle one, and half the values lie on either side |
| `Statistics.BeyondThreeDeviations` | BidAskSpread/OutliersFilter.cpp:73-74 | a distance is beyond three standard deviations if and only if its square is beyond nine variances |
| `TimestampMerge.MergedReversed` | BidAskSpread/TimestampMergeFilter.cpp:44-81 | merging the front-loaded list gives the newest record's fields with the medians of all bids and all offers |
| `TimestampMerge.MergedIsMiddle` | BidAskSpread/TimestampMergeFilter.cpp:44-81 | the one quote a run becomes has everything from the latest, and on either side the middle of the run's prices |
| `TimestampMerge.MergedByStamp` | BidAskSpread/TimestampMergeFilter.cpp:17-41 | the r-th quote out stands for the r-th run of quotes with its date and time, and the next one out has another date or time |
| `TimestampMerge.TimestampMergeFilter.Filter` | BidAskSpread/TimestampMergeFilter.cpp:17-41 | the loop over its buffer merges each run of equal date and time of the whole input |
| `Outliers.WindowInBounds` | BidAskSpread/OutliersFilter.cpp:63-70 | for every day and observation the window read is inside the day, contains the observation at its stated place, and has 51 slots, the whole day, or the last 26 |
| `Outliers.WindowLies` | BidAskSpread/OutliersFilter.cpp:64-70 | the window starts with the day for its first 26 observations, is the last 26 for its last 25, and is otherwise exactly the indices within 25 of the observation |
| `Outliers.ContextIsNeighbours` | BidAskSpread/OutliersFilter.cpp:88-95 | what an observation is judged against is exactly the others with those indices, each once and in the order of the day |
| `Outliers.DaysByDate` | BidAskSpread/OutliersFilter.cpp:25-55 | a day is a run of quotes of one date, and the next day has another |
| `Outliers.EnoughContext` | BidAskSpread/OutliersFilter.cpp:88-108 | from three observations a day on, every context has two values and every statistic is defined |
| `Outliers.ThreeDeviations` | BidAskSpread/OutliersFilter.cpp:72-76 | an observation stays if and only if bid and offer are both within three sample standard deviations of the trimmed means of its window, as `Outliers.WindowLies` places it, without itself |
| `Outliers.KeptExactly` | BidAskSpread/OutliersFilter.cpp:33-39 | what is sent on is, in order, exactly the observations judged no outliers against the unmodified day |
| `Outliers.OutliersFilter.ComputeContextStats` | BidAskSpread/OutliersFilter.cpp:88-114 | the estimates are those of the window without the observation itself, and the scratch vectors are empty again |
| `Outliers.OutliersFilter.RemoveDayOutliers` | BidAskSpread/OutliersFilter.cpp:58-86 | exactly the outliers of the day are blanked, judged before any is removed |
| `Outliers.OutliersFilter.Filter` | BidAskSpread/OutliersFilter.cpp:25-55 | the loop sends on what each day of the whole input keeps |
| `RelSpreads.RelSpreadRange` | BidAskSpread/RelSpreadProcessor.cpp:27-28 | a spread is below 2, and not negative if and only if the offer is not below the bid |
| `RelSpreads.RelativeToMidquote` | BidAskSpread/RelSpreadProcessor.cpp:27 | the spread times the price half-way between bid and offer is the offer less the bid |
| `RelSpreads.PricedInOrder` | BidAskSpread/RelSpreadProcessor.cpp:22-35 | exactly the uncrossed quotes go on, in order, each with its own spread in [0, 2) |
| `RelSpreads.Filter` | BidAskSpread/RelSpreadProcessor.cpp:22-41 | the loop is that filter on the whole input |
| `DayRelSpreads.DayRelSpreadProcessor.PollDayObs` | BidAskSpread/DayRelSpreadProcessor.cpp:8-22 | buffers one whole day by peeking, takes nothing of the next, and is ended only with the input used up |
| `DayRelSpreads.DayRelSpreadProcessor.Process` | BidAskSpread/DayRelSpreadProcessor.cpp:33-68 | one row for each run of a date in the whole input, with the mean spread of that run |
| `DayRelSpreads.RowsAreRuns` | BidAskSpread/DayRelSpreadProcessor.cpp:33-68 | the r-th row carries the date of every observation of the r-th run, the symbol of its first, and a spread that times the run's length is the sum of its spreads; the next run has another date |
| `Pipeline.ProcessSequentially` | BidAskSpread/BidAskSpread.cpp:35-74 | the stage objects run one after the other give the batch rows |
| `Pipeline.StagesLawful` | BidAskSpread/BidAskSpread.cpp:51-74 | each of the four stages, including the one that peeks, meets what the network's theorems ask |
| `Pipeline.BatchIsRows` | BidAskSpread/BidAskSpread.cpp:51-74 | the network's batch result is the composition of the four stage functions |
| `Pipeline.PipelineDeterministic` | BidAskSpread/BidAskSpread.cpp:51-74 | under every schedule the threads write a prefix of the batch rows, and all of them once nobody can move, whatever the queues' capacity |
| `Pipeline.RowsInRange` | BidAskSpread/StreamParser.cpp:54 | from records that pass the parser's test no spread divides by zero and every daily spread is in [0, 2) |
| `Pipeline.ScaleInvariant` | BidAskSpread/BidAskSpread.cpp:51-74 | multiplying every bid and offer by the same positive number changes no row |

## Left out

- Weak memory orders and fences: steps are interleaved in sequentially consistent order.
- Element constructors and assignments that throw, with the clean-up they need, and destructors.
- Reuse of a producer after its thread has ended, and the `ThreadExitNotifier`, which is compiled only with C++11 thread-local storage.
- The explicit producer's enqueue paths, producer and consumer tokens, and moving or swapping queues; of the explicit producer only the dequeue counters are here.
- A limit on the size of a sub-queue (`MAX_SUBQUEUE_SIZE`): taken as unlimited, which is the default.
- `ReaderWriterQueue.Queue.constructor`: does not model a failed first allocation, nor a maxSize of half the range of `size_t` or more, for which `ceilToPow2` gives 0.
- `DequeueTicketsProof.HandedOutOnce`: the ticket counters are integers; `DequeueWindow` ties them to words, given that during one call neither the queued and newly put in elements nor the outstanding and newly drawn tickets reach half the range of indices.
- `BlockLookupProof.LookupsAreRight`: a rewind's two stores are one step and the newest entry goes first, where the program clears the oldest first; no reader looks at an entry that was never published, and `ImplicitBlockIndex` follows the program's order.
- `BlockLookupProof.StepKeepsInv`: the index does not grow past 2^w / BLOCK_SIZE entries, where the block bases would repeat.
- `SharedQueueRuns.EveryReadIsRight`: every call asks for at least one element, because one that asks for none goes on to a block it owns nothing of; the counters are integers, as in `DequeueTicketsProof`; the free list is a set of blocks, as `FreeListSafety` lets it be.
- `ImplicitProducers.ImplicitProducer.EnqueueBulk`: consumers stand still during the call (`SharedQueue` interleaves its steps with theirs), at most 2^w - BLOCK_SIZE items are given, and the range of indices has at least four blocks.
- `ImplicitProducers.ImplicitProducer.Requisition`: the initial pool and the free list are one list of free blocks here; `BlockLeases` keeps them apart.
- `ImplicitBlockIndex.BlockIndexTable.NewBlockIndex`: the value of an entry that was never set is null, where the program leaves it indeterminate.
- The thread-id table without allocation failure: every table a resize asks for is installed.
- `AtomicQueue.EndOfStream`: nothing is put in after `setQueueEnd`, as no worker does; the inner queue is a sequence, as `SpscFifo` proves it to be.
- `Pipeline.PipelineDeterministic`: the queues between the stages are bounded and report the end once drained, which `AtomicQueue.LossIff` shows to need the end set, or an element there, when the call begins.
- `Outliers.ThreeDeviations`: days of one or two merged observations, where the program reads past a vector or divides by zero.
- Rounding and NaN: prices and statistics are real numbers.
- `std::sort` is a function: `Statistics.SortUnique` shows that it does not matter which.
- `StreamParser` beyond its test on bid, offer and mode, the memory-mapped input, `OutputWriter`, `MsgOutput`, `Counter` and `ClearScreen`: input, output, display and timers.
- How long anything sleeps.
