/** Where the blocks of a concurrent queue are: any number of implicit producers lease them, any number of
    consumers give them back (include/concurentqueue/concurrentqueue.h:1437-1475, 2318-2451, 2604-2704,
    2873-2925). Which indices a consumer owns is the business of `DequeueTickets`, how it finds a block's
    entry that of `BlockLookup`; here claims are whole ranges and lookups are right. `SharedQueue` runs all three as one. */
module BlockLeases {
  import opened Slots

  function Range(from: nat, to: nat): (r: set<nat>)
    ensures forall i :: i in r <==> from <= i < to
  {
    if from >= to then {} else Range(from, to - 1) + {to - 1}
  }

  /** How many of the `n` indices from `from` on are done. */
  function Count(done: set<nat>, from: nat, n: nat): (c: nat)
    ensures c <= n
  {
    if n == 0 then 0 else Count(done, from, n - 1) + (if from + n - 1 in done then 1 else 0)
  }

  /** `entries` are the index entries that have a block, by block number; blocks `0..next` have been entered;
      the producer's own blocks are in `hand`; `done` are the indices whose slots have been emptied. */
  datatype Producer = Producer(head: nat, tail: nat, next: nat, entries: map<nat, nat>, hand: set<nat>, done: set<nat>)

  /** A consumer that owns the indices `at..to` of producer `p`; `block` is the one it has looked up for the
      indices `at..end`, then the one whose last slot it has emptied. */
  datatype Consumer =
    | Idle
    | Working(p: nat, at: nat, to: nat)
    | Reading(p: nat, at: nat, to: nat, end: nat, block: nat)
    | Clearing(p: nat, at: nat, to: nat, k: nat, block: nat)
    | Returning(p: nat, at: nat, to: nat, block: nat)

  /** Blocks are numbered: the first `poolSize` are the initial pool. `emptied` is each block's
      `elementsCompletelyDequeued`; `home` is not part of the program, it records where each block is. */
  datatype State = State(
    size: nat, poolSize: nat, poolIndex: nat, free: set<nat>, emptied: seq<nat>,
    producers: seq<Producer>, consumers: seq<Consumer>, home: seq<Place>)

  datatype Place = InPool | InFreeList | InHand(p: nat) | Leased(p: nat, k: nat) | InReturn(c: nat)

  datatype Move =
    | FromPool(p: nat) | FromFree(p: nat, b: nat) | NewBlock(p: nat)
    | Enter(p: nat, b: nat) | TakeBack(p: nat) | GiveBack(p: nat, b: nat) | Publish(p: nat, n: nat)
    | Claim(c: nat, p: nat, n: nat) | LookUp(c: nat) | Complete(c: nat) | Clear(c: nat) | AddFree(c: nat)

  // ---------------------------------------------------------------- steps

  predicate Shape(s: State) {
    && s.size > 0 && |s.emptied| == |s.home| >= s.poolSize
    && (forall c | 0 <= c < |s.consumers| && !s.consumers[c].Idle? :: s.consumers[c].p < |s.producers|)
  }

  predicate Enabled(s: State, m: Move)
    requires Shape(s)
  {
    match m
    case FromPool(p) => p < |s.producers|
    case FromFree(p, b) => p < |s.producers| && b in s.free && b < |s.home|
    case NewBlock(p) => p < |s.producers|
    case Enter(p, b) => p < |s.producers| && b in s.producers[p].hand && b < |s.home|
    case TakeBack(p) => CanTakeBack(s, p)
    case GiveBack(p, b) => p < |s.producers| && b in s.producers[p].hand && b < |s.home|
    case Publish(p, n) => p < |s.producers| && s.producers[p].tail + n <= First(s.producers[p].next, s.size)
    case Claim(c, p, n) =>
      && c < |s.consumers| && p < |s.producers| && s.consumers[c].Idle?
      && n > 0 && s.producers[p].head + n <= s.producers[p].tail
    case LookUp(c) => CanLookUp(s, c)
    case Complete(c) => c < |s.consumers| && s.consumers[c].Reading? && s.consumers[c].at <= s.consumers[c].end && s.consumers[c].block < |s.home|
    case Clear(c) => c < |s.consumers| && s.consumers[c].Clearing? && s.consumers[c].block < |s.home|
    case AddFree(c) => c < |s.consumers| && s.consumers[c].Returning? && s.consumers[c].block < |s.home|
  }

  /** Only what has not been published can be taken back. */
  predicate CanTakeBack(s: State, p: nat)
    requires Shape(s)
  {
    && p < |s.producers|
    && var q := s.producers[p];
       q.next > 0 && First(q.next - 1, s.size) >= q.tail && q.next - 1 in q.entries && q.entries[q.next - 1] < |s.home|
  }

  /** A consumer can look up its block only if there is an entry for it; there always is one. */
  predicate CanLookUp(s: State, c: nat)
    requires Shape(s)
  {
    && c < |s.consumers| && s.consumers[c].Working?
    && BlockNo(s.consumers[c].at, s.size) in s.producers[s.consumers[c].p].entries
  }

  /** Going on with the indices `at..to`. */
  function Rest(p: nat, at: nat, to: nat): Consumer {
    if at == to then Idle else Working(p, at, to)
  }

  function SetProducer(s: State, p: nat, q: Producer): State
    requires p < |s.producers|
  {
    s.(producers := s.producers[p := q])
  }

  function SetConsumer(s: State, c: nat, x: Consumer): State
    requires c < |s.consumers|
  {
    s.(consumers := s.consumers[c := x])
  }

  function Moved(s: State, b: nat, place: Place): State
    requires b < |s.home|
  {
    s.(home := s.home[b := place])
  }

  function Step(s: State, m: Move): State
    requires Shape(s) && Enabled(s, m)
  {
    match m
    case FromPool(p) =>
      var b, q := s.poolIndex, s.producers[p];
      if b < s.poolSize then
        Moved(SetProducer(s.(poolIndex := b + 1), p, q.(hand := q.hand + {b})), b, InHand(p))
      else s.(poolIndex := b + 1)
    case FromFree(p, b) =>
      var q := s.producers[p];
      Moved(SetProducer(s.(free := s.free - {b}), p, q.(hand := q.hand + {b})), b, InHand(p))
    case NewBlock(p) =>
      var q := s.producers[p];
      SetProducer(s.(emptied := s.emptied + [0], home := s.home + [InHand(p)]), p, q.(hand := q.hand + {|s.home|}))
    case Enter(p, b) =>
      var q := s.producers[p];
      var q' := q.(hand := q.hand - {b}, entries := q.entries[q.next := b], next := q.next + 1);
      Moved(SetProducer(s.(emptied := s.emptied[b := 0]), p, q'), b, Leased(p, q.next))
    case TakeBack(p) =>
      var q := s.producers[p];
      var k := q.next - 1;
      var b := q.entries[k];
      Moved(SetProducer(s, p, q.(hand := q.hand + {b}, entries := q.entries - {k}, next := k)), b, InHand(p))
    case GiveBack(p, b) =>
      var q := s.producers[p];
      Moved(SetProducer(s.(free := s.free + {b}), p, q.(hand := q.hand - {b})), b, InFreeList)
    case Publish(p, n) => SetProducer(s, p, s.producers[p].(tail := s.producers[p].tail + n))
    case Claim(c, p, n) =>
      var q := s.producers[p];
      SetConsumer(SetProducer(s, p, q.(head := q.head + n)), c, Working(p, q.head, q.head + n))
    case LookUp(c) =>
      var Working(p, at, to) := s.consumers[c];
      var k := BlockNo(at, s.size);
      var stop := First(k, s.size) + s.size;
      SetConsumer(s, c, Reading(p, at, to, if to < stop then to else stop, s.producers[p].entries[k]))
    case Complete(c) =>
      var Reading(p, at, to, end, b) := s.consumers[c];
      var q := s.producers[p];
      var total := s.emptied[b] + (end - at);
      var s' := SetProducer(s.(emptied := s.emptied[b := total]), p, q.(done := q.done + Range(at, end)));
      SetConsumer(s', c, if total == s.size then Clearing(p, end, to, BlockNo(at, s.size), b) else Rest(p, end, to))
    case Clear(c) =>
      var Clearing(p, at, to, k, b) := s.consumers[c];
      var q := s.producers[p];
      Moved(SetConsumer(SetProducer(s, p, q.(entries := q.entries - {k})), c, Returning(p, at, to, b)), b, InReturn(c))
    case AddFree(c) =>
      var Returning(p, at, to, b) := s.consumers[c];
      Moved(SetConsumer(s.(free := s.free + {b}), c, Rest(p, at, to)), b, InFreeList)
  }

  function Start(size: nat, poolSize: nat, producers: nat, consumers: nat): State {
    State(size, poolSize, 0, {}, seq(poolSize, _ => 0),
          seq(producers, _ => Producer(0, 0, 0, map[], {}, {})), seq(consumers, _ => Idle), seq(poolSize, _ => InPool))
  }

  // ---------------------------------------------------------------- invariant

  /** Where the program's own data say block `b` is. */
  predicate Located(s: State, b: nat, place: Place) {
    match place
    case InPool => s.poolIndex <= b < s.poolSize
    case InFreeList => b in s.free
    case InHand(p) => p < |s.producers| && b in s.producers[p].hand
    case Leased(p, k) => p < |s.producers| && k in s.producers[p].entries && s.producers[p].entries[k] == b
    case InReturn(c) => c < |s.consumers| && s.consumers[c].Returning? && s.consumers[c].block == b
  }

  /** Every block is where `home` says, and nowhere else. */
  ghost predicate Homes(s: State) {
    && (forall b: nat, place | Located(s, b, place) :: b < |s.home| && s.home[b] == place)
    && (forall b | 0 <= b < |s.home| :: Located(s, b, s.home[b]))
  }

  /** The emptied slots of block number `k`. */
  function Emptied(q: Producer, k: nat, size: nat): nat { Count(q.done, First(k, size), size) }

  predicate ProducerOk(q: Producer, emptied: seq<nat>, size: nat) {
    && q.head <= q.tail <= First(q.next, size)
    && (forall i | i in q.done :: i < q.head)
    && (forall k | k in q.entries :: k < q.next && q.entries[k] < |emptied| && emptied[q.entries[k]] == Emptied(q, k, size))
    && (forall k: nat | k < q.next && Emptied(q, k, size) < size :: k in q.entries)
  }

  /** A consumer's indices are claimed and not yet done, and its block is the right one. */
  predicate ConsumerFits(x: Consumer, q: Producer, size: nat)
    requires size > 0 && !x.Idle?
  {
    && x.at <= x.to <= q.head
    && (forall i | x.at <= i < x.to :: i !in q.done)
    && match x
       case Working(_, at, to) => at < to
       case Reading(_, at, to, end, b) =>
         var k := BlockNo(at, size);
         at < end <= to && end <= First(k, size) + size && k in q.entries && q.entries[k] == b
       case Clearing(_, _, _, k, b) => k in q.entries && q.entries[k] == b && Emptied(q, k, size) == size
       case _ => true
  }

  predicate ConsumerOk(s: State, c: nat)
    requires Shape(s) && c < |s.consumers|
  {
    s.consumers[c].Idle? || ConsumerFits(s.consumers[c], s.producers[s.consumers[c].p], s.size)
  }

  predicate RangesApart(x: Consumer, y: Consumer)
    requires !x.Idle? && !y.Idle?
  {
    x.to <= y.at || y.to <= x.at || x.at == x.to || y.at == y.to
  }

  /** No index belongs to two consumers, and no block is cleared by two. */
  predicate Disjoint(s: State) {
    forall c, d | 0 <= c < d < |s.consumers| :: NoClash(s.consumers[c], s.consumers[d])
  }

  predicate NoClash(x: Consumer, y: Consumer) {
    !x.Idle? && !y.Idle? && x.p == y.p ==>
      RangesApart(x, y) && (x.Clearing? && y.Clearing? ==> x.k != y.k)
  }

  /** A block all of whose slots are empty is about to be cleared by somebody. */
  ghost predicate NoLeak(s: State) {
    forall p, k | 0 <= p < |s.producers| && k in s.producers[p].entries && Emptied(s.producers[p], k, s.size) == s.size ::
      exists c :: 0 <= c < |s.consumers| && s.consumers[c].Clearing? && s.consumers[c].p == p && s.consumers[c].k == k
  }

  ghost predicate Inv(s: State) {
    && Shape(s) && Homes(s)
    && (forall p | 0 <= p < |s.producers| :: ProducerOk(s.producers[p], s.emptied, s.size))
    && (forall c | 0 <= c < |s.consumers| :: ConsumerOk(s, c))
    && Disjoint(s) && NoLeak(s)
  }
}
