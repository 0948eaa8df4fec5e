/** A whole concurrent queue of implicit producers: the ticket counters, the block indexes and the blocks of
    `DequeueTickets`, `BlockLookup` and `BlockLeases` run as one, with the slots the elements are built in
    (include/concurentqueue/concurrentqueue.h:2317-2704). What each of the three takes for granted, the other two
    have to provide. */
module SharedQueue {
  import opened Options
  import opened Slots
  import T = DequeueTickets
  import TP = DequeueTicketsProof
  import L = BlockLeases
  import X = BlockLookup

  /** A producer's counters and index. `values` are the blocks its index entries point at, `building` the elements
      constructed and not yet published. */
  datatype Sub<E> = Sub(tickets: T.State<E>, index: X.State, values: seq<nat>, building: seq<E>)

  /** Who read an index, and what. */
  datatype Got<E> = Got(taker: nat, value: E)

  /** `cells` are the live elements, by block and slot; consumer `c`, while it reads a block, has read up to
      `reading[c]`; `seen` is not part of the program, it records what was read, by producer and index. */
  datatype State<E> = State(
    leases: L.State, subs: seq<Sub<E>>, cells: map<(nat, nat), E>, reading: seq<nat>, seen: map<(nat, nat), Got<E>>)

  datatype Move<E> =
    // a producer
    | Obtain(from: L.Move)                        // a block from the pool, the free list or memory, or back
    | StoreKey(p: nat) | StoreTail(p: nat) | Grow(p: nat)
    | StoreValue(p: nat, b: nat)                  // the new entry gets a block in hand
    | DropEntry(p: nat)                           // no block could be had for it
    | TakeBack(p: nat)                            // a bulk enqueue gives up
    | Build(p: nat, e: E)
    | Publish(p: nat)
    // a consumer
    | Ask(c: nat, p: nat, max: nat)
    | Count(c: nat, p: nat)                       // a step of the counters
    | Claim(c: nat, p: nat)                       // the one that advances the head
    | LoadHeader(c: nat) | LoadTail(c: nat) | LoadKey(c: nat)
    | LookUp(c: nat)
    | Read(c: nat)
    | Complete(c: nat) | Clear(c: nat) | AddFree(c: nat)

  // ---------------------------------------------------------------- what holds

  ghost predicate Sizes<E>(s: State<E>) {
    && L.Shape(s.leases)
    && |s.subs| == |s.leases.producers| && |s.reading| == |s.leases.consumers|
    && forall p | 0 <= p < |s.subs| :: SubSizes(s.subs[p], s.leases.size, |s.reading|)
  }

  predicate SubSizes<E>(sub: Sub<E>, size: nat, consumers: nat) {
    && |sub.tickets.threads| == |sub.index.readers| == consumers
    && sub.index.width.blockSize == size && |sub.values| == |sub.index.keys|
  }

  ghost predicate Machines<E>(s: State<E>) {
    && L.Inv(s.leases)
    && forall p | 0 <= p < |s.subs| :: T.Inv(s.subs[p].tickets) && X.Inv(s.subs[p].index)
  }

  /** The three machines mean the same indices and blocks. */
  predicate Joined<E>(q: L.Producer, sub: Sub<E>, size: nat) {
    && q.head == sub.tickets.head && q.tail == |sub.tickets.items|
    && q.next == sub.index.next - (if sub.index.producer.TailStored? then 1 else 0)
    && q.tail + |sub.building| <= First(q.next, size)
    && q.tail <= First(sub.index.published, size)
  }

  /** Block `k` has an entry with a block, published or not. */
  predicate HasEntry(x: X.State, k: nat)
    requires X.Shape(x)
  {
    k < x.next && x.next - k <= x.live <= |x.keys| && x.full[X.Order(x)[X.Position(x, k)]]
  }

  function EntryAt(x: X.State, k: nat): (e: nat)
    requires X.Shape(x) && HasEntry(x, k)
    ensures e < |x.keys|
  {
    X.Order(x)[X.Position(x, k)]
  }

  /** The entries of the index point at the blocks the leases say. */
  predicate Stored(entries: map<nat, nat>, x: X.State, values: seq<nat>)
    requires X.Shape(x) && |values| == |x.keys|
  {
    forall k | k in entries :: HasEntry(x, k) && values[EntryAt(x, k)] == entries[k]
  }

  /** A consumer looks up exactly the blocks of the indices it owns. */
  predicate ReaderFits(x: L.Consumer, p: nat, r: X.Reader, size: nat)
    requires size > 0
  {
    if !x.Idle? && x.p == p && x.at < x.to then
      !r.Idle? && r.block == BlockNo(x.at, size) && r.last == BlockNo(x.to - 1, size) && (!x.Working? ==> r.Found?)
    else r.Idle?
  }

  /** It reads a block to its end, or as far as it owns it. */
  predicate ReadingFits(x: L.Consumer, upto: nat, size: nat)
    requires size > 0
  {
    x.Reading? ==> x.at <= upto <= x.end && (x.end == x.to || x.end == First(BlockNo(x.at, size), size) + size)
  }

  /** A consumer that draws tickets asks for at least one element. */
  predicate Wants(l: T.Local) { TP.Wants(l, true) }

  /** It does so at one producer at a time, and owns nothing yet. */
  predicate OneCall<E>(s: State<E>, c: nat)
    requires c < |s.leases.consumers| && forall p | 0 <= p < |s.subs| :: c < |s.subs[p].tickets.threads|
  {
    && (forall p | 0 <= p < |s.subs| :: Wants(s.subs[p].tickets.threads[c]))
    && (forall p | 0 <= p < |s.subs| && !s.subs[p].tickets.threads[c].Idle? :: s.leases.consumers[c].Idle?)
    && (forall p, q | 0 <= p < q < |s.subs| ::
          s.subs[p].tickets.threads[c].Idle? || s.subs[q].tickets.threads[c].Idle?)
  }

  /** The consumer owns index `i` of producer `p`. */
  predicate Owns(x: L.Consumer, p: nat, i: nat) { !x.Idle? && x.p == p && x.at <= i < x.to }

  /** The indices consumer `c` owns are those it advanced the head over. */
  predicate TakerOf(x: L.Consumer, c: nat, takers: seq<nat>) {
    !x.Idle? ==> x.to <= |takers| && forall i | x.at <= i < x.to :: takers[i] == c
  }

  /** Every index below the head is done with, or still belongs to its taker. */
  predicate NoneDropped<E>(s: State<E>, p: nat)
    requires p < |s.subs| == |s.leases.producers|
  {
    forall i: nat | i < |s.subs[p].tickets.takers| && i !in s.leases.producers[p].done ::
      var c := s.subs[p].tickets.takers[i];
      c < |s.leases.consumers| && Owns(s.leases.consumers[c], p, i)
  }

  ghost predicate Consumers<E>(s: State<E>)
    requires Sizes(s)
  {
    && (forall c | 0 <= c < |s.leases.consumers| :: ConsumerFits(s, c))
    && (forall p | 0 <= p < |s.subs| :: NoneDropped(s, p))
  }

  ghost predicate ConsumerFits<E>(s: State<E>, c: nat)
    requires Sizes(s) && c < |s.leases.consumers|
  {
    var x := s.leases.consumers[c];
    && ReadingFits(x, s.reading[c], s.leases.size) && OneCall(s, c)
    && (!x.Idle? ==> x.p < |s.subs| && TakerOf(x, c, s.subs[x.p].tickets.takers))
    && forall p | 0 <= p < |s.subs| :: ReaderFits(x, p, s.subs[p].index.readers[c], s.leases.size)
  }

  ghost predicate Producers<E>(s: State<E>)
    requires Sizes(s) && Machines(s)
  {
    forall p | 0 <= p < |s.subs| :: ProducerFits(s.leases.producers[p], s.subs[p], s.leases.size)
  }

  ghost predicate ProducerFits<E>(q: L.Producer, sub: Sub<E>, size: nat)
    requires X.Shape(sub.index) && |sub.values| == |sub.index.keys|
  {
    Joined(q, sub, size) && Stored(q.entries, sub.index, sub.values)
  }

  /** The machines fit together. */
  ghost predicate Fits<E>(s: State<E>) { Sizes(s) && Machines(s) && Producers(s) && Consumers(s) }

  // ---------------------------------------------------------------- which machine does what

  /** The producer a move is about. */
  function Whose<E>(s: State<E>, m: Move<E>): nat {
    match m
    case Obtain(from) => (
      match from
      case FromPool(p) => p
      case FromFree(p, _) => p
      case NewBlock(p) => p
      case GiveBack(p, _) => p
      case _ => 0)
    case StoreKey(p) => p
    case StoreTail(p) => p
    case Grow(p) => p
    case StoreValue(p, _) => p
    case DropEntry(p) => p
    case TakeBack(p) => p
    case Build(p, _) => p
    case Publish(p) => p
    case Ask(_, p, _) => p
    case Count(_, p) => p
    case Claim(_, p) => p
    case LoadHeader(c) => Serving(s, c)
    case LoadTail(c) => Serving(s, c)
    case LoadKey(c) => Serving(s, c)
    case LookUp(c) => Serving(s, c)
    case Read(c) => Serving(s, c)
    case Complete(c) => Serving(s, c)
    case Clear(c) => Serving(s, c)
    case AddFree(c) => Serving(s, c)
  }

  function Serving<E>(s: State<E>, c: nat): nat {
    if c < |s.leases.consumers| && !s.leases.consumers[c].Idle? then s.leases.consumers[c].p else 0
  }

  predicate AtRest<E>(s: State<E>, c: nat) {
    && c < |s.leases.consumers| && s.leases.consumers[c].Idle?
    && forall p | 0 <= p < |s.subs| && c < |s.subs[p].tickets.threads| :: s.subs[p].tickets.threads[c].Idle?
  }

  /** The thread is there, and what it waits for has come. */
  ghost predicate Ready<E>(s: State<E>, m: Move<E>)
    requires Sizes(s) && Machines(s)
  {
    match m
    case Obtain(from) => (from.FromPool? || from.FromFree? || from.NewBlock? || from.GiveBack?) && L.Enabled(s.leases, from)
    case StoreKey(p) => p < |s.subs| && X.Enabled(s.subs[p].index, X.StoreKey)
    case StoreTail(p) => p < |s.subs| && s.subs[p].index.producer.KeyStored?
    case Grow(p) => p < |s.subs| && X.Enabled(s.subs[p].index, X.Grow)
    case StoreValue(p, b) => p < |s.subs| && s.subs[p].index.producer.TailStored? && b in s.leases.producers[p].hand
    case DropEntry(p) => p < |s.subs| && s.subs[p].index.producer.TailStored?
    case TakeBack(p) =>
      && p < |s.subs| && s.subs[p].index.producer.Quiet? && s.subs[p].index.next > s.subs[p].index.published
      && s.subs[p].building == []
    case Build(p, _) =>
      && p < |s.subs|
      && s.leases.producers[p].tail + |s.subs[p].building| < First(s.leases.producers[p].next, s.leases.size)
    case Publish(p) => p < |s.subs| && s.subs[p].index.producer.Quiet?
    case Ask(c, p, max) => p < |s.subs| && AtRest(s, c) && max > 0
    case Count(c, p) =>
      && p < |s.subs| && c < |s.reading|
      && !s.subs[p].tickets.threads[c].Idle? && !s.subs[p].tickets.threads[c].Claim?
    case Claim(c, p) => p < |s.subs| && c < |s.reading| && s.subs[p].tickets.threads[c].Claim?
    case LoadHeader(c) => LooksUp(s, c) && ReaderOf(s, c).Claimed?
    case LoadTail(c) => LooksUp(s, c) && ReaderOf(s, c).HasHeader?
    case LoadKey(c) => LooksUp(s, c) && ReaderOf(s, c).HasTail?
    case LookUp(c) => LooksUp(s, c) && ReaderOf(s, c).Found?
    case Read(c) => c < |s.reading| && s.leases.consumers[c].Reading? && s.reading[c] < s.leases.consumers[c].end
    case Complete(c) => c < |s.reading| && s.leases.consumers[c].Reading? && s.reading[c] == s.leases.consumers[c].end
    case Clear(c) => c < |s.reading| && s.leases.consumers[c].Clearing?
    case AddFree(c) => c < |s.reading| && s.leases.consumers[c].Returning?
  }

  predicate LooksUp<E>(s: State<E>, c: nat) {
    && c < |s.leases.consumers| && s.leases.consumers[c].Working?
    && s.leases.consumers[c].p < |s.subs| && c < |s.subs[s.leases.consumers[c].p].index.readers|
  }

  function ReaderOf<E>(s: State<E>, c: nat): X.Reader
    requires LooksUp(s, c)
  {
    s.subs[s.leases.consumers[c].p].index.readers[c]
  }

  function LeaseMove<E>(s: State<E>, m: Move<E>): Option<L.Move>
    requires Whose(s, m) < |s.subs|
  {
    var sub := s.subs[Whose(s, m)];
    match m
    case Obtain(from) => Some(from)
    case StoreValue(p, b) => Some(L.Enter(p, b))
    case TakeBack(p) => Some(L.TakeBack(p))
    case Publish(p) => Some(L.Publish(p, |sub.building|))
    case Claim(c, p) => if Won(sub, c) then Some(L.Claim(c, p, sub.tickets.threads[c].got)) else None
    case LookUp(c) => Some(L.LookUp(c))
    case Complete(c) => Some(L.Complete(c))
    case Clear(c) => Some(L.Clear(c))
    case AddFree(c) => Some(L.AddFree(c))
    case _ => None
  }

  predicate Won<E>(sub: Sub<E>, c: nat) { c < |sub.tickets.threads| && sub.tickets.threads[c].Claim? }

  ghost function IndexMove<E>(s: State<E>, m: Move<E>): Option<X.Move>
    requires Sizes(s) && Whose(s, m) < |s.subs|
  {
    var sub := s.subs[Whose(s, m)];
    match m
    case StoreKey(p) => Some(X.StoreKey)
    case StoreTail(p) => Some(X.StoreTail)
    case Grow(p) => Some(X.Grow)
    case StoreValue(p, b) => Some(X.StoreValue)
    case DropEntry(p) => Some(X.Rewind)
    case TakeBack(p) => Some(X.Rewind)
    case Publish(p) => Some(X.Publish)
    case Claim(c, p) =>
      if Won(sub, c) && sub.tickets.threads[c].got > 0 then
        Some(X.Claim(c, BlockNo(sub.tickets.head, s.leases.size),
                     BlockNo(sub.tickets.head + sub.tickets.threads[c].got - 1, s.leases.size)))
      else None
    case LoadHeader(c) => Some(X.LoadHeader(c))
    case LoadTail(c) => Some(X.LoadTail(c))
    case LoadKey(c) => Some(X.LoadKey(c))
    case Complete(c) =>
      if c < |s.leases.consumers| && s.leases.consumers[c].Reading? then
        Some(if s.leases.consumers[c].end == s.leases.consumers[c].to then X.Finish(c) else X.Next(c))
      else None
    case Clear(c) =>
      if c < |s.leases.consumers| && s.leases.consumers[c].Clearing? then Some(X.Free(s.leases.consumers[c].k)) else None
    case _ => None
  }

  function TicketMove<E>(s: State<E>, m: Move<E>): Option<TP.Action<E>>
    requires Whose(s, m) < |s.subs|
  {
    match m
    case Publish(p) => Some(TP.Put(s.subs[p].building))
    case Ask(c, p, max) => Some(TP.Ask(c, max))
    case Count(c, p) => Some(TP.Go(c))
    case Claim(c, p) => Some(TP.Go(c))
    case _ => None
  }

  /** No machine is asked for a step that it has reason to refuse. */
  ghost predicate Fires<E>(s: State<E>, m: Move<E>)
    requires Sizes(s) && Machines(s)
  {
    var p := Whose(s, m);
    && p < |s.subs|
    && (LeaseMove(s, m).Some? ==> L.Enabled(s.leases, LeaseMove(s, m).value))
    && (IndexMove(s, m).Some? ==> X.Enabled(s.subs[p].index, IndexMove(s, m).value))
    && (TicketMove(s, m).Some? ==> TP.Enabled(s.subs[p].tickets, TicketMove(s, m).value))
    && SlotReady(s, m) && BlockReady(s, m)
  }

  /** The entry a consumer has found points at the block leased for its index. */
  ghost predicate BlockReady<E>(s: State<E>, m: Move<E>)
    requires Sizes(s)
  {
    m.LookUp? ==>
      && LooksUp(s, m.c) && ReaderOf(s, m.c).Found? && L.CanLookUp(s.leases, m.c)
      && var p := s.leases.consumers[m.c].p;
         && ReaderOf(s, m.c).entry < |s.subs[p].values|
         && s.subs[p].values[ReaderOf(s, m.c).entry] ==
            s.leases.producers[p].entries[BlockNo(s.leases.consumers[m.c].at, s.leases.size)]
  }

  /** The slot of index `i` in the block that the leases have for it. */
  predicate HasSlot<E>(s: State<E>, p: nat, i: nat)
    requires s.leases.size > 0
  {
    p < |s.leases.producers| && BlockNo(i, s.leases.size) in s.leases.producers[p].entries
  }

  function SlotAt<E>(s: State<E>, p: nat, i: nat): (nat, nat)
    requires s.leases.size > 0 && HasSlot(s, p, i)
  {
    (s.leases.producers[p].entries[BlockNo(i, s.leases.size)], Offset(i, s.leases.size))
  }

  function NextBuilt<E>(s: State<E>, p: nat): nat
    requires p < |s.subs| == |s.leases.producers|
  {
    s.leases.producers[p].tail + |s.subs[p].building|
  }

  /** The slot of the element the consumer reads next, in the block it has looked up. */
  ghost function SlotRead<E>(s: State<E>, c: nat): (nat, nat)
    requires Sizes(s) && c < |s.reading| && s.leases.consumers[c].Reading?
  {
    (s.leases.consumers[c].block, Offset(s.reading[c], s.leases.size))
  }

  /** An element is built in a dead slot and read from a live one. */
  ghost predicate SlotReady<E>(s: State<E>, m: Move<E>)
    requires Sizes(s)
  {
    match m
    case Build(p, _) => p < |s.subs| && HasSlot(s, p, NextBuilt(s, p)) && SlotAt(s, p, NextBuilt(s, p)) !in s.cells
    case Read(c) => c < |s.reading| && s.leases.consumers[c].Reading? && SlotRead(s, c) in s.cells
    case _ => true
  }

  // ---------------------------------------------------------------- elements

  /** All that was ever put in, and what is being put in. */
  function All<E>(sub: Sub<E>): seq<E> { sub.tickets.items + sub.building }

  /** The taker of index `i` has read it, and is still reading the block. */
  predicate Taken<E>(s: State<E>, p: nat, i: nat)
    requires p < |s.subs|
  {
    && i < |s.subs[p].tickets.takers|
    && var c := s.subs[p].tickets.takers[i];
       && c < |s.leases.consumers| && c < |s.reading| && s.leases.consumers[c].Reading?
       && s.leases.consumers[c].p == p && s.leases.consumers[c].at <= i < s.reading[c]
  }

  predicate Gone<E>(s: State<E>, p: nat, i: nat)
    requires p < |s.subs| && p < |s.leases.producers|
  {
    i in s.leases.producers[p].done || Taken(s, p, i)
  }

  /** The element of index `i` has been built and not read. */
  predicate Filled<E>(s: State<E>, p: nat, i: nat)
    requires p < |s.subs| == |s.leases.producers|
  {
    i < NextBuilt(s, p) && !Gone(s, p, i)
  }

  /** It is where the leases have its block. */
  ghost predicate InPlace<E>(s: State<E>, p: nat, i: nat)
    requires s.leases.size > 0 && p < |s.subs|
  {
    HasSlot(s, p, i) && SlotAt(s, p, i) in s.cells && i < |All(s.subs[p])| && s.cells[SlotAt(s, p, i)] == All(s.subs[p])[i]
  }

  /** A live slot is that of a filled index, in a block leased for it. */
  ghost predicate Accounted<E>(s: State<E>, slot: (nat, nat))
    requires Sizes(s)
  {
    && slot.1 < s.leases.size && slot.0 < |s.leases.home| && s.leases.home[slot.0].Leased?
    && s.leases.home[slot.0].p < |s.subs|
    && Filled(s, s.leases.home[slot.0].p, First(s.leases.home[slot.0].k, s.leases.size) + slot.1)
  }

  ghost predicate Cells<E>(s: State<E>)
    requires Sizes(s)
  {
    && (forall p, i: nat | 0 <= p < |s.subs| && Filled(s, p, i) :: InPlace(s, p, i))
    && (forall slot | slot in s.cells :: Accounted(s, slot))
  }

  /** Exactly what is gone has been read, by its taker, and what was read is what was put in. */
  ghost predicate Records<E>(s: State<E>)
    requires Sizes(s)
  {
    && (forall key | key in s.seen :: key.0 < |s.subs| && Gone(s, key.0, key.1))
    && (forall p, i: nat | 0 <= p < |s.subs| && Gone(s, p, i) :: (p, i) in s.seen && Recorded(s.subs[p], i, s.seen[(p, i)]))
  }

  ghost predicate Recorded<E>(sub: Sub<E>, i: nat, got: Got<E>) {
    i < |sub.tickets.takers| && i < |sub.tickets.items| && got == Got(sub.tickets.takers[i], sub.tickets.items[i])
  }

  ghost predicate Inv<E>(s: State<E>) { Fits(s) && Cells(s) && Records(s) }

  // ---------------------------------------------------------------- steps

  ghost function LeasesAfter<E>(s: State<E>, m: Move<E>): L.State
    requires Sizes(s) && Machines(s) && Fires(s, m)
  {
    if LeaseMove(s, m).Some? then L.Step(s.leases, LeaseMove(s, m).value) else s.leases
  }

  ghost function SubAfter<E>(s: State<E>, m: Move<E>): Sub<E>
    requires Sizes(s) && Machines(s) && Fires(s, m)
  {
    var sub := s.subs[Whose(s, m)];
    Sub(if TicketMove(s, m).Some? then TP.Apply(sub.tickets, TicketMove(s, m).value) else sub.tickets,
        if IndexMove(s, m).Some? then X.Step(sub.index, IndexMove(s, m).value) else sub.index,
        ValuesAfter(s, m),
        if m.Build? then sub.building + [m.e] else if m.Publish? then [] else sub.building)
  }

  ghost function ValuesAfter<E>(s: State<E>, m: Move<E>): seq<nat>
    requires Sizes(s) && Whose(s, m) < |s.subs| && X.Shape(s.subs[Whose(s, m)].index)
  {
    var sub := s.subs[Whose(s, m)];
    match m
    case StoreValue(_, b) => sub.values[X.Order(sub.index)[|sub.index.keys| - 1] := b]
    case Grow(_) => sub.values + seq(|sub.values|, _ => 0)
    case _ => sub.values
  }

  ghost function Step<E>(s: State<E>, m: Move<E>): State<E>
    requires Sizes(s) && Machines(s) && Fires(s, m)
  {
    var s' := s.(leases := LeasesAfter(s, m), subs := s.subs[Whose(s, m) := SubAfter(s, m)]);
    match m
    case Build(p, e) => s'.(cells := s.cells[SlotAt(s, p, NextBuilt(s, p)) := e])
    case LookUp(c) => s'.(reading := s.reading[c := s.leases.consumers[c].at])
    case Read(c) =>
      s'.(cells := s.cells - {SlotRead(s, c)}, reading := s.reading[c := s.reading[c] + 1],
          seen := s.seen[(s.leases.consumers[c].p, s.reading[c]) := Got(c, s.cells[SlotRead(s, c)])])
    case _ => s'
  }
}
