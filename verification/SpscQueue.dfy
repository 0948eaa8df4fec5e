/** ReaderWriterQueue as a state machine: one producer, one consumer, a ring of blocks.
    A step is one access to a location the other thread writes or reads, together with the
    accesses to locations that only the stepping thread writes. */
module SpscQueue {
  import opened RingBlock

  datatype ConsumerOp = Dequeue | Pop | Peek

  datatype ProducerResult =
    | NothingYet
    | Stored
    | NoRoom
    | OutOfMemory

  /** Where the producer stands inside `inner_enqueue`. */
  datatype Producer<T> =
    | PIdle(result: ProducerResult)
    | PRefresh(e: T, canAlloc: bool)              // the shadow says full: reload front
    | PBuild(e: T)                                // room: construct in the tail block
    | PPublish(e: T)                              // store tail
    | PFull(e: T, canAlloc: bool)                 // compare tailBlock->next with frontBlock
    | PReuse(e: T, nb: nat)                       // free block ahead: reload its front
    | PReuseBuild(e: T, nb: nat)                  // construct in it
    | PReusePublish(e: T, nb: nat)                // store its tail
    | PAlloc(e: T)                                // make a new block holding the element
    | PLink(e: T, nb: nat)                        // tailBlock->next = newBlock
    | PSwing(e: T, nb: nat)                       // tailBlock = that block

  datatype ConsumerResult<T> =
    | NothingAsked
    | Empty
    | Removed(value: T)
    | Front(value: T)

  /** Where the consumer stands inside `try_dequeue`, `pop` or `peek`. */
  datatype Consumer<T> =
    | CIdle(answer: ConsumerResult<T>)
    | CRefresh(op: ConsumerOp)                    // the shadow says empty: reload tail
    | CCheck(op: ConsumerOp)                      // compare frontBlock with tailBlock
    | CReload(op: ConsumerOp)                     // double check: reload tail once more
    | CNext(op: ConsumerOp)                       // read frontBlock->next
    | CEnter(op: ConsumerOp, nb: nat)             // read that block's indices
    | CAdvance(op: ConsumerOp, nb: nat)           // frontBlock = that block
    | CFound(op: ConsumerOp)                      // front block not empty: move the element out
    | CPublish(value: T)                          // store front

  /** The last three lines are auxiliary: no step reads them to decide anything.
      `ring` lists the blocks from the front block on, `ring[at]` is the tail block; `enq` and `deq`
      are all the elements that ever entered and left; `peeked` is what a peek has shown and is still
      queued; `seen` is the larger of the numbers of elements present at the two moments the current
      enqueue looked at the consumer's variables, `wasEmpty` says whether the queue was empty at the
      moment the current consumer call reloaded the front block's tail. */
  datatype State<T> = State(
    blocks: seq<Block<T>>, frontBlock: nat, tailBlock: nat, largest: nat, maxBlockSize: nat,
    prod: Producer<T>, cons: Consumer<T>,
    ring: seq<nat>, at: nat,
    enq: seq<T>, deq: seq<T>, peeked: seq<T>,
    seen: nat, wasEmpty: bool)

  datatype Action<T> =
    | CallEnqueue(e: T, canAlloc: bool)
    | ProducerStep(mallocOk: bool)
    | CallConsumer(op: ConsumerOp)
    | ConsumerStep

  // ---------------------------------------------------------------- invariant

  type Heap<T> = seq<Block<T>>

  ghost predicate Linked<T>(blocks: Heap<T>, ring: seq<nat>, i: nat)
    requires i < |ring| && ring[i] < |blocks|
  {
    blocks[ring[i]].next == ring[Next(i, |ring|)]
  }

  ghost predicate RingOk<T>(blocks: Heap<T>, ring: seq<nat>) {
    && (forall x | 0 <= x < |blocks| :: blocks[x].InBounds())
    && (forall i | 0 <= i < |ring| :: ring[i] < |blocks|)
    && (forall i, j | 0 <= i < j < |ring| :: ring[i] != ring[j])
    && (forall i | 0 <= i < |ring| :: Linked(blocks, ring, i))
  }

  ghost predicate Shape<T>(s: State<T>) {
    && 2 <= s.largest
    && RingOk(s.blocks, s.ring)
    && s.at < |s.ring|
    && s.frontBlock == s.ring[0] && s.tailBlock == s.ring[s.at]
  }

  /** Blocks past the front one up to the tail block hold elements, those strictly between are
      full, and those the producer can step onto are empty (up to the one it is about to enter). */
  ghost predicate Filling<T>(blocks: Heap<T>, ring: seq<nat>, at: nat, entering: bool)
    requires RingOk(blocks, ring) && at < |ring|
  {
    && (forall i | 1 <= i <= at :: !blocks[ring[i]].IsEmpty())
    && (forall i | 1 <= i < at :: blocks[ring[i]].IsFull())
    && (forall i | at < i < |ring| :: blocks[ring[i]].IsEmpty() || (i == at + 1 && entering))
  }

  /** Element lifetimes in every block of the ring; `built` is the position in the ring of a block
      with an element constructed and not yet published. */
  ghost predicate Lives<T>(blocks: Heap<T>, ring: seq<nat>, frontTaken: bool, built: int)
    requires RingOk(blocks, ring)
  {
    forall i | 0 <= i < |ring| :: blocks[ring[i]].Lifetimes(i == 0 && frontTaken, i == built)
  }

  function BuiltAt<T>(p: Producer<T>, at: nat): int {
    if p.PPublish? then at else if p.PReusePublish? then at + 1 else -1
  }

  /** Past the point where the tail block was found full. */
  predicate PastFull<T>(p: Producer<T>) {
    p.PFull? || p.PReuse? || p.PReuseBuild? || p.PReusePublish? || p.PAlloc? || p.PLink? || p.PSwing?
  }

  /** What the producer knows of the tail block. */
  ghost predicate ProducerTail<T>(p: Producer<T>, tb: Block<T>, at: nat, ringSize: nat, seen: nat)
    requires tb.InBounds()
  {
    && tb.FrontShadowOk()
    && (p.PBuild? || p.PPublish? ==> tb.ShadowRoom())
    && (p.PPublish? ==> tb.cells[tb.tail].value == p.e)
    && (PastFull(p) && at >= 1 ==> tb.IsFull())
    && (p.PFull? && ringSize == 1 ==> seen >= tb.Size() - 1)
  }

  /** What the producer knows of the block it is about to enter. */
  ghost predicate ProducerNext<T>(p: Producer<T>, blocks: Heap<T>, ring: seq<nat>, at: nat)
    requires RingOk(blocks, ring) && at < |ring|
  {
    && (p.PReuse? || p.PReuseBuild? || p.PReusePublish? || p.PSwing? ==>
          at + 1 < |ring| && p.nb == ring[at + 1])
    && (p.PLink? ==>
          && p.nb !in ring && p.nb < |blocks| && blocks[p.nb].next == blocks[ring[at]].next
          && blocks[p.nb].Lifetimes(false, false))
    && (p.PReuseBuild? || p.PReusePublish? ==> blocks[p.nb].localFront == blocks[p.nb].front)
    && (p.PLink? || p.PSwing? ==> blocks[p.nb].FrontShadowOk())
    && (p.PReusePublish? ==> blocks[p.nb].cells[blocks[p.nb].tail].value == p.e)
    && (p.PLink? || p.PSwing? ==> blocks[p.nb].Contents() == [p.e])
  }

  /** What the consumer knows of the front block. */
  ghost predicate ConsumerFront<T>(c: Consumer<T>, fb: Block<T>, at: nat, wasEmpty: bool)
    requires fb.InBounds()
  {
    && fb.TailShadowOk()
    && (c.CFound? || c.CPublish? ==> fb.front != fb.localTail)
    && (c.CPublish? ==> fb.cells[fb.front].value == c.value)
    && (c.CCheck? && at == 0 ==> wasEmpty)
    && (c.CReload? || c.CNext? || c.CEnter? || c.CAdvance? ==> at >= 1)
    && (c.CNext? || c.CEnter? || c.CAdvance? ==> fb.IsEmpty())
    && (c.CIdle? && c.answer.Empty? ==> wasEmpty)
  }

  /** What the consumer knows of the block it is about to enter. */
  ghost predicate ConsumerNext<T>(c: Consumer<T>, blocks: Heap<T>, ring: seq<nat>, at: nat)
    requires RingOk(blocks, ring) && at < |ring|
  {
    && (c.CEnter? || c.CAdvance? ==> at >= 1 && c.nb == ring[1])
    && (c.CAdvance? ==>
          blocks[c.nb].TailShadowOk() && blocks[c.nb].front != blocks[c.nb].localTail)
  }

  ghost predicate Listed<T>(blocks: Heap<T>, ids: seq<nat>) {
    forall i | 0 <= i < |ids| :: ids[i] < |blocks| && blocks[ids[i]].InBounds()
  }

  /** The elements of the listed blocks, in order. */
  ghost function Flat<T>(blocks: Heap<T>, ids: seq<nat>): seq<T>
    requires Listed(blocks, ids)
  {
    if ids == [] then [] else blocks[ids[0]].Contents() + Flat(blocks, ids[1..])
  }

  /** What the queue holds. */
  ghost function Contents<T>(s: State<T>): seq<T>
    requires Shape(s)
  {
    Flat(s.blocks, s.ring[..s.at + 1])
  }

  ghost predicate Fifo<T>(s: State<T>)
    requires Shape(s)
  {
    && s.enq == s.deq + Contents(s)
    && s.peeked <= Contents(s) && |s.peeked| <= 1
    && (s.cons.CCheck? && s.wasEmpty ==> s.peeked == [])
  }

  ghost predicate Inv<T>(s: State<T>) {
    && Shape(s)
    && Filling(s.blocks, s.ring, s.at, s.prod.PSwing?)
    && Lives(s.blocks, s.ring, s.cons.CPublish?, BuiltAt(s.prod, s.at))
    && ProducerTail(s.prod, s.blocks[s.tailBlock], s.at, |s.ring|, s.seen)
    && ProducerNext(s.prod, s.blocks, s.ring, s.at)
    && ConsumerFront(s.cons, s.blocks[s.frontBlock], s.at, s.wasEmpty)
    && ConsumerNext(s.cons, s.blocks, s.ring, s.at)
    && Fifo(s)
  }

  // ---------------------------------------------------------------- steps

  /** A block fresh from `make_block(size)`: the memory keeps whatever bits it had. */
  function NewBlock<T>(next: nat, size: nat, bits: T): (b: Block<T>)
    requires 2 <= size
  {
    Block(0, 0, 0, 0, next, seq(size, i => Cell(false, bits)))
  }

  function GrownSize(largest: nat, maxBlockSize: nat): nat {
    if largest >= maxBlockSize then largest else largest * 2
  }

  /** `inner_enqueue` up to its first look at the consumer's `front`. */
  ghost function StartEnqueue<T>(s: State<T>, e: T, canAlloc: bool): State<T>
    requires Shape(s)
  {
    var tb := s.blocks[s.tailBlock];
    s.(prod := if Next(tb.tail, tb.Size()) != tb.localFront then PBuild(e) else PRefresh(e, canAlloc))
  }

  ghost function RefreshFront<T>(s: State<T>): State<T>
    requires Shape(s) && s.prod.PRefresh?
  {
    var tb := s.blocks[s.tailBlock];
    s.(blocks := s.blocks[s.tailBlock := tb.(localFront := tb.front)],
       prod := if Next(tb.tail, tb.Size()) != tb.front then PBuild(s.prod.e)
               else PFull(s.prod.e, s.prod.canAlloc),
       seen := |Contents(s)|)
  }

  ghost function Build<T>(s: State<T>): State<T>
    requires Shape(s) && s.prod.PBuild?
  {
    var tb := s.blocks[s.tailBlock];
    s.(blocks := s.blocks[s.tailBlock := tb.(cells := tb.cells[tb.tail := Cell(true, s.prod.e)])],
       prod := PPublish(s.prod.e))
  }

  ghost function Publish<T>(s: State<T>): State<T>
    requires Shape(s) && s.prod.PPublish?
  {
    var tb := s.blocks[s.tailBlock];
    s.(blocks := s.blocks[s.tailBlock := tb.(tail := Next(tb.tail, tb.Size()))],
       enq := s.enq + [s.prod.e], prod := PIdle(Stored))
  }

  ghost function CompareWithFront<T>(s: State<T>): State<T>
    requires Shape(s) && s.prod.PFull?
  {
    var nb := s.blocks[s.tailBlock].next;
    s.(prod :=
       if nb != s.frontBlock then PReuse(s.prod.e, nb)
       else if s.prod.canAlloc then PAlloc(s.prod.e)
       else PIdle(NoRoom),
       seen := if s.seen < |Contents(s)| then |Contents(s)| else s.seen)
  }

  ghost function ReuseLoad<T>(s: State<T>): State<T>
    requires Shape(s) && s.prod.PReuse? && s.prod.nb < |s.blocks|
  {
    var b := s.blocks[s.prod.nb];
    s.(blocks := s.blocks[s.prod.nb := b.(localFront := b.front)],
       prod := PReuseBuild(s.prod.e, s.prod.nb))
  }

  ghost function ReuseBuild<T>(s: State<T>): State<T>
    requires Shape(s) && s.prod.PReuseBuild? && s.prod.nb < |s.blocks|
  {
    var b := s.blocks[s.prod.nb];
    s.(blocks := s.blocks[s.prod.nb := b.(cells := b.cells[b.tail := Cell(true, s.prod.e)])],
       prod := PReusePublish(s.prod.e, s.prod.nb))
  }

  ghost function ReusePublish<T>(s: State<T>): State<T>
    requires Shape(s) && s.prod.PReusePublish? && s.prod.nb < |s.blocks|
  {
    var b := s.blocks[s.prod.nb];
    s.(blocks := s.blocks[s.prod.nb := b.(tail := Next(b.tail, b.Size()))],
       prod := PSwing(s.prod.e, s.prod.nb))
  }

  ghost function Alloc<T>(s: State<T>, mallocOk: bool): State<T>
    requires Shape(s) && s.prod.PAlloc? && 2 <= GrownSize(s.largest, s.maxBlockSize)
  {
    if !mallocOk then s.(prod := PIdle(OutOfMemory)) else
    var size := GrownSize(s.largest, s.maxBlockSize);
    var b := NewBlock(s.blocks[s.tailBlock].next, size, s.prod.e);
    s.(largest := size,
       blocks := s.blocks + [b.(cells := b.cells[0 := Cell(true, s.prod.e)], tail := 1, localTail := 1)],
       prod := PLink(s.prod.e, |s.blocks|))
  }

  ghost function Link<T>(s: State<T>): State<T>
    requires Shape(s) && s.prod.PLink?
  {
    s.(blocks := s.blocks[s.tailBlock := s.blocks[s.tailBlock].(next := s.prod.nb)],
       ring := s.ring[..s.at + 1] + [s.prod.nb] + s.ring[s.at + 1..],
       prod := PSwing(s.prod.e, s.prod.nb))
  }

  ghost function Swing<T>(s: State<T>): State<T>
    requires Shape(s) && s.prod.PSwing?
  {
    s.(tailBlock := s.prod.nb, at := s.at + 1, enq := s.enq + [s.prod.e], prod := PIdle(Stored))
  }

  /** `try_dequeue`, `pop` or `peek` up to its first look at the producer's `tail`. */
  ghost function StartConsumer<T>(s: State<T>, op: ConsumerOp): State<T>
    requires Shape(s)
  {
    var fb := s.blocks[s.frontBlock];
    s.(cons := if fb.front != fb.localTail then CFound(op) else CRefresh(op))
  }

  ghost function RefreshTail<T>(s: State<T>): State<T>
    requires Shape(s) && s.cons.CRefresh?
  {
    var fb := s.blocks[s.frontBlock];
    s.(blocks := s.blocks[s.frontBlock := fb.(localTail := fb.tail)],
       cons := if fb.front != fb.tail then CFound(s.cons.op)
               else CCheck(s.cons.op),
       wasEmpty := Contents(s) == [])
  }

  ghost function CompareWithTail<T>(s: State<T>): State<T>
    requires Shape(s) && s.cons.CCheck?
  {
    s.(cons := if s.frontBlock != s.tailBlock then CReload(s.cons.op)
               else CIdle(Empty))
  }

  ghost function ReloadTail<T>(s: State<T>): State<T>
    requires Shape(s) && s.cons.CReload?
  {
    var fb := s.blocks[s.frontBlock];
    s.(blocks := s.blocks[s.frontBlock := fb.(localTail := fb.tail)],
       cons := if fb.front != fb.tail then CFound(s.cons.op) else CNext(s.cons.op))
  }

  ghost function ReadNext<T>(s: State<T>): State<T>
    requires Shape(s) && s.cons.CNext?
  {
    s.(cons := CEnter(s.cons.op, s.blocks[s.frontBlock].next))
  }

  ghost function Enter<T>(s: State<T>): State<T>
    requires Shape(s) && s.cons.CEnter? && s.cons.nb < |s.blocks|
  {
    var b := s.blocks[s.cons.nb];
    if s.cons.op.Peek? then
      var v := b.cells[b.front].value;
      s.(cons := CIdle(Front(v)), peeked := [v])
    else
      s.(blocks := s.blocks[s.cons.nb := b.(localTail := b.tail)],
         cons := CAdvance(s.cons.op, s.cons.nb))
  }

  ghost function Advance<T>(s: State<T>): State<T>
    requires Shape(s) && s.cons.CAdvance? && s.at >= 1
  {
    s.(frontBlock := s.cons.nb, ring := s.ring[1..] + [s.ring[0]], at := s.at - 1,
       cons := CFound(s.cons.op))
  }

  ghost function TakeFound<T>(s: State<T>): State<T>
    requires Shape(s) && s.cons.CFound?
  {
    var fb := s.blocks[s.frontBlock];
    var v := fb.cells[fb.front].value;
    if s.cons.op.Peek? then s.(cons := CIdle(Front(v)), peeked := [v])
    else s.(blocks := s.blocks[s.frontBlock :=
                        fb.(cells := fb.cells[fb.front := fb.cells[fb.front].(live := false)])],
            cons := CPublish(v))
  }

  ghost function PublishFront<T>(s: State<T>): State<T>
    requires Shape(s) && s.cons.CPublish?
  {
    var fb := s.blocks[s.frontBlock];
    s.(blocks := s.blocks[s.frontBlock := fb.(front := Next(fb.front, fb.Size()))],
       deq := s.deq + [s.cons.value], peeked := [], cons := CIdle(Removed(s.cons.value)))
  }

  // ---------------------------------------------------------------- runs

  predicate Enabled<T>(s: State<T>, a: Action<T>) {
    match a
    case CallEnqueue(_, _) => s.prod.PIdle?
    case ProducerStep(_) => !s.prod.PIdle?
    case CallConsumer(_) => s.cons.CIdle?
    case ConsumerStep => !s.cons.CIdle?
  }

  ghost function ProducerNextState<T>(s: State<T>, mallocOk: bool): State<T>
    requires Inv(s) && !s.prod.PIdle?
  {
    match s.prod
    case PRefresh(_, _) => RefreshFront(s)
    case PBuild(_) => Build(s)
    case PPublish(_) => Publish(s)
    case PFull(_, _) => CompareWithFront(s)
    case PReuse(_, _) => ReuseLoad(s)
    case PReuseBuild(_, _) => ReuseBuild(s)
    case PReusePublish(_, _) => ReusePublish(s)
    case PAlloc(_) => Alloc(s, mallocOk)
    case PLink(_, _) => Link(s)
    case PSwing(_, _) => Swing(s)
  }

  ghost function ConsumerNextState<T>(s: State<T>): State<T>
    requires Inv(s) && !s.cons.CIdle?
  {
    match s.cons
    case CRefresh(_) => RefreshTail(s)
    case CCheck(_) => CompareWithTail(s)
    case CReload(_) => ReloadTail(s)
    case CNext(_) => ReadNext(s)
    case CEnter(_, _) => Enter(s)
    case CAdvance(_, _) => Advance(s)
    case CFound(_) => TakeFound(s)
    case CPublish(_) => PublishFront(s)
  }

  ghost function Apply<T>(s: State<T>, a: Action<T>): State<T>
    requires Inv(s) && Enabled(s, a)
  {
    match a
    case CallEnqueue(e, canAlloc) => StartEnqueue(s, e, canAlloc)
    case ProducerStep(mallocOk) => ProducerNextState(s, mallocOk)
    case CallConsumer(op) => StartConsumer(s, op)
    case ConsumerStep => ConsumerNextState(s)
  }
}
