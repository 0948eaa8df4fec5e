/** The queue object itself: the constructor, and the machine's steps performed in place. */
module ReaderWriterQueue {
  import opened RingBlock
  import opened SpscQueue
  import opened SpscProof
  import opened SpscFifo
  import opened PowersOfTwo
  import opened SpscCapacity

  class Queue<T> {
    var blocks: seq<Block<T>>
    var frontBlock: nat
    var tailBlock: nat
    var largestBlockSize: nat
    const maxBlockSize: nat
    var producer: Producer<T>
    var consumer: Consumer<T>

    ghost var ring: seq<nat>
    ghost var at: nat
    ghost var enq: seq<T>
    ghost var deq: seq<T>
    ghost var peeked: seq<T>
    ghost var seen: nat
    ghost var wasEmpty: bool

    ghost function Snapshot(): State<T> reads this {
      State(blocks, frontBlock, tailBlock, largestBlockSize, maxBlockSize, producer, consumer,
            ring, at, enq, deq, peeked, seen, wasEmpty)
    }

    ghost predicate Valid() reads this { Inv(Snapshot()) }

    /** `bits` stands for whatever the allocated memory holds. */
    constructor (maxSize: nat, maxBlock: nat, bits: T)
      requires 0 < maxSize < Pow2(WORD_BITS - 1)
      requires IsPow2(maxBlock) && maxBlock >= 2
      ensures Valid() && Contents(Snapshot()) == []
      ensures enq == [] && deq == [] && peeked == []
      ensures producer == PIdle(NothingYet) && consumer == CIdle(NothingAsked)
      ensures BuiltFor(Snapshot(), maxSize) && forall b | b in blocks :: b.Size() == largestBlockSize
      ensures largestBlockSize <= 2 * maxBlock && Maskable(Snapshot())
    {
      var size := CeilToPow2(maxSize + 1);
      var made: seq<Block<T>>;
      if size > maxBlock * 2 {
        var initialBlockCount := (maxSize + maxBlock * 2 - 3) / (maxBlock - 1);
        size := maxBlock;
        EnoughBlocks(maxSize, maxBlock);
        made := MakeBlocks(initialBlockCount, size, bits);
      } else {
        made := [NewBlock(0, size, bits)];
      }
      largestBlockSize := size;
      maxBlockSize := maxBlock;
      blocks, frontBlock, tailBlock := made, 0, 0;
      producer, consumer := PIdle(NothingYet), CIdle(NothingAsked);
      ring, at := seq(|made|, j => j), 0;
      enq, deq, peeked, seen, wasEmpty := [], [], [], 0, false;
      new;
      StartsEmpty(Snapshot(), bits);
      StartsMaskable(Snapshot());
      hide Inv, Shape, Contents, Maskable, AtLeast, Capacity, NewBlock, Pow2, IsPow2;
    }

    /** The blocks of the ring, each linked to the next and the last to the first. */
    static method MakeBlocks(count: nat, size: nat, bits: T) returns (made: seq<Block<T>>)
      requires size >= 2
      ensures |made| == count
      ensures forall j | 0 <= j < count :: made[j] == NewBlock(if j + 1 < count then j + 1 else 0, size, bits)
    {
      made := [];
      var i, lastBlock := 0, 0;
      while i != count
        invariant i <= count && |made| == i
        invariant i > 0 ==> lastBlock == i - 1
        invariant forall j | 0 <= j < i :: made[j] == NewBlock(if j + 1 < i then j + 1 else 0, size, bits)
      {
        var block := NewBlock(0, size, bits);
        if i > 0 { made := made[lastBlock := made[lastBlock].(next := i)]; }
        made := made + [block];
        lastBlock := i;
        i := i + 1;
      }
    }

    method CallEnqueue(e: T, canAlloc: bool)
      requires Valid() && producer.PIdle?
      modifies this
      ensures Valid() && Snapshot() == Apply(old(Snapshot()), Action.CallEnqueue(e, canAlloc))
    {
      StepRefinesFifo(Snapshot(), Action.CallEnqueue(e, canAlloc));
      var tb := blocks[tailBlock];
      producer := if Next(tb.tail, tb.Size()) != tb.localFront then PBuild(e) else PRefresh(e, canAlloc);
    }

    /** The part of `inner_enqueue` that works on the tail block. */
    method StepInTailBlock()
      requires Valid()
      requires producer.PRefresh? || producer.PBuild? || producer.PPublish? || producer.PFull?
      modifies this
      ensures Snapshot() == ProducerNextState(old(Snapshot()), false)
    {
      hide Inv, Shape, Contents;
      InRange(Snapshot());
      var tb := blocks[tailBlock];
      match producer {
        case PRefresh(e, canAlloc) =>
          seen := |Contents(Snapshot())|;
          blocks := blocks[tailBlock := tb.(localFront := tb.front)];
          producer := if Next(tb.tail, tb.Size()) != tb.front then PBuild(e) else PFull(e, canAlloc);
        case PBuild(e) =>
          blocks := blocks[tailBlock := tb.(cells := tb.cells[tb.tail := Cell(true, e)])];
          producer := PPublish(e);
        case PPublish(e) =>
          blocks := blocks[tailBlock := tb.(tail := Next(tb.tail, tb.Size()))];
          enq := enq + [e];
          producer := PIdle(Stored);
        case PFull(e, canAlloc) =>
          seen := if seen < |Contents(Snapshot())| then |Contents(Snapshot())| else seen;
          producer := if tb.next != frontBlock then PReuse(e, tb.next)
                      else if canAlloc then PAlloc(e) else PIdle(NoRoom);
      }
    }

    /** The part that steps onto a free block ahead. */
    method StepInNextBlock()
      requires Valid()
      requires producer.PReuse? || producer.PReuseBuild? || producer.PReusePublish?
      modifies this
      ensures Snapshot() == ProducerNextState(old(Snapshot()), false)
    {
      hide Inv, Shape, Contents;
      InRange(Snapshot());
      var b := blocks[producer.nb];
      match producer {
        case PReuse(e, nb) =>
          blocks := blocks[nb := b.(localFront := b.front)];
          producer := PReuseBuild(e, nb);
        case PReuseBuild(e, nb) =>
          blocks := blocks[nb := b.(cells := b.cells[b.tail := Cell(true, e)])];
          producer := PReusePublish(e, nb);
        case PReusePublish(e, nb) =>
          blocks := blocks[nb := b.(tail := Next(b.tail, b.Size()))];
          producer := PSwing(e, nb);
      }
    }

    /** The part that makes a block, links it in and moves on to it. */
    method AllocateBlock(mallocOk: bool)
      requires Valid() && producer.PAlloc?
      modifies this
      ensures Snapshot() == ProducerNextState(old(Snapshot()), mallocOk)
    {
      hide Inv, Shape, Contents;
      InRange(Snapshot());
      var e := producer.e;
      if mallocOk {
        largestBlockSize := GrownSize(largestBlockSize, maxBlockSize);
        var b := NewBlock(blocks[tailBlock].next, largestBlockSize, e);
        producer := PLink(e, |blocks|);
        blocks := blocks + [b.(cells := b.cells[0 := Cell(true, e)], tail := 1, localTail := 1)];
      } else {
        producer := PIdle(OutOfMemory);
      }
    }

    method LinkBlock(mallocOk: bool)
      requires Valid() && producer.PLink?
      modifies this
      ensures Snapshot() == ProducerNextState(old(Snapshot()), mallocOk)
    {
      hide Inv, Shape, Contents;
      InRange(Snapshot());
      var PLink(e, nb) := producer;
      blocks := blocks[tailBlock := blocks[tailBlock].(next := nb)];
      ring := ring[..at + 1] + [nb] + ring[at + 1..];
      producer := PSwing(e, nb);
    }

    method StepToNewBlock(mallocOk: bool)
      requires Valid()
      requires producer.PAlloc? || producer.PLink? || producer.PSwing?
      modifies this
      ensures Snapshot() == ProducerNextState(old(Snapshot()), mallocOk)
    {
      hide Inv, Shape, Contents;
      InRange(Snapshot());
      if producer.PAlloc? {
        AllocateBlock(mallocOk);
      } else if producer.PLink? {
        LinkBlock(mallocOk);
      } else {
        var PSwing(e, nb) := producer;
        tailBlock := nb;
        at := at + 1;
        enq := enq + [e];
        producer := PIdle(Stored);
      }
    }

    method StepProducer(mallocOk: bool)
      requires Valid() && !producer.PIdle?
      modifies this
      ensures Valid() && Snapshot() == Apply(old(Snapshot()), ProducerStep(mallocOk))
    {
      hide Inv, Shape, Contents;
      StepRefinesFifo(Snapshot(), ProducerStep(mallocOk));
      if producer.PRefresh? || producer.PBuild? || producer.PPublish? || producer.PFull? {
        StepInTailBlock();
      } else if producer.PReuse? || producer.PReuseBuild? || producer.PReusePublish? {
        StepInNextBlock();
      } else {
        StepToNewBlock(mallocOk);
      }
    }

    method CallConsumer(op: ConsumerOp)
      requires Valid() && consumer.CIdle?
      modifies this
      ensures Valid() && Snapshot() == Apply(old(Snapshot()), Action.CallConsumer(op))
    {
      StepRefinesFifo(Snapshot(), Action.CallConsumer(op));
      var fb := blocks[frontBlock];
      consumer := if fb.front != fb.localTail then CFound(op) else CRefresh(op);
    }

    /** The part of `try_dequeue`, `pop` and `peek` that looks for an element in the front block. */
    method StepInFrontBlock()
      requires Valid()
      requires consumer.CRefresh? || consumer.CCheck? || consumer.CReload? || consumer.CNext?
      modifies this
      ensures Snapshot() == ConsumerNextState(old(Snapshot()))
    {
      hide Inv, Shape, Contents;
      InRange(Snapshot());
      var fb := blocks[frontBlock];
      match consumer {
        case CRefresh(op) =>
          wasEmpty := Contents(Snapshot()) == [];
          blocks := blocks[frontBlock := fb.(localTail := fb.tail)];
          consumer := if fb.front != fb.tail then CFound(op) else CCheck(op);
        case CCheck(op) =>
          consumer := if frontBlock != tailBlock then CReload(op) else CIdle(Empty);
        case CReload(op) =>
          blocks := blocks[frontBlock := fb.(localTail := fb.tail)];
          consumer := if fb.front != fb.tail then CFound(op) else CNext(op);
        case CNext(op) =>
          consumer := CEnter(op, fb.next);
      }
    }

    /** The part that advances to the next block, takes the element and publishes. */
    method EnterBlock()
      requires Valid() && consumer.CEnter?
      modifies this
      ensures Snapshot() == ConsumerNextState(old(Snapshot()))
    {
      hide Inv, Shape, Contents;
      InRange(Snapshot());
      var CEnter(op, nb) := consumer;
      var b := blocks[nb];
      if op.Peek? {
        peeked := [b.cells[b.front].value];
        consumer := CIdle(Front(b.cells[b.front].value));
      } else {
        blocks := blocks[nb := b.(localTail := b.tail)];
        consumer := CAdvance(op, nb);
      }
    }

    method AdvanceFront()
      requires Valid() && consumer.CAdvance?
      modifies this
      ensures Snapshot() == ConsumerNextState(old(Snapshot()))
    {
      hide Inv, Shape, Contents;
      InRange(Snapshot());
      var CAdvance(op, nb) := consumer;
      frontBlock := nb;
      ring, at := ring[1..] + [ring[0]], at - 1;
      consumer := CFound(op);
    }

    method StepToElement()
      requires Valid()
      requires consumer.CEnter? || consumer.CAdvance? || consumer.CFound? || consumer.CPublish?
      modifies this
      ensures Snapshot() == ConsumerNextState(old(Snapshot()))
    {
      hide Inv, Shape, Contents;
      InRange(Snapshot());
      if consumer.CEnter? {
        EnterBlock();
        return;
      }
      if consumer.CAdvance? {
        AdvanceFront();
        return;
      }
      var fb := blocks[frontBlock];
      match consumer {
        case CFound(op) =>
          var v := fb.cells[fb.front].value;
          if op.Peek? {
            peeked := [v];
            consumer := CIdle(Front(v));
          } else {
            blocks := blocks[frontBlock := fb.(cells := fb.cells[fb.front := fb.cells[fb.front].(live := false)])];
            consumer := CPublish(v);
          }
        case CPublish(v) =>
          blocks := blocks[frontBlock := fb.(front := Next(fb.front, fb.Size()))];
          deq, peeked := deq + [v], [];
          consumer := CIdle(Removed(v));
      }
    }

    method StepConsumer()
      requires Valid() && !consumer.CIdle?
      modifies this
      ensures Valid() && Snapshot() == Apply(old(Snapshot()), ConsumerStep)
    {
      hide Inv, Shape, Contents;
      StepRefinesFifo(Snapshot(), ConsumerStep);
      if consumer.CRefresh? || consumer.CCheck? || consumer.CReload? || consumer.CNext? {
        StepInFrontBlock();
      } else {
        StepToElement();
      }
    }

    /** Whoever's turn it is moves, if it can. */
    method Turn(action: Action<T>)
      requires Valid()
      modifies this
      ensures Valid()
      ensures Snapshot() == if Enabled(old(Snapshot()), action) then Apply(old(Snapshot()), action) else old(Snapshot())
    {
      hide Inv, Shape, Contents, Apply;
      match action {
        case CallEnqueue(e, canAlloc) => if producer.PIdle? { CallEnqueue(e, canAlloc); }
        case ProducerStep(mallocOk) => if !producer.PIdle? { StepProducer(mallocOk); }
        case CallConsumer(op) => if consumer.CIdle? { CallConsumer(op); }
        case ConsumerStep => if !consumer.CIdle? { StepConsumer(); }
      }
    }

    /** Any interleaving of the two threads. */
    method Execute(schedule: seq<Action<T>>)
      requires Valid()
      modifies this
      ensures Valid() && Snapshot() == Exec(old(Snapshot()), schedule)
      ensures enq == deq + Contents(Snapshot()) && old(deq) <= deq && old(enq) <= enq
    {
      hide Inv, Shape, Contents, Apply, Enabled;
      var i := 0;
      while i < |schedule|
        invariant i <= |schedule| && Valid()
        invariant Exec(Snapshot(), schedule[i..]) == Exec(old(Snapshot()), schedule)
      {
        Turn(schedule[i]);
        assert schedule[i..][1..] == schedule[i + 1..];
        i := i + 1;
      }
      AlwaysFifo(old(Snapshot()), schedule);
    }
  }

  /** The reserved blocks hold `maxSize` elements even with one of them set aside. */
  lemma EnoughBlocks(maxSize: nat, maxBlock: nat)
    requires maxSize >= 1 && maxBlock >= 2 && maxSize + 1 > maxBlock
    ensures var count := (maxSize + maxBlock * 2 - 3) / (maxBlock - 1);
            count >= 2 && Capacity(count, maxBlock) >= maxSize
  {
  }

  lemma StartsMaskable<T>(s: State<T>)
    requires IsPow2(s.largest) && s.largest <= 2 * s.maxBlockSize && forall b | b in s.blocks :: b.Size() == s.largest
    ensures Maskable(s)
  {
    hide IsPow2;
  }

  lemma StartsEmpty<T>(s: State<T>, bits: T)
    requires |s.blocks| >= 1 && s.largest >= 2
    requires forall j | 0 <= j < |s.blocks| ::
      s.blocks[j] == NewBlock(if j + 1 < |s.blocks| then j + 1 else 0, s.largest, bits)
    requires s.ring == seq(|s.blocks|, j => j) && s.at == 0 && s.frontBlock == s.tailBlock == 0
    requires s.prod == PIdle(NothingYet) && s.cons == CIdle(NothingAsked)
    requires s.enq == [] && s.deq == [] && s.peeked == []
    ensures Inv(s) && Contents(s) == [] && AtLeast(s, s.largest)
    ensures forall b | b in s.blocks :: b.Size() == s.largest
  {
    forall i | 0 <= i < |s.ring| ensures Linked(s.blocks, s.ring, i) {
    }
    assert RingOk(s.blocks, s.ring);
    OnlyFront(s);
  }

  lemma OnlyFront<T>(s: State<T>)
    requires Shape(s) && s.at == 0 && s.blocks[s.frontBlock].IsEmpty()
    ensures Contents(s) == []
  {
    var ids := s.ring[..1];
    assert ids[1..] == [];
    assert Flat(s.blocks, ids) == s.blocks[ids[0]].Contents() + [];
  }
}
