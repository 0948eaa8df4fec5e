/** The blocking queue object: the inner queue and the semaphore, stepped in place. */
module BlockingReaderWriterQueues {
  import opened SpscQueue
  import opened SpscProof
  import opened SpscFifo
  import opened ReaderWriterQueue
  import opened Semaphore
  import opened BlockingQueue
  import opened PowersOfTwo

  class BlockingReaderWriterQueue<T> {
    const inner: Queue<T>
    const sema: LightweightSemaphore
    /** Between the inner enqueue and the signal. */
    var stored: bool
    var call: Call
    /** The consumer is in a call of the inner queue. */
    var inside: bool

    ghost function View(): Blocking<T>
      reads this, inner, sema
    {
      Blocking(inner.Snapshot(), sema.View(), stored, call, inside)
    }

    ghost predicate Valid()
      reads this, inner, sema
    {
      Ok(View())
    }

    constructor (maxSize: nat, maxBlock: nat, bits: T)
      requires 0 < maxSize < Pow2(WORD_BITS - 1)
      requires IsPow2(maxBlock) && maxBlock >= 2
      ensures Valid() && Contents(inner.Snapshot()) == [] && fresh(inner) && fresh(sema)
      ensures ProducerFree(View()) && ConsumerFree(View())
    {
      inner := new Queue(maxSize, maxBlock, bits);
      sema := new LightweightSemaphore(0);
      stored, call, inside := false, PeekOnly, false;
    }

    lemma Parts()
      requires Valid()
      ensures inner.Valid() && Sound(sema.View())
      ensures inside <==> !inner.consumer.CIdle?
      ensures stored ==> sema.signaller.Quiet?
    {
      hide Inv, Sound, Contents;
    }

    /** `enqueue`, `try_enqueue` */
    method CallEnqueue(e: T, canAlloc: bool)
      requires Valid() && CanMove(View(), BlockingQueue.Enqueue(e, canAlloc))
      modifies inner
      ensures Valid() && View() == Run(old(View()), BlockingQueue.Enqueue(e, canAlloc))
    {
      MoveOk(View(), BlockingQueue.Enqueue(e, canAlloc));
      Parts();
      hide Inv, Ok, Contents, Shape, Sound, StartEnqueue, StartConsumer;
      inner.CallEnqueue(e, canAlloc);
    }

    method StepProducer(mallocOk: bool)
      requires Valid() && CanMove(View(), ProducerMove(mallocOk))
      modifies this`stored, inner, sema
      ensures Valid() && View() == Run(old(View()), ProducerMove(mallocOk))
    {
      MoveOk(View(), ProducerMove(mallocOk));
      Parts();
      hide Ok, Run;
      if stored || sema.signaller.Posting? {
        StepSignalling(mallocOk);
      } else {
        StepStoring(mallocOk);
      }
    }

    /** `sema.signal()`, in its two steps. */
    method StepSignalling(mallocOk: bool)
      requires Valid() && (stored || sema.signaller.Posting?)
      modifies this`stored, sema
      ensures View() == Run(old(View()), ProducerMove(mallocOk))
    {
      Parts();
      hide Inv, Ok, Contents, Shape, Sound, ProducerNextState, Signal, Post, ConsumerNextState, WaiterStep;
      if stored {
        sema.StepSignal(1);
        stored := false;
      } else {
        sema.StepPost();
      }
    }

    /** A step of the inner enqueue. */
    method StepStoring(mallocOk: bool)
      requires Valid() && !stored && sema.signaller.Quiet? && !inner.producer.PIdle?
      modifies this`stored, inner
      ensures View() == Run(old(View()), ProducerMove(mallocOk))
    {
      Parts();
      StoringIs(View(), mallocOk);
      hide Inv, Ok, Run, Contents, Shape, Sound, Apply;
      inner.StepProducer(mallocOk);
      stored := inner.producer.PIdle? && inner.producer.result.Stored?;
    }

    /** `wait_dequeue`, `try_dequeue`, `pop`, `peek` */
    method CallConsumer(next: Call)
      requires Valid() && CanMove(View(), Begin(next))
      modifies this`call, this`inside, inner, sema`waiter
      ensures Valid() && View() == Run(old(View()), Begin(next))
    {
      MoveOk(View(), Begin(next));
      Parts();
      BeginIs(View(), next);
      hide Inv, Ok, Run, Contents, Shape, Sound, Apply;
      call := next;
      if next.PeekOnly? {
        inside := true;
        inner.CallConsumer(Peek);
      } else {
        sema.waiter := if next.WaitDequeue? then Poll(1 + SPINS, true) else Poll(1, false);
      }
    }

    method StepConsumer()
      requires Valid() && CanMove(View(), ConsumerMove)
      modifies this`inside, inner, sema
      ensures Valid() && View() == Run(old(View()), ConsumerMove)
    {
      MoveOk(View(), ConsumerMove);
      hide Ok, Run;
      if inside {
        StepInside();
      } else {
        StepWaiting();
      }
    }

    /** A step of the inner call. */
    method StepInside()
      requires Valid() && inside
      modifies this`inside, inner, sema`waiter
      ensures View() == Run(old(View()), ConsumerMove)
    {
      Parts();
      InsideIs(View());
      hide Inv, Ok, Run, Contents, Shape, Sound, Apply;
      inner.StepConsumer();
      if inner.consumer.CIdle? {
        inside, sema.waiter := false, Away;
      }
    }

    /** A step of the semaphore's wait, and the inner call once it is over. */
    method StepWaiting()
      requires Valid() && CanMove(View(), ConsumerMove) && !inside
      modifies this`inside, inner, sema
      ensures View() == Run(old(View()), ConsumerMove)
    {
      Parts();
      hide Inv, Ok, Run, Contents, Shape, Sound, Apply, WaiterStep;
      sema.StepWaiter();
      if sema.waiter.Through? {
        inside := true;
        inner.CallConsumer(OpOf(call));
      }
    }

    /** A move, if it is possible. */
    method Turn(move: Move<T>)
      requires Valid()
      modifies this`stored, this`call, this`inside, inner, sema
      ensures Valid()
      ensures View() == if CanMove(old(View()), move) then Run(old(View()), move) else old(View())
    {
      hide Ok, Run, Inv, Contents, Shape;
      var free := inner.producer.PIdle? && !stored && sema.signaller.Quiet?;
      var resting := sema.waiter.Away? || sema.waiter.Refused?;
      match move {
        case Enqueue(e, canAlloc) => if free { CallEnqueue(e, canAlloc); }
        case ProducerMove(mallocOk) => if !free { StepProducer(mallocOk); }
        case Begin(next) => if resting && !inside { CallConsumer(next); }
        case ConsumerMove => if inside || (!resting && (sema.waiter.Asleep? ==> sema.m_sema > 0)) { StepConsumer(); }
      }
    }

    /** Any interleaving of the producer and the consumer: whoever cannot go on sleeps over an empty queue, unless
        the producer is on its way to wake it. */
    method Execute(schedule: seq<Move<T>>)
      requires Valid()
      modifies this`stored, this`call, this`inside, inner, sema
      ensures Valid() && View() == Play(old(View()), schedule)
      ensures !ConsumerFree(View()) && !CanMove(View(), ConsumerMove) ==>
                Contents(inner.Snapshot()) == [] || sema.signaller.Posting? || stored
    {
      NoLostWakeup(View(), schedule);
      hide Ok, Run, Inv, Contents, Shape, CanMove;
      var i := 0;
      while i < |schedule|
        invariant 0 <= i <= |schedule| && Valid()
        invariant Play(View(), schedule[i..]) == Play(old(View()), schedule)
      {
        assert schedule[i..][0] == schedule[i] && schedule[i..][1..] == schedule[i + 1..];
        Turn(schedule[i]);
        i := i + 1;
      }
    }
  }

  lemma BeginIs<T>(b: Blocking<T>, call: Call)
    requires Ok(b) && ConsumerFree(b)
    ensures Run(b, Begin(call)) ==
            if call.PeekOnly? then b.(call := call, inside := true, q := Apply(b.q, CallConsumer(Peek)))
            else b.(call := call, sem := b.sem.(waiter := if call.WaitDequeue? then Poll(1 + SPINS, true) else Poll(1, false)))
  {
    hide Inv, Contents, Shape, Sound, StartConsumer;
  }

  lemma StoringIs<T>(b: Blocking<T>, mallocOk: bool)
    requires Ok(b) && !b.stored && b.sem.signaller.Quiet? && !b.q.prod.PIdle?
    ensures var q := Apply(b.q, ProducerStep(mallocOk));
            Run(b, ProducerMove(mallocOk)) == b.(q := q, stored := q.prod == PIdle(Stored))
  {
    hide Inv, Contents, Shape, Sound, ProducerNextState;
  }

  lemma InsideIs<T>(b: Blocking<T>)
    requires Ok(b) && b.inside
    ensures var q := Apply(b.q, ConsumerStep);
            Run(b, ConsumerMove) ==
            if q.cons.CIdle? then b.(q := q, inside := false, sem := b.sem.(waiter := Away)) else b.(q := q)
  {
    hide Inv, Contents, Shape, Sound, ConsumerNextState;
  }
}
