/** BidAskSpread/AtomicQueue.h as the program has it: its two polling loops, one step at a time, over the
    flags and the inner queue that they change in place. */
module EndOfStreamQueue {
  import opened AtomicQueue
  import opened StreamAnswers

  class PolledQueue<T> {
    const capacity: nat
    var queue: seq<T>
    var atEnd: bool
    var full: bool
    var empty: bool
    /** Where the two threads are, with their local variables. */
    var producer: Producer<T>
    var consumer: Consumer<T>
    ghost var enq: seq<T>
    ghost var deq: seq<T>
    ghost var atLastMiss: nat
    ghost var endedBeforeMiss: bool
    ghost var missesSinceEnd: nat
    ghost var missesThisCall: nat
    ghost var startedEmpty: bool

    ghost function View(): State<T>
      reads this
    {
      State(capacity, atEnd, full, empty, producer, consumer, enq, deq, atLastMiss, endedBeforeMiss,
            missesSinceEnd, missesThisCall, startedEmpty)
    }

    ghost predicate Valid()
      reads this
    {
      Inv(View()) && queue == Held(View())
    }

    /** `m_empty` is left as the memory has it. */
    constructor (capacity: nat, memory: bool)
      ensures Valid() && View() == Start(capacity, memory)
    {
      this.capacity := capacity;
      queue, atEnd, full, empty := [], false, false, memory;
      producer, consumer := Ready, Resting(NoneYet);
      enq, deq, atLastMiss, endedBeforeMiss := [], [], 0, false;
      missesSinceEnd, missesThisCall, startedEmpty := 0, 0, false;
    }

    /** The producer calls `enqueue`. */
    method CallEnqueue(e: T)
      requires Valid() && Enabled(View(), Put(e))
      modifies this
      ensures Valid() && View() == Step(old(View()), Put(e))
    {
      StepDelivers(View(), Put(e));
      StepMisses(View(), Put(e));
      producer := Trying(e);
    }

    method SetQueueEnd()
      requires Valid() && Enabled(View(), Move.SetQueueEnd)
      modifies this
      ensures Valid() && View() == Step(old(View()), Move.SetQueueEnd)
    {
      StepDelivers(View(), Move.SetQueueEnd);
      StepMisses(View(), Move.SetQueueEnd);
      atEnd := true;
    }

    /** The consumer calls `dequeue` or `peek`. */
    method CallDequeue(taking: bool)
      requires Valid() && Enabled(View(), if taking then Dequeue else Peek)
      modifies this
      ensures Valid() && View() == Step(old(View()), if taking then Dequeue else Peek)
    {
      StepDelivers(View(), if taking then Dequeue else Peek);
      StepMisses(View(), if taking then Dequeue else Peek);
      consumer := Polling(taking);
      missesSinceEnd, missesThisCall, startedEmpty := 0, 0, empty;
    }

    lemma Appended(e: T)
      requires Valid()
      ensures |deq| <= |enq| && queue + [e] == (enq + [e])[|deq|..]
    {
      hide Misses;
    }

    /** One step of the loop in `enqueue`. */
    method StepProducer()
      requires Valid() && Enabled(View(), ProducerMove)
      modifies this
      ensures Valid() && View() == Step(old(View()), ProducerMove)
    {
      StepDelivers(View(), ProducerMove);
      StepMisses(View(), ProducerMove);
      hide Inv, Delivery, Misses;
      match producer {
        case Trying(e) =>
          if |queue| < capacity {
            Appended(e);
            queue, enq, producer := queue + [e], enq + [e], MarkNotFull;
          } else {
            producer := MarkFull(e);
          }
        case MarkFull(e) =>
          full, producer := true, Trying(e);
        case MarkNotFull =>
          full, producer := false, Ready;
      }
    }

    /** `try_dequeue` or `peek` on the inner queue finds it empty. */
    method Miss(taking: bool)
      requires Valid() && consumer == Polling(taking) && |queue| == 0
      modifies `consumer, `atLastMiss, `endedBeforeMiss, `missesSinceEnd, `missesThisCall
      ensures Valid() && View() == Step(old(View()), ConsumerMove)
    {
      StepDelivers(View(), ConsumerMove);
      StepMisses(View(), ConsumerMove);
      hide Delivery, Misses, Step;
      consumer := LoadEnd(taking);
      atLastMiss, endedBeforeMiss := |enq|, atEnd;
      missesSinceEnd, missesThisCall := missesSinceEnd + (if atEnd then 1 else 0), missesThisCall + 1;
    }

    /** It finds an element, and takes it unless it only peeks. */
    method Hit(taking: bool)
      requires Valid() && consumer == Polling(taking) && |queue| > 0
      modifies `queue, `consumer, `deq
      ensures Valid() && View() == Step(old(View()), ConsumerMove)
    {
      StepDelivers(View(), ConsumerMove);
      StepMisses(View(), ConsumerMove);
      hide Delivery, Misses, Step;
      var e := queue[0];
      consumer := MarkNotEmpty(e);
      if taking {
        queue, deq := queue[1..], deq + [e];
      }
    }

    /** One step of the loop in `dequeue` or `peek`. */
    method StepConsumer()
      requires Valid() && Enabled(View(), ConsumerMove)
      modifies this
      ensures Valid() && View() == Step(old(View()), ConsumerMove)
    {
      if consumer.Polling? {
        if |queue| == 0 {
          Miss(consumer.taking);
        } else {
          Hit(consumer.taking);
        }
      } else {
        StepFlags();
      }
    }

    /** `end()` and the stores to `m_empty`. */
    method StepFlags()
      requires Valid() && !consumer.Resting? && !consumer.Polling?
      modifies `empty, `consumer
      ensures Valid() && View() == Step(old(View()), ConsumerMove)
    {
      StepDelivers(View(), ConsumerMove);
      StepMisses(View(), ConsumerMove);
      hide Inv, Delivery, Misses;
      match consumer {
        case LoadEnd(taking) =>
          consumer := if atEnd then LoadEmpty(taking) else MarkEmpty(taking);
        case LoadEmpty(taking) =>
          consumer := if empty then Resting(QueueEnd) else MarkEmpty(taking);
        case MarkEmpty(taking) =>
          empty, consumer := true, Polling(taking);
        case MarkNotEmpty(e) =>
          empty, consumer := false, Resting(Element(e));
      }
    }

    /** A move, if it is possible. */
    method Turn(move: Move<T>)
      requires Valid()
      modifies this
      ensures Valid()
      ensures View() == if Enabled(old(View()), move) then Step(old(View()), move) else old(View())
    {
      hide Inv;
      match move {
        case Put(e) =>
          if producer.Ready? && !atEnd { CallEnqueue(e); }
        case SetQueueEnd =>
          if producer.Ready? { SetQueueEnd(); }
        case ProducerMove =>
          if !producer.Ready? { StepProducer(); }
        case Dequeue =>
          if consumer.Resting? && !consumer.outcome.QueueEnd? { CallDequeue(true); }
        case Peek =>
          if consumer.Resting? && !consumer.outcome.QueueEnd? { CallDequeue(false); }
        case ConsumerMove =>
          if !consumer.Resting? { StepConsumer(); }
      }
    }

    /** Any interleaving of the two threads: what was delivered is a prefix of what went in, the calls of `dequeue`
        return exactly that, and the end is reported only after setQueueEnd. */
    method Execute(moves: seq<Move<T>>)
      requires Valid()
      modifies this
      ensures Valid() && old(View()).deq <= old(View()).enq && View() == Exec(old(View()), moves)
      ensures deq <= enq && (Ended(consumer) ==> atEnd && deq == enq[..|deq|] && |deq| == atLastMiss)
      ensures old(consumer).Resting? ==>
                var returned := Returned(old(View()), moves, false);
                && old(deq) + returned <= deq && (consumer.Resting? ==> deq == old(deq) + returned)
    {
      Prefix();
      var i := 0;
      while i < |moves|
        invariant 0 <= i <= |moves| && Valid() && deq <= enq
        invariant Exec(View(), moves[i..]) == Exec(old(View()), moves)
      {
        assert moves[i..][0] == moves[i] && moves[i..][1..] == moves[i + 1..];
        Turn(moves[i]);
        Prefix();
        i := i + 1;
      }
      if old(consumer).Resting? { ReturnsWhatIsTaken(old(View()), moves); }
    }

    lemma Prefix()
      requires Valid()
      ensures deq <= enq
    {
    }
  }
}
