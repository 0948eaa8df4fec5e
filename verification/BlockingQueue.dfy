/** BlockingReaderWriterQueue: the inner queue's machine and the semaphore's, run side by side. */
module BlockingQueue {
  import opened RingBlock
  import opened SpscQueue
  import opened SpscProof
  import opened SpscFifo
  import opened Semaphore

  datatype Call = WaitDequeue | TryDequeue | TryPop | PeekOnly

  /** `stored` : the producer has put an element in and not yet signalled for it.
      `call`   : what the consumer is doing. `inside`: it is in the inner queue. */
  datatype Blocking<T> = Blocking(q: State<T>, sem: Sem, stored: bool, call: Call, inside: bool)

  datatype Move<T> =
    | Enqueue(e: T, canAlloc: bool)
    | ProducerMove(mallocOk: bool)
    | Begin(call: Call)
    | ConsumerMove

  function OpOf(c: Call): ConsumerOp {
    match c
    case WaitDequeue => Dequeue
    case TryDequeue => Dequeue
    case TryPop => Pop
    case PeekOnly => Peek
  }

  predicate Resting(w: Waiter) { w.Away? || w.Refused? }

  predicate ProducerFree<T>(b: Blocking<T>) {
    b.q.prod.PIdle? && !b.stored && b.sem.signaller.Quiet?
  }

  predicate ConsumerFree<T>(b: Blocking<T>) { Resting(b.sem.waiter) && !b.inside }

  ghost predicate CanMove<T>(b: Blocking<T>, m: Move<T>) {
    match m
    case Enqueue(_, _) => ProducerFree(b)
    case ProducerMove(_) => !ProducerFree(b)
    case Begin(_) => ConsumerFree(b)
    case ConsumerMove => b.inside || (!Resting(b.sem.waiter) && (b.sem.waiter.Asleep? ==> b.sem.kernel > 0))
  }

  /** The waiter has taken one off the count for an element it has not removed yet. */
  predicate Taken(w: Waiter) { w.Asleep? || w.Through? }

  /** Only `wait_dequeue` waits. */
  predicate MayWait(w: Waiter, call: Call) {
    && (w.Poll? ==> (w.mayBlock <==> call.WaitDequeue?))
    && (w.LastClaim? || w.Asleep? ==> call.WaitDequeue?)
    && (w.Refused? ==> !call.WaitDequeue?)
  }

  ghost predicate Ok<T>(b: Blocking<T>) {
    && Inv(b.q) && Sound(b.sem)
    && b.sem.count + (if b.stored then 1 else 0) + (if Taken(b.sem.waiter) then 1 else 0)
         == |Contents(b.q)|
    && (b.stored ==> b.q.prod == PIdle(Stored) && b.sem.signaller.Quiet?)
    && (b.sem.signaller.Posting? ==> b.q.prod.PIdle?)
    && (b.inside <==> !b.q.cons.CIdle?)
    && (b.sem.waiter.Through? ==> b.inside)
    && (!Resting(b.sem.waiter) ==> !b.call.PeekOnly?)
    && MayWait(b.sem.waiter, b.call)
    && (b.inside ==> b.sem.waiter.Through? || (b.call.PeekOnly? && Resting(b.sem.waiter)))
    && (b.inside && !b.call.PeekOnly? && b.q.cons.CCheck? ==> !b.q.wasEmpty)
    && (b.inside ==> match b.q.cons
          case CRefresh(op) => op == OpOf(b.call)
          case CCheck(op) => op == OpOf(b.call)
          case CReload(op) => op == OpOf(b.call)
          case CNext(op) => op == OpOf(b.call)
          case CEnter(op, _) => op == OpOf(b.call)
          case CAdvance(op, _) => op == OpOf(b.call)
          case CFound(op) => op == OpOf(b.call)
          case CPublish(_) => !b.call.PeekOnly?
          case CIdle(_) => true)
  }

  ghost function Run<T>(b: Blocking<T>, m: Move<T>): Blocking<T>
    requires Ok(b) && CanMove(b, m)
  {
    match m
    case Enqueue(e, canAlloc) => b.(q := StartEnqueue(b.q, e, canAlloc))
    case ProducerMove(mallocOk) =>
      if b.stored then b.(sem := Signal(b.sem, 1), stored := false)
      else if b.sem.signaller.Posting? then b.(sem := Post(b.sem))
      else var q := ProducerNextState(b.q, mallocOk); b.(q := q, stored := q.prod == PIdle(Stored))
    case Begin(call) =>
      if call.PeekOnly? then b.(call := call, inside := true, q := StartConsumer(b.q, Peek))
      else b.(call := call, sem := if call.WaitDequeue? then Wait(b.sem) else TryWait(b.sem))
    case ConsumerMove =>
      if b.inside then
        var q := ConsumerNextState(b.q);
        if q.cons.CIdle? then b.(q := q, inside := false, sem := b.sem.(waiter := Away)) else b.(q := q)
      else
        var sem := WaiterStep(b.sem);
        if sem.waiter.Through? then
          b.(sem := sem, inside := true, q := StartConsumer(b.q, OpOf(b.call)))
        else b.(sem := sem)
  }

  lemma EnqueueOk<T>(b: Blocking<T>, e: T, canAlloc: bool)
    requires Ok(b) && ProducerFree(b)
    ensures Ok(Run(b, Enqueue(e, canAlloc)))
  {
    hide Inv, Shape, Contents;
    StartEnqueueKeeps(b.q, e, canAlloc);
  }

  lemma ProducerMoveOk<T>(b: Blocking<T>, mallocOk: bool)
    requires Ok(b) && !ProducerFree(b)
    ensures Ok(Run(b, ProducerMove(mallocOk)))
  {
    hide Inv, Shape, Contents;
    if !b.stored && b.sem.signaller.Quiet? {
      ProducerStepKeeps(b.q, mallocOk);
    }
  }

  lemma BeginOk<T>(b: Blocking<T>, call: Call)
    requires Ok(b) && ConsumerFree(b)
    ensures Ok(Run(b, Begin(call)))
  {
    hide Inv, Shape, Contents;
    if call.PeekOnly? { StartConsumerKeeps(b.q, Peek); }
  }

  lemma WaitingOk<T>(b: Blocking<T>)
    requires Ok(b) && CanMove(b, ConsumerMove) && !b.inside
    ensures Ok(Run(b, ConsumerMove))
  {
    hide Inv, Shape, Contents;
    WaiterStepSound(b.sem);
    if WaiterStep(b.sem).waiter.Through? { StartConsumerKeeps(b.q, OpOf(b.call)); }
  }

  /** Having got past the semaphore, the consumer always finds an element. */
  lemma InsideSucceeds<T>(b: Blocking<T>)
    requires Ok(b) && b.inside && !b.call.PeekOnly?
    ensures Contents(b.q) != []
    ensures ConsumerNextState(b.q).cons.CIdle? ==>
              ConsumerNextState(b.q).cons == CIdle(Removed(Contents(b.q)[0]))
    ensures ConsumerNextState(b.q).cons.CCheck? ==> !ConsumerNextState(b.q).wasEmpty
  {
    if b.q.cons.CPublish? { ConsumerStepKeeps(b.q); }
  }

  /** A consumer is turned away only by a call that may not wait, and then there is no element but the one whose
      producer has yet to signal it. */
  lemma RefusedOverNothing<T>(b: Blocking<T>)
    requires Ok(b) && CanMove(b, ConsumerMove) && !b.inside
    ensures var r := Run(b, ConsumerMove);
            && (r.sem.waiter.Refused? ==> |Contents(b.q)| <= (if b.stored then 1 else 0) && r.q == b.q && !b.call.WaitDequeue?)
            && (r.sem.waiter.Asleep? ==> b.call.WaitDequeue?)
  {
    hide Inv, Shape, Contents;
    WaiterOutcome(b.sem);
  }

  lemma InsideOk<T>(b: Blocking<T>)
    requires Ok(b) && b.inside
    ensures Ok(Run(b, ConsumerMove))
  {
    hide Inv, Shape, Contents;
    ConsumerStepKeeps(b.q);
    if !b.call.PeekOnly? { InsideSucceeds(b); }
  }

  lemma MoveOk<T>(b: Blocking<T>, m: Move<T>)
    requires Ok(b) && CanMove(b, m)
    ensures Ok(Run(b, m))
  {
    match m
    case Enqueue(e, canAlloc) => EnqueueOk(b, e, canAlloc);
    case ProducerMove(mallocOk) => ProducerMoveOk(b, mallocOk);
    case Begin(call) => BeginOk(b, call);
    case ConsumerMove => if b.inside { InsideOk(b); } else { WaitingOk(b); }
  }

  ghost function Play<T>(b: Blocking<T>, schedule: seq<Move<T>>): Blocking<T>
    requires Ok(b)
    decreases |schedule|
  {
    if schedule == [] then b
    else if CanMove(b, schedule[0]) then
      MoveOk(b, schedule[0]);
      Play(Run(b, schedule[0]), schedule[1..])
    else Play(b, schedule[1..])
  }

  lemma {:induction false} RunsStayOk<T>(b: Blocking<T>, schedule: seq<Move<T>>)
    requires Ok(b)
    ensures Ok(Play(b, schedule))
    decreases |schedule|
  {
    hide Ok, Run, CanMove;
    if schedule != [] {
      if CanMove(b, schedule[0]) {
        MoveOk(b, schedule[0]);
        RunsStayOk(Run(b, schedule[0]), schedule[1..]);
      } else {
        RunsStayOk(b, schedule[1..]);
      }
    }
  }

  /** No lost wakeup: in every reachable state, a consumer that cannot move on is asleep over a queue
      that is empty, unless the producer is on its way to wake it. */
  lemma NoLostWakeup<T>(b: Blocking<T>, schedule: seq<Move<T>>)
    requires Ok(b)
    ensures var r := Play(b, schedule);
            && Ok(r)
            && (!ConsumerFree(r) && !CanMove(r, ConsumerMove) ==>
              || Contents(r.q) == []
              || r.sem.signaller.Posting?
              || (r.stored && |Contents(r.q)| == 1 && Run(r, ProducerMove(true)).sem.signaller.Posting?))
  {
    RunsStayOk(b, schedule);
    hide Inv, Shape, Contents, Play;
  }
}
