/** Each call does what it was asked to: `enqueue` and `try_enqueue` differ in their leave to allocate, `try_dequeue`,
    `pop` and `peek` in what they take out (include/readerwriterqueue/readerwriterqueue.h:140-322, 413-508). */
module SpscCalls {
  import opened RingBlock
  import opened SpscQueue
  import opened SpscProof
  import opened SpscFifo
  import opened SpscCapacity
  import opened SpscAnswers

  // ---------------------------------------------------------------- enqueueing

  /** Inside a call that enqueues `e`, or after it: one without leave never makes a block and never runs out of
      memory, one with leave is never refused for lack of room. */
  ghost predicate Making<T>(p: Producer<T>, e: T, canAlloc: bool) {
    match p
    case PIdle(result) => result == Stored || (if canAlloc then result == OutOfMemory else result == NoRoom)
    case PRefresh(x, leave) => x == e && leave == canAlloc
    case PFull(x, leave) => x == e && leave == canAlloc
    case PAlloc(x) => x == e && canAlloc
    case PLink(x, _) => x == e && canAlloc
    case _ => p.e == e
  }

  lemma MakingStep<T>(s: State<T>, mallocOk: bool, e: T, canAlloc: bool)
    requires Inv(s) && !s.prod.PIdle? && Making(s.prod, e, canAlloc)
    ensures Making(ProducerNextState(s, mallocOk).prod, e, canAlloc)
  {
    hide *;
    if s.prod.PRefresh? || s.prod.PFull? {
      MakingLook(s, mallocOk, e, canAlloc);
    } else if s.prod.PAlloc? || s.prod.PLink? || s.prod.PSwing? {
      MakingBlock(s, mallocOk, e, canAlloc);
    } else {
      MakingElement(s, mallocOk, e, canAlloc);
    }
  }

  lemma MakingLook<T>(s: State<T>, mallocOk: bool, e: T, canAlloc: bool)
    requires Inv(s) && (s.prod.PRefresh? || s.prod.PFull?) && Making(s.prod, e, canAlloc)
    ensures Making(ProducerNextState(s, mallocOk).prod, e, canAlloc)
  {
    hide Inv, Shape, Contents;
  }

  lemma MakingBlock<T>(s: State<T>, mallocOk: bool, e: T, canAlloc: bool)
    requires Inv(s) && (s.prod.PAlloc? || s.prod.PLink? || s.prod.PSwing?) && Making(s.prod, e, canAlloc)
    ensures Making(ProducerNextState(s, mallocOk).prod, e, canAlloc)
  {
    hide Inv, Shape, Contents;
  }

  lemma MakingElement<T>(s: State<T>, mallocOk: bool, e: T, canAlloc: bool)
    requires Inv(s) && (s.prod.PBuild? || s.prod.PPublish? || s.prod.PReuse? || s.prod.PReuseBuild? || s.prod.PReusePublish?)
    requires Making(s.prod, e, canAlloc)
    ensures Making(ProducerNextState(s, mallocOk).prod, e, canAlloc)
  {
    hide Inv, Shape, Contents;
  }

  lemma StoredStep<T>(s: State<T>, mallocOk: bool)
    requires Inv(s) && !s.prod.PIdle?
    ensures ProducerNextState(s, mallocOk).prod == PIdle(Stored) <==> s.prod.PPublish? || s.prod.PSwing?
  {
    hide Inv, Shape, Contents;
  }

  /** From `s0`, where the call began, to `r`: the element is in once the call says so and not before, and without
      leave the ring has the blocks it had. */
  ghost predicate Since<T>(s0: State<T>, r: State<T>, e: T, canAlloc: bool) {
    && Making(r.prod, e, canAlloc)
    && r.enq == s0.enq + (if r.prod == PIdle(Stored) then [e] else [])
    && (!canAlloc ==> |r.blocks| == |s0.blocks| && r.largest == s0.largest && |r.ring| == |s0.ring|)
  }

  lemma SinceStart<T>(s: State<T>, e: T, canAlloc: bool)
    requires Inv(s) && s.prod.PIdle?
    ensures Since(s, Apply(s, CallEnqueue(e, canAlloc)), e, canAlloc)
  {
    hide Inv, Contents;
  }

  lemma SinceProducer<T>(s0: State<T>, s: State<T>, mallocOk: bool, e: T, canAlloc: bool)
    requires Inv(s) && !s.prod.PIdle? && Since(s0, s, e, canAlloc)
    ensures Since(s0, ProducerNextState(s, mallocOk), e, canAlloc)
  {
    hide Inv, Shape, Contents, ProducerNextState, SameSizes;
    MakingStep(s, mallocOk, e, canAlloc);
    StoredStep(s, mallocOk);
    ProducerHistory(s, mallocOk);
    if !canAlloc {
      ProducerSizes(s, mallocOk);
      SizesSame(s, ProducerNextState(s, mallocOk));
    }
  }

  lemma SizesSame<T>(s: State<T>, r: State<T>)
    requires SameSizes(s, r)
    ensures |r.blocks| == |s.blocks| && r.largest == s.largest && |r.ring| == |s.ring|
  {
  }

  lemma SinceConsumer<T>(s0: State<T>, s: State<T>, e: T, canAlloc: bool)
    requires Inv(s) && !s.cons.CIdle? && Since(s0, s, e, canAlloc)
    ensures Since(s0, ConsumerNextState(s), e, canAlloc)
  {
    hide Inv, Shape, Contents, ConsumerNextState, SameSizes;
    ConsumerHistory(s);
    SameProducer(s);
    ConsumerSizes(s);
    SizesSame(s, ConsumerNextState(s));
  }

  lemma SinceStep<T>(s0: State<T>, s: State<T>, a: Action<T>, e: T, canAlloc: bool)
    requires Inv(s) && Enabled(s, a) && Since(s0, s, e, canAlloc) && !(a.CallEnqueue? && s.prod.PIdle?)
    ensures Since(s0, Apply(s, a), e, canAlloc)
  {
    hide Inv, Shape, Contents, ProducerNextState, ConsumerNextState;
    match a
    case CallEnqueue(_, _) =>
    case ProducerStep(mallocOk) => SinceProducer(s0, s, mallocOk, e, canAlloc);
    case CallConsumer(_) =>
    case ConsumerStep => SinceConsumer(s0, s, e, canAlloc);
  }

  /** Action `j` of the run is an allocation, and fails. */
  ghost predicate Denied<T>(s: State<T>, schedule: seq<Action<T>>, j: nat)
    requires Inv(s)
  {
    j < |schedule| && schedule[j] == ProducerStep(false) && Exec(s, schedule[..j]).prod.PAlloc?
  }

  lemma DeniedStep<T>(s: State<T>, a: Action<T>)
    requires Inv(s) && Enabled(s, a) && Apply(s, a).prod == PIdle(OutOfMemory)
    ensures (a == ProducerStep(false) && s.prod.PAlloc?) || (s.prod == PIdle(OutOfMemory) && !a.CallEnqueue?)
  {
    hide Inv, Shape, Contents, ConsumerNextState;
    if a.ProducerStep? { OutOfMemoryStep(s, a.mallocOk); }
    if a.ConsumerStep? { SameProducer(s); }
    hide ProducerNextState;
  }

  lemma OutOfMemoryStep<T>(s: State<T>, mallocOk: bool)
    requires Inv(s) && !s.prod.PIdle?
    ensures ProducerNextState(s, mallocOk).prod == PIdle(OutOfMemory) <==> s.prod.PAlloc? && !mallocOk
  {
    hide Inv, Shape, Contents;
  }

  lemma DeniedStill<T>(s: State<T>, schedule: seq<Action<T>>, a: Action<T>, j: nat)
    requires Inv(s) && Denied(s, schedule, j)
    ensures Denied(s, schedule + [a], j)
  {
    hide Inv, Exec;
    assert (schedule + [a])[..j] == schedule[..j];
  }

  lemma DeniedNow<T>(s: State<T>, before: seq<Action<T>>)
    requires Inv(s) && Exec(s, before).prod.PAlloc?
    ensures Denied(s, before + [ProducerStep(false)], |before|)
  {
    hide Inv, Exec;
    assert (before + [ProducerStep(false)])[..|before|] == before;
  }

  /** The run `run` begins with a call that enqueues `e`, and the producer makes no other. */
  ghost predicate OneEnqueue<T>(s: State<T>, run: seq<Action<T>>, e: T, canAlloc: bool)
    requires Inv(s)
  {
    && s.prod.PIdle? && |run| > 0 && run[0] == CallEnqueue(e, canAlloc)
    && forall i | 1 <= i < |run| :: !Begins(s, run, i)
  }

  lemma OneEnqueueLess<T>(s: State<T>, before: seq<Action<T>>, a: Action<T>, e: T, canAlloc: bool)
    requires Inv(s) && OneEnqueue(s, before + [a], e, canAlloc) && |before| > 0
    ensures OneEnqueue(s, before, e, canAlloc) && !(a.CallEnqueue? && Exec(s, before).prod.PIdle?)
  {
    hide Inv, Exec;
    var all := before + [a];
    forall j | 1 <= j < |before| ensures !Begins(s, before, j) {
      assert all[..j] == before[..j] && !Begins(s, all, j);
    }
    assert all[..|before|] == before && !Begins(s, all, |before|);
  }

  lemma OnlyTheCall<T>(s: State<T>, a: Action<T>)
    requires Inv(s) && Enabled(s, a)
    ensures Exec(s, [a]) == Apply(s, a)
  {
    hide Inv, Apply, Enabled;
    ExecLast(s, [], a);
    assert [] + [a] == [a];
  }

  /** What a call of `enqueue` (`canAlloc`) or `try_enqueue` comes to, under any schedule in which the producer makes no
      other. It is about its own element. Without leave: the element is stored or there is no room, and the ring has the
      blocks it had. With leave: it is stored, or an allocation the call asked for failed, as action `j`. */
  lemma {:induction false} EnqueueOutcome<T>(s: State<T>, run: seq<Action<T>>, e: T, canAlloc: bool) returns (j: nat)
    requires Inv(s) && OneEnqueue(s, run, e, canAlloc)
    ensures var r := Exec(s, run);
            && Making(r.prod, e, canAlloc)
            && r.enq == s.enq + (if r.prod == PIdle(Stored) then [e] else [])
            && (!canAlloc ==> |r.blocks| == |s.blocks| && r.largest == s.largest && |r.ring| == |s.ring|)
            && (r.prod.PIdle? ==> r.prod.result == Stored || r.prod.result == if canAlloc then OutOfMemory else NoRoom)
            && (r.prod == PIdle(OutOfMemory) ==> Denied(s, run, j))
    decreases |run|
  {
    hide Inv, Shape, Contents, Apply, Exec, Denied, Begins;
    j := 0;
    if |run| == 1 {
      assert run == [run[0]];
      OnlyTheCall(s, run[0]);
      SinceStart(s, e, canAlloc);
      NotOver(s, e, canAlloc);
    } else {
      var before, a := run[..|run| - 1], run[|run| - 1];
      assert run == before + [a];
      OneEnqueueLess(s, before, a, e, canAlloc);
      j := EnqueueOutcome(s, before, e, canAlloc);
      j := OneMoreInCall(s, before, a, e, canAlloc, j);
    }
  }

  lemma OneMoreInCall<T>(s: State<T>, before: seq<Action<T>>, a: Action<T>, e: T, canAlloc: bool, j: nat) returns (k: nat)
    requires Inv(s) && !(a.CallEnqueue? && Exec(s, before).prod.PIdle?)
    requires Since(s, Exec(s, before), e, canAlloc)
    requires Exec(s, before).prod == PIdle(OutOfMemory) ==> Denied(s, before, j)
    ensures Since(s, Exec(s, before + [a]), e, canAlloc)
    ensures Exec(s, before + [a]).prod == PIdle(OutOfMemory) ==> Denied(s, before + [a], k)
  {
    var r := Exec(s, before);
    ExecLast(s, before, a);
    k := j;
    hide Inv, Shape, Contents, Apply, Exec, Since, Denied, Enabled;
    if Enabled(r, a) { SinceStep(s, r, a, e, canAlloc); }
    if Exec(s, before + [a]).prod == PIdle(OutOfMemory) {
      if Enabled(r, a) { DeniedStep(r, a); }
      if r.prod.PAlloc? {
        k := |before|;
        DeniedNow(s, before);
      } else {
        DeniedStill(s, before, a, j);
      }
    }
  }

  lemma NotOver<T>(s: State<T>, e: T, canAlloc: bool)
    requires Inv(s) && s.prod.PIdle?
    ensures !Apply(s, CallEnqueue(e, canAlloc)).prod.PIdle?
  {
    hide Inv, Contents;
  }

  /** So an `enqueue` to which no allocation is refused always stores its element. */
  lemma WithMemoryStored<T>(s: State<T>, run: seq<Action<T>>, e: T)
    requires Inv(s) && OneEnqueue(s, run, e, true) && ProducerStep(false) !in run
    ensures var r := Exec(s, run);
            r.prod.PIdle? ==> r.prod.result == Stored && r.enq == s.enq + [e]
  {
    hide Inv, Shape, Contents, Apply, Exec, OneEnqueue;
    var j := EnqueueOutcome(s, run, e, true);
  }

  /** A block is made only when no block ahead is free, and then the queue held, at a moment of the call, everything
      that its blocks have room for. */
  lemma MakesOnlyWhenFull<T>(s: State<T>, m: nat)
    requires Inv(s) && s.prod.PFull? && AtLeast(s, m) && s.prod.canAlloc
    ensures !CompareWithFront(s).prod.PReuse? ==> CompareWithFront(s).prod.PAlloc? && CompareWithFront(s).seen >= Capacity(|s.ring|, m)
  {
    FullIfLast(s, m);
    hide Inv, Shape, Contents;
  }

  lemma FullIfLast<T>(s: State<T>, m: nat)
    requires Inv(s) && s.prod.PFull? && AtLeast(s, m)
    ensures s.blocks[s.tailBlock].next == s.frontBlock ==> CompareWithFront(s).seen >= Capacity(|s.ring|, m)
  {
    FollowLink(s.blocks, s.ring, s.at);
    if s.blocks[s.tailBlock].next == s.frontBlock {
      if |s.ring| > 1 {
        RestFull(s, m);
      } else {
        assert s.at == 0 && s.tailBlock == s.ring[0];
      }
    }
    hide Lives, Filling, Contents, Flat, Fifo, RingOk, ConsumerFront, ConsumerNext, ProducerNext;
  }

  // ---------------------------------------------------------------- taking

  /** Inside a call of the consumer's, or after it: a `peek` shows, the others remove, and either may find nothing. */
  ghost predicate Taking<T>(c: Consumer<T>, op: ConsumerOp) {
    match c
    case CIdle(answer) => answer == Empty || (if op == Peek then answer.Front? else answer.Removed?)
    case CPublish(_) => op != Peek
    case CAdvance(o, _) => o == op && op != Peek
    case _ => c.op == op
  }

  /** What the call has taken out so far. */
  ghost predicate Took<T>(s0: State<T>, r: State<T>, op: ConsumerOp) {
    && Taking(r.cons, op)
    && r.deq == s0.deq + (if r.cons.CIdle? && r.cons.answer.Removed? then [r.cons.answer.value] else [])
  }

  lemma TakingStep<T>(s: State<T>, op: ConsumerOp)
    requires Inv(s) && !s.cons.CIdle? && Taking(s.cons, op)
    ensures Taking(ConsumerNextState(s).cons, op)
    ensures s.cons.CPublish? ==> ConsumerNextState(s).cons == CIdle(Removed(s.cons.value))
    ensures !s.cons.CPublish? ==> !(ConsumerNextState(s).cons.CIdle? && ConsumerNextState(s).cons.answer.Removed?)
  {
    hide Inv, Shape, Contents;
  }

  lemma TookStep<T>(s0: State<T>, s: State<T>, a: Action<T>, op: ConsumerOp)
    requires Inv(s) && Enabled(s, a) && Took(s0, s, op) && !(a.CallConsumer? && s.cons.CIdle?)
    ensures Took(s0, Apply(s, a), op)
  {
    hide Inv, Shape, Contents, ProducerNextState, ConsumerNextState;
    match a
    case CallEnqueue(_, _) =>
    case ProducerStep(mallocOk) =>
      SameConsumer(s, mallocOk);
      ProducerHistory(s, mallocOk);
    case CallConsumer(_) =>
    case ConsumerStep =>
      TakingStep(s, op);
      ConsumerHistory(s);
  }

  /** The run `run` begins with a call of the consumer's, and the consumer makes no other. */
  ghost predicate OneTaking<T>(s: State<T>, run: seq<Action<T>>, op: ConsumerOp)
    requires Inv(s)
  {
    && s.cons.CIdle? && |run| > 0 && run[0] == CallConsumer(op)
    && forall i | 1 <= i < |run| :: !Asks(s, run, i)
  }

  lemma OneTakingLess<T>(s: State<T>, before: seq<Action<T>>, a: Action<T>, op: ConsumerOp)
    requires Inv(s) && OneTaking(s, before + [a], op) && |before| > 0
    ensures OneTaking(s, before, op) && !(a.CallConsumer? && Exec(s, before).cons.CIdle?)
  {
    hide Inv, Exec;
    var all := before + [a];
    forall j | 1 <= j < |before| ensures !Asks(s, before, j) {
      assert all[..j] == before[..j] && !Asks(s, all, j);
    }
    assert all[..|before|] == before && !Asks(s, all, |before|);
  }

  /** What a call of `try_dequeue`, `pop` or `peek` comes to, under any schedule in which the consumer makes no other: a
      `peek` takes nothing out, the others exactly the element they answer with. */
  lemma {:induction false} TakingOutcome<T>(s: State<T>, run: seq<Action<T>>, op: ConsumerOp)
    requires Inv(s) && OneTaking(s, run, op)
    ensures var r := Exec(s, run);
            && Taking(r.cons, op)
            && if !r.cons.CIdle? || r.cons.answer.Empty? then r.deq == s.deq
               else if op == Peek then r.cons.answer.Front? && r.deq == s.deq
               else r.cons.answer.Removed? && r.deq == s.deq + [r.cons.answer.value]
    decreases |run|
  {
    hide Inv, Shape, Contents, Apply, Enabled, Exec, Asks;
    if |run| == 1 {
      assert run == [run[0]];
      TheTaking(s, op);
      TookStart(s, op);
    } else {
      var before, a := run[..|run| - 1], run[|run| - 1];
      assert run == before + [a];
      OneTakingLess(s, before, a, op);
      TakingOutcome(s, before, op);
      ExecLast(s, before, a);
      hide OneTaking;
      if Enabled(Exec(s, before), a) { TookStep(s, Exec(s, before), a, op); }
    }
  }

  lemma TheTaking<T>(s: State<T>, op: ConsumerOp)
    requires Inv(s) && s.cons.CIdle?
    ensures Exec(s, [CallConsumer(op)]) == Apply(s, CallConsumer(op))
  {
    OnlyTheCall(s, CallConsumer(op));
  }

  lemma TookStart<T>(s: State<T>, op: ConsumerOp)
    requires Inv(s) && s.cons.CIdle?
    ensures Took(s, Apply(s, CallConsumer(op)), op)
  {
    hide Inv, Contents;
  }
}
