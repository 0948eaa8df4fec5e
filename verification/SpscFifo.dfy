/** What a ReaderWriterQueue promises its two threads, in every interleaving. */
module SpscFifo {
  import opened Division
  import opened RingBlock
  import opened SpscQueue
  import opened SpscProof

  /** What one step does to the queue seen as a plain sequence. */
  datatype Effect<T> = Nothing | Append(e: T) | RemoveFirst

  ghost function EffectOf<T>(s: State<T>, a: Action<T>): Effect<T> {
    if a.ProducerStep? && s.prod.PPublish? then Append(s.prod.e)
    else if a.ProducerStep? && s.prod.PSwing? then Append(s.prod.e)
    else if a.ConsumerStep? && s.cons.CPublish? then RemoveFirst
    else Nothing
  }

  ghost function Perform<T>(contents: seq<T>, f: Effect<T>): seq<T>
    requires f.RemoveFirst? ==> contents != []
  {
    match f
    case Nothing => contents
    case Append(e) => contents + [e]
    case RemoveFirst => contents[1..]
  }

  lemma ProducerStepKeeps<T>(s: State<T>, mallocOk: bool)
    requires Inv(s) && !s.prod.PIdle?
    ensures var s' := ProducerNextState(s, mallocOk); Inv(s')
    ensures var f := EffectOf(s, ProducerStep(mallocOk));
            !f.RemoveFirst? && Contents(ProducerNextState(s, mallocOk)) == Perform(Contents(s), f)
  {
    hide Inv, Shape, Contents;
    match s.prod
    case PRefresh(_, _) => RefreshFrontKeeps(s);
    case PBuild(_) => BuildKeeps(s);
    case PPublish(_) => PublishKeeps(s);
    case PFull(_, _) => CompareWithFrontKeeps(s);
    case PReuse(_, _) => ReuseLoadKeeps(s);
    case PReuseBuild(_, _) => ReuseBuildKeeps(s);
    case PReusePublish(_, _) => ReusePublishKeeps(s);
    case PAlloc(_) => AllocKeeps(s, mallocOk);
    case PLink(_, _) => LinkKeeps(s);
    case PSwing(_, _) => SwingKeeps(s);
  }

  lemma ConsumerStepKeeps<T>(s: State<T>)
    requires Inv(s) && !s.cons.CIdle?
    ensures var s' := ConsumerNextState(s); Inv(s')
    ensures s.cons.CPublish? ==> Contents(s) == [s.cons.value] + Contents(ConsumerNextState(s))
    ensures !s.cons.CPublish? ==> Contents(ConsumerNextState(s)) == Contents(s)
  {
    hide Inv, Shape, Contents;
    match s.cons
    case CRefresh(_) => RefreshTailKeeps(s);
    case CCheck(_) => CompareWithTailKeeps(s);
    case CReload(_) => ReloadTailKeeps(s);
    case CNext(_) => ReadNextKeeps(s);
    case CEnter(_, _) => EnterKeeps(s);
    case CAdvance(_, _) => AdvanceKeeps(s);
    case CFound(_) => TakeFoundKeeps(s);
    case CPublish(_) => PublishFrontKeeps(s);
  }

  /** Refinement: every step is a step of a FIFO sequence or leaves that sequence alone. */
  lemma StepRefinesFifo<T>(s: State<T>, a: Action<T>)
    requires Inv(s) && Enabled(s, a)
    ensures Inv(Apply(s, a))
    ensures EffectOf(s, a).RemoveFirst? ==> Contents(s) != [] && Contents(s)[0] == s.cons.value
    ensures Contents(Apply(s, a)) == Perform(Contents(s), EffectOf(s, a))
  {
    hide Inv, Shape, Contents;
    match a
    case CallEnqueue(e, canAlloc) => StartEnqueueKeeps(s, e, canAlloc);
    case ProducerStep(mallocOk) => ProducerStepKeeps(s, mallocOk);
    case CallConsumer(op) => StartConsumerKeeps(s, op);
    case ConsumerStep => ConsumerStepKeeps(s);
  }

  /** Any interleaving: a schedule picks who moves next; a move that is not possible is skipped. */
  ghost function Exec<T>(s: State<T>, schedule: seq<Action<T>>): (r: State<T>)
    requires Inv(s)
    ensures Inv(r)
    decreases |schedule|
  {
    if schedule == [] then s
    else if Enabled(s, schedule[0]) then
      StepRefinesFifo(s, schedule[0]);
      Exec(Apply(s, schedule[0]), schedule[1..])
    else Exec(s, schedule[1..])
  }

  lemma FifoNow<T>(s: State<T>)
    requires Inv(s)
    ensures s.enq == s.deq + Contents(s) && s.peeked <= Contents(s) && |s.peeked| <= 1
  {
  }

  lemma StepHistory<T>(s: State<T>, a: Action<T>)
    requires Inv(s) && Enabled(s, a)
    ensures var s' := Apply(s, a);
            match EffectOf(s, a)
            case Nothing => s'.enq == s.enq && s'.deq == s.deq && s.peeked <= s'.peeked
            case Append(e) => s'.enq == s.enq + [e] && s'.deq == s.deq && s'.peeked == s.peeked
            case RemoveFirst => s'.enq == s.enq && s'.deq == s.deq + [s.cons.value]
  {
    if a.ConsumerStep? { ConsumerHistory(s); }
    if a.ProducerStep? { ProducerHistory(s, a.mallocOk); }
    hide Inv, Shape, Contents, ProducerNextState, ConsumerNextState;
  }

  lemma ConsumerHistory<T>(s: State<T>)
    requires Inv(s) && !s.cons.CIdle?
    ensures var s' := ConsumerNextState(s);
            && s'.enq == s.enq && s'.deq == s.deq + (if s.cons.CPublish? then [s.cons.value] else [])
            && (s.cons.CPublish? || s.peeked <= s'.peeked)
  {
    if s.peeked != [] && !s.cons.CPublish? { PeekAgain(s); }
    hide Inv, Shape, Contents;
    if s.cons.CPublish? {
      assert ConsumerNextState(s) == PublishFront(s);
    } else {
      QuietConsumer(s);
      hide ConsumerNextState;
    }
  }

  lemma QuietConsumer<T>(s: State<T>)
    requires Inv(s) && !s.cons.CIdle? && !s.cons.CPublish?
    ensures ConsumerNextState(s).enq == s.enq && ConsumerNextState(s).deq == s.deq
  {
    hide Inv, Shape, Contents;
  }

  lemma ProducerHistory<T>(s: State<T>, mallocOk: bool)
    requires Inv(s) && !s.prod.PIdle?
    ensures var s' := ProducerNextState(s, mallocOk);
            && s'.deq == s.deq && s'.peeked == s.peeked
            && (match EffectOf(s, ProducerStep(mallocOk))
                case Append(e) => s'.enq == s.enq + [e]
                case _ => s'.enq == s.enq)
  {
    hide Inv, Shape, Contents;
  }

  lemma PeekAgain<T>(s: State<T>)
    requires Inv(s) && !s.cons.CIdle? && !s.cons.CPublish? && s.peeked != []
    ensures ConsumerNextState(s).peeked == s.peeked
  {
    if s.cons.CFound? {
      FoundAgain(s);
      hide Inv, Shape, Contents;
      assert ConsumerNextState(s) == TakeFound(s);
    } else if s.cons.CEnter? {
      EnteredAgain(s);
      hide Inv, Shape, Contents;
      assert ConsumerNextState(s) == Enter(s);
    } else {
      hide Inv, Shape, Contents;
    }
    hide Inv, Shape, Contents;
  }

  lemma FoundAgain<T>(s: State<T>)
    requires Inv(s) && s.cons.CFound? && s.peeked != []
    ensures TakeFound(s).peeked == s.peeked
  {
    TakeFoundKeeps(s);
    assert s.peeked <= Contents(s) && |s.peeked| == 1;
    hide Inv, Shape, Contents;
    if s.cons.op.Peek? {
      assert s.peeked == [s.peeked[0]];
    }
  }

  lemma EnteredAgain<T>(s: State<T>)
    requires Inv(s) && s.cons.CEnter? && s.peeked != []
    ensures Enter(s).peeked == s.peeked
  {
    EnterKeeps(s);
    assert s.peeked <= Contents(s) && |s.peeked| == 1;
    hide Inv, Shape, Contents;
    if s.cons.op.Peek? {
      assert s.peeked == [s.peeked[0]];
    }
  }

  /** At every point of every interleaving, what was dequeued followed by what is queued is what
      was enqueued; nothing that was dequeued or enqueued is ever taken back. */
  lemma {:induction false} AlwaysFifo<T>(s: State<T>, schedule: seq<Action<T>>)
    requires Inv(s)
    ensures var s' := Exec(s, schedule);
            s'.enq == s'.deq + Contents(s') && s.deq <= s'.deq && s.enq <= s'.enq
    decreases |schedule|
  {
    hide Inv, Shape, Contents, Apply;
    FifoNow(Exec(s, schedule));
    if schedule != [] {
      if Enabled(s, schedule[0]) {
        StepRefinesFifo(s, schedule[0]);
        StepHistory(s, schedule[0]);
        AlwaysFifo(Apply(s, schedule[0]), schedule[1..]);
      } else {
        AlwaysFifo(s, schedule[1..]);
      }
    }
  }

  /** The element a peek showed is the next one to leave, whatever happens in between. */
  lemma {:induction false} PeekedLeavesNext<T>(s: State<T>, schedule: seq<Action<T>>)
    requires Inv(s) && s.peeked != []
    ensures var s' := Exec(s, schedule);
            (s'.deq == s.deq && s'.peeked == s.peeked) || s.deq + s.peeked <= s'.deq
    decreases |schedule|
  {
    hide Inv, Shape, Contents, Apply;
    FifoNow(s);
    if schedule != [] {
      var a := schedule[0];
      if Enabled(s, a) {
        StepRefinesFifo(s, a);
        StepHistory(s, a);
        if EffectOf(s, a).RemoveFirst? {
          assert s.peeked == [s.cons.value];
          AlwaysFifo(Apply(s, a), schedule[1..]);
        } else {
          FifoNow(Apply(s, a));
          PeekedLeavesNext(Apply(s, a), schedule[1..]);
        }
      } else {
        PeekedLeavesNext(s, schedule[1..]);
      }
    }
  }

  /** What the consumer is told. `Empty` comes only from a call during which the queue was empty
      (`wasEmpty`, taken when the front block's tail was reloaded), and never after a successful peek. */
  lemma TruthfulAnswers<T>(s: State<T>)
    requires Inv(s) && !s.cons.CIdle? && ConsumerNextState(s).cons.CIdle?
    ensures match ConsumerNextState(s).cons.answer
            case NothingAsked => false
            case Empty => s.wasEmpty && s.peeked == []
            case Removed(v) => Contents(s) != [] && Contents(s)[0] == v && s.peeked <= [v]
            case Front(v) => Contents(s) != [] && Contents(s)[0] == v && s.peeked <= [v]
  {
    FifoNow(s);
    if s.cons.CPublish? {
      PublishFrontKeeps(s);
    } else {
      QuietAnswer(s);
    }
    hide Inv, Shape, Contents;
  }

  /** The answers that take nothing out. */
  lemma QuietAnswer<T>(s: State<T>)
    requires Inv(s) && !s.cons.CIdle? && !s.cons.CPublish? && ConsumerNextState(s).cons.CIdle?
    ensures match ConsumerNextState(s).cons.answer
            case Empty => s.wasEmpty && s.peeked == []
            case Front(v) => Contents(s) != [] && Contents(s)[0] == v
            case _ => false
  {
    if s.cons.CEnter? { EnterKeeps(s); }
    if s.cons.CFound? { TakeFoundKeeps(s); }
    hide Lives, Filling, ProducerTail, ProducerNext, RingOk, Contents;
  }

  /** The source's assertions, and the lifetime rules its raw memory needs. */
  lemma AssertionsHold<T>(s: State<T>)
    requires Inv(s)
    ensures s.prod.PReuseBuild? ==> s.blocks[s.prod.nb].localFront == s.blocks[s.prod.nb].tail
    ensures s.cons.CEnter? ==> s.blocks[s.cons.nb].front != s.blocks[s.cons.nb].tail
    ensures s.prod.PBuild? ==> var b := s.blocks[s.tailBlock]; !b.cells[b.tail].live
    ensures s.prod.PReuseBuild? ==> var b := s.blocks[s.prod.nb]; !b.cells[b.tail].live
    ensures s.cons.CFound? ==> var b := s.blocks[s.frontBlock]; b.cells[b.front].live
  {
  }

  // ---------------------------------------------------------------- capacity

  /** All blocks of the ring have `m` slots or more. */
  ghost predicate AtLeast<T>(s: State<T>, m: nat) {
    forall i | 0 <= i < |s.ring| :: s.ring[i] < |s.blocks| && s.blocks[s.ring[i]].Size() >= m
  }

  lemma {:induction false} FlatFull<T>(blocks: Heap<T>, ids: seq<nat>, m: nat)
    requires Listed(blocks, ids)
    requires forall i | 0 <= i < |ids| :: blocks[ids[i]].Size() >= m && blocks[ids[i]].IsFull()
    ensures |Flat(blocks, ids)| >= |ids| * (m - 1)
  {
    if ids != [] {
      FlatFull(blocks, ids[1..], m);
      var rest := |ids| - 1;
      assert (rest + 1) * (m - 1) == rest * (m - 1) + (m - 1);
    }
  }

  /** What a queue with so many blocks of so many slots can hold without another one. */
  function Capacity(ringSize: nat, m: nat): int {
    if ringSize == 1 then m - 1 else (ringSize - 1) * (m - 1)
  }

  lemma CapacityGrows(n: nat, ringSize: nat, m: nat)
    requires 1 <= n <= ringSize && m >= 1
    ensures Capacity(n, m) <= Capacity(ringSize, m)
  {
    if m > 1 && ringSize > 1 {
      Scales(if n == 1 then 1 else n - 1, ringSize - 1, m - 1);
    }
  }

  /** With no leave to allocate, the producer gives up only if the queue held its capacity at one
      of the two moments it looked. */
  lemma NoRoomMeansFull<T>(s: State<T>, m: nat)
    requires Inv(s) && s.prod.PFull? && AtLeast(s, m)
    requires CompareWithFront(s).prod.PIdle?
    ensures CompareWithFront(s).prod.result.NoRoom?
    ensures CompareWithFront(s).seen >= Capacity(|s.ring|, m)
  {
    FollowLink(s.blocks, s.ring, s.at);
    if |s.ring| > 1 {
      assert s.at == |s.ring| - 1;
      RestFull(s, m);
    } else {
      assert s.at == 0 && s.tailBlock == s.ring[0];
    }
    hide Lives, Filling, Contents, Flat, Fifo, RingOk, ConsumerFront, ConsumerNext, ProducerNext;
  }

  /** With the tail block last in the ring and full, so is every block but the front one. */
  lemma RestFull<T>(s: State<T>, m: nat)
    requires Inv(s) && s.prod.PFull? && AtLeast(s, m) && s.at == |s.ring| - 1 >= 1
    ensures |Contents(s)| >= (|s.ring| - 1) * (m - 1)
  {
    hide Lives, Fifo, ConsumerFront, ConsumerNext, ProducerNext;
    var rest := s.ring[1..s.at + 1];
    FlatFull(s.blocks, rest, m);
    assert s.ring[..s.at + 1][1..] == rest;
  }

  /** A ring of at least `n` blocks of at least `m` slots; a block made for it is no smaller. */
  ghost predicate Roomy<T>(s: State<T>, n: nat, m: nat) {
    && AtLeast(s, m) && |s.ring| >= n >= 1 && s.largest >= m >= 1
    && (s.prod.PLink? ==> s.prod.nb < |s.blocks| && s.blocks[s.prod.nb].Size() >= m)
  }

  /** The last refusal, if the producer has just been refused, came when the queue held `n` blocks' capacity. */
  ghost predicate RefusedFull<T>(s: State<T>, n: nat, m: nat) {
    s.prod.PIdle? && s.prod.result.NoRoom? ==> s.seen >= Capacity(n, m)
  }

  /** The ring never shrinks and no smaller block ever joins it. */
  lemma StaysRoomy<T>(s: State<T>, a: Action<T>, n: nat, m: nat)
    requires Inv(s) && Enabled(s, a) && Roomy(s, n, m)
    ensures Roomy(Apply(s, a), n, m)
  {
    hide Inv, Shape, Contents;
    InRange(s);
    if a.ProducerStep? {
      ProducerStaysRoomy(s, a.mallocOk, n, m);
      hide ProducerNextState, ConsumerNextState, Roomy;
    } else if a.ConsumerStep? {
      ConsumerStaysRoomy(s, n, m);
      hide ProducerNextState, ConsumerNextState, Roomy;
    }
  }

  /** No block changes its size, and none leaves the ring. */
  ghost predicate SameSizes<T>(s: State<T>, r: State<T>) {
    && |r.blocks| == |s.blocks| && (forall x | 0 <= x < |s.blocks| :: r.blocks[x].Size() == s.blocks[x].Size())
    && |r.ring| == |s.ring| && (forall x | x in r.ring :: x in s.ring) && r.largest == s.largest
  }

  lemma SameSizesRoomy<T>(s: State<T>, r: State<T>, n: nat, m: nat)
    requires Roomy(s, n, m) && SameSizes(s, r) && (r.prod.PLink? ==> r.prod == s.prod)
    ensures Roomy(r, n, m)
  {
    forall i | 0 <= i < |r.ring| ensures r.ring[i] < |r.blocks| && r.blocks[r.ring[i]].Size() >= m {
      assert r.ring[i] in s.ring;
    }
  }

  lemma ProducerStaysRoomy<T>(s: State<T>, mallocOk: bool, n: nat, m: nat)
    requires Inv(s) && !s.prod.PIdle? && Roomy(s, n, m)
    ensures Roomy(ProducerNextState(s, mallocOk), n, m)
  {
    hide Inv, Shape, Contents;
    InRange(s);
    if s.prod.PAlloc? {
      AllocStaysRoomy(s, mallocOk, n, m);
    } else if s.prod.PLink? {
      LinkStaysRoomy(s, n, m);
    } else {
      ProducerSizes(s, mallocOk);
      SameSizesRoomy(s, ProducerNextState(s, mallocOk), n, m);
      hide ProducerNextState;
    }
    hide Roomy;
  }

  lemma ProducerSizes<T>(s: State<T>, mallocOk: bool)
    requires Inv(s) && !s.prod.PIdle? && !s.prod.PAlloc? && !s.prod.PLink?
    ensures SameSizes(s, ProducerNextState(s, mallocOk)) && !ProducerNextState(s, mallocOk).prod.PLink?
  {
    hide Inv, Shape, Contents;
    InRange(s);
  }

  lemma AllocStaysRoomy<T>(s: State<T>, mallocOk: bool, n: nat, m: nat)
    requires Inv(s) && s.prod.PAlloc? && Roomy(s, n, m)
    ensures Roomy(ProducerNextState(s, mallocOk), n, m)
  {
    hide Inv, Shape, Contents;
    InRange(s);
  }

  lemma LinkStaysRoomy<T>(s: State<T>, n: nat, m: nat)
    requires Inv(s) && s.prod.PLink? && Roomy(s, n, m)
    ensures Roomy(ProducerNextState(s, false), n, m)
  {
    hide Inv, Shape, Contents;
    InRange(s);
  }

  lemma ConsumerStaysRoomy<T>(s: State<T>, n: nat, m: nat)
    requires Inv(s) && !s.cons.CIdle? && Roomy(s, n, m)
    ensures Roomy(ConsumerNextState(s), n, m)
  {
    ConsumerSizes(s);
    hide Inv, Shape, Contents, ConsumerNextState, SameSizes, Roomy;
    SameProducer(s);
    SameSizesRoomy(s, ConsumerNextState(s), n, m);
  }

  lemma ConsumerSizes<T>(s: State<T>)
    requires Inv(s) && !s.cons.CIdle?
    ensures SameSizes(s, ConsumerNextState(s))
  {
    hide Inv, Shape, Contents;
    InRange(s);
  }

  lemma StepRefusesFull<T>(s: State<T>, a: Action<T>, n: nat, m: nat)
    requires Inv(s) && Enabled(s, a) && Roomy(s, n, m) && RefusedFull(s, n, m)
    ensures RefusedFull(Apply(s, a), n, m)
  {
    hide Inv, Shape, Contents, Capacity;
    InRange(s);
    if a.ProducerStep? {
      if s.prod.PFull? && CompareWithFront(s).prod.PIdle? {
        NoRoomMeansFull(s, m);
        CapacityGrows(n, |s.ring|, m);
      }
    } else if a.ConsumerStep? {
      SameProducer(s);
      hide ConsumerNextState;
    }
  }

  lemma SameProducer<T>(s: State<T>)
    requires Inv(s) && !s.cons.CIdle?
    ensures ConsumerNextState(s).prod == s.prod && ConsumerNextState(s).seen == s.seen
  {
    hide Inv, Shape, Contents;
  }

  /** Whether or not other enqueues allocate, one that may not refuses an element only if, at one of the two moments
      of that call at which it looked at the consumer's variables, the queue held everything that the blocks it was
      made with have room for. */
  lemma {:induction false} RefusedOnlyWhenFull<T>(s: State<T>, schedule: seq<Action<T>>, n: nat, m: nat)
    requires Inv(s) && Roomy(s, n, m) && RefusedFull(s, n, m)
    ensures Roomy(Exec(s, schedule), n, m) && RefusedFull(Exec(s, schedule), n, m)
    decreases |schedule|
  {
    hide Inv, Roomy, RefusedFull, Apply;
    if schedule != [] {
      var a := schedule[0];
      if Enabled(s, a) {
        StepRefinesFifo(s, a);
        StaysRoomy(s, a, n, m);
        StepRefusesFull(s, a, n, m);
        RefusedOnlyWhenFull(Apply(s, a), schedule[1..], n, m);
      } else {
        RefusedOnlyWhenFull(s, schedule[1..], n, m);
      }
    }
  }

  // ---------------------------------------------------------------- wait-freedom

  function ProducerRank<T>(p: Producer<T>): nat {
    match p
    case PIdle(_) => 0
    case PPublish(_) => 1
    case PBuild(_) => 2
    case PSwing(_, _) => 1
    case PReusePublish(_, _) => 2
    case PReuseBuild(_, _) => 3
    case PReuse(_, _) => 4
    case PLink(_, _) => 2
    case PAlloc(_) => 3
    case PFull(_, _) => 5
    case PRefresh(_, _) => 6
  }

  function ConsumerRank<T>(c: Consumer<T>): nat {
    match c
    case CIdle(_) => 0
    case CPublish(_) => 1
    case CFound(_) => 2
    case CAdvance(_, _) => 3
    case CEnter(_, _) => 4
    case CNext(_) => 5
    case CReload(_) => 6
    case CCheck(_) => 7
    case CRefresh(_) => 8
  }

  /** Wait-freedom: a call ends after at most six producer steps or eight consumer steps of its
      own, and the other thread cannot set it back. */
  lemma WaitFree<T>(s: State<T>, a: Action<T>)
    requires Inv(s) && Enabled(s, a)
    ensures var s' := Apply(s, a);
            && ProducerRank(s'.prod) <= 6 && ConsumerRank(s'.cons) <= 8
            && (a.ProducerStep? ==> ProducerRank(s'.prod) < ProducerRank(s.prod))
            && (a.ConsumerStep? ==> ConsumerRank(s'.cons) < ConsumerRank(s.cons))
            && (a.CallConsumer? || a.ConsumerStep? ==> s'.prod == s.prod)
            && (a.CallEnqueue? || a.ProducerStep? ==> s'.cons == s.cons)
  {
    hide Inv, Shape, Contents;
    if a.ProducerStep? { ProducerNearer(s, a.mallocOk); }
    hide ProducerNextState, ConsumerNextState;
  }

  lemma ProducerNearer<T>(s: State<T>, mallocOk: bool)
    requires Inv(s) && !s.prod.PIdle?
    ensures var s' := ProducerNextState(s, mallocOk);
            ProducerRank(s'.prod) < ProducerRank(s.prod) <= 6 && s'.cons == s.cons
  {
    hide Inv, Shape, Contents;
  }

}
