/** Every step of the ReaderWriterQueue machine keeps its invariant. */
module SpscProof {
  import opened RingBlock
  import opened SpscQueue

  lemma {:induction false} FlatSame<T>(blocks: Heap<T>, blocks': Heap<T>, ids: seq<nat>)
    requires Listed(blocks, ids) && Listed(blocks', ids)
    requires forall i | 0 <= i < |ids| :: blocks[ids[i]].Contents() == blocks'[ids[i]].Contents()
    ensures Flat(blocks, ids) == Flat(blocks', ids)
  {
    if ids != [] { FlatSame(blocks, blocks', ids[1..]); }
  }

  lemma {:induction false} FlatSnoc<T>(blocks: Heap<T>, ids: seq<nat>, x: nat)
    requires Listed(blocks, ids + [x])
    ensures Listed(blocks, ids)
    ensures (ids + [x])[|ids|] == x
    ensures Flat(blocks, ids + [x]) == Flat(blocks, ids) + blocks[x].Contents()
  {
    ListedStart(blocks, ids, x);
    if ids != [] {
      assert (ids + [x])[1..] == ids[1..] + [x];
      assert Listed(blocks, ids[1..] + [x]);
      hide Block.Contents, Listed;
      FlatSnoc(blocks, ids[1..], x);
    } else {
      assert [x][1..] == [];
    }
    hide Block.Contents, Listed;
  }

  lemma ListedStart<T>(blocks: Heap<T>, ids: seq<nat>, x: nat)
    requires Listed(blocks, ids + [x])
    ensures Listed(blocks, ids) && x < |blocks| && blocks[x].InBounds() && (ids + [x])[|ids|] == x
  {
    assert forall i | 0 <= i < |ids| :: (ids + [x])[i] == ids[i];
    assert (ids + [x])[|ids|] == x;
  }

  lemma FollowLink<T>(blocks: Heap<T>, ring: seq<nat>, i: nat)
    requires RingOk(blocks, ring) && i < |ring|
    ensures blocks[ring[i]].next == ring[Next(i, |ring|)]
  {
    assert Linked(blocks, ring, i);
  }

  lemma RingUpdate<T>(blocks: Heap<T>, ring: seq<nat>, x: nat, b: Block<T>)
    requires RingOk(blocks, ring) && x < |blocks| && b.InBounds() && b.next == blocks[x].next
    ensures RingOk(blocks[x := b], ring)
  {
    var blocks' := blocks[x := b];
    forall i | 0 <= i < |ring| ensures Linked(blocks', ring, i) {
      assert Linked(blocks, ring, i);
    }
  }

  lemma RingExtend<T>(blocks: Heap<T>, ring: seq<nat>, b: Block<T>)
    requires RingOk(blocks, ring) && b.InBounds()
    ensures RingOk(blocks + [b], ring)
  {
    var blocks' := blocks + [b];
    forall i | 0 <= i < |ring| ensures Linked(blocks', ring, i) {
      assert Linked(blocks, ring, i);
    }
  }

  /** Linking a block that points at the tail block's successor behind the tail block. */
  lemma RingInsert<T>(blocks: Heap<T>, ring: seq<nat>, at: nat, nb: nat)
    requires RingOk(blocks, ring) && at < |ring| && nb < |blocks| && nb !in ring
    requires blocks[nb].next == blocks[ring[at]].next
    ensures var tb := ring[at];
            RingOk(blocks[tb := blocks[tb].(next := nb)], ring[..at + 1] + [nb] + ring[at + 1..])
  {
    var tb := ring[at];
    var blocks' := blocks[tb := blocks[tb].(next := nb)];
    var ring' := ring[..at + 1] + [nb] + ring[at + 1..];
    forall i | 0 <= i < |ring'| ensures Linked(blocks', ring', i) {
      var j := if i <= at then i else i - 1;
      assert Linked(blocks, ring, j);
    }
  }

  lemma RingRotate<T>(blocks: Heap<T>, ring: seq<nat>)
    requires RingOk(blocks, ring) && |ring| >= 1
    ensures RingOk(blocks, ring[1..] + [ring[0]])
  {
    var ring' := ring[1..] + [ring[0]];
    forall i | 0 <= i < |ring'| ensures Linked(blocks, ring', i) {
      assert Linked(blocks, ring, Next(i, |ring|));
    }
  }

  ghost predicate SameIndices<T>(b: Block<T>, b': Block<T>) {
    b.front == b'.front && b.tail == b'.tail && b.next == b'.next && b.Size() == b'.Size()
  }

  /** Replacing a block by one with the same elements at the same places. */
  lemma Replace<T>(s: State<T>, s': State<T>, x: nat, b: Block<T>)
    requires Shape(s) && x < |s.blocks|
    requires Filling(s.blocks, s.ring, s.at, s.prod.PSwing?) && Fifo(s)
    requires b.InBounds() && SameIndices(s.blocks[x], b) && b.Contents() == s.blocks[x].Contents()
    requires s'.blocks == s.blocks[x := b] && s'.ring == s.ring && s'.at == s.at
    requires s'.frontBlock == s.frontBlock && s'.tailBlock == s.tailBlock && s'.largest == s.largest
    requires s.prod.PSwing? ==> s'.prod.PSwing?
    ensures Shape(s') && Contents(s') == Contents(s)
    ensures Filling(s'.blocks, s'.ring, s'.at, s'.prod.PSwing?)
  {
    RingUpdate(s.blocks, s.ring, x, b);
    FlatSame(s.blocks, s'.blocks, s.ring[..s.at + 1]);
  }

  predicate Elsewhere(p: int, k: nat, size: nat) { p == k || p < 0 || p >= size }

  lemma LivesUpdate<T>(blocks: Heap<T>, ring: seq<nat>, k: nat, b: Block<T>,
                       taken: bool, built: int, taken': bool, built': int)
    requires RingOk(blocks, ring) && k < |ring|
    requires b.InBounds() && b.next == blocks[ring[k]].next
    requires Lives(blocks, ring, taken, built)
    requires k != 0 ==> taken' == taken
    requires built == built' || (Elsewhere(built, k, |ring|) && Elsewhere(built', k, |ring|))
    requires b.Lifetimes(k == 0 && taken', k == built')
    ensures RingOk(blocks[ring[k] := b], ring)
    ensures Lives(blocks[ring[k] := b], ring, taken', built')
  {
    RingUpdate(blocks, ring, ring[k], b);
    var blocks' := blocks[ring[k] := b];
    forall i | 0 <= i < |ring|
      ensures blocks'[ring[i]].Lifetimes(i == 0 && taken', i == built')
    {
      if i != k { assert blocks[ring[i]].Lifetimes(i == 0 && taken, i == built); }
    }
  }

  /** Refreshing a shadow index of the block at position `k` of the ring. */
  lemma Reshadow<T>(s: State<T>, s': State<T>, k: nat, b: Block<T>)
    requires Shape(s) && Fifo(s) && k < |s.ring|
    requires Filling(s.blocks, s.ring, s.at, s.prod.PSwing?)
    requires Lives(s.blocks, s.ring, s.cons.CPublish?, BuiltAt(s.prod, s.at))
    requires b.InBounds() && SameIndices(s.blocks[s.ring[k]], b) && b.cells == s.blocks[s.ring[k]].cells
    requires s'.blocks == s.blocks[s.ring[k] := b] && s'.ring == s.ring && s'.at == s.at
    requires s'.frontBlock == s.frontBlock && s'.tailBlock == s.tailBlock && s'.largest == s.largest
    requires s.prod.PSwing? ==> s'.prod.PSwing?
    requires s'.enq == s.enq && s'.deq == s.deq && s'.peeked == s.peeked
    requires s'.cons.CCheck? && s'.wasEmpty ==> s.peeked == []
    ensures Shape(s') && Contents(s') == Contents(s) && Fifo(s')
    ensures Filling(s'.blocks, s'.ring, s'.at, s'.prod.PSwing?)
    ensures Lives(s'.blocks, s'.ring, s.cons.CPublish?, BuiltAt(s.prod, s.at))
  {
    assert b.Contents() == s.blocks[s.ring[k]].Contents();
    Replace(s, s', s.ring[k], b);
    var taken, built := s.cons.CPublish?, BuiltAt(s.prod, s.at);
    assert s.blocks[s.ring[k]].Lifetimes(k == 0 && taken, k == built);
    LivesUpdate(s.blocks, s.ring, k, b, taken, built, taken, built);
  }

  // ---------------------------------------------------------------- producer

  lemma StartEnqueueKeeps<T>(s: State<T>, e: T, canAlloc: bool)
    requires Inv(s) && s.prod.PIdle?
    ensures Inv(StartEnqueue(s, e, canAlloc))
    ensures Contents(StartEnqueue(s, e, canAlloc)) == Contents(s)
  {
  }

  lemma RefreshFrontKeeps<T>(s: State<T>)
    requires Inv(s) && s.prod.PRefresh?
    ensures Inv(RefreshFront(s)) && Contents(RefreshFront(s)) == Contents(s)
  {
    var s' := RefreshFront(s);
    var tb := s.blocks[s.tailBlock];
    Reshadow(s, s', s.at, s'.blocks[s.tailBlock]);
    if |s.ring| == 1 { OnlyBlock(s); }
  }

  lemma OnlyBlock<T>(s: State<T>)
    requires Shape(s) && s.at == 0
    ensures Contents(s) == s.blocks[s.tailBlock].Contents()
  {
    var ids := s.ring[..1];
    assert ids[1..] == [];
    assert Flat(s.blocks, ids) == s.blocks[ids[0]].Contents() + [];
  }

  lemma BuildLives<T>(s: State<T>)
    requires Inv(s) && s.prod.PBuild?
    ensures RingOk(Build(s).blocks, s.ring)
    ensures Lives(Build(s).blocks, s.ring, s.cons.CPublish?, s.at)
  {
    var tb := s.blocks[s.tailBlock];
    LivesUpdate(s.blocks, s.ring, s.at, tb.(cells := tb.cells[tb.tail := Cell(true, s.prod.e)]),
                s.cons.CPublish?, -1, s.cons.CPublish?, s.at);
  }

  lemma BuildKeeps<T>(s: State<T>)
    requires Inv(s) && s.prod.PBuild?
    ensures Inv(Build(s)) && Contents(Build(s)) == Contents(s)
  {
    var s' := Build(s);
    BuildKeepsContents(s.blocks[s.tailBlock], s.prod.e);
    Replace(s, s', s.tailBlock, s'.blocks[s.tailBlock]);
    BuildLives(s);
    hide Lives, Filling, RingOk, Contents, Flat, Block.Contents, Block.Lifetimes;
  }

  lemma PublishLives<T>(s: State<T>)
    requires Inv(s) && s.prod.PPublish?
    ensures RingOk(Publish(s).blocks, s.ring)
    ensures Lives(Publish(s).blocks, s.ring, s.cons.CPublish?, -1)
    ensures Filling(Publish(s).blocks, s.ring, s.at, false)
  {
    var tb := s.blocks[s.tailBlock];
    PublishLifetimes(tb, s.at == 0 && s.cons.CPublish?);
    LivesUpdate(s.blocks, s.ring, s.at, tb.(tail := Next(tb.tail, tb.Size())),
                s.cons.CPublish?, s.at, s.cons.CPublish?, -1);
  }

  lemma PublishQueues<T>(s: State<T>)
    requires Shape(s) && s.prod.PPublish?
    requires s.blocks[s.tailBlock].Used() + 1 < s.blocks[s.tailBlock].Size()
    ensures Shape(Publish(s))
    ensures var tb := s.blocks[s.tailBlock];
            Contents(Publish(s)) == Contents(s) + [tb.cells[tb.tail].value]
  {
    var s' := Publish(s);
    PublishAppends(s.blocks[s.tailBlock]);
    RingUpdate(s.blocks, s.ring, s.tailBlock, s'.blocks[s.tailBlock]);
    var ids := s.ring[..s.at];
    assert s.ring[..s.at + 1] == ids + [s.tailBlock];
    FlatSnoc(s.blocks, ids, s.tailBlock);
    FlatSnoc(s'.blocks, ids, s.tailBlock);
    FlatSame(s.blocks, s'.blocks, ids);
  }

  lemma PublishKeeps<T>(s: State<T>)
    requires Inv(s) && s.prod.PPublish?
    ensures Inv(Publish(s)) && Contents(Publish(s)) == Contents(s) + [s.prod.e]
  {
    hide Lives;
    PublishShadows(s.blocks[s.tailBlock]);
    PublishLives(s);
    PublishQueues(s);
  }

  lemma CompareWithFrontKeeps<T>(s: State<T>)
    requires Inv(s) && s.prod.PFull?
    ensures Inv(CompareWithFront(s)) && Contents(CompareWithFront(s)) == Contents(s)
  {
    FollowLink(s.blocks, s.ring, s.at);
  }

  lemma ReuseLoadKeeps<T>(s: State<T>)
    requires Inv(s) && s.prod.PReuse?
    ensures Inv(ReuseLoad(s)) && Contents(ReuseLoad(s)) == Contents(s)
  {
    var s' := ReuseLoad(s);
    Reshadow(s, s', s.at + 1, s'.blocks[s.prod.nb]);
  }

  lemma ReuseBuildKeeps<T>(s: State<T>)
    requires Inv(s) && s.prod.PReuseBuild?
    ensures Inv(ReuseBuild(s)) && Contents(ReuseBuild(s)) == Contents(s)
  {
    var s' := ReuseBuild(s);
    var b := s.blocks[s.prod.nb];
    BuildKeepsContents(b, s.prod.e);
    Replace(s, s', s.prod.nb, s'.blocks[s.prod.nb]);
    LivesUpdate(s.blocks, s.ring, s.at + 1, s'.blocks[s.prod.nb],
                s.cons.CPublish?, -1, s.cons.CPublish?, s.at + 1);
  }

  lemma ReusePublishLives<T>(s: State<T>)
    requires Inv(s) && s.prod.PReusePublish?
    ensures RingOk(ReusePublish(s).blocks, s.ring)
    ensures Lives(ReusePublish(s).blocks, s.ring, s.cons.CPublish?, -1)
    ensures Filling(ReusePublish(s).blocks, s.ring, s.at, true)
  {
    var b := s.blocks[s.prod.nb];
    PublishLifetimes(b, false);
    LivesUpdate(s.blocks, s.ring, s.at + 1, b.(tail := Next(b.tail, b.Size())),
                s.cons.CPublish?, s.at + 1, s.cons.CPublish?, -1);
  }

  lemma ReusePublishKeeps<T>(s: State<T>)
    requires Inv(s) && s.prod.PReusePublish?
    ensures Inv(ReusePublish(s)) && Contents(ReusePublish(s)) == Contents(s)
  {
    hide Lives;
    var s' := ReusePublish(s);
    var b := s.blocks[s.prod.nb];
    PublishAppends(b);
    PublishShadows(b);
    ReusePublishLives(s);
    FlatSame(s.blocks, s'.blocks, s.ring[..s.at + 1]);
  }

  /** Adding a block outside the ring. */
  lemma AddBlock<T>(s: State<T>, b: Block<T>)
    requires Inv(s) && b.InBounds()
    ensures var s' := s.(blocks := s.blocks + [b]);
            && Shape(s') && Contents(s') == Contents(s)
            && Filling(s'.blocks, s.ring, s.at, s.prod.PSwing?)
            && Lives(s'.blocks, s.ring, s.cons.CPublish?, BuiltAt(s.prod, s.at))
  {
    var s' := s.(blocks := s.blocks + [b]);
    RingExtend(s.blocks, s.ring, b);
    FlatSame(s.blocks, s'.blocks, s.ring[..s.at + 1]);
    forall i | 0 <= i < |s.ring|
      ensures s'.blocks[s.ring[i]] == s.blocks[s.ring[i]]
    {
    }
  }

  lemma AllocKeeps<T>(s: State<T>, mallocOk: bool)
    requires Inv(s) && s.prod.PAlloc?
    ensures 2 <= GrownSize(s.largest, s.maxBlockSize)
    ensures Inv(Alloc(s, mallocOk)) && Contents(Alloc(s, mallocOk)) == Contents(s)
  {
    hide Lives;
    var s' := Alloc(s, mallocOk);
    if mallocOk {
      var b := s'.blocks[|s.blocks|];
      assert b.Contents() == [s.prod.e];
      AddBlock(s, b);
    }
  }

  lemma LinkShape<T>(s: State<T>)
    requires Shape(s) && s.prod.PLink? && ProducerNext(s.prod, s.blocks, s.ring, s.at)
    ensures Shape(Link(s)) && |Link(s).ring| == |s.ring| + 1
  {
    RingInsert(s.blocks, s.ring, s.at, s.prod.nb);
    hide RingOk, Block.Lifetimes, Block.Contents, Block.FrontShadowOk;
  }

  /** Which block lies where after the new one has been linked in. */
  lemma LinkedBlock<T>(s: State<T>, i: nat)
    requires Shape(s) && s.prod.PLink? && ProducerNext(s.prod, s.blocks, s.ring, s.at) && i <= |s.ring|
    ensures s.prod.nb < |s.blocks| && |Link(s).ring| == |s.ring| + 1 && Link(s).ring[i] < |Link(s).blocks|
    ensures var b := Link(s).blocks[Link(s).ring[i]];
            if i < s.at then b == s.blocks[s.ring[i]]
            else if i == s.at then b == s.blocks[s.tailBlock].(next := s.prod.nb)
            else if i == s.at + 1 then b == s.blocks[s.prod.nb]
            else b == s.blocks[s.ring[i - 1]]
  {
    hide Linked, Block.Lifetimes, Block.Contents, Block.FrontShadowOk;
  }

  lemma LinkFills<T>(s: State<T>)
    requires Inv(s) && s.prod.PLink?
    ensures Shape(Link(s))
    ensures Filling(Link(s).blocks, Link(s).ring, s.at, true)
  {
    LinkShape(s);
    forall i: nat | i <= |s.ring| && i != s.at + 1
      ensures Link(s).ring[i] < |Link(s).blocks|
      ensures var j := if i <= s.at then i else i - 1;
              var b := Link(s).blocks[Link(s).ring[i]];
              b == s.blocks[s.ring[j]] || b == s.blocks[s.ring[j]].(next := s.prod.nb)
    {
      LinkedBlock(s, i);
    }
    hide Lives, ProducerTail, ProducerNext, ConsumerFront, ConsumerNext, Fifo, Contents, Link, Linked;
  }

  lemma RelinkedLives<T>(b: Block<T>, next: nat, taken: bool, built: bool)
    requires b.InBounds() && b.Lifetimes(taken, built)
    ensures b.(next := next).InBounds() && b.(next := next).Lifetimes(taken, built)
  {
  }

  lemma LinkLives<T>(s: State<T>)
    requires Shape(s) && s.prod.PLink?
    requires Lives(s.blocks, s.ring, s.cons.CPublish?, -1) && ProducerNext(s.prod, s.blocks, s.ring, s.at)
    ensures Shape(Link(s))
    ensures Lives(Link(s).blocks, Link(s).ring, s.cons.CPublish?, -1)
  {
    LinkShape(s);
    var s' := Link(s);
    assert s.blocks[s.ring[s.at]].Lifetimes(s.at == 0 && s.cons.CPublish?, s.at == -1);
    RelinkedLives(s.blocks[s.tailBlock], s.prod.nb, s.at == 0 && s.cons.CPublish?, false);
    hide Block.Lifetimes, Block.Contents, Block.FrontShadowOk, Linked, Link;
    forall i | 0 <= i < |s'.ring|
      ensures s'.blocks[s'.ring[i]].Lifetimes(i == 0 && s.cons.CPublish?, false)
    {
      LinkedBlock(s, i);
      if i < s.at { assert s.blocks[s.ring[i]].Lifetimes(i == 0 && s.cons.CPublish?, i == -1); }
      if i > s.at + 1 { assert s.blocks[s.ring[i - 1]].Lifetimes(false, i - 1 == -1); }
    }
  }

  lemma LinkQueues<T>(s: State<T>)
    requires Shape(s) && s.prod.PLink? && Shape(Link(s))
    ensures Contents(Link(s)) == Contents(s)
  {
    var s' := Link(s);
    var ids := s.ring[..s.at + 1];
    assert s'.ring[..s'.at + 1] == ids;
    assert s.ring[0..s.at + 1] == ids == s'.ring[0..s.at + 1];
    FlatSame(s.blocks, s'.blocks, ids);
  }

  lemma LinkKeeps<T>(s: State<T>)
    requires Inv(s) && s.prod.PLink?
    ensures Inv(Link(s)) && Contents(Link(s)) == Contents(s)
  {
    hide Lives;
    LinkFills(s);
    LinkLives(s);
    LinkQueues(s);
    LinkedBlock(s, s.at);
    LinkedBlock(s, s.at + 1);
    LinkedFront(s);
    hide RingOk, Linked, Filling, Contents, Flat, Block.Contents, Block.Lifetimes;
  }

  /** What the consumer knows does not depend on the link. */
  lemma LinkedFront<T>(s: State<T>)
    requires Inv(s) && s.prod.PLink?
    ensures Shape(Link(s))
    ensures ConsumerFront(s.cons, Link(s).blocks[s.frontBlock], s.at, s.wasEmpty)
    ensures ConsumerNext(s.cons, Link(s).blocks, Link(s).ring, s.at)
  {
    LinkShape(s);
    LinkedBlock(s, 0);
    if s.at >= 1 { LinkedBlock(s, 1); }
    hide RingOk, Linked, Filling, Lives, Contents, Flat, Fifo, ProducerTail, ProducerNext;
  }

  lemma SwingQueues<T>(s: State<T>)
    requires Shape(s) && s.prod.PSwing? && s.at + 1 < |s.ring| && s.prod.nb == s.ring[s.at + 1]
    ensures Shape(Swing(s))
    ensures Contents(Swing(s)) == Contents(s) + s.blocks[s.prod.nb].Contents()
  {
    var s' := Swing(s);
    assert s'.ring[..s'.at + 1] == s.ring[..s.at + 1] + [s.prod.nb];
    FlatSnoc(s.blocks, s.ring[..s.at + 1], s.prod.nb);
  }

  lemma SwingKeeps<T>(s: State<T>)
    requires Inv(s) && s.prod.PSwing?
    ensures Inv(Swing(s)) && Contents(Swing(s)) == Contents(s) + [s.prod.e]
  {
    hide Lives;
    SwingQueues(s);
  }

  // ---------------------------------------------------------------- consumer

  lemma StartConsumerKeeps<T>(s: State<T>, op: ConsumerOp)
    requires Inv(s) && s.cons.CIdle?
    ensures Inv(StartConsumer(s, op)) && Contents(StartConsumer(s, op)) == Contents(s)
  {
  }

  lemma RefreshTailKeeps<T>(s: State<T>)
    requires Inv(s) && s.cons.CRefresh?
    ensures Inv(RefreshTail(s)) && Contents(RefreshTail(s)) == Contents(s)
  {
    var s' := RefreshTail(s);
    Reshadow(s, s', 0, s'.blocks[s.frontBlock]);
    if s.at == 0 { OnlyBlock(s); }
  }

  lemma CompareWithTailKeeps<T>(s: State<T>)
    requires Inv(s) && s.cons.CCheck?
    ensures Inv(CompareWithTail(s)) && Contents(CompareWithTail(s)) == Contents(s)
  {
  }

  lemma ReloadTailKeeps<T>(s: State<T>)
    requires Inv(s) && s.cons.CReload?
    ensures Inv(ReloadTail(s)) && Contents(ReloadTail(s)) == Contents(s)
  {
    var s' := ReloadTail(s);
    Reshadow(s, s', 0, s'.blocks[s.frontBlock]);
  }

  lemma ReadNextKeeps<T>(s: State<T>)
    requires Inv(s) && s.cons.CNext?
    ensures Inv(ReadNext(s)) && Contents(ReadNext(s)) == Contents(s)
  {
    FollowLink(s.blocks, s.ring, 0);
  }

  lemma EnterKeeps<T>(s: State<T>)
    requires Inv(s) && s.cons.CEnter?
    ensures s.cons.nb < |s.blocks| && Inv(Enter(s)) && Contents(Enter(s)) == Contents(s)
    ensures s.cons.op.Peek? ==> Contents(s) != [] && Enter(s).cons == CIdle(Front(Contents(s)[0]))
  {
    if s.cons.op.Peek? {
      SecondBlockFirst(s);
    } else {
      EnterNextKeeps(s);
    }
  }

  lemma EnterNextKeeps<T>(s: State<T>)
    requires Inv(s) && s.cons.CEnter? && !s.cons.op.Peek?
    ensures s.cons.nb < |s.blocks| && Inv(Enter(s)) && Contents(Enter(s)) == Contents(s)
  {
    hide Lives;
    var s' := Enter(s);
    Reshadow(s, s', 1, s'.blocks[s.cons.nb]);
  }

  /** With the front block used up, the first element is the front one of the next block. */
  lemma SecondBlockFirst<T>(s: State<T>)
    requires Shape(s) && s.at >= 1 && s.blocks[s.frontBlock].IsEmpty()
    requires !s.blocks[s.ring[1]].IsEmpty()
    ensures var b := s.blocks[s.ring[1]];
            Contents(s) != [] && Contents(s)[0] == b.cells[b.front].value
  {
    assert Contents(s) == Flat(s.blocks, s.ring[1..s.at + 1]);
  }

  lemma AdvanceQueues<T>(s: State<T>)
    requires Inv(s) && s.cons.CAdvance?
    ensures Shape(Advance(s)) && Contents(Advance(s)) == Contents(s)
  {
    hide Filling, Lives, ProducerTail, ProducerNext, Fifo;
    var s' := Advance(s);
    assert s'.ring[..s'.at + 1] == s.ring[1..s.at + 1];
    RingRotate(s.blocks, s.ring);
  }

  lemma AdvanceLives<T>(s: State<T>)
    requires Shape(s) && s.cons.CAdvance? && s.at >= 1 && s.blocks[s.frontBlock].IsEmpty()
    requires Filling(s.blocks, s.ring, s.at, s.prod.PSwing?)
    requires Lives(s.blocks, s.ring, false, BuiltAt(s.prod, s.at))
    requires s.prod.PReusePublish? ==> s.at + 1 < |s.ring|
    ensures RingOk(s.blocks, Advance(s).ring)
    ensures Lives(s.blocks, Advance(s).ring, false, BuiltAt(s.prod, s.at - 1))
    ensures Filling(s.blocks, Advance(s).ring, s.at - 1, s.prod.PSwing?)
  {
    RingRotate(s.blocks, s.ring);
    var ring' := Advance(s).ring;
    forall i | 0 <= i < |ring'|
      ensures s.blocks[ring'[i]].Lifetimes(false, i == BuiltAt(s.prod, s.at - 1))
    {
      var j := if i + 1 == |ring'| then 0 else i + 1;
      assert s.blocks[s.ring[j]].Lifetimes(false, j == BuiltAt(s.prod, s.at));
    }
  }

  lemma AdvanceKeeps<T>(s: State<T>)
    requires Inv(s) && s.cons.CAdvance?
    ensures Inv(Advance(s)) && Contents(Advance(s)) == Contents(s)
  {
    hide Lives;
    AdvanceQueues(s);
    AdvanceLives(s);
  }

  lemma TakeFoundLives<T>(s: State<T>)
    requires Inv(s) && s.cons.CFound? && !s.cons.op.Peek?
    ensures RingOk(TakeFound(s).blocks, s.ring)
    ensures Lives(TakeFound(s).blocks, s.ring, true, BuiltAt(s.prod, s.at))
  {
    var fb := s.blocks[s.frontBlock];
    var built := BuiltAt(s.prod, s.at);
    assert s.blocks[s.ring[0]].Lifetimes(0 == 0 && false, 0 == built);
    LivesUpdate(s.blocks, s.ring, 0, fb.(cells := fb.cells[fb.front := fb.cells[fb.front].(live := false)]),
                false, built, true, built);
  }

  lemma MoveOutKeeps<T>(s: State<T>)
    requires Inv(s) && s.cons.CFound? && !s.cons.op.Peek?
    ensures Inv(TakeFound(s)) && Contents(TakeFound(s)) == Contents(s)
  {
    hide Lives;
    var s' := TakeFound(s);
    MoveOutKeepsContents(s.blocks[s.frontBlock]);
    Replace(s, s', s.frontBlock, s'.blocks[s.frontBlock]);
    TakeFoundLives(s);
    SameShadows(s.blocks[s.frontBlock], s'.blocks[s.frontBlock]);
    hide Filling, RingOk, Contents, Flat, Block.Contents, Block.Lifetimes,
      Block.TailShadowOk, Block.FrontShadowOk, Block.ShadowRoom, Block.IsFull;
  }

  lemma SameShadows<T>(a: Block<T>, b: Block<T>)
    requires a.InBounds() && b.InBounds() && SameIndices(a, b)
    requires a.localTail == b.localTail && a.localFront == b.localFront
    ensures a.TailShadowOk() == b.TailShadowOk() && a.FrontShadowOk() == b.FrontShadowOk()
    ensures a.ShadowRoom() == b.ShadowRoom() && a.IsFull() == b.IsFull() && a.IsEmpty() == b.IsEmpty()
  {
  }

  lemma TakeFoundKeeps<T>(s: State<T>)
    requires Inv(s) && s.cons.CFound?
    ensures Inv(TakeFound(s)) && Contents(TakeFound(s)) == Contents(s) && Contents(s) != []
    ensures s.cons.op.Peek? ==> TakeFound(s).cons == CIdle(Front(Contents(s)[0]))
  {
    hide Lives, Filling;
    if !s.cons.op.Peek? { MoveOutKeeps(s); }
  }

  lemma PublishFrontLives<T>(s: State<T>)
    requires Inv(s) && s.cons.CPublish?
    ensures RingOk(PublishFront(s).blocks, s.ring)
    ensures Lives(PublishFront(s).blocks, s.ring, false, BuiltAt(s.prod, s.at))
    ensures Filling(PublishFront(s).blocks, s.ring, s.at, s.prod.PSwing?)
  {
    var fb := s.blocks[s.frontBlock];
    var built := BuiltAt(s.prod, s.at);
    assert s.blocks[s.ring[0]].Lifetimes(0 == 0 && true, 0 == built);
    TakeLifetimes(fb, 0 == built);
    LivesUpdate(s.blocks, s.ring, 0, fb.(front := Next(fb.front, fb.Size())),
                true, built, false, built);
  }

  lemma PublishFrontQueues<T>(s: State<T>)
    requires Shape(s) && s.cons.CPublish? && !s.blocks[s.frontBlock].IsEmpty()
    ensures Shape(PublishFront(s))
    ensures var fb := s.blocks[s.frontBlock];
            Contents(s) == [fb.cells[fb.front].value] + Contents(PublishFront(s))
  {
    var s' := PublishFront(s);
    TakeRemoves(s.blocks[s.frontBlock]);
    PublishFrontShape(s);
    RestSame(s);
    hide RingOk, Shape, Flat;
  }

  lemma PublishFrontShape<T>(s: State<T>)
    requires Shape(s) && s.cons.CPublish? && !s.blocks[s.frontBlock].IsEmpty()
    ensures Shape(PublishFront(s))
  {
    TakeRemoves(s.blocks[s.frontBlock]);
    RingUpdate(s.blocks, s.ring, s.frontBlock, PublishFront(s).blocks[s.frontBlock]);
  }

  /** The blocks behind the front block are not touched. */
  lemma RestSame<T>(s: State<T>)
    requires Shape(s) && s.cons.CPublish? && !s.blocks[s.frontBlock].IsEmpty() && Shape(PublishFront(s))
    ensures Flat(PublishFront(s).blocks, s.ring[1..s.at + 1]) == Flat(s.blocks, s.ring[1..s.at + 1])
  {
    var s' := PublishFront(s);
    FlatSame(s.blocks, s'.blocks, s.ring[1..s.at + 1]);
  }

  lemma PublishFrontTail<T>(s: State<T>)
    requires Shape(s) && s.cons.CPublish?
    requires ConsumerFront(s.cons, s.blocks[s.frontBlock], s.at, s.wasEmpty)
    requires ProducerTail(s.prod, s.blocks[s.tailBlock], s.at, |s.ring|, s.seen)
    ensures var b := s.blocks[s.frontBlock].(front := Next(s.blocks[s.frontBlock].front, s.blocks[s.frontBlock].Size()));
            && b.InBounds() && b.TailShadowOk()
            && var tb := s.blocks[s.frontBlock := b][s.tailBlock];
               tb.InBounds() && ProducerTail(s.prod, tb, s.at, |s.ring|, s.seen)
  {
    TakeShadows(s.blocks[s.frontBlock]);
    assert s.at >= 1 ==> s.tailBlock != s.frontBlock;
    hide RingOk, Block.TailShadowOk, Block.FrontShadowOk, Block.ShadowRoom, Block.IsFull;
  }

  /** The block the producer is about to enter is not the front block. */
  lemma PublishFrontNext<T>(s: State<T>, b: Block<T>)
    requires Shape(s) && ProducerNext(s.prod, s.blocks, s.ring, s.at)
    requires b.InBounds() && b.next == s.blocks[s.frontBlock].next
    ensures RingOk(s.blocks[s.frontBlock := b], s.ring)
    ensures ProducerNext(s.prod, s.blocks[s.frontBlock := b], s.ring, s.at)
  {
    RingUpdate(s.blocks, s.ring, s.frontBlock, b);
    var p := s.prod;
    assert (p.PReuse? || p.PReuseBuild? || p.PReusePublish? || p.PSwing? || p.PLink?) ==> p.nb != s.frontBlock;
    hide RingOk, Block.FrontShadowOk, Block.Lifetimes, Block.Contents;
  }

  lemma PublishFrontKeeps<T>(s: State<T>)
    requires Inv(s) && s.cons.CPublish?
    ensures Inv(PublishFront(s)) && Contents(s) == [s.cons.value] + Contents(PublishFront(s))
  {
    hide Lives, Filling, Contents, Fifo, ProducerTail, ProducerNext;
    PublishFrontTail(s);
    PublishFrontNext(s, PublishFront(s).blocks[s.frontBlock]);
    PublishFrontLives(s);
    PublishFrontFifo(s);
    hide RingOk, Block.TailShadowOk;
  }

  lemma PublishFrontFifo<T>(s: State<T>)
    requires Inv(s) && s.cons.CPublish?
    ensures Shape(PublishFront(s)) && Fifo(PublishFront(s)) && Contents(s) == [s.cons.value] + Contents(PublishFront(s))
  {
    hide Lives, Filling, ProducerTail, ProducerNext, Contents, RingOk;
    NotEmptyFront(s);
    PublishFrontQueues(s);
    hide ConsumerFront, Shape;
  }

  lemma NotEmptyFront<T>(s: State<T>)
    requires Shape(s) && s.cons.CPublish? && ConsumerFront(s.cons, s.blocks[s.frontBlock], s.at, s.wasEmpty)
    ensures !s.blocks[s.frontBlock].IsEmpty()
  {
  }

  /** Every pointer a thread holds leads to a block with its indices in bounds. */
  lemma InRange<T>(s: State<T>)
    requires Inv(s)
    ensures Shape(s) && s.at < |s.ring|
    ensures s.tailBlock < |s.blocks| && s.blocks[s.tailBlock].InBounds()
    ensures s.frontBlock < |s.blocks| && s.blocks[s.frontBlock].InBounds()
    ensures (s.prod.PReuse? || s.prod.PReuseBuild? || s.prod.PReusePublish?) ==>
              s.prod.nb < |s.blocks| && s.blocks[s.prod.nb].InBounds()
    ensures s.cons.CEnter? ==> s.cons.nb < |s.blocks| && s.blocks[s.cons.nb].InBounds()
    ensures s.cons.CAdvance? ==> s.at >= 1
    ensures 2 <= GrownSize(s.largest, s.maxBlockSize)
  {
  }
}
