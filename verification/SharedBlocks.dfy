/** The blocks of a concurrent queue as the program handles them: counters, free list and index entries changed
    in place, one move of one thread at a time (include/concurentqueue/concurrentqueue.h:1437-1475, 2318-2451,
    2604-2704, 2873-2925). */
module SharedBlocks {
  import opened BlockLeases
  import opened BlockLeasesProof
  import opened Slots

  class BlockStore {
    const size: nat
    const initialBlockPoolSize: nat
    var initialBlockPoolIndex: nat
    var freeList: set<nat>
    /** Each block's `elementsCompletelyDequeued`. */
    var emptied: seq<nat>
    var producers: seq<Producer>
    /** Where each consumer is, with its local variables. */
    var consumers: seq<Consumer>
    ghost var home: seq<Place>

    ghost function View(): State
      reads this
    {
      State(size, initialBlockPoolSize, initialBlockPoolIndex, freeList, emptied, producers, consumers, home)
    }

    ghost predicate Valid()
      reads this
    {
      Inv(View())
    }

    constructor (size: nat, poolSize: nat, producers: nat, consumers: nat)
      requires size > 0
      ensures Valid() && View() == Start(size, poolSize, producers, consumers)
    {
      this.size, initialBlockPoolSize, initialBlockPoolIndex, freeList := size, poolSize, 0, {};
      emptied := seq(poolSize, _ => 0);
      this.producers := seq(producers, _ => Producer(0, 0, 0, map[], {}, {}));
      this.consumers := seq(consumers, _ => Idle);
      home := seq(poolSize, _ => InPool);
      new;
      assert View() == Start(size, poolSize, producers, consumers);
      StartInv(size, poolSize, producers, consumers);
    }

    /** `try_get_block_from_initial_pool`, after the first look at the index. */
    method TryGetBlockFromInitialPool(p: nat) returns (block: int)
      requires Valid() && Enabled(View(), FromPool(p))
      modifies `initialBlockPoolIndex, `producers, `home
      ensures Valid() && View() == Step(old(View()), FromPool(p))
      ensures block == -1 || (0 <= block < |home| && old(home)[block] == InPool && home[block] == InHand(p))
      ensures block == -1 <==> old(initialBlockPoolIndex) >= initialBlockPoolSize
    {
      StepKeepsInv(View(), FromPool(p));
      PoolHome(View(), initialBlockPoolIndex);
      hide Inv;
      var q := producers[p];
      block := -1;
      if initialBlockPoolIndex < initialBlockPoolSize {
        block := initialBlockPoolIndex;
        producers, home := producers[p := q.(hand := q.hand + {block})], home[block := InHand(p)];
      }
      initialBlockPoolIndex := initialBlockPoolIndex + 1;
    }

    /** `try_get_block_from_free_list` */
    method TryGetBlockFromFreeList(p: nat, block: nat)
      requires Valid() && Enabled(View(), FromFree(p, block))
      modifies `freeList, `producers, `home
      ensures Valid() && View() == Step(old(View()), FromFree(p, block))
    {
      StepKeepsInv(View(), FromFree(p, block));
      hide Inv;
      freeList := freeList - {block};
      producers, home := producers[p := producers[p].(hand := producers[p].hand + {block})], home[block := InHand(p)];
    }

    /** `create<Block>()` */
    method CreateBlock(p: nat) returns (block: nat)
      requires Valid() && Enabled(View(), NewBlock(p))
      modifies `emptied, `producers, `home
      ensures Valid() && View() == Step(old(View()), NewBlock(p))
      ensures block == |old(home)| && block !in old(freeList)
    {
      StepKeepsInv(View(), NewBlock(p));
      NoSuchFree(View());
      hide Inv;
      block := |emptied|;
      emptied, home := emptied + [0], home + [InHand(p)];
      producers := producers[p := producers[p].(hand := producers[p].hand + {block})];
    }

    /** `reset_empty`, then the store of the entry's value. */
    method EnterBlock(p: nat, block: nat)
      requires Valid() && Enabled(View(), Enter(p, block))
      modifies `emptied, `producers, `home
      ensures Valid() && View() == Step(old(View()), Enter(p, block))
    {
      StepKeepsInv(View(), Enter(p, block));
      hide Inv;
      var q := producers[p];
      emptied := emptied[block := 0];
      home := home[block := Leased(p, q.next)];
      producers := producers[p := q.(hand := q.hand - {block}, entries := q.entries[q.next := block], next := q.next + 1)];
    }

    /** `rewind_block_index_tail` and the store of null. */
    method TakeBackBlock(p: nat)
      requires Valid() && Enabled(View(), TakeBack(p))
      modifies `producers, `home
      ensures Valid() && View() == Step(old(View()), TakeBack(p))
    {
      StepKeepsInv(View(), TakeBack(p));
      hide Inv;
      var q := producers[p];
      var k := q.next - 1;
      home := home[q.entries[k] := InHand(p)];
      producers := producers[p := q.(hand := q.hand + {q.entries[k]}, entries := q.entries - {k}, next := k)];
    }

    /** `add_block_to_free_list`, by the producer. */
    method GiveBlockBack(p: nat, block: nat)
      requires Valid() && Enabled(View(), GiveBack(p, block))
      modifies `freeList, `producers, `home
      ensures Valid() && View() == Step(old(View()), GiveBack(p, block))
    {
      StepKeepsInv(View(), GiveBack(p, block));
      hide Inv;
      freeList, home := freeList + {block}, home[block := InFreeList];
      producers := producers[p := producers[p].(hand := producers[p].hand - {block})];
    }

    method PublishTail(p: nat, n: nat)
      requires Valid() && Enabled(View(), Publish(p, n))
      modifies `producers
      ensures Valid() && View() == Step(old(View()), Publish(p, n))
    {
      StepKeepsInv(View(), Publish(p, n));
      hide Inv;
      producers := producers[p := producers[p].(tail := producers[p].tail + n)];
    }

    /** `headIndex.fetch_add(n)` */
    method ClaimIndices(c: nat, p: nat, n: nat)
      requires Valid() && Enabled(View(), Claim(c, p, n))
      modifies `producers, `consumers
      ensures Valid() && View() == Step(old(View()), Claim(c, p, n))
    {
      StepKeepsInv(View(), Claim(c, p, n));
      hide Inv;
      var q := producers[p];
      producers, consumers := producers[p := q.(head := q.head + n)], consumers[c := Working(p, q.head, q.head + n)];
    }

    /** The block of the next index, and how far its claimed indices go. */
    method LookUpBlock(c: nat)
      requires Valid() && c < |consumers| && consumers[c].Working?
      modifies `consumers
      ensures Valid() && Enabled(old(View()), LookUp(c)) && View() == Step(old(View()), LookUp(c))
    {
      AlwaysFound(View(), c);
      StepKeepsInv(View(), LookUp(c));
      hide Inv;
      var Working(p, at, to) := consumers[c];
      var k := BlockNo(at, size);
      var end := First(k, size) + size;
      if to < end {
        end := to;
      }
      consumers := consumers[c := Reading(p, at, to, end, producers[p].entries[k])];
    }

    /** `set_empty`, `set_many_empty` */
    method SetManyEmpty(c: nat)
      requires Valid() && c < |consumers| && consumers[c].Reading?
      modifies `emptied, `producers, `consumers
      ensures Valid() && Enabled(old(View()), Complete(c)) && View() == Step(old(View()), Complete(c))
    {
      ReadingFits(View(), c);
      StepKeepsInv(View(), Complete(c));
      hide Inv;
      var Reading(p, at, to, end, block) := consumers[c];
      var q := producers[p];
      var prevVal := emptied[block];
      emptied := emptied[block := prevVal + (end - at)];
      producers := producers[p := q.(done := q.done + Range(at, end))];
      if prevVal + (end - at) == size {
        consumers := consumers[c := Clearing(p, end, to, BlockNo(at, size), block)];
      } else {
        consumers := consumers[c := Rest(p, end, to)];
      }
    }

    /** `entry->value.store(nullptr)` */
    method ClearEntry(c: nat)
      requires Valid() && Enabled(View(), Clear(c))
      modifies `producers, `consumers, `home
      ensures Valid() && View() == Step(old(View()), Clear(c))
    {
      StepKeepsInv(View(), Clear(c));
      hide Inv;
      var Clearing(p, at, to, k, block) := consumers[c];
      producers := producers[p := producers[p].(entries := producers[p].entries - {k})];
      consumers, home := consumers[c := Returning(p, at, to, block)], home[block := InReturn(c)];
    }

    /** `add_block_to_free_list`, by the consumer that emptied the last slot. */
    method ReturnBlock(c: nat)
      requires Valid() && Enabled(View(), AddFree(c))
      modifies `freeList, `consumers, `home
      ensures Valid() && View() == Step(old(View()), AddFree(c))
    {
      StepKeepsInv(View(), AddFree(c));
      hide Inv;
      var Returning(p, at, to, block) := consumers[c];
      freeList, home := freeList + {block}, home[block := InFreeList];
      consumers := consumers[c := Rest(p, at, to)];
    }

    /** A move of a producer, if it is possible. */
    method TurnOfProducer(m: Move)
      requires Valid() && !ByConsumer(m)
      modifies `initialBlockPoolIndex, `freeList, `emptied, `producers, `home
      ensures Valid()
      ensures View() == if Enabled(old(View()), m) then Step(old(View()), m) else old(View())
    {
      Bounds(View());
      hide Inv;
      match m {
        case FromPool(p) =>
          if p < |producers| { var _ := TryGetBlockFromInitialPool(p); }
        case FromFree(p, b) =>
          if p < |producers| && b in freeList { TryGetBlockFromFreeList(p, b); }
        case NewBlock(p) =>
          if p < |producers| { var _ := CreateBlock(p); }
        case Enter(p, b) =>
          if p < |producers| && b in producers[p].hand { EnterBlock(p, b); }
        case TakeBack(p) =>
          if p < |producers| {
            var q := producers[p];
            if q.next > 0 && First(q.next - 1, size) >= q.tail && q.next - 1 in q.entries { TakeBackBlock(p); }
          }
        case GiveBack(p, b) =>
          if p < |producers| && b in producers[p].hand { GiveBlockBack(p, b); }
        case Publish(p, n) =>
          if p < |producers| && producers[p].tail + n <= First(producers[p].next, size) { PublishTail(p, n); }
      }
    }

    /** A move of a consumer, if it is possible. */
    method TurnOfConsumer(m: Move)
      requires Valid() && ByConsumer(m)
      modifies `freeList, `emptied, `producers, `consumers, `home
      ensures Valid()
      ensures View() == if Enabled(old(View()), m) then Step(old(View()), m) else old(View())
    {
      Bounds(View());
      match m {
        case Claim(c, p, n) =>
          if c < |consumers| && p < |producers| && consumers[c].Idle? && n > 0 && producers[p].head + n <= producers[p].tail {
            ClaimIndices(c, p, n);
          }
        case LookUp(c) =>
          if c < |consumers| && consumers[c].Working? { LookUpBlock(c); }
        case Complete(c) =>
          if c < |consumers| && consumers[c].Reading? { ReadingFits(View(), c); SetManyEmpty(c); }
        case Clear(c) =>
          if c < |consumers| && consumers[c].Clearing? { ClearEntry(c); }
        case AddFree(c) =>
          if c < |consumers| && consumers[c].Returning? { ReturnBlock(c); }
      }
      hide Inv;
    }

    /** Any interleaving of the producers and consumers: every block stays in exactly one place. */
    method Execute(moves: seq<Move>)
      requires Valid()
      modifies this
      ensures Valid() && View() == Exec(old(View()), moves)
      ensures |home| == |emptied|
      ensures forall b: nat, place :: Located(View(), b, place) <==> b < |home| && home[b] == place
    {
      hide Inv, Step, Enabled;
      var i := 0;
      while i < |moves|
        invariant 0 <= i <= |moves| && Valid()
        invariant Exec(View(), moves[i..]) == Exec(old(View()), moves)
      {
        assert moves[i..][0] == moves[i] && moves[i..][1..] == moves[i + 1..];
        if moves[i].Claim? || moves[i].LookUp? || moves[i].Complete? || moves[i].Clear? || moves[i].AddFree? {
          TurnOfConsumer(moves[i]);
        } else {
          TurnOfProducer(moves[i]);
        }
        i := i + 1;
      }
      OnePlace(View());
    }
  }

  /** Everything a move may be given is a block. */
  lemma Bounds(s: State)
    requires Inv(s)
    ensures Shape(s)
    ensures forall b | b in s.free :: b < |s.home|
    ensures forall p, b | 0 <= p < |s.producers| && b in s.producers[p].hand :: b < |s.home|
    ensures forall p, k | 0 <= p < |s.producers| && k in s.producers[p].entries :: s.producers[p].entries[k] < |s.home|
    ensures forall c | 0 <= c < |s.consumers| && (s.consumers[c].Clearing? || s.consumers[c].Returning?) ::
              s.consumers[c].block < |s.home|
  {
    forall b | b in s.free ensures b < |s.home| {
      assert Located(s, b, InFreeList);
    }
    forall p, b | 0 <= p < |s.producers| && b in s.producers[p].hand ensures b < |s.home| {
      assert Located(s, b, InHand(p));
    }
    forall p, k | 0 <= p < |s.producers| && k in s.producers[p].entries ensures s.producers[p].entries[k] < |s.home| {
      assert Located(s, s.producers[p].entries[k], Leased(p, k));
    }
    forall c | 0 <= c < |s.consumers| && (s.consumers[c].Clearing? || s.consumers[c].Returning?)
      ensures s.consumers[c].block < |s.home|
    {
      assert ConsumerOk(s, c);
      if s.consumers[c].Returning? {
        assert Located(s, s.consumers[c].block, InReturn(c));
      } else {
        assert Located(s, s.consumers[c].block, Leased(s.consumers[c].p, s.consumers[c].k));
      }
    }
  }

  /** Every block is in the place recorded for it, and in no other. */
  lemma OnePlace(s: State)
    requires Inv(s)
    ensures |s.emptied| == |s.home|
    ensures forall b: nat, place :: Located(s, b, place) <==> b < |s.home| && s.home[b] == place
  {
    forall b: nat, place ensures Located(s, b, place) <==> b < |s.home| && s.home[b] == place {
      if b < |s.home| { assert Located(s, b, s.home[b]); }
    }
  }

  lemma PoolHome(s: State, b: nat)
    requires Inv(s) && s.poolIndex <= b
    ensures b < s.poolSize ==> b < |s.home| && s.home[b] == InPool
  {
    assert b < s.poolSize ==> Located(s, b, InPool);
  }

  lemma NoSuchFree(s: State)
    requires Inv(s)
    ensures |s.home| !in s.free
  {
    forall b | b in s.free ensures b < |s.home| {
      assert Located(s, b, InFreeList);
    }
  }

  lemma ReadingFits(s: State, c: nat)
    requires Inv(s) && c < |s.consumers| && s.consumers[c].Reading?
    ensures Enabled(s, Complete(c)) && s.consumers[c].p < |s.producers|
  {
    assert ConsumerOk(s, c);
    assert ProducerOk(s.producers[s.consumers[c].p], s.emptied, s.size);
  }
}
