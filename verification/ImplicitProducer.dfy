/** An implicit producer enqueueing, one element at a time or many at once
    (include/concurentqueue/concurrentqueue.h:2317-2379, 2453-2601). The consumers stand still meanwhile:
    what they do to the index and the blocks at the same time is in `BlockLookup` and `BlockLeases`. */
module ImplicitProducers {
  import opened BlockIndex
  import opened CircularIndex
  import BlockLookup
  import BlockLookupProof
  import opened ImplicitBlockIndex
  import opened PowersOfTwo
  import opened Provision
  import opened SlotArithmetic
  import opened Slots

  /** Every block number has its own block. */
  predicate Injective(blocks: map<int, int>) {
    forall j, k | j in blocks && k in blocks && j != k :: blocks[j] != blocks[k]
  }

  /** The slot of index `i`: a block and an offset in it. */
  function SlotOf(blocks: map<int, int>, i: int, size: nat): (int, nat)
    requires size > 0 && BlockNo(i, size) in blocks
  {
    (blocks[BlockNo(i, size)], Offset(i, size))
  }

  predicate Stored<T>(blocks: map<int, int>, cells: map<(int, nat), T>, head: int, tail: int, size: nat)
    requires size > 0
  {
    forall i | head <= i < tail :: BlockNo(i, size) in blocks && SlotOf(blocks, i, size) in cells
  }

  /** The elements at the indices `head..tail`. */
  function Contents<T>(blocks: map<int, int>, cells: map<(int, nat), T>, head: int, tail: int, size: nat): seq<T>
    requires size > 0 && Stored(blocks, cells, head, tail, size)
    decreases tail - head
  {
    if tail <= head then [] else Contents(blocks, cells, head, tail - 1, size) + [cells[SlotOf(blocks, tail - 1, size)]]
  }

  lemma SlotsApart(blocks: map<int, int>, i: int, j: int, size: nat)
    requires size > 0 && Injective(blocks) && BlockNo(i, size) in blocks && BlockNo(j, size) in blocks && i != j
    ensures SlotOf(blocks, i, size) != SlotOf(blocks, j, size)
  {
    Splits(i, size);
    Splits(j, size);
    hide BlockNo, Offset, First;
  }

  lemma {:induction false} ContentsSame<T>(blocks: map<int, int>, cells: map<(int, nat), T>,
      blocks': map<int, int>, cells': map<(int, nat), T>, head: int, tail: int, size: nat)
    requires size > 0 && Stored(blocks, cells, head, tail, size) && Stored(blocks', cells', head, tail, size)
    requires forall i | head <= i < tail ::
      SlotOf(blocks', i, size) == SlotOf(blocks, i, size) && cells'[SlotOf(blocks, i, size)] == cells[SlotOf(blocks, i, size)]
    ensures Contents(blocks', cells', head, tail, size) == Contents(blocks, cells, head, tail, size)
    decreases tail - head
  {
    hide SlotOf, BlockNo;
    if tail > head { ContentsSame(blocks, cells, blocks', cells', head, tail - 1, size); }
  }

  /** Filling the slot at the end adds an element. */
  lemma ContentsPut<T>(blocks: map<int, int>, cells: map<(int, nat), T>, head: int, tail: int, size: nat, x: T)
    requires size > 0 && Stored(blocks, cells, head, tail, size) && Injective(blocks) && BlockNo(tail, size) in blocks && head <= tail
    ensures var cells' := cells[SlotOf(blocks, tail, size) := x];
            && Stored(blocks, cells', head, tail + 1, size)
            && Contents(blocks, cells', head, tail + 1, size) == Contents(blocks, cells, head, tail, size) + [x]
  {
    var cells' := cells[SlotOf(blocks, tail, size) := x];
    forall i | head <= i < tail
      ensures BlockNo(i, size) in blocks && SlotOf(blocks, i, size) != SlotOf(blocks, tail, size)
    {
      SlotsApart(blocks, i, tail, size);
    }
    hide SlotOf, BlockNo;
    ContentsSame(blocks, cells, blocks, cells', head, tail, size);
  }

  /** Leasing more blocks adds nothing. */
  lemma ContentsMoreBlocks<T>(blocks: map<int, int>, blocks': map<int, int>, cells: map<(int, nat), T>, head: int, tail: int, size: nat)
    requires size > 0 && Stored(blocks, cells, head, tail, size) && forall k | k in blocks :: k in blocks' && blocks'[k] == blocks[k]
    ensures Stored(blocks', cells, head, tail, size)
    ensures Contents(blocks', cells, head, tail, size) == Contents(blocks, cells, head, tail, size)
  {
    hide BlockNo;
    ContentsSame(blocks, cells, blocks', cells, head, tail, size);
  }

  predicate Leased(blocks: map<int, int>, free: seq<int>, created: int) {
    && Injective(blocks)
    && forall k | k in blocks :: 0 <= blocks[k] < created && blocks[k] !in free
  }

  /** `taken` is a list of blocks linked in that order. */
  predicate Chained(links: map<int, int>, taken: seq<int>) {
    forall i | 0 <= i < |taken| ::
      taken[i] in links && links[taken[i]] == (if i + 1 < |taken| then taken[i + 1] else NULL)
  }

  predicate AllDiffer(s: seq<int>) {
    forall i, j | 0 <= i < j < |s| :: s[i] != s[j]
  }

  /** The leases after the blocks `taken` have been entered from block number `from` on. */
  function With(blocks: map<int, int>, from: int, taken: seq<int>): (r: map<int, int>)
    ensures forall k :: k in r <==> k in blocks || from <= k < from + |taken|
    ensures forall k | k in r :: r[k] == if from <= k < from + |taken| then taken[k - from] else blocks[k]
  {
    if |taken| == 0 then blocks else With(blocks, from, taken[..|taken| - 1])[from + |taken| - 1 := taken[|taken| - 1]]
  }

  class ImplicitProducer<T> {
    const width: Width
    const half: nat
    const index: BlockIndexTable
    /** Words. */
    var tailIndex: nat
    var headIndex: nat
    var tailBlock: int
    /** Each block's `next`. */
    var links: map<int, int>
    /** The elements constructed in each block. */
    var cells: map<(int, nat), T>
    /** The queue's free list, and how many blocks there are. */
    var free: seq<int>
    var created: int
    ghost var tail: nat
    ghost var head: nat

    ghost predicate Words()
      reads `tailIndex, `headIndex, `tail, `head
    {
      && width.Valid() && width.Modulus() == 2 * half && width.blockSize < half
      && tailIndex == Word(tail, width.Modulus()) && headIndex == Word(head, width.Modulus())
      && head <= tail && First(Entered(tail, width.blockSize), width.blockSize) - head < half
    }

    ghost predicate PoolOk()
      reads `free, `created
    {
      && AllDiffer(free) && created >= 0 && forall b | b in free :: 0 <= b < created
    }

    ghost predicate Valid()
      reads this, index
    {
      && Words() && PoolOk()
      && index.Valid() && index.width == width && index.producer == BlockLookup.Quiet
      && index.next == index.published == Entered(tail, width.blockSize)
      && Leased(index.Blocks(), free, created)
      && Stored(index.Blocks(), cells, head, tail, width.blockSize)
      && (Offset(tail, width.blockSize) != 0 ==>
            BlockNo(tail, width.blockSize) in index.Blocks() && tailBlock == index.Blocks()[BlockNo(tail, width.blockSize)])
    }

    /** The queue. */
    ghost function Elements(): seq<T>
      reads this, index
      requires Valid()
    {
      Contents(index.Blocks(), cells, head, tail, width.blockSize)
    }

    constructor (width: Width, bits: nat)
      requires width.Valid() && bits <= width.blocksBits && 2 <= width.blocksBits
      ensures Valid() && Elements() == [] && fresh(index)
    {
      this.width := width;
      half := width.blockSize * Pow2(width.blocksBits - 1);
      index := new BlockIndexTable(width, bits);
      tailIndex, headIndex, tailBlock := 0, 0, NULL;
      links, cells, free, created := map[], map[], [], 0;
      tail, head := 0, 0;
      new;
      HalfIs(width);
      EmptyQueue(width);
      hide Word, Width.Modulus, First, Entered, Offset, BlockNo, BlockIndexTable.Valid, BlockIndexTable.Blocks;
    }

    /** `requisition_block`: from the free list, or a new one. */
    method Requisition(memory: bool) returns (block: int)
      requires PoolOk()
      modifies this`free, this`created
      ensures block == NULL <==> old(free) == [] && !memory
      ensures old(free) != [] ==> old(free) == free + [block] && created == old(created)
      ensures old(free) == [] ==> free == [] && created == old(created) + (if memory then 1 else 0)
      ensures old(free) == [] && memory ==> block == old(created)
      ensures PoolOk() && (block == NULL ==> free == old(free) && created == old(created))
      ensures block != NULL ==> 0 <= block < created && block !in free
      ensures created >= old(created)
      ensures block != NULL ==> forall x :: x in free || x == block <==> x in old(free) || old(created) <= x < created
      ensures block != NULL ==> block in old(free) || block >= old(created)
    {
      if |free| > 0 {
        var n := |free| - 1;
        block := free[n];
        assert block in free && free == free[..n] + [block];
        free := free[..n];
        assert forall b | b in free :: b in old(free);
      } else if memory {
        block := created;
        created := created + 1;
      } else {
        block := NULL;
      }
    }

    /** The blocks `taken` so far have been entered and linked, and nothing else has changed. */
    ghost predicate Allocating(old0: Before, taken: seq<int>)
      reads this, index
    {
      && Words() && PoolOk() && index.Valid() && index.width == width && index.producer == BlockLookup.Quiet
      && index.published == old0.from == Entered(tail, width.blockSize) && index.next == old0.from + |taken|
      && index.Blocks() == With(old0.blocks, old0.from, taken) && Leased(index.Blocks(), free, created)
      && Moved(old0, free, created, taken)
      && Linked(old0, links, tailBlock, taken)
      && First(old0.from + |taken|, width.blockSize) - head < half
    }

    /** What there was before is still all there. */
    ghost predicate Held(old0: Before)
      reads `cells, `head, `tail
      requires width.Valid()
    {
      var size := width.blockSize;
      && old0.from == Entered(tail, size) && old0.partly == (Offset(tail, size) != 0)
      && Leased(old0.blocks, old0.free, old0.created) && Stored(old0.blocks, cells, head, tail, size)
      && (old0.partly ==> BlockNo(tail, size) in old0.blocks && old0.start == old0.blocks[BlockNo(tail, size)])
    }

    /** Room in front of the next block, checked on words. */
    predicate HasRoom(base: nat)
      reads this
      requires Words()
    {
      CircularLessThan(headIndex, Plus(base, width.blockSize, width), half)
    }

    /** The words compare as the indices they stand for. */
    lemma RoomMeans(n: nat, base: nat)
      requires Words() && base == width.Base(n)
      requires Entered(tail, width.blockSize) <= n && First(n, width.blockSize) - head < half
      ensures HasRoom(base) <==> First(n + 1, width.blockSize) - head < half
      ensures First(n + 1, width.blockSize) >= tail
    {
      var b := width.blockSize;
      FirstOrder(Entered(tail, b), n, b);
      FirstNext(n, b);
      WordPlus(First(n, b), b, width);
      assert base == Word(First(n, b), width.Modulus());
      RoomCheckExact(Indices(head, First(n, b)), b, half);
    }

    /** What the allocating loop has to work with. */
    ghost function Stock(): (s: Supply)
      reads `free, index
      requires index.Valid()
    {
      Supply(index.VacantEntries(), |index.values|, index.width.blocksBits - index.bits - |index.headers| + 1, |free|)
    }

    /** Everything there has to be for `count` more elements: the blocks they reach into stay within half the range of
        indices, and each block not entered yet is to be had. */
    ghost predicate CanHold(count: nat, memory: nat -> (bool, bool))
      reads this, index
      requires Valid()
    {
      var size := width.blockSize;
      && First(Entered(tail + count, size), size) - head < half
      && AllHad(Stock(), Entered(tail + count, size) - Entered(tail, size), memory)
    }

    /** The same for one element: at the start of a block. */
    ghost predicate CanHoldOne(memory: (bool, bool))
      reads this, index
      requires Valid()
    {
      var size := width.blockSize;
      || Offset(tail, size) != 0
      || (First(Entered(tail, size) + 1, size) - head < half && OneHad(Stock(), memory))
    }

    /** An index entry and a block for it, or neither. */
    method EnterBlock(base: nat, memory: (bool, bool)) returns (ok: bool, e: nat, block: int)
      requires index.Valid() && index.producer == BlockLookup.Quiet && base == index.width.Base(index.next) && PoolOk()
      modifies this`free, this`created, index
      ensures index.Valid() && index.Blocks() == old(index.Blocks()) && index.published == old(index.published) && PoolOk()
      ensures !ok ==> index.next == old(index.next) && index.producer == BlockLookup.Quiet && free == old(free) && created == old(created)
      ensures ok ==> index.next == old(index.next) + 1 && index.producer == BlockLookup.TailStored
      ensures ok ==> e == BlockLookup.Order(index.View())[|index.keys| - 1]
      ensures ok <==> OneHad(old(Stock()), memory)
      ensures ok ==> Supply(index.VacantOthers(), |index.values|, index.width.blocksBits - index.bits - |index.headers| + 1, |free|) == Less(old(Stock()))
      ensures ok ==> block != NULL && 0 <= block < created && block !in free && created >= old(created)
      ensures ok ==> forall x :: x in free || x == block <==> x in old(free) || old(created) <= x < created
      ensures ok ==> block in old(free) || block >= old(created)
    {
      hide PoolOk, BlockIndexTable.Blocks, BlockIndexTable.Valid;
      index.BlocksEntered();
      var inserted;
      inserted, e := index.InsertBlockIndexEntry(base, memory.0);
      block := NULL;
      if !inserted {
        return false, e, block;
      }
      block := Requisition(memory.1);
      if block == NULL {
        index.RewindBlockIndexTail();
        return false, e, block;
      }
      ok := true;
    }

    /** Appends the block to the chain of those taken. */
    method LinkBlock(ghost old0: Before, ghost taken: seq<int>, first: int, block: int)
      requires width.Valid() && tailIndex == Word(tail, width.Modulus()) && Linked(old0, links, tailBlock, taken) && AllDiffer(taken)
      requires first == (if |taken| > 0 then taken[0] else NULL) && old0.partly == (Offset(tail, width.blockSize) != 0)
      requires block !in taken && block != NULL && (old0.partly ==> block != old0.start)
      modifies this`links, this`tailBlock
      ensures Linked(old0, links, tailBlock, taken + [block]) && tailBlock == block && (first == NULL <==> |taken| == 0)
    {
      MaskedWord(tail, width);
      links := links[block := NULL];
      if tailIndex % width.blockSize != 0 || first != NULL {
        links := links[tailBlock := block];
      }
      tailBlock := block;
    }

    /** The block that starts at `base`, entered, if it is to be had. */
    method TakeBlock(ghost n: nat, base: nat, memory: (bool, bool)) returns (ok: bool, block: int)
      requires Words() && PoolOk() && index.Valid() && index.width == width && index.producer == BlockLookup.Quiet
      requires n == index.next && base == width.Base(n)
      requires Entered(tail, width.blockSize) <= n && First(n, width.blockSize) - head < half
      modifies this`free, this`created, index
      ensures PoolOk() && index.Valid() && index.published == old(index.published) && index.producer == BlockLookup.Quiet
      ensures ok <==> First(n + 1, width.blockSize) - head < half && OneHad(old(Stock()), memory)
      ensures !ok ==> index.next == n && index.Blocks() == old(index.Blocks()) && free == old(free) && created == old(created)
      ensures ok ==> Stock() == Less(old(Stock())) && index.next == n + 1 && index.Blocks() == old(index.Blocks())[n := block]
      ensures ok ==> block != NULL && 0 <= block < created && block !in free && created >= old(created)
      ensures ok ==> forall x :: x in free || x == block <==> x in old(free) || old(created) <= x < created
      ensures ok ==> block in old(free) || block >= old(created)
    {
      hide First, Entered, Word, Width.Base, HasRoom, Less, OneHad, PoolOk, BlockIndexTable.Blocks, BlockIndexTable.Valid;
      RoomMeans(n, base);
      if !HasRoom(base) {
        return false, NULL;
      }
      var e;
      ok, e, block := EnterBlock(base, memory);
      if ok {
        index.SetValue(e, block);
      }
    }

    /** One round of the allocating loop, for the block that starts at `base`. `memory` says whether the two
        allocations it may need succeed. */
    method AllocateOne(ghost old0: Before, ghost taken: seq<int>, base: nat, first: int, memory: (bool, bool))
      returns (ok: bool, block: int)
      requires Allocating(old0, taken) && base == width.Base(old0.from + |taken|)
      requires first == (if |taken| > 0 then taken[0] else NULL) && Held(old0)
      modifies this`free, this`created, this`links, this`tailBlock, index
      ensures ok ==> Allocating(old0, taken + [block]) && tailBlock == block && (first == NULL <==> |taken| == 0)
      ensures !ok ==> Allocating(old0, taken) && tailBlock == old(tailBlock) && links == old(links)
      ensures ok <==> First(old0.from + |taken| + 1, width.blockSize) - head < half && OneHad(old(Stock()), memory)
      ensures ok ==> index.Valid() && Stock() == Less(old(Stock()))
    {
      hide First, Entered, With, Linked, Moved, Word, Offset, BlockNo, Width.Base, HasRoom, Leased, Stored, Stock, Less, OneHad,
        BlockIndexTable.Blocks, BlockIndexTable.Valid;
      ghost var blocks := index.Blocks();
      ok, block := TakeBlock(old0.from + |taken|, base, memory);
      if ok {
        TakenOne(old0, taken, blocks, old(free), old(created), free, created, block);
        assert old0.partly ==> old0.start in old0.blocks.Values;
        LinkBlock(old0, taken, first, block);
      }
    }

    /** `add_blocks_to_free_list`, along the chain. */
    method AddBlocksToFreeList(first: int, ghost old0: Before, ghost taken: seq<int>)
      requires PoolOk() && Moved(old0, free, created, taken) && Chained(links, taken) && NULL !in taken
      requires first == (if |taken| > 0 then taken[0] else NULL)
      modifies this`free
      ensures PoolOk() && forall x :: x in free <==> x in old0.free || old0.created <= x < created
    {
      hide Chained;
      var block := first;
      ghost var i := 0;
      while block != NULL
        invariant 0 <= i <= |taken| && block == (if i < |taken| then taken[i] else NULL)
        invariant PoolOk() && Moved(old0, free, created, taken[i..])
        decreases |taken| - i
      {
        ChainLink(links, taken, i);
        GiveBackOne(old0, free, created, taken[i..]);
        assert taken[i..][1..] == taken[i + 1..];
        var following := links[block];
        free := free + [block];
        block := following;
        i := i + 1;
      }
      assert taken[i..] == [];
    }

    /** The entries of all the blocks taken are emptied and taken back. */
    method UndoEntries(first: int, ghost old0: Before, ghost taken: seq<int>)
      requires Allocating(old0, taken) && first == (if |taken| > 0 then taken[0] else NULL)
      modifies index`headers, index`values, index`next, index`rewound, index`live
      ensures index.Valid() && index.Blocks() == old0.blocks && index.producer == BlockLookup.Quiet
      ensures index.next == index.published == old0.from
    {
      hide Moved, Leased, With, Chained, Word, Plus, Mask, First, Entered, Width.Base, BlockIndexTable.Undoing, BlockIndexTable.Kept, CanUndo,
        BlockIndexTable.Valid, BlockIndexTable.Blocks, BlockIndexTable.View, BlockIndexTable.Sized, StateBlocks;
      ghost var m := |taken|;
      index.StartUndoing(m);
      ghost var was, wasValues := index.View(), index.values;
      MaskedEnds(tail, 0, width);
      var base := Mask(Plus(tailIndex, -1, width), width.blockSize);
      var block := first;
      ghost var i := 0;
      while block != NULL
        invariant 0 <= i <= m && block == (if i < m then taken[i] else NULL)
        invariant index.Undoing(was, wasValues, i, m) && index.Kept(was) && base == width.Base(old0.from + i - 1)
        decreases m - i
      {
        ChainLink(links, taken, i);
        NextBase(old0.from + i - 1, width);
        base := Plus(base, width.blockSize, width);
        index.UndoOne(was, wasValues, i, m, base);
        block := links[block];
        i := i + 1;
      }
      index.FinishUndoing(was, wasValues, m);
      OnlyOld(old0, free, created, taken);
    }

    ghost function Now(): Before
      reads this, index
      requires width.Valid() && index.Valid()
    {
      Before(index.Blocks(), Entered(tail, width.blockSize), free, created, tailBlock, Offset(tail, width.blockSize) != 0)
    }

    lemma NothingTaken()
      requires Valid()
      ensures width.Valid() && index.Valid() && tailIndex == Word(tail, width.Modulus())
      ensures Allocating(Now(), []) && Held(Now()) && Stock().entries >= 1
      ensures First(Entered(tail, width.blockSize), width.blockSize) - head < half
    {
      index.HasEntries();
      index.BlocksEntered();
      hide Word, First, Entered, BlockIndexTable.Valid, BlockIndexTable.Blocks, Stored, Injective;
    }

    /** Undoes everything the allocating loop has done. */
    method Revert(start: int, first: int, ghost old0: Before, ghost taken: seq<int>)
      requires Allocating(old0, taken) && first == (if |taken| > 0 then taken[0] else NULL) && start == old0.start
      modifies this`free, this`tailBlock, index`headers, index`values, index`next, index`rewound, index`live
      ensures Words() && PoolOk() && index.Valid() && index.producer == BlockLookup.Quiet && index.next == index.published == old0.from
      ensures index.Blocks() == old0.blocks && tailBlock == old0.start
      ensures created == old(created) >= old0.created && forall x :: x in free <==> x in old0.free || old0.created <= x < created
    {
      hide Leased, With, Chained, Words, First, BlockIndexTable.Valid, BlockIndexTable.Blocks;
      UndoEntries(first, old0, taken);
      AddBlocksToFreeList(first, old0, taken);
      tailBlock := start;
    }

    /** The same, and the queue is as it was. */
    method GiveUp(start: int, first: int, ghost old0: Before, ghost taken: seq<int>)
      requires Allocating(old0, taken) && Held(old0) && first == (if |taken| > 0 then taken[0] else NULL) && start == old0.start
      modifies this`free, this`tailBlock, index`headers, index`values, index`next, index`rewound, index`live
      ensures Valid() && created == old(created) >= old0.created && Now() == old0.(free := free, created := created)
      ensures forall x :: x in free <==> x in old0.free || old0.created <= x < created
    {
      hide Moved, Leased, With, Chained, Linked, Words, PoolOk, First, Word, BlockNo, Offset, Entered, Stored,
        BlockIndexTable.Valid, BlockIndexTable.Blocks;
      Revert(start, first, old0, taken);
      LeasedBack(old0.blocks, old0.free, old0.created, free, created);
    }

    /** The first half of `enqueue_bulk`: all the blocks that `count` more elements need, or none. */
    method AllocateBlocks(count: nat, memory: nat -> (bool, bool)) returns (ok: bool, first: int, end: int, ghost taken: seq<int>)
      requires Valid() && count + width.blockSize <= width.Modulus()
      modifies this`free, this`created, this`links, this`tailBlock, index
      ensures ok ==> Allocating(old(Now()), taken) && |taken| == Entered(tail + count, width.blockSize) - Entered(tail, width.blockSize)
      ensures ok ==> first == (if |taken| > 0 then taken[0] else NULL) && end == tailBlock
      ensures ok <==> old(CanHold(count, memory))
      ensures !ok ==> Valid() && Now() == old(Now()).(free := free, created := created) && created >= old(created)
      ensures !ok ==> forall x :: x in free <==> x in old(free) || old(created) <= x < created
    {
      hide Valid, Allocating, Held, Stock, Done, AllHad, OneHad, Less, Mask, First, Entered, Word, Width.Base, Width.Modulus, Minus, Plus,
        BlockIndexTable.Valid, BlockIndexTable.Blocks;
      NothingTaken();
      ghost var old0, stock, doubled := Now(), Stock(), 0;
      NoneDone(stock, memory);
      var start := tailBlock;
      first, end, taken := NULL, tailBlock, [];
      BlockBaseDiff(tail, count, width);
      ghost var needed := Entered(tail + count, width.blockSize) - Entered(tail, width.blockSize);
      var blockBaseDiff := Minus(Mask(Plus(tailIndex, count - 1, width), width.blockSize),
                                 Mask(Plus(tailIndex, -1, width), width.blockSize), width.Modulus());
      var base := Mask(Plus(tailIndex, -1, width), width.blockSize);
      var round := 0;
      while blockBaseDiff > 0
        invariant Allocating(old0, taken) && Held(old0) && round == |taken| <= needed
        invariant blockBaseDiff == First(needed - |taken|, width.blockSize) && base == width.Base(old0.from + |taken| - 1)
        invariant first == (if |taken| > 0 then taken[0] else NULL) && end == tailBlock
        invariant index.Valid() && Done(stock, Stock(), round, doubled) && AllHad(stock, round, memory)
        invariant First(old0.from + round, width.blockSize) - head < half
        decreases needed - |taken|
      {
        MoreToTake(needed - |taken|, width.blockSize);
        NextBase(old0.from + |taken| - 1, width);
        blockBaseDiff := blockBaseDiff - width.blockSize;
        base := Plus(base, width.blockSize, width);
        var block;
        doubled := OneMoreDone(stock, Stock(), round, doubled, memory);
        ok, block := AllocateOne(old0, taken, base, first, memory(round));
        if !ok {
          NotAllHad(stock, round + 1, needed, memory);
          FirstOrder(old0.from + round + 1, old0.from + needed, width.blockSize);
          GiveUp(start, first, old0, taken);
          return;
        }
        end := block;
        first := if first == NULL then block else first;
        taken := taken + [block];
        round := round + 1;
      }
      NoMoreToTake(needed - |taken|, width.blockSize);
      ok := true;
    }

    /** Constructs the elements `items[j..]` in the tail block, number `k`, from index `i` up to index `stop`;
        the program has the two indices as words. */
    method FillRun(items: seq<T>, j: nat, from: nat, upto: nat, ghost i: nat, ghost stop: nat, ghost k: int, ghost blocks: map<int, int>)
      returns (n: nat)
      requires Words() && Injective(blocks) && (i < stop ==> k in blocks && blocks[k] == tailBlock)
      requires from == Word(i, width.Modulus()) && upto == Word(stop, width.Modulus())
      requires head <= i <= stop && First(k, width.blockSize) <= i && stop <= First(k, width.blockSize) + width.blockSize
      requires j + (stop - i) <= |items| && Stored(blocks, cells, head, i, width.blockSize)
      modifies this`cells
      ensures n == j + (stop - i) && Stored(blocks, cells, head, stop, width.blockSize)
      ensures Contents(blocks, cells, head, stop, width.blockSize)
           == old(Contents(blocks, cells, head, i, width.blockSize)) + items[j..n]
    {
      hide Word, Plus, First, Injective, BlockNo, Offset, Stored, Contents, Width.Modulus;
      var current := from;
      n := j;
      ghost var at := i;
      WordsNear(at, stop, width, half);
      while current != upto
        invariant i <= at <= stop && n == j + (at - i) && current == Word(at, width.Modulus())
        invariant current != upto <==> at != stop
        invariant Stored(blocks, cells, head, at, width.blockSize)
        invariant Contents(blocks, cells, head, at, width.blockSize)
               == old(Contents(blocks, cells, head, i, width.blockSize)) + items[j..n]
        decreases stop - at
      {
        InBlock(at, k, width);
        ContentsPut(blocks, cells, head, at, width.blockSize, items[n]);
        WordPlus(at, 1, width);
        WordsNear(at + 1, stop, width, half);
        assert items[j..n + 1] == items[j..n] + [items[n]];
        cells := cells[(tailBlock, current % width.blockSize) := items[n]];
        current, n := Plus(current, 1, width), n + 1;
        at := at + 1;
      }
    }

    /** Where a run that starts at index `i` of block `k` stops: at the end of the block, or of the elements. */
    method StopIndex(current: nat, newTail: nat, ghost i: nat, ghost total: nat, ghost k: int) returns (stop: nat)
      requires Words() && current == Word(i, width.Modulus()) && newTail == Word(total, width.Modulus()) && head <= i <= total && total - head < half
      requires First(k, width.blockSize) <= i < First(k, width.blockSize) + width.blockSize
      ensures var full := First(k, width.blockSize) + width.blockSize; stop == Word(if total < full then total else full, width.Modulus())
    {
      ghost var full := First(k, width.blockSize) + width.blockSize;
      InBlock(i, k, width);
      MaskedWord(i, width);
      NextBase(k, width);
      FirstNext(k, width.blockSize);
      CircularLessThanExact(total, full, half);
      stop := Plus(Mask(current, width.blockSize), width.blockSize, width);
      if CircularLessThan(newTail, stop, half) {
        stop := newTail;
      }
    }

    /** `i` is where block number `k` of the chain starts to be filled, on the way to `total`. */
    ghost predicate Filling(old0: Before, taken: seq<int>, k: int, i: nat, total: nat)
      reads `head, `tail
      requires width.Valid()
    {
      var size, last := width.blockSize, old0.from + |taken| - 1;
      && old0.from - 1 <= k <= last && (k < old0.from ==> old0.partly || |taken| == 0)
      && head <= tail <= i <= total <= First(last + 1, size) && First(last + 1, size) - head < half
      && First(k, size) <= i <= First(k, size) + size
      && (i == First(k, size) + size ==> k == last && i == total && |taken| == 0)
      && (k < old0.from && !old0.partly ==> i == First(k, size) + size)
      && (k < last ==> First(last, size) < total)
    }

    /** The first block to fill, and what the assertion before the loop says. */
    lemma FirstFill(old0: Before, taken: seq<int>, total: nat)
      requires Allocating(old0, taken) && Held(old0) && tail <= total
      requires |taken| == Entered(total, width.blockSize) - Entered(tail, width.blockSize)
      ensures width.Valid() && tailIndex == Word(tail, width.Modulus())
      ensures Filling(old0, taken, if old0.partly || |taken| == 0 then old0.from - 1 else old0.from, tail, total)
      ensures tailIndex % width.blockSize != 0 || |taken| > 0 || total == tail
      ensures tailIndex % width.blockSize == 0 <==> !old0.partly
      ensures NULL !in taken && AllDiffer(taken)
    {
      hide Word, First, Entered, Injective, Stored, Leased, Chained, With, Offset, BlockNo, PoolOk, BlockIndexTable.Valid, BlockIndexTable.Blocks;
      var size := width.blockSize;
      MaskedWord(tail, width);
      TailBlock(tail, size);
      FirstNext(old0.from, size);
      FirstNext(old0.from + |taken|, size);
    }

    /** The queue does not look different with more blocks in the index. */
    lemma SameElements(old0: Before, taken: seq<int>)
      requires Allocating(old0, taken) && Held(old0)
      ensures Injective(index.Blocks())
      ensures Stored(index.Blocks(), cells, head, tail, width.blockSize) && Stored(old0.blocks, cells, head, tail, width.blockSize)
      ensures Contents(index.Blocks(), cells, head, tail, width.blockSize) == Contents(old0.blocks, cells, head, tail, width.blockSize)
    {
      hide Word, First, Entered, Injective, Stored, Contents, Linked, Offset, BlockNo, PoolOk, BlockIndexTable.Valid, BlockIndexTable.Blocks;
      ContentsMoreBlocks(old0.blocks, index.Blocks(), cells, head, tail, width.blockSize);
    }

    lemma ChainLeased(old0: Before, taken: seq<int>)
      requires Allocating(old0, taken) && Held(old0)
      ensures ChainIn(index.Blocks(), old0, taken)
    {
      hide Word, First, Entered, Injective, Stored, Contents, Linked, BlockIndexTable.Valid, BlockIndexTable.Blocks;
      TailBlock(tail, width.blockSize);
    }

    /** One block of the second half of `enqueue_bulk`. */
    method FillBlock(items: seq<T>, j: nat, from: nat, newTail: nat, ghost old0: Before, ghost taken: seq<int>,
                     ghost k: int, ghost i: nat, ghost total: nat, ghost blocks: map<int, int>)
      returns (j': nat, upto: nat, ghost i': nat)
      requires Words() && Injective(blocks) && Filling(old0, taken, k, i, total)
      requires from == Word(i, width.Modulus()) && newTail == Word(total, width.Modulus()) && j + (total - i) == |items|
      requires First(k, width.blockSize) + width.blockSize > i ==> k in blocks && blocks[k] == tailBlock
      requires Stored(blocks, cells, head, i, width.blockSize)
      modifies this`cells
      ensures i <= i' <= total && upto == Word(i', width.Modulus()) && j' == j + (i' - i)
      ensures k == old0.from + |taken| - 1 ==> i' == total
      ensures k < old0.from + |taken| - 1 ==> i' == First(k + 1, width.blockSize) && Filling(old0, taken, k + 1, i', total)
      ensures Stored(blocks, cells, head, i', width.blockSize)
      ensures Contents(blocks, cells, head, i', width.blockSize)
           == old(Contents(blocks, cells, head, i, width.blockSize)) + items[j..j']
    {
      hide Word, First, Injective, Stored, Contents, Width.Modulus;
      var size := width.blockSize;
      FirstNext(k, size);
      FirstNext(k + 1, size);
      FirstOrder(k + 1, old0.from + |taken| - 1, size);
      ghost var at := if i == First(k, size) + size then k + 1 else k;
      upto := StopIndex(from, newTail, i, total, at);
      i' := if total < First(at, size) + size then total else First(at, size) + size;
      j' := FillRun(items, j, from, upto, i, i', k, blocks);
    }

    /** Its loop, from the block the tail block is to the end of the chain. */
    method FillChain(items: seq<T>, newTail: nat, end: int, ghost old0: Before, ghost taken: seq<int>, ghost k0: int,
                     ghost blocks: map<int, int>)
      requires Words() && ChainIn(blocks, old0, taken) && Linked(old0, links, end, taken) && AllDiffer(taken)
      requires Filling(old0, taken, k0, tail, tail + |items|) && tailBlock == ChainBlock(old0, taken, k0)
      requires newTail == Word(tail + |items|, width.Modulus()) && Stored(blocks, cells, head, tail, width.blockSize)
      modifies this`cells, this`tailBlock
      ensures tailBlock == end && Stored(blocks, cells, head, tail + |items|, width.blockSize)
      ensures Contents(blocks, cells, head, tail + |items|, width.blockSize)
           == old(Contents(blocks, cells, head, tail, width.blockSize)) + items
    {
      hide Word, First, Injective, Stored, Contents, Linked, Plus, ChainIn, ChainBlock, AllDiffer, BlockNo, Offset, Width.Modulus;
      ghost var was, total, k := Contents(blocks, cells, head, tail, width.blockSize), tail + |items|, k0;
      var current, j := tailIndex, 0;
      ghost var i: nat := tail;
      while true
        invariant Filling(old0, taken, k, i, total) && tailBlock == ChainBlock(old0, taken, k)
        invariant current == Word(i, width.Modulus()) && j + (total - i) == |items| && tail <= i <= total
        invariant Stored(blocks, cells, head, i, width.blockSize)
        invariant Contents(blocks, cells, head, i, width.blockSize) == was + items[..j]
        decreases old0.from + |taken| - k
      {
        ChainNext(old0, links, end, taken, k);
        ChainInAt(blocks, old0, taken, k);
        ghost var j0 := j;
        j, current, i := FillBlock(items, j, current, newTail, old0, taken, k, i, total, blocks);
        assert items[..j0] + items[j0..j] == items[..j];
        if tailBlock == end {
          assert current == newTail;
          break;
        }
        tailBlock := links[tailBlock];
        k := k + 1;
      }
      assert items[..j] == items;
    }

    /** The second half of `enqueue_bulk`: every element into its slot, one block after the other. */
    method FillBlocks(items: seq<T>, start: int, first: int, end: int, ghost old0: Before, ghost taken: seq<int>)
      requires Allocating(old0, taken) && Held(old0) && start == old0.start && end == tailBlock
      requires |taken| == Entered(tail + |items|, width.blockSize) - Entered(tail, width.blockSize)
      requires first == (if |taken| > 0 then taken[0] else NULL)
      modifies this`cells, this`tailBlock
      ensures tailBlock == end && Stored(index.Blocks(), cells, head, tail + |items|, width.blockSize)
      ensures Stored(old0.blocks, old(cells), head, tail, width.blockSize)
      ensures Contents(index.Blocks(), cells, head, tail + |items|, width.blockSize)
           == Contents(old0.blocks, old(cells), head, tail, width.blockSize) + items
    {
      hide Word, First, Injective, Stored, Contents, Leased, Moved, Linked, Entered, With, Filling, Width.Modulus, Plus, Words, Offset, BlockNo,
        ChainIn, ChainBlock, AllDiffer, Held, PoolOk, BlockIndexTable.Valid, BlockIndexTable.Blocks;
      FirstChainBlock(old0, taken);
      SameElements(old0, taken);
      ChainLeased(old0, taken);
      FirstFill(old0, taken, tail + |items|);
      WordPlus(tail, |items|, width);
      var newTail := Plus(tailIndex, |items|, width);
      tailBlock := start;
      if tailIndex % width.blockSize == 0 && first != NULL {
        tailBlock := first;
      }
      FillChain(items, newTail, end, old0, taken, if old0.partly || |taken| == 0 then old0.from - 1 else old0.from, index.Blocks());
    }

    /** All that has to hold, apart from the elements, for the tail to be `total` with tail block `block`. */
    ghost predicate Standing(total: nat, block: int)
      reads `free, `created, `head, index
      requires width.Valid()
    {
      var size := width.blockSize;
      && PoolOk() && index.Valid() && index.width == width && index.producer == BlockLookup.Quiet
      && index.next == Entered(total, size) && Leased(index.Blocks(), free, created)
      && First(Entered(total, size), size) - head < half
      && (Offset(total, size) != 0 ==> BlockNo(total, size) in index.Blocks() && block == index.Blocks()[BlockNo(total, size)])
    }

    /** The tail block after filling is the one that the next element may go into. */
    lemma EndFits(old0: Before, taken: seq<int>, total: nat)
      requires Allocating(old0, taken) && Held(old0) && tail <= total
      requires |taken| == Entered(total, width.blockSize) - Entered(tail, width.blockSize)
      ensures Standing(total, tailBlock)
    {
      hide Word, First, Entered, Injective, Stored, Contents, Linked, Chained, AllDiffer, With, Moved, Leased,
        BlockIndexTable.Valid, BlockIndexTable.Blocks;
      FirstFill(old0, taken, total);
      ChainLeased(old0, taken);
      TailBlock(total, width.blockSize);
      ChainNext(old0, links, tailBlock, taken, old0.from + |taken| - 1);
      ChainInAt(index.Blocks(), old0, taken, old0.from + |taken| - 1);
    }

    /** The last store: the tail index. */
    method Finish(count: nat)
      requires Words() && Standing(tail + count, tailBlock) && Stored(index.Blocks(), cells, head, tail + count, width.blockSize)
      modifies this`tailIndex, this`tail, index`published
      ensures Valid() && tail == old(tail) + count && index.Blocks() == old(index.Blocks())
    {
      hide First, Entered, Word, Plus, Offset, BlockNo, Contents, Stored, Leased, PoolOk,
        BlockIndexTable.Valid, BlockIndexTable.Blocks, Width.Modulus;
      WordPlus(tail, count, width);
      tailIndex := Plus(tailIndex, count, width);
      tail := tail + count;
      index.Publish();
    }

    /** `enqueue_bulk`: all the elements, or none and nothing lost: the queue, its index and its tail are as they
        were and every block taken is on the free list. */
    method EnqueueBulk(items: seq<T>, memory: nat -> (bool, bool)) returns (ok: bool)
      requires Valid() && |items| + width.blockSize <= width.Modulus()
      modifies this, index
      ensures Valid() && head == old(head)
      ensures ok ==> Elements() == old(Elements()) + items && tail == old(tail) + |items|
      ensures !ok ==> Elements() == old(Elements()) && tail == old(tail) && cells == old(cells)
      ensures ok <==> old(CanHold(|items|, memory))
      ensures !ok ==> Now() == old(Now()).(free := free, created := created)
      ensures !ok ==> forall x :: x in free <==> x in old(free) || old(created) <= x < created
    {
      hide Allocating, Held, First, Entered, Word, Plus, Offset, BlockNo, Contents, Stored, Leased, PoolOk, Standing,
        BlockIndexTable.Valid, BlockIndexTable.Blocks, Width.Modulus;
      NothingTaken();
      ghost var old0 := Now();
      var start := tailBlock;
      var first, end;
      ghost var taken;
      ok, first, end, taken := AllocateBlocks(|items|, memory);
      if !ok {
        return;
      }
      EndFits(old0, taken, tail + |items|);
      FillBlocks(items, start, first, end, old0, taken);
      Finish(|items|);
    }

    /** The block that the next element goes into, and whether it has been entered. */
    lemma NextSlot()
      requires width.Valid() && tailIndex == Word(tail, width.Modulus())
      ensures var n, n' := Entered(tail, width.blockSize), Entered(tail + 1, width.blockSize);
              && (tailIndex % width.blockSize == 0 <==> Offset(tail, width.blockSize) == 0)
              && (Offset(tail, width.blockSize) == 0 ==> tailIndex == width.Base(n) && n' == n + 1)
              && (Offset(tail, width.blockSize) != 0 ==> n' == n)
              && BlockNo(tail, width.blockSize) == n' - 1
              && (Offset(tail + 1, width.blockSize) != 0 ==> BlockNo(tail + 1, width.blockSize) == n' - 1)
    {
      var size := width.blockSize;
      var n := Entered(tail, size);
      MaskedWord(tail, width);
      WordSplits(tail, width);
      TailBlock(tail, size);
      TailBlock(tail + 1, size);
      FirstNext(n, size);
      if Offset(tail, size) == 0 {
        Joins(n, 0, size);
        EnteredIs(tail + 1, n + 1, size);
      } else {
        hide First, Offset, BlockNo, Entered, Word;
        EnteredIs(tail + 1, n, size);
      }
    }

    /** Constructs the element in the tail block and moves the tail index on. */
    method PutOne(item: T, ghost blocks0: map<int, int>)
      requires Words() && Standing(tail + 1, tailBlock) && BlockNo(tail, width.blockSize) in index.Blocks()
      requires tailBlock == index.Blocks()[BlockNo(tail, width.blockSize)]
      requires Stored(blocks0, cells, head, tail, width.blockSize)
      requires forall k | k in blocks0 :: k in index.Blocks() && index.Blocks()[k] == blocks0[k]
      modifies this`cells, this`tailIndex, this`tail, index`published
      ensures Valid() && tail == old(tail) + 1
      ensures Stored(blocks0, old(cells), head, old(tail), width.blockSize)
      ensures Elements() == Contents(blocks0, old(cells), head, old(tail), width.blockSize) + [item]
    {
      hide First, Entered, Word, Plus, BlockNo, Offset, Contents, Stored, PoolOk, BlockIndexTable.Valid, BlockIndexTable.Blocks, Width.Modulus, Injective;
      ghost var blocks := index.Blocks();
      MaskedWord(tail, width);
      ContentsMoreBlocks(blocks0, blocks, cells, head, tail, width.blockSize);
      ContentsPut(blocks, cells, head, tail, width.blockSize, item);
      cells := cells[(tailBlock, tailIndex % width.blockSize) := item];
      Finish(1);
    }

    /** At the end of a block `enqueue` starts a new one, or leaves everything as it was. */
    method StartBlock(memory: (bool, bool)) returns (ok: bool)
      requires Valid() && Offset(tail, width.blockSize) == 0
      modifies this`free, this`created, this`tailBlock, index
      ensures ok <==> old(CanHoldOne(memory))
      ensures !ok ==> Valid() && Now() == old(Now())
      ensures ok ==> Words() && Standing(tail + 1, tailBlock) && BlockNo(tail, width.blockSize) in index.Blocks()
      ensures ok ==> tailBlock == index.Blocks()[BlockNo(tail, width.blockSize)]
      ensures ok ==> forall k | k in old(index.Blocks()) :: k in index.Blocks() && index.Blocks()[k] == old(index.Blocks())[k]
    {
      hide First, Entered, Word, Plus, Offset, BlockNo, Contents, Stored, Leased, PoolOk, Stock, Less, OneHad,
        BlockIndexTable.Valid, BlockIndexTable.Blocks, Width.Modulus, Width.Base, HasRoom;
      ghost var blocks0, n := index.Blocks(), Entered(tail, width.blockSize);
      NextSlot();
      index.BlocksEntered();
      var block;
      ok, block := TakeBlock(n, tailIndex, memory);
      if !ok {
        return;
      }
      LeasedOne(blocks0, old(free), old(created), free, created, n, block);
      tailBlock := block;
    }

    /** `enqueue`: one element. */
    method Enqueue(item: T, memory: (bool, bool)) returns (ok: bool)
      requires Valid()
      modifies this, index
      ensures Valid() && head == old(head)
      ensures ok ==> Elements() == old(Elements()) + [item] && tail == old(tail) + 1
      ensures ok <==> old(CanHoldOne(memory))
      ensures !ok ==> Elements() == old(Elements()) && Now() == old(Now()) && tail == old(tail) && tailIndex % width.blockSize == 0
    {
      hide First, Entered, Word, Plus, Offset, BlockNo, Contents, Stored, Leased, PoolOk, Stock, OneHad,
        BlockIndexTable.Valid, BlockIndexTable.Blocks, Width.Modulus, Width.Base;
      ghost var blocks0 := index.Blocks();
      NextSlot();
      if tailIndex % width.blockSize == 0 {
        ok := StartBlock(memory);
        if !ok {
          return;
        }
      }
      PutOne(item, blocks0);
      ok := true;
    }

    /** Once the blocks that the head has left are off the index, there is always an entry to be had, so that with memory
        only half the range of indices stops an enqueue. */
    lemma OnlyTheRangeStops(memory: (bool, bool))
      requires Valid() && memory == (true, true)
      requires forall k | k in index.Blocks() :: First(k + 1, width.blockSize) > head
      ensures CanHoldOne(memory) <==>
                var size := width.blockSize;
                Offset(tail, size) != 0 || First(Entered(tail, size) + 1, size) - head < half
    {
      if index.VacantEntries() == 0 && Stock().doublings <= 0 {
        RangeIsUsed();
      }
      hide Valid, First, Entered, Offset, BlockIndexTable.Valid, BlockIndexTable.Blocks, BlockIndexTable.VacantEntries;
    }

    /** An index at its largest size whose oldest block is still there reaches further back than the head can be. */
    lemma RangeIsUsed()
      requires Valid() && index.VacantEntries() == 0 && index.bits + |index.headers| > width.blocksBits
      ensures exists k :: k in index.Blocks() && First(k + 1, width.blockSize) <= head
    {
      index.FullAtLargest();
      NothingTaken();
      hide Valid, Words, Stock, BlockIndexTable.Blocks, BlockIndexTable.Valid, BlockIndexTable.VacantEntries, First, Entered, Offset, Allocating, Held;
      WholeRange(index.next, width);
      Reaches(index.next, |index.values|);
      assert index.next - |index.values| in index.Blocks();
    }

    lemma Reaches(next: int, n: nat)
      requires width.Valid() && next == Entered(tail, width.blockSize) && n == width.Blocks() && Words()
      requires First(next, width.blockSize) - First(next - n + 1, width.blockSize) == width.Modulus() - width.blockSize
      ensures First(next - n + 1, width.blockSize) <= head
    {
      hide First, Entered, Width.Modulus, Word;
    }

    /** One element is held if and only if a bulk of one is. */
    lemma OneIsABulk(memory: nat -> (bool, bool))
      requires Valid()
      ensures CanHold(1, memory) <==> CanHoldOne(memory(0))
    {
      NextSlot();
      NothingTaken();
      FirstHadIff(Stock(), memory);
      hide Stock, First, Offset, Entered, BlockNo, OneHad, EntryHad, BlockHad, Words;
    }
  }

  /** How things stood before a bulk enqueue: the leases, all of blocks below number `from`, the free list,
      the number of blocks, and the tail block, which is partly filled or of no consequence. */
  datatype Before = Before(blocks: map<int, int>, from: int, free: seq<int>, created: int, start: int, partly: bool)

  /** Every block taken came from the free list or is new, and the others are where they were. */
  ghost predicate Moved(old0: Before, free: seq<int>, created: int, taken: seq<int>) {
    && old0.created <= created && AllDiffer(taken)
    && (forall k | k in old0.blocks :: k < old0.from)
    && (forall x | x in old0.free :: 0 <= x < old0.created)
    && (forall x | x in taken :: x !in free)
    && (forall x :: x in free || x in taken <==> x in old0.free || old0.created <= x < created)
  }

  /** The blocks taken form a chain that starts at the partly filled block, if there is one. */
  predicate Linked(old0: Before, links: map<int, int>, tailBlock: int, taken: seq<int>) {
    && NULL !in taken && (old0.partly ==> old0.start !in taken) && Chained(links, taken)
    && tailBlock == (if |taken| > 0 then taken[|taken| - 1] else old0.start)
    && (old0.partly && |taken| > 0 ==> old0.start in links && links[old0.start] == taken[0])
  }

  lemma MoveOne(old0: Before, free: seq<int>, created: int, taken: seq<int>, free': seq<int>, created': int, b: int)
    requires Moved(old0, free, created, taken) && created' >= created && b !in free' && b !in taken
    requires forall x :: x in free' || x == b <==> x in free || created <= x < created'
    ensures Moved(old0, free', created', taken + [b])
  {
  }

  lemma BlockIsNew(old0: Before, taken: seq<int>, blocks: map<int, int>, free: seq<int>, created: int, b: int)
    requires Moved(old0, free, created, taken) && Leased(blocks, free, created) && blocks == With(old0.blocks, old0.from, taken)
    requires b in free || b >= created
    ensures b !in taken && forall k | k in blocks :: blocks[k] != b
    ensures b !in old0.blocks.Values && AllDiffer(taken) && old0.from + |taken| !in blocks
  {
    hide Injective, AllDiffer;
    forall k | k in old0.blocks ensures old0.blocks[k] != b {
      assert k in blocks && blocks[k] == old0.blocks[k];
    }
  }

  lemma LeasedOne(blocks: map<int, int>, free: seq<int>, created: int, free': seq<int>, created': int, k: int, b: int)
    requires Leased(blocks, free, created) && (b in free || b >= created) && k !in blocks
    requires created' >= created && 0 <= b < created' && b !in free'
    requires forall x :: x in free' || x == b <==> x in free || created <= x < created'
    ensures Leased(blocks[k := b], free', created')
  {
  }

  lemma TakenOne(old0: Before, taken: seq<int>, blocks: map<int, int>, free: seq<int>, created: int,
                 free': seq<int>, created': int, b: int)
    requires Moved(old0, free, created, taken) && Leased(blocks, free, created) && blocks == With(old0.blocks, old0.from, taken)
    requires created' >= created && 0 <= b < created' && b !in free' && (b in free || b >= created)
    requires forall x :: x in free' || x == b <==> x in free || created <= x < created'
    ensures b !in taken && AllDiffer(taken) && b !in old0.blocks.Values && Moved(old0, free', created', taken + [b])
    ensures blocks[old0.from + |taken| := b] == With(old0.blocks, old0.from, taken + [b])
    ensures Leased(With(old0.blocks, old0.from, taken + [b]), free', created')
  {
    BlockIsNew(old0, taken, blocks, free, created, b);
    MoveOne(old0, free, created, taken, free', created', b);
    LeasedOne(blocks, free, created, free', created', old0.from + |taken|, b);
    LeaseOne(old0.blocks, old0.from, taken, b);
    hide Leased, With, Moved, AllDiffer;
  }

  lemma MoreToTake(n: nat, size: nat)
    requires size > 0 && First(n, size) > 0
    ensures n > 0 && First(n, size) - size == First(n - 1, size) >= 0
  {
    FirstNext(n, size);
    FirstZero(size);
    FirstOrder(0, n - 1, size);
  }

  lemma NoMoreToTake(n: nat, size: nat)
    requires size > 0 && First(n, size) <= 0
    ensures n == 0
  {
    FirstZero(size);
    FirstOrder(0, n, size);
  }

  lemma WordsNear(i: nat, j: nat, width: Width, half: nat)
    requires width.Valid() && width.Modulus() == 2 * half && width.blockSize < half && i <= j <= i + width.blockSize
    ensures Word(i, width.Modulus()) == Word(j, width.Modulus()) <==> i == j
  {
    WordsDiffer(i, j, width);
  }

  /** The slot of an index of block `k`. */
  lemma InBlock(i: nat, k: int, width: Width)
    requires width.Valid() && First(k, width.blockSize) <= i < First(k, width.blockSize) + width.blockSize
    ensures BlockNo(i, width.blockSize) == k && Word(i, width.Modulus()) % width.blockSize == Offset(i, width.blockSize)
  {
    Joins(k, i - First(k, width.blockSize), width.blockSize);
    MaskedWord(i, width);
  }

  /** The block that the chain has for block number `k`. */
  function ChainBlock(old0: Before, taken: seq<int>, k: int): int
    requires old0.from - 1 <= k < old0.from + |taken|
  {
    if k < old0.from then old0.start else taken[k - old0.from]
  }

  /** Every block of the chain is the one that the index has for its number. */
  predicate ChainIn(blocks: map<int, int>, old0: Before, taken: seq<int>) {
    && Injective(blocks)
    && forall k | old0.from - 1 <= k < old0.from + |taken| && (k < old0.from ==> old0.partly) ::
         k in blocks && blocks[k] == ChainBlock(old0, taken, k)
  }

  lemma FirstChainBlock(old0: Before, taken: seq<int>)
    ensures ChainBlock(old0, taken, old0.from - 1) == old0.start
    ensures |taken| > 0 ==> ChainBlock(old0, taken, old0.from) == taken[0]
  {
  }

  lemma ChainInAt(blocks: map<int, int>, old0: Before, taken: seq<int>, k: int)
    requires ChainIn(blocks, old0, taken) && old0.from - 1 <= k < old0.from + |taken|
    ensures Injective(blocks) && (k < old0.from ==> old0.partly) ==> k in blocks && blocks[k] == ChainBlock(old0, taken, k)
    ensures Injective(blocks)
  {
  }

  /** Along the chain. */
  lemma ChainNext(old0: Before, links: map<int, int>, tailBlock: int, taken: seq<int>, k: int)
    requires Linked(old0, links, tailBlock, taken) && AllDiffer(taken)
    requires old0.from - 1 <= k < old0.from + |taken| && (k < old0.from ==> old0.partly || |taken| == 0)
    ensures var last := old0.from + |taken| - 1;
            && tailBlock == ChainBlock(old0, taken, last)
            && (ChainBlock(old0, taken, k) == tailBlock <==> k == last)
            && (k < last ==> ChainBlock(old0, taken, k) in links)
            && (k < last ==> links[ChainBlock(old0, taken, k)] == ChainBlock(old0, taken, k + 1))
  {
    if k >= old0.from { ChainLink(links, taken, k - old0.from); }
    hide Chained;
  }

  lemma ChainLink(links: map<int, int>, taken: seq<int>, i: nat)
    requires Chained(links, taken) && i < |taken|
    ensures taken[i] in links && links[taken[i]] == (if i + 1 < |taken| then taken[i + 1] else NULL)
  {
  }

  lemma GiveBackOne(old0: Before, free: seq<int>, created: int, taken: seq<int>)
    requires Moved(old0, free, created, taken) && |taken| > 0 && AllDiffer(free)
    ensures Moved(old0, free + [taken[0]], created, taken[1..]) && AllDiffer(free + [taken[0]])
    ensures taken[0] in old0.free || old0.created <= taken[0] < created
  {
    assert taken == [taken[0]] + taken[1..];
    assert forall i | 0 <= i < |free| :: free[i] in free;
  }

  lemma NextBase(k: int, width: Width)
    requires width.Valid()
    ensures Plus(width.Base(k), width.blockSize, width) == width.Base(k + 1)
  {
    WordPlus(First(k, width.blockSize), width.blockSize, width);
    FirstNext(k, width.blockSize);
  }

  lemma OnlyOld(old0: Before, free: seq<int>, created: int, taken: seq<int>)
    requires Moved(old0, free, created, taken)
    ensures Below(With(old0.blocks, old0.from, taken), old0.from) == old0.blocks
  {
  }

  lemma LeasedBack(blocks: map<int, int>, free: seq<int>, created: int, free': seq<int>, created': int)
    requires Leased(blocks, free, created) && created' >= created
    requires forall x :: x in free' <==> x in free || created <= x < created'
    ensures Leased(blocks, free', created')
  {
  }

  lemma LeaseOne(blocks: map<int, int>, from: int, taken: seq<int>, b: int)
    ensures With(blocks, from, taken)[from + |taken| := b] == With(blocks, from, taken + [b])
  {
    assert (taken + [b])[..|taken|] == taken;
  }

  lemma HalfIs(width: Width)
    requires width.Valid() && width.blocksBits >= 2
    ensures var half := width.blockSize * Pow2(width.blocksBits - 1);
            width.Modulus() == 2 * half && width.blockSize < half
  {
    assert width.blockSize * (2 * Pow2(width.blocksBits - 1)) == 2 * (width.blockSize * Pow2(width.blocksBits - 1));
    AtLeast(width.blockSize, Pow2(width.blocksBits - 2));
    assert width.blockSize * (2 * Pow2(width.blocksBits - 2)) == 2 * (width.blockSize * Pow2(width.blocksBits - 2));
  }

  lemma WholeRange(next: int, width: Width)
    requires width.Valid()
    ensures First(next, width.blockSize) - First(next - width.Blocks() + 1, width.blockSize) == width.Modulus() - width.blockSize
  {
    FirstMinus(next, next - width.Blocks() + 1, width.blockSize);
    FirstNext(width.Blocks(), width.blockSize);
  }

  lemma AtLeast(a: nat, b: nat)
    requires b >= 1
    ensures a <= a * b
  {
  }

  lemma EmptyQueue(width: Width)
    requires width.Valid()
    ensures var size := width.blockSize; Entered(0, size) == 0 && First(0, size) == 0 && Offset(0, size) == 0
    ensures Word(0, width.Modulus()) == 0
  {
    SmallRemainder(0, width.Modulus());
    hide Width.Modulus;
  }
}
