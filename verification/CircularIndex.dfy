/** Indices that wrap around: a word holds an index modulo 2 * half, half being a power of two. */
module CircularIndex {
  import opened Division

  /** The word that holds an index. */
  function Word(index: int, modulus: nat): (w: nat)
    requires modulus >= 1
    ensures w < modulus
  {
    index % modulus
  }

  /** Unsigned subtraction of words. */
  function Minus(a: nat, b: nat, modulus: nat): (r: nat)
    requires a < modulus && b < modulus
    ensures r < modulus
  {
    if a >= b then a - b else a + modulus - b
  }

  predicate CircularLessThan(a: nat, b: nat, half: nat)
    requires a < 2 * half && b < 2 * half
  {
    Minus(a, b, 2 * half) > half
  }

  lemma MultipleInRange(k: int, m: nat, x: int)
    requires k * m == x && m >= 1 && -2 * m < x < 2 * m
    ensures -1 <= k <= 1
  {
    if k >= 2 { Times(k - 2, m); } else if k <= -2 { Times(-2 - k, m); }
  }

  lemma Times(a: nat, m: nat)
    ensures a * m >= 0
  {
  }

  /** Words of indices less than a whole range apart differ by the difference of the indices, up to
      one wrap. */
  lemma WordDifference(a: int, b: int, half: nat)
    requires half >= 1 && -2 * half < a - b < 2 * half
    ensures Minus(Word(a, 2 * half), Word(b, 2 * half), 2 * half) == if a >= b then a - b else a - b + 2 * half
  {
    var m := 2 * half;
    var x, y := a % m, b % m;
    var k := a / m - b / m;
    assert a == (a / m) * m + x && b == (b / m) * m + y;
    assert k * m == (a - b) - (x - y);
    if a - b - (x - y) >= 2 * m || a - b - (x - y) <= -2 * m {
      assert false;
    }
    MultipleInRange(k, m, (a - b) - (x - y));
  }

  /** The comparison is the true one for indices at most half the range apart, and only the very
      edge of that window is out. */
  lemma CircularLessThanExact(a: int, b: int, half: nat)
    requires half >= 1 && a - b <= half && b - a <= half
    ensures (CircularLessThan(Word(a, 2 * half), Word(b, 2 * half), half) <==> a < b) <==> b - a != half
  {
    WordDifference(a, b, half);
  }

  /** Words subtract like the indices they hold, however far apart those are. */
  lemma WordMinus(a: nat, b: nat, half: nat)
    requires half >= 1 && b <= a
    ensures Minus(Word(a, 2 * half), Word(b, 2 * half), 2 * half) == Word(a - b, 2 * half)
  {
    var m := 2 * half;
    var x, y := a % m, b % m;
    var k := a / m - b / m;
    assert a == (a / m) * m + x && b == (b / m) * m + y;
    assert k * m == (a - b) - (x - y);
    var r := Minus(x, y, 2 * half);
    var q := if x >= y then k else k - 1;
    assert a - b == q * m + r;
    if q < 0 { Times(-1 - q, m); }
    Euclid(a - b, q, r, m);
  }

  /** The test of `dequeue`, `dequeueOptimisticCount - overcommit < tail`, made on words, is the true
      one while the two sides are less than half the range apart. */
  lemma DequeueTestExact(optimistic: nat, overcommit: nat, tail: nat, half: nat)
    requires half >= 1 && overcommit <= optimistic
    requires optimistic - overcommit < tail + half && tail < optimistic - overcommit + half
    ensures CircularLessThan(Minus(Word(optimistic, 2 * half), Word(overcommit, 2 * half), 2 * half), Word(tail, 2 * half), half)
            <==> optimistic - overcommit < tail
  {
    WordMinus(optimistic, overcommit, half);
    CircularLessThanExact(optimistic - overcommit, tail, half);
  }

  // ---------------------------------------------------------------- the room check

  /** A sub-queue's two indices, `head` and `tail`, as they would be if they never wrapped. */
  datatype Indices = Indices(head: nat, tail: nat)

  datatype IndexMove = EnqueueOne | DequeueSome(n: nat)

  /** The check `enqueue` makes when it is about to start a block, on words. */
  predicate RoomCheck(s: Indices, block: nat, half: nat)
    requires half >= 1
  {
    CircularLessThan(Word(s.head, 2 * half), Word(s.tail + block, 2 * half), half)
  }

  /** `enqueue` makes that check only at the start of a block; dequeues never pass the tail. */
  function StepIndices(s: Indices, a: IndexMove, block: nat, half: nat): Indices
    requires half >= 1 && block >= 1
  {
    match a
    case EnqueueOne =>
      if Word(s.tail, 2 * half) % block == 0 && !RoomCheck(s, block, half) then s
      else s.(tail := s.tail + 1)
    case DequeueSome(n) => if s.head + n <= s.tail then s.(head := s.head + n) else s
  }

  /** The end of the block the tail is in, or the tail itself at a block boundary. */
  function BlockEnd(tail: nat, block: nat): nat
    requires block >= 1
  {
    if tail % block == 0 then tail else tail - tail % block + block
  }

  /** The whole block the producer has started lies less than half the range ahead of the head. */
  predicate Near(s: Indices, block: nat, half: nat)
    requires block >= 1
  {
    s.head <= s.tail && BlockEnd(s.tail, block) - s.head < half
  }

  lemma RoomCheckExact(s: Indices, block: nat, half: nat)
    requires 1 <= block <= half && s.head <= s.tail && s.tail - s.head < half
    ensures RoomCheck(s, block, half) <==> s.tail + block - s.head < half
  {
    WordDifference(s.head, s.tail + block, half);
  }

  /** Block boundaries show on words when the block size divides the range. */
  lemma BoundaryShows(tail: nat, block: nat, blocks: nat, half: nat)
    requires block >= 1 && half >= 1 && 2 * half == blocks * block
    ensures Word(tail, 2 * half) % block == tail % block
  {
    var m := 2 * half;
    var w, q := tail % m, tail / m;
    assert tail == q * m + w;
    SameRemainder(tail, w, q, blocks, block);
  }

  lemma SameRemainder(x: nat, w: nat, q: int, blocks: nat, block: nat)
    requires block >= 1 && x == q * (blocks * block) + w
    ensures x % block == w % block
  {
    var a, r := w / block, w % block;
    assert w == a * block + r;
    assert q * (blocks * block) == (q * blocks) * block;
    var k := q * blocks;
    assert x == k * block + a * block + r;
    assert k * block + a * block == (k + a) * block;
    Euclid(x, k + a, r, block);
  }

  lemma NextInBlock(tail: nat, block: nat)
    requires block >= 1
    ensures BlockEnd(tail + 1, block) == if tail % block == 0 then tail + block else BlockEnd(tail, block)
  {
    var q, r := tail / block, tail % block;
    assert tail == q * block + r;
    if r + 1 == block {
      assert tail + 1 == (q + 1) * block;
      Euclid(tail + 1, q + 1, 0, block);
    } else {
      Euclid(tail + 1, q, r + 1, block);
    }
  }

  lemma StepNear(s: Indices, a: IndexMove, block: nat, blocks: nat, half: nat)
    requires 1 <= block <= half && 2 * half == blocks * block && Near(s, block, half)
    ensures Near(StepIndices(s, a, block, half), block, half)
  {
    if a.EnqueueOne? {
      BoundaryShows(s.tail, block, blocks, half);
      NextInBlock(s.tail, block);
      if s.tail % block == 0 { RoomCheckExact(s, block, half); }
    }
  }

  function RunIndices(s: Indices, actions: seq<IndexMove>, block: nat, half: nat): Indices
    requires half >= 1 && block >= 1
    decreases |actions|
  {
    if actions == [] then s else RunIndices(StepIndices(s, actions[0], block, half), actions[1..], block, half)
  }

  /** Over every run the once-per-block check keeps head and tail less than half the range apart, so
      comparing their words is comparing them, for ever. */
  lemma {:induction false} ComparisonsStayExact(s: Indices, actions: seq<IndexMove>, block: nat, blocks: nat, half: nat)
    requires 1 <= block <= half && 2 * half == blocks * block && Near(s, block, half)
    ensures var r := RunIndices(s, actions, block, half);
            var head, tail := Word(r.head, 2 * half), Word(r.tail, 2 * half);
            && r.head <= r.tail && r.tail - r.head < half
            && (CircularLessThan(head, tail, half) <==> r.head < r.tail)
            && !CircularLessThan(tail, head, half)
            && Minus(tail, head, 2 * half) == r.tail - r.head
    decreases |actions|
  {
    if actions == [] {
      WordDifference(s.head, s.tail, half);
      WordDifference(s.tail, s.head, half);
    } else {
      StepNear(s, actions[0], block, blocks, half);
      ComparisonsStayExact(StepIndices(s, actions[0], block, half), actions[1..], block, blocks, half);
    }
  }
}
