/** How `enqueue_bulk` finds block numbers and slots from words. */
module SlotArithmetic {
  import opened BlockIndex
  import opened CircularIndex
  import opened Division
  import opened Slots

  /** `w & ~(BLOCK_SIZE - 1)` */
  function Mask(w: nat, size: nat): (m: nat)
    requires size > 0
    ensures m <= w
  {
    w - w % size
  }

  /** Remainders by the block size show on words. */
  lemma WordSplits(i: int, width: Width)
    requires width.Valid()
    ensures Word(i, width.Modulus()) == width.Base(BlockNo(i, width.blockSize)) + Offset(i, width.blockSize)
    ensures width.Base(BlockNo(i, width.blockSize)) % width.blockSize == 0
  {
    var b, m := width.blockSize, width.Modulus();
    var k, o := BlockNo(i, b), Offset(i, b);
    BaseAligned(k, width);
    var base := width.Base(k);
    var q := (k * b) / m;
    assert k * b == q * m + base;
    Splits(i, b);
    RoomAbove(base, m, b, width.Blocks());
    Euclid(i, q, base + o, m);
  }

  /** A multiple of `b` below another one is a whole `b` below it. */
  lemma RoomAbove(x: nat, m: nat, b: nat, n: nat)
    requires b > 0 && x % b == 0 && m == b * n && x < m
    ensures x + b <= m
  {
    var y := x / b;
    assert x == y * b;
    if y >= n { Scales(n, y, b); }
    Scales(y, n - 1, b);
    assert (n - 1) * b == m - b;
  }

  lemma MaskedWord(i: int, width: Width)
    requires width.Valid()
    ensures Mask(Word(i, width.Modulus()), width.blockSize) == width.Base(BlockNo(i, width.blockSize))
    ensures Word(i, width.Modulus()) % width.blockSize == Offset(i, width.blockSize)
  {
    WordSplits(i, width);
    var b, base, o := width.blockSize, width.Base(BlockNo(i, width.blockSize)), Offset(i, width.blockSize);
    assert base == (base / b) * b;
    Euclid(base + o, base / b, o, b);
  }

  /** Addition to a word. */
  function Plus(a: int, d: int, width: Width): (w: nat)
    requires width.Valid()
    ensures w < width.Modulus()
  {
    (a + d) % width.Modulus()
  }

  /** Adding to a word is adding to the index it stands for. */
  lemma WordPlus(i: int, d: int, width: Width)
    requires width.Valid()
    ensures Plus(Word(i, width.Modulus()), d, width) == Word(i + d, width.Modulus())
  {
    var m := width.Modulus();
    var q, w := i / m, i % m;
    assert i == q * m + w;
    var p, r := (w + d) / m, (w + d) % m;
    assert w + d == p * m + r;
    assert i + d == (q + p) * m + r;
    Euclid(i + d, q + p, r, m);
  }

  lemma WordsDiffer(i: int, j: int, width: Width)
    requires width.Valid() && i - j < width.Modulus() && j - i < width.Modulus()
    ensures Word(i, width.Modulus()) == Word(j, width.Modulus()) <==> i == j
  {
    var m := width.Modulus();
    if Word(i, width.Modulus()) == Word(j, width.Modulus()) {
      var d := i / m - j / m;
      assert i == (i / m) * m + i % m && j == (j / m) * m + j % m;
      assert i - j == d * m;
      if d >= 1 { Scales(1, d, m); }
      if d <= -1 { Scales(d, -1, m); }
    }
  }

  lemma FirstMinus(j: int, k: int, size: nat)
    ensures First(j, size) - First(k, size) == First(j - k, size)
  {
  }

  lemma NeededFits(tail: nat, count: nat, width: Width)
    requires width.Valid() && count + width.blockSize <= width.Modulus()
    ensures var b := width.blockSize;
            var needed := Entered(tail + count, b) - Entered(tail, b);
            && 0 <= needed && 0 <= First(needed, b) < width.Modulus()
            && First(Entered(tail + count, b), b) - First(Entered(tail, b), b) == First(needed, b)
  {
    hide First, Entered, BlockNo;
    var b := width.blockSize;
    var lo, hi := Entered(tail, b), Entered(tail + count, b);
    FirstOrder(hi, lo, b);
    FirstOrder(0, hi - lo, b);
    FirstMinus(hi, lo, b);
    FirstZero(b);
  }

  /** The two masked words. */
  lemma MaskedEnds(tail: nat, count: nat, width: Width)
    requires width.Valid()
    ensures var b := width.blockSize;
            var start := Word(tail, width.Modulus());
            && Mask(Plus(start, count - 1, width), b) == width.Base(Entered(tail + count, b) - 1)
            && Mask(Plus(start, -1, width), b) == width.Base(Entered(tail, b) - 1)
  {
    var b := width.blockSize;
    WordPlus(tail, count - 1, width);
    WordPlus(tail, -1, width);
    MaskedWord(tail + count - 1, width);
    MaskedWord(tail - 1, width);
    EnteredIs(tail, Entered(tail, b), b);
    EnteredIs(tail + count, Entered(tail + count, b), b);
    hide Word, Mask, Entered, BlockNo, First, Plus;
  }

  /** The size of all the blocks `enqueue_bulk` has to allocate, computed on words, is right for every tail
      index, 0 (where the index before it wraps) and a block boundary included. */
  lemma BlockBaseDiff(tail: nat, count: nat, width: Width)
    requires width.Valid() && count + width.blockSize <= width.Modulus()
    ensures var b := width.blockSize;
            var start := Word(tail, width.Modulus());
            var needed := Entered(tail + count, b) - Entered(tail, b);
            && Minus(Mask(Plus(start, count - 1, width), b), Mask(Plus(start, -1, width), b), width.Modulus()) == First(needed, b)
            && 0 <= needed && Mask(Plus(start, -1, width), b) == width.Base(Entered(tail, b) - 1)
  {
    hide First, Mask, Word, Entered, BlockNo, Minus, Plus;
    NeededFits(tail, count, width);
    MaskedEnds(tail, count, width);
    BasesDiffer(Entered(tail + count, width.blockSize) - 1, Entered(tail, width.blockSize) - 1, width);
  }

  lemma SmallRemainder(x: int, m: int)
    requires 0 <= x < m
    ensures x % m == x
  {
  }

  lemma MinusIs(a: nat, b: nat, m: nat)
    requires a < m && b < m
    ensures Minus(a, b, m) == (a - b) % m
  {
    if a >= b { SmallRemainder(a - b, m); } else { Euclid(a - b, -1, a - b + m, m); }
  }

  lemma BasesDiffer(j: int, k: int, width: Width)
    requires width.Valid() && 0 <= First(j - k, width.blockSize) < width.Modulus()
    ensures Minus(width.Base(j), width.Base(k), width.Modulus()) == First(j - k, width.blockSize)
  {
    DifferenceOfRemainders(j * width.blockSize, k * width.blockSize, width.Modulus());
    FirstMinus(j, k, width.blockSize);
    SmallRemainder(First(j - k, width.blockSize), width.Modulus());
    MinusIs(width.Base(j), width.Base(k), width.Modulus());
    hide Minus, Width.Modulus;
  }
}
