/** The growable circular block index of an implicit producer (include/concurentqueue/concurrentqueue.h):
    where entries lie, and how an entry is found from an index that may have wrapped around.
    Blocks are numbered in the order in which they are filled: block `k` starts at index `k * BLOCK_SIZE`. */
module BlockIndex {
  import opened Division
  import opened PowersOfTwo

  /** Entries are numbered; an index array only points at them, and is never changed once it is published. */
  datatype Header = Header(tail: nat, index: seq<nat>) {
    predicate Valid() { tail < |index| }

    /** `(tail + 1) & (capacity - 1)` */
    function Next(): (p: nat)
      requires Valid()
      ensures p < |index|
    {
      if tail + 1 == |index| then 0 else tail + 1
    }

    /** `(tail - 1) & (capacity - 1)` */
    function Previous(): (p: nat)
      requires Valid()
      ensures p < |index|
    {
      if tail == 0 then |index| - 1 else tail - 1
    }

    /** The entries from the one after the tail round to the tail: oldest first. */
    function Order(): (order: seq<nat>)
      requires Valid()
      ensures |order| == |index| && order[|order| - 1] == index[tail] && order[0] == index[Next()]
    {
      index[tail + 1..] + index[..tail + 1]
    }

    function Advanced(): (h: Header)
      requires Valid()
      ensures h.Valid()
    {
      this.(tail := Next())
    }

    function Retreated(): (h: Header)
      requires Valid()
      ensures h.Valid()
    {
      this.(tail := Previous())
    }
  }

  function NewOnes(from: nat, n: nat): (r: seq<nat>)
    ensures |r| == n && forall i | 0 <= i < n :: r[i] == from + i
  {
    seq(n, i requires 0 <= i < n => from + i)
  }

  /** What `new_block_index` makes of the index: the old entries, oldest first, then as many new ones. */
  function Grown(h: Header, from: nat): (h': Header)
    requires h.Valid()
    ensures h'.Valid()
  {
    Header(|h.index| - 1, h.Order() + NewOnes(from, |h.index|))
  }

  /** Moving the tail on makes the oldest entry the newest one. */
  lemma AdvanceRotates(h: Header)
    requires h.Valid()
    ensures h.Advanced().Order() == h.Order()[1..] + [h.Order()[0]]
  {
    if h.tail + 1 == |h.index| {
      assert h.Order() == h.index;
    } else {
      assert h.index[h.tail + 1..] == [h.index[h.tail + 1]] + h.index[h.tail + 2..];
    }
  }

  /** Moving it back undoes that. */
  lemma RetreatRotates(h: Header)
    requires h.Valid()
    ensures h.Retreated().Order() == [h.Order()[|h.index| - 1]] + h.Order()[..|h.index| - 1]
  {
  }

  /** Growing puts the new entries in front of the oldest one. */
  lemma GrownOrder(h: Header, from: nat)
    requires h.Valid()
    ensures Grown(h, from).Order() == NewOnes(from, |h.index|) + h.Order()
  {
  }

  /** How many places before place `t` place `p` is, going round. */
  function Behind(t: nat, p: nat, capacity: nat): (d: int)
    requires t < capacity && p < capacity
    ensures 0 <= d < capacity
  {
    if t >= p then t - p else t - p + capacity
  }

  /** Where the `j`th oldest entry lies. */
  function PlaceOf(h: Header, j: nat): (p: nat)
    requires h.Valid() && j < |h.index|
    ensures p < |h.index| && h.index[p] == h.Order()[j]
    ensures Behind(h.tail, p, |h.index|) == |h.index| - 1 - j
  {
    if h.tail + 1 + j < |h.index| then h.tail + 1 + j else h.tail + 1 + j - |h.index|
  }

  // ---------------------------------------------------------------- words

  /** Block size, and how many blocks an index runs through before it wraps around. */
  datatype Width = Width(blockSize: nat, blocksBits: nat) {
    predicate Valid() { blockSize >= 2 }

    function Blocks(): (n: nat)
      ensures n >= 1
    {
      Pow2(blocksBits)
    }

    function Modulus(): (n: nat)
      requires Valid()
      ensures n >= 1
    {
      blockSize * Blocks()
    }

    /** The word that holds the first index of block `k`. */
    function Base(k: int): (w: nat)
      requires Valid()
      ensures w < Modulus()
    {
      (k * blockSize) % Modulus()
    }
  }

  /** `get_block_index_index_for_index`, after its three loads. `BLOCK_SIZE` has an unsigned type, so the
      division is an unsigned one whatever the cast in front of it says. */
  function LookUp(tail: nat, base: nat, tailBase: nat, capacity: nat, width: Width): (place: nat)
    requires width.Valid() && capacity >= 1
    ensures place < capacity
  {
    var offset := ((base - tailBase) % width.Modulus()) / width.blockSize;
    (tail + offset) % capacity
  }

  /** A capacity that is a power of two no greater than the number of blocks divides it. */
  lemma CapacityDivides(bits: nat, width: Width) returns (m: nat)
    requires bits <= width.blocksBits
    ensures width.Blocks() == m * Pow2(bits)
  {
    m := Pow2(width.blocksBits - bits);
    Pow2Add(width.blocksBits - bits, bits);
  }

  lemma ScaledRemainder(d: int, b: nat, n: nat)
    requires b >= 1 && n >= 1 && b * n >= 1
    ensures ((d * b) % (b * n)) / b == d % n
  {
    var q, r := d / n, d % n;
    assert d == q * n + r;
    calc {
      d * b;
      (q * n + r) * b;
      q * (b * n) + r * b;
    }
    Scales(0, r, b);
    Scales(r, n - 1, b);
    assert (n - 1) * b == b * n - b;
    Euclid(d * b, q, r * b, b * n);
    Euclid(r * b, r, 0, b);
  }

  /** The difference of two block bases, as a word, is a whole number of blocks: the difference of the
      block numbers, going round. */
  lemma BaseDifference(k: int, tailK: int, width: Width)
    requires width.Valid()
    ensures ((width.Base(k) - width.Base(tailK)) % width.Modulus()) / width.blockSize == (k - tailK) % width.Blocks()
  {
    var b := width.blockSize;
    DifferenceOfRemainders(k * b, tailK * b, width.Modulus());
    assert k * b - tailK * b == (k - tailK) * b;
    ScaledRemainder(k - tailK, b, width.Blocks());
  }

  lemma DifferenceOfRemainders(x: int, y: int, m: int)
    requires m > 0
    ensures (x % m - y % m) % m == (x - y) % m
  {
    var q, r := (x - y) / m, (x - y) % m;
    var j := x / m - y / m;
    assert x == (x / m) * m + x % m && y == (y / m) * m + y % m && x - y == q * m + r;
    assert x % m - y % m == (q - j) * m + r;
    Euclid(x % m - y % m, q - j, r, m);
  }

  /** Going round a multiple of the capacity does not change the place. */
  lemma RoundAgain(tail: nat, d: int, n: nat, m: nat, capacity: nat)
    requires capacity >= 1 && n == m * capacity && n >= 1
    ensures (tail + d % n) % capacity == (tail + d) % capacity
  {
    var q, r := (tail + d % n) / capacity, (tail + d % n) % capacity;
    var e := d / n;
    assert d == e * n + d % n;
    assert e * n == (e * m) * capacity;
    assert tail + d == (q + e * m) * capacity + r;
    Euclid(tail + d, q + e * m, r, capacity);
  }

  /** The place found for block `k` from a tail entry that holds block `tailK` is the one as many places
      before the tail (or after it) as `k` is before `tailK`, though both are known only as words. */
  lemma LookUpExact(tail: nat, k: int, tailK: int, bits: nat, width: Width)
    requires width.Valid() && bits <= width.blocksBits
    ensures LookUp(tail, width.Base(k), width.Base(tailK), Pow2(bits), width) == (tail + k - tailK) % Pow2(bits)
  {
    BaseDifference(k, tailK, width);
    var m := CapacityDivides(bits, width);
    RoundAgain(tail, k - tailK, width.Blocks(), m, Pow2(bits));
  }

  /** Hence the entry of a block is found from that of a later one, if it lies as many places before it
      as the block is before the other. */
  lemma LookUpFinds(tail: nat, place: nat, k: int, tailK: int, bits: nat, width: Width)
    requires width.Valid() && bits <= width.blocksBits
    requires tail < Pow2(bits) && place < Pow2(bits) && tailK == k + Behind(tail, place, Pow2(bits))
    ensures LookUp(tail, width.Base(k), width.Base(tailK), Pow2(bits), width) == place
  {
    LookUpExact(tail, k, tailK, bits, width);
    var c := Pow2(bits);
    if tail >= place { Euclid(place, 0, place, c); } else { Euclid(place - c, -1, place, c); }
  }

  /** The same from a tail that has moved back since: all that counts is how far the two places and the two
      blocks are apart. */
  lemma LookUpFindsFrom(newest: nat, tail: nat, place: nat, k: int, tailK: int, bits: nat, width: Width)
    requires width.Valid() && bits <= width.blocksBits
    requires newest < Pow2(bits) && tail < Pow2(bits) && place < Pow2(bits)
    requires tailK - k == Behind(newest, place, Pow2(bits)) - Behind(newest, tail, Pow2(bits))
    ensures LookUp(tail, width.Base(k), width.Base(tailK), Pow2(bits), width) == place
  {
    LookUpExact(tail, k, tailK, bits, width);
    var c := Pow2(bits);
    var x := tail + k - tailK;
    if x == place { Euclid(x, 0, place, c); } else if x == place + c { Euclid(x, 1, place, c); } else { Euclid(x, -1, place, c); }
  }

  /** Block bases are multiples of the block size, so a word with the low bit set can stand for "no key". */
  lemma BaseAligned(k: int, width: Width)
    requires width.Valid()
    ensures width.Base(k) % width.blockSize == 0 && width.Base(k) != 1
  {
    var b, n := width.blockSize, width.Blocks();
    var q, r := k / n, k % n;
    assert k == q * n + r;
    Scales(0, r, b);
    Scales(r, n - 1, b);
    assert (n - 1) * b == b * n - b;
    Euclid(k * b, q, r * b, b * n);
    Euclid(r * b, r, 0, b);
  }

}
