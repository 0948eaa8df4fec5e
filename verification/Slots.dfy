/** Block numbers and slots of indices. Block `k` holds the indices from `k * BLOCK_SIZE` on. */
module Slots {
  import opened Division

  /** The number of the block index `i` is in; -1 for the index before 0. */
  function BlockNo(i: int, size: nat): (k: int)
    requires size > 0
    ensures i >= 0 ==> k >= 0
    ensures First(k, size) <= i < First(k, size) + size
  {
    i / size
  }

  function Offset(i: int, size: nat): (o: nat)
    requires size > 0
    ensures o < size
  {
    i % size
  }

  /** The first index of block `k`. */
  function First(k: int, size: nat): (i: int)
    ensures k >= 0 ==> i >= 0
  {
    k * size
  }

  lemma Splits(i: int, size: nat)
    requires size > 0
    ensures i == First(BlockNo(i, size), size) + Offset(i, size)
  {
  }

  lemma Joins(k: int, o: nat, size: nat)
    requires o < size
    ensures BlockNo(First(k, size) + o, size) == k && Offset(First(k, size) + o, size) == o
  {
    Euclid(First(k, size) + o, k, o, size);
  }

  lemma FirstNext(k: int, size: nat)
    ensures First(k + 1, size) == First(k, size) + size && First(k - 1, size) == First(k, size) - size
  {
  }

  lemma FirstOrder(j: int, k: int, size: nat)
    requires size > 0
    ensures j < k ==> First(j, size) + size <= First(k, size)
    ensures j <= k ==> First(j, size) <= First(k, size)
  {
    if j <= k { Scales(j, k, size); }
    if j < k { Scales(j + 1, k, size); FirstNext(j, size); }
  }

  /** How many blocks hold the indices below `i`. */
  function Entered(i: nat, size: nat): (n: nat)
    requires size > 0
    ensures First(n, size) - size < i <= First(n, size)
  {
    Splits(i - 1, size);
    FirstNext(BlockNo(i - 1, size), size);
    FirstZero(size);
    if i == 0 then 0 else BlockNo(i - 1, size) + 1
  }

  lemma FirstZero(size: nat)
    ensures First(0, size) == 0
  {
  }

  lemma EnteredIs(i: nat, n: int, size: nat)
    requires size > 0 && First(n, size) - size < i <= First(n, size)
    ensures n == Entered(i, size) && n == BlockNo(i - 1, size) + 1
  {
    var m := Entered(i, size);
    FirstOrder(m, n, size);
    FirstOrder(n, m, size);
    FirstNext(n, size);
    Joins(n - 1, i - 1 - First(n - 1, size), size);
  }

  /** At a block boundary the next index is the first of a block not yet entered, elsewhere it is in the last
      block entered. */
  lemma TailBlock(tail: nat, size: nat)
    requires size > 0
    ensures var n := Entered(tail, size);
            && (Offset(tail, size) == 0 <==> tail == First(n, size))
            && (Offset(tail, size) != 0 ==> BlockNo(tail, size) == n - 1)
  {
    var n, k := Entered(tail, size), BlockNo(tail, size);
    Splits(tail, size);
    FirstNext(k, size);
    if Offset(tail, size) == 0 { EnteredIs(tail, k, size); } else { EnteredIs(tail, k + 1, size); }
    Joins(n, 0, size);
  }
}
