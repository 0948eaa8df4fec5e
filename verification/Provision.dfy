/** When the blocks that an enqueue needs are to be had: each one needs an entry of the block index, which may have to
    double first, and a block (include/concurentqueue/concurrentqueue.h:2726-2751, 2791-2825, 2908-2925). */
module Provision {
  import opened PowersOfTwo

  /** What there is: entries that can be used before one in use is met, entries in all, how many times the index may
      still double, and free blocks. */
  datatype Supply = Supply(vacant: nat, entries: nat, doublings: int, free: nat)

  /** How many entries can be used before the index has doubled `j + 1` times. */
  function Usable(s: Supply, j: nat): int { s.vacant + s.entries * (Pow2(j) - 1) }

  /** The entry for block number `k` of those to be allocated. An index doubles when what it has is used up; then
      another allocation has to succeed and the index must not be at its largest size. */
  ghost predicate EntryHad(s: Supply, k: nat, granted: bool) {
    forall j: nat | Usable(s, j) == k :: granted && j < s.doublings
  }

  /** The block itself: a free one while there are any, and then a new one. */
  predicate BlockHad(s: Supply, k: nat, granted: bool) { k < s.free || granted }

  /** Everything for the first `n` blocks; `memory(k)` says whether the two allocations that block `k` may need succeed. */
  ghost predicate AllHad(s: Supply, n: int, memory: nat -> (bool, bool)) {
    forall k: nat | k < n :: EntryHad(s, k, memory(k).0) && BlockHad(s, k, memory(k).1)
  }

  /** For one block: an entry can be used or, if the index may double and has the memory to, made; and a block is free,
      or can be made. */
  predicate OneHad(s: Supply, memory: (bool, bool)) {
    (s.vacant > 0 || (memory.0 && s.doublings > 0)) && (s.free > 0 || memory.1)
  }

  /** What is left after one block. */
  function Less(s: Supply): Supply {
    var free := if s.free > 0 then s.free - 1 else 0;
    if s.vacant > 0 then s.(vacant := s.vacant - 1, free := free)
    else Supply(if s.entries > 0 then s.entries - 1 else 0, 2 * s.entries, s.doublings - 1, free)
  }

  lemma {:induction false} Pow2Grows(i: nat, j: nat)
    requires i <= j
    ensures Pow2(i) <= Pow2(j) && (i < j ==> 2 * Pow2(i) <= Pow2(j))
  {
    if i < j { Pow2Grows(i, j - 1); }
  }

  lemma UsableGrows(s: Supply, i: nat, j: nat)
    requires i <= j
    ensures Usable(s, i) <= Usable(s, j) && (i < j ==> Usable(s, i) + s.entries * Pow2(i) <= Usable(s, j))
  {
    hide Usable, Pow2;
    Pow2Grows(i, j);
    UsableGap(s, i, j);
    Product(s.entries, Pow2(j) - Pow2(i));
    if i < j { Product(s.entries, Pow2(j) - 2 * Pow2(i)); }
  }

  lemma UsableGap(s: Supply, i: nat, j: nat)
    ensures Usable(s, j) - Usable(s, i) == s.entries * (Pow2(j) - Pow2(i))
    ensures s.entries * (Pow2(j) - Pow2(i)) - s.entries * Pow2(i) == s.entries * (Pow2(j) - 2 * Pow2(i))
  {
    hide Pow2;
    Differences(s.entries, Pow2(j), Pow2(i));
  }

  lemma Differences(n: int, a: int, b: int)
    ensures n * (a - 1) - n * (b - 1) == n * (a - b)
    ensures n * (a - b) - n * b == n * (a - 2 * b)
  {
  }

  lemma Product(a: nat, b: nat)
    ensures a * b >= 0
  {
  }

  /** After `k` blocks and `j` doublings: whether the entry for the next is to be had. */
  lemma EntryHadIff(s: Supply, j: nat, k: nat, granted: bool)
    requires s.entries >= 1 && k <= Usable(s, j) && (j > 0 ==> Usable(s, j - 1) < k)
    ensures EntryHad(s, k, granted) <==> k < Usable(s, j) || (granted && j < s.doublings)
  {
    hide Usable, Pow2;
    forall i: nat ensures Usable(s, i) == k ==> i == j {
      if i < j { UsableGrows(s, i, j - 1); }
      if i > j { UsableGrows(s, j, i); PositiveProduct(s.entries, Pow2(j)); }
    }
  }

  lemma PositiveProduct(a: nat, b: nat)
    requires a >= 1 && b >= 1
    ensures a * b >= 1
  {
  }

  lemma NextDoubling(s: Supply, j: nat)
    ensures Usable(s, j + 1) == Usable(s, j) + s.entries * Pow2(j)
    ensures s.entries * Pow2(j + 1) == 2 * (s.entries * Pow2(j))
  {
    UsableGap(s, j, j + 1);
  }

  lemma NoneYet(s: Supply)
    ensures Usable(s, 0) == s.vacant && s.entries * Pow2(0) == s.entries
  {
  }

  /** What is left after `k` blocks and `j` doublings. */
  predicate Done(s0: Supply, s: Supply, k: nat, j: nat) {
    && s0.entries >= 1 && s.vacant == Usable(s0, j) - k && s.entries == s0.entries * Pow2(j)
    && s.doublings == s0.doublings - j && s.free == (if k < s0.free then s0.free - k else 0)
    && (j > 0 ==> Usable(s0, j - 1) < k)
  }

  lemma NoneDone(s0: Supply, memory: nat -> (bool, bool))
    requires s0.entries >= 1
    ensures Done(s0, s0, 0, 0) && AllHad(s0, 0, memory)
  {
    NoneYet(s0);
  }

  /** Step by step, the blocks that can be had are those that `AllHad` says. */
  lemma OneMoreDone(s0: Supply, s: Supply, k: nat, j: nat, memory: nat -> (bool, bool)) returns (j': nat)
    requires Done(s0, s, k, j) && AllHad(s0, k, memory)
    ensures OneHad(s, memory(k)) <==> AllHad(s0, k + 1, memory)
    ensures OneHad(s, memory(k)) ==> Done(s0, Less(s), k + 1, j')
  {
    EntryHadIff(s0, j, k, memory(k).0);
    NextDoubling(s0, j);
    PositiveProduct(s0.entries, Pow2(j));
    hide Usable, Pow2, EntryHad;
    j' := if s.vacant > 0 then j else j + 1;
    if OneHad(s, memory(k)) {
      forall i: nat | i < k + 1 ensures EntryHad(s0, i, memory(i).0) && BlockHad(s0, i, memory(i).1) {
      }
    }
  }

  lemma NotAllHad(s0: Supply, k: nat, n: nat, memory: nat -> (bool, bool))
    requires k <= n
    ensures AllHad(s0, n, memory) ==> AllHad(s0, k, memory)
  {
    hide EntryHad, BlockHad;
  }

  /** For one block it is the test that `enqueue` makes. */
  lemma FirstHadIff(s: Supply, memory: nat -> (bool, bool))
    requires s.entries >= 1
    ensures AllHad(s, 1, memory) <==> OneHad(s, memory(0))
  {
    NoneDone(s, memory);
    var j := OneMoreDone(s, s, 0, 0, memory);
  }
}
