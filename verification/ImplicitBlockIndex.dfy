/** The producer's side of the block index as the program has it, changed in place
    (include/concurentqueue/concurrentqueue.h:2706-2825), proved against the steps of `BlockLookup`. */
module ImplicitBlockIndex {
  import opened BlockIndex
  import opened BlockLookup
  import opened BlockLookupProof
  import opened PowersOfTwo

  const NULL := -1

  const INVALID_BLOCK_BASE: nat := 1

  function Full(values: seq<int>): (full: seq<bool>)
    ensures |full| == |values| && forall e | 0 <= e < |values| :: full[e] == (values[e] != NULL)
  {
    seq(|values|, e requires 0 <= e < |values| => values[e] != NULL)
  }

  predicate AreWords(words: seq<nat>, keys: seq<int>, width: Width)
    requires width.Valid() && |words| == |keys|
  {
    forall e | 0 <= e < |keys| :: words[e] == KeyWord(keys[e], width)
  }

  /** The value beside block number `k`, which is in the run. */
  function Held(order: seq<nat>, values: seq<int>, next: int, k: int): int
    requires Indexes(order, |values|) && next - |values| <= k < next
  {
    values[order[|values| - (next - k)]]
  }

  /** What the index says: the block of each block number of the run that has one. */
  ghost function Leases(order: seq<nat>, values: seq<int>, next: int, live: int): (leases: map<int, int>)
    requires Indexes(order, |values|) && 0 <= live <= |values|
  {
    map k: int | next - live <= k < next && Held(order, values, next, k) != NULL :: Held(order, values, next, k)
  }

  /** How many entries in a row, from the oldest on, have no block. */
  function Vacant(order: seq<nat>, values: seq<int>): (v: nat)
    requires forall j | 0 <= j < |order| :: order[j] < |values|
    ensures v <= |order| && (v > 0 <==> |order| > 0 && values[order[0]] == NULL)
  {
    if |order| == 0 || values[order[0]] != NULL then 0 else 1 + Vacant(order[1..], values)
  }

  /** An entry in use at the end makes no difference. */
  lemma {:induction false} VacantBefore(order: seq<nat>, values: seq<int>, e: nat, b: int)
    requires forall j | 0 <= j < |order| :: order[j] < |values|
    requires e < |values| && e !in order && b != NULL
    ensures Vacant(order + [e], values[e := b]) == Vacant(order, values)
  {
    if |order| > 0 {
      assert order[0] in order;
      assert (order + [e])[1..] == order[1..] + [e];
      VacantBefore(order[1..], values, e, b);
    } else {
      assert ([] + [e])[0] == e;
    }
  }

  /** A run without blocks in front of an entry in use. */
  lemma {:induction false} VacantFront(front: seq<nat>, order: seq<nat>, values: seq<int>)
    requires forall j | 0 <= j < |front| :: front[j] < |values| && values[front[j]] == NULL
    requires |order| > 0 && (forall j | 0 <= j < |order| :: order[j] < |values|) && values[order[0]] != NULL
    ensures forall j | 0 <= j < |front + order| :: (front + order)[j] < |values|
    ensures Vacant(front + order, values) == |front|
  {
    if |front| > 0 {
      VacantFront(front[1..], order, values);
      assert (front + order)[1..] == front[1..] + order;
    } else {
      assert front + order == order;
    }
  }

  /** What a doubled index has in front of the entry in use. */
  lemma VacantGrown(order: seq<nat>, values: seq<int>)
    requires Indexes(order, |values|) && |values| > 0 && values[order[0]] != NULL
    ensures var n := |values|;
            && Indexes(NewOnes(n, n) + order, 2 * n)
            && Vacant(NewOnes(n, n) + order, values + seq(n, _ => NULL)) == n
  {
    VacantFront(NewOnes(|values|, |values|), order, values + seq(|values|, _ => NULL));
  }

  lemma VacantLast(order: seq<nat>, values: seq<int>, b: int)
    requires Indexes(order, |values|) && |values| > 0 && Distinct(order) && b != NULL
    ensures var n := |values|; Vacant(order, values[order[n - 1] := b]) == Vacant(order[..n - 1], values)
  {
    var n := |values|;
    assert order == order[..n - 1] + [order[n - 1]];
    VacantBefore(order[..n - 1], values, order[n - 1], b);
  }

  // ---------------------------------------------------------------- what the steps do to it

  lemma LeasesAhead(order: seq<nat>, values: seq<int>, next: int, live: int)
    requires Indexes(order, |values|) && 0 <= live < |values| && values[order[0]] == NULL
    ensures Leases(Ahead(order), values, next + 1, live + 1) == Leases(order, values, next, live)
  {
    hide Ahead;
    assert Indexes(Ahead(order), |values|);
  }

  /** When the run is as long as the index, its oldest block has gone before its entry is used again. */
  lemma LeasesDrop(order: seq<nat>, values: seq<int>, next: int)
    requires Indexes(order, |values|) && values[order[0]] == NULL
    ensures Leases(order, values, next, |values| - 1) == Leases(order, values, next, |values|)
  {
  }

  lemma LeasesBack(order: seq<nat>, values: seq<int>, next: int, live: int)
    requires Indexes(order, |values|) && 0 < live <= |values| && Distinct(order)
    ensures var values' := values[order[|values| - 1] := NULL];
            Leases(Back(order), values', next - 1, live - 1) == Leases(order, values, next, live) - {next - 1}
  {
    hide Back;
    assert Indexes(Back(order), |values|);
    var values' := values[order[|values| - 1] := NULL];
    forall k: int | next - live <= k < next - 1
      ensures Held(order, values', next, k) == Held(order, values, next, k)
    {
      assert order[|values| - (next - k)] != order[|values| - 1];
    }
  }

  lemma LeasesSet(order: seq<nat>, values: seq<int>, next: int, live: int, b: int)
    requires Indexes(order, |values|) && 0 < live <= |values| && Distinct(order) && b != NULL
    ensures Leases(order, values[order[|values| - 1] := b], next, live) == Leases(order, values, next, live)[next - 1 := b]
  {
    var values' := values[order[|values| - 1] := b];
    forall k: int | next - live <= k < next - 1
      ensures Held(order, values', next, k) == Held(order, values, next, k)
    {
      assert order[|values| - (next - k)] != order[|values| - 1];
    }
  }

  lemma LeasesGrown(order: seq<nat>, values: seq<int>, next: int, live: int)
    requires Indexes(order, |values|) && 0 <= live <= |values|
    ensures var n := |values|;
            && Indexes(NewOnes(n, n) + order, 2 * n)
            && Leases(NewOnes(n, n) + order, values + seq(n, _ => NULL), next, live) == Leases(order, values, next, live)
  {
  }

  /** The values without those of the entries `from..upto` of the order. */
  function Cut(values: seq<int>, order: seq<nat>, from: nat, upto: nat): (r: seq<int>)
    requires Indexes(order, |values|) && from <= upto <= |values|
    ensures |r| == |values|
  {
    if from == upto then values else Cut(values, order, from, upto - 1)[order[upto - 1] := NULL]
  }

  lemma {:induction false} CutFront(values: seq<int>, order: seq<nat>, from: nat, upto: nat)
    requires Indexes(order, |values|) && from < upto <= |values|
    ensures Cut(values, order, from, upto) == Cut(values, order, from + 1, upto)[order[from] := NULL]
    decreases upto
  {
    if upto > from + 1 {
      CutFront(values, order, from, upto - 1);
      var a, b := order[from], order[upto - 1];
      var rest := Cut(values, order, from + 1, upto - 1);
      assert rest[a := NULL][b := NULL] == rest[b := NULL][a := NULL];
    }
  }

  lemma CutMore(values: seq<int>, order: seq<nat>, from: nat, upto: nat)
    requires Indexes(order, |values|) && from <= upto < |values|
    ensures Cut(values, order, from, upto + 1) == Cut(values, order, from, upto)[order[upto] := NULL]
  {
  }

  // ---------------------------------------------------------------- moving the tail back

  lemma FurtherBehind(newest: nat, h: Header, n: nat)
    requires h.Valid() && |h.index| == n && newest < n
    ensures Behind(newest, h.Previous(), n) == (if Behind(newest, h.tail, n) == n - 1 then 0 else Behind(newest, h.tail, n) + 1)
  {
  }

  lemma SamePlace(newest: nat, p: nat, q: nat, n: nat)
    requires newest < n && p < n && q < n && Behind(newest, p, n) == Behind(newest, q, n)
    ensures p == q
  {
  }

  lemma AtDistance(h: Header, p: nat)
    requires h.Valid() && p < |h.index|
    ensures h.index[p] == h.Order()[|h.index| - 1 - Behind(h.tail, p, |h.index|)]
  {
  }

  /** With the tail moved back `i` places, the lookup of the `i`th block to undo still ends at its entry. */
  lemma UndoFinds(s: State, tail: nat, k: int, i: nat, m: nat)
    requires Structure(s) && i < m <= s.live && tail < |s.keys| && k == s.next - m + i
    requires Behind(Current(s).tail, tail, |s.keys|) == i
    ensures Current(s).Valid() && |Current(s).index| == |s.keys| && Current(s).index[tail] < |s.keys|
    ensures var h := Current(s);
            var place := LookUp(tail, s.width.Base(k), KeyWord(s.keys[h.index[tail]], s.width), |h.index|, s.width);
            h.index[place] == Order(s)[|s.keys| - m + i]
  {
    hide Distinct, Filled, ProducerOk, Behind;
    CurrentValid(s);
    RunBounds(s);
    var h, n := Current(s), |s.keys|;
    AtDistance(h, tail);
    assert s.keys[Order(s)[n - 1 - i]] == s.next - 1 - i;
    var place := PlaceOf(h, n - m + i);
    assert HeaderOk(h, s.bits + |s.headers| - 1, n);
    LookUpFindsFrom(h.tail, tail, place, k, s.next - 1 - i, s.bits + |s.headers| - 1, s.width);
  }

  ghost predicate CanUndo(s: State, values: seq<int>, m: nat) {
    Structure(s) && s.producer.Quiet? && |values| == |s.keys| && s.full == Full(values) && m <= s.next - s.published
  }

  ghost function StateBlocks(s: State, values: seq<int>): map<int, int>
    requires Structure(s) && |values| == |s.keys|
  {
    RunBounds(s);
    Leases(Order(s), values, s.next, s.live)
  }

  /** The block numbers below a bound. */
  ghost function Below(leases: map<int, int>, bound: int): map<int, int> {
    map k | k in leases && k < bound :: leases[k]
  }

  /** `s'` is `s` without its newest `m` insertions. */
  ghost predicate Undone(s: State, values: seq<int>, m: nat, s': State)
    requires Structure(s) && |values| == |s.keys| && m <= s.live <= |s.keys|
  {
    var n := |s.keys|;
    var cut := Cut(values, Order(s), n - m, n);
    && Structure(s') && s'.keys == s.keys && |s'.headers| == |s.headers|
    && s' == s.(headers := s'.headers, full := Full(cut), next := s.next - m, rewound := s.rewound + m, live := s.live - m)
    && s'.headers == SetCurrent(s, Current(s')) && Current(s').index == Current(s).index
    && Distance(s, Current(s').tail) == (if m == n then 0 else m)
    && Leases(Order(s'), cut, s'.next, s'.live) == Below(Leases(Order(s), values, s.next, s.live), s'.next)
  }

  /** How far back from the tail of `s` a place is. */
  ghost function Distance(s: State, p: nat): int
    requires Structure(s)
  {
    CurrentValid(s);
    if p < |s.keys| then Behind(Current(s).tail, p, |s.keys|) else -1
  }

  lemma NothingUndone(s: State, values: seq<int>)
    requires Structure(s) && |values| == |s.keys| && 0 <= s.live <= |s.keys| && s.full == Full(values)
    ensures Undone(s, values, 0, s)
  {
    CurrentValid(s);
    hide Structure, Order;
  }

  /** Where the tail has moved back to. */
  lemma NewestLeft(s: State, values: seq<int>, m: nat, s1: State)
    requires Structure(s) && |values| == |s.keys| && m < s.live <= |s.keys| && Undone(s, values, m, s1)
    ensures Order(s1)[|s.keys| - 1] == Order(s)[|s.keys| - 1 - m]
    ensures |s.headers| > 0 && Current(s1).Valid() && Current(s1).Previous() < |s.keys|
    ensures Distance(s, Current(s1).Previous()) == if m + 1 == |s.keys| then 0 else m + 1
  {
    hide Shape, Distinct, Keyed, Filled, ProducerOk, Leases, Cut, Behind, Order;
    CurrentValid(s);
    CurrentValid(s1);
    SameIndexLast(Current(s), Current(s1));
    FurtherBehind(Current(s).tail, Current(s1), |s.keys|);
  }

  lemma SameIndexLast(h: Header, h1: Header)
    requires h.Valid() && h1.Valid() && h1.index == h.index
    ensures h1.Order()[|h.index| - 1] == h.Order()[|h.index| - 1 - Behind(h.tail, h1.tail, |h.index|)]
  {
    hide Behind;
    AtDistance(h, h1.tail);
  }

  lemma OneMoreUndone(s: State, values: seq<int>, m: nat, s1: State)
    requires Structure(s) && s.producer.Quiet? && |values| == |s.keys| && m < s.live <= |s.keys| && m < s.next - s.published
    requires Undone(s, values, m, s1)
    ensures Undone(s, values, m + 1, Step(s1, Rewind))
  {
    hide Shape, Distinct, Keyed, Filled, ProducerOk, Leases, Cut, Distance, Order, Live;
    var n, order := |s.keys|, Order(s);
    NewestLeft(s, values, m, s1);
    var cut1 := Cut(values, order, n - m, n);
    CutFront(values, order, n - m - 1, n);
    RewindStructure(s1);
    LeasesBack(Order(s1), cut1, s1.next, s1.live);
  }

  /** Taking the newest `m` insertions back one by one. */
  lemma {:induction false} RewindMany(s: State, values: seq<int>, m: nat) returns (s': State)
    requires Structure(s) && s.producer.Quiet? && |values| == |s.keys| && s.full == Full(values) && m <= s.next - s.published
    ensures m <= s.live <= |s.keys| && Undone(s, values, m, s')
  {
    hide Undone;
    RunBounds(s);
    if m == 0 {
      s' := s;
      NothingUndone(s, values);
    } else {
      var s1 := RewindMany(s, values, m - 1);
      s' := Rewound(s, values, m - 1, s1);
    }
  }

  lemma Rewound(s: State, values: seq<int>, m: nat, s1: State) returns (s': State)
    requires Structure(s) && s.producer.Quiet? && |values| == |s.keys| && m < s.live <= |s.keys| && m < s.next - s.published
    requires Undone(s, values, m, s1)
    ensures Undone(s, values, m + 1, s')
  {
    assert Enabled(s1, Rewind);
    s' := Step(s1, Rewind);
    OneMoreUndone(s, values, m, s1);
  }

  lemma RewindFacts(s: State, values: seq<int>)
    requires Structure(s) && |values| == |s.keys| && s.full == Full(values)
    requires s.producer.TailStored? || (s.producer.Quiet? && s.next > s.published)
    ensures |s.headers| > 0 && Current(s).Valid() && Current(s).index[Current(s).tail] < |values| && 0 < s.live <= |values|
    ensures var e := Current(s).index[Current(s).tail];
            var s' := Step(s, Rewind);
            && Structure(s') && |s'.keys| == |values|
            && s' == s.(headers := SetCurrent(s, Current(s).Retreated()), full := Full(values[e := NULL]), next := s.next - 1,
                        rewound := s.rewound + 1, live := s.live - 1, producer := Quiet)
            && Leases(Order(s'), values[e := NULL], s'.next, s'.live) == Leases(Order(s), values, s.next, s.live) - {s.next - 1}
  {
    hide Keyed, Filled, ProducerOk, HeaderOk, Leases;
    CurrentValid(s);
    RunBounds(s);
    if s.producer.TailStored? { NewestExists(s); }
    RewindStructure(s);
    LeasesBack(Order(s), values, s.next, s.live);
  }

  // ---------------------------------------------------------------- the program

  class BlockIndexTable {
    const width: Width
    const bits: nat
    /** The newest header last, each linked to the one before it. */
    var headers: seq<Header>
    /** The entries: the key, a word, and the block. */
    var words: seq<nat>
    var values: seq<int>
    /** The numbers of the blocks whose bases the keys are. */
    ghost var keys: seq<int>
    ghost var next: int
    ghost var published: int
    ghost var rewound: int
    ghost var live: int
    ghost var producer: Producer

    ghost predicate Sized()
      reads `words, `keys, `values
    {
      width.Valid() && |keys| == |values| == |words| && AreWords(words, keys, width)
    }

    ghost function View(): State
      reads this
      requires Sized()
    {
      State(width, bits, headers, keys, Full(values), next, published, producer, [], rewound, live)
    }

    ghost predicate Valid()
      reads this
    {
      Sized() && Structure(View())
    }

    /** The block of each block number that has one. */
    ghost function Blocks(): map<int, int>
      reads this
      requires Valid()
    {
      RunBounds(View());
      Leases(Order(View()), values, next, live)
    }

    /** How many entries can be used before one in use is met. */
    ghost function VacantEntries(): (v: nat)
      reads this
      requires Valid()
    {
      Vacant(Order(View()), values)
    }

    /** The same, apart from the entry that the last insertion took. */
    ghost function VacantOthers(): (v: nat)
      reads this
      requires Valid()
    {
      Vacant(Order(View())[..|keys| - 1], values)
    }

    /** An index that cannot hold another block has one for every block number the range of indices goes through. */
    lemma FullAtLargest()
      requires Valid() && VacantEntries() == 0 && bits + |headers| > width.blocksBits
      ensures |values| == width.Blocks() && next - |values| in Blocks()
    {
      var s := View();
      assert HeaderOk(Current(s), bits + |headers| - 1, |keys|);
      assert s.full[Order(s)[0]];
      assert live == |values|;
      assert Held(Order(s), values, next, next - |values|) == values[Order(s)[0]];
      hide HeaderOk, Distinct, Keyed, ProducerOk;
    }

    lemma HasEntries()
      requires Valid()
      ensures |values| >= 1
    {
    }

    lemma BlocksEntered()
      requires Valid()
      ensures forall k | k in Blocks() :: k < next
    {
    }

    constructor (width: Width, bits: nat)
      requires width.Valid() && bits <= width.blocksBits
      ensures Valid() && Blocks() == map[] && next == published == 0 && producer == Quiet
      ensures this.width == width && this.bits == bits
    {
      this.width, this.bits := width, bits;
      var n := Pow2(bits);
      headers := [Header(n - 1, NewOnes(0, n))];
      words, values := seq(n, _ => INVALID_BLOCK_BASE), seq(n, _ => NULL);
      keys := seq(n, _ => INVALID);
      next, published, rewound, live, producer := 0, 0, 0, 0, Quiet;
      new;
      StartInv(width, bits, 0);
      assert View() == Start(width, bits, 0);
    }

    /** Copies the entries, oldest first, into an index twice as large, and adds as many new ones. */
    method NewBlockIndex(memory: bool) returns (ok: bool)
      requires Valid() && producer == Quiet && View().full[Order(View())[0]]
      modifies this
      ensures ok == (memory && bits + old(|headers|) <= width.blocksBits)
      ensures Valid() && Blocks() == old(Blocks())
      ensures next == old(next) && published == old(published) && producer == Quiet
      ensures ok ==> keys[Order(View())[0]] == INVALID && values[Order(View())[0]] == NULL
      ensures ok ==> |headers| == old(|headers|) + 1 && |values| == 2 * old(|values|) && VacantEntries() == old(|values|)
    {
      if !memory || bits + |headers| > width.blocksBits {
        return false;
      }
      hide Distinct, Keyed, Filled, ProducerOk, HeaderOk, Grown;
      ghost var was := View();
      CurrentValid(was);
      var prev := headers[|headers| - 1];
      var capacity := |prev.index|;
      var index := new nat[2 * capacity];
      FillIndex(prev, index);
      headers := headers + [Header(capacity - 1, index[..])];
      words, values := words + seq(capacity, _ => INVALID_BLOCK_BASE), values + seq(capacity, _ => NULL);
      keys := keys + seq(capacity, _ => INVALID);
      assert View() == Step(was, Grow) by { assert Full(values) == was.full + seq(capacity, _ => false); }
      GrowStructure(was);
      LeasesGrown(Order(was), old(values), next, live);
      VacantGrown(Order(was), old(values));
      ok := true;
    }

    /** Its two loops: the old entries from the one after the tail round to the tail, then the new ones. */
    static method FillIndex(prev: Header, index: array<nat>)
      requires prev.Valid() && index.Length == 2 * |prev.index|
      modifies index
      ensures index[..] == Grown(prev, |prev.index|).index
    {
      CopyOrder(prev, index);
      var n, i := |prev.index|, 0;
      while i != n
        invariant 0 <= i <= n
        invariant index[..n + i] == prev.Order() + NewOnes(n, i)
      {
        index[n + i] := n + i;
        i := i + 1;
      }
      assert index[..n + n] == index[..];
    }

    static method CopyOrder(prev: Header, index: array<nat>)
      requires prev.Valid() && index.Length == 2 * |prev.index|
      modifies index
      ensures index[..|prev.index|] == prev.Order()
    {
      hide Behind;
      var prevPos, i := prev.tail, 0;
      var again := true;
      while again
        invariant 0 <= i <= |prev.index| && prevPos < |prev.index|
        invariant index[..i] == prev.Order()[..i]
        invariant again ==> i < |prev.index| && prevPos == (if i == 0 then prev.tail else PlaceOf(prev, i - 1))
        invariant !again ==> i == |prev.index|
        decreases |prev.index| - i, again
      {
        prevPos := if prevPos + 1 == |prev.index| then 0 else prevPos + 1;
        assert prevPos == PlaceOf(prev, i);
        index[i] := prev.index[prevPos];
        i := i + 1;
        again := prevPos != prev.tail;
      }
      assert prev.Order()[..|prev.index|] == prev.Order();
    }

    /** The entry that the next insertion takes. */
    method Candidate() returns (e: nat, newTail: nat)
      requires Valid()
      ensures e == Order(View())[0] && e < |keys| && newTail == Current(View()).Next()
    {
      CurrentValid(View());
      var localBlockIndex := headers[|headers| - 1];
      newTail := localBlockIndex.Next();
      e := localBlockIndex.index[newTail];
    }

    /** `idxEntry->key.store(blockStartIndex)` */
    method StoreEntryKey(e: nat, base: nat)
      requires Valid() && producer == Quiet && base == width.Base(next) && e == Order(View())[0] && values[e] == NULL
      modifies this`words, this`keys, this`live, this`rewound, this`producer
      ensures Valid() && Blocks() == old(Blocks()) && Order(View()) == old(Order(View()))
      ensures producer == KeyStored && Current(View()) == old(Current(View()))
    {
      hide Distinct, Keyed, Filled, ProducerOk, HeaderOk, Leases, AreWords, Width.Base, Order;
      ghost var was := View();
      RunBounds(was);
      if rewound == 0 && live == |keys| { LeasesDrop(Order(was), values, next); }
      StoredWord(words, keys, width, e, next);
      words := words[e := base];
      keys := keys[e := next];
      live, rewound, producer := if rewound == 0 && live == |keys| then live - 1 else live, if rewound == 0 then 1 else rewound, KeyStored;
      assert View() == Step(was, StoreKey);
      StoreKeyStructure(was);
    }

    /** `localBlockIndex->tail.store(newTail)` */
    method StoreEntryTail(e: nat, newTail: nat)
      requires Valid() && producer == KeyStored && e == Order(View())[0] && newTail == Current(View()).Next()
      modifies this`headers, this`next, this`live, this`rewound, this`producer
      ensures Valid() && Blocks() == old(Blocks())
      ensures next == old(next) + 1 && producer == TailStored && e == Order(View())[|keys| - 1]
      ensures VacantOthers() == old(Vacant(Order(View())[1..], values)) && |headers| == old(|headers|)
    {
      hide Distinct, Keyed, Filled, HeaderOk, Leases, AreWords, Vacant;
      ghost var was := View();
      CurrentValid(was);
      RunBounds(was);
      LeasesAhead(Order(was), values, next, live);
      var last := |headers| - 1;
      headers := headers[last := headers[last].(tail := newTail)];
      next, rewound, live, producer := next + 1, rewound - 1, live + 1, TailStored;
      assert View() == Step(was, StoreTail);
      StoreTailStructure(was);
    }

    /** What the test on the oldest entry finds. */
    lemma FirstEntry(e: nat)
      requires Valid() && e == Order(View())[0]
      ensures e < |words| == |values| == |keys| && (words[e] == INVALID_BLOCK_BASE <==> keys[e] == INVALID)
      ensures View().full[e] == (values[e] != NULL) && (values[e] == NULL <==> VacantEntries() > 0)
      ensures words[e] == INVALID_BLOCK_BASE ==> values[e] == NULL
    {
      InvalidIsEmpty(View(), e);
      InvalidShows(words, keys, width, e);
    }

    /** Takes entry `e` for the block that starts at `base`. */
    method StoreEntry(e: nat, newTail: nat, base: nat)
      requires Valid() && producer == Quiet && base == width.Base(next) && e == Order(View())[0] && values[e] == NULL
      requires newTail == Current(View()).Next()
      modifies this
      ensures Valid() && Blocks() == old(Blocks()) && published == old(published)
      ensures next == old(next) + 1 && producer == TailStored && e == Order(View())[|keys| - 1]
      ensures VacantOthers() == old(VacantEntries()) - 1 && |headers| == old(|headers|) && |values| == old(|values|)
    {
      hide Structure, AreWords, Leases, Width.Base;
      StoreEntryKey(e, base);
      StoreEntryTail(e, newTail);
    }

    /** For the block that starts at `base`; `memory` says whether an allocation succeeds. */
    method InsertBlockIndexEntry(base: nat, memory: bool) returns (ok: bool, e: nat)
      requires Valid() && producer == Quiet && base == width.Base(next)
      modifies this
      ensures Valid() && Blocks() == old(Blocks()) && published == old(published)
      ensures ok <==> old(VacantEntries()) > 0 || (memory && bits + old(|headers|) <= width.blocksBits)
      ensures !ok ==> next == old(next) && producer == Quiet
      ensures ok ==> next == old(next) + 1 && producer == TailStored && e == Order(View())[|keys| - 1]
      ensures ok ==> VacantOthers() == (if old(VacantEntries()) > 0 then old(VacantEntries()) else old(|values|)) - 1
      ensures ok ==> |values| == old(|values|) * (if old(VacantEntries()) > 0 then 1 else 2)
      ensures ok ==> |headers| == old(|headers|) + (if old(VacantEntries()) > 0 then 0 else 1)
    {
      hide Structure, Leases, AreWords, Vacant, Width.Base;
      var newTail;
      e, newTail := Candidate();
      FirstEntry(e);
      if words[e] == INVALID_BLOCK_BASE || values[e] == NULL {
        StoreEntry(e, newTail, base);
        return true, e;
      }
      var grown := NewBlockIndex(memory);
      if !grown {
        return false, e;
      }
      e, newTail := Candidate();
      FirstEntry(e);
      assert words[e] == INVALID_BLOCK_BASE;
      StoreEntry(e, newTail, base);
      ok := true;
    }

    /** `idxEntry->value.store(newBlock)` */
    method SetValue(e: nat, block: nat)
      requires Valid() && producer == TailStored && e == Order(View())[|keys| - 1]
      modifies this
      ensures Valid() && Blocks() == old(Blocks())[next - 1 := block]
      ensures next == old(next) && published == old(published) && producer == Quiet
      ensures VacantEntries() == old(VacantOthers()) && |headers| == old(|headers|) && |values| == old(|values|)
    {
      hide Keyed, Filled, ProducerOk, HeaderOk, Leases, AreWords, Vacant;
      ghost var was := View();
      RunBounds(was);
      NewestExists(was);
      LeasesSet(Order(was), values, next, live, block);
      VacantLast(Order(was), values, block);
      values := values[e := block];
      producer := Quiet;
      assert Full(values) == was.full[e := true];
      StoreValueStructure(was);
    }

    /** Takes the newest insertion back: the tail, and the entry's value. */
    method RewindBlockIndexTail()
      requires Valid() && (producer == TailStored || (producer == Quiet && next > published))
      modifies this
      ensures Valid() && Blocks() == old(Blocks()) - {old(next) - 1}
      ensures next == old(next) - 1 && published == old(published) && producer == Quiet
    {
      hide Distinct, Keyed, Filled, ProducerOk, HeaderOk, Order, Leases, AreWords, Full;
      ghost var s := View();
      RewindFacts(s, values);
      var last := |headers| - 1;
      var e := headers[last].index[headers[last].tail];
      headers := headers[last := headers[last].(tail := headers[last].Previous())];
      values := values[e := NULL];
      next, rewound, live, producer := next - 1, rewound + 1, live - 1, Quiet;
      assert View() == Step(s, Rewind);
    }

    /** Half-way through: the values of the oldest `i` of the `m` insertions are gone and the tail has moved
        back `i` places. */
    ghost predicate Undoing(was: State, wasValues: seq<int>, i: nat, m: nat)
      reads `headers, `words, `keys, `values
    {
      && Structure(was) && |wasValues| == |was.keys| && i <= m <= was.live <= |was.keys| && |headers| == |was.headers| > 0
      && width == was.width && keys == was.keys && Sized()
      && var n := |was.keys|;
         var h := headers[|headers| - 1];
         && values == Cut(wasValues, Order(was), n - m, n - m + i)
         && headers == SetCurrent(was, h) && h.Valid() && h.index == Current(was).index
         && Distance(was, h.tail) == (if i == n then 0 else i)
    }

    /** Nothing but the tail and the values has changed. */
    ghost predicate Kept(was: State)
      reads `next, `published, `rewound, `live, `producer
    {
      && next == was.next && published == was.published && rewound == was.rewound && live == was.live
      && producer == was.producer && bits == was.bits && was.readers == []
    }

    lemma StartUndoing(m: nat)
      requires Valid() && producer == Quiet && m <= next - published
      ensures Sized() && Undoing(View(), values, 0, m) && CanUndo(View(), values, m) && Kept(View())
      ensures StateBlocks(View(), values) == Blocks() && View().next == next && View().published == published
    {
      ghost var was := View();
      RunBounds(was);
      CurrentValid(was);
      hide Distinct, Keyed, Filled, ProducerOk, HeaderOk, Order, Cut, Behind, AreWords;
    }

    lemma AllUndone(was: State, wasValues: seq<int>, m: nat, undone: State)
      requires Undoing(was, wasValues, m, m) && Undone(was, wasValues, m, undone)
      ensures Structure(undone) && |undone.keys| == |values|
      ensures undone == was.(headers := headers, full := Full(values), next := was.next - m, rewound := was.rewound + m, live := was.live - m)
      ensures 0 <= undone.live <= |values|
      ensures Leases(Order(undone), values, undone.next, undone.live) == Below(Leases(Order(was), wasValues, was.next, was.live), undone.next)
    {
      CurrentValid(was);
      CurrentValid(undone);
      SamePlace(Current(was).tail, headers[|headers| - 1].tail, Current(undone).tail, |keys|);
      hide Shape, Distinct, Keyed, Filled, ProducerOk, HeaderOk, Order, Cut, Leases, Behind, AreWords, Below, Full;
    }

    lemma UndoingFacts(was: State, wasValues: seq<int>, m: nat)
      requires Undoing(was, wasValues, m, m)
      ensures Structure(was) && |wasValues| == |was.keys| && Sized() && keys == was.keys && width == was.width
    {
    }

    method UndoOne(ghost was: State, ghost wasValues: seq<int>, ghost i: nat, ghost m: nat, base: nat)
      requires Undoing(was, wasValues, i, m) && i < m && base == width.Base(was.next - m + i)
      modifies this`headers, this`values
      ensures Undoing(was, wasValues, i + 1, m)
    {
      hide Distinct, Keyed, Filled, ProducerOk, HeaderOk, Order, Cut, Behind, LookUp, KeyWord;
      RunBounds(was);
      CurrentValid(was);
      var last := |headers| - 1;
      var h := headers[last];
      UndoFinds(was, h.tail, was.next - m + i, i, m);
      var tailBase := words[h.index[h.tail]];
      var place := LookUp(h.tail, base, tailBase, |h.index|, width);
      var e := h.index[place];
      values := values[e := NULL];
      CutMore(wasValues, Order(was), |keys| - m, |keys| - m + i);
      FurtherBehind(Current(was).tail, h, |keys|);
      headers := headers[last := h.(tail := h.Previous())];
    }

    /** All `m` insertions are undone. */
    ghost method FinishUndoing(was: State, wasValues: seq<int>, m: nat)
      requires Undoing(was, wasValues, m, m) && CanUndo(was, wasValues, m) && Kept(was)
      modifies this`next, this`rewound, this`live
      ensures Valid() && next == was.next - m
      ensures Blocks() == Below(StateBlocks(was, wasValues), next)
    {
      hide Distinct, Keyed, Filled, ProducerOk, HeaderOk, Order, Leases, Undone, Undoing, Full, AreWords;
      UndoingFacts(was, wasValues, m);
      var undone := RewindMany(was, wasValues, m);
      AllUndone(was, wasValues, m, undone);
      next, rewound, live := next - m, rewound + m, live - m;
      assert View() == undone;
    }

    /** `get_block_index_entry_for_index`, for the base of block number `k`. */
    method EntryForIndex(base: nat, ghost k: int) returns (e: nat)
      requires Valid() && k in Blocks() && base == width.Base(k)
      ensures e < |values| && values[e] == Blocks()[k] && keys[e] == k
    {
      ghost var s := View();
      RunBounds(s);
      EntryPlace(s, k);
      hide Shape, Distinct, Keyed, Filled, ProducerOk, KeyWord, LookUp, Order, Width.Base;
      var localBlockIndex := headers[|headers| - 1];
      var tail := localBlockIndex.tail;
      var tailBase := words[localBlockIndex.index[tail]];
      var place := LookUp(tail, base, tailBase, |localBlockIndex.index|, width);
      e := localBlockIndex.index[place];
    }

    /** The tail index has moved past everything entered. */
    ghost method Publish()
      requires Valid() && producer == Quiet
      modifies this`published
      ensures Valid() && Blocks() == old(Blocks()) && published == next
    {
      hide Distinct, Keyed, Filled, HeaderOk, Leases;
      ghost var was := View();
      PublishStructure(was);
      published := next;
      assert View() == Step(was, BlockLookup.Publish);
    }
  }

  lemma StoredWord(words: seq<nat>, keys: seq<int>, width: Width, e: nat, k: int)
    requires width.Valid() && |words| == |keys| && AreWords(words, keys, width) && e < |keys| && k >= 0
    ensures AreWords(words[e := width.Base(k)], keys[e := k], width)
  {
  }

  lemma InvalidShows(words: seq<nat>, keys: seq<int>, width: Width, e: nat)
    requires width.Valid() && |words| == |keys| && AreWords(words, keys, width) && e < |keys|
    ensures words[e] == INVALID_BLOCK_BASE <==> keys[e] == INVALID
  {
    BaseAligned(keys[e], width);
  }

  lemma InvalidIsEmpty(s: State, e: nat)
    requires Structure(s) && e == Order(s)[0]
    ensures s.keys[e] == INVALID ==> !s.full[e]
  {
    hide HeaderOk, Distinct;
  }

  lemma NewestExists(s: State)
    requires Structure(s) && s.producer.TailStored?
    ensures s.live > 0
  {
    hide HeaderOk, Distinct;
  }

  /** In the current header the lookup of a block of the run ends at its entry. */
  lemma EntryPlace(s: State, k: int)
    requires Structure(s) && s.next - s.live <= k < s.next
    ensures |s.headers| > 0 && Current(s).Valid() && |Current(s).index| == |s.keys| && Current(s).index[Current(s).tail] < |s.keys|
    ensures 0 <= k && 0 <= Position(s, k) < |s.keys| && s.keys[Order(s)[Position(s, k)]] == k
    ensures var h := Current(s);
            var tailBase := KeyWord(s.keys[h.index[h.tail]], s.width);
            h.index[LookUp(h.tail, s.width.Base(k), tailBase, |h.index|, s.width)] == Order(s)[Position(s, k)]
  {
    CurrentValid(s);
    NewestIs(s, k);
    var h := Current(s);
    assert HeaderOk(h, s.bits + |s.headers| - 1, |s.keys|);
    LookUpFinds(h.tail, PlaceOf(h, Position(s, k)), k, s.next - 1, s.bits + |s.headers| - 1, s.width);
    hide Distinct, Keyed, Filled, ProducerOk, LookUp, Width.Base;
  }

  lemma NewestIs(s: State, k: int)
    requires Structure(s) && s.next - s.live <= k < s.next
    ensures 0 <= k && 0 <= Position(s, k) < |s.keys| && s.keys[Order(s)[Position(s, k)]] == k
    ensures s.keys[Order(s)[|s.keys| - 1]] == s.next - 1
  {
    hide HeaderOk, Distinct, Filled;
  }
}
