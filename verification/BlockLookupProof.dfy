/** Every step keeps the invariant of `BlockLookup`, so every lookup finds its block. */
module BlockLookupProof {
  import opened BlockIndex
  import opened BlockLookup
  import opened PowersOfTwo

  // ---------------------------------------------------------------- shape

  lemma TailShape(s: State, h: Header)
    requires Shape(s) && h.Valid() && h.index == Current(s).index
    ensures Shape(s.(headers := SetCurrent(s, h)))
  {
    var last := |s.headers| - 1;
    assert HeaderOk(s.headers[last], s.bits + last, |s.keys|);
    var s' := s.(headers := SetCurrent(s, h));
    forall i | 0 <= i < |s'.headers| ensures HeaderOk(s'.headers[i], s.bits + i, |s.keys|) {
      assert HeaderOk(s.headers[i], s.bits + i, |s.keys|);
    }
  }

  lemma GrownOk(h: Header, bits: nat, entries: nat)
    requires HeaderOk(h, bits, entries) && |h.index| == entries
    ensures HeaderOk(Grown(h, entries), bits + 1, 2 * entries)
  {
  }

  lemma GrowShape(s: State)
    requires Shape(s) && Enabled(s, Grow)
    ensures Shape(Step(s, Grow)) && Order(Step(s, Grow)) == NewOnes(|s.keys|, |s.keys|) + Order(s)
  {
    hide Live, Grown;
    var n, last, s' := |s.keys|, |s.headers| - 1, Step(s, Grow);
    CurrentValid(s);
    GrownOrder(Current(s), n);
    GrownOk(Current(s), s.bits + last, n);
    GrownSize(Current(s), n);
    forall i | 0 <= i < |s'.headers| ensures HeaderOk(s'.headers[i], s.bits + i, |s'.keys|) {
      if i <= last { assert HeaderOk(s.headers[i], s.bits + i, n); }
    }
  }

  lemma GrownSize(h: Header, from: nat)
    requires h.Valid()
    ensures |Grown(h, from).index| == 2 * |h.index|
  {
  }

  lemma CurrentValid(s: State)
    requires Shape(s)
    ensures |s.headers| > 0 && Current(s).Valid() && |Current(s).index| == |s.keys| && Order(s) == Current(s).Order()
  {
    assert HeaderOk(Current(s), s.bits + |s.headers| - 1, |s.keys|);
  }

  lemma StepShape(s: State, m: Move)
    requires Shape(s) && Enabled(s, m)
    ensures Shape(Step(s, m))
  {
    hide HeaderOk, Enabled, Live;
    CurrentValid(s);
    match m
    case Grow => GrowShape(s);
    case StoreTail => TailShape(s, Current(s).Advanced());
    case Rewind => TailShape(s, Current(s).Retreated());
    case _ =>
  }

  // ---------------------------------------------------------------- rotations

  function Ahead(order: seq<nat>): (r: seq<nat>)
    requires |order| > 0
    ensures |r| == |order| && r[|r| - 1] == order[0] && forall j | 0 <= j < |r| - 1 :: r[j] == order[j + 1]
  {
    order[1..] + [order[0]]
  }

  function Back(order: seq<nat>): (r: seq<nat>)
    requires |order| > 0
    ensures |r| == |order| && r[0] == order[|r| - 1] && forall j | 0 < j < |r| :: r[j] == order[j - 1]
  {
    [order[|order| - 1]] + order[..|order| - 1]
  }

  predicate Indexes(order: seq<nat>, n: nat) {
    |order| == n > 0 && forall j | 0 <= j < n :: order[j] < n
  }

  lemma AheadOk(order: seq<nat>, keys: seq<int>, full: seq<bool>, next: int, published: int, rewound: int, live: int)
    requires Indexes(order, |keys|) && |full| == |keys| && rewound > 0 && !full[order[0]]
    requires Distinct(order) && Keyed(order, keys, next, rewound, live) && Filled(order, full, next, published, live, false)
    ensures Indexes(Ahead(order), |keys|) && Distinct(Ahead(order)) && Keyed(Ahead(order), keys, next + 1, rewound - 1, live + 1)
    ensures Filled(Ahead(order), full, next + 1, published, live + 1, true)
  {
    hide Ahead;
  }

  lemma BackOk(order: seq<nat>, keys: seq<int>, full: seq<bool>, next: int, published: int, rewound: int, live: int, written: bool)
    requires Indexes(order, |keys|) && |full| == |keys| && next > published
    requires Distinct(order) && Keyed(order, keys, next, rewound, live) && Filled(order, full, next, published, live, written)
    ensures Indexes(Back(order), |keys|) && Distinct(Back(order)) && Keyed(Back(order), keys, next - 1, rewound + 1, live - 1)
    ensures Filled(Back(order), full[order[|keys| - 1] := false], next - 1, published, live - 1, false)
  {
    hide Back;
  }

  // ---------------------------------------------------------------- the producer's moves

  lemma StoreKeyStructure(s: State)
    requires Structure(s) && Enabled(s, StoreKey)
    ensures Structure(Step(s, StoreKey)) && Order(Step(s, StoreKey)) == Order(s)
  {
    StepShape(s, StoreKey);
    hide HeaderOk;
    var s' := Step(s, StoreKey);
    assert Current(s') == Current(s);
    assert s.next - s.published < |s.keys|;
  }

  lemma StoreTailStructure(s: State)
    requires Structure(s) && Enabled(s, StoreTail)
    ensures Structure(Step(s, StoreTail)) && Order(Step(s, StoreTail)) == Ahead(Order(s))
  {
    hide HeaderOk, Keyed, Filled, Distinct;
    StepShape(s, StoreTail);
    CurrentValid(s);
    CurrentValid(Step(s, StoreTail));
    AdvanceRotates(Current(s));
    AheadOk(Order(s), s.keys, s.full, s.next, s.published, s.rewound, s.live);
    assert s.next >= s.published by { RunBounds(s); }
  }

  lemma RunBounds(s: State)
    requires Structure(s)
    ensures s.published <= s.next <= s.published + s.live && 0 <= s.live <= s.next
    ensures s.live + s.rewound <= |s.keys| && 0 <= s.rewound
  {
    hide HeaderOk, Distinct;
  }

  lemma StoreValueStructure(s: State)
    requires Structure(s) && Enabled(s, StoreValue)
    ensures Structure(Step(s, StoreValue)) && Order(Step(s, StoreValue)) == Order(s)
  {
    StepShape(s, StoreValue);
    hide HeaderOk;
    assert Current(Step(s, StoreValue)) == Current(s);
  }

  lemma RewindOrder(s: State)
    requires Shape(s) && Enabled(s, Rewind)
    ensures Shape(Step(s, Rewind)) && Order(Step(s, Rewind)) == Back(Order(s))
  {
    hide HeaderOk;
    StepShape(s, Rewind);
    CurrentValid(s);
    CurrentValid(Step(s, Rewind));
    RetreatRotates(Current(s));
  }

  lemma RewindStructure(s: State)
    requires Structure(s) && Enabled(s, Rewind)
    ensures Structure(Step(s, Rewind)) && Order(Step(s, Rewind)) == Back(Order(s))
  {
    hide HeaderOk, Keyed, Filled, Distinct, Order;
    RewindOrder(s);
    BackOk(Order(s), s.keys, s.full, s.next, s.published, s.rewound, s.live, s.producer.TailStored?);
  }

  lemma GrowStructure(s: State)
    requires Structure(s) && Enabled(s, Grow)
    ensures Structure(Step(s, Grow)) && Order(Step(s, Grow)) == NewOnes(|s.keys|, |s.keys|) + Order(s)
  {
    GrowShape(s);
    hide HeaderOk, Order, Live;
    NothingTakenBack(s);
  }

  /** The moves of the producer. */
  predicate ByProducer(m: Move) {
    m.StoreKey? || m.StoreTail? || m.StoreValue? || m.Rewind? || m.Grow? || m.Publish?
  }

  lemma ProducerStructure(s: State, m: Move)
    requires Structure(s) && Enabled(s, m) && ByProducer(m)
    ensures Structure(Step(s, m))
  {
    hide Enabled, Step, Structure;
    match m
    case StoreKey => StoreKeyStructure(s);
    case StoreTail => StoreTailStructure(s);
    case StoreValue => StoreValueStructure(s);
    case Rewind => RewindStructure(s);
    case Grow => GrowStructure(s);
    case Publish => PublishStructure(s);
  }

  lemma PublishStructure(s: State)
    requires Structure(s) && Enabled(s, Publish)
    ensures Structure(Step(s, Publish)) && Order(Step(s, Publish)) == Order(s)
  {
    StepShape(s, Publish);
    hide HeaderOk;
    assert Current(Step(s, Publish)) == Current(s);
  }

  // ---------------------------------------------------------------- what a consumer relies on

  /** A live block keeps its entry, whatever the producer does. */
  lemma EntryStays(s: State, m: Move, k: nat)
    requires Structure(s) && Enabled(s, m) && ByProducer(m) && Live(s, k)
    ensures Structure(Step(s, m)) && Live(Step(s, m), k) && EntryOf(Step(s, m), k) == EntryOf(s, k)
  {
    hide HeaderOk, Keyed, Order;
    match m
    case StoreKey => StoreKeyStructure(s);
    case StoreTail => StoreTailStructure(s);
    case StoreValue => StoreValueStructure(s);
    case Rewind => RewindStructure(s); assert Order(s)[Position(s, k)] != Order(s)[|s.keys| - 1];
    case Grow => GrowStructure(s);
    case Publish => PublishStructure(s);
  }

  lemma GuardAhead(order: seq<nat>, rewound: int, live: int, e: nat)
    requires |order| > 0 && rewound > 0 && live >= 0 && Guarded(order, rewound, live, e)
    ensures Guarded(Ahead(order), rewound - 1, live + 1, e)
  {
    var j :| 0 <= j < |order| && order[j] == e && (j < rewound || j >= |order| - live);
    assert Ahead(order)[if j == 0 then |order| - 1 else j - 1] == e;
  }

  lemma GuardBack(order: seq<nat>, rewound: int, live: int, e: nat)
    requires |order| > 0 && rewound >= 0 && Guarded(order, rewound, live, e)
    ensures Guarded(Back(order), rewound + 1, live - 1, e)
  {
    var j :| 0 <= j < |order| && order[j] == e && (j < rewound || j >= |order| - live);
    assert Back(order)[if j == |order| - 1 then 0 else j + 1] == e;
  }

  lemma GuardGrown(front: seq<nat>, order: seq<nat>, live: int, e: nat)
    requires Guarded(order, 0, live, e)
    ensures Guarded(front + order, 0, live, e)
  {
    var j :| 0 <= j < |order| && order[j] == e && j >= |order| - live;
    assert (front + order)[|front| + j] == e;
  }

  /** Storing a key: it is the oldest entry's, and that is either an insertion taken back, with the same key
      already, or older than every live block. */
  lemma GuardStoreKey(s: State, k: nat, e: nat)
    requires Structure(s) && Enabled(s, StoreKey) && Live(s, k)
    requires e < |s.keys| && Guarded(Order(s), s.rewound, s.live, e) && s.keys[e] >= k
    ensures var s' := Step(s, StoreKey);
            Guarded(Order(s), s'.rewound, s'.live, e) && s'.keys[e] == s.keys[e]
  {
    hide HeaderOk, Order, Filled;
    var order := Order(s);
    var j :| 0 <= j < |order| && order[j] == e && (j < s.rewound || j >= |order| - s.live);
    if j > 0 { assert order[0] != order[j]; }
  }

  /** An entry that is in the run at or after a live block, or taken back, keeps its key. */
  lemma GuardStays(s: State, m: Move, k: nat, e: nat)
    requires Structure(s) && Enabled(s, m) && ByProducer(m) && Live(s, k)
    requires e < |s.keys| && Guarded(Order(s), s.rewound, s.live, e) && s.keys[e] >= k
    ensures var s' := Step(s, m);
            && Structure(s') && e < |s'.keys|
            && Guarded(Order(s'), s'.rewound, s'.live, e) && s'.keys[e] == s.keys[e]
  {
    hide HeaderOk, Distinct, Order, Guarded, Filled, Ahead, Back;
    match m
    case StoreKey => StoreKeyStructure(s); GuardStoreKey(s, k, e);
    case StoreTail => StoreTailStructure(s); GuardAhead(Order(s), s.rewound, s.live, e);
    case StoreValue => StoreValueStructure(s);
    case Rewind => RewindStructure(s); GuardBack(Order(s), s.rewound, s.live, e);
    case Grow => GrowStructure(s); NothingTakenBack(s); GuardGrown(NewOnes(|s.keys|, |s.keys|), Order(s), s.live, e);
    case Publish => PublishStructure(s);
  }

  lemma NothingTakenBack(s: State)
    requires Structure(s) && s.full[Order(s)[0]]
    ensures s.rewound == 0 && s.live == |s.keys|
  {
    hide HeaderOk, Distinct;
  }

  // ---------------------------------------------------------------- a consumer while the producer moves

  lemma HeadersStay(s: State, m: Move, h: nat)
    requires Shape(s) && Enabled(s, m) && ByProducer(m) && h < |s.headers|
    ensures h < |Step(s, m).headers| && Step(s, m).headers[h].index == s.headers[h].index
    ensures !(m.StoreTail? || m.Rewind?) || h != |s.headers| - 1 ==> Step(s, m).headers[h] == s.headers[h]
  {
    hide HeaderOk, Live;
  }

  lemma SightStays(s: State, m: Move, k: nat, h: Header, place: nat, t: nat)
    requires Structure(s) && Enabled(s, m) && ByProducer(m) && Live(s, k) && Sighted(s, k, h, place, t)
    ensures Structure(Step(s, m)) && Sighted(Step(s, m), k, h, place, t)
  {
    hide Structure, Step, Enabled, Guarded, Live;
    ProducerStructure(s, m);
    GuardStays(s, m, k, h.index[t]);
  }

  /** What the newest entries of the run are. */
  lemma NewestKeys(s: State, k: nat)
    requires Structure(s) && Live(s, k)
    ensures Current(s).Valid() && |Current(s).index| == |s.keys|
    ensures Current(s).index[Current(s).tail] == Order(s)[|s.keys| - 1] && s.keys[Order(s)[|s.keys| - 1]] == s.next - 1
    ensures Current(s).index[Current(s).Next()] == Order(s)[0] && s.keys[EntryOf(s, k)] == k
    ensures s.live > 0 && s.next > k
  {
    CurrentValid(s);
    hide HeaderOk, Order, Distinct, Filled;
  }

  lemma SightAhead(s: State, k: nat, place: nat)
    requires Structure(s) && Enabled(s, StoreTail) && Live(s, k)
    requires Sighted(s, k, Current(s), place, Current(s).tail) && Current(s).index[place] == EntryOf(s, k)
    ensures Structure(Step(s, StoreTail))
    ensures Sighted(Step(s, StoreTail), k, Current(Step(s, StoreTail)), place, Current(Step(s, StoreTail)).tail)
  {
    hide HeaderOk, Distinct, Filled, Order;
    StoreTailStructure(s);
    NewestKeys(s, k);
    var s', e := Step(s, StoreTail), Order(s)[0];
    assert e != EntryOf(s, k);
    assert Order(s')[|s.keys| - 1] == e;
    assert s.keys[e] == s.next;
  }

  lemma SightBack(s: State, k: nat, place: nat)
    requires Structure(s) && Enabled(s, Rewind) && Live(s, k)
    requires Sighted(s, k, Current(s), place, Current(s).tail) && Current(s).index[place] == EntryOf(s, k)
    ensures Structure(Step(s, Rewind))
    ensures Sighted(Step(s, Rewind), k, Current(Step(s, Rewind)), place, Current(Step(s, Rewind)).tail)
  {
    hide HeaderOk, Distinct, Filled, Order;
    EntryStays(s, Rewind, k);
    NewestKeys(s, k);
    var s' := Step(s, Rewind);
    NewestKeys(s', k);
  }

  /** The blocks a consumer has claimed stay where its header has them. */
  lemma LiesStays(s: State, m: Move, k: nat, last: nat, h: Header, h': Header, place: nat)
    requires Structure(s) && Enabled(s, m) && ByProducer(m) && Lies(s, k, last, h, place) && h'.index == h.index
    ensures Structure(Step(s, m)) && Lies(Step(s, m), k, last, h', place)
  {
    hide Shape, Distinct, Keyed, Filled, ProducerOk, Step, Enabled, Live;
    ProducerStructure(s, m);
    forall j: nat | k <= j <= last
      ensures Live(Step(s, m), j) && h'.index[Around(place, j - k, |h'.index|)] == EntryOf(Step(s, m), j)
    {
      EntryStays(s, m, j);
    }
  }

  lemma AllLiveStays(s: State, m: Move, k: nat, last: nat)
    requires Structure(s) && Enabled(s, m) && ByProducer(m) && AllLive(s, k, last)
    ensures Structure(Step(s, m)) && AllLive(Step(s, m), k, last)
  {
    hide Shape, Distinct, Keyed, Filled, ProducerOk, Step, Enabled, Live;
    ProducerStructure(s, m);
    forall j: nat | k <= j <= last ensures Live(Step(s, m), j) {
      EntryStays(s, m, j);
    }
  }

  /** The first of them. */
  lemma LiesFirst(s: State, k: nat, last: nat, h: Header, place: nat)
    requires Shape(s) && Lies(s, k, last, h, place)
    ensures place < |h.index| && Live(s, k) && h.index[place] == EntryOf(s, k)
  {
    hide Live;
    assert Around(place, k - k, |h.index|) == place;
  }

  lemma ReaderStays(s: State, m: Move, reader: Reader)
    requires Structure(s) && Enabled(s, m) && ByProducer(m) && ReaderOk(s, reader)
    ensures Structure(Step(s, m)) && ReaderOk(Step(s, m), reader)
  {
    hide Shape, Distinct, Keyed, Filled, ProducerOk, Step, Enabled, Sighted, Live, Lies, AllLive;
    ProducerStructure(s, m);
    match reader
    case Claimed(k, last) => AllLiveStays(s, m, k, last);
    case HasHeader(k, last, h, place) =>
      HeadersStay(s, m, h);
      LiesStays(s, m, k, last, s.headers[h], Step(s, m).headers[h], place);
      LiesFirst(s, k, last, s.headers[h], place);
      if (m.StoreTail? || m.Rewind?) && h == |s.headers| - 1 {
        LastStaysLast(s, m);
        if m.StoreTail? { SightAhead(s, k, place); } else { SightBack(s, k, place); }
      } else {
        SightStays(s, m, k, s.headers[h], place, s.headers[h].tail);
      }
    case HasTail(k, last, h, place, t) =>
      HeadersStay(s, m, h);
      LiesStays(s, m, k, last, s.headers[h], Step(s, m).headers[h], place);
      LiesFirst(s, k, last, s.headers[h], place);
      SightStays(s, m, k, s.headers[h], place, t);
      SameSight(Step(s, m), k, s.headers[h], Step(s, m).headers[h], place, t);
    case Found(k, last, h, at, _) =>
      HeadersStay(s, m, h);
      LiesStays(s, m, k, last, s.headers[h], Step(s, m).headers[h], at);
    case _ =>
  }

  lemma LastStaysLast(s: State, m: Move)
    requires Shape(s) && Enabled(s, m) && (m.StoreTail? || m.Rewind?)
    ensures |Step(s, m).headers| == |s.headers| > 0
  {
    hide HeaderOk, Live;
  }

  lemma SameSight(s: State, k: nat, h: Header, h': Header, place: nat, t: nat)
    requires Shape(s) && h.index == h'.index && Sighted(s, k, h, place, t)
    ensures Sighted(s, k, h', place, t)
  {
  }

  // ---------------------------------------------------------------- a consumer's own moves

  lemma SeesTail(s: State, k: nat)
    requires Structure(s) && Live(s, k)
    ensures Current(s).Valid() && |Current(s).index| == |s.keys| && 0 <= Position(s, k) < |s.keys|
    ensures var place := PlaceOf(Current(s), Position(s, k));
            Sighted(s, k, Current(s), place, Current(s).tail) && Current(s).index[place] == EntryOf(s, k)
  {
    hide HeaderOk, Distinct, Order, Filled;
    CurrentValid(s);
    NewestKeys(s, k);
    assert Order(s)[|s.keys| - 1] == Current(s).index[Current(s).tail];
  }

  /** The current header has the live blocks' entries one after the other. */
  lemma SeesBlocks(s: State, k: nat, last: nat)
    requires Structure(s) && AllLive(s, k, last)
    ensures Current(s).Valid() && 0 <= Position(s, k) < |Current(s).index|
    ensures Lies(s, k, last, Current(s), PlaceOf(Current(s), Position(s, k)))
  {
    hide HeaderOk, Distinct, Keyed, Filled;
    SeesTail(s, k);
    assert Live(s, last);
    var h := Current(s);
    var place := PlaceOf(h, Position(s, k));
    forall j: nat | k <= j <= last
      ensures Live(s, j) && h.index[Around(place, j - k, |h.index|)] == EntryOf(s, j)
    {
      assert Around(place, j - k, |h.index|) == PlaceOf(h, Position(s, j));
    }
  }

  /** One block done, the rest lies one place on. */
  lemma LiesOn(s: State, k: nat, last: nat, h: Header, place: nat)
    requires Shape(s) && Lies(s, k, last, h, place) && k < last
    ensures Lies(s, k + 1, last, h, After(place, |h.index|))
  {
    hide Live;
    var next := After(place, |h.index|);
    forall j: nat | k + 1 <= j <= last
      ensures Live(s, j) && h.index[Around(next, j - (k + 1), |h.index|)] == EntryOf(s, j)
    {
      assert Around(next, j - (k + 1), |h.index|) == Around(place, j - k, |h.index|);
    }
  }

  /** The key read is a valid one, and the lookup ends at the place of the consumer's first block. */
  lemma FindsBlock(s: State, r: nat)
    requires Structure(s) && Enabled(s, LoadKey(r)) && ReaderOk(s, s.readers[r])
    ensures var reader := s.readers[r];
            && s.keys[s.headers[reader.header].index[reader.tail]] != INVALID
            && Result(s, r) == reader.place
  {
    hide Distinct, Keyed, Filled, Live, Guarded, Lies;
    var reader := s.readers[r];
    assert HeaderOk(s.headers[reader.header], s.bits + reader.header, |s.keys|);
    hide HeaderOk;
    var h := s.headers[reader.header];
    LookUpFinds(reader.tail, reader.place, reader.block, s.keys[h.index[reader.tail]], s.bits + reader.header, s.width);
  }

  lemma FreeStructure(s: State, k: nat)
    requires Structure(s) && Enabled(s, Free(k))
    ensures Structure(Step(s, Free(k))) && Order(Step(s, Free(k))) == Order(s)
  {
    StepShape(s, Free(k));
    hide HeaderOk, Keyed;
    assert Current(Step(s, Free(k))) == Current(s);
    assert s.producer.KeyStored? ==> Order(s)[0] != EntryOf(s, k);
  }

  lemma FreeEntry(s: State, k: nat, j: nat)
    requires Structure(s) && Enabled(s, Free(k)) && Live(s, j) && j != k
    ensures Structure(Step(s, Free(k))) && Live(Step(s, Free(k)), j) && EntryOf(Step(s, Free(k)), j) == EntryOf(s, j)
  {
    hide HeaderOk, Keyed, Order, Filled;
    FreeStructure(s, k);
    assert Order(s)[Position(s, j)] != Order(s)[Position(s, k)];
  }

  lemma FreeLies(s: State, k: nat, first: nat, last: nat, h: Header, place: nat)
    requires Structure(s) && Enabled(s, Free(k)) && Lies(s, first, last, h, place) && !(first <= k <= last)
    ensures Structure(Step(s, Free(k))) && Lies(Step(s, Free(k)), first, last, h, place)
  {
    hide Shape, Distinct, Keyed, Filled, ProducerOk, Step, Enabled, Live;
    FreeStructure(s, k);
    forall j: nat | first <= j <= last
      ensures Live(Step(s, Free(k)), j) && h.index[Around(place, j - first, |h.index|)] == EntryOf(Step(s, Free(k)), j)
    {
      FreeEntry(s, k, j);
    }
  }

  lemma FreeSight(s: State, k: nat, first: nat, h: Header, place: nat, t: nat)
    requires Structure(s) && Enabled(s, Free(k)) && Sighted(s, first, h, place, t)
    ensures Structure(Step(s, Free(k))) && Sighted(Step(s, Free(k)), first, h, place, t)
  {
    hide HeaderOk, Keyed, Order, Guarded, Filled, Distinct;
    FreeStructure(s, k);
  }

  lemma FreeReader(s: State, k: nat, reader: Reader)
    requires Structure(s) && Enabled(s, Free(k)) && ReaderOk(s, reader) && !Uses(reader, k)
    ensures Structure(Step(s, Free(k))) && ReaderOk(Step(s, Free(k)), reader)
  {
    FreeStructure(s, k);
    FreeHeaders(s, k);
    hide Shape, Distinct, Keyed, Filled, ProducerOk, Step, Enabled, Live, Lies, Sighted;
    match reader
    case Claimed(first, last) =>
      forall j: nat | first <= j <= last ensures Live(Step(s, Free(k)), j) { FreeEntry(s, k, j); }
    case HasHeader(first, last, h, place) =>
      FreeLies(s, k, first, last, s.headers[h], place);
      FreeSight(s, k, first, s.headers[h], place, s.headers[h].tail);
    case HasTail(first, last, h, place, t) =>
      FreeLies(s, k, first, last, s.headers[h], place);
      FreeSight(s, k, first, s.headers[h], place, t);
    case Found(first, last, h, at, _) =>
      FreeLies(s, k, first, last, s.headers[h], at);
    case _ =>
  }

  lemma FreeHeaders(s: State, k: nat)
    requires Shape(s) && Enabled(s, Free(k))
    ensures Step(s, Free(k)).headers == s.headers
  {
    hide HeaderOk, Live;
  }

  /** Only readers move. */
  predicate ByConsumer(m: Move) { !ByProducer(m) && !m.Free? }

  lemma ConsumerFrame(s: State, m: Move)
    requires Shape(s) && Enabled(s, m) && ByConsumer(m)
    ensures var s' := Step(s, m); s' == s.(readers := s'.readers) && |s'.readers| == |s.readers|
  {
    hide HeaderOk, Live;
  }

  lemma ReadersApart(s: State, readers: seq<Reader>, reader: Reader)
    requires Structure(s)
    ensures Structure(s.(readers := readers)) && (ReaderOk(s, reader) <==> ReaderOk(s.(readers := readers), reader))
  {
    hide HeaderOk, Keyed, Distinct, Filled;
    var s' := s.(readers := readers);
    assert Current(s) == Current(s') && Order(s) == Order(s');
    hide Order;
    assert forall j: nat :: Live(s, j) <==> Live(s', j);
    assert forall j: nat | Live(s, j) :: EntryOf(s, j) == EntryOf(s', j);
    hide Live, EntryOf;
    if reader.HasHeader? || reader.HasTail? || reader.Found? {
      if reader.header < |s.headers| {
        var place := if reader.Found? then reader.at else reader.place;
        if Lies(s, reader.block, reader.last, s.headers[reader.header], place) {
          LiesApart(s, s', reader.block, reader.last, s.headers[reader.header], place);
        } else if Lies(s', reader.block, reader.last, s.headers[reader.header], place) {
          LiesApart(s', s, reader.block, reader.last, s.headers[reader.header], place);
        }
      }
    }
    hide Lies;
  }

  lemma LiesApart(s: State, s': State, k: nat, last: nat, h: Header, place: nat)
    requires Shape(s) && Shape(s') && Lies(s, k, last, h, place)
    requires forall j: nat | Live(s, j) :: Live(s', j) && EntryOf(s, j) == EntryOf(s', j)
    ensures Lies(s', k, last, h, place)
  {
    hide Live, EntryOf, Shape;
  }

  /** The consumer that moved. */
  function Moved(s: State, m: Move): Reader
    requires Shape(s) && Enabled(s, m) && ByConsumer(m)
  {
    Step(s, m).readers[m.r]
  }

  lemma MovedOk(s: State, m: Move)
    requires Structure(s) && Enabled(s, m) && ByConsumer(m) && ReaderOk(s, s.readers[m.r])
    ensures ReaderOk(s, Moved(s, m))
  {
    hide Shape, Distinct, Keyed, Filled, ProducerOk, Sighted, Lies, AllLive;
    match m
    case LoadHeader(r) => HeaderLoaded(s, r);
    case LoadKey(r) => FindsBlock(s, r);
    case Next(r) => LiesOn(s, s.readers[r].block, s.readers[r].last, s.headers[s.readers[r].header], s.readers[r].at);
    case _ =>
  }

  lemma HeaderLoaded(s: State, r: nat)
    requires Structure(s) && Enabled(s, LoadHeader(r)) && ReaderOk(s, s.readers[r])
    ensures ReaderOk(s, Moved(s, LoadHeader(r)))
  {
    var Claimed(k, last) := s.readers[r];
    hide Shape, Distinct, Keyed, Filled, ProducerOk, Sighted, Lies, Live;
    SeesTail(s, k);
    SeesBlocks(s, k, last);
  }

  lemma OnlyMoved(s: State, m: Move)
    requires Shape(s) && Enabled(s, m) && ByConsumer(m)
    ensures m.r < |s.readers| && Step(s, m).readers == s.readers[m.r := Moved(s, m)]
  {
    hide HeaderOk, Live;
  }

  lemma ConsumerReader(s: State, m: Move)
    requires Inv(s) && Enabled(s, m) && ByConsumer(m)
    ensures Inv(Step(s, m))
  {
    hide Shape, Distinct, Keyed, Filled, ProducerOk, ReaderOk, Step, Moved, Enabled;
    OnlyMoved(s, m);
    MovedOk(s, m);
    var s' := Step(s, m);
    ConsumerFrame(s, m);
    ReadersApart(s, s'.readers, Idle);
    forall r | 0 <= r < |s'.readers| ensures ReaderOk(s', s'.readers[r]) {
      ReadersApart(s, s'.readers, s'.readers[r]);
    }
  }

  lemma StepKeepsInv(s: State, m: Move)
    requires Inv(s) && Enabled(s, m)
    ensures Inv(Step(s, m))
  {
    hide Shape, Distinct, Keyed, Filled, ProducerOk, ReaderOk, Enabled, Step;
    if ByProducer(m) {
      ProducerStructure(s, m);
      SameReaders(s, m);
      forall r | 0 <= r < |s.readers| ensures ReaderOk(Step(s, m), s.readers[r]) {
        ReaderStays(s, m, s.readers[r]);
      }
    } else if m.Free? {
      FreeStructure(s, m.k);
      SameReaders(s, m);
      forall r | 0 <= r < |s.readers| ensures ReaderOk(Step(s, m), s.readers[r]) {
        FreeReader(s, m.k, s.readers[r]);
      }
    } else {
      ConsumerReader(s, m);
    }
  }

  lemma SameReaders(s: State, m: Move)
    requires Structure(s) && Enabled(s, m) && (ByProducer(m) || m.Free?)
    ensures Step(s, m).readers == s.readers
    ensures m.Free? ==> forall r | 0 <= r < |s.readers| :: !Uses(s.readers[r], m.k)
  {
    hide HeaderOk, Live;
  }

  // ---------------------------------------------------------------- whole runs

  function Exec(s: State, moves: seq<Move>): State
    requires Inv(s)
    ensures Inv(Exec(s, moves))
    decreases |moves|
  {
    if moves == [] then s
    else if Enabled(s, moves[0]) then StepKeepsInv(s, moves[0]); Exec(Step(s, moves[0]), moves[1..])
    else Exec(s, moves[1..])
  }

  lemma StartInv(width: Width, bits: nat, consumers: nat)
    requires width.Valid() && bits <= width.blocksBits
    ensures Inv(Start(width, bits, consumers))
  {
    StartShape(width, bits, consumers);
    StartOrder(width, bits, consumers);
    hide Shape, Order, Pow2;
  }

  lemma StartShape(width: Width, bits: nat, consumers: nat)
    requires width.Valid() && bits <= width.blocksBits
    ensures Shape(Start(width, bits, consumers))
  {
    FirstHeaderOk(bits);
    hide Pow2, NewOnes, Header.Order, Width.Valid, HeaderOk, Header.Valid;
  }

  lemma StartOrder(width: Width, bits: nat, consumers: nat)
    requires width.Valid() && Shape(Start(width, bits, consumers))
    ensures Order(Start(width, bits, consumers)) == NewOnes(0, Pow2(bits))
  {
    var s := Start(width, bits, consumers);
    FirstOrderIs(Pow2(bits));
    assert Current(s) == Header(Pow2(bits) - 1, NewOnes(0, Pow2(bits)));
    hide Pow2, NewOnes, Header.Order, Width.Valid, HeaderOk, Start, Shape, Current;
  }

  lemma FirstHeaderOk(bits: nat)
    ensures var n := Pow2(bits); HeaderOk(Header(n - 1, NewOnes(0, n)), bits, n)
  {
    hide Pow2;
  }

  lemma FirstOrderIs(n: nat)
    requires n >= 1
    ensures var h := Header(n - 1, NewOnes(0, n)); h.Valid() && h.Order() == NewOnes(0, n)
  {
    var h := Header(n - 1, NewOnes(0, n));
    assert h.index[n..] == [] && h.index[..n] == h.index;
  }

  function Run(width: Width, bits: nat, consumers: nat, moves: seq<Move>): (s: State)
    requires width.Valid() && bits <= width.blocksBits
    ensures Inv(s)
  {
    StartInv(width, bits, consumers);
    Exec(Start(width, bits, consumers), moves)
  }

  /** However a producer's inserting, taking back and growing interleaves with the loads of any number of
      consumers, the entry a consumer has arrived at, by a lookup or by going on from one in a header that may
      have been replaced since, has the base of the consumer's block as its key, and still has its block. */
  lemma LookupsAreRight(width: Width, bits: nat, consumers: nat, moves: seq<Move>, r: nat)
    requires width.Valid() && bits <= width.blocksBits
    requires var s := Run(width, bits, consumers, moves); r < |s.readers| && s.readers[r].Found?
    ensures var s := Run(width, bits, consumers, moves);
            var reader := s.readers[r];
            && reader.entry < |s.keys| && s.full[reader.entry]
            && s.keys[reader.entry] == reader.block
            && KeyWord(s.keys[reader.entry], width) == width.Base(reader.block)
  {
    LaterLookupsAreRight(width, bits, consumers, moves, r, 0);
    var s := Run(width, bits, consumers, moves);
    hide Shape, Distinct, Keyed, Filled, ProducerOk, Live, Run;
    assert ReaderOk(s, s.readers[r]);
    LiesFirst(s, s.readers[r].block, s.readers[r].last, s.headers[s.readers[r].header], s.readers[r].at);
  }

  /** Nor can going on go wrong: `j` places on from where the consumer is, in the header it loaded, lies the entry
      of the `j`th block after the one it is at. */
  lemma LaterLookupsAreRight(width: Width, bits: nat, consumers: nat, moves: seq<Move>, r: nat, j: nat)
    requires width.Valid() && bits <= width.blocksBits
    requires var s := Run(width, bits, consumers, moves);
             r < |s.readers| && s.readers[r].Found? && s.readers[r].block + j <= s.readers[r].last
    ensures var s := Run(width, bits, consumers, moves);
            var Found(k, last, header, at, _) := s.readers[r];
            && header < |s.headers| && at < |s.headers[header].index| && j < |s.headers[header].index|
            && var e := s.headers[header].index[Around(at, j, |s.headers[header].index|)];
               && e < |s.keys| && s.full[e]
               && s.keys[e] == k + j
               && KeyWord(s.keys[e], width) == width.Base(k + j)
  {
    StartInv(width, bits, consumers);
    var s := Run(width, bits, consumers, moves);
    ExecWidth(Start(width, bits, consumers), moves);
    hide Shape, Exec, Filled, Distinct, Keyed, ProducerOk, Live;
    assert ReaderOk(s, s.readers[r]);
    var Found(k, last, header, at, _) := s.readers[r];
    assert Live(s, k + j) && s.headers[header].index[Around(at, (k + j) - k, |s.headers[header].index|)] == EntryOf(s, k + j);
    NewestKeys(s, k + j);
  }

  lemma {:induction false} ExecWidth(s: State, moves: seq<Move>)
    requires Inv(s)
    ensures Exec(s, moves).width == s.width
    decreases |moves|
  {
    hide Shape, Distinct, Keyed, Filled, ProducerOk, ReaderOk, Enabled;
    if moves != [] {
      if Enabled(s, moves[0]) {
        StepKeepsInv(s, moves[0]);
        ExecWidth(Step(s, moves[0]), moves[1..]);
      } else {
        ExecWidth(s, moves[1..]);
      }
    }
  }
}
