/** One implicit producer changing its block index while any number of consumers look blocks up in it, alone or
    many in a row (include/concurentqueue/concurrentqueue.h:2382-2451, 2604-2704, 2726-2825). A step is one shared
    load or store, except that taking an insertion back stores the tail and the entry's value in one step: that
    value belongs to no published block, so no consumer reads it in between. */
module BlockLookup {
  import opened BlockIndex
  import opened PowersOfTwo

  /** Inserting an entry stores its key, then the tail, then (when a block could be had) its value. */
  datatype Producer = Quiet | KeyStored | TailStored

  /** A consumer that owns indices in the blocks `block..last`. `place` is not read: it records where the first
      block's entry lay in the header the consumer loaded; `at` is where the lookup says it lies. */
  datatype Reader =
    | Idle
    | Claimed(block: nat, last: nat)
    | HasHeader(block: nat, last: nat, header: nat, place: nat)
    | HasTail(block: nat, last: nat, header: nat, place: nat, tail: nat)
    | Found(block: nat, last: nat, header: nat, at: nat, entry: nat)

  const INVALID := -1

  /** `keys` and `full` (has a block) are the entries; the last header is the current one; blocks below
      `published` hold published indices. In the current order, counted by neither the producer nor the
      consumers: the first `rewound` entries are insertions taken back, the last `live` ones make up the
      unbroken run of blocks that ends with the newest. */
  datatype State = State(
    width: Width, bits: nat, headers: seq<Header>, keys: seq<int>, full: seq<bool>,
    next: int, published: int, producer: Producer, readers: seq<Reader>,
    rewound: int, live: int)

  datatype Move =
    | StoreKey | StoreTail | StoreValue | Rewind | Grow | Publish
    | Claim(r: nat, k: nat, last: nat) | LoadHeader(r: nat) | LoadTail(r: nat) | LoadKey(r: nat) | Next(r: nat) | Finish(r: nat)
    | Free(k: nat)

  // ---------------------------------------------------------------- shape

  predicate HeaderOk(h: Header, bits: nat, entries: nat) {
    h.Valid() && |h.index| == Pow2(bits) && forall p | 0 <= p < |h.index| :: h.index[p] < entries
  }

  predicate Shape(s: State) {
    && s.width.Valid() && |s.headers| > 0 && |s.full| == |s.keys|
    && s.bits + |s.headers| - 1 <= s.width.blocksBits
    && (forall h | 0 <= h < |s.headers| :: HeaderOk(s.headers[h], s.bits + h, |s.keys|))
    && |Current(s).index| == |s.keys|
  }

  function Current(s: State): Header
    requires |s.headers| > 0
  {
    s.headers[|s.headers| - 1]
  }

  /** All entries, oldest first. */
  function Order(s: State): (order: seq<nat>)
    requires Shape(s)
    ensures |order| == |s.keys| > 0 && forall j | 0 <= j < |order| :: order[j] < |s.keys|
  {
    assert HeaderOk(Current(s), s.bits + |s.headers| - 1, |s.keys|);
    Current(s).Order()
  }

  /** Where in the order the entry of block `k` is. */
  function Position(s: State, k: nat): int { |s.keys| - (s.next - k) }

  predicate Live(s: State, k: nat)
    requires Shape(s)
  {
    k < s.published <= s.next && s.next - k <= s.live <= |s.keys| && s.full[Order(s)[Position(s, k)]]
  }

  /** The entry whose block is block `k`. */
  function EntryOf(s: State, k: nat): (e: nat)
    requires Shape(s) && Live(s, k)
    ensures e < |s.keys| && s.full[e]
  {
    Order(s)[Position(s, k)]
  }

  // ---------------------------------------------------------------- steps

  predicate Enabled(s: State, m: Move)
    requires Shape(s)
  {
    match m
    case StoreKey => s.producer.Quiet? && !s.full[Order(s)[0]]
    case StoreTail => s.producer.KeyStored?
    case StoreValue => s.producer.TailStored?
    case Rewind => s.producer.TailStored? || (s.producer.Quiet? && s.next > s.published)
    case Grow => s.producer.Quiet? && s.full[Order(s)[0]] && s.bits + |s.headers| <= s.width.blocksBits
    case Publish => s.producer.Quiet?
    case Claim(r, k, last) => r < |s.readers| && s.readers[r].Idle? && AllLive(s, k, last)
    case LoadHeader(r) => r < |s.readers| && s.readers[r].Claimed? && Live(s, s.readers[r].block)
    case LoadTail(r) => r < |s.readers| && s.readers[r].HasHeader? && s.readers[r].header < |s.headers|
    case LoadKey(r) => CanLoadKey(s, r)
    case Next(r) => CanGoOn(s, r)
    case Finish(r) => r < |s.readers| && s.readers[r].Found? && s.readers[r].block == s.readers[r].last
    case Free(k) => Live(s, k) && forall r | 0 <= r < |s.readers| :: !Uses(s.readers[r], k)
  }

  predicate Uses(reader: Reader, k: nat) { !reader.Idle? && reader.block <= k <= reader.last }

  predicate AllLive(s: State, k: nat, last: nat)
    requires Shape(s)
  {
    k <= last && forall j: nat | k <= j <= last :: Live(s, j)
  }

  predicate CanGoOn(s: State, r: nat) {
    && r < |s.readers| && s.readers[r].Found? && s.readers[r].block < s.readers[r].last
    && s.readers[r].header < |s.headers| && s.readers[r].at < |s.headers[s.readers[r].header].index|
  }

  /** `(at + 1) & (capacity - 1)` */
  function After(at: nat, capacity: nat): (p: nat)
    requires at < capacity
    ensures p < capacity
  {
    if at + 1 == capacity then 0 else at + 1
  }

  predicate CanLoadKey(s: State, r: nat)
    requires Shape(s)
  {
    && r < |s.readers| && s.readers[r].HasTail?
    && s.readers[r].header < |s.headers| && s.readers[r].tail < |s.headers[s.readers[r].header].index|
  }

  function KeyWord(key: int, width: Width): nat
    requires width.Valid()
  {
    if key == INVALID then 1 else width.Base(key)
  }

  /** The place the consumer ends up with. */
  function Result(s: State, r: nat): (at: nat)
    requires Shape(s) && CanLoadKey(s, r)
    ensures at < |s.headers[s.readers[r].header].index|
  {
    var reader := s.readers[r];
    var h := s.headers[reader.header];
    assert HeaderOk(h, s.bits + reader.header, |s.keys|);
    LookUp(reader.tail, s.width.Base(reader.block), KeyWord(s.keys[h.index[reader.tail]], s.width), |h.index|, s.width)
  }

  function SetCurrent(s: State, h: Header): seq<Header>
    requires |s.headers| > 0
  {
    s.headers[|s.headers| - 1 := h]
  }

  function Step(s: State, m: Move): State
    requires Shape(s) && Enabled(s, m)
  {
    var n, order := |s.keys|, Order(s);
    match m
    case StoreKey =>
      s.(keys := s.keys[order[0] := s.next], producer := KeyStored,
         rewound := if s.rewound == 0 then 1 else s.rewound,
         live := if s.rewound == 0 && s.live == n then n - 1 else s.live)
    case StoreTail =>
      s.(headers := SetCurrent(s, Current(s).Advanced()), next := s.next + 1, producer := TailStored,
         rewound := s.rewound - 1, live := s.live + 1)
    case StoreValue => s.(full := s.full[order[n - 1] := true], producer := Quiet)
    case Rewind =>
      s.(headers := SetCurrent(s, Current(s).Retreated()), full := s.full[order[n - 1] := false],
         next := s.next - 1, producer := Quiet, rewound := s.rewound + 1, live := s.live - 1)
    case Grow =>
      s.(headers := s.headers + [Grown(Current(s), n)],
         keys := s.keys + seq(n, _ => INVALID), full := s.full + seq(n, _ => false))
    case Publish => s.(published := s.next)
    case Claim(r, k, last) => s.(readers := s.readers[r := Claimed(k, last)])
    case LoadHeader(r) =>
      var Claimed(k, last) := s.readers[r];
      s.(readers := s.readers[r := HasHeader(k, last, |s.headers| - 1, PlaceOf(Current(s), Position(s, k)))])
    case LoadTail(r) =>
      var HasHeader(k, last, h, place) := s.readers[r];
      s.(readers := s.readers[r := HasTail(k, last, h, place, s.headers[h].tail)])
    case LoadKey(r) =>
      var HasTail(k, last, h, _, _) := s.readers[r];
      var at := Result(s, r);
      s.(readers := s.readers[r := Found(k, last, h, at, s.headers[h].index[at])])
    case Next(r) =>
      var Found(k, last, h, at, _) := s.readers[r];
      var next := After(at, |s.headers[h].index|);
      s.(readers := s.readers[r := Found(k + 1, last, h, next, s.headers[h].index[next])])
    case Finish(r) => s.(readers := s.readers[r := Idle])
    case Free(k) => s.(full := s.full[EntryOf(s, k) := false])
  }

  /** The producer's first index, of `2^bits` entries. */
  function Start(width: Width, bits: nat, consumers: nat): State {
    var n := Pow2(bits);
    State(width, bits, [Header(n - 1, NewOnes(0, n))], seq(n, _ => INVALID), seq(n, _ => false),
          0, 0, Quiet, seq(consumers, _ => Idle), 0, 0)
  }

  // ---------------------------------------------------------------- invariant

  predicate Distinct(order: seq<nat>) {
    forall i, j | 0 <= i < j < |order| :: order[i] != order[j]
  }

  /** The keys of the run end just below `next`, those of the insertions taken back start at `next`. */
  predicate Keyed(order: seq<nat>, keys: seq<int>, next: int, rewound: int, live: int)
    requires |order| == |keys| && forall j | 0 <= j < |order| :: order[j] < |keys|
  {
    && 0 <= rewound && 0 <= live && rewound + live <= |order| && live <= next
    && (forall j | |order| - live <= j < |order| :: keys[order[j]] == next - |order| + j)
    && (forall j | 0 <= j < rewound :: keys[order[j]] == next + j)
  }

  /** Nothing outside the run has a block, and everything not yet published has one, but perhaps not yet
      the entry being `written`. */
  predicate Filled(order: seq<nat>, full: seq<bool>, next: int, published: int, live: int, written: bool)
    requires |order| == |full| && forall j | 0 <= j < |order| :: order[j] < |full|
  {
    && published <= next <= published + live && 0 <= live <= |order|
    && (forall j | 0 <= j < |order| - live :: !full[order[j]])
    && (forall j | |order| - (next - published) <= j < |order| - (if written then 1 else 0) :: full[order[j]])
  }

  predicate ProducerOk(s: State)
    requires Shape(s)
  {
    && (s.producer.KeyStored? ==> s.rewound > 0 && !s.full[Order(s)[0]])
    && (s.producer.TailStored? ==> s.next > s.published)
  }

  predicate Structure(s: State) {
    && Shape(s) && Distinct(Order(s))
    && Keyed(Order(s), s.keys, s.next, s.rewound, s.live)
    && Filled(Order(s), s.full, s.next, s.published, s.live, s.producer.TailStored?) && ProducerOk(s)
  }

  /** Entry `e` is in the run or among the insertions taken back. */
  predicate Guarded(order: seq<nat>, rewound: int, live: int, e: nat) {
    exists j :: 0 <= j < |order| && order[j] == e && (j < rewound || j >= |order| - live)
  }

  /** Seen from place `t` of the header, block `k` lies as many places back as the key there is ahead of `k`. */
  predicate Sighted(s: State, k: nat, h: Header, place: nat, t: nat)
    requires Shape(s)
  {
    && place < |h.index| && t < |h.index| && h.index[t] < |s.keys|
    && s.keys[h.index[t]] == k + Behind(t, place, |h.index|)
    && Guarded(Order(s), s.rewound, s.live, h.index[t])
  }

  /** `d` places on from `place`, going round. */
  function Around(place: nat, d: nat, capacity: nat): (p: nat)
    requires place < capacity && d < capacity
    ensures p < capacity
  {
    if place + d < capacity then place + d else place + d - capacity
  }

  /** From `place` on, the header has the entries of the blocks `k..last`, one after the other. */
  predicate Lies(s: State, k: nat, last: nat, h: Header, place: nat)
    requires Shape(s)
  {
    && place < |h.index| && k <= last < k + |h.index|
    && forall j: nat | k <= j <= last :: Live(s, j) && h.index[Around(place, j - k, |h.index|)] == EntryOf(s, j)
  }

  predicate ReaderOk(s: State, reader: Reader)
    requires Shape(s)
  {
    match reader
    case Idle => true
    case Claimed(k, last) => AllLive(s, k, last)
    case HasHeader(k, last, h, place) =>
      h < |s.headers| && Sighted(s, k, s.headers[h], place, s.headers[h].tail) && Lies(s, k, last, s.headers[h], place)
    case HasTail(k, last, h, place, t) =>
      h < |s.headers| && Sighted(s, k, s.headers[h], place, t) && Lies(s, k, last, s.headers[h], place)
    case Found(k, last, h, at, e) =>
      h < |s.headers| && Lies(s, k, last, s.headers[h], at) && e == s.headers[h].index[at]
  }

  predicate Readers(s: State)
    requires Shape(s)
  {
    forall r | 0 <= r < |s.readers| :: ReaderOk(s, s.readers[r])
  }

  predicate Inv(s: State) { Structure(s) && Readers(s) }
}
