/** The thread-id table of `get_or_add_implicit_producer` (include/concurentqueue/concurrentqueue.h:3201-3349):
    a chain of open-addressing tables that are never rehashed. Any number of threads, one shared load, store,
    compare-exchange or fetch-and-add a step. A thread's id is its number. */
module ThreadTable {

  const EMPTY := -1
  const NONE := -1

  datatype Table = Table(keys: seq<int>, values: seq<int>) {
    predicate Valid() { |keys| == |values| > 0 }

    function Capacity(): nat { |keys| }
  }

  /** `main` is the thread's copy of the newest table, `at` counts the slots probed. */
  datatype Pc =
    | Idle
    | Looking(main: nat, table: nat, at: nat)
    | Copying(main: nat, at: nat, value: int)
    | CopyClaim(main: nat, at: nat, value: int)
    | CopyStore(main: nat, at: nat, value: int)
    | Missing(main: nat)
    | Counted(main: nat)
    | Locked(main: nat)
    | Resizing(main: nat)
    | Unlocking(main: nat)
    | Deciding(main: nat)
    | Adding(main: nat, at: nat)
    | AddClaim(main: nat, at: nat)
    | AddStore(main: nat, at: nat)

  /** `tickets` holds each thread's `newCount`, 0 before it has one; `producers` the producer made for it;
      `results` everything its calls have returned. */
  datatype State = State(
    tables: seq<Table>, count: nat, locked: bool, created: nat,
    pcs: seq<Pc>, hashes: seq<nat>, tickets: seq<nat>, producers: seq<int>, results: seq<seq<int>>)

  predicate Sized(s: State) {
    && |s.tables| > 0 && (forall k | 0 <= k < |s.tables| :: s.tables[k].Valid())
    && |s.pcs| == |s.hashes| == |s.tickets| == |s.producers| == |s.results|
  }

  function Home(hash: nat, capacity: nat): (p: nat)
    requires capacity > 0
    ensures p < capacity
  {
    hash % capacity
  }

  /** The slot of the `at`th probe: `index &= capacity - 1`, capacities being powers of two. */
  function Slot(hash: nat, at: nat, capacity: nat): (p: nat)
    requires at < capacity
    ensures p < capacity
  {
    var p := Home(hash, capacity) + at;
    if p < capacity then p else p - capacity
  }

  /** Three quarters, as `(capacity >> 1) + (capacity >> 2)` has it. */
  function Limit(capacity: nat): (l: nat)
    ensures capacity > 0 ==> l < capacity
  {
    capacity / 2 + capacity / 4
  }

  function KeyAt(s: State, t: nat, k: nat, at: nat): int
    requires Sized(s) && t < |s.pcs| && k < |s.tables| && at < s.tables[k].Capacity()
  {
    s.tables[k].keys[Slot(s.hashes[t], at, s.tables[k].Capacity())]
  }

  /** Doubling until the table is less than half full. */
  function NewCapacity(ticket: nat, capacity: nat): (c: nat)
    requires capacity > 0
    ensures c >= capacity && ticket < c / 2 <= Limit(c)
    decreases ticket + 2 - capacity / 2
  {
    if ticket >= capacity / 2 then NewCapacity(ticket, 2 * capacity) else capacity
  }

  /** The loop that finds it. */
  method ComputeNewCapacity(ticket: nat, capacity: nat) returns (c: nat)
    requires capacity > 0
    ensures c == NewCapacity(ticket, 2 * capacity)
  {
    c := 2 * capacity;
    while ticket >= c / 2
      invariant c > 0 && NewCapacity(ticket, c) == NewCapacity(ticket, 2 * capacity)
      decreases ticket + 2 - c / 2
    {
      c := 2 * c;
    }
  }

  function EmptyTable(capacity: nat): Table {
    Table(seq(capacity, _ => EMPTY), seq(capacity, _ => NONE))
  }

  // ---------------------------------------------------------------- steps

  predicate InTable(s: State, t: nat)
    requires Sized(s) && t < |s.pcs|
  {
    Within(s, s.pcs[t])
  }

  /** Is the probe within the table? It always is. */
  predicate Within(s: State, pc: Pc) {
    match pc
    case Looking(_, k, at) => k < |s.tables| && at < s.tables[k].Capacity()
    case Copying(k, at, _) => k < |s.tables| && at < s.tables[k].Capacity()
    case CopyClaim(k, at, _) => k < |s.tables| && at < s.tables[k].Capacity()
    case CopyStore(k, at, _) => k < |s.tables| && at < s.tables[k].Capacity()
    case Adding(k, at) => k < |s.tables| && at < s.tables[k].Capacity()
    case AddClaim(k, at) => k < |s.tables| && at < s.tables[k].Capacity()
    case AddStore(k, at) => k < |s.tables| && at < s.tables[k].Capacity()
    case Idle => true
    case Missing(k) => k < |s.tables|
    case Counted(k) => k < |s.tables|
    case Locked(k) => k < |s.tables|
    case Resizing(k) => k < |s.tables|
    case Unlocking(k) => k < |s.tables|
    case Deciding(k) => k < |s.tables|
  }

  function Go(s: State, t: nat, pc: Pc): State
    requires t < |s.pcs|
  {
    s.(pcs := s.pcs[t := pc])
  }

  function Return(s: State, t: nat, value: int): State
    requires Sized(s) && t < |s.pcs|
  {
    s.(pcs := s.pcs[t := Idle], results := s.results[t := s.results[t] + [value]])
  }

  /** A successful compare-exchange of an empty key with `t`. */
  function PutKey(s: State, t: nat, k: nat, at: nat): State
    requires Sized(s) && t < |s.pcs| && k < |s.tables| && at < s.tables[k].Capacity()
  {
    var table := s.tables[k];
    s.(tables := s.tables[k := table.(keys := table.keys[Slot(s.hashes[t], at, table.Capacity()) := t])])
  }

  function PutValue(s: State, t: nat, k: nat, at: nat, value: int): State
    requires Sized(s) && t < |s.pcs| && k < |s.tables| && at < s.tables[k].Capacity()
  {
    var table := s.tables[k];
    s.(tables := s.tables[k := table.(values := table.values[Slot(s.hashes[t], at, table.Capacity()) := value])])
  }

  function Newest(s: State): nat
    requires |s.tables| > 0
  {
    |s.tables| - 1
  }

  /** What the thread does when it sees the key of its probe. */
  function Look(s: State, t: nat): State
    requires Sized(s) && t < |s.pcs| && InTable(s, t) && s.pcs[t].Looking?
  {
    var Looking(main, k, at) := s.pcs[t];
    var key := KeyAt(s, t, k, at);
    if key == t then
      var value := s.tables[k].values[Slot(s.hashes[t], at, s.tables[k].Capacity())];
      if k != main then Go(s, t, Copying(main, 0, value)) else Return(s, t, value)
    else if key == EMPTY then
      if k > 0 then Go(s, t, Looking(main, k - 1, 0)) else Go(s, t, Missing(main))
    else Go(s, t, Looking(main, k, at + 1))
  }

  function Step(s: State, t: nat): State
    requires Sized(s) && t < |s.pcs| && InTable(s, t)
  {
    match s.pcs[t]
    case Idle => Go(s, t, Looking(Newest(s), Newest(s), 0))
    case Looking(_, _, _) => Look(s, t)
    case Copying(main, at, value) =>
      if KeyAt(s, t, main, at) == EMPTY then Go(s, t, CopyClaim(main, at, value))
      else Go(s, t, Copying(main, at + 1, value))
    case CopyClaim(main, at, value) =>
      if KeyAt(s, t, main, at) == EMPTY then Go(PutKey(s, t, main, at), t, CopyStore(main, at, value))
      else Go(s, t, Copying(main, at + 1, value))
    case CopyStore(main, at, value) => Return(PutValue(s, t, main, at, value), t, value)
    case Missing(main) =>
      Go(s.(count := s.count + 1, tickets := s.tickets[t := s.count + 1]), t, Counted(main))
    case Counted(main) =>
      if s.tickets[t] >= s.tables[main].Capacity() / 2 && !s.locked then Go(s.(locked := true), t, Locked(main))
      else Go(s, t, Deciding(main))
    case Locked(_) =>
      var main := Newest(s);
      if s.tickets[t] >= s.tables[main].Capacity() / 2 then Go(s, t, Resizing(main)) else Go(s, t, Unlocking(main))
    case Resizing(main) =>
      var bigger := EmptyTable(NewCapacity(s.tickets[t], 2 * s.tables[main].Capacity()));
      Go(s.(tables := s.tables + [bigger]), t, Unlocking(|s.tables|))
    case Unlocking(main) => Go(s.(locked := false), t, Deciding(main))
    case Deciding(main) =>
      if s.tickets[t] < Limit(s.tables[main].Capacity()) then
        Go(s.(created := s.created + 1, producers := s.producers[t := s.created]), t, Adding(main, 0))
      else Go(s, t, Counted(Newest(s)))
    case Adding(main, at) =>
      if KeyAt(s, t, main, at) == EMPTY then Go(s, t, AddClaim(main, at)) else Go(s, t, Adding(main, at + 1))
    case AddClaim(main, at) =>
      if KeyAt(s, t, main, at) == EMPTY then Go(PutKey(s, t, main, at), t, AddStore(main, at))
      else Go(s, t, Adding(main, at + 1))
    case AddStore(main, at) => Return(PutValue(s, t, main, at, s.producers[t]), t, s.producers[t])
  }

  function Start(capacity: nat, hashes: seq<nat>): State {
    var n := |hashes|;
    State([EmptyTable(capacity)], 0, false, 0, seq(n, _ => Idle), hashes,
          seq(n, _ => 0), seq(n, _ => NONE), seq(n, _ => []))
  }

  // ---------------------------------------------------------------- invariant

  /** Every key is a thread whose ticket is below three quarters of the capacity. */
  predicate Ticketed(keys: seq<int>, tickets: seq<nat>) {
    forall p | 0 <= p < |keys| ::
      keys[p] == EMPTY || (0 <= keys[p] < |tickets| && 0 < tickets[keys[p]] < Limit(|keys|))
  }

  predicate Once(keys: seq<int>) {
    forall p, q | 0 <= p < q < |keys| :: keys[p] != EMPTY ==> keys[p] != keys[q]
  }

  /** The first `at` slots thread `t` probes are taken, by others. */
  predicate Passed(keys: seq<int>, hash: nat, t: int, at: nat)
    requires at <= |keys|
  {
    forall i: nat | i < at :: keys[Slot(hash, i, |keys|)] != EMPTY && keys[Slot(hash, i, |keys|)] != t
  }

  /** Every key is where probing for it ends. */
  predicate Chained(keys: seq<int>, hashes: seq<nat>) {
    forall t: nat, at: nat | t < |hashes| && at < |keys| && keys[Slot(hashes[t], at, |keys|)] == t ::
      Passed(keys, hashes[t], t, at)
  }

  predicate TableOk(table: Table, hashes: seq<nat>, tickets: seq<nat>) {
    table.Valid() && Ticketed(table.keys, tickets) && Once(table.keys) && Chained(table.keys, hashes)
  }

  predicate Absent(table: Table, t: int) {
    forall p | 0 <= p < |table.keys| :: table.keys[p] != t
  }

  /** No table from number `k` on has thread `t`. */
  predicate AbsentFrom(s: State, t: int, k: nat) {
    forall j | k <= j < |s.tables| :: Absent(s.tables[j], t)
  }

  predicate Storing(pc: Pc, k: nat) {
    (pc.CopyStore? || pc.AddStore?) && pc.main == k
  }

  /** The value beside a key is its thread's producer, unless that thread is just about to store it. */
  predicate ValuesOk(s: State, k: nat)
    requires Sized(s) && k < |s.tables|
  {
    var table := s.tables[k];
    forall p | 0 <= p < |table.keys| && 0 <= table.keys[p] < |s.pcs| ::
      Storing(s.pcs[table.keys[p]], k) || table.values[p] == s.producers[table.keys[p]]
  }

  predicate Holding(pc: Pc) { pc.Locked? || pc.Resizing? || pc.Unlocking? }

  /** From its ticket to its key, a thread is in no table. */
  predicate New(pc: Pc) {
    pc.Missing? || pc.Counted? || Holding(pc) || pc.Deciding? || pc.Adding? || pc.AddClaim?
  }

  predicate ProbeOk(s: State, t: nat, k: nat, at: nat)
    requires Sized(s) && t < |s.pcs|
  {
    && k < |s.tables| && at < s.tables[k].Capacity()
    && Passed(s.tables[k].keys, s.hashes[t], t, at)
  }

  predicate OwnsSlot(s: State, t: nat, k: nat, at: nat)
    requires Sized(s) && t < |s.pcs|
  {
    k < |s.tables| && at < s.tables[k].Capacity() && KeyAt(s, t, k, at) == t
  }

  predicate PcOk(s: State, t: nat)
    requires Sized(s) && t < |s.pcs|
  {
    PcFits(s, t, s.pcs[t])
  }

  predicate PcFits(s: State, t: nat, pc: Pc)
    requires Sized(s) && t < |s.pcs|
  {
    var ticket := s.tickets[t];
    Within(s, pc) &&
    match pc
    case Idle => true
    case Looking(main, k, at) => k <= main < |s.tables| && ProbeOk(s, t, k, at) && AbsentFrom(s, t, k + 1)
    case Copying(main, at, value) =>
      ProbeOk(s, t, main, at) && Absent(s.tables[main], t) && value == s.producers[t] && 0 < ticket < Limit(s.tables[main].Capacity())
    case CopyClaim(main, at, value) =>
      ProbeOk(s, t, main, at) && Absent(s.tables[main], t) && value == s.producers[t] && 0 < ticket < Limit(s.tables[main].Capacity())
    case CopyStore(main, at, value) => OwnsSlot(s, t, main, at) && value == s.producers[t]
    case Missing(main) => ticket == 0
    case Resizing(main) => main == Newest(s) && ticket > 0
    case Adding(main, at) =>
      ProbeOk(s, t, main, at) && 0 < ticket < Limit(s.tables[main].Capacity()) && s.producers[t] != NONE
    case AddClaim(main, at) =>
      ProbeOk(s, t, main, at) && 0 < ticket < Limit(s.tables[main].Capacity()) && s.producers[t] != NONE
    case AddStore(main, at) => OwnsSlot(s, t, main, at)
    case _ => ticket > 0
  }

  predicate AllAre(results: seq<int>, producer: int) {
    forall i | 0 <= i < |results| :: results[i] == producer != NONE
  }

  predicate Standing(s: State, t: nat)
    requires Sized(s) && t < |s.pcs|
  {
    StandingFits(s, t, s.pcs[t])
  }

  /** A thread has a ticket exactly from its `fetch_add` on, a producer from then until for ever, and once
      it has put its key somewhere the key stays. */
  predicate StandingFits(s: State, t: nat, pc: Pc)
    requires Sized(s) && t < |s.pcs|
  {
    && (New(pc) ==> AbsentFrom(s, t, 0))
    && (!New(pc) ==> (s.tickets[t] > 0 <==> !AbsentFrom(s, t, 0)))
    && (s.producers[t] != NONE <==> s.tickets[t] > 0 && (New(pc) ==> pc.Adding? || pc.AddClaim?))
    && NONE <= s.producers[t] < s.created
    && s.tickets[t] <= s.count
    && AllAre(s.results[t], s.producers[t])
  }

  predicate TablesOk(s: State)
    requires Sized(s)
  {
    && (forall k | 0 <= k < |s.tables| :: TableOk(s.tables[k], s.hashes, s.tickets))
    && (forall k | 0 <= k < |s.tables| :: ValuesOk(s, k))
    && (forall k, j | 0 <= k < j < |s.tables| :: s.tables[k].Capacity() <= s.tables[j].Capacity())
  }

  predicate ThreadsOk(s: State)
    requires Sized(s)
  {
    forall t: nat | t < |s.pcs| :: PcOk(s, t) && Standing(s, t)
  }

  /** Tickets and producers are each given out once, and one thread at a time resizes. */
  predicate Apart(s: State)
    requires Sized(s)
  {
    && (forall t, u | 0 <= t < u < |s.pcs| :: s.tickets[t] > 0 ==> s.tickets[t] != s.tickets[u])
    && (forall t, u | 0 <= t < u < |s.pcs| :: s.producers[t] != NONE ==> s.producers[t] != s.producers[u])
    && (forall t, u | 0 <= t < u < |s.pcs| :: !(Holding(s.pcs[t]) && Holding(s.pcs[u])))
    && (forall t | 0 <= t < |s.pcs| && Holding(s.pcs[t]) :: s.locked)
  }

  predicate Inv(s: State) { Sized(s) && TablesOk(s) && ThreadsOk(s) && Apart(s) }
}
