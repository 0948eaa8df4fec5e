/** Every step keeps the invariant of `ThreadTable`. */
module ThreadTableProof {
  import opened ThreadTable

  // ---------------------------------------------------------------- a table never fills up

  lemma {:induction false} DistinctCount(s: seq<int>, m: nat)
    requires forall i | 0 <= i < |s| :: 0 <= s[i] < m
    requires forall i, j | 0 <= i < j < |s| :: s[i] != s[j]
    ensures |s| <= m
    decreases m
  {
    if |s| > 0 { RoomForOne(s, m); }
    if m == 0 {
    } else if m - 1 in s {
      var i :| 0 <= i < |s| && s[i] == m - 1;
      DistinctCount(s[..i] + s[i + 1..], m - 1);
    } else {
      DistinctCount(s, m - 1);
    }
  }

  lemma RoomForOne(s: seq<int>, m: nat)
    requires |s| > 0 && forall i | 0 <= i < |s| :: 0 <= s[i] < m
    ensures m > 0
  {
    var first := s[0];
  }

  predicate TicketsApart(tickets: seq<nat>) {
    forall t, u | 0 <= t < u < |tickets| :: tickets[t] > 0 ==> tickets[t] != tickets[u]
  }

  /** Fewer than three quarters of the slots can hold threads with tickets below that. */
  lemma SomeEmpty(keys: seq<int>, tickets: seq<nat>) returns (p: nat)
    requires |keys| > 0 && Ticketed(keys, tickets) && Once(keys) && TicketsApart(tickets)
    ensures p < |keys| && keys[p] == EMPTY
  {
    if p' :| 0 <= p' < |keys| && keys[p'] == EMPTY {
      p := p';
    } else {
      var held := seq(|keys|, i requires 0 <= i < |keys| => tickets[keys[i]] as int);
      forall i, j | 0 <= i < j < |held| ensures held[i] != held[j] {
        assert keys[i] != keys[j];
      }
      DistinctCount(held, Limit(|keys|));
      assert false;
    }
  }

  lemma SlotOnto(hash: nat, p: nat, capacity: nat) returns (at: nat)
    requires p < capacity
    ensures at < capacity && Slot(hash, at, capacity) == p
  {
    var home := Home(hash, capacity);
    at := if p >= home then p - home else p - home + capacity;
  }

  /** So no probe goes round the whole table. */
  lemma ProbeEnds(keys: seq<int>, hash: nat, t: nat, at: nat, tickets: seq<nat>)
    requires |keys| > 0 && Ticketed(keys, tickets) && Once(keys) && TicketsApart(tickets)
    requires at < |keys| && Passed(keys, hash, t, at)
    requires keys[Slot(hash, at, |keys|)] != EMPTY && keys[Slot(hash, at, |keys|)] != t
    ensures at + 1 < |keys| && Passed(keys, hash, t, at + 1)
  {
    var p := SomeEmpty(keys, tickets);
    hide Ticketed, Once, TicketsApart, Slot;
    var i := SlotOnto(hash, p, |keys|);
    assert keys[Slot(hash, i, |keys|)] == EMPTY;
  }

  /** A probe that ends at an empty slot has shown that the thread is not in the table. */
  lemma EmptyMeansAbsent(keys: seq<int>, hashes: seq<nat>, t: nat, at: nat)
    requires t < |hashes| && at < |keys| && Chained(keys, hashes)
    requires Passed(keys, hashes[t], t, at) && keys[Slot(hashes[t], at, |keys|)] == EMPTY
    ensures forall p | 0 <= p < |keys| :: keys[p] != t
  {
    forall p | 0 <= p < |keys| ensures keys[p] != t {
      var i := SlotOnto(hashes[t], p, |keys|);
    }
  }

  // ---------------------------------------------------------------- the other threads

  /** The table has at most gained keys of thread `t`. */
  predicate Gains(a: Table, b: Table, t: nat) {
    && a.Valid() && b.Valid() && |a.keys| == |b.keys|
    && forall p | 0 <= p < |a.keys| :: b.keys[p] == a.keys[p] || (a.keys[p] == EMPTY && b.keys[p] == t)
  }

  predicate Blank(table: Table) {
    forall p | 0 <= p < |table.keys| :: table.keys[p] == EMPTY
  }

  predicate SameFor(s: State, s': State, u: nat)
    requires Sized(s) && Sized(s') && |s'.pcs| == |s.pcs| && u < |s.pcs|
  {
    && s'.pcs[u] == s.pcs[u] && s'.hashes[u] == s.hashes[u] && s'.tickets[u] == s.tickets[u]
    && s'.producers[u] == s.producers[u] && s'.results[u] == s.results[u]
  }

  /** What any step of thread `t` does to the tables and to thread `u`. */
  predicate Evolves(s: State, s': State, t: nat, u: nat) {
    && Sized(s) && Sized(s') && |s'.pcs| == |s.pcs| && u < |s.pcs| && u != t && SameFor(s, s', u)
    && s'.count >= s.count && s'.created >= s.created && |s'.tables| >= |s.tables|
    && (forall k | 0 <= k < |s.tables| :: Gains(s.tables[k], s'.tables[k], t))
    && (forall k | |s.tables| <= k < |s'.tables| :: Blank(s'.tables[k]))
    && (s.pcs[u].Resizing? ==> |s'.tables| == |s.tables|)
  }

  lemma PassedGains(a: Table, b: Table, t: nat, hash: nat, u: nat, at: nat)
    requires Gains(a, b, t) && u != t && at <= |a.keys| && Passed(a.keys, hash, u, at)
    ensures Passed(b.keys, hash, u, at)
  {
    hide Slot;
  }

  lemma AbsentGains(a: Table, b: Table, t: nat, u: nat)
    requires Gains(a, b, t) && u != t
    ensures Absent(a, u) <==> Absent(b, u)
  {
    if !Absent(a, u) {
      var p :| 0 <= p < |a.keys| && a.keys[p] == u;
      assert b.keys[p] == u;
    }
  }

  lemma AbsentFromEvolves(s: State, s': State, t: nat, u: nat, k: nat)
    requires Evolves(s, s', t, u) && k <= |s.tables|
    ensures AbsentFrom(s, u, k) <==> AbsentFrom(s', u, k)
  {
    forall j | 0 <= j < |s.tables| ensures Absent(s.tables[j], u) <==> Absent(s'.tables[j], u) {
      AbsentGains(s.tables[j], s'.tables[j], t, u);
    }
    assert forall j | |s.tables| <= j < |s'.tables| :: Blank(s'.tables[j]) && Absent(s'.tables[j], u);
  }

  lemma OtherPc(s: State, s': State, t: nat, u: nat)
    requires Evolves(s, s', t, u) && PcOk(s, u)
    ensures PcOk(s', u)
  {
    hide Passed, Absent, AbsentFrom, Slot;
    var hash := s.hashes[u];
    match s.pcs[u]
    case Looking(main, k, at) => PassedGains(s.tables[k], s'.tables[k], t, hash, u, at); AbsentFromEvolves(s, s', t, u, k + 1);
    case Copying(k, at, _) => PassedGains(s.tables[k], s'.tables[k], t, hash, u, at); AbsentGains(s.tables[k], s'.tables[k], t, u);
    case CopyClaim(k, at, _) => PassedGains(s.tables[k], s'.tables[k], t, hash, u, at); AbsentGains(s.tables[k], s'.tables[k], t, u);
    case Adding(k, at) => PassedGains(s.tables[k], s'.tables[k], t, hash, u, at);
    case AddClaim(k, at) => PassedGains(s.tables[k], s'.tables[k], t, hash, u, at);
    case _ =>
  }

  lemma OtherStanding(s: State, s': State, t: nat, u: nat)
    requires Evolves(s, s', t, u) && Standing(s, u)
    ensures Standing(s', u)
  {
    AbsentFromEvolves(s, s', t, u, 0);
    hide Gains, Blank, AbsentFrom;
  }

  // ---------------------------------------------------------------- the tables

  /** Thread `t`'s key goes into the empty slot its probe has come to. */
  lemma PutKeyOk(table: Table, hashes: seq<nat>, tickets: seq<nat>, t: nat, at: nat)
    requires TableOk(table, hashes, tickets) && t < |hashes| == |tickets| && at < table.Capacity()
    requires table.keys[Slot(hashes[t], at, table.Capacity())] == EMPTY && Absent(table, t)
    requires Passed(table.keys, hashes[t], t, at) && 0 < tickets[t] < Limit(table.Capacity())
    ensures var table' := table.(keys := table.keys[Slot(hashes[t], at, table.Capacity()) := t]);
            TableOk(table', hashes, tickets) && Gains(table, table', t)
  {
    var p := Slot(hashes[t], at, table.Capacity());
    var table' := table.(keys := table.keys[p := t]);
    var keys, keys' := table.keys, table'.keys;
    assert Gains(table, table', t);
    forall u: nat, i: nat | u < |hashes| && i < |keys'| && keys'[Slot(hashes[u], i, |keys'|)] == u
      ensures Passed(keys', hashes[u], u, i)
    {
      if u == t {
        SlotsApart(hashes[t], i, at, |keys|);
      } else {
        PassedGains(table, table', t, hashes[u], u, i);
      }
    }
  }

  lemma SlotsApart(hash: nat, i: nat, j: nat, capacity: nat)
    requires i < capacity && j < capacity
    ensures Slot(hash, i, capacity) == Slot(hash, j, capacity) <==> i == j
  {
    hide Home;
  }

  lemma BlankOk(capacity: nat, hashes: seq<nat>, tickets: seq<nat>)
    requires capacity > 0
    ensures TableOk(EmptyTable(capacity), hashes, tickets) && Blank(EmptyTable(capacity))
  {
    hide Slot;
  }

  /** Values stay right in a table that is not touched. */
  lemma ValuesStay(s: State, s': State, t: nat, k: nat)
    requires Sized(s) && Sized(s') && |s'.pcs| == |s.pcs| && t < |s.pcs|
    requires k < |s.tables| && k < |s'.tables| && s'.tables[k] == s.tables[k] && ValuesOk(s, k)
    requires forall u | 0 <= u < |s.pcs| && u != t :: s'.pcs[u] == s.pcs[u] && s'.producers[u] == s.producers[u]
    requires Absent(s.tables[k], t)
          || (s'.producers[t] == s.producers[t] && (Storing(s.pcs[t], k) ==> Storing(s'.pcs[t], k)))
    ensures ValuesOk(s', k)
  {
  }

  // ---------------------------------------------------------------- one lemma a kind of step

  /** Steps that leave tables, tickets and producers alone. */
  predicate Quiet(s: State, t: nat)
    requires Sized(s) && t < |s.pcs| && InTable(s, t)
  {
    match s.pcs[t]
    case CopyClaim(main, at, _) => KeyAt(s, t, main, at) != EMPTY
    case AddClaim(main, at) => KeyAt(s, t, main, at) != EMPTY
    case CopyStore(_, _, _) => false
    case AddStore(_, _) => false
    case Missing(_) => false
    case Resizing(_) => false
    case Deciding(main) => s.tickets[t] >= Limit(s.tables[main].Capacity())
    case _ => true
  }

  lemma QuietFrame(s: State, t: nat)
    requires Sized(s) && t < |s.pcs| && InTable(s, t) && Quiet(s, t)
    ensures var s' := Step(s, t);
            && s'.tables == s.tables && s'.hashes == s.hashes && s'.tickets == s.tickets && s'.producers == s.producers
            && s'.count == s.count && s'.created == s.created
            && |s'.pcs| == |s.pcs| && s'.pcs == s.pcs[t := s'.pcs[t]] && !s'.pcs[t].CopyStore? && !s'.pcs[t].AddStore?
            && |s'.results| == |s.results| && s'.results == s.results[t := s'.results[t]]
            && !s.pcs[t].CopyStore? && !s.pcs[t].AddStore?
  {
    hide Slot, Look, KeyAt, Limit;
    if s.pcs[t].Looking? { LookFrame(s, t); LookPc(s, t); }
  }

  lemma LookPc(s: State, t: nat)
    requires Sized(s) && t < |s.pcs| && InTable(s, t) && s.pcs[t].Looking?
    ensures var pc := Look(s, t).pcs; |pc| == |s.pcs| && !pc[t].CopyStore? && !pc[t].AddStore?
  {
    hide Slot, KeyAt;
  }

  lemma QuietTables(s: State, t: nat)
    requires Sized(s) && TablesOk(s) && t < |s.pcs| && InTable(s, t) && Quiet(s, t)
    ensures Sized(Step(s, t)) && TablesOk(Step(s, t))
  {
    hide Step, Quiet, TableOk, ValuesOk;
    QuietFrame(s, t);
    forall k | 0 <= k < |s.tables| ensures ValuesOk(Step(s, t), k) { ValuesStay(s, Step(s, t), t, k); }
  }

  lemma MissingTables(s: State, t: nat)
    requires Sized(s) && TablesOk(s) && t < |s.pcs| && InTable(s, t) && s.pcs[t].Missing? && AbsentFrom(s, t, 0)
    ensures Sized(Step(s, t)) && TablesOk(Step(s, t))
  {
    hide Once, Chained, ValuesOk;
    var s' := Step(s, t);
    forall k | 0 <= k < |s.tables| ensures TableOk(s'.tables[k], s'.hashes, s'.tickets) && ValuesOk(s', k) {
      assert TableOk(s.tables[k], s.hashes, s.tickets) && Absent(s.tables[k], t);
      ValuesStay(s, s', t, k);
    }
  }

  lemma DecidingTables(s: State, t: nat)
    requires Sized(s) && TablesOk(s) && t < |s.pcs| && InTable(s, t) && s.pcs[t].Deciding? && AbsentFrom(s, t, 0)
    ensures Sized(Step(s, t)) && TablesOk(Step(s, t))
  {
    hide TableOk, ValuesOk;
    var s' := Step(s, t);
    forall k | 0 <= k < |s.tables| ensures ValuesOk(s', k) { ValuesStay(s, s', t, k); }
  }

  lemma InstallTables(s: State, t: nat)
    requires Sized(s) && TablesOk(s) && t < |s.pcs| && InTable(s, t) && s.pcs[t].Resizing? && s.pcs[t].main == Newest(s)
    ensures Sized(Step(s, t)) && TablesOk(Step(s, t))
  {
    hide TableOk, ValuesOk, NewCapacity;
    var s', n := Step(s, t), |s.tables|;
    var capacity := NewCapacity(s.tickets[t], 2 * s.tables[n - 1].Capacity());
    BlankOk(capacity, s.hashes, s.tickets);
    forall k | 0 <= k < n ensures ValuesOk(s', k) { ValuesStay(s, s', t, k); }
    BlankValues(s', n);
  }

  lemma BlankValues(s: State, k: nat)
    requires Sized(s) && k < |s.tables| && Blank(s.tables[k])
    ensures ValuesOk(s, k)
  {
  }

  /** The state after a successful claim, as far as the tables go. */
  lemma ClaimTables(s: State, t: nat, k: nat, at: nat, pc: Pc)
    requires Sized(s) && TablesOk(s) && t < |s.pcs| && ProbeOk(s, t, k, at) && KeyAt(s, t, k, at) == EMPTY
    requires Absent(s.tables[k], t) && 0 < s.tickets[t] < Limit(s.tables[k].Capacity())
    requires Storing(pc, k) && !s.pcs[t].CopyStore? && !s.pcs[t].AddStore?
    ensures var s' := Go(PutKey(s, t, k, at), t, pc);
            Sized(s') && TablesOk(s') && Gains(s.tables[k], s'.tables[k], t)
  {
    hide TableOk, ValuesOk, Passed;
    var s' := Go(PutKey(s, t, k, at), t, pc);
    PutKeyOk(s.tables[k], s.hashes, s.tickets, t, at);
    forall j | 0 <= j < |s.tables| ensures ValuesOk(s', j) {
      if j == k { ClaimValues(s, t, k, at, pc); } else { ValuesStay(s, s', t, j); }
    }
  }

  lemma ClaimValues(s: State, t: nat, k: nat, at: nat, pc: Pc)
    requires Sized(s) && t < |s.pcs| && k < |s.tables| && at < s.tables[k].Capacity() && ValuesOk(s, k)
    requires Absent(s.tables[k], t) && Storing(pc, k)
    ensures var s' := Go(PutKey(s, t, k, at), t, pc); Sized(s') && ValuesOk(s', k)
  {
    hide Slot;
  }

  lemma StoreTables(s: State, t: nat, k: nat, at: nat)
    requires Sized(s) && TablesOk(s) && t < |s.pcs| && OwnsSlot(s, t, k, at) && Storing(s.pcs[t], k)
    ensures var s' := Return(PutValue(s, t, k, at, s.producers[t]), t, s.producers[t]);
            && Sized(s') && TablesOk(s') && s'.tables[k].keys == s.tables[k].keys
  {
    hide Ticketed, Chained, Slot, ValuesOk;
    var s' := Return(PutValue(s, t, k, at, s.producers[t]), t, s.producers[t]);
    forall j | 0 <= j < |s.tables| ensures TableOk(s'.tables[j], s.hashes, s.tickets) && ValuesOk(s', j) {
      assert TableOk(s.tables[j], s.hashes, s.tickets);
      if j == k { StoreValues(s, t, k, at); } else { ValuesStay(s, s', t, j); }
    }
  }

  lemma StoreValues(s: State, t: nat, k: nat, at: nat)
    requires Sized(s) && t < |s.pcs| && OwnsSlot(s, t, k, at) && ValuesOk(s, k) && Once(s.tables[k].keys)
    ensures var s' := Return(PutValue(s, t, k, at, s.producers[t]), t, s.producers[t]); Sized(s') && ValuesOk(s', k)
  {
    hide Slot;
  }

  lemma StepTables(s: State, t: nat)
    requires Sized(s) && TablesOk(s) && t < |s.pcs| && PcOk(s, t) && Standing(s, t)
    ensures Sized(Step(s, t)) && TablesOk(Step(s, t))
  {
    hide TablesOk, AbsentFrom, Passed, Absent, Slot;
    if Quiet(s, t) {
      QuietTables(s, t);
    } else {
      match s.pcs[t]
      case Missing(_) => MissingTables(s, t);
      case Deciding(_) => DecidingTables(s, t);
      case Resizing(_) => InstallTables(s, t);
      case CopyClaim(main, at, value) => ClaimTables(s, t, main, at, CopyStore(main, at, value));
      case AddClaim(main, at) => NewAbsent(s, t, main); ClaimTables(s, t, main, at, AddStore(main, at));
      case CopyStore(main, at, _) => StoreTables(s, t, main, at);
      case AddStore(main, at) => StoreTables(s, t, main, at);
      case _ =>
    }
  }

  lemma NewAbsent(s: State, t: nat, k: nat)
    requires Sized(s) && AbsentFrom(s, t, 0) && k < |s.tables|
    ensures Absent(s.tables[k], t)
  {
  }

  // ---------------------------------------------------------------- the thread that moved

  lemma Present(s: State, t: nat, k: nat, at: nat)
    requires Sized(s) && t < |s.pcs| && OwnsSlot(s, t, k, at)
    ensures !AbsentFrom(s, t, 0)
  {
    hide Slot;
    assert !Absent(s.tables[k], t);
  }

  /** A thread that finds its key finds its producer beside it. */
  lemma FindsProducer(s: State, t: nat)
    requires Sized(s) && TablesOk(s) && t < |s.pcs| && PcOk(s, t) && Standing(s, t) && s.pcs[t].Looking?
    requires KeyAt(s, t, s.pcs[t].table, s.pcs[t].at) == t
    ensures var Looking(main, k, at) := s.pcs[t];
            && s.tables[k].values[Slot(s.hashes[t], at, s.tables[k].Capacity())] == s.producers[t] != NONE
            && 0 < s.tickets[t] < Limit(s.tables[main].Capacity())
  {
    hide Passed, Absent, AbsentFrom, Slot, Chained, Once;
    var Looking(main, k, at) := s.pcs[t];
    assert TableOk(s.tables[k], s.hashes, s.tickets) && ValuesOk(s, k);
    Present(s, t, k, at);
  }

  /** Only the program counter changes. */
  lemma GoFits(s: State, t: nat, pc: Pc)
    requires Sized(s) && t < |s.pcs| && PcFits(s, t, pc) && StandingFits(s, t, pc)
    ensures Sized(Go(s, t, pc)) && PcOk(Go(s, t, pc), t) && Standing(Go(s, t, pc), t)
  {
    hide Slot, Passed, Absent, AllAre;
  }

  lemma ReturnFits(s: State, t: nat)
    requires Sized(s) && t < |s.pcs| && s.producers[t] != NONE && StandingFits(s, t, Idle)
    ensures var s' := Return(s, t, s.producers[t]); Sized(s') && PcOk(s', t) && Standing(s', t)
  {
    hide Slot, Passed, Absent;
  }

  lemma OwnLooking(s: State, t: nat)
    requires Sized(s) && TablesOk(s) && Apart(s) && t < |s.pcs| && PcOk(s, t) && Standing(s, t) && s.pcs[t].Looking?
    ensures Sized(Step(s, t)) && PcOk(Step(s, t), t) && Standing(Step(s, t), t)
  {
    hide Slot, ValuesOk, Ticketed, Once, Chained, Passed, Absent, AllAre, Go, Return, PcOk, Standing;
    var Looking(main, k, at) := s.pcs[t];
    LookingFacts(s, t);
    assert TableOk(s.tables[k], s.hashes, s.tickets);
    var key := KeyAt(s, t, k, at);
    if key == t {
      FindsProducer(s, t);
      if k != main {
        FoundBelow(s, t);
        GoFits(s, t, Copying(main, 0, s.producers[t]));
      } else {
        ReturnFits(s, t);
      }
    } else if key == EMPTY {
      EmptyMeansAbsent(s.tables[k].keys, s.hashes, t, at);
      NotThere(s.tables[k], t);
      if k > 0 {
        PassedNone(s.tables[k - 1].keys, s.hashes[t], t);
        GoFits(s, t, Looking(main, k - 1, 0));
      } else {
        GoFits(s, t, Missing(main));
      }
    } else {
      ProbeEnds(s.tables[k].keys, s.hashes[t], t, at, s.tickets);
      GoFits(s, t, Looking(main, k, at + 1));
    }
  }

  lemma LookingFacts(s: State, t: nat)
    requires Sized(s) && t < |s.pcs| && PcOk(s, t) && Standing(s, t) && s.pcs[t].Looking?
    ensures StandingFits(s, t, Idle)
    ensures var Looking(main, k, at) := s.pcs[t]; k <= main < |s.tables| && ProbeOk(s, t, k, at) && AbsentFrom(s, t, k + 1)
  {
  }

  lemma FoundBelow(s: State, t: nat)
    requires Sized(s) && t < |s.pcs| && PcOk(s, t) && s.pcs[t].Looking? && s.pcs[t].table != s.pcs[t].main
    ensures var main := s.pcs[t].main; Absent(s.tables[main], t) && ProbeOk(s, t, main, 0)
  {
    hide Slot;
  }

  lemma PassedNone(keys: seq<int>, hash: nat, t: nat)
    ensures Passed(keys, hash, t, 0)
  {
  }

  lemma NotThere(table: Table, t: nat)
    requires forall p | 0 <= p < |table.keys| :: table.keys[p] != t
    ensures Absent(table, t)
  {
  }

  /** Passing a taken slot on the way to an empty one. */
  lemma NextProbe(s: State, t: nat, k: nat, at: nat)
    requires Sized(s) && TablesOk(s) && Apart(s) && t < |s.pcs| && ProbeOk(s, t, k, at) && Absent(s.tables[k], t)
    requires KeyAt(s, t, k, at) != EMPTY
    ensures ProbeOk(s, t, k, at + 1)
  {
    hide Slot, ValuesOk, Ticketed, Once, Chained, Passed;
    assert TableOk(s.tables[k], s.hashes, s.tickets);
    ProbeEnds(s.tables[k].keys, s.hashes[t], t, at, s.tickets);
  }

  lemma OwnCopying(s: State, t: nat)
    requires Sized(s) && TablesOk(s) && Apart(s) && t < |s.pcs| && PcOk(s, t) && Standing(s, t)
    requires s.pcs[t].Copying? || s.pcs[t].CopyClaim? || s.pcs[t].CopyStore?
    ensures Sized(Step(s, t)) && PcOk(Step(s, t), t) && Standing(Step(s, t), t)
  {
    hide Slot, TablesOk, Passed, Absent, Apart, AbsentFrom, AllAre, Go, Return, PutKey, PutValue;
    var k, at, value := s.pcs[t].main, s.pcs[t].at, s.pcs[t].value;
    if s.pcs[t].CopyStore? {
      KeysStay(s, t, k, at);
      ReturnFits(PutValue(s, t, k, at, value), t);
    } else if KeyAt(s, t, k, at) != EMPTY {
      NextProbe(s, t, k, at);
      GoFits(s, t, Copying(k, at + 1, value));
    } else if s.pcs[t].CopyClaim? {
      Claimed(s, t, k, at);
      GoFits(PutKey(s, t, k, at), t, CopyStore(k, at, value));
    } else {
      GoFits(s, t, CopyClaim(k, at, value));
    }
  }

  /** The thread's key is there before and after its value is stored. */
  lemma KeysStay(s: State, t: nat, k: nat, at: nat)
    requires Sized(s) && t < |s.pcs| && OwnsSlot(s, t, k, at)
    ensures var s' := PutValue(s, t, k, at, s.producers[t]);
            && Sized(s') && !AbsentFrom(s', t, 0) && !AbsentFrom(s, t, 0)
            && s' == s.(tables := s'.tables)
  {
    hide Slot;
    Present(PutValue(s, t, k, at, s.producers[t]), t, k, at);
    Present(s, t, k, at);
  }

  lemma Claimed(s: State, t: nat, k: nat, at: nat)
    requires Sized(s) && t < |s.pcs| && k < |s.tables| && at < s.tables[k].Capacity()
    ensures var s' := PutKey(s, t, k, at);
            && Sized(s') && OwnsSlot(s', t, k, at) && !AbsentFrom(s', t, 0)
            && s' == s.(tables := s'.tables) && |s'.tables| == |s.tables|
  {
    hide Slot;
    Present(PutKey(s, t, k, at), t, k, at);
  }

  lemma OwnAdding(s: State, t: nat)
    requires Sized(s) && TablesOk(s) && Apart(s) && t < |s.pcs| && PcOk(s, t) && Standing(s, t)
    requires s.pcs[t].Adding? || s.pcs[t].AddClaim? || s.pcs[t].AddStore?
    ensures Sized(Step(s, t)) && PcOk(Step(s, t), t) && Standing(Step(s, t), t)
  {
    hide Slot, TablesOk, Passed, Absent, Apart, AbsentFrom, AllAre, Go, Return, PutKey, PutValue;
    var k, at := s.pcs[t].main, s.pcs[t].at;
    if s.pcs[t].AddStore? {
      KeysStay(s, t, k, at);
      ReturnFits(PutValue(s, t, k, at, s.producers[t]), t);
    } else if KeyAt(s, t, k, at) != EMPTY {
      NewAbsent(s, t, k);
      NextProbe(s, t, k, at);
      GoFits(s, t, Adding(k, at + 1));
    } else if s.pcs[t].AddClaim? {
      Claimed(s, t, k, at);
      GoFits(PutKey(s, t, k, at), t, AddStore(k, at));
    } else {
      GoFits(s, t, AddClaim(k, at));
    }
  }

  lemma OwnOther(s: State, t: nat)
    requires Sized(s) && TablesOk(s) && Apart(s) && t < |s.pcs| && PcOk(s, t) && Standing(s, t)
    requires s.pcs[t].Idle? || s.pcs[t].Missing? || s.pcs[t].Counted? || Holding(s.pcs[t]) || s.pcs[t].Deciding?
    ensures Sized(Step(s, t)) && PcOk(Step(s, t), t) && Standing(Step(s, t), t)
  {
    hide Slot, TablesOk, Passed, Absent, Apart, AllAre, Go, Limit, NewCapacity;
    var ticket := s.tickets[t];
    match s.pcs[t]
    case Idle =>
      PassedNone(s.tables[Newest(s)].keys, s.hashes[t], t);
      GoFits(s, t, Looking(Newest(s), Newest(s), 0));
    case Missing(main) => GoFits(s.(count := s.count + 1, tickets := s.tickets[t := s.count + 1]), t, Counted(main));
    case Counted(main) => OwnCounted(s, t);
    case Locked(_) => OwnLocked(s, t);
    case Resizing(main) => OwnResizing(s, t);
    case Unlocking(main) => GoFits(s.(locked := false), t, Deciding(main));
    case Deciding(main) => OwnDeciding(s, t);
  }

  lemma OwnCounted(s: State, t: nat)
    requires Sized(s) && t < |s.pcs| && PcOk(s, t) && Standing(s, t) && s.pcs[t].Counted?
    ensures Sized(Step(s, t)) && PcOk(Step(s, t), t) && Standing(Step(s, t), t)
  {
    hide Slot, Passed, Absent, AllAre, Go, Limit;
    GoFits(s.(locked := true), t, Locked(s.pcs[t].main));
    GoFits(s, t, Deciding(s.pcs[t].main));
  }

  lemma OwnLocked(s: State, t: nat)
    requires Sized(s) && t < |s.pcs| && PcOk(s, t) && Standing(s, t) && s.pcs[t].Locked?
    ensures Sized(Step(s, t)) && PcOk(Step(s, t), t) && Standing(Step(s, t), t)
  {
    hide Slot, Passed, Absent, AllAre, Go, Limit;
    GoFits(s, t, Resizing(Newest(s)));
    GoFits(s, t, Unlocking(Newest(s)));
  }

  lemma OwnResizing(s: State, t: nat)
    requires Sized(s) && t < |s.pcs| && PcOk(s, t) && Standing(s, t) && s.pcs[t].Resizing?
    ensures Sized(Step(s, t)) && PcOk(Step(s, t), t) && Standing(Step(s, t), t)
  {
    hide Slot, Passed, Absent, AllAre, Go, NewCapacity;
    var capacity := NewCapacity(s.tickets[t], 2 * s.tables[s.pcs[t].main].Capacity());
    var s1 := s.(tables := s.tables + [EmptyTable(capacity)]);
    BlankAbsent(EmptyTable(capacity), t);
    GoFits(s1, t, Unlocking(|s.tables|));
  }

  lemma OwnDeciding(s: State, t: nat)
    requires Sized(s) && t < |s.pcs| && PcOk(s, t) && Standing(s, t) && s.pcs[t].Deciding?
    ensures Sized(Step(s, t)) && PcOk(Step(s, t), t) && Standing(Step(s, t), t)
  {
    hide Slot, Passed, Absent, Go, Limit;
    var main := s.pcs[t].main;
    PassedNone(s.tables[main].keys, s.hashes[t], t);
    if s.tickets[t] < Limit(s.tables[main].Capacity()) {
      GoFits(s.(created := s.created + 1, producers := s.producers[t := s.created]), t, Adding(main, 0));
    } else {
      GoFits(s, t, Counted(Newest(s)));
    }
  }

  lemma BlankAbsent(table: Table, t: nat)
    requires Blank(table)
    ensures Absent(table, t)
  {
  }

  // ---------------------------------------------------------------- all together

  /** Looking at a key changes the thread's place in the program and at most its results. */
  lemma LookFrame(s: State, t: nat)
    requires Sized(s) && t < |s.pcs| && InTable(s, t) && s.pcs[t].Looking?
    ensures var s' := Look(s, t);
            && s' == s.(pcs := s.pcs[t := s'.pcs[t]], results := s.results[t := s'.results[t]])
            && |s'.pcs| == |s.pcs| && |s'.results| == |s.results| && !Holding(s'.pcs[t])
  {
    hide Slot, KeyAt;
  }

  lemma StepSized(s: State, t: nat)
    requires Sized(s) && t < |s.pcs| && InTable(s, t)
    ensures Sized(Step(s, t)) && |Step(s, t).pcs| == |s.pcs|
  {
    hide Slot, NewCapacity, Look, KeyAt, Limit;
    if s.pcs[t].Resizing? { NewCapacityPositive(s.tickets[t], s.tables[s.pcs[t].main].Capacity()); }
    if s.pcs[t].Looking? { LookFrame(s, t); }
  }

  /** A step changes nothing of the other threads'. */
  lemma StepFrame(s: State, t: nat)
    requires Sized(s) && t < |s.pcs| && InTable(s, t)
    ensures var s' := Step(s, t);
            && Sized(s') && |s'.pcs| == |s.pcs| && s'.hashes == s.hashes
            && s'.count >= s.count && s'.created >= s.created
            && forall u: nat | u < |s.pcs| && u != t :: SameFor(s, s', u)
  {
    hide Slot, NewCapacity, Look, KeyAt, Limit, EmptyTable;
    StepSized(s, t);
    if s.pcs[t].Looking? { LookFrame(s, t); }
    hide Within;
  }

  lemma NewCapacityPositive(ticket: nat, capacity: nat)
    requires capacity > 0
    ensures NewCapacity(ticket, 2 * capacity) > 0
  {
  }

  lemma StepGains(s: State, t: nat)
    requires Sized(s) && t < |s.pcs| && InTable(s, t)
    ensures var s' := Step(s, t);
            && Sized(s') && |s.tables| <= |s'.tables| && (|s'.tables| == |s.tables| || s.pcs[t].Resizing?)
            && (forall k | 0 <= k < |s.tables| :: Gains(s.tables[k], s'.tables[k], t))
            && (forall k | |s.tables| <= k < |s'.tables| :: Blank(s'.tables[k]))
  {
    hide Slot, NewCapacity, Look, Limit;
    StepFrame(s, t);
    if s.pcs[t].Looking? { LookFrame(s, t); }
  }

  lemma OthersStay(s: State, t: nat, u: nat)
    requires Sized(s) && t < |s.pcs| && u < |s.pcs| && u != t && PcOk(s, t) && PcOk(s, u) && Standing(s, u) && Apart(s)
    ensures Sized(Step(s, t)) && u < |Step(s, t).pcs| && PcOk(Step(s, t), u) && Standing(Step(s, t), u)
  {
    hide Step, PcOk, Standing, Gains, Blank;
    assert InTable(s, t) by { WithinTable(s, t); }
    StepFrame(s, t);
    StepGains(s, t);
    assert Evolves(s, Step(s, t), t, u);
    OtherPc(s, Step(s, t), t, u);
    OtherStanding(s, Step(s, t), t, u);
  }

  lemma WithinTable(s: State, t: nat)
    requires Sized(s) && t < |s.pcs| && PcOk(s, t)
    ensures InTable(s, t)
  {
  }

  lemma OwnStays(s: State, t: nat)
    requires Inv(s) && t < |s.pcs|
    ensures InTable(s, t) && Sized(Step(s, t)) && PcOk(Step(s, t), t) && Standing(Step(s, t), t)
  {
    hide PcFits, StandingFits, TablesOk, Apart, Step;
    WithinTable(s, t);
    match s.pcs[t]
    case Looking(_, _, _) => OwnLooking(s, t);
    case Copying(_, _, _) => OwnCopying(s, t);
    case CopyClaim(_, _, _) => OwnCopying(s, t);
    case CopyStore(_, _, _) => OwnCopying(s, t);
    case Adding(_, _) => OwnAdding(s, t);
    case AddClaim(_, _) => OwnAdding(s, t);
    case AddStore(_, _) => OwnAdding(s, t);
    case _ => OwnOther(s, t);
  }

  /** What a step does to the things that are given out once. */
  lemma ShareFrame(s: State, t: nat)
    requires Sized(s) && t < |s.pcs| && InTable(s, t) && (Holding(s.pcs[t]) ==> s.locked)
    ensures var s' := Step(s, t);
            && Sized(s') && t < |s'.pcs|
            && (s'.tickets[t] == s.tickets[t] || s'.tickets[t] == s.count + 1)
            && (s'.producers[t] == s.producers[t] || s'.producers[t] == s.created)
            && (Holding(s'.pcs[t]) ==> s'.locked && (Holding(s.pcs[t]) || !s.locked))
            && (s'.locked == s.locked || s'.locked == Holding(s'.pcs[t]))
            && (s'.locked != s.locked ==> Holding(s.pcs[t]) || Holding(s'.pcs[t]))
            && (Holding(s.pcs[t]) && s.locked && s'.locked ==> Holding(s'.pcs[t]))
  {
    hide Slot, NewCapacity, Look, KeyAt, Limit;
    StepFrame(s, t);
    if s.pcs[t].Looking? { LookFrame(s, t); }
  }

  lemma StepApart(s: State, t: nat)
    requires Inv(s) && t < |s.pcs|
    ensures InTable(s, t) && Sized(Step(s, t)) && Apart(Step(s, t))
  {
    hide TablesOk, PcFits, Step, AbsentFrom, AllAre;
    assert PcOk(s, t);
    WithinTable(s, t);
    StepFrame(s, t);
    ShareFrame(s, t);
    var s' := Step(s, t);
    forall u: nat | u < |s.pcs| && u != t
      ensures s'.pcs[u] == s.pcs[u] && s'.tickets[u] == s.tickets[u] <= s.count
      ensures s'.producers[u] == s.producers[u] < s.created
    {
      assert SameFor(s, s', u) && Standing(s, u);
    }
    hide Sized, ThreadsOk;
  }

  lemma StepKeepsInv(s: State, t: nat)
    requires Inv(s) && t < |s.pcs|
    ensures InTable(s, t) && Inv(Step(s, t))
  {
    hide PcOk, Standing, TablesOk, Apart, Step;
    assert PcOk(s, t) && Standing(s, t);
    OwnStays(s, t);
    StepApart(s, t);
    StepTables(s, t);
    StepFrame(s, t);
    forall u: nat | u < |s.pcs| ensures PcOk(Step(s, t), u) && Standing(Step(s, t), u) {
      if u != t {
        assert PcOk(s, u) && Standing(s, u);
        OthersStay(s, t, u);
      }
    }
  }

  // ---------------------------------------------------------------- whole runs

  /** The run of a schedule: which thread makes the next step. */
  function Exec(s: State, schedule: seq<nat>): (s': State)
    requires Inv(s)
    ensures Inv(s') && |s'.pcs| == |s.pcs|
    decreases |schedule|
  {
    if schedule == [] then s
    else if schedule[0] < |s.pcs| then
      StepKeepsInv(s, schedule[0]);
      StepFrame(s, schedule[0]);
      Exec(Step(s, schedule[0]), schedule[1..])
    else Exec(s, schedule[1..])
  }

  lemma StartInv(capacity: nat, hashes: seq<nat>)
    requires capacity > 0
    ensures Inv(Start(capacity, hashes))
  {
    BlankOk(capacity, hashes, Start(capacity, hashes).tickets);
    BlankValues(Start(capacity, hashes), 0);
    hide Slot;
  }

  function Run(capacity: nat, hashes: seq<nat>, schedule: seq<nat>): (s: State)
    requires capacity > 0
    ensures Inv(s) && |s.pcs| == |hashes|
  {
    StartInv(capacity, hashes);
    Exec(Start(capacity, hashes), schedule)
  }

  /** Every call of one thread returns the same producer, and no two threads are ever given the same one,
      whatever they hash to and however lookups, insertions, copying and resizing interleave. */
  lemma OneProducerEach(capacity: nat, hashes: seq<nat>, schedule: seq<nat>, t: nat, i: nat, u: nat, j: nat)
    requires capacity > 0
    requires var s := Run(capacity, hashes, schedule);
             t < |s.pcs| && u < |s.pcs| && i < |s.results[t]| && j < |s.results[u]|
    ensures var s := Run(capacity, hashes, schedule);
            (s.results[t][i] == s.results[u][j] <==> t == u) && s.results[t][i] >= 0
  {
    var s := Run(capacity, hashes, schedule);
    hide Run, TablesOk, PcOk, AbsentFrom;
    assert Standing(s, t) && Standing(s, u);
  }

  /** No probe runs round a whole table, because no table is ever full. */
  lemma ProbesEnd(capacity: nat, hashes: seq<nat>, schedule: seq<nat>, t: nat, k: nat) returns (p: nat)
    requires capacity > 0
    requires var s := Run(capacity, hashes, schedule); t < |s.pcs| && k < |s.tables|
    ensures var s := Run(capacity, hashes, schedule);
            && InTable(s, t) && p < |s.tables[k].keys| && s.tables[k].keys[p] == EMPTY
  {
    var s := Run(capacity, hashes, schedule);
    hide Run, ValuesOk, Chained, Standing, PcFits;
    assert PcOk(s, t);
    WithinTable(s, t);
    assert TableOk(s.tables[k], s.hashes, s.tickets);
    p := SomeEmpty(s.tables[k].keys, s.tickets);
  }

  /** Whoever has just made a bigger table finds room in it at once. */
  lemma ResizerHasRoom(s: State, t: nat)
    requires Inv(s) && t < |s.pcs| && s.pcs[t].Resizing?
    ensures InTable(s, t)
    ensures var s' := Step(s, t);
            && Sized(s') && t < |s'.pcs| && s'.pcs[t].Unlocking? && s'.pcs[t].main == Newest(s')
            && s'.tickets[t] < Limit(s'.tables[s'.pcs[t].main].Capacity())
  {
    hide TablesOk, Apart, Standing;
    assert PcOk(s, t);
  }
}
