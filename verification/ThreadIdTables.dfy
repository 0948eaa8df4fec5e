/** The chain of thread-id tables as the program has it: arrays of keys and values that the threads fill in
    place (include/concurentqueue/concurrentqueue.h:3201-3349). */
module ThreadIdTables {
  import opened ThreadTable
  import opened ThreadTableProof

  /** One table of the chain. */
  class ProducerHash {
    const keys: array<int>
    const values: array<int>

    constructor (capacity: nat)
      ensures fresh(keys) && fresh(values) && keys != values
      ensures View() == EmptyTable(capacity)
    {
      keys := new int[capacity];
      values := new int[capacity](_ => NONE);
      new;
      var i := 0;
      while i != capacity
        invariant i <= capacity
        invariant forall k | 0 <= k < i :: keys[k] == EMPTY
        invariant forall k | 0 <= k < capacity :: values[k] == NONE
      {
        keys[i] := EMPTY;
        i := i + 1;
      }
      assert keys[..] == EmptyTable(capacity).keys;
      assert values[..] == EmptyTable(capacity).values;
    }

    ghost function View(): Table
      reads keys, values
    {
      Table(keys[..], values[..])
    }
  }

  ghost function Arrays(chain: seq<ProducerHash>): set<array<int>> {
    (set k | 0 <= k < |chain| :: chain[k].keys) + (set k | 0 <= k < |chain| :: chain[k].values)
  }

  ghost function Views(chain: seq<ProducerHash>): (v: seq<Table>)
    reads Arrays(chain)
    ensures |v| == |chain| && forall k | 0 <= k < |chain| :: v[k] == chain[k].View()
  {
    seq(|chain|, k requires 0 <= k < |chain| reads Arrays(chain) => chain[k].View())
  }

  ghost predicate Separate(chain: seq<ProducerHash>) {
    && (forall i, j | 0 <= i < j < |chain| :: chain[i].keys != chain[j].keys && chain[i].values != chain[j].values)
    && (forall i, j | 0 <= i < |chain| && 0 <= j < |chain| :: chain[i].keys != chain[j].values)
  }

  lemma ProbeIs(s: State, t: nat)
    requires Sized(s) && t < |s.pcs| && InTable(s, t) && (s.pcs[t].Copying? || s.pcs[t].Adding?)
    ensures var main, at := s.pcs[t].main, s.pcs[t].at;
            && main < |s.tables| && at < s.tables[main].Capacity()
            && Step(s, t) == Go(s, t,
                 if KeyAt(s, t, main, at) == EMPTY then
                   if s.pcs[t].Copying? then CopyClaim(main, at, s.pcs[t].value) else AddClaim(main, at)
                 else
                   if s.pcs[t].Copying? then Copying(main, at + 1, s.pcs[t].value) else Adding(main, at + 1))
  {
    hide KeyAt, Sized;
  }

  lemma ClaimIs(s: State, t: nat)
    requires Sized(s) && t < |s.pcs| && InTable(s, t) && (s.pcs[t].CopyClaim? || s.pcs[t].AddClaim?)
    ensures var main, at := s.pcs[t].main, s.pcs[t].at;
            && main < |s.tables| && at < s.tables[main].Capacity()
            && Step(s, t) ==
               if KeyAt(s, t, main, at) != EMPTY then
                 Go(s, t, if s.pcs[t].CopyClaim? then Copying(main, at + 1, s.pcs[t].value) else Adding(main, at + 1))
               else
                 Go(PutKey(s, t, main, at), t,
                    if s.pcs[t].CopyClaim? then CopyStore(main, at, s.pcs[t].value) else AddStore(main, at))
  {
    hide KeyAt, PutKey, Sized;
  }

  lemma ResizeIs(s: State, t: nat)
    requires Sized(s) && t < |s.pcs| && InTable(s, t) && s.pcs[t].Resizing?
    ensures var main := s.pcs[t].main;
            && main < |s.tables|
            && Step(s, t) ==
               s.(tables := s.tables + [EmptyTable(NewCapacity(s.tickets[t], 2 * s.tables[main].Capacity()))],
                  pcs := s.pcs[t := Unlocking(|s.tables|)])
  {
    hide NewCapacity, EmptyTable;
  }

  class ThreadIdTable {
    /** The newest table is the last, the `prev` of each the one before it. */
    var chain: seq<ProducerHash>
    var implicitProducerHashCount: nat
    var resizeInProgress: bool
    var created: nat
    /** Where each thread is, with its local variables, and the hash of its id. */
    var pcs: seq<Pc>
    const hashes: seq<nat>
    var tickets: seq<nat>
    var producers: seq<int>
    ghost var results: seq<seq<int>>

    ghost function View(): State
      reads this, Arrays(chain)
    {
      State(Views(chain), implicitProducerHashCount, resizeInProgress, created,
            pcs, hashes, tickets, producers, results)
    }

    ghost predicate Valid()
      reads this, Arrays(chain)
    {
      Separate(chain) && Inv(View())
    }

    constructor (capacity: nat, hashes: seq<nat>)
      requires capacity > 0
      ensures Valid() && View() == Start(capacity, hashes) && fresh(Arrays(chain))
    {
      var first := new ProducerHash(capacity);
      chain, implicitProducerHashCount, resizeInProgress, created := [first], 0, false, 0;
      pcs := seq(|hashes|, _ => Idle);
      this.hashes := hashes;
      tickets, producers := seq(|hashes|, _ => 0), seq(|hashes|, _ => NONE);
      results := seq(|hashes|, _ => []);
      new;
      assert View() == Start(capacity, hashes) by {
        assert Views(chain) == [EmptyTable(capacity)];
      }
      StartInv(capacity, hashes);
    }

    lemma Fits(t: nat)
      requires Valid() && t < |pcs|
      ensures Sized(View()) && InTable(View(), t)
      ensures 0 < |chain| && forall k | 0 <= k < |chain| :: chain[k].keys.Length == chain[k].values.Length > 0
    {
      assert PcOk(View(), t);
      WithinTable(View(), t);
      hide Inv, Within;
      forall k | 0 <= k < |chain| ensures chain[k].keys.Length == chain[k].values.Length > 0 {
        assert View().tables[k].Valid() && View().tables[k] == chain[k].View();
      }
    }

    /** A key that a probe looks at. */
    method LoadKey(t: nat, k: nat, at: nat) returns (key: int)
      requires Sized(View()) && t < |pcs| && k < |chain| && at < View().tables[k].Capacity()
      requires chain[k].keys.Length == View().tables[k].Capacity()
      ensures key == KeyAt(View(), t, k, at)
    {
      assert View().tables[k] == chain[k].View();
      key := chain[k].keys[Slot(hashes[t], at, chain[k].keys.Length)];
    }

    method StepLooking(t: nat)
      requires Valid() && t < |pcs| && pcs[t].Looking?
      modifies `pcs, `results
      ensures InTable(old(View()), t) && View() == Step(old(View()), t)
    {
      Fits(t);
      hide Inv, Slot, Separate;
      var Looking(main, k, at) := pcs[t];
      assert View().tables[k] == chain[k].View();
      var key := LoadKey(t, k, at);
      hide Views, KeyAt;
      if key == t {
        var value := chain[k].values[Slot(hashes[t], at, chain[k].keys.Length)];
        if k != main {
          pcs := pcs[t := Copying(main, 0, value)];
        } else {
          pcs, results := pcs[t := Idle], results[t := results[t] + [value]];
        }
      } else if key == EMPTY {
        pcs := pcs[t := if k > 0 then Looking(main, k - 1, 0) else Missing(main)];
      } else {
        pcs := pcs[t := Looking(main, k, at + 1)];
      }
    }

    /** The load that comes before a compare-exchange. */
    method StepProbe(t: nat)
      requires Valid() && t < |pcs| && (pcs[t].Copying? || pcs[t].Adding?)
      modifies `pcs
      ensures InTable(old(View()), t) && View() == Step(old(View()), t)
    {
      Fits(t);
      ProbeIs(View(), t);
      assert View().tables[pcs[t].main] == chain[pcs[t].main].View();
      hide Inv, Slot, Separate, KeyAt, Step, InTable, Views, Go;
      var main, at := pcs[t].main, pcs[t].at;
      var key := LoadKey(t, main, at);
      var pc;
      if pcs[t].Copying? {
        pc := if key == EMPTY then CopyClaim(main, at, pcs[t].value) else Copying(main, at + 1, pcs[t].value);
      } else {
        pc := if key == EMPTY then AddClaim(main, at) else Adding(main, at + 1);
      }
      hide Sized;
      GoTo(t, pc);
    }

    /** `compare_exchange_strong(empty, id)` */
    method ExchangeKey(t: nat, k: nat, at: nat) returns (won: bool)
      requires Sized(View()) && Separate(chain) && t < |pcs| && k < |chain| && at < View().tables[k].Capacity()
      modifies Arrays(chain)
      ensures won <==> old(KeyAt(View(), t, k, at)) == EMPTY
      ensures View() == if won then PutKey(old(View()), t, k, at) else old(View())
    {
      assert View().tables[k] == chain[k].View();
      var p := Slot(hashes[t], at, chain[k].keys.Length);
      won := chain[k].keys[p] == EMPTY;
      if won {
        ghost var before := Views(chain);
        assert forall j | 0 <= j < |chain| :: before[j] == chain[j].View();
        chain[k].keys[p] := t;
        ghost var table := before[k];
        assert chain[k].keys[..] == table.keys[p := t];
        forall j | 0 <= j < |chain| && j != k ensures chain[j].View() == before[j] {
        }
        assert Views(chain) == before[k := table.(keys := table.keys[p := t])];
      }
    }

    method StoreValue(t: nat, k: nat, at: nat, value: int)
      requires Sized(View()) && Separate(chain) && t < |pcs| && k < |chain| && at < View().tables[k].Capacity()
      modifies Arrays(chain)
      ensures View() == PutValue(old(View()), t, k, at, value)
    {
      assert View().tables[k] == chain[k].View() && View().tables[k].Valid();
      var p := Slot(hashes[t], at, chain[k].keys.Length);
      ghost var before := Views(chain);
      assert forall j | 0 <= j < |chain| :: before[j] == chain[j].View();
      chain[k].values[p] := value;
      ghost var table := before[k];
      assert chain[k].values[..] == table.values[p := value];
      forall j | 0 <= j < |chain| && j != k ensures chain[j].View() == before[j] {
      }
      assert Views(chain) == before[k := table.(values := table.values[p := value])];
    }

    /** A compare-exchange on a slot, and where the thread goes on to from it. */
    method ClaimSlot(t: nat, k: nat, at: nat, won: Pc, lost: Pc)
      requires Sized(View()) && Separate(chain) && t < |pcs| && k < |chain| && at < View().tables[k].Capacity()
      modifies `pcs, Arrays(chain)
      ensures View() == if old(KeyAt(View(), t, k, at)) == EMPTY then Go(PutKey(old(View()), t, k, at), t, won)
                        else Go(old(View()), t, lost)
    {
      hide Slot, Separate, KeyAt, PutKey, Views, Sized, Go;
      var exchanged := ExchangeKey(t, k, at);
      GoTo(t, if exchanged then won else lost);
    }

    /** What a compare-exchange comes to. */
    lemma ClaimReady(t: nat)
      requires Valid() && t < |pcs| && (pcs[t].CopyClaim? || pcs[t].AddClaim?)
      ensures Sized(View()) && Separate(chain) && InTable(View(), t)
      ensures var main, at := pcs[t].main, pcs[t].at;
              && main < |chain| && at < View().tables[main].Capacity()
              && Step(View(), t) ==
                 if KeyAt(View(), t, main, at) == EMPTY then
                   Go(PutKey(View(), t, main, at), t,
                      if pcs[t].CopyClaim? then CopyStore(main, at, pcs[t].value) else AddStore(main, at))
                 else
                   Go(View(), t, if pcs[t].CopyClaim? then Copying(main, at + 1, pcs[t].value) else Adding(main, at + 1))
    {
      Fits(t);
      ClaimIs(View(), t);
      hide Inv, Slot, Separate, KeyAt, PutKey, Step, InTable, Views, Sized, Go;
    }

    method StepClaim(t: nat)
      requires Valid() && t < |pcs| && (pcs[t].CopyClaim? || pcs[t].AddClaim?)
      modifies `pcs, Arrays(chain)
      ensures InTable(old(View()), t) && View() == Step(old(View()), t)
    {
      hide Separate, Views, Arrays, Slot;
      ClaimReady(t);
      hide *;
      var main, at := pcs[t].main, pcs[t].at;
      if pcs[t].CopyClaim? {
        ClaimSlot(t, main, at, CopyStore(main, at, pcs[t].value), Copying(main, at + 1, pcs[t].value));
      } else {
        ClaimSlot(t, main, at, AddStore(main, at), Adding(main, at + 1));
      }
    }

    /** The thread's own next state. */
    method GoTo(t: nat, pc: Pc)
      requires t < |pcs|
      modifies `pcs
      ensures View() == Go(old(View()), t, pc) && chain == old(chain)
    {
      hide Views;
      pcs := pcs[t := pc];
    }

    method StepStore(t: nat)
      requires Valid() && t < |pcs| && (pcs[t].CopyStore? || pcs[t].AddStore?)
      modifies `pcs, `results, Arrays(chain)
      ensures InTable(old(View()), t) && View() == Step(old(View()), t)
    {
      Fits(t);
      hide Inv, Slot, Separate, PutValue;
      var value := if pcs[t].CopyStore? then pcs[t].value else producers[t];
      StoreValue(t, pcs[t].main, pcs[t].at, value);
      pcs, results := pcs[t := Idle], results[t := results[t] + [value]];
    }

    /** The start of a call, the count, and the race for the resize flag. */
    method StepCount(t: nat)
      requires Valid() && t < |pcs| && (pcs[t].Idle? || pcs[t].Missing? || pcs[t].Counted?)
      modifies `pcs, `implicitProducerHashCount, `tickets, `resizeInProgress
      ensures InTable(old(View()), t) && View() == Step(old(View()), t)
    {
      Fits(t);
      hide Inv, Slot, Separate, Views;
      match pcs[t] {
        case Idle =>
          pcs := pcs[t := Looking(|chain| - 1, |chain| - 1, 0)];
        case Missing(main) =>
          implicitProducerHashCount := implicitProducerHashCount + 1;
          tickets := tickets[t := implicitProducerHashCount];
          pcs := pcs[t := Counted(main)];
        case Counted(main) =>
          RaceToResize(t, main);
      }
    }

    /** `resizeInProgress.test_and_set`, if the table is half full. */
    method RaceToResize(t: nat, main: nat)
      requires Valid() && t < |pcs| && pcs[t] == Counted(main)
      modifies `pcs, `resizeInProgress
      ensures InTable(old(View()), t) && View() == Step(old(View()), t)
    {
      Fits(t);
      assert View().tables[main] == chain[main].View();
      hide Inv, Slot, Separate, Views;
      if tickets[t] >= chain[main].keys.Length / 2 && !resizeInProgress {
        resizeInProgress := true;
        pcs := pcs[t := Locked(main)];
      } else {
        pcs := pcs[t := Deciding(main)];
      }
    }

    method StepLocked(t: nat)
      requires Valid() && t < |pcs| && (pcs[t].Locked? || pcs[t].Unlocking?)
      modifies `pcs, `resizeInProgress
      ensures InTable(old(View()), t) && View() == Step(old(View()), t)
    {
      Fits(t);
      hide Inv, Slot, Separate, Views;
      match pcs[t] {
        case Locked(_) =>
          var main := |chain| - 1;
          assert View().tables[main] == chain[main].View();
          pcs := pcs[t := if tickets[t] >= chain[main].keys.Length / 2 then Resizing(main) else Unlocking(main)];
        case Unlocking(main) =>
          resizeInProgress := false;
          pcs := pcs[t := Deciding(main)];
      }
    }

    /** A bigger table goes to the front of the chain. */
    method StepResize(t: nat)
      requires Valid() && t < |pcs| && pcs[t].Resizing?
      modifies `pcs, `chain
      ensures InTable(old(View()), t) && View() == Step(old(View()), t)
      ensures Separate(chain)
      ensures fresh(Arrays(chain) - old(Arrays(chain)))
    {
      Fits(t);
      ResizeIs(View(), t);
      hide Inv, Slot, Step, NewCapacity, EmptyTable, InTable;
      var main := pcs[t].main;
      assert View().tables[main] == chain[main].View();
      var newCapacity := ComputeNewCapacity(tickets[t], chain[main].keys.Length);
      pcs := pcs[t := Unlocking(|chain|)];
      hide Views, Separate, Sized;
      NewHash(newCapacity);
    }

    /** A blank table, which becomes the newest. */
    method NewHash(capacity: nat)
      requires Separate(chain)
      modifies `chain
      ensures Separate(chain) && fresh(Arrays(chain) - old(Arrays(chain)))
      ensures View() == old(View()).(tables := old(View()).tables + [EmptyTable(capacity)])
    {
      ghost var before := Views(chain);
      var newHash := new ProducerHash(capacity);
      chain := chain + [newHash];
      assert Views(chain) == before + [EmptyTable(capacity)];
    }

    method StepDecide(t: nat)
      requires Valid() && t < |pcs| && pcs[t].Deciding?
      modifies `pcs, `created, `producers
      ensures InTable(old(View()), t) && View() == Step(old(View()), t)
    {
      Fits(t);
      hide Inv, Slot, Separate;
      var main := pcs[t].main;
      assert View().tables[main] == chain[main].View();
      if tickets[t] < chain[main].keys.Length / 2 + chain[main].keys.Length / 4 {
        producers, created := producers[t := created], created + 1;
        pcs := pcs[t := Adding(main, 0)];
      } else {
        pcs := pcs[t := Counted(|chain| - 1)];
      }
    }

    /** One step of thread `t` in `get_or_add_implicit_producer`. */
    method StepThread(t: nat)
      requires Valid() && t < |pcs|
      modifies this, Arrays(chain)
      ensures Valid() && InTable(old(View()), t) && View() == Step(old(View()), t)
      ensures fresh(Arrays(chain) - old(Arrays(chain)))
    {
      StepKeepsInv(View(), t);
      hide Inv, Step, Separate, Views;
      if pcs[t].Looking? {
        StepLooking(t);
      } else if pcs[t].Copying? || pcs[t].Adding? {
        StepProbe(t);
      } else if pcs[t].CopyClaim? || pcs[t].AddClaim? {
        StepClaim(t);
      } else if pcs[t].CopyStore? || pcs[t].AddStore? {
        StepStore(t);
      } else if pcs[t].Locked? || pcs[t].Unlocking? {
        StepLocked(t);
      } else if pcs[t].Resizing? {
        StepResize(t);
      } else if pcs[t].Deciding? {
        StepDecide(t);
      } else {
        StepCount(t);
      }
    }

    /** A step of thread `t`, if there is one. */
    method Turn(t: nat)
      requires Valid()
      modifies this, Arrays(chain)
      ensures Valid()
      ensures t < |old(View()).pcs| ==> InTable(old(View()), t)
      ensures View() == if t < |old(View()).pcs| then Step(old(View()), t) else old(View())
      ensures fresh(Arrays(chain) - old(Arrays(chain)))
    {
      hide Inv, Step, Separate, Views, InTable;
      if t < |pcs| { StepThread(t); }
    }

    /** Any interleaving of the threads. */
    method Execute(schedule: seq<nat>)
      requires Valid()
      modifies this, Arrays(chain)
      ensures Valid() && View() == Exec(old(View()), schedule)
      ensures fresh(Arrays(chain) - old(Arrays(chain)))
    {
      hide Inv, Step, Separate, Views, InTable, Sized;
      var i := 0;
      while i < |schedule|
        invariant 0 <= i <= |schedule| && Valid()
        invariant fresh(Arrays(chain) - old(Arrays(chain)))
        invariant Exec(View(), schedule[i..]) == Exec(old(View()), schedule)
      {
        assert schedule[i..][0] == schedule[i] && schedule[i..][1..] == schedule[i + 1..];
        Turn(schedule[i]);
        i := i + 1;
      }
    }
  }
}
