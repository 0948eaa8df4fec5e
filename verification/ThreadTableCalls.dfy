/** Calls of `get_or_add_implicit_producer` come back: while no other thread is resizing, a thread that is let run
    gets its producer (include/concurentqueue/concurrentqueue.h:3201-3349). */
module ThreadTableCalls {
  import opened ThreadTable
  import opened ThreadTableProof

  /** Slots in the first `k` tables, and one more for each. */
  function Below(tables: seq<Table>, k: nat): nat
    requires k <= |tables|
  {
    if k == 0 then 0 else Below(tables, k - 1) + tables[k - 1].Capacity() + 1
  }

  lemma {:induction false} BelowSame(a: seq<Table>, b: seq<Table>, k: nat)
    requires k <= |a| && k <= |b| && forall j | 0 <= j < k :: a[j].Capacity() == b[j].Capacity()
    ensures Below(a, k) == Below(b, k)
  {
    if k > 0 { BelowSame(a, b, k - 1); }
  }

  function Cap(s: State, k: nat): nat {
    if k < |s.tables| then s.tables[k].Capacity() else 0
  }

  /** The largest table that a thread with this ticket may make. */
  function Bigger(s: State, ticket: nat): (c: nat)
    requires |s.tables| > 0
  {
    var c := 2 * s.tables[Newest(s)].Capacity();
    if c > 0 then NewCapacity(ticket, c) else 0
  }

  function Left(capacity: nat, at: nat): nat { if at < capacity then capacity - at else 0 }

  /** How far thread `t` may still be from the end of its call. */
  function Rank(s: State, t: nat): nat
    requires Sized(s) && t < |s.pcs|
  {
    var ticket := s.tickets[t];
    match s.pcs[t]
    case Idle => 0
    case Looking(_, k, at) => (if k < |s.tables| then Below(s.tables, k) else 0) + Left(Cap(s, k), at) + 2 * Bigger(s, s.count + 1) + 9
    case Copying(main, at, _) => 2 * Left(Cap(s, main), at) + 2
    case CopyClaim(main, at, _) => 2 * Left(Cap(s, main), at) + 1
    case CopyStore(_, _, _) => 1
    case Missing(_) => 2 * Bigger(s, s.count + 1) + 8
    case Counted(_) => 2 * Bigger(s, ticket) + 7
    case Locked(_) => 2 * Bigger(s, ticket) + 6
    case Resizing(_) => 2 * Bigger(s, ticket) + 5
    case Unlocking(main) => if ticket < Limit(Cap(s, main)) then 2 * Cap(s, main) + 4 else 2 * Bigger(s, ticket) + 9
    case Deciding(main) => if ticket < Limit(Cap(s, main)) then 2 * Cap(s, main) + 3 else 2 * Bigger(s, ticket) + 8
    case Adding(main, at) => 2 * Left(Cap(s, main), at) + 2
    case AddClaim(main, at) => 2 * Left(Cap(s, main), at) + 1
    case AddStore(_, _) => 1
  }

  /** Nobody else holds the lock. */
  predicate Free(s: State, t: nat)
    requires t < |s.pcs|
  {
    s.locked ==> Holding(s.pcs[t])
  }

  /** The newest table is the largest. */
  lemma Largest(s: State, k: nat)
    requires Inv(s) && k < |s.tables|
    ensures 0 < s.tables[k].Capacity() <= s.tables[Newest(s)].Capacity()
  {
    assert s.tables[k].Valid();
    hide ThreadsOk, Apart, TableOk, ValuesOk;
  }

  lemma BiggerIs(s: State, ticket: nat)
    requires Inv(s)
    ensures Bigger(s, ticket) >= 2 * s.tables[Newest(s)].Capacity() > 0
    ensures Bigger(s, ticket) == NewCapacity(ticket, 2 * s.tables[Newest(s)].Capacity())
    ensures ticket < Limit(Bigger(s, ticket))
  {
    Largest(s, Newest(s));
    hide Inv, Limit;
  }

  lemma HalfBelowLimit(ticket: nat, capacity: nat)
    requires ticket < capacity / 2
    ensures ticket < Limit(capacity)
  {
  }

  lemma BiggerSame(s: State, r: State, ticket: nat)
    requires |s.tables| > 0 && |r.tables| == |s.tables| && r.tables[Newest(s)].Capacity() == s.tables[Newest(s)].Capacity()
    ensures Bigger(r, ticket) == Bigger(s, ticket)
  {
  }

  /** The step ends the call with a result, or brings the end nearer. */
  ghost predicate Nearer(s: State, t: nat, r: State)
    requires Sized(s) && Sized(r) && t < |s.pcs| == |r.pcs|
  {
    && Free(r, t)
    && (if r.pcs[t].Idle? then |r.results[t]| == |s.results[t]| + 1
        else Rank(r, t) < Rank(s, t) && r.results[t] == s.results[t])
  }

  /** What there is to know about the sizes of the tables before a step. */
  predicate Ready(s: State, t: nat) {
    && Sized(s) && t < |s.pcs| && InTable(s, t) && Free(s, t)
    && Sized(Step(s, t)) && |Step(s, t).pcs| == |s.pcs| && InTable(Step(s, t), t)
    && (forall k | 0 <= k < |s.tables| :: s.tables[k].Capacity() <= s.tables[Newest(s)].Capacity())
    && BigEnough(s, s.tickets[t]) && BigEnough(s, s.count + 1)
  }

  predicate BigEnough(s: State, ticket: nat)
    requires |s.tables| > 0
  {
    Bigger(s, ticket) >= 2 * s.tables[Newest(s)].Capacity() > 0 && ticket < Limit(Bigger(s, ticket))
  }

  lemma IsReady(s: State, t: nat)
    requires Inv(s) && t < |s.pcs| && Free(s, t)
    ensures Ready(s, t)
  {
    StepKeepsInv(s, t);
    StepFrame(s, t);
    StepKeepsInv(Step(s, t), t);
    BiggerIs(s, s.tickets[t]);
    BiggerIs(s, s.count + 1);
    forall k | 0 <= k < |s.tables| ensures s.tables[k].Capacity() <= s.tables[Newest(s)].Capacity() { Largest(s, k); }
    hide Inv, Step, Bigger, Limit, Within;
  }

  lemma LookNearer(s: State, t: nat)
    requires Ready(s, t) && s.pcs[t].Looking? && s.pcs[t].main < |s.tables|
    ensures Nearer(s, t, Step(s, t))
  {
    hide Slot, Limit, Bigger;
    BiggerSame(s, Step(s, t), s.count + 1);
  }

  lemma CopyingNearer(s: State, t: nat)
    requires Ready(s, t) && s.pcs[t].Copying?
    ensures Nearer(s, t, Step(s, t))
  {
    hide Slot, Limit, Bigger, Below;
  }

  lemma CopyClaimNearer(s: State, t: nat)
    requires Ready(s, t) && s.pcs[t].CopyClaim?
    ensures Nearer(s, t, Step(s, t))
  {
    hide Slot, Limit, Bigger, Below;
  }

  lemma StoreNearer(s: State, t: nat)
    requires Ready(s, t) && (s.pcs[t].CopyStore? || s.pcs[t].AddStore?)
    ensures Nearer(s, t, Step(s, t))
  {
    hide Slot, Limit, Bigger, Below;
  }

  lemma AddingNearer(s: State, t: nat)
    requires Ready(s, t) && s.pcs[t].Adding?
    ensures Nearer(s, t, Step(s, t))
  {
    hide Slot, Limit, Bigger, Below;
  }

  lemma AddClaimNearer(s: State, t: nat)
    requires Ready(s, t) && s.pcs[t].AddClaim?
    ensures Nearer(s, t, Step(s, t))
  {
    hide Slot, Limit, Bigger, Below;
  }

  lemma MissingNearer(s: State, t: nat)
    requires Ready(s, t) && s.pcs[t].Missing?
    ensures Nearer(s, t, Step(s, t))
  {
    hide Slot, Limit, Bigger, Below;
    BiggerSame(s, Step(s, t), s.count + 1);
  }

  lemma CountedNearer(s: State, t: nat)
    requires Ready(s, t) && s.pcs[t].Counted?
    ensures Nearer(s, t, Step(s, t))
  {
    var main, ticket := s.pcs[t].main, s.tickets[t];
    if ticket < s.tables[main].Capacity() / 2 { HalfBelowLimit(ticket, s.tables[main].Capacity()); }
    hide Slot, Limit, Bigger, Below;
    BiggerSame(s, Step(s, t), ticket);
  }

  lemma DecidingNearer(s: State, t: nat)
    requires Ready(s, t) && s.pcs[t].Deciding?
    ensures Nearer(s, t, Step(s, t))
  {
    hide Slot, Limit, Bigger, Below;
    BiggerSame(s, Step(s, t), s.tickets[t]);
  }

  lemma LockedNearer(s: State, t: nat)
    requires Ready(s, t) && s.pcs[t].Locked?
    ensures Nearer(s, t, Step(s, t))
  {
    var capacity, ticket := s.tables[Newest(s)].Capacity(), s.tickets[t];
    if ticket < capacity / 2 { HalfBelowLimit(ticket, capacity); }
    hide Slot, Limit, Bigger, Below;
    BiggerSame(s, Step(s, t), ticket);
  }

  lemma UnlockingNearer(s: State, t: nat)
    requires Ready(s, t) && s.pcs[t].Unlocking?
    ensures Nearer(s, t, Step(s, t))
  {
    hide Slot, Limit, Bigger, Below;
    BiggerSame(s, Step(s, t), s.tickets[t]);
  }

  lemma ResizingNearer(s: State, t: nat)
    requires Ready(s, t) && s.pcs[t] == Resizing(Newest(s))
    ensures Nearer(s, t, Step(s, t))
  {
    hide Slot, Limit, NewCapacity, Below;
  }

  lemma StepNearer(s: State, t: nat)
    requires Inv(s) && t < |s.pcs| && !s.pcs[t].Idle? && Free(s, t)
    ensures InTable(s, t) && Inv(Step(s, t)) && |Step(s, t).pcs| == |s.pcs| && Nearer(s, t, Step(s, t))
  {
    StepKeepsInv(s, t);
    StepFrame(s, t);
    IsReady(s, t);
    assert PcOk(s, t);
    hide Inv, Step, Nearer, Ready, Limit;
    match s.pcs[t]
    case Looking(_, _, _) => LookNearer(s, t);
    case Copying(_, _, _) => CopyingNearer(s, t);
    case CopyClaim(_, _, _) => CopyClaimNearer(s, t);
    case CopyStore(_, _, _) => StoreNearer(s, t);
    case Adding(_, _) => AddingNearer(s, t);
    case AddClaim(_, _) => AddClaimNearer(s, t);
    case AddStore(_, _) => StoreNearer(s, t);
    case Missing(_) => MissingNearer(s, t);
    case Counted(_) => CountedNearer(s, t);
    case Deciding(_) => DecidingNearer(s, t);
    case Locked(_) => LockedNearer(s, t);
    case Unlocking(_) => UnlockingNearer(s, t);
    case Resizing(_) => ResizingNearer(s, t);
  }

  /** Thread `t` makes `n` steps. */
  function Alone(t: nat, n: nat): seq<nat> { seq(n, _ => t) }

  lemma ExecFirst(s: State, t: nat, n: nat)
    requires Inv(s) && t < |s.pcs|
    ensures InTable(s, t) && Inv(Step(s, t)) && |Step(s, t).pcs| == |s.pcs|
    ensures Exec(s, Alone(t, n + 1)) == Exec(Step(s, t), Alone(t, n))
  {
    StepKeepsInv(s, t);
    StepFrame(s, t);
    hide Inv, Step;
    assert Alone(t, n + 1)[1..] == Alone(t, n);
  }

  /** Some `n` steps of a thread that is let run end its call, which adds one to its results. */
  lemma {:induction false} RunsToEnd(s: State, t: nat) returns (n: nat)
    requires Inv(s) && t < |s.pcs| && !s.pcs[t].Idle? && Free(s, t)
    ensures var r := Exec(s, Alone(t, n));
            Inv(r) && |r.pcs| == |s.pcs| && r.pcs[t].Idle? && |r.results[t]| == |s.results[t]| + 1
    decreases Rank(s, t)
  {
    StepNearer(s, t);
    hide Inv, Step, Exec, Rank;
    var s' := Step(s, t);
    if s'.pcs[t].Idle? {
      n := 1;
      ExecFirst(s, t, 0);
      NoSteps(s', t);
    } else {
      n := RunsToEnd(s', t);
      ExecFirst(s, t, n);
      n := n + 1;
    }
  }

  lemma NoSteps(s: State, t: nat)
    requires Inv(s)
    ensures Exec(s, Alone(t, 0)) == s
  {
  }

  // ---------------------------------------------------------------- in every reachable state

  predicate LockHeld(s: State) {
    s.locked ==> exists h :: 0 <= h < |s.pcs| && Holding(s.pcs[h])
  }

  lemma LockStep(s: State, t: nat)
    requires Inv(s) && t < |s.pcs| && LockHeld(s)
    ensures Sized(s) && InTable(s, t) && LockHeld(Step(s, t))
  {
    StepKeepsInv(s, t);
    StepFrame(s, t);
    ShareFrame(s, t);
    hide Inv, Step;
    var r := Step(s, t);
    if r.locked && !Holding(r.pcs[t]) {
      var h :| 0 <= h < |s.pcs| && Holding(s.pcs[h]);
      assert SameFor(s, r, h);
      assert Holding(r.pcs[h]);
    }
  }

  lemma {:induction false} LockAlwaysHeld(s: State, schedule: seq<nat>)
    requires Inv(s) && LockHeld(s)
    ensures LockHeld(Exec(s, schedule))
    decreases |schedule|
  {
    hide Inv, Step, LockHeld;
    if schedule != [] {
      if schedule[0] < |s.pcs| {
        StepKeepsInv(s, schedule[0]);
        LockStep(s, schedule[0]);
        LockAlwaysHeld(Step(s, schedule[0]), schedule[1..]);
      } else {
        LockAlwaysHeld(s, schedule[1..]);
      }
    }
  }

  /** Over every run: a call comes back if its thread is let run while no other is resizing, and what it returns is the
      thread's producer, the same as ever. */
  lemma CallsComeBack(capacity: nat, hashes: seq<nat>, schedule: seq<nat>, t: nat) returns (n: nat)
    requires capacity > 0 && t < |hashes|
    requires var s := Run(capacity, hashes, schedule);
             !s.pcs[t].Idle? && forall u | 0 <= u < |s.pcs| && u != t :: !Holding(s.pcs[u])
    ensures var s := Run(capacity, hashes, schedule);
            var r := Exec(s, Alone(t, n));
            && r.pcs[t].Idle? && |r.results[t]| == |s.results[t]| + 1
            && forall i | 0 <= i < |r.results[t]| :: r.results[t][i] == r.producers[t] != NONE
  {
    var s := Run(capacity, hashes, schedule);
    StartInv(capacity, hashes);
    LockAlwaysHeld(Start(capacity, hashes), schedule);
    hide Exec, Start, Rank;
    n := RunsToEnd(s, t);
    assert Standing(Exec(s, Alone(t, n)), t);
  }
}
