/** Why the comparisons that a dequeue makes on wrapped-around counters are the true ones
    (include/concurentqueue/concurrentqueue.h:1794-1886, 2382-2451, 2604-2704): the tickets keep the two sides
    less than half the range apart, as long as the loads of a call do not get too old. */
module DequeueWindow {
  import opened CircularIndex
  import opened DequeueTickets
  import opened DequeueTicketsProof

  /** Tickets drawn and neither claimed nor counted as overcommitted. */
  function Outstanding<T>(s: State<T>): int { s.optimistic - s.overcommit - s.head }

  lemma OutstandingNotNegative<T>(s: State<T>)
    requires Inv(s)
    ensures Outstanding(s) >= 0
  {
    CountAll(s.tickets);
    hide Tended, Justified, HoldsOwn, StaleOk;
  }

  /** Everything only grows from `s` to `r`. */
  predicate Later<T>(s: State<T>, r: State<T>) {
    s.Tail() <= r.Tail() && s.head <= r.head && s.optimistic <= r.optimistic && s.overcommit <= r.overcommit
  }

  /** What a thread has loaded, it has loaded since `s`; what it drew, it drew when the head was past that of `s`. */
  predicate Loaded<T>(s: State<T>, l: Local) {
    match l
    case ReadOvercommit(_, tail) => s.Tail() <= tail
    case ReadOptimistic(_, tail, oc) => s.Tail() <= tail && s.overcommit <= oc
    case Draw(_, oc) => s.overcommit <= oc
    case Recheck(mine, _, oc) => s.overcommit <= oc && s.head <= mine - oc
    case _ => true
  }

  lemma StepIsLater<T>(r: State<T>, a: Action<T>)
    requires Inv(r) && Enabled(r, a)
    ensures Inv(Apply(r, a)) && Later(r, Apply(r, a)) && |Apply(r, a).threads| == |r.threads|
    ensures forall t | 0 <= t < |r.threads| && !(a.Go? && a.t == t) ::
              Apply(r, a).threads[t] == r.threads[t] || Apply(r, a).threads[t].ReadTail?
  {
    hide Fill, HoldsOwn, StaleOk, Tended, Justified, Count;
    if a.Go? { Own(r, a.t); }
  }

  lemma StepLoads<T>(s: State<T>, r: State<T>, t: nat)
    requires Inv(r) && t < |r.threads| && !r.threads[t].Idle? && Later(s, r) && Loaded(s, r.threads[t])
    ensures Inv(Apply(r, Go(t))) && t < |Apply(r, Go(t)).threads| && Loaded(s, Apply(r, Go(t)).threads[t])
  {
    OutstandingNotNegative(r);
    Own(r, t);
    assert r.threads[t].Draw? ==> r.threads[t].overcommit <= r.overcommit;
    hide Inv, HoldsOwn, StaleOk;
    LocalLoads(s, r, t);
    hide Step, Loaded;
  }

  lemma LocalLoads<T>(s: State<T>, r: State<T>, t: nat)
    requires t < |r.threads| && !r.threads[t].Idle? && HoldsOwn(r.threads[t], t, r.tickets)
    requires Later(s, r) && Loaded(s, r.threads[t]) && Outstanding(r) >= 0
    requires r.threads[t].Draw? ==> r.threads[t].overcommit <= r.overcommit
    ensures t < |Step(r, t).threads| && Loaded(s, Step(r, t).threads[t])
  {
    if r.threads[t].Recheck? || r.threads[t].Shortfall? || r.threads[t].Claim? || r.threads[t].GiveBack? {
      LateLocal(r, t);
      hide Step;
    }
    hide HoldsOwn;
  }

  /** Past the second comparison nothing is loaded any more. */
  lemma LateLocal<T>(r: State<T>, t: nat)
    requires t < |r.threads| && HoldsOwn(r.threads[t], t, r.tickets)
    requires r.threads[t].Recheck? || r.threads[t].Shortfall? || r.threads[t].Claim? || r.threads[t].GiveBack?
    ensures t < |Step(r, t).threads|
    ensures var l := Step(r, t).threads[t]; l.Shortfall? || l.Claim? || l.GiveBack? || l.Idle?
  {
    hide Fill;
  }

  /** So it stays over every run. */
  lemma {:induction false} RunLoads<T>(s: State<T>, r: State<T>, schedule: seq<Action<T>>, t: nat)
    requires Inv(r) && t < |r.threads| && Later(s, r) && Loaded(s, r.threads[t])
    ensures var r' := Exec(r, schedule); t < |r'.threads| && Later(s, r') && Loaded(s, r'.threads[t])
    decreases |schedule|
  {
    hide Inv, Apply, Later, Loaded;
    if schedule != [] {
      var a := schedule[0];
      if Enabled(r, a) {
        StepIsLater(r, a);
        LaterLater(s, r, Apply(r, a));
        if a.Go? && a.t == t { StepLoads(s, r, t); }
        assert Apply(r, a).threads[t].ReadTail? ==> Loaded(s, Apply(r, a).threads[t]) by { LoadedNothing(s, Apply(r, a).threads[t]); }
        RunLoads(s, Apply(r, a), schedule[1..], t);
      } else {
        RunLoads(s, r, schedule[1..], t);
      }
    }
  }

  lemma LaterLater<T>(a: State<T>, b: State<T>, c: State<T>)
    requires Later(a, b) && Later(b, c)
    ensures Later(a, c)
  {
  }

  lemma LoadedNothing<T>(s: State<T>, l: Local)
    ensures l.ReadTail? ==> Loaded(s, l)
  {
  }

  /** How old the loads of a call that began in `s` may be in `r`: the elements then queued with those enqueued
      since, and the tickets then outstanding with those drawn since, each come to less than half the range. */
  predicate Recent<T>(s: State<T>, r: State<T>, half: nat) {
    && (s.Tail() - s.head) + (r.Tail() - s.Tail()) < half
    && Outstanding(s) + (r.optimistic - s.optimistic) < half
  }

  function OptimisticSide(optimistic: nat, overcommit: nat, half: nat): (w: nat)
    requires half >= 1
    ensures w < 2 * half
  {
    Minus(Word(optimistic, 2 * half), Word(overcommit, 2 * half), 2 * half)
  }

  /** `dequeue_bulk` takes the difference of the two sides: the words give it, and tell whether there is one. */
  predicate BulkCountExact(side: nat, tail: nat, difference: int, half: nat)
    requires half >= 1 && side < 2 * half
  {
    var d := Minus(Word(tail, 2 * half), side, 2 * half);
    (CircularLessThan(0, d, half) <==> difference > 0) && (difference > 0 ==> d == difference)
  }

  lemma DifferenceExact(optimistic: nat, overcommit: nat, tail: nat, half: nat)
    requires half >= 1 && overcommit <= optimistic
    requires optimistic - overcommit < tail + half && tail < optimistic - overcommit + half
    ensures BulkCountExact(OptimisticSide(optimistic, overcommit, half), tail, tail - (optimistic - overcommit), half)
  {
    WordMinus(optimistic, overcommit, half);
    WordDifference(tail, optimistic - overcommit, half);
  }

  /** A thread about to load the tail in `s` has got, in `r`, to the first comparison of that call: on words it comes
      out as it would on the counters themselves. */
  lemma FirstTestExact<T>(s: State<T>, schedule: seq<Action<T>>, t: nat, half: nat)
    requires half >= 1 && Inv(s) && t < |s.threads| && s.threads[t].ReadTail?
    requires var r := Exec(s, schedule); t < |r.threads| && r.threads[t].ReadOptimistic? && Recent(s, r, half)
    ensures var r := Exec(s, schedule);
            var tail, overcommit := r.threads[t].tail, r.threads[t].overcommit;
            && overcommit <= r.optimistic
            && (CircularLessThan(OptimisticSide(r.optimistic, overcommit, half), Word(tail, 2 * half), half)
                <==> r.optimistic - overcommit < tail)
            && BulkCountExact(OptimisticSide(r.optimistic, overcommit, half), tail, tail - (r.optimistic - overcommit), half)
  {
    var r := Exec(s, schedule);
    RunLoads(s, s, schedule, t);
    OutstandingNotNegative(r);
    HeadNeverPassesTail(s);
    Own(r, t);
    hide Inv, Exec;
    DequeueTestExact(r.optimistic, r.threads[t].overcommit, r.threads[t].tail, half);
    DifferenceExact(r.optimistic, r.threads[t].overcommit, r.threads[t].tail, half);
  }

  /** And so does the second, after it has drawn its tickets. */
  lemma SecondTestExact<T>(s: State<T>, schedule: seq<Action<T>>, t: nat, half: nat)
    requires half >= 1 && Inv(s) && t < |s.threads| && s.threads[t].ReadTail?
    requires var r := Exec(s, schedule); t < |r.threads| && r.threads[t].Recheck? && Recent(s, r, half)
    ensures var r := Exec(s, schedule);
            var mine, overcommit := r.threads[t].mine, r.threads[t].overcommit;
            && overcommit <= mine
            && (CircularLessThan(OptimisticSide(mine, overcommit, half), Word(r.Tail(), 2 * half), half)
                <==> mine - overcommit < r.Tail())
            && BulkCountExact(OptimisticSide(mine, overcommit, half), r.Tail(), r.Tail() - (mine - overcommit), half)
  {
    var r := Exec(s, schedule);
    RunLoads(s, s, schedule, t);
    OvercommitBelowTicket(r, t);
    HeadNeverPassesTail(s);
    Own(r, t);
    MineDrawn(r, t);
    hide Inv, Exec;
    DequeueTestExact(r.threads[t].mine, r.threads[t].overcommit, r.Tail(), half);
    DifferenceExact(r.threads[t].mine, r.threads[t].overcommit, r.Tail(), half);
  }

  lemma MineDrawn<T>(r: State<T>, t: nat)
    requires Inv(r) && t < |r.threads| && r.threads[t].Recheck?
    ensures r.threads[t].mine <= r.optimistic
  {
    Own(r, t);
    hide Count;
  }
}
