/** A sub-queue's dequeue counters as the program has them, changed in place
    (include/concurentqueue/concurrentqueue.h:1794-1886, 2382-2451, 2604-2704). */
module DequeueCounters {
  import opened DequeueTickets
  import opened DequeueTicketsProof

  class Counters<T> {
    /** Everything enqueued so far: `tailIndex` is its length. */
    var items: seq<T>
    var headIndex: nat
    var dequeueOptimisticCount: nat
    var dequeueOvercommit: nat
    var threads: seq<Local>
    ghost var tickets: seq<Ticket>
    ghost var takers: seq<nat>

    ghost function View(): State<T>
      reads this
    {
      State(items, headIndex, dequeueOptimisticCount, dequeueOvercommit, threads, tickets, takers)
    }

    ghost predicate Valid()
      reads this
    {
      Inv(View())
    }

    constructor (consumers: nat)
      ensures Valid() && View() == Start(consumers)
    {
      items, headIndex, dequeueOptimisticCount, dequeueOvercommit := [], 0, 0, 0;
      threads := seq(consumers, _ => Idle);
      tickets, takers := [], [];
      new;
      assert View() == Start(consumers);
      StartInv(View(), consumers);
    }

    method Enqueue(elements: seq<T>)
      requires Valid()
      modifies this
      ensures Valid() && View() == Apply(old(View()), Put(elements))
    {
      EnqueueKeeps(View(), elements);
      hide Inv;
      items := items + elements;
    }

    method CallDequeue(t: nat, max: nat)
      requires Valid() && DequeueTicketsProof.Enabled(View(), Ask(t, max))
      modifies this
      ensures Valid() && View() == Apply(old(View()), Ask(t, max))
    {
      MoveKeeps(View(), t, ReadTail(max));
      hide Inv;
      threads := threads[t := ReadTail(max)];
    }

    /** The three loads and the first comparison, then the optimistic `fetch_add`. */
    method StepToDraw(t: nat)
      requires Valid() && t < |threads|
      requires threads[t].ReadTail? || threads[t].ReadOvercommit? || threads[t].ReadOptimistic? || threads[t].Draw?
      modifies this`threads, this`dequeueOptimisticCount, this`tickets
      ensures View() == Next(old(View()), t)
    {
      OwnBounds(View(), t);
      hide Inv, Count, StaleOk, HoldsOwn, Fill;
      match threads[t] {
        case ReadTail(max) =>
          threads := threads[t := ReadOvercommit(max, |items|)];
        case ReadOvercommit(max, tail) =>
          threads := threads[t := ReadOptimistic(max, tail, dequeueOvercommit)];
        case ReadOptimistic(max, tail, overcommit) =>
          var free := tail - (dequeueOptimisticCount - overcommit);
          threads := threads[t := if free > 0 then Draw(Min(free, max), overcommit) else Idle];
        case Draw(want, overcommit) =>
          var mine := dequeueOptimisticCount;
          dequeueOptimisticCount := dequeueOptimisticCount + want;
          threads, tickets := threads[t := Recheck(mine, want, overcommit)], tickets + Repeat(want, Open(t));
      }
    }

    /** The second look at the tail. */
    method StepRecheck(t: nat)
      requires Valid() && t < |threads| && threads[t].Recheck?
      modifies this`threads, this`tickets
      ensures View() == Next(old(View()), t)
    {
      hide Inv, Step, Next, Fill;
      RecheckIs(View(), t);
      var Recheck(mine, want, overcommit) := threads[t];
      if mine - overcommit < |items| {
        var got := Min(want, |items| - (mine - overcommit));
        threads := threads[t := if got < want then Shortfall(mine, got, want) else Claim(mine, got)];
        tickets := Fill(Fill(tickets, mine, mine + got, Won(t)), mine + got, mine + want, Lost(t));
      } else {
        threads, tickets := threads[t := GiveBack(mine, want)], Fill(tickets, mine, mine + want, Lost(t));
      }
    }

    /** What is missing is counted as overcommitted. */
    method StepShortfall(t: nat)
      requires Valid() && t < |threads| && threads[t].Shortfall?
      modifies this`threads, this`dequeueOvercommit, this`tickets
      ensures View() == Next(old(View()), t)
    {
      hide Inv, Step, Next, Fill;
      ShortfallIs(View(), t);
      var Shortfall(mine, got, want) := threads[t];
      dequeueOvercommit := dequeueOvercommit + (want - got);
      threads, tickets := threads[t := Claim(mine, got)], Fill(tickets, mine + got, mine + want, Counted);
    }

    method StepClaim(t: nat)
      requires Valid() && t < |threads| && threads[t].Claim?
      modifies this`threads, this`headIndex, this`tickets, this`takers
      ensures View() == Next(old(View()), t)
    {
      hide Inv, Step, Next, Fill;
      ClaimIs(View(), t);
      var Claim(mine, got) := threads[t];
      headIndex := headIndex + got;
      threads, tickets := threads[t := Idle], Fill(tickets, mine, mine + got, Claimed);
      takers := takers + Repeat(got, t);
    }

    method StepGiveBack(t: nat)
      requires Valid() && t < |threads| && threads[t].GiveBack?
      modifies this`threads, this`dequeueOvercommit, this`tickets
      ensures View() == Next(old(View()), t)
    {
      hide Inv, Step, Next, Fill;
      GiveBackIs(View(), t);
      var GiveBack(mine, want) := threads[t];
      dequeueOvercommit := dequeueOvercommit + want;
      threads, tickets := threads[t := Idle], Fill(tickets, mine, mine + want, Counted);
    }

    method StepThread(t: nat)
      requires Valid() && DequeueTicketsProof.Enabled(View(), Go(t))
      modifies this
      ensures Valid() && View() == Apply(old(View()), Go(t))
    {
      StepKeeps(View(), t);
      if threads[t].ReadTail? || threads[t].ReadOvercommit? || threads[t].ReadOptimistic? || threads[t].Draw? {
        StepToDraw(t);
      } else if threads[t].Recheck? {
        StepRecheck(t);
      } else if threads[t].Shortfall? {
        StepShortfall(t);
      } else if threads[t].Claim? {
        StepClaim(t);
      } else {
        StepGiveBack(t);
      }
      hide Inv;
    }

    /** Any interleaving of the producer and the consumers: the head, with all that consumers have won and not yet
        taken, never passes the tail, and it has been advanced once over every index below it. */
    method Execute(schedule: seq<Action<T>>)
      requires Valid()
      modifies this
      ensures Valid() && View() == Exec(old(View()), schedule)
      ensures old(items) <= items && old(takers) <= takers && |takers| == headIndex <= |items|
      ensures forall t | 0 <= t < |threads| && threads[t].Claim? :: headIndex + threads[t].got <= |items|
    {
      HandedOutOnce(View(), schedule);
      HeadNeverPassesTail(Exec(View(), schedule));
      hide Inv, Apply;
      var i := 0;
      while i < |schedule|
        invariant 0 <= i <= |schedule| && Valid()
        invariant Exec(View(), schedule[i..]) == Exec(old(View()), schedule)
      {
        assert schedule[i..][0] == schedule[i] && schedule[i..][1..] == schedule[i + 1..];
        match schedule[i] {
          case Put(es) => Enqueue(es);
          case Ask(t, max) => if t < |threads| && threads[t].Idle? { CallDequeue(t, max); }
          case Go(t) => if t < |threads| && !threads[t].Idle? { StepThread(t); }
        }
        i := i + 1;
      }
    }
  }

  /** Where the tickets of a consumer are. */
  lemma OwnBounds<T>(s: State<T>, t: nat)
    requires Inv(s) && t < |s.threads| && !s.threads[t].Idle?
    ensures HoldsOwn(s.threads[t], t, s.tickets) && Next(s, t) == Step(s, t)
    ensures var l := s.threads[t];
            && (l.Recheck? ==> l.mine + l.want <= |s.tickets|)
            && (l.Shortfall? ==> l.got <= l.want && l.mine + l.want <= |s.tickets|)
            && (l.Claim? ==> l.mine + l.got <= |s.tickets|)
            && (l.GiveBack? ==> l.mine + l.want <= |s.tickets|)
  {
    Own(s, t);
    hide Inv, StaleOk;
  }

  lemma RecheckIs<T>(s: State<T>, t: nat)
    requires Inv(s) && t < |s.threads| && s.threads[t].Recheck?
    ensures var Recheck(mine, want, overcommit) := s.threads[t];
            && mine + want <= |s.tickets|
            && Next(s, t) ==
               if mine - overcommit < |s.items| then
                 var got := Min(want, |s.items| - (mine - overcommit));
                 s.(threads := s.threads[t := if got < want then Shortfall(mine, got, want) else Claim(mine, got)],
                    tickets := Fill(Fill(s.tickets, mine, mine + got, Won(t)), mine + got, mine + want, Lost(t)))
               else s.(threads := s.threads[t := GiveBack(mine, want)], tickets := Fill(s.tickets, mine, mine + want, Lost(t)))
  {
    OwnBounds(s, t);
    hide Inv, Fill, HoldsOwn, Next;
    var Recheck(mine, want, overcommit) := s.threads[t];
    if mine - overcommit < |s.items| {
      RecheckWins(s, t);
    } else {
      RecheckLoses(s, t);
    }
    hide Step;
  }

  lemma RecheckWins<T>(s: State<T>, t: nat)
    requires t < |s.threads| && s.threads[t].Recheck? && HoldsOwn(s.threads[t], t, s.tickets)
    requires s.threads[t].mine - s.threads[t].overcommit < |s.items|
    ensures var Recheck(mine, want, overcommit) := s.threads[t];
            var got := Min(want, |s.items| - (mine - overcommit));
            && mine + want <= |s.tickets|
            && Step(s, t) ==
                 s.(threads := s.threads[t := if got < want then Shortfall(mine, got, want) else Claim(mine, got)],
                    tickets := Fill(Fill(s.tickets, mine, mine + got, Won(t)), mine + got, mine + want, Lost(t)))
  {
    var l := s.threads[t];
    assert Holds(s.tickets, l.mine, l.mine + l.want, Open(t));
    hide Fill, HoldsOwn, Holds;
  }

  lemma RecheckLoses<T>(s: State<T>, t: nat)
    requires t < |s.threads| && s.threads[t].Recheck? && HoldsOwn(s.threads[t], t, s.tickets)
    requires s.threads[t].mine - s.threads[t].overcommit >= |s.items|
    ensures var Recheck(mine, want, overcommit) := s.threads[t];
            && mine + want <= |s.tickets|
            && Step(s, t) == s.(threads := s.threads[t := GiveBack(mine, want)],
                                tickets := Fill(s.tickets, mine, mine + want, Lost(t)))
  {
    var l := s.threads[t];
    assert Holds(s.tickets, l.mine, l.mine + l.want, Open(t));
    hide Fill, HoldsOwn, Holds;
  }

  lemma ShortfallIs<T>(s: State<T>, t: nat)
    requires Inv(s) && t < |s.threads| && s.threads[t].Shortfall?
    ensures var Shortfall(mine, got, want) := s.threads[t];
            && got <= want && mine + want <= |s.tickets|
            && Next(s, t) == s.(threads := s.threads[t := Claim(mine, got)], overcommit := s.overcommit + (want - got),
                                tickets := Fill(s.tickets, mine + got, mine + want, Counted))
  {
    OwnBounds(s, t);
    hide Inv, Fill, HoldsOwn;
  }

  lemma ClaimIs<T>(s: State<T>, t: nat)
    requires Inv(s) && t < |s.threads| && s.threads[t].Claim?
    ensures var Claim(mine, got) := s.threads[t];
            && mine + got <= |s.tickets|
            && Next(s, t) == s.(threads := s.threads[t := Idle], head := s.head + got,
                                tickets := Fill(s.tickets, mine, mine + got, Claimed), takers := s.takers + Repeat(got, t))
  {
    OwnBounds(s, t);
    hide Inv, Fill, HoldsOwn;
  }

  lemma GiveBackIs<T>(s: State<T>, t: nat)
    requires Inv(s) && t < |s.threads| && s.threads[t].GiveBack?
    ensures var GiveBack(mine, want) := s.threads[t];
            && mine + want <= |s.tickets|
            && Next(s, t) == s.(threads := s.threads[t := Idle], overcommit := s.overcommit + want,
                                tickets := Fill(s.tickets, mine, mine + want, Counted))
  {
    OwnBounds(s, t);
    hide Inv, Fill, HoldsOwn;
  }
}
