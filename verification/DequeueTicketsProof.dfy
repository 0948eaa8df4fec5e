/** What the dequeue counters promise, in every interleaving of any number of consumers. */
module DequeueTicketsProof {
  import opened DequeueTickets

  predicate Losing(x: Ticket) { x.Lost? || x.Counted? }

  lemma {:induction false} LossesGrow(a: seq<Ticket>, b: seq<Ticket>, n: nat)
    requires n <= |a| && n <= |b|
    requires forall i | 0 <= i < n :: Losing(a[i]) ==> Losing(b[i])
    ensures Losses(a[..n]) <= Losses(b[..n])
  {
    if n != 0 {
      LossesGrow(a, b, n - 1);
      assert a[..n][..n - 1] == a[..n - 1] && b[..n][..n - 1] == b[..n - 1];
    }
  }

  lemma LossesPrefix(ts: seq<Ticket>, m: nat, n: nat)
    requires m <= n <= |ts|
    ensures Losses(ts[..m]) <= Losses(ts[..n])
  {
    assert ts[..n] == ts[..m] + ts[m..n];
    CountConcat(ts[..m], ts[m..n], IsLost);
    CountConcat(ts[..m], ts[m..n], IsCounted);
  }

  /** `b` extends or re-marks `a`, turning no loss into anything else and making no new win. */
  ghost predicate Settles(a: seq<Ticket>, b: seq<Ticket>) {
    && |a| <= |b|
    && (forall i | 0 <= i < |a| :: Losing(a[i]) ==> Losing(b[i]))
    && (forall i | 0 <= i < |b| && IsWin(b[i]) :: i < |a| && IsWin(a[i]))
  }

  lemma JustifiedKept(a: seq<Ticket>, b: seq<Ticket>, tail: nat, tail': nat)
    requires Justified(a, tail) && Settles(a, b) && tail <= tail'
    ensures Justified(b, tail')
  {
    forall i | 0 <= i < |b| && IsWin(b[i]) ensures i + 1 <= tail' + Losses(b[..i]) {
      LossesGrow(a, b, i);
    }
  }

  lemma StaleKeeps<T>(l: Local, s: State<T>, s': State<T>)
    requires StaleOk(l, s)
    requires s.overcommit <= s'.overcommit && s.Tail() <= s'.Tail()
    requires |s.tickets| <= |s'.tickets|
    requires forall i | 0 <= i < |s.tickets| :: Losing(s.tickets[i]) ==> Losing(s'.tickets[i])
    ensures StaleOk(l, s')
  {
    if l.Recheck? { LossesGrow(s.tickets, s'.tickets, l.mine); }
  }

  // ---------------------------------------------------------------- each step

  lemma EnqueueKeeps<T>(s: State<T>, es: seq<T>)
    requires Inv(s)
    ensures Inv(Enqueue(s, es))
  {
    JustifiedKept(s.tickets, s.tickets, s.Tail(), s.Tail() + |es|);
    forall t | 0 <= t < |s.threads| ensures StaleOk(s.threads[t], Enqueue(s, es)) {
      StaleKeeps(s.threads[t], s, Enqueue(s, es));
    }
  }

  /** A step that only moves a thread that deals with no tickets. */
  lemma MoveKeeps<T>(s: State<T>, t: nat, l: Local)
    requires Inv(s) && t < |s.threads| && StaleOk(l, s)
    requires s.threads[t].Idle? || s.threads[t].ReadTail? || s.threads[t].ReadOvercommit?
             || s.threads[t].ReadOptimistic?
    requires l.Idle? || l.ReadTail? || l.ReadOvercommit? || l.ReadOptimistic? || l.Draw?
    ensures Inv(Goto(s, t, l))
  {
    var s' := Goto(s, t, l);
    forall u | 0 <= u < |s.threads| ensures StaleOk(s'.threads[u], s') {
      StaleKeeps(s'.threads[u], s, s');
    }
  }

  /** Everybody but `t` still knows what it knew. */
  lemma OthersStay<T>(s: State<T>, s': State<T>, t: nat)
    requires Inv(s) && |s'.threads| == |s.threads| && |s'.tickets| == |s.tickets|
    requires s.overcommit <= s'.overcommit && s'.items == s.items
    requires forall u | 0 <= u < |s.threads| && u != t :: s'.threads[u] == s.threads[u]
    requires forall i | 0 <= i < |s.tickets| ::
               s'.tickets[i] == s.tickets[i] || (Marked(s.tickets[i]) && s.tickets[i].t == t)
    requires forall i | 0 <= i < |s.tickets| :: Losing(s.tickets[i]) ==> Losing(s'.tickets[i])
    ensures forall u | 0 <= u < |s.threads| && u != t ::
              HoldsOwn(s'.threads[u], u, s'.tickets) && StaleOk(s'.threads[u], s')
  {
    forall u | 0 <= u < |s.threads| && u != t
      ensures HoldsOwn(s'.threads[u], u, s'.tickets) && StaleOk(s'.threads[u], s')
    {
      assert HoldsOwn(s.threads[u], u, s.tickets);
      StaleKeeps(s.threads[u], s, s');
    }
  }

  /** All that has to be shown of a step that re-marks tickets of the stepping thread. */
  lemma Remark<T>(s: State<T>, s': State<T>, t: nat)
    requires Inv(s) && t < |s.threads| && |s'.threads| == |s.threads|
    requires s'.threads == s.threads[t := s'.threads[t]] && s'.items == s.items
    requires |s'.tickets| == |s.tickets| && s'.optimistic == s.optimistic
    requires forall i | 0 <= i < |s.tickets| ::
               s'.tickets[i] == s.tickets[i] ||
               (Marked(s.tickets[i]) && s.tickets[i].t == t
                && (Marked(s'.tickets[i]) ==> s'.tickets[i].t == t))
    requires forall i | 0 <= i < |s.tickets| :: Losing(s.tickets[i]) ==> Losing(s'.tickets[i])
    requires forall i | 0 <= i < |s.tickets| && Marked(s'.tickets[i]) && s'.tickets[i].t == t ::
               InSpan(s'.threads[t], i, s'.tickets[i])
    requires HoldsOwn(s'.threads[t], t, s'.tickets) && StaleOk(s'.threads[t], s')
    requires Justified(s'.tickets, s.Tail()) && |s'.takers| == s'.head
    requires s.overcommit <= s'.overcommit
    requires Count(s'.tickets, IsClaimed) == s'.head && Count(s'.tickets, IsCounted) == s'.overcommit
    ensures Inv(s')
  {
    OthersStay(s, s', t);
  }

  /** What a thread may rely on about its own tickets. */
  lemma Own<T>(s: State<T>, t: nat)
    requires Inv(s) && t < |s.threads|
    ensures HoldsOwn(s.threads[t], t, s.tickets) && StaleOk(s.threads[t], s)
    ensures forall i | 0 <= i < |s.tickets| && Marked(s.tickets[i]) && s.tickets[i].t == t ::
              InSpan(s.threads[t], i, s.tickets[i])
    ensures Justified(s.tickets, s.Tail()) && |s.tickets| == s.optimistic && |s.takers| == s.head
    ensures Count(s.tickets, IsClaimed) == s.head && Count(s.tickets, IsCounted) == s.overcommit
  {
  }

  lemma DrawCounts(ts: seq<Ticket>, want: nat, t: nat)
    ensures var ts' := ts + Repeat(want, Open(t));
            Count(ts', IsClaimed) == Count(ts, IsClaimed) && Count(ts', IsCounted) == Count(ts, IsCounted)
  {
    CountConcat(ts, Repeat(want, Open(t)), IsClaimed);
    CountConcat(ts, Repeat(want, Open(t)), IsCounted);
    CountSame(Repeat(want, Open(t)), IsOpen, IsClaimed);
    CountSame(Repeat(want, Open(t)), IsOpen, IsCounted);
  }

  /** A draw adds open tickets of the drawing thread's own at the end. */
  lemma DrawMarks<T>(s: State<T>, t: nat)
    requires Inv(s) && t < |s.threads| && s.threads[t].Draw?
    ensures var s' := Step(s, t);
            && |s'.tickets| == s'.optimistic && |s'.takers| == s'.head
            && Count(s'.tickets, IsClaimed) == s'.head && Count(s'.tickets, IsCounted) == s'.overcommit
            && Justified(s'.tickets, s'.Tail()) && Tended(s'.tickets, s'.threads)
  {
    var s' := Step(s, t);
    JustifiedKept(s.tickets, s'.tickets, s.Tail(), s.Tail());
    DrawCounts(s.tickets, s.threads[t].want, t);
    hide Tended, Justified, Count;
  }

  lemma DrawThread<T>(s: State<T>, t: nat, u: nat)
    requires Inv(s) && t < |s.threads| && s.threads[t].Draw? && u < |s.threads|
    ensures var s' := Step(s, t); HoldsOwn(s'.threads[u], u, s'.tickets) && StaleOk(s'.threads[u], s')
  {
    var s' := Step(s, t);
    assert HoldsOwn(s.threads[u], u, s.tickets) && StaleOk(s.threads[u], s);
    assert s'.tickets[..s.optimistic] == s.tickets;
    if u != t {
      StaleKeeps(s.threads[u], s, s');
    }
    hide Tended, Justified, Inv;
  }

  lemma DrawKeeps<T>(s: State<T>, t: nat)
    requires Inv(s) && t < |s.threads| && s.threads[t].Draw?
    ensures Inv(Step(s, t))
  {
    hide Step, Tended, Justified, Count, HoldsOwn, StaleOk;
    DrawMarks(s, t);
    DrawFrame(s, t);
    forall u | 0 <= u < |s.threads|
      ensures HoldsOwn(Step(s, t).threads[u], u, Step(s, t).tickets) && StaleOk(Step(s, t).threads[u], Step(s, t))
    {
      DrawThread(s, t, u);
    }
  }

  lemma DrawFrame<T>(s: State<T>, t: nat)
    requires Inv(s) && t < |s.threads| && s.threads[t].Draw?
    ensures HoldsOwn(s.threads[t], t, s.tickets) && |Step(s, t).threads| == |s.threads|
  {
    hide Inv;
  }

  lemma RejectKeeps<T>(s: State<T>, t: nat)
    requires Inv(s) && t < |s.threads| && s.threads[t].Recheck?
    requires s.threads[t].mine - s.threads[t].overcommit >= s.Tail()
    ensures Inv(Step(s, t))
  {
    hide Inv, Count, Justified, Tended, Fill;
    Own(s, t);
    var s' := Step(s, t);
    var m, want := s.threads[t].mine, s.threads[t].want;
    CountFill(s.tickets, m, m + want, IsOpen, Lost(t), IsClaimed);
    CountFill(s.tickets, m, m + want, IsOpen, Lost(t), IsCounted);
    JustifiedKept(s.tickets, s'.tickets, s.Tail(), s.Tail());
    Remark(s, s', t);
  }

  lemma AcceptJustified<T>(s: State<T>, t: nat)
    requires Inv(s) && t < |s.threads| && s.threads[t].Recheck?
    requires s.threads[t].mine - s.threads[t].overcommit < s.Tail()
    ensures Justified(Step(s, t).tickets, s.Tail())
  {
    var s' := Step(s, t);
    var m, want, oc := s.threads[t].mine, s.threads[t].want, s.threads[t].overcommit;
    forall i | 0 <= i < |s'.tickets| && IsWin(s'.tickets[i])
      ensures i + 1 <= s.Tail() + Losses(s'.tickets[..i])
    {
      LossesGrow(s.tickets, s'.tickets, i);
      if m <= i < m + want { LossesPrefix(s.tickets, m, i); }
    }
  }

  lemma AcceptCounts(ts: seq<Ticket>, m: nat, got: nat, want: nat, t: nat)
    requires got <= want && Holds(ts, m, m + want, Open(t))
    ensures var ts' := Fill(Fill(ts, m, m + got, Won(t)), m + got, m + want, Lost(t));
            Count(ts', IsClaimed) == Count(ts, IsClaimed) && Count(ts', IsCounted) == Count(ts, IsCounted)
  {
    hide Count, Fill;
    var mid := Fill(ts, m, m + got, Won(t));
    CountFill(ts, m, m + got, IsOpen, Won(t), IsClaimed);
    CountFill(ts, m, m + got, IsOpen, Won(t), IsCounted);
    CountFill(mid, m + got, m + want, IsOpen, Lost(t), IsClaimed);
    CountFill(mid, m + got, m + want, IsOpen, Lost(t), IsCounted);
  }

  lemma AcceptKeeps<T>(s: State<T>, t: nat)
    requires Inv(s) && t < |s.threads| && s.threads[t].Recheck?
    requires s.threads[t].mine - s.threads[t].overcommit < s.Tail()
    ensures Inv(Step(s, t))
  {
    hide Inv, Count, Justified, Tended, Fill;
    Own(s, t);
    AcceptJustified(s, t);
    var s' := Step(s, t);
    var want := s.threads[t].want;
    var room: nat := s.Tail() - (s.threads[t].mine - s.threads[t].overcommit);
    AcceptCounts(s.tickets, s.threads[t].mine, Min(want, room), want, t);
    Remark(s, s', t);
  }

  lemma ShortfallKeeps<T>(s: State<T>, t: nat)
    requires Inv(s) && t < |s.threads| && s.threads[t].Shortfall?
    ensures Inv(Step(s, t))
  {
    hide Inv, Count, Justified, Tended, Fill;
    Own(s, t);
    var s' := Step(s, t);
    var m, got, want := s.threads[t].mine, s.threads[t].got, s.threads[t].want;
    CountFill(s.tickets, m + got, m + want, IsLost, Counted, IsClaimed);
    CountFill(s.tickets, m + got, m + want, IsLost, Counted, IsCounted);
    JustifiedKept(s.tickets, s'.tickets, s.Tail(), s.Tail());
    Remark(s, s', t);
  }

  lemma GiveBackKeeps<T>(s: State<T>, t: nat)
    requires Inv(s) && t < |s.threads| && s.threads[t].GiveBack?
    ensures Inv(Step(s, t))
  {
    hide Inv, Count, Justified, Tended, Fill;
    Own(s, t);
    var s' := Step(s, t);
    var m, want := s.threads[t].mine, s.threads[t].want;
    CountFill(s.tickets, m, m + want, IsLost, Counted, IsClaimed);
    CountFill(s.tickets, m, m + want, IsLost, Counted, IsCounted);
    JustifiedKept(s.tickets, s'.tickets, s.Tail(), s.Tail());
    Remark(s, s', t);
  }

  lemma ClaimKeeps<T>(s: State<T>, t: nat)
    requires Inv(s) && t < |s.threads| && s.threads[t].Claim?
    ensures Inv(Step(s, t))
  {
    hide Inv, Count, Justified, Tended, Fill;
    Own(s, t);
    var s' := Step(s, t);
    var m, got := s.threads[t].mine, s.threads[t].got;
    CountFill(s.tickets, m, m + got, IsWon, Claimed, IsClaimed);
    CountFill(s.tickets, m, m + got, IsWon, Claimed, IsCounted);
    JustifiedKept(s.tickets, s'.tickets, s.Tail(), s.Tail());
    Remark(s, s', t);
  }

  lemma StepKeeps<T>(s: State<T>, t: nat)
    requires Inv(s) && t < |s.threads| && !s.threads[t].Idle?
    ensures Inv(Step(s, t))
  {
    match s.threads[t]
    case ReadTail(max) => MoveKeeps(s, t, ReadOvercommit(max, s.Tail()));
    case ReadOvercommit(max, tail) => MoveKeeps(s, t, ReadOptimistic(max, tail, s.overcommit));
    case ReadOptimistic(max, tail, oc) =>
      if s.optimistic - oc < tail {
        MoveKeeps(s, t, Draw(Min(tail - (s.optimistic - oc), max), oc));
      } else {
        MoveKeeps(s, t, Idle);
      }
    case Draw(_, _) => DrawKeeps(s, t);
    case Recheck(m, _, oc) => if m - oc < s.Tail() { AcceptKeeps(s, t); } else { RejectKeeps(s, t); }
    case Shortfall(_, _, _) => ShortfallKeeps(s, t);
    case Claim(_, _) => ClaimKeeps(s, t);
    case GiveBack(_, _) => GiveBackKeeps(s, t);
  }

  // ---------------------------------------------------------------- main results

  datatype Action<T> = Put(es: seq<T>) | Ask(t: nat, max: nat) | Go(t: nat)

  predicate Enabled<T>(s: State<T>, a: Action<T>) {
    match a
    case Put(_) => true
    case Ask(t, _) => t < |s.threads| && s.threads[t].Idle?
    case Go(t) => t < |s.threads| && !s.threads[t].Idle?
  }

  ghost function Apply<T>(s: State<T>, a: Action<T>): (r: State<T>)
    requires Inv(s) && Enabled(s, a)
    ensures Inv(r)
  {
    match a
    case Put(es) => EnqueueKeeps(s, es); Enqueue(s, es)
    case Ask(t, max) => MoveKeeps(s, t, ReadTail(max)); Call(s, t, max)
    case Go(t) => StepKeeps(s, t); Step(s, t)
  }

  ghost function Exec<T>(s: State<T>, schedule: seq<Action<T>>): (r: State<T>)
    requires Inv(s)
    ensures Inv(r)
    decreases |schedule|
  {
    if schedule == [] then s
    else Exec(if Enabled(s, schedule[0]) then Apply(s, schedule[0]) else s, schedule[1..])
  }

  /** A fresh sub-queue with `threads` consumers. */
  function Start<T>(threads: nat): State<T> {
    State([], 0, 0, 0, seq(threads, t => Idle), [], [])
  }

  lemma StartInv<T>(s: State<T>, threads: nat)
    requires s == Start(threads)
    ensures Inv(s)
  {
  }

  /** The head never passes the tail, not even by what consumers have won and not yet taken. */
  lemma HeadNeverPassesTail<T>(s: State<T>)
    requires Inv(s)
    ensures s.head <= s.Tail()
    ensures forall t | 0 <= t < |s.threads| && s.threads[t].Claim? ::
              s.head + s.threads[t].got <= s.Tail()
  {
    WinsBelowTail(s.tickets, s.Tail());
    forall t | 0 <= t < |s.threads| && s.threads[t].Claim?
      ensures s.head + s.threads[t].got <= s.Tail()
    {
      ClaimKeeps(s, t);
      WinsBelowTail(Step(s, t).tickets, s.Tail());
    }
  }

  /** The overcommit a consumer read is never more than the ticket it then drew. */
  lemma OvercommitBelowTicket<T>(s: State<T>, t: nat)
    requires Inv(s) && t < |s.threads| && s.threads[t].Recheck?
    ensures s.threads[t].overcommit <= s.threads[t].mine
  {
    CountAll(s.tickets[..s.threads[t].mine]);
  }

  lemma StepHandsOut<T>(s: State<T>, a: Action<T>)
    requires Inv(s) && Enabled(s, a)
    ensures s.items <= Apply(s, a).items && s.takers <= Apply(s, a).takers
    ensures a.Go? && s.threads[a.t].Claim? ==>
              && Apply(s, a).takers == s.takers + Repeat(s.threads[a.t].got, a.t)
              && |s.takers| + s.threads[a.t].got <= |s.items|
    ensures !(a.Go? && s.threads[a.t].Claim?) ==> Apply(s, a).takers == s.takers
  {
    HeadNeverPassesTail(s);
  }

  /** Over any run: every index below the head belongs to exactly one consumer, forever, and holds
      the element that was enqueued there; the indices are handed out in enqueue order. */
  lemma {:induction false} HandedOutOnce<T>(s: State<T>, schedule: seq<Action<T>>)
    requires Inv(s)
    ensures var r := Exec(s, schedule);
            && s.items <= r.items && s.takers <= r.takers
            && |r.takers| == r.head && r.head <= |r.items|
    decreases |schedule|
  {
    hide Inv, Apply;
    if schedule == [] {
      HeadNeverPassesTail(s);
      TakersAreHead(s);
    } else if Enabled(s, schedule[0]) {
      StepHandsOut(s, schedule[0]);
      HandedOutOnce(Apply(s, schedule[0]), schedule[1..]);
    } else {
      HandedOutOnce(s, schedule[1..]);
    }
  }

  lemma TakersAreHead<T>(s: State<T>)
    requires Inv(s)
    ensures |s.takers| == s.head
  {
  }

  ghost predicate Quiescent<T>(s: State<T>) {
    forall t | 0 <= t < |s.threads| :: s.threads[t].Idle?
  }

  /** With no dequeue in progress the effective count is exact again, however many dequeues failed
      or fell short before. */
  lemma QuiescentCountersAgree<T>(s: State<T>)
    requires Inv(s) && Quiescent(s)
    ensures s.optimistic == s.head + s.overcommit
  {
    forall i | 0 <= i < |s.tickets| ensures !Marked(s.tickets[i]) {
    }
    NoneLeft(s.tickets);
    CountAll(s.tickets);
  }

  lemma {:induction false} NoneLeft(ts: seq<Ticket>)
    requires forall i | 0 <= i < |ts| :: !Marked(ts[i])
    ensures Count(ts, IsOpen) == Count(ts, IsWon) == Count(ts, IsLost) == 0
  {
    if ts != [] { NoneLeft(ts[..|ts| - 1]); }
  }

  /** Consumer `t` runs alone for at most `n` steps, until its call is over. */
  ghost function Alone<T>(s: State<T>, t: nat, n: nat): (r: State<T>)
    requires Inv(s) && t < |s.threads|
    ensures Inv(r) && t < |r.threads|
    decreases n
  {
    if n == 0 || s.threads[t].Idle? then s else Alone(Next(s, t), t, n - 1)
  }

  ghost function Next<T>(s: State<T>, t: nat): (r: State<T>)
    requires Inv(s) && t < |s.threads| && !s.threads[t].Idle?
    ensures Inv(r) && |r.threads| == |s.threads|
  {
    StepKeeps(s, t); Step(s, t)
  }

  /** The three reads, with nobody else about. */
  lemma AloneReads<T>(s: State<T>, t: nat, max: nat)
    requires Inv(s) && t < |s.threads| && s.threads[t] == ReadTail(max)
    requires s.optimistic == s.head + s.overcommit && s.head <= s.Tail()
    ensures var r := Alone(s, t, 3);
            r == Goto(s, t, if s.head == s.Tail() then Idle
                            else Draw(Min(s.Tail() - s.head, max), s.overcommit))
  {
    hide Inv;
    StepKeeps(s, t);
    var s1 := Step(s, t);
    StepKeeps(s1, t);
    var s2 := Step(s1, t);
    StepKeeps(s2, t);
    var s3 := Step(s2, t);
    assert Alone(s2, t, 1) == s3;
    assert Alone(s1, t, 2) == s3;
    assert s3.threads == s.threads[t := s3.threads[t]];
  }

  /** Drawing, rechecking and claiming, with nobody else about. */
  lemma AloneClaims<T>(s: State<T>, t: nat, want: nat)
    requires Inv(s) && t < |s.threads| && s.threads[t] == Draw(want, s.overcommit)
    requires s.optimistic == s.head + s.overcommit && 1 <= want <= s.Tail() - s.head
    ensures var r := Alone(s, t, 3);
            r.threads[t].Idle? && r.takers == s.takers + Repeat(want, t)
  {
    hide Inv, Fill;
    StepKeeps(s, t);
    var s1 := Step(s, t);
    StepKeeps(s1, t);
    var s2 := Step(s1, t);
    assert s2.threads[t] == Claim(s.optimistic, want);
    StepKeeps(s2, t);
    var s3 := Step(s2, t);
    assert Alone(s2, t, 1) == s3;
    assert Alone(s1, t, 2) == s3;
  }

  /** Hence nothing gets stuck: from such a state a consumer running alone takes as much as it asked
      for or all there is, and comes back empty-handed only from an empty sub-queue. */
  lemma QuiescentDequeue<T>(s: State<T>, t: nat, max: nat)
    requires Inv(s) && Quiescent(s) && t < |s.threads| && max >= 1
    ensures Inv(Call(s, t, max)) && s.head <= s.Tail()
    ensures var r := Alone(Alone(Call(s, t, max), t, 3), t, 3);
            r.threads[t].Idle? && r.takers == s.takers + Repeat(Min(s.Tail() - s.head, max), t)
  {
    QuiescentCountersAgree(s);
    HeadNeverPassesTail(s);
    MoveKeeps(s, t, ReadTail(max));
    var s1 := Call(s, t, max);
    AloneReads(s1, t, max);
    var s2 := Alone(s1, t, 3);
    if s.head < s.Tail() {
      AloneClaims(s2, t, Min(s.Tail() - s.head, max));
    }
  }

  // ---------------------------------------------------------------- coming back with less

  /** Tickets that some consumer has drawn and not dealt with yet. */
  function InHand(ts: seq<Ticket>): nat { Count(ts, IsOpen) + Count(ts, IsWon) + Count(ts, IsLost) }

  /** Of the elements there were when a consumer read the tail, as many are spoken for: each has been claimed, or some
      consumer has a ticket in hand, or has given one back since this one read the overcommit. */
  ghost predicate SpokenFor(ts: seq<Ticket>, elements: int, overcommit: nat) {
    elements <= Count(ts, IsClaimed) + InHand(ts) + (Count(ts, IsCounted) - overcommit)
  }

  /** A call ends in one of three ways; it takes what it claims, and else nothing. */
  lemma CallEnds<T>(s: State<T>, t: nat)
    requires Inv(s) && t < |s.threads| && !s.threads[t].Idle? && Step(s, t).threads[t].Idle?
    ensures s.threads[t].ReadOptimistic? || s.threads[t].GiveBack? || s.threads[t].Claim?
    ensures Step(s, t).takers == s.takers + (if s.threads[t].Claim? then Repeat(s.threads[t].got, t) else [])
  {
    hide Inv, Fill, Repeat;
  }

  /** Without drawing a ticket it ends only if every element is spoken for. */
  lemma TurnedAwayOnlyIfSpokenFor<T>(s: State<T>, t: nat)
    requires Inv(s) && t < |s.threads| && s.threads[t].ReadOptimistic? && Step(s, t).threads[t].Idle?
    ensures SpokenFor(s.tickets, s.threads[t].tail, s.threads[t].overcommit)
  {
    CountAll(s.tickets);
    hide Fill, Repeat, Justified, Tended;
  }

  /** How many elements a consumer that looks at the tail again goes on to claim. */
  function Granted(l: Local): nat {
    match l
    case Claim(_, got) => got
    case Shortfall(_, got, _) => got
    case _ => 0
  }

  /** Having drawn, it claims what it wanted, or fewer only if the others are spoken for by tickets drawn before its own. */
  lemma FewerOnlyIfSpokenFor<T>(s: State<T>, t: nat)
    requires Inv(s) && t < |s.threads| && s.threads[t].Recheck?
    ensures var l, r := s.threads[t], Step(s, t).threads[t];
            && l.mine <= |s.tickets|
            && (r.Claim? || r.Shortfall? || r.GiveBack?) && Granted(r) <= l.want
            && (Granted(r) < l.want ==> SpokenFor(s.tickets[..l.mine], s.Tail() - Granted(r), l.overcommit))
  {
    var l := s.threads[t];
    assert HoldsOwn(l, t, s.tickets);
    CountAll(s.tickets[..l.mine]);
    hide Fill, Repeat, Justified, Tended, Inv;
  }

  // ---------------------------------------------------------------- asking for nothing

  /** The call was made for at least one element, or for none. */
  predicate Wants(l: Local, some: bool) {
    match l
    case Idle => true
    case ReadTail(max) => max > 0 <==> some
    case ReadOvercommit(max, _) => max > 0 <==> some
    case ReadOptimistic(max, _, _) => max > 0 <==> some
    case Draw(want, _) => want > 0 <==> some
    case Recheck(_, want, _) => want > 0 <==> some
    case Shortfall(_, got, _) => got > 0 <==> some
    case Claim(_, got) => got > 0 <==> some
    case GiveBack(_, _) => true
  }

  lemma StepWants<T>(s: State<T>, a: Action<T>, t: nat, some: bool)
    requires Inv(s) && Enabled(s, a) && t < |s.threads| && Wants(s.threads[t], some) && !(a.Ask? && a.t == t)
    ensures t < |Apply(s, a).threads| && Wants(Apply(s, a).threads[t], some)
  {
    hide Inv, Fill, Repeat;
  }

  /** Over any run a call claims an empty range of indices if and only if it was made for no element; it then goes on
      to a block in which it owns nothing. */
  lemma {:induction false} ClaimsNothingIff<T>(s: State<T>, schedule: seq<Action<T>>, t: nat, max: nat)
    requires Inv(s) && t < |s.threads| && Wants(s.threads[t], max > 0)
    requires forall a | a in schedule && a.Ask? :: a.t != t
    ensures var r := Exec(s, schedule);
            t < |r.threads| && Wants(r.threads[t], max > 0) && (r.threads[t].Claim? ==> (r.threads[t].got == 0 <==> max == 0))
    decreases |schedule|
  {
    if schedule != [] {
      if Enabled(s, schedule[0]) {
        StepWants(s, schedule[0], t, max > 0);
        hide Inv, Apply, Wants;
        ClaimsNothingIff(Apply(s, schedule[0]), schedule[1..], t, max);
      } else {
        hide Inv, Apply, Wants;
        ClaimsNothingIff(s, schedule[1..], t, max);
      }
    }
    hide Inv, Apply;
  }

  /** And one made for no element does so whenever it finds the sub-queue at rest with an element in it. */
  lemma ClaimsNothing<T>(s: State<T>, t: nat)
    requires Inv(s) && Quiescent(s) && t < |s.threads| && s.head < s.Tail()
    ensures Inv(Call(s, t, 0))
    ensures Alone(Alone(Call(s, t, 0), t, 3), t, 2).threads[t] == Claim(s.optimistic, 0)
  {
    QuiescentCountersAgree(s);
    MoveKeeps(s, t, ReadTail(0));
    var s1 := Call(s, t, 0);
    AloneReads(s1, t, 0);
    var s2 := Alone(s1, t, 3);
    hide Inv, Fill;
    StepKeeps(s2, t);
    var s3 := Step(s2, t);
    assert s3.threads[t] == Recheck(s.optimistic, 0, s.overcommit);
    StepKeeps(s3, t);
    assert Alone(s3, t, 1) == Next(s3, t);
  }
}
