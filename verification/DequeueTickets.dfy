/** The optimistic dequeue counters of a producer's sub-queue: any number of consumers draw tickets,
    take back the ones that turn out to be too many, and advance the head by the ones that count.
    A single dequeue is a bulk one with a maximum of one. */
module DequeueTickets {

  /** Auxiliary: what became of a ticket drawn from dequeueOptimisticCount. */
  datatype Ticket =
    | Open(t: nat)     // thread t drew it and has not looked at the tail since
    | Won(t: nat)      // thread t may take an element for it and has not yet advanced the head
    | Claimed          // the head was advanced for it
    | Lost(t: nat)     // there was nothing for it; thread t has yet to count it as overcommitted
    | Counted          // counted in dequeueOvercommit

  datatype Local =
    | Idle
    | ReadTail(max: nat)
    | ReadOvercommit(max: nat, tail: nat)
    | ReadOptimistic(max: nat, tail: nat, overcommit: nat)
    | Draw(want: nat, overcommit: nat)
    | Recheck(mine: nat, want: nat, overcommit: nat)
    | Shortfall(mine: nat, got: nat, want: nat)
    | Claim(mine: nat, got: nat)
    | GiveBack(mine: nat, want: nat)

  /** `items` is everything ever enqueued, so `tailIndex` is its length. `tickets` (as long as
      dequeueOptimisticCount) and `takers` (who advanced the head over each index) are auxiliary. */
  datatype State<T> = State(
    items: seq<T>, head: nat, optimistic: nat, overcommit: nat, threads: seq<Local>,
    tickets: seq<Ticket>, takers: seq<nat>)
  {
    function Tail(): nat { |items| }
  }

  function Min(a: nat, b: nat): nat { if a < b then a else b }

  function Repeat<X>(n: nat, x: X): (r: seq<X>)
    ensures |r| == n && forall i | 0 <= i < n :: r[i] == x
  {
    if n == 0 then [] else [x] + Repeat(n - 1, x)
  }

  /** The tickets from `lo` up to `hi` all become `x`. */
  function Fill(ts: seq<Ticket>, lo: nat, hi: nat, x: Ticket): (r: seq<Ticket>)
    requires lo <= hi <= |ts|
    ensures |r| == |ts|
    ensures forall i | 0 <= i < |ts| :: r[i] == if lo <= i < hi then x else ts[i]
  {
    ts[..lo] + Repeat(hi - lo, x) + ts[hi..]
  }

  function Goto<T>(s: State<T>, t: nat, l: Local): State<T>
    requires t < |s.threads|
  {
    s.(threads := s.threads[t := l])
  }

  // ---------------------------------------------------------------- steps

  function Enqueue<T>(s: State<T>, es: seq<T>): State<T> { s.(items := s.items + es) }

  function Call<T>(s: State<T>, t: nat, max: nat): State<T>
    requires t < |s.threads|
  {
    Goto(s, t, ReadTail(max))
  }

  ghost predicate Holds(ts: seq<Ticket>, lo: nat, hi: nat, x: Ticket) {
    lo <= hi <= |ts| && forall i | lo <= i < hi :: ts[i] == x
  }

  /** The tickets a thread holds are marked as its own. */
  ghost predicate HoldsOwn(l: Local, t: nat, ts: seq<Ticket>) {
    match l
    case Recheck(m, want, _) => Holds(ts, m, m + want, Open(t))
    case Shortfall(m, got, want) =>
      got <= want && Holds(ts, m, m + got, Won(t)) && Holds(ts, m + got, m + want, Lost(t))
    case Claim(m, got) => Holds(ts, m, m + got, Won(t))
    case GiveBack(m, want) => Holds(ts, m, m + want, Lost(t))
    case _ => true
  }

  ghost function Step<T>(s: State<T>, t: nat): State<T>
    requires t < |s.threads| && !s.threads[t].Idle?
    requires HoldsOwn(s.threads[t], t, s.tickets)
  {
    match s.threads[t]
    case ReadTail(max) => Goto(s, t, ReadOvercommit(max, s.Tail()))
    case ReadOvercommit(max, tail) => Goto(s, t, ReadOptimistic(max, tail, s.overcommit))
    case ReadOptimistic(max, tail, oc) =>
      if s.optimistic - oc < tail then Goto(s, t, Draw(Min(tail - (s.optimistic - oc), max), oc))
      else Goto(s, t, Idle)
    case Draw(want, oc) =>
      Goto(s, t, Recheck(s.optimistic, want, oc)).(
        optimistic := s.optimistic + want, tickets := s.tickets + Repeat(want, Open(t)))
    case Recheck(m, want, oc) =>
      if m - oc < s.Tail() then
        var got := Min(want, s.Tail() - (m - oc));
        Goto(s, t, if got < want then Shortfall(m, got, want) else Claim(m, got)).(
          tickets := Fill(Fill(s.tickets, m, m + got, Won(t)), m + got, m + want, Lost(t)))
      else
        Goto(s, t, GiveBack(m, want)).(tickets := Fill(s.tickets, m, m + want, Lost(t)))
    case Shortfall(m, got, want) =>
      Goto(s, t, Claim(m, got)).(
        overcommit := s.overcommit + (want - got),
        tickets := Fill(s.tickets, m + got, m + want, Counted))
    case Claim(m, got) =>
      Goto(s, t, Idle).(
        head := s.head + got,
        tickets := Fill(s.tickets, m, m + got, Claimed), takers := s.takers + Repeat(got, t))
    case GiveBack(m, want) =>
      Goto(s, t, Idle).(
        overcommit := s.overcommit + want, tickets := Fill(s.tickets, m, m + want, Counted))
  }

  // ---------------------------------------------------------------- invariant

  datatype Kind = IsOpen | IsWon | IsClaimed | IsLost | IsCounted

  function KindOf(x: Ticket): Kind {
    match x
    case Open(_) => IsOpen
    case Won(_) => IsWon
    case Claimed => IsClaimed
    case Lost(_) => IsLost
    case Counted => IsCounted
  }

  function Count(ts: seq<Ticket>, k: Kind): nat {
    if ts == [] then 0 else Count(ts[..|ts| - 1], k) + (if KindOf(ts[|ts| - 1]) == k then 1 else 0)
  }

  function Losses(ts: seq<Ticket>): nat { Count(ts, IsLost) + Count(ts, IsCounted) }

  predicate IsWin(x: Ticket) { x.Won? || x.Claimed? }

  function Wins(ts: seq<Ticket>): nat { Count(ts, IsWon) + Count(ts, IsClaimed) }

  /** A winning ticket is below the tail once the losing tickets drawn before it are discounted. */
  ghost predicate Justified(ts: seq<Ticket>, tail: nat) {
    forall i | 0 <= i < |ts| && IsWin(ts[i]) :: i + 1 <= tail + Losses(ts[..i])
  }

  /** An overcommit value a thread holds, however stale, counts tickets that had been drawn and
      lost before the thread drew its own. */
  ghost predicate StaleOk<T>(l: Local, s: State<T>) {
    match l
    case ReadOptimistic(_, tail, oc) => oc <= s.overcommit && tail <= s.Tail()
    case Draw(_, oc) => oc <= s.overcommit
    case Recheck(m, want, oc) => m <= |s.tickets| && oc <= Losses(s.tickets[..m])
    case ReadOvercommit(_, tail) => tail <= s.Tail()
    case _ => true
  }

  predicate Marked(x: Ticket) { x.Open? || x.Won? || x.Lost? }

  predicate InSpan(l: Local, i: nat, x: Ticket) {
    match l
    case Recheck(m, want, _) => x.Open? && m <= i < m + want
    case Shortfall(m, got, want) => (x.Won? && m <= i < m + got) || (x.Lost? && m + got <= i < m + want)
    case Claim(m, got) => x.Won? && m <= i < m + got
    case GiveBack(m, want) => x.Lost? && m <= i < m + want
    case _ => false
  }

  /** Every ticket still marked with a thread is one that thread is dealing with. */
  ghost predicate Tended(ts: seq<Ticket>, threads: seq<Local>) {
    forall i | 0 <= i < |ts| && Marked(ts[i]) ::
      ts[i].t < |threads| && InSpan(threads[ts[i].t], i, ts[i])
  }

  ghost predicate Inv<T>(s: State<T>) {
    && |s.tickets| == s.optimistic
    && Count(s.tickets, IsClaimed) == s.head && Count(s.tickets, IsCounted) == s.overcommit
    && |s.takers| == s.head
    && Justified(s.tickets, s.Tail())
    && Tended(s.tickets, s.threads)
    && (forall t | 0 <= t < |s.threads| ::
          HoldsOwn(s.threads[t], t, s.tickets) && StaleOk(s.threads[t], s))
  }

  // ---------------------------------------------------------------- counting

  lemma {:induction false} CountConcat(a: seq<Ticket>, b: seq<Ticket>, k: Kind)
    ensures Count(a + b, k) == Count(a, k) + Count(b, k)
  {
    if b == [] {
      assert a + b == a;
    } else {
      assert (a + b)[..|a + b| - 1] == a + b[..|b| - 1];
      CountConcat(a, b[..|b| - 1], k);
    }
  }

  lemma {:induction false} CountSame(a: seq<Ticket>, x: Kind, k: Kind)
    requires forall i | 0 <= i < |a| :: KindOf(a[i]) == x
    ensures Count(a, k) == if x == k then |a| else 0
  {
    if a != [] { CountSame(a[..|a| - 1], x, k); }
  }

  /** Re-marking a span of one kind as another moves that many from one count to the other. */
  lemma CountFill(ts: seq<Ticket>, lo: nat, hi: nat, from: Kind, x: Ticket, k: Kind)
    requires lo <= hi <= |ts| && forall i | lo <= i < hi :: KindOf(ts[i]) == from
    ensures Count(Fill(ts, lo, hi, x), k) ==
            Count(ts, k) + (if KindOf(x) == k then hi - lo else 0) - (if from == k then hi - lo else 0)
  {
    var r := Fill(ts, lo, hi, x);
    assert ts == ts[..lo] + ts[lo..hi] + ts[hi..];
    assert r == ts[..lo] + r[lo..hi] + ts[hi..];
    CountConcat(ts[..lo] + ts[lo..hi], ts[hi..], k);
    CountConcat(ts[..lo], ts[lo..hi], k);
    CountConcat(ts[..lo] + r[lo..hi], ts[hi..], k);
    CountConcat(ts[..lo], r[lo..hi], k);
    CountSame(ts[lo..hi], from, k);
    CountSame(r[lo..hi], KindOf(x), k);
  }

  /** The kinds partition the tickets. */
  lemma {:induction false} CountAll(ts: seq<Ticket>)
    ensures Count(ts, IsOpen) + Wins(ts) + Losses(ts) == |ts|
  {
    if ts != [] { CountAll(ts[..|ts| - 1]); }
  }

  /** The argument over the highest winning ticket: justified wins are no more than the tail. */
  lemma {:induction false} WinsBelowTail(ts: seq<Ticket>, tail: nat)
    requires Justified(ts, tail)
    ensures Wins(ts) <= tail
  {
    if ts != [] {
      var rest := ts[..|ts| - 1];
      assert forall i | 0 <= i < |rest| :: rest[..i] == ts[..i];
      if IsWin(ts[|ts| - 1]) {
        CountAll(rest);
      } else {
        WinsBelowTail(rest, tail);
      }
    }
  }
}
