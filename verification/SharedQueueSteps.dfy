/** Every step of `SharedQueue` keeps the machines fitting together. */
module SharedQueueSteps {
  import opened Options
  import opened SharedQueue
  import opened SharedQueueProof
  import opened Slots
  import T = DequeueTickets
  import TP = DequeueTicketsProof
  import L = BlockLeases
  import LP = BlockLeasesProof
  import X = BlockLookup
  import XP = BlockLookupProof

  // ---------------------------------------------------------------- what a step of one machine leaves alone

  lemma TicketThreads<E>(t: T.State<E>, a: TP.Action<E>)
    requires T.Inv(t) && TP.Enabled(t, a)
    ensures var r := TP.Apply(t, a);
            && |r.threads| == |t.threads|
            && (a.Put? ==> r == t.(items := t.items + a.es))
            && (a.Ask? ==> r == t.(threads := t.threads[a.t := T.ReadTail(a.max)]))
            && (a.Go? ==> r.items == t.items && forall u | 0 <= u < |t.threads| && u != a.t :: r.threads[u] == t.threads[u])
  {
    hide T.Inv, T.Fill, T.Repeat;
  }

  lemma TicketGo<E>(t: T.State<E>, c: nat)
    requires T.Inv(t) && TP.Enabled(t, TP.Go(c)) && Wants(t.threads[c])
    ensures var r := TP.Apply(t, TP.Go(c));
            && |r.threads| == |t.threads| && Wants(r.threads[c])
            && (!t.threads[c].Claim? ==> r.head == t.head && r.takers == t.takers)
            && (t.threads[c].Claim? ==>
                  && r.threads[c].Idle? && r.head == t.head + t.threads[c].got
                  && r.takers == t.takers + T.Repeat(t.threads[c].got, c))
  {
    hide T.Inv, T.Fill, T.Repeat;
  }

  lemma IndexSizes(x: X.State, m: X.Move)
    requires X.Inv(x) && X.Enabled(x, m)
    ensures var r := X.Step(x, m);
            && r.width == x.width && |r.readers| == |x.readers|
            && |r.keys| == (if m.Grow? then 2 * |x.keys| else |x.keys|)
            && (!XP.ByProducer(m) ==> r.next == x.next && r.published == x.published && r.producer == x.producer)
            && (XP.ByProducer(m) || m.Free? ==> r.readers == x.readers)
  {
    hide X.HeaderOk, X.Live, X.Distinct, X.Keyed, X.Filled, X.Readers;
  }

  lemma StepTickets<E>(s: State<E>, m: Move<E>)
    requires Sizes(s) && Machines(s) && Fires(s, m)
    ensures var r := SubAfter(s, m).tickets; T.Inv(r) && |r.threads| == |s.reading|
  {
    var sub := s.subs[Whose(s, m)];
    assert SubSizes(sub, s.leases.size, |s.reading|);
    if TicketMove(s, m).Some? { TicketThreads(sub.tickets, TicketMove(s, m).value); }
    hide L.Inv, X.Inv, T.Inv, L.Enabled, X.Enabled, X.Step, TP.Apply, X.Order, BlockNo, SlotReady, BlockReady, Sizes, Machines,
      LeaseMove, IndexMove, TicketMove, ValuesAfter, SubSizes;
  }

  lemma StepIndex<E>(s: State<E>, m: Move<E>)
    requires Sizes(s) && Machines(s) && Fires(s, m)
    ensures var r := SubAfter(s, m);
            && X.Inv(r.index) && |r.index.readers| == |s.reading| && r.index.width.blockSize == s.leases.size
            && |r.values| == |r.index.keys|
  {
    var sub := s.subs[Whose(s, m)];
    assert SubSizes(sub, s.leases.size, |s.reading|);
    ValuesLength(s, m);
    var some := IndexMove(s, m);
    assert some.Some? ==> X.Enabled(sub.index, some.value);
    assert SubAfter(s, m).index == if some.Some? then X.Step(sub.index, some.value) else sub.index;
    hide Machines, Fires, SubAfter, IndexMove, X.Inv, X.Enabled, X.Step, ValuesAfter;
    if some.Some? {
      XP.StepKeepsInv(sub.index, some.value);
      IndexSizes(sub.index, some.value);
    }
  }

  lemma ValuesLength<E>(s: State<E>, m: Move<E>)
    requires Sizes(s) && Machines(s) && Fires(s, m)
    ensures var sub := s.subs[Whose(s, m)];
            && SubAfter(s, m).values == ValuesAfter(s, m)
            && |ValuesAfter(s, m)| == (if m.Grow? then 2 * |sub.values| else |sub.values|)
            && (m.Grow? <==> IndexMove(s, m).Some? && IndexMove(s, m).value.Grow?)
  {
    hide *;
    FiresWhose(s, m);
    IndexAfter(s, m);
    OnlyGrowGrows(s, m);
    ValuesAre(s, m);
    ValuesGrow(s, m);
  }

  lemma OnlyGrowGrows<E>(s: State<E>, m: Move<E>)
    requires Sizes(s) && Whose(s, m) < |s.subs|
    ensures m.Grow? <==> IndexMove(s, m).Some? && IndexMove(s, m).value.Grow?
  {
    hide Sizes, Whose, BlockNo;
  }

  lemma ValuesAre<E>(s: State<E>, m: Move<E>)
    requires Sizes(s) && Machines(s) && Fires(s, m)
    ensures SubAfter(s, m).values == ValuesAfter(s, m)
  {
    hide Whose, ValuesAfter, LeaseMove, IndexMove, TicketMove, X.Step, TP.Apply, Machines, Fires;
  }

  lemma ValuesGrow<E>(s: State<E>, m: Move<E>)
    requires Sizes(s) && Whose(s, m) < |s.subs| && X.Shape(s.subs[Whose(s, m)].index)
    ensures var sub := s.subs[Whose(s, m)];
            && |ValuesAfter(s, m)| == (if m.Grow? then 2 * |sub.values| else |sub.values|)
            && (!m.StoreValue? ==> sub.values <= ValuesAfter(s, m)) && (!m.StoreValue? && !m.Grow? ==> ValuesAfter(s, m) == sub.values)
            && (m.StoreValue? ==> |sub.values| == |sub.index.keys|
                                  && ValuesAfter(s, m) == sub.values[X.Order(sub.index)[|sub.index.keys| - 1] := m.b])
  {
    assert SubSizes(s.subs[Whose(s, m)], s.leases.size, |s.reading|);
    hide Whose, X.Order, X.Shape, L.Shape;
  }

  predicate LeaseMoveIs<E>(m: Move<E>, lm: L.Move) {
    match m
    case Obtain(from) => lm == from
    case StoreValue(p, b) => lm == L.Enter(p, b)
    case TakeBack(p) => lm == L.TakeBack(p)
    case Publish(p) => lm.Publish? && lm.p == p
    case Claim(c, p) => lm.Claim? && lm.c == c && lm.p == p
    case LookUp(c) => lm == L.LookUp(c)
    case Complete(c) => lm == L.Complete(c)
    case Clear(c) => lm == L.Clear(c)
    case AddFree(c) => lm == L.AddFree(c)
    case _ => false
  }

  lemma LeaseMoveFor<E>(s: State<E>, m: Move<E>)
    requires Whose(s, m) < |s.subs|
    ensures LeaseMove(s, m).Some? ==> LeaseMoveIs(m, LeaseMove(s, m).value)
  {
  }

  /** The consumer a move is about. */
  function Who<E>(m: Move<E>): int {
    match m
    case Ask(c, _, _) => c
    case Count(c, _) => c
    case Claim(c, _) => c
    case LoadHeader(c) => c
    case LoadTail(c) => c
    case LoadKey(c) => c
    case LookUp(c) => c
    case Read(c) => c
    case Complete(c) => c
    case Clear(c) => c
    case AddFree(c) => c
    case _ => -1
  }

  lemma WhoIs<E>(m: Move<E>)
    ensures m.Claim? || m.Count? || m.LookUp? || m.Read? || m.Complete? ==> Who(m) == m.c
  {
  }

  /** One producer's blocks and one consumer change, if any. */
  lemma LeasesFrame<E>(s: State<E>, m: Move<E>)
    requires Sizes(s) && Machines(s) && Ready(s, m) && Fires(s, m)
    ensures var r, p := LeasesAfter(s, m), Whose(s, m);
            && L.Inv(r) && r.size == s.leases.size && |r.producers| == |s.leases.producers| && |r.consumers| == |s.leases.consumers|
            && (forall q: nat | q < |s.leases.producers| && q != p :: r.producers[q] == s.leases.producers[q])
            && (forall c: nat | c < |s.leases.consumers| && c != Who(m) :: r.consumers[c] == s.leases.consumers[c])
  {
    assert L.Inv(s.leases) && L.Shape(s.leases);
    LeaseMoveFor(s, m);
    var some := LeaseMove(s, m);
    assert some.Some? ==> L.Enabled(s.leases, some.value);
    assert m.Obtain? ==> m.from.FromPool? || m.from.FromFree? || m.from.NewBlock? || m.from.GiveBack?;
    assert LeasesAfter(s, m) == if some.Some? then L.Step(s.leases, some.value) else s.leases;
    var r := LeasesAfter(s, m);
    hide Sizes, Machines, Ready, Fires, LeaseMove, LeasesAfter, L.Inv, L.Step, L.Enabled;
    if some.Some? {
      LP.StepKeepsInv(s.leases, some.value);
      LP.StepFrame(s.leases, some.value);
      SameProducer(s, m, some.value);
    }
  }

  lemma SameProducer<E>(s: State<E>, m: Move<E>, lm: L.Move)
    requires L.Shape(s.leases) && L.Enabled(s.leases, lm) && LeaseMoveIs(m, lm)
    requires m.Obtain? ==> m.from.FromPool? || m.from.FromFree? || m.from.NewBlock? || m.from.GiveBack?
    ensures LP.Whose(s.leases, lm) == Whose(s, m)
    ensures LP.ByConsumer(lm) ==> lm.c == Who(m)
  {
    hide BlockNo, First;
  }

  lemma StepMachines<E>(s: State<E>, m: Move<E>)
    requires Sizes(s) && Machines(s) && Ready(s, m) && Fires(s, m)
    ensures Sizes(Step(s, m)) && Machines(Step(s, m))
  {
    hide *;
    FiresWhose(s, m);
    StepTickets(s, m);
    StepIndex(s, m);
    LeasesFrame(s, m);
    StepParts(s, m);
    SizesEqual(s);
    MachinesFrom(s, Step(s, m), Whose(s, m));
  }

  lemma MachinesFrom<E>(s: State<E>, s': State<E>, p: nat)
    requires Sizes(s) && Machines(s) && L.Inv(s'.leases) && s'.leases.size == s.leases.size
    requires |s'.leases.producers| == |s.leases.producers| && |s'.leases.consumers| == |s.leases.consumers|
    requires p < |s.subs| == |s'.subs| && s'.subs == s.subs[p := s'.subs[p]] && |s'.reading| == |s.reading|
    requires T.Inv(s'.subs[p].tickets) && |s'.subs[p].tickets.threads| == |s.reading|
    requires X.Inv(s'.subs[p].index) && |s'.subs[p].index.readers| == |s.reading|
    requires s'.subs[p].index.width.blockSize == s.leases.size && |s'.subs[p].values| == |s'.subs[p].index.keys|
    ensures Sizes(s') && Machines(s')
  {
    assert L.Shape(s'.leases);
    hide L.Inv, X.Inv, T.Inv, L.Shape;
  }

  /** A step is made of its parts. */
  lemma StepParts<E>(s: State<E>, m: Move<E>)
    requires Sizes(s) && Machines(s) && Fires(s, m)
    ensures var s', p := Step(s, m), Whose(s, m);
            && p < |s.subs| && s'.leases == LeasesAfter(s, m) && s'.subs == s.subs[p := SubAfter(s, m)]
            && |s'.reading| == |s.reading|
            && (!(m.LookUp? || m.Read?) ==> s'.reading == s.reading)
            && (forall d | 0 <= d < |s.reading| && d != Who(m) :: s'.reading[d] == s.reading[d])
            && (m.LookUp? ==> m.c < |s.leases.consumers| && m.c < |s.reading| && s.leases.consumers[m.c].Working?
                              && s'.reading[m.c] == s.leases.consumers[m.c].at)
            && (m.Read? ==> m.c < |s.reading| && s'.reading[m.c] == s.reading[m.c] + 1)
            && (!(m.Build? || m.Read?) ==> s'.cells == s.cells)
            && (!m.Read? ==> s'.seen == s.seen)
  {
    hide L.Inv, X.Inv, T.Inv, LeasesAfter, SubAfter, L.Enabled, X.Enabled, LeaseMove, IndexMove, TicketMove, Machines;
  }

  // ---------------------------------------------------------------- what a step changes of a producer

  lemma LeaseEffect(l: L.State, lm: L.Move)
    requires L.Shape(l) && L.Enabled(l, lm)
    ensures LP.Whose(l, lm) < |l.producers| == |L.Step(l, lm).producers|
    ensures var q, r := l.producers[LP.Whose(l, lm)], L.Step(l, lm).producers[LP.Whose(l, lm)];
            && r.head == (if lm.Claim? then q.head + lm.n else q.head)
            && r.tail == (if lm.Publish? then q.tail + lm.n else q.tail)
            && r.next == (if lm.Enter? then q.next + 1 else if lm.TakeBack? then q.next - 1 else q.next)
            && r.entries == (if lm.Enter? then q.entries[q.next := lm.b] else if lm.TakeBack? then q.entries - {q.next - 1}
                             else if lm.Clear? then q.entries - {l.consumers[lm.c].k} else q.entries)
            && r.done == (if lm.Complete? then q.done + L.Range(l.consumers[lm.c].at, l.consumers[lm.c].end) else q.done)
  {
    hide First, BlockNo, L.Range;
  }

  lemma IndexEffect(x: X.State, m: X.Move)
    requires X.Shape(x) && X.Enabled(x, m)
    ensures var r := X.Step(x, m);
            && r.next == (if m.StoreTail? then x.next + 1 else if m.Rewind? then x.next - 1 else x.next)
            && r.published == (if m.Publish? then x.next else x.published)
            && (r.producer.TailStored? <==> m.StoreTail? || (x.producer.TailStored? && !m.StoreValue? && !m.Rewind?))
  {
    hide X.HeaderOk, X.Live;
  }

  function GotOf<E>(sub: Sub<E>, m: Move<E>): nat {
    if m.Claim? && Won(sub, m.c) then sub.tickets.threads[m.c].got else 0
  }

  /** What a step does to the leases of its producer. */
  ghost predicate LeaseChange<E>(s: State<E>, m: Move<E>, q: L.Producer, r: L.Producer)
    requires Whose(s, m) < |s.subs|
  {
    var sub := s.subs[Whose(s, m)];
    && r.head == (if m.Claim? then q.head + GotOf(sub, m) else q.head)
    && r.tail == (if m.Publish? then q.tail + |sub.building| else q.tail)
    && r.next == (if m.StoreValue? then q.next + 1 else if m.TakeBack? then q.next - 1 else q.next)
    && r.entries == (if m.StoreValue? then q.entries[q.next := m.b] else if m.TakeBack? then q.entries - {q.next - 1}
                     else if m.Clear? && m.c < |s.leases.consumers| && s.leases.consumers[m.c].Clearing?
                     then q.entries - {s.leases.consumers[m.c].k} else q.entries)
    && r.done == (if m.Complete? && m.c < |s.leases.consumers| && s.leases.consumers[m.c].Reading?
                  then q.done + L.Range(s.leases.consumers[m.c].at, s.leases.consumers[m.c].end) else q.done)
  }

  lemma LeasesChange<E>(s: State<E>, m: Move<E>)
    requires Sizes(s) && Machines(s) && Ready(s, m) && Fires(s, m)
    ensures var r := LeasesAfter(s, m);
            && Whose(s, m) < |s.leases.producers| == |r.producers|
            && LeaseChange(s, m, s.leases.producers[Whose(s, m)], r.producers[Whose(s, m)])
  {
    LeaseMoveFor(s, m);
    var some := LeaseMove(s, m);
    assert L.Shape(s.leases) && Whose(s, m) < |s.leases.producers|;
    assert some.Some? ==> L.Enabled(s.leases, some.value);
    assert LeasesAfter(s, m) == if some.Some? then L.Step(s.leases, some.value) else s.leases;
    MoveKinds(s, m);
    hide *;
    if some.Some? {
      LeaseMoves(s, m, some.value);
    } else {
      NoLeaseMove(s, m);
    }
  }

  lemma LeaseMoves<E>(s: State<E>, m: Move<E>, lm: L.Move)
    requires L.Shape(s.leases) && L.Enabled(s.leases, lm) && Whose(s, m) < |s.subs| && LeaseMoveIs(m, lm)
    requires m.Obtain? ==> m.from.FromPool? || m.from.FromFree? || m.from.NewBlock? || m.from.GiveBack?
    requires m.Claim? ==> lm.n == GotOf(s.subs[Whose(s, m)], m)
    requires m.Publish? ==> lm.n == |s.subs[Whose(s, m)].building|
    requires m.Clear? ==> m.c < |s.leases.consumers| && s.leases.consumers[m.c].Clearing?
    requires m.Complete? ==> m.c < |s.leases.consumers| && s.leases.consumers[m.c].Reading?
    ensures var r := L.Step(s.leases, lm);
            && Whose(s, m) < |s.leases.producers| == |r.producers|
            && LeaseChange(s, m, s.leases.producers[Whose(s, m)], r.producers[Whose(s, m)])
  {
    SameProducer(s, m, lm);
    LeaseEffect(s.leases, lm);
    hide L.Step, L.Enabled, L.Shape, LP.Whose, Whose, L.Range, GotOf;
  }

  lemma NoLeaseMove<E>(s: State<E>, m: Move<E>)
    requires Whose(s, m) < |s.subs| && Whose(s, m) < |s.leases.producers|
    requires !m.Claim? && !m.Publish? && !m.StoreValue? && !m.TakeBack? && !m.Clear? && !m.Complete?
    ensures LeaseChange(s, m, s.leases.producers[Whose(s, m)], s.leases.producers[Whose(s, m)])
  {
    hide Whose, GotOf;
  }

  /** How many a step claims or publishes, and that it does what it is ready for. */
  lemma MoveKinds<E>(s: State<E>, m: Move<E>)
    requires Sizes(s) && Machines(s) && Ready(s, m) && Whose(s, m) < |s.subs|
    ensures var sub, some := s.subs[Whose(s, m)], LeaseMove(s, m);
            && (m.Claim? ==> some.Some? && some.value.n == GotOf(sub, m))
            && (m.Publish? ==> some.Some? && some.value.n == |sub.building|)
            && (m.StoreValue? || m.TakeBack? || m.Clear? || m.Complete? || m.LookUp? || m.AddFree? || m.Obtain? ==> some.Some?)
            && (m.Obtain? ==> m.from.FromPool? || m.from.FromFree? || m.from.NewBlock? || m.from.GiveBack?)
            && (m.Clear? ==> m.c < |s.leases.consumers| && s.leases.consumers[m.c].Clearing?)
            && (m.Complete? ==> m.c < |s.leases.consumers| && s.leases.consumers[m.c].Reading?)
  {
    hide L.Inv, X.Inv, T.Inv, X.Enabled, L.Enabled, AtRest;
  }

  /** What it does to its counters. */
  ghost predicate TicketChange<E>(s: State<E>, m: Move<E>, t: T.State<E>, r: T.State<E>)
    requires Whose(s, m) < |s.subs|
  {
    var sub := s.subs[Whose(s, m)];
    && r.head == (if m.Claim? then t.head + GotOf(sub, m) else t.head)
    && r.takers == (if m.Claim? then t.takers + T.Repeat(GotOf(sub, m), m.c) else t.takers)
    && r.items == (if m.Publish? then t.items + sub.building else t.items)
    && |r.threads| == |t.threads|
    && (forall u | 0 <= u < |t.threads| && !(u == Who(m) && (m.Ask? || m.Count? || m.Claim?)) :: r.threads[u] == t.threads[u])
    && (m.Claim? && m.c < |t.threads| ==> r.threads[m.c].Idle?)
    && (m.Ask? && m.c < |t.threads| ==> r.threads[m.c] == T.ReadTail(m.max))
  }

  lemma TicketsChange<E>(s: State<E>, m: Move<E>)
    requires Sizes(s) && Machines(s) && Ready(s, m) && Fires(s, m)
    requires m.Count? || m.Claim? ==>
      m.c < |s.subs[Whose(s, m)].tickets.threads| && Wants(s.subs[Whose(s, m)].tickets.threads[m.c])
    ensures TicketChange(s, m, s.subs[Whose(s, m)].tickets, SubAfter(s, m).tickets)
    ensures m.Count? || m.Claim? ==>
              m.c < |SubAfter(s, m).tickets.threads| && Wants(SubAfter(s, m).tickets.threads[m.c])
  {
    var t, some := s.subs[Whose(s, m)].tickets, TicketMove(s, m);
    assert T.Inv(t) && (some.Some? ==> TP.Enabled(t, some.value));
    assert SubAfter(s, m).tickets == if some.Some? then TP.Apply(t, some.value) else t;
    TicketKinds(s, m);
    hide *;
    if some.Some? {
      TicketThreads(t, some.value);
      if some.value.Go? { TicketGo(t, some.value.t); }
      TicketMoves(s, m, some.value, TP.Apply(t, some.value));
    } else {
      NoTicketMove(s, m);
    }
  }

  lemma TicketKinds<E>(s: State<E>, m: Move<E>)
    requires Sizes(s) && Machines(s) && Ready(s, m) && Whose(s, m) < |s.subs|
    requires m.Count? || m.Claim? ==>
      m.c < |s.subs[Whose(s, m)].tickets.threads| && Wants(s.subs[Whose(s, m)].tickets.threads[m.c])
    ensures var sub, some := s.subs[Whose(s, m)], TicketMove(s, m);
            && (m.Publish? ==> some == Some(TP.Put(sub.building)))
            && (m.Ask? ==> some == Some(TP.Ask(m.c, m.max)))
            && (m.Count? || m.Claim? ==> some == Some(TP.Go(m.c)) && m.c < |sub.tickets.threads| && Wants(sub.tickets.threads[m.c]))
            && (m.Count? ==> !sub.tickets.threads[m.c].Claim?)
            && (m.Claim? ==> Won(sub, m.c))
            && (!(m.Publish? || m.Ask? || m.Count? || m.Claim?) ==> some.None?)
  {
    hide L.Inv, X.Inv, T.Inv, X.Enabled, L.Enabled, AtRest, Wants;
  }

  lemma TicketMoves<E>(s: State<E>, m: Move<E>, a: TP.Action<E>, r: T.State<E>)
    requires Whose(s, m) < |s.subs|
    requires var t, sub := s.subs[Whose(s, m)].tickets, s.subs[Whose(s, m)];
      && |r.threads| == |t.threads|
      && (m.Publish? ==> a == TP.Put(sub.building))
      && (m.Ask? ==> a == TP.Ask(m.c, m.max) && m.c < |t.threads|)
      && (m.Count? || m.Claim? ==> a == TP.Go(m.c) && m.c < |t.threads|)
      && (m.Count? ==> !t.threads[m.c].Claim?)
      && (m.Claim? ==> Won(sub, m.c))
      && (m.Publish? || m.Ask? || m.Count? || m.Claim?)
      && (a.Put? ==> r == t.(items := t.items + a.es))
      && (a.Ask? ==> r == t.(threads := t.threads[a.t := T.ReadTail(a.max)]))
      && (a.Go? ==>
            && r.items == t.items && (forall u | 0 <= u < |t.threads| && u != a.t :: r.threads[u] == t.threads[u])
            && (!t.threads[a.t].Claim? ==> r.head == t.head && r.takers == t.takers)
            && (t.threads[a.t].Claim? ==>
                  && r.threads[a.t].Idle? && r.head == t.head + t.threads[a.t].got
                  && r.takers == t.takers + T.Repeat(t.threads[a.t].got, a.t)))
    ensures TicketChange(s, m, s.subs[Whose(s, m)].tickets, r)
  {
    hide Whose, T.Repeat;
  }

  lemma NoTicketMove<E>(s: State<E>, m: Move<E>)
    requires Whose(s, m) < |s.subs| && !(m.Publish? || m.Ask? || m.Count? || m.Claim?)
    ensures TicketChange(s, m, s.subs[Whose(s, m)].tickets, s.subs[Whose(s, m)].tickets)
  {
    hide Whose, T.Repeat;
  }

  /** What it does to its index. */
  ghost predicate IndexChange<E>(m: Move<E>, x: X.State, r: X.State) {
    && r.next == (if m.StoreTail? then x.next + 1 else if m.DropEntry? || m.TakeBack? then x.next - 1 else x.next)
    && r.published == (if m.Publish? then x.next else x.published)
    && (r.producer.TailStored? <==>
          m.StoreTail? || (x.producer.TailStored? && !m.StoreValue? && !m.DropEntry? && !m.TakeBack?))
  }

  predicate IndexMoveIs<E>(m: Move<E>, xm: X.Move) {
    match m
    case StoreKey(_) => xm.StoreKey?
    case StoreTail(_) => xm.StoreTail?
    case Grow(_) => xm.Grow?
    case StoreValue(_, _) => xm.StoreValue?
    case DropEntry(_) => xm.Rewind?
    case TakeBack(_) => xm.Rewind?
    case Publish(_) => xm.Publish?
    case Claim(c, _) => xm.Claim? && xm.r == c
    case LoadHeader(c) => xm == X.LoadHeader(c)
    case LoadTail(c) => xm == X.LoadTail(c)
    case LoadKey(c) => xm == X.LoadKey(c)
    case Complete(c) => xm == X.Next(c) || xm == X.Finish(c)
    case Clear(c) => xm.Free?
    case _ => false
  }

  lemma IndexChanges<E>(s: State<E>, m: Move<E>)
    requires Sizes(s) && Machines(s) && Ready(s, m) && Fires(s, m)
    ensures IndexChange(m, s.subs[Whose(s, m)].index, SubAfter(s, m).index)
  {
    var x, some := s.subs[Whose(s, m)].index, IndexMove(s, m);
    assert X.Inv(x) && X.Shape(x) && (some.Some? ==> X.Enabled(x, some.value));
    assert SubAfter(s, m).index == if some.Some? then X.Step(x, some.value) else x;
    IndexKinds(s, m);
    hide *;
    if some.Some? {
      IndexEffect(x, some.value);
      IndexMoves(m, x, some.value, X.Step(x, some.value));
    } else {
      NoIndexMove(m, x);
    }
  }

  lemma IndexKinds<E>(s: State<E>, m: Move<E>)
    requires Sizes(s) && Machines(s) && Ready(s, m) && Whose(s, m) < |s.subs|
    ensures var some := IndexMove(s, m);
            && (some.Some? ==> IndexMoveIs(m, some.value))
            && (m.StoreTail? || m.StoreValue? || m.DropEntry? || m.TakeBack? || m.Publish? || m.StoreKey? || m.Grow? ==> some.Some?)
  {
    hide L.Inv, X.Inv, T.Inv, X.Enabled, L.Enabled, AtRest, BlockNo;
  }

  lemma IndexMoves<E>(m: Move<E>, x: X.State, xm: X.Move, r: X.State)
    requires IndexMoveIs(m, xm)
    requires r.next == (if xm.StoreTail? then x.next + 1 else if xm.Rewind? then x.next - 1 else x.next)
    requires r.published == (if xm.Publish? then x.next else x.published)
    requires r.producer.TailStored? <==> xm.StoreTail? || (x.producer.TailStored? && !xm.StoreValue? && !xm.Rewind?)
    ensures IndexChange(m, x, r)
  {
  }

  lemma NoIndexMove<E>(m: Move<E>, x: X.State)
    requires !(m.StoreTail? || m.StoreValue? || m.DropEntry? || m.TakeBack? || m.Publish?)
    ensures IndexChange(m, x, x)
  {
  }

  // ---------------------------------------------------------------- the numbers agree

  lemma NumbersJoin<E>(s: State<E>, m: Move<E>, q: L.Producer, r: L.Producer, sub': Sub<E>)
    requires s.leases.size > 0 && Whose(s, m) < |s.subs|
    requires var sub, size := s.subs[Whose(s, m)], s.leases.size;
      && Joined(q, sub, size)
      && LeaseChange(s, m, q, r) && TicketChange(s, m, sub.tickets, sub'.tickets) && IndexChange(m, sub.index, sub'.index)
      && sub'.building == (if m.Build? then sub.building + [m.e] else if m.Publish? then [] else sub.building)
      && (m.StoreTail? ==> !sub.index.producer.TailStored?)
      && (m.StoreValue? || m.DropEntry? ==> sub.index.producer.TailStored?)
      && (m.TakeBack? ==> !sub.index.producer.TailStored? && sub.building == [] && q.tail <= First(q.next - 1, size))
      && (m.Build? ==> q.tail + |sub.building| < First(q.next, size))
      && (m.Publish? ==> !sub.index.producer.TailStored?)
    ensures Joined(r, sub', s.leases.size)
  {
    if m.StoreValue? { FirstNext(q.next, s.leases.size); }
    hide First, Whose, GotOf, T.Repeat;
  }

  /** What the step was ready for. */
  lemma Readiness<E>(s: State<E>, m: Move<E>)
    requires Fits(s) && Ready(s, m) && Fires(s, m)
    ensures var p := Whose(s, m);
            && p < |s.subs|
            && var sub, q, size := s.subs[p], s.leases.producers[p], s.leases.size;
               && SubAfter(s, m).building == (if m.Build? then sub.building + [m.e] else if m.Publish? then [] else sub.building)
               && (m.StoreTail? ==> !sub.index.producer.TailStored?)
               && (m.StoreValue? || m.DropEntry? ==> sub.index.producer.TailStored?)
               && (m.TakeBack? ==> !sub.index.producer.TailStored? && sub.building == [] && q.tail <= First(q.next - 1, size))
               && (m.Build? ==> q.tail + |sub.building| < First(q.next, size))
               && (m.Publish? ==> !sub.index.producer.TailStored?)
               && (m.Count? || m.Claim? ==> m.c < |sub.tickets.threads| && Wants(sub.tickets.threads[m.c]))
  {
    hide *;
    Basics(s);
    FiresWhose(s, m);
    BuildingAfter(s, m);
    ReadyGuards(s, m);
    if m.Count? || m.Claim? { ReadyWants(s, m); }
  }

  lemma BuildingAfter<E>(s: State<E>, m: Move<E>)
    requires Sizes(s) && Machines(s) && Fires(s, m) && Whose(s, m) < |s.subs|
    ensures SubAfter(s, m).building ==
            (if m.Build? then s.subs[Whose(s, m)].building + [m.e] else if m.Publish? then [] else s.subs[Whose(s, m)].building)
  {
    hide Whose, Sizes, Machines, Fires, LeaseMove, IndexMove, TicketMove, ValuesAfter, X.Step, TP.Apply;
  }

  lemma ReadyGuards<E>(s: State<E>, m: Move<E>)
    requires Sizes(s) && Machines(s) && Ready(s, m) && Fires(s, m) && Whose(s, m) < |s.subs| == |s.leases.producers|
    ensures var sub, q, size := s.subs[Whose(s, m)], s.leases.producers[Whose(s, m)], s.leases.size;
            && (m.StoreTail? ==> !sub.index.producer.TailStored?)
            && (m.StoreValue? || m.DropEntry? ==> sub.index.producer.TailStored?)
            && (m.TakeBack? ==> !sub.index.producer.TailStored? && sub.building == [] && q.tail <= First(q.next - 1, size))
            && (m.Build? ==> q.tail + |sub.building| < First(q.next, size))
            && (m.Publish? ==> !sub.index.producer.TailStored?)
  {
    hide L.Inv, X.Inv, T.Inv, First, X.Enabled, AtRest, BlockReady, SlotReady;
  }

  lemma ReadyWants<E>(s: State<E>, m: Move<E>)
    requires Fits(s) && Ready(s, m) && (m.Count? || m.Claim?)
    ensures Whose(s, m) < |s.subs| && m.c < |s.subs[Whose(s, m)].tickets.threads|
    ensures Wants(s.subs[Whose(s, m)].tickets.threads[m.c])
  {
    hide *;
    Basics(s);
    DrawsAt(s, m);
    SubBasics(s, Whose(s, m));
    WantsAt(s, Whose(s, m), m.c);
  }

  lemma DrawsAt<E>(s: State<E>, m: Move<E>)
    requires Sizes(s) && Machines(s) && Ready(s, m) && (m.Count? || m.Claim?)
    ensures Whose(s, m) < |s.subs| && m.c < |s.reading|
  {
    hide Sizes, Machines;
  }

  lemma WantsAt<E>(s: State<E>, p: nat, c: nat)
    requires Fits(s) && p < |s.subs| && c < |s.reading|
    ensures c < |s.subs[p].tickets.threads| && Wants(s.subs[p].tickets.threads[c])
  {
    assert ConsumerFits(s, c) && OneCall(s, c);
    hide Machines, Producers, Wants, ReaderFits, ReadingFits, TakerOf;
  }

  lemma WhoseJoined<E>(s: State<E>, p: nat)
    requires Fits(s) && p < |s.subs|
    ensures p < |s.leases.producers| && Joined(s.leases.producers[p], s.subs[p], s.leases.size)
  {
    assert ProducerFits(s.leases.producers[p], s.subs[p], s.leases.size);
    hide Joined, Stored, Machines, Consumers;
  }

  lemma StepJoined<E>(s: State<E>, m: Move<E>)
    requires Fits(s) && Ready(s, m) && Fires(s, m)
    ensures Whose(s, m) < |LeasesAfter(s, m).producers|
    ensures Joined(LeasesAfter(s, m).producers[Whose(s, m)], SubAfter(s, m), s.leases.size)
  {
    hide *;
    Basics(s);
    Readiness(s, m);
    WhoseJoined(s, Whose(s, m));
    LeasesChange(s, m);
    TicketsChange(s, m);
    IndexChanges(s, m);
    NumbersJoin(s, m, s.leases.producers[Whose(s, m)], LeasesAfter(s, m).producers[Whose(s, m)], SubAfter(s, m));
  }

  // ---------------------------------------------------------------- the entries point at the leased blocks

  /** Whatever the producer does, a block keeps its entry, but for the newest when it is taken back. */
  lemma EntryKept(x: X.State, m: X.Move, k: nat)
    requires X.Structure(x) && X.Enabled(x, m) && XP.ByProducer(m) && HasEntry(x, k) && (m.Rewind? ==> k < x.next - 1)
    ensures X.Structure(X.Step(x, m)) && HasEntry(X.Step(x, m), k) && EntryAt(X.Step(x, m), k) == EntryAt(x, k)
  {
    assert m.StoreKey? || m.StoreTail? || m.StoreValue? || m.Rewind? || m.Grow? || m.Publish?;
    hide *;
    if m.Grow? { EntryGrown(x, k); }
    else if m.Rewind? { EntryBack(x, k); }
    else if m.StoreTail? { EntryAhead(x, k); }
    else { EntryThere(x, m, k); }
  }

  /** A block has the same entry as before. */
  lemma EntryFrom(x: X.State, r: X.State, k: nat)
    requires X.Shape(x) && X.Shape(r) && HasEntry(x, k) && k < r.next && r.next - k <= r.live <= |r.keys|
    requires 0 <= X.Position(x, k) < |x.keys| && 0 <= X.Position(r, k) < |r.keys|
    requires X.Order(r)[X.Position(r, k)] == X.Order(x)[X.Position(x, k)] && r.full[X.Order(x)[X.Position(x, k)]]
    ensures HasEntry(r, k) && EntryAt(r, k) == EntryAt(x, k)
  {
    hide X.Shape, X.Order, X.Position;
  }

  lemma EntryParts(x: X.State, k: nat)
    requires X.Structure(x) && HasEntry(x, k)
    ensures X.Shape(x) && 0 <= X.Position(x, k) < |x.keys| && x.full[X.Order(x)[X.Position(x, k)]]
    ensures k < x.next && x.next - k <= x.live && 0 <= x.rewound && x.live + x.rewound <= |x.keys|
    ensures X.Position(x, k) == |x.keys| - (x.next - k)
    ensures x.producer.KeyStored? ==> x.rewound > 0
  {
    XP.RunBounds(x);
    hide X.HeaderOk, X.Distinct, X.Keyed, X.Filled, X.Order;
  }

  lemma EntryThere(x: X.State, m: X.Move, k: nat)
    requires X.Structure(x) && X.Enabled(x, m) && HasEntry(x, k) && (m.StoreKey? || m.StoreValue? || m.Publish?)
    ensures X.Structure(X.Step(x, m)) && HasEntry(X.Step(x, m), k) && EntryAt(X.Step(x, m), k) == EntryAt(x, k)
  {
    hide *;
    EntryParts(x, k);
    SameOrder(x, m);
    StructureShape(x);
    StructureShape(X.Step(x, m));
    StillThere(x, m, k);
    EntryFrom(x, X.Step(x, m), k);
  }

  lemma StillThere(x: X.State, m: X.Move, k: nat)
    requires X.Shape(x) && X.Enabled(x, m) && |x.full| == |x.keys| && (m.StoreKey? || m.StoreValue? || m.Publish?)
    requires X.Shape(X.Step(x, m)) && X.Order(X.Step(x, m)) == X.Order(x)
    requires 0 <= X.Position(x, k) < |x.keys| && X.Position(x, k) == |x.keys| - (x.next - k) && k < x.next
    requires x.next - k <= x.live <= |x.keys|
    requires x.full[X.Order(x)[X.Position(x, k)]]
    ensures var r, order := X.Step(x, m), X.Order(x);
            && k < r.next && r.next - k <= r.live <= |r.keys| && 0 <= X.Position(r, k) < |r.keys| == |r.full|
            && X.Order(r)[X.Position(r, k)] == order[X.Position(x, k)] && r.full[order[X.Position(x, k)]]
  {
    hide X.Shape, X.Order;
  }

  lemma SameOrder(x: X.State, m: X.Move)
    requires X.Structure(x) && X.Enabled(x, m) && (m.StoreKey? || m.StoreValue? || m.Publish?)
    ensures X.Structure(X.Step(x, m)) && X.Order(X.Step(x, m)) == X.Order(x)
  {
    hide X.Structure, X.Shape, X.Order, X.Step, X.Enabled;
    match m
    case StoreKey => XP.StoreKeyStructure(x);
    case StoreValue => XP.StoreValueStructure(x);
    case Publish => XP.PublishStructure(x);
  }

  lemma EntryAhead(x: X.State, k: nat)
    requires X.Structure(x) && X.Enabled(x, X.StoreTail) && HasEntry(x, k)
    ensures X.Structure(X.Step(x, X.StoreTail)) && HasEntry(X.Step(x, X.StoreTail), k)
    ensures EntryAt(X.Step(x, X.StoreTail), k) == EntryAt(x, k)
  {
    EntryParts(x, k);
    XP.StoreTailStructure(x);
    assert X.Shape(x) && X.Shape(X.Step(x, X.StoreTail));
    hide X.Structure, X.Shape, X.Order, HasEntry, EntryAt;
    EntryFrom(x, X.Step(x, X.StoreTail), k);
  }

  lemma EntryBack(x: X.State, k: nat)
    requires X.Structure(x) && X.Enabled(x, X.Rewind) && HasEntry(x, k) && k < x.next - 1
    ensures X.Structure(X.Step(x, X.Rewind)) && HasEntry(X.Step(x, X.Rewind), k)
    ensures EntryAt(X.Step(x, X.Rewind), k) == EntryAt(x, k)
  {
    hide *;
    EntryParts(x, k);
    XP.RewindStructure(x);
    StructureShape(x);
    StructureShape(X.Step(x, X.Rewind));
    TakenBack(x, k);
    EntryFrom(x, X.Step(x, X.Rewind), k);
  }

  lemma StructureShape(x: X.State)
    requires X.Structure(x)
    ensures X.Shape(x) && X.Distinct(X.Order(x)) && |x.full| == |x.keys|
  {
    hide X.HeaderOk, X.Distinct, X.Keyed, X.Filled, X.Order;
  }

  lemma TakenBack(x: X.State, k: nat)
    requires X.Shape(x) && X.Distinct(X.Order(x)) && X.Enabled(x, X.Rewind) && |x.full| == |x.keys|
    requires X.Shape(X.Step(x, X.Rewind)) && X.Order(X.Step(x, X.Rewind)) == XP.Back(X.Order(x))
    requires 0 <= X.Position(x, k) < |x.keys| && X.Position(x, k) == |x.keys| - (x.next - k) && k < x.next - 1
    requires x.next - k <= x.live <= |x.keys|
    requires x.full[X.Order(x)[X.Position(x, k)]]
    ensures var r, order := X.Step(x, X.Rewind), X.Order(x);
            && k < r.next && r.next - k <= r.live <= |r.keys| && 0 <= X.Position(r, k) < |r.keys| == |r.full|
            && X.Order(r)[X.Position(r, k)] == order[X.Position(x, k)] && r.full[order[X.Position(x, k)]]
  {
    assert X.Order(x)[X.Position(x, k)] != X.Order(x)[|x.keys| - 1];
    hide X.Shape, X.Order, X.Distinct;
  }

  lemma EntryGrown(x: X.State, k: nat)
    requires X.Structure(x) && X.Enabled(x, X.Grow) && HasEntry(x, k)
    ensures X.Structure(X.Step(x, X.Grow)) && HasEntry(X.Step(x, X.Grow), k)
    ensures EntryAt(X.Step(x, X.Grow), k) == EntryAt(x, k)
  {
    EntryParts(x, k);
    XP.GrowStructure(x);
    assert X.Shape(x) && X.Shape(X.Step(x, X.Grow));
    assert |x.full| == |x.keys|;
    hide X.Structure, X.Shape, X.Order, HasEntry, EntryAt;
    EntryFrom(x, X.Step(x, X.Grow), k);
  }

  lemma EntryWritten(x: X.State)
    requires X.Structure(x) && x.producer.TailStored?
    ensures X.Structure(X.Step(x, X.StoreValue)) && x.next > 0 && HasEntry(X.Step(x, X.StoreValue), x.next - 1)
    ensures EntryAt(X.Step(x, X.StoreValue), x.next - 1) == X.Order(x)[|x.keys| - 1]
  {
    XP.RunBounds(x);
    XP.StoreValueStructure(x);
    hide X.HeaderOk, X.Keyed, X.Order, X.Distinct;
  }

  lemma EntriesApart(x: X.State, j: nat, k: nat)
    requires X.Structure(x) && HasEntry(x, j) && HasEntry(x, k) && j != k
    ensures EntryAt(x, j) != EntryAt(x, k)
  {
    hide X.HeaderOk, X.Keyed, X.Order, X.Filled;
  }

  lemma EntryFreed(x: X.State, k: nat, j: nat)
    requires X.Structure(x) && X.Enabled(x, X.Free(k)) && HasEntry(x, j) && j != k
    ensures X.Structure(X.Step(x, X.Free(k))) && HasEntry(X.Step(x, X.Free(k)), j)
    ensures EntryAt(X.Step(x, X.Free(k)), j) == EntryAt(x, j)
  {
    hide *;
    EntryParts(x, j);
    XP.FreeStructure(x, k);
    StructureShape(x);
    StructureShape(X.Step(x, X.Free(k)));
    NotFreed(x, k, j);
    EntryFrom(x, X.Step(x, X.Free(k)), j);
  }

  lemma NotFreed(x: X.State, k: nat, j: nat)
    requires X.Shape(x) && X.Distinct(X.Order(x)) && X.Enabled(x, X.Free(k)) && |x.full| == |x.keys| && j != k
    requires X.Shape(X.Step(x, X.Free(k))) && X.Order(X.Step(x, X.Free(k))) == X.Order(x)
    requires 0 <= X.Position(x, j) < |x.keys| && X.Position(x, j) == |x.keys| - (x.next - j) && j < x.next
    requires x.next - j <= x.live <= |x.keys| && x.full[X.Order(x)[X.Position(x, j)]]
    ensures var r, order := X.Step(x, X.Free(k)), X.Order(x);
            && j < r.next && r.next - j <= r.live <= |r.keys| && 0 <= X.Position(r, j) < |r.keys| == |r.full|
            && X.Order(r)[X.Position(r, j)] == order[X.Position(x, j)] && r.full[order[X.Position(x, j)]]
  {
    assert X.Live(x, k);
    hide X.Shape, X.Order;
    assert X.Order(x)[X.Position(x, j)] != X.Order(x)[X.Position(x, k)];
    hide X.Distinct;
  }

  lemma EntryReaders(x: X.State, m: X.Move, k: nat)
    requires X.Structure(x) && X.Enabled(x, m) && XP.ByConsumer(m) && HasEntry(x, k)
    ensures X.Structure(X.Step(x, m)) && HasEntry(X.Step(x, m), k) && EntryAt(X.Step(x, m), k) == EntryAt(x, k)
  {
    hide *;
    StructureShape(x);
    XP.ConsumerFrame(x, m);
    OtherReaders(x, X.Step(x, m).readers, k);
  }

  lemma OtherReaders(x: X.State, readers: seq<X.Reader>, k: nat)
    requires X.Structure(x) && HasEntry(x, k)
    ensures X.Structure(x.(readers := readers)) && HasEntry(x.(readers := readers), k)
    ensures EntryAt(x.(readers := readers), k) == EntryAt(x, k)
  {
    XP.ReadersApart(x, readers, X.Idle);
    assert X.Current(x) == X.Current(x.(readers := readers));
    hide X.HeaderOk, X.Keyed, X.Filled, X.Distinct, X.ReaderOk;
  }

  /** Any step of the index, seen from a block it does not take out. */
  lemma EntryStill(x: X.State, m: X.Move, k: nat)
    requires X.Inv(x) && X.Enabled(x, m) && HasEntry(x, k) && (m.Rewind? ==> k < x.next - 1) && (m.Free? ==> m.k != k)
    ensures X.Shape(X.Step(x, m)) && HasEntry(X.Step(x, m), k) && EntryAt(X.Step(x, m), k) == EntryAt(x, k)
  {
    hide X.Readers, X.Shape, X.Distinct, X.Keyed, X.Filled, X.ProducerOk, X.Enabled, X.Step, HasEntry, EntryAt;
    if XP.ByProducer(m) { EntryKept(x, m, k); }
    else if m.Free? { EntryFreed(x, m.k, k); }
    else { EntryReaders(x, m, k); }
  }

  lemma StoredStill(x: X.State, m: X.Move, entries: map<nat, nat>, entries': map<nat, nat>, values: seq<nat>, values': seq<nat>)
    requires X.Inv(x) && X.Enabled(x, m) && |values| == |x.keys| && Stored(entries, x, values)
    requires |values'| == |X.Step(x, m).keys| && values <= values'
    requires forall k | k in entries' :: k in entries && entries'[k] == entries[k] && (m.Rewind? ==> k < x.next - 1) && (m.Free? ==> m.k != k)
    ensures X.Shape(X.Step(x, m)) && Stored(entries', X.Step(x, m), values')
  {
    XP.StepKeepsInv(x, m);
    hide X.Inv, X.Step, X.Enabled, HasEntry, EntryAt, X.Shape;
    assert X.Shape(X.Step(x, m)) by { hide *; InvShape(X.Step(x, m)); }
    forall k | k in entries' ensures HasEntry(X.Step(x, m), k) && values'[EntryAt(X.Step(x, m), k)] == entries'[k] {
      EntryStill(x, m, k);
    }
  }

  lemma InvShape(x: X.State)
    requires X.Inv(x)
    ensures X.Shape(x)
  {
  }

  lemma StoredWritten(x: X.State, entries: map<nat, nat>, values: seq<nat>, b: nat)
    requires X.Inv(x) && x.producer.TailStored? && |values| == |x.keys| && Stored(entries, x, values)
    requires x.next - 1 !in entries
    ensures var r := X.Step(x, X.StoreValue);
            && X.Shape(r) && x.next > 0 && |r.keys| == |values|
            && Stored(entries[x.next - 1 := b], r, values[X.Order(x)[|x.keys| - 1] := b])
  {
    hide *;
    CanWrite(x);
    XP.StepKeepsInv(x, X.StoreValue);
    IndexSizes(x, X.StoreValue);
    EntryWritten(x);
    var r := X.Step(x, X.StoreValue);
    StructureShape(r);
    forall k | k in entries
      ensures HasEntry(x, k) && HasEntry(r, k) && EntryAt(r, k) == EntryAt(x, k)
      ensures EntryAt(r, k) != EntryAt(r, x.next - 1)
    {
      StoredAt(entries, x, values, k);
      EntryStill(x, X.StoreValue, k);
      NotNew(entries, x, k);
      EntriesApart(r, k, x.next - 1);
    }
    StoredFrom(x, r, entries, values, x.next - 1, b);
  }

  lemma CanWrite(x: X.State)
    requires X.Inv(x) && x.producer.TailStored?
    ensures X.Structure(x) && X.Shape(x) && X.Enabled(x, X.StoreValue)
  {
    hide X.Structure, X.Readers;
    InvShape(x);
  }

  lemma StoredAt(entries: map<nat, nat>, x: X.State, values: seq<nat>, k: nat)
    requires X.Shape(x) && |values| == |x.keys| && Stored(entries, x, values) && k in entries
    ensures HasEntry(x, k) && values[EntryAt(x, k)] == entries[k]
  {
    hide X.Shape, HasEntry, EntryAt;
  }

  lemma NotNew(entries: map<nat, nat>, x: X.State, k: nat)
    requires x.next - 1 !in entries && k in entries
    ensures k != x.next - 1
  {
  }

  lemma StoredFrom(x: X.State, r: X.State, entries: map<nat, nat>, values: seq<nat>, n: nat, b: nat)
    requires X.Shape(x) && X.Shape(r) && |values| == |x.keys| == |r.keys| && Stored(entries, x, values)
    requires HasEntry(r, n)
    requires forall k | k in entries :: HasEntry(x, k) && HasEntry(r, k) && EntryAt(r, k) == EntryAt(x, k) && EntryAt(r, k) != EntryAt(r, n)
    ensures Stored(entries[n := b], r, values[EntryAt(r, n) := b])
  {
    hide X.Shape, HasEntry, EntryAt;
  }

  lemma WhoseStored<E>(s: State<E>, p: nat)
    requires Fits(s) && p < |s.subs|
    ensures p < |s.leases.producers| && X.Inv(s.subs[p].index) && |s.subs[p].values| == |s.subs[p].index.keys|
    ensures Stored(s.leases.producers[p].entries, s.subs[p].index, s.subs[p].values)
    ensures Joined(s.leases.producers[p], s.subs[p], s.leases.size)
    ensures forall k | k in s.leases.producers[p].entries :: k < s.leases.producers[p].next
  {
    assert ProducerFits(s.leases.producers[p], s.subs[p], s.leases.size);
    assert L.ProducerOk(s.leases.producers[p], s.leases.emptied, s.leases.size);
    hide Joined, Stored, Consumers, X.Inv, T.Inv, L.Homes, L.NoLeak, L.Disjoint, L.ConsumerOk, First;
  }

  /** What a step does to the index and to what its entries point at. */
  lemma IndexMoveOf<E>(s: State<E>, m: Move<E>)
    requires Sizes(s) && Machines(s) && Ready(s, m) && Fires(s, m)
    ensures var sub, some := s.subs[Whose(s, m)], IndexMove(s, m);
            && X.Inv(sub.index) && X.Shape(sub.index) && (some.Some? ==> X.Enabled(sub.index, some.value))
            && SubAfter(s, m).index == (if some.Some? then X.Step(sub.index, some.value) else sub.index)
            && (m.StoreValue? ==> some == Some(X.StoreValue) && sub.index.producer.TailStored? && |sub.values| == |sub.index.keys|
                                  && SubAfter(s, m).values == sub.values[X.Order(sub.index)[|sub.index.keys| - 1] := m.b])
            && (!m.StoreValue? ==> sub.values <= SubAfter(s, m).values)
            && (some.None? ==> !m.Clear? && !m.TakeBack? && SubAfter(s, m).values == sub.values)
            && (some.Some? && some.value.Free? ==>
                  m.Clear? && m.c < |s.leases.consumers| && s.leases.consumers[m.c].Clearing? && some.value.k == s.leases.consumers[m.c].k)
            && (some.Some? && some.value.Rewind? ==> (m.DropEntry? && sub.index.producer.TailStored?) || (m.TakeBack? && sub.index.producer.Quiet?))
  {
    hide *;
    FiresWhose(s, m);
    IndexAfter(s, m);
    ValuesAre(s, m);
    ValuesGrow(s, m);
    OnlyGrowGrows(s, m);
    IndexGuards(s, m);
  }

  lemma IndexAfter<E>(s: State<E>, m: Move<E>)
    requires Sizes(s) && Machines(s) && Fires(s, m) && Whose(s, m) < |s.subs|
    ensures var sub, some := s.subs[Whose(s, m)], IndexMove(s, m);
            && X.Inv(sub.index) && X.Shape(sub.index) && (some.Some? ==> X.Enabled(sub.index, some.value))
            && SubAfter(s, m).index == (if some.Some? then X.Step(sub.index, some.value) else sub.index)
  {
    hide Whose, LeaseMove, IndexMove, TicketMove, ValuesAfter, X.Step, X.Enabled, X.Readers, X.Structure, L.Inv, T.Inv, SlotReady, BlockReady;
    assert X.Inv(s.subs[Whose(s, m)].index);
    assert X.Shape(s.subs[Whose(s, m)].index) by { hide *; InvShape(s.subs[Whose(s, m)].index); }
  }

  lemma IndexGuards<E>(s: State<E>, m: Move<E>)
    requires Sizes(s) && Machines(s) && Ready(s, m) && Whose(s, m) < |s.subs|
    ensures var sub, some := s.subs[Whose(s, m)], IndexMove(s, m);
            && (m.StoreValue? ==> some == Some(X.StoreValue) && sub.index.producer.TailStored?)
            && (some.None? ==> !m.Clear? && !m.TakeBack?)
            && (some.Some? && some.value.Free? ==>
                  m.Clear? && m.c < |s.leases.consumers| && s.leases.consumers[m.c].Clearing? && some.value.k == s.leases.consumers[m.c].k)
            && (some.Some? && some.value.Rewind? ==> (m.DropEntry? && sub.index.producer.TailStored?) || (m.TakeBack? && sub.index.producer.Quiet?))
  {
    hide L.Inv, X.Inv, T.Inv, X.Enabled, L.Enabled, AtRest, BlockNo;
  }

  lemma StepStored<E>(s: State<E>, m: Move<E>)
    requires Fits(s) && Ready(s, m) && Fires(s, m)
    ensures Whose(s, m) < |LeasesAfter(s, m).producers| && X.Shape(SubAfter(s, m).index)
    ensures |SubAfter(s, m).values| == |SubAfter(s, m).index.keys|
    ensures Stored(LeasesAfter(s, m).producers[Whose(s, m)].entries, SubAfter(s, m).index, SubAfter(s, m).values)
  {
    hide *;
    Basics(s);
    FiresWhose(s, m);
    StepIndex(s, m);
    InvShape(SubAfter(s, m).index);
    LeasesChange(s, m);
    WhoseStored(s, Whose(s, m));
    IndexMoveOf(s, m);
    EntriesStored(s, m, s.leases.producers[Whose(s, m)], LeasesAfter(s, m).producers[Whose(s, m)], SubAfter(s, m), IndexMove(s, m));
  }

  lemma EntriesStored<E>(s: State<E>, m: Move<E>, q: L.Producer, r: L.Producer, sub': Sub<E>, some: Option<X.Move>)
    requires s.leases.size > 0 && Whose(s, m) < |s.subs| && X.Inv(sub'.index) && |sub'.values| == |sub'.index.keys|
    requires var sub := s.subs[Whose(s, m)];
      && LeaseChange(s, m, q, r) && X.Inv(sub.index) && |sub.values| == |sub.index.keys|
      && Joined(q, sub, s.leases.size) && Stored(q.entries, sub.index, sub.values) && (forall k | k in q.entries :: k < q.next)
      && (some.Some? ==> X.Enabled(sub.index, some.value))
      && sub'.index == (if some.Some? then X.Step(sub.index, some.value) else sub.index)
      && (m.StoreValue? ==> some == Some(X.StoreValue) && sub.index.producer.TailStored?
                            && sub'.values == sub.values[X.Order(sub.index)[|sub.index.keys| - 1] := m.b])
      && (!m.StoreValue? ==> sub.values <= sub'.values)
      && (some.None? ==> !m.Clear? && !m.TakeBack? && sub'.values == sub.values)
      && (some.Some? && some.value.Free? ==>
            m.Clear? && m.c < |s.leases.consumers| && s.leases.consumers[m.c].Clearing? && some.value.k == s.leases.consumers[m.c].k)
      && (some.Some? && some.value.Rewind? ==> (m.DropEntry? && sub.index.producer.TailStored?) || (m.TakeBack? && sub.index.producer.Quiet?))
    ensures X.Shape(sub'.index) && Stored(r.entries, sub'.index, sub'.values)
  {
    hide *;
    var sub := s.subs[Whose(s, m)];
    EntriesLeft(s, m, q, r, some);
    InvShape(sub'.index);
    if m.StoreValue? {
      StoredWritten(sub.index, q.entries, sub.values, m.b);
    } else if some.Some? {
      StoredStill(sub.index, some.value, q.entries, r.entries, sub.values, sub'.values);
    }
  }

  lemma EntriesLeft<E>(s: State<E>, m: Move<E>, q: L.Producer, r: L.Producer, some: Option<X.Move>)
    requires s.leases.size > 0 && Whose(s, m) < |s.subs| && LeaseChange(s, m, q, r)
    requires var x := s.subs[Whose(s, m)].index;
      && Joined(q, s.subs[Whose(s, m)], s.leases.size) && (forall k | k in q.entries :: k < q.next)
      && (some.None? ==> !m.Clear? && !m.TakeBack?)
      && (some.Some? && some.value.Free? ==>
            m.Clear? && m.c < |s.leases.consumers| && s.leases.consumers[m.c].Clearing? && some.value.k == s.leases.consumers[m.c].k)
      && (some.Some? && some.value.Rewind? ==> (m.DropEntry? && x.producer.TailStored?) || (m.TakeBack? && x.producer.Quiet?))
      && (m.StoreValue? ==> x.producer.TailStored?)
    ensures m.StoreValue? ==> s.subs[Whose(s, m)].index.next - 1 == q.next && q.next !in q.entries && r.entries == q.entries[q.next := m.b]
    ensures !m.StoreValue? ==> forall k | k in r.entries :: k in q.entries && r.entries[k] == q.entries[k]
    ensures !m.StoreValue? && some.None? ==> r.entries == q.entries
    ensures !m.StoreValue? && some.Some? && some.value.Rewind? ==> forall k | k in r.entries :: k < s.subs[Whose(s, m)].index.next - 1
    ensures !m.StoreValue? && some.Some? && some.value.Free? ==> some.value.k !in r.entries
  {
    hide First, GotOf, Whose, L.Range;
  }

  // ---------------------------------------------------------------- what a step changes of a consumer

  /** What a step does to the reader of consumer `Who(m)` in the index it is about. */
  predicate ReaderChange<E>(s: State<E>, m: Move<E>, r: X.Reader, r': X.Reader)
    requires s.leases.size > 0 && Whose(s, m) < |s.subs|
  {
    var sub := s.subs[Whose(s, m)];
    match m
    case Claim(c, _) =>
      GotOf(sub, m) > 0 ==>
        r' == X.Claimed(BlockNo(sub.tickets.head, s.leases.size), BlockNo(sub.tickets.head + GotOf(sub, m) - 1, s.leases.size))
    case LoadHeader(_) => !r.Idle? && !r'.Idle? && r'.block == r.block && r'.last == r.last
    case LoadTail(_) => !r.Idle? && !r'.Idle? && r'.block == r.block && r'.last == r.last
    case LoadKey(_) => !r.Idle? && !r'.Idle? && r'.block == r.block && r'.last == r.last
    case Complete(c) =>
      c < |s.leases.consumers| && s.leases.consumers[c].Reading? && r.Found? &&
      if s.leases.consumers[c].end == s.leases.consumers[c].to then r'.Idle?
      else r'.Found? && r'.block == r.block + 1 && r'.last == r.last
    case _ => r' == r
  }

  lemma ReaderMoves(x: X.State, xm: X.Move)
    requires X.Inv(x) && X.Enabled(x, xm)
    ensures var r := X.Step(x, xm);
            && |r.readers| == |x.readers|
            && (XP.ByConsumer(xm) ==>
                  xm.r < |x.readers| && forall d | 0 <= d < |x.readers| && d != xm.r :: r.readers[d] == x.readers[d])
            && (!XP.ByConsumer(xm) ==> r.readers == x.readers)
            && (xm.Claim? ==> r.readers[xm.r] == X.Claimed(xm.k, xm.last))
            && (xm.LoadHeader? || xm.LoadTail? || xm.LoadKey? ==>
                  && !x.readers[xm.r].Idle? && !r.readers[xm.r].Idle?
                  && r.readers[xm.r].block == x.readers[xm.r].block && r.readers[xm.r].last == x.readers[xm.r].last)
            && (xm.Next? ==> x.readers[xm.r].Found? && r.readers[xm.r].Found? && r.readers[xm.r].block == x.readers[xm.r].block + 1
                             && r.readers[xm.r].last == x.readers[xm.r].last)
            && (xm.Finish? ==> x.readers[xm.r].Found? && r.readers[xm.r].Idle?)
  {
    hide X.HeaderOk, X.Live, X.Distinct, X.Keyed, X.Filled, X.Readers, X.ProducerOk, X.AllLive, X.Uses;
  }

  /** All the readers of the index a move is about. */
  ghost predicate ReadersChange<E>(s: State<E>, m: Move<E>, x: X.State, x': X.State)
    requires s.leases.size > 0 && Whose(s, m) < |s.subs|
  {
    && |x'.readers| == |x.readers|
    && (forall d | 0 <= d < |x.readers| && d != Who(m) :: x'.readers[d] == x.readers[d])
    && (0 <= Who(m) < |x.readers| ==> ReaderChange(s, m, x.readers[Who(m)], x'.readers[Who(m)]))
  }

  lemma ReadersMove<E>(s: State<E>, m: Move<E>, x: X.State, xm: X.Move)
    requires s.leases.size > 0 && Whose(s, m) < |s.subs| && X.Inv(x) && X.Enabled(x, xm) && IndexMoveIs(m, xm)
    requires m.Claim? ==> var sub := s.subs[Whose(s, m)];
      xm.k == BlockNo(sub.tickets.head, s.leases.size) && xm.last == BlockNo(sub.tickets.head + GotOf(sub, m) - 1, s.leases.size)
    requires m.Complete? ==>
      && m.c < |s.leases.consumers| && s.leases.consumers[m.c].Reading?
      && xm == if s.leases.consumers[m.c].end == s.leases.consumers[m.c].to then X.Finish(m.c) else X.Next(m.c)
    ensures ReadersChange(s, m, x, X.Step(x, xm))
  {
    ReaderMoves(x, xm);
    hide X.Inv, X.Enabled, X.Step, BlockNo, Whose, GotOf;
  }

  lemma SameReaders<E>(s: State<E>, m: Move<E>, x: X.State)
    requires s.leases.size > 0 && Whose(s, m) < |s.subs|
    requires !m.LoadHeader? && !m.LoadTail? && !m.LoadKey? && !m.Complete? && (m.Claim? ==> GotOf(s.subs[Whose(s, m)], m) == 0)
    ensures ReadersChange(s, m, x, x)
  {
    hide BlockNo, Whose, GotOf;
  }

  lemma ReadersChanges<E>(s: State<E>, m: Move<E>)
    requires Sizes(s) && Machines(s) && Ready(s, m) && Fires(s, m)
    ensures s.leases.size > 0 && ReadersChange(s, m, s.subs[Whose(s, m)].index, SubAfter(s, m).index)
  {
    var x, some := s.subs[Whose(s, m)].index, IndexMove(s, m);
    assert X.Inv(x) && s.leases.size > 0 && (some.Some? ==> X.Enabled(x, some.value));
    assert SubAfter(s, m).index == if some.Some? then X.Step(x, some.value) else x;
    IndexKinds(s, m);
    IndexOperands(s, m);
    hide *;
    if some.Some? {
      ReadersMove(s, m, x, some.value);
    } else {
      SameReaders(s, m, x);
    }
  }

  lemma IndexOperands<E>(s: State<E>, m: Move<E>)
    requires Sizes(s) && Machines(s) && Ready(s, m) && Whose(s, m) < |s.subs|
    ensures var some, sub := IndexMove(s, m), s.subs[Whose(s, m)];
            && (some.None? ==> !m.LoadHeader? && !m.LoadTail? && !m.LoadKey? && !m.Complete? && (m.Claim? ==> GotOf(sub, m) == 0))
            && (some.Some? && m.Claim? ==>
                  && some.value.k == BlockNo(sub.tickets.head, s.leases.size)
                  && some.value.last == BlockNo(sub.tickets.head + GotOf(sub, m) - 1, s.leases.size))
            && (some.Some? && m.Complete? ==>
                  && m.c < |s.leases.consumers| && s.leases.consumers[m.c].Reading?
                  && some.value == if s.leases.consumers[m.c].end == s.leases.consumers[m.c].to then X.Finish(m.c) else X.Next(m.c))
  {
    hide L.Inv, X.Inv, T.Inv, X.Enabled, L.Enabled, AtRest, BlockNo;
  }

  /** What a step does to consumer `Who(m)`. */
  predicate ConsumerChange<E>(s: State<E>, m: Move<E>, x: L.Consumer, y: L.Consumer)
    requires s.leases.size > 0 && Whose(s, m) < |s.subs| && Whose(s, m) < |s.leases.producers|
  {
    match m
    case Claim(c, p) =>
      var head := s.leases.producers[Whose(s, m)].head;
      y == L.Working(p, head, head + GotOf(s.subs[Whose(s, m)], m))
    case LookUp(c) =>
      && x.Working? && y.Reading? && y.p == x.p && y.at == x.at && y.to == x.to
      && y.end == (var stop := First(BlockNo(x.at, s.leases.size), s.leases.size) + s.leases.size; if x.to < stop then x.to else stop)
    case Complete(c) =>
      x.Reading? &&
      if y.Clearing? then y.p == x.p && y.at == x.end && y.to == x.to else y == L.Rest(x.p, x.end, x.to)
    case Clear(c) => x.Clearing? && y.Returning? && y.p == x.p && y.at == x.at && y.to == x.to
    case AddFree(c) => x.Returning? && y == L.Rest(x.p, x.at, x.to)
    case _ => y == x
  }

  lemma ConsumersChange<E>(s: State<E>, m: Move<E>)
    requires Sizes(s) && Machines(s) && Ready(s, m) && Fires(s, m) && 0 <= Who(m) < |s.leases.consumers|
    ensures s.leases.size > 0 && Whose(s, m) < |s.leases.producers|
    ensures |LeasesAfter(s, m).consumers| == |s.leases.consumers|
    ensures ConsumerChange(s, m, s.leases.consumers[Who(m)], LeasesAfter(s, m).consumers[Who(m)])
  {
    LeaseMoveFor(s, m);
    var some := LeaseMove(s, m);
    assert L.Shape(s.leases) && Whose(s, m) < |s.leases.producers|;
    assert some.Some? ==> L.Enabled(s.leases, some.value);
    assert LeasesAfter(s, m) == if some.Some? then L.Step(s.leases, some.value) else s.leases;
    MoveKinds(s, m);
    hide *;
    if some.Some? {
      ConsumerMoves(s, m, some.value);
    } else {
      SameConsumer(s, m, s.leases.consumers[Who(m)]);
    }
  }

  lemma ConsumerMoves<E>(s: State<E>, m: Move<E>, lm: L.Move)
    requires L.Shape(s.leases) && L.Enabled(s.leases, lm) && Whose(s, m) < |s.subs| && LeaseMoveIs(m, lm)
    requires 0 <= Who(m) < |s.leases.consumers| && Whose(s, m) < |s.leases.producers|
    requires m.Claim? ==> lm.n == GotOf(s.subs[Whose(s, m)], m)
    ensures |L.Step(s.leases, lm).consumers| == |s.leases.consumers|
    ensures ConsumerChange(s, m, s.leases.consumers[Who(m)], L.Step(s.leases, lm).consumers[Who(m)])
  {
    hide First, BlockNo, L.Range, GotOf;
  }

  lemma SameConsumer<E>(s: State<E>, m: Move<E>, x: L.Consumer)
    requires s.leases.size > 0 && Whose(s, m) < |s.subs| && Whose(s, m) < |s.leases.producers|
    requires !m.Claim? && !m.LookUp? && !m.Complete? && !m.Clear? && !m.AddFree?
    ensures ConsumerChange(s, m, x, x)
  {
    hide First, BlockNo, GotOf, Whose;
  }

  /** All that consumer `d` sees of a step about producer `p` that is not its own. */
  ghost predicate Unseen<E>(s: State<E>, s': State<E>, p: nat, d: nat) {
    && p < |s.subs| == |s'.subs| && s'.subs == s.subs[p := s'.subs[p]] && s'.leases.size == s.leases.size
    && d < |s.leases.consumers| == |s'.leases.consumers| && d < |s.reading| == |s'.reading|
    && s'.leases.consumers[d] == s.leases.consumers[d] && s'.reading[d] == s.reading[d]
    && d < |s.subs[p].tickets.threads| == |s'.subs[p].tickets.threads|
    && s'.subs[p].tickets.threads[d] == s.subs[p].tickets.threads[d]
    && d < |s.subs[p].index.readers| == |s'.subs[p].index.readers| && s'.subs[p].index.readers[d] == s.subs[p].index.readers[d]
    && s.subs[p].tickets.takers <= s'.subs[p].tickets.takers
  }

  lemma TakersGrow(x: L.Consumer, c: nat, takers: seq<nat>, takers': seq<nat>)
    requires TakerOf(x, c, takers) && takers <= takers'
    ensures TakerOf(x, c, takers')
  {
  }

  lemma UnseenFits<E>(s: State<E>, s': State<E>, p: nat, d: nat)
    requires Sizes(s) && Sizes(s') && Unseen(s, s', p, d) && ConsumerFits(s, d)
    ensures ConsumerFits(s', d)
  {
    hide *;
    UnseenCall(s, s', p, d);
    UnseenReaders(s, s', p, d);
    UnseenTaking(s, s', p, d);
    ConsumerFitsFrom(s', d);
  }

  lemma ConsumerFitsFrom<E>(s: State<E>, c: nat)
    requires Sizes(s) && s.leases.size > 0 && c < |s.leases.consumers| == |s.reading|
    requires ReadingFits(s.leases.consumers[c], s.reading[c], s.leases.size) && OneCall(s, c)
    requires var x := s.leases.consumers[c]; !x.Idle? ==> x.p < |s.subs| && TakerOf(x, c, s.subs[x.p].tickets.takers)
    requires forall q | 0 <= q < |s.subs| ::
      c < |s.subs[q].index.readers| && ReaderFits(s.leases.consumers[c], q, s.subs[q].index.readers[c], s.leases.size)
    ensures ConsumerFits(s, c)
  {
    hide Sizes, ReadingFits, OneCall, TakerOf, ReaderFits;
  }

  lemma UnseenReaders<E>(s: State<E>, s': State<E>, p: nat, d: nat)
    requires Sizes(s) && Sizes(s') && Unseen(s, s', p, d) && ConsumerFits(s, d)
    ensures s'.leases.size > 0 && d < |s'.leases.consumers|
    ensures forall q | 0 <= q < |s'.subs| ::
      d < |s'.subs[q].index.readers| && ReaderFits(s'.leases.consumers[d], q, s'.subs[q].index.readers[d], s'.leases.size)
  {
    assert s.leases.size > 0;
    hide ReadingFits, OneCall, TakerOf, L.Shape;
    forall q | 0 <= q < |s'.subs|
      ensures d < |s'.subs[q].index.readers|
      ensures ReaderFits(s'.leases.consumers[d], q, s'.subs[q].index.readers[d], s'.leases.size)
    {
      assert ReaderFits(s.leases.consumers[d], q, s.subs[q].index.readers[d], s.leases.size);
    }
    hide ReaderFits;
  }

  lemma UnseenTaking<E>(s: State<E>, s': State<E>, p: nat, d: nat)
    requires Sizes(s) && Sizes(s') && Unseen(s, s', p, d) && ConsumerFits(s, d)
    ensures s'.leases.size > 0 && d < |s'.leases.consumers| == |s'.reading|
    ensures ReadingFits(s'.leases.consumers[d], s'.reading[d], s'.leases.size)
    ensures var x := s'.leases.consumers[d]; !x.Idle? ==> x.p < |s'.subs| && TakerOf(x, d, s'.subs[x.p].tickets.takers)
  {
    assert s.leases.size > 0 && |s'.leases.consumers| == |s'.reading|;
    var x := s.leases.consumers[d];
    hide ReadingFits, ReaderFits, OneCall, L.Shape, Sizes, TakerOf;
    if !x.Idle? {
      assert s.subs[x.p].tickets.takers <= s'.subs[x.p].tickets.takers;
      TakersGrow(x, d, s.subs[x.p].tickets.takers, s'.subs[x.p].tickets.takers);
    }
  }

  lemma UnseenCall<E>(s: State<E>, s': State<E>, p: nat, d: nat)
    requires Sizes(s) && Sizes(s') && Unseen(s, s', p, d) && ConsumerFits(s, d)
    ensures OneCall(s', d)
  {
    assert OneCall(s, d) && s.leases.size > 0;
    hide ReadingFits, ReaderFits, TakerOf, Wants, L.Shape;
  }

  lemma StepUnseen<E>(s: State<E>, m: Move<E>, d: nat)
    requires Fits(s) && Ready(s, m) && Fires(s, m) && d < |s.leases.consumers| && d != Who(m)
    ensures Unseen(s, Step(s, m), Whose(s, m), d)
  {
    hide *;
    Basics(s);
    Readiness(s, m);
    SubBasics(s, Whose(s, m));
    StepParts(s, m);
    LeasesFrame(s, m);
    ReadersChanges(s, m);
    TicketsChange(s, m);
    PartsUnseen(s, m, Step(s, m), d);
  }

  lemma PartsUnseen<E>(s: State<E>, m: Move<E>, s': State<E>, d: nat)
    requires s.leases.size > 0 && Whose(s, m) < |s.subs| && d < |s.leases.consumers| && d != Who(m)
    requires SubSizes(s.subs[Whose(s, m)], s.leases.size, |s.reading|) && |s.reading| == |s.leases.consumers|
    requires |s'.subs| == |s.subs| && s'.subs == s.subs[Whose(s, m) := s'.subs[Whose(s, m)]]
    requires var sub, sub' := s.subs[Whose(s, m)], s'.subs[Whose(s, m)];
      && s'.leases.size == s.leases.size && |s'.leases.consumers| == |s.leases.consumers| && |s'.reading| == |s.reading|
      && (forall c: nat | c < |s.leases.consumers| && c != Who(m) :: s'.leases.consumers[c] == s.leases.consumers[c])
      && (forall d | 0 <= d < |s.reading| && d != Who(m) :: s'.reading[d] == s.reading[d])
      && TicketChange(s, m, sub.tickets, sub'.tickets) && ReadersChange(s, m, sub.index, sub'.index)
    ensures Unseen(s, s', Whose(s, m), d)
  {
    hide Whose, GotOf, ReaderChange, T.Repeat;
  }

  /** The reader at the producer the move is about still fits its consumer. */
  lemma OwnReader<E>(s: State<E>, m: Move<E>, x: L.Consumer, y: L.Consumer, r: X.Reader, r': X.Reader)
    requires s.leases.size > 0 && Whose(s, m) < |s.subs| && Whose(s, m) < |s.leases.producers|
    requires 0 <= Who(m) < |s.leases.consumers| && x == s.leases.consumers[Who(m)]
    requires ConsumerChange(s, m, x, y) && ReaderChange(s, m, r, r') && ReaderFits(x, Whose(s, m), r, s.leases.size)
    requires m.Claim? ==>
      && GotOf(s.subs[Whose(s, m)], m) > 0 && s.leases.producers[Whose(s, m)].head == s.subs[Whose(s, m)].tickets.head
    requires !x.Idle? ==> x.p == Whose(s, m)
    requires m.LookUp? ==> r.Found?
    requires m.LoadHeader? || m.LoadTail? || m.LoadKey? ==> x.Working?
    requires m.Complete? ==>
      && x.Reading? && x.at < x.end <= x.to
      && (x.end == x.to ==> BlockNo(x.at, s.leases.size) == BlockNo(x.to - 1, s.leases.size))
      && (x.end < x.to ==> BlockNo(x.end, s.leases.size) == BlockNo(x.at, s.leases.size) + 1)
    ensures ReaderFits(y, Whose(s, m), r', s.leases.size)
    ensures !y.Idle? ==> y.p == Whose(s, m) || y == x
  {
    hide BlockNo, First, GotOf;
    match m
    case Claim(_, p) =>
    case LookUp(_) =>
    case Complete(_) =>
    case _ =>
  }

  lemma OtherReader(x: L.Consumer, y: L.Consumer, p: nat, q: nat, r: X.Reader, size: nat)
    requires size > 0 && ReaderFits(x, q, r, size) && p != q && (x.Idle? || x.p == p) && (y.Idle? || y.p == p)
    ensures ReaderFits(y, q, r, size)
  {
    hide BlockNo;
  }

  lemma OwnReading<E>(s: State<E>, m: Move<E>, x: L.Consumer, y: L.Consumer, upto: nat, upto': nat)
    requires s.leases.size > 0 && Whose(s, m) < |s.subs| && Whose(s, m) < |s.leases.producers|
    requires ConsumerChange(s, m, x, y) && ReadingFits(x, upto, s.leases.size)
    requires m.LookUp? ==> x.Working? && x.at < x.to && upto' == x.at
    requires m.Read? ==> x.Reading? && upto < x.end && upto' == upto + 1
    requires !m.LookUp? && !m.Read? ==> upto' == upto
    ensures ReadingFits(y, upto', s.leases.size)
  {
    hide First, GotOf, Whose;
  }

  lemma OwnTaking<E>(s: State<E>, m: Move<E>, c: nat, x: L.Consumer, y: L.Consumer, t: T.State<E>, t': T.State<E>)
    requires s.leases.size > 0 && Whose(s, m) < |s.subs| && Whose(s, m) < |s.leases.producers| && c == Who(m)
    requires ConsumerChange(s, m, x, y) && TicketChange(s, m, t, t') && TakerOf(x, c, t.takers)
    requires m.Claim? ==> |t.takers| == s.leases.producers[Whose(s, m)].head
    requires m.Complete? && x.Reading? ==> x.at <= x.end
    ensures TakerOf(y, c, t'.takers)
  {
    TakingParts(s, m, c, x, y, t, t');
    hide *;
    if m.Claim? {
      NewTaker(y, c, t.takers, GotOf(s.subs[Whose(s, m)], m));
    } else {
      FewerTaken(x, y, c, t.takers);
    }
  }

  lemma TakingParts<E>(s: State<E>, m: Move<E>, c: nat, x: L.Consumer, y: L.Consumer, t: T.State<E>, t': T.State<E>)
    requires s.leases.size > 0 && Whose(s, m) < |s.subs| && Whose(s, m) < |s.leases.producers| && c == Who(m)
    requires ConsumerChange(s, m, x, y) && TicketChange(s, m, t, t')
    requires m.Claim? ==> |t.takers| == s.leases.producers[Whose(s, m)].head
    requires m.Complete? && x.Reading? ==> x.at <= x.end
    ensures m.Claim? ==> var got := GotOf(s.subs[Whose(s, m)], m);
      t'.takers == t.takers + T.Repeat(got, c) && y.Working? && y.at == |t.takers| && y.to == |t.takers| + got
    ensures !m.Claim? ==> t'.takers == t.takers && (!y.Idle? ==> !x.Idle? && x.at <= y.at && y.to == x.to)
  {
    hide First, BlockNo, GotOf, Whose, T.Repeat;
  }

  lemma NewTaker(y: L.Consumer, c: nat, takers: seq<nat>, got: nat)
    requires y.Working? && y.at == |takers| && y.to == |takers| + got
    ensures TakerOf(y, c, takers + T.Repeat(got, c))
  {
  }

  lemma FewerTaken(x: L.Consumer, y: L.Consumer, c: nat, takers: seq<nat>)
    requires TakerOf(x, c, takers) && (!y.Idle? ==> !x.Idle? && x.at <= y.at && y.to == x.to)
    ensures TakerOf(y, c, takers)
  {
  }

  /** Consumer `c` has taken its own step about producer `p`. */
  ghost predicate OwnParts<E>(s: State<E>, s': State<E>, p: nat, c: nat) {
    && p < |s.subs| == |s'.subs| && s'.subs == s.subs[p := s'.subs[p]] && s'.leases.size == s.leases.size > 0
    && c < |s.leases.consumers| == |s'.leases.consumers| && c < |s.reading| == |s'.reading|
    && |s.subs[p].tickets.threads| == |s'.subs[p].tickets.threads| && |s.subs[p].index.readers| == |s'.subs[p].index.readers|
  }

  /** Only at producer `p` does a consumer at rest elsewhere draw tickets. */
  lemma OwnThreads<E>(s: State<E>, s': State<E>, p: nat, c: nat)
    requires Sizes(s) && Sizes(s') && OwnParts(s, s', p, c) && OneCall(s, c)
    requires Wants(s'.subs[p].tickets.threads[c])
    requires s'.subs[p].tickets.threads[c].Idle? || s'.leases.consumers[c].Idle?
    requires forall q | 0 <= q < |s.subs| && q != p :: s.subs[q].tickets.threads[c].Idle? || (s'.leases.consumers[c].Idle? && s'.subs[p].tickets.threads[c].Idle?)
    ensures OneCall(s', c)
  {
    hide Wants, L.Shape;
  }

  lemma OwnFits<E>(s: State<E>, s': State<E>, p: nat, c: nat)
    requires Sizes(s) && Sizes(s') && OwnParts(s, s', p, c) && ConsumerFits(s, c)
    requires var x, y := s.leases.consumers[c], s'.leases.consumers[c];
      && (x.Idle? || x.p == p) && (y.Idle? || y.p == p) && OneCall(s', c)
      && ReadingFits(y, s'.reading[c], s.leases.size) && TakerOf(y, c, s'.subs[p].tickets.takers)
      && ReaderFits(y, p, s'.subs[p].index.readers[c], s.leases.size)
    ensures ConsumerFits(s', c)
  {
    OwnReaders(s, s', p, c);
    SizesEqual(s');
    hide Sizes, ConsumerFits, ReadingFits, OneCall, TakerOf, ReaderFits;
    ConsumerFitsFrom(s', c);
  }

  lemma OwnReaders<E>(s: State<E>, s': State<E>, p: nat, c: nat)
    requires Sizes(s) && Sizes(s') && OwnParts(s, s', p, c) && ConsumerFits(s, c)
    requires var x, y := s.leases.consumers[c], s'.leases.consumers[c];
      (x.Idle? || x.p == p) && (y.Idle? || y.p == p) && ReaderFits(y, p, s'.subs[p].index.readers[c], s.leases.size)
    ensures forall q | 0 <= q < |s'.subs| ::
      c < |s'.subs[q].index.readers| && ReaderFits(s'.leases.consumers[c], q, s'.subs[q].index.readers[c], s'.leases.size)
  {
    var x, y := s.leases.consumers[c], s'.leases.consumers[c];
    hide ReadingFits, OneCall, TakerOf, L.Shape;
    forall q | 0 <= q < |s'.subs|
      ensures c < |s'.subs[q].index.readers| && ReaderFits(y, q, s'.subs[q].index.readers[c], s'.leases.size)
    {
      if q != p {
        assert ReaderFits(x, q, s.subs[q].index.readers[c], s.leases.size);
        OtherReader(x, y, p, q, s.subs[q].index.readers[c], s.leases.size);
      }
    }
    hide ReaderFits;
  }

  /** What is known of a consumer that is about to step. */
  ghost predicate Known<E>(s: State<E>, m: Move<E>, c: nat)
    requires s.leases.size > 0
  {
    && Whose(s, m) < |s.subs| == |s.leases.producers| && c < |s.leases.consumers| == |s.reading|
    && SubSizes(s.subs[Whose(s, m)], s.leases.size, |s.reading|)
    && var sub, x, size := s.subs[Whose(s, m)], s.leases.consumers[c], s.leases.size;
       && (x.Idle? || x.p == Whose(s, m)) && ReadingFits(x, s.reading[c], size)
       && TakerOf(x, c, sub.tickets.takers) && ReaderFits(x, Whose(s, m), sub.index.readers[c], size)
       && s.leases.producers[Whose(s, m)].head == sub.tickets.head == |sub.tickets.takers|
       && (m.LookUp? ==> x.Working? && x.at < x.to && sub.index.readers[c].Found?)
       && (m.LoadHeader? || m.LoadTail? || m.LoadKey? ==> x.Working?)
       && (m.Claim? ==> GotOf(sub, m) > 0)
       && (m.Read? ==> x.Reading? && s.reading[c] < x.end)
       && (m.Complete? ==>
             && x.Reading? && x.at < x.end <= x.to
             && (x.end == x.to ==> BlockNo(x.at, size) == BlockNo(x.to - 1, size))
             && (x.end < x.to ==> BlockNo(x.end, size) == BlockNo(x.at, size) + 1))
       && (!x.Idle? <==> !(m.Ask? || m.Count? || m.Claim?))
  }

  lemma StepKnown<E>(s: State<E>, m: Move<E>, c: nat)
    requires Fits(s) && Ready(s, m) && Fires(s, m) && Who(m) == c
    ensures s.leases.size > 0 && Known(s, m, c)
  {
    hide *;
    Basics(s);
    FiresWhose(s, m);
    SubBasics(s, Whose(s, m));
    ReadyConsumer(s, m, c);
    ReaderAt(s, c, Whose(s, m));
    HeadIsTaken(s, Whose(s, m));
    ConsumerKnown(s, c);
    if !s.leases.consumers[c].Idle? { Busy(s, c); }
    if s.leases.consumers[c].Reading? {
      CompleteFacts(s.leases.consumers[c], s.leases.producers[Whose(s, m)], s.reading[c], s.leases.size);
    }
    WorkingFacts(s.leases.consumers[c], s.leases.producers[Whose(s, m)], s.leases.size);
    KnownFrom(s, m, c);
  }

  lemma KnownFrom<E>(s: State<E>, m: Move<E>, c: nat)
    requires s.leases.size > 0 && Whose(s, m) < |s.subs| == |s.leases.producers|
    requires c < |s.leases.consumers| == |s.reading|
    requires SubSizes(s.subs[Whose(s, m)], s.leases.size, |s.reading|)
    requires var sub, x, size := s.subs[Whose(s, m)], s.leases.consumers[c], s.leases.size;
       && (x.Idle? || x.p == Whose(s, m)) && ReadingFits(x, s.reading[c], size)
       && (!x.Idle? ==> TakerOf(x, c, sub.tickets.takers)) && ReaderFits(x, Whose(s, m), sub.index.readers[c], size)
       && s.leases.producers[Whose(s, m)].head == sub.tickets.head == |sub.tickets.takers|
       && (m.LookUp? ==> x.Working? && x.at < x.to && sub.index.readers[c].Found?)
       && (m.LoadHeader? || m.LoadTail? || m.LoadKey? ==> x.Working?)
       && (m.Claim? ==> GotOf(sub, m) > 0)
       && (m.Read? ==> x.Reading? && s.reading[c] < x.end)
       && (m.Complete? ==> x.Reading?)
       && (x.Reading? ==>
             && x.at < x.end <= x.to
             && (x.end == x.to ==> BlockNo(x.at, size) == BlockNo(x.to - 1, size))
             && (x.end < x.to ==> BlockNo(x.end, size) == BlockNo(x.at, size) + 1))
       && (!x.Idle? <==> !(m.Ask? || m.Count? || m.Claim?))
    ensures Known(s, m, c)
  {
    hide Whose, GotOf, ReadingFits, ReaderFits, BlockNo;
  }

  lemma ConsumerKnown<E>(s: State<E>, c: nat)
    requires Fits(s) && c < |s.leases.consumers|
    ensures s.leases.size > 0 && c < |s.reading| && ReadingFits(s.leases.consumers[c], s.reading[c], s.leases.size)
  {
    assert ConsumerFits(s, c);
    hide Machines, Producers, ReadingFits, OneCall, ReaderFits, TakerOf;
  }

  lemma WorkingFacts(x: L.Consumer, q: L.Producer, size: nat)
    requires size > 0 && (x.Idle? || L.ConsumerFits(x, q, size))
    ensures x.Working? ==> x.at < x.to
  {
    hide BlockNo, First, L.Emptied;
  }

  lemma CompleteFacts(x: L.Consumer, q: L.Producer, upto: nat, size: nat)
    requires size > 0 && x.Reading? && ReadingFits(x, upto, size) && L.ConsumerFits(x, q, size)
    ensures x.at < x.end <= x.to
    ensures x.end == x.to ==> BlockNo(x.at, size) == BlockNo(x.to - 1, size)
    ensures x.end < x.to ==> BlockNo(x.end, size) == BlockNo(x.at, size) + 1
  {
    LastOrNext(x, upto, size);
    hide BlockNo, First;
  }

  lemma HeadIsTaken<E>(s: State<E>, p: nat)
    requires Fits(s) && p < |s.subs|
    ensures p < |s.leases.producers|
    ensures s.leases.producers[p].head == s.subs[p].tickets.head == |s.subs[p].tickets.takers|
  {
    WhoseJoined(s, p);
    TP.TakersAreHead(s.subs[p].tickets);
    hide Fits, T.Inv;
  }

  /** What the step needs of the consumer. */
  lemma ReadyConsumer<E>(s: State<E>, m: Move<E>, c: nat)
    requires Fits(s) && Ready(s, m) && Fires(s, m) && Who(m) == c
    ensures c < |s.leases.consumers| == |s.reading| && Whose(s, m) < |s.subs|
    ensures c < |s.subs[Whose(s, m)].tickets.threads|
    ensures var x, sub := s.leases.consumers[c], s.subs[Whose(s, m)];
            && (x.Idle? || x.p == Whose(s, m))
            && (m.LookUp? ==> x.Working? && c < |sub.index.readers| && sub.index.readers[c].Found?)
            && (m.LoadHeader? || m.LoadTail? || m.LoadKey? ==> x.Working?)
            && (m.Claim? ==> GotOf(sub, m) > 0)
            && (m.Read? ==> x.Reading? && s.reading[c] < x.end)
            && (m.Complete? ==> x.Reading?)
            && (!x.Idle? <==> !(m.Ask? || m.Count? || m.Claim?))
  {
    assert ConsumerFits(s, c);
    hide L.Inv, X.Inv, T.Inv, X.Enabled, L.Enabled, BlockNo, ReaderFits, ReadingFits, TakerOf, Producers, SlotReady, BlockReady, First;
  }

  /** It draws tickets nowhere else, and where it does it owns nothing. */
  lemma StepOneCall<E>(s: State<E>, m: Move<E>, c: nat)
    requires Fits(s) && Ready(s, m) && Fires(s, m) && Who(m) == c && Sizes(Step(s, m))
    ensures c < |s.reading| && OneCall(Step(s, m), c)
  {
    hide *;
    Basics(s);
    ReadyConsumer(s, m, c);
    Readiness(s, m);
    SubBasics(s, Whose(s, m));
    ReadyCall(s, m, c);
    StepParts(s, m);
    LeasesFrame(s, m);
    ConsumersChange(s, m);
    TicketsChange(s, m);
    WhoIs(m);
    PartsOneCall(s, m, Step(s, m), c);
  }

  lemma ReadyCall<E>(s: State<E>, m: Move<E>, c: nat)
    requires Fits(s) && Ready(s, m) && Who(m) == c && c < |s.leases.consumers| && Whose(s, m) < |s.subs|
    requires c < |s.subs[Whose(s, m)].tickets.threads|
    ensures Sizes(s) && OneCall(s, c)
    ensures m.Ask? ==> AtRest(s, c) && m.max > 0
    ensures m.Count? || m.Claim? ==> !s.subs[Whose(s, m)].tickets.threads[c].Idle?
  {
    assert ConsumerFits(s, c);
    hide L.Inv, X.Inv, T.Inv, X.Enabled, L.Enabled, Producers, ReaderFits, ReadingFits, TakerOf, OneCall, AtRest;
  }

  lemma PartsOneCall<E>(s: State<E>, m: Move<E>, s': State<E>, c: nat)
    requires Sizes(s) && Sizes(s') && Whose(s, m) < |s.subs| == |s'.subs| && c == Who(m)
    requires c < |s.leases.consumers| == |s'.leases.consumers|
    requires OneCall(s, c) && s'.subs == s.subs[Whose(s, m) := s'.subs[Whose(s, m)]] && s'.leases.size == s.leases.size
    requires ConsumerChange(s, m, s.leases.consumers[c], s'.leases.consumers[c])
    requires TicketChange(s, m, s.subs[Whose(s, m)].tickets, s'.subs[Whose(s, m)].tickets)
    requires m.Count? || m.Claim? ==> Wants(s'.subs[Whose(s, m)].tickets.threads[c])
    requires !s.leases.consumers[c].Idle? <==> !(m.Ask? || m.Count? || m.Claim?)
    requires m.Ask? ==> AtRest(s, c) && m.max > 0
    requires m.Count? || m.Claim? ==> !s.subs[Whose(s, m)].tickets.threads[c].Idle?
    ensures OneCall(s', c)
  {
    var p := Whose(s, m);
    assert s.leases.size > 0;
    assert SubSizes(s.subs[p], s.leases.size, |s.reading|) && SubSizes(s'.subs[p], s'.leases.size, |s'.reading|);
    hide Whose, GotOf, First, BlockNo, L.Shape, T.Repeat, Wants;
    assert Wants(T.Idle) by { hide *; WantsNothing(); }
    assert m.Ask? ==> Wants(T.ReadTail(m.max)) by { hide *; WantsSome(m); }
    OwnThreads(s, s', p, c);
  }

  lemma WantsNothing()
    ensures Wants(T.Idle)
  {
  }

  lemma WantsSome<E>(m: Move<E>)
    ensures m.Ask? && m.max > 0 ==> Wants(T.ReadTail(m.max))
  {
  }

  lemma StepOwn<E>(s: State<E>, m: Move<E>, c: nat)
    requires Fits(s) && Ready(s, m) && Fires(s, m) && Who(m) == c && Sizes(Step(s, m))
    ensures c < |s.reading| && ConsumerFits(Step(s, m), c)
  {
    hide *;
    Basics(s);
    StepKnown(s, m, c);
    KnownConsumer(s, m, c);
    FitsConsumer(s, c);
    StepOneCall(s, m, c);
    Readiness(s, m);
    StepParts(s, m);
    LeasesFrame(s, m);
    ConsumersChange(s, m);
    TicketsChange(s, m);
    ReadersChanges(s, m);
    WhoIs(m);
    PartsOwn(s, m, Step(s, m), c);
  }

  lemma KnownConsumer<E>(s: State<E>, m: Move<E>, c: nat)
    requires s.leases.size > 0 && Known(s, m, c)
    ensures c < |s.leases.consumers| && Whose(s, m) < |s.subs|
  {
    hide Whose, GotOf, ReadingFits, ReaderFits, TakerOf, BlockNo;
  }

  lemma KnownParts<E>(s: State<E>, m: Move<E>, s': State<E>, c: nat)
    requires Sizes(s) && Sizes(s') && s.leases.size > 0 && Known(s, m, c) && c == Who(m)
    requires |s'.subs| == |s.subs| && s'.subs == s.subs[Whose(s, m) := s'.subs[Whose(s, m)]]
    requires s'.leases.size == s.leases.size
    requires |s'.leases.consumers| == |s.leases.consumers| && |s'.reading| == |s.reading|
    requires TicketChange(s, m, s.subs[Whose(s, m)].tickets, s'.subs[Whose(s, m)].tickets)
    requires ReadersChange(s, m, s.subs[Whose(s, m)].index, s'.subs[Whose(s, m)].index)
    ensures OwnParts(s, s', Whose(s, m), c)
    ensures var p, x := Whose(s, m), s.leases.consumers[c];
            var sub, sub' := s.subs[p], s'.subs[p];
            && p < |s.leases.producers| && (x.Idle? || x.p == p)
            && ReaderChange(s, m, sub.index.readers[c], sub'.index.readers[c]) && ReaderFits(x, p, sub.index.readers[c], s.leases.size)
            && ReadingFits(x, s.reading[c], s.leases.size) && TakerOf(x, c, sub.tickets.takers)
            && (m.Claim? ==> GotOf(sub, m) > 0 && s.leases.producers[p].head == sub.tickets.head == |sub.tickets.takers|)
            && (m.LookUp? ==> x.Working? && x.at < x.to && sub.index.readers[c].Found?)
            && (m.LoadHeader? || m.LoadTail? || m.LoadKey? ==> x.Working?)
            && (m.Read? ==> x.Reading? && s.reading[c] < x.end)
            && (m.Complete? ==>
                  && x.Reading? && x.at < x.end <= x.to
                  && (x.end == x.to ==> BlockNo(x.at, s.leases.size) == BlockNo(x.to - 1, s.leases.size))
                  && (x.end < x.to ==> BlockNo(x.end, s.leases.size) == BlockNo(x.at, s.leases.size) + 1))
  {
    hide L.Shape, Whose, GotOf, ReaderChange, ReaderFits, ReadingFits, TakerOf, BlockNo, T.Repeat;
  }

  lemma PartsOwn<E>(s: State<E>, m: Move<E>, s': State<E>, c: nat)
    requires Sizes(s) && Sizes(s') && s.leases.size > 0 && Known(s, m, c) && c == Who(m) && ConsumerFits(s, c)
    requires |s'.subs| == |s.subs| && s'.subs == s.subs[Whose(s, m) := s'.subs[Whose(s, m)]]
    requires s'.leases.size == s.leases.size
    requires |s'.leases.consumers| == |s.leases.consumers| && |s'.reading| == |s.reading|
    requires OneCall(s', c)
    requires ConsumerChange(s, m, s.leases.consumers[c], s'.leases.consumers[c])
    requires TicketChange(s, m, s.subs[Whose(s, m)].tickets, s'.subs[Whose(s, m)].tickets)
    requires ReadersChange(s, m, s.subs[Whose(s, m)].index, s'.subs[Whose(s, m)].index)
    requires m.LookUp? ==> s'.reading[c] == s.leases.consumers[c].at
    requires m.Read? ==> s'.reading[c] == s.reading[c] + 1
    requires !m.LookUp? && !m.Read? ==> s'.reading[c] == s.reading[c]
    ensures ConsumerFits(s', c)
  {
    var p, x, y := Whose(s, m), s.leases.consumers[c], s'.leases.consumers[c];
    var sub, sub' := s.subs[p], s'.subs[p];
    KnownParts(s, m, s', c);
    hide *;
    OwnReader(s, m, x, y, sub.index.readers[c], sub'.index.readers[c]);
    OwnReading(s, m, x, y, s.reading[c], s'.reading[c]);
    OwnTaking(s, m, c, x, y, sub.tickets, sub'.tickets);
    OwnFits(s, s', p, c);
  }

  // ---------------------------------------------------------------- nothing below the head is forgotten

  lemma StepNoneDropped<E>(s: State<E>, m: Move<E>, p: nat)
    requires Fits(s) && Ready(s, m) && Fires(s, m) && p < |s.subs|
    ensures var s' := Step(s, m); p < |s'.subs| == |s'.leases.producers| && NoneDropped(s', p)
  {
    hide *;
    Basics(s);
    var s', c := Step(s, m), Who(m);
    NotDropped(s, p);
    Readiness(s, m);
    WhoIs(m);
    if 0 <= c { OwnDrops(s, m, c); }
    StepParts(s, m);
    LeasesFrame(s, m);
    if p == Whose(s, m) {
      LeasesChange(s, m);
      TicketsChange(s, m);
      PartsNoneDropped(s, m, s');
    } else {
      OthersNoneDropped(s, s', Whose(s, m), p, c);
    }
  }

  lemma NotDropped<E>(s: State<E>, p: nat)
    requires Sizes(s) && Consumers(s) && p < |s.subs| == |s.leases.producers|
    ensures NoneDropped(s, p)
  {
    hide ConsumerFits, NoneDropped;
  }

  /** What is needed of the consumer that steps. */
  lemma OwnDrops<E>(s: State<E>, m: Move<E>, c: nat)
    requires Fits(s) && Ready(s, m) && Fires(s, m) && c == Who(m)
    ensures c < |s.leases.consumers| == |LeasesAfter(s, m).consumers| && s.leases.size > 0
    ensures Whose(s, m) < |s.subs| && Whose(s, m) < |s.leases.producers|
    ensures ConsumerChange(s, m, s.leases.consumers[c], LeasesAfter(s, m).consumers[c])
    ensures s.leases.consumers[c].Idle? || s.leases.consumers[c].p == Whose(s, m)
    ensures m.Claim? ==> |s.subs[Whose(s, m)].tickets.takers| == s.leases.producers[Whose(s, m)].head && s.leases.consumers[c].Idle?
    ensures m.Complete? ==> var x := s.leases.consumers[c]; x.Reading? && x.at < x.end <= x.to
  {
    hide *;
    Basics(s);
    StepKnown(s, m, c);
    KnownConsumer(s, m, c);
    ConsumersChange(s, m);
    KnownDrops(s, m, c);
  }

  lemma KnownDrops<E>(s: State<E>, m: Move<E>, c: nat)
    requires s.leases.size > 0 && Known(s, m, c)
    ensures s.leases.consumers[c].Idle? || s.leases.consumers[c].p == Whose(s, m)
    ensures m.Claim? ==> |s.subs[Whose(s, m)].tickets.takers| == s.leases.producers[Whose(s, m)].head && s.leases.consumers[c].Idle?
    ensures m.Complete? ==> var x := s.leases.consumers[c]; x.Reading? && x.at < x.end <= x.to
  {
    hide Whose, GotOf, ReadingFits, ReaderFits, TakerOf, BlockNo;
  }

  lemma OthersNoneDropped<E>(s: State<E>, s': State<E>, p: nat, q: nat, c: int)
    requires p < |s.subs| == |s'.subs| && q < |s.subs| == |s.leases.producers| == |s'.leases.producers| && q != p
    requires s'.subs == s.subs[p := s'.subs[p]] && s'.leases.producers[q] == s.leases.producers[q]
    requires |s'.leases.consumers| == |s.leases.consumers|
    requires forall d: nat | d < |s.leases.consumers| && d != c :: s'.leases.consumers[d] == s.leases.consumers[d]
    requires 0 <= c < |s.leases.consumers| ==> s.leases.consumers[c].Idle? || s.leases.consumers[c].p == p
    requires NoneDropped(s, q)
    ensures NoneDropped(s', q)
  {
  }

  lemma PartsNoneDropped<E>(s: State<E>, m: Move<E>, s': State<E>)
    requires s.leases.size > 0 && Whose(s, m) < |s.subs| == |s'.subs| == |s.leases.producers| == |s'.leases.producers|
    requires |s'.leases.consumers| == |s.leases.consumers| && Who(m) < |s.leases.consumers|
    requires forall d: nat | d < |s.leases.consumers| && d != Who(m) :: s'.leases.consumers[d] == s.leases.consumers[d]
    requires LeaseChange(s, m, s.leases.producers[Whose(s, m)], s'.leases.producers[Whose(s, m)])
    requires TicketChange(s, m, s.subs[Whose(s, m)].tickets, s'.subs[Whose(s, m)].tickets)
    requires 0 <= Who(m) ==> ConsumerChange(s, m, s.leases.consumers[Who(m)], s'.leases.consumers[Who(m)])
    requires m.Claim? ==> |s.subs[Whose(s, m)].tickets.takers| == s.leases.producers[Whose(s, m)].head && s.leases.consumers[m.c].Idle?
    requires m.Complete? ==> var x := s.leases.consumers[m.c]; x.Reading? && x.at < x.end <= x.to
    requires NoneDropped(s, Whose(s, m))
    ensures NoneDropped(s', Whose(s, m))
  {
    var p := Whose(s, m);
    var takers, takers' := s.subs[p].tickets.takers, s'.subs[p].tickets.takers;
    hide Whose, GotOf, First, BlockNo;
    forall i: nat | i < |takers'| && i !in s'.leases.producers[p].done
      ensures takers'[i] < |s'.leases.consumers| && Owns(s'.leases.consumers[takers'[i]], p, i)
    {
    }
  }

  // ---------------------------------------------------------------- all together

  lemma StepConsumers<E>(s: State<E>, m: Move<E>)
    requires Fits(s) && Ready(s, m) && Fires(s, m)
    ensures Sizes(Step(s, m)) && Consumers(Step(s, m))
  {
    hide *;
    Basics(s);
    StepMachines(s, m);
    var s' := Step(s, m);
    SizesEqual(s');
    StepParts(s, m);
    LeasesFrame(s, m);
    forall c | 0 <= c < |s'.leases.consumers| ensures ConsumerFits(s', c) {
      if c == Who(m) {
        StepOwn(s, m, c);
      } else {
        StepUnseen(s, m, c);
        FitsConsumer(s, c);
        UnseenFits(s, s', Whose(s, m), c);
      }
    }
    forall p | 0 <= p < |s'.subs| ensures p < |s'.leases.producers| == |s'.subs| && NoneDropped(s', p) {
      StepNoneDropped(s, m, p);
    }
    ConsumersFrom(s');
  }

  lemma FitsConsumer<E>(s: State<E>, c: nat)
    requires Sizes(s) && Consumers(s) && c < |s.leases.consumers|
    ensures ConsumerFits(s, c)
  {
  }

  lemma ConsumersFrom<E>(s: State<E>)
    requires Sizes(s) && (forall c | 0 <= c < |s.leases.consumers| :: ConsumerFits(s, c))
    requires forall p | 0 <= p < |s.subs| :: p < |s.leases.producers| == |s.subs| && NoneDropped(s, p)
    ensures Consumers(s)
  {
    hide ConsumerFits, NoneDropped;
  }

  lemma StepProducers<E>(s: State<E>, m: Move<E>)
    requires Fits(s) && Ready(s, m) && Fires(s, m)
    ensures Sizes(Step(s, m)) && Machines(Step(s, m)) && Producers(Step(s, m))
  {
    hide *;
    Basics(s);
    StepMachines(s, m);
    StepJoined(s, m);
    StepStored(s, m);
    StepParts(s, m);
    LeasesFrame(s, m);
    SizesEqual(Step(s, m));
    PartsProducers(s, Step(s, m), Whose(s, m));
  }

  lemma SizesEqual<E>(s: State<E>)
    requires Sizes(s)
    ensures |s.subs| == |s.leases.producers| && |s.reading| == |s.leases.consumers| && s.leases.size > 0
  {
    hide SubSizes;
  }

  lemma PartsProducers<E>(s: State<E>, s': State<E>, p: nat)
    requires Sizes(s) && Machines(s) && Producers(s) && Sizes(s') && Machines(s')
    requires p < |s.subs| == |s'.subs| && s'.subs == s.subs[p := s'.subs[p]] && s'.leases.size == s.leases.size
    requires |s.leases.producers| == |s'.leases.producers|
    requires forall q: nat | q < |s.leases.producers| && q != p :: s'.leases.producers[q] == s.leases.producers[q]
    requires Joined(s'.leases.producers[p], s'.subs[p], s.leases.size)
    requires |s'.subs[p].values| == |s'.subs[p].index.keys| && X.Shape(s'.subs[p].index)
    requires Stored(s'.leases.producers[p].entries, s'.subs[p].index, s'.subs[p].values)
    ensures Producers(s')
  {
    hide Machines, L.Shape, Joined, Stored, X.Shape;
    forall q | 0 <= q < |s'.subs|
      ensures X.Shape(s'.subs[q].index) && |s'.subs[q].values| == |s'.subs[q].index.keys|
           && ProducerFits(s'.leases.producers[q], s'.subs[q], s'.leases.size)
    {
      ShapeOf(s', q);
      if q != p { assert ProducerFits(s.leases.producers[q], s.subs[q], s.leases.size); }
    }
    hide ProducerFits;
  }

  lemma ShapeOf<E>(s: State<E>, p: nat)
    requires Sizes(s) && Machines(s) && p < |s.subs|
    ensures X.Shape(s.subs[p].index) && |s.subs[p].values| == |s.subs[p].index.keys|
  {
    assert SubSizes(s.subs[p], s.leases.size, |s.reading|);
    InvShape(s.subs[p].index);
    hide X.Inv, L.Inv, T.Inv, L.Shape;
  }

  lemma StepFits<E>(s: State<E>, m: Move<E>)
    requires Fits(s) && Ready(s, m) && Fires(s, m)
    ensures Fits(Step(s, m))
  {
    StepProducers(s, m);
    StepConsumers(s, m);
    hide Sizes, Machines, Producers, Consumers, Ready, Fires, Step;
  }
}
