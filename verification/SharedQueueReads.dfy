/** What consumers of a `SharedQueue` read: every element once, by the consumer that took its index, as it was put in. */
module SharedQueueReads {
  import opened SharedQueue
  import opened SharedQueueProof
  import opened SharedQueueSteps
  import opened Slots
  import T = DequeueTickets
  import L = BlockLeases
  import LP = BlockLeasesProof
  import X = BlockLookup

  // ---------------------------------------------------------------- what is gone

  lemma GoneBelow<E>(s: State<E>, p: nat, i: nat)
    requires Fits(s) && p < |s.subs| && p < |s.leases.producers| && Gone(s, p, i)
    ensures i < |s.subs[p].tickets.takers| == s.leases.producers[p].head <= s.leases.producers[p].tail
    ensures s.leases.producers[p].tail == |s.subs[p].tickets.items|
  {
    hide *;
    Basics(s);
    HeadIsTaken(s, p);
    ProducerKnown(s, p);
    BelowHead(s, p, i);
  }

  lemma BelowHead<E>(s: State<E>, p: nat, i: nat)
    requires p < |s.subs| == |s.leases.producers| && s.leases.size > 0 && Gone(s, p, i)
    requires L.ProducerOk(s.leases.producers[p], s.leases.emptied, s.leases.size)
    requires Joined(s.leases.producers[p], s.subs[p], s.leases.size)
    requires s.leases.producers[p].head == |s.subs[p].tickets.takers|
    ensures i < |s.subs[p].tickets.takers| && s.leases.producers[p].head <= s.leases.producers[p].tail
    ensures s.leases.producers[p].tail == |s.subs[p].tickets.items|
  {
    hide First, L.Emptied;
  }

  /** The index a step reads. */
  predicate ReadsIt<E>(s: State<E>, m: Move<E>, p: nat, i: nat) {
    m.Read? && p == Whose(s, m) && m.c < |s.reading| && i == s.reading[m.c]
  }

  /** A step reads an index or leaves what is gone as it is. */
  lemma GoneChange<E>(s: State<E>, m: Move<E>, p: nat, i: nat)
    requires Fits(s) && Ready(s, m) && Fires(s, m) && p < |s.subs|
    ensures var s' := Step(s, m);
            && p < |s.leases.producers| && p < |s'.subs| && p < |s'.leases.producers|
            && (Gone(s', p, i) <==> Gone(s, p, i) || ReadsIt(s, m, p, i))
  {
    hide *;
    Basics(s);
    Readiness(s, m);
    WhoIs(m);
    if 0 <= Who(m) { OwnDrops(s, m, Who(m)); StepKnown(s, m, Who(m)); }
    if Gone(s, p, i) { GoneBelow(s, p, i); }
    NextTaken(s, m);
    StepParts(s, m);
    LeasesFrame(s, m);
    LeasesChange(s, m);
    TicketsChange(s, m);
    if p == Whose(s, m) {
      PartsGone(s, m, Step(s, m), i);
    } else {
      ReadsNothing(s, m, p, i);
      OthersGone(s, m, Step(s, m), p, i);
    }
  }

  lemma NextTaken<E>(s: State<E>, m: Move<E>)
    requires Fits(s) && Ready(s, m) && Fires(s, m)
    ensures m.Read? ==>
      && m.c < |s.reading| && Whose(s, m) < |s.subs| && s.reading[m.c] < |s.subs[Whose(s, m)].tickets.takers|
      && s.subs[Whose(s, m)].tickets.takers[s.reading[m.c]] == m.c
    ensures m.Complete? ==> m.c < |s.reading| && m.c < |s.leases.consumers| && s.leases.consumers[m.c].Reading? && s.reading[m.c] == s.leases.consumers[m.c].end
  {
    if m.Read? {
      NextIsFilled(s, m.c);
      ReadyConsumer(s, m, m.c);
    }
    if m.Complete? { ReadyConsumer(s, m, m.c); }
    hide Fits, Sizes, Machines, Fires;
  }

  lemma OthersGone<E>(s: State<E>, m: Move<E>, s': State<E>, q: nat, i: nat)
    requires Whose(s, m) < |s.subs| == |s'.subs| && q < |s.subs| == |s.leases.producers| == |s'.leases.producers|
    requires q != Whose(s, m)
    requires s'.subs == s.subs[Whose(s, m) := s'.subs[Whose(s, m)]] && s'.leases.producers[q] == s.leases.producers[q]
    requires |s'.leases.consumers| == |s.leases.consumers| && |s'.reading| == |s.reading| && s.leases.size > 0
    requires forall d: nat | d < |s.leases.consumers| && d != Who(m) :: s'.leases.consumers[d] == s.leases.consumers[d]
    requires forall d | 0 <= d < |s.reading| && d != Who(m) :: s'.reading[d] == s.reading[d]
    requires 0 <= Who(m) < |s.leases.consumers| ==>
      && (s.leases.consumers[Who(m)].Idle? || s.leases.consumers[Who(m)].p == Whose(s, m))
      && ConsumerChange(s, m, s.leases.consumers[Who(m)], s'.leases.consumers[Who(m)])
    ensures Gone(s', q, i) <==> Gone(s, q, i)
  {
    hide Whose, GotOf, First, BlockNo;
  }

  lemma PartsGone<E>(s: State<E>, m: Move<E>, s': State<E>, i: nat)
    requires s.leases.size > 0 && Whose(s, m) < |s.subs| == |s'.subs| == |s.leases.producers| == |s'.leases.producers|
    requires |s'.leases.consumers| == |s.leases.consumers| == |s'.reading| == |s.reading| && Who(m) < |s.reading|
    requires forall d: nat | d < |s.leases.consumers| && d != Who(m) :: s'.leases.consumers[d] == s.leases.consumers[d]
    requires forall d | 0 <= d < |s.reading| && d != Who(m) :: s'.reading[d] == s.reading[d]
    requires LeaseChange(s, m, s.leases.producers[Whose(s, m)], s'.leases.producers[Whose(s, m)])
    requires TicketChange(s, m, s.subs[Whose(s, m)].tickets, s'.subs[Whose(s, m)].tickets)
    requires 0 <= Who(m) ==> Known(s, m, Who(m)) && ConsumerChange(s, m, s.leases.consumers[Who(m)], s'.leases.consumers[Who(m)])
    requires Gone(s, Whose(s, m), i) ==> i < |s.subs[Whose(s, m)].tickets.takers|
    requires m.LookUp? ==> s'.reading[m.c] == s.leases.consumers[m.c].at
    requires m.Read? ==> s'.reading[m.c] == s.reading[m.c] + 1
    requires !m.LookUp? && !m.Read? ==> s'.reading == s.reading
    requires m.Read? ==>
      && s.reading[m.c] < |s.subs[Whose(s, m)].tickets.takers| && s.subs[Whose(s, m)].tickets.takers[s.reading[m.c]] == m.c
    requires m.Complete? ==> s.leases.consumers[m.c].Reading? && s.reading[m.c] == s.leases.consumers[m.c].end
    ensures Gone(s', Whose(s, m), i) <==> Gone(s, Whose(s, m), i) || ReadsIt(s, m, Whose(s, m), i)
  {
    var p := Whose(s, m);
    if 0 <= Who(m) { KnownTaking(s, m, Who(m)); }
    hide Whose, GotOf, First, BlockNo, Known;
    match m
    case Claim(_, _) =>
    case LookUp(_) =>
    case Read(_) =>
    case Complete(_) =>
    case Clear(_) =>
    case AddFree(_) =>
    case _ =>
  }

  lemma KnownTaking<E>(s: State<E>, m: Move<E>, c: nat)
    requires s.leases.size > 0 && Known(s, m, c)
    ensures var x := s.leases.consumers[c];
            && (x.Idle? || x.p == Whose(s, m)) && TakerOf(x, c, s.subs[Whose(s, m)].tickets.takers)
            && (m.Read? ==> x.Reading? && x.at <= s.reading[c] < x.end) && (m.Complete? ==> x.at < x.end <= x.to)
            && (m.Claim? ==> x.Idle?)
  {
    hide First, BlockNo, GotOf, Whose, ReaderFits;
  }

  /** A step builds the next element or leaves all of them as they are. */
  lemma BuiltChange<E>(s: State<E>, m: Move<E>, p: nat)
    requires Fits(s) && Ready(s, m) && Fires(s, m) && p < |s.subs|
    ensures var s' := Step(s, m);
            && p < |s.leases.producers| == |s'.leases.producers| == |s'.subs| == |s.subs|
            && NextBuilt(s', p) == NextBuilt(s, p) + (if m.Build? && p == Whose(s, m) then 1 else 0)
            && All(s'.subs[p]) == All(s.subs[p]) + (if m.Build? && p == Whose(s, m) then [m.e] else [])
            && |All(s.subs[p])| == NextBuilt(s, p)
  {
    hide *;
    Basics(s);
    Readiness(s, m);
    WhoseJoined(s, p);
    StepParts(s, m);
    LeasesFrame(s, m);
    LeasesChange(s, m);
    TicketsChange(s, m);
    PartsBuilt(s, m, Step(s, m), p);
  }

  lemma PartsBuilt<E>(s: State<E>, m: Move<E>, s': State<E>, p: nat)
    requires Whose(s, m) < |s.subs| == |s'.subs| == |s.leases.producers| == |s'.leases.producers| && p < |s.subs|
    requires s'.subs == s.subs[Whose(s, m) := s'.subs[Whose(s, m)]]
    requires Joined(s.leases.producers[p], s.subs[p], s.leases.size)
    requires p != Whose(s, m) ==> s'.leases.producers[p] == s.leases.producers[p]
    requires var sub, sub', w := s.subs[Whose(s, m)], s'.subs[Whose(s, m)], Whose(s, m);
      && LeaseChange(s, m, s.leases.producers[w], s'.leases.producers[w]) && TicketChange(s, m, sub.tickets, sub'.tickets)
      && sub'.building == (if m.Build? then sub.building + [m.e] else if m.Publish? then [] else sub.building)
    ensures NextBuilt(s', p) == NextBuilt(s, p) + (if m.Build? && p == Whose(s, m) then 1 else 0)
    ensures All(s'.subs[p]) == All(s.subs[p]) + (if m.Build? && p == Whose(s, m) then [m.e] else [])
    ensures |All(s.subs[p])| == NextBuilt(s, p)
  {
    hide Whose, GotOf, First, L.Range, T.Repeat;
  }

  /** So a step fills an index, empties one, or leaves what is filled as it is. */
  lemma FilledChange<E>(s: State<E>, m: Move<E>, p: nat, i: nat)
    requires Fits(s) && Ready(s, m) && Fires(s, m) && p < |s.subs|
    ensures var s' := Step(s, m);
            && p < |s.leases.producers| == |s'.leases.producers| == |s'.subs| == |s.subs|
            && (Filled(s', p, i) <==>
                  (Filled(s, p, i) && !ReadsIt(s, m, p, i)) || (m.Build? && p == Whose(s, m) && i == NextBuilt(s, p)))
  {
    hide *;
    Basics(s);
    BuiltChange(s, m, p);
    GoneChange(s, m, p, i);
    if Gone(s, p, i) { GoneBelow(s, p, i); }
    ReadsNothing(s, m, p, i);
    FilledFrom(s, Step(s, m), m, p, i);
  }

  lemma FilledFrom<E>(s: State<E>, s': State<E>, m: Move<E>, p: nat, i: nat)
    requires p < |s.subs| == |s'.subs| == |s.leases.producers| == |s'.leases.producers|
    requires NextBuilt(s', p) == NextBuilt(s, p) + (if m.Build? && p == Whose(s, m) then 1 else 0)
    requires Gone(s', p, i) <==> Gone(s, p, i) || ReadsIt(s, m, p, i)
    requires Gone(s, p, i) ==> i < s.leases.producers[p].tail
    requires ReadsIt(s, m, p, i) ==> m.Read?
    ensures Filled(s', p, i) <==> (Filled(s, p, i) && !ReadsIt(s, m, p, i)) || (m.Build? && p == Whose(s, m) && i == NextBuilt(s, p))
  {
    hide Gone, ReadsIt, Whose;
  }

  lemma ReadsNothing<E>(s: State<E>, m: Move<E>, p: nat, i: nat)
    ensures ReadsIt(s, m, p, i) ==> m.Read? && p == Whose(s, m)
  {
    hide Whose;
  }

  // ---------------------------------------------------------------- no block with an element in it moves

  /** The block a step takes out of the index of its producer. */
  predicate Removes<E>(s: State<E>, m: Move<E>, k: nat) {
    || (m.TakeBack? && m.p < |s.leases.producers| && k + 1 == s.leases.producers[m.p].next)
    || (m.Clear? && m.c < |s.leases.consumers| && s.leases.consumers[m.c].Clearing? && k == s.leases.consumers[m.c].k)
  }

  lemma RemovedUnused<E>(s: State<E>, m: Move<E>, k: nat, i: nat)
    requires Fits(s) && Ready(s, m) && Fires(s, m) && Removes(s, m, k)
    requires First(k, s.leases.size) <= i < First(k, s.leases.size) + s.leases.size
    ensures Whose(s, m) < |s.subs| == |s.leases.producers| && !Filled(s, Whose(s, m), i)
  {
    hide *;
    Basics(s);
    Readiness(s, m);
    if m.Clear? {
      ClearParts(s, m, k);
      LP.FreedNotEarly(s.leases, m.c);
      DoneIsGone(s, Whose(s, m), i);
    } else {
      TakeBackParts(s, m, k);
      PastBuilt(s, Whose(s, m), i);
    }
  }

  lemma ClearParts<E>(s: State<E>, m: Move<E>, k: nat)
    requires m.Clear? && Removes(s, m, k)
    ensures m.c < |s.leases.consumers| && s.leases.consumers[m.c].Clearing? && k == s.leases.consumers[m.c].k
    ensures Whose(s, m) == s.leases.consumers[m.c].p
  {
  }

  lemma TakeBackParts<E>(s: State<E>, m: Move<E>, k: nat)
    requires !m.Clear? && Removes(s, m, k)
    ensures m.TakeBack? && m.p < |s.leases.producers| && k + 1 == s.leases.producers[m.p].next && Whose(s, m) == m.p
  {
  }

  lemma DoneIsGone<E>(s: State<E>, p: nat, i: nat)
    requires p < |s.subs| == |s.leases.producers| && i in s.leases.producers[p].done
    ensures !Filled(s, p, i)
  {
    hide NextBuilt, Taken;
  }

  lemma PastBuilt<E>(s: State<E>, p: nat, i: nat)
    requires p < |s.subs| == |s.leases.producers| && s.subs[p].building == [] && s.leases.producers[p].tail <= i
    ensures !Filled(s, p, i)
  {
    hide Gone;
  }

  /** A filled index keeps its slot. */
  lemma SlotStays<E>(s: State<E>, m: Move<E>, p: nat, i: nat)
    requires Fits(s) && Ready(s, m) && Fires(s, m) && p < |s.subs| == |s.leases.producers| && Filled(s, p, i)
    requires s.leases.size > 0 && HasSlot(s, p, i)
    ensures var s' := Step(s, m); s'.leases.size == s.leases.size && HasSlot(s', p, i) && SlotAt(s', p, i) == SlotAt(s, p, i)
  {
    hide *;
    Basics(s);
    FiresWhose(s, m);
    if p == Whose(s, m) && Removes(s, m, BlockNo(i, s.leases.size)) { RemovedUnused(s, m, BlockNo(i, s.leases.size), i); }
    WhoseStored(s, p);
    StepParts(s, m);
    LeasesFrame(s, m);
    LeasesChange(s, m);
    PartsSlot(s, m, Step(s, m), p, i);
  }

  lemma PartsSlot<E>(s: State<E>, m: Move<E>, s': State<E>, p: nat, i: nat)
    requires s.leases.size > 0 && s'.leases.size == s.leases.size && HasSlot(s, p, i)
    requires Whose(s, m) < |s.subs| == |s.leases.producers| == |s'.leases.producers| && p < |s.subs|
    requires p != Whose(s, m) ==> s'.leases.producers[p] == s.leases.producers[p]
    requires LeaseChange(s, m, s.leases.producers[Whose(s, m)], s'.leases.producers[Whose(s, m)])
    requires p == Whose(s, m) ==> !Removes(s, m, BlockNo(i, s.leases.size))
    requires forall k | k in s.leases.producers[p].entries :: k < s.leases.producers[p].next
    ensures HasSlot(s', p, i) && SlotAt(s', p, i) == SlotAt(s, p, i)
  {
    TakeBackOf(s, m);
    hide Whose, GotOf, First, BlockNo, Offset, L.Range;
  }

  lemma TakeBackOf<E>(s: State<E>, m: Move<E>)
    ensures m.TakeBack? ==> Whose(s, m) == m.p
  {
  }

  lemma OldHome(l: L.State, lm: L.Move)
    requires L.Inv(l) && L.Enabled(l, lm) && !lm.NewBlock? && LP.MovedBlock(l, lm) >= 0
    ensures LP.MovedBlock(l, lm) < |l.home| && l.home[LP.MovedBlock(l, lm)] == LP.OldPlace(l, lm)
  {
    if lm.Clear? { assert L.ConsumerOk(l, lm.c); }
    assert L.Located(l, LP.MovedBlock(l, lm), LP.OldPlace(l, lm));
    hide First, BlockNo, L.Emptied, L.ProducerOk, L.NoLeak, L.Disjoint, LP.MovedBlock, LP.OldPlace, L.Enabled;
  }

  /** A block with a filled slot stays leased to whom it is. */
  lemma HomeStays<E>(s: State<E>, m: Move<E>, b: nat, o: nat)
    requires Fits(s) && Ready(s, m) && Fires(s, m)
    requires s.leases.size > 0 && o < s.leases.size && b < |s.leases.home| && s.leases.home[b].Leased?
    requires s.leases.home[b].p < |s.subs| == |s.leases.producers|
    requires Filled(s, s.leases.home[b].p, First(s.leases.home[b].k, s.leases.size) + o)
    ensures var s' := Step(s, m); b < |s'.leases.home| && s'.leases.home[b] == s.leases.home[b]
  {
    hide *;
    Basics(s);
    FiresWhose(s, m);
    var some := LeaseMove(s, m);
    LeaseMoveFor(s, m);
    LeasesAre(s, m);
    MoveKinds(s, m);
    StepParts(s, m);
    if some.Some? {
      NotMoved(s, m, some.value, b, o);
      HomesKept(s.leases, some.value, b);
    }
  }

  lemma LeasesAre<E>(s: State<E>, m: Move<E>)
    requires Sizes(s) && Machines(s) && Fires(s, m) && Whose(s, m) < |s.subs|
    ensures LeaseMove(s, m).Some? ==> L.Shape(s.leases) && L.Enabled(s.leases, LeaseMove(s, m).value)
    ensures LeasesAfter(s, m) == if LeaseMove(s, m).Some? then L.Step(s.leases, LeaseMove(s, m).value) else s.leases
  {
    hide Whose, LeaseMove, IndexMove, TicketMove, L.Step, L.Enabled, L.Inv, T.Inv, X.Inv, SlotReady, BlockReady;
  }

  lemma HomesKept(l: L.State, lm: L.Move, b: nat)
    requires L.Shape(l) && L.Enabled(l, lm) && b < |l.home| && (lm.NewBlock? || LP.MovedBlock(l, lm) != b)
    ensures b < |L.Step(l, lm).home| && L.Step(l, lm).home[b] == l.home[b]
  {
    LP.HomeFrame(l, lm);
    hide L.Shape, L.Enabled, L.Step, LP.NewPlace;
    if lm.NewBlock? { } else if LP.MovedBlock(l, lm) < 0 { } else { }
  }

  lemma NotMoved<E>(s: State<E>, m: Move<E>, lm: L.Move, b: nat, o: nat)
    requires Sizes(s) && Machines(s) && Fits(s) && Ready(s, m) && Fires(s, m)
    requires L.Shape(s.leases) && L.Enabled(s.leases, lm) && LeaseMoveIs(m, lm)
    requires m.Obtain? ==> m.from.FromPool? || m.from.FromFree? || m.from.NewBlock? || m.from.GiveBack?
    requires m.Clear? ==> m.c < |s.leases.consumers| && s.leases.consumers[m.c].Clearing?
    requires s.leases.size > 0 && o < s.leases.size && b < |s.leases.home| && s.leases.home[b].Leased?
    requires s.leases.home[b].p < |s.subs| == |s.leases.producers|
    requires Filled(s, s.leases.home[b].p, First(s.leases.home[b].k, s.leases.size) + o)
    ensures lm.NewBlock? || LP.MovedBlock(s.leases, lm) != b
  {
    hide *;
    Basics(s);
    SameProducer(s, m, lm);
    if !lm.NewBlock? && LP.MovedBlock(s.leases, lm) == b {
      var home := s.leases.home[b];
      OldHome(s.leases, lm);
      OldLease(s, m, lm);
      RemovedUnused(s, m, home.k, First(home.k, s.leases.size) + o);
    }
  }

  lemma OldLease<E>(s: State<E>, m: Move<E>, lm: L.Move)
    requires L.Shape(s.leases) && L.Enabled(s.leases, lm) && LeaseMoveIs(m, lm) && LP.Whose(s.leases, lm) == Whose(s, m)
    requires LP.OldPlace(s.leases, lm).Leased?
    requires m.Obtain? ==> m.from.FromPool? || m.from.FromFree? || m.from.NewBlock? || m.from.GiveBack?
    requires m.Clear? ==> m.c < |s.leases.consumers| && s.leases.consumers[m.c].Clearing?
    ensures var home := LP.OldPlace(s.leases, lm); home.p == Whose(s, m) && Removes(s, m, home.k)
  {
    hide First, BlockNo, Whose;
  }

  // ---------------------------------------------------------------- the cells

  lemma CellParts<E>(s: State<E>, m: Move<E>)
    requires Sizes(s) && Machines(s) && Fires(s, m)
    ensures var s' := Step(s, m);
            && (m.Build? ==>
                  && m.p < |s.subs| && HasSlot(s, m.p, NextBuilt(s, m.p)) && SlotAt(s, m.p, NextBuilt(s, m.p)) !in s.cells
                  && s'.cells == s.cells[SlotAt(s, m.p, NextBuilt(s, m.p)) := m.e] && Whose(s, m) == m.p)
            && (m.Read? ==>
                  && m.c < |s.reading| && s.leases.consumers[m.c].Reading? && SlotRead(s, m.c) in s.cells
                  && s'.cells == s.cells - {SlotRead(s, m.c)}
                  && s'.seen == s.seen[(s.leases.consumers[m.c].p, s.reading[m.c]) := Got(m.c, s.cells[SlotRead(s, m.c)])]
                  && Whose(s, m) == s.leases.consumers[m.c].p)
  {
    hide L.Inv, X.Inv, T.Inv, LeasesAfter, SubAfter, L.Enabled, X.Enabled, LeaseMove, IndexMove, TicketMove, Machines, Offset, BlockNo;
  }

  /** The slots of two indices are different. */
  lemma SlotsApart<E>(s: State<E>, p: nat, i: nat, q: nat, j: nat)
    requires s.leases.size > 0 && L.Homes(s.leases) && HasSlot(s, p, i) && HasSlot(s, q, j) && (p != q || i != j)
    ensures SlotAt(s, p, i) != SlotAt(s, q, j)
  {
    LeasedHome(s.leases, p, BlockNo(i, s.leases.size));
    LeasedHome(s.leases, q, BlockNo(j, s.leases.size));
    Splits(i, s.leases.size);
    Splits(j, s.leases.size);
    hide L.Homes, BlockNo, First, Offset;
  }

  /** A filled index that is not read keeps its element. */
  lemma StaysInPlace<E>(s: State<E>, m: Move<E>, p: nat, i: nat)
    requires Inv(s) && Ready(s, m) && Fires(s, m) && p < |s.subs| == |s.leases.producers| && Filled(s, p, i)
    requires !ReadsIt(s, m, p, i)
    ensures Step(s, m).leases.size > 0 && p < |Step(s, m).subs| && InPlace(Step(s, m), p, i)
  {
    hide *;
    InvBasics(s);
    Basics(s);
    if m.Read? { ReadKnown(s, m); }
    InPlaceOf(s, p, i);
    CellParts(s, m);
    StepParts(s, m);
    BuiltChange(s, m, p);
    InPlaceHas(s, p, i);
    SlotStays(s, m, p, i);
    if m.Read? { SlotsApart(s, p, i, Whose(s, m), s.reading[m.c]); }
    PartsInPlace(s, m, Step(s, m), p, i);
  }

  /** What is known of a step that reads. */
  lemma ReadKnown<E>(s: State<E>, m: Move<E>)
    requires Fits(s) && Ready(s, m) && Fires(s, m) && m.Read?
    ensures s.leases.size > 0 && m.c < |s.reading| == |s.leases.consumers| && s.leases.consumers[m.c].Reading?
    ensures Whose(s, m) == s.leases.consumers[m.c].p < |s.subs|
    ensures forall p: nat, i: nat :: ReadsIt(s, m, p, i) <==> p == Whose(s, m) && i == s.reading[m.c]
    ensures Sizes(s) && HasSlot(s, Whose(s, m), s.reading[m.c])
    ensures SlotAt(s, Whose(s, m), s.reading[m.c]) == SlotRead(s, m.c)
  {
    hide *;
    Basics(s);
    WhoIs(m);
    ReadyConsumer(s, m, m.c);
    NextIsFilled(s, m.c);
    ReadIsIt(s, m);
  }

  lemma InPlaceHas<E>(s: State<E>, p: nat, i: nat)
    requires s.leases.size > 0 && p < |s.subs| && InPlace(s, p, i)
    ensures HasSlot(s, p, i)
  {
    hide BlockNo, Offset;
  }

  lemma ReadIsIt<E>(s: State<E>, m: Move<E>)
    requires m.Read? && m.c < |s.leases.consumers| && m.c < |s.reading| && !s.leases.consumers[m.c].Idle?
    ensures Whose(s, m) == s.leases.consumers[m.c].p && ReadsIt(s, m, s.leases.consumers[m.c].p, s.reading[m.c])
    ensures forall i: nat :: ReadsIt(s, m, Whose(s, m), i) <==> i == s.reading[m.c]
    ensures forall p: nat, i: nat :: ReadsIt(s, m, p, i) <==> p == Whose(s, m) && i == s.reading[m.c]
  {
  }

  lemma PartsInPlace<E>(s: State<E>, m: Move<E>, s': State<E>, p: nat, i: nat)
    requires s.leases.size > 0 && s'.leases.size == s.leases.size && p < |s.subs| == |s'.subs| && InPlace(s, p, i)
    requires HasSlot(s, p, i) && HasSlot(s', p, i) && SlotAt(s', p, i) == SlotAt(s, p, i)
    requires All(s.subs[p]) <= All(s'.subs[p])
    requires m.Build? ==> exists slot :: slot !in s.cells && s'.cells == s.cells[slot := m.e]
    requires m.Read? ==> exists slot :: slot != SlotAt(s, p, i) && s'.cells == s.cells - {slot}
    requires !m.Build? && !m.Read? ==> s'.cells == s.cells
    ensures InPlace(s', p, i)
  {
    hide BlockNo, Offset, HasSlot;
  }

  lemma BuiltInPlace<E>(s: State<E>, m: Move<E>)
    requires Inv(s) && Ready(s, m) && Fires(s, m) && m.Build?
    ensures m.p < |s.subs| == |s.leases.producers| && Step(s, m).leases.size > 0 && m.p < |Step(s, m).subs|
    ensures InPlace(Step(s, m), m.p, NextBuilt(s, m.p))
  {
    hide *;
    InvBasics(s);
    Basics(s);
    BuildLeases(s, m);
    CellParts(s, m);
    StepParts(s, m);
    BuiltChange(s, m, m.p);
    PartsBuiltInPlace(s, m, Step(s, m));
  }

  lemma BuildLeases<E>(s: State<E>, m: Move<E>)
    requires Sizes(s) && Machines(s) && Fires(s, m) && m.Build?
    ensures LeasesAfter(s, m) == s.leases && Whose(s, m) == m.p && m.p < |s.subs| == |s.leases.producers|
  {
    hide L.Inv, X.Inv, T.Inv, L.Enabled, X.Enabled, SlotReady;
  }

  lemma PartsBuiltInPlace<E>(s: State<E>, m: Move<E>, s': State<E>)
    requires m.Build? && m.p < |s.subs| == |s'.subs| == |s.leases.producers| && s.leases.size > 0
    requires s'.leases == s.leases
    requires HasSlot(s, m.p, NextBuilt(s, m.p)) && s'.cells == s.cells[SlotAt(s, m.p, NextBuilt(s, m.p)) := m.e]
    requires All(s'.subs[m.p]) == All(s.subs[m.p]) + [m.e] && |All(s.subs[m.p])| == NextBuilt(s, m.p)
    ensures InPlace(s', m.p, NextBuilt(s, m.p))
  {
    hide BlockNo, Offset, All;
  }

  lemma LeasedAt(l: L.State, b: nat)
    requires L.Homes(l) && b < |l.home| && l.home[b].Leased?
    ensures var home := l.home[b]; home.p < |l.producers| && home.k in l.producers[home.p].entries && l.producers[home.p].entries[home.k] == b
  {
    assert L.Located(l, b, l.home[b]);
  }

  /** The slot of the index an accounted slot is for is that very slot. */
  lemma SlotOfAccounted<E>(s: State<E>, slot: (nat, nat))
    requires Sizes(s) && L.Homes(s.leases) && Accounted(s, slot)
    ensures var home := s.leases.home[slot.0];
            && s.leases.size > 0 && home.p < |s.subs| == |s.leases.producers|
            && HasSlot(s, home.p, First(home.k, s.leases.size) + slot.1)
            && SlotAt(s, home.p, First(home.k, s.leases.size) + slot.1) == slot
  {
    LeasedAt(s.leases, slot.0);
    var home := s.leases.home[slot.0];
    Joins(home.k, slot.1, s.leases.size);
    hide L.Homes, BlockNo, Offset, First, Filled;
  }

  /** A live slot that is not read stays accounted for. */
  lemma StaysAccounted<E>(s: State<E>, m: Move<E>, slot: (nat, nat))
    requires Fits(s) && Ready(s, m) && Fires(s, m) && Accounted(s, slot) && Sizes(Step(s, m))
    requires m.Read? ==> m.c < |s.reading| && s.leases.consumers[m.c].Reading? && slot != SlotRead(s, m.c)
    ensures Accounted(Step(s, m), slot)
  {
    hide *;
    Basics(s);
    AccountedParts(s, slot);
    var home := s.leases.home[slot.0];
    NotRead(s, m, slot);
    HomeStays(s, m, slot.0, slot.1);
    FilledChange(s, m, home.p, First(home.k, s.leases.size) + slot.1);
    StepParts(s, m);
    LeasesFrame(s, m);
    AccountedFrom(Step(s, m), slot, home);
  }

  lemma NotRead<E>(s: State<E>, m: Move<E>, slot: (nat, nat))
    requires Fits(s) && Ready(s, m) && Fires(s, m) && Accounted(s, slot)
    requires m.Read? ==> m.c < |s.reading| && s.leases.consumers[m.c].Reading? && slot != SlotRead(s, m.c)
    ensures var home := s.leases.home[slot.0]; s.leases.size > 0 && !ReadsIt(s, m, home.p, First(home.k, s.leases.size) + slot.1)
  {
    hide *;
    Basics(s);
    if m.Read? { ReadKnown(s, m); }
    AccountedParts(s, slot);
    SlotOfAccounted(s, slot);
    ReadsNothing(s, m, s.leases.home[slot.0].p, First(s.leases.home[slot.0].k, s.leases.size) + slot.1);
  }

  lemma AccountedParts<E>(s: State<E>, slot: (nat, nat))
    requires Sizes(s) && Accounted(s, slot)
    ensures slot.0 < |s.leases.home| && slot.1 < s.leases.size && s.leases.home[slot.0].Leased?
    ensures s.leases.home[slot.0].p < |s.subs| == |s.leases.producers|
    ensures Filled(s, s.leases.home[slot.0].p, First(s.leases.home[slot.0].k, s.leases.size) + slot.1)
  {
    hide Filled, First;
  }

  lemma AccountedFrom<E>(s: State<E>, slot: (nat, nat), home: L.Place)
    requires Sizes(s) && slot.1 < s.leases.size && slot.0 < |s.leases.home| && s.leases.home[slot.0] == home
    requires home.Leased?
    requires home.p < |s.subs| && Filled(s, home.p, First(home.k, s.leases.size) + slot.1)
    ensures Accounted(s, slot)
  {
    hide Filled, First;
  }

  lemma BuiltAccounted<E>(s: State<E>, m: Move<E>)
    requires Inv(s) && Ready(s, m) && Fires(s, m) && m.Build? && Sizes(Step(s, m))
    ensures m.p < |s.subs| == |s.leases.producers| && s.leases.size > 0 && HasSlot(s, m.p, NextBuilt(s, m.p))
    ensures Accounted(Step(s, m), SlotAt(s, m.p, NextBuilt(s, m.p)))
  {
    hide *;
    InvBasics(s);
    Basics(s);
    BuildLeases(s, m);
    var i := NextBuilt(s, m.p);
    CellParts(s, m);
    StepParts(s, m);
    FilledChange(s, m, m.p, i);
    SlotHome(s, m.p, i);
    AccountedFrom(Step(s, m), SlotAt(s, m.p, i), L.Leased(m.p, BlockNo(i, s.leases.size)));
  }

  lemma SlotHome<E>(s: State<E>, p: nat, i: nat)
    requires s.leases.size > 0 && L.Homes(s.leases) && HasSlot(s, p, i)
    ensures var slot, k := SlotAt(s, p, i), BlockNo(i, s.leases.size);
            && slot.0 < |s.leases.home| && s.leases.home[slot.0] == L.Leased(p, k)
            && slot.1 < s.leases.size && First(k, s.leases.size) + slot.1 == i
  {
    LeasedHome(s.leases, p, BlockNo(i, s.leases.size));
    Splits(i, s.leases.size);
    hide L.Homes, BlockNo, First, Offset;
  }

  lemma StepCells<E>(s: State<E>, m: Move<E>)
    requires Inv(s) && Ready(s, m) && Fires(s, m)
    ensures Sizes(Step(s, m)) && Cells(Step(s, m))
  {
    hide *;
    InvBasics(s);
    Basics(s);
    StepMachines(s, m);
    var s' := Step(s, m);
    SizesEqual(s');
    StepParts(s, m);
    CellParts(s, m);
    forall p, i: nat | 0 <= p < |s'.subs| && p < |s'.leases.producers| == |s'.subs| && Filled(s', p, i) ensures InPlace(s', p, i) {
      FilledChange(s, m, p, i);
      if Filled(s, p, i) && !ReadsIt(s, m, p, i) { StaysInPlace(s, m, p, i); } else { BuiltInPlace(s, m); }
    }
    forall slot | slot in s'.cells ensures Accounted(s', slot) {
      if slot in s.cells {
        AccountedOf(s, slot);
        StaysAccounted(s, m, slot);
      } else {
        BuiltAccounted(s, m);
      }
    }
    CellsFrom(s');
  }

  lemma AccountedOf<E>(s: State<E>, slot: (nat, nat))
    requires Sizes(s) && Cells(s) && slot in s.cells
    ensures Accounted(s, slot)
  {
    hide Accounted, Filled, InPlace;
  }

  lemma CellsFrom<E>(s: State<E>)
    requires Sizes(s) && s.leases.size > 0 && |s.subs| == |s.leases.producers|
    requires forall p, i: nat | 0 <= p < |s.subs| && p < |s.leases.producers| == |s.subs| && Filled(s, p, i) :: InPlace(s, p, i)
    requires forall slot | slot in s.cells :: Accounted(s, slot)
    ensures Cells(s)
  {
    hide Accounted, Filled, InPlace;
  }

  // ---------------------------------------------------------------- what has been read

  lemma RecordOf<E>(s: State<E>, p: nat, i: nat)
    requires Sizes(s) && Records(s) && p < |s.subs| == |s.leases.producers| && Gone(s, p, i)
    ensures (p, i) in s.seen && Recorded(s.subs[p], i, s.seen[(p, i)])
  {
    hide Gone, Recorded;
  }

  lemma GoneIfSeen<E>(s: State<E>, key: (nat, nat))
    requires Sizes(s) && Records(s) && key in s.seen
    ensures key.0 < |s.subs| == |s.leases.producers| && Gone(s, key.0, key.1)
  {
    hide Gone, Recorded;
  }

  lemma RecordsFrom<E>(s: State<E>)
    requires Sizes(s) && |s.subs| == |s.leases.producers|
    requires forall key | key in s.seen :: key.0 < |s.subs| == |s.leases.producers| && Gone(s, key.0, key.1)
    requires forall p, i: nat | 0 <= p < |s.subs| && p < |s.leases.producers| && Gone(s, p, i) ::
      (p, i) in s.seen && Recorded(s.subs[p], i, s.seen[(p, i)])
    ensures Records(s)
  {
    hide Gone, Recorded;
  }

  /** Takers and elements are only ever added. */
  lemma HistoryGrows<E>(s: State<E>, m: Move<E>, p: nat)
    requires Fits(s) && Ready(s, m) && Fires(s, m) && p < |s.subs|
    ensures p < |Step(s, m).subs| && s.subs[p].tickets.takers <= Step(s, m).subs[p].tickets.takers
    ensures s.subs[p].tickets.items <= Step(s, m).subs[p].tickets.items
  {
    hide *;
    Basics(s);
    Readiness(s, m);
    StepParts(s, m);
    TicketsChange(s, m);
    PartsHistory(s, m, Step(s, m), p);
  }

  lemma PartsHistory<E>(s: State<E>, m: Move<E>, s': State<E>, p: nat)
    requires Whose(s, m) < |s.subs| == |s'.subs| && p < |s.subs|
    requires s'.subs == s.subs[Whose(s, m) := s'.subs[Whose(s, m)]]
    requires TicketChange(s, m, s.subs[Whose(s, m)].tickets, s'.subs[Whose(s, m)].tickets)
    ensures s.subs[p].tickets.takers <= s'.subs[p].tickets.takers && s.subs[p].tickets.items <= s'.subs[p].tickets.items
  {
    hide Whose, GotOf, T.Repeat;
  }

  lemma RecordedStays<E>(a: Sub<E>, b: Sub<E>, i: nat, got: Got<E>)
    requires Recorded(a, i, got) && a.tickets.takers <= b.tickets.takers && a.tickets.items <= b.tickets.items
    ensures Recorded(b, i, got)
  {
  }

  /** Reading an index for the first time, and rightly. */
  lemma ReadRecorded<E>(s: State<E>, m: Move<E>)
    requires Inv(s) && Ready(s, m) && Fires(s, m) && m.Read?
    ensures Sizes(s) && ReadsNew(s, m)
  {
    hide *;
    InvBasics(s);
    Basics(s);
    ReadKnown(s, m);
    NextIsFilled(s, m.c);
    NextIsLive(s, m.c);
    ReadFacts(s, m);
  }

  lemma ReadFacts<E>(s: State<E>, m: Move<E>)
    requires Fits(s) && Records(s) && Ready(s, m) && Fires(s, m) && m.Read? && m.c < |s.reading|
    requires m.c < |s.leases.consumers|
    requires var x, i := s.leases.consumers[m.c], s.reading[m.c];
      && x.Reading? && x.p < |s.subs| == |s.leases.producers| && !Gone(s, x.p, i) && SlotRead(s, m.c) in s.cells
      && i < |s.subs[x.p].tickets.takers| && s.subs[x.p].tickets.takers[i] == m.c
      && i < |s.subs[x.p].tickets.items| && s.cells[SlotRead(s, m.c)] == s.subs[x.p].tickets.items[i]
    ensures ReadsNew(s, m)
  {
    hide *;
    Basics(s);
    ReadIsIt(s, m);
    var p, i := Whose(s, m), s.reading[m.c];
    if (p, i) in s.seen { GoneIfSeen(s, (p, i)); }
    RecordIs(s.subs[p], i, m.c, s.cells[SlotRead(s, m.c)]);
    NewRead(s, m);
  }

  lemma NewRead<E>(s: State<E>, m: Move<E>)
    requires m.Read? && Sizes(s) && m.c < |s.reading| && s.leases.consumers[m.c].Reading?
    requires Whose(s, m) == s.leases.consumers[m.c].p < |s.subs| && (Whose(s, m), s.reading[m.c]) !in s.seen
    requires SlotRead(s, m.c) in s.cells
    requires Recorded(s.subs[Whose(s, m)], s.reading[m.c], Got(m.c, s.cells[SlotRead(s, m.c)]))
    ensures ReadsNew(s, m)
  {
  }

  lemma RecordIs<E>(sub: Sub<E>, i: nat, c: nat, e: E)
    requires i < |sub.tickets.takers| && i < |sub.tickets.items| && sub.tickets.takers[i] == c
    requires sub.tickets.items[i] == e
    ensures Recorded(sub, i, Got(c, e))
  {
  }

  lemma SeenIsGone<E>(s: State<E>, m: Move<E>, key: (nat, nat))
    requires Fits(s) && Records(s) && Ready(s, m) && Fires(s, m) && key in Step(s, m).seen
    ensures var s' := Step(s, m); key.0 < |s'.subs| == |s'.leases.producers| && Gone(s', key.0, key.1)
  {
    hide *;
    Basics(s);
    StepParts(s, m);
    LeasesFrame(s, m);
    CellParts(s, m);
    if key in s.seen {
      GoneIfSeen(s, key);
    } else {
      WhoseJoined(s, Whose(s, m));
      ReadKey(s, m, key);
    }
    GoneChange(s, m, key.0, key.1);
  }

  lemma ReadKey<E>(s: State<E>, m: Move<E>, key: (nat, nat))
    requires Sizes(s) && Machines(s) && Fires(s, m) && key in Step(s, m).seen && key !in s.seen
    ensures key.0 < |s.subs| && ReadsIt(s, m, key.0, key.1)
  {
    StepParts(s, m);
    CellParts(s, m);
    hide Machines, Sizes, Fires, Step, SlotRead, HasSlot, SlotAt;
  }

  lemma GoneIsSeen<E>(s: State<E>, m: Move<E>, p: nat, i: nat)
    requires Fits(s) && Records(s) && Ready(s, m) && Fires(s, m) && (m.Read? ==> ReadsNew(s, m)) && p < |s.subs| == |s.leases.producers|
    requires p < |Step(s, m).subs| && p < |Step(s, m).leases.producers| && Gone(Step(s, m), p, i)
    ensures var s' := Step(s, m); (p, i) in s'.seen && Recorded(s'.subs[p], i, s'.seen[(p, i)])
  {
    hide *;
    Basics(s);
    StepParts(s, m);
    CellParts(s, m);
    GoneChange(s, m, p, i);
    HistoryGrows(s, m, p);
    ReadsNothing(s, m, p, i);
    if Gone(s, p, i) {
      RecordOf(s, p, i);
      StillSeen(s, m, (p, i));
    } else {
      NowSeen(s, m, p, i);
    }
    RecordedStays(s.subs[p], Step(s, m).subs[p], i, Step(s, m).seen[(p, i)]);
  }

  /** What a read adds to the record is new and right. */
  ghost predicate ReadsNew<E>(s: State<E>, m: Move<E>)
    requires m.Read? && Sizes(s)
  {
    && m.c < |s.reading| && s.leases.consumers[m.c].Reading? && Whose(s, m) == s.leases.consumers[m.c].p < |s.subs|
    && (Whose(s, m), s.reading[m.c]) !in s.seen && SlotRead(s, m.c) in s.cells
    && Recorded(s.subs[Whose(s, m)], s.reading[m.c], Got(m.c, s.cells[SlotRead(s, m.c)]))
  }

  lemma StillSeen<E>(s: State<E>, m: Move<E>, key: (nat, nat))
    requires Sizes(s) && Machines(s) && Fires(s, m) && (m.Read? ==> ReadsNew(s, m)) && key in s.seen
    ensures key in Step(s, m).seen && Step(s, m).seen[key] == s.seen[key]
  {
    hide *;
    StepParts(s, m);
    CellParts(s, m);
    if m.Read? { OtherKey(s, m, key); }
  }

  lemma OtherKey<E>(s: State<E>, m: Move<E>, key: (nat, nat))
    requires Sizes(s) && m.Read? && ReadsNew(s, m) && key in s.seen
    ensures m.c < |s.reading| && s.leases.consumers[m.c].Reading? && key != (s.leases.consumers[m.c].p, s.reading[m.c])
  {
    hide Recorded, SlotRead;
  }

  lemma NowSeen<E>(s: State<E>, m: Move<E>, p: nat, i: nat)
    requires Sizes(s) && Machines(s) && Fires(s, m) && (m.Read? ==> ReadsNew(s, m)) && ReadsIt(s, m, p, i)
    ensures p < |s.subs| && (p, i) in Step(s, m).seen && Recorded(s.subs[p], i, Step(s, m).seen[(p, i)])
  {
    CellParts(s, m);
    hide Machines, Sizes, Fires, Step, Recorded, SlotRead, HasSlot, SlotAt;
  }

  lemma StepRecords<E>(s: State<E>, m: Move<E>)
    requires Inv(s) && Ready(s, m) && Fires(s, m)
    ensures Sizes(Step(s, m)) && Records(Step(s, m))
  {
    hide *;
    InvBasics(s);
    Basics(s);
    StepMachines(s, m);
    var s' := Step(s, m);
    SizesEqual(s');
    if m.Read? { ReadRecorded(s, m); }
    StepParts(s, m);
    forall key | key in s'.seen ensures key.0 < |s'.subs| == |s'.leases.producers| && Gone(s', key.0, key.1) {
      SeenIsGone(s, m, key);
    }
    forall p, i: nat | 0 <= p < |s'.subs| && p < |s'.leases.producers| && Gone(s', p, i)
      ensures (p, i) in s'.seen && Recorded(s'.subs[p], i, s'.seen[(p, i)])
    {
      GoneIsSeen(s, m, p, i);
    }
    RecordsFrom(s');
  }

  lemma StepKeepsInv<E>(s: State<E>, m: Move<E>)
    requires Inv(s) && Ready(s, m) && Fires(s, m)
    ensures Inv(Step(s, m))
  {
    StepFits(s, m);
    StepCells(s, m);
    StepRecords(s, m);
    hide Fits, Cells, Records, Ready, Fires, Step;
  }
}
