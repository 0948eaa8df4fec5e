/** What a concurrent queue promises over whole runs of any number of producers and consumers. */
module SharedQueueRuns {
  import opened BlockIndex
  import opened PowersOfTwo
  import opened SharedQueue
  import opened SharedQueueProof
  import opened SharedQueueSteps
  import opened SharedQueueReads
  import opened Slots
  import T = DequeueTickets
  import TP = DequeueTicketsProof
  import L = BlockLeases
  import LP = BlockLeasesProof
  import X = BlockLookup
  import XP = BlockLookupProof

  /** Any interleaving: a move that no thread is ready for is skipped. */
  ghost function Exec<E>(s: State<E>, moves: seq<Move<E>>): State<E>
    requires Inv(s)
    decreases |moves|
  {
    if moves == [] then s
    else if Ready(s, moves[0]) then
      AlwaysFires(s, moves[0]);
      StepKeepsInv(s, moves[0]);
      Exec(Step(s, moves[0]), moves[1..])
    else Exec(s, moves[1..])
  }

  lemma {:induction false} RunsKeepInv<E>(s: State<E>, moves: seq<Move<E>>)
    requires Inv(s)
    ensures Inv(Exec(s, moves))
    decreases |moves|
  {
    assert Sizes(s) && Machines(s);
    hide Inv, Fits, Sizes, Machines, Ready, Step, Fires;
    if moves != [] {
      if Ready(s, moves[0]) {
        AlwaysFires(s, moves[0]);
        StepKeepsInv(s, moves[0]);
        RunsKeepInv(Step(s, moves[0]), moves[1..]);
      } else {
        RunsKeepInv(s, moves[1..]);
      }
    }
  }

  // ---------------------------------------------------------------- a new queue

  function NewSub<E>(width: Width, bits: nat, consumers: nat): Sub<E> {
    Sub(TP.Start(consumers), X.Start(width, bits, consumers), seq(Pow2(bits), _ => 0), [])
  }

  /** A queue with `poolSize` blocks made beforehand. */
  function Start<E>(width: Width, bits: nat, poolSize: nat, producers: nat, consumers: nat): State<E> {
    State(L.Start(width.blockSize, poolSize, producers, consumers), seq(producers, _ => NewSub(width, bits, consumers)),
          map[], seq(consumers, _ => 0), map[])
  }

  lemma NewSubFits<E>(width: Width, bits: nat, consumers: nat)
    requires width.Valid() && bits <= width.blocksBits
    ensures var sub := NewSub<E>(width, bits, consumers);
            && SubSizes(sub, width.blockSize, consumers) && T.Inv(sub.tickets) && X.Inv(sub.index) && X.Shape(sub.index)
            && Joined(L.Producer(0, 0, 0, map[], {}, {}), sub, width.blockSize)
            && Stored(map[], sub.index, sub.values)
            && (forall c | 0 <= c < consumers :: sub.tickets.threads[c].Idle? && sub.index.readers[c].Idle?)
            && sub.tickets.takers == [] && sub.building == [] && sub.tickets.items == []
  {
    var sub := NewSub<E>(width, bits, consumers);
    TP.StartInv(sub.tickets, consumers);
    XP.StartInv(width, bits, consumers);
    FirstZero(width.blockSize);
    hide T.Inv, X.Distinct, X.Keyed, X.Filled, X.ProducerOk, X.ReaderOk, X.HeaderOk, Pow2, First;
  }

  lemma StartFits<E>(width: Width, bits: nat, poolSize: nat, producers: nat, consumers: nat)
    requires width.Valid() && bits <= width.blocksBits
    ensures Fits(Start<E>(width, bits, poolSize, producers, consumers))
  {
    var s := Start<E>(width, bits, poolSize, producers, consumers);
    NewSubFits<E>(width, bits, consumers);
    LP.StartInv(width.blockSize, poolSize, producers, consumers);
    assert forall p | 0 <= p < |s.subs| :: s.subs[p] == NewSub<E>(width, bits, consumers);
    assert forall p | 0 <= p < producers :: s.leases.producers[p] == L.Producer(0, 0, 0, map[], {}, {});
    assert forall c | 0 <= c < consumers :: s.leases.consumers[c].Idle?;
    hide NewSub, T.Inv, X.Inv, X.Shape, Joined, Stored, L.Homes, L.Disjoint, L.NoLeak, L.ProducerOk, L.ConsumerOk;
    assert Wants(T.Idle);
    hide Wants;
  }

  lemma StartInv<E>(width: Width, bits: nat, poolSize: nat, producers: nat, consumers: nat)
    requires width.Valid() && bits <= width.blocksBits
    ensures Inv(Start<E>(width, bits, poolSize, producers, consumers))
  {
    StartFits<E>(width, bits, poolSize, producers, consumers);
    NewSubFits<E>(width, bits, consumers);
    var s := Start<E>(width, bits, poolSize, producers, consumers);
    assert Sizes(s);
    assert forall p | 0 <= p < |s.subs| :: s.subs[p] == NewSub<E>(width, bits, consumers);
    assert forall p | 0 <= p < producers :: s.leases.producers[p] == L.Producer(0, 0, 0, map[], {}, {});
    hide Fits, Sizes, NewSub, T.Inv, X.Inv, X.Shape, Joined, Stored;
    forall p, i: nat | 0 <= p < |s.subs| ensures p < |s.leases.producers| == |s.subs| && !Filled(s, p, i) && !Gone(s, p, i) {
    }
  }

  ghost function Run<E>(width: Width, bits: nat, poolSize: nat, producers: nat, consumers: nat, moves: seq<Move<E>>): State<E>
    requires width.Valid() && bits <= width.blocksBits
  {
    StartInv<E>(width, bits, poolSize, producers, consumers);
    Exec(Start(width, bits, poolSize, producers, consumers), moves)
  }

  lemma RunInv<E>(width: Width, bits: nat, poolSize: nat, producers: nat, consumers: nat, moves: seq<Move<E>>)
    requires width.Valid() && bits <= width.blocksBits
    ensures Inv(Run(width, bits, poolSize, producers, consumers, moves))
  {
    StartInv<E>(width, bits, poolSize, producers, consumers);
    RunsKeepInv(Start<E>(width, bits, poolSize, producers, consumers), moves);
    hide Inv, Start;
  }

  // ---------------------------------------------------------------- main results

  /** Whatever was read at index `i` of a producer is what that producer put in there, and it was read by the consumer
      that advanced the head over that index. */
  lemma EveryReadIsRight<E>(width: Width, bits: nat, poolSize: nat, producers: nat, consumers: nat, moves: seq<Move<E>>, p: nat, i: nat)
    requires width.Valid() && bits <= width.blocksBits
    requires (p, i) in Run(width, bits, poolSize, producers, consumers, moves).seen
    ensures var s := Run(width, bits, poolSize, producers, consumers, moves);
            && p < |s.subs|
            && var t := s.subs[p].tickets;
               && i < t.head == |t.takers| && t.head <= |t.items|
               && s.seen[(p, i)] == Got(t.takers[i], t.items[i])
  {
    RunInv(width, bits, poolSize, producers, consumers, moves);
    var s := Run(width, bits, poolSize, producers, consumers, moves);
    SeenIsRight(s, p, i);
    hide Run;
  }

  lemma SeenIsRight<E>(s: State<E>, p: nat, i: nat)
    requires Inv(s) && (p, i) in s.seen
    ensures p < |s.subs|
    ensures var t := s.subs[p].tickets;
            i < t.head == |t.takers| && t.head <= |t.items| && s.seen[(p, i)] == Got(t.takers[i], t.items[i])
  {
    assert Fits(s) && Sizes(s) && Records(s);
    hide Fits, Sizes, Cells;
    GoneIfSeen(s, (p, i));
    RecordOf(s, p, i);
    GoneBelow(s, p, i);
    HeadIsTaken(s, p);
    hide Gone, Records;
  }

  /** Once no consumer is in a call every index below the head has been read. */
  lemma NothingUnread<E>(width: Width, bits: nat, poolSize: nat, producers: nat, consumers: nat, moves: seq<Move<E>>, p: nat, i: nat)
    requires width.Valid() && bits <= width.blocksBits
    requires var s := Run(width, bits, poolSize, producers, consumers, moves);
      p < |s.subs| && i < s.subs[p].tickets.head && forall c | 0 <= c < |s.leases.consumers| :: s.leases.consumers[c].Idle?
    ensures (p, i) in Run(width, bits, poolSize, producers, consumers, moves).seen
  {
    RunInv(width, bits, poolSize, producers, consumers, moves);
    var s := Run(width, bits, poolSize, producers, consumers, moves);
    TakenAreSeen(s, p, i);
    hide Run;
  }

  lemma TakenAreSeen<E>(s: State<E>, p: nat, i: nat)
    requires Inv(s) && p < |s.subs| && i < s.subs[p].tickets.head
    requires forall c | 0 <= c < |s.leases.consumers| :: s.leases.consumers[c].Idle?
    ensures (p, i) in s.seen
  {
    assert Fits(s) && Sizes(s) && Records(s) && |s.subs| == |s.leases.producers|;
    assert NoneDropped(s, p);
    HeadIsTaken(s, p);
    hide Inv, Fits, Sizes, Cells, Records;
    RecordOf(s, p, i);
  }

  /** And what is recorded as read is never read again, or forgotten. */
  lemma {:induction false} ReadsStay<E>(s: State<E>, moves: seq<Move<E>>, key: (nat, nat))
    requires Inv(s) && key in s.seen
    ensures key in Exec(s, moves).seen && Exec(s, moves).seen[key] == s.seen[key]
    decreases |moves|
  {
    assert Sizes(s) && Machines(s);
    if moves != [] {
      var m := moves[0];
      if Ready(s, m) {
        AlwaysFires(s, m);
        if m.Read? { ReadRecorded(s, m); }
        hide Inv, Fits, Sizes, Machines, Ready, Step, Fires, ReadsNew;
        StepKeepsInv(s, m);
        StillSeen(s, m, key);
        ReadsStay(Step(s, m), moves[1..], key);
      } else {
        hide Inv, Fits, Sizes, Machines, Ready, Step, Fires, ReadsNew;
        ReadsStay(s, moves[1..], key);
      }
    }
    hide Inv, Fits, Sizes, Machines, Ready, Step, Fires, ReadsNew;
  }

  /** A consumer in the middle of a call is never stuck: it can take its next step whatever the others have done. */
  lemma NeverStuck<E>(s: State<E>, c: nat) returns (m: Move<E>)
    requires Inv(s) && c < |s.reading| && !AtRest(s, c)
    ensures Sizes(s) && Machines(s) && Ready(s, m) && Who(m) == c
  {
    hide *;
    InvBasics(s);
    Basics(s);
    if s.leases.consumers[c].Idle? {
      m := DrawsOn(s, c);
    } else {
      Busy(s, c);
      m := GoesOn(s, c);
    }
  }

  lemma DrawsOn<E>(s: State<E>, c: nat) returns (m: Move<E>)
    requires Sizes(s) && Machines(s) && c < |s.reading| == |s.leases.consumers| && s.leases.consumers[c].Idle?
    requires !AtRest(s, c)
    ensures Ready(s, m) && Who(m) == c
  {
    hide L.Shape, Machines;
    var p :| 0 <= p < |s.subs| && c < |s.subs[p].tickets.threads| && !s.subs[p].tickets.threads[c].Idle?;
    m := if s.subs[p].tickets.threads[c].Claim? then Move.Claim(c, p) else Move.Count(c, p);
  }

  lemma GoesOn<E>(s: State<E>, c: nat) returns (m: Move<E>)
    requires Sizes(s) && Machines(s) && c < |s.reading| == |s.leases.consumers| && !s.leases.consumers[c].Idle?
    requires var x, size := s.leases.consumers[c], s.leases.size;
      && size > 0 && x.p < |s.subs| && c < |s.subs[x.p].index.readers| && L.ConsumerFits(x, s.leases.producers[x.p], size)
      && ReaderFits(x, x.p, s.subs[x.p].index.readers[c], size) && ReadingFits(x, s.reading[c], size)
    ensures Ready(s, m) && Who(m) == c
  {
    var x := s.leases.consumers[c];
    hide *;
    match x
    case Working(_, _, _) => Looking(s, c); m := LooksOn(s, c);
    case Reading(_, _, _, _, _) => m := ReadsOn(s, c);
    case Clearing(_, _, _, _, _) => m := GivesBack(s, c);
    case Returning(_, _, _, _) => m := GivesBack(s, c);
  }

  lemma Looking<E>(s: State<E>, c: nat)
    requires s.leases.size > 0 && c < |s.leases.consumers| && s.leases.consumers[c].Working?
    requires var x, size := s.leases.consumers[c], s.leases.size;
      && x.p < |s.subs| && c < |s.subs[x.p].index.readers| && x.p < |s.leases.producers|
      && L.ConsumerFits(x, s.leases.producers[x.p], size) && ReaderFits(x, x.p, s.subs[x.p].index.readers[c], size)
    ensures LooksUp(s, c) && !ReaderOf(s, c).Idle?
  {
    hide BlockNo, First, L.Emptied;
  }

  lemma LooksOn<E>(s: State<E>, c: nat) returns (m: Move<E>)
    requires Sizes(s) && Machines(s) && LooksUp(s, c) && !ReaderOf(s, c).Idle?
    ensures Ready(s, m) && Who(m) == c
  {
    hide Sizes, Machines, LooksUp, ReaderOf;
    m := match ReaderOf(s, c)
         case Claimed(_, _) => Move.LoadHeader(c)
         case HasHeader(_, _, _, _) => Move.LoadTail(c)
         case HasTail(_, _, _, _, _) => Move.LoadKey(c)
         case Found(_, _, _, _, _) => Move.LookUp(c);
  }

  lemma ReadsOn<E>(s: State<E>, c: nat) returns (m: Move<E>)
    requires Sizes(s) && Machines(s) && c < |s.reading| == |s.leases.consumers| && s.leases.consumers[c].Reading?
    requires s.leases.size > 0 && ReadingFits(s.leases.consumers[c], s.reading[c], s.leases.size)
    ensures Ready(s, m) && Who(m) == c
  {
    hide Sizes, Machines, BlockNo, First;
    m := if s.reading[c] < s.leases.consumers[c].end then Move.Read(c) else Move.Complete(c);
  }

  lemma GivesBack<E>(s: State<E>, c: nat) returns (m: Move<E>)
    requires Sizes(s) && Machines(s) && c < |s.reading| == |s.leases.consumers|
    requires s.leases.consumers[c].Clearing? || s.leases.consumers[c].Returning?
    ensures Ready(s, m) && Who(m) == c
  {
    hide Sizes, Machines;
    m := if s.leases.consumers[c].Clearing? then Move.Clear(c) else Move.AddFree(c);
  }
}
