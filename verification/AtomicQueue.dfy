/** AtomicQueue's end-of-stream protocol over a bounded FIFO, one producer and one consumer.
    A poll of the inner queue is one step, taken where that poll takes effect. */
module AtomicQueue {

  datatype Producer<T> =
    | Ready
    | Trying(e: T)        // enqueue: about to poll
    | MarkFull(e: T)      // poll failed: about to set m_full
    | MarkNotFull         // poll succeeded: about to clear m_full

  datatype Outcome<T> = NoneYet | Element(e: T) | QueueEnd

  /** `taking` tells dequeue from peek. */
  datatype Consumer<T> =
    | Resting(outcome: Outcome<T>)
    | Polling(taking: bool)
    | LoadEnd(taking: bool)       // poll failed; end(): load m_atEnd
    | LoadEmpty(taking: bool)     // m_atEnd was set: load m_empty
    | MarkEmpty(taking: bool)     // not at the end: about to set m_empty
    | MarkNotEmpty(e: T)          // poll succeeded: about to clear m_empty

  /** Auxiliary: `enq` and `deq` are all that went in and out; `atLastMiss` is how many had gone in
      when the last poll failed; `missesSinceEnd` counts the failed polls of the current call made
      after setQueueEnd; `missesThisCall` counts all of them. */
  datatype State<T> = State(
    capacity: nat, atEnd: bool, full: bool, empty: bool, prod: Producer<T>, cons: Consumer<T>,
    enq: seq<T>, deq: seq<T>, atLastMiss: nat, endedBeforeMiss: bool,
    missesSinceEnd: nat, missesThisCall: nat, startedEmpty: bool)

  datatype Move<T> = Put(e: T) | SetQueueEnd | ProducerMove | Dequeue | Peek | ConsumerMove

  /** The queue's content is what went in and has not come out. */
  function Held<T>(s: State<T>): seq<T>
    requires |s.deq| <= |s.enq|
  {
    s.enq[|s.deq|..]
  }

  /** Nothing is put in after setQueueEnd. */
  predicate Enabled<T>(s: State<T>, m: Move<T>) {
    match m
    case Put(_) => s.prod.Ready? && !s.atEnd
    case SetQueueEnd => s.prod.Ready?
    case ProducerMove => !s.prod.Ready?
    case Dequeue => s.cons.Resting? && !s.cons.outcome.QueueEnd?
    case Peek => s.cons.Resting? && !s.cons.outcome.QueueEnd?
    case ConsumerMove => !s.cons.Resting?
  }

  function Step<T>(s: State<T>, m: Move<T>): State<T>
    requires Enabled(s, m) && |s.deq| <= |s.enq|
  {
    match m
    case Put(e) => s.(prod := Trying(e))
    case SetQueueEnd => s.(atEnd := true)
    case ProducerMove => (
      match s.prod
      case Trying(e) =>
        if |Held(s)| < s.capacity then s.(enq := s.enq + [e], prod := MarkNotFull)
        else s.(prod := MarkFull(e))
      case MarkFull(e) => s.(full := true, prod := Trying(e))
      case MarkNotFull => s.(full := false, prod := Ready))
    case Dequeue => s.(cons := Polling(true), missesSinceEnd := 0, missesThisCall := 0, startedEmpty := s.empty)
    case Peek => s.(cons := Polling(false), missesSinceEnd := 0, missesThisCall := 0, startedEmpty := s.empty)
    case ConsumerMove => (
      match s.cons
      case Polling(taking) =>
        if Held(s) == [] then
          s.(cons := LoadEnd(taking), atLastMiss := |s.enq|, endedBeforeMiss := s.atEnd,
             missesSinceEnd := s.missesSinceEnd + (if s.atEnd then 1 else 0),
             missesThisCall := s.missesThisCall + 1)
        else
          var e := Held(s)[0];
          s.(cons := MarkNotEmpty(e), deq := if taking then s.deq + [e] else s.deq)
      case LoadEnd(taking) => s.(cons := if s.atEnd then LoadEmpty(taking) else MarkEmpty(taking))
      case LoadEmpty(taking) => s.(cons := if s.empty then Resting(QueueEnd) else MarkEmpty(taking))
      case MarkEmpty(taking) => s.(empty := true, cons := Polling(taking))
      case MarkNotEmpty(e) => s.(empty := false, cons := Resting(Element(e))))
  }

  /** m_empty is not initialised: it starts out as anything. */
  function Start<T>(capacity: nat, empty: bool): State<T> {
    State(capacity, false, false, empty, Ready, Resting(NoneYet), [], [], 0, false, 0, 0, false)
  }

  predicate PastMiss<T>(c: Consumer<T>) {
    c.LoadEnd? || c.LoadEmpty? || c.MarkEmpty? || (c.Resting? && c.outcome.QueueEnd?)
  }

  /** What the failed poll of the current call saw is all that has been delivered. */
  ghost predicate Delivery<T>(s: State<T>) {
    && s.deq <= s.enq
    && (s.atEnd ==> s.prod.Ready?)
    && (PastMiss(s.cons) ==> |s.deq| == s.atLastMiss)
    && (PastMiss(s.cons) && s.endedBeforeMiss ==> s.atEnd && |s.enq| == s.atLastMiss)
    && (s.cons.LoadEmpty? ==> s.atEnd)
    && (s.cons.Resting? && s.cons.outcome.QueueEnd? ==> s.atEnd)
  }

  predicate InLoop<T>(c: Consumer<T>) { c.LoadEnd? || c.LoadEmpty? }

  predicate Ended<T>(c: Consumer<T>) { c.Resting? && c.outcome.QueueEnd? }

  /** A failed poll that saw the end flag leaves m_empty set, so that one more is the last. */
  ghost predicate Misses<T>(s: State<T>) {
    && (s.cons.Polling? || s.cons.MarkEmpty? ==> s.missesSinceEnd <= 1)
    && (InLoop(s.cons) || Ended(s.cons) ==> s.missesSinceEnd <= 2)
    && (s.cons.Polling? && s.missesThisCall > 0 ==> s.empty)
    && (InLoop(s.cons) && s.missesThisCall > 1 ==> s.empty)
    && (InLoop(s.cons) || s.cons.MarkEmpty? ==> s.missesThisCall >= 1)
    && s.missesSinceEnd <= s.missesThisCall
    && (s.missesSinceEnd > 0 && !s.cons.Resting? ==> s.atEnd)
    && (s.cons.Polling? && s.empty ==> s.missesThisCall >= 1 || s.startedEmpty)
    && (InLoop(s.cons) && s.empty ==> s.missesThisCall >= 2 || s.startedEmpty)
    && (Ended(s.cons) ==> s.missesThisCall >= 2 || s.startedEmpty)
  }

  ghost predicate Inv<T>(s: State<T>) { Delivery(s) && Misses(s) }

  lemma ProducerDelivers<T>(s: State<T>)
    requires Delivery(s) && !s.prod.Ready?
    ensures Delivery(Step(s, ProducerMove))
  {
  }

  lemma PollDelivers<T>(s: State<T>)
    requires Delivery(s) && s.cons.Polling?
    ensures Delivery(Step(s, ConsumerMove))
  {
    if |s.deq| < |s.enq| { PrefixGrows(s.deq, s.enq); }
    hide Misses;
  }

  lemma PrefixGrows<T>(a: seq<T>, b: seq<T>)
    requires a <= b && |a| < |b|
    ensures a + [b[|a|..][0]] <= b && b[|a|..] != []
  {
    assert b[|a|..][0] == b[|a|];
  }

  lemma StepDelivers<T>(s: State<T>, m: Move<T>)
    requires Delivery(s) && Enabled(s, m)
    ensures Delivery(Step(s, m))
  {
    match m
    case ProducerMove => ProducerDelivers(s);
    case ConsumerMove => if s.cons.Polling? { PollDelivers(s); }
    case _ =>
  }

  lemma ConsumerMisses<T>(s: State<T>)
    requires Delivery(s) && Misses(s) && !s.cons.Resting?
    ensures Misses(Step(s, ConsumerMove))
  {
    hide Delivery;
    if s.cons.Polling? { PollMisses(s); }
  }

  lemma PollMisses<T>(s: State<T>)
    requires Delivery(s) && Misses(s) && s.cons.Polling?
    ensures Misses(Step(s, ConsumerMove))
  {
    hide Delivery;
  }

  lemma StepMisses<T>(s: State<T>, m: Move<T>)
    requires Delivery(s) && Misses(s) && Enabled(s, m)
    ensures Misses(Step(s, m))
  {
    if m.ConsumerMove? { ConsumerMisses(s); }
  }

  function Exec<T>(s: State<T>, moves: seq<Move<T>>): (r: State<T>)
    requires s.deq <= s.enq
    ensures r.deq <= r.enq
    decreases |moves|
  {
    if moves == [] then s
    else if Enabled(s, moves[0]) then
      StepPrefix(s, moves[0]);
      Exec(Step(s, moves[0]), moves[1..])
    else Exec(s, moves[1..])
  }

  lemma StepPrefix<T>(s: State<T>, m: Move<T>)
    requires s.deq <= s.enq && Enabled(s, m)
    ensures Step(s, m).deq <= Step(s, m).enq
  {
    if m.ConsumerMove? { PollPrefix(s); }
  }

  lemma PollPrefix<T>(s: State<T>)
    requires s.deq <= s.enq && Enabled(s, ConsumerMove)
    ensures Step(s, ConsumerMove).deq <= Step(s, ConsumerMove).enq
  {
    if s.cons.Polling? && |s.deq| < |s.enq| { PrefixGrows(s.deq, s.enq); }
  }

  /** The invariant holds over every run. */
  lemma {:induction false} RunsKeepInv<T>(s: State<T>, moves: seq<Move<T>>)
    requires Inv(s)
    ensures Inv(Exec(s, moves))
    decreases |moves|
  {
    hide Misses;
    if moves != [] {
      if Enabled(s, moves[0]) {
        StepDelivers(s, moves[0]);
        StepMisses(s, moves[0]);
        RunsKeepInv(Step(s, moves[0]), moves[1..]);
      } else {
        RunsKeepInv(s, moves[1..]);
      }
    }
  }

  /** Delivered elements are always an in-order prefix of those enqueued. When the end is reported,
      setQueueEnd has happened, what is undelivered is exactly what went in after the last failed
      poll, and so nothing is if setQueueEnd came before that poll. */
  lemma EndOfStream<T>(capacity: nat, empty: bool, moves: seq<Move<T>>)
    ensures var s := Exec(Start(capacity, empty), moves);
            && s.deq <= s.enq
            && (Ended(s.cons) ==>
                  && s.atEnd
                  && s.atLastMiss <= |s.enq| && s.deq == s.enq[..s.atLastMiss] && Held(s) == s.enq[s.atLastMiss..]
                  && (s.endedBeforeMiss ==> s.deq == s.enq)
                  && (s.missesThisCall >= 2 || s.startedEmpty))
  {
    RunsKeepInv(Start(capacity, empty), moves);
  }

  /** The second failed poll after setQueueEnd is the last: a call never goes on to a further poll
      with two of them behind it. */
  lemma EndIsReportedInTime<T>(capacity: nat, empty: bool, moves: seq<Move<T>>)
    ensures var s := Exec(Start(capacity, empty), moves);
            && (s.cons.Polling? ==> s.missesSinceEnd <= 1)
            && (s.cons.LoadEnd? && s.missesSinceEnd == 2 ==>
                  Ended(Step(Step(s, ConsumerMove), ConsumerMove).cons))
  {
    RunsKeepInv(Start(capacity, empty), moves);
  }

  lemma ExecFirst<T>(s: State<T>, m: Move<T>, rest: seq<Move<T>>)
    requires Inv(s) && Enabled(s, m)
    ensures Inv(Step(s, m)) && Exec(s, [m] + rest) == Exec(Step(s, m), rest)
  {
    StepDelivers(s, m);
    StepMisses(s, m);
    assert ([m] + rest)[1..] == rest;
  }

  // ---------------------------------------------------------------- when an element can be left behind

  predicate Calls<T>(m: Move<T>) { m.Dequeue? || m.Peek? }

  function CallOf<T>(taking: bool): Move<T> { if taking then Dequeue else Peek }

  /** With the consumer's next call and then `moves`, that very call reports the end over an element. */
  predicate Loses<T>(s: State<T>, taking: bool, moves: seq<Move<T>>)
    requires Inv(s)
  {
    && (forall i | 0 <= i < |moves| :: !Calls(moves[i]))
    && var r := Exec(s, [CallOf(taking)] + moves); Ended(r.cons) && Held(r) != []
  }

  /** The consumer can call; the producer is anywhere. */
  predicate CanCall<T>(s: State<T>) {
    s.cons.Resting? && !Ended(s.cons) && s.capacity >= 1
  }

  /** Once setQueueEnd has been called, every failed poll comes after it. */
  predicate EndFirst<T>(s: State<T>) { s.atEnd && (PastMiss(s.cons) ==> s.endedBeforeMiss) }

  lemma EndFirstStep<T>(s: State<T>, m: Move<T>)
    requires |s.deq| <= |s.enq| && Enabled(s, m) && EndFirst(s)
    ensures EndFirst(Step(s, m))
  {
  }

  lemma {:induction false} EndFirstStays<T>(s: State<T>, moves: seq<Move<T>>)
    requires Inv(s) && EndFirst(s)
    ensures EndFirst(Exec(s, moves))
    decreases |moves|
  {
    if moves != [] {
      if Enabled(s, moves[0]) {
        ExecFirst(s, moves[0], moves[1..]);
        assert moves == [moves[0]] + moves[1..];
        EndFirstStep(s, moves[0]);
        hide Misses, Step, EndFirst;
        EndFirstStays(Step(s, moves[0]), moves[1..]);
      } else {
        EndFirstStays(s, moves[1..]);
      }
    }
  }

  /** The call is about to find an element, or has found one. */
  predicate WillFind<T>(s: State<T>)
    requires |s.deq| <= |s.enq|
  {
    || (s.cons.Polling? && Held(s) != [])
    || s.cons.MarkNotEmpty?
    || (s.cons.Resting? && s.cons.outcome.Element?)
  }

  lemma FindStep<T>(s: State<T>, m: Move<T>)
    requires s.deq <= s.enq && Enabled(s, m) && !Calls(m) && WillFind(s)
    ensures |Step(s, m).deq| <= |Step(s, m).enq| && WillFind(Step(s, m))
  {
    match m
    case ProducerMove =>
      if s.cons.Polling? { assert |Step(s, m).deq| == |s.deq| < |s.enq| <= |Step(s, m).enq|; }
    case ConsumerMove => StepPrefix(s, m);
    case _ =>
  }

  lemma {:induction false} FindsStays<T>(s: State<T>, moves: seq<Move<T>>)
    requires Inv(s) && WillFind(s) && forall i | 0 <= i < |moves| :: !Calls(moves[i])
    ensures WillFind(Exec(s, moves))
    decreases |moves|
  {
    if moves != [] {
      if Enabled(s, moves[0]) {
        ExecFirst(s, moves[0], moves[1..]);
        assert moves == [moves[0]] + moves[1..];
        FindStep(s, moves[0]);
        hide Misses, Step, WillFind;
        FindsStays(Step(s, moves[0]), moves[1..]);
      } else {
        FindsStays(s, moves[1..]);
      }
    }
  }

  /** What makes it safe to rely on the end. */
  lemma Safe<T>(s: State<T>, taking: bool, moves: seq<Move<T>>)
    requires Inv(s) && CanCall(s) && (s.atEnd || Held(s) != [])
    ensures !Loses(s, taking, moves)
  {
    var call := CallOf<T>(taking);
    ExecFirst(s, call, moves);
    var s1 := Step(s, call);
    if s.atEnd {
      RunsKeepInv(s1, moves);
      EndFirstStays(s1, moves);
    } else if forall i | 0 <= i < |moves| :: !Calls(moves[i]) {
      FindsStays(s1, moves);
    }
  }

  /** What the producer does to get an element in: the one it is busy with, or else `e`. */
  function Finishing<T>(p: Producer<T>, e: T): seq<Move<T>> {
    match p
    case Ready => [Put(e), ProducerMove, ProducerMove]
    case Trying(_) => [ProducerMove, ProducerMove]
    case MarkFull(_) => [ProducerMove, ProducerMove, ProducerMove]
    case MarkNotFull => [ProducerMove, Put(e), ProducerMove, ProducerMove]
  }

  function Last<T>(p: Producer<T>, e: T): T {
    if p.Trying? || p.MarkFull? then p.e else e
  }

  /** The moves that lose an element: two polls fail, then the producer puts it in and sets the end. */
  function Unlucky<T>(p: Producer<T>, e: T): seq<Move<T>> {
    [ConsumerMove, ConsumerMove, ConsumerMove, ConsumerMove] + (Finishing(p, e) + [SetQueueEnd, ConsumerMove, ConsumerMove])
  }

  /** Whatever m_empty held and wherever the producer is, an empty queue whose end has not been set can lose the
      next element. */
  lemma Unsafe<T>(s: State<T>, taking: bool, e: T)
    requires Inv(s) && CanCall(s) && !s.atEnd && Held(s) == []
    ensures Loses(s, taking, Unlucky(s.prod, e))
    ensures Held(Exec(s, [CallOf(taking)] + Unlucky(s.prod, e))) == [Last(s.prod, e)]
  {
    var call := CallOf<T>(taking);
    var s1 := Step(s, call);
    ExecFirst(s, call, Unlucky(s.prod, e));
    TwoMisses(s1, Finishing(s.prod, e) + [SetQueueEnd, ConsumerMove, ConsumerMove]);
    LastMissHides(AfterTwoMisses(s1), e);
  }

  /** Two failed polls with no end set in between leave m_empty set. */
  function AfterTwoMisses<T>(s: State<T>): State<T>
    requires s.cons.Polling?
  {
    s.(cons := LoadEnd(s.cons.taking), empty := true, atLastMiss := |s.enq|, endedBeforeMiss := false,
       missesThisCall := s.missesThisCall + 2)
  }

  lemma TwoMisses<T>(s: State<T>, rest: seq<Move<T>>)
    requires Inv(s) && s.cons.Polling? && !s.atEnd && Held(s) == []
    ensures Inv(AfterTwoMisses(s))
    ensures Exec(s, [ConsumerMove, ConsumerMove, ConsumerMove, ConsumerMove] + rest) == Exec(AfterTwoMisses(s), rest)
  {
    var m: Move<T> := ConsumerMove;
    ExecFirst(s, m, [m, m, m] + rest);
    assert [m, m, m, m] + rest == [m] + ([m, m, m] + rest);
    var a := Step(s, m);
    ExecFirst(a, m, [m, m] + rest);
    assert [m, m, m] + rest == [m] + ([m, m] + rest);
    var b := Step(a, m);
    ExecFirst(b, m, [m] + rest);
    assert [m, m] + rest == [m] + ([m] + rest);
    var c := Step(b, m);
    ExecFirst(c, m, rest);
  }

  /** The producer's last element is in and the end is set. */
  function Closed<T>(s: State<T>, x: T): State<T> {
    s.(enq := s.enq + [x], full := false, atEnd := true, prod := Ready)
  }

  /** The consumer is past a failed poll, and there is room. */
  predicate Missed<T>(s: State<T>)
    requires |s.deq| <= |s.enq|
  {
    PastMiss(s.cons) && !s.endedBeforeMiss && !s.atEnd && |Held(s)| < s.capacity
  }

  lemma TryingEnds<T>(s: State<T>, rest: seq<Move<T>>)
    requires Inv(s) && Missed(s) && s.prod.Trying?
    ensures var r := Closed(s, s.prod.e);
            Inv(r) && Exec(s, [ProducerMove, ProducerMove, SetQueueEnd] + rest) == Exec(r, rest)
  {
    var p: Move<T> := ProducerMove;
    var a := Step(s, p);
    ExecFirst(s, p, [p, SetQueueEnd] + rest);
    assert [p, p, SetQueueEnd] + rest == [p] + ([p, SetQueueEnd] + rest);
    var b := Step(a, p);
    ExecFirst(a, p, [SetQueueEnd] + rest);
    assert [p, SetQueueEnd] + rest == [p] + ([SetQueueEnd] + rest);
    ExecFirst(b, SetQueueEnd, rest);
    hide Inv;
  }

  lemma ReadyEnds<T>(s: State<T>, e: T, rest: seq<Move<T>>)
    requires Inv(s) && Missed(s) && s.prod.Ready?
    ensures var r := Closed(s, e);
            Inv(r) && Exec(s, [Put(e), ProducerMove, ProducerMove, SetQueueEnd] + rest) == Exec(r, rest)
  {
    var last: seq<Move<T>> := [ProducerMove, ProducerMove, SetQueueEnd] + rest;
    ExecFirst(s, Put(e), last);
    assert [Put(e), ProducerMove, ProducerMove, SetQueueEnd] + rest == [Put(e)] + last;
    TryingEnds(Step(s, Put(e)), rest);
    hide Inv;
  }

  lemma ProducerEnds<T>(s: State<T>, e: T, rest: seq<Move<T>>)
    requires Inv(s) && Missed(s)
    ensures var r := Closed(s, Last(s.prod, e));
            Inv(r) && Exec(s, Finishing(s.prod, e) + [SetQueueEnd] + rest) == Exec(r, rest)
  {
    var p: Move<T> := ProducerMove;
    var all := Finishing(s.prod, e) + [SetQueueEnd] + rest;
    match s.prod
    case Ready =>
      assert all == [Put(e), p, p, SetQueueEnd] + rest;
      ReadyEnds(s, e, rest);
    case Trying(_) =>
      assert all == [p, p, SetQueueEnd] + rest;
      TryingEnds(s, rest);
    case MarkFull(_) =>
      assert all == [p] + ([p, p, SetQueueEnd] + rest);
      ExecFirst(s, p, [p, p, SetQueueEnd] + rest);
      TryingEnds(Step(s, p), rest);
    case MarkNotFull =>
      assert all == [p] + ([Put(e), p, p, SetQueueEnd] + rest);
      ExecFirst(s, p, [Put(e), p, p, SetQueueEnd] + rest);
      ReadyEnds(Step(s, p), e, rest);
  }

  /** An element put in between the failed poll and the look at the flags is not seen. */
  lemma LastMissHides<T>(s: State<T>, e: T)
    requires Inv(s) && s.cons.LoadEnd? && !s.endedBeforeMiss && !s.atEnd && s.empty && Held(s) == [] && s.capacity >= 1
    ensures var r := Exec(s, Finishing(s.prod, e) + [SetQueueEnd, ConsumerMove, ConsumerMove]);
            Ended(r.cons) && Held(r) == [Last(s.prod, e)]
  {
    var c: Move<T> := ConsumerMove;
    ProducerEnds(s, e, [c, c]);
    assert Finishing(s.prod, e) + [SetQueueEnd, c, c] == Finishing(s.prod, e) + [SetQueueEnd] + [c, c];
    var a := Closed(s, Last(s.prod, e));
    assert Held(a) == [Last(s.prod, e)];
    ExecFirst(a, c, [c]);
    ExecFirst(Step(a, c), c, []);
    hide Inv, Held;
  }

  /** Wherever the producer is, a call can report the end over an element if and only if it begins on an empty queue
      whose end has not been set. */
  lemma LossIff<T(!new)>(s: State<T>, taking: bool, e: T)
    requires Inv(s) && CanCall(s)
    ensures (exists moves :: Loses(s, taking, moves)) <==> !s.atEnd && Held(s) == []
  {
    hide Loses, Misses;
    if s.atEnd || Held(s) != [] {
      forall moves ensures !Loses(s, taking, moves) { Safe(s, taking, moves); }
    } else {
      Unsafe(s, taking, e);
    }
  }

  /** The first call on a new queue can, whatever the memory of m_empty held. */
  lemma EndCanHideAnElement<T>(memory: bool, e: T)
    ensures Loses(Start(1, memory), true, Unlucky(Ready, e))
  {
    Unsafe(Start(1, memory), true, e);
  }
}
