/** What the calls of an AtomicQueue hand to their callers (BidAskSpread/AtomicQueue.h:42-80). */
module StreamAnswers {
  import opened AtomicQueue

  lemma {:induction false} ExecLast<T>(s: State<T>, moves: seq<Move<T>>, m: Move<T>)
    requires s.deq <= s.enq
    ensures var r := Exec(s, moves);
            Exec(s, moves + [m]) == if Enabled(r, m) then Step(r, m) else r
    decreases |moves|
  {
    hide Step, Enabled;
    var all := moves + [m];
    if moves == [] {
      assert all[1..] == [];
      if Enabled(s, m) { StepPrefix(s, m); }
    } else {
      assert all[1..] == moves[1..] + [m];
      if Enabled(s, moves[0]) {
        StepPrefix(s, moves[0]);
        ExecLast(Step(s, moves[0]), moves[1..], m);
      } else {
        ExecLast(s, moves[1..], m);
      }
    }
  }

  // ---------------------------------------------------------------- one move

  /** A poll that finds something finds the first element not delivered, and a `dequeue` takes that one out. */
  lemma PollFinds<T>(s: State<T>)
    requires s.deq <= s.enq && s.cons.Polling? && |s.deq| < |s.enq|
    ensures var r, e := Step(s, ConsumerMove), s.enq[|s.deq|];
            && r.cons == MarkNotEmpty(e) && r.enq == s.enq
            && r.deq == s.deq + (if s.cons.taking then [e] else [])
  {
  }

  /** The other moves of the consumer take nothing out. */
  lemma NothingTaken<T>(s: State<T>)
    requires s.deq <= s.enq && !s.cons.Resting? && !(s.cons.Polling? && |s.deq| < |s.enq|)
    ensures var r := Step(s, ConsumerMove);
            && r.deq == s.deq && r.enq == s.enq
            && (match r.cons
                case Resting(outcome) => outcome == QueueEnd || (s.cons.MarkNotEmpty? && outcome == Element(s.cons.e))
                case MarkNotEmpty(_) => false
                case _ => !s.cons.MarkNotEmpty? && r.cons.taking == s.cons.taking)
            && (s.cons.MarkNotEmpty? ==> r.cons == Resting(Element(s.cons.e)) && !r.empty)
  {
    if s.cons.Polling? { assert Held(s) == []; }
    hide Held;
  }

  /** The other moves leave the consumer alone. */
  lemma ConsumerStands<T>(s: State<T>, m: Move<T>)
    requires s.deq <= s.enq && Enabled(s, m) && !m.ConsumerMove?
    ensures var r := Step(s, m);
            && r.deq == s.deq && s.enq <= r.enq
            && (if Calls(m) then r.cons == Polling(m.Dequeue?) else r.cons == s.cons) && r.empty == s.empty
  {
    hide Held;
    match m
    case ProducerMove =>
    case _ =>
  }

  /** A poll of the producer's puts its element in if there is room. */
  lemma ProducerPolls<T>(s: State<T>)
    requires s.deq <= s.enq && s.prod.Trying?
    ensures var r := Step(s, ProducerMove);
            && r.deq == s.deq && r.cons == s.cons && r.capacity == s.capacity
            && if |s.enq| - |s.deq| < s.capacity then r.enq == s.enq + [s.prod.e] && r.prod == MarkNotFull
               else r.enq == s.enq && r.prod == MarkFull(s.prod.e)
  {
  }

  lemma ConsumerPutsNothing<T>(s: State<T>)
    requires s.deq <= s.enq && Enabled(s, ConsumerMove)
    ensures var r := Step(s, ConsumerMove); r.enq == s.enq && r.capacity == s.capacity && r.prod == s.prod && r.full == s.full
  {
    hide Held;
  }

  lemma OthersPutNothing<T>(s: State<T>, m: Move<T>)
    requires s.deq <= s.enq && Enabled(s, m) && !m.ConsumerMove? && !(m.ProducerMove? && s.prod.Trying?)
    ensures var r := Step(s, m);
            && r.enq == s.enq && r.capacity == s.capacity
            && r.prod == match m
                         case Put(e) => Trying(e)
                         case ProducerMove => (if s.prod.MarkFull? then Trying(s.prod.e) else Ready)
                         case _ => s.prod
    ensures m.ProducerMove? && s.prod.MarkNotFull? ==> !Step(s, m).full
    ensures !m.ProducerMove? ==> Step(s, m).full == s.full
  {
    hide Held;
  }

  /** Nothing else does. */
  lemma NothingPut<T>(s: State<T>, m: Move<T>)
    requires s.deq <= s.enq && Enabled(s, m) && !(m.ProducerMove? && s.prod.Trying?)
    ensures var r := Step(s, m);
            && r.enq == s.enq && r.capacity == s.capacity
            && r.prod == match m
                         case Put(e) => Trying(e)
                         case ProducerMove => (if s.prod.MarkFull? then Trying(s.prod.e) else Ready)
                         case _ => s.prod
    ensures m.ProducerMove? && s.prod.MarkNotFull? ==> !Step(s, m).full
    ensures !m.ProducerMove? ==> Step(s, m).full == s.full
  {
    if m.ConsumerMove? { ConsumerPutsNothing(s); } else { OthersPutNothing(s, m); }
    hide Step;
  }

  // ---------------------------------------------------------------- one call

  /** Move `i` of the run begins a call of the consumer's, or of the producer's. */
  ghost predicate Asks<T>(s: State<T>, run: seq<Move<T>>, i: nat)
    requires s.deq <= s.enq && i < |run|
  {
    Calls(run[i]) && Enabled(Exec(s, run[..i]), run[i])
  }

  ghost predicate Puts<T>(s: State<T>, run: seq<Move<T>>, i: nat)
    requires s.deq <= s.enq && i < |run|
  {
    run[i].Put? && Enabled(Exec(s, run[..i]), run[i])
  }

  /** A call that began in `s0` has found element number `|s0.deq|`, and taken it if it is a `dequeue`. */
  predicate Found<T(==)>(s0: State<T>, r: State<T>, taking: bool, e: T) {
    && |s0.deq| < |r.enq| && r.enq[|s0.deq|] == e
    && r.deq == s0.deq + (if taking then [e] else [])
  }

  /** How far a call that began in `s0` has come in `r`. */
  predicate CallOk<T(==)>(s0: State<T>, r: State<T>, taking: bool) {
    match r.cons
    case MarkNotEmpty(e) => Found(s0, r, taking, e)
    case Resting(outcome) => (
      match outcome
      case Element(e) => Found(s0, r, taking, e) && !r.empty
      case QueueEnd => r.deq == s0.deq
      case NoneYet => false)
    case _ => r.cons.taking == taking && r.deq == s0.deq
  }

  lemma CallStep<T>(s0: State<T>, r: State<T>, m: Move<T>, taking: bool)
    requires r.deq <= r.enq && Enabled(r, m) && CallOk(s0, r, taking) && !Calls(m)
    ensures CallOk(s0, Step(r, m), taking)
  {
    if !m.ConsumerMove? { ConsumerStands(r, m); }
    else if r.cons.Polling? && |r.deq| < |r.enq| { PollFinds(r); }
    else { NothingTaken(r); }
    hide Step;
  }

  /** The run begins with a call of `dequeue` or `peek`, and the consumer makes no other. */
  ghost predicate OneCall<T>(s: State<T>, run: seq<Move<T>>, taking: bool)
    requires s.deq <= s.enq
  {
    && |run| > 0 && run[0] == CallOf(taking) && Enabled(s, run[0])
    && forall i | 1 <= i < |run| :: !Asks(s, run, i)
  }

  lemma OneCallLess<T>(s: State<T>, before: seq<Move<T>>, m: Move<T>, taking: bool)
    requires s.deq <= s.enq && OneCall(s, before + [m], taking) && |before| > 0
    ensures OneCall(s, before, taking) && !(Calls(m) && Enabled(Exec(s, before), m))
  {
    hide Exec, Enabled;
    var all := before + [m];
    forall i | 1 <= i < |before| ensures !Asks(s, before, i) {
      assert all[..i] == before[..i] && !Asks(s, all, i);
    }
    assert all[..|before|] == before && !Asks(s, all, |before|);
  }

  lemma Only<T>(s: State<T>, m: Move<T>)
    requires s.deq <= s.enq && Enabled(s, m)
    ensures Exec(s, [m]) == Step(s, m)
  {
    hide Step, Enabled;
    ExecLast(s, [], m);
    assert [] + [m] == [m];
  }

  /** Under any schedule: a `dequeue` that ends with an element hands its caller the first one not delivered before and
      takes out exactly that, leaving m_empty clear; a `peek` hands over the same one and takes out nothing; a call that
      reports the end, or is still looking, has taken out nothing. */
  lemma {:induction false} CallOutcome<T>(s: State<T>, run: seq<Move<T>>, taking: bool)
    requires s.deq <= s.enq && OneCall(s, run, taking)
    ensures CallOk(s, Exec(s, run), taking)
    ensures var r := Exec(s, run);
            r.cons.Resting? ==>
              match r.cons.outcome
              case Element(e) =>
                && |s.deq| < |r.enq| && e == r.enq[|s.deq|] && !r.empty
                && r.deq == s.deq + (if taking then [e] else [])
              case QueueEnd => r.deq == s.deq
              case NoneYet => false
    decreases |run|
  {
    hide Exec, Step, CallOk, Asks, Enabled;
    if |run| == 1 {
      assert run == [run[0]];
      Only(s, run[0]);
      CallBegins(s, taking);
    } else {
      var before, m := run[..|run| - 1], run[|run| - 1];
      assert run == before + [m];
      OneCallLess(s, before, m, taking);
      CallOutcome(s, before, taking);
      ExecLast(s, before, m);
      if Enabled(Exec(s, before), m) { CallStep(s, Exec(s, before), m, taking); }
    }
    if Exec(s, run).cons.Resting? { CallShown(s, Exec(s, run), taking); }
  }

  lemma CallShown<T>(s: State<T>, r: State<T>, taking: bool)
    requires CallOk(s, r, taking) && r.cons.Resting?
    ensures match r.cons.outcome
            case Element(e) =>
              && |s.deq| < |r.enq| && e == r.enq[|s.deq|] && !r.empty
              && r.deq == s.deq + (if taking then [e] else [])
            case QueueEnd => r.deq == s.deq
            case NoneYet => false
  {
  }

  lemma CallBegins<T>(s: State<T>, taking: bool)
    requires s.deq <= s.enq && Enabled(s, CallOf(taking))
    ensures CallOk(s, Step(s, CallOf(taking)), taking)
  {
  }

  lemma {:induction false} HistoriesGrow<T>(s: State<T>, moves: seq<Move<T>>)
    requires s.deq <= s.enq
    ensures s.enq <= Exec(s, moves).enq && s.deq <= Exec(s, moves).deq
    decreases |moves|
  {
    hide Step, Enabled;
    if moves != [] {
      if Enabled(s, moves[0]) {
        StepPrefix(s, moves[0]);
        GrowsBy(s, moves[0]);
        HistoriesGrow(Step(s, moves[0]), moves[1..]);
      } else {
        HistoriesGrow(s, moves[1..]);
      }
    }
  }

  lemma GrowsBy<T>(s: State<T>, m: Move<T>)
    requires s.deq <= s.enq && Enabled(s, m)
    ensures s.enq <= Step(s, m).enq && s.deq <= Step(s, m).deq
  {
    if m.ProducerMove? && s.prod.Trying? { ProducerPolls(s); } else { NothingPut(s, m); }
    if !m.ConsumerMove? { ConsumerStands(s, m); }
    else if s.cons.Polling? && |s.deq| < |s.enq| { PollFinds(s); }
    else { NothingTaken(s); }
    hide Step;
  }

  /** The element a `peek` handed over is the one that the next `dequeue` takes out, whatever happens in between. */
  lemma PeekedComesNext<T>(s: State<T>, run: seq<Move<T>>, moves: seq<Move<T>>)
    requires s.deq <= s.enq && OneCall(s, run, false)
    requires var r := Exec(s, run); r.cons.Resting? && r.cons.outcome.Element?
    ensures var r := Exec(s, run);
            var q := Exec(r, moves);
            && r.deq == s.deq && |q.deq| >= |r.deq|
            && (|q.deq| > |r.deq| ==> q.deq[|r.deq|] == r.cons.outcome.e)
  {
    hide OneCall, Exec;
    CallOutcome(s, run, false);
    HistoriesGrow(Exec(s, run), moves);
  }

  // ---------------------------------------------------------------- all calls

  /** Whether the call that the consumer is in after a move, or made last, is a `dequeue`. */
  function Kind<T>(m: Move<T>, taking: bool): bool {
    if m.Dequeue? then true else if m.Peek? then false else taking
  }

  /** The element with which a move ends a `dequeue`. */
  function Handed<T>(s: State<T>, m: Move<T>, taking: bool): seq<T>
    requires |s.deq| <= |s.enq| && Enabled(s, m)
  {
    var r := Step(s, m);
    if taking && !s.cons.Resting? && r.cons.Resting? && r.cons.outcome.Element? then [r.cons.outcome.e] else []
  }

  /** The elements that the calls of `dequeue` return over a run, one after the other. */
  function Returned<T>(s: State<T>, moves: seq<Move<T>>, taking: bool): seq<T>
    requires s.deq <= s.enq
    decreases |moves|
  {
    if moves == [] then []
    else if Enabled(s, moves[0]) then
      StepPrefix(s, moves[0]);
      Handed(s, moves[0], taking) + Returned(Step(s, moves[0]), moves[1..], Kind(moves[0], taking))
    else Returned(s, moves[1..], taking)
  }

  /** The element taken out by a `dequeue` that has not returned yet. */
  function OnItsWay<T>(s: State<T>, taking: bool): seq<T> {
    if taking && s.cons.MarkNotEmpty? then [s.cons.e] else []
  }

  predicate KindOk<T>(s: State<T>, taking: bool) {
    s.cons.Polling? || s.cons.LoadEnd? || s.cons.LoadEmpty? || s.cons.MarkEmpty? ==> s.cons.taking == taking
  }

  lemma HandedStep<T>(s: State<T>, m: Move<T>, taking: bool)
    requires s.deq <= s.enq && Enabled(s, m) && KindOk(s, taking)
    ensures var r := Step(s, m);
            && KindOk(r, Kind(m, taking)) && s.deq <= r.deq
            && OnItsWay(s, taking) + r.deq[|s.deq|..] == Handed(s, m, taking) + OnItsWay(r, Kind(m, taking))
  {
    if !m.ConsumerMove? { ConsumerStands(s, m); }
    else if s.cons.Polling? && |s.deq| < |s.enq| { PollFinds(s); }
    else { NothingTaken(s); }
    hide Step;
  }

  lemma Glued<T>(a: seq<T>, b: seq<T>, c: seq<T>)
    requires a <= b <= c
    ensures c[|a|..] == b[|a|..] + c[|b|..]
  {
  }

  lemma {:induction false} ReturnedIs<T>(s: State<T>, moves: seq<Move<T>>, taking: bool) returns (last: bool)
    requires s.deq <= s.enq && KindOk(s, taking)
    ensures var r := Exec(s, moves);
            && s.deq <= r.deq
            && OnItsWay(s, taking) + r.deq[|s.deq|..] == Returned(s, moves, taking) + OnItsWay(r, last)
    decreases |moves|
  {
    hide Step, Enabled, OnItsWay, Handed, KindOk;
    last := taking;
    if moves != [] {
      if Enabled(s, moves[0]) {
        var s' := Step(s, moves[0]);
        StepPrefix(s, moves[0]);
        HandedStep(s, moves[0], taking);
        last := ReturnedIs(s', moves[1..], Kind(moves[0], taking));
        Glued(s.deq, s'.deq, Exec(s, moves).deq);
        var way, mid, rest := OnItsWay(s, taking), s'.deq[|s.deq|..], Exec(s, moves).deq[|s'.deq|..];
        var handed, way', returned, way2 := Handed(s, moves[0], taking), OnItsWay(s', Kind(moves[0], taking)),
          Returned(s', moves[1..], Kind(moves[0], taking)), OnItsWay(Exec(s, moves), last);
        assert way + (mid + rest) == (way + mid) + rest == (handed + way') + rest == handed + (way' + rest)
            == handed + (returned + way2) == (handed + returned) + way2;
      } else {
        last := ReturnedIs(s, moves[1..], taking);
      }
    }
  }

  /** Between calls, what the calls of `dequeue` have returned since is what has been taken out since. */
  lemma ReturnsWhatIsTaken<T>(s: State<T>, moves: seq<Move<T>>)
    requires s.deq <= s.enq && s.cons.Resting?
    ensures var r := Exec(s, moves);
            var returned := Returned(s, moves, false);
            && s.deq <= r.deq && returned <= r.deq[|s.deq|..] && |r.deq| <= |s.deq| + |returned| + 1
            && (r.cons.Resting? ==> returned == r.deq[|s.deq|..])
  {
    hide Step, Enabled, Exec, Returned;
    var last := ReturnedIs(s, moves, false);
    var out := Exec(s, moves).deq[|s.deq|..];
    assert [] + out == out;
  }

  /** Over every run from a new queue: what the calls of `dequeue` return, in order, is what went in, in order; only an
      element whose `dequeue` has not returned yet is still to come, and none between two calls. */
  lemma ReturnsWhatWentIn<T>(capacity: nat, empty: bool, moves: seq<Move<T>>)
    ensures var s := Exec(Start(capacity, empty), moves);
            var returned := Returned(Start(capacity, empty), moves, false);
            && returned <= s.deq <= s.enq && |s.deq| <= |returned| + 1
            && (s.cons.Resting? ==> returned == s.deq)
  {
    hide Step, Enabled, Exec, Returned;
    ReturnsWhatIsTaken(Start(capacity, empty), moves);
    var s := Exec(Start(capacity, empty), moves);
    assert s.deq[0..] == s.deq;
  }

  // ---------------------------------------------------------------- the producer's calls

  /** How far a call that puts `e` in has come, and that nobody else puts anything in. */
  predicate PutOk<T(==)>(s0: State<T>, r: State<T>, e: T) {
    match r.prod
    case Trying(x) => x == e && r.enq == s0.enq
    case MarkFull(x) => x == e && r.enq == s0.enq
    case MarkNotFull => r.enq == s0.enq + [e]
    case Ready => r.enq == s0.enq + [e] && !r.full
  }

  lemma PutStep<T>(s0: State<T>, r: State<T>, m: Move<T>, e: T)
    requires r.deq <= r.enq && Enabled(r, m) && PutOk(s0, r, e) && !m.Put?
    ensures PutOk(s0, Step(r, m), e)
  {
    if m.ProducerMove? && r.prod.Trying? { ProducerPolls(r); } else { NothingPut(r, m); }
    hide Step;
  }

  ghost predicate OnePut<T>(s: State<T>, run: seq<Move<T>>, e: T)
    requires s.deq <= s.enq
  {
    && |run| > 0 && run[0] == Put(e) && Enabled(s, run[0])
    && forall i | 1 <= i < |run| :: !Puts(s, run, i)
  }

  lemma OnePutLess<T>(s: State<T>, before: seq<Move<T>>, m: Move<T>, e: T)
    requires s.deq <= s.enq && OnePut(s, before + [m], e) && |before| > 0
    ensures OnePut(s, before, e) && !(m.Put? && Enabled(Exec(s, before), m))
  {
    hide Exec, Enabled;
    var all := before + [m];
    forall i | 1 <= i < |before| ensures !Puts(s, before, i) {
      assert all[..i] == before[..i] && !Puts(s, all, i);
    }
    assert all[..|before|] == before && !Puts(s, all, |before|);
  }

  /** Under any schedule: an `enqueue` puts in its own element, once, and comes back only then, with m_full clear. */
  lemma {:induction false} PutOutcome<T>(s: State<T>, run: seq<Move<T>>, e: T)
    requires s.deq <= s.enq && OnePut(s, run, e)
    ensures PutOk(s, Exec(s, run), e)
    ensures Exec(s, run).prod.Ready? ==> Exec(s, run).enq == s.enq + [e] && !Exec(s, run).full
    decreases |run|
  {
    hide Exec, Step, PutOk, Puts, Enabled;
    if |run| == 1 {
      assert run == [run[0]];
      Only(s, run[0]);
      PutBegins(s, e);
    } else {
      var before, m := run[..|run| - 1], run[|run| - 1];
      assert run == before + [m];
      OnePutLess(s, before, m, e);
      PutOutcome(s, before, e);
      ExecLast(s, before, m);
      if Enabled(Exec(s, before), m) { PutStep(s, Exec(s, before), m, e); }
    }
    PutShown(s, Exec(s, run), e);
  }

  lemma PutShown<T>(s: State<T>, r: State<T>, e: T)
    requires PutOk(s, r, e)
    ensures r.prod.Ready? ==> r.enq == s.enq + [e] && !r.full
  {
  }

  lemma PutBegins<T>(s: State<T>, e: T)
    requires s.deq <= s.enq && Enabled(s, Put(e))
    ensures PutOk(s, Step(s, Put(e)), e)
  {
  }

  lemma HeldStep<T>(s: State<T>, m: Move<T>)
    requires s.deq <= s.enq && Enabled(s, m) && |Held(s)| <= s.capacity
    ensures var r := Step(s, m); r.deq <= r.enq && |Held(r)| <= r.capacity == s.capacity
  {
    StepPrefix(s, m);
    if m.ProducerMove? && s.prod.Trying? { ProducerPolls(s); } else { NothingPut(s, m); }
    if !m.ConsumerMove? { ConsumerStands(s, m); }
    else if s.cons.Polling? && |s.deq| < |s.enq| { PollFinds(s); }
    else { NothingTaken(s); }
    hide Step;
  }

  /** The queue never holds more than it has room for. */
  lemma {:induction false} WithinCapacity<T>(s: State<T>, moves: seq<Move<T>>)
    requires s.deq <= s.enq && |Held(s)| <= s.capacity
    ensures var r := Exec(s, moves); |Held(r)| <= r.capacity == s.capacity
    decreases |moves|
  {
    hide Step, Enabled, Held;
    if moves != [] {
      if Enabled(s, moves[0]) {
        HeldStep(s, moves[0]);
        WithinCapacity(Step(s, moves[0]), moves[1..]);
      } else {
        WithinCapacity(s, moves[1..]);
      }
    }
  }
}
