/** The moment an empty answer speaks of: `try_dequeue`, `pop` and `peek` say that there is nothing only if there was
    nothing at some instant of that very call (include/readerwriterqueue/readerwriterqueue.h:186-390). */
module SpscAnswers {
  import opened RingBlock
  import opened SpscQueue
  import opened SpscProof
  import opened SpscFifo
  import opened SpscCapacity

  /** Action `j` of the run begins a call of the consumer's. */
  ghost predicate Asks<T>(s: State<T>, schedule: seq<Action<T>>, j: nat)
    requires Inv(s) && j < |schedule|
  {
    schedule[j].CallConsumer? && Exec(s, schedule[..j]).cons.CIdle?
  }

  /** After `i` actions the consumer's last call of the run was under way, and the queue was empty. */
  ghost predicate EmptyAt<T>(s: State<T>, schedule: seq<Action<T>>, i: nat)
    requires Inv(s)
  {
    && i <= |schedule| && !Exec(s, schedule[..i]).cons.CIdle? && Contents(Exec(s, schedule[..i])) == []
    && forall j | i <= j < |schedule| :: !Asks(s, schedule, j)
  }

  /** The consumer has been told that the queue is empty, or has seen that it is. */
  predicate ToldEmpty<T>(s: State<T>) {
    (s.cons.CCheck? && s.wasEmpty) || s.cons == CIdle(Empty)
  }

  lemma EmptyStill<T>(s: State<T>, schedule: seq<Action<T>>, a: Action<T>, i: nat)
    requires Inv(s) && EmptyAt(s, schedule, i) && !(a.CallConsumer? && Exec(s, schedule).cons.CIdle?)
    ensures EmptyAt(s, schedule + [a], i)
  {
    hide Inv, Shape, Contents, Apply, Enabled, Exec;
    var all := schedule + [a];
    assert all[..i] == schedule[..i] && all[..|schedule|] == schedule;
    forall j | i <= j < |all| ensures !Asks(s, all, j) {
      if j < |schedule| {
        assert all[..j] == schedule[..j] && !Asks(s, schedule, j);
      }
    }
  }

  lemma EmptyNow<T>(s: State<T>, before: seq<Action<T>>, a: Action<T>)
    requires Inv(s) && !Exec(s, before).cons.CIdle? && Contents(Exec(s, before)) == []
    ensures EmptyAt(s, before + [a], |before|)
  {
    hide Inv, Shape, Contents, Exec;
    assert (before + [a])[..|before|] == before;
  }

  /** A step that tells it so is taken over an empty queue, or follows one of the same call that was. */
  lemma ToldStep<T>(s: State<T>, a: Action<T>)
    requires Inv(s) && Enabled(s, a) && ToldEmpty(Apply(s, a))
    ensures (!s.cons.CIdle? && Contents(s) == []) || (ToldEmpty(s) && !(a.CallConsumer? && s.cons.CIdle?))
  {
    hide Inv, Shape, Contents, ProducerNextState, ConsumerNextState;
    match a
    case CallEnqueue(_, _) =>
    case ProducerStep(mallocOk) => SameConsumer(s, mallocOk);
    case CallConsumer(_) =>
    case ConsumerStep => ToldByConsumer(s);
  }

  lemma SameConsumer<T>(s: State<T>, mallocOk: bool)
    requires Inv(s) && !s.prod.PIdle?
    ensures var r := ProducerNextState(s, mallocOk); r.cons == s.cons && r.wasEmpty == s.wasEmpty
  {
    hide Inv, Shape, Contents;
  }

  lemma ToldByConsumer<T>(s: State<T>)
    requires Inv(s) && !s.cons.CIdle? && ToldEmpty(ConsumerNextState(s))
    ensures Contents(s) == [] || ToldEmpty(s)
  {
    if s.cons.CCheck? {
      if ConsumerNextState(s).cons.CIdle? { TruthfulAnswers(s); }
      hide Inv, Shape, Contents;
    } else {
      OnlyTheCheck(s);
      hide Inv, Shape, Contents, ConsumerNextState;
    }
    hide ConsumerNextState;
  }

  lemma OnlyTheCheck<T>(s: State<T>)
    requires Inv(s) && !s.cons.CIdle? && !s.cons.CCheck?
    ensures ToldEmpty(ConsumerNextState(s)) ==> Contents(s) == []
  {
    hide Inv, Shape, Contents;
    InRange(s);
  }

  lemma ToldOneMore<T>(s: State<T>, before: seq<Action<T>>, a: Action<T>, i: nat) returns (k: nat)
    requires Inv(s) && (ToldEmpty(Exec(s, before)) ==> EmptyAt(s, before, i))
    ensures ToldEmpty(Exec(s, before + [a])) ==> EmptyAt(s, before + [a], k)
  {
    var r := Exec(s, before);
    ExecLast(s, before, a);
    k := i;
    hide Inv, Shape, Contents, Apply, Exec, EmptyAt, ToldEmpty, Enabled;
    if Enabled(r, a) {
      if ToldEmpty(Apply(r, a)) {
        ToldStep(r, a);
        if !r.cons.CIdle? && Contents(r) == [] {
          k := |before|;
          EmptyNow(s, before, a);
        } else {
          EmptyStill(s, before, a, i);
        }
      }
    } else if ToldEmpty(r) {
      NotAsked(r, a);
      EmptyStill(s, before, a, i);
    }
  }

  lemma NotAsked<T>(r: State<T>, a: Action<T>)
    requires !Enabled(r, a)
    ensures !(a.CallConsumer? && r.cons.CIdle?)
  {
  }

  /** Over every run from a new queue: a consumer that was told `Empty` was told so in a call during which, after
      some `i` actions, the queue was empty. */
  lemma {:induction false} EmptyWasTrue<T>(s: State<T>, schedule: seq<Action<T>>) returns (i: nat)
    requires Inv(s) && s.cons == CIdle(NothingAsked)
    ensures ToldEmpty(Exec(s, schedule)) ==> EmptyAt(s, schedule, i)
    decreases |schedule|
  {
    hide Inv, Shape, Contents, Apply, Enabled, Exec, EmptyAt;
    i := 0;
    if schedule != [] {
      var before, a := schedule[..|schedule| - 1], schedule[|schedule| - 1];
      assert schedule == before + [a];
      i := EmptyWasTrue(s, before);
      i := ToldOneMore(s, before, a, i);
    } else {
      NothingRun(s);
    }
  }
}
