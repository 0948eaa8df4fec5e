/** A line of streaming stages joined by bounded queues, one worker to a stage: the shape of
    `processFile`. Everything here holds for any number of stages and any lawful stage functions. */
module StreamNetwork {

  /** A stage keeps a buffer; reading an item may change it and emit items, the end of the input
      flushes it. A stage that peeks emits before it takes the item that made it emit. */
  datatype Stage<!X> = Stage(step: (seq<X>, X) -> (seq<X>, seq<X>), flush: seq<X> -> seq<X>, peeks: bool)

  /** What a stage, holding `buf`, makes of all of `input`. */
  function Stream<X>(g: Stage<X>, buf: seq<X>, input: seq<X>): seq<X>
    decreases |input|
  {
    if input == [] then g.flush(buf)
    else
      var (buf', out) := g.step(buf, input[0]);
      out + Stream(g, buf', input[1..])
  }

  /** The stages one after the other, each run to its end before the next one starts. */
  function Batch<X>(stages: seq<Stage<X>>, input: seq<X>): seq<X>
    decreases |stages|
  {
    if stages == [] then input
    else
      var n := |stages| - 1;
      Stream(stages[n], [], Batch(stages[..n], input))
  }

  /** No stage emits more than it holds. */
  ghost predicate Modest<X(!new)>(g: Stage<X>) {
    && (forall buf, x :: |g.step(buf, x).0| + |g.step(buf, x).1| <= |buf| + 1)
    && (forall buf :: |g.flush(buf)| <= |buf|)
    && (g.peeks ==> forall buf, x :: |g.step(buf, x).1| <= |buf|)
  }

  /** When a peeking stage emits on an item, it might as well have been empty when the item came. */
  ghost predicate PeeksWell<X(!new)>(g: Stage<X>) {
    g.peeks ==> forall buf, x | g.step(buf, x).1 != [] :: g.step([], x) == (g.step(buf, x).0, [])
  }

  ghost predicate Lawful<X(!new)>(stages: seq<Stage<X>>) {
    forall i | 0 <= i < |stages| :: Modest(stages[i]) && PeeksWell(stages[i])
  }

  datatype Phase = Running | Flushing | Done

  datatype Worker<X> = Worker(buf: seq<X>, pending: seq<X>, phase: Phase)

  /** `queues[0]` is fed by the source, `queues[i]` by stage i-1 (which is `workers[i-1]`); the last
      one is read by the writer. */
  datatype Net<!X> = Net(
    stages: seq<Stage<X>>, capacity: nat, source: seq<X>, ended: bool,
    queues: seq<seq<X>>, workers: seq<Worker<X>>, written: seq<X>)

  datatype Move = Feed | CloseSource | Read(i: nat) | Emit(i: nat) | Write(i: nat) | Flush(i: nat) | Close(i: nat) | Record

  predicate Sized<X>(s: Net<X>) {
    |s.workers| == |s.stages| && |s.queues| == |s.stages| + 1 && s.capacity >= 1
  }

  function Start<X>(stages: seq<Stage<X>>, capacity: nat, source: seq<X>): (s: Net<X>)
    ensures s.stages == stages && (capacity >= 1 ==> Sized(s))
  {
    Net(stages, capacity, source, false, seq(|stages| + 1, _ => []), seq(|stages|, _ => Worker([], [], Running)), [])
  }

  /** Whoever feeds queue `i` has closed it. */
  predicate Closed<X>(s: Net<X>, i: nat)
    requires i <= |s.workers|
  {
    if i == 0 then s.ended else s.workers[i - 1].phase.Done?
  }

  predicate EmitsFirst<X>(g: Stage<X>, buf: seq<X>, x: X) { g.peeks && |g.step(buf, x).1| > 0 }

  /** Worker `i` has nothing left to write and is still reading. */
  predicate Ready<X>(s: Net<X>, i: nat)
    requires Sized(s)
  {
    i < |s.stages| && s.workers[i].phase.Running? && |s.workers[i].pending| == 0
  }

  predicate Enabled<X>(s: Net<X>, m: Move)
    requires Sized(s)
  {
    match m
    case Feed => |s.source| > 0 && |s.queues[0]| < s.capacity
    case CloseSource => |s.source| == 0 && !s.ended
    case Read(i) => Ready(s, i) && |s.queues[i]| > 0 && !EmitsFirst(s.stages[i], s.workers[i].buf, s.queues[i][0])
    case Emit(i) => Ready(s, i) && |s.queues[i]| > 0 && EmitsFirst(s.stages[i], s.workers[i].buf, s.queues[i][0])
    case Write(i) => i < |s.stages| && |s.workers[i].pending| > 0 && |s.queues[i + 1]| < s.capacity
    case Flush(i) => Ready(s, i) && |s.queues[i]| == 0 && Closed(s, i)
    case Close(i) => i < |s.stages| && s.workers[i].phase.Flushing? && |s.workers[i].pending| == 0
    case Record => |s.queues[|s.stages|]| > 0
  }

  function Step<X>(s: Net<X>, m: Move): (s': Net<X>)
    requires Sized(s) && Enabled(s, m)
    ensures Sized(s') && s'.stages == s.stages
  {
    match m
    case Feed => s.(source := s.source[1..], queues := s.queues[0 := s.queues[0] + [s.source[0]]])
    case CloseSource => s.(ended := true)
    case Read(i) =>
      var (buf', out) := s.stages[i].step(s.workers[i].buf, s.queues[i][0]);
      s.(queues := s.queues[i := s.queues[i][1..]], workers := s.workers[i := Worker(buf', out, Running)])
    case Emit(i) =>
      var out := s.stages[i].step(s.workers[i].buf, s.queues[i][0]).1;
      s.(workers := s.workers[i := Worker([], out, Running)])
    case Write(i) =>
      var w := s.workers[i];
      s.(queues := s.queues[i + 1 := s.queues[i + 1] + [w.pending[0]]],
         workers := s.workers[i := w.(pending := w.pending[1..])])
    case Flush(i) =>
      s.(workers := s.workers[i := Worker([], s.stages[i].flush(s.workers[i].buf), Flushing)])
    case Close(i) => s.(workers := s.workers[i := s.workers[i].(phase := Done)])
    case Record =>
      var n := |s.stages|;
      s.(queues := s.queues[n := s.queues[n][1..]], written := s.written + [s.queues[n][0]])
  }

  /** The run of a schedule; a move that its worker cannot make yet is passed over. */
  function Exec<X>(s: Net<X>, schedule: seq<Move>): (s': Net<X>)
    requires Sized(s)
    ensures Sized(s') && s'.stages == s.stages
    decreases |schedule|
  {
    if schedule == [] then s
    else
      var n := |schedule| - 1;
      var t := Exec(s, schedule[..n]);
      if Enabled(t, schedule[n]) then Step(t, schedule[n]) else t
  }

  /** A worker past its flush has seen all its input. */
  predicate WorkerOrderly<X>(s: Net<X>, i: nat)
    requires Sized(s) && i < |s.workers|
  {
    var w := s.workers[i];
    && (!w.phase.Running? ==> |s.queues[i]| == 0 && Closed(s, i))
    && (w.phase.Done? ==> |w.pending| == 0)
  }

  predicate Orderly<X>(s: Net<X>)
    requires Sized(s)
  {
    (s.ended ==> |s.source| == 0) && forall i | 0 <= i < |s.workers| :: WorkerOrderly(s, i)
  }

  // ---------------------------------------------------------------- determinism

  /** What is still to come out of the feeder of queue `i`. */
  function Future<X>(s: Net<X>, i: nat): seq<X>
    requires Sized(s) && i <= |s.stages|
    decreases i, 0
  {
    if i == 0 then s.source else Output(s.stages[i - 1], s.workers[i - 1], Incoming(s, i - 1))
  }

  /** What a worker will still write, given all it will still read. */
  function Output<X>(g: Stage<X>, w: Worker<X>, input: seq<X>): seq<X> {
    w.pending + (if w.phase.Running? then Stream(g, w.buf, input) else [])
  }

  /** Everything not yet taken from queue `i`, whether or not it is there already. */
  function Incoming<X>(s: Net<X>, i: nat): seq<X>
    requires Sized(s) && i <= |s.stages|
    decreases i, 1
  {
    s.queues[i] + Future(s, i)
  }

  /** What the writer will have written in the end. */
  function Total<X>(s: Net<X>): seq<X>
    requires Sized(s)
  {
    s.written + Incoming(s, |s.stages|)
  }

  /** Stages from `k` on do not notice how what reaches them is split between a queue and its feeder. */
  lemma {:induction false} DownstreamSame<X>(s: Net<X>, s': Net<X>, k: nat, j: nat)
    requires Sized(s) && Sized(s') && s.stages == s'.stages && k <= j <= |s.stages|
    requires Incoming(s, k) == Incoming(s', k)
    requires forall i | k <= i < |s.stages| :: s.workers[i] == s'.workers[i]
    requires forall i | k < i <= |s.stages| :: s.queues[i] == s'.queues[i]
    ensures Incoming(s, j) == Incoming(s', j)
    decreases j
  {
    hide Output;
    if j > k { DownstreamSame(s, s', k, j - 1); }
  }

  /** Stages up to `k` are as they were. */
  lemma {:induction false} UpstreamSame<X>(s: Net<X>, s': Net<X>, k: nat)
    requires Sized(s) && Sized(s') && s.stages == s'.stages && k <= |s.stages|
    requires s.source == s'.source
    requires forall i | 0 <= i < k :: s.workers[i] == s'.workers[i]
    requires forall i | 0 <= i < k :: s.queues[i] == s'.queues[i]
    ensures Future(s, k) == Future(s', k)
  {
    hide Output;
    if k > 0 { UpstreamSame(s, s', k - 1); }
  }

  lemma ClosedIsOver<X>(s: Net<X>, i: nat)
    requires Sized(s) && Orderly(s) && i <= |s.stages| && Closed(s, i)
    ensures Future(s, i) == []
  {
    hide Stream;
    if i > 0 { assert WorkerOrderly(s, i - 1); }
  }

  lemma OutputRead<X>(g: Stage<X>, buf: seq<X>, x: X, rest: seq<X>)
    ensures Output(g, Worker(buf, [], Running), [x] + rest)
         == Output(g, Worker(g.step(buf, x).0, g.step(buf, x).1, Running), rest)
  {
    var input := [x] + rest;
    assert input[0] == x && input[1..] == rest;
  }

  lemma OutputEmit<X(!new)>(g: Stage<X>, buf: seq<X>, x: X, rest: seq<X>)
    requires PeeksWell(g) && EmitsFirst(g, buf, x)
    ensures Output(g, Worker(buf, [], Running), [x] + rest)
         == Output(g, Worker([], g.step(buf, x).1, Running), [x] + rest)
  {
    OutputRead(g, buf, x, rest);
    OutputRead(g, [], x, rest);
    assert g.step(buf, x).1 != [];
    assert g.step([], x) == (g.step(buf, x).0, []);
    hide Stream;
  }

  lemma ReadKeepsTotal<X>(s: Net<X>, i: nat)
    requires Sized(s) && Enabled(s, Read(i))
    ensures Total(Step(s, Read(i))) == Total(s)
  {
    hide Output, EmitsFirst, Stream;
    var s' := Step(s, Read(i));
    UpstreamSame(s, s', i);
    OutputRead(s.stages[i], s.workers[i].buf, s.queues[i][0], Incoming(s', i));
    assert Incoming(s, i) == [s.queues[i][0]] + Incoming(s', i);
    assert s.workers[i] == Worker(s.workers[i].buf, [], Running);
    DownstreamSame(s, s', i + 1, |s.stages|);
  }

  lemma EmitKeepsTotal<X(!new)>(s: Net<X>, i: nat)
    requires Sized(s) && Enabled(s, Emit(i)) && PeeksWell(s.stages[i])
    ensures Total(Step(s, Emit(i))) == Total(s)
  {
    hide Output, EmitsFirst, Stream, PeeksWell;
    var s' := Step(s, Emit(i));
    UpstreamSame(s, s', i);
    var rest := s.queues[i][1..] + Future(s, i);
    assert Incoming(s, i) == [s.queues[i][0]] + rest;
    OutputEmit(s.stages[i], s.workers[i].buf, s.queues[i][0], rest);
    assert s.workers[i] == Worker(s.workers[i].buf, [], Running);
    assert Incoming(s', i) == Incoming(s, i);
    DownstreamSame(s, s', i + 1, |s.stages|);
  }

  lemma WriteKeepsTotal<X>(s: Net<X>, i: nat)
    requires Sized(s) && Enabled(s, Write(i))
    ensures Total(Step(s, Write(i))) == Total(s)
  {
    hide Stream;
    var s' := Step(s, Write(i));
    UpstreamSame(s, s', i);
    var w := s.workers[i];
    assert Future(s, i + 1) == [w.pending[0]] + Future(s', i + 1);
    assert Incoming(s, i + 1) == Incoming(s', i + 1);
    DownstreamSame(s, s', i + 1, |s.stages|);
  }

  lemma FlushKeepsTotal<X>(s: Net<X>, i: nat)
    requires Sized(s) && Enabled(s, Flush(i)) && Future(s, i) == []
    ensures Total(Step(s, Flush(i))) == Total(s)
  {
    var s' := Step(s, Flush(i));
    UpstreamSame(s, s', i);
    assert Incoming(s, i) == [];
    assert Future(s', i + 1) == Future(s, i + 1);
    DownstreamSame(s, s', i + 1, |s.stages|);
  }

  lemma CloseKeepsTotal<X>(s: Net<X>, i: nat)
    requires Sized(s) && Enabled(s, Close(i))
    ensures Total(Step(s, Close(i))) == Total(s)
  {
    var s' := Step(s, Close(i));
    UpstreamSame(s, s', i);
    assert Future(s', i + 1) == Future(s, i + 1);
    DownstreamSame(s, s', i + 1, |s.stages|);
  }

  lemma EndsKeepTotal<X>(s: Net<X>, m: Move)
    requires Sized(s) && Enabled(s, m) && (m.Feed? || m.CloseSource? || m.Record?)
    ensures Total(Step(s, m)) == Total(s)
  {
    hide Output;
    var s' := Step(s, m);
    if m.Record? {
      UpstreamSame(s, s', |s.stages|);
    } else {
      assert Incoming(s', 0) == Incoming(s, 0);
      DownstreamSame(s, s', 0, |s.stages|);
    }
  }

  /** Every step of every worker leaves what the writer will have written as it was. */
  lemma StepKeepsTotal<X(!new)>(s: Net<X>, m: Move)
    requires Sized(s) && Orderly(s) && Lawful(s.stages) && Enabled(s, m)
    ensures Total(Step(s, m)) == Total(s)
  {
    hide Total, Orderly, Step, PeeksWell, Modest;
    match m
    case Feed => EndsKeepTotal(s, m);
    case CloseSource => EndsKeepTotal(s, m);
    case Record => EndsKeepTotal(s, m);
    case Read(i) => ReadKeepsTotal(s, i);
    case Emit(i) => EmitKeepsTotal(s, i);
    case Write(i) => WriteKeepsTotal(s, i);
    case Flush(i) => ClosedIsOver(s, i); FlushKeepsTotal(s, i);
    case Close(i) => CloseKeepsTotal(s, i);
  }

  lemma StepKeepsOrder<X>(s: Net<X>, m: Move)
    requires Sized(s) && Orderly(s) && Enabled(s, m)
    ensures Orderly(Step(s, m))
  {
    var s' := Step(s, m);
    forall i | 0 <= i < |s'.workers| ensures WorkerOrderly(s', i) {
      assert WorkerOrderly(s, i);
      if i > 0 { assert WorkerOrderly(s, i - 1); }
    }
  }

  lemma {:induction false} StartTotal<X>(stages: seq<Stage<X>>, capacity: nat, source: seq<X>, k: nat)
    requires capacity >= 1 && k <= |stages|
    ensures Incoming(Start(stages, capacity, source), k) == Batch(stages[..k], source)
  {
    if k > 0 {
      StartTotal(stages, capacity, source, k - 1);
      assert stages[..k][..k - 1] == stages[..k - 1];
    }
  }

  /** Over every schedule. */
  lemma {:induction false} RunsKeepTotal<X(!new)>(stages: seq<Stage<X>>, capacity: nat, source: seq<X>, schedule: seq<Move>)
    requires capacity >= 1 && Lawful(stages)
    ensures var s := Exec(Start(stages, capacity, source), schedule);
            Orderly(s) && Total(s) == Batch(stages, source)
    decreases |schedule|
  {
    hide Lawful, Enabled, Step;
    if schedule == [] {
      StartTotal(stages, capacity, source, |stages|);
      assert stages[..|stages|] == stages;
    } else {
      var n := |schedule| - 1;
      RunsKeepTotal(stages, capacity, source, schedule[..n]);
      var t := Exec(Start(stages, capacity, source), schedule[..n]);
      if Enabled(t, schedule[n]) {
        StepKeepsTotal(t, schedule[n]);
        StepKeepsOrder(t, schedule[n]);
      }
    }
  }

  predicate WithinCapacity<X>(s: Net<X>) { forall i | 0 <= i < |s.queues| :: |s.queues[i]| <= s.capacity }

  lemma StepStaysWithin<X>(s: Net<X>, m: Move)
    requires Sized(s) && Enabled(s, m) && WithinCapacity(s)
    ensures WithinCapacity(Step(s, m)) && Step(s, m).capacity == s.capacity
  {
    hide EmitsFirst, Closed;
  }

  /** No queue is ever filled beyond its capacity. */
  lemma {:induction false} QueuesBounded<X>(stages: seq<Stage<X>>, capacity: nat, source: seq<X>, schedule: seq<Move>)
    requires capacity >= 1
    ensures var s := Exec(Start(stages, capacity, source), schedule);
            s.capacity == capacity && forall i | 0 <= i < |s.queues| :: |s.queues[i]| <= capacity
    decreases |schedule|
  {
    hide Enabled, Step;
    if schedule != [] {
      var n := |schedule| - 1;
      QueuesBounded(stages, capacity, source, schedule[..n]);
      var t := Exec(Start(stages, capacity, source), schedule[..n]);
      if Enabled(t, schedule[n]) { StepStaysWithin(t, schedule[n]); }
    }
  }

  // ---------------------------------------------------------------- no deadlock

  predicate Finished<X>(s: Net<X>)
    requires Sized(s)
  {
    Closed(s, |s.stages|) && |s.queues[|s.stages|]| == 0
  }

  /** As long as queue `i` has room and its feeder has not closed it, somebody can move. */
  lemma {:induction false} SomebodyMoves<X>(s: Net<X>, i: nat) returns (m: Move)
    requires Sized(s) && i <= |s.stages| && !Closed(s, i) && |s.queues[i]| < s.capacity
    ensures Enabled(s, m)
  {
    hide EmitsFirst;
    if i == 0 {
      m := if |s.source| > 0 then Feed else CloseSource;
    } else {
      var w := s.workers[i - 1];
      if |w.pending| > 0 {
        m := Write(i - 1);
      } else if w.phase.Flushing? {
        m := Close(i - 1);
      } else if |s.queues[i - 1]| > 0 {
        m := if EmitsFirst(s.stages[i - 1], w.buf, s.queues[i - 1][0]) then Emit(i - 1) else Read(i - 1);
      } else if Closed(s, i - 1) {
        m := Flush(i - 1);
      } else {
        m := SomebodyMoves(s, i - 1);
      }
    }
  }

  /** No reachable state is stuck before the writer is done, and a stuck one has written everything. */
  lemma StuckMeansFinished<X>(s: Net<X>)
    requires Sized(s)
    ensures (forall m :: !Enabled(s, m)) ==> Finished(s)
  {
    hide Enabled;
    var n := |s.stages|;
    if !Finished(s) {
      if |s.queues[n]| > 0 {
        assert Enabled(s, Record) by { RecordEnabled(s); }
      } else {
        var m := SomebodyMoves(s, n);
      }
    }
  }

  lemma RecordEnabled<X>(s: Net<X>)
    requires Sized(s) && |s.queues[|s.stages|]| > 0
    ensures Enabled(s, Record)
  {
  }

  /** Whatever the schedule, what has been written is a beginning of the batch result, and all of it
      once no worker can move. */
  lemma Deterministic<X(!new)>(stages: seq<Stage<X>>, capacity: nat, source: seq<X>, schedule: seq<Move>)
    requires capacity >= 1 && Lawful(stages)
    ensures var s := Exec(Start(stages, capacity, source), schedule);
            && s.written <= Batch(stages, source)
            && ((forall m :: !Enabled(s, m)) ==> s.written == Batch(stages, source))
  {
    hide Lawful, Enabled, Exec, Start;
    RunsKeepTotal(stages, capacity, source, schedule);
    var s := Exec(Start(stages, capacity, source), schedule);
    StuckMeansFinished(s);
    if Finished(s) { ClosedIsOver(s, |s.stages|); }
  }

  // ---------------------------------------------------------------- every run ends

  /** The items at or before queue `k`. */
  function Upto<X>(s: Net<X>, k: nat): nat
    requires Sized(s) && k <= |s.stages|
  {
    |s.queues[k]| +
    if k == 0 then |s.source| else Upto(s, k - 1) + |s.workers[k - 1].buf| + |s.workers[k - 1].pending|
  }

  function PhaseLeft(p: Phase): nat { if p.Running? then 2 else if p.Flushing? then 1 else 0 }

  /** How far all these items are from queue `k`, each place (queue, buffer, pending output) counting one,
      and how many phases are left. */
  function Distance<X>(s: Net<X>, k: nat): nat
    requires Sized(s) && k <= |s.stages|
  {
    if k == 0 then |s.source| + (if s.ended then 0 else 1)
    else
      var w := s.workers[k - 1];
      Distance(s, k - 1) + PhaseLeft(w.phase) + 3 * Upto(s, k - 1) + 2 * |w.buf| + |w.pending|
  }

  /** Moves left: one more for each item to be recorded. */
  function MovesLeft<X>(s: Net<X>): nat
    requires Sized(s)
  {
    Distance(s, |s.stages|) + Upto(s, |s.stages|)
  }

  lemma {:induction false} UpstreamCounts<X>(s: Net<X>, s': Net<X>, k: nat)
    requires Sized(s) && Sized(s') && s.stages == s'.stages && k <= |s.stages|
    requires s.source == s'.source && s.ended == s'.ended
    requires forall i | 0 <= i < k :: s.workers[i] == s'.workers[i]
    requires forall i | 0 <= i < k :: s.queues[i] == s'.queues[i]
    ensures Distance(s, k) == Distance(s', k)
    ensures Upto(s, k) - |s.queues[k]| == Upto(s', k) - |s'.queues[k]|
  {
    if k > 0 { UpstreamCounts(s, s', k - 1); }
  }

  lemma {:induction false} DownstreamCounts<X>(s: Net<X>, s': Net<X>, k: nat, j: nat)
    requires Sized(s) && Sized(s') && s.stages == s'.stages && k <= j <= |s.stages|
    requires Upto(s', k) <= Upto(s, k) && Distance(s', k) + Upto(s', k) < Distance(s, k) + Upto(s, k)
    requires Distance(s', k) <= Distance(s, k)
    requires forall i | k <= i < |s.stages| :: s.workers[i] == s'.workers[i]
    requires forall i | k < i <= |s.stages| :: s.queues[i] == s'.queues[i]
    ensures Upto(s', j) <= Upto(s, j) && Distance(s', j) <= Distance(s, j)
    ensures Distance(s', j) + Upto(s', j) < Distance(s, j) + Upto(s, j)
    decreases j
  {
    hide PhaseLeft;
    if j > k { DownstreamCounts(s, s', k, j - 1); }
  }

  /** Every move uses up one of the moves left. */
  lemma StepCounts<X(!new)>(s: Net<X>, m: Move)
    requires Sized(s) && Lawful(s.stages) && Enabled(s, m)
    ensures MovesLeft(Step(s, m)) < MovesLeft(s)
  {
    hide Modest, PeeksWell, EmitsFirst, PhaseLeft, Closed;
    var s' := Step(s, m);
    var n := |s.stages|;
    if m.Record? {
      UpstreamCounts(s, s', n);
    } else if m.Feed? || m.CloseSource? {
      DownstreamCounts(s, s', 0, n);
    } else {
      var i := m.i;
      StageCounts(s, m);
      DownstreamCounts(s, s', i + 1, n);
    }
  }

  lemma StageCounts<X(!new)>(s: Net<X>, m: Move)
    requires Sized(s) && Enabled(s, m) && !m.Record? && !m.Feed? && !m.CloseSource?
    requires Modest(s.stages[m.i])
    ensures var s' := Step(s, m);
            var k := m.i + 1;
            && Upto(s', k) <= Upto(s, k) && Distance(s', k) <= Distance(s, k)
            && Distance(s', k) + Upto(s', k) < Distance(s, k) + Upto(s, k)
  {
    UpstreamCounts(s, Step(s, m), m.i);
  }

  predicate Legal<X>(s: Net<X>, schedule: seq<Move>)
    requires Sized(s)
    decreases |schedule|
  {
    schedule == [] || (Enabled(s, schedule[0]) && Legal(Step(s, schedule[0]), schedule[1..]))
  }

  /** No run goes on for ever: there are at most `MovesLeft` moves in it. */
  lemma {:induction false} RunsEnd<X(!new)>(s: Net<X>, schedule: seq<Move>)
    requires Sized(s) && Lawful(s.stages) && Legal(s, schedule)
    ensures |schedule| <= MovesLeft(s)
    decreases |schedule|
  {
    hide Lawful, Enabled, Step, MovesLeft;
    if schedule != [] {
      StepCounts(s, schedule[0]);
      RunsEnd(Step(s, schedule[0]), schedule[1..]);
    }
  }
}
