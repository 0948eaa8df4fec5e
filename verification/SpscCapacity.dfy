/** What the constructor's sizing is for: `try_enqueue` on a queue made for `maxSize` elements refuses one only if
    that many were present at some moment of the call (include/readerwriterqueue/readerwriterqueue.h:68-113,
    427-499). */
module SpscCapacity {
  import opened RingBlock
  import opened SpscQueue
  import opened SpscProof
  import opened SpscFifo
  import opened PowersOfTwo

  /** A queue as the constructor leaves it. */
  ghost predicate BuiltFor<T>(s: State<T>, maxSize: nat) {
    && Inv(s) && s.prod == PIdle(NothingYet)
    && AtLeast(s, s.largest) && Capacity(|s.ring|, s.largest) >= maxSize
  }

  lemma {:induction false} ExecLast<T>(s: State<T>, schedule: seq<Action<T>>, a: Action<T>)
    requires Inv(s)
    ensures var r := Exec(s, schedule);
            Exec(s, schedule + [a]) == if Enabled(r, a) then Apply(r, a) else r
    decreases |schedule|
  {
    hide Inv, Shape, Contents, Apply, Enabled;
    var all := schedule + [a];
    if schedule == [] {
      assert all[1..] == [];
      if Enabled(s, a) { StepRefinesFifo(s, a); }
    } else {
      assert all[1..] == schedule[1..] + [a];
      if Enabled(s, schedule[0]) {
        StepRefinesFifo(s, schedule[0]);
        ExecLast(Apply(s, schedule[0]), schedule[1..], a);
      } else {
        ExecLast(s, schedule[1..], a);
      }
    }
  }

  /** Action `j` of the run begins an enqueue. */
  ghost predicate Begins<T>(s: State<T>, schedule: seq<Action<T>>, j: nat)
    requires Inv(s) && j < |schedule|
  {
    schedule[j].CallEnqueue? && Exec(s, schedule[..j]).prod.PIdle?
  }

  /** After `i` actions the last enqueue of the run was under way, and `n` elements were present. */
  ghost predicate Present<T>(s: State<T>, schedule: seq<Action<T>>, i: nat, n: nat)
    requires Inv(s)
  {
    && i <= |schedule| && !Exec(s, schedule[..i]).prod.PIdle? && |Contents(Exec(s, schedule[..i]))| == n
    && forall j | i <= j < |schedule| :: !Begins(s, schedule, j)
  }

  lemma PresentStill<T>(s: State<T>, schedule: seq<Action<T>>, a: Action<T>, i: nat, n: nat)
    requires Inv(s) && Present(s, schedule, i, n) && !(a.CallEnqueue? && Exec(s, schedule).prod.PIdle?)
    ensures Present(s, schedule + [a], i, n)
  {
    hide Inv, Shape, Contents, Apply, Enabled, Exec;
    var all := schedule + [a];
    assert all[..i] == schedule[..i] && all[..|schedule|] == schedule;
    forall j | i <= j < |all| ensures !Begins(s, all, j) {
      if j < |schedule| {
        assert all[..j] == schedule[..j] && !Begins(s, schedule, j);
      }
    }
  }

  lemma PresentNow<T>(s: State<T>, before: seq<Action<T>>, a: Action<T>)
    requires Inv(s) && !Exec(s, before).prod.PIdle?
    ensures Present(s, before + [a], |before|, |Contents(Exec(s, before))|)
  {
    hide Inv, Shape, Contents, Exec;
    assert (before + [a])[..|before|] == before;
  }

  /** The producer has looked at the consumer's variables in its last enqueue, and found no room. */
  predicate Looked<T>(p: Producer<T>) { p.PFull? || p == PIdle(NoRoom) }

  /** The number seen is either that of the moment before or, in the same enqueue, that seen earlier. */
  ghost predicate SeenOk<T>(s: State<T>, a: Action<T>, r: State<T>)
    requires Inv(s)
  {
    Looked(r.prod) ==>
      || (r.seen == |Contents(s)| && !s.prod.PIdle?)
      || (r.seen == s.seen && Looked(s.prod) && !(a.CallEnqueue? && s.prod.PIdle?))
  }

  lemma SeenStep<T>(s: State<T>, a: Action<T>)
    requires Inv(s) && Enabled(s, a)
    ensures SeenOk(s, a, Apply(s, a))
  {
    hide Inv, Shape, Contents, ProducerNextState, ConsumerNextState;
    match a
    case CallEnqueue(_, _) =>
    case ProducerStep(mallocOk) => SeenProducer(s, mallocOk);
    case CallConsumer(_) =>
    case ConsumerStep => SeenConsumer(s);
  }

  lemma SeenProducer<T>(s: State<T>, mallocOk: bool)
    requires Inv(s) && !s.prod.PIdle?
    ensures var r := ProducerNextState(s, mallocOk);
            Looked(r.prod) ==> r.seen == |Contents(s)| || (Looked(s.prod) && r.seen == s.seen)
  {
    hide Inv, Shape, Contents;
  }

  lemma SeenConsumer<T>(s: State<T>)
    requires Inv(s) && !s.cons.CIdle?
    ensures var r := ConsumerNextState(s); r.seen == s.seen && r.prod == s.prod
  {
    hide Inv, Shape, Contents;
  }

  /** `seen` is a number of elements that were present during the last enqueue. */
  lemma {:induction false} SeenWasPresent<T>(s: State<T>, schedule: seq<Action<T>>) returns (i: nat)
    requires Inv(s) && s.prod == PIdle(NothingYet)
    ensures var r := Exec(s, schedule); Looked(r.prod) ==> Present(s, schedule, i, r.seen)
    decreases |schedule|
  {
    hide Inv, Shape, Contents, Apply, Enabled, Exec, Present;
    i := 0;
    if schedule != [] {
      var before, a := schedule[..|schedule| - 1], schedule[|schedule| - 1];
      assert schedule == before + [a];
      i := SeenWasPresent(s, before);
      i := SeenOneMore(s, before, a, i);
    } else {
      NothingRun(s);
    }
  }

  lemma NothingRun<T>(s: State<T>)
    requires Inv(s)
    ensures Exec(s, []) == s
  {
  }

  lemma SeenOneMore<T>(s: State<T>, before: seq<Action<T>>, a: Action<T>, i: nat) returns (k: nat)
    requires Inv(s)
    requires var r := Exec(s, before); Looked(r.prod) ==> Present(s, before, i, r.seen)
    ensures var r := Exec(s, before + [a]); Looked(r.prod) ==> Present(s, before + [a], k, r.seen)
  {
    var r := Exec(s, before);
    ExecLast(s, before, a);
    k := i;
    if Enabled(r, a) {
      SeenStep(r, a);
      hide Inv, Shape, Contents, Apply, Exec, Present;
      if Looked(Apply(r, a).prod) {
        if Apply(r, a).seen == |Contents(r)| && !r.prod.PIdle? {
          k := |before|;
          PresentNow(s, before, a);
        } else {
          PresentStill(s, before, a, i, r.seen);
        }
      }
    } else if Looked(r.prod) {
      PresentStill(s, before, a, i, r.seen);
    }
  }

  /** From the constructor on, whatever else happens and whoever allocates, an enqueue is refused for lack of room
      only if, after some `i` actions, it was under way and at least `maxSize` elements were present. */
  lemma RefusedOnlyAboveMaxSize<T>(s: State<T>, schedule: seq<Action<T>>, maxSize: nat) returns (i: nat)
    requires BuiltFor(s, maxSize)
    requires Exec(s, schedule).prod == PIdle(NoRoom)
    ensures i <= |schedule| && !Exec(s, schedule[..i]).prod.PIdle? && |Contents(Exec(s, schedule[..i]))| >= maxSize
    ensures forall j | i <= j < |schedule| :: !Begins(s, schedule, j)
  {
    StartsRoomy(s, maxSize);
    hide Inv, Shape, Contents, Apply, Enabled, Exec, Capacity, Roomy;
    RefusedOnlyWhenFull(s, schedule, |s.ring|, s.largest);
    i := SeenWasPresent(s, schedule);
  }

  lemma StartsRoomy<T>(s: State<T>, maxSize: nat)
    requires BuiltFor(s, maxSize)
    ensures Roomy(s, |s.ring|, s.largest)
  {
    hide Contents, Capacity;
  }

  // ---------------------------------------------------------------- sizes

  /** Indices go round a block by masking, so its size has to be a power of two. */
  ghost predicate Maskable<T>(s: State<T>) {
    && IsPow2(s.largest) && s.largest <= 2 * s.maxBlockSize
    && forall x | 0 <= x < |s.blocks| :: IsPow2(s.blocks[x].Size()) && s.blocks[x].Size() <= 2 * s.maxBlockSize
  }

  lemma Doubled(n: nat)
    requires IsPow2(n)
    ensures IsPow2(n * 2)
  {
    var k: nat :| n == Pow2(k);
    assert n * 2 == Pow2(k + 1);
  }

  lemma SameSizesMaskable<T>(s: State<T>, r: State<T>)
    requires Maskable(s) && SameSizes(s, r) && r.maxBlockSize == s.maxBlockSize
    ensures Maskable(r)
  {
    hide IsPow2;
  }

  lemma MaxStays<T>(s: State<T>, a: Action<T>)
    requires Inv(s) && Enabled(s, a)
    ensures Apply(s, a).maxBlockSize == s.maxBlockSize
  {
    hide Inv, Shape, Contents;
  }

  /** The new block is twice the largest, or as large as that if it is a full-sized one. */
  lemma AllocMaskable<T>(s: State<T>, mallocOk: bool)
    requires Inv(s) && s.prod.PAlloc? && Maskable(s)
    ensures Maskable(ProducerNextState(s, mallocOk))
    ensures var r := ProducerNextState(s, mallocOk);
            if mallocOk then |r.blocks| == |s.blocks| + 1 && r.blocks[|s.blocks|].Size() == r.largest
            else r.blocks == s.blocks && r.largest == s.largest
  {
    hide Inv, Shape, Contents;
    InRange(s);
    Doubled(s.largest);
    hide IsPow2;
  }

  lemma LinkSizes<T>(s: State<T>, mallocOk: bool)
    requires Inv(s) && s.prod.PLink?
    ensures var r := ProducerNextState(s, mallocOk);
            |r.blocks| == |s.blocks| && r.largest == s.largest && forall x | 0 <= x < |s.blocks| :: r.blocks[x].Size() == s.blocks[x].Size()
  {
    hide Inv, Shape, Contents;
    InRange(s);
  }

  lemma StepMaskable<T>(s: State<T>, a: Action<T>)
    requires Inv(s) && Enabled(s, a) && Maskable(s)
    ensures Maskable(Apply(s, a))
  {
    MaxStays(s, a);
    hide Inv, Shape, Contents, ProducerNextState, ConsumerNextState, SameSizes;
    if a.ProducerStep? {
      if s.prod.PAlloc? {
        AllocMaskable(s, a.mallocOk);
      } else if s.prod.PLink? {
        LinkSizes(s, a.mallocOk);
        hide IsPow2;
      } else {
        ProducerSizes(s, a.mallocOk);
        SameSizesMaskable(s, Apply(s, a));
      }
    } else if a.ConsumerStep? {
      ConsumerSizes(s);
      SameSizesMaskable(s, Apply(s, a));
    }
  }

  /** Over every run the size of every block is a power of two, and at most twice the maximum the queue was made with. */
  lemma {:induction false} StaysMaskable<T>(s: State<T>, schedule: seq<Action<T>>)
    requires Inv(s) && Maskable(s)
    ensures Maskable(Exec(s, schedule))
    decreases |schedule|
  {
    hide Inv, Maskable, Apply;
    if schedule != [] {
      if Enabled(s, schedule[0]) {
        StepRefinesFifo(s, schedule[0]);
        StepMaskable(s, schedule[0]);
        StaysMaskable(Apply(s, schedule[0]), schedule[1..]);
      } else {
        StaysMaskable(s, schedule[1..]);
      }
    }
  }
}
