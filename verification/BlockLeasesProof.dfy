/** Every step keeps the invariant of `BlockLeases`. */
module BlockLeasesProof {
  import opened BlockLeases
  import opened Slots

  // ---------------------------------------------------------------- counting

  lemma {:induction false} CountAll(done: set<nat>, from: nat, n: nat)
    ensures Count(done, from, n) == n <==> forall i | from <= i < from + n :: i in done
  {
    if n > 0 { CountAll(done, from, n - 1); }
  }

  lemma {:induction false} CountNone(done: set<nat>, from: nat, n: nat)
    requires forall i | from <= i < from + n :: i !in done
    ensures Count(done, from, n) == 0
  {
    if n > 0 { CountNone(done, from, n - 1); }
  }

  /** Emptying slots `a..e` of the counted ones. */
  lemma {:induction false} CountMore(done: set<nat>, from: nat, n: nat, a: nat, e: nat)
    requires a <= e && forall i | a <= i < e :: i !in done
    ensures from <= a && e <= from + n ==> Count(done + Range(a, e), from, n) == Count(done, from, n) + (e - a)
    ensures e <= from || from + n <= a ==> Count(done + Range(a, e), from, n) == Count(done, from, n)
  {
    if n > 0 {
      if e <= from + n - 1 || from + n <= a {
        CountMore(done, from, n - 1, a, e);
      } else if from <= a < e && e == from + n {
        CountMore(done, from, n - 1, a, e - 1);
        assert done + Range(a, e) == (done + Range(a, e - 1)) + {e - 1};
        CountOne(done + Range(a, e - 1), from, n - 1, e - 1);
      }
    }
  }

  lemma {:induction false} CountOne(done: set<nat>, from: nat, n: nat, i: nat)
    requires i >= from + n
    ensures Count(done + {i}, from, n) == Count(done, from, n)
  {
    if n > 0 { CountOne(done, from, n - 1, i); }
  }

  lemma BlockBelow(i: nat, next: nat, size: nat)
    requires size > 0 && i < First(next, size)
    ensures BlockNo(i, size) < next
  {
    var k := BlockNo(i, size);
    hide BlockNo, First;
    if k > next { FirstOrder(next, k, size); }
  }

  // ---------------------------------------------------------------- homes

  lemma HomesMoved(s: State, s': State, b: nat, place: Place)
    requires Homes(s) && b < |s.home| && s'.home == s.home[b := place]
    requires forall c: nat, pl | c != b :: Located(s', c, pl) <==> Located(s, c, pl)
    requires forall pl :: Located(s', b, pl) <==> pl == place
    ensures Homes(s')
  {
    hide Located;
  }

  lemma HomesSame(s: State, s': State)
    requires Homes(s) && s'.home == s.home && forall b: nat, pl :: Located(s', b, pl) <==> Located(s, b, pl)
    ensures Homes(s')
  {
    hide Located;
  }

  /** Which block a step moves, if any. */
  function MovedBlock(s: State, m: Move): int
    requires Shape(s) && Enabled(s, m)
  {
    match m
    case FromPool(p) => if s.poolIndex < s.poolSize then s.poolIndex else -1
    case FromFree(_, b) => b
    case NewBlock(_) => |s.home|
    case Enter(_, b) => b
    case TakeBack(p) => s.producers[p].entries[s.producers[p].next - 1]
    case GiveBack(_, b) => b
    case Clear(c) => s.consumers[c].block
    case AddFree(c) => s.consumers[c].block
    case _ => -1
  }

  function NewPlace(s: State, m: Move): Place
    requires Shape(s) && Enabled(s, m)
  {
    match m
    case FromPool(p) => InHand(p)
    case FromFree(p, _) => InHand(p)
    case NewBlock(p) => InHand(p)
    case Enter(p, _) => Leased(p, s.producers[p].next)
    case TakeBack(p) => InHand(p)
    case Clear(c) => InReturn(c)
    case _ => InFreeList
  }

  ghost predicate Sound(s: State) {
    && Shape(s) && Homes(s)
    && (forall p | 0 <= p < |s.producers| :: ProducerOk(s.producers[p], s.emptied, s.size))
    && (forall c | 0 <= c < |s.consumers| :: ConsumerOk(s, c))
  }

  predicate ByConsumer(m: Move) { m.Claim? || m.LookUp? || m.Complete? || m.Clear? || m.AddFree? }

  lemma LocatedProducer(s: State, m: Move, b: nat, place: Place)
    requires Sound(s) && Enabled(s, m) && !ByConsumer(m)
    ensures Located(Step(s, m), b, place) <==>
            if b == MovedBlock(s, m) then place == NewPlace(s, m) else Located(s, b, place)
  {
    hide First, BlockNo, Emptied, Range, Count, Homes, ProducerOk;
    HomeIs(s, b, place);
    if MovedBlock(s, m) >= 0 && !m.NewBlock? { HomeIs(s, MovedBlock(s, m), OldPlace(s, m)); }
    if m.Enter? { NextFree(s, m.p); }
  }

  lemma LocatedConsumer(s: State, m: Move, b: nat, place: Place)
    requires Sound(s) && Enabled(s, m) && ByConsumer(m)
    ensures Located(Step(s, m), b, place) <==>
            if b == MovedBlock(s, m) then place == NewPlace(s, m) else Located(s, b, place)
  {
    hide First, BlockNo, Emptied, Range, Count, Homes, ProducerOk;
    HomeIs(s, b, place);
    if MovedBlock(s, m) >= 0 { HomeIs(s, MovedBlock(s, m), OldPlace(s, m)); }
    if m.Clear? { assert ConsumerOk(s, m.c); }
  }

  lemma HomeIs(s: State, b: nat, place: Place)
    requires Homes(s)
    ensures Located(s, b, place) ==> b < |s.home| && s.home[b] == place
  {
  }

  lemma NextFree(s: State, p: nat)
    requires Sound(s) && p < |s.producers|
    ensures s.producers[p].next !in s.producers[p].entries
  {
    assert ProducerOk(s.producers[p], s.emptied, s.size);
  }

  function OldPlace(s: State, m: Move): Place
    requires Shape(s) && Enabled(s, m)
  {
    match m
    case FromPool(_) => InPool
    case FromFree(_, _) => InFreeList
    case Enter(p, _) => InHand(p)
    case TakeBack(p) => Leased(p, s.producers[p].next - 1)
    case GiveBack(p, _) => InHand(p)
    case Clear(c) => Leased(s.consumers[c].p, s.consumers[c].k)
    case AddFree(c) => InReturn(c)
    case _ => InPool
  }

  lemma HomeFrame(s: State, m: Move)
    requires Shape(s) && Enabled(s, m)
    ensures var b, home := MovedBlock(s, m), Step(s, m).home;
            && (m.NewBlock? ==> b == |s.home| && home == s.home + [NewPlace(s, m)])
            && (!m.NewBlock? && 0 <= b < |s.home| ==> home == s.home[b := NewPlace(s, m)])
            && (b < 0 ==> home == s.home)
            && (!m.NewBlock? ==> b < |s.home|)
  {
    hide First, BlockNo, Emptied, Range;
  }

  lemma StepHomes(s: State, m: Move)
    requires Sound(s) && Enabled(s, m)
    ensures Homes(Step(s, m))
  {
    hide Located, Step, Enabled, MovedBlock, NewPlace, ProducerOk, ConsumerOk, Homes;
    var s', b := Step(s, m), MovedBlock(s, m);
    HomeFrame(s, m);
    forall c: nat, pl ensures Located(s', c, pl) <==> if c == b then pl == NewPlace(s, m) else Located(s, c, pl) {
      if ByConsumer(m) { LocatedConsumer(s, m, c, pl); } else { LocatedProducer(s, m, c, pl); }
    }
    if m.NewBlock? {
      HomesAdded(s, s', NewPlace(s, m));
    } else if b < 0 {
      HomesSame(s, s');
    } else {
      HomesMoved(s, s', b, NewPlace(s, m));
    }
  }

  lemma HomesAdded(s: State, s': State, place: Place)
    requires Homes(s) && s'.home == s.home + [place]
    requires forall c: nat, pl | c != |s.home| :: Located(s', c, pl) <==> Located(s, c, pl)
    requires forall pl :: Located(s', |s.home|, pl) <==> pl == place
    ensures Homes(s')
  {
    hide Located;
  }

  // ---------------------------------------------------------------- producers

  lemma SameEmptied(q: Producer, emptied: seq<nat>, emptied': seq<nat>, size: nat)
    requires ProducerOk(q, emptied, size) && |emptied'| >= |emptied|
    requires forall k | k in q.entries && q.entries[k] < |emptied| :: emptied'[q.entries[k]] == emptied[q.entries[k]]
    ensures ProducerOk(q, emptied', size)
  {
    hide Emptied, First;
  }

  /** A producer that does not lease block `b` does not mind what becomes of its counter. */
  lemma NotMine(s: State, p: nat, b: nat, place: Place)
    requires Sound(s) && p < |s.producers| && Located(s, b, place) && (place.Leased? ==> place.p != p)
    ensures forall k | k in s.producers[p].entries :: s.producers[p].entries[k] != b
  {
    hide Homes, ProducerOk, ConsumerOk;
    forall k | k in s.producers[p].entries ensures s.producers[p].entries[k] != b {
      HomeIs(s, b, place);
      HomeIs(s, b, Leased(p, k));
    }
  }

  lemma EnterOk(q: Producer, emptied: seq<nat>, size: nat, b: nat)
    requires ProducerOk(q, emptied, size) && size > 0 && b < |emptied| && forall k | k in q.entries :: q.entries[k] != b
    ensures ProducerOk(q.(hand := q.hand - {b}, entries := q.entries[q.next := b], next := q.next + 1), emptied[b := 0], size)
    ensures Emptied(q, q.next, size) == 0
  {
    FirstNext(q.next, size);
    hide First;
    CountNone(q.done, First(q.next, size), size);
    hide Count;
  }

  lemma CompleteOk(q: Producer, emptied: seq<nat>, size: nat, at: nat, end: nat, k: nat)
    requires ProducerOk(q, emptied, size) && size > 0 && k in q.entries && at <= end <= q.head
    requires First(k, size) <= at && end <= First(k, size) + size && forall i | at <= i < end :: i !in q.done
    requires forall j | j in q.entries && j != k :: q.entries[j] != q.entries[k]
    ensures var q' := q.(done := q.done + Range(at, end));
            var b := q.entries[k];
            && Emptied(q', k, size) == emptied[b] + (end - at)
            && ProducerOk(q', emptied[b := emptied[b] + (end - at)], size)
  {
    var q' := q.(done := q.done + Range(at, end));
    forall j: nat ensures Emptied(q', j, size) == Emptied(q, j, size) + (if j == k then end - at else 0) {
      EmptiedMore(q, j, k, size, at, end);
    }
    hide Emptied, First;
  }

  lemma EmptiedMore(q: Producer, j: nat, k: nat, size: nat, at: nat, end: nat)
    requires size > 0 && at <= end && First(k, size) <= at && end <= First(k, size) + size
    requires forall i | at <= i < end :: i !in q.done
    ensures Emptied(q.(done := q.done + Range(at, end)), j, size) == Emptied(q, j, size) + (if j == k then end - at else 0)
  {
    hide First;
    if j < k { FirstOrder(j, k, size); } else if k < j { FirstOrder(k, j, size); }
    CountMore(q.done, First(j, size), size, at, end);
  }

  /** The producer a step belongs to. */
  function Whose(s: State, m: Move): nat
    requires Shape(s) && Enabled(s, m)
  {
    match m
    case FromPool(p) => p
    case FromFree(p, _) => p
    case NewBlock(p) => p
    case Enter(p, _) => p
    case TakeBack(p) => p
    case GiveBack(p, _) => p
    case Publish(p, _) => p
    case Claim(_, p, _) => p
    case LookUp(c) => s.consumers[c].p
    case Complete(c) => s.consumers[c].p
    case Clear(c) => s.consumers[c].p
    case AddFree(c) => s.consumers[c].p
  }

  lemma StepFrame(s: State, m: Move)
    requires Shape(s) && Enabled(s, m)
    ensures var s', p := Step(s, m), Whose(s, m);
            && Shape(s') && p < |s.producers| == |s'.producers| && |s'.consumers| == |s.consumers| && s'.size == s.size
            && |s'.emptied| >= |s.emptied|
            && (forall r: nat | r < |s.producers| && r != p :: s'.producers[r] == s.producers[r])
            && (!ByConsumer(m) ==> s'.consumers == s.consumers)
            && (ByConsumer(m) ==> m.c < |s.consumers| && forall c: nat | c < |s.consumers| && c != m.c :: s'.consumers[c] == s.consumers[c])
            && (!(m.Enter? || m.Complete?) ==> forall b: nat | b < |s.emptied| :: s'.emptied[b] == s.emptied[b])
  {
    hide First, BlockNo, Range;
  }

  lemma OtherProducers(s: State, m: Move, r: nat)
    requires Sound(s) && Enabled(s, m) && r < |s.producers| && r != Whose(s, m)
    ensures r < |Step(s, m).producers| && Step(s, m).producers[r] == s.producers[r]
    ensures ProducerOk(Step(s, m).producers[r], Step(s, m).emptied, s.size)
  {
    hide First, BlockNo, Range, Emptied, ProducerOk, Homes, Shape;
    var s', q := Step(s, m), s.producers[r];
    StepFrame(s, m);
    assert ProducerOk(q, s.emptied, s.size);
    if m.Enter? {
      NotMine(s, r, m.b, InHand(m.p));
    } else if m.Complete? {
      assert ConsumerOk(s, m.c);
      var x := s.consumers[m.c];
      NotMine(s, r, x.block, Leased(x.p, BlockNo(x.at, s.size)));
    }
    SameEmptied(q, s.emptied, s'.emptied, s.size);
  }

  lemma OwnProducer(s: State, m: Move)
    requires Sound(s) && Enabled(s, m) && !m.Complete?
    ensures Shape(Step(s, m)) && Whose(s, m) < |Step(s, m).producers|
    ensures ProducerOk(Step(s, m).producers[Whose(s, m)], Step(s, m).emptied, s.size)
  {
    hide First, BlockNo, Range, Count, Homes;
    var p := Whose(s, m);
    StepFrame(s, m);
    var q := s.producers[p];
    assert ProducerOk(q, s.emptied, s.size);
    match m
    case NewBlock(_) => SameEmptied(q, s.emptied, Step(s, m).emptied, s.size);
    case Enter(_, b) => NotMine(s, p, b, InHand(p)); EnterOk(q, s.emptied, s.size, b);
    case TakeBack(_) => TakeBackOk(q, s.emptied, s.size);
    case Clear(c) => assert ConsumerOk(s, c); ClearOk(q, s.emptied, s.size, s.consumers[c].k);
    case _ =>
  }

  lemma TakeBackOk(q: Producer, emptied: seq<nat>, size: nat)
    requires size > 0 && ProducerOk(q, emptied, size) && q.next > 0 && First(q.next - 1, size) >= q.tail
    ensures ProducerOk(q.(hand := q.hand + {q.entries[q.next - 1]}, entries := q.entries - {q.next - 1}, next := q.next - 1), emptied, size)
  {
    hide First, Count;
  }

  lemma ClearOk(q: Producer, emptied: seq<nat>, size: nat, k: nat)
    requires ProducerOk(q, emptied, size) && k in q.entries && Emptied(q, k, size) == size
    ensures ProducerOk(q.(entries := q.entries - {k}), emptied, size)
  {
    hide First, Count;
  }

  /** Other entries of the same producer have other blocks. */
  lemma EntriesApart(s: State, p: nat, k: nat)
    requires Sound(s) && p < |s.producers| && k in s.producers[p].entries
    ensures forall j | j in s.producers[p].entries && j != k :: s.producers[p].entries[j] != s.producers[p].entries[k]
  {
    hide Homes, ProducerOk, ConsumerOk;
    forall j | j in s.producers[p].entries && j != k ensures s.producers[p].entries[j] != s.producers[p].entries[k] {
      HomeIs(s, s.producers[p].entries[j], Leased(p, j));
      HomeIs(s, s.producers[p].entries[k], Leased(p, k));
    }
  }

  /** The facts about emptying some slots. */
  lemma Completing(s: State, c: nat)
    requires Sound(s) && Enabled(s, Complete(c))
    ensures var s', x := Step(s, Complete(c)), s.consumers[c];
            var q, k := s.producers[x.p], BlockNo(x.at, s.size);
            && Shape(s') && x.p < |s'.producers| && s'.producers[x.p] == q.(done := q.done + Range(x.at, x.end))
            && ProducerOk(s'.producers[x.p], s'.emptied, s.size)
            && k in q.entries && Emptied(q, k, s.size) < s.size
            && Emptied(s'.producers[x.p], k, s.size) == s.emptied[x.block] + (x.end - x.at)
            && (forall j: nat | j != k :: Emptied(s'.producers[x.p], j, s.size) == Emptied(q, j, s.size))
  {
    hide First, Homes;
    StepFrame(s, Complete(c));
    assert ConsumerOk(s, c);
    var x := s.consumers[c];
    var q, k := s.producers[x.p], BlockNo(x.at, s.size);
    assert ProducerOk(q, s.emptied, s.size);
    EntriesApart(s, x.p, k);
    CountAll(q.done, First(k, s.size), s.size);
    hide ProducerOk, Count, Emptied, BlockNo;
    CompleteOk(q, s.emptied, s.size, x.at, x.end, k);
    forall j: nat | j != k ensures Emptied(q.(done := q.done + Range(x.at, x.end)), j, s.size) == Emptied(q, j, s.size) {
      EmptiedMore(q, j, k, s.size, x.at, x.end);
    }
    assert x.block == q.entries[k];
  }

  // ---------------------------------------------------------------- consumers

  lemma OtherConsumers(s: State, m: Move, c: nat)
    requires Sound(s) && Disjoint(s) && Enabled(s, m) && c < |s.consumers| && (ByConsumer(m) ==> c != m.c)
    ensures Shape(Step(s, m)) && c < |Step(s, m).consumers| && ConsumerOk(Step(s, m), c)
  {
    StepFrame(s, m);
    hide Homes, Disjoint, Step, Enabled;
    var x := s.consumers[c];
    assert ConsumerOk(s, c);
    if !x.Idle? {
      if x.p == Whose(s, m) {
        ConsumerStays(s, m, c);
      }
    }
  }

  /** A block whose entry is taken back holds no index that has been claimed. */
  lemma NotTakenBack(s: State, p: nat, x: Consumer)
    requires Shape(s) && Enabled(s, TakeBack(p)) && !x.Idle? && x.p == p
    requires ProducerOk(s.producers[p], s.emptied, s.size) && ConsumerFits(x, s.producers[p], s.size)
    ensures p < |Step(s, TakeBack(p)).producers| && ConsumerFits(x, Step(s, TakeBack(p)).producers[p], s.size)
  {
    if x.Clearing? { EmptiedIsPast(s.producers[p], s.emptied, x.k, s.size); }
    hide Count, Emptied, First, BlockNo;
  }

  /** A step takes nothing from a consumer that is busy with the same producer. */
  lemma ConsumerStays(s: State, m: Move, c: nat)
    requires Sound(s) && Disjoint(s) && Enabled(s, m) && c < |s.consumers| && (ByConsumer(m) ==> c != m.c)
    requires !s.consumers[c].Idle? && s.consumers[c].p == Whose(s, m)
    ensures s.consumers[c].p < |Step(s, m).producers|
    ensures ConsumerFits(s.consumers[c], Step(s, m).producers[s.consumers[c].p], s.size)
  {
    var x := s.consumers[c];
    var q := s.producers[x.p];
    assert ConsumerOk(s, c) && ProducerOk(q, s.emptied, s.size);
    hide Homes, First, BlockNo, Count, ConsumerOk;
    match m
    case TakeBack(_) => NotTakenBack(s, m.p, x);
    case Complete(d) =>
      Completing(s, d);
      assert ConsumerOk(s, d);
      Clash(s, c, d);
      NotCompleted(x, s.consumers[d], q, s.size);
      hide ConsumerFits, ProducerOk;
    case Clear(d) => assert ConsumerOk(s, d); Clash(s, c, d); NotCleared(x, s.consumers[d], q, s.size);
    case _ =>
  }

  lemma Clash(s: State, c: nat, d: nat)
    requires Disjoint(s) && c < |s.consumers| && d < |s.consumers| && c != d
    ensures NoClash(s.consumers[c], s.consumers[d])
  {
    if c < d { assert NoClash(s.consumers[c], s.consumers[d]); } else { assert NoClash(s.consumers[d], s.consumers[c]); }
  }

  /** A block whose slots are all empty lies before the head. */
  lemma EmptiedIsPast(q: Producer, emptied: seq<nat>, k: nat, size: nat)
    requires size > 0 && ProducerOk(q, emptied, size) && Emptied(q, k, size) == size
    ensures First(k, size) + size <= q.head && forall i | First(k, size) <= i < First(k, size) + size :: i in q.done
  {
    CountAll(q.done, First(k, size), size);
    hide Count, First;
    assert First(k, size) + size - 1 in q.done;
  }

  lemma NotCompleted(x: Consumer, y: Consumer, q: Producer, size: nat)
    requires size > 0 && !x.Idle? && y.Reading? && x.p == y.p && RangesApart(x, y)
    requires ConsumerFits(x, q, size) && ConsumerFits(y, q, size)
    ensures ConsumerFits(x, q.(done := q.done + Range(y.at, y.end)), size)
  {
    hide First, BlockNo;
    if x.Clearing? {
      CountAll(q.done, First(x.k, size), size);
      CountAll(q.done + Range(y.at, y.end), First(x.k, size), size);
    }
    hide Count;
  }

  lemma NotCleared(x: Consumer, y: Consumer, q: Producer, size: nat)
    requires size > 0 && !x.Idle? && y.Clearing? && x.p == y.p && NoClash(x, y)
    requires ConsumerFits(x, q, size) && ConsumerFits(y, q, size)
    ensures ConsumerFits(x, q.(entries := q.entries - {y.k}), size)
  {
    hide First;
    CountAll(q.done, First(y.k, size), size);
    hide Count;
    assert x.Reading? ==> x.at !in q.done;
  }

  lemma OwnConsumer(s: State, m: Move)
    requires Sound(s) && Enabled(s, m) && ByConsumer(m)
    ensures Shape(Step(s, m)) && m.c < |Step(s, m).consumers| && ConsumerOk(Step(s, m), m.c)
  {
    StepFrame(s, m);
    hide Homes, First, Count;
    assert ConsumerOk(s, m.c);
    match m
    case Claim(_, p, _) => assert ProducerOk(s.producers[p], s.emptied, s.size);
    case Complete(c) => OwnComplete(s, c);
    case _ =>
  }

  lemma OwnComplete(s: State, c: nat)
    requires Sound(s) && Enabled(s, Complete(c))
    ensures Shape(Step(s, Complete(c))) && c < |Step(s, Complete(c)).consumers| && ConsumerOk(Step(s, Complete(c)), c)
  {
    StepFrame(s, Complete(c));
    assert ConsumerOk(s, c);
    Completing(s, c);
    hide Homes, First, Count, ProducerOk, BlockNo;
  }

  /** The index a consumer comes to always has its block in the index. */
  lemma AlwaysFound(s: State, c: nat)
    requires Sound(s) && c < |s.consumers| && s.consumers[c].Working?
    ensures CanLookUp(s, c)
  {
    hide Homes;
    var x := s.consumers[c];
    var q := s.producers[x.p];
    assert ConsumerOk(s, c) && ProducerOk(q, s.emptied, s.size);
    BlockBelow(x.at, q.next, s.size);
    var k := BlockNo(x.at, s.size);
    hide First, BlockNo;
    CountAll(q.done, First(k, s.size), s.size);
    assert x.at !in q.done;
  }

  // ---------------------------------------------------------------- no clash, no leak

  /** A consumer's step gives it no index that another one owns and no block that another one clears. */
  lemma NoNewClash(s: State, m: Move, d: nat)
    requires Inv(s) && Enabled(s, m) && ByConsumer(m) && d < |s.consumers| && d != m.c
    ensures m.c < |Step(s, m).consumers| && NoClash(s.consumers[d], Step(s, m).consumers[m.c])
  {
    hide Homes, First, BlockNo, Count, NoLeak, ProducerOk, Emptied, Range;
    StepFrame(s, m);
    assert ConsumerOk(s, d) && ConsumerOk(s, m.c);
    Clash(s, d, m.c);
    if m.Complete? {
      CompletersApart(s, m.c, d);
    }
    hide Disjoint;
  }

  /** The indices that are left are some of those there were, and no other consumer is clearing the block. */
  lemma CompletersApart(s: State, c: nat, d: nat)
    requires Sound(s) && Enabled(s, Complete(c)) && d < |s.consumers| && d != c
    requires NoClash(s.consumers[d], s.consumers[c])
    ensures c < |Step(s, Complete(c)).consumers| && NoClash(s.consumers[d], Step(s, Complete(c)).consumers[c])
  {
    Completing(s, c);
    assert ConsumerOk(s, d) && ConsumerOk(s, c);
    hide Homes, First, BlockNo, Count, ProducerOk, Emptied, Range, ConsumerOk;
  }

  lemma StepDisjoint(s: State, m: Move)
    requires Inv(s) && Enabled(s, m)
    ensures Disjoint(Step(s, m))
  {
    StepFrame(s, m);
    var s' := Step(s, m);
    hide Homes, NoLeak, Step, Enabled, ConsumerOk, ProducerOk, NoClash;
    forall c, d | 0 <= c < d < |s'.consumers| ensures NoClash(s'.consumers[c], s'.consumers[d]) {
      assert NoClash(s.consumers[c], s.consumers[d]);
      if ByConsumer(m) && c == m.c {
        NoNewClash(s, m, d);
      } else if ByConsumer(m) && d == m.c {
        NoNewClash(s, m, c);
      }
    }
  }

  ghost predicate BeingCleared(s: State, p: nat, k: nat) {
    exists c :: 0 <= c < |s.consumers| && s.consumers[c].Clearing? && s.consumers[c].p == p && s.consumers[c].k == k
  }

  lemma StepNoLeak(s: State, m: Move)
    requires Inv(s) && Enabled(s, m)
    ensures Shape(Step(s, m)) && NoLeak(Step(s, m))
  {
    StepFrame(s, m);
    var s' := Step(s, m);
    hide Homes, Disjoint, Step, Enabled, ConsumerOk, ProducerOk, Emptied;
    forall p, k | 0 <= p < |s'.producers| && k in s'.producers[p].entries && Emptied(s'.producers[p], k, s.size) == s.size
      ensures BeingCleared(s', p, k)
    {
      WasFull(s, m, p, k);
      if !(m.Complete? && s'.consumers[m.c].Clearing? && s'.consumers[m.c].p == p && s'.consumers[m.c].k == k) {
        var c :| 0 <= c < |s.consumers| && s.consumers[c].Clearing? && s.consumers[c].p == p && s.consumers[c].k == k;
        assert s'.consumers[c] == s.consumers[c];
      }
    }
  }

  /** An entry whose slots are all empty after a step had them all empty before, or the step was the one that
      emptied the last; and a step ends a consumer's clearing only by taking the entry away. */
  lemma WasFull(s: State, m: Move, p: nat, k: nat)
    requires Inv(s) && Enabled(s, m) && Shape(Step(s, m)) && p < |Step(s, m).producers|
    requires k in Step(s, m).producers[p].entries && Emptied(Step(s, m).producers[p], k, s.size) == s.size
    ensures p < |s.producers|
    ensures m.Complete? ==> m.c < |Step(s, m).consumers| == |s.consumers|
    ensures (m.Complete? && Step(s, m).consumers[m.c].Clearing? && Step(s, m).consumers[m.c].p == p && Step(s, m).consumers[m.c].k == k)
         || (k in s.producers[p].entries && Emptied(s.producers[p], k, s.size) == s.size)
    ensures ByConsumer(m) && m.c < |s.consumers| && s.consumers[m.c].Clearing? ==> !(s.consumers[m.c].p == p && s.consumers[m.c].k == k)
  {
    StepFrame(s, m);
    hide Homes, First, Count, NoLeak, Disjoint;
    assert ProducerOk(s.producers[p], s.emptied, s.size);
    if m.Complete? {
      Completing(s, m.c);
      hide Emptied, ProducerOk;
    } else if m.Enter? {
      NotMine(s, m.p, m.b, InHand(m.p));
      EnterOk(s.producers[m.p], s.emptied, s.size, m.b);
    }
  }

  lemma StepKeepsInv(s: State, m: Move)
    requires Inv(s) && Enabled(s, m)
    ensures Inv(Step(s, m))
  {
    hide Homes, Disjoint, NoLeak, ConsumerOk, ProducerOk, Step, Enabled;
    StepFrame(s, m);
    StepHomes(s, m);
    StepDisjoint(s, m);
    StepNoLeak(s, m);
    var s' := Step(s, m);
    forall p | 0 <= p < |s'.producers| ensures ProducerOk(s'.producers[p], s'.emptied, s'.size) {
      if p != Whose(s, m) { OtherProducers(s, m, p); }
      else if m.Complete? { CompletingOwn(s, m.c); }
      else { OwnProducer(s, m); }
    }
    forall c | 0 <= c < |s'.consumers| ensures ConsumerOk(s', c) {
      if ByConsumer(m) && c == m.c { OwnConsumer(s, m); } else { OtherConsumers(s, m, c); }
    }
  }

  lemma CompletingOwn(s: State, c: nat)
    requires Sound(s) && Enabled(s, Complete(c))
    ensures var s', p := Step(s, Complete(c)), Whose(s, Complete(c));
            p < |s'.producers| && ProducerOk(s'.producers[p], s'.emptied, s.size)
  {
    Completing(s, c);
  }

  // ---------------------------------------------------------------- whole runs

  ghost function Exec(s: State, moves: seq<Move>): (s': State)
    requires Inv(s)
    ensures Inv(s')
    decreases |moves|
  {
    if moves == [] then s
    else if Enabled(s, moves[0]) then StepKeepsInv(s, moves[0]); Exec(Step(s, moves[0]), moves[1..])
    else Exec(s, moves[1..])
  }

  lemma StartInv(size: nat, poolSize: nat, producers: nat, consumers: nat)
    requires size > 0
    ensures Inv(Start(size, poolSize, producers, consumers))
  {
    var s := Start(size, poolSize, producers, consumers);
    hide First;
  }

  ghost function Run(size: nat, poolSize: nat, producers: nat, consumers: nat, moves: seq<Move>): (s: State)
    requires size > 0
    ensures Inv(s)
  {
    StartInv(size, poolSize, producers, consumers);
    Exec(Start(size, poolSize, producers, consumers), moves)
  }

  /** After any run every block is in exactly one place: the initial pool, the free list, one producer's hand,
      one live index entry of one producer, or one consumer's hands on its way to the free list. */
  lemma ExactlyOnePlace(size: nat, poolSize: nat, producers: nat, consumers: nat, moves: seq<Move>, b: nat)
    requires size > 0
    ensures var s := Run(size, poolSize, producers, consumers, moves);
            b < |s.home| ==> exists place :: Located(s, b, place) && forall other | Located(s, b, other) :: other == place
  {
    var s := Run(size, poolSize, producers, consumers, moves);
    hide Run, Located;
    if b < |s.home| { assert Located(s, b, s.home[b]); }
  }

  /** When a consumer takes a block out of the index, every element of the block has been read. */
  lemma FreedNotEarly(s: State, c: nat)
    requires Inv(s) && c < |s.consumers| && s.consumers[c].Clearing?
    ensures var x := s.consumers[c];
            var from := First(x.k, s.size);
            && (forall j | from <= j < from + s.size :: j in s.producers[x.p].done)
            && from + s.size <= s.producers[x.p].head
  {
    var x := s.consumers[c];
    assert ConsumerOk(s, c) && ProducerOk(s.producers[x.p], s.emptied, s.size);
    hide Homes, NoLeak, Disjoint;
    EmptiedIsPast(s.producers[x.p], s.emptied, x.k, s.size);
  }

  /** And no consumer, itself included, still owns an index in it. */
  lemma FreedUnowned(s: State, c: nat, d: nat, i: nat)
    requires Inv(s) && c < |s.consumers| && s.consumers[c].Clearing?
    requires d < |s.consumers| && !s.consumers[d].Idle? && s.consumers[d].p == s.consumers[c].p
    requires s.consumers[d].at <= i < s.consumers[d].to
    ensures var from := First(s.consumers[c].k, s.size); !(from <= i < from + s.size)
  {
    FreedNotEarly(s, c);
    assert ConsumerOk(s, d);
    hide Homes, NoLeak, Disjoint, First, Emptied, BlockNo;
    assert i !in s.producers[s.consumers[c].p].done;
  }

  /** A block on its way to the free list is not there already. */
  lemma FreedNotFree(s: State, c: nat)
    requires Inv(s) && c < |s.consumers| && (s.consumers[c].Clearing? || s.consumers[c].Returning?)
    ensures s.consumers[c].block !in s.free
  {
    assert ConsumerOk(s, c);
    hide NoLeak, Disjoint, ProducerOk, First, Emptied, BlockNo;
    var x := s.consumers[c];
    HomeIs(s, x.block, InFreeList);
    HomeIs(s, x.block, if x.Clearing? then Leased(x.p, x.k) else InReturn(c));
  }

  /** Nor is anybody else about to take it out or to put it there. */
  lemma FreedOnce(s: State, c: nat, d: nat)
    requires Inv(s) && c < |s.consumers| && d < |s.consumers| && c != d
    requires s.consumers[c].Clearing? || s.consumers[c].Returning?
    requires s.consumers[d].Clearing? || s.consumers[d].Returning?
    ensures s.consumers[d].block != s.consumers[c].block
  {
    assert ConsumerOk(s, c) && ConsumerOk(s, d);
    Clash(s, c, d);
    hide Homes, NoLeak, Disjoint, ProducerOk, First, Emptied, BlockNo;
    var x, y := s.consumers[c], s.consumers[d];
    HomeIs(s, x.block, if x.Clearing? then Leased(x.p, x.k) else InReturn(c));
    HomeIs(s, y.block, if y.Clearing? then Leased(y.p, y.k) else InReturn(d));
  }

  /** The assertions of `set_many_empty` hold, and the answer is yes exactly for the last slots. */
  lemma SetManyEmptyCounts(s: State, c: nat)
    requires Inv(s) && Enabled(s, Complete(c))
    ensures var x := s.consumers[c];
            var k, total := BlockNo(x.at, s.size), s.emptied[x.block] + (x.end - x.at);
            && x.p < |s.producers| && s.emptied[x.block] < s.size && total <= s.size
            && (total == s.size <==> forall i | First(k, s.size) <= i < First(k, s.size) + s.size ::
                                       i in s.producers[x.p].done || x.at <= i < x.end)
  {
    Completing(s, c);
    var x := s.consumers[c];
    var q := s.producers[x.p];
    var k := BlockNo(x.at, s.size);
    assert ConsumerOk(s, c) && ProducerOk(q, s.emptied, s.size);
    CountAll(q.done + Range(x.at, x.end), First(k, s.size), s.size);
    hide First, Homes, NoLeak, Disjoint;
  }

  /** A block that a consumer has looked up is the one leased for its indices, and is not free. */
  lemma ReadsItsOwnBlock(s: State, c: nat)
    requires Inv(s) && c < |s.consumers| && s.consumers[c].Reading?
    ensures var x := s.consumers[c]; Located(s, x.block, Leased(x.p, BlockNo(x.at, s.size))) && x.block !in s.free
  {
    var x := s.consumers[c];
    assert ConsumerOk(s, c);
    HomeIs(s, x.block, Leased(x.p, BlockNo(x.at, s.size)));
    HomeIs(s, x.block, InFreeList);
  }
}
