/** In every reachable state of `SharedQueue` each machine gets from the others what it takes for granted. */
module SharedQueueProof {
  import opened SharedQueue
  import opened Slots
  import T = DequeueTickets
  import TP = DequeueTicketsProof
  import L = BlockLeases
  import LP = BlockLeasesProof
  import X = BlockLookup
  import XP = BlockLookupProof

  /** What the invariant is made of. */
  lemma Basics<E>(s: State<E>)
    requires Fits(s)
    ensures Sizes(s) && Machines(s) && Producers(s) && Consumers(s)
    ensures s.leases.size > 0 && |s.subs| == |s.leases.producers| && |s.reading| == |s.leases.consumers|
    ensures L.Inv(s.leases) && L.Shape(s.leases) && L.Homes(s.leases)
  {
    hide Producers, Consumers, L.NoLeak, L.Disjoint, L.Homes, L.ProducerOk, L.ConsumerOk, T.Inv, X.Inv, SubSizes;
  }

  lemma SubBasics<E>(s: State<E>, p: nat)
    requires Fits(s) && p < |s.subs|
    ensures SubSizes(s.subs[p], s.leases.size, |s.reading|)
    ensures T.Inv(s.subs[p].tickets) && X.Inv(s.subs[p].index) && X.Shape(s.subs[p].index)
  {
    hide Producers, Consumers, L.Inv, L.Shape, T.Inv, X.Readers, X.Distinct, X.Keyed, X.Filled, X.ProducerOk, X.Shape;
  }

  lemma FiresWhose<E>(s: State<E>, m: Move<E>)
    requires Sizes(s) && Machines(s) && Fires(s, m)
    ensures Whose(s, m) < |s.subs|
  {
    hide Whose, Sizes, Machines, LeaseMove, IndexMove, TicketMove, SlotReady, BlockReady;
  }

  // ---------------------------------------------------------------- indices and entries

  /** An index that is not done with has its block in the index. */
  lemma UndoneHasBlock(q: L.Producer, emptied: seq<nat>, size: nat, i: nat)
    requires size > 0 && L.ProducerOk(q, emptied, size) && i < First(q.next, size) && i !in q.done
    ensures BlockNo(i, size) in q.entries
  {
    LP.BlockBelow(i, q.next, size);
    LP.CountAll(q.done, First(BlockNo(i, size), size), size);
    hide First, BlockNo, L.Count;
  }

  lemma EntryLive(x: X.State, k: nat)
    requires X.Structure(x) && HasEntry(x, k) && k < x.published
    ensures X.Live(x, k) && X.EntryOf(x, k) == EntryAt(x, k)
  {
    XP.RunBounds(x);
    hide X.Order, X.Shape, X.Keyed, X.Filled, X.Distinct;
  }

  /** An index that has been published and is not done with has a live entry, which points at its block. */
  lemma IndexLive<E>(s: State<E>, p: nat, i: nat)
    requires Sizes(s) && Machines(s) && Producers(s) && p < |s.subs|
    requires i < s.leases.producers[p].tail && i !in s.leases.producers[p].done
    ensures BlockNo(i, s.leases.size) in s.leases.producers[p].entries
    ensures var x, k := s.subs[p].index, BlockNo(i, s.leases.size);
            && X.Live(x, k) && X.EntryOf(x, k) < |s.subs[p].values|
            && s.subs[p].values[X.EntryOf(x, k)] == s.leases.producers[p].entries[k]
  {
    var q, sub, size := s.leases.producers[p], s.subs[p], s.leases.size;
    assert L.ProducerOk(q, s.leases.emptied, size) && ProducerFits(q, sub, size);
    hide L.Homes, L.Disjoint, L.NoLeak, X.Shape, X.Order, X.Readers;
    UndoneHasBlock(q, s.leases.emptied, size, i);
    LP.BlockBelow(i, sub.index.published, size);
    hide BlockNo, First;
    EntryLive(sub.index, BlockNo(i, size));
  }

  // ---------------------------------------------------------------- every step can be taken

  lemma BlocksOf(from: nat, to: nat, size: nat, j: nat) returns (i: nat)
    requires size > 0 && from < to && BlockNo(from, size) <= j <= BlockNo(to - 1, size)
    ensures from <= i < to && BlockNo(i, size) == j
  {
    var k := BlockNo(from, size);
    FirstZero(size);
    i := if j == k then from else First(j, size);
    Joins(j, 0, size);
    FirstOrder(k, j, size);
    FirstOrder(j, BlockNo(to - 1, size), size);
    hide BlockNo, First;
  }

  lemma RangeLive<E>(s: State<E>, p: nat, from: nat, to: nat)
    requires Sizes(s) && Machines(s) && Producers(s) && p < |s.subs| && from < to <= s.leases.producers[p].tail
    requires forall i | from <= i < to :: i !in s.leases.producers[p].done
    ensures X.AllLive(s.subs[p].index, BlockNo(from, s.leases.size), BlockNo(to - 1, s.leases.size))
  {
    var size, x := s.leases.size, s.subs[p].index;
    BlockOrder(from, to - 1, size);
    hide Producers, X.Live, BlockNo;
    forall j: nat | BlockNo(from, size) <= j <= BlockNo(to - 1, size) ensures X.Live(x, j) {
      var i := BlocksOf(from, to, size, j);
      IndexLive(s, p, i);
    }
  }

  lemma BlockOrder(i: nat, j: nat, size: nat)
    requires size > 0 && i <= j
    ensures BlockNo(i, size) <= BlockNo(j, size)
  {
    var k, l := BlockNo(i, size), BlockNo(j, size);
    if l < k { FirstOrder(l, k, size); }
    hide BlockNo, First;
  }

  lemma ClaimFires<E>(s: State<E>, c: nat, p: nat)
    requires Fits(s) && Ready(s, Claim(c, p))
    ensures Fires(s, Claim(c, p))
  {
    assert Sizes(s) && Machines(s) && Producers(s) && p < |s.subs| && c < |s.reading| && s.subs[p].tickets.threads[c].Claim?;
    hide *;
    ClaimOwner(s, c, p);
    ClaimRange(s, c, p);
    var head := s.leases.producers[p].head;
    RangeLive(s, p, head, head + s.subs[p].tickets.threads[c].got);
    ClaimAlone(s, c, p);
  }

  /** A consumer about to claim wants something, owns nothing and looks nothing up. */
  lemma ClaimOwner<E>(s: State<E>, c: nat, p: nat)
    requires Fits(s) && p < |s.subs| && c < |s.reading| && c < |s.subs[p].tickets.threads|
    requires s.subs[p].tickets.threads[c].Claim?
    ensures c < |s.leases.consumers| && s.leases.consumers[c].Idle? && s.subs[p].tickets.threads[c].got > 0
    ensures c < |s.subs[p].index.readers| && s.subs[p].index.readers[c].Idle?
  {
    assert ConsumerFits(s, c) && OneCall(s, c);
    assert ReaderFits(s.leases.consumers[c], p, s.subs[p].index.readers[c], s.leases.size) && Wants(s.subs[p].tickets.threads[c]);
    hide Machines, Producers, BlockNo, TakerOf;
  }

  /** What it claims lies between head and tail, and none of it is done with. */
  lemma ClaimRange<E>(s: State<E>, c: nat, p: nat)
    requires Fits(s) && p < |s.subs| && c < |s.subs[p].tickets.threads| && s.subs[p].tickets.threads[c].Claim?
    ensures p < |s.leases.producers|
    ensures var q, got := s.leases.producers[p], s.subs[p].tickets.threads[c].got;
            && q.head == s.subs[p].tickets.head && q.head + got <= q.tail
            && forall i | q.head <= i < q.head + got :: i !in q.done
  {
    assert ProducerFits(s.leases.producers[p], s.subs[p], s.leases.size);
    assert L.ProducerOk(s.leases.producers[p], s.leases.emptied, s.leases.size);
    hide L.Homes, L.Disjoint, L.NoLeak, L.ConsumerOk, T.Inv, X.Inv, Stored, First, L.Emptied, Consumers;
    TP.HeadNeverPassesTail(s.subs[p].tickets);
  }

  lemma ClaimAlone<E>(s: State<E>, c: nat, p: nat)
    requires Sizes(s) && Machines(s) && p < |s.subs| && c < |s.subs[p].tickets.threads|
    requires s.subs[p].tickets.threads[c].Claim?
    requires var sub, got, head, size := s.subs[p], s.subs[p].tickets.threads[c].got, s.leases.producers[p].head, s.leases.size;
      && c < |s.leases.consumers| && s.leases.consumers[c].Idle? && got > 0
      && c < |sub.index.readers| && sub.index.readers[c].Idle?
      && head == sub.tickets.head && head + got <= s.leases.producers[p].tail
      && X.AllLive(sub.index, BlockNo(head, size), BlockNo(head + got - 1, size))
    ensures Fires(s, Claim(c, p))
  {
    hide L.Inv, T.Inv, X.Inv, X.AllLive, BlockNo;
  }

  lemma InHandHome(s: L.State, p: nat, b: nat)
    requires L.Homes(s) && p < |s.producers| && b in s.producers[p].hand
    ensures b < |s.home|
  {
    assert L.Located(s, b, L.InHand(p));
  }

  lemma LeasedHome(s: L.State, p: nat, k: nat)
    requires L.Homes(s) && p < |s.producers| && k in s.producers[p].entries
    ensures s.producers[p].entries[k] < |s.home| && s.home[s.producers[p].entries[k]] == L.Leased(p, k)
  {
    assert L.Located(s, s.producers[p].entries[k], L.Leased(p, k));
  }

  /** The newest block is in the index, and nothing in it has been published. */
  lemma NewestUnused<E>(q: L.Producer, sub: Sub<E>, emptied: seq<nat>, size: nat)
    requires size > 0 && L.ProducerOk(q, emptied, size) && X.Structure(sub.index) && Joined(q, sub, size)
    requires sub.index.producer.Quiet? && sub.index.next > sub.index.published
    ensures q.next > 0 && First(q.next - 1, size) >= q.tail && q.next - 1 in q.entries
  {
    XP.RunBounds(sub.index);
    FirstOrder(sub.index.published, q.next - 1, size);
    FirstNext(q.next, size);
    Joins(q.next - 1, 0, size);
    hide First, BlockNo, X.Structure, L.Emptied;
    UndoneHasBlock(q, emptied, size, First(q.next - 1, size));
  }

  lemma TakeBackFires<E>(s: State<E>, p: nat)
    requires Fits(s) && Ready(s, TakeBack(p))
    ensures Fires(s, TakeBack(p))
  {
    hide *;
    Basics(s);
    ReadyToTakeBack(s, p);
    ProducerKnown(s, p);
    NewestUnused(s.leases.producers[p], s.subs[p], s.leases.emptied, s.leases.size);
    LeasedHome(s.leases, p, s.leases.producers[p].next - 1);
    TakeBackAlone(s, p);
  }

  lemma ReadyToTakeBack<E>(s: State<E>, p: nat)
    requires Sizes(s) && Machines(s) && Ready(s, TakeBack(p))
    ensures p < |s.subs| && s.subs[p].index.producer.Quiet? && s.subs[p].index.next > s.subs[p].index.published
  {
    hide Sizes, Machines;
  }

  lemma ProducerKnown<E>(s: State<E>, p: nat)
    requires Fits(s) && p < |s.subs|
    ensures p < |s.leases.producers| && L.ProducerOk(s.leases.producers[p], s.leases.emptied, s.leases.size)
    ensures Joined(s.leases.producers[p], s.subs[p], s.leases.size) && X.Structure(s.subs[p].index)
  {
    assert ProducerFits(s.leases.producers[p], s.subs[p], s.leases.size);
    hide L.Homes, L.Disjoint, L.NoLeak, L.ConsumerOk, L.ProducerOk, T.Inv, X.Structure, X.Readers, Stored, Joined, Consumers;
  }

  lemma TakeBackAlone<E>(s: State<E>, p: nat)
    requires Sizes(s) && Machines(s) && p < |s.subs| && s.subs[p].index.producer.Quiet?
    requires s.subs[p].index.next > s.subs[p].index.published
    requires var q := s.leases.producers[p];
      && q.next > 0 && First(q.next - 1, s.leases.size) >= q.tail && q.next - 1 in q.entries && q.entries[q.next - 1] < |s.leases.home|
    ensures Fires(s, TakeBack(p))
  {
    hide L.Inv, T.Inv, X.Structure, X.Readers, First;
  }

  lemma ProducerFires<E>(s: State<E>, m: Move<E>)
    requires Fits(s) && Ready(s, m)
    requires m.Obtain? || m.StoreKey? || m.StoreTail? || m.Grow? || m.StoreValue? || m.DropEntry? || m.Publish? || m.Ask? || m.Count?
    ensures Fires(s, m)
  {
    assert Sizes(s) && Machines(s);
    if m.Publish? { RoomToPublish(s, m.p); }
    if m.StoreValue? { InHandHome(s.leases, m.p, m.b); }
    hide *;
    ProducerAlone(s, m);
  }

  lemma RoomToPublish<E>(s: State<E>, p: nat)
    requires Fits(s) && p < |s.subs|
    ensures p < |s.leases.producers|
    ensures s.leases.producers[p].tail + |s.subs[p].building| <= First(s.leases.producers[p].next, s.leases.size)
  {
    assert ProducerFits(s.leases.producers[p], s.subs[p], s.leases.size);
    hide First, Machines, Consumers, Stored;
  }

  lemma ProducerAlone<E>(s: State<E>, m: Move<E>)
    requires Sizes(s) && Machines(s) && Ready(s, m)
    requires m.Obtain? || m.StoreKey? || m.StoreTail? || m.Grow? || m.StoreValue? || m.DropEntry? || m.Publish? || m.Ask? || m.Count?
    requires m.Publish? ==>
      && m.p < |s.leases.producers|
      && s.leases.producers[m.p].tail + |s.subs[m.p].building| <= First(s.leases.producers[m.p].next, s.leases.size)
    requires m.StoreValue? ==> m.b < |s.leases.home|
    ensures Fires(s, m)
  {
    hide L.Inv, T.Inv, X.Structure, X.Readers, First, X.Order;
  }

  lemma SameBlock(at: nat, i: nat, size: nat)
    requires size > 0 && at <= i < First(BlockNo(at, size), size) + size
    ensures BlockNo(i, size) == BlockNo(at, size)
  {
    BlockOrder(at, i, size);
    LP.BlockBelow(i, BlockNo(at, size) + 1, size);
    FirstNext(BlockNo(at, size), size);
    hide First, BlockNo;
  }

  lemma BuildFires<E>(s: State<E>, p: nat, e: E)
    requires Inv(s) && Ready(s, Build(p, e))
    ensures Fires(s, Build(p, e))
  {
    assert Fits(s) && Sizes(s) && Machines(s) && p < |s.subs| && s.leases.size > 0 && |s.subs| == |s.leases.producers|;
    var i := NextBuilt(s, p);
    assert i < First(s.leases.producers[p].next, s.leases.size);
    NextEmpty(s, p);
    assert HasSlot(s, p, i) && SlotAt(s, p, i) in s.cells ==> Accounted(s, SlotAt(s, p, i));
    hide *;
    SlotDead(s, p, i);
    BuildAlone(s, p, e);
  }

  /** The next index to be built is past the head, and has a slot. */
  lemma NextEmpty<E>(s: State<E>, p: nat)
    requires Fits(s) && p < |s.subs| == |s.leases.producers|
    requires NextBuilt(s, p) < First(s.leases.producers[p].next, s.leases.size)
    ensures s.leases.size > 0 && HasSlot(s, p, NextBuilt(s, p)) && L.Homes(s.leases)
  {
    ProducerKnown(s, p);
    var q, i := s.leases.producers[p], NextBuilt(s, p);
    assert s.leases.size > 0 && L.Homes(s.leases) && i !in q.done;
    hide *;
    UndoneHasBlock(q, s.leases.emptied, s.leases.size, i);
    SlotIs(s, p, i);
  }

  lemma SlotIs<E>(s: State<E>, p: nat, i: nat)
    requires s.leases.size > 0 && p < |s.leases.producers| && BlockNo(i, s.leases.size) in s.leases.producers[p].entries
    ensures HasSlot(s, p, i)
  {
  }

  lemma SlotDead<E>(s: State<E>, p: nat, i: nat)
    requires Sizes(s) && L.Homes(s.leases) && p < |s.subs| == |s.leases.producers| && i == NextBuilt(s, p)
    requires s.leases.size > 0 && HasSlot(s, p, i)
    requires SlotAt(s, p, i) in s.cells ==> Accounted(s, SlotAt(s, p, i))
    ensures SlotAt(s, p, i) !in s.cells
  {
    LeasedHome(s.leases, p, BlockNo(i, s.leases.size));
    Splits(i, s.leases.size);
    hide BlockNo, First, Offset, L.Homes, Gone;
  }

  lemma BuildAlone<E>(s: State<E>, p: nat, e: E)
    requires Sizes(s) && Machines(s) && p < |s.subs| == |s.leases.producers|
    requires HasSlot(s, p, NextBuilt(s, p)) && SlotAt(s, p, NextBuilt(s, p)) !in s.cells
    ensures Fires(s, Build(p, e))
  {
    hide L.Inv, T.Inv, X.Inv, HasSlot, SlotAt;
  }

  /** The next element a consumer reads has not been read. */
  lemma NextIsFilled<E>(s: State<E>, c: nat)
    requires Fits(s) && Ready(s, Read(c))
    ensures var x, i := s.leases.consumers[c], s.reading[c];
            && x.p < |s.subs| && Filled(s, x.p, i) && !Gone(s, x.p, i) && i < |s.subs[x.p].tickets.items|
            && BlockNo(i, s.leases.size) == BlockNo(x.at, s.leases.size)
            && HasSlot(s, x.p, i) && SlotAt(s, x.p, i) == SlotRead(s, c)
            && i < |s.subs[x.p].tickets.takers| && s.subs[x.p].tickets.takers[i] == c
  {
    assert Sizes(s) && c < |s.reading| && s.leases.consumers[c].Reading? && s.reading[c] < s.leases.consumers[c].end && s.leases.size > 0;
    hide *;
    Busy(s, c);
    ReadingIs(s, c);
  }

  lemma ReadingIs<E>(s: State<E>, c: nat)
    requires Sizes(s) && c < |s.reading| && s.leases.consumers[c].Reading? && s.reading[c] < s.leases.consumers[c].end
    requires var x, size := s.leases.consumers[c], s.leases.size;
      && size > 0 && x.p < |s.subs| && L.ConsumerFits(x, s.leases.producers[x.p], size)
      && L.ProducerOk(s.leases.producers[x.p], s.leases.emptied, size) && ReadingFits(x, s.reading[c], size)
      && TakerOf(x, c, s.subs[x.p].tickets.takers) && Joined(s.leases.producers[x.p], s.subs[x.p], size)
    ensures var x, i := s.leases.consumers[c], s.reading[c];
            && Filled(s, x.p, i) && !Gone(s, x.p, i) && i < |s.subs[x.p].tickets.items|
            && BlockNo(i, s.leases.size) == BlockNo(x.at, s.leases.size)
            && HasSlot(s, x.p, i) && SlotAt(s, x.p, i) == SlotRead(s, c)
            && i < |s.subs[x.p].tickets.takers| && s.subs[x.p].tickets.takers[i] == c
  {
    var x, i := s.leases.consumers[c], s.reading[c];
    ReadingInside(x, s.leases.producers[x.p], i, s.leases.size);
    HeadBelowTail(s.leases.producers[x.p], s.leases.emptied, s.leases.size);
    hide L.ConsumerFits, L.ProducerOk, ReadingFits, First, BlockNo, Offset, L.Shape;
  }

  /** The index it reads next is one it owns, in the block it has looked up, and is not done with. */
  lemma ReadingInside(x: L.Consumer, q: L.Producer, upto: nat, size: nat)
    requires size > 0 && x.Reading? && L.ConsumerFits(x, q, size) && ReadingFits(x, upto, size) && upto < x.end
    ensures x.at <= upto < x.to <= q.head && upto !in q.done
    ensures BlockNo(upto, size) == BlockNo(x.at, size) && BlockNo(upto, size) in q.entries
    ensures q.entries[BlockNo(upto, size)] == x.block
  {
    SameBlock(x.at, upto, size);
    hide First, BlockNo;
  }

  lemma HeadBelowTail(q: L.Producer, emptied: seq<nat>, size: nat)
    requires size > 0 && L.ProducerOk(q, emptied, size)
    ensures q.head <= q.tail
  {
    hide First, L.Emptied;
  }

  lemma InvBasics<E>(s: State<E>)
    requires Inv(s)
    ensures Fits(s) && Sizes(s) && Cells(s) && Records(s)
  {
    hide Sizes, Machines, Producers, Consumers, Cells, Records;
  }

  lemma InPlaceOf<E>(s: State<E>, p: nat, i: nat)
    requires Sizes(s) && Cells(s) && p < |s.subs| == |s.leases.producers| && Filled(s, p, i)
    ensures s.leases.size > 0 && InPlace(s, p, i)
  {
    hide Accounted, Filled, InPlace;
  }

  /** So its slot is live, and holds what was put in at that index. */
  lemma NextIsLive<E>(s: State<E>, c: nat)
    requires Inv(s) && Ready(s, Read(c))
    ensures var p, i := s.leases.consumers[c].p, s.reading[c];
            && p < |s.subs| && SlotRead(s, c) in s.cells
            && i < |s.subs[p].tickets.items| && s.cells[SlotRead(s, c)] == s.subs[p].tickets.items[i]
  {
    hide *;
    InvBasics(s);
    Basics(s);
    ReadyToRead(s, c);
    NextIsFilled(s, c);
    InPlaceOf(s, s.leases.consumers[c].p, s.reading[c]);
    InPlaceLive(s, s.leases.consumers[c].p, s.reading[c]);
  }

  lemma ReadyToRead<E>(s: State<E>, c: nat)
    requires Sizes(s) && Machines(s) && Ready(s, Read(c))
    ensures c < |s.reading| == |s.leases.consumers| && s.leases.consumers[c].Reading?
    ensures s.reading[c] < s.leases.consumers[c].end
  {
    hide Machines, SubSizes;
  }

  lemma InPlaceLive<E>(s: State<E>, p: nat, i: nat)
    requires s.leases.size > 0 && p < |s.subs| && InPlace(s, p, i) && i < |s.subs[p].tickets.items|
    ensures HasSlot(s, p, i) && SlotAt(s, p, i) in s.cells && s.cells[SlotAt(s, p, i)] == s.subs[p].tickets.items[i]
  {
    hide HasSlot, SlotAt;
  }

  lemma ReadFires<E>(s: State<E>, c: nat)
    requires Inv(s) && Ready(s, Read(c))
    ensures Fires(s, Read(c))
  {
    assert Sizes(s) && Machines(s) && c < |s.reading| && s.leases.consumers[c].Reading?;
    NextIsLive(s, c);
    hide *;
    ReadAlone(s, c);
  }

  lemma ReadAlone<E>(s: State<E>, c: nat)
    requires Sizes(s) && Machines(s) && c < |s.reading| && s.leases.consumers[c].Reading?
    requires s.leases.consumers[c].p < |s.subs| && SlotRead(s, c) in s.cells
    ensures Fires(s, Read(c))
  {
    hide Machines, L.Enabled, X.Enabled, Offset;
  }

  /** What is known of a consumer that is busy with producer `p`. */
  lemma Busy<E>(s: State<E>, c: nat)
    requires Fits(s) && c < |s.leases.consumers| && !s.leases.consumers[c].Idle?
    ensures var x, size := s.leases.consumers[c], s.leases.size;
            && x.p < |s.subs| && c < |s.reading| && c < |s.subs[x.p].index.readers|
            && L.ConsumerFits(x, s.leases.producers[x.p], size) && L.ProducerOk(s.leases.producers[x.p], s.leases.emptied, size)
            && ReaderFits(x, x.p, s.subs[x.p].index.readers[c], size) && ReadingFits(x, s.reading[c], size)
            && TakerOf(x, c, s.subs[x.p].tickets.takers)
            && X.Structure(s.subs[x.p].index) && X.ReaderOk(s.subs[x.p].index, s.subs[x.p].index.readers[c])
            && Joined(s.leases.producers[x.p], s.subs[x.p], size)
  {
    assert ConsumerFits(s, c) && L.ConsumerOk(s.leases, c);
    assert ProducerFits(s.leases.producers[s.leases.consumers[c].p], s.subs[s.leases.consumers[c].p], s.leases.size);
    hide L.Homes, L.Disjoint, L.NoLeak, X.Structure, X.ReaderOk, L.ConsumerFits, L.ProducerOk, T.Inv, ReaderFits, ReadingFits,
      TakerOf, Joined, Stored, OneCall;
  }

  lemma Loading<E>(s: State<E>, c: nat)
    requires Fits(s) && LooksUp(s, c)
    ensures var x := s.subs[s.leases.consumers[c].p].index;
            && X.Shape(x)
            && (ReaderOf(s, c).Claimed? ==> X.Enabled(x, X.LoadHeader(c)))
            && (ReaderOf(s, c).HasHeader? ==> X.Enabled(x, X.LoadTail(c)))
            && (ReaderOf(s, c).HasTail? ==> X.Enabled(x, X.LoadKey(c)))
  {
    Busy(s, c);
    hide *;
    ReaderCanLoad(s.subs[s.leases.consumers[c].p].index, c);
  }

  lemma ReaderCanLoad(x: X.State, c: nat)
    requires X.Structure(x) && c < |x.readers| && X.ReaderOk(x, x.readers[c])
    ensures X.Shape(x)
    ensures x.readers[c].Claimed? ==> X.Enabled(x, X.LoadHeader(c))
    ensures x.readers[c].HasHeader? ==> X.Enabled(x, X.LoadTail(c))
    ensures x.readers[c].HasTail? ==> X.Enabled(x, X.LoadKey(c))
  {
    hide X.Distinct, X.Keyed, X.Filled, X.Live, X.Guarded, X.Lies, X.HeaderOk;
  }

  lemma LoadFires<E>(s: State<E>, m: Move<E>)
    requires Fits(s) && Ready(s, m) && (m.LoadHeader? || m.LoadTail? || m.LoadKey?)
    ensures Fires(s, m)
  {
    hide *;
    Basics(s);
    ReadyToLoad(s, m);
    Loading(s, m.c);
    LoadAlone(s, m);
  }

  lemma ReadyToLoad<E>(s: State<E>, m: Move<E>)
    requires Sizes(s) && Machines(s) && Ready(s, m) && (m.LoadHeader? || m.LoadTail? || m.LoadKey? || m.LookUp?)
    ensures LooksUp(s, m.c)
    ensures m.LoadHeader? ==> ReaderOf(s, m.c).Claimed?
    ensures m.LoadTail? ==> ReaderOf(s, m.c).HasHeader?
    ensures m.LoadKey? ==> ReaderOf(s, m.c).HasTail?
    ensures m.LookUp? ==> ReaderOf(s, m.c).Found?
  {
    hide Sizes, Machines, LooksUp;
  }

  lemma LoadAlone<E>(s: State<E>, m: Move<E>)
    requires Sizes(s) && Machines(s) && (m.LoadHeader? || m.LoadTail? || m.LoadKey?) && LooksUp(s, m.c)
    requires var x := s.subs[s.leases.consumers[m.c].p].index;
      && (m.LoadHeader? ==> X.Enabled(x, X.LoadHeader(m.c)))
      && (m.LoadTail? ==> X.Enabled(x, X.LoadTail(m.c)))
      && (m.LoadKey? ==> X.Enabled(x, X.LoadKey(m.c)))
    ensures Fires(s, m)
  {
    hide L.Enabled, X.Enabled, L.Inv, T.Inv, X.Inv;
  }

  /** The entry a consumer has found points at the block leased for its index. */
  lemma FoundBlock<E>(s: State<E>, c: nat)
    requires Fits(s) && LooksUp(s, c) && ReaderOf(s, c).Found?
    ensures L.CanLookUp(s.leases, c)
    ensures var p, e := s.leases.consumers[c].p, ReaderOf(s, c).entry;
            && e < |s.subs[p].values|
            && s.subs[p].values[e] == s.leases.producers[p].entries[BlockNo(s.leases.consumers[c].at, s.leases.size)]
  {
    Busy(s, c);
    assert Sizes(s) && Machines(s) && Producers(s);
    var x := s.leases.consumers[c];
    hide Fits, Sizes, Machines, Producers, X.Structure, Joined, L.Count, First, BlockNo, Consumers;
    IndexLive(s, x.p, x.at);
    ReaderEntry(s.subs[x.p].index, c);
    hide X.ReaderOk, L.ProducerOk;
  }

  lemma ReaderEntry(x: X.State, c: nat)
    requires X.Structure(x) && c < |x.readers| && X.ReaderOk(x, x.readers[c]) && x.readers[c].Found?
    ensures X.Live(x, x.readers[c].block) && x.readers[c].entry == X.EntryOf(x, x.readers[c].block)
  {
    var r := x.readers[c];
    XP.LiesFirst(x, r.block, r.last, x.headers[r.header], r.at);
    hide X.Distinct, X.Keyed, X.Filled, X.Live, X.HeaderOk, X.Lies;
  }

  lemma LookUpFires<E>(s: State<E>, c: nat)
    requires Fits(s) && Ready(s, LookUp(c))
    ensures Fires(s, LookUp(c))
  {
    hide *;
    Basics(s);
    ReadyToLoad(s, LookUp(c));
    FoundBlock(s, c);
    BlockIsReady(s, c);
    LookUpAlone(s, c);
  }

  lemma BlockIsReady<E>(s: State<E>, c: nat)
    requires Sizes(s) && LooksUp(s, c) && ReaderOf(s, c).Found? && L.CanLookUp(s.leases, c)
    requires var p, e := s.leases.consumers[c].p, ReaderOf(s, c).entry;
      && e < |s.subs[p].values|
      && s.subs[p].values[e] == s.leases.producers[p].entries[BlockNo(s.leases.consumers[c].at, s.leases.size)]
    ensures BlockReady(s, LookUp(c))
  {
    hide Sizes, LooksUp, L.CanLookUp, BlockNo, ReaderOf;
  }

  lemma LookUpAlone<E>(s: State<E>, c: nat)
    requires Sizes(s) && Machines(s) && LooksUp(s, c) && BlockReady(s, LookUp(c))
    ensures Fires(s, LookUp(c))
  {
    hide L.Inv, T.Inv, X.Inv, BlockReady;
    hide BlockNo;
    assert L.CanLookUp(s.leases, c) by { hide *; LookUpReady(s, c); }
  }

  lemma LookUpReady<E>(s: State<E>, c: nat)
    requires Sizes(s) && BlockReady(s, LookUp(c))
    ensures L.CanLookUp(s.leases, c)
  {
  }

  /** When a consumer is done with a block it has come to the last one it owns, or goes on to the next. */
  lemma LastOrNext(x: L.Consumer, upto: nat, size: nat)
    requires size > 0 && x.Reading? && ReadingFits(x, upto, size) && x.at < x.end <= x.to
    requires x.end <= First(BlockNo(x.at, size), size) + size
    ensures x.end == x.to ==> BlockNo(x.at, size) == BlockNo(x.to - 1, size)
    ensures x.end < x.to ==> BlockNo(x.at, size) < BlockNo(x.to - 1, size) && BlockNo(x.end, size) == BlockNo(x.at, size) + 1
  {
    var k := BlockNo(x.at, size);
    if x.end == x.to {
      SameBlock(x.at, x.to - 1, size);
    } else {
      FirstNext(k, size);
      Joins(k + 1, 0, size);
      BlockOrder(x.end, x.to - 1, size);
    }
    hide First, BlockNo;
  }

  lemma ReaderGoesOn(x: X.State, c: nat)
    requires X.Structure(x) && c < |x.readers| && X.ReaderOk(x, x.readers[c]) && x.readers[c].Found?
    ensures x.readers[c].block == x.readers[c].last ==> X.Enabled(x, X.Finish(c))
    ensures x.readers[c].block < x.readers[c].last ==> X.Enabled(x, X.Next(c))
  {
    hide X.Distinct, X.Keyed, X.Filled, X.Live, X.HeaderOk;
  }

  lemma CompleteFires<E>(s: State<E>, c: nat)
    requires Fits(s) && Ready(s, Complete(c))
    ensures Fires(s, Complete(c))
  {
    assert Sizes(s) && Machines(s) && c < |s.reading| && s.leases.consumers[c].Reading?;
    Busy(s, c);
    var x, size := s.leases.consumers[c], s.leases.size;
    CompleteReady(x, s.leases.producers[x.p], s.subs[x.p].index, c, s.reading[c], size);
    assert x.block < |s.leases.home| by { LeasedHome(s.leases, x.p, BlockNo(x.at, size)); }
    hide *;
    CompleteAlone(s, c);
  }

  lemma CompleteReady(x: L.Consumer, q: L.Producer, index: X.State, c: nat, upto: nat, size: nat)
    requires size > 0 && x.Reading? && L.ConsumerFits(x, q, size) && ReadingFits(x, upto, size)
    requires X.Structure(index) && c < |index.readers| && X.ReaderOk(index, index.readers[c])
    requires ReaderFits(x, x.p, index.readers[c], size)
    ensures x.at <= x.end && BlockNo(x.at, size) in q.entries && q.entries[BlockNo(x.at, size)] == x.block
    ensures X.Enabled(index, if x.end == x.to then X.Finish(c) else X.Next(c))
  {
    LastOrNext(x, upto, size);
    ReaderGoesOn(index, c);
    hide X.Structure, X.ReaderOk, X.Enabled, First, BlockNo;
  }

  lemma CompleteAlone<E>(s: State<E>, c: nat)
    requires Sizes(s) && Machines(s) && c < |s.reading| && s.leases.consumers[c].Reading?
    requires var x := s.leases.consumers[c];
      && x.at <= x.end && x.block < |s.leases.home|
      && X.Enabled(s.subs[x.p].index, if x.end == x.to then X.Finish(c) else X.Next(c))
    ensures Fires(s, Complete(c))
  {
    hide L.Inv, T.Inv, X.Inv, X.Enabled, BlockNo;
  }

  /** No consumer that is still looking blocks up, or going to, uses the block that is taken out. */
  lemma NobodyUses<E>(s: State<E>, c: nat, d: nat)
    requires Fits(s) && c < |s.leases.consumers| && s.leases.consumers[c].Clearing? && d < |s.leases.consumers|
    ensures s.leases.consumers[c].p < |s.subs| && d < |s.subs[s.leases.consumers[c].p].index.readers|
    ensures !X.Uses(s.subs[s.leases.consumers[c].p].index.readers[d], s.leases.consumers[c].k)
  {
    hide *;
    Basics(s);
    var x, y, size := s.leases.consumers[c], s.leases.consumers[d], s.leases.size;
    Busy(s, c);
    ReaderAt(s, d, x.p);
    var r := s.subs[x.p].index.readers[d];
    if X.Uses(r, x.k) {
      UsesOwned(y, x.p, r, size, x.k);
      var i := BlocksOf(y.at, y.to, size, x.k);
      LP.FreedUnowned(s.leases, c, d, i);
    }
  }

  lemma ReaderAt<E>(s: State<E>, d: nat, p: nat)
    requires Fits(s) && d < |s.leases.consumers| && p < |s.subs|
    ensures s.leases.size > 0 && d < |s.subs[p].index.readers|
    ensures ReaderFits(s.leases.consumers[d], p, s.subs[p].index.readers[d], s.leases.size)
  {
    assert ConsumerFits(s, d);
    hide Machines, Producers, ReaderFits, ReadingFits, OneCall, TakerOf;
  }

  lemma UsesOwned(y: L.Consumer, p: nat, r: X.Reader, size: nat, k: nat)
    requires size > 0 && ReaderFits(y, p, r, size) && X.Uses(r, k)
    ensures !y.Idle? && y.p == p && y.at < y.to && BlockNo(y.at, size) <= k <= BlockNo(y.to - 1, size)
  {
    hide BlockNo;
  }

  lemma ClearFires<E>(s: State<E>, c: nat)
    requires Fits(s) && Ready(s, Clear(c))
    ensures Fires(s, Clear(c))
  {
    assert Sizes(s) && Machines(s) && c < |s.reading| && s.leases.consumers[c].Clearing? && Producers(s);
    Busy(s, c);
    var x := s.leases.consumers[c];
    assert x.block < |s.leases.home| by { LeasedHome(s.leases, x.p, x.k); }
    LP.FreedNotEarly(s.leases, c);
    hide *;
    BlockLive(s, x.p, x.k);
    forall d | 0 <= d < |s.leases.consumers| ensures d < |s.subs[x.p].index.readers| && !X.Uses(s.subs[x.p].index.readers[d], x.k) {
      NobodyUses(s, c, d);
    }
    ClearAlone(s, c);
  }

  /** A block below the head with an entry is live. */
  lemma BlockLive<E>(s: State<E>, p: nat, k: nat)
    requires Sizes(s) && Machines(s) && Producers(s) && p < |s.subs| && k in s.leases.producers[p].entries
    requires First(k, s.leases.size) + s.leases.size <= s.leases.producers[p].head
    ensures X.Live(s.subs[p].index, k)
  {
    var q, sub, size := s.leases.producers[p], s.subs[p], s.leases.size;
    assert L.ProducerOk(q, s.leases.emptied, size) && ProducerFits(q, sub, size);
    if k >= sub.index.published { FirstOrder(sub.index.published, k, size); }
    hide L.Homes, L.Disjoint, L.NoLeak, X.Shape, X.Order, X.Readers, First, L.Emptied, X.Live;
    EntryLive(sub.index, k);
  }

  lemma ClearAlone<E>(s: State<E>, c: nat)
    requires Sizes(s) && Machines(s) && c < |s.reading| && s.leases.consumers[c].Clearing?
    requires var x := s.leases.consumers[c];
      && x.block < |s.leases.home| && X.Live(s.subs[x.p].index, x.k)
      && forall d | 0 <= d < |s.leases.consumers| :: d < |s.subs[x.p].index.readers| && !X.Uses(s.subs[x.p].index.readers[d], x.k)
    ensures Fires(s, Clear(c))
  {
    hide L.Inv, T.Inv, X.Inv, X.Live, X.Uses;
  }

  lemma AddFreeFires<E>(s: State<E>, c: nat)
    requires Fits(s) && Ready(s, AddFree(c))
    ensures Fires(s, AddFree(c))
  {
    assert Sizes(s) && Machines(s) && c < |s.reading| && s.leases.consumers[c].Returning?;
    var x := s.leases.consumers[c];
    assert L.Homes(s.leases) && L.Located(s.leases, x.block, L.InReturn(c));
    hide *;
    AddFreeAlone(s, c);
  }

  lemma AddFreeAlone<E>(s: State<E>, c: nat)
    requires Sizes(s) && Machines(s) && c < |s.reading| && s.leases.consumers[c].Returning?
    requires s.leases.consumers[c].block < |s.leases.home|
    ensures Fires(s, AddFree(c))
  {
    hide L.Inv, T.Inv, X.Inv;
  }

  /** Whatever the threads are ready for, no machine has a reason to refuse: a claim lies between head and tail, the
      blocks it needs are in the index, the entry found points at the leased block, the slot read is live and the
      one built in is not, and a block is taken out of the index only when nobody will look it up. */
  lemma AlwaysFires<E>(s: State<E>, m: Move<E>)
    requires Inv(s) && Ready(s, m)
    ensures Fires(s, m)
  {
    assert Fits(s);
    match m
    case Claim(c, p) => ClaimFires(s, c, p);
    case TakeBack(p) => TakeBackFires(s, p);
    case Build(p, e) => BuildFires(s, p, e);
    case Read(c) => ReadFires(s, c);
    case LoadHeader(_) => LoadFires(s, m);
    case LoadTail(_) => LoadFires(s, m);
    case LoadKey(_) => LoadFires(s, m);
    case LookUp(c) => LookUpFires(s, c);
    case Complete(c) => CompleteFires(s, c);
    case Clear(c) => ClearFires(s, c);
    case AddFree(c) => AddFreeFires(s, c);
    case _ => ProducerFires(s, m);
  }
}
