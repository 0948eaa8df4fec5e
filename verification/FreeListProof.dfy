/** Every step of the free list keeps its invariant. */
module FreeListProof {
  import opened FreeList

  // ---------------------------------------------------------------- holders

  lemma HoldersUpdate(threads: seq<Local>, t: nat, l: Local, n: nat)
    requires t < |threads|
    ensures Holders(threads[t := l], n) ==
            if Holds(l, n) then Holders(threads, n) + {t} else Holders(threads, n) - {t}
  {
  }

  lemma {:induction false} HoldersBound(threads: seq<Local>, n: nat)
    ensures |Holders(threads, n)| <= |threads|
  {
    if threads != [] {
      var k := |threads| - 1;
      HoldersBound(threads[..k], n);
      assert Holders(threads, n) <= Holders(threads[..k], n) + {k};
      Sub(Holders(threads, n), Holders(threads[..k], n) + {k});
    }
  }

  lemma Sub(a: set<nat>, b: set<nat>)
    requires a <= b
    ensures |a| <= |b|
  {
    assert b == a + (b - a);
  }

  // ---------------------------------------------------------------- one thread, one node

  /** Thread `t` moves to `l`; only node `n` changes its count and place. */
  lemma CountsUpdate(s: State, t: nat, l: Local, n: nat, r: nat, p: Place)
    requires Counts(s.refs, s.place, s.threads) && t < |s.threads| && n < |s.refs|
    requires forall m: nat | m != n :: Holds(l, m) == Holds(s.threads[t], m)
    requires Counted(r, p, Holders(s.threads[t := l], n))
    ensures Counts(s.refs[n := r], s.place[n := p], s.threads[t := l])
  {
    forall m | 0 <= m < |s.refs| && m != n
      ensures Holders(s.threads[t := l], m) == Holders(s.threads, m)
    {
      HoldersUpdate(s.threads, t, l, m);
    }
  }

  /** Thread `t` moves to `l` and node `n`, which nobody else answers for, to `p`. */
  lemma OwnersUpdate(threads: seq<Local>, place: seq<Place>, t: nat, l: Local, n: nat, p: Place)
    requires Owners(threads, place) && t < |threads| && n < |place|
    requires HasNode(threads[t]) ==> threads[t].n == n
    requires Unowned(place[n]) || Owner(place[n]) == t
    requires HasNode(l) ==> l.n == n && Answers(l, t, n, p)
    requires !HasNode(l) ==> Unowned(p)
    ensures Owners(threads[t := l], place[n := p])
  {
  }

  lemma OwnersSame(threads: seq<Local>, place: seq<Place>, t: nat, l: Local)
    requires Owners(threads, place) && t < |threads|
    requires !HasNode(threads[t]) && !HasNode(l)
    ensures Owners(threads[t := l], place)
  {
  }

  lemma KnowledgeUpdate(threads: seq<Local>, next: seq<Ptr>, t: nat, l: Local)
    requires Knowledge(threads, next) && t < |threads| && KnowsNext(l, next)
    ensures Knowledge(threads[t := l], next)
  {
  }

  /** A step that touches neither the links nor the list. */
  lemma Change(s: State, t: nat, l: Local, n: nat, r: nat, p: Place)
    requires Inv(s) && t < |s.threads| && n < |s.refs|
    requires Owners(s.threads[t := l], s.place[n := p])
    requires forall m: nat | m != n :: Holds(l, m) == Holds(s.threads[t], m)
    requires Counted(r, p, Holders(s.threads[t := l], n))
    requires PtrsOk(l, |s.refs|) && KnowsNext(l, s.next)
    requires s.place[n].Listed? <==> p.Listed?
    ensures var s' := s.(threads := s.threads[t := l], refs := s.refs[n := r], place := s.place[n := p]);
            && Ranges(s') && Owners(s'.threads, s'.place) && Counts(s'.refs, s'.place, s'.threads)
            && Knowledge(s'.threads, s'.next) && Chain(s'.head, s'.next, s'.stack, s'.place)
            && ((s.place[n].Out? <==> p.Out?) ==> Inv(s'))
  {
    CountsUpdate(s, t, l, n, r, p);
    KnowledgeUpdate(s.threads, s.next, t, l);
  }

  /** A step of one thread on its own, no node changing hands. */
  lemma Stay(s: State, t: nat, l: Local)
    requires Inv(s) && t < |s.threads|
    requires Owners(s.threads[t := l], s.place)
    requires forall m: nat :: Holds(l, m) == Holds(s.threads[t], m)
    requires PtrsOk(l, |s.refs|) && KnowsNext(l, s.next)
    ensures Inv(s.(threads := s.threads[t := l]))
  {
    forall m | 0 <= m < |s.refs| ensures Holders(s.threads[t := l], m) == Holders(s.threads, m) {
      HoldersUpdate(s.threads, t, l, m);
    }
    KnowledgeUpdate(s.threads, s.next, t, l);
  }

  lemma OwnNode(s: State, t: nat)
    requires Inv(s) && t < |s.threads| && HasNode(s.threads[t])
    ensures var n := s.threads[t].n;
            && n < |s.refs| && Answers(s.threads[t], t, n, s.place[n])
            && Counted(s.refs[n], s.place[n], Holders(s.threads, n))
            && |Holders(s.threads, n)| + 2 < FLAG && s.refs[n] < WORD
  {
    CountBound(s, s.threads[t].n);
  }

  // ---------------------------------------------------------------- add

  lemma CallAddKeeps(s: State, t: nat, n: nat)
    requires Inv(s) && t < |s.threads| && s.threads[t].Idle? && n < |s.place| && s.place[n].Out?
    ensures Inv(CallAdd(s, t, n))
  {
    OwnersUpdate(s.threads, s.place, t, Add(n), n, Adding(t));
    HoldersUpdate(s.threads, t, Add(n), n);
    assert s.refs[n := s.refs[n]] == s.refs;
    Change(s, t, Add(n), n, s.refs[n], Adding(t));
  }

  /** A thread changes the count and the place of the node it answers for, which stays in here. */
  lemma OwnChange(s: State, t: nat, l: Local, r: nat, p: Place)
    requires Inv(s) && t < |s.threads| && HasNode(s.threads[t]) && s.threads[t].n < |s.refs|
    requires !l.ReadNext? && !l.Pop? && !l.Release? && PtrsOk(l, |s.refs|) && KnowsNext(l, s.next)
    requires HasNode(l) ==> l.n == s.threads[t].n && Answers(l, t, l.n, p)
    requires !HasNode(l) ==> p.Pending?
    requires !p.Listed? && !p.Out? && Counted(r, p, Holders(s.threads, s.threads[t].n))
    ensures var n := s.threads[t].n; Inv(s.(threads := s.threads[t := l], refs := s.refs[n := r], place := s.place[n := p]))
  {
    hide Chain, Knowledge, Owners, Counts, Tally;
    OwnNode(s, t);
    var n := s.threads[t].n;
    OwnersUpdate(s.threads, s.place, t, l, n, p);
    HoldersUpdate(s.threads, t, l, n);
    assert Holders(s.threads[t := l], n) == Holders(s.threads, n);
    hide Holders, Counted, Answers;
    Change(s, t, l, n, r, p);
  }

  lemma StepAddKeeps(s: State, t: nat)
    requires Inv(s) && t < |s.threads| && s.threads[t].Add?
    ensures s.refs[s.threads[t].n] < WORD && Inv(StepAdd(s, t))
  {
    OwnNode(s, t);
    var n := s.threads[t].n;
    if s.refs[n] == 0 {
      OwnChange(s, t, Load(n, Return), FLAG, Ready(t));
    } else {
      OwnChange(s, t, Idle, s.refs[n] + FLAG, Pending);
    }
    hide Inv, Holders;
  }

  lemma StepLoadKeeps(s: State, t: nat)
    requires Inv(s) && t < |s.threads| && s.threads[t].Load?
    ensures Inv(StepLoad(s, t))
  {
    var n := s.threads[t].n;
    var l := SetNext(n, s.head, s.threads[t].back);
    OwnersUpdate(s.threads, s.place, t, l, n, s.place[n]);
    assert s.place[n := s.place[n]] == s.place;
    Stay(s, t, l);
  }

  lemma StepSetNextKeeps(s: State, t: nat)
    requires Inv(s) && t < |s.threads| && s.threads[t].SetNext?
    ensures Inv(StepSetNext(s, t))
  {
    var l := s.threads[t];
    var l' := SetRefs(l.n, l.head, l.back);
    OwnersUpdate(s.threads, s.place, t, l', l.n, s.place[l.n]);
    assert s.place[l.n := s.place[l.n]] == s.place;
    NobodyReads(s, l.n);
    var s1 := s.(next := s.next[l.n := l.head]);
    LinkElsewhere(s, l.n, l.head);
    Stay(s1, t, l');
  }

  /** While a thread prepares node `n`, nobody else relies on its `next`. */
  lemma NobodyReads(s: State, n: nat)
    requires Inv(s) && n < |s.place| && s.place[n].Ready?
    requires s.threads[s.place[n].t].SetNext?
    ensures forall t | 0 <= t < |s.threads| :: !Holds(s.threads[t], n)
    ensures forall t | 0 <= t < |s.threads| && (s.threads[t].SetRefs? || s.threads[t].Push?) ::
              s.threads[t].n != n
  {
    forall t | 0 <= t < |s.threads| ensures !Holds(s.threads[t], n) {
      assert Counted(s.refs[n], s.place[n], Holders(s.threads, n));
      assert t !in Holders(s.threads, n);
    }
  }

  lemma LinkElsewhere(s: State, n: nat, p: Ptr)
    requires Inv(s) && n < |s.place| && !s.place[n].Listed?
    requires forall t | 0 <= t < |s.threads| :: !Holds(s.threads[t], n)
    requires forall t | 0 <= t < |s.threads| && (s.threads[t].SetRefs? || s.threads[t].Push?) ::
               s.threads[t].n != n
    ensures Inv(s.(next := s.next[n := p]))
  {
    var next' := s.next[n := p];
    forall i | 0 <= i < |s.stack| ensures Link(next', s.stack, i) {
      assert Link(s.next, s.stack, i);
    }
    forall t | 0 <= t < |s.threads| ensures KnowsNext(s.threads[t], next') {
      assert KnowsNext(s.threads[t], s.next) && !Holds(s.threads[t], n);
    }
  }

  lemma StepSetRefsKeeps(s: State, t: nat)
    requires Inv(s) && t < |s.threads| && s.threads[t].SetRefs?
    ensures Inv(StepSetRefs(s, t))
  {
    var l := s.threads[t];
    var l' := Push(l.n, l.head, l.back);
    OwnersUpdate(s.threads, s.place, t, l', l.n, Linking(t));
    HoldersUpdate(s.threads, t, l', l.n);
    Change(s, t, l', l.n, 1, Linking(t));
  }

  lemma StepPushKeeps(s: State, t: nat)
    requires Inv(s) && t < |s.threads| && s.threads[t].Push?
    ensures Inv(StepPush(s, t))
  {
    var l := s.threads[t];
    if s.head == l.head {
      PushOntoList(s, t);
    } else {
      var l' := Undo(l.n, s.head, l.back);
      OwnersUpdate(s.threads, s.place, t, l', l.n, s.place[l.n]);
      assert s.place[l.n := s.place[l.n]] == s.place;
      Stay(s, t, l');
    }
  }

  lemma PushChains(s: State, t: nat)
    requires Inv(s) && t < |s.threads| && s.threads[t].Push? && s.head == s.threads[t].head
    ensures var s' := StepPush(s, t); Chain(s'.head, s'.next, s'.stack, s'.place)
  {
    var l := s.threads[t];
    var s' := StepPush(s, t);
    assert KnowsNext(l, s.next) && Answers(l, t, l.n, s.place[l.n]);
    hide Owners, Counts, Knowledge, Tally, Holders;
    forall i | 0 <= i < |s'.stack| ensures Link(s'.next, s'.stack, i) {
      if i > 0 { assert Link(s.next, s.stack, i - 1); }
    }
    forall n | 0 <= n < |s'.place| && s'.place[n].Listed? ensures n in s'.stack {
      assert n == l.n || n in s.stack;
    }
  }

  lemma PushOntoList(s: State, t: nat)
    requires Inv(s) && t < |s.threads| && s.threads[t].Push? && s.head == s.threads[t].head
    ensures Inv(StepPush(s, t))
  {
    hide Chain, Owners, Counts, Knowledge, Tally;
    OwnNode(s, t);
    var l := s.threads[t];
    var l' := Resume(l.back);
    OwnersUpdate(s.threads, s.place, t, l', l.n, Listed);
    HoldersUpdate(s.threads, t, l', l.n);
    CountsUpdate(s, t, l', l.n, s.refs[l.n], Listed);
    assert s.refs[l.n := s.refs[l.n]] == s.refs;
    KnowledgeUpdate(s.threads, s.next, t, l');
    PushChains(s, t);
    StaysIn(s, l.n, Listed);
    hide Holders, Counted, Answers;
  }

  lemma StepUndoKeeps(s: State, t: nat)
    requires Inv(s) && t < |s.threads| && s.threads[t].Undo?
    ensures s.refs[s.threads[t].n] < WORD && Inv(StepUndo(s, t))
  {
    OwnNode(s, t);
    var l := s.threads[t];
    if s.refs[l.n] == 1 {
      OwnChange(s, t, SetNext(l.n, l.head, l.back), FLAG, Ready(t));
    } else {
      OwnChange(s, t, Resume(l.back), s.refs[l.n] + FLAG - 1, Pending);
    }
    hide Chain, Knowledge, Owners, Counts, Tally, Holders;
  }

  // ---------------------------------------------------------------- try_get

  lemma CallGetKeeps(s: State, t: nat)
    requires Inv(s) && t < |s.threads| && s.threads[t].Idle?
    ensures Inv(CallGet(s, t))
  {
    OwnersSame(s.threads, s.place, t, LoadHead);
    Stay(s, t, LoadHead);
  }

  lemma HeadOk(s: State)
    requires Inv(s)
    ensures PtrOk(s.head, |s.refs|)
    ensures forall n | 0 <= n < |s.next| && s.place[n].Listed? :: PtrOk(s.next[n], |s.refs|)
  {
    forall n | 0 <= n < |s.next| && s.place[n].Listed? ensures PtrOk(s.next[n], |s.refs|) {
      var i :| 0 <= i < |s.stack| && s.stack[i] == n;
      assert Link(s.next, s.stack, i);
    }
  }

  lemma StepLoadHeadKeeps(s: State, t: nat)
    requires Inv(s) && t < |s.threads| && s.threads[t].LoadHead?
    ensures Inv(StepLoadHead(s, t))
  {
    var l := Examine(s.head);
    HeadOk(s);
    OwnersSame(s.threads, s.place, t, l);
    Stay(s, t, l);
  }

  lemma StepExamineKeeps(s: State, t: nat)
    requires Inv(s) && t < |s.threads| && s.threads[t].Examine?
    ensures Inv(StepExamine(s, t))
  {
    var l := if s.threads[t].head.Null? then Idle
             else Acquire(s.threads[t].head.n, s.refs[s.threads[t].head.n]);
    if s.threads[t].head.At? { CountBound(s, s.threads[t].head.n); }
    OwnersSame(s.threads, s.place, t, l);
    Stay(s, t, l);
  }

  /** The count never comes near the flag bit, and the word never wraps around. */
  lemma CountBound(s: State, n: nat)
    requires Inv(s) && n < |s.refs|
    ensures |Holders(s.threads, n)| + 2 < FLAG && s.refs[n] < WORD
  {
    HoldersBound(s.threads, n);
  }

  lemma AcquireTakes(s: State, t: nat)
    requires Inv(s) && t < |s.threads| && s.threads[t].Acquire?
    requires var l := s.threads[t]; l.n < |s.refs| && s.refs[l.n] < WORD && Count(s.refs[l.n]) != 0
    ensures var n := s.threads[t].n;
            && s.refs[n] + 1 < WORD
            && Inv(s.(threads := s.threads[t := ReadNext(n)], refs := s.refs[n := s.refs[n] + 1]))
  {
    hide Chain, Knowledge, Tally;
    var n := s.threads[t].n;
    var l' := ReadNext(n);
    OwnersSame(s.threads, s.place, t, l');
    HoldersUpdate(s.threads, t, l', n);
    CountBound(s, n);
    assert s.place[n := s.place[n]] == s.place;
    hide Owners, Counts, Holders;
    Change(s, t, l', n, s.refs[n] + 1, s.place[n]);
  }

  lemma StepAcquireKeeps(s: State, t: nat)
    requires Inv(s) && t < |s.threads| && s.threads[t].Acquire?
    ensures Inv(StepAcquire(s, t))
  {
    var l := s.threads[t];
    if Count(l.refs) == 0 || s.refs[l.n] != l.refs {
      OwnersSame(s.threads, s.place, t, LoadHead);
      Stay(s, t, LoadHead);
    } else {
      CountBound(s, l.n);
      AcquireTakes(s, t);
    }
    hide Chain, Knowledge, Owners, Counts, Tally;
  }

  lemma StepReadNextKeeps(s: State, t: nat)
    requires Inv(s) && t < |s.threads| && s.threads[t].ReadNext?
    ensures Inv(StepReadNext(s, t))
  {
    var l := Pop(s.threads[t].n, s.next[s.threads[t].n]);
    OwnersSame(s.threads, s.place, t, l);
    Stay(s, t, l);
  }

  /** No ABA: the winner of the CAS on the head installs the successor the popped node has now. */
  lemma PopIsCurrent(s: State, t: nat)
    requires Inv(s) && t < |s.threads| && s.threads[t].Pop? && s.head == At(s.threads[t].n)
    ensures s.stack != [] && s.stack[0] == s.threads[t].n && s.place[s.threads[t].n].Listed?
    ensures s.threads[t].next == s.next[s.threads[t].n] == First(s.stack[1..])
  {
    assert KnowsNext(s.threads[t], s.next);
    assert Link(s.next, s.stack, 0);
  }

  lemma StepPopKeeps(s: State, t: nat)
    requires Inv(s) && t < |s.threads| && s.threads[t].Pop?
    ensures Inv(StepPop(s, t))
  {
    var l := s.threads[t];
    if s.head == At(l.n) {
      PopOffList(s, t);
    } else {
      HeadOk(s);
      OwnersSame(s.threads, s.place, t, Release(l.n, s.head));
      Stay(s, t, Release(l.n, s.head));
    }
  }

  lemma PopChains(s: State, t: nat)
    requires Inv(s) && t < |s.threads| && s.threads[t].Pop? && s.head == At(s.threads[t].n)
    ensures s.stack != []
    ensures var s' := StepPop(s, t); Chain(s'.head, s'.next, s'.stack, s'.place)
  {
    PopIsCurrent(s, t);
    hide Owners, Counts, Knowledge, Tally;
    var s' := StepPop(s, t);
    forall i | 0 <= i < |s'.stack| ensures Link(s'.next, s'.stack, i) {
      assert Link(s.next, s.stack, i + 1);
    }
    forall n | 0 <= n < |s'.place| && s'.place[n].Listed? ensures n in s'.stack {
      assert n in s.stack && n != s.stack[0];
    }
  }

  lemma PopOffList(s: State, t: nat)
    requires Inv(s) && t < |s.threads| && s.threads[t].Pop? && s.head == At(s.threads[t].n)
    ensures s.stack != [] && Inv(StepPop(s, t))
  {
    var l := s.threads[t];
    var l' := Won(l.n);
    PopIsCurrent(s, t);
    PopChains(s, t);
    hide Chain, Tally;
    OwnersUpdate(s.threads, s.place, t, l', l.n, Popped(t));
    HoldersUpdate(s.threads, t, l', l.n);
    assert t in Holders(s.threads, l.n);
    CountsUpdate(s, t, l', l.n, s.refs[l.n], Popped(t));
    assert s.refs[l.n := s.refs[l.n]] == s.refs;
    KnowledgeUpdate(s.threads, s.next, t, l');
    StaysIn(s, l.n, Popped(t));
  }

  lemma StaysIn(s: State, n: nat, p: Place)
    requires Tally(s.place, s.adds, s.gets) && n < |s.place| && !s.place[n].Out? && !p.Out?
    ensures Tally(s.place[n := p], s.adds, s.gets)
  {
  }

  lemma WonDrops(s: State, t: nat)
    requires Inv(s) && t < |s.threads| && s.threads[t].Won?
    ensures var n := s.threads[t].n;
            && n < |s.refs| && 2 <= s.refs[n] < WORD && s.place[n].Popped?
            && var s' := s.(threads := s.threads[t := Idle], refs := s.refs[n := s.refs[n] - 2], place := s.place[n := Out]);
               && Ranges(s') && Owners(s'.threads, s'.place) && Counts(s'.refs, s'.place, s'.threads)
               && Knowledge(s'.threads, s'.next) && Chain(s'.head, s'.next, s'.stack, s'.place)
  {
    hide Chain, Knowledge, Owners, Counts, Tally;
    OwnNode(s, t);
    var n := s.threads[t].n;
    OwnersUpdate(s.threads, s.place, t, Idle, n, Out);
    HoldersUpdate(s.threads, t, Idle, n);
    hide Holders;
    Change(s, t, Idle, n, s.refs[n] - 2, Out);
  }

  lemma StepWonKeeps(s: State, t: nat)
    requires Inv(s) && t < |s.threads| && s.threads[t].Won?
    ensures 2 <= s.refs[s.threads[t].n] < WORD && Inv(StepWon(s, t))
  {
    hide Chain, Knowledge, Owners, Counts;
    WonDrops(s, t);
    var n := s.threads[t].n;
    assert Tally(s.place[n := Out], s.adds, s.gets[n := s.gets[n] + 1]);
    hide Tally, PtrsOk;
  }

  lemma ReleaseHolds(s: State, t: nat)
    requires Inv(s) && t < |s.threads| && s.threads[t].Release?
    ensures var n := s.threads[t].n; n < |s.refs| && 1 <= s.refs[n] < WORD
    ensures var n := s.threads[t].n;
            s.refs[n] == FLAG + 1 ==> s.place[n].Pending? && Holders(s.threads, n) == {t}
    ensures var n := s.threads[t].n;
            s.refs[n] != FLAG + 1 && s.place[n].Pending? ==> Holders(s.threads, n) != {t}
  {
    hide Chain, Knowledge, Owners, Tally;
    var n := s.threads[t].n;
    CountBound(s, n);
    assert t in Holders(s.threads, n);
    assert Counted(s.refs[n], s.place[n], Holders(s.threads, n));
    if s.refs[n] == FLAG + 1 {
      Only(Holders(s.threads, n), t);
    }
  }

  lemma Only(a: set<nat>, t: nat)
    requires t in a && |a| == 1
    ensures a == {t}
  {
    assert |a - {t}| == 0;
    assert a - {t} == {};
  }

  /** The last reference to a node that is to be listed. */
  lemma ReleaseLast(s: State, t: nat)
    requires Inv(s) && t < |s.threads| && s.threads[t].Release?
    requires s.threads[t].n < |s.refs| && s.refs[s.threads[t].n] == FLAG + 1
    ensures Inv(StepRelease(s, t))
  {
    ReleaseHolds(s, t);
    hide Chain, Knowledge, Counts;
    var l := s.threads[t];
    var l' := Load(l.n, Continue(l.head));
    OwnersUpdate(s.threads, s.place, t, l', l.n, Ready(t));
    HoldersUpdate(s.threads, t, l', l.n);
    hide Owners, Tally;
    Change(s, t, l', l.n, FLAG, Ready(t));
  }

  lemma StepReleaseKeeps(s: State, t: nat)
    requires Inv(s) && t < |s.threads| && s.threads[t].Release?
    ensures 1 <= s.refs[s.threads[t].n] < WORD && Inv(StepRelease(s, t))
  {
    ReleaseHolds(s, t);
    hide Chain, Knowledge;
    var l := s.threads[t];
    if s.refs[l.n] == FLAG + 1 {
      ReleaseLast(s, t);
    } else {
      assert Counted(s.refs[l.n], s.place[l.n], Holders(s.threads, l.n));
      hide Counts;
      var l' := Examine(l.head);
      OwnersSame(s.threads, s.place, t, l');
      HoldersUpdate(s.threads, t, l', l.n);
      assert s.place[l.n := s.place[l.n]] == s.place;
      hide Owners, Tally;
      Change(s, t, l', l.n, s.refs[l.n] - 1, s.place[l.n]);
    }
  }
}
