/** The free list as the program has it: every step changes its node or the head in place
    (include/concurentqueue/concurrentqueue.h:1300-1379). */
module FreeListNodes {
  import opened FreeList
  import opened FreeListProof
  import opened FreeListSafety

  class Nodes {
    var freeListHead: Ptr
    /** Each node's `freeListRefs` and `freeListNext`. */
    var freeListRefs: seq<nat>
    var freeListNext: seq<Ptr>
    /** Where each thread is, with its local variables. */
    var threads: seq<Local>
    ghost var place: seq<Place>
    ghost var stack: seq<nat>
    ghost var adds: seq<nat>
    ghost var gets: seq<nat>

    ghost function View(): State
      reads this
    {
      State(freeListHead, freeListRefs, freeListNext, threads, place, stack, adds, gets)
    }

    ghost predicate Valid()
      reads this
    {
      Inv(View())
    }

    constructor (n: nat)
      requires n + 2 < FLAG
      ensures Valid() && View() == Start(n)
    {
      freeListHead, freeListRefs, freeListNext := Null, [], [];
      threads := seq(n, _ => Idle);
      place, stack, adds, gets := [], [], [], [];
      new;
      assert View() == Start(n);
    }

    /** A client makes a node. */
    method NewNode() returns (n: nat)
      requires Valid()
      modifies this
      ensures Valid() && View() == Apply(old(View()), Create) && n == old(|freeListRefs|)
    {
      CreateKeeps(View());
      n := |freeListRefs|;
      freeListRefs, freeListNext := freeListRefs + [0], freeListNext + [Null];
      place, adds, gets := place + [Out], adds + [0], gets + [0];
    }

    /** A thread calls `add`. */
    method CallAdd(t: nat, n: nat)
      requires Valid() && FreeListSafety.Enabled(View(), Give(t, n))
      modifies this
      ensures Valid() && View() == Apply(old(View()), Give(t, n))
    {
      CallAddKeeps(View(), t, n);
      hide Inv;
      threads := threads[t := Add(n)];
      place, adds := place[n := Adding(t)], adds[n := adds[n] + 1];
    }

    /** A thread calls `try_get`. */
    method CallTryGet(t: nat)
      requires Valid() && FreeListSafety.Enabled(View(), Ask(t))
      modifies this
      ensures Valid() && View() == Apply(old(View()), Ask(t))
    {
      CallGetKeeps(View(), t);
      hide Inv;
      threads := threads[t := LoadHead];
    }

    /** `add`, and `add_knowing_refcount_is_zero` as far as its CAS. */
    method StepToPush(t: nat)
      requires Valid() && t < |threads| && (threads[t].Add? || threads[t].Load? || threads[t].SetNext? || threads[t].SetRefs?)
      modifies this
      ensures View() == Step(old(View()), t)
    {
      OwnNode(View(), t);
      ghost var after := Step(View(), t);
      hide Inv, Counted, Answers, Holders;
      match threads[t] {
        case Add(n) =>
          var was := freeListRefs[n];
          freeListRefs := freeListRefs[n := FetchAdd(was, FLAG)];
          if was == 0 {
            threads, place := threads[t := Load(n, Return)], place[n := Ready(t)];
          } else {
            threads, place := threads[t := Idle], place[n := Pending];
          }
        case Load(n, back) =>
          threads := threads[t := SetNext(n, freeListHead, back)];
        case SetNext(n, head, back) =>
          freeListNext := freeListNext[n := head];
          threads := threads[t := SetRefs(n, head, back)];
        case SetRefs(n, head, back) =>
          freeListRefs := freeListRefs[n := 1];
          threads, place := threads[t := Push(n, head, back)], place[n := Linking(t)];
      }
    }

    /** The CAS, and what follows when it is lost. */
    method StepFromPush(t: nat)
      requires Valid() && t < |threads| && (threads[t].Push? || threads[t].Undo?)
      modifies this
      ensures View() == Step(old(View()), t)
    {
      OwnNode(View(), t);
      ghost var after := Step(View(), t);
      hide Inv, Counted, Answers, Holders;
      match threads[t] {
        case Push(n, head, back) =>
          if freeListHead == head {
            freeListHead := At(n);
            threads, place, stack := threads[t := Resume(back)], place[n := Listed], [n] + stack;
          } else {
            threads := threads[t := Undo(n, freeListHead, back)];
          }
        case Undo(n, head, back) =>
          var was := freeListRefs[n];
          freeListRefs := freeListRefs[n := FetchAdd(was, FLAG - 1)];
          if was == 1 {
            threads, place := threads[t := SetNext(n, head, back)], place[n := Ready(t)];
          } else {
            threads, place := threads[t := Resume(back)], place[n := Pending];
          }
      }
    }

    /** `try_get`, as far as the look at the node. */
    method StepToPop(t: nat)
      requires Valid() && t < |threads| && (threads[t].LoadHead? || threads[t].Examine? || threads[t].Acquire? || threads[t].ReadNext?)
      modifies this
      ensures View() == Step(old(View()), t)
    {
      ghost var after := Step(View(), t);
      TryGetRange(View(), t);
      hide Inv, Holders;
      match threads[t] {
        case LoadHead =>
          threads := threads[t := Examine(freeListHead)];
        case Examine(head) =>
          threads := threads[t := if head.Null? then Idle else Acquire(head.n, freeListRefs[head.n])];
        case Acquire(n, refs) =>
          if Count(refs) == 0 || freeListRefs[n] != refs {
            threads := threads[t := LoadHead];
          } else {
            freeListRefs := freeListRefs[n := FetchAdd(refs, 1)];
            threads := threads[t := ReadNext(n)];
          }
        case ReadNext(n) =>
          threads := threads[t := Pop(n, freeListNext[n])];
      }
    }

    /** The CAS on the head. */
    method StepPop(t: nat)
      requires Valid() && t < |threads| && threads[t].Pop?
      modifies this
      ensures View() == Step(old(View()), t)
    {
      ghost var after := Step(View(), t);
      TryGetRange(View(), t);
      hide Inv, Holders;
      var Pop(n, next) := threads[t];
      if freeListHead == At(n) {
        freeListHead := next;
        threads, place, stack := threads[t := Won(n)], place[n := Popped(t)], stack[1..];
      } else {
        threads := threads[t := Release(n, freeListHead)];
      }
    }

    /** The winner drops the list's reference and its own. */
    method StepWon(t: nat)
      requires Valid() && t < |threads| && threads[t].Won?
      modifies this
      ensures View() == Step(old(View()), t)
    {
      ghost var after := Step(View(), t);
      TryGetRange(View(), t);
      hide Inv, Holders;
      var n := threads[t].n;
      freeListRefs := freeListRefs[n := FetchAdd(freeListRefs[n], -2)];
      threads, place, gets := threads[t := Idle], place[n := Out], gets[n := gets[n] + 1];
    }

    /** The loser drops its reference, and puts the node on the list if it was the last of a flagged one. */
    method StepRelease(t: nat)
      requires Valid() && t < |threads| && threads[t].Release?
      modifies this
      ensures View() == Step(old(View()), t)
    {
      ghost var after := Step(View(), t);
      TryGetRange(View(), t);
      hide Inv, Holders;
      var Release(n, head) := threads[t];
      var was := freeListRefs[n];
      freeListRefs := freeListRefs[n := FetchAdd(was, -1)];
      if was == FLAG + 1 {
        threads, place := threads[t := Load(n, Continue(head))], place[n := Ready(t)];
      } else {
        threads := threads[t := Examine(head)];
      }
    }

    method StepThread(t: nat)
      requires Valid() && FreeListSafety.Enabled(View(), Go(t))
      modifies this
      ensures Valid() && View() == Apply(old(View()), Go(t))
    {
      ghost var after := Step(View(), t);
      if threads[t].Push? || threads[t].Undo? {
        StepFromPush(t);
      } else if HasNode(threads[t]) && !threads[t].Won? {
        StepToPush(t);
      } else if threads[t].Pop? {
        StepPop(t);
      } else if threads[t].Won? {
        StepWon(t);
      } else if threads[t].Release? {
        StepRelease(t);
      } else {
        StepToPop(t);
      }
      hide Inv;
    }

    /** Any interleaving of adds and gets whose clients add only nodes they have. */
    method Execute(schedule: seq<Action>)
      requires Valid() && Legal(View(), schedule)
      modifies this
      ensures Valid() && View() == Exec(old(View()), schedule)
    {
      hide Inv, Apply, Enabled;
      var i := 0;
      while i < |schedule|
        invariant 0 <= i <= |schedule| && Valid() && Legal(View(), schedule[i..])
        invariant Exec(View(), schedule[i..]) == Exec(old(View()), schedule)
      {
        assert schedule[i..][0] == schedule[i] && schedule[i..][1..] == schedule[i + 1..];
        match schedule[i] {
          case Give(t, n) => CallAdd(t, n);
          case Ask(t) => CallTryGet(t);
          case Go(t) => StepThread(t);
          case Create => var n := NewNode();
        }
        i := i + 1;
      }
    }
  }

  lemma TryGetRange(s: State, t: nat)
    requires Inv(s) && t < |s.threads| && !s.threads[t].Idle? && (!HasNode(s.threads[t]) || s.threads[t].Won?)
    ensures var l := s.threads[t];
            && |s.next| == |s.refs| == |s.place| == |s.gets|
            && (l.Examine? && l.head.At? ==> l.head.n < |s.refs|)
            && (l.Acquire? ==> l.n < |s.refs| && l.refs < WORD)
            && (l.ReadNext? || l.Pop? || l.Release? || l.Won? ==> l.n < |s.refs|)
            && (l.Pop? && s.head == At(l.n) ==> s.stack != [])
            && (l.Won? ==> 2 <= s.refs[l.n] < WORD)
            && (l.Release? ==> 1 <= s.refs[l.n] < WORD)
  {
    if s.threads[t].Won? { StepWonKeeps(s, t); }
    if s.threads[t].Release? { StepReleaseKeeps(s, t); }
    if s.threads[t].Pop? && s.head == At(s.threads[t].n) { PopIsCurrent(s, t); }
  }
}
