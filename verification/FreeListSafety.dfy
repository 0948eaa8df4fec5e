/** What the free list promises, in every interleaving of any number of threads. */
module FreeListSafety {
  import opened FreeList
  import opened FreeListProof

  datatype Action =
    | Give(t: nat, n: nat)     // a thread calls add with a node a client has
    | Ask(t: nat)              // a thread calls try_get
    | Go(t: nat)               // a thread inside a call takes its next step
    | Create                   // a client makes a new node

  ghost predicate Enabled(s: State, a: Action) {
    match a
    case Give(t, n) => t < |s.threads| && s.threads[t].Idle? && n < |s.place| && s.place[n].Out?
    case Ask(t) => t < |s.threads| && s.threads[t].Idle?
    case Go(t) => t < |s.threads| && !s.threads[t].Idle?
    case Create => true
  }

  ghost function Step(s: State, t: nat): (r: State)
    requires Inv(s) && t < |s.threads| && !s.threads[t].Idle?
    ensures Inv(r)
  {
    match s.threads[t]
    case Add(_) => StepAddKeeps(s, t); StepAdd(s, t)
    case Load(_, _) => StepLoadKeeps(s, t); StepLoad(s, t)
    case SetNext(_, _, _) => StepSetNextKeeps(s, t); StepSetNext(s, t)
    case SetRefs(_, _, _) => StepSetRefsKeeps(s, t); StepSetRefs(s, t)
    case Push(_, _, _) => StepPushKeeps(s, t); StepPush(s, t)
    case Undo(_, _, _) => StepUndoKeeps(s, t); StepUndo(s, t)
    case LoadHead => StepLoadHeadKeeps(s, t); StepLoadHead(s, t)
    case Examine(_) => StepExamineKeeps(s, t); StepExamine(s, t)
    case Acquire(_, _) => StepAcquireKeeps(s, t); StepAcquire(s, t)
    case ReadNext(_) => StepReadNextKeeps(s, t); StepReadNext(s, t)
    case Pop(_, _) => StepPopKeeps(s, t); StepPop(s, t)
    case Won(_) => StepWonKeeps(s, t); StepWon(s, t)
    case Release(_, _) => StepReleaseKeeps(s, t); StepRelease(s, t)
  }

  function WithNewNode(s: State): State {
    s.(refs := s.refs + [0], next := s.next + [Null], place := s.place + [Out],
       adds := s.adds + [0], gets := s.gets + [0])
  }

  lemma CreateKeeps(s: State)
    requires Inv(s)
    ensures Inv(WithNewNode(s))
  {
    var s' := WithNewNode(s);
    var n := |s.refs|;
    forall t | 0 <= t < |s.threads| ensures !Holds(s.threads[t], n) && KnowsNext(s.threads[t], s'.next) {
      assert PtrsOk(s.threads[t], n) && KnowsNext(s.threads[t], s.next);
    }
    assert Holders(s.threads, n) == {};
    forall i | 0 <= i < |s.stack| ensures Link(s'.next, s.stack, i) {
      assert Link(s.next, s.stack, i);
    }
  }

  ghost function Apply(s: State, a: Action): (r: State)
    requires Inv(s) && Enabled(s, a)
    ensures Inv(r)
  {
    match a
    case Give(t, n) => CallAddKeeps(s, t, n); CallAdd(s, t, n)
    case Ask(t) => CallGetKeeps(s, t); CallGet(s, t)
    case Go(t) => Step(s, t)
    case Create => CreateKeeps(s); WithNewNode(s)
  }

  ghost function Exec(s: State, schedule: seq<Action>): State
    requires Inv(s)
    decreases |schedule|
  {
    if schedule == [] then s
    else Exec(if Enabled(s, schedule[0]) then Apply(s, schedule[0]) else s, schedule[1..])
  }

  lemma {:induction false} RunsKeepInv(s: State, schedule: seq<Action>)
    requires Inv(s)
    ensures Inv(Exec(s, schedule))
    decreases |schedule|
  {
    hide Inv, Enabled, Apply;
    if schedule != [] {
      RunsKeepInv(if Enabled(s, schedule[0]) then Apply(s, schedule[0]) else s, schedule[1..]);
    }
  }

  /** Each move can be made when its turn comes: clients add only nodes they have. */
  ghost predicate Legal(s: State, schedule: seq<Action>)
    requires Inv(s)
    decreases |schedule|
  {
    schedule == [] || (Enabled(s, schedule[0]) && Legal(Apply(s, schedule[0]), schedule[1..]))
  }

  /** A list for `threads` threads, with nothing on it. */
  ghost function Start(threads: nat): (s: State)
    requires threads + 2 < FLAG
    ensures Inv(s)
  {
    State(Null, [], [], seq(threads, t => Idle), [], [], [], [])
  }

  // ---------------------------------------------------------------- main results

  /** No node is given to two getters, or handed out while anything else has it: in every reachable
      state the node a winner is about to return is off the list, not with a client, unflagged, and
      no other thread answers for it. */
  lemma WinnerIsExclusive(threads: nat, schedule: seq<Action>, t: nat)
    requires threads + 2 < FLAG
    requires t < |Exec(Start(threads), schedule).threads|
    requires Exec(Start(threads), schedule).threads[t].Won?
    ensures var s := Exec(Start(threads), schedule);
            var n := s.threads[t].n;
            && Inv(s) && n < |s.refs| && n !in s.stack && !s.place[n].Out? && s.adds[n] == s.gets[n] + 1
            && 2 <= s.refs[n] < FLAG
            && (forall u | 0 <= u < |s.threads| && u != t :: !HasNode(s.threads[u]) || s.threads[u].n != n)
  {
    RunsKeepInv(Start(threads), schedule);
    var s := Exec(Start(threads), schedule);
    OwnNode(s, t);
  }

  /** No ABA: whenever a CAS on the head succeeds in `try_get`, the value it installs is the popped
      node's current successor. */
  lemma NoAba(threads: nat, schedule: seq<Action>, t: nat)
    requires threads + 2 < FLAG
    requires t < |Exec(Start(threads), schedule).threads|
    requires var s := Exec(Start(threads), schedule);
             s.threads[t].Pop? && s.head == At(s.threads[t].n)
    ensures var s := Exec(Start(threads), schedule);
            var n := s.threads[t].n;
            && Inv(s) && n < |s.next| && s.threads[t].next == s.next[n]
            && Step(s, t).stack == s.stack[1..] && s.stack != [] && s.stack[0] == n
            && Step(s, t).head == First(s.stack[1..])
  {
    RunsKeepInv(Start(threads), schedule);
    PopIsCurrent(Exec(Start(threads), schedule), t);
  }

  /** Nothing is lost: a node that was added and not yet given out again is on the list, or some
      thread is putting it there or taking it off, or it is flagged and some thread that still holds
      a reference to it will see to it. */
  lemma NothingIsLost(threads: nat, schedule: seq<Action>, n: nat)
    requires threads + 2 < FLAG
    requires n < |Exec(Start(threads), schedule).refs|
    ensures var s := Exec(Start(threads), schedule);
            && Inv(s)
            && (|| s.adds[n] == s.gets[n]
                || (s.adds[n] == s.gets[n] + 1 &&
                     (|| n in s.stack
                      || (exists t :: 0 <= t < |s.threads| && HasNode(s.threads[t]) && s.threads[t].n == n)
                      || (s.refs[n] > FLAG && exists t :: 0 <= t < |s.threads| && Holds(s.threads[t], n)))))
  {
    RunsKeepInv(Start(threads), schedule);
    var s := Exec(Start(threads), schedule);
    if s.place[n].Pending? {
      assert Counted(s.refs[n], s.place[n], Holders(s.threads, n));
      var t :| t in Holders(s.threads, n);
    }
  }

  /** When no call is in progress the list holds exactly the nodes that were added and not given
      out again, and every count is back to one for those and zero for the others. */
  lemma QuiescentCounts(threads: nat, schedule: seq<Action>)
    requires threads + 2 < FLAG
    ensures var s := Exec(Start(threads), schedule);
            && Inv(s)
            && ((forall t | 0 <= t < |s.threads| :: s.threads[t].Idle?) ==>
              forall n | 0 <= n < |s.refs| ::
                && (n in s.stack <==> s.adds[n] == s.gets[n] + 1)
                && (n !in s.stack <==> s.adds[n] == s.gets[n])
                && s.refs[n] == (if n in s.stack then 1 else 0))
  {
    RunsKeepInv(Start(threads), schedule);
    var s := Exec(Start(threads), schedule);
    if forall t | 0 <= t < |s.threads| :: s.threads[t].Idle? {
      forall n | 0 <= n < |s.refs|
        ensures Holders(s.threads, n) == {}
        ensures s.place[n].Out? || s.place[n].Listed?
      {
        assert Counted(s.refs[n], s.place[n], Holders(s.threads, n));
      }
    }
  }

  /** A thread comes to hold a null head only from a load or a lost CAS that happened while the list was empty. That
      `try_get` gives up over nothing else is in `FreeListAnswers`. */
  lemma NullMeansEmpty(s: State, t: nat)
    requires Inv(s) && t < |s.threads|
    requires s.threads[t].LoadHead? || s.threads[t].Pop?
    ensures Step(s, t).threads[t] == Examine(Null) ==> s.stack == []
    ensures Step(s, t).threads[t].Release? && Step(s, t).threads[t].head.Null? ==> s.stack == []
  {
  }
}
