/** What the free list answers: `try_get` comes back with nothing only from a call during which the list was empty,
    and a thread that is let run gives out the first node, or puts its own in front
    (include/concurentqueue/concurrentqueue.h:1300-1379). */
module FreeListAnswers {
  import opened FreeList
  import opened FreeListProof
  import opened FreeListSafety

  /** Inside `try_get`, or linking a node on its behalf. */
  predicate Getting(l: Local) {
    || l.LoadHead? || l.Examine? || l.Acquire? || l.ReadNext? || l.Pop? || l.Won? || l.Release?
    || ((l.Load? || l.SetNext? || l.SetRefs? || l.Push? || l.Undo?) && l.back.Continue?)
  }

  /** The head that the loop of `try_get` will test next is null. */
  predicate SawNull(l: Local) {
    match l
    case Examine(head) => head.Null?
    case Release(_, head) => head.Null?
    case Load(_, back) => back == Continue(Null)
    case SetNext(_, _, back) => back == Continue(Null)
    case SetRefs(_, _, back) => back == Continue(Null)
    case Push(_, _, back) => back == Continue(Null)
    case Undo(_, _, back) => back == Continue(Null)
    case _ => false
  }

  // ---------------------------------------------------------------- how a call ends

  /** A call of `try_get` ends in one of two ways: it gives out the node it has won, or it has seen a null head and
      changes nothing. */
  lemma GivesOrSawNull(s: State, t: nat)
    requires Inv(s) && t < |s.threads| && Getting(s.threads[t]) && Step(s, t).threads[t].Idle?
    ensures s.threads[t].Won? || s.threads[t] == Examine(Null)
    ensures s.threads[t] == Examine(Null) ==> Step(s, t) == s.(threads := s.threads[t := Idle])
  {
    hide Inv;
  }

  /** The winner gives out its node and that alone. */
  lemma WinnerGives(s: State, t: nat)
    requires Inv(s) && t < |s.threads| && s.threads[t].Won?
    ensures var n, r := s.threads[t].n, Step(s, t);
            && n < |s.gets| == |s.place| && r.gets == s.gets[n := s.gets[n] + 1] && r.gets != s.gets
            && r.place == s.place[n := Out] && r.stack == s.stack && r.threads[t].Idle?
  {
    StepWonKeeps(s, t);
    hide Inv;
    assert Step(s, t).gets[s.threads[t].n] != s.gets[s.threads[t].n];
  }

  /** No step gives out anything except at the end of a call that won. */
  lemma OnlyWinnersGive(s: State, t: nat)
    requires Inv(s) && t < |s.threads| && !s.threads[t].Idle? && !s.threads[t].Won?
    ensures Step(s, t).gets == s.gets && forall n | 0 <= n < |s.place| && Step(s, t).place[n].Out? :: s.place[n].Out?
  {
    hide Inv;
  }

  // ---------------------------------------------------------------- over any run

  lemma {:induction false} ExecLast(s: State, schedule: seq<Action>, a: Action)
    requires Inv(s)
    ensures Inv(Exec(s, schedule))
    ensures var r := Exec(s, schedule);
            Exec(s, schedule + [a]) == if Enabled(r, a) then Apply(r, a) else r
    decreases |schedule|
  {
    hide Inv, Enabled, Apply;
    RunsKeepInv(s, schedule);
    var all := schedule + [a];
    if schedule == [] {
      assert all[1..] == [];
    } else {
      assert all[1..] == schedule[1..] + [a];
      ExecLast(if Enabled(s, schedule[0]) then Apply(s, schedule[0]) else s, schedule[1..], a);
    }
  }

  /** After each of the first `i` to `|schedule|` actions thread `t` was inside the same call of `try_get`, and after
      the first `i` the list was empty. */
  ghost predicate EmptyAt(s: State, schedule: seq<Action>, t: nat, i: nat)
    requires Inv(s)
  {
    && i <= |schedule| && Exec(s, schedule[..i]).stack == []
    && forall j | i <= j <= |schedule| ::
         t < |Exec(s, schedule[..j]).threads| && Getting(Exec(s, schedule[..j]).threads[t])
  }

  lemma OnlyMine(s: State, u: nat)
    requires Inv(s) && u < |s.threads| && !s.threads[u].Idle?
    ensures |Step(s, u).threads| == |s.threads| && forall t | 0 <= t < |s.threads| && t != u :: Step(s, u).threads[t] == s.threads[t]
  {
    hide Inv;
  }

  lemma SawNullGo(s: State, t: nat)
    requires Inv(s) && t < |s.threads| && !s.threads[t].Idle? && SawNull(Step(s, t).threads[t])
    ensures Getting(s.threads[t]) && (SawNull(s.threads[t]) || s.head.Null?)
  {
    if HasNode(s.threads[t]) { SawNullLinking(s, t); } else { SawNullGetting(s, t); }
    hide *;
  }

  lemma SawNullLinking(s: State, t: nat)
    requires Inv(s) && t < |s.threads| && HasNode(s.threads[t]) && SawNull(Step(s, t).threads[t])
    ensures Getting(s.threads[t]) && SawNull(s.threads[t])
  {
    hide Inv, FetchAdd;
  }

  lemma SawNullGetting(s: State, t: nat)
    requires Inv(s) && t < |s.threads| && !s.threads[t].Idle? && !HasNode(s.threads[t]) && SawNull(Step(s, t).threads[t])
    ensures Getting(s.threads[t]) && (SawNull(s.threads[t]) || s.head.Null?)
  {
    hide Inv, FetchAdd, Count;
  }

  /** A thread that saw a null head did so just now, over an empty list, or earlier in the same call. */
  lemma SawNullStep(s: State, a: Action, t: nat)
    requires Inv(s) && Enabled(s, a) && t < |Apply(s, a).threads| && SawNull(Apply(s, a).threads[t])
    ensures t < |s.threads| && Getting(s.threads[t]) && (SawNull(s.threads[t]) || s.stack == [])
  {
    HeadIsFirst(s);
    hide Inv, Step;
    if a.Go? {
      OnlyMine(s, a.t);
      if a.t == t { SawNullGo(s, t); }
    }
  }

  lemma HeadIsFirst(s: State)
    requires Inv(s)
    ensures s.head.Null? <==> s.stack == []
  {
  }

  lemma EmptyStill(s: State, schedule: seq<Action>, a: Action, t: nat, i: nat)
    requires Inv(s) && EmptyAt(s, schedule, t, i)
    requires var r := Exec(s, schedule + [a]); t < |r.threads| && Getting(r.threads[t])
    ensures EmptyAt(s, schedule + [a], t, i)
  {
    hide Inv, Exec, Getting;
    var all := schedule + [a];
    assert all[..i] == schedule[..i];
    forall j | i <= j <= |all|
      ensures t < |Exec(s, all[..j]).threads| && Getting(Exec(s, all[..j]).threads[t])
    {
      assert all[..j] == if j <= |schedule| then schedule[..j] else all;
    }
  }

  lemma EmptyNow(s: State, before: seq<Action>, a: Action, t: nat)
    requires Inv(s) && Exec(s, before).stack == []
    requires var r := Exec(s, before); t < |r.threads| && Getting(r.threads[t])
    requires var r := Exec(s, before + [a]); t < |r.threads| && Getting(r.threads[t])
    ensures EmptyAt(s, before + [a], t, |before|)
  {
    hide Inv, Exec, Getting;
    var all := before + [a];
    assert all[..|before|] == before && all[..|all|] == all;
  }

  lemma NullOneMore(s: State, before: seq<Action>, a: Action, t: nat, i: nat) returns (k: nat)
    requires Inv(s)
    requires var r := Exec(s, before); t < |r.threads| && SawNull(r.threads[t]) ==> EmptyAt(s, before, t, i)
    ensures var r := Exec(s, before + [a]); t < |r.threads| && SawNull(r.threads[t]) ==> EmptyAt(s, before + [a], t, k)
  {
    hide Inv, Enabled, Apply, EmptyAt, Exec;
    var r := Exec(s, before);
    ExecLast(s, before, a);
    k := i;
    var r' := Exec(s, before + [a]);
    if t < |r'.threads| && SawNull(r'.threads[t]) {
      if Enabled(r, a) { SawNullStep(r, a, t); }
      if r.stack == [] && Getting(r.threads[t]) {
        k := |before|;
        EmptyNow(s, before, a, t);
      } else {
        EmptyStill(s, before, a, t, i);
      }
    }
  }

  lemma {:induction false} NullWasTrue(s: State, schedule: seq<Action>, t: nat) returns (i: nat)
    requires Inv(s) && (t < |s.threads| ==> !SawNull(s.threads[t]))
    ensures var r := Exec(s, schedule); t < |r.threads| && SawNull(r.threads[t]) ==> EmptyAt(s, schedule, t, i)
    decreases |schedule|
  {
    hide Inv, Enabled, Apply, EmptyAt, SawNull;
    i := 0;
    if schedule != [] {
      var before, a := schedule[..|schedule| - 1], schedule[|schedule| - 1];
      assert schedule == before + [a];
      i := NullWasTrue(s, before, t);
      i := NullOneMore(s, before, a, t, i);
    }
  }

  /** Over every run: a thread whose next step ends `try_get` with nothing given out was in that call after some `i`
      actions that left the list empty, and has been in it ever since. */
  lemma NothingOnlyIfEmpty(threads: nat, schedule: seq<Action>, t: nat) returns (i: nat)
    requires threads + 2 < FLAG
    requires var r := Exec(Start(threads), schedule);
             Inv(r) && t < |r.threads| && Getting(r.threads[t]) && Step(r, t).threads[t].Idle? && Step(r, t).gets == r.gets
    ensures i <= |schedule| && Exec(Start(threads), schedule[..i]).stack == []
    ensures forall j | i <= j <= |schedule| ::
              var r := Exec(Start(threads), schedule[..j]); t < |r.threads| && Getting(r.threads[t])
  {
    var r := Exec(Start(threads), schedule);
    GivesOrSawNull(r, t);
    if r.threads[t].Won? { WinnerGives(r, t); }
    hide Inv, Enabled, Apply, Exec, Getting;
    i := NullWasTrue(Start(threads), schedule, t);
  }

  // ---------------------------------------------------------------- a thread that is let run

  function Steps(t: nat, k: nat): seq<Action> { seq(k, _ => Go(t)) }

  lemma ExecFirst(s: State, a: Action, rest: seq<Action>)
    requires Inv(s) && Enabled(s, a)
    ensures Exec(s, [a] + rest) == Exec(Apply(s, a), rest)
  {
    hide Inv, Enabled, Apply;
    assert ([a] + rest)[1..] == rest;
  }

  /** One step, and `k` more. */
  lemma GoOn(s: State, t: nat, k: nat, r: State)
    requires Inv(s) && t < |s.threads| && !s.threads[t].Idle? && Step(s, t) == r
    ensures Inv(r) && Exec(s, Steps(t, k + 1)) == Exec(r, Steps(t, k))
  {
    hide Inv, Step;
    ExecFirst(s, Go(t), Steps(t, k));
    assert Steps(t, k + 1) == [Go(t)] + Steps(t, k);
  }

  lemma StopThere(s: State, t: nat)
    requires Inv(s)
    ensures Exec(s, Steps(t, 0)) == s
  {
    hide Inv;
    assert Steps(t, 0) == [];
  }

  lemma FirstNode(s: State)
    requires Inv(s) && s.stack != []
    ensures var n := s.stack[0];
            && n < |s.refs| == |s.next| == |s.place| == |s.gets| && s.head == At(n)
            && 1 <= s.refs[n] < FLAG - 1 && s.next[n] == First(s.stack[1..])
  {
    var n := s.stack[0];
    CountBound(s, n);
    assert Counted(s.refs[n], s.place[n], Holders(s.threads, n)) && Link(s.next, s.stack, 0);
  }

  lemma Twice(s: State, t: nat, l: Local, m: Local)
    requires t < |s.threads|
    ensures Goto(Goto(s, t, l), t, m) == Goto(s, t, m)
  {
    assert s.threads[t := l][t := m] == s.threads[t := m];
  }

  lemma Returned(s: State, t: nat, l: Local)
    requires t < |s.threads|
    ensures Goto(s, t, l).threads[t] == l && Goto(s, t, s.threads[t]) == s
  {
    assert s.threads[t := s.threads[t]] == s.threads;
  }

  lemma Loads(s: State, t: nat, k: nat)
    requires t < |s.threads| && Inv(Goto(s, t, LoadHead))
    ensures Inv(Goto(s, t, Examine(s.head)))
    ensures Exec(Goto(s, t, LoadHead), Steps(t, k + 1)) == Exec(Goto(s, t, Examine(s.head)), Steps(t, k))
  {
    hide Inv, Exec;
    Twice(s, t, LoadHead, Examine(s.head));
    GoOn(Goto(s, t, LoadHead), t, k, Goto(s, t, Examine(s.head)));
  }

  lemma Examines(s: State, t: nat, n: nat, k: nat)
    requires t < |s.threads| && n < |s.refs| && Inv(Goto(s, t, Examine(At(n))))
    ensures Inv(Goto(s, t, Acquire(n, s.refs[n])))
    ensures Exec(Goto(s, t, Examine(At(n))), Steps(t, k + 1)) == Exec(Goto(s, t, Acquire(n, s.refs[n])), Steps(t, k))
  {
    hide Inv, Exec;
    Twice(s, t, Examine(At(n)), Acquire(n, s.refs[n]));
    GoOn(Goto(s, t, Examine(At(n))), t, k, Goto(s, t, Acquire(n, s.refs[n])));
  }

  lemma Acquires(s: State, t: nat, n: nat, k: nat)
    requires t < |s.threads| && n < |s.refs| && 1 <= s.refs[n] < FLAG - 1 && Inv(Goto(s, t, Acquire(n, s.refs[n])))
    ensures var r := Goto(SetCount(s, n, s.refs[n] + 1), t, ReadNext(n));
            Inv(r) && Exec(Goto(s, t, Acquire(n, s.refs[n])), Steps(t, k + 1)) == Exec(r, Steps(t, k))
  {
    hide Inv, Exec;
    Twice(SetCount(s, n, s.refs[n] + 1), t, Acquire(n, s.refs[n]), ReadNext(n));
    GoOn(Goto(s, t, Acquire(n, s.refs[n])), t, k, Goto(SetCount(s, n, s.refs[n] + 1), t, ReadNext(n)));
  }

  lemma ReadsNext(s: State, t: nat, n: nat, k: nat)
    requires t < |s.threads| && n < |s.next| && Inv(Goto(s, t, ReadNext(n)))
    ensures Inv(Goto(s, t, Pop(n, s.next[n])))
    ensures Exec(Goto(s, t, ReadNext(n)), Steps(t, k + 1)) == Exec(Goto(s, t, Pop(n, s.next[n])), Steps(t, k))
  {
    hide Inv, Exec;
    Twice(s, t, ReadNext(n), Pop(n, s.next[n]));
    GoOn(Goto(s, t, ReadNext(n)), t, k, Goto(s, t, Pop(n, s.next[n])));
  }

  /** The list without its first node, for which thread `t` answers. */
  function Unlinked(s: State, t: nat): State
    requires s.stack != [] && s.stack[0] < |s.place|
  {
    Move(s, s.stack[0], Popped(t)).(head := First(s.stack[1..]), stack := s.stack[1..])
  }

  lemma Pops(s: State, t: nat, n: nat, next: Ptr, k: nat)
    requires t < |s.threads| && s.head == At(n) && Inv(Goto(s, t, Pop(n, next)))
    ensures s.stack != [] && s.stack[0] == n < |s.place|
    ensures Inv(Goto(Unlinked(s, t), t, Won(n)))
    ensures Exec(Goto(s, t, Pop(n, next)), Steps(t, k + 1)) == Exec(Goto(Unlinked(s, t), t, Won(n)), Steps(t, k))
  {
    PopIsCurrent(Goto(s, t, Pop(n, next)), t);
    hide Inv, Exec;
    Twice(Unlinked(s, t), t, Pop(n, next), Won(n));
    GoOn(Goto(s, t, Pop(n, next)), t, k, Goto(Unlinked(s, t), t, Won(n)));
  }

  /** Node `n` with a client once more. */
  function GivenOut(s: State, n: nat): State
    requires n < |s.refs| == |s.place| == |s.gets| && s.refs[n] >= 2
  {
    Move(SetCount(s, n, s.refs[n] - 2), n, Out).(gets := s.gets[n := s.gets[n] + 1])
  }

  lemma GivesBack(s: State, t: nat, n: nat)
    requires t < |s.threads| && Inv(Goto(s, t, Won(n)))
    ensures n < |s.refs| == |s.place| == |s.gets| && s.refs[n] >= 2
    ensures Exec(Goto(s, t, Won(n)), Steps(t, 1)) == Goto(GivenOut(s, n), t, Idle)
  {
    var w := Goto(s, t, Won(n));
    WonHolds(w, t);
    hide Inv, Exec;
    var r := Goto(GivenOut(s, n), t, Idle);
    Twice(GivenOut(s, n), t, Won(n), Idle);
    GoOn(w, t, 0, r);
    hide Step, Goto;
    StopThere(r, t);
  }

  lemma WonHolds(s: State, t: nat)
    requires Inv(s) && t < |s.threads| && s.threads[t].Won?
    ensures var n := s.threads[t].n; n < |s.refs| == |s.place| == |s.gets| && 2 <= s.refs[n] < WORD
  {
    StepWonKeeps(s, t);
  }

  /** What a getter leaves of a list that has a node. */
  function WithoutFirst(s: State): State
    requires s.stack != [] && s.stack[0] < |s.refs| == |s.place| == |s.gets| && s.refs[s.stack[0]] >= 1
  {
    var n := s.stack[0];
    s.(head := First(s.stack[1..]), stack := s.stack[1..], refs := s.refs[n := s.refs[n] - 1],
       place := s.place[n := Out], gets := s.gets[n := s.gets[n] + 1])
  }

  lemma ThreeMore(s: State, t: nat, n: nat)
    requires t < |s.threads| && Inv(Goto(s, t, ReadNext(n))) && s.stack != [] && s.stack[0] == n
    ensures n < |s.refs| == |s.place| == |s.gets| && s.refs[n] >= 2
    ensures Exec(Goto(s, t, ReadNext(n)), Steps(t, 3)) == Goto(GivenOut(Unlinked(s, t), n), t, Idle)
  {
    FirstNode(Goto(s, t, ReadNext(n)));
    hide *;
    ThreeAlone(s, t, n);
  }

  lemma ThreeAlone(s: State, t: nat, n: nat)
    requires t < |s.threads| && Inv(Goto(s, t, ReadNext(n))) && s.stack != [] && s.stack[0] == n
    requires n < |s.refs| == |s.place| == |s.gets| == |s.next| && s.head == At(n)
    ensures s.refs[n] >= 2
    ensures Exec(Goto(s, t, ReadNext(n)), Steps(t, 3)) == Goto(GivenOut(Unlinked(s, t), n), t, Idle)
  {
    hide Inv, Exec, Goto;
    ReadsNext(s, t, n, 2);
    Pops(s, t, n, s.next[n], 1);
    GivesBack(Unlinked(s, t), t, n);
  }

  lemma SameAs(s: State, t: nat, n: nat)
    requires s.stack != [] && s.stack[0] == n < |s.refs| == |s.place| == |s.gets| && s.refs[n] >= 1
    ensures var u := Unlinked(SetCount(s, n, s.refs[n] + 1), t);
            GivenOut(u, n) == WithoutFirst(s)
  {
    assert s.refs[n := s.refs[n] + 1][n := s.refs[n] - 1] == s.refs[n := s.refs[n] - 1];
    assert s.place[n := Popped(t)][n := Out] == s.place[n := Out];
  }

  /** Wherever the other threads are, a getter that they let run gives out exactly the first node of a list that has
      one, and leaves the others in their order. */
  lemma GetAlone(s: State, t: nat)
    requires Inv(s) && t < |s.threads| && s.threads[t].Idle? && s.stack != []
    ensures var n := s.stack[0]; n < |s.refs| == |s.place| == |s.gets| && s.refs[n] >= 1
    ensures Exec(s, [Ask(t)] + Steps(t, 6)) == WithoutFirst(s)
  {
    FirstNode(s);
    Asks(s, t, 6);
    hide *;
    GetsFirst(s, t, s.stack[0]);
    Returned(WithoutFirst(s), t, Idle);
    Untouched(s);
  }

  lemma Untouched(s: State)
    requires s.stack != [] && s.stack[0] < |s.refs| == |s.place| == |s.gets| && s.refs[s.stack[0]] >= 1
    ensures WithoutFirst(s).threads == s.threads
  {
  }

  lemma Asks(s: State, t: nat, k: nat)
    requires Inv(s) && t < |s.threads| && s.threads[t].Idle?
    ensures Inv(Goto(s, t, LoadHead)) && Exec(s, [Ask(t)] + Steps(t, k)) == Exec(Goto(s, t, LoadHead), Steps(t, k))
  {
    CallGetKeeps(s, t);
    hide Inv, Exec;
    ExecFirst(s, Ask(t), Steps(t, k));
  }

  lemma GetsFirst(s: State, t: nat, n: nat)
    requires t < |s.threads| && Inv(Goto(s, t, LoadHead))
    requires s.stack != [] && s.stack[0] == n < |s.refs| == |s.place| == |s.gets| && s.head == At(n) && 1 <= s.refs[n] < FLAG - 1
    ensures Exec(Goto(s, t, LoadHead), Steps(t, 6)) == Goto(WithoutFirst(s), t, Idle)
  {
    hide Inv, Exec, Goto, GivenOut, Unlinked, WithoutFirst;
    Loads(s, t, 5);
    Examines(s, t, n, 4);
    Acquires(s, t, n, 3);
    ThreeMore(SetCount(s, n, s.refs[n] + 1), t, n);
    SameAs(s, t, n);
  }

  /** Over an empty list it comes back with nothing, and nothing has changed. */
  lemma GetNothingAlone(s: State, t: nat)
    requires Inv(s) && t < |s.threads| && s.threads[t].Idle? && s.stack == []
    ensures Exec(s, [Ask(t)] + Steps(t, 2)) == s
  {
    hide *;
    HeadIsFirst(s);
    Asks(s, t, 2);
    Loads(s, t, 1);
    ExaminesNull(s, t);
  }

  lemma ExaminesNull(s: State, t: nat)
    requires t < |s.threads| && s.threads[t].Idle? && Inv(Goto(s, t, Examine(Null)))
    ensures Exec(Goto(s, t, Examine(Null)), Steps(t, 1)) == s
  {
    hide Inv, Exec;
    var e := Goto(s, t, Examine(Null));
    Twice(s, t, Examine(Null), Idle);
    Returned(s, t, Idle);
    GoOn(e, t, 0, s);
    hide Step, Goto;
    StopThere(s, t);
  }

  // ---------------------------------------------------------------- adding alone

  lemma OutCount(s: State, n: nat)
    requires Inv(s) && n < |s.place| && s.place[n].Out?
    ensures |s.refs| == |s.next| == |s.place| == |s.adds| && s.refs[n] < FLAG
  {
    assert Counted(s.refs[n], s.place[n], Holders(s.threads, n));
    CountBound(s, n);
  }

  lemma Gives(s: State, t: nat, n: nat, k: nat)
    requires Inv(s) && Enabled(s, Give(t, n)) && n < |s.adds|
    ensures var s0 := Move(s, n, Adding(t)).(adds := s.adds[n := s.adds[n] + 1]);
            && Inv(Goto(s0, t, Add(n)))
            && Exec(s, [Give(t, n)] + Steps(t, k)) == Exec(Goto(s0, t, Add(n)), Steps(t, k))
  {
    CallAddKeeps(s, t, n);
    hide Inv, Exec;
    ExecFirst(s, Give(t, n), Steps(t, k));
  }

  lemma Flags(s: State, t: nat, n: nat, k: nat)
    requires t < |s.threads| && Inv(Goto(s, t, Add(n)))
    ensures n < |s.refs| == |s.place| && s.refs[n] < FLAG
    ensures var r := Goto(Move(SetCount(s, n, s.refs[n] + FLAG), n, if s.refs[n] == 0 then Ready(t) else Pending), t,
                          if s.refs[n] == 0 then Load(n, Return) else Idle);
            Inv(r) && Exec(Goto(s, t, Add(n)), Steps(t, k + 1)) == Exec(r, Steps(t, k))
  {
    var a := Goto(s, t, Add(n));
    OwnNode(a, t);
    hide Inv, Exec, Holders;
    var l := if s.refs[n] == 0 then Load(n, Return) else Idle;
    var r := Move(SetCount(s, n, s.refs[n] + FLAG), n, if s.refs[n] == 0 then Ready(t) else Pending);
    Twice(r, t, Add(n), l);
    GoOn(a, t, k, Goto(r, t, l));
  }

  lemma LoadsForPush(s: State, t: nat, n: nat, k: nat)
    requires t < |s.threads| && n < |s.next| && Inv(Goto(s, t, Load(n, Return)))
    ensures var r := Goto(s.(next := s.next[n := s.head]), t, SetRefs(n, s.head, Return));
            Inv(r) && Exec(Goto(s, t, Load(n, Return)), Steps(t, k + 2)) == Exec(r, Steps(t, k))
  {
    hide Inv, Exec;
    Ranged(Goto(s, t, Load(n, Return)), t);
    Twice(s, t, Load(n, Return), SetNext(n, s.head, Return));
    GoOn(Goto(s, t, Load(n, Return)), t, k + 1, Goto(s, t, SetNext(n, s.head, Return)));
    var linked := s.(next := s.next[n := s.head]);
    Twice(linked, t, SetNext(n, s.head, Return), SetRefs(n, s.head, Return));
    GoOn(Goto(s, t, SetNext(n, s.head, Return)), t, k, Goto(linked, t, SetRefs(n, s.head, Return)));
  }

  lemma Ranged(s: State, t: nat)
    requires Inv(s) && t < |s.threads| && HasNode(s.threads[t])
    ensures s.threads[t].n < |s.refs| && Sizes(s)
  {
    OwnNode(s, t);
  }

  lemma Pushes(s: State, t: nat, n: nat)
    requires t < |s.threads| && n < |s.refs| == |s.place| && Inv(Goto(s, t, SetRefs(n, s.head, Return)))
    ensures Exec(Goto(s, t, SetRefs(n, s.head, Return)), Steps(t, 2)) ==
            Goto(Move(SetCount(s, n, 1), n, Listed).(head := At(n), stack := [n] + s.stack), t, Idle)
  {
    hide Inv, Exec;
    Ranged(Goto(s, t, SetRefs(n, s.head, Return)), t);
    var s1 := Move(SetCount(s, n, 1), n, Linking(t));
    Twice(s1, t, SetRefs(n, s.head, Return), Push(n, s.head, Return));
    GoOn(Goto(s, t, SetRefs(n, s.head, Return)), t, 1, Goto(s1, t, Push(n, s.head, Return)));
    var s2 := Move(SetCount(s, n, 1), n, Listed).(head := At(n), stack := [n] + s.stack);
    assert s.place[n := Linking(t)][n := Listed] == s.place[n := Listed];
    Twice(s2, t, Push(n, s.head, Return), Idle);
    GoOn(Goto(s1, t, Push(n, s.head, Return)), t, 0, Goto(s2, t, Idle));
    StopThere(Goto(s2, t, Idle), t);
  }

  /** An adder that the others let run puts its node in front of the list or, if some getter still holds a reference
      to it, leaves it flagged for that getter. */
  lemma AddAlone(s: State, t: nat, n: nat)
    requires Inv(s) && Enabled(s, Give(t, n))
    ensures n < |s.refs| == |s.next| == |s.place| == |s.adds|
    ensures s.refs[n] == 0 ==>
              Exec(s, [Give(t, n)] + Steps(t, 5)) ==
                s.(head := At(n), stack := [n] + s.stack, next := s.next[n := s.head], refs := s.refs[n := 1],
                   place := s.place[n := Listed], adds := s.adds[n := s.adds[n] + 1])
    ensures s.refs[n] != 0 ==>
              Exec(s, [Give(t, n)] + Steps(t, 1)) ==
                s.(refs := s.refs[n := s.refs[n] + FLAG], place := s.place[n := Pending],
                   adds := s.adds[n := s.adds[n] + 1])
  {
    OutCount(s, n);
    if s.refs[n] == 0 { AddsUnheld(s, t, n); } else { AddsHeld(s, t, n); }
    hide *;
  }

  lemma AddsHeld(s: State, t: nat, n: nat)
    requires Inv(s) && Enabled(s, Give(t, n)) && n < |s.refs| == |s.next| == |s.place| == |s.adds| && s.refs[n] != 0
    ensures Exec(s, [Give(t, n)] + Steps(t, 1)) ==
              s.(refs := s.refs[n := s.refs[n] + FLAG], place := s.place[n := Pending],
                 adds := s.adds[n := s.adds[n] + 1])
  {
    hide Inv, Exec;
    Gives(s, t, n, 1);
    var s0 := Move(s, n, Adding(t)).(adds := s.adds[n := s.adds[n] + 1]);
    Flags(s0, t, n, 0);
    var s1 := Move(SetCount(s0, n, s.refs[n] + FLAG), n, Pending);
    StopThere(Goto(s1, t, Idle), t);
    Returned(s1, t, Idle);
    assert s.place[n := Adding(t)][n := Pending] == s.place[n := Pending];
  }

  lemma AddsUnheld(s: State, t: nat, n: nat)
    requires Inv(s) && Enabled(s, Give(t, n)) && n < |s.refs| == |s.next| == |s.place| == |s.adds| && s.refs[n] == 0
    ensures Exec(s, [Give(t, n)] + Steps(t, 5)) ==
              s.(head := At(n), stack := [n] + s.stack, next := s.next[n := s.head], refs := s.refs[n := 1],
                 place := s.place[n := Listed], adds := s.adds[n := s.adds[n] + 1])
  {
    Gives(s, t, n, 5);
    Linked(s, t, n);
    hide *;
    AddsOnward(s, t, n, Move(s, n, Adding(t)).(adds := s.adds[n := s.adds[n] + 1]));
  }

  lemma AddsOnward(s: State, t: nat, n: nat, s0: State)
    requires t < |s.threads| && n < |s.refs| == |s.next| == |s.place| == |s.adds| && s.refs[n] == 0
    requires s0 == Move(s, n, Adding(t)).(adds := s.adds[n := s.adds[n] + 1]) && Inv(Goto(s0, t, Add(n)))
    ensures n < |s0.refs| == |s0.place|
    ensures var s1 := Move(SetCount(s0, n, FLAG), n, Ready(t)).(next := s.next[n := s.head]);
            n < |s1.refs| == |s1.place| && t < |s1.threads| &&
            Exec(Goto(s0, t, Add(n)), Steps(t, 5)) ==
              Goto(Move(SetCount(s1, n, 1), n, Listed).(head := At(n), stack := [n] + s.stack), t, Idle)
  {
    hide Inv, Exec, Goto, Steps;
    Flags(s0, t, n, 4);
    var s1 := Move(SetCount(s0, n, FLAG), n, Ready(t));
    LoadsForPush(s1, t, n, 2);
    Pushes(s1.(next := s.next[n := s.head]), t, n);
  }

  /** What the list is after that. */
  lemma Linked(s: State, t: nat, n: nat)
    requires t < |s.threads| && s.threads[t].Idle? && n < |s.refs| == |s.next| == |s.place| == |s.adds|
    ensures var s0 := Move(s, n, Adding(t)).(adds := s.adds[n := s.adds[n] + 1]);
            var s1 := Move(SetCount(s0, n, FLAG), n, Ready(t)).(next := s.next[n := s.head]);
            Goto(Move(SetCount(s1, n, 1), n, Listed).(head := At(n), stack := [n] + s.stack), t, Idle) ==
              s.(head := At(n), stack := [n] + s.stack, next := s.next[n := s.head], refs := s.refs[n := 1],
                 place := s.place[n := Listed], adds := s.adds[n := s.adds[n] + 1])
  {
    assert s.refs[n := FLAG][n := 1] == s.refs[n := 1];
    assert s.place[n := Adding(t)][n := Ready(t)][n := Listed] == s.place[n := Listed];
    assert s.threads[t := Idle] == s.threads;
  }
}
