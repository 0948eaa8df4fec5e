/** The reference-counted, CAS-based free list, for any number of threads.
    One step per load, store, CAS or fetch_add on a shared location. */
module FreeList {

  const WORD: int := 0x1_0000_0000
  const FLAG: nat := 0x8000_0000          // SHOULD_BE_ON_FREELIST

  datatype Ptr = Null | At(n: nat)

  /** Where `add_knowing_refcount_is_zero` goes on to: back to the client of `add`, or into the
      loop of `try_get` with the head that loop last saw. */
  datatype Back = Return | Continue(head: Ptr)

  /** Where a thread stands, with its local variables. */
  datatype Local =
    | Idle
    | Add(n: nat)                              // add: set the flag
    | Load(n: nat, back: Back)                 // add_knowing_refcount_is_zero: load the head
    | SetNext(n: nat, head: Ptr, back: Back)
    | SetRefs(n: nat, head: Ptr, back: Back)
    | Push(n: nat, head: Ptr, back: Back)      // CAS on the head
    | Undo(n: nat, head: Ptr, back: Back)      // after a lost CAS: flag on, list reference off
    | LoadHead                                 // try_get: load the head
    | Examine(head: Ptr)                       // null test, then load the count
    | Acquire(n: nat, refs: nat)               // CAS on the count
    | ReadNext(n: nat)
    | Pop(n: nat, next: Ptr)                   // CAS on the head
    | Won(n: nat)                              // check the flag, drop two references
    | Release(n: nat, head: Ptr)               // after a lost CAS: drop one reference

  /** Auxiliary: where each node is. No step reads it to decide anything. */
  datatype Place =
    | Out                  // with a client
    | Adding(t: nat)       // thread t is about to set the flag
    | Ready(t: nat)        // flag set, count zero: thread t prepares to link it
    | Linking(t: nat)      // count holds the list's reference: thread t is at the CAS or undoing
    | Listed
    | Pending              // flag set and still referenced: who drops the last reference links it
    | Popped(t: nat)       // thread t took it off and has not dropped its references yet

  /** `place`, `stack`, `adds` and `gets` are auxiliary; `stack` is the list from the head on. */
  datatype State = State(
    head: Ptr, refs: seq<nat>, next: seq<Ptr>, threads: seq<Local>,
    place: seq<Place>, stack: seq<nat>, adds: seq<nat>, gets: seq<nat>)

  // ---------------------------------------------------------------- steps

  /** The new value of a 32-bit word: the sum, wrapped around. */
  function FetchAdd(x: nat, delta: int): nat
    requires x < WORD && -WORD < delta < WORD
  {
    if x + delta < 0 then x + delta + WORD else if x + delta < WORD then x + delta else x + delta - WORD
  }

  /** `refs & REFS_MASK` */
  function Count(refs: nat): nat
    requires refs < WORD
  {
    if refs < FLAG then refs else refs - FLAG
  }

  lemma WordArithmetic(x: nat, delta: int)
    requires x < WORD && -WORD < delta < WORD
    ensures FetchAdd(x, delta) == (x + delta) % WORD && Count(x) == x % FLAG
  {
  }

  function Resume(back: Back): Local {
    match back
    case Return => Idle
    case Continue(head) => Examine(head)
  }

  function Goto(s: State, t: nat, l: Local): State
    requires t < |s.threads|
  {
    s.(threads := s.threads[t := l])
  }

  function Move(s: State, n: nat, p: Place): State
    requires n < |s.place|
  {
    s.(place := s.place[n := p])
  }

  function SetCount(s: State, n: nat, r: nat): State
    requires n < |s.refs|
  {
    s.(refs := s.refs[n := r])
  }

  function CallAdd(s: State, t: nat, n: nat): State
    requires t < |s.threads| && n < |s.place| && n < |s.adds|
  {
    Move(Goto(s, t, Add(n)), n, Adding(t)).(adds := s.adds[n := s.adds[n] + 1])
  }

  function CallGet(s: State, t: nat): State
    requires t < |s.threads|
  {
    Goto(s, t, LoadHead)
  }

  predicate Sizes(s: State) {
    |s.refs| == |s.next| == |s.place| == |s.adds| == |s.gets|
  }

  predicate InRange(l: Local, size: nat) {
    !l.Idle? && !l.LoadHead? && !l.Examine? ==> l.n < size
  }

  function StepAdd(s: State, t: nat): State
    requires Sizes(s) && t < |s.threads| && s.threads[t].Add? && s.threads[t].n < |s.refs|
    requires s.refs[s.threads[t].n] < WORD
  {
    var n := s.threads[t].n;
    var was := s.refs[n];
    var s1 := SetCount(s, n, FetchAdd(was, FLAG));
    if was == 0 then Move(Goto(s1, t, Load(n, Return)), n, Ready(t))
    else Move(Goto(s1, t, Idle), n, Pending)
  }

  function StepLoad(s: State, t: nat): State
    requires t < |s.threads| && s.threads[t].Load?
  {
    Goto(s, t, SetNext(s.threads[t].n, s.head, s.threads[t].back))
  }

  function StepSetNext(s: State, t: nat): State
    requires Sizes(s) && t < |s.threads| && s.threads[t].SetNext? && s.threads[t].n < |s.refs|
  {
    var l := s.threads[t];
    Goto(s, t, SetRefs(l.n, l.head, l.back)).(next := s.next[l.n := l.head])
  }

  function StepSetRefs(s: State, t: nat): State
    requires Sizes(s) && t < |s.threads| && s.threads[t].SetRefs? && s.threads[t].n < |s.refs|
  {
    var l := s.threads[t];
    Move(Goto(SetCount(s, l.n, 1), t, Push(l.n, l.head, l.back)), l.n, Linking(t))
  }

  function StepPush(s: State, t: nat): State
    requires Sizes(s) && t < |s.threads| && s.threads[t].Push? && s.threads[t].n < |s.refs|
  {
    var l := s.threads[t];
    if s.head == l.head then
      Move(Goto(s, t, Resume(l.back)), l.n, Listed).(head := At(l.n), stack := [l.n] + s.stack)
    else Goto(s, t, Undo(l.n, s.head, l.back))
  }

  function StepUndo(s: State, t: nat): State
    requires Sizes(s) && t < |s.threads| && s.threads[t].Undo? && s.threads[t].n < |s.refs|
    requires s.refs[s.threads[t].n] < WORD
  {
    var l := s.threads[t];
    var was := s.refs[l.n];
    var s1 := SetCount(s, l.n, FetchAdd(was, FLAG - 1));
    if was == 1 then Move(Goto(s1, t, SetNext(l.n, l.head, l.back)), l.n, Ready(t))
    else Move(Goto(s1, t, Resume(l.back)), l.n, Pending)
  }

  function StepLoadHead(s: State, t: nat): State
    requires t < |s.threads| && s.threads[t].LoadHead?
  {
    Goto(s, t, Examine(s.head))
  }

  function StepExamine(s: State, t: nat): State
    requires t < |s.threads| && s.threads[t].Examine?
    requires s.threads[t].head.At? ==> s.threads[t].head.n < |s.refs|
  {
    match s.threads[t].head
    case Null => Goto(s, t, Idle)
    case At(n) => Goto(s, t, Acquire(n, s.refs[n]))
  }

  function StepAcquire(s: State, t: nat): State
    requires t < |s.threads| && s.threads[t].Acquire? && s.threads[t].n < |s.refs|
    requires s.threads[t].refs < WORD
  {
    var l := s.threads[t];
    if Count(l.refs) == 0 || s.refs[l.n] != l.refs then Goto(s, t, LoadHead)
    else Goto(SetCount(s, l.n, FetchAdd(l.refs, 1)), t, ReadNext(l.n))
  }

  function StepReadNext(s: State, t: nat): State
    requires t < |s.threads| && s.threads[t].ReadNext? && s.threads[t].n < |s.next|
  {
    Goto(s, t, Pop(s.threads[t].n, s.next[s.threads[t].n]))
  }

  function StepPop(s: State, t: nat): State
    requires Sizes(s) && t < |s.threads| && s.threads[t].Pop? && s.threads[t].n < |s.refs|
    requires s.head.At? ==> s.stack != []
  {
    var l := s.threads[t];
    if s.head == At(l.n) then
      Move(Goto(s, t, Won(l.n)), l.n, Popped(t)).(head := l.next, stack := s.stack[1..])
    else Goto(s, t, Release(l.n, s.head))
  }

  function StepWon(s: State, t: nat): State
    requires Sizes(s) && t < |s.threads| && s.threads[t].Won? && s.threads[t].n < |s.refs|
    requires 2 <= s.refs[s.threads[t].n] < WORD
  {
    var n := s.threads[t].n;
    Move(Goto(SetCount(s, n, FetchAdd(s.refs[n], -2)), t, Idle), n, Out).(gets := s.gets[n := s.gets[n] + 1])
  }

  function StepRelease(s: State, t: nat): State
    requires Sizes(s) && t < |s.threads| && s.threads[t].Release? && s.threads[t].n < |s.refs|
    requires 1 <= s.refs[s.threads[t].n] < WORD
  {
    var l := s.threads[t];
    var was := s.refs[l.n];
    var s1 := SetCount(s, l.n, FetchAdd(was, -1));
    if was == FLAG + 1 then Move(Goto(s1, t, Load(l.n, Continue(l.head))), l.n, Ready(t))
    else Goto(s1, t, Examine(l.head))
  }

  // ---------------------------------------------------------------- invariant

  predicate Holds(l: Local, n: nat) {
    (l.ReadNext? || l.Pop? || l.Release?) && l.n == n
  }

  /** The threads that hold a reference to `n` taken in `try_get` (the winner of a pop excepted). */
  function Holders(threads: seq<Local>, n: nat): set<nat> {
    set t | 0 <= t < |threads| && Holds(threads[t], n)
  }

  /** The node a thread answers for, and the place that node must be in. */
  predicate Answers(l: Local, t: nat, n: nat, p: Place) {
    match l
    case Add(m) => n == m && p == Adding(t)
    case Load(m, _) => n == m && p == Ready(t)
    case SetNext(m, _, _) => n == m && p == Ready(t)
    case SetRefs(m, _, _) => n == m && p == Ready(t)
    case Push(m, _, _) => n == m && p == Linking(t)
    case Undo(m, _, _) => n == m && p == Linking(t)
    case Won(m) => n == m && p == Popped(t)
    case _ => false
  }

  predicate HasNode(l: Local) {
    l.Add? || l.Load? || l.SetNext? || l.SetRefs? || l.Push? || l.Undo? || l.Won?
  }

  predicate Unowned(p: Place) { p.Out? || p.Listed? || p.Pending? }

  function Owner(p: Place): nat
    requires !Unowned(p)
  {
    p.t
  }

  ghost predicate Owners(threads: seq<Local>, place: seq<Place>) {
    && (forall t | 0 <= t < |threads| && HasNode(threads[t]) ::
          threads[t].n < |place| && Answers(threads[t], t, threads[t].n, place[threads[t].n]))
    && (forall n | 0 <= n < |place| && !Unowned(place[n]) ::
          && Owner(place[n]) < |threads|
          && Answers(threads[Owner(place[n])], Owner(place[n]), n, place[n]))
  }

  /** What the count holds apart from the references of `try_get`. */
  function Base(p: Place): nat {
    match p
    case Out => 0
    case Adding(_) => 0
    case Ready(_) => FLAG
    case Pending => FLAG
    case Linking(_) => 1
    case Listed => 1
    case Popped(_) => 2
  }

  /** The law of the count. */
  ghost predicate Counted(refs: nat, p: Place, holders: set<nat>) {
    && refs == Base(p) + |holders|
    && (p.Ready? ==> holders == {})
    && (p.Pending? ==> holders != {})
  }

  ghost predicate Counts(refs: seq<nat>, place: seq<Place>, threads: seq<Local>) {
    |refs| == |place| &&
    forall n | 0 <= n < |refs| :: Counted(refs[n], place[n], Holders(threads, n))
  }

  predicate KnowsNext(l: Local, next: seq<Ptr>) {
    && (l.Pop? ==> l.n < |next| && l.next == next[l.n])
    && (l.SetRefs? || l.Push? ==> l.n < |next| && l.head == next[l.n])
  }

  /** A thread that holds a reference, or is linking a node, knows that node's `next`. */
  ghost predicate Knowledge(threads: seq<Local>, next: seq<Ptr>) {
    forall t | 0 <= t < |threads| :: KnowsNext(threads[t], next)
  }

  function First(stack: seq<nat>): Ptr { if stack == [] then Null else At(stack[0]) }

  ghost predicate Link(next: seq<Ptr>, stack: seq<nat>, i: nat)
    requires i < |stack| && stack[i] < |next|
  {
    next[stack[i]] == if i + 1 < |stack| then At(stack[i + 1]) else Null
  }

  ghost predicate Chain(head: Ptr, next: seq<Ptr>, stack: seq<nat>, place: seq<Place>) {
    && |next| == |place|
    && head == First(stack)
    && (forall i | 0 <= i < |stack| ::
          stack[i] < |next| && place[stack[i]].Listed?)
    && (forall i | 0 <= i < |stack| :: Link(next, stack, i))
    && (forall i, j | 0 <= i < j < |stack| :: stack[i] != stack[j])
    && (forall n | 0 <= n < |place| && place[n].Listed? :: n in stack)
  }

  predicate PtrOk(p: Ptr, size: nat) { p.At? ==> p.n < size }

  predicate PtrsOk(l: Local, size: nat) {
    && InRange(l, size)
    && (l.Acquire? ==> l.refs < WORD)
    && (l.SetNext? || l.SetRefs? || l.Push? || l.Undo? || l.Examine? || l.Release? ==> PtrOk(l.head, size))
    && (l.Load? || l.SetNext? || l.SetRefs? || l.Push? || l.Undo? ==>
          (l.back.Continue? ==> PtrOk(l.back.head, size)))
  }

  ghost predicate Ranges(s: State) {
    && Sizes(s)
    && |s.threads| + 2 < FLAG
    && (forall t | 0 <= t < |s.threads| :: PtrsOk(s.threads[t], |s.refs|))
  }

  /** Every node was given out as often as it was added, or once less while it is in here. */
  ghost predicate Tally(place: seq<Place>, adds: seq<nat>, gets: seq<nat>) {
    && |adds| == |gets| == |place|
    && forall n | 0 <= n < |place| :: adds[n] == gets[n] + (if place[n].Out? then 0 else 1)
  }

  ghost predicate Inv(s: State) {
    && Ranges(s)
    && Owners(s.threads, s.place)
    && Counts(s.refs, s.place, s.threads)
    && Knowledge(s.threads, s.next)
    && Chain(s.head, s.next, s.stack, s.place)
    && Tally(s.place, s.adds, s.gets)
  }
}
