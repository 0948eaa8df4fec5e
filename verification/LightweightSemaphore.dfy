/** LightweightSemaphore with one waiting and one signalling thread. */
module Semaphore {

  /** Iterations of the spin loop of `waitWithPartialSpinning`. */
  const SPINS: nat := 10000

  datatype Waiter =
    | Away
    | Refused                             // tryWait returned false
    | Poll(left: nat, mayBlock: bool)     // about to load m_count, `left` more times at most
    | Claim                               // saw a positive count: about to decrement
    | LastClaim                           // out of spins: decrement come what may
    | Asleep                              // in m_sema.wait()
    | Through                             // the wait is over

  datatype Signaller = Quiet | Posting    // Posting: about to call m_sema.signal(1)

  datatype Sem = Sem(count: int, kernel: nat, waiter: Waiter, signaller: Signaller)

  predicate CanWait(s: Sem) {
    !s.waiter.Away? && !s.waiter.Refused? && !s.waiter.Through? && (s.waiter.Asleep? ==> s.kernel > 0)
  }

  function TryWait(s: Sem): Sem { s.(waiter := Poll(1, false)) }

  /** `wait`: one `tryWait`, then the spin loop. */
  function Wait(s: Sem): Sem { s.(waiter := Poll(1 + SPINS, true)) }

  function WaiterStep(s: Sem): Sem
    requires CanWait(s)
  {
    match s.waiter
    case Poll(left, mayBlock) =>
      if s.count > 0 then s.(waiter := Claim)
      else if left > 1 then s.(waiter := Poll(left - 1, mayBlock))
      else s.(waiter := if mayBlock then LastClaim else Refused)
    case Claim => s.(count := s.count - 1, waiter := Through)
    case LastClaim => s.(count := s.count - 1, waiter := if s.count <= 0 then Asleep else Through)
    case Asleep => s.(kernel := s.kernel - 1, waiter := Through)
  }

  function Signal(s: Sem, n: nat): Sem {
    s.(count := s.count + n, signaller := if s.count < 0 then Posting else Quiet)
  }

  function Post(s: Sem): Sem { s.(kernel := s.kernel + 1, signaller := Quiet) }

  /** The count never falls below -1, and is -1 only while the waiter sleeps; a sleeping waiter that
      may go has exactly one kernel signal, posted or on its way, and nobody else ever has one. */
  predicate Sound(s: Sem) {
    && s.count >= -1
    && (s.count == -1 ==> s.waiter.Asleep?)
    && s.kernel + (if s.signaller.Posting? then 1 else 0)
         == (if s.waiter.Asleep? && s.count >= 0 then 1 else 0)
    && (s.waiter.Claim? ==> s.count >= 1)
  }

  lemma WaiterStepSound(s: Sem)
    requires Sound(s) && CanWait(s)
    ensures Sound(WaiterStep(s))
    ensures WaiterStep(s).waiter.Through? ==> WaiterStep(s).count >= 0
  {
  }

  /** How a wait ends. It is refused only by a `tryWait` that sees no count, and then has taken nothing; it sleeps only
      in a `wait` that finds none; it gets through by taking one, off the count or off the kernel semaphore. */
  lemma WaiterOutcome(s: Sem)
    requires Sound(s) && CanWait(s)
    ensures var r := WaiterStep(s);
            && (r.waiter.Refused? ==> s.count <= 0 && r.count == s.count && s.waiter == Poll(s.waiter.left, false))
            && (r.waiter.Asleep? ==> s.count <= 0 && r.count == s.count - 1)
            && (r.waiter.Through? ==>
                  r.count + r.kernel + 1 == s.count + s.kernel && (s.waiter.Asleep? <==> r.kernel + 1 == s.kernel))
            && (r.waiter.Poll? ==> s.waiter.Poll? && r.waiter.mayBlock == s.waiter.mayBlock && r.waiter.left < s.waiter.left)
            && (r.waiter.LastClaim? ==> s.waiter.Poll? && s.waiter.mayBlock)
            && r.signaller == s.signaller
  {
  }

  /** Alone, `tryWait` takes one off a positive count and is refused by any other. */
  lemma TryWaitAlone(s: Sem)
    requires Sound(s) && (s.waiter.Away? || s.waiter.Refused? || s.waiter.Through?)
    ensures var r := WaiterStep(TryWait(s));
            if s.count > 0 then Sound(r) && WaiterStep(r) == s.(count := s.count - 1, waiter := Through)
            else r == s.(waiter := Refused)
  {
  }

  /** Alone, `wait` takes one off a positive count at its first look. */
  lemma WaitAlone(s: Sem)
    requires Sound(s) && (s.waiter.Away? || s.waiter.Refused? || s.waiter.Through?) && s.count > 0
    ensures var r := WaiterStep(Wait(s)); Sound(r) && WaiterStep(r) == s.(count := s.count - 1, waiter := Through)
  {
  }

  /** A signal is sound exactly when it adds something or nobody sleeps. */
  lemma SignalSoundIff(s: Sem, n: nat)
    requires Sound(s) && s.signaller.Quiet?
    ensures Sound(Signal(s, n)) <==> n > 0 || s.count >= 0
  {
  }

  lemma PostSound(s: Sem)
    requires Sound(s) && s.signaller.Posting?
    ensures Sound(Post(s))
  {
  }

  /** `signal(0)` while the waiter sleeps lets it through on a count of -1. */
  lemma EmptySignalReleases()
    ensures var s := Sem(-1, 0, Asleep, Quiet);
            var t := WaiterStep(Post(Signal(s, 0)));
            Sound(s) && t.waiter.Through? && t.count == -1
  {
  }

  /** The semaphore object: the same steps on its two counters in place. */
  class LightweightSemaphore {
    var m_count: int
    var m_sema: nat
    var waiter: Waiter
    var signaller: Signaller

    function View(): Sem reads this { Sem(m_count, m_sema, waiter, signaller) }

    constructor (initialCount: nat)
      ensures View() == Sem(initialCount, 0, Away, Quiet) && Sound(View())
    {
      m_count, m_sema, waiter, signaller := initialCount, 0, Away, Quiet;
    }

    method StepWaiter()
      requires Sound(View()) && CanWait(View())
      modifies this
      ensures View() == WaiterStep(old(View())) && Sound(View())
    {
      WaiterStepSound(View());
      match waiter {
        case Poll(left, mayBlock) =>
          if m_count > 0 {
            waiter := Claim;
          } else if left > 1 {
            waiter := Poll(left - 1, mayBlock);
          } else {
            waiter := if mayBlock then LastClaim else Refused;
          }
        case Claim =>
          m_count := m_count - 1;
          waiter := Through;
        case LastClaim =>
          var oldCount := m_count;
          m_count := m_count - 1;
          waiter := if oldCount <= 0 then Asleep else Through;
        case Asleep =>
          m_sema := m_sema - 1;
          waiter := Through;
      }
    }

    method StepSignal(n: nat)
      requires Sound(View()) && signaller.Quiet? && (n > 0 || m_count >= 0)
      modifies this
      ensures View() == Signal(old(View()), n) && Sound(View())
    {
      SignalSoundIff(View(), n);
      var oldCount := m_count;
      m_count := m_count + n;
      signaller := if oldCount < 0 then Posting else Quiet;
    }

    method StepPost()
      requires Sound(View()) && signaller.Posting?
      modifies this
      ensures View() == Post(old(View())) && Sound(View())
    {
      PostSound(View());
      m_sema := m_sema + 1;
      signaller := Quiet;
    }
  }
}
