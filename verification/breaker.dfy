/** The recovery circuit breaker and its closed form over whole observation histories. */
module Breaker {

  const U32_MAX: nat := 0xffff_ffff

  type U32 = n: nat | n <= U32_MAX

  datatype RecoveryPolicy = AutoReset(healStreak: U32) | Latch

  datatype BreakerState = Closed | Open | HalfOpen

  datatype Event = Healthy | Faulty | Rearm

  /** Healthy ticks since the last fault, or `None` when there was no fault since the start or the last rearm. */
  datatype Since = Never | Ticks(n: nat)

  function SinceFault(h: seq<Event>): Since {
    if h == [] then Never
    else
      match h[|h| - 1]
      case Rearm => Never
      case Faulty => Ticks(0)
      case Healthy =>
        match SinceFault(h[..|h| - 1])
        case Never => Never
        case Ticks(n) => Ticks(n + 1)
  }

  /** The streak that half-opens the breaker. */
  function Streak(k: U32): (m: nat)
    ensures m >= 1
  {
    if k == 0 then 1 else k
  }

  function SaturatingNext(n: U32): U32 {
    if n < U32_MAX then n + 1 else n
  }

  /** The state a history leads to. */
  function StateAfter(p: RecoveryPolicy, h: seq<Event>): BreakerState {
    match SinceFault(h)
    case Never => Closed
    case Ticks(n) =>
      match p
      case Latch => Open
      case AutoReset(k) => if n < Streak(k) then Open else if n == Streak(k) then HalfOpen else Closed
  }

  class RecoveryBreaker {
    var state: BreakerState
    const policy: RecoveryPolicy
    var healCount: U32
    ghost var history: seq<Event>

    /** The state is the closed form of the history; the heal counter counts healthy ticks while not closed. */
    ghost predicate Valid()
      reads this
    {
      && state == StateAfter(policy, history)
      && (policy.AutoReset? ==>
            healCount == match SinceFault(history)
                         case Never => 0
                         case Ticks(n) => if n <= Streak(policy.healStreak) then n else 0)
    }

    constructor (p: RecoveryPolicy)
      ensures Valid() && policy == p && history == []
    {
      state, policy, healCount, history := Closed, p, 0, [];
    }

    method Observe(faulty: bool) returns (s: BreakerState)
      requires Valid()
      modifies this
      ensures Valid() && s == state && history == old(history) + [if faulty then Faulty else Healthy]
    {
      ghost var was := history;
      history := history + [if faulty then Faulty else Healthy];
      assert history[..|history| - 1] == was;
      if faulty {
        state := Open;
        healCount := 0;
        return state;
      }
      match state {
        case Closed =>
        case Open =>
          match policy {
            case Latch =>
            case AutoReset(k) =>
              healCount := SaturatingNext(healCount);
              if healCount >= Streak(k) {
                state := HalfOpen;
              }
          }
        case HalfOpen =>
          state := Closed;
          healCount := 0;
      }
      s := state;
    }

    method RearmNow()
      requires Valid()
      modifies this
      ensures Valid() && state == Closed && history == old(history) + [Rearm]
    {
      state := Closed;
      healCount := 0;
      history := history + [Rearm];
    }
  }

  // ---- the closed form against the plain history ----

  /** The last fault of the history is at `i`: nothing after it but healthy ticks. */
  ghost predicate LastFaultAt(h: seq<Event>, i: nat) {
    i < |h| && h[i] == Faulty && forall j | i < j < |h| :: h[j] == Healthy
  }

  lemma {:induction false} SinceFaultMeaning(h: seq<Event>)
    ensures
      match SinceFault(h)
      case Ticks(n) => n < |h| && LastFaultAt(h, |h| - 1 - n)
      case Never => forall i | 0 <= i < |h| :: !LastFaultAt(h, i)
  {
    if h != [] {
      var init := h[..|h| - 1];
      SinceFaultMeaning(init);
      assert forall i | 0 <= i < |init| :: init[i] == h[i];
      if h[|h| - 1] == Healthy {
        match SinceFault(init)
        case Ticks(n) => assert LastFaultAt(h, |h| - 2 - n);
        case Never =>
          forall i | 0 <= i < |h| ensures !LastFaultAt(h, i) {
            assert i < |init| ==> (LastFaultAt(h, i) ==> LastFaultAt(init, i));
          }
      }
    }
  }

  lemma LastFaultOnce(h: seq<Event>, i: nat, j: nat)
    requires LastFaultAt(h, i) && LastFaultAt(h, j)
    ensures i == j
  {
  }

  /** A fault happened and no rearm came after it. */
  ghost predicate FaultStands(h: seq<Event>) {
    exists i | 0 <= i < |h| :: h[i] == Faulty && forall j | i < j < |h| :: h[j] != Rearm
  }

  lemma {:induction false} SinceFaultStands(h: seq<Event>)
    ensures SinceFault(h).Ticks? <==> FaultStands(h)
  {
    if h != [] {
      var init, last := h[..|h| - 1], h[|h| - 1];
      SinceFaultStands(init);
      assert forall i | 0 <= i < |init| :: init[i] == h[i];
      match last
      case Rearm =>
      case Faulty => assert h[|h| - 1] == Faulty;
      case Healthy =>
        if FaultStands(init) {
          var i :| 0 <= i < |init| && init[i] == Faulty && forall j | i < j < |init| :: init[j] != Rearm;
          assert h[i] == Faulty && forall j | i < j < |h| :: h[j] != Rearm;
        }
        if FaultStands(h) {
          var i :| 0 <= i < |h| && h[i] == Faulty && forall j | i < j < |h| :: h[j] != Rearm;
          assert init[i] == Faulty && forall j | i < j < |init| :: init[j] != Rearm;
        }
    }
  }

  /** A latched breaker isolates exactly when a fault stands: only a rearm lifts it. */
  lemma LatchIsolatesIff(h: seq<Event>)
    ensures StateAfter(Latch, h) == (if FaultStands(h) then Open else Closed)
  {
    SinceFaultStands(h);
  }

  /** An auto-resetting breaker isolates exactly while at most the streak of healthy ticks follows the last fault. */
  lemma AutoResetIsolatesIff(k: U32, h: seq<Event>)
    ensures StateAfter(AutoReset(k), h) != Closed <==>
            exists i | 0 <= i < |h| :: LastFaultAt(h, i) && |h| - 1 - i <= Streak(k)
  {
    SinceFaultMeaning(h);
    match SinceFault(h)
    case Never =>
    case Ticks(n) =>
      assert LastFaultAt(h, |h| - 1 - n);
      forall i | 0 <= i < |h| && LastFaultAt(h, i) ensures i == |h| - 1 - n { LastFaultOnce(h, i, |h| - 1 - n); }
  }
}
