/**
 The resizable semaphore that gates the file workers (crates/cursdel-core/src/sync.rs): a mutex, a condition variable
 and two numbers. A critical section is one step; a thread that has dropped the lock and not yet notified is between
 two steps. The condition variable may wake a waiter for no reason.
 */
module Semaphore {
  import opened Wrappers

  /** What the mutex protects. */
  datatype Permits = Permits(granted: nat, capacity: nat)

  function AtLeastOne(n: nat): nat {
    if n == 0 then 1 else n
  }

  function Take(p: Permits): Option<Permits> {
    if p.granted >= p.capacity then None else Some(p.(granted := p.granted + 1))
  }

  function GiveBack(p: Permits): Permits {
    p.(granted := if p.granted == 0 then 0 else p.granted - 1)
  }

  function WithCapacity(p: Permits, n: nat): Permits {
    p.(capacity := AtLeastOne(n))
  }

  /** The critical sections, as the methods of the semaphore. */
  class ResizableSemaphore {
    var granted: nat
    var capacity: nat

    function State(): Permits
      reads this
    {
      Permits(granted, capacity)
    }

    constructor (initialCapacity: nat)
      ensures State() == Permits(0, AtLeastOne(initialCapacity))
      ensures initialCapacity > 0 ==> capacity == initialCapacity
    {
      granted := 0;
      capacity := if initialCapacity == 0 then 1 else initialCapacity;
    }

    /** One pass through the loop of `acquire`: either the permit is taken, or the caller goes to sleep. */
    method TryAcquire() returns (taken: bool)
      modifies this
      ensures taken <==> old(granted) < old(capacity)
      ensures taken ==> Take(old(State())) == Some(State()) && granted <= capacity
      ensures !taken ==> State() == old(State())
    {
      if granted >= capacity {
        return false;
      }
      granted := granted + 1;
      return true;
    }

    /** `release` up to the point where the lock is dropped. */
    method ReleaseLocked()
      modifies this
      ensures State() == GiveBack(old(State())) && capacity == old(capacity)
      ensures granted == if old(granted) == 0 then 0 else old(granted) - 1
    {
      if granted > 0 {
        granted := granted - 1;
      }
    }

    /** `set_capacity` up to the point where the lock is dropped; no permit is taken away. */
    method SetCapacityLocked(newCapacity: nat)
      modifies this
      ensures State() == WithCapacity(old(State()), newCapacity) && granted == old(granted)
      ensures capacity == if newCapacity == 0 then 1 else newCapacity
    {
      capacity := if newCapacity == 0 then 1 else newCapacity;
    }
  }

  // ---------------------------------------------------------------------------------------------------------------
  // Threads
  // ---------------------------------------------------------------------------------------------------------------

  datatype Pc =
    | Outside        // not using the semaphore
    | Asleep         // waiting on the condition variable
    | Woken          // notified, about to take the lock and look again
    | Holding        // has a permit
    | NotifyOneNext  // in release, lock dropped, about to notify one
    | NotifyAllNext  // in set_capacity, lock dropped, about to notify all

  datatype State = State(permits: Permits, threads: seq<Pc>)

  datatype Action =
    | Acquire(t: nat)             // a newcomer, or a thread that was woken, goes through the loop once
    | WakeForNoReason(t: nat)
    | Release(t: nat)
    | NotifyOne(t: nat, w: nat)   // thread w is the one that is woken, if anybody is asleep
    | Resize(t: nat, n: nat)
    | NotifyAll(t: nat)

  predicate Enabled(s: State, a: Action) {
    && a.t < |s.threads|
    && match a
       case Acquire(t) => s.threads[t].Outside? || s.threads[t].Woken?
       case WakeForNoReason(t) => s.threads[t].Asleep?
       case Release(t) => s.threads[t].Holding?
       case NotifyOne(t, w) =>
         s.threads[t].NotifyOneNext? && (Count(s.threads, Asleep) > 0 ==> w < |s.threads| && s.threads[w].Asleep?)
       case Resize(t, _) => s.threads[t].Outside?
       case NotifyAll(t) => s.threads[t].NotifyAllNext?
  }

  function Count(threads: seq<Pc>, pc: Pc): nat {
    if |threads| == 0 then 0
    else Count(threads[..|threads| - 1], pc) + if threads[|threads| - 1] == pc then 1 else 0
  }

  function WakeAll(threads: seq<Pc>): (woken: seq<Pc>)
    ensures |woken| == |threads|
  {
    seq(|threads|, i requires 0 <= i < |threads| => if threads[i].Asleep? then Woken else threads[i])
  }

  function Apply(s: State, a: Action): State
    requires Enabled(s, a)
  {
    match a
    case Acquire(t) =>
      (match Take(s.permits)
       case None => s.(threads := s.threads[t := Asleep])
       case Some(p) => State(p, s.threads[t := Holding]))
    case WakeForNoReason(t) => s.(threads := s.threads[t := Woken])
    case Release(t) => State(GiveBack(s.permits), s.threads[t := NotifyOneNext])
    case NotifyOne(t, w) =>
      if Count(s.threads, Asleep) > 0 then s.(threads := s.threads[w := Woken][t := Outside])
      else s.(threads := s.threads[t := Outside])
    case Resize(t, n) => State(WithCapacity(s.permits, n), s.threads[t := NotifyAllNext])
    case NotifyAll(t) => s.(threads := WakeAll(s.threads)[t := Outside])
  }

  ghost predicate IsInit(s: State) {
    s.permits.granted == 0 && s.permits.capacity >= 1 && forall t :: 0 <= t < |s.threads| ==> s.threads[t] == Outside
  }

  predicate TakesAt(states: seq<State>, actions: seq<Action>, k: nat) {
    && k < |actions| && k + 1 < |states|
    && Enabled(states[k], actions[k]) && states[k + 1] == Apply(states[k], actions[k])
  }

  ghost predicate IsRun(states: seq<State>, actions: seq<Action>) {
    && |states| == |actions| + 1 && IsInit(states[0])
    && forall k: nat :: k < |actions| ==> TakesAt(states, actions, k)
  }

  // ---------------------------------------------------------------------------------------------------------------
  // Counting
  // ---------------------------------------------------------------------------------------------------------------

  lemma {:induction false} CountMove(threads: seq<Pc>, t: nat, to: Pc, pc: Pc)
    requires t < |threads|
    ensures Count(threads[t := to], pc) + (if threads[t] == pc then 1 else 0)
            == Count(threads, pc) + if to == pc then 1 else 0
  {
    var n := |threads| - 1;
    if t == n {
      assert threads[t := to][..n] == threads[..n];
    } else {
      CountMove(threads[..n], t, to, pc);
      assert threads[t := to][..n] == threads[..n][t := to];
    }
  }

  lemma {:induction false} CountWoken(threads: seq<Pc>)
    ensures Count(WakeAll(threads), Asleep) == 0
    ensures Count(WakeAll(threads), Woken) == Count(threads, Woken) + Count(threads, Asleep)
    ensures forall pc: Pc :: !pc.Asleep? && !pc.Woken? ==> Count(WakeAll(threads), pc) == Count(threads, pc)
  {
    if |threads| > 0 {
      var n := |threads| - 1;
      CountWoken(threads[..n]);
      assert WakeAll(threads)[..n] == WakeAll(threads[..n]);
    }
  }

  lemma {:induction false} CountNone(threads: seq<Pc>, pc: Pc)
    ensures Count(threads, pc) == 0 <==> pc !in threads
  {
    if |threads| > 0 {
      var n := |threads| - 1;
      CountNone(threads[..n], pc);
      assert threads == threads[..n] + [threads[n]];
    }
  }

  // ---------------------------------------------------------------------------------------------------------------
  // No wakeup is lost
  // ---------------------------------------------------------------------------------------------------------------

  function Min(a: int, b: int): int {
    if a < b then a else b
  }

  /** Threads that will look again without anybody having to do anything for them, and notifications on their way. */
  function OnTheWay(s: State): nat {
    Count(s.threads, Woken) + Count(s.threads, NotifyOneNext)
  }

  function WantingAPermit(s: State): nat {
    Count(s.threads, Asleep) + Count(s.threads, Woken)
  }

  ghost predicate NoLostWakeup(s: State) {
    || Count(s.threads, NotifyAllNext) > 0
    || OnTheWay(s) >= Min(WantingAPermit(s), s.permits.capacity - s.permits.granted)
  }

  ghost predicate Inv(s: State) {
    && s.permits.capacity >= 1
    && s.permits.granted == Count(s.threads, Holding)
    && NoLostWakeup(s)
  }

  /** One thread goes from one place to another. */
  lemma MoveCounts(s: State, t: nat, to: Pc)
    requires t < |s.threads|
    ensures forall pc: Pc :: Count(s.threads[t := to], pc) + (if s.threads[t] == pc then 1 else 0)
                             == Count(s.threads, pc) + if to == pc then 1 else 0
  {
    forall pc: Pc
      ensures Count(s.threads[t := to], pc) + (if s.threads[t] == pc then 1 else 0)
              == Count(s.threads, pc) + if to == pc then 1 else 0
    {
      CountMove(s.threads, t, to, pc);
    }
  }

  lemma {:induction false} InitKeeps(s: State)
    requires IsInit(s)
    ensures Inv(s)
  {
    forall pc: Pc | !pc.Outside? ensures Count(s.threads, pc) == 0 {
      CountNone(s.threads, pc);
    }
  }

  /** Every step keeps the invariant. */
  lemma ApplyKeeps(s: State, a: Action)
    requires Inv(s) && Enabled(s, a)
    ensures Inv(Apply(s, a))
  {
    match a
    case Acquire(t) =>
      MoveCounts(s, t, Holding);
      MoveCounts(s, t, Asleep);
    case WakeForNoReason(t) => MoveCounts(s, t, Woken);
    case Release(t) => MoveCounts(s, t, NotifyOneNext);
    case NotifyOne(t, w) =>
      MoveCounts(s, t, Outside);
      if Count(s.threads, Asleep) > 0 {
        MoveCounts(s, w, Woken);
        MoveCounts(s.(threads := s.threads[w := Woken]), t, Outside);
      }
    case Resize(t, n) => MoveCounts(s, t, NotifyAllNext);
    case NotifyAll(t) =>
      CountWoken(s.threads);
      MoveCounts(s.(threads := WakeAll(s.threads)), t, Outside);
  }

  lemma {:induction false} RunKeeps(states: seq<State>, actions: seq<Action>, k: nat)
    requires IsRun(states, actions) && k < |states|
    ensures Inv(states[k])
  {
    if k == 0 {
      InitKeeps(states[0]);
    } else {
      RunKeeps(states, actions, k - 1);
      assert TakesAt(states, actions, k - 1);
      ApplyKeeps(states[k - 1], actions[k - 1]);
    }
  }

  /**
   In every state of every run, resizes included: the granted permits are those held, and unless everybody is about to
   be notified, the threads already woken and the notifications on their way are at least as many as the free permits
   that somebody wants.
   */
  lemma NoWakeupIsLost(states: seq<State>, actions: seq<Action>, k: nat)
    requires IsRun(states, actions) && k < |states|
    ensures var s := states[k];
            && s.permits.granted == Count(s.threads, Holding)
            && (Count(s.threads, NotifyAllNext) == 0 ==>
                  OnTheWay(s) >= Min(WantingAPermit(s), s.permits.capacity - s.permits.granted))
  {
    RunKeeps(states, actions, k);
  }

  /** Somebody is asleep while a permit is free only if a wakeup is still on its way. */
  lemma NobodySleepsForNothing(states: seq<State>, actions: seq<Action>, k: nat, t: nat)
    requires IsRun(states, actions) && k < |states| && t < |states[k].threads| && states[k].threads[t].Asleep?
    requires states[k].permits.granted < states[k].permits.capacity
    ensures exists u :: 0 <= u < |states[k].threads|
                        && (states[k].threads[u].Woken? || states[k].threads[u].NotifyOneNext?
                            || states[k].threads[u].NotifyAllNext?)
  {
    var s := states[k];
    RunKeeps(states, actions, k);
    CountNone(s.threads, Asleep);
    CountNone(s.threads, Woken);
    CountNone(s.threads, NotifyOneNext);
    CountNone(s.threads, NotifyAllNext);
  }

  /** A permit is only ever taken within the capacity of the moment, whatever was resized before. */
  lemma NeverTakenBeyondCapacity(states: seq<State>, actions: seq<Action>, k: nat)
    requires IsRun(states, actions) && k < |actions| && actions[k].Acquire?
    requires actions[k].t < |states[k + 1].threads| && states[k + 1].threads[actions[k].t].Holding?
    ensures Count(states[k + 1].threads, Holding) <= states[k + 1].permits.capacity
  {
    RunKeeps(states, actions, k);
    RunKeeps(states, actions, k + 1);
    assert TakesAt(states, actions, k);
  }
}
