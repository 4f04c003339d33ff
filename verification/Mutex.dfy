/** The mutex of kernel/sync.c on its single CPU, with any number of tasks.  Each of
    mutex_lock and mutex_unlock is one masked section; a task that had to block returns from
    mutex_lock without looking at the mutex again. */
module Mutex {
  import opened Base

  /** mutex_t. */
  datatype Fields = Fields(locked: bool, owner: Option<nat>, waiter: Option<nat>)

  function Acquired(m: Fields, current: nat): Fields {
    if m.locked then m.(waiter := Some(current)) else m.(locked := true, owner := Some(current))
  }

  function Released(m: Fields): Fields {
    if m.waiter.Some? then m.(owner := m.waiter, waiter := None) else m.(locked := false, owner := None)
  }

  /** mutex_t with the task states it changes: asleep[t] is state != 0. */
  class MutexT {
    var locked: bool
    var owner: Option<nat>
    var waiter: Option<nat>
    const asleep: array<bool>

    ghost function Value(): Fields
      reads this
    {
      Fields(locked, owner, waiter)
    }

    constructor (tasks: nat)
      ensures Value() == Fields(false, None, None) && fresh(asleep)
      ensures asleep.Length == tasks && forall t :: 0 <= t < tasks ==> !asleep[t]
    {
      locked, owner, waiter := false, None, None;
      asleep := new bool[tasks](_ => false);
    }

    /** mutex_lock up to the switch; entered is false when the caller must block. */
    method Lock(current: nat) returns (entered: bool)
      requires current < asleep.Length
      modifies this, asleep
      ensures entered == !old(locked)
      ensures entered ==> locked && owner == Some(current) && waiter == old(waiter) && asleep[..] == old(asleep[..])
      ensures !entered ==>
        && locked && owner == old(owner) && waiter == Some(current)
        && asleep[..] == old(asleep[..])[current := true]
      ensures Value() == Acquired(old(Value()), current)
    {
      if !locked {
        locked := true;
        owner := Some(current);
        return true;
      }
      waiter := Some(current);
      asleep[current] := true;
      return false;
    }

    /** mutex_unlock. */
    method Unlock()
      requires waiter.Some? ==> waiter.value < asleep.Length
      modifies this, asleep
      ensures old(waiter).Some? ==>
        && locked == old(locked) && owner == old(waiter) && waiter == None
        && asleep[..] == old(asleep[..])[old(waiter).value := false]
      ensures old(waiter).None? ==> !locked && owner == None && waiter == None && asleep[..] == old(asleep[..])
      ensures Value() == Released(old(Value()))
    {
      if waiter.Some? {
        var w := waiter.value;
        waiter := None;
        owner := Some(w);
        asleep[w] := false;
      } else {
        locked := false;
        owner := None;
      }
    }
  }

  // ---- runs ---------------------------------------------------------------------------

  datatype Phase =
    | Out        // neither holding nor asking
    | Waiting    // BLOCKED in mutex_lock
    | Granted    // READY again, mutex_lock has not returned yet
    | Inside     // mutex_lock has returned, mutex_unlock not yet called
    | Relocking  // BLOCKED in a second mutex_lock while Inside

  datatype State = State(m: Fields, phases: seq<Phase>)

  datatype Step = Lock(task: nat) | Return(task: nat) | Unlock(task: nat)

  predicate Asleep(p: Phase) { p.Waiting? || p.Relocking? }

  /** Between the moment a task is given the mutex and its call of mutex_unlock. */
  predicate Holds(p: Phase) { p.Granted? || p.Inside? || p.Relocking? }

  predicate Shape(s: State) {
    s.m.waiter.Some? ==> s.m.waiter.value < |s.phases|
  }

  /** The steps of code that may call mutex_unlock without holding the mutex. */
  predicate Possible(s: State, a: Step)
    requires Shape(s)
  {
    && a.task < |s.phases|
    && match a
       case Lock(t) => s.phases[t].Out? || s.phases[t].Inside?
       case Return(t) => s.phases[t].Granted?
       case Unlock(t) => s.phases[t].Out? || s.phases[t].Inside?
  }

  /** Owner-only unlock. */
  predicate Enabled(s: State, a: Step)
    requires Shape(s)
  {
    Possible(s, a) && (a.Unlock? ==> s.phases[a.task].Inside?)
  }

  function Do(s: State, a: Step): State
    requires Shape(s) && Possible(s, a)
  {
    match a
    case Lock(t) =>
      var p := if !s.m.locked then Inside else if s.phases[t].Inside? then Relocking else Waiting;
      State(Acquired(s.m, t), s.phases[t := p])
    case Return(t) => s.(phases := s.phases[t := Inside])
    case Unlock(t) =>
      var left := s.phases[t := Out];
      State(Released(s.m), if s.m.waiter.Some? then left[s.m.waiter.value := Granted] else left)
  }

  predicate Init(s: State) {
    s.m == Fields(false, None, None) && forall t :: 0 <= t < |s.phases| ==> s.phases[t].Out?
  }

  predicate Run(run: seq<State>, steps: seq<Step>) {
    && |run| == |steps| + 1 && Init(run[0])
    && forall i :: 0 <= i < |steps| ==> Shape(run[i]) && Enabled(run[i], steps[i]) && run[i + 1] == Do(run[i], steps[i])
  }

  /** The owner field names the one holder, and the registered waiter is BLOCKED. */
  predicate TaskInv(s: State, t: nat)
    requires t < |s.phases|
  {
    && (Holds(s.phases[t]) <==> s.m.owner == Some(t))
    && (s.m.waiter == Some(t) ==> Asleep(s.phases[t]))
  }

  predicate Inv(s: State) {
    && Shape(s)
    && (s.m.locked <==> s.m.owner.Some?)
    && (s.m.owner.Some? ==> s.m.owner.value < |s.phases|)
    && (s.m.waiter.Some? ==> s.m.locked)
    && (forall t :: 0 <= t < |s.phases| ==> TaskInv(s, t))
  }

  lemma StepKeepsInv(s: State, a: Step)
    requires Inv(s) && Enabled(s, a)
    ensures Inv(Do(s, a))
  {
    var r := Do(s, a);
    assert TaskInv(s, a.task);
    if s.m.waiter.Some? {
      assert TaskInv(s, s.m.waiter.value);
    }
    forall t | 0 <= t < |r.phases| ensures TaskInv(r, t) { assert TaskInv(s, t); }
  }

  lemma {:induction false} RunKeepsInv(run: seq<State>, steps: seq<Step>, i: nat)
    requires Run(run, steps) && i < |run|
    ensures Inv(run[i])
  {
    if i == 0 {
      forall t | 0 <= t < |run[0].phases| ensures TaskInv(run[0], t) {}
    } else {
      RunKeepsInv(run, steps, i - 1);
      StepKeepsInv(run[i - 1], steps[i - 1]);
      assert run[i - 1 + 1] == Do(run[i - 1], steps[i - 1]);
    }
  }

  // ---- what every run promises --------------------------------------------------------

  /** At most one task is between being given the mutex and giving it back. */
  lemma MutualExclusion(run: seq<State>, steps: seq<Step>, i: nat, t: nat, u: nat)
    requires Run(run, steps) && i < |run| && t < |run[i].phases| && u < |run[i].phases|
    requires Holds(run[i].phases[t]) && Holds(run[i].phases[u])
    ensures t == u && run[i].m.owner == Some(t)
  {
    RunKeepsInv(run, steps, i);
    assert TaskInv(run[i], t) && TaskInv(run[i], u);
  }

  predicate TwoHold(s: State, t: nat, u: nat) {
    t < |s.phases| && u < |s.phases| && t != u && Holds(s.phases[t]) && Holds(s.phases[u])
  }

  /** The callers for which mutex_unlock is harmless: the owner; anybody while the mutex is
      free; anybody while the owner itself is the registered waiter (it locked twice, and the
      unlock frees it).  The code checks none of this. */
  predicate MayUnlock(s: State, t: nat) {
    s.m.owner == Some(t) || !s.m.locked || s.m.waiter == s.m.owner
  }

  lemma HarmlessUnlock(s: State, t: nat)
    requires Inv(s) && Possible(s, Unlock(t)) && MayUnlock(s, t)
    ensures Inv(Do(s, Unlock(t)))
  {
    var r := Do(s, Unlock(t));
    assert TaskInv(s, t);
    if s.m.owner == Some(t) {
      StepKeepsInv(s, Unlock(t));
    } else if s.m.locked {
      assert TaskInv(s, s.m.owner.value);
      forall u | 0 <= u < |r.phases| ensures TaskInv(r, u) { assert TaskInv(s, u); }
    } else {
      assert r.phases == s.phases && r.m == s.m;
      forall u | 0 <= u < |r.phases| ensures TaskInv(r, u) { assert TaskInv(s, u); }
    }
  }

  /** A foreign unlock puts two tasks in possession: the owner and the registered waiter at
      once, or else the owner and whichever task locks next. */
  lemma HarmfulUnlock(s: State, t: nat)
    requires Inv(s) && Possible(s, Unlock(t)) && !MayUnlock(s, t)
    ensures var r := Do(s, Unlock(t)); var o := s.m.owner.value;
      && (s.m.waiter.Some? ==> TwoHold(r, o, s.m.waiter.value))
      && (s.m.waiter.None? ==>
            && r.phases[t].Out?
            && forall u :: 0 <= u < |r.phases| && r.phases[u].Out? ==> TwoHold(Do(r, Lock(u)), o, u))
  {
    assert TaskInv(s, t) && TaskInv(s, s.m.owner.value);
    if s.m.waiter.Some? {
      assert TaskInv(s, s.m.waiter.value);
    }
  }

  /** An unlock by an arbitrary task keeps mutual exclusion, at once and across the next
      mutex_lock, if and only if it is one of the harmless ones. */
  lemma UnlockIsSafeExactly(s: State, t: nat)
    requires Inv(s) && Possible(s, Unlock(t))
    ensures var r := Do(s, Unlock(t));
      MayUnlock(s, t) <==>
        && (forall a, b :: !TwoHold(r, a, b))
        && (forall u, a, b :: 0 <= u < |r.phases| && r.phases[u].Out? ==> !TwoHold(Do(r, Lock(u)), a, b))
  {
    var r := Do(s, Unlock(t));
    if MayUnlock(s, t) {
      HarmlessUnlock(s, t);
      forall a, b ensures !TwoHold(r, a, b) { OneHolder(r, a, b); }
      forall u, a, b | 0 <= u < |r.phases| && r.phases[u].Out? ensures !TwoHold(Do(r, Lock(u)), a, b) {
        StepKeepsInv(r, Lock(u));
        OneHolder(Do(r, Lock(u)), a, b);
      }
    } else {
      HarmfulUnlock(s, t);
    }
  }

  lemma OneHolder(s: State, a: nat, b: nat)
    requires Inv(s)
    ensures !TwoHold(s, a, b)
  {
    if a < |s.phases| && b < |s.phases| {
      assert TaskInv(s, a) && TaskInv(s, b);
    }
  }

  /** A foreign unlock from a reachable state: one task is inside, another calls mutex_unlock
      and then locks; both are inside. */
  lemma ForeignUnlockReachable() returns (run: seq<State>, steps: seq<Step>)
    ensures Run(run, steps) && Shape(run[|steps|])
    ensures var s := run[|steps|];
      && Possible(s, Unlock(1)) && !MayUnlock(s, 1)
      && var r := Do(s, Unlock(1));
         Shape(r) && Possible(r, Lock(1)) && TwoHold(Do(r, Lock(1)), 0, 1)
  {
    var s0 := State(Fields(false, None, None), [Out, Out]);
    var s1 := State(Fields(true, Some(0), None), [Inside, Out]);
    run, steps := [s0, s1], [Lock(0)];
    assert s1 == Do(s0, steps[0]);
  }

  /** An unlock with a waiter hands ownership straight over: until the new owner unlocks, no
      other task holds the mutex at any point, whatever they call. */
  lemma {:induction false} HandoverHolds(run: seq<State>, steps: seq<Step>, i: nat, j: nat, w: nat)
    requires Run(run, steps) && i < j < |run| && steps[i].Unlock? && run[i].m.waiter == Some(w)
    requires forall k :: i < k < j ==> steps[k] != Unlock(w)
    ensures run[j].m.owner == Some(w) && run[j].m.locked && w < |run[j].phases| && Holds(run[j].phases[w])
    ensures forall t :: 0 <= t < |run[j].phases| && t != w ==> !Holds(run[j].phases[t])
  {
    RunKeepsInv(run, steps, j);
    assert run[j - 1 + 1] == Do(run[j - 1], steps[j - 1]);
    if j > i + 1 {
      HandoverHolds(run, steps, i, j - 1, w);
      RunKeepsInv(run, steps, j - 1);
    }
    assert run[j].m.owner == Some(w);
    assert TaskInv(run[j], w);
    forall t | 0 <= t < |run[j].phases| && t != w ensures !Holds(run[j].phases[t]) { assert TaskInv(run[j], t); }
  }

  /** A BLOCKED task that nobody will wake: not in the waiter slot. */
  predicate Lost(s: State, t: nat) {
    t < |s.phases| && Asleep(s.phases[t]) && s.m.waiter != Some(t)
  }

  /** mutex_lock while both the mutex and its one waiter slot are taken. */
  predicate Overwrites(s: State, a: Step) {
    a.Lock? && s.m.locked && s.m.waiter.Some?
  }

  /** A lost task stays lost, whatever step is taken, and a step that overwrites no waiter
      loses nobody. */
  lemma StepsAndLost(s: State, a: Step, t: nat)
    requires Inv(s) && Enabled(s, a)
    ensures Lost(s, t) ==> Lost(Do(s, a), t)
    ensures !Overwrites(s, a) && !Lost(s, t) ==> !Lost(Do(s, a), t)
  {
    if t < |s.phases| {
      assert TaskInv(s, t) && TaskInv(s, a.task);
    }
  }

  lemma OverwritingLoses(s: State, a: Step)
    requires Inv(s) && Enabled(s, a) && Overwrites(s, a)
    ensures Lost(Do(s, a), s.m.waiter.value)
  {
    assert TaskInv(s, s.m.waiter.value) && TaskInv(s, a.task);
  }

  /** A lost task never runs again, whatever the rest of the run does. */
  lemma {:induction false} LostSleepsOn(run: seq<State>, steps: seq<Step>, i: nat, j: nat, t: nat)
    requires Run(run, steps) && i <= j < |run| && Lost(run[i], t)
    ensures Lost(run[j], t)
    decreases j
  {
    if i < j {
      LostSleepsOn(run, steps, i, j - 1, t);
      RunKeepsInv(run, steps, j - 1);
      StepsAndLost(run[j - 1], steps[j - 1], t);
      assert run[j - 1 + 1] == Do(run[j - 1], steps[j - 1]);
    }
  }

  lemma {:induction false} LostHasACause(run: seq<State>, steps: seq<Step>, i: nat, t: nat) returns (j: nat)
    requires Run(run, steps) && i < |run| && Lost(run[i], t)
    ensures j < i && Overwrites(run[j], steps[j])
    decreases i
  {
    assert i > 0;
    RunKeepsInv(run, steps, i - 1);
    assert run[i - 1 + 1] == Do(run[i - 1], steps[i - 1]);
    if Lost(run[i - 1], t) {
      j := LostHasACause(run, steps, i - 1, t);
    } else {
      StepsAndLost(run[i - 1], steps[i - 1], t);
      j := i - 1;
    }
  }

  /** At any point of any run, some task is BLOCKED without being the registered waiter if
      and only if an earlier mutex_lock found both the mutex and its waiter slot taken. */
  lemma LostWakeupsExactly(run: seq<State>, steps: seq<Step>, i: nat)
    requires Run(run, steps) && i < |run|
    ensures (exists t :: Lost(run[i], t)) <==> (exists j :: 0 <= j < i && Overwrites(run[j], steps[j]))
  {
    if t :| Lost(run[i], t) {
      var j := LostHasACause(run, steps, i, t);
    }
    if j :| 0 <= j < i && Overwrites(run[j], steps[j]) {
      RunKeepsInv(run, steps, j);
      OverwritingLoses(run[j], steps[j]);
      assert run[j + 1] == Do(run[j], steps[j]);
      LostSleepsOn(run, steps, j + 1, i, run[j].m.waiter.value);
    }
  }

  /** It does happen: one holder and two tasks that ask for the mutex meanwhile. */
  lemma TwoWaitersLoseOne() returns (run: seq<State>, steps: seq<Step>)
    ensures Run(run, steps) && Lost(run[|steps|], 1)
  {
    var s0 := State(Fields(false, None, None), [Out, Out, Out]);
    var s1 := State(Fields(true, Some(0), None), [Inside, Out, Out]);
    var s2 := State(Fields(true, Some(0), Some(1)), [Inside, Waiting, Out]);
    var s3 := State(Fields(true, Some(0), Some(2)), [Inside, Waiting, Waiting]);
    steps := [Lock(0), Lock(1), Lock(2)];
    assert s1 == Do(s0, steps[0]) && s2 == Do(s1, steps[1]) && s3 == Do(s2, steps[2]);
    run := [s0, s1, s2, s3];
  }

  /** With nobody lost, the next unlock serves the sleeping task, and it sleeps only while
      another task holds the mutex. */
  lemma SleeperIsNext(run: seq<State>, steps: seq<Step>, i: nat, w: nat)
    requires Run(run, steps) && i < |steps| && !Lost(run[i], w)
    requires w < |run[i].phases| && run[i].phases[w].Waiting?
    ensures run[i].m.owner.Some? && run[i].m.owner != Some(w)
    ensures steps[i].Unlock? ==> run[i + 1].phases[w].Granted? && run[i + 1].m.owner == Some(w)
  {
    RunKeepsInv(run, steps, i);
    assert TaskInv(run[i], w);
  }

  /** A task that locks the mutex it holds never returns, and the mutex is never free again. */
  lemma {:induction false} RelockIsForever(run: seq<State>, steps: seq<Step>, i: nat, j: nat, t: nat)
    requires Run(run, steps) && i <= j < |run| && t < |run[i].phases| && run[i].phases[t].Relocking?
    ensures t < |run[j].phases| && run[j].phases[t].Relocking? && run[j].m.locked && run[j].m.owner == Some(t)
  {
    RunKeepsInv(run, steps, j);
    if j > i {
      RelockIsForever(run, steps, i, j - 1, t);
      RunKeepsInv(run, steps, j - 1);
      var s, a := run[j - 1], steps[j - 1];
      assert run[j - 1 + 1] == Do(s, a);
      assert TaskInv(s, a.task);
    }
    assert TaskInv(run[j], t);
  }
}
