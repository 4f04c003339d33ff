/** The event flags of kernel/sync.c.  event_set, event_clear and the first part of
    event_wait are masked sections; a task that had to block returns wake_result when it
    next runs, however long after the set that woke it. */
module Event {
  import opened Base

  /** An unsigned int as the set of its one bits: & is intersection, | union and & ~ set
      difference.  Nothing here carries from one bit to another. */
  type Word = set<nat>

  /** event_t; wait_all is read as a truth value. */
  datatype Fields = Fields(flags: Word, waiter: Option<nat>, waitMask: Word, waitAll: bool, wakeResult: Word)

  /** The condition a wait asks for. */
  predicate Meets(flags: Word, mask: Word, all: bool) {
    if all then flags * mask == mask else flags * mask != {}
  }

  predicate Satisfied(e: Fields) { Meets(e.flags, e.waitMask, e.waitAll) }

  function AfterSet(e: Fields, bits: Word): Fields {
    var f := e.(flags := e.flags + bits);
    if f.waiter.Some? && Satisfied(f) then f.(waiter := None, wakeResult := f.flags * f.waitMask) else f
  }

  function AfterClear(e: Fields, bits: Word): Fields {
    e.(flags := e.flags - bits)
  }

  /** event_wait by `current`, up to its return or its switch. */
  function AfterWait(e: Fields, current: nat, mask: Word, all: bool): Fields {
    var f := e.(waitMask := mask, waitAll := all);
    if Satisfied(f) then f else f.(waiter := Some(current))
  }

  /** event_t with the task states it changes: asleep[t] is state != 0. */
  class EventT {
    var flags: Word
    var waiter: Option<nat>
    var waitMask: Word
    var waitAll: bool
    var wakeResult: Word
    const asleep: array<bool>

    ghost function Value(): Fields
      reads this
    {
      Fields(flags, waiter, waitMask, waitAll, wakeResult)
    }

    constructor (tasks: nat)
      ensures Value() == Fields({}, None, {}, false, {}) && fresh(asleep)
      ensures asleep.Length == tasks && forall t :: 0 <= t < tasks ==> !asleep[t]
    {
      flags, waiter, waitMask, waitAll, wakeResult := {}, None, {}, false, {};
      asleep := new bool[tasks](_ => false);
    }

    predicate IsSatisfied()
      reads this
    {
      if waitAll then flags * waitMask == waitMask else flags * waitMask != {}
    }

    /** event_set: wakes the registered waiter exactly when the new flags meet its condition. */
    method Set(bits: Word)
      requires waiter.Some? ==> waiter.value < asleep.Length
      modifies this, asleep
      ensures Value() == AfterSet(old(Value()), bits) && flags == old(flags) + bits
      ensures asleep[..] ==
        if old(waiter).Some? && Meets(flags, waitMask, waitAll) then old(asleep[..])[old(waiter).value := false]
        else old(asleep[..])
    {
      flags := flags + bits;
      if waiter.Some? && IsSatisfied() {
        var w := waiter.value;
        waiter := None;
        wakeResult := flags * waitMask;
        asleep[w] := false;
      }
    }

    /** event_clear. */
    method Clear(bits: Word)
      modifies this
      ensures Value() == AfterClear(old(Value()), bits)
      ensures flags == old(flags) - bits && waiter == old(waiter) && wakeResult == old(wakeResult)
      ensures waitMask == old(waitMask) && waitAll == old(waitAll)
    {
      flags := flags - bits;
    }

    /** event_wait up to the switch: the bits to return, or None when the caller blocks. */
    method Wait(current: nat, mask: Word, all: bool) returns (bits: Option<Word>)
      requires current < asleep.Length
      modifies this, asleep
      ensures Value() == AfterWait(old(Value()), current, mask, all)
      ensures bits == if Meets(old(flags), mask, all) then Some(old(flags) * mask) else None
      ensures asleep[..] == if bits.Some? then old(asleep[..]) else old(asleep[..])[current := true]
    {
      waitMask := mask;
      waitAll := all;
      if IsSatisfied() {
        return Some(flags * mask);
      }
      waiter := Some(current);
      asleep[current] := true;
      return None;
    }
  }

  // ---- runs ---------------------------------------------------------------------------

  /** What a task's event_wait has come to; Got holds the value it returned last. */
  datatype Phase = Out | Blocked(mask: Word, all: bool) | Woken(mask: Word, all: bool) | Got(bits: Word)

  datatype State = State(e: Fields, phases: seq<Phase>)

  datatype Step =
    | Set(bits: Word)
    | Clear(bits: Word)
    | Wait(task: nat, mask: Word, all: bool)
    | Return(task: nat)

  predicate InWait(p: Phase) { p.Blocked? || p.Woken? }

  predicate Shape(s: State) {
    s.e.waiter.Some? ==> s.e.waiter.value < |s.phases| && s.phases[s.e.waiter.value].Blocked?
  }

  predicate Enabled(s: State, a: Step) {
    match a
    case Wait(t, _, _) => t < |s.phases| && !InWait(s.phases[t])
    case Return(t) => t < |s.phases| && s.phases[t].Woken?
    case _ => true
  }

  function Do(s: State, a: Step): State
    requires Shape(s) && Enabled(s, a)
  {
    match a
    case Set(bits) =>
      var e := AfterSet(s.e, bits);
      if s.e.waiter.Some? && e.waiter.None? then
        var w := s.e.waiter.value;
        State(e, s.phases[w := Woken(s.phases[w].mask, s.phases[w].all)])
      else
        State(e, s.phases)
    case Clear(bits) => s.(e := AfterClear(s.e, bits))
    case Wait(t, mask, all) =>
      State(AfterWait(s.e, t, mask, all),
            s.phases[t := if Meets(s.e.flags, mask, all) then Got(s.e.flags * mask) else Blocked(mask, all)])
    case Return(t) => s.(phases := s.phases[t := Got(s.e.wakeResult)])
  }

  predicate Init(s: State) {
    s.e.waiter == None && forall t :: 0 <= t < |s.phases| ==> s.phases[t].Out?
  }

  /** One waiting task at a time: nobody calls event_wait while another call is pending. */
  predicate Alone(s: State, a: Step) {
    a.Wait? ==> forall t :: 0 <= t < |s.phases| ==> !InWait(s.phases[t])
  }

  /** Any calls, any number of waiting tasks. */
  predicate FreeRun(run: seq<State>, steps: seq<Step>) {
    && |run| == |steps| + 1 && Init(run[0])
    && forall i :: 0 <= i < |steps| ==> Shape(run[i]) && Enabled(run[i], steps[i]) && run[i + 1] == Do(run[i], steps[i])
  }

  predicate Run(run: seq<State>, steps: seq<Step>) {
    FreeRun(run, steps) && forall i :: 0 <= i < |steps| ==> Alone(run[i], steps[i])
  }

  /** A BLOCKED task is the registered waiter, under its own mask, with its condition unmet. */
  predicate TaskInv(s: State, t: nat)
    requires t < |s.phases|
  {
    var p := s.phases[t];
    && (InWait(p) ==> s.e.waitMask == p.mask && s.e.waitAll == p.all)
    && (p.Blocked? <==> s.e.waiter == Some(t))
    && (p.Blocked? ==> !Meets(s.e.flags, p.mask, p.all))
    && (p.Woken? ==> s.e.waiter == None && if p.all then s.e.wakeResult == p.mask else s.e.wakeResult * p.mask != {})
  }

  predicate Inv(s: State) {
    && Shape(s)
    && (forall t :: 0 <= t < |s.phases| ==> TaskInv(s, t))
    && (forall t, u :: 0 <= t < |s.phases| && 0 <= u < |s.phases| && InWait(s.phases[t]) && InWait(s.phases[u]) ==> t == u)
  }

  lemma ClearKeepsUnmet(flags: Word, bits: Word, mask: Word, all: bool)
    requires !Meets(flags, mask, all)
    ensures !Meets(flags - bits, mask, all)
  {
  }

  lemma MaskedTwice(flags: Word, mask: Word)
    ensures flags * mask * mask == flags * mask
  {
  }

  lemma StepKeepsInv(s: State, a: Step)
    requires Inv(s) && Enabled(s, a) && Alone(s, a)
    ensures Inv(Do(s, a))
  {
    var r := Do(s, a);
    MaskedTwice(r.e.flags, r.e.waitMask);
    forall t | 0 <= t < |r.phases| ensures TaskInv(r, t) {
      assert TaskInv(s, t);
      if a.Clear? && s.phases[t].Blocked? {
        ClearKeepsUnmet(s.e.flags, a.bits, s.phases[t].mask, s.phases[t].all);
      }
    }
  }

  lemma {:induction false} RunKeepsInv(run: seq<State>, steps: seq<Step>, i: nat)
    requires Run(run, steps) && i < |run|
    ensures Inv(run[i])
  {
    if i > 0 {
      RunKeepsInv(run, steps, i - 1);
      StepKeepsInv(run[i - 1], steps[i - 1]);
      assert run[i - 1 + 1] == Do(run[i - 1], steps[i - 1]);
    }
  }

  // ---- what every run promises --------------------------------------------------------

  predicate Sets(a: Step, b: nat) { a.Set? && b in a.bits }

  predicate Clears(a: Step, b: nat) { a.Clear? && b in a.bits }

  /** None of steps k..i clears bit b. */
  predicate Kept(steps: seq<Step>, b: nat, k: int, i: nat)
    requires 0 <= k && i <= |steps|
  {
    forall m :: k <= m < i ==> !Clears(steps[m], b)
  }

  /** Some set among the first i steps had bit b, and no clear since did. */
  predicate SetSince(steps: seq<Step>, b: nat, i: nat)
    requires i <= |steps|
  {
    exists k :: 0 <= k < i && Sets(steps[k], b) && Kept(steps, b, k, i)
  }

  /** In any run, with any number of waiting tasks, a bit is up if and only if it was up at the
      start or has been set, and no clear since had it: sets add to the flags, clears take
      away, nothing else touches them. */
  lemma {:induction false} FlagsExactly(run: seq<State>, steps: seq<Step>, i: nat, b: nat)
    requires FreeRun(run, steps) && i < |run|
    ensures b in run[i].e.flags <==> SetSince(steps, b, i) || (b in run[0].e.flags && Kept(steps, b, 0, i))
  {
    if i > 0 {
      var a := steps[i - 1];
      FlagsExactly(run, steps, i - 1, b);
      FlagsStep(run[i - 1], a, run[i], b);
      if Sets(a, b) {
        assert Kept(steps, b, i - 1, i);
        assert SetSince(steps, b, i);
      } else {
        SinceStep(steps, b, i);
      }
    }
  }

  lemma FlagsStep(s: State, a: Step, r: State, b: nat)
    requires Shape(s) && Enabled(s, a) && r == Do(s, a)
    ensures b in r.e.flags <==> Sets(a, b) || (b in s.e.flags && !Clears(a, b))
  {
  }

  lemma SinceStep(steps: seq<Step>, b: nat, i: nat)
    requires 0 < i <= |steps| && !Sets(steps[i - 1], b)
    ensures SetSince(steps, b, i) <==> SetSince(steps, b, i - 1) && !Clears(steps[i - 1], b)
    ensures Kept(steps, b, 0, i) <==> Kept(steps, b, 0, i - 1) && !Clears(steps[i - 1], b)
  {
    if k :| 0 <= k < i && Sets(steps[k], b) && Kept(steps, b, k, i) {
      assert Kept(steps, b, k, i - 1);
    }
    if SetSince(steps, b, i - 1) && !Clears(steps[i - 1], b) {
      var k :| 0 <= k < i - 1 && Sets(steps[k], b) && Kept(steps, b, k, i - 1);
      assert Kept(steps, b, k, i);
    }
  }

  /** A registered waiter is BLOCKED and its own condition is unmet; a BLOCKED task is
      registered. */
  lemma WaiterIsUnsatisfied(run: seq<State>, steps: seq<Step>, i: nat, t: nat)
    requires Run(run, steps) && i < |run| && t < |run[i].phases|
    ensures run[i].phases[t].Blocked? <==> run[i].e.waiter == Some(t)
    ensures run[i].phases[t].Blocked? ==> !Meets(run[i].e.flags, run[i].phases[t].mask, run[i].phases[t].all)
  {
    RunKeepsInv(run, steps, i);
    assert TaskInv(run[i], t);
  }

  /** Step k is the set that satisfies the wait begun in step i, and the first that does. */
  predicate FirstSatisfies(run: seq<State>, steps: seq<Step>, i: nat, k: nat, mask: Word, all: bool)
    requires |run| == |steps| + 1
  {
    && i < k < |steps| && steps[k].Set? && Meets(run[k + 1].e.flags, mask, all)
    && forall m :: i < m <= k ==> !Meets(run[m].e.flags, mask, all)
  }

  /** Where a blocked wait stands after any number of further steps: still BLOCKED with its
      condition unmet all along, or woken by the first satisfying set with the bits as of
      that set, whatever was set or cleared since. */
  lemma {:induction false} PendingWait(run: seq<State>, steps: seq<Step>, i: nat, j: nat, t: nat, mask: Word, all: bool)
    requires Run(run, steps) && i < j < |run| && steps[i] == Wait(t, mask, all) && !Meets(run[i].e.flags, mask, all)
    requires forall k :: i < k < j ==> steps[k] != Return(t)
    ensures t < |run[j].phases|
    ensures run[j].phases[t] == Blocked(mask, all) || run[j].phases[t] == Woken(mask, all)
    ensures run[j].phases[t].Blocked? ==> forall m :: i < m <= j ==> !Meets(run[m].e.flags, mask, all)
    ensures run[j].phases[t].Woken? ==>
      exists k :: 0 <= k < j && FirstSatisfies(run, steps, i, k, mask, all) && run[j].e.wakeResult == run[k + 1].e.flags * mask
  {
    RunKeepsInv(run, steps, j);
    var s, a := run[j - 1], steps[j - 1];
    assert run[j - 1 + 1] == Do(s, a);
    if j > i + 1 {
      PendingWait(run, steps, i, j - 1, t, mask, all);
      RunKeepsInv(run, steps, j - 1);
      assert TaskInv(s, t) && TaskInv(run[j], t);
      if s.phases[t].Blocked? {
        if run[j].phases[t].Woken? {
          assert FirstSatisfies(run, steps, i, j - 1, mask, all);
        }
      } else {
        var k :| 0 <= k < j - 1 && FirstSatisfies(run, steps, i, k, mask, all) && s.e.wakeResult == run[k + 1].e.flags * mask;
        assert run[j].e.wakeResult == s.e.wakeResult;
      }
    } else {
      assert TaskInv(run[j], t);
    }
  }

  /** event_wait returns all of its mask, or some of it, exactly as it stood at the first
      set that satisfied it: later clears and sets change nothing. */
  lemma ReturnsBitsOfSatisfyingSet(run: seq<State>, steps: seq<Step>, i: nat, j: nat, t: nat, mask: Word, all: bool)
    requires Run(run, steps) && i < j < |steps| && steps[i] == Wait(t, mask, all) && !Meets(run[i].e.flags, mask, all)
    requires steps[j] == Return(t) && forall k :: i < k < j ==> steps[k] != Return(t)
    ensures t < |run[j + 1].phases| && run[j + 1].phases[t].Got?
    ensures exists k :: 0 <= k < j && FirstSatisfies(run, steps, i, k, mask, all) && run[j + 1].phases[t].bits == run[k + 1].e.flags * mask
    ensures if all then run[j + 1].phases[t].bits == mask else run[j + 1].phases[t].bits * mask != {}
  {
    PendingWait(run, steps, i, j, t, mask, all);
    RunKeepsInv(run, steps, j);
    assert TaskInv(run[j], t);
  }

  /** A blocked wait for all of a mask is woken as soon as every bit of the mask has been set
      and not cleared since, whichever sets brought them and in whatever order. */
  lemma AllBitsWake(run: seq<State>, steps: seq<Step>, i: nat, j: nat, t: nat, mask: Word)
    requires Run(run, steps) && i < j < |run| && steps[i] == Wait(t, mask, true) && !Meets(run[i].e.flags, mask, true)
    requires forall k :: i < k < j ==> steps[k] != Return(t)
    requires forall b :: b in mask ==> SetSince(steps, b, j)
    ensures t < |run[j].phases| && run[j].phases[t] == Woken(mask, true)
  {
    forall b | b in mask ensures b in run[j].e.flags { FlagsExactly(run, steps, j, b); }
    assert run[j].e.flags * mask == mask;
    PendingWait(run, steps, i, j, t, mask, true);
  }

  /** Some flag word meets a condition exactly when it waits for all of its mask or the mask
      is not empty. */
  lemma CanBeMetExactly(mask: Word, all: bool)
    ensures (exists flags: Word :: Meets(flags, mask, all)) <==> all || mask != {}
  {
    if all || mask != {} {
      assert Meets(mask, mask, all);
    }
  }

  /** Waiting for any bit of an empty mask blocks for ever. */
  lemma {:induction false} EmptyMaskBlocksForever(run: seq<State>, steps: seq<Step>, i: nat, j: nat, t: nat)
    requires Run(run, steps) && i < j < |run| && steps[i] == Wait(t, {}, false)
    ensures t < |run[j].phases| && run[j].phases[t].Blocked?
    ensures forall k :: i < k < j ==> steps[k] != Return(t)
  {
    CanBeMetExactly({}, false);
    if j > i + 1 {
      EmptyMaskBlocksForever(run, steps, i, j - 1, t);
    }
    PendingWait(run, steps, i, j, t, {}, false);
  }

  /** Why one waiting task: a second event_wait while one is BLOCKED always harms the first,
      taking its slot or replacing the condition it is woken by. */
  lemma SecondWaitInterferes(s: State, w: nat, t: nat, mask: Word, all: bool)
    requires Inv(s) && w < |s.phases| && s.phases[w].Blocked? && Enabled(s, Wait(t, mask, all))
    ensures var r := Do(s, Wait(t, mask, all));
      && r.phases[w] == s.phases[w]
      && (r.e.waiter != Some(w) || (r.e.waitMask, r.e.waitAll) != (s.phases[w].mask, s.phases[w].all))
  {
    assert TaskInv(s, w);
  }

  // ---- several waiting tasks -----------------------------------------------------------

  /** A set that wakes the registered waiter and so writes wake_result. */
  predicate Wakes(s: State, a: Step) {
    a.Set? && s.e.waiter.Some? && AfterSet(s.e, a.bits).waiter.None?
  }

  /** The last waking set among steps i..j. */
  function LastWake(run: seq<State>, steps: seq<Step>, i: nat, j: nat): (k: Option<nat>)
    requires i <= j <= |steps| && |run| == |steps| + 1
    ensures k.Some? ==> i <= k.value < j && Wakes(run[k.value], steps[k.value])
    ensures k.Some? ==> forall m :: k.value < m < j ==> !Wakes(run[m], steps[m])
    ensures k.None? ==> forall m :: i <= m < j ==> !Wakes(run[m], steps[m])
    decreases j
  {
    if i == j then None else if Wakes(run[j - 1], steps[j - 1]) then Some(j - 1) else LastWake(run, steps, i, j - 1)
  }

  /** wake_result is shared: in any run, with any number of waiting tasks, a woken task that
      returns at step j gets the bits it was woken with at step i if no set in between woke
      another waiter, and otherwise the other waiter's bits, from the last such set. */
  lemma {:induction false} WokenBitsExactly(run: seq<State>, steps: seq<Step>, i: nat, j: nat)
    requires FreeRun(run, steps) && i < j <= |steps| && Wakes(run[i], steps[i])
    ensures run[j].e.wakeResult ==
      match LastWake(run, steps, i + 1, j)
      case None => run[i + 1].e.flags * run[i].e.waitMask
      case Some(k) => run[k + 1].e.flags * run[k].e.waitMask
    ensures j < |steps| && steps[j].Return? ==> run[j + 1] == run[j].(phases := run[j].phases[steps[j].task := Got(run[j].e.wakeResult)])
    decreases j
  {
    assert run[j - 1 + 1] == Do(run[j - 1], steps[j - 1]);
    if i + 1 < j {
      WokenBitsExactly(run, steps, i, j - 1);
    }
  }

  /** Task 0 waits for bit 1 and is woken; before it runs, task 1 waits for bit 2 and is woken;
      task 0 returns task 1's bit. */
  lemma WokenBitsOverwritten() returns (run: seq<State>, steps: seq<Step>)
    ensures FreeRun(run, steps) && steps == [Wait(0, {1}, false), Set({1}), Wait(1, {2}, false), Set({2}), Return(0)]
    ensures |run[5].phases| == 2 && run[5].phases[0] == Got({2})
  {
    steps := [Wait(0, {1}, false), Set({1}), Wait(1, {2}, false), Set({2}), Return(0)];
    var s0 := State(Fields({}, None, {}, false, {}), [Out, Out]);
    var s1 := State(Fields({}, Some(0), {1}, false, {}), [Blocked({1}, false), Out]);
    var s2 := State(Fields({1}, None, {1}, false, {1}), [Woken({1}, false), Out]);
    var s3 := State(Fields({1}, Some(1), {2}, false, {1}), [Woken({1}, false), Blocked({2}, false)]);
    var s4 := State(Fields({1, 2}, None, {2}, false, {2}), [Woken({1}, false), Woken({2}, false)]);
    var s5 := s4.(phases := [Got({2}), Woken({2}, false)]);
    OverwriteSteps(s0, s1, s2, s3);
    assert s4 == Do(s3, Set({2})) by {
      assert {1} + {2} == {1, 2} && {1, 2} * {2} == {2};
    }
    assert s5 == Do(s4, Return(0));
    run := [s0, s1, s2, s3, s4, s5];
  }

  lemma OverwriteSteps(s0: State, s1: State, s2: State, s3: State)
    requires s0 == State(Fields({}, None, {}, false, {}), [Out, Out])
    requires s1 == State(Fields({}, Some(0), {1}, false, {}), [Blocked({1}, false), Out])
    requires s2 == State(Fields({1}, None, {1}, false, {1}), [Woken({1}, false), Out])
    requires s3 == State(Fields({1}, Some(1), {2}, false, {1}), [Woken({1}, false), Blocked({2}, false)])
    ensures s1 == Do(s0, Wait(0, {1}, false)) && s2 == Do(s1, Set({1})) && s3 == Do(s2, Wait(1, {2}, false))
  {
    assert {} + {1} == {1} && {1} * {1} == {1} && {1} * {2} == {};
  }
}
