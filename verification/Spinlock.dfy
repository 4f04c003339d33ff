/** The exclusives-based spinlock of kernel/spinlock.h, one instruction per step, on any
    number of cores, together with the locked counter of the boot self-test in kernel/smp.c.

    Each core owns one exclusive monitor and one event bit.  A store to the lock word
    clears every armed monitor, and clearing a monitor sets that core's event bit
    (Arm Architecture Reference Manual DDI 0487, chapter B2, "Synchronization and
    semaphores").  A monitor may also be lost at any time, a WFE may complete for no
    reason, and a SEV may be executed by anybody: all three are steps of the machine. */
module Spinlock {
  import opened Base

  /** Where a core stands in selftest_body.  `Ldaxr` is label 2 of spin_lock, `Wfe` label 1. */
  datatype Pc =
    | Sevl                // about to execute sevl
    | Wfe                 // label 1
    | Ldaxr               // label 2
    | Test(word: bool)    // cbnz on the loaded lock word
    | Stxr                // about to try the exclusive store
    | Load                // lock held: about to load the counter
    | Store(value: nat)   // lock held: about to store value + 1
    | Stlr                // lock held: about to release
    | Finished            // all iterations done

  datatype State = State(
    locked: bool,
    monitor: seq<bool>,
    event: seq<bool>,
    pc: seq<Pc>,
    counter: nat,         // st_locked
    done: seq<nat>)       // increments stored so far, per core

  datatype Step =
    | Instr(core: nat)        // the core executes its next instruction
    | WfeNop(core: nat)       // WFE completes although no event is pending
    | MonitorLost(core: nat)  // the exclusive monitor is cleared by something else
    | Sev                     // an event broadcast, such as the one in sched_wake

  /** A core between its winning STXR and its STLR. */
  predicate Holds(p: Pc) {
    p.Load? || p.Store? || p.Stlr?
  }

  ghost predicate Shape(s: State) {
    |s.monitor| == |s.pc| && |s.event| == |s.pc| && |s.done| == |s.pc|
  }

  /** Every core starts at the first spin_lock with `rounds` increments to do. */
  ghost predicate Init(s: State, rounds: nat) {
    && Shape(s) && !s.locked && s.counter == 0
    && (forall i :: 0 <= i < |s.pc| ==>
          && s.pc[i] == (if rounds == 0 then Finished else Sevl)
          && !s.monitor[i] && s.done[i] == 0)
  }

  /** The effect of a store by `core` on everybody's monitors and event bits. */
  function ClearMonitors(s: State, core: nat): (r: State)
    requires Shape(s)
    ensures Shape(r) && r == s.(monitor := r.monitor, event := r.event)
    ensures forall i :: 0 <= i < |s.pc| ==>
      !r.monitor[i] && r.event[i] == (s.event[i] || (i != core && s.monitor[i]))
  {
    s.(monitor := seq(|s.pc|, i => false),
       event := seq(|s.pc|, i requires 0 <= i < |s.pc| => s.event[i] || (i != core && s.monitor[i])))
  }

  predicate Enabled(s: State, a: Step)
    requires Shape(s)
  {
    match a
    case Instr(i) => i < |s.pc| && !s.pc[i].Finished? && (s.pc[i].Wfe? ==> s.event[i])
    case WfeNop(i) => i < |s.pc| && s.pc[i].Wfe?
    case MonitorLost(i) => i < |s.pc|
    case Sev => true
  }

  /** One instruction of core i. */
  function Execute(s: State, i: nat, rounds: nat): (r: State)
    requires Shape(s) && i < |s.pc|
    ensures Shape(r) && |r.pc| == |s.pc|
  {
    match s.pc[i]
    case Sevl => s.(event := s.event[i := true], pc := s.pc[i := Wfe])
    case Wfe => s.(event := s.event[i := false], pc := s.pc[i := Ldaxr])
    case Ldaxr => s.(monitor := s.monitor[i := true], pc := s.pc[i := Test(s.locked)])
    case Test(word) => s.(pc := s.pc[i := if word then Wfe else Stxr])
    case Stxr =>
      if s.monitor[i] then
        ClearMonitors(s, i).(locked := true, pc := s.pc[i := Load])
      else
        s.(pc := s.pc[i := Ldaxr])
    case Load => s.(pc := s.pc[i := Store(s.counter)])
    case Store(v) => s.(counter := v + 1, done := s.done[i := s.done[i] + 1], pc := s.pc[i := Stlr])
    case Stlr =>
      ClearMonitors(s, i).(locked := false, pc := s.pc[i := if s.done[i] < rounds then Sevl else Finished])
    case Finished => s
  }

  function Do(s: State, a: Step, rounds: nat): (r: State)
    requires Shape(s) && Enabled(s, a)
    ensures Shape(r) && |r.pc| == |s.pc|
  {
    match a
    case Instr(i) => Execute(s, i, rounds)
    case WfeNop(i) => s.(event := s.event[i := false], pc := s.pc[i := Ldaxr])
    case MonitorLost(i) => s.(monitor := s.monitor[i := false], event := s.event[i := s.event[i] || s.monitor[i]])
    case Sev => s.(event := seq(|s.pc|, i => true))
  }

  ghost predicate Run(run: seq<State>, rounds: nat) {
    && |run| > 0 && Init(run[0], rounds)
    && forall k :: 0 <= k < |run| - 1 ==> Next(run[k], run[k + 1], rounds)
  }

  ghost predicate Next(s: State, s': State, rounds: nat) {
    Shape(s) && exists a :: Enabled(s, a) && s' == Do(s, a, rounds)
  }

  // ---- the inductive invariant, core by core ------------------------------------------

  /** What one core knows.  A core that saw the word set keeps a token, a live monitor
      on a set word or a pending event, until it reads the word again. */
  ghost predicate CoreInv(s: State, i: nat, rounds: nat)
    requires Shape(s) && i < |s.pc|
  {
    && (s.pc[i].Wfe? || s.pc[i] == Test(true) ==> s.event[i] || (s.monitor[i] && s.locked))
    && (s.pc[i].Stxr? || s.pc[i] == Test(false) ==> s.monitor[i] ==> !s.locked)
    && (Holds(s.pc[i]) ==> s.locked)
    && (s.pc[i].Store? ==> s.pc[i].value == s.counter)
    && (if s.pc[i].Finished? || s.pc[i].Stlr? then s.done[i] <= rounds else s.done[i] < rounds)
    && (s.pc[i].Finished? ==> s.done[i] == rounds)
  }

  ghost predicate Inv(s: State, rounds: nat) {
    && Shape(s)
    && (forall i :: 0 <= i < |s.pc| ==> CoreInv(s, i, rounds))
    && (forall i, j :: 0 <= i < |s.pc| && 0 <= j < |s.pc| && Holds(s.pc[i]) && Holds(s.pc[j]) ==> i == j)
    && (s.locked ==> exists i :: 0 <= i < |s.pc| && Holds(s.pc[i]))
    && s.counter == Sum(s.done)
  }

  lemma InitInv(s: State, rounds: nat)
    requires Init(s, rounds)
    ensures Inv(s, rounds)
  {
    SumConstant(s.done, 0);
  }

  /** Core i's instruction keeps what any core j knows. */
  lemma InstrKeepsCore(s: State, i: nat, j: nat, rounds: nat)
    requires Inv(s, rounds) && Enabled(s, Instr(i)) && j < |s.pc|
    ensures CoreInv(Execute(s, i, rounds), j, rounds)
  {
    assert CoreInv(s, i, rounds) && CoreInv(s, j, rounds);
    assert s.locked && Holds(s.pc[i]) && i != j ==> !Holds(s.pc[j]);
  }

  /** Core i's instruction keeps the lock word equal to "some core holds", and that core unique. */
  lemma InstrKeepsHolder(s: State, i: nat, rounds: nat)
    requires Inv(s, rounds) && Enabled(s, Instr(i))
    ensures var r := Execute(s, i, rounds);
      && (forall j, k :: 0 <= j < |r.pc| && 0 <= k < |r.pc| && Holds(r.pc[j]) && Holds(r.pc[k]) ==> j == k)
      && (r.locked ==> exists h :: 0 <= h < |r.pc| && Holds(r.pc[h]))
  {
    var r := Execute(s, i, rounds);
    assert CoreInv(s, i, rounds);
    forall j | 0 <= j < |s.pc| && j != i && Holds(r.pc[j]) ensures s.locked && Holds(s.pc[j]) {
      assert CoreInv(s, j, rounds);
    }
    if r.locked {
      if s.pc[i].Stxr? && s.monitor[i] {
        assert Holds(r.pc[i]);
      } else {
        var h :| 0 <= h < |s.pc| && Holds(s.pc[h]);
        assert Holds(r.pc[h]);
      }
    }
  }

  lemma InstrKeepsInv(s: State, i: nat, rounds: nat)
    requires Inv(s, rounds) && Enabled(s, Instr(i))
    ensures Inv(Execute(s, i, rounds), rounds)
  {
    var r := Execute(s, i, rounds);
    SumUpdate(s.done, i, s.done[i] + 1);
    assert CoreInv(s, i, rounds);
    forall j | 0 <= j < |s.pc| ensures CoreInv(r, j, rounds) {
      InstrKeepsCore(s, i, j, rounds);
    }
    InstrKeepsHolder(s, i, rounds);
  }

  lemma StepKeepsInv(s: State, a: Step, rounds: nat)
    requires Inv(s, rounds) && Enabled(s, a)
    ensures Inv(Do(s, a, rounds), rounds)
  {
    var r := Do(s, a, rounds);
    if a.Instr? {
      InstrKeepsInv(s, a.core, rounds);
    } else {
      forall j | 0 <= j < |s.pc| ensures CoreInv(r, j, rounds) {
        assert CoreInv(s, j, rounds);
      }
      if r.locked {
        var h :| 0 <= h < |s.pc| && Holds(s.pc[h]);
        assert Holds(r.pc[h]);
      }
    }
  }

  lemma {:induction false} RunKeepsInv(run: seq<State>, rounds: nat, k: nat)
    requires Run(run, rounds) && k < |run|
    ensures Inv(run[k], rounds) && |run[k].pc| == |run[0].pc|
  {
    if k == 0 {
      InitInv(run[0], rounds);
    } else {
      RunKeepsInv(run, rounds, k - 1);
      assert Next(run[k - 1], run[k - 1 + 1], rounds);
      var a :| Enabled(run[k - 1], a) && run[k] == Do(run[k - 1], a, rounds);
      StepKeepsInv(run[k - 1], a, rounds);
    }
  }

  // ---- what every run promises --------------------------------------------------------

  /** At most one core is between winning the lock and releasing it, in every interleaving. */
  lemma MutualExclusion(run: seq<State>, rounds: nat, k: nat, i: nat, j: nat)
    requires Run(run, rounds) && k < |run|
    requires i < |run[k].pc| && j < |run[k].pc| && Holds(run[k].pc[i]) && Holds(run[k].pc[j])
    ensures i == j
  {
    RunKeepsInv(run, rounds, k);
  }

  /** A core asleep at WFE with no event pending sleeps because another core holds the lock. */
  lemma SleepersWaitForAHolder(run: seq<State>, rounds: nat, k: nat, i: nat)
    requires Run(run, rounds) && k < |run|
    requires Shape(run[k]) && i < |run[k].pc| && run[k].pc[i].Wfe? && !run[k].event[i]
    ensures run[k].locked
    ensures exists h :: 0 <= h < |run[k].pc| && h != i && Holds(run[k].pc[h])
  {
    RunKeepsInv(run, rounds, k);
    assert CoreInv(run[k], i, rounds);
  }

  /** The cores never all sleep: while one is unfinished, some core can execute. */
  lemma SomeCoreCanExecute(run: seq<State>, rounds: nat, k: nat, i: nat)
    requires Run(run, rounds) && k < |run|
    requires Shape(run[k]) && i < |run[k].pc| && !run[k].pc[i].Finished?
    ensures exists c: nat :: Enabled(run[k], Instr(c))
  {
    if run[k].pc[i].Wfe? && !run[k].event[i] {
      SleepersWaitForAHolder(run, rounds, k, i);
      var h :| 0 <= h < |run[k].pc| && h != i && Holds(run[k].pc[h]);
      assert Enabled(run[k], Instr(h));
    } else {
      assert Enabled(run[k], Instr(i));
    }
  }

  /** The self-test's verdict: the locked counter loses no increment in any interleaving,
      and is cores * rounds once every core has finished. */
  lemma LockedCounterIsExact(run: seq<State>, rounds: nat, k: nat)
    requires Run(run, rounds) && k < |run|
    ensures Shape(run[k]) && run[k].counter == Sum(run[k].done)
    ensures (forall i :: 0 <= i < |run[k].pc| ==> run[k].pc[i].Finished?) ==>
              run[k].counter == |run[0].pc| * rounds
  {
    RunKeepsInv(run, rounds, k);
    if forall i :: 0 <= i < |run[k].pc| ==> run[k].pc[i].Finished? {
      forall i | 0 <= i < |run[k].pc| ensures run[k].done[i] == rounds {
        assert CoreInv(run[k], i, rounds);
      }
      SumConstant(run[k].done, rounds);
    }
  }
}
