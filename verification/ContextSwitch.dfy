/** Choosing, publishing and switching to the next task, one kernel statement per step, on
    any number of CPUs.  A timer interrupt may be taken before any step at which the CPU's
    IRQs are open, and any task may be woken from any CPU at any time.

    The default build has no migration.  With migration, sched_migrate's test sees a CPU's
    `current` but not what the CPU has picked, so the results are proved for every run
    whose migrations stay out of that gap, which includes every run of the default build,
    and a migration inside the gap is shown to break them. */
module ContextSwitch {
  import opened Base

  /** Why a CPU is switching, and what it does once it is back. */
  datatype Why =
    | Boot                   // kernel_main's switch into the first task
    | Yield(flags: bool)     // yield: restore flags
    | Block(flags: bool)     // block_current_and_switch: restore flags
    | Irq(interrupted: Code) // timer handler: eret to the interrupted code, IRQs open

  /** Where the code running on a CPU stands. */
  datatype Code =
    | Task                                           // task code, or the idle loop
    | Poll                                           // while (current->state != 0) wfe
    | Pick(why: Why)                                 // about to call pick_next_ready
    | Picked(why: Why, next: nat)                    // it returned next
    | Set(why: Why, prev: Option<nat>, next: nat)    // current = next is written
    | Saved(why: Why, prev: Option<nat>, next: nat)  // *old_sp_ptr = sp is written
    | Back(why: Why)                                 // switched back in, or no switch needed

  /** sp names the task whose stack SP is in; None is CPU0's boot stack.  A secondary's
      boot stack is its idle task's stack. */
  datatype Cpu = Cpu(curr: nat, sp: Option<nat>, masked: bool, code: Code)

  /** What the frame a TCB's sp points to will restore: a stack, a place in the code, DAIF. */
  datatype Context = Context(stack: Option<nat>, code: Code, masked: bool)

  datatype State = State(cpus: seq<Cpu>, home: seq<nat>, ready: seq<bool>, tcb: seq<Option<Context>>)

  datatype Step =
    | Mask(cpu: nat, masked: bool)   // task code masks or unmasks, as klog does
    | StartYield(cpu: nat)
    | StartBlock(cpu: nat)           // a blocking primitive marks its caller BLOCKED
    | TimerIrq(cpu: nat)
    | PickNext(cpu: nat, next: nat)
    | SetCurrent(cpu: nat)
    | SaveSp(cpu: nat)
    | LoadSp(cpu: nat)
    | Finish(cpu: nat)
    | PollDone(cpu: nat)
    | Wake(task: nat)
    | Migrate(task: nat, dst: nat)   // sched_migrate's section

  predicate Shape(s: State) {
    && |s.ready| == |s.home| && |s.tcb| == |s.home|
    && (forall c :: 0 <= c < |s.cpus| ==> s.cpus[c].curr < |s.home|)
  }

  /** pick_next_ready on CPU c: a READY task of its own queue, or else the current task. */
  predicate Picks(s: State, c: nat, n: nat)
    requires Shape(s) && c < |s.cpus|
  {
    && n < |s.home|
    && (|| (s.home[n] == c && s.ready[n])
        || (n == s.cpus[c].curr && forall t :: 0 <= t < |s.home| && s.home[t] == c ==> !s.ready[t]))
  }

  predicate Enabled(s: State, a: Step)
    requires Shape(s)
  {
    if a.Wake? then a.task < |s.home|
    else if a.Migrate? then
      && a.task < |s.home| && 0 < a.dst < |s.cpus| && a.dst != s.home[a.task] && s.home[a.task] < |s.cpus|
      && s.ready[a.task] && s.cpus[s.home[a.task]].curr != a.task
    else
      && a.cpu < |s.cpus|
      && var u := s.cpus[a.cpu];
         match a
         case Mask(_, _) => u.code.Task?
         case StartYield(_) => u.code.Task?
         case StartBlock(_) => u.code.Task?
         case TimerIrq(_) => !u.masked
         case PickNext(_, n) => u.code.Pick? && Picks(s, a.cpu, n)
         case SetCurrent(_) => u.code.Picked? && u.code.next < |s.home|
         case SaveSp(_) => u.code.Set? && (u.code.prev.Some? ==> u.code.prev.value < |s.home|)
         case LoadSp(_) => u.code.Saved? && u.code.next < |s.home| && s.tcb[u.code.next].Some?
         case Finish(_) => u.code.Back? && !u.code.why.Boot?
         case PollDone(_) => u.code.Poll? && s.ready[u.curr]
         case Wake(_) => true
         case Migrate(_, _) => true
  }

  predicate IsGlobal(a: Step) {
    a.Wake? || a.Migrate?
  }

  /** The migrated task is not one its CPU has picked but not yet published as current, nor
      one it has stopped publishing but not yet saved. */
  predicate OutsideGap(s: State, a: Step)
    requires Shape(s) && Enabled(s, a)
  {
    a.Migrate? ==>
      var code := s.cpus[s.home[a.task]].code;
      !(code.Picked? && code.next == a.task) && !(code.Set? && code.prev == Some(a.task))
  }

  function DoCpu(s: State, a: Step): Cpu
    requires Shape(s) && Enabled(s, a) && !IsGlobal(a)
  {
    var u := s.cpus[a.cpu];
    match a
    case Mask(_, m) => u.(masked := m)
    case StartYield(_) => u.(masked := true, code := Pick(Yield(u.masked)))
    case StartBlock(_) => u.(masked := true, code := Pick(Block(u.masked)))
    case TimerIrq(_) => u.(masked := true, code := Pick(Irq(u.code)))
    case PickNext(_, n) => u.(code := Picked(u.code.why, n))
    case SetCurrent(_) =>
      var why, n := u.code.why, u.code.next;
      if n != u.curr then u.(curr := n, code := Set(why, Some(u.curr), n))
      else if why.Block? then u.(masked := why.flags, code := Poll)
      else u.(code := Back(why))
    case SaveSp(_) => u.(code := Saved(u.code.why, u.code.prev, u.code.next))
    case LoadSp(_) =>
      var x := s.tcb[u.code.next].value;
      Cpu(u.curr, x.stack, x.masked, x.code)
    case Finish(_) =>
      (match u.code.why
       case Boot => u
       case Yield(f) => u.(masked := f, code := Task)
       case Block(f) => u.(masked := f, code := Task)
       case Irq(c) => u.(masked := false, code := c))
    case PollDone(_) => u.(code := Task)
    case Wake(_) => u
    case Migrate(_, _) => u
  }

  function Do(s: State, a: Step): State
    requires Shape(s) && Enabled(s, a)
  {
    if a.Wake? then s.(ready := s.ready[a.task := true])
    else if a.Migrate? then s.(home := s.home[a.task := a.dst])
    else
      var u := s.cpus[a.cpu];
      var r := s.(cpus := s.cpus[a.cpu := DoCpu(s, a)]);
      if a.StartBlock? then r.(ready := s.ready[u.curr := false])
      else if a.SaveSp? && u.code.prev.Some? then
        r.(tcb := s.tcb[u.code.prev.value := Some(Context(u.sp, Back(u.code.why), u.masked))])
      else r
  }

  /** A context task_init prepares: its own stack, IRQs open, task_trampoline. */
  function Fresh(t: nat): Context {
    Context(Some(t), Task, false)
  }

  /** Boot: CPU0 is about to switch from the boot stack into its first task; every secondary
      runs its idle task on its own boot stack; all other tasks are fresh. */
  ghost predicate Init(s: State) {
    && Shape(s)
    && (forall c :: 0 <= c < |s.cpus| ==>
          && s.home[s.cpus[c].curr] == c && s.cpus[c].masked
          && (if c == 0 then s.cpus[c].sp == None && s.cpus[c].code == Set(Boot, None, s.cpus[c].curr)
              else s.cpus[c].sp == Some(s.cpus[c].curr) && s.cpus[c].code == Task))
    && (forall t :: 0 <= t < |s.home| ==>
          && s.home[t] < |s.cpus|
          && (if s.home[t] != 0 && s.cpus[s.home[t]].curr == t then s.tcb[t].None? else s.tcb[t] == Some(Fresh(t))))
  }

  ghost predicate Run(run: seq<State>, steps: seq<Step>) {
    && |run| == |steps| + 1 && Init(run[0])
    && forall i :: 0 <= i < |steps| ==>
         Shape(run[i]) && Enabled(run[i], steps[i]) && run[i + 1] == Do(run[i], steps[i]) && OutsideGap(run[i], steps[i])
  }

  // ---- the invariant ------------------------------------------------------------------

  /** An interrupt only ever stops task code or the polling loop. */
  predicate WhyOk(w: Why) {
    w.Irq? ==> w.interrupted.Task? || w.interrupted.Poll?
  }

  ghost predicate CpuInv(s: State, c: nat)
    requires Shape(s) && c < |s.cpus|
  {
    var u := s.cpus[c];
    && s.home[u.curr] == c
    && match u.code
       case Task => u.sp == Some(u.curr)
       case Poll => u.sp == Some(u.curr)
       case Pick(w) => u.masked && u.sp == Some(u.curr) && WhyOk(w) && !w.Boot?
       case Picked(w, n) => u.masked && u.sp == Some(u.curr) && WhyOk(w) && !w.Boot? && n < |s.home| && s.home[n] == c
       case Set(w, p, n) => u.masked && u.sp == p && u.curr == n && WhyOk(w) && PrevOk(s, c, w, p, n)
       case Saved(w, p, n) => u.masked && u.curr == n && WhyOk(w) && (w.Boot? ==> p.None?)
       case Back(w) => u.masked && u.sp == Some(u.curr) && WhyOk(w) && !w.Boot?
  }

  ghost predicate PrevOk(s: State, c: nat, w: Why, p: Option<nat>, n: nat) {
    && p != Some(n) && (p.Some? ==> p.value < |s.home| && s.home[p.value] == c)
    && (w.Boot? ==> p.None?)
  }

  /** A context is in its own task's stack, and resumes task code with IRQs open for the
      first time or the tail of a switch with IRQs masked. */
  ghost predicate Good(t: nat, x: Context) {
    && x.stack == Some(t)
    && ((x.code.Task? && !x.masked) || (x.code.Back? && x.masked && WhyOk(x.code.why) && !x.code.why.Boot?))
  }

  /** Task t's stack is in use by its home CPU and its context is not in its TCB. */
  ghost predicate OnCpu(s: State, t: nat)
    requires Shape(s) && t < |s.home|
  {
    && s.home[t] < |s.cpus| && s.cpus[s.home[t]].sp == Some(t) && !s.cpus[s.home[t]].code.Saved?
  }

  ghost predicate TcbInv(s: State, t: nat)
    requires Shape(s) && t < |s.home|
  {
    && s.home[t] < |s.cpus|
    && (s.tcb[t].Some? ==> Good(t, s.tcb[t].value))
    && (!OnCpu(s, t) ==> s.tcb[t].Some?)
  }

  ghost predicate Inv(s: State) {
    && Shape(s)
    && (forall c :: 0 <= c < |s.cpus| ==> CpuInv(s, c))
    && (forall t :: 0 <= t < |s.home| ==> TcbInv(s, t))
  }

  lemma InitInv(s: State)
    requires Init(s)
    ensures Inv(s)
  {
  }

  lemma MigrateKeepsInv(s: State, a: Step)
    requires Inv(s) && Enabled(s, a) && a.Migrate? && OutsideGap(s, a)
    ensures Inv(Do(s, a))
  {
    var r := Do(s, a);
    assert CpuInv(s, s.home[a.task]) && CpuInv(s, a.dst) && TcbInv(s, a.task);
    forall c | 0 <= c < |r.cpus| ensures CpuInv(r, c) {
      assert CpuInv(s, c);
    }
    forall t | 0 <= t < |r.home| ensures TcbInv(r, t) {
      assert TcbInv(s, t);
    }
  }

  lemma StepKeepsShape(s: State, a: Step)
    requires Inv(s) && Enabled(s, a) && !a.Migrate?
    ensures Shape(Do(s, a)) && Do(s, a).home == s.home && |Do(s, a).cpus| == |s.cpus|
  {
    if !a.Wake? {
      assert CpuInv(s, a.cpu);
    }
  }

  /** The CPU that takes the step. */
  lemma StepKeepsItsCpu(s: State, a: Step)
    requires Inv(s) && Enabled(s, a) && !IsGlobal(a) && Shape(Do(s, a)) && Do(s, a).home == s.home
    ensures CpuInv(Do(s, a), a.cpu)
  {
    assert CpuInv(s, a.cpu);
    if a.LoadSp? {
      assert TcbInv(s, s.cpus[a.cpu].code.next);
    }
  }

  lemma StepKeepsTcb(s: State, a: Step, t: nat)
    requires Inv(s) && Enabled(s, a) && !a.Migrate? && t < |s.home|
    requires Shape(Do(s, a)) && Do(s, a).home == s.home && |Do(s, a).cpus| == |s.cpus|
    ensures TcbInv(Do(s, a), t)
  {
    assert TcbInv(s, t);
    if !a.Wake? {
      assert CpuInv(s, a.cpu);
      if a.LoadSp? {
        assert TcbInv(s, s.cpus[a.cpu].code.next);
      }
    }
  }

  lemma StepKeepsInv(s: State, a: Step)
    requires Inv(s) && Enabled(s, a) && OutsideGap(s, a)
    ensures Inv(Do(s, a))
  {
    if a.Migrate? {
      MigrateKeepsInv(s, a);
    } else {
      var r := Do(s, a);
      StepKeepsShape(s, a);
      forall c | 0 <= c < |r.cpus| ensures CpuInv(r, c) {
        if !a.Wake? && a.cpu == c {
          StepKeepsItsCpu(s, a);
        } else {
          assert CpuInv(s, c);
        }
      }
      forall t | 0 <= t < |r.home| ensures TcbInv(r, t) {
        StepKeepsTcb(s, a, t);
      }
    }
  }

  lemma {:induction false} RunKeepsInv(run: seq<State>, steps: seq<Step>, i: nat)
    requires Run(run, steps) && i < |run|
    ensures Inv(run[i])
  {
    if i == 0 {
      InitInv(run[0]);
    } else {
      RunKeepsInv(run, steps, i - 1);
      StepKeepsInv(run[i - 1], steps[i - 1]);
      assert run[i - 1 + 1] == Do(run[i - 1], steps[i - 1]);
    }
  }

  // ---- what every run promises --------------------------------------------------------

  /** Whenever a CPU's IRQs are open, `current` is the task whose stack SP is in. */
  lemma OpenIrqsMeanOwnStack(run: seq<State>, steps: seq<Step>, i: nat, c: nat)
    requires Run(run, steps) && i < |run| && c < |run[i].cpus| && !run[i].cpus[c].masked
    ensures run[i].cpus[c].sp == Some(run[i].cpus[c].curr)
  {
    RunKeepsInv(run, steps, i);
    assert CpuInv(run[i], c);
  }

  /** So no switch ever stores an SP into another task's TCB: the SP stored by a step, and
      every SP in any TCB, is in that task's own stack. */
  lemma SavedSpIsOwn(run: seq<State>, steps: seq<Step>, i: nat, t: nat)
    requires Run(run, steps) && i < |run| && t < |run[i].tcb| && run[i].tcb[t].Some?
    ensures run[i].tcb[t].value.stack == Some(t)
  {
    RunKeepsInv(run, steps, i);
    assert TcbInv(run[i], t);
  }

  /** CPU c runs on task t's stack: SP is in it and has not been saved away. */
  predicate RunsOn(s: State, c: nat, t: nat) {
    c < |s.cpus| && s.cpus[c].sp == Some(t) && !s.cpus[c].code.Saved?
  }

  /** Two CPUs never run on one stack. */
  lemma StacksAreExclusive(run: seq<State>, steps: seq<Step>, i: nat, c: nat, d: nat, t: nat)
    requires Run(run, steps) && i < |run| && RunsOn(run[i], c, t) && RunsOn(run[i], d, t)
    ensures c == d
  {
    RunKeepsInv(run, steps, i);
    assert CpuInv(run[i], c) && CpuInv(run[i], d);
  }

  /** A switch always finds a context to load, in the next task's own stack, that runs on
      either fresh with IRQs open or masked at the tail of that task's own last switch. */
  lemma NextTaskCanBeLoaded(run: seq<State>, steps: seq<Step>, i: nat, c: nat)
    requires Run(run, steps) && i < |run| && c < |run[i].cpus| && run[i].cpus[c].code.Saved?
    ensures Shape(run[i]) && Enabled(run[i], LoadSp(c))
    ensures var n := run[i].cpus[c].code.next; n == run[i].cpus[c].curr && Good(n, run[i].tcb[n].value)
  {
    RunKeepsInv(run, steps, i);
    assert CpuInv(run[i], c);
    assert TcbInv(run[i], run[i].cpus[c].curr);
  }

  // ---- a switch is transparent to its task --------------------------------------------

  /** The code is inside a switch begun for reason w, before anything is restored. */
  predicate InSwitch(code: Code, w: Why) {
    || code == Pick(w) || code == Back(w)
    || (code.Picked? && code.why == w) || (code.Set? && code.why == w)
  }

  /** Task t is inside such a switch: on a CPU, or saved at its tail. */
  ghost predicate Within(s: State, t: nat, w: Why) {
    || (exists c: nat :: RunsOn(s, c, t) && InSwitch(s.cpus[c].code, w))
    || ((forall c: nat :: !RunsOn(s, c, t)) && t < |s.tcb| && s.tcb[t] == Some(Context(Some(t), Back(w), true)))
  }

  /** The step takes task t out of its switch: the tail restores the mask, or there was nobody
      else to switch to and the task polls. */
  predicate Ends(s: State, a: Step, t: nat) {
    && (a.Finish? || a.SetCurrent?) && RunsOn(s, a.cpu, t)
    && (a.SetCurrent? ==> s.cpus[a.cpu].code.Picked? && s.cpus[a.cpu].code.next == s.cpus[a.cpu].curr && s.cpus[a.cpu].code.why.Block?)
  }

  lemma OneRunner(s: State, c: nat, d: nat, t: nat)
    requires Inv(s) && RunsOn(s, c, t) && RunsOn(s, d, t)
    ensures c == d
  {
    assert CpuInv(s, c) && CpuInv(s, d);
  }

  /** A step of the CPU that t is on. */
  lemma OwnStepStaysWithin(s: State, a: Step, t: nat, w: Why)
    requires Inv(s) && Enabled(s, a) && !IsGlobal(a) && RunsOn(s, a.cpu, t) && InSwitch(s.cpus[a.cpu].code, w) && !Ends(s, a, t)
    ensures Within(Do(s, a), t, w)
  {
    var r := Do(s, a);
    assert CpuInv(s, a.cpu) && r.cpus[a.cpu] == DoCpu(s, a);
    if a.SaveSp? {
      forall c: nat ensures !RunsOn(r, c, t) {
        if RunsOn(s, c, t) {
          OneRunner(s, c, a.cpu, t);
        }
      }
    } else {
      assert RunsOn(r, a.cpu, t) && InSwitch(r.cpus[a.cpu].code, w);
    }
  }

  /** A step of another CPU, or a wake or migration. */
  lemma OtherStepStaysWithin(s: State, a: Step, t: nat, w: Why, c: nat)
    requires Inv(s) && Enabled(s, a) && RunsOn(s, c, t) && InSwitch(s.cpus[c].code, w) && (IsGlobal(a) || a.cpu != c)
    ensures Within(Do(s, a), t, w)
  {
    var r := Do(s, a);
    assert r.cpus[c] == s.cpus[c];
    assert RunsOn(r, c, t) && InSwitch(r.cpus[c].code, w);
  }

  /** While t is saved, only the switch back to it touches its context. */
  lemma SavedStaysWithin(s: State, a: Step, t: nat, w: Why)
    requires Inv(s) && Enabled(s, a) && t < |s.tcb| && s.tcb[t] == Some(Context(Some(t), Back(w), true)) && forall c: nat :: !RunsOn(s, c, t)
    ensures Within(Do(s, a), t, w)
  {
    var r := Do(s, a);
    if a.LoadSp? && s.cpus[a.cpu].code.next == t {
      assert RunsOn(r, a.cpu, t) && InSwitch(r.cpus[a.cpu].code, w);
    } else {
      if !IsGlobal(a) {
        assert CpuInv(s, a.cpu) && !RunsOn(s, a.cpu, t);
        if a.LoadSp? {
          assert TcbInv(s, s.cpus[a.cpu].code.next);
        }
        assert !RunsOn(r, a.cpu, t);
      }
      forall c: nat ensures !RunsOn(r, c, t) {
        assert !RunsOn(s, c, t);
      }
      assert r.tcb[t] == s.tcb[t];
    }
  }

  lemma StepStaysWithin(s: State, a: Step, t: nat, w: Why)
    requires Inv(s) && Enabled(s, a) && Within(s, t, w) && !Ends(s, a, t)
    ensures Within(Do(s, a), t, w)
  {
    if c: nat :| RunsOn(s, c, t) && InSwitch(s.cpus[c].code, w) {
      if !IsGlobal(a) && a.cpu == c {
        OwnStepStaysWithin(s, a, t, w);
      } else {
        OtherStepStaysWithin(s, a, t, w, c);
      }
    } else {
      SavedStaysWithin(s, a, t, w);
    }
  }

  /** The reason recorded when task code or the polling loop enters a switch. */
  function Reason(u: Cpu, a: Step): Why
    requires a.TimerIrq? || a.StartYield? || a.StartBlock?
  {
    if a.TimerIrq? then Irq(u.code) else if a.StartYield? then Yield(u.masked) else Block(u.masked)
  }

  lemma {:induction false} StaysWithin(run: seq<State>, steps: seq<Step>, i: nat, j: nat, t: nat)
    requires Run(run, steps) && i < j < |run| && (steps[i].TimerIrq? || steps[i].StartYield? || steps[i].StartBlock?)
    requires RunsOn(run[i], steps[i].cpu, t)
    requires forall k :: i < k < j ==> !Ends(run[k], steps[k], t)
    ensures Within(run[j], t, Reason(run[i].cpus[steps[i].cpu], steps[i]))
    decreases j
  {
    RunKeepsInv(run, steps, j - 1);
    if j == i + 1 {
      assert run[i + 1] == Do(run[i], steps[i]);
      assert RunsOn(run[j], steps[i].cpu, t) && InSwitch(run[j].cpus[steps[i].cpu].code, Reason(run[i].cpus[steps[i].cpu], steps[i]));
    } else {
      StaysWithin(run, steps, i, j - 1, t);
      StepStaysWithin(run[j - 1], steps[j - 1], t, Reason(run[i].cpus[steps[i].cpu], steps[i]));
      assert run[j - 1 + 1] == Do(run[j - 1], steps[j - 1]);
    }
  }

  lemma EndRestores(s: State, a: Step, t: nat, w: Why)
    requires Inv(s) && Enabled(s, a) && Within(s, t, w) && Ends(s, a, t)
    ensures var r := Do(s, a).cpus[a.cpu];
      && r.sp == Some(t) && r.curr == t && r.masked == (if w.Irq? then false else if w.Boot? then r.masked else w.flags)
      && (a.Finish? ==> r.code == (if w.Irq? then w.interrupted else if w.Boot? then r.code else Task))
      && (a.SetCurrent? ==> r.code.Poll? && w.Block?)
  {
    var c: nat :| RunsOn(s, c, t) && InSwitch(s.cpus[c].code, w);
    OneRunner(s, c, a.cpu, t);
    assert CpuInv(s, a.cpu);
  }

  /** A task that is interrupted, yields or blocks at step i and comes out of that switch at
      step j, on the same CPU or another, finds itself current, on its own stack, with its
      original mask, at the code it left (or polling for its wake-up), whatever was picked,
      saved, loaded, woken and migrated in between. */
  lemma SwitchIsTransparent(run: seq<State>, steps: seq<Step>, i: nat, j: nat, t: nat)
    requires Run(run, steps) && i < j < |steps| && (steps[i].TimerIrq? || steps[i].StartYield? || steps[i].StartBlock?)
    requires RunsOn(run[i], steps[i].cpu, t) && Ends(run[j], steps[j], t)
    requires forall k :: i < k < j ==> !Ends(run[k], steps[k], t)
    ensures steps[j].cpu < |run[j + 1].cpus|
    ensures var before, after := run[i].cpus[steps[i].cpu], run[j + 1].cpus[steps[j].cpu];
      && after.sp == Some(t) && after.curr == t && after.masked == before.masked
      && (after.code == before.code || (after.code.Poll? && steps[i].StartBlock?))
  {
    StaysWithin(run, steps, i, j, t);
    RunKeepsInv(run, steps, j);
    EndRestores(run[j], steps[j], t, Reason(run[i].cpus[steps[i].cpu], steps[i]));
  }

  /** A task that blocks is not READY again before it is woken. */
  lemma {:induction false} BlockedUntilWoken(run: seq<State>, steps: seq<Step>, i: nat, j: nat)
    requires Run(run, steps) && i < j < |run| && steps[i].StartBlock?
    requires forall k :: i < k < j ==> steps[k] != Wake(run[i].cpus[steps[i].cpu].curr)
    ensures var t := run[i].cpus[steps[i].cpu].curr; t < |run[j].ready| && !run[j].ready[t]
    decreases j
  {
    assert run[j - 1 + 1] == Do(run[j - 1], steps[j - 1]);
    if j > i + 1 {
      BlockedUntilWoken(run, steps, i, j - 1);
    }
  }

  /** Masking and unmasking decide whether the timer interrupt may be taken next. */
  lemma MaskDecides(s: State, c: nat, m: bool)
    requires Shape(s) && Enabled(s, Mask(c, m))
    ensures Shape(Do(s, Mask(c, m))) && (Enabled(Do(s, Mask(c, m)), TimerIrq(c)) <==> !m)
  {
  }

  /** The mask is what keeps it so.  If IRQs were open at the point where `current = next`
      has been written but switch_to has not started, a timer interrupt there that picks a
      third task stores the SP of the task being left into the TCB of the task being
      entered, whatever the rest of the state is. */
  lemma OpenWindowCorruptsTcb(s: State, c: nat, prev: nat, next: nat, third: nat)
    requires Shape(s) && c < |s.cpus| && !s.cpus[c].masked && prev != next && next != third
    requires s.cpus[c].code.Set? && s.cpus[c].curr == next && s.cpus[c].sp == Some(prev)
    requires third < |s.home| && s.home[third] == c && s.ready[third]
    ensures Enabled(s, TimerIrq(c))
    ensures var s1 := Do(s, TimerIrq(c));
      Shape(s1) && Enabled(s1, PickNext(c, third)) &&
      var s2 := Do(s1, PickNext(c, third));
      Shape(s2) && Enabled(s2, SetCurrent(c)) &&
      var s3 := Do(s2, SetCurrent(c));
      Shape(s3) && Enabled(s3, SaveSp(c)) &&
      var s4 := Do(s3, SaveSp(c));
      s4.tcb[next].Some? && s4.tcb[next].value.stack == Some(prev)
  {
    var s1 := Do(s, TimerIrq(c));
    var s2 := Do(s1, PickNext(c, third));
    var s3 := Do(s2, SetCurrent(c));
  }

  // ---- migration, exactly --------------------------------------------------------------

  /** Each state of the path follows from the one before by some step; migrations on the way
      stay outside the gap. */
  ghost predicate Path(path: seq<State>) {
    |path| > 0 && forall i :: 0 <= i < |path| - 1 ==> Follows(path[i], path[i + 1])
  }

  ghost predicate Follows(s: State, r: State) {
    Shape(s) && exists a :: Enabled(s, a) && OutsideGap(s, a) && r == Do(s, a)
  }

  lemma PathConcat(p: seq<State>, q: seq<State>)
    requires Path(p) && Path(q) && p[|p| - 1] == q[0]
    ensures Path(p + q[1..])
  {
    var r := p + q[1..];
    forall i | 0 <= i < |r| - 1 ensures Follows(r[i], r[i + 1]) {
      if i < |p| - 1 {
        assert Follows(p[i], p[i + 1]);
      } else {
        assert Follows(q[i - (|p| - 1)], q[i - (|p| - 1) + 1]);
      }
    }
  }

  /** From a published choice to the chosen task's context, in two steps. */
  lemma SaveAndLoad(s: State, d: nat, t: nat) returns (path: seq<State>)
    requires Shape(s) && d < |s.cpus| && t < |s.home| && s.tcb[t].Some?
    requires s.cpus[d].code.Set? && s.cpus[d].code.next == t && s.cpus[d].curr == t
    requires s.cpus[d].code.prev.Some? && s.cpus[d].code.prev.value < |s.home| && s.cpus[d].code.prev.value != t
    ensures Path(path) && path[0] == s && Shape(path[|path| - 1])
    ensures var r := path[|path| - 1];
      && r.home == s.home && r.ready == s.ready && |r.cpus| == |s.cpus|
      && (forall c :: 0 <= c < |s.cpus| && c != d ==> r.cpus[c] == s.cpus[c])
      && r.cpus[d].curr == t && r.cpus[d].sp == s.tcb[t].value.stack && r.cpus[d].code == s.tcb[t].value.code
      && r.tcb[t] == s.tcb[t]
  {
    var s1 := Do(s, SaveSp(d));
    var s2 := Do(s1, LoadSp(d));
    path := [s, s1, s2];
    assert Follows(s, s1) && Follows(s1, s2);
  }

  /** CPU d has picked t and switches to it. */
  lemma SwitchesTo(s: State, d: nat, t: nat) returns (path: seq<State>)
    requires Shape(s) && d < |s.cpus| && t < |s.home| && s.tcb[t].Some? && t != s.cpus[d].curr
    requires s.cpus[d].code.Picked? && s.cpus[d].code.next == t
    ensures Path(path) && path[0] == s && Shape(path[|path| - 1])
    ensures var r := path[|path| - 1];
      && r.home == s.home && r.ready == s.ready && |r.cpus| == |s.cpus|
      && (forall c :: 0 <= c < |s.cpus| && c != d ==> r.cpus[c] == s.cpus[c])
      && r.cpus[d].curr == t && r.cpus[d].sp == s.tcb[t].value.stack && r.cpus[d].code == s.tcb[t].value.code
      && r.tcb[t] == s.tcb[t]
  {
    var s1 := Do(s, SetCurrent(d));
    assert Follows(s, s1);
    var rest := SaveAndLoad(s1, d, t);
    PathConcat([s, s1], rest);
    path := [s, s1] + rest[1..];
    assert path[|path| - 1] == rest[|rest| - 1];
  }

  /** Two CPUs are on one stack, or a CPU is about to load the SP of a task that has none. */
  ghost predicate Broken(s: State) {
    || (exists c, d, t :: c != d && RunsOn(s, c, t) && RunsOn(s, d, t))
    || (exists c :: 0 <= c < |s.cpus| && s.cpus[c].code.Saved? && s.cpus[c].code.next < |s.tcb| && s.tcb[s.cpus[c].code.next].None?)
  }

  lemma InvIsNotBroken(s: State)
    requires Inv(s)
    ensures !Broken(s)
  {
    forall c, d, t | RunsOn(s, c, t) && RunsOn(s, d, t) ensures c == d {
      assert CpuInv(s, c) && CpuInv(s, d);
    }
    forall c | 0 <= c < |s.cpus| && s.cpus[c].code.Saved? && s.cpus[c].code.next < |s.tcb| ensures s.tcb[s.cpus[c].code.next].Some? {
      assert CpuInv(s, c) && TcbInv(s, s.cpus[c].curr);
    }
  }

  lemma {:induction false} PathKeepsInv(path: seq<State>, i: nat)
    requires Path(path) && Inv(path[0]) && i < |path|
    ensures Inv(path[i])
  {
    if i > 0 {
      PathKeepsInv(path, i - 1);
      assert Follows(path[i - 1], path[i - 1 + 1]);
      var a :| Enabled(path[i - 1], a) && OutsideGap(path[i - 1], a) && path[i] == Do(path[i - 1], a);
      StepKeepsInv(path[i - 1], a);
    }
  }

  /** A context that can be loaded, by a CPU that has not been chosen for t. */
  predicate Loadable(s: State, n: nat) {
    && n < |s.tcb| && s.tcb[n].Some?
    && var code := s.tcb[n].value.code; code.Task? || (code.Back? && WhyOk(code.why) && !code.why.Boot?)
  }

  /** CPU d can be brought to its next pick without touching t. */
  predicate Drivable(s: State, d: nat, t: nat) {
    && Shape(s) && d < |s.cpus| && t < |s.home| && s.cpus[d].curr != t
    && match s.cpus[d].code
       case Task => true
       case Poll => true
       case Pick(_) => true
       case Picked(w, n) => WhyOk(w) && !w.Boot? && n < |s.home| && n != t && (n != s.cpus[d].curr ==> Loadable(s, n))
       case Set(w, p, n) => n == s.cpus[d].curr && p != Some(n) && (p.Some? ==> p.value < |s.home| && p.value != t) && Loadable(s, n)
       case Saved(w, p, n) => n == s.cpus[d].curr && Loadable(s, n)
       case Back(w) => WhyOk(w) && !w.Boot?
  }

  function Left(code: Code): nat {
    match code
    case Pick(_) => 0
    case Task => 1
    case Poll => 2
    case Back(_) => 3
    case Saved(_, _, _) => 4
    case Set(_, _, _) => 5
    case Picked(_, _) => 6
  }

  function DriveStep(s: State, d: nat): Step
    requires Shape(s) && d < |s.cpus|
  {
    match s.cpus[d].code
    case Task => StartYield(d)
    case Poll => PollDone(d)
    case Pick(_) => StartYield(d)
    case Picked(_, _) => SetCurrent(d)
    case Set(_, _, _) => SaveSp(d)
    case Saved(_, _, _) => LoadSp(d)
    case Back(_) => Finish(d)
  }

  /** Everything but CPU d is as before, as far as t and the other CPUs are concerned. */
  predicate Beside(s: State, r: State, d: nat, t: nat) {
    && Shape(s) && Shape(r) && t < |s.home| && r.home == s.home && |r.cpus| == |s.cpus|
    && (forall c :: 0 <= c < |s.cpus| && c != d ==> r.cpus[c] == s.cpus[c])
    && r.tcb[t] == s.tcb[t] && (s.ready[t] ==> r.ready[t])
  }

  lemma DriveOnce(s: State, d: nat, t: nat)
    requires Drivable(s, d, t) && !s.cpus[d].code.Pick? && (s.cpus[d].code.Poll? ==> s.ready[s.cpus[d].curr])
    ensures var a := DriveStep(s, d);
      && Enabled(s, a) && Drivable(Do(s, a), d, t) && Beside(s, Do(s, a), d, t)
      && Left(Do(s, a).cpus[d].code) < Left(s.cpus[d].code)
  {
  }

  /** From any point of its code a CPU can reach its next pick, with the others standing
      still. */
  lemma {:induction false} DriveToPick(s: State, d: nat, t: nat) returns (path: seq<State>)
    requires Drivable(s, d, t)
    ensures Path(path) && path[0] == s
    ensures var r := path[|path| - 1]; Drivable(r, d, t) && r.cpus[d].code.Pick? && Beside(s, r, d, t)
    decreases Left(s.cpus[d].code), !s.ready[s.cpus[d].curr]
  {
    if s.cpus[d].code.Pick? {
      path := [s];
    } else if s.cpus[d].code.Poll? && !s.ready[s.cpus[d].curr] {
      var r := Do(s, Wake(s.cpus[d].curr));
      assert Follows(s, r);
      var rest := DriveToPick(r, d, t);
      PathConcat([s, r], rest);
      path := [s, r] + rest[1..];
      assert path[|path| - 1] == rest[|rest| - 1];
    } else {
      DriveOnce(s, d, t);
      var r := Do(s, DriveStep(s, d));
      assert Follows(s, r);
      var rest := DriveToPick(r, d, t);
      PathConcat([s, r], rest);
      path := [s, r] + rest[1..];
      assert path[|path| - 1] == rest[|rest| - 1];
    }
  }

  /** The state of the machine just after t has been moved to CPU d out of CPU c's hands. */
  lemma TargetIsDrivable(s: State, d: nat, t: nat)
    requires Inv(s) && Enabled(s, Migrate(t, d))
    ensures Drivable(Do(s, Migrate(t, d)), d, t)
  {
    var u := s.cpus[d];
    assert CpuInv(s, d) && TcbInv(s, u.curr);
    if u.code.Picked? {
      assert TcbInv(s, u.code.next);
    }
  }

  /** CPU d, at its pick, takes t, which its queue holds. */
  lemma TakesOver(s: State, d: nat, t: nat) returns (path: seq<State>)
    requires Drivable(s, d, t) && s.cpus[d].code.Pick? && s.home[t] == d && s.ready[t] && s.tcb[t].Some?
    ensures Path(path) && path[0] == s
    ensures var r := path[|path| - 1];
      && Shape(r) && r.home == s.home && |r.cpus| == |s.cpus|
      && (forall c :: 0 <= c < |s.cpus| && c != d ==> r.cpus[c] == s.cpus[c])
      && r.cpus[d].curr == t && r.cpus[d].sp == s.tcb[t].value.stack && r.cpus[d].code == s.tcb[t].value.code
      && r.tcb[t] == s.tcb[t]
  {
    var s1 := Do(s, PickNext(d, t));
    assert Follows(s, s1);
    var p := SwitchesTo(s1, d, t);
    PathConcat([s, s1], p);
    path := [s, s1] + p[1..];
    assert path[|path| - 1] == p[|p| - 1];
  }

  /** CPU c has picked t and not published it: both CPUs end up on t's stack. */
  lemma PickedGapBreaks(s: State, c: nat, d: nat, t: nat) returns (path: seq<State>)
    requires Drivable(s, d, t) && s.cpus[d].code.Pick? && s.home[t] == d && s.ready[t]
    requires s.tcb[t].Some? && Good(t, s.tcb[t].value)
    requires c < |s.cpus| && c != d && s.cpus[c].code.Picked? && s.cpus[c].code.next == t && s.cpus[c].curr != t
    ensures Path(path) && path[0] == s && Broken(path[|path| - 1])
  {
    var p := TakesOver(s, d, t);
    var q := SwitchesTo(p[|p| - 1], c, t);
    PathConcat(p, q);
    path := p + q[1..];
    assert path[|path| - 1] == q[|q| - 1];
    assert RunsOn(path[|path| - 1], c, t) && RunsOn(path[|path| - 1], d, t);
  }

  /** CPU c has published its next task and not saved t: both CPUs are on t's stack, or, if
      t was never saved before, CPU d has no SP to load. */
  lemma UnsavedGapBreaks(s: State, c: nat, d: nat, t: nat) returns (path: seq<State>)
    requires Drivable(s, d, t) && s.cpus[d].code.Pick? && s.home[t] == d && s.ready[t]
    requires s.tcb[t].Some? ==> Good(t, s.tcb[t].value)
    requires c < |s.cpus| && c != d && s.cpus[c].code.Set? && s.cpus[c].code.prev == Some(t) && s.cpus[c].sp == Some(t)
    ensures Path(path) && path[0] == s && Broken(path[|path| - 1])
  {
    if s.tcb[t].Some? {
      path := TakesOver(s, d, t);
      assert RunsOn(path[|path| - 1], c, t) && RunsOn(path[|path| - 1], d, t);
    } else {
      var s1 := Do(s, PickNext(d, t));
      var s2 := Do(s1, SetCurrent(d));
      var s3 := Do(s2, SaveSp(d));
      assert Follows(s, s1) && Follows(s1, s2) && Follows(s2, s3);
      path := [s, s1, s2, s3];
      assert s3.cpus[d].code.Saved? && s3.tcb[s3.cpus[d].code.next].None?;
    }
  }

  /** Every migration inside the gap can be followed, without any further migration, by a
      state in which two CPUs are on one stack or a CPU has no SP to load. */
  lemma GapMigrationBreaks(s: State, d: nat, t: nat) returns (path: seq<State>)
    requires Inv(s) && Enabled(s, Migrate(t, d)) && !OutsideGap(s, Migrate(t, d))
    ensures Path(path) && path[0] == Do(s, Migrate(t, d)) && Broken(path[|path| - 1])
  {
    var c := s.home[t];
    assert CpuInv(s, c) && TcbInv(s, t);
    TargetIsDrivable(s, d, t);
    var p := DriveToPick(Do(s, Migrate(t, d)), d, t);
    var r := p[|p| - 1];
    assert r.cpus[c] == s.cpus[c] && r.tcb[t] == s.tcb[t];
    var q;
    if s.cpus[c].code.Picked? {
      q := PickedGapBreaks(r, c, d, t);
    } else {
      q := UnsavedGapBreaks(r, c, d, t);
    }
    PathConcat(p, q);
    path := p + q[1..];
    assert path[|path| - 1] == q[|q| - 1];
  }

  /** The exact condition for sched_migrate at this grain: from any good state, a migration
      leaves the stacks exclusive and every chosen task loadable in all continuations if and
      only if no CPU has the task between pick and save.  The test under the queue locks does
      not see this. */
  lemma MigrationIsSafeExactly(s: State, d: nat, t: nat)
    requires Inv(s) && Enabled(s, Migrate(t, d))
    ensures OutsideGap(s, Migrate(t, d)) <==>
      forall path :: Path(path) && path[0] == Do(s, Migrate(t, d)) ==> !Broken(path[|path| - 1])
  {
    if OutsideGap(s, Migrate(t, d)) {
      MigrateKeepsInv(s, Migrate(t, d));
      forall path | Path(path) && path[0] == Do(s, Migrate(t, d)) ensures !Broken(path[|path| - 1]) {
        PathKeepsInv(path, |path| - 1);
        InvIsNotBroken(path[|path| - 1]);
      }
    } else {
      var path := GapMigrationBreaks(s, d, t);
    }
  }

  ghost predicate Reachable(s: State) {
    exists run, steps :: Run(run, steps) && run[|steps|] == s
  }

  lemma ReachableStep(s: State, a: Step)
    requires Reachable(s) && Shape(s) && Enabled(s, a) && OutsideGap(s, a)
    ensures Reachable(Do(s, a))
  {
    var run, steps :| Run(run, steps) && run[|steps|] == s;
    var longer, taken := run + [Do(s, a)], steps + [a];
    forall i | 0 <= i < |taken|
      ensures Shape(longer[i]) && Enabled(longer[i], taken[i]) && OutsideGap(longer[i], taken[i]) && longer[i + 1] == Do(longer[i], taken[i])
    {
      if i < |steps| {
        assert longer[i] == run[i] && longer[i + 1] == run[i + 1] && taken[i] == steps[i];
      }
    }
    assert Run(longer, taken) && longer[|taken|] == Do(s, a);
  }

  /** Two CPUs: CPU0, at u, has tasks 0 and 2; CPU1 idles. */
  function Small(u: Cpu): State {
    State([u, Cpu(1, Some(1), true, Task)], [0, 1, 0], [true, true, true], [Some(Fresh(0)), None, Some(Fresh(2))])
  }

  predicate SmallMove(u: Cpu, a: Step, v: Cpu) {
    Shape(Small(u)) && Enabled(Small(u), a) && !a.Migrate? && Do(Small(u), a) == Small(v)
  }

  const AtBoot := Cpu(0, None, true, Set(Boot, None, 0))
  const AtSaved := Cpu(0, None, true, Saved(Boot, None, 0))
  const AtTask := Cpu(0, Some(0), false, Task)
  const AtPick := Cpu(0, Some(0), true, Pick(Yield(false)))
  const AtPicked := Cpu(0, Some(0), true, Picked(Yield(false), 2))
  const AtSet := Cpu(2, Some(0), true, Set(Yield(false), Some(0), 2))

  lemma BootIsReachable()
    ensures Reachable(Small(AtBoot))
  {
    assert Init(Small(AtBoot));
    var run, steps: seq<Step> := [Small(AtBoot)], [];
    assert Run(run, steps) && run[|steps|] == Small(AtBoot);
  }

  lemma BootMoves()
    ensures SmallMove(AtBoot, SaveSp(0), AtSaved) && SmallMove(AtSaved, LoadSp(0), AtTask)
  {
  }

  lemma YieldMoves()
    ensures SmallMove(AtTask, StartYield(0), AtPick)
    ensures SmallMove(AtPick, PickNext(0, 2), AtPicked) && SmallMove(AtPicked, SetCurrent(0), AtSet)
  {
  }

  lemma BootReachesTask()
    ensures Reachable(Small(AtTask))
  {
    BootIsReachable();
    BootMoves();
    ReachableStep(Small(AtBoot), SaveSp(0));
    ReachableStep(Small(AtSaved), LoadSp(0));
  }

  /** Both ends of the gap are reached from boot: CPU0 switches into its first task, which
      yields to the second, while CPU1 idles.  The two states are unsafe to migrate in. */
  lemma GapIsReachable()
    ensures Reachable(Small(AtPicked)) && Reachable(Small(AtSet))
  {
    BootReachesTask();
    YieldMoves();
    ReachableStep(Small(AtTask), StartYield(0));
    ReachableStep(Small(AtPick), PickNext(0, 2));
    ReachableStep(Small(AtPicked), SetCurrent(0));
  }

  lemma GapStatesAreUnsafe()
    ensures Shape(Small(AtPicked)) && Enabled(Small(AtPicked), Migrate(2, 1)) && !OutsideGap(Small(AtPicked), Migrate(2, 1))
    ensures Shape(Small(AtSet)) && Enabled(Small(AtSet), Migrate(0, 1)) && !OutsideGap(Small(AtSet), Migrate(0, 1))
  {
  }

  lemma ReachableInv(s: State)
    requires Reachable(s)
    ensures Inv(s)
  {
    var run, steps :| Run(run, steps) && run[|steps|] == s;
    RunKeepsInv(run, steps, |steps|);
  }

  /** So the code does break: from boot, a run and then one migration, at either end of the
      gap, lead to two CPUs on one stack or to a CPU with no SP to load. */
  lemma MigrationBreaksReachably(picked: bool) returns (s: State, t: nat, path: seq<State>)
    ensures Reachable(s) && Shape(s) && Enabled(s, Migrate(t, 1))
    ensures if picked then s.cpus[0].code.Picked? && s.cpus[0].code.next == t else s.cpus[0].code.Set? && s.cpus[0].code.prev == Some(t)
    ensures Path(path) && path[0] == Do(s, Migrate(t, 1)) && Broken(path[|path| - 1])
  {
    s, t := if picked then Small(AtPicked) else Small(AtSet), if picked then 2 else 0;
    GapIsReachable();
    GapStatesAreUnsafe();
    ReachableInv(s);
    path := GapMigrationBreaks(s, 1, t);
  }
}
