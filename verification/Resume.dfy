/** Runs of any number of cores over the frames of module Frames: tasks compute, write
    memory, are interrupted, switch to one another, move between cores and come back.

    A switch is one step here.  Its stores go to the stack it leaves and its loads come from
    the stack it enters, which no other core uses (module ContextSwitch). */
module Resume {
  import opened Base
  import opened Frames

  /** The memory a task's context lives in: the word its SP is saved in (tcb_t.sp), the word
      task_trampoline finds its code by (tcb_t.entry, none for the boot context), the words
      base..limit of its stack, and the part low..top of it that SP may range over. */
  datatype Home = Home(slot: nat, entry: Option<nat>, base: nat, low: nat, top: nat, limit: nat)

  /** The address of task_trampoline, and the entry each task was initialised with. */
  datatype Program = Program(trampoline: nat, entry: seq<nat>)

  /** The home of a task whose tcb_t is at word address b: the stack is inside the TCB, with
      a canary at either end; SP starts at the upper one.  Idle tasks and the boot context
      keep their stacks elsewhere (cpu_stacks). */
  function TcbHome(b: nat): Home {
    Home(b, Some(b + ENTRY_SLOT), b + 1, b + 2, b + STACK_WORDS, b + 1 + STACK_WORDS)
  }

  datatype Core = Core(cpu: Cpu, curr: nat)

  /** irq[t] is the frame of the interrupt task t is handling, if any. */
  datatype State = State(mem: seq<nat>, cores: seq<Core>, home: seq<Home>, irq: seq<Option<nat>>)

  datatype Step =
    | Compute(core: nat, cpu: Cpu)             // any instructions that do not write memory
    | Write(core: nat, addr: nat, value: nat)
    | Switch(core: nat, next: nat)             // switch_to(&curr->sp, next->sp)
    | IrqEnter(core: nat, vector: nat)
    | IrqExit(core: nat)

  predicate Owned(h: Home, addr: nat) {
    addr == h.slot || h.entry == Some(addr) || h.base <= addr < h.limit
  }

  predicate WellFormed(h: Home, size: nat) {
    && h.base <= h.low <= h.top <= h.limit <= size && h.slot < size
    && !(h.base <= h.slot < h.limit)
    && (h.entry.Some? ==> h.entry.value < size && h.entry.value != h.slot && !(h.base <= h.entry.value < h.limit))
  }

  predicate Apart(h: Home, g: Home) {
    && !Owned(g, h.slot) && !Owned(h, g.slot)
    && (h.entry.Some? ==> !Owned(g, h.entry.value)) && (g.entry.Some? ==> !Owned(h, g.entry.value))
    && (h.limit <= g.base || g.limit <= h.base)
  }

  /** Homes are inside memory and do not overlap; no task runs on two cores. */
  predicate Layout(s: State) {
    && |s.irq| == |s.home|
    && (forall c :: 0 <= c < |s.cores| ==> s.cores[c].curr < |s.home| && CpuOk(s.cores[c].cpu))
    && (forall c, d :: 0 <= c < |s.cores| && 0 <= d < |s.cores| && c != d ==> s.cores[c].curr != s.cores[d].curr)
    && (forall t :: 0 <= t < |s.home| ==> WellFormed(s.home[t], |s.mem|))
    && (forall t, u :: 0 <= t < |s.home| && 0 <= u < |s.home| && t != u ==> Apart(s.home[t], s.home[u]))
  }

  predicate OnCore(s: State, t: nat) {
    exists c :: 0 <= c < |s.cores| && s.cores[c].curr == t
  }

  /** What is below is free for t: the interrupt frame it has to give back, or else the top
      of its stack. */
  function Ceiling(s: State, t: nat): nat
    requires t < |s.home| == |s.irq|
  {
    match s.irq[t] case Some(p) => p case None => s.home[t].top
  }

  /** Code running on a core writes the free stack of its own task, or memory that holds no
      context: globals, device registers, and every other field of any TCB (state, load, cpu,
      name, pinned). */
  predicate MayWrite(s: State, c: nat, addr: nat)
    requires Layout(s) && c < |s.cores|
  {
    && addr < |s.mem|
    && (|| s.home[s.cores[c].curr].low <= addr < Ceiling(s, s.cores[c].curr)
        || forall t :: 0 <= t < |s.home| ==> !Owned(s.home[t], addr))
  }

  predicate SpOk(s: State, c: nat, sp: nat)
    requires Layout(s) && c < |s.cores|
  {
    s.home[s.cores[c].curr].low <= sp <= Ceiling(s, s.cores[c].curr)
  }

  predicate Enabled(s: State, a: Step)
    requires Layout(s)
  {
    && a.core < |s.cores|
    && var core := s.cores[a.core]; var h := s.home[core.curr];
       match a
       case Compute(c, cpu) => CpuOk(cpu) && SpOk(s, c, cpu.sp)
       case Write(c, addr, _) => MayWrite(s, c, addr)
       case Switch(_, n) =>
         && n < |s.home| && !OnCore(s, n) && s.mem[s.home[n].slot] + FRAME_WORDS <= |s.mem|
         && h.low + FRAME_WORDS <= core.cpu.sp <= |s.mem|
       case IrqEnter(_, _) =>
         !IrqMasked(core.cpu.daif) && s.irq[core.curr].None? && h.low + IRQ_WORDS <= core.cpu.sp <= |s.mem|
       case IrqExit(_) => s.irq[core.curr] == Some(core.cpu.sp) && core.cpu.sp + IRQ_WORDS <= |s.mem|
  }

  function Do(s: State, a: Step): State
    requires Layout(s) && Enabled(s, a)
  {
    var core := s.cores[a.core];
    match a
    case Compute(c, cpu) => s.(cores := s.cores[c := core.(cpu := cpu)])
    case Write(_, addr, v) => s.(mem := s.mem[addr := v])
    case Switch(c, n) =>
      var m := SwitchStores(s.mem, core.cpu, s.home[core.curr].slot);
      s.(mem := m, cores := s.cores[c := Core(SwitchLoads(m, core.cpu, s.mem[s.home[n].slot]), n)])
    case IrqEnter(c, v) =>
      var p := core.cpu.sp - IRQ_WORDS;
      s.(mem := Store(s.mem, p, IrqFrame(core.cpu, s.mem[p + 33])),
         cores := s.cores[c := core.(cpu := Vectored(core.cpu, v))],
         irq := s.irq[core.curr := Some(p)])
    case IrqExit(c) =>
      s.(cores := s.cores[c := core.(cpu := IrqLoads(s.mem, core.cpu.sp))], irq := s.irq[core.curr := None])
  }

  /** A task fresh from task_init. */
  predicate FreshTcb(s: State, t: nat, prog: Program)
    requires Layout(s) && t < |s.home|
  {
    var b := s.home[t].slot;
    && s.home[t] == TcbHome(b) && b % 2 == 0
    && t < |prog.entry| && s.mem[b + ENTRY_SLOT] == prog.entry[t]
    && s.mem[b] == b + STACK_WORDS - FRAME_WORDS && s.mem[b + 1] == CANARY && s.mem[b + STACK_WORDS] == CANARY
    && s.mem[b + STACK_WORDS - FRAME_WORDS..b + STACK_WORDS] == FreshFrame(prog.trampoline)
    && s.irq[t].None?
  }

  /** task_init makes a task fresh; tcb_t is 16-byte aligned. */
  lemma TaskInitIsFresh(s: State, t: nat, prog: Program)
    requires Layout(s) && t < |s.home| && s.irq[t].None? && t < |prog.entry|
    requires s.home[t] == TcbHome(s.home[t].slot) && s.home[t].slot % 2 == 0 && s.home[t].slot + TCB_WORDS <= |s.mem|
    ensures var r := s.(mem := InitTcb(s.mem, s.home[t].slot, prog.entry[t], prog.trampoline)); Layout(r) && FreshTcb(r, t, prog)
  {
    var r := s.(mem := InitTcb(s.mem, s.home[t].slot, prog.entry[t], prog.trampoline));
    var p := s.home[t].slot + STACK_WORDS - FRAME_WORDS;
    assert forall k :: 0 <= k < FRAME_WORDS ==> r.mem[p + k] == FreshFrame(prog.trampoline)[k];
  }

  /** Each core is on a context of its own (boot context, idle task), every other task is
      fresh. */
  ghost predicate Init(s: State, prog: Program) {
    && Layout(s)
    && (forall c :: 0 <= c < |s.cores| ==> SpOk(s, c, s.cores[c].cpu.sp) && s.irq[s.cores[c].curr].None?)
    && (forall t :: 0 <= t < |s.home| && !OnCore(s, t) ==> FreshTcb(s, t, prog))
  }

  ghost predicate Run(run: seq<State>, steps: seq<Step>, prog: Program) {
    && |run| == |steps| + 1 && Init(run[0], prog)
    && forall i :: 0 <= i < |steps| ==> Layout(run[i]) && Enabled(run[i], steps[i]) && run[i + 1] == Do(run[i], steps[i])
  }

  // ---- invariant ----------------------------------------------------------------------

  ghost predicate TaskInv(s: State, t: nat)
    requires Layout(s) && t < |s.home|
  {
    && (s.irq[t].Some? ==> s.home[t].low <= s.irq[t].value && s.irq[t].value + IRQ_WORDS <= s.home[t].top)
    && (!OnCore(s, t) ==> s.home[t].low <= s.mem[s.home[t].slot] && s.mem[s.home[t].slot] + FRAME_WORDS <= Ceiling(s, t))
  }

  ghost predicate Inv(s: State) {
    && Layout(s)
    && (forall c :: 0 <= c < |s.cores| ==> SpOk(s, c, s.cores[c].cpu.sp))
    && (forall t :: 0 <= t < |s.home| ==> TaskInv(s, t))
  }

  /** The words a step may store to belong to the stepping core's task or to nobody. */
  lemma OthersKeepWord(s: State, a: Step, t: nat, addr: nat)
    requires Inv(s) && Enabled(s, a) && t < |s.home| && t != s.cores[a.core].curr && Owned(s.home[t], addr)
    ensures |Do(s, a).mem| == |s.mem| && addr < |s.mem| && Do(s, a).mem[addr] == s.mem[addr]
  {
    var u := s.cores[a.core].curr;
    assert TaskInv(s, u) && SpOk(s, a.core, s.cores[a.core].cpu.sp);
    assert Apart(s.home[t], s.home[u]) && WellFormed(s.home[t], |s.mem|) && WellFormed(s.home[u], |s.mem|);
  }

  lemma StepKeepsLayout(s: State, a: Step)
    requires Inv(s) && Enabled(s, a)
    ensures var r := Do(s, a);
      && Layout(r) && r.home == s.home && |r.mem| == |s.mem| && |r.cores| == |s.cores|
      && (forall t :: 0 <= t < |s.home| && t != s.cores[a.core].curr ==> r.irq[t] == s.irq[t])
  {
  }

  /** What code does between switches and interrupts is unrestricted but local: a write changes
      that word and nothing else, a computation the core's own registers and nothing else. */
  lemma CodeSteps(s: State, a: Step)
    requires Layout(s) && Enabled(s, a) && (a.Write? || a.Compute?)
    ensures var r := Do(s, a);
      && r.home == s.home && r.irq == s.irq && |r.mem| == |s.mem| && |r.cores| == |s.cores|
      && (forall c :: 0 <= c < |s.cores| ==>
            r.cores[c].curr == s.cores[c].curr && (a.Write? || c != a.core ==> r.cores[c].cpu == s.cores[c].cpu))
      && (a.Compute? ==> r.cores[a.core].cpu == a.cpu && r.mem == s.mem)
      && (a.Write? ==> forall k :: 0 <= k < |s.mem| ==> r.mem[k] == if k == a.addr then a.value else s.mem[k])
  {
  }

  /** Which tasks are on a core changes by a switch only. */
  lemma StepAndCores(s: State, a: Step, t: nat)
    requires Inv(s) && Enabled(s, a) && t != s.cores[a.core].curr
    ensures OnCore(Do(s, a), t) <==> OnCore(s, t) || a == Switch(a.core, t)
  {
    var r := Do(s, a);
    assert forall c :: 0 <= c < |s.cores| && c != a.core ==> r.cores[c] == s.cores[c];
    if c :| 0 <= c < |s.cores| && s.cores[c].curr == t {
      assert r.cores[c].curr == t;
    }
    if a == Switch(a.core, t) {
      assert r.cores[a.core].curr == t;
    }
  }

  lemma StepKeepsTask(s: State, a: Step, t: nat)
    requires Inv(s) && Enabled(s, a) && t < |s.home| && t != s.cores[a.core].curr && Layout(Do(s, a)) && Do(s, a).home == s.home
    ensures TaskInv(Do(s, a), t)
  {
    assert TaskInv(s, t);
    StepKeepsLayout(s, a);
    StepAndCores(s, a, t);
    OthersKeepWord(s, a, t, s.home[t].slot);
  }

  lemma SwitchKeepsOwnTask(s: State, a: Step)
    requires Inv(s) && Enabled(s, a) && a.Switch? && Layout(Do(s, a)) && Do(s, a).home == s.home
    ensures TaskInv(Do(s, a), s.cores[a.core].curr)
  {
    var t := s.cores[a.core].curr;
    var r := Do(s, a);
    assert TaskInv(s, t) && SpOk(s, a.core, s.cores[a.core].cpu.sp) && WellFormed(s.home[t], |s.mem|);
    assert r.mem[s.home[t].slot] == s.cores[a.core].cpu.sp - FRAME_WORDS;
  }

  lemma StepKeepsOwnTask(s: State, a: Step)
    requires Inv(s) && Enabled(s, a) && !a.Switch? && Layout(Do(s, a)) && Do(s, a).home == s.home
    ensures TaskInv(Do(s, a), s.cores[a.core].curr)
  {
    var t := s.cores[a.core].curr;
    assert TaskInv(s, t) && SpOk(s, a.core, s.cores[a.core].cpu.sp) && WellFormed(s.home[t], |s.mem|);
    assert Do(s, a).cores[a.core].curr == t;
  }

  lemma StepKeepsSp(s: State, a: Step, c: nat)
    requires Inv(s) && Enabled(s, a) && c < |s.cores| && Layout(Do(s, a)) && Do(s, a).home == s.home
    ensures |Do(s, a).cores| == |s.cores| && SpOk(Do(s, a), c, Do(s, a).cores[c].cpu.sp)
  {
    StepKeepsLayout(s, a);
    assert SpOk(s, c, s.cores[c].cpu.sp) && TaskInv(s, s.cores[c].curr);
    if c == a.core && a.Switch? {
      assert TaskInv(s, a.next);
    }
  }

  lemma StepKeepsInv(s: State, a: Step)
    requires Inv(s) && Enabled(s, a)
    ensures Inv(Do(s, a))
  {
    var r := Do(s, a);
    StepKeepsLayout(s, a);
    forall t | 0 <= t < |r.home| ensures TaskInv(r, t) {
      if t != s.cores[a.core].curr {
        StepKeepsTask(s, a, t);
      } else if a.Switch? {
        SwitchKeepsOwnTask(s, a);
      } else {
        StepKeepsOwnTask(s, a);
      }
    }
    forall c | 0 <= c < |r.cores| ensures SpOk(r, c, r.cores[c].cpu.sp) {
      StepKeepsSp(s, a, c);
    }
  }

  lemma InitInv(s: State, prog: Program)
    requires Init(s, prog)
    ensures Inv(s)
  {
    forall t | 0 <= t < |s.home| ensures TaskInv(s, t) {
      if !OnCore(s, t) {
        assert FreshTcb(s, t, prog);
      }
    }
  }

  lemma {:induction false} RunKeepsInv(run: seq<State>, steps: seq<Step>, prog: Program, i: nat)
    requires Run(run, steps, prog) && i < |run|
    ensures Inv(run[i]) && run[i].home == run[0].home && |run[i].mem| == |run[0].mem| && |run[i].cores| == |run[0].cores|
  {
    if i == 0 {
      InitInv(run[0], prog);
    } else {
      RunKeepsInv(run, steps, prog, i - 1);
      StepKeepsInv(run[i - 1], steps[i - 1]);
      StepKeepsLayout(run[i - 1], steps[i - 1]);
      assert run[i - 1 + 1] == Do(run[i - 1], steps[i - 1]);
    }
  }

  /** Task t's saved SP and stack hold the same words in both states. */
  ghost predicate SameContext(s: State, r: State, t: nat) {
    && t < |s.home| && r.home == s.home && |r.irq| == |s.irq| == |s.home| && r.irq[t] == s.irq[t]
    && |r.mem| == |s.mem| && WellFormed(s.home[t], |s.mem|)
    && forall addr :: 0 <= addr < |s.mem| && Owned(s.home[t], addr) ==> r.mem[addr] == s.mem[addr]
  }

  lemma StepKeepsOtherContext(s: State, a: Step, t: nat)
    requires Inv(s) && Enabled(s, a) && t < |s.home| && t != s.cores[a.core].curr
    ensures SameContext(s, Do(s, a), t)
  {
    var r := Do(s, a);
    StepKeepsLayout(s, a);
    forall addr | 0 <= addr < |s.mem| && Owned(s.home[t], addr) ensures r.mem[addr] == s.mem[addr] {
      OthersKeepWord(s, a, t, addr);
    }
  }

  lemma SameContextTransitive(s: State, u: State, r: State, t: nat)
    requires SameContext(s, u, t) && SameContext(u, r, t)
    ensures SameContext(s, r, t)
  {
  }

  lemma RunStepKeepsOtherContext(run: seq<State>, steps: seq<Step>, prog: Program, i: nat, t: nat)
    requires Run(run, steps, prog) && i < |steps| && t < |run[i].home| && !OnCore(run[i], t)
    ensures SameContext(run[i], run[i + 1], t)
  {
    RunKeepsInv(run, steps, prog, i);
    StepKeepsOtherContext(run[i], steps[i], t);
  }

  function After(run: seq<State>, k: nat): State
    requires k + 1 < |run|
  {
    run[k + 1]
  }

  lemma {:induction false} KeptThroughout(run: seq<State>, i: nat, j: nat, t: nat)
    requires i <= j < |run| && SameContext(run[i], run[i], t)
    requires forall k {:trigger After(run, k)} :: i <= k < j ==> SameContext(run[k], After(run, k), t)
    ensures SameContext(run[i], run[j], t)
    decreases j
  {
    if i < j {
      KeptThroughout(run, i, j - 1, t);
      assert After(run, j - 1) == run[j];
      SameContextTransitive(run[i], run[j - 1], run[j], t);
    }
  }

  /** While a task is off all cores, its saved SP and its stack keep every word, whatever is
      written to the other fields of its TCB. */
  lemma SleepingContextIsKept(run: seq<State>, steps: seq<Step>, prog: Program, i: nat, j: nat, t: nat)
    requires Run(run, steps, prog) && i <= j < |run| && t < |run[i].home|
    requires forall k :: i <= k < j ==> !OnCore(run[k], t)
    ensures SameContext(run[i], run[j], t)
  {
    RunKeepsInv(run, steps, prog, i);
    forall k | i <= k < j ensures SameContext(run[k], After(run, k), t) {
      RunKeepsInv(run, steps, prog, k);
      RunStepKeepsOtherContext(run, steps, prog, k, t);
    }
    KeptThroughout(run, i, j, t);
  }

  // ---- what every run promises --------------------------------------------------------

  /** A switch always finds a frame inside the next task's own stack. */
  lemma NextFrameIsThere(run: seq<State>, steps: seq<Step>, prog: Program, i: nat, t: nat)
    requires Run(run, steps, prog) && i < |run| && t < |run[i].home| && !OnCore(run[i], t)
    ensures Layout(run[i])
    ensures var p := run[i].mem[run[i].home[t].slot];
      run[i].home[t].low <= p && p + FRAME_WORDS <= run[i].home[t].top
  {
    RunKeepsInv(run, steps, prog, i);
    assert TaskInv(run[i], t);
  }

  lemma SwitchSaves(s: State, a: Step, later: State)
    requires Inv(s) && Enabled(s, a) && a.Switch? && SameContext(Do(s, a), later, s.cores[a.core].curr)
    ensures var u := s.cores[a.core]; var b := s.home[u.curr].slot; var p := u.cpu.sp - FRAME_WORDS;
      && later.home == s.home && (b < p || u.cpu.sp <= b) && 0 <= p && u.cpu.sp <= |s.mem| == |later.mem| && later.mem[b] == p
      && forall i :: p <= i < u.cpu.sp ==> later.mem[i] == SwitchStores(s.mem, u.cpu, b)[i]
  {
    var u := s.cores[a.core];
    assert TaskInv(s, u.curr) && SpOk(s, a.core, u.cpu.sp) && WellFormed(s.home[u.curr], |s.mem|);
    assert Do(s, a).mem == SwitchStores(s.mem, u.cpu, s.home[u.curr].slot);
  }

  /** Loading the frame at p gives the task back what it had at c when it left. */
  ghost predicate FrameHolds(s: State, t: nat, c: Cpu, d: Cpu) {
    && CpuOk(c) && CpuOk(d) && FRAME_WORDS <= c.sp && t < |s.home| && s.home[t].slot < |s.mem|
    && var p := c.sp - FRAME_WORDS;
       && s.mem[s.home[t].slot] == p && p + FRAME_WORDS <= |s.mem|
       && SameCallee(SwitchLoads(s.mem, d, p), c) && SwitchLoads(s.mem, d, p).pc == c.x[30]
  }

  lemma SwitchLeavesFrame(s: State, a: Step, later: State, d: Cpu)
    requires Inv(s) && Enabled(s, a) && a.Switch? && CpuOk(d) && SameContext(Do(s, a), later, s.cores[a.core].curr)
    ensures FrameHolds(later, s.cores[a.core].curr, s.cores[a.core].cpu, d)
  {
    var u := s.cores[a.core];
    SwitchSaves(s, a, later);
    SwitchRoundTrip(s.mem, u.cpu, s.home[u.curr].slot, later.mem, d);
  }

  /** The frame, seen from any later moment at which the task has not run again. */
  lemma FrameWaits(run: seq<State>, steps: seq<Step>, prog: Program, i: nat, j: nat, t: nat, d: Cpu)
    requires Run(run, steps, prog) && i < |steps| && i < j < |run| && steps[i].Switch? && CpuOk(d)
    requires run[i].cores[steps[i].core].curr == t
    requires forall k :: i < k < j ==> !OnCore(run[k], t)
    ensures FrameHolds(run[j], t, run[i].cores[steps[i].core].cpu, d)
  {
    RunKeepsInv(run, steps, prog, i);
    assert run[i + 1] == Do(run[i], steps[i]);
    StepKeepsLayout(run[i], steps[i]);
    SleepingContextIsKept(run, steps, prog, i + 1, j, t);
    SwitchLeavesFrame(run[i], steps[i], run[j], d);
  }

  /** A switch to t while its frame holds what it had at c resumes it with that. */
  lemma SwitchResumes(s: State, a: Step, t: nat, c: Cpu)
    requires Layout(s) && Enabled(s, a) && a == Switch(a.core, t)
    requires FrameHolds(s, t, c, s.cores[a.core].cpu) && FrameHolds(Do(s, a), t, c, s.cores[a.core].cpu)
    ensures var r := Do(s, a).cores[a.core];
      r.curr == t && CpuOk(r.cpu) && SameCallee(r.cpu, c) && r.cpu.pc == c.x[30]
  {
  }

  /** A task that switches away at step i and is next switched to at step j, on the same core
      or another, gets back exactly its callee-saved registers, SP and DAIF and continues at
      its return address, whatever ran on any core in between. */
  lemma ResumeIsExact(run: seq<State>, steps: seq<Step>, prog: Program, i: nat, j: nat, t: nat)
    requires Run(run, steps, prog) && i < j < |steps|
    requires steps[i].Switch? && run[i].cores[steps[i].core].curr == t && steps[j] == Switch(steps[j].core, t)
    requires forall k :: i < k <= j ==> !OnCore(run[k], t)
    ensures steps[j].core < |run[j + 1].cores| && run[j + 1].cores[steps[j].core].curr == t
    ensures var c, d := run[i].cores[steps[i].core].cpu, run[j + 1].cores[steps[j].core].cpu;
      CpuOk(c) && CpuOk(d) && SameCallee(d, c) && d.pc == c.x[30]
  {
    var d := run[j].cores[steps[j].core].cpu;
    FrameWaits(run, steps, prog, i, j, t, d);
    FrameWaits(run, steps, prog, i, j + 1, t, d);
    SwitchResumes(run[j], steps[j], t, run[i].cores[steps[i].core].cpu);
  }

  /** Loading a frame task_init prepared. */
  lemma FreshFrameLoads(s: State, t: nat, prog: Program, later: State, d: Cpu)
    requires Layout(s) && t < |s.home| && FreshTcb(s, t, prog) && CpuOk(d) && SameContext(s, later, t)
    ensures var b := s.home[t].slot; var p := later.mem[b]; var r := SwitchLoads(later.mem, d, p);
      && p == b + STACK_WORDS - FRAME_WORDS && r.pc == prog.trampoline && r.daif == 0 && r.sp == b + STACK_WORDS
      && later.mem[b + 1] == CANARY && later.mem[b + STACK_WORDS] == CANARY && later.mem[b + ENTRY_SLOT] == prog.entry[t]
  {
    var b := s.home[t].slot;
    var p := b + STACK_WORDS - FRAME_WORDS;
    assert Owned(s.home[t], b) && Owned(s.home[t], p) && Owned(s.home[t], p + 3);
    assert Owned(s.home[t], b + 1) && Owned(s.home[t], b + STACK_WORDS) && Owned(s.home[t], b + ENTRY_SLOT);
    assert s.mem[p] == s.mem[p..b + STACK_WORDS][0] && s.mem[p + 3] == s.mem[p..b + STACK_WORDS][3];
    assert SlotOf(30) == 3;
  }

  /** Task t is about to execute its first instruction on core c: at task_trampoline, with the
      entry it was initialised with still in its TCB for task_trampoline to call, IRQs open, SP at the 16-byte aligned top of its stack, both canaries intact. */
  predicate JustStarted(r: State, c: nat, t: nat, prog: Program) {
    && c < |r.cores| && t < |r.home| && r.cores[c].curr == t
    && var b := r.home[t].slot; var cpu := r.cores[c].cpu;
       && r.home[t] == TcbHome(b) && b + ENTRY_SLOT < |r.mem|
       && t < |prog.entry| && r.mem[b + ENTRY_SLOT] == prog.entry[t]
       && cpu.pc == prog.trampoline && !IrqMasked(cpu.daif) && cpu.sp == b + STACK_WORDS && cpu.sp % 2 == 0
       && r.mem[b + 1] == CANARY && r.mem[b + STACK_WORDS] == CANARY
  }

  /** A switch to a task that is as task_init left it. */
  lemma SwitchToFresh(first: State, s: State, c: nat, t: nat, prog: Program)
    requires Layout(first) && t < |first.home| && FreshTcb(first, t, prog) && SameContext(first, s, t)
    requires Layout(s) && Enabled(s, Switch(c, t)) && SameContext(first, Do(s, Switch(c, t)), t)
    ensures JustStarted(Do(s, Switch(c, t)), c, t, prog)
  {
    FreshFrameLoads(first, t, prog, s, s.cores[c].cpu);
    FreshFrameLoads(first, t, prog, Do(s, Switch(c, t)), s.cores[c].cpu);
  }

  /** A task that has not run yet is as task_init left it, up to and across the first
      switch to it. */
  lemma FreshUntilSwitch(run: seq<State>, steps: seq<Step>, prog: Program, j: nat, c: nat, t: nat)
    requires Run(run, steps, prog) && j < |steps| && steps[j] == Switch(c, t)
    requires forall k :: 0 <= k <= j ==> !OnCore(run[k], t)
    ensures Layout(run[0]) && t < |run[0].home| && FreshTcb(run[0], t, prog)
    ensures Layout(run[j]) && Enabled(run[j], Switch(c, t)) && run[j + 1] == Do(run[j], Switch(c, t))
    ensures SameContext(run[0], run[j], t) && SameContext(run[0], run[j + 1], t)
  {
    RunKeepsInv(run, steps, prog, j);
    SleepingContextIsKept(run, steps, prog, 0, j, t);
    SleepingContextIsKept(run, steps, prog, 0, j + 1, t);
  }

  /** The first switch to a task, on any core, lands in task_trampoline with everything in
      place, however long the task waited and whatever ran meanwhile. */
  lemma FirstActivation(run: seq<State>, steps: seq<Step>, prog: Program, j: nat, c: nat, t: nat)
    requires Run(run, steps, prog) && j < |steps| && steps[j] == Switch(c, t)
    requires forall k :: 0 <= k <= j ==> !OnCore(run[k], t)
    ensures JustStarted(run[j + 1], c, t, prog)
  {
    FreshUntilSwitch(run, steps, prog, j, c, t);
    SwitchToFresh(run[0], run[j], c, t, prog);
  }

  // ---- interrupts ---------------------------------------------------------------------

  /** Task t is handling the interrupt that stopped it at c. */
  ghost predicate Interrupted(s: State, t: nat, c: Cpu)
  {
    && Layout(s) && t < |s.home| && CpuOk(c)
    && s.home[t].base + IRQ_WORDS <= c.sp <= s.home[t].top
    && s.irq[t] == Some(c.sp - IRQ_WORDS)
    && IrqFrameAt(s.mem, c.sp - IRQ_WORDS, c)
  }

  lemma EnterInterrupts(s: State, a: Step)
    requires Inv(s) && Enabled(s, a) && a.IrqEnter?
    ensures Interrupted(Do(s, a), s.cores[a.core].curr, s.cores[a.core].cpu)
  {
    var u := s.cores[a.core];
    StepKeepsLayout(s, a);
    assert SpOk(s, a.core, u.cpu.sp) && TaskInv(s, u.curr) && WellFormed(s.home[u.curr], |s.mem|);
    IrqFrameStored(s.mem, u.cpu, s.mem[u.cpu.sp - 1]);
  }

  /** The interrupted task itself only writes below its interrupt frame. */
  lemma OwnStepKeepsIrqFrame(s: State, a: Step, p: nat, k: nat)
    requires Inv(s) && Enabled(s, a) && s.irq[s.cores[a.core].curr] == Some(p) && !a.IrqExit? && p <= k < p + IRQ_WORDS
    ensures Do(s, a).irq == s.irq && |Do(s, a).mem| == |s.mem| && k < |s.mem| && Do(s, a).mem[k] == s.mem[k]
  {
    var u := s.cores[a.core];
    assert TaskInv(s, u.curr) && SpOk(s, a.core, u.cpu.sp) && WellFormed(s.home[u.curr], |s.mem|);
    assert Owned(s.home[u.curr], k);
  }

  /** Neither the handler's own code, nor a switch it makes, nor any other task or core
      touches the saved registers. */
  lemma StepKeepsInterrupted(s: State, a: Step, t: nat, c: Cpu)
    requires Inv(s) && Enabled(s, a) && Interrupted(s, t, c) && (t == s.cores[a.core].curr ==> !a.IrqExit?)
    ensures Interrupted(Do(s, a), t, c)
  {
    var p := c.sp - IRQ_WORDS;
    StepKeepsLayout(s, a);
    assert WellFormed(s.home[t], |s.mem|);
    forall k | p <= k < p + IRQ_WORDS ensures Do(s, a).mem[k] == s.mem[k] {
      if t != s.cores[a.core].curr {
        OthersKeepWord(s, a, t, k);
      } else {
        OwnStepKeepsIrqFrame(s, a, p, k);
      }
    }
    if t == s.cores[a.core].curr {
      OwnStepKeepsIrqFrame(s, a, p, p);
    }
    IrqFrameKept(s.mem, Do(s, a).mem, p, c);
  }

  lemma RunStepKeepsInterrupted(run: seq<State>, steps: seq<Step>, prog: Program, i: nat, t: nat, c: Cpu)
    requires Run(run, steps, prog) && i < |steps| && Interrupted(run[i], t, c)
    requires steps[i].IrqExit? ==> run[i].cores[steps[i].core].curr != t
    ensures Interrupted(run[i + 1], t, c)
  {
    RunKeepsInv(run, steps, prog, i);
    StepKeepsInterrupted(run[i], steps[i], t, c);
  }

  lemma {:induction false} RunKeepsInterrupted(run: seq<State>, steps: seq<Step>, prog: Program, i: nat, j: nat, t: nat)
    requires Run(run, steps, prog) && i < j < |run| && steps[i].IrqEnter? && run[i].cores[steps[i].core].curr == t
    requires forall k :: i < k < j && steps[k].IrqExit? ==> run[k].cores[steps[k].core].curr != t
    ensures Interrupted(run[j], t, run[i].cores[steps[i].core].cpu)
    decreases j
  {
    if j == i + 1 {
      RunKeepsInv(run, steps, prog, i);
      EnterInterrupts(run[i], steps[i]);
    } else {
      RunKeepsInterrupted(run, steps, prog, i, j - 1, t);
      RunStepKeepsInterrupted(run, steps, prog, j - 1, t, run[i].cores[steps[i].core].cpu);
    }
  }

  /** A task interrupted at step i whose handler returns at step j, on the same core or
      another, continues with every register x0..x30, SP, DAIF and the program counter
      exactly as they were, even if the handler switched to other tasks and came back. */
  lemma PreemptionIsTransparent(run: seq<State>, steps: seq<Step>, prog: Program, i: nat, j: nat, t: nat)
    requires Run(run, steps, prog) && i < j < |steps|
    requires steps[i].IrqEnter? && run[i].cores[steps[i].core].curr == t
    requires steps[j].IrqExit? && run[j].cores[steps[j].core].curr == t
    requires forall k :: i < k < j && steps[k].IrqExit? ==> run[k].cores[steps[k].core].curr != t
    ensures steps[j].core < |run[j + 1].cores|
    ensures run[j + 1].cores[steps[j].core] == Core(run[i].cores[steps[i].core].cpu, t)
  {
    RunKeepsInterrupted(run, steps, prog, i, j, t);
    assert run[j + 1] == Do(run[j], steps[j]);
    IrqRoundTrip(run[j].mem, run[i].cores[steps[i].core].cpu);
  }
}
