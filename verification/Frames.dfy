/** Stack frames in memory: switch_to (kernel/switch.S), the frame task_init prepares
    (kernel/task.c) and the full save around an interrupt (kernel/vectors.S), executed word
    by word, and what a task gets back when it runs again.

    Memory is a sequence of 8-byte words and addresses are word numbers, so SP is 16-byte
    aligned exactly when it is even.  Register contents are only ever copied. */
module Frames {

  const STACK_WORDS: nat := 512
  const TCB_WORDS: nat := 518      // sizeof(tcb_t) == 0x1030
  const FRAME_WORDS: nat := 14
  const IRQ_WORDS: nat := 34
  const CANARY: nat := 0xC0FFEEDEADBEEF
  const IRQ_BIT: nat := 0x80       // DAIF.I

  predicate IrqMasked(daif: nat) {
    daif / IRQ_BIT % 2 == 1
  }

  /** msr daifset, #2 */
  function MaskIrq(daif: nat): (r: nat)
    ensures IrqMasked(r) && r % IRQ_BIT == daif % IRQ_BIT && r / (2 * IRQ_BIT) == daif / (2 * IRQ_BIT)
  {
    if IrqMasked(daif) then daif else daif + IRQ_BIT
  }

  /** msr daifclr, #2 */
  function UnmaskIrq(daif: nat): (r: nat)
    ensures !IrqMasked(r) && r % IRQ_BIT == daif % IRQ_BIT && r / (2 * IRQ_BIT) == daif / (2 * IRQ_BIT)
  {
    if IrqMasked(daif) then daif - IRQ_BIT else daif
  }

  /** One core: x0..x30, SP, DAIF and the next instruction. */
  datatype Cpu = Cpu(x: seq<nat>, sp: nat, daif: nat, pc: nat)

  predicate CpuOk(c: Cpu) {
    |c.x| == 31
  }

  // ---- the frames as values -----------------------------------------------------------

  function Store(m: seq<nat>, p: nat, ws: seq<nat>): (r: seq<nat>)
    requires p + |ws| <= |m|
    ensures |r| == |m|
    ensures forall i :: 0 <= i < |m| ==> r[i] == if p <= i < p + |ws| then ws[i - p] else m[i]
  {
    m[..p] + ws + m[p + |ws|..]
  }

  /** The register whose value switch_to's frame holds at word k: x29 and x30 at words 2
      and 3, then each lower pair two words higher, up to x19 and x20 at words 12 and 13. */
  function RegAt(k: nat): (r: nat)
    requires 2 <= k < FRAME_WORDS
    ensures 19 <= r < 31
  {
    if k % 2 == 0 then 31 - k else 33 - k
  }

  /** The word at which register r is found. */
  function SlotOf(r: nat): (k: nat)
    requires 19 <= r < 31
    ensures 2 <= k < FRAME_WORDS && RegAt(k) == r
  {
    if r % 2 == 1 then 31 - r else 33 - r
  }

  /** What switch_to pushes, lowest address first: DAIF in word 0, a padding word that keeps
      whatever was there, then x19..x30. */
  function SwitchFrame(c: Cpu, pad: nat): (f: seq<nat>)
    requires CpuOk(c)
    ensures |f| == FRAME_WORDS
  {
    seq(FRAME_WORDS, k requires 0 <= k < FRAME_WORDS => if k == 0 then c.daif else if k == 1 then pad else c.x[RegAt(k)])
  }

  /** What irq_el1h saves: x0..x30, ELR, SPSR, and one unused word. */
  function IrqFrame(c: Cpu, pad: nat): (f: seq<nat>)
    requires CpuOk(c)
    ensures |f| == IRQ_WORDS
  {
    c.x + [c.pc, c.daif, pad]
  }

  /** The state switch_to leaves behind for the old task. */
  function SwitchStores(m: seq<nat>, c: Cpu, oldSpPtr: nat): (r: seq<nat>)
    requires CpuOk(c) && FRAME_WORDS <= c.sp <= |m| && oldSpPtr < |m|
    ensures |r| == |m|
  {
    var p := c.sp - FRAME_WORDS;
    Store(m, p, SwitchFrame(c, m[p + 1]))[oldSpPtr := p]
  }

  /** The registers switch_to leaves to the new task, whose frame is at p; x3 carries the
      new DAIF. */
  function SwitchLoads(m: seq<nat>, c: Cpu, p: nat): (r: Cpu)
    requires CpuOk(c) && p + FRAME_WORDS <= |m|
    ensures CpuOk(r)
  {
    Cpu(seq(31, i requires 0 <= i < 31 => if i == 3 then m[p] else if i < 19 then c.x[i] else m[p + SlotOf(i)]),
        p + FRAME_WORDS, m[p], m[p + SlotOf(30)])
  }

  /** The registers a called function must give back (AAPCS64, section 6.1.1), with SP and
      DAIF. */
  predicate SameCallee(c: Cpu, d: Cpu)
    requires CpuOk(c) && CpuOk(d)
  {
    c.x[19..] == d.x[19..] && c.sp == d.sp && c.daif == d.daif
  }

  /** Loading the frame that was stored gives the old task back everything it may rely on,
      whatever the registers hold meanwhile. */
  lemma SwitchRoundTrip(m: seq<nat>, c: Cpu, oldSpPtr: nat, later: seq<nat>, d: Cpu)
    requires CpuOk(c) && CpuOk(d) && FRAME_WORDS <= c.sp <= |m| == |later| && oldSpPtr < |m|
    requires oldSpPtr < c.sp - FRAME_WORDS || c.sp <= oldSpPtr
    requires forall i :: c.sp - FRAME_WORDS <= i < c.sp ==> later[i] == SwitchStores(m, c, oldSpPtr)[i]
    ensures var r := SwitchLoads(later, d, c.sp - FRAME_WORDS);
            SameCallee(r, c) && r.pc == c.x[30]
  {
    var p := c.sp - FRAME_WORDS;
    var f := SwitchFrame(c, m[p + 1]);
    forall k | 0 <= k < FRAME_WORDS ensures later[p + k] == f[k] {
      assert SwitchStores(m, c, oldSpPtr)[p + k] == f[k];
    }
    var r := SwitchLoads(later, d, p);
    forall i | 19 <= i < 31 ensures r.x[i] == c.x[i] {
      assert later[p + SlotOf(i)] == f[SlotOf(i)];
    }
    assert r.x[19..] == c.x[19..];
  }

  /** The registers irq_el1h restores from the frame at p, and eret. */
  function IrqLoads(m: seq<nat>, p: nat): (r: Cpu)
    requires p + IRQ_WORDS <= |m|
    ensures CpuOk(r)
  {
    Cpu(m[p..p + 31], p + IRQ_WORDS, m[p + 32], m[p + 31])
  }

  /** Exception entry as irq_handler sees it: x0 and x1 hold ELR and SPSR, IRQs are masked. */
  function Vectored(c: Cpu, vector: nat): Cpu
    requires CpuOk(c) && IRQ_WORDS <= c.sp
  {
    Cpu(c.x[0 := c.pc][1 := c.daif], c.sp - IRQ_WORDS, MaskIrq(c.daif), vector)
  }

  /** The frame irq_el1h saved for c is at p. */
  predicate IrqFrameAt(m: seq<nat>, p: nat, c: Cpu)
    requires CpuOk(c)
  {
    && p + IRQ_WORDS <= |m|
    && (forall k :: 0 <= k < 31 ==> m[p + k] == c.x[k])
    && m[p + 31] == c.pc && m[p + 32] == c.daif
  }

  /** Word by word, what the stores of irq_el1h amount to. */
  lemma IrqStoresAre(m: seq<nat>, c: Cpu, r: seq<nat>)
    requires CpuOk(c) && IRQ_WORDS <= c.sp <= |m| == |r|
    requires var p := c.sp - IRQ_WORDS;
      && IrqFrameAt(r, p, c)
      && (forall k :: 0 <= k < |m| && !(p <= k < p + 33) ==> r[k] == m[k])
    ensures r == Store(m, c.sp - IRQ_WORDS, IrqFrame(c, m[c.sp - 1]))
  {
    var p := c.sp - IRQ_WORDS;
    var f := IrqFrame(c, m[c.sp - 1]);
    forall k | 0 <= k < |m| ensures r[k] == Store(m, p, f)[k] {
      if p <= k < p + 31 {
        assert r[p + (k - p)] == c.x[k - p] == f[k - p];
      }
    }
  }

  lemma IrqFrameStored(m: seq<nat>, c: Cpu, pad: nat)
    requires CpuOk(c) && IRQ_WORDS <= c.sp <= |m|
    ensures IrqFrameAt(Store(m, c.sp - IRQ_WORDS, IrqFrame(c, pad)), c.sp - IRQ_WORDS, c)
  {
    var p := c.sp - IRQ_WORDS;
    var f := IrqFrame(c, pad);
    assert forall k :: 0 <= k < IRQ_WORDS ==> Store(m, p, f)[p + k] == f[k];
  }

  lemma IrqFrameKept(m: seq<nat>, r: seq<nat>, p: nat, c: Cpu)
    requires CpuOk(c) && IrqFrameAt(m, p, c) && |r| == |m|
    requires forall k :: p <= k < p + IRQ_WORDS ==> r[k] == m[k]
    ensures IrqFrameAt(r, p, c)
  {
  }

  /** The frame irq_el1h stored gives back every register, SP, DAIF and the interrupted
      instruction. */
  lemma IrqRoundTrip(later: seq<nat>, c: Cpu)
    requires CpuOk(c) && IRQ_WORDS <= c.sp && IrqFrameAt(later, c.sp - IRQ_WORDS, c)
    ensures IrqLoads(later, c.sp - IRQ_WORDS) == c
  {
    var p := c.sp - IRQ_WORDS;
    assert later[p..p + 31] == c.x;
  }

  /** The frame of a task that has never run. */
  function FreshFrame(trampoline: nat): (f: seq<nat>)
    ensures |f| == FRAME_WORDS
  {
    seq(FRAME_WORDS, k => if k == 3 then trampoline else 0)
  }

  const ENTRY_SLOT: nat := 514     // offset 0x1010

  /** A TCB as task_init leaves it: entry, a canary at each end of the stack, the frame
      below the upper canary, and sp pointing to it. */
  function InitTcb(m: seq<nat>, tcb: nat, entry: nat, trampoline: nat): (r: seq<nat>)
    requires tcb + TCB_WORDS <= |m|
    ensures |r| == |m|
  {
    var top := tcb + STACK_WORDS;
    Store(m[tcb + ENTRY_SLOT := entry][tcb + 1 := CANARY][top := CANARY], top - FRAME_WORDS, FreshFrame(trampoline))
    [tcb := top - FRAME_WORDS]
  }

  /** Word by word, what task_init leaves: the saved SP, the task's entry, the two canaries, a
      frame that returns to task_trampoline with DAIF 0, and nothing else. */
  lemma InitTcbWords(m: seq<nat>, tcb: nat, entry: nat, trampoline: nat, k: nat)
    requires tcb + TCB_WORDS <= |m| && k < |m|
    ensures var r := InitTcb(m, tcb, entry, trampoline); var top := tcb + STACK_WORDS;
      && r[tcb] == top - FRAME_WORDS && r[tcb + 514] == entry && r[tcb + 1] == 0xC0FFEEDEADBEEF && r[top] == 0xC0FFEEDEADBEEF
      && r[top - FRAME_WORDS] == 0 && r[top - FRAME_WORDS + SlotOf(30)] == trampoline
      && (k != tcb && k != tcb + 514 && k != tcb + 1 && !(top - FRAME_WORDS <= k <= top) ==> r[k] == m[k])
  {
  }

  /** Word by word, what the stores of switch_to amount to. */
  lemma StoresAre(m: seq<nat>, c: Cpu, oldSpPtr: nat, r: seq<nat>)
    requires CpuOk(c) && FRAME_WORDS <= c.sp <= |m| == |r| && oldSpPtr < |m|
    requires var p := c.sp - FRAME_WORDS;
      && r[oldSpPtr] == p
      && (p != oldSpPtr ==> r[p] == c.daif) && (p + 1 != oldSpPtr ==> r[p + 1] == m[p + 1])
      && (forall i :: 19 <= i < 31 && p + SlotOf(i) != oldSpPtr ==> r[p + SlotOf(i)] == c.x[i])
      && (forall k :: 0 <= k < |m| && !(p <= k < c.sp) && k != oldSpPtr ==> r[k] == m[k])
    ensures r == SwitchStores(m, c, oldSpPtr)
  {
    var p := c.sp - FRAME_WORDS;
    var s := SwitchStores(m, c, oldSpPtr);
    forall k | 0 <= k < |m| ensures r[k] == s[k] {
      if p + 2 <= k < c.sp && k != oldSpPtr {
        assert SlotOf(RegAt(k - p)) == k - p;
      }
    }
  }

  /** Register by register, what the loads of switch_to amount to. */
  lemma LoadsAre(m: seq<nat>, c: Cpu, p: nat, x: seq<nat>)
    requires CpuOk(c) && p + FRAME_WORDS <= |m| && |x| == 31
    requires forall i :: 0 <= i < 31 ==> x[i] == if i == 3 then m[p] else if i < 19 then c.x[i] else m[p + SlotOf(i)]
    ensures SwitchLoads(m, c, p) == Cpu(x, p + FRAME_WORDS, x[3], x[30])
  {
    assert SwitchLoads(m, c, p).x == x;
  }

  // ---- the code, on a machine ---------------------------------------------------------

  class Machine {
    const mem: array<nat>
    const x: array<nat>
    var sp: nat
    var daif: nat
    var pc: nat

    constructor (words: nat)
      ensures Valid() && mem.Length == words && fresh(mem) && fresh(x)
    {
      mem := new nat[words](_ => 0);
      x := new nat[31](_ => 0);
      sp, daif, pc := 0, 0, 0;
    }

    ghost predicate Valid() {
      x.Length == 31 && mem != x
    }

    ghost function Core(): (c: Cpu)
      requires Valid()
      reads this, x
      ensures CpuOk(c)
    {
      Cpu(x[..], sp, daif, pc)
    }

    /** stp xi, xj, [sp, #-16]! */
    method Stp(i: nat, j: nat)
      requires Valid() && i < 31 && j < 31 && 2 <= sp <= mem.Length
      modifies this`sp, mem
      ensures sp == old(sp) - 2 && mem[sp] == x[i] && mem[sp + 1] == x[j]
      ensures forall k :: 0 <= k < mem.Length && k != sp && k != sp + 1 ==> mem[k] == old(mem[k])
    {
      sp := sp - 2;
      mem[sp] := x[i];
      mem[sp + 1] := x[j];
    }

    /** ldp xi, xj, [sp], #16 */
    method Ldp(i: nat, j: nat)
      requires Valid() && i < 31 && j < 31 && i != j && sp + 2 <= mem.Length
      modifies this`sp, x
      ensures sp == old(sp) + 2
      ensures x[..] == old(x[..])[i := mem[old(sp)]][j := mem[old(sp) + 1]]
    {
      x[i] := mem[sp];
      x[j] := mem[sp + 1];
      sp := sp + 2;
    }

    /** The six register pushes and the DAIF push of switch_to; x3 holds the old DAIF. */
    method PushFrame()
      requires Valid() && FRAME_WORDS <= sp <= mem.Length
      modifies this`sp, mem
      ensures sp == old(sp) - FRAME_WORDS && mem[sp] == x[3] && mem[sp + 1] == old(mem[sp - 13])
      ensures forall r :: 19 <= r < 31 ==> mem[sp + SlotOf(r)] == x[r]
      ensures forall k :: 0 <= k < mem.Length && !(sp <= k < sp + FRAME_WORDS) ==> mem[k] == old(mem[k])
    {
      Stp(19, 20);
      Stp(21, 22);
      Stp(23, 24);
      Stp(25, 26);
      Stp(27, 28);
      Stp(29, 30);
      sp := sp - 2;
      mem[sp] := x[3];
    }

    /** The DAIF pop and the six register pops of switch_to. */
    method PopFrame()
      requires Valid() && sp + FRAME_WORDS <= mem.Length
      modifies this`sp, x
      ensures sp == old(sp) + FRAME_WORDS
      ensures forall i :: 0 <= i < 31 ==>
        x[i] == if i == 3 then mem[old(sp)] else if i < 19 then old(x[i]) else mem[old(sp) + SlotOf(i)]
    {
      x[3] := mem[sp];
      sp := sp + 2;
      Ldp(29, 30);
      Ldp(27, 28);
      Ldp(25, 26);
      Ldp(23, 24);
      Ldp(21, 22);
      Ldp(19, 20);
    }

    /** switch_to up to *old_sp_ptr = sp. */
    method SaveOld()
      requires Valid() && FRAME_WORDS <= sp <= mem.Length && x[0] < mem.Length
      modifies this`sp, this`daif, mem, x
      ensures mem[..] == SwitchStores(old(mem[..]), old(Core()), old(x[0]))
      ensures x[20] == old(x[1]) && IrqMasked(daif)
      ensures forall i :: 0 <= i < 19 && i != 3 ==> x[i] == old(x[i])
    {
      x[3] := daif;
      daif := MaskIrq(daif);
      PushFrame();
      x[19] := x[0];
      x[20] := x[1];
      x[21] := sp;
      mem[x[19]] := x[21];
      StoresAre(old(mem[..]), old(Core()), old(x[0]), mem[..]);
    }

    /** switch_to(x0 = old_sp_ptr, x1 = new_sp), default build: IRQs stay masked from entry
        until the new task's own DAIF is loaded. */
    method SwitchTo()
      requires Valid() && FRAME_WORDS <= sp <= mem.Length
      requires x[0] < mem.Length && x[1] + FRAME_WORDS <= mem.Length
      modifies this, mem, x
      ensures mem[..] == SwitchStores(old(mem[..]), old(Core()), old(x[0]))
      ensures Core() == SwitchLoads(mem[..], old(Core()), old(x[1]))
    {
      SaveOld();
      sp := x[20];
      PopFrame();
      daif := x[3];
      pc := x[30];
      LoadsAre(mem[..], old(Core()), old(x[1]), x[..]);
    }

    /** task_init on the TCB at word address tcb. */
    method TaskInit(tcb: nat, entry: nat, trampoline: nat)
      requires tcb + TCB_WORDS <= mem.Length
      modifies mem
      ensures mem[..] == InitTcb(old(mem[..]), tcb, entry, trampoline)
      ensures mem[tcb + ENTRY_SLOT] == entry && mem[tcb] == tcb + STACK_WORDS - FRAME_WORDS
    {
      mem[tcb + ENTRY_SLOT] := entry;
      mem[tcb + 1] := CANARY;
      mem[tcb + 1 + STACK_WORDS - 1] := CANARY;
      var top := tcb + 1 + STACK_WORDS - 1;
      var frame := top - 14;
      ghost var start := mem[..];
      for i := 0 to 14
        invariant forall k :: 0 <= k < mem.Length ==> mem[k] == if frame <= k < frame + i then 0 else start[k]
      {
        mem[frame + i] := 0;
      }
      mem[frame] := 0;
      mem[frame + 3] := trampoline;
      mem[tcb] := frame;
      assert mem[..] == InitTcb(old(mem[..]), tcb, entry, trampoline);
    }

    /** task_trampoline up to the call of current->entry(), with current at tcb. */
    method Trampoline(tcb: nat)
      requires tcb + TCB_WORDS <= mem.Length
      modifies this`daif, this`pc
      ensures pc == mem[tcb + ENTRY_SLOT] && !IrqMasked(daif)
    {
      daif := UnmaskIrq(daif);
      pc := mem[tcb + ENTRY_SLOT];
    }

    /** stp xi, xj, [sp, #8 * off] */
    method StpAt(i: nat, j: nat, off: nat)
      requires Valid() && i < 31 && j < 31 && sp + off + 2 <= mem.Length
      modifies mem
      ensures mem[sp + off] == x[i] && mem[sp + off + 1] == x[j]
      ensures forall k :: 0 <= k < mem.Length && k != sp + off && k != sp + off + 1 ==> mem[k] == old(mem[k])
    {
      mem[sp + off] := x[i];
      mem[sp + off + 1] := x[j];
    }

    /** ldp xi, xj, [sp, #8 * off] */
    method LdpAt(i: nat, j: nat, off: nat)
      requires Valid() && i < 31 && j < 31 && i != j && sp + off + 2 <= mem.Length
      modifies x
      ensures x[i] == mem[sp + off] && x[j] == mem[sp + off + 1]
      ensures forall k :: 0 <= k < 31 && k != i && k != j ==> x[k] == old(x[k])
    {
      x[i] := mem[sp + off];
      x[j] := mem[sp + off + 1];
    }

    /** Exception entry and the stores of irq_el1h up to `bl irq_handler`. */
    method IrqEntry(vector: nat)
      requires Valid() && IRQ_WORDS <= sp <= mem.Length
      modifies this, mem, x
      ensures mem[..] == Store(old(mem[..]), old(sp) - IRQ_WORDS, IrqFrame(old(Core()), old(mem[sp - 1])))
      ensures sp == old(sp) - IRQ_WORDS && IrqMasked(daif) && Core() == Vectored(old(Core()), vector)
    {
      var elr, spsr := pc, daif;
      daif, pc := MaskIrq(daif), vector;
      sp := sp - 34;
      StoreIrqFrame(elr, spsr);
      IrqStoresAre(old(mem[..]), old(Core()), mem[..]);
    }

    method StoreIrqFrame(elr: nat, spsr: nat)
      requires Valid() && sp + IRQ_WORDS <= mem.Length
      modifies mem, x
      ensures forall k :: 0 <= k < 31 ==> mem[sp + k] == old(x[k])
      ensures mem[sp + 31] == elr && mem[sp + 32] == spsr
      ensures forall k :: 0 <= k < mem.Length && !(sp <= k < sp + 33) ==> mem[k] == old(mem[k])
      ensures x[..] == old(x[..])[0 := elr][1 := spsr]
    {
      SaveLow();
      SaveHigh();
      x[0], x[1] := elr, spsr;
      mem[sp + 30], mem[sp + 31] := x[30], x[0];
      mem[sp + 32] := x[1];
    }

    method SaveLow()
      requires Valid() && sp + IRQ_WORDS <= mem.Length
      modifies mem
      ensures forall k :: 0 <= k < 16 ==> mem[sp + k] == x[k]
      ensures forall k :: 0 <= k < mem.Length && !(sp <= k < sp + 16) ==> mem[k] == old(mem[k])
    {
      StpAt(0, 1, 0);
      StpAt(2, 3, 2);
      StpAt(4, 5, 4);
      StpAt(6, 7, 6);
      StpAt(8, 9, 8);
      StpAt(10, 11, 10);
      StpAt(12, 13, 12);
      StpAt(14, 15, 14);
    }

    method SaveHigh()
      requires Valid() && sp + IRQ_WORDS <= mem.Length
      modifies mem
      ensures forall k :: 16 <= k < 30 ==> mem[sp + k] == x[k]
      ensures forall k :: 0 <= k < mem.Length && !(sp + 16 <= k < sp + 30) ==> mem[k] == old(mem[k])
    {
      StpAt(16, 17, 16);
      StpAt(18, 19, 18);
      StpAt(20, 21, 20);
      StpAt(22, 23, 22);
      StpAt(24, 25, 24);
      StpAt(26, 27, 26);
      StpAt(28, 29, 28);
    }

    /** The loads of irq_el1h after `bl irq_handler`, and eret. */
    method IrqReturn()
      requires Valid() && sp + IRQ_WORDS <= mem.Length
      modifies this, x
      ensures Core() == IrqLoads(mem[..], old(sp))
    {
      x[30], x[0] := mem[sp + 30], mem[sp + 31];
      x[1] := mem[sp + 32];
      var elr, spsr := x[0], x[1];
      LoadLow();
      LoadHigh();
      sp := sp + 34;
      pc, daif := elr, spsr;
      assert x[..] == mem[old(sp)..old(sp) + 31];
    }

    method LoadLow()
      requires Valid() && sp + IRQ_WORDS <= mem.Length
      modifies x
      ensures forall k :: 0 <= k < 31 ==> x[k] == if k < 16 then mem[sp + k] else old(x[k])
    {
      LdpAt(0, 1, 0);
      LdpAt(2, 3, 2);
      LdpAt(4, 5, 4);
      LdpAt(6, 7, 6);
      LdpAt(8, 9, 8);
      LdpAt(10, 11, 10);
      LdpAt(12, 13, 12);
      LdpAt(14, 15, 14);
    }

    method LoadHigh()
      requires Valid() && sp + IRQ_WORDS <= mem.Length
      modifies x
      ensures forall k :: 0 <= k < 31 ==> x[k] == if 16 <= k < 30 then mem[sp + k] else old(x[k])
    {
      LdpAt(16, 17, 16);
      LdpAt(18, 19, 18);
      LdpAt(20, 21, 20);
      LdpAt(22, 23, 22);
      LdpAt(24, 25, 24);
      LdpAt(26, 27, 26);
      LdpAt(28, 29, 28);
    }
  }
}
