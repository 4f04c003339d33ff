/** The data the DMA path moves: the device carries out the descriptors workers submit, and a
    worker that finishes with status OK has its destination equal to its source. */
module DmaData {
  import opened Base
  import opened Rings
  import DmaRun

  const DMA_ACCEL_OK: nat := 0

  /** src_buf and dst_buf: worker w reads len words from src[w] and writes them at dst[w]. */
  datatype Buffers = Buffers(src: seq<nat>, dst: seq<nat>, len: nat)

  /** The DMA machine with memory, the descriptors the device has been given, by identifier,
      and who submitted them. */
  datatype Sys = Sys(d: DmaRun.State, mem: seq<nat>, cmds: map<nat, Cmd>, owner: map<nat, nat>)

  datatype Act =
    | DmaStep(step: DmaRun.Step)
    | Elsewhere(addr: nat, value: nat)   // any code writes a word outside the buffers

  predicate Apart(a: nat, b: nat, len: nat) {
    a + len <= b || b + len <= a
  }

  predicate Fits(b: Buffers, y: Sys) {
    |b.src| == |b.dst| == |y.d.workers|
  }

  /** The buffers are in memory; no destination overlaps another or any source. */
  predicate Layout(b: Buffers, y: Sys) {
    && Fits(b, y)
    && (forall w :: 0 <= w < |b.src| ==> b.src[w] + b.len <= |y.mem| && b.dst[w] + b.len <= |y.mem|)
    && (forall v, w :: 0 <= v < |b.src| && 0 <= w < |b.src| ==> Apart(b.src[v], b.dst[w], b.len))
    && (forall v, w :: 0 <= v < |b.src| && 0 <= w < |b.src| && v != w ==> Apart(b.dst[v], b.dst[w], b.len))
  }

  predicate InBuffer(b: Buffers, addr: nat) {
    exists w :: 0 <= w < |b.src| && w < |b.dst| && (b.src[w] <= addr < b.src[w] + b.len || b.dst[w] <= addr < b.dst[w] + b.len)
  }

  predicate CanAct(b: Buffers, y: Sys, act: Act)
    requires DmaRun.Shape(y.d)
  {
    match act
    case DmaStep(a) => DmaRun.Enabled(y.d, a)
    case Elsewhere(addr, _) => addr < |y.mem| && !InBuffer(b, addr)
  }

  /** What the device does to memory for a descriptor: OPCODE_COPY moves len words from
      src_addr to dst_addr. */
  function Carried(mem: seq<nat>, c: Cmd): (r: seq<nat>)
    ensures |r| == |mem|
  {
    if c.opcode == 0 && c.src + c.len <= |mem| && c.dst + c.len <= |mem|
    then mem[..c.dst] + mem[c.src..c.src + c.len] + mem[c.dst + c.len..]
    else mem
  }

  function DoAct(b: Buffers, y: Sys, act: Act): Sys
    requires DmaRun.Shape(y.d) && CanAct(b, y, act) && Fits(b, y)
  {
    match act
    case Elsewhere(addr, v) => y.(mem := y.mem[addr := v])
    case DmaStep(a) =>
      var d := DmaRun.Do(y.d, a);
      if a.Doorbell? then
        var id := CmdId(y.d.submitted);
        y.(d := d, cmds := y.cmds[id := CopyCmd(b.src[a.worker], b.dst[a.worker], b.len, id)], owner := y.owner[id := a.worker])
      else if a.Complete? && a.status == DMA_ACCEL_OK && a.id in y.cmds then
        y.(d := d, mem := Carried(y.mem, y.cmds[a.id]))
      else
        y.(d := d)
  }

  ghost predicate RunOf(b: Buffers, run: seq<Sys>, acts: seq<Act>) {
    && |run| == |acts| + 1
    && DmaRun.Init(run[0].d) && Layout(b, run[0]) && run[0].cmds == map[] && run[0].owner == map[]
    && forall i :: 0 <= i < |acts| ==>
         DmaRun.Shape(run[i].d) && Fits(b, run[i]) && CanAct(b, run[i], acts[i]) && run[i + 1] == DoAct(b, run[i], acts[i])
  }

  // ---- invariant ----------------------------------------------------------------------

  /** Command id was submitted by its owner, for the owner's buffers, and if the device has
      reported OK the owner's destination holds what the owner's source held at the start. */
  ghost predicate CmdInv(b: Buffers, first: seq<nat>, y: Sys, id: nat)
    requires |b.src| == |b.dst| == |y.d.workers|
  {
    && id in y.owner && y.owner[id] < |b.src| && id in y.cmds
    && y.cmds[id] == Cmd(0, b.len, b.src[y.owner[id]], b.dst[y.owner[id]], id, 0, 0, 0)
    && (id in y.d.outcome && y.d.outcome[id] == DMA_ACCEL_OK ==> Same(y.mem, b.dst[y.owner[id]], first, b.src[y.owner[id]], b.len))
  }

  /** len words from a in m are the len words from c in n. */
  predicate Same(m: seq<nat>, a: nat, n: seq<nat>, c: nat, len: nat) {
    a + len <= |m| && c + len <= |n| && m[a..a + len] == n[c..c + len]
  }

  ghost predicate Owners(y: Sys) {
    && (forall w :: 0 <= w < |y.d.workers| && !y.d.workers[w].Fresh? ==> y.d.workers[w].id in y.owner && y.owner[y.d.workers[w].id] == w)
    && (y.d.lock.Submitting? ==> y.d.lock.id in y.owner && y.owner[y.d.lock.id] == y.d.lock.worker)
    && (forall id :: id in y.d.outcome ==> 1 <= id <= y.d.submitted)
  }

  ghost predicate Inv(b: Buffers, first: seq<nat>, y: Sys) {
    && DmaRun.Inv(y.d) && Layout(b, y) && |first| == |y.mem| && Owners(y)
    && (forall id :: 1 <= id <= y.d.submitted ==> CmdInv(b, first, y, id))
    && (forall w :: 0 <= w < |b.src| ==> Same(y.mem, b.src[w], first, b.src[w], b.len))
  }

  lemma SliceKept(m: seq<nat>, addr: nat, v: nat, a: nat, len: nat)
    requires addr < |m| && a + len <= |m| && !(a <= addr < a + len)
    ensures m[addr := v][a..a + len] == m[a..a + len]
  {
  }

  /** What memory does to the data part of the invariant: sources stay, and so do the
      destinations of completed commands. */
  lemma DataFrame(b: Buffers, first: seq<nat>, y: Sys, z: Sys)
    requires Inv(b, first, y) && z == y.(mem := z.mem) && |z.mem| == |y.mem|
    requires forall w :: 0 <= w < |b.src| ==> Same(z.mem, b.src[w], y.mem, b.src[w], b.len) && Same(z.mem, b.dst[w], y.mem, b.dst[w], b.len)
    ensures Inv(b, first, z)
  {
    forall id | 1 <= id <= y.d.submitted ensures CmdInv(b, first, z, id) { assert CmdInv(b, first, y, id); }
  }

  lemma ElsewhereKeeps(b: Buffers, first: seq<nat>, y: Sys, act: Act)
    requires Inv(b, first, y) && CanAct(b, y, act) && act.Elsewhere?
    ensures Inv(b, first, DoAct(b, y, act))
  {
    var z := DoAct(b, y, act);
    forall w | 0 <= w < |b.src| ensures Same(z.mem, b.src[w], y.mem, b.src[w], b.len) && Same(z.mem, b.dst[w], y.mem, b.dst[w], b.len) {
      SliceKept(y.mem, act.addr, act.value, b.src[w], b.len);
      SliceKept(y.mem, act.addr, act.value, b.dst[w], b.len);
    }
    DataFrame(b, first, y, z);
  }

  /** One copy carried out: its destination holds its source, and a range apart from the
      destination is untouched. */
  lemma CarriedSlices(m: seq<nat>, c: Cmd, a: nat)
    requires c.opcode == 0 && c.src + c.len <= |m| && c.dst + c.len <= |m| && a + c.len <= |m|
    ensures Same(Carried(m, c), c.dst, m, c.src, c.len)
    ensures Apart(a, c.dst, c.len) ==> Same(Carried(m, c), a, m, a, c.len)
  {
    var r := Carried(m, c);
    assert r[c.dst..c.dst + c.len] == m[c.src..c.src + c.len];
    if a + c.len <= c.dst {
      assert r[a..a + c.len] == m[a..a + c.len];
    } else if c.dst + c.len <= a {
      assert forall k :: a <= k < a + c.len ==> r[k] == m[k];
      assert r[a..a + c.len] == m[a..a + c.len];
    }
  }

  /** The effect of an OK completion on everybody's buffers. */
  lemma CompleteCarries(b: Buffers, first: seq<nat>, y: Sys, id: nat, v: nat)
    requires Inv(b, first, y) && 1 <= id <= y.d.submitted && v < |b.src|
    ensures id in y.cmds && id in y.owner && y.owner[id] < |b.src| == |b.dst|
    ensures var m := Carried(y.mem, y.cmds[id]); var w := y.owner[id];
      && Same(m, b.dst[w], first, b.src[w], b.len) && Same(m, b.src[v], y.mem, b.src[v], b.len)
      && (v != w ==> Same(m, b.dst[v], y.mem, b.dst[v], b.len))
  {
    assert CmdInv(b, first, y, id);
    var w := y.owner[id];
    assert Apart(b.src[v], b.dst[w], b.len) && (v != w ==> Apart(b.dst[v], b.dst[w], b.len));
    CarriedSlices(y.mem, y.cmds[id], b.src[v]);
    CarriedSlices(y.mem, y.cmds[id], b.dst[v]);
  }

  lemma CompleteKeepsCmd(b: Buffers, first: seq<nat>, y: Sys, a: DmaRun.Step, id: nat)
    requires Inv(b, first, y) && CanAct(b, y, DmaStep(a)) && a.Complete? && 1 <= id <= y.d.submitted && 1 <= a.id <= y.d.submitted
    ensures |DoAct(b, y, DmaStep(a)).d.workers| == |b.src| == |b.dst| && CmdInv(b, first, DoAct(b, y, DmaStep(a)), id)
  {
    assert CmdInv(b, first, y, id) && CmdInv(b, first, y, a.id);
    CompleteCarries(b, first, y, a.id, y.owner[id]);
  }

  lemma CompleteKeepsSources(b: Buffers, first: seq<nat>, y: Sys, a: DmaRun.Step, w: nat)
    requires Inv(b, first, y) && CanAct(b, y, DmaStep(a)) && a.Complete? && w < |b.src| && 1 <= a.id <= y.d.submitted
    ensures Same(DoAct(b, y, DmaStep(a)).mem, b.src[w], first, b.src[w], b.len)
  {
    assert CmdInv(b, first, y, a.id);
    CompleteCarries(b, first, y, a.id, w);
  }

  lemma CompleteKeeps(b: Buffers, first: seq<nat>, y: Sys, a: DmaRun.Step)
    requires Inv(b, first, y) && CanAct(b, y, DmaStep(a)) && a.Complete?
    ensures Inv(b, first, DoAct(b, y, DmaStep(a)))
  {
    var z := DoAct(b, y, DmaStep(a));
    DmaRun.StepKeepsInv(y.d, a);
    DmaRun.AtDeviceOnly(y.d, a.id);
    forall id | 1 <= id <= z.d.submitted ensures CmdInv(b, first, z, id) { CompleteKeepsCmd(b, first, y, a, id); }
    forall w | 0 <= w < |b.src| ensures Same(z.mem, b.src[w], first, b.src[w], b.len) { CompleteKeepsSources(b, first, y, a, w); }
  }

  /** The new command is its owner's; the others are as they were. */
  lemma DoorbellKeepsCmds(b: Buffers, first: seq<nat>, y: Sys, a: DmaRun.Step, id: nat)
    requires Inv(b, first, y) && CanAct(b, y, DmaStep(a)) && a.Doorbell? && 1 <= id <= y.d.submitted + 1
    requires CmdId(y.d.submitted) == y.d.submitted + 1
    ensures |DoAct(b, y, DmaStep(a)).d.workers| == |b.src| == |b.dst| && CmdInv(b, first, DoAct(b, y, DmaStep(a)), id)
  {
    if id <= y.d.submitted {
      assert CmdInv(b, first, y, id);
    }
  }

  lemma DoorbellKeepsOwners(b: Buffers, first: seq<nat>, y: Sys, a: DmaRun.Step)
    requires Inv(b, first, y) && CanAct(b, y, DmaStep(a)) && a.Doorbell? && CmdId(y.d.submitted) == y.d.submitted + 1
    ensures Owners(DoAct(b, y, DmaStep(a)))
  {
    forall w | 0 <= w < |y.d.workers| && !y.d.workers[w].Fresh? ensures y.d.workers[w].id <= y.d.submitted {
      assert DmaRun.WorkerInv(y.d, w);
    }
  }

  lemma DoorbellKeeps(b: Buffers, first: seq<nat>, y: Sys, a: DmaRun.Step)
    requires Inv(b, first, y) && CanAct(b, y, DmaStep(a)) && a.Doorbell?
    ensures Inv(b, first, DoAct(b, y, DmaStep(a)))
  {
    var z := DoAct(b, y, DmaStep(a));
    DmaRun.StepKeepsInv(y.d, a);
    DmaRun.FreshLeavesSlot(y.d, a.worker);
    DmaRun.CmdIdIs(y.d.submitted);
    DoorbellKeepsOwners(b, first, y, a);
    forall id | 1 <= id <= z.d.submitted ensures CmdInv(b, first, z, id) { DoorbellKeepsCmds(b, first, y, a, id); }
  }

  lemma OtherKeeps(b: Buffers, first: seq<nat>, y: Sys, a: DmaRun.Step)
    requires Inv(b, first, y) && CanAct(b, y, DmaStep(a)) && !a.Complete? && !a.Doorbell?
    ensures Inv(b, first, DoAct(b, y, DmaStep(a)))
  {
    var z := DoAct(b, y, DmaStep(a));
    DmaRun.StepKeepsInv(y.d, a);
    forall id | 1 <= id <= z.d.submitted ensures CmdInv(b, first, z, id) { assert CmdInv(b, first, y, id); }
  }

  lemma {:induction false} RunKeepsInv(b: Buffers, run: seq<Sys>, acts: seq<Act>, i: nat)
    requires RunOf(b, run, acts) && i < |run|
    ensures Inv(b, run[0].mem, run[i])
  {
    if i == 0 {
      DmaRun.InitInv(run[0].d);
    } else {
      RunKeepsInv(b, run, acts, i - 1);
      var act := acts[i - 1];
      assert run[i - 1 + 1] == DoAct(b, run[i - 1], act);
      if act.Elsewhere? {
        ElsewhereKeeps(b, run[0].mem, run[i - 1], act);
      } else if act.step.Complete? {
        CompleteKeeps(b, run[0].mem, run[i - 1], act.step);
      } else if act.step.Doorbell? {
        DoorbellKeeps(b, run[0].mem, run[i - 1], act.step);
      } else {
        OtherKeeps(b, run[0].mem, run[i - 1], act.step);
      }
    }
  }

  /** Code outside the DMA path writes what it likes where it may. */
  lemma ElsewhereWrites(b: Buffers, y: Sys, act: Act)
    requires DmaRun.Shape(y.d) && Fits(b, y) && CanAct(b, y, act) && act.Elsewhere?
    ensures var z := DoAct(b, y, act);
      z.d == y.d && |z.mem| == |y.mem| && forall k :: 0 <= k < |y.mem| ==> z.mem[k] == if k == act.addr then act.value else y.mem[k]
  {
  }

  // ---- what every run promises --------------------------------------------------------

  /** A worker that has looked up status OK finds in its destination buffer, word for word,
      what its source buffer held when it was filled, and the source is still intact, whatever
      was completed in whatever order and whatever else was written. */
  lemma DataArrives(b: Buffers, run: seq<Sys>, acts: seq<Act>, i: nat, w: nat)
    requires RunOf(b, run, acts) && i < |run| && w < |run[i].d.workers|
    requires run[i].d.workers[w].Finished? && run[i].d.workers[w].got.status == DMA_ACCEL_OK
    ensures w < |b.src| == |b.dst|
    ensures Same(run[i].mem, b.dst[w], run[0].mem, b.src[w], b.len)
    ensures Same(run[i].mem, b.src[w], run[0].mem, b.src[w], b.len)
  {
    RunKeepsInv(b, run, acts, i);
    assert DmaRun.WorkerInv(run[i].d, w);
    assert CmdInv(b, run[0].mem, run[i], run[i].d.workers[w].id);
  }
}
