/** The DMA path on the real semaphores: the workers, the dispatcher and the device of module
    DmaRun composed with the SMP kernel machine.  A worker's sem_wait and the dispatcher's
    sem_post are the kernel's own steps, with everything else the kernel does, on any number
    of CPUs, in between.  The composed machine refines DmaRun, whose counting semaphore is
    the number of posts not yet returned with. */
module DmaWorkers {
  import opened Base
  import opened Rings
  import opened Dma
  import Kernel
  import KernelBooks
  import DmaRun

  /** Worker w is kernel task tasks[w], and worker_sem[w] is semaphore sems[w]. */
  datatype Setup = Setup(tasks: seq<nat>, sems: seq<nat>)

  datatype Sys = Sys(k: Kernel.State, d: DmaRun.State)

  datatype Act =
    | SemPost(worker: nat)                     // the dispatcher enters sem_post(&worker_sem[w])
    | BeginWait(worker: nat, cpu: nat)         // the worker blocks in sem_wait
    | EndWait(worker: nat, step: Kernel.Step)  // the worker's sem_wait returns
    | KernelStep(step: Kernel.Step)            // everything else the kernel does
    | DmaStep(dma: DmaRun.Step)                // everything else on the DMA path

  predicate SetupOk(x: Setup, y: Sys) {
    && |x.tasks| == |x.sems| == |y.d.workers| && DmaRun.Shape(y.d)
    && (forall w :: 0 <= w < |x.tasks| ==> x.tasks[w] < |y.k.tasks| && x.sems[w] < |y.k.sems|)
    && (forall v, w :: 0 <= v < w < |x.tasks| ==> x.tasks[v] != x.tasks[w] && x.sems[v] != x.sems[w])
  }

  /** The task that executes a step of sem_wait. */
  predicate By(s: Kernel.State, a: Kernel.Step, t: nat) {
    (a.WaitTake? || a.WaitBlock? || a.Return?) && a.cpu < |s.cpus| && s.cpus[a.cpu].curr == t
  }

  /** A worker's semaphore is used by that worker and the dispatcher only, and a worker waits
      on no other. */
  predicate Foreign(x: Setup, s: Kernel.State, a: Kernel.Step) {
    forall w :: 0 <= w < |x.tasks| && w < |x.sems| ==>
      && a != Kernel.PostStart(x.sems[w]) && !By(s, a, x.tasks[w])
      && (a.WaitTake? || a.WaitBlock? ==> a.sem != x.sems[w])
  }

  predicate CanAct(x: Setup, y: Sys, act: Act)
    requires SetupOk(x, y)
  {
    match act
    case SemPost(w) =>
      w < |x.tasks| && Kernel.Enabled(y.k, Kernel.PostStart(x.sems[w])) && y.d.lock.Draining? && y.d.lock.posting == Some(w)
    case BeginWait(w, c) =>
      && w < |x.tasks| && Kernel.Enabled(y.k, Kernel.WaitBlock(c, x.sems[w])) && y.k.cpus[c].curr == x.tasks[w]
      && y.d.workers[w].Submitted?
    case EndWait(w, a) =>
      && w < |x.tasks| && Kernel.Enabled(y.k, a) && By(y.k, a, x.tasks[w])
      && (a.Return? || (a.WaitTake? && a.sem == x.sems[w] && y.d.workers[w].Submitted?))
    case KernelStep(a) => Kernel.Enabled(y.k, a) && Foreign(x, y.k, a)
    case DmaStep(b) => DmaRun.Enabled(y.d, b) && !b.Post? && !b.WaitReturns?
  }

  /** The worker goes on to its lookup; nothing here assumes that a post was there to take. */
  function Returned(d: DmaRun.State, w: nat): DmaRun.State
    requires DmaRun.Shape(d) && w < |d.workers|
  {
    d.(sems := d.sems[w := if d.sems[w] > 0 then d.sems[w] - 1 else 0],
       workers := d.workers[w := if d.workers[w].Submitted? then DmaRun.Woken(d.workers[w].id) else d.workers[w]])
  }

  function DoAct(x: Setup, y: Sys, act: Act): Sys
    requires SetupOk(x, y) && CanAct(x, y, act)
  {
    match act
    case SemPost(w) => Sys(Kernel.Do(y.k, Kernel.PostStart(x.sems[w])), DmaRun.Do(y.d, DmaRun.Post))
    case BeginWait(w, c) => y.(k := Kernel.Do(y.k, Kernel.WaitBlock(c, x.sems[w])))
    case EndWait(w, a) => Sys(Kernel.Do(y.k, a), Returned(y.d, w))
    case KernelStep(a) => y.(k := Kernel.Do(y.k, a))
    case DmaStep(b) => y.(d := DmaRun.Do(y.d, b))
  }

  ghost predicate Init(x: Setup, y: Sys) {
    && Kernel.Init(y.k) && DmaRun.Init(y.d) && SetupOk(x, y)
    && forall w :: 0 <= w < |x.sems| ==> y.k.sems[x.sems[w]].initial == 0   // sem_init(&worker_sem[id], 0)
  }

  ghost predicate RunOf(x: Setup, run: seq<Sys>, acts: seq<Act>) {
    && |run| == |acts| + 1 && Init(x, run[0])
    && forall i :: 0 <= i < |acts| ==>
         SetupOk(x, run[i]) && CanAct(x, run[i], acts[i]) && run[i + 1] == DoAct(x, run[i], acts[i])
  }

  // ---- how the two machines fit together ----------------------------------------------

  /** The kernel's books on worker w's semaphore are the DMA machine's. */
  ghost predicate Books(x: Setup, y: Sys, w: nat)
    requires SetupOk(x, y) && w < |x.tasks|
  {
    var m := y.k.sems[x.sems[w]];
    m.initial == 0 && m.posts == y.d.posts[w] && m.posts == m.finished + y.d.sems[w]
  }

  /** The worker's task waits on its own semaphore or on none, only after submitting, and
      nobody else waits there. */
  ghost predicate Places(x: Setup, y: Sys, w: nat)
    requires SetupOk(x, y) && w < |x.tasks|
  {
    var t := y.k.tasks[x.tasks[w]];
    && (t.phase.Out? || (Kernel.WaitsOn(t, x.sems[w]) && y.d.workers[w].Submitted?))
    && (forall u :: 0 <= u < |y.k.tasks| && Kernel.WaitsOn(y.k.tasks[u], x.sems[w]) ==> u == x.tasks[w])
  }

  ghost predicate Inv(x: Setup, y: Sys) {
    && SetupOk(x, y) && Kernel.Inv(y.k) && DmaRun.Inv(y.d)
    && forall w :: 0 <= w < |x.tasks| ==> Books(x, y, w) && Places(x, y, w) && !Kernel.Orphan(y.k, x.tasks[w])
  }

  lemma InitInv(x: Setup, y: Sys)
    requires Init(x, y)
    ensures Inv(x, y)
  {
    Kernel.InitInv(y.k);
    DmaRun.InitInv(y.d);
  }

  /** The step the kernel takes, if any. */
  function KernelPart(x: Setup, act: Act): Option<Kernel.Step>
    requires act.SemPost? || act.BeginWait? ==> act.worker < |x.sems|
  {
    match act
    case SemPost(w) => Some(Kernel.PostStart(x.sems[w]))
    case BeginWait(w, c) => Some(Kernel.WaitBlock(c, x.sems[w]))
    case EndWait(_, a) => Some(a)
    case KernelStep(a) => Some(a)
    case DmaStep(_) => None
  }

  /** A worker whose wait returns had a post to take: the abstract counter is positive. */
  lemma ReturnHasAPost(x: Setup, y: Sys, w: nat, a: Kernel.Step)
    requires Inv(x, y) && CanAct(x, y, EndWait(w, a))
    ensures KernelBooks.EndsWait(y.k, a, x.sems[w]) && DmaRun.Enabled(y.d, DmaRun.WaitReturns(w))
    ensures Returned(y.d, w) == DmaRun.Do(y.d, DmaRun.WaitReturns(w))
  {
    var k := x.sems[w];
    assert Books(x, y, w) && Places(x, y, w) && Kernel.SemInv(y.k, k);
    if a.Return? {
      Kernel.ReturnerIsGranted(y.k, a.cpu);
      assert x.tasks[w] in Kernel.Granted(y.k, k);
    }
  }

  /** Each act leaves the DMA machine alone or is one of its own enabled steps. */
  lemma ActRefines(x: Setup, y: Sys, act: Act)
    requires Inv(x, y) && CanAct(x, y, act)
    ensures DoAct(x, y, act).d == y.d || exists b :: DmaRun.Enabled(y.d, b) && DoAct(x, y, act).d == DmaRun.Do(y.d, b)
  {
    match act {
      case SemPost(w) => assert DmaRun.Enabled(y.d, DmaRun.Post);
      case BeginWait(_, _) =>
      case EndWait(w, a) => ReturnHasAPost(x, y, w, a);
      case KernelStep(_) =>
      case DmaStep(b) => assert DmaRun.Enabled(y.d, b);
    }
  }

  lemma ActKeepsDma(x: Setup, y: Sys, act: Act)
    requires Inv(x, y) && CanAct(x, y, act)
    ensures DmaRun.Inv(DoAct(x, y, act).d) && |DoAct(x, y, act).d.workers| == |y.d.workers|
  {
    ActRefines(x, y, act);
    var z := DoAct(x, y, act);
    if z.d != y.d {
      var b :| DmaRun.Enabled(y.d, b) && z.d == DmaRun.Do(y.d, b);
      DmaRun.StepKeepsInv(y.d, b);
    }
  }

  lemma ActKeepsKernel(x: Setup, y: Sys, act: Act)
    requires Inv(x, y) && CanAct(x, y, act)
    ensures Kernel.Inv(DoAct(x, y, act).k)
    ensures |DoAct(x, y, act).k.tasks| == |y.k.tasks| && |DoAct(x, y, act).k.sems| == |y.k.sems|
  {
    var p := KernelPart(x, act);
    if p.Some? {
      Kernel.StepKeepsInv(y.k, p.value);
      KernelKeepsSizes(y.k, p.value);
    }
  }

  lemma KernelKeepsSizes(s: Kernel.State, a: Kernel.Step)
    requires Kernel.Inv(s) && Kernel.Enabled(s, a)
    ensures |Kernel.Do(s, a).tasks| == |s.tasks| && |Kernel.Do(s, a).sems| == |s.sems|
  {
  }

  /** The other DMA steps leave semaphores and waiting workers alone. */
  lemma DmaLeavesWaiters(d: DmaRun.State, b: DmaRun.Step)
    requires DmaRun.Inv(d) && DmaRun.Enabled(d, b) && !b.Post? && !b.WaitReturns?
    ensures var r := DmaRun.Do(d, b);
      && r.sems == d.sems && r.posts == d.posts && |r.workers| == |d.workers|
      && forall w :: 0 <= w < |d.workers| && d.workers[w].Submitted? ==> r.workers[w] == d.workers[w]
  {
  }

  lemma PostKeepsBooks(x: Setup, y: Sys, v: nat, w: nat)
    requires Inv(x, y) && CanAct(x, y, SemPost(v)) && SetupOk(x, DoAct(x, y, SemPost(v))) && w < |x.tasks|
    ensures Books(x, DoAct(x, y, SemPost(v)), w)
  {
    assert Books(x, y, w);
    KernelBooks.StepBooks(y.k, Kernel.PostStart(x.sems[v]), x.sems[w]);
  }

  lemma ForeignKeepsBooks(x: Setup, y: Sys, act: Act, w: nat)
    requires Inv(x, y) && CanAct(x, y, act) && (act.BeginWait? || act.KernelStep?) && SetupOk(x, DoAct(x, y, act)) && w < |x.tasks|
    ensures Books(x, DoAct(x, y, act), w)
  {
    assert Books(x, y, w);
    KernelBooks.StepBooks(y.k, KernelPart(x, act).value, x.sems[w]);
    if act.KernelStep? {
      ForeignEndsNoWait(x, y, act.step, w);
    }
  }

  lemma ActKeepsBooks(x: Setup, y: Sys, act: Act, w: nat)
    requires Inv(x, y) && CanAct(x, y, act) && SetupOk(x, DoAct(x, y, act)) && w < |x.tasks|
    ensures Books(x, DoAct(x, y, act), w)
  {
    if act.EndWait? {
      ReturnKeepsBooks(x, y, act.worker, act.step, w);
    } else if act.SemPost? {
      PostKeepsBooks(x, y, act.worker, w);
    } else if act.DmaStep? {
      assert Books(x, y, w);
      DmaLeavesWaiters(y.d, act.dma);
    } else {
      ForeignKeepsBooks(x, y, act, w);
    }
  }

  lemma ReturnKeepsBooks(x: Setup, y: Sys, v: nat, a: Kernel.Step, w: nat)
    requires Inv(x, y) && CanAct(x, y, EndWait(v, a)) && SetupOk(x, DoAct(x, y, EndWait(v, a))) && w < |x.tasks|
    ensures Books(x, DoAct(x, y, EndWait(v, a)), w)
  {
    assert Books(x, y, w);
    KernelBooks.StepBooks(y.k, a, x.sems[w]);
    ReturnHasAPost(x, y, v, a);
    if w != v {
      EndsOneWait(x, y, v, a, w);
    }
  }

  lemma EndsOneWait(x: Setup, y: Sys, v: nat, a: Kernel.Step, w: nat)
    requires Inv(x, y) && CanAct(x, y, EndWait(v, a)) && w < |x.tasks| && w != v
    ensures !KernelBooks.EndsWait(y.k, a, x.sems[w])
  {
    assert Places(x, y, v);
  }

  lemma ForeignEndsNoWait(x: Setup, y: Sys, a: Kernel.Step, w: nat)
    requires Inv(x, y) && CanAct(x, y, KernelStep(a)) && w < |x.tasks|
    ensures !KernelBooks.EndsWait(y.k, a, x.sems[w])
  {
    assert Places(x, y, w);
  }

  /** Nobody but the worker comes to wait on its semaphore. */
  lemma NobodyElseWaits(x: Setup, y: Sys, act: Act, w: nat, u: nat)
    requires Inv(x, y) && CanAct(x, y, act) && SetupOk(x, DoAct(x, y, act)) && w < |x.tasks| && u < |y.k.tasks|
    ensures u < |DoAct(x, y, act).k.tasks|
    ensures Kernel.WaitsOn(DoAct(x, y, act).k.tasks[u], x.sems[w]) ==> u == x.tasks[w]
  {
    assert Places(x, y, w);
    var p := KernelPart(x, act);
    if p.Some? {
      KernelBooks.StepPhase(y.k, p.value, u);
    }
  }

  /** A wait step that is not by worker w's task leaves it where it is; its own steps take it
      in after submitting, and out. */
  lemma WorkerKeepsPlace(x: Setup, y: Sys, act: Act, w: nat)
    requires Inv(x, y) && CanAct(x, y, act) && SetupOk(x, DoAct(x, y, act)) && w < |x.tasks|
    ensures var z := DoAct(x, y, act); var t := z.k.tasks[x.tasks[w]];
      t.phase.Out? || (Kernel.WaitsOn(t, x.sems[w]) && z.d.workers[w].Submitted?)
  {
    assert Places(x, y, w);
    if act.DmaStep? {
      DmaLeavesWaiters(y.d, act.dma);
    } else {
      var a := KernelPart(x, act).value;
      KernelBooks.StepPhase(y.k, a, x.tasks[w]);
      if act.EndWait? {
        assert act.worker != w ==> !By(y.k, a, x.tasks[w]);
      } else if act.BeginWait? {
        assert act.worker != w ==> !By(y.k, a, x.tasks[w]);
      }
    }
  }

  lemma ActKeepsPlaces(x: Setup, y: Sys, act: Act, w: nat)
    requires Inv(x, y) && CanAct(x, y, act) && SetupOk(x, DoAct(x, y, act)) && w < |x.tasks|
    ensures Places(x, DoAct(x, y, act), w)
  {
    var z := DoAct(x, y, act);
    WorkerKeepsPlace(x, y, act, w);
    ActKeepsKernel(x, y, act);
    forall u | 0 <= u < |z.k.tasks| ensures Kernel.WaitsOn(z.k.tasks[u], x.sems[w]) ==> u == x.tasks[w] {
      NobodyElseWaits(x, y, act, w, u);
    }
  }

  lemma BeginOverwritesNobody(x: Setup, y: Sys, w: nat, c: nat)
    requires Inv(x, y) && CanAct(x, y, BeginWait(w, c))
    ensures !Kernel.OverwritesWaiter(y.k, Kernel.WaitBlock(c, x.sems[w]))
  {
    assert Places(x, y, w) && Kernel.SemInv(y.k, x.sems[w]);
  }

  lemma ActKeepsNonOrphan(x: Setup, y: Sys, act: Act, w: nat)
    requires Inv(x, y) && CanAct(x, y, act) && w < |x.tasks|
    ensures !Kernel.Orphan(DoAct(x, y, act).k, x.tasks[w])
  {
    var p := KernelPart(x, act);
    if p.Some? {
      var a, t := p.value, x.tasks[w];
      assert Places(x, y, w) && Kernel.TaskInv(y.k, t);
      if act.BeginWait? {
        BeginOverwritesNobody(x, y, act.worker, act.cpu);
      }
      if Kernel.OverwritesWaiter(y.k, a) {
        assert Kernel.SemInv(y.k, a.sem);
      } else {
        Kernel.StepsAndOrphans(y.k, a, t);
      }
    }
  }

  lemma ActKeepsInv(x: Setup, y: Sys, act: Act)
    requires Inv(x, y) && CanAct(x, y, act)
    ensures Inv(x, DoAct(x, y, act))
  {
    ActKeepsDma(x, y, act);
    ActKeepsKernel(x, y, act);
    var z := DoAct(x, y, act);
    assert SetupOk(x, z);
    forall w | 0 <= w < |x.tasks| ensures Books(x, z, w) && Places(x, z, w) && !Kernel.Orphan(z.k, x.tasks[w]) {
      ActKeepsBooks(x, y, act, w);
      ActKeepsPlaces(x, y, act, w);
      ActKeepsNonOrphan(x, y, act, w);
    }
  }

  lemma {:induction false} RunKeepsInv(x: Setup, run: seq<Sys>, acts: seq<Act>, i: nat)
    requires RunOf(x, run, acts) && i < |run|
    ensures Inv(x, run[i])
  {
    if i == 0 {
      InitInv(x, run[0]);
    } else {
      RunKeepsInv(x, run, acts, i - 1);
      ActKeepsInv(x, run[i - 1], acts[i - 1]);
      assert run[i - 1 + 1] == DoAct(x, run[i - 1], acts[i - 1]);
    }
  }

  // ---- what every run promises --------------------------------------------------------

  /** Every act of every run is a step of the DMA machine or invisible to it. */
  lemma RunRefines(x: Setup, run: seq<Sys>, acts: seq<Act>, i: nat)
    requires RunOf(x, run, acts) && i < |acts|
    ensures DmaRun.Shape(run[i].d)
    ensures run[i + 1].d == run[i].d || exists b :: DmaRun.Enabled(run[i].d, b) && run[i + 1].d == DmaRun.Do(run[i].d, b)
  {
    RunKeepsInv(x, run, acts, i);
    ActRefines(x, run[i], acts[i]);
  }

  /** The kernel semaphore of a worker is posted at most once, and a wait on it returns at
      most as often as it was posted, in every run. */
  lemma PostedOnce(x: Setup, run: seq<Sys>, acts: seq<Act>, i: nat, w: nat)
    requires RunOf(x, run, acts) && i < |run| && w < |x.sems|
    ensures x.sems[w] < |run[i].k.sems|
    ensures run[i].k.sems[x.sems[w]].finished <= run[i].k.sems[x.sems[w]].posts <= 1
  {
    RunKeepsInv(x, run, acts, i);
    assert Books(x, run[i], w) && DmaRun.WorkerInv(run[i].d, w);
  }

  /** No worker sleeps through its completion: once everything submitted has been completed,
      drained and dispatched and no post on its semaphore is under way, a worker that
      submitted is not BLOCKED, whatever CPUs and interleavings were involved. */
  lemma NoWorkerSleepsOn(x: Setup, run: seq<Sys>, acts: seq<Act>, i: nat, w: nat)
    requires RunOf(x, run, acts) && i < |run| && w < |x.tasks| && SetupOk(x, run[i])
    requires DmaRun.Drained(run[i].d) && !run[i].d.workers[w].Fresh? && run[i].k.sems[x.sems[w]].post.NoPost?
    ensures run[i].k.tasks[x.tasks[w]].ready
  {
    RunKeepsInv(x, run, acts, i);
    var y := run[i];
    DmaRun.DrainedMeansPosted(y.d, w);
    assert Books(x, y, w) && Places(x, y, w) && !Kernel.Orphan(y.k, x.tasks[w]);
    if !y.k.tasks[x.tasks[w]].ready {
      SleeperIsNotPosted(x, y, w);
    }
  }

  /** A BLOCKED worker with no post under way on its semaphore has not been posted. */
  lemma SleeperIsNotPosted(x: Setup, y: Sys, w: nat)
    requires Inv(x, y) && w < |x.tasks| && !y.k.tasks[x.tasks[w]].ready && y.k.sems[x.sems[w]].post.NoPost?
    ensures y.d.posts[w] == 0
  {
    var t, k := x.tasks[w], x.sems[w];
    assert Books(x, y, w) && Places(x, y, w) && !Kernel.Orphan(y.k, t);
    assert Kernel.TaskInv(y.k, t) && Kernel.SemInv(y.k, k) && DmaRun.WorkerInv(y.d, w);
    assert y.k.sems[k].waiter == Some(t);
    assert Kernel.Granted(y.k, k) == {};
  }

  /** When a worker's sem_wait has returned, its unlocked lookup finds its own slot with the
      device's verdict on its own command. */
  lemma WakesToItsResult(x: Setup, run: seq<Sys>, acts: seq<Act>, i: nat, w: nat)
    requires RunOf(x, run, acts) && i < |acts| && acts[i].EndWait? && acts[i].worker == w
    ensures w < |run[i + 1].d.workers| && run[i + 1].d.workers[w].Woken?
    ensures var d := run[i + 1].d; var id := d.workers[w].id;
      && 1 <= id <= |d.table| && FirstTrue(Named(d.table, id)) == Some(id - 1)
      && id in d.outcome && d.table[id - 1].result == Completion(id, d.outcome[id])
  {
    RunKeepsInv(x, run, acts, i);
    ReturnHasAPost(x, run[i], w, acts[i].step);
    RunKeepsInv(x, run, acts, i + 1);
    assert run[i + 1] == DoAct(x, run[i], acts[i]);
    DmaRun.WokenFindsResult(run[i + 1].d, w);
  }
}
