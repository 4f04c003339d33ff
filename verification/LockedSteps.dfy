/** The lock discipline and the kernel machine fit: whatever a step of the machine changes is
    protected by a lock that the path doing it holds. */
module LockedSteps {
  import opened Base
  import Kernel
  import LockOrder

  /** The locked work a step of the machine is; None for steps that change no shared data. */
  function WorkOf(s: Kernel.State, a: Kernel.Step): Option<LockOrder.Work>
    requires Kernel.Enabled(s, a)
  {
    match a
    case WaitTake(_, k) => Some(LockOrder.TakeSem(k))
    case WaitBlock(_, k) => Some(LockOrder.JoinSem(k))
    case SwitchAway(c, _) => Some(LockOrder.PickOn(c))
    case Preempt(c, _) => Some(LockOrder.PickOn(c))
    case PostStart(k) => Some(LockOrder.PostSem(k))
    case PostWake(k) => Some(LockOrder.WakeOn(s.sems[k].post.cpu))
    case Register(c, _) => Some(LockOrder.RegisterOn(c))
    case Move(i) => Some(LockOrder.MoveBetween(s.calls[i].src, s.calls[i].dst))
    case Return(_) => None
    case PostReadHome(_) => None
    case PostEnd(_) => None
    case Scan(_, _, _) => None
    case Choose(_, _) => None
    case GiveUp(_) => None
    case CallMigrate(_, _, _) => None
    case ReadSource(_) => None
  }

  ghost function Held(s: Kernel.State, a: Kernel.Step): set<LockOrder.Lock>
    requires Kernel.Enabled(s, a)
  {
    match WorkOf(s, a) case None => {} case Some(w) => LockOrder.Needs(w)
  }

  lemma QueuesAreLocked(s: Kernel.State, a: Kernel.Step, c: nat)
    requires Kernel.Inv(s) && Kernel.Enabled(s, a) && c < |s.cpus|
    ensures var r := Kernel.Do(s, a);
      && c < |r.cpus|
      && (r.cpus[c].queue != s.cpus[c].queue || r.cpus[c].idx != s.cpus[c].idx ==> LockOrder.Queue(c) in Held(s, a))
  {
  }

  lemma SemaphoresAreLocked(s: Kernel.State, a: Kernel.Step, k: nat)
    requires Kernel.Inv(s) && Kernel.Enabled(s, a) && k < |s.sems|
    ensures var r := Kernel.Do(s, a);
      && k < |r.sems|
      && (r.sems[k].count != s.sems[k].count || r.sems[k].waiter != s.sems[k].waiter ==> LockOrder.Sem(k) in Held(s, a))
  {
  }

  lemma HomesAreLocked(s: Kernel.State, a: Kernel.Step, t: nat)
    requires Kernel.Inv(s) && Kernel.Enabled(s, a) && t < |s.tasks|
    ensures var r := Kernel.Do(s, a);
      && t < |r.tasks|
      && (r.tasks[t].ready && !s.tasks[t].ready ==> LockOrder.Queue(s.tasks[t].cpu) in Held(s, a))
      && (r.tasks[t].cpu != s.tasks[t].cpu && Kernel.Registered(s, t) ==>
            LockOrder.Queue(s.tasks[t].cpu) in Held(s, a) && LockOrder.Queue(r.tasks[t].cpu) in Held(s, a))
  {
    if a.PostWake? {
      assert Kernel.SemInv(s, a.sem);
    } else if a.Move? {
      MovesFromHome(s, a);
    }
  }

  /** Every CPU whose queue or index changes, every semaphore whose count or waiter changes,
      the home queue of every task that is woken, and both queues of every task that moves are
      locked by the step that changes them. */
  lemma ChangesAreLocked(s: Kernel.State, a: Kernel.Step, c: nat, k: nat, t: nat)
    requires Kernel.Inv(s) && Kernel.Enabled(s, a) && c < |s.cpus| && k < |s.sems| && t < |s.tasks|
    ensures var r := Kernel.Do(s, a);
      && c < |r.cpus| && k < |r.sems| && t < |r.tasks|
      && (r.cpus[c].queue != s.cpus[c].queue || r.cpus[c].idx != s.cpus[c].idx ==> LockOrder.Queue(c) in Held(s, a))
      && (r.sems[k].count != s.sems[k].count || r.sems[k].waiter != s.sems[k].waiter ==> LockOrder.Sem(k) in Held(s, a))
      && (r.tasks[t].ready && !s.tasks[t].ready ==> LockOrder.Queue(s.tasks[t].cpu) in Held(s, a))
      && (r.tasks[t].cpu != s.tasks[t].cpu && Kernel.Registered(s, t) ==>
            LockOrder.Queue(s.tasks[t].cpu) in Held(s, a) && LockOrder.Queue(r.tasks[t].cpu) in Held(s, a))
  {
    QueuesAreLocked(s, a, c);
    SemaphoresAreLocked(s, a, k);
    HomesAreLocked(s, a, t);
  }

  lemma MovesFromHome(s: Kernel.State, a: Kernel.Step)
    requires Kernel.Inv(s) && Kernel.Enabled(s, a) && a.Move?
    ensures var call := s.calls[a.call]; Kernel.MayMove(s, call.task, call.src, call.dst) ==> s.tasks[call.task].cpu == call.src
  {
    var call := s.calls[a.call];
    if Kernel.MayMove(s, call.task, call.src, call.dst) {
      assert Kernel.CpuInv(s, call.src);
    }
  }

  /** In every state of every run of the lock machine, a task about to do the work of a kernel
      step holds all the locks on what the step changes. */
  lemma StepsRunLocked(run: seq<LockOrder.State>, n: nat, u: nat, s: Kernel.State, a: Kernel.Step)
    requires LockOrder.Run(run) && n < |run| && u < |run[n].tasks| && |run[n].tasks[u].frames| > 0 && Kernel.Enabled(s, a)
    requires var code := LockOrder.Top(run[n].tasks[u]).code;
      code != [] && code[0].Act? && WorkOf(s, a) == Some(code[0].work)
    ensures forall l :: l in Held(s, a) ==> l in run[n].tasks[u].held
  {
    LockOrder.WorkIsLocked(run, n, u);
  }
}
