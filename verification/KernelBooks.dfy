/** What a client of the kernel machine may count on: how each step changes a semaphore's
    books and where a task stands in sem_wait. */
module KernelBooks {
  import opened Kernel

  /** The step with which a sem_wait on semaphore k returns. */
  predicate EndsWait(s: State, a: Step, k: nat) {
    || (a.WaitTake? && a.sem == k)
    || (a.Return? && CurrentIs(s, a.cpu) && WaitsOn(Current(s, a.cpu), k))
  }

  /** The books of a semaphore change by a post or by a wait that returns, and by nothing else. */
  lemma StepBooks(s: State, a: Step, k: nat)
    requires Inv(s) && Enabled(s, a) && k < |s.sems|
    ensures var r := Do(s, a);
      && |r.sems| == |s.sems| && |r.tasks| == |s.tasks|
      && r.sems[k].initial == s.sems[k].initial
      && r.sems[k].posts == s.sems[k].posts + (if a == PostStart(k) then 1 else 0)
      && r.sems[k].finished == s.sems[k].finished + (if EndsWait(s, a, k) then 1 else 0)
  {
  }

  /** Task t itself executes this step of sem_wait. */
  predicate OwnStep(s: State, a: Step, t: nat) {
    IsWaitStep(a) && a.cpu < |s.cpus| && s.cpus[a.cpu].curr == t
  }

  /** Where a task stands in sem_wait changes by its own steps only. */
  lemma StepPhase(s: State, a: Step, t: nat)
    requires Inv(s) && Enabled(s, a) && t < |s.tasks|
    ensures t < |Do(s, a).tasks|
    ensures !OwnStep(s, a, t) ==> Do(s, a).tasks[t].phase == s.tasks[t].phase
    ensures OwnStep(s, a, t) && a.WaitTake? ==> s.tasks[t].phase.Out? && Do(s, a).tasks[t].phase.Out?
    ensures OwnStep(s, a, t) && a.WaitBlock? ==> s.tasks[t].phase.Out? && WaitsOn(Do(s, a).tasks[t], a.sem)
    ensures OwnStep(s, a, t) && a.Return? ==> !s.tasks[t].phase.Out? && Do(s, a).tasks[t].phase.Out?
    ensures OwnStep(s, a, t) && a.SwitchAway? ==> !s.tasks[t].phase.Out? && WaitsOn(Do(s, a).tasks[t], s.tasks[t].phase.sem)
  {
  }

  /** A balance pass or migrate call that gives up or has had its section is over; only the
      steps of a call change it, and only a section changes anything else. */
  lemma CallSteps(s: State, a: Step, i: nat)
    requires Enabled(s, a) && i < |s.calls|
    ensures i < |Do(s, a).calls|
    ensures (a == GiveUp(i) || a == Move(i)) ==> Do(s, a).calls[i].NoCall?
    ensures a.CallMigrate? && a.call == i ==> Do(s, a).calls[i] == Chosen(a.task, a.dst)
    ensures a.Scan? || a.Choose? || a.GiveUp? || a.CallMigrate? || a.ReadSource? ==>
      Do(s, a).cpus == s.cpus && Do(s, a).tasks == s.tasks && Do(s, a).sems == s.sems
    ensures !(a.Scan? || a.Choose? || a.GiveUp? || a.CallMigrate? || a.ReadSource? || a.Move?) || a.call != i ==> Do(s, a).calls[i] == s.calls[i]
  {
  }
}
