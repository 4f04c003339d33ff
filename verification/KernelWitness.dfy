/** A run of the kernel machine, from its initial state, that loses a waiting task. */
module KernelWitness {
  import opened Base
  import opened Kernel

  /** r is the state after step a in s. */
  ghost predicate Follows(s: State, a: Step, r: State) {
    Enabled(s, a) && r == Do(s, a)
  }

  lemma RunExtends(run: seq<State>, steps: seq<Step>, a: Step, r: State)
    requires Run(run, steps) && Follows(run[|steps|], a, r)
    ensures Run(run + [r], steps + [a])
  {
    var longer, taken := run + [r], steps + [a];
    forall i | 0 <= i < |taken| ensures Enabled(longer[i], taken[i]) && longer[i + 1] == Do(longer[i], taken[i]) {
      if i < |steps| {
        assert longer[i] == run[i] && longer[i + 1] == run[i + 1] && taken[i] == steps[i];
      }
    }
  }

  /** One CPU with two tasks and one semaphore. */
  function Two(idx: nat, first: Task, second: Task, waiter: Option<nat>): State {
    State([Cpu([0, 1], idx, idx)], [first, second], [Semaphore(0, waiter, NoPost, 0, 0, 0, 0)], [])
  }

  const Running := Task(true, 0, false, Out)
  const Sleeping := Task(false, 0, false, Blocking(0))
  const Gone := Task(false, 0, false, Switched(0))

  lemma TwoWaitersStart()
    ensures Init(Two(0, Running, Running, None))
    ensures Follows(Two(0, Running, Running, None), WaitBlock(0, 0), Two(0, Sleeping, Running, Some(0)))
  {
  }

  lemma TwoWaitersGoOn()
    ensures Follows(Two(0, Sleeping, Running, Some(0)), SwitchAway(0, 1), Two(1, Gone, Running, Some(0)))
    ensures Follows(Two(1, Gone, Running, Some(0)), WaitBlock(0, 0), Two(1, Gone, Sleeping, Some(1)))
  {
  }

  /** It does happen: one CPU, two tasks, both wait on one semaphore that nobody has posted. */
  lemma TwoWaitersLoseOne() returns (run: seq<State>, steps: seq<Step>)
    ensures Run(run, steps) && Orphan(run[|steps|], 0)
  {
    TwoWaitersStart();
    TwoWaitersGoOn();
    run, steps := [Two(0, Running, Running, None)], [];
    RunExtends(run, steps, WaitBlock(0, 0), Two(0, Sleeping, Running, Some(0)));
    run, steps := run + [Two(0, Sleeping, Running, Some(0))], steps + [WaitBlock(0, 0)];
    RunExtends(run, steps, SwitchAway(0, 1), Two(1, Gone, Running, Some(0)));
    run, steps := run + [Two(1, Gone, Running, Some(0))], steps + [SwitchAway(0, 1)];
    RunExtends(run, steps, WaitBlock(0, 0), Two(1, Gone, Sleeping, Some(1)));
    run, steps := run + [Two(1, Gone, Sleeping, Some(1))], steps + [WaitBlock(0, 0)];
  }
}
