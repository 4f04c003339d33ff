/** The code of sem_wait and sem_post as it runs under the semaphore's lock, proved to take
    exactly the steps of the machine in module Kernel. */
module Semaphores {
  import opened Base
  import opened Kernel

  /** The machine's steps of a whole sem_post that meets no other step in between. */
  ghost function PostAlone(s: State, k: nat): State
    requires Enabled(s, PostStart(k)) && (s.sems[k].waiter.Some? ==> s.sems[k].waiter.value < |s.tasks|)
  {
    var a := Do(s, PostStart(k));
    if s.sems[k].waiter.None? then a else Do(Do(Do(a, PostReadHome(k)), PostWake(k)), PostEnd(k))
  }

  /** sem_t with the task states it changes: asleep[t] is state != 0. */
  class SemT {
    var count: int
    var waiter: Option<nat>
    const asleep: array<bool>

    constructor (initial: int, tasks: nat)
      ensures count == initial && waiter == None && fresh(asleep)
      ensures asleep.Length == tasks && forall t :: 0 <= t < tasks ==> !asleep[t]
    {
      count, waiter := initial, None;
      asleep := new bool[tasks](_ => false);
    }

    /** This object is semaphore k of the machine's state, with its lock free. */
    ghost predicate Mirrors(s: State, k: nat)
      reads this, asleep
    {
      && SemFree(s, k) && s.sems[k].count == count && s.sems[k].waiter == waiter
      && |s.tasks| == asleep.Length && (forall t :: 0 <= t < |s.tasks| ==> s.tasks[t].ready == !asleep[t])
      && (waiter.Some? ==> waiter.value < asleep.Length)
    }

    /** sem_wait up to its return or to block_current_and_switch, by the current task of
        CPU c. */
    method Wait(current: nat, ghost s: State, ghost c: nat, ghost k: nat) returns (taken: bool)
      requires Mirrors(s, k) && CurrentIs(s, c) && s.cpus[c].curr == current && Current(s, c).phase.Out?
      modifies this, asleep
      ensures taken == (old(count) > 0)
      ensures taken ==> Enabled(s, WaitTake(c, k)) && Mirrors(Do(s, WaitTake(c, k)), k)
      ensures !taken ==> Enabled(s, WaitBlock(c, k)) && Mirrors(Do(s, WaitBlock(c, k)), k)
    {
      if count > 0 {
        count := count - 1;
        return true;
      }
      waiter := Some(current);
      asleep[current] := true;
      return false;
    }

    /** sem_post. */
    method Post(ghost s: State, ghost k: nat)
      requires Mirrors(s, k)
      modifies this, asleep
      ensures Mirrors(PostAlone(s, k), k)
    {
      if waiter.Some? {
        var w := waiter.value;
        waiter := None;
        asleep[w] := false;
      } else {
        count := count + 1;
      }
    }
  }
}
