/** The load balancer inside the SMP kernel machine: one balance pass at a time (CPU0's
    tick path), interleaved with every other kernel step, no tasks registered meanwhile. */
module Balancer {
  import opened Base
  import opened QueueSpec
  import opened Kernel
  import opened KernelWitness

  /** A run whose only migrations come from sched_load_balance_pass. */
  ghost predicate BalancedRun(run: seq<State>, steps: seq<Step>) {
    && Run(run, steps) && |run[0].calls| == 1
    && forall i :: 0 <= i < |steps| ==> !steps[i].Register? && !steps[i].CallMigrate?
  }

  /** The comparison a pass made still describes the queues. */
  ghost predicate Uneven(s: State, b: nat, l: nat) {
    IsBusiest(Lens(s), b) && IsIdlest(Lens(s), l) && Lens(s)[b] - Lens(s)[l] >= 2
  }

  ghost predicate Victim(s: State, t: nat, dst: nat) {
    t < |s.tasks| && !s.tasks[t].pinned && Registered(s, t) && Uneven(s, s.tasks[t].cpu, dst)
  }

  ghost predicate PassInv(s: State) {
    && |s.calls| == 1
    && match s.calls[0]
       case NoCall => true
       case Scanned(b, l) => Uneven(s, b, l)
       case Chosen(t, dst) => Victim(s, t, dst)
       case SourceRead(t, src, dst) => Victim(s, t, dst) && src == s.tasks[t].cpu
  }

  /** The step moves a task. */
  predicate Moves(s: State, a: Step) {
    && a.Move? && a.call < |s.calls| && s.calls[a.call].SourceRead?
    && MayMove(s, s.calls[a.call].task, s.calls[a.call].src, s.calls[a.call].dst)
  }

  /** Queue contents, homes and pins change only when a task moves. */
  lemma OthersLeaveQueues(s: State, a: Step)
    requires Inv(s) && Enabled(s, a) && !Moves(s, a) && !a.Register?
    ensures var r := Do(s, a);
      && Lens(r) == Lens(s) && |r.cpus| == |s.cpus| && |r.tasks| == |s.tasks|
      && (forall c :: 0 <= c < |s.cpus| ==> r.cpus[c].queue == s.cpus[c].queue)
      && (forall t :: 0 <= t < |s.tasks| ==> r.tasks[t].cpu == s.tasks[t].cpu && r.tasks[t].pinned == s.tasks[t].pinned)
  {
  }

  lemma VictimFrame(s: State, r: State, t: nat, dst: nat)
    requires Victim(s, t, dst) && Lens(r) == Lens(s) && |r.tasks| == |s.tasks| && |r.cpus| == |s.cpus|
    requires forall c :: 0 <= c < |s.cpus| ==> r.cpus[c].queue == s.cpus[c].queue
    requires r.tasks[t].cpu == s.tasks[t].cpu && r.tasks[t].pinned == s.tasks[t].pinned
    ensures Victim(r, t, dst)
  {
    var c :| 0 <= c < |s.cpus| && t in s.cpus[c].queue;
    assert t in r.cpus[c].queue;
  }

  lemma StepKeepsPass(s: State, a: Step)
    requires Inv(s) && PassInv(s) && Enabled(s, a) && !a.Register? && !a.CallMigrate?
    ensures PassInv(Do(s, a))
  {
    var r := Do(s, a);
    if !Moves(s, a) {
      OthersLeaveQueues(s, a);
      if a.Choose? {
        var b := s.calls[0].busiest;
        assert CpuInv(s, b) && s.tasks[a.task].cpu == b;
        assert Victim(s, a.task, s.calls[0].idlest);
        VictimFrame(s, r, a.task, s.calls[0].idlest);
      } else if s.calls[0].Chosen? || s.calls[0].SourceRead? {
        VictimFrame(s, r, s.calls[0].task, s.calls[0].dst);
      }
    }
  }

  lemma {:induction false} RunKeepsPass(run: seq<State>, steps: seq<Step>, i: nat)
    requires BalancedRun(run, steps) && i < |run|
    ensures Inv(run[i]) && PassInv(run[i])
  {
    if i == 0 {
      InitInv(run[0]);
    } else {
      RunKeepsPass(run, steps, i - 1);
      StepKeepsPass(run[i - 1], steps[i - 1]);
      RunKeepsInv(run, steps, i);
      assert run[i - 1 + 1] == Do(run[i - 1], steps[i - 1]);
    }
  }

  /** What one move does to the queue lengths. */
  lemma MoveLens(s: State, a: Step)
    requires Inv(s) && Enabled(s, a) && Moves(s, a)
    ensures var call := s.calls[a.call];
      |s.cpus[call.src].queue| > 0 && Lens(Do(s, a)) == Moved(Lens(s), call.src, call.dst)
  {
  }

  /** Only an unpinned READY task that no CPU is running ever changes home; it goes from a
      secondary to a secondary with at least two free places, and CPU0's queue is untouched. */
  lemma OnlyIdleReadyTasksMove(run: seq<State>, steps: seq<Step>, i: nat, t: nat)
    requires BalancedRun(run, steps) && i < |steps| && t < |run[i].tasks| && t < |run[i + 1].tasks|
    requires run[i + 1].tasks[t].cpu != run[i].tasks[t].cpu
    ensures run[i].tasks[t].ready && !run[i].tasks[t].pinned
    ensures forall c :: 0 <= c < |run[i].cpus| ==> run[i].cpus[c].curr != t
    ensures var dst := run[i + 1].tasks[t].cpu;
      run[i].tasks[t].cpu != 0 && 0 < dst < |run[i].cpus| && |run[i].cpus[dst].queue| <= MAX_TASKS - 2
    ensures run[i + 1].cpus[0] == run[i].cpus[0]
  {
    RunKeepsPass(run, steps, i);
    if !Moves(run[i], steps[i]) {
      OthersLeaveQueues(run[i], steps[i]);
    } else {
      var src := run[i].calls[0].src;
      assert CpuInv(run[i], src);
      forall c | 0 <= c < |run[i].cpus| ensures run[i].cpus[c].curr != t {
        assert CpuInv(run[i], c);
      }
    }
  }

  /** The number of tasks moved in the first n steps. */
  ghost function MoveCount(run: seq<State>, steps: seq<Step>, n: nat): nat
    requires n <= |steps| && n <= |run|
  {
    if n == 0 then 0 else MoveCount(run, steps, n - 1) + if Moves(run[n - 1], steps[n - 1]) then 1 else 0
  }

  /** Every move lowers the sum of squared secondary queue lengths by at least 2, so a run
      of any length contains at most half the initial sum many moves. */
  lemma {:induction false} BalancingEnds(run: seq<State>, steps: seq<Step>, n: nat)
    requires BalancedRun(run, steps) && n <= |steps|
    ensures 2 * MoveCount(run, steps, n) + Imbalance(Lens(run[n])) <= Imbalance(Lens(run[0]))
  {
    if n > 0 {
      BalancingEnds(run, steps, n - 1);
      StepLowersImbalance(run, steps, n - 1);
    }
  }

  lemma StepLowersImbalance(run: seq<State>, steps: seq<Step>, i: nat)
    requires BalancedRun(run, steps) && i < |steps|
    ensures Imbalance(Lens(run[i + 1])) + (if Moves(run[i], steps[i]) then 2 else 0) <= Imbalance(Lens(run[i]))
  {
    RunKeepsPass(run, steps, i);
    if Moves(run[i], steps[i]) {
      MoveLens(run[i], steps[i]);
      MoveLowersImbalance(Lens(run[i]), run[i].calls[0].src, run[i].calls[0].dst);
    } else {
      OthersLeaveQueues(run[i], steps[i]);
    }
  }

  /** All secondary queue lengths lie between lo and hi. */
  ghost predicate Within(lens: seq<nat>, lo: int, hi: int) {
    forall c :: 1 <= c < |lens| ==> lo <= lens[c] <= hi
  }

  /** The spread of the secondary queue lengths never widens in the course of a run. */
  lemma {:induction false} GapNeverWidens(run: seq<State>, steps: seq<Step>, i: nat, n: nat, lo: int, hi: int)
    requires BalancedRun(run, steps) && i <= n <= |steps| && Within(Lens(run[i]), lo, hi)
    ensures Within(Lens(run[n]), lo, hi)
    decreases n
  {
    if i < n {
      GapNeverWidens(run, steps, i, n - 1, lo, hi);
      var s := run[n - 1];
      RunKeepsPass(run, steps, n - 1);
      if Moves(s, steps[n - 1]) {
        MoveLens(s, steps[n - 1]);
        MoveLowersImbalance(Lens(s), s.calls[0].src, s.calls[0].dst);
        assert lo <= Lens(s)[s.calls[0].dst] && Lens(s)[s.calls[0].src] <= hi;
      } else {
        OthersLeaveQueues(s, steps[n - 1]);
      }
      assert run[n - 1 + 1] == Do(s, steps[n - 1]);
    }
  }

  // ---- several passes at once ----------------------------------------------------------

  /** In any run of the kernel, with any number of passes and migrations under way at once, a
      move between secondaries lowers the sum of squares, by 2 or more, if and only if the
      source is still two or more longer than the destination when the locks are held; the
      code compares the lengths earlier, without them. */
  lemma MoveLowersExactly(run: seq<State>, steps: seq<Step>, i: nat)
    requires Run(run, steps) && i < |steps| && Moves(run[i], steps[i]) && run[i].calls[steps[i].call].src != 0
    ensures var call := run[i].calls[steps[i].call];
      && (Imbalance(Lens(run[i + 1])) + 2 <= Imbalance(Lens(run[i])) <==> Lens(run[i])[call.src] >= Lens(run[i])[call.dst] + 2)
      && (Imbalance(Lens(run[i + 1])) < Imbalance(Lens(run[i])) <==> Lens(run[i])[call.src] >= Lens(run[i])[call.dst] + 2)
  {
    RunKeepsInv(run, steps, i);
    MoveLens(run[i], steps[i]);
    MoveChangesImbalance(Lens(run[i]), run[i].calls[steps[i].call].src, run[i].calls[steps[i].call].dst);
  }

  /** Three CPUs, five tasks, two calls: task 2 and task 3 start on CPU1 beside its current
      task 1; CPU2 runs task 4. */
  function Three(q1: seq<nat>, q2: seq<nat>, home2: nat, home3: nat, first: Call, second: Call): State {
    State([Cpu([0], 0, 0), Cpu(q1, 0, 1), Cpu(q2, 0, 4)],
          [Task(true, 0, false, Out), Task(true, 1, false, Out), Task(true, home2, false, Out),
           Task(true, home3, false, Out), Task(true, 2, false, Out)],
          [], [first, second])
  }

  /** Two passes that both scan before either moves. */
  function PassState(i: nat): State {
    if i == 0 then Three([1, 2, 3], [4], 1, 1, NoCall, NoCall)
    else if i == 1 then Three([1, 2, 3], [4], 1, 1, Scanned(1, 2), NoCall)
    else if i == 2 then Three([1, 2, 3], [4], 1, 1, Scanned(1, 2), Scanned(1, 2))
    else if i == 3 then Three([1, 2, 3], [4], 1, 1, Chosen(2, 2), Scanned(1, 2))
    else if i == 4 then Three([1, 2, 3], [4], 1, 1, Chosen(2, 2), Chosen(3, 2))
    else if i == 5 then Three([1, 2, 3], [4], 1, 1, SourceRead(2, 1, 2), Chosen(3, 2))
    else if i == 6 then Three([1, 2, 3], [4], 1, 1, SourceRead(2, 1, 2), SourceRead(3, 1, 2))
    else if i == 7 then Three([1, 3], [4, 2], 2, 1, NoCall, SourceRead(3, 1, 2))
    else Three([1], [4, 2, 3], 2, 2, NoCall, NoCall)
  }

  function PassStep(i: nat): Step {
    if i < 2 then Scan(i, 1, 2)
    else if i < 4 then Choose(i - 2, i)
    else if i < 6 then ReadSource(i - 4)
    else Move(if i == 6 then 0 else 1)
  }

  lemma PassesStart()
    ensures Init(PassState(0)) && Lens(PassState(7)) == [1, 2, 2] && Lens(PassState(8)) == [1, 1, 3]
  {
    var s := PassState(0);
    forall c | 0 <= c < |s.cpus| ensures CpuInv(s, c) {}
  }

  lemma PassesScan(i: nat)
    requires i < 2
    ensures Follows(PassState(i), PassStep(i), PassState(i + 1))
  {
    assert Lens(PassState(i)) == [1, 3, 1];
  }

  lemma PassesChoose(i: nat)
    requires 2 <= i < 6
    ensures Follows(PassState(i), PassStep(i), PassState(i + 1))
  {
  }

  lemma FirstPassMoves()
    ensures Follows(PassState(6), Move(0), PassState(7))
  {
    var s := PassState(6);
    assert PosOf([1, 2, 3], 2) == 1 && SwapRemove([1, 2, 3], 1) == [1, 3];
    var m := MoveTask(s, 2, 1, 2);
    assert m.cpus[0] == s.cpus[0] && m.cpus[1] == Cpu([1, 3], 0, 1) && m.cpus[2] == Cpu([4, 2], 0, 4);
    assert m.cpus == PassState(7).cpus;
  }

  lemma SecondPassMoves()
    ensures Follows(PassState(7), Move(1), PassState(8)) && Moves(PassState(7), Move(1))
  {
    var s := PassState(7);
    assert PosOf([1, 3], 3) == 1 && SwapRemove([1, 3], 1) == [1];
    var m := MoveTask(s, 3, 1, 2);
    assert m.cpus[0] == s.cpus[0] && m.cpus[1] == Cpu([1], 0, 1) && m.cpus[2] == Cpu([4, 2, 3], 0, 4);
    assert m.cpus == PassState(8).cpus;
  }

  lemma PassFollows(i: nat)
    requires i < 8
    ensures Follows(PassState(i), PassStep(i), PassState(i + 1))
  {
    if i < 2 {
      PassesScan(i);
    } else if i < 6 {
      PassesChoose(i);
    } else if i == 6 {
      FirstPassMoves();
    } else {
      SecondPassMoves();
    }
  }

  lemma PassesRun(run: seq<State>, steps: seq<Step>)
    requires |run| == 9 && |steps| == 8
    requires forall i :: 0 <= i < 9 ==> run[i] == PassState(i)
    requires forall i :: 0 <= i < 8 ==> steps[i] == PassStep(i)
    ensures Run(run, steps)
  {
    PassesStart();
    assert Init(run[0]);
    forall i | 0 <= i < 8 ensures Enabled(run[i], steps[i]) && run[i + 1] == Do(run[i], steps[i]) {
      PassFollows(i);
      assert Follows(run[i], steps[i], run[i + 1]);
    }
  }

  lemma SecondPassRaises()
    ensures Imbalance(Lens(PassState(8))) > Imbalance(Lens(PassState(7)))
  {
    PassesStart();
    MoveChangesImbalance([1, 2, 2], 1, 2);
    assert Moved([1, 2, 2], 1, 2) == [1, 1, 3];
  }

  /** Two passes at once can undo each other: both scan lengths 3 and 1, both move, and the
      lengths go to 2 and 2 and on to 1 and 3.  One pass at a time is what the bounds above
      rest on; the code has a single caller, CPU0's tick. */
  lemma TwoPassesOvershoot() returns (run: seq<State>, steps: seq<Step>)
    ensures Run(run, steps) && |steps| == 8 && |run[0].calls| == 2
    ensures forall i :: 0 <= i < |steps| ==> !steps[i].Register? && !steps[i].CallMigrate?
    ensures Moves(run[7], steps[7]) && Imbalance(Lens(run[8])) > Imbalance(Lens(run[7]))
  {
    run := seq(9, i requires 0 <= i < 9 => PassState(i));
    steps := seq(8, i requires 0 <= i < 8 => PassStep(i));
    PassesRun(run, steps);
    SecondPassMoves();
    SecondPassRaises();
  }
}
