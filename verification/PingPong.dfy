/** The cross-CPU ping/pong tasks of kernel/smp.c as clients of the SMP kernel machine.
    Everything else the kernel does, on any number of CPUs, goes on around them. */
module PingPong {
  import opened Base
  import opened Kernel

  datatype Setup = Setup(ping: nat, pong: nat, toPong: nat, toPing: nat, rounds: nat)

  datatype PingPc = PingPost | PingPosting | PingWait | PingWaiting | PingCount | PingDone
  datatype PongPc = PongWait | PongWaiting | PongCount | PongPost | PongPosting

  /** The two program counters and the two shared counters pp_rounds_done and pp_pongs. */
  datatype Prog = Prog(ping: PingPc, pong: PongPc, rounds: nat, pongs: nat)

  datatype Sys = Sys(k: State, p: Prog)

  datatype Act =
    | KernelStep(step: Step)
    | CountRound   // pp_rounds_done = i + 1, then the loop test
    | CountPong    // pp_pongs++

  predicate Runs(s: State, t: nat) {
    t < |s.tasks| && s.tasks[t].phase.Out? && s.tasks[t].cpu < |s.cpus| && s.cpus[s.tasks[t].cpu].curr == t
  }

  /** The task whose sem_wait this step belongs to. */
  function Waiter(s: State, a: Step): nat
    requires a.WaitTake? || a.WaitBlock? || a.Return?
    requires a.cpu < |s.cpus|
  {
    s.cpus[a.cpu].curr
  }

  predicate By(s: State, a: Step, t: nat) {
    (a.WaitTake? || a.WaitBlock? || a.Return?) && a.cpu < |s.cpus| && Waiter(s, a) == t
  }

  /** Ping and pong follow their programs, and nobody else uses their semaphores. */
  predicate Follows(x: Setup, s: State, p: Prog, a: Step) {
    && (a == PostStart(x.toPong) ==> p.ping.PingPost? && Runs(s, x.ping))
    && (a == PostStart(x.toPing) ==> p.pong.PongPost? && Runs(s, x.pong))
    && (a.WaitTake? || a.WaitBlock? ==>
          && (By(s, a, x.ping) ==> a.sem == x.toPing && p.ping.PingWait?)
          && (By(s, a, x.pong) ==> a.sem == x.toPong && p.pong.PongWait?)
          && (a.sem == x.toPing ==> By(s, a, x.ping))
          && (a.sem == x.toPong ==> By(s, a, x.pong)))
  }

  function PingAfter(x: Setup, s: State, pc: PingPc, a: Step): PingPc {
    if a == PostStart(x.toPong) && x.toPong < |s.sems| then
      if s.sems[x.toPong].waiter.None? then PingWait else PingPosting
    else if a == PostEnd(x.toPong) then PingWait
    else if By(s, a, x.ping) then if a.WaitBlock? then PingWaiting else PingCount
    else pc
  }

  function PongAfter(x: Setup, s: State, pc: PongPc, a: Step): PongPc {
    if a == PostStart(x.toPing) && x.toPing < |s.sems| then
      if s.sems[x.toPing].waiter.None? then PongWait else PongPosting
    else if a == PostEnd(x.toPing) then PongWait
    else if By(s, a, x.pong) then if a.WaitBlock? then PongWaiting else PongCount
    else pc
  }

  predicate CanAct(x: Setup, y: Sys, act: Act) {
    match act
    case KernelStep(a) => Enabled(y.k, a) && Follows(x, y.k, y.p, a)
    case CountRound => y.p.ping.PingCount?
    case CountPong => y.p.pong.PongCount?
  }

  function DoAct(x: Setup, y: Sys, act: Act): Sys
    requires CanAct(x, y, act)
  {
    match act
    case KernelStep(a) =>
      Sys(Do(y.k, a), y.p.(ping := PingAfter(x, y.k, y.p.ping, a), pong := PongAfter(x, y.k, y.p.pong, a)))
    case CountRound =>
      y.(p := y.p.(rounds := y.p.rounds + 1, ping := if y.p.rounds + 1 < x.rounds then PingPost else PingDone))
    case CountPong => y.(p := y.p.(pongs := y.p.pongs + 1, pong := PongPost))
  }

  ghost predicate SetupOk(x: Setup, s: State) {
    && x.ping < |s.tasks| && x.pong < |s.tasks| && x.ping != x.pong
    && x.toPong < |s.sems| && x.toPing < |s.sems| && x.toPong != x.toPing
    && s.sems[x.toPong].initial == 0 && s.sems[x.toPing].initial == 0
  }

  ghost predicate RunOf(x: Setup, run: seq<Sys>, acts: seq<Act>) {
    && |run| == |acts| + 1
    && Init(run[0].k) && SetupOk(x, run[0].k)
    && run[0].p == Prog(if x.rounds > 0 then PingPost else PingDone, PongWait, 0, 0)
    && forall i :: 0 <= i < |acts| ==> CanAct(x, run[i], acts[i]) && run[i + 1] == DoAct(x, run[i], acts[i])
  }

  // ---- how the programs and the kernel's books fit together ---------------------------

  /** Ping alternates posts on toPong with returns from toPing. */
  ghost predicate PingBooks(x: Setup, y: Sys)
    requires SetupOk(x, y.k)
  {
    var posted, back := y.k.sems[x.toPong].posts, y.k.sems[x.toPing].finished;
    && posted == back + (if y.p.ping.PingPosting? || y.p.ping.PingWait? || y.p.ping.PingWaiting? then 1 else 0)
    && y.p.rounds + (if y.p.ping.PingCount? then 1 else 0) == back
  }

  /** Pong alternates returns from toPong with posts on toPing. */
  ghost predicate PongBooks(x: Setup, y: Sys)
    requires SetupOk(x, y.k)
  {
    var got, posted := y.k.sems[x.toPong].finished, y.k.sems[x.toPing].posts;
    && got == posted + (if y.p.pong.PongCount? || y.p.pong.PongPost? then 1 else 0)
    && y.p.pongs + (if y.p.pong.PongCount? then 1 else 0) == got
  }

  /** Program counters agree with the kernel's view of the two tasks and semaphores. */
  ghost predicate Linked(x: Setup, y: Sys)
    requires SetupOk(x, y.k)
  {
    && (if y.p.ping.PingWaiting? then WaitsOn(y.k.tasks[x.ping], x.toPing) else y.k.tasks[x.ping].phase.Out?)
    && (if y.p.pong.PongWaiting? then WaitsOn(y.k.tasks[x.pong], x.toPong) else y.k.tasks[x.pong].phase.Out?)
    && (y.k.sems[x.toPong].post.NoPost? <==> !y.p.ping.PingPosting?)
    && (y.k.sems[x.toPing].post.NoPost? <==> !y.p.pong.PongPosting?)
    && (forall t :: 0 <= t < |y.k.tasks| && WaitsOn(y.k.tasks[t], x.toPing) ==> t == x.ping)
    && (forall t :: 0 <= t < |y.k.tasks| && WaitsOn(y.k.tasks[t], x.toPong) ==> t == x.pong)
  }

  ghost predicate PPInv(x: Setup, y: Sys) {
    && Inv(y.k) && SetupOk(x, y.k) && PingBooks(x, y) && PongBooks(x, y) && Linked(x, y)
    && !Orphan(y.k, x.ping) && !Orphan(y.k, x.pong)
  }

  lemma WaitStepKeepsBooks(x: Setup, y: Sys, a: Step)
    requires PPInv(x, y) && CanAct(x, y, KernelStep(a)) && IsWaitStep(a)
    ensures var z := DoAct(x, y, KernelStep(a)); SetupOk(x, z.k) && PingBooks(x, z) && PongBooks(x, z)
  {
  }

  /** A step of sem_wait changes where its own caller stands, and no post under way. */
  ghost predicate WaitFrame(s: State, a: Step, r: State) {
    && IsWaitStep(a) && a.cpu < |s.cpus| && s.cpus[a.cpu].curr < |s.tasks|
    && |r.tasks| == |s.tasks| && |r.sems| == |s.sems|
    && var t := s.cpus[a.cpu].curr;
       && (forall u :: 0 <= u < |s.tasks| && u != t ==> r.tasks[u].phase == s.tasks[u].phase)
       && (forall k :: 0 <= k < |s.sems| ==> r.sems[k].post == s.sems[k].post && r.sems[k].initial == s.sems[k].initial)
       && (if a.WaitTake? then s.tasks[t].phase.Out? && r.tasks[t].phase.Out?
           else if a.Return? then !s.tasks[t].phase.Out? && r.tasks[t].phase.Out?
           else if a.WaitBlock? then s.tasks[t].phase.Out? && WaitsOn(r.tasks[t], a.sem)
           else !s.tasks[t].phase.Out? && WaitsOn(r.tasks[t], s.tasks[t].phase.sem))
  }

  lemma WaitStepFrame(s: State, a: Step)
    requires Inv(s) && Enabled(s, a) && IsWaitStep(a)
    ensures WaitFrame(s, a, Do(s, a))
  {
  }

  lemma FrameKeepsLinks(x: Setup, y: Sys, a: Step, z: Sys)
    requires SetupOk(x, y.k) && Linked(x, y) && Follows(x, y.k, y.p, a) && WaitFrame(y.k, a, z.k)
    requires z.p.ping == PingAfter(x, y.k, y.p.ping, a) && z.p.pong == PongAfter(x, y.k, y.p.pong, a)
    ensures SetupOk(x, z.k) && Linked(x, z)
  {
  }

  lemma WaitStepKeepsLinks(x: Setup, y: Sys, a: Step)
    requires PPInv(x, y) && CanAct(x, y, KernelStep(a)) && IsWaitStep(a)
    ensures var z := DoAct(x, y, KernelStep(a)); SetupOk(x, z.k) && Linked(x, z)
  {
    WaitStepFrame(y.k, a);
    FrameKeepsLinks(x, y, a, DoAct(x, y, KernelStep(a)));
  }

  lemma PostStepKeepsBooks(x: Setup, y: Sys, a: Step)
    requires PPInv(x, y) && CanAct(x, y, KernelStep(a)) && IsPostStep(a)
    ensures var z := DoAct(x, y, KernelStep(a)); SetupOk(x, z.k) && PingBooks(x, z) && PongBooks(x, z)
  {
  }

  /** A step of sem_post moves nobody in sem_wait and touches its own semaphore only. */
  ghost predicate PostFrame(s: State, a: Step, r: State) {
    && IsPostStep(a) && a.sem < |s.sems| && |r.tasks| == |s.tasks| && |r.sems| == |s.sems|
    && (forall u :: 0 <= u < |s.tasks| ==> r.tasks[u].phase == s.tasks[u].phase)
    && (forall k :: 0 <= k < |s.sems| && k != a.sem ==> r.sems[k] == s.sems[k])
    && r.sems[a.sem].initial == s.sems[a.sem].initial
    && (a.PostStart? ==> s.sems[a.sem].post.NoPost? && (r.sems[a.sem].post.NoPost? <==> s.sems[a.sem].waiter.None?))
    && (a.PostEnd? ==> !s.sems[a.sem].post.NoPost? && r.sems[a.sem].post.NoPost?)
    && (a.PostReadHome? || a.PostWake? ==> !s.sems[a.sem].post.NoPost? && !r.sems[a.sem].post.NoPost?)
  }

  lemma PostStepFrame(s: State, a: Step)
    requires Inv(s) && Enabled(s, a) && IsPostStep(a)
    ensures PostFrame(s, a, Do(s, a))
  {
  }

  lemma PostFrameKeepsLinks(x: Setup, y: Sys, a: Step, z: Sys)
    requires SetupOk(x, y.k) && Linked(x, y) && Follows(x, y.k, y.p, a) && PostFrame(y.k, a, z.k)
    requires z.p.ping == PingAfter(x, y.k, y.p.ping, a) && z.p.pong == PongAfter(x, y.k, y.p.pong, a)
    ensures SetupOk(x, z.k) && Linked(x, z)
  {
  }

  lemma PostStepKeepsLinks(x: Setup, y: Sys, a: Step)
    requires PPInv(x, y) && CanAct(x, y, KernelStep(a)) && IsPostStep(a)
    ensures var z := DoAct(x, y, KernelStep(a)); SetupOk(x, z.k) && Linked(x, z)
  {
    PostStepFrame(y.k, a);
    PostFrameKeepsLinks(x, y, a, DoAct(x, y, KernelStep(a)));
  }

  /** Scheduling, registering and migrating leave semaphores and waiting tasks alone. */
  lemma OtherStepFrame(s: State, a: Step)
    requires Inv(s) && Enabled(s, a) && !IsWaitStep(a) && !IsPostStep(a)
    ensures var r := Do(s, a);
      && r.sems == s.sems && |r.tasks| == |s.tasks|
      && (forall u :: 0 <= u < |s.tasks| ==> r.tasks[u].phase == s.tasks[u].phase)
  {
  }

  lemma OtherStepKeeps(x: Setup, y: Sys, a: Step)
    requires PPInv(x, y) && CanAct(x, y, KernelStep(a)) && !IsWaitStep(a) && !IsPostStep(a)
    ensures var z := DoAct(x, y, KernelStep(a)); SetupOk(x, z.k) && PingBooks(x, z) && PongBooks(x, z) && Linked(x, z)
  {
    OtherStepFrame(y.k, a);
    assert DoAct(x, y, KernelStep(a)).p == y.p;
  }

  lemma OrphansKeep(x: Setup, y: Sys, a: Step, t: nat)
    requires PPInv(x, y) && CanAct(x, y, KernelStep(a)) && (t == x.ping || t == x.pong)
    ensures !Orphan(Do(y.k, a), t)
  {
    if OverwritesWaiter(y.k, a) {
      // only a wait on some other semaphore can; t waits on toPing or toPong if at all
      assert TaskInv(y.k, t) && SemInv(y.k, a.sem);
    } else {
      StepsAndOrphans(y.k, a, t);
    }
  }

  lemma ActKeepsInv(x: Setup, y: Sys, act: Act)
    requires PPInv(x, y) && CanAct(x, y, act)
    ensures PPInv(x, DoAct(x, y, act))
  {
    if act.KernelStep? {
      var a := act.step;
      StepKeepsInv(y.k, a);
      OrphansKeep(x, y, a, x.ping);
      OrphansKeep(x, y, a, x.pong);
      if IsWaitStep(a) {
        WaitStepKeepsBooks(x, y, a);
        WaitStepKeepsLinks(x, y, a);
      } else if IsPostStep(a) {
        PostStepKeepsBooks(x, y, a);
        PostStepKeepsLinks(x, y, a);
      } else {
        OtherStepKeeps(x, y, a);
      }
    }
  }

  lemma {:induction false} RunKeepsPPInv(x: Setup, run: seq<Sys>, acts: seq<Act>, i: nat)
    requires RunOf(x, run, acts) && i < |run|
    ensures PPInv(x, run[i])
  {
    if i == 0 {
      InitInv(run[0].k);
    } else {
      RunKeepsPPInv(x, run, acts, i - 1);
      ActKeepsInv(x, run[i - 1], acts[i - 1]);
      assert run[i - 1 + 1] == DoAct(x, run[i - 1], acts[i - 1]);
    }
  }

  // ---- what every run promises --------------------------------------------------------

  /** Signals inside semaphore k: counted, or granted to a task that has not returned yet. */
  ghost function InFlight(s: State, k: nat): int
    requires k < |s.sems|
  {
    s.sems[k].count + |Granted(s, k)|
  }

  /** One token: at every moment of every run it is in exactly one of four places, namely
      with ping, in toPong, with pong, or in toPing. */
  lemma OneToken(x: Setup, run: seq<Sys>, acts: seq<Act>, i: nat)
    requires RunOf(x, run, acts) && i < |run|
    ensures SetupOk(x, run[i].k)
    ensures var y := run[i];
      var atPing := if y.p.ping.PingPost? || y.p.ping.PingCount? || y.p.ping.PingDone? then 1 else 0;
      var atPong := if y.p.pong.PongCount? || y.p.pong.PongPost? then 1 else 0;
      && atPing + InFlight(y.k, x.toPong) + atPong + InFlight(y.k, x.toPing) == 1
      && InFlight(y.k, x.toPong) >= 0 && InFlight(y.k, x.toPing) >= 0
  {
    RunKeepsPPInv(x, run, acts, i);
    assert SemInv(run[i].k, x.toPong) && SemInv(run[i].k, x.toPing);
  }

  /** Both counts stay within 0..1, and pongs is rounds or rounds + 1. */
  lemma CountersStayClose(x: Setup, run: seq<Sys>, acts: seq<Act>, i: nat)
    requires RunOf(x, run, acts) && i < |run|
    ensures SetupOk(x, run[i].k)
    ensures 0 <= run[i].k.sems[x.toPong].count <= 1 && 0 <= run[i].k.sems[x.toPing].count <= 1
    ensures run[i].p.rounds <= run[i].p.pongs <= run[i].p.rounds + 1
  {
    RunKeepsPPInv(x, run, acts, i);
    OneToken(x, run, acts, i);
    assert SemInv(run[i].k, x.toPong) && SemInv(run[i].k, x.toPing);
  }

  /** A BLOCKED pong owns no grant of toPong unless a post is under way, and so for ping. */
  lemma BlockedOwnNothing(x: Setup, y: Sys)
    requires PPInv(x, y)
    ensures !y.k.tasks[x.pong].ready && y.k.sems[x.toPong].post.NoPost? ==> Granted(y.k, x.toPong) == {}
    ensures !y.k.tasks[x.ping].ready && y.k.sems[x.toPing].post.NoPost? ==> Granted(y.k, x.toPing) == {}
  {
  }

  /** Ping and pong are never both BLOCKED, in any interleaving on any number of CPUs. */
  lemma NeverBothBlocked(x: Setup, run: seq<Sys>, acts: seq<Act>, i: nat)
    requires RunOf(x, run, acts) && i < |run|
    ensures SetupOk(x, run[i].k)
    ensures run[i].k.tasks[x.ping].ready || run[i].k.tasks[x.pong].ready
  {
    RunKeepsPPInv(x, run, acts, i);
    OneToken(x, run, acts, i);
    BlockedOwnNothing(x, run[i]);
    var s := run[i].k;
    assert TaskInv(s, x.ping) && TaskInv(s, x.pong);
    assert SemInv(s, x.toPong) && SemInv(s, x.toPing);
  }
}
