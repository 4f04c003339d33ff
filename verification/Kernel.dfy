/** The SMP kernel as a machine over its steps: per-CPU run queues, sem_wait and sem_post
    from any CPU or handler, cross-CPU sched_wake, preemption and yield, and migration.

    Grain.  A critical section under one spinlock is one step, and everything between two
    sections interleaves: in sem_post the clearing of the waiter, the unlocked read of
    `t->cpu`, the section that makes the task READY and the release of the semaphore are
    four steps.  Choosing the next task, writing `current` and saving the old context are
    taken as one step, because the queue lock alone does not cover the gap between them
    (kernel/sched.c:139 against kernel/sync.c:75); the finer grain, without migration, is
    module ContextSwitch. */
module Kernel {
  import opened Base
  import opened QueueSpec

  /** Where a task stands in sem_wait. */
  datatype Phase =
    | Out                 // not waiting
    | Blocking(sem: nat)  // registered and BLOCKED, IRQ masked, about to pick the next task
    | Wfe(sem: nat)       // nobody else was runnable: polls its own state with IRQs open
    | Switched(sem: nat)  // inside switch_to: returns as soon as it is switched back in

  datatype Task = Task(ready: bool, cpu: nat, pinned: bool, phase: Phase)

  datatype Cpu = Cpu(queue: seq<nat>, idx: nat, curr: nat)

  /** How far the sem_post that holds the semaphore's lock has come. */
  datatype PostPhase =
    | NoPost                       // lock free
    | Cleared(task: nat)           // waiter taken out of the slot
    | HomeRead(task: nat, cpu: nat) // sched_wake has read t->cpu
    | Woken                        // task READY, lock still held

  /** count, waiter and the lock's holder; the last four fields are history. */
  datatype Semaphore = Semaphore(count: int, waiter: Option<nat>, post: PostPhase,
                                 initial: int, posts: nat, grants: nat, finished: nat)

  /** How far a sched_load_balance_pass / sched_migrate call has come. */
  datatype Call =
    | NoCall
    | Scanned(busiest: nat, idlest: nat)         // queue lengths compared
    | Chosen(task: nat, dst: nat)                // sched_migrate entered
    | SourceRead(task: nat, src: nat, dst: nat)  // src_cpu = t->cpu read, locks not yet taken

  datatype State = State(cpus: seq<Cpu>, tasks: seq<Task>, sems: seq<Semaphore>, calls: seq<Call>)

  datatype Step =
    | WaitTake(cpu: nat, sem: nat)       // sem_wait with count > 0
    | WaitBlock(cpu: nat, sem: nat)      // sem_wait registers the caller and marks it BLOCKED
    | SwitchAway(cpu: nat, pos: nat)     // block_current_and_switch picks queue entry pos
    | Return(cpu: nat)                   // sem_wait returns after blocking
    | Preempt(cpu: nat, pos: nat)        // timer tick or yield picks queue entry pos
    | PostStart(sem: nat)                // sem_post: count++ or take the waiter out
    | PostReadHome(sem: nat)             // sched_wake reads t->cpu without a lock
    | PostWake(sem: nat)                 // sched_wake's section: t->state = 0
    | PostEnd(sem: nat)                  // sem_post releases the semaphore
    | Register(cpu: nat, task: nat)      // sched_register_on with a fresh task
    | Scan(call: nat, busiest: nat, idlest: nat)
    | Choose(call: nat, task: nat)       // the balance pass takes a victim
    | GiveUp(call: nat)                  // no victim: the balance pass returns
    | CallMigrate(call: nat, task: nat, dst: nat)
    | ReadSource(call: nat)
    | Move(call: nat)                    // sched_migrate's section under both queue locks

  // ---- reading the state --------------------------------------------------------------

  predicate WaitsOn(t: Task, k: nat) {
    !t.phase.Out? && t.phase.sem == k
  }

  /** The post holding this semaphore has taken t out of the waiter slot but not yet woken it. */
  predicate Targets(m: Semaphore, t: nat) {
    (m.post.Cleared? || m.post.HomeRead?) && m.post.task == t
  }

  function Lens(s: State): (r: seq<nat>)
    ensures |r| == |s.cpus|
  {
    seq(|s.cpus|, c requires 0 <= c < |s.cpus| => |s.cpus[c].queue|)
  }

  /** What pick_next_ready may return: a READY member of the CPU's own queue, or the
      current task when the queue has no READY member. */
  predicate Picks(s: State, c: nat, pos: nat) {
    && c < |s.cpus| && pos < |s.cpus[c].queue|
    && s.cpus[c].queue[pos] < |s.tasks|
    && (|| s.tasks[s.cpus[c].queue[pos]].ready
        || (&& s.cpus[c].queue[pos] == s.cpus[c].curr
            && forall t :: t in s.cpus[c].queue && t < |s.tasks| ==> !s.tasks[t].ready))
  }

  predicate SemFree(s: State, k: nat) {
    k < |s.sems| && s.sems[k].post.NoPost?
  }

  predicate CurrentIs(s: State, c: nat) {
    c < |s.cpus| && s.cpus[c].curr < |s.tasks|
  }

  function Current(s: State, c: nat): Task
    requires CurrentIs(s, c)
  {
    s.tasks[s.cpus[c].curr]
  }

  predicate Registered(s: State, t: nat) {
    exists c :: 0 <= c < |s.cpus| && t in s.cpus[c].queue
  }

  /** sched_migrate's test under both locks, with src the possibly stale home. */
  predicate MayMove(s: State, t: nat, src: nat, dst: nat) {
    && t < |s.tasks| && src < |s.cpus| && dst < |s.cpus| && dst != src && dst != 0
    && s.tasks[t].ready && t != s.cpus[src].curr
    && t in s.cpus[src].queue && |s.cpus[dst].queue| < MAX_TASKS
  }

  function PosOf(q: seq<nat>, t: nat): (i: nat)
    requires t in q
    ensures i < |q| && q[i] == t
  {
    if q[0] == t then 0 else 1 + PosOf(q[1..], t)
  }

  // ---- the steps ----------------------------------------------------------------------

  predicate Enabled(s: State, a: Step) {
    match a
    case WaitTake(c, k) => CurrentIs(s, c) && Current(s, c).phase.Out? && SemFree(s, k) && s.sems[k].count > 0
    case WaitBlock(c, k) => CurrentIs(s, c) && Current(s, c).phase.Out? && SemFree(s, k) && s.sems[k].count <= 0
    case SwitchAway(c, pos) => CurrentIs(s, c) && Current(s, c).phase.Blocking? && Picks(s, c, pos)
    case Return(c) =>
      && CurrentIs(s, c)
      && var t := Current(s, c);
         (t.phase.Switched? || (t.phase.Wfe? && t.ready)) && t.phase.sem < |s.sems|
    case Preempt(c, pos) =>
      CurrentIs(s, c) && (Current(s, c).phase.Out? || Current(s, c).phase.Wfe?) && Picks(s, c, pos)
    case PostStart(k) => SemFree(s, k)
    case PostReadHome(k) => k < |s.sems| && s.sems[k].post.Cleared? && s.sems[k].post.task < |s.tasks|
    case PostWake(k) => k < |s.sems| && s.sems[k].post.HomeRead? && s.sems[k].post.task < |s.tasks|
    case PostEnd(k) => k < |s.sems| && s.sems[k].post.Woken?
    case Register(c, t) => c < |s.cpus| && t < |s.tasks| && !Registered(s, t) && |s.cpus[c].queue| < MAX_TASKS
    case Scan(i, b, l) =>
      && i < |s.calls| && s.calls[i].NoCall?
      && IsBusiest(Lens(s), b) && IsIdlest(Lens(s), l) && Lens(s)[b] - Lens(s)[l] >= 2
    case Choose(i, t) =>
      && i < |s.calls| && s.calls[i].Scanned? && t < |s.tasks| && s.calls[i].busiest < |s.cpus|
      && t in s.cpus[s.calls[i].busiest].queue && t != s.cpus[s.calls[i].busiest].curr
      && s.tasks[t].ready && !s.tasks[t].pinned
    case GiveUp(i) => i < |s.calls| && s.calls[i].Scanned?
    case CallMigrate(i, t, dst) => i < |s.calls| && s.calls[i].NoCall? && t < |s.tasks| && dst < |s.cpus|
    case ReadSource(i) => i < |s.calls| && s.calls[i].Chosen? && s.calls[i].task < |s.tasks|
    case Move(i) => i < |s.calls| && s.calls[i].SourceRead?
  }

  function PickTo(s: State, c: nat, pos: nat): State
    requires c < |s.cpus| && pos < |s.cpus[c].queue|
  {
    s.(cpus := s.cpus[c := s.cpus[c].(idx := pos, curr := s.cpus[c].queue[pos])])
  }

  function MoveTask(s: State, t: nat, src: nat, dst: nat): State
    requires MayMove(s, t, src, dst)
  {
    var q := SwapRemove(s.cpus[src].queue, PosOf(s.cpus[src].queue, t));
    s.(cpus := s.cpus[src := s.cpus[src].(queue := q, idx := ClampIdx(s.cpus[src].idx, |q|))]
                     [dst := s.cpus[dst].(queue := s.cpus[dst].queue + [t])],
       tasks := s.tasks[t := s.tasks[t].(cpu := dst)])
  }

  function Do(s: State, a: Step): State
    requires Enabled(s, a)
  {
    match a
    case WaitTake(_, k) =>
      var m := s.sems[k];
      s.(sems := s.sems[k := m.(count := m.count - 1, grants := m.grants + 1, finished := m.finished + 1)])
    case WaitBlock(c, k) =>
      var t := s.cpus[c].curr;
      s.(tasks := s.tasks[t := s.tasks[t].(ready := false, phase := Blocking(k))],
         sems := s.sems[k := s.sems[k].(waiter := Some(t))])
    case SwitchAway(c, pos) =>
      var t := s.cpus[c].curr;
      var k := s.tasks[t].phase.sem;
      PickTo(s, c, pos).(tasks := s.tasks[t := s.tasks[t].(phase := if s.cpus[c].queue[pos] == t then Wfe(k) else Switched(k))])
    case Return(c) =>
      var t := s.cpus[c].curr;
      var k := s.tasks[t].phase.sem;
      s.(tasks := s.tasks[t := s.tasks[t].(phase := Out)],
         sems := s.sems[k := s.sems[k].(finished := s.sems[k].finished + 1)])
    case Preempt(c, pos) => PickTo(s, c, pos)
    case PostStart(k) =>
      var m := s.sems[k];
      (match m.waiter
       case None => s.(sems := s.sems[k := m.(count := m.count + 1, posts := m.posts + 1)])
       case Some(w) => s.(sems := s.sems[k := m.(waiter := None, post := Cleared(w), posts := m.posts + 1, grants := m.grants + 1)]))
    case PostReadHome(k) =>
      var w := s.sems[k].post.task;
      s.(sems := s.sems[k := s.sems[k].(post := HomeRead(w, s.tasks[w].cpu))])
    case PostWake(k) =>
      var w := s.sems[k].post.task;
      s.(tasks := s.tasks[w := s.tasks[w].(ready := true)], sems := s.sems[k := s.sems[k].(post := Woken)])
    case PostEnd(k) => s.(sems := s.sems[k := s.sems[k].(post := NoPost)])
    case Register(c, t) =>
      s.(cpus := s.cpus[c := s.cpus[c].(queue := s.cpus[c].queue + [t])], tasks := s.tasks[t := s.tasks[t].(cpu := c)])
    case Scan(i, b, l) => s.(calls := s.calls[i := Scanned(b, l)])
    case Choose(i, t) => s.(calls := s.calls[i := Chosen(t, s.calls[i].idlest)])
    case GiveUp(i) => s.(calls := s.calls[i := NoCall])
    case CallMigrate(i, t, dst) => s.(calls := s.calls[i := Chosen(t, dst)])
    case ReadSource(i) =>
      var t := s.calls[i].task;
      s.(calls := s.calls[i := SourceRead(t, s.tasks[t].cpu, s.calls[i].dst)])
    case Move(i) =>
      var SourceRead(t, src, dst) := s.calls[i];
      (if MayMove(s, t, src, dst) then MoveTask(s, t, src, dst) else s).(calls := s.calls[i := NoCall])
  }

  /** Boot: every CPU's current task is in its own queue, nobody waits, nobody posts. */
  ghost predicate Init(s: State) {
    && QueuesInv(s)
    && (forall t :: 0 <= t < |s.tasks| ==> s.tasks[t].ready && s.tasks[t].phase.Out?)
    && (forall k :: 0 <= k < |s.sems| ==>
          var m := s.sems[k];
          m.count == m.initial && m.waiter.None? && m.post.NoPost? && m.posts == 0 && m.grants == 0 && m.finished == 0)
    && (forall i :: 0 <= i < |s.calls| ==> s.calls[i].NoCall?)
  }

  /** A run: run[i] takes steps[i] to run[i + 1]. */
  ghost predicate Run(run: seq<State>, steps: seq<Step>) {
    && |run| == |steps| + 1 && Init(run[0])
    && forall i :: 0 <= i < |steps| ==> Enabled(run[i], steps[i]) && run[i + 1] == Do(run[i], steps[i])
  }

  // ---- invariants of every run --------------------------------------------------------

  ghost predicate CpuInv(s: State, c: nat)
    requires c < |s.cpus|
  {
    var u := s.cpus[c];
    && |u.queue| <= MAX_TASKS && u.idx < |u.queue| && u.curr in u.queue && Distinct(u.queue)
    && forall t :: t in u.queue ==> t < |s.tasks| && s.tasks[t].cpu == c
  }

  /** Every queue is within its bounds, holds each task once, and names its tasks' home. */
  ghost predicate QueuesInv(s: State) {
    forall c :: 0 <= c < |s.cpus| ==> CpuInv(s, c)
  }

  ghost predicate IsCurrent(s: State, t: nat)
    requires t < |s.tasks|
  {
    s.tasks[t].cpu < |s.cpus| && s.cpus[s.tasks[t].cpu].curr == t
  }

  ghost predicate TaskInv(s: State, t: nat)
    requires t < |s.tasks|
  {
    var x := s.tasks[t];
    && (x.phase.Out? ==> x.ready)
    && (!x.phase.Out? ==> x.phase.sem < |s.sems| && x.cpu < |s.cpus| && t in s.cpus[x.cpu].queue)
    && (x.phase.Blocking? ==> IsCurrent(s, t))
    && (x.phase.Switched? && IsCurrent(s, t) ==> x.ready)
  }

  ghost predicate TasksInv(s: State) {
    forall t :: 0 <= t < |s.tasks| ==> TaskInv(s, t)
  }

  /** The tasks that own a grant of semaphore k but have not yet returned with it. */
  ghost function Granted(s: State, k: nat): set<nat>
    requires k < |s.sems|
  {
    set t | 0 <= t < |s.tasks| && WaitsOn(s.tasks[t], k) && (s.tasks[t].ready || Targets(s.sems[k], t))
  }

  ghost predicate SemInv(s: State, k: nat)
    requires k < |s.sems|
  {
    var m := s.sems[k];
    && (m.waiter.Some? ==>
          && m.waiter.value < |s.tasks| && !s.tasks[m.waiter.value].ready && WaitsOn(s.tasks[m.waiter.value], k)
          && m.count <= 0 && !Targets(m, m.waiter.value))
    && (m.post.Cleared? || m.post.HomeRead? ==>
          m.post.task < |s.tasks| && !s.tasks[m.post.task].ready && WaitsOn(s.tasks[m.post.task], k))
    && (m.post.HomeRead? ==> s.tasks[m.post.task].cpu == m.post.cpu)
    && m.initial + m.posts == m.count + m.grants
    && m.grants == m.finished + |Granted(s, k)|
    && (m.initial >= 0 ==> m.count >= 0)
  }

  ghost predicate SemsInv(s: State) {
    forall k :: 0 <= k < |s.sems| ==> SemInv(s, k)
  }

  ghost predicate Inv(s: State) {
    QueuesInv(s) && TasksInv(s) && SemsInv(s)
  }

  lemma MoveKeepsQueues(s: State, t: nat, src: nat, dst: nat)
    requires QueuesInv(s) && MayMove(s, t, src, dst)
    ensures QueuesInv(MoveTask(s, t, src, dst))
    ensures var r := MoveTask(s, t, src, dst);
      forall c, u :: 0 <= c < |s.cpus| ==> (u in r.cpus[c].queue <==> if u == t then c == dst else u in s.cpus[c].queue)
  {
    assert CpuInv(s, src) && CpuInv(s, dst);
    var r := MoveTask(s, t, src, dst);
    SwapRemoveContents(s.cpus[src].queue, PosOf(s.cpus[src].queue, t));
    forall c | 0 <= c < |s.cpus|
      ensures CpuInv(r, c)
      ensures forall u :: u in r.cpus[c].queue <==> if u == t then c == dst else u in s.cpus[c].queue
    {
      assert CpuInv(s, c);
    }
  }

  // Frame lemmas: what a step does not touch stays as it was.

  /** Queues untouched and no home changed. */
  ghost predicate SameHomes(s: State, r: State) {
    && r.cpus == s.cpus && |r.tasks| == |s.tasks|
    && forall t :: 0 <= t < |s.tasks| ==> r.tasks[t].cpu == s.tasks[t].cpu
  }

  lemma QueuesFrame(s: State, r: State)
    requires QueuesInv(s) && SameHomes(s, r)
    ensures QueuesInv(r)
  {
    forall c | 0 <= c < |r.cpus| ensures CpuInv(r, c) {
      assert CpuInv(s, c);
    }
  }

  /** Semaphore k untouched, and so is everybody who waits on it. */
  ghost predicate SameWaiters(s: State, r: State, k: nat)
    requires k < |s.sems| && k < |r.sems|
  {
    && r.sems[k] == s.sems[k] && |r.tasks| == |s.tasks|
    && forall t :: 0 <= t < |s.tasks| ==>
         && (WaitsOn(r.tasks[t], k) <==> WaitsOn(s.tasks[t], k))
         && (WaitsOn(s.tasks[t], k) ==>
               r.tasks[t].ready == s.tasks[t].ready && (!s.tasks[t].ready ==> r.tasks[t].cpu == s.tasks[t].cpu))
  }

  lemma SemFrame(s: State, r: State, k: nat)
    requires k < |s.sems| && k < |r.sems| && SemInv(s, k) && SameWaiters(s, r, k)
    ensures SemInv(r, k)
  {
    assert Granted(r, k) == Granted(s, k);
  }

  /** One semaphore is rewritten and its set of granted tasks changes by one or not at all. */
  lemma SemAccount(s: State, r: State, k: nat, gained: set<nat>, lost: set<nat>)
    requires k < |s.sems| && k < |r.sems| && SemInv(s, k)
    requires gained !! Granted(s, k) && lost <= Granted(s, k)
    requires Granted(r, k) == (Granted(s, k) - lost) + gained
    ensures |Granted(r, k)| == |Granted(s, k)| - |lost| + |gained|
  {
    assert (Granted(s, k) - lost) !! gained;
  }

  // One lemma per step.

  lemma WaitTakeKeeps(s: State, c: nat, k: nat)
    requires Inv(s) && Enabled(s, WaitTake(c, k))
    ensures Inv(Do(s, WaitTake(c, k)))
  {
    var r := Do(s, WaitTake(c, k));
    QueuesFrame(s, r);
    assert forall t :: 0 <= t < |s.tasks| ==> TaskInv(s, t) && TaskInv(r, t);
    assert SemInv(s, k) && Granted(r, k) == Granted(s, k);
    forall j | 0 <= j < |r.sems| && j != k ensures SemInv(r, j) { SemFrame(s, r, j); }
  }

  lemma WaitBlockKeeps(s: State, c: nat, k: nat)
    requires Inv(s) && Enabled(s, WaitBlock(c, k))
    ensures Inv(Do(s, WaitBlock(c, k)))
  {
    var r := Do(s, WaitBlock(c, k));
    var t := s.cpus[c].curr;
    assert CpuInv(s, c) && TaskInv(s, t);
    QueuesFrame(s, r);
    forall u | 0 <= u < |s.tasks| ensures TaskInv(r, u) { assert TaskInv(s, u); }
    assert SemInv(s, k) && Granted(r, k) == Granted(s, k);
    forall j | 0 <= j < |r.sems| && j != k ensures SemInv(r, j) { SemFrame(s, r, j); }
  }

  lemma PickKeepsQueues(s: State, c: nat, pos: nat)
    requires QueuesInv(s) && Picks(s, c, pos)
    ensures QueuesInv(PickTo(s, c, pos))
  {
    forall d | 0 <= d < |s.cpus| ensures CpuInv(PickTo(s, c, pos), d) { assert CpuInv(s, d); }
  }

  lemma SwitchAwayKeeps(s: State, c: nat, pos: nat)
    requires Inv(s) && Enabled(s, SwitchAway(c, pos))
    ensures Inv(Do(s, SwitchAway(c, pos)))
  {
    var r := Do(s, SwitchAway(c, pos));
    var t := s.cpus[c].curr;
    assert CpuInv(s, c) && TaskInv(s, t);
    PickKeepsQueues(s, c, pos);
    forall d | 0 <= d < |r.cpus| ensures CpuInv(r, d) { assert CpuInv(PickTo(s, c, pos), d); }
    forall u | 0 <= u < |s.tasks| ensures TaskInv(r, u) {
      assert TaskInv(s, u);
      if u in s.cpus[c].queue { assert s.tasks[u].cpu == c; }
    }
    forall j | 0 <= j < |r.sems| ensures SemInv(r, j) { SemFrame(s, r, j); }
  }

  lemma PreemptKeeps(s: State, c: nat, pos: nat)
    requires Inv(s) && Enabled(s, Preempt(c, pos))
    ensures Inv(Do(s, Preempt(c, pos)))
  {
    var r := Do(s, Preempt(c, pos));
    assert CpuInv(s, c);
    PickKeepsQueues(s, c, pos);
    forall u | 0 <= u < |s.tasks| ensures TaskInv(r, u) {
      assert TaskInv(s, u);
      if u in s.cpus[c].queue { assert s.tasks[u].cpu == c; }
    }
    forall j | 0 <= j < |r.sems| ensures SemInv(r, j) { SemFrame(s, r, j); }
  }

  /** The task that returns owns exactly one grant of its semaphore. */
  lemma ReturnerIsGranted(s: State, c: nat)
    requires Inv(s) && Enabled(s, Return(c))
    ensures s.cpus[c].curr in Granted(s, Current(s, c).phase.sem)
  {
    assert CpuInv(s, c) && TaskInv(s, s.cpus[c].curr);
  }

  lemma ReturnKeepsItsSem(s: State, c: nat)
    requires Inv(s) && Enabled(s, Return(c))
    ensures SemInv(Do(s, Return(c)), Current(s, c).phase.sem)
  {
    var r := Do(s, Return(c));
    var t := s.cpus[c].curr;
    var k := s.tasks[t].phase.sem;
    ReturnerIsGranted(s, c);
    assert CpuInv(s, c) && TaskInv(s, t) && SemInv(s, k);
    assert Granted(r, k) == Granted(s, k) - {t} + {};
    SemAccount(s, r, k, {}, {t});
  }

  lemma ReturnKeeps(s: State, c: nat)
    requires Inv(s) && Enabled(s, Return(c))
    ensures Inv(Do(s, Return(c)))
  {
    var r := Do(s, Return(c));
    var t := s.cpus[c].curr;
    ReturnerIsGranted(s, c);
    assert CpuInv(s, c) && TaskInv(s, t) && s.tasks[t].ready;
    QueuesFrame(s, r);
    forall u | 0 <= u < |s.tasks| ensures TaskInv(r, u) { assert TaskInv(s, u); }
    ReturnKeepsItsSem(s, c);
    forall j | 0 <= j < |r.sems| && j != s.tasks[t].phase.sem ensures SemInv(r, j) { SemFrame(s, r, j); }
  }

  lemma PostStartKeepsItsSem(s: State, k: nat)
    requires Inv(s) && Enabled(s, PostStart(k))
    ensures SemInv(Do(s, PostStart(k)), k)
  {
    var r := Do(s, PostStart(k));
    assert SemInv(s, k);
    if s.sems[k].waiter.Some? {
      var w := s.sems[k].waiter.value;
      assert Granted(r, k) == Granted(s, k) - {} + {w};
      SemAccount(s, r, k, {w}, {});
    } else {
      assert Granted(r, k) == Granted(s, k);
    }
  }

  lemma PostStartKeeps(s: State, k: nat)
    requires Inv(s) && Enabled(s, PostStart(k))
    ensures Inv(Do(s, PostStart(k)))
  {
    var r := Do(s, PostStart(k));
    QueuesFrame(s, r);
    forall u | 0 <= u < |s.tasks| ensures TaskInv(r, u) { assert TaskInv(s, u); }
    PostStartKeepsItsSem(s, k);
    forall j | 0 <= j < |r.sems| && j != k ensures SemInv(r, j) { SemFrame(s, r, j); }
  }

  lemma PostReadHomeKeeps(s: State, k: nat)
    requires Inv(s) && Enabled(s, PostReadHome(k))
    ensures Inv(Do(s, PostReadHome(k)))
  {
    var r := Do(s, PostReadHome(k));
    QueuesFrame(s, r);
    forall u | 0 <= u < |s.tasks| ensures TaskInv(r, u) { assert TaskInv(s, u); }
    assert SemInv(s, k) && Granted(r, k) == Granted(s, k);
    forall j | 0 <= j < |r.sems| && j != k ensures SemInv(r, j) { SemFrame(s, r, j); }
  }

  lemma PostWakeKeeps(s: State, k: nat)
    requires Inv(s) && Enabled(s, PostWake(k))
    ensures Inv(Do(s, PostWake(k)))
  {
    var r := Do(s, PostWake(k));
    QueuesFrame(s, r);
    forall u | 0 <= u < |s.tasks| ensures TaskInv(r, u) { assert TaskInv(s, u); }
    assert SemInv(s, k) && Granted(r, k) == Granted(s, k);
    forall j | 0 <= j < |r.sems| && j != k ensures SemInv(r, j) { SemFrame(s, r, j); }
  }

  lemma PostEndKeeps(s: State, k: nat)
    requires Inv(s) && Enabled(s, PostEnd(k))
    ensures Inv(Do(s, PostEnd(k)))
  {
    var r := Do(s, PostEnd(k));
    QueuesFrame(s, r);
    forall u | 0 <= u < |s.tasks| ensures TaskInv(r, u) { assert TaskInv(s, u); }
    assert SemInv(s, k) && Granted(r, k) == Granted(s, k);
    forall j | 0 <= j < |r.sems| && j != k ensures SemInv(r, j) { SemFrame(s, r, j); }
  }

  lemma RegisterKeeps(s: State, c: nat, t: nat)
    requires Inv(s) && Enabled(s, Register(c, t))
    ensures Inv(Do(s, Register(c, t)))
  {
    var r := Do(s, Register(c, t));
    forall d | 0 <= d < |r.cpus| ensures CpuInv(r, d) {
      assert CpuInv(s, d) && t !in s.cpus[d].queue;
    }
    assert TaskInv(s, t) && s.tasks[t].phase.Out?;
    forall u | 0 <= u < |s.tasks| ensures TaskInv(r, u) { assert TaskInv(s, u); }
    forall j | 0 <= j < |r.sems| ensures SemInv(r, j) { SemFrame(s, r, j); }
  }

  lemma CallsKeep(s: State, r: State)
    requires Inv(s) && r == s.(calls := r.calls)
    ensures Inv(r)
  {
    QueuesFrame(s, r);
    forall u | 0 <= u < |s.tasks| ensures TaskInv(r, u) { assert TaskInv(s, u); }
    forall j | 0 <= j < |r.sems| ensures SemInv(r, j) { SemFrame(s, r, j); }
  }

  lemma MoveKeeps(s: State, t: nat, src: nat, dst: nat)
    requires Inv(s) && MayMove(s, t, src, dst)
    ensures Inv(MoveTask(s, t, src, dst))
  {
    var r := MoveTask(s, t, src, dst);
    MoveKeepsQueues(s, t, src, dst);
    assert CpuInv(s, src) && CpuInv(s, dst);
    forall u | 0 <= u < |s.tasks| ensures TaskInv(r, u) {
      assert TaskInv(s, u);
    }
    forall j | 0 <= j < |r.sems| ensures SemInv(r, j) { SemFrame(s, r, j); }
  }

  lemma StepKeepsInv(s: State, a: Step)
    requires Inv(s) && Enabled(s, a)
    ensures Inv(Do(s, a))
  {
    match a {
      case WaitTake(c, k) => WaitTakeKeeps(s, c, k);
      case WaitBlock(c, k) => WaitBlockKeeps(s, c, k);
      case SwitchAway(c, pos) => SwitchAwayKeeps(s, c, pos);
      case Return(c) => ReturnKeeps(s, c);
      case Preempt(c, pos) => PreemptKeeps(s, c, pos);
      case PostStart(k) => PostStartKeeps(s, k);
      case PostReadHome(k) => PostReadHomeKeeps(s, k);
      case PostWake(k) => PostWakeKeeps(s, k);
      case PostEnd(k) => PostEndKeeps(s, k);
      case Register(c, t) => RegisterKeeps(s, c, t);
      case Scan(_, _, _) => CallsKeep(s, Do(s, a));
      case Choose(_, _) => CallsKeep(s, Do(s, a));
      case GiveUp(_) => CallsKeep(s, Do(s, a));
      case CallMigrate(_, _, _) => CallsKeep(s, Do(s, a));
      case ReadSource(_) => CallsKeep(s, Do(s, a));
      case Move(i) =>
        var SourceRead(t, src, dst) := s.calls[i];
        if MayMove(s, t, src, dst) {
          MoveKeeps(s, t, src, dst);
          CallsKeep(MoveTask(s, t, src, dst), Do(s, a));
        } else {
          CallsKeep(s, Do(s, a));
        }
    }
  }

  lemma InitInv(s: State)
    requires Init(s)
    ensures Inv(s)
  {
    forall t | 0 <= t < |s.tasks| ensures TaskInv(s, t) {
    }
    forall k | 0 <= k < |s.sems| ensures SemInv(s, k) {
      assert Granted(s, k) == {};
    }
  }

  lemma {:induction false} RunKeepsInv(run: seq<State>, steps: seq<Step>, i: nat)
    requires Run(run, steps) && i < |run|
    ensures Inv(run[i])
  {
    if i == 0 {
      InitInv(run[0]);
    } else {
      RunKeepsInv(run, steps, i - 1);
      StepKeepsInv(run[i - 1], steps[i - 1]);
      assert run[i - 1 + 1] == Do(run[i - 1], steps[i - 1]);
    }
  }

  // ---- run queues ---------------------------------------------------------------------

  /** A registered task sits in exactly one queue, once, and that queue is the one its cpu
      field names; queue sizes and current_idx stay in range. */
  lemma ExactlyOneQueue(run: seq<State>, steps: seq<Step>, i: nat, t: nat, c: nat)
    requires Run(run, steps) && i < |run| && Registered(run[i], t) && c < |run[i].cpus|
    ensures t < |run[i].tasks|
    ensures t in run[i].cpus[c].queue <==> c == run[i].tasks[t].cpu
    ensures Distinct(run[i].cpus[c].queue)
    ensures |run[i].cpus[c].queue| <= 8 && run[i].cpus[c].idx < |run[i].cpus[c].queue|
  {
    RunKeepsInv(run, steps, i);
    var d :| 0 <= d < |run[i].cpus| && t in run[i].cpus[d].queue;
    assert CpuInv(run[i], c) && CpuInv(run[i], d);
  }

  /** No task is current on two CPUs, although tasks migrate. */
  lemma NoTaskOnTwoCpus(run: seq<State>, steps: seq<Step>, i: nat, c: nat, d: nat)
    requires Run(run, steps) && i < |run| && c < |run[i].cpus| && d < |run[i].cpus|
    requires run[i].cpus[c].curr == run[i].cpus[d].curr
    ensures c == d
  {
    RunKeepsInv(run, steps, i);
    assert CpuInv(run[i], c) && CpuInv(run[i], d);
  }

  /** A migrate that read a home CPU the task has since left changes nothing. */
  lemma StaleMigrateChangesNothing(run: seq<State>, steps: seq<Step>, i: nat)
    requires Run(run, steps) && i < |steps| && steps[i].Move?
    requires var call := run[i].calls[steps[i].call];
             call.task < |run[i].tasks| && call.src != run[i].tasks[call.task].cpu
    ensures run[i + 1].cpus == run[i].cpus && run[i + 1].tasks == run[i].tasks && run[i + 1].sems == run[i].sems
  {
    RunKeepsInv(run, steps, i);
    var src := run[i].calls[steps[i].call].src;
    if src < |run[i].cpus| {
      assert CpuInv(run[i], src);
    }
  }

  // ---- wake-ups and migration ---------------------------------------------------------

  lemma BlockedKeepsHome(s: State, a: Step, t: nat)
    requires Inv(s) && Enabled(s, a) && t < |s.tasks| && !s.tasks[t].ready
    ensures t < |Do(s, a).tasks| && Do(s, a).tasks[t].cpu == s.tasks[t].cpu
  {
    assert TaskInv(s, t);
  }

  /** Throughout any stretch of a run in which a task stays BLOCKED its home CPU is fixed,
      in any mix of waits, posts, wakes and migrations. */
  lemma {:induction false} HomeIsFrozenWhileBlocked(run: seq<State>, steps: seq<Step>, i: nat, j: nat, t: nat)
    requires Run(run, steps) && i <= j < |run| && t < |run[i].tasks|
    requires forall n :: i <= n < j ==> t < |run[n].tasks| && !run[n].tasks[t].ready
    ensures t < |run[j].tasks| && run[j].tasks[t].cpu == run[i].tasks[t].cpu
    decreases j
  {
    if i < j {
      HomeIsFrozenWhileBlocked(run, steps, i, j - 1, t);
      RunKeepsInv(run, steps, j - 1);
      BlockedKeepsHome(run[j - 1], steps[j - 1], t);
      assert run[j - 1 + 1] == Do(run[j - 1], steps[j - 1]);
    }
  }

  /** The unlocked read of t->cpu in sched_wake names the queue that holds the task: at the
      step that makes it READY the task is BLOCKED and still in that queue. */
  lemma WakeLocksTheRightQueue(run: seq<State>, steps: seq<Step>, i: nat)
    requires Run(run, steps) && i < |steps| && steps[i].PostWake?
    ensures var w := run[i].sems[steps[i].sem].post;
      && w.cpu < |run[i].cpus| && w.task in run[i].cpus[w.cpu].queue
      && !run[i].tasks[w.task].ready && run[i + 1].tasks[w.task].ready
  {
    RunKeepsInv(run, steps, i);
    assert SemInv(run[i], steps[i].sem);
    assert TaskInv(run[i], run[i].sems[steps[i].sem].post.task);
  }

  // ---- semaphores ---------------------------------------------------------------------

  /** Conservation: every post is in the count or has been granted, every grant has been
      returned with or is owned by one task still on its way out; a waiter means the count
      is used up, and a count never goes below zero. */
  lemma SemaphoreConservation(run: seq<State>, steps: seq<Step>, i: nat, k: nat)
    requires Run(run, steps) && i < |run| && k < |run[i].sems|
    ensures var m := run[i].sems[k];
      && m.initial + m.posts == m.count + m.grants
      && m.grants == m.finished + |Granted(run[i], k)|
      && (m.waiter.Some? ==> m.count <= 0)
      && (m.initial >= 0 ==> m.count >= 0)
  {
    RunKeepsInv(run, steps, i);
    assert SemInv(run[i], k);
  }

  /** Every return from a blocking sem_wait uses up one grant that this task owned. */
  lemma ReturnUsesItsGrant(run: seq<State>, steps: seq<Step>, i: nat)
    requires Run(run, steps) && i < |steps| && steps[i].Return?
    ensures var t := run[i].cpus[steps[i].cpu].curr; var k := run[i].tasks[t].phase.sem;
      && run[i].tasks[t].ready
      && Granted(run[i + 1], k) == Granted(run[i], k) - {t} && t in Granted(run[i], k)
      && run[i + 1].sems[k].finished == run[i].sems[k].finished + 1
  {
    RunKeepsInv(run, steps, i);
    ReturnerIsGranted(run[i], steps[i].cpu);
    var t := run[i].cpus[steps[i].cpu].curr;
    assert CpuInv(run[i], steps[i].cpu) && TaskInv(run[i], t);
    assert SemInv(run[i], run[i].tasks[t].phase.sem);
  }

  /** A BLOCKED task that nobody will wake: not in the waiter slot, not being woken. */
  predicate Orphan(s: State, t: nat) {
    && t < |s.tasks| && !s.tasks[t].ready && !s.tasks[t].phase.Out?
    && s.tasks[t].phase.sem < |s.sems|
    && var m := s.sems[s.tasks[t].phase.sem];
       m.waiter != Some(t) && !Targets(m, t)
  }

  /** sem_wait on a semaphore whose single waiter slot is taken. */
  predicate OverwritesWaiter(s: State, a: Step) {
    a.WaitBlock? && a.sem < |s.sems| && s.sems[a.sem].waiter.Some?
  }

  /** Whether t is an orphan depends on t and on the semaphore it waits on alone. */
  lemma OrphanFrame(s: State, r: State, t: nat)
    requires t < |s.tasks| && t < |r.tasks| && |r.sems| == |s.sems|
    requires r.tasks[t].ready == s.tasks[t].ready && r.tasks[t].phase.Out? == s.tasks[t].phase.Out?
    requires !s.tasks[t].phase.Out? ==> r.tasks[t].phase.sem == s.tasks[t].phase.sem
    requires !s.tasks[t].phase.Out? && s.tasks[t].phase.sem < |s.sems| ==>
      r.sems[s.tasks[t].phase.sem].waiter == s.sems[s.tasks[t].phase.sem].waiter &&
      (Targets(r.sems[s.tasks[t].phase.sem], t) <==> Targets(s.sems[s.tasks[t].phase.sem], t))
    ensures Orphan(r, t) <==> Orphan(s, t)
  {
  }

  predicate IsWaitStep(a: Step) {
    a.WaitTake? || a.WaitBlock? || a.SwitchAway? || a.Return?
  }

  predicate IsPostStep(a: Step) {
    a.PostStart? || a.PostReadHome? || a.PostWake? || a.PostEnd?
  }

  lemma PlacementLeavesOrphans(s: State, a: Step, t: nat)
    requires Enabled(s, a) && !IsWaitStep(a) && !IsPostStep(a)
    ensures Orphan(Do(s, a), t) <==> Orphan(s, t)
  {
    if t < |s.tasks| {
      OrphanFrame(s, Do(s, a), t);
    }
  }

  lemma WaitsAndOrphans(s: State, a: Step, t: nat)
    requires Inv(s) && Enabled(s, a) && IsWaitStep(a)
    ensures Orphan(s, t) ==> Orphan(Do(s, a), t)
    ensures !OverwritesWaiter(s, a) && !Orphan(s, t) ==> !Orphan(Do(s, a), t)
  {
    if t < |s.tasks| {
      assert TaskInv(s, t);
      if a.Return? {
        ReturnerIsGranted(s, a.cpu);
      } else if !a.WaitBlock? {
        OrphanFrame(s, Do(s, a), t);
      }
    }
  }

  lemma PostsAndOrphans(s: State, a: Step, t: nat)
    requires Inv(s) && Enabled(s, a) && IsPostStep(a)
    ensures Orphan(s, t) <==> Orphan(Do(s, a), t)
  {
    if t < |s.tasks| {
      assert TaskInv(s, t) && SemInv(s, a.sem);
    }
  }

  /** An orphan stays one, whatever step is taken, and a step that overwrites no registered
      waiter orphans nobody. */
  lemma StepsAndOrphans(s: State, a: Step, t: nat)
    requires Inv(s) && Enabled(s, a)
    ensures Orphan(s, t) ==> Orphan(Do(s, a), t)
    ensures !OverwritesWaiter(s, a) && !Orphan(s, t) ==> !Orphan(Do(s, a), t)
  {
    if IsWaitStep(a) {
      WaitsAndOrphans(s, a, t);
    } else if IsPostStep(a) {
      PostsAndOrphans(s, a, t);
    } else {
      PlacementLeavesOrphans(s, a, t);
    }
  }

  lemma OverwritingOrphans(s: State, a: Step)
    requires Inv(s) && Enabled(s, a) && OverwritesWaiter(s, a)
    ensures Orphan(Do(s, a), s.sems[a.sem].waiter.value)
  {
    assert SemInv(s, a.sem) && TaskInv(s, s.cpus[a.cpu].curr);
  }

  lemma {:induction false} OrphanStaysInRun(run: seq<State>, steps: seq<Step>, i: nat, j: nat, t: nat)
    requires Run(run, steps) && i <= j < |run| && Orphan(run[i], t)
    ensures Orphan(run[j], t)
    decreases j
  {
    if i < j {
      OrphanStaysInRun(run, steps, i, j - 1, t);
      RunKeepsInv(run, steps, j - 1);
      StepsAndOrphans(run[j - 1], steps[j - 1], t);
      assert run[j - 1 + 1] == Do(run[j - 1], steps[j - 1]);
    }
  }

  lemma {:induction false} OrphanHasACause(run: seq<State>, steps: seq<Step>, i: nat, t: nat) returns (j: nat)
    requires Run(run, steps) && i < |run| && Orphan(run[i], t)
    ensures j < i && OverwritesWaiter(run[j], steps[j])
    decreases i
  {
    assert i > 0;
    RunKeepsInv(run, steps, i - 1);
    assert run[i - 1 + 1] == Do(run[i - 1], steps[i - 1]);
    if Orphan(run[i - 1], t) {
      j := OrphanHasACause(run, steps, i - 1, t);
    } else {
      StepsAndOrphans(run[i - 1], steps[i - 1], t);
      j := i - 1;
    }
  }

  /** Wake-ups are lost exactly when a sem_wait overwrites a registered waiter: up to any
      point of any run, a task is BLOCKED with neither the waiter slot nor a post under way
      to show for it if and only if such a step was taken before, and it is then BLOCKED
      for good (OrphanStaysInRun). */
  lemma LostWakeupsExactly(run: seq<State>, steps: seq<Step>, i: nat)
    requires Run(run, steps) && i < |run|
    ensures (exists t :: Orphan(run[i], t)) <==> (exists j :: 0 <= j < i && OverwritesWaiter(run[j], steps[j]))
  {
    if t :| Orphan(run[i], t) {
      var j := OrphanHasACause(run, steps, i, t);
    }
    if j :| 0 <= j < i && OverwritesWaiter(run[j], steps[j]) {
      RunKeepsInv(run, steps, j);
      OverwritingOrphans(run[j], steps[j]);
      assert run[j + 1] == Do(run[j], steps[j]);
      OrphanStaysInRun(run, steps, j + 1, i, run[j].sems[steps[j].sem].waiter.value);
    }
  }

  /** With one waiting task at a time per semaphore, a task is BLOCKED only while it is the
      registered waiter or a post is between clearing and waking it. */
  lemma NoLostWakeup(run: seq<State>, steps: seq<Step>, i: nat, t: nat)
    requires Run(run, steps) && i < |run| && t < |run[i].tasks| && !run[i].tasks[t].ready
    requires forall j :: 0 <= j < i ==> !OverwritesWaiter(run[j], steps[j])
    ensures !run[i].tasks[t].phase.Out? && run[i].tasks[t].phase.sem < |run[i].sems|
    ensures var m := run[i].sems[run[i].tasks[t].phase.sem];
      m.waiter == Some(t) || (m.post.Cleared? && m.post.task == t) || (m.post.HomeRead? && m.post.task == t)
  {
    RunKeepsInv(run, steps, i);
    assert TaskInv(run[i], t);
    LostWakeupsExactly(run, steps, i);
    assert !Orphan(run[i], t);
  }
}
