/** The scheduler's code on its arrays takes exactly the steps of the kernel machine: picking
    and publishing the next task, a whole timer tick, migrating and registering. */
module SchedSteps {
  import opened Base
  import opened QueueSpec
  import opened Selection
  import opened Scheduler
  import Kernel

  /** The contents of the arrays: queues, current_idx and current, by CPU. */
  datatype Arrays = Arrays(queues: seq<seq<Tcb>>, idx: seq<nat>, curr: seq<Tcb?>)

  ghost function Contents(q: RunQueues): Arrays
    requires q.Valid()
    reads q.tasks, q.numTasks, q.currentIdx, q.curr
  {
    Arrays(q.Queues(), q.currentIdx[..], q.curr[..])
  }

  /** CPU c of the arrays is CPU u of the machine; task t of the machine is the object ts[t]. */
  ghost predicate MatchesCpu(v: Arrays, ts: seq<Tcb>, u: Kernel.Cpu, c: nat)
    requires c < |v.queues| && c < |v.idx| && c < |v.curr|
  {
    && u.curr < |ts| && v.curr[c] == ts[u.curr] && u.idx == v.idx[c] && |u.queue| == |v.queues[c]|
    && forall i :: 0 <= i < |u.queue| ==> u.queue[i] < |ts| && ts[u.queue[i]] == v.queues[c][i]
  }

  ghost predicate Matches(v: Arrays, ts: seq<Tcb>, s: Kernel.State) {
    && |v.queues| == |v.idx| == |v.curr| == |s.cpus| && |s.tasks| == |ts| && Distinct(ts)
    && forall c :: 0 <= c < |s.cpus| ==> MatchesCpu(v, ts, s.cpus[c], c)
  }

  ghost predicate MatchesTasks(ts: seq<Tcb>, s: Kernel.State)
    reads ts
  {
    |s.tasks| == |ts| && forall t :: 0 <= t < |ts| ==> MatchesTask(ts[t], s.tasks[t])
  }

  ghost predicate MatchesTask(t: Tcb, x: Kernel.Task)
    reads t
  {
    x.ready == (t.state == 0) && x.cpu == t.cpu && x.pinned == t.pinned
  }

  /** Queues, indices, currents and task fields are those of the machine's state. */
  ghost predicate Mirrors(q: RunQueues, ts: seq<Tcb>, s: Kernel.State)
    reads q.tasks, q.numTasks, q.currentIdx, q.curr, ts
  {
    q.Valid() && q.IdxValid() && q.cpus == |s.cpus| && Matches(Contents(q), ts, s) && MatchesTasks(ts, s)
  }

  // ---- picking ------------------------------------------------------------------------

  lemma CurrentIsQueued(v: Arrays, ts: seq<Tcb>, s: Kernel.State, c: nat)
    requires Matches(v, ts, s) && Kernel.Inv(s) && c < |s.cpus|
    ensures v.curr[c] != null && v.curr[c] in v.queues[c]
  {
    assert MatchesCpu(v, ts, s.cpus[c], c) && Kernel.CpuInv(s, c);
    var i :| 0 <= i < |s.cpus[c].queue| && s.cpus[c].queue[i] == s.cpus[c].curr;
    assert v.queues[c][i] == v.curr[c];
  }

  /** The choice of the active policy among READY entries, from index cur. */
  ghost predicate ByPolicy(loadAware: bool, flags: seq<bool>, loads: seq<nat>, cur: nat, pos: nat)
    requires |flags| == |loads|
  {
    cur < |flags| && if loadAware then BestReady(flags, loads, cur, pos) else NextReady(flags, cur, pos)
  }

  /** Entry pos has been made current on CPU c. */
  ghost function Published(v: Arrays, c: nat, pos: nat): Arrays
    requires c < |v.queues| && c < |v.idx| && c < |v.curr| && pos < |v.queues[c]|
  {
    Arrays(v.queues, v.idx[c := pos], v.curr[c := v.queues[c][pos]])
  }

  /** select_next of the active policy, when the current task is in the queue: a READY entry
      by the policy's own rule, or else the current task; the index is that of the choice. */
  method Select(q: RunQueues, c: nat, loadAware: bool) returns (n: Tcb)
    requires q.Valid() && q.IdxValid() && c < q.cpus && q.curr[c] != null && q.curr[c] in q.Queue(c)
    modifies q.currentIdx, q.selectCount
    ensures q.Valid() && q.IdxValid() && q.currentIdx[c] < q.numTasks[c] && n == q.Queue(c)[q.currentIdx[c]]
    ensures Contents(q) == old(Contents(q)).(idx := old(Contents(q)).idx[c := q.currentIdx[c]])
    ensures true in q.ReadyFlags(c) ==> ByPolicy(loadAware, q.ReadyFlags(c), q.Loads(c), old(q.currentIdx[c]), q.currentIdx[c])
    ensures true !in q.ReadyFlags(c) ==> n == q.curr[c]
  {
    if loadAware {
      n := q.LoadAwareSelectNext(c);
    } else {
      n := q.RoundRobinSelectNext(c);
    }
  }

  /** The same, then `current = next`. */
  method SelectAndSet(q: RunQueues, c: nat, loadAware: bool) returns (n: Tcb, ghost pos: nat)
    requires q.Valid() && q.IdxValid() && c < q.cpus && q.curr[c] != null && q.curr[c] in q.Queue(c)
    modifies q.currentIdx, q.selectCount, q.curr
    ensures q.Valid() && q.IdxValid() && pos < old(|q.Queue(c)|) && n == old(q.Queue(c))[pos] && pos == q.currentIdx[c]
    ensures Contents(q) == Published(old(Contents(q)), c, pos)
    ensures q.ReadyFlags(c) == old(q.ReadyFlags(c)) && q.Loads(c) == old(q.Loads(c))
    ensures true in q.ReadyFlags(c) ==> ByPolicy(loadAware, q.ReadyFlags(c), q.Loads(c), old(q.currentIdx[c]), pos) && q.ReadyFlags(c)[pos]
    ensures true !in q.ReadyFlags(c) ==> n == old(q.curr[c])
  {
    n := Select(q, c, loadAware);
    pos := q.currentIdx[c];
    q.curr[c] := n;
  }

  /** What the machine may pick, from the READY flags of the queue. */
  lemma PicksByFlags(s: Kernel.State, c: nat, pos: nat, flags: seq<bool>)
    requires c < |s.cpus| && pos < |s.cpus[c].queue| == |flags|
    requires forall i :: 0 <= i < |flags| ==> s.cpus[c].queue[i] < |s.tasks| && flags[i] == s.tasks[s.cpus[c].queue[i]].ready
    requires flags[pos] || (true !in flags && s.cpus[c].queue[pos] == s.cpus[c].curr)
    ensures Kernel.Picks(s, c, pos)
  {
  }

  /** Publishing entry pos is the machine's switch to it. */
  lemma PickMatches(v: Arrays, ts: seq<Tcb>, s: Kernel.State, c: nat, pos: nat, r: Kernel.State)
    requires Matches(v, ts, s) && c < |s.cpus| && pos < |v.queues[c]|
    requires |r.tasks| == |s.tasks| && |r.cpus| == |s.cpus|
    requires r.cpus[c].queue == s.cpus[c].queue && r.cpus[c].idx == pos && pos < |s.cpus[c].queue| && r.cpus[c].curr == s.cpus[c].queue[pos]
    requires forall d :: 0 <= d < |s.cpus| && d != c ==> r.cpus[d] == s.cpus[d]
    ensures Matches(Published(v, c, pos), ts, r)
  {
    var w := Published(v, c, pos);
    forall d | 0 <= d < |s.cpus| ensures MatchesCpu(w, ts, r.cpus[d], d) { assert MatchesCpu(v, ts, s.cpus[d], d); }
  }

  /** A tick, a yield or a blocking wait that picks entry pos makes that entry current and
      current_idx its position, and changes no other CPU, no queue, no task's state, home or
      pin, no semaphore and no migration under way. */
  lemma SwitchStep(s: Kernel.State, a: Kernel.Step)
    requires Kernel.Enabled(s, a) && (a.Preempt? || a.SwitchAway?)
    ensures var r := Kernel.Do(s, a); var c := a.cpu;
      && |r.cpus| == |s.cpus| && |r.tasks| == |s.tasks| && r.sems == s.sems && r.calls == s.calls
      && r.cpus[c].queue == s.cpus[c].queue && r.cpus[c].idx == a.pos && r.cpus[c].curr == s.cpus[c].queue[a.pos]
      && (forall d :: 0 <= d < |s.cpus| && d != c ==> r.cpus[d] == s.cpus[d])
      && (forall t :: 0 <= t < |s.tasks| ==>
            r.tasks[t].ready == s.tasks[t].ready && r.tasks[t].cpu == s.tasks[t].cpu && r.tasks[t].pinned == s.tasks[t].pinned)
      && (forall t :: 0 <= t < |s.tasks| && (a.Preempt? || t != s.cpus[c].curr) ==> r.tasks[t].phase == s.tasks[t].phase)
  {
  }

  /** The same for every run. */
  lemma RunSwitches(run: seq<Kernel.State>, steps: seq<Kernel.Step>, i: nat)
    requires Kernel.Run(run, steps) && i < |steps| && (steps[i].Preempt? || steps[i].SwitchAway?)
    ensures var s, r, c := run[i], run[i + 1], steps[i].cpu;
      && c < |s.cpus| == |r.cpus| && steps[i].pos < |s.cpus[c].queue| && |r.tasks| == |s.tasks|
      && r.cpus[c].curr == s.cpus[c].queue[steps[i].pos] && r.cpus[c].idx == steps[i].pos && r.cpus[c].queue == s.cpus[c].queue
      && (forall d :: 0 <= d < |s.cpus| && d != c ==> r.cpus[d] == s.cpus[d])
      && (forall t :: 0 <= t < |s.tasks| ==> r.tasks[t].ready == s.tasks[t].ready && r.tasks[t].cpu == s.tasks[t].cpu)
  {
    SwitchStep(run[i], steps[i]);
  }

  lemma StepMatches(v: Arrays, ts: seq<Tcb>, s: Kernel.State, a: Kernel.Step)
    requires Matches(v, ts, s) && MatchesTasks(ts, s) && Kernel.Enabled(s, a) && (a.Preempt? || a.SwitchAway?)
    ensures a.cpu < |v.queues| == |v.idx| == |v.curr| && a.pos < |v.queues[a.cpu]|
    ensures Matches(Published(v, a.cpu, a.pos), ts, Kernel.Do(s, a))
    ensures MatchesTasks(ts, Kernel.Do(s, a))
  {
    SwitchStep(s, a);
    assert MatchesCpu(v, ts, s.cpus[a.cpu], a.cpu);
    PickMatches(v, ts, s, a.cpu, a.pos, Kernel.Do(s, a));
    forall t | 0 <= t < |ts| ensures MatchesTask(ts[t], Kernel.Do(s, a).tasks[t]) { assert MatchesTask(ts[t], s.tasks[t]); }
  }

  lemma FlagsMatch(q: RunQueues, ts: seq<Tcb>, s: Kernel.State, c: nat)
    requires Mirrors(q, ts, s) && c < q.cpus
    ensures |s.cpus[c].queue| == q.numTasks[c]
    ensures forall i :: 0 <= i < q.numTasks[c] ==> s.cpus[c].queue[i] < |s.tasks| && q.ReadyFlags(c)[i] == s.tasks[s.cpus[c].queue[i]].ready
    ensures forall i :: 0 <= i < q.numTasks[c] && q.Queue(c)[i] == q.curr[c] ==> s.cpus[c].queue[i] == s.cpus[c].curr
  {
    assert MatchesCpu(Contents(q), ts, s.cpus[c], c);
    forall i | 0 <= i < q.numTasks[c] ensures s.cpus[c].queue[i] < |s.tasks| && q.ReadyFlags(c)[i] == s.tasks[s.cpus[c].queue[i]].ready {
      assert MatchesTask(ts[s.cpus[c].queue[i]], s.tasks[s.cpus[c].queue[i]]);
    }
  }

  /** The arrays are where the machine's switch to entry pos leads from s. */
  ghost predicate Switched(q: RunQueues, ts: seq<Tcb>, s: Kernel.State, c: nat, pos: nat)
    reads q.tasks, q.numTasks, q.currentIdx, q.curr, ts
  {
    && Kernel.Picks(s, c, pos)
    && (Kernel.Enabled(s, Kernel.Preempt(c, pos)) ==> Mirrors(q, ts, Kernel.Do(s, Kernel.Preempt(c, pos))))
    && (Kernel.Enabled(s, Kernel.SwitchAway(c, pos)) ==> Mirrors(q, ts, Kernel.Do(s, Kernel.SwitchAway(c, pos))))
  }

  lemma ArraysSwitched(q: RunQueues, ts: seq<Tcb>, s: Kernel.State, c: nat, pos: nat, v: Arrays)
    requires q.Valid() && q.IdxValid() && Matches(v, ts, s) && MatchesTasks(ts, s) && Kernel.Picks(s, c, pos) && q.cpus == |s.cpus|
    requires pos < |v.queues[c]| && Contents(q) == Published(v, c, pos)
    ensures Switched(q, ts, s, c, pos)
  {
    if Kernel.Enabled(s, Kernel.Preempt(c, pos)) {
      StepMatches(v, ts, s, Kernel.Preempt(c, pos));
    }
    if Kernel.Enabled(s, Kernel.SwitchAway(c, pos)) {
      StepMatches(v, ts, s, Kernel.SwitchAway(c, pos));
    }
  }

  /** pick_next_ready under the active policy, then `current = next`: the machine's Preempt
      or SwitchAway step to the entry the policy chooses. */
  method PickAndPublish(q: RunQueues, c: nat, loadAware: bool, ghost ts: seq<Tcb>, ghost s: Kernel.State) returns (n: Tcb, ghost pos: nat)
    requires Mirrors(q, ts, s) && Kernel.Inv(s) && c < q.cpus
    modifies q.currentIdx, q.selectCount, q.curr
    ensures q.Valid() && q.IdxValid() && pos < old(|q.Queue(c)|) && n == old(q.Queue(c))[pos] && pos == q.currentIdx[c]
    ensures Contents(q) == Published(old(Contents(q)), c, pos) && Switched(q, ts, s, c, pos)
    ensures q.ReadyFlags(c) == old(q.ReadyFlags(c)) && q.Loads(c) == old(q.Loads(c))
    ensures true in q.ReadyFlags(c) ==> ByPolicy(loadAware, q.ReadyFlags(c), q.Loads(c), old(q.currentIdx[c]), pos)
  {
    ghost var v, flags := Contents(q), q.ReadyFlags(c);
    CurrentIsQueued(v, ts, s, c);
    FlagsMatch(q, ts, s, c);
    n, pos := SelectAndSet(q, c, loadAware);
    PicksByFlags(s, c, pos, flags);
    ArraysSwitched(q, ts, s, c, pos, v);
  }

  // ---- a timer tick -------------------------------------------------------------------

  /** A charge is invisible to the machine. */
  method ChargeCurrent(q: RunQueues, c: nat, me: Tcb, ghost ts: seq<Tcb>, ghost s: Kernel.State)
    requires Mirrors(q, ts, s) && Kernel.Inv(s) && c < q.cpus && q.curr[c] == me
    modifies me`load
    ensures Mirrors(q, ts, s) && me.load == Charge(old(me.load))
    ensures Contents(q) == old(Contents(q)) && q.ReadyFlags(c) == old(q.ReadyFlags(c))
    ensures forall i :: 0 <= i < q.numTasks[c] && q.Queue(c)[i] != me ==> q.Loads(c)[i] == old(q.Loads(c)[i])
  {
    EwmaOnTick(me);
    assert forall t :: 0 <= t < |ts| ==> MatchesTask(ts[t], s.tasks[t]);
  }

  lemma QueueIsDistinct(v: Arrays, ts: seq<Tcb>, s: Kernel.State, c: nat)
    requires Matches(v, ts, s) && Kernel.Inv(s) && c < |s.cpus|
    ensures Distinct(v.queues[c])
  {
    assert MatchesCpu(v, ts, s.cpus[c], c) && Kernel.CpuInv(s, c);
  }

  /** The scheduling part of the timer interrupt: charge the current task, pick, publish.  With
      the index on the current task and somebody READY it is a tick in the sense of the
      fairness results. */
  method TimerTick(q: RunQueues, c: nat, me: Tcb, ghost ts: seq<Tcb>, ghost s: Kernel.State) returns (n: Tcb, ghost pos: nat)
    requires Mirrors(q, ts, s) && Kernel.Inv(s) && c < q.cpus && q.curr[c] == me
    modifies q.currentIdx, q.selectCount, q.curr, me`load
    ensures q.Valid() && q.IdxValid() && pos < old(|q.Queue(c)|) && n == old(q.Queue(c))[pos] && pos == q.currentIdx[c]
    ensures Contents(q) == Published(old(Contents(q)), c, pos) && Switched(q, ts, s, c, pos)
    ensures true in q.ReadyFlags(c) && old(q.currentIdx[c] < q.numTasks[c] && q.Queue(c)[q.currentIdx[c]] == me) ==>
      Tick(Queue(old(q.Loads(c)), old(q.currentIdx[c])), q.ReadyFlags(c), Queue(q.Loads(c), pos))
  {
    QueueIsDistinct(Contents(q), ts, s, c);
    ghost var cur, loads := q.currentIdx[c], q.Loads(c);
    ChargeCurrent(q, c, me, ts, s);
    ghost var charged := q.Loads(c);
    if cur < q.numTasks[c] && q.Queue(c)[cur] == me {
      assert charged == loads[cur := Charge(loads[cur])];
    }
    n, pos := PickAndPublish(q, c, true, ts, s);
  }

  // ---- migrating and registering ------------------------------------------------------

  lemma SameTask(v: Arrays, ts: seq<Tcb>, s: Kernel.State, c: nat, t: nat, i: nat)
    requires Matches(v, ts, s) && c < |s.cpus| && t < |ts| && i < |v.queues[c]|
    ensures |s.cpus[c].queue| == |v.queues[c]| && (v.queues[c][i] == ts[t] <==> s.cpus[c].queue[i] == t)
    ensures v.curr[c] == ts[t] <==> s.cpus[c].curr == t
  {
    assert MatchesCpu(v, ts, s.cpus[c], c);
  }

  /** A task is in a queue of the arrays exactly when it is in the machine's. */
  lemma SameMembers(v: Arrays, ts: seq<Tcb>, s: Kernel.State, c: nat, t: nat)
    requires Matches(v, ts, s) && c < |s.cpus| && t < |ts|
    ensures ts[t] in v.queues[c] <==> t in s.cpus[c].queue
    ensures v.curr[c] == ts[t] <==> s.cpus[c].curr == t
  {
    assert MatchesCpu(v, ts, s.cpus[c], c);
    if ts[t] in v.queues[c] {
      var i :| 0 <= i < |v.queues[c]| && v.queues[c][i] == ts[t];
      SameTask(v, ts, s, c, t, i);
    }
    if t in s.cpus[c].queue {
      var i :| 0 <= i < |s.cpus[c].queue| && s.cpus[c].queue[i] == t;
      SameTask(v, ts, s, c, t, i);
    }
  }

  /** Entry i of src has gone to the end of dst. */
  ghost predicate MovedTo(v: Arrays, w: Arrays, x: Tcb, src: nat, i: nat, dst: nat)
    requires src < |v.queues| == |v.idx| && dst < |v.queues|
  {
    && |w.queues| == |v.queues| && |w.idx| == |v.idx| && w.curr == v.curr
    && i < |v.queues[src]| && v.queues[src][i] == x && src != dst
    && w.queues[src] == SwapRemove(v.queues[src], i) && w.queues[dst] == v.queues[dst] + [x]
    && w.idx[src] == ClampIdx(v.idx[src], |v.queues[src]| - 1)
    && (forall c :: 0 <= c < |v.queues| && c != src && c != dst ==> w.queues[c] == v.queues[c])
    && (forall c :: 0 <= c < |v.queues| && c != src ==> w.idx[c] == v.idx[c])
  }

  lemma PositionIsUnique(q: seq<nat>, i: nat, t: nat)
    requires Distinct(q) && i < |q| && q[i] == t
    ensures Kernel.PosOf(q, t) == i
  {
  }

  lemma SourceMatches(v: Arrays, w: Arrays, ts: seq<Tcb>, s: Kernel.State, t: nat, src: nat, i: nat, dst: nat)
    requires Matches(v, ts, s) && Kernel.Inv(s) && t < |ts| && Kernel.MayMove(s, t, src, dst) && MovedTo(v, w, ts[t], src, i, dst)
    ensures MatchesCpu(w, ts, Kernel.MoveTask(s, t, src, dst).cpus[src], src)
  {
    assert MatchesCpu(v, ts, s.cpus[src], src) && Kernel.CpuInv(s, src);
    SameTask(v, ts, s, src, t, i);
    PositionIsUnique(s.cpus[src].queue, i, t);
    assert Kernel.MoveTask(s, t, src, dst).cpus[src].queue == SwapRemove(s.cpus[src].queue, i);
  }

  lemma OthersMatch(v: Arrays, w: Arrays, ts: seq<Tcb>, s: Kernel.State, t: nat, src: nat, i: nat, dst: nat, c: nat)
    requires Matches(v, ts, s) && t < |ts| && Kernel.MayMove(s, t, src, dst) && MovedTo(v, w, ts[t], src, i, dst) && c < |s.cpus| && c != src
    ensures MatchesCpu(w, ts, Kernel.MoveTask(s, t, src, dst).cpus[c], c)
  {
    assert MatchesCpu(v, ts, s.cpus[c], c);
  }

  lemma MoveMatches(v: Arrays, w: Arrays, ts: seq<Tcb>, s: Kernel.State, t: nat, src: nat, i: nat, dst: nat)
    requires Matches(v, ts, s) && Kernel.Inv(s) && t < |ts| && Kernel.MayMove(s, t, src, dst) && MovedTo(v, w, ts[t], src, i, dst)
    ensures Matches(w, ts, Kernel.MoveTask(s, t, src, dst))
  {
    var r := Kernel.MoveTask(s, t, src, dst);
    forall c | 0 <= c < |r.cpus| ensures MatchesCpu(w, ts, r.cpus[c], c) {
      if c == src {
        SourceMatches(v, w, ts, s, t, src, i, dst);
      } else {
        OthersMatch(v, w, ts, s, t, src, i, dst, c);
      }
    }
  }

  /** RunQueues.Migrate in terms of the arrays' contents. */
  method MigrateArrays(q: RunQueues, x: Tcb, src: nat, dst: nat) returns (ok: bool, ghost i: nat)
    requires q.Valid() && q.IdxValid() && src < q.cpus && dst < q.cpus
    modifies q.tasks, q.numTasks, q.currentIdx, x`cpu
    ensures q.Valid() && q.IdxValid()
    ensures ok <==> dst != src && dst != 0 && x.state == 0 && x != q.curr[src] && x in old(q.Queue(src)) && old(|q.Queue(dst)|) < MAX_TASKS
    ensures !ok ==> Contents(q) == old(Contents(q)) && x.cpu == old(x.cpu)
    ensures ok ==> x.cpu == dst && MovedTo(old(Contents(q)), Contents(q), x, src, i, dst)
  {
    i := 0;
    ghost var before := q.Queues();
    ok := q.Migrate(x, src, dst);
    if ok {
      i :| 0 <= i < |before[src]| && before[src][i] == x && q.Queue(src) == SwapRemove(before[src], i);
    } else {
      assert q.Queues() == before;
    }
  }

  /** sched_migrate's section, with src the home read before it: the machine's Move. */
  method MigrateStep(q: RunQueues, x: Tcb, src: nat, dst: nat, ghost ts: seq<Tcb>, ghost s: Kernel.State, ghost t: nat) returns (ok: bool)
    requires Mirrors(q, ts, s) && Kernel.Inv(s) && src < q.cpus && dst < q.cpus && t < |ts| && ts[t] == x
    modifies q.tasks, q.numTasks, q.currentIdx, x`cpu
    ensures ok <==> Kernel.MayMove(s, t, src, dst)
    ensures Mirrors(q, ts, if Kernel.MayMove(s, t, src, dst) then Kernel.MoveTask(s, t, src, dst) else s)
  {
    ghost var v := Contents(q);
    assert MatchesTask(ts[t], s.tasks[t]) && MatchesCpu(v, ts, s.cpus[dst], dst);
    SameMembers(v, ts, s, src, t);
    ghost var i;
    ok, i := MigrateArrays(q, x, src, dst);
    if ok {
      MoveMatches(v, Contents(q), ts, s, t, src, i, dst);
    }
    TasksAfter(ts, s, t, ok, src, dst);
  }

  lemma TasksAfter(ts: seq<Tcb>, s: Kernel.State, t: nat, ok: bool, src: nat, dst: nat)
    requires |ts| == |s.tasks| && t < |ts| && Distinct(ts) && ok == Kernel.MayMove(s, t, src, dst)
    requires ts[t].cpu == if ok then dst else s.tasks[t].cpu
    requires forall u :: 0 <= u < |ts| ==> s.tasks[u].ready == (ts[u].state == 0) && s.tasks[u].pinned == ts[u].pinned && (u != t ==> s.tasks[u].cpu == ts[u].cpu)
    ensures MatchesTasks(ts, if ok then Kernel.MoveTask(s, t, src, dst) else s)
  {
    forall u | 0 <= u < |ts| ensures MatchesTask(ts[u], (if ok then Kernel.MoveTask(s, t, src, dst) else s).tasks[u]) {}
  }

  /** RunQueues.RegisterOn of a task that is in no queue, in terms of the arrays' contents. */
  method RegisterArrays(q: RunQueues, x: Tcb, c: nat, self: nat)
    requires q.Valid() && q.IdxValid() && c < q.cpus && self < q.cpus && x != q.curr[self]
    modifies q.tasks, q.numTasks, q.currentIdx, x`cpu
    ensures q.Valid() && q.IdxValid()
    ensures var v := old(Contents(q));
      if |v.queues[c]| < MAX_TASKS then x.cpu == c && Contents(q) == v.(queues := v.queues[c := v.queues[c] + [x]])
      else x.cpu == old(x.cpu) && Contents(q) == v
  {
    ghost var before, idx := q.Queues(), q.currentIdx[..];
    q.RegisterOn(c, x, self);
    assert q.currentIdx[..] == idx;
    if |before[c]| < MAX_TASKS {
      assert q.Queues() == before[c := before[c] + [x]];
    } else {
      assert q.Queues() == before;
    }
  }

  lemma RegisterMatches(v: Arrays, ts: seq<Tcb>, s: Kernel.State, t: nat, c: nat)
    requires Matches(v, ts, s) && t < |ts| && Kernel.Enabled(s, Kernel.Register(c, t))
    ensures Matches(v.(queues := v.queues[c := v.queues[c] + [ts[t]]]), ts, Kernel.Do(s, Kernel.Register(c, t)))
  {
    var w, r := v.(queues := v.queues[c := v.queues[c] + [ts[t]]]), Kernel.Do(s, Kernel.Register(c, t));
    forall d | 0 <= d < |r.cpus| ensures MatchesCpu(w, ts, r.cpus[d], d) { assert MatchesCpu(v, ts, s.cpus[d], d); }
  }

  /** sched_register_on of a task in no queue, called on CPU self: the machine's Register, or
      nothing when the queue is full. */
  method RegisterStep(q: RunQueues, x: Tcb, c: nat, self: nat, ghost ts: seq<Tcb>, ghost s: Kernel.State, ghost t: nat)
    requires Mirrors(q, ts, s) && Kernel.Inv(s) && c < q.cpus && self < q.cpus && t < |ts| && ts[t] == x && !Kernel.Registered(s, t)
    modifies q.tasks, q.numTasks, q.currentIdx, x`cpu
    ensures if Kernel.Enabled(s, Kernel.Register(c, t)) then Mirrors(q, ts, Kernel.Do(s, Kernel.Register(c, t))) else Mirrors(q, ts, s)
    ensures Kernel.Enabled(s, Kernel.Register(c, t)) <==> |s.cpus[c].queue| < MAX_TASKS
  {
    ghost var v := Contents(q);
    SameMembers(v, ts, s, self, t);
    assert Kernel.CpuInv(s, self) && MatchesCpu(v, ts, s.cpus[c], c);
    RegisterArrays(q, x, c, self);
    assert forall u :: 0 <= u < |ts| && u != t ==> MatchesTask(ts[u], s.tasks[u]);
    if Kernel.Enabled(s, Kernel.Register(c, t)) {
      RegisterMatches(v, ts, s, t, c);
      forall u | 0 <= u < |ts| ensures MatchesTask(ts[u], Kernel.Do(s, Kernel.Register(c, t)).tasks[u]) {}
    }
  }

  /** sched_wake's section: the machine's PostWake. */
  method WakeStep(q: RunQueues, x: Tcb, ghost ts: seq<Tcb>, ghost s: Kernel.State, ghost k: nat)
    requires Mirrors(q, ts, s) && Kernel.Enabled(s, Kernel.PostWake(k)) && ts[s.sems[k].post.task] == x
    modifies x`state
    ensures Mirrors(q, ts, Kernel.Do(s, Kernel.PostWake(k)))
  {
    x.state := 0;
    ghost var r := Kernel.Do(s, Kernel.PostWake(k));
    forall u | 0 <= u < |ts| ensures MatchesTask(ts[u], r.tasks[u]) {}
    forall c | 0 <= c < |r.cpus| ensures MatchesCpu(Contents(q), ts, r.cpus[c], c) {}
  }

  // ---- balancing ----------------------------------------------------------------------

  /** The machine's pass can scan busiest b and idlest l, and then take task t. */
  ghost predicate PassTakes(s: Kernel.State, call: nat, b: nat, l: nat, t: nat) {
    && Kernel.Enabled(s, Kernel.Scan(call, b, l))
    && Kernel.Enabled(Kernel.Do(s, Kernel.Scan(call, b, l)), Kernel.Choose(call, t))
  }

  lemma SameLengths(q: RunQueues, ts: seq<Tcb>, s: Kernel.State)
    requires Mirrors(q, ts, s)
    ensures Kernel.Lens(s) == q.numTasks[..q.cpus]
  {
    forall c | 0 <= c < q.cpus ensures Kernel.Lens(s)[c] == q.numTasks[c] {
      assert MatchesCpu(Contents(q), ts, s.cpus[c], c);
    }
  }

  lemma SameEligible(q: RunQueues, ts: seq<Tcb>, s: Kernel.State, b: nat, t: nat)
    requires Mirrors(q, ts, s) && b < q.cpus && t < |ts|
    ensures ts[t] in q.Queue(b) && q.Eligible(ts[t], b) <==>
      t in s.cpus[b].queue && t != s.cpus[b].curr && s.tasks[t].ready && !s.tasks[t].pinned
  {
    SameMembers(Contents(q), ts, s, b, t);
    assert MatchesTask(ts[t], s.tasks[t]);
  }

  /** The decision of sched_load_balance_pass, all CPUs online: it takes a task exactly when
      the machine's pass can take one, and one the machine's pass can take. */
  method ChooseStep(q: RunQueues, ghost ts: seq<Tcb>, ghost s: Kernel.State, ghost call: nat) returns (victim: Tcb?, b: nat, l: nat)
    requires Mirrors(q, ts, s) && call < |s.calls| && s.calls[call].NoCall?
    ensures victim != null ==> exists t :: 0 <= t < |ts| && ts[t] == victim && PassTakes(s, call, b, l, t)
    ensures victim == null ==> forall x, y, t :: !PassTakes(s, call, x, y, t)
  {
    SameLengths(q, ts, s);
    victim, b, l := q.ChooseMove(q.cpus);
    if victim != null {
      VictimIsTaken(q, ts, s, call, victim, b, l);
    } else {
      forall x, y, t ensures !PassTakes(s, call, x, y, t) {
        PassNeedsUneven(q, ts, s, call, x, y, t);
      }
    }
  }

  lemma PassNeedsUneven(q: RunQueues, ts: seq<Tcb>, s: Kernel.State, call: nat, b: nat, l: nat, t: nat)
    requires Mirrors(q, ts, s) && call < |s.calls| && Kernel.Lens(s) == q.numTasks[..q.cpus]
    ensures PassTakes(s, call, b, l, t) ==> q.Uneven(q.cpus, b, l)
  {
    if PassTakes(s, call, b, l, t) {
      SameEligible(q, ts, s, b, t);
    }
  }

  lemma VictimIsTaken(q: RunQueues, ts: seq<Tcb>, s: Kernel.State, call: nat, x: Tcb, b: nat, l: nat)
    requires Mirrors(q, ts, s) && call < |s.calls| && s.calls[call].NoCall? && Kernel.Lens(s) == q.numTasks[..q.cpus]
    requires q.Uneven(q.cpus, b, l) && x in q.Queue(b) && q.Eligible(x, b)
    ensures exists t :: 0 <= t < |ts| && ts[t] == x && PassTakes(s, call, b, l, t)
  {
    VictimIsTask(q, ts, s, x, b);
    var t :| 0 <= t < |ts| && ts[t] == x;
    SameEligible(q, ts, s, b, t);
    assert PassTakes(s, call, b, l, t);
  }

  lemma VictimIsTask(q: RunQueues, ts: seq<Tcb>, s: Kernel.State, x: Tcb, b: nat)
    requires Mirrors(q, ts, s) && b < q.cpus && x in q.Queue(b)
    ensures exists t :: 0 <= t < |ts| && ts[t] == x
  {
    assert MatchesCpu(Contents(q), ts, s.cpus[b], b);
    var i :| 0 <= i < |q.Queue(b)| && q.Queue(b)[i] == x;
    assert ts[s.cpus[b].queue[i]] == x;
  }
}
