/** The run queues of kernel/sched.c and the code that changes them in place.  Each method
    is the body of one critical section or of one call with nothing running beside it; the
    interleavings are the subject of modules Kernel, Balancer and ContextSwitch. */
module Scheduler {
  import opened Base
  import opened QueueSpec
  import opened Selection

  /** The scheduler's part of tcb_t; state 0 is READY. */
  class Tcb {
    var state: int
    var load: nat    // ewma_load
    var cpu: nat
    var pinned: bool

    constructor ()
      ensures state == 0 && load == 0 && cpu == 0 && !pinned
    {
      state, load, cpu, pinned := 0, 0, 0, false;
    }
  }

  /** (current_idx + i) % num_tasks is the entry the scan visits i-th. */
  method EntryAfter(cur: nat, i: nat, num: nat) returns (idx: nat)
    requires cur < num && 1 <= i <= num
    ensures idx < num && Dist(cur, idx, num) == i - 1
  {
    idx := (cur + i) % num;
    ScanVisits(cur, i, num);
  }

  /** runqueues[] and cpu_locals[].curr, one row per CPU. */
  class RunQueues {
    const cpus: nat
    const tasks: array2<Tcb?>
    const numTasks: array<nat>
    const currentIdx: array<nat>
    const selectCount: array2<nat>
    const curr: array<Tcb?>

    /** Empty queues and no current tasks, as in zero-initialised storage. */
    constructor (n: nat)
      ensures cpus == n && Valid() && IdxValid() && Partition()
      ensures forall c :: 0 <= c < n ==> numTasks[c] == 0 && curr[c] == null
    {
      cpus := n;
      tasks := new Tcb?[n, MAX_TASKS]((_, _) => null);
      numTasks := new nat[n](_ => 0);
      currentIdx := new nat[n](_ => 0);
      selectCount := new nat[n, MAX_TASKS]((_, _) => 0);
      curr := new Tcb?[n](_ => null);
    }

    /** Queue sizes are in bounds and their entries are tasks. */
    ghost predicate Valid()
      reads tasks, numTasks
    {
      && tasks.Length0 == cpus && tasks.Length1 == MAX_TASKS && numTasks.Length == cpus && currentIdx.Length == cpus
      && selectCount.Length0 == cpus && selectCount.Length1 == MAX_TASKS && curr.Length == cpus
      && numTasks != currentIdx
      && (forall c :: 0 <= c < cpus ==> numTasks[c] <= MAX_TASKS)
      && (forall c, i :: 0 <= c < cpus && 0 <= i < numTasks[c] ==> tasks[c, i] != null)
    }

    /** current_idx is an index of the queue, or 0 for an empty queue. */
    ghost predicate IdxValid()
      reads numTasks, currentIdx
      requires numTasks.Length == cpus && currentIdx.Length == cpus
    {
      forall c :: 0 <= c < cpus ==> currentIdx[c] < numTasks[c] || (numTasks[c] == 0 && currentIdx[c] == 0)
    }

    ghost function Queue(c: nat): (q: seq<Tcb>)
      requires Valid() && c < cpus
      reads tasks, numTasks
      ensures |q| == numTasks[c] && forall i :: 0 <= i < |q| ==> q[i] == tasks[c, i]
    {
      seq(numTasks[c], i requires Valid() && c < cpus && 0 <= i < numTasks[c] reads tasks, numTasks => tasks[c, i] as Tcb)
    }

    /** Each queued task is queued once, in the queue its cpu field names. */
    ghost predicate Partition()
      requires Valid()
      reads tasks, numTasks
      reads set c: nat, i: nat | c < cpus && i < MAX_TASKS && tasks[c, i] != null :: tasks[c, i]
    {
      forall c :: 0 <= c < cpus ==> HoldsItsOwn(c)
    }

    ghost predicate HoldsItsOwn(c: nat)
      requires Valid() && c < cpus
      reads tasks, numTasks, Queue(c)
    {
      Distinct(Queue(c)) && forall t :: t in Queue(c) ==> t.cpu == c
    }

    ghost function ReadyFlags(c: nat): (r: seq<bool>)
      requires Valid() && c < cpus
      reads tasks, numTasks, Queue(c)
      ensures |r| == numTasks[c] && forall i :: 0 <= i < |r| ==> r[i] == (Queue(c)[i].state == 0)
    {
      var q := Queue(c);
      seq(|q|, i requires 0 <= i < |q| reads q => q[i].state == 0)
    }

    ghost function Loads(c: nat): (r: seq<nat>)
      requires Valid() && c < cpus
      reads tasks, numTasks, Queue(c)
      ensures |r| == numTasks[c] && forall i :: 0 <= i < |r| ==> r[i] == Queue(c)[i].load
    {
      var q := Queue(c);
      seq(|q|, i requires 0 <= i < |q| reads q => q[i].load)
    }

    /** Only CPU c's current_idx differs from the state at the start of the method. */
    twostate predicate OtherCpusKept(c: nat)
      reads currentIdx
    {
      forall d :: 0 <= d < currentIdx.Length && d != c ==> currentIdx[d] == old(currentIdx[d])
    }

    /** select_count moves by one at the chosen entry and nowhere else. */
    twostate predicate CountsOnly(c: nat, chosen: Option<nat>)
      reads selectCount
    {
      forall d, j :: 0 <= d < selectCount.Length0 && 0 <= j < selectCount.Length1 ==>
        selectCount[d, j] == if d == c && chosen == Some(j) then (old(selectCount[d, j]) + 1) % 0x1_0000_0000_0000_0000
                             else old(selectCount[d, j])
    }

    /** The fallback of both policies: nobody is READY, so stay on current and point
        current_idx at it if it is queued here. */
    method Resync(c: nat) returns (n: Tcb)
      requires Valid() && IdxValid() && c < cpus && curr[c] != null
      modifies currentIdx
      ensures n == curr[c] && IdxValid() && OtherCpusKept(c)
      ensures n in Queue(c) ==> Queue(c)[currentIdx[c]] == n
      ensures n !in Queue(c) ==> currentIdx[c] == old(currentIdx[c])
    {
      n := curr[c];
      var i := 0;
      while i < numTasks[c]
        invariant 0 <= i <= numTasks[c]
        invariant forall j :: 0 <= j < i ==> Queue(c)[j] != n
        invariant currentIdx[..] == old(currentIdx[..])
      {
        if tasks[c, i] == n {
          currentIdx[c] := i;
          return;
        }
        i := i + 1;
      }
    }

    /** The scan of roundrobin_select_next, from current_idx + 1 once round the queue. */
    method ScanRoundRobin(c: nat) returns (found: Option<nat>)
      requires Valid() && IdxValid() && c < cpus
      ensures found.Some? ==> numTasks[c] > 0 && NextReady(ReadyFlags(c), currentIdx[c], found.value)
      ensures found.None? ==> true !in ReadyFlags(c)
    {
      var num, cur := numTasks[c], currentIdx[c];
      ghost var flags := ReadyFlags(c);
      var i := 1;
      while i <= num
        invariant 1 <= i <= num + 1
        invariant forall j :: 0 <= j < num && flags[j] ==> Dist(cur, j, num) >= i - 1
      {
        var idx := EntryAfter(cur, i, num);
        if tasks[c, idx].state == 0 {
          return Some(idx);
        }
        assert !flags[idx];
        i := i + 1;
      }
      return None;
    }

    /** The scan of load_aware_select_next, keeping the best entry so far. */
    method ScanLoadAware(c: nat) returns (best: Option<nat>)
      requires Valid() && IdxValid() && c < cpus
      ensures best.Some? ==> numTasks[c] > 0 && BestReady(ReadyFlags(c), Loads(c), currentIdx[c], best.value)
      ensures best.None? ==> true !in ReadyFlags(c)
    {
      var num, cur := numTasks[c], currentIdx[c];
      ghost var flags, loads := ReadyFlags(c), Loads(c);
      best := None;
      if num == 0 {
        return;
      }
      var i := 1;
      while i <= num
        invariant 1 <= i <= num + 1
        invariant BestOfFirst(flags, loads, cur, i - 1, best)
      {
        var idx := EntryAfter(cur, i, num);
        BestOfFirstStep(flags, loads, cur, i - 1, best, idx);
        if tasks[c, idx].state == 0 && (best.None? || tasks[c, idx].load < tasks[c, best.value].load) {
          best := Some(idx);
        }
        i := i + 1;
      }
      BestOfAll(flags, loads, cur, best);
    }

    /** What both policies do with the outcome of their scan. */
    method Commit(c: nat, found: Option<nat>) returns (n: Tcb)
      requires Valid() && IdxValid() && c < cpus && curr[c] != null
      requires found.Some? ==> found.value < numTasks[c]
      modifies currentIdx, selectCount
      ensures IdxValid() && OtherCpusKept(c)
      ensures CountsOnly(c, found)
      ensures found.Some? ==> currentIdx[c] == found.value && n == Queue(c)[found.value]
      ensures found.None? ==>
        n == curr[c] && (if n in Queue(c) then Queue(c)[currentIdx[c]] == n else currentIdx[c] == old(currentIdx[c]))
    {
      match found {
        case Some(idx) =>
          currentIdx[c] := idx;
          selectCount[c, idx] := (selectCount[c, idx] + 1) % 0x1_0000_0000_0000_0000;
          n := tasks[c, idx];
        case None =>
          n := Resync(c);
      }
    }

    /** roundrobin_select_next: the first READY task after current_idx, cyclically, or else
        the current task. */
    method RoundRobinSelectNext(c: nat) returns (n: Tcb)
      requires Valid() && IdxValid() && c < cpus && curr[c] != null
      modifies currentIdx, selectCount
      ensures IdxValid() && OtherCpusKept(c)
      ensures CountsOnly(c, if true in ReadyFlags(c) then Some(currentIdx[c]) else None)
      ensures true in ReadyFlags(c) ==>
        NextReady(ReadyFlags(c), old(currentIdx[c]), currentIdx[c]) && n == Queue(c)[currentIdx[c]]
      ensures true !in ReadyFlags(c) ==>
        n == curr[c] && (if n in Queue(c) then Queue(c)[currentIdx[c]] == n else currentIdx[c] == old(currentIdx[c]))
    {
      var found := ScanRoundRobin(c);
      n := Commit(c, found);
    }

    /** load_aware_select_next: the least loaded READY task, the first after current_idx
        among equals, or else the current task. */
    method LoadAwareSelectNext(c: nat) returns (n: Tcb)
      requires Valid() && IdxValid() && c < cpus && curr[c] != null
      modifies currentIdx, selectCount
      ensures IdxValid() && OtherCpusKept(c)
      ensures CountsOnly(c, if true in ReadyFlags(c) then Some(currentIdx[c]) else None)
      ensures true in ReadyFlags(c) ==>
        BestReady(ReadyFlags(c), Loads(c), old(currentIdx[c]), currentIdx[c]) && n == Queue(c)[currentIdx[c]]
      ensures true !in ReadyFlags(c) ==>
        n == curr[c] && (if n in Queue(c) then Queue(c)[currentIdx[c]] == n else currentIdx[c] == old(currentIdx[c]))
    {
      var best := ScanLoadAware(c);
      n := Commit(c, best);
    }

    /** Queues and current_idx of all CPUs are as they were at the start of the method. */
    twostate predicate Untouched()
      requires Valid() && old(Valid())
      reads tasks, numTasks, currentIdx
    {
      && (forall c :: 0 <= c < cpus ==> Queue(c) == old(Queue(c)))
      && currentIdx[..] == old(currentIdx[..])
    }

    /** Queues of CPUs other than c are as they were. */
    twostate predicate OtherQueuesKept(c: nat)
      requires Valid() && old(Valid())
      reads tasks, numTasks
    {
      forall d :: 0 <= d < cpus && d != c ==> numTasks[d] == old(numTasks[d]) && Queue(d) == old(Queue(d))
    }

    /** t is in no queue. */
    ghost predicate Nowhere(t: Tcb)
      requires Valid()
      reads tasks, numTasks
    {
      forall c :: 0 <= c < cpus ==> t !in Queue(c)
    }

    /** tasks[num_tasks] = t; t->cpu = c; num_tasks++ */
    method Append(c: nat, t: Tcb)
      requires Valid() && c < cpus && numTasks[c] < MAX_TASKS
      modifies tasks, numTasks, t`cpu
      ensures Valid() && t.cpu == c && numTasks[c] == old(numTasks[c]) + 1 && OtherQueuesKept(c)
      ensures Queue(c) == old(Queue(c)) + [t]
      ensures old(Partition()) && old(Nowhere(t)) ==> Partition()
    {
      ghost var before, wanted := Queues(), Partition() && Nowhere(t);
      if wanted {
        PartitionFacts();
      }
      tasks[c, numTasks[c]] := t;
      t.cpu := c;
      numTasks[c] := numTasks[c] + 1;
      if wanted {
        AppendedKeepsPartition(before, c, t);
      }
    }

    lemma PartitionFacts()
      requires Valid() && Partition()
      ensures forall d :: 0 <= d < cpus ==> Distinct(Queues()[d])
      ensures forall d, u :: 0 <= d < cpus && u in Queues()[d] ==> u.cpu == d
    {
      forall d | 0 <= d < cpus
        ensures Distinct(Queues()[d]) && forall u :: u in Queues()[d] ==> u.cpu == d
      {
        assert HoldsItsOwn(d);
      }
    }

    lemma AppendedKeepsPartition(before: seq<seq<Tcb>>, c: nat, t: Tcb)
      requires Valid() && c < cpus == |before| && Queue(c) == before[c] + [t] && t.cpu == c
      requires forall d :: 0 <= d < cpus && d != c ==> Queue(d) == before[d]
      requires forall d :: 0 <= d < cpus ==> Distinct(before[d])
      requires forall d, u :: 0 <= d < cpus && u in before[d] ==> u != t && u.cpu == d
      ensures Partition()
    {
      forall d | 0 <= d < cpus ensures HoldsItsOwn(d) {
      }
    }

    lemma RemovedKeepsPartition(before: seq<seq<Tcb>>, c: nat, idx: nat)
      requires Valid() && c < cpus == |before| && idx < |before[c]| && Queue(c) == SwapRemove(before[c], idx)
      requires forall d :: 0 <= d < cpus && d != c ==> Queue(d) == before[d]
      requires forall d :: 0 <= d < cpus ==> Distinct(before[d])
      requires forall d, u :: 0 <= d < cpus && u in before[d] ==> u.cpu == d
      ensures Partition() && Nowhere(before[c][idx])
    {
      SwapRemoveContents(before[c], idx);
      forall d | 0 <= d < cpus ensures HoldsItsOwn(d) && before[c][idx] !in Queue(d) {
      }
    }

    ghost function Queues(): (r: seq<seq<Tcb>>)
      requires Valid()
      reads tasks, numTasks
      ensures |r| == cpus && forall c :: 0 <= c < cpus ==> r[c] == Queue(c)
    {
      seq(cpus, c requires Valid() && 0 <= c < cpus reads tasks, numTasks => Queue(c))
    }

    /** Swap-remove entry idx and clamp current_idx. */
    method RemoveAt(c: nat, idx: nat)
      requires Valid() && IdxValid() && c < cpus && idx < numTasks[c]
      modifies tasks, numTasks, currentIdx
      ensures Valid() && IdxValid() && OtherQueuesKept(c) && OtherCpusKept(c)
      ensures numTasks[c] == old(numTasks[c]) - 1 && Queue(c) == SwapRemove(old(Queue(c)), idx)
      ensures currentIdx[c] == (if old(currentIdx[c]) < numTasks[c] then old(currentIdx[c]) else 0)
      ensures old(Partition()) ==> Partition() && Nowhere(old(Queue(c)[idx]))
    {
      ghost var before, wanted := Queues(), Partition();
      if wanted {
        PartitionFacts();
      }
      tasks[c, idx] := tasks[c, numTasks[c] - 1];
      numTasks[c] := numTasks[c] - 1;
      if currentIdx[c] >= numTasks[c] {
        currentIdx[c] := 0;
      }
      if wanted {
        RemovedKeepsPartition(before, c, idx);
      }
    }

    /** sched_register_on, called on CPU self: append unless the queue is full. */
    method RegisterOn(c: nat, t: Tcb, self: nat)
      requires Valid() && IdxValid() && c < cpus && self < cpus
      modifies tasks, numTasks, currentIdx, t`cpu
      ensures Valid() && IdxValid() && OtherQueuesKept(c) && OtherCpusKept(c)
      ensures old(numTasks[c]) == MAX_TASKS ==> Untouched() && t.cpu == old(t.cpu)
      ensures old(numTasks[c]) < MAX_TASKS ==>
        && t.cpu == c && Queue(c) == old(Queue(c)) + [t]
        && currentIdx[c] == if c == self && t == curr[self] then old(numTasks[c]) else old(currentIdx[c])
      ensures old(Partition()) && old(Nowhere(t)) ==> Partition()
    {
      if numTasks[c] < MAX_TASKS {
        if c == self && t == curr[self] {
          currentIdx[c] := numTasks[c];
        }
        Append(c, t);
      }
    }

    /** The search loop of sched_migrate. */
    method IndexIn(t: Tcb, c: nat) returns (idx: Option<nat>)
      requires Valid() && c < cpus
      ensures idx.Some? ==> idx.value < numTasks[c] && Queue(c)[idx.value] == t && t !in Queue(c)[..idx.value]
      ensures idx.None? ==> t !in Queue(c)
    {
      var i := 0;
      while i < numTasks[c]
        invariant 0 <= i <= numTasks[c]
        invariant t !in Queue(c)[..i]
      {
        if tasks[c, i] == t {
          return Some(i);
        }
        i := i + 1;
      }
      return None;
    }

    /** Swap-remove from one queue, append to the other. */
    method MoveEntry(t: Tcb, src: nat, idx: nat, dst: nat)
      requires Valid() && IdxValid() && src < cpus && dst < cpus && src != dst
      requires idx < numTasks[src] && Queue(src)[idx] == t && numTasks[dst] < MAX_TASKS
      modifies tasks, numTasks, currentIdx, t`cpu
      ensures Valid() && IdxValid()
      ensures t.cpu == dst && Queue(dst) == old(Queue(dst)) + [t] && Queue(src) == SwapRemove(old(Queue(src)), idx)
      ensures numTasks[src] == old(numTasks[src]) - 1 && numTasks[dst] == old(numTasks[dst]) + 1
      ensures currentIdx[src] == (if old(currentIdx[src]) < numTasks[src] then old(currentIdx[src]) else 0) && OtherCpusKept(src)
      ensures forall c :: 0 <= c < cpus && c != src && c != dst ==> numTasks[c] == old(numTasks[c]) && Queue(c) == old(Queue(c))
      ensures old(Partition()) ==> Partition()
    {
      RemoveAt(src, idx);
      Append(dst, t);
    }

    /** sched_migrate once both locks are held; src is the home CPU read before that. */
    method Migrate(t: Tcb, src: nat, dst: nat) returns (ok: bool)
      requires Valid() && IdxValid() && src < cpus && dst < cpus
      modifies tasks, numTasks, currentIdx, t`cpu
      ensures Valid() && IdxValid()
      ensures ok <==>
        && dst != src && dst != 0 && t.state == 0 && t != curr[src]
        && t in old(Queue(src)) && old(numTasks[dst]) < MAX_TASKS
      ensures !ok ==> Untouched() && t.cpu == old(t.cpu)
      ensures ok ==>
        && t.cpu == dst && Queue(dst) == old(Queue(dst)) + [t]
        && (exists i :: 0 <= i < |old(Queue(src))| && old(Queue(src))[i] == t && Queue(src) == SwapRemove(old(Queue(src)), i))
        && numTasks[src] == old(numTasks[src]) - 1 && numTasks[dst] == old(numTasks[dst]) + 1
        && currentIdx[src] == (if old(currentIdx[src]) < numTasks[src] then old(currentIdx[src]) else 0)
        && (forall c :: 0 <= c < cpus && c != src && c != dst ==> numTasks[c] == old(numTasks[c]) && Queue(c) == old(Queue(c)))
        && (forall c :: 0 <= c < cpus && c != src ==> currentIdx[c] == old(currentIdx[c]))
      ensures old(Partition()) ==> Partition()
    {
      ok := false;
      if dst == src || dst == 0 {
        return;
      }
      if t.state == 0 && t != curr[src] {
        var idx := IndexIn(t, src);
        if idx.Some? && numTasks[dst] < MAX_TASKS {
          MoveEntry(t, src, idx.value, dst);
          ok := true;
        }
      }
    }

    /** The scan of sched_load_balance_pass over secondaries 1..online-1. */
    method FindExtremes(online: nat) returns (busiest: Option<nat>, idlest: Option<nat>)
      requires Valid() && online <= cpus
      ensures online <= 1 ==> busiest.None? && idlest.None?
      ensures online > 1 ==> busiest.Some? && idlest.Some?
      ensures online > 1 ==> IsBusiest(numTasks[..online], busiest.value) && IsIdlest(numTasks[..online], idlest.value)
    {
      busiest, idlest := None, None;
      var busiestN, idlestN := -1, 0x4000_0000;
      ghost var lens := numTasks[..online];
      var cpu := 1;
      while cpu < online
        invariant cpu == 1 || 1 < cpu <= online
        invariant cpu == 1 ==> busiest.None? && idlest.None? && busiestN == -1 && idlestN == 0x4000_0000
        invariant cpu > 1 ==> busiest.Some? && 1 <= busiest.value < cpu && lens[busiest.value] == busiestN
        invariant cpu > 1 ==> idlest.Some? && 1 <= idlest.value < cpu && lens[idlest.value] == idlestN
        invariant forall c :: 1 <= c < cpu ==> idlestN <= lens[c] <= busiestN
        invariant cpu > 1 ==> forall c :: 1 <= c < busiest.value ==> lens[c] < busiestN
        invariant cpu > 1 ==> forall c :: 1 <= c < idlest.value ==> idlestN < lens[c]
      {
        var n := numTasks[cpu];
        if n > busiestN {
          busiestN, busiest := n, Some(cpu);
        }
        if n < idlestN {
          idlestN, idlest := n, Some(cpu);
        }
        cpu := cpu + 1;
      }
    }

    /** A task the pass may take from CPU b: READY, not running there, not pinned. */
    predicate Eligible(t: Tcb, b: nat)
      requires b < curr.Length
      reads t, curr
    {
      t.state == 0 && t != curr[b] && !t.pinned
    }

    /** The victim scan: the first eligible entry of the busiest queue. */
    method FindVictim(b: nat) returns (victim: Tcb?)
      requires Valid() && b < cpus
      ensures victim == null ==> forall t :: t in Queue(b) ==> !Eligible(t, b)
      ensures victim != null ==> exists i :: 0 <= i < |Queue(b)| && Queue(b)[i] == victim && Eligible(victim, b) &&
                                             forall j :: 0 <= j < i ==> !Eligible(Queue(b)[j], b)
    {
      var i := 0;
      while i < numTasks[b]
        invariant 0 <= i <= numTasks[b]
        invariant forall j :: 0 <= j < i ==> !Eligible(Queue(b)[j], b)
      {
        var t := tasks[b, i];
        if t.state == 0 && t != curr[b] && !t.pinned {
          assert Queue(b)[i] == t;
          return t;
        }
        i := i + 1;
      }
      return null;
    }

    /** The pass has something to do: the longest and the shortest secondary queue differ
        by two or more and the longest holds an eligible task. */
    ghost predicate Uneven(online: nat, b: nat, l: nat)
      requires Valid() && online <= cpus
      reads tasks, numTasks, curr
      reads if b < cpus then Queue(b) else []
    {
      && IsBusiest(numTasks[..online], b) && IsIdlest(numTasks[..online], l)
      && numTasks[b] - numTasks[l] >= 2 && exists t :: t in Queue(b) && Eligible(t, b)
    }

    ghost predicate CanBalance(online: nat)
      requires Valid() && online <= cpus
      reads tasks, numTasks, curr
      reads set c: nat, i: nat | c < cpus && i < MAX_TASKS && tasks[c, i] != null :: tasks[c, i]
    {
      exists b, l :: Uneven(online, b, l)
    }

    /** The decision part of sched_load_balance_pass. */
    method ChooseMove(online: nat) returns (victim: Tcb?, b: nat, l: nat)
      requires Valid() && online <= cpus
      ensures victim != null ==> Uneven(online, b, l) && victim in Queue(b) && Eligible(victim, b)
      ensures victim == null ==> !CanBalance(online)
    {
      victim, b, l := null, 0, 0;
      var busiest, idlest := FindExtremes(online);
      if busiest.None? || idlest.None? {
        return;
      }
      b, l := busiest.value, idlest.value;
      forall x, y | IsBusiest(numTasks[..online], x) && IsIdlest(numTasks[..online], y) ensures x == b && y == l {
        ExtremesAreUnique(numTasks[..online], x, b, y, l);
      }
      if b == l || numTasks[b] - numTasks[l] < 2 {
        return;
      }
      victim := FindVictim(b);
    }

    /** The call of sched_migrate on a victim nobody else has touched since it was chosen. */
    method MoveVictim(victim: Tcb, b: nat, l: nat, online: nat)
      requires Valid() && IdxValid() && Partition() && online <= cpus && b < online && l < online
      requires IsBusiest(numTasks[..online], b) && IsIdlest(numTasks[..online], l) && numTasks[b] - numTasks[l] >= 2
      requires victim in Queue(b) && Eligible(victim, b)
      modifies tasks, numTasks, currentIdx, victim`cpu
      ensures Valid() && IdxValid() && Partition() && Queue(0) == old(Queue(0))
      ensures victim.cpu == l && Queue(l) == old(Queue(l)) + [victim]
      ensures Imbalance(numTasks[..online]) + 2 <= Imbalance(old(numTasks[..online]))
    {
      assert HoldsItsOwn(b);
      ghost var before := numTasks[..online];
      MoveLowersImbalance(before, b, l);
      var ok := Migrate(victim, victim.cpu, l);
      assert numTasks[..online] == Moved(before, b, l);
    }

    /** sched_load_balance_pass with nothing running beside it: it moves a task exactly when
        the queues are uneven, an eligible one from the busiest to the idlest secondary, and
        then the sum of squared lengths falls by at least 2.  The results report what it did. */
    method BalancePass(online: nat) returns (victim: Tcb?, b: nat, l: nat)
      requires Valid() && IdxValid() && Partition() && online <= cpus
      modifies tasks, numTasks, currentIdx
      modifies set c: nat, i: nat | c < cpus && i < MAX_TASKS && tasks[c, i] != null :: tasks[c, i]
      ensures Valid() && IdxValid() && Partition()
      ensures victim != null <==> old(CanBalance(online))
      ensures victim == null ==> Untouched()
      ensures victim != null ==>
        && old(Uneven(online, b, l)) && victim in old(Queue(b)) && victim.cpu == l
        && Queue(l) == old(Queue(l)) + [victim] && Queue(0) == old(Queue(0))
        && Imbalance(numTasks[..online]) + 2 <= Imbalance(old(numTasks[..online]))
    {
      victim, b, l := ChooseMove(online);
      if victim != null {
        assert Uneven(online, b, l);
        MoveVictim(victim, b, l, online);
      }
    }
  }

  /** ewma_on_tick: charge one tick to the running task. */
  method EwmaOnTick(t: Tcb)
    modifies t`load
    ensures t.load == Charge(old(t.load))
    ensures old(t.load) <= SATURATED ==> 10 * t.load <= 7 * old(t.load) + 3000 < 10 * (t.load + 1)
  {
    t.load := (3 * 1000 + (10 - 3) * t.load) % 0x1_0000_0000 / 10;
  }
}
