/** The bounded message queue of kernel/sync.c: a ring of QUEUE_CAP words used by any
    number of senders and receivers that retry after every wake-up.  Interrupts are masked
    during one turn of either loop, so on its single CPU a turn is one step. */
module MsgQueue {
  import opened Base

  const QUEUE_CAP: nat := 4

  /** buf, head, tail and count of queue_t. */
  datatype Ring = Ring(buf: seq<nat>, head: nat, tail: nat, count: nat)

  predicate ValidRing(r: Ring) {
    && |r.buf| == QUEUE_CAP && r.head < QUEUE_CAP && r.tail < QUEUE_CAP && r.count <= QUEUE_CAP
    && r.tail == (r.head + r.count) % QUEUE_CAP
  }

  /** The queue the ring stands for, oldest item first. */
  function Contents(r: Ring): (c: seq<nat>)
    requires ValidRing(r)
    ensures |c| == r.count
  {
    seq(r.count, i requires 0 <= i < r.count => r.buf[(r.head + i) % QUEUE_CAP])
  }

  function Push(r: Ring, item: nat): Ring
    requires ValidRing(r) && r.count < QUEUE_CAP
  {
    Ring(r.buf[r.tail := item], r.head, (r.tail + 1) % QUEUE_CAP, r.count + 1)
  }

  function Pop(r: Ring): Ring
    requires ValidRing(r) && r.count > 0
  {
    r.(head := (r.head + 1) % QUEUE_CAP, count := r.count - 1)
  }

  lemma PushAppends(r: Ring, item: nat)
    requires ValidRing(r) && r.count < QUEUE_CAP
    ensures ValidRing(Push(r, item)) && Contents(Push(r, item)) == Contents(r) + [item]
  {
    var p := Push(r, item);
    forall i | 0 <= i < r.count ensures Contents(p)[i] == Contents(r)[i] {
      assert (r.head + i) % QUEUE_CAP != r.tail;
    }
  }

  lemma PopTakesOldest(r: Ring)
    requires ValidRing(r) && r.count > 0
    ensures ValidRing(Pop(r)) && Contents(r) == [r.buf[r.head]] + Contents(Pop(r))
  {
    var p := Pop(r);
    forall i | 0 <= i < p.count ensures Contents(p)[i] == Contents(r)[i + 1] {
      assert (p.head + i) % QUEUE_CAP == (r.head + (i + 1)) % QUEUE_CAP;
    }
  }

  /** queue_t with the task states it changes: asleep[t] is state != 0. */
  class Queue {
    const buf: array<nat>
    var head: nat
    var tail: nat
    var count: nat
    var sendWaiter: Option<nat>
    var recvWaiter: Option<nat>
    const asleep: array<bool>

    ghost function Value(): Ring
      reads this, buf
    {
      Ring(buf[..], head, tail, count)
    }

    ghost predicate Valid()
      reads this, buf
    {
      && ValidRing(Value())
      && (sendWaiter.Some? ==> sendWaiter.value < asleep.Length)
      && (recvWaiter.Some? ==> recvWaiter.value < asleep.Length)
    }

    constructor (tasks: nat)
      ensures Valid() && Contents(Value()) == [] && sendWaiter == None && recvWaiter == None
      ensures asleep.Length == tasks && forall t :: 0 <= t < tasks ==> !asleep[t]
      ensures fresh(buf) && fresh(asleep)
    {
      buf := new nat[QUEUE_CAP](_ => 0);
      head, tail, count := 0, 0, 0;
      sendWaiter, recvWaiter := None, None;
      asleep := new bool[tasks](_ => false);
    }

    /** One turn of the loop in queue_send. */
    method TrySend(current: nat, item: nat) returns (sent: bool)
      requires Valid() && current < asleep.Length
      modifies this, buf, asleep
      ensures Valid() && sent == (|old(Contents(Value()))| < QUEUE_CAP)
      ensures sent ==>
        && Value() == Push(old(Value()), item) && Contents(Value()) == old(Contents(Value())) + [item]
        && recvWaiter == None && sendWaiter == old(sendWaiter) && asleep[..] == Awoken(old(asleep[..]), old(recvWaiter))
      ensures !sent ==>
        && Value() == old(Value()) && sendWaiter == Some(current) && recvWaiter == old(recvWaiter)
        && asleep[..] == old(asleep[..])[current := true]
    {
      ghost var before := Value();
      if count < QUEUE_CAP {
        PushAppends(before, item);
        buf[tail] := item;
        tail := (tail + 1) % QUEUE_CAP;
        count := count + 1;
        assert Value() == Push(before, item);
        if recvWaiter.Some? {
          asleep[recvWaiter.value] := false;
          recvWaiter := None;
        }
        return true;
      }
      sendWaiter := Some(current);
      asleep[current] := true;
      return false;
    }

    /** One turn of the loop in queue_recv. */
    method TryRecv(current: nat) returns (item: Option<nat>)
      requires Valid() && current < asleep.Length
      modifies this, buf, asleep
      ensures Valid() && item.Some? == (old(Contents(Value())) != [])
      ensures item.Some? ==>
        && Value() == Pop(old(Value())) && old(Contents(Value())) == [item.value] + Contents(Value())
        && sendWaiter == None && recvWaiter == old(recvWaiter) && asleep[..] == Awoken(old(asleep[..]), old(sendWaiter))
      ensures item.None? ==>
        && Value() == old(Value()) && recvWaiter == Some(current) && sendWaiter == old(sendWaiter)
        && asleep[..] == old(asleep[..])[current := true]
    {
      ghost var before := Value();
      if count > 0 {
        PopTakesOldest(before);
        item := Some(buf[head]);
        head := (head + 1) % QUEUE_CAP;
        count := count - 1;
        assert Value() == Pop(before);
        if sendWaiter.Some? {
          asleep[sendWaiter.value] := false;
          sendWaiter := None;
        }
        return;
      }
      recvWaiter := Some(current);
      asleep[current] := true;
      return None;
    }
  }

  /** The task states after a registered waiter, if any, is made READY. */
  function Awoken(asleep: seq<bool>, waiter: Option<nat>): seq<bool>
    requires waiter.Some? ==> waiter.value < |asleep|
  {
    if waiter.Some? then asleep[waiter.value := false] else asleep
  }

  // ---- runs ---------------------------------------------------------------------------

  /** What a task is doing: outside the queue, or inside one of the two loops. */
  datatype Doing = Other | Sending(item: nat) | Receiving

  /** sent and received are the histories of completed calls. */
  datatype State = State(
    ring: Ring, sendWaiter: Option<nat>, recvWaiter: Option<nat>, asleep: seq<bool>, doing: seq<Doing>,
    sent: seq<nat>, received: seq<nat>)

  datatype Step =
    | CallSend(task: nat, item: nat)
    | CallRecv(task: nat)
    | Turn(task: nat)

  ghost predicate Shape(s: State) {
    && |s.doing| == |s.asleep| && ValidRing(s.ring)
    && (s.sendWaiter.Some? ==> s.sendWaiter.value < |s.asleep|)
    && (s.recvWaiter.Some? ==> s.recvWaiter.value < |s.asleep|)
  }

  /** Only a READY task runs; a turn is taken inside one of the loops. */
  ghost predicate Enabled(s: State, a: Step)
    requires Shape(s)
  {
    && a.task < |s.asleep| && !s.asleep[a.task]
    && (a.Turn? <==> !s.doing[a.task].Other?)
  }

  ghost function SendTurn(s: State, t: nat): State
    requires Shape(s) && t < |s.asleep| && s.doing[t].Sending?
  {
    if s.ring.count < QUEUE_CAP then
      var item := s.doing[t].item;
      s.(ring := Push(s.ring, item), recvWaiter := None, asleep := Awoken(s.asleep, s.recvWaiter),
         doing := s.doing[t := Other], sent := s.sent + [item])
    else
      s.(sendWaiter := Some(t), asleep := s.asleep[t := true])
  }

  ghost function RecvTurn(s: State, t: nat): State
    requires Shape(s) && t < |s.asleep| && s.doing[t].Receiving?
  {
    if s.ring.count > 0 then
      s.(ring := Pop(s.ring), sendWaiter := None, asleep := Awoken(s.asleep, s.sendWaiter),
         doing := s.doing[t := Other], received := s.received + [s.ring.buf[s.ring.head]])
    else
      s.(recvWaiter := Some(t), asleep := s.asleep[t := true])
  }

  ghost function Do(s: State, a: Step): State
    requires Shape(s) && Enabled(s, a)
  {
    match a
    case CallSend(t, item) => s.(doing := s.doing[t := Sending(item)])
    case CallRecv(t) => s.(doing := s.doing[t := Receiving])
    case Turn(t) => if s.doing[t].Sending? then SendTurn(s, t) else RecvTurn(s, t)
  }

  ghost predicate Init(s: State) {
    && Shape(s) && s.ring.count == 0 && s.sendWaiter == None && s.recvWaiter == None
    && s.sent == [] && s.received == []
    && forall t :: 0 <= t < |s.asleep| ==> !s.asleep[t] && s.doing[t].Other?
  }

  ghost predicate Run(run: seq<State>, steps: seq<Step>) {
    && |run| == |steps| + 1 && Init(run[0])
    && forall i :: 0 <= i < |steps| ==> Shape(run[i]) && Enabled(run[i], steps[i]) && run[i + 1] == Do(run[i], steps[i])
  }

  /** A registered waiter is BLOCKED in the loop it registered from. */
  ghost predicate TaskInv(s: State, t: nat)
    requires Shape(s) && t < |s.asleep|
  {
    && (s.asleep[t] ==> !s.doing[t].Other?)
    && (s.sendWaiter == Some(t) ==> s.asleep[t] && s.doing[t].Sending?)
    && (s.recvWaiter == Some(t) ==> s.asleep[t] && s.doing[t].Receiving?)
  }

  ghost predicate Inv(s: State) {
    && Shape(s)
    && s.sent == s.received + Contents(s.ring)
    && (s.sendWaiter.Some? ==> s.ring.count == QUEUE_CAP)
    && (s.recvWaiter.Some? ==> s.ring.count == 0)
    && (forall t :: 0 <= t < |s.asleep| ==> TaskInv(s, t))
  }

  lemma SendTurnKeeps(s: State, t: nat)
    requires Inv(s) && Enabled(s, Turn(t)) && s.doing[t].Sending?
    ensures Inv(SendTurn(s, t))
  {
    var r := SendTurn(s, t);
    assert TaskInv(s, t);
    if s.ring.count < QUEUE_CAP {
      PushAppends(s.ring, s.doing[t].item);
    }
    forall u | 0 <= u < |r.asleep| ensures TaskInv(r, u) { assert TaskInv(s, u); }
  }

  lemma RecvTurnKeeps(s: State, t: nat)
    requires Inv(s) && Enabled(s, Turn(t)) && s.doing[t].Receiving?
    ensures Inv(RecvTurn(s, t))
  {
    var r := RecvTurn(s, t);
    assert TaskInv(s, t);
    if s.ring.count > 0 {
      PopTakesOldest(s.ring);
      assert r.received + Contents(r.ring) == s.received + ([s.ring.buf[s.ring.head]] + Contents(r.ring));
    }
    forall u | 0 <= u < |r.asleep| ensures TaskInv(r, u) { assert TaskInv(s, u); }
  }

  lemma StepKeepsInv(s: State, a: Step)
    requires Inv(s) && Enabled(s, a)
    ensures Inv(Do(s, a))
  {
    var r := Do(s, a);
    if a.Turn? {
      if s.doing[a.task].Sending? {
        SendTurnKeeps(s, a.task);
      } else {
        RecvTurnKeeps(s, a.task);
      }
    } else {
      forall u | 0 <= u < |r.asleep| ensures TaskInv(r, u) { assert TaskInv(s, u) && TaskInv(s, a.task); }
    }
  }

  lemma {:induction false} RunKeepsInv(run: seq<State>, steps: seq<Step>, i: nat)
    requires Run(run, steps) && i < |run|
    ensures Inv(run[i])
  {
    if i == 0 {
      forall t | 0 <= t < |run[0].asleep| ensures TaskInv(run[0], t) {}
    } else {
      RunKeepsInv(run, steps, i - 1);
      StepKeepsInv(run[i - 1], steps[i - 1]);
      assert run[i - 1 + 1] == Do(run[i - 1], steps[i - 1]);
    }
  }

  // ---- what every run promises --------------------------------------------------------

  /** Any mix of senders and receivers: items come out in the order they went in, each once,
      and what is still inside is exactly the rest. */
  lemma FifoRefinement(run: seq<State>, steps: seq<Step>, i: nat)
    requires Run(run, steps) && i < |run|
    ensures run[i].received <= run[i].sent
    ensures ValidRing(run[i].ring) && run[i].sent[|run[i].received|..] == Contents(run[i].ring)
    ensures |run[i].sent| - |run[i].received| <= 4
  {
    RunKeepsInv(run, steps, i);
  }

  /** While a call of queue_send is under way its item does not change. */
  lemma {:induction false} ItemIsKept(run: seq<State>, steps: seq<Step>, i: nat, j: nat, t: nat, item: nat)
    requires Run(run, steps) && i < j < |run| && steps[i] == CallSend(t, item)
    requires forall k :: i < k < j ==> run[k + 1].sent == run[k].sent || steps[k].task != t
    ensures t < |run[j].doing| && run[j].doing[t] == Sending(item)
    decreases j
  {
    assert run[j - 1 + 1] == Do(run[j - 1], steps[j - 1]);
    if j > i + 1 {
      ItemIsKept(run, steps, i, j - 1, t, item);
    }
  }

  /** However often a sender had to wait and retry, what its call finally puts into the queue
      is the item it was called with, and it is put there once. */
  lemma SendsItsItem(run: seq<State>, steps: seq<Step>, i: nat, j: nat, t: nat, item: nat)
    requires Run(run, steps) && i < j < |steps| && steps[i] == CallSend(t, item)
    requires forall k :: i < k < j ==> run[k + 1].sent == run[k].sent || steps[k].task != t
    requires steps[j].task == t && run[j + 1].sent != run[j].sent
    ensures run[j + 1].sent == run[j].sent + [item] && t < |run[j + 1].doing| && run[j + 1].doing[t].Other?
  {
    ItemIsKept(run, steps, i, j, t, item);
    assert run[j + 1] == Do(run[j], steps[j]);
  }

  /** A BLOCKED task that nobody will wake: in neither waiter slot. */
  predicate Lost(s: State, t: nat) {
    t < |s.asleep| && s.asleep[t] && s.sendWaiter != Some(t) && s.recvWaiter != Some(t)
  }

  /** A turn that blocks while the one waiter slot for its direction is taken. */
  ghost predicate Overwrites(s: State, a: Step)
    requires Shape(s)
  {
    && a.Turn? && a.task < |s.asleep| && |s.doing| == |s.asleep|
    && (|| (s.doing[a.task].Sending? && s.ring.count == QUEUE_CAP && s.sendWaiter.Some?)
        || (s.doing[a.task].Receiving? && s.ring.count == 0 && s.recvWaiter.Some?))
  }

  /** A lost task stays lost, whatever step is taken, and a step that overwrites no waiter
      loses nobody. */
  lemma StepsAndLost(s: State, a: Step, t: nat)
    requires Inv(s) && Enabled(s, a)
    ensures Lost(s, t) ==> Lost(Do(s, a), t)
    ensures !Overwrites(s, a) && !Lost(s, t) ==> !Lost(Do(s, a), t)
  {
    if t < |s.asleep| {
      assert TaskInv(s, t) && TaskInv(s, a.task);
    }
  }

  lemma OverwritingLoses(s: State, a: Step)
    requires Inv(s) && Enabled(s, a) && Overwrites(s, a)
    ensures exists t :: Lost(Do(s, a), t)
  {
    var w := if s.doing[a.task].Sending? then s.sendWaiter.value else s.recvWaiter.value;
    assert TaskInv(s, w) && TaskInv(s, a.task);
    assert Lost(Do(s, a), w);
  }

  /** A lost task never runs again, whatever the rest of the run does. */
  lemma {:induction false} LostSleepsOn(run: seq<State>, steps: seq<Step>, i: nat, j: nat, t: nat)
    requires Run(run, steps) && i <= j < |run| && Lost(run[i], t)
    ensures Lost(run[j], t)
    decreases j
  {
    if i < j {
      LostSleepsOn(run, steps, i, j - 1, t);
      RunKeepsInv(run, steps, j - 1);
      StepsAndLost(run[j - 1], steps[j - 1], t);
      assert run[j - 1 + 1] == Do(run[j - 1], steps[j - 1]);
    }
  }

  lemma {:induction false} LostHasACause(run: seq<State>, steps: seq<Step>, i: nat, t: nat) returns (j: nat)
    requires Run(run, steps) && i < |run| && Lost(run[i], t)
    ensures j < i && Shape(run[j]) && Overwrites(run[j], steps[j])
    decreases i
  {
    assert i > 0;
    RunKeepsInv(run, steps, i - 1);
    assert run[i - 1 + 1] == Do(run[i - 1], steps[i - 1]);
    if Lost(run[i - 1], t) {
      j := LostHasACause(run, steps, i - 1, t);
    } else {
      StepsAndLost(run[i - 1], steps[i - 1], t);
      j := i - 1;
    }
  }

  /** At any point of any run of any mix of senders and receivers, some task is BLOCKED with
      no waiter slot naming it if and only if an earlier turn blocked while the slot for its
      direction was taken. */
  lemma LostWakeupsExactly(run: seq<State>, steps: seq<Step>, i: nat)
    requires Run(run, steps) && i < |run|
    ensures (exists t :: Lost(run[i], t)) <==> (exists j :: 0 <= j < i && Shape(run[j]) && Overwrites(run[j], steps[j]))
  {
    if t :| Lost(run[i], t) {
      var j := LostHasACause(run, steps, i, t);
    }
    if j :| 0 <= j < i && Shape(run[j]) && Overwrites(run[j], steps[j]) {
      RunKeepsInv(run, steps, j);
      OverwritingLoses(run[j], steps[j]);
      assert run[j + 1] == Do(run[j], steps[j]);
      var t :| Lost(run[j + 1], t);
      LostSleepsOn(run, steps, j + 1, i, t);
    }
  }

  /** It does happen: two receivers that find the ring empty one after the other. */
  lemma TwoReceiversLoseOne() returns (run: seq<State>, steps: seq<Step>)
    ensures Run(run, steps) && Lost(run[|steps|], 0)
    ensures forall t :: 0 <= t < 2 ==> t < |run[|steps|].asleep| && run[|steps|].asleep[t]
  {
    var s0 := State(Ring([0, 0, 0, 0], 0, 0, 0), None, None, [false, false], [Other, Other], [], []);
    steps := [CallRecv(0), Turn(0), CallRecv(1), Turn(1)];
    var s1 := s0.(doing := [Receiving, Other]);
    var s2 := s1.(recvWaiter := Some(0), asleep := [true, false]);
    var s3 := s2.(doing := [Receiving, Receiving]);
    var s4 := s3.(recvWaiter := Some(1), asleep := [true, true]);
    assert Shape(s0) && Enabled(s0, steps[0]) && s1 == Do(s0, steps[0]);
    assert Shape(s1) && Enabled(s1, steps[1]) && s2 == Do(s1, steps[1]);
    assert Shape(s2) && Enabled(s2, steps[2]) && s3 == Do(s2, steps[2]);
    assert Shape(s3) && Enabled(s3, steps[3]) && s4 == Do(s3, steps[3]);
    run := [s0, s1, s2, s3, s4];
  }

  /** With nobody lost, a BLOCKED sender means a full ring and a BLOCKED receiver an empty
      one, and at most one task is BLOCKED at all. */
  lemma NobodyLostMeansOneSleeper(s: State, t: nat, u: nat)
    requires Inv(s) && t < |s.asleep| && u < |s.asleep| && !Lost(s, t) && !Lost(s, u)
    requires s.asleep[t] && s.asleep[u]
    ensures t == u
    ensures s.doing[t].Sending? ==> s.ring.count == QUEUE_CAP
    ensures s.doing[t].Receiving? ==> s.ring.count == 0
  {
    assert TaskInv(s, t) && TaskInv(s, u);
  }

  /** Task a is the only sender and task b the only receiver. */
  ghost predicate OneEach(steps: seq<Step>, a: nat, b: nat) {
    && (forall i :: 0 <= i < |steps| && steps[i].CallSend? ==> steps[i].task == a)
    && (forall i :: 0 <= i < |steps| && steps[i].CallRecv? ==> steps[i].task == b)
  }

  ghost predicate Roles(s: State, a: nat, b: nat) {
    forall t :: 0 <= t < |s.doing| ==> (s.doing[t].Sending? ==> t == a) && (s.doing[t].Receiving? ==> t == b)
  }

  lemma {:induction false} OneEachKeepsRoles(run: seq<State>, steps: seq<Step>, a: nat, b: nat, i: nat)
    requires Run(run, steps) && i < |run| && OneEach(steps, a, b)
    ensures Roles(run[i], a, b)
  {
    if i > 0 {
      OneEachKeepsRoles(run, steps, a, b, i - 1);
      assert run[i - 1 + 1] == Do(run[i - 1], steps[i - 1]);
    }
  }

  lemma OneEachLosesNobody(run: seq<State>, steps: seq<Step>, a: nat, b: nat, i: nat, t: nat)
    requires Run(run, steps) && i < |run| && OneEach(steps, a, b)
    ensures !Lost(run[i], t)
  {
    LostWakeupsExactly(run, steps, i);
    forall j | 0 <= j < i && Shape(run[j]) ensures !Overwrites(run[j], steps[j]) {
      RunKeepsInv(run, steps, j);
      OneEachKeepsRoles(run, steps, a, b, j);
      if steps[j].Turn? {
        WaiterIsNotRunning(run[j], steps[j].task, a, b);
      }
    }
  }

  lemma WaiterIsNotRunning(s: State, t: nat, a: nat, b: nat)
    requires Inv(s) && Enabled(s, Turn(t)) && Roles(s, a, b)
    ensures s.doing[t].Sending? ==> s.sendWaiter.None?
    ensures s.doing[t].Receiving? ==> s.recvWaiter.None?
  {
    assert TaskInv(s, t);
    if s.sendWaiter.Some? {
      assert TaskInv(s, s.sendWaiter.value);
    }
    if s.recvWaiter.Some? {
      assert TaskInv(s, s.recvWaiter.value);
    }
  }

  /** One sender and one receiver are never both BLOCKED, in any run; the one that sleeps
      sleeps for a reason. */
  lemma NeverBothBlocked(run: seq<State>, steps: seq<Step>, a: nat, b: nat, i: nat)
    requires Run(run, steps) && i < |run| && OneEach(steps, a, b) && a != b
    requires a < |run[i].asleep| && b < |run[i].asleep|
    ensures !(run[i].asleep[a] && run[i].asleep[b])
    ensures run[i].asleep[a] ==> run[i].ring.count == QUEUE_CAP
    ensures run[i].asleep[b] ==> run[i].ring.count == 0
  {
    RunKeepsInv(run, steps, i);
    OneEachKeepsRoles(run, steps, a, b, i);
    OneEachLosesNobody(run, steps, a, b, i, a);
    OneEachLosesNobody(run, steps, a, b, i, b);
    assert TaskInv(run[i], a) && TaskInv(run[i], b);
  }
}
