/** The submission and completion rings of kernel/accel.c: 16 slots each, indexed by
    free-running unsigned 32-bit counters. */
module Rings {
  import opened Base

  const DEPTH: nat := 16
  const U32: nat := 0x1_0000_0000

  // ---- a ring as a queue --------------------------------------------------------------

  /** The 16 slots, with unbounded head and tail counts, hold the queue q. */
  predicate Holds<T(==)>(ring: seq<T>, head: nat, tail: nat, q: seq<T>) {
    && |ring| == DEPTH && head + |q| == tail
    && forall k :: 0 <= k < |q| ==> ring[(head + k) % DEPTH] == q[k]
  }

  /** A slot index taken from the 32-bit counter is the one the unbounded count gives, also
      after the counter has wrapped. */
  lemma WrappedIndex(n: nat)
    ensures n % U32 % DEPTH == n % DEPTH
  {
    var q, r := n / U32, n % U32;
    assert n == DEPTH * (q * 0x1000_0000) + r;
    MultipleVanishes(q * 0x1000_0000, r);
  }

  lemma {:induction false} MultipleVanishes(k: nat, r: nat)
    ensures (DEPTH * k + r) % DEPTH == r % DEPTH
  {
    if k > 0 {
      MultipleVanishes(k - 1, r);
      assert DEPTH * k + r == (DEPTH * (k - 1) + r) + DEPTH;
    }
  }

  /** Incrementing the 32-bit counter follows the unbounded count. */
  lemma WrappedIncrement(n: nat)
    ensures (n % U32 + 1) % U32 == (n + 1) % U32
  {
  }

  /** Two counts have equal 32-bit images exactly when they are a multiple of 2^32 apart; no
      more than 16 apart, only if they are equal. */
  lemma WrappedEquality(head: nat, tail: nat)
    requires head <= tail
    ensures head % U32 == tail % U32 <==> (tail - head) % U32 == 0
    ensures tail <= head + DEPTH ==> (head % U32 == tail % U32 <==> head == tail)
  {
    SameRemainder(head, tail);
  }

  lemma SlotsDiffer(a: nat, b: nat)
    requires a < b < a + DEPTH
    ensures a % DEPTH != b % DEPTH
  {
  }

  /** Storing at the tail appends to the queue exactly when the slot is free, or happens to
      hold the same entry: with 16 or more entries unconsumed it overwrites the one 16
      places back. */
  lemma StoreAppendsExactly<T>(ring: seq<T>, head: nat, tail: nat, q: seq<T>, x: T)
    requires Holds(ring, head, tail, q)
    ensures Holds(ring[tail % DEPTH := x], head, tail + 1, q + [x]) <==> (|q| < DEPTH || q[|q| - DEPTH] == x)
  {
    var r := ring[tail % DEPTH := x];
    if |q| >= DEPTH {
      assert (head + (|q| - DEPTH)) % DEPTH == tail % DEPTH;
      assert (q + [x])[|q| - DEPTH] == q[|q| - DEPTH];
    }
    if |q| < DEPTH || q[|q| - DEPTH] == x {
      forall k | 0 <= k < |q| + 1 ensures r[(head + k) % DEPTH] == (q + [x])[k] {
        if k < |q| && k > |q| - DEPTH {
          SlotsDiffer(head + k, tail);
        } else if k < |q| {
          assert ring[(head + k) % DEPTH] == q[k];
          if (head + k) % DEPTH == tail % DEPTH {
            SameSlotSameEntry(ring, head, tail, q, k);
          }
        }
      }
    }
  }

  /** Entries in one slot are the same entry. */
  lemma SameSlotSameEntry<T>(ring: seq<T>, head: nat, tail: nat, q: seq<T>, k: nat)
    requires Holds(ring, head, tail, q) && |q| >= DEPTH && k <= |q| - DEPTH
    requires (head + k) % DEPTH == tail % DEPTH
    ensures q[k] == q[|q| - DEPTH]
  {
    assert (head + (|q| - DEPTH)) % DEPTH == tail % DEPTH;
    assert ring[(head + k) % DEPTH] == q[k] && ring[(head + (|q| - DEPTH)) % DEPTH] == q[|q| - DEPTH];
  }

  /** What the consumer will read once x has been stored at the tail, however many entries are
      unconsumed: x at the end, and also in place of every entry a multiple of 16 back. */
  function Stored<T>(q: seq<T>, x: T): (r: seq<T>)
    ensures |r| == |q| + 1
    ensures |q| < DEPTH ==> r == q + [x]
  {
    seq(|q| + 1, k requires 0 <= k <= |q| => if k == |q| || (|q| - k) % DEPTH == 0 then x else q[k])
  }

  lemma SlotsMeet(a: nat, b: nat)
    requires a <= b
    ensures a % DEPTH == b % DEPTH <==> (b - a) % DEPTH == 0
  {
  }

  lemma StoreHolds<T>(ring: seq<T>, head: nat, tail: nat, q: seq<T>, x: T)
    requires Holds(ring, head, tail, q)
    ensures Holds(ring[tail % DEPTH := x], head, tail + 1, Stored(q, x))
  {
    forall k | 0 <= k <= |q| ensures ring[tail % DEPTH := x][(head + k) % DEPTH] == Stored(q, x)[k] {
      SlotsMeet(head + k, tail);
    }
  }

  /** Consuming at the head removes the oldest entry. */
  lemma LoadRemoves<T>(ring: seq<T>, head: nat, tail: nat, q: seq<T>)
    requires Holds(ring, head, tail, q) && q != []
    ensures ring[head % DEPTH] == q[0] && Holds(ring, head + 1, tail, q[1..])
  {
    assert ring[(head + 0) % DEPTH] == q[0];
    forall k | 0 <= k < |q| - 1 ensures ring[(head + 1 + k) % DEPTH] == q[1..][k] {
      assert ring[(head + (k + 1)) % DEPTH] == q[k + 1];
    }
  }

  // ---- command identifiers ------------------------------------------------------------

  /** The cmd_id of the n-th submission, counting from 0: sq_tail_local + 1 in 32 bits. */
  function CmdId(n: nat): nat {
    (n % U32 + 1) % U32
  }

  /** Identifiers collide only a multiple of 2^32 submissions apart, so those of any window
      of 2^32 outstanding submissions are distinct. */
  lemma IdsCollideExactly(i: nat, j: nat)
    requires i <= j
    ensures CmdId(i) == CmdId(j) <==> (j - i) % U32 == 0
  {
    SameRemainder(i, j);
    var r, s := i % U32, j % U32;
    assert (r + 1) % U32 == (if r + 1 == U32 then 0 else r + 1);
    assert (s + 1) % U32 == (if s + 1 == U32 then 0 else s + 1);
  }

  lemma SameRemainder(i: nat, j: nat)
    requires i <= j
    ensures i % U32 == j % U32 <==> (j - i) % U32 == 0
  {
    Division(i);
    Division(j);
    Division(j - i);
    var k := j / U32 - i / U32 - (j - i) / U32;
    assert j % U32 - i % U32 - (j - i) % U32 == -(U32 * k);
  }

  lemma Division(n: nat)
    ensures n == U32 * (n / U32) + n % U32 && 0 <= n % U32 < U32
  {
  }

  /** The identifier 0, meant for "no completion yet", is handed out after 2^32 - 1
      submissions and then once every 2^32. */
  lemma ZeroIdExactly(n: nat)
    ensures CmdId(n) == 0 <==> n % U32 == U32 - 1
  {
  }

  // ---- the driver ---------------------------------------------------------------------

  datatype Cmd = Cmd(opcode: nat, len: nat, src: nat, dst: nat, id: nat, src2: nat, scalarBits: nat, reserved: nat)
  datatype Completion = Completion(id: nat, status: nat)

  /** accel_submit_copy's descriptor. */
  function CopyCmd(src: nat, dst: nat, len: nat, id: nat): Cmd {
    Cmd(0, len, src, dst, id, 0, 0, 0)
  }

  /** What the device completes before each read of CQ_TAIL never overruns the ring: len
      entries unconsumed, arrivals[0] more before the next read, one fewer after it. */
  predicate Room(len: nat, arrivals: seq<seq<Completion>>)
    decreases |arrivals|
  {
    arrivals != [] ==>
      && len + |arrivals[0]| <= DEPTH
      && (len + |arrivals[0]| > 0 ==> Room(len + |arrivals[0]| - 1, arrivals[1..]))
  }

  function Flatten(batches: seq<seq<Completion>>): seq<Completion> {
    if batches == [] then [] else batches[0] + Flatten(batches[1..])
  }

  function StoredAll(q: seq<Completion>, batch: seq<Completion>): seq<Completion> {
    if batch == [] then q else Stored(StoredAll(q, batch[..|batch| - 1]), batch[|batch| - 1])
  }

  lemma {:induction false} StoredAllAppends(q: seq<Completion>, batch: seq<Completion>)
    requires |q| + |batch| <= DEPTH
    ensures StoredAll(q, batch) == q + batch
  {
    if batch != [] {
      StoredAllAppends(q, batch[..|batch| - 1]);
      assert batch == batch[..|batch| - 1] + [batch[|batch| - 1]];
    }
  }

  /** What a drain takes and what it leaves. */
  datatype Haul = Haul(out: seq<Completion>, left: seq<Completion>)

  /** The drain loop on a device that completes arrivals[k] just before the k-th read of
      CQ_TAIL, without regard to how many completions are unconsumed. */
  function DrainedBy(q: seq<Completion>, arrivals: seq<seq<Completion>>): Haul
    decreases |arrivals|
  {
    if arrivals == [] then Haul([], q)
    else
      var p := StoredAll(q, arrivals[0]);
      if |p| % U32 == 0 then Haul([], p)
      else
        var r := DrainedBy(p[1..], arrivals[1..]);
        Haul([p[0]] + r.out, r.left)
  }

  /** One turn of the loop, at arrival k. */
  lemma DrainTurn(q: seq<Completion>, arrivals: seq<seq<Completion>>, k: nat)
    requires k < |arrivals|
    ensures var p := StoredAll(q, arrivals[k]);
      DrainedBy(q, arrivals[k..]) ==
        if |p| % U32 == 0 then Haul([], p)
        else Haul([p[0]] + DrainedBy(p[1..], arrivals[k + 1..]).out, DrainedBy(p[1..], arrivals[k + 1..]).left)
  {
    assert arrivals[k..][0] == arrivals[k] && arrivals[k..][1..] == arrivals[k + 1..];
  }

  /** The batches the loop has looked at. */
  function Seen(arrivals: seq<seq<Completion>>, drained: nat): seq<seq<Completion>> {
    if drained < |arrivals| then arrivals[..drained + 1] else arrivals
  }

  /** A drain from q that takes the oldest entries in order, loses and repeats nothing, and
      stops early only on an empty queue. */
  predicate Fifo(q: seq<Completion>, arrivals: seq<seq<Completion>>, r: Haul) {
    && |r.out| <= |arrivals| && (|r.out| < |arrivals| ==> r.left == [])
    && r.out + r.left == q + Flatten(Seen(arrivals, |r.out|))
  }

  lemma FifoStep(q: seq<Completion>, arrivals: seq<seq<Completion>>, p: seq<Completion>, r: Haul)
    requires arrivals != [] && p == q + arrivals[0] && p != [] && Fifo(p[1..], arrivals[1..], r)
    ensures Fifo(q, arrivals, Haul([p[0]] + r.out, r.left))
  {
    var seen := Seen(arrivals, |r.out| + 1);
    assert seen[0] == arrivals[0] && seen[1..] == Seen(arrivals[1..], |r.out|);
    var f := Flatten(seen[1..]);
    assert ([p[0]] + r.out) + r.left == [p[0]] + (r.out + r.left);
    assert [p[0]] + (p[1..] + f) == p + f;
    assert (q + arrivals[0]) + f == q + (arrivals[0] + f);
  }

  /** As long as the device never has more than 16 completions unconsumed, the drain is that
      of an unbounded queue, across any wrap of the counters. */
  lemma {:induction false} DrainIsFifo(q: seq<Completion>, arrivals: seq<seq<Completion>>)
    requires Room(|q|, arrivals)
    ensures Fifo(q, arrivals, DrainedBy(q, arrivals))
    decreases |arrivals|
  {
    if arrivals != [] {
      var p := StoredAll(q, arrivals[0]);
      StoredAllAppends(q, arrivals[0]);
      if p != [] {
        DrainIsFifo(p[1..], arrivals[1..]);
        FifoStep(q, arrivals, p, DrainedBy(p[1..], arrivals[1..]));
      } else {
        assert Seen(arrivals, 0) == [arrivals[0]] && Flatten([arrivals[0]]) == arrivals[0] + Flatten([]);
      }
    }
  }

  class Accel {
    const sqRing: array<Cmd>
    const cqRing: array<Completion>
    var sqTail: nat          // sq_tail_local, 32 bits
    var cqHead: nat          // cq_head_local, 32 bits
    var regSqTail: nat       // doorbell register
    var sqHead: nat          // the device's own count, 32 bits
    var regCqTail: nat       // written by the device
    var regCqHead: nat
    ghost var sq: seq<Cmd>          // what the device has yet to fetch
    ghost var cq: seq<Completion>   // what is yet to be drained
    ghost var submitted: nat        // unbounded counts
    ghost var completed: nat

    /** The rings hold the two queues and the 32-bit counters follow the unbounded counts. */
    ghost predicate Valid()
      reads this, sqRing, cqRing
    {
      && |sq| <= submitted && Holds(sqRing[..], submitted - |sq|, submitted, sq)
      && |cq| <= completed && Holds(cqRing[..], completed - |cq|, completed, cq)
      && sqTail == submitted % U32 && regSqTail == sqTail && sqHead == (submitted - |sq|) % U32
      && cqHead == (completed - |cq|) % U32 && regCqHead == cqHead && regCqTail == completed % U32
    }

    constructor ()
      ensures Valid() && sq == [] && cq == [] && submitted == 0
    {
      sqRing := new Cmd[DEPTH](_ => Cmd(0, 0, 0, 0, 0, 0, 0, 0));
      cqRing := new Completion[DEPTH](_ => Completion(0, 0));
      sqTail, sqHead, cqHead, regSqTail, regCqTail, regCqHead := 0, 0, 0, 0, 0, 0;
      sq, cq, submitted, completed := [], [], 0, 0;
    }

    /** accel_submit_copy.  There is no check for a full ring: with fewer than 16 unfetched
        the queue grows by exactly this command, otherwise the command also replaces the one
        16 places back. */
    method SubmitCopy(src: nat, dst: nat, len: nat) returns (id: nat)
      requires Valid()
      modifies this`sqTail, this`regSqTail, this`sq, this`submitted, sqRing
      ensures Valid() && id == CmdId(old(submitted)) && submitted == old(submitted) + 1
      ensures sq == Stored(old(sq), CopyCmd(src, dst, len, id))
      ensures old(|sq|) < 16 ==> sq[..|sq| - 1] == old(sq)
      ensures var cmd := sq[|sq| - 1];
        && cmd.opcode == 0 && cmd.src == src && cmd.dst == dst && cmd.len == len && cmd.id == id
        && cmd.src2 == 0 && cmd.scalarBits == 0 && cmd.reserved == 0
    {
      WrappedIndex(submitted);
      WrappedIncrement(submitted);
      var idx := sqTail % DEPTH;
      id := (sqTail + 1) % U32;
      StoreHolds(sqRing[..], submitted - |sq|, submitted, sq, CopyCmd(src, dst, len, id));
      sqRing[idx] := CopyCmd(src, dst, len, id);
      sqTail := (sqTail + 1) % U32;
      regSqTail := sqTail;
      sq, submitted := Stored(sq, CopyCmd(src, dst, len, id)), submitted + 1;
    }

    /** The device: fetch the oldest submission; sqHead is its own 32-bit consumer count. */
    method DeviceFetch() returns (cmd: Cmd)
      requires Valid() && sq != []
      modifies this`sq, this`sqHead
      ensures Valid() && cmd == old(sq)[0] && sq == old(sq)[1..]
    {
      LoadRemoves(sqRing[..], submitted - |sq|, submitted, sq);
      WrappedIndex(submitted - |sq|);
      WrappedIncrement(submitted - |sq|);
      cmd := sqRing[sqHead % DEPTH];
      sqHead := (sqHead + 1) % U32;
      sq := sq[1..];
    }

    /** The device: complete one command. */
    method DeviceCompleteOne(c: Completion)
      requires Valid()
      modifies this`cq, this`completed, this`regCqTail, cqRing
      ensures Valid() && cq == Stored(old(cq), c)
    {
      WrappedIndex(completed);
      WrappedIncrement(completed);
      StoreHolds(cqRing[..], completed - |cq|, completed, cq, c);
      cqRing[regCqTail % DEPTH] := c;
      regCqTail := (regCqTail + 1) % U32;
      cq, completed := Stored(cq, c), completed + 1;
    }

    /** The device: complete a batch of commands. */
    method DeviceComplete(batch: seq<Completion>)
      requires Valid()
      modifies this`cq, this`completed, this`regCqTail, cqRing
      ensures Valid() && cq == StoredAll(old(cq), batch)
    {
      for i := 0 to |batch|
        invariant Valid() && cq == StoredAll(old(cq), batch[..i])
      {
        DeviceCompleteOne(batch[i]);
        assert batch[..i + 1][..i] == batch[..i];
      }
      assert batch[..|batch|] == batch;
    }

    /** reg_read(REG_CQ_TAIL) != cq_head_local exactly when the number of waiting completions
        is no multiple of 2^32: with at most 16, exactly when one is waiting. */
    method HasCompletion() returns (b: bool)
      requires Valid()
      ensures b <==> |cq| % U32 != 0
      ensures |cq| <= DEPTH ==> (b <==> cq != [])
    {
      WrappedEquality(completed - |cq|, completed);
      b := regCqTail != cqHead;
    }

    /** The body of the drain loop: take the oldest completion. */
    method DrainOne() returns (c: Completion)
      requires Valid() && cq != []
      modifies this`cq, this`cqHead, this`regCqHead
      ensures Valid() && c == old(cq)[0] && cq == old(cq)[1..]
    {
      LoadRemoves(cqRing[..], completed - |cq|, completed, cq);
      WrappedIndex(completed - |cq|);
      WrappedIncrement(completed - |cq|);
      var idx := cqHead % DEPTH;
      c := cqRing[idx];
      cqHead := (cqHead + 1) % U32;
      regCqHead := cqHead;
      cq := cq[1..];
    }

    /** One test of the drain loop and, if it succeeds, its body; the device completes
        arrivals[k] just before the test. */
    method TakeNext(ghost arrivals: seq<seq<Completion>>, ghost k: nat, batch: seq<Completion>) returns (c: Option<Completion>)
      requires Valid() && k < |arrivals| && batch == arrivals[k]
      modifies this`cq, this`cqHead, this`regCqHead, this`completed, this`regCqTail, cqRing
      ensures Valid()
      ensures DrainedBy(old(cq), arrivals[k..]) ==
        match c
        case None => Haul([], cq)
        case Some(x) => Cons(x, DrainedBy(cq, arrivals[k + 1..]))
    {
      DrainTurn(cq, arrivals, k);
      DeviceComplete(batch);
      var more := HasCompletion();
      if more {
        var oldest := DrainOne();
        c := Some(oldest);
      } else {
        c := None;
      }
    }

    /** accel_drain_completions_multi, while the device goes on completing. */
    method DrainMulti(out: array<Completion>, maxOut: nat, arrivals: seq<seq<Completion>>) returns (drained: nat)
      requires Valid() && maxOut <= out.Length && |arrivals| == maxOut
      requires out != cqRing
      modifies this`cq, this`cqHead, this`regCqHead, this`completed, this`regCqTail, cqRing, out
      ensures Valid() && drained <= maxOut && Haul(out[..drained], cq) == DrainedBy(old(cq), arrivals)
    {
      drained := 0;
      ghost var all, taken := DrainedBy(cq, arrivals), [];
      assert arrivals[0..] == arrivals;
      while drained < maxOut
        invariant 0 <= drained <= maxOut && Valid() && out[..drained] == taken
        invariant Continues(all, taken, DrainedBy(cq, arrivals[drained..]))
      {
        ghost var rest := DrainedBy(cq, arrivals[drained..]);
        var c := TakeNext(arrivals, drained, arrivals[drained]);
        if c.None? {
          assert Continues(all, taken, Haul([], cq));
          return;
        }
        ContinuesOn(all, taken, c.value, DrainedBy(cq, arrivals[drained + 1..]));
        out[drained] := c.value;
        drained, taken := drained + 1, taken + [c.value];
      }
      assert arrivals[maxOut..] == [];
    }
  }

  function Cons(x: Completion, r: Haul): Haul {
    Haul([x] + r.out, r.left)
  }

  /** The drain `all` has taken `taken` and goes on as `rest`. */
  predicate Continues(all: Haul, taken: seq<Completion>, rest: Haul) {
    all == Haul(taken + rest.out, rest.left)
  }

  lemma ContinuesOn(all: Haul, taken: seq<Completion>, x: Completion, rest: Haul)
    requires Continues(all, taken, Cons(x, rest))
    ensures Continues(all, taken + [x], rest)
  {
    assert taken + ([x] + rest.out) == (taken + [x]) + rest.out;
  }
}
