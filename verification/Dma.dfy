/** The DMA submit, complete and wake path of kernel/main.c: the pending table, the
    completion dispatcher and the workers, with a device that completes submitted commands
    in any order at any time. */
module Dma {
  import opened Base
  import opened Rings

  // ---- the pending table --------------------------------------------------------------

  /** pending_req_t; sem is the worker whose semaphore it is. */
  datatype Slot = Slot(id: nat, sem: nat, result: Completion, used: bool, done: bool)

  /** The first index at which a flag is set: the shape of every scan over the table. */
  function FirstTrue(flags: seq<bool>): (r: Option<nat>)
    ensures r.Some? ==> r.value < |flags| && flags[r.value] && forall j :: 0 <= j < r.value ==> !flags[j]
    ensures r.None? ==> forall j :: 0 <= j < |flags| ==> !flags[j]
  {
    if flags == [] then None
    else
      var r := FirstTrue(flags[..|flags| - 1]);
      if r.Some? then r else if flags[|flags| - 1] then Some(|flags| - 1) else None
  }

  function Free(table: seq<Slot>): (f: seq<bool>)
    ensures |f| == |table|
  {
    seq(|table|, i requires 0 <= i < |table| => !table[i].used)
  }

  /** The slots dispatch_available_completions matches with a completion. */
  function Waiting(table: seq<Slot>, id: nat): (f: seq<bool>)
    ensures |f| == |table|
  {
    seq(|table|, i requires 0 <= i < |table| => table[i].used && !table[i].done && table[i].id == id)
  }

  /** The slots a worker's lookup accepts. */
  function Named(table: seq<Slot>, id: nat): (f: seq<bool>)
    ensures |f| == |table|
  {
    seq(|table|, i requires 0 <= i < |table| => table[i].used && table[i].id == id)
  }

  /** pending_register: the first free slot, or nothing at all when there is none. */
  function Registered(table: seq<Slot>, id: nat, sem: nat): (r: seq<Slot>)
    ensures |r| == |table|
  {
    match FirstTrue(Free(table))
    case None => table
    case Some(i) => table[i := Slot(id, sem, table[i].result, true, false)]
  }

  /** The match of one completion: where it goes, and the table after it is recorded. */
  function Recorded(table: seq<Slot>, c: Completion): (r: seq<Slot>)
    ensures |r| == |table|
  {
    match FirstTrue(Waiting(table, c.id))
    case None => table
    case Some(i) => table[i := table[i].(result := c, done := true)]
  }

  /** A completion for a command whose registration is attempted on this table finds its
      slot exactly when the table has a free slot: the table size bounds the number of
      submissions. */
  lemma RegistrationSucceedsExactly(table: seq<Slot>, id: nat, sem: nat)
    requires forall i :: 0 <= i < |table| ==> !(table[i].used && table[i].id == id)
    ensures FirstTrue(Waiting(Registered(table, id, sem), id)).Some? <==> exists i :: 0 <= i < |table| && !table[i].used
  {
    var r := Registered(table, id, sem);
    if i :| 0 <= i < |table| && !table[i].used {
      assert Free(table)[i];
      var k := FirstTrue(Free(table)).value;
      assert Waiting(r, id)[k];
    } else {
      assert r == table;
      forall i | 0 <= i < |r| ensures !Waiting(r, id)[i] {
      }
    }
  }

  /** The table and the posts after a whole batch of completions. */
  function RecordedAll(table: seq<Slot>, comps: seq<Completion>): seq<Slot>
    decreases |comps|
  {
    if comps == [] then table else RecordedAll(Recorded(table, comps[0]), comps[1..])
  }

  function PostedAll(table: seq<Slot>, sems: seq<nat>, comps: seq<Completion>): seq<nat>
    decreases |comps|
  {
    if comps == [] then sems else PostedAll(Recorded(table, comps[0]), Posted(table, sems, comps[0]), comps[1..])
  }

  function Posted(table: seq<Slot>, sems: seq<nat>, c: Completion): seq<nat> {
    match FirstTrue(Waiting(table, c.id))
    case None => sems
    case Some(i) => if table[i].sem < |sems| then sems[table[i].sem := sems[table[i].sem] + 1] else sems
  }

  /** Completions of different commands may be dispatched in either order: the same slots,
      the same results, the same posts. */
  lemma DispatchOrderIsImmaterial(table: seq<Slot>, sems: seq<nat>, a: Completion, b: Completion)
    requires a.id != b.id
    ensures Recorded(Recorded(table, a), b) == Recorded(Recorded(table, b), a)
    ensures Posted(Recorded(table, a), Posted(table, sems, a), b) == Posted(Recorded(table, b), Posted(table, sems, b), a)
  {
    assert Waiting(Recorded(table, a), b.id) == Waiting(table, b.id);
    assert Waiting(Recorded(table, b), a.id) == Waiting(table, a.id);
    assert Recorded(Recorded(table, a), b) == Recorded(Recorded(table, b), a);
  }

  /** A slot that is done keeps its result, a completion whose slots are all done is dropped
      without a post, and any other goes to exactly one slot: a repeated or stray completion
      harms nobody. */
  lemma RecordedOnce(table: seq<Slot>, sems: seq<nat>, c: Completion)
    ensures forall i :: 0 <= i < |table| && table[i].done ==> Recorded(table, c)[i] == table[i]
    ensures (forall i :: 0 <= i < |table| && table[i].used && table[i].id == c.id ==> table[i].done) ==>
      Recorded(table, c) == table && Posted(table, sems, c) == sems
    ensures (exists i :: 0 <= i < |table| && table[i].used && table[i].id == c.id && !table[i].done) ==>
      exists i :: 0 <= i < |table| && table[i].used && table[i].id == c.id && !table[i].done
        && Recorded(table, c) == table[i := Slot(c.id, table[i].sem, c, true, true)]
  {
    var f := FirstTrue(Waiting(table, c.id));
    if f.Some? {
      assert Waiting(table, c.id)[f.value];
    } else {
      forall i | 0 <= i < |table| ensures !(table[i].used && table[i].id == c.id && !table[i].done) {
        assert !Waiting(table, c.id)[i];
      }
    }
  }

  class PendingTable {
    const slots: array<Slot>
    const sems: array<nat>   // posts made to each worker's semaphore

    constructor (workers: nat)
      ensures slots.Length == workers && sems.Length == workers
      ensures forall i :: 0 <= i < workers ==> !slots[i].used && sems[i] == 0
    {
      slots := new Slot[workers](_ => Slot(0, 0, Completion(0, 0), false, false));
      sems := new nat[workers](_ => 0);
    }

    /** pending_register. */
    method Register(id: nat, sem: nat)
      modifies slots
      ensures slots[..] == Registered(old(slots[..]), id, sem)
    {
      ghost var table := slots[..];
      for i := 0 to slots.Length
        invariant slots[..] == table
        invariant forall j :: 0 <= j < i ==> table[j].used
      {
        if !slots[i].used {
          assert Free(table)[i] && FirstTrue(Free(table)) == Some(i);
          slots[i] := Slot(id, sem, slots[i].result, true, false);
          return;
        }
      }
      assert FirstTrue(Free(table)) == None;
    }

    /** The inner loop of dispatch_available_completions for one completion: record it in
        the first matching slot and post that slot's semaphore. */
    method Deliver(c: Completion) returns (to: Option<nat>)
      requires forall i :: 0 <= i < slots.Length && slots[i].used ==> slots[i].sem < sems.Length
      modifies slots, sems
      ensures slots[..] == Recorded(old(slots[..]), c)
      ensures match FirstTrue(Waiting(old(slots[..]), c.id))
        case None => to == None && sems[..] == old(sems[..])
        case Some(i) => to == Some(old(slots[i].sem)) && sems[..] == old(sems[..])[to.value := old(sems[slots[i].sem]) + 1]
    {
      ghost var table := slots[..];
      for i := 0 to slots.Length
        invariant slots[..] == table && sems[..] == old(sems[..])
        invariant forall j :: 0 <= j < i ==> !Waiting(table, c.id)[j]
      {
        if slots[i].used && !slots[i].done && slots[i].id == c.id {
          assert Waiting(table, c.id)[i] && FirstTrue(Waiting(table, c.id)) == Some(i);
          slots[i] := slots[i].(result := c, done := true);
          sems[slots[i].sem] := sems[slots[i].sem] + 1;
          return Some(slots[i].sem);
        }
      }
      assert FirstTrue(Waiting(table, c.id)) == None;
      return None;
    }

    /** dispatch_available_completions after the drain: every completion in turn. */
    method Dispatch(comps: seq<Completion>)
      requires forall i :: 0 <= i < slots.Length && slots[i].used ==> slots[i].sem < sems.Length
      modifies slots, sems
      ensures slots[..] == RecordedAll(old(slots[..]), comps)
      ensures sems[..] == PostedAll(old(slots[..]), old(sems[..]), comps)
    {
      for c := 0 to |comps|
        invariant forall i :: 0 <= i < slots.Length && slots[i].used ==> slots[i].sem < sems.Length
        invariant RecordedAll(slots[..], comps[c..]) == RecordedAll(old(slots[..]), comps)
        invariant PostedAll(slots[..], sems[..], comps[c..]) == PostedAll(old(slots[..]), old(sems[..]), comps)
      {
        ghost var table, sem, rest := slots[..], sems[..], comps[c..];
        var to := Deliver(comps[c]);
        assert rest[0] == comps[c] && rest[1..] == comps[c + 1..];
        assert slots[..] == Recorded(table, rest[0]) && sems[..] == Posted(table, sem, rest[0]);
      }
    }

    /** The lookup loop of worker_entry. */
    method Lookup(id: nat) returns (slot: Option<nat>)
      ensures slot == FirstTrue(Named(slots[..], id))
    {
      for i := 0 to slots.Length
        invariant forall j :: 0 <= j < i ==> !Named(slots[..], id)[j]
      {
        if slots[i].used && slots[i].id == id {
          assert Named(slots[..], id)[i];
          return Some(i);
        }
      }
      return None;
    }
  }
}
