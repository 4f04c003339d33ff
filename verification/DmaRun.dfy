/** Runs of the DMA path.  A worker rings the doorbell and registers under accel_lock, waits
    on its own semaphore and looks its result up without any lock; a dispatcher drains,
    records and posts under accel_lock; the device completes outstanding commands in any
    order at any moment, also between a doorbell and its registration. */
module DmaRun {
  import opened Base
  import opened Rings
  import opened Dma

  datatype Worker = Fresh | Submitted(id: nat) | Woken(id: nat) | Finished(id: nat, got: Completion)

  /** Who holds accel_lock: nobody, a worker between doorbell and registration, or a
      dispatcher with completions drained but not yet matched and the worker whose semaphore
      it is about to post. */
  datatype Holder =
    | Idle
    | Submitting(worker: nat, id: nat)
    | Draining(comps: seq<Completion>, posting: Option<nat>)

  /** posts, outcome and dropped are history: posts made per semaphore, the device's verdict
      per command, completions that matched no slot. */
  datatype State = State(
    table: seq<Slot>, submitted: nat, device: set<nat>, cq: seq<Completion>, lock: Holder,
    sems: seq<nat>, workers: seq<Worker>, posts: seq<nat>, outcome: map<nat, nat>, dropped: nat)

  datatype Step =
    | Doorbell(worker: nat)
    | Register
    | Complete(id: nat, status: nat)
    | Drain(count: nat)
    | Match
    | Post
    | EndDispatch
    | WaitReturns(worker: nat)
    | LookUp(worker: nat)

  predicate Shape(s: State) {
    |s.workers| == |s.table| && |s.sems| == |s.table| && |s.posts| == |s.table|
  }

  predicate Enabled(s: State, a: Step)
    requires Shape(s)
  {
    match a
    case Doorbell(w) => w < |s.workers| && s.workers[w].Fresh? && s.lock.Idle?
    case Register => s.lock.Submitting? && s.lock.worker < |s.workers|
    case Complete(id, _) => id in s.device
    case Drain(n) => s.lock.Idle? && n <= |s.table| && n <= |s.cq|
    case Match => s.lock.Draining? && s.lock.posting.None? && s.lock.comps != []
    case Post => s.lock.Draining? && s.lock.posting.Some? && s.lock.posting.value < |s.sems|
    case EndDispatch => s.lock == Draining([], None)
    case WaitReturns(w) => w < |s.workers| && s.workers[w].Submitted? && s.sems[w] > 0
    case LookUp(w) => w < |s.workers| && s.workers[w].Woken? && FirstTrue(Named(s.table, s.workers[w].id)).Some?
  }

  function Do(s: State, a: Step): State
    requires Shape(s) && Enabled(s, a)
  {
    match a
    case Doorbell(w) =>
      var id := CmdId(s.submitted);
      s.(submitted := s.submitted + 1, device := s.device + {id}, lock := Submitting(w, id))
    case Register =>
      var w, id := s.lock.worker, s.lock.id;
      s.(table := Registered(s.table, id, w), workers := s.workers[w := Submitted(id)], lock := Idle)
    case Complete(id, status) =>
      s.(device := s.device - {id}, cq := s.cq + [Completion(id, status)], outcome := s.outcome[id := status])
    case Drain(n) => s.(cq := s.cq[n..], lock := Draining(s.cq[..n], None))
    case Match =>
      var c := s.lock.comps[0];
      var i := FirstTrue(Waiting(s.table, c.id));
      s.(table := Recorded(s.table, c),
         lock := Draining(s.lock.comps[1..], if i.Some? then Some(s.table[i.value].sem) else None),
         dropped := s.dropped + if i.Some? then 0 else 1)
    case Post =>
      var w := s.lock.posting.value;
      s.(sems := s.sems[w := s.sems[w] + 1], posts := s.posts[w := s.posts[w] + 1], lock := s.lock.(posting := None))
    case EndDispatch => s.(lock := Idle)
    case WaitReturns(w) =>
      s.(sems := s.sems[w := s.sems[w] - 1], workers := s.workers[w := Woken(s.workers[w].id)])
    case LookUp(w) =>
      var id := s.workers[w].id;
      s.(workers := s.workers[w := Finished(id, s.table[FirstTrue(Named(s.table, id)).value].result)])
  }

  /** Boot: an empty table of NUM_WORKERS slots, nothing submitted. */
  ghost predicate Init(s: State) {
    && Shape(s) && s.submitted == 0 && s.device == {} && s.cq == [] && s.lock.Idle?
    && s.outcome == map[] && s.dropped == 0 && |s.table| < U32 - 1
    && forall w :: 0 <= w < |s.table| ==>
         s.workers[w].Fresh? && !s.table[w].used && !s.table[w].done && s.sems[w] == 0 && s.posts[w] == 0
  }

  ghost predicate Run(run: seq<State>, steps: seq<Step>) {
    && |run| == |steps| + 1 && Init(run[0])
    && forall i :: 0 <= i < |steps| ==> Shape(run[i]) && Enabled(run[i], steps[i]) && run[i + 1] == Do(run[i], steps[i])
  }

  // ---- invariant ----------------------------------------------------------------------

  function Hand(s: State): seq<Completion> {
    if s.lock.Draining? then s.lock.comps else []
  }

  function Posting(s: State): Option<nat> {
    if s.lock.Draining? then s.lock.posting else None
  }

  function Ids(cs: seq<Completion>): (r: seq<nat>)
    ensures |r| == |cs|
  {
    seq(|cs|, i requires 0 <= i < |cs| => cs[i].id)
  }

  ghost function DoneIds(table: seq<Slot>): set<nat> {
    set i | 0 <= i < |table| && table[i].done :: i + 1
  }

  /** The identifiers of the first n submissions, 1..n. */
  function AllIds(n: nat): (r: set<nat>)
    ensures forall x :: x in r <==> 1 <= x <= n
  {
    if n == 0 then {} else AllIds(n - 1) + {n}
  }

  /** Every submitted command is in exactly one place: at the device, in the completion
      ring, in the dispatcher's hand, or recorded in the table. */
  ghost predicate Conserved(s: State) {
    multiset(s.device) + multiset(Ids(s.cq)) + multiset(Ids(Hand(s))) + multiset(DoneIds(s.table))
    == multiset(AllIds(s.submitted))
  }

  /** How many of the submitted commands have a slot. */
  function Registrations(s: State): int {
    s.submitted - if s.lock.Submitting? then 1 else 0
  }

  ghost function Started(s: State): set<nat> {
    set w | 0 <= w < |s.workers| && !s.workers[w].Fresh?
  }

  /** Slot i belongs to the i-th submission and to the worker that made it. */
  ghost predicate SlotInv(s: State, i: nat)
    requires Shape(s) && i < |s.table|
  {
    && (s.table[i].used <==> i < Registrations(s))
    && (s.table[i].used ==>
          && s.table[i].id == i + 1 && s.table[i].sem < |s.workers|
          && !s.workers[s.table[i].sem].Fresh? && s.workers[s.table[i].sem].id == i + 1)
    && (s.table[i].done ==>
          s.table[i].used && i + 1 in s.outcome && s.table[i].result == Completion(i + 1, s.outcome[i + 1]))
  }

  /** A worker's semaphore has been posted exactly when its slot is done and the dispatcher
      is past the post; the post is in the count or has been returned with. */
  ghost predicate WorkerInv(s: State, w: nat)
    requires Shape(s) && w < |s.workers|
  {
    var x := s.workers[w];
    && (x.Fresh? ==> s.posts[w] == 0 && s.sems[w] == 0 && Posting(s) != Some(w))
    && (!x.Fresh? ==>
          && 1 <= x.id <= Registrations(s) <= |s.table| && s.table[x.id - 1].sem == w
          && (Posting(s) == Some(w) ==> s.table[x.id - 1].done)
          && s.posts[w] == (if s.table[x.id - 1].done && Posting(s) != Some(w) then 1 else 0)
          && s.sems[w] + (if x.Submitted? then 0 else 1) == s.posts[w])
    && (x.Finished? ==> x.id in s.outcome && x.got == Completion(x.id, s.outcome[x.id]))
  }

  ghost predicate TrueResults(s: State, cs: seq<Completion>) {
    forall i :: 0 <= i < |cs| ==> cs[i].id in s.outcome && cs[i].status == s.outcome[cs[i].id]
  }

  ghost predicate Inv(s: State) {
    && Shape(s) && s.submitted <= |s.table| < U32 - 1 && s.dropped == 0
    && |Started(s)| == Registrations(s) && Conserved(s)
    && (s.lock.Submitting? ==>
          s.lock.worker < |s.workers| && s.workers[s.lock.worker].Fresh? && s.lock.id == s.submitted)
    && (forall i :: 0 <= i < |s.table| ==> SlotInv(s, i))
    && (forall w :: 0 <= w < |s.workers| ==> WorkerInv(s, w))
    && TrueResults(s, s.cq) && TrueResults(s, Hand(s))
    && (Posting(s).Some? ==> Posting(s).value < |s.workers|)
  }

  lemma InitInv(s: State)
    requires Init(s)
    ensures Inv(s)
  {
    assert Started(s) == {} && DoneIds(s.table) == {} && AllIds(0) == {};
  }

  lemma {:induction false} BoundedCard(a: set<nat>, n: nat)
    requires forall x :: x in a ==> x < n
    ensures |a| <= n
  {
    if n > 0 {
      BoundedCard(a - {n - 1}, n - 1);
    } else {
      assert a == {};
    }
  }

  lemma FirstTrueIs(flags: seq<bool>, k: nat)
    requires k < |flags| && flags[k] && forall i :: 0 <= i < k ==> !flags[i]
    ensures FirstTrue(flags) == Some(k)
  {
  }

  lemma InDoneIds(table: seq<Slot>, i: nat)
    requires i < |table|
    ensures i + 1 in DoneIds(table) <==> table[i].done
  {
  }

  /** Recording one slot adds its identifier, once. */
  lemma DoneIdsGrow(table: seq<Slot>, t: seq<Slot>, k: nat, id: nat)
    requires k < |table| == |t| && id == k + 1 && !table[k].done && t[k].done
    requires forall i :: 0 <= i < |table| && i != k ==> t[i].done == table[i].done
    ensures multiset(DoneIds(t)) == multiset(DoneIds(table)) + multiset{id}
  {
    assert DoneIds(t) == DoneIds(table) + {id};
    assert id !in DoneIds(table);
  }

  lemma DoneIdsSame(table: seq<Slot>, t: seq<Slot>)
    requires |table| == |t| && forall i :: 0 <= i < |table| ==> t[i].done == table[i].done
    ensures DoneIds(t) == DoneIds(table)
  {
  }

  lemma CmdIdIs(n: nat)
    requires n < U32 - 1
    ensures CmdId(n) == n + 1
  {
  }

  lemma FreshLeavesSlot(s: State, w: nat)
    requires Inv(s) && w < |s.workers| && s.workers[w].Fresh?
    ensures Registrations(s) < |s.table|
  {
    var more := Started(s) + {w};
    assert w !in Started(s);
    assert |more| == Registrations(s) + 1;
    BoundedCard(more, |s.workers|);
  }

  /** A worker that is about to register finds the next free slot. */
  lemma FreshLeavesRoom(s: State)
    requires Inv(s) && s.lock.Submitting?
    ensures FirstTrue(Free(s.table)) == Some(s.submitted - 1)
  {
    FreshLeavesSlot(s, s.lock.worker);
    forall i | 0 <= i < |s.table| ensures Free(s.table)[i] == (i >= s.submitted - 1) {
      assert SlotInv(s, i);
    }
    FirstTrueIs(Free(s.table), s.submitted - 1);
  }

  /** One more submission adds its identifier on both sides of the account. */
  lemma AccountGrows(device: set<nat>, rest: multiset<nat>, n: nat, id: nat)
    requires multiset(device) + rest == multiset(AllIds(n)) && id == n + 1
    ensures multiset(device + {id}) + rest == multiset(AllIds(n + 1))
  {
    assert id !in AllIds(n);
    assert id !in multiset(AllIds(n));
    assert multiset(device)[id] == 0;
    assert multiset(device + {id}) == multiset(device) + multiset{id};
    assert multiset(AllIds(n + 1)) == multiset(AllIds(n)) + multiset{id};
  }

  ghost function Elsewhere(s: State): multiset<nat> {
    multiset(Ids(s.cq)) + multiset(Ids(Hand(s))) + multiset(DoneIds(s.table))
  }

  lemma DoorbellConserves(s: State, w: nat)
    requires Inv(s) && Enabled(s, Doorbell(w)) && CmdId(s.submitted) == s.submitted + 1
    ensures Conserved(Do(s, Doorbell(w)))
  {
    var r := Do(s, Doorbell(w));
    assert Hand(r) == Hand(s);
    assert Elsewhere(r) == Elsewhere(s);
    assert multiset(s.device) + Elsewhere(s) == multiset(AllIds(s.submitted));
    AccountGrows(s.device, Elsewhere(s), s.submitted, r.lock.id);
  }

  lemma DoorbellKeepsTasks(s: State, w: nat)
    requires Inv(s) && Enabled(s, Doorbell(w))
    ensures var r := Do(s, Doorbell(w));
      && (forall i :: 0 <= i < |r.table| ==> SlotInv(r, i))
      && (forall v :: 0 <= v < |r.workers| ==> WorkerInv(r, v))
  {
    var r := Do(s, Doorbell(w));
    assert Registrations(r) == Registrations(s) && Posting(r) == Posting(s);
    forall i | 0 <= i < |r.table| ensures SlotInv(r, i) { assert SlotInv(s, i); }
    forall v | 0 <= v < |r.workers| ensures WorkerInv(r, v) { assert WorkerInv(s, v); }
  }

  lemma DoorbellKeeps(s: State, w: nat)
    requires Inv(s) && Enabled(s, Doorbell(w))
    ensures Inv(Do(s, Doorbell(w)))
  {
    var r := Do(s, Doorbell(w));
    FreshLeavesSlot(s, w);
    CmdIdIs(s.submitted);
    DoorbellConserves(s, w);
    DoorbellKeepsTasks(s, w);
    assert Started(r) == Started(s);
  }

  /** Registering fills the slot after the last one used, and changes no other. */
  lemma RegisterFillsNext(s: State)
    requires Inv(s) && s.lock.Submitting?
    ensures var n := s.submitted - 1;
      && n < |s.table| && !s.table[n].done
      && Do(s, Register).table == s.table[n := Slot(n + 1, s.lock.worker, s.table[n].result, true, false)]
  {
    FreshLeavesRoom(s);
    assert SlotInv(s, s.submitted - 1);
  }

  lemma RegisterConserves(s: State)
    requires Inv(s) && s.lock.Submitting?
    ensures Conserved(Do(s, Register))
  {
    var r := Do(s, Register);
    RegisterFillsNext(s);
    DoneIdsSame(s.table, r.table);
    assert Ids(Hand(r)) == Ids(Hand(s));
  }

  lemma RegisterStarts(s: State)
    requires Inv(s) && s.lock.Submitting?
    ensures |Started(Do(s, Register))| == s.submitted
  {
    var w := s.lock.worker;
    assert Started(Do(s, Register)) == Started(s) + {w} && w !in Started(s);
  }

  lemma RegisterKeeps(s: State)
    requires Inv(s) && Enabled(s, Register)
    ensures Inv(Do(s, Register))
  {
    var r := Do(s, Register);
    RegisterFillsNext(s);
    RegisterConserves(s);
    RegisterStarts(s);
    RegisterKeepsSlots(s);
    RegisterKeepsWorkers(s);
  }

  lemma RegisterKeepsSlots(s: State)
    requires Inv(s) && s.lock.Submitting?
    ensures var r := Do(s, Register); forall i :: 0 <= i < |r.table| ==> SlotInv(r, i)
  {
    var r := Do(s, Register);
    RegisterFillsNext(s);
    forall i | 0 <= i < |r.table| ensures SlotInv(r, i) { assert SlotInv(s, i); }
  }

  lemma RegisterKeepsWorkers(s: State)
    requires Inv(s) && s.lock.Submitting?
    ensures var r := Do(s, Register); forall v :: 0 <= v < |r.workers| ==> WorkerInv(r, v)
  {
    var r := Do(s, Register);
    RegisterFillsNext(s);
    forall v | 0 <= v < |r.workers| ensures WorkerInv(r, v) { assert WorkerInv(s, v); }
  }

  lemma CompleteConserves(s: State, id: nat, status: nat)
    requires Inv(s) && Enabled(s, Complete(id, status))
    ensures Conserved(Do(s, Complete(id, status)))
  {
    var r := Do(s, Complete(id, status));
    assert Ids(r.cq) == Ids(s.cq) + [id];
    assert multiset(s.device) == multiset(s.device - {id}) + multiset{id};
  }

  lemma CompleteKeeps(s: State, id: nat, status: nat)
    requires Inv(s) && Enabled(s, Complete(id, status))
    ensures Inv(Do(s, Complete(id, status)))
  {
    var r := Do(s, Complete(id, status));
    CompleteConserves(s, id, status);
    CompleteKeepsTasks(s, id, status);
    AtDeviceOnly(s, id);
    assert Started(r) == Started(s);
  }

  lemma CompleteKeepsTasks(s: State, id: nat, status: nat)
    requires Inv(s) && Enabled(s, Complete(id, status))
    ensures var r := Do(s, Complete(id, status));
      && (forall i :: 0 <= i < |r.table| ==> SlotInv(r, i))
      && (forall v :: 0 <= v < |r.workers| ==> WorkerInv(r, v))
  {
    var r := Do(s, Complete(id, status));
    AtDeviceOnly(s, id);
    forall i | 0 <= i < |r.table| ensures SlotInv(r, i) { assert SlotInv(s, i); }
    forall v | 0 <= v < |r.workers| ensures WorkerInv(r, v) { assert WorkerInv(s, v); }
  }

  /** A command at the device has no completion anywhere yet. */
  lemma AtDeviceOnly(s: State, id: nat)
    requires Inv(s) && id in s.device
    ensures 1 <= id <= s.submitted && !s.table[id - 1].done
    ensures forall i :: 0 <= i < |s.cq| ==> s.cq[i].id != id
    ensures forall i :: 0 <= i < |Hand(s)| ==> Hand(s)[i].id != id
    ensures forall w :: 0 <= w < |s.workers| && s.workers[w].Finished? ==> s.workers[w].id != id
  {
    var m := multiset(AllIds(s.submitted));
    assert m[id] <= 1;
    assert multiset(s.device)[id] == 1;
    assert multiset(Ids(s.cq))[id] == 0 && multiset(Ids(Hand(s)))[id] == 0 && multiset(DoneIds(s.table))[id] == 0;
    assert id in AllIds(s.submitted);
    forall i | 0 <= i < |s.cq| ensures s.cq[i].id != id { assert Ids(s.cq)[i] in multiset(Ids(s.cq)); }
    forall i | 0 <= i < |Hand(s)| ensures Hand(s)[i].id != id { assert Ids(Hand(s))[i] in multiset(Ids(Hand(s))); }
    InDoneIds(s.table, id - 1);
    forall w | 0 <= w < |s.workers| && s.workers[w].Finished? ensures s.workers[w].id != id { assert WorkerInv(s, w); }
  }

  lemma DrainConserves(s: State, n: nat)
    requires Inv(s) && Enabled(s, Drain(n))
    ensures Conserved(Do(s, Drain(n)))
  {
    var r := Do(s, Drain(n));
    var a, b := Ids(s.cq[..n]), Ids(s.cq[n..]);
    assert Ids(s.cq) == a + b;
    assert Ids(r.cq) == b && Ids(Hand(r)) == a && Ids(Hand(s)) == [];
    assert multiset(a + b) == multiset(a) + multiset(b);
  }

  lemma DrainKeeps(s: State, n: nat)
    requires Inv(s) && Enabled(s, Drain(n))
    ensures Inv(Do(s, Drain(n)))
  {
    var r := Do(s, Drain(n));
    DrainConserves(s, n);
    assert Started(r) == Started(s);
    forall i | 0 <= i < |r.table| ensures SlotInv(r, i) { assert SlotInv(s, i); }
    forall v | 0 <= v < |r.workers| ensures WorkerInv(r, v) { assert WorkerInv(s, v); }
  }

  /** A completion in hand finds its slot: registered, not yet done, in position id - 1. */
  lemma MatchFindsSlot(s: State)
    requires Inv(s) && Enabled(s, Match)
    ensures var id := s.lock.comps[0].id;
      && 1 <= id <= s.submitted && !s.table[id - 1].done
      && FirstTrue(Waiting(s.table, id)) == Some(id - 1)
  {
    var id := s.lock.comps[0].id;
    assert Ids(Hand(s))[0] == id;
    assert multiset(AllIds(s.submitted))[id] <= 1;
    assert id in multiset(Ids(Hand(s)));
    assert multiset(DoneIds(s.table))[id] == 0;
    assert id in multiset(AllIds(s.submitted));
    InDoneIds(s.table, id - 1);
    forall i | 0 <= i < |s.table| ensures Waiting(s.table, id)[i] <==> i == id - 1 { assert SlotInv(s, i); }
    FirstTrueIs(Waiting(s.table, id), id - 1);
  }

  lemma MatchKeeps(s: State)
    requires Inv(s) && Enabled(s, Match)
    ensures Inv(Do(s, Match))
  {
    var r := Do(s, Match);
    var c := s.lock.comps[0];
    MatchFindsSlot(s);
    assert r.table == s.table[c.id - 1 := s.table[c.id - 1].(result := c, done := true)];
    assert SlotInv(s, c.id - 1);
    assert Started(r) == Started(s);
    forall i | 0 <= i < |r.table| ensures SlotInv(r, i) { assert SlotInv(s, i); }
    forall v | 0 <= v < |r.workers| ensures WorkerInv(r, v) { assert WorkerInv(s, v); }
    MatchConserves(s);
  }

  lemma MatchConserves(s: State)
    requires Inv(s) && Enabled(s, Match)
    ensures Conserved(Do(s, Match))
  {
    var r := Do(s, Match);
    var c := s.lock.comps[0];
    MatchFindsSlot(s);
    DoneIdsGrow(s.table, r.table, c.id - 1, c.id);
    assert Ids(Hand(s)) == [c.id] + Ids(Hand(r));
  }

  lemma PostKeeps(s: State)
    requires Inv(s) && Enabled(s, Post)
    ensures Inv(Do(s, Post))
  {
    var r := Do(s, Post);
    assert WorkerInv(s, s.lock.posting.value);
    assert Started(r) == Started(s);
    forall i | 0 <= i < |r.table| ensures SlotInv(r, i) { assert SlotInv(s, i); }
    forall v | 0 <= v < |r.workers| ensures WorkerInv(r, v) { assert WorkerInv(s, v); }
  }

  lemma EndKeeps(s: State)
    requires Inv(s) && Enabled(s, EndDispatch)
    ensures Inv(Do(s, EndDispatch))
  {
    var r := Do(s, EndDispatch);
    assert Started(r) == Started(s);
    forall i | 0 <= i < |r.table| ensures SlotInv(r, i) { assert SlotInv(s, i); }
    forall v | 0 <= v < |r.workers| ensures WorkerInv(r, v) { assert WorkerInv(s, v); }
  }

  lemma WaitReturnsKeeps(s: State, w: nat)
    requires Inv(s) && Enabled(s, WaitReturns(w))
    ensures Inv(Do(s, WaitReturns(w)))
  {
    var r := Do(s, WaitReturns(w));
    assert WorkerInv(s, w);
    assert Started(r) == Started(s);
    forall i | 0 <= i < |r.table| ensures SlotInv(r, i) { assert SlotInv(s, i); }
    forall v | 0 <= v < |r.workers| ensures WorkerInv(r, v) { assert WorkerInv(s, v); }
  }

  /** A worker whose wait has returned finds the slot with its cmd_id, done, holding its own
      completion with the device's verdict. */
  lemma WokenFindsResult(s: State, w: nat)
    requires Inv(s) && w < |s.workers| && (s.workers[w].Woken? || s.workers[w].Finished?)
    ensures var id := s.workers[w].id;
      && FirstTrue(Named(s.table, id)) == Some(id - 1) && s.table[id - 1].done
      && id in s.outcome && s.table[id - 1].result == Completion(id, s.outcome[id])
  {
    var id := s.workers[w].id;
    assert WorkerInv(s, w) && SlotInv(s, id - 1);
    forall i | 0 <= i < |s.table| ensures Named(s.table, id)[i] <==> i == id - 1 { assert SlotInv(s, i); }
    FirstTrueIs(Named(s.table, id), id - 1);
  }

  lemma LookUpKeeps(s: State, w: nat)
    requires Inv(s) && Enabled(s, LookUp(w))
    ensures Inv(Do(s, LookUp(w)))
  {
    var r := Do(s, LookUp(w));
    WokenFindsResult(s, w);
    assert WorkerInv(s, w);
    assert Started(r) == Started(s);
    forall i | 0 <= i < |r.table| ensures SlotInv(r, i) { assert SlotInv(s, i); }
    forall v | 0 <= v < |r.workers| ensures WorkerInv(r, v) { assert WorkerInv(s, v); }
  }

  lemma StepKeepsInv(s: State, a: Step)
    requires Inv(s) && Enabled(s, a)
    ensures Inv(Do(s, a))
  {
    match a {
      case Doorbell(w) => DoorbellKeeps(s, w);
      case Register => RegisterKeeps(s);
      case Complete(id, status) => CompleteKeeps(s, id, status);
      case Drain(n) => DrainKeeps(s, n);
      case Match => MatchKeeps(s);
      case Post => PostKeeps(s);
      case EndDispatch => EndKeeps(s);
      case WaitReturns(w) => WaitReturnsKeeps(s, w);
      case LookUp(w) => LookUpKeeps(s, w);
    }
  }

  lemma {:induction false} RunKeepsInv(run: seq<State>, steps: seq<Step>, i: nat)
    requires Run(run, steps) && i < |run|
    ensures Inv(run[i])
  {
    if i == 0 {
      InitInv(run[0]);
    } else {
      RunKeepsInv(run, steps, i - 1);
      StepKeepsInv(run[i - 1], steps[i - 1]);
      assert run[i - 1 + 1] == Do(run[i - 1], steps[i - 1]);
    }
  }

  // ---- what every run promises --------------------------------------------------------

  /** No completion is ever dropped, no semaphore is posted twice for one command, and at
      every moment each submitted command is in exactly one place. */
  lemma DeliveredExactlyOnce(run: seq<State>, steps: seq<Step>, i: nat, w: nat)
    requires Run(run, steps) && i < |run| && w < |run[i].workers|
    ensures Shape(run[i]) && run[i].dropped == 0 && Conserved(run[i]) && run[i].posts[w] <= 1
    ensures run[i].posts[w] == 1 ==> !run[i].workers[w].Fresh? && run[i].workers[w].id in run[i].outcome
  {
    RunKeepsInv(run, steps, i);
    var s := run[i];
    assert WorkerInv(s, w);
    if s.posts[w] == 1 {
      assert SlotInv(s, s.workers[w].id - 1);
    }
  }

  /** Nothing outstanding: no command at the device, in the ring or in a dispatcher's hand. */
  predicate Drained(s: State) {
    s.device == {} && s.cq == [] && s.lock.Idle?
  }

  lemma DrainedMeansPosted(s: State, w: nat)
    requires Inv(s) && Drained(s) && w < |s.workers| && !s.workers[w].Fresh?
    ensures s.posts[w] == 1
  {
    var id := s.workers[w].id;
    assert WorkerInv(s, w);
    assert Ids(s.cq) == [] && Ids(Hand(s)) == [];
    assert multiset(DoneIds(s.table)) == multiset(AllIds(s.submitted));
    assert multiset(AllIds(s.submitted))[id] == 1;
    assert id in multiset(DoneIds(s.table));
    InDoneIds(s.table, id - 1);
  }

  /** When everything has been drained and dispatched, every worker that submitted has been
      posted: nobody waits for a completion that has come and gone. */
  lemma NothingLeftBehind(run: seq<State>, steps: seq<Step>, i: nat, w: nat)
    requires Run(run, steps) && i < |run| && w < |run[i].workers| && !run[i].workers[w].Fresh? && Drained(run[i])
    ensures Shape(run[i]) && run[i].posts[w] == 1
  {
    RunKeepsInv(run, steps, i);
    DrainedMeansPosted(run[i], w);
  }

  /** When a worker's sem_wait has returned, its unlocked lookup finds a slot holding its
      cmd_id, and the result there is its own command's. */
  lemma LookupAlwaysSucceeds(run: seq<State>, steps: seq<Step>, i: nat, w: nat)
    requires Run(run, steps) && i < |run| && w < |run[i].workers| && run[i].workers[w].Woken?
    ensures Shape(run[i]) && Enabled(run[i], LookUp(w))
    ensures var r := Do(run[i], LookUp(w)).workers[w];
      r.id in run[i].outcome && r.got == Completion(r.id, run[i].outcome[r.id])
  {
    RunKeepsInv(run, steps, i);
    WokenFindsResult(run[i], w);
  }

  /** Different workers wait for different commands, each registered in a slot of its own
      that names that worker's semaphore. */
  lemma CommandsAreOwned(run: seq<State>, steps: seq<Step>, i: nat, v: nat, w: nat)
    requires Run(run, steps) && i < |run| && v < |run[i].workers| && w < |run[i].workers|
    requires !run[i].workers[v].Fresh? && !run[i].workers[w].Fresh? && v != w
    ensures run[i].workers[v].id != run[i].workers[w].id
    ensures var id := run[i].workers[w].id;
      1 <= id <= |run[i].table| && run[i].table[id - 1].id == id && run[i].table[id - 1].sem == w
  {
    RunKeepsInv(run, steps, i);
    assert WorkerInv(run[i], v) && WorkerInv(run[i], w);
    assert SlotInv(run[i], run[i].workers[w].id - 1);
  }

  /** Why doorbell and registration share one critical section: in every state between them
      the new command's completion, already possible, would match no slot and be lost. */
  lemma GapWouldDropCompletion(run: seq<State>, steps: seq<Step>, i: nat)
    requires Run(run, steps) && i < |run| && run[i].lock.Submitting?
    ensures FirstTrue(Waiting(run[i].table, run[i].lock.id)) == None
    ensures Recorded(run[i].table, Completion(run[i].lock.id, 0)) == run[i].table
  {
    RunKeepsInv(run, steps, i);
    var s := run[i];
    forall k | 0 <= k < |s.table| ensures !Waiting(s.table, s.lock.id)[k] { assert SlotInv(s, k); }
  }

  // ---- the dispatch loop as steps -----------------------------------------------------

  /** Every slot in use names a worker's semaphore. */
  predicate SemsInRange(s: State) {
    forall i :: 0 <= i < |s.table| && s.table[i].used ==> s.table[i].sem < |s.sems|
  }

  /** The inner loop for one completion: Match, then Post if a slot was found. */
  lemma OneDispatch(s: State) returns (steps: seq<Step>, path: seq<State>)
    requires Shape(s) && SemsInRange(s) && s.lock.Draining? && s.lock.posting.None? && s.lock.comps != []
    ensures Path(path, steps) && path[0] == s
    ensures var r := path[|steps|]; var c := s.lock.comps[0];
      && Shape(r) && SemsInRange(r) && r.lock == Draining(s.lock.comps[1..], None)
      && r.table == Recorded(s.table, c) && r.sems == Posted(s.table, s.sems, c)
  {
    var r := Do(s, Match);
    var i := FirstTrue(Waiting(s.table, s.lock.comps[0].id));
    if i.Some? {
      assert Waiting(s.table, s.lock.comps[0].id)[i.value];
      steps, path := [Match, Post], [s, r, Do(r, Post)];
    } else {
      steps, path := [Match], [s, r];
    }
  }

  ghost predicate Path(path: seq<State>, steps: seq<Step>) {
    && |path| == |steps| + 1
    && forall i :: 0 <= i < |steps| ==> Shape(path[i]) && Enabled(path[i], steps[i]) && path[i + 1] == Do(path[i], steps[i])
  }

  lemma PathConcat(p: seq<State>, a: seq<Step>, q: seq<State>, b: seq<Step>)
    requires Path(p, a) && Path(q, b) && p[|a|] == q[0]
    ensures Path(p + q[1..], a + b) && (p + q[1..])[|a + b|] == q[|b|]
  {
    var r, c := p + q[1..], a + b;
    forall i | 0 <= i < |c| ensures Shape(r[i]) && Enabled(r[i], c[i]) && r[i + 1] == Do(r[i], c[i]) {
      if i < |a| {
        assert r[i] == p[i] && r[i + 1] == p[i + 1] && c[i] == a[i];
      } else {
        var j := i - |a|;
        assert r[i] == q[j] && r[i + 1] == q[j + 1] && c[i] == b[j];
      }
    }
  }

  /** The dispatcher's steps over a whole batch, undisturbed, have exactly the effect the
      dispatch loop of PendingTable.Dispatch is proved to have. */
  lemma {:induction false} DispatchRefines(s: State) returns (steps: seq<Step>, path: seq<State>)
    requires Shape(s) && SemsInRange(s) && s.lock.Draining? && s.lock.posting.None?
    ensures Path(path, steps) && path[0] == s
    ensures var r := path[|steps|];
      && r.lock == Draining([], None)
      && r.table == RecordedAll(s.table, s.lock.comps) && r.sems == PostedAll(s.table, s.sems, s.lock.comps)
    decreases |s.lock.comps|
  {
    if s.lock.comps == [] {
      steps, path := [], [s];
    } else {
      var a, p := OneDispatch(s);
      var b, q := DispatchRefines(p[|a|]);
      PathConcat(p, a, q, b);
      steps, path := a + b, p + q[1..];
    }
  }

  /** In every run the slots in use name semaphores, so this applies to every dispatch. */
  lemma RunKeepsSemsInRange(run: seq<State>, steps: seq<Step>, i: nat)
    requires Run(run, steps) && i < |run|
    ensures Shape(run[i]) && SemsInRange(run[i])
  {
    RunKeepsInv(run, steps, i);
    forall k | 0 <= k < |run[i].table| && run[i].table[k].used ensures run[i].table[k].sem < |run[i].sems| {
      assert SlotInv(run[i], k);
    }
  }
}
