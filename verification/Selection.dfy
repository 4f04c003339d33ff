/** What the two selection policies of kernel/sched.c choose, and how fair they are. */
module Selection {
  import opened Base

  /** The load an always-running task converges to (kernel/sched.c, EWMA with 3/10 on a
      scale of 1000, unsigned 32-bit arithmetic). */
  const SATURATED: nat := 997

  /** ewma_on_tick on one load. */
  function Charge(load: nat): nat {
    (3 * 1000 + (10 - 3) * load) % 0x1_0000_0000 / 10
  }

  /** Charging never leaves 0..997 and raises every load that is not saturated. */
  lemma ChargeClimbs(load: nat)
    requires load <= SATURATED
    ensures Charge(load) <= SATURATED
    ensures load < SATURATED ==> Charge(load) > load
    ensures load == SATURATED ==> Charge(load) == SATURATED
  {
  }

  /** The EWMA law: seven tenths of the old load plus three tenths of 1000, rounded down. */
  lemma ChargeLaw(load: nat)
    requires load <= SATURATED
    ensures 10 * Charge(load) <= 7 * load + 3 * 1000 < 10 * (Charge(load) + 1)
  {
  }

  /** The load after k charges. */
  function Charged(load: nat, k: nat): nat {
    if k == 0 then load else Charge(Charged(load, k - 1))
  }

  function Pow(b: nat, k: nat): nat {
    if k == 0 then 1 else b * Pow(b, k - 1)
  }

  /** An always-running task's distance to 1000 shrinks by the factor 7/10 per tick, up to
      the rounding: after k ticks it is at least (7/10)^k of what it was, and its excess over
      3, the distance at saturation, at most that fraction of the excess it had. */
  lemma {:induction false} GapDecays(load: nat, k: nat)
    requires load <= SATURATED
    ensures Charged(load, k) <= SATURATED
    ensures Pow(7, k) * (1000 - load) <= Pow(10, k) * (1000 - Charged(load, k))
    ensures Pow(10, k) * (SATURATED - Charged(load, k)) <= Pow(7, k) * (SATURATED - load)
  {
    if k > 0 {
      GapDecays(load, k - 1);
      var l, r := Charged(load, k - 1), Charged(load, k);
      ChargeClimbs(l);
      ChargeLaw(l);
      var p, q := Pow(10, k - 1), Pow(7, k - 1);
      ScaleDown(p, q, 1000 - l, 1000 - load, 1000 - r);
      ScaleUp(p, q, SATURATED - l, SATURATED - load, SATURATED - r);
    }
  }

  lemma ScaleDown(p: nat, q: nat, g: nat, g0: nat, h: nat)
    requires q * g0 <= p * g && 7 * g <= 10 * h
    ensures 7 * q * g0 <= 10 * p * h
  {
    assert p * (7 * g) <= p * (10 * h);
    assert 7 * (q * g0) <= 7 * (p * g);
  }

  lemma ScaleUp(p: nat, q: nat, g: nat, g0: nat, h: nat)
    requires p * g <= q * g0 && 10 * h <= 7 * g
    ensures 10 * p * h <= 7 * q * g0
  {
    assert p * (10 * h) <= p * (7 * g);
    assert 7 * (p * g) <= 7 * (q * g0);
  }

  lemma Climb(k: nat, load: nat, next: nat)
    requires Charged(0, k) == load <= SATURATED && 10 * next <= 7 * load + 3000 < 10 * (next + 1)
    ensures Charged(0, k + 1) == next
  {
    ChargeLaw(load);
  }

  /** A task that runs from its start reaches the saturated load at its 18th tick and not
      before. */
  lemma SaturatesAtTick18(k: nat)
    ensures Charged(0, k) == SATURATED <==> k >= 18
  {
    assert Charged(0, 0) == 0;
    Climb(0, 0, 300);
    Climb(1, 300, 510);
    Climb(2, 510, 657);
    Climb(3, 657, 759);
    Climb(4, 759, 831);
    Climb(5, 831, 881);
    Climb(6, 881, 916);
    Climb(7, 916, 941);
    Climb(8, 941, 958);
    Climb(9, 958, 970);
    Climb(10, 970, 979);
    Climb(11, 979, 985);
    Climb(12, 985, 989);
    Climb(13, 989, 992);
    Climb(14, 992, 994);
    Climb(15, 994, 995);
    Climb(16, 995, 996);
    Climb(17, 996, 997);
    if k > 18 {
      StaysSaturated(18, k);
    }
  }

  lemma {:induction false} StaysSaturated(j: nat, k: nat)
    requires j <= k && Charged(0, j) == SATURATED
    ensures Charged(0, k) == SATURATED
  {
    if j < k {
      StaysSaturated(j, k - 1);
      ChargeClimbs(SATURATED);
    }
  }

  /** How many other entries the scan from cur + 1 visits before entry j. */
  function Dist(cur: nat, j: nat, n: nat): nat
    requires cur < n && j < n
  {
    if j > cur then j - cur - 1 else j + n - cur - 1
  }

  lemma ModInRange(x: nat, n: nat)
    requires x < n
    ensures x % n == x
  {
  }

  /** The i-th entry the scan visits. */
  lemma ScanVisits(cur: nat, i: nat, n: nat)
    requires cur < n && 1 <= i <= n
    ensures (cur + i) % n == if cur + i < n then cur + i else cur + i - n
    ensures Dist(cur, (cur + i) % n, n) == i - 1
  {
    var x := cur + i;
    if x < n {
      ModInRange(x, n);
    } else {
      ModInRange(x - n, n);
      assert (x - n + n) % n == (x - n) % n;
    }
  }

  /** Passing over x on the way to t brings t nearer. */
  lemma DistDrops(cur: nat, x: nat, t: nat, n: nat)
    requires cur < n && x < n && t < n && Dist(cur, x, n) < Dist(cur, t, n)
    ensures Dist(x, t, n) == Dist(cur, t, n) - Dist(cur, x, n) - 1
  {
  }

  /** Round robin: the first READY entry after cur, cur itself last. */
  predicate NextReady(ready: seq<bool>, cur: nat, idx: nat)
    requires cur < |ready|
  {
    && idx < |ready| && ready[idx]
    && forall j :: 0 <= j < |ready| && ready[j] ==> Dist(cur, idx, |ready|) <= Dist(cur, j, |ready|)
  }

  /** Load aware: the least loaded READY entry, the first after cur among equals. */
  predicate BestReady(ready: seq<bool>, loads: seq<nat>, cur: nat, idx: nat)
    requires cur < |ready| == |loads|
  {
    && idx < |ready| && ready[idx]
    && forall j :: 0 <= j < |ready| && ready[j] ==>
         loads[idx] < loads[j] || (loads[idx] == loads[j] && Dist(cur, idx, |ready|) <= Dist(cur, j, |ready|))
  }

  /** The best of the entries the load-aware scan has visited after i of them. */
  predicate BestOfFirst(ready: seq<bool>, loads: seq<nat>, cur: nat, i: nat, best: Option<nat>)
    requires cur < |ready| == |loads|
  {
    var n := |ready|;
    && (best.Some? ==> best.value < n && ready[best.value] && Dist(cur, best.value, n) < i)
    && forall j :: 0 <= j < n && ready[j] && Dist(cur, j, n) < i ==>
         && best.Some?
         && (|| loads[best.value] < loads[j]
             || (loads[best.value] == loads[j] && Dist(cur, best.value, n) <= Dist(cur, j, n)))
  }

  /** Visiting one more entry: it replaces the best only if READY and strictly less loaded. */
  lemma BestOfFirstStep(ready: seq<bool>, loads: seq<nat>, cur: nat, i: nat, best: Option<nat>, idx: nat)
    requires cur < |ready| == |loads| && BestOfFirst(ready, loads, cur, i, best)
    requires idx < |ready| && Dist(cur, idx, |ready|) == i
    ensures BestOfFirst(ready, loads, cur, i + 1,
                        if ready[idx] && (best.None? || loads[idx] < loads[best.value]) then Some(idx) else best)
  {
  }

  lemma BestOfAll(ready: seq<bool>, loads: seq<nat>, cur: nat, best: Option<nat>)
    requires cur < |ready| == |loads| && BestOfFirst(ready, loads, cur, |ready|, best)
    ensures best.Some? ==> BestReady(ready, loads, cur, best.value)
    ensures best.None? ==> true !in ready
  {
  }

  /** Each description fits one entry only. */
  lemma ChoiceIsUnique(ready: seq<bool>, loads: seq<nat>, cur: nat, a: nat, b: nat)
    requires cur < |ready| == |loads|
    requires (NextReady(ready, cur, a) && NextReady(ready, cur, b)) || (BestReady(ready, loads, cur, a) && BestReady(ready, loads, cur, b))
    ensures a == b
  {
    assert Dist(cur, a, |ready|) == Dist(cur, b, |ready|);
  }

  /** With equal loads among the READY tasks the two policies choose alike. */
  lemma EqualLoadsMeanRoundRobin(ready: seq<bool>, loads: seq<nat>, cur: nat, idx: nat)
    requires cur < |ready| == |loads|
    requires forall i, j :: 0 <= i < |ready| && 0 <= j < |ready| && ready[i] && ready[j] ==> loads[i] == loads[j]
    ensures BestReady(ready, loads, cur, idx) <==> NextReady(ready, cur, idx)
  {
    if BestReady(ready, loads, cur, idx) {
      assert NextReady(ready, cur, idx);
    }
  }

  // ---- round robin is fair ------------------------------------------------------------

  /** A run of picks on a queue of n tasks: at pick k the READY flags are readys[k] and the
      choice becomes the new current_idx. */
  ghost predicate RoundRobinRun(n: nat, readys: seq<seq<bool>>, curs: seq<nat>) {
    && |curs| == |readys| + 1
    && (forall k :: 0 <= k < |curs| ==> curs[k] < n)
    && (forall k :: 0 <= k < |readys| ==> |readys[k]| == n)
    && (forall k :: 0 <= k < |readys| ==> NextReady(readys[k], curs[k], curs[k + 1]))
  }

  lemma {:induction false} RoundRobinApproaches(n: nat, readys: seq<seq<bool>>, curs: seq<nat>, t: nat, k: nat)
    requires RoundRobinRun(n, readys, curs) && t < n && k <= |readys|
    requires forall m :: 0 <= m < k ==> readys[m][t]
    requires forall m :: 1 <= m <= k ==> curs[m] != t
    ensures Dist(curs[k], t, n) + k <= Dist(curs[0], t, n)
  {
    if k > 0 {
      RoundRobinApproaches(n, readys, curs, t, k - 1);
      assert NextReady(readys[k - 1], curs[k - 1], curs[k - 1 + 1]);
      DistDrops(curs[k - 1], curs[k], t, n);
    }
  }

  /** A task that stays READY is picked within n picks, whatever the others do. */
  lemma RoundRobinIsFair(n: nat, readys: seq<seq<bool>>, curs: seq<nat>, t: nat)
    requires RoundRobinRun(n, readys, curs) && t < n && |readys| >= n
    requires forall m :: 0 <= m < n ==> readys[m][t]
    ensures exists m :: 1 <= m <= n && curs[m] == t
  {
    if forall m :: 1 <= m <= n ==> curs[m] != t {
      RoundRobinApproaches(n, readys, curs, t, n);
    }
  }

  // ---- load aware: fair over ticks ----------------------------------------------------

  datatype Queue = Queue(loads: seq<nat>, cur: nat)

  ghost predicate InRange(q: Queue) {
    q.cur < |q.loads| && forall i :: 0 <= i < |q.loads| ==> q.loads[i] <= SATURATED
  }

  /** The loads after current's next charge. */
  function Pending(q: Queue): seq<nat>
    requires q.cur < |q.loads|
  {
    q.loads[q.cur := Charge(q.loads[q.cur])]
  }

  /** One tick: charge the current task, then pick. */
  predicate Tick(q: Queue, ready: seq<bool>, r: Queue) {
    && q.cur < |q.loads| && |ready| == |q.loads|
    && r.loads == Pending(q) && r.cur < |r.loads|
    && BestReady(ready, r.loads, q.cur, r.cur)
  }

  function Slack(loads: seq<nat>): seq<nat> {
    seq(|loads|, i requires 0 <= i < |loads| => if loads[i] <= SATURATED then SATURATED - loads[i] else 0)
  }

  /** The room left below saturation after the pending charge, then the distance to t. */
  function Measure(q: Queue, t: nat): nat
    requires q.cur < |q.loads| && t < |q.loads|
  {
    Sum(Slack(Pending(q))) * |q.loads| + Dist(q.cur, t, |q.loads|)
  }

  lemma TickKeepsRange(q: Queue, ready: seq<bool>, r: Queue)
    requires InRange(q) && Tick(q, ready, r)
    ensures InRange(r) && |r.loads| == |q.loads|
  {
    ChargeClimbs(q.loads[q.cur]);
  }

  /** The charge pending after the tick uses up slack unless the picked task is saturated. */
  lemma TickUsesSlack(q: Queue, ready: seq<bool>, r: Queue)
    requires InRange(q) && Tick(q, ready, r)
    ensures Sum(Slack(Pending(r))) <= Sum(Slack(Pending(q)))
    ensures r.loads[r.cur] < SATURATED ==> Sum(Slack(Pending(r))) < Sum(Slack(Pending(q)))
  {
    TickKeepsRange(q, ready, r);
    var l := r.loads[r.cur];
    ChargeClimbs(l);
    SumUpdate(Slack(r.loads), r.cur, SATURATED - Charge(l));
    assert Slack(Pending(r)) == Slack(r.loads)[r.cur := SATURATED - Charge(l)];
  }

  lemma Lexicographic(a: nat, b: nat, x: nat, y: nat, n: nat)
    requires x < n && y < n && (a < b || (a == b && x < y))
    ensures a * n + x < b * n + y
  {
    if a < b {
      assert (a + 1) * n <= b * n;
      assert (a + 1) * n == a * n + n;
    }
  }

  /** Every tick that does not pick READY task t lowers the measure. */
  lemma TickLowersMeasure(q: Queue, ready: seq<bool>, r: Queue, t: nat)
    requires InRange(q) && Tick(q, ready, r) && t < |q.loads| && ready[t] && r.cur != t
    ensures InRange(r) && |r.loads| == |q.loads| && Measure(r, t) < Measure(q, t)
  {
    var n := |q.loads|;
    TickKeepsRange(q, ready, r);
    TickUsesSlack(q, ready, r);
    if r.loads[r.cur] == SATURATED {
      assert r.loads[t] == SATURATED;
      assert Dist(q.cur, r.cur, n) != Dist(q.cur, t, n);
      DistDrops(q.cur, r.cur, t, n);
    }
    Lexicographic(Sum(Slack(Pending(r))), Sum(Slack(Pending(q))), Dist(r.cur, t, n), Dist(q.cur, t, n), n);
  }

  ghost predicate TickRun(queues: seq<Queue>, readys: seq<seq<bool>>) {
    && |queues| == |readys| + 1 && InRange(queues[0])
    && forall k :: 0 <= k < |readys| ==> Tick(queues[k], readys[k], queues[k + 1])
  }

  /** Loads never leave 0..997. */
  lemma {:induction false} LoadsStayInRange(queues: seq<Queue>, readys: seq<seq<bool>>, k: nat)
    requires TickRun(queues, readys) && k < |queues|
    ensures InRange(queues[k]) && |queues[k].loads| == |queues[0].loads|
  {
    if k > 0 {
      LoadsStayInRange(queues, readys, k - 1);
      assert Tick(queues[k - 1], readys[k - 1], queues[k - 1 + 1]);
      TickKeepsRange(queues[k - 1], readys[k - 1], queues[k]);
    }
  }

  lemma {:induction false} MeasureFallsUntilPicked(queues: seq<Queue>, readys: seq<seq<bool>>, t: nat, k: nat)
    requires TickRun(queues, readys) && t < |queues[0].loads| && k <= |readys|
    requires forall m :: 0 <= m < k ==> |readys[m]| > t && readys[m][t]
    requires forall m :: 1 <= m <= k ==> queues[m].cur != t
    ensures InRange(queues[k]) && |queues[k].loads| == |queues[0].loads|
    ensures Measure(queues[k], t) + k <= Measure(queues[0], t)
  {
    LoadsStayInRange(queues, readys, k);
    if k > 0 {
      MeasureFallsUntilPicked(queues, readys, t, k - 1);
      assert Tick(queues[k - 1], readys[k - 1], queues[k - 1 + 1]);
      TickLowersMeasure(queues[k - 1], readys[k - 1], queues[k], t);
    }
  }

  lemma MeasureBound(q: Queue, t: nat)
    requires InRange(q) && t < |q.loads|
    ensures Measure(q, t) < (SATURATED * |q.loads| + 1) * |q.loads|
  {
    var n := |q.loads|;
    var s := Sum(Slack(Pending(q)));
    SumBound(Slack(Pending(q)), SATURATED);
    Lexicographic(s, SATURATED * n + 1, Dist(q.cur, t, n), 0, n);
  }

  /** Under the load-aware policy a task that stays READY is picked within
      (997 n + 1) n ticks on a queue of n tasks, however the others block and wake and
      whatever the loads are to begin with. */
  lemma LoadAwareIsFairOverTicks(queues: seq<Queue>, readys: seq<seq<bool>>, t: nat)
    requires TickRun(queues, readys) && t < |queues[0].loads|
    requires |readys| >= (SATURATED * |queues[0].loads| + 1) * |queues[0].loads|
    requires forall m :: 0 <= m < |readys| ==> |readys[m]| > t && readys[m][t]
    ensures exists m :: 1 <= m <= |readys| && queues[m].cur == t
  {
    if forall m :: 1 <= m <= |readys| ==> queues[m].cur != t {
      MeasureFallsUntilPicked(queues, readys, t, |readys|);
      MeasureBound(queues[0], t);
    }
  }

  // ---- load aware: picks without a charge ---------------------------------------------

  /** A run of picks by yields and blocks only: the loads stand still. */
  ghost predicate ChargeFreeRun(loads: seq<nat>, readys: seq<seq<bool>>, curs: seq<nat>) {
    && |curs| == |readys| + 1
    && (forall k :: 0 <= k < |curs| ==> curs[k] < |loads|)
    && (forall k :: 0 <= k < |readys| ==> |readys[k]| == |loads|)
    && (forall k :: 0 <= k < |readys| ==> BestReady(readys[k], loads, curs[k], curs[k + 1]))
  }

  /** t is among the least loaded READY tasks. */
  predicate IsLeastLoaded(loads: seq<nat>, ready: seq<bool>, t: nat)
    requires |ready| == |loads| && t < |loads|
  {
    ready[t] && forall j :: 0 <= j < |ready| && ready[j] ==> loads[t] <= loads[j]
  }

  lemma {:induction false} LeastLoadedApproaches(loads: seq<nat>, readys: seq<seq<bool>>, curs: seq<nat>, t: nat, k: nat)
    requires ChargeFreeRun(loads, readys, curs) && t < |loads| && k <= |readys|
    requires forall m :: 0 <= m < k ==> IsLeastLoaded(loads, readys[m], t)
    requires forall m :: 1 <= m <= k ==> curs[m] != t
    ensures Dist(curs[k], t, |loads|) + k <= Dist(curs[0], t, |loads|)
  {
    if k > 0 {
      LeastLoadedApproaches(loads, readys, curs, t, k - 1);
      assert BestReady(readys[k - 1], loads, curs[k - 1], curs[k - 1 + 1]);
      assert IsLeastLoaded(loads, readys[k - 1], t);
      assert Dist(curs[k - 1], curs[k], |loads|) != Dist(curs[k - 1], t, |loads|);
      DistDrops(curs[k - 1], curs[k], t, |loads|);
    }
  }

  /** Without charges, however the READY set changes: a task is passed over at every pick at
      which some READY task is less loaded, and picked within any n picks at which none is. */
  lemma ChargeFreePicks(loads: seq<nat>, readys: seq<seq<bool>>, curs: seq<nat>, t: nat)
    requires ChargeFreeRun(loads, readys, curs) && t < |loads|
    ensures forall k :: 0 <= k < |readys| && !IsLeastLoaded(loads, readys[k], t) ==> curs[k + 1] != t
    ensures |readys| >= |loads| && (forall k :: 0 <= k < |loads| ==> IsLeastLoaded(loads, readys[k], t)) ==>
      exists k :: 1 <= k <= |loads| && curs[k] == t
  {
    var n := |loads|;
    if |readys| >= n && (forall k :: 0 <= k < n ==> IsLeastLoaded(loads, readys[k], t)) && forall k :: 1 <= k <= n ==> curs[k] != t {
      LeastLoadedApproaches(loads, readys, curs, t, n);
    }
  }

  /** So the bound of LoadAwareIsFairOverTicks fails: on an unchanging set of READY tasks, in
      any run of at least n picks, a READY task is picked if and only if it is among the least
      loaded. */
  lemma ChargeFreePicksExactly(loads: seq<nat>, ready: seq<bool>, readys: seq<seq<bool>>, curs: seq<nat>, t: nat)
    requires ChargeFreeRun(loads, readys, curs) && t < |loads| == |ready| && ready[t] && |readys| >= |loads|
    requires forall k :: 0 <= k < |readys| ==> readys[k] == ready
    ensures (exists k :: 1 <= k <= |readys| && curs[k] == t) <==> IsLeastLoaded(loads, ready, t)
  {
    ChargeFreePicks(loads, readys, curs, t);
    if !IsLeastLoaded(loads, ready, t) {
      forall k | 1 <= k <= |readys| ensures curs[k] != t {
        assert !IsLeastLoaded(loads, readys[k - 1], t);
      }
    }
  }
}
