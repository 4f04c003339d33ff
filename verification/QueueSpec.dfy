/** Run-queue arithmetic shared by the scheduler class (kernel/sched.c executed step by
    step) and by the SMP kernel machine: swap-remove, busiest and idlest queue, and the
    sum-of-squares measure of the load balancer. */
module QueueSpec {
  import opened Base

  const MAX_TASKS: nat := 8

  predicate Distinct<T(==)>(s: seq<T>) {
    forall i, j :: 0 <= i < j < |s| ==> s[i] != s[j]
  }

  /** sched_migrate's removal: the last entry takes the place of entry i. */
  function SwapRemove<T>(s: seq<T>, i: nat): (r: seq<T>)
    requires i < |s|
    ensures |r| == |s| - 1
  {
    s[i := s[|s| - 1]][..|s| - 1]
  }

  /** Swap-remove takes out exactly entry i and keeps the rest free of duplicates. */
  lemma SwapRemoveContents<T>(s: seq<T>, i: nat)
    requires i < |s| && Distinct(s)
    ensures Distinct(SwapRemove(s, i))
    ensures forall x :: x in SwapRemove(s, i) <==> x in s && x != s[i]
  {
    var r := SwapRemove(s, i);
    forall x | x in s && x != s[i] ensures x in r {
      var k :| 0 <= k < |s| && s[k] == x;
      assert r[if k == |s| - 1 then i else k] == x;
    }
  }

  /** sched_migrate's clamp of current_idx after a removal. */
  function ClampIdx(idx: nat, n: nat): (r: nat)
    ensures n > 0 ==> r < n
  {
    if idx >= n then 0 else idx
  }

  /** After a removal the last entry is where the removed one was, every other entry is where
      it was, and current_idx is unchanged if it is still in range and 0 otherwise. */
  lemma RemovalKeepsPlaces<T>(s: seq<T>, i: nat, cur: nat, k: nat)
    requires i < |s| && k < |s| - 1
    ensures |SwapRemove(s, i)| == |s| - 1
    ensures SwapRemove(s, i)[k] == if k == i then s[|s| - 1] else s[k]
    ensures ClampIdx(cur, |s| - 1) == if cur < |s| - 1 then cur else 0
  {
  }

  /** b is the first of the secondaries 1..n-1 with the most tasks. */
  predicate IsBusiest(lens: seq<nat>, b: nat) {
    && 1 <= b < |lens|
    && (forall c :: 1 <= c < |lens| ==> lens[c] <= lens[b])
    && (forall c :: 1 <= c < b ==> lens[c] < lens[b])
  }

  /** i is the first of the secondaries 1..n-1 with the fewest tasks. */
  predicate IsIdlest(lens: seq<nat>, i: nat) {
    && 1 <= i < |lens|
    && (forall c :: 1 <= c < |lens| ==> lens[i] <= lens[c])
    && (forall c :: 1 <= c < i ==> lens[i] < lens[c])
  }

  /** First longest and first shortest queue are unique. */
  lemma ExtremesAreUnique(lens: seq<nat>, b: nat, b': nat, l: nat, l': nat)
    requires IsBusiest(lens, b) && IsBusiest(lens, b') && IsIdlest(lens, l) && IsIdlest(lens, l')
    ensures b == b' && l == l'
  {
    assert lens[b] == lens[b'] && lens[l] == lens[l'];
  }

  function Squares(lens: seq<nat>): seq<nat> {
    seq(|lens|, c requires 0 <= c < |lens| => if c == 0 then 0 else lens[c] * lens[c])
  }

  /** The sum of squared secondary queue lengths. */
  function Imbalance(lens: seq<nat>): nat {
    Sum(Squares(lens))
  }

  lemma ImbalanceUpdate(lens: seq<nat>, c: nat, v: nat)
    requires 1 <= c < |lens|
    ensures Imbalance(lens[c := v]) == Imbalance(lens) - lens[c] * lens[c] + v * v
  {
    SumUpdate(Squares(lens), c, v * v);
    assert Squares(lens[c := v]) == Squares(lens)[c := v * v];
  }

  lemma SquareShift(x: nat, y: nat)
    requires x > 0
    ensures (x - 1) * (x - 1) + (y + 1) * (y + 1) + 2 * x == x * x + y * y + 2 * y + 2
  {
    assert (x - 1) * (x - 1) == x * x - 2 * x + 1;
    assert (y + 1) * (y + 1) == y * y + 2 * y + 1;
  }

  /** The queue lengths after one task has moved from queue b to queue i. */
  function Moved(lens: seq<nat>, b: nat, i: nat): (r: seq<nat>)
    requires b < |lens| && i < |lens| && b != i && lens[b] > 0
    ensures |r| == |lens|
  {
    lens[b := lens[b] - 1][i := lens[i] + 1]
  }

  /** What moving one task between any two secondaries does to the sum of squares. */
  lemma MoveChangesImbalance(lens: seq<nat>, b: nat, i: nat)
    requires 1 <= b < |lens| && 1 <= i < |lens| && b != i && lens[b] > 0
    ensures Imbalance(Moved(lens, b, i)) + 2 * lens[b] == Imbalance(lens) + 2 * lens[i] + 2
  {
    ImbalanceUpdate(lens, b, lens[b] - 1);
    ImbalanceUpdate(lens[b := lens[b] - 1], i, lens[i] + 1);
    SquareShift(lens[b], lens[i]);
  }

  /** Moving one task from the busiest to the idlest queue, two or more apart, lowers the
      sum of squares by at least 2 and keeps every length between the old extremes. */
  lemma MoveLowersImbalance(lens: seq<nat>, b: nat, i: nat)
    requires IsBusiest(lens, b) && IsIdlest(lens, i) && lens[b] - lens[i] >= 2
    ensures Imbalance(Moved(lens, b, i)) + 2 <= Imbalance(lens)
    ensures forall c :: 1 <= c < |lens| ==> lens[i] <= Moved(lens, b, i)[c] <= lens[b]
  {
    MoveChangesImbalance(lens, b, i);
  }
}
