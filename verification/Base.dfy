/** Small vocabulary shared by the kernel models: optional values and sums over per-core or
    per-queue counters. */
module Base {

  datatype Option<+T> = None | Some(value: T)

  /** The sum of a sequence of counters. */
  function Sum(s: seq<nat>): nat {
    if s == [] then 0 else Sum(s[..|s| - 1]) + s[|s| - 1]
  }

  /** Changing one counter changes the sum by exactly the difference. */
  lemma {:induction false} SumUpdate(s: seq<nat>, i: nat, v: nat)
    requires i < |s|
    ensures Sum(s[i := v]) == Sum(s) - s[i] + v
  {
    var t := s[i := v];
    if i == |s| - 1 {
      assert t[..|t| - 1] == s[..|s| - 1];
    } else {
      SumUpdate(s[..|s| - 1], i, v);
      assert t[..|t| - 1] == s[..|s| - 1][i := v];
    }
  }

  /** Equal counters add up to a product. */
  lemma {:induction false} SumConstant(s: seq<nat>, v: nat)
    requires forall i :: 0 <= i < |s| ==> s[i] == v
    ensures Sum(s) == |s| * v
  {
    if s != [] {
      SumConstant(s[..|s| - 1], v);
      assert (|s| - 1) * v + v == |s| * v;
    }
  }

  /** A bound on every counter bounds the sum. */
  lemma {:induction false} SumBound(s: seq<nat>, v: nat)
    requires forall i :: 0 <= i < |s| ==> s[i] <= v
    ensures Sum(s) <= |s| * v
  {
    if s != [] {
      SumBound(s[..|s| - 1], v);
      assert (|s| - 1) * v + v == |s| * v;
    }
  }
}
