/**
 * Aggregation of per-step substep counts into the single global progress
 * index shown by the onboarding page indicator.
 */
module Progress {

  /** Sum of the first `n` counts. */
  function SumPrefix(counts: seq<int>, n: nat): int
    requires n <= |counts|
  {
    if n == 0 then 0 else SumPrefix(counts, n - 1) + counts[n - 1]
  }

  /** Sum of all counts. */
  function Total(counts: seq<int>): int {
    SumPrefix(counts, |counts|)
  }

  /** Every step contributes at least one progress tick. */
  predicate AllPositive(counts: seq<int>) {
    forall k :: 0 <= k < |counts| ==> counts[k] >= 1
  }

  /** The global index of substep `sub` of step `step`. */
  function GlobalIndex(counts: seq<int>, step: nat, sub: int): int
    requires step <= |counts|
  {
    SumPrefix(counts, step) + sub
  }

  /** Summing more positive counts never gives less; each extra count adds at least one. */
  lemma {:induction false} SumPrefixGrows(counts: seq<int>, a: nat, b: nat)
    requires AllPositive(counts)
    requires a <= b <= |counts|
    ensures SumPrefix(counts, a) + (b - a) <= SumPrefix(counts, b)
  {
    if a < b {
      SumPrefixGrows(counts, a, b - 1);
    }
  }

  /** Every valid (step, substep) position lands inside [0, Total). */
  lemma GlobalIndexInRange(counts: seq<int>, step: nat, sub: int)
    requires AllPositive(counts)
    requires step < |counts| && 0 <= sub < counts[step]
    ensures 0 <= GlobalIndex(counts, step, sub) < Total(counts)
  {
    SumPrefixGrows(counts, 0, step);
    SumPrefixGrows(counts, step + 1, |counts|);
  }

  /** Two distinct (step, substep) positions never share a global index. */
  lemma GlobalIndexInjective(counts: seq<int>, s1: nat, j1: int, s2: nat, j2: int)
    requires AllPositive(counts)
    requires s1 < |counts| && 0 <= j1 < counts[s1]
    requires s2 < |counts| && 0 <= j2 < counts[s2]
    requires (s1, j1) != (s2, j2)
    ensures GlobalIndex(counts, s1, j1) != GlobalIndex(counts, s2, j2)
  {
    if s1 < s2 {
      SumPrefixGrows(counts, s1 + 1, s2);
    } else if s2 < s1 {
      SumPrefixGrows(counts, s2 + 1, s1);
    }
  }

  /**
   * Reference inverse of GlobalIndex: the (step, substep) position among the
   * first `n` steps whose global index is `g`.
   */
  function Locate(counts: seq<int>, g: int, n: nat): (p: (nat, int))
    requires n <= |counts|
    requires 0 <= g < SumPrefix(counts, n)
    ensures p.0 < n && 0 <= p.1 < counts[p.0]
    ensures GlobalIndex(counts, p.0, p.1) == g
  {
    if SumPrefix(counts, n - 1) <= g then (n - 1, g - SumPrefix(counts, n - 1))
    else Locate(counts, g, n - 1)
  }

  /** Locating the global index of a position gives back that position. */
  lemma LocateRoundTrip(counts: seq<int>, step: nat, sub: int)
    requires AllPositive(counts)
    requires step < |counts| && 0 <= sub < counts[step]
    ensures var g := GlobalIndex(counts, step, sub);
      0 <= g < Total(counts) && Locate(counts, g, |counts|) == (step, sub)
  {
    GlobalIndexInRange(counts, step, sub);
    var p := Locate(counts, GlobalIndex(counts, step, sub), |counts|);
    if p != (step, sub) {
      GlobalIndexInjective(counts, p.0, p.1, step, sub);
    }
  }

  /**
   * Moving from the last substep of a step to the first substep of the next
   * step advances the global index by exactly one.
   */
  lemma NextStepAdvancesByOne(counts: seq<int>, step: nat)
    requires step + 1 < |counts|
    ensures GlobalIndex(counts, step + 1, 0) == GlobalIndex(counts, step, counts[step] - 1) + 1
  {
  }
}
