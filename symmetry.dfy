/** Symmetry descriptions shared by the symmetry-aware histogram managers:
    how many symmetric copies a body has, which host-versus-copy distance
    histograms are computed for one symmetry, and how often each of them is
    reused. */
module Symmetries {
  import opened Histograms

  /** A symmetry applied `repeat` times to its body. A closed symmetry brings
      its last copy back next to the body itself, so the body and its last
      copy are as far apart as the body and its first copy. */
  datatype Symmetry = Symmetry(repeat: nat, closed: bool)

  /** A body, as far as the managers look at it: its list of symmetries. */
  datatype Body = Body(symmetries: seq<Symmetry>)

  /** `size_symmetry_total`: the number of symmetric copies of a body, one
      per repeat of each of its symmetries. */
  function SymmetryTotal(syms: seq<Symmetry>): nat {
    if syms == [] then 0 else SymmetryTotal(syms[..|syms| - 1]) + syms[|syms| - 1].repeat
  }

  /** `1 + size_symmetry_total`: the body and all its copies. */
  function Duplicates(b: Body): (d: nat)
    ensures d >= 1
  {
    1 + SymmetryTotal(b.symmetries)
  }

  /** Sum of the weights of host-versus-copy terms 0 .. k-1 under a weight
      rule with or without the closed bonus on term 0. */
  function WeightSum(s: Symmetry, bonus: bool, k: nat): int
    requires k <= s.repeat
  {
    if k == 0 then 0
    else WeightSum(s, bonus, k - 1) + (s.repeat - (k - 1)) + (if k - 1 == 0 && bonus then 1 else 0)
  }

  // ---- the repeat loop as the multi-threaded managers write it ----

  /** The number of host-versus-copy terms of the loop
      `i < repeat - closed`. */
  function HostTermsAsWritten(s: Symmetry): nat {
    if s.closed then (if s.repeat == 0 then 0 else s.repeat - 1) else s.repeat
  }

  /** Term i is reused `repeat - i` times, plus once more for term 0 of a
      closed symmetry. */
  function WeightAsWritten(s: Symmetry, i: nat): int
    requires i < s.repeat
  {
    s.repeat - i + (if i == 0 && s.closed then 1 else 0)
  }

  /** A closed symmetry with a single repeat (a plain translation is one)
      gets no host-versus-copy term at all: the pair of the body and its only
      copy carries total weight 0 instead of 1. */
  lemma ClosedSingleRepeatLost(s: Symmetry)
    requires s == Symmetry(1, true)
    ensures HostTermsAsWritten(s) == 0
    ensures WeightSum(s, s.closed, HostTermsAsWritten(s)) != s.repeat * (s.repeat + 1) / 2
  {
  }

  // ---- the corrected repeat rule, used by the rest of the model ----

  /** Whether the closed-symmetry folding applies: the last copy coincides
      in distance with the first only when there are at least two copies. */
  predicate Folds(s: Symmetry) {
    s.closed && s.repeat >= 2
  }

  /** The number of host-versus-copy terms computed for a symmetry. */
  function HostTerms(s: Symmetry): (n: nat)
    ensures n <= s.repeat
  {
    if Folds(s) then s.repeat - 1 else s.repeat
  }

  /** How often host-versus-copy term i is reused: `repeat - i`, plus one
      for term 0 when the last copy folds onto the first. */
  function Weight(s: Symmetry, i: nat): (w: nat)
    requires i < s.repeat
    ensures w >= 1
  {
    s.repeat - i + (if i == 0 && Folds(s) then 1 else 0)
  }

  /** `WeightSum` is the running sum of `Weight`. */
  lemma {:induction false} WeightSumIsWeights(s: Symmetry, k: nat)
    requires k <= s.repeat
    ensures WeightSum(s, Folds(s), k) == if k == 0 then 0 else WeightSum(s, Folds(s), k - 1) + Weight(s, k - 1)
  {
  }

  /** Twice the sum `n + (n-1) + ... + (n-k+1)`. */
  lemma {:induction false} PlainSum(s: Symmetry, k: nat)
    requires k <= s.repeat
    ensures 2 * WeightSum(s, false, k) == k * (2 * s.repeat - k + 1)
  {
    if k > 0 {
      PlainSum(s, k - 1);
      var n := s.repeat;
      assert 2 * WeightSum(s, false, k) == (k - 1) * (2 * n - k + 2) + 2 * (n - k + 1);
      assert (k - 1) * (2 * n - k + 2) + 2 * (n - k + 1) == k * (2 * n - k + 1);
    }
  }

  /** The bonus on term 0 adds exactly one to every non-empty sum. */
  lemma {:induction false} BonusSum(s: Symmetry, k: nat)
    requires 1 <= k <= s.repeat
    ensures WeightSum(s, true, k) == WeightSum(s, false, k) + 1
  {
    if k > 1 {
      BonusSum(s, k - 1);
    }
  }

  /** Every copy pair is accounted for: the weights of a symmetry with n
      repeats add up to n(n+1)/2, the number of pairs among the body and
      its n copies, whether or not the symmetry is closed. */
  lemma RepeatWeightsTotal(s: Symmetry)
    ensures WeightSum(s, Folds(s), HostTerms(s)) == s.repeat * (s.repeat + 1) / 2
  {
    var n := s.repeat;
    if Folds(s) {
      PlainSum(s, n - 1);
      BonusSum(s, n - 1);
      assert 2 * WeightSum(s, true, n - 1) == (n - 1) * (n + 2) + 2;
      assert (n - 1) * (n + 2) + 2 == n * (n + 1);
    } else {
      PlainSum(s, n);
      assert 2 * WeightSum(s, false, n) == n * (n + 1);
    }
  }

  /** The corrected rule differs from the loop as written only for a closed
      symmetry with a single repeat. */
  lemma CorrectionIsLocal(s: Symmetry)
    requires !(s.closed && s.repeat == 1)
    ensures HostTerms(s) == HostTermsAsWritten(s)
    ensures forall i :: 0 <= i < HostTerms(s) ==> Weight(s, i) == WeightAsWritten(s, i)
  {
  }

  /** `scale_hist`: multiplies every bin by a positive scale; a scale of 1
      leaves the histogram as it is. */
  method ScaleHist(h: Hist, scale: int) returns (r: Hist)
    requires 0 < scale
    ensures r == Scale(h, scale as real)
  {
    if scale == 1 {
      assert Scale(h, 1.0) == h;
      return h;
    }
    r := h;
    for i := 0 to |r|
      invariant |r| == |h|
      invariant forall k :: 0 <= k < i ==> r[k] == scale as real * h[k]
      invariant forall k :: i <= k < |r| ==> r[k] == h[k]
    {
      r := r[i := r[i] * scale as real];
    }
    var want := Scale(h, scale as real);
    assert |r| == |want| && forall k :: 0 <= k < |r| ==> r[k] == want[k];
    assert r == want;
  }
}
