/** The partial histograms of the partial symmetry manager and the order in
    which one call of `calculate` recomputes them. A partial belongs to a
    pair (body, symmetry) x (body, symmetry) in the lower triangle, where
    symmetry 0 is the body itself and symmetry s >= 1 stands for all copies
    of the body's (s-1)-th symmetry; or to a (body, symmetry) against the
    hydration layer; or to the hydration layer itself. */
module SymmetrySlots {
  import opened Histograms
  import opened Symmetries

  datatype Slot = AA(b1: nat, s1: nat, b2: nat, s2: nat) | AW(b: nat, s: nat) | WW

  /** The number of symmetries of body `b`. */
  function Syms(bodies: seq<Body>, b: nat): nat
    requires b < |bodies|
  {
    |bodies[b].symmetries|
  }

  predicate IsSlot(bodies: seq<Body>, x: Slot) {
    match x
    case AA(b1, s1, b2, s2) => b2 <= b1 < |bodies| && s1 <= Syms(bodies, b1) && s2 <= Syms(bodies, b2)
    case AW(b, s) => b < |bodies| && s <= Syms(bodies, b)
    case WW => true
  }

  /** The self-correlation of a body, computed once and scaled by its
      number of copies. */
  predicate IsSelfSlot(x: Slot) {
    x.AA? && x.b1 == x.b2 && x.s1 == 0 && x.s2 == 0
  }

  /** The modification flags one call reads: per body internal and external
      changes, per symmetry of each body a change of its transform, and a
      change of the hydration layer. */
  datatype Flags = Flags(internal: seq<bool>, external: seq<bool>, symmetry: seq<seq<bool>>, hydration: bool)

  predicate Shaped(bodies: seq<Body>, f: Flags) {
    |f.internal| == |bodies| && |f.external| == |bodies| && |f.symmetry| == |bodies| &&
    forall b :: 0 <= b < |bodies| ==> |f.symmetry[b]| == Syms(bodies, b)
  }

  /** Whether body `b` moved. */
  predicate Moved(f: Flags, b: nat) {
    b < |f.external| && f.external[b]
  }

  /** Whether symmetry slot `s` of body `b` changed: slot 0 is the body
      itself and never does, slot `s >= 1` is the body's (s-1)-th symmetry. */
  predicate SymChanged(f: Flags, b: nat, s: nat) {
    1 <= s && b < |f.symmetry| && s - 1 < |f.symmetry[b]| && f.symmetry[b][s - 1]
  }

  /** The reference rule: a body's self-correlation is recomputed when the
      body changed internally; a pair partial of the lower triangle when
      either of two different bodies moved or either of its two symmetries
      changed; a body-water partial when the body moved, the hydration
      changed or its symmetry changed; the water partial when the hydration
      changed. Water partials exist only when the molecule has waters. */
  predicate Recomputes(bodies: seq<Body>, f: Flags, waters: bool, x: Slot) {
    match x
    case WW => waters && f.hydration
    case AW(b, s) => waters && (Moved(f, b) || f.hydration || SymChanged(f, b, s))
    case AA(b1, s1, b2, s2) =>
      if IsSelfSlot(x) then b1 < |f.internal| && f.internal[b1]
      else
        (b2 < b1 || s2 < s1) &&
        ((b2 < b1 && (Moved(f, b1) || Moved(f, b2))) || SymChanged(f, b1, s1) || SymChanged(f, b2, s2))
  }

  /** No element of `a` occurs in `c`. */
  predicate Apart(a: seq<Slot>, c: seq<Slot>) {
    forall y :: y in a ==> y !in c
  }

  /** Concatenating two duplicate-free sequences with no common element. */
  lemma NoDupsConcat(a: seq<Slot>, c: seq<Slot>)
    requires NoDups(a) && NoDups(c) && Apart(a, c)
    ensures NoDups(a + c)
  {
    forall i, j | 0 <= i < j < |a + c|
      ensures (a + c)[i] != (a + c)[j]
    {
      if j < |a| {
        assert (a + c)[i] == a[i] && (a + c)[j] == a[j];
      } else if i >= |a| {
        assert (a + c)[i] == c[i - |a|] && (a + c)[j] == c[j - |a|];
      } else {
        assert (a + c)[i] == a[i] && (a + c)[j] == c[j - |a|];
        assert (a + c)[j] in c;
      }
    }
  }

  // ---- the enumeration of all partials, in `calculate_all`'s order ----

  /** Membership in a concatenation. */
  lemma JoinIn(s: seq<Slot>, a: seq<Slot>, c: seq<Slot>, x: Slot)
    requires s == a + c
    ensures x in s <==> x in a || x in c
  {
  }

  /** Two duplicate-free parts with no common element make a duplicate-free
      whole. */
  lemma JoinNoDups(s: seq<Slot>, a: seq<Slot>, c: seq<Slot>)
    requires s == a + c && NoDups(a) && NoDups(c) && Apart(a, c)
    ensures NoDups(s)
  {
    NoDupsConcat(a, c);
  }

  /** `AA(b1, s1, b2, s2)` for `s2 < m`. */
  function Line(b1: nat, s1: nat, b2: nat, m: nat): (r: seq<Slot>)
    ensures |r| == m && forall s2 :: 0 <= s2 < m ==> r[s2] == AA(b1, s1, b2, s2)
    ensures forall x :: x in r <==> x.AA? && x.b1 == b1 && x.s1 == s1 && x.b2 == b2 && x.s2 < m
  {
    var r := seq(m, s2 requires 0 <= s2 => AA(b1, s1, b2, s2));
    assert forall x: Slot :: x.AA? && x.b1 == b1 && x.s1 == s1 && x.b2 == b2 && x.s2 < m ==> r[x.s2] == x;
    r
  }

  lemma LineNoDups(b1: nat, s1: nat, b2: nat, m: nat)
    ensures NoDups(Line(b1, s1, b2, m))
  {
  }

  /** The pairs of symmetry `s1` of body `b1` with every symmetry of each
      body below `k`. */
  function PairsOf(bodies: seq<Body>, b1: nat, s1: nat, k: nat): (r: seq<Slot>)
    requires k <= |bodies|
    ensures forall x :: x in r <==>
      x.AA? && x.b1 == b1 && x.s1 == s1 && x.b2 < k && x.s2 <= Syms(bodies, x.b2)
    decreases k
  {
    if k == 0 then [] else PairsOf(bodies, b1, s1, k - 1) + Line(b1, s1, k - 1, Syms(bodies, k - 1) + 1)
  }

  lemma {:induction false} PairsOfNoDups(bodies: seq<Body>, b1: nat, s1: nat, k: nat)
    requires k <= |bodies|
    ensures NoDups(PairsOf(bodies, b1, s1, k))
  {
    if k > 0 {
      var a := PairsOf(bodies, b1, s1, k - 1);
      var c := Line(b1, s1, k - 1, Syms(bodies, k - 1) + 1);
      PairsOfNoDups(bodies, b1, s1, k - 1);
      LineNoDups(b1, s1, k - 1, Syms(bodies, k - 1) + 1);
      JoinNoDups(PairsOf(bodies, b1, s1, k), a, c);
    }
  }

  /** The pair partials of body `b1` for its symmetries below `m`. */
  function BodyPairs(bodies: seq<Body>, b1: nat, m: nat): (r: seq<Slot>)
    requires b1 < |bodies|
    ensures forall x :: x in r <==>
      x.AA? && x.b1 == b1 && x.s1 < m && x.b2 <= b1 && x.s2 <= Syms(bodies, x.b2)
    decreases m
  {
    if m == 0 then [] else BodyPairs(bodies, b1, m - 1) + PairsOf(bodies, b1, m - 1, b1 + 1)
  }

  lemma {:induction false} BodyPairsNoDups(bodies: seq<Body>, b1: nat, m: nat)
    requires b1 < |bodies|
    ensures NoDups(BodyPairs(bodies, b1, m))
  {
    if m > 0 {
      var a := BodyPairs(bodies, b1, m - 1);
      var c := PairsOf(bodies, b1, m - 1, b1 + 1);
      BodyPairsNoDups(bodies, b1, m - 1);
      PairsOfNoDups(bodies, b1, m - 1, b1 + 1);
      JoinNoDups(BodyPairs(bodies, b1, m), a, c);
    }
  }

  /** Every pair partial of the bodies below `k`, body by body. */
  function AASlots(bodies: seq<Body>, k: nat): (r: seq<Slot>)
    requires k <= |bodies|
    ensures forall x :: x in r <==>
      x.AA? && x.b1 < k && x.s1 <= Syms(bodies, x.b1) && x.b2 <= x.b1 && x.s2 <= Syms(bodies, x.b2)
    decreases k
  {
    if k == 0 then []
    else
      var a := AASlots(bodies, k - 1);
      var c := BodyPairs(bodies, k - 1, Syms(bodies, k - 1) + 1);
      AASlotsStep(bodies, k, a, c);
      a + c
  }

  /** The triangle below row k - 1 and row k - 1 together make the triangle
      below row k. */
  lemma AASlotsStep(bodies: seq<Body>, k: nat, a: seq<Slot>, c: seq<Slot>)
    requires 0 < k <= |bodies|
    requires forall x :: x in a <==>
      x.AA? && x.b1 < k - 1 && x.s1 <= Syms(bodies, x.b1) && x.b2 <= x.b1 && x.s2 <= Syms(bodies, x.b2)
    requires forall x :: x in c <==>
      x.AA? && x.b1 == k - 1 && x.s1 < Syms(bodies, k - 1) + 1 && x.b2 <= k - 1 && x.s2 <= Syms(bodies, x.b2)
    ensures forall x :: x in a + c <==>
      x.AA? && x.b1 < k && x.s1 <= Syms(bodies, x.b1) && x.b2 <= x.b1 && x.s2 <= Syms(bodies, x.b2)
  {
    forall x
      ensures x in a + c <==>
        x.AA? && x.b1 < k && x.s1 <= Syms(bodies, x.b1) && x.b2 <= x.b1 && x.s2 <= Syms(bodies, x.b2)
    {
      JoinIn(a + c, a, c, x);
    }
  }

  lemma {:induction false} AASlotsNoDups(bodies: seq<Body>, k: nat)
    requires k <= |bodies|
    ensures NoDups(AASlots(bodies, k))
  {
    if k > 0 {
      var a := AASlots(bodies, k - 1);
      var c := BodyPairs(bodies, k - 1, Syms(bodies, k - 1) + 1);
      AASlotsNoDups(bodies, k - 1);
      BodyPairsNoDups(bodies, k - 1, Syms(bodies, k - 1) + 1);
      JoinNoDups(AASlots(bodies, k), a, c);
    }
  }

  /** `AW(b, s)` for `s < m`. */
  function WaterAll(b: nat, m: nat): (r: seq<Slot>)
    ensures |r| == m && forall s :: 0 <= s < m ==> r[s] == AW(b, s)
    ensures forall x :: x in r <==> x.AW? && x.b == b && x.s < m
  {
    var r := seq(m, s requires 0 <= s => AW(b, s));
    assert forall x: Slot :: x.AW? && x.b == b && x.s < m ==> r[x.s] == x;
    r
  }

  lemma WaterAllNoDups(b: nat, m: nat)
    ensures NoDups(WaterAll(b, m))
  {
  }

  /** Every body-water partial of the bodies below `k`. */
  function AWSlots(bodies: seq<Body>, k: nat): (r: seq<Slot>)
    requires k <= |bodies|
    ensures forall x :: x in r <==> x.AW? && x.b < k && x.s <= Syms(bodies, x.b)
    decreases k
  {
    if k == 0 then [] else AWSlots(bodies, k - 1) + WaterAll(k - 1, Syms(bodies, k - 1) + 1)
  }

  lemma {:induction false} AWSlotsNoDups(bodies: seq<Body>, k: nat)
    requires k <= |bodies|
    ensures NoDups(AWSlots(bodies, k))
  {
    if k > 0 {
      var a := AWSlots(bodies, k - 1);
      var c := WaterAll(k - 1, Syms(bodies, k - 1) + 1);
      AWSlotsNoDups(bodies, k - 1);
      WaterAllNoDups(k - 1, Syms(bodies, k - 1) + 1);
      JoinNoDups(AWSlots(bodies, k), a, c);
    }
  }

  /** Every partial of the manager. */
  function AllSlots(bodies: seq<Body>): seq<Slot> {
    AASlots(bodies, |bodies|) + AWSlots(bodies, |bodies|) + [WW]
  }

  /** The enumeration lists exactly the partials. */
  lemma AllSlotsIn(bodies: seq<Body>)
    ensures forall x :: x in AllSlots(bodies) <==> IsSlot(bodies, x)
  {
    var n := |bodies|;
    forall x: Slot
      ensures x in AllSlots(bodies) <==> IsSlot(bodies, x)
    {
      JoinIn(AASlots(bodies, n) + AWSlots(bodies, n), AASlots(bodies, n), AWSlots(bodies, n), x);
    }
  }

  /** Each partial occurs once in the enumeration. */
  lemma AllSlotsNoDups(bodies: seq<Body>)
    ensures NoDups(AllSlots(bodies))
  {
    var n := |bodies|;
    var a := AASlots(bodies, n);
    var w := AWSlots(bodies, n);
    assert Apart(a, w) && Apart(a + w, [WW]) by {
      forall y | y in a + w ensures y !in [WW] {
        JoinIn(a + w, a, w, y);
      }
    }
    assert NoDups(a + w + [WW]) by {
      AASlotsNoDups(bodies, n);
      AWSlotsNoDups(bodies, n);
      NoDupsConcat(a, w);
      NoDupsConcat(a + w, [WW]);
    }
  }

  /** The sum over all partials is the pair sum plus the body-water sum
      plus the water partial. */
  lemma SumAllSplit(bodies: seq<Body>, bins: nat, partials: map<Slot, Hist>)
    requires WellSized(AllSlots(bodies), partials, bins)
    ensures WellSized(AASlots(bodies, |bodies|), partials, bins) && WellSized(AWSlots(bodies, |bodies|), partials, bins)
    ensures WW in partials && |partials[WW]| == bins
    ensures SumOver(AllSlots(bodies), partials, bins) ==
      Add(Add(SumOver(AASlots(bodies, |bodies|), partials, bins), SumOver(AWSlots(bodies, |bodies|), partials, bins)), partials[WW])
  {
    var aa := AASlots(bodies, |bodies|);
    var aw := AWSlots(bodies, |bodies|);
    var all := AllSlots(bodies);
    assert WW in all;
    assert forall s :: s in aa ==> s in all;
    assert forall s :: s in aw ==> s in all;
    SumOverAppend(aa, aw, partials, bins);
    assert all[..|all| - 1] == aa + aw;
  }
}
