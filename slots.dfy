/** The slots of the partial-histogram managers: one partial histogram per
    pair of bodies (the diagonal holding each body's self-correlation), one per
    body against the hydration layer and one for the hydration layer itself,
    their enumerations, and the rules that decide which of them a call
    recomputes. */
module Slots {
  import opened Histograms

  /** The partial histograms, one slot each: a pair of bodies `AA(i, j)` with
      `j <= i` (`j == i` is the self-correlation), a body against the water
      `AW(i)`, and the water itself `WW`. */
  datatype Slot = AA(i: nat, j: nat) | AW(i: nat) | WW

  function Row(i: nat): (r: seq<Slot>)
    ensures |r| == i + 1 && forall j :: 0 <= j <= i ==> r[j] == AA(i, j)
  {
    seq(i + 1, j requires 0 <= j => AA(i, j))
  }

  /** The pair slots of `n` bodies, row by row: the order `calculate_all` sums them. */
  function AASlots(n: nat): (r: seq<Slot>)
    ensures forall s :: s in r <==> s.AA? && s.j <= s.i < n
  {
    if n == 0 then []
    else
      var row := Row(n - 1);
      assert forall s: Slot :: s.AA? && s.i == n - 1 && s.j <= n - 1 ==> row[s.j] == s;
      AASlots(n - 1) + row
  }

  function AWSlots(n: nat): (r: seq<Slot>)
    ensures forall s :: s in r <==> s.AW? && s.i < n
  {
    var r := seq(n, i requires 0 <= i => AW(i));
    assert forall s: Slot :: s.AW? && s.i < n ==> r[s.i] == s;
    r
  }

  /** Every slot of a manager for `n` bodies. */
  function AllSlots(n: nat): (r: seq<Slot>)
    ensures forall s :: s in r <==> IsSlot(n, s)
  {
    AASlots(n) + AWSlots(n) + [WW]
  }

  lemma {:induction false} AASlotsNoDups(n: nat)
    ensures NoDups(AASlots(n))
  {
    if n > 0 {
      AASlotsNoDups(n - 1);
      NoDupsAppend(AASlots(n - 1), Row(n - 1));
    }
  }

  /** Each slot occurs once in the enumeration. */
  lemma AllSlotsNoDups(n: nat)
    ensures NoDups(AllSlots(n))
  {
    AASlotsNoDups(n);
    NoDupsAppend(AASlots(n), AWSlots(n));
    NoDupsAppend(AASlots(n) + AWSlots(n), [WW]);
  }

  predicate IsSlot(n: nat, s: Slot) {
    match s
    case AA(i, j) => j <= i < n
    case AW(i) => i < n
    case WW => true
  }

  lemma NoDupsAppend(a: seq<Slot>, b: seq<Slot>)
    requires NoDups(a) && NoDups(b)
    requires forall s :: s in a ==> s !in b
    ensures NoDups(a + b)
  {
    forall x, y | 0 <= x < y < |a + b|
      ensures (a + b)[x] != (a + b)[y]
    {
      if y < |a| {
      } else if x >= |a| {
        assert (a + b)[x] == b[x - |a|] && (a + b)[y] == b[y - |a|];
      } else {
        assert (a + b)[x] == a[x] && (a + b)[y] == b[y - |a|];
        assert (a + b)[y] in b;
      }
    }
  }

  /** The recompute rules: a self-correlation when its body changed
      internally, a pair when either body moved, a body-water partial when the
      body moved or the hydration changed, and the water partial when the
      hydration changed. */
  predicate Recomputes(s: Slot, internal: seq<bool>, external: seq<bool>, hydration: bool) {
    match s
    case AA(i, j) =>
      if i == j then i < |internal| && internal[i]
      else i < |external| && j < |external| && (external[i] || external[j])
    case AW(i) => (i < |external| && external[i]) || hydration
    case WW => hydration
  }

  function AllFalse(n: nat): (r: seq<bool>)
    ensures |r| == n && forall i :: 0 <= i < n ==> !r[i]
  {
    seq(n, _ => false)
  }

  /** The diagonal slots, in the order `initialize` combines them. */
  function Diagonal(n: nat): (r: seq<Slot>)
    ensures |r| == n && forall i :: 0 <= i < n ==> r[i] == AA(i, i)
  {
    seq(n, i requires 0 <= i => AA(i, i))
  }

  /** The sum over all slots is the pair sum plus the body-water sum plus the
      water partial. */
  lemma SumAllSplit(n: nat, bins: nat, partials: map<Slot, Hist>)
    requires WellSized(AllSlots(n), partials, bins)
    ensures WellSized(AASlots(n), partials, bins) && WellSized(AWSlots(n), partials, bins) && WW in partials
    ensures |partials[WW]| == bins
    ensures SumOver(AllSlots(n), partials, bins) ==
      Add(Add(SumOver(AASlots(n), partials, bins), SumOver(AWSlots(n), partials, bins)), partials[WW])
  {
    var aa := AASlots(n);
    var aw := AWSlots(n);
    assert WW in AllSlots(n);
    assert forall s :: s in aa ==> s in AllSlots(n);
    assert forall s :: s in aw ==> s in AllSlots(n);
    SumOverAppend(aa, aw, partials, bins);
    assert AllSlots(n)[..|AllSlots(n)| - 1] == aa + aw;
  }

  /** Every slot of an initialized manager holds a histogram of `bins` bins. */
  lemma SlotsSized(n: nat, m: map<Slot, Hist>, bins: nat)
    requires forall s :: s in m <==> IsSlot(n, s)
    requires WellSized(AllSlots(n), m, bins)
    ensures forall s :: IsSlot(n, s) ==> s in m && |m[s]| == bins
  {
    forall s | IsSlot(n, s)
      ensures s in m && |m[s]| == bins
    {
      assert s in AllSlots(n);
    }
  }

  /** The pair slots `calculate_all` has summed after `j` entries of row `i`. */
  lemma PairPrefixSized(n: nat, i: nat, j: nat, m: map<Slot, Hist>, bins: nat)
    requires i < n && j <= i + 1
    requires forall s :: IsSlot(n, s) ==> s in m && |m[s]| == bins
    ensures WellSized(AASlots(i) + Row(i)[..j], m, bins)
  {
    forall s | s in AASlots(i) + Row(i)[..j]
      ensures IsSlot(n, s)
    {
      if s !in AASlots(i) {
        assert s in Row(i);
      }
    }
  }

  /** One more pair partial in `calculate_all`'s running pair sum. */
  lemma PairStep(n: nat, i: nat, j: nat, m: map<Slot, Hist>, bins: nat, base: Hist, b: nat)
    requires i < n && j <= i && |base| == bins && b <= bins
    requires forall s :: IsSlot(n, s) ==> s in m && |m[s]| == bins
    ensures WellSized(AASlots(i) + Row(i)[..j], m, bins) && WellSized(AASlots(i) + Row(i)[..j + 1], m, bins)
    ensures AA(i, j) in m && |m[AA(i, j)]| == bins
    ensures Resize(Add(base, SumOver(AASlots(i) + Row(i)[..j + 1], m, bins)), b) ==
      Add(Resize(Add(base, SumOver(AASlots(i) + Row(i)[..j], m, bins)), b), Resize(m[AA(i, j)], b))
  {
    PairPrefixSized(n, i, j, m, bins);
    PairPrefixSized(n, i, j + 1, m, bins);
    var before := AASlots(i) + Row(i)[..j];
    assert Row(i)[..j + 1] == Row(i)[..j] + [AA(i, j)];
    assert before + [AA(i, j)] == AASlots(i) + Row(i)[..j + 1];
    assert (before + [AA(i, j)])[..|before|] == before;
    AddAssoc(base, SumOver(before, m, bins), m[AA(i, j)]);
    ResizeAdd(Add(base, SumOver(before, m, bins)), m[AA(i, j)], b);
  }

  /** Row `i` of the pair sum starts from the rows below it and ends with the
      rows up to it. */
  lemma RowBounds(n: nat, i: nat, m: map<Slot, Hist>, bins: nat)
    requires i < n
    requires forall s :: IsSlot(n, s) ==> s in m && |m[s]| == bins
    ensures AASlots(i) + Row(i)[..0] == AASlots(i)
    ensures AASlots(i) + Row(i)[..i + 1] == AASlots(i + 1)
    ensures WellSized(AASlots(i), m, bins)
  {
    PairPrefixSized(n, i, 0, m, bins);
    assert Row(i)[..i + 1] == Row(i);
  }
}
