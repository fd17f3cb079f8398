/** The multithreaded partial symmetry manager. It keeps one partial distance
    histogram per slot of `SymmetrySlots` and a master histogram equal to
    their sum. A call of `calculate` asks an abstract distance calculator for
    the histograms of the slots the modification flags select, each as a list
    of scaled requests merged under the slot's result key, and swaps every
    result into the master by subtracting the old partial and adding the new
    one. */
module PartialSymmetryManagerMT {
  import opened Histograms
  import opened Symmetries
  import opened SymmetrySlots
  import opened SymmetryPlan
  import opened State

  // ---- result keys ----

  /** `water_res_index`: `1.31e8` stored in an `int`. */
  const WATER_RES_INDEX: int := 131000000

  /** The code of a (body, symmetry) pair inside a key: `(body + 1) * 100 + symmetry`. */
  function PairCode(b: int, s: int): int {
    (b + 1) * 100 + s
  }

  /** `to_res_index` as written: the code of the first pair is shifted by two
      digits, although the code of the second pair has up to four. */
  function ResIndexAsWritten(b1: int, s1: int, b2: int, s2: int): int {
    PairCode(b1, s1) * 100 + PairCode(b2, s2)
  }

  /** As written, two different pairs of the lower triangle share a key:
      symmetry 1 of body 1 against body 1 itself, and symmetry 2 of body 1
      against body 0, both get 20300. */
  lemma KeyCollision()
    ensures ResIndexAsWritten(1, 1, 1, 0) == ResIndexAsWritten(1, 2, 0, 0) == 20300
  {
  }

  const TwoBodiesMoved: seq<Body> := [Body([]), Body([Symmetry(1, false), Symmetry(1, false)])]
  const SecondMovedFirstChanged: Flags := Flags([false, false], [false, true], [[], [true, false]], false)

  /** Both colliding pairs are recomputed in one call when body 1 moved and
      its first symmetry changed, so the calculator merges their
      calculations under one key; the corrected keys keep them apart. */
  method KeysCollide() returns (plan: seq<Slot>)
    ensures AA(1, 1, 1, 0) in plan && AA(1, 2, 0, 0) in plan
    ensures ResIndexAsWritten(1, 1, 1, 0) == ResIndexAsWritten(1, 2, 0, 0)
    ensures ResIndex(1, 1, 1, 0) != ResIndex(1, 2, 0, 0)
  {
    plan := CombineList(TwoBodiesMoved, SecondMovedFirstChanged, false);
    assert IsSlot(TwoBodiesMoved, AA(1, 1, 1, 0)) && Recomputes(TwoBodiesMoved, SecondMovedFirstChanged, false, AA(1, 1, 1, 0));
    assert IsSlot(TwoBodiesMoved, AA(1, 2, 0, 0)) && Recomputes(TwoBodiesMoved, SecondMovedFirstChanged, false, AA(1, 2, 0, 0));
  }

  /** `to_res_index` with the first code shifted past the second one. */
  function ResIndex(b1: nat, s1: nat, b2: nat, s2: nat): int {
    PairCode(b1, s1) * 10000 + PairCode(b2, s2)
  }

  /** The bounds under which the codes fit their digits: fewer than 100
      bodies, each with fewer than 100 symmetries. */
  predicate Fits(bodies: seq<Body>) {
    |bodies| < 100 && forall b :: 0 <= b < |bodies| ==> Syms(bodies, b) < 100
  }

  /** Corrected keys are unique: two (body, symmetry) pairs with bodies
      below 99 and symmetries below 100 share a key only if they are the
      same pairs. */
  lemma ResIndexInjective(b1: nat, s1: nat, b2: nat, s2: nat, c1: nat, t1: nat, c2: nat, t2: nat)
    requires b2 < 99 && c2 < 99 && s1 < 100 && t1 < 100 && s2 < 100 && t2 < 100
    ensures ResIndex(b1, s1, b2, s2) == ResIndex(c1, t1, c2, t2) <==> b1 == c1 && s1 == t1 && b2 == c2 && s2 == t2
  {
    if ResIndex(b1, s1, b2, s2) == ResIndex(c1, t1, c2, t2) {
      var d := PairCode(c1, t1) - PairCode(b1, s1);
      assert PairCode(b2, s2) - PairCode(c2, t2) == d * 10000;
      assert d == 0;
      assert (b1 - c1) * 100 == t1 - s1;
      assert (b2 - c2) * 100 == t2 - s2;
    }
  }

  /** Whether a slot's result is read from the calculator's self results. */
  predicate IsSelfResult(x: Slot) {
    x.WW? || IsSelfSlot(x)
  }

  /** The key under which the calculator merges a slot's calculations:
      `to_res_index`, `to_res_index_water` (the self key of the pair plus
      `water_res_index`) or `water_res_index`. */
  function Key(x: Slot): int {
    match x
    case AA(b1, s1, b2, s2) => ResIndex(b1, s1, b2, s2)
    case AW(b, s) => ResIndex(b, s, b, s) + WATER_RES_INDEX
    case WW => WATER_RES_INDEX
  }

  /** No two slots that read the same result map share a key. */
  lemma KeysUnique(bodies: seq<Body>, x: Slot, y: Slot)
    requires Fits(bodies) && IsSlot(bodies, x) && IsSlot(bodies, y)
    requires IsSelfResult(x) == IsSelfResult(y) && Key(x) == Key(y)
    ensures x == y
  {
    match x
    case AA(b1, s1, b2, s2) =>
      if y.AA? {
        ResIndexInjective(b1, s1, b2, s2, y.b1, y.s1, y.b2, y.s2);
      }
    case AW(b, s) =>
      if y.AW? {
        ResIndexInjective(b, s, b, s, y.b, y.s, y.b, y.s);
      }
    case WW =>
  }

  // ---- the calculations of one slot ----

  /** What a calculation reads: copy `rep` of symmetry slot `sym` of body
      `body` (slot 0 is the body itself, with the single copy 0), or the
      hydration layer. */
  datatype Coords = Atoms(body: nat, sym: nat, rep: nat) | Hydration

  /** A distance histogram asked of the calculator: within one set of
      coordinates, or between two. */
  datatype Request = SelfOf(a: Coords) | CrossOf(a: Coords, b: Coords)

  /** One enqueued calculation: the request, its scale, and the result it
      is merged into, the self or the cross results, under `key`. */
  datatype Calc = Calc(req: Request, scale: nat, toSelf: bool, key: int)

  /** The number of copies symmetry slot `s` of body `b` stands for. */
  function Copies(bodies: seq<Body>, b: nat, s: nat): nat
    requires b < |bodies| && s <= Syms(bodies, b)
  {
    if s == 0 then 1 else bodies[b].symmetries[s - 1].repeat
  }

  /** Coordinates `a` against the first `n` copies of symmetry slot `s2` of
      body `b2`, each once. */
  function CrossLine(a: Coords, b2: nat, s2: nat, n: nat, key: int): (r: seq<Calc>)
    ensures |r| == n
    ensures forall c :: c in r ==> !c.toSelf && c.key == key && c.scale == 1
  {
    if n == 0 then [] else CrossLine(a, b2, s2, n - 1, key) + [Calc(CrossOf(a, Atoms(b2, s2, n - 1)), 1, false, key)]
  }

  /** The first `n1` copies of slot `s1` of body `b1` against the first `n2`
      copies of slot `s2` of body `b2`, copy by copy of the first. */
  function CrossGrid(b1: nat, s1: nat, n1: nat, b2: nat, s2: nat, n2: nat, key: int): (r: seq<Calc>)
    ensures |r| == n1 * n2
    ensures forall c :: c in r ==> !c.toSelf && c.key == key && c.scale == 1
  {
    if n1 == 0 then []
    else CrossGrid(b1, s1, n1 - 1, b2, s2, n2, key) + CrossLine(Atoms(b1, s1, n1 - 1), b2, s2, n2, key)
  }

  /** The body against its first `k` copies under symmetry `sym`, the
      symmetry's slot being `s`; copy r is weighted by how often its distance
      to the body recurs among all the copies. */
  function HostLine(b: nat, s: nat, sym: Symmetry, k: nat, key: int): (r: seq<Calc>)
    requires k <= sym.repeat
    ensures |r| == k
    ensures forall c :: c in r ==> !c.toSelf && c.key == key
  {
    if k == 0 then []
    else HostLine(b, s, sym, k - 1, key) + [Calc(CrossOf(Atoms(b, 0, 0), Atoms(b, s, k - 1)), Weight(sym, k - 1), false, key)]
  }

  /** The first `n` copies of slot `s` of body `b` against the hydration layer. */
  function WaterLine(b: nat, s: nat, n: nat, key: int): (r: seq<Calc>)
    ensures |r| == n
    ensures forall c :: c in r ==> !c.toSelf && c.key == key && c.scale == 1
  {
    if n == 0 then [] else WaterLine(b, s, n - 1, key) + [Calc(CrossOf(Atoms(b, s, n - 1), Hydration), 1, false, key)]
  }

  /** The calculations `calc_aa_self`, `calc_ww`, `calc_aa` and `calc_aw`
      enqueue for a slot. A body's self-correlation is computed once and
      scaled by its number of copies; a symmetry against its own body uses
      the repeat weights; every other pair takes each copy against each
      copy once. The upper triangle of a body's own block is never
      recomputed, so its value here is never used. */
  function SlotCalcs(bodies: seq<Body>, x: Slot): (r: seq<Calc>)
    requires IsSlot(bodies, x)
    ensures forall c :: c in r ==> c.toSelf == IsSelfResult(x) && c.key == Key(x)
  {
    match x
    case WW => [Calc(SelfOf(Hydration), 1, true, Key(x))]
    case AW(b, s) => WaterLine(b, s, Copies(bodies, b, s), Key(x))
    case AA(b1, s1, b2, s2) =>
      if IsSelfSlot(x) then [Calc(SelfOf(Atoms(b1, 0, 0)), Duplicates(bodies[b1]), true, Key(x))]
      else if b1 == b2 && s2 == 0 then
        var sym := bodies[b1].symmetries[s1 - 1];
        HostLine(b1, s1, sym, HostTerms(sym), Key(x))
      else CrossGrid(b1, s1, Copies(bodies, b1, s1), b2, s2, Copies(bodies, b2, s2), Key(x))
  }

  /** The number of pairs of atom sets a slot stands for: the body and all
      its copies for a self-correlation, the pairs among the body and the n
      copies of one of its symmetries for a symmetry against its own body,
      copies times copies otherwise. */
  function PairCount(bodies: seq<Body>, x: Slot): nat
    requires IsSlot(bodies, x)
  {
    match x
    case WW => 1
    case AW(b, s) => Copies(bodies, b, s)
    case AA(b1, s1, b2, s2) =>
      if IsSelfSlot(x) then Duplicates(bodies[b1])
      else if b1 == b2 && s2 == 0 then
        var n := bodies[b1].symmetries[s1 - 1].repeat;
        n * (n + 1) / 2
      else Copies(bodies, b1, s1) * Copies(bodies, b2, s2)
  }

  /** The sum of the scales of a list of calculations. */
  function TotalScale(cs: seq<Calc>): nat {
    if cs == [] then 0 else TotalScale(cs[..|cs| - 1]) + cs[|cs| - 1].scale
  }

  lemma {:induction false} TotalScaleOnes(cs: seq<Calc>)
    requires forall c :: c in cs ==> c.scale == 1
    ensures TotalScale(cs) == |cs|
  {
    if cs != [] {
      var init := cs[..|cs| - 1];
      assert forall c :: c in init ==> c in cs;
      TotalScaleOnes(init);
      assert cs[|cs| - 1] in cs;
    }
  }

  /** The host line's scales are the running sum of the repeat weights. */
  lemma {:induction false} HostLineScale(b: nat, s: nat, sym: Symmetry, k: nat, key: int)
    requires k <= sym.repeat
    ensures TotalScale(HostLine(b, s, sym, k, key)) == WeightSum(sym, Folds(sym), k)
  {
    WeightSumIsWeights(sym, k);
    if k > 0 {
      var r := HostLine(b, s, sym, k, key);
      assert r[..|r| - 1] == HostLine(b, s, sym, k - 1, key);
      HostLineScale(b, s, sym, k - 1, key);
    }
  }

  /** Every slot's calculations count each pair of atom sets it stands for
      exactly once. */
  lemma SlotScale(bodies: seq<Body>, x: Slot)
    requires IsSlot(bodies, x)
    ensures TotalScale(SlotCalcs(bodies, x)) == PairCount(bodies, x)
  {
    match x
    case WW =>
      assert [Calc(SelfOf(Hydration), 1, true, Key(x))][..0] == [];
    case AW(b, s) =>
      TotalScaleOnes(SlotCalcs(bodies, x));
    case AA(b1, s1, b2, s2) =>
      if IsSelfSlot(x) {
        assert SlotCalcs(bodies, x)[..0] == [];
      } else if b1 == b2 && s2 == 0 {
        var sym := bodies[b1].symmetries[s1 - 1];
        HostLineScale(b1, s1, sym, HostTerms(sym), Key(x));
        RepeatWeightsTotal(sym);
      } else {
        TotalScaleOnes(SlotCalcs(bodies, x));
      }
  }

  // ---- the calculator's results ----

  /** The calculator returns histograms over the distance axis. */
  ghost predicate Sized(hist: Request -> Hist, bins: nat) {
    forall r :: |hist(r)| == bins
  }

  /** The scaled histograms of a list of calculations, added up. */
  function ScaledSum(cs: seq<Calc>, hist: Request -> Hist, bins: nat): (h: Hist)
    requires Sized(hist, bins)
    ensures |h| == bins
  {
    if cs == [] then Zeros(bins)
    else
      var c := cs[|cs| - 1];
      Add(ScaledSum(cs[..|cs| - 1], hist, bins), Scale(hist(c.req), c.scale as real))
  }

  /** The result the calculator's `run` holds under `key` in its self
      (`toSelf`) or cross results: the scaled histograms of the
      calculations merged there, added up. */
  function KeySum(cs: seq<Calc>, toSelf: bool, key: int, hist: Request -> Hist, bins: nat): (h: Hist)
    requires Sized(hist, bins)
    ensures |h| == bins
  {
    if cs == [] then Zeros(bins)
    else
      var c := cs[|cs| - 1];
      var prev := KeySum(cs[..|cs| - 1], toSelf, key, hist, bins);
      if c.toSelf == toSelf && c.key == key then Add(prev, Scale(hist(c.req), c.scale as real)) else prev
  }

  /** The histogram a slot's partial is meant to hold: its calculations,
      scaled and added up. */
  function SlotHist(bodies: seq<Body>, x: Slot, hist: Request -> Hist, bins: nat): (h: Hist)
    requires IsSlot(bodies, x) && Sized(hist, bins)
    ensures |h| == bins
  {
    ScaledSum(SlotCalcs(bodies, x), hist, bins)
  }

  /** Merging two queues merges their results. */
  lemma {:induction false} KeySumAppend(a: seq<Calc>, b: seq<Calc>, toSelf: bool, key: int, hist: Request -> Hist, bins: nat)
    requires Sized(hist, bins)
    ensures KeySum(a + b, toSelf, key, hist, bins) == Add(KeySum(a, toSelf, key, hist, bins), KeySum(b, toSelf, key, hist, bins))
  {
    if b == [] {
      assert a + b == a;
      AddZeros(KeySum(a, toSelf, key, hist, bins));
    } else {
      var init := b[..|b| - 1];
      var c := b[|b| - 1];
      assert (a + b)[..|a + b| - 1] == a + init;
      assert (a + b)[|a + b| - 1] == c;
      KeySumAppend(a, init, toSelf, key, hist, bins);
      if c.toSelf == toSelf && c.key == key {
        AddAssoc(KeySum(a, toSelf, key, hist, bins), KeySum(init, toSelf, key, hist, bins), Scale(hist(c.req), c.scale as real));
      }
    }
  }

  /** A result whose key every calculation carries is their whole scaled sum. */
  lemma {:induction false} KeySumAll(cs: seq<Calc>, toSelf: bool, key: int, hist: Request -> Hist, bins: nat)
    requires Sized(hist, bins)
    requires forall c :: c in cs ==> c.toSelf == toSelf && c.key == key
    ensures KeySum(cs, toSelf, key, hist, bins) == ScaledSum(cs, hist, bins)
  {
    if cs != [] {
      var init := cs[..|cs| - 1];
      assert forall c :: c in init ==> c in cs;
      assert cs[|cs| - 1] in cs;
      KeySumAll(init, toSelf, key, hist, bins);
    }
  }

  /** A result whose key no calculation carries is empty. */
  lemma {:induction false} KeySumNone(cs: seq<Calc>, toSelf: bool, key: int, hist: Request -> Hist, bins: nat)
    requires Sized(hist, bins)
    requires forall c :: c in cs ==> !(c.toSelf == toSelf && c.key == key)
    ensures KeySum(cs, toSelf, key, hist, bins) == Zeros(bins)
  {
    if cs != [] {
      var init := cs[..|cs| - 1];
      assert forall c :: c in init ==> c in cs;
      assert cs[|cs| - 1] in cs;
      KeySumNone(init, toSelf, key, hist, bins);
    }
  }

  /** The calculations of a list of slots, slot by slot. */
  function RunCalcs(bodies: seq<Body>, plan: seq<Slot>): seq<Calc>
    requires forall y :: y in plan ==> IsSlot(bodies, y)
  {
    if plan == [] then []
    else
      assert forall y :: y in plan[..|plan| - 1] ==> y in plan;
      RunCalcs(bodies, plan[..|plan| - 1]) + SlotCalcs(bodies, plan[|plan| - 1])
  }

  /** With corrected keys and a plan without repeats, the result under a
      slot's key is that slot's histogram when the slot is planned, and empty
      otherwise: no slot's result absorbs another's calculations. */
  lemma {:induction false} RunResult(bodies: seq<Body>, plan: seq<Slot>, x: Slot, hist: Request -> Hist, bins: nat)
    requires Fits(bodies) && Sized(hist, bins) && IsSlot(bodies, x)
    requires NoDups(plan) && forall y :: y in plan ==> IsSlot(bodies, y)
    ensures KeySum(RunCalcs(bodies, plan), IsSelfResult(x), Key(x), hist, bins) ==
      if x in plan then SlotHist(bodies, x, hist, bins) else Zeros(bins)
  {
    if plan != [] {
      var init := plan[..|plan| - 1];
      var y := plan[|plan| - 1];
      assert forall z :: z in init ==> z in plan;
      assert NoDups(init);
      var p := KeySum(RunCalcs(bodies, init), IsSelfResult(x), Key(x), hist, bins);
      var q := KeySum(SlotCalcs(bodies, y), IsSelfResult(x), Key(x), hist, bins);
      KeySumAppend(RunCalcs(bodies, init), SlotCalcs(bodies, y), IsSelfResult(x), Key(x), hist, bins);
      RunResult(bodies, init, x, hist, bins);
      assert x in plan <==> x in init || x == y;
      if x == y {
        assert x !in init by {
          forall a | 0 <= a < |init| ensures init[a] != x {
            assert init[a] == plan[a];
          }
        }
        KeySumAll(SlotCalcs(bodies, y), IsSelfResult(x), Key(x), hist, bins);
        AddZeros(q);
      } else {
        forall c | c in SlotCalcs(bodies, y)
          ensures !(c.toSelf == IsSelfResult(x) && c.key == Key(x))
        {
          if c.toSelf == IsSelfResult(x) && c.key == Key(x) {
            KeysUnique(bodies, x, y);
          }
        }
        KeySumNone(SlotCalcs(bodies, y), IsSelfResult(x), Key(x), hist, bins);
        AddZeros(p);
      }
    }
  }

  // ---- enqueueing ----

  /** `calc_aa_self`: the body's self-correlation, scaled by
      `1 + size_symmetry_total`, under the body's self key. */
  method CalcAASelf(bodies: seq<Body>, b: nat, q: seq<Calc>) returns (q': seq<Calc>)
    requires b < |bodies|
    ensures q' == q + SlotCalcs(bodies, AA(b, 0, b, 0))
  {
    q' := q + [Calc(SelfOf(Atoms(b, 0, 0)), 1 + SymmetryTotal(bodies[b].symmetries), true, ResIndex(b, 0, b, 0))];
  }

  /** `calc_ww`: the hydration layer's self-correlation. */
  method CalcWW(bodies: seq<Body>, q: seq<Calc>) returns (q': seq<Calc>)
    ensures q' == q + SlotCalcs(bodies, WW)
  {
    q' := q + [Calc(SelfOf(Hydration), 1, true, WATER_RES_INDEX)];
  }

  /** `calc_aw`: the body itself, or every copy of one of its symmetries,
      against the hydration layer. */
  method CalcAW(bodies: seq<Body>, b: nat, s: nat, q: seq<Calc>) returns (q': seq<Calc>)
    requires b < |bodies| && s <= Syms(bodies, b)
    ensures q' == q + SlotCalcs(bodies, AW(b, s))
  {
    var key := ResIndex(b, s, b, s) + WATER_RES_INDEX;
    if s == 0 {
      q' := q + [Calc(CrossOf(Atoms(b, 0, 0), Hydration), 1, false, key)];
      assert WaterLine(b, 0, 1, key) == [] + [Calc(CrossOf(Atoms(b, 0, 0), Hydration), 1, false, key)];
      return;
    }
    var sym := bodies[b].symmetries[s - 1];
    q' := q;
    for r := 0 to sym.repeat
      invariant q' == q + WaterLine(b, s, r, key)
    {
      q' := q' + [Calc(CrossOf(Atoms(b, s, r), Hydration), 1, false, key)];
    }
  }

  /** The repeat loop of `calc_aa` for a symmetry against its own body:
      the body against each computed copy, weighted. */
  method CalcHostRepeats(b: nat, s: nat, sym: Symmetry, key: int, q: seq<Calc>) returns (q': seq<Calc>)
    ensures q' == q + HostLine(b, s, sym, HostTerms(sym), key)
  {
    q' := q;
    for r := 0 to HostTerms(sym)
      invariant q' == q + HostLine(b, s, sym, r, key)
    {
      q' := q' + [Calc(CrossOf(Atoms(b, 0, 0), Atoms(b, s, r)), Weight(sym, r), false, key)];
    }
  }

  /** The loop of `calc_aa` for a body against the `n2` copies of a
      symmetry of a lower body. */
  method CalcHostCopies(b1: nat, b2: nat, s2: nat, n2: nat, key: int, q: seq<Calc>) returns (q': seq<Calc>)
    ensures q' == q + CrossGrid(b1, 0, 1, b2, s2, n2, key)
  {
    q' := q;
    for r2 := 0 to n2
      invariant q' == q + CrossLine(Atoms(b1, 0, 0), b2, s2, r2, key)
    {
      q' := q' + [Calc(CrossOf(Atoms(b1, 0, 0), Atoms(b2, s2, r2)), 1, false, key)];
    }
    assert CrossGrid(b1, 0, 1, b2, s2, n2, key) == [] + CrossLine(Atoms(b1, 0, 0), b2, s2, n2, key);
  }

  /** The loop of `calc_aa` for the `n1` copies of a symmetry against a
      body. */
  method CalcCopiesHost(b1: nat, s1: nat, n1: nat, b2: nat, key: int, q: seq<Calc>) returns (q': seq<Calc>)
    ensures q' == q + CrossGrid(b1, s1, n1, b2, 0, 1, key)
  {
    q' := q;
    for r1 := 0 to n1
      invariant q' == q + CrossGrid(b1, s1, r1, b2, 0, 1, key)
    {
      assert CrossLine(Atoms(b1, s1, r1), b2, 0, 1, key) == [] + [Calc(CrossOf(Atoms(b1, s1, r1), Atoms(b2, 0, 0)), 1, false, key)];
      q' := q' + [Calc(CrossOf(Atoms(b1, s1, r1), Atoms(b2, 0, 0)), 1, false, key)];
    }
  }

  /** The double loop of `calc_aa`: every copy of one symmetry against
      every copy of another. */
  method CalcCopiesCopies(b1: nat, s1: nat, n1: nat, b2: nat, s2: nat, n2: nat, key: int, q: seq<Calc>) returns (q': seq<Calc>)
    ensures q' == q + CrossGrid(b1, s1, n1, b2, s2, n2, key)
  {
    q' := q;
    for r1 := 0 to n1
      invariant q' == q + CrossGrid(b1, s1, r1, b2, s2, n2, key)
    {
      ghost var start := q';
      for r2 := 0 to n2
        invariant q' == start + CrossLine(Atoms(b1, s1, r1), b2, s2, r2, key)
      {
        q' := q' + [Calc(CrossOf(Atoms(b1, s1, r1), Atoms(b2, s2, r2)), 1, false, key)];
      }
    }
  }

  /** `calc_aa` for a pair of (body, symmetry) slots, within the bounds the
      code asserts: the second body is not above the first, and within one
      body the two symmetries differ and the second is the body itself
      unless the first is a symmetry. A symmetry against its own body pairs
      the body with each computed copy, weighted; every other pair takes all
      copies against all copies, the body itself counting as one copy. */
  method CalcAA(bodies: seq<Body>, b1: nat, s1: nat, b2: nat, s2: nat, q: seq<Calc>) returns (q': seq<Calc>)
    requires IsSlot(bodies, AA(b1, s1, b2, s2))
    requires b1 == b2 ==> s1 != s2 && (s2 != 0 ==> s1 != 0)
    ensures q' == q + SlotCalcs(bodies, AA(b1, s1, b2, s2))
  {
    var key := ResIndex(b1, s1, b2, s2);
    if b1 == b2 && s2 == 0 {
      q' := CalcHostRepeats(b1, s1, bodies[b1].symmetries[s1 - 1], key, q);
      return;
    }
    assert SlotCalcs(bodies, AA(b1, s1, b2, s2)) == CrossGrid(b1, s1, Copies(bodies, b1, s1), b2, s2, Copies(bodies, b2, s2), key);
    if s1 == 0 && s2 == 0 {
      q' := q + [Calc(CrossOf(Atoms(b1, 0, 0), Atoms(b2, 0, 0)), 1, false, key)];
      assert CrossGrid(b1, 0, 1, b2, 0, 1, key) == [] + CrossLine(Atoms(b1, 0, 0), b2, 0, 1, key);
      assert CrossLine(Atoms(b1, 0, 0), b2, 0, 1, key) == [] + [Calc(CrossOf(Atoms(b1, 0, 0), Atoms(b2, 0, 0)), 1, false, key)];
    } else if s1 == 0 {
      q' := CalcHostCopies(b1, b2, s2, bodies[b2].symmetries[s2 - 1].repeat, key, q);
    } else if s2 == 0 {
      q' := CalcCopiesHost(b1, s1, bodies[b1].symmetries[s1 - 1].repeat, b2, key, q);
    } else {
      q' := CalcCopiesCopies(b1, s1, bodies[b1].symmetries[s1 - 1].repeat, b2, s2, bodies[b2].symmetries[s2 - 1].repeat, key, q);
    }
  }

  /** The calculations `calculate` enqueues for one planned slot. */
  method CalcSlot(bodies: seq<Body>, x: Slot, q: seq<Calc>) returns (q': seq<Calc>)
    requires IsSlot(bodies, x)
    requires x.AA? && !IsSelfSlot(x) ==> x.b2 < x.b1 || x.s2 < x.s1
    ensures q' == q + SlotCalcs(bodies, x)
  {
    match x
    case WW => q' := CalcWW(bodies, q);
    case AW(b, s) => q' := CalcAW(bodies, b, s, q);
    case AA(b1, s1, b2, s2) =>
      if IsSelfSlot(x) {
        q' := CalcAASelf(bodies, b1, q);
      } else {
        q' := CalcAA(bodies, b1, s1, b2, s2, q);
      }
  }

  /** The calculations of a whole plan, in the plan's order. */
  method Enqueue(bodies: seq<Body>, f: Flags, waters: bool, plan: seq<Slot>) returns (q: seq<Calc>)
    requires forall y :: y in plan ==> IsSlot(bodies, y) && Recomputes(bodies, f, waters, y)
    ensures q == RunCalcs(bodies, plan)
  {
    q := [];
    for k := 0 to |plan|
      invariant forall y :: y in plan[..k] ==> IsSlot(bodies, y)
      invariant q == RunCalcs(bodies, plan[..k])
    {
      assert plan[..k + 1][..k] == plan[..k];
      q := CalcSlot(bodies, plan[k], q);
    }
    assert plan[..|plan|] == plan;
  }

  // ---- the manager ----

  /** The value a slot holds right after `initialize`: the body's
      self-correlation for a self slot, zeros elsewhere. */
  function Initial(bodies: seq<Body>, x: Slot, hist: Request -> Hist, bins: nat): Hist
    requires IsSlot(bodies, x) && Sized(hist, bins)
  {
    if IsSelfSlot(x) then SlotHist(bodies, x, hist, bins) else Zeros(bins)
  }

  /** The self slots of the first `n` bodies, in order. */
  function SelfSlots(n: nat): (r: seq<Slot>)
    ensures |r| == n && forall b :: 0 <= b < n ==> r[b] == AA(b, 0, b, 0)
  {
    seq(n, b requires 0 <= b < n => AA(b, 0, b, 0))
  }

  /** The first half of `initialize`: `calc_aa_self` for every body. */
  method EnqueueSelf(bodies: seq<Body>) returns (q: seq<Calc>)
    ensures forall y :: y in SelfSlots(|bodies|) ==> IsSlot(bodies, y)
    ensures q == RunCalcs(bodies, SelfSlots(|bodies|))
  {
    ghost var selfs := SelfSlots(|bodies|);
    assert forall y :: y in selfs ==> IsSlot(bodies, y);
    q := [];
    for b := 0 to |bodies|
      invariant q == RunCalcs(bodies, selfs[..b])
    {
      assert selfs[..b + 1][..b] == selfs[..b];
      q := CalcAASelf(bodies, b, q);
    }
    assert selfs[..|bodies|] == selfs;
  }

  /** No body's internal change recorded. */
  function Cleared(n: nat): (r: seq<bool>)
    ensures |r| == n && forall b :: 0 <= b < n ==> !r[b]
  {
    seq(n, _ => false)
  }

  lemma PrefixStep(plan: seq<Slot>, k: nat, y: Slot)
    requires k < |plan|
    ensures y in plan[..k + 1] <==> y in plan[..k] || y == plan[k]
  {
    assert plan[..k + 1] == plan[..k] + [plan[k]];
  }

  /** One more partial added to a prefix sum cut to `b` bins. */
  lemma SumStep(ks: seq<Slot>, x: Slot, partials: map<Slot, Hist>, bins: nat, base: Hist, b: nat)
    requires |base| == bins && b <= bins
    requires WellSized(ks, partials, bins) && x in partials && |partials[x]| == bins
    ensures WellSized(ks + [x], partials, bins)
    ensures Resize(Add(base, SumOver(ks + [x], partials, bins)), b) ==
      Add(Resize(Add(base, SumOver(ks, partials, bins)), b), Resize(partials[x], b))
  {
    assert (ks + [x])[..|ks|] == ks;
    AddAssoc(base, SumOver(ks, partials, bins), partials[x]);
    ResizeAdd(Add(base, SumOver(ks, partials, bins)), partials[x], b);
  }

  /** The master histogram, cut to `b` bins, is the sum of its three
      components cut the same way: the base and the pair partials, the
      body-water partials, and the water partial. */
  lemma {:induction false} ComponentsAddUp(bodies: seq<Body>, bins: nat, master: Hist, base: Hist, partials: map<Slot, Hist>, b: nat)
    requires |base| == bins && b <= bins
    requires WellSized(AllSlots(bodies), partials, bins)
    requires master == Add(base, SumOver(AllSlots(bodies), partials, bins))
    ensures WellSized(AASlots(bodies, |bodies|), partials, bins) && WellSized(AWSlots(bodies, |bodies|), partials, bins)
    ensures WW in partials
    ensures Resize(master, b) ==
      Add(Add(Resize(Add(base, SumOver(AASlots(bodies, |bodies|), partials, bins)), b),
              Resize(SumOver(AWSlots(bodies, |bodies|), partials, bins), b)),
          Resize(partials[WW], b))
  {
    SumAllSplit(bodies, bins, partials);
    var sAA := SumOver(AASlots(bodies, |bodies|), partials, bins);
    var sAW := SumOver(AWSlots(bodies, |bodies|), partials, bins);
    var ww := partials[WW];
    AddAssoc(sAA, sAW, ww);
    AddAssoc(base, sAA, Add(sAW, ww));
    AddAssoc(Add(base, sAA), sAW, ww);
    assert master == Add(Add(Add(base, sAA), sAW), ww);
    ResizeAdd(Add(Add(base, sAA), sAW), ww, b);
    ResizeAdd(Add(base, sAA), sAW, b);
  }

  /** Every slot of the bodies has a partial. */
  ghost predicate Filled(bodies: seq<Body>, partials: map<Slot, Hist>) {
    forall x :: IsSlot(bodies, x) ==> x in partials
  }

  /** What `calculate_all` reads of the partial of `x`: its first `b`
      bins, zeros when there is none. */
  function Part(partials: map<Slot, Hist>, x: Slot, b: nat): (h: Hist)
    ensures |h| == b
    ensures x in partials ==> h == Resize(partials[x], b)
  {
    if x in partials then Resize(partials[x], b) else Zeros(b)
  }

  /** The partials of the slots `ks`, each over its first `b` bins, added
      up. */
  ghost function Cut(ks: seq<Slot>, partials: map<Slot, Hist>, b: nat): (r: Hist)
    ensures |r| == b
  {
    if ks == [] then Zeros(b)
    else Add(Cut(ks[..|ks| - 1], partials, b), Part(partials, ks[|ks| - 1], b))
  }

  /** Cutting a concatenation adds the cuts of its parts. */
  lemma {:induction false} CutAppend(a: seq<Slot>, c: seq<Slot>, partials: map<Slot, Hist>, b: nat)
    ensures Cut(a + c, partials, b) == Add(Cut(a, partials, b), Cut(c, partials, b))
    decreases |c|
  {
    if c == [] {
      assert a + c == a;
      AddZeros(Cut(a, partials, b));
    } else {
      var init := c[..|c| - 1];
      assert (a + c)[..|a + c| - 1] == a + init;
      CutAppend(a, init, partials, b);
      AddAssoc(Cut(a, partials, b), Cut(init, partials, b), Part(partials, c[|c| - 1], b));
    }
  }

  /** When every partial of `ks` has `bins` bins and `b <= bins`, summing
      the cut partials is cutting the sum. */
  lemma {:induction false} CutIsSum(ks: seq<Slot>, partials: map<Slot, Hist>, bins: nat, b: nat)
    requires WellSized(ks, partials, bins) && b <= bins
    ensures Cut(ks, partials, b) == Resize(SumOver(ks, partials, bins), b)
  {
    if ks != [] {
      var init := ks[..|ks| - 1];
      assert forall k :: k in init ==> k in ks;
      CutIsSum(init, partials, bins, b);
      ResizeAdd(SumOver(init, partials, bins), partials[ks[|ks| - 1]], b);
    }
  }

  /** The sums the loops of `calculate_all` build up, one per loop, over
      the loop counter. `LineSum`: the first `m` partials of symmetry `s1`
      of body `b1` against body `b2`. */
  ghost function LineSum(partials: map<Slot, Hist>, b1: nat, s1: nat, b2: nat, m: nat, b: nat): (r: Hist)
    ensures |r| == b
  {
    if m == 0 then Zeros(b)
    else Add(LineSum(partials, b1, s1, b2, m - 1, b), Part(partials, AA(b1, s1, b2, m - 1), b))
  }

  /** Symmetry `s1` of body `b1` against every symmetry of the first `k`
      bodies. */
  ghost function PairsSum(bodies: seq<Body>, partials: map<Slot, Hist>, b1: nat, s1: nat, k: nat, b: nat): (r: Hist)
    requires k <= |bodies|
    ensures |r| == b
  {
    if k == 0 then Zeros(b)
    else Add(PairsSum(bodies, partials, b1, s1, k - 1, b), LineSum(partials, b1, s1, k - 1, Syms(bodies, k - 1) + 1, b))
  }

  /** The first `m` symmetries of body `b1` against every symmetry of the
      bodies up to `b1`. */
  ghost function BodySum(bodies: seq<Body>, partials: map<Slot, Hist>, b1: nat, m: nat, b: nat): (r: Hist)
    requires b1 < |bodies|
    ensures |r| == b
  {
    if m == 0 then Zeros(b)
    else Add(BodySum(bodies, partials, b1, m - 1, b), PairsSum(bodies, partials, b1, m - 1, b1 + 1, b))
  }

  /** The body-water partials of the first `m` symmetries of body `b1`. */
  ghost function WaterSum(partials: map<Slot, Hist>, b1: nat, m: nat, b: nat): (r: Hist)
    ensures |r| == b
  {
    if m == 0 then Zeros(b)
    else Add(WaterSum(partials, b1, m - 1, b), Part(partials, AW(b1, m - 1), b))
  }

  /** All pair partials of the first `k` bodies. */
  ghost function PairTotal(bodies: seq<Body>, partials: map<Slot, Hist>, k: nat, b: nat): (r: Hist)
    requires k <= |bodies|
    ensures |r| == b
  {
    if k == 0 then Zeros(b)
    else Add(PairTotal(bodies, partials, k - 1, b), BodySum(bodies, partials, k - 1, Syms(bodies, k - 1) + 1, b))
  }

  /** All body-water partials of the first `k` bodies. */
  ghost function WaterTotal(bodies: seq<Body>, partials: map<Slot, Hist>, k: nat, b: nat): (r: Hist)
    requires k <= |bodies|
    ensures |r| == b
  {
    if k == 0 then Zeros(b)
    else Add(WaterTotal(bodies, partials, k - 1, b), WaterSum(partials, k - 1, Syms(bodies, k - 1) + 1, b))
  }

  /* Each counter sum is the cut sum over the matching run of slots. The
     induction steps are separate lemmas over `m` and `m + 1`. */

  lemma LineSumStep(partials: map<Slot, Hist>, b1: nat, s1: nat, b2: nat, m: nat, b: nat)
    requires LineSum(partials, b1, s1, b2, m, b) == Cut(Line(b1, s1, b2, m), partials, b)
    ensures LineSum(partials, b1, s1, b2, m + 1, b) == Cut(Line(b1, s1, b2, m + 1), partials, b)
  {
    assert Line(b1, s1, b2, m + 1)[..|Line(b1, s1, b2, m + 1)| - 1] == Line(b1, s1, b2, m);
  }

  lemma {:induction false} LineSumIsCut(partials: map<Slot, Hist>, b1: nat, s1: nat, b2: nat, m: nat, b: nat)
    ensures LineSum(partials, b1, s1, b2, m, b) == Cut(Line(b1, s1, b2, m), partials, b)
  {
    if m > 0 {
      var k := m - 1;
      LineSumIsCut(partials, b1, s1, b2, k, b);
      LineSumStep(partials, b1, s1, b2, k, b);
    }
  }

  lemma PairsSumStep(bodies: seq<Body>, partials: map<Slot, Hist>, b1: nat, s1: nat, k: nat, b: nat)
    requires k < |bodies|
    requires PairsSum(bodies, partials, b1, s1, k, b) == Cut(PairsOf(bodies, b1, s1, k), partials, b)
    ensures PairsSum(bodies, partials, b1, s1, k + 1, b) == Cut(PairsOf(bodies, b1, s1, k + 1), partials, b)
  {
    LineSumIsCut(partials, b1, s1, k, Syms(bodies, k) + 1, b);
    CutAppend(PairsOf(bodies, b1, s1, k), Line(b1, s1, k, Syms(bodies, k) + 1), partials, b);
  }

  lemma {:induction false} PairsSumIsCut(bodies: seq<Body>, partials: map<Slot, Hist>, b1: nat, s1: nat, k: nat, b: nat)
    requires k <= |bodies|
    ensures PairsSum(bodies, partials, b1, s1, k, b) == Cut(PairsOf(bodies, b1, s1, k), partials, b)
  {
    if k > 0 {
      var j := k - 1;
      PairsSumIsCut(bodies, partials, b1, s1, j, b);
      PairsSumStep(bodies, partials, b1, s1, j, b);
    }
  }

  lemma BodySumStep(bodies: seq<Body>, partials: map<Slot, Hist>, b1: nat, m: nat, b: nat)
    requires b1 < |bodies|
    requires BodySum(bodies, partials, b1, m, b) == Cut(BodyPairs(bodies, b1, m), partials, b)
    ensures BodySum(bodies, partials, b1, m + 1, b) == Cut(BodyPairs(bodies, b1, m + 1), partials, b)
  {
    PairsSumIsCut(bodies, partials, b1, m, b1 + 1, b);
    CutAppend(BodyPairs(bodies, b1, m), PairsOf(bodies, b1, m, b1 + 1), partials, b);
  }

  lemma {:induction false} BodySumIsCut(bodies: seq<Body>, partials: map<Slot, Hist>, b1: nat, m: nat, b: nat)
    requires b1 < |bodies|
    ensures BodySum(bodies, partials, b1, m, b) == Cut(BodyPairs(bodies, b1, m), partials, b)
  {
    if m > 0 {
      var k := m - 1;
      BodySumIsCut(bodies, partials, b1, k, b);
      BodySumStep(bodies, partials, b1, k, b);
    }
  }

  lemma WaterSumStep(partials: map<Slot, Hist>, b1: nat, m: nat, b: nat)
    requires WaterSum(partials, b1, m, b) == Cut(WaterAll(b1, m), partials, b)
    ensures WaterSum(partials, b1, m + 1, b) == Cut(WaterAll(b1, m + 1), partials, b)
  {
    assert WaterAll(b1, m + 1)[..|WaterAll(b1, m + 1)| - 1] == WaterAll(b1, m);
  }

  lemma {:induction false} WaterSumIsCut(partials: map<Slot, Hist>, b1: nat, m: nat, b: nat)
    ensures WaterSum(partials, b1, m, b) == Cut(WaterAll(b1, m), partials, b)
  {
    if m > 0 {
      var k := m - 1;
      WaterSumIsCut(partials, b1, k, b);
      WaterSumStep(partials, b1, k, b);
    }
  }

  lemma PairTotalStep(bodies: seq<Body>, partials: map<Slot, Hist>, k: nat, b: nat)
    requires k < |bodies|
    requires PairTotal(bodies, partials, k, b) == Cut(AASlots(bodies, k), partials, b)
    ensures PairTotal(bodies, partials, k + 1, b) == Cut(AASlots(bodies, k + 1), partials, b)
  {
    BodySumIsCut(bodies, partials, k, Syms(bodies, k) + 1, b);
    CutAppend(AASlots(bodies, k), BodyPairs(bodies, k, Syms(bodies, k) + 1), partials, b);
  }

  /** The pair total is the cut sum over the pair slots. */
  lemma {:induction false} PairTotalIsCut(bodies: seq<Body>, partials: map<Slot, Hist>, k: nat, b: nat)
    requires k <= |bodies|
    ensures PairTotal(bodies, partials, k, b) == Cut(AASlots(bodies, k), partials, b)
  {
    if k > 0 {
      var j := k - 1;
      PairTotalIsCut(bodies, partials, j, b);
      PairTotalStep(bodies, partials, j, b);
    }
  }

  lemma WaterTotalStep(bodies: seq<Body>, partials: map<Slot, Hist>, k: nat, b: nat)
    requires k < |bodies|
    requires WaterTotal(bodies, partials, k, b) == Cut(AWSlots(bodies, k), partials, b)
    ensures WaterTotal(bodies, partials, k + 1, b) == Cut(AWSlots(bodies, k + 1), partials, b)
  {
    WaterSumIsCut(partials, k, Syms(bodies, k) + 1, b);
    CutAppend(AWSlots(bodies, k), WaterAll(k, Syms(bodies, k) + 1), partials, b);
  }

  /** The water total is the cut sum over the body-water slots. */
  lemma {:induction false} WaterTotalIsCut(bodies: seq<Body>, partials: map<Slot, Hist>, k: nat, b: nat)
    requires k <= |bodies|
    ensures WaterTotal(bodies, partials, k, b) == Cut(AWSlots(bodies, k), partials, b)
  {
    if k > 0 {
      var j := k - 1;
      WaterTotalIsCut(bodies, partials, j, b);
      WaterTotalStep(bodies, partials, j, b);
    }
  }

  /** The innermost loop of `calculate_all`: adds to `acc` the partials
      of symmetry `s1` of body `b1` against every symmetry of body `b2`,
      each over its first `b` bins. */
  method SumLine(bodies: seq<Body>, partials: map<Slot, Hist>, b1: nat, s1: nat, b2: nat, b: nat, acc: Hist)
    returns (p: Hist)
    requires |acc| == b && b2 <= b1 < |bodies| && s1 <= Syms(bodies, b1)
    requires Filled(bodies, partials)
    ensures p == Add(acc, LineSum(partials, b1, s1, b2, Syms(bodies, b2) + 1, b))
  {
    p := acc;
    AddZeros(acc);
    for s2 := 0 to Syms(bodies, b2) + 1
      invariant p == Add(acc, LineSum(partials, b1, s1, b2, s2, b))
    {
      assert IsSlot(bodies, AA(b1, s1, b2, s2));
      AddAssoc(acc, LineSum(partials, b1, s1, b2, s2, b), Resize(partials[AA(b1, s1, b2, s2)], b));
      p := Add(p, Resize(partials[AA(b1, s1, b2, s2)], b));
    }
  }

  /** The loop of `calculate_all` over the bodies up to `b1`, for symmetry
      `s1` of body `b1`. */
  method SumSymmetry(bodies: seq<Body>, partials: map<Slot, Hist>, b1: nat, s1: nat, b: nat, acc: Hist)
    returns (p: Hist)
    requires |acc| == b && b1 < |bodies| && s1 <= Syms(bodies, b1)
    requires Filled(bodies, partials)
    ensures p == Add(acc, PairsSum(bodies, partials, b1, s1, b1 + 1, b))
  {
    p := acc;
    AddZeros(acc);
    for b2 := 0 to b1 + 1
      invariant p == Add(acc, PairsSum(bodies, partials, b1, s1, b2, b))
    {
      AddAssoc(acc, PairsSum(bodies, partials, b1, s1, b2, b), LineSum(partials, b1, s1, b2, Syms(bodies, b2) + 1, b));
      p := SumLine(bodies, partials, b1, s1, b2, b, p);
    }
  }

  /** The loop of `calculate_all` over the symmetries of body `b1`: for
      each, its pairs go into `p_aa` and its body-water partial into
      `p_aw`. */
  method SumBody(bodies: seq<Body>, partials: map<Slot, Hist>, b1: nat, b: nat, accAA: Hist, accAW: Hist)
    returns (pAA: Hist, pAW: Hist)
    requires |accAA| == b && |accAW| == b && b1 < |bodies|
    requires Filled(bodies, partials)
    ensures pAA == Add(accAA, BodySum(bodies, partials, b1, Syms(bodies, b1) + 1, b))
    ensures pAW == Add(accAW, WaterSum(partials, b1, Syms(bodies, b1) + 1, b))
  {
    pAA, pAW := accAA, accAW;
    AddZeros(accAA);
    AddZeros(accAW);
    for s1 := 0 to Syms(bodies, b1) + 1
      invariant pAA == Add(accAA, BodySum(bodies, partials, b1, s1, b))
      invariant pAW == Add(accAW, WaterSum(partials, b1, s1, b))
    {
      AddAssoc(accAA, BodySum(bodies, partials, b1, s1, b), PairsSum(bodies, partials, b1, s1, b1 + 1, b));
      pAA := SumSymmetry(bodies, partials, b1, s1, b, pAA);
      assert IsSlot(bodies, AW(b1, s1));
      AddAssoc(accAW, WaterSum(partials, b1, s1, b), Resize(partials[AW(b1, s1)], b));
      pAW := Add(pAW, Resize(partials[AW(b1, s1)], b));
    }
  }

  /** The loops of `calculate_all`: `p_aa` starts from the base and
      collects every pair partial, `p_aw` starts from zeros and collects
      every body-water partial, each partial over its first `b` bins. */
  method SumPartials(bodies: seq<Body>, partials: map<Slot, Hist>, base: Hist, b: nat)
    returns (pAA: Hist, pAW: Hist)
    requires Filled(bodies, partials)
    ensures pAA == Add(Resize(base, b), Cut(AASlots(bodies, |bodies|), partials, b))
    ensures pAW == Cut(AWSlots(bodies, |bodies|), partials, b)
  {
    pAA := Resize(base, b);
    pAW := Zeros(b);
    AddZeros(pAA);
    AddZeros(pAW);
    for b1 := 0 to |bodies|
      invariant pAA == Add(Resize(base, b), PairTotal(bodies, partials, b1, b))
      invariant pAW == Add(Zeros(b), WaterTotal(bodies, partials, b1, b))
    {
      AddAssoc(Resize(base, b), PairTotal(bodies, partials, b1, b), BodySum(bodies, partials, b1, Syms(bodies, b1) + 1, b));
      AddAssoc(Zeros(b), WaterTotal(bodies, partials, b1, b), WaterSum(partials, b1, Syms(bodies, b1) + 1, b));
      pAA, pAW := SumBody(bodies, partials, b1, b, pAA, pAW);
    }
    PairTotalIsCut(bodies, partials, |bodies|, b);
    WaterTotalIsCut(bodies, partials, |bodies|, b);
    AddZeros(WaterTotal(bodies, partials, |bodies|, b));
  }

  class Manager {
    const bodies: seq<Body>
    /** The number of bins of the distance axis. */
    const bins: nat
    var master: Hist
    /** `master.base`: all zeros in this manager. */
    var base: Hist
    var partials: map<Slot, Hist>

    /** The initialized state: one histogram per slot, and master the sum of
        the base and all partials. */
    ghost predicate Ready()
      reads this
    {
      bins >= 10 && |master| == bins && base == Zeros(bins) &&
      (forall x :: x in partials <==> IsSlot(bodies, x)) &&
      (forall x :: x in partials ==> |partials[x]| == bins) &&
      WellSized(AllSlots(bodies), partials, bins) &&
      master == Add(base, SumOver(AllSlots(bodies), partials, bins))
    }

    ghost predicate Valid()
      reads this
    {
      bins >= 10 && (master == [] || Ready())
    }

    constructor (bodies: seq<Body>, bins: nat)
      requires bins >= 10
      ensures Valid() && master == []
      ensures this.bodies == bodies && this.bins == bins
    {
      this.bodies := bodies;
      this.bins := bins;
      master := [];
      base := [];
      partials := map[];
    }

    /** The `combine_*` updates: `master -= partial; partial = result;
        master += partial`, which keeps master the sum of the parts. */
    method Combine(x: Slot, result: Hist)
      requires Ready() && IsSlot(bodies, x) && |result| == bins
      modifies this
      ensures Ready()
      ensures partials == old(partials)[x := result]
      ensures master == Add(Sub(old(master), old(partials)[x]), result)
    {
      var all := AllSlots(bodies);
      AllSlotsIn(bodies);
      AllSlotsNoDups(bodies);
      SumOverUpdate(all, partials, bins, x, result);
      ShiftUpdate(base, SumOver(all, partials, bins), partials[x], result);
      master := Sub(master, partials[x]);
      partials := partials[x := result];
      master := Add(master, partials[x]);
    }

    /** The allocation part of `initialize`: master, base and every partial
        zeroed. */
    method Clear()
      requires bins >= 10
      modifies this
      ensures Ready()
      ensures forall x :: x in partials ==> partials[x] == Zeros(bins)
    {
      AllSlotsIn(bodies);
      master := Zeros(bins);
      base := Zeros(bins);
      partials := map x | x in AllSlots(bodies) :: Zeros(bins);
      SumOverZeros(AllSlots(bodies), partials, bins);
      AddZeros(base);
    }

    /** `initialize`: zero everything, enqueue every body's
        self-correlation, run the calculator and combine each result into
        its body's self slot. */
    method Initialize(hist: Request -> Hist)
      requires bins >= 10 && Fits(bodies) && Sized(hist, bins)
      modifies this
      ensures Ready()
      ensures forall x :: x in partials ==> partials[x] == Initial(bodies, x, hist, bins)
    {
      Clear();
      var q := EnqueueSelf(bodies);
      var selfs := SelfSlots(|bodies|);
      CombinePlan(selfs, q, hist);
      forall y | y in partials
        ensures partials[y] == Initial(bodies, y, hist, bins)
      {
        if IsSelfSlot(y) {
          assert selfs[y.b1] == y;
        }
      }
    }

    /** The combine tasks of `calculate`, run after the calculator: each
        planned slot takes the result stored under its key. */
    method CombinePlan(plan: seq<Slot>, q: seq<Calc>, hist: Request -> Hist)
      requires Ready() && Fits(bodies) && Sized(hist, bins)
      requires NoDups(plan) && forall y :: y in plan ==> IsSlot(bodies, y)
      requires q == RunCalcs(bodies, plan)
      modifies this
      ensures Ready()
      ensures forall x :: x in partials ==> partials[x] == if x in plan then SlotHist(bodies, x, hist, bins) else old(partials)[x]
    {
      for k := 0 to |plan|
        invariant Ready()
        invariant forall x :: x in partials ==>
          partials[x] == if x in plan[..k] then SlotHist(bodies, x, hist, bins) else old(partials)[x]
      {
        var x := plan[k];
        var h := KeySum(q, IsSelfResult(x), Key(x), hist, bins);
        RunResult(bodies, plan, x, hist, bins);
        assert h == SlotHist(bodies, x, hist, bins);
        ghost var prev := partials;
        Combine(x, h);
        forall y | y in partials
          ensures partials[y] == if y in plan[..k + 1] then SlotHist(bodies, y, hist, bins) else old(partials)[y]
        {
          PrefixStep(plan, k, y);
          if y != x {
            assert partials[y] == prev[y];
          }
        }
      }
      assert plan[..|plan|] == plan;
    }

    /** `calculate`: initializes on the first call (and then treats no body
        as internally modified), lists the partials the flags select,
        enqueues their calculations, runs the calculator, combines each
        result into its partial, resets the flags and returns the master
        truncated to its last non-zero bin. */
    method Calculate(sm: StateManager, hist: Request -> Hist, waters: bool) returns (total: Hist)
      requires Valid() && Fits(bodies) && Sized(hist, bins)
      requires Shaped(bodies, Flags(sm.internallyModified, sm.externallyModified, sm.symmetryModified, sm.hydrationModified))
      modifies this, sm
      ensures Ready()
      ensures old(master) == [] ==> forall x :: x in partials ==>
        partials[x] ==
          if Recomputes(bodies, Flags(Cleared(|bodies|), old(sm.externallyModified), old(sm.symmetryModified), old(sm.hydrationModified)), waters, x)
          then SlotHist(bodies, x, hist, bins) else Initial(bodies, x, hist, bins)
      ensures old(master) != [] ==> forall x :: x in partials ==>
        partials[x] ==
          if Recomputes(bodies, Flags(old(sm.internallyModified), old(sm.externallyModified), old(sm.symmetryModified), old(sm.hydrationModified)), waters, x)
          then SlotHist(bodies, x, hist, bins) else old(partials)[x]
      ensures total == Truncated(master)
      ensures forall b :: 0 <= b < |sm.internallyModified| ==> !sm.internallyModified[b]
      ensures forall b :: 0 <= b < |sm.externallyModified| ==> !sm.externallyModified[b]
      ensures forall b :: 0 <= b < |sm.symmetryModified| ==> forall s :: 0 <= s < |sm.symmetryModified[b]| ==> !sm.symmetryModified[b][s]
      ensures !sm.hydrationModified
    {
      var f := Flags(sm.internallyModified, sm.externallyModified, sm.symmetryModified, sm.hydrationModified);
      if master == [] {
        Initialize(hist);
        f := f.(internal := Cleared(|bodies|));
      }
      var plan := CombineList(bodies, f, waters);
      var q := Enqueue(bodies, f, waters, plan);
      CombinePlan(plan, q, hist);
      sm.ResetToFalse();
      var maxBin := TruncationBin(NonZero(master));
      total := Resize(master, maxBin);
    }

    /** `calculate_all`: runs `calculate`, then splits the total into the
        pair, body-water and water components, each cut to the total's
        length; the components add up to the total. */
    method CalculateAll(sm: StateManager, hist: Request -> Hist, waters: bool)
      returns (pAA: Hist, pAW: Hist, pWW: Hist, pTot: Hist)
      requires Valid() && Fits(bodies) && Sized(hist, bins)
      requires Shaped(bodies, Flags(sm.internallyModified, sm.externallyModified, sm.symmetryModified, sm.hydrationModified))
      modifies this, sm
      ensures Ready()
      ensures pTot == Truncated(master)
      ensures pAA == Resize(Add(base, SumOver(AASlots(bodies, |bodies|), partials, bins)), |pTot|)
      ensures pAW == Resize(SumOver(AWSlots(bodies, |bodies|), partials, bins), |pTot|)
      ensures pWW == Resize(partials[WW], |pTot|)
      ensures pTot == Add(Add(pAA, pAW), pWW)
    {
      var total := Calculate(sm, hist, waters);
      var b := |total|;
      var m := master;
      pTot := seq(b, i requires 0 <= i < b => m[i]);
      assert pTot == total;
      assert IsSlot(bodies, WW);
      pWW := Resize(partials[WW], b);
      assert Filled(bodies, partials);
      pAA, pAW := SumPartials(bodies, partials, base, b);
      ComponentsAddUp(bodies, bins, master, base, partials, b);
      CutIsSum(AASlots(bodies, |bodies|), partials, bins, b);
      CutIsSum(AWSlots(bodies, |bodies|), partials, bins, b);
      ResizeAdd(base, SumOver(AASlots(bodies, |bodies|), partials, bins), b);
    }
  }
}
