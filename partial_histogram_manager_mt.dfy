/** The multithreaded partial-histogram manager. It keeps one partial distance
    histogram per pair of bodies (the diagonal holding each body's
    self-correlation), one per body against the hydration layer and one for the
    hydration layer itself, and a master histogram equal to their sum. A call
    recomputes only the partials whose bodies or hydration changed; each
    recomputed partial is swapped into the master by subtracting the old one and
    adding the new one. The distance calculator is abstract: its results are
    given as maps from result key to histogram. */
module PartialHistogramManagerMT {
  import opened Histograms
  import opened State
  import opened Slots

  const WATER_RES_INDEX: int := 13100

  /** `to_res_index`: the result key of a pair of bodies. */
  function ResIndex(body1: int, body2: int): int {
    body1 + body2 * 100
  }

  /** `to_res_index_water`: the result key of a body against the hydration layer. */
  function ResIndexWater(body: int): int {
    body + WATER_RES_INDEX
  }

  /** Pair keys are unique while the first body index stays below 100. */
  lemma ResIndexInjective(b1: nat, b2: nat, c1: nat, c2: nat)
    requires b1 < 100 && c1 < 100
    ensures ResIndex(b1, b2) == ResIndex(c1, c2) <==> b1 == c1 && b2 == c2
  {
    if ResIndex(b1, b2) == ResIndex(c1, c2) {
      assert b1 - c1 == (c2 - b2) * 100;
    }
  }

  /** Whether the slot's result comes from the calculator's self results. */
  predicate IsSelfResult(s: Slot) {
    s.WW? || (s.AA? && s.i == s.j)
  }

  /** The key under which the calculator returns the slot's histogram. */
  function Key(s: Slot): int {
    match s
    case AA(i, j) => ResIndex(i, j)
    case AW(i) => ResIndexWater(i)
    case WW => WATER_RES_INDEX
  }

  /** With at most 100 bodies, no two slots that read the same result map
      share a key, so every recomputed partial receives its own result. */
  lemma KeysUnique(n: nat, s: Slot, t: Slot)
    requires n <= 100 && IsSlot(n, s) && IsSlot(n, t)
    requires IsSelfResult(s) == IsSelfResult(t) && Key(s) == Key(t)
    ensures s == t
  {
    if s.AA? && t.AA? {
      ResIndexInjective(s.i, s.j, t.i, t.j);
    }
  }

  /** The result map a slot's histogram is read from. */
  function ResultsFor(s: Slot, selfResults: map<int, Hist>, crossResults: map<int, Hist>): map<int, Hist> {
    if IsSelfResult(s) then selfResults else crossResults
  }

  predicate HasResult(results: map<int, Hist>, key: int, bins: nat) {
    key in results && |results[key]| == bins
  }

  /** The calculator holds every result the flags ask for. */
  ghost predicate Provides(n: nat, bins: nat, internal: seq<bool>, external: seq<bool>, hydration: bool,
                           selfResults: map<int, Hist>, crossResults: map<int, Hist>) {
    forall s :: IsSlot(n, s) && Recomputes(s, internal, external, hydration) ==>
      HasResult(ResultsFor(s, selfResults, crossResults), Key(s), bins)
  }

  /** The histogram stored under `key`; the empty histogram stands for a
      missing result and is never read where the calculator provides one. */
  function ResultOf(results: map<int, Hist>, key: int): Hist {
    if key in results then results[key] else []
  }

  /** The calculator's result for a slot. */
  function SlotResult(s: Slot, selfResults: map<int, Hist>, crossResults: map<int, Hist>): Hist {
    ResultOf(ResultsFor(s, selfResults, crossResults), Key(s))
  }

  /** The value a slot holds right after `initialize`: its self-correlation
      from the first run on the diagonal, zeros elsewhere. */
  function Initial(s: Slot, initResults: map<int, Hist>, bins: nat): Hist {
    if s.AA? && s.i == s.j then ResultOf(initResults, Key(s)) else Zeros(bins)
  }

  /** The self-correlation of every body is in the first run's results. */
  predicate InitProvides(n: nat, bins: nat, initResults: map<int, Hist>) {
    forall i :: 0 <= i < n ==> HasResult(initResults, ResIndex(i, i), bins)
  }

  /** The slots of row `i` in the order `calculate` combines them: the
      self-correlation, the pairs with the lower bodies, the body-water
      partial. */
  function RowOrder(i: nat): seq<Slot> {
    [AA(i, i)] + seq(i, j requires 0 <= j => AA(i, j)) + [AW(i)]
  }

  /** The slots of the rows below `n`, in combining order. */
  function CalcRows(n: nat): (r: seq<Slot>)
    ensures forall s :: s in r ==> !s.WW? && s.i < n
  {
    if n == 0 then [] else CalcRows(n - 1) + RowOrder(n - 1)
  }

  /** Every slot in the order `calculate` combines it: the water partial
      first, then row by row. */
  function CalcOrder(n: nat): seq<Slot> {
    [WW] + CalcRows(n)
  }

  lemma RowOrderSlots(i: nat)
    ensures forall s: Slot :: s in RowOrder(i) <==> (s.AA? && s.i == i && s.j <= i) || s == AW(i)
    ensures NoDups(RowOrder(i))
  {
    var r := RowOrder(i);
    forall s: Slot | (s.AA? && s.i == i && s.j <= i) || s == AW(i)
      ensures s in r
    {
      if s.AW? {
        assert r[i + 1] == s;
      } else if s.j == i {
        assert r[0] == s;
      } else {
        assert r[s.j + 1] == s;
      }
    }
    forall x, y | 0 <= x < y < |r|
      ensures r[x] != r[y]
    {
      if y == i + 1 {
        assert r[y].AW? && r[x].AA?;
      } else {
        assert r[x] == AA(i, if x == 0 then i else x - 1);
        assert r[y] == AA(i, y - 1);
      }
    }
  }

  lemma {:induction false} CalcRowsSlots(n: nat)
    ensures forall s :: s in CalcRows(n) <==> IsSlot(n, s) && !s.WW?
    ensures NoDups(CalcRows(n))
  {
    if n > 0 {
      CalcRowsSlots(n - 1);
      RowOrderSlots(n - 1);
      NoDupsAppend(CalcRows(n - 1), RowOrder(n - 1));
    }
  }

  /** `calculate` visits every slot exactly once. */
  lemma CalcOrderSlots(n: nat)
    ensures forall s :: s in CalcOrder(n) <==> IsSlot(n, s)
    ensures NoDups(CalcOrder(n))
  {
    CalcRowsSlots(n);
    NoDupsAppend([WW], CalcRows(n));
  }

  /** The master histogram together with its components: the pair partials
      summed with the base, the body-water partials, and the water partial,
      each cut to the first `b` bins, add up to the master cut to `b` bins. */
  lemma {:induction false} ComponentsAddUp(n: nat, bins: nat, master: Hist, base: Hist, partials: map<Slot, Hist>, b: nat)
    requires |base| == bins && b <= bins
    requires WellSized(AllSlots(n), partials, bins)
    requires master == Add(base, SumOver(AllSlots(n), partials, bins))
    ensures WellSized(AASlots(n), partials, bins) && WellSized(AWSlots(n), partials, bins) && WW in partials
    ensures Resize(master, b) ==
      Add(Add(Resize(Add(base, SumOver(AASlots(n), partials, bins)), b), Resize(SumOver(AWSlots(n), partials, bins), b)),
          Resize(partials[WW], b))
  {
    var aa := AASlots(n);
    var aw := AWSlots(n);
    SumAllSplit(n, bins, partials);
    var sAA := SumOver(aa, partials, bins);
    var sAW := SumOver(aw, partials, bins);
    var ww := partials[WW];
    AddAssoc(sAA, sAW, ww);
    AddAssoc(base, sAA, Add(sAW, ww));
    AddAssoc(Add(base, sAA), sAW, ww);
    assert master == Add(Add(Add(base, sAA), sAW), ww);
    ResizeAdd(Add(Add(base, sAA), sAW), ww, b);
    ResizeAdd(Add(base, sAA), sAW, b);
  }

  /** The slots `calculate` has visited in row `i` after the pairs with the
      first `j` lower bodies. */
  function Visited(i: nat, j: nat): seq<Slot> {
    [WW] + CalcRows(i) + [AA(i, i)] + seq(j, k requires 0 <= k => AA(i, k))
  }

  lemma VisitedSteps(i: nat, j: nat)
    requires j < i
    ensures Visited(i, j) + [AA(i, j)] == Visited(i, j + 1)
  {
  }

  lemma VisitedRow(i: nat)
    ensures [WW] + CalcRows(i) + [AA(i, i)] == Visited(i, 0)
    ensures Visited(i, i) + [AW(i)] == [WW] + CalcRows(i + 1)
  {
    assert CalcRows(i + 1) == CalcRows(i) + RowOrder(i);
  }

  /** The flags and the calculator's results of one call of `calculate`. */
  datatype Call = Call(internal: seq<bool>, external: seq<bool>, hydration: bool,
                       selfResults: map<int, Hist>, crossResults: map<int, Hist>)

  predicate Selects(c: Call, s: Slot) {
    Recomputes(s, c.internal, c.external, c.hydration)
  }

  function Result(c: Call, s: Slot): Hist {
    SlotResult(s, c.selfResults, c.crossResults)
  }

  /** The partials after combining the slots of `ks`, in order, starting from
      `m`: each slot the call selects takes the calculator's result. */
  ghost function Replay(m: map<Slot, Hist>, ks: seq<Slot>, c: Call): map<Slot, Hist> {
    if ks == [] then m
    else
      var prev := Replay(m, ks[..|ks| - 1], c);
      var k := ks[|ks| - 1];
      if Selects(c, k) then prev[k := Result(c, k)] else prev
  }

  lemma ReplayStep(m: map<Slot, Hist>, ks: seq<Slot>, k: Slot, c: Call)
    ensures Replay(m, ks + [k], c) ==
      if Selects(c, k) then Replay(m, ks, c)[k := Result(c, k)] else Replay(m, ks, c)
  {
    assert (ks + [k])[..|ks|] == ks;
  }

  /** After a replay over distinct slots, a slot holds its result if it was
      listed and selected, and its old histogram otherwise. */
  lemma {:induction false} ReplayValue(m: map<Slot, Hist>, ks: seq<Slot>, c: Call, k: Slot)
    requires NoDups(ks)
    ensures k in Replay(m, ks, c) <==> k in m || (k in ks && Selects(c, k))
    ensures k in Replay(m, ks, c) ==>
      Replay(m, ks, c)[k] == if k in ks && Selects(c, k) then Result(c, k) else m[k]
  {
    if ks != [] {
      var init := ks[..|ks| - 1];
      var last := ks[|ks| - 1];
      assert NoDups(init);
      ReplayValue(m, init, c, k);
      if k == last {
        forall a | 0 <= a < |init|
          ensures init[a] != k
        {
          assert init[a] == ks[a];
        }
      } else {
        assert k in ks <==> k in init by {
          if k in ks {
            var a :| 0 <= a < |ks| && ks[a] == k;
            assert init[a] == k;
          }
        }
      }
    }
  }

  /** `initialize` as a call: every body internally modified, nothing else,
      with the first run's self-correlations as results. */
  function InitCall(n: nat, initResults: map<int, Hist>): Call {
    Call(seq(n, _ => true), AllFalse(n), false, initResults, map[])
  }

  /** Step `i` of `initialize`'s replay. */
  lemma InitSlot(n: nat, bins: nat, i: nat, initResults: map<int, Hist>)
    requires i < n && InitProvides(n, bins, initResults)
    ensures Diagonal(n)[..i + 1] == Diagonal(n)[..i] + [AA(i, i)]
    ensures IsSlot(n, AA(i, i)) && Selects(InitCall(n, initResults), AA(i, i))
    ensures ResIndex(i, i) in initResults && |initResults[ResIndex(i, i)]| == bins
    ensures Result(InitCall(n, initResults), AA(i, i)) == initResults[ResIndex(i, i)]
  {
    assert HasResult(initResults, ResIndex(i, i), bins);
  }

  /** Combining the diagonal into zeroed partials gives the initial values. */
  lemma DiagonalReplay(n: nat, bins: nat, zero: map<Slot, Hist>, initResults: map<int, Hist>)
    requires forall s :: s in zero <==> IsSlot(n, s)
    requires forall s :: s in zero ==> zero[s] == Zeros(bins)
    ensures forall s :: s in Replay(zero, Diagonal(n), InitCall(n, initResults)) <==> IsSlot(n, s)
    ensures forall s :: s in zero ==>
      Replay(zero, Diagonal(n), InitCall(n, initResults))[s] == Initial(s, initResults, bins)
  {
    var d := Diagonal(n);
    var c := InitCall(n, initResults);
    assert NoDups(d);
    forall s: Slot
      ensures s in Replay(zero, d, c) <==> IsSlot(n, s)
      ensures s in zero ==> Replay(zero, d, c)[s] == Initial(s, initResults, bins)
    {
      ReplayValue(zero, d, c, s);
      if s.AA? && s.i == s.j && s.i < n {
        assert d[s.i] == s;
      }
    }
  }

  /** After `calculate`'s replay, a slot holds the calculator's result when
      the flags select it and its previous value otherwise. */
  lemma CalcReplay(n: nat, prior: map<Slot, Hist>, m: map<Slot, Hist>, c: Call)
    requires forall s :: s in prior <==> IsSlot(n, s)
    requires m == Replay(prior, CalcOrder(n), c)
    ensures forall s :: s in m <==> IsSlot(n, s)
    ensures forall s :: s in m ==> m[s] == if Selects(c, s) then Result(c, s) else prior[s]
  {
    CalcOrderSlots(n);
    forall s: Slot
      ensures s in m <==> IsSlot(n, s)
      ensures s in m ==> m[s] == if Selects(c, s) then Result(c, s) else prior[s]
    {
      ReplayValue(prior, CalcOrder(n), c, s);
    }
  }

  class Manager {
    const bodySize: nat
    /** The number of bins of the distance axis. */
    const bins: nat
    var master: Hist
    /** `master.base`: all zeros in this manager. */
    var base: Hist
    var partials: map<Slot, Hist>

    /** The initialized state: one histogram per slot, and master the sum of
        the base and all partials. */
    ghost predicate Ready()
      reads this
    {
      bins >= 10 && |master| == bins && base == Zeros(bins) &&
      (forall s :: s in partials <==> IsSlot(bodySize, s)) &&
      WellSized(AllSlots(bodySize), partials, bins) &&
      master == Add(base, SumOver(AllSlots(bodySize), partials, bins))
    }

    ghost predicate Valid()
      reads this
    {
      bins >= 10 && (master == [] || Ready())
    }

    constructor (bodySize: nat, bins: nat)
      requires bins >= 10
      ensures Valid() && master == []
      ensures this.bodySize == bodySize && this.bins == bins
    {
      this.bodySize := bodySize;
      this.bins := bins;
      master := [];
      base := [];
      partials := map[];
    }

    /** The four `combine_*` updates: `master -= partial; partial = result;
        master += partial`, which keeps master equal to the sum of the parts. */
    method Combine(s: Slot, result: Hist)
      requires Ready() && IsSlot(bodySize, s) && |result| == bins
      modifies this
      ensures Ready()
      ensures partials == old(partials)[s := result]
      ensures master == Add(Sub(old(master), old(partials)[s]), result)
    {
      var all := AllSlots(bodySize);
      AllSlotsNoDups(bodySize);
      SumOverUpdate(all, partials, bins, s, result);
      ShiftUpdate(base, SumOver(all, partials, bins), partials[s], result);
      master := Sub(master, partials[s]);
      partials := partials[s := result];
      master := Add(master, partials[s]);
    }

    /** The first half of `initialize`: master, base and every partial zeroed. */
    method Clear()
      requires bins >= 10
      modifies this
      ensures Ready()
      ensures forall s :: s in partials ==> partials[s] == Zeros(bins)
    {
      master := Zeros(bins);
      base := Zeros(bins);
      partials := map s | s in AllSlots(bodySize) :: Zeros(bins);
      SumOverZeros(AllSlots(bodySize), partials, bins);
      AddZeros(base);
    }

    /** `initialize`: zero master, base and partials, then combine each body's
        self-correlation from the calculator's first run. */
    method Initialize(initResults: map<int, Hist>)
      requires bins >= 10 && InitProvides(bodySize, bins, initResults)
      modifies this
      ensures Ready()
      ensures forall s :: s in partials ==> partials[s] == Initial(s, initResults, bins)
    {
      Clear();
      ghost var zero := partials;
      ghost var d := Diagonal(bodySize);
      ghost var c := InitCall(bodySize, initResults);
      for i := 0 to bodySize
        invariant Ready()
        invariant partials == Replay(zero, d[..i], c)
      {
        InitSlot(bodySize, bins, i, initResults);
        ReplayStep(zero, d[..i], AA(i, i), c);
        Combine(AA(i, i), initResults[ResIndex(i, i)]);
      }
      assert d[..bodySize] == d;
      DiagonalReplay(bodySize, bins, zero, initResults);
    }

    /** The recomputing part of `calculate`: the water partial, then row by
        row each body's self-correlation, its pairs with the lower bodies and
        its body-water partial, each combined when the rules select it. */
    method Recompute(c: Call)
      requires Ready() && |c.internal| == bodySize && |c.external| == bodySize
      requires Provides(bodySize, bins, c.internal, c.external, c.hydration, c.selfResults, c.crossResults)
      modifies this
      ensures Ready()
      ensures forall s :: s in partials ==> partials[s] == if Selects(c, s) then Result(c, s) else old(partials)[s]
    {
      ghost var prior := partials;
      ReplayStep(prior, [], WW, c);
      assert [] + [WW] == [WW];
      if c.hydration {
        assert HasResult(c.selfResults, WATER_RES_INDEX, bins) by { assert IsSlot(bodySize, WW); }
        Combine(WW, c.selfResults[WATER_RES_INDEX]);
      }
      CombineRows(c, prior);
      CalcReplay(bodySize, prior, partials, c);
    }

    /** The rows of `calculate`'s recomputation, after the water partial. */
    method CombineRows(c: Call, ghost prior: map<Slot, Hist>)
      requires Ready() && |c.internal| == bodySize && |c.external| == bodySize
      requires Provides(bodySize, bins, c.internal, c.external, c.hydration, c.selfResults, c.crossResults)
      requires partials == Replay(prior, [WW], c)
      modifies this
      ensures Ready()
      ensures partials == Replay(prior, CalcOrder(bodySize), c)
    {
      assert [WW] + CalcRows(0) == [WW];
      for i := 0 to bodySize
        invariant Ready()
        invariant partials == Replay(prior, [WW] + CalcRows(i), c)
      {
        CombineRow(i, c, prior);
      }
    }

    /** One row of `calculate`'s recomputation. */
    method CombineRow(i: nat, c: Call, ghost prior: map<Slot, Hist>)
      requires Ready() && i < bodySize && |c.internal| == bodySize && |c.external| == bodySize
      requires Provides(bodySize, bins, c.internal, c.external, c.hydration, c.selfResults, c.crossResults)
      requires partials == Replay(prior, [WW] + CalcRows(i), c)
      modifies this
      ensures Ready()
      ensures partials == Replay(prior, [WW] + CalcRows(i + 1), c)
    {
      VisitedRow(i);
      ReplayStep(prior, [WW] + CalcRows(i), AA(i, i), c);
      if c.internal[i] {
        assert HasResult(c.selfResults, ResIndex(i, i), bins) by { assert IsSlot(bodySize, AA(i, i)); }
        Combine(AA(i, i), c.selfResults[ResIndex(i, i)]);
      }
      CombinePairs(i, c, prior);
      ReplayStep(prior, Visited(i, i), AW(i), c);
      if c.external[i] || c.hydration {
        assert HasResult(c.crossResults, ResIndexWater(i), bins) by { assert IsSlot(bodySize, AW(i)); }
        Combine(AW(i), c.crossResults[ResIndexWater(i)]);
      }
    }

    /** The pairs of body `i` with the lower bodies, in `calculate`'s order. */
    method CombinePairs(i: nat, c: Call, ghost prior: map<Slot, Hist>)
      requires Ready() && i < bodySize && |c.internal| == bodySize && |c.external| == bodySize
      requires Provides(bodySize, bins, c.internal, c.external, c.hydration, c.selfResults, c.crossResults)
      requires partials == Replay(prior, Visited(i, 0), c)
      modifies this
      ensures Ready()
      ensures partials == Replay(prior, Visited(i, i), c)
    {
      for j := 0 to i
        invariant Ready()
        invariant partials == Replay(prior, Visited(i, j), c)
      {
        VisitedSteps(i, j);
        ReplayStep(prior, Visited(i, j), AA(i, j), c);
        if c.external[i] || c.external[j] {
          assert HasResult(c.crossResults, ResIndex(i, j), bins) by { assert IsSlot(bodySize, AA(i, j)); }
          Combine(AA(i, j), c.crossResults[ResIndex(i, j)]);
        }
      }
    }

    /** `calculate`: initializes on the first call (and then treats no body as
        internally modified), recomputes the partials the flags select in the
        order water, then row by row, resets the flags and returns the
        truncated master. */
    method Calculate(sm: StateManager, initResults: map<int, Hist>, selfResults: map<int, Hist>, crossResults: map<int, Hist>)
      returns (total: Hist)
      requires Valid()
      requires |sm.internallyModified| == bodySize && |sm.externallyModified| == bodySize
      requires master == [] ==> InitProvides(bodySize, bins, initResults)
      requires Provides(bodySize, bins, if master == [] then AllFalse(bodySize) else sm.internallyModified,
                        sm.externallyModified, sm.hydrationModified, selfResults, crossResults)
      modifies this, sm
      ensures Ready()
      ensures old(master) == [] ==> forall s :: s in partials ==>
        partials[s] == if Recomputes(s, AllFalse(bodySize), old(sm.externallyModified), old(sm.hydrationModified))
                       then SlotResult(s, selfResults, crossResults) else Initial(s, initResults, bins)
      ensures old(master) != [] ==> forall s :: s in partials ==>
        partials[s] == if Recomputes(s, old(sm.internallyModified), old(sm.externallyModified), old(sm.hydrationModified))
                       then SlotResult(s, selfResults, crossResults) else old(partials)[s]
      ensures total == Truncated(master)
      ensures |sm.internallyModified| == bodySize && |sm.externallyModified| == bodySize
      ensures forall i :: 0 <= i < bodySize ==> !sm.internallyModified[i] && !sm.externallyModified[i]
      ensures !sm.hydrationModified
    {
      var internal := sm.internallyModified;
      var external := sm.externallyModified;
      var hydration := sm.hydrationModified;
      if master == [] {
        Initialize(initResults);
        internal := AllFalse(bodySize);
      }
      Recompute(Call(internal, external, hydration, selfResults, crossResults));
      sm.ResetToFalse();
      var maxBin := TruncationBin(NonZero(master));
      total := Resize(master, maxBin);
    }

    /** The pair component of `calculate_all`: the base plus every pair
        partial, row by row, cut to `b` bins. */
    method SumPairs(b: nat) returns (pAA: Hist)
      requires |base| == bins && b <= bins
      requires forall s :: IsSlot(bodySize, s) ==> s in partials && |partials[s]| == bins
      ensures WellSized(AASlots(bodySize), partials, bins)
      ensures pAA == Resize(Add(base, SumOver(AASlots(bodySize), partials, bins)), b)
    {
      pAA := Resize(base, b);
      for i := 0 to bodySize
        invariant WellSized(AASlots(i), partials, bins)
        invariant pAA == Resize(Add(base, SumOver(AASlots(i), partials, bins)), b)
      {
        pAA := SumRow(i, b, pAA);
      }
    }

    /** Row `i` of the pair sum: the pairs of body `i` with itself and the
        lower bodies added to the sum of the rows below. */
    method SumRow(i: nat, b: nat, acc: Hist) returns (pAA: Hist)
      requires |base| == bins && b <= bins && i < bodySize
      requires forall s :: IsSlot(bodySize, s) ==> s in partials && |partials[s]| == bins
      requires WellSized(AASlots(i), partials, bins)
      requires acc == Resize(Add(base, SumOver(AASlots(i), partials, bins)), b)
      ensures WellSized(AASlots(i + 1), partials, bins)
      ensures pAA == Resize(Add(base, SumOver(AASlots(i + 1), partials, bins)), b)
    {
      RowBounds(bodySize, i, partials, bins);
      pAA := acc;
      for j := 0 to i + 1
        invariant WellSized(AASlots(i) + Row(i)[..j], partials, bins)
        invariant pAA == Resize(Add(base, SumOver(AASlots(i) + Row(i)[..j], partials, bins)), b)
      {
        PairStep(bodySize, i, j, partials, bins, base, b);
        pAA := Add(pAA, Resize(partials[AA(i, j)], b));
      }
    }

    /** The body-water component of `calculate_all`, cut to `b` bins. */
    method SumBodyWater(b: nat) returns (pAW: Hist)
      requires Ready() && b <= bins
      ensures pAW == Resize(SumOver(AWSlots(bodySize), partials, bins), b)
    {
      ghost var all := AllSlots(bodySize);
      assert forall s :: s in AWSlots(bodySize) ==> s in all;
      pAW := Zeros(b);
      for i := 0 to bodySize
        invariant pAW == Resize(SumOver(AWSlots(i), partials, bins), b)
      {
        assert AWSlots(i + 1)[..i] == AWSlots(i);
        assert forall s :: s in AWSlots(i + 1) ==> s in all;
        ResizeAdd(SumOver(AWSlots(i), partials, bins), partials[AW(i)], b);
        pAW := Add(pAW, Resize(partials[AW(i)], b));
      }
    }

    /** `calculate_all`: runs `calculate`, then splits the total into the
        pair, body-water and water components, each cut to the total's
        length; the components add up to the total. */
    method CalculateAll(sm: StateManager, initResults: map<int, Hist>, selfResults: map<int, Hist>, crossResults: map<int, Hist>)
      returns (pAA: Hist, pAW: Hist, pWW: Hist, pTot: Hist)
      requires Valid()
      requires |sm.internallyModified| == bodySize && |sm.externallyModified| == bodySize
      requires master == [] ==> InitProvides(bodySize, bins, initResults)
      requires Provides(bodySize, bins, if master == [] then AllFalse(bodySize) else sm.internallyModified,
                        sm.externallyModified, sm.hydrationModified, selfResults, crossResults)
      modifies this, sm
      ensures Ready()
      ensures pTot == Truncated(master)
      ensures pAA == Resize(Add(base, SumOver(AASlots(bodySize), partials, bins)), |pTot|)
      ensures pAW == Resize(SumOver(AWSlots(bodySize), partials, bins), |pTot|)
      ensures pWW == Resize(partials[WW], |pTot|)
      ensures pTot == Add(Add(pAA, pAW), pWW)
    {
      var total := Calculate(sm, initResults, selfResults, crossResults);
      var b := |total|;
      var m := master;
      pTot := seq(b, i requires 0 <= i < b => m[i]);
      assert pTot == total;
      assert IsSlot(bodySize, WW);
      pWW := Resize(partials[WW], b);
      SlotsSized(bodySize, partials, bins);
      pAA := SumPairs(b);
      pAW := SumBodyWater(b);
      ComponentsAddUp(bodySize, bins, master, base, partials, b);
    }
  }
}
