/** The single-threaded partial-histogram manager. It fills the partial
    distance histograms itself: each body's self-correlation, each pair of
    bodies, each body against the hydration layer and the hydration layer
    itself. `master` is the sum of every partial and `master.base` the sum of
    the self-correlations. Atom coordinates enter only through the distance
    bin of each pair of atoms, given as a table; the weights are the atoms'
    effective charge times occupancy. */
module PartialHistogramManager {
  import opened Histograms
  import opened State
  import opened Slots

  /** The sum of the first `j` weights. */
  function SumTo(w: seq<real>, j: nat): real
    requires j <= |w|
  {
    if j == 0 then 0.0 else SumTo(w, j - 1) + w[j - 1]
  }

  /** The sum of the first `j` squared weights. */
  function SumSqTo(w: seq<real>, j: nat): real
    requires j <= |w|
  {
    if j == 0 then 0.0 else SumSqTo(w, j - 1) + w[j - 1] * w[j - 1]
  }

  /** The total weight. */
  function Sum(w: seq<real>): real {
    SumTo(w, |w|)
  }

  /** The weight of every ordered pair of atoms of one set, the pairs of an
      atom with itself included: the square of the total weight. */
  function Square(w: seq<real>): real {
    Sum(w) * Sum(w)
  }

  /** The weight of every pair of an atom of one set with an atom of the
      other, counted in both orders. */
  function Cross(w: seq<real>, v: seq<real>): real {
    2.0 * Sum(w) * Sum(v)
  }

  /** The weight row `i` of the pair loop deposits up to column `j`: twice
      the product of atom `i` with each atom from `i + 1` to `j - 1`. */
  function RowPart(w: seq<real>, i: nat, j: nat): real
    requires i < j <= |w|
  {
    if j == i + 1 then 0.0 else RowPart(w, i, j - 1) + 2.0 * w[i] * w[j - 1]
  }

  /** The weight the rows below `i` deposit when they stop at column `n`. */
  function Pairs(w: seq<real>, i: nat, n: nat): real
    requires i <= n <= |w|
  {
    if i == 0 then 0.0 else Pairs(w, i - 1, n) + RowPart(w, i - 1, n)
  }

  /** One more column adds the pairs of atom `n` with the atoms in the rows. */
  lemma {:induction false} PairsLast(w: seq<real>, i: nat, n: nat)
    requires i <= n < |w|
    ensures Pairs(w, i, n + 1) == Pairs(w, i, n) + 2.0 * w[n] * SumTo(w, i)
  {
    if i > 0 {
      var a := i - 1;
      PairsLast(w, a, n);
      PairsLastStep(Pairs(w, a, n), RowPart(w, a, n), w[n], SumTo(w, a), w[a]);
    }
  }

  lemma PairsLastStep(p: real, r: real, x: real, s: real, y: real)
    ensures (p + 2.0 * x * s) + (r + 2.0 * y * x) == (p + r) + 2.0 * x * (s + y)
  {
  }

  /** Every ordered pair among the first `n` atoms, the pairs of an atom with
      itself included, is counted once: twice each unordered pair plus each
      atom's square. */
  lemma {:induction false} SquareOfSum(w: seq<real>, n: nat)
    requires n <= |w|
    ensures Pairs(w, n, n) + SumSqTo(w, n) == SumTo(w, n) * SumTo(w, n)
  {
    if n > 0 {
      var a := n - 1;
      SquareOfSum(w, a);
      PairsLast(w, a, a);
      SquareStep(SumTo(w, a), w[a], Pairs(w, a, a), SumSqTo(w, a));
    }
  }

  /** The pair loop and the self terms of a set together hold the square of
      its total weight. */
  lemma SelfMass(w: seq<real>, m: real)
    requires m == Pairs(w, |w|, |w|) + SumSqTo(w, |w|)
    ensures m == Square(w)
  {
    SquareOfSum(w, |w|);
  }

  /** The algebra of one more atom in the square of the total weight. */
  lemma SquareStep(t: real, x: real, p: real, q: real)
    requires p + q == t * t
    ensures (p + 2.0 * x * t) + (q + x * x) == (t + x) * (t + x)
  {
    assert (t + x) * (t + x) == t * t + 2.0 * x * t + x * x;
  }

  /** The distance bins of an `n` by `m` table of atom pairs all lie on the axis. */
  predicate BinsFit(bin: seq<seq<nat>>, n: nat, m: nat, bins: nat) {
    |bin| == n && forall i :: 0 <= i < n ==> |bin[i]| == m && forall j :: 0 <= j < m ==> bin[i][j] < bins
  }

  /** What one row of a pair loop puts into bin `k`: twice the product of
      the row atom's weight `x` with each weight `lo` … `j - 1` of `v` whose
      distance from the row atom, `row`, falls in bin `k`. */
  function RowBin(x: real, v: seq<real>, row: seq<nat>, k: nat, lo: nat, j: nat): real
    requires lo <= j <= |v| && |row| == |v|
    decreases j - lo
  {
    if j == lo then 0.0
    else RowBin(x, v, row, k, lo, j - 1) + (if row[j - 1] == k then 2.0 * x * v[j - 1] else 0.0)
  }

  /** `p` is `p0` with columns `lo` … `j - 1` of a row deposited, each into
      the bin of its distance. */
  predicate RowDeposited(p: Hist, p0: Hist, x: real, v: seq<real>, row: seq<nat>, lo: nat, j: nat)
    requires lo <= j <= |v| && |row| == |v|
  {
    |p| == |p0| && forall k :: 0 <= k < |p| ==> p[k] == p0[k] + RowBin(x, v, row, k, lo, j)
  }

  /** One more column of a row: its weight goes into the bin of its
      distance and nowhere else. */
  lemma RowBinStep(x: real, v: seq<real>, row: seq<nat>, lo: nat, j: nat, p0: Hist, p: Hist)
    requires lo <= j < |v| && |row| == |v| && row[j] < |p|
    requires RowDeposited(p, p0, x, v, row, lo, j)
    ensures RowDeposited(p[row[j] := p[row[j]] + 2.0 * x * v[j]], p0, x, v, row, lo, j + 1)
  {
  }

  /** The weight one row of a pair loop deposits: twice the product of the
      row atom's weight `x` with each weight `lo` … `j - 1` of `v`. */
  function RowWeight(x: real, v: seq<real>, lo: nat, j: nat): real
    requires lo <= j <= |v|
    decreases j - lo
  {
    if j == lo then 0.0 else RowWeight(x, v, lo, j - 1) + 2.0 * x * v[j - 1]
  }

  /** The inner loop of every pair loop: the row atom against the atoms
      `lo` … `|v| - 1` of `v`, each weight into the bin of its distance. */
  method DepositAlong(x: real, v: seq<real>, row: seq<nat>, lo: nat, p0: Hist) returns (p: Hist)
    requires lo <= |v| && |row| == |v| && forall j :: lo <= j < |v| ==> row[j] < |p0|
    ensures RowDeposited(p, p0, x, v, row, lo, |v|)
    ensures Mass(p) == Mass(p0) + RowWeight(x, v, lo, |v|)
  {
    p := p0;
    for j := lo to |v|
      invariant RowDeposited(p, p0, x, v, row, lo, j)
      invariant Mass(p) == Mass(p0) + RowWeight(x, v, lo, j)
    {
      MassDeposit(p, row[j], 2.0 * x * v[j]);
      RowBinStep(x, v, row, lo, j, p0, p);
      p := p[row[j] := p[row[j]] + 2.0 * x * v[j]];
    }
  }

  /** What the rows below `i` of the pair loop of one set put into bin `k`:
      every unordered pair of atoms of those rows once. */
  function PairBin(w: seq<real>, bin: seq<seq<nat>>, bins: nat, k: nat, i: nat): real
    requires i <= |w| && BinsFit(bin, |w|, |w|, bins)
  {
    if i == 0 then 0.0 else PairBin(w, bin, bins, k, i - 1) + RowBin(w[i - 1], w, bin[i - 1], k, i, |w|)
  }

  /** What the rows below `i` of the cross loop put into bin `k`: every atom
      of those rows against every atom of the other set. */
  function CrossBin(w: seq<real>, v: seq<real>, bin: seq<seq<nat>>, bins: nat, k: nat, i: nat): real
    requires i <= |w| && BinsFit(bin, |w|, |v|, bins)
  {
    if i == 0 then 0.0 else CrossBin(w, v, bin, bins, k, i - 1) + RowBin(w[i - 1], v, bin[i - 1], k, 0, |v|)
  }

  /** What the rows below `i` of the pair loop of one set put into each bin. */
  function PairsHist(w: seq<real>, bin: seq<seq<nat>>, bins: nat, i: nat): (h: Hist)
    requires i <= |w| && BinsFit(bin, |w|, |w|, bins)
    ensures |h| == bins && forall k :: 0 <= k < bins ==> h[k] == PairBin(w, bin, bins, k, i)
  {
    seq(bins, k requires 0 <= k < bins => PairBin(w, bin, bins, k, i))
  }

  /** What the rows below `i` of the cross loop put into each bin. */
  function CrossesHist(w: seq<real>, v: seq<real>, bin: seq<seq<nat>>, bins: nat, i: nat): (h: Hist)
    requires i <= |w| && BinsFit(bin, |w|, |v|, bins)
    ensures |h| == bins && forall k :: 0 <= k < bins ==> h[k] == CrossBin(w, v, bin, bins, k, i)
  {
    seq(bins, k requires 0 <= k < bins => CrossBin(w, v, bin, bins, k, i))
  }

  /** One more row of the pair loop of one set. */
  lemma PairsHistStep(w: seq<real>, bin: seq<seq<nat>>, bins: nat, i: nat, p0: Hist, p: Hist)
    requires i < |w| && BinsFit(bin, |w|, |w|, bins) && p0 == PairsHist(w, bin, bins, i)
    requires RowDeposited(p, p0, w[i], w, bin[i], i + 1, |w|)
    ensures p == PairsHist(w, bin, bins, i + 1)
  {
  }

  /** One more row of the cross loop. */
  lemma CrossesHistStep(w: seq<real>, v: seq<real>, bin: seq<seq<nat>>, bins: nat, i: nat, p0: Hist, p: Hist)
    requires i < |w| && BinsFit(bin, |w|, |v|, bins) && p0 == CrossesHist(w, v, bin, bins, i)
    requires RowDeposited(p, p0, w[i], v, bin[i], 0, |v|)
    ensures p == CrossesHist(w, v, bin, bins, i + 1)
  {
  }

  /** The pair loop followed by the self terms in bin 0 is the
      self-correlation. */
  lemma SelfHistOfPairs(w: seq<real>, bin: seq<seq<nat>>, bins: nat, p: Hist)
    requires bins >= 1 && BinsFit(bin, |w|, |w|, bins)
    requires p == PairsHist(w, bin, bins, |w|)[0 := PairsHist(w, bin, bins, |w|)[0] + SumSqTo(w, |w|)]
    ensures p == SelfHist(w, bin, bins)
  {
  }

  /** The self-correlation of a set of atoms, bin by bin: twice the weight
      product of every unordered pair whose distance falls in the bin, and in
      bin 0 also every atom's squared weight. */
  function SelfHist(w: seq<real>, bin: seq<seq<nat>>, bins: nat): (h: Hist)
    requires BinsFit(bin, |w|, |w|, bins)
    ensures |h| == bins
  {
    seq(bins, k requires 0 <= k < bins => PairBin(w, bin, bins, k, |w|) + (if k == 0 then SumSqTo(w, |w|) else 0.0))
  }

  /** The cross-correlation of two sets of atoms, bin by bin: twice the
      weight product of every atom of `w` with every atom of `v` whose
      distance falls in the bin. */
  function CrossHist(w: seq<real>, v: seq<real>, bin: seq<seq<nat>>, bins: nat): (h: Hist)
    requires BinsFit(bin, |w|, |v|, bins)
    ensures |h| == bins && forall k :: 0 <= k < bins ==> h[k] == CrossBin(w, v, bin, bins, k, |w|)
  {
    CrossesHist(w, v, bin, bins, |w|)
  }

  /** One row of the pair loop: atom `i` against every later atom. */
  method DepositRow(w: seq<real>, bin: seq<seq<nat>>, bins: nat, i: nat, p0: Hist) returns (p: Hist)
    requires i < |w| && BinsFit(bin, |w|, |w|, bins) && |p0| == bins
    ensures |p| == bins && Mass(p) == Mass(p0) + RowPart(w, i, |w|)
    ensures RowDeposited(p, p0, w[i], w, bin[i], i + 1, |w|)
  {
    p := DepositAlong(w[i], w, bin[i], i + 1, p0);
    RowPartWeight(w, i, |w|);
  }

  /** A row of the pair loop of one set is a row of a pair loop. */
  lemma {:induction false} RowPartWeight(w: seq<real>, i: nat, j: nat)
    requires i < j <= |w|
    ensures RowPart(w, i, j) == RowWeight(w[i], w, i + 1, j)
  {
    if j > i + 1 {
      RowPartWeight(w, i, j - 1);
    }
  }

  /** `calc_self_correlation`: twice the weight product of every unordered
      pair of atoms into the pair's distance bin, then each atom's squared
      weight into bin 0. The total deposited is the square of the total weight. */
  method SelfCorrelation(w: seq<real>, bin: seq<seq<nat>>, bins: nat) returns (p: Hist)
    requires bins >= 1 && BinsFit(bin, |w|, |w|, bins)
    ensures p == SelfHist(w, bin, bins)
    ensures Mass(p) == Square(w)
  {
    p := Zeros(bins);
    MassZeros(bins);
    for i := 0 to |w|
      invariant |p| == bins
      invariant Mass(p) == Pairs(w, i, |w|)
      invariant p == PairsHist(w, bin, bins, i)
    {
      ghost var p0 := p;
      p := DepositRow(w, bin, bins, i, p);
      PairsHistStep(w, bin, bins, i, p0, p);
    }
    p := AddSquares(w, bins, p);
    SelfHistOfPairs(w, bin, bins, p);
    SelfMass(w, Mass(p));
  }

  /** The self terms: each atom's squared weight into bin 0. */
  method AddSquares(w: seq<real>, bins: nat, p0: Hist) returns (p: Hist)
    requires bins >= 1 && |p0| == bins
    ensures p == p0[0 := p0[0] + SumSqTo(w, |w|)]
    ensures Mass(p) == Mass(p0) + SumSqTo(w, |w|)
  {
    p := p0;
    for i := 0 to |w|
      invariant p == p0[0 := p0[0] + SumSqTo(w, i)]
      invariant Mass(p) == Mass(p0) + SumSqTo(w, i)
    {
      assert p0[0] + SumSqTo(w, i + 1) == p[0] + w[i] * w[i];
      MassDeposit(p, 0, w[i] * w[i]);
      p := p[0 := p[0] + w[i] * w[i]];
    }
  }

  /** `calc_hh`: the self-correlation of the hydration layer. Its outer loop
      runs to four times the number of waters; the rows past the last water
      are empty, so the result is the same as for a body. */
  method HydrationCorrelation(w: seq<real>, bin: seq<seq<nat>>, bins: nat) returns (p: Hist)
    requires bins >= 1 && BinsFit(bin, |w|, |w|, bins)
    ensures p == SelfHist(w, bin, bins)
    ensures Mass(p) == Square(w)
  {
    p := Zeros(bins);
    MassZeros(bins);
    var i := 0;
    while i < 4 * |w|
      invariant i <= 4 * |w|
      invariant |p| == bins
      invariant Mass(p) == Pairs(w, if i < |w| then i else |w|, |w|)
      invariant p == PairsHist(w, bin, bins, if i < |w| then i else |w|)
    {
      if i < |w| {
        ghost var p0 := p;
        p := DepositRow(w, bin, bins, i, p);
        PairsHistStep(w, bin, bins, i, p0, p);
      }
      i := i + 1;
    }
    p := AddSquares(w, bins, p);
    SelfHistOfPairs(w, bin, bins, p);
    SelfMass(w, Mass(p));
  }

  /** The weight row `i` of the cross loop deposits up to column `j`. */
  function CrossPart(w: seq<real>, v: seq<real>, i: nat, j: nat): real
    requires i < |w| && j <= |v|
  {
    if j == 0 then 0.0 else CrossPart(w, v, i, j - 1) + 2.0 * w[i] * v[j - 1]
  }

  /** The weight the rows below `i` of the cross loop deposit. */
  function Crosses(w: seq<real>, v: seq<real>, i: nat): real
    requires i <= |w|
  {
    if i == 0 then 0.0 else Crosses(w, v, i - 1) + CrossPart(w, v, i - 1, |v|)
  }

  lemma {:induction false} CrossPartClosed(w: seq<real>, v: seq<real>, i: nat, j: nat)
    requires i < |w| && j <= |v|
    ensures CrossPart(w, v, i, j) == 2.0 * w[i] * SumTo(v, j)
  {
    if j > 0 {
      CrossPartClosed(w, v, i, j - 1);
      ProductStep(w[i], SumTo(v, j - 1), v[j - 1], CrossPart(w, v, i, j - 1));
    }
  }

  /** Every atom of one set meets every atom of the other once. */
  lemma {:induction false} CrossesClosed(w: seq<real>, v: seq<real>, i: nat)
    requires i <= |w|
    ensures Crosses(w, v, i) == 2.0 * SumTo(w, i) * Sum(v)
  {
    if i > 0 {
      CrossesClosed(w, v, i - 1);
      CrossPartClosed(w, v, i - 1, |v|);
      CrossesStep(Sum(v), SumTo(w, i - 1), w[i - 1], Crosses(w, v, i - 1));
    }
  }

  /** The cross loop holds twice the product of the two total weights. */
  lemma CrossMass(w: seq<real>, v: seq<real>, m: real)
    requires m == Crosses(w, v, |w|)
    ensures m == Cross(w, v)
  {
    CrossesClosed(w, v, |w|);
  }

  /** The algebra of one more term in a product with a running sum. */
  lemma ProductStep(k: real, s: real, x: real, c: real)
    requires c == 2.0 * k * s
    ensures c + 2.0 * k * x == 2.0 * k * (s + x)
  {
  }

  lemma CrossesStep(t: real, s: real, x: real, c: real)
    requires c == 2.0 * s * t
    ensures c + 2.0 * x * t == 2.0 * (s + x) * t
  {
  }

  /** `calc_pp` and `calc_hp`: twice the weight product of every atom of one
      set against every atom of the other. The total deposited is twice the
      product of the total weights. */
  method CrossCorrelation(w: seq<real>, v: seq<real>, bin: seq<seq<nat>>, bins: nat) returns (p: Hist)
    requires BinsFit(bin, |w|, |v|, bins)
    ensures p == CrossHist(w, v, bin, bins)
    ensures Mass(p) == Cross(w, v)
  {
    p := Zeros(bins);
    MassZeros(bins);
    for i := 0 to |w|
      invariant |p| == bins
      invariant Mass(p) == Crosses(w, v, i)
      invariant p == CrossesHist(w, v, bin, bins, i)
    {
      ghost var p0 := p;
      p := CrossRow(w, v, bin, bins, i, p);
      CrossesHistStep(w, v, bin, bins, i, p0, p);
    }
    CrossMass(w, v, Mass(p));
  }

  /** One row of the cross loop: atom `i` against every atom of the other set. */
  method CrossRow(w: seq<real>, v: seq<real>, bin: seq<seq<nat>>, bins: nat, i: nat, p0: Hist) returns (p: Hist)
    requires i < |w| && BinsFit(bin, |w|, |v|, bins) && |p0| == bins
    ensures |p| == bins && Mass(p) == Mass(p0) + CrossPart(w, v, i, |v|)
    ensures RowDeposited(p, p0, w[i], v, bin[i], 0, |v|)
  {
    p := DepositAlong(w[i], v, bin[i], 0, p0);
    CrossPartWeight(w, v, i, |v|);
  }

  /** A row of the cross loop is a row of a pair loop. */
  lemma {:induction false} CrossPartWeight(w: seq<real>, v: seq<real>, i: nat, j: nat)
    requires i < |w| && j <= |v|
    ensures CrossPart(w, v, i, j) == RowWeight(w[i], v, 0, j)
  {
    if j > 0 {
      CrossPartWeight(w, v, i, j - 1);
    }
  }

  /** The prefix sums of a concatenation: first those of `a`, then `Sum(a)`
      plus those of `v`. */
  lemma {:induction false} SumToConcat(a: seq<real>, v: seq<real>, k: nat)
    requires k <= |a| + |v|
    ensures SumTo(a + v, k) == if k <= |a| then SumTo(a, k) else Sum(a) + SumTo(v, k - |a|)
  {
    if k > 0 {
      SumToConcat(a, v, k - 1);
    }
  }

  /** The square of the total weight of two sets of atoms splits into the
      square of each and their cross term. */
  lemma SquareConcat(a: seq<real>, v: seq<real>)
    ensures Square(a + v) == Square(a) + Square(v) + Cross(v, a)
  {
    SumToConcat(a, v, |a| + |v|);
    SquareSplit(Sum(a), Sum(v));
  }

  lemma SquareSplit(x: real, y: real)
    ensures (x + y) * (x + y) == x * x + y * y + 2.0 * y * x
  {
  }

  /** Row `i` of the water loop of `calculate_slow`: water `i` against each
      later water, then against every atom. */
  method WaterRow(atoms: seq<real>, waters: seq<real>, tHH: seq<seq<nat>>, tHP: seq<seq<nat>>, bins: nat, i: nat, hh0: Hist, hp0: Hist)
    returns (pHH: Hist, pHP: Hist)
    requires i < |waters| && BinsFit(tHH, |waters|, |waters|, bins) && BinsFit(tHP, |waters|, |atoms|, bins)
    requires hh0 == PairsHist(waters, tHH, bins, i) && hp0 == CrossesHist(waters, atoms, tHP, bins, i)
    ensures pHH == PairsHist(waters, tHH, bins, i + 1) && pHP == CrossesHist(waters, atoms, tHP, bins, i + 1)
    ensures Mass(pHH) == Mass(hh0) + RowPart(waters, i, |waters|) && Mass(pHP) == Mass(hp0) + CrossPart(waters, atoms, i, |atoms|)
  {
    pHH := DepositRow(waters, tHH, bins, i, hh0);
    PairsHistStep(waters, tHH, bins, i, hh0, pHH);
    pHP := CrossRow(waters, atoms, tHP, bins, i, hp0);
    CrossesHistStep(waters, atoms, tHP, bins, i, hp0, pHP);
  }

  /** The water loop of `calculate_slow`: for each water its pairs with the
      later waters, then its pairs with every atom. */
  method WaterPairs(atoms: seq<real>, waters: seq<real>, tHH: seq<seq<nat>>, tHP: seq<seq<nat>>, bins: nat)
    returns (pHH: Hist, pHP: Hist)
    requires BinsFit(tHH, |waters|, |waters|, bins) && BinsFit(tHP, |waters|, |atoms|, bins)
    ensures pHH == PairsHist(waters, tHH, bins, |waters|) && pHP == CrossesHist(waters, atoms, tHP, bins, |waters|)
    ensures Mass(pHH) == Pairs(waters, |waters|, |waters|) && Mass(pHP) == Crosses(waters, atoms, |waters|)
  {
    pHH := Zeros(bins);
    pHP := Zeros(bins);
    MassZeros(bins);
    for i := 0 to |waters|
      invariant Mass(pHH) == Pairs(waters, i, |waters|) && Mass(pHP) == Crosses(waters, atoms, i)
      invariant pHH == PairsHist(waters, tHH, bins, i) && pHP == CrossesHist(waters, atoms, tHP, bins, i)
    {
      pHH, pHP := WaterRow(atoms, waters, tHH, tHP, bins, i, pHH, pHP);
    }
  }

  /** The waters of `calculate_slow`: the water loop, then the water self
      terms into bin 0. */
  method SlowWaters(atoms: seq<real>, waters: seq<real>, tHH: seq<seq<nat>>, tHP: seq<seq<nat>>, bins: nat)
    returns (pHH: Hist, pHP: Hist)
    requires bins >= 1 && BinsFit(tHH, |waters|, |waters|, bins) && BinsFit(tHP, |waters|, |atoms|, bins)
    ensures pHH == SelfHist(waters, tHH, bins) && pHP == CrossHist(waters, atoms, tHP, bins)
    ensures Mass(pHH) == Square(waters) && Mass(pHP) == Cross(waters, atoms)
  {
    pHH, pHP := WaterPairs(atoms, waters, tHH, tHP, bins);
    pHH := AddSquares(waters, bins, pHH);
    SelfHistOfPairs(waters, tHH, bins, pHH);
    SelfMass(waters, Mass(pHH));
    CrossMass(waters, atoms, Mass(pHP));
  }

  /** The cut of `calculate_slow`: all three histograms resized to the last
      bin from 10 on where any of them is non-zero (10 when there is none).
      Only zero bins are cut off, so each keeps its total weight. */
  method ShortenAxes(pp: Hist, hh: Hist, hp: Hist) returns (pPP: Hist, pHH: Hist, pHP: Hist)
    requires |pp| == |hh| == |hp|
    ensures |pPP| == |pHH| == |pHP| == MaxBin(NonZeroAny(pp, hh, hp))
    ensures pPP == Resize(pp, |pPP|) && pHH == Resize(hh, |pPP|) && pHP == Resize(hp, |pPP|)
    ensures |pPP| > 10 ==> pPP[|pPP| - 1] != 0.0 || pHH[|pPP| - 1] != 0.0 || pHP[|pPP| - 1] != 0.0
    ensures Mass(pPP) == Mass(pp) && Mass(pHH) == Mass(hh) && Mass(pHP) == Mass(hp)
  {
    var nz := NonZeroAny(pp, hh, hp);
    var maxBin := TruncationBin(nz);
    CutKeepsMass(pp, nz);
    CutKeepsMass(hh, nz);
    CutKeepsMass(hp, nz);
    pPP, pHH, pHP := Resize(pp, maxBin), Resize(hh, maxBin), Resize(hp, maxBin);
  }

  /** A histogram that is zero wherever `nz` is unset loses no weight when
      it is cut at `MaxBin(nz)`. */
  lemma CutKeepsMass(h: Hist, nz: seq<bool>)
    requires |nz| == |h| && forall i :: 0 <= i < |h| && h[i] != 0.0 ==> nz[i]
    ensures Mass(Resize(h, MaxBin(nz))) == Mass(h)
  {
    MassResize(h, MaxBin(nz));
  }

  /** The `p_tot` loop of `calculate_slow`. */
  method SumComponents(pPP: Hist, pHH: Hist, pHP: Hist) returns (pTot: Hist)
    requires |pPP| == |pHH| == |pHP|
    ensures pTot == Add(Add(pPP, pHH), pHP)
  {
    pTot := Zeros(|pPP|);
    for i := 0 to |pPP|
      invariant |pTot| == |pPP|
      invariant forall k :: 0 <= k < i ==> pTot[k] == pPP[k] + pHH[k] + pHP[k]
    {
      pTot := pTot[i := pPP[i] + pHH[i] + pHP[i]];
    }
  }

  /** The three components of the structure add up to the square of the
      total weight of atoms and waters together. */
  lemma TotalMass(pPP: Hist, pHH: Hist, pHP: Hist, atoms: seq<real>, waters: seq<real>)
    requires |pPP| == |pHH| == |pHP|
    requires Mass(pPP) == Square(atoms) && Mass(pHH) == Square(waters) && Mass(pHP) == Cross(waters, atoms)
    ensures Mass(Add(Add(pPP, pHH), pHP)) == Square(atoms + waters)
  {
    MassAdd(pPP, pHH);
    MassAdd(Add(pPP, pHH), pHP);
    SquareConcat(atoms, waters);
  }

  /** `calculate_slow`: every distance of the structure from scratch on an
      axis of `bins` bins, the atom pairs (with the atom self terms), the
      water pairs and the water-atom pairs; then all three are cut to the
      last bin from 10 on where any of them is non-zero (10 when there is
      none) and the total is their sum. Only zero bins are cut off, so each
      component keeps its total weight, and the total carries the square of
      the total weight of atoms and waters together. */
  method CalculateSlow(atoms: seq<real>, waters: seq<real>, tPP: seq<seq<nat>>, tHH: seq<seq<nat>>, tHP: seq<seq<nat>>, bins: nat)
    returns (pPP: Hist, pHH: Hist, pHP: Hist, pTot: Hist)
    requires bins >= 1
    requires BinsFit(tPP, |atoms|, |atoms|, bins) && BinsFit(tHH, |waters|, |waters|, bins)
    requires BinsFit(tHP, |waters|, |atoms|, bins)
    ensures |pPP| == |pTot| && |pHH| == |pTot| && |pHP| == |pTot| && |pTot| >= 10
    ensures pPP == Resize(SelfHist(atoms, tPP, bins), |pTot|) && pHH == Resize(SelfHist(waters, tHH, bins), |pTot|)
    ensures pHP == Resize(CrossHist(waters, atoms, tHP, bins), |pTot|)
    ensures |pTot| == MaxBin(NonZeroAny(SelfHist(atoms, tPP, bins), SelfHist(waters, tHH, bins), CrossHist(waters, atoms, tHP, bins)))
    ensures |pTot| > 10 ==> pPP[|pTot| - 1] != 0.0 || pHH[|pTot| - 1] != 0.0 || pHP[|pTot| - 1] != 0.0
    ensures pTot == Add(Add(pPP, pHH), pHP)
    ensures Mass(pPP) == Square(atoms) && Mass(pHH) == Square(waters) && Mass(pHP) == Cross(waters, atoms)
    ensures Mass(pTot) == Square(atoms + waters)
  {
    var pp := SelfCorrelation(atoms, tPP, bins);
    var hh, hp := SlowWaters(atoms, waters, tHH, tHP, bins);
    pPP, pHH, pHP := ShortenAxes(pp, hh, hp);
    pTot := SumComponents(pPP, pHH, pHP);
    TotalMass(pPP, pHH, pHP, atoms, waters);
    SquareConcat(atoms, waters);
  }

  /** The strict lower pairs of row `i`: body `i` against each lower body. */
  function Strict(i: nat): (r: seq<Slot>)
    ensures |r| == i && forall j :: 0 <= j < i ==> r[j] == AA(i, j)
  {
    seq(i, j requires 0 <= j => AA(i, j))
  }

  /** The pair slots below the diagonal, row by row: the order
      `calculate_all` adds them to the base. */
  function PairSlots(n: nat): (r: seq<Slot>)
    ensures forall s :: s in r <==> s.AA? && s.j < s.i < n
  {
    if n == 0 then []
    else
      var row := Strict(n - 1);
      assert forall s: Slot :: s.AA? && s.i == n - 1 && s.j < n - 1 ==> row[s.j] == s;
      PairSlots(n - 1) + row
  }

  /** The slots of this manager in the order their sum is split: the
      diagonal (summed in `master.base`), the pairs, the body-water partials
      and the water partial. */
  function Layout(n: nat): (r: seq<Slot>)
    ensures forall s :: s in r <==> IsSlot(n, s)
  {
    assert forall s: Slot :: s.AA? && s.i == s.j < n ==> Diagonal(n)[s.i] == s;
    Diagonal(n) + PairSlots(n) + AWSlots(n) + [WW]
  }

  lemma {:induction false} PairSlotsNoDups(n: nat)
    ensures NoDups(PairSlots(n))
  {
    if n > 0 {
      PairSlotsNoDups(n - 1);
      NoDupsAppend(PairSlots(n - 1), Strict(n - 1));
    }
  }

  /** Each slot occurs once in the layout. */
  lemma LayoutNoDups(n: nat)
    ensures NoDups(Diagonal(n)) && NoDups(Layout(n))
  {
    var d := Diagonal(n);
    PairSlotsNoDups(n);
    assert forall s :: s in d ==> s.AA? && s.i == s.j;
    NoDupsAppend(d, PairSlots(n));
    NoDupsAppend(d + PairSlots(n), AWSlots(n));
    NoDupsAppend(d + PairSlots(n) + AWSlots(n), [WW]);
  }

  /** The weight a slot's partial holds in total: every ordered pair of its
      atoms once, the pairs of an atom with itself included. */
  function Expected(cs: seq<seq<real>>, hc: seq<real>, s: Slot): real
    requires IsSlot(|cs|, s)
  {
    match s
    case AA(i, j) => if i == j then Square(cs[i]) else Cross(cs[i], cs[j])
    case AW(i) => Cross(cs[i], hc)
    case WW => Square(hc)
  }

  /** The distance table of a slot covers its atoms and stays on the axis. */
  predicate FitsSlot(table: map<Slot, seq<seq<nat>>>, cs: seq<seq<real>>, hc: seq<real>, s: Slot, bins: nat)
    requires IsSlot(|cs|, s)
  {
    s in table &&
    match s
    case AA(i, j) => BinsFit(table[s], |cs[i]|, |cs[j]|, bins)
    case AW(i) => BinsFit(table[s], |cs[i]|, |hc|, bins)
    case WW => BinsFit(table[s], |hc|, |hc|, bins)
  }

  /** The histogram a slot's partial holds when computed from the
      coordinates and the distance table: the self-correlation of a body or
      of the hydration layer, the cross-correlation of two bodies or of a
      body with the hydration layer. */
  function SlotHist(table: map<Slot, seq<seq<nat>>>, cs: seq<seq<real>>, hc: seq<real>, bins: nat, s: Slot): (h: Hist)
    requires IsSlot(|cs|, s) && FitsSlot(table, cs, hc, s, bins)
    ensures |h| == bins
  {
    match s
    case AA(i, j) => if i == j then SelfHist(cs[i], table[s], bins) else CrossHist(cs[i], cs[j], table[s], bins)
    case AW(i) => CrossHist(cs[i], hc, table[s], bins)
    case WW => SelfHist(hc, table[s], bins)
  }

  ghost predicate Fits(table: map<Slot, seq<seq<nat>>>, cs: seq<seq<real>>, hc: seq<real>, bins: nat) {
    forall s :: IsSlot(|cs|, s) ==> FitsSlot(table, cs, hc, s, bins)
  }

  /** A slot after an update: recomputed from the coordinates and the
      distance table when `sel`, bin by bin, its previous histogram
      otherwise. */
  predicate Agrees(table: map<Slot, seq<seq<nat>>>, prior: map<Slot, Hist>, now: map<Slot, Hist>, cs: seq<seq<real>>, hc: seq<real>, bins: nat, s: Slot, sel: bool) {
    IsSlot(|cs|, s) && s in now && s in prior &&
    if sel then
      FitsSlot(table, cs, hc, s, bins) && now[s] == SlotHist(table, cs, hc, bins, s) && Mass(now[s]) == Expected(cs, hc, s)
    else now[s] == prior[s]
  }

  /** The coordinates `calculate` works with: a body's new coordinates when
      it changed internally or moved, its stored ones otherwise. */
  function Refresh(cs: seq<seq<real>>, bodies: seq<seq<real>>, internal: seq<bool>, external: seq<bool>): (r: seq<seq<real>>)
    requires |bodies| == |cs| && |internal| == |cs| && |external| == |cs|
    ensures |r| == |cs|
  {
    seq(|cs|, i requires 0 <= i < |cs| => if internal[i] || external[i] then bodies[i] else cs[i])
  }

  function AllTrue(n: nat): (r: seq<bool>)
    ensures |r| == n && forall i :: 0 <= i < n ==> r[i]
  {
    seq(n, _ => true)
  }

  function ZeroPartials(n: nat, bins: nat): (m: map<Slot, Hist>)
    ensures forall s :: s in m <==> IsSlot(n, s)
    ensures forall s :: s in m ==> m[s] == Zeros(bins)
  {
    map s | s in Layout(n) :: Zeros(bins)
  }

  /** The slots the rows of `calculate` have reached at pair `(i, j)`: the
      water partial, every row below `i`, and the first `j` pairs of row `i`. */
  predicate Done(s: Slot, i: nat, j: nat) {
    match s
    case AA(a, b) => a < i || (a == i && b < j)
    case AW(a) => a < i
    case WW => true
  }

  /** A call splits into the refresh of the diagonal and the rest. */
  lemma RecomputesSplit(n: nat, s: Slot, internal: seq<bool>, external: seq<bool>, hydration: bool)
    requires |internal| == n && |external| == n
    ensures Recomputes(s, internal, external, hydration) <==>
      Recomputes(s, internal, AllFalse(n), false) || Recomputes(s, AllFalse(n), external, hydration)
    ensures !(Recomputes(s, internal, AllFalse(n), false) && Recomputes(s, AllFalse(n), external, hydration))
  {
  }

  /** Two updates in a row, recomputing disjoint sets of slots. */
  lemma AgreesCompose(table: map<Slot, seq<seq<nat>>>, p0: map<Slot, Hist>, p1: map<Slot, Hist>, p2: map<Slot, Hist>, cs: seq<seq<real>>,
                      hc1: seq<real>, hc2: seq<real>, bins: nat, s: Slot, a: bool, b: bool)
    requires Agrees(table, p0, p1, cs, hc1, bins, s, a) && Agrees(table, p1, p2, cs, hc2, bins, s, b)
    requires !(a && b)
    requires a ==> s.AA? && s.i == s.j
    ensures Agrees(table, p0, p2, cs, hc2, bins, s, a || b)
  {
  }

  /** Projecting a running sum to its first `b` bins, one more key at a time. */
  lemma SumOverSnoc(ks: seq<Slot>, k: Slot, m: map<Slot, Hist>, bins: nat, base: Hist, b: nat)
    requires WellSized(ks + [k], m, bins) && |base| == bins && b <= bins
    ensures WellSized(ks, m, bins) && k in m && |m[k]| == bins
    ensures Resize(Add(base, SumOver(ks + [k], m, bins)), b) ==
      Add(Resize(Add(base, SumOver(ks, m, bins)), b), Resize(m[k], b))
  {
    assert forall x :: x in ks ==> x in ks + [k];
    assert k in ks + [k];
    assert (ks + [k])[..|ks|] == ks;
    AddAssoc(base, SumOver(ks, m, bins), m[k]);
    ResizeAdd(Add(base, SumOver(ks, m, bins)), m[k], b);
  }

  /** The master histogram split into its components, each cut to the first
      `b` bins: the base plus the pairs, the body-water partials, and the
      water partial add up to the master cut to `b` bins. */
  lemma ComponentsAddUp(n: nat, bins: nat, partials: map<Slot, Hist>, b: nat)
    requires WellSized(Layout(n), partials, bins) && b <= bins
    ensures WellSized(Diagonal(n), partials, bins) && WellSized(PairSlots(n), partials, bins)
    ensures WellSized(AWSlots(n), partials, bins) && WW in partials && |partials[WW]| == bins
    ensures Resize(SumOver(Layout(n), partials, bins), b) ==
      Add(Add(Resize(Add(SumOver(Diagonal(n), partials, bins), SumOver(PairSlots(n), partials, bins)), b),
              Resize(SumOver(AWSlots(n), partials, bins), b)),
          Resize(partials[WW], b))
  {
    var d := Diagonal(n);
    var ps := PairSlots(n);
    var aw := AWSlots(n);
    assert forall s :: s in d || s in ps || s in aw ==> s in Layout(n);
    assert WW in Layout(n);
    SumOverAppend(d, ps, partials, bins);
    SumOverAppend(d + ps, aw, partials, bins);
    assert Layout(n)[..|Layout(n)| - 1] == d + ps + aw;
    var sD := SumOver(d, partials, bins);
    var sP := SumOver(ps, partials, bins);
    var sW := SumOver(aw, partials, bins);
    ResizeAdd(Add(Add(sD, sP), sW), partials[WW], bins);
    ResizeAdd(Add(Add(sD, sP), sW), partials[WW], b);
    ResizeAdd(Add(sD, sP), sW, b);
  }

  /** Replacing one partial moves the sum over the layout by the difference. */
  lemma StoreSums(n: nat, bins: nat, partials: map<Slot, Hist>, s: Slot, p: Hist)
    requires WellSized(Layout(n), partials, bins) && IsSlot(n, s) && |p| == bins
    ensures WellSized(Layout(n), partials[s := p], bins)
    ensures SumOver(Layout(n), partials[s := p], bins) == Add(Sub(SumOver(Layout(n), partials, bins), partials[s]), p)
  {
    LayoutNoDups(n);
    SumOverUpdate(Layout(n), partials, bins, s, p);
  }

  /** Replacing a self-correlation moves the sum over the diagonal by the
      difference, and replacing any other partial leaves it alone. */
  lemma DiagonalSums(n: nat, bins: nat, partials: map<Slot, Hist>, s: Slot, p: Hist)
    requires WellSized(Layout(n), partials, bins) && IsSlot(n, s) && |p| == bins
    ensures WellSized(Diagonal(n), partials, bins) && WellSized(Diagonal(n), partials[s := p], bins)
    ensures s.AA? && s.i == s.j ==>
      SumOver(Diagonal(n), partials[s := p], bins) == Add(Sub(SumOver(Diagonal(n), partials, bins), partials[s]), p)
    ensures !(s.AA? && s.i == s.j) ==> SumOver(Diagonal(n), partials[s := p], bins) == SumOver(Diagonal(n), partials, bins)
  {
    var d := Diagonal(n);
    LayoutNoDups(n);
    assert forall k :: k in d ==> k in Layout(n);
    if s.AA? && s.i == s.j {
      assert d[s.i] == s;
      SumOverUpdate(d, partials, bins, s, p);
    } else {
      SumOverOutside(d, partials, bins, s, p);
    }
  }

  /** The self-correlations of the flagged bodies below `i` agree with
      their bodies; every other slot is as before. */
  ghost predicate DiagAgree(table: map<Slot, seq<seq<nat>>>, prior: map<Slot, Hist>, now: map<Slot, Hist>, cs: seq<seq<real>>, hc: seq<real>, bins: nat,
                            i: nat, flags: seq<bool>)
    requires |flags| == |cs|
  {
    forall s :: IsSlot(|cs|, s) ==> Agrees(table, prior, now, cs, hc, bins, s, s.AA? && s.i == s.j && s.i < i && flags[s.i])
  }

  /** A diagonal loop that has visited every body has recomputed what
      `Recomputes` selects for the flags alone. */
  lemma DiagDone(table: map<Slot, seq<seq<nat>>>, prior: map<Slot, Hist>, now: map<Slot, Hist>, cs: seq<seq<real>>, hc: seq<real>, bins: nat, flags: seq<bool>)
    requires |flags| == |cs| && DiagAgree(table, prior, now, cs, hc, bins, |cs|, flags)
    ensures AllAgree(table, prior, now, cs, hc, bins, flags, AllFalse(|cs|), false)
  {
    forall s | IsSlot(|cs|, s)
      ensures Agrees(table, prior, now, cs, hc, bins, s, Recomputes(s, flags, AllFalse(|cs|), false))
    {
      assert Agrees(table, prior, now, cs, hc, bins, s, s.AA? && s.i == s.j && s.i < |cs| && flags[s.i]);
      assert Recomputes(s, flags, AllFalse(|cs|), false) == (s.AA? && s.i == s.j && s.i < |cs| && flags[s.i]);
    }
  }

  /** One step of the diagonal loops of `initialize` and `calculate`: the
      self-correlation of body `i` is recomputed when its flag is set, and
      the body's coordinates may be replaced. */
  lemma DiagonalStep(table: map<Slot, seq<seq<nat>>>, prior: map<Slot, Hist>, m0: map<Slot, Hist>, m1: map<Slot, Hist>, cs0: seq<seq<real>>, cs1: seq<seq<real>>,
                     hc: seq<real>, bins: nat, i: nat, flags: seq<bool>)
    requires i < |cs0| && |cs1| == |cs0| && |flags| == |cs0|
    requires forall k :: 0 <= k < |cs0| && k != i ==> cs1[k] == cs0[k]
    requires DiagAgree(table, prior, m0, cs0, hc, bins, i, flags)
    requires flags[i] ==> AA(i, i) in m1 && m1 == m0[AA(i, i) := m1[AA(i, i)]] &&
                          AA(i, i) in table && BinsFit(table[AA(i, i)], |cs1[i]|, |cs1[i]|, bins) &&
                          m1[AA(i, i)] == SelfHist(cs1[i], table[AA(i, i)], bins) && Mass(m1[AA(i, i)]) == Square(cs1[i])
    requires !flags[i] ==> m1 == m0
    ensures DiagAgree(table, prior, m1, cs1, hc, bins, i + 1, flags)
  {
    forall s | IsSlot(|cs0|, s)
      ensures Agrees(table, prior, m1, cs1, hc, bins, s, s.AA? && s.i == s.j && s.i < i + 1 && flags[s.i])
    {
      assert Agrees(table, prior, m0, cs0, hc, bins, s, s.AA? && s.i == s.j && s.i < i && flags[s.i]);
      if s.AA? && s.i == s.j && s.i < i {
        assert cs1[s.i] == cs0[s.i];
      }
    }
  }

  /** One pair step of a row of `calculate`: the pair `(i, j)` is recomputed
      when either body moved. */
  lemma RowPairStep(table: map<Slot, seq<seq<nat>>>, prior: map<Slot, Hist>, m0: map<Slot, Hist>, m1: map<Slot, Hist>, cs: seq<seq<real>>, hc: seq<real>,
                 bins: nat, i: nat, j: nat, external: seq<bool>, hydration: bool)
    requires j < i < |cs| && |external| == |cs|
    requires forall s :: IsSlot(|cs|, s) ==>
      Agrees(table, prior, m0, cs, hc, bins, s, Recomputes(s, AllFalse(|cs|), external, hydration) && Done(s, i, j))
    requires external[i] || external[j] ==> AA(i, j) in m1 && m1 == m0[AA(i, j) := m1[AA(i, j)]] &&
                                            AA(i, j) in table && BinsFit(table[AA(i, j)], |cs[i]|, |cs[j]|, bins) &&
                                            m1[AA(i, j)] == CrossHist(cs[i], cs[j], table[AA(i, j)], bins) &&
                                            Mass(m1[AA(i, j)]) == Cross(cs[i], cs[j])
    requires !(external[i] || external[j]) ==> m1 == m0
    ensures forall s :: IsSlot(|cs|, s) ==>
      Agrees(table, prior, m1, cs, hc, bins, s, Recomputes(s, AllFalse(|cs|), external, hydration) && Done(s, i, j + 1))
  {
    forall s | IsSlot(|cs|, s)
      ensures Agrees(table, prior, m1, cs, hc, bins, s, Recomputes(s, AllFalse(|cs|), external, hydration) && Done(s, i, j + 1))
    {
      assert Agrees(table, prior, m0, cs, hc, bins, s, Recomputes(s, AllFalse(|cs|), external, hydration) && Done(s, i, j));
    }
  }

  /** The last step of a row of `calculate`: the body-water partial of body
      `i` is recomputed when the body moved or the hydration changed. */
  lemma WaterStep(table: map<Slot, seq<seq<nat>>>, prior: map<Slot, Hist>, m0: map<Slot, Hist>, m1: map<Slot, Hist>, cs: seq<seq<real>>, hc: seq<real>,
                  bins: nat, i: nat, external: seq<bool>, hydration: bool)
    requires i < |cs| && |external| == |cs|
    requires forall s :: IsSlot(|cs|, s) ==>
      Agrees(table, prior, m0, cs, hc, bins, s, Recomputes(s, AllFalse(|cs|), external, hydration) && Done(s, i, i))
    requires hydration || external[i] ==> AW(i) in m1 && m1 == m0[AW(i) := m1[AW(i)]] &&
                                          AW(i) in table && BinsFit(table[AW(i)], |cs[i]|, |hc|, bins) &&
                                          m1[AW(i)] == CrossHist(cs[i], hc, table[AW(i)], bins) && Mass(m1[AW(i)]) == Cross(cs[i], hc)
    requires !(hydration || external[i]) ==> m1 == m0
    ensures forall s :: IsSlot(|cs|, s) ==>
      Agrees(table, prior, m1, cs, hc, bins, s, Recomputes(s, AllFalse(|cs|), external, hydration) && Done(s, i + 1, 0))
  {
    forall s | IsSlot(|cs|, s)
      ensures Agrees(table, prior, m1, cs, hc, bins, s, Recomputes(s, AllFalse(|cs|), external, hydration) && Done(s, i + 1, 0))
    {
      assert Agrees(table, prior, m0, cs, hc, bins, s, Recomputes(s, AllFalse(|cs|), external, hydration) && Done(s, i, i));
    }
  }

  /** The pair slots of the first `i` rows, and the first `j` pairs of row
      `i`, all have an `n`-bin partial. */
  lemma RowSlotsSized(n: nat, i: nat, j: nat, m: map<Slot, Hist>, bins: nat)
    requires WellSized(Layout(n), m, bins) && i <= n && j <= i && (j == 0 || i < n)
    ensures WellSized(PairSlots(i), m, bins)
    ensures WellSized(PairSlots(i) + Strict(i)[..j], m, bins)
  {
    forall s | s in PairSlots(i) + Strict(i)[..j]
      ensures s in Layout(n)
    {
      if s !in PairSlots(i) {
        var k :| 0 <= k < j && Strict(i)[..j][k] == s;
        assert s == AA(i, k);
      }
    }
  }

  /** One pair of row `i` added to the running pair sum of `calculate_all`. */
  lemma PairRowStep(n: nat, i: nat, j: nat, m: map<Slot, Hist>, bins: nat, base: Hist, b: nat)
    requires WellSized(Layout(n), m, bins) && j < i < n && |base| == bins && b <= bins
    ensures AA(i, j) in m && |m[AA(i, j)]| == bins
    ensures WellSized(PairSlots(i) + Strict(i)[..j], m, bins)
    ensures WellSized(PairSlots(i) + Strict(i)[..j + 1], m, bins)
    ensures Resize(Add(base, SumOver(PairSlots(i) + Strict(i)[..j + 1], m, bins)), b) ==
      Add(Resize(Add(base, SumOver(PairSlots(i) + Strict(i)[..j], m, bins)), b), Resize(m[AA(i, j)], b))
  {
    RowPrefixSnoc(i, j);
    RowSlotsSized(n, i, j, m, bins);
    RowSlotsSized(n, i, j + 1, m, bins);
    SumOverSnoc(PairSlots(i) + Strict(i)[..j], AA(i, j), m, bins, base, b);
  }

  /** The pairs up to `(i, j)` are those before it followed by it. */
  lemma RowPrefixSnoc(i: nat, j: nat)
    requires j < i
    ensures PairSlots(i) + Strict(i)[..j + 1] == PairSlots(i) + Strict(i)[..j] + [AA(i, j)]
  {
    var row := Strict(i);
    assert row[..j + 1] == row[..j] + [row[j]];
  }

  /** Every slot agrees with the selection `Recomputes` makes for the flags. */
  ghost predicate AllAgree(table: map<Slot, seq<seq<nat>>>, prior: map<Slot, Hist>, now: map<Slot, Hist>, cs: seq<seq<real>>, hc: seq<real>, bins: nat,
                           internal: seq<bool>, external: seq<bool>, hydration: bool) {
    forall s :: IsSlot(|cs|, s) ==> Agrees(table, prior, now, cs, hc, bins, s, Recomputes(s, internal, external, hydration))
  }

  /** The distance table of the self-correlation of every flagged body fits
      the axis. */
  predicate SelfTablesFit(table: map<Slot, seq<seq<nat>>>, bodies: seq<seq<real>>, flags: seq<bool>, bins: nat)
    requires |flags| == |bodies|
  {
    forall i :: 0 <= i < |bodies| && flags[i] ==> AA(i, i) in table && BinsFit(table[AA(i, i)], |bodies[i]|, |bodies[i]|, bins)
  }

  /** The tables of the next coordinates cover the bodies whose
      self-correlation is recomputed. */
  lemma SelfFits(table: map<Slot, seq<seq<nat>>>, cs: seq<seq<real>>, hc: seq<real>, bins: nat, bodies: seq<seq<real>>, flags: seq<bool>)
    requires Fits(table, cs, hc, bins) && |bodies| == |cs| && |flags| == |cs|
    requires forall i :: 0 <= i < |cs| && flags[i] ==> cs[i] == bodies[i]
    ensures SelfTablesFit(table, bodies, flags, bins)
  {
    forall i | 0 <= i < |cs| && flags[i]
      ensures AA(i, i) in table && BinsFit(table[AA(i, i)], |bodies[i]|, |bodies[i]|, bins)
    {
      assert FitsSlot(table, cs, hc, AA(i, i), bins);
    }
  }

  /** The two halves of `calculate` together: the self-correlations the
      first selects and the partials the second selects. */
  lemma ComposePhases(table: map<Slot, seq<seq<nat>>>, prior: map<Slot, Hist>, mid: map<Slot, Hist>, now: map<Slot, Hist>, cs: seq<seq<real>>,
                      hc0: seq<real>, hc: seq<real>, bins: nat, internal: seq<bool>, external: seq<bool>, hydration: bool)
    requires |internal| == |cs| && |external| == |cs|
    requires AllAgree(table, prior, mid, cs, hc0, bins, internal, AllFalse(|cs|), false)
    requires AllAgree(table, mid, now, cs, hc, bins, AllFalse(|cs|), external, hydration)
    ensures AllAgree(table, prior, now, cs, hc, bins, internal, external, hydration)
  {
    forall s | IsSlot(|cs|, s)
      ensures Agrees(table, prior, now, cs, hc, bins, s, Recomputes(s, internal, external, hydration))
    {
      RecomputesSplit(|cs|, s, internal, external, hydration);
      AgreesCompose(table, prior, mid, now, cs, hc0, hc, bins, s,
                    Recomputes(s, internal, AllFalse(|cs|), false), Recomputes(s, AllFalse(|cs|), external, hydration));
    }
  }

  class Manager {
    const bodySize: nat
    /** The number of bins of the distance axis. */
    const bins: nat
    /** `master.p`: the sum of every partial. */
    var master: Hist
    /** `master.base`: the sum of the self-correlations. */
    var base: Hist
    var partials: map<Slot, Hist>
    /** The stored weights of each body's atoms (`coords_p`). */
    var coords: seq<seq<real>>
    /** The stored weights of the hydration layer (`coords_h`). */
    var hydrationCoords: seq<real>

    /** The initialized state: one histogram per slot, master the sum of all
        partials and base the sum of the self-correlations. */
    ghost predicate Ready()
      reads this
    {
      bins >= 1 && |master| == bins && |coords| == bodySize &&
      WellSized(Layout(bodySize), partials, bins) &&
      base == SumOver(Diagonal(bodySize), partials, bins) &&
      master == SumOver(Layout(bodySize), partials, bins)
    }

    ghost predicate Valid()
      reads this
    {
      bins >= 1 && |coords| == bodySize && (master == [] || Ready())
    }

    constructor (bodySize: nat, bins: nat)
      requires bins >= 1
      ensures Valid() && master == []
      ensures this.bodySize == bodySize && this.bins == bins
    {
      this.bodySize := bodySize;
      this.bins := bins;
      master := [];
      base := [];
      partials := map[];
      coords := seq(bodySize, _ => []);
      hydrationCoords := [];
    }

    /** The update `calc_pp`, `calc_hp` and `calc_hh` end with: `master -=
        partial; partial = result; master += partial`. It keeps master the
        sum of the partials and leaves the base alone. */
    method Store(s: Slot, p: Hist)
      requires Ready() && IsSlot(bodySize, s) && !(s.AA? && s.i == s.j) && |p| == bins
      modifies this
      ensures Ready()
      ensures partials == old(partials)[s := p] && base == old(base)
      ensures coords == old(coords) && hydrationCoords == old(hydrationCoords)
      ensures master == Add(Sub(old(master), old(partials)[s]), p)
    {
      StoreSums(bodySize, bins, partials, s, p);
      DiagonalSums(bodySize, bins, partials, s, p);
      var prev := partials[s];
      master := Sub(master, prev);
      partials := partials[s := p];
      master := Add(master, p);
    }

    /** The update `calc_self_correlation` ends with: the same as `Store` on
        both `master.base` and `master`, keeping each the sum of its parts. */
    method StoreSelf(i: nat, p: Hist)
      requires Ready() && i < bodySize && |p| == bins
      modifies this
      ensures Ready()
      ensures partials == old(partials)[AA(i, i) := p]
      ensures coords == old(coords) && hydrationCoords == old(hydrationCoords)
      ensures base == Add(Sub(old(base), old(partials)[AA(i, i)]), p)
      ensures master == Add(Sub(old(master), old(partials)[AA(i, i)]), p)
    {
      StoreSums(bodySize, bins, partials, AA(i, i), p);
      DiagonalSums(bodySize, bins, partials, AA(i, i), p);
      var prev := partials[AA(i, i)];
      base := Sub(base, prev);
      master := Sub(master, prev);
      partials := partials[AA(i, i) := p];
      master := Add(master, p);
      base := Add(base, p);
    }

    /** `calc_self_correlation`: stores the body's coordinates and recomputes
        its self-correlation. */
    method CalcSelf(i: nat, body: seq<real>, bin: seq<seq<nat>>)
      requires Ready() && i < bodySize && BinsFit(bin, |body|, |body|, bins)
      modifies this
      ensures Ready()
      ensures coords == old(coords)[i := body] && hydrationCoords == old(hydrationCoords)
      ensures AA(i, i) in partials && partials == old(partials)[AA(i, i) := partials[AA(i, i)]]
      ensures partials[AA(i, i)] == SelfHist(body, bin, bins) && Mass(partials[AA(i, i)]) == Square(body)
    {
      var p := SelfCorrelation(body, bin, bins);
      coords := coords[i := body];
      StoreSelf(i, p);
      assert partials[AA(i, i)] == p;
    }

    /** `calc_pp(n, m)`: the partial of a pair of bodies from their stored
        coordinates. */
    method CalcPP(i: nat, j: nat, bin: seq<seq<nat>>)
      requires Ready() && j < i < bodySize && BinsFit(bin, |coords[i]|, |coords[j]|, bins)
      modifies this
      ensures Ready()
      ensures coords == old(coords) && hydrationCoords == old(hydrationCoords)
      ensures AA(i, j) in partials && partials == old(partials)[AA(i, j) := partials[AA(i, j)]]
      ensures partials[AA(i, j)] == CrossHist(coords[i], coords[j], bin, bins) && Mass(partials[AA(i, j)]) == Cross(coords[i], coords[j])
    {
      var w, v := coords[i], coords[j];
      var p := CrossCorrelation(w, v, bin, bins);
      Store(AA(i, j), p);
      assert partials[AA(i, j)] == p;
    }

    /** `calc_hp`: the partial of a body against the stored hydration layer. */
    method CalcHP(i: nat, bin: seq<seq<nat>>)
      requires Ready() && i < bodySize && BinsFit(bin, |coords[i]|, |hydrationCoords|, bins)
      modifies this
      ensures Ready()
      ensures coords == old(coords) && hydrationCoords == old(hydrationCoords)
      ensures AW(i) in partials && partials == old(partials)[AW(i) := partials[AW(i)]]
      ensures partials[AW(i)] == CrossHist(coords[i], hydrationCoords, bin, bins) && Mass(partials[AW(i)]) == Cross(coords[i], hydrationCoords)
    {
      var w, v := coords[i], hydrationCoords;
      var p := CrossCorrelation(w, v, bin, bins);
      Store(AW(i), p);
      assert partials[AW(i)] == p;
    }

    /** `calc_hh`: stores the hydration layer and recomputes its
        self-correlation. */
    method CalcHH(water: seq<real>, bin: seq<seq<nat>>)
      requires Ready() && BinsFit(bin, |water|, |water|, bins)
      modifies this
      ensures Ready()
      ensures coords == old(coords) && hydrationCoords == water
      ensures WW in partials && partials == old(partials)[WW := partials[WW]]
      ensures partials[WW] == SelfHist(water, bin, bins) && Mass(partials[WW]) == Square(water)
    {
      hydrationCoords := water;
      var p := HydrationCorrelation(water, bin, bins);
      Store(WW, p);
      assert partials[WW] == p;
    }
  
    /** The first half of `initialize`: master, base and every partial zeroed. */
    method Clear()
      requires bins >= 1 && |coords| == bodySize
      modifies this
      ensures Ready() && partials == ZeroPartials(bodySize, bins)
      ensures coords == old(coords) && hydrationCoords == old(hydrationCoords)
    {
      master := Zeros(bins);
      base := Zeros(bins);
      partials := ZeroPartials(bodySize, bins);
      assert forall k :: k in Diagonal(bodySize) ==> k in Layout(bodySize);
      SumOverZeros(Layout(bodySize), partials, bins);
      SumOverZeros(Diagonal(bodySize), partials, bins);
    }

    /** `initialize`: zeroes master, base and every partial, then computes
        the self-correlation of every body, storing its coordinates. */
    method Initialize(bodies: seq<seq<real>>, table: map<Slot, seq<seq<nat>>>)
      requires bins >= 1 && |coords| == bodySize && |bodies| == bodySize
      requires SelfTablesFit(table, bodies, AllTrue(bodySize), bins)
      modifies this
      ensures Ready() && coords == bodies && hydrationCoords == old(hydrationCoords)
      ensures AllAgree(table, ZeroPartials(bodySize, bins), partials, coords, hydrationCoords, bins, AllTrue(bodySize), AllFalse(bodySize), false)
    {
      Clear();
      ghost var zero := partials;
      for i := 0 to bodySize
        invariant Ready() && hydrationCoords == old(hydrationCoords)
        invariant forall k :: 0 <= k < i ==> coords[k] == bodies[k]
        invariant DiagAgree(table, zero, partials, coords, hydrationCoords, bins, i, AllTrue(bodySize))
      {
        RefreshBody(i, AllTrue(bodySize), AllFalse(bodySize), bodies, table, zero);
      }
      assert coords == bodies;
      DiagDone(table, zero, partials, coords, hydrationCoords, bins, AllTrue(bodySize));
    }

    /** The coordinates `calculate` will work with. */
    ghost function NextCoords(bodies: seq<seq<real>>, internal: seq<bool>, external: seq<bool>): seq<seq<real>>
      reads this
      requires |coords| == bodySize && |bodies| == bodySize && |internal| == bodySize && |external| == bodySize
    {
      if master == [] then bodies else Refresh(coords, bodies, internal, external)
    }

    /** Step `i` of the diagonal loops of `initialize` and `calculate`: an
        internally modified body gets its self-correlation recomputed, a body
        that only moved only gets its coordinates stored. */
    method RefreshBody(i: nat, internal: seq<bool>, external: seq<bool>, bodies: seq<seq<real>>, table: map<Slot, seq<seq<nat>>>,
                       ghost prior: map<Slot, Hist>)
      requires Ready() && i < bodySize && |internal| == bodySize && |external| == bodySize && |bodies| == bodySize
      requires SelfTablesFit(table, bodies, internal, bins)
      requires DiagAgree(table, prior, partials, coords, hydrationCoords, bins, i, internal)
      modifies this
      ensures Ready() && hydrationCoords == old(hydrationCoords)
      ensures coords == old(coords)[i := if internal[i] || external[i] then bodies[i] else old(coords)[i]]
      ensures DiagAgree(table, prior, partials, coords, hydrationCoords, bins, i + 1, internal)
    {
      ghost var m0, cs0 := partials, coords;
      if internal[i] {
        CalcSelf(i, bodies[i], table[AA(i, i)]);
      } else if external[i] {
        coords := coords[i := bodies[i]];
      }
      DiagonalStep(table, prior, m0, partials, cs0, coords, hydrationCoords, bins, i, internal);
    }

    /** The first loop of `calculate` on an initialized manager: an internally
        modified body gets its self-correlation recomputed, a body that only
        moved only gets its coordinates stored. */
    method RefreshBodies(internal: seq<bool>, external: seq<bool>, bodies: seq<seq<real>>, table: map<Slot, seq<seq<nat>>>)
      requires Ready() && |internal| == bodySize && |external| == bodySize && |bodies| == bodySize
      requires SelfTablesFit(table, bodies, internal, bins)
      modifies this
      ensures Ready() && hydrationCoords == old(hydrationCoords)
      ensures coords == Refresh(old(coords), bodies, internal, external)
      ensures AllAgree(table, old(partials), partials, coords, hydrationCoords, bins, internal, AllFalse(bodySize), false)
    {
      ghost var prior := partials;
      ghost var next := Refresh(coords, bodies, internal, external);
      ghost var cs := coords;
      for i := 0 to bodySize
        invariant Ready() && hydrationCoords == old(hydrationCoords)
        invariant forall k :: 0 <= k < bodySize ==> coords[k] == if k < i then next[k] else cs[k]
        invariant DiagAgree(table, prior, partials, coords, hydrationCoords, bins, i, internal)
      {
        RefreshBody(i, internal, external, bodies, table, prior);
      }
      assert coords == next;
      DiagDone(table, prior, partials, coords, hydrationCoords, bins, internal);
    }

    /** One row of `calculate`'s second loop: the pairs of body `i` with the
        lower bodies when either moved, then its body-water partial when the
        body moved or the hydration changed. */
    method CalcRow(i: nat, external: seq<bool>, hydration: bool, table: map<Slot, seq<seq<nat>>>, ghost prior: map<Slot, Hist>)
      requires Ready() && i < bodySize && |external| == bodySize
      requires Fits(table, coords, hydrationCoords, bins)
      requires forall s :: IsSlot(bodySize, s) ==>
        Agrees(table, prior, partials, coords, hydrationCoords, bins, s, Recomputes(s, AllFalse(bodySize), external, hydration) && Done(s, i, 0))
      modifies this
      ensures Ready() && coords == old(coords) && hydrationCoords == old(hydrationCoords)
      ensures forall s :: IsSlot(bodySize, s) ==>
        Agrees(table, prior, partials, coords, hydrationCoords, bins, s, Recomputes(s, AllFalse(bodySize), external, hydration) && Done(s, i + 1, 0))
    {
      for j := 0 to i
        invariant Ready() && coords == old(coords) && hydrationCoords == old(hydrationCoords)
        invariant forall s :: IsSlot(bodySize, s) ==>
          Agrees(table, prior, partials, coords, hydrationCoords, bins, s, Recomputes(s, AllFalse(bodySize), external, hydration) && Done(s, i, j))
      {
        ghost var m0 := partials;
        if external[i] || external[j] {
          assert FitsSlot(table, coords, hydrationCoords, AA(i, j), bins);
          CalcPP(i, j, table[AA(i, j)]);
        }
        RowPairStep(table, prior, m0, partials, coords, hydrationCoords, bins, i, j, external, hydration);
      }
      ghost var m0 := partials;
      if hydration || external[i] {
        assert FitsSlot(table, coords, hydrationCoords, AW(i), bins);
        CalcHP(i, table[AW(i)]);
      }
      WaterStep(table, prior, m0, partials, coords, hydrationCoords, bins, i, external, hydration);
    }

    /** The rest of `calculate`: the water partial when the hydration
        changed, then the rows. The two branches of the source differ only in
        the body-water rule, which `Recomputes` states once. */
    method RecomputeRest(external: seq<bool>, hydration: bool, water: seq<real>, table: map<Slot, seq<seq<nat>>>)
      requires Ready() && |external| == bodySize
      requires Fits(table, coords, if hydration then water else hydrationCoords, bins)
      modifies this
      ensures Ready() && coords == old(coords)
      ensures hydrationCoords == if hydration then water else old(hydrationCoords)
      ensures AllAgree(table, old(partials), partials, coords, hydrationCoords, bins, AllFalse(bodySize), external, hydration)
    {
      ghost var prior := partials;
      if hydration {
        assert FitsSlot(table, coords, water, WW, bins);
        CalcHH(water, table[WW]);
      }
      for i := 0 to bodySize
        invariant Ready() && coords == old(coords)
        invariant hydrationCoords == if hydration then water else old(hydrationCoords)
        invariant forall s :: IsSlot(bodySize, s) ==>
          Agrees(table, prior, partials, coords, hydrationCoords, bins, s, Recomputes(s, AllFalse(bodySize), external, hydration) && Done(s, i, 0))
      {
        CalcRow(i, external, hydration, table, prior);
      }
      forall s | IsSlot(bodySize, s)
        ensures Agrees(table, prior, partials, coords, hydrationCoords, bins, s, Recomputes(s, AllFalse(bodySize), external, hydration))
      {
        assert Done(s, bodySize, 0) || !Recomputes(s, AllFalse(bodySize), external, hydration);
      }
    }

    /** The first half of `calculate`: on the first call `initialize`
        (every self-correlation computed), otherwise the refresh of the
        bodies. */
    method Prepare(internal: seq<bool>, external: seq<bool>, bodies: seq<seq<real>>, table: map<Slot, seq<seq<nat>>>)
      requires Valid() && |internal| == bodySize && |external| == bodySize && |bodies| == bodySize
      requires SelfTablesFit(table, bodies, if master == [] then AllTrue(bodySize) else internal, bins)
      modifies this
      ensures Ready() && hydrationCoords == old(hydrationCoords)
      ensures coords == old(NextCoords(bodies, internal, external))
      ensures AllAgree(table, if old(master) == [] then ZeroPartials(bodySize, bins) else old(partials), partials, coords, hydrationCoords, bins,
                       if old(master) == [] then AllTrue(bodySize) else internal, AllFalse(bodySize), false)
    {
      if master == [] {
        Initialize(bodies, table);
      } else {
        RefreshBodies(internal, external, bodies, table);
      }
    }

    /** `calculate`: initializes on the first call (then no body's
        self-correlation is recomputed a second time), otherwise refreshes the
        bodies; then recomputes the water partial, the pairs and the
        body-water partials the flags select, resets the flags and returns
        master. */
    method Calculate(sm: StateManager, bodies: seq<seq<real>>, water: seq<real>, table: map<Slot, seq<seq<nat>>>)
      returns (total: Hist)
      requires Valid() && |bodies| == bodySize
      requires |sm.internallyModified| == bodySize && |sm.externallyModified| == bodySize
      requires Fits(table, NextCoords(bodies, sm.internallyModified, sm.externallyModified),
                    if sm.hydrationModified then water else hydrationCoords, bins)
      modifies this, sm
      ensures Ready()
      ensures coords == old(NextCoords(bodies, sm.internallyModified, sm.externallyModified))
      ensures hydrationCoords == if old(sm.hydrationModified) then water else old(hydrationCoords)
      ensures AllAgree(table, if old(master) == [] then ZeroPartials(bodySize, bins) else old(partials), partials, coords, hydrationCoords, bins,
                       if old(master) == [] then AllTrue(bodySize) else old(sm.internallyModified),
                       old(sm.externallyModified), old(sm.hydrationModified))
      ensures total == master
      ensures |sm.internallyModified| == bodySize && |sm.externallyModified| == bodySize
      ensures forall i :: 0 <= i < bodySize ==> !sm.internallyModified[i] && !sm.externallyModified[i]
      ensures !sm.hydrationModified
    {
      var internal := sm.internallyModified;
      var external := sm.externallyModified;
      var hydration := sm.hydrationModified;
      ghost var next := NextCoords(bodies, internal, external);
      ghost var hc := if hydration then water else hydrationCoords;
      ghost var hc0 := hydrationCoords;
      ghost var prior := if master == [] then ZeroPartials(bodySize, bins) else partials;
      ghost var selfFlags := if master == [] then AllTrue(bodySize) else internal;
      SelfFits(table, next, hc, bins, bodies, selfFlags);
      Prepare(internal, external, bodies, table);
      ghost var mid := partials;
      RecomputeRest(external, hydration, water, table);
      ComposePhases(table, prior, mid, partials, coords, hc0, hydrationCoords, bins, selfFlags, external, hydration);
      sm.ResetToFalse();
      total := master;
    }

    /** Every slot of the layout has an `n`-bin partial. */
    lemma ReadySized(ks: seq<Slot>)
      requires Ready() && forall s :: s in ks ==> IsSlot(bodySize, s)
      ensures WellSized(ks, partials, bins)
    {
      assert forall s :: s in ks ==> s in Layout(bodySize);
    }

    /** Row `i` of the pair sum of `calculate_all`: each pair of body `i`
        with a lower body added to the running sum, cut to `b` bins. */
    method SumPairRow(i: nat, b: nat, acc: Hist) returns (pPP: Hist)
      requires WellSized(Layout(bodySize), partials, bins) && |base| == bins
      requires i < bodySize && b <= bins
      requires acc == Resize(Add(base, SumOver(PairSlots(i), partials, bins)), b)
      ensures pPP == Resize(Add(base, SumOver(PairSlots(i + 1), partials, bins)), b)
    {
      RowSlotsSized(bodySize, i, 0, partials, bins);
      assert PairSlots(i) + Strict(i)[..0] == PairSlots(i);
      pPP := acc;
      for j := 0 to i
        invariant WellSized(PairSlots(i) + Strict(i)[..j], partials, bins)
        invariant pPP == Resize(Add(base, SumOver(PairSlots(i) + Strict(i)[..j], partials, bins)), b)
      {
        PairRowStep(bodySize, i, j, partials, bins, base, b);
        pPP := Add(pPP, Resize(partials[AA(i, j)], b));
      }
      assert PairSlots(i) + Strict(i)[..i] == PairSlots(i + 1);
    }

    /** The pair component of `calculate_all`: `master.base` plus every pair
        partial below the diagonal, cut to `b` bins. */
    method SumPairs(b: nat) returns (pPP: Hist)
      requires WellSized(Layout(bodySize), partials, bins) && |base| == bins && b <= bins
      ensures WellSized(PairSlots(bodySize), partials, bins)
      ensures pPP == Resize(Add(base, SumOver(PairSlots(bodySize), partials, bins)), b)
    {
      AddZeros(base);
      pPP := Resize(base, b);
      RowSlotsSized(bodySize, bodySize, 0, partials, bins);
      for i := 0 to bodySize
        invariant pPP == Resize(Add(base, SumOver(PairSlots(i), partials, bins)), b)
      {
        RowSlotsSized(bodySize, i, 0, partials, bins);
        pPP := SumPairRow(i, b, pPP);
      }
    }

    /** The body-water component of `calculate_all`, cut to `b` bins. */
    method SumBodyWater(b: nat) returns (pHP: Hist)
      requires Ready() && b <= bins
      ensures WellSized(AWSlots(bodySize), partials, bins)
      ensures pHP == Resize(SumOver(AWSlots(bodySize), partials, bins), b)
    {
      ReadySized(AWSlots(bodySize));
      pHP := Zeros(b);
      for i := 0 to bodySize
        invariant pHP == Resize(SumOver(AWSlots(i), partials, bins), b)
      {
        assert AWSlots(i + 1)[..i] == AWSlots(i);
        ReadySized(AWSlots(i + 1));
        ResizeAdd(SumOver(AWSlots(i), partials, bins), partials[AW(i)], b);
        pHP := Add(pHP, Resize(partials[AW(i)], b));
      }
    }

    /** `calculate_all`: runs `calculate`, shortens the total to its last
        non-zero bin, and splits it into the pair, body-water and water
        components cut to the same length; the three add up to the total. */
    method CalculateAll(sm: StateManager, bodies: seq<seq<real>>, water: seq<real>, table: map<Slot, seq<seq<nat>>>)
      returns (pPP: Hist, pHH: Hist, pHP: Hist, pTot: Hist)
      requires Valid() && bins >= 10 && |bodies| == bodySize
      requires |sm.internallyModified| == bodySize && |sm.externallyModified| == bodySize
      requires Fits(table, NextCoords(bodies, sm.internallyModified, sm.externallyModified),
                    if sm.hydrationModified then water else hydrationCoords, bins)
      modifies this, sm
      ensures Ready()
      ensures coords == old(NextCoords(bodies, sm.internallyModified, sm.externallyModified))
      ensures hydrationCoords == if old(sm.hydrationModified) then water else old(hydrationCoords)
      ensures AllAgree(table, if old(master) == [] then ZeroPartials(bodySize, bins) else old(partials), partials, coords, hydrationCoords, bins,
                       if old(master) == [] then AllTrue(bodySize) else old(sm.internallyModified),
                       old(sm.externallyModified), old(sm.hydrationModified))
      ensures pTot == Truncated(master)
      ensures pPP == Resize(Add(base, SumOver(PairSlots(bodySize), partials, bins)), |pTot|)
      ensures pHP == Resize(SumOver(AWSlots(bodySize), partials, bins), |pTot|)
      ensures pHH == Resize(partials[WW], |pTot|)
      ensures pTot == Add(Add(pPP, pHP), pHH)
    {
      var total := Calculate(sm, bodies, water, table);
      var maxBin := TruncationBin(NonZero(total));
      pTot := Resize(total, maxBin);
      assert maxBin <= bins;
      SumSplit(maxBin);
      pHH := Resize(partials[WW], maxBin);
      pPP := SumPairs(maxBin);
      pHP := SumBodyWater(maxBin);
    }

    /** The master cut to `b` bins is the sum of the three components. */
    lemma SumSplit(b: nat)
      requires Ready() && b <= bins
      ensures WellSized(PairSlots(bodySize), partials, bins) && WellSized(AWSlots(bodySize), partials, bins)
      ensures WW in partials && |partials[WW]| == bins
      ensures Resize(master, b) ==
        Add(Add(Resize(Add(base, SumOver(PairSlots(bodySize), partials, bins)), b),
                Resize(SumOver(AWSlots(bodySize), partials, bins), b)),
            Resize(partials[WW], b))
    {
      ComponentsAddUp(bodySize, bins, partials, b);
    }
  }
}
