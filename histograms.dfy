/** Distance histograms as sequences of bin counts, with the vector operations
    the histogram managers use (`+=`, `-=`, scaling, `resize`), sums of
    partial histograms kept in a map, and the truncation rule that cuts a
    result down to its last non-zero bin. */
module Histograms {

  type Hist = seq<real>

  function Zeros(n: nat): (h: Hist)
    ensures |h| == n && forall i :: 0 <= i < n ==> h[i] == 0.0
  {
    seq(n, _ => 0.0)
  }

  function Add(a: Hist, b: Hist): (c: Hist)
    requires |a| == |b|
    ensures |c| == |a| && forall i :: 0 <= i < |c| ==> c[i] == a[i] + b[i]
  {
    seq(|a|, i requires 0 <= i < |a| => a[i] + b[i])
  }

  function Sub(a: Hist, b: Hist): (c: Hist)
    requires |a| == |b|
    ensures |c| == |a| && forall i :: 0 <= i < |c| ==> c[i] == a[i] - b[i]
  {
    seq(|a|, i requires 0 <= i < |a| => a[i] - b[i])
  }

  function Scale(a: Hist, k: real): (c: Hist)
    ensures |c| == |a| && forall i :: 0 <= i < |c| ==> c[i] == k * a[i]
  {
    seq(|a|, i requires 0 <= i < |a| => k * a[i])
  }

  /** `std::vector::resize`: truncates, or pads with zero bins. */
  function Resize(a: Hist, n: nat): (c: Hist)
    ensures |c| == n
    ensures forall i :: 0 <= i < n && i < |a| ==> c[i] == a[i]
    ensures forall i :: |a| <= i < n ==> c[i] == 0.0
  {
    if n <= |a| then a[..n] else a + Zeros(n - |a|)
  }

  /** The update every `combine_*` performs: subtracting the old partial and
      adding the new one moves a sum `b + s` to `b + (s - old + new)`. */
  lemma ShiftUpdate(b: Hist, s: Hist, prev: Hist, next: Hist)
    requires |b| == |s| == |prev| == |next|
    ensures Add(Sub(Add(b, s), prev), next) == Add(b, Add(Sub(s, prev), next))
  {
  }

  /** Cutting a sum is summing the cuts. */
  lemma ResizeAdd(a: Hist, b: Hist, n: nat)
    requires |a| == |b| && n <= |a|
    ensures Resize(Add(a, b), n) == Add(Resize(a, n), Resize(b, n))
  {
  }

  lemma AddZeros(a: Hist)
    ensures Add(a, Zeros(|a|)) == a
    ensures Add(Zeros(|a|), a) == a
  {
  }

  lemma AddAssoc(a: Hist, b: Hist, c: Hist)
    requires |a| == |b| == |c|
    ensures Add(Add(a, b), c) == Add(a, Add(b, c))
  {
  }

  lemma AddComm(a: Hist, b: Hist)
    requires |a| == |b|
    ensures Add(a, b) == Add(b, a)
  {
  }

  /** Every key of `ks` has an `n`-bin histogram in `m`. */
  predicate WellSized<K(==)>(ks: seq<K>, m: map<K, Hist>, n: nat) {
    forall k :: k in ks ==> k in m && |m[k]| == n
  }

  predicate NoDups<K(==)>(ks: seq<K>) {
    forall a, b :: 0 <= a < b < |ks| ==> ks[a] != ks[b]
  }

  /** The sum of the histograms stored under the keys `ks`. */
  function SumOver<K(==)>(ks: seq<K>, m: map<K, Hist>, n: nat): (s: Hist)
    requires WellSized(ks, m, n)
    ensures |s| == n
  {
    if ks == [] then Zeros(n)
    else
      assert forall k :: k in ks[..|ks| - 1] ==> k in ks;
      Add(SumOver(ks[..|ks| - 1], m, n), m[ks[|ks| - 1]])
  }

  /** Changing the histogram of a key outside `ks` leaves the sum alone. */
  lemma {:induction false} SumOverOutside<K>(ks: seq<K>, m: map<K, Hist>, n: nat, key: K, h: Hist)
    requires WellSized(ks, m, n) && key !in ks
    ensures WellSized(ks, m[key := h], n)
    ensures SumOver(ks, m[key := h], n) == SumOver(ks, m, n)
  {
    if ks != [] {
      assert forall k :: k in ks[..|ks| - 1] ==> k in ks;
      SumOverOutside(ks[..|ks| - 1], m, n, key, h);
    }
  }

  /** Two maps that agree on `ks` have the same sum over `ks`. */
  lemma {:induction false} SumOverAgree<K>(ks: seq<K>, m1: map<K, Hist>, m2: map<K, Hist>, n: nat)
    requires WellSized(ks, m1, n)
    requires forall k :: k in ks ==> k in m2 && m2[k] == m1[k]
    ensures WellSized(ks, m2, n)
    ensures SumOver(ks, m2, n) == SumOver(ks, m1, n)
  {
    if ks != [] {
      assert forall k :: k in ks[..|ks| - 1] ==> k in ks;
      SumOverAgree(ks[..|ks| - 1], m1, m2, n);
    }
  }

  /** Replacing the histogram of a key that occurs once in `ks` moves the sum
      by the difference: the invariant every `combine_*` relies on. */
  lemma {:induction false} SumOverUpdate<K>(ks: seq<K>, m: map<K, Hist>, n: nat, key: K, h: Hist)
    requires WellSized(ks, m, n) && NoDups(ks) && key in ks && |h| == n
    ensures WellSized(ks, m[key := h], n)
    ensures SumOver(ks, m[key := h], n) == Add(Sub(SumOver(ks, m, n), m[key]), h)
  {
    var init := ks[..|ks| - 1];
    var last := ks[|ks| - 1];
    assert forall k :: k in init ==> k in ks;
    if last == key {
      forall a | 0 <= a < |init|
        ensures init[a] != key
      {
        assert init[a] == ks[a];
      }
      SumOverOutside(init, m, n, key, h);
    } else {
      assert key in init by {
        var a :| 0 <= a < |ks| && ks[a] == key;
        assert a < |ks| - 1;
        assert init[a] == key;
      }
      SumOverUpdate(init, m, n, key, h);
    }
  }

  /** The sum over a concatenation is the sum of the two sums. */
  lemma {:induction false} SumOverAppend<K>(a: seq<K>, b: seq<K>, m: map<K, Hist>, n: nat)
    requires WellSized(a, m, n) && WellSized(b, m, n)
    ensures WellSized(a + b, m, n)
    ensures SumOver(a + b, m, n) == Add(SumOver(a, m, n), SumOver(b, m, n))
    decreases |b|
  {
    if b == [] {
      assert a + b == a;
      AddZeros(SumOver(a, m, n));
    } else {
      var init := b[..|b| - 1];
      assert forall k :: k in init ==> k in b;
      assert (a + b)[..|a + b| - 1] == a + init;
      SumOverAppend(a, init, m, n);
      AddAssoc(SumOver(a, m, n), SumOver(init, m, n), m[b[|b| - 1]]);
    }
  }

  /** A sum of zero histograms is zero. */
  lemma {:induction false} SumOverZeros<K>(ks: seq<K>, m: map<K, Hist>, n: nat)
    requires forall k :: k in ks ==> k in m && m[k] == Zeros(n)
    ensures WellSized(ks, m, n)
    ensures SumOver(ks, m, n) == Zeros(n)
  {
    if ks != [] {
      assert forall k :: k in ks[..|ks| - 1] ==> k in ks;
      SumOverZeros(ks[..|ks| - 1], m, n);
      AddZeros(Zeros(n));
    }
  }

  /** The bins holding a non-zero count. */
  function NonZero(h: Hist): (nz: seq<bool>)
    ensures |nz| == |h| && forall i :: 0 <= i < |h| ==> (nz[i] <==> h[i] != 0.0)
  {
    seq(|h|, i requires 0 <= i < |h| => h[i] != 0.0)
  }

  /** The truncation rule: one past the last flagged bin at index 10 or
      above, and 10 when there is none. */
  function MaxBin(nonzero: seq<bool>): (m: nat)
    ensures m >= 10
    ensures m == 10 || (m <= |nonzero| && nonzero[m - 1])
    ensures forall i :: m <= i < |nonzero| ==> !nonzero[i]
  {
    if |nonzero| <= 10 then 10
    else if nonzero[|nonzero| - 1] then |nonzero|
    else MaxBin(nonzero[..|nonzero| - 1])
  }

  /** The three conditions of `MaxBin` determine it. */
  lemma MaxBinUnique(nonzero: seq<bool>, m: nat)
    requires m >= 10
    requires m == 10 || (m <= |nonzero| && nonzero[m - 1])
    requires forall i :: m <= i < |nonzero| ==> !nonzero[i]
    ensures m == MaxBin(nonzero)
  {
  }

  /** The scan every manager runs over its total: from the last bin down to
      bin 10, stopping at the first non-zero one. */
  method TruncationBin(nonzero: seq<bool>) returns (maxBin: nat)
    ensures maxBin == MaxBin(nonzero)
  {
    maxBin := 10;
    var i := |nonzero| - 1;
    while i >= 10
      invariant -1 <= i < |nonzero|
      invariant forall k :: i < k < |nonzero| ==> !nonzero[k]
    {
      if nonzero[i] {
        maxBin := i + 1;
        MaxBinUnique(nonzero, maxBin);
        return;
      }
      i := i - 1;
    }
    MaxBinUnique(nonzero, maxBin);
  }

  /** A histogram cut down (or padded) to its truncated length. */
  function Truncated(h: Hist): (t: Hist)
    ensures |t| >= 10
    ensures forall i :: 0 <= i < |t| && i < |h| ==> t[i] == h[i]
    ensures forall i :: |t| <= i < |h| ==> h[i] == 0.0
    ensures |t| > 10 ==> t[|t| - 1] != 0.0
  {
    Resize(h, MaxBin(NonZero(h)))
  }

  /** Truncation drops only zero bins, so it keeps the total count of a
      histogram of at least 10 bins. */
  lemma TruncatedKeepsMass(h: Hist)
    requires |h| >= 10
    ensures Mass(Truncated(h)) == Mass(h)
  {
    var m := MaxBin(NonZero(h));
    assert Truncated(h) == h[..m];
    forall i | m <= i < |h|
      ensures h[i] == 0.0
    {
      assert !NonZero(h)[i];
    }
    MassOfZeroTail(h, m);
  }

  /** Dropping a tail of zero bins keeps the total count. */
  lemma {:induction false} MassOfZeroTail(h: Hist, n: nat)
    requires n <= |h|
    requires forall i :: n <= i < |h| ==> h[i] == 0.0
    ensures Mass(h[..n]) == Mass(h)
  {
    if n < |h| {
      var t := h[..|h| - 1];
      MassOfZeroTail(t, n);
      assert t[..n] == h[..n];
    } else {
      assert h[..n] == h;
    }
  }

  /** The total count of a histogram. */
  function Mass(h: Hist): real {
    if h == [] then 0.0 else Mass(h[..|h| - 1]) + h[|h| - 1]
  }

  /** Adding `x` to one bin adds `x` to the total count. */
  lemma {:induction false} MassDeposit(h: Hist, b: nat, x: real)
    requires b < |h|
    ensures Mass(h[b := h[b] + x]) == Mass(h) + x
  {
    var g := h[b := h[b] + x];
    if b < |h| - 1 {
      assert g[..|g| - 1] == h[..|h| - 1][b := h[b] + x];
      MassDeposit(h[..|h| - 1], b, x);
    } else {
      assert g[..|g| - 1] == h[..|h| - 1];
    }
  }

  lemma {:induction false} MassZeros(n: nat)
    ensures Mass(Zeros(n)) == 0.0
  {
    if n > 0 {
      assert Zeros(n)[..n - 1] == Zeros(n - 1);
      MassZeros(n - 1);
    }
  }

  /** The total count of a sum is the sum of the total counts. */
  lemma {:induction false} MassAdd(a: Hist, b: Hist)
    requires |a| == |b|
    ensures Mass(Add(a, b)) == Mass(a) + Mass(b)
  {
    if a != [] {
      var n := |a| - 1;
      assert Add(a, b)[..n] == Add(a[..n], b[..n]);
      MassAdd(a[..n], b[..n]);
    }
  }

  /** Padding with zero bins keeps the total count. */
  lemma {:induction false} MassPad(a: Hist, k: nat)
    ensures Mass(a + Zeros(k)) == Mass(a)
  {
    if k == 0 {
      assert a + Zeros(k) == a;
    } else {
      assert (a + Zeros(k))[..|a| + k - 1] == a + Zeros(k - 1);
      MassPad(a, k - 1);
    }
  }

  /** Resizing keeps the total count when only zero bins are cut off. */
  lemma MassResize(h: Hist, n: nat)
    requires forall i :: n <= i < |h| ==> h[i] == 0.0
    ensures Mass(Resize(h, n)) == Mass(h)
  {
    if n <= |h| {
      MassOfZeroTail(h, n);
    } else {
      MassPad(h, n - |h|);
    }
  }

  /** The bins where any of three histograms holds a non-zero count. */
  function NonZeroAny(a: Hist, b: Hist, c: Hist): (nz: seq<bool>)
    requires |a| == |b| == |c|
    ensures |nz| == |a|
    ensures forall i :: 0 <= i < |a| ==> (nz[i] <==> a[i] != 0.0 || b[i] != 0.0 || c[i] != 0.0)
  {
    seq(|a|, i requires 0 <= i < |a| => a[i] != 0.0 || b[i] != 0.0 || c[i] != 0.0)
  }
}
