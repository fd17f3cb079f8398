// The local-minimum finder `math::find_minima`: candidate minima, a
// minimum-spacing filter, a bound around each minimum found by walking
// outwards, the merging of overlapping bounds, and a prominence filter
// relative to the most prominent minimum.

module PeakFinder {
  import opened Wrappers

  /** The bounds of a minimum, as indices into the data. */
  datatype Limit = Limit(min: int, max: int)

  /** `InvalidArgument`: x and y differ in size. `PastEnd`: a read past the
      end of the bound list. `EmptyBack`: the last kept minimum is
      replaced while none has been kept. */
  datatype PeakError = InvalidArgument | PastEnd | EmptyBack

  // ---- candidates ----

  /** Whether index i of the data is a candidate minimum: the first point
      when it lies below the second, the last when it lies below the one
      before it, an interior point when it lies strictly below both
      neighbours. */
  predicate IsCandidate(y: seq<real>, i: int) {
    |y| >= 2 && 0 <= i < |y| &&
    if i == 0 then y[0] < y[1]
    else if i == |y| - 1 then y[i] < y[i - 1]
    else y[i] < y[i - 1] && y[i] < y[i + 1]
  }

  predicate Increasing(c: seq<int>) {
    forall j, k :: 0 <= j < k < |c| ==> c[j] < c[k]
  }

  /** `Increasing`, with the comparison of two entries named so that the
      proofs below compare only the entries they name. */
  predicate Lt(c: seq<int>, j: int, k: int) { 0 <= j < k < |c| ==> c[j] < c[k] }

  ghost predicate Ordered(c: seq<int>) {
    forall j, k {:trigger Lt(c, j, k)} :: Lt(c, j, k)
  }

  lemma OrderedIff(c: seq<int>)
    ensures Ordered(c) <==> Increasing(c)
  {
    if Ordered(c) {
      forall j, k | 0 <= j < k < |c|
        ensures c[j] < c[k]
      {
        assert Lt(c, j, k);
      }
    }
  }

  /** The candidate minima in increasing index order: exactly the indices
      that are candidates. */
  method Candidates(y: seq<real>) returns (c: seq<int>)
    requires |y| >= 3
    ensures Increasing(c)
    ensures forall i :: i in c <==> IsCandidate(y, i)
  {
    c := [];
    if y[0] < y[1] {
      c := [0];
    }
    var i := 1;
    while i < |y| - 1
      invariant 1 <= i <= |y| - 1
      invariant Increasing(c) && forall j :: 0 <= j < |c| ==> 0 <= c[j] < i
      invariant forall k :: k in c <==> 0 <= k < i && IsCandidate(y, k)
    {
      if y[i] < y[i - 1] && y[i] < y[i + 1] {
        c := c + [i];
      }
      i := i + 1;
    }
    if y[|y| - 1] < y[|y| - 2] {
      c := c + [|y| - 1];
    }
    assert forall k :: k in c ==> IsCandidate(y, k);
  }

  // ---- the spacing filter ----

  /** The candidates among the first k that the spacing filter keeps: the
      first one, then each one at least s past the last kept one. */
  function SpacedTo(c: seq<int>, s: int, k: nat): seq<int>
    requires k <= |c|
  {
    if k == 0 then []
    else
      var p := SpacedTo(c, s, k - 1);
      if p == [] || s <= c[k - 1] - p[|p| - 1] then p + [c[k - 1]] else p
  }

  /** The spacing filter; a spacing of 0 keeps every candidate. */
  method Spaced(c: seq<int>, s: int) returns (r: seq<int>)
    requires s >= 0
    ensures r == if s > 0 then SpacedTo(c, s, |c|) else c
  {
    if s == 0 {
      return c;
    }
    r := [];
    var i := 0;
    while i < |c|
      invariant 0 <= i <= |c| && r == SpacedTo(c, s, i)
    {
      if r == [] || s <= c[i] - r[|r| - 1] {
        r := r + [c[i]];
      }
      i := i + 1;
    }
  }

  /** The filter keeps increasing candidates increasing and keeps the
      first one, and keeps nothing but candidates. */
  lemma {:induction false} SpacedShape(c: seq<int>, s: int, k: nat)
    requires k <= |c| && Increasing(c)
    ensures var r := SpacedTo(c, s, k);
      Increasing(r) && (forall e :: e in r ==> e in c) &&
      (k > 0 ==> r != [] && r[0] == c[0] && forall e :: e in r ==> e <= c[k - 1])
  {
    if k > 0 {
      SpacedShape(c, s, k - 1);
      var p := SpacedTo(c, s, k - 1);
      assert c[k - 1] in c;
      assert k > 1 ==> p != [] && c[k - 2] < c[k - 1];
      assert forall j :: 0 <= j < |p| ==> p[j] in p;
    }
  }

  /** Entry j of r lies at least s past the one before it: kept candidates
      lie at least s apart. */
  predicate Gap(r: seq<int>, s: int, j: int) { 0 < j < |r| ==> s <= r[j] - r[j - 1] }

  ghost predicate Apart(r: seq<int>, s: int) { forall j :: Gap(r, s, j) }

  lemma {:induction false} SpacedGaps(c: seq<int>, s: int, k: nat)
    requires k <= |c|
    ensures Apart(SpacedTo(c, s, k), s)
  {
    if k > 0 {
      SpacedGaps(c, s, k - 1);
      var p := SpacedTo(c, s, k - 1);
      if p != [] && s <= c[k - 1] - p[|p| - 1] {
        var r := p + [c[k - 1]];
        forall j
          ensures Gap(r, s, j)
        {
          if 0 < j < |p| {
            assert r[j] == p[j] && r[j - 1] == p[j - 1];
            assert Gap(p, s, j);
          }
        }
      }
    }
  }

  /** Each candidate the filter drops lies less than s past a kept one. */
  lemma {:induction false} SpacedDropped(c: seq<int>, s: int, k: nat)
    requires k <= |c| && Increasing(c)
    ensures var r := SpacedTo(c, s, k);
      forall j :: 0 <= j < k && c[j] !in r ==> exists e :: e in r && e < c[j] && c[j] - e < s
  {
    if k > 0 {
      SpacedDropped(c, s, k - 1);
      SpacedShape(c, s, k - 1);
      var p := SpacedTo(c, s, k - 1);
      var r := SpacedTo(c, s, k);
      assert forall e :: e in p ==> e in r;
      if p != [] {
        assert p[|p| - 1] in p;
        assert p[|p| - 1] <= c[k - 2] < c[k - 1];
      }
    }
  }

  /** A spacing of 1 keeps every strictly increasing candidate, like a
      spacing of 0. */
  lemma {:induction false} SpacingOneKeepsAll(c: seq<int>, k: nat)
    requires k <= |c| && Increasing(c)
    ensures SpacedTo(c, 1, k) == c[..k]
  {
    if k > 0 {
      SpacingOneKeepsAll(c, k - 1);
      assert c[..k] == c[..k - 1] + [c[k - 1]];
      if k > 1 {
        assert SpacedTo(c, 1, k - 1)[k - 2] == c[k - 2];
      }
    }
  }

  // ---- the bound of one minimum ----

  /** Where the walk to the left of minimum i starts. */
  function LeftStart(i: int): int { if i - 1 < 0 then 0 else i - 1 }

  /** Where the walk to the right of minimum i starts. */
  function RightStart(i: int, n: int): int { if n - 1 < i + 1 then n - 1 else i + 1 }

  /** The walk to the left of minimum i, at point `left`, after `dec`
      points in a row that rose less than 5% above the highest difference
      `md` seen so far: it stops after three such points or past the first
      point, and gives the point after the rejected run, at least 0. */
  function LeftWalk(y: seq<real>, i: int, left: int, dec: int, md: real): int
    requires 0 <= i < |y| && -1 <= left < |y|
    decreases left + 1
  {
    if dec < 3 && left >= 0 then
      var diff := y[left] - y[i];
      LeftWalk(y, i, left - 1, if diff < md * 1.05 then dec + 1 else 0, if md < diff then diff else md)
    else if left + dec + 1 < 0 then 0 else left + dec + 1
  }

  /** The walk to the right, mirrored: it gives the point before the
      rejected run, at most the last point. */
  function RightWalk(y: seq<real>, i: int, right: int, dec: int, md: real): int
    requires 0 <= i < |y| && 0 <= right <= |y|
    decreases |y| - right
  {
    if dec < 3 && right < |y| then
      var diff := y[right] - y[i];
      RightWalk(y, i, right + 1, if diff < md * 1.05 then dec + 1 else 0, if md < diff then diff else md)
    else if |y| - 1 < right - dec - 1 then |y| - 1 else right - dec - 1
  }

  lemma {:induction false} LeftWithin(y: seq<real>, i: int, left: int, dec: int, md: real)
    requires 1 <= i < |y| && -1 <= left <= i - 1 && 0 <= dec <= i - 1 - left
    ensures 0 <= LeftWalk(y, i, left, dec, md) <= i
    decreases left + 1
  {
    if dec < 3 && left >= 0 {
      var diff := y[left] - y[i];
      LeftWithin(y, i, left - 1, if diff < md * 1.05 then dec + 1 else 0, if md < diff then diff else md);
    }
  }

  lemma {:induction false} RightWithin(y: seq<real>, i: int, right: int, dec: int, md: real)
    requires 0 <= i < |y| - 1 && i + 1 <= right <= |y| && 0 <= dec <= right - i - 1
    ensures i <= RightWalk(y, i, right, dec, md) <= |y| - 1
    decreases |y| - right
  {
    if dec < 3 && right < |y| {
      var diff := y[right] - y[i];
      RightWithin(y, i, right + 1, if diff < md * 1.05 then dec + 1 else 0, if md < diff then diff else md);
    }
  }

  /** The bound of a minimum is clamped to the data and holds the
      minimum: 0 <= min <= i <= max <= n - 1. */
  lemma BoundClamped(y: seq<real>, i: int)
    requires 0 <= i < |y|
    ensures 0 <= LeftWalk(y, i, LeftStart(i), 0, 0.0) <= i
    ensures i <= RightWalk(y, i, RightStart(i, |y|), 0, 0.0) <= |y| - 1
  {
    if i == 0 {
      assert LeftWalk(y, i, 0, 0, 0.0) == LeftWalk(y, i, -1, 0, 0.0);
    } else {
      LeftWithin(y, i, i - 1, 0, 0.0);
    }
    if i == |y| - 1 {
      assert RightWalk(y, i, |y| - 1, 0, 0.0) == RightWalk(y, i, |y|, 0, 0.0);
    } else {
      RightWithin(y, i, i + 1, 0, 0.0);
    }
  }

  /** The walk to the left of minimum i. */
  method LeftBound(y: seq<real>, i: int) returns (lo: int)
    requires 0 <= i < |y|
    ensures lo == LeftWalk(y, i, LeftStart(i), 0, 0.0) && 0 <= lo <= i
  {
    var dec := 0;
    var left := if i - 1 < 0 then 0 else i - 1;
    var md := 0.0;
    while dec < 3 && left >= 0
      invariant -1 <= left < |y|
      invariant LeftWalk(y, i, left, dec, md) == LeftWalk(y, i, LeftStart(i), 0, 0.0)
      decreases left + 1
    {
      var diff := y[left] - y[i];
      if diff < md * 1.05 {
        dec := dec + 1;
      } else {
        dec := 0;
      }
      md := if md < diff then diff else md;
      left := left - 1;
    }
    lo := if left + dec + 1 < 0 then 0 else left + dec + 1;
    BoundClamped(y, i);
  }

  /** The walk to the right of minimum i. */
  method RightBound(y: seq<real>, i: int) returns (hi: int)
    requires 0 <= i < |y|
    ensures hi == RightWalk(y, i, RightStart(i, |y|), 0, 0.0) && i <= hi <= |y| - 1
  {
    var dec := 0;
    var right := if |y| - 1 < i + 1 then |y| - 1 else i + 1;
    var md := 0.0;
    while dec < 3 && right < |y|
      invariant 0 <= right <= |y|
      invariant RightWalk(y, i, right, dec, md) == RightWalk(y, i, RightStart(i, |y|), 0, 0.0)
      decreases |y| - right
    {
      var diff := y[right] - y[i];
      if diff < md * 1.05 {
        dec := dec + 1;
      } else {
        dec := 0;
      }
      md := if md < diff then diff else md;
      right := right + 1;
    }
    hi := if |y| - 1 < right - dec - 1 then |y| - 1 else right - dec - 1;
    BoundClamped(y, i);
  }

  /** The endpoint raise after a bound is found, on the finder's own copy
      of the data: a bound reaching the first point lifts that point to the
      bound's other end when it lies lower, or else a bound reaching the
      last point lifts the last point likewise. Only the two end points
      change, and they only rise. */
  function Raised(y: seq<real>, b: Limit): (r: seq<real>)
    requires |y| >= 3 && 0 <= b.min < |y| && 0 <= b.max < |y|
    ensures |r| == |y| && forall p :: 0 < p < |y| - 1 ==> r[p] == y[p]
    ensures r[0] >= y[0] && r[|y| - 1] >= y[|y| - 1]
  {
    if b.min == 0 && y[0] < y[b.max] then y[0 := y[b.max]]
    else if b.max == |y| - 1 && y[|y| - 1] < y[b.min] then y[|y| - 1 := y[b.min]]
    else y
  }

  predicate InData(ms: seq<int>, n: int) {
    forall j :: 0 <= j < |ms| ==> 0 <= ms[j] < n
  }

  /** The bounds of the first k minima and the data copy after their
      endpoint raises: one bound per minimum, clamped and holding its
      minimum; only the two end points of the copy change, and they only
      rise. */
  function BoundsTo(y: seq<real>, ms: seq<int>, k: nat): (r: (seq<Limit>, seq<real>))
    requires |y| >= 3 && k <= |ms| && InData(ms, |y|)
    ensures |r.0| == k && |r.1| == |y|
    ensures forall j :: 0 <= j < k ==> 0 <= r.0[j].min <= ms[j] <= r.0[j].max <= |y| - 1
    ensures forall p :: 0 < p < |y| - 1 ==> r.1[p] == y[p]
    ensures r.1[0] >= y[0] && r.1[|y| - 1] >= y[|y| - 1]
  {
    if k == 0 then ([], y)
    else
      var p := BoundsTo(y, ms, k - 1);
      var m := ms[k - 1];
      BoundClamped(p.1, m);
      var b := Limit(LeftWalk(p.1, m, LeftStart(m), 0, 0.0), RightWalk(p.1, m, RightStart(m, |y|), 0, 0.0));
      (p.0 + [b], Raised(p.1, b))
  }

  /** One pass of the bound loop: the bound of minimum i, found on the
      copy of the data as earlier raises left it, and the raise after it. */
  method BoundNext(y: seq<real>, ms: seq<int>, i: nat, bs: seq<Limit>, yy: seq<real>)
    returns (bs2: seq<Limit>, yy2: seq<real>)
    requires |y| >= 3 && i < |ms| && InData(ms, |y|) && (bs, yy) == BoundsTo(y, ms, i)
    ensures (bs2, yy2) == BoundsTo(y, ms, i + 1)
  {
    var lo := LeftBound(yy, ms[i]);
    var hi := RightBound(yy, ms[i]);
    var b := Limit(lo, hi);
    yy2 := Raised(yy, b);
    bs2 := bs + [b];
  }

  /** The bound loop of `find_minima`, on its own copy of the data. */
  method BoundAll(y: seq<real>, ms: seq<int>) returns (bs: seq<Limit>, yy: seq<real>)
    requires |y| >= 3 && InData(ms, |y|)
    ensures (bs, yy) == BoundsTo(y, ms, |ms|)
  {
    bs, yy := [], y;
    var i := 0;
    while i < |ms|
      invariant 0 <= i <= |ms| && (bs, yy) == BoundsTo(y, ms, i)
    {
      bs, yy := BoundNext(y, ms, i, bs, yy);
      i := i + 1;
    }
  }

  // ---- merging overlapping bounds ----

  /** The merge that starts at bound i with the bound `cur` after
      `mc - 1` merges: each next bound that the current one overlaps (its
      end lies past the next one's start) is absorbed, and the current
      bound extends to that bound's end. Gives the merged bound and one
      more than the number of bounds absorbed. */
  function Reach(b: seq<Limit>, i: nat, cur: Limit, mc: nat): (r: (Limit, nat))
    requires i < |b| && 1 <= mc && i + mc <= |b|
    ensures mc <= r.1 && i + r.1 <= |b| && r.0.min == cur.min
    ensures r.1 == mc ==> r.0 == cur
    ensures r.1 > mc ==> r.0.max == b[i + r.1 - 1].max
    decreases |b| - i - mc
  {
    if i + mc < |b| && !(cur.max <= b[i + mc].min) then Reach(b, i, Limit(cur.min, b[i + mc].max), mc + 1)
    else (cur, mc)
  }

  /** The position of the lowest of values i to j, the first one on ties;
      value k is the data value at minimum k. */
  function Lowest(v: seq<real>, i: int, j: int): (q: int)
    requires 0 <= i <= j < |v|
    ensures i <= q <= j
    ensures forall k :: i <= k <= j ==> v[q] <= v[k]
    decreases j - i
  {
    if j == i then i
    else
      var p := Lowest(v, i, j - 1);
      if v[j] < v[p] then j else p
  }

  /** The data values at the minima. */
  function Values(y: seq<real>, ms: seq<int>): (v: seq<real>)
    requires InData(ms, |y|)
    ensures |v| == |ms| && forall k :: 0 <= k < |ms| ==> v[k] == y[ms[k]]
  {
    seq(|ms|, k requires 0 <= k < |ms| => y[ms[k]])
  }

  /** The group of bounds that starts at bound i: the merged bound, the
      lowest minimum of the group, and the number of bounds in the
      group. */
  function Group(b: seq<Limit>, ms: seq<int>, v: seq<real>, i: nat): (r: (Limit, int, nat))
    requires |ms| == |b| == |v| && i < |b|
    ensures 1 <= r.2 && i + r.2 <= |b|
  {
    var g := Reach(b, i, b[i], 1);
    (g.0, ms[Lowest(v, i, i + g.1 - 1)], g.1)
  }

  /** The bounds from i on merged, each group's minimum the lowest of the
      group; a bound that overlaps nothing stays as it is. */
  function MergedFrom(b: seq<Limit>, ms: seq<int>, v: seq<real>, i: nat): (r: (seq<Limit>, seq<int>))
    requires |ms| == |b| == |v| && i <= |b|
    ensures |r.0| == |r.1|
    decreases |b| - i
  {
    if i == |b| then ([], [])
    else
      var g := Group(b, ms, v, i);
      var rest := MergedFrom(b, ms, v, i + g.2);
      ([g.0] + rest.0, [g.1] + rest.1)
  }

  /** The source's merge loop, as written: it stops before the last bound,
      and a bound that overlaps nothing is skipped rather than kept. */
  function MergedAsWritten(b: seq<Limit>, ms: seq<int>, v: seq<real>, i: nat): (r: (seq<Limit>, seq<int>))
    requires |ms| == |b| == |v| && i <= |b|
    ensures |r.0| == |r.1|
    decreases |b| - i
  {
    if i + 1 >= |b| then ([], [])
    else
      var g := Group(b, ms, v, i);
      if g.2 == 1 then MergedAsWritten(b, ms, v, i + 1)
      else
        var rest := MergedAsWritten(b, ms, v, i + g.2);
        ([g.0] + rest.0, [g.1] + rest.1)
  }

  /** Minimum v lies inside bound l. */
  predicate Inside(l: Limit, v: int) { l.min <= v <= l.max }

  /** Bound j holds minimum j. */
  predicate HoldsAt(b: seq<Limit>, ms: seq<int>, j: int) { 0 <= j < |b| <= |ms| ==> Inside(b[j], ms[j]) }

  /** Each bound holds its minimum. */
  ghost predicate Holds(b: seq<Limit>, ms: seq<int>) {
    |b| == |ms| && forall j :: HoldsAt(b, ms, j)
  }

  /** Minimum v lies inside one of the bounds r. */
  ghost predicate Covered(r: seq<Limit>, v: int) {
    exists g :: 0 <= g < |r| && Inside(r[g], v)
  }

  lemma {:induction false} ReachHolds(b: seq<Limit>, ms: seq<int>, i: nat, cur: Limit, mc: nat)
    requires Holds(b, ms) && Ordered(ms) && i < |b| && 1 <= mc && i + mc <= |b|
    requires cur.min == b[i].min && cur.max >= ms[i + mc - 1]
    ensures var r := Reach(b, i, cur, mc);
      forall k :: i <= k < i + r.1 ==> Inside(r.0, ms[k])
    decreases |b| - i - mc
  {
    var r := Reach(b, i, cur, mc);
    if i + mc < |b| && !(cur.max <= b[i + mc].min) {
      assert HoldsAt(b, ms, i + mc);
      ReachHolds(b, ms, i, Limit(cur.min, b[i + mc].max), mc + 1);
    }
    assert HoldsAt(b, ms, i);
    forall k | i <= k < i + r.1
      ensures Inside(r.0, ms[k])
    {
      assert Lt(ms, i, k) && Lt(ms, k, i + r.1 - 1);
    }
  }

  /** A group's bound holds every minimum of the group, its minimum
      among them. */
  lemma GroupHolds(b: seq<Limit>, ms: seq<int>, v: seq<real>, i: nat)
    requires Holds(b, ms) && Ordered(ms) && |v| == |b| && i < |b|
    ensures var g := Group(b, ms, v, i);
      (forall k :: i <= k < i + g.2 ==> Inside(g.0, ms[k])) &&
      (exists q :: i <= q < i + g.2 && g.1 == ms[q])
  {
    assert HoldsAt(b, ms, i);
    ReachHolds(b, ms, i, b[i], 1);
    var g := Reach(b, i, b[i], 1);
    var q := Lowest(v, i, i + g.1 - 1);
    assert i <= q < i + g.1;
  }

  /** The merge from bound i, one group unfolded. */
  lemma MergedUnfold(b: seq<Limit>, ms: seq<int>, v: seq<real>, i: nat)
    requires |ms| == |b| == |v| && i < |b|
    ensures var g := Group(b, ms, v, i); var rest := MergedFrom(b, ms, v, i + g.2);
      MergedFrom(b, ms, v, i) == ([g.0] + rest.0, [g.1] + rest.1)
  {
  }

  /** `f` is one of the minima from position n on. */
  ghost predicate Among(ms: seq<int>, n: nat, f: int) {
    exists p :: n <= p < |ms| && f == ms[p]
  }

  /** The merged minima are minima from i on, in increasing order, and
      there is one when there was a bound. */
  lemma {:induction false} MergedMinima(b: seq<Limit>, ms: seq<int>, v: seq<real>, i: nat)
    requires Holds(b, ms) && Ordered(ms) && |v| == |b| && i <= |b|
    ensures var r := MergedFrom(b, ms, v, i);
      (i < |b| ==> r.0 != []) && Ordered(r.1) &&
      forall e :: e in r.1 ==> Among(ms, i, e)
    decreases |b| - i
  {
    if i < |b| {
      var g := Group(b, ms, v, i);
      MergedUnfold(b, ms, v, i);
      GroupHolds(b, ms, v, i);
      MergedMinima(b, ms, v, i + g.2);
      var rest := MergedFrom(b, ms, v, i + g.2);
      var q :| i <= q < i + g.2 && g.1 == ms[q];
      JoinOrdered(ms, g.1, q, rest.1, i + g.2);
      forall f | f in [g.1] + rest.1
        ensures Among(ms, i, f)
      {
        AmongFrom(ms, q, i, f);
      }
    }
  }

  /** A minimum from position n on is also one from any earlier position. */
  lemma AmongFrom(ms: seq<int>, n: nat, m: nat, f: int)
    requires m <= n && Among(ms, n, f)
    ensures Among(ms, m, f)
  {
    var p :| n <= p < |ms| && f == ms[p];
    assert m <= p < |ms| && f == ms[p];
  }

  /** A minimum that comes before position n is below every minimum from n on. */
  lemma AmongAbove(ms: seq<int>, q: nat, n: nat, f: int)
    requires Ordered(ms) && 0 <= q < n && q < |ms| && Among(ms, n, f)
    ensures ms[q] < f
  {
    var p :| n <= p < |ms| && f == ms[p];
    assert Lt(ms, q, p);
  }

  /** A minimum ahead of minima that all come later in the list keeps the
      list increasing. */
  lemma JoinOrdered(ms: seq<int>, e: int, q: nat, rest: seq<int>, n: nat)
    requires Ordered(ms) && 0 <= q < n && q < |ms| && e == ms[q] && Ordered(rest)
    requires forall f :: f in rest ==> Among(ms, n, f)
    ensures Ordered([e] + rest)
    ensures forall f :: f in [e] + rest ==> Among(ms, q, f)
  {
    forall k | 0 <= k < |rest|
      ensures e < rest[k]
    {
      assert rest[k] in rest;
      AmongAbove(ms, q, n, rest[k]);
    }
    var r := [e] + rest;
    forall j, k
      ensures Lt(r, j, k)
    {
      if 0 < j < k < |r| {
        assert r[j] == rest[j - 1] && r[k] == rest[k - 1];
        assert Lt(rest, j - 1, k - 1);
      }
    }
    forall f | f in r
      ensures Among(ms, q, f)
    {
      if f == e {
        assert q <= q < |ms| && f == ms[q];
      } else {
        assert f in rest;
        AmongFrom(ms, n, q, f);
      }
    }
  }

  /** Every merged bound holds its merged minimum. */
  lemma {:induction false} MergedHolds(b: seq<Limit>, ms: seq<int>, v: seq<real>, i: nat)
    requires Holds(b, ms) && Ordered(ms) && |v| == |b| && i <= |b|
    ensures var r := MergedFrom(b, ms, v, i); Holds(r.0, r.1)
    decreases |b| - i
  {
    if i < |b| {
      var g := Group(b, ms, v, i);
      MergedUnfold(b, ms, v, i);
      GroupHolds(b, ms, v, i);
      MergedHolds(b, ms, v, i + g.2);
      var rest := MergedFrom(b, ms, v, i + g.2);
      var q :| i <= q < i + g.2 && g.1 == ms[q];
      JoinHolds(g.0, g.1, rest.0, rest.1);
    }
  }

  lemma JoinHolds(h: Limit, m: int, rb: seq<Limit>, rm: seq<int>)
    requires Inside(h, m) && Holds(rb, rm)
    ensures Holds([h] + rb, [m] + rm)
  {
    var b, ms := [h] + rb, [m] + rm;
    forall j
      ensures HoldsAt(b, ms, j)
    {
      if 1 <= j < |b| {
        assert b[j] == rb[j - 1] && ms[j] == rm[j - 1];
        assert HoldsAt(rb, rm, j - 1);
      }
    }
  }

  /** Merging loses no minimum: every minimum from i on lies inside some
      merged bound. */
  lemma {:induction false} MergedCovers(b: seq<Limit>, ms: seq<int>, v: seq<real>, i: nat)
    requires Holds(b, ms) && Ordered(ms) && |v| == |b| && i <= |b|
    ensures forall j :: i <= j < |b| ==> Covered(MergedFrom(b, ms, v, i).0, ms[j])
    decreases |b| - i
  {
    if i < |b| {
      var g := Group(b, ms, v, i);
      MergedUnfold(b, ms, v, i);
      GroupHolds(b, ms, v, i);
      MergedCovers(b, ms, v, i + g.2);
      var rest := MergedFrom(b, ms, v, i + g.2);
      JoinCovers(g.0, rest.0, ms, i, i + g.2, |b|);
    }
  }

  lemma JoinCovers(h: Limit, rest: seq<Limit>, ms: seq<int>, i: int, n: int, m: int)
    requires 0 <= i <= n <= m <= |ms|
    requires forall j :: i <= j < n ==> Inside(h, ms[j])
    requires forall j :: n <= j < m ==> Covered(rest, ms[j])
    ensures forall j :: i <= j < m ==> Covered([h] + rest, ms[j])
  {
    var r := [h] + rest;
    forall j | i <= j < m
      ensures Covered(r, ms[j])
    {
      if j < n {
        assert Inside(r[0], ms[j]);
      } else {
        assert Covered(rest, ms[j]);
        var g :| 0 <= g < |rest| && Inside(rest[g], ms[j]);
        assert r[g + 1] == rest[g];
        assert Inside(r[g + 1], ms[j]);
      }
    }
  }

  /** The inner merge loop: the group that starts at bound i. */
  method ReachFrom(b: seq<Limit>, i: int) returns (cur: Limit, mc: int)
    requires 0 <= i < |b|
    ensures (cur, mc) == Reach(b, i, b[i], 1)
  {
    cur := b[i];
    mc := 1;
    while i + mc < |b| && !(cur.max <= b[i + mc].min)
      invariant 1 <= mc && i + mc <= |b| && Reach(b, i, cur, mc) == Reach(b, i, b[i], 1)
      decreases |b| - i - mc
    {
      cur := Limit(cur.min, b[i + mc].max);
      mc := mc + 1;
    }
  }

  /** The lowest of the minima i to i + mc, by data value. */
  method LowestOf(y: seq<real>, ms: seq<int>, i: int, mc: int) returns (lo: int)
    requires 0 <= i && 0 <= mc && i + mc < |ms| && InData(ms, |y|)
    ensures lo == ms[Lowest(Values(y, ms), i, i + mc)]
  {
    ghost var v := Values(y, ms);
    lo := ms[i];
    var j := 1;
    while j <= mc
      invariant 1 <= j <= mc + 1 && lo == ms[Lowest(v, i, i + j - 1)]
    {
      if y[ms[i + j]] < y[lo] {
        lo := ms[i + j];
      }
      j := j + 1;
    }
  }

  /** One pass of the merge loop: the group that starts at bound i, with
      merged bound `cur` over `mc` bounds and lowest minimum `lo`, goes
      after the groups merged so far, and the merge goes on at bound j. */
  lemma MergeGroup(b: seq<Limit>, ms: seq<int>, v: seq<real>, i: nat, cur: Limit, mc: nat, lo: int,
                   b2: seq<Limit>, ms2: seq<int>, full: (seq<Limit>, seq<int>), j: nat, b3: seq<Limit>, ms3: seq<int>)
    requires |ms| == |b| == |v| && i < |b|
    requires (cur, mc) == Reach(b, i, b[i], 1) && lo == ms[Lowest(v, i, i + mc - 1)]
    requires full.0 == b2 + MergedFrom(b, ms, v, i).0 && full.1 == ms2 + MergedFrom(b, ms, v, i).1
    requires j == i + mc && b3 == b2 + [cur] && ms3 == ms2 + [lo]
    ensures i < j <= |b|
    ensures full.0 == b3 + MergedFrom(b, ms, v, j).0 && full.1 == ms3 + MergedFrom(b, ms, v, j).1
  {
    var rest := MergedFrom(b, ms, v, j);
    assert MergedFrom(b, ms, v, i) == ([cur] + rest.0, [lo] + rest.1);
    assert b2 + [cur] + rest.0 == b2 + ([cur] + rest.0);
    assert ms2 + [lo] + rest.1 == ms2 + ([lo] + rest.1);
  }

  /** One pass of the outer merge loop, from bound i: the groups merged so
      far, `b2` and `ms2`, gain the group that starts at bound i, and the
      loop goes on past it. */
  method MergeNext(b: seq<Limit>, ms: seq<int>, y: seq<real>, ghost v: seq<real>, i: nat,
                   b2: seq<Limit>, ms2: seq<int>, ghost full: (seq<Limit>, seq<int>))
    returns (j: nat, b3: seq<Limit>, ms3: seq<int>)
    requires |ms| == |b| && InData(ms, |y|) && v == Values(y, ms) && i < |b|
    requires full.0 == b2 + MergedFrom(b, ms, v, i).0 && full.1 == ms2 + MergedFrom(b, ms, v, i).1
    ensures i < j <= |b|
    ensures full.0 == b3 + MergedFrom(b, ms, v, j).0 && full.1 == ms3 + MergedFrom(b, ms, v, j).1
  {
    var cur, mc := ReachFrom(b, i);
    var lo := LowestOf(y, ms, i, mc - 1);
    j, b3, ms3 := i + mc, b2 + [cur], ms2 + [lo];
    MergeGroup(b, ms, v, i, cur, mc, lo, b2, ms2, full, j, b3, ms3);
  }

  /** `find_minima`'s merge of overlapping bounds, for more than one
      bound, with lone bounds kept. */
  method MergeBounds(b: seq<Limit>, ms: seq<int>, y: seq<real>) returns (b2: seq<Limit>, ms2: seq<int>)
    requires |ms| == |b| && InData(ms, |y|)
    ensures (b2, ms2) == if |b| > 1 then MergedFrom(b, ms, Values(y, ms), 0) else (b, ms)
  {
    if |b| <= 1 {
      return b, ms;
    }
    ghost var v := Values(y, ms);
    ghost var full := MergedFrom(b, ms, v, 0);
    b2, ms2 := [], [];
    var i := 0;
    while i < |b|
      invariant 0 <= i <= |b|
      invariant full.0 == b2 + MergedFrom(b, ms, v, i).0 && full.1 == ms2 + MergedFrom(b, ms, v, i).1
      decreases |b| - i
    {
      i, b2, ms2 := MergeNext(b, ms, y, v, i, b2, ms2, full);
    }
    assert b2 + [] == b2 && ms2 + [] == ms2;
  }

  /** The merge as the source writes it: three bounds, the first two
      overlapping and the third apart, around the minima 2, 4 and 8. The
      merge keeps only the merged bound, so minimum 8 lies in no bound and
      is lost, while the merge that keeps lone bounds keeps it. */
  lemma MergeDropsMinimum(v: seq<real>)
    requires |v| == 3
    ensures var b, ms := [Limit(0, 4), Limit(3, 6), Limit(8, 9)], [2, 4, 8];
      var w := MergedAsWritten(b, ms, v, 0);
      (forall g :: 0 <= g < |w.0| ==> !Inside(w.0[g], 8)) && 8 !in w.1 &&
      MergedFrom(b, ms, v, 0).0 == [Limit(0, 6), Limit(8, 9)]
  {
    var b, ms := [Limit(0, 4), Limit(3, 6), Limit(8, 9)], [2, 4, 8];
    assert Reach(b, 0, b[0], 1) == (Limit(0, 6), 2);
    assert Reach(b, 2, b[2], 1) == (Limit(8, 9), 1);
    assert MergedAsWritten(b, ms, v, 2) == ([], []);
    assert MergedFrom(b, ms, v, 2).0 == [Limit(8, 9)];
  }

  // ---- relaxing a bound ----

  /** `relax_bound`'s walk of the left end: the end at `mn`, after a step
      that gave left slope `sl`, steps right while each step's slope stays
      below 1.05 times the one before, and steps back when it lands on the
      minimum. Slope(a, b) is the absolute slope between points a and b;
      at a == b it is 0/0, a NaN, and the comparison fails, so the walk
      stops at the far end at the latest. */
  function LeftMove(mn: int, mx: int, index: int, sl: real, slope: (int, int) -> real): (r: int)
    requires mn < mx
    ensures mn <= r <= mx
    decreases mx - mn
  {
    var m := mn + 1;
    if m == index then mn
    else if m < mx && slope(m, mx) < sl * 1.05 then LeftMove(m, mx, index, slope(m, mx), slope)
    else m
  }

  /** The same walk for the right end, stepping left. */
  function RightMove(mn: int, mx: int, index: int, sr: real, slope: (int, int) -> real): (r: int)
    requires mn < mx
    ensures mn <= r <= mx
    decreases mx - mn
  {
    var m := mx - 1;
    if m == index then mx
    else if mn < m && slope(mn, m) < sr * 1.05 then RightMove(mn, m, index, slope(mn, m), slope)
    else m
  }

  /** `relax_bound` as the source writes it: a bound narrower than 5
      points or touching either end of the data stays; otherwise the end
      with the flatter one-step slope moves inwards, one step before its
      walk starts and without looking at the minimum there. */
  function RelaxAsWritten(b: Limit, index: int, n: int, slope: (int, int) -> real): Limit {
    if b.max - b.min < 5 || b.min == 0 || b.max == n - 1 then b
    else if slope(b.min + 1, b.max) < slope(b.min, b.max - 1) then
      Limit(LeftMove(b.min + 1, b.max, index, slope(b.min + 1, b.max), slope), b.max)
    else
      Limit(b.min, RightMove(b.min, b.max - 1, index, slope(b.min, b.max - 1), slope))
  }

  /** `relax_bound` with the minimum looked at after the first step too,
      as after every later one. */
  function Relax(b: Limit, index: int, n: int, slope: (int, int) -> real): Limit {
    if b.max - b.min < 5 || b.min == 0 || b.max == n - 1 then b
    else if slope(b.min + 1, b.max) < slope(b.min, b.max - 1) then
      if b.min + 1 == index then b
      else Limit(LeftMove(b.min + 1, b.max, index, slope(b.min + 1, b.max), slope), b.max)
    else
      if b.max - 1 == index then b
      else Limit(b.min, RightMove(b.min, b.max - 1, index, slope(b.min, b.max - 1), slope))
  }

  lemma {:induction false} LeftMoveStops(mn: int, mx: int, index: int, sl: real, slope: (int, int) -> real)
    requires mn < index <= mx
    ensures LeftMove(mn, mx, index, sl, slope) < index
    decreases mx - mn
  {
    var m := mn + 1;
    if m != index && m < mx && slope(m, mx) < sl * 1.05 {
      LeftMoveStops(m, mx, index, slope(m, mx), slope);
    }
  }

  lemma {:induction false} RightMoveStops(mn: int, mx: int, index: int, sr: real, slope: (int, int) -> real)
    requires mn <= index < mx
    ensures index < RightMove(mn, mx, index, sr, slope)
    decreases mx - mn
  {
    var m := mx - 1;
    if m != index && mn < m && slope(mn, m) < sr * 1.05 {
      RightMoveStops(mn, m, index, slope(mn, m), slope);
    }
  }

  /** The relaxed bound lies within the bound, moves only one end, and
      still holds its minimum when the minimum lies strictly inside or
      the bound touches an end of the data. */
  lemma RelaxHolds(b: Limit, index: int, n: int, slope: (int, int) -> real)
    requires b.min == 0 || b.max == n - 1 || b.min < index < b.max
    ensures var r := Relax(b, index, n, slope);
      b.min <= r.min && r.max <= b.max && (r.min == b.min || r.max == b.max) &&
      (b.min <= index <= b.max ==> r.min <= index <= r.max)
  {
    if !(b.max - b.min < 5 || b.min == 0 || b.max == n - 1) {
      if slope(b.min + 1, b.max) < slope(b.min, b.max - 1) {
        if b.min + 1 != index {
          LeftMoveStops(b.min + 1, b.max, index, slope(b.min + 1, b.max), slope);
        }
      } else if b.max - 1 != index {
        RightMoveStops(b.min, b.max - 1, index, slope(b.min, b.max - 1), slope);
      }
    }
  }

  /** `relax_bound` as written lets the bound pass its minimum: the bound
      1..10 around minimum 2, with the left slope the flatter one, moves
      its left end to 3. */
  lemma RelaxPassesMinimum()
    ensures var slope := (a: int, c: int) => if a == 2 then 0.0 else 1.0;
      var r := RelaxAsWritten(Limit(1, 10), 2, 20, slope);
      r == Limit(3, 10) && !(r.min <= 2 <= r.max) &&
      Relax(Limit(1, 10), 2, 20, slope) == Limit(1, 10)
  {
    var slope := (a: int, c: int) => if a == 2 then 0.0 else 1.0;
    assert LeftMove(2, 10, 2, 0.0, slope) == 3;
  }

  /** `relax_bound`, with its two stepping loops, on a bound around the
      minimum at `index`. */
  method RelaxBound(b: Limit, index: int, n: int, slope: (int, int) -> real) returns (r: Limit)
    ensures r == Relax(b, index, n, slope)
  {
    r := b;
    if b.max - b.min < 5 || b.min == 0 || b.max == n - 1 {
      return;
    }
    var sl := slope(b.min + 1, b.max);
    var sr := slope(b.min, b.max - 1);
    if sl < sr {
      if b.min + 1 == index {
        return;
      }
      var mn := b.min + 1;
      var stop := false;
      while !stop
        invariant b.min <= mn <= b.max
        invariant !stop ==> mn < b.max && LeftMove(mn, b.max, index, sl, slope) == Relax(b, index, n, slope).min
        invariant stop ==> mn == Relax(b, index, n, slope).min
        decreases if stop then 0 else b.max - mn + 1
      {
        var s := sl * 1.05;
        mn := mn + 1;
        if mn == index {
          mn := mn - 1;
          stop := true;
        } else if mn == b.max {
          stop := true;
        } else {
          sl := slope(mn, b.max);
          stop := !(sl < s);
        }
      }
      r := Limit(mn, b.max);
    } else {
      if b.max - 1 == index {
        return;
      }
      var mx := b.max - 1;
      var stop := false;
      while !stop
        invariant b.min <= mx <= b.max
        invariant !stop ==> b.min < mx && RightMove(b.min, mx, index, sr, slope) == Relax(b, index, n, slope).max
        invariant stop ==> mx == Relax(b, index, n, slope).max
        decreases if stop then 0 else mx - b.min + 1
      {
        var s := sr * 1.05;
        mx := mx - 1;
        if mx == index {
          mx := mx + 1;
          stop := true;
        } else if mx == b.min {
          stop := true;
        } else {
          sr := slope(b.min, mx);
          stop := !(sr < s);
        }
      }
      r := Limit(b.min, mx);
    }
  }

  /** The relax loop of `find_minima`: every bound relaxed around its
      minimum. */
  method RelaxAll(bs: seq<Limit>, ms: seq<int>, n: int, slope: (int, int) -> real) returns (r: seq<Limit>)
    requires |bs| == |ms|
    ensures |r| == |bs| && forall i :: 0 <= i < |bs| ==> r[i] == Relax(bs[i], ms[i], n, slope)
  {
    r := bs;
    var i := 0;
    while i < |ms|
      invariant 0 <= i <= |ms| && |r| == |bs|
      invariant forall j :: 0 <= j < i ==> r[j] == Relax(bs[j], ms[j], n, slope)
      invariant forall j :: i <= j < |bs| ==> r[j] == bs[j]
    {
      var nb := RelaxBound(r[i], ms[i], n, slope);
      r := r[i := nb];
      i := i + 1;
    }
  }

  // ---- the prominence filter ----

  /** The largest of the first k prominences. */
  function MaxTo(ps: seq<real>, k: nat): (m: real)
    requires 0 < k <= |ps|
    ensures (forall j :: 0 <= j < k ==> ps[j] <= m) && exists j :: 0 <= j < k && ps[j] == m
  {
    if k == 1 then ps[0]
    else
      var m := MaxTo(ps, k - 1);
      if m < ps[k - 1] then ps[k - 1] else m
  }

  /** The largest prominence. */
  function MaxOf(ps: seq<real>): real
    requires |ps| > 0
  {
    MaxTo(ps, |ps|)
  }

  /** `std::max_element` over the prominences. */
  method MaxElement(ps: seq<real>) returns (m: real)
    requires |ps| > 0
    ensures m == MaxOf(ps)
  {
    m := ps[0];
    var i := 1;
    while i < |ps|
      invariant 1 <= i <= |ps| && m == MaxTo(ps, i)
    {
      m := if m < ps[i] then ps[i] else m;
      i := i + 1;
    }
  }

  /** The threshold is relative to the largest prominence: for a factor
      in (0, 1] the most prominent minimum passes it, and for a factor
      above 1 none does when the largest prominence is positive. */
  lemma ThresholdRelative(ps: seq<real>, f: real)
    requires |ps| > 0 && f > 0.0
    ensures 0.0 <= MaxOf(ps) && f <= 1.0 ==> exists k :: 0 <= k < |ps| && ps[k] >= f * MaxOf(ps)
    ensures 0.0 < MaxOf(ps) && f > 1.0 ==> forall k :: 0 <= k < |ps| ==> ps[k] < f * MaxOf(ps)
  {
    var m := MaxOf(ps);
    var t := f * m;
    if 0.0 <= m && f <= 1.0 {
      var k :| 0 <= k < |ps| && ps[k] == m;
      ScaledDown(f, m, t);
    }
    if 0.0 < m && f > 1.0 {
      ScaledUp(f, m, t);
    }
  }

  lemma ScaledDown(f: real, m: real, t: real)
    requires 0.0 < f <= 1.0 && 0.0 <= m && t == f * m
    ensures t <= m
  {
    assert m - f * m == (1.0 - f) * m;
  }

  lemma ScaledUp(f: real, m: real, t: real)
    requires f > 1.0 && 0.0 < m && t == f * m
    ensures m < t
  {
    assert f * m - m == (f - 1.0) * m;
  }

  /** The filter's state: the minima, bounds and prominences as the
      filter updates them, the kept minima and bounds, and the fault when
      the source's code would read outside a vector. */
  datatype Sweep = Sweep(ms: seq<int>, bs: seq<Limit>, ps: seq<real>, fm: seq<int>, fb: seq<Limit>,
                         fault: Option<PeakError>)

  /** What the filter works from: the bounds before relaxing, the
      threshold, the index the next-neighbour test compares with, the
      number of data points, the slope and the prominence of a bound
      around a minimum. */
  datatype Env = Env(orig: seq<Limit>, thr: real, last: int, n: int,
                     slope: (int, int) -> real, prom: (Limit, int) -> real)

  predicate Shaped(st: Sweep, e: Env) {
    |st.ms| == |st.bs| == |st.ps| == |e.orig| && |st.fm| == |st.fb|
  }

  /** The merge of a dropped minimum i into its left neighbour: the
      neighbour's bound becomes the two original bounds joined and
      relaxed; the last kept minimum and bound are overwritten, the
      minimum with the smaller of the two indices; the neighbour's
      prominence is recomputed, and it is kept when it now passes the
      threshold it failed before. Without a kept minimum the source reads
      an empty vector. */
  function PrevMerged(st: Sweep, i: nat, e: Env): (r: Sweep)
    requires Shaped(st, e) && 0 < i < |st.ms|
    ensures Shaped(r, e) && r.ms == st.ms
  {
    var nb := Relax(Limit(e.orig[i - 1].min, e.orig[i].max), st.ms[i - 1], e.n, e.slope);
    if st.fm == [] then st.(bs := st.bs[i - 1 := nb], fault := Some(EmptyBack))
    else
      var fm := st.fm[|st.fm| - 1 := if st.ms[i - 1] < st.ms[i] then st.ms[i - 1] else st.ms[i]];
      var fb := st.fb[|st.fb| - 1 := nb];
      var np := e.prom(nb, st.ms[i - 1]);
      var st2 := st.(bs := st.bs[i - 1 := nb], ps := st.ps[i - 1 := np], fm := fm, fb := fb);
      if st.ps[i - 1] < e.thr && e.thr < np then st2.(fm := fm + [st.ms[i - 1]], fb := fb + [nb])
      else st2
  }

  /** The merge of a dropped minimum i into its right neighbour: the
      neighbour's bound becomes the two original bounds joined and
      relaxed, its minimum the smaller of the two indices, and its
      prominence is recomputed. */
  function NextMerged(st: Sweep, i: nat, e: Env): (r: Sweep)
    requires Shaped(st, e) && i + 1 < |st.ms|
    ensures Shaped(r, e) && r.fm == st.fm && r.fb == st.fb && r.fault == st.fault
  {
    var nb := Relax(Limit(e.orig[i].min, e.orig[i + 1].max), st.ms[i + 1], e.n, e.slope);
    var m := if st.ms[i] < st.ms[i + 1] then st.ms[i] else st.ms[i + 1];
    st.(ms := st.ms[i + 1 := m], bs := st.bs[i + 1 := nb], ps := st.ps[i + 1 := e.prom(nb, m)])
  }

  /** The filter's pass over minimum i: a minimum at or above the
      threshold is kept; one below it is merged into its left neighbour
      when their bounds touch, and, unless i is `last`, into its right
      neighbour when those bounds touch, where a right neighbour past the
      last minimum is read outside the vector. After a fault nothing
      changes. */
  function Filtered(st: Sweep, i: nat, e: Env): (r: Sweep)
    requires Shaped(st, e) && i < |st.ms|
    ensures Shaped(r, e)
  {
    if st.fault.Some? then st
    else if st.ps[i] >= e.thr then st.(fm := st.fm + [st.ms[i]], fb := st.fb + [st.bs[i]])
    else
      var s1 := if i != 0 && st.bs[i - 1].max == st.bs[i].min then PrevMerged(st, i, e) else st;
      if s1.fault.Some? || i == e.last then s1
      else if i + 1 >= |st.ms| then s1.(fault := Some(PastEnd))
      else if s1.bs[i].max == s1.bs[i + 1].min then NextMerged(s1, i, e)
      else s1
  }

  /** The filter after its passes over the first k minima. */
  function FilterTo(st: Sweep, e: Env, k: nat): (r: Sweep)
    requires Shaped(st, e) && k <= |st.ms|
    ensures Shaped(r, e)
  {
    if k == 0 then st
    else Filtered(FilterTo(st, e, k - 1), k - 1, e)
  }

  /** The merge into the left neighbour, on the state's vectors. */
  method PrevMerge(st: Sweep, i: nat, e: Env) returns (r: Sweep)
    requires Shaped(st, e) && 0 < i < |st.ms|
    ensures r == PrevMerged(st, i, e)
  {
    var nb := RelaxBound(Limit(e.orig[i - 1].min, e.orig[i].max), st.ms[i - 1], e.n, e.slope);
    r := st.(bs := st.bs[i - 1 := nb]);
    if r.fm == [] {
      r := r.(fault := Some(EmptyBack));
      return;
    }
    var lower := if r.ms[i - 1] < r.ms[i] then r.ms[i - 1] else r.ms[i];
    r := r.(fm := r.fm[|r.fm| - 1 := lower], fb := r.fb[|r.fb| - 1 := nb]);
    var prev := r.ps[i - 1];
    r := r.(ps := r.ps[i - 1 := e.prom(nb, r.ms[i - 1])]);
    if prev < e.thr && e.thr < r.ps[i - 1] {
      r := r.(fm := r.fm + [r.ms[i - 1]], fb := r.fb + [nb]);
    }
  }

  /** The merge into the right neighbour, on the state's vectors. */
  method NextMerge(st: Sweep, i: nat, e: Env) returns (r: Sweep)
    requires Shaped(st, e) && i + 1 < |st.ms|
    ensures r == NextMerged(st, i, e)
  {
    var nb := RelaxBound(Limit(e.orig[i].min, e.orig[i + 1].max), st.ms[i + 1], e.n, e.slope);
    r := st.(bs := st.bs[i + 1 := nb]);
    r := r.(ms := r.ms[i + 1 := if r.ms[i] < r.ms[i + 1] then r.ms[i] else r.ms[i + 1]]);
    r := r.(ps := r.ps[i + 1 := e.prom(nb, r.ms[i + 1])]);
  }

  /** The filter's pass over minimum i, on the state's vectors. */
  method FilterPass(st: Sweep, i: nat, e: Env) returns (r: Sweep)
    requires Shaped(st, e) && i < |st.ms|
    ensures r == Filtered(st, i, e)
  {
    r := st;
    if r.fault.Some? {
      return;
    }
    if r.ps[i] >= e.thr {
      r := r.(fm := r.fm + [r.ms[i]], fb := r.fb + [r.bs[i]]);
      return;
    }
    if i != 0 && r.bs[i - 1].max == r.bs[i].min {
      r := PrevMerge(r, i, e);
      if r.fault.Some? {
        return;
      }
    }
    if i != e.last {
      if i + 1 >= |r.ms| {
        r := r.(fault := Some(PastEnd));
        return;
      }
      if r.bs[i].max == r.bs[i + 1].min {
        r := NextMerge(r, i, e);
      }
    }
  }

  /** The prominence filter's loop over every minimum. */
  method FilterAll(st: Sweep, e: Env) returns (r: Sweep)
    requires Shaped(st, e)
    ensures r == FilterTo(st, e, |st.ms|)
  {
    r := st;
    var i := 0;
    while i < |st.ms|
      invariant 0 <= i <= |st.ms| && r == FilterTo(st, e, i)
    {
      r := FilterPass(r, i, e);
      i := i + 1;
    }
  }

  /** Every entry of s is in the set. */
  predicate Within(s: seq<int>, m: set<int>) {
    forall j :: 0 <= j < |s| ==> s[j] in m
  }

  lemma FilteredWithin(st: Sweep, i: nat, e: Env, m: set<int>)
    requires Shaped(st, e) && i < |st.ms| && Within(st.ms, m) && Within(st.fm, m)
    ensures var r := Filtered(st, i, e); Within(r.ms, m) && Within(r.fm, m)
  {
  }

  /** The filter keeps nothing but minima it was given: the minima it
      updates and the ones it keeps stay in the set the minima started
      in. */
  lemma {:induction false} FilterWithin(st: Sweep, e: Env, k: nat, m: set<int>)
    requires Shaped(st, e) && k <= |st.ms| && Within(st.ms, m) && Within(st.fm, m)
    ensures var r := FilterTo(st, e, k); Within(r.ms, m) && Within(r.fm, m)
  {
    if k > 0 {
      FilterWithin(st, e, k - 1, m);
      FilteredWithin(FilterTo(st, e, k - 1), k - 1, e, m);
    }
  }

  /** Compared with the index of the last minimum, the right-neighbour
      comparison never reads past the minima: the only fault left is the
      replacement of a kept minimum when none has been kept. */
  lemma {:induction false} FilterNeverPastEnd(st: Sweep, e: Env, k: nat)
    requires Shaped(st, e) && k <= |st.ms| && e.last == |e.orig| - 1 && st.fault.None?
    ensures var f := FilterTo(st, e, k).fault; f.None? || f == Some(EmptyBack)
  {
    if k > 0 {
      FilterNeverPastEnd(st, e, k - 1);
    }
  }

  /** The minima among the first k at or above the threshold, with their
      bounds. */
  function Passing(ms: seq<int>, bs: seq<Limit>, ps: seq<real>, thr: real, k: nat): (r: (seq<int>, seq<Limit>))
    requires k <= |ms| == |bs| == |ps|
    ensures |r.0| == |r.1| <= k
  {
    if k == 0 then ([], [])
    else
      var p := Passing(ms, bs, ps, thr, k - 1);
      if ps[k - 1] >= thr then (p.0 + [ms[k - 1]], p.1 + [bs[k - 1]]) else p
  }

  /** No two neighbouring bounds touch. */
  ghost predicate Apartness(bs: seq<Limit>) {
    forall j :: 0 < j < |bs| ==> bs[j - 1].max != bs[j].min
  }

  /** When no neighbouring bounds touch, the filter merges nothing and
      only keeps the minima at or above the threshold, without a fault. */
  lemma {:induction false} FilterPlain(st: Sweep, e: Env, k: nat)
    requires Shaped(st, e) && k <= |st.ms| && e.last == |e.orig| - 1
    requires st.fault.None? && Apartness(st.bs)
    ensures var p := Passing(st.ms, st.bs, st.ps, e.thr, k);
      FilterTo(st, e, k) == st.(fm := st.fm + p.0, fb := st.fb + p.1)
  {
    if k > 0 {
      FilterPlain(st, e, k - 1);
      var p := Passing(st.ms, st.bs, st.ps, e.thr, k - 1);
      var i := k - 1;
      if i != 0 {
        assert st.bs[i - 1].max != st.bs[i].min;
      }
      if i != e.last {
        assert st.bs[i].max != st.bs[i + 1].min;
      }
      assert st.fm + p.0 + [st.ms[i]] == st.fm + (p.0 + [st.ms[i]]);
      assert st.fb + p.1 + [st.bs[i]] == st.fb + (p.1 + [st.bs[i]]);
    }
  }

  /** The right-neighbour comparison as the source writes it compares i with
      the number of data points less one rather than the number of minima
      less one: two minima, the second below the threshold and its bound
      apart from the first's, on ten points, where that comparison reads a third
      bound that does not exist; compared with the last minimum it keeps
      the first minimum. */
  lemma FilterReadsPastEnd(slope: (int, int) -> real, prom: (Limit, int) -> real)
    ensures var bs := [Limit(0, 4), Limit(5, 8)];
      var st := Sweep([2, 6], bs, [1.0, 0.2], [], [], None);
      FilterTo(st, Env(bs, 0.5, 9, 10, slope, prom), 2).fault == Some(PastEnd) &&
      FilterTo(st, Env(bs, 0.5, 1, 10, slope, prom), 2) == st.(fm := [2], fb := [Limit(0, 4)])
  {
    var bs := [Limit(0, 4), Limit(5, 8)];
    var st := Sweep([2, 6], bs, [1.0, 0.2], [], [], None);
    var e := Env(bs, 0.5, 9, 10, slope, prom);
    assert FilterTo(st, e, 1) == st.(fm := [2], fb := [Limit(0, 4)]);
    var e2 := e.(last := 1);
    assert FilterTo(st, e2, 1) == st.(fm := [2], fb := [Limit(0, 4)]);
  }

  // ---- find_minima ----

  /** The prominence of every minimum within its relaxed bound. */
  method Prominences(bs: seq<Limit>, ms: seq<int>, prom: (Limit, int) -> real) returns (ps: seq<real>)
    requires |bs| == |ms|
    ensures |ps| == |ms| && forall i :: 0 <= i < |ms| ==> ps[i] == prom(bs[i], ms[i])
  {
    ps := [];
    var i := 0;
    while i < |ms|
      invariant 0 <= i <= |ms| && |ps| == i
      invariant forall j :: 0 <= j < i ==> ps[j] == prom(bs[j], ms[j])
    {
      ps := ps + [prom(bs[i], ms[i])];
      i := i + 1;
    }
  }

  /** The candidates after the spacing filter: increasing, each one a
      candidate, and none only when the data has no candidate. */
  method SpacedCandidates(y: seq<real>, spacing: nat) returns (sp: seq<int>)
    requires |y| >= 3
    ensures Increasing(sp) && InData(sp, |y|) && forall e :: e in sp ==> IsCandidate(y, e)
    ensures sp == [] <==> forall i :: !IsCandidate(y, i)
  {
    var c := Candidates(y);
    sp := Spaced(c, spacing);
    if spacing > 0 {
      SpacedShape(c, spacing, |c|);
    }
    if c != [] {
      assert c[0] in c;
    }
    assert sp != [] ==> sp[0] in sp;
    forall j | 0 <= j < |sp|
      ensures 0 <= sp[j] < |y|
    {
      assert sp[j] in sp;
    }
  }

  /** The bounds of the spaced candidates, merged: at least one bound,
      one per merged minimum, the minima increasing and taken from the
      candidates. */
  method BoundAndMerge(y: seq<real>, sp: seq<int>) returns (mb: seq<Limit>, mm: seq<int>)
    requires |y| >= 3 && sp != [] && Increasing(sp) && InData(sp, |y|)
    ensures |mb| == |mm| > 0 && Increasing(mm) && forall e :: e in mm ==> e in sp
  {
    var bs, yy := BoundAll(y, sp);
    mb, mm := MergeBounds(bs, sp, yy);
    if |bs| > 1 {
      forall j
        ensures HoldsAt(bs, sp, j)
      {
        if 0 <= j < |bs| {
          assert bs[j].min <= sp[j] <= bs[j].max;
        }
      }
      OrderedIff(sp);
      MergedMinima(bs, sp, Values(yy, sp), 0);
      OrderedIff(mm);
      forall e | e in mm
        ensures e in sp
      {
        assert Among(sp, 0, e);
        var q :| 0 <= q < |sp| && e == sp[q];
      }
    }
  }

  /** The prominence stage, with the threshold relative to the largest
      prominence and the right-neighbour comparison against the last minimum:
      it keeps nothing but merged minima, and never reads past the
      minima. */
  method ProminenceFilter(mb: seq<Limit>, mm: seq<int>, n: int, minProm: real,
                          slope: (int, int) -> real, prom: (Limit, int) -> real)
    returns (r: Result<seq<int>, PeakError>)
    requires |mb| == |mm| > 0
    ensures r.Ok? ==> forall e :: e in r.value ==> e in mm
    ensures r != Err(PastEnd) && r != Err(InvalidArgument)
  {
    var rb := RelaxAll(mb, mm, n, slope);
    var ps := Prominences(rb, mm, prom);
    var top := MaxElement(ps);
    var e := Env(mb, minProm * top, |mm| - 1, n, slope, prom);
    var st0 := Sweep(mm, rb, ps, [], [], None);
    var st := FilterAll(st0, e);
    FilterNeverPastEnd(st0, e, |mm|);
    FilterWithin(st0, e, |mm|, set j | j in mm);
    if st.fault.Some? {
      assert st.fault == Some(EmptyBack);
      return Err(EmptyBack);
    }
    forall v | v in st.fm
      ensures v in mm
    {
      var j :| 0 <= j < |st.fm| && st.fm[j] == v;
    }
    return Ok(st.fm);
  }

  /** `math::find_minima`: an error when x and y differ in size, no
      minima for fewer than three points or without a candidate, and
      otherwise candidates of y only; without the prominence filter the
      minima are increasing and there is one whenever there was a
      candidate. The data is taken by value: the endpoint raises act on
      the finder's own copy. */
  method FindMinima(x: seq<real>, y: seq<real>, spacing: nat, minProm: real,
                    slope: (int, int) -> real, prom: (Limit, int) -> real)
    returns (r: Result<seq<int>, PeakError>)
    ensures r == Err(InvalidArgument) <==> |x| != |y|
    ensures |x| == |y| && (|x| < 3 || forall i :: !IsCandidate(y, i)) ==> r == Ok([])
    ensures r.Ok? ==> forall e :: e in r.value ==> IsCandidate(y, e)
    ensures |x| == |y| && minProm <= 0.0 ==> r.Ok? && Increasing(r.value)
    ensures |x| == |y| >= 3 && minProm <= 0.0 && (exists i :: IsCandidate(y, i)) ==> r.Ok? && r.value != []
    ensures r != Err(PastEnd)
  {
    if |x| != |y| {
      return Err(InvalidArgument);
    }
    if |x| < 3 {
      return Ok([]);
    }
    var sp := SpacedCandidates(y, spacing);
    if sp == [] {
      return Ok([]);
    }
    var mb, mm := BoundAndMerge(y, sp);
    if minProm > 0.0 {
      r := ProminenceFilter(mb, mm, |y|, minProm, slope, prom);
    } else {
      r := Ok(mm);
    }
  }
}
