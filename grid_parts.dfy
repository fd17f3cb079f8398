// Pieces shared by the three generations of the voxel grid: the axes and
// their setup, the conversion between coordinates and bins, the members'
// records, the uid-based filters the removal operations apply to the
// member lists, and the bounding box of the atoms' bins.

module GridParts {
  import opened Voxels
  import opened Wrappers

  /** The exceptions the grids throw. */
  datatype GridError = InvalidOperation | Unexpected | OutOfBounds | SizeError

  /** One axis of the grid: its extent and its number of bins. */
  datatype Axis = Axis(min: real, max: real, bins: int)

  datatype Axes = Axes(x: Axis, y: Axis, z: Axis)

  /** A point in space. */
  datatype Vec = Vec(x: real, y: real, z: real)

  function Side(a: Axis): real { a.max - a.min }

  /** Whether `a` is strictly longer than both other axes of `axes`. */
  predicate Longest(axes: Axes, a: Axis) {
    (a == axes.x && Side(a) > Side(axes.y) && Side(a) > Side(axes.z)) ||
    (a == axes.y && Side(a) > Side(axes.x) && Side(a) > Side(axes.z)) ||
    (a == axes.z && Side(a) > Side(axes.x) && Side(a) > Side(axes.y))
  }

  /** The cubic option of the setup: a strictly longest axis is copied to
      the other two; without one the axes are kept. */
  function Cubic(a: Axes): (r: Axes)
    ensures forall l :: Longest(a, l) ==> r == Axes(l, l, l)
    ensures r != a ==> r == Axes(r.x, r.x, r.x) && Longest(a, r.x)
  {
    var xs := Side(a.x);
    var ys := Side(a.y);
    var zs := Side(a.z);
    if xs > ys && xs > zs then Axes(a.x, a.x, a.x)
    else if ys > xs && ys > zs then Axes(a.y, a.y, a.y)
    else if zs > xs && zs > ys then Axes(a.z, a.z, a.z)
    else a
  }

  /** Making the grid cubic twice is making it cubic once. */
  lemma CubicIdempotent(a: Axes)
    ensures Cubic(Cubic(a)) == Cubic(a)
  {
    var r := Cubic(a);
    if l :| Longest(a, l) {
      assert r == Axes(l, l, l);
      assert forall m :: !Longest(r, m);
    } else {
      assert r == a;
    }
  }

  /** An axis with fewer than `minBins` bins is replaced by one of
      `minBins` bins centred on zero. */
  function Widened(a: Axis, minBins: int, width: real): Axis {
    if a.bins < minBins then Axis(-(minBins as real * width / 2.0), minBins as real * width / 2.0, minBins) else a
  }

  function TotalBins(a: Axes): int { a.x.bins * a.y.bins * a.z.bins }

  /** The axes the setup allocates, or the size error for a grid of more
      than 32e9 cells. */
  function Setup(a: Axes, cubic: bool, minBins: int, width: real): (r: Result<Axes, GridError>)
    ensures r.Ok? ==> TotalBins(r.value) <= 32000000000
    ensures r.Err? ==> r.error == SizeError
    ensures minBins == 0 ==> (r.Err? <==> TotalBins(if cubic then Cubic(a) else a) > 32000000000)
    ensures r.Ok? && minBins != 0 ==> r.value.x.bins >= minBins && r.value.y.bins >= minBins && r.value.z.bins >= minBins
    ensures r.Ok? && minBins == 0 ==> r.value == (if cubic then Cubic(a) else a)
    ensures r.Ok? && minBins != 0 ==> forall l :: Longest(a, l) && cubic && l.bins >= minBins ==> r.value == Axes(l, l, l)
  {
    var c := if cubic then Cubic(a) else a;
    var m := if minBins != 0 then Axes(Widened(c.x, minBins, width), Widened(c.y, minBins, width), Widened(c.z, minBins, width)) else c;
    if TotalBins(m) > 32000000000 then Err(SizeError) else Ok(m)
  }

  /** Rounding half away from zero. */
  function Round(r: real): (n: int)
    ensures n as real - r <= 0.5 && r - n as real <= 0.5
    ensures r >= 0.0 ==> n >= 0
  {
    if r >= 0.0 then (r + 0.5).Floor else -((-r + 0.5).Floor)
  }

  lemma RoundInt(n: int)
    ensures Round(n as real) == n
  {
  }

  /** The bin a coordinate falls in, relative to the axis' minimum. */
  function Bin(v: real, a: Axis, width: real): int
    requires width != 0.0
  {
    Round((v - a.min) / width)
  }

  function ToBins(v: Vec, a: Axes, width: real): Loc
    requires width != 0.0
  {
    Loc(Bin(v.x, a.x, width), Bin(v.y, a.y, width), Bin(v.z, a.z, width))
  }

  function Clamp(n: int, lo: int, hi: int): int
    requires lo <= hi
  {
    if n < lo then lo else if n > hi then hi else n
  }

  /** The bin of a coordinate, clamped into the grid: inside the grid on
      every axis, and the bin itself when that is inside. */
  function ToBinsBounded(v: Vec, a: Axes, width: real): (l: Loc)
    requires width != 0.0 && a.x.bins >= 1 && a.y.bins >= 1 && a.z.bins >= 1
    ensures 0 <= l.x < a.x.bins && 0 <= l.y < a.y.bins && 0 <= l.z < a.z.bins
    ensures var b := ToBins(v, a, width);
      (0 <= b.x < a.x.bins ==> l.x == b.x) && (0 <= b.y < a.y.bins ==> l.y == b.y) && (0 <= b.z < a.z.bins ==> l.z == b.z)
    ensures var b := ToBins(v, a, width);
      (b.x < 0 ==> l.x == 0) && (b.x >= a.x.bins ==> l.x == a.x.bins - 1)
  {
    var b := ToBins(v, a, width);
    Loc(Clamp(b.x, 0, a.x.bins - 1), Clamp(b.y, 0, a.y.bins - 1), Clamp(b.z, 0, a.z.bins - 1))
  }

  /** The coordinate of bin i of an axis. */
  function ToCoord(a: Axis, width: real, i: int): real {
    a.min + i as real * width
  }

  function ToXyz(a: Axes, width: real, l: Loc): Vec {
    Vec(ToCoord(a.x, width, l.x), ToCoord(a.y, width, l.y), ToCoord(a.z, width, l.z))
  }

  /** Neighbouring bins are exactly one cell width apart. */
  lemma CoordStep(a: Axis, width: real, i: int)
    ensures ToCoord(a, width, i + 1) - ToCoord(a, width, i) == width
  {
  }

  /** The coordinate of a bin lies in that bin. */
  lemma {:induction false} BinOfCoord(a: Axis, width: real, i: int)
    requires width != 0.0
    ensures Bin(ToCoord(a, width, i), a, width) == i
  {
    calc {
      (ToCoord(a, width, i) - a.min) / width;
      (i as real * width) / width;
      i as real;
    }
    RoundInt(i);
  }

  lemma XyzRoundTrip(a: Axes, width: real, l: Loc)
    requires width != 0.0
    ensures ToBins(ToXyz(a, width, l), a, width) == l
  {
    BinOfCoord(a.x, width, l.x);
    BinOfCoord(a.y, width, l.y);
    BinOfCoord(a.z, width, l.z);
  }

  // ---- members ----

  /** A member of the grid: the uid of its atom or water, its bin, its
      radius in bins and whether its volume is currently expanded. */
  datatype Member = Member(uid: int, loc: Loc, radius: real, expanded: bool)

  /** The members `[0, n)` whose uid is not in `s`, in their order. */
  function KeptTo(ms: seq<Member>, s: set<int>, n: int): (r: seq<Member>)
    requires 0 <= n <= |ms|
    ensures |r| <= n
    ensures forall m :: m in r ==> m in ms && m.uid !in s
    ensures forall i :: 0 <= i < n && ms[i].uid !in s ==> ms[i] in r
  {
    if n == 0 then [] else
    var r := KeptTo(ms, s, n - 1);
    if ms[n - 1].uid in s then r else r + [ms[n - 1]]
  }

  /** The members `[0, n)` whose uid is in `s`, in their order. */
  function TakenTo(ms: seq<Member>, s: set<int>, n: int): (r: seq<Member>)
    requires 0 <= n <= |ms|
    ensures |r| + |KeptTo(ms, s, n)| == n
    ensures forall m :: m in r ==> m in ms && m.uid in s
    ensures forall i :: 0 <= i < n && ms[i].uid in s ==> ms[i] in r
  {
    if n == 0 then [] else
    var r := TakenTo(ms, s, n - 1);
    if ms[n - 1].uid in s then r + [ms[n - 1]] else r
  }

  function Kept(ms: seq<Member>, s: set<int>): seq<Member> { KeptTo(ms, s, |ms|) }

  function Taken(ms: seq<Member>, s: set<int>): seq<Member> { TakenTo(ms, s, |ms|) }

  function Uids(ms: seq<Member>): (s: set<int>)
    ensures forall m :: m in ms ==> m.uid in s
    ensures forall u :: u in s ==> exists m :: m in ms && m.uid == u
  {
    set m | m in ms :: m.uid
  }

  predicate DistinctUids(ms: seq<Member>) {
    forall i, j :: 0 <= i < j < |ms| ==> ms[i].uid != ms[j].uid
  }

  // ---- removal by mask ----

  /** The uid map the mask removal builds: each member's uid mapped to
      its mask entry, a later member overwriting an earlier one. */
  function MaskMapTo(ms: seq<Member>, mask: seq<bool>, n: int): map<int, bool>
    requires 0 <= n <= |ms| && |ms| <= |mask|
  {
    if n == 0 then map[] else MaskMapTo(ms, mask, n - 1)[ms[n - 1].uid := mask[n - 1]]
  }

  function Trues(mask: seq<bool>, n: int): nat
    requires 0 <= n <= |mask|
  {
    if n == 0 then 0 else Trues(mask, n - 1) + (if mask[n - 1] then 1 else 0)
  }

  /** The uids a map marks for removal. */
  function Marked(m: map<int, bool>): set<int> {
    set u | u in m && m[u]
  }

  /** The members `[0, n)` whose mask entry is false, in their order. */
  function UnmaskedTo(ms: seq<Member>, mask: seq<bool>, n: int): seq<Member>
    requires 0 <= n <= |ms| && |ms| <= |mask|
  {
    if n == 0 then [] else UnmaskedTo(ms, mask, n - 1) + (if mask[n - 1] then [] else [ms[n - 1]])
  }

  /** The members `[0, n)` whose mask entry is true, in their order. */
  function MaskedTo(ms: seq<Member>, mask: seq<bool>, n: int): seq<Member>
    requires 0 <= n <= |ms| && |ms| <= |mask|
  {
    if n == 0 then [] else MaskedTo(ms, mask, n - 1) + (if mask[n - 1] then [ms[n - 1]] else [])
  }

  lemma {:induction false} MaskedCount(ms: seq<Member>, mask: seq<bool>, n: int)
    requires 0 <= n <= |ms| && |ms| <= |mask|
    ensures |MaskedTo(ms, mask, n)| == Trues(mask, n)
  {
    if n > 0 {
      MaskedCount(ms, mask, n - 1);
    }
  }

  /** With distinct uids the map marks a member's uid exactly when its
      mask entry is set. */
  lemma {:induction false} MaskMapMarks(ms: seq<Member>, mask: seq<bool>, n: int)
    requires 0 <= n <= |ms| && |ms| <= |mask| && DistinctUids(ms)
    ensures forall i :: 0 <= i < n ==> ms[i].uid in MaskMapTo(ms, mask, n) && MaskMapTo(ms, mask, n)[ms[i].uid] == mask[i]
    ensures forall u :: u in MaskMapTo(ms, mask, n) ==> exists i :: 0 <= i < n && ms[i].uid == u
  {
    if n > 0 {
      MaskMapMarks(ms, mask, n - 1);
      var m := MaskMapTo(ms, mask, n - 1);
      assert MaskMapTo(ms, mask, n) == m[ms[n - 1].uid := mask[n - 1]];
      assert forall i :: 0 <= i < n - 1 ==> ms[i].uid != ms[n - 1].uid;
    }
  }

  /** Filtering by a set that holds a member's uid exactly when its mask
      entry is set keeps the unmasked members. */
  lemma {:induction false} KeptByMask(ms: seq<Member>, mask: seq<bool>, s: set<int>, n: int)
    requires 0 <= n <= |ms| && |ms| <= |mask|
    requires forall i :: 0 <= i < n ==> (ms[i].uid in s <==> mask[i])
    ensures KeptTo(ms, s, n) == UnmaskedTo(ms, mask, n)
  {
    if n > 0 {
      KeptByMask(ms, mask, s, n - 1);
      var b := ms[n - 1].uid in s;
      assert b == mask[n - 1];
      if b {
        assert KeptTo(ms, s, n) == KeptTo(ms, s, n - 1);
      } else {
        assert KeptTo(ms, s, n) == KeptTo(ms, s, n - 1) + [ms[n - 1]];
      }
    }
  }

  /** Filtering by such a set takes the masked members. */
  lemma {:induction false} TakenByMask(ms: seq<Member>, mask: seq<bool>, s: set<int>, n: int)
    requires 0 <= n <= |ms| && |ms| <= |mask|
    requires forall i :: 0 <= i < n ==> (ms[i].uid in s <==> mask[i])
    ensures TakenTo(ms, s, n) == MaskedTo(ms, mask, n)
  {
    if n > 0 {
      TakenByMask(ms, mask, s, n - 1);
      var b := ms[n - 1].uid in s;
      assert b == mask[n - 1];
      if b {
        assert TakenTo(ms, s, n) == TakenTo(ms, s, n - 1) + [ms[n - 1]];
      } else {
        assert TakenTo(ms, s, n) == TakenTo(ms, s, n - 1);
      }
    }
  }

  /** The mask removal's filters with distinct uids: the survivors are the
      unmasked members and the removed ones the masked members, as many
      as the mask has set entries. */
  lemma MaskRemoval(ms: seq<Member>, mask: seq<bool>)
    requires |ms| <= |mask| && DistinctUids(ms)
    ensures Kept(ms, Marked(MaskMapTo(ms, mask, |ms|))) == UnmaskedTo(ms, mask, |ms|)
    ensures Taken(ms, Marked(MaskMapTo(ms, mask, |ms|))) == MaskedTo(ms, mask, |ms|)
    ensures |Taken(ms, Marked(MaskMapTo(ms, mask, |ms|)))| == Trues(mask, |ms|)
  {
    var m := MaskMapTo(ms, mask, |ms|);
    MaskMapMarks(ms, mask, |ms|);
    assert forall i :: 0 <= i < |ms| ==> (ms[i].uid in Marked(m) <==> mask[i]);
    KeptByMask(ms, mask, Marked(m), |ms|);
    TakenByMask(ms, mask, Marked(m), |ms|);
    MaskedCount(ms, mask, |ms|);
  }

  /** The map and the count of set entries the mask removal builds, in
      one pass over the members. */
  method MarkMask(ms: seq<Member>, mask: seq<bool>) returns (m: map<int, bool>, total: nat)
    requires |ms| <= |mask|
    ensures m == MaskMapTo(ms, mask, |ms|) && total == Trues(mask, |ms|)
  {
    m := map[];
    total := 0;
    var index := 0;
    while index < |ms|
      invariant 0 <= index <= |ms|
      invariant m == MaskMapTo(ms, mask, index) && total == Trues(mask, index)
    {
      if mask[index] {
        m := m[ms[index].uid := true];
        total := total + 1;
      } else {
        m := m[ms[index].uid := false];
      }
      index := index + 1;
    }
  }

  // ---- bounding box of the atoms' bins ----

  function Lower(acc: int, v: int): int { if acc > v then v else acc }

  /** The upper bound update as written: it raises the bound only past a
      bin strictly above it. */
  function RaiseAsWritten(acc: int, v: int): int { if acc < v then v + 1 else acc }

  /** The upper bound update that keeps it above every bin seen. */
  function Raise(acc: int, v: int): int { if acc < v + 1 then v + 1 else acc }

  function MinTo(ms: seq<Member>, n: int, start: Loc): (l: Loc)
    requires 0 <= n <= |ms|
    ensures forall i :: 0 <= i < n ==> l.x <= ms[i].loc.x && l.y <= ms[i].loc.y && l.z <= ms[i].loc.z
    ensures l.x <= start.x && l.y <= start.y && l.z <= start.z
  {
    if n == 0 then start else
    var m := MinTo(ms, n - 1, start);
    var v := ms[n - 1].loc;
    Loc(Lower(m.x, v.x), Lower(m.y, v.y), Lower(m.z, v.z))
  }

  function MaxToAsWritten(ms: seq<Member>, n: int): Loc
    requires 0 <= n <= |ms|
  {
    if n == 0 then Loc(0, 0, 0) else
    var m := MaxToAsWritten(ms, n - 1);
    var v := ms[n - 1].loc;
    Loc(RaiseAsWritten(m.x, v.x), RaiseAsWritten(m.y, v.y), RaiseAsWritten(m.z, v.z))
  }

  function MaxTo(ms: seq<Member>, n: int): (l: Loc)
    requires 0 <= n <= |ms|
    ensures forall i :: 0 <= i < n ==> ms[i].loc.x < l.x && ms[i].loc.y < l.y && ms[i].loc.z < l.z
    ensures l.x >= 0 && l.y >= 0 && l.z >= 0
  {
    if n == 0 then Loc(0, 0, 0) else
    var m := MaxTo(ms, n - 1);
    var v := ms[n - 1].loc;
    Loc(Raise(m.x, v.x), Raise(m.y, v.y), Raise(m.z, v.z))
  }

  /** Whether a bin lies in a grid of `bins` bins per axis. */
  predicate InGrid(l: Loc, bins: Loc) {
    0 <= l.x < bins.x && 0 <= l.y < bins.y && 0 <= l.z < bins.z
  }

  /** Whether every member's bin lies in the grid. */
  predicate AllIn(ms: seq<Member>, bins: Loc) {
    forall m :: m in ms ==> InGrid(m.loc, bins)
  }

  lemma {:induction false} MaxWithin(ms: seq<Member>, n: int, bins: Loc)
    requires 0 <= n <= |ms| && AllIn(ms, bins) && bins.x >= 0 && bins.y >= 0 && bins.z >= 0
    ensures MaxTo(ms, n).x <= bins.x && MaxTo(ms, n).y <= bins.y && MaxTo(ms, n).z <= bins.z
  {
    if n > 0 {
      MaxWithin(ms, n - 1, bins);
    }
  }

  /** `bounding_box_index` as written: the error for a grid without atoms,
      else the componentwise minimum (from the bin counts down) and the
      upper bound the as-written update computes. */
  method BoundingBoxIndexAsWritten(ms: seq<Member>, bins: Loc) returns (r: Result<(Loc, Loc), GridError>)
    ensures ms == [] ==> r == Err(InvalidOperation)
    ensures ms != [] ==> r == Ok((MinTo(ms, |ms|, bins), MaxToAsWritten(ms, |ms|)))
  {
    if |ms| == 0 {
      return Err(InvalidOperation);
    }
    var lo, hi := bins, Loc(0, 0, 0);
    for n := 0 to |ms|
      invariant lo == MinTo(ms, n, bins) && hi == MaxToAsWritten(ms, n)
    {
      var v := ms[n].loc;
      lo := Loc(Lower(lo.x, v.x), Lower(lo.y, v.y), Lower(lo.z, v.z));
      hi := Loc(RaiseAsWritten(hi.x, v.x), RaiseAsWritten(hi.y, v.y), RaiseAsWritten(hi.z, v.z));
    }
    r := Ok((lo, hi));
  }

  /** Two atoms in bins 3 and 4 of every axis: the as-written bound stops
      at 4 and leaves the second atom outside `[min, max)`. */
  method BoundingBoxMissesLast() returns (max: Loc)
    ensures max == Loc(4, 4, 4)
    ensures !(Loc(4, 4, 4).x < max.x)
  {
    var ms := [Member(0, Loc(3, 3, 3), 1.0, false), Member(1, Loc(4, 4, 4), 1.0, false)];
    var r := BoundingBoxIndexAsWritten(ms, Loc(10, 10, 10));
    max := r.value.1;
  }

  /** `bounding_box_index` with the upper bound raised to one past every
      atom's bin: every atom lies in `[min, max)`, and both bounds stay
      inside the grid. */
  method BoundingBoxIndex(ms: seq<Member>, bins: Loc) returns (r: Result<(Loc, Loc), GridError>)
    ensures ms == [] <==> r == Err(InvalidOperation)
    ensures r.Ok? ==> forall i :: 0 <= i < |ms| ==>
      r.value.0.x <= ms[i].loc.x < r.value.1.x && r.value.0.y <= ms[i].loc.y < r.value.1.y && r.value.0.z <= ms[i].loc.z < r.value.1.z
    ensures r.Ok? && AllIn(ms, bins) ==>
      r.value.0.x >= 0 && r.value.0.y >= 0 && r.value.0.z >= 0 && r.value.1.x <= bins.x && r.value.1.y <= bins.y && r.value.1.z <= bins.z
  {
    if |ms| == 0 {
      return Err(InvalidOperation);
    }
    var lo, hi := bins, Loc(0, 0, 0);
    for n := 0 to |ms|
      invariant lo == MinTo(ms, n, bins) && hi == MaxTo(ms, n)
    {
      var v := ms[n].loc;
      lo := Loc(Lower(lo.x, v.x), Lower(lo.y, v.y), Lower(lo.z, v.z));
      hi := Loc(Raise(hi.x, v.x), Raise(hi.y, v.y), Raise(hi.z, v.z));
    }
    r := Ok((lo, hi));
    if AllIn(ms, bins) {
      MaxWithin(ms, |ms|, bins);
      MinWithin(ms, |ms|, bins);
    }
  }

  lemma {:induction false} MinWithin(ms: seq<Member>, n: int, bins: Loc)
    requires 0 < n <= |ms| && AllIn(ms, bins)
    ensures MinTo(ms, n, bins).x >= 0 && MinTo(ms, n, bins).y >= 0 && MinTo(ms, n, bins).z >= 0
  {
    if n > 1 {
      MinWithin(ms, n - 1, bins);
    }
  }

  // ---- the grid's contents and its member lists ----

  /** A snapshot of `bins.x` by `bins.y` by `bins.z` cells. */
  predicate Fits(g: Cells, bins: Loc) { Shape(g, bins.x, bins.y, bins.z) }

  /** The cells and the volume counter. */
  datatype Content = Content(cells: Cells, volume: int)

  /** The first position of a member with the given uid, if any. */
  function Find(ms: seq<Member>, uid: int): (r: Option<nat>)
    ensures r.None? <==> forall i :: 0 <= i < |ms| ==> ms[i].uid != uid
    ensures r.Some? ==> r.value < |ms| && ms[r.value].uid == uid && forall i :: 0 <= i < r.value ==> ms[i].uid != uid
  {
    if |ms| == 0 then None
    else if ms[0].uid == uid then Some(0)
    else match Find(ms[1..], uid)
      case None => None
      case Some(p) => Some(p + 1)
  }

  /** Filtering by a set holding every uid takes every member. */
  lemma {:induction false} TakenAll(ms: seq<Member>, s: set<int>, n: int)
    requires 0 <= n <= |ms| && forall m :: m in ms ==> m.uid in s
    ensures TakenTo(ms, s, n) == ms[..n] && KeptTo(ms, s, n) == []
  {
    if n > 0 {
      TakenAll(ms, s, n - 1);
      assert ms[..n] == ms[..n - 1] + [ms[n - 1]];
    }
  }

  /** Every radius is non-negative. */
  predicate Sized(ms: seq<Member>) {
    forall m :: m in ms ==> m.radius >= 0.0
  }

  /** Changing one member's expansion flag keeps the members inside the
      grid and their radii non-negative. */
  lemma Reflag(ms: seq<Member>, i: int, b: bool, bins: Loc)
    requires 0 <= i < |ms|
    ensures AllIn(ms, bins) ==> AllIn(ms[i := ms[i].(expanded := b)], bins)
    ensures Sized(ms) ==> Sized(ms[i := ms[i].(expanded := b)])
  {
    var t := ms[i := ms[i].(expanded := b)];
    assert forall m :: m in t ==> m == t[i] || m in ms;
  }

  /** The members with the expansion flag of the first `n` set to `b`. */
  function Flagged(ms: seq<Member>, n: int, b: bool): (r: seq<Member>)
    requires 0 <= n <= |ms|
    ensures |r| == |ms|
    ensures forall j :: 0 <= j < |ms| ==> r[j] == if j < n then ms[j].(expanded := b) else ms[j]
  {
    seq(|ms|, j requires 0 <= j < |ms| => if j < n then ms[j].(expanded := b) else ms[j])
  }
}
