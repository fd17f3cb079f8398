/** The voxel machinery shared by the three generations of the occupancy
    grid: the cell states, the box around a member clipped to the grid, the
    rules by which an expansion or deflation rewrites one cell, and the
    triple loop that applies a rule to every cell of a box and counts the
    cells it changed. */
module Voxels {
  /** The state of one cell. The hydration grid calls the water states
      `H_CENTER` and `H_AREA`; they are `WCenter` and `WArea` here. */
  datatype Cell = Empty | ACenter | AArea | Volume | WCenter | WArea

  /** A bin index on the three axes. */
  datatype Loc = Loc(x: int, y: int, z: int)

  /** A snapshot of the cells, indexed `[i][j][k]`. */
  type Cells = seq<seq<seq<Cell>>>

  function Min(a: int, b: int): int { if a <= b then a else b }
  function Max(a: int, b: int): int { if a >= b then a else b }

  /** The squared distance, in bins, between `c` and cell (i, j, k). */
  function Dist2(c: Loc, i: int, j: int, k: int): (d: int)
    ensures d >= 0
  {
    (c.x - i) * (c.x - i) + (c.y - j) * (c.y - j) + (c.z - k) * (c.z - k)
  }

  /** `std::ceil` of a real. */
  function Ceil(r: real): (n: int)
    ensures n as real >= r && (n - 1) as real < r
  {
    -((-r).Floor)
  }

  lemma CeilMonotone(r: real, s: real)
    requires r <= s
    ensures Ceil(r) <= Ceil(s)
  {
  }

  /** Half-open index ranges on the three axes. */
  datatype Box = Box(xlo: int, xhi: int, ylo: int, yhi: int, zlo: int, zhi: int)

  predicate InBox(b: Box, i: int, j: int, k: int) {
    b.xlo <= i < b.xhi && b.ylo <= j < b.yhi && b.zlo <= k < b.zhi
  }

  /** The box `[c - reach, c + reach]` on each axis, cut to the grid
      `[0, n)`: `max(c - reach, 0)` to `min(c + reach + 1, n)`. */
  function Clip(c: Loc, reach: int, nx: int, ny: int, nz: int): (b: Box)
    ensures forall i, j, k :: InBox(b, i, j, k) <==>
      0 <= i < nx && 0 <= j < ny && 0 <= k < nz &&
      c.x - reach <= i <= c.x + reach && c.y - reach <= j <= c.y + reach && c.z - reach <= k <= c.z + reach
  {
    Box(Max(c.x - reach, 0), Min(c.x + reach + 1, nx),
        Max(c.y - reach, 0), Min(c.y + reach + 1, ny),
        Max(c.z - reach, 0), Min(c.z + reach + 1, nz))
  }

  /** A box the loops can run over: no range runs backwards and every
      index lies in the grid. */
  predicate Proper(b: Box, nx: int, ny: int, nz: int) {
    0 <= b.xlo <= b.xhi <= nx && 0 <= b.ylo <= b.yhi <= ny && 0 <= b.zlo <= b.zhi <= nz
  }

  /** A box around a centre inside the grid with a non-negative reach is
      proper. */
  lemma ClipProper(c: Loc, reach: int, nx: int, ny: int, nz: int)
    requires 0 <= c.x < nx && 0 <= c.y < ny && 0 <= c.z < nz && reach >= 0
    ensures Proper(Clip(c, reach, nx, ny, nz), nx, ny, nz)
  {
  }

  /** A box with a larger reach around the same centre contains the box
      with the smaller one. */
  lemma ClipGrows(c: Loc, r: int, s: int, nx: int, ny: int, nz: int, i: int, j: int, k: int)
    requires r <= s && InBox(Clip(c, r, nx, ny, nz), i, j, k)
    ensures InBox(Clip(c, s, nx, ny, nz), i, j, k)
  {
  }

  /** The boxes around one centre inside the grid are nested as their
      reaches are. */
  lemma ClipNested(c: Loc, r: int, s: int, nx: int, ny: int, nz: int)
    requires 0 <= c.x < nx && 0 <= c.y < ny && 0 <= c.z < nz && 0 <= r <= s
    ensures Nested(Clip(c, r, nx, ny, nz), Clip(c, s, nx, ny, nz))
  {
  }

  // ---- how one cell is rewritten ----

  /** What an expansion or a deflation does to one cell, as a function of
      the cell's state and its squared distance from the member's centre.
      The radii are squared and in bins.
      `Fill` is the atom expansion of `source/grid/Grid.cpp`: inside `inner` an
      empty or volume cell becomes atom area, between `inner` and `outer`
      an empty cell becomes volume; both count the cells that were empty.
      `Paint` turns the empty cells inside `r2` into `paint`.
      `Erase` empties the cells inside `r2` that hold `target` (or volume,
      when `volumeToo`). */
  datatype Rule =
    | Fill(inner: real, outer: real)
    | Paint(r2: real, paint: Cell, counted: bool)
    | Erase(r2: real, target: Cell, volumeToo: bool, counted: bool)

  function Apply(rule: Rule, s: Cell, d: int): Cell {
    match rule
    case Fill(inner, outer) =>
      if d as real <= inner then (if s == Empty || s == Volume then AArea else s)
      else if d as real <= outer then (if s == Empty then Volume else s)
      else s
    case Paint(r2, paint, _) =>
      if d as real <= r2 && s == Empty then paint else s
    case Erase(r2, target, volumeToo, _) =>
      if d as real <= r2 && (s == target || (volumeToo && s == Volume)) then Empty else s
  }

  /** Whether the rule adds the cell to the counter it returns. */
  predicate Counted(rule: Rule, s: Cell, d: int) {
    match rule
    case Fill(inner, outer) => s == Empty && (d as real <= inner || d as real <= outer)
    case Paint(r2, _, counted) => counted && d as real <= r2 && s == Empty
    case Erase(r2, target, volumeToo, counted) => counted && d as real <= r2 && (s == target || (volumeToo && s == Volume))
  }

  /** A rule that counts counts exactly the cells it changes, except that
      `Fill` also turns volume into atom area without counting it. */
  lemma CountedChanges(rule: Rule, s: Cell, d: int)
    requires !rule.Fill? && (rule.Paint? ==> rule.counted && rule.paint != Empty) && (rule.Erase? ==> rule.counted && rule.target != Empty)
    ensures Counted(rule, s, d) <==> Apply(rule, s, d) != s
  {
  }

  /** `Fill` counts exactly the empty cells it fills. */
  lemma FillCounts(inner: real, outer: real, s: Cell, d: int)
    ensures Counted(Fill(inner, outer), s, d) <==> s == Empty && Apply(Fill(inner, outer), s, d) != Empty
  {
  }

  /** Applying a rule twice is applying it once: a second expansion or
      deflation of the same cells changes nothing. */
  lemma ApplyIdempotent(rule: Rule, s: Cell, d: int)
    requires rule.Paint? ==> rule.paint != Empty
    ensures Apply(rule, Apply(rule, s, d), d) == Apply(rule, s, d)
  {
  }

  // ---- snapshots and tallies ----

  /** The cell (i, j, k) of a snapshot, empty outside it. */
  function At(g: Cells, i: int, j: int, k: int): Cell {
    if 0 <= i < |g| && 0 <= j < |g[i]| && 0 <= k < |g[i][j]| then g[i][j][k] else Empty
  }

  /** A snapshot with `nx` planes of `ny` rows of `nz` cells. */
  predicate Shape(g: Cells, nx: int, ny: int, nz: int) {
    |g| == nx && forall i :: 0 <= i < |g| ==> |g[i]| == ny && forall j :: 0 <= j < |g[i]| ==> |g[i][j]| == nz
  }

  /** The contents of an array as a snapshot. */
  ghost function Snap(a: array3<Cell>): (g: Cells)
    reads a
    ensures Shape(g, a.Length0, a.Length1, a.Length2)
    ensures forall i, j, k {:trigger g[i][j][k]} :: InArray(a, i, j, k) ==> g[i][j][k] == a[i, j, k]
  {
    seq(a.Length0, i requires 0 <= i < a.Length0 reads a =>
      seq(a.Length1, j requires 0 <= j < a.Length1 reads a =>
        seq(a.Length2, k requires 0 <= k < a.Length2 reads a => a[i, j, k])))
  }

  /** A snapshot of the shape of an array that agrees with it cell by cell
      is its snapshot. */
  lemma SnapIs(a: array3<Cell>, h: Cells)
    requires Shape(h, a.Length0, a.Length1, a.Length2)
    requires forall i, j, k :: InArray(a, i, j, k) ==> h[i][j][k] == a[i, j, k]
    ensures Snap(a) == h
  {
    var g := Snap(a);
    forall i | 0 <= i < |h|
      ensures g[i] == h[i]
    {
      forall j | 0 <= j < |h[i]|
        ensures g[i][j] == h[i][j]
      {
        assert forall k :: 0 <= k < |h[i][j]| ==> InArray(a, i, j, k);
      }
    }
  }

  /** Two snapshots of the same shape that agree cell by cell are equal. */
  lemma CellsEq(g: Cells, h: Cells, nx: int, ny: int, nz: int)
    requires Shape(g, nx, ny, nz) && Shape(h, nx, ny, nz)
    requires forall i, j, k :: InCells(g, i, j, k) ==> g[i][j][k] == h[i][j][k]
    ensures g == h
  {
    forall i | 0 <= i < |g|
      ensures g[i] == h[i]
    {
      forall j | 0 <= j < |g[i]|
        ensures g[i][j] == h[i][j]
      {
        assert forall k :: 0 <= k < |g[i][j]| ==> InCells(g, i, j, k);
      }
    }
  }

  /** Whether (i, j, k) indexes a cell of the snapshot. */
  predicate InCells(g: Cells, i: int, j: int, k: int) {
    0 <= i < |g| && 0 <= j < |g[i]| && 0 <= k < |g[i][j]|
  }

  /** The snapshot after a sweep: the rule applied to the cells of the
      box, every other cell as it was. */
  function Swept(g: Cells, rule: Rule, c: Loc, b: Box): (h: Cells)
    ensures forall nx, ny, nz :: Shape(g, nx, ny, nz) ==> Shape(h, nx, ny, nz)
    ensures forall i, j, k {:trigger h[i][j][k]} :: 0 <= i < |g| && 0 <= j < |g[i]| && 0 <= k < |g[i][j]| ==>
      0 <= i < |h| && 0 <= j < |h[i]| && 0 <= k < |h[i][j]| && h[i][j][k] == if InBox(b, i, j, k) then Apply(rule, g[i][j][k], Dist2(c, i, j, k)) else g[i][j][k]
  {
    seq(|g|, i requires 0 <= i < |g| =>
      seq(|g[i]|, j requires 0 <= j < |g[i]| =>
        seq(|g[i][j]|, k requires 0 <= k < |g[i][j]| =>
          if InBox(b, i, j, k) then Apply(rule, g[i][j][k], Dist2(c, i, j, k)) else g[i][j][k])))
  }

  /** The snapshot with cell `l` set to `s`. */
  function Put(g: Cells, l: Loc, s: Cell): (h: Cells)
    requires InCells(g, l.x, l.y, l.z)
    ensures forall nx, ny, nz :: Shape(g, nx, ny, nz) ==> Shape(h, nx, ny, nz)
    ensures forall i, j, k {:trigger h[i][j][k]} :: 0 <= i < |g| && 0 <= j < |g[i]| && 0 <= k < |g[i][j]| ==>
      0 <= i < |h| && 0 <= j < |h[i]| && 0 <= k < |h[i][j]| && h[i][j][k] == if Loc(i, j, k) == l then s else g[i][j][k]
  {
    g[l.x := g[l.x][l.y := g[l.x][l.y][l.z := s]]]
  }

  /** Writing a cell's old state back undoes a write. */
  lemma PutBack(g: Cells, l: Loc, s: Cell)
    requires InCells(g, l.x, l.y, l.z)
    ensures Put(Put(g, l, s), l, g[l.x][l.y][l.z]) == g
  {
    var a := Put(g, l, s);
    assert a[l.x][l.y][l.z := g[l.x][l.y][l.z]] == g[l.x][l.y];
    assert a[l.x][l.y := g[l.x][l.y]] == g[l.x];
    assert a[l.x := g[l.x]] == g;
  }

  /** 1 when the rule counts cell (i, j, k) of `g`. */
  function Ind(g: Cells, rule: Rule, c: Loc, i: int, j: int, k: int): nat {
    if Counted(rule, At(g, i, j, k), Dist2(c, i, j, k)) then 1 else 0
  }

  /** The cells the rule counts in row (i, j), columns `[lo, hi)`. */
  function RowTally(g: Cells, rule: Rule, c: Loc, i: int, j: int, lo: int, hi: int): nat
    decreases hi - lo
  {
    if hi <= lo then 0 else RowTally(g, rule, c, i, j, lo, hi - 1) + Ind(g, rule, c, i, j, hi - 1)
  }

  /** The cells the rule counts in plane i, rows `[lo, hi)` of the box. */
  function PlaneTally(g: Cells, rule: Rule, c: Loc, i: int, lo: int, hi: int, b: Box): nat
    decreases hi - lo
  {
    if hi <= lo then 0 else PlaneTally(g, rule, c, i, lo, hi - 1, b) + RowTally(g, rule, c, i, hi - 1, b.zlo, b.zhi)
  }

  /** The cells the rule counts in planes `[lo, hi)` of the box. */
  function BoxTally(g: Cells, rule: Rule, c: Loc, lo: int, hi: int, b: Box): nat
    decreases hi - lo
  {
    if hi <= lo then 0 else BoxTally(g, rule, c, lo, hi - 1, b) + PlaneTally(g, rule, c, hi - 1, b.ylo, b.yhi, b)
  }

  /** The cells the rule counts in the whole box. */
  function Tally(g: Cells, rule: Rule, c: Loc, b: Box): nat {
    BoxTally(g, rule, c, b.xlo, b.xhi, b)
  }

  // ---- the triple loop ----

  predicate InArray(a: array3<Cell>, i: int, j: int, k: int) {
    0 <= i < a.Length0 && 0 <= j < a.Length1 && 0 <= k < a.Length2
  }

  /** The innermost loop: applies the rule to row (i, j) of the box. */
  method SweepRow(a: array3<Cell>, rule: Rule, c: Loc, b: Box, i: int, j: int, ghost g: Cells) returns (n: nat)
    requires Proper(b, a.Length0, a.Length1, a.Length2) && b.xlo <= i < b.xhi && b.ylo <= j < b.yhi
    requires forall k :: b.zlo <= k < b.zhi ==> a[i, j, k] == At(g, i, j, k)
    modifies a
    ensures forall k :: b.zlo <= k < b.zhi ==> a[i, j, k] == Apply(rule, At(g, i, j, k), Dist2(c, i, j, k))
    ensures forall x, y, z :: InArray(a, x, y, z) && !(x == i && y == j && b.zlo <= z < b.zhi) ==> a[x, y, z] == old(a[x, y, z])
    ensures n == RowTally(g, rule, c, i, j, b.zlo, b.zhi)
  {
    n := 0;
    for k := b.zlo to b.zhi
      invariant forall z :: b.zlo <= z < k ==> a[i, j, z] == Apply(rule, At(g, i, j, z), Dist2(c, i, j, z))
      invariant forall x, y, z :: InArray(a, x, y, z) && !(x == i && y == j && b.zlo <= z < k) ==> a[x, y, z] == old(a[x, y, z])
      invariant n == RowTally(g, rule, c, i, j, b.zlo, k)
    {
      var d := (c.x - i) * (c.x - i) + (c.y - j) * (c.y - j) + (c.z - k) * (c.z - k);
      var s := a[i, j, k];
      if Counted(rule, s, d) {
        n := n + 1;
      }
      a[i, j, k] := Apply(rule, s, d);
    }
  }

  /** The middle loop: applies the rule to plane i of the box. */
  method SweepPlane(a: array3<Cell>, rule: Rule, c: Loc, b: Box, i: int, ghost g: Cells) returns (n: nat)
    requires Proper(b, a.Length0, a.Length1, a.Length2) && b.xlo <= i < b.xhi
    requires forall j, k :: b.ylo <= j < b.yhi && b.zlo <= k < b.zhi ==> a[i, j, k] == At(g, i, j, k)
    modifies a
    ensures forall j, k :: b.ylo <= j < b.yhi && b.zlo <= k < b.zhi ==> a[i, j, k] == Apply(rule, At(g, i, j, k), Dist2(c, i, j, k))
    ensures forall x, y, z :: InArray(a, x, y, z) && !(x == i && b.ylo <= y < b.yhi && b.zlo <= z < b.zhi) ==> a[x, y, z] == old(a[x, y, z])
    ensures n == PlaneTally(g, rule, c, i, b.ylo, b.yhi, b)
  {
    n := 0;
    for j := b.ylo to b.yhi
      invariant forall y, k :: b.ylo <= y < j && b.zlo <= k < b.zhi ==> a[i, y, k] == Apply(rule, At(g, i, y, k), Dist2(c, i, y, k))
      invariant forall x, y, z :: InArray(a, x, y, z) && !(x == i && b.ylo <= y < j && b.zlo <= z < b.zhi) ==> a[x, y, z] == old(a[x, y, z])
      invariant n == PlaneTally(g, rule, c, i, b.ylo, j, b)
    {
      var m := SweepRow(a, rule, c, b, i, j, g);
      n := n + m;
    }
  }

  /** The outer loop: applies the rule to each plane of the box. */
  method SweepBox(a: array3<Cell>, rule: Rule, c: Loc, b: Box, ghost g: Cells) returns (n: nat)
    requires Proper(b, a.Length0, a.Length1, a.Length2)
    requires forall x, y, z :: InBox(b, x, y, z) ==> a[x, y, z] == At(g, x, y, z)
    modifies a
    ensures forall x, y, z :: InBox(b, x, y, z) ==> a[x, y, z] == Apply(rule, At(g, x, y, z), Dist2(c, x, y, z))
    ensures forall x, y, z :: InArray(a, x, y, z) && !InBox(b, x, y, z) ==> a[x, y, z] == old(a[x, y, z])
    ensures n == Tally(g, rule, c, b)
  {
    n := 0;
    for i := b.xlo to b.xhi
      invariant forall x, y, z :: b.xlo <= x < i && b.ylo <= y < b.yhi && b.zlo <= z < b.zhi ==> a[x, y, z] == Apply(rule, At(g, x, y, z), Dist2(c, x, y, z))
      invariant forall x, y, z :: InArray(a, x, y, z) && !(b.xlo <= x < i && b.ylo <= y < b.yhi && b.zlo <= z < b.zhi) ==> a[x, y, z] == old(a[x, y, z])
      invariant n == BoxTally(g, rule, c, b.xlo, i, b)
    {
      var m := SweepPlane(a, rule, c, b, i, g);
      n := n + m;
    }
  }

  /** The triple loop of every expansion and deflation: applies the rule
      to each cell of the box, leaves every other cell alone, and returns
      how many cells the rule counted. */
  method Sweep(a: array3<Cell>, rule: Rule, c: Loc, b: Box) returns (n: nat)
    requires Proper(b, a.Length0, a.Length1, a.Length2)
    modifies a
    ensures Snap(a) == Swept(old(Snap(a)), rule, c, b)
    ensures n == Tally(old(Snap(a)), rule, c, b)
  {
    ghost var g := Snap(a);
    n := SweepBox(a, rule, c, b, g);
    ghost var h := Swept(g, rule, c, b);
    forall x, y, z | InArray(a, x, y, z)
      ensures h[x][y][z] == a[x, y, z]
    {
      assert InCells(g, x, y, z);
    }
    SnapIs(a, h);
  }

  /** A fresh array holding the same cells (the copy assignment of the
      grid object). */
  method Copy(src: array3<Cell>) returns (a: array3<Cell>)
    ensures fresh(a) && Snap(a) == Snap(src)
    ensures a.Length0 == src.Length0 && a.Length1 == src.Length1 && a.Length2 == src.Length2
  {
    a := new Cell[src.Length0, src.Length1, src.Length2]((i, j, k) reads src =>
      if 0 <= i < src.Length0 && 0 <= j < src.Length1 && 0 <= k < src.Length2 then src[i, j, k] else Empty);
    SnapIs(a, Snap(src));
  }

  /** Sets one cell. */
  method SetCell(a: array3<Cell>, l: Loc, s: Cell)
    requires InArray(a, l.x, l.y, l.z)
    modifies a
    ensures Snap(a) == Put(old(Snap(a)), l, s)
  {
    ghost var g := Snap(a);
    a[l.x, l.y, l.z] := s;
    SnapIs(a, Put(g, l, s));
  }

  // ---- comparing tallies over nested boxes ----

  lemma {:induction false} RowSplit(g: Cells, r: Rule, c: Loc, i: int, j: int, lo: int, mid: int, hi: int)
    requires lo <= mid <= hi
    ensures RowTally(g, r, c, i, j, lo, hi) == RowTally(g, r, c, i, j, lo, mid) + RowTally(g, r, c, i, j, mid, hi)
    decreases hi - mid
  {
    if mid < hi {
      var h := hi - 1;
      RowSplit(g, r, c, i, j, lo, mid, h);
    }
  }

  lemma {:induction false} RowZero(g: Cells, r: Rule, c: Loc, i: int, j: int, lo: int, hi: int)
    requires forall k :: lo <= k < hi ==> Ind(g, r, c, i, j, k) == 0
    ensures RowTally(g, r, c, i, j, lo, hi) == 0
    decreases hi - lo
  {
    if lo < hi {
      var h := hi - 1;
      RowZero(g, r, c, i, j, lo, h);
    }
  }

  lemma {:induction false} RowSame(g1: Cells, r1: Rule, g2: Cells, r2: Rule, c: Loc, i: int, j: int, lo: int, hi: int)
    requires forall k :: lo <= k < hi ==> Ind(g1, r1, c, i, j, k) == Ind(g2, r2, c, i, j, k)
    ensures RowTally(g1, r1, c, i, j, lo, hi) == RowTally(g2, r2, c, i, j, lo, hi)
    decreases hi - lo
  {
    if lo < hi {
      var h := hi - 1;
      RowSame(g1, r1, g2, r2, c, i, j, lo, h);
    }
  }

  lemma {:induction false} PlaneSplit(g: Cells, r: Rule, c: Loc, i: int, lo: int, mid: int, hi: int, b: Box)
    requires lo <= mid <= hi
    ensures PlaneTally(g, r, c, i, lo, hi, b) == PlaneTally(g, r, c, i, lo, mid, b) + PlaneTally(g, r, c, i, mid, hi, b)
    decreases hi - mid
  {
    if mid < hi {
      var h := hi - 1;
      PlaneSplit(g, r, c, i, lo, mid, h, b);
    }
  }

  lemma {:induction false} PlaneZero(g: Cells, r: Rule, c: Loc, i: int, lo: int, hi: int, b: Box)
    requires forall j :: lo <= j < hi ==> RowTally(g, r, c, i, j, b.zlo, b.zhi) == 0
    ensures PlaneTally(g, r, c, i, lo, hi, b) == 0
    decreases hi - lo
  {
    if lo < hi {
      var h := hi - 1;
      PlaneZero(g, r, c, i, lo, h, b);
    }
  }

  lemma {:induction false} PlaneSame(g1: Cells, r1: Rule, b1: Box, g2: Cells, r2: Rule, b2: Box, c: Loc, i: int, lo: int, hi: int)
    requires forall j :: lo <= j < hi ==> RowTally(g1, r1, c, i, j, b1.zlo, b1.zhi) == RowTally(g2, r2, c, i, j, b2.zlo, b2.zhi)
    ensures PlaneTally(g1, r1, c, i, lo, hi, b1) == PlaneTally(g2, r2, c, i, lo, hi, b2)
    decreases hi - lo
  {
    if lo < hi {
      var h := hi - 1;
      PlaneSame(g1, r1, b1, g2, r2, b2, c, i, lo, h);
    }
  }

  lemma {:induction false} BoxSplit(g: Cells, r: Rule, c: Loc, lo: int, mid: int, hi: int, b: Box)
    requires lo <= mid <= hi
    ensures BoxTally(g, r, c, lo, hi, b) == BoxTally(g, r, c, lo, mid, b) + BoxTally(g, r, c, mid, hi, b)
    decreases hi - mid
  {
    if mid < hi {
      var h := hi - 1;
      BoxSplit(g, r, c, lo, mid, h, b);
    }
  }

  lemma {:induction false} BoxZero(g: Cells, r: Rule, c: Loc, lo: int, hi: int, b: Box)
    requires forall i :: lo <= i < hi ==> PlaneTally(g, r, c, i, b.ylo, b.yhi, b) == 0
    ensures BoxTally(g, r, c, lo, hi, b) == 0
    decreases hi - lo
  {
    if lo < hi {
      var h := hi - 1;
      BoxZero(g, r, c, lo, h, b);
    }
  }

  lemma {:induction false} BoxSame(g1: Cells, r1: Rule, b1: Box, g2: Cells, r2: Rule, b2: Box, c: Loc, lo: int, hi: int)
    requires forall i :: lo <= i < hi ==> PlaneTally(g1, r1, c, i, b1.ylo, b1.yhi, b1) == PlaneTally(g2, r2, c, i, b2.ylo, b2.yhi, b2)
    ensures BoxTally(g1, r1, c, lo, hi, b1) == BoxTally(g2, r2, c, lo, hi, b2)
    decreases hi - lo
  {
    if lo < hi {
      var h := hi - 1;
      BoxSame(g1, r1, b1, g2, r2, b2, c, lo, h);
    }
  }

  /** Box `b1` lies inside box `b2`, neither running backwards. */
  predicate Nested(b1: Box, b2: Box) {
    b2.xlo <= b1.xlo <= b1.xhi <= b2.xhi && b2.ylo <= b1.ylo <= b1.yhi <= b2.yhi && b2.zlo <= b1.zlo <= b1.zhi <= b2.zhi
  }

  /** Inside `b1` the two rules count the same cells of their snapshots;
      in the rest of `b2` the second counts none. */
  ghost predicate Covered(g1: Cells, r1: Rule, b1: Box, g2: Cells, r2: Rule, b2: Box, c: Loc) {
    forall i, j, k :: InBox(b2, i, j, k) ==>
      if InBox(b1, i, j, k) then Ind(g1, r1, c, i, j, k) == Ind(g2, r2, c, i, j, k) else Ind(g2, r2, c, i, j, k) == 0
  }

  lemma RowNest(g1: Cells, r1: Rule, b1: Box, g2: Cells, r2: Rule, b2: Box, c: Loc, i: int, j: int)
    requires Nested(b1, b2) && Covered(g1, r1, b1, g2, r2, b2, c)
    requires b2.xlo <= i < b2.xhi && b2.ylo <= j < b2.yhi
    ensures RowTally(g2, r2, c, i, j, b2.zlo, b2.zhi) ==
      if b1.xlo <= i < b1.xhi && b1.ylo <= j < b1.yhi then RowTally(g1, r1, c, i, j, b1.zlo, b1.zhi) else 0
  {
    if b1.xlo <= i < b1.xhi && b1.ylo <= j < b1.yhi {
      RowSplit(g2, r2, c, i, j, b2.zlo, b1.zlo, b2.zhi);
      RowSplit(g2, r2, c, i, j, b1.zlo, b1.zhi, b2.zhi);
      assert forall k :: b2.zlo <= k < b1.zlo ==> !InBox(b1, i, j, k) && InBox(b2, i, j, k);
      RowZero(g2, r2, c, i, j, b2.zlo, b1.zlo);
      assert forall k :: b1.zhi <= k < b2.zhi ==> !InBox(b1, i, j, k) && InBox(b2, i, j, k);
      RowZero(g2, r2, c, i, j, b1.zhi, b2.zhi);
      assert forall k :: b1.zlo <= k < b1.zhi ==> InBox(b1, i, j, k) && InBox(b2, i, j, k);
      RowSame(g1, r1, g2, r2, c, i, j, b1.zlo, b1.zhi);
    } else {
      assert forall k :: b2.zlo <= k < b2.zhi ==> !InBox(b1, i, j, k) && InBox(b2, i, j, k);
      RowZero(g2, r2, c, i, j, b2.zlo, b2.zhi);
    }
  }

  lemma PlaneNest(g1: Cells, r1: Rule, b1: Box, g2: Cells, r2: Rule, b2: Box, c: Loc, i: int)
    requires Nested(b1, b2) && Covered(g1, r1, b1, g2, r2, b2, c)
    requires b2.xlo <= i < b2.xhi
    ensures PlaneTally(g2, r2, c, i, b2.ylo, b2.yhi, b2) ==
      if b1.xlo <= i < b1.xhi then PlaneTally(g1, r1, c, i, b1.ylo, b1.yhi, b1) else 0
  {
    forall j | b2.ylo <= j < b2.yhi
      ensures RowTally(g2, r2, c, i, j, b2.zlo, b2.zhi) ==
        if b1.xlo <= i < b1.xhi && b1.ylo <= j < b1.yhi then RowTally(g1, r1, c, i, j, b1.zlo, b1.zhi) else 0
    {
      RowNest(g1, r1, b1, g2, r2, b2, c, i, j);
    }
    if b1.xlo <= i < b1.xhi {
      PlaneSplit(g2, r2, c, i, b2.ylo, b1.ylo, b2.yhi, b2);
      PlaneSplit(g2, r2, c, i, b1.ylo, b1.yhi, b2.yhi, b2);
      PlaneZero(g2, r2, c, i, b2.ylo, b1.ylo, b2);
      PlaneZero(g2, r2, c, i, b1.yhi, b2.yhi, b2);
      PlaneSame(g1, r1, b1, g2, r2, b2, c, i, b1.ylo, b1.yhi);
    } else {
      PlaneZero(g2, r2, c, i, b2.ylo, b2.yhi, b2);
    }
  }

  /** Counting over nested boxes: when the two rules count the same cells
      of `b1` and the second counts nothing else in `b2`, the tallies
      agree. */
  lemma TallyNest(g1: Cells, r1: Rule, b1: Box, g2: Cells, r2: Rule, b2: Box, c: Loc)
    requires Nested(b1, b2) && Covered(g1, r1, b1, g2, r2, b2, c)
    ensures Tally(g2, r2, c, b2) == Tally(g1, r1, c, b1)
  {
    forall i | b2.xlo <= i < b2.xhi
      ensures PlaneTally(g2, r2, c, i, b2.ylo, b2.yhi, b2) ==
        if b1.xlo <= i < b1.xhi then PlaneTally(g1, r1, c, i, b1.ylo, b1.yhi, b1) else 0
    {
      PlaneNest(g1, r1, b1, g2, r2, b2, c, i);
    }
    BoxSplit(g2, r2, c, b2.xlo, b1.xlo, b2.xhi, b2);
    BoxSplit(g2, r2, c, b1.xlo, b1.xhi, b2.xhi, b2);
    BoxZero(g2, r2, c, b2.xlo, b1.xlo, b2);
    BoxZero(g2, r2, c, b1.xhi, b2.xhi, b2);
    BoxSame(g1, r1, b1, g2, r2, b2, c, b1.xlo, b1.xhi);
  }

  // ---- a sweep undone by another ----

  /** Rule `d` undoes rule `e` on a cell in state `s` at squared distance
      `dist`: it restores what `e` wrote, counting the cell exactly when `e`
      did, and it leaves the untouched cell alone without counting it. */
  predicate Reverses(e: Rule, d: Rule, s: Cell, dist: int) {
    Apply(d, Apply(e, s, dist), dist) == s && (Counted(d, Apply(e, s, dist), dist) <==> Counted(e, s, dist)) &&
    Apply(d, s, dist) == s && !Counted(d, s, dist)
  }

  /** One cell through a sweep with `e` over `be` and a sweep with `d` over
      a box `bd` containing it. */
  lemma CellRoundTrip(g: Cells, c: Loc, e: Rule, d: Rule, be: Box, bd: Box, i: int, j: int, k: int)
    requires (InBox(be, i, j, k) ==> InBox(bd, i, j, k))
    requires InCells(g, i, j, k) && Reverses(e, d, g[i][j][k], Dist2(c, i, j, k))
    ensures var h := Swept(g, e, c, be);
      InCells(h, i, j, k) &&
      Swept(h, d, c, bd)[i][j][k] == g[i][j][k] &&
      (InBox(bd, i, j, k) ==>
        if InBox(be, i, j, k) then Ind(g, e, c, i, j, k) == Ind(h, d, c, i, j, k)
        else Ind(h, d, c, i, j, k) == 0)
  {
    var h := Swept(g, e, c, be);
    assert h[i][j][k] == if InBox(be, i, j, k) then Apply(e, g[i][j][k], Dist2(c, i, j, k)) else g[i][j][k];
  }

  /** A sweep undone: when `d` undoes `e` on every cell and its box contains
      the box of `e`, the two sweeps in turn give back the snapshot. */
  lemma SweepsUndo(g: Cells, c: Loc, e: Rule, d: Rule, be: Box, bd: Box, nx: int, ny: int, nz: int)
    requires Shape(g, nx, ny, nz) && Nested(be, bd)
    requires forall i, j, k :: InCells(g, i, j, k) ==> Reverses(e, d, g[i][j][k], Dist2(c, i, j, k))
    ensures Swept(Swept(g, e, c, be), d, c, bd) == g
  {
    var back := Swept(Swept(g, e, c, be), d, c, bd);
    forall i, j, k | InCells(g, i, j, k)
      ensures back[i][j][k] == g[i][j][k]
    {
      CellRoundTrip(g, c, e, d, be, bd, i, j, k);
    }
    CellsEq(back, g, nx, ny, nz);
  }

  /** Under the same condition, with the box of `d` inside the grid, `d`
      counts exactly the cells `e` counted. */
  lemma SweepsUndoCount(g: Cells, c: Loc, e: Rule, d: Rule, be: Box, bd: Box, nx: int, ny: int, nz: int)
    requires Shape(g, nx, ny, nz) && Nested(be, bd) && Proper(bd, nx, ny, nz)
    requires forall i, j, k :: InCells(g, i, j, k) ==> Reverses(e, d, g[i][j][k], Dist2(c, i, j, k))
    ensures Tally(Swept(g, e, c, be), d, c, bd) == Tally(g, e, c, be)
  {
    var h := Swept(g, e, c, be);
    forall i, j, k | InBox(bd, i, j, k)
      ensures if InBox(be, i, j, k) then Ind(g, e, c, i, j, k) == Ind(h, d, c, i, j, k) else Ind(h, d, c, i, j, k) == 0
    {
      assert InCells(g, i, j, k);
      CellRoundTrip(g, c, e, d, be, bd, i, j, k);
    }
    TallyNest(g, e, be, h, d, bd, c);
  }

  /** Erasing what a paint wrote undoes it on a cell that did not already
      hold the paint within the radius. */
  lemma PaintReversed(r2: real, paint: Cell, counted: bool, s: Cell, d: int)
    requires paint != Empty && (d as real <= r2 ==> s != paint)
    ensures Reverses(Paint(r2, paint, counted), Erase(r2, paint, false, counted), s, d)
  {
  }

  // ---- counting cells by state over the whole grid ----

  /** The box of the whole grid. */
  function Whole(nx: int, ny: int, nz: int): Box { Box(0, nx, 0, ny, 0, nz) }

  /** 1 when cell (i, j, k) of the snapshot is in one of the states `ks`. */
  function Mark(g: Cells, ks: set<Cell>, i: int, j: int, k: int): nat {
    if At(g, i, j, k) in ks then 1 else 0
  }

  /** The cells in row (i, j), columns `[lo, hi)`, in one of the states `ks`. */
  function RowCount(g: Cells, ks: set<Cell>, i: int, j: int, lo: int, hi: int): nat
    decreases hi - lo
  {
    if hi <= lo then 0 else RowCount(g, ks, i, j, lo, hi - 1) + Mark(g, ks, i, j, hi - 1)
  }

  /** The same over plane i, rows `[lo, hi)` of box `b`. */
  function PlaneCount(g: Cells, ks: set<Cell>, i: int, lo: int, hi: int, b: Box): nat
    decreases hi - lo
  {
    if hi <= lo then 0 else PlaneCount(g, ks, i, lo, hi - 1, b) + RowCount(g, ks, i, hi - 1, b.zlo, b.zhi)
  }

  /** The same over planes `[lo, hi)` of box `b`. */
  function BoxCount(g: Cells, ks: set<Cell>, lo: int, hi: int, b: Box): nat
    decreases hi - lo
  {
    if hi <= lo then 0 else BoxCount(g, ks, lo, hi - 1, b) + PlaneCount(g, ks, hi - 1, b.ylo, b.yhi, b)
  }

  /** The cells of box `b` in one of the states `ks`. */
  function Count(g: Cells, ks: set<Cell>, b: Box): nat {
    BoxCount(g, ks, b.xlo, b.xhi, b)
  }

  lemma {:induction false} RowCountSplit(g: Cells, ks: set<Cell>, i: int, j: int, lo: int, mid: int, hi: int)
    requires lo <= mid <= hi
    ensures RowCount(g, ks, i, j, lo, hi) == RowCount(g, ks, i, j, lo, mid) + RowCount(g, ks, i, j, mid, hi)
    decreases hi - mid
  {
    if mid < hi {
      RowCountSplit(g, ks, i, j, lo, mid, hi - 1);
    }
  }

  lemma {:induction false} RowCountSame(g1: Cells, g2: Cells, ks: set<Cell>, i: int, j: int, lo: int, hi: int)
    requires forall k :: lo <= k < hi ==> Mark(g1, ks, i, j, k) == Mark(g2, ks, i, j, k)
    ensures RowCount(g1, ks, i, j, lo, hi) == RowCount(g2, ks, i, j, lo, hi)
    decreases hi - lo
  {
    if lo < hi {
      RowCountSame(g1, g2, ks, i, j, lo, hi - 1);
    }
  }

  /** A row whose cells gain a state of `ks` exactly where a rule counts. */
  lemma {:induction false} RowCountTally(g1: Cells, g2: Cells, ks: set<Cell>, g: Cells, r: Rule, c: Loc, i: int, j: int, lo: int, hi: int)
    requires forall k :: lo <= k < hi ==> Mark(g1, ks, i, j, k) == Mark(g2, ks, i, j, k) + Ind(g, r, c, i, j, k)
    ensures RowCount(g1, ks, i, j, lo, hi) == RowCount(g2, ks, i, j, lo, hi) + RowTally(g, r, c, i, j, lo, hi)
    decreases hi - lo
  {
    if lo < hi {
      RowCountTally(g1, g2, ks, g, r, c, i, j, lo, hi - 1);
    }
  }

  lemma {:induction false} PlaneCountSplit(g: Cells, ks: set<Cell>, i: int, lo: int, mid: int, hi: int, b: Box)
    requires lo <= mid <= hi
    ensures PlaneCount(g, ks, i, lo, hi, b) == PlaneCount(g, ks, i, lo, mid, b) + PlaneCount(g, ks, i, mid, hi, b)
    decreases hi - mid
  {
    if mid < hi {
      PlaneCountSplit(g, ks, i, lo, mid, hi - 1, b);
    }
  }

  lemma {:induction false} PlaneCountSame(g1: Cells, g2: Cells, ks: set<Cell>, i: int, lo: int, hi: int, b: Box)
    requires forall j :: lo <= j < hi ==> RowCount(g1, ks, i, j, b.zlo, b.zhi) == RowCount(g2, ks, i, j, b.zlo, b.zhi)
    ensures PlaneCount(g1, ks, i, lo, hi, b) == PlaneCount(g2, ks, i, lo, hi, b)
    decreases hi - lo
  {
    if lo < hi {
      PlaneCountSame(g1, g2, ks, i, lo, hi - 1, b);
    }
  }

  lemma {:induction false} PlaneCountTally(g1: Cells, g2: Cells, ks: set<Cell>, g: Cells, r: Rule, c: Loc, i: int, lo: int, hi: int, b: Box, d: Box)
    requires forall j :: lo <= j < hi ==> RowCount(g1, ks, i, j, b.zlo, b.zhi) == RowCount(g2, ks, i, j, b.zlo, b.zhi) + RowTally(g, r, c, i, j, d.zlo, d.zhi)
    ensures PlaneCount(g1, ks, i, lo, hi, b) == PlaneCount(g2, ks, i, lo, hi, b) + PlaneTally(g, r, c, i, lo, hi, d)
    decreases hi - lo
  {
    if lo < hi {
      PlaneCountTally(g1, g2, ks, g, r, c, i, lo, hi - 1, b, d);
    }
  }

  lemma {:induction false} BoxCountSplit(g: Cells, ks: set<Cell>, lo: int, mid: int, hi: int, b: Box)
    requires lo <= mid <= hi
    ensures BoxCount(g, ks, lo, hi, b) == BoxCount(g, ks, lo, mid, b) + BoxCount(g, ks, mid, hi, b)
    decreases hi - mid
  {
    if mid < hi {
      BoxCountSplit(g, ks, lo, mid, hi - 1, b);
    }
  }

  lemma {:induction false} BoxCountSame(g1: Cells, g2: Cells, ks: set<Cell>, lo: int, hi: int, b: Box)
    requires forall i :: lo <= i < hi ==> PlaneCount(g1, ks, i, b.ylo, b.yhi, b) == PlaneCount(g2, ks, i, b.ylo, b.yhi, b)
    ensures BoxCount(g1, ks, lo, hi, b) == BoxCount(g2, ks, lo, hi, b)
    decreases hi - lo
  {
    if lo < hi {
      BoxCountSame(g1, g2, ks, lo, hi - 1, b);
    }
  }

  lemma {:induction false} BoxCountTally(g1: Cells, g2: Cells, ks: set<Cell>, g: Cells, r: Rule, c: Loc, lo: int, hi: int, b: Box, d: Box)
    requires forall i :: lo <= i < hi ==> PlaneCount(g1, ks, i, b.ylo, b.yhi, b) == PlaneCount(g2, ks, i, b.ylo, b.yhi, b) + PlaneTally(g, r, c, i, d.ylo, d.yhi, d)
    ensures BoxCount(g1, ks, lo, hi, b) == BoxCount(g2, ks, lo, hi, b) + BoxTally(g, r, c, lo, hi, d)
    decreases hi - lo
  {
    if lo < hi {
      BoxCountTally(g1, g2, ks, g, r, c, lo, hi - 1, b, d);
    }
  }

  /** Over box `b`, the cells of `g1` in the states `ks` are those of `g2`
      plus, inside box `d`, the cells the rule counts in `g`. */
  ghost predicate Moves(g1: Cells, g2: Cells, ks: set<Cell>, g: Cells, r: Rule, c: Loc, d: Box, b: Box) {
    forall i, j, k :: InBox(b, i, j, k) ==>
      Mark(g1, ks, i, j, k) == Mark(g2, ks, i, j, k) + (if InBox(d, i, j, k) then Ind(g, r, c, i, j, k) else 0)
  }

  lemma RowMoves(g1: Cells, g2: Cells, ks: set<Cell>, g: Cells, r: Rule, c: Loc, d: Box, b: Box, i: int, j: int)
    requires Nested(d, b) && Moves(g1, g2, ks, g, r, c, d, b) && b.xlo <= i < b.xhi && b.ylo <= j < b.yhi
    ensures RowCount(g1, ks, i, j, b.zlo, b.zhi) ==
      RowCount(g2, ks, i, j, b.zlo, b.zhi) + if d.xlo <= i < d.xhi && d.ylo <= j < d.yhi then RowTally(g, r, c, i, j, d.zlo, d.zhi) else 0
  {
    if d.xlo <= i < d.xhi && d.ylo <= j < d.yhi {
      RowCountSplit(g1, ks, i, j, b.zlo, d.zlo, b.zhi);
      RowCountSplit(g1, ks, i, j, d.zlo, d.zhi, b.zhi);
      RowCountSplit(g2, ks, i, j, b.zlo, d.zlo, b.zhi);
      RowCountSplit(g2, ks, i, j, d.zlo, d.zhi, b.zhi);
      assert forall k :: b.zlo <= k < d.zlo ==> InBox(b, i, j, k) && !InBox(d, i, j, k);
      RowCountSame(g1, g2, ks, i, j, b.zlo, d.zlo);
      assert forall k :: d.zhi <= k < b.zhi ==> InBox(b, i, j, k) && !InBox(d, i, j, k);
      RowCountSame(g1, g2, ks, i, j, d.zhi, b.zhi);
      assert forall k :: d.zlo <= k < d.zhi ==> InBox(b, i, j, k) && InBox(d, i, j, k);
      RowCountTally(g1, g2, ks, g, r, c, i, j, d.zlo, d.zhi);
    } else {
      assert forall k :: b.zlo <= k < b.zhi ==> InBox(b, i, j, k) && !InBox(d, i, j, k);
      RowCountSame(g1, g2, ks, i, j, b.zlo, b.zhi);
    }
  }

  lemma PlaneMoves(g1: Cells, g2: Cells, ks: set<Cell>, g: Cells, r: Rule, c: Loc, d: Box, b: Box, i: int)
    requires Nested(d, b) && Moves(g1, g2, ks, g, r, c, d, b) && b.xlo <= i < b.xhi
    ensures PlaneCount(g1, ks, i, b.ylo, b.yhi, b) ==
      PlaneCount(g2, ks, i, b.ylo, b.yhi, b) + if d.xlo <= i < d.xhi then PlaneTally(g, r, c, i, d.ylo, d.yhi, d) else 0
  {
    forall j | b.ylo <= j < b.yhi
      ensures RowCount(g1, ks, i, j, b.zlo, b.zhi) ==
        RowCount(g2, ks, i, j, b.zlo, b.zhi) + if d.xlo <= i < d.xhi && d.ylo <= j < d.yhi then RowTally(g, r, c, i, j, d.zlo, d.zhi) else 0
    {
      RowMoves(g1, g2, ks, g, r, c, d, b, i, j);
    }
    if d.xlo <= i < d.xhi {
      PlaneCountSplit(g1, ks, i, b.ylo, d.ylo, b.yhi, b);
      PlaneCountSplit(g1, ks, i, d.ylo, d.yhi, b.yhi, b);
      PlaneCountSplit(g2, ks, i, b.ylo, d.ylo, b.yhi, b);
      PlaneCountSplit(g2, ks, i, d.ylo, d.yhi, b.yhi, b);
      PlaneCountSame(g1, g2, ks, i, b.ylo, d.ylo, b);
      PlaneCountSame(g1, g2, ks, i, d.yhi, b.yhi, b);
      PlaneCountTally(g1, g2, ks, g, r, c, i, d.ylo, d.yhi, b, d);
    } else {
      PlaneCountSame(g1, g2, ks, i, b.ylo, b.yhi, b);
    }
  }

  /** Counting a change: when the cells of `g1` in the states `ks` are
      those of `g2` plus the cells a rule counts in `d`, the counts over a
      box around `d` differ by the rule's tally. */
  lemma CountMoves(g1: Cells, g2: Cells, ks: set<Cell>, g: Cells, r: Rule, c: Loc, d: Box, b: Box)
    requires Nested(d, b) && Moves(g1, g2, ks, g, r, c, d, b)
    ensures Count(g1, ks, b) == Count(g2, ks, b) + Tally(g, r, c, d)
  {
    forall i | b.xlo <= i < b.xhi
      ensures PlaneCount(g1, ks, i, b.ylo, b.yhi, b) ==
        PlaneCount(g2, ks, i, b.ylo, b.yhi, b) + if d.xlo <= i < d.xhi then PlaneTally(g, r, c, i, d.ylo, d.yhi, d) else 0
    {
      PlaneMoves(g1, g2, ks, g, r, c, d, b, i);
    }
    BoxCountSplit(g1, ks, b.xlo, d.xlo, b.xhi, b);
    BoxCountSplit(g1, ks, d.xlo, d.xhi, b.xhi, b);
    BoxCountSplit(g2, ks, b.xlo, d.xlo, b.xhi, b);
    BoxCountSplit(g2, ks, d.xlo, d.xhi, b.xhi, b);
    BoxCountSame(g1, g2, ks, b.xlo, d.xlo, b);
    BoxCountSame(g1, g2, ks, d.xhi, b.xhi, b);
    BoxCountTally(g1, g2, ks, g, r, c, d.xlo, d.xhi, b, d);
  }

  /** A rule that raises the count of `ks` turns exactly the cells it
      counts into those states; one that lowers it takes exactly the cells
      it counts out of them. */
  predicate Raises(rule: Rule, ks: set<Cell>) {
    Empty !in ks &&
    match rule
    case Fill(_, _) => AArea in ks && Volume in ks
    case Paint(_, paint, counted) => paint in ks <==> counted
    case Erase(_, target, volumeToo, counted) => !counted && target !in ks && (volumeToo ==> Volume !in ks)
  }

  predicate Lowers(rule: Rule, ks: set<Cell>) {
    Empty !in ks &&
    match rule
    case Fill(_, _) => false
    case Paint(_, paint, counted) => !counted && paint !in ks
    case Erase(_, target, volumeToo, counted) => (target in ks <==> counted) && (volumeToo ==> (Volume in ks <==> counted))
  }

  lemma RaisesCell(rule: Rule, ks: set<Cell>, s: Cell, d: int)
    requires Raises(rule, ks)
    ensures (if Apply(rule, s, d) in ks then 1 else 0) == (if s in ks then 1 else 0) + (if Counted(rule, s, d) then 1 else 0)
  {
  }

  lemma LowersCell(rule: Rule, ks: set<Cell>, s: Cell, d: int)
    requires Lowers(rule, ks)
    ensures (if s in ks then 1 else 0) == (if Apply(rule, s, d) in ks then 1 else 0) + (if Counted(rule, s, d) then 1 else 0)
  {
  }

  /** A sweep with a raising rule adds its tally to the count of `ks`
      over the whole grid. */
  lemma CountRaised(g: Cells, rule: Rule, c: Loc, b: Box, ks: set<Cell>, nx: int, ny: int, nz: int)
    requires Shape(g, nx, ny, nz) && Proper(b, nx, ny, nz) && Raises(rule, ks)
    ensures Count(Swept(g, rule, c, b), ks, Whole(nx, ny, nz)) == Count(g, ks, Whole(nx, ny, nz)) + Tally(g, rule, c, b)
  {
    var h := Swept(g, rule, c, b);
    forall i, j, k | InBox(Whole(nx, ny, nz), i, j, k)
      ensures Mark(h, ks, i, j, k) == Mark(g, ks, i, j, k) + (if InBox(b, i, j, k) then Ind(g, rule, c, i, j, k) else 0)
    {
      assert InCells(g, i, j, k);
      RaisesCell(rule, ks, g[i][j][k], Dist2(c, i, j, k));
    }
    CountMoves(h, g, ks, g, rule, c, b, Whole(nx, ny, nz));
  }

  /** A sweep with a lowering rule takes its tally off that count. */
  lemma CountLowered(g: Cells, rule: Rule, c: Loc, b: Box, ks: set<Cell>, nx: int, ny: int, nz: int)
    requires Shape(g, nx, ny, nz) && Proper(b, nx, ny, nz) && Lowers(rule, ks)
    ensures Count(g, ks, Whole(nx, ny, nz)) == Count(Swept(g, rule, c, b), ks, Whole(nx, ny, nz)) + Tally(g, rule, c, b)
  {
    var h := Swept(g, rule, c, b);
    forall i, j, k | InBox(Whole(nx, ny, nz), i, j, k)
      ensures Mark(g, ks, i, j, k) == Mark(h, ks, i, j, k) + (if InBox(b, i, j, k) then Ind(g, rule, c, i, j, k) else 0)
    {
      assert InCells(g, i, j, k);
      LowersCell(rule, ks, g[i][j][k], Dist2(c, i, j, k));
    }
    CountMoves(g, h, ks, g, rule, c, b, Whole(nx, ny, nz));
  }

  /** A rule that never counts has a zero tally. */
  lemma TallySilent(g: Cells, rule: Rule, c: Loc, b: Box)
    requires (rule.Paint? && !rule.counted) || (rule.Erase? && !rule.counted)
    ensures Tally(g, rule, c, b) == 0
  {
    forall i | b.xlo <= i < b.xhi
      ensures PlaneTally(g, rule, c, i, b.ylo, b.yhi, b) == 0
    {
      forall j | b.ylo <= j < b.yhi
        ensures RowTally(g, rule, c, i, j, b.zlo, b.zhi) == 0
      {
        RowZero(g, rule, c, i, j, b.zlo, b.zhi);
      }
      PlaneZero(g, rule, c, i, b.ylo, b.yhi, b);
    }
    BoxZero(g, rule, c, b.xlo, b.xhi, b);
  }

  /** The box of the single cell `l`. */
  function Single(l: Loc): Box { Box(l.x, l.x + 1, l.y, l.y + 1, l.z, l.z + 1) }

  /** Erasing a cell's own state at distance zero counts that cell. */
  lemma SingleTally(g: Cells, l: Loc)
    ensures Tally(g, Erase(0.0, At(g, l.x, l.y, l.z), false, true), l, Single(l)) == 1
  {
    var x, y, z := l.x, l.y, l.z;
    var pick := Erase(0.0, At(g, x, y, z), false, true);
    var b := Single(l);
    assert Dist2(l, x, y, z) == 0;
    assert Ind(g, pick, l, x, y, z) == 1;
    assert RowTally(g, pick, l, x, y, z, z) == 0;
    assert RowTally(g, pick, l, x, y, z, z + 1) == 1;
    assert PlaneTally(g, pick, l, x, y, y, b) == 0;
    assert PlaneTally(g, pick, l, x, y, y + 1, b) == 1;
    assert BoxTally(g, pick, l, x, x, b) == 0;
    assert BoxTally(g, pick, l, x, x + 1, b) == 1;
  }

  /** Two snapshots whose cells of box `b` agree on membership in `ks`
      have equal counts. */
  lemma CountSame(g1: Cells, g2: Cells, ks: set<Cell>, b: Box)
    requires forall i, j, k :: InBox(b, i, j, k) ==> Mark(g1, ks, i, j, k) == Mark(g2, ks, i, j, k)
    ensures Count(g1, ks, b) == Count(g2, ks, b)
  {
    forall i | b.xlo <= i < b.xhi
      ensures PlaneCount(g1, ks, i, b.ylo, b.yhi, b) == PlaneCount(g2, ks, i, b.ylo, b.yhi, b)
    {
      forall j | b.ylo <= j < b.yhi
        ensures RowCount(g1, ks, i, j, b.zlo, b.zhi) == RowCount(g2, ks, i, j, b.zlo, b.zhi)
      {
        assert forall k :: b.zlo <= k < b.zhi ==> InBox(b, i, j, k);
        RowCountSame(g1, g2, ks, i, j, b.zlo, b.zhi);
      }
      PlaneCountSame(g1, g2, ks, i, b.ylo, b.yhi, b);
    }
    BoxCountSame(g1, g2, ks, b.xlo, b.xhi, b);
  }

  /** `g1` is `g2` with cell `l` turned into a state of `ks` from one
      outside them: its count is one more. */
  lemma CountGain(g1: Cells, g2: Cells, l: Loc, ks: set<Cell>, nx: int, ny: int, nz: int)
    requires Shape(g2, nx, ny, nz) && InCells(g2, l.x, l.y, l.z)
    requires forall i, j, k :: InCells(g2, i, j, k) ==> InCells(g1, i, j, k) && (Loc(i, j, k) != l ==> g1[i][j][k] == g2[i][j][k])
    requires InCells(g1, l.x, l.y, l.z) && g1[l.x][l.y][l.z] in ks && g2[l.x][l.y][l.z] !in ks
    ensures Count(g1, ks, Whole(nx, ny, nz)) == Count(g2, ks, Whole(nx, ny, nz)) + 1
  {
    var pick := Erase(0.0, At(g2, l.x, l.y, l.z), false, true);
    forall i, j, k | InBox(Whole(nx, ny, nz), i, j, k)
      ensures Mark(g1, ks, i, j, k) == Mark(g2, ks, i, j, k) + (if InBox(Single(l), i, j, k) then Ind(g2, pick, l, i, j, k) else 0)
    {
      assert InCells(g2, i, j, k);
      if InBox(Single(l), i, j, k) {
        assert Loc(i, j, k) == l;
      }
    }
    CountMoves(g1, g2, ks, g2, pick, l, Single(l), Whole(nx, ny, nz));
    SingleTally(g2, l);
  }

  /** Writing one cell changes the count of `ks` by what the cell gains or
      loses. */
  lemma CountPut(g: Cells, l: Loc, s: Cell, ks: set<Cell>, nx: int, ny: int, nz: int)
    requires Shape(g, nx, ny, nz) && InCells(g, l.x, l.y, l.z)
    ensures Count(Put(g, l, s), ks, Whole(nx, ny, nz)) + (if g[l.x][l.y][l.z] in ks then 1 else 0) ==
      Count(g, ks, Whole(nx, ny, nz)) + (if s in ks then 1 else 0)
  {
    var h := Put(g, l, s);
    var w := Whole(nx, ny, nz);
    if (s in ks) == (g[l.x][l.y][l.z] in ks) {
      forall i, j, k | InBox(w, i, j, k)
        ensures Mark(h, ks, i, j, k) == Mark(g, ks, i, j, k)
      {
        assert InCells(g, i, j, k);
      }
      CountSame(h, g, ks, w);
    } else if s in ks {
      CountGain(h, g, l, ks, nx, ny, nz);
    } else {
      PutBack(g, l, s);
      CountGain(g, h, l, ks, nx, ny, nz);
    }
  }
}
