/** The occupancy grid of `source/grid/Grid.cpp`. Atoms and waters are
    placed in the bin nearest their coordinates; expanding an atom fills a
    ball of its van der Waals radius with atom area and a shell out to the
    volume radius with volume, counting the cells that were empty;
    deflating empties them again. Radii are in bins. */
module VoxelGrid {
  import opened Voxels
  import opened Wrappers
  import opened GridParts
  import opened Runs

  // ---- the rules of one member ----

  function RMax(a: real, b: real): real { if a >= b then a else b }

  /** An atom's expansion: area within its radius, volume out to `rvol`,
      over the box of reach `ceil(rvol)`. */
  function ExpandRule(m: Member, rvol: real): Rule { Fill(m.radius * m.radius, rvol * rvol) }

  function ExpandBox(m: Member, rvol: real, bins: Loc): Box { Clip(m.loc, Ceil(rvol), bins.x, bins.y, bins.z) }

  /** An atom's deflation: area and volume within the larger of its radius
      and `rvol` are emptied and counted. */
  function DeflateRule(m: Member, rvol: real): Rule { Erase(Reach2(m.radius, rvol), AArea, true, true) }

  /** The square of the deflation radius. */
  function Reach2(radius: real, rvol: real): real {
    var r := RMax(radius, rvol);
    r * r
  }

  function DeflateBox(m: Member, rvol: real, bins: Loc): Box { Clip(m.loc, Ceil(RMax(m.radius, rvol)), bins.x, bins.y, bins.z) }

  /** A water paints the empty cells within the hydration radius `rw` as
      water area, and its deflation empties the water area there; neither
      touches the volume. */
  function WaterRule(rw: real): Rule { Paint(rw * rw, WArea, false) }

  function WaterDeflateRule(rw: real): Rule { Erase(rw * rw, WArea, false, false) }

  function WaterBox(m: Member, rw: real, bins: Loc): Box { Clip(m.loc, Ceil(rw), bins.x, bins.y, bins.z) }

  /** The cells after expanding an atom; an expanded atom is left as it is. */
  function AtomExpanded(g: Cells, m: Member, rvol: real, bins: Loc): Cells {
    if m.expanded then g else Swept(g, ExpandRule(m, rvol), m.loc, ExpandBox(m, rvol, bins))
  }

  /** The volume an atom's expansion adds. */
  function AtomGain(g: Cells, m: Member, rvol: real, bins: Loc): nat {
    if m.expanded then 0 else Tally(g, ExpandRule(m, rvol), m.loc, ExpandBox(m, rvol, bins))
  }

  /** The cells after deflating an atom; a deflated atom is left as it is. */
  function AtomDeflated(g: Cells, m: Member, rvol: real, bins: Loc): Cells {
    if !m.expanded then g else Swept(g, DeflateRule(m, rvol), m.loc, DeflateBox(m, rvol, bins))
  }

  /** The volume an atom's deflation removes. */
  function AtomLoss(g: Cells, m: Member, rvol: real, bins: Loc): nat {
    if !m.expanded then 0 else Tally(g, DeflateRule(m, rvol), m.loc, DeflateBox(m, rvol, bins))
  }

  function WaterExpanded(g: Cells, m: Member, rw: real, bins: Loc): Cells {
    if m.expanded then g else Swept(g, WaterRule(rw), m.loc, WaterBox(m, rw, bins))
  }

  function WaterDeflated(g: Cells, m: Member, rw: real, bins: Loc): Cells {
    if !m.expanded then g else Swept(g, WaterDeflateRule(rw), m.loc, WaterBox(m, rw, bins))
  }

  // ---- an expansion undone by a deflation ----

  lemma SquareMono(a: real, b: real)
    requires 0.0 <= a <= b
    ensures a * a <= b * b
  {
  }

  /** No atom area and no volume within the deflation radius of the atom:
      what a grid holds around an atom that nothing has expanded into. */
  ghost predicate Untouched(g: Cells, m: Member, rvol: real) {
    forall i, j, k :: InCells(g, i, j, k) ==> ClearAt(g[i][j][k], Dist2(m.loc, i, j, k), Reach2(m.radius, rvol))
  }

  /** A cell at squared distance `d` within the squared radius `r2`
      holds neither atom area nor volume. */
  predicate ClearAt(s: Cell, d: int, r2: real) {
    d as real <= r2 ==> s != AArea && s != Volume
  }

  /** On a cell clear within the deflation radius, the deflation undoes
      the expansion. */
  lemma FillReversed(f: Rule, s: Cell, d: int, r2: real)
    requires f.Fill? && f.inner <= r2 && f.outer <= r2 && ClearAt(s, d, r2)
    ensures Reverses(f, Erase(r2, AArea, true, true), s, d)
  {
  }

  /** Both radii of an expansion lie within the deflation radius. */
  lemma ReachCovers(m: Member, rvol: real)
    requires m.radius >= 0.0 && rvol >= 0.0
    ensures ExpandRule(m, rvol).inner <= Reach2(m.radius, rvol) && ExpandRule(m, rvol).outer <= Reach2(m.radius, rvol)
  {
    var big := RMax(m.radius, rvol);
    SquareMono(m.radius, big);
    SquareMono(rvol, big);
  }

  /** The deflation's box contains the expansion's box. */
  lemma BoxesNested(m: Member, rvol: real, bins: Loc)
    requires InGrid(m.loc, bins) && m.radius >= 0.0 && rvol >= 0.0
    ensures Nested(ExpandBox(m, rvol, bins), DeflateBox(m.(expanded := true), rvol, bins))
  {
    var big := RMax(m.radius, rvol);
    CeilMonotone(rvol, big);
    ClipNested(m.loc, Ceil(rvol), Ceil(big), bins.x, bins.y, bins.z);
  }

  /** Around an untouched atom its deflation undoes its expansion cell by
      cell, and the deflation's box contains the expansion's. */
  lemma AtomReverses(g: Cells, m: Member, rvol: real, bins: Loc)
    requires InGrid(m.loc, bins) && m.radius >= 0.0 && rvol >= 0.0 && Untouched(g, m, rvol)
    ensures Nested(ExpandBox(m, rvol, bins), DeflateBox(m.(expanded := true), rvol, bins))
    ensures forall i, j, k :: InCells(g, i, j, k) ==>
      Reverses(ExpandRule(m, rvol), DeflateRule(m.(expanded := true), rvol), g[i][j][k], Dist2(m.loc, i, j, k))
  {
    ReachCovers(m, rvol);
    BoxesNested(m, rvol, bins);
    forall i, j, k | InCells(g, i, j, k)
      ensures Reverses(ExpandRule(m, rvol), DeflateRule(m.(expanded := true), rvol), g[i][j][k], Dist2(m.loc, i, j, k))
    {
      FillReversed(ExpandRule(m, rvol), g[i][j][k], Dist2(m.loc, i, j, k), Reach2(m.radius, rvol));
    }
  }

  /** Deflating an atom right after expanding it restores the cells, when
      no other member had expanded into its neighbourhood. */
  lemma ExpandThenDeflate(g: Cells, m: Member, rvol: real, bins: Loc)
    requires Fits(g, bins) && InGrid(m.loc, bins) && !m.expanded
    requires m.radius >= 0.0 && rvol >= 0.0 && Untouched(g, m, rvol)
    ensures AtomDeflated(AtomExpanded(g, m, rvol, bins), m.(expanded := true), rvol, bins) == g
  {
    var e := m.(expanded := true);
    AtomReverses(g, m, rvol, bins);
    SweepsUndo(g, m.loc, ExpandRule(m, rvol), DeflateRule(e, rvol), ExpandBox(m, rvol, bins), DeflateBox(e, rvol, bins), bins.x, bins.y, bins.z);
  }

  /** The deflation right after an expansion removes exactly the volume
      the expansion added, under the same condition. */
  lemma ExpandThenDeflateVolume(g: Cells, m: Member, rvol: real, bins: Loc)
    requires Fits(g, bins) && InGrid(m.loc, bins) && !m.expanded
    requires m.radius >= 0.0 && rvol >= 0.0 && Untouched(g, m, rvol)
    ensures AtomLoss(AtomExpanded(g, m, rvol, bins), m.(expanded := true), rvol, bins) == AtomGain(g, m, rvol, bins)
  {
    var e := m.(expanded := true);
    AtomReverses(g, m, rvol, bins);
    ClipProper(m.loc, Ceil(RMax(m.radius, rvol)), bins.x, bins.y, bins.z);
    SweepsUndoCount(g, m.loc, ExpandRule(m, rvol), DeflateRule(e, rvol), ExpandBox(m, rvol, bins), DeflateBox(e, rvol, bins), bins.x, bins.y, bins.z);
  }

  // ---- what the grid holds ----

  /** Adding an atom: its centre becomes an atom centre, the volume grows
      by one when that cell was empty, and the atom is expanded on demand. */
  function Added(c: Content, m: Member, expand: bool, rvol: real, bins: Loc): Content
    requires InCells(c.cells, m.loc.x, m.loc.y, m.loc.z)
  {
    var g := Put(c.cells, m.loc, ACenter);
    var v := c.volume + (if c.cells[m.loc.x][m.loc.y][m.loc.z] == Empty then 1 else 0);
    if expand then Content(AtomExpanded(g, m, rvol, bins), v + AtomGain(g, m, rvol, bins)) else Content(g, v)
  }

  /** Adding a water: its centre becomes a water centre, expanded on
      demand; the volume is unchanged. */
  function AddedWater(g: Cells, m: Member, expand: bool, rw: real, bins: Loc): Cells
    requires InCells(g, m.loc.x, m.loc.y, m.loc.z)
  {
    var h := Put(g, m.loc, WCenter);
    if expand then WaterExpanded(h, m, rw, bins) else h
  }

  /** How a removal cleans up after one member: the mask removal and
      `remove(Atom)` deflate, empty the centre and decrement the volume;
      the removal of a list of atoms decrements it only for a centre still
      holding an atom; a removed water is deflated and its centre emptied. */
  datatype Cleanup = ByMask | ByAtoms | ByWaters

  function CleanStep(c: Content, m: Member, kind: Cleanup, rvol: real, rw: real, bins: Loc): (r: Content)
    requires Fits(c.cells, bins) && InGrid(m.loc, bins)
    ensures Fits(r.cells, bins)
  {
    match kind
    case ByMask =>
      Content(Put(AtomDeflated(c.cells, m, rvol, bins), m.loc, Empty), c.volume - AtomLoss(c.cells, m, rvol, bins) - 1)
    case ByAtoms =>
      var d := AtomDeflated(c.cells, m, rvol, bins);
      Content(Put(d, m.loc, Empty), c.volume - AtomLoss(c.cells, m, rvol, bins) - (if d[m.loc.x][m.loc.y][m.loc.z] == ACenter then 1 else 0))
    case ByWaters =>
      Content(Put(WaterDeflated(c.cells, m, rw, bins), m.loc, Empty), c.volume)
  }

  /** The cleanup of the `j`-th removed member, as one step of a run over
      the cells and the volume. */
  function CleanSteps(ms: seq<Member>, kind: Cleanup, rvol: real, rw: real, bins: Loc): (Content, nat) -> Content {
    (c: Content, j: nat) => if j < |ms| && Fits(c.cells, bins) && InGrid(ms[j].loc, bins) then CleanStep(c, ms[j], kind, rvol, rw, bins) else c
  }

  /** The cleanup after the members `[0, k)`, in order. */
  function CleanTo(c: Content, ms: seq<Member>, k: nat, kind: Cleanup, rvol: real, rw: real, bins: Loc): Content {
    Run(c, CleanSteps(ms, kind, rvol, rw, bins), k)[k]
  }

  /** Adding an atom to an empty cell and removing it again restores the
      cells and the volume, expanded or not, when no other member had
      expanded into its neighbourhood. */
  lemma AddThenRemove(c: Content, m: Member, expand: bool, rvol: real, rw: real, bins: Loc)
    requires Fits(c.cells, bins) && InGrid(m.loc, bins) && !m.expanded
    requires m.radius >= 0.0 && rvol >= 0.0 && Untouched(c.cells, m, rvol)
    requires c.cells[m.loc.x][m.loc.y][m.loc.z] == Empty
    ensures CleanStep(Added(c, m, expand, rvol, bins), m.(expanded := expand), ByMask, rvol, rw, bins) == c
  {
    var g := Put(c.cells, m.loc, ACenter);
    assert Fits(g, bins);
    assert Untouched(g, m, rvol);
    if expand {
      ExpandThenDeflate(g, m, rvol, bins);
      ExpandThenDeflateVolume(g, m, rvol, bins);
    }
    PutBack(c.cells, m.loc, ACenter);
  }

  // ---- every member at once ----

  /** Expanding the `j`-th atom, as one step of a run over the cells and
      the volume. */
  function ExpandSteps(ms: seq<Member>, rvol: real, bins: Loc): (Content, nat) -> Content {
    (c: Content, j: nat) => if j < |ms| then Content(AtomExpanded(c.cells, ms[j], rvol, bins), c.volume + AtomGain(c.cells, ms[j], rvol, bins)) else c
  }

  /** The cells and the volume after expanding the atoms `[0, k)` in order. */
  function ExpandedTo(c: Content, ms: seq<Member>, k: nat, rvol: real, bins: Loc): Content {
    Run(c, ExpandSteps(ms, rvol, bins), k)[k]
  }

  /** Deflating the `j`-th atom, as one step of a run. */
  function DeflateSteps(ms: seq<Member>, rvol: real, bins: Loc): (Content, nat) -> Content {
    (c: Content, j: nat) => if j < |ms| then Content(AtomDeflated(c.cells, ms[j], rvol, bins), c.volume - AtomLoss(c.cells, ms[j], rvol, bins)) else c
  }

  /** The cells and the volume after deflating the atoms `[0, k)` in order. */
  function DeflatedTo(c: Content, ms: seq<Member>, k: nat, rvol: real, bins: Loc): Content {
    Run(c, DeflateSteps(ms, rvol, bins), k)[k]
  }

  /** Expanding the `j`-th water, as one step of a run over the cells. */
  function WaterExpandSteps(ms: seq<Member>, rw: real, bins: Loc): (Cells, nat) -> Cells {
    (g: Cells, j: nat) => if j < |ms| then WaterExpanded(g, ms[j], rw, bins) else g
  }

  /** The cells after expanding the waters `[0, k)` in order. */
  function WatersExpandedTo(g: Cells, ms: seq<Member>, k: nat, rw: real, bins: Loc): Cells {
    Run(g, WaterExpandSteps(ms, rw, bins), k)[k]
  }

  /** Deflating the `j`-th water, as one step of a run. */
  function WaterDeflateSteps(ms: seq<Member>, rw: real, bins: Loc): (Cells, nat) -> Cells {
    (g: Cells, j: nat) => if j < |ms| then WaterDeflated(g, ms[j], rw, bins) else g
  }

  /** The cells after deflating the waters `[0, k)` in order. */
  function WatersDeflatedTo(g: Cells, ms: seq<Member>, k: nat, rw: real, bins: Loc): Cells {
    Run(g, WaterDeflateSteps(ms, rw, bins), k)[k]
  }

  // ---- expanding and deflating every member ----

  /** The states the volume counter stands for. */
  const Occupied: set<Cell> := {AArea, Volume}

  /** The atom area and volume cells of the whole grid. */
  function Census(g: Cells, bins: Loc): nat { Count(g, Occupied, Whole(bins.x, bins.y, bins.z)) }

  /** No atom area, volume or water area anywhere: a grid with only
      centres placed, before any expansion. */
  ghost predicate Bare(g: Cells) {
    forall i, j, k :: InCells(g, i, j, k) ==> g[i][j][k] != AArea && g[i][j][k] != Volume && g[i][j][k] != WArea
  }

  /** Cell (i, j, k) lies within the deflation radius of atom `m`, inside
      its deflation box. */
  predicate NearAtom(m: Member, rvol: real, bins: Loc, i: int, j: int, k: int) {
    InBox(DeflateBox(m, rvol, bins), i, j, k) && Dist2(m.loc, i, j, k) as real <= Reach2(m.radius, rvol)
  }

  /** Cell (i, j, k) lies within the hydration radius of water `m`, inside
      its box. */
  predicate NearWater(m: Member, rw: real, bins: Loc, i: int, j: int, k: int) {
    InBox(WaterBox(m, rw, bins), i, j, k) && Dist2(m.loc, i, j, k) as real <= rw * rw
  }

  /** Cell (i, j, k) of `g` holds what it held in `g0`, or it was empty
      there and now holds atom area or volume near one of the atoms
      `am[a..]`, or water area near one of the waters `wm[w..]`: whatever
      the sweeps wrote, some member still to be deflated can undo. */
  ghost predicate Owed(g: Cells, g0: Cells, am: seq<Member>, a: int, wm: seq<Member>, w: int, rvol: real, rw: real, bins: Loc, i: int, j: int, k: int)
    requires InCells(g0, i, j, k)
  {
    InCells(g, i, j, k) &&
    (g[i][j][k] == g0[i][j][k] ||
     (g0[i][j][k] == Empty &&
      ((g[i][j][k] in Occupied && exists p :: 0 <= a <= p < |am| && NearAtom(am[p], rvol, bins, i, j, k)) ||
       (g[i][j][k] == WArea && exists p :: 0 <= w <= p < |wm| && NearWater(wm[p], rw, bins, i, j, k)))))
  }

  ghost predicate Pending(g: Cells, g0: Cells, am: seq<Member>, a: int, wm: seq<Member>, w: int, rvol: real, rw: real, bins: Loc) {
    forall i, j, k :: InCells(g0, i, j, k) ==> Owed(g, g0, am, a, wm, w, rvol, rw, bins, i, j, k)
  }

  /** Expanding atom `am[q]` keeps every cell owed. */
  lemma ExpandOwes(g: Cells, g0: Cells, am: seq<Member>, q: int, wm: seq<Member>, rvol: real, rw: real, bins: Loc)
    requires 0 <= q < |am| && AllIn(am, bins) && Sized(am) && rvol >= 0.0
    requires Fits(g, bins) && Fits(g0, bins) && Bare(g0) && Pending(g, g0, am, 0, wm, 0, rvol, rw, bins)
    ensures Pending(AtomExpanded(g, am[q], rvol, bins), g0, am, 0, wm, 0, rvol, rw, bins)
  {
    var m := am[q];
    var h := AtomExpanded(g, m, rvol, bins);
    if !m.expanded {
      ReachCovers(m, rvol);
      BoxesNested(m, rvol, bins);
      assert DeflateBox(m.(expanded := true), rvol, bins) == DeflateBox(m, rvol, bins);
      forall i, j, k | InCells(g0, i, j, k)
        ensures Owed(h, g0, am, 0, wm, 0, rvol, rw, bins, i, j, k)
      {
        assert Owed(g, g0, am, 0, wm, 0, rvol, rw, bins, i, j, k);
        if h[i][j][k] != g[i][j][k] {
          assert NearAtom(m, rvol, bins, i, j, k);
        }
      }
    }
  }

  /** Expanding water `wm[q]` keeps every cell owed. */
  lemma WaterExpandOwes(g: Cells, g0: Cells, am: seq<Member>, wm: seq<Member>, q: int, rvol: real, rw: real, bins: Loc)
    requires 0 <= q < |wm| && Fits(g, bins) && Fits(g0, bins) && Pending(g, g0, am, 0, wm, 0, rvol, rw, bins)
    ensures Pending(WaterExpanded(g, wm[q], rw, bins), g0, am, 0, wm, 0, rvol, rw, bins)
  {
    var m := wm[q];
    var h := WaterExpanded(g, m, rw, bins);
    forall i, j, k | InCells(g0, i, j, k)
      ensures Owed(h, g0, am, 0, wm, 0, rvol, rw, bins, i, j, k)
    {
      assert Owed(g, g0, am, 0, wm, 0, rvol, rw, bins, i, j, k);
      if h[i][j][k] != g[i][j][k] {
        assert NearWater(m, rw, bins, i, j, k);
      }
    }
  }

  /** Deflating atom `am[n - 1]`, flagged expanded as `f`, pays off what it
      owed: afterwards only the atoms after it are needed. */
  lemma DeflateOwes(g: Cells, g0: Cells, am: seq<Member>, n: int, f: Member, wm: seq<Member>, rvol: real, rw: real, bins: Loc)
    requires 0 < n <= |am| && f == am[n - 1].(expanded := true)
    requires Fits(g, bins) && Fits(g0, bins) && Bare(g0) && Pending(g, g0, am, n - 1, wm, 0, rvol, rw, bins)
    ensures Pending(AtomDeflated(g, f, rvol, bins), g0, am, n, wm, 0, rvol, rw, bins)
  {
    var h := AtomDeflated(g, f, rvol, bins);
    forall i, j, k | InCells(g0, i, j, k)
      ensures Owed(h, g0, am, n, wm, 0, rvol, rw, bins, i, j, k)
    {
      assert Owed(g, g0, am, n - 1, wm, 0, rvol, rw, bins, i, j, k);
      if h[i][j][k] == g[i][j][k] && g[i][j][k] != g0[i][j][k] && g[i][j][k] in Occupied {
        assert !NearAtom(am[n - 1], rvol, bins, i, j, k);
        var p :| 0 <= n - 1 <= p < |am| && NearAtom(am[p], rvol, bins, i, j, k);
        assert p != n - 1;
      }
    }
  }

  /** Deflating water `wm[n - 1]`, flagged expanded as `f`, pays off what
      it owed. */
  lemma WaterDeflateOwes(g: Cells, g0: Cells, am: seq<Member>, wm: seq<Member>, n: int, f: Member, rvol: real, rw: real, bins: Loc)
    requires 0 < n <= |wm| && f == wm[n - 1].(expanded := true)
    requires Fits(g, bins) && Fits(g0, bins) && Bare(g0) && Pending(g, g0, am, |am|, wm, n - 1, rvol, rw, bins)
    ensures Pending(WaterDeflated(g, f, rw, bins), g0, am, |am|, wm, n, rvol, rw, bins)
  {
    var h := WaterDeflated(g, f, rw, bins);
    forall i, j, k | InCells(g0, i, j, k)
      ensures Owed(h, g0, am, |am|, wm, n, rvol, rw, bins, i, j, k)
    {
      assert Owed(g, g0, am, |am|, wm, n - 1, rvol, rw, bins, i, j, k);
      if h[i][j][k] == g[i][j][k] && g[i][j][k] != g0[i][j][k] && g[i][j][k] == WArea {
        assert !NearWater(wm[n - 1], rw, bins, i, j, k);
        var p :| 0 <= n - 1 <= p < |wm| && NearWater(wm[p], rw, bins, i, j, k);
        assert p != n - 1;
      }
    }
  }

  /** Once nothing is owed, the cells are the original ones. */
  lemma Settled(g: Cells, g0: Cells, am: seq<Member>, wm: seq<Member>, rvol: real, rw: real, bins: Loc)
    requires Fits(g, bins) && Fits(g0, bins) && Pending(g, g0, am, |am|, wm, |wm|, rvol, rw, bins)
    ensures g == g0
  {
    forall i, j, k | InCells(g, i, j, k)
      ensures g[i][j][k] == g0[i][j][k]
    {
      assert Owed(g, g0, am, |am|, wm, |wm|, rvol, rw, bins, i, j, k);
    }
    CellsEq(g, g0, bins.x, bins.y, bins.z);
  }

  /** An atom's expansion adds to the counter exactly the cells it turns
      into atom area or volume; its deflation takes off exactly those it
      empties. */
  lemma ExpandCensus(g: Cells, m: Member, rvol: real, bins: Loc)
    requires Fits(g, bins) && InGrid(m.loc, bins) && rvol >= 0.0
    ensures Census(AtomExpanded(g, m, rvol, bins), bins) == Census(g, bins) + AtomGain(g, m, rvol, bins)
  {
    if !m.expanded {
      ClipProper(m.loc, Ceil(rvol), bins.x, bins.y, bins.z);
      CountRaised(g, ExpandRule(m, rvol), m.loc, ExpandBox(m, rvol, bins), Occupied, bins.x, bins.y, bins.z);
    }
  }

  lemma DeflateCensus(g: Cells, m: Member, rvol: real, bins: Loc)
    requires Fits(g, bins) && InGrid(m.loc, bins) && rvol >= 0.0
    ensures Census(g, bins) == Census(AtomDeflated(g, m, rvol, bins), bins) + AtomLoss(g, m, rvol, bins)
  {
    if m.expanded {
      ClipProper(m.loc, Ceil(RMax(m.radius, rvol)), bins.x, bins.y, bins.z);
      CountLowered(g, DeflateRule(m, rvol), m.loc, DeflateBox(m, rvol, bins), Occupied, bins.x, bins.y, bins.z);
    }
  }

  /** Water sweeps leave the counted cells alone. */
  lemma WaterCensus(g: Cells, m: Member, rw: real, bins: Loc)
    requires Fits(g, bins) && InGrid(m.loc, bins) && rw >= 0.0
    ensures Census(WaterExpanded(g, m, rw, bins), bins) == Census(g, bins)
    ensures Census(WaterDeflated(g, m, rw, bins), bins) == Census(g, bins)
  {
    var b := WaterBox(m, rw, bins);
    ClipProper(m.loc, Ceil(rw), bins.x, bins.y, bins.z);
    if !m.expanded {
      CountRaised(g, WaterRule(rw), m.loc, b, Occupied, bins.x, bins.y, bins.z);
      TallySilent(g, WaterRule(rw), m.loc, b);
    } else {
      CountLowered(g, WaterDeflateRule(rw), m.loc, b, Occupied, bins.x, bins.y, bins.z);
      TallySilent(g, WaterDeflateRule(rw), m.loc, b);
    }
  }

  /** Expanding the atoms `[0, n)` keeps every cell owed and raises the
      counter by exactly the cells it occupies. */
  lemma {:induction false} ExpandPhase(c: Content, g0: Cells, am: seq<Member>, wm: seq<Member>, n: nat, rvol: real, rw: real, bins: Loc)
    requires n <= |am| && AllIn(am, bins) && Sized(am) && rvol >= 0.0
    requires Fits(c.cells, bins) && Fits(g0, bins) && Bare(g0) && Pending(c.cells, g0, am, 0, wm, 0, rvol, rw, bins)
    ensures Fits(ExpandedTo(c, am, n, rvol, bins).cells, bins)
    ensures Pending(ExpandedTo(c, am, n, rvol, bins).cells, g0, am, 0, wm, 0, rvol, rw, bins)
    ensures ExpandedTo(c, am, n, rvol, bins).volume - Census(ExpandedTo(c, am, n, rvol, bins).cells, bins) == c.volume - Census(c.cells, bins)
  {
    if n > 0 {
      ExpandPhase(c, g0, am, wm, n - 1, rvol, rw, bins);
      ExpandStep(c, g0, am, wm, n, rvol, rw, bins);
    }
  }

  lemma ExpandedNext(c: Content, am: seq<Member>, n: nat, rvol: real, bins: Loc)
    requires 0 < n <= |am|
    ensures var e := ExpandedTo(c, am, n - 1, rvol, bins);
      ExpandedTo(c, am, n, rvol, bins) == Content(AtomExpanded(e.cells, am[n - 1], rvol, bins), e.volume + AtomGain(e.cells, am[n - 1], rvol, bins))
  {
  }

  /** The `n`-th atom expansion of the run keeps every cell owed and the
      counter's balance. */
  lemma ExpandStep(c: Content, g0: Cells, am: seq<Member>, wm: seq<Member>, n: nat, rvol: real, rw: real, bins: Loc)
    requires 0 < n <= |am| && AllIn(am, bins) && Sized(am) && rvol >= 0.0 && Fits(g0, bins) && Bare(g0)
    requires Fits(ExpandedTo(c, am, n - 1, rvol, bins).cells, bins)
    requires Pending(ExpandedTo(c, am, n - 1, rvol, bins).cells, g0, am, 0, wm, 0, rvol, rw, bins)
    ensures Fits(ExpandedTo(c, am, n, rvol, bins).cells, bins)
    ensures Pending(ExpandedTo(c, am, n, rvol, bins).cells, g0, am, 0, wm, 0, rvol, rw, bins)
    ensures ExpandedTo(c, am, n, rvol, bins).volume - Census(ExpandedTo(c, am, n, rvol, bins).cells, bins) ==
      ExpandedTo(c, am, n - 1, rvol, bins).volume - Census(ExpandedTo(c, am, n - 1, rvol, bins).cells, bins)
  {
    var e := ExpandedTo(c, am, n - 1, rvol, bins);
    ExpandedNext(c, am, n, rvol, bins);
    assert am[n - 1] in am;
    ExpandOwes(e.cells, g0, am, n - 1, wm, rvol, rw, bins);
    ExpandCensus(e.cells, am[n - 1], rvol, bins);
  }

  /** Expanding the waters `[0, n)` keeps every cell owed and the counted
      cells as they were. */
  lemma {:induction false} WaterExpandPhase(g: Cells, g0: Cells, am: seq<Member>, wm: seq<Member>, n: nat, rvol: real, rw: real, bins: Loc)
    requires n <= |wm| && AllIn(wm, bins) && rw >= 0.0
    requires Fits(g, bins) && Fits(g0, bins) && Pending(g, g0, am, 0, wm, 0, rvol, rw, bins)
    ensures Fits(WatersExpandedTo(g, wm, n, rw, bins), bins)
    ensures Pending(WatersExpandedTo(g, wm, n, rw, bins), g0, am, 0, wm, 0, rvol, rw, bins)
    ensures Census(WatersExpandedTo(g, wm, n, rw, bins), bins) == Census(g, bins)
  {
    if n > 0 {
      WaterExpandPhase(g, g0, am, wm, n - 1, rvol, rw, bins);
      assert wm[n - 1] in wm;
      WaterExpandStep(g, g0, am, wm, n, rvol, rw, bins);
    }
  }

  lemma WatersExpandedNext(g: Cells, wm: seq<Member>, n: nat, rw: real, bins: Loc)
    requires 0 < n <= |wm|
    ensures WatersExpandedTo(g, wm, n, rw, bins) == WaterExpanded(WatersExpandedTo(g, wm, n - 1, rw, bins), wm[n - 1], rw, bins)
  {
  }

  /** The `n`-th water expansion of the run keeps every cell owed and the
      counted cells as they were. */
  lemma WaterExpandStep(g: Cells, g0: Cells, am: seq<Member>, wm: seq<Member>, n: nat, rvol: real, rw: real, bins: Loc)
    requires 0 < n <= |wm| && InGrid(wm[n - 1].loc, bins) && rw >= 0.0 && Fits(g0, bins)
    requires Fits(WatersExpandedTo(g, wm, n - 1, rw, bins), bins)
    requires Pending(WatersExpandedTo(g, wm, n - 1, rw, bins), g0, am, 0, wm, 0, rvol, rw, bins)
    ensures Fits(WatersExpandedTo(g, wm, n, rw, bins), bins)
    ensures Pending(WatersExpandedTo(g, wm, n, rw, bins), g0, am, 0, wm, 0, rvol, rw, bins)
    ensures Census(WatersExpandedTo(g, wm, n, rw, bins), bins) == Census(WatersExpandedTo(g, wm, n - 1, rw, bins), bins)
  {
    var e := WatersExpandedTo(g, wm, n - 1, rw, bins);
    WatersExpandedNext(g, wm, n, rw, bins);
    WaterExpandOwes(e, g0, am, wm, n - 1, rvol, rw, bins);
    WaterCensus(e, wm[n - 1], rw, bins);
  }

  /** The `n`-th state of the deflation run is the `n`-th deflation
      applied to the state before it. */
  lemma DeflatedNext(c: Content, fm: seq<Member>, n: nat, rvol: real, bins: Loc)
    requires 0 < n <= |fm|
    ensures var e := DeflatedTo(c, fm, n - 1, rvol, bins);
      DeflatedTo(c, fm, n, rvol, bins) == Content(AtomDeflated(e.cells, fm[n - 1], rvol, bins), e.volume - AtomLoss(e.cells, fm[n - 1], rvol, bins))
  {
  }

  /** The `n`-th deflation of the run pays off what atom `am[n - 1]` owed
      and keeps the counter's balance. */
  lemma DeflateStepOwes(c: Content, g0: Cells, am: seq<Member>, fm: seq<Member>, n: nat, wm: seq<Member>, rvol: real, rw: real, bins: Loc)
    requires 0 < n <= |am| == |fm| && fm[n - 1] == am[n - 1].(expanded := true) && InGrid(am[n - 1].loc, bins) && rvol >= 0.0
    requires Fits(g0, bins) && Bare(g0)
    requires Fits(DeflatedTo(c, fm, n - 1, rvol, bins).cells, bins)
    requires Pending(DeflatedTo(c, fm, n - 1, rvol, bins).cells, g0, am, n - 1, wm, 0, rvol, rw, bins)
    ensures Fits(DeflatedTo(c, fm, n, rvol, bins).cells, bins)
    ensures Pending(DeflatedTo(c, fm, n, rvol, bins).cells, g0, am, n, wm, 0, rvol, rw, bins)
    ensures DeflatedTo(c, fm, n, rvol, bins).volume - Census(DeflatedTo(c, fm, n, rvol, bins).cells, bins) ==
      DeflatedTo(c, fm, n - 1, rvol, bins).volume - Census(DeflatedTo(c, fm, n - 1, rvol, bins).cells, bins)
  {
    var e := DeflatedTo(c, fm, n - 1, rvol, bins);
    DeflatedNext(c, fm, n, rvol, bins);
    DeflateOwes(e.cells, g0, am, n, fm[n - 1], wm, rvol, rw, bins);
    DeflateCensus(e.cells, fm[n - 1], rvol, bins);
  }

  /** Deflating the atoms `[0, n)`, flagged expanded as `fm`, pays off
      what they owed and lowers the counter by exactly the cells it
      empties. */
  lemma {:induction false} DeflatePhase(c: Content, g0: Cells, am: seq<Member>, fm: seq<Member>, wm: seq<Member>, n: nat, rvol: real, rw: real, bins: Loc)
    requires n <= |am| == |fm| && AllIn(am, bins) && rvol >= 0.0
    requires forall p :: 0 <= p < |am| ==> fm[p] == am[p].(expanded := true)
    requires Fits(c.cells, bins) && Fits(g0, bins) && Bare(g0) && Pending(c.cells, g0, am, 0, wm, 0, rvol, rw, bins)
    ensures Fits(DeflatedTo(c, fm, n, rvol, bins).cells, bins)
    ensures Pending(DeflatedTo(c, fm, n, rvol, bins).cells, g0, am, n, wm, 0, rvol, rw, bins)
    ensures DeflatedTo(c, fm, n, rvol, bins).volume - Census(DeflatedTo(c, fm, n, rvol, bins).cells, bins) == c.volume - Census(c.cells, bins)
  {
    if n > 0 {
      DeflatePhase(c, g0, am, fm, wm, n - 1, rvol, rw, bins);
      assert am[n - 1] in am;
      DeflateStepOwes(c, g0, am, fm, n, wm, rvol, rw, bins);
    }
  }

  lemma WatersDeflatedNext(g: Cells, fm: seq<Member>, n: nat, rw: real, bins: Loc)
    requires 0 < n <= |fm|
    ensures WatersDeflatedTo(g, fm, n, rw, bins) == WaterDeflated(WatersDeflatedTo(g, fm, n - 1, rw, bins), fm[n - 1], rw, bins)
  {
  }

  /** The `n`-th water deflation of the run pays off what water `wm[n - 1]`
      owed and leaves the counted cells alone. */
  lemma WaterDeflateStepOwes(g: Cells, g0: Cells, am: seq<Member>, wm: seq<Member>, fm: seq<Member>, n: nat, rvol: real, rw: real, bins: Loc)
    requires 0 < n <= |wm| == |fm| && fm[n - 1] == wm[n - 1].(expanded := true) && InGrid(wm[n - 1].loc, bins) && rw >= 0.0
    requires Fits(g0, bins) && Bare(g0)
    requires var e := WatersDeflatedTo(g, fm, n - 1, rw, bins);
      Fits(e, bins) && Pending(e, g0, am, |am|, wm, n - 1, rvol, rw, bins)
    ensures var e := WatersDeflatedTo(g, fm, n - 1, rw, bins);
      var d := WatersDeflatedTo(g, fm, n, rw, bins);
      Fits(d, bins) && Pending(d, g0, am, |am|, wm, n, rvol, rw, bins) && Census(d, bins) == Census(e, bins)
  {
    var e := WatersDeflatedTo(g, fm, n - 1, rw, bins);
    WatersDeflatedNext(g, fm, n, rw, bins);
    WaterDeflateOwes(e, g0, am, wm, n, fm[n - 1], rvol, rw, bins);
    WaterCensus(e, fm[n - 1], rw, bins);
  }

  /** Deflating the waters `[0, n)`, flagged expanded as `fm`, pays off
      what they owed. */
  lemma {:induction false} WaterDeflatePhase(g: Cells, g0: Cells, am: seq<Member>, wm: seq<Member>, fm: seq<Member>, n: nat, rvol: real, rw: real, bins: Loc)
    requires n <= |wm| == |fm| && AllIn(wm, bins) && rw >= 0.0
    requires forall p :: 0 <= p < |wm| ==> fm[p] == wm[p].(expanded := true)
    requires Fits(g, bins) && Fits(g0, bins) && Bare(g0) && Pending(g, g0, am, |am|, wm, 0, rvol, rw, bins)
    ensures Fits(WatersDeflatedTo(g, fm, n, rw, bins), bins)
    ensures Pending(WatersDeflatedTo(g, fm, n, rw, bins), g0, am, |am|, wm, n, rvol, rw, bins)
    ensures Census(WatersDeflatedTo(g, fm, n, rw, bins), bins) == Census(g, bins)
  {
    if n > 0 {
      WaterDeflatePhase(g, g0, am, wm, fm, n - 1, rvol, rw, bins);
      assert wm[n - 1] in wm;
      WaterDeflateStepOwes(g, g0, am, wm, fm, n, rvol, rw, bins);
    }
  }

  /** Expanding every atom and then every water, and deflating them all
      again, leaves exactly the cells and the volume the grid started
      with, whatever the members' overlaps: the centres remain, every
      expanded cell is empty again, and the volume counter is back where
      it was. */
  lemma VolumeRoundTrip(c: Content, am: seq<Member>, wm: seq<Member>, rvol: real, rw: real, bins: Loc)
    requires Fits(c.cells, bins) && Bare(c.cells)
    requires AllIn(am, bins) && Sized(am) && AllIn(wm, bins) && rvol >= 0.0 && rw >= 0.0
    ensures var e := ExpandedTo(c, am, |am|, rvol, bins);
      var d := DeflatedTo(Content(WatersExpandedTo(e.cells, wm, |wm|, rw, bins), e.volume), Flagged(am, |am|, true), |am|, rvol, bins);
      WatersDeflatedTo(d.cells, Flagged(wm, |wm|, true), |wm|, rw, bins) == c.cells && d.volume == c.volume
  {
    var g0 := c.cells;
    forall i, j, k | InCells(g0, i, j, k)
      ensures Owed(g0, g0, am, 0, wm, 0, rvol, rw, bins, i, j, k)
    {
    }
    ExpandPhase(c, g0, am, wm, |am|, rvol, rw, bins);
    var e := ExpandedTo(c, am, |am|, rvol, bins);
    WaterExpandPhase(e.cells, g0, am, wm, |wm|, rvol, rw, bins);
    var h := Content(WatersExpandedTo(e.cells, wm, |wm|, rw, bins), e.volume);
    DeflatePhase(h, g0, am, Flagged(am, |am|, true), wm, |am|, rvol, rw, bins);
    var d := DeflatedTo(h, Flagged(am, |am|, true), |am|, rvol, bins);
    WaterDeflatePhase(d.cells, g0, am, wm, Flagged(wm, |wm|, true), |wm|, rvol, rw, bins);
    var f := WatersDeflatedTo(d.cells, Flagged(wm, |wm|, true), |wm|, rw, bins);
    Settled(f, g0, am, wm, rvol, rw, bins);
  }

  class Grid {
    var cells: array3<Cell>
    var volume: int
    var atoms: seq<Member>
    var waters: seq<Member>
    var axes: Axes
    /** The cell width, and the volume and hydration radii in bins. */
    const width: real
    const rvol: real
    const rwater: real

    function Bins(): Loc
      reads this`cells
    {
      Loc(cells.Length0, cells.Length1, cells.Length2)
    }

    ghost predicate Valid()
      reads this
    {
      cells.Length0 == axes.x.bins && cells.Length1 == axes.y.bins && cells.Length2 == axes.z.bins &&
      width > 0.0 && rvol >= 0.0 && rwater >= 0.0 &&
      AllIn(atoms, Bins()) && AllIn(waters, Bins()) && Sized(atoms)
    }

    /** An empty grid over the axes the setup chose. */
    constructor(a: Axes, width: real, rvol: real, rwater: real)
      requires a.x.bins >= 0 && a.y.bins >= 0 && a.z.bins >= 0
      requires width > 0.0 && rvol >= 0.0 && rwater >= 0.0
      ensures Valid() && fresh(cells)
      ensures axes == a && atoms == [] && waters == [] && volume == 0
      ensures this.width == width && this.rvol == rvol && this.rwater == rwater
      ensures forall i, j, k :: InArray(cells, i, j, k) ==> cells[i, j, k] == Empty
    {
      cells := new Cell[a.x.bins, a.y.bins, a.z.bins]((i, j, k) => Empty);
      volume := 0;
      atoms := [];
      waters := [];
      axes := a;
      this.width := width;
      this.rvol := rvol;
      this.rwater := rwater;
    }

    /** `expand_volume` of one atom; the copy it returns is marked
        expanded. */
    method ExpandAtom(m: Member) returns (r: Member)
      requires Valid() && InGrid(m.loc, Bins())
      modifies cells, this`volume
      ensures Valid()
      ensures r == m.(expanded := true)
      ensures Snap(cells) == AtomExpanded(old(Snap(cells)), m, rvol, Bins())
      ensures volume == old(volume) + AtomGain(old(Snap(cells)), m, rvol, Bins())
    {
      r := m.(expanded := true);
      if m.expanded {
        return;
      }
      var b := ExpandBox(m, rvol, Bins());
      ClipProper(m.loc, Ceil(rvol), cells.Length0, cells.Length1, cells.Length2);
      var added := Sweep(cells, ExpandRule(m, rvol), m.loc, b);
      volume := volume + added;
    }

    /** `deflate_volume` of one atom; the copy it returns is marked
        deflated. */
    method DeflateAtom(m: Member) returns (r: Member)
      requires Valid() && InGrid(m.loc, Bins())
      modifies cells, this`volume
      ensures Valid()
      ensures r == m.(expanded := false)
      ensures Snap(cells) == AtomDeflated(old(Snap(cells)), m, rvol, Bins())
      ensures volume == old(volume) - AtomLoss(old(Snap(cells)), m, rvol, Bins())
    {
      r := m.(expanded := false);
      if !m.expanded {
        return;
      }
      var b := DeflateBox(m, rvol, Bins());
      ClipProper(m.loc, Ceil(RMax(m.radius, rvol)), cells.Length0, cells.Length1, cells.Length2);
      var removed := Sweep(cells, DeflateRule(m, rvol), m.loc, b);
      volume := volume - removed;
    }

    /** `expand_volume` of one water. */
    method ExpandWater(m: Member) returns (r: Member)
      requires Valid() && InGrid(m.loc, Bins())
      modifies cells
      ensures r == m.(expanded := true)
      ensures Snap(cells) == WaterExpanded(old(Snap(cells)), m, rwater, Bins())
    {
      r := m.(expanded := true);
      if m.expanded {
        return;
      }
      ClipProper(m.loc, Ceil(rwater), cells.Length0, cells.Length1, cells.Length2);
      var _ := Sweep(cells, WaterRule(rwater), m.loc, WaterBox(m, rwater, Bins()));
    }

    /** `deflate_volume` of one water. */
    method DeflateWater(m: Member) returns (r: Member)
      requires Valid() && InGrid(m.loc, Bins())
      modifies cells
      ensures r == m.(expanded := false)
      ensures Snap(cells) == WaterDeflated(old(Snap(cells)), m, rwater, Bins())
    {
      r := m.(expanded := false);
      if !m.expanded {
        return;
      }
      ClipProper(m.loc, Ceil(rwater), cells.Length0, cells.Length1, cells.Length2);
      var _ := Sweep(cells, WaterDeflateRule(rwater), m.loc, WaterBox(m, rwater, Bins()));
    }

    /** One step of the loop below: the member at `i` is replaced by its
        expanded copy, and the state moves one step along the run `t`. */
    method ExpandAtomAt(ghost t: seq<Content>, ghost s0: Content, ghost a0: seq<Member>, ghost b0: Loc, i: int)
      requires 0 <= i < |a0| && t == Run(s0, ExpandSteps(a0, rvol, b0), |a0|)
      requires Valid() && Bins() == b0 && atoms == Flagged(a0, i, true) && Content(Snap(cells), volume) == t[i]
      modifies cells, this`volume, this`atoms
      ensures Valid() && Bins() == b0 && atoms == Flagged(a0, i + 1, true) && Content(Snap(cells), volume) == t[i + 1]
    {
      RunStep(s0, ExpandSteps(a0, rvol, b0), |a0|, i);
      assert atoms[i] in atoms;
      var r := ExpandAtom(atoms[i]);
      Reflag(atoms, i, true, Bins());
      atoms := atoms[i := r];
    }

    /** The atom loop of `expand_volume()`. */
    method ExpandAtoms()
      requires Valid()
      modifies cells, this`volume, this`atoms
      ensures Valid()
      ensures atoms == Flagged(old(atoms), |old(atoms)|, true)
      ensures Content(Snap(cells), volume) == ExpandedTo(Content(old(Snap(cells)), old(volume)), old(atoms), |old(atoms)|, rvol, Bins())
    {
      ghost var s0, a0, b0 := Content(Snap(cells), volume), atoms, Bins();
      ghost var t := Run(s0, ExpandSteps(a0, rvol, b0), |a0|);
      var i := 0;
      while i < |atoms|
        invariant 0 <= i <= |a0| && Valid() && Bins() == b0 && atoms == Flagged(a0, i, true) && Content(Snap(cells), volume) == t[i]
      {
        ExpandAtomAt(t, s0, a0, b0, i);
        i := i + 1;
      }
    }

    /** One step of the loop below: the member at `i` is replaced by its
        expanded copy, and the state moves one step along the run `t`. */
    method ExpandWaterAt(ghost t: seq<Cells>, ghost s0: Cells, ghost w0: seq<Member>, ghost b0: Loc, i: int)
      requires 0 <= i < |w0| && t == Run(s0, WaterExpandSteps(w0, rwater, b0), |w0|)
      requires Valid() && Bins() == b0 && waters == Flagged(w0, i, true) && Snap(cells) == t[i]
      modifies cells, this`waters
      ensures Valid() && Bins() == b0 && waters == Flagged(w0, i + 1, true) && Snap(cells) == t[i + 1]
    {
      RunStep(s0, WaterExpandSteps(w0, rwater, b0), |w0|, i);
      assert waters[i] in waters;
      var r := ExpandWater(waters[i]);
      Reflag(waters, i, true, Bins());
      waters := waters[i := r];
    }

    /** The water loop of `expand_volume()`. */
    method ExpandWaters()
      requires Valid()
      modifies cells, this`waters
      ensures Valid()
      ensures waters == Flagged(old(waters), |old(waters)|, true)
      ensures Snap(cells) == WatersExpandedTo(old(Snap(cells)), old(waters), |old(waters)|, rwater, Bins())
    {
      ghost var s0, w0, b0 := Snap(cells), waters, Bins();
      ghost var t := Run(s0, WaterExpandSteps(w0, rwater, b0), |w0|);
      var i := 0;
      while i < |waters|
        invariant 0 <= i <= |w0| && Valid() && Bins() == b0 && waters == Flagged(w0, i, true) && Snap(cells) == t[i]
      {
        ExpandWaterAt(t, s0, w0, b0, i);
        i := i + 1;
      }
    }

    /** `expand_volume()`: every atom, then every water. */
    method ExpandVolume()
      requires Valid()
      modifies cells, this`volume, this`atoms, this`waters
      ensures Valid()
      ensures atoms == Flagged(old(atoms), |old(atoms)|, true)
      ensures waters == Flagged(old(waters), |old(waters)|, true)
      ensures var c := ExpandedTo(Content(old(Snap(cells)), old(volume)), old(atoms), |old(atoms)|, rvol, Bins());
        Snap(cells) == WatersExpandedTo(c.cells, old(waters), |old(waters)|, rwater, Bins()) && volume == c.volume
    {
      ExpandAtoms();
      ExpandWaters();
    }

    /** One step of the loop below: the member at `i` is replaced by its
        deflated copy, and the state moves one step along the run `t`. */
    method DeflateAtomAt(ghost t: seq<Content>, ghost s0: Content, ghost a0: seq<Member>, ghost b0: Loc, i: int)
      requires 0 <= i < |a0| && t == Run(s0, DeflateSteps(a0, rvol, b0), |a0|)
      requires Valid() && Bins() == b0 && atoms == Flagged(a0, i, false) && Content(Snap(cells), volume) == t[i]
      modifies cells, this`volume, this`atoms
      ensures Valid() && Bins() == b0 && atoms == Flagged(a0, i + 1, false) && Content(Snap(cells), volume) == t[i + 1]
    {
      RunStep(s0, DeflateSteps(a0, rvol, b0), |a0|, i);
      assert atoms[i] in atoms;
      var r := DeflateAtom(atoms[i]);
      Reflag(atoms, i, false, Bins());
      atoms := atoms[i := r];
    }

    /** The atom loop of `deflate_volume()`. */
    method DeflateAtoms()
      requires Valid()
      modifies cells, this`volume, this`atoms
      ensures Valid()
      ensures atoms == Flagged(old(atoms), |old(atoms)|, false)
      ensures Content(Snap(cells), volume) == DeflatedTo(Content(old(Snap(cells)), old(volume)), old(atoms), |old(atoms)|, rvol, Bins())
    {
      ghost var s0, a0, b0 := Content(Snap(cells), volume), atoms, Bins();
      ghost var t := Run(s0, DeflateSteps(a0, rvol, b0), |a0|);
      var i := 0;
      while i < |atoms|
        invariant 0 <= i <= |a0| && Valid() && Bins() == b0 && atoms == Flagged(a0, i, false) && Content(Snap(cells), volume) == t[i]
      {
        DeflateAtomAt(t, s0, a0, b0, i);
        i := i + 1;
      }
    }

    /** One step of the loop below: the member at `i` is replaced by its
        deflated copy, and the state moves one step along the run `t`. */
    method DeflateWaterAt(ghost t: seq<Cells>, ghost s0: Cells, ghost w0: seq<Member>, ghost b0: Loc, i: int)
      requires 0 <= i < |w0| && t == Run(s0, WaterDeflateSteps(w0, rwater, b0), |w0|)
      requires Valid() && Bins() == b0 && waters == Flagged(w0, i, false) && Snap(cells) == t[i]
      modifies cells, this`waters
      ensures Valid() && Bins() == b0 && waters == Flagged(w0, i + 1, false) && Snap(cells) == t[i + 1]
    {
      RunStep(s0, WaterDeflateSteps(w0, rwater, b0), |w0|, i);
      assert waters[i] in waters;
      var r := DeflateWater(waters[i]);
      Reflag(waters, i, false, Bins());
      waters := waters[i := r];
    }

    /** The water loop of `deflate_volume()`. */
    method DeflateWaters()
      requires Valid()
      modifies cells, this`waters
      ensures Valid()
      ensures waters == Flagged(old(waters), |old(waters)|, false)
      ensures Snap(cells) == WatersDeflatedTo(old(Snap(cells)), old(waters), |old(waters)|, rwater, Bins())
    {
      ghost var s0, w0, b0 := Snap(cells), waters, Bins();
      ghost var t := Run(s0, WaterDeflateSteps(w0, rwater, b0), |w0|);
      var i := 0;
      while i < |waters|
        invariant 0 <= i <= |w0| && Valid() && Bins() == b0 && waters == Flagged(w0, i, false) && Snap(cells) == t[i]
      {
        DeflateWaterAt(t, s0, w0, b0, i);
        i := i + 1;
      }
    }

    /** `deflate_volume()`: every atom, then every water. */
    method DeflateVolume()
      requires Valid()
      modifies cells, this`volume, this`atoms, this`waters
      ensures Valid()
      ensures atoms == Flagged(old(atoms), |old(atoms)|, false)
      ensures waters == Flagged(old(waters), |old(waters)|, false)
      ensures var c := DeflatedTo(Content(old(Snap(cells)), old(volume)), old(atoms), |old(atoms)|, rvol, Bins());
        Snap(cells) == WatersDeflatedTo(c.cells, old(waters), |old(waters)|, rwater, Bins()) && volume == c.volume
    {
      DeflateAtoms();
      DeflateWaters();
    }

    /** The centre of a new atom: the cell becomes an atom centre, and the
        volume grows by one when it was empty. */
    method PlaceAtom(loc: Loc)
      requires Valid() && InGrid(loc, Bins())
      modifies cells, this`volume
      ensures Valid()
      ensures Snap(cells) == Put(old(Snap(cells)), loc, ACenter)
      ensures volume == old(volume) + if old(Snap(cells))[loc.x][loc.y][loc.z] == Empty then 1 else 0
    {
      if cells[loc.x, loc.y, loc.z] == Empty {
        volume := volume + 1;
      }
      SetCell(cells, loc, ACenter);
    }

    /** `add(Atom, expand)`: the atom goes into the bin nearest its
        coordinates, which the caller keeps inside the grid. */
    method AddAtom(uid: int, v: Vec, radius: real, expand: bool) returns (m: Member)
      requires Valid() && radius >= 0.0 && InGrid(ToBins(v, axes, width), Bins())
      modifies cells, this`volume, this`atoms
      ensures Valid()
      ensures m == Member(uid, ToBins(v, axes, width), radius, expand)
      ensures atoms == old(atoms) + [m]
      ensures Content(Snap(cells), volume) == Added(Content(old(Snap(cells)), old(volume)), m.(expanded := false), expand, rvol, Bins())
    {
      var loc := ToBins(v, axes, width);
      PlaceAtom(loc);
      m := Member(uid, loc, radius, false);
      if expand {
        m := ExpandAtom(m);
      }
      atoms := atoms + [m];
    }

    /** `add(Water, expand)`: the water goes into the bin nearest its
        coordinates; the volume is untouched. */
    method AddWater(uid: int, v: Vec, expand: bool) returns (m: Member)
      requires Valid() && InGrid(ToBins(v, axes, width), Bins())
      modifies cells, this`waters
      ensures Valid()
      ensures m == Member(uid, ToBins(v, axes, width), rwater, expand)
      ensures waters == old(waters) + [m]
      ensures Snap(cells) == AddedWater(old(Snap(cells)), m.(expanded := false), expand, rwater, Bins())
    {
      var loc := ToBins(v, axes, width);
      m := Member(uid, loc, rwater, false);
      SetCell(cells, loc, WCenter);
      if expand {
        m := ExpandWater(m);
      }
      waters := waters + [m];
    }

    /** The cleanup of one removed atom. */
    method CleanAtom(m: Member, kind: Cleanup)
      requires Valid() && InGrid(m.loc, Bins()) && kind != ByWaters
      modifies cells, this`volume
      ensures Valid()
      ensures var r := CleanStep(Content(old(Snap(cells)), old(volume)), m, kind, rvol, rwater, Bins());
        Snap(cells) == r.cells && volume == r.volume
    {
      ghost var r := CleanStep(Content(Snap(cells), volume), m, kind, rvol, rwater, Bins());
      var _ := DeflateAtom(m);
      if kind == ByMask {
        volume := volume - 1;
      } else if cells[m.loc.x, m.loc.y, m.loc.z] == ACenter {
        volume := volume - 1;
      }
      assert volume == r.volume;
      SetCell(cells, m.loc, Empty);
    }

    /** One step of the loop below: the state moves one step along the
        run `t`. */
    method CleanAtomAt(ghost t: seq<Content>, ghost c0: Content, ghost b0: Loc, ms: seq<Member>, kind: Cleanup, i: int)
      requires 0 <= i < |ms| && AllIn(ms, b0) && kind != ByWaters && t == Run(c0, CleanSteps(ms, kind, rvol, rwater, b0), |ms|)
      requires Valid() && Bins() == b0 && Content(Snap(cells), volume) == t[i]
      modifies cells, this`volume
      ensures Valid() && Bins() == b0 && Content(Snap(cells), volume) == t[i + 1]
    {
      RunStep(c0, CleanSteps(ms, kind, rvol, rwater, b0), |ms|, i);
      assert ms[i] in ms;
      CleanAtom(ms[i], kind);
    }

    /** The cleanup loop of the atom removals over the removed atoms. */
    method CleanAtoms(ms: seq<Member>, kind: Cleanup)
      requires Valid() && AllIn(ms, Bins()) && kind != ByWaters
      modifies cells, this`volume
      ensures Valid()
      ensures Content(Snap(cells), volume) == CleanTo(Content(old(Snap(cells)), old(volume)), ms, |ms|, kind, rvol, rwater, Bins())
    {
      ghost var c0, b0 := Content(Snap(cells), volume), Bins();
      ghost var t := Run(c0, CleanSteps(ms, kind, rvol, rwater, b0), |ms|);
      var i := 0;
      while i < |ms|
        invariant 0 <= i <= |ms| && Valid() && Bins() == b0 && Content(Snap(cells), volume) == t[i]
      {
        CleanAtomAt(t, c0, b0, ms, kind, i);
        i := i + 1;
      }
    }

    /** The cleanup of one removed water. */
    method CleanWater(m: Member)
      requires Valid() && InGrid(m.loc, Bins())
      modifies cells
      ensures Valid()
      ensures Content(Snap(cells), volume) == CleanStep(Content(old(Snap(cells)), volume), m, ByWaters, rvol, rwater, Bins())
    {
      var _ := DeflateWater(m);
      SetCell(cells, m.loc, Empty);
    }

    /** One step of the loop below. */
    method CleanWaterAt(ghost t: seq<Content>, ghost c0: Content, ghost b0: Loc, ms: seq<Member>, i: int)
      requires 0 <= i < |ms| && AllIn(ms, b0) && t == Run(c0, CleanSteps(ms, ByWaters, rvol, rwater, b0), |ms|)
      requires Valid() && Bins() == b0 && Content(Snap(cells), volume) == t[i]
      modifies cells
      ensures Valid() && Bins() == b0 && Content(Snap(cells), volume) == t[i + 1]
    {
      RunStep(c0, CleanSteps(ms, ByWaters, rvol, rwater, b0), |ms|, i);
      assert ms[i] in ms;
      CleanWater(ms[i]);
    }

    /** The cleanup loop of the water removals: each removed water is
        deflated and its centre emptied. */
    method CleanWaters(ms: seq<Member>)
      requires Valid() && AllIn(ms, Bins())
      modifies cells
      ensures Valid()
      ensures Content(Snap(cells), volume) == CleanTo(Content(old(Snap(cells)), volume), ms, |ms|, ByWaters, rvol, rwater, Bins())
    {
      ghost var c0, b0 := Content(Snap(cells), volume), Bins();
      ghost var t := Run(c0, CleanSteps(ms, ByWaters, rvol, rwater, b0), |ms|);
      var i := 0;
      while i < |ms|
        invariant 0 <= i <= |ms| && Valid() && Bins() == b0 && Content(Snap(cells), volume) == t[i]
      {
        CleanWaterAt(t, c0, b0, ms, i);
        i := i + 1;
      }
    }

    /** `remove(vector<bool>)`: the atoms whose uid the mask marks leave the
        list; a count that disagrees with the mask's is an error, reported
        after the list has changed and before any cell is cleaned. The
        caller's mask covers every atom, and the marked uids are not held
        by more atoms than the mask marks. */
    method RemoveMask(mask: seq<bool>) returns (r: Result<(), GridError>)
      requires Valid() && |atoms| <= |mask|
      requires |Taken(atoms, Marked(MaskMapTo(atoms, mask, |atoms|)))| <= Trues(mask, |atoms|)
      modifies cells, this`volume, this`atoms
      ensures Valid()
      ensures atoms == Kept(old(atoms), Marked(MaskMapTo(old(atoms), mask, |old(atoms)|)))
      ensures var t := Taken(old(atoms), Marked(MaskMapTo(old(atoms), mask, |old(atoms)|)));
        if |t| != Trues(mask, |old(atoms)|) then r == Err(InvalidOperation) && Snap(cells) == old(Snap(cells)) && volume == old(volume)
        else r == Ok(()) && Content(Snap(cells), volume) == CleanTo(Content(old(Snap(cells)), old(volume)), t, |t|, ByMask, rvol, rwater, Bins())
    {
      var marks, total := MarkMask(atoms, mask);
      var s := Marked(marks);
      var t := Taken(atoms, s);
      atoms := Kept(atoms, s);
      if |t| != total {
        return Err(InvalidOperation);
      }
      CleanAtoms(t, ByMask);
      r := Ok(());
    }

    /** `remove(Atom)`: the first atom with the uid leaves the list and is
        cleaned up; an atom not in the grid is an error. */
    method RemoveAtom(uid: int) returns (r: Result<(), GridError>)
      requires Valid()
      modifies cells, this`volume, this`atoms
      ensures Valid()
      ensures Find(old(atoms), uid).None? ==> r == Err(InvalidOperation) && atoms == old(atoms) && Snap(cells) == old(Snap(cells)) && volume == old(volume)
      ensures Find(old(atoms), uid).Some? ==> var p := Find(old(atoms), uid).value;
        r == Ok(()) && atoms == old(atoms)[..p] + old(atoms)[p + 1..] &&
        Content(Snap(cells), volume) == CleanTo(Content(old(Snap(cells)), old(volume)), [old(atoms)[p]], 1, ByMask, rvol, rwater, Bins())
    {
      var pos := Find(atoms, uid);
      if pos.None? {
        return Err(InvalidOperation);
      }
      var p := pos.value;
      var m := atoms[p];
      assert m in atoms;
      atoms := atoms[..p] + atoms[p + 1..];
      CleanAtoms([m], ByMask);
      r := Ok(());
    }

    /** `remove(Water)`: the first water with the uid leaves the list and
        is cleaned up; a water not in the grid is an error. */
    method RemoveWater(uid: int) returns (r: Result<(), GridError>)
      requires Valid()
      modifies cells, this`waters
      ensures Valid()
      ensures Find(old(waters), uid).None? ==> r == Err(InvalidOperation) && waters == old(waters) && Snap(cells) == old(Snap(cells))
      ensures Find(old(waters), uid).Some? ==> var p := Find(old(waters), uid).value;
        r == Ok(()) && waters == old(waters)[..p] + old(waters)[p + 1..] &&
        Snap(cells) == CleanTo(Content(old(Snap(cells)), volume), [old(waters)[p]], 1, ByWaters, rvol, rwater, Bins()).cells
    {
      var pos := Find(waters, uid);
      if pos.None? {
        return Err(InvalidOperation);
      }
      var p := pos.value;
      var m := waters[p];
      assert m in waters;
      waters := waters[..p] + waters[p + 1..];
      CleanWaters([m]);
      r := Ok(());
    }

    /** `remove(vector<Atom>)`: the atoms whose uid is listed leave the
        list; a count that disagrees with the list's length is an error. The
        listed uids are not held by more atoms than the list is long. */
    method RemoveAtoms(uids: seq<int>) returns (r: Result<(), GridError>)
      requires Valid() && |Taken(atoms, set u | u in uids)| <= |uids|
      modifies cells, this`volume, this`atoms
      ensures Valid()
      ensures atoms == Kept(old(atoms), set u | u in uids)
      ensures var t := Taken(old(atoms), set u | u in uids);
        if |t| != |uids| then r == Err(Unexpected) && Snap(cells) == old(Snap(cells)) && volume == old(volume)
        else r == Ok(()) && Content(Snap(cells), volume) == CleanTo(Content(old(Snap(cells)), old(volume)), t, |t|, ByAtoms, rvol, rwater, Bins())
    {
      var s := set u | u in uids;
      var t := Taken(atoms, s);
      atoms := Kept(atoms, s);
      if |t| != |uids| {
        return Err(Unexpected);
      }
      CleanAtoms(t, ByAtoms);
      r := Ok(());
    }

    /** `remove(vector<Water>)`, the same for waters. */
    method RemoveWaters(uids: seq<int>) returns (r: Result<(), GridError>)
      requires Valid() && |Taken(waters, set u | u in uids)| <= |uids|
      modifies cells, this`waters
      ensures Valid()
      ensures waters == Kept(old(waters), set u | u in uids)
      ensures var t := Taken(old(waters), set u | u in uids);
        if |t| != |uids| then r == Err(Unexpected) && Snap(cells) == old(Snap(cells))
        else r == Ok(()) && Snap(cells) == CleanTo(Content(old(Snap(cells)), volume), t, |t|, ByWaters, rvol, rwater, Bins()).cells
    {
      var s := set u | u in uids;
      var t := Taken(waters, s);
      waters := Kept(waters, s);
      if |t| != |uids| {
        return Err(Unexpected);
      }
      CleanWaters(t);
      r := Ok(());
    }

    /** `clear_waters`: every water is removed and cleaned up, in order;
        the atoms and the volume are untouched. */
    method ClearWaters()
      requires Valid()
      modifies cells, this`waters
      ensures Valid()
      ensures waters == []
      ensures Snap(cells) == CleanTo(Content(old(Snap(cells)), volume), old(waters), |old(waters)|, ByWaters, rvol, rwater, Bins()).cells
    {
      var uids := seq(|waters|, i requires 0 <= i < |waters| reads this => waters[i].uid);
      var s := set u | u in uids;
      assert forall m :: m in waters ==> m.uid in s by {
        forall m | m in waters
          ensures m.uid in s
        {
          var i :| 0 <= i < |waters| && waters[i] == m;
          assert uids[i] == m.uid;
        }
      }
      TakenAll(waters, s, |waters|);
      assert waters[..|waters|] == waters;
      var r := RemoveWaters(uids);
    }

    /** `operator=`: a copy of the other grid's cells, members, volume and
        axes; the settings are process-wide and already agree. */
    method Assign(rhs: Grid)
      requires rhs.Valid() && rhs.width == width && rhs.rvol == rvol && rhs.rwater == rwater
      modifies this
      ensures Valid() && fresh(cells)
      ensures Snap(cells) == old(Snap(rhs.cells))
      ensures atoms == old(rhs.atoms) && waters == old(rhs.waters) && volume == old(rhs.volume) && axes == old(rhs.axes)
    {
      var src := rhs.cells;
      cells := Copy(src);
      atoms := rhs.atoms;
      waters := rhs.waters;
      volume := rhs.volume;
      axes := rhs.axes;
    }

    /** `operator==`: equal volume, member counts and axes; the cells are
        not compared. */
    predicate Equals(rhs: Grid)
      reads this, rhs
    {
      volume == rhs.volume && |atoms| == |rhs.atoms| && |waters| == |rhs.waters| && axes == rhs.axes
    }
  }
}
