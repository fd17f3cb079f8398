/** The occupancy grid of `source/hydrate/Grid.cpp`, the generation the
    hydration code works on. Every atom has the same radius `ra` and every
    water the same radius `rh`, both whole numbers of bins; expanding a
    member paints the empty cells of its ball, and only the atoms' area
    counts towards the volume. Deflating empties that area again. */
module HydrateGrid {
  import opened Voxels
  import opened Wrappers
  import opened GridParts
  import opened Runs

  // ---- the rules of one member ----

  /** `int(radius / width)` for a non-negative radius: C++ truncates toward
      zero, which is the floor here. */
  function BinRadius(radius: real, width: real): (r: int)
    requires radius >= 0.0 && width > 0.0
    ensures r >= 0 && r as real <= radius / width < (r + 1) as real
  {
    (radius / width).Floor
  }

  /** The source compares `sqrt(dist2)` with the radius; for whole numbers
      of bins that is `dist2 <= r * r`. */
  function Sq(r: int): real { (r * r) as real }

  /** An atom's expansion paints the empty cells within `ra` as atom area
      and counts them; its deflation empties that area and counts it. */
  function AtomRule(ra: int): Rule { Paint(Sq(ra), AArea, true) }

  function AtomUndo(ra: int): Rule { Erase(Sq(ra), AArea, false, true) }

  /** A water paints the empty cells within `rh` as water area, and its
      deflation empties that area; neither counts. */
  function WaterRule(rh: int): Rule { Paint(Sq(rh), WArea, false) }

  function WaterUndo(rh: int): Rule { Erase(Sq(rh), WArea, false, false) }

  /** The box [c - r, c + r] around a member, clipped to the grid. */
  function Reach(m: Member, r: int, bins: Loc): Box { Clip(m.loc, r, bins.x, bins.y, bins.z) }

  /** The cells after expanding an atom; an expanded atom is left as it is. */
  function AtomExpanded(g: Cells, m: Member, ra: int, bins: Loc): Cells {
    if m.expanded then g else Swept(g, AtomRule(ra), m.loc, Reach(m, ra, bins))
  }

  /** The volume an atom's expansion adds. */
  function AtomGain(g: Cells, m: Member, ra: int, bins: Loc): nat {
    if m.expanded then 0 else Tally(g, AtomRule(ra), m.loc, Reach(m, ra, bins))
  }

  /** The cells after deflating an atom; a deflated atom is left as it is. */
  function AtomDeflated(g: Cells, m: Member, ra: int, bins: Loc): Cells {
    if !m.expanded then g else Swept(g, AtomUndo(ra), m.loc, Reach(m, ra, bins))
  }

  /** The volume an atom's deflation removes. */
  function AtomLoss(g: Cells, m: Member, ra: int, bins: Loc): nat {
    if !m.expanded then 0 else Tally(g, AtomUndo(ra), m.loc, Reach(m, ra, bins))
  }

  function WaterExpanded(g: Cells, m: Member, rh: int, bins: Loc): Cells {
    if m.expanded then g else Swept(g, WaterRule(rh), m.loc, Reach(m, rh, bins))
  }

  function WaterDeflated(g: Cells, m: Member, rh: int, bins: Loc): Cells {
    if !m.expanded then g else Swept(g, WaterUndo(rh), m.loc, Reach(m, rh, bins))
  }

  // ---- an expansion undone by a deflation ----

  /** No cell within `r` bins of `c` holds `paint`: nothing else has
      expanded into the ball. */
  ghost predicate Untouched(g: Cells, c: Loc, paint: Cell, r: int) {
    forall i, j, k :: InCells(g, i, j, k) ==> (Dist2(c, i, j, k) as real <= Sq(r) ==> g[i][j][k] != paint)
  }

  /** Around an untouched member its deflation undoes its expansion cell
      by cell. */
  lemma PaintsReverse(g: Cells, c: Loc, paint: Cell, counted: bool, r: int)
    requires paint != Empty && Untouched(g, c, paint, r)
    ensures forall i, j, k :: InCells(g, i, j, k) ==>
      Reverses(Paint(Sq(r), paint, counted), Erase(Sq(r), paint, false, counted), g[i][j][k], Dist2(c, i, j, k))
  {
    forall i, j, k | InCells(g, i, j, k)
      ensures Reverses(Paint(Sq(r), paint, counted), Erase(Sq(r), paint, false, counted), g[i][j][k], Dist2(c, i, j, k))
    {
      PaintReversed(Sq(r), paint, counted, g[i][j][k], Dist2(c, i, j, k));
    }
  }

  /** Deflating an atom right after expanding it restores the cells when
      no atom area lay within its radius. */
  lemma AtomExpandThenDeflate(g: Cells, m: Member, ra: int, bins: Loc)
    requires Fits(g, bins) && InGrid(m.loc, bins) && ra >= 0 && !m.expanded && Untouched(g, m.loc, AArea, ra)
    ensures AtomDeflated(AtomExpanded(g, m, ra, bins), m.(expanded := true), ra, bins) == g
  {
    PaintsReverse(g, m.loc, AArea, true, ra);
    ClipProper(m.loc, ra, bins.x, bins.y, bins.z);
    SweepsUndo(g, m.loc, AtomRule(ra), AtomUndo(ra), Reach(m, ra, bins), Reach(m, ra, bins), bins.x, bins.y, bins.z);
  }

  /** Under the same condition the deflation removes exactly the volume
      the expansion added. */
  lemma AtomExpandThenDeflateVolume(g: Cells, m: Member, ra: int, bins: Loc)
    requires Fits(g, bins) && InGrid(m.loc, bins) && ra >= 0 && !m.expanded && Untouched(g, m.loc, AArea, ra)
    ensures AtomLoss(AtomExpanded(g, m, ra, bins), m.(expanded := true), ra, bins) == AtomGain(g, m, ra, bins)
  {
    PaintsReverse(g, m.loc, AArea, true, ra);
    ClipProper(m.loc, ra, bins.x, bins.y, bins.z);
    SweepsUndoCount(g, m.loc, AtomRule(ra), AtomUndo(ra), Reach(m, ra, bins), Reach(m, ra, bins), bins.x, bins.y, bins.z);
  }

  /** Deflating a water right after expanding it restores the cells when
      no water area lay within its radius. */
  lemma WaterExpandThenDeflate(g: Cells, m: Member, rh: int, bins: Loc)
    requires Fits(g, bins) && InGrid(m.loc, bins) && rh >= 0 && !m.expanded && Untouched(g, m.loc, WArea, rh)
    ensures WaterDeflated(WaterExpanded(g, m, rh, bins), m.(expanded := true), rh, bins) == g
  {
    PaintsReverse(g, m.loc, WArea, false, rh);
    ClipProper(m.loc, rh, bins.x, bins.y, bins.z);
    SweepsUndo(g, m.loc, WaterRule(rh), WaterUndo(rh), Reach(m, rh, bins), Reach(m, rh, bins), bins.x, bins.y, bins.z);
  }

  // ---- what the grid holds ----

  /** Adding an atom: the volume grows by one unless its centre was atom
      area, the centre becomes an atom centre, and the atom is expanded on
      demand. */
  function Added(c: Content, m: Member, expand: bool, ra: int, bins: Loc): Content
    requires InCells(c.cells, m.loc.x, m.loc.y, m.loc.z)
  {
    var h := Centered(c, m);
    if expand then Content(AtomExpanded(h.cells, m, ra, bins), h.volume + AtomGain(h.cells, m, ra, bins)) else h
  }

  /** The centre step of adding an atom. */
  function Centered(c: Content, m: Member): Content
    requires InCells(c.cells, m.loc.x, m.loc.y, m.loc.z)
  {
    Content(Put(c.cells, m.loc, ACenter), c.volume + (if c.cells[m.loc.x][m.loc.y][m.loc.z] != AArea then 1 else 0))
  }

  /** Adding a water: its centre becomes a water centre, expanded on
      demand; the volume is unchanged. */
  function AddedWater(g: Cells, m: Member, expand: bool, rh: int, bins: Loc): Cells
    requires InCells(g, m.loc.x, m.loc.y, m.loc.z)
  {
    var h := Put(g, m.loc, WCenter);
    if expand then WaterExpanded(h, m, rh, bins) else h
  }

  /** Every atom removal cleans up the same way: the atom is deflated, its
      centre emptied and the volume decremented. */
  function Cleaned(c: Content, m: Member, ra: int, bins: Loc): (r: Content)
    requires Fits(c.cells, bins) && InGrid(m.loc, bins)
    ensures Fits(r.cells, bins)
  {
    Content(Put(AtomDeflated(c.cells, m, ra, bins), m.loc, Empty), c.volume - AtomLoss(c.cells, m, ra, bins) - 1)
  }

  /** A removed water is deflated and its centre emptied. */
  function WaterCleaned(g: Cells, m: Member, rh: int, bins: Loc): (r: Cells)
    requires Fits(g, bins) && InGrid(m.loc, bins)
    ensures Fits(r, bins)
  {
    Put(WaterDeflated(g, m, rh, bins), m.loc, Empty)
  }

  /** The cleanup of the `j`-th removed atom, as one step of a run over
      the cells and the volume. */
  function CleanSteps(ms: seq<Member>, ra: int, bins: Loc): (Content, nat) -> Content {
    (c: Content, j: nat) => if j < |ms| && Fits(c.cells, bins) && InGrid(ms[j].loc, bins) then Cleaned(c, ms[j], ra, bins) else c
  }

  /** The cleanup after the atoms `[0, k)`, in order. */
  function CleanedTo(c: Content, ms: seq<Member>, k: nat, ra: int, bins: Loc): Content {
    Run(c, CleanSteps(ms, ra, bins), k)[k]
  }

  /** The cleanup of the `j`-th removed water, as one step of a run. */
  function WaterCleanSteps(ms: seq<Member>, rh: int, bins: Loc): (Cells, nat) -> Cells {
    (g: Cells, j: nat) => if j < |ms| && Fits(g, bins) && InGrid(ms[j].loc, bins) then WaterCleaned(g, ms[j], rh, bins) else g
  }

  /** The cleanup after the waters `[0, k)`, in order. */
  function WatersCleanedTo(g: Cells, ms: seq<Member>, k: nat, rh: int, bins: Loc): Cells {
    Run(g, WaterCleanSteps(ms, rh, bins), k)[k]
  }

  /** Adding an atom to an empty cell and removing it again restores the
      cells and the volume, expanded or not, when no atom area lay within
      its radius. */
  lemma AddThenRemove(c: Content, m: Member, expand: bool, ra: int, bins: Loc)
    requires Fits(c.cells, bins) && InGrid(m.loc, bins) && ra >= 0 && !m.expanded
    requires Untouched(c.cells, m.loc, AArea, ra) && c.cells[m.loc.x][m.loc.y][m.loc.z] == Empty
    ensures Cleaned(Added(c, m, expand, ra, bins), m.(expanded := expand), ra, bins) == c
  {
    var g := Put(c.cells, m.loc, ACenter);
    assert Fits(g, bins);
    assert Untouched(g, m.loc, AArea, ra);
    if expand {
      AtomExpandThenDeflate(g, m, ra, bins);
      AtomExpandThenDeflateVolume(g, m, ra, bins);
    }
    PutBack(c.cells, m.loc, ACenter);
  }

  /** Adding a water to an empty cell and removing it again restores the
      cells, when no water area lay within its radius. */
  lemma AddThenRemoveWater(g: Cells, m: Member, expand: bool, rh: int, bins: Loc)
    requires Fits(g, bins) && InGrid(m.loc, bins) && rh >= 0 && !m.expanded
    requires Untouched(g, m.loc, WArea, rh) && g[m.loc.x][m.loc.y][m.loc.z] == Empty
    ensures WaterCleaned(AddedWater(g, m, expand, rh, bins), m.(expanded := expand), rh, bins) == g
  {
    var h := Put(g, m.loc, WCenter);
    assert Fits(h, bins);
    assert Untouched(h, m.loc, WArea, rh);
    if expand {
      WaterExpandThenDeflate(h, m, rh, bins);
    }
    PutBack(g, m.loc, WCenter);
  }

  // ---- every member at once ----

  /** Expanding the `j`-th atom, as one step of a run over the cells and
      the volume. */
  function ExpandSteps(ms: seq<Member>, ra: int, bins: Loc): (Content, nat) -> Content {
    (c: Content, j: nat) => if j < |ms| then Content(AtomExpanded(c.cells, ms[j], ra, bins), c.volume + AtomGain(c.cells, ms[j], ra, bins)) else c
  }

  /** The cells and the volume after expanding the atoms `[0, k)` in order. */
  function ExpandedTo(c: Content, ms: seq<Member>, k: nat, ra: int, bins: Loc): Content {
    Run(c, ExpandSteps(ms, ra, bins), k)[k]
  }

  /** Deflating the `j`-th atom, as one step of a run. */
  function DeflateSteps(ms: seq<Member>, ra: int, bins: Loc): (Content, nat) -> Content {
    (c: Content, j: nat) => if j < |ms| then Content(AtomDeflated(c.cells, ms[j], ra, bins), c.volume - AtomLoss(c.cells, ms[j], ra, bins)) else c
  }

  /** The cells and the volume after deflating the atoms `[0, k)` in order. */
  function DeflatedTo(c: Content, ms: seq<Member>, k: nat, ra: int, bins: Loc): Content {
    Run(c, DeflateSteps(ms, ra, bins), k)[k]
  }

  /** Expanding the `j`-th water, as one step of a run over the cells. */
  function WaterExpandSteps(ms: seq<Member>, rh: int, bins: Loc): (Cells, nat) -> Cells {
    (g: Cells, j: nat) => if j < |ms| then WaterExpanded(g, ms[j], rh, bins) else g
  }

  /** The cells after expanding the waters `[0, k)` in order. */
  function WatersExpandedTo(g: Cells, ms: seq<Member>, k: nat, rh: int, bins: Loc): Cells {
    Run(g, WaterExpandSteps(ms, rh, bins), k)[k]
  }

  /** Deflating the `j`-th water, as one step of a run. */
  function WaterDeflateSteps(ms: seq<Member>, rh: int, bins: Loc): (Cells, nat) -> Cells {
    (g: Cells, j: nat) => if j < |ms| then WaterDeflated(g, ms[j], rh, bins) else g
  }

  /** The cells after deflating the waters `[0, k)` in order. */
  function WatersDeflatedTo(g: Cells, ms: seq<Member>, k: nat, rh: int, bins: Loc): Cells {
    Run(g, WaterDeflateSteps(ms, rh, bins), k)[k]
  }

  // ---- every member expanded, deflated, added and removed ----

  /** The state the volume counter stands for: atom area. */
  const Occupied: set<Cell> := {AArea}

  /** The atom area cells of the whole grid. */
  function Census(g: Cells, bins: Loc): nat { Count(g, Occupied, Whole(bins.x, bins.y, bins.z)) }

  /** No atom area and no water area anywhere: a grid with at most centres
      placed, before any expansion. */
  ghost predicate Bare(g: Cells) {
    forall i, j, k :: InCells(g, i, j, k) ==> g[i][j][k] != AArea && g[i][j][k] != WArea
  }

  /** Cell (i, j, k) lies in the ball of `r` bins around member `m`, inside
      its box. */
  predicate Near(m: Member, r: int, bins: Loc, i: int, j: int, k: int) {
    InBox(Reach(m, r, bins), i, j, k) && Dist2(m.loc, i, j, k) as real <= Sq(r)
  }

  /** Which members may still account for a changed cell: atom centres of
      `am[ca..]`, atom area of `am[a..]`, water area of `wm[w..]`. */
  datatype Debt = Debt(am: seq<Member>, a: int, ca: int, wm: seq<Member>, w: int, ra: int, rh: int, bins: Loc)

  /** A state `s` in cell (i, j, k) that one of the members of the debt
      may have written. */
  ghost predicate Claimed(s: Cell, d: Debt, i: int, j: int, k: int) {
    (s == ACenter && exists p :: 0 <= d.ca <= p < |d.am| && d.am[p].loc == Loc(i, j, k)) ||
    (s == AArea && exists p :: 0 <= d.a <= p < |d.am| && Near(d.am[p], d.ra, d.bins, i, j, k)) ||
    (s == WArea && exists p :: 0 <= d.w <= p < |d.wm| && Near(d.wm[p], d.rh, d.bins, i, j, k))
  }

  /** Cell (i, j, k) of `g` holds what it held in `g0`, or it was empty
      there and a member of the debt claims what it holds now. */
  ghost predicate Owed(g: Cells, g0: Cells, d: Debt, i: int, j: int, k: int)
    requires InCells(g0, i, j, k)
  {
    InCells(g, i, j, k) && (g[i][j][k] == g0[i][j][k] || (g0[i][j][k] == Empty && Claimed(g[i][j][k], d, i, j, k)))
  }

  ghost predicate Pending(g: Cells, g0: Cells, d: Debt) {
    forall i, j, k :: InCells(g0, i, j, k) ==> Owed(g, g0, d, i, j, k)
  }

  /** Nothing has changed yet. */
  lemma Unchanged(g0: Cells, d: Debt)
    ensures Pending(g0, g0, d)
  {
    forall i, j, k | InCells(g0, i, j, k)
      ensures Owed(g0, g0, d, i, j, k)
    {
    }
  }

  /** Once nothing is owed, the cells are the original ones. */
  lemma Settled(g: Cells, g0: Cells, d: Debt)
    requires Fits(g, d.bins) && Fits(g0, d.bins) && d.a == d.ca == |d.am| && d.w == |d.wm| && Pending(g, g0, d)
    ensures g == g0
  {
    forall i, j, k | InCells(g, i, j, k)
      ensures g[i][j][k] == g0[i][j][k]
    {
      assert Owed(g, g0, d, i, j, k);
    }
    CellsEq(g, g0, d.bins.x, d.bins.y, d.bins.z);
  }

  /** Expanding atom `f`, which sits where `am[q]` does, keeps every cell
      owed. */
  lemma ExpandOwes(g: Cells, g0: Cells, d: Debt, q: int, f: Member)
    requires 0 <= d.a <= q < |d.am| && f.loc == d.am[q].loc
    requires Fits(g, d.bins) && Fits(g0, d.bins) && Pending(g, g0, d)
    ensures Pending(AtomExpanded(g, f, d.ra, d.bins), g0, d)
  {
    var h := AtomExpanded(g, f, d.ra, d.bins);
    forall i, j, k | InCells(g0, i, j, k)
      ensures Owed(h, g0, d, i, j, k)
    {
      assert Owed(g, g0, d, i, j, k);
      if h[i][j][k] != g[i][j][k] {
        assert Near(d.am[q], d.ra, d.bins, i, j, k);
      }
    }
  }

  /** Expanding water `f`, which sits where `wm[q]` does, keeps every cell
      owed. */
  lemma WaterExpandOwes(g: Cells, g0: Cells, d: Debt, q: int, f: Member)
    requires 0 <= d.w <= q < |d.wm| && f.loc == d.wm[q].loc
    requires Fits(g, d.bins) && Fits(g0, d.bins) && Pending(g, g0, d)
    ensures Pending(WaterExpanded(g, f, d.rh, d.bins), g0, d)
  {
    var h := WaterExpanded(g, f, d.rh, d.bins);
    forall i, j, k | InCells(g0, i, j, k)
      ensures Owed(h, g0, d, i, j, k)
    {
      assert Owed(g, g0, d, i, j, k);
      if h[i][j][k] != g[i][j][k] {
        assert Near(d.wm[q], d.rh, d.bins, i, j, k);
      }
    }
  }

  /** Deflating the expanded atom `f`, which sits where `am[n - 1]` does,
      pays off the atom area it owed. */
  lemma DeflateOwes(g: Cells, g0: Cells, d: Debt, n: int, f: Member)
    requires 0 < n <= |d.am| && d.a == n - 1 && f.loc == d.am[n - 1].loc && f.expanded
    requires Fits(g, d.bins) && Fits(g0, d.bins) && Bare(g0) && Pending(g, g0, d)
    ensures Pending(AtomDeflated(g, f, d.ra, d.bins), g0, d.(a := n))
  {
    var h := AtomDeflated(g, f, d.ra, d.bins);
    forall i, j, k | InCells(g0, i, j, k)
      ensures Owed(h, g0, d.(a := n), i, j, k)
    {
      assert Owed(g, g0, d, i, j, k);
      if h[i][j][k] == g[i][j][k] && g[i][j][k] != g0[i][j][k] && g[i][j][k] == AArea {
        assert !Near(d.am[n - 1], d.ra, d.bins, i, j, k);
        var p :| 0 <= n - 1 <= p < |d.am| && Near(d.am[p], d.ra, d.bins, i, j, k);
        assert p != n - 1;
      }
    }
  }

  /** Deflating the expanded water `f`, which sits where `wm[n - 1]` does,
      pays off the water area it owed. */
  lemma WaterDeflateOwes(g: Cells, g0: Cells, d: Debt, n: int, f: Member)
    requires 0 < n <= |d.wm| && d.w == n - 1 && f.loc == d.wm[n - 1].loc && f.expanded
    requires Fits(g, d.bins) && Fits(g0, d.bins) && Bare(g0) && Pending(g, g0, d)
    ensures Pending(WaterDeflated(g, f, d.rh, d.bins), g0, d.(w := n))
  {
    var h := WaterDeflated(g, f, d.rh, d.bins);
    forall i, j, k | InCells(g0, i, j, k)
      ensures Owed(h, g0, d.(w := n), i, j, k)
    {
      assert Owed(g, g0, d, i, j, k);
      if h[i][j][k] == g[i][j][k] && g[i][j][k] != g0[i][j][k] && g[i][j][k] == WArea {
        assert !Near(d.wm[n - 1], d.rh, d.bins, i, j, k);
        var p :| 0 <= n - 1 <= p < |d.wm| && Near(d.wm[p], d.rh, d.bins, i, j, k);
        assert p != n - 1;
      }
    }
  }

  /** Writing the centre of `am[q]`, on a cell empty at the start, keeps
      every cell owed. */
  lemma CentreOwes(g: Cells, g0: Cells, d: Debt, q: int)
    requires 0 <= d.ca <= q < |d.am| && InGrid(d.am[q].loc, d.bins) && At(g0, d.am[q].loc.x, d.am[q].loc.y, d.am[q].loc.z) == Empty
    requires Fits(g, d.bins) && Fits(g0, d.bins) && Pending(g, g0, d)
    ensures Pending(Put(g, d.am[q].loc, ACenter), g0, d)
  {
    var h := Put(g, d.am[q].loc, ACenter);
    forall i, j, k | InCells(g0, i, j, k)
      ensures Owed(h, g0, d, i, j, k)
    {
      assert Owed(g, g0, d, i, j, k);
    }
  }

  /** Emptying the centre of `am[n - 1]`, on a cell empty at the start,
      pays off the centre it owed. */
  lemma EmptyOwes(g: Cells, g0: Cells, d: Debt, n: int)
    requires 0 < n <= |d.am| && d.ca == n - 1 && InGrid(d.am[n - 1].loc, d.bins) && At(g0, d.am[n - 1].loc.x, d.am[n - 1].loc.y, d.am[n - 1].loc.z) == Empty
    requires Fits(g, d.bins) && Fits(g0, d.bins) && Pending(g, g0, d)
    ensures Pending(Put(g, d.am[n - 1].loc, Empty), g0, d.(ca := n))
  {
    var l := d.am[n - 1].loc;
    var h := Put(g, l, Empty);
    forall i, j, k | InCells(g0, i, j, k)
      ensures Owed(h, g0, d.(ca := n), i, j, k)
    {
      assert Owed(g, g0, d, i, j, k);
      if Loc(i, j, k) != l && g[i][j][k] != g0[i][j][k] && g[i][j][k] == ACenter {
        var p :| 0 <= n - 1 <= p < |d.am| && d.am[p].loc == Loc(i, j, k);
        assert p != n - 1;
      }
    }
  }

  /** An atom's expansion adds to the counter exactly the cells it turns
      into atom area, and its deflation takes off exactly those it
      empties. */
  lemma ExpandCensus(g: Cells, m: Member, ra: int, bins: Loc)
    requires Fits(g, bins) && InGrid(m.loc, bins) && ra >= 0
    ensures Census(AtomExpanded(g, m, ra, bins), bins) == Census(g, bins) + AtomGain(g, m, ra, bins)
  {
    if !m.expanded {
      ClipProper(m.loc, ra, bins.x, bins.y, bins.z);
      CountRaised(g, AtomRule(ra), m.loc, Reach(m, ra, bins), Occupied, bins.x, bins.y, bins.z);
    }
  }

  lemma DeflateCensus(g: Cells, m: Member, ra: int, bins: Loc)
    requires Fits(g, bins) && InGrid(m.loc, bins) && ra >= 0
    ensures Census(g, bins) == Census(AtomDeflated(g, m, ra, bins), bins) + AtomLoss(g, m, ra, bins)
  {
    if m.expanded {
      ClipProper(m.loc, ra, bins.x, bins.y, bins.z);
      CountLowered(g, AtomUndo(ra), m.loc, Reach(m, ra, bins), Occupied, bins.x, bins.y, bins.z);
    }
  }

  /** Water sweeps leave the atom area alone. */
  lemma WaterCensus(g: Cells, m: Member, rh: int, bins: Loc)
    requires Fits(g, bins) && InGrid(m.loc, bins) && rh >= 0
    ensures Census(WaterExpanded(g, m, rh, bins), bins) == Census(g, bins)
    ensures Census(WaterDeflated(g, m, rh, bins), bins) == Census(g, bins)
  {
    var b := Reach(m, rh, bins);
    ClipProper(m.loc, rh, bins.x, bins.y, bins.z);
    if !m.expanded {
      CountRaised(g, WaterRule(rh), m.loc, b, Occupied, bins.x, bins.y, bins.z);
      TallySilent(g, WaterRule(rh), m.loc, b);
    } else {
      CountLowered(g, WaterUndo(rh), m.loc, b, Occupied, bins.x, bins.y, bins.z);
      TallySilent(g, WaterUndo(rh), m.loc, b);
    }
  }

  /** The centre step of an addition raises the counter by one more than
      the atom area it gains: a centre written over atom area takes that
      cell out of the area without touching the counter. */
  lemma CentreCensus(c: Content, m: Member, bins: Loc)
    requires Fits(c.cells, bins) && InGrid(m.loc, bins)
    ensures Centered(c, m).volume - Census(Centered(c, m).cells, bins) == c.volume - Census(c.cells, bins) + 1
  {
    CountPut(c.cells, m.loc, ACenter, Occupied, bins.x, bins.y, bins.z);
  }

  /** After an expanded atom's deflation its own centre holds no atom
      area, so emptying it leaves the counted cells alone. */
  lemma EmptyCensus(g: Cells, m: Member, ra: int, bins: Loc)
    requires Fits(g, bins) && InGrid(m.loc, bins) && ra >= 0 && m.expanded
    ensures Census(Put(AtomDeflated(g, m, ra, bins), m.loc, Empty), bins) == Census(AtomDeflated(g, m, ra, bins), bins)
  {
    var h := AtomDeflated(g, m, ra, bins);
    assert InBox(Reach(m, ra, bins), m.loc.x, m.loc.y, m.loc.z);
    assert h[m.loc.x][m.loc.y][m.loc.z] != AArea;
    CountPut(h, m.loc, Empty, Occupied, bins.x, bins.y, bins.z);
  }

  // -- the runs, one step at a time --

  /** Adding the `j`-th atom, as one step of a run over the cells and the
      volume: the loop of `add(vector<Atom>)`. */
  function AddSteps(ms: seq<Member>, expand: bool, ra: int, bins: Loc): (Content, nat) -> Content {
    (c: Content, j: nat) => if j < |ms| && InCells(c.cells, ms[j].loc.x, ms[j].loc.y, ms[j].loc.z) then Added(c, ms[j], expand, ra, bins) else c
  }

  /** The cells and the volume after adding the atoms `[0, k)` in order. */
  function AddedTo(c: Content, ms: seq<Member>, k: nat, expand: bool, ra: int, bins: Loc): Content {
    Run(c, AddSteps(ms, expand, ra, bins), k)[k]
  }

  lemma AddedNext(c: Content, ms: seq<Member>, n: nat, expand: bool, ra: int, bins: Loc)
    requires 0 < n <= |ms| && InCells(AddedTo(c, ms, n - 1, expand, ra, bins).cells, ms[n - 1].loc.x, ms[n - 1].loc.y, ms[n - 1].loc.z)
    ensures AddedTo(c, ms, n, expand, ra, bins) == Added(AddedTo(c, ms, n - 1, expand, ra, bins), ms[n - 1], expand, ra, bins)
  {
  }

  lemma ExpandedNext(c: Content, ms: seq<Member>, n: nat, ra: int, bins: Loc)
    requires 0 < n <= |ms|
    ensures var e := ExpandedTo(c, ms, n - 1, ra, bins);
      ExpandedTo(c, ms, n, ra, bins) == Content(AtomExpanded(e.cells, ms[n - 1], ra, bins), e.volume + AtomGain(e.cells, ms[n - 1], ra, bins))
  {
  }

  lemma DeflatedNext(c: Content, ms: seq<Member>, n: nat, ra: int, bins: Loc)
    requires 0 < n <= |ms|
    ensures var e := DeflatedTo(c, ms, n - 1, ra, bins);
      DeflatedTo(c, ms, n, ra, bins) == Content(AtomDeflated(e.cells, ms[n - 1], ra, bins), e.volume - AtomLoss(e.cells, ms[n - 1], ra, bins))
  {
  }

  lemma WatersExpandedNext(g: Cells, ms: seq<Member>, n: nat, rh: int, bins: Loc)
    requires 0 < n <= |ms|
    ensures WatersExpandedTo(g, ms, n, rh, bins) == WaterExpanded(WatersExpandedTo(g, ms, n - 1, rh, bins), ms[n - 1], rh, bins)
  {
  }

  lemma WatersDeflatedNext(g: Cells, ms: seq<Member>, n: nat, rh: int, bins: Loc)
    requires 0 < n <= |ms|
    ensures WatersDeflatedTo(g, ms, n, rh, bins) == WaterDeflated(WatersDeflatedTo(g, ms, n - 1, rh, bins), ms[n - 1], rh, bins)
  {
  }

  lemma CleanedNext(c: Content, ms: seq<Member>, n: nat, ra: int, bins: Loc)
    requires 0 < n <= |ms| && Fits(CleanedTo(c, ms, n - 1, ra, bins).cells, bins) && InGrid(ms[n - 1].loc, bins)
    ensures CleanedTo(c, ms, n, ra, bins) == Cleaned(CleanedTo(c, ms, n - 1, ra, bins), ms[n - 1], ra, bins)
  {
  }

  /** Two member lists that differ at most in their expansion flags. */
  ghost predicate SameSites(fm: seq<Member>, am: seq<Member>) {
    |fm| == |am| && forall p :: 0 <= p < |am| ==> fm[p].loc == am[p].loc
  }

  /** Whether every member is flagged expanded. */
  ghost predicate AllExpanded(fm: seq<Member>) {
    forall p :: 0 <= p < |fm| ==> fm[p].expanded
  }

  lemma AddStep(c: Content, g0: Cells, d: Debt, n: nat, expand: bool)
    requires 0 < n <= |d.am| && d.a == 0 && d.ca == 0 && d.ra >= 0 && !d.am[n - 1].expanded
    requires InGrid(d.am[n - 1].loc, d.bins) && At(g0, d.am[n - 1].loc.x, d.am[n - 1].loc.y, d.am[n - 1].loc.z) == Empty
    requires Fits(g0, d.bins) && Fits(AddedTo(c, d.am, n - 1, expand, d.ra, d.bins).cells, d.bins)
    requires Pending(AddedTo(c, d.am, n - 1, expand, d.ra, d.bins).cells, g0, d)
    ensures Fits(AddedTo(c, d.am, n, expand, d.ra, d.bins).cells, d.bins)
    ensures Pending(AddedTo(c, d.am, n, expand, d.ra, d.bins).cells, g0, d)
    ensures AddedTo(c, d.am, n, expand, d.ra, d.bins).volume - Census(AddedTo(c, d.am, n, expand, d.ra, d.bins).cells, d.bins) ==
      AddedTo(c, d.am, n - 1, expand, d.ra, d.bins).volume - Census(AddedTo(c, d.am, n - 1, expand, d.ra, d.bins).cells, d.bins) + 1
  {
    var e := AddedTo(c, d.am, n - 1, expand, d.ra, d.bins);
    var m := d.am[n - 1];
    AddedNext(c, d.am, n, expand, d.ra, d.bins);
    var h := Centered(e, m);
    CentreOwes(e.cells, g0, d, n - 1);
    CentreCensus(e, m, d.bins);
    if expand {
      ExpandOwes(h.cells, g0, d, n - 1, m);
      ExpandCensus(h.cells, m, d.ra, d.bins);
    }
  }

  lemma ExpandStep(c: Content, g0: Cells, d: Debt, fm: seq<Member>, n: nat)
    requires 0 < n <= |d.am| && d.a == 0 && d.ra >= 0 && SameSites(fm, d.am) && InGrid(d.am[n - 1].loc, d.bins)
    requires Fits(g0, d.bins) && Fits(ExpandedTo(c, fm, n - 1, d.ra, d.bins).cells, d.bins)
    requires Pending(ExpandedTo(c, fm, n - 1, d.ra, d.bins).cells, g0, d)
    ensures Fits(ExpandedTo(c, fm, n, d.ra, d.bins).cells, d.bins)
    ensures Pending(ExpandedTo(c, fm, n, d.ra, d.bins).cells, g0, d)
    ensures ExpandedTo(c, fm, n, d.ra, d.bins).volume - Census(ExpandedTo(c, fm, n, d.ra, d.bins).cells, d.bins) ==
      ExpandedTo(c, fm, n - 1, d.ra, d.bins).volume - Census(ExpandedTo(c, fm, n - 1, d.ra, d.bins).cells, d.bins)
  {
    var e := ExpandedTo(c, fm, n - 1, d.ra, d.bins);
    ExpandedNext(c, fm, n, d.ra, d.bins);
    ExpandOwes(e.cells, g0, d, n - 1, fm[n - 1]);
    ExpandCensus(e.cells, fm[n - 1], d.ra, d.bins);
  }

  lemma WaterExpandStep(g: Cells, g0: Cells, d: Debt, fm: seq<Member>, n: nat)
    requires 0 < n <= |d.wm| && d.w == 0 && d.rh >= 0 && SameSites(fm, d.wm) && InGrid(d.wm[n - 1].loc, d.bins)
    requires Fits(g0, d.bins) && Fits(WatersExpandedTo(g, fm, n - 1, d.rh, d.bins), d.bins)
    requires Pending(WatersExpandedTo(g, fm, n - 1, d.rh, d.bins), g0, d)
    ensures Fits(WatersExpandedTo(g, fm, n, d.rh, d.bins), d.bins)
    ensures Pending(WatersExpandedTo(g, fm, n, d.rh, d.bins), g0, d)
    ensures Census(WatersExpandedTo(g, fm, n, d.rh, d.bins), d.bins) == Census(WatersExpandedTo(g, fm, n - 1, d.rh, d.bins), d.bins)
  {
    var e := WatersExpandedTo(g, fm, n - 1, d.rh, d.bins);
    WatersExpandedNext(g, fm, n, d.rh, d.bins);
    WaterExpandOwes(e, g0, d, n - 1, fm[n - 1]);
    WaterCensus(e, fm[n - 1], d.rh, d.bins);
  }

  lemma DeflateStep(c: Content, g0: Cells, d: Debt, fm: seq<Member>, n: nat)
    requires 0 < n <= |d.am| && d.a == n - 1 && d.ra >= 0 && SameSites(fm, d.am) && fm[n - 1].expanded && InGrid(d.am[n - 1].loc, d.bins)
    requires Fits(g0, d.bins) && Bare(g0) && Fits(DeflatedTo(c, fm, n - 1, d.ra, d.bins).cells, d.bins)
    requires Pending(DeflatedTo(c, fm, n - 1, d.ra, d.bins).cells, g0, d)
    ensures Fits(DeflatedTo(c, fm, n, d.ra, d.bins).cells, d.bins)
    ensures Pending(DeflatedTo(c, fm, n, d.ra, d.bins).cells, g0, d.(a := n))
    ensures DeflatedTo(c, fm, n, d.ra, d.bins).volume - Census(DeflatedTo(c, fm, n, d.ra, d.bins).cells, d.bins) ==
      DeflatedTo(c, fm, n - 1, d.ra, d.bins).volume - Census(DeflatedTo(c, fm, n - 1, d.ra, d.bins).cells, d.bins)
  {
    var e := DeflatedTo(c, fm, n - 1, d.ra, d.bins);
    DeflatedNext(c, fm, n, d.ra, d.bins);
    DeflateOwes(e.cells, g0, d, n, fm[n - 1]);
    DeflateCensus(e.cells, fm[n - 1], d.ra, d.bins);
  }

  lemma WaterDeflateStep(g: Cells, g0: Cells, d: Debt, fm: seq<Member>, n: nat)
    requires 0 < n <= |d.wm| && d.w == n - 1 && d.rh >= 0 && SameSites(fm, d.wm) && fm[n - 1].expanded && InGrid(d.wm[n - 1].loc, d.bins)
    requires Fits(g0, d.bins) && Bare(g0) && Fits(WatersDeflatedTo(g, fm, n - 1, d.rh, d.bins), d.bins)
    requires Pending(WatersDeflatedTo(g, fm, n - 1, d.rh, d.bins), g0, d)
    ensures Fits(WatersDeflatedTo(g, fm, n, d.rh, d.bins), d.bins)
    ensures Pending(WatersDeflatedTo(g, fm, n, d.rh, d.bins), g0, d.(w := n))
    ensures Census(WatersDeflatedTo(g, fm, n, d.rh, d.bins), d.bins) == Census(WatersDeflatedTo(g, fm, n - 1, d.rh, d.bins), d.bins)
  {
    var e := WatersDeflatedTo(g, fm, n - 1, d.rh, d.bins);
    WatersDeflatedNext(g, fm, n, d.rh, d.bins);
    WaterDeflateOwes(e, g0, d, n, fm[n - 1]);
    WaterCensus(e, fm[n - 1], d.rh, d.bins);
  }

  lemma CleanStep(c: Content, g0: Cells, d: Debt, fm: seq<Member>, n: nat)
    requires 0 < n <= |d.am| && d.a == d.ca == n - 1 && d.ra >= 0 && SameSites(fm, d.am) && fm[n - 1].expanded && InGrid(d.am[n - 1].loc, d.bins)
    requires At(g0, d.am[n - 1].loc.x, d.am[n - 1].loc.y, d.am[n - 1].loc.z) == Empty
    requires Fits(g0, d.bins) && Bare(g0) && Fits(CleanedTo(c, fm, n - 1, d.ra, d.bins).cells, d.bins)
    requires Pending(CleanedTo(c, fm, n - 1, d.ra, d.bins).cells, g0, d)
    ensures Fits(CleanedTo(c, fm, n, d.ra, d.bins).cells, d.bins)
    ensures Pending(CleanedTo(c, fm, n, d.ra, d.bins).cells, g0, d.(a := n, ca := n))
    ensures CleanedTo(c, fm, n, d.ra, d.bins).volume - Census(CleanedTo(c, fm, n, d.ra, d.bins).cells, d.bins) ==
      CleanedTo(c, fm, n - 1, d.ra, d.bins).volume - Census(CleanedTo(c, fm, n - 1, d.ra, d.bins).cells, d.bins) - 1
  {
    var e := CleanedTo(c, fm, n - 1, d.ra, d.bins);
    var f := fm[n - 1];
    CleanedNext(c, fm, n, d.ra, d.bins);
    var h := AtomDeflated(e.cells, f, d.ra, d.bins);
    DeflateOwes(e.cells, g0, d, n, f);
    EmptyOwes(h, g0, d.(a := n), n);
    assert d.(a := n).(ca := n) == d.(a := n, ca := n);
    DeflateCensus(e.cells, f, d.ra, d.bins);
    EmptyCensus(e.cells, f, d.ra, d.bins);
  }

  // -- the runs, whole --

  lemma {:induction false} AddPhase(c: Content, g0: Cells, d: Debt, n: nat, expand: bool)
    requires n <= |d.am| && d.a == 0 && d.ca == 0 && d.ra >= 0 && AllIn(d.am, d.bins)
    requires forall m :: m in d.am ==> !m.expanded && At(g0, m.loc.x, m.loc.y, m.loc.z) == Empty
    requires Fits(c.cells, d.bins) && Fits(g0, d.bins) && Pending(c.cells, g0, d)
    ensures Fits(AddedTo(c, d.am, n, expand, d.ra, d.bins).cells, d.bins)
    ensures Pending(AddedTo(c, d.am, n, expand, d.ra, d.bins).cells, g0, d)
    ensures AddedTo(c, d.am, n, expand, d.ra, d.bins).volume - Census(AddedTo(c, d.am, n, expand, d.ra, d.bins).cells, d.bins) ==
      c.volume - Census(c.cells, d.bins) + n
  {
    if n > 0 {
      AddPhase(c, g0, d, n - 1, expand);
      assert d.am[n - 1] in d.am;
      AddStep(c, g0, d, n, expand);
    }
  }

  lemma {:induction false} ExpandPhase(c: Content, g0: Cells, d: Debt, fm: seq<Member>, n: nat)
    requires n <= |d.am| && d.a == 0 && d.ra >= 0 && SameSites(fm, d.am) && AllIn(d.am, d.bins)
    requires Fits(c.cells, d.bins) && Fits(g0, d.bins) && Pending(c.cells, g0, d)
    ensures Fits(ExpandedTo(c, fm, n, d.ra, d.bins).cells, d.bins)
    ensures Pending(ExpandedTo(c, fm, n, d.ra, d.bins).cells, g0, d)
    ensures ExpandedTo(c, fm, n, d.ra, d.bins).volume - Census(ExpandedTo(c, fm, n, d.ra, d.bins).cells, d.bins) == c.volume - Census(c.cells, d.bins)
  {
    if n > 0 {
      ExpandPhase(c, g0, d, fm, n - 1);
      assert d.am[n - 1] in d.am;
      ExpandStep(c, g0, d, fm, n);
    }
  }

  lemma {:induction false} WaterExpandPhase(g: Cells, g0: Cells, d: Debt, fm: seq<Member>, n: nat)
    requires n <= |d.wm| && d.w == 0 && d.rh >= 0 && SameSites(fm, d.wm) && AllIn(d.wm, d.bins)
    requires Fits(g, d.bins) && Fits(g0, d.bins) && Pending(g, g0, d)
    ensures Fits(WatersExpandedTo(g, fm, n, d.rh, d.bins), d.bins)
    ensures Pending(WatersExpandedTo(g, fm, n, d.rh, d.bins), g0, d)
    ensures Census(WatersExpandedTo(g, fm, n, d.rh, d.bins), d.bins) == Census(g, d.bins)
  {
    if n > 0 {
      WaterExpandPhase(g, g0, d, fm, n - 1);
      assert d.wm[n - 1] in d.wm;
      WaterExpandStep(g, g0, d, fm, n);
    }
  }

  lemma {:induction false} DeflatePhase(c: Content, g0: Cells, d: Debt, fm: seq<Member>, n: nat)
    requires n <= |d.am| && d.a == 0 && d.ra >= 0 && SameSites(fm, d.am) && AllExpanded(fm) && AllIn(d.am, d.bins)
    requires Fits(c.cells, d.bins) && Fits(g0, d.bins) && Bare(g0) && Pending(c.cells, g0, d)
    ensures Fits(DeflatedTo(c, fm, n, d.ra, d.bins).cells, d.bins)
    ensures Pending(DeflatedTo(c, fm, n, d.ra, d.bins).cells, g0, d.(a := n))
    ensures DeflatedTo(c, fm, n, d.ra, d.bins).volume - Census(DeflatedTo(c, fm, n, d.ra, d.bins).cells, d.bins) == c.volume - Census(c.cells, d.bins)
  {
    if n > 0 {
      DeflatePhase(c, g0, d, fm, n - 1);
      assert d.am[n - 1] in d.am;
      DeflateStep(c, g0, d.(a := n - 1), fm, n);
      assert d.(a := n - 1).(a := n) == d.(a := n);
    }
  }

  lemma {:induction false} WaterDeflatePhase(g: Cells, g0: Cells, d: Debt, fm: seq<Member>, n: nat)
    requires n <= |d.wm| && d.w == 0 && d.rh >= 0 && SameSites(fm, d.wm) && AllExpanded(fm) && AllIn(d.wm, d.bins)
    requires Fits(g, d.bins) && Fits(g0, d.bins) && Bare(g0) && Pending(g, g0, d)
    ensures Fits(WatersDeflatedTo(g, fm, n, d.rh, d.bins), d.bins)
    ensures Pending(WatersDeflatedTo(g, fm, n, d.rh, d.bins), g0, d.(w := n))
    ensures Census(WatersDeflatedTo(g, fm, n, d.rh, d.bins), d.bins) == Census(g, d.bins)
  {
    if n > 0 {
      WaterDeflatePhase(g, g0, d, fm, n - 1);
      assert d.wm[n - 1] in d.wm;
      WaterDeflateStep(g, g0, d.(w := n - 1), fm, n);
      assert d.(w := n - 1).(w := n) == d.(w := n);
    }
  }

  lemma {:induction false} CleanPhase(c: Content, g0: Cells, d: Debt, fm: seq<Member>, n: nat)
    requires n <= |d.am| && d.a == 0 && d.ca == 0 && d.ra >= 0 && SameSites(fm, d.am) && AllExpanded(fm) && AllIn(d.am, d.bins)
    requires forall m :: m in d.am ==> At(g0, m.loc.x, m.loc.y, m.loc.z) == Empty
    requires Fits(c.cells, d.bins) && Fits(g0, d.bins) && Bare(g0) && Pending(c.cells, g0, d)
    ensures Fits(CleanedTo(c, fm, n, d.ra, d.bins).cells, d.bins)
    ensures Pending(CleanedTo(c, fm, n, d.ra, d.bins).cells, g0, d.(a := n, ca := n))
    ensures CleanedTo(c, fm, n, d.ra, d.bins).volume - Census(CleanedTo(c, fm, n, d.ra, d.bins).cells, d.bins) == c.volume - Census(c.cells, d.bins) - n
  {
    if n > 0 {
      CleanPhase(c, g0, d, fm, n - 1);
      assert d.am[n - 1] in d.am;
      CleanStep(c, g0, d.(a := n - 1, ca := n - 1), fm, n);
      assert d.(a := n - 1, ca := n - 1).(a := n, ca := n) == d.(a := n, ca := n);
    }
  }

  /** Expanding every atom and then every water, and deflating them all
      again, leaves exactly the cells and the volume the grid started
      with, whatever the members' overlaps. */
  lemma VolumeRoundTrip(c: Content, am: seq<Member>, wm: seq<Member>, ra: int, rh: int, bins: Loc)
    requires Fits(c.cells, bins) && Bare(c.cells)
    requires AllIn(am, bins) && AllIn(wm, bins) && ra >= 0 && rh >= 0
    ensures var e := ExpandedTo(c, am, |am|, ra, bins);
      var x := DeflatedTo(Content(WatersExpandedTo(e.cells, wm, |wm|, rh, bins), e.volume), Flagged(am, |am|, true), |am|, ra, bins);
      WatersDeflatedTo(x.cells, Flagged(wm, |wm|, true), |wm|, rh, bins) == c.cells && x.volume == c.volume
  {
    var g0 := c.cells;
    var d := Debt(am, 0, |am|, wm, 0, ra, rh, bins);
    Unchanged(g0, d);
    ExpandPhase(c, g0, d, am, |am|);
    var e := ExpandedTo(c, am, |am|, ra, bins);
    WaterExpandPhase(e.cells, g0, d, wm, |wm|);
    var h := Content(WatersExpandedTo(e.cells, wm, |wm|, rh, bins), e.volume);
    DeflatePhase(h, g0, d, Flagged(am, |am|, true), |am|);
    var x := DeflatedTo(h, Flagged(am, |am|, true), |am|, ra, bins);
    WaterDeflatePhase(x.cells, g0, d.(a := |am|), Flagged(wm, |wm|, true), |wm|);
    var f := WatersDeflatedTo(x.cells, Flagged(wm, |wm|, true), |wm|, rh, bins);
    Settled(f, g0, d.(a := |am|).(w := |wm|));
  }

  /** Adding a list of atoms to empty cells of a grid with nothing
      expanded, expanding whatever is still unexpanded, and removing the
      atoms again restores the cells and the volume, whether the atoms were
      expanded as they were added or not and however they overlap. */
  lemma AddThenRemoveAll(c: Content, ms: seq<Member>, expand: bool, ra: int, bins: Loc)
    requires Fits(c.cells, bins) && Bare(c.cells) && AllIn(ms, bins) && ra >= 0
    requires forall m :: m in ms ==> !m.expanded && At(c.cells, m.loc.x, m.loc.y, m.loc.z) == Empty
    ensures var a := AddedTo(c, ms, |ms|, expand, ra, bins);
      var x := ExpandedTo(a, Flagged(ms, |ms|, expand), |ms|, ra, bins);
      CleanedTo(x, Flagged(ms, |ms|, true), |ms|, ra, bins) == c
  {
    var g0 := c.cells;
    var n := |ms|;
    var d := Debt(ms, 0, 0, [], 0, ra, 0, bins);
    Unchanged(g0, d);
    AddPhase(c, g0, d, n, expand);
    var a := AddedTo(c, ms, n, expand, ra, bins);
    ExpandPhase(a, g0, d, Flagged(ms, n, expand), n);
    var x := ExpandedTo(a, Flagged(ms, n, expand), n, ra, bins);
    CleanPhase(x, g0, d, Flagged(ms, n, true), n);
    var r := CleanedTo(x, Flagged(ms, n, true), n, ra, bins);
    Settled(r.cells, g0, d.(a := n, ca := n));
  }

  class Grid {
    var cells: array3<Cell>
    var volume: int
    var atoms: seq<Member>
    var waters: seq<Member>
    var axes: Axes
    var width: real
    /** The atom and water radii in bins. */
    var ra: int
    var rh: int
    /** The kinds of the water culling and placement strategies, fixed for
        the whole run. */
    const culler: int
    const placer: int

    function Bins(): Loc
      reads this`cells
    {
      Loc(cells.Length0, cells.Length1, cells.Length2)
    }

    ghost predicate Valid()
      reads this
    {
      cells.Length0 == axes.x.bins && cells.Length1 == axes.y.bins && cells.Length2 == axes.z.bins &&
      width > 0.0 && ra >= 0 && rh >= 0 &&
      AllIn(atoms, Bins()) && AllIn(waters, Bins())
    }

    /** An empty grid over the given axes; the radii are set afterwards. */
    constructor(a: Axes, width: real, culler: int, placer: int)
      requires a.x.bins >= 0 && a.y.bins >= 0 && a.z.bins >= 0 && width > 0.0
      ensures Valid() && fresh(cells)
      ensures axes == a && atoms == [] && waters == [] && volume == 0 && ra == 0 && rh == 0
      ensures this.width == width && this.culler == culler && this.placer == placer
      ensures forall i, j, k :: InArray(cells, i, j, k) ==> cells[i, j, k] == Empty
    {
      cells := new Cell[a.x.bins, a.y.bins, a.z.bins]((i, j, k) => Empty);
      volume := 0;
      atoms := [];
      waters := [];
      axes := a;
      this.width := width;
      ra := 0;
      rh := 0;
      this.culler := culler;
      this.placer := placer;
    }

    /** `set_radius_atoms`: the radius in whole bins; the warning is raised
        when a different non-zero radius was already set. */
    method SetRadiusAtoms(radius: real) returns (warned: bool)
      requires Valid() && radius >= 0.0
      modifies this`ra
      ensures Valid()
      ensures ra == BinRadius(radius, width)
      ensures warned <==> old(ra) != 0 && old(ra) != ra
    {
      var r := BinRadius(radius, width);
      warned := ra != 0 && ra != r;
      ra := r;
    }

    /** `set_radius_water`, the same for the water radius. */
    method SetRadiusWater(radius: real) returns (warned: bool)
      requires Valid() && radius >= 0.0
      modifies this`rh
      ensures Valid()
      ensures rh == BinRadius(radius, width)
      ensures warned <==> old(rh) != 0 && old(rh) != rh
    {
      var r := BinRadius(radius, width);
      warned := rh != 0 && rh != r;
      rh := r;
    }

    /** `expand_volume` of one atom; the copy it returns is marked
        expanded. */
    method ExpandAtom(m: Member) returns (r: Member)
      requires Valid() && InGrid(m.loc, Bins())
      modifies cells, this`volume
      ensures r == m.(expanded := true)
      ensures Snap(cells) == AtomExpanded(old(Snap(cells)), m, ra, Bins())
      ensures volume == old(volume) + AtomGain(old(Snap(cells)), m, ra, Bins())
    {
      r := m.(expanded := true);
      if m.expanded {
        return;
      }
      ClipProper(m.loc, ra, cells.Length0, cells.Length1, cells.Length2);
      var added := Sweep(cells, AtomRule(ra), m.loc, Reach(m, ra, Bins()));
      volume := volume + added;
    }

    /** `deflate_volume` of one atom; the copy it returns is marked
        deflated. */
    method DeflateAtom(m: Member) returns (r: Member)
      requires Valid() && InGrid(m.loc, Bins())
      modifies cells, this`volume
      ensures r == m.(expanded := false)
      ensures Snap(cells) == AtomDeflated(old(Snap(cells)), m, ra, Bins())
      ensures volume == old(volume) - AtomLoss(old(Snap(cells)), m, ra, Bins())
    {
      r := m.(expanded := false);
      if !m.expanded {
        return;
      }
      ClipProper(m.loc, ra, cells.Length0, cells.Length1, cells.Length2);
      var removed := Sweep(cells, AtomUndo(ra), m.loc, Reach(m, ra, Bins()));
      volume := volume - removed;
    }

    /** `expand_volume` of one water. */
    method ExpandWater(m: Member) returns (r: Member)
      requires Valid() && InGrid(m.loc, Bins())
      modifies cells
      ensures r == m.(expanded := true)
      ensures Snap(cells) == WaterExpanded(old(Snap(cells)), m, rh, Bins())
    {
      r := m.(expanded := true);
      if m.expanded {
        return;
      }
      ClipProper(m.loc, rh, cells.Length0, cells.Length1, cells.Length2);
      var _ := Sweep(cells, WaterRule(rh), m.loc, Reach(m, rh, Bins()));
    }

    /** `deflate_volume` of one water. */
    method DeflateWater(m: Member) returns (r: Member)
      requires Valid() && InGrid(m.loc, Bins())
      modifies cells
      ensures r == m.(expanded := false)
      ensures Snap(cells) == WaterDeflated(old(Snap(cells)), m, rh, Bins())
    {
      r := m.(expanded := false);
      if !m.expanded {
        return;
      }
      ClipProper(m.loc, rh, cells.Length0, cells.Length1, cells.Length2);
      var _ := Sweep(cells, WaterUndo(rh), m.loc, Reach(m, rh, Bins()));
    }

    /** One step of the loop below: the member at `i` is replaced by its
        expanded copy, and the state moves one step along the run `t`. */
    method ExpandAtomAt(ghost t: seq<Content>, ghost s0: Content, ghost a0: seq<Member>, ghost r0: int, ghost b0: Loc, i: int)
      requires 0 <= i < |a0| && t == Run(s0, ExpandSteps(a0, r0, b0), |a0|)
      requires Valid() && ra == r0 && Bins() == b0 && atoms == Flagged(a0, i, true) && Content(Snap(cells), volume) == t[i]
      modifies cells, this`volume, this`atoms
      ensures Valid() && ra == r0 && Bins() == b0 && atoms == Flagged(a0, i + 1, true) && Content(Snap(cells), volume) == t[i + 1]
    {
      RunStep(s0, ExpandSteps(a0, r0, b0), |a0|, i);
      assert atoms[i] in atoms;
      var r := ExpandAtom(atoms[i]);
      Reflag(atoms, i, true, Bins());
      atoms := atoms[i := r];
    }

    /** The atom loop of `expand_volume()`. */
    method ExpandAtoms()
      requires Valid()
      modifies cells, this`volume, this`atoms
      ensures Valid()
      ensures atoms == Flagged(old(atoms), |old(atoms)|, true)
      ensures Content(Snap(cells), volume) == ExpandedTo(Content(old(Snap(cells)), old(volume)), old(atoms), |old(atoms)|, ra, Bins())
    {
      ghost var s0, a0, r0, b0 := Content(Snap(cells), volume), atoms, ra, Bins();
      ghost var t := Run(s0, ExpandSteps(a0, r0, b0), |a0|);
      var i := 0;
      while i < |atoms|
        invariant 0 <= i <= |a0| && Valid() && ra == r0 && Bins() == b0 && atoms == Flagged(a0, i, true) && Content(Snap(cells), volume) == t[i]
      {
        ExpandAtomAt(t, s0, a0, r0, b0, i);
        i := i + 1;
      }
    }

    /** One step of the loop below: the member at `i` is replaced by its
        expanded copy, and the state moves one step along the run `t`. */
    method ExpandWaterAt(ghost t: seq<Cells>, ghost s0: Cells, ghost w0: seq<Member>, ghost r0: int, ghost b0: Loc, i: int)
      requires 0 <= i < |w0| && t == Run(s0, WaterExpandSteps(w0, r0, b0), |w0|)
      requires Valid() && rh == r0 && Bins() == b0 && waters == Flagged(w0, i, true) && Snap(cells) == t[i]
      modifies cells, this`waters
      ensures Valid() && rh == r0 && Bins() == b0 && waters == Flagged(w0, i + 1, true) && Snap(cells) == t[i + 1]
    {
      RunStep(s0, WaterExpandSteps(w0, r0, b0), |w0|, i);
      assert waters[i] in waters;
      var r := ExpandWater(waters[i]);
      Reflag(waters, i, true, Bins());
      waters := waters[i := r];
    }

    /** The water loop of `expand_volume()`. */
    method ExpandWaters()
      requires Valid()
      modifies cells, this`waters
      ensures Valid()
      ensures waters == Flagged(old(waters), |old(waters)|, true)
      ensures Snap(cells) == WatersExpandedTo(old(Snap(cells)), old(waters), |old(waters)|, rh, Bins())
    {
      ghost var s0, w0, r0, b0 := Snap(cells), waters, rh, Bins();
      ghost var t := Run(s0, WaterExpandSteps(w0, r0, b0), |w0|);
      var i := 0;
      while i < |waters|
        invariant 0 <= i <= |w0| && Valid() && rh == r0 && Bins() == b0 && waters == Flagged(w0, i, true) && Snap(cells) == t[i]
      {
        ExpandWaterAt(t, s0, w0, r0, b0, i);
        i := i + 1;
      }
    }

    /** `expand_volume()`: every atom, then every water. */
    method ExpandVolume()
      requires Valid()
      modifies cells, this`volume, this`atoms, this`waters
      ensures Valid()
      ensures atoms == Flagged(old(atoms), |old(atoms)|, true)
      ensures waters == Flagged(old(waters), |old(waters)|, true)
      ensures var c := ExpandedTo(Content(old(Snap(cells)), old(volume)), old(atoms), |old(atoms)|, ra, Bins());
        Snap(cells) == WatersExpandedTo(c.cells, old(waters), |old(waters)|, rh, Bins()) && volume == c.volume
    {
      ExpandAtoms();
      ExpandWaters();
    }

    /** One step of the loop below: the member at `i` is replaced by its
        deflated copy, and the state moves one step along the run `t`. */
    method DeflateAtomAt(ghost t: seq<Content>, ghost s0: Content, ghost a0: seq<Member>, ghost r0: int, ghost b0: Loc, i: int)
      requires 0 <= i < |a0| && t == Run(s0, DeflateSteps(a0, r0, b0), |a0|)
      requires Valid() && ra == r0 && Bins() == b0 && atoms == Flagged(a0, i, false) && Content(Snap(cells), volume) == t[i]
      modifies cells, this`volume, this`atoms
      ensures Valid() && ra == r0 && Bins() == b0 && atoms == Flagged(a0, i + 1, false) && Content(Snap(cells), volume) == t[i + 1]
    {
      RunStep(s0, DeflateSteps(a0, r0, b0), |a0|, i);
      assert atoms[i] in atoms;
      var r := DeflateAtom(atoms[i]);
      Reflag(atoms, i, false, Bins());
      atoms := atoms[i := r];
    }

    /** The atom loop of `deflate_volume()`. */
    method DeflateAtoms()
      requires Valid()
      modifies cells, this`volume, this`atoms
      ensures Valid()
      ensures atoms == Flagged(old(atoms), |old(atoms)|, false)
      ensures Content(Snap(cells), volume) == DeflatedTo(Content(old(Snap(cells)), old(volume)), old(atoms), |old(atoms)|, ra, Bins())
    {
      ghost var s0, a0, r0, b0 := Content(Snap(cells), volume), atoms, ra, Bins();
      ghost var t := Run(s0, DeflateSteps(a0, r0, b0), |a0|);
      var i := 0;
      while i < |atoms|
        invariant 0 <= i <= |a0| && Valid() && ra == r0 && Bins() == b0 && atoms == Flagged(a0, i, false) && Content(Snap(cells), volume) == t[i]
      {
        DeflateAtomAt(t, s0, a0, r0, b0, i);
        i := i + 1;
      }
    }

    /** One step of the loop below: the member at `i` is replaced by its
        deflated copy, and the state moves one step along the run `t`. */
    method DeflateWaterAt(ghost t: seq<Cells>, ghost s0: Cells, ghost w0: seq<Member>, ghost r0: int, ghost b0: Loc, i: int)
      requires 0 <= i < |w0| && t == Run(s0, WaterDeflateSteps(w0, r0, b0), |w0|)
      requires Valid() && rh == r0 && Bins() == b0 && waters == Flagged(w0, i, false) && Snap(cells) == t[i]
      modifies cells, this`waters
      ensures Valid() && rh == r0 && Bins() == b0 && waters == Flagged(w0, i + 1, false) && Snap(cells) == t[i + 1]
    {
      RunStep(s0, WaterDeflateSteps(w0, r0, b0), |w0|, i);
      assert waters[i] in waters;
      var r := DeflateWater(waters[i]);
      Reflag(waters, i, false, Bins());
      waters := waters[i := r];
    }

    /** The water loop of `deflate_volume()`. */
    method DeflateWaters()
      requires Valid()
      modifies cells, this`waters
      ensures Valid()
      ensures waters == Flagged(old(waters), |old(waters)|, false)
      ensures Snap(cells) == WatersDeflatedTo(old(Snap(cells)), old(waters), |old(waters)|, rh, Bins())
    {
      ghost var s0, w0, r0, b0 := Snap(cells), waters, rh, Bins();
      ghost var t := Run(s0, WaterDeflateSteps(w0, r0, b0), |w0|);
      var i := 0;
      while i < |waters|
        invariant 0 <= i <= |w0| && Valid() && rh == r0 && Bins() == b0 && waters == Flagged(w0, i, false) && Snap(cells) == t[i]
      {
        DeflateWaterAt(t, s0, w0, r0, b0, i);
        i := i + 1;
      }
    }

    /** `deflate_volume()`: every atom, then every water. */
    method DeflateVolume()
      requires Valid()
      modifies cells, this`volume, this`atoms, this`waters
      ensures Valid()
      ensures atoms == Flagged(old(atoms), |old(atoms)|, false)
      ensures waters == Flagged(old(waters), |old(waters)|, false)
      ensures var c := DeflatedTo(Content(old(Snap(cells)), old(volume)), old(atoms), |old(atoms)|, ra, Bins());
        Snap(cells) == WatersDeflatedTo(c.cells, old(waters), |old(waters)|, rh, Bins()) && volume == c.volume
    {
      DeflateAtoms();
      DeflateWaters();
    }

    /** `add(Atom, expand)`: the atom goes into the bin nearest its
        coordinates; a bin outside the grid on any axis is an error (a
        negative index, converted to unsigned, is out of range too). */
    method AddAtom(uid: int, v: Vec, expand: bool) returns (r: Result<Member, GridError>)
      requires Valid()
      modifies cells, this`volume, this`atoms
      ensures Valid()
      ensures var loc := ToBins(v, axes, width);
        if !InGrid(loc, Bins()) then r == Err(OutOfBounds) && atoms == old(atoms) && Snap(cells) == old(Snap(cells)) && volume == old(volume)
        else (r == Ok(Member(uid, loc, 0.0, expand)) && atoms == old(atoms) + [r.value] &&
          Content(Snap(cells), volume) == Added(Content(old(Snap(cells)), old(volume)), Member(uid, loc, 0.0, false), expand, ra, Bins()))
    {
      var loc := ToBins(v, axes, width);
      if !(0 <= loc.x < cells.Length0 && 0 <= loc.y < cells.Length1 && 0 <= loc.z < cells.Length2) {
        return Err(OutOfBounds);
      }
      var m := PlaceAtom(Member(uid, loc, 0.0, false), expand);
      r := Ok(m);
    }

    /** The part of `add(Atom, expand)` after the bounds check. */
    method PlaceAtom(m: Member, expand: bool) returns (r: Member)
      requires Valid() && InGrid(m.loc, Bins()) && !m.expanded
      modifies cells, this`volume, this`atoms
      ensures Valid()
      ensures r == m.(expanded := expand) && atoms == old(atoms) + [r]
      ensures Content(Snap(cells), volume) == Added(Content(old(Snap(cells)), old(volume)), m, expand, ra, Bins())
    {
      CenterAtom(m);
      r := m;
      if expand {
        r := ExpandAtom(r);
      }
      atoms := atoms + [r];
    }

    /** The centre step of `add(Atom, expand)`. */
    method CenterAtom(m: Member)
      requires Valid() && InGrid(m.loc, Bins())
      modifies cells, this`volume
      ensures Content(Snap(cells), volume) == Centered(Content(old(Snap(cells)), old(volume)), m)
    {
      if cells[m.loc.x, m.loc.y, m.loc.z] != AArea {
        volume := volume + 1;
      }
      SetCell(cells, m.loc, ACenter);
    }

    /** One step of the loop below: the state moves one step along the
        run `t` and the atom joins the list. */
    method PlaceAtomAt(ghost t: seq<Content>, ghost c0: Content, ghost a0: seq<Member>, ghost r0: int, ghost b0: Loc, ms: seq<Member>, expand: bool, i: int)
      requires 0 <= i < |ms| && AllIn(ms, b0) && (forall m :: m in ms ==> !m.expanded) && t == Run(c0, AddSteps(ms, expand, r0, b0), |ms|)
      requires Valid() && ra == r0 && Bins() == b0 && atoms == a0 + Flagged(ms, |ms|, expand)[..i] && Content(Snap(cells), volume) == t[i]
      modifies cells, this`volume, this`atoms
      ensures Valid() && ra == r0 && Bins() == b0 && atoms == a0 + Flagged(ms, |ms|, expand)[..i + 1] && Content(Snap(cells), volume) == t[i + 1]
    {
      RunStep(c0, AddSteps(ms, expand, r0, b0), |ms|, i);
      assert ms[i] in ms;
      var _ := PlaceAtom(ms[i], expand);
      assert Flagged(ms, |ms|, expand)[..i + 1] == Flagged(ms, |ms|, expand)[..i] + [ms[i].(expanded := expand)];
    }

    /** The loop of `add(vector<Atom>)`, over atoms whose bins the bounds
        check of `add(Atom)` accepts. */
    method PlaceAtoms(ms: seq<Member>, expand: bool)
      requires Valid() && AllIn(ms, Bins()) && forall m :: m in ms ==> !m.expanded
      modifies cells, this`volume, this`atoms
      ensures Valid()
      ensures atoms == old(atoms) + Flagged(ms, |ms|, expand)
      ensures Content(Snap(cells), volume) == AddedTo(Content(old(Snap(cells)), old(volume)), ms, |ms|, expand, ra, Bins())
    {
      ghost var c0, a0, r0, b0 := Content(Snap(cells), volume), atoms, ra, Bins();
      ghost var t := Run(c0, AddSteps(ms, expand, r0, b0), |ms|);
      var i := 0;
      while i < |ms|
        invariant 0 <= i <= |ms| && Valid() && ra == r0 && Bins() == b0 && atoms == a0 + Flagged(ms, |ms|, expand)[..i] && Content(Snap(cells), volume) == t[i]
      {
        PlaceAtomAt(t, c0, a0, r0, b0, ms, expand, i);
        i := i + 1;
      }
    }

    /** `add(Water, expand)`: the water goes into the bin nearest its
        coordinates, under the same bounds check; the volume is untouched. */
    method AddWater(uid: int, v: Vec, expand: bool) returns (r: Result<Member, GridError>)
      requires Valid()
      modifies cells, this`waters
      ensures Valid()
      ensures var loc := ToBins(v, axes, width);
        if !InGrid(loc, Bins()) then r == Err(OutOfBounds) && waters == old(waters) && Snap(cells) == old(Snap(cells))
        else (r == Ok(Member(uid, loc, 0.0, expand)) && waters == old(waters) + [r.value] &&
          Snap(cells) == AddedWater(old(Snap(cells)), Member(uid, loc, 0.0, false), expand, rh, Bins()))
    {
      var loc := ToBins(v, axes, width);
      if !(0 <= loc.x < cells.Length0 && 0 <= loc.y < cells.Length1 && 0 <= loc.z < cells.Length2) {
        return Err(OutOfBounds);
      }
      var m := Member(uid, loc, 0.0, false);
      SetCell(cells, loc, WCenter);
      if expand {
        m := ExpandWater(m);
      }
      waters := waters + [m];
      r := Ok(m);
    }

    /** The cleanup of one removed atom. */
    method CleanAtom(m: Member)
      requires Valid() && InGrid(m.loc, Bins())
      modifies cells, this`volume
      ensures Valid()
      ensures Snap(cells) == Cleaned(Content(old(Snap(cells)), old(volume)), m, ra, Bins()).cells
      ensures volume == Cleaned(Content(old(Snap(cells)), old(volume)), m, ra, Bins()).volume
    {
      var _ := DeflateAtom(m);
      SetCell(cells, m.loc, Empty);
      volume := volume - 1;
    }

    /** One step of the loop below: the state moves one step along the
        run `t`. */
    method CleanAtomAt(ghost t: seq<Content>, ghost c0: Content, ghost r0: int, ghost b0: Loc, ms: seq<Member>, i: int)
      requires 0 <= i < |ms| && AllIn(ms, b0) && t == Run(c0, CleanSteps(ms, r0, b0), |ms|)
      requires Valid() && ra == r0 && Bins() == b0 && Content(Snap(cells), volume) == t[i]
      modifies cells, this`volume
      ensures Valid() && ra == r0 && Bins() == b0 && Content(Snap(cells), volume) == t[i + 1]
    {
      RunStep(c0, CleanSteps(ms, r0, b0), |ms|, i);
      assert ms[i] in ms;
      CleanAtom(ms[i]);
    }

    /** The cleanup loop of the atom removals over the removed atoms. */
    method CleanAtoms(ms: seq<Member>)
      requires Valid() && AllIn(ms, Bins())
      modifies cells, this`volume
      ensures Valid()
      ensures Content(Snap(cells), volume) == CleanedTo(Content(old(Snap(cells)), old(volume)), ms, |ms|, ra, Bins())
    {
      ghost var c0, r0, b0 := Content(Snap(cells), volume), ra, Bins();
      ghost var t := Run(c0, CleanSteps(ms, r0, b0), |ms|);
      var i := 0;
      while i < |ms|
        invariant 0 <= i <= |ms| && Valid() && ra == r0 && Bins() == b0 && Content(Snap(cells), volume) == t[i]
      {
        CleanAtomAt(t, c0, r0, b0, ms, i);
        i := i + 1;
      }
    }

    /** The cleanup of one removed water. */
    method CleanWater(m: Member)
      requires Valid() && InGrid(m.loc, Bins())
      modifies cells
      ensures Valid()
      ensures Snap(cells) == WaterCleaned(old(Snap(cells)), m, rh, Bins())
    {
      var _ := DeflateWater(m);
      SetCell(cells, m.loc, Empty);
    }

    /** One step of the loop below. */
    method CleanWaterAt(ghost t: seq<Cells>, ghost g0: Cells, ghost r0: int, ghost b0: Loc, ms: seq<Member>, i: int)
      requires 0 <= i < |ms| && AllIn(ms, b0) && t == Run(g0, WaterCleanSteps(ms, r0, b0), |ms|)
      requires Valid() && rh == r0 && Bins() == b0 && Snap(cells) == t[i]
      modifies cells
      ensures Valid() && rh == r0 && Bins() == b0 && Snap(cells) == t[i + 1]
    {
      RunStep(g0, WaterCleanSteps(ms, r0, b0), |ms|, i);
      assert ms[i] in ms;
      CleanWater(ms[i]);
    }

    /** The cleanup loop of the water removals. */
    method CleanWaters(ms: seq<Member>)
      requires Valid() && AllIn(ms, Bins())
      modifies cells
      ensures Valid()
      ensures Snap(cells) == WatersCleanedTo(old(Snap(cells)), ms, |ms|, rh, Bins())
    {
      ghost var g0, r0, b0 := Snap(cells), rh, Bins();
      ghost var t := Run(g0, WaterCleanSteps(ms, r0, b0), |ms|);
      var i := 0;
      while i < |ms|
        invariant 0 <= i <= |ms| && Valid() && rh == r0 && Bins() == b0 && Snap(cells) == t[i]
      {
        CleanWaterAt(t, g0, r0, b0, ms, i);
        i := i + 1;
      }
    }

    /** `remove(vector<bool>)`: the atoms whose uid the mask marks leave the
        list; a count that disagrees with the mask's is an error, reported
        after the list has changed and before any cell is cleaned. The
        caller's mask covers every atom, and the marked uids are not held
        by more atoms than the mask marks. */
    method RemoveMask(mask: seq<bool>) returns (r: Result<(), GridError>)
      requires Valid() && |atoms| <= |mask|
      requires |Taken(atoms, Marked(MaskMapTo(atoms, mask, |atoms|)))| <= Trues(mask, |atoms|)
      modifies cells, this`volume, this`atoms
      ensures Valid()
      ensures atoms == Kept(old(atoms), Marked(MaskMapTo(old(atoms), mask, |old(atoms)|)))
      ensures var t := Taken(old(atoms), Marked(MaskMapTo(old(atoms), mask, |old(atoms)|)));
        if |t| != Trues(mask, |old(atoms)|) then r == Err(InvalidOperation) && Snap(cells) == old(Snap(cells)) && volume == old(volume)
        else r == Ok(()) && Content(Snap(cells), volume) == CleanedTo(Content(old(Snap(cells)), old(volume)), t, |t|, ra, Bins())
    {
      var marks, total := MarkMask(atoms, mask);
      var s := Marked(marks);
      var t := Taken(atoms, s);
      atoms := Kept(atoms, s);
      if |t| != total {
        return Err(InvalidOperation);
      }
      CleanAtoms(t);
      r := Ok(());
    }

    /** `remove(Atom)`: the first atom with the uid leaves the list and is
        cleaned up; an atom not in the grid is an error. */
    method RemoveAtom(uid: int) returns (r: Result<(), GridError>)
      requires Valid()
      modifies cells, this`volume, this`atoms
      ensures Valid()
      ensures Find(old(atoms), uid).None? ==> r == Err(InvalidOperation) && atoms == old(atoms) && Snap(cells) == old(Snap(cells)) && volume == old(volume)
      ensures Find(old(atoms), uid).Some? ==> var p := Find(old(atoms), uid).value;
        r == Ok(()) && atoms == old(atoms)[..p] + old(atoms)[p + 1..] &&
        Content(Snap(cells), volume) == Cleaned(Content(old(Snap(cells)), old(volume)), old(atoms)[p], ra, Bins())
    {
      var pos := Find(atoms, uid);
      if pos.None? {
        return Err(InvalidOperation);
      }
      var p := pos.value;
      var m := atoms[p];
      assert m in atoms;
      atoms := atoms[..p] + atoms[p + 1..];
      CleanAtom(m);
      r := Ok(());
    }

    /** `remove(Water)`: the first water with the uid leaves the list and
        is cleaned up; a water not in the grid is an error. */
    method RemoveWater(uid: int) returns (r: Result<(), GridError>)
      requires Valid()
      modifies cells, this`waters
      ensures Valid()
      ensures Find(old(waters), uid).None? ==> r == Err(InvalidOperation) && waters == old(waters) && Snap(cells) == old(Snap(cells))
      ensures Find(old(waters), uid).Some? ==> var p := Find(old(waters), uid).value;
        r == Ok(()) && waters == old(waters)[..p] + old(waters)[p + 1..] &&
        Snap(cells) == WaterCleaned(old(Snap(cells)), old(waters)[p], rh, Bins())
    {
      var pos := Find(waters, uid);
      if pos.None? {
        return Err(InvalidOperation);
      }
      var p := pos.value;
      var m := waters[p];
      assert m in waters;
      waters := waters[..p] + waters[p + 1..];
      var _ := DeflateWater(m);
      SetCell(cells, m.loc, Empty);
      r := Ok(());
    }

    /** `remove(vector<Atom>)`: the atoms whose uid is listed leave the
        list; a count that disagrees with the list's length is an error.
        Every removed atom decrements the volume. The listed uids are not
        held by more atoms than the list is long. */
    method RemoveAtoms(uids: seq<int>) returns (r: Result<(), GridError>)
      requires Valid() && |Taken(atoms, set u | u in uids)| <= |uids|
      modifies cells, this`volume, this`atoms
      ensures Valid()
      ensures atoms == Kept(old(atoms), set u | u in uids)
      ensures var t := Taken(old(atoms), set u | u in uids);
        if |t| != |uids| then r == Err(Unexpected) && Snap(cells) == old(Snap(cells)) && volume == old(volume)
        else r == Ok(()) && Content(Snap(cells), volume) == CleanedTo(Content(old(Snap(cells)), old(volume)), t, |t|, ra, Bins())
    {
      var s := set u | u in uids;
      var t := Taken(atoms, s);
      atoms := Kept(atoms, s);
      if |t| != |uids| {
        return Err(Unexpected);
      }
      CleanAtoms(t);
      r := Ok(());
    }

    /** `remove(vector<Water>)`, the same for waters. */
    method RemoveWaters(uids: seq<int>) returns (r: Result<(), GridError>)
      requires Valid() && |Taken(waters, set u | u in uids)| <= |uids|
      modifies cells, this`waters
      ensures Valid()
      ensures waters == Kept(old(waters), set u | u in uids)
      ensures var t := Taken(old(waters), set u | u in uids);
        if |t| != |uids| then r == Err(Unexpected) && Snap(cells) == old(Snap(cells))
        else r == Ok(()) && Snap(cells) == WatersCleanedTo(old(Snap(cells)), t, |t|, rh, Bins())
    {
      var s := set u | u in uids;
      var t := Taken(waters, s);
      waters := Kept(waters, s);
      if |t| != |uids| {
        return Err(Unexpected);
      }
      CleanWaters(t);
      r := Ok(());
    }

    /** `clear_waters`: every water is removed and cleaned up, in order;
        the atoms and the volume are untouched. */
    method ClearWaters()
      requires Valid()
      modifies cells, this`waters
      ensures Valid()
      ensures waters == []
      ensures Snap(cells) == WatersCleanedTo(old(Snap(cells)), old(waters), |old(waters)|, rh, Bins())
    {
      var uids := seq(|waters|, i requires 0 <= i < |waters| reads this => waters[i].uid);
      var s := set u | u in uids;
      assert forall m :: m in waters ==> m.uid in s by {
        forall m | m in waters
          ensures m.uid in s
        {
          var i :| 0 <= i < |waters| && waters[i] == m;
          assert uids[i] == m.uid;
        }
      }
      TakenAll(waters, s, |waters|);
      assert waters[..|waters|] == waters;
      var r := RemoveWaters(uids);
    }

    /** `operator=`: a copy of the other grid's cells, members, width,
        volume, radii and axes; the strategies are fixed for the run. */
    method Assign(rhs: Grid)
      requires rhs.Valid()
      modifies this
      ensures Valid() && fresh(cells)
      ensures Snap(cells) == old(Snap(rhs.cells))
      ensures atoms == old(rhs.atoms) && waters == old(rhs.waters) && volume == old(rhs.volume) && axes == old(rhs.axes)
      ensures width == old(rhs.width) && ra == old(rhs.ra) && rh == old(rhs.rh)
    {
      var src := rhs.cells;
      cells := Copy(src);
      atoms := rhs.atoms;
      waters := rhs.waters;
      width := rhs.width;
      volume := rhs.volume;
      ra := rhs.ra;
      rh := rhs.rh;
      axes := rhs.axes;
    }

    /** `operator==`: equal volume, member counts, radii, strategies, width
        and axes; the cells are not compared. */
    predicate Equals(rhs: Grid)
      reads this, rhs
    {
      volume == rhs.volume && |atoms| == |rhs.atoms| && |waters| == |rhs.waters| && ra == rhs.ra && rh == rhs.rh &&
      culler == rhs.culler && placer == rhs.placer && width == rhs.width && axes == rhs.axes
    }
  }
}
