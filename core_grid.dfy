// The newest generation of the voxel grid: bodies are added as contiguous
// runs of atom members whose first index is kept per body uid, waters are
// kept in a list of their own, and the expansion and deflation of a
// member's volume is delegated to an expander that this model takes as a
// parameter.

module CoreGrid {
  import opened Voxels
  import opened Wrappers
  import opened GridParts
  import opened Runs

  /** An atom or a water as the grid receives it: an identifier, its
      coordinates and its radius. */
  datatype Particle = Particle(uid: int, pos: Vec, radius: real)

  /** A body: its uid, the atoms of its explicit structure (every symmetry
      copy written out, `size_atom_total` of them) and its hydration. */
  datatype Body = Body(uid: int, atoms: seq<Particle>, waters: Option<seq<Particle>>)

  /** The volume expander the grid delegates to: for the grid's cells and
      volume and one member, the new cells and volume and the member's new
      expansion flag. */
  datatype Expander = Expander(
    expandAtom: (Content, Member) -> (Content, bool),
    expandWater: (Content, Member) -> (Content, bool),
    deflateAtom: (Content, Member) -> (Content, bool),
    deflateWater: (Content, Member) -> (Content, bool))

  /** Whether an expander step keeps cells of `bins` cells per axis in
      that shape: it changes cell states, not the grid. */
  ghost predicate Keeps(f: (Content, Member) -> (Content, bool), bins: Loc) {
    forall c: Content, m: Member :: Fits(c.cells, bins) ==> Fits(f(c, m).0.cells, bins)
  }

  ghost predicate KeepsShape(ex: Expander, bins: Loc) {
    Keeps(ex.expandAtom, bins) && Keeps(ex.expandWater, bins) && Keeps(ex.deflateAtom, bins) && Keeps(ex.deflateWater, bins)
  }

  /** The passes over the member lists: `expand_volume`,
      `deflate_volume`, and `force_expand_volume`, which clears each
      member's flag before expanding it. */
  datatype Pass = Expand | Deflate | Force

  function Pick(ex: Expander, water: bool, p: Pass): (Content, Member) -> (Content, bool) {
    match p
    case Deflate => if water then ex.deflateWater else ex.deflateAtom
    case _ => if water then ex.expandWater else ex.expandAtom
  }

  lemma PickKeeps(ex: Expander, bins: Loc, water: bool, p: Pass)
    requires KeepsShape(ex, bins)
    ensures Keeps(Pick(ex, water, p), bins)
  {
  }

  // ---- the cells of a member's centre ----

  /** `is_empty_or_water`. */
  predicate EmptyOrWater(s: Cell) { s == Empty || s == WCenter || s == WArea }

  /** `is_empty_or_volume`. */
  predicate EmptyOrVolume(s: Cell) { s == Empty || s == Volume }

  /** The state a new water writes to its centre: `W_CENTER` times
      `is_empty_or_volume`, that is, a water centre over an empty or
      volume cell and the empty state (0) over any other. */
  function WaterCentre(s: Cell): Cell { if EmptyOrVolume(s) then WCenter else Empty }

  /** The unexpanded members of particles, each in the bin nearest its
      coordinates. */
  function Entries(ps: seq<Particle>, a: Axes, width: real): (ms: seq<Member>)
    requires width != 0.0
    ensures |ms| == |ps|
    ensures forall i :: 0 <= i < |ps| ==> ms[i] == Member(ps[i].uid, ToBins(ps[i].pos, a, width), ps[i].radius, false)
  {
    seq(|ps|, i requires 0 <= i < |ps| => Member(ps[i].uid, ToBins(ps[i].pos, a, width), ps[i].radius, false))
  }

  /** An atom's centre: the volume grows by one when the bin was empty or
      held water, and the bin becomes an atom centre. */
  function AtomPlaced(c: Content, l: Loc): Content
    requires InCells(c.cells, l.x, l.y, l.z)
  {
    Content(Put(c.cells, l, ACenter), c.volume + if EmptyOrWater(c.cells[l.x][l.y][l.z]) then 1 else 0)
  }

  /** A water's centre; the volume is untouched. */
  function WaterPlaced(c: Content, l: Loc): Content
    requires InCells(c.cells, l.x, l.y, l.z)
  {
    Content(Put(c.cells, l, WaterCentre(c.cells[l.x][l.y][l.z])), c.volume)
  }

  // ---- the member lists as runs of steps ----

  /** The contents together with the member list an operation changes. */
  datatype Stage = Stage(content: Content, members: seq<Member>)

  /** One member added: its centre placed, its volume expanded on demand,
      the member appended with the flag the expander reports. */
  function Added(s: Stage, m: Member, water: bool, expand: bool, ex: Expander): Stage
    requires InCells(s.content.cells, m.loc.x, m.loc.y, m.loc.z)
  {
    var c := if water then WaterPlaced(s.content, m.loc) else AtomPlaced(s.content, m.loc);
    if !expand then Stage(c, s.members + [m])
    else var r := Pick(ex, water, Expand)(c, m); Stage(r.0, s.members + [m.(expanded := r.1)])
  }

  function AddSteps(ms: seq<Member>, water: bool, expand: bool, ex: Expander, bins: Loc): (Stage, nat) -> Stage {
    (s: Stage, j: nat) =>
      if j < |ms| && Fits(s.content.cells, bins) && InGrid(ms[j].loc, bins) then Added(s, ms[j], water, expand, ex) else s
  }

  /** The state after adding the members `[0, k)` in order. */
  function AddedTo(s: Stage, ms: seq<Member>, k: nat, water: bool, expand: bool, ex: Expander, bins: Loc): Stage {
    Run(s, AddSteps(ms, water, expand, ex, bins), k)[k]
  }

  /** One atom of a removed body: deflated, then its centre emptied, the
      volume dropping by one unless the centre was already empty. */
  ghost function AtomCleared(c: Content, m: Member, ex: Expander, bins: Loc): Content
    requires KeepsShape(ex, bins) && Fits(c.cells, bins) && InGrid(m.loc, bins)
  {
    var d := ex.deflateAtom(c, m).0;
    Content(Put(d.cells, m.loc, Empty), d.volume - if d.cells[m.loc.x][m.loc.y][m.loc.z] != Empty then 1 else 0)
  }

  /** One removed water: deflated, then its centre emptied. */
  ghost function WaterCleared(c: Content, m: Member, ex: Expander, bins: Loc): Content
    requires KeepsShape(ex, bins) && Fits(c.cells, bins) && InGrid(m.loc, bins)
  {
    var d := ex.deflateWater(c, m).0;
    Content(Put(d.cells, m.loc, Empty), d.volume)
  }

  ghost function BodySteps(ms: seq<Member>, ex: Expander, bins: Loc): (Content, nat) -> Content {
    (c: Content, j: nat) =>
      if j < |ms| && KeepsShape(ex, bins) && Fits(c.cells, bins) && InGrid(ms[j].loc, bins) then AtomCleared(c, ms[j], ex, bins) else c
  }

  /** The contents after clearing the atoms `[0, k)` in order. */
  ghost function BodyClearedTo(c: Content, ms: seq<Member>, k: nat, ex: Expander, bins: Loc): Content {
    Run(c, BodySteps(ms, ex, bins), k)[k]
  }

  ghost function WaterSteps(ms: seq<Member>, mask: seq<bool>, ex: Expander, bins: Loc): (Content, nat) -> Content {
    (c: Content, j: nat) =>
      if j < |ms| && j < |mask| && mask[j] && KeepsShape(ex, bins) && Fits(c.cells, bins) && InGrid(ms[j].loc, bins)
      then WaterCleared(c, ms[j], ex, bins) else c
  }

  /** The contents after clearing the masked waters among `[0, k)` in
      order. */
  ghost function WatersClearedTo(c: Content, ms: seq<Member>, mask: seq<bool>, k: nat, ex: Expander, bins: Loc): Content {
    Run(c, WaterSteps(ms, mask, ex, bins), k)[k]
  }

  /** A mask of `n` set entries. */
  function AllSet(n: nat): (mask: seq<bool>)
    ensures |mask| == n && forall i :: 0 <= i < n ==> mask[i]
  {
    seq(n, i => true)
  }

  /** The member at `j` handed to the expander, its flag cleared first on
      demand, and replaced by its copy with the flag the expander
      reports. */
  function Visited(s: Stage, j: nat, f: (Content, Member) -> (Content, bool), reset: bool): Stage
    requires j < |s.members|
  {
    var m := if reset then s.members[j].(expanded := false) else s.members[j];
    var r := f(s.content, m);
    Stage(r.0, s.members[j := m.(expanded := r.1)])
  }

  function VisitSteps(f: (Content, Member) -> (Content, bool), reset: bool): (Stage, nat) -> Stage {
    (s: Stage, j: nat) => if j < |s.members| then Visited(s, j, f, reset) else s
  }

  /** The state after handing the members `[0, k)` to the expander in
      order. */
  function VisitedTo(s: Stage, k: nat, f: (Content, Member) -> (Content, bool), reset: bool): Stage {
    Run(s, VisitSteps(f, reset), k)[k]
  }

  // ---- the body offsets ----

  /** The offsets once the body `uid`, whose atoms were `[start, end)`, is
      gone: every offset at or past `end` moves down by the body's size. */
  function Shifted(starts: map<int, int>, uid: int, start: int, end: int): map<int, int> {
    map u | u in starts && u != uid :: if end <= starts[u] then starts[u] - (end - start) else starts[u]
  }

  // ---- whole-array transfers to and from the expander ----

  /** Row (i, j) of a snapshot written into the array. */
  method StoreRow(a: array3<Cell>, g: Cells, i: int, j: int)
    requires Shape(g, a.Length0, a.Length1, a.Length2) && 0 <= i < a.Length0 && 0 <= j < a.Length1
    modifies a
    ensures forall k :: 0 <= k < a.Length2 ==> a[i, j, k] == g[i][j][k]
    ensures forall x, y, z :: InArray(a, x, y, z) && !(x == i && y == j) ==> a[x, y, z] == old(a[x, y, z])
  {
    for k := 0 to a.Length2
      invariant forall z :: 0 <= z < k ==> a[i, j, z] == g[i][j][z]
      invariant forall x, y, z :: InArray(a, x, y, z) && !(x == i && y == j && z < k) ==> a[x, y, z] == old(a[x, y, z])
    {
      a[i, j, k] := g[i][j][k];
    }
  }

  /** Plane i of a snapshot written into the array. */
  method StorePlane(a: array3<Cell>, g: Cells, i: int)
    requires Shape(g, a.Length0, a.Length1, a.Length2) && 0 <= i < a.Length0
    modifies a
    ensures forall j, k :: 0 <= j < a.Length1 && 0 <= k < a.Length2 ==> a[i, j, k] == g[i][j][k]
    ensures forall x, y, z :: InArray(a, x, y, z) && x != i ==> a[x, y, z] == old(a[x, y, z])
  {
    for j := 0 to a.Length1
      invariant forall y, k :: 0 <= y < j && 0 <= k < a.Length2 ==> a[i, y, k] == g[i][y][k]
      invariant forall x, y, z :: InArray(a, x, y, z) && !(x == i && y < j) ==> a[x, y, z] == old(a[x, y, z])
    {
      StoreRow(a, g, i, j);
    }
  }

  /** A snapshot of the array's shape written into the array. */
  method Store(a: array3<Cell>, g: Cells)
    requires Shape(g, a.Length0, a.Length1, a.Length2)
    modifies a
    ensures Snap(a) == g
  {
    for i := 0 to a.Length0
      invariant forall x, y, z :: InArray(a, x, y, z) && x < i ==> a[x, y, z] == g[x][y][z]
    {
      StorePlane(a, g, i);
    }
    SnapIs(a, g);
  }

  /** The array's cells as a value. */
  method Read(a: array3<Cell>) returns (g: Cells)
    ensures g == Snap(a)
  {
    g := seq(a.Length0, i requires 0 <= i < a.Length0 reads a =>
      seq(a.Length1, j requires 0 <= j < a.Length1 reads a =>
        seq(a.Length2, k requires 0 <= k < a.Length2 reads a => a[i, j, k])));
    SnapIs(a, g);
  }

  class Grid {
    var cells: array3<Cell>
    var volume: int
    var atoms: seq<Member>
    var waters: seq<Member>
    var axes: Axes
    /** `body_start`: the index of each body's first atom member. */
    var bodyStart: map<int, int>
    /** The cell width, and the volume expander. */
    const width: real
    const ex: Expander

    function Bins(): Loc
      reads this`cells
    {
      Loc(cells.Length0, cells.Length1, cells.Length2)
    }

    /** The cells and the volume counter as one value. */
    ghost function State(): Content
      reads this, cells
    {
      Content(Snap(cells), volume)
    }

    ghost predicate Valid()
      reads this
    {
      cells.Length0 == axes.x.bins && cells.Length1 == axes.y.bins && cells.Length2 == axes.z.bins &&
      width > 0.0 && AllIn(atoms, Bins()) && AllIn(waters, Bins()) && KeepsShape(ex, Bins()) &&
      forall u :: u in bodyStart ==> bodyStart[u] >= 0
    }

    /** An empty grid over the axes the setup chose. */
    constructor(a: Axes, width: real, ex: Expander)
      requires a.x.bins >= 0 && a.y.bins >= 0 && a.z.bins >= 0 && width > 0.0
      requires KeepsShape(ex, Loc(a.x.bins, a.y.bins, a.z.bins))
      ensures Valid() && fresh(cells)
      ensures axes == a && atoms == [] && waters == [] && volume == 0 && bodyStart == map[]
      ensures this.width == width && this.ex == ex
      ensures forall i, j, k :: InArray(cells, i, j, k) ==> cells[i, j, k] == Empty
    {
      cells := new Cell[a.x.bins, a.y.bins, a.z.bins]((i, j, k) => Empty);
      volume := 0;
      atoms := [];
      waters := [];
      axes := a;
      bodyStart := map[];
      this.width := width;
      this.ex := ex;
    }

    /** `volume::expand` or `volume::deflate` of one member: the cells and
        the volume are handed to the expander and replaced by what it
        returns, and its flag for the member is returned. */
    method Delegate(water: bool, p: Pass, m: Member) returns (flag: bool)
      requires Valid()
      modifies cells, this`volume
      ensures Valid()
      ensures State() == Pick(ex, water, p)(old(State()), m).0
      ensures flag == Pick(ex, water, p)(old(State()), m).1
    {
      PickKeeps(ex, Bins(), water, p);
      var g := Read(cells);
      var r := Pick(ex, water, p)(Content(g, volume), m);
      Store(cells, r.0.cells);
      volume := r.0.volume;
      flag := r.1;
    }

    /** The centre of a new atom. */
    method PlaceAtom(l: Loc)
      requires Valid() && InGrid(l, Bins())
      modifies cells, this`volume
      ensures Valid()
      ensures State() == AtomPlaced(old(State()), l)
    {
      var s := cells[l.x, l.y, l.z];
      if s == Empty || s == WCenter || s == WArea {
        volume := volume + 1;
      }
      SetCell(cells, l, ACenter);
    }

    /** `add_single_water`: the centre of a new water. */
    method PlaceWater(l: Loc)
      requires Valid() && InGrid(l, Bins())
      modifies cells
      ensures Valid()
      ensures State() == WaterPlaced(old(State()), l)
    {
      var s := cells[l.x, l.y, l.z];
      SetCell(cells, l, WaterCentre(s));
    }

    /** One step of the atom loop of `add(Body)`: the state moves one step
        along the run `t`. */
    method AddAtomAt(ghost t: seq<Stage>, ghost s0: Stage, ghost ms: seq<Member>, ghost b0: Loc, p: Particle, expand: bool, i: int)
      requires 0 <= i < |ms| && AllIn(ms, b0) && t == Run(s0, AddSteps(ms, false, expand, ex, b0), |ms|)
      requires Valid() && Bins() == b0 && ms[i] == Member(p.uid, ToBins(p.pos, axes, width), p.radius, false)
      requires Stage(State(), atoms) == t[i]
      modifies cells, this`volume, this`atoms
      ensures Valid() && Bins() == b0 && unchanged(this`axes, this`waters, this`bodyStart)
      ensures Stage(State(), atoms) == t[i + 1]
    {
      RunStep(s0, AddSteps(ms, false, expand, ex, b0), |ms|, i);
      assert ms[i] in ms;
      ghost var s := t[i];
      assert Fits(s.content.cells, b0);
      assert t[i + 1] == Added(s, ms[i], false, expand, ex);
      var loc := ToBins(p.pos, axes, width);
      var m := Member(p.uid, loc, p.radius, false);
      PlaceAtom(loc);
      assert State() == AtomPlaced(s.content, loc);
      if expand {
        var f := Delegate(false, Expand, m);
        m := m.(expanded := f);
      }
      atoms := atoms + [m];
      assert atoms == s.members + [m];
    }

    /** One step of `add(vector<Water>)`. */
    method AddWaterAt(ghost t: seq<Stage>, ghost s0: Stage, ghost ms: seq<Member>, ghost b0: Loc, p: Particle, expand: bool, i: int)
      requires 0 <= i < |ms| && AllIn(ms, b0) && t == Run(s0, AddSteps(ms, true, expand, ex, b0), |ms|)
      requires Valid() && Bins() == b0 && ms[i] == Member(p.uid, ToBins(p.pos, axes, width), p.radius, false)
      requires Stage(State(), waters) == t[i]
      modifies cells, this`volume, this`waters
      ensures Valid() && Bins() == b0 && unchanged(this`axes, this`atoms, this`bodyStart)
      ensures Stage(State(), waters) == t[i + 1]
    {
      RunStep(s0, AddSteps(ms, true, expand, ex, b0), |ms|, i);
      assert ms[i] in ms;
      ghost var s := t[i];
      assert Fits(s.content.cells, b0);
      assert t[i + 1] == Added(s, ms[i], true, expand, ex);
      var loc := ToBins(p.pos, axes, width);
      var m := Member(p.uid, loc, p.radius, false);
      PlaceWater(loc);
      assert State() == WaterPlaced(s.content, loc);
      if expand {
        var f := Delegate(true, Expand, m);
        m := m.(expanded := f);
      }
      waters := waters + [m];
      assert waters == s.members + [m];
    }

    /** `add(vector<Water>, expand)`: each water is placed, expanded on
        demand and appended, in order; the index of the first is
        returned. */
    method AddWaters(ws: seq<Particle>, expand: bool) returns (start: int)
      requires Valid() && AllIn(Entries(ws, axes, width), Bins())
      modifies cells, this`volume, this`waters
      ensures Valid() && unchanged(this`axes, this`atoms, this`bodyStart)
      ensures start == |old(waters)|
      ensures Stage(State(), waters) == AddedTo(Stage(old(State()), old(waters)), Entries(ws, axes, width), |ws|, true, expand, ex, Bins())
    {
      start := |waters|;
      ghost var ms, b0 := Entries(ws, axes, width), Bins();
      ghost var s0 := Stage(State(), waters);
      ghost var t := Run(s0, AddSteps(ms, true, expand, ex, b0), |ms|);
      var i := 0;
      while i < |ws|
        invariant 0 <= i <= |ms| && Valid() && Bins() == b0 && unchanged(this`axes, this`atoms, this`bodyStart)
        invariant Stage(State(), waters) == t[i]
      {
        AddWaterAt(t, s0, ms, b0, ws[i], expand, i);
        i := i + 1;
      }
    }

    /** `add(Water, expand)`: one water placed, expanded on demand and
        appended. */
    method AddWater(w: Particle, expand: bool) returns (m: Member)
      requires Valid() && InGrid(ToBins(w.pos, axes, width), Bins())
      modifies cells, this`volume, this`waters
      ensures Valid() && unchanged(this`axes, this`atoms, this`bodyStart)
      ensures waters == old(waters) + [m]
      ensures var s := Added(Stage(old(State()), old(waters)), Member(w.uid, ToBins(w.pos, axes, width), w.radius, false), true, expand, ex);
        State() == s.content && waters == s.members
    {
      var loc := ToBins(w.pos, axes, width);
      m := Member(w.uid, loc, w.radius, false);
      PlaceWater(loc);
      if expand {
        var f := Delegate(true, Expand, m);
        m := m.(expanded := f);
      }
      waters := waters + [m];
    }

    /** The atom loop of `add(Body)`. */
    method AddAtoms(ps: seq<Particle>, expand: bool)
      requires Valid() && AllIn(Entries(ps, axes, width), Bins())
      modifies cells, this`volume, this`atoms
      ensures Valid() && unchanged(this`axes, this`waters, this`bodyStart)
      ensures Stage(State(), atoms) == AddedTo(Stage(old(State()), old(atoms)), Entries(ps, axes, width), |ps|, false, expand, ex, Bins())
    {
      ghost var ms, b0 := Entries(ps, axes, width), Bins();
      ghost var s0 := Stage(State(), atoms);
      ghost var t := Run(s0, AddSteps(ms, false, expand, ex, b0), |ms|);
      var i := 0;
      while i < |ps|
        invariant 0 <= i <= |ms| && Valid() && Bins() == b0 && unchanged(this`axes, this`waters, this`bodyStart)
        invariant Stage(State(), atoms) == t[i]
      {
        AddAtomAt(t, s0, ms, b0, ps[i], expand, i);
        i := i + 1;
      }
    }

    /** `add(Body, expand)`: the body's offset is the number of atom
        members so far, even for a body without atoms; a body with atoms
        has them placed and appended in order, then its waters, if it has
        any. A body without atoms adds nothing else, its waters
        included. */
    method AddBody(b: Body, expand: bool) returns (start: int)
      requires Valid() && AllIn(Entries(b.atoms, axes, width), Bins())
      requires b.waters.Some? ==> AllIn(Entries(b.waters.value, axes, width), Bins())
      modifies cells, this`volume, this`atoms, this`waters, this`bodyStart
      ensures Valid() && axes == old(axes)
      ensures start == |old(atoms)| && bodyStart == old(bodyStart)[b.uid := |old(atoms)|]
      ensures |b.atoms| == 0 ==> atoms == old(atoms) && waters == old(waters) && State() == old(State())
      ensures |b.atoms| != 0 ==>
        var a := AddedTo(Stage(old(State()), old(atoms)), Entries(b.atoms, axes, width), |b.atoms|, false, expand, ex, Bins());
        atoms == a.members &&
        if b.waters.None? then waters == old(waters) && State() == a.content
        else Stage(State(), waters) == AddedTo(Stage(a.content, old(waters)), Entries(b.waters.value, axes, width), |b.waters.value|, true, expand, ex, Bins())
    {
      start := |atoms|;
      bodyStart := bodyStart[b.uid := start];
      if |b.atoms| == 0 {
        return;
      }
      AddAtoms(b.atoms, expand);
      if b.waters.Some? {
        var _ := AddWaters(b.waters.value, expand);
      }
    }

    /** One atom of a removed body. */
    method ClearAtom(m: Member)
      requires Valid() && InGrid(m.loc, Bins())
      modifies cells, this`volume
      ensures Valid()
      ensures State() == AtomCleared(old(State()), m, ex, Bins())
    {
      var _ := Delegate(false, Deflate, m);
      var s := cells[m.loc.x, m.loc.y, m.loc.z];
      if s != Empty {
        volume := volume - 1;
      }
      SetCell(cells, m.loc, Empty);
    }

    /** One step of the loop of `remove(Body)`. */
    method ClearAtomAt(ghost t: seq<Content>, ghost c0: Content, ghost ms: seq<Member>, ghost b0: Loc, m: Member, i: int)
      requires 0 <= i < |ms| && AllIn(ms, b0) && t == Run(c0, BodySteps(ms, ex, b0), |ms|) && ms[i] == m
      requires Valid() && Bins() == b0 && State() == t[i]
      modifies cells, this`volume
      ensures Valid() && Bins() == b0 && State() == t[i + 1]
    {
      RunStep(c0, BodySteps(ms, ex, b0), |ms|, i);
      assert ms[i] in ms;
      ClearAtom(m);
    }

    /** The body offsets with the removed body's entry erased and the
        later offsets shifted down. */
    method ShiftStarts(uid: int, start: int, end: int)
      requires Valid() && start <= end && forall u :: u in bodyStart && end <= bodyStart[u] ==> bodyStart[u] - (end - start) >= 0
      modifies this`bodyStart
      ensures Valid()
      ensures bodyStart == Shifted(old(bodyStart), uid, start, end)
    {
      var rest := bodyStart - {uid};
      var keys := rest.Keys;
      var shifted := rest;
      while keys != {}
        invariant keys <= rest.Keys && shifted.Keys == rest.Keys
        invariant forall u :: u in rest ==> shifted[u] == if u !in keys && end <= rest[u] then rest[u] - (end - start) else rest[u]
        decreases keys
      {
        assert exists u :: u in keys by { NonEmptyHas(keys); }
        var u :| u in keys;
        if end <= shifted[u] {
          shifted := shifted[u := shifted[u] - (end - start)];
        }
        keys := keys - {u};
      }
      bodyStart := shifted;
    }

    /** `remove(Body)`: the body's atoms `[start, start + n)` are deflated
        and their centres emptied, the volume dropping once for each centre
        not already empty; the range leaves the list, the body's offset
        is erased and every offset at or past the range's end moves down
        by `n`. The body must be in the grid with its atoms still in the
        list. */
    method RemoveBody(b: Body)
      requires Valid() && b.uid in bodyStart && bodyStart[b.uid] + |b.atoms| <= |atoms|
      modifies cells, this`volume, this`atoms, this`bodyStart
      ensures Valid() && waters == old(waters) && axes == old(axes)
      ensures var s := old(bodyStart)[b.uid]; var e := s + |b.atoms|;
        atoms == old(atoms)[..s] + old(atoms)[e..] &&
        bodyStart == Shifted(old(bodyStart), b.uid, s, e) &&
        State() == BodyClearedTo(old(State()), old(atoms)[s..e], |b.atoms|, ex, Bins())
    {
      var start := bodyStart[b.uid];
      var end := start + |b.atoms|;
      ghost var ms, b0, c0 := atoms[start..end], Bins(), State();
      assert forall m :: m in ms ==> m in atoms;
      ghost var t := Run(c0, BodySteps(ms, ex, b0), |ms|);
      var i := start;
      while i < end
        invariant start <= i <= end && Valid() && Bins() == b0 && State() == t[i - start]
        invariant atoms == old(atoms) && bodyStart == old(bodyStart)
      {
        ClearAtomAt(t, c0, ms, b0, atoms[i], i - start);
        i := i + 1;
      }
      assert forall m :: m in atoms[..start] + atoms[end..] ==> m in atoms;
      atoms := atoms[..start] + atoms[end..];
      ShiftStarts(b.uid, start, end);
    }

    /** One removed water. */
    method ClearWater(m: Member)
      requires Valid() && InGrid(m.loc, Bins())
      modifies cells, this`volume
      ensures Valid()
      ensures State() == WaterCleared(old(State()), m, ex, Bins())
    {
      var _ := Delegate(true, Deflate, m);
      SetCell(cells, m.loc, Empty);
    }

    /** One step of the loop of `remove_waters`. */
    method ClearWaterAt(ghost t: seq<Content>, ghost c0: Content, ghost ms: seq<Member>, mask: seq<bool>, ghost b0: Loc, m: Member, i: int)
      requires 0 <= i < |ms| && i < |mask| && AllIn(ms, b0) && ms[i] == m && t == Run(c0, WaterSteps(ms, mask, ex, b0), |ms|)
      requires Valid() && Bins() == b0 && State() == t[i]
      modifies cells, this`volume
      ensures Valid() && Bins() == b0 && State() == t[i + 1]
    {
      RunStep(c0, WaterSteps(ms, mask, ex, b0), |ms|, i);
      assert ms[i] in ms;
      if mask[i] {
        ClearWater(m);
      }
    }

    /** `remove_waters(mask)`: the waters with a set mask entry are
        deflated and their centres emptied, in order, and the others stay,
        in order. The mask has one entry per water. */
    method RemoveWaters(mask: seq<bool>)
      requires Valid() && |mask| == |waters|
      modifies cells, this`volume, this`waters
      ensures Valid() && atoms == old(atoms) && bodyStart == old(bodyStart) && axes == old(axes)
      ensures waters == UnmaskedTo(old(waters), mask, |old(waters)|)
      ensures State() == WatersClearedTo(old(State()), old(waters), mask, |old(waters)|, ex, Bins())
    {
      ghost var ms, b0, c0 := waters, Bins(), State();
      ghost var t := Run(c0, WaterSteps(ms, mask, ex, b0), |ms|);
      var kept := [];
      var i := 0;
      while i < |waters|
        invariant 0 <= i <= |ms| && Valid() && Bins() == b0 && State() == t[i]
        invariant waters == ms && atoms == old(atoms) && bodyStart == old(bodyStart) && axes == old(axes)
        invariant kept == UnmaskedTo(ms, mask, i)
      {
        if !mask[i] {
          kept := kept + [waters[i]];
        }
        ClearWaterAt(t, c0, ms, mask, b0, waters[i], i);
        i := i + 1;
      }
      UnmaskedIn(ms, mask, |ms|);
      waters := kept;
    }

    /** `clear_waters`: every water is deflated and its centre emptied, in
        order, as a removal with every mask entry set would; the atoms
        stay. */
    method ClearWaters()
      requires Valid()
      modifies cells, this`volume, this`waters
      ensures Valid() && atoms == old(atoms) && bodyStart == old(bodyStart) && axes == old(axes)
      ensures waters == []
      ensures State() == WatersClearedTo(old(State()), old(waters), AllSet(|old(waters)|), |old(waters)|, ex, Bins())
    {
      ghost var ms, b0, c0 := waters, Bins(), State();
      var mask := AllSet(|waters|);
      ghost var t := Run(c0, WaterSteps(ms, mask, ex, b0), |ms|);
      var i := 0;
      while i < |waters|
        invariant 0 <= i <= |ms| && Valid() && Bins() == b0 && State() == t[i]
        invariant waters == ms && atoms == old(atoms) && bodyStart == old(bodyStart) && axes == old(axes)
      {
        ClearWaterAt(t, c0, ms, mask, b0, waters[i], i);
        i := i + 1;
      }
      waters := [];
    }

    /** One step of a pass over the atoms. */
    method VisitAtomAt(ghost t: seq<Stage>, ghost s0: Stage, ghost b0: Loc, p: Pass, i: int)
      requires 0 <= i < |s0.members| && t == Run(s0, VisitSteps(Pick(ex, false, p), p == Force), |s0.members|)
      requires Valid() && Bins() == b0 && Stage(State(), atoms) == t[i] && |atoms| == |s0.members|
      modifies cells, this`volume, this`atoms
      ensures Valid() && Bins() == b0 && Stage(State(), atoms) == t[i + 1] && |atoms| == |s0.members|
    {
      RunStep(s0, VisitSteps(Pick(ex, false, p), p == Force), |s0.members|, i);
      var m := atoms[i];
      if p == Force {
        m := m.(expanded := false);
      }
      var f := Delegate(false, p, m);
      Reflag(atoms, i, f, Bins());
      atoms := atoms[i := m.(expanded := f)];
    }

    /** One pass over the atoms, in order. */
    method VisitAtoms(p: Pass)
      requires Valid()
      modifies cells, this`volume, this`atoms
      ensures Valid() && waters == old(waters) && bodyStart == old(bodyStart) && axes == old(axes)
      ensures Stage(State(), atoms) == VisitedTo(Stage(old(State()), old(atoms)), |old(atoms)|, Pick(ex, false, p), p == Force)
    {
      ghost var s0, b0 := Stage(State(), atoms), Bins();
      ghost var t := Run(s0, VisitSteps(Pick(ex, false, p), p == Force), |s0.members|);
      var i := 0;
      while i < |atoms|
        invariant 0 <= i <= |s0.members| && Valid() && Bins() == b0 && Stage(State(), atoms) == t[i] && |atoms| == |s0.members|
        invariant waters == old(waters) && bodyStart == old(bodyStart) && axes == old(axes)
      {
        VisitAtomAt(t, s0, b0, p, i);
        i := i + 1;
      }
    }

    /** One step of a pass over the waters. */
    method VisitWaterAt(ghost t: seq<Stage>, ghost s0: Stage, ghost b0: Loc, p: Pass, i: int)
      requires 0 <= i < |s0.members| && t == Run(s0, VisitSteps(Pick(ex, true, p), p == Force), |s0.members|)
      requires Valid() && Bins() == b0 && Stage(State(), waters) == t[i] && |waters| == |s0.members|
      modifies cells, this`volume, this`waters
      ensures Valid() && Bins() == b0 && Stage(State(), waters) == t[i + 1] && |waters| == |s0.members|
    {
      RunStep(s0, VisitSteps(Pick(ex, true, p), p == Force), |s0.members|, i);
      var m := waters[i];
      if p == Force {
        m := m.(expanded := false);
      }
      var f := Delegate(true, p, m);
      Reflag(waters, i, f, Bins());
      waters := waters[i := m.(expanded := f)];
    }

    /** One pass over the waters, in order. */
    method VisitWaters(p: Pass)
      requires Valid()
      modifies cells, this`volume, this`waters
      ensures Valid() && atoms == old(atoms) && bodyStart == old(bodyStart) && axes == old(axes)
      ensures Stage(State(), waters) == VisitedTo(Stage(old(State()), old(waters)), |old(waters)|, Pick(ex, true, p), p == Force)
    {
      ghost var s0, b0 := Stage(State(), waters), Bins();
      ghost var t := Run(s0, VisitSteps(Pick(ex, true, p), p == Force), |s0.members|);
      var i := 0;
      while i < |waters|
        invariant 0 <= i <= |s0.members| && Valid() && Bins() == b0 && Stage(State(), waters) == t[i] && |waters| == |s0.members|
        invariant atoms == old(atoms) && bodyStart == old(bodyStart) && axes == old(axes)
      {
        VisitWaterAt(t, s0, b0, p, i);
        i := i + 1;
      }
    }

    /** `expand_volume`, `deflate_volume` and `force_expand_volume`: every
        atom, then every water, is handed to the expander in order. */
    method VolumePass(p: Pass)
      requires Valid()
      modifies cells, this`volume, this`atoms, this`waters
      ensures Valid() && bodyStart == old(bodyStart) && axes == old(axes)
      ensures var a := VisitedTo(Stage(old(State()), old(atoms)), |old(atoms)|, Pick(ex, false, p), p == Force);
        var w := VisitedTo(Stage(a.content, old(waters)), |old(waters)|, Pick(ex, true, p), p == Force);
        atoms == a.members && waters == w.members && State() == w.content
    {
      VisitAtoms(p);
      VisitWaters(p);
    }

    /** `get_volume`: the volume is expanded, and the number of volume
        cells times the cell volume returned. */
    method GetVolume() returns (v: real)
      requires Valid()
      modifies cells, this`volume, this`atoms, this`waters
      ensures Valid() && bodyStart == old(bodyStart) && axes == old(axes)
      ensures var a := VisitedTo(Stage(old(State()), old(atoms)), |old(atoms)|, ex.expandAtom, false);
        var w := VisitedTo(Stage(a.content, old(waters)), |old(waters)|, ex.expandWater, false);
        atoms == a.members && waters == w.members && State() == w.content
      ensures v == volume as real * (width * width * width)
    {
      VolumePass(Expand);
      v := volume as real * (width * width * width);
    }

    /** `operator=`: a copy of the other grid's cells, members, volume,
        axes and body offsets; the cell width and the expander are
        process-wide and already agree. */
    method Assign(rhs: Grid)
      requires rhs.Valid() && rhs.width == width && rhs.ex == ex
      modifies this
      ensures Valid() && fresh(cells)
      ensures Snap(cells) == old(Snap(rhs.cells))
      ensures atoms == old(rhs.atoms) && waters == old(rhs.waters) && volume == old(rhs.volume)
      ensures axes == old(rhs.axes) && bodyStart == old(rhs.bodyStart)
    {
      var src := rhs.cells;
      cells := Copy(src);
      atoms := rhs.atoms;
      waters := rhs.waters;
      volume := rhs.volume;
      axes := rhs.axes;
      bodyStart := rhs.bodyStart;
    }

    /** `operator==`: equal volume, member counts and axes; neither the
        cells nor the body offsets are compared. */
    predicate Equals(rhs: Grid)
      reads this, rhs
    {
      volume == rhs.volume && |atoms| == |rhs.atoms| && |waters| == |rhs.waters| && axes == rhs.axes
    }
  }

  // ---- properties of the member lists and the cells ----

  /** Adding members keeps the grid's shape and the earlier members and
      appends one member per entry, in order: the entry itself, whose
      expansion flag alone the expander may set; without expansion, the
      entries exactly. */
  lemma {:induction false} AddedMembers(s: Stage, ms: seq<Member>, k: nat, water: bool, expand: bool, ex: Expander, bins: Loc)
    requires k <= |ms| && AllIn(ms, bins) && Fits(s.content.cells, bins) && KeepsShape(ex, bins)
    ensures var r := AddedTo(s, ms, k, water, expand, ex, bins);
      Fits(r.content.cells, bins) && |r.members| == |s.members| + k && r.members[..|s.members|] == s.members &&
      (forall i :: 0 <= i < k ==> r.members[|s.members| + i] == ms[i].(expanded := r.members[|s.members| + i].expanded)) &&
      (!expand ==> r.members == s.members + ms[..k])
  {
    if k > 0 {
      var j := k - 1;
      AddedMembers(s, ms, j, water, expand, ex, bins);
      AddedStep(s, ms, j, water, expand, ex, bins);
      assert ms[j] in ms;
      var p := AddedTo(s, ms, j, water, expand, ex, bins);
      var r := AddedTo(s, ms, k, water, expand, ex, bins);
      PickKeeps(ex, bins, water, Expand);
      assert r.members == p.members + [r.members[|r.members| - 1]];
      assert ms[..k] == ms[..j] + [ms[j]];
    }
  }

  /** The run of additions, one step further. */
  lemma AddedStep(s: Stage, ms: seq<Member>, j: nat, water: bool, expand: bool, ex: Expander, bins: Loc)
    ensures AddedTo(s, ms, j + 1, water, expand, ex, bins) == AddSteps(ms, water, expand, ex, bins)(AddedTo(s, ms, j, water, expand, ex, bins), j)
  {
    RunStep(s, AddSteps(ms, water, expand, ex, bins), j + 1, j);
    RunPrefix(s, AddSteps(ms, water, expand, ex, bins), j + 1, j);
  }

  /** Atoms added without expansion: each one's bin holds an atom centre,
      every other cell keeps its state, and the volume grows by at most one
      per atom. */
  lemma {:induction false} AtomsPlaced(s: Stage, ms: seq<Member>, k: nat, ex: Expander, bins: Loc)
    requires k <= |ms| && AllIn(ms, bins) && Fits(s.content.cells, bins)
    ensures var r := AddedTo(s, ms, k, false, false, ex, bins);
      Fits(r.content.cells, bins) &&
      (forall i :: 0 <= i < k ==> r.content.cells[ms[i].loc.x][ms[i].loc.y][ms[i].loc.z] == ACenter) &&
      (forall l :: InGrid(l, bins) && (forall i :: 0 <= i < k ==> ms[i].loc != l) ==>
        r.content.cells[l.x][l.y][l.z] == s.content.cells[l.x][l.y][l.z]) &&
      s.content.volume <= r.content.volume <= s.content.volume + k
  {
    if k > 0 {
      var j := k - 1;
      AtomsPlaced(s, ms, j, ex, bins);
      AddedStep(s, ms, j, false, false, ex, bins);
      assert ms[j] in ms;
    }
  }

  /** Waters added without expansion leave the volume as it was, and every
      cell no water lands on keeps its state. */
  lemma {:induction false} WatersPlaced(s: Stage, ms: seq<Member>, k: nat, ex: Expander, bins: Loc)
    requires k <= |ms| && AllIn(ms, bins) && Fits(s.content.cells, bins)
    ensures var r := AddedTo(s, ms, k, true, false, ex, bins);
      Fits(r.content.cells, bins) && r.content.volume == s.content.volume &&
      (forall l :: InGrid(l, bins) && (forall i :: 0 <= i < k ==> ms[i].loc != l) ==>
        r.content.cells[l.x][l.y][l.z] == s.content.cells[l.x][l.y][l.z])
  {
    if k > 0 {
      var j := k - 1;
      WatersPlaced(s, ms, j, ex, bins);
      AddedStep(s, ms, j, true, false, ex, bins);
      assert ms[j] in ms;
    }
  }

  /** A water lands as a water centre exactly on an empty or volume cell;
      on any other cell, a water area or an atom's cell included, the cell
      is emptied instead. */
  lemma WaterCentreCases(c: Content, l: Loc)
    requires InCells(c.cells, l.x, l.y, l.z)
    ensures var h := WaterPlaced(c, l).cells;
      InCells(h, l.x, l.y, l.z) &&
      (h[l.x][l.y][l.z] == WCenter <==> EmptyOrVolume(c.cells[l.x][l.y][l.z])) &&
      (h[l.x][l.y][l.z] == Empty <==> !EmptyOrVolume(c.cells[l.x][l.y][l.z]))
  {
  }

  /** Removing an atom undoes adding it: an atom placed on an empty cell
      and cleared again, with a deflation that finds nothing to take back,
      leaves the cells and the volume as they were. */
  lemma PlaceThenClear(c: Content, m: Member, ex: Expander, bins: Loc)
    requires KeepsShape(ex, bins) && Fits(c.cells, bins) && InGrid(m.loc, bins)
    requires c.cells[m.loc.x][m.loc.y][m.loc.z] == Empty
    requires ex.deflateAtom(AtomPlaced(c, m.loc), m).0 == AtomPlaced(c, m.loc)
    ensures AtomCleared(AtomPlaced(c, m.loc), m, ex, bins) == c
  {
    PutBack(c.cells, m.loc, ACenter);
  }

  /** A body added at the end of the atom list and removed again leaves
      the offsets of the other bodies as they were, provided its uid was
      new and no other body starts past the end of the list. */
  lemma ShiftUndoesAdd(starts: map<int, int>, uid: int, n: int, k: nat)
    requires uid !in starts && forall u :: u in starts ==> starts[u] <= n
    ensures Shifted(starts[uid := n], uid, n, n + k) == starts
  {
    var r := Shifted(starts[uid := n], uid, n, n + k);
    assert r.Keys == starts.Keys;
  }

  /** The atom list after a body's atoms `[n, n + k)` were appended and
      erased again is the list before. */
  lemma EraseUndoesAdd(s: Stage, ms: seq<Member>, k: nat, expand: bool, ex: Expander, bins: Loc)
    requires k <= |ms| && AllIn(ms, bins) && Fits(s.content.cells, bins) && KeepsShape(ex, bins)
    ensures var a := AddedTo(s, ms, k, false, expand, ex, bins).members; var n := |s.members|;
      n + k <= |a| && a[..n] + a[n + k..] == s.members
  {
    AddedMembers(s, ms, k, false, expand, ex, bins);
  }

  /** A pass hands the expander members it may only reflag: the list keeps
      its length and each member keeps its uid, bin and radius. */
  lemma {:induction false} VisitedMembers(s: Stage, k: nat, f: (Content, Member) -> (Content, bool), reset: bool)
    requires k <= |s.members|
    ensures var r := VisitedTo(s, k, f, reset).members;
      |r| == |s.members| &&
      (forall i :: 0 <= i < |r| ==> r[i] == s.members[i].(expanded := r[i].expanded)) &&
      (forall i :: k <= i < |r| ==> r[i] == s.members[i])
  {
    if k > 0 {
      var j := k - 1;
      VisitedMembers(s, j, f, reset);
      RunStep(s, VisitSteps(f, reset), k, j);
      RunPrefix(s, VisitSteps(f, reset), k, j);
    }
  }

  /** Removing waters with no mask entry set empties no cell and keeps
      every water. */
  lemma {:induction false} RemoveNone(c: Content, ms: seq<Member>, mask: seq<bool>, k: nat, ex: Expander, bins: Loc)
    requires k <= |ms| <= |mask| && forall i :: 0 <= i < |mask| ==> !mask[i]
    ensures WatersClearedTo(c, ms, mask, k, ex, bins) == c
    ensures UnmaskedTo(ms, mask, k) == ms[..k]
  {
    if k > 0 {
      var j := k - 1;
      RemoveNone(c, ms, mask, j, ex, bins);
      RunStep(c, WaterSteps(ms, mask, ex, bins), k, j);
      RunPrefix(c, WaterSteps(ms, mask, ex, bins), k, j);
      assert ms[..k] == ms[..j] + [ms[j]];
    }
  }

  /** `clear_waters` keeps no water: a removal with every mask entry set. */
  lemma {:induction false} RemoveAll(ms: seq<Member>, k: nat)
    requires k <= |ms|
    ensures UnmaskedTo(ms, AllSet(|ms|), k) == []
  {
    if k > 0 {
      RemoveAll(ms, k - 1);
    }
  }

  lemma NonEmptyHas(s: set<int>)
    requires s != {}
    ensures exists u :: u in s
  {
    if forall u :: u !in s {
      assert false;
    }
  }

  /** The unmasked members lie among the members. */
  lemma {:induction false} UnmaskedIn(ms: seq<Member>, mask: seq<bool>, n: int)
    requires 0 <= n <= |ms| && |ms| <= |mask|
    ensures forall m :: m in UnmaskedTo(ms, mask, n) ==> m in ms
  {
    if n > 0 {
      UnmaskedIn(ms, mask, n - 1);
    }
  }

  // ---- a body's atoms added and removed again ----

  /** The expander's atom deflation leaves the contents alone for a member
      not flagged expanded, as the expanders' early return does. */
  ghost predicate IdleOnFresh(ex: Expander) {
    forall c: Content, m: Member :: !m.expanded ==> ex.deflateAtom(c, m).0 == c
  }

  /** The atom centres of the whole grid. */
  function Centres(g: Cells, bins: Loc): nat { Count(g, {ACenter}, Whole(bins.x, bins.y, bins.z)) }

  /** Cell (i, j, k) of `g` holds what it held in `g0`, or it was empty
      there and is now the centre of one of the atoms `ms[ca..]`. */
  ghost predicate CentreOwed(g: Cells, g0: Cells, ms: seq<Member>, ca: int, i: int, j: int, k: int)
    requires InCells(g0, i, j, k)
  {
    InCells(g, i, j, k) &&
    (g[i][j][k] == g0[i][j][k] || (g0[i][j][k] == Empty && g[i][j][k] == ACenter && exists p :: 0 <= ca <= p < |ms| && ms[p].loc == Loc(i, j, k)))
  }

  ghost predicate CentresOwed(g: Cells, g0: Cells, ms: seq<Member>, ca: int) {
    forall i, j, k :: InCells(g0, i, j, k) ==> CentreOwed(g, g0, ms, ca, i, j, k)
  }

  /** Placing atom `ms[n - 1]` keeps every cell owed and the volume less
      the centres as it was. */
  lemma PlaceStep(s: Stage, g0: Cells, ms: seq<Member>, n: nat, ex: Expander, bins: Loc)
    requires 0 < n <= |ms| && InGrid(ms[n - 1].loc, bins) && At(g0, ms[n - 1].loc.x, ms[n - 1].loc.y, ms[n - 1].loc.z) == Empty
    requires Fits(g0, bins) && Fits(AddedTo(s, ms, n - 1, false, false, ex, bins).content.cells, bins)
    requires CentresOwed(AddedTo(s, ms, n - 1, false, false, ex, bins).content.cells, g0, ms, 0)
    ensures Fits(AddedTo(s, ms, n, false, false, ex, bins).content.cells, bins)
    ensures CentresOwed(AddedTo(s, ms, n, false, false, ex, bins).content.cells, g0, ms, 0)
    ensures AddedTo(s, ms, n, false, false, ex, bins).content.volume - Centres(AddedTo(s, ms, n, false, false, ex, bins).content.cells, bins) ==
      AddedTo(s, ms, n - 1, false, false, ex, bins).content.volume - Centres(AddedTo(s, ms, n - 1, false, false, ex, bins).content.cells, bins)
  {
    var st := AddedTo(s, ms, n - 1, false, false, ex, bins);
    var e := st.content;
    var l := ms[n - 1].loc;
    AddedStep(s, ms, n - 1, false, false, ex, bins);
    assert InCells(e.cells, l.x, l.y, l.z);
    assert AddedTo(s, ms, n, false, false, ex, bins) == Added(st, ms[n - 1], false, false, ex);
    assert AddedTo(s, ms, n, false, false, ex, bins).content == AtomPlaced(e, l);
    assert CentreOwed(e.cells, g0, ms, 0, l.x, l.y, l.z);
    PlaceOwes(e.cells, g0, ms, n - 1, bins);
    CountPut(e.cells, l, ACenter, {ACenter}, bins.x, bins.y, bins.z);
  }

  /** Writing the centre of atom `ms[q]` into its empty bin leaves every
      cell owed. */
  lemma PlaceOwes(g: Cells, g0: Cells, ms: seq<Member>, q: nat, bins: Loc)
    requires q < |ms| && InGrid(ms[q].loc, bins) && At(g0, ms[q].loc.x, ms[q].loc.y, ms[q].loc.z) == Empty
    requires Fits(g0, bins) && Fits(g, bins) && CentresOwed(g, g0, ms, 0)
    ensures CentresOwed(Put(g, ms[q].loc, ACenter), g0, ms, 0)
  {
    var l := ms[q].loc;
    var h := Put(g, l, ACenter);
    forall i, j, k | InCells(g0, i, j, k)
      ensures CentreOwed(h, g0, ms, 0, i, j, k)
    {
      assert CentreOwed(g, g0, ms, 0, i, j, k);
      if Loc(i, j, k) == l {
        assert g0[i][j][k] == Empty && h[i][j][k] == ACenter;
        assert 0 <= q < |ms| && ms[q].loc == Loc(i, j, k);
      }
    }
  }

  /** Clearing atom `ms[n - 1]` pays off its centre and keeps the volume
      less the centres as it was. */
  lemma ClearStep(c: Content, g0: Cells, ms: seq<Member>, n: nat, ex: Expander, bins: Loc)
    requires 0 < n <= |ms| && InGrid(ms[n - 1].loc, bins) && At(g0, ms[n - 1].loc.x, ms[n - 1].loc.y, ms[n - 1].loc.z) == Empty
    requires !ms[n - 1].expanded && KeepsShape(ex, bins) && IdleOnFresh(ex)
    requires Fits(g0, bins) && Fits(BodyClearedTo(c, ms, n - 1, ex, bins).cells, bins)
    requires CentresOwed(BodyClearedTo(c, ms, n - 1, ex, bins).cells, g0, ms, n - 1)
    ensures Fits(BodyClearedTo(c, ms, n, ex, bins).cells, bins)
    ensures CentresOwed(BodyClearedTo(c, ms, n, ex, bins).cells, g0, ms, n)
    ensures BodyClearedTo(c, ms, n, ex, bins).volume - Centres(BodyClearedTo(c, ms, n, ex, bins).cells, bins) ==
      BodyClearedTo(c, ms, n - 1, ex, bins).volume - Centres(BodyClearedTo(c, ms, n - 1, ex, bins).cells, bins)
  {
    var e := BodyClearedTo(c, ms, n - 1, ex, bins);
    var l := ms[n - 1].loc;
    RunStep(c, BodySteps(ms, ex, bins), n, n - 1);
    RunPrefix(c, BodySteps(ms, ex, bins), n, n - 1);
    assert ex.deflateAtom(e, ms[n - 1]).0 == e;
    var h := Put(e.cells, l, Empty);
    assert CentreOwed(e.cells, g0, ms, n - 1, l.x, l.y, l.z);
    forall i, j, k | InCells(g0, i, j, k)
      ensures CentreOwed(h, g0, ms, n, i, j, k)
    {
      assert CentreOwed(e.cells, g0, ms, n - 1, i, j, k);
      if Loc(i, j, k) != l && e.cells[i][j][k] != g0[i][j][k] {
        var p :| 0 <= n - 1 <= p < |ms| && ms[p].loc == Loc(i, j, k);
        assert p != n - 1;
      }
    }
    CountPut(e.cells, l, Empty, {ACenter}, bins.x, bins.y, bins.z);
  }

  lemma {:induction false} PlacePhase(s: Stage, ms: seq<Member>, n: nat, ex: Expander, bins: Loc)
    requires n <= |ms| && AllIn(ms, bins) && Fits(s.content.cells, bins)
    requires forall m :: m in ms ==> At(s.content.cells, m.loc.x, m.loc.y, m.loc.z) == Empty
    ensures Fits(AddedTo(s, ms, n, false, false, ex, bins).content.cells, bins)
    ensures CentresOwed(AddedTo(s, ms, n, false, false, ex, bins).content.cells, s.content.cells, ms, 0)
    ensures AddedTo(s, ms, n, false, false, ex, bins).content.volume - Centres(AddedTo(s, ms, n, false, false, ex, bins).content.cells, bins) ==
      s.content.volume - Centres(s.content.cells, bins)
  {
    var g0 := s.content.cells;
    if n == 0 {
      forall i, j, k | InCells(g0, i, j, k)
        ensures CentreOwed(g0, g0, ms, 0, i, j, k)
      {
      }
    } else {
      PlacePhase(s, ms, n - 1, ex, bins);
      assert ms[n - 1] in ms;
      PlaceStep(s, g0, ms, n, ex, bins);
    }
  }

  lemma {:induction false} ClearPhase(c: Content, g0: Cells, ms: seq<Member>, n: nat, ex: Expander, bins: Loc)
    requires n <= |ms| && AllIn(ms, bins) && KeepsShape(ex, bins) && IdleOnFresh(ex)
    requires forall m :: m in ms ==> !m.expanded && At(g0, m.loc.x, m.loc.y, m.loc.z) == Empty
    requires Fits(g0, bins) && Fits(c.cells, bins) && CentresOwed(c.cells, g0, ms, 0)
    ensures Fits(BodyClearedTo(c, ms, n, ex, bins).cells, bins)
    ensures CentresOwed(BodyClearedTo(c, ms, n, ex, bins).cells, g0, ms, n)
    ensures BodyClearedTo(c, ms, n, ex, bins).volume - Centres(BodyClearedTo(c, ms, n, ex, bins).cells, bins) == c.volume - Centres(c.cells, bins)
  {
    if n > 0 {
      ClearPhase(c, g0, ms, n - 1, ex, bins);
      assert ms[n - 1] in ms;
      ClearStep(c, g0, ms, n, ex, bins);
    }
  }

  /** Adding a body's atoms without expansion to empty cells and removing
      the body again restores the cells and the volume, however its atoms
      share bins, for an expander that leaves unexpanded members alone. */
  lemma BodyRoundTrip(s: Stage, ms: seq<Member>, ex: Expander, bins: Loc)
    requires Fits(s.content.cells, bins) && AllIn(ms, bins) && KeepsShape(ex, bins) && IdleOnFresh(ex)
    requires forall m :: m in ms ==> !m.expanded && At(s.content.cells, m.loc.x, m.loc.y, m.loc.z) == Empty
    ensures BodyClearedTo(AddedTo(s, ms, |ms|, false, false, ex, bins).content, ms, |ms|, ex, bins) == s.content
  {
    var g0 := s.content.cells;
    PlacePhase(s, ms, |ms|, ex, bins);
    var a := AddedTo(s, ms, |ms|, false, false, ex, bins).content;
    ClearPhase(a, g0, ms, |ms|, ex, bins);
    var r := BodyClearedTo(a, ms, |ms|, ex, bins);
    forall i, j, k | InCells(r.cells, i, j, k)
      ensures r.cells[i][j][k] == g0[i][j][k]
    {
      assert CentreOwed(r.cells, g0, ms, |ms|, i, j, k);
    }
    CellsEq(r.cells, g0, bins.x, bins.y, bins.z);
  }
}
