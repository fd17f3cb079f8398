/** The two atom record classes: `io::pdb::PDBAtom` and the older
    `data::record::Atom`. Both read the same PDB ATOM/HETATM columns, keep
    an identifier drawn from a class-wide counter, an effective charge and
    an atomic group, and compare atoms in three different ways: by serial
    (`operator<`), by identity (`operator==`) and by content
    (`equals_content`). */
module AtomRecords {
  import opened Wrappers
  import opened Text
  import opened Constants
  import opened PdbFormat

  /** The member defaults of a freshly constructed atom: zero coordinates,
      a blank chain, an unknown element, -1 for the numbers and empty texts. */
  const BLANK: Content := Content(-1, "", "", "", ' ', -1, "", Coords(0.0, 0.0, 0.0), -1.0, -1.0, Unknown, "")

  /** Everything an atom object holds apart from the legacy record name.
      The effective charge is a `double` in the source; every value it ever
      takes is a whole number, so it is an integer here. */
  datatype AtomState = AtomState(uid: int, content: Content, effectiveCharge: int, group: AtomicGroup)

  /** Why an atom operation fails. */
  datatype AtomError =
    | Parse(e: PdbError)                   // `parse_pdb` rejected the line
    | NoCharge(element: AtomT)             // the charge table throws for this element
    | UnknownSymbol(symbol: string)        // `parse_element_string` found no element
    | InvalidArgument(serial: int, element: AtomT, resName: string, name: string)
                                           // `add_implicit_hydrogens` could not classify the atom

  // ---------------------------------------------------------------------
  // Comparisons, shared by both classes

  /** `is_water`: the residue is named HOH or SOL. */
  predicate IsWater(a: Content) { a.resName == "HOH" || a.resName == "SOL" }

  /** `operator<`: ordering by serial number alone. */
  predicate Less(a: AtomState, b: AtomState) { a.content.serial < b.content.serial }

  /** `operator==`: identity, by the unique identifier alone. */
  predicate Same(a: AtomState, b: AtomState) { a.uid == b.uid }

  /** `equals_content`: the field checks in the source's order, ending with
      the effective charge; the identifier and the atomic group are not
      compared. */
  predicate EqualsContent(a: AtomState, b: AtomState) {
    var p, q := a.content, b.content;
    && p.coords == q.coords && p.name == q.name && p.altLoc == q.altLoc
    && p.resName == q.resName && p.chainID == q.chainID && p.iCode == q.iCode
    && p.element == q.element && p.charge == q.charge && p.occupancy == q.occupancy
    && p.tempFactor == q.tempFactor && p.serial == q.serial && p.resSeq == q.resSeq
    && a.effectiveCharge == b.effectiveCharge
  }

  /** The thirteen checks of `equals_content` are exactly equality of all
      record fields and of the effective charge. */
  lemma EqualsContentMeans(a: AtomState, b: AtomState)
    ensures EqualsContent(a, b) <==> a.content == b.content && a.effectiveCharge == b.effectiveCharge
  {
  }

  /** Content equality ignores the identifier while `operator==` looks at
      nothing else: a copy with a fresh identifier has the same content but
      is a different atom, and two atoms with one identifier are the same
      atom whatever their content. */
  lemma IdentityAndContent(a: AtomState, uid: int, c: Content)
    ensures EqualsContent(a, a.(uid := uid))
    ensures Same(a, a.(uid := uid)) <==> uid == a.uid
    ensures Same(a, a.(content := c))
    ensures EqualsContent(a, a.(content := c)) <==> c == a.content
  {
    EqualsContentMeans(a, a.(content := c));
  }

  /** `equals_content` is an equivalence. */
  lemma EqualsContentEquivalence(a: AtomState, b: AtomState, c: AtomState)
    ensures EqualsContent(a, a)
    ensures EqualsContent(a, b) ==> EqualsContent(b, a)
    ensures EqualsContent(a, b) && EqualsContent(b, c) ==> EqualsContent(a, c)
  {
  }

  /** `operator<` is a strict weak order: irreflexive, transitive, and two
      atoms neither of which precedes the other share their serial. */
  lemma LessOrder(a: AtomState, b: AtomState, c: AtomState)
    ensures !Less(a, a)
    ensures Less(a, b) && Less(b, c) ==> Less(a, c)
    ensures !Less(a, b) && !Less(b, a) <==> a.content.serial == b.content.serial
  {
  }

  /** Content-equal atoms are never ordered before one another. */
  lemma EqualContentUnordered(a: AtomState, b: AtomState)
    requires EqualsContent(a, b)
    ensures !Less(a, b) && !Less(b, a)
  {
  }

  // ---------------------------------------------------------------------
  // Line preparation

  /** The legacy reader's line: line breaks removed, then cut to 80 when
      longer than 81 and padded to 81 when shorter; a line of exactly 81
      characters is kept. */
  function LegacyFitted(line: string): (s: string)
    ensures |s| == 80 || |s| == 81
  {
    var t := RemoveAll(line, {'\n', '\r'});
    if |t| > 81 then t[..80] else PadRight(t, 81)
  }

  /** The scan sees only the first 80 characters. */
  lemma ScanPrefix(s: string)
    requires |s| >= 80
    ensures Scan(s) == Scan(s[..80])
  {
    var c := Scan(s);
    FlattenScan(s);
    ScanFlatten(c, []);
    assert Flatten(c) + [] == s[..80];
  }

  /** Although one reader pads to 81 and the other to 80, both hand the
      scan the same columns for every line. */
  lemma LegacySameColumns(line: string)
    ensures Scan(LegacyFitted(line)) == Scan(Fitted(line))
  {
    var t := RemoveAll(line, {'\n', '\r'});
    var a, b := LegacyFitted(line), Fitted(line);
    assert a[..80] == b by {
      forall i | 0 <= i < 80 ensures a[..80][i] == b[i] {
        if i < |t| {
        } else {
          assert |t| < 81;
        }
      }
    }
    ScanPrefix(a);
    ScanPrefix(b);
    assert b[..80] == b;
  }

  /** The legacy decoding: the fields as the current reader decodes them,
      and the record name `rec` held before, replaced by the scanned one
      once the record-name check and the x rule have passed (it is the
      first field assigned). */
  function LegacyStaged(o: Content, rec: string, c: Columns): (r: (Content, string, Option<PdbError>))
    ensures (r.0, r.2) == Staged(o, c)
  {
    var (p, e) := Staged(o, c);
    (p, if !IsAtomRecord(c.recName) || XText(c.x).None? then rec else c.recName, e)
  }

  /** The legacy reader keeps the scanned record name whenever the fields
      were touched at all, in particular on every success. */
  lemma LegacyRecordName(o: Content, rec: string, line: string)
    ensures var c := Scan(LegacyFitted(line));
      var r := LegacyStaged(o, rec, c);
      && (r.2 == None ==> r.1 == c.recName && IsAtomRecord(r.1))
      && (!IsAtomRecord(c.recName) ==> r.1 == rec && r.2 == Some(NotAtomRecord(c.recName)))
  {
    var c := Scan(LegacyFitted(line));
    StagedFailureOrFields(o, c);
  }

  lemma StagedFailureOrFields(o: Content, c: Columns)
    ensures Staged(o, c).1 == None ==> IsAtomRecord(c.recName) && XText(c.x).Some?
    ensures !IsAtomRecord(c.recName) ==> Staged(o, c) == (o, Some(NotAtomRecord(c.recName)))
  {
  }

  /** The current reader's decoding of one line. */
  method Read(o: Content, line: string) returns (r: (Content, Option<PdbError>))
    ensures r == Staged(o, Scan(Fitted(line)))
  {
    r := Staged(o, Scan(Fitted(line)));
  }

  /** The legacy reader's decoding of one line. */
  method LegacyRead(o: Content, rec: string, line: string) returns (r: (Content, string, Option<PdbError>))
    ensures r == LegacyStaged(o, rec, Scan(LegacyFitted(line)))
  {
    r := LegacyStaged(o, rec, Scan(LegacyFitted(line)));
  }

  /** What `parse_pdb` leaves behind, given the decoding `r` of the line and
      the charge `z` the table gives the decoded element: the decoded fields
      are stored and the identifier kept. A failed decoding is the error and
      leaves the effective charge and group alone; a failed charge lookup
      does the same; otherwise the effective charge is the looked-up charge
      and the atomic group is reset to unknown. */
  predicate Parsed(r: (Content, Option<PdbError>), z: Option<int>, before: AtomState, after: AtomState,
                   err: Option<AtomError>) {
    && after.content == r.0 && after.uid == before.uid
    && (r.1.Some? ==>
          err == Some(Parse(r.1.value)) && after.effectiveCharge == before.effectiveCharge && after.group == before.group)
    && (r.1.None? && z.None? ==>
          err == Some(NoCharge(r.0.element)) && after.effectiveCharge == before.effectiveCharge && after.group == before.group)
    && (r.1.None? && z.Some? ==> err == None && after.effectiveCharge == z.value && after.group == UnknownGroup)
  }

  // ---------------------------------------------------------------------
  // The identifier counter

  /** The class-wide `uid_counter`: every constructor takes the next value. */
  class UidCounter {
    var next: int

    constructor ()
      ensures next == 0
    {
      next := 0;
    }

    method Take() returns (uid: int)
      modifies this
      ensures uid == old(next) && next == old(next) + 1
    {
      uid := next;
      next := next + 1;
    }
  }

  // ---------------------------------------------------------------------
  // PDBAtom

  /** `io::pdb::PDBAtom`. Its effective charge comes from the nuclear
      charge table. */
  class PdbAtom {
    var uid: int
    var content: Content
    var effectiveCharge: int
    var group: AtomicGroup

    function State(): AtomState
      reads this
    {
      AtomState(uid, content, effectiveCharge, group)
    }

    constructor Init(uid: int, content: Content, effectiveCharge: int)
      ensures State() == AtomState(uid, content, effectiveCharge, UnknownGroup)
    {
      this.uid := uid;
      this.content := content;
      this.effectiveCharge := effectiveCharge;
      this.group := UnknownGroup;
    }

    /** `PDBAtom()`: the member defaults and the next identifier. */
    static method Blank(counter: UidCounter) returns (a: PdbAtom)
      modifies counter
      ensures fresh(a)
      ensures a.State() == AtomState(old(counter.next), BLANK, -1, UnknownGroup)
      ensures counter.next == old(counter.next) + 1
    {
      var uid := counter.Take();
      a := new PdbAtom.Init(uid, BLANK, -1);
    }

    /** The twelve-field constructor: the fields as given and the nuclear
      charge of the element as effective charge. The identifier is taken
      before the body runs, so it is used up even when the charge lookup
      throws. */
    static method Make(counter: UidCounter, c: Content) returns (r: Result<PdbAtom, AtomError>)
      modifies counter
      ensures counter.next == old(counter.next) + 1
      ensures r.Err? <==> NuclearCharge(c.element).None?
      ensures r.Err? ==> r.error == NoCharge(c.element)
      ensures r.Ok? ==> (fresh(r.value)
        && r.value.State() == AtomState(old(counter.next), c, NuclearCharge(c.element).value, UnknownGroup))
    {
      var uid := counter.Take();
      var z := NuclearCharge(c.element);
      if z.None? {
        return Err(NoCharge(c.element));
      }
      var a := new PdbAtom.Init(uid, c, z.value);
      r := Ok(a);
    }

    /** The five-field constructor: coordinates, occupancy, element,
      residue name and serial over the defaults; the atomic group keeps its
      default, unknown. */
    static method Place(counter: UidCounter, v: Coords, occupancy: real, element: AtomT, resName: string, serial: int)
      returns (r: Result<PdbAtom, AtomError>)
      modifies counter
      ensures counter.next == old(counter.next) + 1
      ensures r.Err? <==> NuclearCharge(element).None?
      ensures r.Ok? ==> (fresh(r.value)
        && r.value.State() == AtomState(old(counter.next),
             BLANK.(coords := v, occupancy := occupancy, element := element, resName := resName, serial := serial),
             NuclearCharge(element).value, UnknownGroup))
    {
      r := Make(counter, BLANK.(coords := v, occupancy := occupancy, element := element, resName := resName, serial := serial));
    }

    /** `get_recName`: this class always writes "ATOM  ". */
    function RecName(): (r: string)
      ensures |r| == 6 && IsAtomRecord(r)
    {
      "ATOM  "
    }

    /** `parse_pdb`: the fields decoded from the fitted line, then the
      nuclear charge of the new element and an unknown atomic group. A
      failed decoding leaves the fields it already assigned; the identifier
      never changes. */
    method ParsePdb(line: string) returns (err: Option<AtomError>)
      modifies this
      ensures var r := Staged(old(content), Scan(Fitted(line)));
        Parsed(r, NuclearTable(r.0.element), old(State()), State(), err)
    {
      var r := Read(content, line);
      err := Store(r);
    }

    /** The assignments of `parse_pdb` after the decoding. */
    method Store(r: (Content, Option<PdbError>)) returns (err: Option<AtomError>)
      modifies this
      ensures Parsed(r, NuclearTable(r.0.element), old(State()), State(), err)
    {
      content := r.0;
      if r.1.Some? {
        return Some(Parse(r.1.value));
      }
      var z := NuclearTable(content.element);
      if z.None? {
        return Some(NoCharge(content.element));
      }
      effectiveCharge := z.value;
      group := UnknownGroup;
      err := None;
    }

    /** `set_element(atom_t)`: the source asserts the element is known. */
    method SetElement(e: AtomT)
      requires e != Unknown
      modifies this
      ensures content == old(content).(element := e)
      ensures uid == old(uid) && effectiveCharge == old(effectiveCharge) && group == old(group)
    {
      content := content.(element := e);
    }

    /** `set_element(string)`: the symbol is looked up first; an unknown
      symbol throws and changes nothing. */
    method SetElementText(s: string) returns (err: Option<AtomError>)
      modifies this
      ensures ParseElementString(s).None? ==> err == Some(UnknownSymbol(s)) && content == old(content)
      ensures ParseElementString(s).Some? ==> err == None && content == old(content).(element := ParseElementString(s).value)
      ensures uid == old(uid) && effectiveCharge == old(effectiveCharge) && group == old(group)
    {
      var e := ParseElementString(s);
      if e.None? {
        return Some(UnknownSymbol(s));
      }
      SetElement(e.value);
      err := None;
    }

    /** `add_implicit_hydrogens`: see `ImplicitHydrogens`. The hydrogen
      count and the atomic group come from the residue tables, which are
      not part of this model and enter as the lookups `hydrogens` and
      `groups`. */
    method AddImplicitHydrogens(hydrogens: (string, string, AtomT) -> Option<nat>,
                                groups: (string, string, AtomT) -> Option<AtomicGroup>)
      returns (err: Option<AtomError>)
      requires content.element != H
      modifies this
      ensures var (q, g, e) := ImplicitHydrogens(old(State()), NuclearTable, hydrogens, groups);
        && err == e && effectiveCharge == q && group == g
      ensures uid == old(uid) && content == old(content)
    {
      var a := content;
      var z := NuclearTable(a.element);
      if z.None? {
        return Some(NoCharge(a.element));
      }
      var h := hydrogens(a.resName, a.name, a.element);
      if h.None? {
        return Some(InvalidArgument(a.serial, a.element, a.resName, a.name));
      }
      effectiveCharge := z.value + h.value;
      var g := groups(a.resName, a.name, a.element);
      if g.None? {
        return Some(InvalidArgument(a.serial, a.element, a.resName, a.name));
      }
      group := g.value;
      err := None;
    }
  }

  /** The nuclear charge table as a charge table. */
  function NuclearTable(a: AtomT): (r: Option<int>)
    ensures r.Some? <==> NuclearCharge(a).Some?
    ensures r.Some? ==> r.value == NuclearCharge(a).value
  {
    match NuclearCharge(a)
    case None => None
    case Some(z) => Some(z)
  }

  /** The outcome of `add_implicit_hydrogens` on an atom whose charge table
    is `charge`: the new effective charge, the new group and the error.
    The charge table throws a `std::runtime_error`, which the source's
    handler (it catches only the library's own exceptions) lets through
    unchanged. A failing hydrogen lookup becomes `invalid_argument` and
    changes nothing; a failing group lookup also becomes
    `invalid_argument`, but after the new effective charge was stored. */
  function ImplicitHydrogens(a: AtomState, charge: AtomT -> Option<int>,
                             hydrogens: (string, string, AtomT) -> Option<nat>,
                             groups: (string, string, AtomT) -> Option<AtomicGroup>)
    : (r: (int, AtomicGroup, Option<AtomError>))
    ensures r.2 == None <==>
      charge(a.content.element).Some? && hydrogens(a.content.resName, a.content.name, a.content.element).Some?
      && groups(a.content.resName, a.content.name, a.content.element).Some?
    ensures r.2 == None ==>
      r.0 == charge(a.content.element).value + hydrogens(a.content.resName, a.content.name, a.content.element).value
      && r.1 == groups(a.content.resName, a.content.name, a.content.element).value
    ensures r.2.Some? && r.2.value.InvalidArgument? ==>
      r.2.value == InvalidArgument(a.content.serial, a.content.element, a.content.resName, a.content.name)
    ensures r.2.Some? ==> r.1 == a.group
  {
    var c := a.content;
    match charge(c.element)
    case None => (a.effectiveCharge, a.group, Some(NoCharge(c.element)))
    case Some(z) =>
      match hydrogens(c.resName, c.name, c.element)
      case None => (a.effectiveCharge, a.group, Some(InvalidArgument(c.serial, c.element, c.resName, c.name)))
      case Some(h) =>
        match groups(c.resName, c.name, c.element)
        case None => (z + h, a.group, Some(InvalidArgument(c.serial, c.element, c.resName, c.name)))
        case Some(g) => (z + h, g, None)
  }

  /** The effective charge counts the implicit hydrogens: after a
    successful call it exceeds the bare charge by exactly the looked-up
    hydrogen count, and the group is the one the table names. */
  lemma HydrogensAddToCharge(a: AtomState, charge: AtomT -> Option<int>,
                             hydrogens: (string, string, AtomT) -> Option<nat>,
                             groups: (string, string, AtomT) -> Option<AtomicGroup>)
    requires ImplicitHydrogens(a, charge, hydrogens, groups).2 == None
    ensures var c := a.content;
      ImplicitHydrogens(a, charge, hydrogens, groups).0 - charge(c.element).value
        == hydrogens(c.resName, c.name, c.element).value >= 0
  {
  }

  // ---------------------------------------------------------------------
  // The legacy data::record::Atom

  /** `data::record::Atom`, the older record class. It stores the record
    name it read, and its effective charge comes from the older charge
    table `constants::charge::get_charge`; that table is not part of this
    model and is the parameter `charge` of the operations that use it. */
  class LegacyAtom {
    var uid: int
    var content: Content
    var effectiveCharge: int
    var group: AtomicGroup
    var recName: string

    function State(): AtomState
      reads this
    {
      AtomState(uid, content, effectiveCharge, group)
    }

    constructor Init(uid: int, content: Content, effectiveCharge: int)
      ensures State() == AtomState(uid, content, effectiveCharge, UnknownGroup) && recName == ""
    {
      this.uid := uid;
      this.content := content;
      this.effectiveCharge := effectiveCharge;
      this.group := UnknownGroup;
      this.recName := "";
    }

    /** `Atom()`: the member defaults and the next identifier. */
    static method Blank(counter: UidCounter) returns (a: LegacyAtom)
      modifies counter
      ensures fresh(a)
      ensures a.State() == AtomState(old(counter.next), BLANK, -1, UnknownGroup) && a.recName == ""
      ensures counter.next == old(counter.next) + 1
    {
      var uid := counter.Take();
      a := new LegacyAtom.Init(uid, BLANK, -1);
    }

    /** The twelve-field constructor. It takes one identifier in its
      initialiser list and assigns the next one again at the end of its
      body, so a successful construction uses up two counter values and
      keeps the second. */
    static method Make(counter: UidCounter, c: Content, charge: AtomT -> Option<int>)
      returns (r: Result<LegacyAtom, AtomError>)
      requires c.element != Unknown
      modifies counter
      ensures charge(c.element).None? ==> r == Err(NoCharge(c.element)) && counter.next == old(counter.next) + 1
      ensures charge(c.element).Some? ==> (r.Ok? && fresh(r.value) && counter.next == old(counter.next) + 2
        && r.value.State() == AtomState(old(counter.next) + 1, c, charge(c.element).value, UnknownGroup)
        && r.value.recName == "")
    {
      var first := counter.Take();
      var z := charge(c.element);
      if z.None? {
        return Err(NoCharge(c.element));
      }
      var a := new LegacyAtom.Init(first, c, z.value);
      var second := counter.Take();
      a.uid := second;
      r := Ok(a);
    }

    /** The five-field constructor; it goes through `set_element`, so the
      element must be known. */
    static method Place(counter: UidCounter, v: Coords, occupancy: real, element: AtomT, resName: string, serial: int,
                        charge: AtomT -> Option<int>)
      returns (r: Result<LegacyAtom, AtomError>)
      requires element != Unknown
      modifies counter
      ensures counter.next == old(counter.next) + 1
      ensures r.Err? <==> charge(element).None?
      ensures r.Ok? ==> (fresh(r.value)
        && r.value.State() == AtomState(old(counter.next),
             BLANK.(coords := v, occupancy := occupancy, element := element, resName := resName, serial := serial),
             charge(element).value, UnknownGroup))
    {
      var uid := counter.Take();
      var c := BLANK.(coords := v, occupancy := occupancy, element := element, resName := resName, serial := serial);
      var z := charge(element);
      if z.None? {
        return Err(NoCharge(element));
      }
      var a := new LegacyAtom.Init(uid, c, z.value);
      r := Ok(a);
    }

    /** `get_recName`: the stored record name. */
    function RecName(): string
      reads this
    {
      recName
    }

    /** `parse_pdb`: the columns of the legacy-fitted line decoded as
      `LegacyStaged` says, then the charge of the new element from the
      older table and an unknown atomic group. */
    method ParsePdb(line: string, charge: AtomT -> Option<int>) returns (err: Option<AtomError>)
      modifies this
      ensures var r := LegacyStaged(old(content), old(recName), Scan(LegacyFitted(line)));
        && recName == r.1
        && Parsed((r.0, r.2), charge(r.0.element), old(State()), State(), err)
    {
      var r := LegacyRead(content, recName, line);
      recName := r.1;
      err := Store((r.0, r.2), charge);
    }

    /** The assignments of `parse_pdb` after the decoding. */
    method Store(r: (Content, Option<PdbError>), charge: AtomT -> Option<int>) returns (err: Option<AtomError>)
      modifies this
      ensures Parsed(r, charge(r.0.element), old(State()), State(), err)
      ensures recName == old(recName)
    {
      content := r.0;
      if r.1.Some? {
        return Some(Parse(r.1.value));
      }
      var z := charge(content.element);
      if z.None? {
        return Some(NoCharge(content.element));
      }
      effectiveCharge := z.value;
      group := UnknownGroup;
      err := None;
    }

    /** `set_element(atom_t)`: the source asserts the element is known. */
    method SetElement(e: AtomT)
      requires e != Unknown
      modifies this
      ensures content == old(content).(element := e)
      ensures uid == old(uid) && effectiveCharge == old(effectiveCharge) && group == old(group) && recName == old(recName)
    {
      content := content.(element := e);
    }

    /** `add_implicit_hydrogens` with the older charge table. */
    method AddImplicitHydrogens(charge: AtomT -> Option<int>,
                                hydrogens: (string, string, AtomT) -> Option<nat>,
                                groups: (string, string, AtomT) -> Option<AtomicGroup>)
      returns (err: Option<AtomError>)
      requires content.element != H
      modifies this
      ensures var (q, g, e) := ImplicitHydrogens(old(State()), charge, hydrogens, groups);
        && err == e && effectiveCharge == q && group == g
      ensures uid == old(uid) && content == old(content) && recName == old(recName)
    {
      var a := content;
      var z := charge(a.element);
      if z.None? {
        return Some(NoCharge(a.element));
      }
      var h := hydrogens(a.resName, a.name, a.element);
      if h.None? {
        return Some(InvalidArgument(a.serial, a.element, a.resName, a.name));
      }
      effectiveCharge := z.value + h.value;
      var g := groups(a.resName, a.name, a.element);
      if g.None? {
        return Some(InvalidArgument(a.serial, a.element, a.resName, a.name));
      }
      group := g.value;
      err := None;
    }
  }

  /** Reading one line into a current and into a legacy atom stores the
    same fields: the two readers differ only in the record name the legacy
    one keeps. */
  lemma ReadersAgree(o: Content, rec: string, line: string)
    ensures var r := LegacyStaged(o, rec, Scan(LegacyFitted(line)));
      (r.0, r.2) == Staged(o, Scan(Fitted(line)))
  {
    LegacySameColumns(line);
  }
}
