/** The fixed-column ATOM/HETATM record layout of the current atom reader
    (section 9 of the wwPDB Atomic Coordinate Entry Format v3.3): fitting a
    line to 80 columns, slicing it into its nineteen columns, decoding the
    columns into the stored fields one assignment at a time, and writing a
    record back out. The legacy reader fits lines differently but scans the
    same columns (`AtomRecords.LegacySameColumns`). */
module PdbFormat {
  import opened Wrappers
  import opened Text
  import opened Numbers
  import opened Constants

  /** The widths of the nineteen `%Nc` conversions of the scan format. */
  const WIDTHS: seq<nat> := [6, 5, 1, 4, 1, 3, 1, 1, 4, 1, 3, 8, 8, 8, 6, 6, 10, 2, 2]

  function Total(ws: seq<nat>): nat {
    if ws == [] then 0 else ws[0] + Total(ws[1..])
  }

  /** The pieces written back to back. */
  function Concat(ps: seq<string>): string {
    if ps == [] then [] else ps[0] + Concat(ps[1..])
  }

  /** Consecutive pieces of the given widths from the front of `s`: what a
      run of `%Nc` conversions hands over. */
  function Cut(s: string, ws: seq<nat>): (ps: seq<string>)
    requires Total(ws) <= |s|
    ensures |ps| == |ws| && forall k :: 0 <= k < |ws| ==> |ps[k]| == ws[k]
  {
    if ws == [] then [] else [s[..ws[0]]] + Cut(s[ws[0]..], ws[1..])
  }

  /** The pieces recover the first `Total(ws)` characters. */
  lemma {:induction false} ConcatCut(s: string, ws: seq<nat>)
    requires Total(ws) <= |s|
    ensures Concat(Cut(s, ws)) == s[..Total(ws)]
  {
    if ws != [] {
      ConcatCut(s[ws[0]..], ws[1..]);
      var ps := Cut(s, ws);
      assert ps[1..] == Cut(s[ws[0]..], ws[1..]);
      assert s[..Total(ws)] == s[..ws[0]] + s[ws[0]..][..Total(ws[1..])];
    }
  }

  /** Cutting undoes concatenation of pieces of the right widths. */
  lemma {:induction false} CutConcat(ps: seq<string>, ws: seq<nat>, rest: string)
    requires |ps| == |ws| && forall k :: 0 <= k < |ws| ==> |ps[k]| == ws[k]
    ensures |Concat(ps)| == Total(ws)
    ensures Cut(Concat(ps) + rest, ws) == ps
  {
    if ws != [] {
      CutConcat(ps[1..], ws[1..], rest);
      var s := Concat(ps) + rest;
      assert s == ps[0] + (Concat(ps[1..]) + rest);
      assert s[..ws[0]] == ps[0];
      assert s[ws[0]..] == Concat(ps[1..]) + rest;
      assert ps == [ps[0]] + ps[1..];
    }
  }

  /** The raw text of every column, as the scan hands them over. */
  datatype Columns = Columns(
    recName: string, serial: string, space1: string, name: string, altLoc: string,
    resName: string, space2: string, chainID: char, resSeq: string, iCode: string,
    space3: string, x: string, y: string, z: string, occupancy: string,
    tempFactor: string, space4: string, element: string, charge: string)

  /** The columns in order, the chain identifier as a one-character text. */
  function Pieces(c: Columns): seq<string> {
    [c.recName, c.serial, c.space1, c.name, c.altLoc, c.resName, c.space2, [c.chainID],
     c.resSeq, c.iCode, c.space3, c.x, c.y, c.z, c.occupancy, c.tempFactor, c.space4,
     c.element, c.charge]
  }

  function FromPieces(ps: seq<string>): (c: Columns)
    requires |ps| == 19 && |ps[7]| == 1
    ensures Pieces(c) == ps
  {
    assert [ps[7][0]] == ps[7];
    Columns(ps[0], ps[1], ps[2], ps[3], ps[4], ps[5], ps[6], ps[7][0], ps[8], ps[9], ps[10],
      ps[11], ps[12], ps[13], ps[14], ps[15], ps[16], ps[17], ps[18])
  }

  /** Every column has its format width. */
  predicate WellSized(c: Columns) {
    && |c.recName| == 6 && |c.serial| == 5 && |c.space1| == 1 && |c.name| == 4 && |c.altLoc| == 1
    && |c.resName| == 3 && |c.space2| == 1 && |c.resSeq| == 4 && |c.iCode| == 1 && |c.space3| == 3
    && |c.x| == 8 && |c.y| == 8 && |c.z| == 8 && |c.occupancy| == 6 && |c.tempFactor| == 6
    && |c.space4| == 10 && |c.element| == 2 && |c.charge| == 2
  }

  /** The pieces of well-sized columns have the format widths. */
  lemma PieceWidths(c: Columns)
    requires WellSized(c)
    ensures forall k :: 0 <= k < 19 ==> |Pieces(c)[k]| == WIDTHS[k]
  {
    var ps := Pieces(c);
    forall k | 0 <= k < 19 ensures |ps[k]| == WIDTHS[k] {
      if k < 5 {
        assert k == 0 || k == 1 || k == 2 || k == 3 || k == 4;
      } else if k < 10 {
        assert k == 5 || k == 6 || k == 7 || k == 8 || k == 9;
      } else if k < 15 {
        assert k == 10 || k == 11 || k == 12 || k == 13 || k == 14;
      } else {
        assert k == 15 || k == 16 || k == 17 || k == 18;
      }
    }
  }

  /** The columns written back to back. */
  function Flatten(c: Columns): string { Concat(Pieces(c)) }

  /** The columns cover exactly one 80-character line. */
  lemma WidthsCoverLine()
    ensures |WIDTHS| == 19 && Total(WIDTHS) == 80
  {
    WidthsFrom3();
    TotalStep(WIDTHS, 2); TotalStep(WIDTHS, 1); TotalStep(WIDTHS, 0);
    assert WIDTHS[0..] == WIDTHS;
  }

  // The total width of the columns from a point on, four columns at a time.

  lemma WidthsFrom3() ensures Total(WIDTHS[3..]) == 68 {
    WidthsFrom7();
    TotalStep(WIDTHS, 6); TotalStep(WIDTHS, 5); TotalStep(WIDTHS, 4); TotalStep(WIDTHS, 3);
  }

  lemma WidthsFrom7() ensures Total(WIDTHS[7..]) == 59 {
    WidthsFrom11();
    TotalStep(WIDTHS, 10); TotalStep(WIDTHS, 9); TotalStep(WIDTHS, 8); TotalStep(WIDTHS, 7);
  }

  lemma WidthsFrom11() ensures Total(WIDTHS[11..]) == 50 {
    WidthsFrom15();
    TotalStep(WIDTHS, 14); TotalStep(WIDTHS, 13); TotalStep(WIDTHS, 12); TotalStep(WIDTHS, 11);
  }

  lemma WidthsFrom15() ensures Total(WIDTHS[15..]) == 20 {
    assert WIDTHS[19..] == [];
    TotalStep(WIDTHS, 18); TotalStep(WIDTHS, 17); TotalStep(WIDTHS, 16); TotalStep(WIDTHS, 15);
  }

  lemma TotalStep(ws: seq<nat>, k: nat)
    requires k < |ws|
    ensures Total(ws[k..]) == ws[k] + Total(ws[k + 1..])
  {
    assert ws[k..][1..] == ws[k + 1..];
  }

  /** The scan `%6c%5c%1c%4c%1c%3c%1c%1c%4c%1c%3c%8c%8c%8c%6c%6c%10c%2c%2c`
      over a line of at least 80 characters. */
  function Scan(s: string): (c: Columns)
    requires |s| >= 80
    ensures WellSized(c)
  {
    WidthsCoverLine();
    var ps := Cut(s, WIDTHS);
    assert |ps[0]| == 6 && |ps[1]| == 5 && |ps[2]| == 1 && |ps[3]| == 4 && |ps[4]| == 1 && |ps[5]| == 3;
    assert |ps[6]| == 1 && |ps[7]| == 1 && |ps[8]| == 4 && |ps[9]| == 1 && |ps[10]| == 3 && |ps[11]| == 8;
    assert |ps[12]| == 8 && |ps[13]| == 8 && |ps[14]| == 6 && |ps[15]| == 6 && |ps[16]| == 10;
    assert |ps[17]| == 2 && |ps[18]| == 2;
    FromPieces(ps)
  }

  /** The columns in order recover the first 80 characters. */
  lemma FlattenScan(s: string)
    requires |s| >= 80
    ensures Flatten(Scan(s)) == s[..80]
  {
    WidthsCoverLine();
    ConcatCut(s, WIDTHS);
  }

  /** Scanning undoes flattening: the partner of `Scan`. */
  lemma ScanFlatten(c: Columns, rest: string)
    requires WellSized(c)
    ensures |Flatten(c)| == 80
    ensures Scan(Flatten(c) + rest) == c
  {
    WidthsCoverLine();
    PieceWidths(c);
    CutConcat(Pieces(c), WIDTHS, rest);
    assert FromPieces(Pieces(c)) == c;
  }

  /** `Record::get_type(recName) == RecordType::ATOM`. The record table is
      not part of this model: following the readers' own error message, the
      six-column name must be "ATOM  " or "HETATM"; a CIF `group_PDB` value
      is the same name without the trailing blanks. Every other name is
      rejected, such as "ATOM" padded to another width or a lower-case
      spelling; any further name the table might map to an atom record is
      not modelled. */
  predicate IsAtomRecord(name: string) {
    name in {"ATOM  ", "HETATM", "ATOM"}
  }

  datatype Coords = Coords(x: real, y: real, z: real)

  /** The fields a reader stores, in the order a record lists them. */
  datatype Content = Content(
    serial: int, name: string, altLoc: string, resName: string, chainID: char,
    resSeq: int, iCode: string, coords: Coords, occupancy: real, tempFactor: real,
    element: AtomT, charge: string)

  /** Why a record line is rejected. */
  datatype PdbError =
    | NotAtomRecord(recName: string)   // the record-name check
    | EmptyX                           // `x.substr(1, ...)` past the end of an empty x
    | NotANumber(field: string)        // `stoi`/`stod` found no number
    | NoElement(symbol: string)        // `parse_element_string` found no element

  /** `utility::remove_all(s, " ")`. */
  function Strip(s: string): string { RemoveAll(s, {' '}) }

  /** The stored name: the column-12 character and columns 13-16, blanks removed. */
  function NameOf(c: Columns): string { Strip(c.space1 + c.name) }

  /** The x text once blanks are removed and a leading character that is
      neither a digit nor '-' is dropped; an empty x has no first character
      to drop and is an error. */
  function XText(x: string): Option<string> {
    var t := Strip(x);
    if t == [] then None
    else if IsDigit(t[0]) || t[0] == '-' then Some(t)
    else Some(t[1..])
  }

  /** A number column that reads as `d` when blank. */
  function Defaulted(t: string, d: real): Option<real> {
    if t == [] then Some(d) else StoD(t)
  }

  /** The symbol text the element is looked up by: the element column when
      it is not blank, otherwise the first character of the name, or its
      second when the first is a digit (`substr` gives the empty text where
      the name is too short). */
  function ElementText(name: string, symbol: string): string {
    if symbol != [] then symbol
    else if name == [] || !IsDigit(name[0]) then name[..if name == [] then 0 else 1]
    else name[1..if |name| >= 2 then 2 else 1]
  }

  /** With a blank element column the element comes from the name. */
  lemma ElementFromName(name: string)
    requires name != []
    ensures !IsDigit(name[0]) ==> ElementText(name, "") == [name[0]]
    ensures IsDigit(name[0]) && |name| >= 2 ==> ElementText(name, "") == [name[1]]
    ensures IsDigit(name[0]) && |name| == 1 ==> ElementText(name, "") == []
    ensures ParseElementString(ElementText(name, "")).Some? ==> !IsDigit(ElementText(name, "")[0])
  {
    assert name[..1] == [name[0]];
    if |name| >= 2 {
      assert name[1..2] == [name[1]];
    }
  }

  /** The conversions the reader applies to the scanned columns, each
      `None` where it fails. */
  datatype Converted = Converted(
    x: Option<string>, serial: Option<int>, resSeq: Option<int>, coords: Option<Coords>,
    occupancy: Option<real>, tempFactor: Option<real>, element: Option<AtomT>)

  function Convert(c: Columns): Converted {
    Converted(XText(c.x), IntOf(c.serial), IntOf(c.resSeq), CoordsOf(c.x, c.y, c.z),
      Defaulted(Strip(c.occupancy), 1.0), Defaulted(Strip(c.tempFactor), 0.0),
      ElementOf(NameOf(c), c.element))
  }

  /** `stoi` on a column once its blanks are removed. */
  function IntOf(s: string): Option<int> { StoI(Strip(s)) }

  /** The three coordinates, x through the x rule and y and z with their
      blanks removed. */
  function CoordsOf(x: string, y: string, z: string): Option<Coords> {
    match (XValue(x), StoD(Strip(y)), StoD(Strip(z)))
    case (Some(vx), Some(vy), Some(vz)) => Some(Coords(vx, vy, vz))
    case _ => None
  }

  /** `stod` on the x text, when there is one. */
  function XValue(x: string): Option<real> {
    match XText(x)
    case None => None
    case Some(t) => StoD(t)
  }

  /** The element named by the element column, or by the name when it is blank. */
  function ElementOf(name: string, symbol: string): Option<AtomT> {
    ParseElementString(ElementText(name, Strip(symbol)))
  }

  /** The decoding of `parse_pdb` on scanned columns, starting from the
      fields `o` held before: the record-name check and the x rule come
      first; then the fields are assigned in the reader's order and the
      first failing conversion stops the assignments, leaving the fields
      already assigned with their new values and the rest as they were. */
  function Staged(o: Content, c: Columns): (Content, Option<PdbError>) {
    Assign(o, c, Convert(c))
  }

  function Assign(o: Content, c: Columns, v: Converted): (Content, Option<PdbError>) {
    if !IsAtomRecord(c.recName) then (o, Some(NotAtomRecord(c.recName)))
    else if v.x.None? then (o, Some(EmptyX))
    else if v.serial.None? then (o, Some(NotANumber("serial")))
    else
      var o1 := o.(serial := v.serial.value, name := NameOf(c), altLoc := c.altLoc,
                   resName := Strip(c.resName), chainID := c.chainID);
      if v.resSeq.None? then (o1, Some(NotANumber("resSeq")))
      else
        var o2 := o1.(resSeq := v.resSeq.value, iCode := c.iCode);
        if v.coords.None? then (o2, Some(NotANumber("coordinates")))
        else
          var o3 := o2.(coords := v.coords.value);
          if v.occupancy.None? then (o3, Some(NotANumber("occupancy")))
          else
            var o4 := o3.(occupancy := v.occupancy.value);
            if v.tempFactor.None? then (o4, Some(NotANumber("tempFactor")))
            else
              var o5 := o4.(tempFactor := v.tempFactor.value);
              if v.element.None? then (o5, Some(NoElement(ElementText(NameOf(c), Strip(c.element)))))
              else (o5.(element := v.element.value, charge := c.charge), None)
  }

  /** A successful decoding assigns every field, so it does not depend on
      what the reader held before. */
  lemma StagedOverwrites(o: Content, p: Content, c: Columns)
    requires Staged(o, c).1 == None
    ensures Staged(p, c) == Staged(o, c)
  {
    AssignOverwrites(o, p, c, Convert(c));
  }

  lemma AssignOverwrites(o: Content, p: Content, c: Columns, v: Converted)
    requires Assign(o, c, v).1 == None
    ensures Assign(p, c, v) == Assign(o, c, v)
  {
  }

  /** The failures that come before any field is assigned. */
  predicate EarlyError(c: Columns, e: Option<PdbError>) {
    e in {Some(NotAtomRecord(c.recName)), Some(EmptyX), Some(NotANumber("serial"))}
  }

  /** A rejected record name, an empty x or an unreadable serial changes
      nothing; any later failure keeps the serial and name it assigned and
      leaves the charge, the last field, as it was. */
  lemma StagedFailure(o: Content, c: Columns)
    requires Staged(o, c).1.Some?
    ensures Staged(o, c).1 == Some(NotAtomRecord(c.recName)) <==> !IsAtomRecord(c.recName)
    ensures EarlyError(c, Staged(o, c).1) ==> Staged(o, c).0 == o
    ensures !EarlyError(c, Staged(o, c).1) ==>
      Some(Staged(o, c).0.serial) == StoI(Strip(c.serial)) && Staged(o, c).0.name == NameOf(c)
    ensures Staged(o, c).0.charge == o.charge
  {
    AssignFailure(o, c, Convert(c));
  }

  lemma AssignFailure(o: Content, c: Columns, v: Converted)
    requires Assign(o, c, v).1.Some?
    ensures Assign(o, c, v).1 == Some(NotAtomRecord(c.recName)) <==> !IsAtomRecord(c.recName)
    ensures EarlyError(c, Assign(o, c, v).1) ==> Assign(o, c, v).0 == o
    ensures !EarlyError(c, Assign(o, c, v).1) ==>
      Some(Assign(o, c, v).0.serial) == v.serial && Assign(o, c, v).0.name == NameOf(c)
    ensures Assign(o, c, v).0.charge == o.charge
  {
  }

  /** What a successful decoding stores: blanks removed from the number,
      name, residue and element columns, alternate location, insertion code
      and charge kept with their blanks, blank occupancy 1 and blank
      temperature factor 0. */
  lemma StagedFields(o: Content, c: Columns)
    requires Staged(o, c).1 == None
    ensures var a := Staged(o, c).0;
      && IsAtomRecord(c.recName)
      && Some(a.serial) == StoI(Strip(c.serial)) && Some(a.resSeq) == StoI(Strip(c.resSeq))
      && a.name == NameOf(c) && a.resName == Strip(c.resName)
      && a.altLoc == c.altLoc && a.iCode == c.iCode && a.charge == c.charge && a.chainID == c.chainID
      && Some(a.occupancy) == Defaulted(Strip(c.occupancy), 1.0)
      && Some(a.tempFactor) == Defaulted(Strip(c.tempFactor), 0.0)
      && Some(a.element) == ElementOf(a.name, c.element)
  {
    AssignFields(o, c, Convert(c));
  }

  lemma AssignFields(o: Content, c: Columns, v: Converted)
    requires Assign(o, c, v).1 == None
    ensures var a := Assign(o, c, v).0;
      && IsAtomRecord(c.recName) && v.x.Some?
      && Some(a.serial) == v.serial && Some(a.resSeq) == v.resSeq
      && a.name == NameOf(c) && a.resName == Strip(c.resName)
      && a.altLoc == c.altLoc && a.iCode == c.iCode && a.charge == c.charge && a.chainID == c.chainID
      && Some(a.coords) == v.coords && Some(a.occupancy) == v.occupancy
      && Some(a.tempFactor) == v.tempFactor && Some(a.element) == v.element
  {
  }

  /** The element a reader stores is never the unknown or dummy marker. */
  lemma StagedElement(o: Content, c: Columns)
    requires Staged(o, c).1 == None
    ensures Staged(o, c).0.element != Unknown && Staged(o, c).0.element != Dummy
  {
    StagedFields(o, c);
  }

  /** Blank occupancy and temperature-factor columns read as 1 and 0. */
  lemma StagedDefaults(o: Content, c: Columns)
    requires Staged(o, c).1 == None
    ensures Strip(c.occupancy) == [] ==> Staged(o, c).0.occupancy == 1.0
    ensures Strip(c.tempFactor) == [] ==> Staged(o, c).0.tempFactor == 0.0
  {
    StagedFields(o, c);
  }

  // ---------------------------------------------------------------------
  // Writing a record

  /** The numbers of a record as `as_pdb` prints them: the integers in
      decimal and the reals through `fw(v, n)`, which is
      `utility::fixedwidth`, a floating-point formatter that is not part of
      this model. */
  datatype Rendered = Rendered(
    serial: string, resSeq: string, x: string, y: string, z: string, occupancy: string, tempFactor: string)

  function Render(a: Content, fw: (real, nat) -> string): Rendered {
    Rendered(IntToString(a.serial), IntToString(a.resSeq), fw(a.coords.x, 7), fw(a.coords.y, 7),
      fw(a.coords.z, 7), fw(a.occupancy, 6), fw(a.tempFactor, 6))
  }

  /** The columns `as_pdb` writes: the record name left-aligned in 6, serial
      right-aligned in 5, two blanks, name left-aligned in 3, alternate
      location, residue name left-aligned in 3, a blank, chain, sequence
      number right-aligned in 4, insertion code, three blanks, the three
      coordinates right-aligned in 8, occupancy and temperature factor
      right-aligned in 6, ten blanks, the element symbol right-aligned in 2
      and the charge left-aligned in 2. A field longer than its width is
      written whole: `setw` never truncates. */
  function WrittenColumns(recName: string, a: Content, t: Rendered, sym: string): Columns {
    Columns(PadRight(recName, 6), PadLeft(t.serial, 5), Spaces(1), Spaces(1) + PadRight(a.name, 3),
      PadRight(a.altLoc, 1), PadRight(a.resName, 3), Spaces(1), a.chainID, PadLeft(t.resSeq, 4),
      PadLeft(a.iCode, 1), Spaces(3), PadLeft(t.x, 8), PadLeft(t.y, 8), PadLeft(t.z, 8),
      PadLeft(t.occupancy, 6), PadLeft(t.tempFactor, 6), Spaces(10), PadLeft(sym, 2), PadRight(a.charge, 2))
  }

  /** `as_pdb`: the written columns and a newline; an element without a
      symbol cannot be written. */
  function AsPdb(recName: string, a: Content, fw: (real, nat) -> string): Option<string> {
    match ToString(a.element)
    case None => None
    case Some(sym) => Some(Flatten(WrittenColumns(recName, a, Render(a, fw), sym)) + "\n")
  }

  /** Every field fits its column. */
  predicate Fits(recName: string, a: Content, t: Rendered) {
    |recName| <= 6 && |t.serial| <= 5 && |a.name| <= 3 && |a.altLoc| <= 1
    && |a.resName| <= 3 && |t.resSeq| <= 4 && |a.iCode| <= 1
    && |t.x| <= 8 && |t.y| <= 8 && |t.z| <= 8
    && |t.occupancy| <= 6 && |t.tempFactor| <= 6 && |a.charge| <= 2
  }

  /** When every field fits, the record is exactly 80 columns in the scan's
      field order, with the record name in the first six, followed by a
      newline. */
  lemma AsPdbLayout(recName: string, a: Content, fw: (real, nat) -> string)
    requires Fits(recName, a, Render(a, fw)) && ToString(a.element).Some?
    ensures AsPdb(recName, a, fw).Some?
    ensures var line := AsPdb(recName, a, fw).value;
      && |line| == 81 && line[80] == '\n'
      && WellSized(WrittenColumns(recName, a, Render(a, fw), ToString(a.element).value))
      && line[..80] == Flatten(WrittenColumns(recName, a, Render(a, fw), ToString(a.element).value))
      && line[..6] == PadRight(recName, 6)
  {
    var sym := ToString(a.element).value;
    SymbolShape(a.element);
    var c := WrittenColumns(recName, a, Render(a, fw), sym);
    WrittenWellSized(recName, a, Render(a, fw), sym);
    LineOf(c);
    assert AsPdb(recName, a, fw) == Some(Flatten(c) + "\n");
  }

  /** Well-sized columns make one 80-column line, record name first. */
  lemma LineOf(c: Columns)
    requires WellSized(c)
    ensures var line := Flatten(c) + "\n";
      && |line| == 81 && line[80] == '\n' && line[..80] == Flatten(c) && line[..6] == c.recName
  {
    ScanFlatten(c, []);
    var ps := Pieces(c);
    var f := Flatten(c);
    assert f == ps[0] + Concat(ps[1..]);
    PrefixOfAppend(ps[0], Concat(ps[1..]), 6);
    PrefixOfAppend(f, "\n", 6);
    PrefixOfAppend(f, "\n", 80);
  }

  lemma PrefixOfAppend(f: string, g: string, n: nat)
    requires n <= |f|
    ensures (f + g)[..n] == f[..n] && (f + g)[..|f|] == f
  {
  }

  lemma WrittenWellSized(recName: string, a: Content, t: Rendered, sym: string)
    requires Fits(recName, a, t) && 1 <= |sym| <= 2
    ensures WellSized(WrittenColumns(recName, a, t, sym))
  {
    var c := WrittenColumns(recName, a, t, sym);
    assert |c.name| == 4;
  }

  /** Symbols are one or two non-blank characters. */
  lemma SymbolShape(e: AtomT)
    requires ToString(e).Some?
    ensures 1 <= |ToString(e).value| <= 2
    ensures Free(ToString(e).value, {' ', '\n', '\r'})
  {
    var s := ToString(e).value;
    forall i | 0 <= i < |s| ensures s[i] !in {' ', '\n', '\r'} {
      assert s[i] in s;
    }
  }

  // ---------------------------------------------------------------------
  // Blank removal

  predicate Free(s: string, cs: set<char>) { forall i :: 0 <= i < |s| ==> s[i] !in cs }

  lemma {:induction false} RemoveAllAppend(s: string, t: string, cs: set<char>)
    ensures RemoveAll(s + t, cs) == RemoveAll(s, cs) + RemoveAll(t, cs)
    decreases |s|
  {
    if s == [] {
      assert s + t == t;
    } else {
      assert (s + t)[0] == s[0];
      assert (s + t)[1..] == s[1..] + t;
      RemoveAllAppend(s[1..], t, cs);
    }
  }

  lemma {:induction false} RemoveAllFree(s: string, cs: set<char>)
    requires Free(s, cs)
    ensures RemoveAll(s, cs) == s
    decreases |s|
  {
    if s != [] {
      RemoveAllFree(s[1..], cs);
      assert s == [s[0]] + s[1..];
    }
  }

  lemma {:induction false} RemoveAllGone(s: string, cs: set<char>)
    requires forall i :: 0 <= i < |s| ==> s[i] in cs
    ensures RemoveAll(s, cs) == []
    decreases |s|
  {
    if s != [] {
      RemoveAllGone(s[1..], cs);
    }
  }

  /** Removing blanks undoes both paddings of a blank-free text. */
  lemma StripPadded(t: string, n: nat)
    requires Free(t, {' ', '\n', '\r'})
    ensures Strip(PadLeft(t, n)) == t && Strip(PadRight(t, n)) == t
  {
    assert Free(t, {' '});
    RemoveAllFree(t, {' '});
    if |t| < n {
      RemoveAllGone(Spaces(n - |t|), {' '});
      RemoveAllAppend(Spaces(n - |t|), t, {' '});
      RemoveAllAppend(t, Spaces(n - |t|), {' '});
    }
  }

  /** Padding adds only blanks. */
  lemma PadFree(t: string, n: nat, cs: set<char>)
    requires Free(t, cs) && ' ' !in cs
    ensures Free(PadLeft(t, n), cs) && Free(PadRight(t, n), cs)
  {
    if |t| < n {
      var l := PadLeft(t, n);
      forall i | 0 <= i < |l| ensures l[i] !in cs {
        if i >= n - |t| { assert l[i] == t[i - (n - |t|)]; }
      }
    }
  }

  lemma {:induction false} ConcatFree(ps: seq<string>, cs: set<char>)
    requires forall k :: 0 <= k < |ps| ==> Free(ps[k], cs)
    ensures Free(Concat(ps), cs)
  {
    if ps != [] {
      ConcatFree(ps[1..], cs);
      var s := Concat(ps);
      forall i | 0 <= i < |s| ensures s[i] !in cs {
        if i >= |ps[0]| { assert s[i] == Concat(ps[1..])[i - |ps[0]|]; }
      }
    }
  }

  lemma IntTextFree(i: int)
    ensures Free(IntToString(i), {' ', '\n', '\r'})
  {
    var s := IntToString(i);
    if i < 0 {
      assert s[1..] == NatToString(-i);
      forall k | 0 <= k < |s| ensures s[k] !in {' ', '\n', '\r'} {
        if k > 0 { assert s[k] == NatToString(-i)[k - 1]; }
      }
    }
  }

  /** What the formatter must do for a record to read back: each real
      prints without blanks or line breaks and reads back as itself, the x
      text starts with a digit or '-' (the reader drops any other first
      character), and the occupancy and temperature factor are not blank. */
  predicate ReadsBack(a: Content, fw: (real, nat) -> string) {
    var tx := fw(a.coords.x, 7);
    && Free(tx, {' ', '\n', '\r'}) && tx != [] && (IsDigit(tx[0]) || tx[0] == '-')
    && StoD(tx) == Some(a.coords.x)
    && Free(fw(a.coords.y, 7), {' ', '\n', '\r'}) && StoD(fw(a.coords.y, 7)) == Some(a.coords.y)
    && Free(fw(a.coords.z, 7), {' ', '\n', '\r'}) && StoD(fw(a.coords.z, 7)) == Some(a.coords.z)
    && Free(fw(a.occupancy, 6), {' ', '\n', '\r'}) && fw(a.occupancy, 6) != []
    && StoD(fw(a.occupancy, 6)) == Some(a.occupancy)
    && Free(fw(a.tempFactor, 6), {' ', '\n', '\r'}) && fw(a.tempFactor, 6) != []
    && StoD(fw(a.tempFactor, 6)) == Some(a.tempFactor)
  }

  /** The text fields carry no blanks where the reader removes them and no
      line breaks anywhere, and the integers are in the 32-bit range. */
  predicate Plain(recName: string, a: Content) {
    Free(recName, {'\n', '\r'}) && Free(a.name, {' ', '\n', '\r'}) && Free(a.resName, {' ', '\n', '\r'})
    && Free(a.altLoc, {'\n', '\r'}) && Free(a.iCode, {'\n', '\r'}) && Free(a.charge, {'\n', '\r'})
    && a.chainID != '\n' && a.chainID != '\r' && INT_MIN <= a.serial <= INT_MAX && INT_MIN <= a.resSeq <= INT_MAX
  }

  /** The rendered numbers, as the reader needs them. */
  predicate Readable(a: Content, t: Rendered) {
    && Free(t.serial, {' ', '\n', '\r'}) && StoI(t.serial) == Some(a.serial)
    && Free(t.resSeq, {' ', '\n', '\r'}) && StoI(t.resSeq) == Some(a.resSeq)
    && Free(t.x, {' ', '\n', '\r'}) && t.x != [] && (IsDigit(t.x[0]) || t.x[0] == '-')
    && StoD(t.x) == Some(a.coords.x)
    && Free(t.y, {' ', '\n', '\r'}) && StoD(t.y) == Some(a.coords.y)
    && Free(t.z, {' ', '\n', '\r'}) && StoD(t.z) == Some(a.coords.z)
    && Free(t.occupancy, {' ', '\n', '\r'}) && t.occupancy != [] && StoD(t.occupancy) == Some(a.occupancy)
    && Free(t.tempFactor, {' ', '\n', '\r'}) && t.tempFactor != [] && StoD(t.tempFactor) == Some(a.tempFactor)
  }

  lemma RenderReadable(a: Content, fw: (real, nat) -> string)
    requires ReadsBack(a, fw) && INT_MIN <= a.serial <= INT_MAX && INT_MIN <= a.resSeq <= INT_MAX
    ensures Readable(a, Render(a, fw))
  {
    IntTextFree(a.serial);
    IntTextFree(a.resSeq);
    IntRoundTrip(a.serial);
    IntRoundTrip(a.resSeq);
  }

  /** The line a reader scans: line breaks removed, then cut or padded to 80. */
  function Fitted(line: string): string { FitTo(RemoveAll(line, {'\n', '\r'}), 80) }

  /** Writing a fitting record and reading it back gives the record again,
      except that a blank alternate location, insertion code or charge comes
      back padded to its column width. */
  lemma RoundTrip(o: Content, recName: string, a: Content, fw: (real, nat) -> string)
    requires IsAtomRecord(PadRight(recName, 6)) && Fits(recName, a, Render(a, fw))
    requires Plain(recName, a) && ReadsBack(a, fw)
    requires ToString(a.element).Some? && a.element != Dummy
    ensures AsPdb(recName, a, fw).Some?
    ensures Staged(o, Scan(Fitted(AsPdb(recName, a, fw).value)))
         == (a.(altLoc := PadRight(a.altLoc, 1), iCode := PadLeft(a.iCode, 1), charge := PadRight(a.charge, 2)), None)
  {
    var sym := ToString(a.element).value;
    SymbolShape(a.element);
    ParsePrinted(a.element);
    RenderReadable(a, fw);
    var c := WrittenColumns(recName, a, Render(a, fw), sym);
    ReadWritten(o, recName, a, Render(a, fw), sym, c);
    assert AsPdb(recName, a, fw) == Some(Flatten(c) + "\n");
  }

  lemma ReadWritten(o: Content, recName: string, a: Content, t: Rendered, sym: string, c: Columns)
    requires IsAtomRecord(PadRight(recName, 6)) && Fits(recName, a, t) && Plain(recName, a) && Readable(a, t)
    requires 1 <= |sym| <= 2 && Free(sym, {' ', '\n', '\r'}) && ParseElementString(sym) == Some(a.element)
    requires c == WrittenColumns(recName, a, t, sym)
    ensures Staged(o, Scan(Fitted(Flatten(c) + "\n")))
         == (a.(altLoc := PadRight(a.altLoc, 1), iCode := PadLeft(a.iCode, 1), charge := PadRight(a.charge, 2)), None)
  {
    WrittenWellSized(recName, a, t, sym);
    LineFree(recName, a, t, sym);
    ReadLine(c);
    ColumnsRead(o, recName, a, t, sym, c);
  }

  /** Scanning a written line without stray line breaks gives its columns. */
  lemma ReadLine(c: Columns)
    requires WellSized(c) && Free(Flatten(c), {'\n', '\r'})
    ensures Scan(Fitted(Flatten(c) + "\n")) == c
  {
    var f := Flatten(c);
    RemoveAllAppend(f, "\n", {'\n', '\r'});
    RemoveAllFree(f, {'\n', '\r'});
    assert RemoveAll("\n", {'\n', '\r'}) == [];
    assert RemoveAll(f + "\n", {'\n', '\r'}) == f;
    ScanFlatten(c, []);
    assert f + [] == f;
  }

  lemma LineFree(recName: string, a: Content, t: Rendered, sym: string)
    requires Plain(recName, a) && Readable(a, t) && Free(sym, {' ', '\n', '\r'})
    ensures Free(Flatten(WrittenColumns(recName, a, t, sym)), {'\n', '\r'})
  {
    NumbersFree(a, t);
    TextsFree(recName, a, sym);
    BlanksFree(1);
    BlanksFree(3);
    BlanksFree(10);
    ColumnsFree(WrittenColumns(recName, a, t, sym), {'\n', '\r'});
  }

  lemma NumbersFree(a: Content, t: Rendered)
    requires Readable(a, t)
    ensures var cs := {'\n', '\r'};
      && Free(PadLeft(t.serial, 5), cs) && Free(PadLeft(t.resSeq, 4), cs)
      && Free(PadLeft(t.x, 8), cs) && Free(PadLeft(t.y, 8), cs) && Free(PadLeft(t.z, 8), cs)
      && Free(PadLeft(t.occupancy, 6), cs) && Free(PadLeft(t.tempFactor, 6), cs)
  {
    PadUnbroken(t.serial, 5);
    PadUnbroken(t.resSeq, 4);
    PadUnbroken(t.x, 8);
    PadUnbroken(t.y, 8);
    PadUnbroken(t.z, 8);
    PadUnbroken(t.occupancy, 6);
    PadUnbroken(t.tempFactor, 6);
  }

  lemma TextsFree(recName: string, a: Content, sym: string)
    requires Plain(recName, a) && Free(sym, {' ', '\n', '\r'})
    ensures var cs := {'\n', '\r'};
      && Free(PadRight(recName, 6), cs) && Free(Spaces(1) + PadRight(a.name, 3), cs)
      && Free(PadRight(a.altLoc, 1), cs) && Free(PadRight(a.resName, 3), cs) && Free([a.chainID], cs)
      && Free(PadLeft(a.iCode, 1), cs) && Free(PadLeft(sym, 2), cs) && Free(PadRight(a.charge, 2), cs)
  {
    var cs := {'\n', '\r'};
    Unbroken(a.name);
    Unbroken(a.resName);
    PadFree(recName, 6, cs);
    PadFree(a.name, 3, cs);
    PadFree(a.altLoc, 1, cs);
    PadFree(a.resName, 3, cs);
    PadFree(a.iCode, 1, cs);
    PadUnbroken(sym, 2);
    PadFree(a.charge, 2, cs);
    BlanksFree(1);
    PrefixFree(Spaces(1), PadRight(a.name, 3), cs);
    CharFree(a.chainID);
  }

  lemma BlanksFree(n: nat)
    ensures Free(Spaces(n), {'\n', '\r'})
  {
  }

  lemma PadUnbroken(t: string, n: nat)
    requires Free(t, {' ', '\n', '\r'})
    ensures Free(PadLeft(t, n), {'\n', '\r'})
  {
    Unbroken(t);
    PadFree(t, n, {'\n', '\r'});
  }

  lemma CharFree(ch: char)
    requires ch != '\n' && ch != '\r'
    ensures Free([ch], {'\n', '\r'})
  {
  }

  /** A text without blanks or line breaks has no line breaks. */
  lemma Unbroken(t: string)
    requires Free(t, {' ', '\n', '\r'})
    ensures Free(t, {'\n', '\r'})
  {
  }

  lemma PrefixFree(s: string, t: string, cs: set<char>)
    requires Free(s, cs) && Free(t, cs)
    ensures Free(s + t, cs)
  {
    forall i | 0 <= i < |s + t| ensures (s + t)[i] !in cs {
      if i >= |s| { assert (s + t)[i] == t[i - |s|]; }
    }
  }

  /** Columns free of the given characters make a line free of them. */
  lemma ColumnsFree(c: Columns, cs: set<char>)
    requires && Free(c.recName, cs) && Free(c.serial, cs) && Free(c.space1, cs) && Free(c.name, cs)
             && Free(c.altLoc, cs) && Free(c.resName, cs) && Free(c.space2, cs) && Free([c.chainID], cs)
             && Free(c.resSeq, cs) && Free(c.iCode, cs) && Free(c.space3, cs) && Free(c.x, cs)
             && Free(c.y, cs) && Free(c.z, cs) && Free(c.occupancy, cs) && Free(c.tempFactor, cs)
             && Free(c.space4, cs) && Free(c.element, cs) && Free(c.charge, cs)
    ensures Free(Flatten(c), cs)
  {
    var ps := Pieces(c);
    forall k | 0 <= k < 19 ensures Free(ps[k], cs) {
      if k < 5 {
        assert k == 0 || k == 1 || k == 2 || k == 3 || k == 4;
      } else if k < 10 {
        assert k == 5 || k == 6 || k == 7 || k == 8 || k == 9;
      } else if k < 15 {
        assert k == 10 || k == 11 || k == 12 || k == 13 || k == 14;
      } else {
        assert k == 15 || k == 16 || k == 17 || k == 18;
      }
    }
    ConcatFree(ps, cs);
  }

  /** Decoding the written columns: every conversion succeeds with the value
      written. */
  lemma ColumnsRead(o: Content, recName: string, a: Content, t: Rendered, sym: string, c: Columns)
    requires IsAtomRecord(PadRight(recName, 6)) && Plain(recName, a) && Readable(a, t)
    requires 1 <= |sym| <= 2 && Free(sym, {' ', '\n', '\r'}) && ParseElementString(sym) == Some(a.element)
    requires c == WrittenColumns(recName, a, t, sym)
    ensures Staged(o, c)
         == (a.(altLoc := PadRight(a.altLoc, 1), iCode := PadLeft(a.iCode, 1), charge := PadRight(a.charge, 2)), None)
  {
    NameRead(a.name);
    StripPadded(a.resName, 3);
    ConvertWritten(recName, a, t, sym, c);
    AssignAll(o, c, Convert(c));
  }

  /** The name column pair gives the name back. */
  lemma NameRead(name: string)
    requires Free(name, {' ', '\n', '\r'})
    ensures Strip(Spaces(1) + (Spaces(1) + PadRight(name, 3))) == name
  {
    StripPadded(name, 3);
    assert Spaces(1) + (Spaces(1) + PadRight(name, 3)) == Spaces(2) + PadRight(name, 3);
    RemoveAllAppend(Spaces(2), PadRight(name, 3), {' '});
    RemoveAllGone(Spaces(2), {' '});
  }

  /** Every conversion succeeding gives every field its converted value. */
  lemma AssignAll(o: Content, c: Columns, v: Converted)
    requires IsAtomRecord(c.recName) && v.x.Some? && v.serial.Some? && v.resSeq.Some? && v.coords.Some?
    requires v.occupancy.Some? && v.tempFactor.Some? && v.element.Some?
    ensures Assign(o, c, v) == (Content(v.serial.value, NameOf(c), c.altLoc, Strip(c.resName), c.chainID,
      v.resSeq.value, c.iCode, v.coords.value, v.occupancy.value, v.tempFactor.value, v.element.value, c.charge), None)
  {
  }

  lemma ConvertWritten(recName: string, a: Content, t: Rendered, sym: string, c: Columns)
    requires Plain(recName, a) && Readable(a, t)
    requires 1 <= |sym| <= 2 && Free(sym, {' ', '\n', '\r'}) && ParseElementString(sym) == Some(a.element)
    requires c == WrittenColumns(recName, a, t, sym)
    ensures Convert(c) == Converted(Some(t.x), Some(a.serial), Some(a.resSeq), Some(a.coords),
      Some(a.occupancy), Some(a.tempFactor), Some(a.element))
  {
    NameRead(a.name);
    IntRead(t.serial, 5, a.serial);
    IntRead(t.resSeq, 4, a.resSeq);
    XRead(t.x);
    CoordsRead(t.x, t.y, t.z, a.coords);
    DefaultRead(t.occupancy, 6, 1.0, a.occupancy);
    DefaultRead(t.tempFactor, 6, 0.0, a.tempFactor);
    ElementRead(a.name, sym);
  }

  lemma IntRead(t: string, n: nat, i: int)
    requires Free(t, {' ', '\n', '\r'}) && StoI(t) == Some(i)
    ensures IntOf(PadLeft(t, n)) == Some(i)
  {
    StripPadded(t, n);
  }

  lemma CoordsRead(x: string, y: string, z: string, p: Coords)
    requires Free(x, {' ', '\n', '\r'}) && x != [] && (IsDigit(x[0]) || x[0] == '-') && StoD(x) == Some(p.x)
    requires Free(y, {' ', '\n', '\r'}) && StoD(y) == Some(p.y)
    requires Free(z, {' ', '\n', '\r'}) && StoD(z) == Some(p.z)
    ensures CoordsOf(PadLeft(x, 8), PadLeft(y, 8), PadLeft(z, 8)) == Some(p)
  {
    XValueRead(x, p.x);
    RealRead(y, 8, p.y);
    RealRead(z, 8, p.z);
    CoordsOfRead(PadLeft(x, 8), PadLeft(y, 8), PadLeft(z, 8), p);
  }

  /** The x column of a written coordinate reads back as its value. */
  lemma XValueRead(x: string, v: real)
    requires Free(x, {' ', '\n', '\r'}) && x != [] && (IsDigit(x[0]) || x[0] == '-') && StoD(x) == Some(v)
    ensures XValue(PadLeft(x, 8)) == Some(v)
  {
    XRead(x);
  }

  /** Three readable coordinate columns make a point. */
  lemma CoordsOfRead(x: string, y: string, z: string, p: Coords)
    requires XValue(x) == Some(p.x) && StoD(Strip(y)) == Some(p.y) && StoD(Strip(z)) == Some(p.z)
    ensures CoordsOf(x, y, z) == Some(p)
  {
  }

  lemma RealRead(t: string, n: nat, v: real)
    requires Free(t, {' ', '\n', '\r'}) && StoD(t) == Some(v)
    ensures StoD(Strip(PadLeft(t, n))) == Some(v)
  {
    StripPadded(t, n);
  }

  lemma DefaultRead(t: string, n: nat, d: real, v: real)
    requires Free(t, {' ', '\n', '\r'}) && t != [] && StoD(t) == Some(v)
    ensures Defaulted(Strip(PadLeft(t, n)), d) == Some(v)
  {
    StripPadded(t, n);
  }

  lemma ElementRead(name: string, sym: string)
    requires Free(sym, {' ', '\n', '\r'}) && sym != []
    ensures ElementOf(name, PadLeft(sym, 2)) == ParseElementString(sym)
  {
    StripPadded(sym, 2);
  }

  lemma XRead(t: string)
    requires Free(t, {' ', '\n', '\r'}) && t != [] && (IsDigit(t[0]) || t[0] == '-')
    ensures XText(PadLeft(t, 8)) == Some(t)
  {
    StripPadded(t, 8);
  }
}
