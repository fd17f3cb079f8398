# AUSAXS core, modelled in Dafny

AUSAXS computes small-angle X-ray scattering (SAXS) curves of molecular structures. It also has a small Python tool that reads the program's plot documents. This project models the core of both parts in Dafny and proves properties of that model. There is one Dafny module per source file, plus a few shared helpers.

- **Element and residue constants** (`Constants`): the element symbol parser and printer and the ionic charges.
- **Atom records and readers**:
  - `PdbFormat`: the fixed-column PDB atom record, its parser and its printer.
  - `AtomRecords`: the legacy `Atom` record and the comparisons of the two record kinds.
  - `CifReader`: the mmCIF reader, which covers label maps, section extraction, quote merging, ions, residues, the trailing-`1` alias rule and hydrogen routing.
  - `Numbers` and `Text`: decimal parsing and splitting.
- **Plot documents** (`PlotHelper`): the line-stream reader of the plotting script. It covers options, datasets, lines, 2D histograms and the figure/block dispatch. Rendering is reduced to a sequence of events.
- **Grids**:
  - `Voxels`: the box traversal shared by the three grids.
  - `GridParts`: bins and bounding boxes.
  - `VoxelGrid`: the legacy grid.
  - `CoreGrid`: the core grid.
  - `HydrateGrid`: the hydration grid.

  Each grid is a class over a three-dimensional array. It adds, expands, deflates and removes members, and its contracts state the new cell contents.
- **Peak finding** (`PeakFinder`): minimum candidates, spacing, bounding, merging, relaxing and the prominence filter.
- **Symmetries and histogram managers**:
  - `Symmetries`, `SymmetryManagerMT` and `SymmetryManager`: the full recomputation under body symmetries.
  - `SymmetryPlan`, `SymmetrySlots` and `PartialSymmetryManagerMT`: the partial recomputation that redoes only what changed.
  - `PartialHistogramManager`, `PartialHistogramManagerMT` and `Slots`: the partial managers without symmetries.
  - `State`: the change tracker these managers share.
  - `Histograms`: the vector arithmetic and truncation rule shared by all the managers.

Shared helpers:
- `Wrappers` holds `Option` and `Result`.
- `Runs` is a generic step trace. The grid loops use it to state their loop invariants.

Floating-point weights are modelled as exact reals. The distance calculator is abstract: its results are given as histograms.

## Model

| member | source | states |
|---|---|---|
| Constants.ParseElementString | source/core/constants/Constants.cpp:42-64 | `parse_element_string` is an exact lookup in the symbol table; it never yields the dummy or `unknown` |
| Constants.ToString | source/core/constants/Constants.cpp:265-330 | corrected `to_string`: every printed symbol has 1-2 characters and no blank or line break |
| Constants.KrDoesNotPrint | source/core/constants/Constants.cpp:265-330 | as-written member `ToStringAsWritten`: "Kr" parses to Kr, the written printer has no case for Kr, the corrected one prints "Kr" |
| Constants.PrintParsed | source/core/constants/Constants.cpp:42-53 | printing what was parsed gives the same symbol back, for every table entry |
| Constants.ParsePrinted | source/core/constants/Constants.cpp:265-330 | parsing what was printed gives the same element back, for every printable element but the dummy |
| Constants.PrinterAgreement | source/core/constants/Constants.cpp:265-330 | the corrected printer equals the written one wherever the written one is defined |
| Constants.NuclearChargeNamesElement | source/core/constants/Constants.cpp:102-168 | every real element has a nuclear charge, and that atomic number names the element back |
| Constants.NuclearChargeInjective | source/core/constants/Constants.cpp:102-168 | distinct real elements have distinct nuclear charges |
| Constants.IonicCharge | source/core/constants/Constants.cpp:170-177 | the signed ionic charge is defined exactly for Ca, Cl and Zn |
| Constants.IonicChargeWraps | source/core/constants/Constants.cpp:170-177 | as-written member `IonicChargeAsWritten`: it is defined on the same elements, equals the signed charge modulo 2^32, and differs from it at Cl |
| Constants.ValenceImpliesCharge | source/core/constants/Constants.cpp:179-195 | every element with a valence also has a nuclear charge |
| Constants.VdwRadius | source/core/constants/Constants.cpp:197-263 | defined exactly for the real elements except Kr and Xe, plus M (0) and the dummy (the current dummy radius); a real element gets its table radius |
| Constants.RadiusSettings.constructor | source/core/constants/Constants.cpp:32 | the dummy radius starts at 1 |
| Constants.RadiusSettings.SetDummyRadius | source/core/constants/Constants.cpp:33-35 | `set_dummy_radius` stores the new radius |
| Constants.RadiusSettings.GetVdwRadius | source/core/constants/Constants.cpp:197-263 | the dummy's radius is the value last stored |
| Constants.GetAtomicGroup | source/core/constants/Constants.cpp:66-100 | zero hydrogens give `unknown`; a group is named exactly for C/N with 1-3 hydrogens and O/S with 1, and then stands for that element and count |
| Constants.GroupRoundTrip | source/core/constants/Constants.cpp:66-100 | every named group is reached from its own element and hydrogen count |
| Constants.GroupNamesDistinct | source/core/constants/Constants.cpp:332-345 | two groups print the same name iff they are the same group |
| PdbFormat.Cut | source/core/io/pdb/PDBAtom.cpp:77-84 | a run of fixed-width conversions hands over one piece per width, each exactly that wide |
| PdbFormat.ConcatCut | source/core/io/pdb/PDBAtom.cpp:77-84 | the pieces put back together are exactly the first Total(widths) characters of the line |
| PdbFormat.CutConcat | source/core/io/pdb/PDBAtom.cpp:77-84 | cutting pieces of the right widths back out of their concatenation returns the same pieces, whatever follows |
| PdbFormat.WidthsCoverLine | source/core/io/pdb/PDBAtom.cpp:77 | the nineteen column widths of the record format add up to 80 |
| PdbFormat.Scan | source/core/io/pdb/PDBAtom.cpp:77-84 | scanning a line of at least 80 characters gives every column at its format width |
| PdbFormat.FlattenScan | source/core/io/pdb/PDBAtom.cpp:77-84 | the scanned columns, in order, are the first 80 characters of the line |
| PdbFormat.ScanFlatten | source/core/io/pdb/PDBAtom.cpp:77-84 | scanning undoes writing the columns back to back: well-sized columns make 80 characters that scan to the same columns |
| PdbFormat.ElementFromName | source/core/io/pdb/PDBAtom.cpp:120-127 | with a blank element column the element text is the name's first character, or its second when the first is a digit |
| PdbFormat.StagedOverwrites | source/core/io/pdb/PDBAtom.cpp:109-131 | a successful decoding assigns every field, so its result does not depend on the atom's earlier contents |
| PdbFormat.StagedFailure | source/core/io/pdb/PDBAtom.cpp:86-89 | a decoding fails with the record-name error iff the record name is not ATOM/HETATM; errors before the first assignment leave the atom unchanged; later ones have already stored serial and name; the charge is never touched by a failure |
| PdbFormat.StagedFields | source/core/io/pdb/PDBAtom.cpp:86-131 | on success the record name is ATOM/HETATM, serial and resSeq are stoi of their de-blanked columns, the name is column 12 plus columns 13-16 without blanks, altLoc/iCode/charge/chainID keep their blanks, occupancy/tempFactor default to 1/0, and the element comes from its column or the name |
| PdbFormat.StagedElement | source/core/io/pdb/PDBAtom.cpp:120-129 | a decoded atom never holds the unknown or the dummy element |
| PdbFormat.StagedDefaults | source/core/io/pdb/PDBAtom.cpp:118-119 | blank occupancy and temperature-factor columns read as 1 and 0 |
| PdbFormat.AsPdbLayout | source/core/io/pdb/PDBAtom.cpp:155-182 | when every field fits its column, `as_pdb` writes 80 columns in the record order, record name first, then a newline |
| PdbFormat.LineOf | source/core/io/pdb/PDBAtom.cpp:155-182 | well-sized columns and a newline make an 81-character line whose first six characters are the record name |
| PdbFormat.SymbolShape | source/core/io/pdb/PDBAtom.cpp:177 | every element symbol written has one or two characters and no blank or line break |
| PdbFormat.StripPadded | source/core/io/pdb/PDBAtom.cpp:91-101 | removing blanks undoes the left or right padding of a blank-free text (also lines 161-178) |
| PdbFormat.RoundTrip | source/core/io/pdb/PDBAtom.cpp:53-182 | writing a plain, fitting atom and reading the line back gives the same atom, with altLoc, iCode and charge padded to their widths |
| PdbFormat.ReadLine | source/core/io/pdb/PDBAtom.cpp:54-70 | fitting a written line to 80 columns and scanning it gives back its columns |
| PdbFormat.ColumnsRead | source/core/io/pdb/PDBAtom.cpp:91-131 | decoding written columns succeeds and every conversion gives back the value written |
| PdbFormat.NameRead | source/core/io/pdb/PDBAtom.cpp:93 | the name written after two blanks and left-aligned to three columns reads back as the same name (also line 163) |
| PdbFormat.XValueRead | source/core/io/pdb/PDBAtom.cpp:105-117 | an x text that starts with a digit or '-' survives the first-character rule and reads back as its value |
| Numbers.IntRoundTrip | source/core/io/pdb/PDBAtom.cpp:111 | printing an int and reading it back with stoi gives the same int, as the serial and resSeq columns rely on (also lines 116, 162, 169) |
| AtomRecords.EqualsContentMeans | source/core/io/pdb/PDBAtom.cpp:245-338 | `equals_content` holds iff every record field and the effective charge agree |
| AtomRecords.IdentityAndContent | source/core/io/pdb/PDBAtom.cpp:237-239 | changing only the identifier keeps content equality and breaks `operator==` unless the identifier is the same; changing only the content keeps `operator==` and keeps content equality only for the same content (also lines 245-338) |
| AtomRecords.EqualsContentEquivalence | source/core/data/record/Atom.cpp:282-375 | `equals_content` is reflexive, symmetric and transitive |
| AtomRecords.LessOrder | source/core/io/pdb/PDBAtom.cpp:233-235 | `operator<` is irreflexive and transitive, and two atoms are unordered iff their serials are equal |
| AtomRecords.EqualContentUnordered | source/core/data/record/Atom.cpp:270-272 | content-equal atoms are not ordered before one another (also lines 282-375) |
| AtomRecords.LegacyFitted | source/core/data/record/Atom.cpp:56-73 | the legacy reader hands the scan a line of 80 or 81 characters |
| AtomRecords.ScanPrefix | source/core/data/record/Atom.cpp:78-84 | the column scan reads only the first 80 characters |
| AtomRecords.LegacySameColumns | source/core/data/record/Atom.cpp:56-84 | the legacy 81-character padding and the current 80-character fitting give the scan the same columns for every line |
| AtomRecords.LegacyStaged | source/core/data/record/Atom.cpp:86-140 | the legacy decoding has the same fields and errors as the current one |
| AtomRecords.LegacyRecordName | source/core/data/record/Atom.cpp:90-92 | the legacy reader stores the scanned record name on every success, and a non-ATOM/HETATM line raises the record-name error without changing the stored name (also lines 114, 234) |
| AtomRecords.StagedFailureOrFields | source/core/io/pdb/PDBAtom.cpp:86-131 | a successful decoding has an ATOM/HETATM record name and an x text, and a wrong record name fails before any field changes |
| AtomRecords.Read | source/core/io/pdb/PDBAtom.cpp:53-131 | the current reader's decoding of one line is the scan of the line fitted to 80 columns |
| AtomRecords.LegacyRead | source/core/data/record/Atom.cpp:55-140 | the legacy reader's decoding of one line is the scan of the line fitted its own way |
| AtomRecords.UidCounter.Take | source/core/io/pdb/PDBAtom.cpp:22 | each object takes the counter's current value and increments it |
| AtomRecords.PdbAtom.Blank | source/core/io/pdb/PDBAtom.cpp:22 | the default constructor gives the member defaults and the next identifier |
| AtomRecords.PdbAtom.Make | source/core/io/pdb/PDBAtom.cpp:34-51 | the field constructor stores the fields with the nuclear charge as effective charge, and fails exactly when the element has no nuclear charge |
| AtomRecords.PdbAtom.Place | source/core/io/pdb/PDBAtom.cpp:24-32 | the five-field constructor sets coordinates, occupancy, element, residue name and serial over the defaults, with the nuclear charge |
| AtomRecords.PdbAtom.RecName | source/core/io/pdb/PDBAtom.cpp:184 | this class always reports an ATOM/HETATM record name six characters long |
| AtomRecords.PdbAtom.ParsePdb | source/core/io/pdb/PDBAtom.cpp:53-139 | `parse_pdb` stores the decoded fields; on success the effective charge becomes the nuclear charge and the group is reset; the identifier never changes |
| AtomRecords.PdbAtom.SetElement | source/core/io/pdb/PDBAtom.cpp:190-193 | `set_element` replaces the element and nothing else |
| AtomRecords.PdbAtom.SetElementText | source/core/io/pdb/PDBAtom.cpp:195-197 | an unknown symbol fails and changes nothing; a known one stores its element |
| AtomRecords.PdbAtom.AddImplicitHydrogens | source/core/io/pdb/PDBAtom.cpp:141-152 | for a non-hydrogen atom, the effective charge and group become what the tables give, or an `invalid_argument` error; content and identifier are unchanged |
| AtomRecords.NuclearTable | source/core/constants/Constants.cpp:102-168 | the nuclear charge as a lookup table: defined and equal exactly where the nuclear charge is |
| AtomRecords.ImplicitHydrogens | source/core/io/pdb/PDBAtom.cpp:141-152 | succeeds iff the charge, hydrogen and group lookups all succeed, and then the charge is the nuclear charge plus the hydrogen count; a failure keeps the group |
| AtomRecords.HydrogensAddToCharge | source/core/data/record/Atom.cpp:144-156 | a successful call raises the charge by exactly the table's non-negative hydrogen count |
| AtomRecords.LegacyAtom.Blank | source/core/data/record/Atom.cpp:24 | the default constructor gives the member defaults, an empty record name and the next identifier |
| AtomRecords.LegacyAtom.Make | source/core/data/record/Atom.cpp:36-53 | the field constructor takes two identifiers and keeps the second, stores the fields with the table charge, and fails exactly when the element has no charge |
| AtomRecords.LegacyAtom.Place | source/core/data/record/Atom.cpp:26-34 | the five-field constructor sets its fields over the defaults with the table charge |
| AtomRecords.LegacyAtom.ParsePdb | source/core/data/record/Atom.cpp:55-142 | legacy `parse_pdb` stores the decoded fields and the scanned record name; the effective charge becomes the table charge on success |
| AtomRecords.LegacyAtom.SetElement | source/core/data/record/Atom.cpp:210-213 | `set_element` replaces the element and nothing else |
| AtomRecords.LegacyAtom.AddImplicitHydrogens | source/core/data/record/Atom.cpp:144-156 | as for the current record, with the older charge table |
| AtomRecords.ReadersAgree | source/core/data/record/Atom.cpp:55-142 | the two readers decode every line to the same fields and the same error |
| CifReader.LabelMap | source/core/io/detail/structure/CIFReader.cpp:28-34 | `get_label_map` has a key exactly for each label, maps it to a position holding that label, and no later position holds it (a repeated label keeps its last position) |
| CifReader.GetLabelMap | source/core/io/detail/structure/CIFReader.cpp:28-34 | the loop of `get_label_map` builds exactly that map |
| CifReader.LabelMapUnique | source/core/io/detail/structure/CIFReader.cpp:28-34 | a label listed once maps to its only position |
| CifReader.NextLine | source/core/io/detail/structure/CIFReader.cpp:388 | `getline` on the file text either yields the characters from the position up to the next line break or the end of the text and moves past that break, strictly forward, or, at the end or on a failed stream, fails without moving, and the failure sticks (also line 450) |
| CifReader.LineEnd | source/core/io/detail/structure/CIFReader.cpp:388 | a line ends at the first line break from its start on, or at the end of the text |
| CifReader.LineStream.Getline | source/core/io/detail/structure/CIFReader.cpp:388 | the stream's `getline` scans for the line break and moves the position exactly as `NextLine` says (also line 450) |
| CifReader.LineStream.Seek | source/core/io/detail/structure/CIFReader.cpp:377 | `seekg(-n, cur)` moves the position back `n` characters; a failed stream ignores it, and a move before the start of the text fails the stream (also line 453) |
| CifReader.BackUndoesRead | source/core/io/detail/structure/CIFReader.cpp:364-377 | moving back by the length of the line just read and one returns the stream to the start of that line when a line break ended it |
| CifReader.Row | source/core/io/detail/structure/CIFReader.cpp:404-447 | a data row after quote merging has exactly one value per label; an unterminated quote and a wrong count are errors |
| CifReader.Scan | source/core/io/detail/structure/CIFReader.cpp:397-450 | the data loop keeps the rows it was given and adds only rows with one value per label |
| CifReader.Rows | source/core/io/detail/structure/CIFReader.cpp:397-453 | the data phase, which is the loop followed by one `seekg` back, keeps the rows it was given and adds only rows with one value per label |
| CifReader.RowsBeforeLoop | source/core/io/detail/structure/CIFReader.cpp:397-453 | a plain data row followed by a `loop_` line ends the loop with that row added, and the stream then moves back from after the `loop_` line by the length of the data row and one, not by the `loop_` line's own length |
| CifReader.ScanBeforeLoop | source/core/io/detail/structure/CIFReader.cpp:397-450 | a plain data row followed by a `loop_` line ends the data loop with that row added, the stream after the `loop_` line, and the row as the line to move back by |
| CifReader.RowsOfScan | source/core/io/detail/structure/CIFReader.cpp:450-453 | the data phase ends with the rows of the loop and the stream moved back by the length of the line the loop ended on and one |
| CifReader.LoopStopLandsInRow | source/core/io/detail/structure/CIFReader.cpp:450-453 | with the text "_x.a", "ab", "loop_", the section is one label `a` with the row `ab`, and the stream ends three characters into the `loop_` line, where the next read gives "p_", instead of at the start of that line |
| CifReader.LabelPass | source/core/io/detail/structure/CIFReader.cpp:364-386 | one line of the label phase stops it with inline data whenever a foreign label stops it, and otherwise adds at most one label |
| CifReader.Labels | source/core/io/detail/structure/CIFReader.cpp:361-388 | the label phase ends on a foreign label only when inline data was collected (otherwise it is an error) |
| CifReader.ExtractRows | source/core/io/detail/structure/CIFReader.cpp:355-456 | an extracted section has the collected labels; every data row after the first has one value per label, and so has the first unless it holds the inline label values; an empty inline row is dropped; a foreign label gives exactly the inline row |
| CifReader.RowOfWords | source/core/io/detail/structure/CIFReader.cpp:404-447 | a line of plain words is a row of exactly those words when there is one per label, and a wrong-arity error otherwise |
| CifReader.ExtractSection | source/core/io/detail/structure/CIFReader.cpp:355-456 | `extract_section` over the file text gives the section, the error and the final stream position that `Extract` gives, including the move back after a foreign label and after the data loop |
| CifReader.ReadLabels | source/core/io/detail/structure/CIFReader.cpp:361-389 | the label loop returns what `Labels` says and leaves the stream where it says |
| CifReader.ReadLabelLine | source/core/io/detail/structure/CIFReader.cpp:364-386 | one pass of the label loop before its `getline` stops exactly when `LabelPass` stops, with its result and stream position, and otherwise leaves the stream alone and has the labels `LabelPass` gives |
| CifReader.ReadLabel | source/core/io/detail/structure/CIFReader.cpp:367-383 | the same for a line that starts with '_': a foreign label, a label too short for the pattern, or a label of the section |
| CifReader.ScanRows | source/core/io/detail/structure/CIFReader.cpp:397-450 | the data loop returns the rows and the line it ends on that `Scan` gives, and leaves the stream where `Scan` says |
| CifReader.ReadRows | source/core/io/detail/structure/CIFReader.cpp:397-453 | the data phase returns what `Rows` says and leaves the stream where it says, after one `seekg` back by the length of the line the loop ended on and one |
| CifReader.ReadRow | source/core/io/detail/structure/CIFReader.cpp:404-447 | splitting a data line, merging its quotes and checking its arity gives exactly what `Row` specifies |
| CifReader.Unquoted | source/core/io/detail/structure/CIFReader.cpp:408-411 | a token quoted at both ends loses exactly its first and last characters; an unquoted token is kept |
| CifReader.MergedFrom | source/core/io/detail/structure/CIFReader.cpp:404-439 | quote merging never produces more values than tokens |
| CifReader.MergeQuotes | source/core/io/detail/structure/CIFReader.cpp:404-439 | the in-place compaction loop over `values` computes the merge that `MergedFrom` specifies, failing exactly where it fails |
| CifReader.MergedPlain | source/core/io/detail/structure/CIFReader.cpp:404-439 | tokens without opening quotes are their own values |
| CifReader.MergedQuotedRun | source/core/io/detail/structure/CIFReader.cpp:412-431 | a value quoted over several blank-separated words merges back into those words joined by single blanks, whatever follows |
| CifReader.ParseIon | source/core/io/detail/structure/CIFReader.cpp:37-56 | `parse_ion` fails for a row count other than one, for a missing `comp_id` or `charge` label, an unknown element or a non-integer charge, and otherwise gives one ion atom named by `comp_id` with that signed charge and element; it asks only that the two cells it reads exist |
| CifReader.AtomColumnsOf | source/core/io/detail/structure/CIFReader.cpp:63-75 | the column lookup succeeds iff `comp_id`, `atom_id` and `type_symbol` are labels, fails with the missing-labels error when `comp_id` or `atom_id` is absent, and `alt_atom_id` falls back to `atom_id` |
| CifReader.Alias | source/core/io/detail/structure/CIFReader.cpp:92-100 | the alias is the alternate name, or, when it equals the atom name, that name without a trailing '1' that follows a non-digit; a name longer than two characters ending in such a '1' always loses it |
| CifReader.AliasCases | source/core/io/detail/structure/CIFReader.cpp:92-100 | CD1 is aliased CD; HD11 and O1 are kept; an explicit alternate name is used as given |
| CifReader.GroupAt | source/core/io/detail/structure/CIFReader.cpp:78-108 | one residue is the whole run of rows with the current `comp_id`, its atoms named by their rows in order, and it is an ion exactly when the run has one row |
| CifReader.GroupsCoverRows | source/core/io/detail/structure/CIFReader.cpp:78-108 | every row becomes exactly one residue atom, in row order |
| CifReader.GroupsMaximal | source/core/io/detail/structure/CIFReader.cpp:78-108 | no residue is empty, neighbouring residues have different components, and the first residue is the first row's component |
| CifReader.IonsAreLoneRows | source/core/io/detail/structure/CIFReader.cpp:82-87 | a residue holds an ion atom iff it has exactly one atom |
| CifReader.ParseResidue | source/core/io/detail/structure/CIFReader.cpp:58-113 | `parse_residue` fails on an empty atom or bond section, and on success the bond section has its four labels and every residue name is mapped to its last residue position; it asks only that every atom row has the four columns it reads |
| CifReader.GroupRows | source/core/io/detail/structure/CIFReader.cpp:78-109 | the grouping loop computes exactly the residues `GroupsFrom` specifies |
| CifReader.ParseResidueSections | source/core/io/detail/structure/CIFReader.cpp:58-113 | `parse_residue` with its loops gives what `ParseResidue` specifies |
| CifReader.Shorten | source/core/io/detail/structure/CIFReader.cpp:278-280 | `shorten` keeps strings of at most seven characters and cuts longer ones to their first seven |
| CifReader.ShortenPrefix | source/core/io/detail/structure/CIFReader.cpp:278-280 | the shortened text is a prefix of at most seven characters, and shortening twice is shortening once |
| CifReader.RouteAtoms | source/core/io/detail/structure/CIFReader.cpp:322-336 | the routing loop sends each atom to the atoms, the waters or the discarded count as `RouteOf` says |
| CifReader.RoutedPartition | source/core/io/detail/structure/CIFReader.cpp:328-335 | every atom goes to exactly one place; waters are water and atoms are not; no hydrogen survives unless hydrogens are kept, and keeping them discards nothing |
| PlotHelper.KeyOf | scripts/plot_helper.py:58-126 | a key found for a word is the key of that name |
| PlotHelper.KeyOfName | scripts/plot_helper.py:58-126 | every option key is found under its own name |
| PlotHelper.KeyOfNone | scripts/plot_helper.py:58-126 | a word names no key exactly when the lookup fails |
| PlotHelper.KeyNotComment | scripts/plot_helper.py:59-64 | no key name is empty or starts with '#', so comment lines never set an option |
| PlotHelper.ParseNoOp | scripts/plot_helper.py:59-64 | a line with fewer than two words, or whose first word starts with '#', leaves the options unchanged |
| PlotHelper.ParseUnknownExits | scripts/plot_helper.py:124-126 | any other line exits exactly when its first word names no key, with the invalid-option message naming that word |
| PlotHelper.ParseKnown | scripts/plot_helper.py:65-123 | a line whose first word is a key's name applies that key |
| PlotHelper.PutTextSets | scripts/plot_helper.py:88-97 | storing a text option changes that option and no other text option |
| PlotHelper.ParseLabel | scripts/plot_helper.py:88-97 | the label keys (title, labels, legend) store every word after the key joined by single blanks, so splitting the stored label gives those words back |
| PlotHelper.ParseReadsOneValue | scripts/plot_helper.py:65-123 | the other keys read only the word after the key: what follows it does not matter |
| PlotHelper.ParseLimits | scripts/plot_helper.py:100-107 | `xlimits`/`ylimits` need two bounds; textually identical bounds leave the range unchanged; otherwise both must be floats and become the two-element range |
| PlotHelper.Options.ParseOption | scripts/plot_helper.py:58-126 | on success the fields become the parsed settings; on a failure nothing is assigned |
| PlotHelper.LineFile.ReadLine | scripts/plot_helper.py:154-175 | `readline()` gives the next line and moves one line on, or nothing at the end of the file, where the position stays |
| PlotHelper.SectionEndIs | scripts/plot_helper.py:154-162 | a section ends just after the first blank line at or after the start, or at the end of the file |
| PlotHelper.OptionsConsumeSection | scripts/plot_helper.py:143-162 | `read_options` reads up to and including the first line that is empty after `rstrip` |
| PlotHelper.OptionsLocal | scripts/plot_helper.py:143-162 | the lines after that blank line are never looked at |
| PlotHelper.ReadOptions | scripts/plot_helper.py:143-162 | `read_options` returns, at the position, the options `OptionsFrom` specifies starting from the defaults |
| PlotHelper.Floats | scripts/plot_helper.py:175-187 | one float per word of a data line, or a failure when a word is not a float |
| PlotHelper.SectionItems | scripts/plot_helper.py:175-187 | the rows are the section's lines parsed one by one, and the reading stops just after the first blank line |
| PlotHelper.SectionRejects | scripts/plot_helper.py:175-187 | a line of the section that does not parse makes the whole section fail |
| PlotHelper.RowsRejectWord | scripts/plot_helper.py:175-187 | a word that is not a float on a data line of the section ends the program |
| PlotHelper.ReadSection | scripts/plot_helper.py:175-187 | the `while (line := file.readline())` row loop returns what `SectionFrom` specifies |
| PlotHelper.RescaleByFactor | scripts/plot_helper.py:191-206 | every row has columns 1 and 2 scaled by one common factor; with `normalize` set `stagger` is reset to 1, otherwise the options are kept |
| PlotHelper.NormalizeFirst | scripts/plot_helper.py:191-200 | with `normalize` set, the first row's value becomes `normalize` times the `stagger` read, when it was not zero |
| PlotHelper.ScaleRows | scripts/plot_helper.py:191-206 | the in-place scaling loop over the rows computes `Scaled` |
| PlotHelper.ReadDataset | scripts/plot_helper.py:164-208 | `read_dataset` returns the rows read, then the options, then the scaling, as `DatasetFrom` specifies |
| PlotHelper.MarkerReadsValue | scripts/plot_helper.py:210-236 | a marker block reads its value from the first line, skips the second whatever it holds, then reads options; it fails exactly when the value or the options fail |
| PlotHelper.ReadMarker | scripts/plot_helper.py:210-236 | `read_hline`/`read_vline` return what `MarkerFrom` specifies |
| PlotHelper.AxisValuesSpan | scripts/plot_helper.py:249-261 | a positive bin count gives exactly that many evenly spaced values from the minimum, one step apart, the step after the last landing on the maximum |
| PlotHelper.AxisLoop | scripts/plot_helper.py:249-261 | the `for i in range(n)` loop appends exactly the axis values |
| PlotHelper.ImageAxes | scripts/plot_helper.py:238-274 | the axes of a read histogram have as many values as their headers say, and a zero count on either axis is a division by zero |
| PlotHelper.Read2DHist | scripts/plot_helper.py:238-274 | `read_2dhist` returns what `ImageFrom` specifies |
| PlotHelper.AdjustedColumns | scripts/plot_helper.py:286-290 | every drawn series is the dataset with column 1 divided by `dof` (when set) and column 0 shifted by `xshift`, every other entry unchanged |
| PlotHelper.ErrorBarColumns | scripts/plot_helper.py:292-306 | drawing error bars with fewer than three columns exits, and drawn error bars mean at least three columns and no separate markers |
| PlotHelper.DatasetAxes | scripts/plot_helper.py:325-339 | a plotted dataset sets up the title, labels, limits and scales exactly when `first_plot` holds |
| PlotHelper.Figure.DrawDataset | scripts/plot_helper.py:277-342 | `plot_dataset` appends its draw events and clears `first_plot` |
| PlotHelper.DetermineTypeIs | scripts/plot_helper.py:15-23 | `determine_type` gives a type exactly for the line equal to its name, and `Invalid` for every other line (also lines 424-428) |
| PlotHelper.StepAxes | scripts/plot_helper.py:437-477 | one block sets up the axes at most once, only while `first_plot` holds, and clears it when it does |
| PlotHelper.AxesAtMostOnce | scripts/plot_helper.py:430-477 | in one file the axes are set up at most once, by the first plotted dataset or histogram |
| PlotHelper.InvalidHeaderExits | scripts/plot_helper.py:475-477 | a line that names no block type, a blank line included, ends the program with the invalid-type message |
| PlotHelper.EmptyDatasetSkipped | scripts/plot_helper.py:438-448 | an empty dataset is reported under its title, else its legend, else "(unnammed)", and skipped without touching `first_plot` |
| PlotHelper.Figure.PlotFile | scripts/plot_helper.py:417-487 | `plot_file` resets `first_plot`, then produces the events of every block in turn, as `PlotFrom` specifies |
| PlotHelper.Figure.Block | scripts/plot_helper.py:437-477 | one block after a header line produces exactly the events, position and `first_plot` that `Step` specifies |
| GridParts.Cubic | source/grid/Grid.cpp:77-92 | the cubic setup copies a strictly longest axis to the other two and otherwise keeps the axes |
| GridParts.CubicIdempotent | source/grid/Grid.cpp:77-92 | making the axes cubic twice is making them cubic once |
| GridParts.Setup | source/grid/Grid.cpp:75-125 | the setup allocates at most 32e9 cells or fails with the size error (exactly when the cubic axes exceed it, without the minimum); with `min_bins` every axis has at least that many bins; a strictly longest axis that already has them is copied |
| GridParts.Round | source/grid/Grid.cpp:605-610 | rounding half away from zero lands within one half of its argument |
| GridParts.ToBinsBounded | source/grid/Grid.cpp:612-618 | `to_bins_bounded` lies in [0, bins-1] on each axis, equals the bin when that is inside, and clamps to the nearer end otherwise |
| GridParts.CoordStep | source/grid/Grid.cpp:748-753 | neighbouring bins are exactly one cell width apart in `to_xyz` |
| GridParts.BinOfCoord | source/grid/Grid.cpp:605-610 | the coordinate of a bin falls back into that bin (also lines 748-753) |
| GridParts.XyzRoundTrip | source/grid/Grid.cpp:605-610 | `to_bins(to_xyz(l)) == l` (also lines 748-753) |
| GridParts.KeptTo | source/grid/Grid.cpp:455-497 | the survivors of a uid filter are members whose uid is not removed, and every such member survives |
| GridParts.TakenTo | source/grid/Grid.cpp:455-497 | the removed members are exactly those whose uid is removed, and together with the survivors they account for every member |
| GridParts.MaskMapMarks | source/grid/Grid.cpp:457-469 | with distinct uids the map built from the mask gives each member its own mask entry and holds no other uid |
| GridParts.KeptByMask | source/grid/Grid.cpp:471-484 | filtering by the marked uids keeps exactly the unmasked members, in order |
| GridParts.TakenByMask | source/grid/Grid.cpp:471-484 | filtering by the marked uids removes exactly the masked members, in order |
| GridParts.MaskRemoval | source/grid/Grid.cpp:455-497 | `remove(vector<bool>)` keeps the unmasked atoms in order, removes the masked ones, and removes as many as the mask has set entries |
| GridParts.MarkMask | source/grid/Grid.cpp:457-469 | the marking loop builds that map and counts the set entries |
| GridParts.MinTo | source/grid/Grid.cpp:135-150 | the running lower bound is at most every bin seen |
| GridParts.MaxTo | source/grid/Grid.cpp:135-150 | the corrected running upper bound is strictly above every bin seen |
| GridParts.MaxWithin | source/grid/Grid.cpp:135-150 | with every member inside the grid the corrected upper bound is at most the bin count |
| GridParts.MinWithin | source/grid/Grid.cpp:135-150 | with every member inside the grid the lower bound is not negative |
| GridParts.BoundingBoxIndexAsWritten | source/grid/Grid.cpp:135-150 | as written: `invalid_operation` for no atoms, otherwise the lower bounds and the upper bound that rises only past a bin strictly above it |
| GridParts.BoundingBoxMissesLast | source/grid/Grid.cpp:145-146 | as-written counterexample: atoms in bins 3 and 4 leave the upper bound at 4, so the second atom is not below it |
| GridParts.BoundingBoxIndex | source/grid/Grid.cpp:135-150 | corrected `bounding_box_index`: fails exactly when there are no atoms, otherwise min <= loc < max for every atom, inside the grid |
| GridParts.Find | source/grid/Grid.cpp:499-524 | `std::find` gives the first member with the uid, or nothing when none has it |
| GridParts.TakenAll | source/grid/Grid.cpp:593-599 | filtering by every uid removes every member and keeps none |
| Voxels.Clip | source/grid/Grid.cpp:218-227 | the clipped box holds exactly the cells inside the grid within the reach of the centre on every axis |
| Voxels.ClipNested | source/grid/Grid.cpp:218-227 | boxes around one centre are nested as their reaches are (also lines 302-311) |
| Voxels.CountedChanges | source/grid/Grid.cpp:258-285 | the water and deflation loops count exactly the cells they change (also lines 332-361) |
| Voxels.FillCounts | source/grid/Grid.cpp:228-252 | the atom expansion counts exactly the empty cells it fills; volume cells turned into atom area are not counted |
| Voxels.ApplyIdempotent | source/grid/Grid.cpp:214-361 | applying a cell rule twice is applying it once |
| Voxels.Sweep | source/grid/Grid.cpp:218-252 | the triple loop over a box changes the box's cells by the rule and no other cell, and returns how many the rule counted |
| Voxels.Copy | source/grid/Grid.cpp:625-633 | the copied cell array holds the same cells |
| Voxels.SweepsUndo | source/grid/Grid.cpp:214-330 | a sweep is undone by a second sweep that reverses it on every cell over a box containing the first |
| Voxels.SweepsUndoCount | source/grid/Grid.cpp:214-330 | that second sweep counts exactly the cells the first counted |
| Voxels.PaintReversed | source/grid/Grid.cpp:258-285 | the water deflation undoes the water expansion on every cell that did not already hold water area within the radius (also lines 332-361) |
| VoxelGrid.FillReversed | source/grid/Grid.cpp:228-252 | on a cell clear within the deflation radius the atom deflation undoes the atom expansion (also lines 310-326) |
| VoxelGrid.AtomReverses | source/grid/Grid.cpp:214-330 | around an untouched atom the deflation box contains the expansion box and reverses it cell by cell |
| VoxelGrid.ExpandThenDeflate | source/grid/Grid.cpp:214-330 | deflating an atom right after expanding it restores the cells, when no other member expanded into its neighbourhood |
| VoxelGrid.ExpandThenDeflateVolume | source/grid/Grid.cpp:214-330 | that deflation removes exactly the volume the expansion added |
| VoxelGrid.AddThenRemove | source/grid/Grid.cpp:409-430 | adding an unexpanded atom to an empty cell and removing it again restores cells and volume (also lines 455-497) |
| VoxelGrid.ExpandCensus | source/grid/Grid.cpp:228-252 | one atom's expansion raises the number of atom-area and volume cells by exactly the count it adds to the volume |
| VoxelGrid.DeflateCensus | source/grid/Grid.cpp:310-326 | one atom's deflation lowers that number by exactly the count it subtracts from the volume |
| VoxelGrid.WaterCensus | source/grid/Grid.cpp:258-285 | a water's expansion and deflation leave that number alone (also lines 332-361) |
| VoxelGrid.ExpandPhase | source/grid/Grid.cpp:203-207 | expanding the first n atoms keeps the volume less that number, and every changed cell was empty and is now atom area or volume near one of the atoms |
| VoxelGrid.WaterExpandPhase | source/grid/Grid.cpp:209-211 | expanding the first n waters keeps that number, and every cell they change was empty and is now water area near one of them |
| VoxelGrid.DeflatePhase | source/grid/Grid.cpp:287-291 | deflating the first n expanded atoms keeps the volume less that number and empties every cell owed only to those atoms |
| VoxelGrid.WaterDeflatePhase | source/grid/Grid.cpp:293-295 | deflating the first n expanded waters keeps that number and empties every cell owed only to those waters |
| VoxelGrid.Settled | source/grid/Grid.cpp:287-296 | once every member has been deflated no changed cell is left: the cells are the original ones |
| VoxelGrid.VolumeRoundTrip | source/grid/Grid.cpp:203-212 | for any lists of atoms and waters over a grid holding only centres, `expand_volume()` followed by `deflate_volume()` restores every cell and the volume, however the members' spheres overlap; this is the state test/hydrate/grid.cpp:677-708 checks (also lines 287-330) |
| VoxelGrid.Grid.constructor | source/grid/Grid.cpp:23-25 | a new grid has the given axes, no members, zero volume and only empty cells |
| VoxelGrid.Grid.ExpandAtom | source/grid/Grid.cpp:214-255 | `expand_volume(atom)` sweeps the atom's box as the fill rule says, adds the counted cells to the volume, marks the member expanded, and does nothing for an expanded atom |
| VoxelGrid.Grid.DeflateAtom | source/grid/Grid.cpp:298-330 | `deflate_volume(atom)` empties atom area and volume within the larger radius, subtracts their count, marks the member deflated, and does nothing for a deflated atom |
| VoxelGrid.Grid.ExpandWater | source/grid/Grid.cpp:258-285 | `expand_volume(water)` turns only empty cells into water area, leaving the volume alone |
| VoxelGrid.Grid.DeflateWater | source/grid/Grid.cpp:332-361 | `deflate_volume(water)` empties only the water area, leaving the volume alone |
| VoxelGrid.Grid.ExpandAtoms | source/grid/Grid.cpp:203-207 | the atom loop of `expand_volume()` expands every atom in order and marks them all expanded |
| VoxelGrid.Grid.ExpandWaters | source/grid/Grid.cpp:209-211 | the water loop of `expand_volume()` expands every water in order |
| VoxelGrid.Grid.ExpandVolume | source/grid/Grid.cpp:203-212 | `expand_volume()` expands every atom, then every water |
| VoxelGrid.Grid.DeflateAtoms | source/grid/Grid.cpp:287-291 | the atom loop of `deflate_volume()` deflates every atom in order |
| VoxelGrid.Grid.DeflateWaters | source/grid/Grid.cpp:293-295 | the water loop of `deflate_volume()` deflates every water in order |
| VoxelGrid.Grid.DeflateVolume | source/grid/Grid.cpp:287-296 | `deflate_volume()` deflates every atom, then every water |
| VoxelGrid.Grid.PlaceAtom | source/grid/Grid.cpp:413-425 | the atom's bin becomes an atom centre, and the volume grows by one exactly when the bin was empty |
| VoxelGrid.Grid.AddAtom | source/grid/Grid.cpp:409-430 | `add(Atom)` places the centre, expands on request and appends the member |
| VoxelGrid.Grid.AddWater | source/grid/Grid.cpp:432-453 | `add(Water)` makes the bin a water centre, expands on request, appends the member and leaves the volume unchanged |
| VoxelGrid.Grid.CleanAtom | source/grid/Grid.cpp:492-496 | the cleanup of one removed atom deflates it and empties its centre, lowering the volume as the removal kind says (also lines 552-557) |
| VoxelGrid.Grid.CleanAtoms | source/grid/Grid.cpp:492-496 | the cleanup loop cleans the removed atoms in order (also lines 552-557) |
| VoxelGrid.Grid.CleanWater | source/grid/Grid.cpp:587-590 | the cleanup of one removed water deflates it and empties its centre |
| VoxelGrid.Grid.CleanWaters | source/grid/Grid.cpp:587-590 | the cleanup loop cleans the removed waters in order |
| VoxelGrid.Grid.RemoveMask | source/grid/Grid.cpp:455-497 | `remove(vector<bool>)` keeps the unmasked atoms in order; a removed count that differs from the mask's is `invalid_operation` with the cells untouched; otherwise the removed atoms are cleaned with one volume decrement each |
| VoxelGrid.Grid.RemoveAtom | source/grid/Grid.cpp:499-511 | `remove(Atom)` is `invalid_operation` for a non-member and changes nothing; otherwise the first atom with the uid leaves the list and is cleaned up |
| VoxelGrid.Grid.RemoveWater | source/grid/Grid.cpp:513-524 | `remove(Water)` is `invalid_operation` for a non-member; otherwise the first water with the uid leaves the list and is cleaned up |
| VoxelGrid.Grid.RemoveAtoms | source/grid/Grid.cpp:526-559 | `remove(vector<Atom>)` keeps the unlisted atoms; a count mismatch is `unexpected`; otherwise the volume drops only for centres still holding an atom centre |
| VoxelGrid.Grid.RemoveWaters | source/grid/Grid.cpp:561-591 | `remove(vector<Water>)` keeps the unlisted waters; a count mismatch is `unexpected`; otherwise the removed waters are cleaned up |
| VoxelGrid.Grid.ClearWaters | source/grid/Grid.cpp:593-599 | `clear_waters` ends with no waters, every old water cleaned up in order, atoms and volume untouched |
| VoxelGrid.Grid.Assign | source/grid/Grid.cpp:625-633 | `operator=` copies the cells, members, volume and axes |
| CoreGrid.Entries | source/core/grid/Grid.cpp:251-275 | every particle becomes one unexpanded member in the bin nearest its coordinates, in order |
| CoreGrid.Grid.constructor | source/core/grid/Grid.cpp:24-26 | a new grid has the given axes, no members, no body offsets, zero volume and only empty cells |
| CoreGrid.Grid.Delegate | source/core/grid/Grid.cpp:187-219 | one call of the volume expander: the grid's cells and volume, and the member's flag, become what the expander gives |
| CoreGrid.Grid.PlaceAtom | source/core/grid/Grid.cpp:268-270 | an atom's bin becomes an atom centre, and the volume grows by one exactly when the bin was empty or water |
| CoreGrid.Grid.PlaceWater | source/core/grid/Grid.cpp:286-311 | `add_single_water` writes `W_CENTER` times "empty or volume" into the bin and leaves the volume unchanged |
| CoreGrid.Grid.AddWaters | source/core/grid/Grid.cpp:313-323 | `add(vector<Water>)` places every water in order, expands on request, and returns the old water count |
| CoreGrid.Grid.AddWater | source/core/grid/Grid.cpp:325-329 | `add(Water)` places one water, appends it and expands it on request |
| CoreGrid.Grid.AddAtoms | source/core/grid/Grid.cpp:251-275 | the atom loop of `add(Body)` places every atom in order, expanding on request |
| CoreGrid.Grid.AddBody | source/core/grid/Grid.cpp:242-284 | `add(Body)` records the body's start as the previous atom count, even for an empty body, which otherwise changes nothing; else its atoms are appended and then its waters added |
| CoreGrid.Grid.ClearAtom | source/core/grid/Grid.cpp:341-346 | one atom of a removed body is deflated, the volume drops when its centre was not empty, and the centre is emptied |
| CoreGrid.Grid.ShiftStarts | source/core/grid/Grid.cpp:352-357 | the removed body's offset is erased and every offset at or past the end moves down by the body's size |
| CoreGrid.Grid.RemoveBody | source/core/grid/Grid.cpp:331-358 | `remove(Body)` cleans up the body's atom range, erases it from the list and shifts the later offsets |
| CoreGrid.Grid.ClearWater | source/core/grid/Grid.cpp:232-236 | one removed water is deflated and its centre emptied |
| CoreGrid.Grid.RemoveWaters | source/core/grid/Grid.cpp:221-240 | `remove_waters(mask)`, with one mask entry per water, keeps exactly the unmasked waters in order and cleans up the masked ones |
| CoreGrid.Grid.ClearWaters | source/core/grid/Grid.cpp:360-366 | `clear_waters` cleans up every water and keeps none; atoms and offsets are unchanged |
| CoreGrid.Grid.VisitAtoms | source/core/grid/Grid.cpp:187-216 | one pass hands every atom to the expander in order |
| CoreGrid.Grid.VisitWaters | source/core/grid/Grid.cpp:193-218 | one pass hands every water to the expander in order |
| CoreGrid.Grid.VolumePass | source/core/grid/Grid.cpp:187-219 | `expand_volume`, `deflate_volume` and `force_expand_volume` hand every atom, then every water, to the expander |
| CoreGrid.Grid.GetVolume | source/core/grid/Grid.cpp:387-390 | `get_volume` expands, then returns the volume count times the cube of the cell width |
| CoreGrid.Grid.Assign | source/core/grid/Grid.cpp:392-400 | `operator=` copies the cells, members, volume, axes and body offsets |
| CoreGrid.AddedMembers | source/core/grid/Grid.cpp:242-284 | adding keeps the old members, appends one member per particle in order, and without expansion appends them unchanged (also lines 313-323) |
| CoreGrid.AtomsPlaced | source/core/grid/Grid.cpp:269-271 | added atoms' bins hold atom centres, every other bin is untouched, and the volume grows by at most one per atom |
| CoreGrid.WatersPlaced | source/core/grid/Grid.cpp:309-323 | waters added without expansion never change the volume and touch no bin they do not land on |
| CoreGrid.WaterCentreCases | source/core/grid/Grid.cpp:307 | a water's bin becomes a water centre exactly when it was empty or volume, and is emptied otherwise |
| CoreGrid.PlaceThenClear | source/core/grid/Grid.cpp:269-271 | placing an atom in an empty bin and clearing it with an expander that does not touch it restores cells and volume (also lines 341-346) |
| CoreGrid.PlaceStep | source/core/grid/Grid.cpp:268-270 | placing one atom of a body keeps the volume less the number of atom centres, and every changed bin was empty and is now the centre of one of the body's atoms |
| CoreGrid.ClearStep | source/core/grid/Grid.cpp:341-346 | clearing one unexpanded atom keeps that balance and pays off its centre, even when a later atom shares the bin |
| CoreGrid.PlacePhase | source/core/grid/Grid.cpp:257-275 | placing the first n atoms of a body keeps that balance and owes every changed bin to one of them |
| CoreGrid.ClearPhase | source/core/grid/Grid.cpp:339-347 | clearing the first n atoms keeps that balance and leaves only bins owed to the later atoms |
| CoreGrid.BodyRoundTrip | source/core/grid/Grid.cpp:242-284 | adding a body's atoms without expansion to empty bins and removing them again restores every bin and the volume, even when several atoms share a bin, for an expander that leaves unexpanded members alone (also lines 331-347) |
| CoreGrid.ShiftUndoesAdd | source/core/grid/Grid.cpp:243-244 | recording a new body's offset at the end and then removing it gives back the old offsets (also lines 352-357) |
| CoreGrid.EraseUndoesAdd | source/core/grid/Grid.cpp:251 | appending a body's atoms and erasing that range gives back the old atom list (also line 350) |
| CoreGrid.VisitedMembers | source/core/grid/Grid.cpp:187-219 | a pass only changes members' expansion flags: length, uids, bins and radii are kept |
| CoreGrid.RemoveNone | source/core/grid/Grid.cpp:221-240 | a removal with no mask entry set changes no cell and keeps every water |
| CoreGrid.RemoveAll | source/core/grid/Grid.cpp:221-240 | the removal with every mask entry set keeps no water, as `clear_waters` does (also lines 360-366) |
| HydrateGrid.BinRadius | source/hydrate/Grid.cpp:149-157 | the bin radius is the whole part of radius / width: it is non-negative and at most the quotient, which it misses by less than one |
| HydrateGrid.PaintsReverse | source/hydrate/Grid.cpp:209-263 | around a member with no cell of its own colour within the radius, each cell's deflation undoes its expansion (also lines 497-548) |
| HydrateGrid.AtomExpandThenDeflate | source/hydrate/Grid.cpp:209-237 | deflating an atom just after expanding it restores every cell when no atom area lay within its radius (also lines 497-523) |
| HydrateGrid.AtomExpandThenDeflateVolume | source/hydrate/Grid.cpp:230-236 | under the same condition the deflation removes exactly the volume the expansion added (also lines 514-522) |
| HydrateGrid.WaterExpandThenDeflate | source/hydrate/Grid.cpp:239-263 | deflating a water just after expanding it restores every cell when no water area lay within its radius (also lines 525-548) |
| HydrateGrid.AddThenRemove | source/hydrate/Grid.cpp:311-329 | adding an atom to an empty cell and removing it again restores cells and volume, when no atom area lay within its radius (also lines 393-405) |
| HydrateGrid.AddThenRemoveWater | source/hydrate/Grid.cpp:331-347 | adding a water to an empty cell and removing it again restores the cells, when no water area lay within its radius (also lines 407-418) |
| HydrateGrid.ExpandCensus | source/hydrate/Grid.cpp:209-237 | one atom's expansion raises the number of atom-area cells by exactly the count it adds to the volume |
| HydrateGrid.DeflateCensus | source/hydrate/Grid.cpp:497-523 | one atom's deflation lowers that number by exactly the count it subtracts |
| HydrateGrid.WaterCensus | source/hydrate/Grid.cpp:239-263 | a water's expansion and deflation leave that number alone (also lines 525-548) |
| HydrateGrid.CentreCensus | source/hydrate/Grid.cpp:320-323 | placing an atom's centre raises the volume by one more than it raises that number |
| HydrateGrid.EmptyCensus | source/hydrate/Grid.cpp:386-390 | emptying a deflated atom's centre leaves that number alone |
| HydrateGrid.AddPhase | source/hydrate/Grid.cpp:295-297 | adding the first n atoms to empty bins raises the volume less that number by n, and every changed cell is the centre of one of them or was empty and is now area within reach of one |
| HydrateGrid.ExpandPhase | source/hydrate/Grid.cpp:200-202 | expanding the first n atoms keeps the volume less that number and leaves every changed cell owed to an atom |
| HydrateGrid.WaterExpandPhase | source/hydrate/Grid.cpp:204-206 | expanding the first n waters keeps that number and leaves every changed cell owed to a water |
| HydrateGrid.DeflatePhase | source/hydrate/Grid.cpp:488-490 | deflating the first n expanded atoms keeps the volume less that number and empties every area cell owed only to them |
| HydrateGrid.WaterDeflatePhase | source/hydrate/Grid.cpp:492-494 | deflating the first n expanded waters keeps that number and empties every cell owed only to them |
| HydrateGrid.CleanPhase | source/hydrate/Grid.cpp:448-452 | cleaning up the first n expanded atoms lowers the volume less that number by n and empties their centres and the area owed only to them |
| HydrateGrid.Settled | source/hydrate/Grid.cpp:486-495 | once every member is deflated and every centre emptied no changed cell is left |
| HydrateGrid.VolumeRoundTrip | source/hydrate/Grid.cpp:198-207 | for any lists of atoms and waters over a grid holding only centres, `expand_volume()` followed by `deflate_volume()` restores every cell and the volume, however the members overlap (also lines 486-495) |
| HydrateGrid.AddThenRemoveAll | source/hydrate/Grid.cpp:291-307 | adding any list of atoms to empty bins, with or without expansion, expanding the rest as `get_volume` does, and removing them all again restores the cells and the volume, even when atoms share a bin; test/body.cpp:354-366 checks this (also lines 311-329, 420-453, 569-572) |
| HydrateGrid.Grid.constructor | source/hydrate/Grid.cpp:63-99 | a new grid has the given axes, no members, zero volume, zero radii and only empty cells |
| HydrateGrid.Grid.SetRadiusAtoms | source/hydrate/Grid.cpp:148-154 | the atom radius becomes the bin radius, and the warning is raised exactly when a different non-zero radius was set before |
| HydrateGrid.Grid.SetRadiusWater | source/hydrate/Grid.cpp:156-162 | the same for the water radius |
| HydrateGrid.Grid.ExpandAtom | source/hydrate/Grid.cpp:209-237 | an unexpanded atom paints the empty cells within its radius as atom area and adds their count to the volume; an expanded one changes nothing; the copy returned is marked expanded |
| HydrateGrid.Grid.DeflateAtom | source/hydrate/Grid.cpp:497-523 | an expanded atom empties the atom-area cells within its radius and subtracts their count; an unexpanded one changes nothing; the copy returned is marked deflated |
| HydrateGrid.Grid.ExpandWater | source/hydrate/Grid.cpp:239-263 | an unexpanded water paints the empty cells within its radius as water area and leaves the volume alone |
| HydrateGrid.Grid.DeflateWater | source/hydrate/Grid.cpp:525-548 | an expanded water empties the water-area cells within its radius |
| HydrateGrid.Grid.ExpandAtoms | source/hydrate/Grid.cpp:200-202 | every atom in order is expanded and marked |
| HydrateGrid.Grid.ExpandWaters | source/hydrate/Grid.cpp:204-206 | every water in order is expanded and marked |
| HydrateGrid.Grid.ExpandVolume | source/hydrate/Grid.cpp:198-207 | `expand_volume()` expands every atom, then every water, and marks them all |
| HydrateGrid.Grid.DeflateAtoms | source/hydrate/Grid.cpp:488-490 | every atom in order is deflated and unmarked |
| HydrateGrid.Grid.DeflateVolume | source/hydrate/Grid.cpp:486-495 | `deflate_volume()` deflates every atom, then every water, and unmarks them all |
| HydrateGrid.Grid.AddAtom | source/hydrate/Grid.cpp:311-329 | an atom whose nearest bin lies outside the grid is an out-of-bounds error that changes nothing; otherwise the volume grows unless the bin was atom area, the bin becomes an atom centre, the atom is expanded on request and appended |
| HydrateGrid.Grid.PlaceAtom | source/hydrate/Grid.cpp:320-326 | the part of `add(Atom)` after the bounds check appends the member and leaves the state the one-atom addition gives |
| HydrateGrid.Grid.PlaceAtomAt | source/hydrate/Grid.cpp:296 | one pass of the `add(vector<Atom>)` loop moves the state one step along the list's addition run and appends the atom |
| HydrateGrid.Grid.PlaceAtoms | source/hydrate/Grid.cpp:291-298 | `add(vector<Atom>)` over atoms inside the grid appends them all, flagged as the expansion request says, and leaves the state the whole list's addition gives |
| HydrateGrid.Grid.CenterAtom | source/hydrate/Grid.cpp:320-323 | the centre step: the volume grows unless the bin was atom area, and the bin becomes an atom centre |
| HydrateGrid.Grid.AddWater | source/hydrate/Grid.cpp:331-347 | a water outside the grid is an out-of-bounds error that changes nothing; otherwise its bin becomes a water centre, it is expanded on request and appended, and the volume is untouched |
| HydrateGrid.Grid.CleanAtom | source/hydrate/Grid.cpp:386-390 | one removed atom is deflated, its centre emptied and the volume decremented |
| HydrateGrid.Grid.CleanAtoms | source/hydrate/Grid.cpp:386-390 | the removed atoms are cleaned up in order (also lines 448-452) |
| HydrateGrid.Grid.CleanWater | source/hydrate/Grid.cpp:480-483 | one removed water is deflated and its centre emptied |
| HydrateGrid.Grid.CleanWaters | source/hydrate/Grid.cpp:480-483 | the removed waters are cleaned up in order |
| HydrateGrid.Grid.RemoveMask | source/hydrate/Grid.cpp:349-391 | `remove(vector<bool>)` keeps exactly the atoms whose uid no marked atom carries, in order; when fewer leave than the mask marks it is an invalid-operation error with the cells and volume untouched, else the removed atoms are cleaned up |
| HydrateGrid.Grid.RemoveAtom | source/hydrate/Grid.cpp:393-405 | the first atom with the uid leaves the list and is cleaned up; an atom not in the grid is an invalid-operation error that changes nothing |
| HydrateGrid.Grid.RemoveWater | source/hydrate/Grid.cpp:407-418 | the same for waters, without touching the volume |
| HydrateGrid.Grid.RemoveAtoms | source/hydrate/Grid.cpp:420-452 | `remove(vector<Atom>)` keeps exactly the atoms whose uid is not listed; when the count removed differs from the list's length it is an error with the cells and volume untouched, else the removed atoms are cleaned up |
| HydrateGrid.Grid.RemoveWaters | source/hydrate/Grid.cpp:454-484 | `remove(vector<Water>)`, the same for waters |
| HydrateGrid.Grid.ClearWaters | source/hydrate/Grid.cpp:550-556 | `clear_waters` removes and cleans up every water, in order, and keeps none |
| HydrateGrid.Grid.Assign | source/hydrate/Grid.cpp:574-585 | `operator=` copies the cells, members, width, volume, radii and axes |
| PeakFinder.Candidates | source/math/PeakFinder.cpp:25-36 | the candidate minima come out in increasing order and are exactly the points below both neighbours, with the first and last point compared with their one neighbour |
| PeakFinder.OrderedIff | source/math/PeakFinder.cpp:25-36 | the neighbour-wise ordering the loops keep is the same as strict increase over every pair |
| PeakFinder.Spaced | source/math/PeakFinder.cpp:45-58 | a spacing of 0 keeps every candidate; otherwise the spacing filter's loop gives what the filter defines |
| PeakFinder.SpacedShape | source/math/PeakFinder.cpp:47-56 | the filter keeps the candidates increasing, keeps the first one and keeps nothing but candidates |
| PeakFinder.SpacedGaps | source/math/PeakFinder.cpp:52 | kept neighbours lie at least the spacing apart |
| PeakFinder.SpacedDropped | source/math/PeakFinder.cpp:52 | every dropped candidate lies less than the spacing past some kept one |
| PeakFinder.SpacingOneKeepsAll | source/math/PeakFinder.cpp:46-58 | a spacing of 1 keeps every candidate, as a spacing of 0 does |
| PeakFinder.LeftWithin | source/math/PeakFinder.cpp:74-94 | the left walk of a minimum past the first point ends between the first point and the minimum |
| PeakFinder.RightWithin | source/math/PeakFinder.cpp:96-115 | the right walk of a minimum before the last point ends between the minimum and the last point |
| PeakFinder.BoundClamped | source/math/PeakFinder.cpp:77-114 | every bound is clamped to the data and holds its minimum |
| PeakFinder.LeftBound | source/math/PeakFinder.cpp:74-94 | the left loop computes the left walk's end, which lies between 0 and the minimum |
| PeakFinder.RightBound | source/math/PeakFinder.cpp:96-115 | the right loop computes the right walk's end, which lies between the minimum and the last point |
| PeakFinder.Raised | source/math/PeakFinder.cpp:125-126 | raising an endpoint to the far end of a bound changes no inner point and never lowers an endpoint |
| PeakFinder.BoundsTo | source/math/PeakFinder.cpp:70-128 | after k minima there are k bounds, each clamped and holding its minimum; inner points are untouched and the endpoints only rise |
| PeakFinder.BoundNext | source/math/PeakFinder.cpp:71-128 | one pass of the bound loop extends the bounds and the raised copy of the data by one minimum |
| PeakFinder.BoundAll | source/math/PeakFinder.cpp:67-128 | the bound loop gives one bound per minimum, each worked out on the data as earlier raises left it |
| PeakFinder.Reach | source/math/PeakFinder.cpp:139-151 | the inner merge loop absorbs at least the bounds it started with, stays within the list, keeps the left end, and takes the right end of the last bound absorbed |
| PeakFinder.Lowest | source/math/PeakFinder.cpp:155-161 | the chosen position lies in the group and no value of the group is lower |
| PeakFinder.Values | source/math/PeakFinder.cpp:158 | the values compared are the data values at the minima |
| PeakFinder.Group | source/math/PeakFinder.cpp:135-165 | a group spans at least one bound and stays within the list |
| PeakFinder.ReachHolds | source/math/PeakFinder.cpp:139-151 | a bound grown over a group holds every minimum of the group |
| PeakFinder.GroupHolds | source/math/PeakFinder.cpp:135-165 | a group's merged bound holds every minimum of the group, and its minimum is one of them |
| PeakFinder.MergedUnfold | source/math/PeakFinder.cpp:135-166 | the merge from one bound is that bound's group followed by the merge after it |
| PeakFinder.MergedMinima | source/math/PeakFinder.cpp:131-171 | the merged minima are earlier minima, stay increasing, and one remains whenever there was a bound |
| PeakFinder.MergedHolds | source/math/PeakFinder.cpp:131-171 | every merged bound holds its merged minimum |
| PeakFinder.MergedCovers | source/math/PeakFinder.cpp:131-171 | merging loses no minimum: every earlier minimum lies inside some merged bound |
| PeakFinder.AmongFrom | source/math/PeakFinder.cpp:131-171 | a minimum taken from later bounds is one from any earlier starting point too |
| PeakFinder.AmongAbove | source/math/PeakFinder.cpp:131-171 | a minimum of an earlier bound lies below every minimum taken from later bounds |
| PeakFinder.JoinOrdered | source/math/PeakFinder.cpp:163-165 | putting a group's minimum in front of the later merged minima keeps them increasing |
| PeakFinder.JoinHolds | source/math/PeakFinder.cpp:164-165 | putting a group's bound and minimum in front keeps every bound holding its minimum |
| PeakFinder.JoinCovers | source/math/PeakFinder.cpp:163-165 | putting a group's bound in front keeps every minimum covered |
| PeakFinder.ReachFrom | source/math/PeakFinder.cpp:139-151 | the inner merge loop computes the grown bound and the number of bounds absorbed |
| PeakFinder.LowestOf | source/math/PeakFinder.cpp:155-161 | the lowest-value loop picks the minimum with the lowest data value in the group, the first one on ties |
| PeakFinder.MergeGroup | source/math/PeakFinder.cpp:135-166 | one group of the merge loop appends its bound and minimum and leaves the rest of the merge to come |
| PeakFinder.MergeNext | source/math/PeakFinder.cpp:135-166 | one pass of the merge loop moves past one group and keeps the merge's outcome as the rest will complete it |
| PeakFinder.MergeBounds | source/math/PeakFinder.cpp:130-172 | with more than one bound the overlapping bounds are merged with each group's lowest minimum, lone bounds kept; a single bound stays |
| PeakFinder.MergedFrom | source/math/PeakFinder.cpp:130-172 | the corrected merge keeps one bound per minimum (see MergedMinima, MergedHolds, MergedCovers) |
| PeakFinder.MergedAsWritten | source/math/PeakFinder.cpp:135-171 | the source's merge loop: it stops before the last bound and skips a bound that overlaps nothing; one bound per minimum |
| PeakFinder.MergeDropsMinimum | source/math/PeakFinder.cpp:135-153 | with bounds 0-4, 3-6 and 8-9 the loop as written loses the minimum at 8 and every bound holding it, while the corrected merge gives 0-6 and 8-9 |
| PeakFinder.LeftMove | source/math/PeakFinder.cpp:197-211 | the left end's walk stays between where it starts and the right end |
| PeakFinder.RightMove | source/math/PeakFinder.cpp:213-228 | the right end's walk stays between the left end and where it starts |
| PeakFinder.LeftMoveStops | source/math/PeakFinder.cpp:204-208 | the left end's walk stops short of the minimum |
| PeakFinder.RightMoveStops | source/math/PeakFinder.cpp:220-224 | the right end's walk stops short of the minimum |
| PeakFinder.RelaxHolds | source/math/PeakFinder.cpp:182-230 | the relaxed bound lies within the bound, moves only one end, and still holds its minimum |
| PeakFinder.RelaxPassesMinimum | source/math/PeakFinder.cpp:196-211 | as written, the bound 1-10 around the minimum at 2 moves its left end to 3, past the minimum, because the first step is not checked; the corrected relax keeps 1-10 |
| PeakFinder.RelaxBound | source/math/PeakFinder.cpp:182-230 | the two stepping loops compute the corrected relax |
| PeakFinder.RelaxAll | source/math/PeakFinder.cpp:232-235 | every bound is relaxed around its own minimum |
| PeakFinder.MaxTo | source/math/PeakFinder.cpp:259 | the largest of the first k prominences is one of them and no smaller than any |
| PeakFinder.MaxElement | source/math/PeakFinder.cpp:259 | `std::max_element` gives the largest prominence |
| PeakFinder.ThresholdRelative | source/math/PeakFinder.cpp:259-267 | with a factor up to 1 some minimum passes the threshold; with a factor above 1 and a positive largest prominence none does |
| PeakFinder.ScaledDown | source/math/PeakFinder.cpp:259 | a factor up to 1 does not raise a non-negative prominence |
| PeakFinder.ScaledUp | source/math/PeakFinder.cpp:259 | a factor above 1 raises a positive prominence |
| PeakFinder.PrevMerged | source/math/PeakFinder.cpp:270-290 | the merge into the left neighbour keeps the minima list and the vectors in step |
| PeakFinder.NextMerged | source/math/PeakFinder.cpp:292-303 | the merge into the right neighbour leaves the kept minima, their bounds and the fault alone |
| PeakFinder.Filtered | source/math/PeakFinder.cpp:265-308 | one pass of the prominence filter keeps the vectors in step |
| PeakFinder.FilterTo | source/math/PeakFinder.cpp:265-308 | the filter after k passes keeps the vectors in step |
| PeakFinder.PrevMerge | source/math/PeakFinder.cpp:270-290 | the left-neighbour merge, on the state's vectors, is the merge the filter defines |
| PeakFinder.NextMerge | source/math/PeakFinder.cpp:292-303 | the right-neighbour merge, on the state's vectors, is the merge the filter defines |
| PeakFinder.FilterPass | source/math/PeakFinder.cpp:265-308 | one pass over a minimum is the pass the filter defines |
| PeakFinder.FilterAll | source/math/PeakFinder.cpp:262-311 | the filter's loop runs the pass over every minimum |
| PeakFinder.FilteredWithin | source/math/PeakFinder.cpp:265-308 | one pass keeps every minimum, kept or not, among the original minima |
| PeakFinder.FilterWithin | source/math/PeakFinder.cpp:262-311 | the whole filter keeps every minimum among the original minima |
| PeakFinder.FilterNeverPastEnd | source/math/PeakFinder.cpp:293 | with the right-neighbour test against the last minimum, the filter never reads past the minima; the only fault left is the empty kept list |
| PeakFinder.Passing | source/math/PeakFinder.cpp:267-307 | the passing minima and their bounds are as many as each other and no more than were looked at |
| PeakFinder.FilterPlain | source/math/PeakFinder.cpp:265-308 | when no neighbouring bounds touch, the filter merges nothing and keeps exactly the minima at or above the threshold, in order |
| PeakFinder.FilterReadsPastEnd | source/math/PeakFinder.cpp:293 | as written, with 10 data points and two minima, the test against the last data point lets the filter read a third bound; against the last minimum it keeps the first minimum only |
| PeakFinder.Prominences | source/math/PeakFinder.cpp:252-256 | each minimum's prominence is taken within its relaxed bound |
| PeakFinder.SpacedCandidates | source/math/PeakFinder.cpp:24-58 | the spaced candidates are increasing, in the data and candidates each, and none remain only when the data has no candidate |
| PeakFinder.BoundAndMerge | source/math/PeakFinder.cpp:67-172 | bounding and merging leaves at least one minimum, increasing, each one a spaced candidate |
| PeakFinder.ProminenceFilter | source/math/PeakFinder.cpp:237-312 | the prominence stage keeps nothing but merged minima and never reads past them |
| PeakFinder.FindMinima | source/math/PeakFinder.cpp:11-339 | an error exactly when x and y differ in size; nothing for fewer than three points or without a candidate; otherwise only candidates, and without the prominence stage an increasing, non-empty list |
| Symmetries.Duplicates | source/core/data/symmetry/SymmetryManagerMT.cpp:449 | a body counts at least once: itself plus one per copy |
| Symmetries.HostTerms | source/core/data/symmetry/SymmetryManagerMT.cpp:168-183 | a symmetry has at most as many host-versus-copy terms as repeats |
| Symmetries.Weight | source/core/data/symmetry/SymmetryManagerMT.cpp:181-182 | every computed host-versus-copy term is reused at least once |
| Symmetries.WeightSumIsWeights | source/core/data/symmetry/SymmetryManagerMT.cpp:181-182 | the running weight sum adds up the weights of the terms |
| Symmetries.PlainSum | source/core/data/symmetry/SymmetryManagerMT.cpp:181 | without the closed bonus, the first k weights sum to what `repeat - i` gives in closed form |
| Symmetries.BonusSum | source/core/data/symmetry/SymmetryManagerMT.cpp:182 | the closed bonus on term 0 adds exactly one to every non-empty sum |
| Symmetries.RepeatWeightsTotal | source/core/data/symmetry/SymmetryManagerMT.cpp:175-183 | the weighted host-versus-copy terms of a symmetry with n repeats count n(n+1)/2 pairs, closed or not, as the comment's example of three repeats explains |
| Symmetries.ClosedSingleRepeatLost | source/core/data/symmetry/SymmetryManagerMT.cpp:170-171 | as written, a closed symmetry with one repeat runs the loop `i_repeat1 < repeat - closed` zero times, so the pair of the body and its only copy is counted 0 times instead of once |
| Symmetries.CorrectionIsLocal | source/core/data/symmetry/SymmetryManagerMT.cpp:170-183 | the corrected rule agrees with the loop as written on every symmetry except a closed one with a single repeat |
| Symmetries.ScaleHist | source/core/data/symmetry/SymmetryManagerMT.cpp:439-445 | `scale_hist` multiplies every bin by a positive scale |
| SymmetryManager.Open | source/core/data/SymmetryManager.cpp:124-134 | the single-threaded manager ignores the closed flag: a symmetry keeps its repeats and is seen as open |
| SymmetryManager.OpenBodies | source/core/data/SymmetryManager.cpp:111-126 | the bodies as that manager sees them keep their shape, with every symmetry open |
| SymmetryManager.OpenTotal | source/core/data/SymmetryManager.cpp:255 | dropping the closed flags keeps the number of copies of a body |
| SymmetryManager.OpenDuplicates | source/core/data/SymmetryManager.cpp:254-258 | self histograms are scaled by the body's own number of copies |
| SymmetryManager.OpenWeights | source/core/data/SymmetryManager.cpp:126-134 | the repeat loop runs over every copy and copy r is reused `repeat - r` times |
| SymmetryManager.SingleRepeatAgrees | source/core/data/SymmetryManager.cpp:126-134 | for a single repeat the two managers' rules agree |
| SymmetryManager.Calculate | source/core/data/SymmetryManager.cpp:101-324 | `calculate` gives the same components and truncated total as the multi-threaded manager with waters on the bodies with open symmetries |
| SymmetryManager.SelfPerBody | source/core/data/SymmetryManager.cpp:117-121 | two self calculations per body, atoms then waters, each scaled by the body's number of copies (also lines 254-258) |
| SymmetryManager.FirstCrossIsSelfAW | source/core/data/SymmetryManager.cpp:119 | the first cross calculation is the body's own atom-water term, which seeds p_aw (also lines 265-267) |
| SymmetryManagerMT.Tag | source/core/data/symmetry/SymmetryManagerMT.cpp:483-497 | each calculation's tag routes it to the component it was made for |
| SymmetryManagerMT.Tasks | source/core/data/symmetry/SymmetryManagerMT.cpp:145-386 | one task per calculation |
| SymmetryManagerMT.PairJobs | source/core/data/symmetry/SymmetryManagerMT.cpp:183-194 | a pair of copies makes one calculation, or four with waters: atoms-atoms, atoms-waters, waters-waters, waters-atoms (also lines 216-227) |
| SymmetryManagerMT.CopyRepeats | source/core/data/symmetry/SymmetryManagerMT.cpp:246-276 | every calculation enqueued for a copy against the repeats of a symmetry counts a positive number of times |
| SymmetryManagerMT.CopySyms | source/core/data/symmetry/SymmetryManagerMT.cpp:244-277 | the same for a copy against every symmetry of a body |
| SymmetryManagerMT.CopyBodies | source/core/data/symmetry/SymmetryManagerMT.cpp:211-278 | the same for a copy against the later bodies and their copies |
| SymmetryManagerMT.OwnSyms | source/core/data/symmetry/SymmetryManagerMT.cpp:281-314 | the same for a copy against the later symmetries of its own body |
| SymmetryManagerMT.HostTerm | source/core/data/symmetry/SymmetryManagerMT.cpp:181-194 | a copy's host-versus-copy calculations count a positive number of times; the last copy of a folding symmetry has none |
| SymmetryManagerMT.RepeatBlock | source/core/data/symmetry/SymmetryManagerMT.cpp:172-314 | the same for everything enqueued for one copy: its host-versus-copy term and its terms against the later bodies and symmetries |
| SymmetryManagerMT.Repeats | source/core/data/symmetry/SymmetryManagerMT.cpp:171-315 | the same for every copy of a symmetry |
| SymmetryManagerMT.ClosedLastCopyUnpaired | source/core/data/symmetry/SymmetryManagerMT.cpp:171 | with two bodies and a closed symmetry of two repeats on the first, the loop as written never pairs the second copy with the second body, and the corrected loop does |
| SymmetryManagerMT.CopyBodiesMeet | source/core/data/symmetry/SymmetryManagerMT.cpp:211-217 | a copy is paired, atoms with atoms, with the body itself of every later body |
| SymmetryManagerMT.RepeatsIn | source/core/data/symmetry/SymmetryManagerMT.cpp:171-315 | a job of the first n + 1 copies is a job of the first n or of copy n |
| SymmetryManagerMT.RepeatsContain | source/core/data/symmetry/SymmetryManagerMT.cpp:171-315 | every job of a copy's block is among the jobs of the first k copies for every k past it |
| SymmetryManagerMT.EveryCopyMeetsLaterBodies | source/core/data/symmetry/SymmetryManagerMT.cpp:211-217 | every copy of every symmetry, the last copy of a closed one included, is paired with every later body |
| SymmetryManagerMT.SymJobs | source/core/data/symmetry/SymmetryManagerMT.cpp:168-316 | the same for every symmetry of a body |
| SymmetryManagerMT.HostBodies | source/core/data/symmetry/SymmetryManagerMT.cpp:319-386 | the same for the body against the later bodies and their copies |
| SymmetryManagerMT.SelfCross | source/core/data/symmetry/SymmetryManagerMT.cpp:149 | the body's own atom-water term is one calculation with waters and none without |
| SymmetryManagerMT.BodyJobs | source/core/data/symmetry/SymmetryManagerMT.cpp:145-386 | every cross calculation of a body counts a positive number of times |
| SymmetryManagerMT.CrossJobs | source/core/data/symmetry/SymmetryManagerMT.cpp:139-387 | the same for every body |
| SymmetryManagerMT.SelfJobs | source/core/data/symmetry/SymmetryManagerMT.cpp:145-151 | one self calculation per body, or two with waters (also line 437) |
| SymmetryManagerMT.SelfJobsPositive | source/core/data/symmetry/SymmetryManagerMT.cpp:440-449 | every self calculation counts a positive number of times |
| SymmetryManagerMT.EnqueuedSnoc | source/core/data/symmetry/SymmetryManagerMT.cpp:183 | enqueuing one more calculation is one push |
| SymmetryManagerMT.EnqueuedAppend | source/core/data/symmetry/SymmetryManagerMT.cpp:139-387 | enqueuing two lists one after the other is enqueuing their concatenation |
| SymmetryManagerMT.EnqueuePair | source/core/data/symmetry/SymmetryManagerMT.cpp:183-194 | enqueuing a pair of copies pushes its calculations |
| SymmetryManagerMT.EnqueueCopyRepeats | source/core/data/symmetry/SymmetryManagerMT.cpp:246-276 | the repeat loop against a symmetry of another body pushes its calculations in order |
| SymmetryManagerMT.EnqueueCopySyms | source/core/data/symmetry/SymmetryManagerMT.cpp:244-277 | the symmetry loop of another body pushes its calculations in order |
| SymmetryManagerMT.EnqueueCopyBodies | source/core/data/symmetry/SymmetryManagerMT.cpp:211-278 | the loop over the later bodies pushes their calculations in order |
| SymmetryManagerMT.EnqueueOwnSyms | source/core/data/symmetry/SymmetryManagerMT.cpp:281-314 | the loop over the later symmetries of the same body pushes their calculations in order |
| SymmetryManagerMT.EnqueueRepeat | source/core/data/symmetry/SymmetryManagerMT.cpp:172-314 | one pass of the repeat loop pushes the copy's host-versus-copy term, if it has one, then its terms against other bodies, then against the body's later symmetries |
| SymmetryManagerMT.EnqueueSyms | source/core/data/symmetry/SymmetryManagerMT.cpp:168-316 | the symmetry loop of a body pushes its calculations in order |
| SymmetryManagerMT.EnqueueHostBodies | source/core/data/symmetry/SymmetryManagerMT.cpp:319-386 | the loop of the body itself against the later bodies pushes their calculations in order |
| SymmetryManagerMT.EnqueueBody | source/core/data/symmetry/SymmetryManagerMT.cpp:140-386 | one pass of the body loop pushes that body's cross calculations |
| SymmetryManagerMT.SelfStep | source/core/data/symmetry/SymmetryManagerMT.cpp:145-151 | body b's self calculations sit right after those of the bodies before it |
| SymmetryManagerMT.SelfDone | source/core/data/symmetry/SymmetryManagerMT.cpp:139-387 | after the body loop the self list is exactly the self calculations |
| SymmetryManagerMT.Enqueue | source/core/data/symmetry/SymmetryManagerMT.cpp:139-387 | enqueuing gives the self calculations, as many as the source asserts, and the cross calculations in order (also line 437) |
| SymmetryManagerMT.Raw | source/core/data/symmetry/SymmetryManagerMT.cpp:389 | the calculator gives one result per task |
| SymmetryManagerMT.Scaled | source/core/data/symmetry/SymmetryManagerMT.cpp:448-461 | one scaled result per calculation |
| SymmetryManagerMT.ScaledSized | source/core/data/symmetry/SymmetryManagerMT.cpp:439-461 | scaling keeps every result's length |
| SymmetryManagerMT.Applied | source/core/data/symmetry/SymmetryManagerMT.cpp:459-461 | applying the scale records keeps the number of results |
| SymmetryManagerMT.QueueShape | source/core/data/symmetry/SymmetryManagerMT.cpp:139-387 | the queue's cross list is the calculations' tasks and the scale records point inside it |
| SymmetryManagerMT.AppliedExtend | source/core/data/symmetry/SymmetryManagerMT.cpp:459-461 | a result after every recorded index is left alone |
| SymmetryManagerMT.AppliedPrefix | source/core/data/symmetry/SymmetryManagerMT.cpp:459-461 | records not yet applied change nothing |
| SymmetryManagerMT.AppliedPush | source/core/data/symmetry/SymmetryManagerMT.cpp:183 | one push keeps the records valid and extends the applied results by the pushed result scaled as it counts (also lines 459-461) |
| SymmetryManagerMT.AppliedIsScaled | source/core/data/symmetry/SymmetryManagerMT.cpp:459-461 | applying the records scales each cross result by the number of times it counts: none is scaled twice and none is missed |
| SymmetryManagerMT.SumComp | source/core/data/symmetry/SymmetryManagerMT.cpp:483-497 | a component's sum has the histogram length |
| SymmetryManagerMT.SumAll | source/core/data/symmetry/SymmetryManagerMT.cpp:483-497 | the sum of all results has the histogram length |
| SymmetryManagerMT.ComponentHist | source/core/data/symmetry/SymmetryManagerMT.cpp:463-498 | a component has the histogram length |
| SymmetryManagerMT.Total | source/core/data/symmetry/SymmetryManagerMT.cpp:501-502 | the total has the histogram length |
| SymmetryManagerMT.RoutingPartitions | source/core/data/symmetry/SymmetryManagerMT.cpp:484-498 | routing is a partition: the three component sums add up to the sum of all results |
| SymmetryManagerMT.AddAnywhere | source/core/data/symmetry/SymmetryManagerMT.cpp:484-498 | adding a result to any one of the three sums adds it to their total |
| SymmetryManagerMT.TotalCountsEachOnce | source/core/data/symmetry/SymmetryManagerMT.cpp:448-502 | every calculation, self or cross, is counted exactly once in the total, with its scale |
| SymmetryManagerMT.Regroup | source/core/data/symmetry/SymmetryManagerMT.cpp:502 | proof helper, not a rule of the source: six histograms summed pairwise or by thirds give the same total, the regrouping the lemma about the final sum relies on |
| SymmetryManagerMT.ScaleSelf | source/core/data/symmetry/SymmetryManagerMT.cpp:448-456 | body i's self results are scaled by its number of copies |
| SymmetryManagerMT.ScaleCross | source/core/data/symmetry/SymmetryManagerMT.cpp:459-461 | the recorded cross results are scaled by their recorded scale |
| SymmetryManagerMT.AddSelf | source/core/data/symmetry/SymmetryManagerMT.cpp:463-481 | p_aa is the sum of the atom self terms, p_ww of the water self terms, zero without waters |
| SymmetryManagerMT.SelfSumsStart | source/core/data/symmetry/SymmetryManagerMT.cpp:463-471 | the first body's self terms seed the two sums |
| SymmetryManagerMT.SelfSumsStep | source/core/data/symmetry/SymmetryManagerMT.cpp:474-481 | one more body's self terms go to p_aa and, with waters, p_ww |
| SymmetryManagerMT.NoSelfAW | source/core/data/symmetry/SymmetryManagerMT.cpp:145-151 | no self term goes to p_aw |
| SymmetryManagerMT.RouteCross | source/core/data/symmetry/SymmetryManagerMT.cpp:467-498 | the cross results are added to the component their tag names; with waters the first, already in p_aw, is skipped |
| SymmetryManagerMT.SumParts | source/core/data/symmetry/SymmetryManagerMT.cpp:501-502 | p_tot is the bin-wise sum of the three components |
| SymmetryManagerMT.CrossJobsStart | source/core/data/symmetry/SymmetryManagerMT.cpp:149 | with waters the first cross calculation is the first body's own atom-water term (also line 467) |
| SymmetryManagerMT.SelfJobsTagged | source/core/data/symmetry/SymmetryManagerMT.cpp:146-150 | the self tasks are tagged atoms then waters |
| SymmetryManagerMT.Calculate | source/core/data/symmetry/SymmetryManagerMT.cpp:116-532 | the total is the sum of every calculation scaled by the number of times it counts, truncated after its last non-zero bin but kept at ten bins at least; each component is that component's sum cut or padded to the same length |
| SymmetryManagerMT.ExampleHist | source/core/data/symmetry/SymmetryManagerMT.cpp:175-183 | the example calculator places each copy's counts at its own distance |
| SymmetryManagerMT.ExampleCrossJobs | source/core/data/symmetry/SymmetryManagerMT.cpp:175-183 | for one body with three copies, only the host-versus-copy terms are enqueued, with weights 3, 2, 1 |
| SymmetryManagerMT.ScaleFour | source/core/data/symmetry/SymmetryManagerMT.cpp:439-445 | scaling spelled out on four bins |
| SymmetryManagerMT.ExampleSelfScaled | source/core/data/symmetry/SymmetryManagerMT.cpp:448-456 | the example's self term is scaled by four, the body and its three copies |
| SymmetryManagerMT.ExampleCrossScaled | source/core/data/symmetry/SymmetryManagerMT.cpp:459-461 | the example's cross terms are scaled by 3, 2 and 1 |
| SymmetryManagerMT.AddFour | source/core/data/symmetry/SymmetryManagerMT.cpp:484-498 | proof helper, not a rule of the source: bin-wise addition spelled out on four bins, used by the concrete examples of the combined sum |
| SymmetryManagerMT.AllAtomAtom | source/core/data/symmetry/SymmetryManagerMT.cpp:484-498 | when every result is atom-atom, p_aa is their sum and the others are zero |
| SymmetryManagerMT.ExampleSums | source/core/data/symmetry/SymmetryManagerMT.cpp:484-498 | the example's self and cross sums |
| SymmetryManagerMT.ExampleComponents | source/core/data/symmetry/SymmetryManagerMT.cpp:463-498 | the example is all atom-atom: p_aa holds 4, 6, 4, 2 and the others are zero |
| SymmetryManagerMT.TruncatedShort | source/core/data/symmetry/SymmetryManagerMT.cpp:505-515 | a histogram of at most ten bins is padded to ten |
| SymmetryManagerMT.ExampleUntruncated | source/core/data/symmetry/SymmetryManagerMT.cpp:501-502 | the example's total before truncation |
| SymmetryManagerMT.ExampleTotal | source/core/data/symmetry/SymmetryManagerMT.cpp:501-515 | the example's total, four copies apart by one, three and two steps, padded to ten bins |
| SymmetryPlan.PushNoDups | source/core/hist/histogram_manager/PartialSymmetryManagerMT.cpp:189-202 | appending a partial not yet listed keeps the combine list free of duplicates |
| SymmetryPlan.RowCover | source/core/hist/histogram_manager/PartialSymmetryManagerMT.cpp:212-298 | a partial of row b1 is selected exactly when one of the row's blocks lists it; the second and third block run only when b1 did not move |
| SymmetryPlan.ExtBlock | source/core/hist/histogram_manager/PartialSymmetryManagerMT.cpp:215-226 | the first block lists, once each, every symmetry pair of b1 with a lower body when either of the two moved |
| SymmetryPlan.HostBlock | source/core/hist/histogram_manager/PartialSymmetryManagerMT.cpp:231-239 | the second block lists, once each, b1 itself against the changed symmetries of the lower bodies that did not move |
| SymmetryPlan.CopyBlock | source/core/hist/histogram_manager/PartialSymmetryManagerMT.cpp:242-259 | the corrected third block lists, once each, the symmetries of b1 against the lower bodies that did not move, when either symmetry changed |
| SymmetryPlan.DiagBlock | source/core/hist/histogram_manager/PartialSymmetryManagerMT.cpp:263-277 | the corrected diagonal block lists, once each, every pair of two symmetries of b1, or a symmetry and the body, where either changed |
| SymmetryPlan.WaterBlock | source/core/hist/histogram_manager/PartialSymmetryManagerMT.cpp:279-298 | the water block lists, once each, b1 and its symmetries against the hydration layer when the body moved or the hydration changed, and otherwise its changed symmetries |
| SymmetryPlan.RowTasks | source/core/hist/histogram_manager/PartialSymmetryManagerMT.cpp:213-298 | one pass of the loop over `ibody1` lists each selected partial of its row exactly once |
| SymmetryPlan.CombineList | source/core/hist/histogram_manager/PartialSymmetryManagerMT.cpp:154-308 | the corrected combine list, the water partial first, holds exactly the partials the reference rule says must be recomputed, each once |
| SymmetryPlan.RowAsWrittenMisses | source/core/hist/histogram_manager/PartialSymmetryManagerMT.cpp:262-277 | the loops as written select nothing the rule does not, and miss exactly the diagonal pairs whose higher symmetry is unchanged while the lower one changed |
| SymmetryPlan.CopyBlockAsWritten | source/core/hist/histogram_manager/PartialSymmetryManagerMT.cpp:242-259 | the third block as written: every symmetry of b1 against every lower body, moved or not, when either symmetry changed |
| SymmetryPlan.DiagBlockAsWritten | source/core/hist/histogram_manager/PartialSymmetryManagerMT.cpp:263-277 | the diagonal block as written: only pairs whose higher symmetry changed |
| SymmetryPlan.RowTasksAsWritten | source/core/hist/histogram_manager/PartialSymmetryManagerMT.cpp:213-298 | one pass as written: first the first block, then the rest as written |
| SymmetryPlan.CombineListAsWritten | source/core/hist/histogram_manager/PartialSymmetryManagerMT.cpp:154-308 | the combine list as written holds the water partial when hydration is on and changed, plus the rows as written; no self-correlation is ever in it |
| SymmetryPlan.DuplicateEnqueue | source/core/hist/histogram_manager/PartialSymmetryManagerMT.cpp:215-249 | with two bodies where the lower one moved and the upper one's symmetry changed, the pair (1,1,0,0) is listed twice |
| SymmetryPlan.DiagonalMiss | source/core/hist/histogram_manager/PartialSymmetryManagerMT.cpp:264-275 | with one body whose first of two symmetries changed, the pair of its second and first symmetry must be recomputed but is not listed |
| SymmetryPlan.SelfNeverCombined | source/core/hist/histogram_manager/PartialSymmetryManagerMT.cpp:95-98 | with one body without symmetries whose atoms changed, the body's self-correlation must be recomputed and combined, but the list as written leaves it out |
| SymmetrySlots.NoDupsConcat | source/core/hist/histogram_manager/PartialSymmetryManagerMT.cpp:369-380 | two duplicate-free lists with no common partial make a duplicate-free concatenation |
| SymmetrySlots.JoinIn | source/core/hist/histogram_manager/PartialSymmetryManagerMT.cpp:369-380 | a partial is in a concatenation exactly when it is in one of the parts |
| SymmetrySlots.JoinNoDups | source/core/hist/histogram_manager/PartialSymmetryManagerMT.cpp:369-380 | the same as NoDupsConcat for a named whole |
| SymmetrySlots.Line | source/core/hist/histogram_manager/PartialSymmetryManagerMT.cpp:372 | the loop over `isym2` lists the pairs of one symmetry with each symmetry of one lower body, in order |
| SymmetrySlots.LineNoDups | source/core/hist/histogram_manager/PartialSymmetryManagerMT.cpp:372 | that loop lists no pair twice |
| SymmetrySlots.PairsOf | source/core/hist/histogram_manager/PartialSymmetryManagerMT.cpp:371-376 | the loop over `ibody2` lists exactly the pairs of one symmetry with every symmetry of the bodies up to it |
| SymmetrySlots.PairsOfNoDups | source/core/hist/histogram_manager/PartialSymmetryManagerMT.cpp:371-376 | and no pair twice |
| SymmetrySlots.BodyPairs | source/core/hist/histogram_manager/PartialSymmetryManagerMT.cpp:370-379 | the loop over `isym1` lists exactly the pair partials of one body with the bodies up to it |
| SymmetrySlots.BodyPairsNoDups | source/core/hist/histogram_manager/PartialSymmetryManagerMT.cpp:370-379 | and no pair twice |
| SymmetrySlots.AASlots | source/core/hist/histogram_manager/PartialSymmetryManagerMT.cpp:369-380 | the loop over `ibody1` lists exactly the lower-triangle pair partials |
| SymmetrySlots.AASlotsStep | source/core/hist/histogram_manager/PartialSymmetryManagerMT.cpp:369 | the triangle below row k - 1 and row k - 1 make the triangle below row k |
| SymmetrySlots.AASlotsNoDups | source/core/hist/histogram_manager/PartialSymmetryManagerMT.cpp:369-380 | the triangle lists no pair twice |
| SymmetrySlots.WaterAll | source/core/hist/histogram_manager/PartialSymmetryManagerMT.cpp:378 | the body-water partials of one body, one per symmetry and the body |
| SymmetrySlots.WaterAllNoDups | source/core/hist/histogram_manager/PartialSymmetryManagerMT.cpp:378 | listed once each |
| SymmetrySlots.AWSlots | source/core/hist/histogram_manager/PartialSymmetryManagerMT.cpp:369-380 | exactly the body-water partials of every body |
| SymmetrySlots.AWSlotsNoDups | source/core/hist/histogram_manager/PartialSymmetryManagerMT.cpp:369-380 | listed once each |
| SymmetrySlots.AllSlotsIn | source/core/hist/histogram_manager/PartialSymmetryManagerMT.cpp:362-380 | the enumeration lists exactly the partials |
| SymmetrySlots.AllSlotsNoDups | source/core/hist/histogram_manager/PartialSymmetryManagerMT.cpp:362-380 | each partial occurs once in it |
| SymmetrySlots.SumAllSplit | source/core/hist/histogram_manager/PartialSymmetryManagerMT.cpp:362-380 | the sum over all partials is the pair sum plus the body-water sum plus the water partial |
| Slots.Row | source/core/hist/histogram_manager/PartialHistogramManagerMT.cpp:194-199 | row i of the pair sum is the pairs (i, 0) … (i, i), in that order |
| Slots.AASlots | source/core/hist/histogram_manager/PartialHistogramManagerMT.cpp:193-199 | the pair slots of n bodies hold exactly the pairs (i, j) with j ≤ i < n, the diagonal included |
| Slots.AWSlots | source/core/hist/histogram_manager/PartialHistogramManagerMT.cpp:201-205 | the body-water slots hold exactly one slot per body |
| Slots.AllSlots | source/core/hist/histogram_manager/PartialHistogramManagerMT.cpp:225-239 | the slots initialize allocates are exactly the pairs, the body-water partials and the water partial |
| Slots.AASlotsNoDups | source/core/hist/histogram_manager/PartialHistogramManagerMT.cpp:193-199 | no pair slot is summed twice |
| Slots.AllSlotsNoDups | source/core/hist/histogram_manager/PartialHistogramManagerMT.cpp:225-239 | each slot of the manager occurs once in the enumeration |
| Slots.Diagonal | source/core/hist/histogram_manager/PartialHistogramManagerMT.cpp:243-248 | initialize combines the self-correlations of bodies 0 … n-1, in that order |
| Slots.SumAllSplit | source/core/hist/histogram_manager/PartialHistogramManagerMT.cpp:186-205 | the sum over all slots is the pair sum plus the body-water sum plus the water partial |
| Slots.SlotsSized | source/core/hist/histogram_manager/PartialHistogramManagerMT.cpp:228-239 | after initialize every slot holds a histogram of the axis' bin count |
| PartialHistogramManagerMT.ResIndexInjective | source/core/hist/histogram_manager/PartialHistogramManagerMT.cpp:32-34 | the key body1 + 100·body2 identifies the pair exactly when body1 is below 100 |
| PartialHistogramManagerMT.KeysUnique | source/core/hist/histogram_manager/PartialHistogramManagerMT.cpp:31-38 | with at most 100 bodies, two slots reading the same result map never share a key, water keys included (also lines 107-143) |
| PartialHistogramManagerMT.CalcRows | source/core/hist/histogram_manager/PartialHistogramManagerMT.cpp:117-143 | the rows of calculate's combine loop only name body slots of bodies below n |
| PartialHistogramManagerMT.RowOrderSlots | source/core/hist/histogram_manager/PartialHistogramManagerMT.cpp:117-143 | one row of the combine loop visits the self-correlation, the lower pairs and the body-water slot of the body, once each |
| PartialHistogramManagerMT.CalcRowsSlots | source/core/hist/histogram_manager/PartialHistogramManagerMT.cpp:117-143 | the rows visit every non-water slot exactly once |
| PartialHistogramManagerMT.CalcOrderSlots | source/core/hist/histogram_manager/PartialHistogramManagerMT.cpp:109-143 | calculate's combine loop, water first, visits every slot exactly once |
| PartialHistogramManagerMT.ComponentsAddUp | source/core/hist/histogram_manager/PartialHistogramManagerMT.cpp:177-205 | while master is base plus every partial, the three components of calculate_all, cut to b bins, add up to master cut to b bins |
| PartialHistogramManagerMT.ReplayValue | source/core/hist/histogram_manager/PartialHistogramManagerMT.cpp:107-143 | after combining a list of distinct slots, a slot holds its result exactly when it was listed and selected, and its old histogram otherwise (also lines 273-306) |
| PartialHistogramManagerMT.InitSlot | source/core/hist/histogram_manager/PartialHistogramManagerMT.cpp:243-248 | step i of initialize combines the self-correlation result of body i under key i + 100·i |
| PartialHistogramManagerMT.DiagonalReplay | source/core/hist/histogram_manager/PartialHistogramManagerMT.cpp:228-248 | combining the diagonal into zeroed partials gives each self-correlation its result and leaves every other partial zero |
| PartialHistogramManagerMT.CalcReplay | source/core/hist/histogram_manager/PartialHistogramManagerMT.cpp:58-143 | after calculate's combine loop a slot holds the calculator's result when the recompute rules select it, its previous value otherwise |
| PartialHistogramManagerMT.Manager.constructor | source/core/hist/histogram_manager/PartialHistogramManagerMT.cpp:22-25 | a fresh manager has an empty master and the given body count and axis |
| PartialHistogramManagerMT.Manager.Combine | source/core/hist/histogram_manager/PartialHistogramManagerMT.cpp:273-306 | combine_* replaces one partial and moves master by the difference, so master stays base plus the sum of the partials |
| PartialHistogramManagerMT.Manager.Clear | source/core/hist/histogram_manager/PartialHistogramManagerMT.cpp:225-239 | master, base and every partial are zero histograms of the axis' bin count |
| PartialHistogramManagerMT.Manager.Initialize | source/core/hist/histogram_manager/PartialHistogramManagerMT.cpp:224-249 | after initialize each self-correlation holds its result and every other partial is zero |
| PartialHistogramManagerMT.Manager.Recompute | source/core/hist/histogram_manager/PartialHistogramManagerMT.cpp:84-143 | water partial, self-correlations, pairs and body-water partials end up as the recompute rules say: a selected slot holds its new result, the rest keep their value |
| PartialHistogramManagerMT.Manager.CombineRows | source/core/hist/histogram_manager/PartialHistogramManagerMT.cpp:117-143 | the row loop extends the replay from the water partial to every row |
| PartialHistogramManagerMT.Manager.CombineRow | source/core/hist/histogram_manager/PartialHistogramManagerMT.cpp:118-142 | one row extends the replay by that body's row |
| PartialHistogramManagerMT.Manager.CombinePairs | source/core/hist/histogram_manager/PartialHistogramManagerMT.cpp:126-134 | the pair loop of a row combines the lower pairs of the body in order |
| PartialHistogramManagerMT.Manager.Calculate | source/core/hist/histogram_manager/PartialHistogramManagerMT.cpp:41-161 | on the first call every partial holds its initial value or its recomputed result with the internal flags cleared; later, a slot holds its result iff the rules select it; every flag is reset and the total is master truncated |
| PartialHistogramManagerMT.Manager.SumPairs | source/core/hist/histogram_manager/PartialHistogramManagerMT.cpp:188-199 | p_aa is base plus every pair partial, the diagonal included, cut to b bins |
| PartialHistogramManagerMT.Manager.SumRow | source/core/hist/histogram_manager/PartialHistogramManagerMT.cpp:194-198 | one row of the pair sum adds the pairs of body i with itself and each lower body |
| PartialHistogramManagerMT.Manager.SumBodyWater | source/core/hist/histogram_manager/PartialHistogramManagerMT.cpp:201-205 | p_aw is the sum of the body-water partials cut to b bins |
| PartialHistogramManagerMT.Manager.CalculateAll | source/core/hist/histogram_manager/PartialHistogramManagerMT.cpp:174-222 | p_tot is the truncated master; p_aa, p_aw and p_ww are base-plus-pairs, body-water and water cut to its length, and the three add up to p_tot |
| PartialHistogramManager.SquareOfSum | source/hist/PartialHistogramManager.cpp:30-42 | twice the product of every unordered pair plus every atom's square is the square of the total weight |
| PartialHistogramManager.DepositRow | source/hist/PartialHistogramManager.cpp:31-38 | one row of the pair loop adds to each bin k twice the weight product of atom i with every later atom whose distance bin is k, and leaves the rest of the histogram as it was; in total it deposits twice atom i's weight times each later weight |
| PartialHistogramManager.RowBinStep | source/hist/PartialHistogramManager.cpp:37 | one more column of a row puts its weight into the bin of its distance and nowhere else |
| PartialHistogramManager.DepositAlong | source/hist/PartialHistogramManager.cpp:31-38 | the inner loop of every pair loop adds to each bin k twice the row atom's weight times every column weight whose distance bin is k, and in total twice the row weight times each column weight (also lines 173-181, 235-242, 258-266, 326-344) |
| PartialHistogramManager.RowPartWeight | source/hist/PartialHistogramManager.cpp:31-38 | the weight of a row of one set's pair loop is that of the inner loop over the later atoms |
| PartialHistogramManager.PairsHistStep | source/hist/PartialHistogramManager.cpp:30-39 | one more row of one set's pair loop moves the running histogram to the reference for one more row |
| PartialHistogramManager.SelfHistOfPairs | source/hist/PartialHistogramManager.cpp:30-42 | the pair loop followed by the squared weights in bin 0 is the bin-exact self-correlation |
| PartialHistogramManager.SelfMass | source/hist/PartialHistogramManager.cpp:30-42 | the pair loop and the self terms together hold the square of the total weight |
| PartialHistogramManager.SelfCorrelation | source/hist/PartialHistogramManager.cpp:24-43 | the self-correlation equals the bin-exact reference: bin k holds twice the weight product of every unordered pair of atoms whose distance bin is k, and bin 0 also every atom's squared weight; in total the square of the body's total weight |
| PartialHistogramManager.AddSquares | source/hist/PartialHistogramManager.cpp:42 | the atoms' squared weights are added to bin 0 and every other bin is left as it was |
| PartialHistogramManager.HydrationCorrelation | source/hist/PartialHistogramManager.cpp:251-269 | the hydration self-correlation equals the same bin-exact reference as a body's, and holds the square of the total water weight; the outer loop bound of four times the water count adds nothing, since the rows past the last water are empty |
| PartialHistogramManager.CrossPartClosed | source/hist/PartialHistogramManager.cpp:173-182 | one row of the cross loop deposits twice atom i's weight times the total weight of the other set |
| PartialHistogramManager.CrossesClosed | source/hist/PartialHistogramManager.cpp:173-182 | the cross loop pairs every atom of one set with every atom of the other exactly once |
| PartialHistogramManager.CrossCorrelation | source/hist/PartialHistogramManager.cpp:167-182 | the pair and body-water partials equal the bin-exact reference: bin k holds twice the weight product of every atom of one set with every atom of the other whose distance bin is k; in total twice the product of the two total weights (also lines 230-244) |
| PartialHistogramManager.CrossRow | source/hist/PartialHistogramManager.cpp:174-181 | one row of the cross loop adds to each bin k twice atom i's weight times every weight of the other set whose distance bin is k, and in total twice atom i's weight times each weight of the other set |
| PartialHistogramManager.CrossPartWeight | source/hist/PartialHistogramManager.cpp:174-181 | the weight of a row of the cross loop is that of the inner loop over the other set |
| PartialHistogramManager.CrossesHistStep | source/hist/PartialHistogramManager.cpp:173-182 | one more row of the cross loop moves the running histogram to the reference for one more row |
| PartialHistogramManager.CrossMass | source/hist/PartialHistogramManager.cpp:173-182 | the cross loop holds twice the product of the two total weights |
| PartialHistogramManager.SumToConcat | source/hist/PartialHistogramManager.cpp:277-305 | the prefix sums of atoms followed by waters are those of the atoms, then the atoms' total plus those of the waters |
| PartialHistogramManager.SquareConcat | source/hist/PartialHistogramManager.cpp:276-367 | the square of the total weight of atoms and waters splits into the square of each and their cross term |
| PartialHistogramManager.SlowWaters | source/hist/PartialHistogramManager.cpp:324-349 | the water loop of calculate_slow and the water self terms give p_hh the bin-exact self-correlation of the waters and p_hp the bin-exact cross-correlation of waters with atoms; their totals are the square of the water weight and twice the product of water and atom weights |
| PartialHistogramManager.WaterRow | source/hist/PartialHistogramManager.cpp:325-345 | row i of the water loop moves p_hh and p_hp to their references for one more water and adds the row weights to their totals |
| PartialHistogramManager.WaterPairs | source/hist/PartialHistogramManager.cpp:324-345 | the water loop leaves in p_hh every pair of waters and in p_hp every water-atom pair, bin by bin |
| PartialHistogramManager.ShortenAxes | source/hist/PartialHistogramManager.cpp:351-363 | the three components are cut to max(10, one past the last bin where any is non-zero), losing no weight |
| PartialHistogramManager.CutKeepsMass | source/hist/PartialHistogramManager.cpp:351-363 | cutting at that bin drops only zero bins |
| PartialHistogramManager.SumComponents | source/hist/PartialHistogramManager.cpp:367 | p_tot is the bin-wise sum p_pp + p_hh + p_hp |
| PartialHistogramManager.TotalMass | source/hist/PartialHistogramManager.cpp:276-367 | the three components add up to the square of the total weight of atoms and waters together |
| PartialHistogramManager.CalculateSlow | source/hist/PartialHistogramManager.cpp:276-370 | p_pp, p_hh and p_hp are the bin-exact self-correlations of atoms and waters and their cross-correlation, all cut to max(10, one past the last bin where any is non-zero); p_tot is their sum; p_pp, p_hh and p_hp hold the squares and the cross term, and p_tot the square of the total weight |
| PartialHistogramManager.Strict | source/hist/PartialHistogramManager.cpp:84-86 | row i of the pair sum is the pairs (i, 0) … (i, i-1) |
| PartialHistogramManager.PairSlots | source/hist/PartialHistogramManager.cpp:83-93 | the pairs calculate_all adds to the base are exactly (i, j) with j < i < n |
| PartialHistogramManager.Layout | source/hist/PartialHistogramManager.cpp:57-73 | the layout holds exactly the slots initialize allocates |
| PartialHistogramManager.PairSlotsNoDups | source/hist/PartialHistogramManager.cpp:83-93 | no pair is added twice |
| PartialHistogramManager.LayoutNoDups | source/hist/PartialHistogramManager.cpp:57-73 | each slot occurs once in the layout and in the diagonal |
| PartialHistogramManager.Refresh | source/hist/PartialHistogramManager.cpp:123-131 | the refreshed coordinates keep one entry per body |
| PartialHistogramManager.ZeroPartials | source/hist/PartialHistogramManager.cpp:57-73 | initialize allocates exactly the slots of the layout, each a zero histogram |
| PartialHistogramManager.RecomputesSplit | source/hist/PartialHistogramManager.cpp:123-162 | what a call recomputes is the diagonal its first loop selects or the rest its second loop selects, and never both |
| PartialHistogramManager.AgreesCompose | source/hist/PartialHistogramManager.cpp:112-165 | two updates in a row that recompute disjoint slots together recompute their union, each recomputed slot equal bin for bin to its reference histogram |
| PartialHistogramManager.SumOverSnoc | source/hist/PartialHistogramManager.cpp:84-103 | adding one more partial to a running sum cut to b bins is adding its cut |
| PartialHistogramManager.ComponentsAddUp | source/hist/PartialHistogramManager.cpp:75-110 | the diagonal, the pairs, the body-water partials and the water partial, each cut to b bins, add up to the sum over the layout cut to b bins |
| PartialHistogramManager.StoreSums | source/hist/PartialHistogramManager.cpp:183-185 | replacing one partial moves the sum over the layout by the difference (also lines 246-248, 271-273) |
| PartialHistogramManager.DiagonalSums | source/hist/PartialHistogramManager.cpp:47-51 | replacing a self-correlation moves the diagonal sum by the difference; replacing any other partial leaves it alone |
| PartialHistogramManager.DiagDone | source/hist/PartialHistogramManager.cpp:123-131 | the diagonal loop, having visited every body, has replaced the self-correlation of every internally modified body by its bin-exact reference and changed nothing else |
| PartialHistogramManager.DiagonalStep | source/hist/PartialHistogramManager.cpp:124-130 | step i of the diagonal loop replaces body i's self-correlation by its bin-exact reference when internally modified and otherwise changes no partial |
| PartialHistogramManager.RowPairStep | source/hist/PartialHistogramManager.cpp:141-157 | the pair (i, j) is replaced by the bin-exact cross-correlation of the two bodies when either moved, and every other slot kept |
| PartialHistogramManager.WaterStep | source/hist/PartialHistogramManager.cpp:146-160 | the body-water partial of body i is replaced by the bin-exact cross-correlation of the body with the hydration layer when the body moved or the hydration changed |
| PartialHistogramManager.RowSlotsSized | source/hist/PartialHistogramManager.cpp:84-93 | every pair calculate_all reads holds a histogram of the axis' bin count |
| PartialHistogramManager.PairRowStep | source/hist/PartialHistogramManager.cpp:85-92 | one pair of row i added to the running pair sum, cut to b bins |
| PartialHistogramManager.RowPrefixSnoc | source/hist/PartialHistogramManager.cpp:84-86 | the pairs calculate_all has added up to (i, j) are those before it followed by it |
| PartialHistogramManager.SelfFits | source/hist/PartialHistogramManager.cpp:123-131 | the distance tables of the refreshed coordinates cover every body whose self-correlation is recomputed |
| PartialHistogramManager.ComposePhases | source/hist/PartialHistogramManager.cpp:112-165 | the two halves of calculate together replace by its bin-exact reference exactly what the recompute rules select |
| PartialHistogramManager.Manager.constructor | source/hist/PartialHistogramManager.cpp:57-61 | a fresh manager has an empty master and the given body count |
| PartialHistogramManager.Manager.Store | source/hist/PartialHistogramManager.cpp:183-185 | the update each pair, body-water and water calculation ends with: the partial replaced, master moved by the difference, base untouched (also lines 206-208, 246-248, 271-273) |
| PartialHistogramManager.Manager.StoreSelf | source/hist/PartialHistogramManager.cpp:47-51 | the self-correlation update moves both master and master.base by the difference |
| PartialHistogramManager.Manager.CalcSelf | source/hist/PartialHistogramManager.cpp:24-52 | calc_self_correlation stores the body's coordinates and replaces its self-correlation by the bin-exact reference, which holds the square of its total weight; no other partial changes |
| PartialHistogramManager.Manager.CalcPP | source/hist/PartialHistogramManager.cpp:167-186 | calc_pp(n, m) replaces the pair partial by the bin-exact cross-correlation of the two bodies' stored weights, holding twice the product of their totals; no other partial changes |
| PartialHistogramManager.Manager.CalcHP | source/hist/PartialHistogramManager.cpp:230-249 | calc_hp replaces the body-water partial by the bin-exact cross-correlation of the body with the stored hydration layer, holding twice the product of their totals |
| PartialHistogramManager.Manager.CalcHH | source/hist/PartialHistogramManager.cpp:251-274 | calc_hh stores the hydration coordinates and replaces the water partial by their bin-exact self-correlation, holding the square of their total weight |
| PartialHistogramManager.Manager.Clear | source/hist/PartialHistogramManager.cpp:58-72 | master, base and every partial are zero |
| PartialHistogramManager.Manager.Initialize | source/hist/PartialHistogramManager.cpp:57-73 | initialize stores every body's coordinates and sets every self-correlation to its bin-exact reference, every other partial zero |
| PartialHistogramManager.Manager.RefreshBodies | source/hist/PartialHistogramManager.cpp:122-132 | an internally modified body gets its self-correlation replaced by the bin-exact reference and its coordinates stored; a body that only moved gets its coordinates stored |
| PartialHistogramManager.Manager.RefreshBody | source/hist/PartialHistogramManager.cpp:123-131 | step i of the diagonal loop replaces body i's self-correlation by its bin-exact reference when the body was internally modified, and otherwise at most stores its coordinates |
| PartialHistogramManager.Manager.CalcRow | source/hist/PartialHistogramManager.cpp:140-161 | row i replaces each pair with a moved body, and the body-water partial when the body moved or the hydration changed, by its bin-exact reference |
| PartialHistogramManager.Manager.RecomputeRest | source/hist/PartialHistogramManager.cpp:134-162 | with the hydration changed the water coordinates are replaced, and the water partial and every body-water partial recomputed; otherwise only the moved bodies' partials are; the pairs with a moved body in both branches; each recomputed partial equals its bin-exact reference |
| PartialHistogramManager.Manager.Prepare | source/hist/PartialHistogramManager.cpp:116-132 | the first call initializes, later calls refresh the bodies; either way the self-correlations the flags select equal their bin-exact reference |
| PartialHistogramManager.Manager.Calculate | source/hist/PartialHistogramManager.cpp:112-165 | every partial equals its bin-exact reference exactly when the recompute rules select it, and keeps its old value otherwise; master stays the sum of the partials; every flag is reset and the total is master |
| PartialHistogramManager.Manager.ReadySized | source/hist/PartialHistogramManager.cpp:57-73 | every slot of the layout holds a histogram of the axis' bin count |
| PartialHistogramManager.Manager.SumPairRow | source/hist/PartialHistogramManager.cpp:85-92 | row i of the pair sum adds each pair of body i with a lower body to the running sum |
| PartialHistogramManager.Manager.SumPairs | source/hist/PartialHistogramManager.cpp:81-107 | p_pp is master.base plus every pair partial below the diagonal, cut to b bins |
| PartialHistogramManager.Manager.SumBodyWater | source/hist/PartialHistogramManager.cpp:82-103 | p_hp is the sum of the body-water partials cut to b bins |
| PartialHistogramManager.Manager.CalculateAll | source/hist/PartialHistogramManager.cpp:75-110 | the total is the truncated master; p_pp, p_hp and p_hh are the pair, body-water and water components cut to its length, and the three add up to it |
| PartialHistogramManager.Manager.SumSplit | source/hist/PartialHistogramManager.cpp:75-110 | master cut to b bins is the sum of the three components |
| PartialSymmetryManagerMT.KeyCollision | source/core/hist/histogram_manager/PartialSymmetryManagerMT.cpp:51-54 | as written, symmetry 1 of body 1 against body 1 and symmetry 2 of body 1 against body 0 both get key 20300 |
| PartialSymmetryManagerMT.KeysCollide | source/core/hist/histogram_manager/PartialSymmetryManagerMT.cpp:51-54 | with two bodies, body 1 moved and its first symmetry changed, both colliding partials are recomputed in one call, sharing a key as written and not with the corrected key (also lines 215-222, 264-270) |
| PartialSymmetryManagerMT.ResIndexInjective | source/core/hist/histogram_manager/PartialSymmetryManagerMT.cpp:51-54 | the corrected key identifies its two (body, symmetry) pairs exactly, for bodies below 99 and symmetries below 100 |
| PartialSymmetryManagerMT.KeysUnique | source/core/hist/histogram_manager/PartialSymmetryManagerMT.cpp:50-62 | within the self results and within the cross results no two slots share a key, water keys included |
| PartialSymmetryManagerMT.CrossLine | source/core/hist/histogram_manager/PartialSymmetryManagerMT.cpp:518-528 | one coordinate set against n copies gives n calculations of scale 1 under the slot's key |
| PartialSymmetryManagerMT.CrossGrid | source/core/hist/histogram_manager/PartialSymmetryManagerMT.cpp:518-562 | n1 copies against n2 copies give n1·n2 calculations of scale 1, all cross, under the slot's key |
| PartialSymmetryManagerMT.HostLine | source/core/hist/histogram_manager/PartialSymmetryManagerMT.cpp:486-500 | the repeat loop for a symmetry against its own body gives one cross calculation per term under the slot's key |
| PartialSymmetryManagerMT.WaterLine | source/core/hist/histogram_manager/PartialSymmetryManagerMT.cpp:589-592 | n copies against the hydration layer give n calculations of scale 1 |
| PartialSymmetryManagerMT.SlotCalcs | source/core/hist/histogram_manager/PartialSymmetryManagerMT.cpp:451-600 | each slot's calculations go to the self results exactly for the self slots and the water, all under the slot's key |
| PartialSymmetryManagerMT.HostLineScale | source/core/hist/histogram_manager/PartialSymmetryManagerMT.cpp:494-498 | the scales of the symmetry-against-host terms add up to the running sum of the repeat weights |
| PartialSymmetryManagerMT.SlotScale | source/core/hist/histogram_manager/PartialSymmetryManagerMT.cpp:451-600 | each slot's calculations count every pair of atom sets it stands for once: 1 + the symmetry total for a body's self slot, n(n+1)/2 for a symmetry of n copies against its host, the product of the copy counts otherwise |
| PartialSymmetryManagerMT.KeySumAppend | source/core/hist/histogram_manager/PartialSymmetryManagerMT.cpp:299-307 | merging two queues of calculations merges their results key by key |
| PartialSymmetryManagerMT.KeySumAll | source/core/hist/histogram_manager/PartialSymmetryManagerMT.cpp:299-307 | a result whose key every calculation carries is their whole scaled sum |
| PartialSymmetryManagerMT.KeySumNone | source/core/hist/histogram_manager/PartialSymmetryManagerMT.cpp:299-307 | a result whose key no calculation carries is empty |
| PartialSymmetryManagerMT.RunResult | source/core/hist/histogram_manager/PartialSymmetryManagerMT.cpp:213-307 | after the calculator runs, the result under a slot's key is that slot's scaled sum when the slot is planned and empty otherwise: no slot absorbs another's calculations |
| PartialSymmetryManagerMT.CalcAASelf | source/core/hist/histogram_manager/PartialSymmetryManagerMT.cpp:451-463 | calc_aa_self enqueues the body's own calculations, scaled by 1 + the body's symmetry total |
| PartialSymmetryManagerMT.CalcWW | source/core/hist/histogram_manager/PartialSymmetryManagerMT.cpp:466-472 | calc_ww enqueues the hydration layer's self-correlation |
| PartialSymmetryManagerMT.CalcAW | source/core/hist/histogram_manager/PartialSymmetryManagerMT.cpp:567-600 | calc_aw enqueues the body itself, or every copy of its symmetry, against the hydration layer |
| PartialSymmetryManagerMT.CalcHostRepeats | source/core/hist/histogram_manager/PartialSymmetryManagerMT.cpp:486-500 | the repeat loop of calc_aa for a symmetry against its own body enqueues the corrected number of weighted terms |
| PartialSymmetryManagerMT.CalcHostCopies | source/core/hist/histogram_manager/PartialSymmetryManagerMT.cpp:518-529 | calc_aa for a body against a symmetry of another enqueues the body against each copy |
| PartialSymmetryManagerMT.CalcCopiesHost | source/core/hist/histogram_manager/PartialSymmetryManagerMT.cpp:531-542 | calc_aa for a symmetry against another body enqueues each copy against that body |
| PartialSymmetryManagerMT.CalcCopiesCopies | source/core/hist/histogram_manager/PartialSymmetryManagerMT.cpp:544-563 | calc_aa for two symmetries enqueues every copy of the first against every copy of the second |
| PartialSymmetryManagerMT.CalcAA | source/core/hist/histogram_manager/PartialSymmetryManagerMT.cpp:475-564 | calc_aa enqueues exactly the slot's calculations in each of its four cases, for the pairs its assertions allow |
| PartialSymmetryManagerMT.CalcSlot | source/core/hist/histogram_manager/PartialSymmetryManagerMT.cpp:213-298 | the calculations enqueued for one planned slot are that slot's calculations |
| PartialSymmetryManagerMT.Enqueue | source/core/hist/histogram_manager/PartialSymmetryManagerMT.cpp:204-298 | the calculations of a plan are the slots' calculations in plan order |
| PartialSymmetryManagerMT.SelfSlots | source/core/hist/histogram_manager/PartialSymmetryManagerMT.cpp:406-437 | initialize enqueues the self slots of bodies 0 … n-1, in order |
| PartialSymmetryManagerMT.EnqueueSelf | source/core/hist/histogram_manager/PartialSymmetryManagerMT.cpp:406-437 | initialize's first half enqueues exactly the self slots' calculations |
| PartialSymmetryManagerMT.Cleared | source/core/hist/histogram_manager/PartialSymmetryManagerMT.cpp:85-87 | after initialize no body counts as internally modified |
| PartialSymmetryManagerMT.SumStep | source/core/hist/histogram_manager/PartialSymmetryManagerMT.cpp:369-378 | one more partial in calculate_all's running sum cut to b bins |
| PartialSymmetryManagerMT.ComponentsAddUp | source/core/hist/histogram_manager/PartialSymmetryManagerMT.cpp:351-378 | while master is base plus every partial, the pair, body-water and water components cut to b bins add up to master cut to b bins |
| PartialSymmetryManagerMT.Part | source/core/hist/histogram_manager/PartialSymmetryManagerMT.cpp:373-376 | calculate_all reads the first b bins of a partial |
| PartialSymmetryManagerMT.CutAppend | source/core/hist/histogram_manager/PartialSymmetryManagerMT.cpp:369-378 | cutting a concatenation of slot lists adds the cuts |
| PartialSymmetryManagerMT.CutIsSum | source/core/hist/histogram_manager/PartialSymmetryManagerMT.cpp:369-378 | summing the cut partials is cutting the sum |
| PartialSymmetryManagerMT.PairTotalIsCut | source/core/hist/histogram_manager/PartialSymmetryManagerMT.cpp:369-375 | the four nested loops of calculate_all add up exactly the pair slots |
| PartialSymmetryManagerMT.WaterTotalIsCut | source/core/hist/histogram_manager/PartialSymmetryManagerMT.cpp:369-377 | the body-water accumulation adds up exactly the body-water slots |
| PartialSymmetryManagerMT.LineSumIsCut | source/core/hist/histogram_manager/PartialSymmetryManagerMT.cpp:372-374 | the innermost loop adds symmetry s1 of b1 against every symmetry of b2 |
| PartialSymmetryManagerMT.PairsSumIsCut | source/core/hist/histogram_manager/PartialSymmetryManagerMT.cpp:371-375 | the body loop adds symmetry s1 of b1 against every symmetry of the bodies up to b1 |
| PartialSymmetryManagerMT.BodySumIsCut | source/core/hist/histogram_manager/PartialSymmetryManagerMT.cpp:370-378 | the symmetry loop adds every symmetry of b1 against the bodies up to it |
| PartialSymmetryManagerMT.WaterSumIsCut | source/core/hist/histogram_manager/PartialSymmetryManagerMT.cpp:376-377 | the body-water accumulation of b1 adds every symmetry of b1 against the hydration layer |
| PartialSymmetryManagerMT.SumLine | source/core/hist/histogram_manager/PartialSymmetryManagerMT.cpp:372-374 | the innermost loop of calculate_all adds the pair partials of one symmetry against one lower body |
| PartialSymmetryManagerMT.SumSymmetry | source/core/hist/histogram_manager/PartialSymmetryManagerMT.cpp:371-375 | the body loop of calculate_all adds one symmetry against every body up to b1 |
| PartialSymmetryManagerMT.SumBody | source/core/hist/histogram_manager/PartialSymmetryManagerMT.cpp:370-378 | the symmetry loop adds body b1's pair partials to p_aa and its body-water partials to p_aw |
| PartialSymmetryManagerMT.SumPartials | source/core/hist/histogram_manager/PartialSymmetryManagerMT.cpp:361-379 | p_aa is base plus every pair partial and p_aw every body-water partial, each over its first b bins |
| PartialSymmetryManagerMT.Manager.constructor | source/core/hist/histogram_manager/PartialSymmetryManagerMT.cpp:38-45 | a fresh manager has an empty master |
| PartialSymmetryManagerMT.Manager.Combine | source/core/hist/histogram_manager/PartialSymmetryManagerMT.cpp:603-726 | combine_* replaces one partial and moves master by the difference |
| PartialSymmetryManagerMT.Manager.Clear | source/core/hist/histogram_manager/PartialSymmetryManagerMT.cpp:400-430 | master, base and every partial are zero histograms of the axis' bin count |
| PartialSymmetryManagerMT.Manager.Initialize | source/core/hist/histogram_manager/PartialSymmetryManagerMT.cpp:399-449 | after initialize each body's self slot holds its result and every other partial is zero |
| PartialSymmetryManagerMT.Manager.CombinePlan | source/core/hist/histogram_manager/PartialSymmetryManagerMT.cpp:299-307 | after the combine tasks a planned slot holds its scaled sum and every other slot its old histogram |
| PartialSymmetryManagerMT.Manager.Calculate | source/core/hist/histogram_manager/PartialSymmetryManagerMT.cpp:65-326 | on the first call every partial holds its initial value or, when selected with the internal flags cleared, its new histogram; later a slot holds its new histogram iff the recompute rules select it; every flag is reset and the total is master truncated |
| PartialSymmetryManagerMT.Manager.CalculateAll | source/core/hist/histogram_manager/PartialSymmetryManagerMT.cpp:350-397 | p_tot is the truncated master; p_aa, p_aw and p_ww are base-plus-pairs, body-water and water cut to its length, and they add up to p_tot |
| Histograms.Resize | source/core/hist/histogram_manager/PartialHistogramManagerMT.cpp:158-191 | resizing keeps the first bins and pads with zero bins |
| Histograms.ShiftUpdate | source/core/hist/histogram_manager/PartialHistogramManagerMT.cpp:273-306 | subtracting the old partial and adding the new one moves a sum base + s to base + (s - old + new) |
| Histograms.SumOverUpdate | source/core/hist/histogram_manager/PartialHistogramManagerMT.cpp:273-306 | replacing the histogram of a slot listed once moves the sum over the slots by the difference |
| Histograms.SumOverOutside | source/core/hist/histogram_manager/PartialHistogramManagerMT.cpp:273-306 | replacing a slot outside a list leaves the sum over the list alone |
| Histograms.SumOverAppend | source/core/hist/histogram_manager/PartialHistogramManagerMT.cpp:186-205 | the sum over a concatenation is the sum of the two sums |
| Histograms.SumOverZeros | source/core/hist/histogram_manager/PartialHistogramManagerMT.cpp:225-239 | a sum of zero partials is zero |
| Histograms.ResizeAdd | source/core/hist/histogram_manager/PartialHistogramManagerMT.cpp:186-205 | cutting a sum is summing the cuts |
| Histograms.MaxBin | source/core/hist/histogram_manager/PartialHistogramManagerMT.cpp:150-157 | the truncated length is at least 10; when above 10 its last bin is flagged, and no bin from it on is |
| Histograms.MaxBinUnique | source/core/hist/histogram_manager/PartialHistogramManagerMT.cpp:150-157 | those three conditions determine the truncated length |
| Histograms.TruncationBin | source/core/hist/histogram_manager/PartialHistogramManagerMT.cpp:151-157 | the downward scan from the last bin to bin 10 finds exactly that length |
| Histograms.Truncated | source/core/hist/histogram_manager/PartialHistogramManagerMT.cpp:149-158 | the truncated total agrees with the master on its bins, drops only zero bins, and ends on a non-zero bin when longer than 10 |
| Histograms.TruncatedKeepsMass | source/core/hist/histogram_manager/PartialHistogramManagerMT.cpp:149-158 | truncation keeps the total count |
| Histograms.MassResize | source/hist/PartialHistogramManager.cpp:360-363 | resizing keeps the total count when only zero bins are cut off |
| Histograms.NonZeroAny | source/hist/PartialHistogramManager.cpp:353-354 | a bin is flagged exactly when one of p_pp, p_hh and p_hp is non-zero there |
| State.StateManager.ResetToFalse | source/core/hist/histogram_manager/PartialHistogramManagerMT.cpp:146 | reset_to_false clears every internal, external, symmetry and hydration flag and keeps the shapes |

## Left out

Input, output and parsing:
- File and console I/O. Most readers take their input as a sequence of lines. The CIF reader's input stream is the file's text with a character position and a failed flag, so `getline` and `seekg` move that position.
- `utility::split` is not part of this model. It is taken to split on the delimiter and drop empty tokens.
- `std::stoi`, `std::stod` and Python's `float` are modelled as decimal parsers. Exponents, `inf` and `nan` are not accepted.
- Number formatting (`fixedwidth`) is not part of this model. The PDB printer takes the formatting function as a parameter.
- Exception and error message texts are not modelled. Only which error is raised is modelled.
- CifReader.ParseResidue: bond application from the residue's bond table (source/core/io/detail/structure/CIFReader.cpp:114-146) is not modelled.
- CifReader.RouteAtoms: the numeric conversions of the `atom_site` fields are done by the record constructor, which is not part of this model. Atoms are routed by their raw fields.
- CifReader.GroupAt: for a lone-row ion (source/core/io/detail/structure/CIFReader.cpp:85), `Residue::add_atom` is passed the charge of `get_charge` as an unsigned value. The model uses the signed `IonicCharge`. `parse_ion` itself reads a signed `stoi` charge, which the model keeps.
- CifReader.Rows: the move back after a `loop_` line (source/core/io/detail/structure/CIFReader.cpp:453) uses the length of the previous data line, as in the source, so the stream does not return to the start of the `loop_` line. `CifReader.RowsBeforeLoop` and `CifReader.LoopStopLandsInRow` state where it lands. The model keeps this rule and has no corrected one.
- CifReader.ExtractSection: inline label values (`_label value` on one line) keep their quotes, as in the source.
- CifReader.Value, CifReader.ParseIon, CifReader.ParseResidue, CifReader.ParseResidueSections: require that every cell they read lies inside its row. The source reads such a cell with `operator[]`, and reading past the end of a row is undefined behaviour. Other rows, such as a short inline row, may have any length.
- AtomRecords: the legacy reader's charge lookup table is a parameter.

Plot documents:
- PlotHelper: drawing is reduced to abstract events. `savefig` and `plot_intensity_fit` are not modelled, and neither is the Matplotlib state.
- PlotHelper: `exit(1)` on an unknown option is modelled as an error result.

Grids:
- VoxelGrid.Grid.RemoveMask, HydrateGrid.Grid.RemoveMask: require that no more members are removed than there are. They also require `|atoms| <= |mask|`. The source writes into a vector sized in advance and indexes the mask by atom.
- VoxelGrid.Grid.RemoveAtoms, VoxelGrid.Grid.RemoveWaters, HydrateGrid.Grid.RemoveAtoms, HydrateGrid.Grid.RemoveWaters: require that the removed members are present. The source relies on the same fact when it sizes its result vector.
- VoxelGrid.Grid.RemoveAtom, VoxelGrid.Grid.RemoveWater, HydrateGrid.Grid.RemoveAtom, HydrateGrid.Grid.RemoveWater: the source erases the list node and then reads the member through the dangling iterator. The model deflates the member that was found.
- CoreGrid.Grid: adding a member needs it to lie inside the grid. The source checks this only in debug builds, so the model requires it.
- CoreGrid.Grid.AddBody: the early return for an empty body tests the body's atom count directly. The source tests `size_atom` for this.
- CoreGrid: the atom expander is a parameter. `generate_excluded_volume` and `save` are not modelled.
- VoxelGrid.ExpandThenDeflate, VoxelGrid.ExpandThenDeflateVolume, VoxelGrid.AddThenRemove: each is about one member next to members that did not reach it. The whole-list fact for this grid is `VoxelGrid.VolumeRoundTrip`.
- HydrateGrid.AtomExpandThenDeflate, HydrateGrid.AtomExpandThenDeflateVolume, HydrateGrid.WaterExpandThenDeflate, HydrateGrid.AddThenRemove, HydrateGrid.AddThenRemoveWater: each is about one member. The whole-list facts for this grid are `HydrateGrid.VolumeRoundTrip` and `HydrateGrid.AddThenRemoveAll`.
- CoreGrid.PlaceThenClear: is about one atom. The whole-body fact is `CoreGrid.BodyRoundTrip`.
- CoreGrid.BodyRoundTrip: covers bodies added without expansion, with an expander that leaves unexpanded members alone. With expansion the outcome depends on the expander, which this model takes as a parameter.
- VoxelGrid: no whole-list add-then-remove lemma is stated for this grid. Its `remove(vector<bool>)` subtracts one per removed atom (source/grid/Grid.cpp:492-496), while `add(Atom)` adds one only for an empty bin (line 422). So two atoms sharing a bin do not round-trip through that path.
- HydrateGrid.Grid.ClearWaters: the "something went wrong" exception cannot be raised once the member lists are consistent, and it is not modelled.

Peak finding:
- PeakFinder: the `DEBUG_PLOT` and `DEBUG_OUTPUT` branches are not modelled.
- PeakFinder: the slope and the prominence are abstract functions, because they are computed in floating point.
- PeakFinder.ProminenceFilter: reading the back of an empty kept vector (source/math/PeakFinder.cpp:277) is undefined behaviour. The model returns the error `EmptyBack` there.
- PeakFinder: `std::min` in the prominence merges (source/math/PeakFinder.cpp:278, 298) picks the smaller index, not the lower value. This is modelled as written.

Histogram managers:
- Concurrency: the thread pool's tasks are modelled as running in enqueue order, and the combine tasks as running in list order.
- The distance calculator and the distance bins are abstract. Their results are given as histograms.
- SymmetryManager.Calculate: the single-threaded symmetry manager always includes waters and ignores the `closed` flag. It is modelled as the multi-threaded rule applied to `OpenBodies` with waters on.
- SymmetryManagerMT.Calculate, SymmetryManagerMT.AddSelf, SymmetryManager.Calculate: require at least one body. The source reads `res.self[0]` without a check (source/core/data/symmetry/SymmetryManagerMT.cpp:463, source/core/data/SymmetryManager.cpp:265), which is undefined behaviour when there are no bodies.
- SymmetryManagerMT and PartialSymmetryManagerMT: the console output of the `DEBUG_MODE` and `DEBUG_INFO_PSMMT` branches is not modelled. `DEBUG_INFO_PSMMT` is switched on (source/core/hist/histogram_manager/PartialSymmetryManagerMT.cpp:31); its branches only print.
- `calc_pp(index)` (source/hist/PartialHistogramManager.cpp:188-228) is not modelled. Nothing calls it, and its second loop writes partials above the diagonal, which are never allocated.
- `Histogram::shorten_axis` is not part of this model. It is modelled with the same truncation rule the managers use (`Histograms.Truncated`).
- PartialHistogramManager.Manager.CalculateAll: requires at least 10 bins, because the source reads element `k` of every partial for every `k` below the shortened length.
- PartialHistogramManagerMT.KeysUnique: proved for at most 100 bodies. From 103 bodies on, the pairs (102,0) and (2,1) both get key 102. The model gives both pairs the one result stored under that key. The source moves that result out for the pair it reaches first, (2,1), at source/core/hist/histogram_manager/PartialHistogramManagerMT.cpp:130, and gives the second pair, (102,0), the empty histogram left behind.

Corrected rules: several manager-level models use the corrected rule of a row under "## Findings", not the source's rule. Each row's as-written member models the source's rule.
- SymmetryManagerMT.Calculate: sums the jobs chosen by the corrected `Symmetries.HostTerms` and `Symmetries.Weight`, and over every copy of each symmetry as the corrected `SymmetryManagerMT.Repeats` does.
- SymmetryManagerMT.CrossJobs: lists the host-versus-copy jobs by the corrected `Symmetries.HostTerms` and `Symmetries.Weight`, and over every copy of each symmetry as the corrected `SymmetryManagerMT.Repeats` does.
- SymmetryManagerMT.CrossJobsStart: is proved about the job lists built with the corrected `Symmetries.HostTerms` and `Symmetries.Weight`, and over every copy of each symmetry as the corrected `SymmetryManagerMT.Repeats` does.
- SymmetryManagerMT.BodyJobs: lists one body's jobs by the corrected `Symmetries.HostTerms` and `Symmetries.Weight`, and over every copy of each symmetry as the corrected `SymmetryManagerMT.Repeats` does.
- SymmetryManagerMT.SymJobs: lists one symmetry's jobs by the corrected `Symmetries.HostTerms` and `Symmetries.Weight`, and over every copy of each symmetry as the corrected `SymmetryManagerMT.Repeats` does.
- SymmetryManagerMT.Repeats: lists the repeats by the corrected `Symmetries.HostTerms` and `Symmetries.Weight`, and over every copy of each symmetry as the corrected `SymmetryManagerMT.Repeats` does.
- SymmetryManagerMT.RepeatBlock: lists one repeat's jobs by the corrected `Symmetries.HostTerms` and `Symmetries.Weight`, and over every copy of each symmetry as the corrected `SymmetryManagerMT.Repeats` does.
- SymmetryManagerMT.Enqueue: enqueues the jobs chosen by the corrected `Symmetries.HostTerms` and `Symmetries.Weight`, and over every copy of each symmetry as the corrected `SymmetryManagerMT.Repeats` does.
- SymmetryManagerMT.EnqueueBody: enqueues one body's jobs chosen by the corrected `Symmetries.HostTerms` and `Symmetries.Weight`, and over every copy of each symmetry as the corrected `SymmetryManagerMT.Repeats` does.
- SymmetryManagerMT.EnqueueSyms: enqueues one body's symmetry jobs chosen by the corrected `Symmetries.HostTerms` and `Symmetries.Weight`, and over every copy of each symmetry as the corrected `SymmetryManagerMT.Repeats` does.
- SymmetryManagerMT.EnqueueRepeat: enqueues one repeat's jobs chosen by the corrected `Symmetries.HostTerms` and `Symmetries.Weight`, and over every copy of each symmetry as the corrected `SymmetryManagerMT.Repeats` does.
- SymmetryManager: inherits this from `SymmetryManagerMT`.
- PartialSymmetryManagerMT: `CalcHostRepeats` uses `Symmetries.HostTerms`.
- PartialSymmetryManagerMT.Manager.Calculate: enqueues the list of `SymmetryPlan.CombineList`, not the loops as written. It uses the corrected key `ResIndex`, whose first pair code is shifted by 10000, not 100.
- GridParts.BoundingBoxIndex: the three grids use this corrected bounding box.
- PeakFinder.FindMinima: uses the corrected merge (`MergeBounds`) and the corrected relax (`RelaxBound`). Its prominence filter compares the right neighbour against the last minimum.
- Constants.ToString: used by `PdbFormat`, so Kr prints as `Kr`.
- Constants.IonicCharge: used by `CifReader`. The charge is signed, so Cl gives -1.

## Findings

| source | as written | input that shows it | evidently intended | confidence | as-written member | corrected member |
|---|---|---|---|---|---|---|
| source/core/data/symmetry/SymmetryManagerMT.cpp:170-183 | host-versus-copy terms are enqueued for `i < repeat - closed`, with weight `repeat - i`; PartialSymmetryManagerMT.cpp:493-497 has the same loop | a closed symmetry with one repeat, for example a translation | a closed symmetry folds repeats together only when `repeat >= 2`, so its single copy still counts once | not executed | Symmetries.ClosedSingleRepeatLost (rules `HostTermsAsWritten`, `WeightAsWritten`) | Symmetries.CorrectionIsLocal (rules `HostTerms`, `Weight`) |
| source/core/data/symmetry/SymmetryManagerMT.cpp:171 | the fold's bound `i_repeat1 < repeat - closed` also bounds the copy's terms against the later bodies (lines 210-278) and the later symmetries of its body (lines 280-314) | two bodies, the first with a closed symmetry of two repeats: its second copy is never paired with the second body | only the host-versus-copy term of the last copy folds onto the first; its other terms are still computed, as PartialSymmetryManagerMT.cpp:534 and :552 do for every copy | not executed | SymmetryManagerMT.ClosedLastCopyUnpaired (rules `RepeatsAsWritten`, `RepeatBlockAsWritten`) | SymmetryManagerMT.EveryCopyMeetsLaterBodies (rules `Repeats`, `RepeatBlock`, `HostTerm`) |
| source/core/hist/histogram_manager/PartialSymmetryManagerMT.cpp:51-54 | `to_res_index` shifts the first pair code by 100 | (1,1,1,0) and (1,2,0,0) both give 20300 | distinct keys for distinct partials | not executed | PartialSymmetryManagerMT.KeyCollision, PartialSymmetryManagerMT.KeysCollide (rule `ResIndexAsWritten`) | PartialSymmetryManagerMT.ResIndexInjective, PartialSymmetryManagerMT.KeysUnique (rule `ResIndex`) |
| source/grid/Grid.cpp:145-146 | the upper bound becomes `loc + 1` only when it is below `loc` | atoms in bins 3 and 4 | `min <= loc < max` for every atom | not executed | GridParts.BoundingBoxMissesLast | GridParts.BoundingBoxIndex |
| source/math/PeakFinder.cpp:135-153 | the merge loop stops before the last bound and skips bounds that overlap nothing | bounds 0-4, 3-6 and 8-9 around minima 2, 4 and 8 | overlapping bounds merged and the others kept | not executed | PeakFinder.MergeDropsMinimum | PeakFinder.MergedMinima |
| source/math/PeakFinder.cpp:196-211 | the first relax step is taken without checking against the minimum | the bound 1-10 around the minimum at 2 becomes 3-10 | the relaxed bound still contains its minimum | not executed | PeakFinder.RelaxPassesMinimum | PeakFinder.RelaxBound |
| source/math/PeakFinder.cpp:293 | the right neighbour is tested with `i != size - 1` over the data points | 10 data points and two minima | the test compares against the last minimum, not the last data point | not executed | PeakFinder.FilterReadsPastEnd | PeakFinder.FilterNeverPastEnd |
| source/core/hist/histogram_manager/PartialSymmetryManagerMT.cpp:95-98 | a body whose atoms changed has its self-correlation recomputed by `calc_aa_self`, which only enqueues the calculation; `calculate` queues no combine task for it, unlike `initialize` (lines 439-447) | one body without symmetries whose atoms changed | the recomputed self-correlation is combined into the body's partial | not executed | SymmetryPlan.SelfNeverCombined (rule `CombineListAsWritten`) | SymmetryPlan.CombineList |
| source/core/hist/histogram_manager/PartialSymmetryManagerMT.cpp:215-249 | the third block (247-249) does not skip bodies the first block already handled | two bodies, the lower one moved and the upper one's symmetry changed | each partial is recomputed once | not executed | SymmetryPlan.DuplicateEnqueue | SymmetryPlan.CopyBlock |
| source/core/hist/histogram_manager/PartialSymmetryManagerMT.cpp:264-275 | the diagonal block is entered only when the higher symmetry changed | one body whose first of two symmetries changed | pairs are recomputed when either symmetry changed | not executed | SymmetryPlan.DiagonalMiss | SymmetryPlan.RowTasks |
| source/core/constants/Constants.cpp:170-177 | the ionic charge is returned as an unsigned integer | Cl gives 4294967295 | -1 | not executed | Constants.IonicChargeWraps | Constants.IonicCharge |
| source/core/constants/Constants.cpp:265-330 | the element printer has no case for Kr, which the parser (lines 42-53) accepts | Kr | prints `Kr` | not executed | Constants.KrDoesNotPrint | Constants.ToString |
