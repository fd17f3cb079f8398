/** The mmCIF (PDBx) reader's tokenising core: pulling one labelled section
    out of a line stream, merging quoted values, the label index, building
    ions and residues from the chemical-component sections, and the
    routing of parsed atoms into atoms, waters and discarded hydrogens. */
module CifReader {
  import opened Wrappers
  import opened Text
  import opened Numbers
  import opened Constants
  import opened PdbFormat
  import opened AtomRecords

  /** One CIF section: its labels (with the section prefix removed) and its
      rows of values. */
  datatype Section = Section(labels: seq<string>, data: seq<seq<string>>)

  /** Why reading fails. Most are the reader's `io_error`; the others are
      the standard-library exceptions the reader lets through. */
  datatype CifError =
    | LabelsWithoutData(pattern: string)              // io_error: a foreign label ends a section without inline data
    | LabelTooShort(text: string)                     // std::out_of_range: the label is not longer than the pattern
    | UnterminatedQuote(line: string)                 // io_error
    | WrongArity(line: string, expected: nat, got: nat) // io_error: values and labels differ in number
    | IonRows(count: nat)                             // io_error: an ion section must have one row
    | MissingLabel(name: string)                      // io_error: `comp_id` or `charge` missing from an ion section
    | UnrecognizedIon(comp: string)                   // io_error: the ion's name is no element symbol
    | NotAnInteger(text: string)                      // std::stoi failed
    | EmptyData                                       // io_error: an empty atom or bond section
    | MissingAtomLabels                               // io_error: `comp_id` or `atom_id` missing
    | NoTypeSymbol                                    // std::out_of_range: `type_symbol` missing
    | UnknownElement(symbol: string)                  // parse_element_string failed
    | NoIonicCharge(element: AtomT)                   // the ionic charge table throws
    | MissingBondLabels                               // io_error: a bond label missing

  /** Values listed in front of a result. */
  function Prepend<T>(xs: seq<T>, r: Result<seq<T>, CifError>): Result<seq<T>, CifError> {
    if r.Err? then r else Ok(xs + r.value)
  }

  // ---------------------------------------------------------------------
  // The label index

  /** `get_label_map`: every label mapped to its position; a label listed
      twice maps to its last position. */
  function LabelMap(labels: seq<string>): (m: map<string, nat>)
    ensures forall l :: l in m <==> l in labels
    ensures forall l :: l in m ==> m[l] < |labels| && labels[m[l]] == l
    ensures forall l, j :: l in m && m[l] < j < |labels| ==> labels[j] != l
    decreases |labels|
  {
    if labels == [] then map[]
    else
      var k := |labels| - 1;
      var m := LabelMap(labels[..k]);
      assert forall l :: l in labels <==> l in labels[..k] || l == labels[k];
      m[labels[k] := k]
  }

  /** The loop of `get_label_map`. */
  method GetLabelMap(labels: seq<string>) returns (m: map<string, nat>)
    ensures m == LabelMap(labels)
  {
    m := map[];
    var i := 0;
    while i < |labels|
      invariant i <= |labels|
      invariant m == LabelMap(labels[..i])
    {
      assert labels[..i + 1][..i] == labels[..i];
      m := m[labels[i] := i];
      i := i + 1;
    }
    assert labels[..i] == labels;
  }

  /** A unique label maps to its only position. */
  lemma LabelMapUnique(labels: seq<string>, j: nat)
    requires j < |labels|
    requires forall k :: 0 <= k < |labels| && k != j ==> labels[k] != labels[j]
    ensures labels[j] in LabelMap(labels) && LabelMap(labels)[labels[j]] == j
  {
    var m := LabelMap(labels);
    assert labels[m[labels[j]]] == labels[j];
  }

  // ---------------------------------------------------------------------
  // The input stream

  /** A character position in the file's text and whether an operation on
      the stream has failed. */
  datatype Cursor = At(pos: nat, failed: bool)

  /** How many reads the stream still answers. */
  function Left(text: string, c: Cursor): nat {
    if c.failed || c.pos > |text| then 0 else |text| - c.pos + 1
  }

  /** The position of the first line break from `i` on, or the end of the text. */
  function LineEnd(text: string, i: nat): (e: nat)
    requires i <= |text|
    ensures i <= e <= |text|
    ensures e < |text| ==> text[e] == '\n'
    ensures forall k :: i <= k < e ==> text[k] != '\n'
    decreases |text| - i
  {
    if i == |text| || text[i] == '\n' then i else LineEnd(text, i + 1)
  }

  /** `getline`: the characters up to the next line break, which is
      consumed but not returned. At the end of the text nothing is read and
      the stream fails; a failure sticks. */
  function NextLine(text: string, c: Cursor): (r: (Option<string>, Cursor))
    ensures r.0.Some? ==> Left(text, r.1) < Left(text, c) && !r.1.failed
    ensures r.0.Some? ==> var e := LineEnd(text, c.pos);
      r.0.value == text[c.pos..e] && r.1.pos == (if e < |text| then e + 1 else e)
    ensures r.0.None? ==> r.1.failed && r.1.pos == c.pos
  {
    if c.failed || c.pos >= |text| then (None, At(c.pos, true))
    else
      var e := LineEnd(text, c.pos);
      (Some(text[c.pos..e]), At(if e < |text| then e + 1 else e, false))
  }

  /** `seekg(-n, std::ios_base::cur)`: `n` characters back. A failed stream
      ignores the request, and a move before the start of the text fails. */
  function Back(c: Cursor, n: nat): Cursor {
    if c.failed then c else if n > c.pos then At(c.pos, true) else At(c.pos - n, false)
  }

  /** Moving back by the length of a line read and its line break returns
      the stream to the start of that line. */
  lemma BackUndoesRead(text: string, c: Cursor)
    requires NextLine(text, c).0.Some? && LineEnd(text, c.pos) < |text|
    ensures Back(NextLine(text, c).1, |NextLine(text, c).0.value| + 1) == c
  {
    var e := LineEnd(text, c.pos);
    assert |text[c.pos..e]| == e - c.pos;
  }

  /** An input stream over the characters of a file. */
  class LineStream {
    const text: string
    var pos: nat
    var failed: bool

    function Cursor(): Cursor
      reads this
    {
      At(pos, failed)
    }

    constructor (text: string)
      ensures this.text == text && Cursor() == At(0, false)
    {
      this.text := text;
      pos := 0;
      failed := false;
    }

    method Getline() returns (line: Option<string>)
      modifies this
      ensures (line, Cursor()) == NextLine(text, old(Cursor()))
    {
      if failed || pos >= |text| {
        failed := true;
        return None;
      }
      var e := pos;
      while e < |text| && text[e] != '\n'
        invariant pos <= e <= |text|
        invariant LineEnd(text, e) == LineEnd(text, pos)
        decreases |text| - e
      {
        e := e + 1;
      }
      line := Some(text[pos..e]);
      pos := if e < |text| then e + 1 else e;
    }

    method Seek(n: nat)
      modifies this
      ensures Cursor() == Back(old(Cursor()), n)
    {
      if !failed {
        if n > pos {
          failed := true;
        } else {
          pos := pos - n;
        }
      }
    }
  }

  // ---------------------------------------------------------------------
  // Extracting a section

  const NEWLINES: set<char> := {'\n', '\r'}

  /** A label-phase line: trailing line breaks and leading blanks removed. */
  function LabelLine(line: string): string { TrimLeading(TrimTrailing(line, NEWLINES), ' ') }

  /** A data-phase line: trailing line breaks removed, then blanks at both ends. */
  function DataLine(line: string): string { TrimLeading(TrimTrailing(TrimTrailing(line, NEWLINES), {' '}), ' ') }

  /** The tokens of a label line, which is never empty of tokens. */
  function LabelTokens(t: string): (ts: seq<string>)
    requires t != [] && t[0] == '_'
    ensures |ts| >= 1
  {
    SplitOn(t, ' ')
  }

  /** Where the label phase stops: the labels and inline values so far, the
      current line, the cursor, and whether a foreign label ended the section. */
  datatype Labelled = Labelled(labels: seq<string>, row0: seq<string>, line: string, at: Cursor, foreign: bool)

  /** A label line of the section: its label with the pattern and the
      separator after it removed, and its value when the line has exactly
      one beside the label. */
  function Absorb(pattern: string, t: string, labels: seq<string>, row0: seq<string>): (seq<string>, seq<string>)
    requires t != [] && t[0] == '_'
    requires |LabelTokens(t)[0]| >= |pattern| + 1
  {
    var ts := LabelTokens(t);
    (labels + [ts[0][|pattern| + 1..]], if |ts| == 2 then row0 + [ts[1]] else row0)
  }

  /** What one line does to the label phase: it stops the phase with a
      result, or the phase goes on with these labels and inline values. */
  datatype Pass = Stop(result: Result<Labelled, CifError>) | Go(labels: seq<string>, row0: seq<string>)

  /** One line of the label phase. A line not starting with '_' stops it
      and starts the data; a label of another section stops the whole
      section, which must then have inline data, and the stream moves back
      by that line's length and one so that the caller reads it again; a
      label of the section is absorbed and a blank line skipped. */
  function LabelPass(pattern: string, line: string, c: Cursor, labels: seq<string>, row0: seq<string>): (p: Pass)
    ensures p.Stop? && p.result.Ok? && p.result.value.foreign ==> p.result.value.row0 != []
    ensures p.Go? ==> |labels| <= |p.labels| <= |labels| + 1
  {
    var t := LabelLine(line);
    if t != [] && t[0] != '_' then Stop(Ok(Labelled(labels, row0, t, c, false)))
    else if t != [] && !StartsWith(LabelTokens(t)[0], pattern) then
      if row0 == [] then Stop(Err(LabelsWithoutData(pattern))) else Stop(Ok(Labelled(labels, row0, t, Back(c, |line| + 1), true)))
    else if t != [] && |LabelTokens(t)[0]| < |pattern| + 1 then Stop(Err(LabelTooShort(LabelTokens(t)[0])))
    else
      var next := if t == [] then (labels, row0) else Absorb(pattern, t, labels, row0);
      Go(next.0, next.1)
  }

  /** The label phase, from the current `line` on, a line at a time until
      a line stops it or the text ends. */
  function Labels(pattern: string, text: string, line: string, c: Cursor,
                  labels: seq<string>, row0: seq<string>): (r: Result<Labelled, CifError>)
    ensures r.Ok? && r.value.foreign ==> r.value.row0 != []
    decreases Left(text, c)
  {
    match LabelPass(pattern, line, c, labels, row0)
    case Stop(result) => result
    case Go(labels', row0') =>
      var (l, c') := NextLine(text, c);
      if l.None? then Ok(Labelled(labels', row0', "", c', false))
      else Labels(pattern, text, l.value, c', labels', row0')
  }

  /** One data line as a row: its tokens with quotes merged, which must be as
      many as there are labels. */
  function Row(t: string, count: nat): (r: Result<seq<string>, CifError>)
    ensures r.Ok? ==> |r.value| == count
  {
    match MergedFrom(SplitOn(t, ' '), 0)
    case None => Err(UnterminatedQuote(t))
    case Some(values) => if |values| != count then Err(WrongArity(t, count, |values|)) else Ok(values)
  }

  /** The data loop, from the current `line` on, up to where it stops: the
      rows, the cursor there, and the line whose length the stream then moves
      back by. Blank lines are skipped; a line starting with '#' or '_' ends
      the section and is that line itself. A following line starting with
      "loop_", or the end of the text, ends it too, and the line is still
      the one before it. */
  function Scan(text: string, line: string, c: Cursor, count: nat, rows: seq<seq<string>>)
    : (r: Result<(seq<seq<string>>, Cursor, string), CifError>)
    ensures r.Ok? ==> Extends(r.value.0, rows, count)
    decreases Left(text, c)
  {
    var t := DataLine(line);
    if t != [] && (t[0] == '#' || t[0] == '_') then Ok((rows, c, line))
    else
      var more :- if t == [] then Ok(rows) else AddRow(rows, t, count);
      var next := NextLine(text, c);
      if next.0.None? || StartsWith(next.0.value, "loop_") then Ok((more, next.1, line))
      else
        var r := Scan(text, next.0.value, next.1, count, more);
        if r.Ok? then ExtendsTwice(r.value.0, more, rows, count); r else r
  }

  /** The data phase: the data loop, then the stream moved back by the
      length of the line `Scan` ends on and one. After a '#' or '_' line
      that is the line itself; after a `loop_` line it is the line before
      it. At the end of the text the failed stream ignores the move. */
  function Rows(text: string, line: string, c: Cursor, count: nat, rows: seq<seq<string>>)
    : (r: Result<(seq<seq<string>>, Cursor), CifError>)
    ensures r.Ok? ==> Extends(r.value.0, rows, count)
  {
    var (data, stop, last) :- Scan(text, line, c, count, rows);
    Ok((data, Back(stop, |last| + 1)))
  }

  /** `rows` starts with `init`, and every row added has `count` values. */
  predicate Extends(rows: seq<seq<string>>, init: seq<seq<string>>, count: nat) {
    && |rows| >= |init|
    && (forall k :: 0 <= k < |init| ==> rows[k] == init[k])
    && (forall k :: |init| <= k < |rows| ==> |rows[k]| == count)
  }

  lemma ExtendsTwice(r: seq<seq<string>>, more: seq<seq<string>>, rows: seq<seq<string>>, count: nat)
    requires Extends(r, more, count)
    requires Extends(more, rows, count)
    ensures Extends(r, rows, count)
  {
  }

  function AddRow(rows: seq<seq<string>>, t: string, count: nat): (r: Result<seq<seq<string>>, CifError>)
    ensures r.Ok? ==> |r.value| == |rows| + 1 && Extends(r.value, rows, count)
  {
    var values :- Row(t, count);
    Ok(rows + [values])
  }

  /** `extract_section(pattern, first, input)`: the section whose first
      line `first` the caller has already read, and where the stream stands
      afterwards. */
  function Extract(pattern: string, first: string, text: string, c: Cursor)
    : (r: Result<(Section, Cursor), CifError>)
  {
    var lab :- Labels(pattern, text, first, c, [], []);
    if lab.foreign then Ok((Section(lab.labels, [lab.row0]), lab.at))
    else
      var out :- Rows(text, lab.line, lab.at, |lab.labels|, if lab.row0 == [] then [] else [lab.row0]);
      Ok((Section(lab.labels, out.0), out.1))
  }

  /** Every row after the first has one value per label, and so has the
      first unless it holds the inline values of the label lines; an empty
      inline row is dropped. */
  lemma ExtractRows(pattern: string, first: string, text: string, c: Cursor)
    requires Extract(pattern, first, text, c).Ok?
    ensures var s := Extract(pattern, first, text, c).value.0;
      var lab := Labels(pattern, text, first, c, [], []).value;
      && s.labels == lab.labels
      && (forall k :: 0 < k < |s.data| ==> |s.data[k]| == |s.labels|)
      && (lab.row0 == [] ==> forall k :: 0 <= k < |s.data| ==> |s.data[k]| == |s.labels|)
      && (lab.row0 != [] ==> s.data != [] && s.data[0] == lab.row0)
      && (lab.foreign ==> s.data == [lab.row0])
  {
    var lab := Labels(pattern, text, first, c, [], []).value;
    if !lab.foreign {
      var init: seq<seq<string>> := if lab.row0 == [] then [] else [lab.row0];
      var out := Rows(text, lab.line, lab.at, |lab.labels|, init);
      assert out.Ok?;
      assert Extract(pattern, first, text, c).value.0 == Section(lab.labels, out.value.0);
      assert Extends(out.value.0, init, |lab.labels|);
    }
  }

  /** A `loop_` line after the data moves the stream back by the length of
      the data row before it, not by its own: after the two-character row
      "ab" the stream stands three characters into the `loop_` line, where
      the next read gives "p_", and not at the start of that line
      (position 8). */
  lemma LoopStopLandsInRow(text: string)
    requires text == LOOP_TEXT
    ensures && text[8..13] == "loop_"
      && Extract("_x", "_x.a", text, At(5, false)) == Ok((Section(["a"], [["ab"]]), At(11, false)))
      && NextLine(text, At(11, false)).0 == Some("p_")
  {
    LoopTextLines(text);
    LoopTextLabels(text);
    LoopTextRows(text);
  }

  const LOOP_TEXT: string := "_x.a\nab\nloop_\n"

  lemma LineEndAt(text: string, i: nat, e: nat)
    requires i <= e < |text| && text[e] == '\n'
    requires forall k :: i <= k < e ==> text[k] != '\n'
    ensures LineEnd(text, i) == e
    decreases e - i
  {
    if i < e {
      LineEndAt(text, i + 1, e);
    }
  }

  lemma LoopTextLines(text: string)
    requires text == LOOP_TEXT
    ensures NextLine(text, At(5, false)) == (Some("ab"), At(8, false))
    ensures NextLine(text, At(8, false)) == (Some("loop_"), At(14, false))
    ensures NextLine(text, At(11, false)).0 == Some("p_")
  {
    assert |text| == 14;
    LineEndAt(text, 5, 7);
    assert text[5..7] == "ab";
    LineEndAt(text, 8, 13);
    assert text[8..13] == "loop_" by {
      assert text == "_x.a\nab\n" + "loop_" + "\n";
    }
    LineEndAt(text, 11, 13);
    assert text[11..13] == "p_";
  }

  lemma OneWord(w: string)
    requires w != [] && forall i :: 0 <= i < |w| ==> w[i] != ' '
    ensures SplitOn(w, ' ') == [w]
  {
    TokensOfJoin([w], ' ', IsChar(' '));
  }

  lemma LoopTextLabels(text: string)
    requires NextLine(text, At(5, false)) == (Some("ab"), At(8, false))
    ensures Labels("_x", text, "_x.a", At(5, false), [], []) == Ok(Labelled(["a"], [], "ab", At(8, false), false))
  {
    OneLabel("_x", text, "_x.a", At(5, false), "ab", At(8, false));
    assert "_x.a"[3..] == "a";
  }

  /** A single blank-free label line of the section followed by a data line. */
  lemma OneLabel(pattern: string, text: string, line: string, c: Cursor, next: string, c': Cursor)
    requires Blankless(line) && line[0] == '_' && StartsWith(line, pattern) && |line| >= |pattern| + 1
    requires NextLine(text, c) == (Some(next), c')
    requires Plain(next) && next[0] != '_'
    ensures Labels(pattern, text, line, c, [], []) == Ok(Labelled([line[|pattern| + 1..]], [], next, c', false))
  {
    var name := line[|pattern| + 1..];
    assert Labels(pattern, text, line, c, [], []) == Labels(pattern, text, next, c', [] + [name], []) by {
      LabelStep(pattern, text, line, c, [], next, c');
    }
    assert [] + [name] == [name];
    LabelsEnd(pattern, text, next, c', [name], []);
  }

  /** A line not starting with '_' ends the label phase where it stands. */
  lemma LabelsEnd(pattern: string, text: string, line: string, c: Cursor, labels: seq<string>, row0: seq<string>)
    requires Plain(line) && line[0] != '_'
    ensures Labels(pattern, text, line, c, labels, row0) == Ok(Labelled(labels, row0, line, c, false))
  {
    PlainLine(line);
  }

  /** A line with nothing to trim at either end. */
  predicate Plain(w: string) { w != [] && w[0] != ' ' && w[|w| - 1] != ' ' && w[|w| - 1] !in NEWLINES }

  /** A line with no blank in it and no line break at its end. */
  predicate Blankless(w: string) { w != [] && w[|w| - 1] !in NEWLINES && forall i :: 0 <= i < |w| ==> w[i] != ' ' }

  /** A line that nothing is trimmed from. */
  lemma PlainLine(w: string)
    requires Plain(w)
    ensures LabelLine(w) == w && DataLine(w) == w
  {
  }

  /** A blank-free label line of the section: its label is absorbed and the
      next line read. */
  lemma LabelStep(pattern: string, text: string, line: string, c: Cursor, labels: seq<string>, next: string, c': Cursor)
    requires Blankless(line) && line[0] == '_' && StartsWith(line, pattern) && |line| >= |pattern| + 1
    requires NextLine(text, c) == (Some(next), c')
    ensures Labels(pattern, text, line, c, labels, []) == Labels(pattern, text, next, c', labels + [line[|pattern| + 1..]], [])
  {
    PlainLine(line);
    OneWord(line);
  }

  lemma LoopTextRows(text: string)
    requires NextLine(text, At(8, false)) == (Some("loop_"), At(14, false))
    ensures Rows(text, "ab", At(8, false), 1, []) == Ok(([["ab"]], At(11, false)))
  {
    LoopRow();
    RowsBeforeLoop(text, "ab", At(8, false), 1, [], ["ab"], At(14, false));
    assert [] + [["ab"]] == [["ab"]];
  }

  /** A data row followed by a `loop_` line ends the section with the stream
      moved back, from after the `loop_` line, by the row's own length and one. */
  lemma RowsBeforeLoop(text: string, line: string, c: Cursor, count: nat, rows: seq<seq<string>>, values: seq<string>, c': Cursor)
    requires Plain(line) && line[0] != '#' && line[0] != '_'
    requires Row(line, count) == Ok(values)
    requires NextLine(text, c) == (Some("loop_"), c')
    ensures Scan(text, line, c, count, rows) == Ok((rows + [values], c', line))
    ensures Rows(text, line, c, count, rows) == Ok((rows + [values], Back(c', |line| + 1)))
  {
    ScanBeforeLoop(text, line, c, count, rows, values, c');
    RowsOfScan(text, line, c, count, rows);
  }

  /** The data phase moves back by the length of the line the loop ended on. */
  lemma RowsOfScan(text: string, line: string, c: Cursor, count: nat, rows: seq<seq<string>>)
    requires Scan(text, line, c, count, rows).Ok?
    ensures var s := Scan(text, line, c, count, rows).value;
      Rows(text, line, c, count, rows) == Ok((s.0, Back(s.1, |s.2| + 1)))
  {
  }

  /** The data loop half of `RowsBeforeLoop`. */
  lemma ScanBeforeLoop(text: string, line: string, c: Cursor, count: nat, rows: seq<seq<string>>, values: seq<string>, c': Cursor)
    requires Plain(line) && line[0] != '#' && line[0] != '_'
    requires Row(line, count) == Ok(values)
    requires NextLine(text, c) == (Some("loop_"), c')
    ensures Scan(text, line, c, count, rows) == Ok((rows + [values], c', line))
  {
    PlainLine(line);
    var more := rows + [values];
    assert AddRow(rows, DataLine(line), count) == Ok(more);
    ScanStep(text, line, c, count, rows, more);
    assert StartsWith("loop_", "loop_");
  }

  lemma LoopRow()
    ensures Row("ab", 1) == Ok(["ab"])
  {
    assert Join(["ab"], ' ') == "ab";
    RowOfWords(["ab"], 1);
  }

  /** Splitting a line of blank-free words on blanks gives the words. */
  lemma SplitWords(ws: seq<string>)
    requires forall k :: 0 <= k < |ws| ==> ws[k] != [] && forall i :: 0 <= i < |ws[k]| ==> ws[k][i] != ' '
    ensures SplitOn(Join(ws, ' '), ' ') == ws
  {
    TokensOfJoin(ws, ' ', IsChar(' '));
  }

  /** A data line of unquoted words is a row of exactly those words; a
      line with a different number of words is refused. */
  lemma RowOfWords(ws: seq<string>, count: nat)
    requires forall k :: 0 <= k < |ws| ==> ws[k] != [] && forall i :: 0 <= i < |ws[k]| ==> ws[k][i] != ' '
    requires forall k :: 0 <= k < |ws| ==> !StartsQuote(ws[k])
    ensures Row(Join(ws, ' '), count) == if |ws| == count then Ok(ws) else Err(WrongArity(Join(ws, ' '), count, |ws|))
  {
    SplitWords(ws);
    MergedPlain(ws, 0);
    assert ws[0..] == ws;
  }

  /** `extract_section` over a stream: the label loop, then the data loop;
      the stream ends where `Extract` says. */
  method ExtractSection(pattern: string, first: string, file: LineStream) returns (r: Result<Section, CifError>)
    modifies file
    ensures var want := Extract(pattern, first, file.text, old(file.Cursor()));
      && (r.Ok? <==> want.Ok?)
      && (r.Ok? ==> want.value == (r.value, file.Cursor()))
      && (r.Err? ==> want.error == r.error)
  {
    var lab := ReadLabels(pattern, first, file);
    if lab.Err? {
      return Err(lab.error);
    }
    var l := lab.value;
    if l.foreign {
      return Ok(Section(l.labels, [l.row0]));
    }
    var rows := ReadRows(l.line, |l.labels|, if l.row0 == [] then [] else [l.row0], file);
    if rows.Err? {
      return Err(rows.error);
    }
    r := Ok(Section(l.labels, rows.value));
  }

  /** The label loop of `extract_section`. */
  method ReadLabels(pattern: string, first: string, file: LineStream) returns (r: Result<Labelled, CifError>)
    modifies file
    ensures r == Labels(pattern, file.text, first, old(file.Cursor()), [], [])
    ensures r.Ok? ==> file.Cursor() == r.value.at
  {
    var labels: seq<string> := [];
    var row0: seq<string> := [];
    var line := first;
    while true
      invariant Labels(pattern, file.text, line, file.Cursor(), labels, row0)
        == Labels(pattern, file.text, first, old(file.Cursor()), [], [])
      decreases Left(file.text, file.Cursor())
    {
      var stop;
      stop, labels, row0 := ReadLabelLine(pattern, line, labels, row0, file);
      if stop.Some? {
        return stop.value;
      }
      var next := file.Getline();
      if next.None? {
        return Ok(Labelled(labels, row0, "", file.Cursor(), false));
      }
      line := next.value;
    }
  }

  /** One pass of the label loop before its `getline`: either the phase
      stops at `line`, with the stream moved back at a foreign label, or the
      line's label and inline value are added and the phase goes on. */
  method ReadLabelLine(pattern: string, line: string, labels: seq<string>, row0: seq<string>, file: LineStream)
    returns (stop: Option<Result<Labelled, CifError>>, labels': seq<string>, row0': seq<string>)
    modifies file
    ensures var p := LabelPass(pattern, line, old(file.Cursor()), labels, row0);
      && (stop.Some? <==> p.Stop?)
      && (stop.Some? ==> stop.value == p.result && (stop.value.Ok? ==> file.Cursor() == stop.value.value.at))
      && (stop.None? ==> p == Go(labels', row0') && file.Cursor() == old(file.Cursor()))
  {
    var t := LabelLine(line);
    if t != [] && t[0] != '_' {
      return Some(Ok(Labelled(labels, row0, t, file.Cursor(), false))), labels, row0;
    }
    if t == [] {
      return None, labels, row0;
    }
    stop, labels', row0' := ReadLabel(pattern, line, t, labels, row0, file);
  }

  /** A line of the label phase that starts with '_': a label of another
      section, a label too short for the pattern, or one of the section. */
  method ReadLabel(pattern: string, line: string, t: string, labels: seq<string>, row0: seq<string>, file: LineStream)
    returns (stop: Option<Result<Labelled, CifError>>, labels': seq<string>, row0': seq<string>)
    requires t == LabelLine(line) && t != [] && t[0] == '_'
    modifies file
    ensures var p := LabelPass(pattern, line, old(file.Cursor()), labels, row0);
      && (stop.Some? <==> p.Stop?)
      && (stop.Some? ==> stop.value == p.result && (stop.value.Ok? ==> file.Cursor() == stop.value.value.at))
      && (stop.None? ==> p == Go(labels', row0') && file.Cursor() == old(file.Cursor()))
  {
    ghost var c := file.Cursor();
    labels', row0' := labels, row0;
    var tokens := LabelTokens(t);
    if !StartsWith(tokens[0], pattern) {
      if row0 == [] {
        return Some(Err(LabelsWithoutData(pattern))), labels', row0';
      }
      assert LabelPass(pattern, line, c, labels, row0) == Stop(Ok(Labelled(labels, row0, t, Back(c, |line| + 1), true)));
      file.Seek(|line| + 1);
      return Some(Ok(Labelled(labels, row0, t, file.Cursor(), true))), labels', row0';
    }
    if |tokens[0]| < |pattern| + 1 {
      return Some(Err(LabelTooShort(tokens[0]))), labels', row0';
    }
    labels' := labels + [tokens[0][|pattern| + 1..]];
    if |tokens| == 2 {
      row0' := row0 + [tokens[1]];
    }
    assert (labels', row0') == Absorb(pattern, t, labels, row0);
    stop := None;
  }

  /** The data loop of `extract_section`, from the current `line` on: the
      rows and the line whose length the stream is to move back by. */
  method ScanRows(line0: string, count: nat, init: seq<seq<string>>, file: LineStream)
    returns (r: Result<(seq<seq<string>>, string), CifError>)
    modifies file
    ensures var want := Scan(file.text, line0, old(file.Cursor()), count, init);
      && (r.Ok? <==> want.Ok?)
      && (r.Ok? ==> want.value == (r.value.0, file.Cursor(), r.value.1))
      && (r.Err? ==> want.error == r.error)
  {
    var data := init;
    var line := line0;
    while true
      invariant Scan(file.text, line, file.Cursor(), count, data) == Scan(file.text, line0, old(file.Cursor()), count, init)
      decreases Left(file.text, file.Cursor())
    {
      ghost var before, c := data, file.Cursor();
      var t := DataLine(line);
      if t != [] && (t[0] == '#' || t[0] == '_') {
        return Ok((data, line));
      }
      if t != [] {
        var values := ReadRow(t, count);
        if values.Err? {
          return Err(values.error);
        }
        data := data + [values.value];
      }
      ScanStep(file.text, line, c, count, before, data);
      var next := file.Getline();
      if next.None? || StartsWith(next.value, "loop_") {
        return Ok((data, line));
      }
      line := next.value;
    }
  }

  /** The data phase of `extract_section`: the data loop, then the stream
      moved back by the length of the line it ended on and one. */
  method ReadRows(line0: string, count: nat, init: seq<seq<string>>, file: LineStream)
    returns (r: Result<seq<seq<string>>, CifError>)
    modifies file
    ensures var want := Rows(file.text, line0, old(file.Cursor()), count, init);
      && (r.Ok? <==> want.Ok?)
      && (r.Ok? ==> want.value == (r.value, file.Cursor()))
      && (r.Err? ==> want.error == r.error)
  {
    var scan := ScanRows(line0, count, init, file);
    if scan.Err? {
      return Err(scan.error);
    }
    file.Seek(|scan.value.1| + 1);
    r := Ok(scan.value.0);
  }

  /** A data line split on blanks, its quoted values merged and its arity
      checked. */
  method ReadRow(t: string, count: nat) returns (r: Result<seq<string>, CifError>)
    ensures r == Row(t, count)
  {
    var values := MergeQuotes(SplitOn(t, ' '));
    if values.None? {
      return Err(UnterminatedQuote(t));
    }
    if |values.value| != count {
      return Err(WrongArity(t, count, |values.value|));
    }
    r := Ok(values.value);
  }

  /** One data line that is not a stop line, when it is blank or makes a
      row: the data loop goes on from the next line with `more`. */
  lemma ScanStep(text: string, line: string, c: Cursor, count: nat, rows: seq<seq<string>>, more: seq<seq<string>>)
    requires var t := DataLine(line); !(t != [] && (t[0] == '#' || t[0] == '_'))
    requires var t := DataLine(line); (if t == [] then Ok(rows) else AddRow(rows, t, count)) == Ok(more)
    ensures var next := NextLine(text, c);
            Scan(text, line, c, count, rows)
            == if next.0.None? || StartsWith(next.0.value, "loop_") then Ok((more, next.1, line))
               else Scan(text, next.0.value, next.1, count, more)
  {
  }

  // ---------------------------------------------------------------------
  // Quoted values

  predicate StartsQuote(t: string) { t != [] && (t[0] == '"' || t[0] == '\'') }

  predicate EndsQuote(t: string) { t != [] && (t[|t| - 1] == '"' || t[|t| - 1] == '\'') }

  /** A token that opens a quoted value without closing it. */
  predicate Opening(t: string) { StartsQuote(t) && !EndsQuote(t) }

  /** A token as a value: a token quoted at both ends loses both quotes
      (a lone quote character gives the empty value); any other is kept. */
  function Unquoted(t: string): (v: string)
    ensures StartsQuote(t) && EndsQuote(t) && |t| >= 2 ==> t == [t[0]] + v + [t[|t| - 1]]
    ensures !StartsQuote(t) ==> v == t
  {
    if StartsQuote(t) && EndsQuote(t) then (if |t| >= 2 then t[1..|t| - 1] else []) else t
  }

  /** The first token from `j` on that ends with a quote, or `|ts|`. */
  function FirstClose(ts: seq<string>, j: nat): (k: nat)
    requires j <= |ts|
    ensures j <= k <= |ts|
    ensures k < |ts| ==> EndsQuote(ts[k])
    ensures forall m :: j <= m < k ==> !EndsQuote(ts[m])
    decreases |ts| - j
  {
    if j == |ts| || EndsQuote(ts[j]) then j else FirstClose(ts, j + 1)
  }

  /** The tokens from `a` up to `b`, each with a blank in front. */
  function Spaced(ts: seq<string>, a: nat, b: nat): string
    requires a <= b <= |ts|
    decreases b - a
  {
    if b == a then [] else Spaced(ts, a, b - 1) + " " + ts[b - 1]
  }

  /** The value quoted from token `i` to token `k`: the opening token
      without its quote, the tokens between, and the closing token without
      its quote, separated by single blanks. */
  function Joined(ts: seq<string>, i: nat, k: nat): string
    requires i < k < |ts| && StartsQuote(ts[i]) && EndsQuote(ts[k])
  {
    ts[i][1..] + Spaced(ts, i + 1, k) + " " + ts[k][..|ts[k]| - 1]
  }

  /** The values of the tokens from `i` on: a quoted run becomes one value
      and an opening quote that is never closed fails. */
  function MergedFrom(ts: seq<string>, i: nat): (r: Option<seq<string>>)
    requires i <= |ts|
    ensures r.Some? ==> |r.value| <= |ts| - i
    decreases |ts| - i
  {
    if i == |ts| then Some([])
    else if Opening(ts[i]) then
      var k := FirstClose(ts, i + 1);
      if k == |ts| then None
      else
        var rest :- MergedFrom(ts, k + 1);
        Some([Joined(ts, i, k)] + rest)
    else
      var rest :- MergedFrom(ts, i + 1);
      Some([Unquoted(ts[i])] + rest)
  }

  function PrependSome(xs: seq<string>, r: Option<seq<string>>): Option<seq<string>> {
    if r.None? then None else Some(xs + r.value)
  }

  /** The quote-merging loop of the data phase: the values are compacted in
      place, `concatenated` counting the slots freed so far, and the vector
      is cut to its new size at the end. */
  method MergeQuotes(tokens: seq<string>) returns (r: Option<seq<string>>)
    ensures r == MergedFrom(tokens, 0)
  {
    var values := tokens;
    var concatenated: nat := 0;
    var i: nat := 0;
    PrependSomeEmpty(MergedFrom(tokens, 0));
    while i < |values|
      invariant Compacted(values, tokens, i, concatenated)
      decreases |values| - i
    {
      if StartsQuote(values[i]) && !EndsQuote(values[i]) {
        var step := QuotedStep(values, tokens, i, concatenated);
        if step.None? {
          return None;
        }
        values, i, concatenated := step.value.0, step.value.1, step.value.2;
      } else {
        values := PlainStep(values, tokens, i, concatenated);
        i := i + 1;
      }
    }
    assert MergedFrom(tokens, i) == Some([]);
    assert values[..i - concatenated] + [] == values[..|values| - concatenated];
    r := Some(values[..|values| - concatenated]);
  }

  /** The state of the merge before token `i`: the values kept so far fill
      the first `i - concatenated` slots, the tokens from `i` are untouched,
      and the values kept followed by the merge of the rest are the merge
      of all tokens. */
  predicate Compacted(values: seq<string>, tokens: seq<string>, i: nat, concatenated: nat) {
    && concatenated <= i <= |values| == |tokens|
    && values[i..] == tokens[i..]
    && PrependSome(values[..i - concatenated], MergedFrom(tokens, i)) == MergedFrom(tokens, 0)
  }

  /** A token that does not open a multi-token value: a value quoted at
      both ends loses its quotes in place, and is then moved to the first
      free slot. */
  method PlainStep(values: seq<string>, tokens: seq<string>, i: nat, concatenated: nat) returns (v: seq<string>)
    requires Compacted(values, tokens, i, concatenated) && i < |values|
    requires !(StartsQuote(values[i]) && !EndsQuote(values[i]))
    ensures Compacted(v, tokens, i + 1, concatenated)
  {
    v := values;
    assert v[i] == tokens[i] by { assert v[i] == v[i..][0]; }
    if StartsQuote(v[i]) {
      v := v[i := Unquoted(v[i])];
      assert v[..i - concatenated] == values[..i - concatenated];
      assert v[i + 1..] == values[i..][1..];
    } else {
      assert v[i + 1..] == values[i..][1..];
    }
    MergedPlainStep(tokens, i);
    CompactStep(v, tokens, i, concatenated, v[i], i + 1, concatenated);
    v := v[i - concatenated := v[i]];
  }

  /** A token that opens a multi-token value: the tokens up to the closing
      one are joined into the first free slot, or the quote is unterminated. */
  method QuotedStep(values: seq<string>, tokens: seq<string>, i: nat, concatenated: nat)
    returns (r: Option<(seq<string>, nat, nat)>)
    requires Compacted(values, tokens, i, concatenated) && i < |values|
    requires StartsQuote(values[i]) && !EndsQuote(values[i])
    ensures r.None? ==> MergedFrom(tokens, 0) == None
    ensures r.Some? ==> i < r.value.1 && Compacted(r.value.0, tokens, r.value.1, r.value.2)
  {
    var run := QuotedValue(values, i);
    AgreeingSuffix(values, tokens, i);
    assert values[i] == tokens[i] by { assert values[i] == values[i..][0]; }
    if run.None? {
      MergedUnterminated(tokens, i);
      return None;
    }
    var shifted := concatenated + (run.value.1 - 1 - i);
    QuotedCompact(values, tokens, i, concatenated, run.value.0, run.value.1, shifted);
    r := Some((values[i - concatenated := run.value.0], run.value.1, shifted));
  }

  /** The compaction step for a value quoted over several tokens. */
  lemma QuotedCompact(values: seq<string>, tokens: seq<string>, i: nat, concatenated: nat, x: string, next: nat, shifted: nat)
    requires Compacted(values, tokens, i, concatenated) && i < |values|
    requires values[i] == tokens[i] && Opening(tokens[i])
    requires FirstClose(tokens, i + 1) < |tokens|
    requires x == Joined(tokens, i, FirstClose(tokens, i + 1)) && next == FirstClose(tokens, i + 1) + 1
    requires shifted == concatenated + (next - 1 - i)
    ensures i < next && Compacted(values[i - concatenated := x], tokens, next, shifted)
  {
    MergedQuotedAt(tokens, i, x, next);
    assert values[i + 1..] == tokens[i + 1..] by { assert values[i + 1..] == values[i..][1..]; }
    CompactStep(values, tokens, i, concatenated, x, next, shifted);
  }

  /** `MergedQuoted` with the joined value and the next token named. */
  lemma MergedQuotedAt(ts: seq<string>, i: nat, x: string, next: nat)
    requires i < |ts| && Opening(ts[i]) && FirstClose(ts, i + 1) < |ts|
    requires x == Joined(ts, i, FirstClose(ts, i + 1)) && next == FirstClose(ts, i + 1) + 1
    ensures MergedFrom(ts, i) == PrependSome([x], MergedFrom(ts, next))
  {
    MergedQuoted(ts, i);
  }

  /** One step of the compaction: value `x` stands for the tokens from `i`
      up to `next`, and is written to the first free slot. */
  lemma CompactStep(values: seq<string>, tokens: seq<string>, i: nat, concatenated: nat, x: string, next: nat, shifted: nat)
    requires concatenated <= i < next <= |values| == |tokens|
    requires shifted == concatenated + (next - 1 - i)
    requires values[i + 1..] == tokens[i + 1..]
    requires PrependSome(values[..i - concatenated], MergedFrom(tokens, i)) == MergedFrom(tokens, 0)
    requires MergedFrom(tokens, i) == PrependSome([x], MergedFrom(tokens, next))
    ensures Compacted(values[i - concatenated := x], tokens, next, shifted)
  {
    var v := values[i - concatenated := x];
    assert v[..i - concatenated + 1] == values[..i - concatenated] + [x];
    assert v[next..] == values[i + 1..][next - i - 1..];
    PrependSomeTwice(values[..i - concatenated], [x], MergedFrom(tokens, next));
  }

  /** The value quoted from token `i`, and the token after it; `None` when
      no token closes the quote. */
  method QuotedValue(ts: seq<string>, i: nat) returns (r: Option<(string, nat)>)
    requires i < |ts| && StartsQuote(ts[i])
    ensures r.None? <==> FirstClose(ts, i + 1) == |ts|
    ensures r.Some? ==> r.value == (Joined(ts, i, FirstClose(ts, i + 1)), FirstClose(ts, i + 1) + 1)
  {
    var j := FindClose(ts, i + 1);
    if j == |ts| {
      return None;
    }
    var joined := JoinQuoted(ts, i, j);
    r := Some((joined, j + 1));
  }

  /** The search for the closing quote. */
  method FindClose(ts: seq<string>, from: nat) returns (j: nat)
    requires from <= |ts|
    ensures j == FirstClose(ts, from)
  {
    j := from;
    while j < |ts| && !EndsQuote(ts[j])
      invariant from <= j <= |ts|
      invariant FirstClose(ts, from) == FirstClose(ts, j)
    {
      j := j + 1;
    }
  }

  /** The building of a value quoted over tokens `i` to `j`. */
  method JoinQuoted(ts: seq<string>, i: nat, j: nat) returns (joined: string)
    requires i < j < |ts| && StartsQuote(ts[i]) && EndsQuote(ts[j])
    ensures joined == Joined(ts, i, j)
  {
    joined := ts[i][1..];
    var k := i + 1;
    while k < j
      invariant i + 1 <= k <= j
      invariant joined == ts[i][1..] + Spaced(ts, i + 1, k)
    {
      joined := joined + " " + ts[k];
      k := k + 1;
    }
    joined := joined + " " + ts[j][..|ts[j]| - 1];
  }

  /** Token lists that agree from `i` on merge alike from `i`. */
  lemma AgreeingSuffix(a: seq<string>, b: seq<string>, i: nat)
    requires i < |a| == |b|
    requires a[i..] == b[i..]
    ensures FirstClose(a, i + 1) == FirstClose(b, i + 1)
    ensures FirstClose(a, i + 1) < |a| && StartsQuote(a[i]) ==> Joined(a, i, FirstClose(a, i + 1)) == Joined(b, i, FirstClose(b, i + 1))
  {
    forall m | i <= m < |a| ensures a[m] == b[m] {
      assert a[m] == a[i..][m - i];
    }
    FirstCloseAgree(a, b, i + 1);
    var k := FirstClose(a, i + 1);
    if k < |a| && StartsQuote(a[i]) {
      SpacedAgree(a, b, i + 1, k);
    }
  }

  lemma {:induction false} FirstCloseAgree(a: seq<string>, b: seq<string>, j: nat)
    requires j <= |a| == |b|
    requires forall m :: j <= m < |a| ==> a[m] == b[m]
    ensures FirstClose(a, j) == FirstClose(b, j)
    decreases |a| - j
  {
    if j < |a| {
      FirstCloseAgree(a, b, j + 1);
    }
  }

  lemma {:induction false} SpacedAgree(a: seq<string>, b: seq<string>, lo: nat, hi: nat)
    requires lo <= hi <= |a| == |b|
    requires forall m :: lo <= m < hi ==> a[m] == b[m]
    ensures Spaced(a, lo, hi) == Spaced(b, lo, hi)
    decreases hi - lo
  {
    if lo < hi {
      SpacedAgree(a, b, lo, hi - 1);
    }
  }

  lemma PrependSomeEmpty(r: Option<seq<string>>)
    ensures PrependSome([], r) == r
  {
    if r.Some? {
      assert [] + r.value == r.value;
    }
  }

  lemma PrependSomeTwice(xs: seq<string>, ys: seq<string>, r: Option<seq<string>>)
    ensures PrependSome(xs, PrependSome(ys, r)) == PrependSome(xs + ys, r)
  {
    if r.Some? {
      assert xs + (ys + r.value) == (xs + ys) + r.value;
    }
  }

  lemma MergedPlainStep(ts: seq<string>, i: nat)
    requires i < |ts| && !Opening(ts[i])
    ensures MergedFrom(ts, i) == PrependSome([Unquoted(ts[i])], MergedFrom(ts, i + 1))
  {
  }

  lemma MergedQuoted(ts: seq<string>, i: nat)
    requires i < |ts| && Opening(ts[i]) && FirstClose(ts, i + 1) < |ts|
    ensures MergedFrom(ts, i) == PrependSome([Joined(ts, i, FirstClose(ts, i + 1))], MergedFrom(ts, FirstClose(ts, i + 1) + 1))
  {
  }

  lemma MergedUnterminated(ts: seq<string>, i: nat)
    requires i < |ts| && Opening(ts[i]) && FirstClose(ts, i + 1) == |ts|
    ensures MergedFrom(ts, i) == None
  {
  }

  /** Tokens without quotes are their own values. */
  lemma {:induction false} MergedPlain(ts: seq<string>, i: nat)
    requires i <= |ts|
    requires forall m :: i <= m < |ts| ==> !StartsQuote(ts[m])
    ensures MergedFrom(ts, i) == Some(ts[i..])
    decreases |ts| - i
  {
    if i < |ts| {
      MergedPlain(ts, i + 1);
      assert ts[i..] == [ts[i]] + ts[i + 1..];
    }
  }

  /** The tokens from 0 are the words `ws` with quote `q` added in front of
      the first and behind the last. */
  predicate QuotedRun(ts: seq<string>, ws: seq<string>, q: char) {
    && 2 <= |ws| <= |ts|
    && ts[0] == [q] + ws[0]
    && (forall m :: 1 <= m < |ws| - 1 ==> ts[m] == ws[m])
    && ts[|ws| - 1] == ws[|ws| - 1] + [q]
  }

  /** A value quoted over several words comes back as the words joined by
      single blanks: quoting `"w0 w1 ... wn"` and splitting it into tokens
      is undone by the merge, whatever follows. */
  lemma MergedQuotedRun(ts: seq<string>, ws: seq<string>, q: char)
    requires QuotedRun(ts, ws, q) && (q == '"' || q == '\'')
    requires ws[0] != [] && !EndsQuote(ws[0])
    requires forall m :: 1 <= m < |ws| - 1 ==> !EndsQuote(ws[m])
    ensures MergedFrom(ts, 0) == PrependSome([Join(ws, ' ')], MergedFrom(ts, |ws|))
  {
    var n := |ws|;
    assert ts[0][|ts[0]| - 1] == ws[0][|ws[0]| - 1];
    assert Opening(ts[0]);
    assert ts[n - 1][|ts[n - 1]| - 1] == q;
    FirstCloseRun(ts, 1, n - 1);
    assert ts[0][1..] == ws[0];
    assert ts[n - 1][..|ts[n - 1]| - 1] == ws[n - 1];
    SpacedJoin(ws, ts, n - 1);
    assert ws[..n] == ws;
    MergedQuoted(ts, 0);
  }

  /** The token list a quoted value of several words splits into. */
  lemma QuotedTokens(ws: seq<string>, rest: seq<string>, q: char)
    requires |ws| >= 2
    ensures QuotedRun([[q] + ws[0]] + ws[1..|ws| - 1] + [ws[|ws| - 1] + [q]] + rest, ws, q)
  {
  }

  lemma {:induction false} FirstCloseRun(ts: seq<string>, j: nat, k: nat)
    requires j <= k < |ts| && EndsQuote(ts[k])
    requires forall m :: j <= m < k ==> !EndsQuote(ts[m])
    ensures FirstClose(ts, j) == k
    decreases k - j
  {
    if j < k {
      FirstCloseRun(ts, j + 1, k);
    }
  }

  /** The middle tokens with their blanks are the tail of the joined words. */
  lemma {:induction false} SpacedJoin(ws: seq<string>, ts: seq<string>, k: nat)
    requires 1 <= k < |ws| && k < |ts|
    requires ws != [] && |ts[0]| >= 1 && ts[0][1..] == ws[0]
    requires forall m :: 1 <= m < k ==> ts[m] == ws[m]
    ensures ts[0][1..] + Spaced(ts, 1, k) + " " + ws[k] == Join(ws[..k + 1], ' ')
    decreases k
  {
    if k == 1 {
      assert ws[..2] == [ws[0], ws[1]];
      assert Join(ws[..2], ' ') == ws[0] + [' '] + Join([ws[1]], ' ');
    } else {
      SpacedJoin(ws, ts, k - 1);
      JoinSnoc(ws[..k], ws[k]);
      assert ws[..k] + [ws[k]] == ws[..k + 1];
    }
  }

  lemma {:induction false} JoinSnoc(ws: seq<string>, w: string)
    requires ws != []
    ensures Join(ws + [w], ' ') == Join(ws, ' ') + " " + w
    decreases |ws|
  {
    if |ws| == 1 {
      assert ws + [w] == [ws[0], w];
    } else {
      JoinSnoc(ws[1..], w);
      assert (ws + [w])[1..] == ws[1..] + [w];
    }
  }

  // ---------------------------------------------------------------------
  // Ions and residues

  /** An atom of a residue: an ion with its charge, or an atom with its
      alternative name. */
  datatype ResidueAtom = IonAtom(name: string, charge: int, element: AtomT) | NamedAtom(name: string, alt: string, element: AtomT)

  datatype Residue = Residue(name: string, atoms: seq<ResidueAtom>)

  /** Row `row` has a value under label `name`. The reader indexes rows
      without checking this: `extract_section` gives every row but the
      inline one a value per label, and the inline row, which is kept only
      when a label line carries a value, may be shorter. */
  predicate Readable(s: Section, row: nat, name: string) {
    row < |s.data| && name in s.labels && LabelMap(s.labels)[name] < |s.data[row]|
  }

  /** The value of a row under a label; a repeated label names its last
      column. */
  function Value(s: Section, row: nat, name: string): string
    requires Readable(s, row, name)
  {
    s.data[row][LabelMap(s.labels)[name]]
  }

  /** `parse_ion`: a one-row section naming the ion by `comp_id` and giving
      its integer `charge`; the ion's name must be an element symbol. */
  function ParseIon(s: Section): (r: Result<Residue, CifError>)
    requires |s.data| == 1 && "comp_id" in s.labels && "charge" in s.labels ==>
      Readable(s, 0, "comp_id") && (ParseElementString(Value(s, 0, "comp_id")).Some? ==> Readable(s, 0, "charge"))
    ensures |s.data| != 1 ==> r == Err(IonRows(|s.data|))
    ensures |s.data| == 1 && "comp_id" !in s.labels ==> r == Err(MissingLabel("comp_id"))
    ensures |s.data| == 1 && "comp_id" in s.labels && "charge" !in s.labels ==> r == Err(MissingLabel("charge"))
    ensures r.Ok? <==>
      && |s.data| == 1 && "comp_id" in s.labels && "charge" in s.labels
      && ParseElementString(Value(s, 0, "comp_id")).Some? && StoI(Value(s, 0, "charge")).Some?
    ensures r.Ok? ==> r.value == Residue(Value(s, 0, "comp_id"),
      [IonAtom(Value(s, 0, "comp_id"), StoI(Value(s, 0, "charge")).value, ParseElementString(Value(s, 0, "comp_id")).value)])
  {
    if |s.data| != 1 then Err(IonRows(|s.data|))
    else
      var m := LabelMap(s.labels);
      if "comp_id" !in m then Err(MissingLabel("comp_id"))
      else if "charge" !in m then Err(MissingLabel("charge"))
      else
        var comp := s.data[0][m["comp_id"]];
        match ParseElementString(comp)
        case None => Err(UnrecognizedIon(comp))
        case Some(e) =>
          var text := s.data[0][m["charge"]];
          match StoI(text)
          case None => Err(NotAnInteger(text))
          case Some(q) => Ok(Residue(comp, [IonAtom(comp, q, e)]))
  }

  /** The columns `parse_residue` reads. */
  datatype AtomColumns = AtomColumns(comp: nat, atom: nat, alt: nat, symbol: nat)

  /** The atom section's columns: `comp_id` and `atom_id` are required,
      `alt_atom_id` falls back to `atom_id`, and a missing `type_symbol`
      throws from the map lookup. */
  function AtomColumnsOf(labels: seq<string>): (r: Result<AtomColumns, CifError>)
    ensures r.Ok? <==> "comp_id" in labels && "atom_id" in labels && "type_symbol" in labels
    ensures r.Ok? ==> var c := r.value;
      && c.comp < |labels| && labels[c.comp] == "comp_id"
      && c.atom < |labels| && labels[c.atom] == "atom_id"
      && c.symbol < |labels| && labels[c.symbol] == "type_symbol"
      && c.alt < |labels| && labels[c.alt] == (if "alt_atom_id" in labels then "alt_atom_id" else "atom_id")
    ensures ("comp_id" !in labels || "atom_id" !in labels) ==> r == Err(MissingAtomLabels)
  {
    var m := LabelMap(labels);
    if "comp_id" !in m || "atom_id" !in m then Err(MissingAtomLabels)
    else if "type_symbol" !in m then Err(NoTypeSymbol)
    else Ok(AtomColumns(m["comp_id"], m["atom_id"], if "alt_atom_id" in m then m["alt_atom_id"] else m["atom_id"], m["type_symbol"]))
  }

  /** Every row has the columns. */
  predicate Covers(rows: seq<seq<string>>, c: AtomColumns) {
    forall i :: 0 <= i < |rows| ==> c.comp < |rows[i]| && c.atom < |rows[i]| && c.alt < |rows[i]| && c.symbol < |rows[i]|
  }

  /** The alternative name of a residue atom: when it equals the atom's
      name, has more than two characters and ends in '1' after a
      non-digit, the trailing '1' is dropped (CD1 can also be written CD). */
  function Alias(atomId: string, alt: string): (r: string)
    ensures r == alt || (atomId == alt && r + "1" == atomId && |r| >= 2 && !IsDigit(r[|r| - 1]))
    ensures atomId == alt && |atomId| > 2 && atomId[|atomId| - 1] == '1' && !IsDigit(atomId[|atomId| - 2]) ==> r + "1" == atomId
  {
    var n := |atomId|;
    if atomId == alt && n > 2 && atomId[n - 1] == '1' && !IsDigit(atomId[n - 2]) then atomId[..n - 1] else alt
  }

  /** Concrete cases of the alias rule. */
  lemma AliasCases()
    ensures Alias("CD1", "CD1") == "CD"
    ensures Alias("HD11", "HD11") == "HD11"
    ensures Alias("O1", "O1") == "O1"
    ensures Alias("CD1", "CD") == "CD"
    ensures Alias("OG1", "OG2") == "OG2"
  {
    assert !IsDigit('D') && IsDigit('1');
    assert "CD1"[..2] == "CD";
  }

  /** The end of the run of rows from `j` whose `comp_id` is `comp`. */
  function RunFrom(rows: seq<seq<string>>, c: AtomColumns, comp: string, j: nat): (k: nat)
    requires j <= |rows| && Covers(rows, c)
    ensures j <= k <= |rows|
    ensures forall m :: j <= m < k ==> rows[m][c.comp] == comp
    ensures k < |rows| ==> rows[k][c.comp] != comp
    decreases |rows| - j
  {
    if j == |rows| || rows[j][c.comp] != comp then j else RunFrom(rows, c, comp, j + 1)
  }

  /** The two tables residue building consults: element symbols and ionic
      charges. The reader uses `TABLES`; the grouping is stated for any. */
  datatype Tables = Tables(element: string -> Option<AtomT>, ionic: AtomT -> Option<int>)

  const TABLES: Tables := Tables(ParseElementString, IonicCharge)

  /** The element a type symbol names. */
  function ElementFrom(t: Tables, symbol: string): (r: Result<AtomT, CifError>)
    ensures r.Ok? <==> t.element(symbol).Some?
    ensures r.Ok? ==> r.value == t.element(symbol).value
  {
    match t.element(symbol)
    case None => Err(UnknownElement(symbol))
    case Some(e) => Ok(e)
  }

  /** The atoms of the rows from `j` whose `comp_id` is `comp`, each with
      its alias and element. */
  function Members(rows: seq<seq<string>>, c: AtomColumns, t: Tables, comp: string, j: nat): (r: Result<seq<ResidueAtom>, CifError>)
    requires j <= |rows| && Covers(rows, c)
    ensures r.Ok? ==> |r.value| == RunFrom(rows, c, comp, j) - j
    ensures r.Ok? ==> forall m :: 0 <= m < |r.value| ==> r.value[m].NamedAtom? && r.value[m].name == rows[j + m][c.atom]
    decreases |rows| - j
  {
    if j == |rows| || rows[j][c.comp] != comp then Ok([])
    else
      var e :- ElementFrom(t, rows[j][c.symbol]);
      var rest :- Members(rows, c, t, comp, j + 1);
      Ok([NamedAtom(rows[j][c.atom], Alias(rows[j][c.atom], rows[j][c.alt]), e)] + rest)
  }

  /** The ionic charge of an element, when it has one. */
  function IonCharge(t: Tables, e: AtomT): (r: Result<int, CifError>)
    ensures r.Ok? <==> t.ionic(e).Some?
    ensures r.Ok? ==> r.value == t.ionic(e).value
  {
    match t.ionic(e)
    case None => Err(NoIonicCharge(e))
    case Some(q) => Ok(q)
  }

  /** The residue starting at row `i` and the row after it: a lone row
      (the last one, or followed by another component) is an ion with the
      ionic charge of its element; otherwise the whole run of the component. */
  function GroupAt(rows: seq<seq<string>>, c: AtomColumns, t: Tables, i: nat): (r: Result<(Residue, nat), CifError>)
    requires i < |rows| && Covers(rows, c)
    ensures r.Ok? ==> r.value.1 == RunFrom(rows, c, rows[i][c.comp], i) && i < r.value.1
    ensures r.Ok? ==> r.value.0.name == rows[i][c.comp]
    ensures r.Ok? ==> |r.value.0.atoms| == r.value.1 - i
    ensures r.Ok? ==> forall m :: 0 <= m < |r.value.0.atoms| ==> r.value.0.atoms[m].name == rows[i + m][c.atom]
    ensures r.Ok? ==> (r.value.0.atoms[0].IonAtom? <==> r.value.1 == i + 1)
  {
    var comp := rows[i][c.comp];
    if i + 1 == |rows| || rows[i + 1][c.comp] != comp then
      var e :- ElementFrom(t, rows[i][c.symbol]);
      var q :- IonCharge(t, e);
      Ok((Residue(comp, [IonAtom(rows[i][c.atom], q, e)]), i + 1))
    else
      var atoms :- Members(rows, c, t, comp, i);
      Ok((Residue(comp, atoms), RunFrom(rows, c, comp, i)))
  }

  /** The residues of the rows from `i` on, in order. */
  function GroupsFrom(rows: seq<seq<string>>, c: AtomColumns, t: Tables, i: nat): (r: Result<seq<Residue>, CifError>)
    requires i <= |rows| && Covers(rows, c)
    decreases |rows| - i
  {
    if i == |rows| then Ok([])
    else
      var g :- GroupAt(rows, c, t, i);
      var rest :- GroupsFrom(rows, c, t, g.1);
      Ok([g.0] + rest)
  }

  /** The atom names of residues, in order. */
  function AtomNames(rs: seq<Residue>): seq<string> {
    if rs == [] then [] else NamesOf(rs[0].atoms) + AtomNames(rs[1..])
  }

  function NamesOf(atoms: seq<ResidueAtom>): (ns: seq<string>)
    ensures |ns| == |atoms| && forall m :: 0 <= m < |atoms| ==> ns[m] == atoms[m].name
  {
    if atoms == [] then [] else [atoms[0].name] + NamesOf(atoms[1..])
  }

  /** A column of the rows from `i` on. */
  function Column(rows: seq<seq<string>>, k: nat, i: nat): (col: seq<string>)
    requires i <= |rows| && forall m :: 0 <= m < |rows| ==> k < |rows[m]|
    ensures |col| == |rows| - i && forall m :: 0 <= m < |col| ==> col[m] == rows[i + m][k]
  {
    seq(|rows| - i, m requires 0 <= m < |rows| - i => rows[i + m][k])
  }

  /** The first residue from row `i` is the group there, and the others are
      the residues after that group. */
  lemma GroupsHead(rows: seq<seq<string>>, c: AtomColumns, t: Tables, i: nat)
    requires i < |rows| && Covers(rows, c)
    requires GroupsFrom(rows, c, t, i).Ok?
    ensures GroupAt(rows, c, t, i).Ok?
    ensures var g := GroupAt(rows, c, t, i).value;
      && GroupsFrom(rows, c, t, g.1).Ok?
      && GroupsFrom(rows, c, t, i).value == [g.0] + GroupsFrom(rows, c, t, g.1).value
  {
  }

  /** Every row becomes exactly one residue atom, in order. */
  lemma {:induction false} GroupsCoverRows(rows: seq<seq<string>>, c: AtomColumns, t: Tables, i: nat)
    requires i <= |rows| && Covers(rows, c)
    requires GroupsFrom(rows, c, t, i).Ok?
    ensures AtomNames(GroupsFrom(rows, c, t, i).value) == Column(rows, c.atom, i)
    decreases |rows| - i
  {
    if i < |rows| {
      GroupsHead(rows, c, t, i);
      var g := GroupAt(rows, c, t, i).value;
      GroupsCoverRows(rows, c, t, g.1);
      var rest := GroupsFrom(rows, c, t, g.1).value;
      var rs := [g.0] + rest;
      assert rs[0] == g.0 && rs[1..] == rest;
      AtomNamesCons(g.0, rest);
      ColumnConcat(rows, c.atom, i, g.1, NamesOf(g.0.atoms));
    }
  }

  lemma AtomNamesCons(r: Residue, rest: seq<Residue>)
    ensures AtomNames([r] + rest) == NamesOf(r.atoms) + AtomNames(rest)
  {
    assert ([r] + rest)[1..] == rest;
  }

  /** The column from `i` is the values of rows `i` to `j` followed by the
      column from `j`. */
  lemma ColumnConcat(rows: seq<seq<string>>, k: nat, i: nat, j: nat, pre: seq<string>)
    requires i <= j <= |rows| && forall m :: 0 <= m < |rows| ==> k < |rows[m]|
    requires |pre| == j - i && forall m :: 0 <= m < |pre| ==> pre[m] == rows[i + m][k]
    ensures pre + Column(rows, k, j) == Column(rows, k, i)
  {
    var col := Column(rows, k, i);
    var tail := Column(rows, k, j);
    forall m | 0 <= m < |col| ensures (pre + tail)[m] == col[m] {
      if m >= |pre| {
        assert (pre + tail)[m] == tail[m - |pre|];
      }
    }
  }

  /** No residue is empty and neighbouring residues belong to different
      components, so each residue is a maximal run of its component. */
  lemma {:induction false} GroupsMaximal(rows: seq<seq<string>>, c: AtomColumns, t: Tables, i: nat)
    requires i <= |rows| && Covers(rows, c)
    requires GroupsFrom(rows, c, t, i).Ok?
    ensures var rs := GroupsFrom(rows, c, t, i).value;
      && (forall k :: 0 <= k < |rs| ==> rs[k].atoms != [])
      && (forall k :: 0 <= k < |rs| - 1 ==> rs[k].name != rs[k + 1].name)
      && (i < |rows| ==> rs != [] && rs[0].name == rows[i][c.comp])
    decreases |rows| - i
  {
    if i < |rows| {
      GroupsHead(rows, c, t, i);
      var g := GroupAt(rows, c, t, i).value;
      GroupsMaximal(rows, c, t, g.1);
      var rest := GroupsFrom(rows, c, t, g.1).value;
      var rs := [g.0] + rest;
      assert forall k :: 1 <= k < |rs| ==> rs[k] == rest[k - 1];
      if g.1 < |rows| {
        assert rest[0].name == rows[g.1][c.comp] != g.0.name;
      }
    }
  }

  /** A residue of one atom is exactly an ion. */
  lemma {:induction false} IonsAreLoneRows(rows: seq<seq<string>>, c: AtomColumns, t: Tables, i: nat)
    requires i <= |rows| && Covers(rows, c)
    requires GroupsFrom(rows, c, t, i).Ok?
    ensures var rs := GroupsFrom(rows, c, t, i).value;
      forall k :: 0 <= k < |rs| ==> rs[k].atoms != [] && (rs[k].atoms[0].IonAtom? <==> |rs[k].atoms| == 1)
    decreases |rows| - i
  {
    if i < |rows| {
      GroupsHead(rows, c, t, i);
      var g := GroupAt(rows, c, t, i).value;
      IonsAreLoneRows(rows, c, t, g.1);
      var rest := GroupsFrom(rows, c, t, g.1).value;
      var rs := [g.0] + rest;
      assert forall k :: 1 <= k < |rs| ==> rs[k] == rest[k - 1];
    }
  }

  /** The residue names of the groups, in order. */
  function ResidueNames(rs: seq<Residue>): (ns: seq<string>)
    ensures |ns| == |rs| && forall k :: 0 <= k < |rs| ==> ns[k] == rs[k].name
  {
    seq(|rs|, k requires 0 <= k < |rs| => rs[k].name)
  }

  /** The bond section must name the component, both atoms and the bond order. */
  predicate HasBondLabels(labels: seq<string>) {
    "comp_id" in labels && "atom_id_1" in labels && "atom_id_2" in labels && "value_order" in labels
  }

  /** Every atom row has the columns `parse_residue` reads, once it has
      found them all. */
  predicate ReadsInRange(atom: Section) {
    AtomColumnsOf(atom.labels).Ok? ==> Covers(atom.data, AtomColumnsOf(atom.labels).value)
  }

  /** `parse_residue` up to the bond labels: both sections must have rows,
      the atom rows are grouped into residues, each name maps to the
      position of its last residue, and the bond section must carry its
      labels. */
  function ParseResidue(atom: Section, bond: Section): (r: Result<(seq<Residue>, map<string, nat>), CifError>)
    requires ReadsInRange(atom)
    ensures (atom.data == [] || bond.data == []) ==> r == Err(EmptyData)
    ensures r.Ok? ==> HasBondLabels(bond.labels) && r.value.1 == LabelMap(ResidueNames(r.value.0))
  {
    if atom.data == [] || bond.data == [] then Err(EmptyData)
    else
      var c :- AtomColumnsOf(atom.labels);
      var rs :- GroupsFrom(atom.data, c, TABLES, 0);
      if !HasBondLabels(bond.labels) then Err(MissingBondLabels)
      else Ok((rs, LabelMap(ResidueNames(rs))))
  }

  /** The atom loop of `parse_residue`: the outer loop starts a residue at
      row `i`, and either takes the lone row as an ion or lets the inner
      loop advance `i` over the whole run. */
  method GroupRows(rows: seq<seq<string>>, c: AtomColumns, t: Tables) returns (r: Result<seq<Residue>, CifError>)
    requires Covers(rows, c)
    ensures r == GroupsFrom(rows, c, t, 0)
  {
    var residues: seq<Residue> := [];
    var i := 0;
    PrependEmpty(GroupsFrom(rows, c, t, 0));
    while i < |rows|
      invariant i <= |rows|
      invariant Prepend(residues, GroupsFrom(rows, c, t, i)) == GroupsFrom(rows, c, t, 0)
      decreases |rows| - i
    {
      ghost var start := i;
      var comp := rows[i][c.comp];
      var residue: Residue;
      if i + 1 == |rows| || rows[i + 1][c.comp] != comp {
        var e := t.element(rows[i][c.symbol]);
        if e.None? {
          assert GroupAt(rows, c, t, i) == Err(UnknownElement(rows[i][c.symbol]));
          return Err(UnknownElement(rows[i][c.symbol]));
        }
        var q := t.ionic(e.value);
        if q.None? {
          assert GroupAt(rows, c, t, i) == Err(NoIonicCharge(e.value));
          return Err(NoIonicCharge(e.value));
        }
        residue := Residue(comp, [IonAtom(rows[i][c.atom], q.value, e.value)]);
        i := i + 1;
      } else {
        var next := CollectRun(rows, c, t, comp, i);
        if next.Err? {
          assert GroupAt(rows, c, t, i) == Err(next.error);
          return Err(next.error);
        }
        residue := Residue(comp, next.value.0);
        i := next.value.1;
      }
      assert GroupAt(rows, c, t, start) == Ok((residue, i));
      ghost var rest := GroupsFrom(rows, c, t, i);
      assert GroupsFrom(rows, c, t, start) == Prepend([residue], rest);
      PrependTwice(residues, [residue], rest);
      residues := residues + [residue];
    }
    assert GroupsFrom(rows, c, t, i) == Ok([]);
    assert residues + [] == residues;
    r := Ok(residues);
  }

  /** The inner loop of `parse_residue`: the atoms of the run of component
      `comp` from row `i`, and the row after the run. */
  method CollectRun(rows: seq<seq<string>>, c: AtomColumns, t: Tables, comp: string, i0: nat)
    returns (r: Result<(seq<ResidueAtom>, nat), CifError>)
    requires i0 <= |rows| && Covers(rows, c)
    ensures Members(rows, c, t, comp, i0).Err? ==> r == Err(Members(rows, c, t, comp, i0).error)
    ensures Members(rows, c, t, comp, i0).Ok? ==> r == Ok((Members(rows, c, t, comp, i0).value, RunFrom(rows, c, comp, i0)))
  {
    var atoms: seq<ResidueAtom> := [];
    var i := i0;
    PrependEmpty(Members(rows, c, t, comp, i0));
    while i < |rows| && rows[i][c.comp] == comp
      invariant i0 <= i <= |rows|
      invariant RunFrom(rows, c, comp, i) == RunFrom(rows, c, comp, i0)
      invariant Prepend(atoms, Members(rows, c, t, comp, i)) == Members(rows, c, t, comp, i0)
      decreases |rows| - i
    {
      var atomId := rows[i][c.atom];
      var e := t.element(rows[i][c.symbol]);
      if e.None? {
        assert Members(rows, c, t, comp, i) == Err(UnknownElement(rows[i][c.symbol]));
        return Err(UnknownElement(rows[i][c.symbol]));
      }
      var a := NamedAtom(atomId, Alias(atomId, rows[i][c.alt]), e.value);
      assert Members(rows, c, t, comp, i) == Prepend([a], Members(rows, c, t, comp, i + 1));
      PrependTwice(atoms, [a], Members(rows, c, t, comp, i + 1));
      atoms := atoms + [a];
      i := i + 1;
    }
    assert Members(rows, c, t, comp, i) == Ok([]);
    assert atoms + [] == atoms;
    r := Ok((atoms, i));
  }

  lemma PrependEmpty<T>(r: Result<seq<T>, CifError>)
    ensures Prepend([], r) == r
  {
    if r.Ok? {
      assert [] + r.value == r.value;
    }
  }

  lemma PrependTwice<T>(xs: seq<T>, ys: seq<T>, r: Result<seq<T>, CifError>)
    ensures Prepend(xs, Prepend(ys, r)) == Prepend(xs + ys, r)
  {
    if r.Ok? {
      assert xs + (ys + r.value) == (xs + ys) + r.value;
    }
  }

  /** `parse_residue` with the atom loop as a method. */
  method ParseResidueSections(atom: Section, bond: Section) returns (r: Result<(seq<Residue>, map<string, nat>), CifError>)
    requires ReadsInRange(atom)
    ensures r == ParseResidue(atom, bond)
  {
    if atom.data == [] || bond.data == [] {
      return Err(EmptyData);
    }
    var c := AtomColumnsOf(atom.labels);
    if c.Err? {
      return Err(c.error);
    }
    var groups := GroupRows(atom.data, c.value, TABLES);
    if groups.Err? {
      return Err(groups.error);
    }
    if !HasBondLabels(bond.labels) {
      return Err(MissingBondLabels);
    }
    var names := GetLabelMap(ResidueNames(groups.value));
    r := Ok((groups.value, names));
  }

  // ---------------------------------------------------------------------
  // The atom-site section

  /** The `shorten` lambda applied to number texts: the first seven
      characters. */
  function Shorten(s: string): (r: string)
    ensures |s| <= 7 ==> r == s
    ensures |s| > 7 ==> r == s[..7]
  {
    if |s| < 6 then s else s[..if |s| < 7 then |s| else 7]
  }

  /** Shortening keeps a prefix and is idempotent. */
  lemma ShortenPrefix(s: string)
    ensures StartsWith(s, Shorten(s)) && |Shorten(s)| <= 7
    ensures Shorten(Shorten(s)) == Shorten(s)
  {
  }

  /** Where a parsed atom goes. */
  datatype Route = Discarded | ToWaters | ToAtoms

  /** A hydrogen is discarded unless hydrogens are kept; otherwise a water
      goes to the waters and anything else to the atoms. */
  function RouteOf(a: Content, keepHydrogens: bool): Route {
    if a.element == H && !keepHydrogens then Discarded else if IsWater(a) then ToWaters else ToAtoms
  }

  /** The atoms, in order, that take route `r`. */
  function Routed(atoms: seq<Content>, keepHydrogens: bool, r: Route): seq<Content> {
    if atoms == [] then []
    else
      var last := atoms[|atoms| - 1];
      Routed(atoms[..|atoms| - 1], keepHydrogens, r) + (if RouteOf(last, keepHydrogens) == r then [last] else [])
  }

  /** The routing part of the atom-site loop. */
  method RouteAtoms(parsed: seq<Content>, keepHydrogens: bool) returns (atoms: seq<Content>, waters: seq<Content>, discarded: nat)
    ensures atoms == Routed(parsed, keepHydrogens, ToAtoms)
    ensures waters == Routed(parsed, keepHydrogens, ToWaters)
    ensures discarded == |Routed(parsed, keepHydrogens, Discarded)|
  {
    atoms, waters, discarded := [], [], 0;
    var i := 0;
    while i < |parsed|
      invariant i <= |parsed|
      invariant atoms == Routed(parsed[..i], keepHydrogens, ToAtoms)
      invariant waters == Routed(parsed[..i], keepHydrogens, ToWaters)
      invariant discarded == |Routed(parsed[..i], keepHydrogens, Discarded)|
    {
      var a := parsed[i];
      assert parsed[..i + 1] == parsed[..i] + [a];
      RoutedSnoc(parsed[..i], a, keepHydrogens);
      if a.element == H && !keepHydrogens {
        discarded := discarded + 1;
        i := i + 1;
        continue;
      }
      if IsWater(a) {
        waters := waters + [a];
      } else {
        atoms := atoms + [a];
      }
      i := i + 1;
    }
    assert parsed[..i] == parsed;
  }

  lemma RoutedSnoc(ps: seq<Content>, a: Content, keep: bool)
    ensures forall r :: Routed(ps + [a], keep, r) == Routed(ps, keep, r) + (if RouteOf(a, keep) == r then [a] else [])
  {
    assert (ps + [a])[..|ps|] == ps;
  }

  /** Every parsed atom takes exactly one route: the three lists together
      have as many entries as were parsed, the waters are waters, the atoms
      are not, and no hydrogen survives unless hydrogens are kept. */
  lemma {:induction false} RoutedPartition(atoms: seq<Content>, keep: bool)
    ensures |Routed(atoms, keep, ToAtoms)| + |Routed(atoms, keep, ToWaters)| + |Routed(atoms, keep, Discarded)| == |atoms|
    ensures forall a :: a in Routed(atoms, keep, ToWaters) ==> IsWater(a) && (a.element == H ==> keep)
    ensures forall a :: a in Routed(atoms, keep, ToAtoms) ==> !IsWater(a) && (a.element == H ==> keep)
    ensures keep ==> Routed(atoms, keep, Discarded) == []
    decreases |atoms|
  {
    if atoms != [] {
      RoutedPartition(atoms[..|atoms| - 1], keep);
    }
  }
}
