/** The reader of `.plot` documents: a line-oriented file made of keyword
    blocks. A block is a keyword line (`PlotDataset`, `PlotHistogram`, ...),
    a run of numeric rows ended by a blank line, then `key value...` option
    lines ended by a blank line. Reading a block turns it into a typed value;
    plotting it appends abstract drawing events to the current figure.
    Every fatal path of the script (`exit(1)`, and the Python exceptions a
    malformed file raises) is an `Err`. */
module PlotHelper {
  import opened Wrappers
  import opened Text
  import opened Numbers

  /** `exit(1)` with its message, or the exception Python raises. */
  datatype Failure = Exit(message: string) | ValueError | IndexError | ZeroDivision | Ragged

  // ---------------------------------------------------------------------
  // Options

  /** The fields of an `Options` object. Python's booleans `True`/`False`
      are the ints 1/0; a flag is set when it is non-zero. */
  datatype Settings = Settings(
    color: string, lineStyle: string, markerStyle: string, lineWidth: real, markerSize: real,
    drawLine: int, drawMarker: int, drawError: int, zorder: int,
    title: string, xlabel: string, ylabel: string, zlabel: string, legend: string,
    xrange: seq<real>, yrange: seq<real>, xlog: int, ylog: int, xshift: real,
    dof: int, stagger: real, normalize: real)

  /** What `Options()` starts with. */
  const DEFAULTS: Settings := Settings(
    "k", "-", ".", 1.0, 1.0, 1, 0, 0, 0,
    "", "x", "y", "z", "",
    [], [], 0, 0, 0.0,
    0, 1.0, 0.0)

  /** The text fields; the last five are labels, which take the rest of
      the line. */
  datatype TextField = Color | LineStyle | MarkerStyle | Title | XLabel | YLabel | ZLabel | Legend
  /** The fields read with `float()`. */
  datatype RealField = LineWidth | MarkerSize | XShift | Stagger | Normalize
  /** The fields read with `int()`. */
  datatype IntField = DrawLine | DrawMarkers | DrawErrors | ZOrder | LogX | LogY | Dof
  datatype Axis = X | Y

  /** The keys `parse_option` knows, grouped by how they read their value. */
  datatype Key = TextKey(t: TextField) | RealKey(r: RealField) | IntKey(i: IntField) | LimitsKey(a: Axis)

  predicate IsLabel(f: TextField) { f in {Title, XLabel, YLabel, ZLabel, Legend} }

  /** How each key is spelled in a file. */
  function KeyName(k: Key): string {
    match k
    case TextKey(Color) => "color"
    case TextKey(LineStyle) => "line_style"
    case TextKey(MarkerStyle) => "marker_style"
    case TextKey(Title) => "title"
    case TextKey(XLabel) => "xlabel"
    case TextKey(YLabel) => "ylabel"
    case TextKey(ZLabel) => "zlabel"
    case TextKey(Legend) => "legend"
    case RealKey(LineWidth) => "line_width"
    case RealKey(MarkerSize) => "marker_size"
    case RealKey(XShift) => "xshift"
    case RealKey(Stagger) => "stagger"
    case RealKey(Normalize) => "normalize"
    case IntKey(DrawLine) => "draw_line"
    case IntKey(DrawMarkers) => "draw_markers"
    case IntKey(DrawErrors) => "draw_errors"
    case IntKey(ZOrder) => "zorder"
    case IntKey(LogX) => "logx"
    case IntKey(LogY) => "logy"
    case IntKey(Dof) => "dof"
    case LimitsKey(X) => "xlimits"
    case LimitsKey(Y) => "ylimits"
  }

  /** The key a word names, if any. */
  function KeyOf(w: string): (r: Option<Key>)
    ensures r.Some? ==> KeyName(r.value) == w
  {
    match w
    case "color" => Some(TextKey(Color))
    case "line_style" => Some(TextKey(LineStyle))
    case "marker_style" => Some(TextKey(MarkerStyle))
    case "line_width" => Some(RealKey(LineWidth))
    case "marker_size" => Some(RealKey(MarkerSize))
    case "draw_line" => Some(IntKey(DrawLine))
    case "draw_markers" => Some(IntKey(DrawMarkers))
    case "draw_errors" => Some(IntKey(DrawErrors))
    case "zorder" => Some(IntKey(ZOrder))
    case "title" => Some(TextKey(Title))
    case "xlabel" => Some(TextKey(XLabel))
    case "ylabel" => Some(TextKey(YLabel))
    case "zlabel" => Some(TextKey(ZLabel))
    case "legend" => Some(TextKey(Legend))
    case "xlimits" => Some(LimitsKey(X))
    case "ylimits" => Some(LimitsKey(Y))
    case "logx" => Some(IntKey(LogX))
    case "logy" => Some(IntKey(LogY))
    case "xshift" => Some(RealKey(XShift))
    case "dof" => Some(IntKey(Dof))
    case "stagger" => Some(RealKey(Stagger))
    case "normalize" => Some(RealKey(Normalize))
    case _ => None
  }

  /** Every key is found under its own name. */
  lemma KeyOfName(k: Key)
    ensures KeyOf(KeyName(k)) == Some(k)
  {
  }

  /** So a word names no key exactly when the lookup fails. */
  lemma KeyOfNone(w: string)
    ensures KeyOf(w).None? <==> forall k :: KeyName(k) != w
  {
    if KeyOf(w).None? {
      forall k ensures KeyName(k) != w {
        KeyOfName(k);
      }
    }
  }

  /** No key is spelled like a comment. */
  lemma KeyNotComment(k: Key)
    ensures KeyName(k) != [] && KeyName(k)[0] != '#'
  {
  }

  /** Python's `float(t)` on a token from `split()`. */
  function FloatArg(t: string): Result<real, Failure> {
    match PyFloat(t)
    case Some(v) => Ok(v)
    case None => Err(ValueError)
  }

  /** Python's `int(t)` on a token from `split()`. */
  function IntArg(t: string): Result<int, Failure> {
    match PyInt(t)
    case Some(v) => Ok(v)
    case None => Err(ValueError)
  }

  /** `words[1:]` joined by single spaces. */
  function Rest(w: seq<string>): string
    requires |w| >= 1
  {
    Join(w[1..], ' ')
  }

  /** The `xlimits`/`ylimits` range: unchanged (`None`) when the two bound
      tokens are the same text, else both bounds as floats. */
  function Limits(w: seq<string>): Result<Option<seq<real>>, Failure>
    requires |w| >= 2
  {
    if |w| < 3 then Err(IndexError)
    else if w[1] == w[2] then Ok(None)
    else
      var lo :- FloatArg(w[1]);
      var hi :- FloatArg(w[2]);
      Ok(Some([lo, hi]))
  }

  function TextOf(s: Settings, f: TextField): string {
    match f
    case Color => s.color
    case LineStyle => s.lineStyle
    case MarkerStyle => s.markerStyle
    case Title => s.title
    case XLabel => s.xlabel
    case YLabel => s.ylabel
    case ZLabel => s.zlabel
    case Legend => s.legend
  }

  function PutText(s: Settings, f: TextField, v: string): Settings {
    match f
    case Color => s.(color := v)
    case LineStyle => s.(lineStyle := v)
    case MarkerStyle => s.(markerStyle := v)
    case Title => s.(title := v)
    case XLabel => s.(xlabel := v)
    case YLabel => s.(ylabel := v)
    case ZLabel => s.(zlabel := v)
    case Legend => s.(legend := v)
  }

  function PutReal(s: Settings, f: RealField, v: real): Settings {
    match f
    case LineWidth => s.(lineWidth := v)
    case MarkerSize => s.(markerSize := v)
    case XShift => s.(xshift := v)
    case Stagger => s.(stagger := v)
    case Normalize => s.(normalize := v)
  }

  function PutInt(s: Settings, f: IntField, v: int): Settings {
    match f
    case DrawLine => s.(drawLine := v)
    case DrawMarkers => s.(drawMarker := v)
    case DrawErrors => s.(drawError := v)
    case ZOrder => s.(zorder := v)
    case LogX => s.(xlog := v)
    case LogY => s.(ylog := v)
    case Dof => s.(dof := v)
  }

  function PutRange(s: Settings, a: Axis, v: seq<real>): Settings {
    match a
    case X => s.(xrange := v)
    case Y => s.(yrange := v)
  }

  /** One known key applied to the fields `s`; `w` is the split line. */
  function Apply(s: Settings, k: Key, w: seq<string>): Result<Settings, Failure>
    requires |w| >= 2
  {
    match k
    case TextKey(f) => Ok(PutText(s, f, if IsLabel(f) then Rest(w) else w[1]))
    case RealKey(f) => var v :- FloatArg(w[1]); Ok(PutReal(s, f, v))
    case IntKey(f) => var v :- IntArg(w[1]); Ok(PutInt(s, f, v))
    case LimitsKey(a) => var r :- Limits(w); Ok(if r.None? then s else PutRange(s, a, r.value))
  }

  /** A line that `parse_option` ignores. */
  predicate Ignored(w: seq<string>) { |w| < 2 || StartsWith(w[0], "#") }

  /** `Options.parse_option` on the fields `s`, given the words of the line. */
  function ParseWords(s: Settings, w: seq<string>): Result<Settings, Failure> {
    if Ignored(w) then Ok(s)
    else
      match KeyOf(w[0])
      case None => Err(Exit("Options.parse_option: Invalid option: " + w[0]))
      case Some(k) => Apply(s, k, w)
  }

  /** `Options.parse_option` on the fields `s`. */
  function ParseSetting(s: Settings, line: string): Result<Settings, Failure> {
    ParseWords(s, Words(line))
  }

  /** A line with fewer than two words, or whose first word starts with
      `#`, changes nothing. */
  lemma ParseNoOp(s: Settings, line: string)
    requires |Words(line)| < 2 || StartsWith(Words(line)[0], "#")
    ensures ParseSetting(s, line) == Ok(s)
  {
  }

  /** Any other line exits exactly when its first word names no key, and
      the message names that word. */
  lemma ParseUnknownExits(s: Settings, w: seq<string>)
    requires !Ignored(w)
    ensures var r := ParseWords(s, w);
      ((forall k :: KeyName(k) != w[0]) <==> r.Err? && r.error.Exit?) &&
      ((forall k :: KeyName(k) != w[0]) ==> r == Err(Exit("Options.parse_option: Invalid option: " + w[0])))
  {
    KeyOfNone(w[0]);
  }

  /** A line whose first word is a key's name applies that key. */
  lemma ParseKnown(s: Settings, w: seq<string>, k: Key)
    requires |w| >= 2 && w[0] == KeyName(k)
    ensures ParseWords(s, w) == Apply(s, k, w)
  {
    KeyOfName(k);
    KeyNotComment(k);
  }

  /** Setting a text field changes that field and no other text field. */
  lemma PutTextSets(s: Settings, f: TextField, v: string, g: TextField)
    ensures TextOf(PutText(s, f, v), f) == v
    ensures g != f ==> TextOf(PutText(s, f, v), g) == TextOf(s, g)
  {
  }

  /** The label keys store every word after the key, joined by single
      spaces, so splitting the stored label gives those words back. */
  lemma ParseLabel(s: Settings, line: string, f: TextField)
    requires |Words(line)| >= 2 && Words(line)[0] == KeyName(TextKey(f)) && IsLabel(f)
    ensures var r := ParseSetting(s, line);
      r == Ok(PutText(s, f, Rest(Words(line)))) && Words(TextOf(r.value, f)) == Words(line)[1..]
  {
    var w := Words(line);
    ParseKnown(s, w, TextKey(f));
    PutTextSets(s, f, Rest(w), f);
    TokensWellFormed(line, IsSpace);
    assert forall j :: 0 <= j < |w[1..]| ==> Clean(w[1..][j], IsSpace) by {
      forall j | 0 <= j < |w[1..]| ensures Clean(w[1..][j], IsSpace) {
        assert w[1..][j] == w[j + 1];
      }
    }
    TokensOfJoin(w[1..], ' ', IsSpace);
  }

  /** The one-word keys read only the word after the key: the words after
      it are ignored. */
  lemma ParseReadsOneValue(s: Settings, w: seq<string>, w2: seq<string>, k: Key)
    requires |w| >= 2 && |w2| >= 2 && w2[..2] == w[..2] && w[0] == KeyName(k)
    requires !k.LimitsKey? && !(k.TextKey? && IsLabel(k.t))
    ensures ParseWords(s, w) == ParseWords(s, w2)
  {
    assert w2[0] == w[0] && w2[1] == w[1] by {
      assert w2[0] == w2[..2][0] && w[0] == w[..2][0];
      assert w2[1] == w2[..2][1] && w[1] == w[..2][1];
    }
    ParseKnown(s, w, k);
    ParseKnown(s, w2, k);
  }

  /** The limit keys leave the range alone when the two bound tokens are the
      same text; otherwise they set a two-element range from both floats,
      and fail when either is not a float or a bound is missing. */
  lemma ParseLimits(s: Settings, w: seq<string>, a: Axis)
    requires |w| >= 2 && w[0] == KeyName(LimitsKey(a))
    ensures var r := ParseWords(s, w);
      (|w| < 3 ==> r == Err(IndexError)) &&
      (|w| >= 3 && w[1] == w[2] ==> r == Ok(s)) &&
      (|w| >= 3 && w[1] != w[2] ==>
        (r.Ok? <==> PyFloat(w[1]).Some? && PyFloat(w[2]).Some?) &&
        (r.Ok? ==> r.value == PutRange(s, a, [PyFloat(w[1]).value, PyFloat(w[2]).value])))
  {
    ParseKnown(s, w, LimitsKey(a));
  }

  /** An `Options` object: the fields `parse_option` sets. */
  class Options {
    var color: string
    var lineStyle: string
    var markerStyle: string
    var lineWidth: real
    var markerSize: real
    var drawLine: int
    var drawMarker: int
    var drawError: int
    var zorder: int
    var title: string
    var xlabel: string
    var ylabel: string
    var zlabel: string
    var legend: string
    var xrange: seq<real>
    var yrange: seq<real>
    var xlog: int
    var ylog: int
    var xshift: real
    var dof: int
    var stagger: real
    var normalize: real

    /** The object's fields as a value. */
    function Snapshot(): Settings
      reads this
    {
      Settings(color, lineStyle, markerStyle, lineWidth, markerSize, drawLine, drawMarker, drawError, zorder,
        title, xlabel, ylabel, zlabel, legend, xrange, yrange, xlog, ylog, xshift, dof, stagger, normalize)
    }

    constructor ()
      ensures Snapshot() == DEFAULTS
    {
      color, lineStyle, markerStyle := "k", "-", ".";
      lineWidth, markerSize := 1.0, 1.0;
      drawLine, drawMarker, drawError, zorder := 1, 0, 0, 0;
      title, xlabel, ylabel, zlabel, legend := "", "x", "y", "z", "";
      xrange, yrange := [], [];
      xlog, ylog, xshift := 0, 0, 0.0;
      dof, stagger, normalize := 0, 1.0, 0.0;
    }

    /** `parse_option(line)`: on success the fields become the parsed
        settings; on a failure nothing is assigned. */
    method ParseOption(line: string) returns (failure: Option<Failure>)
      modifies this
      ensures var r := ParseSetting(old(Snapshot()), line);
        (r.Ok? ==> failure == None && Snapshot() == r.value) &&
        (r.Err? ==> failure == Some(r.error) && Snapshot() == old(Snapshot()))
    {
      var words := Words(line);
      if |words| < 2 || StartsWith(words[0], "#") {
        return None;
      }
      var key := KeyOf(words[0]);
      if key.None? {
        return Some(Exit("Options.parse_option: Invalid option: " + words[0]));
      }
      failure := Set(key.value, words);
    }

    /** The assignment `parse_option` makes for one known key. */
    method Set(k: Key, words: seq<string>) returns (failure: Option<Failure>)
      requires |words| >= 2
      modifies this
      ensures var r := Apply(old(Snapshot()), k, words);
        (r.Ok? ==> failure == None && Snapshot() == r.value) &&
        (r.Err? ==> failure == Some(r.error) && Snapshot() == old(Snapshot()))
    {
      failure := None;
      match k {
        case TextKey(f) => SetText(f, if IsLabel(f) then Rest(words) else words[1]);
        case RealKey(f) =>
          var v := FloatArg(words[1]);
          if v.Err? { return Some(v.error); }
          SetReal(f, v.value);
        case IntKey(f) =>
          var v := IntArg(words[1]);
          if v.Err? { return Some(v.error); }
          SetInt(f, v.value);
        case LimitsKey(a) =>
          var r := Limits(words);
          if r.Err? { return Some(r.error); }
          if r.value.Some? { SetRange(a, r.value.value); }
      }
    }

    method SetText(f: TextField, v: string)
      modifies this
      ensures Snapshot() == PutText(old(Snapshot()), f, v)
    {
      match f {
        case Color => color := v;
        case LineStyle => lineStyle := v;
        case MarkerStyle => markerStyle := v;
        case Title => title := v;
        case XLabel => xlabel := v;
        case YLabel => ylabel := v;
        case ZLabel => zlabel := v;
        case Legend => legend := v;
      }
    }

    method SetReal(f: RealField, v: real)
      modifies this
      ensures Snapshot() == PutReal(old(Snapshot()), f, v)
    {
      match f {
        case LineWidth => lineWidth := v;
        case MarkerSize => markerSize := v;
        case XShift => xshift := v;
        case Stagger => stagger := v;
        case Normalize => normalize := v;
      }
    }

    method SetInt(f: IntField, v: int)
      modifies this
      ensures Snapshot() == PutInt(old(Snapshot()), f, v)
    {
      match f {
        case DrawLine => drawLine := v;
        case DrawMarkers => drawMarker := v;
        case DrawErrors => drawError := v;
        case ZOrder => zorder := v;
        case LogX => xlog := v;
        case LogY => ylog := v;
        case Dof => dof := v;
      }
    }

    method SetRange(a: Axis, v: seq<real>)
      modifies this
      ensures Snapshot() == PutRange(old(Snapshot()), a, v)
    {
      match a {
        case X => xrange := v;
        case Y => yrange := v;
      }
    }
  }

  // ---------------------------------------------------------------------
  // The file

  /** An open text file read line by line: the lines without their line
      terminators, and the position of the next line. */
  class LineFile {
    const lines: seq<string>
    var pos: nat

    constructor (lines: seq<string>)
      ensures this.lines == lines && pos == 0
    {
      this.lines := lines;
      pos := 0;
    }

    /** `readline()`: the next line, or nothing at the end of the file. */
    method ReadLine() returns (line: Option<string>)
      modifies this
      ensures old(pos) < |lines| ==> line == Some(lines[old(pos)]) && pos == old(pos) + 1
      ensures old(pos) >= |lines| ==> line == None && pos == old(pos)
    {
      if pos < |lines| {
        line := Some(lines[pos]);
        pos := pos + 1;
      } else {
        line := None;
      }
    }
  }

  /** A line that ends a section: empty once trailing whitespace is gone. */
  predicate Blank(line: string) { RStrip(line) == [] }

  /** What a reader produced and the position of the line after it. */
  datatype Parsed<T> = Parsed(value: T, next: nat)

  /** `readline()` read as text: the line at `p`, or `""` at the end. */
  function LineAt(lines: seq<string>, p: nat): string {
    if p < |lines| then lines[p] else ""
  }

  /** The position after one `readline()`. */
  function After(lines: seq<string>, p: nat): (q: nat)
    ensures p <= q && (p <= |lines| ==> q <= |lines|)
  {
    if p < |lines| then p + 1 else p
  }

  /** `read_options` from line `p` on, starting from the fields `s`. */
  function OptionsFrom(lines: seq<string>, p: nat, s: Settings): (r: Result<Parsed<Settings>, Failure>)
    ensures r.Ok? ==> p <= r.value.next && (p <= |lines| ==> r.value.next <= |lines|)
    decreases |lines| - p
  {
    if p >= |lines| then Ok(Parsed(s, p))
    else if Blank(lines[p]) then Ok(Parsed(s, p + 1))
    else
      var s2 :- ParseSetting(s, RStrip(lines[p]));
      OptionsFrom(lines, p + 1, s2)
  }

  /** Where a blank-line-terminated section that starts at line `p` ends:
      just after its first blank line, or at the end of the file. */
  function SectionEnd(lines: seq<string>, p: nat): nat
    decreases |lines| - p
  {
    if p >= |lines| then p
    else if Blank(lines[p]) then p + 1
    else SectionEnd(lines, p + 1)
  }

  /** The section end is just after the first blank line at or after `p`,
      or the end of the file when there is none. */
  lemma {:induction false} SectionEndIs(lines: seq<string>, p: nat)
    requires p <= |lines|
    ensures var e := SectionEnd(lines, p);
      p <= e <= |lines| &&
      (forall i :: p <= i < e - 1 ==> !Blank(lines[i])) &&
      ((e == |lines| && forall i :: p <= i < e ==> !Blank(lines[i])) || (p < e && Blank(lines[e - 1])))
    decreases |lines| - p
  {
    if p < |lines| && !Blank(lines[p]) {
      SectionEndIs(lines, p + 1);
    }
  }

  /** `read_options` reads up to and including the first blank line. */
  lemma {:induction false} OptionsConsumeSection(lines: seq<string>, p: nat, s: Settings)
    requires p <= |lines|
    ensures OptionsFrom(lines, p, s).Ok? ==> OptionsFrom(lines, p, s).value.next == SectionEnd(lines, p)
    decreases |lines| - p
  {
    if p < |lines| && !Blank(lines[p]) {
      var r := ParseSetting(s, RStrip(lines[p]));
      if r.Ok? {
        OptionsConsumeSection(lines, p + 1, r.value);
      }
    }
  }

  /** Lines after the section's blank line are never looked at: a blank
      line at `i` ends the reading whatever follows the file's lines. */
  lemma {:induction false} OptionsLocal(lines: seq<string>, more: seq<string>, p: nat, i: nat, s: Settings)
    requires p <= i < |lines| && Blank(lines[i])
    ensures OptionsFrom(lines + more, p, s) == OptionsFrom(lines, p, s)
    decreases i - p
  {
    assert (lines + more)[p] == lines[p];
    if i > p && !Blank(lines[p]) {
      match ParseSetting(s, RStrip(lines[p]))
      case Err(_) =>
      case Ok(s2) => OptionsLocal(lines, more, p + 1, i, s2);
    }
  }

  /** `read_options(file)`. */
  method ReadOptions(file: LineFile) returns (o: Options, failure: Option<Failure>)
    modifies file
    ensures fresh(o)
    ensures var r := OptionsFrom(file.lines, old(file.pos), DEFAULTS);
      (r.Ok? ==> failure == None && o.Snapshot() == r.value.value && file.pos == r.value.next) &&
      (r.Err? ==> failure == Some(r.error))
  {
    o := new Options();
    ghost var target := OptionsFrom(file.lines, file.pos, DEFAULTS);
    failure := None;
    while true
      invariant failure == None
      invariant OptionsFrom(file.lines, file.pos, o.Snapshot()) == target
      decreases |file.lines| - file.pos
    {
      ghost var p := file.pos;
      var line := file.ReadLine();
      if line.None? {
        break;
      }
      var text := RStrip(line.value);
      if text == "" {
        break;
      }
      ghost var before := o.Snapshot();
      failure := o.ParseOption(text);
      if failure.Some? {
        return;
      }
      assert OptionsFrom(file.lines, p, before) == OptionsFrom(file.lines, p + 1, o.Snapshot()) by {
        assert !Blank(file.lines[p]);
      }
    }
  }

  // ---------------------------------------------------------------------
  // Sections of rows

  /** Python's `[float(w) for w in words]`. */
  function Floats(ws: seq<string>): (r: Result<seq<real>, Failure>)
    ensures r.Ok? ==> |r.value| == |ws| && forall k :: 0 <= k < |ws| ==> PyFloat(ws[k]) == Some(r.value[k])
    ensures r.Err? ==> r.error == ValueError
  {
    if ws == [] then Ok([])
    else
      var v :- FloatArg(ws[0]);
      var rest :- Floats(ws[1..]);
      assert forall k :: 1 <= k < |ws| ==> ws[k] == ws[1..][k - 1];
      Ok([v] + rest)
  }

  /** One data line: a float per word. */
  function RowOf(line: string): Result<seq<real>, Failure> {
    Floats(Words(RStrip(line)))
  }

  /** `items` put in front of what a section reader produced. */
  function Prepend<T>(items: seq<T>, r: Result<Parsed<seq<T>>, Failure>): Result<Parsed<seq<T>>, Failure> {
    match r
    case Err(_) => r
    case Ok(Parsed(more, next)) => Ok(Parsed(items + more, next))
  }

  /** The lines of a section from line `p` on, up to its blank line, each
      turned into an item by `parse`; the first line `parse` rejects ends
      the program. */
  function SectionFrom<T>(lines: seq<string>, p: nat, parse: string -> Result<T, Failure>): (r: Result<Parsed<seq<T>>, Failure>)
    ensures r.Ok? ==> p <= r.value.next && (p <= |lines| ==> r.value.next <= |lines|)
    decreases |lines| - p
  {
    if p >= |lines| then Ok(Parsed([], p))
    else if Blank(lines[p]) then Ok(Parsed([], p + 1))
    else
      var item :- parse(lines[p]);
      Prepend([item], SectionFrom(lines, p + 1, parse))
  }

  /** The items are the section's lines, parsed one by one, and the reading
      stops just after the first blank line. */
  lemma {:induction false} SectionItems<T>(lines: seq<string>, p: nat, parse: string -> Result<T, Failure>)
    requires p <= |lines|
    ensures var r := SectionFrom(lines, p, parse);
      r.Ok? ==>
        r.value.next == SectionEnd(lines, p) &&
        |r.value.value| == (if r.value.next > p && Blank(lines[r.value.next - 1]) then r.value.next - 1 - p else r.value.next - p) &&
        forall i :: 0 <= i < |r.value.value| ==> parse(lines[p + i]) == Ok(r.value.value[i])
    decreases |lines| - p
  {
    if p < |lines| && !Blank(lines[p]) && parse(lines[p]).Ok? {
      SectionItems(lines, p + 1, parse);
      var rest := SectionFrom(lines, p + 1, parse);
      if rest.Ok? {
        var items := [parse(lines[p]).value] + rest.value.value;
        forall i | 0 <= i < |items|
          ensures parse(lines[p + i]) == Ok(items[i])
        {
          if i > 0 {
            assert items[i] == rest.value.value[i - 1];
            assert p + i == (p + 1) + (i - 1);
          }
        }
      }
    }
  }

  /** A line of the section that `parse` rejects makes the whole section
      fail. */
  lemma {:induction false} SectionRejects<T>(lines: seq<string>, p: nat, i: nat, parse: string -> Result<T, Failure>)
    requires p <= i < |lines| && (forall j :: p <= j <= i ==> !Blank(lines[j])) && parse(lines[i]).Err?
    ensures SectionFrom(lines, p, parse).Err?
    decreases i - p
  {
    if i > p && parse(lines[p]).Ok? {
      SectionRejects(lines, p + 1, i, parse);
    }
  }

  /** A word that is not a float, on a line of a section of rows, ends the
      program. */
  lemma RowsRejectWord(lines: seq<string>, p: nat, i: nat, k: nat)
    requires p <= i < |lines| && (forall j :: p <= j <= i ==> !Blank(lines[j]))
    requires k < |Words(RStrip(lines[i]))| && PyFloat(Words(RStrip(lines[i]))[k]).None?
    ensures SectionFrom(lines, p, RowOf).Err?
  {
    SectionRejects(lines, p, i, RowOf);
  }

  /** The loop `while (line := file.readline())` that stops at a blank line,
      parsing every other line. */
  method ReadSection<T>(file: LineFile, parse: string -> Result<T, Failure>) returns (items: seq<T>, failure: Option<Failure>)
    modifies file
    ensures var r := SectionFrom(file.lines, old(file.pos), parse);
      (r.Ok? ==> failure == None && items == r.value.value && file.pos == r.value.next) &&
      (r.Err? ==> failure == Some(r.error))
  {
    ghost var target := SectionFrom(file.lines, file.pos, parse);
    items := [];
    failure := None;
    PrependNone(target);
    while true
      invariant Prepend(items, SectionFrom(file.lines, file.pos, parse)) == target
      decreases |file.lines| - file.pos
    {
      ghost var p := file.pos;
      var line := file.ReadLine();
      if line.None? || Blank(line.value) {
        SectionStop(file.lines, p, items, parse);
        break;
      }
      var item := parse(line.value);
      if item.Err? {
        SectionStop(file.lines, p, items, parse);
        return items, Some(item.error);
      }
      SectionStep(file.lines, p, items, parse);
      items := items + [item.value];
    }
  }

  lemma PrependNone<T>(r: Result<Parsed<seq<T>>, Failure>)
    ensures Prepend([], r) == r
  {
    if r.Ok? {
      assert [] + r.value.value == r.value.value;
    }
  }

  /** A blank line, the end of the file or a rejected line ends a section. */
  lemma SectionStop<T>(lines: seq<string>, p: nat, items: seq<T>, parse: string -> Result<T, Failure>)
    requires p >= |lines| || Blank(lines[p]) || parse(lines[p]).Err?
    ensures var r := Prepend(items, SectionFrom(lines, p, parse));
      if p < |lines| && !Blank(lines[p]) then r == Err(parse(lines[p]).error)
      else r == Ok(Parsed(items, if p >= |lines| then p else p + 1))
  {
    assert items + [] == items;
  }

  /** A parsed line is one more item. */
  lemma SectionStep<T>(lines: seq<string>, p: nat, items: seq<T>, parse: string -> Result<T, Failure>)
    requires p < |lines| && !Blank(lines[p]) && parse(lines[p]).Ok?
    ensures Prepend(items, SectionFrom(lines, p, parse)) == Prepend(items + [parse(lines[p]).value], SectionFrom(lines, p + 1, parse))
  {
    var r := SectionFrom(lines, p + 1, parse);
    if r.Ok? {
      assert items + ([parse(lines[p]).value] + r.value.value) == (items + [parse(lines[p]).value]) + r.value.value;
    }
  }

  /** numpy's `np.array(rows)`: every row has the same length. */
  predicate Rectangular(rows: seq<seq<real>>) {
    forall i, j :: 0 <= i < |rows| && 0 <= j < |rows| ==> |rows[i]| == |rows[j]|
  }

  /** The column count numpy reports: a two-dimensional array has
      `len(rows[0])` columns; an empty array is one-dimensional and has
      none to index. */
  function Columns(rows: seq<seq<real>>): nat {
    if rows == [] then 0 else |rows[0]|
  }

  // ---------------------------------------------------------------------
  // Datasets

  /** A `Dataset`: its rows and its options. */
  datatype Dataset = Dataset(data: seq<seq<real>>, options: Settings)

  /** `x /= f` or `x *= f`. */
  function Op(x: real, f: real, over: bool): real
    requires over ==> f != 0.0
  {
    if over then x / f else x * f
  }

  /** The columns 1 and 2 of one row after `/= f` or `*= f`. */
  function ScaleRow(row: seq<real>, f: real, over: bool): seq<real>
    requires |row| >= 3 && (over ==> f != 0.0)
  {
    row[1 := Op(row[1], f, over)][2 := Op(row[2], f, over)]
  }

  /** The loop `for i in range(len(data))` that scales columns 1 and 2:
      `IndexError` when a row has fewer than three values. */
  function Scaled(rows: seq<seq<real>>, f: real, over: bool): (r: Result<seq<seq<real>>, Failure>)
    requires over ==> f != 0.0
  {
    if forall i :: 0 <= i < |rows| ==> |rows[i]| >= 3 then
      Ok(seq(|rows|, i requires 0 <= i < |rows| && |rows[i]| >= 3 => ScaleRow(rows[i], f, over)))
    else Err(IndexError)
  }

  /** The scaling `read_dataset` applies after reading the options: with
      `normalize` set, columns 1 and 2 are divided by
      `data[0][1] / normalize` (further divided by `stagger` when that is
      not 1, which is then reset to 1); otherwise they are multiplied by a
      `stagger` other than 1. The result is the rows and the options. */
  function Rescaled(rows: seq<seq<real>>, s: Settings): Result<(seq<seq<real>>, Settings), Failure> {
    if s.normalize != 0.0 then
      if rows == [] || |rows[0]| < 2 then Err(IndexError)
      else if s.stagger != 1.0 && s.stagger == 0.0 then Err(ZeroDivision)
      else
        var scaling := if s.stagger != 1.0 then rows[0][1] / s.normalize / s.stagger else rows[0][1] / s.normalize;
        var scaled :- if scaling != 0.0 then Scaled(rows, scaling, true) else Ok(rows);
        Ok((scaled, s.(stagger := 1.0)))
    else if s.stagger != 1.0 then
      var scaled :- Scaled(rows, s.stagger, false);
      Ok((scaled, s))
    else Ok((rows, s))
  }

  /** The one factor by which `Rescaled` multiplies columns 1 and 2. */
  function Factor(rows: seq<seq<real>>, s: Settings): real {
    if s.normalize != 0.0 && rows != [] && |rows[0]| >= 2 && s.stagger != 0.0 then
      var scaling := if s.stagger != 1.0 then rows[0][1] / s.normalize / s.stagger else rows[0][1] / s.normalize;
      if scaling != 0.0 then 1.0 / scaling else 1.0
    else if s.normalize == 0.0 && s.stagger != 1.0 then s.stagger
    else 1.0
  }

  /** `out` is `row` with the values 1 and 2 multiplied by `f`. */
  predicate RowScaledBy(row: seq<real>, out: seq<real>, f: real) {
    |out| == |row| &&
    (forall j :: 0 <= j < |row| && j != 1 && j != 2 ==> out[j] == row[j]) &&
    (forall j :: 0 <= j < |row| && (j == 1 || j == 2) ==> out[j] == row[j] * f)
  }

  /** Rescaling multiplies columns 1 and 2 of every row by one common
      factor and changes nothing else; normalising leaves `stagger` at 1,
      and staggering alone keeps the options. */
  lemma RescaleByFactor(rows: seq<seq<real>>, s: Settings)
    requires Rescaled(rows, s).Ok?
    ensures var (out, s2) := Rescaled(rows, s).value;
      |out| == |rows| &&
      (forall i :: 0 <= i < |rows| ==> RowScaledBy(rows[i], out[i], Factor(rows, s))) &&
      s2 == (if s.normalize != 0.0 then s.(stagger := 1.0) else s)
  {
    forall i | 0 <= i < |rows|
      ensures RowScaledBy(rows[i], Rescaled(rows, s).value.0[i], Factor(rows, s))
    {
      ScaledRow(rows, s, i);
    }
  }

  /** One row of `Rescaled` against the factor. */
  lemma ScaledRow(rows: seq<seq<real>>, s: Settings, i: nat)
    requires Rescaled(rows, s).Ok? && i < |rows|
    ensures RowScaledBy(rows[i], Rescaled(rows, s).value.0[i], Factor(rows, s))
  {
    var out := Rescaled(rows, s).value.0;
    if s.normalize != 0.0 {
      var scaling := if s.stagger != 1.0 then rows[0][1] / s.normalize / s.stagger else rows[0][1] / s.normalize;
      if scaling != 0.0 {
        ScaleRowBy(rows[i], scaling, true);
      }
    } else if s.stagger != 1.0 {
      ScaleRowBy(rows[i], s.stagger, false);
    }
  }

  /** Dividing by `f` is multiplying by `1 / f`. */
  lemma ScaleRowBy(row: seq<real>, f: real, over: bool)
    requires |row| >= 3 && (over ==> f != 0.0)
    ensures RowScaledBy(row, ScaleRow(row, f, over), if over then 1.0 / f else f)
  {
    if over {
      assert row[1] / f == row[1] * (1.0 / f);
      assert row[2] / f == row[2] * (1.0 / f);
    }
  }

  /** With `normalize` set, the first row's value becomes `normalize` times
      the `stagger` read from the file, and `stagger` is reset to 1. */
  lemma NormalizeFirst(rows: seq<seq<real>>, s: Settings)
    requires Rescaled(rows, s).Ok? && s.normalize != 0.0
    ensures rows != [] && |rows[0]| >= 2
    ensures var (out, s2) := Rescaled(rows, s).value;
      s2.stagger == 1.0 && (rows[0][1] != 0.0 ==> out[0][1] == s.normalize * s.stagger)
  {
    var (out, s2) := Rescaled(rows, s).value;
    if rows[0][1] != 0.0 {
      var y := rows[0][1];
      var scaling := if s.stagger != 1.0 then y / s.normalize / s.stagger else y / s.normalize;
      assert scaling != 0.0;
      assert out[0] == ScaleRow(rows[0], scaling, true);
      assert y / scaling == s.normalize * s.stagger;
    }
  }

  /** The scaling loop of `read_dataset`. */
  method ScaleRows(rows: seq<seq<real>>, f: real, over: bool) returns (out: seq<seq<real>>, failure: Option<Failure>)
    requires over ==> f != 0.0
    ensures var r := Scaled(rows, f, over);
      (r.Ok? ==> failure == None && out == r.value) && (r.Err? ==> failure == Some(r.error))
  {
    out := [];
    for i := 0 to |rows|
      invariant |out| == i
      invariant forall k :: 0 <= k < i ==> |rows[k]| >= 3 && out[k] == ScaleRow(rows[k], f, over)
    {
      if |rows[i]| < 3 {
        return out, Some(IndexError);
      }
      var row := rows[i];
      row := row[1 := Op(row[1], f, over)];
      row := row[2 := Op(row[2], f, over)];
      out := out + [row];
    }
    failure := None;
  }

  /** `read_dataset`: the rows, then the options, then the scaling, then
      `np.array`. */
  function DatasetFrom(lines: seq<string>, p: nat): (r: Result<Parsed<Dataset>, Failure>)
    ensures r.Ok? ==> p <= r.value.next && (p <= |lines| ==> r.value.next <= |lines|)
    ensures r.Ok? ==> Rectangular(r.value.value.data)
  {
    var rows :- SectionFrom(lines, p, RowOf);
    var opts :- OptionsFrom(lines, rows.next, DEFAULTS);
    var scaled :- Rescaled(rows.value, opts.value);
    if !Rectangular(scaled.0) then Err(Ragged)
    else Ok(Parsed(Dataset(scaled.0, scaled.1), opts.next))
  }

  /** `read_dataset(file)`. */
  method ReadDataset(file: LineFile) returns (d: Dataset, failure: Option<Failure>)
    modifies file
    ensures var r := DatasetFrom(file.lines, old(file.pos));
      (r.Ok? ==> failure == None && d == r.value.value && file.pos == r.value.next) &&
      (r.Err? ==> failure == Some(r.error))
  {
    d := Dataset([], DEFAULTS);
    var data;
    data, failure := ReadSection(file, RowOf);
    if failure.Some? {
      return;
    }
    ghost var rows := data;
    var options;
    options, failure := ReadOptions(file);
    if failure.Some? {
      return;
    }
    ghost var read := options.Snapshot();
    if options.normalize != 0.0 {
      if data == [] || |data[0]| < 2 {
        return d, Some(IndexError);
      }
      var scaling := data[0][1] / options.normalize;
      if options.stagger != 1.0 {
        if options.stagger == 0.0 {
          return d, Some(ZeroDivision);
        }
        scaling := scaling / options.stagger;
        options.stagger := 1.0;
      }
      if scaling != 0.0 {
        data, failure := ScaleRows(data, scaling, true);
        if failure.Some? {
          return;
        }
      }
    }
    if options.stagger != 1.0 {
      data, failure := ScaleRows(data, options.stagger, false);
      if failure.Some? {
        return;
      }
    }
    assert Rescaled(rows, read) == Ok((data, options.Snapshot()));
    if !Rectangular(data) {
      return d, Some(Ragged);
    }
    d := Dataset(data, options.Snapshot());
  }

  // ---------------------------------------------------------------------
  // Horizontal and vertical lines

  /** An `Hline` or a `Vline`: where it is drawn and its options. */
  datatype Marker = Marker(at: real, options: Settings)

  /** Python's `float(line)` on a whole line: surrounding whitespace is
      ignored. */
  function LineFloat(line: string): Result<real, Failure> {
    FloatArg(SkipSpaces(RStrip(line)))
  }

  /** `read_hline` and `read_vline`: a value on the first line (read by
      `value`, `LineFloat` in the program), one line skipped, then the
      options. At the end of the file the line read is empty. */
  function MarkerFrom(lines: seq<string>, p: nat, value: string -> Result<real, Failure>): (r: Result<Parsed<Marker>, Failure>)
    ensures r.Ok? ==> p <= r.value.next && (p <= |lines| ==> r.value.next <= |lines|)
  {
    var at :- value(LineAt(lines, p));
    var opts :- OptionsFrom(lines, After(lines, After(lines, p)), DEFAULTS);
    Ok(Parsed(Marker(at, opts.value), opts.next))
  }

  /** The marker value is the first line read as a float, and the options
      come from the section that starts two lines later, so that the
      second line is skipped whatever it holds. */
  lemma MarkerReadsValue(lines: seq<string>, p: nat)
    requires p + 2 <= |lines|
    ensures var r := MarkerFrom(lines, p, LineFloat); var o := OptionsFrom(lines, p + 2, DEFAULTS);
      (r.Ok? <==> PyFloat(SkipSpaces(RStrip(lines[p]))).Some? && o.Ok?) &&
      (r.Ok? ==> r.value == Parsed(Marker(PyFloat(SkipSpaces(RStrip(lines[p]))).value, o.value.value), o.value.next))
  {
  }

  /** `read_hline(file)` and `read_vline(file)`. */
  method ReadMarker(file: LineFile, value: string -> Result<real, Failure>) returns (m: Marker, failure: Option<Failure>)
    modifies file
    ensures var r := MarkerFrom(file.lines, old(file.pos), value);
      (r.Ok? ==> failure == None && m == r.value.value && file.pos == r.value.next) &&
      (r.Err? ==> failure == Some(r.error))
  {
    m := Marker(0.0, DEFAULTS);
    var line := file.ReadLine();
    var at := value(if line.Some? then line.value else "");
    if at.Err? {
      return m, Some(at.error);
    }
    var _ := file.ReadLine();
    var options;
    options, failure := ReadOptions(file);
    if failure.Some? {
      return;
    }
    m := Marker(at.value, options.Snapshot());
  }

  // ---------------------------------------------------------------------
  // Two-dimensional histograms

  /** An axis line `<name> <n> <min> <max>`: the bin count and the bounds,
      read in that order. */
  function AxisHeader(line: string): (r: Result<(int, real, real), Failure>)
    ensures r.Ok? ==> |Words(RStrip(line))| >= 4
  {
    var w := Words(RStrip(line));
    if |w| < 2 then Err(IndexError)
    else
      var n :- IntArg(w[1]);
      if |w| < 3 then Err(IndexError)
      else
        var lo :- FloatArg(w[2]);
        if |w| < 4 then Err(IndexError)
        else
          var hi :- FloatArg(w[3]);
          Ok((n, lo, hi))
  }

  /** The `n` bin positions `lo + i * (hi - lo) / n`; no bins for a
      negative `n`, and `ZeroDivisionError` for none. */
  function AxisValues(n: int, lo: real, hi: real): Result<seq<real>, Failure> {
    if n == 0 then Err(ZeroDivision)
    else
      var step := (hi - lo) / (n as real);
      Ok(seq(if n < 0 then 0 else n, i => lo + (i as real) * step))
  }

  /** A positive bin count gives exactly `n` evenly spaced values from `lo`,
      the step past the last value landing on `hi`. */
  lemma AxisValuesSpan(n: int, lo: real, hi: real)
    requires n > 0
    ensures var r := AxisValues(n, lo, hi); var step := (hi - lo) / (n as real);
      r.Ok? && |r.value| == n && r.value[0] == lo && r.value[n - 1] + step == hi &&
      forall i :: 0 < i < n ==> r.value[i] - r.value[i - 1] == step
  {
    var step := (hi - lo) / (n as real);
    var xs := AxisValues(n, lo, hi).value;
    assert xs[n - 1] == lo + ((n - 1) as real) * step;
    assert (n as real) * step == hi - lo;
  }

  /** The loop `for i in range(n)` that appends the bin positions. */
  method AxisLoop(n: int, lo: real, hi: real) returns (xs: seq<real>, failure: Option<Failure>)
    ensures var r := AxisValues(n, lo, hi);
      (r.Ok? ==> failure == None && xs == r.value) && (r.Err? ==> failure == Some(r.error))
  {
    if n == 0 {
      return [], Some(ZeroDivision);
    }
    var step := (hi - lo) / (n as real);
    xs := [];
    var i := 0;
    while i < n
      invariant 0 <= i && (n >= 0 ==> i <= n) && (n < 0 ==> i == 0)
      invariant |xs| == i && forall k :: 0 <= k < i ==> xs[k] == lo + (k as real) * step
    {
      xs := xs + [lo + (i as real) * step];
      i := i + 1;
    }
    ghost var want := AxisValues(n, lo, hi).value;
    assert |want| == |xs|;
    assert forall k :: 0 <= k < |xs| ==> want[k] == xs[k];
    failure := None;
  }

  /** What `read_2dhist` returns: the bin positions of both axes, the rows
      of counts and the options. */
  datatype Image = Image(x: seq<real>, y: seq<real>, z: seq<seq<real>>, options: Settings)

  /** `read_2dhist`, with axis lines read by `header` (`AxisHeader` in the
      program): both axis lines, both axes, the rows up to the blank
      line, `np.array` of the rows, then the options. */
  function ImageFrom(lines: seq<string>, p: nat, header: string -> Result<(int, real, real), Failure>): (r: Result<Parsed<Image>, Failure>)
    ensures r.Ok? ==> p <= r.value.next && (p <= |lines| ==> r.value.next <= |lines|)
  {
    var xh :- header(LineAt(lines, p));
    var yh :- header(LineAt(lines, After(lines, p)));
    var xs :- AxisValues(xh.0, xh.1, xh.2);
    var ys :- AxisValues(yh.0, yh.1, yh.2);
    var z :- SectionFrom(lines, After(lines, After(lines, p)), RowOf);
    if !Rectangular(z.value) then Err(Ragged)
    else
      var opts :- OptionsFrom(lines, z.next, DEFAULTS);
      Ok(Parsed(Image(xs, ys, z.value, opts.value), opts.next))
  }

  /** The axes of a read histogram have as many values as their headers
      say, and a zero count on either axis stops the reading. */
  lemma ImageAxes(lines: seq<string>, p: nat)
    requires p + 2 <= |lines|
    requires AxisHeader(lines[p]).Ok? && AxisHeader(lines[p + 1]).Ok?
    ensures var (nx, _, _) := AxisHeader(lines[p]).value; var (ny, _, _) := AxisHeader(lines[p + 1]).value;
      var r := ImageFrom(lines, p, AxisHeader);
      (nx == 0 ==> r == Err(ZeroDivision)) &&
      (nx != 0 && ny == 0 ==> r == Err(ZeroDivision)) &&
      (r.Ok? ==> |r.value.value.x| == (if nx < 0 then 0 else nx) && |r.value.value.y| == (if ny < 0 then 0 else ny))
  {
  }

  /** `read_2dhist(file)`. */
  method Read2DHist(file: LineFile, header: string -> Result<(int, real, real), Failure>) returns (img: Image, failure: Option<Failure>)
    modifies file
    ensures var r := ImageFrom(file.lines, old(file.pos), header);
      (r.Ok? ==> failure == None && img == r.value.value && file.pos == r.value.next) &&
      (r.Err? ==> failure == Some(r.error))
  {
    img := Image([], [], [], DEFAULTS);
    var xline := file.ReadLine();
    var xh := header(if xline.Some? then xline.value else "");
    if xh.Err? {
      return img, Some(xh.error);
    }
    var yline := file.ReadLine();
    var yh := header(if yline.Some? then yline.value else "");
    if yh.Err? {
      return img, Some(yh.error);
    }
    var xs, ys;
    xs, failure := AxisLoop(xh.value.0, xh.value.1, xh.value.2);
    if failure.Some? {
      return;
    }
    ys, failure := AxisLoop(yh.value.0, yh.value.1, yh.value.2);
    if failure.Some? {
      return;
    }
    var z;
    z, failure := ReadSection(file, RowOf);
    if failure.Some? {
      return;
    }
    if !Rectangular(z) {
      return img, Some(Ragged);
    }
    var options;
    options, failure := ReadOptions(file);
    if failure.Some? {
      return;
    }
    img := Image(xs, ys, z, options.Snapshot());
  }

  // ---------------------------------------------------------------------
  // Plotting

  /** What the figure receives, in order; the drawing itself is left to
      matplotlib. */
  datatype Event =
    | ErrorBars(data: seq<seq<real>>, options: Settings)
    | Markers(data: seq<seq<real>>, options: Settings)
    | Curve(data: seq<seq<real>>, options: Settings)
    | Axes(options: Settings)
    | ShowLegend
    | SkipEmpty(name: string)
    | Scatter3D(data: seq<seq<real>>, options: Settings)
    | HorizontalLine(at: real, options: Settings)
    | VerticalLine(at: real, options: Settings)
    | Contour(x: seq<real>, y: seq<real>, z: seq<seq<real>>)

  /** Column `j` of every row divided by `dv`. */
  function DivideColumn(rows: seq<seq<real>>, j: nat, dv: real): (out: seq<seq<real>>)
    requires dv != 0.0 && forall i :: 0 <= i < |rows| ==> j < |rows[i]|
    ensures |out| == |rows| && forall i :: 0 <= i < |rows| ==> out[i] == rows[i][j := rows[i][j] / dv]
  {
    seq(|rows|, i requires 0 <= i < |rows| => rows[i][j := rows[i][j] / dv])
  }

  /** Column `j` of every row increased by `dx`. */
  function ShiftColumn(rows: seq<seq<real>>, j: nat, dx: real): (out: seq<seq<real>>)
    requires forall i :: 0 <= i < |rows| ==> j < |rows[i]|
    ensures |out| == |rows| && forall i :: 0 <= i < |rows| ==> out[i] == rows[i][j := rows[i][j] + dx]
  {
    seq(|rows|, i requires 0 <= i < |rows| => rows[i][j := rows[i][j] + dx])
  }

  /** The data `plot_dataset` draws: column 1 divided by a nonzero `dof`,
      then column 0 shifted by a nonzero `xshift`; `IndexError` when the
      column is missing. */
  function Adjusted(d: Dataset): Result<seq<seq<real>>, Failure>
    requires Rectangular(d.data)
  {
    var o := d.options;
    if o.dof != 0 && Columns(d.data) < 2 then Err(IndexError)
    else
      var data1 := if o.dof != 0 then DivideColumn(d.data, 1, o.dof as real) else d.data;
      if o.xshift != 0.0 && Columns(d.data) < 1 then Err(IndexError)
      else Ok(if o.xshift != 0.0 then ShiftColumn(data1, 0, o.xshift) else data1)
  }

  /** The error bars (at least three columns needed), or else the
      markers, `plot_dataset` draws for the adjusted `data`. */
  function MarkEvents(d: Dataset, data: seq<seq<real>>): Result<seq<Event>, Failure> {
    var o := d.options;
    if o.drawError != 0 then
      if d.data == [] then Err(IndexError)
      else if Columns(d.data) < 3 then Err(Exit("plot_dataset: Not enough columns for error bars."))
      else Ok([ErrorBars(data, o)])
    else if o.drawMarker != 0 then
      if Columns(d.data) < 2 then Err(IndexError) else Ok([Markers(data, o)])
    else Ok([])
  }

  /** The line `plot_dataset` draws for the adjusted `data`. */
  function CurveEvents(d: Dataset, data: seq<seq<real>>): Result<seq<Event>, Failure> {
    if d.options.drawLine != 0 then
      if Columns(d.data) < 2 then Err(IndexError) else Ok([Curve(data, d.options)])
    else Ok([])
  }

  /** The axes, set up only for the first plot, and the legend, shown when
      the dataset has one. */
  function SetupEvents(o: Settings, first: bool): seq<Event> {
    (if first then [Axes(o)] else []) + (if o.legend != "" then [ShowLegend] else [])
  }

  /** `plot_dataset(d)` with `first_plot` as given. */
  function DatasetEvents(d: Dataset, first: bool): Result<seq<Event>, Failure>
    requires Rectangular(d.data)
  {
    var data :- Adjusted(d);
    var marks :- MarkEvents(d, data);
    var curve :- CurveEvents(d, data);
    Ok(marks + curve + SetupEvents(d.options, first))
  }

  /** The number of times the axes are set up. */
  function AxesCount(evs: seq<Event>): nat {
    if evs == [] then 0 else (if evs[0].Axes? then 1 else 0) + AxesCount(evs[1..])
  }

  lemma {:induction false} AxesCountAppend(a: seq<Event>, b: seq<Event>)
    ensures AxesCount(a + b) == AxesCount(a) + AxesCount(b)
    decreases |a|
  {
    if a != [] {
      assert (a + b)[0] == a[0];
      assert (a + b)[1..] == a[1..] + b;
      AxesCountAppend(a[1..], b);
    } else {
      assert a + b == b;
    }
  }

  /** A plotted dataset sets the axes up exactly when it is the first. */
  lemma DatasetAxes(d: Dataset, first: bool)
    requires Rectangular(d.data) && DatasetEvents(d, first).Ok?
    ensures AxesCount(DatasetEvents(d, first).value) == (if first then 1 else 0)
  {
    var data := Adjusted(d).value;
    var marks := MarkEvents(d, data).value;
    var curve := CurveEvents(d, data).value;
    var o := d.options;
    var axes: seq<Event> := if first then [Axes(o)] else [];
    var legend: seq<Event> := if o.legend != "" then [ShowLegend] else [];
    AxesCountAppend(marks + curve, SetupEvents(o, first));
    AxesCountAppend(marks, curve);
    AxesCountAppend(axes, legend);
    assert AxesCount(marks) == 0 by {
      if marks != [] {
        assert marks[1..] == [];
      }
    }
    assert AxesCount(curve) == 0 by {
      if curve != [] {
        assert curve[1..] == [];
      }
    }
    assert AxesCount(legend) == 0 by {
      if legend != [] {
        assert legend[1..] == [];
      }
    }
    assert AxesCount(axes) == (if first then 1 else 0) by {
      if first {
        assert axes[1..] == [];
      }
    }
  }

  /** Error bars need three columns: with fewer (and the dof and shift
      columns present) the program exits with its message; when they are
      drawn there are at least three columns and no separate markers. */
  lemma ErrorBarColumns(d: Dataset, first: bool)
    requires Rectangular(d.data) && d.options.drawError != 0
    ensures var r := DatasetEvents(d, first);
      (d.data != [] && Columns(d.data) < 3 && (d.options.dof == 0 || Columns(d.data) >= 2) &&
        (d.options.xshift == 0.0 || Columns(d.data) >= 1) ==>
        r == Err(Exit("plot_dataset: Not enough columns for error bars."))) &&
      (r.Ok? ==> Columns(d.data) >= 3 && r.value[0].ErrorBars? && forall k :: 0 <= k < |r.value| ==> !r.value[k].Markers?)
  {
  }

  /** Every drawn series is the dataset with column 1 divided by `dof` and
      column 0 shifted by `xshift`, and nothing else changed. */
  lemma AdjustedColumns(d: Dataset)
    requires Rectangular(d.data) && Adjusted(d).Ok?
    ensures var out := Adjusted(d).value; var o := d.options;
      |out| == |d.data| &&
      forall i :: 0 <= i < |d.data| ==>
        |out[i]| == |d.data[i]| &&
        (forall j :: 2 <= j < |d.data[i]| ==> out[i][j] == d.data[i][j]) &&
        (|d.data[i]| > 0 ==> out[i][0] == d.data[i][0] + o.xshift) &&
        (|d.data[i]| > 1 ==> out[i][1] == (if o.dof != 0 then d.data[i][1] / (o.dof as real) else d.data[i][1]))
  {
  }

  /** `plot_landscape(d)`: a 3-D scatter of the first three columns. */
  function LandscapeEvent(d: Dataset): Result<Event, Failure> {
    if Columns(d.data) < 3 then Err(IndexError) else Ok(Scatter3D(d.data, d.options))
  }

  /** The name under which an empty dataset is skipped. */
  function EmptyName(s: Settings): string {
    if s.title != "" then s.title else if s.legend != "" then s.legend else "(unnammed)"
  }

  /** The kinds of block of a plot file, named by their header line. */
  datatype PlotType = PlotLandscape | PlotDataset | PlotHistogram | PlotImage | PlotImageAtoms | PlotHline | PlotVline | PlotInvalid

  function TypeName(t: PlotType): string {
    match t
    case PlotLandscape => "PlotLandscape"
    case PlotDataset => "PlotDataset"
    case PlotHistogram => "PlotHistogram"
    case PlotImage => "PlotImage"
    case PlotImageAtoms => "PlotImageAtoms"
    case PlotHline => "PlotHline"
    case PlotVline => "PlotVline"
    case PlotInvalid => ""
  }

  /** `determine_type`: the type whose name is exactly the line. */
  function DetermineType(line: string): PlotType {
    match line
    case "PlotLandscape" => PlotLandscape
    case "PlotDataset" => PlotDataset
    case "PlotHistogram" => PlotHistogram
    case "PlotImage" => PlotImage
    case "PlotImageAtoms" => PlotImageAtoms
    case "PlotHline" => PlotHline
    case "PlotVline" => PlotVline
    case _ => PlotInvalid
  }

  /** A line names a type exactly when it is that type's name; every other
      line is invalid. */
  lemma DetermineTypeIs(line: string, t: PlotType)
    ensures DetermineType(line) == t <==> line == TypeName(t) || (t == PlotInvalid && forall u :: TypeName(u) != line)
  {
    TypeOfName(t);
    if DetermineType(line) != PlotInvalid {
      assert TypeName(DetermineType(line)) == line;
    }
    if DetermineType(line) == PlotInvalid && line != "" {
      forall u
        ensures TypeName(u) != line
      {
        TypeOfName(u);
      }
    }
  }

  lemma TypeOfName(t: PlotType)
    ensures DetermineType(TypeName(t)) == t
  {
    match t
    case PlotLandscape =>
    case PlotDataset =>
    case PlotHistogram =>
    case PlotImage =>
    case PlotImageAtoms =>
    case PlotHline =>
    case PlotVline =>
    case PlotInvalid =>
  }

  /** `events` put in front of what the rest of the file produced. */
  function Then(events: seq<Event>, r: Result<seq<Event>, Failure>): Result<seq<Event>, Failure> {
    match r
    case Err(_) => r
    case Ok(more) => Ok(events + more)
  }

  /** One block of a plot file: the header line at `p`, then the block it
      names. The result is what is drawn, the line after the block and the
      new `first_plot`. */
  function Step(lines: seq<string>, p: nat, first: bool): (r: Result<(seq<Event>, nat, bool), Failure>)
    requires p < |lines|
    ensures r.Ok? ==> p < r.value.1 <= |lines|
  {
    match DetermineType(RStrip(lines[p]))
    case PlotDataset =>
      var d :- DatasetFrom(lines, p + 1);
      if d.value.data == [] then Ok(([SkipEmpty(EmptyName(d.value.options))], d.next, first))
      else
        var evs :- DatasetEvents(d.value, first);
        Ok((evs, d.next, false))
    case PlotHline =>
      var m :- MarkerFrom(lines, p + 1, LineFloat);
      Ok(([HorizontalLine(m.value.at, m.value.options)], m.next, first))
    case PlotVline =>
      var m :- MarkerFrom(lines, p + 1, LineFloat);
      Ok(([VerticalLine(m.value.at, m.value.options)], m.next, first))
    case PlotLandscape =>
      var d :- DatasetFrom(lines, p + 1);
      var e :- LandscapeEvent(d.value);
      Ok(([e], d.next, first))
    case PlotHistogram =>
      var d :- DatasetFrom(lines, p + 1);
      var evs :- DatasetEvents(d.value, first);
      Ok((evs, d.next, false))
    case PlotImage =>
      var img :- ImageFrom(lines, p + 1, AxisHeader);
      Ok(([Contour(img.value.x, img.value.y, img.value.z)], img.next, first))
    case PlotImageAtoms => Err(Exit("ImageAtoms not implemented yet."))
    case PlotInvalid => Err(Exit("plot_file: Invalid plot type: " + lines[p]))
  }

  /** The loop of `plot_file` from line `p` on, with `first_plot` as given. */
  function PlotFrom(lines: seq<string>, p: nat, first: bool): Result<seq<Event>, Failure>
    decreases |lines| - p
  {
    if p >= |lines| then Ok([])
    else
      var (evs, next, first2) :- Step(lines, p, first);
      Then(evs, PlotFrom(lines, next, first2))
  }

  /** A block sets the axes up at most once, and only while `first_plot`
      holds, clearing it when it does. */
  lemma StepAxes(lines: seq<string>, p: nat, first: bool)
    requires p < |lines| && Step(lines, p, first).Ok?
    ensures var (evs, _, first2) := Step(lines, p, first).value;
      AxesCount(evs) + (if first2 then 1 else 0) <= (if first then 1 else 0)
  {
    var (evs, _, first2) := Step(lines, p, first).value;
    match DetermineType(RStrip(lines[p]))
    case PlotDataset =>
      var d := DatasetFrom(lines, p + 1).value;
      if d.value.data != [] {
        DatasetAxes(d.value, first);
      }
    case PlotHistogram =>
      DatasetAxes(DatasetFrom(lines, p + 1).value.value, first);
    case _ =>
  }

  /** The axes of a figure are set up at most once, by its first plotted
      dataset or histogram. */
  lemma {:induction false} AxesAtMostOnce(lines: seq<string>, p: nat, first: bool)
    requires p <= |lines|
    ensures PlotFrom(lines, p, first).Ok? ==> AxesCount(PlotFrom(lines, p, first).value) <= (if first then 1 else 0)
    decreases |lines| - p
  {
    if p < |lines| && PlotFrom(lines, p, first).Ok? {
      var (evs, next, first2) := Step(lines, p, first).value;
      StepAxes(lines, p, first);
      AxesAtMostOnce(lines, next, first2);
      AxesCountAppend(evs, PlotFrom(lines, next, first2).value);
    }
  }

  /** A line that names no block type ends the program with its message;
      this includes a blank line where a header is expected. */
  lemma InvalidHeaderExits(lines: seq<string>, p: nat, first: bool)
    requires p < |lines| && forall t :: TypeName(t) != RStrip(lines[p])
    ensures PlotFrom(lines, p, first) == Err(Exit("plot_file: Invalid plot type: " + lines[p]))
  {
    DetermineTypeIs(RStrip(lines[p]), PlotInvalid);
  }

  /** An empty dataset is reported by name and skipped, leaving
      `first_plot` as it was. */
  lemma EmptyDatasetSkipped(lines: seq<string>, p: nat, first: bool)
    requires p < |lines| && RStrip(lines[p]) == "PlotDataset"
    requires DatasetFrom(lines, p + 1).Ok? && DatasetFrom(lines, p + 1).value.value.data == []
    ensures var d := DatasetFrom(lines, p + 1).value;
      Step(lines, p, first) == Ok(([SkipEmpty(EmptyName(d.value.options))], d.next, first))
  {
  }

  /** The figure `plot_file` draws on. */
  class Figure {
    var events: seq<Event>
    var firstPlot: bool

    constructor ()
      ensures events == [] && firstPlot
    {
      events := [];
      firstPlot := true;
    }

    /** `plot_dataset(d)`. */
    method DrawDataset(d: Dataset) returns (failure: Option<Failure>)
      requires Rectangular(d.data)
      modifies this
      ensures var r := DatasetEvents(d, old(firstPlot));
        (r.Ok? ==> failure == None && events == old(events) + r.value && !firstPlot) &&
        (r.Err? ==> failure == Some(r.error))
    {
      var o := d.options;
      var data := Adjusted(d);
      if data.Err? {
        return Some(data.error);
      }
      var marks: seq<Event> := [];
      if o.drawError != 0 {
        if d.data == [] {
          return Some(IndexError);
        }
        if Columns(d.data) < 3 {
          return Some(Exit("plot_dataset: Not enough columns for error bars."));
        }
        marks := [ErrorBars(data.value, o)];
      } else if o.drawMarker != 0 {
        if Columns(d.data) < 2 {
          return Some(IndexError);
        }
        marks := [Markers(data.value, o)];
      }
      assert MarkEvents(d, data.value) == Ok(marks);
      var curve: seq<Event> := [];
      if o.drawLine != 0 {
        if Columns(d.data) < 2 {
          return Some(IndexError);
        }
        curve := [Curve(data.value, o)];
      }
      assert CurveEvents(d, data.value) == Ok(curve);
      var setup: seq<Event> := [];
      if firstPlot {
        firstPlot := false;
        setup := [Axes(o)];
      }
      if o.legend != "" {
        setup := setup + [ShowLegend];
      }
      assert setup == SetupEvents(o, old(firstPlot));
      events := events + (marks + curve + setup);
      failure := None;
    }

    /** `plot_file(file)`: a new figure, `first_plot` reset, then every
        block of the file in turn. */
    method PlotFile(lines: seq<string>) returns (failure: Option<Failure>)
      modifies this
      ensures var r := PlotFrom(lines, 0, true);
        (r.Ok? ==> failure == None && events == r.value) && (r.Err? ==> failure == Some(r.error))
    {
      firstPlot := true;
      events := [];
      var file := new LineFile(lines);
      ghost var target := PlotFrom(lines, 0, true);
      assert Then([], target) == target by {
        if target.Ok? {
          assert [] + target.value == target.value;
        }
      }
      while true
        invariant file.lines == lines && file.pos <= |lines|
        invariant Then(events, PlotFrom(lines, file.pos, firstPlot)) == target
        decreases |lines| - file.pos
      {
        ghost var p := file.pos;
        ghost var before := events;
        ghost var first := firstPlot;
        var line := file.ReadLine();
        if line.None? {
          assert events + [] == events;
          break;
        }
        failure := Block(file, DetermineType(RStrip(line.value)), line.value, p);
        if failure.Some? {
          return;
        }
        ThenAppend(before, Step(lines, p, first).value.0, PlotFrom(lines, file.pos, firstPlot));
      }
      failure := None;
    }

    /** The block that follows a header line of the type `t`. */
    method Block(file: LineFile, t: PlotType, header: string, ghost p: nat) returns (failure: Option<Failure>)
      requires p < |file.lines| && file.pos == p + 1 && header == file.lines[p]
      requires t == DetermineType(RStrip(header))
      modifies this, file
      ensures var r := Step(file.lines, p, old(firstPlot));
        (r.Ok? ==> failure == None && events == old(events) + r.value.0 && file.pos == r.value.1 && firstPlot == r.value.2) &&
        (r.Err? ==> failure == Some(r.error))
    {
      match t {
        case PlotDataset =>
          var d;
          d, failure := ReadDataset(file);
          if failure.Some? {
            return;
          }
          if d.data == [] {
            events := events + [SkipEmpty(EmptyName(d.options))];
            return;
          }
          failure := DrawDataset(d);
        case PlotHistogram =>
          var d;
          d, failure := ReadDataset(file);
          if failure.Some? {
            return;
          }
          failure := DrawDataset(d);
        case PlotHline =>
          var m;
          m, failure := ReadMarker(file, LineFloat);
          if failure.Some? {
            return;
          }
          events := events + [HorizontalLine(m.at, m.options)];
        case PlotVline =>
          var m;
          m, failure := ReadMarker(file, LineFloat);
          if failure.Some? {
            return;
          }
          events := events + [VerticalLine(m.at, m.options)];
        case PlotLandscape =>
          var d;
          d, failure := ReadDataset(file);
          if failure.Some? {
            return;
          }
          var e := LandscapeEvent(d);
          if e.Err? {
            return Some(e.error);
          }
          events := events + [e.value];
        case PlotImage =>
          var img;
          img, failure := Read2DHist(file, AxisHeader);
          if failure.Some? {
            return;
          }
          events := events + [Contour(img.x, img.y, img.z)];
        case PlotImageAtoms =>
          return Some(Exit("ImageAtoms not implemented yet."));
        case PlotInvalid =>
          return Some(Exit("plot_file: Invalid plot type: " + header));
      }
    }
  }

  lemma ThenAppend(a: seq<Event>, b: seq<Event>, r: Result<seq<Event>, Failure>)
    ensures Then(a, Then(b, r)) == Then(a + b, r)
  {
    if r.Ok? {
      assert a + (b + r.value) == (a + b) + r.value;
    }
  }
}
