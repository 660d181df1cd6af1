/**
 * The rendering request (`Config`), its permission override (`getMode`) and
 * its one-line-per-setting summary (`Config.String`).
 */
module Configuration {
  import opened Wrappers
  import opened Text
  import opened Octal

  /** The fields of the Go struct `Config`, in the same order. */
  datatype Config = Config(
    input: string,
    inputFiles: seq<string>,
    inputDir: string,
    excludeGlob: seq<string>,
    outputFiles: seq<string>,
    outputDir: string,
    outMode: string,
    dataSources: seq<string>,
    dataSourceHeaders: seq<string>,
    lDelim: string,
    rDelim: string,
    additionalTemplates: seq<string>)

  // ---------------------------------------------------------------------
  // getMode
  // ---------------------------------------------------------------------

  /** The three results of `getMode`: a file mode, the override flag, an error. */
  datatype ModeResult = ModeResult(mode: nat, override: bool, err: Option<NumError>)

  /** `OutMode` is a permission the file mode can take: octal digits worth at most 2^32 - 1. */
  predicate ValidMode(s: string) {
    AllOctal(s) && OctalValue(s) <= MAX_UINT32
  }

  /** `getMode`: parse `"0" + OutMode` in base 8 within 32 bits. */
  function GetMode(o: Config): (r: ModeResult)
    ensures o.outMode == "" ==> r == ModeResult(0, false, None)
    ensures r.err.None? <==> ValidMode(o.outMode)
    ensures r.err.None? ==> r.mode == OctalValue(o.outMode) && r.override == (o.outMode != "")
    ensures r.err.Some? ==> r.mode == 0 && !r.override
    ensures r.err == Some(ErrRange) <==> Overflows(o.outMode)
  {
    var modeOverride := o.outMode != "";
    LeadingZero(o.outMode);
    OverflowsIffTooLarge(o.outMode);
    match ParseUint32("0" + o.outMode)
    case Failure(e) => ModeResult(0, false, Some(e))
    case Success(m) => ModeResult(m, modeOverride, None)
  }

  // ---------------------------------------------------------------------
  // String
  // ---------------------------------------------------------------------

  /** What `if cond { c += s }` appends to `c`. */
  function Optional(cond: bool, s: string): string {
    if cond then s else ""
  }

  /**
   * `Config.String`, built up as the Go code appends to `c`;
   * `StringIsRenderedLines` states what the result is.
   */
  function String(o: Config): string
  {
    var c0 := "input: ";
    var c1 := c0 + (
      if o.input != "" then "<arg>"
      else if o.inputDir != "" then o.inputDir
      else Optional(|o.inputFiles| > 0, Join(o.inputFiles, ", ")));
    var c2 := c1 + Optional(|o.excludeGlob| > 0, "\nexclude: " + Join(o.excludeGlob, ", "));
    var c3 := c2 + "\noutput: ";
    var c4 := c3 + (
      if o.inputDir != "" && o.outputDir != "." then o.outputDir
      else Optional(|o.outputFiles| > 0, Join(o.outputFiles, ", ")));
    var c5 := c4 + Optional(o.outMode != "", "\nchmod: " + o.outMode);
    var c6 := c5 + Optional(|o.dataSources| > 0, "\ndatasources: " + Join(o.dataSources, ", "));
    var c7 := c6 + Optional(|o.dataSourceHeaders| > 0, "\ndatasourceheaders: " + Join(o.dataSourceHeaders, ", "));
    var c8 := c7 + Optional(o.lDelim != "{{", "\nleft_delim: " + o.lDelim);
    var c9 := c8 + Optional(o.rDelim != "}}", "\nright_delim: " + o.rDelim);
    var c10 := c9 + Optional(|o.additionalTemplates| > 0, "\ntemplates: " + Join(o.additionalTemplates, ", "));
    c10
  }

  /** The settings the summary can mention, in the order it mentions them. */
  datatype Key = Input | Exclude | Output | Chmod | DataSources | DataSourceHeaders
               | LeftDelim | RightDelim | Templates

  /** Position of a key in the fixed order of the summary. */
  function Rank(k: Key): nat {
    match k
    case Input => 0
    case Exclude => 1
    case Output => 2
    case Chmod => 3
    case DataSources => 4
    case DataSourceHeaders => 5
    case LeftDelim => 6
    case RightDelim => 7
    case Templates => 8
  }

  /** The line break and label that introduce the line for a key. */
  function Header(k: Key): string {
    match k
    case Input => "\ninput: "
    case Exclude => "\nexclude: "
    case Output => "\noutput: "
    case Chmod => "\nchmod: "
    case DataSources => "\ndatasources: "
    case DataSourceHeaders => "\ndatasourceheaders: "
    case LeftDelim => "\nleft_delim: "
    case RightDelim => "\nright_delim: "
    case Templates => "\ntemplates: "
  }

  /** What the input line says: inline text wins over a directory, a directory over a file list. */
  function InputSummary(o: Config): string {
    if o.input != "" then "<arg>"
    else if o.inputDir != "" then o.inputDir
    else Join(o.inputFiles, ", ")
  }

  /** What the output line says: the output directory, for a directory input not sent to ".". */
  function OutputSummary(o: Config): string {
    if o.inputDir != "" && o.outputDir != "." then o.outputDir
    else Join(o.outputFiles, ", ")
  }

  /** Whether the summary has a line for `k`: input and output always, the rest when set. */
  predicate Shown(o: Config, k: Key) {
    match k
    case Input => true
    case Exclude => |o.excludeGlob| > 0
    case Output => true
    case Chmod => o.outMode != ""
    case DataSources => |o.dataSources| > 0
    case DataSourceHeaders => |o.dataSourceHeaders| > 0
    case LeftDelim => o.lDelim != "{{"
    case RightDelim => o.rDelim != "}}"
    case Templates => |o.additionalTemplates| > 0
  }

  /** The text after the label on the line for `k`. */
  function FieldText(o: Config, k: Key): string {
    match k
    case Input => InputSummary(o)
    case Exclude => Join(o.excludeGlob, ", ")
    case Output => OutputSummary(o)
    case Chmod => o.outMode
    case DataSources => Join(o.dataSources, ", ")
    case DataSourceHeaders => Join(o.dataSourceHeaders, ", ")
    case LeftDelim => o.lDelim
    case RightDelim => o.rDelim
    case Templates => Join(o.additionalTemplates, ", ")
  }

  datatype Line = Line(key: Key, value: string)

  /** The line for `k`, if the summary shows it. */
  function LineFor(o: Config, k: Key): seq<Line> {
    if Shown(o, k) then [Line(k, FieldText(o, k))] else []
  }

  /** The summary as structured lines, one candidate per key in the fixed order. */
  function SummaryLines(o: Config): seq<Line> {
    LineFor(o, Input) + LineFor(o, Exclude) + LineFor(o, Output) + LineFor(o, Chmod)
    + LineFor(o, DataSources) + LineFor(o, DataSourceHeaders) + LineFor(o, LeftDelim)
    + LineFor(o, RightDelim) + LineFor(o, Templates)
  }

  /** Lines separated by line breaks, each as its label followed by its value. */
  function RenderLines(ls: seq<Line>): string {
    if ls == [] then ""
    else if |ls| == 1 then Header(ls[0].key)[1..] + ls[0].value
    else RenderLines(ls[..|ls| - 1]) + (Header(ls[|ls| - 1].key) + ls[|ls| - 1].value)
  }

  predicate HasKey(ls: seq<Line>, k: Key) {
    exists i :: 0 <= i < |ls| && ls[i].key == k
  }

  /** The keys of `ls` appear in strictly increasing rank. */
  predicate Ordered(ls: seq<Line>) {
    forall i, j :: 0 <= i < j < |ls| ==> Rank(ls[i].key) < Rank(ls[j].key)
  }

  predicate ContainsAt(s: string, part: string, i: nat) {
    i + |part| <= |s| && s[i..i + |part|] == part
  }

  /** What the line for `k` adds to the text of the lines before it. */
  function Piece(o: Config, k: Key): string {
    Optional(Shown(o, k), Header(k) + FieldText(o, k))
  }

  /** The summary text as the input line followed by one piece per other key. */
  function Pieces(o: Config): string {
    "input: " + InputSummary(o) + Piece(o, Exclude) + Piece(o, Output) + Piece(o, Chmod)
    + Piece(o, DataSources) + Piece(o, DataSourceHeaders) + Piece(o, LeftDelim)
    + Piece(o, RightDelim) + Piece(o, Templates)
  }

  lemma RenderStep(ls: seq<Line>, o: Config, k: Key)
    requires ls != []
    ensures RenderLines(ls + LineFor(o, k)) == RenderLines(ls) + Piece(o, k)
  {
    var next := ls + LineFor(o, k);
    if Shown(o, k) {
      assert next[..|next| - 1] == ls;
    } else {
      assert next == ls;
      assert RenderLines(ls) + "" == RenderLines(ls);
    }
  }

  /** The input and output parts `String` appends are the summaries of those settings. */
  lemma SummaryParts(o: Config)
    ensures InputSummary(o) == if o.input != "" then "<arg>"
      else if o.inputDir != "" then o.inputDir
      else Optional(|o.inputFiles| > 0, Join(o.inputFiles, ", "))
    ensures OutputSummary(o) == if o.inputDir != "" && o.outputDir != "." then o.outputDir
      else Optional(|o.outputFiles| > 0, Join(o.outputFiles, ", "))
  {
  }

  /** Each piece is the optional line `String` appends for its setting. */
  lemma PiecesUnfold(o: Config)
    ensures Piece(o, Exclude) == Optional(|o.excludeGlob| > 0, "\nexclude: " + Join(o.excludeGlob, ", "))
    ensures Piece(o, Output) == "\noutput: " + OutputSummary(o)
    ensures Piece(o, Chmod) == Optional(o.outMode != "", "\nchmod: " + o.outMode)
    ensures Piece(o, DataSources) == Optional(|o.dataSources| > 0, "\ndatasources: " + Join(o.dataSources, ", "))
    ensures Piece(o, DataSourceHeaders)
      == Optional(|o.dataSourceHeaders| > 0, "\ndatasourceheaders: " + Join(o.dataSourceHeaders, ", "))
    ensures Piece(o, LeftDelim) == Optional(o.lDelim != "{{", "\nleft_delim: " + o.lDelim)
    ensures Piece(o, RightDelim) == Optional(o.rDelim != "}}", "\nright_delim: " + o.rDelim)
    ensures Piece(o, Templates) == Optional(|o.additionalTemplates| > 0, "\ntemplates: " + Join(o.additionalTemplates, ", "))
  {
  }

  lemma StringPieces(o: Config)
    ensures String(o) == Pieces(o)
  {
    SummaryParts(o);
    PiecesUnfold(o);
    var c2 := "input: " + InputSummary(o) + Piece(o, Exclude);
    AppendAssociative(c2, "\noutput: ", OutputSummary(o));
  }

  lemma RenderPieces(o: Config)
    ensures RenderLines(SummaryLines(o)) == Pieces(o)
  {
    var l1 := LineFor(o, Input);
    assert RenderLines(l1) == "input: " + InputSummary(o) by {
      assert Header(Input)[1..] == "input: ";
    }
    var l2 := l1 + LineFor(o, Exclude);
    RenderStep(l1, o, Exclude);
    var l3 := l2 + LineFor(o, Output);
    RenderStep(l2, o, Output);
    var l4 := l3 + LineFor(o, Chmod);
    RenderStep(l3, o, Chmod);
    var l5 := l4 + LineFor(o, DataSources);
    RenderStep(l4, o, DataSources);
    var l6 := l5 + LineFor(o, DataSourceHeaders);
    RenderStep(l5, o, DataSourceHeaders);
    var l7 := l6 + LineFor(o, LeftDelim);
    RenderStep(l6, o, LeftDelim);
    var l8 := l7 + LineFor(o, RightDelim);
    RenderStep(l7, o, RightDelim);
    RenderStep(l8, o, Templates);
  }

  /** The text the Go code builds is exactly the rendering of the structured lines. */
  lemma StringIsRenderedLines(o: Config)
    ensures String(o) == RenderLines(SummaryLines(o))
  {
    StringPieces(o);
    RenderPieces(o);
  }

  lemma HasKeyAppend(a: seq<Line>, b: seq<Line>, k: Key)
    ensures HasKey(a + b, k) <==> HasKey(a, k) || HasKey(b, k)
  {
    if HasKey(b, k) {
      var i :| 0 <= i < |b| && b[i].key == k;
      assert (a + b)[|a| + i] == b[i];
    }
    if HasKey(a, k) {
      var i :| 0 <= i < |a| && a[i].key == k;
      assert (a + b)[i] == a[i];
    }
    if HasKey(a + b, k) {
      var i :| 0 <= i < |a + b| && (a + b)[i].key == k;
      if i < |a| { assert a[i].key == k; } else { assert b[i - |a|].key == k; }
    }
  }

  /** The line for a setting is there exactly when the setting is shown. */
  lemma SummaryLinePresence(o: Config, k: Key)
    ensures HasKey(SummaryLines(o), k) <==> Shown(o, k)
  {
    var l1 := LineFor(o, Input);
    var l2 := l1 + LineFor(o, Exclude);
    var l3 := l2 + LineFor(o, Output);
    var l4 := l3 + LineFor(o, Chmod);
    var l5 := l4 + LineFor(o, DataSources);
    var l6 := l5 + LineFor(o, DataSourceHeaders);
    var l7 := l6 + LineFor(o, LeftDelim);
    var l8 := l7 + LineFor(o, RightDelim);
    HasKeyAppend(l1, LineFor(o, Exclude), k);
    HasKeyAppend(l2, LineFor(o, Output), k);
    HasKeyAppend(l3, LineFor(o, Chmod), k);
    HasKeyAppend(l4, LineFor(o, DataSources), k);
    HasKeyAppend(l5, LineFor(o, DataSourceHeaders), k);
    HasKeyAppend(l6, LineFor(o, LeftDelim), k);
    HasKeyAppend(l7, LineFor(o, RightDelim), k);
    HasKeyAppend(l8, LineFor(o, Templates), k);
    assert HasKey(LineFor(o, k), k) <==> Shown(o, k) by {
      if Shown(o, k) { assert LineFor(o, k)[0].key == k; }
    }
  }

  /** Every line of `ls` holds the text of its own setting. */
  predicate Faithful(o: Config, ls: seq<Line>) {
    forall l :: l in ls ==> l.value == FieldText(o, l.key)
  }

  lemma FaithfulAppend(o: Config, ls: seq<Line>, k: Key)
    requires Faithful(o, ls)
    ensures Faithful(o, ls + LineFor(o, k))
  {
  }

  /** Every line of the summary holds the text of its own setting. */
  lemma SummaryLineValues(o: Config)
    ensures forall l :: l in SummaryLines(o) ==> l.value == FieldText(o, l.key)
  {
    var l1 := LineFor(o, Input);
    var l2 := l1 + LineFor(o, Exclude);
    var l3 := l2 + LineFor(o, Output);
    var l4 := l3 + LineFor(o, Chmod);
    var l5 := l4 + LineFor(o, DataSources);
    var l6 := l5 + LineFor(o, DataSourceHeaders);
    var l7 := l6 + LineFor(o, LeftDelim);
    var l8 := l7 + LineFor(o, RightDelim);
    FaithfulAppend(o, [], Input);
    assert [] + l1 == l1;
    FaithfulAppend(o, l1, Exclude);
    FaithfulAppend(o, l2, Output);
    FaithfulAppend(o, l3, Chmod);
    FaithfulAppend(o, l4, DataSources);
    FaithfulAppend(o, l5, DataSourceHeaders);
    FaithfulAppend(o, l6, LeftDelim);
    FaithfulAppend(o, l7, RightDelim);
    FaithfulAppend(o, l8, Templates);
  }

  lemma OrderedAppend(ls: seq<Line>, o: Config, k: Key)
    requires Ordered(ls)
    requires forall l :: l in ls ==> Rank(l.key) < Rank(k)
    ensures Ordered(ls + LineFor(o, k))
    ensures forall l :: l in ls + LineFor(o, k) ==> Rank(l.key) <= Rank(k)
  {
    var next := ls + LineFor(o, k);
    forall i, j | 0 <= i < j < |next| ensures Rank(next[i].key) < Rank(next[j].key) {
      if j >= |ls| {
        assert next[i] in ls;
      }
    }
  }

  /** The summary never repeats a key and mentions the settings in the fixed order of the code. */
  lemma SummaryLinesOrdered(o: Config)
    ensures Ordered(SummaryLines(o))
  {
    var l1 := LineFor(o, Input);
    var l2 := l1 + LineFor(o, Exclude);
    var l3 := l2 + LineFor(o, Output);
    var l4 := l3 + LineFor(o, Chmod);
    var l5 := l4 + LineFor(o, DataSources);
    var l6 := l5 + LineFor(o, DataSourceHeaders);
    var l7 := l6 + LineFor(o, LeftDelim);
    var l8 := l7 + LineFor(o, RightDelim);
    OrderedAppend(l1, o, Exclude);
    OrderedAppend(l2, o, Output);
    OrderedAppend(l3, o, Chmod);
    OrderedAppend(l4, o, DataSources);
    OrderedAppend(l5, o, DataSourceHeaders);
    OrderedAppend(l6, o, LeftDelim);
    OrderedAppend(l7, o, RightDelim);
    OrderedAppend(l8, o, Templates);
  }

  predicate PrefixOf(a: string, s: string) {
    |a| <= |s| && s[..|a|] == a
  }

  lemma PrefixAppend(a: string, s: string, t: string)
    requires PrefixOf(a, s)
    ensures PrefixOf(a, s + t)
  {
    assert (s + t)[..|s|] == s;
  }

  /** The summary starts with the input line and always holds an output line. */
  lemma SummaryInputAndOutput(o: Config)
    ensures ContainsAt(String(o), "input: " + InputSummary(o), 0)
    ensures exists i :: ContainsAt(String(o), "\noutput: " + OutputSummary(o), i)
  {
    StringPieces(o);
    var first := "input: " + InputSummary(o);
    var head := first + Piece(o, Exclude);
    var out := Piece(o, Output);
    var p3 := head + out;
    assert PrefixOf(first, head);
    assert PrefixOf(p3, p3);
    var p4 := p3 + Piece(o, Chmod);
    PrefixAppend(first, head, out);
    PrefixAppend(first, p3, Piece(o, Chmod));
    PrefixAppend(p3, p3, Piece(o, Chmod));
    var p5 := p4 + Piece(o, DataSources);
    PrefixAppend(first, p4, Piece(o, DataSources));
    PrefixAppend(p3, p4, Piece(o, DataSources));
    var p6 := p5 + Piece(o, DataSourceHeaders);
    PrefixAppend(first, p5, Piece(o, DataSourceHeaders));
    PrefixAppend(p3, p5, Piece(o, DataSourceHeaders));
    var p7 := p6 + Piece(o, LeftDelim);
    PrefixAppend(first, p6, Piece(o, LeftDelim));
    PrefixAppend(p3, p6, Piece(o, LeftDelim));
    var p8 := p7 + Piece(o, RightDelim);
    PrefixAppend(first, p7, Piece(o, RightDelim));
    PrefixAppend(p3, p7, Piece(o, RightDelim));
    PrefixAppend(first, p8, Piece(o, Templates));
    PrefixAppend(p3, p8, Piece(o, Templates));
    assert String(o)[0..|first|] == first;
    OutputAt(String(o), head, out);
  }

  lemma OutputAt(s: string, head: string, out: string)
    requires PrefixOf(head + out, s)
    ensures ContainsAt(s, out, |head|)
  {
    assert s[|head|..|head| + |out|] == s[..|head + out|][|head|..];
  }
}
