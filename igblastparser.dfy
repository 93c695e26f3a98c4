/** The IgBLAST report parser (`libBASE/IgBlastParser.py`, class
    `LoadBlastedOutput`): a line scanner over a `-outfmt 7` report with IMGT
    domains, the dictionaries built from what it collects, and the germline
    coordinate map `gene_alignments`. */
module IgBlastParser {
  import opened Wrappers
  import opened PyStr
  import opened Dict
  import opened PyValue
  import opened Sorting

  // ===========================================================================
  // The line scanner
  // ===========================================================================

  /** The four tab fields of the CDR3 line of the sub-region details. */
  datatype Cdr3Line = Cdr3Line(sequence: string, translated: string, start: string, end: string)

  /** What the scanner has collected so far, and its three "the next line is
      data" flags.  A title or row field that was never set is the empty
      text in the source, which `zip` treats like an empty list. */
  datatype ScanState = ScanState(
    query: string,
    domainClassification: string,
    rearrangementTitles: seq<string>,
    rearrangementSummary: seq<string>,
    junctionTitles: seq<string>,
    junctionDetail: seq<string>,
    alignmentTitles: seq<string>,
    alignmentSummaries: Dict<string, seq<string>>,
    totalIdentifiableCdr3: Option<string>,
    cdr3: Option<Cdr3Line>,
    hitFields: seq<string>,
    hitsV: seq<string>,
    hitsD: seq<string>,
    hitsJ: seq<string>,
    rearrangementNext: bool,
    junctionNext: bool,
    fieldsSeen: bool)

  /** The state before the first line. */
  const Initial: ScanState :=
    ScanState("", "", [], [], [], [], [], [], None, None, [], [], [], [], false, false, false)

  /** `line.strip().split()`. */
  function Tokens(line: string): seq<string> {
    SplitWs(Strip(line))
  }

  /** `line.strip().split("\t")`. */
  function TabFields(line: string): seq<string> {
    SplitOn(Strip(line), '\t')
  }

  /** `xs[n:]`. */
  function Drop<T>(xs: seq<T>, n: nat): (r: seq<T>)
    ensures n <= |xs| ==> r == xs[n..]
    ensures n > |xs| ==> r == []
  {
    if n <= |xs| then xs[n..] else []
  }

  /** `s.split(c)[i]`; `None` is the `IndexError` of a missing piece. */
  function Piece(s: string, c: char, i: nat): Option<string> {
    var p := SplitOn(s, c);
    if i < |p| then Some(p[i]) else None
  }

  /** `line.split(":")[1].strip()`. */
  function AfterColon(line: string): Option<string> {
    match Piece(line, ':', 1)
    case None => None
    case Some(p) => Some(Strip(p))
  }

  /** The comma-separated titles of a header line: the `i`-th
      parenthesised part of the stripped line, up to its `)`. */
  function HeaderTitles(line: string, i: nat): Option<seq<string>> {
    match Piece(Strip(line), '(', i)
    case None => None
    case Some(p) => Some(SplitOn(SplitOn(p, ')')[0], ','))
  }

  /** How one group of checks leaves a line: go on with the next checks,
      `continue` with the next line, or raise `IndexError`. */
  datatype Flow = Go(st: ScanState) | Next(st: ScanState) | Raise

  /** How a group of checks ended, as the loop body sees it. */
  datatype Outcome = Continue | Finish | Fail

  /** `f` is the flow `out` stands for, with `st` the state it carries. */
  predicate FlowIs(f: Flow, out: Outcome, st: ScanState) {
    match out
    case Continue => f == Go(st)
    case Finish => f == Next(st)
    case Fail => f == Raise
  }

  /** The query name and the domain classification. */
  function ScanIds(st: ScanState, line: string): Option<ScanState> {
    var q := if Contains(line, "Query") then AfterColon(line) else Some(st.query);
    var d := if Contains(line, "Domain classification requested:") then AfterColon(line) else Some(st.domainClassification);
    if q.None? || d.None? then None
    else Some(st.(query := q.value, domainClassification := d.value))
  }

  /** The two header lines whose data is on the next line: the rearrangement
      summary and the junction details. */
  function ScanHeaders(st: ScanState, line: string): Flow {
    if Contains(line, "rearrangement summary") then
      match HeaderTitles(line, 2)
      case None => Raise
      case Some(t) => Next(st.(rearrangementTitles := t, rearrangementNext := true))
    else
      var s1 := if st.rearrangementNext then st.(rearrangementSummary := TabFields(line), rearrangementNext := false) else st;
      if Contains(line, "junction details") then
        match HeaderTitles(line, 2)
        case None => Raise
        case Some(t) => Next(s1.(junctionTitles := t, junctionNext := true))
      else if s1.junctionNext then Go(s1.(junctionDetail := TabFields(line), junctionNext := false))
      else Go(s1)
  }

  /** `d[key] = line.strip().split()[1:]` when the line starts with `prefix`. */
  function Region(d: Dict<string, seq<string>>, line: string, prefix: string, key: string): Dict<string, seq<string>> {
    if StartsWith(line, prefix) then Put(d, key, Drop(Tokens(line), 1)) else d
  }

  /** The FR1 to FR3 rows, checked in this order. */
  function RegionRows(d: Dict<string, seq<string>>, line: string): Dict<string, seq<string>> {
    Region(Region(Region(Region(Region(d,
      line, "FR1-IMGT", "fr1"), line, "CDR1-IMGT", "cdr1"), line, "FR2-IMGT", "fr2"),
      line, "CDR2-IMGT", "cdr2"), line, "FR3-IMGT", "fr3")
  }

  /** The alignment-summary titles and rows. The `CDR3-IMGT` row carries a
      `(germline)` marker, so its values start at token 2, and the line ends
      there. */
  function ScanAlignment(st: ScanState, line: string): Flow {
    var titles := if Contains(line, "Alignment summary") then HeaderTitles(line, 1) else Some(st.alignmentTitles);
    match titles
    case None => Raise
    case Some(t) =>
      var d := RegionRows(st.alignmentSummaries, line);
      var s1 := st.(alignmentTitles := t, alignmentSummaries := d);
      if StartsWith(line, "CDR3-IMGT") then Next(s1.(alignmentSummaries := Put(d, "cdr3", Drop(Tokens(line), 2))))
      else Go(s1)
  }

  /** The three kinds of `Total` line, then the CDR3 line. */
  function ScanTotalAndCdr3(st: ScanState, line: string): Option<ScanState> {
    var k := Tokens(line);
    var s1 :=
      if !StartsWith(line, "Total") then Some(st)
      else if Contains(line, "CDR3") then (if |k| > 4 then Some(st.(totalIdentifiableCdr3 := Some(k[4]))) else None)
      else if |k| == 8 then Some(st.(alignmentSummaries := Put(st.alignmentSummaries, "total", k[1..])))
      else Some(st);
    match s1
    case None => None
    case Some(s) =>
      if StartsWith(line, "CDR3") then
        var f := TabFields(line);
        if |f| > 4 then Some(s.(cdr3 := Some(Cdr3Line(f[1], f[2], f[3], f[4])))) else None
      else Some(s)
  }

  /** The hit-table field list. */
  function ScanFields(st: ScanState, line: string): Option<ScanState> {
    if Contains(line, "# Fields:") then
      match Piece(Strip(line), ':', 1)
      case None => None
      case Some(p) => Some(st.(hitFields := SplitOn(p, ','), fieldsSeen := true))
    else Some(st)
  }

  /** A V, D or J row after the field list goes to its hit list. */
  function HitRow(s: ScanState, line: string): ScanState {
    if !s.fieldsSeen then s
    else if StartsWith(line, "V") then s.(hitsV := s.hitsV + [line])
    else if StartsWith(line, "D") then s.(hitsD := s.hitsD + [line])
    else if StartsWith(line, "J") then s.(hitsJ := s.hitsJ + [line])
    else s
  }

  /** The hit-table field list, and the V, D and J rows after it. */
  function ScanHits(st: ScanState, line: string): Option<ScanState> {
    match ScanFields(st, line)
    case None => None
    case Some(s) => Some(HitRow(s, line))
  }

  /** The checks after the alignment summary. */
  function ScanTail(st: ScanState, line: string): Option<ScanState> {
    match ScanTotalAndCdr3(st, line)
    case None => None
    case Some(s4) => ScanHits(s4, line)
  }

  /** The checks after the query name and the domain classification. */
  function ScanRest(s1: ScanState, line: string): Option<ScanState> {
    match ScanHeaders(s1, line)
    case Raise => None
    case Next(s) => Some(s)
    case Go(s2) =>
      match ScanAlignment(s2, line)
      case Raise => None
      case Next(s) => Some(s)
      case Go(s3) => ScanTail(s3, line)
  }

  /** One pass of the loop body of the constructor; `None` is an exception. */
  function ScanLine(st: ScanState, line: string): Option<ScanState> {
    match ScanIds(st, line)
    case None => None
    case Some(s1) => ScanRest(s1, line)
  }

  /** The scanner after the given lines; `None` once a line raised. */
  function ScanAll(lines: seq<string>): Option<ScanState> {
    if lines == [] then Some(Initial)
    else
      match ScanAll(lines[..|lines| - 1])
      case None => None
      case Some(st) => ScanLine(st, lines[|lines| - 1])
  }

  // ---------------------------------------------------------------------------
  // Scanner properties
  // ---------------------------------------------------------------------------

  /** A line none of whose marker texts the scanner looks for. */
  predicate PlainLine(line: string) {
    !Contains(line, "Query") && !Contains(line, "Domain classification requested:") &&
    !Contains(line, "rearrangement summary") && !Contains(line, "junction details") &&
    !Contains(line, "Alignment summary") && !Contains(line, "# Fields:")
  }

  /** No header line is waiting for its data line. */
  predicate NoPendingHeader(st: ScanState) {
    !st.rearrangementNext && !st.junctionNext
  }

  /** A text whose `k`-th character differs from that of `p` does not start with `p`. */
  lemma NotStartsWith(s: string, p: string, k: nat)
    requires k < |p| && k < |s| && s[k] != p[k]
    ensures !StartsWith(s, p)
  {
    if |p| <= |s| {
      assert s[..|p|][k] == s[k];
    }
  }

  /** The first checks leave a plain line's state alone. */
  lemma PlainIds(st: ScanState, line: string)
    requires PlainLine(line)
    ensures ScanIds(st, line) == Some(st)
  {
  }

  /** The header checks leave a plain line alone when no header is pending. */
  lemma PlainHeaders(st: ScanState, line: string)
    requires PlainLine(line) && NoPendingHeader(st)
    ensures ScanHeaders(st, line) == Go(st)
  {
  }

  /** A plain line whose first character is none of `F` and `C`, or that
      starts with `CDR3`, is no FR1 to FR3 row. */
  lemma NoRegionRow(d: Dict<string, seq<string>>, line: string)
    requires line != [] && (line[0] !in "FC" || StartsWith(line, "CDR3"))
    ensures RegionRows(d, line) == d
  {
    if line[0] !in "FC" {
      NotStartsWith(line, "FR1-IMGT", 0);
      NotStartsWith(line, "CDR1-IMGT", 0);
      NotStartsWith(line, "FR2-IMGT", 0);
      NotStartsWith(line, "CDR2-IMGT", 0);
      NotStartsWith(line, "FR3-IMGT", 0);
    } else {
      assert line[..4] == "CDR3";
      assert line[3] == '3' && line[0] == 'C';
      NotStartsWith(line, "FR1-IMGT", 0);
      NotStartsWith(line, "CDR1-IMGT", 3);
      NotStartsWith(line, "FR2-IMGT", 0);
      NotStartsWith(line, "CDR2-IMGT", 3);
      NotStartsWith(line, "FR3-IMGT", 0);
    }
  }

  /** The alignment checks on a plain line that is no alignment row. */
  lemma PlainAlignment(st: ScanState, line: string)
    requires PlainLine(line) && line != []
    requires line[0] !in "FC" || (StartsWith(line, "CDR3") && !StartsWith(line, "CDR3-IMGT"))
    ensures ScanAlignment(st, line) == Go(st)
  {
    NoRegionRow(st.alignmentSummaries, line);
    if line[0] !in "FC" {
      NotStartsWith(line, "CDR3-IMGT", 0);
    }
  }

  /** A plain line that starts with `CDR3-IMGT` sets the `cdr3` row from token
      2 on, and nothing else: the rest of the loop body is skipped. */
  lemma ScanCdr3Imgt(st: ScanState, line: string)
    requires StartsWith(line, "CDR3-IMGT") && PlainLine(line) && NoPendingHeader(st)
    ensures ScanLine(st, line) == Some(st.(alignmentSummaries := Put(st.alignmentSummaries, "cdr3", Drop(Tokens(line), 2))))
  {
    PlainIds(st, line);
    PlainHeaders(st, line);
    assert line[..4] == "CDR3-IMGT"[..4] == "CDR3";
    NoRegionRow(st.alignmentSummaries, line);
  }

  /** A plain line that starts with `CDR3` but not with `CDR3-IMGT` sets the
      CDR3 fields from its tab fields 1 to 4, and nothing else; with fewer
      fields it raises. */
  lemma ScanCdr3Plain(st: ScanState, line: string)
    requires StartsWith(line, "CDR3") && !StartsWith(line, "CDR3-IMGT")
    requires PlainLine(line) && NoPendingHeader(st)
    ensures var f := TabFields(line);
      ScanLine(st, line) == if |f| > 4 then Some(st.(cdr3 := Some(Cdr3Line(f[1], f[2], f[3], f[4])))) else None
  {
    PlainIds(st, line);
    PlainHeaders(st, line);
    PlainAlignment(st, line);
    assert line[0] == "CDR3"[0];
    NotStartsWith(line, "Total", 0);
    var f := TabFields(line);
    if |f| > 4 {
      var s := st.(cdr3 := Some(Cdr3Line(f[1], f[2], f[3], f[4])));
      assert ScanTotalAndCdr3(st, line) == Some(s);
      NotStartsWith(line, "V", 0);
      NotStartsWith(line, "D", 0);
      NotStartsWith(line, "J", 0);
      assert ScanHits(s, line) == Some(s);
    }
  }

  /** The scanner after the checks for the query name and the headers. */
  function AfterHeaders(st: ScanState, line: string): Flow {
    match ScanIds(st, line)
    case None => Raise
    case Some(s1) => ScanHeaders(s1, line)
  }

  /** The other checks never change the CDR3 fields. */
  lemma EarlyChecksKeepCdr3(st: ScanState, line: string)
    ensures ScanIds(st, line).Some? ==> ScanIds(st, line).value.cdr3 == st.cdr3
    ensures !ScanHeaders(st, line).Raise? ==> ScanHeaders(st, line).st.cdr3 == st.cdr3
    ensures !ScanAlignment(st, line).Raise? ==> ScanAlignment(st, line).st.cdr3 == st.cdr3
    ensures ScanHits(st, line).Some? ==> ScanHits(st, line).value.cdr3 == st.cdr3
  {
    HeadersKeepCdr3(st, line);
    AlignmentKeepsCdr3(st, line);
    HitsKeepCdr3(st, line);
  }

  lemma HeadersKeepCdr3(st: ScanState, line: string)
    ensures !ScanHeaders(st, line).Raise? ==> ScanHeaders(st, line).st.cdr3 == st.cdr3
  {
  }

  lemma AlignmentKeepsCdr3(st: ScanState, line: string)
    ensures !ScanAlignment(st, line).Raise? ==> ScanAlignment(st, line).st.cdr3 == st.cdr3
  {
  }

  lemma HitsKeepCdr3(st: ScanState, line: string)
    ensures ScanHits(st, line).Some? ==> ScanHits(st, line).value.cdr3 == st.cdr3
  {
    FieldsKeepCdr3(st, line);
    var f := ScanFields(st, line);
    if f.Some? {
      HitRowKeepsCdr3(f.value, line);
    }
  }

  lemma FieldsKeepCdr3(st: ScanState, line: string)
    ensures ScanFields(st, line).Some? ==> ScanFields(st, line).value.cdr3 == st.cdr3
  {
  }

  lemma HitRowKeepsCdr3(st: ScanState, line: string)
    ensures HitRow(st, line).cdr3 == st.cdr3
  {
  }

  /** Only a line that starts with `CDR3` sets the CDR3 fields in the total
      and CDR3 checks, and the `CDR3-IMGT` row never reaches them. */
  lemma TotalAndCdr3Sets(st: ScanState, line: string)
    requires ScanTotalAndCdr3(st, line).Some? && ScanTotalAndCdr3(st, line).value.cdr3 != st.cdr3
    ensures StartsWith(line, "CDR3")
  {
  }

  /** Only a line that starts with `CDR3`, and not with `CDR3-IMGT`, changes
      the CDR3 fields. */
  lemma ScanCdr3OnlyFromCdr3Line(st: ScanState, line: string)
    requires ScanLine(st, line).Some? && ScanLine(st, line).value.cdr3 != st.cdr3
    ensures StartsWith(line, "CDR3") && !StartsWith(line, "CDR3-IMGT")
  {
    var s1 := ScanIds(st, line).value;
    EarlyChecksKeepCdr3(st, line);
    var h := ScanHeaders(s1, line);
    EarlyChecksKeepCdr3(s1, line);
    assert h.Go?;
    var a := ScanAlignment(h.st, line);
    EarlyChecksKeepCdr3(h.st, line);
    assert a.Go?;
    var t := ScanTotalAndCdr3(a.st, line);
    assert ScanLine(st, line) == ScanHits(t.value, line);
    EarlyChecksKeepCdr3(t.value, line);
    TotalAndCdr3Sets(a.st, line);
    assert !StartsWith(line, "CDR3-IMGT");
  }

  /** The three kinds of plain `Total` line: one that mentions `CDR3` sets the
      identifiable-CDR3 count to its token 4 (and raises without one), one
      with exactly eight tokens sets the `total` row to tokens 1 to 7, and
      any other changes nothing. */
  lemma ScanTotal(st: ScanState, line: string)
    requires StartsWith(line, "Total") && PlainLine(line) && NoPendingHeader(st)
    ensures var k := Tokens(line);
      ScanLine(st, line) ==
        if Contains(line, "CDR3") then
          (if |k| > 4 then Some(st.(totalIdentifiableCdr3 := Some(k[4]))) else None)
        else if |k| == 8 then Some(st.(alignmentSummaries := Put(st.alignmentSummaries, "total", k[1..8])))
        else Some(st)
  {
    PlainIds(st, line);
    PlainHeaders(st, line);
    assert line[0] == "Total"[0];
    PlainAlignment(st, line);
    TotalChecks(st, line);
    var t := ScanTotalAndCdr3(st, line);
    if t.Some? {
      PlainHits(t.value, line);
    }
  }

  /** The total and CDR3 checks on a `Total` line. */
  lemma TotalChecks(st: ScanState, line: string)
    requires StartsWith(line, "Total")
    ensures var k := Tokens(line);
      ScanTotalAndCdr3(st, line) ==
        if Contains(line, "CDR3") then
          (if |k| > 4 then Some(st.(totalIdentifiableCdr3 := Some(k[4]))) else None)
        else if |k| == 8 then Some(st.(alignmentSummaries := Put(st.alignmentSummaries, "total", k[1..8])))
        else Some(st)
  {
    assert line[0] == "Total"[0];
    NotStartsWith(line, "CDR3", 0);
    var k := Tokens(line);
    if |k| == 8 {
      assert k[1..] == k[1..8];
    }
  }

  /** The hit checks leave a plain line alone that is no hit row. */
  lemma PlainHits(st: ScanState, line: string)
    requires PlainLine(line) && line != [] && line[0] !in "VDJ"
    ensures ScanHits(st, line) == Some(st)
  {
    NotStartsWith(line, "V", 0);
    NotStartsWith(line, "D", 0);
    NotStartsWith(line, "J", 0);
    assert ScanFields(st, line) == Some(st);
    assert HitRow(st, line) == st;
  }

  /** A plain line that starts with `V`, `D` or `J` is appended to the matching
      hit list once the `# Fields:` line has been seen, and ignored before. */
  lemma ScanHitRow(st: ScanState, line: string)
    requires line != [] && line[0] in "VDJ" && PlainLine(line) && NoPendingHeader(st)
    ensures ScanLine(st, line) ==
      if !st.fieldsSeen then Some(st)
      else if line[0] == 'V' then Some(st.(hitsV := st.hitsV + [line]))
      else if line[0] == 'D' then Some(st.(hitsD := st.hitsD + [line]))
      else Some(st.(hitsJ := st.hitsJ + [line]))
  {
    PlainIds(st, line);
    PlainHeaders(st, line);
    PlainAlignment(st, line);
    NotStartsWith(line, "Total", 0);
    NotStartsWith(line, "CDR3", 0);
    assert ScanTotalAndCdr3(st, line) == Some(st);
    assert StartsWith(line, [line[0]]);
    if line[0] != 'V' { NotStartsWith(line, "V", 0); }
    if line[0] != 'D' { NotStartsWith(line, "D", 0); }
  }

  /** Once a line has raised, the constructor has raised. */
  lemma {:induction false} ScanAllRaised(lines: seq<string>, n: nat)
    requires n <= |lines| && ScanAll(lines[..n]) == None
    ensures ScanAll(lines) == None
    decreases |lines| - n
  {
    if n < |lines| {
      assert lines[..n + 1][..n] == lines[..n];
      ScanAllRaised(lines, n + 1);
    } else {
      assert lines[..n] == lines;
    }
  }

  // ===========================================================================
  // process(): the dictionaries built from what the scanner collected
  // ===========================================================================

  function Min(a: nat, b: nat): nat {
    if a <= b then a else b
  }

  function StripAll(ts: seq<string>): (r: seq<string>)
    ensures |r| == |ts| && forall i :: 0 <= i < |ts| ==> r[i] == Strip(ts[i])
  {
    if ts == [] then [] else StripAll(ts[..|ts| - 1]) + [Strip(ts[|ts| - 1])]
  }

  function FieldsOf(vs: seq<string>): (r: seq<Field>)
    ensures |r| == |vs|
  {
    if vs == [] then [] else FieldsOf(vs[..|vs| - 1]) + [FieldOf(vs[|vs| - 1])]
  }

  lemma {:induction false} FieldsOfAt(vs: seq<string>, i: nat)
    requires i < |vs|
    ensures FieldsOf(vs)[i] == FieldOf(vs[i])
  {
    if i < |vs| - 1 {
      FieldsOfAt(vs[..|vs| - 1], i);
    }
  }

  function TypedAll(vs: seq<string>): (r: seq<Value>)
    ensures |r| == |vs|
  {
    if vs == [] then [] else TypedAll(vs[..|vs| - 1]) + [ParseTyped(vs[|vs| - 1])]
  }

  lemma {:induction false} TypedAllAt(vs: seq<string>, i: nat)
    requires i < |vs|
    ensures TypedAll(vs)[i] == ParseTyped(vs[i])
  {
    if i < |vs| - 1 {
      TypedAllAt(vs[..|vs| - 1], i);
    }
  }

  function FloatOrStrAll(vs: seq<string>): (r: seq<Value>)
    ensures |r| == |vs|
  {
    if vs == [] then [] else FloatOrStrAll(vs[..|vs| - 1]) + [ParseFloatOrStr(vs[|vs| - 1])]
  }

  lemma {:induction false} FloatOrStrAllAt(vs: seq<string>, i: nat)
    requires i < |vs|
    ensures FloatOrStrAll(vs)[i] == ParseFloatOrStr(vs[i])
  {
    if i < |vs| - 1 {
      FloatOrStrAllAt(vs[..|vs| - 1], i);
    }
  }

  // ---------------------------------------------------------------------------
  // parse_rearranment
  // ---------------------------------------------------------------------------

  /** The rearrangement summary: each stripped title with its cell, a cell
      with commas as the tuple of its parts. */
  function Rearrangement(titles: seq<string>, values: seq<string>): Dict<string, Field> {
    ZipDict(StripAll(titles), FieldsOf(values), Min(|titles|, |values|))
  }

  /** A title that is not repeated later holds its own cell: a comma-free
      cell as text, any other as the tuple of its comma-separated parts; a
      name that no title strips to is absent. */
  lemma RearrangementEntry(titles: seq<string>, values: seq<string>, k: nat)
    requires k < Min(|titles|, |values|)
    requires forall j :: k < j < Min(|titles|, |values|) ==> Strip(titles[j]) != Strip(titles[k])
    ensures Get(Rearrangement(titles, values), Strip(titles[k])) == Some(FieldOf(values[k]))
    ensures ',' !in values[k] ==> FieldOf(values[k]) == Text(values[k])
    ensures ',' in values[k] ==>
      FieldOf(values[k]) == Tuple(SplitOn(values[k], ',')) && Join(SplitOn(values[k], ','), ',') == values[k]
  {
    ZipDictGetLast(StripAll(titles), FieldsOf(values), Min(|titles|, |values|), k);
    FieldsOfAt(values, k);
    FieldOfSplit(values[k]);
  }

  lemma RearrangementMissing(titles: seq<string>, values: seq<string>, name: string)
    requires forall j :: 0 <= j < Min(|titles|, |values|) ==> Strip(titles[j]) != name
    ensures Get(Rearrangement(titles, values), name) == None
  {
    ZipDictAbsent(StripAll(titles), FieldsOf(values), Min(|titles|, |values|), name);
  }

  // ---------------------------------------------------------------------------
  // parse_junction
  // ---------------------------------------------------------------------------

  /** `value.split("(")[1].split(")")[0]`. */
  function Inner(value: string): string
    requires '(' in value
  {
    SplitOn(SplitOn(value, '(')[1], ')')[0]
  }

  /** The key of a junction cell. */
  function JunctionKey(title: string, value: string): string {
    if '(' in value then "d-or-j_junction" else Replace(Lower(Strip(title)), " ", "_")
  }

  /** The text stored for a junction cell. */
  function JunctionValue(value: string): string {
    if '(' in value then Inner(value) else value
  }

  /** What a junction cell adds to `junction_together`. */
  function Contribution(value: string): string {
    if '(' in value then Inner(value) else if value != "N/A" then value else ""
  }

  function JunctionKeys(titles: seq<string>, values: seq<string>): (r: seq<string>)
    ensures |r| == Min(|titles|, |values|)
    ensures forall i :: 0 <= i < |r| ==> r[i] == JunctionKey(titles[i], values[i])
  {
    seq(Min(|titles|, |values|), i requires 0 <= i < Min(|titles|, |values|) => JunctionKey(titles[i], values[i]))
  }

  function JunctionValues(values: seq<string>): (r: seq<string>)
    ensures |r| == |values|
  {
    if values == [] then [] else JunctionValues(values[..|values| - 1]) + [JunctionValue(values[|values| - 1])]
  }

  lemma {:induction false} JunctionValuesAt(values: seq<string>, i: nat)
    requires i < |values|
    ensures JunctionValues(values)[i] == JunctionValue(values[i])
  {
    if i < |values| - 1 {
      JunctionValuesAt(values[..|values| - 1], i);
    }
  }

  /** The junction details dictionary. */
  function JunctionDetails(titles: seq<string>, values: seq<string>): Dict<string, string> {
    ZipDict(JunctionKeys(titles, values), JunctionValues(values), Min(|titles|, |values|))
  }

  /** `junction_together` after the first `n` cells. */
  function Together(values: seq<string>, n: nat): string
    requires n <= |values|
  {
    if n == 0 then "" else Together(values, n - 1) + Contribution(values[n - 1])
  }

  function JunctionTogether(titles: seq<string>, values: seq<string>): string {
    Together(values, Min(|titles|, |values|))
  }

  /** The stored text of a parenthesised cell is what follows its first `(`,
      up to the next parenthesis of either kind. */
  lemma InnerText(value: string)
    requires '(' in value
    ensures var i := IndexOf(value, '('); var t := Inner(value);
      t <= value[i + 1..] && '(' !in t && ')' !in t &&
      (i + 1 + |t| == |value| || value[i + 1 + |t|] in "()")
  {
    var i := IndexOf(value, '(');
    var w := value[i + 1..];
    SplitOnFirst(value, '(');
    var p := SplitOn(w, '(')[0];
    assert p == SplitOn(value, '(')[1];
    FirstPiece(w, '(');
    FirstPiece(p, ')');
    var t := SplitOn(p, ')')[0];
    assert t == Inner(value);
    assert t <= p && p <= w;
  }

  /** The first piece of a split is a prefix that ends at the separator or at
      the end of the text. */
  lemma FirstPiece(s: string, c: char)
    ensures var p := SplitOn(s, c)[0];
      p <= s && c !in p && (|p| == |s| || s[|p|] == c)
  {
    SplitOnFirst(s, c);
  }

  /** A parenthesised cell is stored under `d-or-j_junction` as its inner
      text (unless a later cell takes that key), and that text is added to
      `junction_together`. */
  lemma JunctionParenthesised(titles: seq<string>, values: seq<string>, k: nat)
    requires k < Min(|titles|, |values|) && '(' in values[k]
    requires forall j :: k < j < Min(|titles|, |values|) ==> JunctionKey(titles[j], values[j]) != "d-or-j_junction"
    ensures Get(JunctionDetails(titles, values), "d-or-j_junction") == Some(Inner(values[k]))
    ensures Together(values, k) + Inner(values[k]) <= JunctionTogether(titles, values)
  {
    ZipDictGetLast(JunctionKeys(titles, values), JunctionValues(values), Min(|titles|, |values|), k);
    JunctionValuesAt(values, k);
    TogetherPrefix(values, k + 1, Min(|titles|, |values|));
  }

  /** Any other cell is stored under its lower-cased title with spaces turned
      into `_` (unless a later cell takes that key); it is added to
      `junction_together` unless it is `N/A`. */
  lemma JunctionPlain(titles: seq<string>, values: seq<string>, k: nat)
    requires k < Min(|titles|, |values|) && '(' !in values[k]
    requires forall j :: k < j < Min(|titles|, |values|) ==> JunctionKey(titles[j], values[j]) != JunctionKey(titles[k], values[k])
    ensures Get(JunctionDetails(titles, values), Replace(Lower(Strip(titles[k])), " ", "_")) == Some(values[k])
    ensures ' ' !in JunctionKey(titles[k], values[k])
    ensures values[k] != "N/A" ==> Together(values, k) + values[k] <= JunctionTogether(titles, values)
    ensures values[k] == "N/A" ==> Together(values, k + 1) == Together(values, k)
  {
    ZipDictGetLast(JunctionKeys(titles, values), JunctionValues(values), Min(|titles|, |values|), k);
    JunctionValuesAt(values, k);
    ReplaceCharRemoves(Lower(Strip(titles[k])), ' ', "_");
    TogetherPlain(values, k, Min(|titles|, |values|));
  }

  lemma TogetherPlain(values: seq<string>, k: nat, n: nat)
    requires k < n <= |values| && '(' !in values[k]
    ensures values[k] != "N/A" ==> Together(values, k) + values[k] <= Together(values, n)
    ensures values[k] == "N/A" ==> Together(values, k + 1) == Together(values, k)
  {
    TogetherPrefix(values, k + 1, n);
  }

  lemma {:induction false} TogetherPrefix(values: seq<string>, k: nat, n: nat)
    requires k <= n <= |values|
    ensures Together(values, k) <= Together(values, n)
    decreases n - k
  {
    if k < n {
      TogetherPrefix(values, k, n - 1);
    }
  }

  /** A junction made of `N/A` cells only adds nothing. */
  lemma {:induction false} TogetherOfNA(values: seq<string>, n: nat)
    requires n <= |values| && forall j :: 0 <= j < n ==> values[j] == "N/A"
    ensures Together(values, n) == ""
  {
    if n > 0 {
      TogetherOfNA(values, n - 1);
      assert '(' !in values[n - 1];
    }
  }

  // ---------------------------------------------------------------------------
  // parse_alignment_summaries
  // ---------------------------------------------------------------------------

  /** One alignment-summary row: stripped titles against `int`, else
      `float`, else text cells, as far as the shorter of the two goes. */
  function RegionDict(titles: seq<string>, values: seq<string>): Dict<string, Value> {
    ZipDict(StripAll(titles), TypedAll(values), Min(|titles|, |values|))
  }

  /** The conversion of one row against the titles. */
  function RegionFn(titles: seq<string>): seq<string> -> Dict<string, Value> {
    (values: seq<string>) => RegionDict(titles, values)
  }

  /** Every row of the scanner, in the order the rows were first seen. */
  function RegionDicts(titles: seq<string>, rows: Dict<string, seq<string>>): Dict<string, Dict<string, Value>> {
    MapValues(rows, RegionFn(titles), |rows|)
  }

  /** A title not repeated later holds its own cell, converted to `int`,
      else `float`, else kept as text. */
  lemma RegionEntry(titles: seq<string>, values: seq<string>, k: nat)
    requires k < Min(|titles|, |values|)
    requires forall j :: k < j < Min(|titles|, |values|) ==> Strip(titles[j]) != Strip(titles[k])
    ensures Get(RegionDict(titles, values), Strip(titles[k])) == Some(ParseTyped(values[k]))
  {
    var ks := StripAll(titles);
    var vs := TypedAll(values);
    ZipDictGetLast(ks, vs, Min(|titles|, |values|), k);
    TypedAllAt(values, k);
  }

  /** With distinct stripped titles a row has one cell per title, up to the
      shorter of titles and cells, in title order. */
  lemma RegionKeys(titles: seq<string>, values: seq<string>)
    requires forall i, j :: 0 <= i < j < Min(|titles|, |values|) ==> Strip(titles[i]) != Strip(titles[j])
    ensures Keys(RegionDict(titles, values)) == StripAll(titles)[..Min(|titles|, |values|)]
  {
    var ks := StripAll(titles);
    var vs := TypedAll(values);
    ZipDictKeys(ks, vs, Min(|titles|, |values|));
  }

  /** Each region of the scanner becomes its converted row, under the same
      name and in the same order. */
  lemma RegionDictsRows(titles: seq<string>, rows: Dict<string, seq<string>>)
    requires Unique(rows)
    ensures |RegionDicts(titles, rows)| == |rows|
    ensures forall i :: 0 <= i < |rows| ==>
      RegionDicts(titles, rows)[i] == (rows[i].0, RegionDict(titles, rows[i].1))
  {
    MapValuesEntries(rows, RegionFn(titles), |rows|);
  }

  /** `int(d["cdr3"]["from"]) != int(cdr3_start)`; `None` is the exception of a
      missing or non-integer `from`, or of a missing or non-integer start. */
  function FromDiffers(row: Dict<string, Value>, cdr3: Option<Cdr3Line>): Option<bool> {
    match Get(row, "from")
    case None => None
    case Some(f) =>
      match IntOf(f)
      case None => None
      case Some(a) =>
        if cdr3.None? then None
        else
          match ParseInt(cdr3.value.start)
          case None => None
          case Some(b) => Some(a != b)
  }

  /** The CDR3 cross-check. Unless the report counted no identifiable CDR3,
      the `cdr3` row is reset when it is missing or starts elsewhere than the
      CDR3 line, and then takes its bounds from the CDR3 line.  `None` is the
      exception raised when the count, the CDR3 line or a number is missing. */
  function Cdr3Check(d: Dict<string, Dict<string, Value>>, total: Option<string>, cdr3: Option<Cdr3Line>): Option<Dict<string, Dict<string, Value>>> {
    match total
    case None => None
    case Some(t) =>
      if t == "0" then Some(d)
      else
        var reset := match Get(d, "cdr3") case None => Some(true) case Some(row) => FromDiffers(row, cdr3);
        match reset
        case None => None
        case Some(b) =>
          match cdr3
          case None => None
          case Some(c) =>
            var base := if b then [] else Get(d, "cdr3").value;
            Some(Put(d, "cdr3", Put(Put(base, "to", StrV(c.end)), "from", StrV(c.start))))
  }

  /** After the cross-check the `cdr3` row runs from the CDR3 line's start to
      its end, keeps its other cells only when its `from` agreed with that
      start, and every other region is untouched. */
  lemma Cdr3CheckResult(d: Dict<string, Dict<string, Value>>, t: string, c: Cdr3Line, region: string, cell: string)
    requires t != "0"
    requires Cdr3Check(d, Some(t), Some(c)).Some?
    ensures var r := Cdr3Check(d, Some(t), Some(c)).value;
      Get(r, "cdr3").Some? &&
      Get(Get(r, "cdr3").value, "from") == Some(StrV(c.start)) &&
      Get(Get(r, "cdr3").value, "to") == Some(StrV(c.end)) &&
      (region != "cdr3" ==> Get(r, region) == Get(d, region)) &&
      (cell != "from" && cell != "to" ==>
        Get(Get(r, "cdr3").value, cell) ==
          if Get(d, "cdr3").Some? && FromDiffers(Get(d, "cdr3").value, Some(c)) == Some(false)
          then Get(Get(d, "cdr3").value, cell) else None)
  {
    var reset := match Get(d, "cdr3") case None => Some(true) case Some(row) => FromDiffers(row, Some(c));
    var base: Dict<string, Value> := if reset.value then [] else Get(d, "cdr3").value;
    var row := Put(Put(base, "to", StrV(c.end)), "from", StrV(c.start));
    GetPutSame(d, "cdr3", row);
    GetPutSame(Put(base, "to", StrV(c.end)), "from", StrV(c.start));
    GetPutOther(Put(base, "to", StrV(c.end)), "from", StrV(c.start), "to");
    GetPutSame(base, "to", StrV(c.end));
    if region != "cdr3" {
      GetPutOther(d, "cdr3", row, region);
    }
    if cell != "from" && cell != "to" {
      GetPutOther(Put(base, "to", StrV(c.end)), "from", StrV(c.start), cell);
      GetPutOther(base, "to", StrV(c.end), cell);
    }
  }

  /** A count of `0` leaves the rows as they are; a missing count raises. */
  lemma Cdr3CheckSkipped(d: Dict<string, Dict<string, Value>>, cdr3: Option<Cdr3Line>)
    ensures Cdr3Check(d, Some("0"), cdr3) == Some(d)
    ensures Cdr3Check(d, None, cdr3) == None
  {
  }

  // ---------------------------------------------------------------------------
  // parse_v_hits, parse_d_hits, parse_j_hits
  // ---------------------------------------------------------------------------

  /** A hit field name as stored: stripped, spaces turned into `_`, dots removed. */
  function HitKey(title: string): (k: string)
    ensures ' ' !in k && '.' !in k
  {
    var a := Replace(Strip(title), " ", "_");
    ReplaceCharRemoves(Strip(title), ' ', "_");
    ReplaceCharRemoves(a, '.', "");
    ReplaceNoNewChar(a, ".", "", ' ');
    Replace(a, ".", "")
  }

  function HitKeys(fields: seq<string>): (r: seq<string>)
    ensures |r| == |fields|
  {
    if fields == [] then [] else HitKeys(fields[..|fields| - 1]) + [HitKey(fields[|fields| - 1])]
  }

  lemma {:induction false} HitKeysAt(fields: seq<string>, i: nat)
    requires i < |fields|
    ensures HitKeys(fields)[i] == HitKey(fields[i])
  {
    if i < |fields| - 1 {
      HitKeysAt(fields[..|fields| - 1], i);
    }
  }

  /** One hit row: its whitespace tokens after the first against the field
      names, `float` where that parses and text otherwise. */
  function HitOf(entry: string, fields: seq<string>): Dict<string, Value> {
    var cells := Drop(SplitWs(entry), 1);
    ZipDict(HitKeys(fields), FloatOrStrAll(cells), Min(|fields|, |cells|))
  }

  /** `'rank_' + str(n)`. */
  function RankKey(n: nat): string {
    "rank_" + NatToString(n)
  }

  /** `rank_1`, `rank_2`, … for the first `n` rows. */
  function RankKeys(n: nat): (r: seq<string>)
    ensures |r| == n && forall i :: 0 <= i < n ==> r[i] == RankKey(i + 1)
  {
    seq(n, i requires 0 <= i < n => RankKey(i + 1))
  }

  function HitRows(entries: seq<string>, fields: seq<string>): (r: seq<Dict<string, Value>>)
    ensures |r| == |entries|
  {
    if entries == [] then [] else HitRows(entries[..|entries| - 1], fields) + [HitOf(entries[|entries| - 1], fields)]
  }

  lemma {:induction false} HitRowsAt(entries: seq<string>, fields: seq<string>, i: nat)
    requires i < |entries|
    ensures HitRows(entries, fields)[i] == HitOf(entries[i], fields)
  {
    if i < |entries| - 1 {
      HitRowsAt(entries[..|entries| - 1], fields, i);
    }
  }

  /** The table of one segment's rows after the first `n`, the `i`-th
      (from 1) under `rank_i`. */
  function HitsOf(entries: seq<string>, fields: seq<string>, n: nat): Dict<string, Dict<string, Value>>
    requires n <= |entries|
  {
    ZipDict(RankKeys(|entries|), HitRows(entries, fields), n)
  }

  function Hits(entries: seq<string>, fields: seq<string>): Dict<string, Dict<string, Value>> {
    HitsOf(entries, fields, |entries|)
  }

  lemma RankKeyInjective(a: nat, b: nat)
    requires RankKey(a) == RankKey(b)
    ensures a == b
  {
    assert RankKey(a)[5..] == NatToString(a);
    assert RankKey(b)[5..] == NatToString(b);
    NatToStringInjective(a, b);
  }

  /** The rank keys of different rows differ. */
  lemma RankKeysDistinct(n: nat)
    ensures forall i, j :: 0 <= i < j < n ==> RankKeys(n)[i] != RankKeys(n)[j]
  {
    forall i, j | 0 <= i < j < n ensures RankKeys(n)[i] != RankKeys(n)[j] {
      if RankKeys(n)[i] == RankKeys(n)[j] {
        RankKeyInjective(i + 1, j + 1);
      }
    }
  }

  /** Rows are keyed `rank_1`, `rank_2`, … in input order. */
  lemma HitsRanked(entries: seq<string>, fields: seq<string>)
    ensures |Hits(entries, fields)| == |entries|
    ensures forall i :: 0 <= i < |entries| ==> Hits(entries, fields)[i] == (RankKey(i + 1), HitOf(entries[i], fields))
  {
    var ks := RankKeys(|entries|);
    var vs := HitRows(entries, fields);
    RankKeysDistinct(|entries|);
    ZipDictDistinct(ks, vs, |entries|);
    forall i | 0 <= i < |entries| ensures vs[i] == HitOf(entries[i], fields) {
      HitRowsAt(entries, fields, i);
    }
  }

  /** The `k`-th row (from 1) is found under `rank_k`. */
  lemma HitsGetRank(entries: seq<string>, fields: seq<string>, k: nat)
    requires 1 <= k <= |entries|
    ensures Get(Hits(entries, fields), RankKey(k)) == Some(HitOf(entries[k - 1], fields))
  {
    var ks := RankKeys(|entries|);
    var vs := HitRows(entries, fields);
    RankKeysDistinct(|entries|);
    ZipDictGetLast(ks, vs, |entries|, k - 1);
    HitRowsAt(entries, fields, k - 1);
  }

  /** A field name not repeated later holds the row's matching token, as a
      `float` where it parses. */
  lemma HitCell(entry: string, fields: seq<string>, k: nat)
    requires k + 1 < |SplitWs(entry)| && k < |fields|
    requires forall j :: k < j < |fields| ==> HitKey(fields[j]) != HitKey(fields[k])
    ensures Get(HitOf(entry, fields), HitKey(fields[k])) == Some(ParseFloatOrStr(SplitWs(entry)[k + 1]))
  {
    var cells := Drop(SplitWs(entry), 1);
    var ks := HitKeys(fields);
    forall j | k < j < Min(|fields|, |cells|) ensures ks[j] != ks[k] {
      HitKeysAt(fields, j);
      HitKeysAt(fields, k);
    }
    ZipDictGetLast(ks, FloatOrStrAll(cells), Min(|fields|, |cells|), k);
    HitKeysAt(fields, k);
    FloatOrStrAllAt(cells, k);
  }

  // ===========================================================================
  // The parsed report, and return_dict()
  // ===========================================================================

  /** What `process()` stores for the query. */
  datatype Parsed = Parsed(
    query: string,
    domainClassification: string,
    rearrangement: Dict<string, Field>,
    junction: Dict<string, string>,
    alignmentSummaries: Dict<string, Dict<string, Value>>,
    vHits: Dict<string, Dict<string, Value>>,
    dHits: Dict<string, Dict<string, Value>>,
    jHits: Dict<string, Dict<string, Value>>)

  /** `process()` on the collected lines; `None` is the exception the CDR3
      cross-check raises. */
  function ProcessState(st: ScanState): Option<Parsed> {
    match Cdr3Check(RegionDicts(st.alignmentTitles, st.alignmentSummaries), st.totalIdentifiableCdr3, st.cdr3)
    case None => None
    case Some(a) =>
      Some(Parsed(st.query, st.domainClassification,
        Rearrangement(st.rearrangementTitles, st.rearrangementSummary),
        JunctionDetails(st.junctionTitles, st.junctionDetail),
        a, Hits(st.hitsV, st.hitFields), Hits(st.hitsD, st.hitFields), Hits(st.hitsJ, st.hitFields)))
  }

  /** One germline or junction entry of `gene_alignments`; a key the source
      never set is `None`. */
  datatype Segment = Segment(start: Option<Value>, end: Option<Value>, text: Option<Value>)

  /** `[{rank: hits[rank]} for rank in sorted(hits)]`. */
  type HitArray = seq<(string, Dict<string, Value>)>

  function RankLe(a: (string, Dict<string, Value>), b: (string, Dict<string, Value>)): bool {
    LexLe(a.0, b.0)
  }

  function HitArrayOf(hits: Dict<string, Dict<string, Value>>): HitArray {
    Sort(hits, RankLe)
  }

  /** `array[0]['rank_1']`; `None` is the `IndexError` of an empty array or
      the `KeyError` of a first entry that is not `rank_1`. */
  function FirstRank(arr: HitArray): Option<Dict<string, Value>> {
    if arr != [] && arr[0].0 == "rank_1" then Some(arr[0].1) else None
  }

  /** `rank_1` sorts before every other rank key, and strictly so. */
  lemma RankOneLeast(n: nat)
    requires n >= 2
    ensures LexLe(RankKey(1), RankKey(n)) && !LexLe(RankKey(n), RankKey(1))
  {
    assert RankKey(1) == "rank_" + "1";
    OneSortsFirst(n);
    LexLeCommonPrefix("rank_", "1", NatToString(n));
    LexLeCommonPrefix("rank_", NatToString(n), "1");
  }

  /** In a table keyed `rank_1`, `rank_2`, … the first entry sorts strictly
      before every other. */
  lemma RankedHeadLeast(d: HitArray)
    requires d != [] && forall i :: 0 <= i < |d| ==> d[i].0 == RankKey(i + 1)
    ensures forall e :: e in d && e != d[0] ==> RankLe(d[0], e) && !RankLe(e, d[0])
  {
    forall e | e in d && e != d[0] ensures RankLe(d[0], e) && !RankLe(e, d[0]) {
      var i :| 0 <= i < |d| && d[i] == e;
      RankOneLeast(i + 1);
    }
  }

  /** Sorting the rank keys as text (`rank_10` before `rank_2`) still puts
      the first row first, so `array[0]['rank_1']` is the first hit row, and
      fails only when there is none. */
  lemma FirstRankIsFirstRow(entries: seq<string>, fields: seq<string>)
    ensures FirstRank(HitArrayOf(Hits(entries, fields))) ==
      if entries == [] then None else Some(HitOf(entries[0], fields))
  {
    HitsRanked(entries, fields);
    FirstRankOfRanked(Hits(entries, fields));
  }

  lemma FirstRankOfRanked(d: HitArray)
    requires forall i :: 0 <= i < |d| ==> d[i].0 == RankKey(i + 1)
    ensures FirstRank(HitArrayOf(d)) == if d == [] then None else Some(d[0].1)
  {
    if d != [] {
      assert RankKey(1) == "rank_1";
      RankedHeadLeast(d);
      SortHeadIsLeast(d, RankLe, d[0]);
    }
  }

  /** The `{start, end, seq}` of a segment's `rank_1` hit; `None` when the hit
      or one of its three cells is missing (the entry is then deleted). */
  function HitSegment(hits: Dict<string, Dict<string, Value>>): Option<Segment> {
    match Get(hits, "rank_1")
    case None => None
    case Some(h) =>
      var a := Get(h, "q_start");
      var b := Get(h, "q_end");
      var c := Get(h, "subject_seq");
      if a.Some? && b.Some? && c.Some? then Some(Segment(a, b, c)) else None
  }

  function AddSegment(g: Dict<string, Segment>, key: string, s: Option<Segment>): Dict<string, Segment> {
    if s.Some? then Put(g, key, s.value) else g
  }

  /** `gene_alignments['v']['end'] + n`; `None` is the exception of a missing
      V entry or of a text coordinate. */
  function FromVEnd(v: Option<Segment>, n: int): Option<Value> {
    if v.Some? && v.value.end.Some? then AddInt(v.value.end.value, n) else None
  }

  /** A junction entry whose `seq` is written before its coordinates, placed
      `c` positions after the end of V: when the coordinates fail only `seq`
      is left behind. */
  function SeqFirstJunction(v: Option<Segment>, c: int, text: string): Segment {
    var start := FromVEnd(v, 1 + c);
    Segment(start, if start.None? then None else FromVEnd(v, c + |text|), Some(StrV(text)))
  }

  /** The V-J junction entry, whose coordinates are written before its `seq`:
      when they fail the entry is left empty. */
  function CoordsFirstJunction(v: Option<Segment>, text: string): Segment {
    var start := FromVEnd(v, 1);
    if start.None? then Segment(None, None, None) else Segment(start, FromVEnd(v, |text|), Some(StrV(text)))
  }

  /** A junction text that is present and not `N/A`. */
  function Present(junction: Dict<string, string>, key: string): Option<string> {
    match Get(junction, key)
    case Some(t) => if t != "N/A" then Some(t) else None
    case None => None
  }

  /** The running counter: the V-D junction (when its coordinates could be
      computed) and the D segment's text, both by length. */
  function JunctionCounter(v: Option<Segment>, d: Option<Segment>, junction: Dict<string, string>): nat {
    var vd := Present(junction, "v-d_junction");
    var c1 := if vd.Some? && FromVEnd(v, 1).Some? then |vd.value| else 0;
    c1 + if d.Some? && d.value.text.Some? then LenOf(d.value.text.value).GetOr(0) else 0
  }

  /** The J, D and V entries of `gene_alignments`, in that order. */
  function HitEntries(v: Option<Segment>, d: Option<Segment>, j: Option<Segment>): Dict<string, Segment> {
    AddSegment(AddSegment(AddSegment([], "j", j), "d", d), "v", v)
  }

  /** The V-D, D-J and V-J junction entries that are present, added to `g`. */
  function WithJunctions(g: Dict<string, Segment>, v: Option<Segment>, d: Option<Segment>, junction: Dict<string, string>): Dict<string, Segment> {
    var vd := Present(junction, "v-d_junction");
    var g1 := if vd.Some? then Put(g, "v_d_junction", SeqFirstJunction(v, 0, vd.value)) else g;
    var dj := Present(junction, "d-j_junction");
    var g2 := if dj.Some? then Put(g1, "d_j_junction", SeqFirstJunction(v, JunctionCounter(v, d, junction), dj.value)) else g1;
    var vj := Present(junction, "v-j_junction");
    if vj.Some? then Put(g2, "v_j_junction", CoordsFirstJunction(v, vj.value)) else g2
  }

  /** `gene_alignments`: the J, D and V hits, then the junctions. */
  function GeneAlignments(v: Option<Segment>, d: Option<Segment>, j: Option<Segment>, junction: Dict<string, string>): Dict<string, Segment> {
    WithJunctions(HitEntries(v, d, j), v, d, junction)
  }

  lemma NumOfAddInt(x: Value, n: int)
    requires NumOf(x).Some?
    ensures AddInt(x, n).Some? && NumOf(AddInt(x, n).value) == Some(NumOf(x).value + n as real)
  {
  }

  /** With a numeric V end `e`, a junction placed `c` after V spans
      `e + 1 + c` to `e + c + len`: its length is `end - start + 1`. */
  lemma JunctionSpan(v: Option<Segment>, c: int, text: string, e: real)
    requires v.Some? && v.value.end.Some? && NumOf(v.value.end.value) == Some(e)
    ensures var s := SeqFirstJunction(v, c, text);
      s.start.Some? && s.end.Some? && s.text == Some(StrV(text)) &&
      NumOf(s.start.value) == Some(e + 1.0 + c as real) &&
      NumOf(s.end.value) == Some(e + c as real + |text| as real) &&
      NumOf(s.end.value).value - NumOf(s.start.value).value + 1.0 == |text| as real
    ensures var s := CoordsFirstJunction(v, text);
      s.start.Some? && s.end.Some? && s.text == Some(StrV(text)) &&
      NumOf(s.start.value) == Some(e + 1.0) &&
      NumOf(s.end.value).value - NumOf(s.start.value).value + 1.0 == |text| as real
  {
    NumOfAddInt(v.value.end.value, 1 + c);
    NumOfAddInt(v.value.end.value, c + |text|);
    NumOfAddInt(v.value.end.value, 1);
    NumOfAddInt(v.value.end.value, |text|);
  }

  /** Without a V entry the junction entries stay partial: the V-D and D-J
      ones hold only their text, the V-J one nothing. */
  lemma JunctionWithoutV(c: int, text: string)
    ensures SeqFirstJunction(None, c, text) == Segment(None, None, Some(StrV(text)))
    ensures CoordsFirstJunction(None, text) == Segment(None, None, None)
  {
  }

  /** Where the three junction entries of `gene_alignments` come from: the
      V-D and V-J ones start right after V, the D-J one after V, the V-D
      junction and the D segment. */
  lemma GeneAlignmentsJunctions(v: Option<Segment>, d: Option<Segment>, j: Option<Segment>, junction: Dict<string, string>)
    ensures var g := GeneAlignments(v, d, j, junction);
      var vd := Present(junction, "v-d_junction");
      var dj := Present(junction, "d-j_junction");
      var vj := Present(junction, "v-j_junction");
      Get(g, "v_d_junction") == (if vd.Some? then Some(SeqFirstJunction(v, 0, vd.value)) else None) &&
      Get(g, "d_j_junction") == (if dj.Some? then Some(SeqFirstJunction(v, JunctionCounter(v, d, junction), dj.value)) else None) &&
      Get(g, "v_j_junction") == (if vj.Some? then Some(CoordsFirstJunction(v, vj.value)) else None)
  {
    var g := HitEntries(v, d, j);
    GeneKeysOnly(v, d, j);
    var vd := Present(junction, "v-d_junction");
    var g1 := if vd.Some? then Put(g, "v_d_junction", SeqFirstJunction(v, 0, vd.value)) else g;
    if vd.Some? {
      GetPutSame(g, "v_d_junction", SeqFirstJunction(v, 0, vd.value));
      GetPutOther(g, "v_d_junction", SeqFirstJunction(v, 0, vd.value), "d_j_junction");
      GetPutOther(g, "v_d_junction", SeqFirstJunction(v, 0, vd.value), "v_j_junction");
    }
    var dj := Present(junction, "d-j_junction");
    var dseg := SeqFirstJunction(v, JunctionCounter(v, d, junction), if dj.Some? then dj.value else "");
    var g2 := if dj.Some? then Put(g1, "d_j_junction", dseg) else g1;
    if dj.Some? {
      GetPutSame(g1, "d_j_junction", dseg);
      GetPutOther(g1, "d_j_junction", dseg, "v_d_junction");
      GetPutOther(g1, "d_j_junction", dseg, "v_j_junction");
    }
    var vj := Present(junction, "v-j_junction");
    if vj.Some? {
      GetPutSame(g2, "v_j_junction", CoordsFirstJunction(v, vj.value));
      GetPutOther(g2, "v_j_junction", CoordsFirstJunction(v, vj.value), "v_d_junction");
      GetPutOther(g2, "v_j_junction", CoordsFirstJunction(v, vj.value), "d_j_junction");
    }
  }

  /** The hit entries hold their `rank_1` segments and no junction key. */
  lemma GeneKeysOnly(v: Option<Segment>, d: Option<Segment>, j: Option<Segment>)
    ensures var g := HitEntries(v, d, j);
      Get(g, "v_d_junction") == None && Get(g, "d_j_junction") == None && Get(g, "v_j_junction") == None &&
      Get(g, "v") == v && Get(g, "d") == d && Get(g, "j") == j
  {
    GeneEntries(v, d, j);
    GeneOtherKey(v, d, j, "v_d_junction");
    GeneOtherKey(v, d, j, "d_j_junction");
    GeneOtherKey(v, d, j, "v_j_junction");
  }

  lemma GeneEntries(v: Option<Segment>, d: Option<Segment>, j: Option<Segment>)
    ensures var g := HitEntries(v, d, j);
      Get(g, "v") == v && Get(g, "d") == d && Get(g, "j") == j
  {
    var g0 := AddSegment([], "j", j);
    var g1 := AddSegment(g0, "d", d);
    if j.Some? { GetPutSame([], "j", j.value); }
    if d.Some? { GetPutSame(g0, "d", d.value); GetPutOther(g0, "d", d.value, "j"); }
    if v.Some? { GetPutSame(g1, "v", v.value); GetPutOther(g1, "v", v.value, "j"); GetPutOther(g1, "v", v.value, "d"); }
  }

  lemma GeneOtherKey(v: Option<Segment>, d: Option<Segment>, j: Option<Segment>, k: string)
    requires k != "v" && k != "d" && k != "j"
    ensures Get(HitEntries(v, d, j), k) == None
  {
    var g0 := AddSegment([], "j", j);
    var g1 := AddSegment(g0, "d", d);
    if j.Some? { GetPutOther([], "j", j.value, k); }
    if d.Some? { GetPutOther(g0, "d", d.value, k); }
    if v.Some? { GetPutOther(g1, "v", v.value, k); }
  }

  /** The D-J junction starts `1 + len(v-d junction) + len(d seq)` after the
      end of V, when V has a numeric end, the V-D junction is present and the
      D entry holds its text. */
  lemma DjJunctionStart(v: Option<Segment>, d: Option<Segment>, junction: Dict<string, string>, e: real, vdText: string, dText: string)
    requires v.Some? && v.value.end.Some? && NumOf(v.value.end.value) == Some(e)
    requires Present(junction, "v-d_junction") == Some(vdText)
    requires d.Some? && d.value.text == Some(StrV(dText))
    ensures JunctionCounter(v, d, junction) == |vdText| + |dText|
    ensures var dj := SeqFirstJunction(v, JunctionCounter(v, d, junction), "");
      NumOf(dj.start.value) == Some(e + 1.0 + (|vdText| + |dText|) as real)
  {
    NumOfAddInt(v.value.end.value, 1);
    NumOfAddInt(v.value.end.value, 1 + |vdText| + |dText|);
  }

  /** The record `return_dict()` returns. */
  datatype BlastedOutput = BlastedOutput(
    topV: Field, topD: Field, topJ: Field, strand: Field, chainType: Field,
    stopCodon: Field, productive: Field, inFrame: Field,
    junction: Dict<string, string>,
    alignmentSummaries: Dict<string, Dict<string, Value>>,
    vHits: HitArray, dHits: HitArray, jHits: HitArray,
    geneAlignments: Dict<string, Segment>,
    totalIdentifiableCdr3: string,
    cdr3TranslatedSequence: string,
    cdr3Sequence: string)

  /** `return_dict()`; `None` is the `AttributeError` of a report without a
      CDR3 count or the one `.lower()` raises on a tuple `Productive` cell. */
  function ReturnDictOf(p: Parsed, total: Option<string>, cdr3: Option<Cdr3Line>): Option<BlastedOutput> {
    var na := Text("N/A");
    var productive := Get(p.rearrangement, "Productive").GetOr(na);
    if total.None? || productive.Tuple? then None
    else
      Some(BlastedOutput(
        Get(p.rearrangement, "Top V gene match").GetOr(na),
        Get(p.rearrangement, "Top D gene match").GetOr(na),
        Get(p.rearrangement, "Top J gene match").GetOr(Tuple(["N/A"])),
        Get(p.rearrangement, "Strand").GetOr(na),
        Get(p.rearrangement, "Chain type").GetOr(na),
        Get(p.rearrangement, "stop codon").GetOr(na),
        productive,
        Get(p.rearrangement, "V-J frame").GetOr(na),
        p.junction,
        p.alignmentSummaries,
        HitArrayOf(p.vHits), HitArrayOf(p.dHits), HitArrayOf(p.jHits),
        GeneAlignments(HitSegment(p.vHits), HitSegment(p.dHits), HitSegment(p.jHits), p.junction),
        total.value,
        if cdr3.Some? then cdr3.value.translated else "N/A",
        if cdr3.Some? then cdr3.value.sequence else "N/A"))
  }

  /** The whole parser: scan, process, `return_dict()`. */
  function Report(lines: seq<string>): Option<BlastedOutput> {
    match ScanAll(lines)
    case None => None
    case Some(st) =>
      match ProcessState(st)
      case None => None
      case Some(p) => ReturnDictOf(p, st.totalIdentifiableCdr3, st.cdr3)
  }

  /** Rearrangement fields the report lacks read `N/A`, except the top J gene,
      which reads as the one-tuple `("N/A",)`; present ones are copied. */
  lemma ReturnDictDefaults(p: Parsed, total: string, cdr3: Option<Cdr3Line>, name: string)
    requires ReturnDictOf(p, Some(total), cdr3).Some?
    requires name in ["Top V gene match", "Top D gene match", "Strand", "Chain type", "stop codon", "Productive", "V-J frame"]
    ensures var r := ReturnDictOf(p, Some(total), cdr3).value;
      var f := match name
        case "Top V gene match" => r.topV case "Top D gene match" => r.topD
        case "Strand" => r.strand case "Chain type" => r.chainType
        case "stop codon" => r.stopCodon case "Productive" => r.productive
        case _ => r.inFrame;
      f == (if Get(p.rearrangement, name).Some? then Get(p.rearrangement, name).value else Text("N/A"))
    ensures var r := ReturnDictOf(p, Some(total), cdr3).value;
      r.topJ == (if Get(p.rearrangement, "Top J gene match").Some? then Get(p.rearrangement, "Top J gene match").value else Tuple(["N/A"]))
    ensures var r := ReturnDictOf(p, Some(total), cdr3).value;
      r.cdr3Sequence == (if cdr3.Some? then cdr3.value.sequence else "N/A") &&
      r.totalIdentifiableCdr3 == total
  {
  }

  /** `return_dict()` fails on a report exactly when its `Productive` cell is a
      tuple. */
  lemma ReturnDictFails(p: Parsed, total: string, cdr3: Option<Cdr3Line>)
    ensures ReturnDictOf(p, Some(total), cdr3).None? <==> Get(p.rearrangement, "Productive").GetOr(Text("N/A")).Tuple?
  {
  }

  // ===========================================================================
  // The object
  // ===========================================================================

  /** `process()` does not look at the scanner's flags. */
  lemma ProcessIgnoresFlags(st: ScanState)
    ensures ProcessState(st) == ProcessState(st.(rearrangementNext := false, junctionNext := false, fieldsSeen := false))
  {
  }

  class LoadBlastedOutput {
    var query: string
    var domainClassification: string
    var rearrangementSummaryTitles: seq<string>
    var alignmentSummaryTitles: seq<string>
    var junctionDetailTitles: seq<string>
    var hitFields: seq<string>
    var rearrangementSummary: seq<string>
    var junctionDetail: seq<string>
    var alignmentSummaries: Dict<string, seq<string>>
    var hitsV: seq<string>
    var hitsD: seq<string>
    var hitsJ: seq<string>
    /** `None` while the attribute has not been set. */
    var totalIdentifiableCdr3: Option<string>
    var cdr3: Option<Cdr3Line>
    /** `blast_dict[query]`; `None` until `process()` completes. */
    var blastDict: Option<Parsed>
    var junctionTogether: string
    /** The constructor raised: the object is never handed out. */
    var raised: bool

    /** The attributes and the loop's flags as a scanner state. */
    function Scanned(rb: bool, jb: bool, fb: bool): ScanState
      reads this
    {
      ScanState(query, domainClassification, rearrangementSummaryTitles, rearrangementSummary,
        junctionDetailTitles, junctionDetail, alignmentSummaryTitles, alignmentSummaries,
        totalIdentifiableCdr3, cdr3, hitFields, hitsV, hitsD, hitsJ, rb, jb, fb)
    }

    /** The `LoadBlastedOutput(query)` call on the report's lines. */
    constructor (report: seq<string>)
      ensures raised <==> ScanAll(report).None? || ProcessState(ScanAll(report).value).None?
      ensures ScanAll(report).Some? ==>
        var st := ScanAll(report).value;
        Scanned(st.rearrangementNext, st.junctionNext, st.fieldsSeen) == st
      ensures !raised ==>
        blastDict == ProcessState(ScanAll(report).value) &&
        junctionTogether == JunctionTogether(junctionDetailTitles, junctionDetail)
    {
      query := "";
      domainClassification := "";
      rearrangementSummaryTitles := [];
      alignmentSummaryTitles := [];
      junctionDetailTitles := [];
      hitFields := [];
      rearrangementSummary := [];
      junctionDetail := [];
      alignmentSummaries := [];
      hitsV := [];
      hitsD := [];
      hitsJ := [];
      totalIdentifiableCdr3 := None;
      cdr3 := None;
      blastDict := None;
      junctionTogether := "";
      raised := false;
      new;
      var rb, jb, fb := false, false, false;
      var i := 0;
      while i < |report|
        invariant 0 <= i <= |report|
        invariant ScanAll(report[..i]) == Some(Scanned(rb, jb, fb))
        invariant !raised
      {
        var ok;
        rb, jb, fb, ok := ScanOne(report[i], rb, jb, fb);
        assert report[..i + 1][..i] == report[..i];
        if !ok {
          raised := true;
          ScanAllRaised(report, i + 1);
          return;
        }
        i := i + 1;
      }
      assert report[..i] == report;
      ProcessIgnoresFlags(Scanned(rb, jb, fb));
      Process();
      // `process()` raised when it stored nothing
      raised := blastDict.None?;
    }

    /** One pass of the loop body. */
    method ScanOne(line: string, rb: bool, jb: bool, fb: bool) returns (rb': bool, jb': bool, fb': bool, ok: bool)
      modifies this
      ensures ok <==> ScanLine(old(Scanned(rb, jb, fb)), line).Some?
      ensures ok ==> Scanned(rb', jb', fb') == ScanLine(old(Scanned(rb, jb, fb)), line).value
      ensures raised == old(raised)
    {
      rb', jb', fb' := rb, jb, fb;
      ok := ScanIdsStep(line, rb, jb, fb);
      if !ok { return; }
      rb', jb', fb', ok := ScanRestStep(line, rb, jb, fb);
    }

    /** The loop body after the query name and the domain classification. */
    method ScanRestStep(line: string, rb: bool, jb: bool, fb: bool) returns (rb': bool, jb': bool, fb': bool, ok: bool)
      modifies this
      ensures ScanRest(old(Scanned(rb, jb, fb)), line) == if ok then Some(Scanned(rb', jb', fb')) else None
      ensures raised == old(raised)
    {
      fb' := fb;
      var out;
      rb', jb', out := ScanHeadersStep(line, rb, jb, fb);
      if out != Continue {
        ok := out == Finish;
        return;
      }
      out := ScanAlignmentStep(line, rb', jb', fb');
      if out != Continue {
        ok := out == Finish;
        return;
      }
      fb', ok := ScanTailStep(line, rb', jb', fb');
    }

    /** The `Total` lines, the CDR3 line and the hit table. */
    method ScanTailStep(line: string, rb: bool, jb: bool, fb: bool) returns (fb': bool, ok: bool)
      modifies this
      ensures ScanTail(old(Scanned(rb, jb, fb)), line) == if ok then Some(Scanned(rb, jb, fb')) else None
      ensures raised == old(raised)
    {
      fb' := fb;
      ok := ScanTotalAndCdr3Step(line, rb, jb, fb);
      if !ok { return; }
      fb', ok := ScanFieldsStep(line, rb, jb, fb);
      if !ok { return; }
      HitRowStep(line, rb, jb, fb');
    }

    /** The query name and the domain classification. */
    method ScanIdsStep(line: string, rb: bool, jb: bool, fb: bool) returns (ok: bool)
      modifies this
      ensures ScanIds(old(Scanned(rb, jb, fb)), line) == if ok then Some(Scanned(rb, jb, fb)) else None
      ensures raised == old(raised)
    {
      ok := false;
      var q := if Contains(line, "Query") then AfterColon(line) else Some(query);
      if q.None? { return; }
      var d := if Contains(line, "Domain classification requested:") then AfterColon(line) else Some(domainClassification);
      if d.None? { return; }
      query := q.value;
      domainClassification := d.value;
      ok := true;
    }

    /** The rearrangement-summary and junction-details headers and the lines
        after them. */
    method ScanHeadersStep(line: string, rb: bool, jb: bool, fb: bool) returns (rb': bool, jb': bool, out: Outcome)
      modifies this
      ensures FlowIs(ScanHeaders(old(Scanned(rb, jb, fb)), line), out, Scanned(rb', jb', fb))
      ensures raised == old(raised)
    {
      rb', jb' := rb, jb;
      if Contains(line, "rearrangement summary") {
        var t := HeaderTitles(line, 2);
        if t.None? { return rb', jb', Fail; }
        rearrangementSummaryTitles := t.value;
        return true, jb', Finish;
      }
      if rb' {
        rearrangementSummary := TabFields(line);
        rb' := false;
      }
      if Contains(line, "junction details") {
        var t := HeaderTitles(line, 2);
        if t.None? { return rb', jb', Fail; }
        junctionDetailTitles := t.value;
        return rb', true, Finish;
      }
      if jb' {
        junctionDetail := TabFields(line);
        jb' := false;
      }
      out := Continue;
    }

    /** The alignment-summary titles and region rows. */
    method ScanAlignmentStep(line: string, rb: bool, jb: bool, fb: bool) returns (out: Outcome)
      modifies this
      ensures FlowIs(ScanAlignment(old(Scanned(rb, jb, fb)), line), out, Scanned(rb, jb, fb))
      ensures raised == old(raised)
    {
      if Contains(line, "Alignment summary") {
        var t := HeaderTitles(line, 1);
        if t.None? { return Fail; }
        alignmentSummaryTitles := t.value;
      }
      alignmentSummaries := RegionRows(alignmentSummaries, line);
      if StartsWith(line, "CDR3-IMGT") {
        alignmentSummaries := Put(alignmentSummaries, "cdr3", Drop(Tokens(line), 2));
        return Finish;
      }
      out := Continue;
    }

    /** The `Total` lines and the CDR3 line. */
    method ScanTotalAndCdr3Step(line: string, rb: bool, jb: bool, fb: bool) returns (ok: bool)
      modifies this
      ensures ScanTotalAndCdr3(old(Scanned(rb, jb, fb)), line) == if ok then Some(Scanned(rb, jb, fb)) else None
      ensures raised == old(raised)
    {
      ok := false;
      if StartsWith(line, "Total") {
        var k := Tokens(line);
        if Contains(line, "CDR3") {
          if |k| <= 4 { return; }
          totalIdentifiableCdr3 := Some(k[4]);
        } else if |k| == 8 {
          alignmentSummaries := Put(alignmentSummaries, "total", k[1..]);
        }
      }
      if StartsWith(line, "CDR3") {
        var f := TabFields(line);
        if |f| <= 4 { return; }
        cdr3 := Some(Cdr3Line(f[1], f[2], f[3], f[4]));
      }
      ok := true;
    }

    /** The hit-table field list. */
    method ScanFieldsStep(line: string, rb: bool, jb: bool, fb: bool) returns (fb': bool, ok: bool)
      modifies this
      ensures ScanFields(old(Scanned(rb, jb, fb)), line) == if ok then Some(Scanned(rb, jb, fb')) else None
      ensures raised == old(raised)
    {
      fb', ok := fb, true;
      if Contains(line, "# Fields:") {
        var p := Piece(Strip(line), ':', 1);
        if p.None? { return fb', false; }
        hitFields := SplitOn(p.value, ',');
        fb' := true;
      }
    }

    /** A V, D or J row after the field list. */
    method HitRowStep(line: string, rb: bool, jb: bool, fb: bool)
      modifies this
      ensures Scanned(rb, jb, fb) == HitRow(old(Scanned(rb, jb, fb)), line)
      ensures raised == old(raised)
    {
      if fb {
        if StartsWith(line, "V") {
          hitsV := hitsV + [line];
        } else if StartsWith(line, "D") {
          hitsD := hitsD + [line];
        } else if StartsWith(line, "J") {
          hitsJ := hitsJ + [line];
        }
      }
    }

    /** `process()`. */
    method Process()
      modifies this
      ensures blastDict == ProcessState(old(Scanned(false, false, false)))
      ensures junctionTogether == JunctionTogether(junctionDetailTitles, junctionDetail)
      ensures raised == old(raised) && Scanned(false, false, false) == old(Scanned(false, false, false))
    {
      var rearrangement := ParseRearrangement(rearrangementSummaryTitles, rearrangementSummary);
      var junction, together := ParseJunction(junctionDetailTitles, junctionDetail);
      junctionTogether := together;
      var alignment := ParseAlignmentSummaries(alignmentSummaryTitles, alignmentSummaries, totalIdentifiableCdr3, cdr3);
      if alignment.None? {
        blastDict := None;
        return;
      }
      var v := ParseHits(hitsV, hitFields);
      var d := ParseHits(hitsD, hitFields);
      var j := ParseHits(hitsJ, hitFields);
      blastDict := Some(Parsed(query, domainClassification, rearrangement, junction, alignment.value, v, d, j));
    }

    /** `return_dict()` on a constructed object. */
    method ReturnDict() returns (r: Option<BlastedOutput>)
      requires blastDict.Some?
      ensures r == ReturnDictOf(blastDict.value, totalIdentifiableCdr3, cdr3)
    {
      var p := blastDict.value;
      var na := Text("N/A");
      var topV := Get(p.rearrangement, "Top V gene match").GetOr(na);
      var topD := Get(p.rearrangement, "Top D gene match").GetOr(na);
      var topJ := Get(p.rearrangement, "Top J gene match").GetOr(Tuple(["N/A"]));
      var strand := Get(p.rearrangement, "Strand").GetOr(na);
      var chainType := Get(p.rearrangement, "Chain type").GetOr(na);
      var stopCodon := Get(p.rearrangement, "stop codon").GetOr(na);
      var productive := Get(p.rearrangement, "Productive").GetOr(na);
      var inFrame := Get(p.rearrangement, "V-J frame").GetOr(na);
      var g := BuildGeneAlignments(HitSegment(p.vHits), HitSegment(p.dHits), HitSegment(p.jHits), p.junction);
      if totalIdentifiableCdr3.None? {
        // reading the unset attribute raises
        return None;
      }
      var translated, sequence := "N/A", "N/A";
      if cdr3.Some? {
        translated, sequence := cdr3.value.translated, cdr3.value.sequence;
      }
      if productive.Tuple? {
        // a tuple has no `.lower()`
        return None;
      }
      r := Some(BlastedOutput(topV, topD, topJ, strand, chainType, stopCodon, productive, inFrame,
        p.junction, p.alignmentSummaries, HitArrayOf(p.vHits), HitArrayOf(p.dHits), HitArrayOf(p.jHits),
        g, totalIdentifiableCdr3.value, translated, sequence));
    }
  }

  // ---------------------------------------------------------------------------
  // The parse_* methods, over the attributes they read
  // ---------------------------------------------------------------------------

  /** `parse_rearranment()`. */
  method ParseRearrangement(titles: seq<string>, values: seq<string>) returns (r: Dict<string, Field>)
    ensures r == Rearrangement(titles, values)
  {
    ghost var ks, vs := StripAll(titles), FieldsOf(values);
    r := [];
    var i := 0;
    var n := Min(|titles|, |values|);
    while i < n
      invariant i <= n
      invariant r == ZipDict(ks, vs, i)
    {
      FieldsOfAt(values, i);
      r := Put(r, Strip(titles[i]), FieldOf(values[i]));
      i := i + 1;
    }
  }

  /** `parse_junction()`, returning the `junction_together` it builds. */
  method ParseJunction(titles: seq<string>, values: seq<string>) returns (r: Dict<string, string>, together: string)
    ensures r == JunctionDetails(titles, values)
    ensures together == JunctionTogether(titles, values)
  {
    ghost var ks, vs := JunctionKeys(titles, values), JunctionValues(values);
    r := [];
    together := "";
    var i := 0;
    var n := Min(|titles|, |values|);
    while i < n
      invariant i <= n
      invariant r == ZipDict(ks, vs, i)
      invariant together == Together(values, i)
    {
      JunctionValuesAt(values, i);
      r := Put(r, JunctionKey(titles[i], values[i]), JunctionValue(values[i]));
      together := together + Contribution(values[i]);
      i := i + 1;
    }
  }

  /** One alignment-summary row against the titles. */
  method ParseRegion(titles: seq<string>, values: seq<string>) returns (r: Dict<string, Value>)
    ensures r == RegionDict(titles, values)
  {
    ghost var ks, vs := StripAll(titles), TypedAll(values);
    r := [];
    var i := 0;
    var n := Min(|titles|, |values|);
    while i < n
      invariant i <= n
      invariant r == ZipDict(ks, vs, i)
    {
      TypedAllAt(values, i);
      r := Put(r, Strip(titles[i]), ParseTyped(values[i]));
      i := i + 1;
    }
  }

  /** `parse_alignment_summaries()`; `None` is the exception of the CDR3
      cross-check. */
  method ParseAlignmentSummaries(titles: seq<string>, rows: Dict<string, seq<string>>,
      total: Option<string>, cdr3: Option<Cdr3Line>) returns (r: Option<Dict<string, Dict<string, Value>>>)
    ensures r == Cdr3Check(RegionDicts(titles, rows), total, cdr3)
  {
    var d := ParseRegions(titles, rows);
    r := CheckCdr3(d, total, cdr3);
  }

  /** Every alignment-summary row against the titles. */
  method ParseRegions(titles: seq<string>, rows: Dict<string, seq<string>>) returns (d: Dict<string, Dict<string, Value>>)
    ensures d == RegionDicts(titles, rows)
  {
    d := [];
    var m := 0;
    while m < |rows|
      invariant 0 <= m <= |rows|
      invariant d == MapValues(rows, RegionFn(titles), m)
    {
      var row := ParseRegion(titles, rows[m].1);
      assert RegionFn(titles)(rows[m].1) == row;
      MapValuesStep(rows, RegionFn(titles), m, rows[m].0, row);
      d := Put(d, rows[m].0, row);
      m := m + 1;
    }
  }

  /** The cross-check of the `cdr3` row against the CDR3 line; `None` is
      the exception it raises. */
  method CheckCdr3(d: Dict<string, Dict<string, Value>>, total: Option<string>, cdr3: Option<Cdr3Line>)
      returns (r: Option<Dict<string, Dict<string, Value>>>)
    ensures r == Cdr3Check(d, total, cdr3)
  {
    if total.None? {
      return None;
    }
    if total.value == "0" {
      return Some(d);
    }
    var reset := true;
    var existing := Get(d, "cdr3");
    if existing.Some? {
      var differs := FromDiffers(existing.value, cdr3);
      if differs.None? {
        return None;
      }
      reset := differs.value;
    }
    if cdr3.None? {
      return None;
    }
    var base := if reset then [] else existing.value;
    base := Put(base, "to", StrV(cdr3.value.end));
    base := Put(base, "from", StrV(cdr3.value.start));
    r := Some(Put(d, "cdr3", base));
  }

  /** One hit row against the field names. */
  method ParseHitRow(entry: string, fields: seq<string>) returns (r: Dict<string, Value>)
    ensures r == HitOf(entry, fields)
  {
    r := ParseHitCells(Drop(SplitWs(entry), 1), fields);
  }

  /** The cells of a hit row after its first token, paired with the field names. */
  method ParseHitCells(cells: seq<string>, fields: seq<string>) returns (r: Dict<string, Value>)
    ensures r == ZipDict(HitKeys(fields), FloatOrStrAll(cells), Min(|fields|, |cells|))
  {
    ghost var ks, vs := HitKeys(fields), FloatOrStrAll(cells);
    r := [];
    var i := 0;
    var n := Min(|fields|, |cells|);
    while i < n
      invariant i <= n
      invariant r == ZipDict(ks, vs, i)
    {
      HitKeysAt(fields, i);
      FloatOrStrAllAt(cells, i);
      r := Put(r, HitKey(fields[i]), ParseFloatOrStr(cells[i]));
      i := i + 1;
    }
  }

  /** `parse_v_hits()`, `parse_d_hits()` and `parse_j_hits()`, which differ
      only in the list they read. */
  method ParseHits(entries: seq<string>, fields: seq<string>) returns (r: Dict<string, Dict<string, Value>>)
    ensures r == Hits(entries, fields)
  {
    ghost var ks, vs := RankKeys(|entries|), HitRows(entries, fields);
    r := [];
    var rank: nat := 1;
    var i := 0;
    while i < |entries|
      invariant 0 <= i <= |entries| && rank == i + 1
      invariant r == ZipDict(ks, vs, i)
    {
      HitRowsAt(entries, fields, i);
      var row := ParseHitRow(entries[i], fields);
      r := Put(r, "rank_" + NatToString(rank), row);
      rank := rank + 1;
      i := i + 1;
    }
  }

  /** The `gene_alignments` part of `return_dict()`, entry by entry. */
  method BuildGeneAlignments(v: Option<Segment>, d: Option<Segment>, j: Option<Segment>, junction: Dict<string, string>)
    returns (g: Dict<string, Segment>)
    ensures g == GeneAlignments(v, d, j, junction)
  {
    g := [];
    // an entry whose `rank_1` hit lacks a cell is deleted again
    g := AddSegment(g, "j", j);
    g := AddSegment(g, "d", d);
    g := AddSegment(g, "v", v);
    g := AddJunctions(g, v, d, junction);
  }

  /** The junction entries, with the running count of the nucleotides placed
      between the end of V and the D-J junction. */
  method AddJunctions(g0: Dict<string, Segment>, v: Option<Segment>, d: Option<Segment>, junction: Dict<string, string>)
    returns (g: Dict<string, Segment>)
    ensures g == WithJunctions(g0, v, d, junction)
  {
    g := g0;
    var counter: nat := 0;
    var vd := Present(junction, "v-d_junction");
    if vd.Some? {
      // `seq` is written first and stays when the coordinates fail
      var s := Segment(None, None, Some(StrV(vd.value)));
      var start := FromVEnd(v, 1);
      if start.Some? {
        s := s.(start := start, end := FromVEnd(v, |vd.value|));
        counter := |vd.value|;
      }
      assert s == SeqFirstJunction(v, 0, vd.value);
      g := Put(g, "v_d_junction", s);
    }
    if d.Some? && d.value.text.Some? && LenOf(d.value.text.value).Some? {
      counter := counter + LenOf(d.value.text.value).value;
    }
    assert counter == JunctionCounter(v, d, junction);
    var dj := Present(junction, "d-j_junction");
    if dj.Some? {
      var s := Segment(None, None, Some(StrV(dj.value)));
      var start := FromVEnd(v, 1 + counter);
      if start.Some? {
        s := s.(start := start, end := FromVEnd(v, counter + |dj.value|));
      }
      assert s == SeqFirstJunction(v, counter, dj.value);
      g := Put(g, "d_j_junction", s);
    }
    var vj := Present(junction, "v-j_junction");
    if vj.Some? {
      // the coordinates are written first: when they fail the entry stays empty
      var s := Segment(None, None, None);
      var start := FromVEnd(v, 1);
      if start.Some? {
        s := Segment(start, FromVEnd(v, |vj.value|), Some(StrV(vj.value)));
      }
      assert s == CoordsFirstJunction(v, vj.value);
      g := Put(g, "v_j_junction", s);
    }
  }
}
