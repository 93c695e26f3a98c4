/** The cloning recommendation of `aBASE`: for every spreadsheet row, a
    code of the chains whose reads are ready for cloning (`H`, `K`, `L`, each
    followed by `*` when the chain is not functional), then the chains to
    clone and the non-functional ones among them. */
module Cloning {
  import opened Wrappers
  import opened PyStr
  import opened Dict
  import opened PyValue
  import opened SequenceFiles
  import opened ExportDicts
  import opened ReadLookups

  // ===========================================================================
  // Inputs
  // ===========================================================================

  /** A cell of a chain column: its row, its value (`None` for an empty
      cell) and whether the row's `Confirmation` cell is already filled. */
  datatype Cell = Cell(row: nat, value: Option<string>, confirmed: bool)

  /** What `SequenceFile(filename)` does: a parsed read, a
      `FileNotFoundError` (the row is annotated and the loop goes on), or
      any other exception, which ends the program. */
  datatype Load = Loaded(s: ReadState) | NotFound | Aborted

  /** The command-line options that matter here: `--dataprefix`,
      `--overwrite`, whether `--cloningkeys` and all three of `--heavykeys`,
      `--kappakeys`, `--lambdakeys` are given, and the patient and mAb
      identifier cells of each row when `--identifier` is given. */
  datatype Options = Options(prefix: Option<string>, overwrite: bool, cloningKeys: bool, allKeys: bool,
                             ids: Option<nat -> (string, string)>)

  /** The chain columns, in the order `chains` receives them: heavy, kappa,
      lambda, each only when its option is given. */
  function Columns(heavy: Option<seq<Cell>>, kappa: Option<seq<Cell>>, lambda: Option<seq<Cell>>): seq<(string, seq<Cell>)> {
    Column(heavy, "H") + Column(kappa, "K") + Column(lambda, "L")
  }

  function Column(col: Option<seq<Cell>>, ct: string): seq<(string, seq<Cell>)> {
    if col.Some? then [(ct, col.value)] else []
  }

  // ===========================================================================
  // One cell
  // ===========================================================================

  /** The read's file name: `-` becomes `_`, then the prefix and `.ab1`
      when a prefix is given. */
  function FileName(value: string, prefix: Option<string>): string {
    var f := Replace(value, "-", "_");
    if prefix.Some? then prefix.value + f + ".ab1" else f
  }

  /** What a cell adds to its row's code. */
  datatype Mark = Absent | Functional | NonFunctional

  function Part(ct: string, m: Mark): string {
    match m
    case Absent => ""
    case Functional => ct
    case NonFunctional => ct + "*"
  }

  /** The code of a row whose heavy, kappa and lambda cells left these marks. */
  function Code(mH: Mark, mK: Mark, mL: Mark): string {
    Part("H", mH) + Part("K", mK) + Part("L", mL)
  }

  /** The mark of a read of chain column `ct` that parsed with chain type
      `ct`: it counts only when both primer cells of its `exportDict`
      name the chain; `None` is an exception. */
  function PrimerMark(s: ReadState, ct: string, t: PrimerTables, showFloat: real -> string): Option<Mark> {
    match ExportOf(s, t, showFloat)
    case None => None
    case Some(ed) =>
      var five := Get(ed, "5' Primer");
      if five.None? || !five.value.StrV? then None
      else if Find(five.value.s, ct) == -1 then Some(Absent)
      else
        var three := Get(ed, "3' Primer");
        if three.None? || !three.value.StrV? then None
        else if Find(three.value.s, ct) == -1 then Some(Absent)
        else
          var f := Get(ed, "Function");
          if f.None? then None
          else if f.value == StrV("Y") then Some(Functional) else Some(NonFunctional)
  }

  /** The mark a cell of column `ct` leaves; `None` ends the program. */
  function CellMark(cell: Cell, ct: string, o: Options, load: string -> Load, t: PrimerTables,
                    showFloat: real -> string): Option<Mark> {
    if cell.value.None? then Some(Absent)
    else if !o.overwrite && cell.confirmed then Some(Absent)
    else
      match load(FileName(cell.value.value, o.prefix))
      case NotFound => Some(Absent)
      case Aborted => None
      case Loaded(s) =>
        if !s.successfullyParsed then Some(Absent)
        else if s.chainType.None? then None
        else if s.chainType.value != ct then Some(Absent)
        else if !o.cloningKeys then Some(Absent)
        else PrimerMark(s, ct, t, showFloat)
  }

  /** `cloning_mAbs[row] += piece`, creating the entry when it is missing. */
  function Append(codes: Dict<nat, string>, row: nat, piece: string): Dict<nat, string> {
    Put(codes, row, Get(codes, row).GetOr("") + piece)
  }

  // ===========================================================================
  // The accumulation
  // ===========================================================================

  /** The environment of the first loop. */
  datatype Env = Env(o: Options, load: string -> Load, t: PrimerTables, showFloat: real -> string)

  /** The codes after the cells `cells[i..]` of column `ct`. */
  function ColumnFrom(codes: Dict<nat, string>, ct: string, cells: seq<Cell>, i: nat, mark: Cell -> Option<Mark>): Option<Dict<nat, string>>
    requires i <= |cells|
    decreases |cells| - i
  {
    if i == |cells| then Some(codes)
    else
      match mark(cells[i])
      case None => None
      case Some(m) =>
        ColumnFrom(if m == Absent then codes else Append(codes, cells[i].row, Part(ct, m)), ct, cells, i + 1, mark)
  }

  /** The mark of each cell of column `ct`. */
  function Marker(ct: string, e: Env): Cell -> Option<Mark> {
    c => CellMark(c, ct, e.o, e.load, e.t, e.showFloat)
  }

  /** The marking of the cells of each column, by chain type. */
  type Marks = string -> Cell -> Option<Mark>

  function Markers(e: Env): Marks {
    ct => Marker(ct, e)
  }

  /** The codes after the columns `cols[k..]`. */
  function CodesFrom(codes: Dict<nat, string>, cols: seq<(string, seq<Cell>)>, k: nat, marks: Marks): Option<Dict<nat, string>>
    requires k <= |cols|
    decreases |cols| - k
  {
    if k == |cols| then Some(codes)
    else
      match ColumnFrom(codes, cols[k].0, cols[k].1, 0, marks(cols[k].0))
      case None => None
      case Some(c) => CodesFrom(c, cols, k + 1, marks)
  }

  // ===========================================================================
  // The recommendation
  // ===========================================================================

  /** Rows without a heavy chain, with a heavy chain alone, or with only
      non-functional chains are not cloned. */
  predicate Skipped(code: string) {
    Find(code, "H") == -1 || code == "H*" || code == "H" || code == "H*K*" || code == "H*L*" || code == "H*K*L*"
  }

  /** The rewrites of a row with two light chains, as written: the last
      branch compares instead of assigning, so `H*KL*` stays as it is. */
  function RewriteAsWritten(code: string): string {
    if code == "HK*L" then "HL"
    else if code == "HKL*" then "HK"
    else if code == "H*K*L" then "H*L"
    else code
  }

  /** The rewrites with the intended assignment `H*KL*` to `H*K`. */
  function Rewrite(code: string): string {
    if code == "HK*L" then "HL"
    else if code == "HKL*" then "HK"
    else if code == "H*K*L" then "H*L"
    else if code == "H*KL*" then "H*K"
    else code
  }

  /** The `non functional chains` cell of a rewritten code: `K*L*` for
      `HK*L*`, else the letter before the first `*` (Python indexing) and a
      `*`, and nothing when there is no `*`. */
  function Starred(code: string): Option<string> {
    if code == "HK*L*" then Some("K*L*")
    else
      var k := Find(code, "*");
      if k == -1 then None else Some([At(code, k - 1).value, '*'])
  }

  /** The two cells written for a row that is cloned: `cloning?` and
      `non functional chains`. */
  datatype Advice = Advice(cloning: string, nonFunctional: Option<string>)

  /** The cells written for a rewritten code. */
  function Cells(rewritten: string): Advice {
    Advice(Replace(rewritten, "*", ""), Starred(rewritten))
  }

  function AdviceAsWritten(code: string): Option<Advice> {
    if Skipped(code) then None else Some(Cells(RewriteAsWritten(code)))
  }

  function AdviceOf(code: string): Option<Advice> {
    if Skipped(code) then None else Some(Cells(Rewrite(code)))
  }

  /** What the second loop writes for one row; the clone ID only when
      identifiers are configured. */
  datatype Recommendation = Recommendation(row: nat, advice: Advice, cloneId: Option<string>)

  function CloneId(row: nat, ids: Option<nat -> (string, string)>): Option<string> {
    if ids.Some? then Some(ids.value(row).0 + "-" + ids.value(row).1) else None
  }

  /** The recommendations for the rows `codes[i..]`, in the order the rows
      first received a letter, when `table` gives the cells of a code. */
  function RecommendFrom(codes: Dict<nat, string>, i: nat, ids: Option<nat -> (string, string)>,
                         table: string -> Option<Advice>): seq<Recommendation>
    requires i <= |codes|
    decreases |codes| - i
  {
    if i == |codes| then [] else RowRecommendation(codes[i], ids, table) + RecommendFrom(codes, i + 1, ids, table)
  }

  /** What the second loop writes for one entry of the dictionary. */
  function RowRecommendation(entry: (nat, string), ids: Option<nat -> (string, string)>,
                             table: string -> Option<Advice>): seq<Recommendation> {
    var a := table(entry.1);
    if a.Some? then [Recommendation(entry.0, a.value, CloneId(entry.0, ids))] else []
  }

  /** The whole run with a given table: `None` when the program ends with
      an exception or `sys.exit`; no recommendation without
      `--cloningkeys`. */
  function RunWith(heavy: Option<seq<Cell>>, kappa: Option<seq<Cell>>, lambda: Option<seq<Cell>>, e: Env,
                   table: string -> Option<Advice>): Option<seq<Recommendation>> {
    match CodesFrom([], Columns(heavy, kappa, lambda), 0, Markers(e))
    case None => None
    case Some(codes) =>
      if !e.o.allKeys then None
      else if !e.o.cloningKeys then Some([])
      else Some(RecommendFrom(codes, 0, e.o.ids, table))
  }

  /** The run as the script is written. */
  function RunOf(heavy: Option<seq<Cell>>, kappa: Option<seq<Cell>>, lambda: Option<seq<Cell>>, e: Env): Option<seq<Recommendation>> {
    RunWith(heavy, kappa, lambda, e, AdviceAsWritten)
  }

  /** The run with line 213 assigning `H*K`, as its comment intends. */
  function CorrectedRunOf(heavy: Option<seq<Cell>>, kappa: Option<seq<Cell>>, lambda: Option<seq<Cell>>, e: Env): Option<seq<Recommendation>> {
    RunWith(heavy, kappa, lambda, e, AdviceOf)
  }

  // ===========================================================================
  // What the recommendation is meant to be
  // ===========================================================================

  /** The intended rule, stated on the marks rather than on the code: a row
      is cloned when it has a heavy chain and a light chain, and not when the
      heavy chain is non-functional and no light chain is functional; of the
      light chains the functional ones are cloned when there are any, else
      all; the non-functional cell lists the starred chains that are cloned. */
  function Intended(mH: Mark, mK: Mark, mL: Mark): Option<Advice> {
    var anyF := mK == Functional || mL == Functional;
    if mH == Absent || (mK == Absent && mL == Absent) || (mH == NonFunctional && !anyF) then None
    else
      var keepK := mK != Absent && (!anyF || mK == Functional);
      var keepL := mL != Absent && (!anyF || mL == Functional);
      var starred := (if mH == NonFunctional then "H*" else "") +
                     (if keepK && mK == NonFunctional then "K*" else "") +
                     (if keepL && mL == NonFunctional then "L*" else "");
      Some(Advice("H" + (if keepK then "K" else "") + (if keepL then "L" else ""),
                  if starred == "" then None else Some(starred)))
  }

  lemma AdviceWithoutHeavy(mK: Mark, mL: Mark)
    ensures AdviceOf(Code(Absent, mK, mL)) == Intended(Absent, mK, mL)
  {
    ContainsChar(Code(Absent, mK, mL), 'H');
  }

  lemma AdviceFunctionalHeavy(mK: Mark, mL: Mark)
    ensures AdviceOf(Code(Functional, mK, mL)) == Intended(Functional, mK, mL)
  {
    match mK
    case Absent => {
      match mL
      case Absent => assert Code(Functional, Absent, Absent) == "H";
      case Functional => AdviceHL();
      case NonFunctional => AdviceHLs();
    }
    case Functional => {
      match mL
      case Absent => AdviceHK();
      case Functional => AdviceHKL();
      case NonFunctional => AdviceHKLs();
    }
    case NonFunctional => {
      match mL
      case Absent => AdviceHKs();
      case Functional => AdviceHKsL();
      case NonFunctional => AdviceHKsLs();
    }
  }

  lemma AdviceNonFunctionalHeavy(mK: Mark, mL: Mark)
    ensures AdviceOf(Code(NonFunctional, mK, mL)) == Intended(NonFunctional, mK, mL)
  {
    match mK
    case Absent => {
      match mL
      case Absent => assert Code(NonFunctional, Absent, Absent) == "H*";
      case Functional => AdviceHsL();
      case NonFunctional => assert Code(NonFunctional, Absent, NonFunctional) == "H*L*";
    }
    case Functional => {
      match mL
      case Absent => AdviceHsK();
      case Functional => AdviceHsKL();
      case NonFunctional => AdviceHsKLs();
    }
    case NonFunctional => {
      match mL
      case Absent => assert Code(NonFunctional, NonFunctional, Absent) == "H*K*";
      case Functional => AdviceHsKsL();
      case NonFunctional => assert Code(NonFunctional, NonFunctional, NonFunctional) == "H*K*L*";
    }
  }

  /** The letters of the chains present: a code without its stars. */
  function Letters(mH: Mark, mK: Mark, mL: Mark): string {
    Letter("H", mH) + Letter("K", mK) + Letter("L", mL)
  }

  function Letter(ct: string, m: Mark): string {
    if m == Absent then "" else ct
  }

  lemma RemoveStarsPart(ct: char, m: Mark)
    requires ct != '*'
    ensures Replace(Part([ct], m), "*", "") == Letter([ct], m)
  {
    match m
    case Absent => {}
    case Functional => {}
    case NonFunctional => {
      ReplaceCharConcat([ct], "*", '*', "");
    }
  }

  /** Removing the stars of a code leaves the letters of its chains. */
  lemma RemoveStars(mH: Mark, mK: Mark, mL: Mark)
    ensures Replace(Code(mH, mK, mL), "*", "") == Letters(mH, mK, mL)
  {
    ReplaceCharConcat(Part("H", mH) + Part("K", mK), Part("L", mL), '*', "");
    ReplaceCharConcat(Part("H", mH), Part("K", mK), '*', "");
    RemoveStarsPart('H', mH);
    RemoveStarsPart('K', mK);
    RemoveStarsPart('L', mL);
  }

  // One lemma per code that is cloned, named after the code (`s` for `*`):
  // the code, its rewriting, both cells and the intended cells, step by step.

  lemma AdviceHL()
    ensures AdviceOf(Code(Functional, Absent, Functional)) == Intended(Functional, Absent, Functional)
  {
    assert Code(Functional, Absent, Functional) == "HL";
    assert "HL"[0] == 'H' && "HL"[1] == 'L';
    assert !Skipped("HL");
    assert Rewrite("HL") == "HL";
    assert "HL" == Code(Functional, Absent, Functional);
    RemoveStars(Functional, Absent, Functional);
    ContainsChar("HL", '*');
    assert Intended(Functional, Absent, Functional).value.cloning == Letters(Functional, Absent, Functional);
  }

  lemma AdviceHLs()
    ensures AdviceOf(Code(Functional, Absent, NonFunctional)) == Intended(Functional, Absent, NonFunctional)
  {
    assert Code(Functional, Absent, NonFunctional) == "HL*";
    assert "HL*"[0] == 'H' && "HL*"[1] == 'L' && "HL*"[2] == '*';
    assert !Skipped("HL*");
    assert Rewrite("HL*") == "HL*";
    assert "HL*" == Code(Functional, Absent, NonFunctional);
    RemoveStars(Functional, Absent, NonFunctional);
    FindFirstChar("HL*", '*', 2);
    assert Intended(Functional, Absent, NonFunctional).value.cloning == Letters(Functional, Absent, NonFunctional);
    assert Starred("HL*").value == "L*";
    assert Intended(Functional, Absent, NonFunctional).value.nonFunctional.value == "L*";
  }

  lemma AdviceHK()
    ensures AdviceOf(Code(Functional, Functional, Absent)) == Intended(Functional, Functional, Absent)
  {
    assert Code(Functional, Functional, Absent) == "HK";
    assert "HK"[0] == 'H' && "HK"[1] == 'K';
    assert !Skipped("HK");
    assert Rewrite("HK") == "HK";
    assert "HK" == Code(Functional, Functional, Absent);
    RemoveStars(Functional, Functional, Absent);
    ContainsChar("HK", '*');
    assert Intended(Functional, Functional, Absent).value.cloning == Letters(Functional, Functional, Absent);
  }

  lemma AdviceHKL()
    ensures AdviceOf(Code(Functional, Functional, Functional)) == Intended(Functional, Functional, Functional)
  {
    assert Code(Functional, Functional, Functional) == "HKL";
    assert "HKL"[0] == 'H' && "HKL"[1] == 'K' && "HKL"[2] == 'L';
    assert !Skipped("HKL");
    assert Rewrite("HKL") == "HKL";
    assert "HKL" == Code(Functional, Functional, Functional);
    RemoveStars(Functional, Functional, Functional);
    ContainsChar("HKL", '*');
    assert Intended(Functional, Functional, Functional).value.cloning == Letters(Functional, Functional, Functional);
  }

  lemma AdviceHKLs()
    ensures AdviceOf(Code(Functional, Functional, NonFunctional)) == Intended(Functional, Functional, NonFunctional)
  {
    assert Code(Functional, Functional, NonFunctional) == "HKL*";
    assert "HKL*"[0] == 'H' && "HKL*"[1] == 'K' && "HKL*"[2] == 'L' && "HKL*"[3] == '*';
    assert !Skipped("HKL*");
    assert Rewrite("HKL*") == "HK";
    assert "HK" == Code(Functional, Functional, Absent);
    RemoveStars(Functional, Functional, Absent);
    ContainsChar("HK", '*');
    assert Intended(Functional, Functional, NonFunctional).value.cloning == Letters(Functional, Functional, Absent);
  }

  lemma AdviceHKs()
    ensures AdviceOf(Code(Functional, NonFunctional, Absent)) == Intended(Functional, NonFunctional, Absent)
  {
    assert Code(Functional, NonFunctional, Absent) == "HK*";
    assert "HK*"[0] == 'H' && "HK*"[1] == 'K' && "HK*"[2] == '*';
    assert !Skipped("HK*");
    assert Rewrite("HK*") == "HK*";
    assert "HK*" == Code(Functional, NonFunctional, Absent);
    RemoveStars(Functional, NonFunctional, Absent);
    FindFirstChar("HK*", '*', 2);
    assert Intended(Functional, NonFunctional, Absent).value.cloning == Letters(Functional, NonFunctional, Absent);
    assert Starred("HK*").value == "K*";
    assert Intended(Functional, NonFunctional, Absent).value.nonFunctional.value == "K*";
  }

  lemma AdviceHKsL()
    ensures AdviceOf(Code(Functional, NonFunctional, Functional)) == Intended(Functional, NonFunctional, Functional)
  {
    assert Code(Functional, NonFunctional, Functional) == "HK*L";
    assert "HK*L"[0] == 'H' && "HK*L"[1] == 'K' && "HK*L"[2] == '*' && "HK*L"[3] == 'L';
    assert !Skipped("HK*L");
    assert Rewrite("HK*L") == "HL";
    assert "HL" == Code(Functional, Absent, Functional);
    RemoveStars(Functional, Absent, Functional);
    ContainsChar("HL", '*');
    assert Intended(Functional, NonFunctional, Functional).value.cloning == Letters(Functional, Absent, Functional);
  }

  lemma AdviceHKsLs()
    ensures AdviceOf(Code(Functional, NonFunctional, NonFunctional)) == Intended(Functional, NonFunctional, NonFunctional)
  {
    assert Code(Functional, NonFunctional, NonFunctional) == "HK*L*";
    assert "HK*L*"[0] == 'H' && "HK*L*"[1] == 'K' && "HK*L*"[2] == '*' && "HK*L*"[3] == 'L' && "HK*L*"[4] == '*';
    assert !Skipped("HK*L*");
    assert Rewrite("HK*L*") == "HK*L*";
    assert "HK*L*" == Code(Functional, NonFunctional, NonFunctional);
    RemoveStars(Functional, NonFunctional, NonFunctional);
    FindFirstChar("HK*L*", '*', 2);
    assert Intended(Functional, NonFunctional, NonFunctional).value.cloning == Letters(Functional, NonFunctional, NonFunctional);
    assert Starred("HK*L*").value == "K*L*";
    assert Intended(Functional, NonFunctional, NonFunctional).value.nonFunctional.value == "K*L*";
  }

  lemma AdviceHsL()
    ensures AdviceOf(Code(NonFunctional, Absent, Functional)) == Intended(NonFunctional, Absent, Functional)
  {
    assert Code(NonFunctional, Absent, Functional) == "H*L";
    assert "H*L"[0] == 'H' && "H*L"[1] == '*' && "H*L"[2] == 'L';
    assert !Skipped("H*L");
    assert Rewrite("H*L") == "H*L";
    assert "H*L" == Code(NonFunctional, Absent, Functional);
    RemoveStars(NonFunctional, Absent, Functional);
    FindFirstChar("H*L", '*', 1);
    assert Intended(NonFunctional, Absent, Functional).value.cloning == Letters(NonFunctional, Absent, Functional);
    assert Starred("H*L").value == "H*";
    assert Intended(NonFunctional, Absent, Functional).value.nonFunctional.value == "H*";
  }

  lemma AdviceHsK()
    ensures AdviceOf(Code(NonFunctional, Functional, Absent)) == Intended(NonFunctional, Functional, Absent)
  {
    assert Code(NonFunctional, Functional, Absent) == "H*K";
    assert "H*K"[0] == 'H' && "H*K"[1] == '*' && "H*K"[2] == 'K';
    assert !Skipped("H*K");
    assert Rewrite("H*K") == "H*K";
    assert "H*K" == Code(NonFunctional, Functional, Absent);
    RemoveStars(NonFunctional, Functional, Absent);
    FindFirstChar("H*K", '*', 1);
    assert Intended(NonFunctional, Functional, Absent).value.cloning == Letters(NonFunctional, Functional, Absent);
    assert Starred("H*K").value == "H*";
    assert Intended(NonFunctional, Functional, Absent).value.nonFunctional.value == "H*";
  }

  lemma AdviceHsKL()
    ensures AdviceOf(Code(NonFunctional, Functional, Functional)) == Intended(NonFunctional, Functional, Functional)
  {
    assert Code(NonFunctional, Functional, Functional) == "H*KL";
    assert "H*KL"[0] == 'H' && "H*KL"[1] == '*' && "H*KL"[2] == 'K' && "H*KL"[3] == 'L';
    assert !Skipped("H*KL");
    assert Rewrite("H*KL") == "H*KL";
    assert "H*KL" == Code(NonFunctional, Functional, Functional);
    RemoveStars(NonFunctional, Functional, Functional);
    FindFirstChar("H*KL", '*', 1);
    assert Intended(NonFunctional, Functional, Functional).value.cloning == Letters(NonFunctional, Functional, Functional);
    assert Starred("H*KL").value == "H*";
    assert Intended(NonFunctional, Functional, Functional).value.nonFunctional.value == "H*";
  }

  lemma AdviceHsKLs()
    ensures AdviceOf(Code(NonFunctional, Functional, NonFunctional)) == Intended(NonFunctional, Functional, NonFunctional)
  {
    assert Code(NonFunctional, Functional, NonFunctional) == "H*KL*";
    assert "H*KL*"[0] == 'H' && "H*KL*"[1] == '*' && "H*KL*"[2] == 'K' && "H*KL*"[3] == 'L' && "H*KL*"[4] == '*';
    assert !Skipped("H*KL*");
    assert Rewrite("H*KL*") == "H*K";
    assert "H*K" == Code(NonFunctional, Functional, Absent);
    RemoveStars(NonFunctional, Functional, Absent);
    FindFirstChar("H*K", '*', 1);
    assert Intended(NonFunctional, Functional, NonFunctional).value.cloning == Letters(NonFunctional, Functional, Absent);
    assert Starred("H*K").value == "H*";
    assert Intended(NonFunctional, Functional, NonFunctional).value.nonFunctional.value == "H*";
  }

  lemma AdviceHsKsL()
    ensures AdviceOf(Code(NonFunctional, NonFunctional, Functional)) == Intended(NonFunctional, NonFunctional, Functional)
  {
    assert Code(NonFunctional, NonFunctional, Functional) == "H*K*L";
    assert "H*K*L"[0] == 'H' && "H*K*L"[1] == '*' && "H*K*L"[2] == 'K' && "H*K*L"[3] == '*' && "H*K*L"[4] == 'L';
    assert !Skipped("H*K*L");
    assert Rewrite("H*K*L") == "H*L";
    assert "H*L" == Code(NonFunctional, Absent, Functional);
    RemoveStars(NonFunctional, Absent, Functional);
    FindFirstChar("H*L", '*', 1);
    assert Intended(NonFunctional, NonFunctional, Functional).value.cloning == Letters(NonFunctional, Absent, Functional);
    assert Starred("H*L").value == "H*";
    assert Intended(NonFunctional, NonFunctional, Functional).value.nonFunctional.value == "H*";
  }

  /** The table gives the intended recommendation for every combination of
      marks. */
  lemma AdviceMeaning(mH: Mark, mK: Mark, mL: Mark)
    ensures AdviceOf(Code(mH, mK, mL)) == Intended(mH, mK, mL)
  {
    match mH
    case Absent => AdviceWithoutHeavy(mK, mL);
    case Functional => AdviceFunctionalHeavy(mK, mL);
    case NonFunctional => AdviceNonFunctionalHeavy(mK, mL);
  }

  /** With the comparison that was meant as an assignment, a functional
      kappa, a non-functional heavy and a non-functional lambda chain are all
      cloned. */
  lemma AsWrittenClonesLambda()
    ensures AdviceAsWritten(Code(NonFunctional, Functional, NonFunctional)) == Some(Advice("HKL", Some("H*")))
  {
    assert Code(NonFunctional, Functional, NonFunctional) == "H*KL*";
    assert "H*KL*"[0] == 'H' && "H*KL*"[1] == '*' && "H*KL*"[2] == 'K' && "H*KL*"[3] == 'L' && "H*KL*"[4] == '*';
    assert !Skipped("H*KL*");
    assert RewriteAsWritten("H*KL*") == "H*KL*";
    RemoveStars(NonFunctional, Functional, NonFunctional);
    assert Replace("H*KL*", "*", "") == "HKL";
    FindFirstChar("H*KL*", '*', 1);
    assert Starred("H*KL*").value == "H*";
  }

  /** What is meant for that row: heavy and kappa only. */
  lemma IntendedHsKLs()
    ensures Intended(NonFunctional, Functional, NonFunctional) == Some(Advice("HK", Some("H*")))
  {
    assert Intended(NonFunctional, Functional, NonFunctional).value.cloning == "HK";
    assert Intended(NonFunctional, Functional, NonFunctional).value.nonFunctional.value == "H*";
  }

  /** That row is the only one on which the as-written table differs. */
  lemma AsWrittenAgrees(mH: Mark, mK: Mark, mL: Mark)
    requires (mH, mK, mL) != (NonFunctional, Functional, NonFunctional)
    ensures AdviceAsWritten(Code(mH, mK, mL)) == AdviceOf(Code(mH, mK, mL))
  {
    CodeOfHsKLs(mH, mK, mL);
  }

  /** Only that row has the code `H*KL*`. */
  lemma CodeOfHsKLs(mH: Mark, mK: Mark, mL: Mark)
    ensures Code(mH, mK, mL) == "H*KL*" ==> (mH, mK, mL) == (NonFunctional, Functional, NonFunctional)
  {
    var c := Code(mH, mK, mL);
    if c == "H*KL*" {
      assert c[0] == 'H' && c[1] == '*' && c[2] == 'K' && c[3] == 'L' && c[4] == '*';
    }
  }

  /** For any code that is cloned, as written and as corrected: the
      `cloning?` cell has no `*`, a cloned row has a heavy chain, and the
      non-functional cell is written exactly when the rewritten code holds a
      `*`. */
  lemma AdviceShape(code: string)
    requires AdviceOf(code).Some?
    ensures Contains(code, "H") && AdviceAsWritten(code).Some?
    ensures '*' !in AdviceAsWritten(code).value.cloning
    ensures AdviceAsWritten(code).value.nonFunctional.Some? <==> '*' in RewriteAsWritten(code)
    ensures '*' !in AdviceOf(code).value.cloning
    ensures AdviceOf(code).value.nonFunctional.Some? <==> '*' in Rewrite(code)
  {
    var w := RewriteAsWritten(code);
    ReplaceCharRemoves(w, '*', "");
    ContainsChar(w, '*');
    var r := Rewrite(code);
    ReplaceCharRemoves(r, '*', "");
    ContainsChar(r, '*');
  }

  // ===========================================================================
  // The file name
  // ===========================================================================

  /** `-` becomes `_` in the cell value, position by position and nowhere
      else; the prefix, which is added afterwards, is kept as it is. */
  lemma FileNameShape(value: string, prefix: Option<string>)
    ensures var base := FileName(value, None);
      |base| == |value| && '-' !in base &&
      (forall i :: 0 <= i < |value| ==> base[i] == if value[i] == '-' then '_' else value[i]) &&
      FileName(value, prefix) == if prefix.Some? then prefix.value + base + ".ab1" else base
  {
    ReplaceCharPointwise(value, '-', '_');
    ReplaceCharRemoves(value, '-', "_");
  }

  // ===========================================================================
  // When a cell adds to its row's code
  // ===========================================================================

  /** A cell contributes only when its read was found and parsed, has the
      column's chain type, a cloning range is given and both primer cells of
      its row name the chain; the letter is starred exactly when `Function`
      is not `Y`, that is when IgBLAST did not call it productive. */
  lemma ContributionNeeds(cell: Cell, ct: string, o: Options, load: string -> Load, t: PrimerTables,
                          showFloat: real -> string)
    requires CellMark(cell, ct, o, load, t, showFloat).Some?
    requires CellMark(cell, ct, o, load, t, showFloat).value != Absent
    ensures cell.value.Some? && (o.overwrite || !cell.confirmed)
    ensures var l := load(FileName(cell.value.value, o.prefix));
      l.Loaded? && l.s.successfullyParsed && l.s.blasted.Some? && l.s.chainType == Some(ct) && o.cloningKeys &&
      ExportOf(l.s, t, showFloat).Some? &&
      Names(Get(ExportOf(l.s, t, showFloat).value, "5' Primer"), ct) &&
      Names(Get(ExportOf(l.s, t, showFloat).value, "3' Primer"), ct) &&
      (CellMark(cell, ct, o, load, t, showFloat) == Some(Functional) <==>
         l.s.blasted.value.productive == Text("Yes"))
  {
    var s := load(FileName(cell.value.value, o.prefix)).s;
    if s.blasted.None? {
      HeadCells(s);
      HeadLacksPrimer(s);
      assert false;
    }
    ExportFunction(s, t, showFloat);
  }

  /** A primer cell that names the chain. */
  predicate Names(v: Option<Value>, ct: string) {
    v.Some? && v.value.StrV? && Contains(v.value.s, ct)
  }

  lemma HeadLacksPrimer(s: ReadState)
    ensures Get(Head(s), "5' Primer") == None
  {
    HeadCells(s);
    var h := Head(s);
    HasAt(h, "5' Primer");
  }

  /** Conversely, such a read of chain H, K or L does contribute, starred
      exactly when it is not productive. */
  lemma ContributionGiven(cell: Cell, ct: string, o: Options, load: string -> Load, t: PrimerTables,
                          showFloat: real -> string)
    requires cell.value.Some? && (o.overwrite || !cell.confirmed) && o.cloningKeys
    requires ct == "H" || ct == "K" || ct == "L"
    requires var l := load(FileName(cell.value.value, o.prefix));
      l.Loaded? && l.s.successfullyParsed && l.s.blasted.Some? && l.s.chainType == Some(ct) &&
      ExportOf(l.s, t, showFloat).Some? &&
      Names(Get(ExportOf(l.s, t, showFloat).value, "5' Primer"), ct) &&
      Names(Get(ExportOf(l.s, t, showFloat).value, "3' Primer"), ct)
    ensures var s := load(FileName(cell.value.value, o.prefix)).s;
      CellMark(cell, ct, o, load, t, showFloat) ==
        Some(if s.blasted.value.productive == Text("Yes") then Functional else NonFunctional)
  {
    var s := load(FileName(cell.value.value, o.prefix)).s;
    ExportFunction(s, t, showFloat);
  }

  // ===========================================================================
  // The code of a row
  // ===========================================================================

  /** One cell per row in each column. */
  predicate DistinctRows(cells: seq<Cell>) {
    forall a, b :: 0 <= a < b < |cells| ==> cells[a].row != cells[b].row
  }

  /** The mark the cells `cells[i..]` of column `ct` leave in row `row`. */
  function MarkFrom(cells: seq<Cell>, i: nat, row: nat, mark: Cell -> Option<Mark>): Mark
    requires i <= |cells|
    decreases |cells| - i
  {
    if i == |cells| then Absent
    else if cells[i].row == row then mark(cells[i]).GetOr(Absent)
    else MarkFrom(cells, i + 1, row, mark)
  }

  /** The mark of row `row` in an optional column. */
  function ColumnMark(col: Option<seq<Cell>>, ct: string, row: nat, e: Env): Mark {
    if col.Some? then MarkFrom(col.value, 0, row, Marker(ct, e)) else Absent
  }

  lemma {:induction false} MarkFromNone(cells: seq<Cell>, i: nat, row: nat, mark: Cell -> Option<Mark>)
    requires i <= |cells|
    requires forall j :: i <= j < |cells| ==> cells[j].row != row
    ensures MarkFrom(cells, i, row, mark) == Absent
    decreases |cells| - i
  {
    if i < |cells| {
      MarkFromNone(cells, i + 1, row, mark);
    }
  }

  /** A column adds to each row exactly the part of that row's cell. */
  lemma {:induction false} ColumnRow(codes: Dict<nat, string>, ct: string, cells: seq<Cell>, i: nat, mark: Cell -> Option<Mark>, row: nat)
    requires i <= |cells| && DistinctRows(cells)
    requires ColumnFrom(codes, ct, cells, i, mark).Some?
    ensures Get(ColumnFrom(codes, ct, cells, i, mark).value, row).GetOr("") ==
            Get(codes, row).GetOr("") + Part(ct, MarkFrom(cells, i, row, mark))
    decreases |cells| - i
  {
    if i < |cells| {
      var m := mark(cells[i]).value;
      var next := if m == Absent then codes else Append(codes, cells[i].row, Part(ct, m));
      ColumnRow(next, ct, cells, i + 1, mark, row);
      if cells[i].row == row {
        MarkFromNone(cells, i + 1, row, mark);
        if m != Absent {
          GetPutSame(codes, row, Get(codes, row).GetOr("") + Part(ct, m));
        }
      } else if m != Absent {
        GetPutOther(codes, cells[i].row, Get(codes, cells[i].row).GetOr("") + Part(ct, m), row);
      }
    }
  }

  /** The parts the columns `cols[k..]` give row `row`, in column order. */
  function RowText(cols: seq<(string, seq<Cell>)>, k: nat, row: nat, marks: Marks): string
    requires k <= |cols|
    decreases |cols| - k
  {
    if k == |cols| then ""
    else Part(cols[k].0, MarkFrom(cols[k].1, 0, row, marks(cols[k].0))) + RowText(cols, k + 1, row, marks)
  }

  lemma {:induction false} CodesRow(codes: Dict<nat, string>, cols: seq<(string, seq<Cell>)>, k: nat, marks: Marks, row: nat)
    requires k <= |cols|
    requires forall j :: k <= j < |cols| ==> DistinctRows(cols[j].1)
    requires CodesFrom(codes, cols, k, marks).Some?
    ensures Get(CodesFrom(codes, cols, k, marks).value, row).GetOr("") == Get(codes, row).GetOr("") + RowText(cols, k, row, marks)
    decreases |cols| - k
  {
    if k < |cols| {
      var c := CodesStep(codes, cols, k, marks);
      ColumnRow(codes, cols[k].0, cols[k].1, 0, marks(cols[k].0), row);
      CodesRow(c, cols, k + 1, marks, row);
      Concat3(Get(CodesFrom(codes, cols, k, marks).value, row).GetOr(""), Get(c, row).GetOr(""), Get(codes, row).GetOr(""),
        Part(cols[k].0, MarkFrom(cols[k].1, 0, row, marks(cols[k].0))), RowText(cols, k + 1, row, marks), RowText(cols, k, row, marks));
    }
  }

  lemma Concat3(full: string, mid: string, before: string, p: string, rest: string, text: string)
    requires full == mid + rest && mid == before + p && text == p + rest
    ensures full == before + text
  {
  }

  /** One column of `CodesFrom`: the codes after column `k`. */
  lemma CodesStep(codes: Dict<nat, string>, cols: seq<(string, seq<Cell>)>, k: nat, marks: Marks) returns (c: Dict<nat, string>)
    requires k < |cols|
    requires CodesFrom(codes, cols, k, marks).Some?
    ensures ColumnFrom(codes, cols[k].0, cols[k].1, 0, marks(cols[k].0)) == Some(c)
    ensures CodesFrom(codes, cols, k, marks) == CodesFrom(c, cols, k + 1, marks)
  {
    c := ColumnFrom(codes, cols[k].0, cols[k].1, 0, marks(cols[k].0)).value;
  }

  /** Codes are built in H, K, L order: the code of every row is the heavy
      part, then the kappa part, then the lambda part of its cells. */
  lemma RowCode(heavy: Option<seq<Cell>>, kappa: Option<seq<Cell>>, lambda: Option<seq<Cell>>, e: Env, row: nat)
    requires heavy.Some? ==> DistinctRows(heavy.value)
    requires kappa.Some? ==> DistinctRows(kappa.value)
    requires lambda.Some? ==> DistinctRows(lambda.value)
    requires CodesFrom([], Columns(heavy, kappa, lambda), 0, Markers(e)).Some?
    ensures Get(CodesFrom([], Columns(heavy, kappa, lambda), 0, Markers(e)).value, row).GetOr("") ==
            Code(ColumnMark(heavy, "H", row, e), ColumnMark(kappa, "K", row, e), ColumnMark(lambda, "L", row, e))
  {
    var cols := Columns(heavy, kappa, lambda);
    CodesRow([], cols, 0, Markers(e), row);
    ColumnsText(heavy, kappa, lambda, e, row);
  }

  lemma ColumnsText(heavy: Option<seq<Cell>>, kappa: Option<seq<Cell>>, lambda: Option<seq<Cell>>, e: Env, row: nat)
    ensures RowText(Columns(heavy, kappa, lambda), 0, row, Markers(e)) ==
            Code(ColumnMark(heavy, "H", row, e), ColumnMark(kappa, "K", row, e), ColumnMark(lambda, "L", row, e))
  {
    var h, k, l := Column(heavy, "H"), Column(kappa, "K"), Column(lambda, "L");
    assert Columns(heavy, kappa, lambda) == h + (k + l);
    RowTextSplit(h, k + l, row, Markers(e));
    RowTextSplit(k, l, row, Markers(e));
    ColumnText(heavy, "H", row, e);
    ColumnText(kappa, "K", row, e);
    ColumnText(lambda, "L", row, e);
  }

  lemma ColumnText(col: Option<seq<Cell>>, ct: string, row: nat, e: Env)
    ensures RowText(Column(col, ct), 0, row, Markers(e)) == Part(ct, ColumnMark(col, ct, row, e))
  {
  }

  lemma {:induction false} RowTextSplit(a: seq<(string, seq<Cell>)>, b: seq<(string, seq<Cell>)>, row: nat, marks: Marks)
    requires |a| <= 1
    ensures RowText(a + b, 0, row, marks) == RowText(a, 0, row, marks) + RowText(b, 0, row, marks)
  {
    if |a| == 1 {
      assert RowText(a + b, 1, row, marks) == RowText(b, 0, row, marks) by {
        RowTextShift(a + b, b, 1, row, marks);
      }
    } else {
      assert a + b == b;
    }
  }

  lemma {:induction false} RowTextShift(s: seq<(string, seq<Cell>)>, b: seq<(string, seq<Cell>)>, d: nat, row: nat, marks: Marks)
    requires d <= |s| && s[d..] == b
    ensures RowText(s, d, row, marks) == RowText(b, 0, row, marks)
  {
    RowTextFrom(s, d, row, marks);
    RowTextFrom(b, 0, row, marks);
    assert s[d..] == b[0..];
  }

  lemma {:induction false} RowTextFrom(s: seq<(string, seq<Cell>)>, d: nat, row: nat, marks: Marks)
    requires d <= |s|
    ensures RowText(s, d, row, marks) == RowText(s[d..], 0, row, marks)
    decreases |s| - d
  {
    if d < |s| {
      RowTextFrom(s, d + 1, row, marks);
      RowTextFrom(s[d..], 1, row, marks);
      assert s[d..][1..] == s[d + 1..];
    }
  }

  // ===========================================================================
  // The whole run
  // ===========================================================================

  lemma {:induction false} ColumnUnique(codes: Dict<nat, string>, ct: string, cells: seq<Cell>, i: nat, mark: Cell -> Option<Mark>)
    requires i <= |cells| && Unique(codes)
    requires ColumnFrom(codes, ct, cells, i, mark).Some?
    ensures Unique(ColumnFrom(codes, ct, cells, i, mark).value)
    decreases |cells| - i
  {
    if i < |cells| {
      var m := mark(cells[i]).value;
      if m != Absent {
        PutUnique(codes, cells[i].row, Get(codes, cells[i].row).GetOr("") + Part(ct, m));
      }
      ColumnUnique(if m == Absent then codes else Append(codes, cells[i].row, Part(ct, m)), ct, cells, i + 1, mark);
    }
  }

  lemma {:induction false} CodesUnique(codes: Dict<nat, string>, cols: seq<(string, seq<Cell>)>, k: nat, marks: Marks)
    requires k <= |cols| && Unique(codes)
    requires CodesFrom(codes, cols, k, marks).Some?
    ensures Unique(CodesFrom(codes, cols, k, marks).value)
    decreases |cols| - k
  {
    if k < |cols| {
      ColumnUnique(codes, cols[k].0, cols[k].1, 0, marks(cols[k].0));
      CodesUnique(ColumnFrom(codes, cols[k].0, cols[k].1, 0, marks(cols[k].0)).value, cols, k + 1, marks);
    }
  }

  /** Every recommendation belongs to a row of the dictionary and carries its
      cells; every row that `table` does not skip gets one. */
  lemma {:induction false} RecommendFromRows(codes: Dict<nat, string>, i: nat, ids: Option<nat -> (string, string)>,
                                             table: string -> Option<Advice>)
    requires i <= |codes| && Unique(codes)
    ensures forall r :: r in RecommendFrom(codes, i, ids, table) ==>
      Has(codes, r.row) && table(Get(codes, r.row).value) == Some(r.advice) && r.cloneId == CloneId(r.row, ids)
    ensures forall j :: i <= j < |codes| && table(codes[j].1).Some? ==>
      exists r :: r in RecommendFrom(codes, i, ids, table) && r.row == codes[j].0
    decreases |codes| - i
  {
    if i < |codes| {
      RecommendFromRows(codes, i + 1, ids, table);
      GetAt(codes, i);
      var a := table(codes[i].1);
      if a.Some? {
        var head := Recommendation(codes[i].0, a.value, CloneId(codes[i].0, ids));
        assert RecommendFrom(codes, i, ids, table) == [head] + RecommendFrom(codes, i + 1, ids, table);
        assert head in RecommendFrom(codes, i, ids, table);
      }
    }
  }

  /** The marks of a row's heavy, kappa and lambda cells. */
  function RowMarks(heavy: Option<seq<Cell>>, kappa: Option<seq<Cell>>, lambda: Option<seq<Cell>>, e: Env, row: nat): (Mark, Mark, Mark) {
    (ColumnMark(heavy, "H", row, e), ColumnMark(kappa, "K", row, e), ColumnMark(lambda, "L", row, e))
  }

  /** The code a row is given from the marks of its cells. */
  function RowCodeOf(heavy: Option<seq<Cell>>, kappa: Option<seq<Cell>>, lambda: Option<seq<Cell>>, e: Env, row: nat): string {
    var m := RowMarks(heavy, kappa, lambda, e, row);
    Code(m.0, m.1, m.2)
  }

  /** The advice a row is meant to get from the marks of its cells. */
  function RowAdvice(heavy: Option<seq<Cell>>, kappa: Option<seq<Cell>>, lambda: Option<seq<Cell>>, e: Env, row: nat): Option<Advice> {
    var m := RowMarks(heavy, kappa, lambda, e, row);
    Intended(m.0, m.1, m.2)
  }

  /** A run with any table: it ends normally only with all three key
      ranges; every recommendation is the table's cells for its row's code,
      with the clone ID exactly when identifiers are configured; with a
      cloning range, every row whose code the table does not skip gets one. */
  lemma RunRows(heavy: Option<seq<Cell>>, kappa: Option<seq<Cell>>, lambda: Option<seq<Cell>>, e: Env,
                table: string -> Option<Advice>, rs: seq<Recommendation>)
    requires heavy.Some? ==> DistinctRows(heavy.value)
    requires kappa.Some? ==> DistinctRows(kappa.value)
    requires lambda.Some? ==> DistinctRows(lambda.value)
    requires table("").None?
    requires RunWith(heavy, kappa, lambda, e, table) == Some(rs)
    ensures e.o.allKeys
    ensures forall r :: r in rs ==>
      table(RowCodeOf(heavy, kappa, lambda, e, r.row)) == Some(r.advice) && r.cloneId == CloneId(r.row, e.o.ids)
    ensures forall row: nat :: e.o.cloningKeys && table(RowCodeOf(heavy, kappa, lambda, e, row)).Some? ==>
      exists r :: r in rs && r.row == row
  {
    var cols := Columns(heavy, kappa, lambda);
    var codes := CodesFrom([], cols, 0, Markers(e)).value;
    CodesUnique([], cols, 0, Markers(e));
    if e.o.cloningKeys {
      RecommendFromRows(codes, 0, e.o.ids, table);
      forall r | r in rs
        ensures table(RowCodeOf(heavy, kappa, lambda, e, r.row)) == Some(r.advice)
      {
        RowCode(heavy, kappa, lambda, e, r.row);
      }
      forall row: nat | table(RowCodeOf(heavy, kappa, lambda, e, row)).Some?
        ensures exists r :: r in rs && r.row == row
      {
        RowCode(heavy, kappa, lambda, e, row);
        HasAt(codes, row);
        var j :| 0 <= j < |codes| && codes[j].0 == row;
        GetAt(codes, j);
      }
    }
  }

  /** The run as written: with one cell per row in each column, every
      recommendation is the intended advice of its row, except that a row
      with a non-functional heavy, a functional kappa and a non-functional
      lambda chain is told to clone `HKL` with `H*` non-functional; the clone
      ID is there exactly when identifiers are configured; every row meant
      to be cloned gets a recommendation when a cloning range is given; and
      the program stops unless all three key ranges are set. */
  lemma RunMeaning(heavy: Option<seq<Cell>>, kappa: Option<seq<Cell>>, lambda: Option<seq<Cell>>, e: Env,
                   rs: seq<Recommendation>)
    requires heavy.Some? ==> DistinctRows(heavy.value)
    requires kappa.Some? ==> DistinctRows(kappa.value)
    requires lambda.Some? ==> DistinctRows(lambda.value)
    requires RunOf(heavy, kappa, lambda, e) == Some(rs)
    ensures e.o.allKeys
    ensures forall r :: r in rs ==>
      Some(r.advice) == (if RowMarks(heavy, kappa, lambda, e, r.row) == (NonFunctional, Functional, NonFunctional)
                         then Some(Advice("HKL", Some("H*")))
                         else RowAdvice(heavy, kappa, lambda, e, r.row)) &&
      r.cloneId == CloneId(r.row, e.o.ids)
    ensures forall row: nat :: e.o.cloningKeys && RowAdvice(heavy, kappa, lambda, e, row).Some? ==>
      exists r :: r in rs && r.row == row
  {
    assert Find("", "H") == -1;
    RunRows(heavy, kappa, lambda, e, AdviceAsWritten, rs);
    forall row: nat
      ensures AdviceAsWritten(RowCodeOf(heavy, kappa, lambda, e, row)) ==
        (if RowMarks(heavy, kappa, lambda, e, row) == (NonFunctional, Functional, NonFunctional)
         then Some(Advice("HKL", Some("H*")))
         else RowAdvice(heavy, kappa, lambda, e, row))
    {
      var m := RowMarks(heavy, kappa, lambda, e, row);
      if m == (NonFunctional, Functional, NonFunctional) {
        AsWrittenClonesLambda();
      } else {
        AsWrittenAgrees(m.0, m.1, m.2);
        AdviceMeaning(m.0, m.1, m.2);
      }
    }
  }

  /** The corrected run: every recommendation is the intended advice of its
      row, with its clone ID, and every row meant to be cloned gets one. */
  lemma CorrectedRunMeaning(heavy: Option<seq<Cell>>, kappa: Option<seq<Cell>>, lambda: Option<seq<Cell>>, e: Env,
                            rs: seq<Recommendation>)
    requires heavy.Some? ==> DistinctRows(heavy.value)
    requires kappa.Some? ==> DistinctRows(kappa.value)
    requires lambda.Some? ==> DistinctRows(lambda.value)
    requires CorrectedRunOf(heavy, kappa, lambda, e) == Some(rs)
    ensures e.o.allKeys
    ensures forall r :: r in rs ==>
      RowAdvice(heavy, kappa, lambda, e, r.row) == Some(r.advice) && r.cloneId == CloneId(r.row, e.o.ids)
    ensures forall row: nat :: e.o.cloningKeys && RowAdvice(heavy, kappa, lambda, e, row).Some? ==>
      exists r :: r in rs && r.row == row
  {
    assert Find("", "H") == -1;
    RunRows(heavy, kappa, lambda, e, AdviceOf, rs);
    forall row: nat
      ensures AdviceOf(RowCodeOf(heavy, kappa, lambda, e, row)) == RowAdvice(heavy, kappa, lambda, e, row)
    {
      var m := RowMarks(heavy, kappa, lambda, e, row);
      AdviceMeaning(m.0, m.1, m.2);
    }
  }

  /** `cloning_mAbs[row] += piece`, or `cloning_mAbs[row] = piece` when the
      row has no entry yet. */
  method AddPart(codes: Dict<nat, string>, row: nat, piece: string) returns (r: Dict<nat, string>)
    ensures r == Append(codes, row, piece)
  {
    if Has(codes, row) {
      r := Put(codes, row, Get(codes, row).value + piece);
    } else {
      assert "" + piece == piece;
      r := Put(codes, row, piece);
    }
  }

  /** The cells of one column, in order; `None` when one of them ends the
      program. */
  method CollectColumn(codes: Dict<nat, string>, ct: string, cells: seq<Cell>, e: Env) returns (r: Option<Dict<nat, string>>)
    ensures r == ColumnFrom(codes, ct, cells, 0, Marker(ct, e))
  {
    var c := codes;
    var i := 0;
    while i < |cells|
      invariant i <= |cells|
      invariant ColumnFrom(c, ct, cells, i, Marker(ct, e)) == ColumnFrom(codes, ct, cells, 0, Marker(ct, e))
    {
      var m := CellMark(cells[i], ct, e.o, e.load, e.t, e.showFloat);
      if m.None? {
        return None;
      }
      if m.value != Absent {
        c := AddPart(c, cells[i].row, Part(ct, m.value));
      }
      i := i + 1;
    }
    return Some(c);
  }

  /** The first loop: the columns in order. */
  method CollectCodes(cols: seq<(string, seq<Cell>)>, e: Env) returns (r: Option<Dict<nat, string>>)
    ensures r == CodesFrom([], cols, 0, Markers(e))
  {
    var codes: Dict<nat, string> := [];
    var k := 0;
    while k < |cols|
      invariant k <= |cols|
      invariant CodesFrom(codes, cols, k, Markers(e)) == CodesFrom([], cols, 0, Markers(e))
    {
      var c := CollectColumn(codes, cols[k].0, cols[k].1, e);
      if c.None? {
        return None;
      }
      codes := c.value;
      k := k + 1;
    }
    return Some(codes);
  }

  /** The rewriting of a code that is cloned and the two cells written
      for it. */
  method Advise(code: string) returns (rewritten: string, a: Advice)
    requires !Skipped(code)
    ensures rewritten == RewriteAsWritten(code) && a == Cells(rewritten)
  {
    rewritten := code;
    if rewritten == "HK*L" {
      rewritten := "HL";
    } else if rewritten == "HKL*" {
      rewritten := "HK";
    } else if rewritten == "H*K*L" {
      rewritten := "H*L";
    }
    // An `H*KL*` code is compared with `H*K` and kept as it is.
    var nonFunctional: Option<string> := None;
    if rewritten == "HK*L*" {
      nonFunctional := Some("K*L*");
    } else {
      var k := Find(rewritten, "*");
      if k != -1 {
        nonFunctional := Some([At(rewritten, k - 1).value, '*']);
      }
    }
    a := Advice(Replace(rewritten, "*", ""), nonFunctional);
  }

  /** The code a row is left with after the second loop. */
  function Rewritten(code: string): string {
    if Skipped(code) then code else RewriteAsWritten(code)
  }

  /** One row of the second loop: its code after the loop, and what is
      written for it. */
  method RecommendRow(entry: (nat, string), ids: Option<nat -> (string, string)>)
    returns (code: string, written: seq<Recommendation>)
    ensures code == Rewritten(entry.1) && written == RowRecommendation(entry, ids, AdviceAsWritten)
  {
    code, written := entry.1, [];
    if !Skipped(code) {
      var a;
      code, a := Advise(code);
      written := [Recommendation(entry.0, a, CloneId(entry.0, ids))];
    }
  }

  /** The second loop: the code of each row that is not skipped is
      rewritten in place and its cells are written. */
  method Recommend(codes: Dict<nat, string>, ids: Option<nat -> (string, string)>)
    returns (rewritten: Dict<nat, string>, rs: seq<Recommendation>)
    ensures rs == RecommendFrom(codes, 0, ids, AdviceAsWritten)
    ensures |rewritten| == |codes|
    ensures forall j :: 0 <= j < |codes| ==>
      rewritten[j] == (codes[j].0, Rewritten(codes[j].1))
  {
    rewritten, rs := codes, [];
    var i := 0;
    while i < |codes|
      invariant i <= |codes| && |rewritten| == |codes|
      invariant forall j :: 0 <= j < i ==>
        rewritten[j] == (codes[j].0, Rewritten(codes[j].1))
      invariant forall j :: i <= j < |codes| ==> rewritten[j] == codes[j]
      invariant RecommendFrom(codes, 0, ids, AdviceAsWritten) == rs + RecommendFrom(codes, i, ids, AdviceAsWritten)
    {
      var code, written := RecommendRow(codes[i], ids);
      rewritten := rewritten[i := (codes[i].0, code)];
      rs := rs + written;
      i := i + 1;
    }
  }

  /** The accumulation, the check of the key options and the
      recommendation, in the order the script runs them. */
  method Run(heavy: Option<seq<Cell>>, kappa: Option<seq<Cell>>, lambda: Option<seq<Cell>>, e: Env)
    returns (r: Option<seq<Recommendation>>)
    ensures r == RunOf(heavy, kappa, lambda, e)
  {
    var codes := CollectCodes(Columns(heavy, kappa, lambda), e);
    if codes.None? || !e.o.allKeys {
      return None;
    }
    if !e.o.cloningKeys {
      return Some([]);
    }
    var _, rs := Recommend(codes.value, e.o.ids);
    return Some(rs);
  }
}
