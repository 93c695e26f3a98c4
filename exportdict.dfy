/** `exportDict`: the spreadsheet row made from one parsed read. It is an
    insertion-ordered dictionary from column name to cell; the order of the
    keys is the order in which the constructor first writes them. */
module ExportDicts {
  import opened Wrappers
  import opened PyStr
  import opened Dict
  import opened PyValue
  import opened IgBlastParser
  import opened SequenceFiles

  type Export = Dict<string, Value>

  /** The tables of `libBASE.primer`: for each chain, the 5' primer of a V
      gene and the 3' primer of a J gene, by gene name. */
  datatype PrimerTables = PrimerTables(
    ighv: Dict<string, string>, ighj: Dict<string, string>,
    igkv: Dict<string, string>, igkj: Dict<string, string>,
    iglv: Dict<string, string>, iglj: Dict<string, string>)

  // ===========================================================================
  // The cells
  // ===========================================================================

  /** The read's name: the file name up to its first dot. */
  function SeqId(filename: string): string {
    SplitOn(filename, '.')[0]
  }

  /** The four columns every row has, whether or not the read was parsed. */
  function Head(s: ReadState): Export {
    var d := Put([], "Seq_ID", StrV(SeqId(s.filename)));
    var d := Put(d, "QV", IntV(s.meanPhredQuality));
    var d := Put(d, "RL", StrV(NatToString(s.length)));
    Put(d, "Confirmation", StrV("NO"))
  }

  /** The segments whose top gene call is exported, in the order written. */
  const Segments: seq<string> := ["v", "d", "j"]

  /** `BlastedOutputDict['top_' + seg]`. */
  function TopOf(b: BlastedOutput, seg: string): Field {
    if seg == "v" then b.topV else if seg == "d" then b.topD else b.topJ
  }

  /** The column of a gene call, which is also the prefix removed from it:
      `IGHV` for the V gene of a heavy chain. */
  function GeneKey(ct: string, seg: string): string {
    "IG" + Upper(ct) + Upper(seg)
  }

  /** A gene call with every occurrence of its prefix removed; `None` is the
      `IndexError` of an empty list of calls. */
  function GeneCall(top: Field, key: string): Option<Value>
    requires key != []
  {
    match top
    case Text(t) => Some(StrV(Replace(t, key, "")))
    case Tuple(items) => if items == [] then None else Some(StrV(Replace(items[0], key, "")))
  }

  /** The gene-call columns for the remaining segments `segs`. */
  function CallsFrom(d: Export, b: BlastedOutput, ct: string, segs: seq<string>): Option<Export>
    decreases |segs|
  {
    if segs == [] then Some(d)
    else
      var key := GeneKey(ct, segs[0]);
      match GeneCall(TopOf(b, segs[0]), key)
      case None => None
      case Some(v) => CallsFrom(Put(d, key, v), b, ct, segs[1..])
  }

  /** `CDR3L`: empty when IgBLAST reported no CDR3, else its length. */
  function Cdr3Length(cdr3: string): Value {
    if cdr3 == "N/A" then StrV("") else IntV(|cdr3|)
  }

  /** The CDR3 columns; a heavy chain also has `CDR3 IGHV`. */
  function Cdr3Stage(d: Export, ct: string, cdr3: string): Export {
    if ct == "H" then Put(Put(Put(d, "CDR3 IGHV", StrV(cdr3)), "CDR3", StrV(cdr3)), "CDR3L", Cdr3Length(cdr3))
    else Put(Put(d, "CDR3", StrV(cdr3)), "CDR3L", Cdr3Length(cdr3))
  }

  /** `SHM`: the mismatches of the `total` alignment row, followed by the
      gaps when there are any; `N/A` when a cell is missing. The gap count is
      compared with `is not 0`, which for CPython's cached small integers is
      `!= 0` on an integer and holds for every other value. */
  function Shm(summaries: Dict<string, Dict<string, Value>>, showFloat: real -> string): Value {
    match Get(summaries, "total")
    case None => StrV("N/A")
    case Some(row) =>
      match Get(row, "mismatches")
      case None => StrV("N/A")
      case Some(m) =>
        match Get(row, "gaps")
        case None => StrV("N/A")
        case Some(g) =>
          if g == IntV(0) then m
          else StrV(Str(m, showFloat) + " (+" + Str(g, showFloat) + " gaps)")
  }

  /** The SHM column and its two copies. */
  function ShmStage(d: Export, ct: string, shm: Value): Export {
    Put(Put(Put(d, "SHM", shm), "SHM IG" + Upper(ct) + "V", shm), "SHM IGV" + Upper(ct), shm)
  }

  /** `Function`: `Y` for a productive rearrangement. */
  function FunctionOf(productive: Field): string {
    if productive == Text("Yes") then "Y" else "N"
  }

  /** The primer cell when the gene is not in the table: empty for a
      non-productive read. */
  function NoPrimer(fn: string): string {
    if fn == "N" then "" else "Primer not yet included"
  }

  /** `table[d[key]]`, falling back to `NoPrimer` on a `KeyError`. */
  function PrimerCell(table: Dict<string, string>, d: Export, key: string, fn: string): Value {
    var gene := Get(d, key);
    if gene.Some? && gene.value.StrV? && Get(table, gene.value.s).Some? then StrV(Get(table, gene.value.s).value)
    else StrV(NoPrimer(fn))
  }

  /** The 5' primer cell of the chain; `None` for a chain other than H, K or L,
      which gets no primer columns. */
  function FivePrimer(d: Export, ct: string, t: PrimerTables, fn: string): Option<Value> {
    if ct == "H" then Some(PrimerCell(t.ighv, d, "IGHV", fn))
    else if ct == "K" then Some(PrimerCell(t.igkv, d, "IGKV", fn))
    else if ct == "L" then Some(PrimerCell(t.iglv, d, "IGLV", fn))
    else None
  }

  function ThreePrimer(d: Export, ct: string, t: PrimerTables, fn: string): Option<Value> {
    if ct == "H" then Some(PrimerCell(t.ighj, d, "IGHJ", fn))
    else if ct == "K" then Some(PrimerCell(t.igkj, d, "IGKJ", fn))
    else if ct == "L" then Some(PrimerCell(t.iglj, d, "IGLJ", fn))
    else None
  }

  /** Writes `v` under `k` when there is a value to write. */
  function PutSome(d: Export, k: string, v: Option<Value>): Export {
    if v.Some? then Put(d, k, v.value) else d
  }

  function PrimerStage(d: Export, ct: string, t: PrimerTables, fn: string): Export {
    var d1 := PutSome(d, "5' Primer", FivePrimer(d, ct, t, fn));
    PutSome(d1, "3' Primer", ThreePrimer(d1, ct, t, fn))
  }

  /** The restriction sites looked for in the read, in this order. */
  const RestrictionMotifs: seq<(string, string)> :=
    [("AgeI", "ACCGGT"), ("BsiWI", "CGTACG"), ("XhoI", "CTCGAG"), ("SalI", "GTCGAC")]

  /** An AgeI site that belongs to a primer: late in the read and followed by
      TGC (heavy chain: after 385 for IgM, after 430 otherwise) or by AGC
      (lambda chain, after 330). */
  predicate AgeIInPrimer(read: string, motif: string, pos: int, ct: string, subClass: Option<string>) {
    (ct == "H" && subClass == Some("IgM") && 385 < pos && pos == Find(read, motif + "TGC")) ||
    (ct == "H" && subClass != Some("IgM") && 430 < pos && pos == Find(read, motif + "TGC")) ||
    (ct == "L" && 330 < pos && pos == Find(read, motif + "AGC"))
  }

  /** The cell of one restriction site: `N` when the read does not contain
      it, else `Y(pos)` at its first position, `Y(P,pos)` for an AgeI site in
      a primer. */
  function MotifCell(read: string, name: string, motif: string, ct: string, subClass: Option<string>): string {
    var pos := Find(read, motif);
    if pos == -1 then "N"
    else if name == "AgeI" && AgeIInPrimer(read, motif, pos, ct, subClass) then "Y(P," + IntToString(pos) + ")"
    else "Y(" + IntToString(pos) + ")"
  }

  /** The restriction-site columns for the remaining sites `ms`. */
  function MotifsFrom(d: Export, read: string, ct: string, subClass: Option<string>, ms: seq<(string, string)>): Export
    decreases |ms|
  {
    if ms == [] then d
    else MotifsFrom(Put(d, ms[0].0, StrV(MotifCell(read, ms[0].0, ms[0].1, ct, subClass))), read, ct, subClass, ms[1..])
  }

  /** Everything after the subclass column. */
  function Filled(d: Export, s: ReadState, b: BlastedOutput, ct: string, t: PrimerTables, showFloat: real -> string): Export {
    var f := FunctionOf(b.productive);
    var d1 := Put(ShmStage(Cdr3Stage(d, ct, b.cdr3TranslatedSequence), ct, Shm(b.alignmentSummaries, showFloat)),
                  "Function", StrV(f));
    MotifsFrom(PrimerStage(d1, ct, t, f), s.read, ct, s.igSubClass, RestrictionMotifs)
  }

  /** The row `exportDict(parsed_sequence)` builds; `None` when the
      constructor raises (no chain type, an empty list of gene calls, or a
      heavy chain without a subclass). A read that was not parsed or not
      blasted gets only the four head columns. */
  function ExportOf(s: ReadState, t: PrimerTables, showFloat: real -> string): Option<Export> {
    var d0 := Head(s);
    if !s.successfullyParsed || s.blasted.None? then Some(d0)
    else if s.chainType.None? then None
    else BlastedRow(d0, s, s.blasted.value, s.chainType.value, t, showFloat)
  }

  /** The columns of a blasted read after the head `d`. */
  function BlastedRow(d: Export, s: ReadState, b: BlastedOutput, ct: string, t: PrimerTables, showFloat: real -> string): Option<Export> {
    var calls := CallsFrom(d, b, ct, Segments);
    if calls.None? || (ct == "H" && s.igSubClass.None?) then None
    else
      var d1 := if ct == "H" then Put(calls.value, "IgSC", StrV(s.igSubClass.value)) else calls.value;
      Some(Filled(d1, s, b, ct, t, showFloat))
  }

  // ===========================================================================
  // Properties
  // ===========================================================================

  /** The read's name has no dot and is where the file name starts; the file
      name goes on with a dot when it is longer. */
  lemma SeqIdStem(filename: string)
    ensures '.' !in SeqId(filename)
    ensures |SeqId(filename)| <= |filename| && filename[..|SeqId(filename)|] == SeqId(filename)
    ensures |SeqId(filename)| < |filename| ==> filename[|SeqId(filename)|] == '.'
  {
    SplitOnFirst(filename, '.');
    SplitOnPieces(filename, '.');
  }

  /** The head columns, in order. */
  lemma HeadCells(s: ReadState)
    ensures Keys(Head(s)) == ["Seq_ID", "QV", "RL", "Confirmation"]
    ensures Get(Head(s), "Seq_ID") == Some(StrV(SeqId(s.filename)))
    ensures Get(Head(s), "QV") == Some(IntV(s.meanPhredQuality))
    ensures Get(Head(s), "RL") == Some(StrV(NatToString(s.length)))
    ensures Get(Head(s), "Confirmation") == Some(StrV("NO"))
  {
    var e1, e2, e3, e4 := ("Seq_ID", StrV(SeqId(s.filename))), ("QV", IntV(s.meanPhredQuality)),
      ("RL", StrV(NatToString(s.length))), ("Confirmation", StrV("NO"));
    PutNew([], e1.0, e1.1);
    PutNew([e1], e2.0, e2.1);
    PutNew([e1, e2], e3.0, e3.1);
    PutNew([e1, e2, e3], e4.0, e4.1);
    var h := [e1, e2, e3, e4];
    assert Head(s) == h;
    assert Unique(h);
    assert Keys(h) == [h[0].0] + Keys(h[1..]);
    assert Keys(h[1..]) == [h[1].0] + Keys(h[2..]);
    assert Keys(h[2..]) == [h[2].0] + Keys(h[3..]);
    GetAt(h, 0);
    GetAt(h, 1);
    GetAt(h, 2);
    GetAt(h, 3);
  }

  /** A read that was not parsed, or not blasted, is exported with the four
      head columns only. */
  lemma UnparsedHeadOnly(s: ReadState, t: PrimerTables, showFloat: real -> string)
    requires !s.successfullyParsed || s.blasted.None?
    ensures ExportOf(s, t, showFloat).Some?
    ensures Keys(ExportOf(s, t, showFloat).value) == ["Seq_ID", "QV", "RL", "Confirmation"]
  {
    HeadCells(s);
  }

  /** The constructor raises exactly when the read was parsed and blasted
      but has no chain type, one of its top gene calls is an empty list, or
      it is a heavy chain without a subclass. */
  lemma ExportRaises(s: ReadState, t: PrimerTables, showFloat: real -> string)
    ensures ExportOf(s, t, showFloat).None? <==>
      s.successfullyParsed && s.blasted.Some? &&
      (s.chainType.None? ||
       (exists seg :: seg in Segments && TopOf(s.blasted.value, seg) == Tuple([])) ||
       (s.chainType.value == "H" && s.igSubClass.None?))
  {
    if s.successfullyParsed && s.blasted.Some? && s.chainType.Some? {
      var b := s.blasted.value;
      var ct := s.chainType.value;
      CallsRaise(Head(s), b, ct, Segments);
    }
  }

  /** The gene-call stage raises exactly when one of the remaining segments
      has an empty list of calls. */
  lemma {:induction false} CallsRaise(d: Export, b: BlastedOutput, ct: string, segs: seq<string>)
    ensures CallsFrom(d, b, ct, segs).None? <==> exists seg :: seg in segs && TopOf(b, seg) == Tuple([])
    decreases |segs|
  {
    if segs != [] {
      var key := GeneKey(ct, segs[0]);
      var c := GeneCall(TopOf(b, segs[0]), key);
      if c.Some? {
        CallsRaise(Put(d, key, c.value), b, ct, segs[1..]);
        assert forall seg :: seg in segs <==> seg == segs[0] || seg in segs[1..];
      }
    }
  }

  /** The columns that hold gene calls begin with `IG`; no other column does. */
  predicate IsGeneKey(k: string) {
    |k| >= 2 && k[0] == 'I' && k[1] == 'G'
  }

  /** Two texts that differ at one index differ. */
  lemma DifferAt(a: string, b: string, i: nat)
    requires i < |a| && i < |b| && a[i] != b[i]
    ensures a != b
  {
  }

  /** No column written after the gene calls holds a gene call. */
  lemma {:induction false} MotifsKeepOthers(d: Export, read: string, ct: string, subClass: Option<string>,
                                            ms: seq<(string, string)>, k: string)
    requires forall i :: 0 <= i < |ms| ==> ms[i].0 != k
    ensures Get(MotifsFrom(d, read, ct, subClass, ms), k) == Get(d, k)
    decreases |ms|
  {
    if ms != [] {
      var v := StrV(MotifCell(read, ms[0].0, ms[0].1, ct, subClass));
      MotifsKeepOthers(Put(d, ms[0].0, v), read, ct, subClass, ms[1..], k);
      GetPutOther(d, ms[0].0, v, k);
    }
  }

  /** Each restriction-site column holds the cell of its own site. */
  lemma {:induction false} MotifsCell(d: Export, read: string, ct: string, subClass: Option<string>,
                                     ms: seq<(string, string)>, i: nat)
    requires i < |ms|
    requires forall j :: i < j < |ms| ==> ms[j].0 != ms[i].0
    ensures Get(MotifsFrom(d, read, ct, subClass, ms), ms[i].0) == Some(StrV(MotifCell(read, ms[i].0, ms[i].1, ct, subClass)))
    decreases |ms|
  {
    var v := StrV(MotifCell(read, ms[0].0, ms[0].1, ct, subClass));
    if i == 0 {
      MotifsKeepOthers(Put(d, ms[0].0, v), read, ct, subClass, ms[1..], ms[0].0);
      GetPutSame(d, ms[0].0, v);
    } else {
      MotifsCell(Put(d, ms[0].0, v), read, ct, subClass, ms[1..], i - 1);
    }
  }

  /** The columns written after `SHM`. */
  predicate IsLateKey(k: string) {
    k == "Function" || k == "5' Primer" || k == "3' Primer" ||
    k == "AgeI" || k == "BsiWI" || k == "XhoI" || k == "SalI"
  }

  /** The primer and restriction-site stages leave every other column alone. */
  lemma LateKeeps(d: Export, read: string, ct: string, subClass: Option<string>, t: PrimerTables, fn: string, k: string)
    requires k != "5' Primer" && k != "3' Primer" && k != "AgeI" && k != "BsiWI" && k != "XhoI" && k != "SalI"
    ensures Get(MotifsFrom(PrimerStage(d, ct, t, fn), read, ct, subClass, RestrictionMotifs), k) == Get(d, k)
  {
    var p1 := PutSome(d, "5' Primer", FivePrimer(d, ct, t, fn));
    if FivePrimer(d, ct, t, fn).Some? {
      GetPutOther(d, "5' Primer", FivePrimer(d, ct, t, fn).value, k);
    }
    if ThreePrimer(p1, ct, t, fn).Some? {
      GetPutOther(p1, "3' Primer", ThreePrimer(p1, ct, t, fn).value, k);
    }
    MotifsKeepOthers(PrimerStage(d, ct, t, fn), read, ct, subClass, RestrictionMotifs, k);
  }

  /** The CDR3, SHM and Function columns are not gene-call columns. */
  lemma EarlyKeepsCalls(d: Export, ct: string, cdr3: string, shm: Value, fn: string, k: string)
    requires IsGeneKey(k)
    ensures Get(Put(ShmStage(Cdr3Stage(d, ct, cdr3), ct, shm), "Function", StrV(fn)), k) == Get(d, k)
  {
    if ct == "H" {
      GetPutOther(d, "CDR3 IGHV", StrV(cdr3), k);
      GetPutOther(Put(d, "CDR3 IGHV", StrV(cdr3)), "CDR3", StrV(cdr3), k);
      GetPutOther(Put(Put(d, "CDR3 IGHV", StrV(cdr3)), "CDR3", StrV(cdr3)), "CDR3L", Cdr3Length(cdr3), k);
    } else {
      GetPutOther(d, "CDR3", StrV(cdr3), k);
      GetPutOther(Put(d, "CDR3", StrV(cdr3)), "CDR3L", Cdr3Length(cdr3), k);
    }
    var c := Cdr3Stage(d, ct, cdr3);
    var k1 := "SHM IG" + Upper(ct) + "V";
    var k2 := "SHM IGV" + Upper(ct);
    DifferAt(k, k1, 0);
    DifferAt(k, k2, 0);
    GetPutOther(c, "SHM", shm, k);
    GetPutOther(Put(c, "SHM", shm), k1, shm, k);
    GetPutOther(Put(Put(c, "SHM", shm), k1, shm), k2, shm, k);
    GetPutOther(ShmStage(c, ct, shm), "Function", StrV(fn), k);
  }

  /** A gene-call column is none of the late columns. */
  lemma GeneKeyNotLate(k: string)
    requires IsGeneKey(k)
    ensures !IsLateKey(k)
  {
  }

  /** The gene-call columns of the remaining segments: each holds the call of
      its own segment. */
  lemma {:induction false} CallsCell(d: Export, b: BlastedOutput, ct: string, segs: seq<string>, i: nat)
    requires i < |segs| && CallsFrom(d, b, ct, segs).Some?
    requires forall j :: i < j < |segs| ==> GeneKey(ct, segs[j]) != GeneKey(ct, segs[i])
    ensures Get(CallsFrom(d, b, ct, segs).value, GeneKey(ct, segs[i])) == GeneCall(TopOf(b, segs[i]), GeneKey(ct, segs[i]))
    decreases |segs|
  {
    var key := GeneKey(ct, segs[0]);
    var v := GeneCall(TopOf(b, segs[0]), key).value;
    if i == 0 {
      CallsKeepOthers(Put(d, key, v), b, ct, segs[1..], key);
      GetPutSame(d, key, v);
    } else {
      CallsCell(Put(d, key, v), b, ct, segs[1..], i - 1);
    }
  }

  lemma {:induction false} CallsKeepOthers(d: Export, b: BlastedOutput, ct: string, segs: seq<string>, k: string)
    requires CallsFrom(d, b, ct, segs).Some?
    requires forall j :: 0 <= j < |segs| ==> GeneKey(ct, segs[j]) != k
    ensures Get(CallsFrom(d, b, ct, segs).value, k) == Get(d, k)
    decreases |segs|
  {
    if segs != [] {
      var key := GeneKey(ct, segs[0]);
      var v := GeneCall(TopOf(b, segs[0]), key).value;
      CallsKeepOthers(Put(d, key, v), b, ct, segs[1..], k);
      GetPutOther(d, key, v, k);
    }
  }

  /** The V, D and J columns are three different columns. */
  lemma GeneKeysDistinct(ct: string)
    ensures forall i, j :: 0 <= i < j < |Segments| ==> GeneKey(ct, Segments[i]) != GeneKey(ct, Segments[j])
  {
    var n := |ct| + 2;
    assert GeneKey(ct, "v")[n] == 'V' && GeneKey(ct, "d")[n] == 'D' && GeneKey(ct, "j")[n] == 'J';
    DifferAt(GeneKey(ct, "v"), GeneKey(ct, "d"), n);
    DifferAt(GeneKey(ct, "v"), GeneKey(ct, "j"), n);
    DifferAt(GeneKey(ct, "d"), GeneKey(ct, "j"), n);
  }

  /** The row of a parsed read, split into its stages. */
  lemma ExportStages(s: ReadState, t: PrimerTables, showFloat: real -> string)
    requires ExportOf(s, t, showFloat).Some? && s.successfullyParsed && s.blasted.Some?
    ensures s.chainType.Some? && CallsFrom(Head(s), s.blasted.value, s.chainType.value, Segments).Some?
    ensures var ct := s.chainType.value;
      var calls := CallsFrom(Head(s), s.blasted.value, ct, Segments).value;
      (ct == "H" ==> s.igSubClass.Some?) &&
      ExportOf(s, t, showFloat).value ==
        Filled(if ct == "H" then Put(calls, "IgSC", StrV(s.igSubClass.value)) else calls,
               s, s.blasted.value, ct, t, showFloat)
  {
  }

  /** Gene-call columns: with chain type `ct`, the column `IG` + CT + segment
      holds the top call of that segment (the first one when there are
      several) with every occurrence of the column name removed. */
  lemma ExportGeneCall(s: ReadState, t: PrimerTables, showFloat: real -> string, seg: string)
    requires ExportOf(s, t, showFloat).Some? && s.successfullyParsed && s.blasted.Some?
    requires seg in Segments
    ensures s.chainType.Some?
    ensures var key := GeneKey(s.chainType.value, seg);
      Get(ExportOf(s, t, showFloat).value, key) == GeneCall(TopOf(s.blasted.value, seg), key)
  {
    ExportKeepsCall(s, t, showFloat, seg);
    GeneKeysDistinct(s.chainType.value);
    var i :| 0 <= i < |Segments| && Segments[i] == seg;
    CallsCell(Head(s), s.blasted.value, s.chainType.value, Segments, i);
  }

  /** The stages after the gene calls leave the gene-call columns alone. */
  lemma ExportKeepsCall(s: ReadState, t: PrimerTables, showFloat: real -> string, seg: string)
    requires ExportOf(s, t, showFloat).Some? && s.successfullyParsed && s.blasted.Some?
    requires seg in Segments
    ensures s.chainType.Some? && CallsFrom(Head(s), s.blasted.value, s.chainType.value, Segments).Some?
    ensures var key := GeneKey(s.chainType.value, seg);
      Get(ExportOf(s, t, showFloat).value, key) ==
      Get(CallsFrom(Head(s), s.blasted.value, s.chainType.value, Segments).value, key)
  {
    ExportStages(s, t, showFloat);
    var b := s.blasted.value;
    var ct := s.chainType.value;
    var key := GeneKey(ct, seg);
    var calls := CallsFrom(Head(s), b, ct, Segments).value;
    var d1 := if ct == "H" then Put(calls, "IgSC", StrV(s.igSubClass.value)) else calls;
    if ct == "H" {
      DifferAt(key, "IgSC", 1);
      GetPutOther(calls, "IgSC", StrV(s.igSubClass.value), key);
    }
    FilledKeepsCall(d1, s, b, ct, t, showFloat, key);
  }

  /** The columns after the gene calls are not gene-call columns. */
  lemma FilledKeepsCall(d: Export, s: ReadState, b: BlastedOutput, ct: string, t: PrimerTables, showFloat: real -> string,
                        key: string)
    requires IsGeneKey(key)
    ensures Get(Filled(d, s, b, ct, t, showFloat), key) == Get(d, key)
  {
    var f := FunctionOf(b.productive);
    var shm := Shm(b.alignmentSummaries, showFloat);
    EarlyKeepsCalls(d, ct, b.cdr3TranslatedSequence, shm, f, key);
    GeneKeyNotLate(key);
    LateKeeps(Put(ShmStage(Cdr3Stage(d, ct, b.cdr3TranslatedSequence), ct, shm), "Function", StrV(f)),
              s.read, ct, s.igSubClass, t, f, key);
  }

  /** Removing the column name from a call that starts with it, and has it
      nowhere else, leaves the rest of the call: `IGHV3-23*01` becomes
      `3-23*01`. */
  lemma GeneNameStripped(key: string, rest: string)
    requires key != [] && !Contains(rest, key)
    ensures Replace(key + rest, key, "") == rest
  {
    assert (key + rest)[..|key|] == key;
    assert (key + rest)[|key|..] == rest;
    ReplaceAbsent(rest, key, "");
  }

  /** `CDR3` holds IgBLAST's translated CDR3, repeated under `CDR3 IGHV` for
      a heavy chain, and `CDR3L` its length, or an empty cell when IgBLAST
      reported no CDR3. */
  lemma ExportCdr3(s: ReadState, t: PrimerTables, showFloat: real -> string)
    requires ExportOf(s, t, showFloat).Some? && s.successfullyParsed && s.blasted.Some?
    ensures s.chainType.Some?
    ensures var e := ExportOf(s, t, showFloat).value;
      var cdr3 := s.blasted.value.cdr3TranslatedSequence;
      Get(e, "CDR3") == Some(StrV(cdr3)) &&
      Get(e, "CDR3L") == Some(if cdr3 == "N/A" then StrV("") else IntV(|cdr3|)) &&
      (s.chainType.value == "H" ==> Get(e, "CDR3 IGHV") == Some(StrV(cdr3)))
  {
    ExportStages(s, t, showFloat);
    var b := s.blasted.value;
    var ct := s.chainType.value;
    var calls := CallsFrom(Head(s), b, ct, Segments).value;
    FilledCdr3(if ct == "H" then Put(calls, "IgSC", StrV(s.igSubClass.value)) else calls, s, b, ct, t, showFloat);
  }

  lemma FilledCdr3(d: Export, s: ReadState, b: BlastedOutput, ct: string, t: PrimerTables, showFloat: real -> string)
    ensures var e := Filled(d, s, b, ct, t, showFloat);
      var cdr3 := b.cdr3TranslatedSequence;
      Get(e, "CDR3") == Some(StrV(cdr3)) && Get(e, "CDR3L") == Some(Cdr3Length(cdr3)) &&
      (ct == "H" ==> Get(e, "CDR3 IGHV") == Some(StrV(cdr3)))
  {
    var cdr3 := b.cdr3TranslatedSequence;
    var f := FunctionOf(b.productive);
    var c := Cdr3Stage(d, ct, cdr3);
    var shm := Shm(b.alignmentSummaries, showFloat);
    var late := Put(ShmStage(c, ct, shm), "Function", StrV(f));
    Cdr3StageCells(d, ct, cdr3);
    MiddleKeeps(c, ct, shm, f, "CDR3");
    MiddleKeeps(c, ct, shm, f, "CDR3L");
    MiddleKeeps(c, ct, shm, f, "CDR3 IGHV");
    LateKeeps(late, s.read, ct, s.igSubClass, t, f, "CDR3");
    LateKeeps(late, s.read, ct, s.igSubClass, t, f, "CDR3L");
    LateKeeps(late, s.read, ct, s.igSubClass, t, f, "CDR3 IGHV");
  }

  /** The CDR3 stage writes the translated CDR3 and its length. */
  lemma Cdr3StageCells(d: Export, ct: string, cdr3: string)
    ensures var c := Cdr3Stage(d, ct, cdr3);
      Get(c, "CDR3") == Some(StrV(cdr3)) && Get(c, "CDR3L") == Some(Cdr3Length(cdr3)) &&
      (ct == "H" ==> Get(c, "CDR3 IGHV") == Some(StrV(cdr3)))
  {
    if ct == "H" {
      var p1 := Put(d, "CDR3 IGHV", StrV(cdr3));
      var p2 := Put(p1, "CDR3", StrV(cdr3));
      GetPutSame(d, "CDR3 IGHV", StrV(cdr3));
      GetPutOther(p1, "CDR3", StrV(cdr3), "CDR3 IGHV");
      GetPutOther(p2, "CDR3L", Cdr3Length(cdr3), "CDR3 IGHV");
      GetPutSame(p1, "CDR3", StrV(cdr3));
      GetPutOther(p2, "CDR3L", Cdr3Length(cdr3), "CDR3");
      GetPutSame(p2, "CDR3L", Cdr3Length(cdr3));
    } else {
      var p1 := Put(d, "CDR3", StrV(cdr3));
      GetPutSame(d, "CDR3", StrV(cdr3));
      GetPutOther(p1, "CDR3L", Cdr3Length(cdr3), "CDR3");
      GetPutSame(p1, "CDR3L", Cdr3Length(cdr3));
    }
  }

  /** The SHM and Function columns leave every column starting with `C`
      alone. */
  lemma MiddleKeeps(c: Export, ct: string, shm: Value, fn: string, k: string)
    requires k != [] && k[0] == 'C'
    ensures Get(Put(ShmStage(c, ct, shm), "Function", StrV(fn)), k) == Get(c, k)
  {
    var k1 := "SHM IG" + Upper(ct) + "V";
    var k2 := "SHM IGV" + Upper(ct);
    DifferAt(k, k1, 0);
    DifferAt(k, k2, 0);
    GetPutOther(c, "SHM", shm, k);
    GetPutOther(Put(c, "SHM", shm), k1, shm, k);
    GetPutOther(Put(Put(c, "SHM", shm), k1, shm), k2, shm, k);
    GetPutOther(ShmStage(c, ct, shm), "Function", StrV(fn), k);
  }

  /** The SHM column and its two copies hold the mismatch count of the
      `total` row, with the gaps appended when there are any. */
  lemma ExportShm(s: ReadState, t: PrimerTables, showFloat: real -> string)
    requires ExportOf(s, t, showFloat).Some? && s.successfullyParsed && s.blasted.Some?
    ensures s.chainType.Some?
    ensures var e := ExportOf(s, t, showFloat).value;
      var shm := Shm(s.blasted.value.alignmentSummaries, showFloat);
      var ct := Upper(s.chainType.value);
      Get(e, "SHM") == Some(shm) && Get(e, "SHM IG" + ct + "V") == Some(shm) && Get(e, "SHM IGV" + ct) == Some(shm)
  {
    ExportStages(s, t, showFloat);
    var b := s.blasted.value;
    var ct := s.chainType.value;
    var calls := CallsFrom(Head(s), b, ct, Segments).value;
    FilledShm(if ct == "H" then Put(calls, "IgSC", StrV(s.igSubClass.value)) else calls, s, b, ct, t, showFloat);
  }

  lemma FilledShm(d: Export, s: ReadState, b: BlastedOutput, ct: string, t: PrimerTables, showFloat: real -> string)
    ensures var e := Filled(d, s, b, ct, t, showFloat);
      var shm := Shm(b.alignmentSummaries, showFloat);
      Get(e, "SHM") == Some(shm) && Get(e, "SHM IG" + Upper(ct) + "V") == Some(shm) && Get(e, "SHM IGV" + Upper(ct)) == Some(shm)
  {
    var shm := Shm(b.alignmentSummaries, showFloat);
    var f := FunctionOf(b.productive);
    var x := ShmStage(Cdr3Stage(d, ct, b.cdr3TranslatedSequence), ct, shm);
    var late := Put(x, "Function", StrV(f));
    var k1 := "SHM IG" + Upper(ct) + "V";
    var k2 := "SHM IGV" + Upper(ct);
    ShmStageCells(Cdr3Stage(d, ct, b.cdr3TranslatedSequence), ct, shm);
    assert k1[3] == ' ' && k2[3] == ' ';
    ShmLate(late, s.read, ct, s.igSubClass, t, f, "SHM");
    ShmLate(late, s.read, ct, s.igSubClass, t, f, k1);
    ShmLate(late, s.read, ct, s.igSubClass, t, f, k2);
    GetPutOther(x, "Function", StrV(f), "SHM");
    GetPutOther(x, "Function", StrV(f), k1);
    GetPutOther(x, "Function", StrV(f), k2);
  }

  /** A column whose name starts with `SHM` is not written afterwards. */
  lemma ShmLate(d: Export, read: string, ct: string, subClass: Option<string>, t: PrimerTables, fn: string, k: string)
    requires |k| == 3 || (|k| > 3 && k[3] == ' ')
    ensures Get(MotifsFrom(PrimerStage(d, ct, t, fn), read, ct, subClass, RestrictionMotifs), k) == Get(d, k)
  {
    LateKeeps(d, read, ct, subClass, t, fn, k);
  }

  /** The three SHM columns hold the same cell. */
  lemma ShmStageCells(c: Export, ct: string, shm: Value)
    ensures var x := ShmStage(c, ct, shm);
      Get(x, "SHM") == Some(shm) && Get(x, "SHM IG" + Upper(ct) + "V") == Some(shm) && Get(x, "SHM IGV" + Upper(ct)) == Some(shm)
  {
    var k1 := "SHM IG" + Upper(ct) + "V";
    var k2 := "SHM IGV" + Upper(ct);
    GetPutSame(Put(Put(c, "SHM", shm), k1, shm), k2, shm);
    GetPutSame(Put(c, "SHM", shm), k1, shm);
    if k1 != k2 {
      GetPutOther(Put(Put(c, "SHM", shm), k1, shm), k2, shm, k1);
    }
    GetPutSame(c, "SHM", shm);
    GetPutOther(Put(c, "SHM", shm), k1, shm, "SHM");
    GetPutOther(Put(Put(c, "SHM", shm), k1, shm), k2, shm, "SHM");
  }

  /** `Function` is `Y` exactly when IgBLAST called the rearrangement
      productive, and `N` otherwise. */
  lemma ExportFunction(s: ReadState, t: PrimerTables, showFloat: real -> string)
    requires ExportOf(s, t, showFloat).Some? && s.successfullyParsed && s.blasted.Some?
    ensures var cell := Get(ExportOf(s, t, showFloat).value, "Function");
      cell == Some(StrV("Y")) || cell == Some(StrV("N"))
    ensures Get(ExportOf(s, t, showFloat).value, "Function") == Some(StrV("Y")) <==>
      s.blasted.value.productive == Text("Yes")
  {
    ExportStages(s, t, showFloat);
    var b := s.blasted.value;
    var ct := s.chainType.value;
    var calls := CallsFrom(Head(s), b, ct, Segments).value;
    var d1 := if ct == "H" then Put(calls, "IgSC", StrV(s.igSubClass.value)) else calls;
    var f := FunctionOf(b.productive);
    var x := ShmStage(Cdr3Stage(d1, ct, b.cdr3TranslatedSequence), ct, Shm(b.alignmentSummaries, showFloat));
    LateKeeps(Put(x, "Function", StrV(f)), s.read, ct, s.igSubClass, t, f, "Function");
    GetPutSame(x, "Function", StrV(f));
  }

  /** The primer columns of an H, K or L chain: the 5' primer of the row's V
      call and the 3' primer of its J call, looked up in the chain's tables;
      a call missing from the table gives an empty cell for a non-productive
      read and `Primer not yet included` for a productive one. */
  lemma ExportPrimers(s: ReadState, t: PrimerTables, showFloat: real -> string)
    requires ExportOf(s, t, showFloat).Some? && s.successfullyParsed && s.blasted.Some?
    requires s.chainType == Some("H") || s.chainType == Some("K") || s.chainType == Some("L")
    ensures var e := ExportOf(s, t, showFloat).value;
      var ct := s.chainType.value;
      var fn := FunctionOf(s.blasted.value.productive);
      Get(e, "5' Primer") == Some(PrimerCell(VTable(t, ct), e, GeneKey(ct, "v"), fn)) &&
      Get(e, "3' Primer") == Some(PrimerCell(JTable(t, ct), e, GeneKey(ct, "j"), fn))
  {
    ExportStages(s, t, showFloat);
    var b := s.blasted.value;
    var ct := s.chainType.value;
    var calls := CallsFrom(Head(s), b, ct, Segments).value;
    FilledPrimers(if ct == "H" then Put(calls, "IgSC", StrV(s.igSubClass.value)) else calls, s, b, ct, t, showFloat);
  }

  /** The V-gene primer table of a chain. */
  function VTable(t: PrimerTables, ct: string): Dict<string, string> {
    if ct == "H" then t.ighv else if ct == "K" then t.igkv else t.iglv
  }

  /** The J-gene primer table of a chain. */
  function JTable(t: PrimerTables, ct: string): Dict<string, string> {
    if ct == "H" then t.ighj else if ct == "K" then t.igkj else t.iglj
  }

  lemma FilledPrimers(d: Export, s: ReadState, b: BlastedOutput, ct: string, t: PrimerTables, showFloat: real -> string)
    requires ct == "H" || ct == "K" || ct == "L"
    ensures var e := Filled(d, s, b, ct, t, showFloat);
      var fn := FunctionOf(b.productive);
      Get(e, "5' Primer") == Some(PrimerCell(VTable(t, ct), e, GeneKey(ct, "v"), fn)) &&
      Get(e, "3' Primer") == Some(PrimerCell(JTable(t, ct), e, GeneKey(ct, "j"), fn))
  {
    var fn := FunctionOf(b.productive);
    var x := ShmStage(Cdr3Stage(d, ct, b.cdr3TranslatedSequence), ct, Shm(b.alignmentSummaries, showFloat));
    LatePrimers(Put(x, "Function", StrV(fn)), s.read, ct, s.igSubClass, t, fn);
  }

  lemma LatePrimers(d: Export, read: string, ct: string, subClass: Option<string>, t: PrimerTables, fn: string)
    requires ct == "H" || ct == "K" || ct == "L"
    ensures var e := MotifsFrom(PrimerStage(d, ct, t, fn), read, ct, subClass, RestrictionMotifs);
      Get(e, "5' Primer") == Some(PrimerCell(VTable(t, ct), e, GeneKey(ct, "v"), fn)) &&
      Get(e, "3' Primer") == Some(PrimerCell(JTable(t, ct), e, GeneKey(ct, "j"), fn))
  {
    var kv, kj := GeneKey(ct, "v"), GeneKey(ct, "j");
    PrimerStageCells(d, ct, t, fn);
    var p := PrimerStage(d, ct, t, fn);
    var e := MotifsFrom(p, read, ct, subClass, RestrictionMotifs);
    MotifsKeepOthers(p, read, ct, subClass, RestrictionMotifs, "5' Primer");
    MotifsKeepOthers(p, read, ct, subClass, RestrictionMotifs, "3' Primer");
    GeneKeyNotLate(kv);
    GeneKeyNotLate(kj);
    LateKeeps(d, read, ct, subClass, t, fn, kv);
    LateKeeps(d, read, ct, subClass, t, fn, kj);
    PrimerCellReads(VTable(t, ct), e, d, kv, fn);
    PrimerCellReads(JTable(t, ct), e, d, kj, fn);
  }

  /** A primer cell depends on the row only through the call it looks up. */
  lemma PrimerCellReads(table: Dict<string, string>, d1: Export, d2: Export, key: string, fn: string)
    requires Get(d1, key) == Get(d2, key)
    ensures PrimerCell(table, d1, key, fn) == PrimerCell(table, d2, key, fn)
  {
  }

  /** The primer stage of an H, K or L chain writes both primer cells from
      the calls already in the row. */
  lemma PrimerStageCells(d: Export, ct: string, t: PrimerTables, fn: string)
    requires ct == "H" || ct == "K" || ct == "L"
    ensures var p := PrimerStage(d, ct, t, fn);
      Get(p, "5' Primer") == Some(PrimerCell(VTable(t, ct), d, GeneKey(ct, "v"), fn)) &&
      Get(p, "3' Primer") == Some(PrimerCell(JTable(t, ct), d, GeneKey(ct, "j"), fn))
  {
    var kv, kj := GeneKey(ct, "v"), GeneKey(ct, "j");
    assert Upper(ct) == ct;
    assert Upper("v") == "V" && Upper("j") == "J";
    assert kv == "IG" + ct + "V" && kj == "IG" + ct + "J";
    if ct == "H" {
      assert kv == "IGHV" && kj == "IGHJ";
    } else if ct == "K" {
      assert kv == "IGKV" && kj == "IGKJ";
    } else {
      assert kv == "IGLV" && kj == "IGLJ";
    }
    var five := FivePrimer(d, ct, t, fn).value;
    assert five == PrimerCell(VTable(t, ct), d, kv, fn);
    var p1 := Put(d, "5' Primer", five);
    var three := ThreePrimer(p1, ct, t, fn).value;
    assert three == PrimerCell(JTable(t, ct), p1, kj, fn);
    DifferAt(kj, "5' Primer", 0);
    GetPutOther(d, "5' Primer", five, kj);
    PrimerCellReads(JTable(t, ct), p1, d, kj, fn);
    GetPutSame(p1, "3' Primer", three);
    GetPutSame(d, "5' Primer", five);
    GetPutOther(p1, "3' Primer", three, "5' Primer");
  }

  /** Each restriction-site column holds the cell of its own site, looked
      for in the read as sequenced. */
  lemma ExportMotif(s: ReadState, t: PrimerTables, showFloat: real -> string, i: nat)
    requires ExportOf(s, t, showFloat).Some? && s.successfullyParsed && s.blasted.Some?
    requires i < |RestrictionMotifs|
    ensures s.chainType.Some?
    ensures var (name, motif) := RestrictionMotifs[i];
      Get(ExportOf(s, t, showFloat).value, name) == Some(StrV(MotifCell(s.read, name, motif, s.chainType.value, s.igSubClass)))
  {
    ExportStages(s, t, showFloat);
    var b := s.blasted.value;
    var ct := s.chainType.value;
    var calls := CallsFrom(Head(s), b, ct, Segments).value;
    FilledMotif(if ct == "H" then Put(calls, "IgSC", StrV(s.igSubClass.value)) else calls, s, b, ct, t, showFloat, i);
  }

  lemma FilledMotif(d: Export, s: ReadState, b: BlastedOutput, ct: string, t: PrimerTables, showFloat: real -> string, i: nat)
    requires i < |RestrictionMotifs|
    ensures var (name, motif) := RestrictionMotifs[i];
      Get(Filled(d, s, b, ct, t, showFloat), name) == Some(StrV(MotifCell(s.read, name, motif, ct, s.igSubClass)))
  {
    var fn := FunctionOf(b.productive);
    var x := ShmStage(Cdr3Stage(d, ct, b.cdr3TranslatedSequence), ct, Shm(b.alignmentSummaries, showFloat));
    MotifsCell(PrimerStage(Put(x, "Function", StrV(fn)), ct, t, fn), s.read, ct, s.igSubClass, RestrictionMotifs, i);
  }

  /** A site cell is `N` exactly when the read does not contain the site.
      Otherwise it names the first position of the site, marked `P` exactly
      for an AgeI site that belongs to a primer. */
  lemma MotifCellMeaning(read: string, name: string, motif: string, ct: string, subClass: Option<string>)
    requires motif != []
    ensures MotifCell(read, name, motif, ct, subClass) == "N" <==> !Contains(read, motif)
    ensures Contains(read, motif) ==>
      var p := Find(read, motif);
      IsAt(read, motif, p) && (forall k :: 0 <= k < p ==> !IsAt(read, motif, k)) &&
      (MotifCell(read, name, motif, ct, subClass) == "Y(P," + IntToString(p) + ")" <==>
         name == "AgeI" && AgeIInPrimer(read, motif, p, ct, subClass)) &&
      (MotifCell(read, name, motif, ct, subClass) == "Y(" + IntToString(p) + ")" <==>
         !(name == "AgeI" && AgeIInPrimer(read, motif, p, ct, subClass)))
  {
    var p := Find(read, motif);
    if p >= 0 {
      var ds := IntToString(p);
      assert ds == NatToString(p);
      assert IsDigit(ds[0]);
      DifferAt("Y(P," + ds + ")", "Y(" + ds + ")", 2);
    }
  }

  // ===========================================================================
  // The class
  // ===========================================================================

  /** An `exportDict`: the row, written one column at a time. */
  class ExportDict {
    var store: Export
    /** The constructor raised: the object is never handed out. */
    var raised: bool

    /** `exportDict(parsed_sequence)`. */
    constructor (parsed: SequenceFile, t: PrimerTables, showFloat: real -> string)
      ensures raised <==> ExportOf(parsed.attrs, t, showFloat).None?
      ensures !raised ==> store == ExportOf(parsed.attrs, t, showFloat).value
    {
      var s := parsed.attrs;
      store := [];
      raised := false;
      new;
      store := Put(store, "Seq_ID", StrV(SeqId(s.filename)));
      store := Put(store, "QV", IntV(s.meanPhredQuality));
      store := Put(store, "RL", StrV(NatToString(s.length)));
      store := Put(store, "Confirmation", StrV("NO"));
      if !s.successfullyParsed || s.blasted.None? {
        return;
      }
      if s.chainType.None? {
        raised := true;
        return;
      }
      SetBlastedRow(s, s.blasted.value, s.chainType.value, t, showFloat);
    }

    /** The gene calls and the subclass, then the remaining columns. */
    method SetBlastedRow(s: ReadState, b: BlastedOutput, ct: string, t: PrimerTables, showFloat: real -> string)
      requires !raised
      modifies this
      ensures raised <==> BlastedRow(old(store), s, b, ct, t, showFloat).None?
      ensures !raised ==> store == BlastedRow(old(store), s, b, ct, t, showFloat).value
    {
      SetCalls(b, ct);
      if raised {
        return;
      }
      if ct == "H" {
        if s.igSubClass.None? {
          raised := true;
          return;
        }
        store := Put(store, "IgSC", StrV(s.igSubClass.value));
      }
      Fill(s, b, ct, t, showFloat);
    }

    /** The gene-call columns. */
    method SetCalls(b: BlastedOutput, ct: string)
      requires !raised
      modifies this
      ensures raised <==> CallsFrom(old(store), b, ct, Segments).None?
      ensures !raised ==> store == CallsFrom(old(store), b, ct, Segments).value
    {
      var i := 0;
      while i < |Segments|
        invariant 0 <= i <= |Segments| && !raised
        invariant CallsFrom(old(store), b, ct, Segments) == CallsFrom(store, b, ct, Segments[i..])
      {
        var seg := Segments[i];
        var key := GeneKey(ct, seg);
        var top := TopOf(b, seg);
        if top.Tuple? && top.items == [] {
          raised := true;
          return;
        }
        var call := if top.Text? then top.s else top.items[0];
        store := Put(store, key, StrV(Replace(call, key, "")));
        i := i + 1;
      }
    }

    /** The columns after the subclass. */
    method Fill(s: ReadState, b: BlastedOutput, ct: string, t: PrimerTables, showFloat: real -> string)
      modifies this
      ensures store == Filled(old(store), s, b, ct, t, showFloat) && raised == old(raised)
    {
      var cdr3 := b.cdr3TranslatedSequence;
      if ct == "H" {
        store := Put(store, "CDR3 IGHV", StrV(cdr3));
        store := Put(store, "CDR3", StrV(cdr3));
        store := Put(store, "CDR3L", Cdr3Length(cdr3));
      } else {
        store := Put(store, "CDR3", StrV(cdr3));
        store := Put(store, "CDR3L", Cdr3Length(cdr3));
      }
      var shm := Shm(b.alignmentSummaries, showFloat);
      store := Put(store, "SHM", shm);
      store := Put(store, "SHM IG" + Upper(ct) + "V", shm);
      store := Put(store, "SHM IGV" + Upper(ct), shm);
      var fn := FunctionOf(b.productive);
      store := Put(store, "Function", StrV(fn));
      SetPrimers(ct, t, fn);
      SetMotifs(s.read, ct, s.igSubClass);
    }

    /** The primer columns. */
    method SetPrimers(ct: string, t: PrimerTables, fn: string)
      modifies this
      ensures store == PrimerStage(old(store), ct, t, fn) && raised == old(raised)
    {
      var five := FivePrimer(store, ct, t, fn);
      if five.Some? {
        store := Put(store, "5' Primer", five.value);
      }
      var three := ThreePrimer(store, ct, t, fn);
      if three.Some? {
        store := Put(store, "3' Primer", three.value);
      }
    }

    /** The restriction-site columns. */
    method SetMotifs(read: string, ct: string, subClass: Option<string>)
      modifies this
      ensures store == MotifsFrom(old(store), read, ct, subClass, RestrictionMotifs) && raised == old(raised)
    {
      var j := 0;
      while j < |RestrictionMotifs|
        invariant 0 <= j <= |RestrictionMotifs| && raised == old(raised)
        invariant MotifsFrom(old(store), read, ct, subClass, RestrictionMotifs) ==
                  MotifsFrom(store, read, ct, subClass, RestrictionMotifs[j..])
      {
        var (name, motif) := RestrictionMotifs[j];
        store := Put(store, name, StrV(MotifCell(read, name, motif, ct, subClass)));
        j := j + 1;
      }
    }
  }
}
