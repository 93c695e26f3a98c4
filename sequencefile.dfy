/** `SequenceFile`: one sequencing read, its quality gate, the IgBLAST and
    blastn results for it, the heavy-chain subclass, the aligned part of the
    read and the germline sequence it aligned to. */
module SequenceFiles {
  import opened Wrappers
  import opened PyStr
  import opened Dict
  import opened PyValue
  import opened Dna
  import opened Sorting
  import opened IgBlastParser
  import opened IgSubClass
  import opened ReadLookups

  /** The attributes of a `SequenceFile`; `None` for one the constructor
      never set. */
  datatype ReadState = ReadState(
    filename: string,
    read: string,
    length: nat,
    meanPhredQuality: nat,
    successfullyParsed: bool,
    comment: string,
    chainType: Option<string>,
    blasted: Option<BlastedOutput>,
    igscNew: Option<string>,
    igscNewBit: Option<real>,
    igscNewEvalue: Option<real>,
    igSubClass: Option<string>,
    cdr3pos: Option<int>,
    alignedStart: Option<int>,
    alignedEnd: Option<int>,
    orientedSeq: Option<string>,
    alignedSeq: Option<string>,
    geneSeq: Option<string>)

  // ===========================================================================
  // The quality gate
  // ===========================================================================

  function Sum(xs: seq<nat>): nat {
    if xs == [] then 0 else xs[0] + Sum(xs[1..])
  }

  /** `int(sum(q) / max(len(q), 1))`: the mean Phred quality, rounded down. */
  function MeanQuality(phred: seq<nat>): nat {
    Sum(phred) / (if |phred| == 0 then 1 else |phred|)
  }

  /** A read is analysed only when it has at least 50 bases and a mean
      quality of at least 12. */
  predicate PassesGate(length: nat, mean: nat) {
    length >= 50 && mean >= 12
  }

  function QualityComment(mean: nat, length: nat): string {
    "Quality: " + NatToString(mean) + ", read length: " + NatToString(length) + "."
  }

  /** The attributes once the gate is decided. */
  function Gated(filename: string, read: string, phred: seq<nat>): ReadState {
    var mean := MeanQuality(phred);
    var s := ReadState(filename, read, |read|, mean, true, "", None, None, None, None, None, None, None,
      None, None, None, None, None);
    if PassesGate(|read|, mean) then s.(comment := "ok")
    else s.(comment := QualityComment(mean, |read|), successfullyParsed := false, chainType := Some("n/d"))
  }

  // ===========================================================================
  // IgBlastMe
  // ===========================================================================

  /** What the two external searches left for `IgBlastMe()` to work on: the
      igblastn process failed, the blastn process failed, the report did not
      parse, or the parsed report with the scan of the blastn hit lines
      (`None` when a hit line's scores are not numbers). */
  datatype Searched = IgBlastFailed | BlastnFailed | ReportFailed | Blasted(b: BlastedOutput, scan: Option<ConstantScan>)

  /** The searches on the report of igblastn and the hit lines of blastn,
      each `None` when its process failed; igblastn runs first. */
  function Search(igblast: Option<seq<string>>, blastn: Option<seq<string>>): Searched {
    if igblast.None? then IgBlastFailed
    else if blastn.None? then BlastnFailed
    else
      match Report(igblast.value)
      case None => ReportFailed
      case Some(b) => Blasted(b, ScanConstant(blastn.value))
  }

  const IgBlastFailedComment := "executing igblastn failed"
  const BlastnFailedComment := "executing blastn failed"
  const ReportFailedComment := "parsing igblastn output failed."

  /** `IgBlastMe()`. Early failures only leave a comment; `None` is an
      exception that escapes the constructor: a blastn hit line whose scores
      are not numbers, or a chain type that is a tuple. */
  function BlastedState(s: ReadState, sr: Searched, showFloat: real -> string): Option<ReadState> {
    match sr
    case IgBlastFailed => Some(s.(comment := IgBlastFailedComment))
    case BlastnFailed => Some(s.(comment := BlastnFailedComment))
    case ReportFailed => Some(s.(comment := ReportFailedComment))
    case Blasted(b, None) => None
    case Blasted(b, Some(scan)) => if b.chainType.Tuple? then None else Some(Typed(s, b, scan, showFloat))
  }

  /** The report stored, the blastn scores copied and the chain type set; a
      heavy chain then gets its subclass. */
  function Typed(s: ReadState, b: BlastedOutput, scan: ConstantScan, showFloat: real -> string): ReadState
    requires b.chainType.Text?
  {
    var ct := StripChar(b.chainType.s, 'V');
    var s1 := s.(blasted := Some(b), igscNewBit := scan.bit, igscNewEvalue := scan.evalue,
      igscNew := scan.hit, chainType := Some(ct));
    if ct == "H" then
      var d := SubClassOf(s.read, b.cdr3Sequence, scan, s.comment, showFloat);
      s1.(igSubClass := Some(d.subClass), comment := d.comment, cdr3pos := d.cdr3pos)
    else s1
  }

  // ===========================================================================
  // The aligned span and the germline sequence
  // ===========================================================================

  /** `int(hits[0]['rank_1'][key])`; `None` for any exception, all of which
      the constructor catches. */
  function HitCoord(arr: HitArray, key: string): Option<int> {
    match FirstRank(arr)
    case None => None
    case Some(h) =>
      match Get(h, key)
      case None => None
      case Some(v) => IntOf(v)
  }

  function AlignedStartOf(b: BlastedOutput): Option<int> {
    HitCoord(b.vHits, "q_start")
  }

  /** The end of the alignment: the J hit's query end, failing that the D
      hit's, failing that the V hit's. */
  function AlignedEndOf(b: BlastedOutput): Option<int> {
    var j := HitCoord(b.jHits, "q_end");
    var d := HitCoord(b.dHits, "q_end");
    if j.Some? then j else if d.Some? then d else HitCoord(b.vHits, "q_end")
  }

  /** The read in the orientation of the germline genes. */
  function Oriented(read: string, b: BlastedOutput): string {
    if b.strand == Text("-") then ReverseComplement(read) else read
  }

  /** No V, no D and no J gene: the IgBLAST defaults of all three. */
  predicate NoHitsAt(b: BlastedOutput) {
    b.topV == Text("N/A") && b.topD == Text("N/A") && First(b.topJ) == Some("N/A")
  }

  /** `top_j[0]` raises `IndexError` on an empty text, which nothing catches;
      it is only evaluated when top V and top D are both `N/A`. */
  predicate NoHitsRaises(b: BlastedOutput) {
    b.topV == Text("N/A") && b.topD == Text("N/A") && First(b.topJ).None?
  }

  const InternalError := " Internal error while parsing "

  /** The `AttributeError` handler of the constructor. */
  function OuterError(s: ReadState): ReadState {
    s.(successfullyParsed := false, comment := InternalError + s.filename + ". ", chainType := Some("n/d"))
  }

  const ShortAlignment := "IgBlast aligned less than 80 nt. Probably sequencing quality is bad."

  /** The `try` block after `IgBlastMe()`. */
  function AlignedState(s: ReadState): Option<ReadState> {
    if s.blasted.None? then Some(OuterError(s))
    else
      var b := s.blasted.value;
      if NoHitsRaises(b) then None
      else if NoHitsAt(b) then Some(s.(comment := "No hits. ", successfullyParsed := false))
      else Some(Spanned(s, b))
  }

  /** The span of the alignment, the oriented read and, when the span is
      complete, the aligned read and the germline. */
  function Spanned(s: ReadState, b: BlastedOutput): ReadState {
    var start := AlignedStartOf(b);
    var end := AlignedEndOf(b);
    var s1 := s.(alignedStart := start, alignedEnd := end, orientedSeq := Some(Oriented(s.read, b)));
    if start.None? || end.None? then OuterError(s1)
    else Trimmed(s1, b, start.value, end.value)
  }

  function Trimmed(s: ReadState, b: BlastedOutput, start: int, end: int): ReadState {
    var aligned := Slice(Oriented(s.read, b), start - 1, end);
    var s2 := s.(alignedSeq := Some(aligned), geneSeq := Some(GeneSeq(b.geneAlignments)));
    if |aligned| < 80 then s2.(successfullyParsed := false, comment := ShortAlignment)
    else s2
  }

  /** The constructor once the searches are done; `None` when it raises. */
  function ParseWith(filename: string, read: string, phred: seq<nat>, sr: Searched, showFloat: real -> string): Option<ReadState> {
    var s := Gated(filename, read, phred);
    if !PassesGate(|read|, s.meanPhredQuality) then Some(s)
    else
      match BlastedState(s, sr, showFloat)
      case None => None
      case Some(s1) => AlignedState(s1)
  }

  // ---------------------------------------------------------------------------
  // gene_seq
  // ---------------------------------------------------------------------------

  type Entry = (string, Segment)

  /** The order `sorted` uses on the `start` cells: numbers by value, texts
      as Python compares them. A missing start sorts first and numbers before
      texts only to make the order total; `GeneSeq` never compares those. */
  predicate EntryLe(a: Entry, b: Entry) {
    match (a.1.start, b.1.start)
    case (None, _) => true
    case (Some(_), None) => false
    case (Some(x), Some(y)) =>
      if x.StrV? && y.StrV? then LexLe(x.s, y.s)
      else if x.StrV? then false
      else if y.StrV? then true
      else NumOf(x).value <= NumOf(y).value
  }

  /** Every entry has a start, and the starts are all numbers or all texts;
      otherwise the key function or a comparison raises. */
  predicate StartsComparable(g: Dict<string, Segment>) {
    (forall i :: 0 <= i < |g| ==> g[i].1.start.Some? && !g[i].1.start.value.StrV?) ||
    (forall i :: 0 <= i < |g| ==> g[i].1.start.Some? && g[i].1.start.value.StrV?)
  }

  /** `gene_seq += entry['seq']` in order, up to the first seq that is not a
      text, where the `TypeError` ends the loop. */
  function Concat(es: seq<Entry>): string {
    if es == [] then ""
    else
      match es[0].1.text
      case Some(StrV(t)) => t + Concat(es[1..])
      case _ => ""
  }

  /** The germline as IgBLAST aligned it: the seqs of `gene_alignments` in
      ascending order of start; `""` when the sort raises. */
  function GeneSeq(g: Dict<string, Segment>): string {
    if StartsComparable(g) then Concat(Sort(g, EntryLe)) else ""
  }

  // ---------------------------------------------------------------------------
  // Properties
  // ---------------------------------------------------------------------------

  /** The mean lies within one of the average Phred quality. */
  lemma MeanQualityBounds(phred: seq<nat>)
    requires phred != []
    ensures MeanQuality(phred) * |phred| <= Sum(phred) < (MeanQuality(phred) + 1) * |phred|
  {
  }

  /** A read failing the gate keeps the quality comment, is marked
      unsuccessful with chain type `n/d`, and is never searched. */
  lemma GateFails(filename: string, read: string, phred: seq<nat>, sr: Searched, showFloat: real -> string)
    requires !PassesGate(|read|, MeanQuality(phred))
    ensures var r := ParseWith(filename, read, phred, sr, showFloat);
      r.Some? && !r.value.successfullyParsed && r.value.chainType == Some("n/d") &&
      r.value.comment == QualityComment(MeanQuality(phred), |read|) &&
      r.value.blasted.None? && r.value.alignedSeq.None?
  {
  }

  /** A read that passed the gate keeps the parsed report exactly when both
      searches ran and the report parsed. */
  lemma BlastedIsReport(filename: string, read: string, phred: seq<nat>, sr: Searched, showFloat: real -> string)
    requires PassesGate(|read|, MeanQuality(phred))
    requires ParseWith(filename, read, phred, sr, showFloat).Some?
    ensures var r := ParseWith(filename, read, phred, sr, showFloat).value;
      (r.blasted.Some? <==> sr.Blasted?) && (r.blasted.Some? ==> r.blasted == Some(sr.b))
  {
    var s := Gated(filename, read, phred);
    BlastedStage(s, sr, showFloat);
    AlignedStage(BlastedState(s, sr, showFloat).value);
  }

  /** `IgBlastMe()` leaves the name, the read, its length and quality, the
      success flag and the alignment attributes alone. An early failure
      changes only the comment, to the failure's message. Otherwise the
      parsed report is stored, the blastn scores are copied, and the chain
      type is the report's with `V` stripped from its ends; a heavy chain also gets the
      subclass, comment and CDR3 position of the subclass decision, and a
      light chain keeps those three as they were. */
  lemma BlastedStage(s: ReadState, sr: Searched, showFloat: real -> string)
    requires BlastedState(s, sr, showFloat).Some?
    ensures var r := BlastedState(s, sr, showFloat).value;
      r.filename == s.filename && r.read == s.read && r.length == s.length &&
      r.meanPhredQuality == s.meanPhredQuality && r.successfullyParsed == s.successfullyParsed &&
      r.alignedStart == s.alignedStart && r.alignedEnd == s.alignedEnd &&
      r.orientedSeq == s.orientedSeq && r.alignedSeq == s.alignedSeq && r.geneSeq == s.geneSeq
    ensures sr.IgBlastFailed? ==> BlastedState(s, sr, showFloat).value == s.(comment := IgBlastFailedComment)
    ensures sr.BlastnFailed? ==> BlastedState(s, sr, showFloat).value == s.(comment := BlastnFailedComment)
    ensures sr.ReportFailed? ==> BlastedState(s, sr, showFloat).value == s.(comment := ReportFailedComment)
    ensures sr.Blasted? ==> (
      sr.scan.Some? && sr.b.chainType.Text? &&
      var r := BlastedState(s, sr, showFloat).value;
      var scan := sr.scan.value;
      var ct := StripChar(sr.b.chainType.s, 'V');
      r.blasted == Some(sr.b) && r.chainType == Some(ct) &&
      r.igscNew == scan.hit && r.igscNewBit == scan.bit && r.igscNewEvalue == scan.evalue &&
      (ct == "H" ==>
        var d := SubClassOf(s.read, sr.b.cdr3Sequence, scan, s.comment, showFloat);
        r.igSubClass == Some(d.subClass) && r.comment == d.comment && r.cdr3pos == d.cdr3pos) &&
      (ct != "H" ==> r.igSubClass == s.igSubClass && r.comment == s.comment && r.cdr3pos == s.cdr3pos))
  {
  }

  /** `IgBlastMe()` raises exactly when the report parsed but a blastn hit
      line's scores are not numbers or the chain type is a tuple. */
  lemma BlastedRaises(s: ReadState, sr: Searched, showFloat: real -> string)
    ensures BlastedState(s, sr, showFloat).None? <==>
      sr.Blasted? && (sr.scan.None? || sr.b.chainType.Tuple?)
  {
  }

  /** The alignment step marks the read successful exactly when it was
      successful before, was blasted, has a hit, and its aligned span has at
      least 80 bases; it keeps the report and any chain type, and sets one
      when the report is missing. */
  lemma AlignedStage(s: ReadState)
    requires s.alignedSeq.None? && AlignedState(s).Some?
    ensures var r := AlignedState(s).value;
      (r.successfullyParsed <==>
        s.successfullyParsed && s.blasted.Some? && !NoHitsAt(s.blasted.value) &&
        r.alignedSeq.Some? && |r.alignedSeq.value| >= 80) &&
      r.blasted == s.blasted &&
      (s.chainType.Some? || s.blasted.None? ==> r.chainType.Some?)
  {
  }

  /** A read is marked successful exactly when it passed the gate, was
      blasted, has a hit, and its aligned span exists and has at least 80
      bases. */
  lemma SuccessIff(filename: string, read: string, phred: seq<nat>, sr: Searched, showFloat: real -> string)
    requires ParseWith(filename, read, phred, sr, showFloat).Some?
    ensures var r := ParseWith(filename, read, phred, sr, showFloat).value;
      r.successfullyParsed <==>
        PassesGate(|read|, MeanQuality(phred)) && r.blasted.Some? && !NoHitsAt(r.blasted.value) &&
        r.alignedSeq.Some? && |r.alignedSeq.value| >= 80
  {
    var s := Gated(filename, read, phred);
    if PassesGate(|read|, s.meanPhredQuality) {
      BlastedStage(s, sr, showFloat);
      AlignedStage(BlastedState(s, sr, showFloat).value);
    }
  }

  /** Every read that does not raise ends with a chain type. */
  lemma ChainTypeSet(filename: string, read: string, phred: seq<nat>, sr: Searched, showFloat: real -> string)
    requires ParseWith(filename, read, phred, sr, showFloat).Some?
    ensures ParseWith(filename, read, phred, sr, showFloat).value.chainType.Some?
  {
    var s := Gated(filename, read, phred);
    if PassesGate(|read|, s.meanPhredQuality) {
      BlastedStage(s, sr, showFloat);
      AlignedStage(BlastedState(s, sr, showFloat).value);
    }
  }

  /** Once IgBLAST found a hit with a usable V start and alignment end, the
      aligned sequence is the oriented read from the V hit's query start to
      the end of the alignment (1-based, inclusive): `end - start + 1`
      bases when the span lies inside the read. */
  lemma AlignedSpan(s: ReadState, b: BlastedOutput, start: int, end: int)
    requires s.blasted == Some(b) && !NoHitsRaises(b) && !NoHitsAt(b)
    requires AlignedStartOf(b) == Some(start) && AlignedEndOf(b) == Some(end)
    ensures AlignedState(s).Some?
    ensures var r := AlignedState(s).value;
      r.orientedSeq == Some(Oriented(s.read, b)) &&
      r.alignedSeq == Some(Slice(Oriented(s.read, b), start - 1, end)) &&
      (1 <= start <= end <= |s.read| ==> |r.alignedSeq.value| == end - start + 1)
  {
  }

  /** Conversely, an aligned sequence exists only for such a hit. */
  lemma AlignedOnlyWithSpan(s: ReadState)
    requires s.alignedSeq.None?
    requires AlignedState(s).Some? && AlignedState(s).value.alignedSeq.Some?
    ensures s.blasted.Some? && !NoHitsAt(s.blasted.value)
    ensures AlignedStartOf(s.blasted.value).Some? && AlignedEndOf(s.blasted.value).Some?
  {
  }

  /** The alignment ends where the J hit ends when it has a usable end; the
      D hit's end only counts without one, and the V hit's only without
      either. */
  lemma EndFallback(b: BlastedOutput)
    ensures HitCoord(b.jHits, "q_end").Some? ==> AlignedEndOf(b) == HitCoord(b.jHits, "q_end")
    ensures HitCoord(b.jHits, "q_end").None? && HitCoord(b.dHits, "q_end").Some? ==>
      AlignedEndOf(b) == HitCoord(b.dHits, "q_end")
    ensures AlignedEndOf(b).None? <==>
      HitCoord(b.jHits, "q_end").None? && HitCoord(b.dHits, "q_end").None? && HitCoord(b.vHits, "q_end").None?
  {
  }

  /** Turning the read around before slicing keeps it recoverable: the
      oriented read turned around on the minus strand is the read. */
  lemma OrientedRecoversRead(read: string, b: BlastedOutput)
    ensures b.strand == Text("-") ==> ReverseComplement(Oriented(read, b)) == read
    ensures b.strand != Text("-") ==> Oriented(read, b) == read
  {
    ReverseComplementInvolution(read);
  }

  /** The start order is a total preorder, so the sort is well-behaved. */
  lemma EntryLeTotalPreorder()
    ensures TotalPreorder(EntryLe)
  {
    forall a: Entry, b: Entry ensures EntryLe(a, b) || EntryLe(b, a) {
      if a.1.start.Some? && b.1.start.Some? && a.1.start.value.StrV? && b.1.start.value.StrV? {
        LexLeTotal(a.1.start.value.s, b.1.start.value.s);
      }
    }
    forall a: Entry, b: Entry, c: Entry | EntryLe(a, b) && EntryLe(b, c) ensures EntryLe(a, c) {
      if a.1.start.Some? && b.1.start.Some? && c.1.start.Some? &&
        a.1.start.value.StrV? && b.1.start.value.StrV? && c.1.start.value.StrV? {
        LexLeTrans(a.1.start.value.s, b.1.start.value.s, c.1.start.value.s);
      }
    }
  }

  /** `gene_seq` is the concatenation of the seqs of a rearrangement of the
      entries that is in ascending order of start; entries with equal starts
      keep their dictionary order. */
  lemma GeneSeqAscending(g: Dict<string, Segment>)
    requires StartsComparable(g)
    ensures var es := Sort(g, EntryLe);
      multiset(es) == multiset(g) && Sorted(es, EntryLe) && GeneSeq(g) == Concat(es) &&
      forall e :: Equivalents(es, e, EntryLe) == Equivalents(g, e, EntryLe)
  {
    EntryLeTotalPreorder();
    SortSorted(g, EntryLe);
    forall e ensures Equivalents(Sort(g, EntryLe), e, EntryLe) == Equivalents(g, e, EntryLe) {
      SortStable(g, e, EntryLe);
    }
  }

  /** With numeric starts, ascending order compares the numbers. */
  lemma NumericStartsAscend(g: Dict<string, Segment>, i: nat, j: nat)
    requires |g| > 0 && g[0].1.start.Some? && !g[0].1.start.value.StrV?
    requires StartsComparable(g)
    requires i < j < |g|
    ensures var es := Sort(g, EntryLe);
      es[i].1.start.Some? && es[j].1.start.Some? &&
      NumOf(es[i].1.start.value).Some? && NumOf(es[j].1.start.value).Some? &&
      NumOf(es[i].1.start.value).value <= NumOf(es[j].1.start.value).value
  {
    var es := Sort(g, EntryLe);
    GeneSeqAscending(g);
    NumericMember(g, es[i]);
    NumericMember(g, es[j]);
    assert EntryLe(es[i], es[j]);
  }

  /** With numeric starts, every entry of the multiset has a numeric start. */
  lemma NumericMember(g: Dict<string, Segment>, e: Entry)
    requires |g| > 0 && g[0].1.start.Some? && !g[0].1.start.value.StrV?
    requires StartsComparable(g)
    requires e in multiset(g)
    ensures e.1.start.Some? && !e.1.start.value.StrV? && NumOf(e.1.start.value).Some?
  {
    assert e in g;
  }

  /** The sort raises, and `gene_seq` stays empty, as soon as one entry has
      no start or the starts mix numbers and texts. */
  lemma GeneSeqEmptyOnRaise(g: Dict<string, Segment>, k: nat)
    requires k < |g| && g[k].1.start.None?
    ensures GeneSeq(g) == ""
  {
  }

  // ===========================================================================
  // The lookups of a parsed read
  // ===========================================================================

  /** The lookups read `BlastedOutputDict`, which a read without a parsed
      report lacks (`AttributeError`). */
  function RegionOf(s: ReadState, pos: int): Option<string> {
    if s.blasted.None? then None
    else GeneRegionAt(s.blasted.value.alignmentSummaries, s.blasted.value.geneAlignments, pos)
  }

  function OriginalNtOf(s: ReadState, pos: int): Option<char> {
    if s.blasted.None? then None else OriginalNt(s.blasted.value.geneAlignments, s.geneSeq, pos)
  }

  function TranslatedOf(s: ReadState, pos: int, translate: Translate): Option<Translations> {
    if s.blasted.None? then TranslatedAA([], s.geneSeq, s.alignedSeq, pos, translate)
    else TranslatedAA(s.blasted.value.vHits, s.geneSeq, s.alignedSeq, pos, translate)
  }

  function SilentOf(s: ReadState, pos: int, translate: Translate): Option<Truthy> {
    if s.blasted.None? then IsThisNTSilent([], s.geneSeq, s.alignedSeq, pos, translate)
    else IsThisNTSilent(s.blasted.value.vHits, s.geneSeq, s.alignedSeq, pos, translate)
  }

  // ===========================================================================
  // The object
  // ===========================================================================

  /** `gene_seq`: the sort, then the concatenation loop. */
  method JoinGeneSeq(g: Dict<string, Segment>) returns (r: string)
    ensures r == GeneSeq(g)
  {
    r := "";
    if !StartsComparable(g) {
      return;
    }
    var es := Sort(g, EntryLe);
    var i := 0;
    while i < |es|
      invariant 0 <= i <= |es|
      invariant Concat(es) == r + Concat(es[i..])
    {
      assert es[i..][1..] == es[i + 1..];
      match es[i].1.text {
        case Some(StrV(t)) =>
          r := r + t;
        case _ =>
          return;
      }
      i := i + 1;
    }
  }

  /** A `SequenceFile`. Its attributes are the record `attrs`, which the
      methods update one attribute at a time. */
  class SequenceFile {
    var attrs: ReadState
    /** The constructor raised: the object is never handed out. */
    var raised: bool

    /** `SequenceFile(filename)` on the read, its Phred qualities and the
        outputs of igblastn and blastn (`None` when the process failed). */
    constructor (filename: string, read: string, phred: seq<nat>, igblast: Option<seq<string>>,
                 blastn: Option<seq<string>>, showFloat: real -> string)
      ensures raised <==> ParseWith(filename, read, phred, Search(igblast, blastn), showFloat).None?
      ensures !raised ==> attrs == ParseWith(filename, read, phred, Search(igblast, blastn), showFloat).value
    {
      var mean := MeanQuality(phred);
      attrs := ReadState(filename, read, |read|, mean, true, "", None, None, None, None, None, None, None,
        None, None, None, None, None);
      raised := false;
      new;
      if attrs.length < 50 || attrs.meanPhredQuality < 12 {
        attrs := attrs.(comment := QualityComment(mean, |read|), successfullyParsed := false, chainType := Some("n/d"));
      } else {
        attrs := attrs.(comment := "ok");
        IgBlastMe(igblast, blastn, showFloat);
        if !raised {
          Align();
        }
      }
    }

    /** `IgBlastMe()`: the two searches, then what their outputs leave on
        the object. */
    method IgBlastMe(igblast: Option<seq<string>>, blastn: Option<seq<string>>, showFloat: real -> string)
      requires !raised
      modifies this
      ensures raised <==> BlastedState(old(attrs), Search(igblast, blastn), showFloat).None?
      ensures !raised ==> attrs == BlastedState(old(attrs), Search(igblast, blastn), showFloat).value
    {
      var sr := RunSearches(igblast, blastn);
      match sr {
        case IgBlastFailed =>
          attrs := attrs.(comment := IgBlastFailedComment);
        case BlastnFailed =>
          attrs := attrs.(comment := BlastnFailedComment);
        case ReportFailed =>
          attrs := attrs.(comment := ReportFailedComment);
        case Blasted(b, scan) =>
          attrs := attrs.(blasted := Some(b));
          if scan.None? || b.chainType.Tuple? {
            raised := true;
          } else {
            attrs := attrs.(igscNewBit := scan.value.bit, igscNewEvalue := scan.value.evalue, igscNew := scan.value.hit);
            var ct := StripChar(b.chainType.s, 'V');
            attrs := attrs.(chainType := Some(ct));
            if ct == "H" {
              var sc, cm, pos := DecideSubClass(attrs.read, b.cdr3Sequence, scan.value, attrs.comment, showFloat);
              attrs := attrs.(igSubClass := Some(sc), comment := cm, cdr3pos := pos);
            }
          }
      }
    }

    /** The `try` block after `IgBlastMe()`: the hit check, the aligned
        span and the germline sequence. */
    method Align()
      requires !raised
      modifies this
      ensures raised <==> AlignedState(old(attrs)).None?
      ensures !raised ==> attrs == AlignedState(old(attrs)).value
    {
      if attrs.blasted.None? {
        attrs := OuterError(attrs);
        return;
      }
      var b := attrs.blasted.value;
      if b.topV == Text("N/A") && b.topD == Text("N/A") {
        var j0 := First(b.topJ);
        if j0.None? {
          raised := true;
          return;
        }
        if j0.value == "N/A" {
          attrs := attrs.(comment := "No hits. ", successfullyParsed := false);
          return;
        }
      }
      SetSpan(b);
    }

    /** The start and end of the alignment, with the end's J, D, V fallback,
        and the oriented read. */
    method SetSpan(b: BlastedOutput)
      modifies this
      ensures attrs == Spanned(old(attrs), b) && raised == old(raised)
    {
      attrs := attrs.(alignedStart := HitCoord(b.vHits, "q_start"));
      if attrs.alignedStart.None? {
        attrs := attrs.(comment := InternalError + attrs.filename + ": Could not create complete aligned sequence. ",
          successfullyParsed := false, chainType := Some("n/d"));
      }
      var end := HitCoord(b.jHits, "q_end");
      if end.None? {
        end := HitCoord(b.dHits, "q_end");
        if end.None? {
          end := HitCoord(b.vHits, "q_end");
        }
      }
      attrs := attrs.(alignedEnd := end);
      attrs := attrs.(orientedSeq := Some(if b.strand == Text("-") then ReverseComplement(attrs.read) else attrs.read));
      if attrs.alignedStart.None? || attrs.alignedEnd.None? {
        attrs := OuterError(attrs);
        return;
      }
      SetAligned(b, attrs.alignedStart.value, attrs.alignedEnd.value);
    }

    /** The aligned part of the oriented read, the length check and the
        germline. */
    method SetAligned(b: BlastedOutput, start: int, end: int)
      requires attrs.orientedSeq == Some(Oriented(attrs.read, b))
      modifies this
      ensures attrs == Trimmed(old(attrs), b, start, end) && raised == old(raised)
    {
      var aligned := Slice(attrs.orientedSeq.value, start - 1, end);
      attrs := attrs.(alignedSeq := Some(aligned));
      if |aligned| < 80 {
        attrs := attrs.(successfullyParsed := false, comment := ShortAlignment);
      }
      var g := JoinGeneSeq(b.geneAlignments);
      attrs := attrs.(geneSeq := Some(g));
    }

    /** `identify_V_gene_subregion(pos)`. */
    method IdentifyVGeneSubregion(pos: int) returns (r: Option<string>)
      ensures r == if attrs.blasted.None? then None else VSubregion(attrs.blasted.value.alignmentSummaries, pos)
    {
      if attrs.blasted.None? {
        return None;
      }
      var summaries := attrs.blasted.value.alignmentSummaries;
      var i := 0;
      while i < |summaries|
        invariant 0 <= i <= |summaries|
        invariant VSubregion(summaries, pos) == VSubregion(summaries[i..], pos)
      {
        assert summaries[i..][1..] == summaries[i + 1..];
        var region := summaries[i].0;
        if region != "total" {
          var bounds := RowBounds(summaries[i].1);
          if bounds.None? {
            return None;
          }
          if bounds.value.0 <= pos < bounds.value.1 {
            return Some(region);
          }
        }
        i := i + 1;
      }
      return Some("n/d");
    }

    /** `identify_gene(pos)`. */
    method IdentifyGene(pos: int) returns (r: Option<string>)
      ensures r == if attrs.blasted.None? then None else GeneRegion(attrs.blasted.value.geneAlignments, pos)
    {
      if attrs.blasted.None? {
        return None;
      }
      var alignments := attrs.blasted.value.geneAlignments;
      var i := 0;
      while i < |alignments|
        invariant 0 <= i <= |alignments|
        invariant GeneRegion(alignments, pos) == GeneRegion(alignments[i..], pos)
      {
        assert alignments[i..][1..] == alignments[i + 1..];
        var bounds := SegmentBounds(alignments[i].1);
        if bounds.None? {
          return None;
        }
        if bounds.value.0 <= pos <= bounds.value.1 {
          return Some(alignments[i].0);
        }
        i := i + 1;
      }
      return Some("n/d");
    }

    /** `identify_gene_region(pos)`. */
    method IdentifyGeneRegion(pos: int) returns (r: Option<string>)
      ensures r == RegionOf(attrs, pos)
    {
      r := IdentifyVGeneSubregion(pos);
      if r == Some("n/d") {
        r := IdentifyGene(pos);
      }
    }
  }

  /** `LoadBlastedOutput(report).return_dict()`; `None` when either raises. */
  method ParseReport(lines: seq<string>) returns (r: Option<BlastedOutput>)
    ensures r == Report(lines)
  {
    var parser := new LoadBlastedOutput(lines);
    if parser.raised {
      return None;
    }
    r := parser.ReturnDict();
  }

  /** The igblastn report, then the blastn hit lines, as `IgBlastMe()`
      consumes them. */
  method RunSearches(igblast: Option<seq<string>>, blastn: Option<seq<string>>) returns (sr: Searched)
    ensures sr == Search(igblast, blastn)
  {
    if igblast.None? {
      return IgBlastFailed;
    }
    if blastn.None? {
      return BlastnFailed;
    }
    var report := ParseReport(igblast.value);
    if report.None? {
      return ReportFailed;
    }
    var scan := ReadConstantHits(blastn.value);
    return Blasted(report.value, scan);
  }
}
