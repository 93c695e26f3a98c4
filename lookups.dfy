/** The position lookups of a parsed read: which V subregion or gene entry
    covers a query position, the germline nucleotide at a position of the V
    gene, and the codon translations around it. They read the parsed
    IgBLAST report and the read's germline and aligned sequences, and
    `None` stands for the exception the lookup would raise. */
module ReadLookups {
  import opened Wrappers
  import opened PyStr
  import opened Dict
  import opened PyValue
  import opened IgBlastParser

  // ---------------------------------------------------------------------------
  // identify_V_gene_subregion
  // ---------------------------------------------------------------------------

  type Summaries = Dict<string, Dict<string, Value>>

  /** `int(row['from'])`, `int(row['to'])`; `None` for the `KeyError` of a
      missing cell or the `ValueError` of a cell that is not an integer. */
  function RowBounds(row: Dict<string, Value>): Option<(int, int)> {
    match (Get(row, "from"), Get(row, "to"))
    case (Some(f), Some(t)) =>
      if IntOf(f).Some? && IntOf(t).Some? then Some((IntOf(f).value, IntOf(t).value)) else None
    case _ => None
  }

  /** The loop goes on past this row: it is the `total` row, or its range
      `from <= pos < to` misses `pos`. */
  predicate RowSkipped(e: (string, Dict<string, Value>), pos: int) {
    e.0 == "total" ||
    (RowBounds(e.1).Some? && !(RowBounds(e.1).value.0 <= pos < RowBounds(e.1).value.1))
  }

  /** The loop returns this row's region. */
  predicate RowCovers(e: (string, Dict<string, Value>), pos: int) {
    e.0 != "total" && RowBounds(e.1).Some? && RowBounds(e.1).value.0 <= pos < RowBounds(e.1).value.1
  }

  /** `identify_V_gene_subregion(pos)`: the first region other than `total`
      whose half-open range holds `pos`, `n/d` when none does. */
  function VSubregion(summaries: Summaries, pos: int): Option<string> {
    if summaries == [] then Some("n/d")
    else if summaries[0].0 == "total" then VSubregion(summaries[1..], pos)
    else
      match RowBounds(summaries[0].1)
      case None => None
      case Some((lo, hi)) =>
        if lo <= pos < hi then Some(summaries[0].0) else VSubregion(summaries[1..], pos)
  }

  // ---------------------------------------------------------------------------
  // identify_gene
  // ---------------------------------------------------------------------------

  type Alignments = Dict<string, Segment>

  /** `int(entry['start'])`, `int(entry['end'])`; `None` for a missing key or
      a value that is not an integer. */
  function SegmentBounds(g: Segment): Option<(int, int)> {
    if g.start.Some? && g.end.Some? && IntOf(g.start.value).Some? && IntOf(g.end.value).Some? then
      Some((IntOf(g.start.value).value, IntOf(g.end.value).value))
    else None
  }

  predicate EntrySkipped(e: (string, Segment), pos: int) {
    SegmentBounds(e.1).Some? && !(SegmentBounds(e.1).value.0 <= pos <= SegmentBounds(e.1).value.1)
  }

  predicate EntryCovers(e: (string, Segment), pos: int) {
    SegmentBounds(e.1).Some? && SegmentBounds(e.1).value.0 <= pos <= SegmentBounds(e.1).value.1
  }

  /** `identify_gene(pos)`: the first entry of `gene_alignments` whose closed
      range holds `pos`, `n/d` when none does. */
  function GeneRegion(alignments: Alignments, pos: int): Option<string> {
    if alignments == [] then Some("n/d")
    else
      match SegmentBounds(alignments[0].1)
      case None => None
      case Some((lo, hi)) =>
        if lo <= pos <= hi then Some(alignments[0].0) else GeneRegion(alignments[1..], pos)
  }

  /** `identify_gene_region(pos)`: the V subregion, and the gene entry where
      there is none. */
  function GeneRegionAt(summaries: Summaries, alignments: Alignments, pos: int): Option<string> {
    match VSubregion(summaries, pos)
    case None => None
    case Some(r) => if r == "n/d" then GeneRegion(alignments, pos) else Some(r)
  }

  // ---------------------------------------------------------------------------
  // original_nt, translatedAA, IsThisNTSilent
  // ---------------------------------------------------------------------------

  /** Python's `s[i]`: a negative index counts from the end; `None` is the
      `IndexError`. */
  function At(s: string, i: int): (r: Option<char>)
    ensures r.Some? <==> -|s| <= i < |s|
  {
    if 0 <= i < |s| then Some(s[i]) else if -|s| <= i < 0 then Some(s[|s| + i]) else None
  }

  /** `int(gene_alignments['v']['start'])`. */
  function VStart(alignments: Alignments): Option<int> {
    match Get(alignments, "v")
    case None => None
    case Some(v) => if v.start.Some? then IntOf(v.start.value) else None
  }

  /** `original_nt(pos)`: the germline nucleotide `pos - vstart` places into
      `gene_seq`; `geneSeq` is `None` when the read has no germline
      sequence. */
  function OriginalNt(alignments: Alignments, geneSeq: Option<string>, pos: int): Option<char> {
    match VStart(alignments)
    case None => None
    case Some(offset) => if geneSeq.None? then None else At(geneSeq.value, pos - offset)
  }

  /** `v_hits[0]['rank_1']['s_start']` as a number (it may be an `int` or a
      `float`); `None` when it is missing or a text, where `s_start - 1`
      raises. */
  function SubjectStart(vHits: HitArray): Option<real> {
    match FirstRank(vHits)
    case None => None
    case Some(h) =>
      match Get(h, "s_start")
      case None => None
      case Some(v) => NumOf(v)
  }

  /** Biopython's `translate()`; `None` is a `TranslationError`. */
  type Translate = string -> Option<string>

  /** The translations of the germline and the read at a V-gene position. */
  datatype Translations = Translations(gene: string, aligned: string)

  const NotDetermined := Translations("n/d", "n/d")

  /** The start of the codon window of `translatedAA(pos)`:
      `int(int(pos / 3) * 3 - (s_start - 1))`. */
  function Window(pos: int, sStart: real): int {
    Trunc((Trunc(pos as real / 3.0) * 3) as real - (sStart - 1.0))
  }

  /** `translatedAA(pos)`: `n/d` twice past the end of the germline;
      otherwise the translations of the germline and the read at the codon
      window, `*` and `n/d` when one fails to translate. */
  function TranslatedAA(vHits: HitArray, geneSeq: Option<string>, alignedSeq: Option<string>, pos: int, translate: Translate): Option<Translations> {
    match geneSeq
    case None => None
    case Some(g) =>
      if pos > |g| then Some(NotDetermined)
      else
        match SubjectStart(vHits)
        case None => None
        case Some(s) =>
          var w := Window(pos, s);
          var aaGene := translate(Slice(g, w, w + 3)).GetOr("*");
          match alignedSeq
          case None => None
          case Some(a) => Some(Translations(aaGene, translate(Slice(a, w, w + 3)).GetOr("n/d")))
  }

  /** What `IsThisNTSilent` returns: `True`, or the `None` its `else` branch
      falls through to (the expression `False` there is not returned). */
  datatype Truthy = PyTrue | PyNone

  function IsThisNTSilent(vHits: HitArray, geneSeq: Option<string>, alignedSeq: Option<string>, pos: int, translate: Translate): (r: Option<Truthy>)
    ensures r.Some? <==> TranslatedAA(vHits, geneSeq, alignedSeq, pos, translate).Some?
    ensures r == Some(PyTrue) <==>
      TranslatedAA(vHits, geneSeq, alignedSeq, pos, translate).Some? &&
      TranslatedAA(vHits, geneSeq, alignedSeq, pos, translate).value.gene ==
      TranslatedAA(vHits, geneSeq, alignedSeq, pos, translate).value.aligned
  {
    match TranslatedAA(vHits, geneSeq, alignedSeq, pos, translate)
    case None => None
    case Some(t) => Some(if t.gene == t.aligned then PyTrue else PyNone)
  }

  // ---------------------------------------------------------------------------
  // Properties
  // ---------------------------------------------------------------------------

  /** The first region that covers `pos` wins, once every earlier row was
      passed over. */
  lemma {:induction false} VSubregionFirst(summaries: Summaries, pos: int, i: nat)
    requires i < |summaries| && RowCovers(summaries[i], pos)
    requires forall j :: 0 <= j < i ==> RowSkipped(summaries[j], pos)
    ensures VSubregion(summaries, pos) == Some(summaries[i].0)
  {
    if i > 0 {
      assert RowSkipped(summaries[0], pos);
      assert forall j :: 0 <= j < i - 1 ==> summaries[1..][j] == summaries[j + 1];
      VSubregionFirst(summaries[1..], pos, i - 1);
    }
  }

  /** When every row is passed over the answer is `n/d`. */
  lemma {:induction false} VSubregionNone(summaries: Summaries, pos: int)
    requires forall j :: 0 <= j < |summaries| ==> RowSkipped(summaries[j], pos)
    ensures VSubregion(summaries, pos) == Some("n/d")
  {
    if summaries != [] {
      assert RowSkipped(summaries[0], pos);
      assert forall j :: 0 <= j < |summaries| - 1 ==> summaries[1..][j] == summaries[j + 1];
      VSubregionNone(summaries[1..], pos);
    }
  }

  /** The first row that is neither the total nor has integer bounds raises. */
  lemma {:induction false} VSubregionRaises(summaries: Summaries, pos: int, i: nat)
    requires i < |summaries| && summaries[i].0 != "total" && RowBounds(summaries[i].1).None?
    requires forall j :: 0 <= j < i ==> RowSkipped(summaries[j], pos)
    ensures VSubregion(summaries, pos).None?
  {
    if i > 0 {
      assert RowSkipped(summaries[0], pos);
      assert forall j :: 0 <= j < i - 1 ==> summaries[1..][j] == summaries[j + 1];
      VSubregionRaises(summaries[1..], pos, i - 1);
    }
  }

  /** A region found is a row of the summaries other than `total` whose
      half-open range holds `pos`. */
  lemma {:induction false} VSubregionSound(summaries: Summaries, pos: int)
    requires VSubregion(summaries, pos).Some? && VSubregion(summaries, pos).value != "n/d"
    ensures exists i :: (0 <= i < |summaries| && summaries[i].0 == VSubregion(summaries, pos).value &&
      RowCovers(summaries[i], pos))
  {
    if summaries[0].0 == "total" || !RowCovers(summaries[0], pos) {
      VSubregionSound(summaries[1..], pos);
      var i :| 0 <= i < |summaries[1..]| && summaries[1..][i].0 == VSubregion(summaries, pos).value &&
        RowCovers(summaries[1..][i], pos);
      assert summaries[i + 1] == summaries[1..][i];
    } else {
      assert summaries[0].0 == VSubregion(summaries, pos).value;
    }
  }

  /** The range is half-open: the `to` position of the only row is not in
      it, and the lookup falls through to `n/d`. */
  lemma VSubregionExcludesTo(region: string, row: Dict<string, Value>, lo: int, hi: int)
    requires region != "total" && RowBounds(row) == Some((lo, hi))
    ensures VSubregion([(region, row)], hi) == Some("n/d")
    ensures lo < hi ==> VSubregion([(region, row)], hi - 1) == Some(region)
  {
    assert [(region, row)][1..] == [];
  }

  /** The first gene entry whose closed range holds `pos` wins. */
  lemma {:induction false} GeneRegionFirst(alignments: Alignments, pos: int, i: nat)
    requires i < |alignments| && EntryCovers(alignments[i], pos)
    requires forall j :: 0 <= j < i ==> EntrySkipped(alignments[j], pos)
    ensures GeneRegion(alignments, pos) == Some(alignments[i].0)
  {
    if i > 0 {
      assert EntrySkipped(alignments[0], pos);
      assert forall j :: 0 <= j < i - 1 ==> alignments[1..][j] == alignments[j + 1];
      GeneRegionFirst(alignments[1..], pos, i - 1);
    }
  }

  lemma {:induction false} GeneRegionNone(alignments: Alignments, pos: int)
    requires forall j :: 0 <= j < |alignments| ==> EntrySkipped(alignments[j], pos)
    ensures GeneRegion(alignments, pos) == Some("n/d")
  {
    if alignments != [] {
      assert EntrySkipped(alignments[0], pos);
      assert forall j :: 0 <= j < |alignments| - 1 ==> alignments[1..][j] == alignments[j + 1];
      GeneRegionNone(alignments[1..], pos);
    }
  }

  /** An entry without integer bounds raises once it is reached: a junction
      entry the report left without coordinates does so for every `pos`. */
  lemma {:induction false} GeneRegionRaises(alignments: Alignments, pos: int, i: nat)
    requires i < |alignments| && SegmentBounds(alignments[i].1).None?
    requires forall j :: 0 <= j < i ==> EntrySkipped(alignments[j], pos)
    ensures GeneRegion(alignments, pos).None?
  {
    if i > 0 {
      assert EntrySkipped(alignments[0], pos);
      assert forall j :: 0 <= j < i - 1 ==> alignments[1..][j] == alignments[j + 1];
      GeneRegionRaises(alignments[1..], pos, i - 1);
    }
  }

  /** An entry found is one whose closed range holds `pos`. */
  lemma {:induction false} GeneRegionSound(alignments: Alignments, pos: int)
    requires GeneRegion(alignments, pos).Some? && GeneRegion(alignments, pos).value != "n/d"
    ensures exists i :: (0 <= i < |alignments| && alignments[i].0 == GeneRegion(alignments, pos).value &&
      EntryCovers(alignments[i], pos))
  {
    if !EntryCovers(alignments[0], pos) {
      GeneRegionSound(alignments[1..], pos);
      var i :| 0 <= i < |alignments[1..]| && alignments[1..][i].0 == GeneRegion(alignments, pos).value &&
        EntryCovers(alignments[1..][i], pos);
      assert alignments[i + 1] == alignments[1..][i];
    } else {
      assert alignments[0].0 == GeneRegion(alignments, pos).value;
    }
  }

  /** A V subregion takes precedence; the gene entries are consulted only
      when no subregion holds `pos`. */
  lemma GeneRegionAtCases(summaries: Summaries, alignments: Alignments, pos: int)
    ensures VSubregion(summaries, pos).Some? && VSubregion(summaries, pos).value != "n/d" ==>
      GeneRegionAt(summaries, alignments, pos) == VSubregion(summaries, pos)
    ensures VSubregion(summaries, pos) == Some("n/d") ==>
      GeneRegionAt(summaries, alignments, pos) == GeneRegion(alignments, pos)
    ensures VSubregion(summaries, pos).None? ==> GeneRegionAt(summaries, alignments, pos).None?
  {
  }

  /** Inside the germline, `original_nt` reads `gene_seq[pos - vstart]`. */
  lemma OriginalNtAt(alignments: Alignments, gene: string, pos: int, offset: int)
    requires VStart(alignments) == Some(offset) && 0 <= pos - offset < |gene|
    ensures OriginalNt(alignments, Some(gene), pos) == Some(gene[pos - offset])
  {
  }

  /** Before the V start the index is negative and Python reads from the end
      of the germline instead of raising. */
  lemma OriginalNtWraps(alignments: Alignments, gene: string, pos: int, offset: int)
    requires VStart(alignments) == Some(offset) && -|gene| <= pos - offset < 0
    ensures OriginalNt(alignments, Some(gene), pos) == Some(gene[|gene| + (pos - offset)])
  {
  }

  /** Past the end of the germline `original_nt` raises. */
  lemma OriginalNtRaises(alignments: Alignments, gene: string, pos: int)
    requires VStart(alignments).Some? && pos - VStart(alignments).value >= |gene|
    ensures OriginalNt(alignments, Some(gene), pos).None?
  {
  }

  /** `int(pos / 3)` is `pos div 3` for a position that is not negative. */
  lemma TruncThird(pos: nat)
    ensures Trunc(pos as real / 3.0) == pos / 3
  {
    var q := pos / 3;
    var t := Trunc(pos as real / 3.0);
    assert q as real * 3.0 <= pos as real < (q + 1) as real * 3.0;
    assert t as real * 3.0 <= pos as real < (t + 1) as real * 3.0;
  }

  /** With an integer subject start `s`, the codon window of position `pos`
      starts at `3 * (pos div 3) - (s - 1)`, and each side's translation
      falls back to its sentinel. */
  lemma TranslatedWindow(vHits: HitArray, gene: string, aligned: string, pos: nat, s: int, translate: Translate)
    requires pos <= |gene| && SubjectStart(vHits) == Some(s as real)
    ensures var w := 3 * (pos / 3) - (s - 1);
      TranslatedAA(vHits, Some(gene), Some(aligned), pos, translate) ==
      Some(Translations(translate(Slice(gene, w, w + 3)).GetOr("*"), translate(Slice(aligned, w, w + 3)).GetOr("n/d")))
  {
    TruncThird(pos);
    var w := 3 * (pos / 3) - (s - 1);
    assert ((pos / 3) * 3) as real - (s as real - 1.0) == w as real;
    assert Window(pos, s as real) == w;
  }

  /** Past the end of the germline both sides are `n/d`, and the position
      counts as silent. */
  lemma TranslatedPastGene(vHits: HitArray, gene: string, aligned: Option<string>, pos: int, translate: Translate)
    requires pos > |gene|
    ensures TranslatedAA(vHits, Some(gene), aligned, pos, translate) == Some(NotDetermined)
    ensures IsThisNTSilent(vHits, Some(gene), aligned, pos, translate) == Some(PyTrue)
  {
  }
}
