/** `AlignPCRObject`: the comparison of the read of a first PCR (made with a
    primer mix) with the read of a second PCR or plasmid of the same locus.
    After a fixed chain of checks, every position where the two aligned
    reads differ is sorted by which read agrees with the germline, where it
    lies and whether it changes the amino acid; the counts become a summary
    text. */
module AlignPcr {
  import opened Wrappers
  import opened PyStr
  import opened Dict
  import opened PyValue
  import opened IgBlastParser
  import opened ReadLookups
  import opened SequenceFiles
  import opened ExportDicts

  // ===========================================================================
  // Constants
  // ===========================================================================

  /** Positions of the second read, from the start and from the end of the
      germline, that the cloning primers overlap. */
  const NtToleranceFwd: Dict<string, int> := [("H", 33), ("K", 32), ("L", 27)]
  const NtToleranceRev: Dict<string, int> := [("H", 21), ("K", 21), ("L", 0)]

  /** The sequences of the empty expression vectors. */
  const EmptyVecSeq: Dict<string, string> :=
    [("H", "ACCGGTGTACACTCGAGCGTACGGTCGAC"), ("K", "ACCGGTTGACTAACTAGCCGTACG"), ("L", "ACCGGTTGACTAACTAGCCTCGAG")]

  const IndexErrorMessage := "There was an index error while comparing sequences. This could be either due to an extra nucleotide in PCR2 (then usually you'll find lots of differences between the pcr2 and the plasmid sequence), or if the plasmid sequence terminates prematurely, e.g. if the sequencing quality is not sufficient. Until to the termination of the comparison, there were: "

  // ===========================================================================
  // The checks before the scan
  // ===========================================================================

  /** The second read contains one of the empty vectors. */
  predicate HasEmptyVector(read: string) {
    exists i :: 0 <= i < |EmptyVecSeq| && Find(read, EmptyVecSeq[i].1) != -1
  }

  /** How the checks end: with a message and no scan, with the notes the scan
      starts from, or with an exception. */
  datatype Precheck = Stop(message: string) | Proceed(note: string) | Crash

  /** `(b1 + " is not productive. ")` unless the lower-cased `productive` is
      `yes`; `None` is the `AttributeError` of a tuple. */
  function ProductiveNote(filename: string, productive: Field): Option<string> {
    match LowerOf(productive)
    case None => None
    case Some(p) => Some(if p != "yes" then filename + " is not productive. " else "")
  }

  /** The checks, first failing one wins: the quality of either read, an
      empty vector in the second, a second read that is not an
      immunoglobulin, differing chain types, and both genes differing. */
  function PrecheckOf(r1: ReadState, r2: ReadState): Precheck {
    if r1.meanPhredQuality < 20 then Stop("BQ  - " + r1.filename)
    else if r2.meanPhredQuality < 20 then Stop("BQ  - " + r2.filename)
    else if HasEmptyVector(r2.read) then Stop("empty vector - " + r2.filename)
    else if r2.chainType.None? then Crash
    else if r2.chainType.value == "N/A" then Stop(r2.filename + " is not an immunglobulin chain.")
    else if r1.chainType.None? then Crash
    else if r1.chainType.value != r2.chainType.value then
      Stop("chain types differ! " + r1.filename + ": " + r1.chainType.value + "C, " + r2.filename + ": " +
           r2.chainType.value + "C.")
    else if r1.blasted.None? || r2.blasted.None? then Crash
    else
      var b1, b2 := r1.blasted.value, r2.blasted.value;
      if b1.topJ != b2.topJ && b1.topV != b2.topV then
        Stop("Diff " + r1.chainType.value + "C (Both J and V genes do not match. These are most likely completely different chains)")
      else
        var genes := if b1.topJ != b2.topJ then "J genes do not match. "
                     else if b1.topV != b2.topV then "V genes do not match. " else "";
        var p1, p2 := ProductiveNote(r1.filename, b1.productive), ProductiveNote(r2.filename, b2.productive);
        if p1.None? || p2.None? then Crash else Proceed(genes + p1.value + p2.value)
  }

  // ===========================================================================
  // The scan
  // ===========================================================================

  /** `int(v_hits[0]['rank_1']['s_start']) - 1`. */
  function SubjectOffset(b: BlastedOutput): Option<int> {
    match FirstRank(b.vHits)
    case None => None
    case Some(h) =>
      match Get(h, "s_start")
      case None => None
      case Some(v) => if IntOf(v).Some? then Some(IntOf(v).value - 1) else None
  }

  /** What the scan reads: the two reads, the first one's aligned sequence,
      the offset of the second read against it, the V start of the second
      read's germline, the primer tolerances and the translation. */
  datatype Ctx = Ctx(r1: ReadState, r2: ReadState, a1: string, offset: int, start2: int, fwd: int, rev: int,
                     translate: Translate)

  type Bucket = Dict<string, nat>

  /** The counters of the scan; the buckets count by gene region. */
  datatype Counts = Counts(fr1Canceled: nat, jCanceled: nat, jAdded: nat,
                           sAdded: Bucket, nsAdded: Bucket, sCanceled: Bucket, nsExchanged: Bucket, nsCanceled: Bucket)

  const NoCounts := Counts(0, 0, 0, [], [], [], [], [])

  /** What one position does: count (or not), stop the scan, or raise. */
  datatype Step = Counted(c: Counts) | Overrun | Throws

  /** The five region buckets. */
  datatype Kind = SilentAdded | NonsilentAdded | SilentCanceled | NonsilentExchanged | NonsilentCanceled

  /** One more count of kind `k` in region `region`; everything else as it
      was, and a region is added at the end of its bucket the first time. */
  function Bump(c: Counts, k: Kind, region: string): (r: Counts)
    ensures Total(r) == Total(c) + 1
    ensures r.fr1Canceled == c.fr1Canceled && r.jCanceled == c.jCanceled && r.jAdded == c.jAdded
    ensures Keys(c.sAdded) <= Keys(r.sAdded) && Keys(c.nsAdded) <= Keys(r.nsAdded) &&
      Keys(c.sCanceled) <= Keys(r.sCanceled) && Keys(c.nsExchanged) <= Keys(r.nsExchanged) &&
      Keys(c.nsCanceled) <= Keys(r.nsCanceled)
  {
    match k
    case SilentAdded => SumInc(c.sAdded, region); c.(sAdded := Inc(c.sAdded, region))
    case NonsilentAdded => SumInc(c.nsAdded, region); c.(nsAdded := Inc(c.nsAdded, region))
    case SilentCanceled => SumInc(c.sCanceled, region); c.(sCanceled := Inc(c.sCanceled, region))
    case NonsilentExchanged => SumInc(c.nsExchanged, region); c.(nsExchanged := Inc(c.nsExchanged, region))
    case NonsilentCanceled => SumInc(c.nsCanceled, region); c.(nsCanceled := Inc(c.nsCanceled, region))
  }

  /** The position `i` of the first read against position `offset + i` of the
      second and the germline. */
  function StepAt(x: Ctx, c: Counts, i: nat): (r: Step)
    requires i < |x.a1|
    ensures r.Counted? ==> Total(r.c) == Total(c) + (if Differs(x, i) then 1 else 0)
    ensures r.Counted? && !Differs(x, i) ==> r.c == c
    ensures r.Overrun? <==> 0 <= x.offset + i && x.r2.alignedSeq.Some? && x.offset + i >= |x.r2.alignedSeq.value|
  {
    var j := x.offset + i;
    if j < 0 then Counted(c)
    else if x.r2.alignedSeq.None? then Throws
    else if j >= |x.r2.alignedSeq.value| then Overrun
    else if x.r2.alignedSeq.value[j] == x.a1[i] then Counted(c)
    else Classify(x, c, j, x.r2.alignedSeq.value[j], x.a1[i])
  }

  /** A difference at `j`: which read keeps the germline nucleotide, where it
      lies and whether the amino acid changes. */
  function Classify(x: Ctx, c: Counts, j: int, nt2: char, letter: char): (r: Step)
    ensures r.Counted? ==> Total(r.c) == Total(c) + 1 && Grown(c, r.c)
    ensures r.Counted? && r.c.fr1Canceled != c.fr1Canceled ==> j < x.fwd && r.c.fr1Canceled == c.fr1Canceled + 1
    ensures r.Counted? && r.c.jCanceled + r.c.jAdded != c.jCanceled + c.jAdded ==>
      j > GeneLen(x) - x.rev && OriginalNtOf(x.r2, j + x.start2).Some? &&
      r.c.jCanceled + r.c.jAdded == c.jCanceled + c.jAdded + 1
    ensures !r.Overrun?
  {
    var pos := j + x.start2;
    var g := OriginalNtOf(x.r2, pos);
    if g.None? || x.r2.geneSeq.None? then Throws
    else
      var geneLen := |x.r2.geneSeq.value|;
      if nt2 == g.value then
        if j < x.fwd then Counted(c.(fr1Canceled := c.fr1Canceled + 1))
        else if j > geneLen - x.rev then Counted(c.(jCanceled := c.jCanceled + 1))
        else
          var region, t1, t2 := RegionOf(x.r2, pos), TranslatedOf(x.r1, j, x.translate), TranslatedOf(x.r2, j, x.translate);
          if region.None? || t1.None? || t2.None? then Throws
          else Counted(Bump(c, if t2 == t1 then SilentCanceled else NonsilentCanceled, region.value))
      else if letter == g.value then
        if j > geneLen - x.rev then Counted(c.(jAdded := c.jAdded + 1))
        else
          var region, t1, t2 := RegionOf(x.r2, pos), TranslatedOf(x.r1, j, x.translate), TranslatedOf(x.r2, j, x.translate);
          if region.None? || t1.None? || t2.None? then Throws
          else if t2 == t1 then Counted(Bump(c, SilentAdded, region.value))
          else
            var silent := SilentOf(x.r2, j, x.translate);
            if silent.None? then Throws
            else Counted(Bump(c, if silent == Some(PyTrue) then SilentAdded else NonsilentAdded, region.value))
      else
        var region, silent := RegionOf(x.r2, pos), SilentOf(x.r2, j, x.translate);
        if region.None? || silent.None? then Throws
        else Counted(Bump(c, if silent == Some(PyTrue) then SilentAdded else NonsilentExchanged, region.value))
  }

  /** The counts once the scan ends, whether it ran past the second read
      (`truncated`), and the position it stopped at. */
  datatype Scanned = Scanned(counts: Counts, truncated: bool, stop: nat)

  /** The scan from position `i` on; `None` when it raises. */
  function ScanFrom(x: Ctx, c: Counts, i: nat): Option<Scanned>
    requires i <= |x.a1|
    decreases |x.a1| - i
  {
    if i == |x.a1| then Some(Scanned(c, false, i))
    else
      match StepAt(x, c, i)
      case Throws => None
      case Overrun => Some(Scanned(c, true, i))
      case Counted(c1) => ScanFrom(x, c1, i + 1)
  }

  /** A position that counts hands the scan on to the next one. */
  lemma ScanNext(x: Ctx, c: Counts, i: nat)
    requires i < |x.a1|
    ensures StepAt(x, c, i).Counted? ==> ScanFrom(x, c, i) == ScanFrom(x, StepAt(x, c, i).c, i + 1)
  {
  }

  // ===========================================================================
  // The summary
  // ===========================================================================

  /** `for reg in bucket: " " + str(n) + " " + tag + " " + reg + " "`. */
  function BucketText(b: Bucket, tag: string): string {
    if b == [] then "" else " " + NatToString(b[0].1) + " " + tag + " " + b[0].0 + " " + BucketText(b[1..], tag)
  }

  /** The counts in their fixed order; a zero counter is left out. */
  function CountsText(c: Counts): string {
    Fr1Text(c) + BucketsText(c) + JText(c)
  }

  function Fr1Text(c: Counts): string {
    if c.fr1Canceled > 0 then NatToString(c.fr1Canceled) + " SHM- FR1(P)" else ""
  }

  function BucketsText(c: Counts): string {
    BucketText(c.sAdded, "sSHM+") + BucketText(c.nsAdded, "nsSHM+") + BucketText(c.sCanceled, "sSHM-") +
    BucketText(c.nsExchanged, "nsSHMchg") + BucketText(c.nsCanceled, "nsSHM-")
  }

  function JText(c: Counts): string {
    (if c.jCanceled > 0 then " " + NatToString(c.jCanceled) + " SHM J(P)-" else "") +
    (if c.jAdded > 0 then " " + NatToString(c.jAdded) + " SHM J(P)+" else "")
  }

  /** The notes, the scan's stop message and the counts; `0` when all are
      empty. */
  function Summary(note: string, sc: Scanned): string {
    var out := note + (if sc.truncated then IndexErrorMessage else "") + CountsText(sc.counts);
    if out == "" then "0" else out
  }

  const Cave5 := "CAVE: Likely Mutation in 5' primer. "
  const Cave3 := "CAVE: Likely Mutation in 3' primer. "

  /** The `CAVE` checks on the second read: a token when none of the chain's
      cloning-primer sequences is found. */
  function CaveText(ct: string, read: string): string {
    CaveFive(ct, read) + CaveThree(ct, read)
  }

  function CaveFive(ct: string, read: string): string {
    if ct == "H" then
      if Find(read, "ATGGGATGGTCATGTATCATCCTTTTTCTAGTAGCAACTGCAACCGGTGTACATTC") == -1 then Cave5 else ""
    else if ct == "K" then
      if Find(read, "ATGGGATGGTCATGTATCATCCTTTTTCTAGTAGCAACTGCAACCGGTGTACATT") == -1 &&
         Find(read, "ATGGGATGGTCATGTATCATCCTTTTTCTAGTAGCAACTGCAACCGGTGTACATG") == -1 then Cave5 else ""
    else if ct == "L" then
      if Find(read, "ATGGGATGGTCATGTATCATCCTTTTTCTAGTAGCAACTGCAACCGGTTC") == -1 then Cave5 else ""
    else ""
  }

  function CaveThree(ct: string, read: string): string {
    if ct == "H" then
      if Find(read, "TCAGCGTCGACCAAGGGCCCATCGGTCTTCCCCCTGGCACCCTCC") == -1 then Cave3 else ""
    else if ct == "K" then
      if Find(read, "ATCAAACGTACGGTGGCTGCACCATCTGTCTTCATCTTCCCGCCA") == -1 &&
         Find(read, "ATTAAACGTACGGTGGCTGCACCATCTGTCTTCATCTTCCCGCCA") == -1 then Cave3 else ""
    else if ct == "L" then
      if Find(read, "CACTCTGTTCCCGCCCTCGAGTGAGGAGCTTCAAGCCAACAAGGCCACACTG") == -1 &&
         Find(read, "CACTCTGTTCCCACCCTCGAGTGAGGAGCTTCAAGCCAACAAGGCCACACTG") == -1 then Cave3 else ""
    else ""
  }

  // ===========================================================================
  // The whole comparison
  // ===========================================================================

  /** The attributes `AlignPCRObject` sets besides its two reads;
      `shmananalysis` (sic) is set only when a check stops the comparison,
      and the offsets only once the checks have passed. */
  datatype PcrAttrs = PcrAttrs(output: string, shmanalysis: string, shmananalysis: Option<string>,
                               offsetPcr1: Option<int>, offsetPcr2: Option<int>, pcr2AlignmentStart: Option<int>)

  /** The offsets, the V start of the second read and the tolerances of its
      chain; `None` is an exception. */
  datatype Setup = Setup(offset1: int, offset2: int, start2: int, fwd: int, rev: int)

  function SetupOf(b1: BlastedOutput, b2: BlastedOutput, ct: string): Option<Setup> {
    var o1, o2, s2 := SubjectOffset(b1), SubjectOffset(b2), VStart(b2.geneAlignments);
    var fwd, rev := Get(NtToleranceFwd, ct), Get(NtToleranceRev, ct);
    if o1.None? || o2.None? || s2.None? || fwd.None? || rev.None? then None
    else Some(Setup(o1.value, o2.value, s2.value, fwd.value, rev.value))
  }

  /** The text of `shmanalysis`: the SHM cells of the two reads' rows. */
  function ShmAnalysis(ed1: Export, ed2: Export, showFloat: real -> string): Option<string> {
    var m1, m2 := Get(ed1, "SHM"), Get(ed2, "SHM");
    if m1.None? || m2.None? then None
    else Some("Total SHM according to 2nd pcr/plasmid: " + Str(m1.value, showFloat) + "/" + Str(m2.value, showFloat))
  }

  /** The scan's context once the checks have passed. */
  function ContextOf(r1: ReadState, r2: ReadState, st: Setup, translate: Translate): Ctx
    requires r1.alignedSeq.Some?
  {
    Ctx(r1, r2, r1.alignedSeq.value, st.offset1 - st.offset2, st.start2, st.fwd, st.rev, translate)
  }

  /** The comparison after the checks passed with notes `note`. */
  function Analysed(r1: ReadState, r2: ReadState, note: string, t: PrimerTables, translate: Translate,
                    showFloat: real -> string): Option<PcrAttrs> {
    if r1.blasted.None? || r2.blasted.None? || r2.chainType.None? then None
    else
      var st := SetupOf(r1.blasted.value, r2.blasted.value, r2.chainType.value);
      if st.None? || r1.alignedSeq.None? then None
      else
        var sc := ScanFrom(ContextOf(r1, r2, st.value, translate), NoCounts, 0);
        if sc.None? then None else Finished(r1, r2, Summary(note, sc.value), st.value, t, showFloat)
  }

  /** The comparison once the summary `out` is written: the two reads'
      rows, the `CAVE` tokens and the SHM line. */
  function Finished(r1: ReadState, r2: ReadState, out: string, st: Setup, t: PrimerTables,
                    showFloat: real -> string): Option<PcrAttrs>
    requires r2.chainType.Some?
  {
    var ed1, ed2 := ExportOf(r1, t, showFloat), ExportOf(r2, t, showFloat);
    if ed1.None? || ed2.None? then None
    else
      var shm := ShmAnalysis(ed1.value, ed2.value, showFloat);
      if shm.None? then None
      else
        Some(PcrAttrs(out + CaveText(r2.chainType.value, r2.read), shm.value, None,
                      Some(st.offset1), Some(st.offset2), Some(st.start2)))
  }

  /** `AlignPCRObject(pcr1, pcr2)`; `None` when the constructor raises. */
  function CompareOf(r1: ReadState, r2: ReadState, t: PrimerTables, translate: Translate,
                     showFloat: real -> string): Option<PcrAttrs> {
    match PrecheckOf(r1, r2)
    case Crash => None
    case Stop(m) => Some(PcrAttrs(m, "", Some("n/a"), None, None, None))
    case Proceed(note) => Analysed(r1, r2, note, t, translate, showFloat)
  }

  // ===========================================================================
  // Properties of the scan
  // ===========================================================================

  /** The scan's second read lines up with its germline: `ContextOf` takes
      `start2` from the second read's V alignment. */
  predicate Valid(x: Ctx) {
    x.r2.blasted.Some? && VStart(x.r2.blasted.value.geneAlignments) == Some(x.start2)
  }

  /** The reads disagree at position `i` of the first one, inside the second. */
  predicate Differs(x: Ctx, i: nat)
    requires i < |x.a1|
  {
    var j := x.offset + i;
    0 <= j && x.r2.alignedSeq.Some? && j < |x.r2.alignedSeq.value| && x.r2.alignedSeq.value[j] != x.a1[i]
  }

  /** The number of positions in `[i, n)` where the reads disagree. */
  function Diffs(x: Ctx, i: nat, n: nat): nat
    requires i <= n <= |x.a1|
    decreases n - i
  {
    if i == n then 0 else (if Differs(x, i) then 1 else 0) + Diffs(x, i + 1, n)
  }

  /** All the counters together. */
  function Total(c: Counts): nat {
    c.fr1Canceled + c.jCanceled + c.jAdded + SumValues(c.sAdded) + SumValues(c.nsAdded) + SumValues(c.sCanceled) +
    SumValues(c.nsExchanged) + SumValues(c.nsCanceled)
  }

  /** Each position the scan compares is counted once: the counters grow by
      the number of positions where the reads disagree, and stay as they
      were when there is none. The scan stops early exactly when the first
      read runs past the end of the second. */
  lemma {:induction false} ScanCounts(x: Ctx, c: Counts, i: nat)
    requires i <= |x.a1| && ScanFrom(x, c, i).Some?
    ensures var sc := ScanFrom(x, c, i).value;
      i <= sc.stop <= |x.a1| && (sc.truncated <==> sc.stop < |x.a1|) &&
      Total(sc.counts) == Total(c) + Diffs(x, i, sc.stop) &&
      (Diffs(x, i, sc.stop) == 0 ==> sc.counts == c)
    ensures var sc := ScanFrom(x, c, i).value;
      sc.truncated ==> 0 <= x.offset + sc.stop && x.r2.alignedSeq.Some? && x.offset + sc.stop >= |x.r2.alignedSeq.value|
    decreases |x.a1| - i
  {
    if i < |x.a1| {
      var st := StepAt(x, c, i);
      if st.Counted? {
        ScanCounts(x, st.c, i + 1);
      }
    }
  }

  /** The counters of `c1` are at least those of `c`, and every bucket of
      `c1` lists the regions of `c`'s first, in the same order. */
  predicate Grown(c: Counts, c1: Counts) {
    c.fr1Canceled <= c1.fr1Canceled && c.jCanceled <= c1.jCanceled && c.jAdded <= c1.jAdded &&
    Keys(c.sAdded) <= Keys(c1.sAdded) && Keys(c.nsAdded) <= Keys(c1.nsAdded) &&
    Keys(c.sCanceled) <= Keys(c1.sCanceled) && Keys(c.nsExchanged) <= Keys(c1.nsExchanged) &&
    Keys(c.nsCanceled) <= Keys(c1.nsCanceled)
  }

  lemma GrownTrans(c: Counts, c1: Counts, c2: Counts)
    requires Grown(c, c1) && Grown(c1, c2)
    ensures Grown(c, c2)
  {
    PrefixTrans(Keys(c.sAdded), Keys(c1.sAdded), Keys(c2.sAdded));
    PrefixTrans(Keys(c.nsAdded), Keys(c1.nsAdded), Keys(c2.nsAdded));
    PrefixTrans(Keys(c.sCanceled), Keys(c1.sCanceled), Keys(c2.sCanceled));
    PrefixTrans(Keys(c.nsExchanged), Keys(c1.nsExchanged), Keys(c2.nsExchanged));
    PrefixTrans(Keys(c.nsCanceled), Keys(c1.nsCanceled), Keys(c2.nsCanceled));
  }

  lemma PrefixTrans<T>(a: seq<T>, b: seq<T>, c: seq<T>)
    requires a <= b && b <= c
    ensures a <= c
  {
    assert a == b[..|a|] && b == c[..|b|];
    assert c[..|b|][..|a|] == c[..|a|];
  }

  function GeneLen(x: Ctx): nat {
    if x.r2.geneSeq.Some? then |x.r2.geneSeq.value| else 0
  }

  /** The positions from `offset + i` on that the 5' primer overlaps. */
  function FwdLeft(x: Ctx, i: nat): nat {
    var lo := if x.offset + i < 0 then 0 else x.offset + i;
    if lo >= x.fwd then 0 else x.fwd - lo
  }

  /** The positions from `offset + i` on, before the end of the germline,
      that lie beyond `len(gene_seq) - nt_tolerance_rev`. */
  function JLeft(x: Ctx, i: nat): nat {
    var j := if x.offset + i < 0 then 0 else x.offset + i;
    var lo := if j < GeneLen(x) - x.rev + 1 then GeneLen(x) - x.rev + 1 else j;
    if lo >= GeneLen(x) then 0 else GeneLen(x) - lo
  }

  /** One position only raises the counters, and a primer counter only at a
      position its primer overlaps. */
  lemma StepWindows(x: Ctx, c: Counts, i: nat)
    requires Valid(x) && i < |x.a1| && StepAt(x, c, i).Counted?
    ensures var c1 := StepAt(x, c, i).c;
      Grown(c, c1) &&
      c1.fr1Canceled + FwdLeft(x, i + 1) <= c.fr1Canceled + FwdLeft(x, i) &&
      c1.jCanceled + c1.jAdded + JLeft(x, i + 1) <= c.jCanceled + c.jAdded + JLeft(x, i)
  {
    var j := x.offset + i;
    var c1 := StepAt(x, c, i).c;
    if c1 != c {
      assert 0 <= j && x.r2.alignedSeq.Some? && j < |x.r2.alignedSeq.value| && x.r2.alignedSeq.value[j] != x.a1[i];
      if c1.jCanceled + c1.jAdded != c.jCanceled + c.jAdded {
        assert OriginalNtOf(x.r2, j + x.start2) == At(x.r2.geneSeq.value, j);
      }
    }
  }

  /** Over the rest of the scan the counters only grow, the FR1 primer
      counter by at most the positions the 5' primer still overlaps and
      the J primer counters by at most the positions at the end of the
      germline that the 3' primer overlaps. */
  lemma {:induction false} ScanWindows(x: Ctx, c: Counts, i: nat)
    requires Valid(x) && i <= |x.a1| && ScanFrom(x, c, i).Some?
    ensures var sc := ScanFrom(x, c, i).value;
      Grown(c, sc.counts) && sc.counts.fr1Canceled <= c.fr1Canceled + FwdLeft(x, i) &&
      sc.counts.jCanceled + sc.counts.jAdded <= c.jCanceled + c.jAdded + JLeft(x, i)
    decreases |x.a1| - i
  {
    if i < |x.a1| {
      var st := StepAt(x, c, i);
      if st.Counted? {
        ScanNext(x, c, i);
        StepWindows(x, c, i);
        ScanWindows(x, st.c, i + 1);
        GrownTrans(c, st.c, ScanFrom(x, c, i).value.counts);
      }
    }
  }

  /** The primer counters of the scan `AlignPCRObject` runs stay within the
      chain's tolerances: at most 33, 32 or 27 FR1 counts for a heavy,
      kappa or lambda chain, at most 20 J counts for a heavy or kappa chain
      and none for a lambda chain. */
  lemma PrimerCountersBounded(r1: ReadState, r2: ReadState, st: Setup, translate: Translate)
    requires r1.blasted.Some? && r2.blasted.Some? && r2.chainType.Some? && r1.alignedSeq.Some?
    requires SetupOf(r1.blasted.value, r2.blasted.value, r2.chainType.value) == Some(st)
    requires ScanFrom(ContextOf(r1, r2, st, translate), NoCounts, 0).Some?
    ensures var ct, c := r2.chainType.value, ScanFrom(ContextOf(r1, r2, st, translate), NoCounts, 0).value.counts;
      (ct == "H" || ct == "K" || ct == "L") &&
      (ct == "H" ==> c.fr1Canceled <= 33 && c.jCanceled + c.jAdded <= 20) &&
      (ct == "K" ==> c.fr1Canceled <= 32 && c.jCanceled + c.jAdded <= 20) &&
      (ct == "L" ==> c.fr1Canceled <= 27 && c.jCanceled == 0 && c.jAdded == 0)
  {
    var x := ContextOf(r1, r2, st, translate);
    ScanWindows(x, NoCounts, 0);
  }

  /** A piece of the summary that is empty or starts with a blank. */
  predicate Spaced(t: string) {
    t == "" || t[0] == ' '
  }

  lemma SpacedConcat(a: string, b: string)
    requires Spaced(a) && Spaced(b)
    ensures Spaced(a + b)
  {
    if a != "" { assert (a + b)[0] == a[0]; }
  }

  /** The counts print as nothing exactly when every counter is zero and
      every bucket empty, and never as `0`. */
  lemma BucketTextEmpty(b: Bucket, tag: string)
    ensures BucketText(b, tag) == "" <==> b == []
    ensures Spaced(BucketText(b, tag))
  {
  }

  lemma CountsTextEmpty(c: Counts)
    ensures CountsText(c) == "" <==> c == NoCounts
    ensures CountsText(c) != "0"
  {
    var b1, b2, b3 := BucketText(c.sAdded, "sSHM+"), BucketText(c.nsAdded, "nsSHM+"), BucketText(c.sCanceled, "sSHM-");
    var b4, b5 := BucketText(c.nsExchanged, "nsSHMchg"), BucketText(c.nsCanceled, "nsSHM-");
    BucketTextEmpty(c.sAdded, "sSHM+");
    BucketTextEmpty(c.nsAdded, "nsSHM+");
    BucketTextEmpty(c.sCanceled, "sSHM-");
    BucketTextEmpty(c.nsExchanged, "nsSHMchg");
    BucketTextEmpty(c.nsCanceled, "nsSHM-");
    SpacedConcat(b1, b2);
    SpacedConcat(b1 + b2, b3);
    SpacedConcat(b1 + b2 + b3, b4);
    SpacedConcat(b1 + b2 + b3 + b4, b5);
    SpacedConcat(BucketsText(c), JText(c));
    if Fr1Text(c) == "" {
      SpacedConcat(Fr1Text(c), BucketsText(c));
      SpacedConcat(Fr1Text(c) + BucketsText(c), JText(c));
    } else {
      assert |Fr1Text(c)| >= 2;
    }
  }

  /** The scan leaves the counters at zero exactly when the reads agree on
      every position it compared. */
  lemma ZeroCounts(x: Ctx, sc: Scanned)
    requires ScanFrom(x, NoCounts, 0) == Some(sc)
    ensures sc.stop <= |x.a1|
    ensures sc.counts == NoCounts <==> Diffs(x, 0, sc.stop) == 0
  {
    ScanCounts(x, NoCounts, 0);
  }

  /** With no notes, the summary is `0` exactly when the scan reached the
      end of the first read and found no position where the reads
      disagree. */
  lemma SummaryZero(x: Ctx, sc: Scanned)
    requires ScanFrom(x, NoCounts, 0) == Some(sc)
    ensures Summary("", sc) == "0" <==> !sc.truncated && Diffs(x, 0, |x.a1|) == 0
  {
    ScanCounts(x, NoCounts, 0);
    ZeroCounts(x, sc);
    CountsTextEmpty(sc.counts);
    var t := CountsText(sc.counts);
    var out := "" + (if sc.truncated then IndexErrorMessage else "") + t;
    assert Summary("", sc) == if out == "" then "0" else out;
    if sc.truncated {
      assert |out| >= |IndexErrorMessage| > 1;
    } else {
      assert out == t;
    }
  }

  // ===========================================================================
  // The CAVE checks
  // ===========================================================================

  /** The sequences of the cloning primers, each chain with the variants
      that count as intact. */
  const FivePrimeSites: Dict<string, seq<string>> := [
    ("H", ["ATGGGATGGTCATGTATCATCCTTTTTCTAGTAGCAACTGCAACCGGTGTACATTC"]),
    ("K", ["ATGGGATGGTCATGTATCATCCTTTTTCTAGTAGCAACTGCAACCGGTGTACATT",
           "ATGGGATGGTCATGTATCATCCTTTTTCTAGTAGCAACTGCAACCGGTGTACATG"]),
    ("L", ["ATGGGATGGTCATGTATCATCCTTTTTCTAGTAGCAACTGCAACCGGTTC"])]
  const ThreePrimeSites: Dict<string, seq<string>> := [
    ("H", ["TCAGCGTCGACCAAGGGCCCATCGGTCTTCCCCCTGGCACCCTCC"]),
    ("K", ["ATCAAACGTACGGTGGCTGCACCATCTGTCTTCATCTTCCCGCCA",
           "ATTAAACGTACGGTGGCTGCACCATCTGTCTTCATCTTCCCGCCA"]),
    ("L", ["CACTCTGTTCCCGCCCTCGAGTGAGGAGCTTCAAGCCAACAAGGCCACACTG",
           "CACTCTGTTCCCACCCTCGAGTGAGGAGCTTCAAGCCAACAAGGCCACACTG"])]

  /** `site` occurs nowhere in `read`. */
  ghost predicate Absent(read: string, site: string) {
    forall k :: !IsAt(read, site, k)
  }

  /** The chain has primer sites in `sites` and the read holds none of them. */
  ghost predicate Mutated(sites: Dict<string, seq<string>>, ct: string, read: string) {
    Get(sites, ct).Some? && forall i :: 0 <= i < |Get(sites, ct).value| ==> Absent(read, Get(sites, ct).value[i])
  }

  lemma FindAbsent(read: string, site: string)
    ensures Find(read, site) == -1 <==> Absent(read, site)
  {
    var r := Find(read, site);
    if r != -1 {
      assert IsAt(read, site, r);
    }
  }

  /** A `CAVE` token is written for each primer none of whose variants the
      second read contains, and only for heavy, kappa and lambda chains. */
  lemma CaveMeaning(ct: string, read: string)
    ensures CaveText(ct, read) ==
      (if Mutated(FivePrimeSites, ct, read) then Cave5 else "") + (if Mutated(ThreePrimeSites, ct, read) then Cave3 else "")
  {
    CaveFiveMeaning(ct, read);
    CaveThreeMeaning(ct, read);
  }

  lemma CaveFiveMeaning(ct: string, read: string)
    ensures CaveFive(ct, read) == if Mutated(FivePrimeSites, ct, read) then Cave5 else ""
  {
    var h, k, l := FivePrimeSites[0].1, FivePrimeSites[1].1, FivePrimeSites[2].1;
    if ct == "H" {
      FindAbsent(read, h[0]);
    } else if ct == "K" {
      FindAbsent(read, k[0]);
      FindAbsent(read, k[1]);
    } else if ct == "L" {
      FindAbsent(read, l[0]);
    } else {
      assert Get(FivePrimeSites, ct).None?;
    }
  }

  lemma CaveThreeMeaning(ct: string, read: string)
    ensures CaveThree(ct, read) == if Mutated(ThreePrimeSites, ct, read) then Cave3 else ""
  {
    var h, k, l := ThreePrimeSites[0].1, ThreePrimeSites[1].1, ThreePrimeSites[2].1;
    if ct == "H" {
      FindAbsent(read, h[0]);
    } else if ct == "K" {
      FindAbsent(read, k[0]);
      FindAbsent(read, k[1]);
    } else if ct == "L" {
      FindAbsent(read, l[0]);
      FindAbsent(read, l[1]);
    } else {
      assert Get(ThreePrimeSites, ct).None?;
    }
  }

  // ===========================================================================
  // Properties of the whole comparison
  // ===========================================================================

  /** The comparison goes on past the checks exactly when both reads have
      a mean quality of at least 20, the second holds no empty vector, both
      have the same immunoglobulin chain type and a blasted report, at most
      one of the J and V calls differs, and both `productive` fields are
      texts. */
  lemma PrecheckProceeds(r1: ReadState, r2: ReadState)
    ensures PrecheckOf(r1, r2).Proceed? <==>
      r1.meanPhredQuality >= 20 && r2.meanPhredQuality >= 20 && !HasEmptyVector(r2.read) &&
      r2.chainType.Some? && r2.chainType.value != "N/A" && r1.chainType == r2.chainType &&
      r1.blasted.Some? && r2.blasted.Some? &&
      (r1.blasted.value.topJ == r2.blasted.value.topJ || r1.blasted.value.topV == r2.blasted.value.topV) &&
      r1.blasted.value.productive.Text? && r2.blasted.value.productive.Text?
  {
  }

  /** A read of low quality stops the comparison before anything else about
      either read is looked at. */
  lemma QualityFirst(r1: ReadState, r2: ReadState, t: PrimerTables, translate: Translate, showFloat: real -> string)
    requires r1.meanPhredQuality < 20 || r2.meanPhredQuality < 20
    ensures CompareOf(r1, r2, t, translate, showFloat).Some?
    ensures var a := CompareOf(r1, r2, t, translate, showFloat).value;
      a.output == "BQ  - " + (if r1.meanPhredQuality < 20 then r1.filename else r2.filename) &&
      a.shmananalysis == Some("n/a") && a.shmanalysis == ""
  {
  }

  /** A read exported with its head columns only has no `SHM` column. */
  lemma HeadHasNoShm(s: ReadState)
    ensures Get(Head(s), "SHM").None?
  {
    HeadCells(s);
    HasAt(Head(s), "SHM");
    forall i | 0 <= i < |Head(s)|
      ensures Head(s)[i].0 != "SHM"
    {
      KeysAt(Head(s), i);
    }
  }

  /** A check that stops `AlignPCRObject` sets only the message and
      `shmananalysis`; only such a stop sets `shmananalysis`. */
  lemma CompareStops(r1: ReadState, r2: ReadState, t: PrimerTables, translate: Translate, showFloat: real -> string)
    requires CompareOf(r1, r2, t, translate, showFloat).Some?
    ensures var a := CompareOf(r1, r2, t, translate, showFloat).value;
      (a.shmananalysis.Some? <==> PrecheckOf(r1, r2).Stop?) && (a.shmananalysis.None? <==> PrecheckOf(r1, r2).Proceed?) &&
      (a.shmananalysis.Some? ==>
        a.shmananalysis == Some("n/a") && a.output == PrecheckOf(r1, r2).message && a.shmanalysis == "" &&
        a.offsetPcr1.None? && a.offsetPcr2.None? && a.pcr2AlignmentStart.None?)
  {
    match PrecheckOf(r1, r2)
    case Stop(m) =>
    case Crash =>
    case Proceed(note) => AnalysedOutcome(r1, r2, note, t, translate, showFloat);
  }

  /** A comparison that runs to the end needs both reads parsed and
      blasted, records the offsets and the second read's V start, ends its
      output with the `CAVE` tokens, and reports the SHM cells of both
      reads' rows. */
  lemma AnalysedOutcome(r1: ReadState, r2: ReadState, note: string, t: PrimerTables, translate: Translate,
                        showFloat: real -> string)
    requires Analysed(r1, r2, note, t, translate, showFloat).Some?
    ensures var a := Analysed(r1, r2, note, t, translate, showFloat).value;
      r1.successfullyParsed && r2.successfullyParsed && r1.blasted.Some? && r2.blasted.Some? && r2.chainType.Some? &&
      a.shmananalysis.None? && a.offsetPcr1.Some? && a.offsetPcr2.Some? &&
      a.pcr2AlignmentStart == VStart(r2.blasted.value.geneAlignments) &&
      |CaveText(r2.chainType.value, r2.read)| <= |a.output| &&
      a.output[|a.output| - |CaveText(r2.chainType.value, r2.read)|..] == CaveText(r2.chainType.value, r2.read) &&
      a.shmanalysis == "Total SHM according to 2nd pcr/plasmid: " +
        Str(Shm(r1.blasted.value.alignmentSummaries, showFloat), showFloat) + "/" +
        Str(Shm(r2.blasted.value.alignmentSummaries, showFloat), showFloat)
  {
    var st := SetupOf(r1.blasted.value, r2.blasted.value, r2.chainType.value).value;
    var sc := ScanFrom(ContextOf(r1, r2, st, translate), NoCounts, 0).value;
    var out := Summary(note, sc);
    FinishedOutcome(r1, r2, out, st, t, showFloat);
    var a := Finished(r1, r2, out, st, t, showFloat).value;
    var cave := CaveText(r2.chainType.value, r2.read);
    assert a.output[|a.output| - |cave|..] == cave;
  }

  /** Writing the rows needs both reads parsed and blasted; the output gets
      the `CAVE` tokens and the SHM line reports both reads' SHM cells. */
  lemma FinishedOutcome(r1: ReadState, r2: ReadState, out: string, st: Setup, t: PrimerTables, showFloat: real -> string)
    requires r2.chainType.Some?
    requires Finished(r1, r2, out, st, t, showFloat).Some?
    ensures var a := Finished(r1, r2, out, st, t, showFloat).value;
      r1.successfullyParsed && r2.successfullyParsed && r1.blasted.Some? && r2.blasted.Some? &&
      a == PcrAttrs(out + CaveText(r2.chainType.value, r2.read),
                    "Total SHM according to 2nd pcr/plasmid: " +
                    Str(Shm(r1.blasted.value.alignmentSummaries, showFloat), showFloat) + "/" +
                    Str(Shm(r2.blasted.value.alignmentSummaries, showFloat), showFloat),
                    None, Some(st.offset1), Some(st.offset2), Some(st.start2))
  {
    var e1, e2 := ExportOf(r1, t, showFloat), ExportOf(r2, t, showFloat);
    assert e1.Some? && e2.Some?;
    if !r1.successfullyParsed || r1.blasted.None? {
      assert e1 == Some(Head(r1));
      HeadHasNoShm(r1);
      assert false;
    }
    if !r2.successfullyParsed || r2.blasted.None? {
      assert e2 == Some(Head(r2));
      HeadHasNoShm(r2);
      assert false;
    }
    ExportShm(r1, t, showFloat);
    ExportShm(r2, t, showFloat);
  }

  // ===========================================================================
  // The object
  // ===========================================================================

  /** The loop over the chains' empty vectors. */
  method FindEmptyVector(read: string) returns (found: bool)
    ensures found == HasEmptyVector(read)
  {
    var i := 0;
    while i < |EmptyVecSeq|
      invariant 0 <= i <= |EmptyVecSeq|
      invariant forall k :: 0 <= k < i ==> Find(read, EmptyVecSeq[k].1) == -1
    {
      if Find(read, EmptyVecSeq[i].1) != -1 {
        return true;
      }
      i := i + 1;
    }
    return false;
  }

  /** The checks at the start of the constructor. */
  method Prechecks(r1: ReadState, r2: ReadState) returns (p: Precheck)
    ensures p == PrecheckOf(r1, r2)
  {
    if r1.meanPhredQuality < 20 {
      return Stop("BQ  - " + r1.filename);
    }
    if r2.meanPhredQuality < 20 {
      return Stop("BQ  - " + r2.filename);
    }
    var empty := FindEmptyVector(r2.read);
    if empty {
      return Stop("empty vector - " + r2.filename);
    }
    if r2.chainType.None? {
      return Crash;
    }
    if r2.chainType.value == "N/A" {
      return Stop(r2.filename + " is not an immunglobulin chain.");
    }
    if r1.chainType.None? {
      return Crash;
    }
    if r1.chainType.value != r2.chainType.value {
      return Stop("chain types differ! " + r1.filename + ": " + r1.chainType.value + "C, " + r2.filename + ": " +
                  r2.chainType.value + "C.");
    }
    if r1.blasted.None? || r2.blasted.None? {
      return Crash;
    }
    var b1, b2 := r1.blasted.value, r2.blasted.value;
    var note := "";
    if b1.topJ != b2.topJ && b1.topV != b2.topV {
      return Stop("Diff " + r1.chainType.value + "C (Both J and V genes do not match. These are most likely completely different chains)");
    } else if b1.topJ != b2.topJ {
      note := "J genes do not match. ";
    } else if b1.topV != b2.topV {
      note := "V genes do not match. ";
    }
    var p1 := ProductiveNote(r1.filename, b1.productive);
    if p1.None? {
      return Crash;
    }
    note := note + p1.value;
    var p2 := ProductiveNote(r2.filename, b2.productive);
    if p2.None? {
      return Crash;
    }
    return Proceed(note + p2.value);
  }

  /** The loop over one bucket's regions. */
  method BucketLine(b: Bucket, tag: string) returns (r: string)
    ensures r == BucketText(b, tag)
  {
    r := "";
    var i := 0;
    while i < |b|
      invariant 0 <= i <= |b|
      invariant r + BucketText(b[i..], tag) == BucketText(b, tag)
    {
      var piece := " " + NatToString(b[i].1) + " " + tag + " " + b[i].0 + " ";
      assert BucketText(b[i..], tag) == piece + BucketText(b[i + 1..], tag) by {
        assert b[i..][1..] == b[i + 1..];
      }
      assert r + (piece + BucketText(b[i + 1..], tag)) == (r + piece) + BucketText(b[i + 1..], tag);
      r := r + piece;
      i := i + 1;
    }
    assert b[i..] == [];
  }

  /** The counters that are not zero, in their fixed order. */
  method CountsLine(c: Counts) returns (r: string)
    ensures r == CountsText(c)
  {
    var f := "";
    if c.fr1Canceled > 0 {
      f := NatToString(c.fr1Canceled) + " SHM- FR1(P)";
    }
    var b := BucketsLine(c);
    var j := JLine(c);
    r := f + b + j;
  }

  /** The five buckets, one after the other. */
  method BucketsLine(c: Counts) returns (b: string)
    ensures b == BucketsText(c)
  {
    b := BucketLine(c.sAdded, "sSHM+");
    var t := BucketLine(c.nsAdded, "nsSHM+");
    b := b + t;
    t := BucketLine(c.sCanceled, "sSHM-");
    b := b + t;
    t := BucketLine(c.nsExchanged, "nsSHMchg");
    b := b + t;
    t := BucketLine(c.nsCanceled, "nsSHM-");
    b := b + t;
  }

  /** The two J counters. */
  method JLine(c: Counts) returns (j: string)
    ensures j == JText(c)
  {
    j := "";
    if c.jCanceled > 0 {
      j := " " + NatToString(c.jCanceled) + " SHM J(P)-";
    }
    if c.jAdded > 0 {
      j := j + " " + NatToString(c.jAdded) + " SHM J(P)+";
    }
  }

  /** `AlignPCRObject(pcr1, pcr2)`: the two reads and the attributes the
      comparison sets. */
  class AlignPCRObject {
    const pcr1: SequenceFile
    const pcr2: SequenceFile
    var attrs: PcrAttrs
    /** The constructor raised: the object is never handed out. */
    var raised: bool

    constructor (pcr1: SequenceFile, pcr2: SequenceFile, t: PrimerTables, translate: Translate, showFloat: real -> string)
      ensures this.pcr1 == pcr1 && this.pcr2 == pcr2
      ensures raised <==> CompareOf(pcr1.attrs, pcr2.attrs, t, translate, showFloat).None?
      ensures !raised ==> attrs == CompareOf(pcr1.attrs, pcr2.attrs, t, translate, showFloat).value
    {
      this.pcr1 := pcr1;
      this.pcr2 := pcr2;
      attrs := PcrAttrs("", "", None, None, None, None);
      raised := false;
      new;
      var p := Prechecks(pcr1.attrs, pcr2.attrs);
      match p {
        case Crash =>
          raised := true;
        case Stop(m) =>
          attrs := attrs.(output := m, shmananalysis := Some("n/a"));
        case Proceed(note) =>
          attrs := attrs.(output := note);
          Analyse(t, translate, showFloat);
      }
    }

    /** The part of the constructor after the checks, from the notes in
        `output` on. */
    method Analyse(t: PrimerTables, translate: Translate, showFloat: real -> string)
      requires !raised && attrs == PcrAttrs(attrs.output, "", None, None, None, None)
      modifies this
      ensures raised <==> Analysed(pcr1.attrs, pcr2.attrs, old(attrs.output), t, translate, showFloat).None?
      ensures !raised ==> attrs == Analysed(pcr1.attrs, pcr2.attrs, old(attrs.output), t, translate, showFloat).value
    {
      var r1, r2 := pcr1.attrs, pcr2.attrs;
      if r1.blasted.None? || r2.blasted.None? || r2.chainType.None? {
        raised := true;
        return;
      }
      var st := SetupOf(r1.blasted.value, r2.blasted.value, r2.chainType.value);
      if st.None? {
        raised := true;
        return;
      }
      attrs := attrs.(offsetPcr1 := Some(st.value.offset1), offsetPcr2 := Some(st.value.offset2),
                      pcr2AlignmentStart := Some(st.value.start2));
      if r1.alignedSeq.None? {
        raised := true;
        return;
      }
      var sc := Scan(ContextOf(r1, r2, st.value, translate));
      if sc.None? {
        raised := true;
        return;
      }
      WriteSummary(sc.value);
      Finish(st.value, t, showFloat);
    }

    /** The two `exportDict`s, the `CAVE` checks and `shmanalysis`. */
    method Finish(st: Setup, t: PrimerTables, showFloat: real -> string)
      requires !raised && pcr2.attrs.chainType.Some?
      requires attrs == PcrAttrs(attrs.output, "", None, Some(st.offset1), Some(st.offset2), Some(st.start2))
      modifies this
      ensures raised <==> Finished(pcr1.attrs, pcr2.attrs, old(attrs.output), st, t, showFloat).None?
      ensures !raised ==> attrs == Finished(pcr1.attrs, pcr2.attrs, old(attrs.output), st, t, showFloat).value
    {
      var ed1 := new ExportDict(pcr1, t, showFloat);
      var ed2 := new ExportDict(pcr2, t, showFloat);
      if ed1.raised || ed2.raised {
        raised := true;
        return;
      }
      attrs := attrs.(output := attrs.output + CaveText(pcr2.attrs.chainType.value, pcr2.attrs.read));
      var shm := ShmAnalysis(ed1.store, ed2.store, showFloat);
      if shm.None? {
        raised := true;
        return;
      }
      attrs := attrs.(shmanalysis := shm.value);
    }

    /** The index-error message, the counts and the `0` of an empty output. */
    method WriteSummary(sc: Scanned)
      modifies this
      ensures attrs == old(attrs).(output := Summary(old(attrs.output), sc)) && raised == old(raised)
    {
      ghost var note := attrs.output;
      if sc.truncated {
        attrs := attrs.(output := attrs.output + IndexErrorMessage);
      } else {
        assert attrs.output == note + "";
      }
      var counts := CountsLine(sc.counts);
      attrs := attrs.(output := attrs.output + counts);
      if attrs.output == "" {
        attrs := attrs.(output := "0");
      }
    }

    /** The loop over the first read's aligned sequence. */
    method Scan(x: Ctx) returns (r: Option<Scanned>)
      requires x.r2 == pcr2.attrs
      ensures r == ScanFrom(x, NoCounts, 0)
    {
      var c := NoCounts;
      var i := 0;
      while i < |x.a1|
        invariant 0 <= i <= |x.a1|
        invariant ScanFrom(x, NoCounts, 0) == ScanFrom(x, c, i)
        decreases |x.a1| - i
      {
        var st := ScanStep(x, c, i);
        match st {
          case Throws =>
            return None;
          case Overrun =>
            return Some(Scanned(c, true, i));
          case Counted(next) =>
            ScanNext(x, c, i);
            c := next;
            i := i + 1;
        }
      }
      return Some(Scanned(c, false, i));
    }

    /** One position of the loop: nothing before the second read starts or
        where the reads agree, the end at the second read's end. */
    method ScanStep(x: Ctx, c: Counts, i: nat) returns (st: Step)
      requires x.r2 == pcr2.attrs && i < |x.a1|
      ensures st == StepAt(x, c, i)
    {
      var j := x.offset + i;
      if j < 0 {
        return Counted(c);
      }
      if x.r2.alignedSeq.None? {
        return Throws;
      }
      if j >= |x.r2.alignedSeq.value| {
        return Overrun;
      }
      var nt2 := x.r2.alignedSeq.value[j];
      if nt2 == x.a1[i] {
        return Counted(c);
      }
      st := ClassifyAt(x, c, j, nt2, x.a1[i]);
    }

    /** One differing position, with `identify_gene_region` on the second
        read. */
    method ClassifyAt(x: Ctx, c: Counts, j: int, nt2: char, letter: char) returns (r: Step)
      requires x.r2 == pcr2.attrs
      ensures r == Classify(x, c, j, nt2, letter)
    {
      var pos := j + x.start2;
      var g := OriginalNtOf(x.r2, pos);
      if g.None? || x.r2.geneSeq.None? {
        return Throws;
      }
      var geneLen := |x.r2.geneSeq.value|;
      if nt2 == g.value {
        if j < x.fwd {
          return Counted(c.(fr1Canceled := c.fr1Canceled + 1));
        } else if j > geneLen - x.rev {
          return Counted(c.(jCanceled := c.jCanceled + 1));
        }
        var region := pcr2.IdentifyGeneRegion(pos);
        var t1, t2 := TranslatedOf(x.r1, j, x.translate), TranslatedOf(x.r2, j, x.translate);
        if region.None? || t1.None? || t2.None? {
          return Throws;
        }
        return Counted(Bump(c, if t2 == t1 then SilentCanceled else NonsilentCanceled, region.value));
      } else if letter == g.value {
        if j > geneLen - x.rev {
          return Counted(c.(jAdded := c.jAdded + 1));
        }
        var region := pcr2.IdentifyGeneRegion(pos);
        var t1, t2 := TranslatedOf(x.r1, j, x.translate), TranslatedOf(x.r2, j, x.translate);
        if region.None? || t1.None? || t2.None? {
          return Throws;
        }
        if t2 == t1 {
          return Counted(Bump(c, SilentAdded, region.value));
        }
        var silent := SilentOf(x.r2, j, x.translate);
        if silent.None? {
          return Throws;
        }
        return Counted(Bump(c, if silent == Some(PyTrue) then SilentAdded else NonsilentAdded, region.value));
      } else {
        var region := pcr2.IdentifyGeneRegion(pos);
        var silent := SilentOf(x.r2, j, x.translate);
        if region.None? || silent.None? {
          return Throws;
        }
        return Counted(Bump(c, if silent == Some(PyTrue) then SilentAdded else NonsilentExchanged, region.value));
      }
    }
  }
}
