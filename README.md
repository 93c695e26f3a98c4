# BASE core in Dafny

BASE analyses Sanger reads of antibody heavy (H), kappa (K) and lambda (L)
chains. Its core, modelled here, has five parts:

- `IgBlastParser.LoadBlastedOutput` reads an IgBLAST report. It collects the
  rearrangement summary, the junction details, the alignment summary table,
  the CDR3 line and the V, D and J hit rows. `return_dict()` then builds the
  dictionary the rest of BASE reads.
- `SequenceFile` applies the quality gate to a read. It then takes the
  IgBLAST call, the constant-region BLAST call and the IgG/IgA/IgM subclass
  heuristics, and builds the aligned and germline sequences. Its position
  lookups are also modelled: `identify_gene_region`,
  `identify_V_gene_subregion`, `identify_gene`, `original_nt`,
  `translatedAA` and `IsThisNTSilent`.
- `exportDict` builds the spreadsheet row of a parsed read: gene calls,
  subclass, CDR3, SHM, function, primers and restriction sites.
- `AlignPCRObject` compares a second-PCR read with a plasmid read. It runs the
  prechecks, scans the aligned positions and classifies each mismatch against
  the germline (silent or not, added or cancelled). Then it writes the
  summary and the CAVE warnings about mutated cloning sites.
- `aBASE` builds a read's file name from its spreadsheet cell. It collects
  one code per row (`H`, `K`, `L`, each followed by `*` when the chain is not
  functional) and turns that code into the cloning recommendation: the chains
  to clone, the non-functional ones among them, and the clone ID.

## How the model is built

- A Python `dict` is a sequence of key/value pairs in insertion order
  (module `Dict`). Order matters: a lookup returns the *first* matching
  region, and the mismatch buckets print in first-increment order.
- An exception is `None`, in an `Option`. `str.find` returns `-1` when the
  text is absent. A negative index counts from the end (`ReadLookups.At`).
  `int(x / 3)` truncates toward zero (`PyValue.Trunc`).
- Comparisons with `is` / `is not` are modelled as equality. The values
  involved are small integers and interned strings, which CPython caches.
- `IsThisNTSilent` returns `True` or, when the translations differ, the
  `None` its `else` branch falls through to (`ReadLookups.Truthy`).
- Where the source builds state step by step, the model is imperative:
  - a class whose fields are the attributes: `LoadBlastedOutput`,
    `SequenceFile`, `ExportDict`, `AlignPCRObject`;
  - `while` loops over the parse and scan steps.
  Every method is proved equal to a specification function, and the
  properties are proved about those functions.
- The external programs are parameters: `igblastn`'s report and `blastn`'s
  constant-region table arrive as lines of text. Biopython's `translate`
  is a parameter `Translate`, and rendering a float with `str()` is a
  parameter `showFloat`. The primer tables are a parameter `PrimerTables`,
  because `libBASE/primer.py` is not part of this model.

Modules: `Wrappers`, `PyStr` (the `str` methods used), `Dict`, `PyValue`
(`int()`/`float()` and typed cells), `Dna` (reverse complement), `Sorting`
(stable `sorted`), `IgBlastParser`, `IgSubClass`, `ReadLookups`,
`SequenceFiles`, `ExportDicts`, `AlignPcr`, `Cloning`.

## Model

| member | source | states |
|---|---|---|
| IgBlastParser.LoadBlastedOutput.constructor | libBASE/IgBlastParser.py:50-133 | the parser raises exactly when scanning a line or `process()` fails (leaving out the junction translation, see "## Left out"); otherwise `blast_dict` is what `process()` builds from the scanned attributes, and `junction_together` concatenates the junction values |
| IgBlastParser.LoadBlastedOutput.ScanOne | libBASE/IgBlastParser.py:50-131 | one pass of the scan loop: it fails exactly when the line makes the loop raise, and otherwise leaves the attributes as one scan step over the line |
| IgBlastParser.LoadBlastedOutput.Process | libBASE/IgBlastParser.py:135-145 | `blast_dict[query]` holds the parsed rearrangement, junction, alignment summaries and V/D/J hits, and the scanned attributes are unchanged |
| IgBlastParser.LoadBlastedOutput.ReturnDict | libBASE/IgBlastParser.py:255-423 | the returned dictionary is the one `return_dict()` builds from the processed report, or an error where it raises |
| IgBlastParser.ScanCdr3Imgt | libBASE/IgBlastParser.py:85-98 | a `CDR3-IMGT` line stores the fields from the third one on as the `cdr3` alignment row and changes nothing else |
| IgBlastParser.ScanCdr3Plain | libBASE/IgBlastParser.py:116-120 | a `CDR3` line that is not `CDR3-IMGT` sets sequence, translation, start and end from its tab fields 1-4, and raises when it has fewer than five |
| IgBlastParser.ScanCdr3OnlyFromCdr3Line | libBASE/IgBlastParser.py:85-120 | only a `CDR3` line that is not `CDR3-IMGT` can change the recorded CDR3 |
| IgBlastParser.ScanTotal | libBASE/IgBlastParser.py:99-114 | a `Total` line mentioning CDR3 records its fifth field (raising when it is missing); one of exactly eight fields becomes the `total` alignment row; any other is ignored |
| IgBlastParser.ScanHitRow | libBASE/IgBlastParser.py:122-131 | after the `# Fields:` line, a line starting with V, D or J goes to the end of that segment's hit list; before it, nothing is collected |
| IgBlastParser.ScanAllRaised | libBASE/IgBlastParser.py:50-131 | once a line of the report raises, the whole parse raises, whatever follows |
| IgBlastParser.RearrangementEntry | libBASE/IgBlastParser.py:153-161 | each rearrangement title (stripped) maps to its value: a tuple of the comma-separated pieces, which join back to the value, or the value itself when it has no comma; the last duplicate title wins |
| IgBlastParser.RearrangementMissing | libBASE/IgBlastParser.py:153-161 | a title absent from the zipped titles has no entry |
| IgBlastParser.JunctionParenthesised | libBASE/IgBlastParser.py:163-176 | a value with `(` stores the text inside the parentheses as `d-or-j_junction` and appends it to the concatenated junction |
| IgBlastParser.JunctionPlain | libBASE/IgBlastParser.py:163-176 | any other value is stored under its title lower-cased with spaces turned to `_`, and joins the concatenated junction unless it is `N/A` |
| IgBlastParser.TogetherOfNA | libBASE/IgBlastParser.py:172-175 | a junction made only of `N/A` values concatenates to the empty text |
| IgBlastParser.RegionEntry | libBASE/IgBlastParser.py:179-191 | each alignment-summary cell is an int where the modelled `int()` (`PyStr.ParseInt`) accepts it, else a float where the modelled `float()` (`PyStr.ParseFloat`) does, else the text |
| IgBlastParser.RegionKeys | libBASE/IgBlastParser.py:181-184 | with distinct titles, a region's keys are the stripped titles, in order, up to the shorter of titles and values |
| IgBlastParser.RegionDictsRows | libBASE/IgBlastParser.py:181-191 | there is one region dictionary per alignment-summary row, in the rows' order |
| IgBlastParser.Cdr3CheckResult | libBASE/IgBlastParser.py:196-203 | when the CDR3 count is not `"0"`: `cdr3.from`/`to` come from the CDR3 line; the other `cdr3` cells survive only when the summary's `from` equals the CDR3 start; other regions are untouched |
| IgBlastParser.Cdr3CheckSkipped | libBASE/IgBlastParser.py:196-203 | a CDR3 count of `"0"` leaves the summaries as they are; a report without the count raises |
| IgBlastParser.HitKey | libBASE/IgBlastParser.py:216 | a hit column name has no blank and no `.` |
| IgBlastParser.HitsRanked | libBASE/IgBlastParser.py:207-253 | the i-th hit row is stored under `rank_i`, and there is one entry per row |
| IgBlastParser.HitsGetRank | libBASE/IgBlastParser.py:219 | looking up `rank_k` gives the k-th hit row |
| IgBlastParser.HitCell | libBASE/IgBlastParser.py:213-218 | the k-th field of a hit row is the (k+1)-th whitespace token, as a float where the modelled `float()` (`PyStr.ParseFloat`) accepts it and as text otherwise |
| IgBlastParser.RankOneLeast | libBASE/IgBlastParser.py:330-351 | `rank_1` sorts strictly before every other rank key under string order |
| IgBlastParser.FirstRankIsFirstRow | libBASE/IgBlastParser.py:330-363 | after `sorted`, the first hit-array entry is the first hit row of the report; there is none when no row was collected |
| IgBlastParser.JunctionSpan | libBASE/IgBlastParser.py:371-404 | a junction placed after the V gene starts one past the V end (plus the D-J counter) and spans exactly its text's length |
| IgBlastParser.JunctionWithoutV | libBASE/IgBlastParser.py:371-404 | without a V alignment, a V-D or D-J junction keeps only its text and a V-J junction stays empty, as the bare `except` leaves them |
| IgBlastParser.GeneAlignmentsJunctions | libBASE/IgBlastParser.py:371-404 | each junction entry exists exactly when the report gives that junction, and is placed from the V end, the D-J one shifted by the V-D junction and the D gene |
| IgBlastParser.GeneEntries | libBASE/IgBlastParser.py:358-366 | `v`, `d` and `j` hold the start, end and sequence of the first-ranked hit of their segment |
| IgBlastParser.DjJunctionStart | libBASE/IgBlastParser.py:383-393 | the D-J counter is the V-D junction length plus the D gene length, and the D-J junction starts that far past the V end |
| IgBlastParser.ReturnDictDefaults | libBASE/IgBlastParser.py:272-311 | each rearrangement field falls back to `N/A` when missing (`top_j` to the tuple `("N/A",)`); the CDR3 sequence falls back to `N/A`; the CDR3 count is copied |
| IgBlastParser.ReturnDictFails | libBASE/IgBlastParser.py:417 | once the report has a CDR3 count, `return_dict()` raises exactly when `Productive` is a tuple, whose `.lower()` fails |
| IgBlastParser.ProcessIgnoresFlags | libBASE/IgBlastParser.py:135-145 | what `process()` builds does not depend on the scanner's pending-line flags |
| IgBlastParser.ParseRearrangement | libBASE/IgBlastParser.py:153-161 | the zip loop returns the rearrangement dictionary whose entries `RearrangementEntry` and `RearrangementMissing` describe |
| IgBlastParser.ParseJunction | libBASE/IgBlastParser.py:163-176 | the zip loop returns the junction dictionary and concatenated junction that `JunctionParenthesised` and `JunctionPlain` describe |
| IgBlastParser.ParseAlignmentSummaries | libBASE/IgBlastParser.py:179-205 | the nested loops return one typed dictionary per region (`RegionDictsRows`, `RegionEntry`) after the CDR3 check (`Cdr3CheckResult`) |
| IgBlastParser.ParseHits | libBASE/IgBlastParser.py:207-253 | the loop returns the hit rows under `rank_1`, `rank_2`, ... in report order (`HitsRanked`) |
| IgBlastParser.BuildGeneAlignments | libBASE/IgBlastParser.py:358-404 | the loop and the junction steps return the `gene_alignments` that `GeneEntries` and `GeneAlignmentsJunctions` describe |
| IgSubClass.ReadConstantHits | libBASE/libBASE.py:222-230 | the loop over the constant-region table calls the subject of the first line containing `Ig` whose bit score is above 50 and e-value below 0.0001, keeping the scores of the last `Ig` line it parsed; a line that does not parse raises |
| IgSubClass.ScanSound | libBASE/libBASE.py:222-230 | a subclass is called only from a line whose scores pass both thresholds |
| IgSubClass.FirstAcceptedWins | libBASE/libBASE.py:222-230 | the first accepted line decides the call, whatever follows it |
| IgSubClass.NoneAccepted | libBASE/libBASE.py:222-230 | when no line passes, no subclass is called (and the table does not raise) |
| IgSubClass.DecideSubClass | libBASE/libBASE.py:239-307 | the heavy-chain subclass, comment and CDR3 position are those of the BLAST call or the heuristics |
| IgSubClass.HitDecides | libBASE/libBASE.py:239-243 | a BLAST call is the subclass; a bit score below 80 replaces the comment with the low-confidence note |
| IgSubClass.IgG1Window | libBASE/libBASE.py:249-251 | IgG1 is called exactly when the IgG motif lies in (0, 200) and 30 to 32 bases after the IgG1 motif |
| IgSubClass.IgG34Overrides | libBASE/libBASE.py:261-262 | the IgG3/IgG4 motif in the first 200 bases overrides any IgG1/IgG2 call |
| IgSubClass.IgAOverrides | libBASE/libBASE.py:265-270 | a `TGCTG` in (0, 100) followed by the IgA1 or IgA2 motif calls IgA1 or IgA2 |
| IgSubClass.IgA2BoundQuirk | libBASE/libBASE.py:276 | the fallback IgA2 check tests one motif for presence and another for position, so IgA2 is called with the bounded motif absent |
| IgSubClass.BeforeIgMNotIgM | libBASE/libBASE.py:244-278 | the IgG and IgA heuristics never call IgM |
| IgSubClass.IgMIff | libBASE/libBASE.py:281-295 | IgM is called exactly when no other subclass was found and the reverse-complemented CDR3 starts in the first 100 bases |
| IgSubClass.HeuristicsCall | libBASE/libBASE.py:281-307 | the heuristics always end with a non-empty subclass, and the CDR3 position is the search for the reverse-complemented CDR3 |
| ReadLookups.At | libBASE/libBASE.py:354 | a Python index is valid exactly from `-len` to `len - 1` |
| ReadLookups.VSubregionFirst | libBASE/libBASE.py:335-347 | the first non-`total` alignment row covering `from <= pos < to` is the subregion |
| ReadLookups.VSubregionNone | libBASE/libBASE.py:335-347 | when no row covers the position, the answer is `n/d` |
| ReadLookups.VSubregionRaises | libBASE/libBASE.py:343-344 | a row reached whose `from`/`to` are not integers raises |
| ReadLookups.VSubregionSound | libBASE/libBASE.py:335-347 | any subregion returned is a row that covers the position |
| ReadLookups.VSubregionExcludesTo | libBASE/libBASE.py:345 | a subregion's `to` is excluded and the position just before it is included |
| ReadLookups.GeneRegionFirst | libBASE/libBASE.py:324-333 | the first gene alignment covering `start <= pos <= end` is the answer |
| ReadLookups.GeneRegionNone | libBASE/libBASE.py:324-333 | when none covers it, the answer is `n/d` |
| ReadLookups.GeneRegionRaises | libBASE/libBASE.py:329-330 | an alignment reached without integer bounds raises |
| ReadLookups.GeneRegionSound | libBASE/libBASE.py:324-333 | any region returned is an alignment covering the position |
| ReadLookups.GeneRegionAtCases | libBASE/libBASE.py:315-322 | the V subregion decides unless it is `n/d`, in which case the gene region decides; an error in the first lookup propagates |
| ReadLookups.OriginalNtAt | libBASE/libBASE.py:349-354 | the germline base at `pos` is `gene_seq[pos - v.start]` |
| ReadLookups.OriginalNtWraps | libBASE/libBASE.py:354 | a position before the V start reads from the end of the germline sequence |
| ReadLookups.OriginalNtRaises | libBASE/libBASE.py:354 | a position past the germline sequence raises |
| ReadLookups.TruncThird | libBASE/libBASE.py:373 | `int(pos/3)` is the integer quotient for non-negative positions |
| ReadLookups.TranslatedWindow | libBASE/libBASE.py:367-386 | the two codons translated are the same three-base window of germline and aligned read, at the codon start shifted by the V hit's subject start; a failed translation gives `*` and `n/d` |
| ReadLookups.TranslatedPastGene | libBASE/libBASE.py:371-372 | past the germline sequence both translations are `n/d`, which counts as silent |
| ReadLookups.IsThisNTSilent | libBASE/libBASE.py:356-365 | the position is silent exactly when the two translations are equal; it fails exactly when the translation does |
| SequenceFiles.MeanQualityBounds | libBASE/libBASE.py:71 | the mean phred quality is the floor of the average |
| SequenceFiles.GateFails | libBASE/libBASE.py:75-78 | a read shorter than 50 bases or with mean quality below 12 is not parsed, gets chain type `n/d` and the quality comment, and is not blasted |
| SequenceFiles.BlastedIsReport | libBASE/libBASE.py:79-81 | a read passing the gate is blasted exactly when IgBLAST's report parsed, and then carries that report |
| SequenceFiles.BlastedStage | libBASE/libBASE.py:133-237 | `IgBlastMe` keeps the name, the read, its length and quality, the success flag and the alignment attributes. A failed igblastn run, blastn run or report parse changes only the comment, to that failure's message. Otherwise the report is stored, the blastn hit and its scores are copied, and the chain type is the report's with `V` stripped. A heavy chain also gets the subclass, comment and CDR3 position of the subclass decision; a light chain keeps those three |
| SequenceFiles.BlastedRaises | libBASE/libBASE.py:222-237 | `IgBlastMe` raises exactly when the report parsed but a blastn hit line's scores are not numbers, or the chain type is a tuple |
| SequenceFiles.AlignedStage | libBASE/libBASE.py:83-131 | the read stays parsed exactly when it was, it has hits, and its aligned sequence has at least 80 bases |
| SequenceFiles.SuccessIff | libBASE/libBASE.py:63-131 | `successfullyParsed` holds exactly when the gate passes, IgBLAST parsed with hits, and at least 80 bases were aligned |
| SequenceFiles.ChainTypeSet | libBASE/libBASE.py:63-131 | every parsed `SequenceFile` ends with a chain type |
| SequenceFiles.AlignedSpan | libBASE/libBASE.py:88-113 | the aligned sequence is the oriented read from the V query start to the J (or D, or V) query end, of length `end - start + 1` when in range |
| SequenceFiles.AlignedOnlyWithSpan | libBASE/libBASE.py:88-117 | an aligned sequence exists only for a read with hits and with both ends found |
| SequenceFiles.EndFallback | libBASE/libBASE.py:96-105 | the aligned end is the J hit's query end, else the D hit's, else the V hit's, and is missing only when all three are |
| SequenceFiles.OrientedRecoversRead | libBASE/libBASE.py:108-111 | a minus-strand read is reverse-complemented, and complementing again gives back the read; any other read is kept |
| SequenceFiles.GeneSeqAscending | libBASE/libBASE.py:119-125 | the germline sequence is the gene alignments' sequences joined in ascending start order. The order is a permutation of the alignments, and alignments with equal starts keep their dictionary order |
| SequenceFiles.NumericStartsAscend | libBASE/libBASE.py:121 | after the sort, numeric starts are in ascending order |
| SequenceFiles.GeneSeqEmptyOnRaise | libBASE/libBASE.py:119-125 | an alignment without a start makes `sorted` raise, leaving the germline sequence empty |
| SequenceFiles.JoinGeneSeq | libBASE/libBASE.py:119-125 | the join loop returns the germline sequence, the alignments' sequences in ascending start order (`GeneSeqAscending`) |
| SequenceFiles.SequenceFile.constructor | libBASE/libBASE.py:63-131 | the constructor raises exactly when a step escapes; otherwise its attributes are those of the parsed read |
| SequenceFiles.SequenceFile.IgBlastMe | libBASE/libBASE.py:133-307 | the method leaves the attributes as the blasting stage does |
| SequenceFiles.SequenceFile.Align | libBASE/libBASE.py:83-131 | the method leaves the attributes as the alignment stage does |
| SequenceFiles.SequenceFile.IdentifyVGeneSubregion | libBASE/libBASE.py:335-347 | the loop returns the first alignment-summary row covering the position, or `n/d` (`VSubregionFirst`, `VSubregionNone`) |
| SequenceFiles.SequenceFile.IdentifyGene | libBASE/libBASE.py:324-333 | the loop returns the first gene alignment covering the position, or `n/d` (`GeneRegionFirst`, `GeneRegionNone`) |
| SequenceFiles.SequenceFile.IdentifyGeneRegion | libBASE/libBASE.py:315-322 | the V subregion decides, and the gene region only when it is `n/d` (`GeneRegionAtCases`) |
| ExportDicts.SeqIdStem | libBASE/libBASE.py:403 | `Seq_ID` is the file name up to its first `.` |
| ExportDicts.HeadCells | libBASE/libBASE.py:403-406 | the row starts with `Seq_ID`, `QV` (the mean quality), `RL` (the length as text) and `Confirmation` = `NO` |
| ExportDicts.UnparsedHeadOnly | libBASE/libBASE.py:408-410 | a read that was not parsed or not blasted gets only the four head columns |
| ExportDicts.ExportRaises | libBASE/libBASE.py:412-437 | the constructor raises exactly when a parsed read lacks a chain type, has an empty tuple of calls for a segment, or is a heavy chain without a subclass |
| ExportDicts.ExportGeneCall | libBASE/libBASE.py:419-434 | each `IG<ct><segment>` column holds that segment's (first) top call with the `IG<ct><segment>` prefix removed |
| ExportDicts.GeneNameStripped | libBASE/libBASE.py:426-429 | removing the prefix leaves the allele name |
| ExportDicts.ExportCdr3 | libBASE/libBASE.py:441-455 | `CDR3` holds the translated CDR3 (repeated as `CDR3 IGHV` for H) and `CDR3L` its length, or an empty cell when it is `N/A` |
| ExportDicts.ExportShm | libBASE/libBASE.py:457-468 | `SHM` and its two copies hold the total mismatches, with the gap count appended when there are gaps |
| ExportDicts.ExportFunction | libBASE/libBASE.py:470-473 | `Function` is `Y` exactly for a productive rearrangement, else `N` |
| ExportDicts.ExportPrimers | libBASE/libBASE.py:475-500 | the primer columns come from the chain's V and J tables; a missing call gives an empty cell when not productive, else `Primer not yet included` |
| ExportDicts.ExportMotif | libBASE/libBASE.py:502-520 | each restriction-site column holds the site's cell for the read |
| ExportDicts.MotifCellMeaning | libBASE/libBASE.py:502-520 | the cell is `N` exactly when the site is absent; otherwise it is `Y(P,p)` exactly when it is AgeI inside a primer, else `Y(p)`, with `p` the first occurrence |
| ExportDicts.ExportDict.constructor | libBASE/libBASE.py:400-520 | the object raises exactly when the specification does, and otherwise holds the specified row |
| AlignPcr.Bump | libBASE/libBASE.py:661-711 | counting a mismatch raises the total by one and only adds buckets, leaving the primer counters alone |
| AlignPcr.StepAt | libBASE/libBASE.py:634-711 | one position adds one count exactly when the reads differ there; it overruns exactly when past the end of the second read |
| AlignPcr.Classify | libBASE/libBASE.py:652-711 | a counted mismatch raises the total by one; a cancelled forward-primer count happens only inside the forward tolerance, a J count only inside the reverse tolerance with a germline base |
| AlignPcr.ScanCounts | libBASE/libBASE.py:633-712 | the scan stops at the read's end or at an overrun, which it reports as truncated, and counts exactly the differing positions before that |
| AlignPcr.ScanWindows | libBASE/libBASE.py:652-675 | the primer-cancelled counters never exceed the positions inside the tolerance windows |
| AlignPcr.PrimerCountersBounded | libBASE/libBASE.py:26-27 | the forward counter stays within 33/32/27 for H/K/L, the J counters within 20 for H and K, and zero for L |
| AlignPcr.BucketTextEmpty | libBASE/libBASE.py:717-726 | a bucket prints nothing exactly when it is empty |
| AlignPcr.CountsTextEmpty | libBASE/libBASE.py:715-732 | the counts print nothing exactly when all are zero, and never print `0` |
| AlignPcr.ZeroCounts | libBASE/libBASE.py:633-712 | no counts are recorded exactly when the reads agree up to where the scan stopped |
| AlignPcr.SummaryZero | libBASE/libBASE.py:715-732 | the summary is `0` exactly when the scan reached the end with no difference |
| AlignPcr.CaveMeaning | libBASE/libBASE.py:740-754 | a CAVE warning is added for the 5' or 3' cloning site exactly when that site is mutated in the read |
| AlignPcr.PrecheckProceeds | libBASE/libBASE.py:567-606 | the comparison proceeds exactly when both qualities are at least 20, the empty vector is absent, the chain types agree (and are not `N/A`), both are blasted, V or J matches, and both productivity cells are text |
| AlignPcr.QualityFirst | libBASE/libBASE.py:567-572 | a bad quality stops first and names the first bad file |
| AlignPcr.CompareStops | libBASE/libBASE.py:567-606 | a stop gives `n/a` and its message, with no offsets, and a proceed gives no stop entry |
| AlignPcr.AnalysedOutcome | libBASE/libBASE.py:612-756 | a finished analysis ends with the CAVE text, records both offsets and the second read's V start, and reports the SHM of both reads |
| AlignPcr.FindEmptyVector | libBASE/libBASE.py:31 | the loop over H, K and L reports whether any chain's empty-vector sequence occurs in the read |
| AlignPcr.Prechecks | libBASE/libBASE.py:567-606 | the checks follow the source's order and give the verdict whose meaning `PrecheckProceeds` and `QualityFirst` state |
| AlignPcr.AlignPCRObject.Scan | libBASE/libBASE.py:633-712 | the scan loop counts exactly the differing positions up to the end or the first overrun (`ScanCounts`), within the primer windows (`ScanWindows`) |
| AlignPcr.AlignPCRObject.constructor | libBASE/libBASE.py:561-756 | the object raises exactly when the comparison does, and otherwise holds its attributes |
| Dna.ReverseComplementInvolution | libBASE/libBASE.py:109 | complementing a sequence twice gives it back |
| Sorting.SortSorted | libBASE/libBASE.py:121 | `sorted` yields an ordered permutation of its input |
| Sorting.SortStable | libBASE/libBASE.py:121 | `sorted` is stable: the elements that compare equal to any given one come out in their input order |
| Sorting.SortHeadIsLeast | libBASE/IgBlastParser.py:331 | a strictly least element sorts first |
| PyStr.Find | libBASE/libBASE.py:249 | `find` returns the first occurrence, or `-1` exactly when there is none |
| PyStr.JoinSplitOn | libBASE/IgBlastParser.py:156-158 | joining the pieces of `split(c)` with `c` gives back the text |
| PyStr.SplitOnJoin | libBASE/IgBlastParser.py:156-158 | splitting pieces without `c` after joining them gives back the pieces |
| PyStr.ParseIntOfIntToString | libBASE/IgBlastParser.py:186 | `int(str(i)) == i` |
| PyValue.Trunc | libBASE/libBASE.py:373 | `int()` of a real truncates toward zero |
| Cloning.FileNameShape | aBASE.py:144-150 | the file name replaces every `-` by `_`, keeping the length, and adds the prefix and `.ab1` when a prefix is given |
| Cloning.ContributionNeeds | aBASE.py:134-183 | a cell marks its row only if it is non-empty, not yet confirmed (or overwrite is set), loads a parsed read of the column's chain, and has both primers naming the chain; the mark is functional exactly for a productive read |
| Cloning.ContributionGiven | aBASE.py:134-183 | conversely, such a cell marks its row, functional exactly for a productive read |
| Cloning.AddPart | aBASE.py:175-183 | the `+=` / `KeyError` pair appends the chain letter to the row's code, creating it when missing |
| Cloning.RowCode | aBASE.py:130-183 | a row's code is its heavy, kappa and lambda parts in that order |
| Cloning.AdviceMeaning | aBASE.py:199-226 | the recommendation of every code follows the intended table |
| Cloning.AdviceShape | aBASE.py:215-223 | a recommended row has a heavy chain, as written and as corrected. Its cloning cell has no `*`, and a non-functional cell is written exactly when the rewritten code has a `*` |
| Cloning.AsWrittenAgrees | aBASE.py:206-213 | the code as written agrees with the intended one on every code except `H*KL*` |
| Cloning.AsWrittenClonesLambda | aBASE.py:213 | as written, `H*KL*` recommends cloning `HKL` |
| Cloning.RunMeaning | aBASE.py:130-226 | as the script is written, every recommendation is the intended advice of its row, with that row's clone ID. The exception is a row with a non-functional heavy, a functional kappa and a non-functional lambda chain: it is told to clone `HKL`, with `H*` non-functional. Every row meant to be cloned gets a recommendation. The program stops unless all three key options are set |
| Cloning.CorrectedRunMeaning | aBASE.py:130-226 | with line 213 assigning `H*K`, every recommendation is the intended advice of its row, and every row meant to be cloned gets one |
| Cloning.CollectCodes | aBASE.py:130-183 | the loops over chains and cells build each row's code, heavy, kappa and lambda parts in order (`RowCode`) |
| Cloning.Advise | aBASE.py:204-223 | the method rewrites a code as the script does, leaving `H*KL*` as it is. It then builds the cloning and non-functional cells, which `AsWrittenAgrees`, `AsWrittenClonesLambda` and `AdviceShape` describe |
| Cloning.Recommend | aBASE.py:198-226 | the loop leaves each row's code rewritten and writes one recommendation for each row that gets one, in the order the rows were first coded |
| Cloning.Run | aBASE.py:130-226 | the whole cloning pass writes the recommendations that `RunMeaning` characterises |

## Left out

- Reading `.ab1` files, opening and saving the spreadsheet, and looking up column letters by header: the reads, the cell values and the `Confirmation` flags are inputs.
- `updateExcelRow` and the annotation cells written for unparsed, mismatched or missing reads (aBASE.py:155-168, 184-189): only their effect on the cloning codes is modelled.
- A missing `Confirmation` column or a cell holding a number rather than text: every cell is a string or empty.
- Running `igblastn` and `blastn`, temporary files and `./internal_data`: their outputs are parameters.
- `libBASE/primer.py` is not part of this model: the primer tables are a parameter.
- Biopython's `translate` and `str()` of a float: both are parameters, so translation and float rendering are not interpreted.
- `translate_junction` and the `partial_cdr3_aa` entry (IgBlastParser.py:147-151, 417-418): the junction translation is not modelled, and the model keeps only the concatenated junction. So the model also drops the exception Biopython's `translate()` raises inside `process()` on a codon outside its alphabet: the model's parser raises only where scanning or the rest of `process()` does.
- PyStr.ParseInt: accepts only ASCII decimal literals with an optional sign, and no `_` between digits (for example `003_102`, which Python reads as 3102). Those texts stay text in the alignment-summary and hit cells.
- PyStr.ParseFloat: accepts only decimal literals with an optional point and exponent. There is no `_` between digits, and no `inf`, `infinity` or `nan` in any case. A float is the exact real its literal denotes, not the nearest double, so comparisons such as `bit > 50` (libBASE.py:228) can differ within half an ulp.
- `json_dictionary`, `last_compared` and the other attributes that nothing reads.
- Printing and warnings (for example "CDR3 region cannot be uniquely identified"): not modelled.
- ReadLookups.VSubregionExcludesTo: the half-open `from <= pos < to` of `identify_V_gene_subregion` is reproduced as written, not widened to a closed interval.
- IgSubClass.IgA2BoundQuirk: the IgA2 check at libBASE.py:276 tests two different motifs. The intended motif is unclear, so the model keeps the code as written.
- Cloning.RowCode: requires that no row occurs twice in a chain column, which a spreadsheet range guarantees.
- Cloning.RunMeaning: only chain columns `H`, `K` and `L` are modelled.
- Cloning.Run: the methods follow line 213 as written. The corrected pass is the function `CorrectedRunOf`, which no method implements; `CorrectedRunMeaning` states its meaning.
- Identity comparisons (`is`, `is not`) are modelled as equality and inequality.

## Findings

| source | as written | input that shows it | evidently intended | confidence | as-written member | corrected member |
|---|---|---|---|---|---|---|
| aBASE.py:213 | `cloning_mAbs[row]=="H*K"` compares and discards the result, so the code stays `H*KL*` | non-functional heavy, functional kappa, non-functional lambda in one row (code `H*KL*`) | assign `H*K`: clone `HK`, with `H*` non-functional, as the three rewrites above it do | not executed | Cloning.AsWrittenClonesLambda | Cloning.AdviceMeaning |
