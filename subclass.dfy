/** The heavy-chain subclass decision of `SequenceFile.IgBlastMe`: the best
    hit of a blastn search of the read against the constant regions, and,
    when no hit was accepted, a chain of motif heuristics on the raw read. */
module IgSubClass {
  import opened Wrappers
  import opened PyStr
  import opened Dna

  // ===========================================================================
  // The constant-region hits
  // ===========================================================================

  /** What the scan of the blastn report leaves behind: the bit score and
      e-value of the last line it parsed, and the subject of the accepted
      line; `None` for an attribute that was never set. */
  datatype ConstantScan = ConstantScan(bit: Option<real>, evalue: Option<real>, hit: Option<string>)

  /** The cells of one hit line that the scan reads. */
  datatype ConstantLine = ConstantLine(bit: real, evalue: real, subject: string)

  /** Whitespace token 3 as a float (the bit score), token 2 (the e-value)
      and token 1 (the subject); `None` is the `IndexError` of a short line or
      the `ValueError` of a cell that is not a number. */
  function ParseConstantLine(line: string): Option<ConstantLine> {
    var tokens := SplitWs(Strip(line));
    if |tokens| < 4 then None
    else
      match (ParseFloat(tokens[3]), ParseFloat(tokens[2]))
      case (Some(b), Some(e)) => Some(ConstantLine(b, e, tokens[1]))
      case _ => None
  }

  /** A hit good enough to name the subclass. */
  predicate Accepted(c: ConstantLine) {
    c.bit > 50.0 && c.evalue < 0.0001
  }

  /** The loop over the report from `acc` on: lines mentioning `Ig` are
      parsed, and the first accepted one ends the loop; `None` is an
      exception, which the constructor does not catch. */
  function ScanFrom(acc: ConstantScan, lines: seq<string>): Option<ConstantScan>
    decreases |lines|
  {
    if lines == [] then Some(acc)
    else if !Contains(lines[0], "Ig") then ScanFrom(acc, lines[1..])
    else
      match ParseConstantLine(lines[0])
      case None => None
      case Some(c) =>
        if Accepted(c) then Some(ConstantScan(Some(c.bit), Some(c.evalue), Some(c.subject)))
        else ScanFrom(ConstantScan(Some(c.bit), Some(c.evalue), acc.hit), lines[1..])
  }

  function ScanConstant(lines: seq<string>): Option<ConstantScan> {
    ScanFrom(ConstantScan(None, None, None), lines)
  }

  /** The scan, as the source runs it: a loop that breaks at the accepted line. */
  method ReadConstantHits(lines: seq<string>) returns (r: Option<ConstantScan>)
    ensures r == ScanConstant(lines)
  {
    var bit: Option<real> := None;
    var evalue: Option<real> := None;
    var i := 0;
    while i < |lines|
      invariant 0 <= i <= |lines|
      invariant ScanConstant(lines) == ScanFrom(ConstantScan(bit, evalue, None), lines[i..])
    {
      assert lines[i..][1..] == lines[i + 1..];
      if Contains(lines[i], "Ig") {
        var c := ParseConstantLine(lines[i]);
        if c.None? {
          return None;
        }
        bit, evalue := Some(c.value.bit), Some(c.value.evalue);
        if Accepted(c.value) {
          return Some(ConstantScan(bit, evalue, Some(c.value.subject)));
        }
      }
      i := i + 1;
    }
    r := Some(ConstantScan(bit, evalue, None));
  }

  /** A subject is only ever taken from a line with bit score above 50 and
      e-value below 0.0001, and the scores left behind are that line's. */
  lemma {:induction false} ScanSound(acc: ConstantScan, lines: seq<string>)
    requires acc.hit.None?
    ensures var r := ScanFrom(acc, lines);
      r.Some? && r.value.hit.Some? ==>
        r.value.bit.Some? && r.value.evalue.Some? &&
        Accepted(ConstantLine(r.value.bit.value, r.value.evalue.value, r.value.hit.value))
    decreases |lines|
  {
    if lines != [] {
      var c := ParseConstantLine(lines[0]);
      if !Contains(lines[0], "Ig") {
        ScanSound(acc, lines[1..]);
      } else if c.Some? && !Accepted(c.value) {
        ScanSound(ConstantScan(Some(c.value.bit), Some(c.value.evalue), None), lines[1..]);
      }
    }
  }

  /** A line that is passed over: it does not mention `Ig`, or it parses and
      is not accepted. */
  predicate PassedOver(line: string) {
    !Contains(line, "Ig") || (ParseConstantLine(line).Some? && !Accepted(ParseConstantLine(line).value))
  }

  /** The scan state after a line that is passed over. */
  function PassOn(acc: ConstantScan, line: string): ConstantScan
    requires PassedOver(line)
  {
    if Contains(line, "Ig") then
      var c := ParseConstantLine(line).value;
      ConstantScan(Some(c.bit), Some(c.evalue), acc.hit)
    else acc
  }

  /** A line that is passed over only moves the scan on. */
  lemma PassOnStep(acc: ConstantScan, lines: seq<string>)
    requires lines != [] && PassedOver(lines[0])
    ensures ScanFrom(acc, lines) == ScanFrom(PassOn(acc, lines[0]), lines[1..])
  {
  }

  /** The first accepted line wins, whatever follows it. */
  lemma {:induction false} FirstAcceptedWins(acc: ConstantScan, lines: seq<string>, i: nat, c: ConstantLine)
    requires i < |lines| && acc.hit.None?
    requires forall j :: 0 <= j < i ==> PassedOver(lines[j])
    requires Contains(lines[i], "Ig") && ParseConstantLine(lines[i]) == Some(c) && Accepted(c)
    ensures ScanFrom(acc, lines) == Some(ConstantScan(Some(c.bit), Some(c.evalue), Some(c.subject)))
    decreases i
  {
    if i > 0 {
      PassOnStep(acc, lines);
      assert lines[1..][i - 1] == lines[i];
      assert forall j :: 0 <= j < i - 1 ==> lines[1..][j] == lines[j + 1];
      FirstAcceptedWins(PassOn(acc, lines[0]), lines[1..], i - 1, c);
    }
  }

  /** When every line is passed over no subject is taken. */
  lemma {:induction false} NoneAccepted(acc: ConstantScan, lines: seq<string>)
    requires acc.hit.None?
    requires forall j :: 0 <= j < |lines| ==> PassedOver(lines[j])
    ensures ScanFrom(acc, lines).Some? && ScanFrom(acc, lines).value.hit.None?
    decreases |lines|
  {
    if lines != [] {
      PassOnStep(acc, lines);
      assert forall j :: 0 <= j < |lines| - 1 ==> lines[1..][j] == lines[j + 1];
      NoneAccepted(PassOn(acc, lines[0]), lines[1..]);
    }
  }

  // ===========================================================================
  // The motif heuristics
  // ===========================================================================

  const Advice := "To properly identify this IgSubClass, it is strongly recommended to resequence the respective Ig"
  const HeuristicNote := "Ig SC identification is based on heuristics. Sequencing quality was bad in the beginning. If you depend on this IgSC to be correct, please consider resequencing."
  /** The IgA2 motif the last-resort test searches for, and the one whose
      position it bounds: they differ in their first base. */
  const IgA2Searched := "TGCGACGACCACGTTCCCATCTTGGGG"
  const IgA2Bounded := "GGCGACGACCACGTTCCCATCTTGGGG"
  const IgA1Long := "GGCGATGACCACGTTCCCATCTGGCTG"

  const IgMUnidentified := "IgSC is probably IgM, but cdr3 couldn't be identified. Please check manually that this is correct."
  const ProbablyIgG := "IgSC is n/d, probably it is a IgG."
  const ProbablyIgA := "IgSC is n/d, probably it is a IgA."

  /** The motifs the heuristics look for. */
  const IgG12Motif := "TTGGTGGAGGC"
  const IgG1Motif := "GGAGGGT"
  const IgG2Motif := "GCAGGGC"
  const IgG34Motif := "TTGGTGGAAG"
  const IgAMotif := "TGCTG"
  const IgA1Motif := "TGCTGCAGAG"
  const IgA2Motif := "TGCTGTCGAG"
  const IgGHint := "TGGA"

  const IgG1Comment := HeuristicNote + " If this is not an IgG1, it most likely is an IgG2."
  const IgG2Comment := HeuristicNote + " If this is not an IgG2, it most likely is an IgG1."
  const IgG12Call := "IgG1/IgG2. " + Advice
  const IgG34Call := "IgG3/IgG4. " + Advice
  const LowConfidencePrefix := "Ig SC determination confidence lower than usual (ebit: "
  const LowConfidenceSuffix := "). Inspect manually or sequence again."

  /** The subclass and comment as one heuristic leaves them. */
  datatype Call = Call(subClass: string, comment: string)

  /** IgG1 or IgG2: the `TTGGTGGAGGC` motif within the first 200 bases, and
      the distance from `GGAGGGT` (IgG1) or `GCAGGGC` (IgG2) strictly
      between 29 and 33. */
  function IgG12(read: string, c: Call): Call {
    var t := Find(read, IgG12Motif);
    if 0 < t < 200 then
      if 29 < t - Find(read, IgG1Motif) < 33 then
        Call("IgG1", IgG1Comment)
      else if 29 < t - Find(read, IgG2Motif) < 33 then
        Call("IgG2", IgG2Comment)
      else Call(IgG12Call, Advice)
    else c
  }

  /** IgG3 or IgG4: the `TTGGTGGAAG` motif within the first 200 bases. */
  function IgG34(read: string, c: Call): Call {
    var t := Find(read, IgG34Motif);
    if t > -1 && t < 200 then c.(subClass := IgG34Call) else c
  }

  /** IgA1 or IgA2: the motif that starts at the first `TGCTG`, when that lies
      within the first 100 bases; otherwise, when nothing was called yet, two
      longer motifs as a last resort. */
  function IgA(read: string, c: Call): Call {
    var t := Find(read, IgAMotif);
    if 0 < t < 100 then
      if Find(read, IgA1Motif) == t then c.(subClass := "IgA1")
      else if Find(read, IgA2Motif) == t then c.(subClass := "IgA2")
      else c
    else if c.subClass == "" then
      var a1 := Find(read, IgA1Long);
      var c1 := if a1 != -1 && a1 < 100 then Call("IgA1", c.comment + HeuristicNote) else c;
      if Find(read, IgA2Searched) != -1 && Find(read, IgA2Bounded) < 100 then
        Call("IgA2", c1.comment + HeuristicNote)
      else c1
    else c
  }

  /** The outcome of the heuristics, with the position of the reverse
      complemented CDR3 in the read. */
  datatype Heuristic = Heuristic(subClass: string, comment: string, cdr3pos: int)

  /** IgM: nothing was called and the CDR3 starts within the first 100 bases. */
  function IgM(read: string, cdr3: string, c: Call): Heuristic {
    var pos := Find(read, ReverseComplement(cdr3));
    if c.subClass == "" then
      if pos == -1 then
        Heuristic("n/d", IgMUnidentified, pos)
      else if pos < 100 then Heuristic("IgM", c.comment, pos)
      else
        var tgga := Find(read, IgGHint);
        var tgctg := Find(read, IgAMotif);
        var m1 := if tgga != -1 && tgga < 90 && pos > 110 && pos < 120 then ProbablyIgG else c.comment;
        var m2 := if tgctg != -1 && tgctg < 110 && pos > 130 && pos < 140 then ProbablyIgA else m1;
        Heuristic("n/d", m2, pos)
    else Heuristic(c.subClass, c.comment, pos)
  }

  /** The call before the IgM test. */
  function BeforeIgM(read: string, comment: string): Call {
    IgA(read, IgG34(read, IgG12(read, Call("", comment))))
  }

  function Heuristics(read: string, cdr3: string, comment: string): Heuristic {
    IgM(read, cdr3, BeforeIgM(read, comment))
  }

  /** The subclass, comment and CDR3 position a heavy chain ends with. */
  datatype Decision = Decision(subClass: string, comment: string, cdr3pos: Option<int>)

  /** An accepted constant hit names the subclass, with a warning when its bit
      score is below 80; without one the heuristics decide. */
  function SubClassOf(read: string, cdr3: string, scan: ConstantScan, comment: string, showFloat: real -> string): Decision {
    if scan.hit.Some? && scan.bit.Some? then
      Decision(scan.hit.value,
        if scan.bit.value < 80.0 then LowConfidencePrefix + showFloat(scan.bit.value) + LowConfidenceSuffix else comment,
        None)
    else
      var h := Heuristics(read, cdr3, comment);
      Decision(h.subClass, h.comment, Some(h.cdr3pos))
  }

  /** The decision, as the source makes it: one assignment after another. */
  method DecideSubClass(read: string, cdr3: string, scan: ConstantScan, comment0: string, showFloat: real -> string)
    returns (subClass: string, comment: string, cdr3pos: Option<int>)
    ensures Decision(subClass, comment, cdr3pos) == SubClassOf(read, cdr3, scan, comment0, showFloat)
  {
    comment, cdr3pos := comment0, None;
    if scan.hit.Some? && scan.bit.Some? {
      subClass := scan.hit.value;
      if scan.bit.value < 80.0 {
        comment := LowConfidencePrefix + showFloat(scan.bit.value) + LowConfidenceSuffix;
      }
      return;
    }
    subClass := "";
    // IgG1/IgG2
    var g := IgG12(read, Call(subClass, comment));
    subClass, comment := g.subClass, g.comment;
    // IgG3/IgG4
    var t34 := Find(read, IgG34Motif);
    if t34 > -1 && t34 < 200 {
      subClass := IgG34Call;
    }
    // IgA1/IgA2
    var tgctg := Find(read, IgAMotif);
    if 0 < tgctg < 100 {
      if Find(read, IgA1Motif) == tgctg {
        subClass := "IgA1";
      } else if Find(read, IgA2Motif) == tgctg {
        subClass := "IgA2";
      }
    } else if subClass == "" {
      var a1 := Find(read, IgA1Long);
      if a1 != -1 && a1 < 100 {
        subClass := "IgA1";
        comment := comment + HeuristicNote;
      }
      if Find(read, IgA2Searched) != -1 && Find(read, IgA2Bounded) < 100 {
        subClass := "IgA2";
        comment := comment + HeuristicNote;
      }
    }
    assert Call(subClass, comment) == BeforeIgM(read, comment0);
    // IgM
    var h := IgM(read, cdr3, Call(subClass, comment));
    subClass, comment, cdr3pos := h.subClass, h.comment, Some(h.cdr3pos);
  }

  // ---------------------------------------------------------------------------
  // Properties
  // ---------------------------------------------------------------------------

  /** An accepted hit is the subclass; the low-confidence comment is written
      exactly when its bit score is below 80, and the CDR3 is not searched. */
  lemma HitDecides(read: string, cdr3: string, scan: ConstantScan, comment: string, showFloat: real -> string)
    requires scan.hit.Some? && scan.bit.Some?
    ensures var d := SubClassOf(read, cdr3, scan, comment, showFloat);
      d.subClass == scan.hit.value && d.cdr3pos.None? &&
      (scan.bit.value < 80.0 ==> d.comment == LowConfidencePrefix + showFloat(scan.bit.value) + LowConfidenceSuffix) &&
      (scan.bit.value >= 80.0 ==> d.comment == comment)
  {
  }

  /** The first heuristic calls IgG1 exactly when the long motif lies at
      positions 1 to 199 and `GGAGGGT` lies 30 to 32 bases before it. */
  lemma IgG1Window(read: string, comment: string)
    ensures var t := Find(read, IgG12Motif);
      IgG12(read, Call("", comment)).subClass == "IgG1" <==>
        0 < t < 200 && 29 < t - Find(read, IgG1Motif) < 33
  {
  }

  /** The IgG3/IgG4 motif within the first 200 bases overrides whatever the
      first heuristic called. */
  lemma IgG34Overrides(read: string, c: Call)
    requires 0 <= Find(read, IgG34Motif) < 200
    ensures IgG34(read, c).subClass == IgG34Call && IgG34(read, c).comment == c.comment
  {
  }

  /** The IgA motifs at an early first `TGCTG` override the IgG calls. */
  lemma IgAOverrides(read: string, c: Call)
    requires 0 < Find(read, IgAMotif) < 100
    ensures Find(read, IgA1Motif) == Find(read, IgAMotif) ==> IgA(read, c).subClass == "IgA1"
    ensures Find(read, IgA1Motif) != Find(read, IgAMotif) && Find(read, IgA2Motif) == Find(read, IgAMotif) ==>
      IgA(read, c).subClass == "IgA2"
  {
  }

  /** No stage before the IgM test calls IgM. */
  lemma BeforeIgMNotIgM(read: string, comment: string)
    ensures BeforeIgM(read, comment).subClass != "IgM"
  {
    var g := IgG34(read, IgG12(read, Call("", comment)));
    assert g.subClass != "IgM";
  }

  /** IgM is called exactly when no earlier heuristic called anything and
      the reverse complemented CDR3 starts within the first 100 bases. */
  lemma IgMIff(read: string, cdr3: string, c: Call)
    requires c.subClass != "IgM"
    ensures IgM(read, cdr3, c).subClass == "IgM" <==>
      c.subClass == "" && 0 <= Find(read, ReverseComplement(cdr3)) < 100
  {
  }

  /** The IgM test always leaves a call, `n/d` at worst, and records where
      the reverse complemented CDR3 starts. */
  lemma HeuristicsCall(read: string, cdr3: string, c: Call)
    ensures IgM(read, cdr3, c).subClass != ""
    ensures IgM(read, cdr3, c).cdr3pos == Find(read, ReverseComplement(cdr3))
  {
  }

  /** The last-resort IgA2 test bounds the position of a motif other than the
      one it searches for: a read whose searched motif lies far beyond base
      100 is still called IgA2, as long as the other motif is absent. */
  lemma IgA2BoundQuirk(read: string, c: Call)
    requires !(0 < Find(read, IgAMotif) < 100) && c.subClass == ""
    requires Find(read, IgA2Searched) >= 100 && Find(read, IgA2Bounded) == -1
    ensures IgA(read, c).subClass == "IgA2"
  {
  }
}
