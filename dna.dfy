/** DNA text as used by the read post-processing: a read and its reverse
    complement (Biopython's `Seq.reverse_complement`, IUPAC ambiguity codes
    in upper and lower case; any other character is left as it is). */
module Dna {

  /** The complementary base of one IUPAC nucleotide code. */
  function Complement(c: char): char {
    match c
    case 'A' => 'T' case 'T' => 'A' case 'C' => 'G' case 'G' => 'C'
    case 'M' => 'K' case 'K' => 'M' case 'R' => 'Y' case 'Y' => 'R'
    case 'W' => 'W' case 'S' => 'S' case 'V' => 'B' case 'B' => 'V'
    case 'H' => 'D' case 'D' => 'H' case 'N' => 'N' case 'X' => 'X'
    case 'a' => 't' case 't' => 'a' case 'c' => 'g' case 'g' => 'c'
    case 'm' => 'k' case 'k' => 'm' case 'r' => 'y' case 'y' => 'r'
    case 'w' => 'w' case 's' => 's' case 'v' => 'b' case 'b' => 'v'
    case 'h' => 'd' case 'd' => 'h' case 'n' => 'n' case 'x' => 'x'
    case _ => c
  }

  /** The read as seen from the other strand. */
  function ReverseComplement(s: string): (r: string)
    ensures |r| == |s|
    ensures forall i :: 0 <= i < |s| ==> r[i] == Complement(s[|s| - 1 - i])
  {
    seq(|s|, i requires 0 <= i < |s| => Complement(s[|s| - 1 - i]))
  }

  /** Complementing twice gives the base back. */
  lemma ComplementInvolution(c: char)
    ensures Complement(Complement(c)) == c
  {
  }

  /** Turning a read around twice gives the read back. */
  lemma ReverseComplementInvolution(s: string)
    ensures ReverseComplement(ReverseComplement(s)) == s
  {
    var r := ReverseComplement(s);
    forall i | 0 <= i < |s| ensures ReverseComplement(r)[i] == s[i] {
      ComplementInvolution(s[i]);
    }
  }

  /** Turning a concatenation around swaps and turns its parts. */
  lemma ReverseComplementConcat(a: string, b: string)
    ensures ReverseComplement(a + b) == ReverseComplement(b) + ReverseComplement(a)
  {
  }
}
