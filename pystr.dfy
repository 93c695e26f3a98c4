/** Python `str` operations used by the report parser, the read post-processing
    and the cloning table, written over `string` (a sequence of characters).
    Each function states the Python behaviour it stands for in its contract or
    in a lemma next to it. */
module PyStr {
  import opened Wrappers

  // ---------------------------------------------------------------------------
  // Character classes
  // ---------------------------------------------------------------------------

  /** Python's `str.isspace()`: the characters that `split()` and `strip()`
      treat as whitespace. */
  predicate IsSpace(c: char) {
    var n := c as int;
    (9 <= n <= 13) || (28 <= n <= 32) || n == 0x85 || n == 0xA0 || n == 0x1680
    || (0x2000 <= n <= 0x200A) || n == 0x2028 || n == 0x2029 || n == 0x202F
    || n == 0x205F || n == 0x3000
  }

  predicate IsDigit(c: char) {
    '0' <= c <= '9'
  }

  predicate AllDigits(s: string) {
    forall i :: 0 <= i < |s| ==> IsDigit(s[i])
  }

  /** A non-empty text without whitespace: what `split()` yields. */
  predicate IsToken(w: string) {
    w != [] && forall k :: 0 <= k < |w| ==> !IsSpace(w[k])
  }

  // ---------------------------------------------------------------------------
  // strip
  // ---------------------------------------------------------------------------

  /** The characters a `strip` call removes: whitespace (no argument) or one
      given character (`strip("V")`). */
  datatype StripSet = Whitespace | OneChar(c: char)

  predicate Drops(x: char, d: StripSet) {
    match d
    case Whitespace => IsSpace(x)
    case OneChar(c) => x == c
  }

  /** Drops the leading characters of the set. */
  function LStripBy(s: string, d: StripSet): string {
    if s != [] && Drops(s[0], d) then LStripBy(s[1..], d) else s
  }

  /** What `lstrip` leaves is a suffix that does not start with a character
      of the set, and everything before it was in the set. */
  lemma {:induction false} LStripByFacts(s: string, d: StripSet)
    ensures var r := LStripBy(s, d);
      && |r| <= |s| && r == s[|s| - |r|..]
      && (r == [] || !Drops(r[0], d))
      && (forall i :: 0 <= i < |s| - |r| ==> Drops(s[i], d))
  {
    if s != [] && Drops(s[0], d) {
      LStripByFacts(s[1..], d);
      var r := LStripBy(s, d);
      forall i | 0 <= i < |s| - |r| ensures Drops(s[i], d) {
        if i > 0 { assert s[i] == s[1..][i - 1]; }
      }
    }
  }

  /** Drops the trailing characters of the set. */
  function RStripBy(s: string, d: StripSet): string {
    if s != [] && Drops(s[|s| - 1], d) then RStripBy(s[..|s| - 1], d) else s
  }

  /** What `rstrip` leaves is a prefix that does not end with a character of
      the set, and everything after it was in the set. */
  lemma {:induction false} RStripByFacts(s: string, d: StripSet)
    ensures var r := RStripBy(s, d);
      && |r| <= |s| && r == s[..|r|]
      && (r == [] || !Drops(r[|r| - 1], d))
      && (forall i :: |r| <= i < |s| ==> Drops(s[i], d))
  {
    if s != [] && Drops(s[|s| - 1], d) {
      RStripByFacts(s[..|s| - 1], d);
      var r := RStripBy(s, d);
      forall i | |r| <= i < |s| ensures Drops(s[i], d) {
        if i < |s| - 1 { assert s[i] == s[..|s| - 1][i]; }
      }
    }
  }

  /** Python's `s.strip()`. */
  function Strip(s: string): string {
    RStripBy(LStripBy(s, Whitespace), Whitespace)
  }

  /** Python's `s.strip(c)` for a one-character argument. */
  function StripChar(s: string, c: char): string {
    RStripBy(LStripBy(s, OneChar(c)), OneChar(c))
  }

  /** A text that neither starts nor ends with a character to drop is left as it is. */
  lemma StripByUnchanged(s: string, d: StripSet)
    requires s != [] && !Drops(s[0], d) && !Drops(s[|s| - 1], d)
    ensures RStripBy(LStripBy(s, d), d) == s
  {
  }

  /** `strip()` keeps every non-space character: the returned index says where
      `s[k]` ends up. */
  lemma StripKeeps(s: string, k: nat) returns (j: nat)
    requires k < |s| && !IsSpace(s[k])
    ensures j < |Strip(s)| && Strip(s)[j] == s[k]
    ensures j == 0 ==> forall i :: 0 <= i < k ==> IsSpace(s[i])
  {
    var l := LStripBy(s, Whitespace);
    LStripByFacts(s, Whitespace);
    RStripByFacts(l, Whitespace);
    var a := |s| - |l|;
    assert k >= a;
    assert l[k - a] == s[k];
    var r := RStripBy(l, Whitespace);
    assert k - a < |r|;
    j := k - a;
    assert r[j] == l[j];
  }

  /** `strip()` removes exactly the outer whitespace: what is left starts and
      ends with a non-space, and every dropped character was a space. */
  lemma StripRemovesOuterSpace(s: string) returns (a: nat)
    ensures var r := Strip(s);
      && (r == [] || (!IsSpace(r[0]) && !IsSpace(r[|r| - 1])))
      && a + |r| <= |s| && r == s[a..a + |r|]
      && (forall i :: 0 <= i < a ==> IsSpace(s[i]))
      && (forall i :: a + |r| <= i < |s| ==> IsSpace(s[i]))
  {
    var l := LStripBy(s, Whitespace);
    var r := RStripBy(l, Whitespace);
    LStripByFacts(s, Whitespace);
    RStripByFacts(l, Whitespace);
    a := |s| - |l|;
    assert r == s[a..a + |r|];
    forall i | a + |r| <= i < |s| ensures IsSpace(s[i]) {
      assert s[i] == l[i - a];
    }
  }

  // ---------------------------------------------------------------------------
  // split() on whitespace
  // ---------------------------------------------------------------------------

  /** Length of the leading run of non-whitespace characters. */
  function TokenLen(s: string): (n: nat)
    ensures n <= |s|
    ensures forall i :: 0 <= i < n ==> !IsSpace(s[i])
    ensures n == |s| || IsSpace(s[n])
  {
    if s == [] || IsSpace(s[0]) then 0 else 1 + TokenLen(s[1..])
  }

  /** Python's `s.split()`: the maximal runs of non-whitespace characters, in order. */
  function SplitWs(s: string): seq<string>
    decreases |s|
  {
    var t := LStripBy(s, Whitespace);
    LStripByFacts(s, Whitespace);
    if t == [] then []
    else
      var n := TokenLen(t);
      [t[..n]] + SplitWs(t[n..])
  }

  /** Every word `split()` returns is non-empty and holds no whitespace. */
  lemma {:induction false} SplitWsTokens(s: string)
    ensures forall i :: 0 <= i < |SplitWs(s)| ==> IsToken(SplitWs(s)[i])
    decreases |s|
  {
    var t := LStripBy(s, Whitespace);
    LStripByFacts(s, Whitespace);
    if t != [] {
      var n := TokenLen(t);
      SplitWsTokens(t[n..]);
      var r := SplitWs(s);
      assert r == [t[..n]] + SplitWs(t[n..]);
      forall i | 0 <= i < |r| ensures IsToken(r[i]) {
        if i > 0 { assert r[i] == SplitWs(t[n..])[i - 1]; }
      }
    }
  }

  /** Leading whitespace does not change what `split()` returns. */
  lemma SplitWsSkipsSpace(sp: string, t: string)
    requires forall i :: 0 <= i < |sp| ==> IsSpace(sp[i])
    ensures SplitWs(sp + t) == SplitWs(t)
    decreases |sp|
  {
    LStripSkipsSpace(sp, t);
  }

  lemma {:induction false} LStripSkipsSpace(sp: string, t: string)
    requires forall i :: 0 <= i < |sp| ==> IsSpace(sp[i])
    ensures LStripBy(sp + t, Whitespace) == LStripBy(t, Whitespace)
    decreases |sp|
  {
    if sp == [] {
      assert sp + t == t;
    } else {
      assert (sp + t)[0] == sp[0] && Drops(sp[0], Whitespace);
      assert (sp + t)[1..] == sp[1..] + t;
      LStripSkipsSpace(sp[1..], t);
    }
  }

  /** A token followed by nothing or by whitespace is the first word `split()` returns. */
  lemma SplitWsToken(w: string, rest: string)
    requires IsToken(w)
    requires rest == [] || IsSpace(rest[0])
    ensures SplitWs(w + rest) == [w] + SplitWs(rest)
  {
    var s := w + rest;
    assert s[0] == w[0];
    assert LStripBy(s, Whitespace) == s;
    TokenRunLength(w, rest);
    assert s[..|w|] == w;
    assert s[|w|..] == rest;
  }

  /** The leading token of `w + rest` is `w` when `rest` is empty or starts with a space. */
  lemma {:induction false} TokenRunLength(w: string, rest: string)
    requires IsToken(w)
    requires rest == [] || IsSpace(rest[0])
    ensures TokenLen(w + rest) == |w|
    decreases |w|
  {
    if |w| > 1 {
      assert (w + rest)[1..] == w[1..] + rest;
      TokenRunLength(w[1..], rest);
    } else {
      assert (w + rest)[1..] == rest;
    }
  }

  // ---------------------------------------------------------------------------
  // split(sep) on one character
  // ---------------------------------------------------------------------------

  /** First index of `c` in `s`, or -1. */
  function IndexOf(s: string, c: char): (r: int)
    ensures r == -1 <==> c !in s
    ensures r >= 0 ==> r < |s| && s[r] == c && c !in s[..r]
  {
    if s == [] then -1
    else if s[0] == c then 0
    else
      var k := IndexOf(s[1..], c);
      assert s[1..][..if k < 0 then 0 else k] == s[1..1 + if k < 0 then 0 else k];
      if k < 0 then -1 else k + 1
  }

  /** Python's `s.split(c)` for a one-character separator: never empty, and no
      piece contains the separator. */
  function SplitOn(s: string, c: char): (r: seq<string>)
    ensures |r| >= 1
    ensures c !in s ==> r == [s]
    ensures c in s ==> |r| >= 2
    decreases |s|
  {
    var i := IndexOf(s, c);
    if i < 0 then [s] else [s[..i]] + SplitOn(s[i + 1..], c)
  }

  /** No piece contains the separator. */
  lemma {:induction false} SplitOnPieces(s: string, c: char)
    ensures forall i :: 0 <= i < |SplitOn(s, c)| ==> c !in SplitOn(s, c)[i]
    decreases |s|
  {
    var i := IndexOf(s, c);
    if i >= 0 {
      SplitOnPieces(s[i + 1..], c);
      var r := SplitOn(s, c);
      assert r == [s[..i]] + SplitOn(s[i + 1..], c);
      forall k | 0 <= k < |r| ensures c !in r[k] {
        if k > 0 { assert r[k] == SplitOn(s[i + 1..], c)[k - 1]; }
      }
    }
  }

  /** The first piece runs up to the first separator; the second is the
      first piece of what follows it. */
  lemma SplitOnFirst(s: string, c: char)
    ensures SplitOn(s, c)[0] == if c in s then s[..IndexOf(s, c)] else s
    ensures c in s ==> SplitOn(s, c)[1] == SplitOn(s[IndexOf(s, c) + 1..], c)[0]
  {
  }

  /** Python's `c.join(parts)` for a one-character separator. */
  function Join(parts: seq<string>, c: char): string {
    if |parts| == 0 then []
    else if |parts| == 1 then parts[0]
    else parts[0] + ([c] + Join(parts[1..], c))
  }

  lemma CutAt(s: string, i: nat)
    requires i < |s|
    ensures s == s[..i] + ([s[i]] + s[i + 1..])
  {
    assert [s[i]] + s[i + 1..] == s[i..];
  }

  /** Splitting and joining back on the same character give the text back. */
  lemma {:induction false} JoinSplitOn(s: string, c: char)
    ensures Join(SplitOn(s, c), c) == s
    decreases |s|
  {
    var i := IndexOf(s, c);
    if i >= 0 {
      var pieces := SplitOn(s[i + 1..], c);
      JoinSplitOn(s[i + 1..], c);
      assert SplitOn(s, c) == [s[..i]] + pieces;
      assert ([s[..i]] + pieces)[1..] == pieces;
      assert Join(SplitOn(s, c), c) == s[..i] + ([c] + s[i + 1..]);
      CutAt(s, i);
    }
  }

  /** Joining pieces that do not contain the separator and splitting again
      gives the pieces back. */
  lemma {:induction false} SplitOnJoin(parts: seq<string>, c: char)
    requires |parts| >= 1
    requires forall i :: 0 <= i < |parts| ==> c !in parts[i]
    ensures SplitOn(Join(parts, c), c) == parts
    decreases |parts|
  {
    var p := parts[0];
    if |parts| == 1 {
      FirstIndexAfterPiece(p, c, []);
      assert p + [] == p;
      assert SplitOn(p, c) == [p];
      assert parts == [p];
    } else {
      var j := Join(parts[1..], c);
      var s := p + ([c] + j);
      assert Join(parts, c) == s;
      FirstIndexAfterPiece(p, c, [c] + j);
      assert s[..|p|] == p;
      assert s[|p| + 1..] == j;
      assert SplitOn(s, c) == [p] + SplitOn(j, c);
      SplitOnJoin(parts[1..], c);
      assert parts == [p] + parts[1..];
    }
  }

  lemma FirstIndexAfterPiece(p: string, c: char, rest: string)
    requires c !in p
    requires rest == [] || rest[0] == c
    ensures IndexOf(p + rest, c) == if rest == [] then -1 else |p|
  {
    var s := p + rest;
    if rest == [] {
      assert s == p;
    } else {
      assert s[|p|] == c;
      assert s[..|p|] == p;
    }
  }

  // ---------------------------------------------------------------------------
  // find / in / startswith
  // ---------------------------------------------------------------------------

  /** `p` occurs in `s` at index `k`. */
  predicate IsAt(s: string, p: string, k: int) {
    0 <= k && k + |p| <= |s| && s[k..k + |p|] == p
  }

  lemma IsAtShift(s: string, p: string, k: int)
    requires s != []
    ensures k >= 0 ==> (IsAt(s[1..], p, k) <==> IsAt(s, p, k + 1))
  {
    if 0 <= k && k + |p| <= |s| - 1 {
      assert s[1..][k..k + |p|] == s[k + 1..k + 1 + |p|];
    }
  }

  /** Python's `s.find(p)`: the first index at which `p` occurs, or -1 when it
      occurs nowhere. */
  function Find(s: string, p: string): (r: int)
    ensures -1 <= r <= |s|
    ensures r >= 0 ==> IsAt(s, p, r) && forall k :: 0 <= k < r ==> !IsAt(s, p, k)
    ensures r == -1 ==> forall k :: !IsAt(s, p, k)
    decreases |s|
  {
    if |p| <= |s| && s[..|p|] == p then 0
    else if s == [] then -1
    else
      var r := Find(s[1..], p);
      assert forall k :: k >= 1 ==> (IsAt(s, p, k) <==> IsAt(s[1..], p, k - 1)) by {
        forall k | k >= 1 ensures IsAt(s, p, k) <==> IsAt(s[1..], p, k - 1) {
          IsAtShift(s, p, k - 1);
        }
      }
      assert !IsAt(s, p, 0);
      if r < 0 then -1 else r + 1
  }

  /** Python's `p in s`. */
  predicate Contains(s: string, p: string) {
    Find(s, p) >= 0
  }

  /** Python's `s.startswith(p)`. */
  predicate StartsWith(s: string, p: string) {
    |p| <= |s| && s[..|p|] == p
  }

  /** `p in s` holds exactly when `p` occurs somewhere in `s`. */
  lemma ContainsIffOccurs(s: string, p: string)
    ensures Contains(s, p) <==> exists k :: IsAt(s, p, k)
  {
  }

  /** A text that starts with `p` contains it: `find` returns 0. */
  lemma StartsWithFindsAtZero(s: string, p: string)
    requires StartsWith(s, p)
    ensures Find(s, p) == 0
  {
    assert IsAt(s, p, 0);
  }

  /** `find` of one character is the position of its first occurrence. */
  lemma FindFirstChar(s: string, c: char, k: nat)
    requires k < |s| && s[k] == c
    requires forall j :: 0 <= j < k ==> s[j] != c
    ensures Find(s, [c]) == k
  {
    assert IsAt(s, [c], k);
  }

  /** A one-character pattern is found exactly when the character occurs. */
  lemma ContainsChar(s: string, c: char)
    ensures Contains(s, [c]) <==> c in s
  {
    if c in s {
      var k :| 0 <= k < |s| && s[k] == c;
      assert IsAt(s, [c], k);
    }
    if Contains(s, [c]) {
      var k := Find(s, [c]);
      assert s[k..k + 1] == [c];
      assert s[k] == c;
    }
  }

  // ---------------------------------------------------------------------------
  // replace / lower / upper
  // ---------------------------------------------------------------------------

  /** Python's `s.replace(a, b)` for a non-empty `a`: every occurrence, scanning
      left to right without overlap, is replaced by `b`. */
  function Replace(s: string, a: string, b: string): string
    requires a != []
    decreases |s|
  {
    if |s| < |a| then s
    else if s[..|a|] == a then b + Replace(s[|a|..], a, b)
    else [s[0]] + Replace(s[1..], a, b)
  }

  /** Replacing a pattern that does not occur changes nothing. */
  lemma {:induction false} ReplaceAbsent(s: string, a: string, b: string)
    requires a != [] && !Contains(s, a)
    ensures Replace(s, a, b) == s
    decreases |s|
  {
    if |s| >= |a| {
      assert !IsAt(s, a, 0);
      var r := Find(s[1..], a);
      IsAtShift(s, a, r);
      assert r == -1;
      ReplaceAbsent(s[1..], a, b);
      assert [s[0]] + s[1..] == s;
    }
  }

  /** Replacing one character by a text that does not contain it removes every
      occurrence of that character. */
  lemma {:induction false} ReplaceCharRemoves(s: string, c: char, b: string)
    requires c !in b
    ensures c !in Replace(s, [c], b)
    decreases |s|
  {
    if |s| >= 1 {
      ReplaceCharRemoves(s[1..], c, b);
    }
  }

  /** Replacing never brings in a character that neither the text nor the
      replacement holds. */
  lemma {:induction false} ReplaceNoNewChar(s: string, a: string, b: string, e: char)
    requires a != [] && e !in s && e !in b
    ensures e !in Replace(s, a, b)
    decreases |s|
  {
    if |s| >= |a| {
      if s[..|a|] == a {
        ReplaceNoNewChar(s[|a|..], a, b, e);
      } else {
        ReplaceNoNewChar(s[1..], a, b, e);
      }
    }
  }

  /** Replacing one character distributes over concatenation. */
  lemma {:induction false} ReplaceCharConcat(x: string, y: string, c: char, b: string)
    ensures Replace(x + y, [c], b) == Replace(x, [c], b) + Replace(y, [c], b)
    decreases |x|
  {
    if x == [] {
      assert x + y == y;
    } else {
      var s := x + y;
      assert s[..1] == x[..1];
      assert s[1..] == x[1..] + y;
      ReplaceCharConcat(x[1..], y, c, b);
    }
  }

  /** Replacing one character by another character keeps the length and
      changes exactly the positions holding that character. */
  lemma {:induction false} ReplaceCharPointwise(s: string, c: char, d: char)
    ensures |Replace(s, [c], [d])| == |s|
    ensures forall i :: 0 <= i < |s| ==>
      Replace(s, [c], [d])[i] == if s[i] == c then d else s[i]
    decreases |s|
  {
    if |s| >= 1 {
      ReplaceCharPointwise(s[1..], c, d);
      assert s[..1] == [s[0]];
    }
  }

  function LowerChar(c: char): char {
    if 'A' <= c <= 'Z' then (c as int + 32) as char else c
  }

  function UpperChar(c: char): char {
    if 'a' <= c <= 'z' then (c as int - 32) as char else c
  }

  /** Python's `s.lower()` (ASCII letters). */
  function Lower(s: string): (r: string)
    ensures |r| == |s| && forall i :: 0 <= i < |s| ==> r[i] == LowerChar(s[i])
  {
    seq(|s|, i requires 0 <= i < |s| => LowerChar(s[i]))
  }

  /** Python's `s.upper()` (ASCII letters). */
  function Upper(s: string): (r: string)
    ensures |r| == |s| && forall i :: 0 <= i < |s| ==> r[i] == UpperChar(s[i])
  {
    seq(|s|, i requires 0 <= i < |s| => UpperChar(s[i]))
  }

  // ---------------------------------------------------------------------------
  // slicing
  // ---------------------------------------------------------------------------

  /** Python's normalisation of a slice bound: a negative bound counts from the
      end, and the result is clamped to `[0, n]`. */
  function SliceBound(i: int, n: nat): (r: nat)
    ensures r <= n
    ensures 0 <= i <= n ==> r == i
    ensures i > n ==> r == n
    ensures -(n as int) <= i < 0 ==> r == i + n
    ensures i < -(n as int) ==> r == 0
  {
    if i < 0 then (if i + n < 0 then 0 else i + n) else if i > n then n else i
  }

  /** Python's `s[i:j]`: never fails, negative bounds count from the end and
      out-of-range bounds are clamped. */
  function Slice(s: string, i: int, j: int): (r: string)
    ensures 0 <= i <= j <= |s| ==> r == s[i..j]
    ensures |r| <= |s|
  {
    var a := SliceBound(i, |s|);
    var b := SliceBound(j, |s|);
    if a < b then s[a..b] else []
  }

  // ---------------------------------------------------------------------------
  // str(int), int(), float()
  // ---------------------------------------------------------------------------

  function DigitChar(d: nat): (c: char)
    requires d < 10
    ensures IsDigit(c)
  {
    ('0' as int + d) as char
  }

  function DigitVal(c: char): nat
    requires IsDigit(c)
  {
    c as int - '0' as int
  }

  /** The number a digit string denotes, most significant digit first. */
  function DigitsValue(ds: string): nat
    requires AllDigits(ds)
  {
    if ds == [] then 0 else DigitsValue(ds[..|ds| - 1]) * 10 + DigitVal(ds[|ds| - 1])
  }

  /** Python's `str(n)` for a natural number. */
  function NatToString(n: nat): (r: string)
    ensures r != [] && AllDigits(r)
  {
    if n < 10 then [DigitChar(n)] else NatToString(n / 10) + [DigitChar(n % 10)]
  }

  /** Python's `str(i)` for an integer. */
  function IntToString(i: int): (r: string)
    ensures r != []
  {
    if i < 0 then "-" + NatToString(-i) else NatToString(i)
  }

  /** The decimal text of `n` denotes `n`. */
  lemma {:induction false} NatToStringValue(n: nat)
    ensures DigitsValue(NatToString(n)) == n
  {
    if n >= 10 {
      NatToStringValue(n / 10);
      var s := NatToString(n);
      assert s[..|s| - 1] == NatToString(n / 10);
    }
  }

  /** `str` is injective on natural numbers. */
  lemma NatToStringInjective(a: nat, b: nat)
    requires NatToString(a) == NatToString(b)
    ensures a == b
  {
    NatToStringValue(a);
    NatToStringValue(b);
  }

  /** The text of `n` is one character long exactly when `n` is a single digit. */
  lemma NatToStringSingle(n: nat)
    ensures |NatToString(n)| == 1 <==> n < 10
  {
    if n >= 10 {
      assert |NatToString(n)| == |NatToString(n / 10)| + 1;
    }
  }

  /** Python's `int(s)`: optional surrounding whitespace, an optional sign,
      and at least one decimal digit. */
  function ParseInt(s: string): Option<int> {
    var t := Strip(s);
    if t != [] && (t[0] == '-' || t[0] == '+') then
      var ds := t[1..];
      if ds != [] && AllDigits(ds) then
        Some(if t[0] == '-' then -(DigitsValue(ds) as int) else DigitsValue(ds))
      else None
    else if t != [] && AllDigits(t) then Some(DigitsValue(t))
    else None
  }

  function Pow10(e: nat): (r: nat)
    ensures r >= 1
  {
    if e == 0 then 1 else 10 * Pow10(e - 1)
  }

  function Pow10Real(e: int): real {
    if e >= 0 then Pow10(e) as real else 1.0 / Pow10(-e) as real
  }

  /** int-or-fraction part of a float literal: `ddd`, `ddd.`, `.ddd`, `ddd.ddd`. */
  function ParseMantissa(t: string): Option<real> {
    var d := IndexOf(t, '.');
    if d < 0 then
      if t != [] && AllDigits(t) then Some(DigitsValue(t) as real) else None
    else
      var a := t[..d];
      var b := t[d + 1..];
      if (a != [] || b != []) && AllDigits(a) && AllDigits(b) then
        Some(DigitsValue(a) as real + DigitsValue(b) as real / Pow10(|b|) as real)
      else None
  }

  /** Exponent of a float literal: an optional sign and at least one digit. */
  function ParseExponent(t: string): Option<int> {
    if t != [] && (t[0] == '-' || t[0] == '+') then
      var ds := t[1..];
      if ds != [] && AllDigits(ds) then
        Some(if t[0] == '-' then -(DigitsValue(ds) as int) else DigitsValue(ds))
      else None
    else if t != [] && AllDigits(t) then Some(DigitsValue(t))
    else None
  }

  /** First index of `e` or `E`, or -1. */
  function ExponentMark(t: string): (r: int)
    ensures r == -1 || (0 <= r < |t| && (t[r] == 'e' || t[r] == 'E'))
  {
    var a := IndexOf(t, 'e');
    var b := IndexOf(t, 'E');
    if a < 0 then b else if b < 0 then a else if a < b then a else b
  }

  function ParseUnsignedFloat(t: string): Option<real> {
    var e := ExponentMark(t);
    if e < 0 then ParseMantissa(t)
    else
      match (ParseMantissa(t[..e]), ParseExponent(t[e + 1..]))
      case (Some(m), Some(x)) => Some(m * Pow10Real(x))
      case _ => None
  }

  /** Python's `float(s)` for decimal literals: optional surrounding
      whitespace, an optional sign, a mantissa with at least one digit and an
      optional exponent. */
  function ParseFloat(s: string): Option<real> {
    var t := Strip(s);
    if t != [] && (t[0] == '-' || t[0] == '+') then
      match ParseUnsignedFloat(t[1..])
      case Some(r) => Some(if t[0] == '-' then -r else r)
      case None => None
    else ParseUnsignedFloat(t)
  }

  /** A digit string has no whitespace, so `strip()` leaves it alone. */
  lemma StripDigits(s: string)
    requires s != [] && AllDigits(s)
    ensures Strip(s) == s
  {
    StripByUnchanged(s, Whitespace);
  }

  /** `int(str(i)) == i`. */
  lemma ParseIntOfIntToString(i: int)
    ensures ParseInt(IntToString(i)) == Some(i)
  {
    var s := IntToString(i);
    if i < 0 {
      NatToStringValue(-i);
      assert s[1..] == NatToString(-i);
      StripByUnchanged(s, Whitespace);
    } else {
      NatToStringValue(i);
      StripDigits(s);
    }
  }

  /** `float(str(i)) == i`: an integer written by `str` reads back as the same
      number through `float()`. */
  lemma ParseFloatOfIntToString(i: int)
    ensures ParseFloat(IntToString(i)) == Some(i as real)
  {
    var s := IntToString(i);
    if i < 0 {
      var ds := NatToString(-i);
      assert s[1..] == ds;
      NatToStringValue(-i);
      UnsignedOfDigits(ds);
      StripByUnchanged(s, Whitespace);
    } else {
      NatToStringValue(i);
      UnsignedOfDigits(s);
      StripDigits(s);
    }
  }

  /** A digit string reads back through `float()` as the number it denotes. */
  lemma UnsignedOfDigits(ds: string)
    requires ds != [] && AllDigits(ds)
    ensures ParseUnsignedFloat(ds) == Some(DigitsValue(ds) as real)
  {
    assert '.' !in ds && 'e' !in ds && 'E' !in ds;
    assert ExponentMark(ds) == -1;
  }

  /** A text with a character outside the modelled literals (decimal digits,
      sign, point and exponent) is neither an int nor a float here. */
  lemma NotNumeric(s: string, k: nat)
    requires k < |s|
    requires !IsDigit(s[k]) && !IsSpace(s[k])
    requires s[k] !in "+-.eE"
    ensures ParseInt(s) == None && ParseFloat(s) == None
  {
    var t := Strip(s);
    var j := StripKeeps(s, k);
    assert t[j] == s[k];
    SignedRejects(t, j);
  }

  lemma SignedRejects(t: string, j: nat)
    requires j < |t| && !IsDigit(t[j]) && t[j] !in "+-.eE"
    ensures t != [] && (t[0] == '-' || t[0] == '+') ==>
      ParseUnsignedFloat(t[1..]) == None && !AllDigits(t[1..])
    ensures !(t != [] && (t[0] == '-' || t[0] == '+')) ==>
      ParseUnsignedFloat(t) == None && !AllDigits(t)
  {
    if t[0] == '-' || t[0] == '+' {
      assert j >= 1;
      assert t[1..][j - 1] == t[j];
      UnsignedRejects(t[1..], j - 1);
    } else {
      UnsignedRejects(t, j);
    }
  }

  lemma UnsignedRejects(t: string, j: nat)
    requires j < |t| && !IsDigit(t[j]) && t[j] !in "+-.eE"
    ensures ParseUnsignedFloat(t) == None
    ensures !AllDigits(t)
  {
    var e := ExponentMark(t);
    if e < 0 {
      MantissaRejects(t, j);
    } else if j < e {
      assert t[..e][j] == t[j];
      MantissaRejects(t[..e], j);
    } else {
      var x := t[e + 1..];
      assert j != e;
      assert x[j - e - 1] == t[j];
      assert !AllDigits(x);
      assert (x[0] == '-' || x[0] == '+') ==> j - e - 1 >= 1 && x[1..][j - e - 2] == t[j];
    }
  }

  lemma MantissaRejects(t: string, j: nat)
    requires j < |t| && !IsDigit(t[j]) && t[j] != '.'
    ensures ParseMantissa(t) == None
  {
    var d := IndexOf(t, '.');
    if d >= 0 {
      if j < d {
        assert t[..d][j] == t[j];
      } else {
        assert t[d + 1..][j - d - 1] == t[j];
      }
    }
  }
}
