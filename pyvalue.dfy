/** The values the report parser stores: Python `int`, `float` and `str`
    objects produced by `int(x)`, `float(x)` or by keeping the text, and the
    few operations the rest of the program applies to them (`int(v)`,
    `v + n`, `len(v)`, `str(v)`). */
module PyValue {
  import opened Wrappers
  import opened PyStr

  /** A parsed cell. A float is an exact real: rounding is not modelled. */
  datatype Value = IntV(i: int) | FloatV(r: real) | StrV(s: string)

  /** A rearrangement-summary cell: a text, or the tuple of its
      comma-separated parts when it has more than one. */
  datatype Field = Text(s: string) | Tuple(items: seq<string>)

  /** Alignment-summary cells: `int(x)`, failing that `float(x)`, failing
      that the text itself. */
  function ParseTyped(tok: string): Value {
    match ParseInt(tok)
    case Some(i) => IntV(i)
    case None =>
      match ParseFloat(tok)
      case Some(r) => FloatV(r)
      case None => StrV(tok)
  }

  /** Hit-table cells: `float(x)`, failing that the text itself. */
  function ParseFloatOrStr(tok: string): Value {
    match ParseFloat(tok)
    case Some(r) => FloatV(r)
    case None => StrV(tok)
  }

  /** Python's `int(r)` on a float: truncation toward zero. */
  function Trunc(r: real): (t: int)
    ensures r >= 0.0 ==> t >= 0 && t as real <= r < t as real + 1.0
    ensures r < 0.0 ==> t <= 0 && t as real - 1.0 < r <= t as real
  {
    if r >= 0.0 then r.Floor else -((-r).Floor)
  }

  /** Python's `int(v)`; `None` is the `ValueError` of a text that is not an
      integer literal. */
  function IntOf(v: Value): Option<int> {
    match v
    case IntV(i) => Some(i)
    case FloatV(r) => Some(Trunc(r))
    case StrV(s) => ParseInt(s)
  }

  /** Python's `v + n` for an integer `n`; `None` is the `TypeError` of adding
      a number to a text. */
  function AddInt(v: Value, n: int): (r: Option<Value>)
    ensures r.Some? <==> !v.StrV?
    ensures v.FloatV? ==> r == Some(FloatV(v.r + n as real))
    ensures v.IntV? ==> r == Some(IntV(v.i + n))
  {
    match v
    case IntV(i) => Some(IntV(i + n))
    case FloatV(x) => Some(FloatV(x + n as real))
    case StrV(_) => None
  }

  /** Python's `len(v)`: defined on texts only. */
  function LenOf(v: Value): Option<nat> {
    if v.StrV? then Some(|v.s|) else None
  }

  /** Python's `str(v)`. The decimal rendering of a float (`repr`) is not
      modelled; the caller supplies it as `showFloat`. */
  function Str(v: Value, showFloat: real -> string): string {
    match v
    case IntV(i) => IntToString(i)
    case FloatV(r) => showFloat(r)
    case StrV(s) => s
  }

  /** The numeric value of a number, for comparisons (`sorted` by start). */
  function NumOf(v: Value): Option<real> {
    match v
    case IntV(i) => Some(i as real)
    case FloatV(r) => Some(r)
    case StrV(_) => None
  }

  /** A rearrangement cell is a tuple exactly when it has a comma. */
  function FieldOf(value: string): Field {
    var parts := SplitOn(value, ',');
    if |parts| > 1 then Tuple(parts) else Text(value)
  }

  /** `f[0]`: the first element of a tuple, or the first character of a text;
      `None` is the `IndexError` of an empty text. */
  function First(f: Field): Option<string> {
    match f
    case Text(s) => if s == [] then None else Some([s[0]])
    case Tuple(items) => if items == [] then None else Some(items[0])
  }

  /** `f.lower()`; `None` is the `AttributeError` of a tuple. */
  function LowerOf(f: Field): Option<string> {
    if f.Text? then Some(Lower(f.s)) else None
  }

  // ---------------------------------------------------------------------------
  // Properties
  // ---------------------------------------------------------------------------

  /** Integer cells written by `str` come back as the same `int`. */
  lemma ParseTypedInt(i: int)
    ensures ParseTyped(IntToString(i)) == IntV(i)
  {
    ParseIntOfIntToString(i);
  }

  /** Integer cells of the hit table come back as the same number, as a float. */
  lemma ParseFloatOrStrInt(i: int)
    ensures ParseFloatOrStr(IntToString(i)) == FloatV(i as real)
  {
    ParseFloatOfIntToString(i);
  }

  /** A cell with a character no number literal contains (a letter other than
      `e`, a `/`, …) is kept as text by both parsers. */
  lemma ParseKeepsText(tok: string, k: nat)
    requires k < |tok| && !IsDigit(tok[k]) && !IsSpace(tok[k]) && tok[k] !in "+-.eE"
    ensures ParseTyped(tok) == StrV(tok) && ParseFloatOrStr(tok) == StrV(tok)
  {
    NotNumeric(tok, k);
  }

  /** A float hit coordinate with an integral value converts back to that
      integer with `int()`, and `int()` of a float lies within one of it. */
  lemma IntOfFloat(r: real)
    ensures IntOf(FloatV(r)).Some?
    ensures r.Floor as real == r ==> IntOf(FloatV(r)) == Some(r.Floor)
    ensures var t := IntOf(FloatV(r)).value; -1.0 < r - t as real < 1.0
  {
  }

  /** A cell without a comma stays a text; one with a comma becomes the tuple
      of its parts, which join back to the cell. */
  lemma FieldOfSplit(value: string)
    ensures ',' !in value ==> FieldOf(value) == Text(value)
    ensures ',' in value ==> FieldOf(value).Tuple? && Join(FieldOf(value).items, ',') == value
  {
    JoinSplitOn(value, ',');
    if ',' in value {
      var i := IndexOf(value, ',');
      assert |SplitOn(value, ',')| > 1 by {
        assert SplitOn(value, ',') == [value[..i]] + SplitOn(value[i + 1..], ',');
      }
    }
  }
}
