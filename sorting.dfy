/** Python's `sorted`: a stable sort under an ordering given as a function,
    and the ordering Python uses on `str` values. */
module Sorting {
  import opened PyStr

  /** `a <= b` on Python strings: code point by code point, a proper prefix
      before any longer text. */
  predicate LexLe(a: string, b: string) {
    a == [] || (b != [] && (a[0] < b[0] || (a[0] == b[0] && LexLe(a[1..], b[1..]))))
  }

  /** Any two texts compare. */
  lemma {:induction false} LexLeTotal(a: string, b: string)
    ensures LexLe(a, b) || LexLe(b, a)
  {
    if a != [] && b != [] && a[0] == b[0] {
      LexLeTotal(a[1..], b[1..]);
    }
  }

  /** Comparison of texts chains. */
  lemma {:induction false} LexLeTrans(a: string, b: string, c: string)
    requires LexLe(a, b) && LexLe(b, c)
    ensures LexLe(a, c)
  {
    if a != [] && b != [] && c != [] && a[0] == b[0] && b[0] == c[0] {
      LexLeTrans(a[1..], b[1..], c[1..]);
    }
  }

  /** Every element is in order with every later one. */
  predicate Sorted<T>(xs: seq<T>, le: (T, T) -> bool) {
    forall i, j :: 0 <= i < j < |xs| ==> le(xs[i], xs[j])
  }

  /** `le` is a total preorder: any two elements compare, and comparison chains. */
  ghost predicate TotalPreorder<T(!new)>(le: (T, T) -> bool) {
    (forall a, b :: le(a, b) || le(b, a)) &&
    (forall a, b, c :: le(a, b) && le(b, c) ==> le(a, c))
  }

  /** Puts `x` into `ys` after every element not greater than it, so that equal
      elements keep their input order. */
  function Insert<T>(x: T, ys: seq<T>, le: (T, T) -> bool): (r: seq<T>)
    ensures |r| == |ys| + 1
    ensures multiset(r) == multiset(ys) + multiset{x}
  {
    if ys == [] then [x]
    else if le(ys[0], x) then
      assert ys == [ys[0]] + ys[1..];
      [ys[0]] + Insert(x, ys[1..], le)
    else [x] + ys
  }

  /** `sorted(xs, key=…)`: insertion sort, which is stable like Python's. */
  function Sort<T>(xs: seq<T>, le: (T, T) -> bool): (r: seq<T>)
    ensures |r| == |xs|
    ensures multiset(r) == multiset(xs)
  {
    if xs == [] then []
    else
      assert xs == xs[..|xs| - 1] + [xs[|xs| - 1]];
      Insert(xs[|xs| - 1], Sort(xs[..|xs| - 1], le), le)
  }

  lemma {:induction false} InsertSorted<T(!new)>(x: T, ys: seq<T>, le: (T, T) -> bool)
    requires TotalPreorder(le) && Sorted(ys, le)
    ensures Sorted(Insert(x, ys, le), le)
  {
    if ys != [] {
      if le(ys[0], x) {
        InsertSorted(x, ys[1..], le);
        InsertBelow(ys[0], x, ys[1..], le);
      } else {
        assert le(x, ys[0]);
        forall j | 0 <= j < |ys| ensures le(x, ys[j]) {
          if j > 0 { assert le(ys[0], ys[j]); }
        }
      }
    }
  }

  /** A lower bound of `x` and of every element of `ys` bounds the insertion. */
  lemma InsertBelow<T>(y: T, x: T, ys: seq<T>, le: (T, T) -> bool)
    requires le(y, x) && forall k :: 0 <= k < |ys| ==> le(y, ys[k])
    ensures forall j :: 0 <= j < |Insert(x, ys, le)| ==> le(y, Insert(x, ys, le)[j])
  {
    var t := Insert(x, ys, le);
    forall j | 0 <= j < |t| ensures le(y, t[j]) {
      assert t[j] in multiset(ys) + multiset{x};
      if t[j] != x {
        assert t[j] in ys;
      }
    }
  }

  /** Under a total preorder the result is in order, and it is always a
      permutation of the input. */
  lemma {:induction false} SortSorted<T(!new)>(xs: seq<T>, le: (T, T) -> bool)
    requires TotalPreorder(le)
    ensures Sorted(Sort(xs, le), le)
    ensures multiset(Sort(xs, le)) == multiset(xs)
  {
    if xs != [] {
      SortSorted(xs[..|xs| - 1], le);
      InsertSorted(xs[|xs| - 1], Sort(xs[..|xs| - 1], le), le);
    }
  }

  /** The elements of `xs` that compare equal to `x` both ways, in order. */
  function Equivalents<T>(xs: seq<T>, x: T, le: (T, T) -> bool): seq<T> {
    if xs == [] then []
    else (if le(xs[0], x) && le(x, xs[0]) then [xs[0]] else []) + Equivalents(xs[1..], x, le)
  }

  lemma {:induction false} EquivalentsConcat<T>(a: seq<T>, b: seq<T>, x: T, le: (T, T) -> bool)
    ensures Equivalents(a + b, x, le) == Equivalents(a, x, le) + Equivalents(b, x, le)
  {
    if a != [] {
      assert (a + b)[1..] == a[1..] + b;
      EquivalentsConcat(a[1..], b, x, le);
    } else {
      assert a + b == b;
    }
  }

  lemma {:induction false} EquivalentsNone<T>(xs: seq<T>, x: T, le: (T, T) -> bool)
    requires forall k :: 0 <= k < |xs| ==> !(le(xs[k], x) && le(x, xs[k]))
    ensures Equivalents(xs, x, le) == []
  {
    if xs != [] {
      EquivalentsNone(xs[1..], x, le);
    }
  }

  /** Inserting `y` into a sorted sequence puts it after every element
      equivalent to `x` when it is one itself, and leaves their order. */
  lemma {:induction false} InsertStable<T(!new)>(y: T, ys: seq<T>, x: T, le: (T, T) -> bool)
    requires TotalPreorder(le) && Sorted(ys, le)
    ensures Equivalents(Insert(y, ys, le), x, le) ==
      Equivalents(ys, x, le) + (if le(y, x) && le(x, y) then [y] else [])
  {
    if ys == [] {
    } else if le(ys[0], y) {
      InsertStable(y, ys[1..], x, le);
      assert ([ys[0]] + Insert(y, ys[1..], le))[1..] == Insert(y, ys[1..], le);
    } else {
      assert ([y] + ys)[1..] == ys;
      if le(y, x) && le(x, y) {
        forall k | 0 <= k < |ys| ensures !le(ys[k], y) {
          if k > 0 { assert le(ys[0], ys[k]); }
        }
        EquivalentsNone(ys, x, le);
      }
    }
  }

  /** `sorted` is stable: for every `x`, the elements equivalent to `x` come
      out in the order they went in. */
  lemma {:induction false} SortStable<T(!new)>(xs: seq<T>, x: T, le: (T, T) -> bool)
    requires TotalPreorder(le)
    ensures Equivalents(Sort(xs, le), x, le) == Equivalents(xs, x, le)
  {
    if xs != [] {
      var init, last := xs[..|xs| - 1], xs[|xs| - 1];
      assert xs == init + [last];
      SortStable(init, x, le);
      SortSorted(init, le);
      InsertStable(last, Sort(init, le), x, le);
      EquivalentsConcat(init, [last], x, le);
      assert [last][1..] == [];
    }
  }

  /** An element that is below every other element, and strictly so, comes
      first; no ordering property of `le` is needed for this. */
  lemma {:induction false} SortHeadIsLeast<T>(xs: seq<T>, le: (T, T) -> bool, m: T)
    requires m in xs
    requires forall e :: e in xs && e != m ==> le(m, e) && !le(e, m)
    ensures Sort(xs, le) != [] && Sort(xs, le)[0] == m
  {
    var init := xs[..|xs| - 1];
    var last := xs[|xs| - 1];
    assert xs == init + [last];
    var ys := Sort(init, le);
    assert forall e :: e in ys ==> e in init by {
      forall e | e in ys ensures e in init {
        assert e in multiset(ys);
      }
    }
    if last == m {
      if ys != [] && ys[0] != m {
        assert ys[0] in init;
        assert !le(ys[0], m);
      }
    } else {
      assert m in init;
      SortHeadIsLeast(init, le, m);
      assert le(m, last);
    }
  }

  /** Comparing two texts with a common prefix compares what follows it. */
  lemma {:induction false} LexLeCommonPrefix(p: string, a: string, b: string)
    ensures LexLe(p + a, p + b) <==> LexLe(a, b)
  {
    if p == [] {
      assert p + a == a && p + b == b;
    } else {
      assert (p + a)[0] == p[0] == (p + b)[0];
      assert (p + a)[1..] == p[1..] + a;
      assert (p + b)[1..] == p[1..] + b;
      LexLeCommonPrefix(p[1..], a, b);
    }
  }

  /** The decimal text of a positive number starts with a non-zero digit. */
  lemma {:induction false} NatToStringLead(n: nat)
    requires n >= 1
    ensures '1' <= NatToString(n)[0] <= '9'
  {
    if n >= 10 {
      NatToStringLead(n / 10);
    }
  }

  /** `str(1)` sorts before the text of every other positive number
      ("1" < "10" < "2"), and strictly so. */
  lemma OneSortsFirst(n: nat)
    requires n >= 2
    ensures LexLe("1", NatToString(n)) && !LexLe(NatToString(n), "1")
  {
    var s := NatToString(n);
    NatToStringLead(n);
    NatToStringSingle(n);
    assert "1"[1..] == [];
    assert n < 10 ==> s[0] == DigitChar(n);
  }
}
