/** Python's `dict`, which remembers the order in which keys were first
    inserted.  The order matters here: the region lookups return the FIRST
    matching entry, and the mutation buckets are printed in the order in which
    each region was first counted.  A dictionary is a sequence of key/value
    pairs without repeated keys. */
module Dict {
  import opened Wrappers

  type Dict<K(==), V> = seq<(K, V)>

  /** The keys, in insertion order. */
  function Keys<K(==), V>(d: Dict<K, V>): (ks: seq<K>)
    ensures |ks| == |d|
  {
    if d == [] then [] else [d[0].0] + Keys(d[1..])
  }

  lemma {:induction false} KeysAt<K, V>(d: Dict<K, V>, i: nat)
    requires i < |d|
    ensures Keys(d)[i] == d[i].0
  {
    if i > 0 {
      KeysAt(d[1..], i - 1);
    }
  }

  /** No key occurs twice. */
  predicate Unique<K(==), V>(d: Dict<K, V>) {
    forall i, j :: 0 <= i < j < |d| ==> d[i].0 != d[j].0
  }

  /** `k in d`. */
  predicate Has<K(==), V>(d: Dict<K, V>, k: K) {
    d != [] && (d[0].0 == k || Has(d[1..], k))
  }

  /** `k in d` holds exactly when some entry has key `k`. */
  lemma {:induction false} HasAt<K, V>(d: Dict<K, V>, k: K)
    ensures Has(d, k) <==> exists i :: 0 <= i < |d| && d[i].0 == k
  {
    if d != [] {
      HasAt(d[1..], k);
      if Has(d[1..], k) {
        var i :| 0 <= i < |d[1..]| && d[1..][i].0 == k;
        assert d[i + 1].0 == k;
      }
      if exists i :: 0 <= i < |d| && d[i].0 == k {
        var i :| 0 <= i < |d| && d[i].0 == k;
        if i > 0 { assert d[1..][i - 1].0 == k; }
      }
    }
  }

  /** `d.get(k)`: the value of the first entry with key `k`. */
  function Get<K(==), V>(d: Dict<K, V>, k: K): (r: Option<V>)
    ensures r.None? <==> !Has(d, k)
  {
    if d == [] then None
    else if d[0].0 == k then Some(d[0].1)
    else Get(d[1..], k)
  }

  /** `d[k] = v`: an existing key keeps its place and takes the new value, a
      new key goes at the end. */
  function Put<K(==), V>(d: Dict<K, V>, k: K, v: V): (r: Dict<K, V>)
    ensures Has(d, k) ==> |r| == |d|
    ensures !Has(d, k) ==> r == d + [(k, v)]
  {
    if d == [] then [(k, v)]
    else if d[0].0 == k then [(k, v)] + d[1..]
    else
      assert d == [d[0]] + d[1..];
      [d[0]] + Put(d[1..], k, v)
  }

  /** Reading a key just written gives the written value. */
  lemma {:induction false} GetPutSame<K, V>(d: Dict<K, V>, k: K, v: V)
    ensures Get(Put(d, k, v), k) == Some(v)
  {
    if d != [] && d[0].0 != k {
      GetPutSame(d[1..], k, v);
      assert Put(d, k, v)[1..] == Put(d[1..], k, v);
    }
  }

  /** Writing one key leaves every other key's value alone. */
  lemma {:induction false} GetPutOther<K, V>(d: Dict<K, V>, k: K, v: V, k2: K)
    requires k2 != k
    ensures Get(Put(d, k, v), k2) == Get(d, k2)
  {
    if d == [] {
    } else if d[0].0 == k {
      assert Put(d, k, v)[1..] == d[1..];
    } else if d[0].0 != k2 {
      GetPutOther(d[1..], k, v, k2);
      assert Put(d, k, v)[1..] == Put(d[1..], k, v);
    }
  }

  /** Writing a key keeps the order of the keys; a new key is appended. */
  lemma {:induction false} KeysPut<K, V>(d: Dict<K, V>, k: K, v: V)
    ensures Keys(Put(d, k, v)) == if Has(d, k) then Keys(d) else Keys(d) + [k]
  {
    if d == [] {
      assert Keys(Put(d, k, v)) == [k] + Keys(Put(d, k, v)[1..]);
    } else if d[0].0 == k {
      assert Put(d, k, v)[1..] == d[1..];
    } else {
      KeysPut(d[1..], k, v);
      assert Put(d, k, v)[1..] == Put(d[1..], k, v);
    }
  }

  /** A key is present after writing it, and so is every key that was there. */
  lemma HasPut<K, V>(d: Dict<K, V>, k: K, v: V, k2: K)
    ensures Has(Put(d, k, v), k2) <==> k2 == k || Has(d, k2)
  {
    if k2 == k {
      GetPutSame(d, k, v);
    } else {
      GetPutOther(d, k, v, k2);
    }
  }

  /** Writing keeps the keys unique. */
  lemma PutUnique<K, V>(d: Dict<K, V>, k: K, v: V)
    requires Unique(d)
    ensures Unique(Put(d, k, v))
  {
    var r := Put(d, k, v);
    HasAt(d, k);
    if Has(d, k) {
      KeysPut(d, k, v);
      forall i, j | 0 <= i < j < |r| ensures r[i].0 != r[j].0 {
        KeysAt(r, i); KeysAt(r, j); KeysAt(d, i); KeysAt(d, j);
      }
    }
  }

  /** `counter[k] += 1` on a `collections.defaultdict(int)`: a key seen for
      the first time starts at 0 and is appended to the key order. */
  function Inc<K(==)>(d: Dict<K, nat>, k: K): (r: Dict<K, nat>)
    ensures Get(r, k) == Some(Get(d, k).GetOr(0) + 1)
    ensures Keys(r) == if Has(d, k) then Keys(d) else Keys(d) + [k]
  {
    var n: nat := Get(d, k).GetOr(0) + 1;
    GetPutSame(d, k, n);
    KeysPut(d, k, n);
    Put(d, k, n)
  }

  /** Counting one key leaves the other counters alone. */
  lemma GetIncOther<K>(d: Dict<K, nat>, k: K, k2: K)
    requires k2 != k
    ensures Get(Inc(d, k), k2) == Get(d, k2)
  {
    var v: nat := Get(d, k).GetOr(0) + 1;
    assert Inc(d, k) == Put(d, k, v);
    GetPutOther(d, k, v, k2);
  }

  /** `sum(counter.values())`. */
  function SumValues<K(==)>(d: Dict<K, nat>): nat {
    if d == [] then 0 else d[0].1 + SumValues(d[1..])
  }

  /** Writing `v` under `k` replaces the old count of `k` by `v` in the sum. */
  lemma {:induction false} SumPut<K>(d: Dict<K, nat>, k: K, v: nat)
    ensures SumValues(Put(d, k, v)) + Get(d, k).GetOr(0) == SumValues(d) + v
  {
    if d == [] {
      assert Put(d, k, v)[1..] == [];
    } else if d[0].0 == k {
      assert Put(d, k, v)[1..] == d[1..];
    } else {
      SumPut(d[1..], k, v);
      assert Put(d, k, v)[1..] == Put(d[1..], k, v);
    }
  }

  /** Counting one key adds one to the sum of the counts. */
  lemma SumInc<K>(d: Dict<K, nat>, k: K)
    ensures SumValues(Inc(d, k)) == SumValues(d) + 1
  {
    SumPut(d, k, Get(d, k).GetOr(0) + 1);
  }

  /** `for k, v in zip(ks, vs): d[k] = v` over the first `n` pairs, starting
      from an empty dictionary. */
  function ZipDict<K(==), V>(ks: seq<K>, vs: seq<V>, n: nat): Dict<K, V>
    requires n <= |ks| && n <= |vs|
  {
    if n == 0 then [] else Put(ZipDict(ks, vs, n - 1), ks[n - 1], vs[n - 1])
  }

  /** One more pair of the zip. */
  lemma ZipDictStep<K, V>(ks: seq<K>, vs: seq<V>, i: nat, k: K, v: V)
    requires i < |ks| && i < |vs| && ks[i] == k && vs[i] == v
    ensures ZipDict(ks, vs, i + 1) == Put(ZipDict(ks, vs, i), k, v)
  {
  }

  /** Writing a key that no entry holds appends it. */
  lemma PutNew<K, V>(d: Dict<K, V>, k: K, v: V)
    requires forall i :: 0 <= i < |d| ==> d[i].0 != k
    ensures Put(d, k, v) == d + [(k, v)]
  {
    HasAt(d, k);
  }

  /** When the keys are distinct, zipping keeps every key in order and pairs
      it with its own value. */
  lemma {:induction false} ZipDictDistinct<K, V>(ks: seq<K>, vs: seq<V>, n: nat)
    requires n <= |ks| && n <= |vs|
    requires forall i, j :: 0 <= i < j < n ==> ks[i] != ks[j]
    ensures |ZipDict(ks, vs, n)| == n
    ensures forall i :: 0 <= i < n ==> ZipDict(ks, vs, n)[i] == (ks[i], vs[i])
  {
    if n > 0 {
      ZipDictDistinct(ks, vs, n - 1);
      var d := ZipDict(ks, vs, n - 1);
      PutNew(d, ks[n - 1], vs[n - 1]);
    }
  }

  /** With distinct keys, the keys come out in input order. */
  lemma ZipDictKeys<K, V>(ks: seq<K>, vs: seq<V>, n: nat)
    requires n <= |ks| && n <= |vs|
    requires forall i, j :: 0 <= i < j < n ==> ks[i] != ks[j]
    ensures Keys(ZipDict(ks, vs, n)) == ks[..n]
  {
    ZipDictDistinct(ks, vs, n);
    forall i | 0 <= i < n ensures Keys(ZipDict(ks, vs, n))[i] == ks[i] {
      KeysAt(ZipDict(ks, vs, n), i);
    }
  }

  /** The value stored under a key is the one paired with its last occurrence. */
  lemma {:induction false} ZipDictGetLast<K, V>(ks: seq<K>, vs: seq<V>, n: nat, i: nat)
    requires n <= |ks| && n <= |vs| && i < n
    requires forall j :: i < j < n ==> ks[j] != ks[i]
    ensures Get(ZipDict(ks, vs, n), ks[i]) == Some(vs[i])
  {
    if i == n - 1 {
      GetPutSame(ZipDict(ks, vs, n - 1), ks[i], vs[i]);
    } else {
      ZipDictGetLast(ks, vs, n - 1, i);
      GetPutOther(ZipDict(ks, vs, n - 1), ks[n - 1], vs[n - 1], ks[i]);
    }
  }

  /** A key that none of the first `n` keys equals is not stored. */
  lemma {:induction false} ZipDictAbsent<K, V>(ks: seq<K>, vs: seq<V>, n: nat, k: K)
    requires n <= |ks| && n <= |vs|
    requires forall j :: 0 <= j < n ==> ks[j] != k
    ensures Get(ZipDict(ks, vs, n), k) == None
  {
    if n > 0 {
      ZipDictAbsent(ks, vs, n - 1, k);
      GetPutOther(ZipDict(ks, vs, n - 1), ks[n - 1], vs[n - 1], k);
    }
  }

  /** In a dictionary without repeated keys, the value of the `k`-th key is
      the `k`-th value. */
  lemma {:induction false} GetAt<K, V>(d: Dict<K, V>, k: nat)
    requires k < |d| && Unique(d)
    ensures Get(d, d[k].0) == Some(d[k].1)
  {
    if k > 0 {
      assert d[0].0 != d[k].0;
      GetAt(d[1..], k - 1);
    }
  }

  /** `for k in d: out[k] = f(d[k])` over the first `m` entries. */
  function MapValues<K(==), V, W>(d: Dict<K, V>, f: V -> W, m: nat): Dict<K, W>
    requires m <= |d|
  {
    if m == 0 then [] else Put(MapValues(d, f, m - 1), d[m - 1].0, f(d[m - 1].1))
  }

  /** One more entry of the mapping. */
  lemma MapValuesStep<K, V, W>(d: Dict<K, V>, f: V -> W, m: nat, k: K, w: W)
    requires m < |d| && d[m].0 == k && f(d[m].1) == w
    ensures MapValues(d, f, m + 1) == Put(MapValues(d, f, m), k, w)
  {
  }

  /** Mapping the values of a dictionary keeps its keys and their order. */
  lemma {:induction false} MapValuesEntries<K, V, W>(d: Dict<K, V>, f: V -> W, m: nat)
    requires m <= |d| && Unique(d)
    ensures |MapValues(d, f, m)| == m
    ensures forall i :: 0 <= i < m ==> MapValues(d, f, m)[i] == (d[i].0, f(d[i].1))
  {
    if m > 0 {
      MapValuesEntries(d, f, m - 1);
      var r := MapValues(d, f, m - 1);
      PutNew(r, d[m - 1].0, f(d[m - 1].1));
    }
  }
}
