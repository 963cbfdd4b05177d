/** Vocabulary shared by every module of the model: optional values and results (the Python code's
    `None` returns and raised exceptions), the three outcomes of a numpy floating-point division,
    small helpers over `real`, ASCII case mapping, substring search, and insertion-ordered
    dictionaries with Python's overwrite-in-place semantics.
 */
module Basics {

  /** A value that may be missing (Python `None`). */
  datatype Option<+T> = None | Some(value: T) {
    predicate IsFailure() { None? }
    function PropagateFailure<U>(): Option<U> requires None? { None }
    function Extract(): T requires Some? { value }
  }

  /** A computed value, or the exception the Python code raises instead. */
  datatype Result<+T, +E> = Ok(value: T) | Err(error: E) {
    predicate IsFailure() { Err? }
    function PropagateFailure<U>(): Result<U, E> requires Err? { Err(error) }
    function Extract(): T requires Ok? { value }
  }

  // ---------------------------------------------------------------------------
  // Reals
  // ---------------------------------------------------------------------------

  /** `math.pi`, the double nearest pi, written out as a decimal. */
  const Pi: real := 3.141592653589793

  /** Unit conversions shared by the pressure-drop and blower calculations. */
  const PascalPerPsi: real := 6894.76
  const SecondsPerHour: real := 3600.0

  /** Python's two-argument `max`. */
  function Max(a: real, b: real): (r: real)
    ensures r >= a && r >= b
    ensures r == a || r == b
  {
    if b > a then b else a
  }

  /** Python's two-argument `min`. */
  function Min(a: real, b: real): (r: real)
    ensures r <= a && r <= b
    ensures r == a || r == b
  {
    if b < a then b else a
  }

  function Abs(a: real): (r: real)
    ensures r >= 0.0
    ensures r == a || r == -a
  {
    if a < 0.0 then -a else a
  }

  /** `x*y >= 0` with `y > 0` gives `x >= 0`. */
  lemma FactorNonNegative(x: real, y: real)
    requires y > 0.0 && x * y >= 0.0
    ensures x >= 0.0
  {
    assert x == (x * y) / y;
  }

  /** Multiplying by a non-negative factor keeps order. */
  lemma ScaleMonotone(a: real, b: real, c: real)
    requires a <= b && c >= 0.0
    ensures a * c <= b * c
  {
    assert (b - a) * c >= 0.0;
    assert b * c - a * c == (b - a) * c;
  }

  /** `max(lo, min(hi, x))`: the value pulled into `[lo, hi]`. */
  function Clamp(lo: real, hi: real, x: real): (r: real)
    requires lo <= hi
    ensures lo <= r <= hi
    ensures lo <= x <= hi ==> r == x
    ensures x < lo ==> r == lo
    ensures x > hi ==> r == hi
  {
    Max(lo, Min(hi, x))
  }

  /** Clamping keeps order. */
  lemma ClampMonotone(lo: real, hi: real, x: real, y: real)
    requires lo <= hi && x <= y
    ensures Clamp(lo, hi, x) <= Clamp(lo, hi, y)
  {
  }

  function Sum(xs: seq<real>): real
  {
    if |xs| == 0 then 0.0 else xs[0] + Sum(xs[1..])
  }

  /** Python's `int(x)` on a float: truncation toward zero. */
  function Truncate(x: real): (r: int)
    ensures x >= 0.0 ==> r as real <= x < r as real + 1.0
    ensures x < 0.0 ==> r as real - 1.0 < x <= r as real
  {
    if x >= 0.0 then x.Floor else -((-x).Floor)
  }

  // ---------------------------------------------------------------------------
  // numpy division outcomes
  // ---------------------------------------------------------------------------

  /** A numpy float64 quotient: finite, positive infinity (a positive number over zero), or NaN
      (zero over zero). numpy reports these without raising. */
  datatype Ext = Finite(v: real) | PosInf | NaN

  /** `a / b` in numpy for a non-negative numerator. */
  function DivideMagnitude(a: real, b: real): (r: Ext)
    requires a >= 0.0
    ensures r.Finite? <==> b != 0.0
    ensures r.NaN? <==> b == 0.0 && a == 0.0
  {
    if b != 0.0 then Finite(a / b) else if a == 0.0 then NaN else PosInf
  }

  /** IEEE `a > b`: every comparison involving NaN is false. */
  predicate Greater(a: Ext, b: Ext)
  {
    match (a, b)
    case (Finite(x), Finite(y)) => x > y
    case (PosInf, Finite(_)) => true
    case _ => false
  }

  /** IEEE `e < t` against a finite threshold. */
  predicate LessThan(e: Ext, t: real)
  {
    e.Finite? && e.v < t
  }

  /** Python's builtin `max(a, b)`: keeps `a` unless `b > a`, so a NaN in second place is dropped. */
  function PyMax(a: Ext, b: Ext): Ext
  {
    if Greater(b, a) then b else a
  }

  /** numpy's `np.max` over a non-empty array: NaN wins, then infinity, then the largest value. */
  function ArrayMax(xs: seq<Ext>): (r: Ext)
    requires |xs| > 0
    ensures r.NaN? <==> exists i :: 0 <= i < |xs| && xs[i].NaN?
    ensures r.Finite? ==> forall i :: 0 <= i < |xs| ==> xs[i].Finite? && xs[i].v <= r.v
    ensures r.Finite? ==> exists i :: 0 <= i < |xs| && xs[i] == r
  {
    if |xs| == 1 then xs[0]
    else
      var rest := ArrayMax(xs[1..]);
      assert forall i :: 1 <= i < |xs| ==> xs[i] == xs[1..][i - 1];
      if xs[0].NaN? || rest.NaN? then NaN
      else if xs[0].PosInf? || rest.PosInf? then PosInf
      else Finite(Max(xs[0].v, rest.v))
  }

  // ---------------------------------------------------------------------------
  // Strings
  // ---------------------------------------------------------------------------

  function UpperChar(c: char): char
  {
    if 'a' <= c <= 'z' then (c as int - 32) as char else c
  }

  function LowerChar(c: char): char
  {
    if 'A' <= c <= 'Z' then (c as int + 32) as char else c
  }

  /** `str.upper()` on ASCII text. */
  function Upper(s: string): (r: string)
    ensures |r| == |s|
    ensures forall i :: 0 <= i < |s| ==> r[i] == UpperChar(s[i])
  {
    seq(|s|, i requires 0 <= i < |s| => UpperChar(s[i]))
  }

  /** `str.lower()` on ASCII text. */
  function Lower(s: string): (r: string)
    ensures |r| == |s|
    ensures forall i :: 0 <= i < |s| ==> r[i] == LowerChar(s[i])
  {
    seq(|s|, i requires 0 <= i < |s| => LowerChar(s[i]))
  }

  /** Python's `sub in s`. */
  predicate Contains(s: string, sub: string)
    decreases |s|
  {
    (|sub| <= |s| && s[..|sub|] == sub) || (|s| > 0 && Contains(s[1..], sub))
  }

  /** `s.replace(pat, "")`: one left-to-right pass removing non-overlapping occurrences. */
  function RemoveAll(s: string, pat: string): (r: string)
    requires |pat| > 0
    ensures |r| <= |s|
    ensures !Contains(s, pat) ==> r == s
    decreases |s|
  {
    if |s| < |pat| then s
    else if s[..|pat|] == pat then RemoveAll(s[|pat|..], pat)
    else [s[0]] + RemoveAll(s[1..], pat)
  }

  /** The applications whose strippable fraction depends on pH: `application.upper() in ['H2S', 'CO2']`. */
  predicate PhSensitive(application: string)
  {
    Upper(application) == "H2S" || Upper(application) == "CO2"
  }

  // ---------------------------------------------------------------------------
  // Insertion-ordered dictionaries
  // ---------------------------------------------------------------------------

  /** A Python dict: entries in insertion order. */
  type Dict<K, V> = seq<(K, V)>

  function KeySet<K, V>(d: Dict<K, V>): set<K>
  {
    set i | 0 <= i < |d| :: d[i].0
  }

  predicate UniqueKeys<K(==), V>(d: Dict<K, V>)
  {
    forall i, j :: 0 <= i < j < |d| ==> d[i].0 != d[j].0
  }

  lemma KeySetCons<K, V>(d: Dict<K, V>)
    requires |d| > 0
    ensures KeySet(d) == {d[0].0} + KeySet(d[1..])
  {
    forall x | x in KeySet(d) ensures x in {d[0].0} + KeySet(d[1..]) {
      var i :| 0 <= i < |d| && d[i].0 == x;
      if i > 0 { assert d[1..][i - 1].0 == x; }
    }
    forall x | x in KeySet(d[1..]) ensures x in KeySet(d) {
      var i :| 0 <= i < |d[1..]| && d[1..][i].0 == x;
      assert d[i + 1].0 == x;
    }
  }

  lemma UniqueCons<K, V>(d: Dict<K, V>)
    requires |d| > 0
    ensures UniqueKeys(d) <==> d[0].0 !in KeySet(d[1..]) && UniqueKeys(d[1..])
  {
    if UniqueKeys(d) {
      forall i, j | 0 <= i < j < |d[1..]| ensures d[1..][i].0 != d[1..][j].0 {
        assert d[1..][i] == d[i + 1] && d[1..][j] == d[j + 1];
      }
    }
    if d[0].0 !in KeySet(d[1..]) && UniqueKeys(d[1..]) {
      forall i, j | 0 <= i < j < |d| ensures d[i].0 != d[j].0 {
        assert d[j] == d[1..][j - 1];
        if i > 0 { assert d[i] == d[1..][i - 1]; }
      }
    }
  }

  /** `d.get(k)`: the value stored under `k`, if any. */
  function Get<K(==), V>(d: Dict<K, V>, k: K): (r: Option<V>)
    ensures r.Some? <==> k in KeySet(d)
  {
    if |d| == 0 then None
    else if d[0].0 == k then Some(d[0].1)
    else KeySetCons(d); Get(d[1..], k)
  }

  /** In a dict without repeated keys, the lookup of the i-th key finds the i-th value. */
  lemma {:induction false} GetAt<K, V>(d: Dict<K, V>, i: nat)
    requires UniqueKeys(d) && i < |d|
    ensures Get(d, d[i].0) == Some(d[i].1)
  {
    if i > 0 {
      assert d[0].0 != d[i].0;
      UniqueCons(d);
      assert d[1..][i - 1] == d[i];
      GetAt(d[1..], i - 1);
    }
  }

  /** `d[k] = v`: an existing key keeps its position and takes the new value; a new key goes last. */
  function Put<K(==,!new), V>(d: Dict<K, V>, k: K, v: V): (r: Dict<K, V>)
    ensures Get(r, k) == Some(v)
    ensures forall k' :: k' != k ==> Get(r, k') == Get(d, k')
    ensures KeySet(r) == KeySet(d) + {k}
    ensures UniqueKeys(d) ==> UniqueKeys(r)
    ensures k in KeySet(d) ==> |r| == |d|
    ensures k !in KeySet(d) ==> |r| == |d| + 1
  {
    if |d| == 0 then [(k, v)]
    else if d[0].0 == k then
      var r := [(k, v)] + d[1..];
      KeySetCons(d); KeySetCons(r); UniqueCons(d); UniqueCons(r);
      assert r[1..] == d[1..];
      r
    else
      var rest := Put(d[1..], k, v);
      var r := [d[0]] + rest;
      KeySetCons(d); KeySetCons(r); UniqueCons(d); UniqueCons(r);
      assert r[1..] == rest;
      r
  }

  /** A successful lookup names an entry of the dict. */
  lemma {:induction false} GetFound<K, V>(d: Dict<K, V>, k: K)
    requires Get(d, k).Some?
    ensures (k, Get(d, k).value) in d
  {
    if d[0].0 != k {
      GetFound(d[1..], k);
    }
  }

  /** Every entry after a store is an old entry or the stored one. */
  lemma {:induction false} PutEntries<K(!new), V>(d: Dict<K, V>, k: K, v: V)
    ensures forall e :: e in Put(d, k, v) ==> e in d || e == (k, v)
  {
    if |d| > 0 && d[0].0 != k {
      PutEntries(d[1..], k, v);
    }
  }

  /** Storing under a new key appends one entry at the end. */
  lemma {:induction false} PutFresh<K(!new), V>(d: Dict<K, V>, k: K, v: V)
    requires k !in KeySet(d)
    ensures Put(d, k, v) == d + [(k, v)]
  {
    if |d| > 0 {
      KeySetCons(d);
      PutFresh(d[1..], k, v);
      ConsSplit(d);
    }
  }

  /** Dropping the last entry of a dict without repeated keys leaves one without that key. */
  lemma UniqueSnoc<K, V>(d: Dict<K, V>)
    requires UniqueKeys(d) && |d| > 0
    ensures UniqueKeys(d[..|d| - 1]) && d[|d| - 1].0 !in KeySet(d[..|d| - 1])
  {
    var n := |d| - 1;
    forall i, j | 0 <= i < j < n ensures d[..n][i].0 != d[..n][j].0 {
      assert d[..n][i] == d[i] && d[..n][j] == d[j];
    }
    forall i | 0 <= i < n ensures d[..n][i].0 != d[n].0 {
      assert d[..n][i] == d[i];
    }
  }

  /** Assigning each pair in turn, as `dict(pairs)` or a loop of `d[k] = v` does. */
  function FromPairs<K(==,!new), V>(pairs: seq<(K, V)>): Dict<K, V>
  {
    if |pairs| == 0 then []
    else Put(FromPairs(pairs[..|pairs| - 1]), pairs[|pairs| - 1].0, pairs[|pairs| - 1].1)
  }

  lemma FromPairsSnoc<K(!new), V>(pairs: seq<(K, V)>, e: (K, V))
    ensures FromPairs(pairs + [e]) == Put(FromPairs(pairs), e.0, e.1)
  {
    assert (pairs + [e])[..|pairs|] == pairs;
  }

  /** The assigned dict holds exactly the keys assigned. */
  lemma {:induction false} FromPairsKeys<K(!new), V>(pairs: seq<(K, V)>)
    ensures KeySet(FromPairs(pairs)) == KeySet(pairs)
  {
    if |pairs| > 0 {
      var n := |pairs| - 1;
      FromPairsKeys(pairs[..n]);
      SnocSplit(pairs);
      KeySetSnoc(pairs[..n], pairs[n]);
    }
  }

  lemma KeySetSnoc<K, V>(d: Dict<K, V>, e: (K, V))
    ensures KeySet(d + [e]) == KeySet(d) + {e.0}
  {
    var x := d + [e];
    assert x[|d|] == e;
    forall k | k in KeySet(d) ensures k in KeySet(x) {
      var i :| 0 <= i < |d| && d[i].0 == k;
      assert x[i] == d[i];
    }
  }

  /** Every stored entry is one of the pairs. */
  lemma {:induction false} FromPairsEntries<K(!new), V>(pairs: seq<(K, V)>)
    ensures forall e :: e in FromPairs(pairs) ==> e in pairs
  {
    if |pairs| > 0 {
      var n := |pairs| - 1;
      FromPairsEntries(pairs[..n]);
      PutEntries(FromPairs(pairs[..n]), pairs[n].0, pairs[n].1);
      assert forall e :: e in pairs[..n] ==> e in pairs;
    }
  }

  /** Pairs without repeated keys are stored as given, in order. */
  lemma {:induction false} FromPairsUnique<K(!new), V>(pairs: seq<(K, V)>)
    requires UniqueKeys(pairs)
    ensures FromPairs(pairs) == pairs
  {
    if |pairs| > 0 {
      var n := |pairs| - 1;
      var init := pairs[..n];
      SnocSplit(pairs);
      UniqueSnoc(pairs);
      FromPairsUnique(init);
      PutFresh(init, pairs[n].0, pairs[n].1);
    }
  }

  /** Assignment never repeats a key. */
  lemma {:induction false} FromPairsHasUniqueKeys<K(!new), V>(pairs: seq<(K, V)>)
    ensures UniqueKeys(FromPairs(pairs))
  {
    if |pairs| > 0 {
      FromPairsHasUniqueKeys(pairs[..|pairs| - 1]);
    }
  }

  /** Assigning `p` and then `q`: a key assigned in `q` reads its last value there, any other
      key reads what `p` left. */
  lemma {:induction false} FromPairsAppendGet<K(!new), V>(p: seq<(K, V)>, q: seq<(K, V)>, k: K)
    ensures Get(FromPairs(p + q), k) == if k in KeySet(q) then Get(FromPairs(q), k) else Get(FromPairs(p), k)
  {
    if |q| == 0 {
      assert p + q == p;
    } else {
      var n := |q| - 1;
      var e := q[n];
      SnocSplit(q);
      assert p + q == (p + q[..n]) + [e];
      FromPairsSnoc(p + q[..n], e);
      FromPairsSnoc(q[..n], e);
      KeySetSnoc(q[..n], e);
      FromPairsAppendGet(p, q[..n], k);
    }
  }

  lemma SnocSplit<T>(s: seq<T>)
    requires |s| > 0
    ensures s == s[..|s| - 1] + [s[|s| - 1]]
  {
  }

  lemma ConsSplit<T>(s: seq<T>)
    requires |s| > 0
    ensures s == [s[0]] + s[1..]
  {
  }
}
