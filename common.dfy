/** Small shared definitions: an Option type, the first-match lookup in a
    table of pairs, min/max on reals and on integers, abs, and
    the few Python built-ins whose semantics the model has to spell out
    (int() truncation of a float, slicing with a possibly negative start,
    float modulo with a positive divisor). */
module Common {

  datatype Option<T> = None | Some(value: T)

  function GetOr<T>(o: Option<T>, default: T): (r: T)
    ensures o.Some? ==> r == o.value
    ensures o.None? ==> r == default
  {
    match o
    case Some(v) => v
    case None => default
  }

  /** The value paired with the first entry for `key` in an association
      list, as a lookup in a table of pairs or enumeration members. */
  function Find<K(==), V>(table: seq<(K, V)>, key: K): (r: Option<V>)
    ensures r.None? <==> forall i :: 0 <= i < |table| ==> table[i].0 != key
    ensures r.Some? ==> exists i :: 0 <= i < |table| && table[i] == (key, r.value)
  {
    if |table| == 0 then None
    else if table[0].0 == key then Some(table[0].1)
    else Find(table[1..], key)
  }

  /** No key occurs twice, as in a mapping read from YAML. */
  predicate DistinctKeys<K(==), V>(table: seq<(K, V)>)
  {
    forall i, j :: 0 <= i < j < |table| ==> table[i].0 != table[j].0
  }

  /** With distinct keys the entry found is the one entry with that key, so
      taking the first agrees with the mapping's single value. */
  lemma FindDistinct<K, V>(table: seq<(K, V)>, key: K, i: int)
    requires DistinctKeys(table) && 0 <= i < |table| && table[i].0 == key
    ensures Find(table, key) == Some(table[i].1)
  {
    var j :| 0 <= j < |table| && table[j] == (key, Find(table, key).value);
    assert !(i < j) && !(j < i);
  }

  function Abs(x: real): (r: real)
    ensures r >= 0.0
    ensures r == x || r == -x
  {
    if x < 0.0 then -x else x
  }

  function Max(a: real, b: real): (r: real)
    ensures r >= a && r >= b
    ensures r == a || r == b
  {
    if a >= b then a else b
  }

  function Min(a: real, b: real): (r: real)
    ensures r <= a && r <= b
    ensures r == a || r == b
  {
    if a <= b then a else b
  }

  function MinInt(a: int, b: int): (r: int)
    ensures r <= a && r <= b
    ensures r == a || r == b
  {
    if a <= b then a else b
  }

  function MaxInt(a: int, b: int): (r: int)
    ensures r >= a && r >= b
    ensures r == a || r == b
  {
    if a >= b then a else b
  }

  /** Python's int() applied to a float: truncation toward zero. */
  function Trunc(x: real): (r: int)
    ensures x >= 0.0 ==> r >= 0 && r as real <= x < r as real + 1.0
    ensures x < 0.0 ==> r <= 0 && r as real - 1.0 < x <= r as real
  {
    if x >= 0.0 then x.Floor else -((-x).Floor)
  }

  /** Python's `s[k:]` for any integer k: a negative start counts from
      the end, and both kinds of start are clipped to the sequence. */
  function SliceFrom<T>(s: seq<T>, k: int): (r: seq<T>)
    ensures |r| <= |s| && r == s[|s| - |r|..]
    ensures k >= 0 ==> |r| == MaxInt(0, |s| - k)
    ensures k < 0 ==> |r| == MinInt(-k, |s|)
  {
    if k >= 0 then s[MinInt(k, |s|)..] else s[MaxInt(0, |s| + k)..]
  }

  /** Python's float `x % m` for a positive divisor: `x - floor(x / m) * m`,
      whose result takes the sign of the divisor. */
  function FloatMod(x: real, m: real): real
    requires m > 0.0
  {
    x - (x / m).Floor as real * m
  }

  /** The last element of a non-empty sequence (Python's `s[-1]`). */
  function Last<T>(s: seq<T>): T
    requires |s| > 0
  {
    s[|s| - 1]
  }

  predicate Distinct<T(==)>(s: seq<T>)
  {
    forall i, j :: 0 <= i < j < |s| ==> s[i] != s[j]
  }
}
