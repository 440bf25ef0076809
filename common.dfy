/*
 * Shared vocabulary of the model: optional values, the dynamic values that
 * the Python equipment framework keeps in its configuration dictionaries,
 * and the error code that every C++ component of the Conoscope library
 * returns (ClassCommon::Error).
 */
module Common {

  datatype Option<T> = None | Some(value: T)

  /** A Python value as stored in a configuration or status dictionary. */
  datatype Value =
    | VNone
    | VBool(b: bool)
    | VInt(i: int)
    | VReal(r: real)
    | VStr(s: string)
    | VList(items: seq<Value>)
    | VDict(entries: map<string, Value>)

  /** An `unsigned char`. */
  type Byte = x: int | 0 <= x < 256

  /** A Python `Dict[str, Any]`. */
  type Dict = map<string, Value>

  /** The name of a value's Python type, as exception texts print it. */
  function PyTypeName(v: Value): string
  {
    match v
    case VNone => "NoneType"
    case VBool(_) => "bool"
    case VInt(_) => "int"
    case VReal(_) => "float"
    case VStr(_) => "str"
    case VList(_) => "list"
    case VDict(_) => "dict"
  }

  /** `str(KeyError(key))` for a string key: the key's `repr`, in single quotes. */
  function KeyErrorText(key: string): string
  {
    "'" + key + "'"
  }

  /** Python truthiness of an optional string argument (`if error_msg:`). */
  predicate Truthy(s: Option<string>)
  {
    s.Some? && s.value != ""
  }

  /** Python truthiness of a dictionary value (`if x:`, `not x`). */
  predicate IsTruthy(v: Value)
  {
    match v
    case VNone => false
    case VBool(b) => b
    case VInt(i) => i != 0
    case VReal(r) => r != 0.0
    case VStr(s) => s != ""
    case VList(items) => items != []
    case VDict(entries) => entries != map[]
  }

  /** ClassCommon::Error, in declaration order. */
  datatype Error =
    | Ok
    | Failed
    | ViFailed
    | InvalidParameter
    | InvalidState
    | NotImplemented
    | FailedMaxRetry
    | Aborted
    | Timeout
    | InvalidConfiguration

  /** Decimal text of an integer, as Python's `str(int)` and Qt's `QString::number` print it. */
  function IntText(n: int): (r: string)
    decreases if n < 0 then 1 - n else n
  {
    if n < 0 then "-" + IntText(-n)
    else if n < 10 then [DigitChar(n)]
    else IntText(n / 10) + [DigitChar(n % 10)]
  }

  function DigitChar(d: int): (c: char)
    requires 0 <= d < 10
    ensures '0' <= c <= '9'
  {
    "0123456789"[d]
  }

  /** String containment, as Python's `needle in haystack`. */
  predicate Contains(haystack: string, needle: string)
    decreases |haystack|
  {
    |needle| <= |haystack| &&
    (haystack[..|needle|] == needle || Contains(haystack[1..], needle))
  }

  /** A positive multiple of a positive number is at least that number. */
  lemma MulAtLeast(k: int, d: int)
    requires k >= 1 && d > 0
    ensures d * k >= d
  {
  }

  /** Multiplying by a non-negative number keeps the order. */
  lemma MulMonotone(n: int, a: int, b: int)
    requires n >= 0 && a <= b
    ensures n * a <= n * b
  {
    assert n * b - n * a == n * (b - a);
  }

  /** A positive factor can be cancelled from both sides of an inequality. */
  lemma MulCancel(n: int, a: int, b: int)
    requires n > 0 && n * a <= n * b
    ensures a <= b
  {
  }

  /** The quotient of a sum of `n` values within [lo, hi] by `n` is within [lo, hi]. */
  lemma MeanWithin(sum: int, n: int, lo: int, hi: int)
    requires n > 0 && n * lo <= sum <= n * hi
    ensures lo <= sum / n <= hi
  {
    var q, r := sum / n, sum % n;
    assert sum == n * q + r && 0 <= r < n;
    MulCancel(n, q, hi);
    assert n * lo < n * (q + 1);
    MulCancel(n, lo, q + 1);
  }

  /** C and C++ integer division by a positive divisor: truncation toward zero. */
  function TruncDiv(a: int, b: int): int
    requires b > 0
  {
    if a >= 0 then a / b else -((-a) / b)
  }

  /** Euclidean division is unique: a quotient and remainder that fit are the ones of `/` and `%`. */
  lemma DivUnique(n: int, d: int, q: int, r: int)
    requires d > 0 && 0 <= r < d && n == d * q + r
    ensures n / d == q
  {
    var q', r' := n / d, n % d;
    assert n == d * q' + r';
    if q > q' {
      MulAtLeast(q - q', d);
      assert false;
    } else if q < q' {
      MulAtLeast(q' - q, d);
      assert false;
    }
  }

  /** Keys listed in order, each once, and all of them in the map. */
  predicate Listed<K, V>(keys: seq<K>, m: map<K, V>)
  {
    (forall i :: 0 <= i < |keys| ==> keys[i] in m)
    && (forall i, j :: 0 <= i < j < |keys| ==> keys[i] != keys[j])
  }

  /** No two listed keys map to the same value. */
  predicate InjectiveOn<K, V(==)>(keys: seq<K>, m: map<K, V>)
    requires Listed(keys, m)
  {
    forall i, j :: 0 <= i < j < |keys| ==> m[keys[i]] != m[keys[j]]
  }

  /** The reverse map a `for` loop over the listed pairs builds, later pairs overwriting earlier ones. */
  function Inverted<K, V>(keys: seq<K>, m: map<K, V>): map<V, K>
    requires Listed(keys, m)
  {
    if keys == [] then map[]
    else Inverted(keys[..|keys| - 1], m)[m[keys[|keys| - 1]] := keys[|keys| - 1]]
  }

  /** For an injective map the reverse map sends every value back to its key, and holds nothing else. */
  lemma {:induction false} InvertedInverts<K, V>(keys: seq<K>, m: map<K, V>)
    requires Listed(keys, m) && InjectiveOn(keys, m)
    ensures forall i :: 0 <= i < |keys| ==> m[keys[i]] in Inverted(keys, m) && Inverted(keys, m)[m[keys[i]]] == keys[i]
    ensures forall v :: v in Inverted(keys, m) ==> exists i :: 0 <= i < |keys| && m[keys[i]] == v
  {
    if keys != [] {
      var front := keys[..|keys| - 1];
      assert Listed(front, m) && InjectiveOn(front, m);
      InvertedInverts(front, m);
      forall v | v in Inverted(keys, m)
        ensures exists i :: 0 <= i < |keys| && m[keys[i]] == v
      {
        if v != m[keys[|keys| - 1]] {
          assert v in Inverted(front, m);
          var i :| 0 <= i < |front| && m[front[i]] == v;
          assert keys[i] == front[i];
        }
      }
    }
  }

  /** The loop that fills a reverse map from a map visited in key order. */
  method Invert<K(==), V(==)>(keys: seq<K>, m: map<K, V>) returns (r: map<V, K>)
    requires Listed(keys, m)
    ensures r == Inverted(keys, m)
  {
    r := map[];
    var i := 0;
    while i < |keys|
      invariant 0 <= i <= |keys|
      invariant Listed(keys[..i], m) && r == Inverted(keys[..i], m)
    {
      assert keys[..i + 1][..i] == keys[..i];
      r := r[m[keys[i]] := keys[i]];
      i := i + 1;
    }
    assert keys[..i] == keys;
  }

  /** The sum of a sequence of integers. */
  function Sum(s: seq<int>): int
  {
    if s == [] then 0 else s[0] + Sum(s[1..])
  }

  lemma SumAppend(s: seq<int>, x: int)
    ensures Sum(s + [x]) == Sum(s) + x
  {
    if s != [] {
      assert (s + [x])[1..] == s[1..] + [x];
      SumAppend(s[1..], x);
    }
  }
}
