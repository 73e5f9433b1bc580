/**
 * The part of PHP's value semantics that the response wrapper relies on:
 * the values `json_decode($body, true)` produces, the conversion to bool
 * behind `!$x`, `isset($a[$k])`, the read `$a[$k]`, and the decimal text of
 * an integer inside a double-quoted string.
 */
module Php {
  import opened Wrappers

  /**
   * A decoded JSON value. With `assoc = true`, JSON objects and lists both
   * become PHP arrays; here an array is a map from its (string) keys.
   */
  datatype Value =
    | Null
    | Bool(b: bool)
    | Int(i: int)
    | Float(f: real)
    | Str(s: string)
    | Arr(entries: map<string, Value>)

  /** PHP's conversion to bool. */
  predicate Truthy(v: Value) {
    match v
    case Null => false
    case Bool(b) => b
    case Int(i) => i != 0
    case Float(f) => f != 0.0
    case Str(s) => s != "" && s != "0"
    case Arr(m) => |m| != 0
  }

  /** Exactly these seven values are falsy; every other value is truthy. */
  lemma FalsyValues(v: Value)
    ensures !Truthy(v) <==>
      v == Null || v == Bool(false) || v == Int(0) || v == Float(0.0)
      || v == Str("") || v == Str("0") || v == Arr(map[])
  {
  }

  /** `isset($v[$k])`: `$v` is an array holding `$k` with a non-null value. */
  predicate IsSet(v: Value, k: string) {
    v.Arr? && k in v.entries && v.entries[k] != Null
  }

  /** What a read `$v[$k]` reports instead of a value (PHP warns and yields null). */
  datatype ReadWarning = UndefinedArrayKey(key: string) | OffsetOnScalar

  /** The read `$v[$k]`. */
  function Index(v: Value, k: string): (r: Result<Value, ReadWarning>)
    ensures r.Success? <==> v.Arr? && k in v.entries
    ensures r.Success? ==> r.value == v.entries[k]
    ensures v.Arr? && k !in v.entries ==> r == Failure(UndefinedArrayKey(k))
  {
    match v
    case Arr(m) => if k in m then Success(m[k]) else Failure(UndefinedArrayKey(k))
    case _ => Failure(OffsetOnScalar)
  }

  /** `isset` holds exactly where the read succeeds with a non-null value. */
  lemma IsSetIffReadNonNull(v: Value, k: string)
    ensures IsSet(v, k) <==> Index(v, k).Success? && Index(v, k).value != Null
  {
  }

  predicate IsDigit(c: char) {
    '0' <= c <= '9'
  }

  predicate AllDigits(s: string) {
    forall i :: 0 <= i < |s| ==> IsDigit(s[i])
  }

  function DigitChar(d: nat): (c: char)
    requires d < 10
    ensures IsDigit(c) && c as int - '0' as int == d
  {
    ('0' as int + d) as char
  }

  /** The text of a non-negative integer interpolated into a PHP string. */
  function Decimal(n: nat): (s: string)
    ensures 1 <= |s| && AllDigits(s)
    ensures |s| > 1 ==> s[0] != '0'
    decreases n
  {
    if n < 10 then [DigitChar(n)] else Decimal(n / 10) + [DigitChar(n % 10)]
  }

  /** The number a string of decimal digits denotes. */
  function ParseDecimal(s: string): nat
    requires AllDigits(s)
    decreases |s|
  {
    if s == [] then 0
    else 10 * ParseDecimal(s[..|s| - 1]) + (s[|s| - 1] as int - '0' as int)
  }

  /** Decimal text loses nothing: the number can be read back from it. */
  lemma {:induction false} DecimalRoundTrip(n: nat)
    ensures ParseDecimal(Decimal(n)) == n
    decreases n
  {
    var s := Decimal(n);
    if n < 10 {
      assert s[..|s| - 1] == [];
    } else {
      assert s[..|s| - 1] == Decimal(n / 10);
      DecimalRoundTrip(n / 10);
    }
  }
}
