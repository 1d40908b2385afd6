/**
 * The PHP value semantics the gradebook services rely on: decoded JSON values,
 * `isset`, `empty`, `intval`, `floatval`, `strval`, `is_numeric`, the loose
 * `==` of PHP 7, `round($x, 5)` as used by gradelib's float helpers, and an
 * exception that carries only a status code.
 */
module PhpValues {

  datatype Option<T> = None | Some(value: T)

  /** A value produced by `json_decode` (objects as member maps). */
  datatype Json =
    | JNull
    | JBool(b: bool)
    | JInt(i: int)
    | JReal(r: real)
    | JStr(s: string)
    | JArr(elems: seq<Json>)
    | JObj(fields: map<string, Json>)

  /** `throw new \Exception(null, code)`, or a normal return of `value`. */
  datatype Try<T> = Done(value: T) | Thrown(code: int)

  /** `$o->key`: the member, or null when it is absent or `o` is not an object. */
  function Member(o: Json, key: string): Json
  {
    if o.JObj? && key in o.fields then o.fields[key] else JNull
  }

  /** `isset($o->key)`: the member is present and not null. */
  predicate Isset(o: Json, key: string)
  {
    Member(o, key) != JNull
  }

  /** `isset($o->outer->inner)` */
  predicate IssetPath(o: Json, outer: string, inner: string)
  {
    Isset(Member(o, outer), inner)
  }

  /** PHP `empty` on a string. */
  predicate EmptyString(s: string)
  {
    s == "" || s == "0"
  }

  /** PHP `empty`: null, false, 0, 0.0, "", "0" and the empty array; an object never is. */
  predicate Empty(v: Json)
  {
    match v
    case JNull => true
    case JBool(b) => !b
    case JInt(i) => i == 0
    case JReal(r) => r == 0.0
    case JStr(s) => EmptyString(s)
    case JArr(a) => a == []
    case JObj(_) => false
  }

  // ---------------------------------------------------------------- digits

  predicate IsDigit(c: char)
  {
    '0' <= c <= '9'
  }

  predicate AllDigits(s: string)
  {
    forall i :: 0 <= i < |s| ==> IsDigit(s[i])
  }

  function DigitValue(c: char): nat
    requires IsDigit(c)
  {
    (c as int - '0' as int) as nat
  }

  function DigitChar(d: nat): (c: char)
    requires d < 10
    ensures IsDigit(c) && DigitValue(c) == d
  {
    ('0' as int + d) as char
  }

  /** Length of the run of decimal digits at the start of `s`. */
  function DigitRun(s: string): (n: nat)
    ensures n <= |s|
    ensures AllDigits(s[..n])
    ensures n < |s| ==> !IsDigit(s[n])
  {
    if s == [] || !IsDigit(s[0]) then 0
    else
      var n := 1 + DigitRun(s[1..]);
      assert s[..n] == [s[0]] + s[1..][..n - 1];
      n
  }

  /** The number a string of decimal digits denotes. */
  function DigitsValue(ds: string): nat
    requires AllDigits(ds)
  {
    if ds == [] then 0
    else 10 * DigitsValue(ds[..|ds| - 1]) + DigitValue(ds[|ds| - 1])
  }

  function NatToString(n: nat): (s: string)
    ensures |s| >= 1 && AllDigits(s)
  {
    if n < 10 then [DigitChar(n)] else NatToString(n / 10) + [DigitChar(n % 10)]
  }

  /** PHP's decimal rendering of an integer (`strval`, string interpolation). */
  function IntToString(n: int): string
  {
    if n < 0 then "-" + NatToString(-n) else NatToString(n)
  }

  lemma {:induction false} DigitsValueOfNatToString(n: nat)
    ensures DigitsValue(NatToString(n)) == n
  {
    if n >= 10 {
      var s := NatToString(n);
      assert s[..|s| - 1] == NatToString(n / 10);
      DigitsValueOfNatToString(n / 10);
    }
  }

  lemma DigitRunOfDigits(s: string)
    requires AllDigits(s)
    ensures DigitRun(s) == |s|
  {
  }

  /** The digits of `s` after an optional leading sign. */
  function Unsigned(s: string): string
  {
    if |s| > 0 && (s[0] == '-' || s[0] == '+') then s[1..] else s
  }

  predicate Negative(s: string)
  {
    |s| > 0 && s[0] == '-'
  }

  /** `(int)"…"`: the optionally signed run of digits at the start of the string, 0 if none. */
  function LeadingInt(s: string): int
  {
    var t := Unsigned(s);
    var v: int := DigitsValue(t[..DigitRun(t)]);
    if Negative(s) then -v else v
  }

  /** Reading back what `IntToString` wrote gives the same integer. */
  lemma IntToStringRoundTrip(n: int)
    ensures LeadingInt(IntToString(n)) == n
  {
    var s := IntToString(n);
    var m: nat := if n < 0 then 0 - n else n;
    var t := Unsigned(s);
    assert t == NatToString(m);
    DigitRunOfDigits(t);
    assert t[..DigitRun(t)] == t;
    DigitsValueOfNatToString(m);
  }

  lemma IntToStringInjective(a: int, b: int)
    ensures IntToString(a) == IntToString(b) ==> a == b
  {
    IntToStringRoundTrip(a);
    IntToStringRoundTrip(b);
  }

  /**
   * `is_numeric` on a string, for the forms `[sign] digits [. digits]`
   * (a leading or trailing blank, an exponent and ".5" are not modelled).
   */
  predicate IsNumericString(s: string)
  {
    var t := Unsigned(s);
    var k := DigitRun(t);
    k > 0 && (k == |t| || (t[k] == '.' && DigitRun(t[k + 1..]) == |t| - k - 1))
  }

  lemma IntToStringIsNumeric(n: int)
    ensures IsNumericString(IntToString(n))
  {
    var t := Unsigned(IntToString(n));
    assert t == NatToString(if n < 0 then -n else n);
    DigitRunOfDigits(t);
  }

  function Pow10(k: nat): (p: nat)
    ensures p >= 1
  {
    if k == 0 then 1 else 10 * Pow10(k - 1)
  }

  /** `(float)"…"`: the optionally signed decimal at the start of the string, 0 if none. */
  function LeadingReal(s: string): real
  {
    var t := Unsigned(s);
    var k := DigitRun(t);
    var whole := DigitsValue(t[..k]) as real;
    var frac :=
      if k < |t| && t[k] == '.' then
        var f := t[k + 1..];
        DigitsValue(f[..DigitRun(f)]) as real / Pow10(DigitRun(f)) as real
      else 0.0;
    if Negative(s) then -(whole + frac) else whole + frac
  }

  // ------------------------------------------------------------- numbers

  /** Truncation toward zero, as PHP's `intval` applies to a float. */
  function Truncate(r: real): (t: int)
    ensures r >= 0.0 ==> t as real <= r < t as real + 1.0
    ensures r < 0.0 ==> t as real - 1.0 < r <= t as real
  {
    if r >= 0.0 then r.Floor else -((-r).Floor)
  }

  /** Round half away from zero to an integer, as PHP's `round`. */
  function RoundHalfAway(y: real): (k: int)
    ensures y - 0.5 <= k as real <= y + 0.5
    ensures y >= 0.0 ==> y - 0.5 < k as real
    ensures y < 0.0 ==> k as real < y + 0.5
  {
    if y >= 0.0 then (y + 0.5).Floor else -((-y + 0.5).Floor)
  }

  lemma RoundHalfAwayOfInt(k: int)
    ensures RoundHalfAway(k as real) == k
  {
  }

  /**
   * `round($x, 5)`, which gradelib's `grade_floatval` applies: the nearest
   * multiple of 0.00001, halves rounded away from zero.
   */
  function Round5(x: real): (r: real)
    ensures (r * 100000.0).Floor as real == r * 100000.0
    ensures x * 100000.0 - 0.5 <= r * 100000.0 <= x * 100000.0 + 0.5
    ensures x >= 0.0 ==> x * 100000.0 - 0.5 < r * 100000.0
    ensures x < 0.0 ==> r * 100000.0 < x * 100000.0 + 0.5
    ensures x - 0.000005 <= r <= x + 0.000005
  {
    RoundHalfAway(x * 100000.0) as real / 100000.0
  }

  /** A whole number is already on the five-decimal grid. */
  lemma Round5OfInt(n: int)
    ensures Round5(n as real) == n as real
  {
    assert (n as real) * 100000.0 == (n * 100000) as real;
    RoundHalfAwayOfInt(n * 100000);
  }

  lemma Round5Zero()
    ensures Round5(0.0) == 0.0
  {
    assert RoundHalfAway(0.0) == 0;
  }

  /** A value that rounds differently from zero is not zero. */
  lemma NonZeroWhenDifferentFromZero(x: real)
    requires FloatsDifferent(x, 0.0)
    ensures x != 0.0
  {
    Round5Zero();
  }

  /** Rounding twice is rounding once. */
  lemma Round5Idempotent(x: real)
    ensures Round5(Round5(x)) == Round5(x)
  {
    var k := RoundHalfAway(x * 100000.0);
    assert Round5(x) * 100000.0 == k as real;
    RoundHalfAwayOfInt(k);
  }

  /** `grade_floats_different`: the two values differ after rounding to five decimals. */
  predicate FloatsDifferent(a: real, b: real)
  {
    Round5(a) != Round5(b)
  }

  // --------------------------------------------------------- conversions

  /** `is_numeric` */
  predicate IsNumeric(v: Json)
  {
    match v
    case JInt(_) => true
    case JReal(_) => true
    case JStr(s) => IsNumericString(s)
    case _ => false
  }

  /** `intval` */
  function IntVal(v: Json): int
  {
    match v
    case JNull => 0
    case JBool(b) => if b then 1 else 0
    case JInt(i) => i
    case JReal(r) => Truncate(r)
    case JStr(s) => LeadingInt(s)
    case JArr(a) => if a == [] then 0 else 1
    case JObj(_) => 1
  }

  /** `(float)` as arithmetic and `round` apply it */
  function FloatVal(v: Json): real
  {
    match v
    case JNull => 0.0
    case JBool(b) => if b then 1.0 else 0.0
    case JInt(i) => i as real
    case JReal(r) => r
    case JStr(s) => LeadingReal(s)
    case JArr(a) => if a == [] then 0.0 else 1.0
    case JObj(_) => 1.0
  }

  /**
   * `strval` / string interpolation. A float is rendered only when it is
   * integral; arrays and objects are not modelled.
   */
  function StrVal(v: Json): string
  {
    match v
    case JNull => ""
    case JBool(b) => if b then "1" else ""
    case JInt(i) => IntToString(i)
    case JReal(r) => if r.Floor as real == r then IntToString(r.Floor) else ""
    case JStr(s) => s
    case JArr(_) => "Array"
    case JObj(_) => ""
  }

  lemma IntValOfIntString(n: int)
    ensures IntVal(JStr(IntToString(n))) == n && IsNumeric(JStr(IntToString(n)))
  {
    IntToStringRoundTrip(n);
    IntToStringIsNumeric(n);
  }

  /**
   * PHP 7's loose `v == w` against a string: two numeric strings and a number
   * compare as numbers (a non-numeric string counts as its leading number, so
   * 0 == "LineItem"), null equals only "", a boolean compares with the
   * string's truth value, arrays and objects never equal a string.
   */
  predicate LooseEqualsString(v: Json, w: string)
  {
    match v
    case JNull => w == ""
    case JBool(b) => b == !EmptyString(w)
    case JInt(i) => i as real == LeadingReal(w)
    case JReal(r) => r == LeadingReal(w)
    case JStr(s) =>
      if IsNumericString(s) && IsNumericString(w) then LeadingReal(s) == LeadingReal(w) else s == w
    case JArr(_) => false
    case JObj(_) => false
  }
}
