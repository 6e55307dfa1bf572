/**
  Decoded JSON values as the Python code sees them after `json.load`, with
  Python's truthiness, `dict.get`, `isinstance(x, (int, float))` and the
  `int()` / `float()` conversions the core applies to them.
*/
module Json {
  import opened Wrappers
  import opened PyStr

  datatype Json =
    | JNull
    | JBool(b: bool)
    | JInt(i: int)
    | JReal(r: real)
    | JStr(s: string)
    | JArr(items: seq<Json>)
    | JObj(fields: map<string, Json>)

  /** Python's `bool(x)`. */
  predicate Truthy(j: Json) {
    match j
    case JNull => false
    case JBool(b) => b
    case JInt(i) => i != 0
    case JReal(r) => r != 0.0
    case JStr(s) => s != []
    case JArr(xs) => xs != []
    case JObj(m) => m != map[]
  }

  /** `d.get(k)`: the value under `k`, or `None` when the key is absent. */
  function Get(d: map<string, Json>, k: string): (v: Json)
    ensures k !in d ==> v == JNull
  {
    if k in d then d[k] else JNull
  }

  /** `d.get(k, default)`: an explicit `null` under `k` is returned, not the default. */
  function GetOr(d: map<string, Json>, k: string, default: Json): (v: Json)
    ensures k in d ==> v == d[k]
    ensures k !in d ==> v == default
  {
    if k in d then d[k] else default
  }

  /** `isinstance(x, (int, float))`, with its value; `bool` is a subclass of `int` in Python. */
  function AsNumber(j: Json): (r: Option<real>)
    ensures r.Some? <==> (j.JBool? || j.JInt? || j.JReal?)
  {
    match j
    case JBool(b) => Some(if b then 1.0 else 0.0)
    case JInt(i) => Some(i as real)
    case JReal(x) => Some(x)
    case _ => None
  }

  /** Truncation toward zero, as `int(x)` does for a float. */
  function TruncReal(x: real): (n: int)
    ensures x >= 0.0 ==> n as real <= x < n as real + 1.0
    ensures x < 0.0 ==> n as real - 1.0 < x <= n as real
  {
    if x >= 0.0 then x.Floor else -((-x).Floor)
  }

  /** An optional sign followed by one or more decimal digits. */
  function ParseIntLiteral(s: string): (r: Option<int>)
    ensures AllDigits(s) && s != [] ==> r == Some(DigitsValue(s))
  {
    if s != [] && (s[0] == '+' || s[0] == '-') then
      var t := s[1..];
      if t != [] && AllDigits(t) then Some(if s[0] == '-' then 0 - DigitsValue(t) as int else DigitsValue(t))
      else None
    else if s != [] && AllDigits(s) then Some(DigitsValue(s))
    else None
  }

  /**
    `float()` of a stripped string: an optional sign, a mantissa and an
    optional exponent `e` or `E` with its own optional sign.
  */
  function ParseDecimalLiteral(s: string): (r: Option<real>)
  {
    var neg := s != [] && s[0] == '-';
    var t := if s != [] && (s[0] == '+' || s[0] == '-') then s[1..] else s;
    match IndexOf(Lower(t), 'e')
    case None =>
      (match ParseMantissa(t) case Some(m) => Some(Signed(neg, m)) case None => None)
    case Some(k) =>
      match (ParseMantissa(t[..k]), ParseIntLiteral(t[k + 1..]))
      case (Some(m), Some(e)) => Some(Signed(neg, Scale10(m, e)))
      case _ => None
  }

  /** Digits, an optional `.` and more digits, with at least one digit. */
  function ParseMantissa(t: string): (r: Option<real>)
    ensures r.Some? ==> r.value >= 0.0
  {
    match IndexOf(t, '.')
    case None =>
      if t != [] && AllDigits(t) then Some(DigitsValue(t) as real) else None
    case Some(k) =>
      var whole, frac := t[..k], t[k + 1..];
      if AllDigits(whole) && AllDigits(frac) && |whole| + |frac| > 0 then
        Some(DecimalValue(whole, frac))
      else None
  }

  /** The value of `whole.frac` written in decimal digits. */
  function DecimalValue(whole: string, frac: string): (x: real)
    requires AllDigits(whole) && AllDigits(frac)
    ensures x >= 0.0
  {
    DigitsValue(whole) as real + DigitsValue(frac) as real / Pow10(|frac|) as real
  }

  /** `m * 10 ** e`; a negative exponent divides by the power of ten. */
  function Scale10(m: real, e: int): real {
    if e >= 0 then m * Pow10(e) as real else m / Pow10(-e) as real
  }

  function Signed(neg: bool, x: real): real { if neg then -x else x }

  function Pow10(n: nat): (p: nat)
    ensures p >= 1
  {
    if n == 0 then 1 else 10 * Pow10(n - 1)
  }

  /** Python's `int(x)` on a decoded JSON value; `None` stands for the raised exception. */
  function PyInt(j: Json): (r: Option<int>)
    ensures j.JInt? ==> r == Some(j.i)
    ensures j.JNull? || j.JArr? || j.JObj? ==> r.None?
  {
    match j
    case JBool(b) => Some(if b then 1 else 0)
    case JInt(i) => Some(i)
    case JReal(x) => Some(TruncReal(x))
    case JStr(s) => ParseIntLiteral(Strip(s))
    case _ => None
  }

  /** Python's `float(x)` on a decoded JSON value; `None` stands for the raised exception. */
  function PyFloat(j: Json): (r: Option<real>)
    ensures j.JReal? ==> r == Some(j.r)
    ensures j.JInt? ==> r == Some(j.i as real)
    ensures j.JNull? || j.JArr? || j.JObj? ==> r.None?
  {
    match j
    case JBool(b) => Some(if b then 1.0 else 0.0)
    case JInt(i) => Some(i as real)
    case JReal(x) => Some(x)
    case JStr(s) => ParseDecimalLiteral(Strip(s))
    case _ => None
  }

  /** Digits, `.` and an exponent are none of them whitespace, and lowering keeps them. */
  predicate NumeralChar(c: char) { IsDigit(c) || c == '.' || c == 'e' || c == '-' }

  lemma NumeralLiteral(s: string)
    requires s != [] && forall i :: 0 <= i < |s| ==> NumeralChar(s[i])
    ensures Strip(s) == s && Lower(s) == s
  {
    StripNoSurroundingSpace(s);
  }

  /** A string of digits holds neither `.` nor `e`, and its mantissa is its value. */
  lemma MantissaOfDigits(d: string)
    requires d != [] && AllDigits(d)
    ensures IndexOf(d, '.') == None && IndexOf(d, 'e') == None
    ensures ParseMantissa(d) == Some(DigitsValue(d) as real)
  {
    assert forall i :: 0 <= i < |d| ==> d[i] != '.' && d[i] != 'e';
  }

  /** The first `c` in `d + [c] + y`, when `d` holds no `c`, is at `|d|`. */
  lemma IndexAfterDigits(d: string, c: char, y: string)
    requires AllDigits(d) && !IsDigit(c)
    ensures IndexOf(d + [c] + y, c) == Some(|d|)
  {
    var s := d + [c] + y;
    assert s[|d|] == c;
    assert forall i :: 0 <= i < |d| ==> s[i] == d[i] && s[i] != c;
  }

  /** `float()` of an unsigned literal without whitespace or capitals, read in two stages. */
  lemma UnsignedLiteral(t: string)
    requires t != [] && (forall i :: 0 <= i < |t| ==> NumeralChar(t[i])) && IsDigit(t[0])
    ensures PyFloat(JStr(t)) == match IndexOf(t, 'e')
      case None => ParseMantissa(t)
      case Some(k) =>
        match (ParseMantissa(t[..k]), ParseIntLiteral(t[k + 1..]))
        case (Some(m), Some(e)) => Some(Scale10(m, e))
        case _ => None
  {
    NumeralLiteral(t);
    assert PyFloat(JStr(t)) == ParseDecimalLiteral(t);
    assert t[0] != '+' && t[0] != '-';
    match IndexOf(t, 'e')
    case None => {
      match ParseMantissa(t) {
        case None =>
        case Some(m) => assert Signed(false, m) == m;
      }
    }
    case Some(k) => {
      match (ParseMantissa(t[..k]), ParseIntLiteral(t[k + 1..])) {
        case (Some(m), Some(e)) => assert Signed(false, Scale10(m, e)) == Scale10(m, e);
        case _ =>
      }
    }
  }

  /** `float()` of a string of digits is their value. */
  lemma FloatOfDigits(d: string)
    requires d != [] && AllDigits(d)
    ensures PyFloat(JStr(d)) == Some(DigitsValue(d) as real)
  {
    assert forall i :: 0 <= i < |d| ==> NumeralChar(d[i]);
    NumeralLiteral(d);
    MantissaOfDigits(d);
    assert !(d[0] == '+' || d[0] == '-');
  }

  /** The mantissa of digits, `.` and digits is their decimal value. */
  lemma MantissaOfFraction(d: string, f: string)
    requires AllDigits(d) && AllDigits(f) && |d| + |f| > 0
    ensures ParseMantissa(d + ['.'] + f) == Some(DecimalValue(d, f))
  {
    var s := d + ['.'] + f;
    IndexAfterDigits(d, '.', f);
    assert s[..|d|] == d && s[|d| + 1..] == f;
  }

  /** `float()` of digits with a fraction is their decimal value. */
  lemma FloatOfFraction(d: string, f: string)
    requires d != [] && AllDigits(d) && AllDigits(f)
    ensures PyFloat(JStr(d + "." + f)) == Some(DecimalValue(d, f))
  {
    var s := d + ['.'] + f;
    assert s == d + "." + f;
    assert forall i :: 0 <= i < |d| ==> s[i] == d[i];
    assert s[|d|] == '.';
    assert forall i :: |d| < i < |s| ==> s[i] == f[i - |d| - 1];
    assert forall i :: 0 <= i < |s| ==> NumeralChar(s[i]) && s[i] != 'e';
    UnsignedLiteral(s);
    assert IndexOf(s, 'e') == None;
    MantissaOfFraction(d, f);
  }

  /** `d + "e-" + x` is a numeral whose first `e` follows the digits `d`. */
  lemma ExponentSplit(d: string, x: string)
    requires d != [] && AllDigits(d) && AllDigits(x)
    ensures var s := d + "e-" + x;
      && (forall i :: 0 <= i < |s| ==> NumeralChar(s[i])) && IsDigit(s[0])
      && IndexOf(s, 'e') == Some(|d|) && s[..|d|] == d && s[|d| + 1..] == "-" + x
  {
    var y := "-" + x;
    var s := d + ['e'] + y;
    assert s == d + "e-" + x;
    assert forall i :: 0 <= i < |d| ==> s[i] == d[i];
    assert s[|d|] == 'e' && s[|d| + 1] == '-';
    assert forall i :: |d| + 1 < i < |s| ==> s[i] == x[i - |d| - 2];
    IndexAfterDigits(d, 'e', y);
    assert s[..|d|] == d && s[|d| + 1..] == y;
  }

  /**
    `float()` of digits with a negative exponent, as `str()` writes small
    floats such as `1e-05`: the digits' value divided by ten to the
    exponent's value.
  */
  lemma FloatOfExponent(d: string, x: string)
    requires d != [] && AllDigits(d) && x != [] && AllDigits(x)
    ensures PyFloat(JStr(d + "e-" + x)) == Some(Scale10(DigitsValue(d) as real, 0 - DigitsValue(x)))
  {
    ExponentSplit(d, x);
    UnsignedLiteral(d + "e-" + x);
    MantissaOfDigits(d);
    ExponentOfDigits(x);
  }

  /** A negative exponent `-x` reads as minus the digits' value. */
  lemma ExponentOfDigits(x: string)
    requires x != [] && AllDigits(x)
    ensures ParseIntLiteral("-" + x) == Some(0 - DigitsValue(x) as int)
  {
    assert ("-" + x)[0] == '-' && ("-" + x)[1..] == x;
  }

  /** Every number `isinstance` accepts also converts with `float()`, to the same value. */
  lemma NumberConvertsToFloat(j: Json)
    requires AsNumber(j).Some?
    ensures PyFloat(j) == AsNumber(j)
  {
  }

  /** A JSON array of strings, as `json.dumps` writes a Python `list[str]`. */
  function StrArray(xs: seq<string>): (j: Json)
    ensures j.JArr? && |j.items| == |xs|
    ensures forall k :: 0 <= k < |xs| ==> j.items[k] == JStr(xs[k])
  {
    JArr(seq(|xs|, k requires 0 <= k < |xs| => JStr(xs[k])))
  }
}
