/**
 * JSON values of request bodies and the JavaScript conversions the handlers
 * apply to them: truthiness (`!x`, `x || d`), `Number(x)` as used by `<` and
 * `>`, `parseInt(x)` and `parseFloat(x)`. Numbers are decimal reals; `None`
 * stands for NaN.
 */
module JsValue {
  import opened Wrappers
  import opened JsText

  /**
   * A member of a JSON request body: the scalars, and arrays of strings. JSON
   * objects and arrays holding other values are not part of this model.
   */
  datatype Value =
    | Undefined
    | Null
    | Bool(b: bool)
    | Num(n: real)
    | Str(s: string)
    | StrArray(items: seq<string>)

  /** JavaScript truthiness: `false`, `0`, `""`, `null` and `undefined` are falsy, every array is truthy. */
  predicate Truthy(v: Value) {
    match v
    case Undefined => false
    case Null => false
    case Bool(b) => b
    case Num(n) => n != 0.0
    case Str(s) => s != ""
    case StrArray(_) => true
  }

  function Pow10(k: nat): (r: nat)
    ensures r >= 1
  {
    if k == 0 then 1 else 10 * Pow10(k - 1)
  }

  /** 10 raised to an integer power. */
  function Scale(e: int): real {
    if e >= 0 then Pow10(e) as real else 1.0 / (Pow10(-e) as real)
  }

  /** A decimal literal read from the start of a string: its value and how many characters it takes. */
  datatype Scan = Scan(value: real, length: nat)

  /** An exponent part `e`, an optional sign and digits: the exponent and its length. */
  function ScanExponent(s: string): (r: Option<(int, nat)>)
    ensures r.Some? ==> r.value.1 <= |s|
  {
    if |s| == 0 || (s[0] != 'e' && s[0] != 'E') then None
    else
      var signLen := if |s| > 1 && (s[1] == '+' || s[1] == '-') then 1 else 0;
      var digits := s[1 + signLen..];
      var c := DigitRun(digits);
      if c == 0 then None
      else
        var m := DigitsValue(digits[..c]);
        var e: int := if signLen == 1 && s[1] == '-' then -(m as int) else m;
        Some((e, 1 + signLen + c))
  }

  /**
   * The longest unsigned decimal literal that starts `s`: digits, an optional
   * point and fraction digits (at least one digit in all), an optional exponent.
   */
  function ScanUnsigned(s: string): (r: Option<Scan>)
    ensures r.Some? ==> 0 < r.value.length <= |s|
  {
    var a := DigitRun(s);
    var hasDot := a < |s| && s[a] == '.';
    var b := if hasDot then DigitRun(s[a + 1..]) else 0;
    if a + b == 0 then None
    else
      var mantissaEnd := if hasDot then a + 1 + b else a;
      var whole := DigitsValue(s[..a]) as real;
      var fraction := if hasDot then DigitsValue(s[a + 1..][..b]) as real / Pow10(b) as real else 0.0;
      match ScanExponent(s[mantissaEnd..])
      case None => Some(Scan(whole + fraction, mantissaEnd))
      case Some((e, n)) => Some(Scan((whole + fraction) * Scale(e), mantissaEnd + n))
  }

  /** A decimal literal with an optional sign. */
  function ScanSigned(s: string): (r: Option<Scan>)
    ensures r.Some? ==> 0 < r.value.length <= |s|
  {
    var signLen := if |s| > 0 && (s[0] == '+' || s[0] == '-') then 1 else 0;
    match ScanUnsigned(s[signLen..])
    case None => None
    case Some(sc) =>
      Some(Scan(if signLen == 1 && s[0] == '-' then -sc.value else sc.value, signLen + sc.length))
  }

  /**
   * `Number(s)`: the trimmed text is empty (0), "0x" or "0X" and hexadecimal
   * digits only, or one whole decimal literal.
   */
  function StringToNumber(s: string): Option<real> {
    var t := Trim(s);
    if t == "" then Some(0.0)
    else if |t| > 2 && t[0] == '0' && (t[1] == 'x' || t[1] == 'X') then
      var n := HexRun(t[2..]);
      if n == |t| - 2 then Some(HexDigitsValue(t[2..][..n]) as real) else None
    else
      match ScanSigned(t)
      case Some(sc) => if sc.length == |t| then Some(sc.value) else None
      case None => None
  }

  /** `parseFloat(s)`: the longest decimal literal after leading white space. */
  function ParseFloat(s: string): Option<real> {
    match ScanSigned(TrimStart(s))
    case Some(sc) => Some(sc.value)
    case None => None
  }

  /** Truncation toward zero, which is what `parseInt(String(x))` does to a plain decimal number. */
  function Trunc(r: real): int {
    if r >= 0.0 then r.Floor else -((-r).Floor)
  }

  /** `Number(v)`, the conversion behind `v < 1`: an array converts through its comma-joined text. */
  function ToNumber(v: Value): Option<real> {
    match v
    case Undefined => None
    case Null => Some(0.0)
    case Bool(b) => Some(if b then 1.0 else 0.0)
    case Num(n) => Some(n)
    case Str(s) => StringToNumber(s)
    case StrArray(xs) => StringToNumber(Join(xs, ","))
  }

  /** `parseInt(v)`, which reads `String(v)`; "undefined", "null", "true" and "false" give NaN. */
  function ParseIntOf(v: Value): Option<int> {
    match v
    case Num(n) => Some(Trunc(n))
    case Str(s) => ParseInt(s)
    case StrArray(xs) => ParseInt(Join(xs, ","))
    case _ => None
  }

  /** `parseFloat(v)`, which reads `String(v)`. */
  function ParseFloatOf(v: Value): Option<real> {
    match v
    case Num(n) => Some(n)
    case Str(s) => ParseFloat(s)
    case StrArray(xs) => ParseFloat(Join(xs, ","))
    case _ => None
  }

  /** The text value of a string member; other JSON types have none. */
  function StringOf(v: Value): Option<string> {
    if v.Str? then Some(v.s) else None
  }

  /** What a `catch` receives: an `Error` with its message, or any other thrown value. */
  datatype Thrown = ErrorObject(message: string) | OtherThrown

  /** `details`: the message of an `Error`, else "Unknown error occurred". */
  function Details(t: Thrown): (r: string)
    ensures t.ErrorObject? ==> r == t.message
    ensures t.OtherThrown? ==> r == "Unknown error occurred"
  {
    if t.ErrorObject? then t.message else "Unknown error occurred"
  }
}
