/** The Python values the scheduler handles: JSON documents as `json.load` returns them,
    Python truthiness, and the `int()`, `float()` and `str()` conversions the code applies
    to them. A raised exception is a `Failure` carrying its Python class. */
module PyValues {

  datatype Option<+T> = None | Some(value: T)

  datatype Result<+T, +E> = Success(value: T) | Failure(error: E)

  /** The exception classes the modelled code can raise. */
  datatype Exception = TypeError | ValueError | AttributeError | ZeroDivisionError

  /** A value produced by `json.load`: null, bool, int, float, str, list or dict. */
  datatype Json =
    | JNull
    | JBool(b: bool)
    | JInt(i: int)
    | JReal(r: real)
    | JStr(s: string)
    | JArray(items: seq<Json>)
    | JObject(fields: map<string, Json>)

  /** Python truthiness: None, False, 0, 0.0, "" and empty containers are false. */
  predicate Truthy(v: Json) {
    match v
    case JNull => false
    case JBool(b) => b
    case JInt(i) => i != 0
    case JReal(r) => r != 0.0
    case JStr(s) => s != ""
    case JArray(items) => items != []
    case JObject(fields) => fields != map[]
  }

  /** The falsy values are exactly None, False, zero and the empty string, list and dict. */
  lemma FalsyValues(v: Json)
    ensures !Truthy(v) <==> v in {JNull, JBool(false), JInt(0), JReal(0.0), JStr(""), JArray([]), JObject(map[])}
  {
  }

  /** `d.get(key, default)` on a dict. */
  function Get(d: map<string, Json>, key: string, default: Json): Json {
    if key in d then d[key] else default
  }

  predicate IsDigit(c: char) {
    '0' <= c <= '9'
  }

  function DigitChar(d: nat): (c: char)
    requires d < 10
    ensures IsDigit(c) && (c as int) - ('0' as int) == d
  {
    (d + '0' as int) as char
  }

  /** Decimal rendering of a natural number, as `str(n)` prints it. */
  function NatToDecimal(n: nat): (s: string)
    ensures s != [] && IsDigit(s[0]) && IsDigit(s[|s| - 1])
    ensures s[0] == '0' ==> n == 0
  {
    if n < 10 then [DigitChar(n)] else NatToDecimal(n / 10) + [DigitChar(n % 10)]
  }

  /** The number a string of ASCII digits denotes, or None when some character is not a digit. */
  function DecimalValue(s: string): (r: Option<nat>)
    ensures s != [] && r.Some? ==> IsDigit(s[|s| - 1])
  {
    if s == [] then Some(0)
    else
      var c := s[|s| - 1];
      match DecimalValue(s[..|s| - 1])
      case None => None
      case Some(n) => if IsDigit(c) then Some(n * 10 + ((c as int) - ('0' as int))) else None
  }

  /** Reading back a rendered number gives the number. */
  lemma {:induction false} DecimalRoundTrip(n: nat)
    ensures DecimalValue(NatToDecimal(n)) == Some(n)
  {
    var s := NatToDecimal(n);
    if n < 10 {
      assert s[..|s| - 1] == [];
    } else {
      assert s[..|s| - 1] == NatToDecimal(n / 10);
      DecimalRoundTrip(n / 10);
    }
  }

  /** Distinct numbers render to distinct strings. */
  lemma NatToDecimalInjective(m: nat, n: nat)
    requires m != n
    ensures NatToDecimal(m) != NatToDecimal(n)
  {
    DecimalRoundTrip(m);
    DecimalRoundTrip(n);
  }

  /** `str(i)` for a Python int. */
  function IntToString(i: int): (s: string)
  {
    if i < 0 then "-" + NatToDecimal(-i) else NatToDecimal(i)
  }

  /** `int(s)` for a string: an optional sign followed by at least one ASCII digit. */
  function ParseInt(s: string): (r: Option<int>)
    ensures r.Some? ==> s != []
  {
    if s == [] then None
    else
      var signed := s[0] == '-' || s[0] == '+';
      var digits := if signed then s[1..] else s;
      if digits == [] then None
      else
        match DecimalValue(digits)
        case None => None
        case Some(n) =>
          var v: int := n;
          Some(if s[0] == '-' then -v else v)
  }

  /** `int(str(i)) == i`. */
  lemma IntStringRoundTrip(i: int)
    ensures ParseInt(IntToString(i)) == Some(i)
  {
    if i < 0 {
      NegativeRoundTrip(-i);
    } else {
      var s := NatToDecimal(i);
      assert IsDigit(s[0]);
      DecimalRoundTrip(i);
    }
  }

  lemma NegativeRoundTrip(n: nat)
    ensures ParseInt("-" + NatToDecimal(n)) == Some(0 - n)
  {
    var s := "-" + NatToDecimal(n);
    assert s[0] == '-' && s[1..] == NatToDecimal(n);
    DecimalRoundTrip(n);
  }

  /** `int(x)` on a float: truncation toward zero. */
  function Truncate(x: real): (t: int)
    ensures 0.0 <= x ==> 0 <= t && t as real <= x < t as real + 1.0
    ensures x < 0.0 ==> t <= 0 && t as real - 1.0 < x <= t as real
  {
    if 0.0 <= x then x.Floor else -((-x).Floor)
  }

  /** `int(v)`: bools and floats convert, strings are parsed, anything else is a TypeError. */
  function PyInt(v: Json): (r: Result<int, Exception>)
    ensures r.Failure? <==> (v.JStr? && ParseInt(v.s).None?) || v.JNull? || v.JArray? || v.JObject?
    ensures r.Failure? ==> r.error == (if v.JStr? then ValueError else TypeError)
    ensures v.JInt? ==> r == Success(v.i)
  {
    match v
    case JNull => Failure(TypeError)
    case JBool(b) => Success(if b then 1 else 0)
    case JInt(i) => Success(i)
    case JReal(x) => Success(Truncate(x))
    case JStr(s) => (match ParseInt(s) case Some(i) => Success(i) case None => Failure(ValueError))
    case JArray(_) => Failure(TypeError)
    case JObject(_) => Failure(TypeError)
  }

  /** `float(v)`: numbers and bools convert, strings are parsed, anything else is a TypeError. */
  function PyFloat(v: Json): (r: Result<real, Exception>)
    ensures r.Failure? <==> (v.JStr? && ParseInt(v.s).None?) || v.JNull? || v.JArray? || v.JObject?
    ensures r.Failure? ==> r.error == (if v.JStr? then ValueError else TypeError)
    ensures v.JReal? ==> r == Success(v.r)
    ensures v.JInt? ==> r == Success(v.i as real)
  {
    match v
    case JNull => Failure(TypeError)
    case JBool(b) => Success(if b then 1.0 else 0.0)
    case JInt(i) => Success(i as real)
    case JReal(x) => Success(x)
    case JStr(s) => (match ParseInt(s) case Some(i) => Success(i as real) case None => Failure(ValueError))
    case JArray(_) => Failure(TypeError)
    case JObject(_) => Failure(TypeError)
  }

  /** `str(v)`. Floats, lists and dicts are rendered by a fixed marker, not by Python's repr. */
  function PyStr(v: Json): (s: string)
    ensures Truthy(v) ==> s != []
    ensures v.JInt? ==> ParseInt(s) == Some(v.i)
    ensures v.JStr? ==> s == v.s
  {
    match v
    case JNull => "None"
    case JBool(b) => if b then "True" else "False"
    case JInt(i) => IntStringRoundTrip(i); IntToString(i)
    case JReal(_) => "<float>"
    case JStr(s) => s
    case JArray(_) => "<list>"
    case JObject(_) => "<dict>"
  }
}
