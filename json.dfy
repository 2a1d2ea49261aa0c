/** Decoded JSON values as the client sees them (Python's None, bool, int,
    float, str, list and dict), with the few Python operations on them that
    the client relies on: truthiness, `int(...)`, equality with an int, and
    the decimal text of an int inside an f-string. */
module Json {
  import opened Exceptions

  datatype Value =
    | JNull
    | JBool(b: bool)
    | JInt(i: int)
    | JFloat(r: real)
    | JStr(s: string)
    | JList(items: seq<Value>)
    | JObject(fields: map<string, Value>)

  /** A dict decoded from a JSON object: what every list RPC returns, one per entry. */
  type Record = map<string, Value>

  /** Python's `bool(v)`: None, False, zero, and empty strings, lists and
      dicts are false; everything else is true. */
  predicate Truthy(v: Value) {
    match v
    case JNull => false
    case JBool(b) => b
    case JInt(i) => i != 0
    case JFloat(r) => r != 0.0
    case JStr(s) => s != ""
    case JList(items) => items != []
    case JObject(fields) => fields != map[]
  }

  /** The int that `v` compares equal to under Python's `==` (and hence under
      set membership), if any: `True == 1`, `False == 0` and `2.0 == 2`. */
  function IntView(v: Value): (n: Option<int>)
    ensures v.JInt? ==> n == Some(v.i)
    ensures n.Some? ==> v.JInt? || v.JBool? || v.JFloat?
  {
    match v
    case JInt(i) => Some(i)
    case JBool(b) => Some(if b then 1 else 0)
    case JFloat(r) => if r.Floor as real == r then Some(r.Floor) else None
    case _ => None
  }

  /** Truncation toward zero, as Python's `int(x)` does for a float. */
  function Truncate(r: real): (n: int)
    ensures r >= 0.0 ==> n as real <= r < n as real + 1.0
    ensures r < 0.0 ==> n as real - 1.0 < r <= n as real
  {
    if r >= 0.0 then r.Floor else -((-r).Floor)
  }

  predicate IsDigit(c: char) { '0' <= c <= '9' }

  predicate AllDigits(s: string) { forall i :: 0 <= i < |s| ==> IsDigit(s[i]) }

  /** The decimal digits of `n`, most significant first, without leading zeros. */
  function Digits(n: nat): (s: string)
    ensures |s| > 0 && AllDigits(s)
    ensures n >= 10 ==> s[0] != '0'
    decreases n
  {
    if n < 10 then [('0' as int + n) as char]
    else Digits(n / 10) + [('0' as int + n % 10) as char]
  }

  /** The value of a non-empty string of decimal digits. */
  function DigitsValue(s: string): nat
    requires |s| > 0 && AllDigits(s)
    decreases |s|
  {
    var last := s[|s| - 1] as int - '0' as int;
    if |s| == 1 then last else DigitsValue(s[..|s| - 1]) * 10 + last
  }

  /** `str(n)` for an int, as an f-string writes it. */
  function Decimal(n: int): (s: string)
    ensures |s| > 0
    ensures n < 0 <==> s[0] == '-'
  {
    if n < 0 then "-" + Digits(-n) else Digits(n)
  }

  /** `int(s)` for a string of an optional sign followed by decimal digits;
      None where Python raises ValueError. */
  function ParseInt(s: string): Option<int> {
    if |s| > 1 && s[0] == '-' && AllDigits(s[1..]) then Some(-(DigitsValue(s[1..]) as int))
    else if |s| > 1 && s[0] == '+' && AllDigits(s[1..]) then Some(DigitsValue(s[1..]))
    else if |s| > 0 && AllDigits(s) then Some(DigitsValue(s))
    else None
  }

  /** Python's `int(v)` on a decoded JSON value. */
  function ToInt(v: Value): (o: Outcome<int>)
    ensures v.JInt? || v.JBool? ==> o.Ok? && IntView(v) == Some(o.value)
    ensures v.JFloat? ==> o.Ok? && (IntView(v).Some? ==> IntView(v) == Some(o.value))
    ensures v.JStr? ==> (o.Ok? <==> ParseInt(v.s).Some?) && (o.Ok? ==> ParseInt(v.s) == Some(o.value))
    ensures v.JStr? && !o.Ok? ==> o == Fault(ValueError)
    ensures v.JNull? || v.JList? || v.JObject? ==> o == Fault(TypeError)
    ensures !o.Raised?
  {
    match v
    case JInt(i) => Ok(i)
    case JBool(b) => Ok(if b then 1 else 0)
    case JFloat(r) => Ok(Truncate(r))
    case JStr(s) => if ParseInt(s).Some? then Ok(ParseInt(s).value) else Fault(ValueError)
    case _ => Fault(TypeError)
  }

  lemma {:induction false} DigitsValueOfDigits(n: nat)
    ensures DigitsValue(Digits(n)) == n
    decreases n
  {
    if n >= 10 {
      var s := Digits(n);
      assert s[..|s| - 1] == Digits(n / 10);
      DigitsValueOfDigits(n / 10);
    }
  }

  /** Reading back the decimal text of an int gives the int: the text names
      the number unambiguously. */
  lemma {:induction false} DecimalRoundTrip(n: int)
    ensures ParseInt(Decimal(n)) == Some(n)
  {
    if n < 0 {
      assert Decimal(n)[1..] == Digits(-n);
      DigitsValueOfDigits(-n);
    } else {
      DigitsValueOfDigits(n);
    }
  }

  /** Two ints with the same decimal text are the same int. */
  lemma {:induction false} DecimalInjective(a: int, b: int)
    requires Decimal(a) == Decimal(b)
    ensures a == b
  {
    DecimalRoundTrip(a);
    DecimalRoundTrip(b);
  }

  /** `int(str(n)) == n` through the JSON value layer as well. */
  lemma {:induction false} ToIntOfDecimalString(n: int)
    ensures ToInt(JStr(Decimal(n))) == Ok(n)
  {
    DecimalRoundTrip(n);
  }
}
