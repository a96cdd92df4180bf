/**
 * Values shared by the filter builders and the resource clients: Python's
 * optional arguments and truthiness, the values stored in query parameters
 * and request bodies, the exceptions the wrapper raises, and the decimal
 * rendering an f-string gives an integer.
 */
module Values {

  /** A Python argument that may be `None`. */
  datatype Option<T> = None | Some(value: T)

  /** A query-parameter value: the builders store strings and integers. */
  datatype Value = Str(s: string) | Int(i: int)

  /** Python truthiness of a stored value: a non-empty string, a non-zero integer. */
  predicate Truthy(v: Value)
  {
    match v
    case Str(s) => s != ""
    case Int(i) => i != 0
  }

  /** Truthiness of an optional argument: `None` is falsy. */
  predicate TruthyArg(x: Option<Value>)
  {
    x.Some? && Truthy(x.value)
  }

  /** An `Optional[str]` argument seen as an optional query value. */
  function StrArg(x: Option<string>): Option<Value>
  {
    match x
    case None => None
    case Some(s) => Some(Str(s))
  }

  /** An `int` argument (possibly `None`) seen as an optional query value. */
  function IntArg(x: Option<int>): Option<Value>
  {
    match x
    case None => None
    case Some(n) => Some(Int(n))
  }

  /**
   * A decoded JSON value of an order.  Floats, lists and nested objects are
   * not given structure: `JOther` carries the text Python's `str()` prints
   * for such a value.
   */
  datatype Json = JNull | JBool(b: bool) | JInt(i: int) | JStr(s: string) | JOther(rendered: string)

  /** A JSON object: an order representation or a POST body. */
  type Body = map<string, Json>

  /**
   * What an f-string interpolation `{v}` prints for a decoded JSON value:
   * Python's spellings of `None` and the booleans, a string as it is, and an
   * integer as decimal text that reads back to the same number.
   */
  function PyStr(v: Json): (s: string)
    ensures v.JNull? ==> s == "None"
    ensures v.JBool? ==> s == (if v.b then "True" else "False")
    ensures v.JStr? ==> s == v.s
    ensures v.JInt? && v.i >= 0 ==> (forall k :: 0 <= k < |s| ==> IsDigit(s[k])) && ParseNat(s) == v.i
    ensures v.JInt? && v.i < 0 ==>
      |s| >= 2 && s[0] == '-' && (forall k :: 1 <= k < |s| ==> IsDigit(s[k])) && ParseNat(s[1..]) == -v.i
  {
    match v
    case JNull => "None"
    case JBool(b) => if b then "True" else "False"
    case JInt(i) =>
      ParseNatDigits(if i < 0 then -i else i);
      assert i < 0 ==> Decimal(i)[1..] == NatDigits(-i);
      Decimal(i)
    case JStr(s) => s
    case JOther(r) => r
  }

  /** The exceptions the wrapper raises itself. */
  datatype Error =
    | AssertionError(message: string)
    | KeyError(key: string)
    | UnboundLocalError(name: string)

  /** The end of a call that returns nothing of interest: it finished, or it raised. */
  datatype Outcome = Done | Raised(error: Error)

  /** The end of a call that computes a value, or raises. */
  datatype Result<T> = Ok(value: T) | Fail(error: Error)

  predicate IsDigit(c: char)
  {
    '0' <= c <= '9'
  }

  function DigitChar(d: int): (c: char)
    requires 0 <= d < 10
    ensures IsDigit(c) && c as int - '0' as int == d
  {
    "0123456789"[d]
  }

  /** The digits of a natural number, most significant first, as `str(n)` prints them. */
  function NatDigits(n: nat): (s: string)
    ensures |s| >= 1
    ensures forall i :: 0 <= i < |s| ==> IsDigit(s[i])
    ensures n < 10 <==> |s| == 1
  {
    if n < 10 then [DigitChar(n)] else NatDigits(n / 10) + [DigitChar(n % 10)]
  }

  /** `str(n)` for an integer: an optional minus sign, then the digits. */
  function Decimal(n: int): string
  {
    if n < 0 then "-" + NatDigits(-n) else NatDigits(n)
  }

  /** The number a string of digits denotes: the inverse of `NatDigits`. */
  function ParseNat(s: string): nat
    requires forall i :: 0 <= i < |s| ==> IsDigit(s[i])
  {
    if s == [] then 0
    else
      assert IsDigit(s[|s| - 1]);
      ParseNat(s[..|s| - 1]) * 10 + (s[|s| - 1] as int - '0' as int)
  }

  lemma {:induction false} ParseNatDigits(n: nat)
    ensures ParseNat(NatDigits(n)) == n
  {
    if n >= 10 {
      var s := NatDigits(n);
      assert s[..|s| - 1] == NatDigits(n / 10);
      ParseNatDigits(n / 10);
    }
  }

  /** Two integers print alike only if they are equal. */
  lemma DecimalInjective(a: int, b: int)
    ensures Decimal(a) == Decimal(b) ==> a == b
  {
    if Decimal(a) == Decimal(b) {
      var da, db := NatDigits(if a < 0 then -a else a), NatDigits(if b < 0 then -b else b);
      assert IsDigit(da[0]) && IsDigit(db[0]);
      assert Decimal(a)[0] == '-' <==> a < 0;
      assert Decimal(b)[0] == '-' <==> b < 0;
      assert (a < 0) == (b < 0);
      if a < 0 {
        assert da == Decimal(a)[1..] == Decimal(b)[1..] == db;
      }
      ParseNatDigits(if a < 0 then -a else a);
      ParseNatDigits(if b < 0 then -b else b);
    }
  }

  /** `str(n)` consists of a minus sign and digits only, and begins with a minus sign exactly for negatives. */
  lemma DecimalShape(n: int)
    ensures |Decimal(n)| >= 1
    ensures n < 0 ==> |Decimal(n)| >= 2
    ensures Decimal(n)[0] == '-' <==> n < 0
    ensures forall i :: 0 <= i < |Decimal(n)| ==> IsDigit(Decimal(n)[i]) || (i == 0 && n < 0)
  {
    var d := NatDigits(if n < 0 then -n else n);
    assert IsDigit(d[0]);
  }
}
