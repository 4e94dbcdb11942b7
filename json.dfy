/**
 * The parsed JSON values the carrier API sends back, and the Python
 * conversions the client applies to them: truthiness (`if x`, `x or y`)
 * and `str(x)` for scalars.
 */
module Json {
  import opened Wrappers

  datatype Value =
    | JNull
    | JBool(b: bool)
    | JNum(n: int)
    | JStr(s: string)
    | JArr(items: seq<Value>)
    | JObj(fields: map<string, Value>)

  /** Python truthiness of a decoded JSON value. */
  predicate Truthy(v: Value) {
    match v
    case JNull => false
    case JBool(b) => b
    case JNum(n) => n != 0
    case JStr(s) => s != ""
    case JArr(items) => items != []
    case JObj(fields) => fields != map[]
  }

  /** Decimal digits of a natural number, most significant first. */
  function NatToDecimal(n: nat): (r: string)
    ensures r != []
    ensures forall i :: 0 <= i < |r| ==> '0' <= r[i] <= '9'
    decreases n
  {
    var last := ['0' + (n % 10) as char];
    if n < 10 then last else NatToDecimal(n / 10) + last
  }

  /** The number a string of decimal digits denotes, most significant digit first. */
  function DecimalValue(s: string): nat
    requires forall i :: 0 <= i < |s| ==> '0' <= s[i] <= '9'
    decreases |s|
  {
    if s == [] then 0
    else DecimalValue(s[..|s| - 1]) * 10 + (s[|s| - 1] as int - '0' as int)
  }

  /** The digits denote `n`, with no leading zero unless `n` is zero. */
  lemma {:induction false} NatToDecimalValue(n: nat)
    ensures DecimalValue(NatToDecimal(n)) == n
    ensures NatToDecimal(n)[0] == '0' <==> n == 0
    decreases n
  {
    var r, last := NatToDecimal(n), ['0' + (n % 10) as char];
    if n >= 10 {
      NatToDecimalValue(n / 10);
      assert r == NatToDecimal(n / 10) + last;
      assert r[..|r| - 1] == NatToDecimal(n / 10);
      assert r[0] == NatToDecimal(n / 10)[0];
    }
  }

  /** Python's `str(v)` for the scalar values an identifier can be; None for arrays and objects. */
  function PyStr(v: Value): (r: Option<string>)
    ensures v.JStr? ==> r == Some(v.s)
    ensures r.None? <==> v.JArr? || v.JObj?
  {
    match v
    case JNull => Some("None")
    case JBool(b) => Some(if b then "True" else "False")
    case JNum(n) => Some(if n < 0 then "-" + NatToDecimal(-n) else NatToDecimal(n))
    case JStr(s) => Some(s)
    case JArr(_) => None
    case JObj(_) => None
  }
}
