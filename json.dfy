/**
 * Decoded JSON values as the Python code sees them after `json.loads`, with
 * Python's truthiness and `str()` for the scalar kinds the code branches on.
 */
module Json {
  import opened Wrappers

  /** A decoded JSON value. Numbers are integers; an object is a map from keys to values. */
  datatype Json =
    | JNull
    | JBool(b: bool)
    | JNum(n: int)
    | JStr(s: string)
    | JList(items: seq<Json>)
    | JObject(fields: map<string, Json>)

  /** Python truthiness (`if value:`) of a decoded JSON value. */
  predicate Truthy(j: Json) {
    match j
    case JNull => false
    case JBool(b) => b
    case JNum(n) => n != 0
    case JStr(s) => s != ""
    case JList(items) => items != []
    case JObject(fields) => fields != map[]
  }

  /** A JSON-RPC request id as a validated envelope carries it: a string or an integer. */
  datatype Id = StrId(s: string) | IntId(n: int) {
    /** The id as a JSON value. */
    function ToJson(): Json {
      match this
      case StrId(s) => JStr(s)
      case IntId(n) => JNum(n)
    }
  }

  /** Python's `str()` of an id, also what an f-string interpolates. */
  function IdText(id: Id): string {
    match id
    case StrId(s) => s
    case IntId(n) => IntToDecimal(n)
  }

  predicate IsDigit(c: char) {
    '0' <= c <= '9'
  }

  predicate IsDecimal(s: string) {
    forall i :: 0 <= i < |s| ==> IsDigit(s[i])
  }

  function DigitChar(d: nat): (c: char)
    requires d < 10
    ensures IsDigit(c) && (c as int) - ('0' as int) == d
  {
    ('0' as int + d) as char
  }

  /** Python's `str(n)` for a non-negative integer: its decimal digits, most significant first. */
  function NatToDecimal(n: nat): (s: string)
    ensures |s| >= 1 && IsDecimal(s)
    ensures n < 10 <==> |s| == 1
  {
    if n < 10 then [DigitChar(n)] else NatToDecimal(n / 10) + [DigitChar(n % 10)]
  }

  /** Python's `str(n)` for any integer. */
  function IntToDecimal(n: int): string {
    if n < 0 then "-" + NatToDecimal(-n) else NatToDecimal(n)
  }

  /** The value a string of decimal digits denotes (`int(s)`), the inverse of `NatToDecimal`. */
  function DecimalValue(s: string): nat
    requires IsDecimal(s)
  {
    if s == [] then 0 else DecimalValue(s[..|s| - 1]) * 10 + ((s[|s| - 1] as int) - ('0' as int))
  }

  /** Reading back the decimal text of a number gives the number. */
  lemma {:induction false} DecimalRoundTrip(n: nat)
    ensures DecimalValue(NatToDecimal(n)) == n
  {
    if n >= 10 {
      var s := NatToDecimal(n);
      assert s[..|s| - 1] == NatToDecimal(n / 10);
      DecimalRoundTrip(n / 10);
    }
  }

  /** Different numbers have different decimal texts. */
  lemma DecimalInjective(m: nat, n: nat)
    requires NatToDecimal(m) == NatToDecimal(n)
    ensures m == n
  {
    DecimalRoundTrip(m);
    DecimalRoundTrip(n);
  }

  /**
   * The key under which a reply's `id` is looked up in a pending-request table:
   * `str(id)` when the id is truthy, `None` when it is falsy (`None`, `0`, `""`, `false`).
   * A list or object id is given no key: its text starts with a bracket, which no
   * issued request id does.
   */
  function CorrelationKey(j: Json): (k: Option<string>)
    ensures k.Some? ==> Truthy(j)
    ensures j.JStr? || j.JNum? ==> (k.Some? <==> Truthy(j))
  {
    match j
    case JStr(s) => if s != "" then Some(s) else None
    case JNum(n) => if n != 0 then Some(IntToDecimal(n)) else None
    case JBool(b) => if b then Some("True") else None
    case _ => None
  }

  /**
   * Python's `str()` of a decoded value as an exception message embeds it. The
   * text of a list or an object is not modelled and is shown as `[...]` or `{...}`.
   */
  function Show(j: Json): string {
    match j
    case JNull => "None"
    case JBool(b) => if b then "True" else "False"
    case JNum(n) => IntToDecimal(n)
    case JStr(s) => s
    case JList(_) => "[...]"
    case JObject(_) => "{...}"
  }

  /** Python's `dict.get(key, default)` on a JSON object. */
  function Get(fields: map<string, Json>, key: string, default: Json): (v: Json)
    ensures key in fields ==> v == fields[key]
    ensures key !in fields ==> v == default
  {
    if key in fields then fields[key] else default
  }
}
