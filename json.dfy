/**
 * JSON documents as the backend receives them in request bodies and stores
 * them in text columns, with the bits of JavaScript value semantics the
 * route handlers rely on (truthiness, `typeof`, `String(v)`).
 */
module Json {
  import opened Wrappers

  /** A JSON value. Numbers are integers: no handler does arithmetic on them. */
  datatype Json =
    | JNull
    | JBool(b: bool)
    | JNum(n: int)
    | JStr(s: string)
    | JArr(elems: seq<Json>)
    | JObj(fields: map<string, Json>)

  /** A request body: a missing key is JavaScript's `undefined`. */
  type Body = map<string, Json>

  /**
   * The content of a database column: a value stored as given, or the text
   * `JSON.stringify(v)`. Decoding an `Encoded(v)` column yields `v` again,
   * which is the round trip the source relies on.
   */
  datatype Cell = Plain(v: Json) | Encoded(doc: Json)

  /** JavaScript truthiness. */
  predicate Truthy(v: Json) {
    match v
    case JNull => false
    case JBool(b) => b
    case JNum(n) => n != 0
    case JStr(s) => s != ""
    case _ => true
  }

  /** Truthiness of a possibly undefined value. */
  predicate TruthyOpt(v: Option<Json>) {
    v.Some? && Truthy(v.value)
  }

  /** Truthiness of a column; JSON text is never empty. */
  predicate CellTruthy(c: Cell) {
    c.Encoded? || Truthy(c.v)
  }

  /** `typeof v === 'object'`, which holds for null, arrays and objects. */
  predicate IsObjectType(v: Json) {
    v.JNull? || v.JArr? || v.JObj?
  }

  /** The empty object `{}`, whose encoding is the text '{}'. */
  const EmptyObject: Json := JObj(map[])

  /** The empty array `[]`, whose encoding is the text '[]'. */
  const EmptyArray: Json := JArr([])

  function DigitChar(d: nat): (c: char)
    requires d < 10
    ensures '0' <= c <= '9'
  {
    ('0' as int + d) as char
  }

  /** Decimal digits of a natural number. */
  function NatToString(n: nat): (r: string)
    ensures |r| >= 1
    ensures forall i :: 0 <= i < |r| ==> '0' <= r[i] <= '9'
    decreases n
  {
    if n < 10 then [DigitChar(n)] else NatToString(n / 10) + [DigitChar(n % 10)]
  }

  /** Different numbers have different decimal representations. */
  lemma {:induction false} NatToStringInjective(a: nat, b: nat)
    requires NatToString(a) == NatToString(b)
    ensures a == b
    decreases a
  {
    if a >= 10 && b >= 10 {
      var sa, sb := NatToString(a / 10), NatToString(b / 10);
      assert NatToString(a) == sa + [DigitChar(a % 10)];
      assert NatToString(b) == sb + [DigitChar(b % 10)];
      assert |sa| == |sb|;
      assert sa == NatToString(a)[..|sa|] && sb == NatToString(b)[..|sb|];
      NatToStringInjective(a / 10, b / 10);
      assert DigitChar(a % 10) == NatToString(a)[|sa|];
    }
  }

  /** `String(v)`: what JavaScript's string conversion gives for a JSON value. */
  function ToJsString(v: Json): string
    decreases v, 1
  {
    match v
    case JNull => "null"
    case JBool(b) => if b then "true" else "false"
    case JNum(n) => if n < 0 then "-" + NatToString(-n) else NatToString(n)
    case JStr(s) => s
    case JArr(es) => JoinElements(v, es)
    case JObj(_) => "[object Object]"
  }

  /**
   * `JSON.parse` of a column's text: JSON text decodes to the value it
   * encodes; any other text goes to `parse`, which gives None where
   * `JSON.parse` throws.
   */
  function ParseColumn(c: Cell, parse: string -> Option<Json>): (r: Option<Json>)
    ensures c.Encoded? ==> r == Some(c.doc)
  {
    match c
    case Encoded(doc) => Some(doc)
    case Plain(v) => parse(ToJsString(v))
  }

  /** The value of `key` in a request body, None when it is undefined. */
  function Field(body: Body, key: string): (v: Option<Json>)
    ensures v.Some? <==> key in body
    ensures v.Some? ==> v.value == body[key]
  {
    if key in body then Some(body[key]) else None
  }

  /** `v == null` in JavaScript: undefined or null. */
  predicate IsNullish(v: Option<Json>) {
    v.None? || v.value.JNull?
  }

  /**
   * The string express-validator checks and sanitises: undefined and null
   * become the empty string, anything else its `String(v)` conversion.
   */
  function ValidatorString(v: Option<Json>): string {
    if IsNullish(v) then "" else ToJsString(v.value)
  }

  /** `Array.prototype.join(',')`: null elements become empty strings. */
  function JoinElements(whole: Json, es: seq<Json>): string
    requires whole.JArr? && |es| <= |whole.elems| && es == whole.elems[|whole.elems| - |es|..]
    decreases whole, 0, |es|
  {
    if es == [] then ""
    else
      var first := if es[0].JNull? then "" else ToJsString(es[0]);
      if |es| == 1 then first else first + "," + JoinElements(whole, es[1..])
  }
}
