/**
 * The express-validator chains the routes share (the `trim()` sanitiser
 * and the optional, length-limited string fields) and the handlers'
 * common `String(v).trim() || null` normalisation.
 */
module Validators {
  import opened Json
  import opened Strings

  /** The value of `key` after the `trim()` sanitiser (undefined and null become ""). */
  function TrimmedField(body: Body, key: string): string {
    Trim(ValidatorString(Field(body, key)))
  }

  /** `optional({ values: 'null' }).isString().isLength({ max })`. */
  predicate OptionalString(body: Body, key: string, max: nat) {
    IsNullish(Field(body, key)) || (body[key].JStr? && |body[key].s| <= max)
  }

  /** `String(v).trim() || null`: trimmed text, null when nothing is left. */
  function TrimmedOrNull(v: Json): (r: Json)
    ensures r == JNull <==> Trim(ToJsString(v)) == ""
    ensures r != JNull ==> r == JStr(Trim(ToJsString(v))) && Trim(r.s) == r.s
  {
    var t := Trim(ToJsString(v));
    if t == "" then JNull
    else
      TrimIdempotent(ToJsString(v));
      JStr(t)
  }
}
