/**
 * The CORS policy of the API: the origins named in FRONTEND_URL, any
 * `https://….vercel.app` deployment, and requests without an Origin.
 */
module Cors {
  import opened Wrappers
  import opened Strings

  /** The origin allowed when FRONTEND_URL is unset or empty. */
  const DefaultFrontendUrl: string := "http://localhost:5173"

  /** `.map((o) => o.trim()).filter(Boolean)`: the trimmed pieces that are not empty, in order. */
  function TrimmedNonEmpty(parts: seq<string>): (os: seq<string>)
    ensures forall o :: o in os <==> o != "" && exists p :: p in parts && Trim(p) == o
    ensures |os| <= |parts|
  {
    if parts == [] then []
    else
      var rest := TrimmedNonEmpty(parts[1..]);
      assert forall p :: p in parts <==> p == parts[0] || p in parts[1..];
      var t := Trim(parts[0]);
      if t == "" then rest else [t] + rest
  }

  /** `allowedOrigins`: FRONTEND_URL (or the default) split on commas, trimmed, empties dropped. */
  function AllowedOrigins(frontendUrl: Option<string>): (os: seq<string>)
    ensures forall o :: o in os ==> o != "" && Trim(o) == o && ',' !in o
  {
    var source := if frontendUrl.None? || frontendUrl.value == "" then DefaultFrontendUrl else frontendUrl.value;
    var os := TrimmedNonEmpty(Split(source, ','));
    forall o | o in os
      ensures Trim(o) == o && ',' !in o
    {
      var p :| p in Split(source, ',') && Trim(p) == o;
      TrimIdempotent(p);
      TrimIsSlice(p);
    }
    os
  }

  /** Without FRONTEND_URL only the local development server is listed. */
  lemma DefaultIsLocalDevServer(frontendUrl: Option<string>)
    requires frontendUrl.None? || frontendUrl == Some("")
    ensures AllowedOrigins(frontendUrl) == [DefaultFrontendUrl]
  {
    var d := DefaultFrontendUrl;
    assert ',' !in d;
    SingleOrigin(d);
  }

  /** A value without commas or surrounding white space lists just itself. */
  lemma SingleOrigin(s: string)
    requires s != "" && ',' !in s
    requires !IsWhite(s[0]) && !IsWhite(s[|s| - 1])
    ensures TrimmedNonEmpty(Split(s, ',')) == [s]
  {
    assert Split(s, ',') == [s];
    TrimFixedPoint(s);
    assert [s][1..] == [];
  }

  /**
   * `/^https:\/\/.*\.vercel\.app$/.test(origin)`: 'https://', then any
   * characters but line terminators, then '.vercel.app' at the very end.
   */
  predicate VercelOrigin(origin: string) {
    && |origin| >= 19
    && StartsWith(origin, "https://") && EndsWith(origin, ".vercel.app")
    && forall i :: 8 <= i < |origin| - 11 ==> !IsLineTerminator(origin[i])
  }

  /** `isAllowedOrigin`. */
  predicate IsAllowedOrigin(allowed: seq<string>, origin: string) {
    origin in allowed || VercelOrigin(origin)
  }

  /** The `origin` callback: allow, or refuse without an error. A missing or empty Origin is allowed. */
  function OriginDecision(allowed: seq<string>, origin: Option<string>): (allow: bool)
    ensures origin.None? || origin == Some("") ==> allow
    ensures origin.Some? && origin.value != "" ==> (allow <==> IsAllowedOrigin(allowed, origin.value))
  {
    if origin.None? || origin.value == "" then true else IsAllowedOrigin(allowed, origin.value)
  }

  /** Every Vercel deployment is allowed whatever FRONTEND_URL says, and a plain-http origin only when listed. */
  lemma OriginPolicy(frontendUrl: Option<string>, origin: string)
    ensures VercelOrigin(origin) ==> OriginDecision(AllowedOrigins(frontendUrl), Some(origin))
    ensures origin != "" && !StartsWith(origin, "https://") ==>
              (OriginDecision(AllowedOrigins(frontendUrl), Some(origin)) <==> origin in AllowedOrigins(frontendUrl))
  {
  }

  /** An origin with white space around it never matches a listed origin. */
  lemma PaddedOriginNotListed(frontendUrl: Option<string>, origin: string)
    requires Trim(origin) != origin
    ensures origin !in AllowedOrigins(frontendUrl)
  {
  }
}
