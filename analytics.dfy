/**
 * `POST /analytics/event`: a named event with an optional payload, stored
 * for the signed-in user.
 */
module Analytics {
  import opened Wrappers
  import opened Json
  import opened Errors
  import opened Rbac
  import opened Store

  /** The longest event name stored. */
  const EventNameMax: nat := 100

  /** `!event || typeof event !== 'string'` is 400 'event required'; otherwise the name. */
  function EventName(v: Option<Json>): (r: Result<string>)
    ensures r.Ok? <==> v.Some? && v.value.JStr? && v.value.s != ""
    ensures r.Ok? ==> r.value == v.value.s
    ensures r.Err? ==> r.error == HttpError(400, "event required")
  {
    if !TruthyOpt(v) || !v.value.JStr? then Err(BadRequest(Some("event required"))) else Ok(v.value.s)
  }

  /** `s.substring(0, n)`: the first `n` characters, or all of a shorter string. */
  function Prefix(s: string, n: nat): (p: string)
    ensures |p| == if |s| < n then |s| else n
    ensures p == s[..|p|]
  {
    if |s| <= n then s else s[..n]
  }

  /** Truncating keeps a short name, and truncating twice is truncating once. */
  lemma PrefixKeepsShortAndIsIdempotent(s: string, n: nat)
    ensures |s| <= n ==> Prefix(s, n) == s
    ensures Prefix(Prefix(s, n), n) == Prefix(s, n)
  {
  }

  /**
   * The `payload` column: the JSON text of any value of type 'object'
   * (null, arrays and objects), the string form of any other truthy
   * value, and '{}' otherwise (undefined, false, 0, '').
   */
  function PayloadColumn(v: Option<Json>): (c: Cell)
    ensures v.Some? && IsObjectType(v.value) ==> c == Encoded(v.value)
    ensures v.Some? && !IsObjectType(v.value) && Truthy(v.value) ==> c == Plain(JStr(ToJsString(v.value)))
    ensures !TruthyOpt(v) && !(v.Some? && v.value.JNull?) ==> c == Encoded(EmptyObject)
    ensures c.Encoded? || c.v.JStr?
  {
    if v.Some? && IsObjectType(v.value) then Encoded(v.value)
    else if TruthyOpt(v) then Plain(JStr(ToJsString(v.value)))
    else Encoded(EmptyObject)
  }

  /** A payload given as an object is stored so that it decodes to itself; a null one as the text 'null'. */
  lemma ObjectPayloadRoundTrips(fields: map<string, Json>)
    ensures PayloadColumn(Some(JObj(fields))).Encoded? && PayloadColumn(Some(JObj(fields))).doc == JObj(fields)
    ensures PayloadColumn(Some(JNull)) == Encoded(JNull)
  {
  }

  /** `POST /analytics/event` for the signed-in `userId`: `{ ok: true }`, or 400 and nothing stored. */
  method Record(db: Db, userId: UserId, body: Body) returns (r: Result<()>)
    modifies db`analyticsEvents
    ensures var name := EventName(Field(body, "event"));
      && (name.Err? ==> r == Err(name.error) && db.analyticsEvents == old(db.analyticsEvents))
      && (name.Ok? ==>
            && r == Ok(())
            && db.analyticsEvents == old(db.analyticsEvents)
                 + [AnalyticsEvent(Prefix(name.value, EventNameMax), PayloadColumn(Field(body, "payload")), userId)])
  {
    var name := EventName(Field(body, "event"));
    if name.Err? {
      return Err(name.error);
    }
    var event := Prefix(name.value, EventNameMax);
    db.analyticsEvents := db.analyticsEvents + [AnalyticsEvent(event, PayloadColumn(Field(body, "payload")), userId)];
    r := Ok(());
  }

  /** A stored event name is never empty and never longer than 100 characters. */
  lemma StoredNameBounds(v: Option<Json>)
    requires EventName(v).Ok?
    ensures 0 < |Prefix(EventName(v).value, EventNameMax)| <= EventNameMax
  {
  }
}
