/**
 * The itinerary routes: the request validators, item creation (creating the
 * day for a date when needed), item PATCH, and proposing a change to an
 * item, which notifies the trip's organizers.
 */
module Itinerary {
  import opened Wrappers
  import opened Json
  import opened Strings
  import opened Errors
  import opened Rbac
  import opened Store
  import opened Notify
  import opened Validators

  // ---------------------------------------------------------------------
  // Change-request validation (`changeRequestValidators`)

  /** `ks` lists the keys of `fields` outside the allow-list, each once. */
  ghost predicate InvalidKeyList(ks: seq<string>, fields: map<string, Json>) {
    && (forall i, j :: 0 <= i < j < |ks| ==> ks[i] != ks[j])
    && (forall k :: k in ks <==> k in fields && k !in AllowedPatchKeys)
  }

  /**
   * `Object.keys(patch).filter((k) => !ALLOWED_PATCH_KEYS.includes(k))`.
   * The model keeps an object's keys as a set, so the keys come out in
   * some order rather than in the object's insertion order.
   */
  method InvalidKeys(fields: map<string, Json>) returns (ks: seq<string>)
    ensures InvalidKeyList(ks, fields)
  {
    var rest := fields.Keys;
    ks := [];
    while rest != {}
      invariant rest <= fields.Keys
      invariant forall i, j :: 0 <= i < j < |ks| ==> ks[i] != ks[j]
      invariant forall k :: k in ks <==> k in fields && k !in AllowedPatchKeys && k !in rest
      decreases |rest|
    {
      var k :| k in rest;
      if k !in AllowedPatchKeys {
        ks := ks + [k];
      }
      rest := rest - {k};
    }
  }

  /**
   * `changeRequestValidators` followed by `handleValidationErrors`: the
   * message of the 400 response, or None when `proposed_patch` passes.
   */
  method ValidateProposedPatch(patch: Option<Json>) returns (err: Option<string>)
    ensures err.None? <==> patch.Some? && patch.value.JObj?
                           && forall k :: k in patch.value.fields ==> k in AllowedPatchKeys
    ensures err == Some("proposed_patch required") <==> ValidatorString(patch) == ""
    ensures ValidatorString(patch) != "" && !patch.value.JObj? ==> err == Some("proposed_patch must be an object")
    ensures patch.Some? && patch.value.JObj? && (exists k :: k in patch.value.fields && k !in AllowedPatchKeys) ==>
              exists ks :: InvalidKeyList(ks, patch.value.fields) && ks != []
                           && err == Some("Invalid keys in proposed_patch: " + JoinWith(ks, ", "))
  {
    if ValidatorString(patch) == "" {
      return Some("proposed_patch required");
    }
    if !patch.value.JObj? {
      return Some("proposed_patch must be an object");
    }
    var invalid := InvalidKeys(patch.value.fields);
    if invalid != [] {
      assert invalid[0] in invalid;
      assert StartsWith(JoinWith(invalid, ", "), invalid[0]);
      return Some("Invalid keys in proposed_patch: " + JoinWith(invalid, ", "));
    }
    return None;
  }

  // ---------------------------------------------------------------------
  // Item creation validation (`createItemValidators`)

  /** Every field of a create-item body is well formed (all chains but the title's `notEmpty` and the body check). */
  predicate FieldsWellFormed(body: Body) {
    && |TrimmedField(body, "title")| <= 500
    && OptionalString(body, "day_id", 100)
    && OptionalString(body, "start_time", 50)
    && OptionalString(body, "end_time", 50)
    && OptionalString(body, "location_text", 500)
    && OptionalString(body, "cover_image", 5000000)
    && OptionalString(body, "notes", 5000)
    && (IsNullish(Field(body, "external_links")) || body["external_links"].JArr?)
  }

  /** The body-level check: a truthy `day_id`, or a `date` that is neither undefined nor null. */
  predicate NamesADay(body: Body) {
    TruthyOpt(Field(body, "day_id")) || !IsNullish(Field(body, "date"))
  }

  /**
   * `createItemValidators` followed by `handleValidationErrors`: the first
   * failing chain's message (the library's default message is 'Invalid value').
   */
  function ValidateCreateItem(body: Body): (err: Option<string>)
    ensures err.None? <==> TrimmedField(body, "title") != "" && FieldsWellFormed(body) && NamesADay(body)
    ensures err == Some("title required") <==> TrimmedField(body, "title") == ""
    ensures err == Some("day_id or date required") <==>
              TrimmedField(body, "title") != "" && FieldsWellFormed(body) && !NamesADay(body)
  {
    if TrimmedField(body, "title") == "" then Some("title required")
    else if !FieldsWellFormed(body) then Some("Invalid value")
    else if !NamesADay(body) then Some("day_id or date required")
    else None
  }

  // ---------------------------------------------------------------------
  // Normalisation of item fields

  /** Create: `start_time` '' or 'TBD' (or absent) is stored as null, anything else as its string form. */
  function CreateStartTime(v: Option<Json>): (r: Json)
    ensures r == JNull || r.JStr?
    ensures r == JNull <==> IsNullish(v) || v.value == JStr("") || v.value == JStr("TBD")
    ensures v.Some? && v.value.JStr? && r != JNull ==> r == v.value
  {
    if IsNullish(v) then JNull
    else if v.value == JStr("") || v.value == JStr("TBD") then JNull
    else JStr(ToJsString(v.value))
  }

  /** Create: `end_time` '' (or absent) is stored as null, anything else as its string form. */
  function CreateEndTime(v: Option<Json>): (r: Json)
    ensures r == JNull || r.JStr?
    ensures r == JNull <==> IsNullish(v) || v.value == JStr("")
    ensures v.Some? && v.value.JStr? ==> r == (if v.value.s == "" then JNull else v.value)
  {
    if IsNullish(v) then JNull
    else if v.value == JStr("") then JNull
    else JStr(ToJsString(v.value))
  }

  /** Create: location, cover image and notes are trimmed, and absent or blank becomes null. */
  function CreateText(v: Option<Json>): (r: Json)
    ensures r == JNull || (r.JStr? && r.s != "" && Trim(r.s) == r.s)
    ensures r == JNull <==> IsNullish(v) || IsBlank(ToJsString(v.value))
  {
    if IsNullish(v) then JNull
    else
      TrimEmptyIffBlank(ToJsString(v.value));
      TrimmedOrNull(v.value)
  }

  /** Create: an array is stored as its JSON text, another truthy value as its string form, else '[]'. */
  function CreateLinks(v: Option<Json>): (c: Cell)
    ensures v.Some? && v.value.JArr? ==> c == Encoded(v.value)
    ensures !TruthyOpt(v) ==> c == Encoded(EmptyArray)
  {
    if v.Some? && v.value.JArr? then Encoded(v.value)
    else if TruthyOpt(v) then Plain(JStr(ToJsString(v.value)))
    else Encoded(EmptyArray)
  }

  /** PATCH: `start_time` '' or 'TBD' becomes null; any other value is stored as sent. */
  function PatchStartTime(v: Json): (r: Json)
    ensures r == JNull <==> v == JNull || v == JStr("") || v == JStr("TBD")
    ensures r != JNull ==> r == v
  {
    if v == JStr("") || v == JStr("TBD") then JNull else v
  }

  /** PATCH: `end_time` '' becomes null; any other value is stored as sent. */
  function PatchEndTime(v: Json): (r: Json)
    ensures r == JNull <==> v == JNull || v == JStr("")
    ensures r != JNull ==> r == v
  {
    if v == JStr("") then JNull else v
  }

  /**
   * PATCH of location_text, cover_image and notes as the handler writes
   * it: `String(v).trim() || null`, which turns a null into the text "null".
   */
  function PatchTextAsWritten(v: Json): (r: Json)
    ensures r == JNull <==> Trim(ToJsString(v)) == ""
    ensures r != JNull ==> r == JStr(Trim(ToJsString(v)))
  {
    TrimmedOrNull(v)
  }

  /** Sending null to clear a text field stores the four-letter text "null". */
  lemma PatchTextAsWrittenStoresNullText()
    ensures PatchTextAsWritten(JNull) == JStr("null")
    ensures CreateText(Some(JNull)) == JNull
  {
    TrimFixedPoint("null");
  }

  /**
   * PATCH of location_text, cover_image and notes with null clearing the
   * field, as item creation treats it.
   */
  function PatchText(v: Json): (r: Json)
    ensures r == JNull || (r.JStr? && r.s != "" && Trim(r.s) == r.s)
  {
    if v == JNull then JNull else TrimmedOrNull(v)
  }

  /** The corrected PATCH stores a text field exactly as creating the item with that value would. */
  lemma PatchTextAgreesWithCreate(v: Json)
    ensures PatchText(v) == CreateText(Some(v))
    ensures v != JNull ==> PatchText(v) == PatchTextAsWritten(v)
  {
  }

  /** PATCH: an array is stored as its JSON text, anything else as its string form. */
  function PatchLinks(v: Json): (c: Cell)
    ensures v.JArr? ==> c == Encoded(v)
    ensures !v.JArr? ==> c == Plain(JStr(ToJsString(v)))
  {
    if v.JArr? then Encoded(v) else Plain(JStr(ToJsString(v)))
  }

  // ---------------------------------------------------------------------
  // Item PATCH

  /** The request field that writes each item column. */
  function BodyKey(column: string): string
    requires column in ItemColumns
  {
    match column
    case "dayId" => "day_id"
    case "title" => "title"
    case "startTime" => "start_time"
    case "endTime" => "end_time"
    case "locationText" => "location_text"
    case "coverImage" => "cover_image"
    case "notes" => "notes"
    case _ => "external_links"
  }

  /**
   * The value an item PATCH stores in `column` for the sent value `v`. A
   * text column sent null is cleared, as item creation clears it; the
   * handler as written stores the text "null" instead (`PatchColumnAsWritten`).
   */
  function PatchColumn(column: string, v: Json): (c: Cell)
    requires column in ItemColumns
    ensures column != "externalLinks" ==> c.Plain?
    ensures column == "dayId" ==> c == Plain(v)
    ensures column == "title" ==> c == Plain(JStr(Trim(ToJsString(v))))
    ensures column == "startTime" ==> (c.v == JNull <==> v == JNull || v == JStr("") || v == JStr("TBD"))
    ensures column == "endTime" ==> (c.v == JNull <==> v == JNull || v == JStr(""))
    ensures column in {"startTime", "endTime"} && c.v != JNull ==> c.v == v
    ensures column in {"locationText", "coverImage", "notes"} ==>
              && (c.v == JNull <==> v == JNull || Trim(ToJsString(v)) == "")
              && (c.v != JNull ==> c.v == JStr(Trim(ToJsString(v))))
    ensures column == "externalLinks" ==> (c.Encoded? <==> v.JArr?) && (v.JArr? ==> c == Encoded(v))
  {
    match column
    case "dayId" => Plain(v)
    case "title" => Plain(JStr(Trim(ToJsString(v))))
    case "startTime" => Plain(PatchStartTime(v))
    case "endTime" => Plain(PatchEndTime(v))
    case "locationText" => Plain(PatchText(v))
    case "coverImage" => Plain(PatchText(v))
    case "notes" => Plain(PatchText(v))
    case _ => PatchLinks(v)
  }

  /** The item columns an item PATCH writes as optional trimmed text. */
  const ItemTextColumns: set<string> := {"locationText", "coverImage", "notes"}

  /** The value the handler as written stores: its text rule is `PatchTextAsWritten`. */
  function PatchColumnAsWritten(column: string, v: Json): Cell
    requires column in ItemColumns
  {
    if column in ItemTextColumns then Plain(PatchTextAsWritten(v)) else PatchColumn(column, v)
  }

  /**
   * The model's PATCH column differs from the handler as written exactly
   * when a text column is sent null: the model clears it, the handler
   * stores the text "null".
   */
  lemma PatchColumnCorrectsOnlyNullText(column: string, v: Json)
    requires column in ItemColumns
    ensures PatchColumn(column, v) != PatchColumnAsWritten(column, v) <==> column in ItemTextColumns && v == JNull
    ensures column in ItemTextColumns && v == JNull ==>
              PatchColumn(column, v) == Plain(JNull) && PatchColumnAsWritten(column, v) == Plain(JStr("null"))
  {
    if column in ItemTextColumns {
      PatchTextAgreesWithCreate(v);
      if v == JNull {
        PatchTextAsWrittenStoresNullText();
      }
    }
  }

  /** The `data` of an item PATCH: one column for each field present in the body, and no other. */
  function ItemPatchData(body: Body): (data: map<string, Cell>)
    ensures ItemData(data)
  {
    map c | c in ItemColumns && BodyKey(c) in body :: PatchColumn(c, body[BodyKey(c)])
  }

  /** A PATCH changes exactly the columns whose fields the body carries, and stamps the editor. */
  lemma PatchTouchesOnlyGivenFields(it: Item, body: Body, editor: UserId)
    ensures var r := UpdateItem(it, ItemPatchData(body), editor);
      && r.updatedBy == editor && r.tripId == it.tripId && r.createdBy == it.createdBy
      && (forall c :: c in ItemColumns && BodyKey(c) !in body ==> ColumnOf(r, c) == ColumnOf(it, c))
      && (forall c :: c in ItemColumns && BodyKey(c) in body ==> ColumnOf(r, c) == PatchColumn(c, body[BodyKey(c)]))
  {
    UpdateItemColumns(it, ItemPatchData(body), editor);
  }

  /** An empty PATCH body only records who edited the item. */
  lemma EmptyPatchOnlyStamps(it: Item, editor: UserId)
    ensures UpdateItem(it, ItemPatchData(map[]), editor) == it.(updatedBy := editor)
  {
    var data := ItemPatchData(map[]);
    assert data == map[];
  }

  /** The item `itemId` exists and belongs to the trip (`findFirst({ where: { id, tripId } })`). */
  predicate ItemFound(items: seq<Item>, itemId: nat, tripId: TripId) {
    itemId < |items| && items[itemId].tripId == tripId
  }

  /** `PATCH /items/:itemId` (organizers only). */
  method PatchItem(db: Db, tripId: TripId, userId: UserId, unlockAll: Option<string>, itemId: nat, body: Body)
    returns (r: Result<Item>)
    requires db.Valid()
    modifies db`items, db`notifications
    ensures db.Valid()
    ensures var auth := Authorize(db.members, tripId, userId, unlockAll, Some([Organizer]));
      && (auth.Err? ==> r == Err(auth.error))
      && (auth.Ok? && !ItemFound(old(db.items), itemId, tripId) ==> r == Err(NotFound(Some("Item not found"))))
      && (r.Ok? <==> auth.Ok? && ItemFound(old(db.items), itemId, tripId))
    ensures r.Err? ==> db.items == old(db.items) && db.notifications == old(db.notifications)
    ensures r.Ok? ==>
      && db.items == old(db.items)[itemId := UpdateItem(old(db.items[itemId]), ItemPatchData(body), userId)]
      && r.value == db.items[itemId]
      && FanOut(old(db.notifications), db.notifications, db.members, tripId, AllRoles, Some(userId),
                "itinerary_item_updated", JObj(map["itemId" := IdJson(itemId), "title" := r.value.title]))
  {
    var auth := Authorize(db.members, tripId, userId, unlockAll, Some([Organizer]));
    if auth.Err? {
      return Err(auth.error);
    }
    if !ItemFound(db.items, itemId, tripId) {
      return Err(NotFound(Some("Item not found")));
    }
    var updated := UpdateItem(db.items[itemId], ItemPatchData(body), userId);
    db.items := db.items[itemId := updated];
    NotifyTripMembers(db, tripId, Some(userId), "itinerary_item_updated",
                      JObj(map["itemId" := IdJson(itemId), "title" := updated.title]));
    r := Ok(updated);
  }

  // ---------------------------------------------------------------------
  // Item creation

  /** The first day of the trip on `date` (`findUnique({ where: { tripId_date } })`). */
  function FindDayByDate(days: seq<Day>, tripId: TripId, date: Time): (r: Option<nat>)
    ensures r.Some? ==> r.value < |days| && days[r.value].tripId == tripId && days[r.value].date == date
    ensures r.None? ==> forall k :: 0 <= k < |days| ==> days[k].tripId != tripId || days[k].date != date
    decreases |days|
  {
    if days == [] then None
    else
      var n := |days| - 1;
      match FindDayByDate(days[..n], tripId, date)
      case Some(k) => Some(k)
      case None => if days[n].tripId == tripId && days[n].date == date then Some(n) else None
  }

  /** The day whose id is `id`, when it belongs to the trip (`findFirst({ where: { id, tripId } })`). */
  function FindDayById(days: seq<Day>, id: string, tripId: TripId): (r: Option<nat>)
    ensures r.Some? ==> r.value < |days| && IdString(r.value) == id && days[r.value].tripId == tripId
    ensures r.None? ==> forall k :: 0 <= k < |days| ==> IdString(k) != id || days[k].tripId != tripId
    decreases |days|
  {
    if days == [] then None
    else
      var n := |days| - 1;
      match FindDayById(days[..n], id, tripId)
      case Some(k) => Some(k)
      case None => if IdString(n) == id && days[n].tripId == tripId then Some(n) else None
  }

  /** A day that exists is found by its own id. */
  lemma FindDayByOwnId(days: seq<Day>, d: nat)
    requires d < |days|
    ensures FindDayById(days, IdString(d), days[d].tripId) == Some(d)
  {
    var r := FindDayById(days, IdString(d), days[d].tripId);
    NatToStringInjective(r.value, d);
  }

  /**
   * The day for a create-by-date request: the trip's existing day on that
   * date, or a new day appended with position = the trip's day count.
   */
  method DayForDate(db: Db, tripId: TripId, date: Time) returns (d: nat)
    requires db.Valid() && tripId < |db.trips|
    modifies db`days
    ensures db.Valid()
    ensures d < |db.days| && db.days[d].tripId == tripId && db.days[d].date == date
    ensures FindDayByDate(old(db.days), tripId, date).Some? ==>
              db.days == old(db.days) && d == FindDayByDate(old(db.days), tripId, date).value
    ensures FindDayByDate(old(db.days), tripId, date).None? ==>
              db.days == old(db.days) + [Day(tripId, date, CountTripDays(old(db.days), tripId))]
              && d == |old(db.days)|
  {
    var found := FindDayByDate(db.days, tripId, date);
    if found.Some? {
      return found.value;
    }
    AppendDayKeepsPositions(db.days, tripId, date);
    d := |db.days|;
    db.days := db.days + [Day(tripId, date, CountTripDays(db.days, tripId))];
  }

  /**
   * `d` is a day of the trip: the day whose id the body's `day_id` names
   * when that is truthy, otherwise the day on the body's `date`.
   */
  ghost predicate ItemDay(days: seq<Day>, d: nat, tripId: TripId, body: Body, parseDate: Json -> Option<Time>) {
    && d < |days| && days[d].tripId == tripId
    && (TruthyOpt(Field(body, "day_id")) ==>
          body["day_id"].JStr? && FindDayById(days, body["day_id"].s, tripId) == Some(d))
    && (!TruthyOpt(Field(body, "day_id")) ==> "date" in body && parseDate(body["date"]) == Some(days[d].date))
  }

  /**
   * The day table after a successful day lookup of `POST /items`: unchanged
   * when `day_id` names the day or the trip already has a day on `date`,
   * otherwise with the day on `date` appended at the trip's day count.
   */
  ghost predicate DaysAfterLookup(before: seq<Day>, after: seq<Day>, tripId: TripId, body: Body,
                                  parseDate: Json -> Option<Time>) {
    if TruthyOpt(Field(body, "day_id")) then after == before
    else
      && "date" in body && parseDate(body["date"]).Some?
      && var date := parseDate(body["date"]).value;
         && (FindDayByDate(before, tripId, date).Some? ==> after == before)
         && (FindDayByDate(before, tripId, date).None? ==>
               after == before + [Day(tripId, date, CountTripDays(before, tripId))])
  }

  /** The row `itineraryItem.create` inserts for a validated body whose day id is `dayId`. */
  function NewItem(tripId: TripId, dayId: string, body: Body, userId: UserId): (it: Item)
    ensures it.tripId == tripId && it.dayId == JStr(dayId) && it.title == JStr(TrimmedField(body, "title"))
    ensures it.createdBy == userId && it.updatedBy == userId
  {
    Item(tripId, JStr(dayId), JStr(TrimmedField(body, "title")),
         CreateStartTime(Field(body, "start_time")), CreateEndTime(Field(body, "end_time")),
         CreateText(Field(body, "location_text")), CreateText(Field(body, "cover_image")),
         CreateText(Field(body, "notes")), CreateLinks(Field(body, "external_links")),
         userId, userId)
  }

  /** A created item has a non-empty trimmed title and normalised optional fields. */
  lemma NewItemNormalised(tripId: TripId, dayId: string, body: Body, userId: UserId)
    requires ValidateCreateItem(body).None?
    ensures var it := NewItem(tripId, dayId, body, userId);
      && it.title.JStr? && it.title.s != "" && |it.title.s| <= 500 && Trim(it.title.s) == it.title.s
      && it.startTime != JStr("") && it.startTime != JStr("TBD")
      && it.endTime != JStr("")
      && (it.locationText == JNull || (it.locationText.JStr? && it.locationText.s != ""
                                       && Trim(it.locationText.s) == it.locationText.s))
      && (it.coverImage == JNull || (it.coverImage.JStr? && it.coverImage.s != ""
                                     && Trim(it.coverImage.s) == it.coverImage.s))
      && (it.notes == JNull || (it.notes.JStr? && it.notes.s != "" && Trim(it.notes.s) == it.notes.s))
      && it.externalLinks.Encoded? && it.externalLinks.doc.JArr?
  {
    TrimIdempotent(ValidatorString(Field(body, "title")));
  }

  /**
   * The error, if any, with which the day lookup of `POST /items` ends: a
   * `date` that does not parse, neither a truthy `day_id` nor a truthy
   * `date`, or a `day_id` that names no day of the trip. A parsed `date`
   * always finds or creates its day.
   */
  function DayError(days: seq<Day>, tripId: TripId, body: Body, parseDate: Json -> Option<Time>): (e: Option<HttpError>)
    ensures var dayField := Field(body, "day_id");
      var dateField := Field(body, "date");
      && (e == Some(BadRequest(Some("Invalid date"))) <==>
            !TruthyOpt(dayField) && TruthyOpt(dateField) && parseDate(dateField.value).None?)
      && (e == Some(BadRequest(Some("day_id or date required"))) <==> !TruthyOpt(dayField) && !TruthyOpt(dateField))
      && (e == Some(NotFound(Some("Day not found"))) <==>
            TruthyOpt(dayField) && !(dayField.value.JStr? && FindDayById(days, dayField.value.s, tripId).Some?))
      && (e.None? <==> (!TruthyOpt(dayField) && TruthyOpt(dateField) && parseDate(dateField.value).Some?)
                       || (TruthyOpt(dayField) && dayField.value.JStr? && FindDayById(days, dayField.value.s, tripId).Some?))
  {
    var dayField := Field(body, "day_id");
    var dateField := Field(body, "date");
    if !TruthyOpt(dayField) && TruthyOpt(dateField) then
      if parseDate(dateField.value).None? then Some(BadRequest(Some("Invalid date"))) else None
    else if !TruthyOpt(dayField) then Some(BadRequest(Some("day_id or date required")))
    else if dayField.value.JStr? && FindDayById(days, dayField.value.s, tripId).Some? then None
    else Some(NotFound(Some("Day not found")))
  }

  /**
   * The day a new item goes on: the day `day_id` names when it is truthy,
   * otherwise the trip's day on `date`, reused or created. Either way the
   * day must belong to the trip.
   */
  method ResolveDay(db: Db, tripId: TripId, body: Body, parseDate: Json -> Option<Time>) returns (r: Result<nat>)
    requires db.Valid() && tripId < |db.trips|
    requires OptionalString(body, "day_id", 100)
    modifies db`days
    ensures db.Valid()
    ensures r.Err? <==> DayError(old(db.days), tripId, body, parseDate).Some?
    ensures r.Err? ==> r.error == DayError(old(db.days), tripId, body, parseDate).value && db.days == old(db.days)
    ensures r.Ok? ==> ItemDay(db.days, r.value, tripId, body, parseDate)
    ensures var dayField := Field(body, "day_id");
      var dateField := Field(body, "date");
      && (TruthyOpt(dayField) ==>
            && db.days == old(db.days)
            && (r.Ok? ==> Some(r.value) == FindDayById(old(db.days), dayField.value.s, tripId)))
      && (!TruthyOpt(dayField) && TruthyOpt(dateField) && parseDate(dateField.value).Some? ==>
            var date := parseDate(dateField.value).value;
            && (FindDayByDate(old(db.days), tripId, date).Some? ==>
                  db.days == old(db.days) && r.value == FindDayByDate(old(db.days), tripId, date).value)
            && (FindDayByDate(old(db.days), tripId, date).None? ==>
                  db.days == old(db.days) + [Day(tripId, date, CountTripDays(old(db.days), tripId))]
                  && r.value == |old(db.days)|))
  {
    var dayIdField := Field(body, "day_id");
    var dateField := Field(body, "date");
    var dayId: string;
    if !TruthyOpt(dayIdField) && TruthyOpt(dateField) {
      var date := parseDate(dateField.value);
      if date.None? {
        return Err(BadRequest(Some("Invalid date")));
      }
      var d := DayForDate(db, tripId, date.value);
      dayId := IdString(d);
      FindDayByOwnId(db.days, d);
    } else if !TruthyOpt(dayIdField) {
      return Err(BadRequest(Some("day_id or date required")));
    } else {
      dayId := dayIdField.value.s;
    }
    var day := FindDayById(db.days, dayId, tripId);
    if day.None? {
      return Err(NotFound(Some("Day not found")));
    }
    r := Ok(day.value);
  }

  /**
   * `POST /items` (organizers only). A day may be named by `day_id`, or by
   * `date`, in which case the trip's day on that date is reused or created.
   * `parseDate` is `new Date(date)`, None for an invalid date.
   */
  method CreateItem(db: Db, tripId: TripId, userId: UserId, unlockAll: Option<string>, body: Body,
                    parseDate: Json -> Option<Time>) returns (r: Result<nat>)
    requires db.Valid()
    modifies db`days, db`items, db`notifications
    ensures db.Valid()
    ensures var auth := Authorize(db.members, tripId, userId, unlockAll, Some([Organizer]));
      && (auth.Err? ==> r == Err(auth.error))
      && (auth.Ok? && ValidateCreateItem(body).Some? ==> r == Err(BadRequest(ValidateCreateItem(body))))
      && (auth.Ok? && ValidateCreateItem(body).None? ==>
            (r.Err? <==> DayError(old(db.days), tripId, body, parseDate).Some?)
            && (r.Err? ==> r.error == DayError(old(db.days), tripId, body, parseDate).value))
    ensures r.Err? ==> db.days == old(db.days) && db.items == old(db.items) && db.notifications == old(db.notifications)
    ensures r.Ok? ==> ValidateCreateItem(body).None? && ItemPlaced(r.value, db, tripId, userId, body, parseDate)
    ensures r.Ok? ==> DaysAfterLookup(old(db.days), db.days, tripId, body, parseDate)
  {
    var auth := Authorize(db.members, tripId, userId, unlockAll, Some([Organizer]));
    if auth.Err? {
      return Err(auth.error);
    }
    var invalid := ValidateCreateItem(body);
    if invalid.Some? {
      return Err(BadRequest(invalid));
    }
    assert (tripId, userId) in db.members;
    r := PlaceItem(db, tripId, userId, body, parseDate);
  }

  /**
   * The new item `id` is the last row, on a day `d` of the trip that the
   * body names, and every active member but its creator has been told.
   */
  twostate predicate ItemPlaced(id: nat, db: Db, tripId: TripId, userId: UserId, body: Body,
                                parseDate: Json -> Option<Time>)
    reads db
  {
    && id == |old(db.items)|
    && exists d :: && ItemDay(db.days, d, tripId, body, parseDate)
                   && db.items == old(db.items) + [NewItem(tripId, IdString(d), body, userId)]
                   && FanOut(old(db.notifications), db.notifications, db.members, tripId, AllRoles, Some(userId),
                             "itinerary_item_created", CreatedPayload(id, body, d))
  }

  /** The part of `POST /items` after validation: the day lookup, the insert and the fan-out. */
  method PlaceItem(db: Db, tripId: TripId, userId: UserId, body: Body, parseDate: Json -> Option<Time>)
    returns (r: Result<nat>)
    requires db.Valid() && tripId < |db.trips|
    requires ValidateCreateItem(body).None?
    modifies db`days, db`items, db`notifications
    ensures db.Valid()
    ensures r.Err? <==> DayError(old(db.days), tripId, body, parseDate).Some?
    ensures r.Err? ==> r.error == DayError(old(db.days), tripId, body, parseDate).value
                       && db.days == old(db.days) && db.items == old(db.items) && db.notifications == old(db.notifications)
    ensures r.Ok? ==> ItemPlaced(r.value, db, tripId, userId, body, parseDate)
    ensures r.Ok? ==> DaysAfterLookup(old(db.days), db.days, tripId, body, parseDate)
  {
    var day := ResolveDay(db, tripId, body, parseDate);
    if day.Err? {
      return Err(day.error);
    }
    var id := StoreItem(db, tripId, userId, body, day.value);
    r := Ok(id);
  }

  /** The payload of the `itinerary_item_created` notifications. */
  function CreatedPayload(itemId: nat, body: Body, d: nat): Json {
    JObj(map["itemId" := IdJson(itemId), "title" := JStr(TrimmedField(body, "title")), "dayId" := IdJson(d)])
  }

  /** The insert and the fan-out that end `POST /items`, once the day `d` is known. */
  method StoreItem(db: Db, tripId: TripId, userId: UserId, body: Body, d: nat) returns (id: nat)
    requires db.Valid()
    modifies db`items, db`notifications
    ensures db.Valid()
    ensures id == |old(db.items)|
    ensures db.items == old(db.items) + [NewItem(tripId, IdString(d), body, userId)]
    ensures FanOut(old(db.notifications), db.notifications, db.members, tripId, AllRoles, Some(userId),
                   "itinerary_item_created", CreatedPayload(id, body, d))
  {
    id := |db.items|;
    db.items := db.items + [NewItem(tripId, IdString(d), body, userId)];
    NotifyTripMembers(db, tripId, Some(userId), "itinerary_item_created", CreatedPayload(id, body, d));
  }

  // ---------------------------------------------------------------------
  // Proposing a change

  /**
   * `POST /items/:itemId/change-requests` (any member): stores a pending
   * request and notifies each active organizer and co-organizer other than
   * the requester.
   */
  method CreateChangeRequest(db: Db, tripId: TripId, userId: UserId, itemId: nat, body: Body)
    returns (r: Result<nat>)
    requires db.Valid()
    modifies db`changeRequests, db`notifications
    ensures db.Valid()
    ensures DecisionsFinal(old(db.changeRequests), db.changeRequests)
    ensures !IsActiveMember(db.members, tripId, userId) ==> r.Err? && r.error.status == 404
    ensures r.Err? ==> db.changeRequests == old(db.changeRequests) && db.notifications == old(db.notifications)
    ensures IsActiveMember(db.members, tripId, userId) && !ProposedPatchOk(body) ==> r.Err? && r.error.status == 400
    ensures IsActiveMember(db.members, tripId, userId) && ValidatorString(Field(body, "proposed_patch")) == "" ==>
              r == Err(BadRequest(Some("proposed_patch required")))
    ensures (IsActiveMember(db.members, tripId, userId) && ValidatorString(Field(body, "proposed_patch")) != ""
             && !body["proposed_patch"].JObj?) ==> r == Err(BadRequest(Some("proposed_patch must be an object")))
    ensures (IsActiveMember(db.members, tripId, userId) && "proposed_patch" in body && body["proposed_patch"].JObj?
             && (exists k :: k in body["proposed_patch"].fields && k !in AllowedPatchKeys)) ==>
              exists ks :: InvalidKeyList(ks, body["proposed_patch"].fields) && ks != []
                           && r == Err(BadRequest(Some("Invalid keys in proposed_patch: " + JoinWith(ks, ", "))))
    ensures (IsActiveMember(db.members, tripId, userId) && ProposedPatchOk(body)
             && !ItemFound(db.items, itemId, tripId)) ==> r == Err(NotFound(Some("Item not found")))
    ensures r.Ok? <==> IsActiveMember(db.members, tripId, userId) && ProposedPatchOk(body)
                       && ItemFound(db.items, itemId, tripId)
    ensures r.Ok? ==>
      && r.value == |old(db.changeRequests)|
      && db.changeRequests == old(db.changeRequests)
           + [ChangeRequest(tripId, itemId, userId, body["proposed_patch"].fields, Pending, None, None)]
      && FanOut(old(db.notifications), db.notifications, db.members, tripId, {Organizer, CoOrganizer}, Some(userId),
                "change_request_submitted", SubmittedPayload(r.value, itemId, db.items[itemId].title))
  {
    var auth := Authorize(db.members, tripId, userId, None, None);
    if auth.Err? {
      return Err(auth.error);
    }
    var invalid := ValidateProposedPatch(Field(body, "proposed_patch"));
    if invalid.Some? {
      return Err(BadRequest(invalid));
    }
    if !ItemFound(db.items, itemId, tripId) {
      return Err(NotFound(Some("Item not found")));
    }
    var id := |db.changeRequests|;
    var patch := body["proposed_patch"].fields;
    db.changeRequests := db.changeRequests + [ChangeRequest(tripId, itemId, userId, patch, Pending, None, None)];
    var payload := SubmittedPayload(id, itemId, db.items[itemId].title);
    NotifyOrganizers(db, tripId, userId, "change_request_submitted", payload);
    r := Ok(id);
  }

  /**
   * The end of `POST /items/:itemId/change-requests`: one `notifyUser` per
   * active organizer and co-organizer of the trip, skipping `requester`.
   */
  method NotifyOrganizers(db: Db, tripId: TripId, requester: UserId, kind: string, payload: Json)
    modifies db`notifications
    ensures FanOut(old(db.notifications), db.notifications, db.members, tripId, {Organizer, CoOrganizer},
                   Some(requester), kind, payload)
  {
    var organizers := FindRecipients(db.members, tripId, {Organizer, CoOrganizer}, None);
    var i := 0;
    ghost var sent: seq<UserId> := [];
    while i < |organizers|
      invariant 0 <= i <= |organizers|
      invariant db.notifications == old(db.notifications) + Records(sent, tripId, kind, payload)
      invariant forall a, b :: 0 <= a < b < |sent| ==> sent[a] != sent[b]
      invariant forall u :: u in sent <==> u in organizers[..i] && u != requester
    {
      var o := organizers[i];
      assert organizers[..i + 1] == organizers[..i] + [o];
      assert o !in organizers[..i];
      if o != requester {
        assert Records(sent + [o], tripId, kind, payload)
            == Records(sent, tripId, kind, payload) + [Notification(o, tripId, kind, payload, None)];
        NotifyUser(db, o, tripId, kind, payload);
        sent := sent + [o];
      }
      i := i + 1;
    }
    assert organizers[..i] == organizers;
    assert db.notifications[|old(db.notifications)|..] == Records(sent, tripId, kind, payload);
  }

  /** The request body passes `changeRequestValidators`. */
  predicate ProposedPatchOk(body: Body) {
    && "proposed_patch" in body && body["proposed_patch"].JObj?
    && forall k :: k in body["proposed_patch"].fields ==> k in AllowedPatchKeys
  }

  function SubmittedPayload(requestId: nat, itemId: nat, title: Json): Json {
    JObj(map["requestId" := IdJson(requestId), "itemId" := IdJson(itemId), "title" := title])
  }
}
