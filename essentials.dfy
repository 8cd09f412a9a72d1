/**
 * A trip's essentials: one row per trip of list, text and section
 * columns. Reading creates the default row when there is none; a PATCH
 * (organizers and co-organizers) coerces each supplied field, then creates
 * or updates the row, and tells the other members.
 */
module Essentials {
  import opened Wrappers
  import opened Json
  import opened Strings
  import opened Errors
  import opened Rbac
  import opened Store
  import opened Notify
  import opened Validators

  /** Columns holding a JSON array, by the request field that writes them. */
  const ListColumns: set<string> := {"meeting_points", "emergency_contacts", "key_links", "packing_list"}

  /** Free-text columns, null when empty. */
  const TextColumns: set<string> :=
    {"house_rules", "hotel_information", "flight_information", "destination_rules", "lodging_details"}

  /** Columns holding a JSON object. */
  const SectionColumns: set<string> :=
    {"travel_details", "documents_info", "safety_health", "local_info", "planning_info", "personal_info",
     "group_features"}

  const Columns: set<string> := ListColumns + TextColumns + SectionColumns

  /** No column is of two kinds. */
  lemma ColumnKindsDisjoint()
    ensures ListColumns * TextColumns == {} && ListColumns * SectionColumns == {}
    ensures TextColumns * SectionColumns == {}
  {
  }

  /** `normalizeObjectJson`: the JSON text of an object, '{}' for null, arrays and every other value. */
  function NormalizeObjectJson(v: Json): (c: Cell)
    ensures c.Encoded? && c.doc.JObj?
    ensures v.JObj? ==> c == Encoded(v)
    ensures !v.JObj? ==> c == Encoded(EmptyObject)
  {
    if !Truthy(v) || !IsObjectType(v) || v.JArr? then Encoded(EmptyObject) else Encoded(v)
  }

  /** `JSON.stringify(Array.isArray(v) ? v : [])`: a list column always holds an array. */
  function ListColumn(v: Json): (c: Cell)
    ensures c.Encoded? && c.doc.JArr?
    ensures v.JArr? ==> c == Encoded(v)
    ensures !v.JArr? ==> c == Encoded(EmptyArray)
  {
    Encoded(if v.JArr? then v else EmptyArray)
  }

  /** `v == null ? null : String(v).trim() || null`: null stays null, blank text becomes null. */
  function TextColumn(v: Json): (c: Cell)
    ensures c.Plain?
    ensures c.v == JNull <==> v.JNull? || Trim(ToJsString(v)) == ""
    ensures c.v != JNull ==> c.v == JStr(Trim(ToJsString(v))) && c.v.s != "" && Trim(c.v.s) == c.v.s
  {
    if v.JNull? then Plain(JNull) else Plain(TrimmedOrNull(v))
  }

  /** What the PATCH writes to column `k` for the supplied value `v`. */
  function Coerce(k: string, v: Json): Cell
    requires k in Columns
  {
    if k in ListColumns then ListColumn(v)
    else if k in TextColumns then TextColumn(v)
    else NormalizeObjectJson(v)
  }

  /** The `data` object of the PATCH: one coerced entry per column the body supplies. */
  function PatchData(body: Body): (data: map<string, Cell>)
    ensures data.Keys == body.Keys * Columns
  {
    map k | k in body.Keys * Columns :: Coerce(k, body[k])
  }

  /** What a column of a well-formed row may hold. */
  predicate WellFormedCell(k: string, c: Cell) {
    && (k in ListColumns ==> c.Encoded? && c.doc.JArr?)
    && (k in SectionColumns ==> c.Encoded? && c.doc.JObj?)
    && (k in TextColumns ==> c.Plain? && (c.v == JNull || (c.v.JStr? && c.v.s != "" && Trim(c.v.s) == c.v.s)))
  }

  /** Every column is present and holds what its kind allows. */
  predicate RowWellFormed(row: Essentials) {
    row.Keys == Columns && forall k :: k in row ==> WellFormedCell(k, row[k])
  }

  /** A coerced value always suits its column. */
  lemma CoerceWellFormed(k: string, v: Json)
    requires k in Columns
    ensures WellFormedCell(k, Coerce(k, v))
  {
    ColumnKindsDisjoint();
  }

  /** The value a column takes when the row is created without it. */
  function DefaultCell(k: string): Cell {
    if k in ListColumns then Encoded(EmptyArray)
    else if k in SectionColumns then Encoded(EmptyObject)
    else Plain(JNull)
  }

  /** The row the GET creates: '[]' for lists, '{}' for sections, null text. */
  function DefaultRow(): (row: Essentials)
    ensures RowWellFormed(row)
  {
    ColumnKindsDisjoint();
    map k | k in Columns :: DefaultCell(k)
  }

  /**
   * The row after a PATCH with `data`: the update of the existing row, or
   * (`existing` None) the created row, which takes the default for every
   * column `data` leaves out.
   */
  function Upsert(existing: Option<Essentials>, data: map<string, Cell>): (row: Essentials)
    ensures forall k :: k in data ==> k in row && row[k] == data[k]
    ensures existing.Some? ==> forall k :: k in existing.value && k !in data ==> k in row && row[k] == existing.value[k]
    ensures existing.None? ==> forall k :: k in Columns && k !in data ==> k in row && row[k] == DefaultCell(k)
  {
    (if existing.None? then DefaultRow() else existing.value) + data
  }

  /** A PATCH keeps a well-formed row well formed, and creates a well-formed one. */
  lemma PatchKeepsRowWellFormed(existing: Option<Essentials>, body: Body)
    requires existing.Some? ==> RowWellFormed(existing.value)
    ensures RowWellFormed(Upsert(existing, PatchData(body)))
  {
    var row := Upsert(existing, PatchData(body));
    forall k | k in row
      ensures WellFormedCell(k, row[k])
    {
      if k in PatchData(body) {
        CoerceWellFormed(k, body[k]);
      }
    }
  }

  /** Only the columns the body supplies change. */
  lemma PatchTouchesOnlyGivenFields(row: Essentials, body: Body, k: string)
    requires k in row
    ensures k in Upsert(Some(row), PatchData(body))
    ensures k !in body ==> Upsert(Some(row), PatchData(body))[k] == row[k]
    ensures k in body && k in Columns ==> Upsert(Some(row), PatchData(body))[k] == Coerce(k, body[k])
  {
  }

  /** Sending the same PATCH twice leaves the row as after the first. */
  lemma PatchIdempotent(existing: Option<Essentials>, body: Body)
    ensures Upsert(Some(Upsert(existing, PatchData(body))), PatchData(body)) == Upsert(existing, PatchData(body))
  {
    var d := PatchData(body);
    var once := Upsert(existing, d);
    assert Upsert(Some(once), d) == once + d;
    assert once + d == once;
  }

  /** A PATCH of a trip without a row gives the same row as a GET (which creates the default) followed by the PATCH. */
  lemma PatchCreatesLikeGetThenPatch(data: map<string, Cell>)
    ensures Upsert(None, data) == Upsert(Some(DefaultRow()), data)
  {
  }

  /** `GET /essentials` (any member): the trip's row, created with the defaults when missing. */
  method Get(db: Db, tripId: TripId, userId: UserId) returns (r: Result<Essentials>)
    modifies db`essentials
    ensures var auth := Authorize(db.members, tripId, userId, None, None);
      && (auth.Err? ==> r == Err(auth.error) && db.essentials == old(db.essentials))
      && (auth.Ok? && tripId in old(db.essentials) ==> db.essentials == old(db.essentials))
      && (auth.Ok? && tripId !in old(db.essentials) ==> db.essentials == old(db.essentials)[tripId := DefaultRow()])
      && (auth.Ok? ==> tripId in db.essentials && r == Ok(db.essentials[tripId]))
  {
    var auth := Authorize(db.members, tripId, userId, None, None);
    if auth.Err? {
      return Err(auth.error);
    }
    if tripId !in db.essentials {
      db.essentials := db.essentials[tripId := DefaultRow()];
    }
    r := Ok(db.essentials[tripId]);
  }

  /** `PATCH /essentials` (organizers and co-organizers): create or update, then notify everyone else. */
  method Patch(db: Db, tripId: TripId, userId: UserId, unlockAll: Option<string>, body: Body)
    returns (r: Result<Essentials>)
    modifies db`essentials, db`notifications
    ensures var auth := Authorize(db.members, tripId, userId, unlockAll, Some([Organizer, CoOrganizer]));
      && (auth.Err? ==> r == Err(auth.error))
      && (r.Ok? <==> auth.Ok?)
    ensures r.Err? ==> db.essentials == old(db.essentials) && db.notifications == old(db.notifications)
    ensures r.Ok? ==>
      var existing := if tripId in old(db.essentials) then Some(old(db.essentials)[tripId]) else None;
      && db.essentials == old(db.essentials)[tripId := Upsert(existing, PatchData(body))]
      && r.value == db.essentials[tripId]
      && FanOut(old(db.notifications), db.notifications, db.members, tripId, AllRoles, Some(userId),
                "essentials_updated", EmptyObject)
  {
    var auth := Authorize(db.members, tripId, userId, unlockAll, Some([Organizer, CoOrganizer]));
    if auth.Err? {
      return Err(auth.error);
    }
    var data := PatchData(body);
    var existing := if tripId in db.essentials then Some(db.essentials[tripId]) else None;
    db.essentials := db.essentials[tripId := Upsert(existing, data)];
    NotifyTripMembers(db, tripId, Some(userId), "essentials_updated", EmptyObject);
    r := Ok(db.essentials[tripId]);
  }
}
