/**
 * Trip announcements: posting one (organizers and co-organizers, who tell
 * every other member), pinning and unpinning, and the newest-first list.
 */
module Announcements {
  import opened Wrappers
  import opened Json
  import opened Strings
  import opened Errors
  import opened Rbac
  import opened Store
  import opened Notify
  import opened Validators

  /** `title != null ? String(title).trim() || null : null`. */
  function Title(v: Option<Json>): (t: Option<string>)
    ensures t.None? <==> IsNullish(v) || IsBlank(ToJsString(v.value))
    ensures t.Some? ==> t.value != "" && Trim(t.value) == t.value && t.value == Trim(ToJsString(v.value))
  {
    if IsNullish(v) then None
    else
      var s := Trim(ToJsString(v.value));
      TrimEmptyIffBlank(ToJsString(v.value));
      TrimIdempotent(ToJsString(v.value));
      if s == "" then None else Some(s)
  }

  /** The row `POST /announcements` creates; `body` is the trimmed, non-empty text. */
  function NewAnnouncement(tripId: TripId, userId: UserId, body: Body): (a: Announcement)
    requires TrimmedField(body, "body") != ""
    ensures a.body != "" && Trim(a.body) == a.body
    ensures !IsNullish(Field(body, "body")) && a.body == Trim(ToJsString(body["body"]))
    ensures a.title == Title(Field(body, "title"))
    ensures a.tripId == tripId && a.createdBy == userId && !a.pinned
  {
    TrimIdempotent(ValidatorString(Field(body, "body")));
    Announcement(tripId, Title(Field(body, "title")), TrimmedField(body, "body"), userId, false)
  }

  /** The payload of the `announcement_posted` notification. */
  function PostedPayload(id: nat, title: Option<string>): Json {
    JObj(map["announcementId" := IdJson(id), "title" := if title.Some? then JStr(title.value) else JNull])
  }

  /**
   * `POST /announcements` (organizers and co-organizers): a blank body is
   * 400 "body required"; otherwise the announcement is stored and every
   * other active member is notified.
   */
  method Create(db: Db, tripId: TripId, userId: UserId, unlockAll: Option<string>, body: Body)
    returns (r: Result<nat>)
    modifies db`announcements, db`notifications
    ensures var auth := Authorize(db.members, tripId, userId, unlockAll, Some([Organizer, CoOrganizer]));
      && (auth.Err? ==> r == Err(auth.error))
      && (auth.Ok? && TrimmedField(body, "body") == "" ==> r == Err(BadRequest(Some("body required"))))
      && (r.Ok? <==> auth.Ok? && TrimmedField(body, "body") != "")
    ensures r.Err? ==> db.announcements == old(db.announcements) && db.notifications == old(db.notifications)
    ensures r.Ok? ==>
      && r.value == |old(db.announcements)|
      && db.announcements == old(db.announcements) + [NewAnnouncement(tripId, userId, body)]
      && FanOut(old(db.notifications), db.notifications, db.members, tripId, AllRoles, Some(userId),
                "announcement_posted", PostedPayload(r.value, Title(Field(body, "title"))))
  {
    var auth := Authorize(db.members, tripId, userId, unlockAll, Some([Organizer, CoOrganizer]));
    if auth.Err? {
      return Err(auth.error);
    }
    if TrimmedField(body, "body") == "" {
      return Err(BadRequest(Some("body required")));
    }
    var id := |db.announcements|;
    var ann := NewAnnouncement(tripId, userId, body);
    db.announcements := db.announcements + [ann];
    NotifyTripMembers(db, tripId, Some(userId), "announcement_posted", PostedPayload(id, ann.title));
    r := Ok(id);
  }

  /** `pinned === true || pinned === 'true'`: only the boolean true and the text 'true' pin. */
  function PinnedValue(v: Option<Json>): (b: bool)
    ensures b ==> v.Some? && ToJsString(v.value) == "true"
    ensures v.Some? && v.value.JBool? ==> b == v.value.b
    ensures v.Some? && v.value.JStr? ==> (b <==> v.value.s == "true")
    ensures v.None? || v.value.JNull? || v.value.JNum? || v.value.JArr? || v.value.JObj? ==> !b
  {
    v == Some(JBool(true)) || v == Some(JStr("true"))
  }

  /**
   * The announcement table after setting announcement `id` of the trip to
   * `pinned`: 404 "Announcement not found" when it is missing or of
   * another trip; otherwise only its `pinned` flag changes.
   */
  function SetPinned(anns: seq<Announcement>, tripId: TripId, id: nat, pinned: bool): (r: Result<seq<Announcement>>)
    ensures r.Err? <==> id >= |anns| || anns[id].tripId != tripId
    ensures r.Err? ==> r.error == NotFound(Some("Announcement not found"))
    ensures r.Ok? ==> |r.value| == |anns| && r.value[id] == anns[id].(pinned := pinned)
    ensures r.Ok? ==> forall i :: 0 <= i < |anns| && i != id ==> r.value[i] == anns[i]
  {
    if id >= |anns| || anns[id].tripId != tripId then Err(NotFound(Some("Announcement not found")))
    else Ok(anns[id := anns[id].(pinned := pinned)])
  }

  /** Pinning is a plain assignment: the last request wins, and repeating it changes nothing. */
  lemma SetPinnedLastWins(anns: seq<Announcement>, tripId: TripId, id: nat, p: bool, q: bool)
    requires SetPinned(anns, tripId, id, p).Ok?
    ensures SetPinned(SetPinned(anns, tripId, id, p).value, tripId, id, q) == SetPinned(anns, tripId, id, q)
  {
    var once := SetPinned(anns, tripId, id, p).value;
    assert once[id := once[id].(pinned := q)] == anns[id := anns[id].(pinned := q)];
  }

  /** `PATCH /announcements/:id/pin` (organizers and co-organizers). */
  method Pin(db: Db, tripId: TripId, userId: UserId, unlockAll: Option<string>, id: nat, body: Body)
    returns (r: Result<Announcement>)
    modifies db`announcements
    ensures var auth := Authorize(db.members, tripId, userId, unlockAll, Some([Organizer, CoOrganizer]));
      && (auth.Err? ==> r == Err(auth.error) && db.announcements == old(db.announcements))
      && (auth.Ok? ==>
            var p := SetPinned(old(db.announcements), tripId, id, PinnedValue(Field(body, "pinned")));
            && (p.Err? ==> r == Err(p.error) && db.announcements == old(db.announcements))
            && (p.Ok? ==> db.announcements == p.value && r == Ok(db.announcements[id])))
  {
    var auth := Authorize(db.members, tripId, userId, unlockAll, Some([Organizer, CoOrganizer]));
    if auth.Err? {
      return Err(auth.error);
    }
    var pinned := PinnedValue(Field(body, "pinned"));
    if id >= |db.announcements| || db.announcements[id].tripId != tripId {
      return Err(NotFound(Some("Announcement not found")));
    }
    db.announcements := db.announcements[id := db.announcements[id].(pinned := pinned)];
    r := Ok(db.announcements[id]);
  }

  /** The ids of the trip's announcements, newest first (announcements are stored in creation order). */
  function ListAnnouncements(anns: seq<Announcement>, tripId: TripId): (ids: seq<nat>)
    ensures forall i :: 0 <= i < |ids| ==> ids[i] < |anns| && anns[ids[i]].tripId == tripId
    ensures forall k :: 0 <= k < |anns| && anns[k].tripId == tripId ==> k in ids
    ensures forall i, j :: 0 <= i < j < |ids| ==> ids[i] > ids[j]
    decreases |anns|
  {
    if anns == [] then []
    else
      var n := |anns| - 1;
      var rest := ListAnnouncements(anns[..n], tripId);
      if anns[n].tripId == tripId then [n] + rest else rest
  }

  /** A newly posted announcement heads its trip's list. */
  lemma {:induction false} PostedFirst(anns: seq<Announcement>, a: Announcement)
    ensures ListAnnouncements(anns + [a], a.tripId) == [|anns|] + ListAnnouncements(anns, a.tripId)
  {
    assert (anns + [a])[..|anns|] == anns;
  }

  /** `GET /announcements` (any member). */
  method List(db: Db, tripId: TripId, userId: UserId) returns (r: Result<seq<nat>>)
    ensures r.Ok? <==> IsActiveMember(db.members, tripId, userId)
    ensures r.Err? ==> r.error == NotFound(Some("Trip not found or you are not a member"))
    ensures r.Ok? ==> r.value == ListAnnouncements(db.announcements, tripId)
  {
    var auth := Authorize(db.members, tripId, userId, None, None);
    if auth.Err? {
      return Err(auth.error);
    }
    return Ok(ListAnnouncements(db.announcements, tripId));
  }
}
