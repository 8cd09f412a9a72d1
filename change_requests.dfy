/**
 * The change-request routes: listing a trip's requests and the organizer's
 * decision on one of them. A request is `pending` until an organizer
 * approves it (its patch is copied onto the item and the request is marked
 * decided, as one transaction) or denies it (only the request changes).
 */
module ChangeRequests {
  import opened Wrappers
  import opened Json
  import opened Errors
  import opened Rbac
  import opened Store
  import opened Notify

  /** The text `applyPatch` writes for key `k`: an array `externalLinks` as JSON text, anything else as given. */
  function PatchCell(k: string, v: Json): (c: Cell)
    ensures c.Encoded? <==> k == "externalLinks" && v.JArr?
    ensures c.Encoded? ==> c.doc == v
    ensures c.Plain? ==> c.v == v
  {
    if k == "externalLinks" && v.JArr? then Encoded(v) else Plain(v)
  }

  /**
   * The update `applyPatch` builds from a proposed patch: one column per
   * allowed key the patch defines, unknown keys dropped, null copied (so it
   * clears the column).
   */
  function PatchData(patch: map<string, Json>): (data: map<string, Cell>)
    ensures ItemData(data)
  {
    map k | k in patch && k in AllowedPatchKeys :: PatchCell(k, patch[k])
  }

  /** The update holds exactly the allowed keys the patch defines, each with its patch value. */
  lemma PatchDataKeys(patch: map<string, Json>)
    ensures forall k :: k in PatchData(patch) <==> k in patch && k in AllowedPatchKeys
    ensures forall k :: k in PatchData(patch) ==> PatchData(patch)[k] == PatchCell(k, patch[k])
  {
  }

  /** `applyPatch`: fills `data` key by key in the order of the allow-list. */
  method ApplyPatch(patch: map<string, Json>) returns (data: map<string, Cell>)
    ensures data == PatchData(patch)
  {
    data := map[];
    var i := 0;
    while i < |AllowedPatchKeys|
      invariant 0 <= i <= |AllowedPatchKeys|
      invariant data == map k | k in patch && k in AllowedPatchKeys[..i] :: PatchCell(k, patch[k])
    {
      var k := AllowedPatchKeys[i];
      assert AllowedPatchKeys[..i + 1] == AllowedPatchKeys[..i] + [k];
      if k in patch {
        if k == "externalLinks" {
          data := data[k := if patch[k].JArr? then Encoded(patch[k]) else Plain(patch[k])];
        } else {
          data := data[k := Plain(patch[k])];
        }
      }
      i := i + 1;
    }
    assert AllowedPatchKeys[..i] == AllowedPatchKeys;
  }

  /** Approving copies each allowed patch value onto the item and leaves every column the patch does not name. */
  lemma ApprovalWritesPatch(it: Item, patch: map<string, Json>, approver: UserId)
    ensures var r := UpdateItem(it, PatchData(patch), approver);
      && r.updatedBy == approver && r.tripId == it.tripId
      && (forall k :: k in AllowedPatchKeys && k in patch ==> ColumnOf(r, k) == PatchCell(k, patch[k]))
      && (forall k :: k in ItemColumns && k !in patch ==> ColumnOf(r, k) == ColumnOf(it, k))
      && ColumnOf(r, "dayId") == ColumnOf(it, "dayId")
  {
    var data := PatchData(patch);
    PatchDataKeys(patch);
    UpdateItemColumns(it, data, approver);
    assert "dayId" !in data;
  }

  /** The request `requestId` exists and belongs to the trip (`findFirst({ where: { id, tripId } })`). */
  predicate Found(crs: seq<ChangeRequest>, requestId: nat, tripId: TripId) {
    requestId < |crs| && crs[requestId].tripId == tripId
  }

  /** The request after the decision: its status and who decided when. */
  function Decide(cr: ChangeRequest, status: RequestStatus, decider: UserId, now: Time): (d: ChangeRequest)
    requires status != Pending
    ensures Decided(d) && d.status == status
    ensures d.tripId == cr.tripId && d.itemId == cr.itemId && d.requestedBy == cr.requestedBy
    ensures d.proposedPatch == cr.proposedPatch
  {
    cr.(status := status, decidedBy := Some(decider), decidedAt := Some(now))
  }

  /** The payload of the approval notifications: the request, the item and the item's title before the update. */
  function ApprovalPayload(requestId: nat, cr: ChangeRequest, title: Json): Json {
    JObj(map["requestId" := IdJson(requestId), "itemId" := IdJson(cr.itemId), "title" := title])
  }

  function DenialPayload(requestId: nat, cr: ChangeRequest): Json {
    JObj(map["requestId" := IdJson(requestId), "itemId" := IdJson(cr.itemId)])
  }

  /**
   * `POST /:requestId/approve` (organizers only). The item update and the
   * request update are one step; then the requester is told, and then every
   * active member (nobody excluded).
   */
  method Approve(db: Db, tripId: TripId, userId: UserId, unlockAll: Option<string>, requestId: nat, now: Time)
    returns (r: Result<ChangeRequest>)
    requires db.Valid()
    modifies db`items, db`changeRequests, db`notifications
    ensures db.Valid()
    ensures DecisionsFinal(old(db.changeRequests), db.changeRequests)
    ensures var auth := Authorize(db.members, tripId, userId, unlockAll, Some([Organizer]));
      && (auth.Err? ==> r == Err(auth.error))
      && (auth.Ok? && !Found(old(db.changeRequests), requestId, tripId) ==>
            r == Err(NotFound(Some("Change request not found"))))
      && (auth.Ok? && Found(old(db.changeRequests), requestId, tripId)
            && old(db.changeRequests[requestId]).status != Pending ==>
            r == Err(BadRequest(Some("Request already decided"))))
      && (r.Ok? <==> auth.Ok? && Found(old(db.changeRequests), requestId, tripId)
                     && old(db.changeRequests[requestId]).status == Pending)
    ensures (IsActiveMember(db.members, tripId, userId) && !Unlocked(unlockAll)
             && db.members[(tripId, userId)].role != Organizer) ==> r == Err(Forbidden(Some("Insufficient role")))
    ensures r.Err? ==> db.items == old(db.items) && db.changeRequests == old(db.changeRequests)
                       && db.notifications == old(db.notifications)
    ensures r.Ok? ==>
      var cr := old(db.changeRequests[requestId]);
      var payload := ApprovalPayload(requestId, cr, old(db.items[cr.itemId]).title);
      && db.changeRequests == old(db.changeRequests)[requestId := Decide(cr, Approved, userId, now)]
      && db.items == old(db.items)[cr.itemId := UpdateItem(old(db.items[cr.itemId]), PatchData(cr.proposedPatch), userId)]
      && FanOut(old(db.notifications) + [Notification(cr.requestedBy, tripId, "change_request_approved", payload, None)],
                db.notifications, db.members, tripId, AllRoles, None, "itinerary_updated", payload)
      && r.value == db.changeRequests[requestId]
  {
    var auth := Authorize(db.members, tripId, userId, unlockAll, Some([Organizer]));
    if auth.Err? {
      return Err(auth.error);
    }
    if !Found(db.changeRequests, requestId, tripId) {
      return Err(NotFound(Some("Change request not found")));
    }
    var cr := db.changeRequests[requestId];
    if cr.status != Pending {
      return Err(BadRequest(Some("Request already decided")));
    }
    var decided := RecordApproval(db, tripId, userId, requestId, now);
    r := Ok(decided);
  }

  /**
   * The approval proper, once the request is known to be pending: the item
   * update and the request update as one transaction, then the requester's
   * notification and the fan-out to every active member.
   */
  method RecordApproval(db: Db, tripId: TripId, userId: UserId, requestId: nat, now: Time)
    returns (decided: ChangeRequest)
    requires db.Valid() && Found(db.changeRequests, requestId, tripId)
    requires db.changeRequests[requestId].status == Pending
    modifies db`items, db`changeRequests, db`notifications
    ensures db.Valid()
    ensures DecisionsFinal(old(db.changeRequests), db.changeRequests)
    ensures var cr := old(db.changeRequests[requestId]);
      var payload := ApprovalPayload(requestId, cr, old(db.items[cr.itemId]).title);
      && db.changeRequests == old(db.changeRequests)[requestId := Decide(cr, Approved, userId, now)]
      && db.items == old(db.items)[cr.itemId := UpdateItem(old(db.items[cr.itemId]), PatchData(cr.proposedPatch), userId)]
      && FanOut(old(db.notifications) + [Notification(cr.requestedBy, tripId, "change_request_approved", payload, None)],
                db.notifications, db.members, tripId, AllRoles, None, "itinerary_updated", payload)
      && decided == db.changeRequests[requestId]
  {
    var cr := db.changeRequests[requestId];
    var item := db.items[cr.itemId];
    var data := ApplyPatch(cr.proposedPatch);
    db.items := db.items[cr.itemId := UpdateItem(item, data, userId)];
    db.changeRequests := db.changeRequests[requestId := Decide(cr, Approved, userId, now)];
    var payload := ApprovalPayload(requestId, cr, item.title);
    NotifyUser(db, cr.requestedBy, tripId, "change_request_approved", payload);
    NotifyTripMembers(db, tripId, None, "itinerary_updated", payload);
    decided := db.changeRequests[requestId];
  }

  /** `POST /:requestId/deny` (organizers only): only the request changes, then the requester is told. */
  method Deny(db: Db, tripId: TripId, userId: UserId, unlockAll: Option<string>, requestId: nat, now: Time)
    returns (r: Result<ChangeRequest>)
    requires db.Valid()
    modifies db`changeRequests, db`notifications
    ensures db.Valid()
    ensures DecisionsFinal(old(db.changeRequests), db.changeRequests)
    ensures var auth := Authorize(db.members, tripId, userId, unlockAll, Some([Organizer]));
      && (auth.Err? ==> r == Err(auth.error))
      && (auth.Ok? && !Found(old(db.changeRequests), requestId, tripId) ==>
            r == Err(NotFound(Some("Change request not found"))))
      && (auth.Ok? && Found(old(db.changeRequests), requestId, tripId)
            && old(db.changeRequests[requestId]).status != Pending ==>
            r == Err(BadRequest(Some("Request already decided"))))
      && (r.Ok? <==> auth.Ok? && Found(old(db.changeRequests), requestId, tripId)
                     && old(db.changeRequests[requestId]).status == Pending)
    ensures (IsActiveMember(db.members, tripId, userId) && !Unlocked(unlockAll)
             && db.members[(tripId, userId)].role != Organizer) ==> r == Err(Forbidden(Some("Insufficient role")))
    ensures r.Err? ==> db.changeRequests == old(db.changeRequests) && db.notifications == old(db.notifications)
    ensures r.Ok? ==>
      var cr := old(db.changeRequests[requestId]);
      && db.changeRequests == old(db.changeRequests)[requestId := Decide(cr, Denied, userId, now)]
      && db.notifications == old(db.notifications)
           + [Notification(cr.requestedBy, tripId, "change_request_denied", DenialPayload(requestId, cr), None)]
      && r.value == db.changeRequests[requestId]
  {
    var auth := Authorize(db.members, tripId, userId, unlockAll, Some([Organizer]));
    if auth.Err? {
      return Err(auth.error);
    }
    if !Found(db.changeRequests, requestId, tripId) {
      return Err(NotFound(Some("Change request not found")));
    }
    var cr := db.changeRequests[requestId];
    if cr.status != Pending {
      return Err(BadRequest(Some("Request already decided")));
    }
    db.changeRequests := db.changeRequests[requestId := Decide(cr, Denied, userId, now)];
    NotifyUser(db, cr.requestedBy, tripId, "change_request_denied", DenialPayload(requestId, cr));
    r := Ok(db.changeRequests[requestId]);
  }

  /** The list query's `where`: this trip, and the given status when the `status` query value is non-empty. */
  predicate Listed(cr: ChangeRequest, tripId: TripId, status: Option<string>) {
    cr.tripId == tripId && (status.None? || status.value == "" || StatusName(cr.status) == status.value)
  }

  /** The ids of the listed requests, newest first (requests are stored in creation order). */
  function ListRequests(crs: seq<ChangeRequest>, tripId: TripId, status: Option<string>): (ids: seq<nat>)
    ensures forall i :: 0 <= i < |ids| ==> ids[i] < |crs| && Listed(crs[ids[i]], tripId, status)
    ensures forall k :: 0 <= k < |crs| && Listed(crs[k], tripId, status) ==> k in ids
    ensures forall i, j :: 0 <= i < j < |ids| ==> ids[i] > ids[j]
    decreases |crs|
  {
    if crs == [] then []
    else
      var n := |crs| - 1;
      var rest := ListRequests(crs[..n], tripId, status);
      if Listed(crs[n], tripId, status) then [n] + rest else rest
  }

  /** `GET /` (any member): the trip's requests, optionally of one status, newest first. */
  method List(db: Db, tripId: TripId, userId: UserId, status: Option<string>) returns (r: Result<seq<nat>>)
    ensures r.Ok? <==> IsActiveMember(db.members, tripId, userId)
    ensures r.Err? ==> r.error.status == 404
    ensures r.Ok? ==> r.value == ListRequests(db.changeRequests, tripId, status)
  {
    var auth := Authorize(db.members, tripId, userId, None, None);
    if auth.Err? {
      return Err(auth.error);
    }
    return Ok(ListRequests(db.changeRequests, tripId, status));
  }
}
