/**
 * Comments on itinerary items and announcements: the create validators,
 * the list filter, and the soft delete allowed to the author and to the
 * trip's organizers.
 */
module Comments {
  import opened Wrappers
  import opened Json
  import opened Strings
  import opened Errors
  import opened Rbac
  import opened Store
  import opened Validators

  /** `ENTITY_TYPES`: what a comment may be attached to. */
  const EntityTypes: set<string> := {"itinerary_item", "announcement"}

  /** The body passes every chain of `createCommentValidators`. */
  predicate CommentBodyOk(body: Body) {
    && ValidatorString(Field(body, "entity_type")) in EntityTypes
    && "entity_id" in body && body["entity_id"].JStr? && 0 < |body["entity_id"].s| <= 100
    && TrimmedField(body, "body") != "" && |TrimmedField(body, "body")| <= 10000
  }

  /**
   * `createCommentValidators` followed by `handleValidationErrors`: the
   * message of the first failing chain, or None when the body passes.
   */
  function ValidateComment(body: Body): (err: Option<string>)
    ensures err.None? <==> CommentBodyOk(body)
    ensures ValidatorString(Field(body, "entity_type")) !in EntityTypes ==>
              err == Some("entity_type must be itinerary_item or announcement")
    ensures ValidatorString(Field(body, "entity_type")) in EntityTypes && ValidatorString(Field(body, "entity_id")) == "" ==>
              err == Some("entity_id required")
    ensures ValidatorString(Field(body, "entity_type")) in EntityTypes && ValidatorString(Field(body, "entity_id")) != ""
            && (body["entity_id"].JStr? && |body["entity_id"].s| <= 100) && TrimmedField(body, "body") == "" ==>
              err == Some("body required")
  {
    var entityId := ValidatorString(Field(body, "entity_id"));
    var text := TrimmedField(body, "body");
    if ValidatorString(Field(body, "entity_type")) !in EntityTypes then
      Some("entity_type must be itinerary_item or announcement")
    else if entityId == "" then Some("entity_id required")
    else if !body["entity_id"].JStr? || |body["entity_id"].s| > 100 then Some("Invalid value")
    else if text == "" then Some("body required")
    else if |text| > 10000 then Some("Invalid value")
    else None
  }

  /** The row `POST /comments` creates for `userId` from a body that passed validation. */
  function NewComment(tripId: TripId, userId: UserId, body: Body): (c: Comment)
    requires CommentBodyOk(body)
    ensures c.entityType in EntityTypes && c.entityId == body["entity_id"].s
    ensures c.body != "" && Trim(c.body) == c.body && |c.body| <= 10000
    ensures c.tripId == tripId && c.userId == userId && c.deletedAt.None?
  {
    var text := TrimmedField(body, "body");
    TrimIdempotent(ValidatorString(Field(body, "body")));
    Comment(tripId, ValidatorString(Field(body, "entity_type")), body["entity_id"].s, userId, Trim(text), None)
  }

  /** `POST /comments` (any member): 201 with the new comment's id. */
  method Create(db: Db, tripId: TripId, userId: UserId, body: Body) returns (r: Result<nat>)
    modifies db`comments
    ensures var auth := Authorize(db.members, tripId, userId, None, None);
      && (auth.Err? ==> r == Err(auth.error))
      && (auth.Ok? && !CommentBodyOk(body) ==> r == Err(BadRequest(ValidateComment(body))))
      && (r.Ok? <==> auth.Ok? && CommentBodyOk(body))
    ensures r.Err? ==> db.comments == old(db.comments)
    ensures r.Ok? ==> r.value == |old(db.comments)| && db.comments == old(db.comments) + [NewComment(tripId, userId, body)]
  {
    var auth := Authorize(db.members, tripId, userId, None, None);
    if auth.Err? {
      return Err(auth.error);
    }
    var invalid := ValidateComment(body);
    if invalid.Some? {
      return Err(BadRequest(invalid));
    }
    r := Ok(|db.comments|);
    db.comments := db.comments + [NewComment(tripId, userId, body)];
  }

  /**
   * The list query's `where`: this trip, not deleted, and the entity type
   * and id when those query values are given and non-empty.
   */
  predicate Listed(c: Comment, tripId: TripId, entityType: Option<string>, entityId: Option<string>) {
    && c.tripId == tripId && c.deletedAt.None?
    && (entityType.None? || entityType.value == "" || c.entityType == entityType.value)
    && (entityId.None? || entityId.value == "" || c.entityId == entityId.value)
  }

  /** The ids of the listed comments, oldest first (comments are stored in creation order). */
  function ListComments(cs: seq<Comment>, tripId: TripId, entityType: Option<string>, entityId: Option<string>)
    : (ids: seq<nat>)
    ensures forall i :: 0 <= i < |ids| ==> ids[i] < |cs| && Listed(cs[ids[i]], tripId, entityType, entityId)
    ensures forall k :: 0 <= k < |cs| && Listed(cs[k], tripId, entityType, entityId) ==> k in ids
    ensures forall i, j :: 0 <= i < j < |ids| ==> ids[i] < ids[j]
    decreases |cs|
  {
    if cs == [] then []
    else
      var n := |cs| - 1;
      var rest := ListComments(cs[..n], tripId, entityType, entityId);
      if Listed(cs[n], tripId, entityType, entityId) then rest + [n] else rest
  }

  /** `GET /comments` (any member): the trip's live comments, optionally of one entity, oldest first. */
  method List(db: Db, tripId: TripId, userId: UserId, entityType: Option<string>, entityId: Option<string>)
    returns (r: Result<seq<nat>>)
    ensures r.Ok? <==> IsActiveMember(db.members, tripId, userId)
    ensures r.Err? ==> r.error == NotFound(Some("Trip not found or you are not a member"))
    ensures r.Ok? ==> r.value == ListComments(db.comments, tripId, entityType, entityId)
  {
    var auth := Authorize(db.members, tripId, userId, None, None);
    if auth.Err? {
      return Err(auth.error);
    }
    return Ok(ListComments(db.comments, tripId, entityType, entityId));
  }

  /** `canDeleteAny`: organizers and co-organizers may delete anyone's comment. */
  predicate CanDeleteAny(role: Role) {
    role == Organizer || role == CoOrganizer
  }

  /**
   * The comment table after member `actor` (with role `role`) deletes
   * comment `id` of the trip at `now`: 404 when it is missing, of another
   * trip or already deleted; 400 when it is someone else's and the actor
   * may not delete any comment; otherwise only its `deletedAt` is set.
   */
  function SoftDelete(cs: seq<Comment>, tripId: TripId, actor: UserId, role: Role, id: nat, now: Time)
    : (r: Result<seq<Comment>>)
    ensures (id >= |cs| || cs[id].tripId != tripId || cs[id].deletedAt.Some?) ==>
              r == Err(NotFound(Some("Comment not found")))
    ensures r.Ok? <==> id < |cs| && cs[id].tripId == tripId && cs[id].deletedAt.None?
                       && (cs[id].userId == actor || CanDeleteAny(role))
    ensures r.Err? && id < |cs| && cs[id].tripId == tripId && cs[id].deletedAt.None? ==>
              r.error == BadRequest(Some("You can only delete your own comments"))
    ensures r.Ok? ==> |r.value| == |cs| && r.value[id] == cs[id].(deletedAt := Some(now))
    ensures r.Ok? ==> forall i :: 0 <= i < |cs| && i != id ==> r.value[i] == cs[i]
  {
    if id >= |cs| || cs[id].tripId != tripId || cs[id].deletedAt.Some? then Err(NotFound(Some("Comment not found")))
    else if cs[id].userId != actor && !CanDeleteAny(role) then Err(BadRequest(Some("You can only delete your own comments")))
    else Ok(cs[id := cs[id].(deletedAt := Some(now))])
  }

  /** A deleted comment leaves every listing, and deleting it again gives 404. */
  lemma SoftDeleteHides(cs: seq<Comment>, tripId: TripId, actor: UserId, role: Role, id: nat, now: Time,
                        entityType: Option<string>, entityId: Option<string>, later: Time)
    requires SoftDelete(cs, tripId, actor, role, id, now).Ok?
    ensures id !in ListComments(SoftDelete(cs, tripId, actor, role, id, now).value, tripId, entityType, entityId)
    ensures SoftDelete(SoftDelete(cs, tripId, actor, role, id, now).value, tripId, actor, role, id, later)
            == Err(NotFound(Some("Comment not found")))
  {
  }

  /** `DELETE /comments/:commentId` (any member): 204, or the table unchanged on error. */
  method Delete(db: Db, tripId: TripId, userId: UserId, id: nat, now: Time) returns (r: Result<()>)
    modifies db`comments
    ensures var auth := Authorize(db.members, tripId, userId, None, None);
      && (auth.Err? ==> r == Err(auth.error) && db.comments == old(db.comments))
      && (auth.Ok? ==>
            var d := SoftDelete(old(db.comments), tripId, userId, auth.value.role, id, now);
            && (d.Err? ==> r == Err(d.error) && db.comments == old(db.comments))
            && (d.Ok? ==> r == Ok(()) && db.comments == d.value))
  {
    var auth := Authorize(db.members, tripId, userId, None, None);
    if auth.Err? {
      return Err(auth.error);
    }
    if id >= |db.comments| || db.comments[id].tripId != tripId || db.comments[id].deletedAt.Some? {
      return Err(NotFound(Some("Comment not found")));
    }
    if db.comments[id].userId != userId && !CanDeleteAny(auth.value.role) {
      return Err(BadRequest(Some("You can only delete your own comments")));
    }
    db.comments := db.comments[id := db.comments[id].(deletedAt := Some(now))];
    r := Ok(());
  }
}
