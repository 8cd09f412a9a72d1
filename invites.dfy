/**
 * Joining a trip by invite link: the token parameter check, the lookup of
 * a usable invite by the hash of its token, the idempotent join and the
 * preview of the invited trip.
 */
module Invites {
  import opened Wrappers
  import opened Strings
  import opened Errors
  import opened Rbac
  import opened Store

  /** `inviteTokenParam`: a non-empty token of at most 200 characters once trimmed. */
  function ValidateInviteToken(token: string): (err: Option<string>)
    ensures err.None? <==> token != "" && |Trim(token)| <= 200
    ensures err == Some("Invite token required") <==> token == ""
  {
    if token == "" then Some("Invite token required")
    else if |Trim(token)| > 200 then Some("Invalid value")
    else None
  }

  /** An invite lets the holder of a token hashing to `hash` in at `now`: not expired, not revoked. */
  predicate Usable(inv: Invite, hash: TokenHash, now: Time) {
    inv.tokenHash == hash && inv.expiresAt > now && inv.revokedAt.None?
  }

  /** The first usable invite at or after row `from`. */
  function FirstUsable(invites: seq<Invite>, hash: TokenHash, now: Time, from: nat): (r: Option<nat>)
    requires from <= |invites|
    ensures r.Some? ==> from <= r.value < |invites| && Usable(invites[r.value], hash, now)
    ensures r.Some? ==> forall i :: from <= i < r.value ==> !Usable(invites[i], hash, now)
    ensures r.None? <==> forall i :: from <= i < |invites| ==> !Usable(invites[i], hash, now)
    decreases |invites| - from
  {
    if from == |invites| then None
    else if Usable(invites[from], hash, now) then Some(from)
    else FirstUsable(invites, hash, now, from + 1)
  }

  /**
   * `findValidInvite`: a blank token finds nothing; otherwise the first
   * invite whose hash is that of the trimmed token, still usable at `now`.
   */
  function FindValidInvite(invites: seq<Invite>, token: string, now: Time): (r: Option<nat>)
    ensures Trim(token) == "" ==> r.None?
    ensures r.Some? ==> r.value < |invites| && Usable(invites[r.value], Sha256Of(Trim(token)), now)
    ensures r.None? && Trim(token) != "" ==> forall i :: 0 <= i < |invites| ==> !Usable(invites[i], Sha256Of(Trim(token)), now)
  {
    if Trim(token) == "" then None else FirstUsable(invites, Sha256Of(Trim(token)), now, 0)
  }

  /** An invite stays usable up to, but not at, its expiry time, and never once revoked. */
  lemma UsableUntilExpiry(inv: Invite, hash: TokenHash, now: Time)
    requires inv.tokenHash == hash
    ensures Usable(inv, hash, now) <==> now < inv.expiresAt && inv.revokedAt.None?
  {
  }

  /**
   * The guard both invite routes share: the token check, then 400 "Invalid
   * or expired invite link" unless a usable invite is found; its trip otherwise.
   */
  function InviteTrip(invites: seq<Invite>, rawToken: string, now: Time): (r: Result<TripId>)
    ensures ValidateInviteToken(rawToken).Some? ==> r == Err(BadRequest(ValidateInviteToken(rawToken)))
    ensures r.Ok? <==> ValidateInviteToken(rawToken).None? && FindValidInvite(invites, Trim(rawToken), now).Some?
    ensures r.Ok? ==> exists i :: 0 <= i < |invites| && invites[i].tripId == r.value
                                  && Usable(invites[i], Sha256Of(Trim(Trim(rawToken))), now)
    ensures r.Err? && ValidateInviteToken(rawToken).None? ==> r.error == BadRequest(Some("Invalid or expired invite link"))
  {
    var invalid := ValidateInviteToken(rawToken);
    if invalid.Some? then Err(BadRequest(invalid))
    else
      match FindValidInvite(invites, Trim(rawToken), now)
      case None => Err(BadRequest(Some("Invalid or expired invite link")))
      case Some(i) => Ok(invites[i].tripId)
  }

  /**
   * The membership table after `userId` joins `tripId`: an active member
   * is left as is, a removed one is re-activated as a plain member, and
   * anyone else gets a new active member row.
   */
  function JoinMembers(members: Members, tripId: TripId, userId: UserId): (m: Members)
    ensures IsActiveMember(m, tripId, userId)
    ensures m.Keys == members.Keys + {(tripId, userId)}
    ensures forall k :: k in members && k != (tripId, userId) ==> m[k] == members[k]
    ensures IsActiveMember(members, tripId, userId) ==> m == members
    ensures !IsActiveMember(members, tripId, userId) ==> m[(tripId, userId)] == Membership(Member, Active)
  {
    var key := (tripId, userId);
    if IsActiveMember(members, tripId, userId) then members
    else if key in members then members[key := members[key].(status := Active, role := Member)]
    else members[key := Membership(Member, Active)]
  }

  /** Joining again changes nothing, and the second join reports an existing member. */
  lemma JoinIdempotent(members: Members, tripId: TripId, userId: UserId)
    ensures JoinMembers(JoinMembers(members, tripId, userId), tripId, userId) == JoinMembers(members, tripId, userId)
    ensures IsActiveMember(JoinMembers(members, tripId, userId), tripId, userId)
  {
  }

  /** The response of a join: the trip, the caller's membership, and whether it was already active. */
  datatype Joined = Joined(tripId: TripId, trip: Trip, membership: Membership, alreadyMember: bool)

  /** `POST /invites/:token/join` for the signed-in `userId`. */
  method Join(db: Db, rawToken: string, userId: UserId, now: Time) returns (r: Result<Joined>)
    requires db.Valid()
    modifies db`members
    ensures db.Valid()
    ensures var guard := InviteTrip(old(db.invites), rawToken, now);
      && (guard.Err? ==> r == Err(guard.error) && db.members == old(db.members))
      && (guard.Ok? ==>
            && db.members == JoinMembers(old(db.members), guard.value, userId)
            && r.Ok? && r.value.tripId == guard.value && r.value.trip == db.trips[guard.value]
            && r.value.membership == db.members[(guard.value, userId)]
            && r.value.alreadyMember == IsActiveMember(old(db.members), guard.value, userId))
  {
    var guard := InviteTrip(db.invites, rawToken, now);
    if guard.Err? {
      return Err(guard.error);
    }
    var tripId := guard.value;
    var key := (tripId, userId);
    if key in db.members && db.members[key].status == Active {
      return Ok(Joined(tripId, db.trips[tripId], db.members[key], true));
    }
    if key in db.members {
      db.members := db.members[key := db.members[key].(status := Active, role := Member)];
    } else {
      db.members := db.members[key := Membership(Member, Active)];
    }
    r := Ok(Joined(tripId, db.trips[tripId], db.members[key], false));
  }

  /** What the preview shows of the invited trip. */
  datatype TripPreview = TripPreview(id: TripId, name: string, destination: string, startDate: Time, endDate: Time)

  /** `GET /invites/:token/preview`: the same guard as the join, and the trip's public fields. */
  function Preview(invites: seq<Invite>, trips: seq<Trip>, rawToken: string, now: Time): (r: Result<TripPreview>)
    requires InvitesValid(invites, |trips|)
    ensures r.Ok? <==> InviteTrip(invites, rawToken, now).Ok?
    ensures r.Err? ==> r.error == InviteTrip(invites, rawToken, now).error
    ensures r.Ok? ==> r.value.id == InviteTrip(invites, rawToken, now).value && r.value.id < |trips|
    ensures r.Ok? ==> var t := trips[r.value.id];
      && r.value.name == t.name && r.value.destination == t.destination
      && r.value.startDate == t.startDate && r.value.endDate == t.endDate
  {
    match InviteTrip(invites, rawToken, now)
    case Err(e) => Err(e)
    case Ok(id) =>
      var t := trips[id];
      Ok(TripPreview(id, t.name, t.destination, t.startDate, t.endDate))
  }
}
