/**
 * Trip membership and role checks: `getMember`, `requireMember`,
 * `requireRole` and its two instances `requireOrganizerOrCo` and
 * `requireOrganizer`.
 */
module Rbac {
  import opened Wrappers
  import opened Errors

  type TripId = nat
  type UserId = nat

  datatype Role = Organizer | CoOrganizer | Member
  datatype MemberStatus = Active | Removed

  /** The text of a `role` column. */
  function RoleName(r: Role): string {
    match r
    case Organizer => "organizer"
    case CoOrganizer => "co_organizer"
    case Member => "member"
  }

  /** The role a `role` text names, None for any other text. */
  function RoleFromName(s: string): (r: Option<Role>)
    ensures r.Some? <==> s in {"organizer", "co_organizer", "member"}
  {
    if s == "organizer" then Some(Organizer)
    else if s == "co_organizer" then Some(CoOrganizer)
    else if s == "member" then Some(Member)
    else None
  }

  /** Reading back a role's text gives the role. */
  lemma RoleNameRoundTrip(r: Role)
    ensures RoleFromName(RoleName(r)) == Some(r)
  {
  }

  /** A TripMember row; its (tripId, userId) pair is the key it is stored under. */
  datatype Membership = Membership(role: Role, status: MemberStatus)

  /** The TripMember table, keyed by the unique (tripId, userId) pair. */
  type Members = map<(TripId, UserId), Membership>

  /** What `requireMember` attaches to the request: the trip and the caller's row. */
  datatype MemberContext = MemberContext(tripId: TripId, userId: UserId, role: Role)

  predicate IsActiveMember(members: Members, tripId: TripId, userId: UserId) {
    (tripId, userId) in members && members[(tripId, userId)].status == Active
  }

  /** `process.env.UNLOCK_ALL === 'true'`. */
  predicate Unlocked(unlockAll: Option<string>) {
    unlockAll == Some("true")
  }

  /** `getMember`: the caller's membership of the trip, only when it is active. */
  function GetMember(members: Members, tripId: TripId, userId: Option<UserId>): (m: Option<Membership>)
    ensures userId.None? ==> m.None?
    ensures m.Some? <==> userId.Some? && IsActiveMember(members, tripId, userId.value)
    ensures m.Some? ==> m.value.status == Active && m.value == members[(tripId, userId.value)]
  {
    if userId.None? then None
    else
      var key := (tripId, userId.value);
      if key in members && members[key].status == Active then Some(members[key]) else None
  }

  /** `requireMember`: 404 (never 403) for anyone who is not an active member. */
  function RequireMember(members: Members, tripId: TripId, userId: Option<UserId>): (r: Result<MemberContext>)
    ensures r.Ok? <==> userId.Some? && IsActiveMember(members, tripId, userId.value)
    ensures r.Ok? ==> r.value == MemberContext(tripId, userId.value, members[(tripId, userId.value)].role)
    ensures r.Err? ==> r.error == NotFound(Some("Trip not found or you are not a member"))
  {
    match GetMember(members, tripId, userId)
    case None => Err(NotFound(Some("Trip not found or you are not a member")))
    case Some(m) => Ok(MemberContext(tripId, userId.value, m.role))
  }

  /** `requireRole(...roles)`: None lets the request through, Some(e) rejects it. */
  function RequireRole(unlockAll: Option<string>, member: Option<MemberContext>, roles: seq<Role>): (r: Option<HttpError>)
    ensures r.None? <==> Unlocked(unlockAll) || (member.Some? && member.value.role in roles)
    ensures r.Some? ==> r.value.status == 403
    ensures r.Some? && member.None? ==> r.value.message == "Not a trip member"
  {
    if Unlocked(unlockAll) then None
    else if member.None? then Some(Forbidden(Some("Not a trip member")))
    else if member.value.role !in roles then Some(Forbidden(Some("Insufficient role")))
    else None
  }

  function RequireOrganizerOrCo(unlockAll: Option<string>, member: Option<MemberContext>): Option<HttpError> {
    RequireRole(unlockAll, member, [Organizer, CoOrganizer])
  }

  function RequireOrganizer(unlockAll: Option<string>, member: Option<MemberContext>): Option<HttpError> {
    RequireRole(unlockAll, member, [Organizer])
  }

  /** `requireOrganizerOrCo` admits exactly organizers and co-organizers (unless unlocked). */
  lemma OrganizerOrCoAdmits(unlockAll: Option<string>, m: MemberContext)
    requires !Unlocked(unlockAll)
    ensures RequireOrganizerOrCo(unlockAll, Some(m)).None? <==> m.role == Organizer || m.role == CoOrganizer
    ensures m.role == Member ==> RequireOrganizerOrCo(unlockAll, Some(m)) == Some(Forbidden(Some("Insufficient role")))
  {
  }

  /** `requireOrganizer` admits exactly organizers: co-organizers and members get 403. */
  lemma OrganizerAdmits(unlockAll: Option<string>, m: MemberContext)
    requires !Unlocked(unlockAll)
    ensures RequireOrganizer(unlockAll, Some(m)).None? <==> m.role == Organizer
    ensures m.role != Organizer ==> RequireOrganizer(unlockAll, Some(m)) == Some(Forbidden(Some("Insufficient role")))
  {
  }

  /** Whoever passes `requireOrganizer` also passes `requireOrganizerOrCo`. */
  lemma OrganizerGuardIsStricter(unlockAll: Option<string>, member: Option<MemberContext>)
    ensures RequireOrganizer(unlockAll, member).None? ==> RequireOrganizerOrCo(unlockAll, member).None?
  {
  }

  /**
   * The middleware chain `requireMember` then (when `roles` is given)
   * `requireRole(...roles)`, as the routes mount it for the authenticated caller.
   */
  function Authorize(members: Members, tripId: TripId, userId: UserId, unlockAll: Option<string>,
                     roles: Option<seq<Role>>): (r: Result<MemberContext>)
    ensures r.Ok? <==> IsActiveMember(members, tripId, userId)
                       && (roles.None? || Unlocked(unlockAll) || members[(tripId, userId)].role in roles.value)
    ensures !IsActiveMember(members, tripId, userId) ==> r.Err? && r.error.status == 404
    ensures IsActiveMember(members, tripId, userId) && r.Err? ==> r.error.status == 403
    ensures r.Ok? ==> r.value == MemberContext(tripId, userId, members[(tripId, userId)].role)
  {
    match RequireMember(members, tripId, Some(userId))
    case Err(e) => Err(e)
    case Ok(ctx) =>
      if roles.None? then Ok(ctx)
      else
        match RequireRole(unlockAll, Some(ctx), roles.value)
        case Some(e) => Err(e)
        case None => Ok(ctx)
  }
}
