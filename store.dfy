/**
 * The database as the handlers see it: one table per model, held in memory.
 * Tables that only ever grow are sequences whose row id is the row's index
 * (a fresh id is the table's length; an unknown id is out of range).
 * TripMember rows are keyed by their (tripId, userId) pair, magic links by
 * their token and trip essentials by their trip.
 */
module Store {
  import opened Wrappers
  import opened Json
  import opened Rbac

  /** Milliseconds since the epoch. */
  type Time = int

  datatype User = User(email: string)

  datatype MagicLink = MagicLink(email: string, expiresAt: Time, usedAt: Option<Time>)

  datatype Trip = Trip(name: string, destination: string, startDate: Time, endDate: Time,
                       timezone: string, createdBy: UserId)

  /** SHA-256 of an invite token, kept symbolic: two hashes are equal exactly when the tokens are. */
  datatype TokenHash = Sha256Of(token: string)

  datatype Invite = Invite(tripId: TripId, tokenHash: TokenHash, expiresAt: Time,
                           revokedAt: Option<Time>, createdBy: UserId)

  datatype Day = Day(tripId: TripId, date: Time, position: nat)

  /**
   * An itinerary item. Each column holds the value written to it; the
   * seven patchable columns are those of `AllowedPatchKeys`.
   */
  datatype Item = Item(tripId: TripId, dayId: Json, title: Json, startTime: Json, endTime: Json,
                       locationText: Json, coverImage: Json, notes: Json, externalLinks: Cell,
                       createdBy: UserId, updatedBy: UserId)

  datatype RequestStatus = Pending | Approved | Denied

  /** A change request; its proposed patch is kept as the JSON document it encodes. */
  datatype ChangeRequest = ChangeRequest(tripId: TripId, itemId: nat, requestedBy: UserId,
                                         proposedPatch: map<string, Json>, status: RequestStatus,
                                         decidedBy: Option<UserId>, decidedAt: Option<Time>)

  /** A notification; its payload is kept as the JSON document it encodes. */
  datatype Notification = Notification(userId: UserId, tripId: TripId, kind: string, payload: Json,
                                       readAt: Option<Time>)

  /** A TripEssentials row, keyed by the request field that writes each column. */
  type Essentials = map<string, Cell>

  datatype Comment = Comment(tripId: TripId, entityType: string, entityId: string, userId: UserId,
                             body: string, deletedAt: Option<Time>)

  datatype Announcement = Announcement(tripId: TripId, title: Option<string>, body: string,
                                       createdBy: UserId, pinned: bool)

  datatype AnalyticsEvent = AnalyticsEvent(event: string, payload: Cell, userId: UserId)

  /** The id of row `n` as it appears in request bodies, URLs and payloads. */
  function IdString(n: nat): string {
    NatToString(n)
  }

  /** A row id as a JSON string. */
  function IdJson(n: nat): (v: Json)
    ensures v.JStr? && v.s == IdString(n)
  {
    JStr(IdString(n))
  }

  /** The text of a change request's `status` column. */
  function StatusName(s: RequestStatus): string {
    match s
    case Pending => "pending"
    case Approved => "approved"
    case Denied => "denied"
  }

  /** The columns a change request may touch (`ALLOWED_PATCH_KEYS`, and `allowed` in `applyPatch`). */
  const AllowedPatchKeys: seq<string> :=
    ["title", "startTime", "endTime", "locationText", "coverImage", "notes", "externalLinks"]

  /** The database's unique constraint on `User.email`. */
  ghost predicate UniqueEmails(users: seq<User>) {
    forall i, j :: 0 <= i < j < |users| ==> users[i].email != users[j].email
  }

  /** The database's unique constraint on `ItineraryDay(tripId, date)`. */
  ghost predicate UniqueDayDates(days: seq<Day>) {
    forall i, j :: 0 <= i < j < |days| ==> days[i].tripId != days[j].tripId || days[i].date != days[j].date
  }

  /** A request carries a decider and a decision time exactly when it is no longer pending. */
  predicate Decided(cr: ChangeRequest) {
    cr.status == Pending <==> cr.decidedBy.None? && cr.decidedAt.None?
  }

  /** The number of days of the trip in `days` (`itineraryDay.count({ where: { tripId } })`). */
  function CountTripDays(days: seq<Day>, tripId: TripId): (n: nat)
    ensures n <= |days|
  {
    if days == [] then 0
    else CountTripDays(days[..|days| - 1], tripId) + (if days[|days| - 1].tripId == tripId then 1 else 0)
  }

  /** A trip none of whose days are in `days` counts none there. */
  lemma {:induction false} CountTripDaysNone(days: seq<Day>, tripId: TripId)
    requires forall i :: 0 <= i < |days| ==> days[i].tripId != tripId
    ensures CountTripDays(days, tripId) == 0
  {
    if days != [] {
      CountTripDaysNone(days[..|days| - 1], tripId);
    }
  }

  /** Appending a day counts it for its own trip only. */
  lemma CountTripDaysAppend(days: seq<Day>, day: Day, tripId: TripId)
    ensures CountTripDays(days + [day], tripId) == CountTripDays(days, tripId) + (if day.tripId == tripId then 1 else 0)
  {
    assert (days + [day])[..|days|] == days;
  }

  /**
   * Every day's position is the number of days its trip had before it was
   * created: a trip's days are numbered 0, 1, 2, ... in creation order.
   */
  ghost predicate PositionsInOrder(days: seq<Day>) {
    forall i :: 0 <= i < |days| ==> days[i].position == CountTripDays(days[..i], days[i].tripId)
  }

  /** Counting over a longer prefix never gives less. */
  lemma {:induction false} CountTripDaysMonotone(days: seq<Day>, tripId: TripId, i: nat, j: nat)
    requires i <= j <= |days|
    ensures CountTripDays(days[..i], tripId) <= CountTripDays(days[..j], tripId)
    decreases j - i
  {
    if i < j {
      CountTripDaysMonotone(days, tripId, i, j - 1);
      assert days[..j][..j - 1] == days[..j - 1];
    }
  }

  /** Within one trip, a later day has a larger position; so no two days of a trip share a position. */
  lemma PositionsIncrease(days: seq<Day>, i: nat, j: nat)
    requires PositionsInOrder(days)
    requires i < j < |days| && days[i].tripId == days[j].tripId
    ensures days[i].position < days[j].position
  {
    var t := days[i].tripId;
    assert days[..i + 1][..i] == days[..i];
    CountTripDaysMonotone(days, t, i + 1, j);
  }

  /** Appending a day whose position is the trip's current day count keeps the numbering. */
  lemma AppendDayKeepsPositions(days: seq<Day>, tripId: TripId, date: Time)
    requires PositionsInOrder(days)
    ensures PositionsInOrder(days + [Day(tripId, date, CountTripDays(days, tripId))])
  {
    var days' := days + [Day(tripId, date, CountTripDays(days, tripId))];
    forall i | 0 <= i < |days'|
      ensures days'[i].position == CountTripDays(days'[..i], days'[i].tripId)
    {
      if i < |days| {
        assert days'[..i] == days[..i];
      } else {
        assert days'[..i] == days;
      }
    }
  }

  /** Once a request has been decided it never changes again; requests are only ever added. */
  ghost predicate DecisionsFinal(before: seq<ChangeRequest>, after: seq<ChangeRequest>) {
    && |before| <= |after|
    && forall i :: 0 <= i < |before| && before[i].status != Pending ==> after[i] == before[i]
  }

  /** The columns of an itinerary item a handler may write, by their Prisma field names. */
  const ItemColumns: set<string> :=
    {"dayId", "title", "startTime", "endTime", "locationText", "coverImage", "notes", "externalLinks"}

  /** The content of column `k` of an item. */
  function ColumnOf(it: Item, k: string): Cell
    requires k in ItemColumns
  {
    match k
    case "dayId" => Plain(it.dayId)
    case "title" => Plain(it.title)
    case "startTime" => Plain(it.startTime)
    case "endTime" => Plain(it.endTime)
    case "locationText" => Plain(it.locationText)
    case "coverImage" => Plain(it.coverImage)
    case "notes" => Plain(it.notes)
    case _ => it.externalLinks
  }

  /** A `data` object for an item update: only `externalLinks` is ever written as JSON text. */
  predicate ItemData(data: map<string, Cell>) {
    forall k :: k in data && k != "externalLinks" ==> data[k].Plain?
  }

  function Column(data: map<string, Cell>, k: string, current: Json): Json
    requires ItemData(data) && k != "externalLinks"
  {
    if k in data then data[k].v else current
  }

  /**
   * `itineraryItem.update({ data })` with `updatedBy` set: exactly the
   * columns named in `data` change, and the item keeps its trip and creator.
   */
  function UpdateItem(it: Item, data: map<string, Cell>, editor: UserId): (r: Item)
    requires ItemData(data)
    ensures r.tripId == it.tripId && r.createdBy == it.createdBy && r.updatedBy == editor
  {
    Item(it.tripId, Column(data, "dayId", it.dayId), Column(data, "title", it.title),
         Column(data, "startTime", it.startTime), Column(data, "endTime", it.endTime),
         Column(data, "locationText", it.locationText), Column(data, "coverImage", it.coverImage),
         Column(data, "notes", it.notes),
         if "externalLinks" in data then data["externalLinks"] else it.externalLinks,
         it.createdBy, editor)
  }

  /** An update writes each column `data` names and keeps every other column. */
  lemma UpdateItemColumns(it: Item, data: map<string, Cell>, editor: UserId)
    requires ItemData(data)
    ensures forall k :: k in ItemColumns ==>
      ColumnOf(UpdateItem(it, data, editor), k) == (if k in data then data[k] else ColumnOf(it, k))
  {
  }

  /** The day table's constraints: unique dates per trip, positions in creation order, existing trips. */
  ghost predicate DaysValid(days: seq<Day>, tripCount: nat) {
    && UniqueDayDates(days)
    && PositionsInOrder(days)
    && (forall i :: 0 <= i < |days| ==> days[i].tripId < tripCount)
  }

  /** Every membership refers to an existing trip. */
  ghost predicate MembersValid(members: Members, tripCount: nat) {
    forall k :: k in members ==> k.0 < tripCount
  }

  /** Every change request refers to an existing item and records its decision exactly when decided. */
  ghost predicate RequestsValid(crs: seq<ChangeRequest>, itemCount: nat) {
    && (forall i :: 0 <= i < |crs| ==> crs[i].itemId < itemCount)
    && (forall i :: 0 <= i < |crs| ==> Decided(crs[i]))
  }

  /** Every invite belongs to an existing trip. */
  ghost predicate InvitesValid(invites: seq<Invite>, tripCount: nat) {
    forall i :: 0 <= i < |invites| ==> invites[i].tripId < tripCount
  }

  class Db {
    var users: seq<User>
    var magicLinks: map<string, MagicLink>
    var trips: seq<Trip>
    var members: Members
    var invites: seq<Invite>
    var days: seq<Day>
    var items: seq<Item>
    var changeRequests: seq<ChangeRequest>
    var notifications: seq<Notification>
    var essentials: map<TripId, Essentials>
    var comments: seq<Comment>
    var announcements: seq<Announcement>
    var analyticsEvents: seq<AnalyticsEvent>

    /** The constraints the database enforces, and the item every change request refers to. */
    ghost predicate Valid()
      reads this`users, this`days, this`trips, this`members, this`invites, this`changeRequests, this`items
    {
      && UniqueEmails(users)
      && InvitesValid(invites, |trips|)
      && DaysValid(days, |trips|)
      && MembersValid(members, |trips|)
      && RequestsValid(changeRequests, |items|)
    }

    constructor ()
      ensures Valid()
      ensures users == [] && magicLinks == map[] && trips == [] && members == map[] && invites == []
      ensures days == [] && items == [] && changeRequests == [] && notifications == []
      ensures essentials == map[] && comments == [] && announcements == [] && analyticsEvents == []
    {
      users, magicLinks, trips, members, invites := [], map[], [], map[], [];
      days, items, changeRequests, notifications := [], [], [], [];
      essentials, comments, announcements, analyticsEvents := map[], [], [], [];
    }
  }
}
