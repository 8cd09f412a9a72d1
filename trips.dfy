/**
 * The trip routes that change trips and their members: trip creation
 * (its validators, the trip row, the creator's organizer membership and one
 * itinerary day per date), the role change and the member removal.
 */
module Trips {
  import opened Wrappers
  import opened Json
  import opened Strings
  import opened Errors
  import opened Rbac
  import opened Store
  import opened Validators

  /** Milliseconds in a UTC day. */
  const MsPerDay: int := 86400000

  /** `setUTCHours(0, 0, 0, 0)`: the start of the UTC day that contains `t`. */
  function DayStart(t: Time): (d: Time)
    ensures d <= t < d + MsPerDay
    ensures d % MsPerDay == 0
  {
    (t / MsPerDay) * MsPerDay
  }

  /** A later instant never falls on an earlier day. */
  lemma DayStartMonotone(a: Time, b: Time)
    requires a <= b
    ensures DayStart(a) <= DayStart(b)
  {
  }

  /** Two day starts lie a whole number of days apart. */
  lemma DayStartsWholeDaysApart(a: Time, b: Time)
    ensures (DayStart(b) - DayStart(a)) % MsPerDay == 0
  {
    var k := b / MsPerDay - a / MsPerDay;
    assert DayStart(b) - DayStart(a) == k * MsPerDay;
  }

  // ---------------------------------------------------------------------
  // Validation of a new trip

  /** `notEmpty()` on the untrimmed value: its string form is not empty. */
  predicate Present(body: Body, key: string) {
    ValidatorString(Field(body, key)) != ""
  }

  /** `timezone`: `optional({ values: 'null' }).trim().isLength({ max: 100 })`. */
  predicate TimezoneOk(body: Body) {
    IsNullish(Field(body, "timezone")) || |TrimmedField(body, "timezone")| <= 100
  }

  /**
   * A body `createTripValidators` accepts on day `now`: a name of at most
   * 500 and a destination of at most 1000 characters after trimming, two
   * ISO 8601 dates whose start falls between today and the day
   * `addSixMonths` gives for today, an end no earlier than the start, and a
   * timezone of at most 100 characters when one is given.
   */
  ghost predicate TripBodyOk(body: Body, now: Time, addSixMonths: Time -> Time, parseDate: Json -> Option<Time>) {
    && TrimmedField(body, "name") != "" && |TrimmedField(body, "name")| <= 500
    && TrimmedField(body, "destination") != "" && |TrimmedField(body, "destination")| <= 1000
    && Present(body, "start_date") && Present(body, "end_date")
    && parseDate(body["start_date"]).Some? && parseDate(body["end_date"]).Some?
    && DayStart(now) <= DayStart(parseDate(body["start_date"]).value) <= addSixMonths(DayStart(now))
    && parseDate(body["start_date"]).value <= parseDate(body["end_date"]).value
    && TimezoneOk(body)
  }

  /**
   * `createTripValidators` then `handleValidationErrors`: the message of
   * the first failing chain, None when the body passes. `parseDate` is
   * `isISO8601` followed by `new Date` (None for text that is not an ISO
   * 8601 date); `addSixMonths` is `setUTCMonth(getUTCMonth() + 6)` and
   * `isoDay` is `toISOString().slice(0, 10)`.
   */
  function ValidateCreateTrip(body: Body, now: Time, addSixMonths: Time -> Time, isoDay: Time -> string,
                              parseDate: Json -> Option<Time>): (err: Option<string>)
    ensures err.None? <==> TripBodyOk(body, now, addSixMonths, parseDate)
  {
    var today := DayStart(now);
    var maxStart := addSixMonths(today);
    if TrimmedField(body, "name") == "" then Some("name required")
    else if |TrimmedField(body, "name")| > 500 then Some("Invalid value")
    else if TrimmedField(body, "destination") == "" then Some("destination required")
    else if |TrimmedField(body, "destination")| > 1000 then Some("Invalid value")
    else if !Present(body, "start_date") then Some("start_date required")
    else if parseDate(body["start_date"]).None? then Some("Invalid start_date")
    else if DayStart(parseDate(body["start_date"]).value) < today then Some("start_date must be today or later")
    else if DayStart(parseDate(body["start_date"]).value) > maxStart then
      Some("start_date must be on or before " + isoDay(maxStart))
    else if !Present(body, "end_date") then Some("end_date required")
    else if parseDate(body["end_date"]).None? then Some("Invalid end_date")
    else if parseDate(body["end_date"]).value < parseDate(body["start_date"]).value then
      Some("end_date must be on or after start_date")
    else if !TimezoneOk(body) then Some("Invalid value")
    else None
  }

  // ---------------------------------------------------------------------
  // Creating a trip

  /** `(timezone && String(timezone).trim()) || 'UTC'` on the sanitised timezone. */
  function TripTimezone(body: Body): (tz: string)
    ensures tz != ""
    ensures IsNullish(Field(body, "timezone")) ==> tz == "UTC"
    ensures tz != "UTC" ==> tz == TrimmedField(body, "timezone")
    ensures !IsNullish(Field(body, "timezone")) && TrimmedField(body, "timezone") != "" ==>
              tz == TrimmedField(body, "timezone")
    ensures !IsNullish(Field(body, "timezone")) && TrimmedField(body, "timezone") == "" ==> tz == "UTC"
  {
    if IsNullish(Field(body, "timezone")) then "UTC"
    else if TrimmedField(body, "timezone") == "" then "UTC"
    else TrimmedField(body, "timezone")
  }

  /** The trip row: trimmed name and destination, both dates moved to the start of their day. */
  function NewTrip(body: Body, start: Time, end: Time, userId: UserId): (t: Trip)
    ensures t.startDate % MsPerDay == 0 && t.endDate % MsPerDay == 0
    ensures t.startDate <= start < t.startDate + MsPerDay && t.endDate <= end < t.endDate + MsPerDay
    ensures t.name == TrimmedField(body, "name") && t.destination == TrimmedField(body, "destination")
    ensures t.createdBy == userId && t.timezone == TripTimezone(body)
  {
    Trip(TrimmedField(body, "name"), TrimmedField(body, "destination"), DayStart(start), DayStart(end),
         TripTimezone(body), userId)
  }

  /** The number of dates from `first` to `last` inclusive, a day apart. */
  function DayCount(first: Time, last: Time): nat {
    if last < first then 0 else (last - first) / MsPerDay + 1
  }

  /** The first `k` day rows of trip `tripId` starting on `first`: row `i` is `i` days on, at position `i`. */
  function FirstDays(tripId: TripId, first: Time, k: nat): seq<Day> {
    if k == 0 then [] else FirstDays(tripId, first, k - 1) + [Day(tripId, first + (k - 1) * MsPerDay, k - 1)]
  }

  /** The day rows trip creation writes for the dates from `first` to `last`. */
  function TripDays(tripId: TripId, first: Time, last: Time): seq<Day> {
    FirstDays(tripId, first, DayCount(first, last))
  }

  /** Row `i` of the first `k` days is the trip's day `i`, dated `i` days after `first`. */
  lemma {:induction false} FirstDaysRows(tripId: TripId, first: Time, k: nat)
    ensures |FirstDays(tripId, first, k)| == k
    ensures forall i :: 0 <= i < k ==> FirstDays(tripId, first, k)[i] == Day(tripId, first + i * MsPerDay, i)
  {
    if k > 0 {
      FirstDaysRows(tripId, first, k - 1);
    }
  }

  /** The loop runs once for each date it reaches without passing `last`. */
  lemma DayCountBound(first: Time, last: Time, pos: nat)
    ensures first + pos * MsPerDay <= last <==> pos < DayCount(first, last)
  {
    if first <= last {
      var q := (last - first) / MsPerDay;
      assert last - first == q * MsPerDay + (last - first) % MsPerDay;
      if pos <= q {
        assert pos * MsPerDay <= q * MsPerDay;
      } else {
        assert pos * MsPerDay >= q * MsPerDay + MsPerDay;
      }
    }
  }

  /**
   * For dates a whole number of days apart, the rows run from `first` to
   * `last`, one day apart, numbered 0, 1, 2, ... and all of the trip.
   */
  lemma TripDaysSpanTrip(tripId: TripId, first: Time, last: Time)
    requires first <= last && (last - first) % MsPerDay == 0
    ensures var days := TripDays(tripId, first, last);
      && |days| == (last - first) / MsPerDay + 1
      && days[0].date == first && days[|days| - 1].date == last
      && (forall i :: 0 <= i < |days| ==>
            days[i].tripId == tripId && days[i].position == i && first <= days[i].date <= last)
      && (forall i :: 0 < i < |days| ==> days[i].date == days[i - 1].date + MsPerDay)
  {
    var q := (last - first) / MsPerDay;
    assert last - first == q * MsPerDay;
    FirstDaysRows(tripId, first, q + 1);
    var days := TripDays(tripId, first, last);
    forall i | 0 <= i < |days|
      ensures first <= days[i].date <= last
    {
      assert i * MsPerDay <= q * MsPerDay;
    }
  }

  /** Adding the trip's next day, dated after all its days so far, keeps the day table's constraints. */
  lemma AppendTripDay(days: seq<Day>, tripCount: nat, tripId: TripId, d: Time)
    requires DaysValid(days, tripCount) && tripId < tripCount
    requires forall i :: 0 <= i < |days| && days[i].tripId == tripId ==> days[i].date < d
    ensures DaysValid(days + [Day(tripId, d, CountTripDays(days, tripId))], tripCount)
  {
    AppendDayKeepsPositions(days, tripId, d);
  }

  /** Appended to days of other trips, the first `k` days of a trip count `k`. */
  lemma {:induction false} FirstDaysCount(before: seq<Day>, tripId: TripId, first: Time, k: nat)
    requires forall i :: 0 <= i < |before| ==> before[i].tripId != tripId
    ensures CountTripDays(before + FirstDays(tripId, first, k), tripId) == k
  {
    if k == 0 {
      assert before + FirstDays(tripId, first, 0) == before;
      CountTripDaysNone(before, tripId);
    } else {
      FirstDaysCount(before, tripId, first, k - 1);
      var day := Day(tripId, first + (k - 1) * MsPerDay, k - 1);
      AppendAssociates(before, FirstDays(tripId, first, k - 1), day);
      CountTripDaysAppend(before + FirstDays(tripId, first, k - 1), day, tripId);
    }
  }

  /** Appended to days of other trips, the first `k` days of a trip all fall before its day `k`. */
  lemma FirstDaysBefore(before: seq<Day>, tripId: TripId, first: Time, k: nat)
    requires forall i :: 0 <= i < |before| ==> before[i].tripId != tripId
    ensures var days := before + FirstDays(tripId, first, k);
      forall i :: 0 <= i < |days| && days[i].tripId == tripId ==> days[i].date < first + k * MsPerDay
  {
    FirstDaysRows(tripId, first, k);
    var days := before + FirstDays(tripId, first, k);
    forall i | 0 <= i < |days| && days[i].tripId == tripId
      ensures days[i].date < first + k * MsPerDay
    {
      var j := i - |before|;
      assert days[i] == FirstDays(tripId, first, k)[j];
      assert j * MsPerDay < k * MsPerDay;
    }
  }

  /**
   * Appending the first `k` days of a new trip to a valid table keeps it
   * valid: the new dates are distinct and the positions count the trip's days.
   */
  lemma {:induction false} FirstDaysKeepValid(before: seq<Day>, tripCount: nat, tripId: TripId, first: Time, k: nat)
    requires DaysValid(before, tripCount) && tripId < tripCount
    requires forall i :: 0 <= i < |before| ==> before[i].tripId != tripId
    ensures DaysValid(before + FirstDays(tripId, first, k), tripCount)
  {
    if k == 0 {
      NoDaysKeepValid(before, tripCount, tripId, first);
    } else {
      var j: nat := k - 1;
      assert j + 1 == k;
      FirstDaysKeepValid(before, tripCount, tripId, first, j);
      NextDayKeepsValid(before, tripCount, tripId, first, j);
    }
  }

  /** The base case: appending no days changes nothing. */
  lemma NoDaysKeepValid(before: seq<Day>, tripCount: nat, tripId: TripId, first: Time)
    requires DaysValid(before, tripCount)
    ensures DaysValid(before + FirstDays(tripId, first, 0), tripCount)
  {
    assert before + FirstDays(tripId, first, 0) == before;
  }

  /** The induction step: adding day `k` after the first `k` days keeps the table valid. */
  lemma NextDayKeepsValid(before: seq<Day>, tripCount: nat, tripId: TripId, first: Time, k: nat)
    requires tripId < tripCount
    requires forall i :: 0 <= i < |before| ==> before[i].tripId != tripId
    requires DaysValid(before + FirstDays(tripId, first, k), tripCount)
    ensures DaysValid(before + FirstDays(tripId, first, k + 1), tripCount)
  {
    var prev := before + FirstDays(tripId, first, k);
    FirstDaysCount(before, tripId, first, k);
    FirstDaysBefore(before, tripId, first, k);
    var day := Day(tripId, first + k * MsPerDay, k);
    AppendTripDay(prev, tripCount, tripId, day.date);
    assert FirstDays(tripId, first, k + 1) == FirstDays(tripId, first, k) + [day];
    AppendAssociates(before, FirstDays(tripId, first, k), day);
  }

  lemma AppendAssociates<T>(a: seq<T>, b: seq<T>, x: T)
    ensures a + (b + [x]) == (a + b) + [x]
  {
  }

  /**
   * The itinerary-day loop: one row per date from `first` to `last`, the
   * dates a day apart and the positions counting up from 0.
   */
  method BuildTripDays(tripId: TripId, first: Time, last: Time) returns (days: seq<Day>)
    ensures days == TripDays(tripId, first, last)
  {
    days := [];
    var d, pos := first, 0;
    DayCountBound(first, last, 0);
    while d <= last
      invariant 0 <= pos <= DayCount(first, last)
      invariant d == first + pos * MsPerDay
      invariant days == FirstDays(tripId, first, pos)
      decreases last - d
    {
      DayCountBound(first, last, pos);
      days := days + [Day(tripId, d, pos)];
      d, pos := d + MsPerDay, pos + 1;
    }
    DayCountBound(first, last, pos);
  }

  /**
   * What a successful creation wrote: the trip row (its id the next one),
   * the creator as its active organizer, and its days.
   */
  twostate predicate TripCreated(id: TripId, db: Db, userId: UserId, body: Body, parseDate: Json -> Option<Time>)
    reads db
  {
    && "start_date" in body && "end_date" in body
    && parseDate(body["start_date"]).Some? && parseDate(body["end_date"]).Some?
    && var start, end := parseDate(body["start_date"]).value, parseDate(body["end_date"]).value;
    && id == |old(db.trips)|
    && db.trips == old(db.trips) + [NewTrip(body, start, end, userId)]
    && db.members == old(db.members)[(id, userId) := Membership(Organizer, Active)]
    && db.days == old(db.days) + TripDays(id, DayStart(start), DayStart(end))
  }

  /** The tables stay valid when trip `id` is added with its organizer and its days. */
  lemma NewTripKeepsValid(days: seq<Day>, members: Members, invites: seq<Invite>, id: TripId, userId: UserId,
                          first: Time, last: Time)
    requires DaysValid(days, id) && MembersValid(members, id) && InvitesValid(invites, id)
    ensures DaysValid(days + TripDays(id, first, last), id + 1)
    ensures MembersValid(members[(id, userId) := Membership(Organizer, Active)], id + 1)
    ensures InvitesValid(invites, id + 1)
  {
    FirstDaysKeepValid(days, id + 1, id, first, DayCount(first, last));
  }

  /**
   * `POST /trips`: a rejected body changes nothing; an accepted one creates
   * the trip, its organizer and its days in one transaction.
   */
  method CreateTrip(db: Db, userId: UserId, body: Body, now: Time, addSixMonths: Time -> Time,
                    isoDay: Time -> string, parseDate: Json -> Option<Time>) returns (r: Result<TripId>)
    requires db.Valid()
    modifies db`trips, db`members, db`days
    ensures db.Valid()
    ensures var err := ValidateCreateTrip(body, now, addSixMonths, isoDay, parseDate);
      && (err.Some? ==> r == Err(BadRequest(err)))
      && (err.None? ==> r == Ok(|old(db.trips)|))
    ensures r.Err? ==> db.trips == old(db.trips) && db.members == old(db.members) && db.days == old(db.days)
    ensures r.Ok? ==> TripCreated(r.value, db, userId, body, parseDate)
    ensures r.Ok? ==> forall k :: k in db.members && k.0 == r.value ==> k.1 == userId && db.members[k].role == Organizer
  {
    var err := ValidateCreateTrip(body, now, addSixMonths, isoDay, parseDate);
    if err.Some? {
      return Err(BadRequest(err));
    }
    var start, end := parseDate(body["start_date"]).value, parseDate(body["end_date"]).value;
    var id := StoreTrip(db, userId, body, start, end);
    r := Ok(id);
  }

  /** The writes of an accepted `POST /trips`: the trip row, its organizer and its days. */
  method StoreTrip(db: Db, userId: UserId, body: Body, start: Time, end: Time) returns (id: TripId)
    requires db.Valid()
    modifies db`trips, db`members, db`days
    ensures db.Valid()
    ensures id == |old(db.trips)|
    ensures db.trips == old(db.trips) + [NewTrip(body, start, end, userId)]
    ensures db.members == old(db.members)[(id, userId) := Membership(Organizer, Active)]
    ensures db.days == old(db.days) + TripDays(id, DayStart(start), DayStart(end))
    ensures forall k :: k in db.members && k.0 == id ==> k.1 == userId
  {
    id := |db.trips|;
    NewTripKeepsValid(db.days, db.members, db.invites, id, userId, DayStart(start), DayStart(end));
    db.trips := db.trips + [NewTrip(body, start, end, userId)];
    db.members := db.members[(id, userId) := Membership(Organizer, Active)];
    var days := BuildTripDays(id, DayStart(start), DayStart(end));
    db.days := db.days + days;
  }

  /** An accepted trip always gets its days: one per date from its start day to its end day. */
  lemma AcceptedTripHasDays(tripId: TripId, body: Body, now: Time, addSixMonths: Time -> Time,
                            parseDate: Json -> Option<Time>)
    requires TripBodyOk(body, now, addSixMonths, parseDate)
    ensures var first, last := DayStart(parseDate(body["start_date"]).value), DayStart(parseDate(body["end_date"]).value);
      var days := TripDays(tripId, first, last);
      && days != [] && days[0].date == first && days[|days| - 1].date == last
      && |days| == (last - first) / MsPerDay + 1
  {
    var start, end := parseDate(body["start_date"]).value, parseDate(body["end_date"]).value;
    DayStartMonotone(start, end);
    DayStartsWholeDaysApart(start, end);
    TripDaysSpanTrip(tripId, DayStart(start), DayStart(end));
  }

  // ---------------------------------------------------------------------
  // Roles and removal

  /** The members route's `role`: `isIn(['organizer', 'co_organizer', 'member'])` on a string. */
  function RequestedRole(role: Option<Json>): (r: Option<Role>)
    ensures r.Some? ==> role == Some(JStr(RoleName(r.value)))
  {
    if role.Some? && role.value.JStr? then RoleFromName(role.value.s) else None
  }

  /** Every role's own text is accepted. */
  lemma RequestedRoleAcceptsNames(r: Role)
    ensures RequestedRole(Some(JStr(RoleName(r)))) == Some(r)
  {
    RoleNameRoundTrip(r);
  }

  function SetRole(members: Members, key: (TripId, UserId), role: Role): Members
    requires key in members
  {
    members[key := members[key].(role := role)]
  }

  /**
   * The role change after the target is found: promoting to organizer is
   * the organizer's alone and hands over the role (the caller becomes
   * co-organizer); an organizer can be demoted only by an organizer.
   */
  function RoleChange(members: Members, tripId: TripId, actor: UserId, target: UserId, role: Role): (r: Result<Members>)
    requires IsActiveMember(members, tripId, actor) && IsActiveMember(members, tripId, target)
    ensures r.Err? <==> members[(tripId, actor)].role != Organizer
                        && (role == Organizer || members[(tripId, target)].role == Organizer)
    ensures r.Err? ==> r.error == BadRequest(Some(if role == Organizer then "Only organizer can promote to organizer"
                                                  else "Only organizer can demote organizer"))
    ensures r.Ok? ==> r.value.Keys == members.Keys
                      && (forall k :: k in members ==> r.value[k].status == members[k].status)
                      && (forall k :: k in members && k != (tripId, actor) && k != (tripId, target) ==> r.value[k] == members[k])
    ensures r.Ok? && role == Organizer ==>
              && r.value[(tripId, actor)].role == CoOrganizer
              && (actor != target ==> r.value[(tripId, target)].role == Organizer)
    ensures r.Ok? && role != Organizer ==>
              && r.value[(tripId, target)].role == role
              && (actor != target ==> r.value[(tripId, actor)] == members[(tripId, actor)])
  {
    var me := members[(tripId, actor)].role;
    if role == Organizer then
      if me != Organizer then Err(BadRequest(Some("Only organizer can promote to organizer")))
      else Ok(SetRole(SetRole(members, (tripId, target), Organizer), (tripId, actor), CoOrganizer))
    else if members[(tripId, target)].role == Organizer && me != Organizer then
      Err(BadRequest(Some("Only organizer can demote organizer")))
    else Ok(SetRole(members, (tripId, target), role))
  }

  /** A caller who is not the organizer never makes anyone organizer nor takes the role from anyone. */
  lemma NonOrganizerLeavesOrganizers(members: Members, tripId: TripId, actor: UserId, target: UserId, role: Role)
    requires IsActiveMember(members, tripId, actor) && IsActiveMember(members, tripId, target)
    requires members[(tripId, actor)].role != Organizer
    requires RoleChange(members, tripId, actor, target, role).Ok?
    ensures var after := RoleChange(members, tripId, actor, target, role).value;
      forall k :: k in members ==> (after[k].role == Organizer <==> members[k].role == Organizer)
  {
  }

  /** The active members of the trip and their roles, as the route returns them. */
  function Roster(members: Members, tripId: TripId): (s: set<(UserId, Role)>)
    ensures forall u: UserId, role: Role :: (u, role) in s <==> IsActiveMember(members, tripId, u) && members[(tripId, u)].role == role
  {
    set k | k in members && k.0 == tripId && members[k].status == Active :: (k.1, members[k].role)
  }

  /** `PATCH /trips/:tripId/members/:userId`, for an organizer or co-organizer. */
  method ChangeRole(db: Db, tripId: TripId, userId: UserId, unlockAll: Option<string>, target: UserId,
                    role: Option<Json>) returns (r: Result<set<(UserId, Role)>>)
    requires db.Valid()
    modifies db`members
    ensures db.Valid()
    ensures var auth := Authorize(old(db.members), tripId, userId, unlockAll, Some([Organizer, CoOrganizer]));
            var wanted := RequestedRole(role);
      && (auth.Err? ==> r == Err(auth.error))
      && (auth.Ok? && wanted.None? ==> r == Err(BadRequest(Some("Invalid role"))))
      && (auth.Ok? && wanted.Some? && !IsActiveMember(old(db.members), tripId, target) ==>
            r == Err(NotFound(Some("Member not found"))))
      && (auth.Ok? && wanted.Some? && IsActiveMember(old(db.members), tripId, target) ==>
            var change := RoleChange(old(db.members), tripId, userId, target, wanted.value);
            && (change.Err? ==> r == Err(change.error))
            && (change.Ok? ==> db.members == change.value && r == Ok(Roster(db.members, tripId))))
    ensures r.Err? ==> db.members == old(db.members)
  {
    var auth := Authorize(db.members, tripId, userId, unlockAll, Some([Organizer, CoOrganizer]));
    if auth.Err? {
      return Err(auth.error);
    }
    var wanted := RequestedRole(role);
    if wanted.None? {
      return Err(BadRequest(Some("Invalid role")));
    }
    if !IsActiveMember(db.members, tripId, target) {
      return Err(NotFound(Some("Member not found")));
    }
    var change := RoleChange(db.members, tripId, userId, target, wanted.value);
    if change.Err? {
      return Err(change.error);
    }
    db.members := change.value;
    r := Ok(Roster(db.members, tripId));
  }

  /**
   * The removal rule: anyone may leave; otherwise only organizers and
   * co-organizers remove others, only active members can be removed, and
   * only the organizer removes an organizer. A removed row stays, marked removed.
   */
  function Removal(members: Members, tripId: TripId, actor: UserId, target: UserId): (r: Result<Members>)
    requires IsActiveMember(members, tripId, actor)
    ensures r.Ok? <==> actor == target
                       || (&& members[(tripId, actor)].role != Member
                           && IsActiveMember(members, tripId, target)
                           && (members[(tripId, target)].role != Organizer || members[(tripId, actor)].role == Organizer))
    ensures r.Err? && members[(tripId, actor)].role == Member ==> r.error == BadRequest(Some("Members cannot remove others"))
    ensures r.Err? && members[(tripId, actor)].role != Member && !IsActiveMember(members, tripId, target) ==>
              r.error == NotFound(Some("Member not found"))
    ensures r.Ok? ==> && r.value.Keys == members.Keys
                      && r.value[(tripId, target)] == Membership(members[(tripId, target)].role, Removed)
                      && (forall k :: k in members && k != (tripId, target) ==> r.value[k] == members[k])
  {
    var me := members[(tripId, actor)].role;
    var key := (tripId, target);
    if target == actor then Ok(members[key := members[key].(status := Removed)])
    else if me == Member then Err(BadRequest(Some("Members cannot remove others")))
    else if !IsActiveMember(members, tripId, target) then Err(NotFound(Some("Member not found")))
    else if members[key].role == Organizer && me != Organizer then Err(BadRequest(Some("Only organizer can remove organizer")))
    else Ok(members[key := members[key].(status := Removed)])
  }

  /** `DELETE /trips/:tripId/members/:userId`: 204 with no body on success. */
  method RemoveMember(db: Db, tripId: TripId, userId: UserId, target: UserId) returns (r: Result<()>)
    requires db.Valid()
    modifies db`members
    ensures db.Valid()
    ensures var auth := Authorize(old(db.members), tripId, userId, None, None);
      && (auth.Err? ==> r == Err(auth.error))
      && (auth.Ok? ==>
            var removal := Removal(old(db.members), tripId, userId, target);
            && (removal.Err? ==> r == Err(removal.error))
            && (removal.Ok? ==> r == Ok(()) && db.members == removal.value))
    ensures r.Err? ==> db.members == old(db.members)
  {
    var auth := Authorize(db.members, tripId, userId, None, None);
    if auth.Err? {
      return Err(auth.error);
    }
    var removal := Removal(db.members, tripId, userId, target);
    if removal.Err? {
      return Err(removal.error);
    }
    db.members := removal.value;
    r := Ok(());
  }
}
