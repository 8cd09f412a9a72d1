/**
 * Notification fan-out (`notifyTripMembers`, `notifyUser`): one row per
 * recipient, all carrying the same trip, type and payload.
 */
module Notify {
  import opened Wrappers
  import opened Json
  import opened Rbac
  import opened Store

  const AllRoles: set<Role> := {Organizer, CoOrganizer, Member}

  /** `u` is an active member of the trip whose role is among `roles` and who is not excluded. */
  predicate Recipient(members: Members, tripId: TripId, roles: set<Role>, exclude: Option<UserId>, u: UserId) {
    IsActiveMember(members, tripId, u) && members[(tripId, u)].role in roles && exclude != Some(u)
  }

  function UserIds(ns: seq<Notification>): (ids: seq<UserId>)
    ensures |ids| == |ns|
    ensures forall i :: 0 <= i < |ns| ==> ids[i] == ns[i].userId
  {
    seq(|ns|, i requires 0 <= i < |ns| => ns[i].userId)
  }

  /**
   * `after` is `before` followed by one unread notification of the given
   * type and payload for each recipient, none of them twice.
   */
  ghost predicate FanOut(before: seq<Notification>, after: seq<Notification>, members: Members, tripId: TripId,
                         roles: set<Role>, exclude: Option<UserId>, kind: string, payload: Json)
  {
    && |before| <= |after| && after[..|before|] == before
    && var added := after[|before|..];
       && (forall i :: 0 <= i < |added| ==> added[i] == Notification(added[i].userId, tripId, kind, payload, None))
       && (forall i, j :: 0 <= i < j < |added| ==> added[i].userId != added[j].userId)
       && (forall u :: u in UserIds(added) <==> Recipient(members, tripId, roles, exclude, u))
  }

  /**
   * The `tripMember.findMany` query of the fan-outs: the user ids of the
   * trip's active members with one of `roles`, except `exclude`, each once.
   */
  method FindRecipients(members: Members, tripId: TripId, roles: set<Role>, exclude: Option<UserId>)
    returns (ids: seq<UserId>)
    ensures forall i, j :: 0 <= i < j < |ids| ==> ids[i] != ids[j]
    ensures forall u :: u in ids <==> Recipient(members, tripId, roles, exclude, u)
  {
    var rest := members.Keys;
    ids := [];
    while rest != {}
      invariant rest <= members.Keys
      invariant forall i, j :: 0 <= i < j < |ids| ==> ids[i] != ids[j]
      invariant forall u :: u in ids <==> Recipient(members, tripId, roles, exclude, u) && (tripId, u) !in rest
      decreases |rest|
    {
      var key :| key in rest;
      if key.0 == tripId && Recipient(members, tripId, roles, exclude, key.1) {
        ids := ids + [key.1];
      }
      rest := rest - {key};
    }
  }

  /** The rows `members.map(...)` builds: one per recipient, in query order. */
  function Records(ids: seq<UserId>, tripId: TripId, kind: string, payload: Json): (rs: seq<Notification>)
    ensures UserIds(rs) == ids
    ensures forall i :: 0 <= i < |rs| ==> rs[i] == Notification(ids[i], tripId, kind, payload, None)
  {
    seq(|ids|, i requires 0 <= i < |ids| => Notification(ids[i], tripId, kind, payload, None))
  }

  /** `notifyTripMembers`: every active member except `exclude` (nobody excluded when it is null). */
  method NotifyTripMembers(db: Db, tripId: TripId, exclude: Option<UserId>, kind: string, payload: Json)
    modifies db`notifications
    ensures FanOut(old(db.notifications), db.notifications, db.members, tripId, AllRoles, exclude, kind, payload)
  {
    var ids := FindRecipients(db.members, tripId, AllRoles, exclude);
    var records := Records(ids, tripId, kind, payload);
    if |records| > 0 {
      db.notifications := db.notifications + records;
    }
    assert db.notifications[|old(db.notifications)|..] == records;
  }

  /** `notifyUser`: exactly one new unread row. */
  method NotifyUser(db: Db, userId: UserId, tripId: TripId, kind: string, payload: Json)
    modifies db`notifications
    ensures db.notifications == old(db.notifications) + [Notification(userId, tripId, kind, payload, None)]
  {
    db.notifications := db.notifications + [Notification(userId, tripId, kind, payload, None)];
  }

  /** With no recipients the fan-out writes nothing; otherwise it writes one row per recipient. */
  lemma {:induction false} FanOutSize(before: seq<Notification>, after: seq<Notification>, members: Members,
                                      tripId: TripId, roles: set<Role>, exclude: Option<UserId>,
                                      kind: string, payload: Json, ids: seq<UserId>)
    requires FanOut(before, after, members, tripId, roles, exclude, kind, payload)
    requires forall i, j :: 0 <= i < j < |ids| ==> ids[i] != ids[j]
    requires forall u :: u in ids <==> Recipient(members, tripId, roles, exclude, u)
    ensures |after| == |before| + |ids|
    ensures ids == [] ==> after == before
  {
    var added := after[|before|..];
    var a := UserIds(added);
    assert forall i, j :: 0 <= i < j < |a| ==> a[i] != a[j];
    assert forall u :: u in a <==> u in ids;
    DistinctSameElementsSameLength(a, ids);
    if ids == [] {
      assert after == after[..|before|] + added;
    }
  }

  lemma {:induction false} DistinctSameElementsSameLength(a: seq<UserId>, b: seq<UserId>)
    requires forall i, j :: 0 <= i < j < |a| ==> a[i] != a[j]
    requires forall i, j :: 0 <= i < j < |b| ==> b[i] != b[j]
    requires forall u :: u in a <==> u in b
    ensures |a| == |b|
  {
    ElemsOf(a);
    ElemsOf(b);
    assert Elems(a) == Elems(b);
  }

  function Elems(a: seq<UserId>): set<UserId> {
    if a == [] then {} else {a[0]} + Elems(a[1..])
  }

  /** The set of a list's elements; its size is the list's length when nothing repeats. */
  lemma {:induction false} ElemsOf(a: seq<UserId>)
    requires forall i, j :: 0 <= i < j < |a| ==> a[i] != a[j]
    ensures forall u :: u in Elems(a) <==> u in a
    ensures |Elems(a)| == |a|
  {
    if a != [] {
      var tail := a[1..];
      assert forall i :: 0 <= i < |tail| ==> tail[i] == a[i + 1];
      ElemsOf(tail);
      assert a == [a[0]] + tail;
      assert a[0] !in tail;
    }
  }
}
