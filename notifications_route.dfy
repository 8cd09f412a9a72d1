/**
 * The signed-in user's notification inbox: the list of their newest
 * notifications and marking one of them read.
 */
module NotificationsRoute {
  import opened Wrappers
  import opened Errors
  import opened Rbac
  import opened Store

  /** `take: 100` of the inbox query. */
  const InboxLimit: nat := 100

  /**
   * The ids of at most `limit` of `userId`'s notifications, newest first
   * (rows are stored in creation order): `findMany` with `where: { userId }`,
   * `orderBy: { createdAt: 'desc' }` and `take: limit`.
   */
  function Newest(ns: seq<Notification>, userId: UserId, limit: nat): (ids: seq<nat>)
    ensures |ids| <= limit
    ensures forall i :: 0 <= i < |ids| ==> ids[i] < |ns| && ns[ids[i]].userId == userId
    ensures forall i, j :: 0 <= i < j < |ids| ==> ids[i] > ids[j]
    ensures forall k :: 0 <= k < |ns| && ns[k].userId == userId && k !in ids ==>
              |ids| == limit && forall i :: 0 <= i < |ids| ==> ids[i] > k
    decreases |ns|
  {
    if ns == [] || limit == 0 then []
    else
      var n := |ns| - 1;
      if ns[n].userId == userId then [n] + Newest(ns[..n], userId, limit - 1)
      else Newest(ns[..n], userId, limit)
  }

  /** `GET /notifications`: the caller's 100 newest notifications. */
  function Inbox(ns: seq<Notification>, userId: UserId): seq<nat> {
    Newest(ns, userId, InboxLimit)
  }

  /** A user with at most `limit` notifications sees all of them, and nobody sees another user's. */
  lemma NewestIsWholeInboxWhenSmall(ns: seq<Notification>, userId: UserId, limit: nat, k: nat)
    requires k < |ns|
    requires |Newest(ns, userId, limit)| < limit
    ensures k in Newest(ns, userId, limit) <==> ns[k].userId == userId
  {
  }

  /**
   * The table after `POST /notifications/:id/read` by `userId`: 404 "Not
   * found" unless row `id` exists and is the caller's; otherwise that row
   * with `readAt` set to `now`.
   */
  function Marked(ns: seq<Notification>, userId: UserId, id: nat, now: Time): (r: Result<seq<Notification>>)
    ensures r.Err? <==> id >= |ns| || ns[id].userId != userId
    ensures r.Err? ==> r.error == HttpError(404, "Not found")
    ensures r.Ok? ==> |r.value| == |ns| && r.value[id].readAt == Some(now)
    ensures r.Ok? ==> forall i :: 0 <= i < |ns| && i != id ==> r.value[i] == ns[i]
    ensures r.Ok? ==> var n, m := ns[id], r.value[id];
      && m.userId == n.userId && m.tripId == n.tripId && m.kind == n.kind && m.payload == n.payload
  {
    if id >= |ns| || ns[id].userId != userId then Err(NotFound(None))
    else Ok(ns[id := ns[id].(readAt := Some(now))])
  }

  /** There is no set-once guard: marking twice keeps only the later time. */
  lemma MarkedTwiceKeepsLaterTime(ns: seq<Notification>, userId: UserId, id: nat, t1: Time, t2: Time)
    requires Marked(ns, userId, id, t1).Ok?
    ensures Marked(Marked(ns, userId, id, t1).value, userId, id, t2) == Marked(ns, userId, id, t2)
  {
    var once := Marked(ns, userId, id, t1).value;
    assert once[id := once[id].(readAt := Some(t2))] == ns[id := ns[id].(readAt := Some(t2))];
  }

  /** Marking read changes neither the inbox nor anyone else's notifications. */
  lemma MarkedKeepsInbox(ns: seq<Notification>, userId: UserId, id: nat, now: Time, other: UserId)
    requires Marked(ns, userId, id, now).Ok?
    ensures Inbox(Marked(ns, userId, id, now).value, other) == Inbox(ns, other)
  {
    SameOwnersSameNewest(ns, Marked(ns, userId, id, now).value, other, InboxLimit);
  }

  /** Two tables whose rows have the same owners list the same ids. */
  lemma {:induction false} SameOwnersSameNewest(a: seq<Notification>, b: seq<Notification>, userId: UserId, limit: nat)
    requires |a| == |b|
    requires forall i :: 0 <= i < |a| ==> a[i].userId == b[i].userId
    ensures Newest(a, userId, limit) == Newest(b, userId, limit)
    decreases |a|
  {
    if a != [] && limit > 0 {
      var n := |a| - 1;
      if a[n].userId == userId {
        SameOwnersSameNewest(a[..n], b[..n], userId, limit - 1);
      } else {
        SameOwnersSameNewest(a[..n], b[..n], userId, limit);
      }
    }
  }

  /** `POST /notifications/:id/read`: `{ ok: true }`, or 404 with the table unchanged. */
  method MarkRead(db: Db, userId: UserId, id: nat, now: Time) returns (r: Result<()>)
    modifies db`notifications
    ensures var m := Marked(old(db.notifications), userId, id, now);
      && (m.Err? ==> r == Err(m.error) && db.notifications == old(db.notifications))
      && (m.Ok? ==> r == Ok(()) && db.notifications == m.value)
  {
    if id >= |db.notifications| || db.notifications[id].userId != userId {
      return Err(NotFound(None));
    }
    db.notifications := db.notifications[id := db.notifications[id].(readAt := Some(now))];
    r := Ok(());
  }
}
