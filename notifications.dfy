/**
 * Notifications (routes/Notification.router.js): administrators send a
 * notification to a user, and each signed-in user lists and marks read
 * only their own. The Notification schema is not part of this model: a
 * new notification is taken to start unread and stamped with its
 * creation time, which the listing sorts by.
 */
module Notifications {
  import opened Wrappers
  import opened Schema
  import opened Store
  import opened Access

  datatype NotificationBody = NotificationBody(user: Option<Id>, title: string, message: string, link: string)

  /** The notification POST / stores. */
  function NewNotification(q: NotificationBody, now: int): (m: Notification)
    ensures m.user == q.user && m.title == q.title && m.message == q.message && m.link == q.link
    ensures !m.isRead && m.createdAt == now
  {
    Notification(q.user, q.title, q.message, q.link, false, now)
  }

  function Created(m: Notification): int { m.createdAt }

  /** GET /: the caller's notifications, newest first; any signed-in caller. */
  function MyNotifications(notifications: map<Id, Notification>, n: nat, me: Caller): (r: seq<Id>)
    requires Below(notifications, n)
    ensures forall k :: k in r <==> k in notifications && notifications[k].user == Some(me.id)
    ensures forall i, j :: 0 <= i < j < |r| ==> notifications[r[i]].createdAt >= notifications[r[j]].createdAt
  {
    NewestFirst(notifications, Find(notifications, (k: Id, m: Notification) => m.user == Some(me.id), n), Created)
  }

  /** Whether `k` names a notification of the caller: the filter of PUT /:id/read. */
  predicate Owns(notifications: map<Id, Notification>, me: Caller, k: Id) {
    k in notifications && notifications[k].user == Some(me.id)
  }

  /** The notification once read. */
  function MarkedRead(m: Notification): (d: Notification)
    ensures d.isRead
    ensures d.user == m.user && d.title == m.title && d.message == m.message && d.link == m.link && d.createdAt == m.createdAt
  {
    m.(isRead := true)
  }

  /**
   * PUT /:id/read: sets `isRead` on the caller's own notification; another
   * user's, or an unknown one, is a 404. Marking twice is marking once.
   */
  method MarkRead(db: Db, me: Caller, id: Id) returns (r: Result<Id>)
    requires db.Valid()
    modifies db
    ensures db.Valid()
    ensures !Owns(old(db.data.notifications), me, id) ==> r == Err(NotFound) && db.data == old(db.data)
    ensures Owns(old(db.data.notifications), me, id) ==>
      r == Ok(id)
      && db.data == old(db.data).(notifications := old(db.data.notifications)[id := MarkedRead(old(db.data.notifications)[id])])
  {
    if !Owns(db.data.notifications, me, id) {
      return Err(NotFound);
    }
    db.data := db.data.(notifications := db.data.notifications[id := MarkedRead(db.data.notifications[id])]);
    r := Ok(id);
  }

  /** Marking read changes nothing a second time, and only the caller's notifications are touched. */
  lemma MarkReadIdempotent(notifications: map<Id, Notification>, me: Caller, id: Id)
    requires Owns(notifications, me, id)
    ensures var once := notifications[id := MarkedRead(notifications[id])];
      Owns(once, me, id) && once[id := MarkedRead(once[id])] == once
  {
  }

  /** POST /: administrators only; a missing user, title or message is a 400. */
  method CreateNotification(db: Db, me: Caller, q: NotificationBody, now: int) returns (r: Result<Id>)
    requires db.Valid()
    modifies db
    ensures db.Valid()
    ensures !HasRole(me, Admins) ==> r == Err(Forbidden) && db.data == old(db.data)
    ensures HasRole(me, Admins) && (q.user.None? || q.title == "" || q.message == "") ==>
      r == Err(BadRequest) && db.data == old(db.data)
    ensures HasRole(me, Admins) && q.user.Some? && q.title != "" && q.message != "" ==>
      r.Ok? && r.value !in old(db.data.notifications)
      && db.data == old(db.data).(notifications := old(db.data.notifications)[r.value := NewNotification(q, now)], nextId := r.value + 1)
  {
    if !HasRole(me, Admins) {
      return Err(Forbidden);
    }
    if q.user.None? || q.title == "" || q.message == "" {
      return Err(BadRequest);
    }
    var m := NewNotification(q, now);
    var id := db.NewId();
    db.data := db.data.(notifications := db.data.notifications[id := m]);
    r := Ok(id);
  }

  /** A new notification shows up, unread, among its recipient's notifications. */
  lemma CreatedIsListed(notifications: map<Id, Notification>, n: nat, q: NotificationBody, now: int, recipient: Caller)
    requires Below(notifications, n) && q.user == Some(recipient.id)
    ensures var after := notifications[n := NewNotification(q, now)];
      n in MyNotifications(after, n + 1, recipient) && !after[n].isRead
  {
    var after := notifications[n := NewNotification(q, now)];
    assert Below(after, n + 1);
    assert after[n].user == Some(recipient.id);
  }

  /** DELETE /:id: administrators remove a notification; an unknown one is a 404. */
  method DeleteNotification(db: Db, me: Caller, id: Id) returns (r: Result<()>)
    requires db.Valid()
    modifies db
    ensures db.Valid()
    ensures !HasRole(me, Admins) ==> r == Err(Forbidden) && db.data == old(db.data)
    ensures HasRole(me, Admins) && id !in old(db.data.notifications) ==> r == Err(NotFound) && db.data == old(db.data)
    ensures HasRole(me, Admins) && id in old(db.data.notifications) ==>
      r == Ok(()) && db.data == old(db.data).(notifications := old(db.data.notifications) - {id})
  {
    if !HasRole(me, Admins) {
      return Err(Forbidden);
    }
    if id !in db.data.notifications {
      return Err(NotFound);
    }
    db.data := db.data.(notifications := db.data.notifications - {id});
    r := Ok(());
  }
}
