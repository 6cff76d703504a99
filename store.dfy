/**
 * The database: one map from id to document per collection, held by the
 * class `Db`, with the unique indexes the schemas declare as part of its
 * invariant. A query scans the ids in ascending order, which is the order
 * documents were inserted in (Mongo's natural order).
 */
module Store {
  import opened Wrappers
  import opened Schema

  /** Every id in use is below `n`: `n` is a fresh id. */
  predicate Below<T>(m: map<Id, T>, n: nat) {
    forall k :: k in m ==> k < n
  }

  /** `find(filter)`: the ids below `n` whose documents pass `keep`, in ascending order. */
  function Find<T>(m: map<Id, T>, keep: (Id, T) -> bool, n: nat): (r: seq<Id>)
    ensures forall k :: k in r ==> k < n && k in m && keep(k, m[k])
    ensures forall k :: k < n && k in m && keep(k, m[k]) ==> k in r
    ensures forall i, j :: 0 <= i < j < |r| ==> r[i] < r[j]
  {
    if n == 0 then []
    else
      var r := Find(m, keep, n - 1);
      assert forall i :: 0 <= i < |r| ==> r[i] in r;
      if n - 1 in m && keep(n - 1, m[n - 1]) then r + [n - 1] else r
  }

  /**
   * One equality condition of a query filter. Mongoose drops a condition
   * whose value is undefined, so an absent value matches every document.
   */
  predicate Matches<K(==)>(q: Option<K>, v: Option<K>) {
    q.None? || v == q
  }

  /** `findOne(filter)`: the first id below `n`, in insertion order, whose document passes `keep`. */
  function First<T>(m: map<Id, T>, keep: (Id, T) -> bool, n: nat): (r: Option<Id>)
    ensures r.Some? ==> r.value in m && r.value < n && keep(r.value, m[r.value])
    ensures r.Some? ==> forall k :: k < r.value && k in m ==> !keep(k, m[k])
    ensures r.None? ==> forall k :: k < n && k in m ==> !keep(k, m[k])
  {
    var ids := Find(m, keep, n);
    if ids == [] then None
    else
      assert ids[0] in ids;
      Some(ids[0])
  }

  // ---- `sort(...)` on one numeric key

  predicate SortedBy(s: seq<Id>, key: Id -> int) {
    forall i, j :: 0 <= i < j < |s| ==> key(s[i]) <= key(s[j])
  }

  function InsertBy(x: Id, s: seq<Id>, key: Id -> int): (r: seq<Id>)
    requires SortedBy(s, key)
    ensures SortedBy(r, key)
    ensures multiset(r) == multiset(s) + multiset{x}
    ensures forall i :: 0 <= i < |r| ==> r[i] == x || r[i] in s
  {
    if s == [] then [x]
    else if key(x) <= key(s[0]) then [x] + s
    else
      var t := InsertBy(x, s[1..], key);
      assert s == [s[0]] + s[1..];
      InsertAfterHead(x, s, key, t);
      [s[0]] + t
  }

  /** Putting the least element of `s` in front of a sorted `t` drawn from the rest keeps it sorted. */
  lemma InsertAfterHead(x: Id, s: seq<Id>, key: Id -> int, t: seq<Id>)
    requires SortedBy(s, key) && s != [] && key(s[0]) < key(x)
    requires SortedBy(t, key)
    requires forall i :: 0 <= i < |t| ==> t[i] == x || t[i] in s[1..]
    ensures SortedBy([s[0]] + t, key)
  {
    forall j | 0 <= j < |t|
      ensures key(s[0]) <= key(t[j])
    {
      if t[j] != x {
        var k :| 0 <= k < |s[1..]| && s[1..][k] == t[j];
        assert s[k + 1] == t[j];
      }
    }
    var r := [s[0]] + t;
    forall i, j | 0 <= i < j < |r|
      ensures key(r[i]) <= key(r[j])
    {
      assert r[j] == t[j - 1];
      if i > 0 {
        assert r[i] == t[i - 1];
      }
    }
  }

  /** The same ids, ordered by ascending `key`. */
  function SortBy(s: seq<Id>, key: Id -> int): (r: seq<Id>)
    ensures SortedBy(r, key)
    ensures multiset(r) == multiset(s)
  {
    if s == [] then []
    else
      assert s == [s[0]] + s[1..];
      InsertBy(s[0], SortBy(s[1..], key), key)
  }

  /** `sort({ createdAt: -1 })`: the same ids, the most recently created first. */
  function NewestFirst<T>(m: map<Id, T>, ids: seq<Id>, created: T -> int): (r: seq<Id>)
    requires forall k :: k in ids ==> k in m
    ensures multiset(r) == multiset(ids)
    ensures forall k :: k in r <==> k in ids
    ensures forall i, j :: 0 <= i < j < |r| ==> r[i] in m && r[j] in m && created(m[r[i]]) >= created(m[r[j]])
  {
    var key := (k: Id) => if k in m then -created(m[k]) else 0;
    var r := SortBy(ids, key);
    assert forall k :: k in r <==> k in multiset(r);
    assert forall k :: k in ids <==> k in multiset(ids);
    r
  }

  /** `sort({ field: 1 })`: the same ids, the smallest `at` first. */
  function EarliestFirst<T>(m: map<Id, T>, ids: seq<Id>, at: T -> int): (r: seq<Id>)
    requires forall k :: k in ids ==> k in m
    ensures multiset(r) == multiset(ids)
    ensures forall k :: k in r <==> k in ids
    ensures forall i, j :: 0 <= i < j < |r| ==> r[i] in m && r[j] in m && at(m[r[i]]) <= at(m[r[j]])
  {
    var key := (k: Id) => if k in m then at(m[k]) else 0;
    var r := SortBy(ids, key);
    assert forall k :: k in r <==> k in multiset(r);
    assert forall k :: k in ids <==> k in multiset(ids);
    r
  }

  // ---- The unique indexes

  /** email and username are unique; phone and socialId are unique where present. */
  predicate UsersUnique(users: map<Id, User>) {
    forall a, b :: a in users && b in users && a != b ==>
      users[a].email != users[b].email && users[a].username != users[b].username
      && (users[a].phone.Some? ==> users[a].phone != users[b].phone)
      && (users[a].socialId.Some? ==> users[a].socialId != users[b].socialId)
  }

  /** The fields the unique indexes of the users look at. */
  predicate SameIdentity(a: User, b: User) {
    a.email == b.email && a.username == b.username && a.phone == b.phone && a.socialId == b.socialId
  }

  /** No stored user shares an indexed field with `u`. */
  predicate Unclaimed(users: map<Id, User>, u: User) {
    forall k :: k in users ==>
      users[k].email != u.email && users[k].username != u.username
      && (u.phone.Some? ==> users[k].phone != u.phone)
      && (u.socialId.Some? ==> users[k].socialId != u.socialId)
  }

  /** Rewriting a user without touching its indexed fields keeps the indexes unique. */
  lemma RewriteKeepsUsersUnique(users: map<Id, User>, id: Id, u: User)
    requires UsersUnique(users) && id in users && SameIdentity(users[id], u)
    ensures UsersUnique(users[id := u])
  {
  }

  /** Adding a user that claims no indexed value in use keeps the indexes unique. */
  lemma InsertKeepsUsersUnique(users: map<Id, User>, id: Id, u: User)
    requires UsersUnique(users) && id !in users && Unclaimed(users, u)
    ensures UsersUnique(users[id := u])
  {
  }

  /** At most one builder profile per user. */
  predicate ProfilesUnique(builders: map<Id, BuilderProfile>) {
    forall a, b :: a in builders && b in builders && a != b ==> builders[a].user != builders[b].user
  }

  /** At most one broker profile per user. */
  predicate BrokersUnique(brokers: map<Id, Broker>) {
    forall a, b :: a in brokers && b in brokers && a != b ==> brokers[a].user != brokers[b].user
  }

  /** A user saves a unit at most once. */
  predicate SavesUnique(saved: map<Id, SavedProperty>) {
    forall a, b :: a in saved && b in saved && a != b ==>
      (saved[a].user, saved[a].unit) != (saved[b].user, saved[b].unit)
  }

  /** One subscription per address. */
  predicate SubscribersUnique(subscribers: map<Id, Subscriber>) {
    forall a, b :: a in subscribers && b in subscribers && a != b ==>
      subscribers[a].email != subscribers[b].email
  }

  /** The builder profile of a user: the first one whose user it is. */
  function ProfileOf(builders: map<Id, BuilderProfile>, n: nat, user: Id): (r: Option<Id>)
    requires Below(builders, n)
    ensures r.Some? ==> r.value in builders && builders[r.value].user == Some(user)
    ensures r.None? <==> forall k :: k in builders ==> builders[k].user != Some(user)
  {
    First(builders, (k: Id, b: BuilderProfile) => b.user == Some(user), n)
  }

  /** A snapshot of the five property collections, with the store's fresh id as bound. */
  datatype Catalog = Catalog(
    builders: map<Id, BuilderProfile>,
    projects: map<Id, Project>,
    buildings: map<Id, Building>,
    floors: map<Id, Floor>,
    units: map<Id, Unit>,
    bound: nat)
  {
    predicate Bounded() {
      Below(builders, bound) && Below(projects, bound) && Below(buildings, bound)
      && Below(floors, bound) && Below(units, bound)
    }
  }

  /** The contents of every collection, and the next id the database hands out. */
  datatype Tables = Tables(
    users: map<Id, User>,
    builders: map<Id, BuilderProfile>,
    projects: map<Id, Project>,
    buildings: map<Id, Building>,
    floors: map<Id, Floor>,
    units: map<Id, Unit>,
    bookings: map<Id, Booking>,
    transactions: map<Id, Transaction>,
    leads: map<Id, Lead>,
    inquiries: map<Id, Inquiry>,
    reviews: map<Id, Review>,
    feedback: map<Id, Feedback>,
    complaints: map<Id, Complaint>,
    notifications: map<Id, Notification>,
    ads: map<Id, Ad>,
    subscribers: map<Id, Subscriber>,
    saved: map<Id, SavedProperty>,
    forms: map<Id, BookingForm>,
    appointments: map<Id, Appointment>,
    events: map<Id, CalendarEvent>,
    brokers: map<Id, Broker>,
    nextId: Id)
  {
    /** Every collection's ids are below `nextId`. */
    predicate Fresh() {
      Below(users, nextId) && Below(builders, nextId) && Below(projects, nextId)
      && Below(buildings, nextId) && Below(floors, nextId) && Below(units, nextId)
      && Below(bookings, nextId) && Below(transactions, nextId) && Below(leads, nextId)
      && Below(inquiries, nextId) && Below(reviews, nextId) && Below(feedback, nextId)
      && Below(complaints, nextId) && Below(notifications, nextId) && Below(ads, nextId)
      && Below(subscribers, nextId) && Below(saved, nextId) && Below(forms, nextId)
      && Below(appointments, nextId) && Below(events, nextId) && Below(brokers, nextId)
    }

    /** Fresh ids and the unique indexes. */
    predicate Valid() {
      Fresh()
      && UsersUnique(users) && ProfilesUnique(builders) && BrokersUnique(brokers)
      && SavesUnique(saved) && SubscribersUnique(subscribers)
    }

    /** The property collections, bounded by the fresh id. */
    function Snapshot(): (c: Catalog)
      ensures Fresh() ==> c.Bounded()
    {
      Catalog(builders, projects, buildings, floors, units, nextId)
    }
  }

  /** The database the handlers share. */
  class Db {
    var data: Tables

    ghost predicate Valid()
      reads this
    {
      data.Valid()
    }

    constructor ()
      ensures Valid()
      ensures data == Tables(map[], map[], map[], map[], map[], map[], map[], map[], map[], map[], map[], map[], map[], map[], map[], map[], map[], map[], map[], map[], map[], 0)
    {
      data := Tables(map[], map[], map[], map[], map[], map[], map[], map[], map[], map[], map[], map[], map[], map[], map[], map[], map[], map[], map[], map[], map[], 0);
    }

    /** A new ObjectId, unused by every collection. */
    method NewId() returns (id: Id)
      requires Valid()
      modifies this
      ensures Valid()
      ensures id == old(data.nextId) && data == old(data).(nextId := id + 1)
    {
      id := data.nextId;
      data := data.(nextId := id + 1);
    }
  }
}
