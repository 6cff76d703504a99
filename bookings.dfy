/**
 * Bookings (routes/Booking.router.js): a unit can be held by at most one
 * booking that is not merely saved for later. A user books a unit by id;
 * the booking records the builder profile found by walking the unit up
 * its floor, building and project.
 */
module Bookings {
  import opened Wrappers
  import opened Schema
  import opened Store
  import opened Access
  import opened Hierarchy

  const Customers: seq<string> := ["user"]
  const AdminOnly: seq<string> := ["admin"]
  const StatusEditors: seq<string> := ["admin", "directBuilder"]

  /**
   * A booking that holds its unit: the one the filter
   * `{ unit, savedForLater: false }` finds, so not one whose flag is
   * stored as null.
   */
  predicate Holds(b: Booking, unit: Id) {
    b.unit == Some(unit) && b.savedForLater == Some(false)
  }

  /** Some booking holds the unit: the request for it is refused as taken. */
  predicate Taken(bookings: map<Id, Booking>, unit: Id) {
    exists k :: k in bookings && Holds(bookings[k], unit)
  }

  /** At most one booking holds each unit. */
  predicate AtMostOneActive(bookings: map<Id, Booking>) {
    forall a, b ::
      (a in bookings && b in bookings && bookings[a].unit.Some?
       && Holds(bookings[a], bookings[a].unit.value) && Holds(bookings[b], bookings[a].unit.value)) ==> a == b
  }

  /**
   * The builder profile a populated unit leads to. Every link must be a
   * stored document, the builder profile included; a broken link makes the
   * handler dereference null.
   */
  function BookedBuilder(c: Catalog, u: Id): (r: Option<Id>)
    ensures r.Some? <==> ResolveOwner(c, u).Ok? && ResolveOwner(c, u).value in c.builders
    ensures r.Some? ==> r == Some(ResolveOwner(c, u).value) && u in UnitsOfBuilder(c, r.value)
  {
    match ResolveOwner(c, u)
    case Ok(b) =>
      if b in c.builders then
        OwnerIffReachable(c, u, b);
        Some(b)
      else None
    case Err(_) => None
  }

  /**
   * The booking stored for an accepted request. The destructuring default
   * makes an undefined `saveForLater` false, but a JSON null is kept and
   * stored as null.
   */
  function NewBooking(me: Caller, unit: Id, builder: Id, saveForLater: Field<bool>, now: int): (b: Booking)
    ensures b.user == Some(me.id) && b.unit == Some(unit) && b.builder == Some(builder)
    ensures saveForLater.Unset? ==> b.savedForLater == Some(false)
    ensures saveForLater.Null? ==> b.savedForLater.None?
    ensures saveForLater.Set? ==> b.savedForLater == Some(saveForLater.value)
    ensures Holds(b, unit) <==> saveForLater.Unset? || saveForLater == Set(false)
    ensures b.status == "pending" && b.status in BookingStatuses && b.bookedAt == now
  {
    Booking(Some(me.id), Some(unit), Some(builder), Written(saveForLater, Some(false)), "pending", now)
  }

  /** The two booking routes, which differ only in how they refuse a taken unit. */
  datatype Route = Post | Book

  /** POST / answers 409 for a taken unit, POST /book 400. */
  function TakenStatus(route: Route): Status {
    if route.Post? then Conflict else BadRequest
  }

  /** POST / and POST /book. */
  method Reserve(db: Db, me: Caller, route: Route, unitId: Option<Id>, saveForLater: Field<bool>, now: int)
    returns (r: Result<Id>)
    requires db.Valid()
    modifies db
    ensures db.Valid()
    ensures !HasRole(me, Customers) ==> r == Err(Forbidden) && db.data == old(db.data)
    ensures HasRole(me, Customers) && (unitId.None? || unitId.value !in old(db.data.units)) ==>
      r == Err(NotFound) && db.data == old(db.data)
    ensures HasRole(me, Customers) && unitId.Some? && unitId.value in old(db.data.units) ==>
      if Taken(old(db.data.bookings), unitId.value) then
        r == Err(TakenStatus(route)) && db.data == old(db.data)
      else if BookedBuilder(old(db.data).Snapshot(), unitId.value).None? then
        r == Err(ServerError) && db.data == old(db.data)
      else
        r.Ok? && r.value !in old(db.data.bookings)
        && db.data == old(db.data).(
             bookings := old(db.data.bookings)[r.value := NewBooking(me, unitId.value, BookedBuilder(old(db.data).Snapshot(), unitId.value).value, saveForLater, now)],
             nextId := r.value + 1)
    ensures AtMostOneActive(old(db.data.bookings)) ==> AtMostOneActive(db.data.bookings)
  {
    if !HasRole(me, Customers) {
      return Err(Forbidden);
    }
    if unitId.None? || unitId.value !in db.data.units {
      return Err(NotFound);
    }
    var unit := unitId.value;
    var existing := First(db.data.bookings, (k: Id, b: Booking) => Holds(b, unit), db.data.nextId);
    if existing.Some? {
      return Err(TakenStatus(route));
    }
    var builder := BookedBuilder(db.data.Snapshot(), unit);
    if builder.None? {
      return Err(ServerError);
    }
    var b := NewBooking(me, unit, builder.value, saveForLater, now);
    var id := db.NewId();
    InsertKeepsOneActive(db.data.bookings, id, b);
    db.data := db.data.(bookings := db.data.bookings[id := b]);
    r := Ok(id);
  }

  /** Inserting a booking for a unit no booking holds keeps at most one holder per unit. */
  lemma InsertKeepsOneActive(bookings: map<Id, Booking>, id: Id, b: Booking)
    requires id !in bookings && b.unit.Some?
    requires forall k :: k in bookings ==> !Holds(bookings[k], b.unit.value)
    ensures AtMostOneActive(bookings) ==> AtMostOneActive(bookings[id := b])
  {
    if AtMostOneActive(bookings) {
      var bs := bookings[id := b];
      forall x, y | x in bs && y in bs && bs[x].unit.Some? && Holds(bs[x], bs[x].unit.value) && Holds(bs[y], bs[x].unit.value)
        ensures x == y
      {
      }
    }
  }

  /**
   * A booking whose flag is stored as null takes nothing: the units held
   * after it is inserted are those held before, so a later request for its
   * unit is not refused as taken.
   */
  lemma NullFlagHoldsNothing(bookings: map<Id, Booking>, id: Id, b: Booking, unit: Id)
    requires id !in bookings && b.savedForLater.None?
    ensures Taken(bookings[id := b], unit) <==> Taken(bookings, unit)
  {
    if k :| k in bookings && Holds(bookings[k], unit) {
      assert k in bookings[id := b] && Holds(bookings[id := b][k], unit);
    }
  }

  // ---- Listings

  /** GET /admin: every booking, for the admin role only. */
  function AllBookings(bookings: map<Id, Booking>, n: nat, me: Caller): (r: Result<seq<Id>>)
    requires Below(bookings, n)
    ensures r.Err? <==> !HasRole(me, AdminOnly)
    ensures r.Err? ==> r.status == Forbidden
    ensures r.Ok? ==> forall k :: k in r.value <==> k in bookings
  {
    if !HasRole(me, AdminOnly) then Err(Forbidden)
    else Ok(Find(bookings, (k: Id, b: Booking) => true, n))
  }

  /** GET /my: the caller's bookings. */
  function MyBookings(bookings: map<Id, Booking>, n: nat, me: Caller): (r: Result<seq<Id>>)
    requires Below(bookings, n)
    ensures r.Err? <==> !HasRole(me, Customers)
    ensures r.Err? ==> r.status == Forbidden
    ensures r.Ok? ==> forall k :: k in r.value <==> k in bookings && bookings[k].user == Some(me.id)
  {
    if !HasRole(me, Customers) then Err(Forbidden)
    else Ok(Find(bookings, (k: Id, b: Booking) => b.user == Some(me.id), n))
  }

  /**
   * GET /builder: gated on the role "builder" and filtered by the caller's
   * user id, although a booking's builder is a builder profile id.
   */
  function BuilderBookings(bookings: map<Id, Booking>, n: nat, me: Caller): (r: Result<seq<Id>>)
    requires Below(bookings, n)
    ensures r.Err? <==> me.user.role != "builder"
    ensures r.Err? ==> r.status == Forbidden
    ensures r.Ok? ==> forall k :: k in r.value <==> k in bookings && bookings[k].builder == Some(me.id)
  {
    match AuthorizeRoles(Some(me), ["builder"])
    case Err(s) => Err(s)
    case Ok(_) => Ok(Find(bookings, (k: Id, b: Booking) => b.builder == Some(me.id), n))
  }

  /** No caller with a role the User schema declares gets past the builder listing's gate. */
  lemma BuilderBookingsAlwaysForbidden(bookings: map<Id, Booking>, n: nat, me: Caller)
    requires Below(bookings, n) && me.user.role in UserRoles
    ensures BuilderBookings(bookings, n, me) == Err(Forbidden)
  {
    BuilderGateRefusesDeclaredRoles(me);
  }

  // ---- PUT /:id/status and DELETE /:id

  /**
   * PUT /:id/status overwrites the status with whatever the body holds, with
   * no check against the schema's list; an absent status leaves it as is.
   */
  method SetBookingStatus(db: Db, me: Caller, id: Id, status: Option<string>) returns (r: Result<Id>)
    requires db.Valid()
    modifies db
    ensures db.Valid()
    ensures !HasRole(me, StatusEditors) ==> r == Err(Forbidden) && db.data == old(db.data)
    ensures HasRole(me, StatusEditors) && id !in old(db.data.bookings) ==> r == Err(NotFound) && db.data == old(db.data)
    ensures HasRole(me, StatusEditors) && id in old(db.data.bookings) ==>
      r == Ok(id)
      && db.data == old(db.data).(bookings := old(db.data.bookings)[id := old(db.data.bookings)[id].(status := if status.Some? then status.value else old(db.data.bookings)[id].status)])
    ensures AtMostOneActive(old(db.data.bookings)) ==> AtMostOneActive(db.data.bookings)
  {
    if !HasRole(me, StatusEditors) {
      return Err(Forbidden);
    }
    if id !in db.data.bookings {
      return Err(NotFound);
    }
    var b := db.data.bookings[id];
    var updated := b.(status := if status.Some? then status.value else b.status);
    assert forall u :: Holds(updated, u) <==> Holds(b, u);
    db.data := db.data.(bookings := db.data.bookings[id := updated]);
    r := Ok(id);
  }

  /** DELETE /:id: only the caller's own booking is removed; anything else is a 404. */
  method CancelBooking(db: Db, me: Caller, id: Id) returns (r: Result<()>)
    requires db.Valid()
    modifies db
    ensures db.Valid()
    ensures !HasRole(me, Customers) ==> r == Err(Forbidden) && db.data == old(db.data)
    ensures HasRole(me, Customers) ==>
      if id in old(db.data.bookings) && old(db.data.bookings)[id].user == Some(me.id) then
        r == Ok(()) && db.data == old(db.data).(bookings := old(db.data.bookings) - {id})
      else r == Err(NotFound) && db.data == old(db.data)
    ensures AtMostOneActive(old(db.data.bookings)) ==> AtMostOneActive(db.data.bookings)
  {
    if !HasRole(me, Customers) {
      return Err(Forbidden);
    }
    if id !in db.data.bookings || db.data.bookings[id].user != Some(me.id) {
      return Err(NotFound);
    }
    db.data := db.data.(bookings := db.data.bookings - {id});
    r := Ok(());
  }
}
