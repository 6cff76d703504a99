/**
 * Calendar events (routes/Calender.router.js): any signed-in caller puts an
 * event on their own calendar or on another user's; the calendar lists
 * what one owns or created, in start order, and only the creator may
 * change or delete an event. The Event schema is not part of this model:
 * its save is taken to accept whatever the route assigns.
 */
module Calendar {
  import opened Wrappers
  import opened Schema
  import opened Store
  import opened Access

  datatype EventBody = EventBody(
    title: string,
    startDate: Option<int>,
    endDate: Option<int>,
    isPublic: Option<bool>,
    link: string,
    targetUserId: Option<Id>)

  /** The event POST / stores: owned by the target when one is given, created by the caller. */
  function NewEvent(me: Caller, q: EventBody): (e: CalendarEvent)
    requires q.startDate.Some? && q.endDate.Some?
    ensures e.userId == (if q.targetUserId.Some? then q.targetUserId else Some(me.id))
    ensures e.createdBy == Some(me.id)
    ensures e.title == q.title && e.startDate == q.startDate.value && e.endDate == q.endDate.value
    ensures e.isPublic <==> q.isPublic == Some(true)
  {
    CalendarEvent(if q.targetUserId.Some? then q.targetUserId else Some(me.id), Some(me.id), q.title,
                  q.startDate.value, q.endDate.value, q.isPublic == Some(true), q.link)
  }

  /** POST /: a missing title, start or end is a 400, and so is a start or end of 0, which is falsy. */
  method CreateEvent(db: Db, me: Caller, q: EventBody) returns (r: Result<Id>)
    requires db.Valid()
    modifies db
    ensures db.Valid()
    ensures (q.title == "" || !Truthy(q.startDate) || !Truthy(q.endDate)) ==> r == Err(BadRequest) && db.data == old(db.data)
    ensures q.title != "" && Truthy(q.startDate) && Truthy(q.endDate) ==>
      r.Ok? && r.value !in old(db.data.events)
      && db.data == old(db.data).(events := old(db.data.events)[r.value := NewEvent(me, q)], nextId := r.value + 1)
  {
    if q.title == "" || !Truthy(q.startDate) || !Truthy(q.endDate) {
      return Err(BadRequest);
    }
    var e := NewEvent(me, q);
    var id := db.NewId();
    db.data := db.data.(events := db.data.events[id := e]);
    r := Ok(id);
  }

  /** Whether an event is on the caller's calendar: they own it or created it. */
  predicate OnCalendar(e: CalendarEvent, me: Caller) {
    e.userId == Some(me.id) || e.createdBy == Some(me.id)
  }

  function Start(e: CalendarEvent): int { e.startDate }

  /** GET /: the events the caller owns or created, earliest start first. */
  function MyEvents(events: map<Id, CalendarEvent>, n: nat, me: Caller): (r: seq<Id>)
    requires Below(events, n)
    ensures forall k :: k in r <==> k in events && OnCalendar(events[k], me)
    ensures forall i, j :: 0 <= i < j < |r| ==> events[r[i]].startDate <= events[r[j]].startDate
  {
    EarliestFirst(events, Find(events, (k: Id, e: CalendarEvent) => OnCalendar(e, me), n), Start)
  }

  /** An event put on another user's calendar is listed for that user and for its creator. */
  lemma CreatedVisibleToBoth(events: map<Id, CalendarEvent>, n: nat, me: Caller, target: Caller, q: EventBody)
    requires Below(events, n) && q.startDate.Some? && q.endDate.Some? && q.targetUserId == Some(target.id)
    ensures var after := events[n := NewEvent(me, q)];
      n in MyEvents(after, n + 1, target) && n in MyEvents(after, n + 1, me)
  {
    var after := events[n := NewEvent(me, q)];
    assert Below(after, n + 1);
  }

  /** GET /:id: the event when the caller owns it; one they only created, or an unknown one, is a 404. */
  function GetEvent(events: map<Id, CalendarEvent>, me: Caller, id: Id): (r: Result<CalendarEvent>)
    ensures r.Ok? <==> id in events && events[id].userId == Some(me.id)
    ensures r.Ok? ==> r.value == events[id]
    ensures r.Err? ==> r.status == NotFound
  {
    if id in events && events[id].userId == Some(me.id) then Ok(events[id]) else Err(NotFound)
  }

  /** The fields of a PUT / body that `Object.assign` copies onto the event. */
  datatype EventPatch = EventPatch(
    userId: Option<Option<Id>>,
    createdBy: Option<Option<Id>>,
    title: Option<string>,
    startDate: Option<int>,
    endDate: Option<int>,
    isPublic: Option<bool>,
    link: Option<string>)

  /** The event with every field the body gives replaced and every other kept. */
  function Assigned(e: CalendarEvent, p: EventPatch): (d: CalendarEvent)
    ensures d.userId == (if p.userId.Some? then p.userId.value else e.userId)
    ensures d.createdBy == (if p.createdBy.Some? then p.createdBy.value else e.createdBy)
    ensures d.title == (if p.title.Some? then p.title.value else e.title)
    ensures d.startDate == (if p.startDate.Some? then p.startDate.value else e.startDate)
    ensures d.endDate == (if p.endDate.Some? then p.endDate.value else e.endDate)
    ensures d.isPublic == (if p.isPublic.Some? then p.isPublic.value else e.isPublic)
    ensures d.link == (if p.link.Some? then p.link.value else e.link)
  {
    CalendarEvent(
      if p.userId.Some? then p.userId.value else e.userId,
      if p.createdBy.Some? then p.createdBy.value else e.createdBy,
      if p.title.Some? then p.title.value else e.title,
      if p.startDate.Some? then p.startDate.value else e.startDate,
      if p.endDate.Some? then p.endDate.value else e.endDate,
      if p.isPublic.Some? then p.isPublic.value else e.isPublic,
      if p.link.Some? then p.link.value else e.link)
  }

  /** An empty body changes nothing, and assigning the same body twice is assigning it once. */
  lemma AssignIdempotent(e: CalendarEvent, p: EventPatch)
    ensures Assigned(e, EventPatch(None, None, None, None, None, None, None)) == e
    ensures Assigned(Assigned(e, p), p) == Assigned(e, p)
  {
  }

  /**
   * The creator check of PUT and DELETE: an unknown event is a 404, an
   * event without a creator fails (500), and anyone but the creator is
   * refused (403).
   */
  function CreatorCheck(events: map<Id, CalendarEvent>, me: Caller, id: Id): (r: Option<Status>)
    ensures r.None? <==> id in events && events[id].createdBy == Some(me.id)
    ensures id !in events ==> r == Some(NotFound)
    ensures id in events && events[id].createdBy.None? ==> r == Some(ServerError)
    ensures id in events && events[id].createdBy.Some? && events[id].createdBy != Some(me.id) ==> r == Some(Forbidden)
  {
    if id !in events then Some(NotFound)
    else if events[id].createdBy.None? then Some(ServerError)
    else if events[id].createdBy != Some(me.id) then Some(Forbidden)
    else None
  }

  /** PUT /:id: the creator's body is assigned onto the event. */
  method UpdateEvent(db: Db, me: Caller, id: Id, p: EventPatch) returns (r: Result<Id>)
    requires db.Valid()
    modifies db
    ensures db.Valid()
    ensures CreatorCheck(old(db.data.events), me, id).Some? ==>
      r == Err(CreatorCheck(old(db.data.events), me, id).value) && db.data == old(db.data)
    ensures CreatorCheck(old(db.data.events), me, id).None? ==>
      r == Ok(id) && db.data == old(db.data).(events := old(db.data.events)[id := Assigned(old(db.data.events)[id], p)])
  {
    var refusal := CreatorCheck(db.data.events, me, id);
    if refusal.Some? {
      return Err(refusal.value);
    }
    db.data := db.data.(events := db.data.events[id := Assigned(db.data.events[id], p)]);
    r := Ok(id);
  }

  /**
   * The body may name a new creator: after such an update the old creator
   * is refused, and only a body that leaves `createdBy` alone keeps them in
   * charge.
   */
  lemma UpdateCanHandOver(events: map<Id, CalendarEvent>, me: Caller, id: Id, p: EventPatch)
    requires CreatorCheck(events, me, id).None?
    ensures var after := events[id := Assigned(events[id], p)];
      CreatorCheck(after, me, id).None? <==> p.createdBy.None? || p.createdBy.value == Some(me.id)
  {
  }

  /** DELETE /:id: the creator removes the event. */
  method DeleteEvent(db: Db, me: Caller, id: Id) returns (r: Result<()>)
    requires db.Valid()
    modifies db
    ensures db.Valid()
    ensures CreatorCheck(old(db.data.events), me, id).Some? ==>
      r == Err(CreatorCheck(old(db.data.events), me, id).value) && db.data == old(db.data)
    ensures CreatorCheck(old(db.data.events), me, id).None? ==>
      r == Ok(()) && db.data == old(db.data).(events := old(db.data.events) - {id})
  {
    var refusal := CreatorCheck(db.data.events, me, id);
    if refusal.Some? {
      return Err(refusal.value);
    }
    db.data := db.data.(events := db.data.events - {id});
    r := Ok(());
  }
}
