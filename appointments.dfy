/**
 * Appointments (routes/Appointment.router.js): a user books a visit with a
 * builder, administrators move it through its statuses, and its creator or
 * an administrator may delete it. Like the complaint routes, the builder
 * side compares with `req.user.builderProfileId`, which the User schema
 * does not declare.
 */
module Appointments {
  import opened Wrappers
  import opened Schema
  import opened Store
  import opened Access

  const Schedulers: seq<string> := ["admin", "directBuilder"]

  datatype AppointmentBody = AppointmentBody(
    builder: Option<Id>,
    property: Option<Id>,
    appointmentDate: Option<int>,
    remarks: string)

  /** The appointment POST / stores: the caller's, and `pending`. */
  function NewAppointment(me: Caller, q: AppointmentBody, now: int): (a: Appointment)
    ensures a.user == Some(me.id) && a.builder == q.builder && a.property == q.property
    ensures a.appointmentDate == q.appointmentDate && a.status == "pending" && a.createdAt == now
    ensures AppointmentRequired(a) <==> q.builder.Some? && q.appointmentDate.Some?
  {
    Appointment(Some(me.id), q.builder, q.property, q.appointmentDate, "pending", q.remarks, now)
  }

  /** POST /: a missing builder or date is a 400, and so is a date of 0, which is falsy. */
  method CreateAppointment(db: Db, me: Caller, q: AppointmentBody, now: int) returns (r: Result<Id>)
    requires db.Valid()
    modifies db
    ensures db.Valid()
    ensures !HasRole(me, ["user"]) ==> r == Err(Forbidden) && db.data == old(db.data)
    ensures HasRole(me, ["user"]) && (q.builder.None? || !Truthy(q.appointmentDate)) ==>
      r == Err(BadRequest) && db.data == old(db.data)
    ensures HasRole(me, ["user"]) && q.builder.Some? && Truthy(q.appointmentDate) ==>
      r.Ok? && r.value !in old(db.data.appointments)
      && db.data == old(db.data).(appointments := old(db.data.appointments)[r.value := NewAppointment(me, q, now)], nextId := r.value + 1)
  {
    if !HasRole(me, ["user"]) {
      return Err(Forbidden);
    }
    if q.builder.None? || !Truthy(q.appointmentDate) {
      return Err(BadRequest);
    }
    var a := NewAppointment(me, q, now);
    var id := db.NewId();
    db.data := db.data.(appointments := db.data.appointments[id := a]);
    r := Ok(id);
  }

  /** GET /my: the caller's appointments. */
  function MyAppointments(appointments: map<Id, Appointment>, n: nat, me: Caller): (r: Result<seq<Id>>)
    requires Below(appointments, n)
    ensures r.Err? <==> !HasRole(me, ["user"])
    ensures r.Err? ==> r.status == Forbidden
    ensures r.Ok? ==> forall k :: k in r.value <==> k in appointments && appointments[k].user == Some(me.id)
  {
    if !HasRole(me, ["user"]) then Err(Forbidden)
    else Ok(Find(appointments, (k: Id, a: Appointment) => a.user == Some(me.id), n))
  }

  /** GET /: every appointment, for administrators. */
  function AllAppointments(appointments: map<Id, Appointment>, n: nat, me: Caller): (r: Result<seq<Id>>)
    requires Below(appointments, n)
    ensures r.Err? <==> !HasRole(me, Admins)
    ensures r.Err? ==> r.status == Forbidden
    ensures r.Ok? ==> forall k :: k in r.value <==> k in appointments
  {
    if !HasRole(me, Admins) then Err(Forbidden)
    else Ok(Find(appointments, (k: Id, a: Appointment) => true, n))
  }

  /** GET /builder as written: the builder filter is undefined and dropped, so every appointment is listed. */
  function BuilderAppointments(appointments: map<Id, Appointment>, n: nat, me: Caller): (r: Result<seq<Id>>)
    requires Below(appointments, n)
    ensures r.Err? <==> !HasRole(me, ["directBuilder"])
    ensures r.Err? ==> r.status == Forbidden
    ensures r.Ok? ==> forall k :: k in r.value <==> k in appointments && Matches(None, appointments[k].builder)
  {
    if !HasRole(me, ["directBuilder"]) then Err(Forbidden)
    else Ok(Find(appointments, (k: Id, a: Appointment) => Matches(None, a.builder), n))
  }

  /** As written, every directBuilder sees every appointment, those with other builders included. */
  lemma BuilderListingShowsEveryAppointment(appointments: map<Id, Appointment>, n: nat, me: Caller, k: Id)
    requires Below(appointments, n) && HasRole(me, ["directBuilder"]) && k in appointments
    ensures BuilderAppointments(appointments, n, me).Ok? && k in BuilderAppointments(appointments, n, me).value
  {
  }

  /** GET /builder as intended: the appointments with the caller's builder profile; none is a 404. */
  function OwnAppointments(builders: map<Id, BuilderProfile>, appointments: map<Id, Appointment>, n: nat, me: Caller)
    : (r: Result<seq<Id>>)
    requires Below(builders, n) && Below(appointments, n)
    ensures !HasRole(me, ["directBuilder"]) ==> r == Err(Forbidden)
    ensures HasRole(me, ["directBuilder"]) ==> (r.Ok? <==> ProfileOf(builders, n, me.id).Some?)
    ensures r.Ok? ==> forall k :: k in r.value <==> k in appointments && appointments[k].builder == ProfileOf(builders, n, me.id)
  {
    if !HasRole(me, ["directBuilder"]) then Err(Forbidden)
    else
      match ProfileOf(builders, n, me.id)
      case None => Err(NotFound)
      case Some(p) => Ok(Find(appointments, (k: Id, a: Appointment) => a.builder == Some(p), n))
  }

  /**
   * With at most one profile per user, the corrected listing holds exactly
   * the appointments with a builder profile the caller owns.
   */
  lemma OwnAppointmentsAreOwn(builders: map<Id, BuilderProfile>, appointments: map<Id, Appointment>, n: nat, me: Caller, k: Id)
    requires Below(builders, n) && Below(appointments, n) && ProfilesUnique(builders)
    requires OwnAppointments(builders, appointments, n, me).Ok?
    ensures k in OwnAppointments(builders, appointments, n, me).value <==>
      k in appointments && appointments[k].builder.Some? && appointments[k].builder.value in builders
      && builders[appointments[k].builder.value].user == Some(me.id)
  {
    var p := ProfileOf(builders, n, me.id).value;
    assert p in builders && builders[p].user == Some(me.id);
  }

  /**
   * PUT /:id/status: a status outside the four is a 400 before any lookup,
   * an unknown appointment a 404. A directBuilder is compared with undefined
   * and refused (403), or fails on an appointment without a builder (500).
   */
  method SetAppointmentStatus(db: Db, me: Caller, id: Id, status: Option<string>) returns (r: Result<Id>)
    requires db.Valid()
    modifies db
    ensures db.Valid()
    ensures !HasRole(me, Schedulers) ==> r == Err(Forbidden) && db.data == old(db.data)
    ensures HasRole(me, Schedulers) && (status.None? || status.value !in AppointmentStatuses) ==>
      r == Err(BadRequest) && db.data == old(db.data)
    ensures HasRole(me, Schedulers) && status.Some? && status.value in AppointmentStatuses ==>
      if id !in old(db.data.appointments) then r == Err(NotFound) && db.data == old(db.data)
      else
        var a := old(db.data.appointments)[id];
        if me.user.role == "directBuilder" then
          r == Err(if a.builder.None? then ServerError else Forbidden) && db.data == old(db.data)
        else if !AppointmentRequired(a) then r == Err(ServerError) && db.data == old(db.data)
        else r == Ok(id) && db.data == old(db.data).(appointments := old(db.data.appointments)[id := a.(status := status.value)])
  {
    if !HasRole(me, Schedulers) {
      return Err(Forbidden);
    }
    if status.None? || status.value !in AppointmentStatuses {
      return Err(BadRequest);
    }
    if id !in db.data.appointments {
      return Err(NotFound);
    }
    var a := db.data.appointments[id];
    if me.user.role == "directBuilder" {
      if a.builder.None? {
        return Err(ServerError);
      }
      return Err(Forbidden);
    }
    if !AppointmentRequired(a) {
      return Err(ServerError);
    }
    db.data := db.data.(appointments := db.data.appointments[id := a.(status := status.value)]);
    r := Ok(id);
  }

  /**
   * DELETE /:id: 404 for an unknown appointment; anyone but an
   * administrator must be its creator (403), and an appointment without a
   * creator fails for them (500).
   */
  method DeleteAppointment(db: Db, me: Caller, id: Id) returns (r: Result<()>)
    requires db.Valid()
    modifies db
    ensures db.Valid()
    ensures id !in old(db.data.appointments) ==> r == Err(NotFound) && db.data == old(db.data)
    ensures id in old(db.data.appointments) ==>
      var a := old(db.data.appointments)[id];
      if HasRole(me, Admins) || a.user == Some(me.id) then
        r == Ok(()) && db.data == old(db.data).(appointments := old(db.data.appointments) - {id})
      else r == Err(if a.user.None? then ServerError else Forbidden) && db.data == old(db.data)
  {
    if id !in db.data.appointments {
      return Err(NotFound);
    }
    var a := db.data.appointments[id];
    if !HasRole(me, Admins) {
      if a.user.None? {
        return Err(ServerError);
      }
      if a.user != Some(me.id) {
        return Err(Forbidden);
      }
    }
    db.data := db.data.(appointments := db.data.appointments - {id});
    r := Ok(());
  }
}
