/**
 * Inquiries (routes/Inquiry.router.js): a signed-in user asks a builder,
 * and optionally about one of its projects; the builder's directBuilder
 * and the administrators move the inquiry through its statuses, and
 * closing it records when it was answered.
 */
module Inquiries {
  import opened Wrappers
  import opened Schema
  import opened Store
  import opened Access

  const Askers: seq<string> := ["user", "directBuilder", "admin", "superAdmin"]

  datatype InquiryBody = InquiryBody(
    builder: Option<Id>,
    project: Option<Id>,
    message: string,
    contactEmail: string,
    contactPhone: string)

  /** The inquiry POST / stores. */
  function NewInquiry(me: Caller, q: InquiryBody, now: int): (i: Inquiry)
    ensures i.user == Some(me.id) && i.builder == q.builder && i.project == q.project
    ensures i.message == q.message && i.contactEmail == q.contactEmail && i.contactPhone == q.contactPhone
    ensures i.status == "new" && i.respondedAt.None? && i.createdAt == now
    ensures InquiryRequired(i) <==> q.builder.Some? && q.message != ""
  {
    Inquiry(Some(me.id), q.builder, q.project, q.message, q.contactEmail, q.contactPhone, "new", now, None)
  }

  /**
   * POST /: in this order, a missing builder or message is a 400, an
   * unknown builder a 404, and a given but unknown project a 404.
   */
  method CreateInquiry(db: Db, me: Caller, q: InquiryBody, now: int) returns (r: Result<Id>)
    requires db.Valid()
    modifies db
    ensures db.Valid()
    ensures !HasRole(me, Askers) ==> r == Err(Forbidden) && db.data == old(db.data)
    ensures HasRole(me, Askers) && (q.builder.None? || q.message == "") ==> r == Err(BadRequest) && db.data == old(db.data)
    ensures HasRole(me, Askers) && q.builder.Some? && q.message != "" ==>
      if q.builder.value !in old(db.data.builders) || (q.project.Some? && q.project.value !in old(db.data.projects)) then
        r == Err(NotFound) && db.data == old(db.data)
      else (r.Ok? && r.value !in old(db.data.inquiries)
        && db.data == old(db.data).(inquiries := old(db.data.inquiries)[r.value := NewInquiry(me, q, now)], nextId := r.value + 1))
  {
    if !HasRole(me, Askers) {
      return Err(Forbidden);
    }
    if q.builder.None? || q.message == "" {
      return Err(BadRequest);
    }
    if q.builder.value !in db.data.builders {
      return Err(NotFound);
    }
    if q.project.Some? && q.project.value !in db.data.projects {
      return Err(NotFound);
    }
    var i := NewInquiry(me, q, now);
    var id := db.NewId();
    db.data := db.data.(inquiries := db.data.inquiries[id := i]);
    r := Ok(id);
  }

  function Created(i: Inquiry): int { i.createdAt }

  /** GET /my: the caller's inquiries, newest first. */
  function MyInquiries(inquiries: map<Id, Inquiry>, n: nat, me: Caller): (r: Result<seq<Id>>)
    requires Below(inquiries, n)
    ensures r.Err? <==> !HasRole(me, ["user"])
    ensures r.Err? ==> r.status == Forbidden
    ensures r.Ok? ==> forall k :: k in r.value <==> k in inquiries && inquiries[k].user == Some(me.id)
    ensures r.Ok? ==> forall i, j :: 0 <= i < j < |r.value| ==> inquiries[r.value[i]].createdAt >= inquiries[r.value[j]].createdAt
  {
    if !HasRole(me, ["user"]) then Err(Forbidden)
    else Ok(NewestFirst(inquiries, Find(inquiries, (k: Id, i: Inquiry) => i.user == Some(me.id), n), Created))
  }

  /** GET /builder: the inquiries to the caller's profile, newest first; no profile is a 404. */
  function BuilderInquiries(builders: map<Id, BuilderProfile>, inquiries: map<Id, Inquiry>, n: nat, me: Caller)
    : (r: Result<seq<Id>>)
    requires Below(builders, n) && Below(inquiries, n)
    ensures !HasRole(me, ["directBuilder"]) ==> r == Err(Forbidden)
    ensures HasRole(me, ["directBuilder"]) ==> (r.Ok? <==> ProfileOf(builders, n, me.id).Some?)
    ensures r.Ok? ==> forall k :: k in r.value <==> k in inquiries && inquiries[k].builder == ProfileOf(builders, n, me.id)
    ensures r.Ok? ==> forall i, j :: 0 <= i < j < |r.value| ==> inquiries[r.value[i]].createdAt >= inquiries[r.value[j]].createdAt
  {
    if !HasRole(me, ["directBuilder"]) then Err(Forbidden)
    else
      match ProfileOf(builders, n, me.id)
      case None => Err(NotFound)
      case Some(p) => Ok(NewestFirst(inquiries, Find(inquiries, (k: Id, i: Inquiry) => i.builder == Some(p), n), Created))
  }

  /** GET /: every inquiry, for administrators, newest first. */
  function AllInquiries(inquiries: map<Id, Inquiry>, n: nat, me: Caller): (r: Result<seq<Id>>)
    requires Below(inquiries, n)
    ensures r.Err? <==> !HasRole(me, Admins)
    ensures r.Err? ==> r.status == Forbidden
    ensures r.Ok? ==> forall k :: k in r.value <==> k in inquiries
    ensures r.Ok? ==> forall i, j :: 0 <= i < j < |r.value| ==> inquiries[r.value[i]].createdAt >= inquiries[r.value[j]].createdAt
  {
    if !HasRole(me, Admins) then Err(Forbidden)
    else Ok(NewestFirst(inquiries, Find(inquiries, (k: Id, i: Inquiry) => true, n), Created))
  }

  /** The new status; closing stamps the answer time, other statuses leave it. */
  function WithStatus(i: Inquiry, status: string, now: int): (j: Inquiry)
    ensures j.status == status
    ensures status == "closed" ==> j.respondedAt == Some(now)
    ensures status != "closed" ==> j.respondedAt == i.respondedAt
    ensures j == i.(status := j.status, respondedAt := j.respondedAt)
  {
    i.(status := status, respondedAt := if status == "closed" then Some(now) else i.respondedAt)
  }

  /** Reopening keeps the answer time of an earlier close. */
  lemma ReopenKeepsAnswerTime(i: Inquiry, t1: int, t2: int)
    ensures WithStatus(WithStatus(i, "closed", t1), "new", t2).respondedAt == Some(t1)
  {
  }

  /**
   * PUT /:id/status: a status outside the list is a 400 before any lookup;
   * a caller without a builder profile, or an inquiry not addressed to it,
   * is a 404. A save that fails validation is a 500.
   */
  method SetStatusAsBuilder(db: Db, me: Caller, id: Id, status: Option<string>, now: int) returns (r: Result<Id>)
    requires db.Valid()
    modifies db
    ensures db.Valid()
    ensures !HasRole(me, ["directBuilder"]) ==> r == Err(Forbidden) && db.data == old(db.data)
    ensures HasRole(me, ["directBuilder"]) && (status.None? || status.value !in InquiryStatuses) ==>
      r == Err(BadRequest) && db.data == old(db.data)
    ensures HasRole(me, ["directBuilder"]) && status.Some? && status.value in InquiryStatuses ==>
      var p := ProfileOf(old(db.data.builders), old(db.data.nextId), me.id);
      if p.None? || id !in old(db.data.inquiries) || old(db.data.inquiries)[id].builder != p then
        r == Err(NotFound) && db.data == old(db.data)
      else if !InquiryValid(WithStatus(old(db.data.inquiries)[id], status.value, now)) then r == Err(ServerError) && db.data == old(db.data)
      else (r == Ok(id)
        && db.data == old(db.data).(inquiries := old(db.data.inquiries)[id := WithStatus(old(db.data.inquiries)[id], status.value, now)]))
  {
    if !HasRole(me, ["directBuilder"]) {
      return Err(Forbidden);
    }
    if status.None? || status.value !in InquiryStatuses {
      return Err(BadRequest);
    }
    var p := ProfileOf(db.data.builders, db.data.nextId, me.id);
    if p.None? {
      return Err(NotFound);
    }
    if id !in db.data.inquiries || db.data.inquiries[id].builder != p {
      return Err(NotFound);
    }
    var j := WithStatus(db.data.inquiries[id], status.value, now);
    if !InquiryValid(j) {
      return Err(ServerError);
    }
    db.data := db.data.(inquiries := db.data.inquiries[id := j]);
    r := Ok(id);
  }

  /** PUT /:id/status/admin: the same check of the status, then any inquiry. */
  method SetStatusAsAdmin(db: Db, me: Caller, id: Id, status: Option<string>, now: int) returns (r: Result<Id>)
    requires db.Valid()
    modifies db
    ensures db.Valid()
    ensures !HasRole(me, Admins) ==> r == Err(Forbidden) && db.data == old(db.data)
    ensures HasRole(me, Admins) && (status.None? || status.value !in InquiryStatuses) ==>
      r == Err(BadRequest) && db.data == old(db.data)
    ensures HasRole(me, Admins) && status.Some? && status.value in InquiryStatuses ==>
      if id !in old(db.data.inquiries) then r == Err(NotFound) && db.data == old(db.data)
      else if !InquiryValid(WithStatus(old(db.data.inquiries)[id], status.value, now)) then r == Err(ServerError) && db.data == old(db.data)
      else (r == Ok(id)
        && db.data == old(db.data).(inquiries := old(db.data.inquiries)[id := WithStatus(old(db.data.inquiries)[id], status.value, now)]))
  {
    if !HasRole(me, Admins) {
      return Err(Forbidden);
    }
    if status.None? || status.value !in InquiryStatuses {
      return Err(BadRequest);
    }
    if id !in db.data.inquiries {
      return Err(NotFound);
    }
    var j := WithStatus(db.data.inquiries[id], status.value, now);
    if !InquiryValid(j) {
      return Err(ServerError);
    }
    db.data := db.data.(inquiries := db.data.inquiries[id := j]);
    r := Ok(id);
  }

  /** DELETE /:id: administrators; an unknown inquiry is a 404. */
  method DeleteInquiry(db: Db, me: Caller, id: Id) returns (r: Result<()>)
    requires db.Valid()
    modifies db
    ensures db.Valid()
    ensures !HasRole(me, Admins) ==> r == Err(Forbidden) && db.data == old(db.data)
    ensures HasRole(me, Admins) ==>
      if id in old(db.data.inquiries) then r == Ok(()) && db.data == old(db.data).(inquiries := old(db.data.inquiries) - {id})
      else r == Err(NotFound) && db.data == old(db.data)
  {
    if !HasRole(me, Admins) {
      return Err(Forbidden);
    }
    if id !in db.data.inquiries {
      return Err(NotFound);
    }
    db.data := db.data.(inquiries := db.data.inquiries - {id});
    r := Ok(());
  }
}
