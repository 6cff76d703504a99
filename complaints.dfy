/**
 * Complaints (routes/Complaint.router.js): users and directBuilders file
 * complaints, administrators answer them and move them through their
 * statuses, and every save stamps the update time. The builder-side
 * routes compare with `req.user.builderProfileId`, a field the User
 * schema does not declare, so they compare with undefined.
 */
module Complaints {
  import opened Wrappers
  import opened Schema
  import opened Store
  import opened Access
  import opened Text

  const Filers: seq<string> := ["user", "directBuilder"]
  const Responders: seq<string> := ["admin", "directBuilder"]

  datatype ComplaintBody = ComplaintBody(
    subject: string,
    description: string,
    relatedProperty: Option<Id>,
    relatedBuilder: Option<Id>)

  /** The complaint POST / saves: the subject trimmed, status `open`, the save time stamped. */
  function NewComplaint(me: Caller, q: ComplaintBody, now: int): (c: Complaint)
    ensures c.user == Some(me.id) && c.status == "open" && c.subject == Trim(q.subject)
    ensures c.updatedAt == Some(now) && c.createdAt == now
    ensures ComplaintRequired(c) <==> Trim(q.subject) != "" && q.description != ""
  {
    Complaint(Some(me.id), Trim(q.subject), q.description, q.relatedProperty, q.relatedBuilder, "open", "", now, Some(now))
  }

  /**
   * POST /: a missing subject or description is a 400; a subject of only
   * whitespace (see `Text.TrimBlank`) passes that check but is empty once
   * trimmed, and the save fails (a 500).
   */
  method CreateComplaint(db: Db, me: Caller, q: ComplaintBody, now: int) returns (r: Result<Id>)
    requires db.Valid()
    modifies db
    ensures db.Valid()
    ensures !HasRole(me, Filers) ==> r == Err(Forbidden) && db.data == old(db.data)
    ensures HasRole(me, Filers) && (q.subject == "" || q.description == "") ==> r == Err(BadRequest) && db.data == old(db.data)
    ensures HasRole(me, Filers) && q.subject != "" && q.description != "" ==>
      if Trim(q.subject) == "" then r == Err(ServerError) && db.data == old(db.data)
      else (r.Ok? && r.value !in old(db.data.complaints)
        && db.data == old(db.data).(complaints := old(db.data.complaints)[r.value := NewComplaint(me, q, now)], nextId := r.value + 1))
  {
    if !HasRole(me, Filers) {
      return Err(Forbidden);
    }
    if q.subject == "" || q.description == "" {
      return Err(BadRequest);
    }
    var c := NewComplaint(me, q, now);
    if !ComplaintRequired(c) {
      return Err(ServerError);
    }
    var id := db.NewId();
    db.data := db.data.(complaints := db.data.complaints[id := c]);
    r := Ok(id);
  }

  /** GET /my: the caller's complaints. */
  function MyComplaints(complaints: map<Id, Complaint>, n: nat, me: Caller): (r: Result<seq<Id>>)
    requires Below(complaints, n)
    ensures r.Err? <==> !HasRole(me, Filers)
    ensures r.Err? ==> r.status == Forbidden
    ensures r.Ok? ==> forall k :: k in r.value <==> k in complaints && complaints[k].user == Some(me.id)
  {
    if !HasRole(me, Filers) then Err(Forbidden)
    else Ok(Find(complaints, (k: Id, c: Complaint) => c.user == Some(me.id), n))
  }

  /** GET /: every complaint, for administrators. */
  function AllComplaints(complaints: map<Id, Complaint>, n: nat, me: Caller): (r: Result<seq<Id>>)
    requires Below(complaints, n)
    ensures r.Err? <==> !HasRole(me, Admins)
    ensures r.Err? ==> r.status == Forbidden
    ensures r.Ok? ==> forall k :: k in r.value <==> k in complaints
  {
    if !HasRole(me, Admins) then Err(Forbidden)
    else Ok(Find(complaints, (k: Id, c: Complaint) => true, n))
  }

  /**
   * GET /builder as written: the filter's value is undefined, which the
   * query drops, so the listing holds every complaint.
   */
  function BuilderComplaints(complaints: map<Id, Complaint>, n: nat, me: Caller): (r: Result<seq<Id>>)
    requires Below(complaints, n)
    ensures r.Err? <==> !HasRole(me, ["directBuilder"])
    ensures r.Err? ==> r.status == Forbidden
    ensures r.Ok? ==> forall k :: k in r.value <==> k in complaints && Matches(None, complaints[k].relatedBuilder)
  {
    if !HasRole(me, ["directBuilder"]) then Err(Forbidden)
    else Ok(Find(complaints, (k: Id, c: Complaint) => Matches(None, c.relatedBuilder), n))
  }

  /** As written, every directBuilder sees every complaint, those about other builders included. */
  lemma BuilderListingShowsEveryComplaint(complaints: map<Id, Complaint>, n: nat, me: Caller, k: Id)
    requires Below(complaints, n) && HasRole(me, ["directBuilder"]) && k in complaints
    ensures BuilderComplaints(complaints, n, me).Ok? && k in BuilderComplaints(complaints, n, me).value
  {
  }

  /** GET /builder as intended: the complaints about the caller's builder profile; none is a 404. */
  function OwnComplaints(builders: map<Id, BuilderProfile>, complaints: map<Id, Complaint>, n: nat, me: Caller)
    : (r: Result<seq<Id>>)
    requires Below(builders, n) && Below(complaints, n)
    ensures !HasRole(me, ["directBuilder"]) ==> r == Err(Forbidden)
    ensures HasRole(me, ["directBuilder"]) ==> (r.Ok? <==> ProfileOf(builders, n, me.id).Some?)
    ensures r.Ok? ==> forall k :: k in r.value <==> k in complaints && complaints[k].relatedBuilder == ProfileOf(builders, n, me.id)
  {
    if !HasRole(me, ["directBuilder"]) then Err(Forbidden)
    else
      match ProfileOf(builders, n, me.id)
      case None => Err(NotFound)
      case Some(p) => Ok(Find(complaints, (k: Id, c: Complaint) => c.relatedBuilder == Some(p), n))
  }

  /**
   * With at most one profile per user, the corrected listing holds exactly
   * the complaints about a builder profile the caller owns.
   */
  lemma OwnComplaintsAreOwn(builders: map<Id, BuilderProfile>, complaints: map<Id, Complaint>, n: nat, me: Caller, k: Id)
    requires Below(builders, n) && Below(complaints, n) && ProfilesUnique(builders)
    requires OwnComplaints(builders, complaints, n, me).Ok?
    ensures k in OwnComplaints(builders, complaints, n, me).value <==>
      k in complaints && complaints[k].relatedBuilder.Some? && complaints[k].relatedBuilder.value in builders
      && builders[complaints[k].relatedBuilder.value].user == Some(me.id)
  {
    var p := ProfileOf(builders, n, me.id).value;
    assert p in builders && builders[p].user == Some(me.id);
  }

  /**
   * The answer `PUT /:id` stores: a given status (already checked) and a
   * given response replace the old ones, absent ones leave them, and the
   * save stamps the time.
   */
  function Revised(c: Complaint, status: Option<string>, response: Option<string>, now: int): (d: Complaint)
    ensures (status.None? || status.value == "") ==> d.status == c.status
    ensures status.Some? && status.value != "" ==> d.status == status.value
    ensures (response.None? || response.value == "") ==> d.response == c.response
    ensures response.Some? && response.value != "" ==> d.response == response.value
    ensures d.updatedAt == Some(now)
    ensures d == c.(status := d.status, response := d.response, updatedAt := d.updatedAt)
  {
    c.(status := if status.Some? && status.value != "" then status.value else c.status,
       response := if response.Some? && response.value != "" then response.value else c.response,
       updatedAt := Some(now))
  }

  /**
   * PUT /:id: 404 for an unknown complaint. A directBuilder is compared
   * with undefined and refused (403), or fails on a complaint without a
   * builder (500). A given status outside the list is a 400.
   */
  method UpdateComplaint(db: Db, me: Caller, id: Id, status: Option<string>, response: Option<string>, now: int)
    returns (r: Result<Id>)
    requires db.Valid()
    modifies db
    ensures db.Valid()
    ensures !HasRole(me, Responders) ==> r == Err(Forbidden) && db.data == old(db.data)
    ensures HasRole(me, Responders) && id !in old(db.data.complaints) ==> r == Err(NotFound) && db.data == old(db.data)
    ensures HasRole(me, Responders) && id in old(db.data.complaints) ==>
      var c := old(db.data.complaints)[id];
      if me.user.role == "directBuilder" then
        r == Err(if c.relatedBuilder.None? then ServerError else Forbidden) && db.data == old(db.data)
      else if status.Some? && status.value != "" && status.value !in ComplaintStatuses then
        r == Err(BadRequest) && db.data == old(db.data)
      else if !ComplaintValid(Revised(c, status, response, now)) then r == Err(ServerError) && db.data == old(db.data)
      else r == Ok(id) && db.data == old(db.data).(complaints := old(db.data.complaints)[id := Revised(c, status, response, now)])
    ensures r.Ok? ==> db.data.complaints[id].status in ComplaintStatuses || db.data.complaints[id].status == old(db.data.complaints)[id].status
  {
    if !HasRole(me, Responders) {
      return Err(Forbidden);
    }
    if id !in db.data.complaints {
      return Err(NotFound);
    }
    var c := db.data.complaints[id];
    if me.user.role == "directBuilder" {
      if c.relatedBuilder.None? {
        return Err(ServerError);
      }
      return Err(Forbidden);
    }
    if status.Some? && status.value != "" && status.value !in ComplaintStatuses {
      return Err(BadRequest);
    }
    var d := Revised(c, status, response, now);
    if !ComplaintValid(d) {
      return Err(ServerError);
    }
    db.data := db.data.(complaints := db.data.complaints[id := d]);
    r := Ok(id);
  }

  /**
   * DELETE /:id: 404 for an unknown complaint; anyone but an administrator
   * must be its creator (403), and a complaint without a creator fails for
   * them (500).
   */
  method DeleteComplaint(db: Db, me: Caller, id: Id) returns (r: Result<()>)
    requires db.Valid()
    modifies db
    ensures db.Valid()
    ensures id !in old(db.data.complaints) ==> r == Err(NotFound) && db.data == old(db.data)
    ensures id in old(db.data.complaints) ==>
      var c := old(db.data.complaints)[id];
      if HasRole(me, Admins) || c.user == Some(me.id) then
        r == Ok(()) && db.data == old(db.data).(complaints := old(db.data.complaints) - {id})
      else r == Err(if c.user.None? then ServerError else Forbidden) && db.data == old(db.data)
  {
    if id !in db.data.complaints {
      return Err(NotFound);
    }
    var c := db.data.complaints[id];
    if !HasRole(me, Admins) {
      if c.user.None? {
        return Err(ServerError);
      }
      if c.user != Some(me.id) {
        return Err(Forbidden);
      }
    }
    db.data := db.data.(complaints := db.data.complaints - {id});
    r := Ok(());
  }
}
