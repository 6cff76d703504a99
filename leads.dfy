/**
 * Sales leads (routes/Lead.router.js): leads are created automatically
 * when a user opens a unit's booking page or by hand with references that
 * must exist; staff update them, a directBuilder only those assigned to
 * them; the payment flag drives the status; and a nightly job hands every
 * cold lead to a randomly chosen agent.
 */
module Leads {
  import opened Wrappers
  import opened Schema
  import opened Store
  import opened Access

  /**
   * A reference as a request carries it: absent (undefined or null), the
   * empty string, not a well-formed ObjectId, or an id.
   */
  datatype RefArg = Absent | Empty | Malformed | Ref(id: Id)

  /**
   * `checkExists`: a falsy reference (absent or empty) passes, a malformed
   * one fails, otherwise the store decides.
   */
  predicate CheckExists<T>(arg: RefArg, m: map<Id, T>) {
    match arg
    case Absent => true
    case Empty => true
    case Malformed => false
    case Ref(id) => id in m
  }

  /**
   * The stored form of a reference: its id, or none. A malformed one never
   * reaches the store, since `checkExists` refuses it first, and an empty
   * one never does either, since the save cannot cast it to an ObjectId.
   */
  function Stored(arg: RefArg): (r: Option<Id>)
    ensures arg.Ref? ==> r == Some(arg.id)
    ensures !arg.Ref? ==> r.None?
  {
    if arg.Ref? then Some(arg.id) else None
  }

  /**
   * `checkExists` is exactly the guard that keeps the stored reference
   * dangling-free: it passes a reference precisely when the reference is
   * well formed and what it stores is either nothing or a stored document.
   */
  lemma CheckExistsKeepsReferencesLive<T>(arg: RefArg, m: map<Id, T>)
    ensures CheckExists(arg, m) <==> !arg.Malformed? && (Stored(arg).Some? ==> Stored(arg).value in m)
    ensures CheckExists(arg, m) ==> (Stored(arg).None? <==> arg.Absent? || arg.Empty?)
  {
  }

  const Staff: seq<string> := ["admin", "superAdmin", "directBuilder"]

  // ---- POST /auto

  /** The lead the booking page creates for the caller and a unit. */
  function AutoLead(me: Caller, unit: Id, now: int): (l: Lead)
    ensures l.user == Some(me.id) && l.userName == me.user.name && l.unit == Some(unit)
    ensures l.status == "new" && l.source == "website" && !l.initialPaymentDone && l.bookingPageVisited
    ensures l.userEmail == me.user.email
    ensures l.userPhone == (if me.user.phone.Some? then me.user.phone.value else "")
    ensures l.builder.None? && l.project.None? && l.assignedTo.None? && l.notes == [] && l.createdAt == now
    ensures LeadValid(l) <==> me.user.name != ""
  {
    Lead(Some(me.id), me.user.name, me.user.email, if me.user.phone.Some? then me.user.phone.value else "",
         None, None, Some(unit), "website", "new", None, [], false, true, now)
  }

  /**
   * POST /auto: a missing, empty or malformed unit id is a 400, an unknown unit a
   * 404; a caller without a name fails the schema (a 500).
   */
  method CreateAutoLead(db: Db, me: Caller, unitId: RefArg, now: int) returns (r: Result<Id>)
    requires db.Valid()
    modifies db
    ensures db.Valid()
    ensures !unitId.Ref? ==> r == Err(BadRequest) && db.data == old(db.data)
    ensures unitId.Ref? && unitId.id !in old(db.data.units) ==> r == Err(NotFound) && db.data == old(db.data)
    ensures unitId.Ref? && unitId.id in old(db.data.units) && me.user.name == "" ==>
      r == Err(ServerError) && db.data == old(db.data)
    ensures unitId.Ref? && unitId.id in old(db.data.units) && me.user.name != "" ==>
      r.Ok? && r.value !in old(db.data.leads)
      && db.data == old(db.data).(leads := old(db.data.leads)[r.value := AutoLead(me, unitId.id, now)], nextId := r.value + 1)
  {
    if !unitId.Ref? {
      return Err(BadRequest);
    }
    if unitId.id !in db.data.units {
      return Err(NotFound);
    }
    var lead := AutoLead(me, unitId.id, now);
    if !LeadValid(lead) {
      return Err(ServerError);
    }
    var id := db.NewId();
    db.data := db.data.(leads := db.data.leads[id := lead]);
    r := Ok(id);
  }

  // ---- POST /

  datatype NoteArg = NoteArg(text: string, date: Option<int>, addedBy: RefArg)

  /** The body of a manual lead. */
  datatype LeadRequest = LeadRequest(
    user: Option<Id>,
    userName: string,
    userEmail: string,
    userPhone: string,
    builder: RefArg,
    project: RefArg,
    unit: RefArg,
    source: Option<string>,
    status: Option<string>,
    assignedTo: RefArg,
    notes: seq<NoteArg>,
    initialPaymentDone: Option<bool>,
    bookingPageVisited: Option<bool>)

  /**
   * Some reference of the body is the empty string: `checkExists` lets it
   * through, and then the save fails to cast it, which the handler's catch
   * answers with a 400.
   */
  predicate HasEmptyRef(q: LeadRequest) {
    || q.builder.Empty? || q.project.Empty? || q.unit.Empty? || q.assignedTo.Empty?
    || exists i :: 0 <= i < |q.notes| && q.notes[i].addedBy.Empty?
  }

  /** Every note's author passes `checkExists`. */
  predicate AuthorsExist(notes: seq<NoteArg>, users: map<Id, User>) {
    forall i :: 0 <= i < |notes| ==> CheckExists(notes[i].addedBy, users)
  }

  function StoredNote(n: NoteArg, now: int): (s: Note)
    ensures s.text == n.text && s.addedBy == Stored(n.addedBy)
    ensures n.date.Some? ==> s.date == n.date.value
    ensures n.date.None? ==> s.date == now
  {
    Note(n.text, if n.date.Some? then n.date.value else now, Stored(n.addedBy))
  }

  function StoredNotes(notes: seq<NoteArg>, now: int): (s: seq<Note>)
    ensures |s| == |notes|
    ensures forall i :: 0 <= i < |notes| ==> s[i] == StoredNote(notes[i], now)
  {
    if notes == [] then [] else [StoredNote(notes[0], now)] + StoredNotes(notes[1..], now)
  }

  /** The lead built from the body, with the schema's defaults; the caller's id is not kept. */
  function ManualLead(q: LeadRequest, now: int): (l: Lead)
    ensures l.user == q.user && l.userName == q.userName && l.userPhone == q.userPhone
    ensures l.builder == Stored(q.builder) && l.project == Stored(q.project) && l.unit == Stored(q.unit)
    ensures l.userEmail == q.userEmail && l.createdAt == now
    ensures l.assignedTo == Stored(q.assignedTo) && |l.notes| == |q.notes|
    ensures forall i :: 0 <= i < |q.notes| ==> l.notes[i] == StoredNote(q.notes[i], now)
    ensures q.status.Some? ==> l.status == q.status.value
    ensures q.status.None? ==> l.status == "new"
    ensures q.source.Some? ==> l.source == q.source.value
    ensures q.source.None? ==> l.source == "website"
    ensures q.initialPaymentDone.Some? ==> l.initialPaymentDone == q.initialPaymentDone.value
    ensures q.initialPaymentDone.None? ==> !l.initialPaymentDone
    ensures q.bookingPageVisited.Some? ==> l.bookingPageVisited == q.bookingPageVisited.value
    ensures q.bookingPageVisited.None? ==> !l.bookingPageVisited
  {
    Lead(q.user, q.userName, q.userEmail, q.userPhone,
         Stored(q.builder), Stored(q.project), Stored(q.unit),
         if q.source.Some? then q.source.value else "website",
         if q.status.Some? then q.status.value else "new",
         Stored(q.assignedTo), StoredNotes(q.notes, now),
         if q.initialPaymentDone.Some? then q.initialPaymentDone.value else false,
         if q.bookingPageVisited.Some? then q.bookingPageVisited.value else false,
         now)
  }

  /**
   * Why POST / refuses a body, or None when it stores it: the references
   * in order, the note authors, the caller, the phone, then the save's
   * casts and the schema. Every refusal is a 400.
   */
  function ManualRefusal(data: Tables, me: Caller, q: LeadRequest, now: int): (r: Option<Status>)
    ensures r.Some? ==> r.value == BadRequest
    ensures r.None? <==>
      CheckExists(q.builder, data.builders) && CheckExists(q.project, data.projects)
      && CheckExists(q.unit, data.units) && CheckExists(q.assignedTo, data.users)
      && AuthorsExist(q.notes, data.users) && me.id in data.users
      && q.userPhone != "" && !HasEmptyRef(q) && LeadValid(ManualLead(q, now))
  {
    if CheckExists(q.builder, data.builders) && CheckExists(q.project, data.projects)
      && CheckExists(q.unit, data.units) && CheckExists(q.assignedTo, data.users)
      && AuthorsExist(q.notes, data.users) && me.id in data.users
      && q.userPhone != "" && !HasEmptyRef(q) && LeadValid(ManualLead(q, now))
    then None
    else Some(BadRequest)
  }

  /**
   * A lead POST / accepts references only stored documents: its builder,
   * project, unit, assignee and every note's author are either absent or
   * present in their collections.
   */
  lemma {:induction false} AcceptedLeadReferencesLive(data: Tables, me: Caller, q: LeadRequest, now: int)
    requires ManualRefusal(data, me, q, now).None?
    ensures var l := ManualLead(q, now);
      && (l.builder.Some? ==> l.builder.value in data.builders)
      && (l.project.Some? ==> l.project.value in data.projects)
      && (l.unit.Some? ==> l.unit.value in data.units)
      && (l.assignedTo.Some? ==> l.assignedTo.value in data.users)
      && (forall i :: 0 <= i < |l.notes| && l.notes[i].addedBy.Some? ==> l.notes[i].addedBy.value in data.users)
  {
    CheckExistsKeepsReferencesLive(q.builder, data.builders);
    CheckExistsKeepsReferencesLive(q.project, data.projects);
    CheckExistsKeepsReferencesLive(q.unit, data.units);
    CheckExistsKeepsReferencesLive(q.assignedTo, data.users);
    var l := ManualLead(q, now);
    forall i | 0 <= i < |l.notes| && l.notes[i].addedBy.Some?
      ensures l.notes[i].addedBy.value in data.users
    {
      CheckExistsKeepsReferencesLive(q.notes[i].addedBy, data.users);
    }
  }

  /** POST /: the note authors are checked one by one, stopping at the first unknown one. */
  method CreateLead(db: Db, me: Caller, q: LeadRequest, now: int) returns (r: Result<Id>)
    requires db.Valid()
    modifies db
    ensures db.Valid()
    ensures ManualRefusal(old(db.data), me, q, now).Some? ==> r == Err(BadRequest) && db.data == old(db.data)
    ensures HasEmptyRef(q) ==> r == Err(BadRequest) && db.data == old(db.data)
    ensures ManualRefusal(old(db.data), me, q, now).None? ==>
      r.Ok? && r.value !in old(db.data.leads)
      && db.data == old(db.data).(leads := old(db.data.leads)[r.value := ManualLead(q, now)], nextId := r.value + 1)
  {
    if !CheckExists(q.builder, db.data.builders) {
      return Err(BadRequest);
    }
    if !CheckExists(q.project, db.data.projects) {
      return Err(BadRequest);
    }
    if !CheckExists(q.unit, db.data.units) {
      return Err(BadRequest);
    }
    if !CheckExists(q.assignedTo, db.data.users) {
      return Err(BadRequest);
    }
    var i := 0;
    while i < |q.notes|
      invariant 0 <= i <= |q.notes|
      invariant AuthorsExist(q.notes[..i], db.data.users)
      invariant db.data == old(db.data)
    {
      if !CheckExists(q.notes[i].addedBy, db.data.users) {
        return Err(BadRequest);
      }
      i := i + 1;
    }
    assert q.notes[..i] == q.notes;
    if me.id !in db.data.users {
      return Err(BadRequest);
    }
    if q.userPhone == "" {
      return Err(BadRequest);
    }
    if HasEmptyRef(q) {
      return Err(BadRequest);
    }
    var lead := ManualLead(q, now);
    if !LeadValid(lead) {
      return Err(BadRequest);
    }
    var id := db.NewId();
    db.data := db.data.(leads := db.data.leads[id := lead]);
    r := Ok(id);
  }

  // ---- Reads

  /** GET /:id: a malformed id is a 400, an unknown one a 404. */
  function LeadById(leads: map<Id, Lead>, id: RefArg): (r: Result<Lead>)
    ensures r.Ok? <==> id.Ref? && id.id in leads
    ensures r.Ok? ==> r.value == leads[id.id]
    ensures r.Err? && id.Ref? ==> r.status == NotFound
    ensures r.Err? && !id.Ref? ==> r.status == BadRequest
  {
    match id
    case Ref(k) => if k in leads then Ok(leads[k]) else Err(NotFound)
    case _ => Err(BadRequest)
  }

  /** GET /: every lead, for admins. */
  function AllLeads(leads: map<Id, Lead>, n: nat, me: Caller): (r: Result<seq<Id>>)
    requires Below(leads, n)
    ensures r.Err? <==> !HasRole(me, Admins)
    ensures r.Err? ==> r.status == Forbidden
    ensures r.Ok? ==> forall k :: k in r.value <==> k in leads
  {
    if !HasRole(me, Admins) then Err(Forbidden)
    else Ok(Find(leads, (k: Id, l: Lead) => true, n))
  }

  /** GET /assigned/:id, which has no access gate: the leads assigned to a user. */
  function AssignedLeads(leads: map<Id, Lead>, n: nat, agent: RefArg): (r: Result<seq<Id>>)
    requires Below(leads, n)
    ensures r.Err? <==> !agent.Ref?
    ensures r.Err? ==> r.status == BadRequest
    ensures r.Ok? ==> forall k :: k in r.value <==> k in leads && leads[k].assignedTo == Some(agent.id)
  {
    if !agent.Ref? then Err(BadRequest)
    else Ok(Find(leads, (k: Id, l: Lead) => l.assignedTo == Some(agent.id), n))
  }

  // ---- PUT /:id, DELETE /:id, PUT /:id/mark-payment

  /** A directBuilder may touch a lead only when it is assigned to them. */
  predicate MayTouch(me: Caller, l: Lead) {
    me.user.role != "directBuilder" || l.assignedTo == Some(me.id)
  }

  /**
   * PUT /:id: the body is applied without validation. A directBuilder gets
   * 404 for an unknown lead and 403 for one not assigned to them.
   */
  method UpdateLead(db: Db, me: Caller, id: Id, patch: Lead -> Lead) returns (r: Result<Id>)
    requires db.Valid()
    modifies db
    ensures db.Valid()
    ensures !HasRole(me, Staff) ==> r == Err(Forbidden) && db.data == old(db.data)
    ensures HasRole(me, Staff) && id !in old(db.data.leads) ==> r == Err(NotFound) && db.data == old(db.data)
    ensures HasRole(me, Staff) && id in old(db.data.leads) ==>
      if MayTouch(me, old(db.data.leads)[id]) then
        r == Ok(id) && db.data == old(db.data).(leads := old(db.data.leads)[id := patch(old(db.data.leads)[id])])
      else r == Err(Forbidden) && db.data == old(db.data)
  {
    if !HasRole(me, Staff) {
      return Err(Forbidden);
    }
    if me.user.role == "directBuilder" {
      if id !in db.data.leads {
        return Err(NotFound);
      }
      if db.data.leads[id].assignedTo != Some(me.id) {
        return Err(Forbidden);
      }
    }
    if id !in db.data.leads {
      return Err(NotFound);
    }
    db.data := db.data.(leads := db.data.leads[id := patch(db.data.leads[id])]);
    r := Ok(id);
  }

  /** DELETE /:id: staff remove any lead; an unknown one is a 404. */
  method DeleteLead(db: Db, me: Caller, id: Id) returns (r: Result<()>)
    requires db.Valid()
    modifies db
    ensures db.Valid()
    ensures !HasRole(me, Staff) ==> r == Err(Forbidden) && db.data == old(db.data)
    ensures HasRole(me, Staff) ==>
      if id in old(db.data.leads) then r == Ok(()) && db.data == old(db.data).(leads := old(db.data.leads) - {id})
      else r == Err(NotFound) && db.data == old(db.data)
  {
    if !HasRole(me, Staff) {
      return Err(Forbidden);
    }
    if id !in db.data.leads {
      return Err(NotFound);
    }
    db.data := db.data.(leads := db.data.leads - {id});
    r := Ok(());
  }

  /** The payment flag and the status it implies. */
  function MarkedPayment(l: Lead, paymentDone: bool): (m: Lead)
    ensures m.initialPaymentDone == paymentDone
    ensures m.status == (if paymentDone then "converted" else "new") && m.status in LeadStatuses
    ensures m == l.(initialPaymentDone := m.initialPaymentDone, status := m.status)
  {
    l.(initialPaymentDone := paymentDone, status := if paymentDone then "converted" else "new")
  }

  /** Marking twice with the same flag is marking once. */
  lemma MarkPaymentIdempotent(l: Lead, paymentDone: bool)
    ensures MarkedPayment(MarkedPayment(l, paymentDone), paymentDone) == MarkedPayment(l, paymentDone)
  {
  }

  /**
   * PUT /:id/mark-payment: a non-boolean flag is a 400, an unknown lead a
   * 404, a directBuilder's unassigned lead a 403; a save that fails
   * validation (a missing required field, or a source outside the enum
   * left by an unvalidated update) is a 400.
   */
  method MarkPayment(db: Db, me: Caller, id: Id, paymentDone: Option<bool>) returns (r: Result<Id>)
    requires db.Valid()
    modifies db
    ensures db.Valid()
    ensures !HasRole(me, Staff) ==> r == Err(Forbidden) && db.data == old(db.data)
    ensures HasRole(me, Staff) && paymentDone.None? ==> r == Err(BadRequest) && db.data == old(db.data)
    ensures HasRole(me, Staff) && paymentDone.Some? && id !in old(db.data.leads) ==> r == Err(NotFound) && db.data == old(db.data)
    ensures HasRole(me, Staff) && paymentDone.Some? && id in old(db.data.leads) ==>
      var l := old(db.data.leads)[id];
      if !MayTouch(me, l) then r == Err(Forbidden) && db.data == old(db.data)
      else if !LeadValid(MarkedPayment(l, paymentDone.value)) then r == Err(BadRequest) && db.data == old(db.data)
      else r == Ok(id) && db.data == old(db.data).(leads := old(db.data.leads)[id := MarkedPayment(l, paymentDone.value)])
  {
    if !HasRole(me, Staff) {
      return Err(Forbidden);
    }
    if paymentDone.None? {
      return Err(BadRequest);
    }
    if id !in db.data.leads {
      return Err(NotFound);
    }
    var l := db.data.leads[id];
    if me.user.role == "directBuilder" && l.assignedTo != Some(me.id) {
      return Err(Forbidden);
    }
    var marked := MarkedPayment(l, paymentDone.value);
    if !LeadValid(marked) {
      return Err(BadRequest);
    }
    db.data := db.data.(leads := db.data.leads[id := marked]);
    r := Ok(id);
  }

  /** The leads whose payment is not done. */
  function Unpaid(leads: map<Id, Lead>): (r: set<Id>)
    ensures forall k :: k in r <==> k in leads && !leads[k].initialPaymentDone
  {
    set k | k in leads && !leads[k].initialPaymentDone
  }

  /** POST /reminders/send: for admins, the number of leads whose payment is not done. */
  function ReminderCount(leads: map<Id, Lead>, n: nat, me: Caller): (r: Result<nat>)
    requires Below(leads, n)
    ensures r.Err? <==> !HasRole(me, Admins)
    ensures r.Err? ==> r.status == Forbidden
    ensures r.Ok? ==> r.value == |Unpaid(leads)|
  {
    if !HasRole(me, Admins) then Err(Forbidden)
    else
      var ids := Find(leads, (k: Id, l: Lead) => !l.initialPaymentDone, n);
      CountDistinct(ids);
      SameElements(ids, Unpaid(leads));
      Ok(|ids|)
  }

  /** The ids a sequence holds. */
  function Elems(s: seq<Id>): (r: set<Id>)
    ensures forall k :: k in r <==> k in s
  {
    if s == [] then {} else Elems(s[..|s| - 1]) + {s[|s| - 1]}
  }

  /** A strictly increasing sequence has as many elements as it holds distinct ids. */
  lemma {:induction false} CountDistinct(s: seq<Id>)
    requires forall i, j :: 0 <= i < j < |s| ==> s[i] < s[j]
    ensures |Elems(s)| == |s|
  {
    if s != [] {
      var t := s[..|s| - 1];
      CountDistinct(t);
      assert s[|s| - 1] !in t;
    }
  }

  lemma SameElements(s: seq<Id>, w: set<Id>)
    requires forall k :: k in s <==> k in w
    ensures Elems(s) == w
  {
    forall k | k in Elems(s) ensures k in w { }
    forall k | k in w ensures k in Elems(s) { }
  }

  // ---- The nightly reassignment

  /** A lead the job reassigns: payment not done and not converted. */
  predicate Cold(l: Lead) {
    !l.initialPaymentDone && l.status != "converted"
  }

  const AgentRoles: seq<string> := ["admin", "directBuilder"]

  /** The users the job may assign leads to. */
  function Agents(users: map<Id, User>, n: nat): (r: seq<Id>)
    requires Below(users, n)
    ensures forall k :: k in r <==> k in users && users[k].role in AgentRoles
  {
    Find(users, (k: Id, u: User) => u.role in AgentRoles, n)
  }

  function ColdLeads(leads: map<Id, Lead>, n: nat): (r: seq<Id>)
    requires Below(leads, n)
    ensures forall k :: k in r <==> k in leads && Cold(leads[k])
    ensures forall i, j :: 0 <= i < j < |r| ==> r[i] < r[j]
  {
    Find(leads, (k: Id, l: Lead) => Cold(l), n)
  }

  /**
   * `after` is `before` with the first `done` cold leads handed to one of
   * the agents each, and nothing else changed.
   */
  predicate Reassigned(before: map<Id, Lead>, after: map<Id, Lead>, cold: seq<Id>, agents: seq<Id>, done: nat)
    requires done <= |cold|
  {
    && after.Keys == before.Keys
    && (forall i :: 0 <= i < done ==>
          cold[i] in before && after[cold[i]].assignedTo.Some? && after[cold[i]].assignedTo.value in agents
          && after[cold[i]] == before[cold[i]].(assignedTo := after[cold[i]].assignedTo))
    && (forall k :: k in before && k !in cold[..done] ==> after[k] == before[k])
  }

  /** Handing the next cold lead to an agent extends the reassigned prefix by one. */
  lemma ReassignStep(before: map<Id, Lead>, after: map<Id, Lead>, cold: seq<Id>, agents: seq<Id>, done: nat, agent: Id)
    requires done < |cold| && cold[done] in before && agent in agents
    requires forall i, j :: 0 <= i < j < |cold| ==> cold[i] < cold[j]
    requires Reassigned(before, after, cold, agents, done)
    ensures Reassigned(before, after[cold[done] := after[cold[done]].(assignedTo := Some(agent))], cold, agents, done + 1)
  {
    var k := cold[done];
    var next := after[k := after[k].(assignedTo := Some(agent))];
    assert cold[..done + 1] == cold[..done] + [k];
    assert k !in cold[..done];
    forall i | 0 <= i < done + 1
      ensures cold[i] in before && next[cold[i]].assignedTo.Some? && next[cold[i]].assignedTo.value in agents
      ensures next[cold[i]] == before[cold[i]].(assignedTo := next[cold[i]].assignedTo)
    {
      if i < done {
        assert cold[i] != k;
      }
    }
  }

  /** Replacing the leads by a map with the same ids keeps the store valid. */
  lemma SameLeadIdsKeepValid(data: Tables, leads: map<Id, Lead>)
    requires data.Valid() && leads.Keys == data.leads.Keys
    ensures data.(leads := leads).Valid()
  {
  }

  /**
   * The job: each cold lead in turn is assigned a randomly chosen agent and
   * saved. The whole loop sits in one try, so the first save that fails
   * (a lead missing a required field or holding a value outside an enum) ends the job. `done` is the
   * number of leads reassigned.
   */
  method Reassign(db: Db) returns (done: nat)
    requires db.Valid()
    modifies db
    ensures db.Valid()
    ensures db.data == old(db.data).(leads := db.data.leads)
    ensures var cold := ColdLeads(old(db.data.leads), old(db.data.nextId));
      var agents := Agents(old(db.data.users), old(db.data.nextId));
      && done <= |cold|
      && Reassigned(old(db.data.leads), db.data.leads, cold, agents, done)
      && (agents == [] ==> done == 0)
      && (agents != [] && done < |cold| ==> !LeadValid(old(db.data.leads)[cold[done]]))
  {
    var cold := ColdLeads(db.data.leads, db.data.nextId);
    var agents := Agents(db.data.users, db.data.nextId);
    done := 0;
    if agents == [] {
      return;
    }
    ghost var before := db.data.leads;
    while done < |cold|
      invariant done <= |cold|
      invariant db.data == old(db.data).(leads := db.data.leads)
      invariant Reassigned(before, db.data.leads, cold, agents, done)
      invariant db.Valid()
    {
      var k := cold[done];
      var pick :| 0 <= pick < |agents|;
      var lead := db.data.leads[k].(assignedTo := Some(agents[pick]));
      if !LeadValid(lead) {
        return;
      }
      ReassignStep(before, db.data.leads, cold, agents, done, agents[pick]);
      SameLeadIdsKeepValid(db.data, db.data.leads[k := lead]);
      db.data := db.data.(leads := db.data.leads[k := lead]);
      done := done + 1;
    }
  }
}
