/**
 * Feedback (routes/Feedback.router.js): users and directBuilders rate a
 * builder or project from 1 to 5, the admin moderates the feedback, and
 * the listings filter by status or builder only when one is given.
 */
module FeedbackRoutes {
  import opened Wrappers
  import opened Schema
  import opened Store
  import opened Access
  import opened Text

  const Raters: seq<string> := ["user", "directBuilder"]
  const AdminOnly: seq<string> := ["admin"]
  const BuilderViewers: seq<string> := ["directBuilder", "admin"]

  datatype FeedbackBody = FeedbackBody(
    builder: Option<Id>,
    project: Option<Id>,
    rating: Option<int>,
    comment: string)

  /** The route's range check: a rating is given, not zero, and within 1..5. */
  predicate RatingAccepted(rating: Option<int>) {
    rating.Some? && rating.value != 0 && !(rating.value < 1) && !(rating.value > 5)
  }

  /** The feedback POST / stores: the caller's, `pending`, the comment trimmed. */
  function NewFeedback(me: Caller, q: FeedbackBody, now: int): (f: Feedback)
    requires RatingAccepted(q.rating)
    ensures f.user == Some(me.id) && f.builder == q.builder && f.project == q.project
    ensures f.rating == q.rating.value && f.comment == Trim(q.comment) && f.status == "pending"
    ensures FeedbackValid(f)
  {
    Feedback(Some(me.id), q.builder, q.project, q.rating.value, Trim(q.comment), "pending", now)
  }

  /** Every stored feedback satisfies the schema. */
  predicate AllValid(feedback: map<Id, Feedback>) {
    forall k :: k in feedback ==> FeedbackValid(feedback[k])
  }

  /** POST /: a rating that is missing or outside 1..5 is a 400. */
  method SubmitFeedback(db: Db, me: Caller, q: FeedbackBody, now: int) returns (r: Result<Id>)
    requires db.Valid()
    modifies db
    ensures db.Valid()
    ensures !HasRole(me, Raters) ==> r == Err(Forbidden) && db.data == old(db.data)
    ensures HasRole(me, Raters) && !RatingAccepted(q.rating) ==> r == Err(BadRequest) && db.data == old(db.data)
    ensures HasRole(me, Raters) && RatingAccepted(q.rating) ==>
      r.Ok? && r.value !in old(db.data.feedback)
      && db.data == old(db.data).(feedback := old(db.data.feedback)[r.value := NewFeedback(me, q, now)], nextId := r.value + 1)
    ensures AllValid(old(db.data.feedback)) ==> AllValid(db.data.feedback)
  {
    if !HasRole(me, Raters) {
      return Err(Forbidden);
    }
    if !RatingAccepted(q.rating) {
      return Err(BadRequest);
    }
    var f := NewFeedback(me, q, now);
    var id := db.NewId();
    InsertKeepsValid(db.data.feedback, id, f);
    db.data := db.data.(feedback := db.data.feedback[id := f]);
    r := Ok(id);
  }

  /** Storing a valid feedback keeps every stored feedback valid. */
  lemma InsertKeepsValid(feedback: map<Id, Feedback>, id: Id, f: Feedback)
    requires FeedbackValid(f)
    ensures AllValid(feedback) ==> AllValid(feedback[id := f])
  {
  }

  /** The accepted ratings are exactly 1 to 5. */
  lemma RatingAcceptedRange(rating: Option<int>)
    ensures RatingAccepted(rating) <==> rating.Some? && 1 <= rating.value <= 5
  {
  }

  /** GET /admin: every feedback, or only those with the given status when one is given. */
  function AdminFeedback(feedback: map<Id, Feedback>, n: nat, me: Caller, status: string): (r: Result<seq<Id>>)
    requires Below(feedback, n)
    ensures r.Err? <==> !HasRole(me, AdminOnly)
    ensures r.Err? ==> r.status == Forbidden
    ensures r.Ok? && status == "" ==> forall k :: k in r.value <==> k in feedback
    ensures r.Ok? && status != "" ==> forall k :: k in r.value <==> k in feedback && feedback[k].status == status
  {
    if !HasRole(me, AdminOnly) then Err(Forbidden)
    else Ok(Find(feedback, (k: Id, f: Feedback) => status == "" || f.status == status, n))
  }

  /**
   * PUT /:id/status: a status outside the three is a 400 before any lookup;
   * an unknown feedback a 404. The update runs no validators.
   */
  method SetFeedbackStatus(db: Db, me: Caller, id: Id, status: Option<string>) returns (r: Result<Id>)
    requires db.Valid()
    modifies db
    ensures db.Valid()
    ensures !HasRole(me, AdminOnly) ==> r == Err(Forbidden) && db.data == old(db.data)
    ensures HasRole(me, AdminOnly) && (status.None? || status.value !in ModerationStatuses) ==>
      r == Err(BadRequest) && db.data == old(db.data)
    ensures HasRole(me, AdminOnly) && status.Some? && status.value in ModerationStatuses ==>
      if id !in old(db.data.feedback) then r == Err(NotFound) && db.data == old(db.data)
      else (r == Ok(id)
        && db.data == old(db.data).(feedback := old(db.data.feedback)[id := old(db.data.feedback)[id].(status := status.value)]))
    ensures AllValid(old(db.data.feedback)) ==> AllValid(db.data.feedback)
  {
    if !HasRole(me, AdminOnly) {
      return Err(Forbidden);
    }
    if status.None? || status.value !in ModerationStatuses {
      return Err(BadRequest);
    }
    if id !in db.data.feedback {
      return Err(NotFound);
    }
    db.data := db.data.(feedback := db.data.feedback[id := db.data.feedback[id].(status := status.value)]);
    r := Ok(id);
  }

  /**
   * The builder id GET /builder filters by: a directBuilder's own user id,
   * an admin's query parameter.
   */
  function BuilderFilter(me: Caller, builder: Option<Id>): (b: Option<Id>)
    ensures me.user.role == "directBuilder" ==> b == Some(me.id)
    ensures me.user.role != "directBuilder" ==> b == builder
  {
    if me.user.role == "directBuilder" then Some(me.id) else builder
  }

  /**
   * GET /builder: the feedback whose builder is the filter, or every
   * feedback when an admin gives none. A directBuilder's filter is a user
   * id, compared with builder profile ids.
   */
  function BuilderFeedback(feedback: map<Id, Feedback>, n: nat, me: Caller, builder: Option<Id>): (r: Result<seq<Id>>)
    requires Below(feedback, n)
    ensures r.Err? <==> !HasRole(me, BuilderViewers)
    ensures r.Err? ==> r.status == Forbidden
    ensures r.Ok? && me.user.role == "directBuilder" ==>
      forall k :: k in r.value <==> k in feedback && feedback[k].builder == Some(me.id)
    ensures r.Ok? && me.user.role == "admin" ==>
      forall k :: k in r.value <==> k in feedback && (builder.None? || feedback[k].builder == builder)
  {
    if !HasRole(me, BuilderViewers) then Err(Forbidden)
    else
      var b := BuilderFilter(me, builder);
      Ok(Find(feedback, (k: Id, f: Feedback) => Matches(b, f.builder), n))
  }

  /** GET /my: the caller's feedback. */
  function MyFeedback(feedback: map<Id, Feedback>, n: nat, me: Caller): (r: Result<seq<Id>>)
    requires Below(feedback, n)
    ensures r.Err? <==> !HasRole(me, ["user"])
    ensures r.Err? ==> r.status == Forbidden
    ensures r.Ok? ==> forall k :: k in r.value <==> k in feedback && feedback[k].user == Some(me.id)
  {
    if !HasRole(me, ["user"]) then Err(Forbidden)
    else Ok(Find(feedback, (k: Id, f: Feedback) => f.user == Some(me.id), n))
  }
}
