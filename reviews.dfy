/**
 * Reviews (routes/Review.router.js): a user rates a builder, the review
 * waits as `pending` until an administrator approves or rejects it, and a
 * builder sees only the approved reviews of its own profile. The rating's
 * range is checked by the schema alone: the route only asks that one is
 * given.
 */
module Reviews {
  import opened Wrappers
  import opened Schema
  import opened Store
  import opened Access

  datatype ReviewBody = ReviewBody(
    builder: Option<Id>,
    project: Option<Id>,
    rating: Option<int>,
    title: string,
    comment: string)

  /** The route's presence check: a builder, and a rating that is given and not zero. */
  predicate ReviewBodyGiven(q: ReviewBody) {
    q.builder.Some? && q.rating.Some? && q.rating.value != 0
  }

  /** The review POST / stores for a body that passed the presence check. */
  function NewReview(me: Caller, q: ReviewBody, now: int): (v: Review)
    requires ReviewBodyGiven(q)
    ensures v.user == Some(me.id) && v.builder == q.builder && v.project == q.project
    ensures v.rating == q.rating.value && v.status == "pending" && v.createdAt == now
    ensures ReviewValid(v) <==> 1 <= q.rating.value <= 5
  {
    Review(Some(me.id), q.builder, q.project, q.rating.value, q.title, q.comment, "pending", now)
  }

  /** Every stored review satisfies the schema. */
  predicate AllValid(reviews: map<Id, Review>) {
    forall k :: k in reviews ==> ReviewValid(reviews[k])
  }

  /**
   * POST /: a missing builder or rating is a 400; a rating outside 1..5
   * passes the route and fails the schema's range on save (a 500).
   */
  method CreateReview(db: Db, me: Caller, q: ReviewBody, now: int) returns (r: Result<Id>)
    requires db.Valid()
    modifies db
    ensures db.Valid()
    ensures !HasRole(me, ["user"]) ==> r == Err(Forbidden) && db.data == old(db.data)
    ensures HasRole(me, ["user"]) && !ReviewBodyGiven(q) ==> r == Err(BadRequest) && db.data == old(db.data)
    ensures HasRole(me, ["user"]) && ReviewBodyGiven(q) ==>
      if 1 <= q.rating.value <= 5 then
        r.Ok? && r.value !in old(db.data.reviews)
        && db.data == old(db.data).(reviews := old(db.data.reviews)[r.value := NewReview(me, q, now)], nextId := r.value + 1)
      else r == Err(ServerError) && db.data == old(db.data)
    ensures AllValid(old(db.data.reviews)) ==> AllValid(db.data.reviews)
  {
    if !HasRole(me, ["user"]) {
      return Err(Forbidden);
    }
    if q.builder.None? || q.rating.None? || q.rating.value == 0 {
      return Err(BadRequest);
    }
    var v := NewReview(me, q, now);
    if !ReviewValid(v) {
      return Err(ServerError);
    }
    var id := db.NewId();
    db.data := db.data.(reviews := db.data.reviews[id := v]);
    r := Ok(id);
  }

  /** A stored review's rating is within 1..5: whatever the route lets through, the store holds no other. */
  lemma StoredRatingInRange(reviews: map<Id, Review>, k: Id)
    requires AllValid(reviews) && k in reviews
    ensures 1 <= reviews[k].rating <= 5
  {
  }

  function Created(v: Review): int { v.createdAt }

  /** GET /my: the caller's reviews, newest first. */
  function MyReviews(reviews: map<Id, Review>, n: nat, me: Caller): (r: Result<seq<Id>>)
    requires Below(reviews, n)
    ensures r.Err? <==> !HasRole(me, ["user"])
    ensures r.Err? ==> r.status == Forbidden
    ensures r.Ok? ==> forall k :: k in r.value <==> k in reviews && reviews[k].user == Some(me.id)
    ensures r.Ok? ==> forall i, j :: 0 <= i < j < |r.value| ==> reviews[r.value[i]].createdAt >= reviews[r.value[j]].createdAt
  {
    if !HasRole(me, ["user"]) then Err(Forbidden)
    else Ok(NewestFirst(reviews, Find(reviews, (k: Id, v: Review) => v.user == Some(me.id), n), Created))
  }

  /** GET /builder: the approved reviews of the caller's profile, newest first; no profile is a 404. */
  function BuilderReviews(builders: map<Id, BuilderProfile>, reviews: map<Id, Review>, n: nat, me: Caller)
    : (r: Result<seq<Id>>)
    requires Below(builders, n) && Below(reviews, n)
    ensures !HasRole(me, ["directBuilder"]) ==> r == Err(Forbidden)
    ensures HasRole(me, ["directBuilder"]) ==> (r.Ok? <==> ProfileOf(builders, n, me.id).Some?)
    ensures r.Ok? ==> forall k :: k in r.value <==>
      k in reviews && reviews[k].builder == ProfileOf(builders, n, me.id) && reviews[k].status == "approved"
    ensures r.Ok? ==> forall i, j :: 0 <= i < j < |r.value| ==> reviews[r.value[i]].createdAt >= reviews[r.value[j]].createdAt
  {
    if !HasRole(me, ["directBuilder"]) then Err(Forbidden)
    else
      match ProfileOf(builders, n, me.id)
      case None => Err(NotFound)
      case Some(p) =>
        Ok(NewestFirst(reviews, Find(reviews, (k: Id, v: Review) => v.builder == Some(p) && v.status == "approved", n), Created))
  }

  /** A review waiting for moderation, or one that was rejected, never reaches the builder's view. */
  lemma UnapprovedHidden(builders: map<Id, BuilderProfile>, reviews: map<Id, Review>, n: nat, me: Caller, k: Id)
    requires Below(builders, n) && Below(reviews, n) && k in reviews && reviews[k].status != "approved"
    ensures BuilderReviews(builders, reviews, n, me).Ok? ==> k !in BuilderReviews(builders, reviews, n, me).value
  {
  }

  /** GET /: every review, for administrators, newest first. */
  function AllReviews(reviews: map<Id, Review>, n: nat, me: Caller): (r: Result<seq<Id>>)
    requires Below(reviews, n)
    ensures r.Err? <==> !HasRole(me, Admins)
    ensures r.Err? ==> r.status == Forbidden
    ensures r.Ok? ==> forall k :: k in r.value <==> k in reviews
    ensures r.Ok? ==> forall i, j :: 0 <= i < j < |r.value| ==> reviews[r.value[i]].createdAt >= reviews[r.value[j]].createdAt
  {
    if !HasRole(me, Admins) then Err(Forbidden)
    else Ok(NewestFirst(reviews, Find(reviews, (k: Id, v: Review) => true, n), Created))
  }

  /**
   * PUT /:id/status: a status outside the three is a 400 before any
   * lookup, an unknown review a 404; the save re-validates the review.
   */
  method SetReviewStatus(db: Db, me: Caller, id: Id, status: Option<string>) returns (r: Result<Id>)
    requires db.Valid()
    modifies db
    ensures db.Valid()
    ensures !HasRole(me, Admins) ==> r == Err(Forbidden) && db.data == old(db.data)
    ensures HasRole(me, Admins) && (status.None? || status.value !in ModerationStatuses) ==>
      r == Err(BadRequest) && db.data == old(db.data)
    ensures HasRole(me, Admins) && status.Some? && status.value in ModerationStatuses ==>
      if id !in old(db.data.reviews) then r == Err(NotFound) && db.data == old(db.data)
      else if !ReviewValid(old(db.data.reviews)[id].(status := status.value)) then
        r == Err(ServerError) && db.data == old(db.data)
      else (r == Ok(id)
        && db.data == old(db.data).(reviews := old(db.data.reviews)[id := old(db.data.reviews)[id].(status := status.value)]))
    ensures AllValid(old(db.data.reviews)) ==> AllValid(db.data.reviews)
  {
    if !HasRole(me, Admins) {
      return Err(Forbidden);
    }
    if status.None? || status.value !in ModerationStatuses {
      return Err(BadRequest);
    }
    if id !in db.data.reviews {
      return Err(NotFound);
    }
    var v := db.data.reviews[id].(status := status.value);
    if !ReviewValid(v) {
      return Err(ServerError);
    }
    db.data := db.data.(reviews := db.data.reviews[id := v]);
    r := Ok(id);
  }

  /** On a stored review that satisfies the schema, a listed status always saves. */
  lemma ModerationKeepsValid(v: Review, status: string)
    requires ReviewValid(v) && status in ModerationStatuses
    ensures ReviewValid(v.(status := status))
  {
  }

  /** DELETE /:id: administrators remove a review; an unknown one is a 404. */
  method DeleteReview(db: Db, me: Caller, id: Id) returns (r: Result<()>)
    requires db.Valid()
    modifies db
    ensures db.Valid()
    ensures !HasRole(me, Admins) ==> r == Err(Forbidden) && db.data == old(db.data)
    ensures HasRole(me, Admins) && id !in old(db.data.reviews) ==> r == Err(NotFound) && db.data == old(db.data)
    ensures HasRole(me, Admins) && id in old(db.data.reviews) ==>
      r == Ok(()) && db.data == old(db.data).(reviews := old(db.data.reviews) - {id})
    ensures AllValid(old(db.data.reviews)) ==> AllValid(db.data.reviews)
  {
    if !HasRole(me, Admins) {
      return Err(Forbidden);
    }
    if id !in db.data.reviews {
      return Err(NotFound);
    }
    db.data := db.data.(reviews := db.data.reviews - {id});
    r := Ok(());
  }
}
