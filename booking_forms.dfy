/**
 * Booking enquiry forms (routes/BookingForm.router.js): anyone submits a
 * form with contact details, and the forms are listed, fetched and
 * deleted without sign-in.
 */
module BookingForms {
  import opened Wrappers
  import opened Schema
  import opened Store

  /** The fields of a form submission; an absent optional field is empty. */
  datatype FormBody = FormBody(
    firstName: string,
    lastName: string,
    country: string,
    address: string,
    city: string,
    zipCode: string,
    email: string,
    phone: string,
    note: string)

  /** The form POST / stores: exactly the submitted fields, stamped with the time. */
  function NewForm(q: FormBody, now: int): (f: BookingForm)
    ensures f.firstName == q.firstName && f.lastName == q.lastName && f.country == q.country
    ensures f.address == q.address && f.city == q.city && f.zipCode == q.zipCode
    ensures f.email == q.email && f.phone == q.phone && f.note == q.note && f.createdAt == now
  {
    BookingForm(q.firstName, q.lastName, q.country, q.address, q.city, q.zipCode, q.email, q.phone, q.note, now)
  }

  /** The route's presence check: every required contact field is filled in. */
  predicate BodyComplete(q: FormBody) {
    q.firstName != "" && q.lastName != "" && q.country != "" && q.address != ""
    && q.city != "" && q.email != "" && q.phone != ""
  }

  /** The route's check is the schema's: a form that passes it always saves. */
  lemma CompleteBodySaves(q: FormBody, now: int)
    ensures BodyComplete(q) <==> FormComplete(NewForm(q, now))
  {
  }

  /** POST /: a missing required field is a 400; zip code and note are optional. */
  method SubmitForm(db: Db, q: FormBody, now: int) returns (r: Result<Id>)
    requires db.Valid()
    modifies db
    ensures db.Valid()
    ensures !BodyComplete(q) ==> r == Err(BadRequest) && db.data == old(db.data)
    ensures BodyComplete(q) ==>
      r.Ok? && r.value !in old(db.data.forms)
      && db.data == old(db.data).(forms := old(db.data.forms)[r.value := NewForm(q, now)], nextId := r.value + 1)
  {
    if q.firstName == "" || q.lastName == "" || q.country == "" || q.address == ""
      || q.city == "" || q.email == "" || q.phone == "" {
      return Err(BadRequest);
    }
    var f := NewForm(q, now);
    var id := db.NewId();
    db.data := db.data.(forms := db.data.forms[id := f]);
    r := Ok(id);
  }

  function Created(f: BookingForm): int { f.createdAt }

  /** GET /: every form, newest first. */
  function AllForms(forms: map<Id, BookingForm>, n: nat): (r: seq<Id>)
    requires Below(forms, n)
    ensures forall k :: k in r <==> k in forms
    ensures forall i, j :: 0 <= i < j < |r| ==> forms[r[i]].createdAt >= forms[r[j]].createdAt
  {
    NewestFirst(forms, Find(forms, (k: Id, f: BookingForm) => true, n), Created)
  }

  /** GET /:id: the form, or a 404. */
  function GetForm(forms: map<Id, BookingForm>, id: Id): (r: Result<BookingForm>)
    ensures r.Ok? <==> id in forms
    ensures r.Ok? ==> r.value == forms[id]
    ensures r.Err? ==> r.status == NotFound
  {
    if id in forms then Ok(forms[id]) else Err(NotFound)
  }

  /** A submitted form reads back with exactly the submitted fields. */
  lemma SubmitThenGet(forms: map<Id, BookingForm>, n: nat, q: FormBody, now: int)
    requires Below(forms, n)
    ensures var f := GetForm(forms[n := NewForm(q, now)], n);
      f.Ok? && f.value.email == q.email && f.value.phone == q.phone && f.value.note == q.note
  {
  }

  /** DELETE /:id: removes the form; an unknown one is a 404. */
  method DeleteForm(db: Db, id: Id) returns (r: Result<()>)
    requires db.Valid()
    modifies db
    ensures db.Valid()
    ensures id !in old(db.data.forms) ==> r == Err(NotFound) && db.data == old(db.data)
    ensures id in old(db.data.forms) ==> r == Ok(()) && db.data == old(db.data).(forms := old(db.data.forms) - {id})
  {
    if id !in db.data.forms {
      return Err(NotFound);
    }
    db.data := db.data.(forms := db.data.forms - {id});
    r := Ok(());
  }
}
