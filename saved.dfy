/**
 * Saved properties (routes/SavedProperty.router.js): a signed-in user
 * keeps a list of units, each at most once, and sees and removes only
 * their own entries.
 */
module Saved {
  import opened Wrappers
  import opened Schema
  import opened Store
  import opened Access

  /** The caller has already saved the unit. */
  predicate SavedBy(saved: map<Id, SavedProperty>, user: Id, unit: Id) {
    exists k :: k in saved && saved[k].user == Some(user) && saved[k].unit == Some(unit)
  }

  /** POST /: an unknown unit is a 404, a unit already saved by the caller a 400. */
  method SaveUnit(db: Db, me: Caller, unitId: Option<Id>, now: int) returns (r: Result<Id>)
    requires db.Valid()
    modifies db
    ensures db.Valid()
    ensures (unitId.None? || unitId.value !in old(db.data.units)) ==> r == Err(NotFound) && db.data == old(db.data)
    ensures unitId.Some? && unitId.value in old(db.data.units) ==>
      if SavedBy(old(db.data.saved), me.id, unitId.value) then r == Err(BadRequest) && db.data == old(db.data)
      else (r.Ok? && r.value !in old(db.data.saved)
        && db.data == old(db.data).(saved := old(db.data.saved)[r.value := SavedProperty(Some(me.id), unitId, now)], nextId := r.value + 1))
    ensures r.Ok? ==> SavedBy(db.data.saved, me.id, unitId.value) && !SavedBy(old(db.data.saved), me.id, unitId.value)
  {
    if unitId.None? || unitId.value !in db.data.units {
      return Err(NotFound);
    }
    var unit := unitId.value;
    var existing := First(db.data.saved, (k: Id, s: SavedProperty) => s.user == Some(me.id) && s.unit == Some(unit), db.data.nextId);
    if existing.Some? {
      return Err(BadRequest);
    }
    var id := db.NewId();
    var s := SavedProperty(Some(me.id), Some(unit), now);
    db.data := db.data.(saved := db.data.saved[id := s]);
    assert db.data.saved[id] == s;
    r := Ok(id);
  }

  /** GET /: the caller's saves, and no one else's. */
  function MySaved(saved: map<Id, SavedProperty>, n: nat, me: Caller): (r: seq<Id>)
    requires Below(saved, n)
    ensures forall k :: k in r <==> k in saved && saved[k].user == Some(me.id)
  {
    Find(saved, (k: Id, s: SavedProperty) => s.user == Some(me.id), n)
  }

  /** DELETE /:id: only a save the caller owns is removed; anything else is a 404. */
  method RemoveSaved(db: Db, me: Caller, id: Id) returns (r: Result<()>)
    requires db.Valid()
    modifies db
    ensures db.Valid()
    ensures if id in old(db.data.saved) && old(db.data.saved)[id].user == Some(me.id) then
        r == Ok(()) && db.data == old(db.data).(saved := old(db.data.saved) - {id})
      else r == Err(NotFound) && db.data == old(db.data)
  {
    if id !in db.data.saved || db.data.saved[id].user != Some(me.id) {
      return Err(NotFound);
    }
    db.data := db.data.(saved := db.data.saved - {id});
    r := Ok(());
  }

  /** Removing a save lets the same unit be saved again. */
  lemma RemoveThenSaveAgain(saved: map<Id, SavedProperty>, id: Id, user: Id, unit: Id)
    requires SavesUnique(saved) && id in saved && saved[id].user == Some(user) && saved[id].unit == Some(unit)
    ensures !SavedBy(saved - {id}, user, unit)
  {
  }
}
