/**
 * Advertisements (routes/Ads.router.js): administrators create, update and
 * delete ads; the public listing shows the active ones, newest first, and
 * administrators see them all.
 */
module Ads {
  import opened Wrappers
  import opened Schema
  import opened Store
  import opened Access

  /** The fields of a create body; `createdBy` is whatever the client sends. */
  datatype AdBody = AdBody(
    title: string,
    image: string,
    redirectUrl: string,
    isActive: Field<bool>,
    position: Option<string>,
    createdBy: Option<Id>)

  /**
   * The ad POST / builds: the body's fields, the defaults, and the caller
   * as creator whatever the body says. An undefined `isActive` takes the
   * default true; a JSON null is stored as null.
   */
  function NewAd(me: Caller, q: AdBody, now: int): (a: Ad)
    ensures a.createdBy == Some(me.id)
    ensures a.title == q.title && a.image == q.image && a.redirectUrl == q.redirectUrl
    ensures q.isActive.Unset? ==> a.isActive == Some(true)
    ensures q.isActive.Null? ==> a.isActive.None?
    ensures q.isActive.Set? ==> a.isActive == Some(q.isActive.value)
    ensures a.isActive == Some(true) <==> q.isActive.Unset? || q.isActive == Set(true)
    ensures a.position == (if q.position.Some? then q.position.value else "homepage")
    ensures a.createdAt == now
  {
    Ad(q.title, q.image, q.redirectUrl, Written(q.isActive, Some(true)),
       if q.position.Some? then q.position.value else "homepage", Some(me.id), now)
  }

  /** POST /: administrators only; an ad the schema refuses (a missing field, an unknown position) is a 500. */
  method CreateAd(db: Db, me: Caller, q: AdBody, now: int) returns (r: Result<Id>)
    requires db.Valid()
    modifies db
    ensures db.Valid()
    ensures !HasRole(me, Admins) ==> r == Err(Forbidden) && db.data == old(db.data)
    ensures HasRole(me, Admins) ==>
      if AdValid(NewAd(me, q, now)) then
        r.Ok? && r.value !in old(db.data.ads)
        && db.data == old(db.data).(ads := old(db.data.ads)[r.value := NewAd(me, q, now)], nextId := r.value + 1)
      else r == Err(ServerError) && db.data == old(db.data)
  {
    if !HasRole(me, Admins) {
      return Err(Forbidden);
    }
    var a := NewAd(me, q, now);
    if !AdValid(a) {
      return Err(ServerError);
    }
    var id := db.NewId();
    db.data := db.data.(ads := db.data.ads[id := a]);
    r := Ok(id);
  }

  function Created(a: Ad): int { a.createdAt }

  /** GET /: the ads whose flag is true (not null), newest first; no sign-in needed. */
  function ActiveAds(ads: map<Id, Ad>, n: nat): (r: seq<Id>)
    requires Below(ads, n)
    ensures forall k :: k in r <==> k in ads && ads[k].isActive == Some(true)
    ensures forall i, j :: 0 <= i < j < |r| ==> ads[r[i]].createdAt >= ads[r[j]].createdAt
  {
    NewestFirst(ads, Find(ads, (k: Id, a: Ad) => a.isActive == Some(true), n), Created)
  }

  /** GET /all: every ad, active or not, for administrators. */
  function AllAds(ads: map<Id, Ad>, n: nat, me: Caller): (r: Result<seq<Id>>)
    requires Below(ads, n)
    ensures r.Err? <==> !HasRole(me, Admins)
    ensures r.Err? ==> r.status == Forbidden
    ensures r.Ok? ==> forall k :: k in r.value <==> k in ads
  {
    if !HasRole(me, Admins) then Err(Forbidden)
    else Ok(Find(ads, (k: Id, a: Ad) => true, n))
  }

  /** The fields of a PUT /:id body. */
  datatype AdPatch = AdPatch(
    title: Option<string>,
    image: Option<string>,
    redirectUrl: Option<string>,
    isActive: Field<bool>,
    position: Option<string>,
    createdBy: Option<Option<Id>>)

  /**
   * The ad with every field the body gives replaced, without validation;
   * a JSON null `isActive` is written as null.
   */
  function Patched(a: Ad, p: AdPatch): (d: Ad)
    ensures d.title == (if p.title.Some? then p.title.value else a.title)
    ensures d.image == (if p.image.Some? then p.image.value else a.image)
    ensures d.redirectUrl == (if p.redirectUrl.Some? then p.redirectUrl.value else a.redirectUrl)
    ensures p.isActive.Unset? ==> d.isActive == a.isActive
    ensures p.isActive.Null? ==> d.isActive.None?
    ensures p.isActive.Set? ==> d.isActive == Some(p.isActive.value)
    ensures d.position == (if p.position.Some? then p.position.value else a.position)
    ensures d.createdBy == (if p.createdBy.Some? then p.createdBy.value else a.createdBy)
    ensures d.createdAt == a.createdAt
  {
    Ad(if p.title.Some? then p.title.value else a.title,
       if p.image.Some? then p.image.value else a.image,
       if p.redirectUrl.Some? then p.redirectUrl.value else a.redirectUrl,
       Written(p.isActive, a.isActive),
       if p.position.Some? then p.position.value else a.position,
       if p.createdBy.Some? then p.createdBy.value else a.createdBy,
       a.createdAt)
  }

  /**
   * The update runs no validators, so it can store an ad the schema would
   * refuse, such as one with a position outside the list.
   */
  lemma UpdateSkipsValidation(a: Ad, position: string)
    requires position !in AdPositions
    ensures !AdValid(Patched(a, AdPatch(None, None, None, Unset, Some(position), None)))
  {
  }

  /** PUT /:id: administrators overwrite the given fields; an unknown ad is a 404. */
  method UpdateAd(db: Db, me: Caller, id: Id, p: AdPatch) returns (r: Result<Id>)
    requires db.Valid()
    modifies db
    ensures db.Valid()
    ensures !HasRole(me, Admins) ==> r == Err(Forbidden) && db.data == old(db.data)
    ensures HasRole(me, Admins) && id !in old(db.data.ads) ==> r == Err(NotFound) && db.data == old(db.data)
    ensures HasRole(me, Admins) && id in old(db.data.ads) ==>
      r == Ok(id) && db.data == old(db.data).(ads := old(db.data.ads)[id := Patched(old(db.data.ads)[id], p)])
  {
    if !HasRole(me, Admins) {
      return Err(Forbidden);
    }
    if id !in db.data.ads {
      return Err(NotFound);
    }
    db.data := db.data.(ads := db.data.ads[id := Patched(db.data.ads[id], p)]);
    r := Ok(id);
  }

  /**
   * An update that gives `isActive` decides the listing: true puts the ad
   * on the public listing, and false or null takes it off.
   */
  lemma ActivationControlsListing(ads: map<Id, Ad>, n: nat, id: Id, flag: Field<bool>)
    requires Below(ads, n) && id in ads && !flag.Unset?
    ensures var after := ads[id := Patched(ads[id], AdPatch(None, None, None, flag, None, None))];
      id in ActiveAds(after, n) <==> flag == Set(true)
  {
  }

  /** DELETE /:id: administrators remove an ad; an unknown one is a 404. */
  method DeleteAd(db: Db, me: Caller, id: Id) returns (r: Result<()>)
    requires db.Valid()
    modifies db
    ensures db.Valid()
    ensures !HasRole(me, Admins) ==> r == Err(Forbidden) && db.data == old(db.data)
    ensures HasRole(me, Admins) && id !in old(db.data.ads) ==> r == Err(NotFound) && db.data == old(db.data)
    ensures HasRole(me, Admins) && id in old(db.data.ads) ==>
      r == Ok(()) && db.data == old(db.data).(ads := old(db.data.ads) - {id})
  {
    if !HasRole(me, Admins) {
      return Err(Forbidden);
    }
    if id !in db.data.ads {
      return Err(NotFound);
    }
    db.data := db.data.(ads := db.data.ads - {id});
    r := Ok(());
  }
}
