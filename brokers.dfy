/**
 * Broker profiles (routes/Broker.router.js): one profile per user, the
 * units a broker is assigned with `activeListings` kept at their count,
 * and the lookup of the brokers assigned to a unit.
 */
module Brokers {
  import opened Wrappers
  import opened Schema
  import opened Store
  import opened Access

  const BrokerSide: seq<string> := ["broker", "admin", "superAdmin"]

  /** The fields a request body may carry; absent ones are None. */
  datatype BrokerBody = BrokerBody(
    user: Option<Id>,
    companyName: Option<string>,
    selectType: Option<string>,
    activeListings: Option<int>,
    closedDeals: Option<int>,
    commissionRate: Option<int>,
    properties: Option<seq<Id>>)

  /** `new Broker({...body, user})`, with the schema's defaults. */
  function NewBroker(q: BrokerBody, user: Id): (b: Broker)
    ensures b.user == Some(user)
    ensures q.companyName.Some? ==> b.companyName == q.companyName.value
    ensures q.selectType.Some? ==> b.selectType == q.selectType.value
    ensures q.companyName.None? ==> b.companyName == ""
    ensures q.selectType.None? ==> b.selectType == ""
    ensures b.commissionRate == q.commissionRate
    ensures q.activeListings.Some? ==> b.activeListings == q.activeListings.value
    ensures q.activeListings.None? ==> b.activeListings == 0
    ensures q.closedDeals.Some? ==> b.closedDeals == q.closedDeals.value
    ensures q.closedDeals.None? ==> b.closedDeals == 0
    ensures q.properties.Some? ==> b.properties == q.properties.value
    ensures q.properties.None? ==> b.properties == []
    ensures BrokerValid(b) <==> q.selectType.Some? && q.selectType.value in BrokerTypes && q.commissionRate.Some?
  {
    Broker(Some(user),
           if q.companyName.Some? then q.companyName.value else "",
           if q.selectType.Some? then q.selectType.value else "",
           if q.activeListings.Some? then q.activeListings.value else 0,
           if q.closedDeals.Some? then q.closedDeals.value else 0,
           q.commissionRate,
           if q.properties.Some? then q.properties.value else [])
  }

  /** The user a new profile is for: the body's for administrators, who must name one, else the caller. */
  function ProfileOwner(me: Caller, q: BrokerBody): (r: Result<Id>)
    ensures HasRole(me, Admins) ==> (r.Ok? <==> q.user.Some?) && (r.Ok? ==> r.value == q.user.value)
    ensures !HasRole(me, Admins) ==> r == Ok(me.id)
    ensures r.Err? ==> r.status == BadRequest
  {
    if HasRole(me, Admins) then
      if q.user.None? then Err(BadRequest) else Ok(q.user.value)
    else Ok(me.id)
  }

  /** Some profile belongs to the user. */
  predicate HasProfile(brokers: map<Id, Broker>, user: Id) {
    exists k :: k in brokers && brokers[k].user == Some(user)
  }

  /**
   * POST /: a second profile for the same user is a 400, and so is a body
   * the schema refuses. The stored user is the resolved one, whatever the
   * body says.
   */
  method CreateBroker(db: Db, me: Caller, q: BrokerBody) returns (r: Result<Id>)
    requires db.Valid()
    modifies db
    ensures db.Valid()
    ensures !HasRole(me, BrokerSide) ==> r == Err(Forbidden) && db.data == old(db.data)
    ensures HasRole(me, BrokerSide) ==>
      var owner := ProfileOwner(me, q);
      if owner.Err? || HasProfile(old(db.data.brokers), owner.value) || !BrokerValid(NewBroker(q, owner.value)) then
        r == Err(BadRequest) && db.data == old(db.data)
      else (r.Ok? && r.value !in old(db.data.brokers)
        && db.data == old(db.data).(brokers := old(db.data.brokers)[r.value := NewBroker(q, owner.value)], nextId := r.value + 1))
    ensures r.Ok? ==> db.data.brokers[r.value].user == Some(if HasRole(me, Admins) then q.user.value else me.id)
  {
    if !HasRole(me, BrokerSide) {
      return Err(Forbidden);
    }
    var owner := ProfileOwner(me, q);
    if owner.Err? {
      return Err(BadRequest);
    }
    var existing := First(db.data.brokers, (k: Id, b: Broker) => b.user == Some(owner.value), db.data.nextId);
    if existing.Some? {
      return Err(BadRequest);
    }
    var b := NewBroker(q, owner.value);
    if !BrokerValid(b) {
      return Err(BadRequest);
    }
    var id := db.NewId();
    db.data := db.data.(brokers := db.data.brokers[id := b]);
    r := Ok(id);
  }

  /** GET /all: every profile, for administrators. */
  function AllBrokers(brokers: map<Id, Broker>, n: nat, me: Caller): (r: Result<seq<Id>>)
    requires Below(brokers, n)
    ensures r.Err? <==> !HasRole(me, Admins)
    ensures r.Err? ==> r.status == Forbidden
    ensures r.Ok? ==> forall k :: k in r.value <==> k in brokers
  {
    if !HasRole(me, Admins) then Err(Forbidden)
    else Ok(Find(brokers, (k: Id, b: Broker) => true, n))
  }

  /** GET /me: the caller's own profile, or 404. */
  function MyBroker(brokers: map<Id, Broker>, n: nat, me: Caller): (r: Result<Id>)
    requires Below(brokers, n)
    ensures !HasRole(me, BrokerSide) ==> r == Err(Forbidden)
    ensures HasRole(me, BrokerSide) ==> (r.Ok? <==> HasProfile(brokers, me.id))
    ensures r.Ok? ==> r.value in brokers && brokers[r.value].user == Some(me.id)
    ensures HasRole(me, BrokerSide) && r.Err? ==> r.status == NotFound
  {
    if !HasRole(me, BrokerSide) then Err(Forbidden)
    else
      match First(brokers, (k: Id, b: Broker) => b.user == Some(me.id), n)
      case Some(k) => Ok(k)
      case None => Err(NotFound)
  }

  /** The listing count matches the assigned units. */
  predicate ListingsCounted(b: Broker) {
    b.activeListings == |b.properties|
  }

  /**
   * PUT /:id/assign-properties: the list is overwritten and
   * `activeListings` set to its length; a missing list fails on its length
   * (a 400), and so does a profile the schema refuses.
   */
  method AssignProperties(db: Db, me: Caller, id: Id, properties: Option<seq<Id>>) returns (r: Result<Id>)
    requires db.Valid()
    modifies db
    ensures db.Valid()
    ensures !HasRole(me, Admins) ==> r == Err(Forbidden) && db.data == old(db.data)
    ensures HasRole(me, Admins) && id !in old(db.data.brokers) ==> r == Err(NotFound) && db.data == old(db.data)
    ensures HasRole(me, Admins) && id in old(db.data.brokers) ==>
      if properties.None? || !BrokerValid(old(db.data.brokers)[id]) then r == Err(BadRequest) && db.data == old(db.data)
      else (r == Ok(id)
        && db.data == old(db.data).(brokers := old(db.data.brokers)[id := old(db.data.brokers)[id].(properties := properties.value, activeListings := |properties.value|)]))
    ensures r.Ok? ==> ListingsCounted(db.data.brokers[id])
  {
    if !HasRole(me, Admins) {
      return Err(Forbidden);
    }
    if id !in db.data.brokers {
      return Err(NotFound);
    }
    if properties.None? {
      return Err(BadRequest);
    }
    var b := db.data.brokers[id].(properties := properties.value, activeListings := |properties.value|);
    if !BrokerValid(b) {
      return Err(BadRequest);
    }
    db.data := db.data.(brokers := db.data.brokers[id := b]);
    r := Ok(id);
  }

  /** `Object.assign(broker, body)`, then the count of a supplied list. */
  function Assigned(b: Broker, q: BrokerBody): (c: Broker)
    ensures q.properties.Some? ==> c.properties == q.properties.value && ListingsCounted(c)
    ensures q.properties.None? ==> c.properties == b.properties
    ensures q.properties.None? && q.activeListings.Some? ==> c.activeListings == q.activeListings.value
    ensures q.properties.None? && q.activeListings.None? ==> c.activeListings == b.activeListings
    ensures q.user.Some? ==> c.user == q.user
    ensures q.user.None? ==> c.user == b.user
    ensures q.companyName.Some? ==> c.companyName == q.companyName.value
    ensures q.companyName.None? ==> c.companyName == b.companyName
    ensures q.selectType.Some? ==> c.selectType == q.selectType.value
    ensures q.selectType.None? ==> c.selectType == b.selectType
    ensures q.closedDeals.Some? ==> c.closedDeals == q.closedDeals.value
    ensures q.closedDeals.None? ==> c.closedDeals == b.closedDeals
    ensures q.commissionRate.Some? ==> c.commissionRate == q.commissionRate
    ensures q.commissionRate.None? ==> c.commissionRate == b.commissionRate
  {
    var c := Broker(
      if q.user.Some? then q.user else b.user,
      if q.companyName.Some? then q.companyName.value else b.companyName,
      if q.selectType.Some? then q.selectType.value else b.selectType,
      if q.activeListings.Some? then q.activeListings.value else b.activeListings,
      if q.closedDeals.Some? then q.closedDeals.value else b.closedDeals,
      if q.commissionRate.Some? then q.commissionRate else b.commissionRate,
      if q.properties.Some? then q.properties.value else b.properties);
    if q.properties.Some? then c.(activeListings := |q.properties.value|) else c
  }

  /** Applying the same body twice is applying it once. */
  lemma AssignedIdempotent(b: Broker, q: BrokerBody)
    ensures Assigned(Assigned(b, q), q) == Assigned(b, q)
  {
  }

  /** A body that names no units and no count keeps a counted profile counted. */
  lemma AssignKeepsCount(b: Broker, q: BrokerBody)
    requires ListingsCounted(b) && q.activeListings.None?
    ensures ListingsCounted(Assigned(b, q))
  {
  }

  /**
   * PUT /:id: the owner or an administrator; a profile without a user
   * fails on it (a 400). The saved profile must pass the schema and the
   * one-profile-per-user index, else 400.
   */
  method UpdateBroker(db: Db, me: Caller, id: Id, q: BrokerBody) returns (r: Result<Id>)
    requires db.Valid()
    modifies db
    ensures db.Valid()
    ensures !HasRole(me, BrokerSide) ==> r == Err(Forbidden) && db.data == old(db.data)
    ensures HasRole(me, BrokerSide) && id !in old(db.data.brokers) ==> r == Err(NotFound) && db.data == old(db.data)
    ensures HasRole(me, BrokerSide) && id in old(db.data.brokers) ==>
      var b := old(db.data.brokers)[id];
      var c := Assigned(b, q);
      if b.user.None? then r == Err(BadRequest) && db.data == old(db.data)
      else if b.user != Some(me.id) && !HasRole(me, Admins) then r == Err(Forbidden) && db.data == old(db.data)
      else if !BrokerValid(c) || !BrokersUnique(old(db.data.brokers)[id := c]) then r == Err(BadRequest) && db.data == old(db.data)
      else r == Ok(id) && db.data == old(db.data).(brokers := old(db.data.brokers)[id := c])
  {
    if !HasRole(me, BrokerSide) {
      return Err(Forbidden);
    }
    if id !in db.data.brokers {
      return Err(NotFound);
    }
    var b := db.data.brokers[id];
    if b.user.None? {
      return Err(BadRequest);
    }
    if b.user != Some(me.id) && !HasRole(me, Admins) {
      return Err(Forbidden);
    }
    var c := Assigned(b, q);
    if !BrokerValid(c) || !BrokersUnique(db.data.brokers[id := c]) {
      return Err(BadRequest);
    }
    db.data := db.data.(brokers := db.data.brokers[id := c]);
    r := Ok(id);
  }

  /** GET /by-property/:unitId: exactly the brokers assigned the unit; none is a 404. */
  function BrokersOfUnit(brokers: map<Id, Broker>, n: nat, unit: Id): (r: Result<seq<Id>>)
    requires Below(brokers, n)
    ensures r.Ok? ==> forall k :: k in r.value <==> k in brokers && unit in brokers[k].properties
    ensures r.Ok? <==> exists k :: k in brokers && unit in brokers[k].properties
    ensures r.Err? ==> r.status == NotFound
  {
    var ids := Find(brokers, (k: Id, b: Broker) => unit in b.properties, n);
    if ids == [] then Err(NotFound)
    else
      assert ids[0] in ids;
      Ok(ids)
  }

  /** DELETE /:id: any signed-in caller removes any profile; an unknown one is a 404. */
  method DeleteBroker(db: Db, id: Id) returns (r: Result<()>)
    requires db.Valid()
    modifies db
    ensures db.Valid()
    ensures id in old(db.data.brokers) ==> r == Ok(()) && db.data == old(db.data).(brokers := old(db.data.brokers) - {id})
    ensures id !in old(db.data.brokers) ==> r == Err(NotFound) && db.data == old(db.data)
  {
    if id !in db.data.brokers {
      return Err(NotFound);
    }
    db.data := db.data.(brokers := db.data.brokers - {id});
    r := Ok(());
  }
}
