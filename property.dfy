/**
 * The write side of the property catalogue (routes/Property.router.js):
 * creating a level checks that the referenced parent exists and that no
 * sibling already has the same key, updates apply the request body to the
 * stored document without validation, and deletes remove one document
 * without touching its children. Request bodies arrive as documents with
 * the schema defaults applied; an update's body is the patch it applies.
 */
module Property {
  import opened Wrappers
  import opened Schema
  import opened Store
  import opened Access
  import opened Hierarchy

  // ---- Sibling keys

  function ProjectName(p: Project): Option<string> { p.projectName }
  function BuildingName(b: Building): Option<string> { b.buildingName }
  function FloorNumber(f: Floor): Option<int> { f.floorNumber }
  function UnitNumber(u: Unit): Option<string> { u.unitNumber }

  /** The duplicate query `findOne({ parent, key })` finds a document. */
  predicate SiblingClash<T, K(==)>(m: map<Id, T>, parentOf: T -> Option<Id>, keyOf: T -> Option<K>, doc: T) {
    exists k :: k in m && parentOf(m[k]) == parentOf(doc) && Matches(keyOf(doc), keyOf(m[k]))
  }

  /** No two documents with the same parent share a key. */
  predicate SiblingKeysUnique<T, K(==)>(m: map<Id, T>, parentOf: T -> Option<Id>, keyOf: T -> Option<K>) {
    forall a, b :: a in m && b in m && a != b && parentOf(m[a]) == parentOf(m[b]) ==> keyOf(m[a]) != keyOf(m[b])
  }

  /** An insert that passed the duplicate query keeps sibling keys unique. */
  lemma InsertKeepsSiblingKeysUnique<T, K>(m: map<Id, T>, parentOf: T -> Option<Id>, keyOf: T -> Option<K>, id: Id, doc: T)
    requires SiblingKeysUnique(m, parentOf, keyOf) && id !in m
    requires !SiblingClash(m, parentOf, keyOf, doc)
    ensures SiblingKeysUnique(m[id := doc], parentOf, keyOf)
  {
    var m' := m[id := doc];
    forall a, b | a in m' && b in m' && a != b && parentOf(m'[a]) == parentOf(m'[b])
      ensures keyOf(m'[a]) != keyOf(m'[b])
    {
      if a == id {
        assert !Matches(keyOf(doc), keyOf(m[b]));
      } else if b == id {
        assert !Matches(keyOf(doc), keyOf(m[a]));
      }
    }
  }

  // ---- POST/PUT/DELETE /builder-profile

  datatype ProfileReply = AlreadyExists(id: Id) | Created(id: Id)

  /**
   * A profile already stored for the body's user is returned unchanged
   * (with 200); when the body names no user, any stored profile matches.
   */
  method CreateBuilderProfile(db: Db, me: Caller, body: BuilderProfile) returns (r: Result<ProfileReply>)
    requires db.Valid()
    modifies db
    ensures db.Valid()
    ensures !HasRole(me, BuilderSide) ==> r == Err(Forbidden)
    ensures HasRole(me, BuilderSide) && (exists k :: k in old(db.data.builders) && Matches(body.user, old(db.data.builders)[k].user)) ==>
      r.Ok? && r.value.AlreadyExists?
    ensures r.Ok? && r.value.AlreadyExists? ==>
      r.value.id in db.data.builders && Matches(body.user, db.data.builders[r.value.id].user)
    ensures HasRole(me, BuilderSide) && (forall k :: k in old(db.data.builders) ==> !Matches(body.user, old(db.data.builders)[k].user)) ==>
      if ProfileValid(body) then r.Ok? && r.value.Created? else r == Err(BadRequest)
    ensures r.Ok? && r.value.Created? ==>
      r.value.id !in old(db.data.builders)
      && db.data == old(db.data).(builders := old(db.data.builders)[r.value.id := body], nextId := r.value.id + 1)
    ensures !(r.Ok? && r.value.Created?) ==> db.data == old(db.data)
  {
    if !HasRole(me, BuilderSide) {
      return Err(Forbidden);
    }
    var existing := First(db.data.builders, (k: Id, b: BuilderProfile) => Matches(body.user, b.user), db.data.nextId);
    if existing.Some? {
      return Ok(AlreadyExists(existing.value));
    }
    if !ProfileValid(body) {
      return Err(BadRequest);
    }
    var id := db.NewId();
    db.data := db.data.(builders := db.data.builders[id := body]);
    r := Ok(Created(id));
  }

  /** GET /builder-profile/user/:userId. */
  function ProfileOfUser(builders: map<Id, BuilderProfile>, n: nat, user: Id): (r: Result<Id>)
    requires Below(builders, n)
    ensures r.Ok? ==> r.value in builders && builders[r.value].user == Some(user)
    ensures r.Err? <==> forall k :: k in builders ==> builders[k].user != Some(user)
    ensures r.Err? ==> r.status == NotFound
  {
    match ProfileOf(builders, n, user)
    case None => Err(NotFound)
    case Some(k) => Ok(k)
  }

  /**
   * PUT /builder-profile/:id: `findByIdAndUpdate` answers null for an
   * unknown id and fails (400) when the patch breaks the one-profile-per-user index.
   */
  method UpdateBuilderProfile(db: Db, me: Caller, id: Id, patch: BuilderProfile -> BuilderProfile) returns (r: Result<Option<Id>>)
    requires db.Valid()
    modifies db
    ensures db.Valid()
    ensures !HasRole(me, BuilderSide) ==> r == Err(Forbidden)
    ensures HasRole(me, BuilderSide) && id !in old(db.data.builders) ==> r == Ok(None)
    ensures HasRole(me, BuilderSide) && id in old(db.data.builders) ==>
      if ProfilesUnique(old(db.data.builders)[id := patch(old(db.data.builders)[id])])
      then r == Ok(Some(id)) && db.data == old(db.data).(builders := old(db.data.builders)[id := patch(old(db.data.builders)[id])])
      else r == Err(BadRequest)
    ensures r != Ok(Some(id)) ==> db.data == old(db.data)
  {
    if !HasRole(me, BuilderSide) {
      return Err(Forbidden);
    }
    if id !in db.data.builders {
      return Ok(None);
    }
    var updated := db.data.builders[id := patch(db.data.builders[id])];
    if !ProfilesUnique(updated) {
      return Err(BadRequest);
    }
    db.data := db.data.(builders := updated);
    r := Ok(Some(id));
  }

  /** DELETE /builder-profile/:id: its projects stay, still naming it. */
  method DeleteBuilderProfile(db: Db, me: Caller, id: Id) returns (r: Result<()>)
    requires db.Valid()
    modifies db
    ensures db.Valid()
    ensures !HasRole(me, Admins) ==> r == Err(Forbidden) && db.data == old(db.data)
    ensures HasRole(me, Admins) ==> r == Ok(()) && db.data == old(db.data).(builders := old(db.data.builders) - {id})
  {
    if !HasRole(me, Admins) {
      return Err(Forbidden);
    }
    db.data := db.data.(builders := db.data.builders - {id});
    r := Ok(());
  }

  // ---- POST/PUT/DELETE /project

  /**
   * Why POST /project refuses a body, or None when it stores it: the caller's
   * role, then the referenced builder profile, then the duplicate query on
   * (builder, projectName), then the schema's validators.
   */
  function ProjectRefusal(me: Caller, builders: map<Id, BuilderProfile>, projects: map<Id, Project>, body: Project): (r: Option<Status>)
    ensures r.None? <==>
      HasRole(me, BuilderSide) && body.builder.Some? && body.builder.value in builders
      && !SiblingClash(projects, ProjectBuilder, ProjectName, body) && ProjectValid(body)
    ensures r == Some(Forbidden) <==> !HasRole(me, BuilderSide)
    ensures r == Some(NotFound) <==> HasRole(me, BuilderSide) && (body.builder.None? || body.builder.value !in builders)
    ensures r == Some(Conflict) ==> SiblingClash(projects, ProjectBuilder, ProjectName, body)
    ensures r == Some(BadRequest) ==> !ProjectValid(body)
  {
    if !HasRole(me, BuilderSide) then Some(Forbidden)
    else if body.builder.None? || body.builder.value !in builders then Some(NotFound)
    else if SiblingClash(projects, ProjectBuilder, ProjectName, body) then Some(Conflict)
    else if !ProjectValid(body) then Some(BadRequest)
    else None
  }

  /** A project POST /project accepts keeps project names unique per builder. */
  lemma AcceptedProjectKeepsNamesUnique(me: Caller, builders: map<Id, BuilderProfile>, projects: map<Id, Project>, body: Project, id: Id)
    requires ProjectRefusal(me, builders, projects, body).None?
    requires SiblingKeysUnique(projects, ProjectBuilder, ProjectName) && id !in projects
    ensures SiblingKeysUnique(projects[id := body], ProjectBuilder, ProjectName)
  {
    InsertKeepsSiblingKeysUnique(projects, ProjectBuilder, ProjectName, id, body);
  }

  method CreateProject(db: Db, me: Caller, body: Project) returns (r: Result<Id>)
    requires db.Valid()
    modifies db
    ensures db.Valid()
    ensures r.Err? <==> ProjectRefusal(me, db.data.builders, old(db.data.projects), body).Some?
    ensures r.Err? ==> Some(r.status) == ProjectRefusal(me, db.data.builders, old(db.data.projects), body)
    ensures r.Ok? ==> r.value !in old(db.data.projects) && db.data == old(db.data).(projects := old(db.data.projects)[r.value := body], nextId := r.value + 1)
    ensures r.Err? ==> db.data == old(db.data)
  {
    if !HasRole(me, BuilderSide) {
      return Err(Forbidden);
    }
    if body.builder.None? || body.builder.value !in db.data.builders {
      return Err(NotFound);
    }
    var existing := First(db.data.projects, (k: Id, p: Project) => p.builder == body.builder && Matches(body.projectName, p.projectName), db.data.nextId);
    if existing.Some? {
      return Err(Conflict);
    }
    if !ProjectValid(body) {
      return Err(BadRequest);
    }
    var id := db.NewId();
    db.data := db.data.(projects := db.data.projects[id := body]);
    r := Ok(id);
  }

  method UpdateProject(db: Db, me: Caller, id: Id, patch: Project -> Project) returns (r: Result<Option<Id>>)
    requires db.Valid()
    modifies db
    ensures db.Valid()
    ensures !HasRole(me, BuilderSide) ==> r == Err(Forbidden) && db.data == old(db.data)
    ensures HasRole(me, BuilderSide) && id !in old(db.data.projects) ==> r == Ok(None) && db.data == old(db.data)
    ensures HasRole(me, BuilderSide) && id in old(db.data.projects) ==>
      r == Ok(Some(id)) && db.data == old(db.data).(projects := old(db.data.projects)[id := patch(old(db.data.projects)[id])])
  {
    if !HasRole(me, BuilderSide) {
      return Err(Forbidden);
    }
    if id !in db.data.projects {
      return Ok(None);
    }
    db.data := db.data.(projects := db.data.projects[id := patch(db.data.projects[id])]);
    r := Ok(Some(id));
  }

  method DeleteProject(db: Db, me: Caller, id: Id) returns (r: Result<()>)
    requires db.Valid()
    modifies db
    ensures db.Valid()
    ensures !HasRole(me, BuilderSide) ==> r == Err(Forbidden) && db.data == old(db.data)
    ensures HasRole(me, BuilderSide) ==> r == Ok(()) && db.data == old(db.data).(projects := old(db.data.projects) - {id})
  {
    if !HasRole(me, BuilderSide) {
      return Err(Forbidden);
    }
    db.data := db.data.(projects := db.data.projects - {id});
    r := Ok(());
  }

  // ---- POST/PUT/DELETE /building (create and update are not behind the access gate)

  /**
   * Why POST /building refuses a body, or None when it stores it: the
   * referenced project, then the duplicate query on (project, buildingName),
   * then the validators. No role is required.
   */
  function BuildingRefusal(projects: map<Id, Project>, buildings: map<Id, Building>, body: Building): (r: Option<Status>)
    ensures r.None? <==>
      body.project.Some? && body.project.value in projects
      && !SiblingClash(buildings, BuildingProject, BuildingName, body) && BuildingValid(body)
    ensures r == Some(NotFound) <==> body.project.None? || body.project.value !in projects
    ensures r == Some(Conflict) ==> SiblingClash(buildings, BuildingProject, BuildingName, body)
    ensures r == Some(BadRequest) ==> !BuildingValid(body)
    ensures r != Some(Forbidden)
  {
    if body.project.None? || body.project.value !in projects then Some(NotFound)
    else if SiblingClash(buildings, BuildingProject, BuildingName, body) then Some(Conflict)
    else if !BuildingValid(body) then Some(BadRequest)
    else None
  }

  /** A building POST /building accepts keeps building names unique per project. */
  lemma AcceptedBuildingKeepsNamesUnique(projects: map<Id, Project>, buildings: map<Id, Building>, body: Building, id: Id)
    requires BuildingRefusal(projects, buildings, body).None?
    requires SiblingKeysUnique(buildings, BuildingProject, BuildingName) && id !in buildings
    ensures SiblingKeysUnique(buildings[id := body], BuildingProject, BuildingName)
  {
    InsertKeepsSiblingKeysUnique(buildings, BuildingProject, BuildingName, id, body);
  }

  method CreateBuilding(db: Db, body: Building) returns (r: Result<Id>)
    requires db.Valid()
    modifies db
    ensures db.Valid()
    ensures r.Err? <==> BuildingRefusal(db.data.projects, old(db.data.buildings), body).Some?
    ensures r.Err? ==> Some(r.status) == BuildingRefusal(db.data.projects, old(db.data.buildings), body)
    ensures r.Ok? ==> r.value !in old(db.data.buildings) && db.data == old(db.data).(buildings := old(db.data.buildings)[r.value := body], nextId := r.value + 1)
    ensures r.Err? ==> db.data == old(db.data)
  {
    if body.project.None? || body.project.value !in db.data.projects {
      return Err(NotFound);
    }
    var existing := First(db.data.buildings, (k: Id, b: Building) => b.project == body.project && Matches(body.buildingName, b.buildingName), db.data.nextId);
    if existing.Some? {
      return Err(Conflict);
    }
    if !BuildingValid(body) {
      return Err(BadRequest);
    }
    var id := db.NewId();
    db.data := db.data.(buildings := db.data.buildings[id := body]);
    r := Ok(id);
  }

  method UpdateBuilding(db: Db, id: Id, patch: Building -> Building) returns (r: Option<Id>)
    requires db.Valid()
    modifies db
    ensures db.Valid()
    ensures id !in old(db.data.buildings) ==> r == None && db.data == old(db.data)
    ensures id in old(db.data.buildings) ==>
      r == Some(id) && db.data == old(db.data).(buildings := old(db.data.buildings)[id := patch(old(db.data.buildings)[id])])
  {
    if id !in db.data.buildings {
      return None;
    }
    db.data := db.data.(buildings := db.data.buildings[id := patch(db.data.buildings[id])]);
    r := Some(id);
  }

  method DeleteBuilding(db: Db, me: Caller, id: Id) returns (r: Result<()>)
    requires db.Valid()
    modifies db
    ensures db.Valid()
    ensures !HasRole(me, BuilderSide) ==> r == Err(Forbidden) && db.data == old(db.data)
    ensures HasRole(me, BuilderSide) ==> r == Ok(()) && db.data == old(db.data).(buildings := old(db.data.buildings) - {id})
  {
    if !HasRole(me, BuilderSide) {
      return Err(Forbidden);
    }
    db.data := db.data.(buildings := db.data.buildings - {id});
    r := Ok(());
  }

  // ---- POST/PUT/DELETE /floor

  /**
   * Why POST /floor refuses a body, or None when it stores it: the caller's
   * role, then the referenced building, then the duplicate query on
   * (building, floorNumber).
   */
  function FloorRefusal(me: Caller, buildings: map<Id, Building>, floors: map<Id, Floor>, body: Floor): (r: Option<Status>)
    ensures r.None? <==>
      HasRole(me, BuilderSide) && body.building.Some? && body.building.value in buildings
      && !SiblingClash(floors, FloorBuilding, FloorNumber, body)
    ensures r.None? ==> FloorValid(body)
    ensures r == Some(Forbidden) <==> !HasRole(me, BuilderSide)
    ensures r == Some(NotFound) <==> HasRole(me, BuilderSide) && (body.building.None? || body.building.value !in buildings)
    ensures r == Some(Conflict) ==> SiblingClash(floors, FloorBuilding, FloorNumber, body)
  {
    if !HasRole(me, BuilderSide) then Some(Forbidden)
    else if body.building.None? || body.building.value !in buildings then Some(NotFound)
    else if SiblingClash(floors, FloorBuilding, FloorNumber, body) then Some(Conflict)
    else None
  }

  /** A floor POST /floor accepts keeps floor numbers unique per building. */
  lemma AcceptedFloorKeepsNumbersUnique(me: Caller, buildings: map<Id, Building>, floors: map<Id, Floor>, body: Floor, id: Id)
    requires FloorRefusal(me, buildings, floors, body).None?
    requires SiblingKeysUnique(floors, FloorBuilding, FloorNumber) && id !in floors
    ensures SiblingKeysUnique(floors[id := body], FloorBuilding, FloorNumber)
  {
    InsertKeepsSiblingKeysUnique(floors, FloorBuilding, FloorNumber, id, body);
  }

  method CreateFloor(db: Db, me: Caller, body: Floor) returns (r: Result<Id>)
    requires db.Valid()
    modifies db
    ensures db.Valid()
    ensures r.Err? <==> FloorRefusal(me, db.data.buildings, old(db.data.floors), body).Some?
    ensures r.Err? ==> Some(r.status) == FloorRefusal(me, db.data.buildings, old(db.data.floors), body)
    ensures r.Ok? ==> r.value !in old(db.data.floors) && db.data == old(db.data).(floors := old(db.data.floors)[r.value := body], nextId := r.value + 1)
    ensures r.Err? ==> db.data == old(db.data)
  {
    if !HasRole(me, BuilderSide) {
      return Err(Forbidden);
    }
    if body.building.None? || body.building.value !in db.data.buildings {
      return Err(NotFound);
    }
    var existing := First(db.data.floors, (k: Id, f: Floor) => f.building == body.building && Matches(body.floorNumber, f.floorNumber), db.data.nextId);
    if existing.Some? {
      return Err(Conflict);
    }
    var id := db.NewId();
    db.data := db.data.(floors := db.data.floors[id := body]);
    r := Ok(id);
  }

  method UpdateFloor(db: Db, me: Caller, id: Id, patch: Floor -> Floor) returns (r: Result<Option<Id>>)
    requires db.Valid()
    modifies db
    ensures db.Valid()
    ensures !HasRole(me, BuilderSide) ==> r == Err(Forbidden) && db.data == old(db.data)
    ensures HasRole(me, BuilderSide) && id !in old(db.data.floors) ==> r == Ok(None) && db.data == old(db.data)
    ensures HasRole(me, BuilderSide) && id in old(db.data.floors) ==>
      r == Ok(Some(id)) && db.data == old(db.data).(floors := old(db.data.floors)[id := patch(old(db.data.floors)[id])])
  {
    if !HasRole(me, BuilderSide) {
      return Err(Forbidden);
    }
    if id !in db.data.floors {
      return Ok(None);
    }
    db.data := db.data.(floors := db.data.floors[id := patch(db.data.floors[id])]);
    r := Ok(Some(id));
  }

  method DeleteFloor(db: Db, me: Caller, id: Id) returns (r: Result<()>)
    requires db.Valid()
    modifies db
    ensures db.Valid()
    ensures !HasRole(me, BuilderSide) ==> r == Err(Forbidden) && db.data == old(db.data)
    ensures HasRole(me, BuilderSide) ==> r == Ok(()) && db.data == old(db.data).(floors := old(db.data.floors) - {id})
  {
    if !HasRole(me, BuilderSide) {
      return Err(Forbidden);
    }
    db.data := db.data.(floors := db.data.floors - {id});
    r := Ok(());
  }

  // ---- POST/PUT/DELETE /unit, GET /unit/:id

  /**
   * Why POST /unit refuses a body, or None when it stores it: the caller's
   * role, then the referenced floor, then the duplicate query on
   * (floor, unitNumber), then the validators.
   */
  function UnitRefusal(me: Caller, floors: map<Id, Floor>, units: map<Id, Unit>, body: Unit): (r: Option<Status>)
    ensures r.None? <==>
      HasRole(me, BuilderSide) && body.floor.Some? && body.floor.value in floors
      && !SiblingClash(units, UnitFloor, UnitNumber, body) && UnitValid(body)
    ensures r == Some(Forbidden) <==> !HasRole(me, BuilderSide)
    ensures r == Some(NotFound) <==> HasRole(me, BuilderSide) && (body.floor.None? || body.floor.value !in floors)
    ensures r == Some(Conflict) ==> SiblingClash(units, UnitFloor, UnitNumber, body)
    ensures r == Some(BadRequest) ==> !UnitValid(body)
  {
    if !HasRole(me, BuilderSide) then Some(Forbidden)
    else if body.floor.None? || body.floor.value !in floors then Some(NotFound)
    else if SiblingClash(units, UnitFloor, UnitNumber, body) then Some(Conflict)
    else if !UnitValid(body) then Some(BadRequest)
    else None
  }

  /** A unit POST /unit accepts keeps unit numbers unique per floor. */
  lemma AcceptedUnitKeepsNumbersUnique(me: Caller, floors: map<Id, Floor>, units: map<Id, Unit>, body: Unit, id: Id)
    requires UnitRefusal(me, floors, units, body).None?
    requires SiblingKeysUnique(units, UnitFloor, UnitNumber) && id !in units
    ensures SiblingKeysUnique(units[id := body], UnitFloor, UnitNumber)
  {
    InsertKeepsSiblingKeysUnique(units, UnitFloor, UnitNumber, id, body);
  }

  method CreateUnit(db: Db, me: Caller, body: Unit) returns (r: Result<Id>)
    requires db.Valid()
    modifies db
    ensures db.Valid()
    ensures r.Err? <==> UnitRefusal(me, db.data.floors, old(db.data.units), body).Some?
    ensures r.Err? ==> Some(r.status) == UnitRefusal(me, db.data.floors, old(db.data.units), body)
    ensures r.Ok? ==> r.value !in old(db.data.units) && db.data == old(db.data).(units := old(db.data.units)[r.value := body], nextId := r.value + 1)
    ensures r.Err? ==> db.data == old(db.data)
  {
    if !HasRole(me, BuilderSide) {
      return Err(Forbidden);
    }
    if body.floor.None? || body.floor.value !in db.data.floors {
      return Err(NotFound);
    }
    var existing := First(db.data.units, (k: Id, u: Unit) => u.floor == body.floor && Matches(body.unitNumber, u.unitNumber), db.data.nextId);
    if existing.Some? {
      return Err(Conflict);
    }
    if !UnitValid(body) {
      return Err(BadRequest);
    }
    var id := db.NewId();
    db.data := db.data.(units := db.data.units[id := body]);
    r := Ok(id);
  }

  method UpdateUnit(db: Db, me: Caller, id: Id, patch: Unit -> Unit) returns (r: Result<Option<Id>>)
    requires db.Valid()
    modifies db
    ensures db.Valid()
    ensures !HasRole(me, BuilderSide) ==> r == Err(Forbidden) && db.data == old(db.data)
    ensures HasRole(me, BuilderSide) && id !in old(db.data.units) ==> r == Ok(None) && db.data == old(db.data)
    ensures HasRole(me, BuilderSide) && id in old(db.data.units) ==>
      r == Ok(Some(id)) && db.data == old(db.data).(units := old(db.data.units)[id := patch(old(db.data.units)[id])])
  {
    if !HasRole(me, BuilderSide) {
      return Err(Forbidden);
    }
    if id !in db.data.units {
      return Ok(None);
    }
    db.data := db.data.(units := db.data.units[id := patch(db.data.units[id])]);
    r := Ok(Some(id));
  }

  method DeleteUnit(db: Db, me: Caller, id: Id) returns (r: Result<()>)
    requires db.Valid()
    modifies db
    ensures db.Valid()
    ensures !HasRole(me, BuilderSide) ==> r == Err(Forbidden) && db.data == old(db.data)
    ensures HasRole(me, BuilderSide) ==> r == Ok(()) && db.data == old(db.data).(units := old(db.data.units) - {id})
  {
    if !HasRole(me, BuilderSide) {
      return Err(Forbidden);
    }
    db.data := db.data.(units := db.data.units - {id});
    r := Ok(());
  }

  /** GET /unit/:id. */
  function UnitById(units: map<Id, Unit>, id: Id): (r: Result<Unit>)
    ensures r.Ok? <==> id in units
    ensures r.Ok? ==> r.value == units[id]
    ensures r.Err? ==> r.status == NotFound
  {
    if id in units then Ok(units[id]) else Err(NotFound)
  }
}
