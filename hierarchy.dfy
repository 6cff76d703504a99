/**
 * The property hierarchy builder profile > project > building > floor >
 * unit, read from a snapshot of the five collections: the nested views
 * of the public catalogue and of a builder's full details, the landing
 * page filter grouped by builder, and the walk from a unit up to the
 * builder that owns it. Every child names its parent by reference.
 */
module Hierarchy {
  import opened Wrappers
  import opened Schema
  import opened Store

  /** A document with its id, as the views return it. */
  datatype Entry<T> = Entry(id: Id, doc: T)

  datatype FloorView = FloorView(floor: Entry<Floor>, units: seq<Entry<Unit>>)
  datatype BuildingView = BuildingView(building: Entry<Building>, floors: seq<FloorView>)
  datatype ProjectView = ProjectView(project: Entry<Project>, buildings: seq<BuildingView>)
  datatype BuilderView = BuilderView(builder: Entry<BuilderProfile>, projects: seq<ProjectView>)

  /** The full-details answer: the requested id and the projects naming it. */
  datatype FullDetails = FullDetails(builderProfileId: Id, projects: seq<ProjectView>)

  function UnitFloor(u: Unit): Option<Id> { u.floor }
  function FloorBuilding(f: Floor): Option<Id> { f.building }
  function BuildingProject(b: Building): Option<Id> { b.project }
  function ProjectBuilder(p: Project): Option<Id> { p.builder }

  function Entries<T>(m: map<Id, T>, ids: seq<Id>): (es: seq<Entry<T>>)
    requires forall k :: k in ids ==> k in m
    ensures |es| == |ids|
    ensures forall i :: 0 <= i < |ids| ==> es[i] == Entry(ids[i], m[ids[i]])
  {
    seq(|ids|, i requires 0 <= i < |ids| => Entry(ids[i], m[ids[i]]))
  }

  /**
   * `es` lists, in insertion order and once each, exactly the documents
   * of `m` whose parent reference is `p`, each with its stored content.
   */
  predicate ListsChildren<T(==)>(m: map<Id, T>, parentOf: T -> Option<Id>, p: Id, es: seq<Entry<T>>) {
    (forall i :: 0 <= i < |es| ==> es[i].id in m && es[i].doc == m[es[i].id] && parentOf(es[i].doc) == Some(p))
    && (forall k :: k in m && parentOf(m[k]) == Some(p) ==> exists i :: 0 <= i < |es| && es[i].id == k)
    && (forall i, j :: 0 <= i < j < |es| ==> es[i].id < es[j].id)
  }

  /** `Model.find({ parent: p })`. */
  function Children<T(==)>(m: map<Id, T>, parentOf: T -> Option<Id>, p: Id, bound: nat): (es: seq<Entry<T>>)
    requires Below(m, bound)
    ensures ListsChildren(m, parentOf, p, es)
  {
    var ids := Find(m, (k: Id, d: T) => parentOf(d) == Some(p), bound);
    assert forall k :: k in m && parentOf(m[k]) == Some(p) ==> k in ids;
    Entries(m, ids)
  }

  // ---- What an exact nested view is, level by level

  predicate FloorExact(c: Catalog, v: FloorView) {
    v.floor.id in c.floors && v.floor.doc == c.floors[v.floor.id]
    && ListsChildren(c.units, UnitFloor, v.floor.id, v.units)
  }

  function FloorHeads(vs: seq<FloorView>): seq<Entry<Floor>> {
    seq(|vs|, i requires 0 <= i < |vs| => vs[i].floor)
  }

  predicate BuildingExact(c: Catalog, v: BuildingView) {
    v.building.id in c.buildings && v.building.doc == c.buildings[v.building.id]
    && ListsChildren(c.floors, FloorBuilding, v.building.id, FloorHeads(v.floors))
    && forall i :: 0 <= i < |v.floors| ==> FloorExact(c, v.floors[i])
  }

  function BuildingHeads(vs: seq<BuildingView>): seq<Entry<Building>> {
    seq(|vs|, i requires 0 <= i < |vs| => vs[i].building)
  }

  predicate ProjectExact(c: Catalog, v: ProjectView) {
    v.project.id in c.projects && v.project.doc == c.projects[v.project.id]
    && ListsChildren(c.buildings, BuildingProject, v.project.id, BuildingHeads(v.buildings))
    && forall i :: 0 <= i < |v.buildings| ==> BuildingExact(c, v.buildings[i])
  }

  function ProjectHeads(vs: seq<ProjectView>): seq<Entry<Project>> {
    seq(|vs|, i requires 0 <= i < |vs| => vs[i].project)
  }

  /** The projects naming builder `b`, each exact all the way down to its units. */
  predicate ProjectsExact(c: Catalog, b: Id, vs: seq<ProjectView>) {
    ListsChildren(c.projects, ProjectBuilder, b, ProjectHeads(vs))
    && forall i :: 0 <= i < |vs| ==> ProjectExact(c, vs[i])
  }

  predicate BuilderExact(c: Catalog, v: BuilderView) {
    v.builder.id in c.builders && v.builder.doc == c.builders[v.builder.id]
    && ProjectsExact(c, v.builder.id, v.projects)
  }

  // ---- The nested views

  function FloorViewOf(c: Catalog, f: Id): (v: FloorView)
    requires c.Bounded() && f in c.floors
    ensures v.floor == Entry(f, c.floors[f]) && FloorExact(c, v)
  {
    FloorView(Entry(f, c.floors[f]), Children(c.units, UnitFloor, f, c.bound))
  }

  function FloorViews(c: Catalog, fs: seq<Entry<Floor>>): (vs: seq<FloorView>)
    requires c.Bounded()
    requires forall i :: 0 <= i < |fs| ==> fs[i].id in c.floors && fs[i].doc == c.floors[fs[i].id]
    ensures FloorHeads(vs) == fs
    ensures forall i :: 0 <= i < |vs| ==> FloorExact(c, vs[i])
  {
    var vs := seq(|fs|, i requires 0 <= i < |fs| => FloorViewOf(c, fs[i].id));
    assert FloorHeads(vs) == fs;
    vs
  }

  function BuildingViewOf(c: Catalog, b: Id): (v: BuildingView)
    requires c.Bounded() && b in c.buildings
    ensures v.building == Entry(b, c.buildings[b]) && BuildingExact(c, v)
  {
    BuildingView(Entry(b, c.buildings[b]), FloorViews(c, Children(c.floors, FloorBuilding, b, c.bound)))
  }

  function BuildingViews(c: Catalog, bs: seq<Entry<Building>>): (vs: seq<BuildingView>)
    requires c.Bounded()
    requires forall i :: 0 <= i < |bs| ==> bs[i].id in c.buildings && bs[i].doc == c.buildings[bs[i].id]
    ensures BuildingHeads(vs) == bs
    ensures forall i :: 0 <= i < |vs| ==> BuildingExact(c, vs[i])
  {
    var vs := seq(|bs|, i requires 0 <= i < |bs| => BuildingViewOf(c, bs[i].id));
    assert BuildingHeads(vs) == bs;
    vs
  }

  function ProjectViewOf(c: Catalog, p: Id): (v: ProjectView)
    requires c.Bounded() && p in c.projects
    ensures v.project == Entry(p, c.projects[p]) && ProjectExact(c, v)
  {
    ProjectView(Entry(p, c.projects[p]), BuildingViews(c, Children(c.buildings, BuildingProject, p, c.bound)))
  }

  /** The projects of builder `b`, nested down to their units. */
  function ProjectsOf(c: Catalog, b: Id): (vs: seq<ProjectView>)
    requires c.Bounded()
    ensures ProjectsExact(c, b, vs)
  {
    var ps := Children(c.projects, ProjectBuilder, b, c.bound);
    var vs := seq(|ps|, i requires 0 <= i < |ps| => ProjectViewOf(c, ps[i].id));
    assert ProjectHeads(vs) == ps;
    vs
  }

  function BuilderViewOf(c: Catalog, b: Id): (v: BuilderView)
    requires c.Bounded() && b in c.builders
    ensures v.builder == Entry(b, c.builders[b]) && BuilderExact(c, v)
  {
    BuilderView(Entry(b, c.builders[b]), ProjectsOf(c, b))
  }

  // ---- routes/Property.router.js: builder-profile/:id/full-details

  /** The full details of a builder id: not checked against the profiles. */
  function FullDetailsOf(c: Catalog, b: Id): (r: FullDetails)
    requires c.Bounded()
    ensures r.builderProfileId == b && ProjectsExact(c, b, r.projects)
  {
    FullDetails(b, ProjectsOf(c, b))
  }

  // ---- routes/PropertyGet.router.js

  /** GET /: every builder profile with its nested projects. */
  function AllBuilders(c: Catalog): (vs: seq<BuilderView>)
    requires c.Bounded()
    ensures forall i :: 0 <= i < |vs| ==> BuilderExact(c, vs[i])
    ensures forall b :: b in c.builders ==> exists i :: 0 <= i < |vs| && vs[i].builder.id == b
    ensures forall i, j :: 0 <= i < j < |vs| ==> vs[i].builder.id < vs[j].builder.id
  {
    var ids := Find(c.builders, (k: Id, d: BuilderProfile) => true, c.bound);
    var vs := seq(|ids|, i requires 0 <= i < |ids| => BuilderViewOf(c, ids[i]));
    forall b | b in c.builders
      ensures exists i :: 0 <= i < |vs| && vs[i].builder.id == b
    {
      assert b in ids;
      var i :| 0 <= i < |ids| && ids[i] == b;
      assert vs[i].builder.id == b;
    }
    vs
  }

  /** GET /builder/:builderId. */
  function BuilderDetails(c: Catalog, b: Id): (r: Result<BuilderView>)
    requires c.Bounded()
    ensures r.Err? <==> b !in c.builders
    ensures r.Err? ==> r.status == NotFound
    ensures r.Ok? ==> r.value.builder.id == b && BuilderExact(c, r.value)
  {
    if b !in c.builders then Err(NotFound) else Ok(BuilderViewOf(c, b))
  }

  /** GET /project/:projectId. */
  function ProjectDetails(c: Catalog, p: Id): (r: Result<ProjectView>)
    requires c.Bounded()
    ensures r.Err? <==> p !in c.projects
    ensures r.Err? ==> r.status == NotFound
    ensures r.Ok? ==> r.value.project.id == p && ProjectExact(c, r.value)
  {
    if p !in c.projects then Err(NotFound) else Ok(ProjectViewOf(c, p))
  }

  /** GET /building/:buildingId. */
  function BuildingDetails(c: Catalog, b: Id): (r: Result<BuildingView>)
    requires c.Bounded()
    ensures r.Err? <==> b !in c.buildings
    ensures r.Err? ==> r.status == NotFound
    ensures r.Ok? ==> r.value.building.id == b && BuildingExact(c, r.value)
  {
    if b !in c.buildings then Err(NotFound) else Ok(BuildingViewOf(c, b))
  }

  /** GET /floor/:floorId. */
  function FloorDetails(c: Catalog, f: Id): (r: Result<FloorView>)
    requires c.Bounded()
    ensures r.Err? <==> f !in c.floors
    ensures r.Err? ==> r.status == NotFound
    ensures r.Ok? ==> r.value.floor.id == f && FloorExact(c, r.value)
  {
    if f !in c.floors then Err(NotFound) else Ok(FloorViewOf(c, f))
  }

  /** Where a profile exists, full details and the builder view list the same projects. */
  lemma FullDetailsMatchBuilderView(c: Catalog, b: Id)
    requires c.Bounded() && b in c.builders
    ensures FullDetailsOf(c, b).projects == BuilderDetails(c, b).value.projects
  {
  }

  /**
   * Full details answer for any id. Once a profile is gone, the projects
   * that still name it are still listed, because deletes do not cascade.
   */
  lemma FullDetailsOfDeletedProfile(c: Catalog, b: Id, p: Id)
    requires c.Bounded() && b !in c.builders
    requires p in c.projects && c.projects[p].builder == Some(b)
    ensures BuilderDetails(c, b) == Err(NotFound)
    ensures exists i :: 0 <= i < |FullDetailsOf(c, b).projects| && FullDetailsOf(c, b).projects[i].project.id == p
  {
    var vs := FullDetailsOf(c, b).projects;
    assert ProjectHeads(vs)[..] == ProjectHeads(vs);
    var i :| 0 <= i < |ProjectHeads(vs)| && ProjectHeads(vs)[i].id == p;
    assert vs[i].project.id == p;
  }

  // ---- GET /landing-filter

  /** The query parameters; an empty string or a missing bound means "not given". */
  datatype LandingQuery = LandingQuery(
    city: string,
    area: string,
    propertyType: string,
    minPrice: Option<int>,
    maxPrice: Option<int>)

  /** The `$match` stage: price bounds apply only when both are given. */
  predicate LandingMatch(q: LandingQuery, p: Project) {
    (q.city == "" || p.city == q.city)
    && (q.area == "" || p.area == q.area)
    && (q.propertyType == "" || p.propertyType == q.propertyType)
    && (q.minPrice.Some? && q.maxPrice.Some? ==>
          p.price.Some? && q.minPrice.value <= p.price.value <= q.maxPrice.value)
  }

  /** One group of the answer: a builder profile and its matching projects. */
  datatype LandingGroup = LandingGroup(builder: Entry<BuilderProfile>, projects: seq<Entry<Project>>)

  function MatchesOf(c: Catalog, q: LandingQuery, b: Id): (es: seq<Entry<Project>>)
    requires c.Bounded()
    ensures forall i :: 0 <= i < |es| ==>
      es[i].id in c.projects && es[i].doc == c.projects[es[i].id]
      && LandingMatch(q, es[i].doc) && es[i].doc.builder == Some(b)
    ensures forall k :: k in c.projects && LandingMatch(q, c.projects[k]) && c.projects[k].builder == Some(b) ==>
      exists i :: 0 <= i < |es| && es[i].id == k
  {
    var ids := Find(c.projects, (k: Id, p: Project) => LandingMatch(q, p) && p.builder == Some(b), c.bound);
    var es := Entries(c.projects, ids);
    assert forall k :: k in c.projects && LandingMatch(q, c.projects[k]) && c.projects[k].builder == Some(b) ==> k in ids;
    es
  }

  /**
   * The aggregation: matching projects grouped by builder; a group whose
   * builder has no profile is dropped by the lookup and unwind stages.
   * `$group` promises no order and the pipeline has no `$sort`, so the
   * builder-id order of the groups is one admissible order the model fixes.
   */
  function LandingFilter(c: Catalog, q: LandingQuery): (r: seq<LandingGroup>)
    requires c.Bounded()
    ensures forall i :: 0 <= i < |r| ==>
      r[i].builder.id in c.builders && r[i].builder.doc == c.builders[r[i].builder.id] && r[i].projects != []
    ensures forall i, j :: 0 <= i < |r| && 0 <= j < |r[i].projects| ==>
      r[i].projects[j].id in c.projects && r[i].projects[j].doc == c.projects[r[i].projects[j].id]
      && LandingMatch(q, r[i].projects[j].doc) && r[i].projects[j].doc.builder == Some(r[i].builder.id)
    ensures forall k ::
      (k in c.projects && LandingMatch(q, c.projects[k])
       && c.projects[k].builder.Some? && c.projects[k].builder.value in c.builders) ==>
      exists i, j :: 0 <= i < |r| && 0 <= j < |r[i].projects| && r[i].projects[j].id == k
    ensures forall i, j :: 0 <= i < j < |r| ==> r[i].builder.id < r[j].builder.id
  {
    var bs := Find(c.builders, (b: Id, d: BuilderProfile) => MatchesOf(c, q, b) != [], c.bound);
    var r := seq(|bs|, i requires 0 <= i < |bs| => LandingGroup(Entry(bs[i], c.builders[bs[i]]), MatchesOf(c, q, bs[i])));
    forall k | k in c.projects && LandingMatch(q, c.projects[k])
        && c.projects[k].builder.Some? && c.projects[k].builder.value in c.builders
      ensures exists i, j :: 0 <= i < |r| && 0 <= j < |r[i].projects| && r[i].projects[j].id == k
    {
      var b := c.projects[k].builder.value;
      var es := MatchesOf(c, q, b);
      var j :| 0 <= j < |es| && es[j].id == k;
      assert b in bs;
      var i :| 0 <= i < |bs| && bs[i] == b;
      assert r[i].projects[j].id == k;
    }
    r
  }

  // ---- routes/Transaction.router.js: from a unit up to its builder, and back down

  /**
   * The walk unit > floor > building > project > builder id. Each missing
   * document or reference is "not found"; the builder profile itself is
   * not looked up.
   */
  function ResolveOwner(c: Catalog, u: Id): (r: Result<Id>)
    ensures r.Err? ==> r.status == NotFound
    ensures r.Ok? ==> u in c.units
  {
    if u !in c.units then Err(NotFound)
    else
      var f := c.units[u].floor;
      if f.None? || f.value !in c.floors then Err(NotFound)
      else
        var bd := c.floors[f.value].building;
        if bd.None? || bd.value !in c.buildings then Err(NotFound)
        else
          var p := c.buildings[bd.value].project;
          if p.None? || p.value !in c.projects then Err(NotFound)
          else
            var b := c.projects[p.value].builder;
            if b.None? then Err(NotFound) else Ok(b.value)
  }

  /** The ids step by step down from a builder: projects, buildings, floors, units. */
  function ProjectIdsOf(c: Catalog, b: Id): set<Id> {
    set p | p in c.projects && c.projects[p].builder == Some(b)
  }

  function BuildingIdsIn(c: Catalog, ps: set<Id>): set<Id> {
    set k | k in c.buildings && c.buildings[k].project.Some? && c.buildings[k].project.value in ps
  }

  function FloorIdsIn(c: Catalog, bs: set<Id>): set<Id> {
    set k | k in c.floors && c.floors[k].building.Some? && c.floors[k].building.value in bs
  }

  function UnitIdsIn(c: Catalog, fs: set<Id>): set<Id> {
    set k | k in c.units && c.units[k].floor.Some? && c.units[k].floor.value in fs
  }

  /** The unit ids the builder-transactions route collects with its four `$in` queries. */
  function UnitsOfBuilder(c: Catalog, b: Id): set<Id> {
    UnitIdsIn(c, FloorIdsIn(c, BuildingIdsIn(c, ProjectIdsOf(c, b))))
  }

  /** Walking up from a unit reaches `b` exactly when walking down from `b` reaches the unit. */
  lemma {:induction false} OwnerIffReachable(c: Catalog, u: Id, b: Id)
    ensures ResolveOwner(c, u) == Ok(b) <==> u in UnitsOfBuilder(c, b)
  {
    if u in UnitsOfBuilder(c, b) {
      var f := c.units[u].floor.value;
      assert f in FloorIdsIn(c, BuildingIdsIn(c, ProjectIdsOf(c, b)));
      var bd := c.floors[f].building.value;
      assert bd in BuildingIdsIn(c, ProjectIdsOf(c, b));
      var p := c.buildings[bd].project.value;
      assert p in ProjectIdsOf(c, b);
    }
    if ResolveOwner(c, u) == Ok(b) {
      var f := c.units[u].floor.value;
      var bd := c.floors[f].building.value;
      var p := c.buildings[bd].project.value;
      assert p in ProjectIdsOf(c, b);
      assert bd in BuildingIdsIn(c, ProjectIdsOf(c, b));
      assert f in FloorIdsIn(c, BuildingIdsIn(c, ProjectIdsOf(c, b)));
    }
  }
}
