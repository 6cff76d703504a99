/**
 * The location directory (routes/Location.router.js). When the router is
 * loaded it walks the states of India, their districts and each district's
 * places, as the `indian_places` package lists them, and numbers each
 * kind consecutively from 1 across the whole walk; the routes then answer
 * lookups over those three tables. The package's data is a parameter here.
 */
module Location {
  import opened Wrappers

  // ---- The package's data, as the walk sees it

  datatype DistrictIn = DistrictIn(name: string, places: seq<string>)
  datatype StateIn = StateIn(name: string, districts: seq<DistrictIn>)

  // ---- The tables: keyed by id, each row with its name and its parent's id

  datatype StateRow = StateRow(name: string)
  datatype DistrictRow = DistrictRow(name: string, stateId: int)
  datatype PlaceRow = PlaceRow(name: string, districtId: int)

  datatype Directory = Directory(
    states: map<int, StateRow>,
    districts: map<int, DistrictRow>,
    places: map<int, PlaceRow>)

  /** The rows of `s` under the ids 1, 2, ... in order. */
  function Numbered<T>(s: seq<T>): map<int, T> {
    map id | 1 <= id <= |s| :: At(s, id)
  }

  function At<T>(s: seq<T>, id: int): T
    requires 1 <= id <= |s|
  {
    s[id - 1]
  }

  /** The ids are exactly 1 to the number of rows, each naming its row. */
  lemma NumberedAt<T>(s: seq<T>)
    ensures forall id :: id in Numbered(s) <==> 1 <= id <= |s|
    ensures forall id :: 1 <= id <= |s| ==> Numbered(s)[id] == s[id - 1]
  {
  }

  /** Numbering one more row gives it the next id. */
  lemma NumberedSnoc<T>(s: seq<T>, x: T)
    ensures Numbered(s + [x]) == Numbered(s)[|s| + 1 := x]
  {
    NumberedAt(s + [x]);
    NumberedAt(s);
    var a := Numbered(s + [x]);
    var b := Numbered(s)[|s| + 1 := x];
    assert forall id :: id in a <==> id in b;
    forall id | id in a ensures a[id] == b[id] {
      if id <= |s| {
        assert (s + [x])[id - 1] == s[id - 1];
      }
    }
  }

  // ---- The walk, as a specification: the rows in the order the walk makes them

  function StateRows(states: seq<StateIn>): (r: seq<StateRow>)
    ensures |r| == |states| && forall i :: 0 <= i < |states| ==> r[i] == StateRow(states[i].name)
  {
    seq(|states|, i requires 0 <= i < |states| => StateRow(states[i].name))
  }

  /** The districts of one state, under that state's id. */
  function DistrictRows(ds: seq<DistrictIn>, sid: int): (r: seq<DistrictRow>)
    ensures |r| == |ds| && forall j :: 0 <= j < |ds| ==> r[j] == DistrictRow(ds[j].name, sid)
  {
    seq(|ds|, j requires 0 <= j < |ds| => DistrictRow(ds[j].name, sid))
  }

  /** The districts of all the states, in walk order. */
  function Districts(states: seq<StateIn>): seq<DistrictRow> {
    if states == [] then []
    else Districts(states[..|states| - 1]) + DistrictRows(states[|states| - 1].districts, |states|)
  }

  /** The places of one district, under that district's id. */
  function PlaceRows(names: seq<string>, did: int): (r: seq<PlaceRow>)
    ensures |r| == |names| && forall k :: 0 <= k < |names| ==> r[k] == PlaceRow(names[k], did)
  {
    seq(|names|, k requires 0 <= k < |names| => PlaceRow(names[k], did))
  }

  /** The places of a state's districts, whose ids start at `first`. */
  function DistrictPlaces(ds: seq<DistrictIn>, first: int): seq<PlaceRow> {
    if ds == [] then []
    else DistrictPlaces(ds[..|ds| - 1], first) + PlaceRows(ds[|ds| - 1].places, first + |ds| - 1)
  }

  /** The places of all the states, in walk order. */
  function Places(states: seq<StateIn>): seq<PlaceRow> {
    if states == [] then []
    else
      var init := states[..|states| - 1];
      Places(init) + DistrictPlaces(states[|states| - 1].districts, |Districts(init)| + 1)
  }

  /** The directory the walk builds over the package's data. */
  function Index(states: seq<StateIn>): Directory {
    Directory(Numbered(StateRows(states)), Numbered(Districts(states)), Numbered(Places(states)))
  }

  // ---- The walk as the router runs it

  /**
   * The three nested `forEach` loops: each state, district and place takes
   * the next value of its own counter. The two inner loops are the methods
   * AddDistricts and AddPlaces.
   */
  method Build(states: seq<StateIn>) returns (dir: Directory)
    ensures dir == Index(states)
  {
    var stateMap: map<int, StateRow> := map[];
    var districtMap: map<int, DistrictRow> := map[];
    var placeMap: map<int, PlaceRow> := map[];
    var stateId := 1;
    var districtId := 1;
    var placeId := 1;
    var i := 0;
    while i < |states|
      invariant 0 <= i <= |states|
      invariant stateId == i + 1 && stateMap == Numbered(StateRows(states[..i]))
      invariant districtId == |Districts(states[..i])| + 1 && districtMap == Numbered(Districts(states[..i]))
      invariant placeId == |Places(states[..i])| + 1 && placeMap == Numbered(Places(states[..i]))
    {
      var sid := stateId;
      stateId := stateId + 1;
      StateStep(states, i);
      NumberedSnoc(StateRows(states[..i]), StateRow(states[i].name));
      stateMap := stateMap[sid := StateRow(states[i].name)];
      WalkStep(states, i, districtId);
      districtMap, districtId, placeMap, placeId :=
        AddDistricts(districtMap, districtId, Districts(states[..i]), placeMap, placeId, Places(states[..i]),
          states[i].districts, sid);
      i := i + 1;
    }
    assert states[..i] == states;
    dir := Directory(stateMap, districtMap, placeMap);
  }

  /** The districts loop of one state: each district, then its places. */
  method AddDistricts(districtMap: map<int, DistrictRow>, districtId: int, ghost before: seq<DistrictRow>,
                      placeMap: map<int, PlaceRow>, placeId: int, ghost placesBefore: seq<PlaceRow>,
                      ds: seq<DistrictIn>, sid: int)
    returns (districtMap': map<int, DistrictRow>, districtId': int, placeMap': map<int, PlaceRow>, placeId': int)
    requires districtMap == Numbered(before) && districtId == |before| + 1
    requires placeMap == Numbered(placesBefore) && placeId == |placesBefore| + 1
    ensures districtMap' == Numbered(before + DistrictRows(ds, sid)) && districtId' == districtId + |ds|
    ensures placeMap' == Numbered(placesBefore + DistrictPlaces(ds, districtId))
    ensures placeId' == |placesBefore + DistrictPlaces(ds, districtId)| + 1
  {
    districtMap', districtId', placeMap', placeId' := districtMap, districtId, placeMap, placeId;
    ghost var rows := before;
    ghost var places := placesBefore;
    var j := 0;
    while j < |ds|
      invariant 0 <= j <= |ds|
      invariant rows == before + DistrictRows(ds[..j], sid) && places == placesBefore + DistrictPlaces(ds[..j], districtId)
      invariant districtId' == districtId + j && districtMap' == Numbered(rows)
      invariant placeId' == |places| + 1 && placeMap' == Numbered(places)
    {
      var did := districtId';
      districtId' := districtId' + 1;
      NumberedSnoc(rows, DistrictRow(ds[j].name, sid));
      districtMap' := districtMap'[did := DistrictRow(ds[j].name, sid)];
      placeMap', placeId' := AddPlaces(placeMap', placeId', places, ds[j].places, did);
      DistrictStep(before, placesBefore, ds, j, sid, districtId);
      rows := rows + [DistrictRow(ds[j].name, sid)];
      places := places + PlaceRows(ds[j].places, did);
      j := j + 1;
    }
    assert ds[..j] == ds;
  }

  /** The places loop of one district. */
  method AddPlaces(placeMap: map<int, PlaceRow>, placeId: int, ghost before: seq<PlaceRow>, ps: seq<string>, did: int)
    returns (placeMap': map<int, PlaceRow>, placeId': int)
    requires placeMap == Numbered(before) && placeId == |before| + 1
    ensures placeMap' == Numbered(before + PlaceRows(ps, did)) && placeId' == placeId + |ps|
  {
    placeMap', placeId' := placeMap, placeId;
    var k := 0;
    while k < |ps|
      invariant 0 <= k <= |ps|
      invariant placeId' == placeId + k
      invariant placeMap' == Numbered(before + PlaceRows(ps[..k], did))
    {
      PlaceStep(before, ps, k, did);
      placeMap' := placeMap'[placeId' := PlaceRow(ps[k], did)];
      placeId' := placeId' + 1;
      k := k + 1;
    }
    assert ps[..k] == ps;
  }

  lemma StateStep(states: seq<StateIn>, i: nat)
    requires i < |states|
    ensures StateRows(states[..i + 1]) == StateRows(states[..i]) + [StateRow(states[i].name)]
  {
  }

  lemma DistrictStep(before: seq<DistrictRow>, placesBefore: seq<PlaceRow>, ds: seq<DistrictIn>, j: nat, sid: int, first: int)
    requires j < |ds|
    ensures before + DistrictRows(ds[..j + 1], sid) == (before + DistrictRows(ds[..j], sid)) + [DistrictRow(ds[j].name, sid)]
    ensures |DistrictRows(ds[..j], sid)| == j
    ensures placesBefore + DistrictPlaces(ds[..j + 1], first)
         == (placesBefore + DistrictPlaces(ds[..j], first)) + PlaceRows(ds[j].places, first + j)
  {
    assert DistrictRows(ds[..j + 1], sid) == DistrictRows(ds[..j], sid) + [DistrictRow(ds[j].name, sid)];
    assert ds[..j + 1][..j] == ds[..j];
  }

  lemma PlaceStep(before: seq<PlaceRow>, ps: seq<string>, k: nat, did: int)
    requires k < |ps|
    ensures before + PlaceRows(ps[..k + 1], did) == (before + PlaceRows(ps[..k], did)) + [PlaceRow(ps[k], did)]
    ensures Numbered(before + PlaceRows(ps[..k + 1], did))
         == Numbered(before + PlaceRows(ps[..k], did))[|before| + k + 1 := PlaceRow(ps[k], did)]
  {
    assert PlaceRows(ps[..k + 1], did) == PlaceRows(ps[..k], did) + [PlaceRow(ps[k], did)];
    NumberedSnoc(before + PlaceRows(ps[..k], did), PlaceRow(ps[k], did));
  }

  lemma WalkStep(states: seq<StateIn>, i: nat, firstD: int)
    requires i < |states| && firstD == |Districts(states[..i])| + 1
    ensures Districts(states[..i + 1]) == Districts(states[..i]) + DistrictRows(states[i].districts, i + 1)
    ensures Places(states[..i + 1]) == Places(states[..i]) + DistrictPlaces(states[i].districts, firstD)
  {
    assert states[..i + 1][..i] == states[..i];
  }

  // ---- What the walk guarantees

  /** All the districts of the package, state after state. */
  function DistrictIns(states: seq<StateIn>): seq<DistrictIn> {
    if states == [] then []
    else DistrictIns(states[..|states| - 1]) + states[|states| - 1].districts
  }

  /** A district row is the district of the package in the same position. */
  lemma {:induction false} DistrictsMatch(states: seq<StateIn>)
    ensures |Districts(states)| == |DistrictIns(states)|
    ensures forall t :: 0 <= t < |Districts(states)| ==> Districts(states)[t].name == DistrictIns(states)[t].name
  {
    if states != [] {
      DistrictsMatch(states[..|states| - 1]);
    }
  }

  /**
   * Each district row records the state it was walked under: the state's
   * id is within the states, the row falls inside that state's run of ids,
   * and the row carries that state's district in the same position.
   */
  lemma {:induction false} DistrictInBlock(states: seq<StateIn>, t: nat)
    requires t < |Districts(states)|
    ensures var sid := Districts(states)[t].stateId;
      1 <= sid <= |states|
      && |Districts(states[..sid - 1])| <= t < |Districts(states[..sid - 1])| + |states[sid - 1].districts|
      && Districts(states)[t].name == states[sid - 1].districts[t - |Districts(states[..sid - 1])|].name
  {
    var init := states[..|states| - 1];
    if t < |Districts(init)| {
      DistrictInBlock(init, t);
      var sid := Districts(init)[t].stateId;
      assert init[..sid - 1] == states[..sid - 1];
    } else {
      assert states[..|states| - 1] == init;
    }
  }

  /** The places of a run of districts split where the run splits. */
  lemma {:induction false} DistrictPlacesAppend(a: seq<DistrictIn>, b: seq<DistrictIn>, first: int)
    ensures DistrictPlaces(a + b, first) == DistrictPlaces(a, first) + DistrictPlaces(b, first + |a|)
    decreases |b|
  {
    if b == [] {
      assert a + b == a;
    } else {
      var binit := b[..|b| - 1];
      var last := b[|b| - 1];
      var ab := a + b;
      assert ab[..|ab| - 1] == a + binit && ab[|ab| - 1] == last;
      assert DistrictPlaces(ab, first) == DistrictPlaces(a + binit, first) + PlaceRows(last.places, first + |ab| - 1);
      DistrictPlacesAppend(a, binit, first);
      assert DistrictPlaces(b, first + |a|) == DistrictPlaces(binit, first + |a|) + PlaceRows(last.places, first + |a| + |b| - 1);
    }
  }

  /** The walk numbers places as one run over all the districts of the package. */
  lemma {:induction false} PlacesFlat(states: seq<StateIn>)
    ensures Places(states) == DistrictPlaces(DistrictIns(states), 1)
  {
    if states != [] {
      var init := states[..|states| - 1];
      PlacesFlat(init);
      DistrictsMatch(init);
      DistrictPlacesAppend(DistrictIns(init), states[|states| - 1].districts, 1);
    }
  }

  /**
   * Each place row of a run of districts records the district it was walked
   * under, and carries that district's place in the same position.
   */
  lemma {:induction false} PlaceInBlock(ds: seq<DistrictIn>, first: int, t: nat)
    requires t < |DistrictPlaces(ds, first)|
    ensures var j := DistrictPlaces(ds, first)[t].districtId - first;
      0 <= j < |ds|
      && |DistrictPlaces(ds[..j], first)| <= t < |DistrictPlaces(ds[..j], first)| + |ds[j].places|
      && DistrictPlaces(ds, first)[t].name == ds[j].places[t - |DistrictPlaces(ds[..j], first)|]
    decreases |ds|
  {
    var init := ds[..|ds| - 1];
    if t < |DistrictPlaces(init, first)| {
      PlaceInBlock(init, first, t);
      var j := DistrictPlaces(init, first)[t].districtId - first;
      assert init[..j] == ds[..j];
    } else {
      assert ds[..|ds| - 1] == init;
    }
  }

  /**
   * In the built directory every district names an existing state, and is
   * that state's district in the position its id gives.
   */
  lemma DistrictsKnowTheirState(states: seq<StateIn>, id: int)
    requires id in Index(states).districts
    ensures var d := Index(states).districts[id];
      d.stateId in Index(states).states
      && 1 <= d.stateId <= |states|
      && var ds := states[d.stateId - 1].districts;
         exists j :: 0 <= j < |ds| && id == |Districts(states[..d.stateId - 1])| + j + 1 && d.name == ds[j].name
  {
    NumberedAt(Districts(states));
    NumberedAt(StateRows(states));
    DistrictInBlock(states, id - 1);
    var sid := Districts(states)[id - 1].stateId;
    var j := id - 1 - |Districts(states[..sid - 1])|;
    assert states[sid - 1].districts[j].name == Index(states).districts[id].name;
  }

  /** In the built directory every place names an existing district and is one of its places. */
  lemma PlacesKnowTheirDistrict(states: seq<StateIn>, id: int)
    requires id in Index(states).places
    ensures var p := Index(states).places[id];
      p.districtId in Index(states).districts
      && 1 <= p.districtId <= |DistrictIns(states)|
      && Index(states).districts[p.districtId].name == DistrictIns(states)[p.districtId - 1].name
      && p.name in DistrictIns(states)[p.districtId - 1].places
  {
    var ds := DistrictIns(states);
    NumberedAt(Places(states));
    PlacesFlat(states);
    var t := id - 1;
    assert Index(states).places[id] == DistrictPlaces(ds, 1)[t];
    PlaceInBlock(ds, 1, t);
    var did := DistrictPlaces(ds, 1)[t].districtId;
    var j := did - 1;
    var k := t - |DistrictPlaces(ds[..j], 1)|;
    assert DistrictPlaces(ds, 1)[t].name == ds[j].places[k];
    DistrictsMatch(states);
    NumberedAt(Districts(states));
    assert Index(states).districts[did] == Districts(states)[j];
  }

  /** The walk gives every state, district and place of the package an id, from 1 up, none skipped. */
  lemma IdsAreConsecutive(states: seq<StateIn>)
    ensures forall id :: id in Index(states).states <==> 1 <= id <= |states|
    ensures forall id :: id in Index(states).districts <==> 1 <= id <= |DistrictIns(states)|
    ensures forall id :: id in Index(states).places <==> 1 <= id <= |Places(states)|
  {
    NumberedAt(StateRows(states));
    NumberedAt(Districts(states));
    NumberedAt(Places(states));
    DistrictsMatch(states);
  }

  // ---- The routes

  /** What every route answers with: an id and a name. */
  datatype Entry = Entry(id: int, name: string)

  /** Every key of `m` is an id from 1 to `n`. */
  predicate Within<T>(m: map<int, T>, n: nat) {
    forall id :: id in m ==> 1 <= id <= n
  }

  /** `Object.values(m)` filtered by `keep`: integer keys come in ascending order. */
  function Ascending<T>(m: map<int, T>, keep: T -> bool, n: nat): (r: seq<int>)
    ensures forall id :: id in r <==> 1 <= id <= n && id in m && keep(m[id])
    ensures forall i :: 0 <= i < |r| ==> 1 <= r[i] <= n
    ensures forall i, j :: 0 <= i < j < |r| ==> r[i] < r[j]
  {
    if n == 0 then []
    else
      var rest := Ascending(m, keep, n - 1);
      if n in m && keep(m[n]) then rest + [n] else rest
  }

  function StateName(s: StateRow): string { s.name }
  function DistrictName(d: DistrictRow): string { d.name }
  function PlaceName(p: PlaceRow): string { p.name }

  /** The rows under `ids`, reduced to their id and name. */
  function Entries<T>(m: map<int, T>, ids: seq<int>, name: T -> string): (r: seq<Entry>)
    requires forall i :: 0 <= i < |ids| ==> ids[i] in m
    ensures |r| == |ids| && forall i :: 0 <= i < |ids| ==> r[i] == Entry(ids[i], name(m[ids[i]]))
    ensures forall e :: e in r <==> e.id in ids && e.id in m && e.name == name(m[e.id])
  {
    var r := seq(|ids|, i requires 0 <= i < |ids| => Entry(ids[i], name(m[ids[i]])));
    assert forall e :: e in r ==> e.id in ids by {
      forall e | e in r ensures e.id in ids {
        var i :| 0 <= i < |r| && r[i] == e;
      }
    }
    assert forall id :: id in ids ==> Entry(id, name(m[id])) in r by {
      forall id | id in ids ensures Entry(id, name(m[id])) in r {
        var i :| 0 <= i < |ids| && ids[i] == id;
        assert r[i] == Entry(id, name(m[id]));
      }
    }
    r
  }

  /** GET /: every state, by ascending id. */
  function AllStates(dir: Directory, n: nat): (r: seq<Entry>)
    requires Within(dir.states, n)
    ensures forall e :: e in r <==> e.id in dir.states && e.name == dir.states[e.id].name
    ensures forall i, j :: 0 <= i < j < |r| ==> r[i].id < r[j].id
  {
    Entries(dir.states, Ascending(dir.states, (s: StateRow) => true, n), StateName)
  }

  /**
   * GET /:id: the districts of the state whose id the path segment parses
   * to (`None` when it parses to NaN, which no id equals); none is a 404.
   */
  function DistrictsOfState(dir: Directory, n: nat, sid: Option<int>): (r: Result<seq<Entry>>)
    requires Within(dir.districts, n)
    ensures r.Err? <==> forall id :: id in dir.districts ==> Some(dir.districts[id].stateId) != sid
    ensures r.Err? ==> r.status == NotFound
    ensures r.Ok? ==> forall e :: e in r.value <==>
      e.id in dir.districts && Some(dir.districts[e.id].stateId) == sid && e.name == dir.districts[e.id].name
    ensures r.Ok? ==> forall i, j :: 0 <= i < j < |r.value| ==> r.value[i].id < r.value[j].id
  {
    var ids := Ascending(dir.districts, (d: DistrictRow) => Some(d.stateId) == sid, n);
    if ids == [] then
      Err(NotFound)
    else
      assert ids[0] in ids;
      Ok(Entries(dir.districts, ids, DistrictName))
  }

  /** GET /places/:id: the places of the district the path segment parses to; none is a 404. */
  function PlacesOfDistrict(dir: Directory, n: nat, did: Option<int>): (r: Result<seq<Entry>>)
    requires Within(dir.places, n)
    ensures r.Err? <==> forall id :: id in dir.places ==> Some(dir.places[id].districtId) != did
    ensures r.Err? ==> r.status == NotFound
    ensures r.Ok? ==> forall e :: e in r.value <==>
      e.id in dir.places && Some(dir.places[e.id].districtId) == did && e.name == dir.places[e.id].name
    ensures r.Ok? ==> forall i, j :: 0 <= i < j < |r.value| ==> r.value[i].id < r.value[j].id
  {
    var ids := Ascending(dir.places, (p: PlaceRow) => Some(p.districtId) == did, n);
    if ids == [] then
      Err(NotFound)
    else
      assert ids[0] in ids;
      Ok(Entries(dir.places, ids, PlaceName))
  }

  /** GET /place/id/:id: one place by its id; an unknown id is a 404. */
  function PlaceById(dir: Directory, id: int): (r: Result<Entry>)
    ensures r.Err? <==> id !in dir.places
    ensures r.Err? ==> r.status == NotFound
    ensures r.Ok? ==> r.value == Entry(id, dir.places[id].name)
  {
    if id in dir.places then Ok(Entry(id, dir.places[id].name)) else Err(NotFound)
  }

  /** Every state of the package is listed under its own position plus one. */
  lemma EveryStateListed(states: seq<StateIn>, i: nat)
    requires i < |states|
    ensures Within(Index(states).states, |states|)
    ensures Entry(i + 1, states[i].name) in AllStates(Index(states), |states|)
  {
    NumberedAt(StateRows(states));
  }

  /**
   * The district of state `i` in position `j` has the id that follows
   * every district of the states before it, and records state `i + 1`.
   */
  lemma DistrictIdOf(states: seq<StateIn>, i: nat, j: nat)
    requires i < |states| && j < |states[i].districts|
    ensures var id := |Districts(states[..i])| + j + 1;
      id in Index(states).districts && Index(states).districts[id] == DistrictRow(states[i].districts[j].name, i + 1)
  {
    NumberedAt(Districts(states));
    DistrictAt(states, i, j);
  }

  /** The district of state `i` in position `j` sits at its walk position. */
  lemma {:induction false} DistrictAt(states: seq<StateIn>, i: nat, j: nat)
    requires i < |states| && j < |states[i].districts|
    ensures |Districts(states[..i])| + j < |Districts(states)|
    ensures Districts(states)[|Districts(states[..i])| + j] == DistrictRow(states[i].districts[j].name, i + 1)
  {
    var init := states[..|states| - 1];
    if i < |states| - 1 {
      DistrictAt(init, i, j);
      assert init[..i] == states[..i];
    } else {
      assert init == states[..i];
    }
  }
}
