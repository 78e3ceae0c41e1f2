/** Creation of the Looping dashboard and its alerts: objects are found by identity, reused when they match the
    manifest exactly, and created only when nothing of that identity exists. */
module Looping {
  import opened Wrappers
  import opened Json
  import opened Seqs

  /** A tile: its id, its name, and every other field. */
  datatype Tile = Tile(id: string, name: string, rest: Object)

  datatype DashboardSpec = DashboardSpec(name: string, tags: seq<string>, filters: Json, tiles: seq<Tile>)

  /** An alert: its identity, and every other field. */
  datatype AlertSpec = AlertSpec(name: string, dashboardId: string, tileId: string, policy: Object)

  /** An alert of the manifest; its tile id is local to the manifest. */
  datatype AlertPlan = AlertPlan(name: string, tileId: string, policy: Object)

  datatype Manifest = Manifest(dashboard: DashboardSpec, alerts: seq<AlertPlan>)

  /** Stored objects as they are seen: their identity, and whether their canonical form is that of a specification. */
  datatype Dashboard = StoredDashboard(id: string, spec: DashboardSpec, clean: bool)
  datatype Alert = StoredAlert(id: string, spec: AlertSpec, clean: bool)

  datatype Failure = Malformed | Ambiguous | Conflict | Interrupted

  // ----- Tile identity -----

  predicate DistinctTiles(tiles: seq<Tile>) {
    && (forall i, j :: 0 <= i < j < |tiles| ==> tiles[i].id != tiles[j].id)
    && (forall i, j :: 0 <= i < j < |tiles| ==> tiles[i].name != tiles[j].name)
  }

  predicate NamedTiles(tiles: seq<Tile>) {
    forall i :: 0 <= i < |tiles| ==> tiles[i].id != ""
  }

  predicate DistinctNames(tiles: seq<Tile>) {
    forall i, j :: 0 <= i < j < |tiles| ==> tiles[i].name != tiles[j].name
  }

  function TileNamed(tiles: seq<Tile>, name: string): (r: Option<Tile>)
    ensures r.Some? ==> r.value in tiles && r.value.name == name
  {
    if tiles == [] then None else if tiles[0].name == name then Some(tiles[0]) else TileNamed(tiles[1..], name)
  }

  /** The stored dashboard is the manifest's, up to the tile ids the server assigned. */
  predicate Matches(expected: DashboardSpec, stored: Dashboard) {
    && stored.clean
    && stored.spec.name == expected.name && stored.spec.tags == expected.tags && stored.spec.filters == expected.filters
    && |stored.spec.tiles| == |expected.tiles|
    && NamedTiles(stored.spec.tiles) && DistinctTiles(stored.spec.tiles) && DistinctNames(expected.tiles)
    && forall i :: 0 <= i < |expected.tiles| ==>
      var found := TileNamed(stored.spec.tiles, expected.tiles[i].name);
      found.Some? && found.value.rest == expected.tiles[i].rest
  }

  /** The server id of each manifest tile, matched by name. */
  function MapTiles(wanted: seq<Tile>, tiles: seq<Tile>): map<string, string>
    requires forall i :: 0 <= i < |wanted| ==> TileNamed(tiles, wanted[i].name).Some?
  {
    if wanted == [] then map[]
    else
      var last := wanted[|wanted| - 1];
      MapTiles(wanted[..|wanted| - 1], tiles)[last.id := TileNamed(tiles, last.name).value.id]
  }

  function TileMap(expected: DashboardSpec, stored: Dashboard): Result<map<string, string>, Failure> {
    if Matches(expected, stored) then Ok(MapTiles(expected.tiles, stored.spec.tiles)) else Err(Conflict)
  }

  predicate DistinctIds(tiles: seq<Tile>) {
    forall i, j :: 0 <= i < j < |tiles| ==> tiles[i].id != tiles[j].id
  }

  lemma {:induction false} MappedTile(wanted: seq<Tile>, tiles: seq<Tile>, i: nat)
    requires forall j :: 0 <= j < |wanted| ==> TileNamed(tiles, wanted[j].name).Some?
    requires DistinctIds(wanted) && i < |wanted|
    ensures wanted[i].id in MapTiles(wanted, tiles)
    ensures MapTiles(wanted, tiles)[wanted[i].id] == TileNamed(tiles, wanted[i].name).value.id
  {
    if i < |wanted| - 1 {
      MappedTile(wanted[..|wanted| - 1], tiles, i);
    }
  }

  lemma {:induction false} MappedKeys(wanted: seq<Tile>, tiles: seq<Tile>)
    requires forall j :: 0 <= j < |wanted| ==> TileNamed(tiles, wanted[j].name).Some?
    ensures MapTiles(wanted, tiles).Keys == (set t | t in wanted :: t.id)
  {
    if wanted != [] {
      var init, last := wanted[..|wanted| - 1], wanted[|wanted| - 1];
      MappedKeys(init, tiles);
      assert wanted == init + [last];
    }
  }

  lemma SameTile(tiles: seq<Tile>, a: Tile, b: Tile)
    requires DistinctTiles(tiles) && a in tiles && b in tiles && a.id == b.id
    ensures a == b
  {
    var i :| 0 <= i < |tiles| && tiles[i] == a;
    var j :| 0 <= j < |tiles| && tiles[j] == b;
    assert i == j;
  }

  lemma MappedInjective(wanted: seq<Tile>, tiles: seq<Tile>, i: nat, j: nat)
    requires forall k :: 0 <= k < |wanted| ==> TileNamed(tiles, wanted[k].name).Some?
    requires DistinctIds(wanted) && DistinctNames(wanted) && DistinctTiles(tiles) && i < |wanted| && j < |wanted|
    requires wanted[i].id in MapTiles(wanted, tiles) && wanted[j].id in MapTiles(wanted, tiles)
    requires MapTiles(wanted, tiles)[wanted[i].id] == MapTiles(wanted, tiles)[wanted[j].id]
    ensures i == j
  {
    hide MapTiles;
    MappedTile(wanted, tiles, i);
    MappedTile(wanted, tiles, j);
    SameTile(tiles, TileNamed(tiles, wanted[i].name).value, TileNamed(tiles, wanted[j].name).value);
    assert wanted[i].name == wanted[j].name;
  }

  /** A stored tile with the name and contents of `wanted`, under the id that the map gives. */
  ghost predicate Realises(m: map<string, string>, wanted: Tile, tiles: seq<Tile>) {
    wanted.id in m && exists t :: t in tiles && t.id == m[wanted.id] && t.name == wanted.name && t.rest == wanted.rest
  }

  /** The tile map is total on the manifest and injective into the server's tiles, and keeps names and contents. */
  lemma TileMapTheorem(expected: DashboardSpec, stored: Dashboard)
    requires TileMap(expected, stored).Ok? && DistinctIds(expected.tiles)
    ensures var m := TileMap(expected, stored).value;
      && m.Keys == (set t | t in expected.tiles :: t.id)
      && (forall t :: t in expected.tiles ==> Realises(m, t, stored.spec.tiles))
      && (forall a, b :: a in m && b in m && m[a] == m[b] ==> a == b)
  {
    hide MapTiles;
    var wanted, tiles := expected.tiles, stored.spec.tiles;
    var m := MapTiles(wanted, tiles);
    MappedKeys(wanted, tiles);
    forall t | t in wanted ensures Realises(m, t, tiles) {
      var i :| 0 <= i < |wanted| && wanted[i] == t;
      MappedTile(wanted, tiles, i);
      assert TileNamed(tiles, wanted[i].name).value in tiles;
    }
    forall a, b | a in m && b in m && m[a] == m[b] ensures a == b {
      var i :| 0 <= i < |wanted| && wanted[i].id == a;
      var j :| 0 <= j < |wanted| && wanted[j].id == b;
      MappedInjective(wanted, tiles, i, j);
    }
  }

  // ----- Finding objects by identity -----

  predicate SharesTag(a: seq<string>, b: seq<string>) {
    exists i :: 0 <= i < |a| && a[i] in b
  }

  function DashboardTest(expected: DashboardSpec): Dashboard -> bool {
    (d: Dashboard) => d.spec.name == expected.name || SharesTag(d.spec.tags, expected.tags)
  }

  function AlertTest(expected: AlertSpec): Alert -> bool {
    (a: Alert) => a.spec.name == expected.name || a.spec.tileId == expected.tileId
  }

  function FindDashboard(dashboards: seq<Dashboard>, expected: DashboardSpec): Result<Option<Dashboard>, Failure> {
    var candidates := Filter(dashboards, DashboardTest(expected));
    if |candidates| > 1 then Err(Ambiguous)
    else if candidates == [] then Ok(None)
    else if Matches(expected, candidates[0]) then Ok(Some(candidates[0]))
    else Err(Conflict)
  }

  function FindAlert(alerts: seq<Alert>, expected: AlertSpec): Result<Option<Alert>, Failure> {
    var candidates := Filter(alerts, AlertTest(expected));
    if |candidates| > 1 then Err(Ambiguous)
    else if candidates == [] then Ok(None)
    else if candidates[0].clean && candidates[0].spec == expected then Ok(Some(candidates[0]))
    else Err(Conflict)
  }

  /** The alert the manifest asks for, on the server's dashboard and tile. */
  function Resolved(alert: AlertPlan, dashboardId: string, tiles: map<string, string>): AlertSpec
    requires alert.tileId in tiles
  {
    AlertSpec(alert.name, dashboardId, tiles[alert.tileId], alert.policy)
  }

  // ----- Manifests -----

  const POLICY_FIELDS := {"source", "threshold", "thresholdType", "interval", "channel", "message"}

  /** What `build_plan` checks of a manifest, as far as identity goes. */
  predicate ValidManifest(plan: Manifest) {
    && DistinctIds(plan.dashboard.tiles)
    && |plan.dashboard.tags| > 0
    && (forall i :: 0 <= i < |plan.dashboard.tiles| ==> {"id", "name"} !! plan.dashboard.tiles[i].rest.Keys)
    && (forall i :: 0 <= i < |plan.alerts| ==> plan.alerts[i].policy.Keys == POLICY_FIELDS)
    && (forall i, j :: 0 <= i < j < |plan.alerts| ==> plan.alerts[i].name != plan.alerts[j].name)
    && (forall i :: 0 <= i < |plan.alerts| ==> exists t :: t in plan.dashboard.tiles && t.id == plan.alerts[i].tileId)
  }

  predicate OnDistinctTiles(plan: Manifest) {
    forall i, j :: 0 <= i < j < |plan.alerts| ==> plan.alerts[i].tileId != plan.alerts[j].tileId
  }
}
