/** Servers and runs of the Looping monitor in terms of what is seen of the stored objects. */
module LoopingPlan {
  import opened Wrappers
  import opened Json
  import opened Seqs
  import opened Looping

  /** What a save call created, by manifest identity. */
  datatype Created = CreatedDashboard | CreatedAlert(name: string)

  /** The dashboard as the server stores it: the same, with tile ids of its own. */
  predicate Stores(spec: DashboardSpec, stored: DashboardSpec) {
    && stored.name == spec.name && stored.tags == spec.tags && stored.filters == spec.filters
    && |stored.tiles| == |spec.tiles| && NamedTiles(stored.tiles) && DistinctIds(stored.tiles)
    && forall i :: 0 <= i < |spec.tiles| ==> stored.tiles[i].name == spec.tiles[i].name && stored.tiles[i].rest == spec.tiles[i].rest
  }

  /** What the manifest asks for. */
  ghost predicate Listed(plan: Manifest, c: Created) {
    c.CreatedAlert? ==> exists k :: 0 <= k < |plan.alerts| && plan.alerts[k].name == c.name
  }

  /** Everything created is asked for by the manifest and has left an object with its name behind, and nothing was
      created twice. */
  ghost predicate CreatedOnce(plan: Manifest, dashboards: seq<Dashboard>, alerts: seq<Alert>, created: seq<Created>) {
    && Distinct(created) && (forall c :: c in created ==> Listed(plan, c))
    && (CreatedDashboard in created ==> exists d :: d in dashboards && d.spec.name == plan.dashboard.name)
    && (forall name :: CreatedAlert(name) in created ==> exists a :: a in alerts && a.spec.name == name)
  }

  lemma NobodyNamed(dashboards: seq<Dashboard>, expected: DashboardSpec)
    requires FindDashboard(dashboards, expected) == Ok(None)
    ensures forall d :: d in dashboards ==> d.spec.name != expected.name
  {
    forall d | d in dashboards ensures d.spec.name != expected.name {
      assert d in Filter(dashboards, DashboardTest(expected)) <==> DashboardTest(expected)(d);
    }
  }

  lemma NoAlertNamed(alerts: seq<Alert>, expected: AlertSpec)
    requires FindAlert(alerts, expected) == Ok(None)
    ensures forall a :: a in alerts ==> a.spec.name != expected.name
  {
    forall a | a in alerts ensures a.spec.name != expected.name {
      assert a in Filter(alerts, AlertTest(expected)) <==> AlertTest(expected)(a);
    }
  }

  lemma DashboardCreated(plan: Manifest, dashboards: seq<Dashboard>, alerts: seq<Alert>, created: seq<Created>, d: Dashboard)
    requires CreatedOnce(plan, dashboards, alerts, created)
    requires FindDashboard(dashboards, plan.dashboard) == Ok(None) && d.spec.name == plan.dashboard.name
    ensures CreatedOnce(plan, dashboards + [d], alerts, created + [CreatedDashboard])
  {
    NobodyNamed(dashboards, plan.dashboard);
    assert d in dashboards + [d];
  }

  lemma AlertCreated(plan: Manifest, dashboards: seq<Dashboard>, alerts: seq<Alert>, created: seq<Created>, a: Alert)
    requires CreatedOnce(plan, dashboards, alerts, created) && FindAlert(alerts, a.spec) == Ok(None)
    requires Listed(plan, CreatedAlert(a.spec.name))
    ensures CreatedOnce(plan, dashboards, alerts + [a], created + [CreatedAlert(a.spec.name)])
  {
    NoAlertNamed(alerts, a.spec);
    assert a in alerts + [a];
    forall name | CreatedAlert(name) in created + [CreatedAlert(a.spec.name)]
      ensures exists b :: b in alerts + [a] && b.spec.name == name
    {
      if CreatedAlert(name) in created {
        var b :| b in alerts && b.spec.name == name;
        assert b in alerts + [a];
      }
    }
  }

  // ----- Servers that hold nothing but what the manifest asks for -----

  /** The server holds at most the manifest's dashboard and, on it, some of the manifest's alerts, each once. */
  ghost predicate OwnObjects(plan: Manifest, dashboards: seq<Dashboard>, alerts: seq<Alert>) {
    && |dashboards| <= 1
    && (|dashboards| == 0 ==> alerts == [])
    && (|dashboards| == 1 ==>
      && Matches(plan.dashboard, dashboards[0])
      && (forall a :: a in alerts ==> a.clean && Wanted(plan, dashboards[0], a.spec))
      && (forall i, j :: 0 <= i < j < |alerts| ==> alerts[i].spec != alerts[j].spec))
  }

  ghost predicate Wanted(plan: Manifest, dashboard: Dashboard, spec: AlertSpec)
    requires Matches(plan.dashboard, dashboard)
  {
    var tiles := TileMap(plan.dashboard, dashboard).value;
    exists k :: 0 <= k < |plan.alerts| && plan.alerts[k].tileId in tiles && spec == Resolved(plan.alerts[k], dashboard.id, tiles)
  }

  lemma {:induction false} AtMostOneEqual(alerts: seq<Alert>, test: Alert -> bool, spec: AlertSpec)
    requires forall i, j :: 0 <= i < j < |alerts| ==> alerts[i].spec != alerts[j].spec
    requires forall a :: a in alerts && test(a) ==> a.spec == spec
    ensures |Filter(alerts, test)| <= 1
    ensures |Filter(alerts, test)| == 1 ==> exists a :: a in alerts && test(a)
  {
    if alerts != [] {
      var init, last := alerts[..|alerts| - 1], alerts[|alerts| - 1];
      AtMostOneEqual(init, test, spec);
      assert alerts == init + [last];
      forall a | a in init ensures a.spec != last.spec {
        var i :| 0 <= i < |init| && init[i] == a;
        assert alerts[i].spec != alerts[|alerts| - 1].spec;
      }
    }
  }

  lemma TilesOfManifest(plan: Manifest, dashboard: Dashboard, k: nat)
    requires ValidManifest(plan) && Matches(plan.dashboard, dashboard) && k < |plan.alerts|
    ensures plan.alerts[k].tileId in TileMap(plan.dashboard, dashboard).value
  {
    TileMapTheorem(plan.dashboard, dashboard);
    var t :| t in plan.dashboard.tiles && t.id == plan.alerts[k].tileId;
  }

  /** Manifest alerts with distinct names and tiles have nothing of their identity in common. */
  lemma IdentityIsExact(plan: Manifest, dashboard: Dashboard, tiles: map<string, string>, k: nat, a: Alert)
    requires ValidManifest(plan) && OnDistinctTiles(plan) && k < |plan.alerts| && plan.alerts[k].tileId in tiles
    requires forall x, y :: x in tiles && y in tiles && tiles[x] == tiles[y] ==> x == y
    requires exists j :: 0 <= j < |plan.alerts| && plan.alerts[j].tileId in tiles && a.spec == Resolved(plan.alerts[j], dashboard.id, tiles)
    requires AlertTest(Resolved(plan.alerts[k], dashboard.id, tiles))(a)
    ensures a.spec == Resolved(plan.alerts[k], dashboard.id, tiles)
  {
    var j :| 0 <= j < |plan.alerts| && plan.alerts[j].tileId in tiles && a.spec == Resolved(plan.alerts[j], dashboard.id, tiles);
    assert j == k;
  }

  /** On such a server, with alerts on distinct tiles, an alert is found exactly or is missing; never a conflict. */
  lemma OwnAlertFound(plan: Manifest, dashboard: Dashboard, alerts: seq<Alert>, k: nat)
    requires ValidManifest(plan) && OnDistinctTiles(plan) && OwnObjects(plan, [dashboard], alerts) && k < |plan.alerts|
    ensures plan.alerts[k].tileId in TileMap(plan.dashboard, dashboard).value
    ensures FindAlert(alerts, Resolved(plan.alerts[k], dashboard.id, TileMap(plan.dashboard, dashboard).value)).Ok?
  {
    TilesOfManifest(plan, dashboard, k);
    TileMapTheorem(plan.dashboard, dashboard);
    assert [dashboard][0] == dashboard;
    var tiles := TileMap(plan.dashboard, dashboard).value;
    hide TileMap, Matches, ValidManifest, OnDistinctTiles, Filter;
    var spec := Resolved(plan.alerts[k], dashboard.id, tiles);
    forall a | a in alerts && AlertTest(spec)(a) ensures a.spec == spec && a.clean {
      assert Wanted(plan, dashboard, a.spec);
      IdentityIsExact(plan, dashboard, tiles, k, a);
    }
    AtMostOneEqual(alerts, AlertTest(spec), spec);
    var candidates := Filter(alerts, AlertTest(spec));
    if candidates != [] {
      assert candidates[0] in candidates;
    }
  }

  lemma OwnDashboardFound(plan: Manifest, dashboards: seq<Dashboard>, alerts: seq<Alert>)
    requires OwnObjects(plan, dashboards, alerts)
    ensures FindDashboard(dashboards, plan.dashboard) == Ok(if dashboards == [] then None else Some(dashboards[0]))
  {
    if |dashboards| == 1 {
      assert dashboards == [dashboards[0]];
      FilterSingle(dashboards[0], DashboardTest(plan.dashboard));
    }
  }

  lemma OwnAlertAdded(plan: Manifest, dashboard: Dashboard, alerts: seq<Alert>, k: nat, a: Alert)
    requires ValidManifest(plan) && OwnObjects(plan, [dashboard], alerts) && k < |plan.alerts| && a.clean
    requires plan.alerts[k].tileId in TileMap(plan.dashboard, dashboard).value
    requires a.spec == Resolved(plan.alerts[k], dashboard.id, TileMap(plan.dashboard, dashboard).value)
    requires FindAlert(alerts, a.spec) == Ok(None)
    ensures OwnObjects(plan, [dashboard], alerts + [a])
  {
    hide Matches, ValidManifest, FindAlert;
    assert [dashboard][0] == dashboard;
    NoAlertNamed(alerts, a.spec);
    assert forall i :: 0 <= i < |alerts| ==> alerts[i] in alerts;
    assert Wanted(plan, dashboard, a.spec);
  }

  lemma StoredMatches(plan: Manifest, d: Dashboard)
    requires d.clean && Stores(plan.dashboard, d.spec) && DistinctNames(plan.dashboard.tiles)
    ensures Matches(plan.dashboard, d)
  {
    var tiles := d.spec.tiles;
    forall i | 0 <= i < |tiles| ensures TileNamed(tiles, tiles[i].name) == Some(tiles[i]) {
      NamedFound(tiles, i);
    }
  }

  lemma {:induction false} NamedFound(tiles: seq<Tile>, i: nat)
    requires DistinctNames(tiles) && i < |tiles|
    ensures TileNamed(tiles, tiles[i].name) == Some(tiles[i])
  {
    if i > 0 {
      NamedFound(tiles[1..], i - 1);
    }
  }

  // ----- The run -----

  lemma FoundDashboard(dashboards: seq<Dashboard>, expected: DashboardSpec, d: Dashboard)
    requires d in dashboards && DashboardTest(expected)(d)
    ensures FindDashboard(dashboards, expected) != Ok(None)
    ensures FindDashboard(dashboards, expected).Ok? ==> FindDashboard(dashboards, expected) == Ok(Some(d)) && Matches(expected, d)
  {
    var candidates := Filter(dashboards, DashboardTest(expected));
    assert d in candidates;
  }

  lemma FoundAlert(alerts: seq<Alert>, expected: AlertSpec, a: Alert)
    requires a in alerts && AlertTest(expected)(a)
    ensures FindAlert(alerts, expected) != Ok(None)
    ensures FindAlert(alerts, expected).Ok? ==> FindAlert(alerts, expected) == Ok(Some(a)) && a.clean && a.spec == expected
  {
    var candidates := Filter(alerts, AlertTest(expected));
    assert a in candidates;
  }

  lemma FoundIsMember(dashboards: seq<Dashboard>, alerts: seq<Alert>, spec: DashboardSpec, alert: AlertSpec)
    ensures var d := FindDashboard(dashboards, spec); d.Ok? && d.value.Some? ==> d.value.value in dashboards && Matches(spec, d.value.value)
    ensures var a := FindAlert(alerts, alert); a.Ok? && a.value.Some? ==> a.value.value in alerts && a.value.value.spec == alert
  {
    var ds := Filter(dashboards, DashboardTest(spec));
    assert ds != [] ==> ds[0] in ds;
    var xs := Filter(alerts, AlertTest(alert));
    assert xs != [] ==> xs[0] in xs;
  }

  ghost predicate HasAlert(alerts: seq<Alert>, spec: AlertSpec) {
    exists a :: a in alerts && a.spec == spec
  }

  /** The alerts up to `n` are in place, and no two of them share a tile. */
  ghost predicate InPlace(plan: Manifest, dashboardId: string, tiles: map<string, string>, alerts: seq<Alert>, n: nat)
    requires n <= |plan.alerts|
  {
    && (forall i :: 0 <= i < n ==>
      && plan.alerts[i].tileId in tiles
      && HasAlert(alerts, Resolved(plan.alerts[i], dashboardId, tiles)))
    && (forall i, j :: 0 <= i < j < n ==> plan.alerts[i].tileId != plan.alerts[j].tileId)
  }

  /** The run is complete: every alert is in place on the found dashboard, under its tile map. */
  ghost predicate Completed(plan: Manifest, d: Dashboard, tiles: map<string, string>, alerts: seq<Alert>) {
    TileMap(plan.dashboard, d) == Ok(tiles) && InPlace(plan, d.id, tiles, alerts, |plan.alerts|)
  }

  lemma OneMoreInPlace(plan: Manifest, dashboardId: string, tiles: map<string, string>, before: seq<Alert>, alerts: seq<Alert>, n: nat)
    requires ValidManifest(plan) && n < |plan.alerts| && InPlace(plan, dashboardId, tiles, before, n)
    requires forall a :: a in before ==> a in alerts
    requires plan.alerts[n].tileId in tiles
    requires FindAlert(alerts, Resolved(plan.alerts[n], dashboardId, tiles)).Ok?
    requires FindAlert(alerts, Resolved(plan.alerts[n], dashboardId, tiles)).value.Some?
    ensures InPlace(plan, dashboardId, tiles, alerts, n + 1)
  {
    hide FindAlert;
    var spec := Resolved(plan.alerts[n], dashboardId, tiles);
    FoundIsMember([], alerts, plan.dashboard, spec);
    forall i | 0 <= i < n ensures plan.alerts[i].tileId != plan.alerts[n].tileId {
      assert HasAlert(before, Resolved(plan.alerts[i], dashboardId, tiles));
      var a :| a in before && a.spec == Resolved(plan.alerts[i], dashboardId, tiles);
      if plan.alerts[i].tileId == plan.alerts[n].tileId {
        FoundAlert(alerts, spec, a);
      }
    }
  }
}
