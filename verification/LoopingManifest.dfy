/** What the Looping plan checks of its manifest, and manifests it accepts that no run can complete. */
module LoopingManifest {
  import opened Wrappers
  import opened Json
  import opened Text
  import opened Looping

  predicate Has(obj: Object, field: string, value: Json) {
    field in obj && obj[field] == value
  }

  /** A scalar query without grouping. */
  predicate ScalarTile(t: Tile) {
    && {"id", "name"} !! t.rest.Keys && "config" in t.rest && t.rest["config"].Obj?
    && var config := t.rest["config"].fields;
    && Has(config, "configType", Str("sql")) && Has(config, "displayType", Str("number"))
    && "sqlTemplate" in config && config["sqlTemplate"].Str? && !Contains(Upper(config["sqlTemplate"].s), "GROUP BY")
  }

  function Webhook(): Json {
    Obj(map["type" := Str("webhook"), "webhookId" := Str("6a60b666dcc64beb0ded8d48")])
  }

  predicate TileAlert(a: AlertPlan, tiles: seq<Tile>) {
    && a.policy.Keys == POLICY_FIELDS
    && Has(a.policy, "source", Str("tile")) && (exists t :: t in tiles && t.id == a.tileId)
    && Has(a.policy, "thresholdType", Str("below")) && Has(a.policy, "interval", Str("5m"))
    && Has(a.policy, "channel", Webhook())
  }

  /** Two scalar tiles with different ids, an identity tag, and two alerts of different names, each on one of the tiles. */
  predicate Accepts(plan: Manifest) {
    && |plan.dashboard.tiles| == 2 && DistinctIds(plan.dashboard.tiles) && |plan.dashboard.tags| > 0
    && |plan.alerts| == 2 && plan.alerts[0].name != plan.alerts[1].name
    && (forall i :: 0 <= i < 2 ==> ScalarTile(plan.dashboard.tiles[i]))
    && (forall i :: 0 <= i < 2 ==> TileAlert(plan.alerts[i], plan.dashboard.tiles))
  }

  /** Everything the run needs of a manifest is checked. */
  lemma AcceptedIsValid(plan: Manifest)
    requires Accepts(plan)
    ensures ValidManifest(plan)
  {
    hide Contains, Upper, Has;
    forall i | 0 <= i < |plan.alerts| ensures exists t :: t in plan.dashboard.tiles && t.id == plan.alerts[i].tileId {
      assert TileAlert(plan.alerts[i], plan.dashboard.tiles);
    }
  }

  function ScalarConfig(): Object {
    map["configType" := Str("sql"), "displayType" := Str("number"), "sqlTemplate" := Str("SELECT 1")]
  }

  function FewReports(): Object {
    map["source" := Str("tile"), "threshold" := Num(1), "thresholdType" := Str("below"), "interval" := Str("5m"),
        "channel" := Webhook(), "message" := Str("look")]
  }

  lemma ScalarConfigFits(id: string, name: string)
    ensures ScalarTile(Tile(id, name, map["config" := Obj(ScalarConfig())]))
  {
    assert Upper("SELECT 1") == "SELECT 1";
    assert !Contains("SELECT 1", "GROUP BY") by {
      forall i | 0 <= i <= 8 ensures !("GROUP BY" <= "SELECT 1"[i..]) {
        assert |"GROUP BY"| == 8 && (i == 0 ==> "SELECT 1"[i..][0] == 'S');
      }
    }
    var rest := map["config" := Obj(ScalarConfig())];
    assert rest.Keys == {"config"};
  }

  lemma FewReportsFits(name: string, tiles: seq<Tile>, t: Tile)
    requires t in tiles
    ensures TileAlert(AlertPlan(name, t.id, FewReports()), tiles)
  {
    hide Webhook;
    assert FewReports().Keys == POLICY_FIELDS;
  }

  /** Accepted manifests that no run can complete: two alerts on one tile, or two tiles of one name. */
  lemma UncompletableWitness() returns (sharedTile: Manifest, sharedName: Manifest)
    ensures Accepts(sharedTile) && DistinctNames(sharedTile.dashboard.tiles) && !OnDistinctTiles(sharedTile)
    ensures Accepts(sharedName) && !DistinctNames(sharedName.dashboard.tiles) && OnDistinctTiles(sharedName)
  {
    hide ScalarTile, TileAlert, ScalarConfig, FewReports;
    var rest := map["config" := Obj(ScalarConfig())];
    var a, b, c := Tile("1", "a", rest), Tile("2", "b", rest), Tile("2", "a", rest);
    sharedTile := Manifest(DashboardSpec("d", ["t"], Null, [a, b]), [AlertPlan("x", "1", FewReports()), AlertPlan("y", "1", FewReports())]);
    sharedName := Manifest(DashboardSpec("d", ["t"], Null, [a, c]), [AlertPlan("x", "1", FewReports()), AlertPlan("y", "2", FewReports())]);
    ScalarConfigFits("1", "a");
    ScalarConfigFits("2", "b");
    ScalarConfigFits("2", "a");
    assert [a, b][0] == a && [a, c][0] == a && [a, c][1] == c;
    FewReportsFits("x", [a, b], a);
    FewReportsFits("y", [a, b], a);
    FewReportsFits("x", [a, c], a);
    FewReportsFits("y", [a, c], c);
    assert sharedTile.alerts[0].tileId == sharedTile.alerts[1].tileId;
    assert sharedName.dashboard.tiles[0].name == sharedName.dashboard.tiles[1].name;
  }
}
