/** The apply run of the Looping monitor over the server's own objects, through any script of failures. */
module LoopingApply {
  import opened Wrappers
  import opened Faults
  import opened Json
  import opened Seqs
  import opened VaultObjects
  import opened Looping
  import opened LoopingCanonical
  import opened LoopingObjects
  import opened LoopingPlan

  /** The loop over the manifest's tiles: each is matched by name and compared. */
  method MatchTiles(wanted: seq<Tile>, stored: seq<Tile>) returns (r: Option<map<string, string>>)
    ensures r.Some? <==> forall j :: 0 <= j < |wanted| ==>
      TileNamed(stored, wanted[j].name).Some? && TileNamed(stored, wanted[j].name).value.rest == wanted[j].rest
    ensures r.Some? ==> r.value == MapTiles(wanted, stored)
  {
    hide TileNamed;
    var mapping: map<string, string> := map[];
    var i := 0;
    while i < |wanted|
      invariant 0 <= i <= |wanted|
      invariant forall j :: 0 <= j < i ==>
        TileNamed(stored, wanted[j].name).Some? && TileNamed(stored, wanted[j].name).value.rest == wanted[j].rest
      invariant mapping == MapTiles(wanted[..i], stored)
    {
      var tile := TileNamed(stored, wanted[i].name);
      if tile.None? || tile.value.(id := wanted[i].id) != wanted[i] { return None; }
      mapping := mapping[wanted[i].id := tile.value.id];
      assert wanted[..i + 1][..i] == wanted[..i];
      i := i + 1;
    }
    assert wanted[..i] == wanted;
    r := Some(mapping);
  }

  /** The server ids of the manifest's tiles, from the canonical form of a stored dashboard. */
  method DashboardTileMap(expected: DashboardSpec, obj: Object, team: Json) returns (r: Result<map<string, string>, Failure>)
    ensures r == TileMap(expected, SeenDashboard(obj, team))
  {
    hide CanonicalForm, IsDashboard, DashboardFrom, TileNamed, MapTiles;
    var actual := Canonical(Kind.Dashboard, obj, team);
    if actual.Err? || !IsDashboard(actual.value) { return Err(Conflict); }
    var stored := DashboardFrom(actual.value);
    if |stored.tiles| != |expected.tiles| { return Err(Conflict); }
    if !NamedTiles(stored.tiles) || !DistinctTiles(stored.tiles) || !DistinctNames(expected.tiles) { return Err(Conflict); }
    var mapping := MatchTiles(expected.tiles, stored.tiles);
    if mapping.None? || stored.name != expected.name || stored.tags != expected.tags || stored.filters != expected.filters {
      return Err(Conflict);
    }
    r := Ok(mapping.value);
  }

  /** The candidates of an inventory: everything that has the name or a tag of the dashboard. */
  method DashboardCandidates(objs: seq<Object>, expected: DashboardSpec, team: Json) returns (candidates: seq<Object>)
    requires Rows(objs)
    ensures SeenDashboards(candidates, team) == Filter(SeenDashboards(objs, team), DashboardTest(expected))
    ensures forall obj :: obj in candidates ==> obj in objs
  {
    hide SeenDashboard, Filter, SharesTag;
    candidates := [];
    var i := 0;
    NoneSeen(team, DashboardTest(expected), AlertTest(AlertSpec("", "", "", map[])));
    while i < |objs|
      invariant 0 <= i <= |objs|
      invariant SeenDashboards(candidates, team) == Filter(SeenDashboards(objs[..i], team), DashboardTest(expected))
      invariant forall obj :: obj in candidates ==> obj in objs
    {
      var obj := objs[i];
      SeenIdentity(obj, team);
      OneMoreSeen(objs, i, team);
      FilterConcat(SeenDashboards(objs[..i], team), [SeenDashboard(obj, team)], DashboardTest(expected));
      FilterSingle(SeenDashboard(obj, team), DashboardTest(expected));
      SeenAppend(candidates, obj, team);
      if StringAt(obj, "name").value == expected.name || SharesTag(TagsOf(obj), expected.tags) {
        candidates := candidates + [obj];
      } else {
        assert SeenDashboards(candidates, team) + [] == SeenDashboards(candidates, team);
      }
      i := i + 1;
    }
    assert objs[..i] == objs;
  }

  /** Everything that has the name or the tile of the alert. */
  method AlertCandidates(objs: seq<Object>, expected: AlertSpec, team: Json) returns (candidates: seq<Object>)
    requires Rows(objs) && expected.tileId != ""
    ensures SeenAlerts(candidates, team) == Filter(SeenAlerts(objs, team), AlertTest(expected))
    ensures forall obj :: obj in candidates ==> obj in objs
  {
    hide SeenAlert, Filter;
    candidates := [];
    var i := 0;
    NoneSeen(team, DashboardTest(DashboardSpec("", [], Null, [])), AlertTest(expected));
    while i < |objs|
      invariant 0 <= i <= |objs|
      invariant SeenAlerts(candidates, team) == Filter(SeenAlerts(objs[..i], team), AlertTest(expected))
      invariant forall obj :: obj in candidates ==> obj in objs
    {
      var obj := objs[i];
      SeenIdentity(obj, team);
      OneMoreSeen(objs, i, team);
      FilterConcat(SeenAlerts(objs[..i], team), [SeenAlert(obj, team)], AlertTest(expected));
      FilterSingle(SeenAlert(obj, team), AlertTest(expected));
      SeenAppend(candidates, obj, team);
      if StringAt(obj, "name").value == expected.name || StringAt(obj, "tileId") == Some(expected.tileId) {
        candidates := candidates + [obj];
      } else {
        assert SeenAlerts(candidates, team) + [] == SeenAlerts(candidates, team);
      }
      i := i + 1;
    }
    assert objs[..i] == objs;
  }

  lemma NoneSeen(team: Json, test: Dashboard -> bool, other: Alert -> bool)
    ensures forall objs: seq<Object> :: SeenDashboards(objs[..0], team) == [] && SeenAlerts(objs[..0], team) == []
    ensures SeenDashboards([], team) == [] && SeenAlerts([], team) == []
    ensures Filter([], test) == [] && Filter([], other) == []
  {
  }

  lemma OneMoreSeen(objs: seq<Object>, i: nat, team: Json)
    requires i < |objs|
    ensures SeenDashboards(objs[..i + 1], team) == SeenDashboards(objs[..i], team) + [SeenDashboard(objs[i], team)]
    ensures SeenAlerts(objs[..i + 1], team) == SeenAlerts(objs[..i], team) + [SeenAlert(objs[i], team)]
  {
    hide SeenDashboard, SeenAlert;
  }

  lemma SeenAppend(objs: seq<Object>, obj: Object, team: Json)
    ensures SeenDashboards(objs + [obj], team) == SeenDashboards(objs, team) + [SeenDashboard(obj, team)]
    ensures SeenAlerts(objs + [obj], team) == SeenAlerts(objs, team) + [SeenAlert(obj, team)]
  {
    hide SeenDashboard, SeenAlert;
  }

  /** The server took the dashboard: it keeps it as it was sent, under an id and tile ids of its own. */
  predicate TookDashboard(spec: DashboardSpec, tiles: seq<Tile>, stored: Object, objs: seq<Object>, team: Json) {
    && Stores(spec, spec.(tiles := tiles))
    && KeptAs(Kind.Dashboard, DashboardObject(spec.(tiles := tiles)), stored, team)
    && forall i :: 0 <= i < |objs| ==> IdOf(objs[i]) != IdOf(stored)
  }

  predicate TookAlert(spec: AlertSpec, stored: Object, objs: seq<Object>, team: Json) {
    && KeptAs(Kind.Alert, AlertObject(spec), stored, team)
    && forall i :: 0 <= i < |objs| ==> IdOf(objs[i]) != IdOf(stored)
  }

  /** How a server could store what it is sent. */
  function TakenDashboard(spec: DashboardSpec, objs: seq<Object>, team: Json): Object {
    Stamped(DashboardObject(spec.(tiles := Renumbered(spec.tiles))), FreshId(objs), team)
  }

  function TakenAlert(spec: AlertSpec, objs: seq<Object>, team: Json): Object {
    Stamped(AlertObject(spec), FreshId(objs), team)
  }

  lemma CanTakeDashboard(spec: DashboardSpec, objs: seq<Object>, team: Json)
    ensures TookDashboard(spec, Renumbered(spec.tiles), TakenDashboard(spec, objs, team), objs, team)
  {
    hide Stripped, KeptAs, Renumbered;
    var sent := DashboardObject(spec.(tiles := Renumbered(spec.tiles)));
    FreshIdIsFresh(objs);
    DashboardNotStripped(spec.(tiles := Renumbered(spec.tiles)));
    StampedIsKept(Kind.Dashboard, sent, FreshId(objs), team);
    RenumberedDiffer(spec.tiles);
    RenumberedStores(spec);
    StampedId(sent, FreshId(objs), team);
  }

  lemma CanTakeAlert(spec: AlertSpec, objs: seq<Object>, team: Json)
    requires spec.policy.Keys == POLICY_FIELDS
    ensures TookAlert(spec, TakenAlert(spec, objs, team), objs, team)
  {
    hide Stripped, KeptAs;
    FreshIdIsFresh(objs);
    AlertNotStripped(spec);
    StampedIsKept(Kind.Alert, AlertObject(spec), FreshId(objs), team);
    StampedId(AlertObject(spec), FreshId(objs), team);
  }

  lemma RenumberedStores(spec: DashboardSpec)
    requires NamedTiles(Renumbered(spec.tiles)) && DistinctIds(Renumbered(spec.tiles))
    ensures Stores(spec, spec.(tiles := Renumbered(spec.tiles)))
  {
  }

  lemma StampedId(sent: Object, id: string, team: Json)
    requires "name" in sent && sent["name"].Str?
    ensures IdOf(Stamped(sent, id, team)) == id
  {
  }

  lemma DashboardTaken(spec: DashboardSpec, tiles: seq<Tile>, stored: Object, objs: seq<Object>, team: Json)
    requires WellTiles(spec.tiles) && TookDashboard(spec, tiles, stored, objs, team)
    ensures IsRow(stored) && SeenDashboard(stored, team).clean && Stores(spec, SeenDashboard(stored, team).spec)
    ensures Rows(objs) ==> Rows(objs + [stored])
  {
    hide KeptAs, SeenDashboard;
    assert WellTiles(tiles);
    KeptDashboardSeen(spec.(tiles := tiles), stored, team);
  }

  lemma AlertTaken(spec: AlertSpec, stored: Object, objs: seq<Object>, team: Json)
    requires spec.policy.Keys == POLICY_FIELDS && TookAlert(spec, stored, objs, team)
    ensures IsRow(stored) && SeenAlert(stored, team) == StoredAlert(IdOf(stored), spec, true)
    ensures Rows(objs) ==> Rows(objs + [stored])
  {
    hide KeptAs, SeenAlert;
    KeptAlertSeen(spec, stored, team);
  }

  /** What a search of raw objects finds, and what a search of what is seen of them finds. */
  ghost predicate SameFind(r: Result<Option<Object>, Failure>, seen: Result<Option<Dashboard>, Failure>, objs: seq<Object>, team: Json) {
    && (r.Err? <==> seen.Err?) && (r.Err? ==> r.error == seen.error)
    && (r.Ok? ==> (r.value.None? <==> seen.value.None?))
    && (r.Ok? && r.value.Some? ==> r.value.value in objs && seen.value.value == SeenDashboard(r.value.value, team))
  }

  ghost predicate SameFindAlert(r: Result<Option<Object>, Failure>, seen: Result<Option<Alert>, Failure>, objs: seq<Object>, team: Json) {
    && (r.Err? <==> seen.Err?) && (r.Err? ==> r.error == seen.error)
    && (r.Ok? ==> (r.value.None? <==> seen.value.None?))
    && (r.Ok? && r.value.Some? ==> r.value.value in objs && seen.value.value == SeenAlert(r.value.value, team))
  }

  /** The dashboard, or an alert, is ambiguous or differs from the manifest. */
  ghost predicate Blocks(plan: Manifest, dashboards: seq<Dashboard>, alerts: seq<Alert>, error: Failure) {
    || Err(error) == FindDashboard(dashboards, plan.dashboard)
    || exists d, tiles, k: nat :: AlertInTheWay(plan, dashboards, alerts, d, tiles, k, error)
  }

  ghost predicate AlertInTheWay(plan: Manifest, dashboards: seq<Dashboard>, alerts: seq<Alert>, d: Dashboard, tiles: map<string, string>,
                                k: nat, error: Failure)
  {
    && FindDashboard(dashboards, plan.dashboard) == Ok(Some(d)) && TileMap(plan.dashboard, d) == Ok(tiles)
    && k < |plan.alerts| && plan.alerts[k].tileId in tiles
    && Err(error) == FindAlert(alerts, Resolved(plan.alerts[k], d.id, tiles))
  }

  lemma AlertBlocks(plan: Manifest, dashboards: seq<Dashboard>, alerts: seq<Alert>, d: Dashboard, tiles: map<string, string>,
                    k: nat, error: Failure)
    requires AlertInTheWay(plan, dashboards, alerts, d, tiles, k, error)
    ensures Blocks(plan, dashboards, alerts, error)
  {
  }

  lemma DashboardBlocks(plan: Manifest, dashboards: seq<Dashboard>, alerts: seq<Alert>, error: Failure)
    ensures Err(error) == FindDashboard(dashboards, plan.dashboard) ==> Blocks(plan, dashboards, alerts, error)
  {
    hide FindDashboard;
  }

  class Server {
    const team: Json
    const script: nat -> Fault
    var dashboards: seq<Object>
    var alerts: seq<Object>
    var time: nat
    ghost var created: seq<Created>

    constructor (team: Json, script: nat -> Fault, dashboards: seq<Object>, alerts: seq<Object>)
      ensures this.team == team && this.script == script && this.dashboards == dashboards && this.alerts == alerts
      ensures time == 0 && created == []
    {
      this.team, this.script := team, script;
      this.dashboards, this.alerts, this.time := dashboards, alerts, 0;
      created := [];
    }

    function Ds(): seq<Dashboard>
      reads this
    {
      SeenDashboards(dashboards, team)
    }

    function As(): seq<Alert>
      reads this
    {
      SeenAlerts(alerts, team)
    }

    /** Nothing but what the manifest asks for, under proper ids. */
    ghost predicate Own(plan: Manifest)
      reads this
    {
      Rows(dashboards) && Rows(alerts) && OwnObjects(plan, Ds(), As())
    }

    ghost predicate Once(plan: Manifest)
      reads this
    {
      CreatedOnce(plan, Ds(), As(), created)
    }

    /** The whole manifest is in place. */
    ghost predicate Done(plan: Manifest)
      reads this
    {
      exists d, tiles :: FindDashboard(Ds(), plan.dashboard) == Ok(Some(d)) && Completed(plan, d, tiles, As())
    }

    /** What on the server stands in the way of the manifest, as an error says. */
    ghost predicate Obstacle(plan: Manifest, error: Failure)
      reads this
    {
      (error.Malformed? && !(Rows(dashboards) && Rows(alerts))) || Blocks(plan, Ds(), As(), error)
    }

    /** A write of the journal. */
    method Record() returns (ok: bool)
      modifies this`time
      ensures time == old(time) + 1 && ok == script(old(time)).Works?
    {
      ok := script(time).Works?;
      time := time + 1;
    }

    method FindExistingDashboard(spec: DashboardSpec) returns (r: Result<Option<Object>, Failure>)
      modifies this`time
      ensures time == old(time) + 1
      ensures !script(old(time)).Works? <==> r == Err(Interrupted)
      ensures script(old(time)).Works? && !Rows(dashboards) ==> r == Err(Malformed)
      ensures script(old(time)).Works? && Rows(dashboards) ==> SameFind(r, FindDashboard(Ds(), spec), dashboards, team)
    {
      hide SeenDashboard, Filter, Matches;
      time := time + 1;
      if !script(time - 1).Works? { return Err(Interrupted); }
      if !Rows(dashboards) { return Err(Malformed); }
      var candidates := DashboardCandidates(dashboards, spec, team);
      assert |SeenDashboards(candidates, team)| == |candidates|;
      if |candidates| > 1 { return Err(Ambiguous); }
      if candidates == [] { return Ok(None); }
      var mapped := DashboardTileMap(spec, candidates[0], team);
      assert SeenDashboards(candidates, team)[0] == SeenDashboard(candidates[0], team);
      if mapped.Err? { return Err(Conflict); }
      r := Ok(Some(candidates[0]));
    }

    method FindExistingAlert(spec: AlertSpec) returns (r: Result<Option<Object>, Failure>)
      requires spec.policy.Keys == POLICY_FIELDS && spec.tileId != ""
      modifies this`time
      ensures time == old(time) + 1
      ensures !script(old(time)).Works? <==> r == Err(Interrupted)
      ensures script(old(time)).Works? && !Rows(alerts) ==> r == Err(Malformed)
      ensures script(old(time)).Works? && Rows(alerts) ==> SameFindAlert(r, FindAlert(As(), spec), alerts, team)
    {
      hide SeenAlert, Filter, CanonicalForm, AlertObject;
      time := time + 1;
      if !script(time - 1).Works? { return Err(Interrupted); }
      if !Rows(alerts) { return Err(Malformed); }
      var candidates := AlertCandidates(alerts, spec, team);
      assert |SeenAlerts(candidates, team)| == |candidates|;
      if |candidates| > 1 { return Err(Ambiguous); }
      if candidates == [] { return Ok(None); }
      assert SeenAlerts(candidates, team)[0] == SeenAlert(candidates[0], team);
      var form := Canonical(Kind.Alert, candidates[0], team);
      SameSpec(candidates[0], team, spec);
      if form != Ok(AlertObject(spec)) { return Err(Conflict); }
      r := Ok(Some(candidates[0]));
    }

    /** Creates a dashboard under ids of the server's choice. */
    method SaveDashboard(spec: DashboardSpec) returns (ok: bool)
      requires WellTiles(spec.tiles)
      modifies this`dashboards, this`created, this`time
      ensures time == old(time) + 1 && ok == script(old(time)).Works?
      ensures script(old(time)).FailsBefore? ==> dashboards == old(dashboards) && created == old(created)
      ensures !script(old(time)).FailsBefore? ==>
        && |dashboards| == |old(dashboards)| + 1 && dashboards[..|old(dashboards)|] == old(dashboards)
        && SeenDashboard(dashboards[|old(dashboards)|], team).clean && Stores(spec, SeenDashboard(dashboards[|old(dashboards)|], team).spec)
        && (Rows(old(dashboards)) ==> Rows(dashboards)) && created == old(created) + [CreatedDashboard]
    {
      hide SeenDashboard, TookDashboard, Stores, TakenDashboard, Renumbered;
      ok := script(time).Works?;
      time := time + 1;
      if script(time - 1).FailsBefore? { return; }
      var stored: Object := *;
      var tiles: seq<Tile> := *;
      if !TookDashboard(spec, tiles, stored, dashboards, team) {
        CanTakeDashboard(spec, dashboards, team);
        tiles, stored := Renumbered(spec.tiles), TakenDashboard(spec, dashboards, team);
      }
      DashboardTaken(spec, tiles, stored, dashboards, team);
      dashboards := dashboards + [stored];
      created := created + [CreatedDashboard];
    }

    method SaveAlert(spec: AlertSpec) returns (ok: bool)
      requires spec.policy.Keys == POLICY_FIELDS
      modifies this`alerts, this`created, this`time
      ensures time == old(time) + 1 && ok == script(old(time)).Works?
      ensures script(old(time)).FailsBefore? ==> alerts == old(alerts) && created == old(created)
      ensures !script(old(time)).FailsBefore? ==>
        && |alerts| == |old(alerts)| + 1 && alerts[..|old(alerts)|] == old(alerts)
        && SeenAlert(alerts[|old(alerts)|], team).clean && SeenAlert(alerts[|old(alerts)|], team).spec == spec
        && (Rows(old(alerts)) ==> Rows(alerts)) && created == old(created) + [CreatedAlert(spec.name)]
    {
      hide SeenAlert, TookAlert, TakenAlert;
      ok := script(time).Works?;
      time := time + 1;
      if script(time - 1).FailsBefore? { return; }
      var stored: Object := *;
      if !TookAlert(spec, stored, alerts, team) {
        CanTakeAlert(spec, alerts, team);
        stored := TakenAlert(spec, alerts, team);
      }
      AlertTaken(spec, stored, alerts, team);
      alerts := alerts + [stored];
      created := created + [CreatedAlert(spec.name)];
    }

    /** Creates the manifest's dashboard where there is none. */
    method CreateDashboard(plan: Manifest) returns (saved: bool)
      requires ValidManifest(plan) && Once(plan) && Rows(dashboards) && FindDashboard(Ds(), plan.dashboard) == Ok(None)
      modifies this`dashboards, this`created, this`time
      ensures Once(plan) && Rows(dashboards)
      ensures time == old(time) + 1 && saved == script(old(time)).Works?
      ensures saved ==> FindDashboard(Ds(), plan.dashboard) != Ok(None)
      ensures old(Own(plan)) && DistinctNames(plan.dashboard.tiles) ==>
        Own(plan) && (saved ==> FindDashboard(Ds(), plan.dashboard) == Ok(Some(Ds()[0])))
    {
      hide FindDashboard, FindAlert, Matches, SeenDashboard, SeenAlert, Rows, Stores, OwnObjects, CreatedOnce;
      ghost var before := Ds();
      ManifestTiles(plan);
      saved := SaveDashboard(plan.dashboard);
      if Ds() != before {
        ghost var stored := SeenDashboard(dashboards[|before|], team);
        assert Ds() == before + [stored];
        StoredNames(plan.dashboard, stored.spec);
        DashboardCreated(plan, before, As(), old(created), stored);
        NewFound(plan, before, stored);
        if old(Own(plan)) && DistinctNames(plan.dashboard.tiles) {
          StoredMatches(plan, stored);
          FirstDashboard(plan, before, stored, As());
        }
      }
    }

    /** From the intent to the completion, where there is no dashboard of the manifest. */
    method MakeDashboard(plan: Manifest) returns (r: Result<Object, Failure>)
      requires ValidManifest(plan) && Once(plan) && Rows(dashboards) && FindDashboard(Ds(), plan.dashboard) == Ok(None)
      modifies this`dashboards, this`created, this`time
      ensures Once(plan) && Rows(dashboards)
      ensures r.Ok? ==> r.value in dashboards && FindDashboard(Ds(), plan.dashboard) == Ok(Some(SeenDashboard(r.value, team)))
      ensures r.Err? && !r.error.Interrupted? ==> Err(r.error) == FindDashboard(Ds(), plan.dashboard)
      ensures old(Own(plan)) && DistinctNames(plan.dashboard.tiles) ==> Own(plan) && (r.Err? ==> r.error.Interrupted?)
      ensures r == Err(Interrupted) ==> Fails(script, old(time), time)
      ensures old(time) < time <= old(time) + 4
    {
      hide FindDashboard, SeenDashboard, SeenDashboards, SeenAlerts, Rows, CreatedOnce, OwnObjects, ValidManifest, DistinctNames, Fails;
      ghost var begin := time;
      var recorded := Record();                                      // the intent
      if !recorded { FailsOrNot(script, begin, time); return Err(Interrupted); }
      var saved := CreateDashboard(plan);
      if !saved { FailsOrNot(script, begin, time); return Err(Interrupted); }
      var found := FindExistingDashboard(plan.dashboard);
      if found.Err? { FailsOrNot(script, begin, time); return Err(found.error); }
      assert found.value.Some?;                                      // what was created is never absent from the read-back
      recorded := Record();                                          // the completion
      if !recorded { FailsOrNot(script, begin, time); return Err(Interrupted); }
      r := Ok(found.value.value);
    }

    /** Reuses the manifest's dashboard or creates it, once. It meets no other obstacle than failing calls on a server that
        holds nothing else. */
    method EnsureDashboard(plan: Manifest) returns (r: Result<Object, Failure>)
      requires ValidManifest(plan) && Once(plan)
      modifies this`dashboards, this`created, this`time
      ensures Once(plan)
      ensures r.Ok? ==> Rows(dashboards) && r.value in dashboards
      ensures r.Ok? ==> FindDashboard(Ds(), plan.dashboard) == Ok(Some(SeenDashboard(r.value, team)))
      ensures r.Err? && !r.error.Interrupted? ==>
        (r.error.Malformed? && !Rows(dashboards)) || Err(r.error) == FindDashboard(Ds(), plan.dashboard)
      ensures old(Own(plan)) && DistinctNames(plan.dashboard.tiles) ==> Own(plan) && (r.Err? ==> r.error.Interrupted?)
      ensures r == Err(Interrupted) ==> Fails(script, old(time), time)
      ensures old(time) < time <= old(time) + 6
    {
      hide FindDashboard, SeenDashboard, SeenDashboards, SeenAlerts, Rows, CreatedOnce, OwnObjects, ValidManifest, DistinctNames, Fails;
      ghost var begin := time;
      if Own(plan) { OwnDashboardFound(plan, Ds(), As()); }
      var found := FindExistingDashboard(plan.dashboard);
      if found.Err? { FailsOrNot(script, begin, time); return Err(found.error); }
      if found.value.Some? {
        var kept := Record();
        FailsOrNot(script, begin, time);
        return if kept then Ok(found.value.value) else Err(Interrupted);
      }
      found := FindExistingDashboard(plan.dashboard);                // the second check sees the same server
      if found.Err? { FailsOrNot(script, begin, time); return Err(found.error); }
      ghost var middle := time;
      r := MakeDashboard(plan);
      if r == Err(Interrupted) { FailsWidens(script, middle, time, begin, time); }
    }

    /** Creates an alert where there is none. */
    method CreateAlert(plan: Manifest, spec: AlertSpec) returns (saved: bool)
      requires spec.policy.Keys == POLICY_FIELDS && Listed(plan, CreatedAlert(spec.name))
      requires Once(plan) && Rows(alerts) && FindAlert(As(), spec) == Ok(None)
      modifies this`alerts, this`created, this`time
      ensures Once(plan) && Rows(alerts)
      ensures time == old(time) + 1 && saved == script(old(time)).Works?
      ensures saved ==> FindAlert(As(), spec) != Ok(None)
      ensures As() == old(As()) || (
        && |As()| == |old(As())| + 1 && As()[..|old(As())|] == old(As())
        && As()[|old(As())|].clean && As()[|old(As())|].spec == spec)
    {
      hide FindAlert, SeenDashboard, SeenAlert, Rows, CreatedOnce;
      ghost var before := As();
      saved := SaveAlert(spec);
      if As() != before {
        ghost var stored := SeenAlert(alerts[|before|], team);
        assert As() == before + [stored];
        AlertCreated(plan, Ds(), before, old(created), stored);
        FoundAlert(As(), spec, stored);
      }
    }

    /** From the intent to the completion, where there is no such alert. */
    method MakeAlert(plan: Manifest, spec: AlertSpec) returns (r: Result<Object, Failure>)
      requires spec.policy.Keys == POLICY_FIELDS && spec.tileId != "" && Listed(plan, CreatedAlert(spec.name))
      requires Once(plan) && Rows(alerts) && FindAlert(As(), spec) == Ok(None)
      modifies this`alerts, this`created, this`time
      ensures Once(plan) && Rows(alerts)
      ensures As() == old(As()) || (
        && |As()| == |old(As())| + 1 && As()[..|old(As())|] == old(As())
        && As()[|old(As())|].clean && As()[|old(As())|].spec == spec)
      ensures r.Ok? ==> r.value in alerts && FindAlert(As(), spec) == Ok(Some(SeenAlert(r.value, team)))
      ensures r.Err? && !r.error.Interrupted? ==> Err(r.error) == FindAlert(As(), spec)
      ensures r == Err(Interrupted) ==> Fails(script, old(time), time)
      ensures old(time) < time <= old(time) + 4
    {
      hide FindAlert, SeenAlert, SeenAlerts, SeenDashboards, Rows, CreatedOnce, Listed, Fails;
      ghost var begin := time;
      var recorded := Record();                                      // the intent
      if !recorded { FailsOrNot(script, begin, time); return Err(Interrupted); }
      var saved := CreateAlert(plan, spec);
      if !saved { FailsOrNot(script, begin, time); return Err(Interrupted); }
      var found := FindExistingAlert(spec);
      if found.Err? { FailsOrNot(script, begin, time); return Err(found.error); }
      assert found.value.Some?;                                      // what was created is never absent from the read-back
      recorded := Record();                                          // the completion
      if !recorded { FailsOrNot(script, begin, time); return Err(Interrupted); }
      r := Ok(found.value.value);
    }

    method EnsureAlert(plan: Manifest, spec: AlertSpec) returns (r: Result<Object, Failure>)
      requires spec.policy.Keys == POLICY_FIELDS && spec.tileId != "" && Listed(plan, CreatedAlert(spec.name)) && Once(plan)
      modifies this`alerts, this`created, this`time
      ensures Once(plan) && (old(Rows(alerts)) ==> Rows(alerts))
      ensures As() == old(As()) || (
        && FindAlert(old(As()), spec) == Ok(None)
        && |As()| == |old(As())| + 1 && As()[..|old(As())|] == old(As())
        && As()[|old(As())|].clean && As()[|old(As())|].spec == spec)
      ensures r.Ok? ==> Rows(alerts) && r.value in alerts && FindAlert(As(), spec) == Ok(Some(SeenAlert(r.value, team)))
      ensures r.Err? && !r.error.Interrupted? ==> (r.error.Malformed? && !Rows(alerts)) || Err(r.error) == FindAlert(As(), spec)
      ensures r == Err(Interrupted) ==> Fails(script, old(time), time)
      ensures old(time) < time <= old(time) + 6
    {
      hide FindAlert, SeenAlert, SeenAlerts, SeenDashboards, Rows, CreatedOnce, Listed, Fails;
      ghost var begin := time;
      var found := FindExistingAlert(spec);
      if found.Err? { FailsOrNot(script, begin, time); return Err(found.error); }
      if found.value.Some? {
        var kept := Record();
        FailsOrNot(script, begin, time);
        return if kept then Ok(found.value.value) else Err(Interrupted);
      }
      found := FindExistingAlert(spec);                              // the second check sees the same server
      if found.Err? { FailsOrNot(script, begin, time); return Err(found.error); }
      ghost var middle := time;
      r := MakeAlert(plan, spec);
      if r == Err(Interrupted) { FailsWidens(script, middle, time, begin, time); }
    }

    /** One alert of the manifest, after checking the dashboard once more. */
    method ApplyAlert(plan: Manifest, dashboard: Dashboard, tiles: map<string, string>, i: nat, ghost own: bool)
      returns (r: Result<(), Failure>)
      requires ValidManifest(plan) && Once(plan) && Rows(dashboards) && i < |plan.alerts|
      requires FindDashboard(Ds(), plan.dashboard) == Ok(Some(dashboard)) && TileMap(plan.dashboard, dashboard) == Ok(tiles)
      requires InPlace(plan, dashboard.id, tiles, As(), i)
      requires own ==> OnDistinctTiles(plan) && Ds() == [dashboard] && Own(plan)
      modifies this`alerts, this`created, this`time
      ensures Once(plan)
      ensures r.Ok? ==> InPlace(plan, dashboard.id, tiles, As(), i + 1)
      ensures r.Err? && !r.error.Interrupted? ==> Obstacle(plan, r.error)
      ensures own ==> Own(plan) && (r.Err? ==> r.error.Interrupted?)
      ensures r == Err(Interrupted) ==> Fails(script, old(time), time)
      ensures old(time) < time <= old(time) + 7
    {
      hide FindDashboard, FindAlert, SeenAlert, SeenAlerts, SeenDashboards, SeenDashboard, Rows, CreatedOnce, OwnObjects;
      hide InPlace, Blocks, Fails, Listed, OnDistinctTiles;
      ghost var begin := time;
      ResolvedTile(plan, dashboard, tiles, i);
      hide TileMap, Matches, ValidManifest;
      var current := FindExistingDashboard(plan.dashboard);
      if current.Err? { FailsOrNot(script, begin, time); return Err(current.error); }
      assert SeenDashboard(current.value.value, team) == dashboard;  // with no other writer the dashboard cannot have changed
      var spec := Resolved(plan.alerts[i], dashboard.id, tiles);
      ghost var before, middle := As(), time;
      var alert := EnsureAlert(plan, spec);
      if As() != before {
        assert As() == before + [As()[|before|]];
        if own { OwnAlertAdded(plan, dashboard, before, i, As()[|before|]); }
      }
      if own { OwnAlertFound(plan, dashboard, As(), i); }
      if alert.Err? {
        if alert.error.Interrupted? { FailsWidens(script, middle, time, begin, time); }
        else if Err(alert.error) == FindAlert(As(), spec) { AlertBlocks(plan, Ds(), As(), dashboard, tiles, i, alert.error); }
        return Err(alert.error);
      }
      assert forall a :: a in before ==> a in As();
      OneMoreInPlace(plan, dashboard.id, tiles, before, As(), i);
      r := Ok(());
    }

    /** The whole run. Whatever stops it and however often it is rerun, nothing is created twice and nothing the manifest
        does not list. It completes only with exactly the manifest in place, and only if no two tiles share a name and
        no two alerts a tile. An error that is not a failing call names what on the server is in the way; with such a
        manifest, on a server without foreign objects, nothing is. */
    method ApplyPlan(plan: Manifest) returns (r: Result<map<string, string>, Failure>)
      requires ValidManifest(plan) && Once(plan)
      modifies this
      ensures Once(plan)
      ensures r.Ok? ==> DistinctNames(plan.dashboard.tiles) && OnDistinctTiles(plan)
      ensures r.Ok? ==> exists d :: FindDashboard(Ds(), plan.dashboard) == Ok(Some(d)) && Completed(plan, d, r.value, As())
      ensures r.Err? && !r.error.Interrupted? ==> Obstacle(plan, r.error)
      ensures old(Own(plan)) && DistinctNames(plan.dashboard.tiles) && OnDistinctTiles(plan) ==> Own(plan) && (r.Err? ==> r.error.Interrupted?)
      ensures r == Err(Interrupted) ==> Fails(script, old(time), time)
      ensures old(time) < time <= old(time) + 9 + 7 * |plan.alerts|
    {
      hide FindDashboard, FindAlert, SeenAlert, SeenDashboard, SeenAlerts, SeenDashboards, Rows, CreatedOnce, OwnObjects, OnDistinctTiles;
      hide ValidManifest, DistinctNames, TileMap, Matches, InPlace, Completed, Blocks, Fails, Resolved;
      ghost var begin := time;
      ghost var own := Own(plan) && DistinctNames(plan.dashboard.tiles) && OnDistinctTiles(plan);
      var recorded := Record();                                      // create the journal
      if !recorded { FailsOrNot(script, begin, time); return Err(Interrupted); }
      ghost var middle := time;
      var ensured := EnsureDashboard(plan);
      if ensured.Err? {
        if ensured.error.Interrupted? { FailsWidens(script, middle, time, begin, time); }
        DashboardBlocks(plan, Ds(), As(), ensured.error);
        return Err(ensured.error);
      }
      ghost var dashboard := SeenDashboard(ensured.value, team);
      FoundMaps(Ds(), plan.dashboard);
      var mapped := DashboardTileMap(plan.dashboard, ensured.value, team);
      if own { OwnDashboardFound(plan, Ds(), As()); OnlyOne(plan, Ds(), As()); }
      recorded := Record();                                          // the tile ids
      if !recorded { FailsOrNot(script, begin, time); return Err(Interrupted); }
      ghost var loop := time;
      NoneInPlace(plan, dashboard.id, mapped.value, As());
      var i := 0;
      while i < |plan.alerts|
        invariant 0 <= i <= |plan.alerts| && Rows(dashboards) && loop <= time <= loop + 7 * i
        invariant FindDashboard(Ds(), plan.dashboard) == Ok(Some(dashboard))
        invariant Once(plan) && InPlace(plan, dashboard.id, mapped.value, As(), i)
        invariant own ==> Ds() == [dashboard] && Own(plan)
      {
        ghost var before := time;
        var applied := ApplyAlert(plan, SeenDashboard(ensured.value, team), mapped.value, i, own);
        if applied.Err? {
          if applied.error.Interrupted? { FailsWidens(script, before, time, begin, time); }
          return Err(applied.error);
        }
        i := i + 1;
      }
      recorded := Record();                                          // the completion
      if !recorded { FailsOrNot(script, begin, time); return Err(Interrupted); }
      AllInPlace(plan, dashboard, mapped.value, As());
      r := Ok(mapped.value);
    }

    /** Any number of runs over any server: at most one dashboard and one alert per manifest entry is ever created, and
        nothing else. Completion means that the whole manifest is in place. On a server that holds nothing foreign, with
        names and tiles all different, the first run without a failing call completes. */
    method Reruns(plan: Manifest, attempts: nat) returns (completed: bool, ghost starts: seq<nat>)
      requires ValidManifest(plan) && created == []
      modifies this
      ensures Distinct(created) && forall c :: c in created ==> Listed(plan, c)
      ensures completed ==> DistinctNames(plan.dashboard.tiles) && OnDistinctTiles(plan) && Done(plan)
      ensures |starts| > 0 && starts[0] == old(time) && starts[|starts| - 1] == time
      ensures !completed ==> |starts| == attempts + 1 && forall k, l :: 0 <= k < l <= attempts && l == k + 1 ==>
        starts[k] < starts[l] <= starts[k] + 9 + 7 * |plan.alerts|
      ensures !completed && attempts > 0 ==>
        Fails(script, starts[attempts - 1], starts[attempts]) || exists error :: Obstacle(plan, error)
      ensures old(Own(plan)) && DistinctNames(plan.dashboard.tiles) && OnDistinctTiles(plan) && !completed ==>
        forall k, l :: 0 <= k < l <= attempts && l == k + 1 ==> Fails(script, starts[k], starts[l])
    {
      hide OwnObjects, Rows, ValidManifest, DistinctNames, OnDistinctTiles, SeenDashboards, SeenAlerts, Listed, Completed, Blocks, Fails;
      ghost var own := Own(plan) && DistinctNames(plan.dashboard.tiles) && OnDistinctTiles(plan);
      completed := false;
      starts := [time];
      var i := 0;
      while i < attempts && !completed
        invariant i <= attempts && Once(plan) && |starts| == i + 1 && starts[0] == old(time) && starts[i] == time
        invariant completed ==> DistinctNames(plan.dashboard.tiles) && OnDistinctTiles(plan) && Done(plan)
        invariant own ==> Own(plan)
        invariant forall k, l :: 0 <= k < l <= i && l == k + 1 ==> starts[k] < starts[l] <= starts[k] + 9 + 7 * |plan.alerts|
        invariant own && !completed ==> forall k, l :: 0 <= k < l <= i && l == k + 1 ==> Fails(script, starts[k], starts[l])
        invariant !completed && i > 0 ==> Fails(script, starts[i - 1], starts[i]) || exists error :: Obstacle(plan, error)
        decreases attempts - i
      {
        var r := ApplyPlan(plan);
        completed := r.Ok?;
        starts := starts + [time];
        i := i + 1;
      }
    }
  }

  lemma NewFound(plan: Manifest, before: seq<Dashboard>, stored: Dashboard)
    requires stored.spec.name == plan.dashboard.name
    ensures FindDashboard(before + [stored], plan.dashboard) != Ok(None)
  {
    hide FindDashboard, Matches;
    FoundDashboard(before + [stored], plan.dashboard, stored);
  }

  lemma FirstDashboard(plan: Manifest, before: seq<Dashboard>, stored: Dashboard, alerts: seq<Alert>)
    requires OwnObjects(plan, before, alerts) && Matches(plan.dashboard, stored)
    requires FindDashboard(before, plan.dashboard) == Ok(None)
    ensures OwnObjects(plan, before + [stored], alerts)
    ensures FindDashboard(before + [stored], plan.dashboard) == Ok(Some((before + [stored])[0]))
  {
    hide FindDashboard, Matches;
    OwnDashboardFound(plan, before, alerts);
    OwnDashboardFound(plan, before + [stored], alerts);
  }

  lemma FoundMaps(dashboards: seq<Dashboard>, spec: DashboardSpec)
    ensures var d := FindDashboard(dashboards, spec); d.Ok? && d.value.Some? ==> TileMap(spec, d.value.value).Ok?
  {
    hide FindDashboard, MapTiles;
    FoundIsMember(dashboards, [], spec, AlertSpec("", "", "", map[]));
  }

  lemma OnlyOne(plan: Manifest, dashboards: seq<Dashboard>, alerts: seq<Alert>)
    requires OwnObjects(plan, dashboards, alerts) && dashboards != []
    ensures dashboards == [dashboards[0]]
  {
  }

  lemma NoneInPlace(plan: Manifest, dashboardId: string, tiles: map<string, string>, alerts: seq<Alert>)
    ensures InPlace(plan, dashboardId, tiles, alerts, 0)
  {
  }

  lemma AllInPlace(plan: Manifest, d: Dashboard, tiles: map<string, string>, alerts: seq<Alert>)
    requires TileMap(plan.dashboard, d) == Ok(tiles) && InPlace(plan, d.id, tiles, alerts, |plan.alerts|)
    ensures Completed(plan, d, tiles, alerts) && DistinctNames(plan.dashboard.tiles) && OnDistinctTiles(plan)
  {
  }

  /** The alert that is asked of the server is on one of its tiles. */
  lemma ResolvedTile(plan: Manifest, dashboard: Dashboard, tiles: map<string, string>, k: nat)
    requires ValidManifest(plan) && TileMap(plan.dashboard, dashboard) == Ok(tiles) && k < |plan.alerts|
    ensures plan.alerts[k].tileId in tiles && tiles[plan.alerts[k].tileId] != "" && plan.alerts[k].policy.Keys == POLICY_FIELDS
    ensures Listed(plan, CreatedAlert(plan.alerts[k].name))
  {
    TileMapTheorem(plan.dashboard, dashboard);
    var t :| t in plan.dashboard.tiles && t.id == plan.alerts[k].tileId;
    assert Realises(tiles, t, dashboard.spec.tiles);
  }

  /** A stored alert has the canonical form of a specification exactly when it is clean and seen as that specification. */
  lemma SameSpec(obj: Object, team: Json, spec: AlertSpec)
    requires spec.policy.Keys == POLICY_FIELDS
    ensures CanonicalForm(Kind.Alert, obj, team) == Ok(AlertObject(spec)) <==> SeenAlert(obj, team).clean && SeenAlert(obj, team).spec == spec
  {
    hide CanonicalForm;
    AlertNotStripped(spec);
    AlertBack(spec, map[]);
    CleanExactly(obj, team);
  }

  lemma FailsOrNot(script: nat -> Fault, from: nat, to: nat)
    requires from < to
    ensures !script(to - 1).Works? ==> Fails(script, from, to)
  {
  }

  lemma ManifestTiles(plan: Manifest)
    requires ValidManifest(plan)
    ensures WellTiles(plan.dashboard.tiles)
  {
  }

  lemma StoredNames(spec: DashboardSpec, stored: DashboardSpec)
    requires Stores(spec, stored)
    ensures stored.name == spec.name
  {
  }
}
