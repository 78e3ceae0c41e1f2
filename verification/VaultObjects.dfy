/** Saved searches, alerts and dashboards of the monitoring server: which part of an object counts as
    configuration, what a save sends, and what a save or its rollback makes of the live object. */
module VaultObjects {
  import opened Wrappers
  import opened Json

  datatype Kind = Search | Alert | Dashboard

  const SEARCH_FIELDS := {"id", "name", "select", "where", "whereLanguage", "orderBy", "sourceId", "tags", "filters"}
  const ALERT_FIELDS := {"id", "source", "savedSearchId", "dashboardId", "tileId", "groupBy", "threshold", "thresholdType",
                         "thresholdMax", "interval", "scheduleOffsetMinutes", "scheduleStartAt", "channel", "name", "message"}
  const DASH_FIELDS := {"id", "name", "tiles", "tags", "filters", "savedQuery", "savedQueryLanguage", "savedFilterValues"}
  const META := {"teamId", "createdAt", "updatedAt", "url"}
  const ALERT_META := {"state", "executionErrors", "history", "note", "numConsecutiveWindows"}
  const DROPPED := {"createdAt", "updatedAt", "url"} + ALERT_META

  function Fields(kind: Kind): set<string> {
    match kind
    case Search => SEARCH_FIELDS
    case Alert => ALERT_FIELDS
    case Dashboard => DASH_FIELDS
  }

  predicate Absent(obj: Object, field: string) {
    field in obj ==> obj[field] == Null
  }

  datatype ShapeError = UnknownFields | UnsupportedPolicy

  /** The object without some of its fields. */
  function Without(obj: Object, dropped: set<string>): Object {
    map k | k in obj && k !in dropped :: obj[k]
  }

  function Only(obj: Object, fields: set<string>): Object {
    map k | k in obj && k in fields :: obj[k]
  }

  function KnownFields(kind: Kind): set<string> {
    Fields(kind) + META + (if kind.Alert? then ALERT_META else {})
  }

  predicate PolicySupported(kind: Kind, obj: Object) {
    kind.Alert? ==> Absent(obj, "note") && Absent(obj, "numConsecutiveWindows")
  }

  function Projection(kind: Kind, obj: Object): Result<Object, ShapeError> {
    if !(obj.Keys <= KnownFields(kind)) then Err(UnknownFields)
    else if !PolicySupported(kind, obj) then Err(UnsupportedPolicy)
    else Ok(Without(obj, DROPPED))
  }

  /** The fields a save call may carry. */
  function SaveFields(kind: Kind): set<string> {
    if kind.Search? then SEARCH_FIELDS else ALERT_FIELDS
  }

  function SaveArgs(kind: Kind, obj: Object): Object {
    Only(obj, SaveFields(kind))
  }

  /** A save merges its arguments into the stored object; run-time state may move on at the same time. */
  function Saved(live: Object, args: Object, runtime: Object): Object {
    live + args + runtime
  }

  /** Run-time state, without unsupported policy. */
  predicate RuntimeOnly(kind: Kind, runtime: Object) {
    && runtime.Keys <= DROPPED && runtime.Keys <= KnownFields(kind)
    && Absent(runtime, "note") && Absent(runtime, "numConsecutiveWindows")
  }

  lemma SaveFieldsAreConfiguration(kind: Kind)
    requires !kind.Dashboard?
    ensures SaveFields(kind) == Fields(kind) && SaveFields(kind) !! DROPPED
    ensures "note" !in SaveFields(kind) && "numConsecutiveWindows" !in SaveFields(kind)
  {
  }

  /** Merging, in terms of any split of the fields into written and ignored ones. */
  lemma MergeReaches(live: Object, before: Object, edit: Object, runtime: Object, fields: set<string>, ignored: set<string>)
    requires fields !! ignored && runtime.Keys <= ignored && edit.Keys <= fields
    requires Without(live, ignored) == Without(before, ignored)
    ensures Without(live + Only(before + edit, fields) + runtime, ignored) == Without(before + edit, ignored)
  {
    var after := before + edit;
    var saved := live + Only(after, fields) + runtime;
    forall k | k !in ignored
      ensures k in saved <==> k in after
      ensures k in saved ==> saved[k] == after[k]
    {
      SameOutside(live, before, ignored, k);
    }
  }

  lemma SameOutside(a: Object, b: Object, ignored: set<string>, k: string)
    requires Without(a, ignored) == Without(b, ignored) && k !in ignored
    ensures k in a <==> k in b
    ensures k in a ==> a[k] == b[k]
  {
    assert k in a <==> k in Without(a, ignored);
    assert k in b <==> k in Without(b, ignored);
  }

  lemma MergeBack(applied: Object, before: Object, edit: Object, later: Object, fields: set<string>, ignored: set<string>)
    requires fields !! ignored && later.Keys <= ignored && edit.Keys <= fields
    requires Without(applied, ignored) == Without(before + edit, ignored)
    ensures Without(applied + Only(before, fields) + later, ignored) == Without(before, ignored) <==> edit.Keys <= before.Keys
  {
    var restored := applied + Only(before, fields) + later;
    forall k | k !in ignored
      ensures k in restored <==> k in before || k in edit
      ensures k in before ==> restored[k] == before[k]
    {
      SameOutside(applied, before + edit, ignored, k);
    }
    if edit.Keys <= before.Keys {
      assert Without(restored, ignored) == Without(before, ignored);
    } else {
      var k :| k in edit && k !in before;
      assert k in Without(restored, ignored) && k !in Without(before, ignored);
    }
  }

  lemma SavedKeepsShape(kind: Kind, live: Object, args: Object, runtime: Object)
    requires !kind.Dashboard? && RuntimeOnly(kind, runtime) && Projection(kind, live).Ok? && args.Keys <= SaveFields(kind)
    ensures Projection(kind, Saved(live, args, runtime)) == Ok(Without(Saved(live, args, runtime), DROPPED))
  {
    SaveFieldsAreConfiguration(kind);
  }

  /** Saving `after` over a live object that still has the configuration of `before` yields exactly the
      configuration of `after`, whatever evaluations of the monitor changed in the meantime. */
  lemma SaveReachesAfter(kind: Kind, live: Object, before: Object, edit: Object, runtime: Object)
    requires !kind.Dashboard? && RuntimeOnly(kind, runtime)
    requires Projection(kind, live).Ok? && Projection(kind, live) == Projection(kind, before)
    requires edit.Keys <= SaveFields(kind)
    ensures Projection(kind, Saved(live, SaveArgs(kind, before + edit), runtime)) == Projection(kind, before + edit)
  {
    hide Fields, SaveFields, Without, Only;
    SaveFieldsAreConfiguration(kind);
    MergeReaches(live, before, edit, runtime, SaveFields(kind), DROPPED);
    OnlyKeys(before + edit, SaveFields(kind));
    SavedKeepsShape(kind, live, SaveArgs(kind, before + edit), runtime);
  }

  lemma OnlyKeys(obj: Object, fields: set<string>)
    ensures Only(obj, fields).Keys <= fields
  {
  }

  /** The rollback call restores the configuration of `before` exactly when the edit only overwrote fields that
      `before` had: a merging save cannot take a field away again. */
  lemma RollbackRestoresExactly(kind: Kind, live: Object, before: Object, edit: Object, runtime: Object, later: Object)
    requires !kind.Dashboard? && RuntimeOnly(kind, runtime) && RuntimeOnly(kind, later)
    requires Projection(kind, live).Ok? && Projection(kind, live) == Projection(kind, before)
    requires edit.Keys <= SaveFields(kind)
    ensures var applied := Saved(live, SaveArgs(kind, before + edit), runtime);
      Projection(kind, Saved(applied, SaveArgs(kind, before), later)) == Projection(kind, before) <==> edit.Keys <= before.Keys
  {
    hide Fields, SaveFields, Without, Only;
    SaveFieldsAreConfiguration(kind);
    var applied := Saved(live, SaveArgs(kind, before + edit), runtime);
    MergeReaches(live, before, edit, runtime, SaveFields(kind), DROPPED);
    OnlyKeys(before + edit, SaveFields(kind));
    OnlyKeys(before, SaveFields(kind));
    SavedKeepsShape(kind, live, SaveArgs(kind, before + edit), runtime);
    SavedKeepsShape(kind, applied, SaveArgs(kind, before), later);
    MergeBack(applied, before, edit, later, SaveFields(kind), DROPPED);
  }

  /** The search repair rewrites the predicate of a search that has one, so its rollback always restores. */
  lemma SearchRollback(live: Object, before: Object, predicateText: Json, runtime: Object, later: Object)
    requires RuntimeOnly(Search, runtime) && RuntimeOnly(Search, later)
    requires Projection(Search, live).Ok? && Projection(Search, live) == Projection(Search, before)
    requires "where" in before && "whereLanguage" in before
    ensures var edit: Object := map["where" := predicateText, "whereLanguage" := Str("sql")];
      var applied := Saved(live, SaveArgs(Search, before + edit), runtime);
      && Projection(Search, applied) == Projection(Search, before + edit)
      && Projection(Search, Saved(applied, SaveArgs(Search, before), later)) == Projection(Search, before)
  {
    hide Projection;
    var edit: Object := map["where" := predicateText, "whereLanguage" := Str("sql")];
    SaveReachesAfter(Search, live, before, edit, runtime);
    RollbackRestoresExactly(Search, live, before, edit, runtime, later);
  }

  /** The alert repair sets a message; its rollback restores exactly the alerts that had one. */
  lemma AlertRollback(live: Object, before: Object, message: Json, runtime: Object, later: Object)
    requires RuntimeOnly(Alert, runtime) && RuntimeOnly(Alert, later)
    requires Projection(Alert, live).Ok? && Projection(Alert, live) == Projection(Alert, before)
    ensures var edit: Object := map["message" := message];
      var applied := Saved(live, SaveArgs(Alert, before + edit), runtime);
      && Projection(Alert, applied) == Projection(Alert, before + edit)
      && (Projection(Alert, Saved(applied, SaveArgs(Alert, before), later)) == Projection(Alert, before) <==> "message" in before)
  {
    hide Projection;
    var edit: Object := map["message" := message];
    SaveReachesAfter(Alert, live, before, edit, runtime);
    RollbackRestoresExactly(Alert, live, before, edit, runtime, later);
  }

  // ----- The one patched dashboard tile -----

  predicate HasId(tile: Json, id: Json) {
    tile.Obj? && "id" in tile.fields && tile.fields["id"] == id
  }

  /** Replaces the configuration of the first tile with the given id. */
  function PatchTile(tiles: seq<Json>, id: Json, config: Json): seq<Json> {
    if tiles == [] then []
    else if HasId(tiles[0], id) then [Obj(tiles[0].fields["config" := config])] + tiles[1..]
    else [tiles[0]] + PatchTile(tiles[1..], id, config)
  }

  function ConfigOf(tiles: seq<Json>, id: Json): Option<Json> {
    if tiles == [] then None
    else if HasId(tiles[0], id) then
      if "config" in tiles[0].fields then Some(tiles[0].fields["config"]) else None
    else ConfigOf(tiles[1..], id)
  }

  /** The first tile with an id. */
  function TileIndex(tiles: seq<Json>, id: Json): (i: nat)
    ensures i <= |tiles| && (i < |tiles| ==> HasId(tiles[i], id)) && forall j :: 0 <= j < i ==> !HasId(tiles[j], id)
  {
    if tiles == [] || HasId(tiles[0], id) then 0 else 1 + TileIndex(tiles[1..], id)
  }

  lemma {:induction false} PatchAt(tiles: seq<Json>, id: Json, config: Json)
    ensures var i := TileIndex(tiles, id);
      PatchTile(tiles, id, config) == if i < |tiles| then tiles[i := Obj(tiles[i].fields["config" := config])] else tiles
  {
    hide HasId;
    if tiles != [] && !HasId(tiles[0], id) {
      PatchAt(tiles[1..], id, config);
      assert tiles == [tiles[0]] + tiles[1..];
    }
  }

  lemma {:induction false} ConfigAt(tiles: seq<Json>, id: Json)
    ensures var i := TileIndex(tiles, id);
      ConfigOf(tiles, id) == if i < |tiles| && "config" in tiles[i].fields then Some(tiles[i].fields["config"]) else None
  {
    if tiles != [] && !HasId(tiles[0], id) {
      ConfigAt(tiles[1..], id);
    }
  }

  lemma IndexAt(tiles: seq<Json>, id: Json, i: nat)
    requires i < |tiles| && HasId(tiles[i], id) && forall j :: 0 <= j < i ==> !HasId(tiles[j], id)
    ensures TileIndex(tiles, id) == i
  {
    hide TileIndex, HasId;
    var k := TileIndex(tiles, id);
    assert k <= i && i <= k;
  }

  /** A patch changes one configuration and nothing else on the dashboard, and patching the old configuration
      back restores every tile. */
  lemma PatchRollback(tiles: seq<Json>, id: Json, config: Json)
    requires ConfigOf(tiles, id).Some?
    ensures var i := TileIndex(tiles, id);
      i < |tiles| && PatchTile(tiles, id, config) == tiles[i := Obj(tiles[i].fields["config" := config])]
    ensures ConfigOf(PatchTile(tiles, id, config), id) == Some(config)
    ensures PatchTile(PatchTile(tiles, id, config), id, ConfigOf(tiles, id).value) == tiles
  {
    hide TileIndex, PatchTile, ConfigOf;
    PatchAt(tiles, id, config);
    ConfigAt(tiles, id);
    var i, patched := TileIndex(tiles, id), PatchTile(tiles, id, config);
    IndexAt(patched, id, i);
    ConfigAt(patched, id);
    PatchAt(patched, id, ConfigOf(tiles, id).value);
    assert patched[i].fields["config" := tiles[i].fields["config"]] == tiles[i].fields;
  }
}
