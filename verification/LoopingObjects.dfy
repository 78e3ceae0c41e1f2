/** Dashboards and alerts as JSON objects: how a specification is written, how a stored object is seen, and what a server
    that keeps an object as it was sent makes of it. */
module LoopingObjects {
  import opened Wrappers
  import opened Json
  import opened Seqs
  import opened VaultObjects
  import opened Looping
  import opened LoopingCanonical
  import Text

  function StringAt(obj: Object, key: string): Option<string> {
    if key in obj && obj[key].Str? then Some(obj[key].s) else None
  }

  // ----- Tiles -----

  predicate WellTile(t: Tile) {
    {"id", "name"} !! t.rest.Keys
  }

  predicate WellTiles(tiles: seq<Tile>) {
    forall i :: 0 <= i < |tiles| ==> WellTile(tiles[i])
  }

  function TileJson(t: Tile): Json {
    Obj(t.rest["id" := Str(t.id)]["name" := Str(t.name)])
  }

  predicate IsTile(j: Json) {
    j.Obj? && StringAt(j.fields, "id").Some? && StringAt(j.fields, "name").Some?
  }

  function TileFrom(j: Json): (t: Tile)
    requires IsTile(j)
    ensures WellTile(t)
  {
    Tile(StringAt(j.fields, "id").value, StringAt(j.fields, "name").value, Without(j.fields, {"id", "name"}))
  }

  lemma TileBack(t: Tile, j: Json)
    ensures WellTile(t) ==> IsTile(TileJson(t)) && TileFrom(TileJson(t)) == t
    ensures IsTile(j) ==> TileJson(TileFrom(j)) == j
  {
    if WellTile(t) {
      assert Without(TileJson(t).fields, {"id", "name"}) == t.rest;
    }
    if IsTile(j) {
      assert TileFrom(j).rest["id" := j.fields["id"]]["name" := j.fields["name"]] == j.fields;
    }
  }

  function TileList(tiles: seq<Tile>): Json {
    List(seq(|tiles|, i requires 0 <= i < |tiles| => TileJson(tiles[i])))
  }

  predicate IsTileList(j: Json) {
    j.List? && forall i :: 0 <= i < |j.items| ==> IsTile(j.items[i])
  }

  function TilesFrom(j: Json): seq<Tile>
    requires IsTileList(j)
  {
    seq(|j.items|, i requires 0 <= i < |j.items| => TileFrom(j.items[i]))
  }

  lemma TileListBack(tiles: seq<Tile>, j: Json)
    ensures WellTiles(tiles) ==> IsTileList(TileList(tiles)) && TilesFrom(TileList(tiles)) == tiles
    ensures IsTileList(j) ==> TileList(TilesFrom(j)) == j && WellTiles(TilesFrom(j))
  {
    hide TileJson, IsTile, TileFrom, WellTile;
    if WellTiles(tiles) {
      forall i | 0 <= i < |tiles| ensures IsTile(TileJson(tiles[i])) && TileFrom(TileJson(tiles[i])) == tiles[i] {
        TileBack(tiles[i], Null);
      }
      assert TilesFrom(TileList(tiles)) == tiles;
    }
    if IsTileList(j) {
      var t := TilesFrom(j);
      forall i | 0 <= i < |t| ensures TileJson(t[i]) == j.items[i] && WellTile(t[i]) {
        TileBack(t[i], j.items[i]);
      }
      assert TileList(t).items == j.items;
    }
  }

  // ----- Tags -----

  function TagList(tags: seq<string>): Json {
    List(seq(|tags|, i requires 0 <= i < |tags| => Str(tags[i])))
  }

  predicate IsTagList(j: Json) {
    j.List? && forall i :: 0 <= i < |j.items| ==> j.items[i].Str?
  }

  function TagsFrom(j: Json): seq<string>
    requires IsTagList(j)
  {
    seq(|j.items|, i requires 0 <= i < |j.items| => j.items[i].s)
  }

  lemma TagListBack(tags: seq<string>, j: Json)
    ensures IsTagList(TagList(tags)) && TagsFrom(TagList(tags)) == tags
    ensures IsTagList(j) ==> TagList(TagsFrom(j)) == j
  {
    if IsTagList(j) {
      assert TagList(TagsFrom(j)).items == j.items;
    }
  }

  // ----- Dashboards -----

  function DashboardObject(spec: DashboardSpec): Object {
    map["name" := Str(spec.name), "tags" := TagList(spec.tags), "filters" := spec.filters, "tiles" := TileList(spec.tiles)]
  }

  predicate IsDashboard(form: Object) {
    && form.Keys == {"name", "tags", "filters", "tiles"}
    && form["name"].Str? && IsTagList(form["tags"]) && IsTileList(form["tiles"])
  }

  function DashboardFrom(form: Object): DashboardSpec
    requires IsDashboard(form)
  {
    DashboardSpec(form["name"].s, TagsFrom(form["tags"]), form["filters"], TilesFrom(form["tiles"]))
  }

  /** Objects of the right form and specifications are the same thing. */
  lemma DashboardBack(spec: DashboardSpec, form: Object)
    ensures WellTiles(spec.tiles) ==> IsDashboard(DashboardObject(spec)) && DashboardFrom(DashboardObject(spec)) == spec
    ensures IsDashboard(form) ==> DashboardObject(DashboardFrom(form)) == form && WellTiles(DashboardFrom(form).tiles)
  {
    hide TileList, TagList, IsTileList, IsTagList, TilesFrom, TagsFrom;
    TileListBack(spec.tiles, Null);
    TagListBack(spec.tags, Null);
    if IsDashboard(form) {
      TileListBack([], form["tiles"]);
      TagListBack([], form["tags"]);
      assert DashboardObject(DashboardFrom(form)) == form;
    }
  }

  // ----- Alerts -----

  const ALERT_IDENTITY := {"name", "dashboardId", "tileId"}

  predicate WellAlert(spec: AlertSpec) {
    ALERT_IDENTITY !! spec.policy.Keys
  }

  function AlertObject(spec: AlertSpec): Object {
    spec.policy["name" := Str(spec.name)]["dashboardId" := Str(spec.dashboardId)]["tileId" := Str(spec.tileId)]
  }

  predicate IsAlert(form: Object) {
    StringAt(form, "name").Some? && StringAt(form, "dashboardId").Some? && StringAt(form, "tileId").Some?
  }

  function AlertFrom(form: Object): AlertSpec
    requires IsAlert(form)
  {
    AlertSpec(StringAt(form, "name").value, StringAt(form, "dashboardId").value, StringAt(form, "tileId").value,
              Without(form, ALERT_IDENTITY))
  }

  lemma AlertBack(spec: AlertSpec, form: Object)
    ensures WellAlert(spec) ==> IsAlert(AlertObject(spec)) && AlertFrom(AlertObject(spec)) == spec
    ensures IsAlert(form) ==> AlertObject(AlertFrom(form)) == form && WellAlert(AlertFrom(form))
  {
    if WellAlert(spec) {
      assert Without(AlertObject(spec), ALERT_IDENTITY) == spec.policy;
    }
    if IsAlert(form) {
      assert AlertObject(AlertFrom(form)) == form;
    }
  }

  // ----- Stored objects as they are seen -----

  /** A row of an inventory. */
  predicate IsRow(obj: Object) {
    StringAt(obj, "id").Some? && StringAt(obj, "name").Some?
  }

  function IdOf(obj: Object): string {
    if IsRow(obj) then StringAt(obj, "id").value else ""
  }

  predicate Rows(objs: seq<Object>) {
    && (forall i :: 0 <= i < |objs| ==> IsRow(objs[i]))
    && (forall i, j :: 0 <= i < j < |objs| ==> IdOf(objs[i]) != IdOf(objs[j]))
  }

  function StringOr(text: Option<string>): string {
    if text.Some? then text.value else ""
  }

  function TagsOf(obj: Object): seq<string> {
    if "tags" in obj && obj["tags"].List? then StringsIn(obj["tags"].items) else []
  }

  function StringsIn(items: seq<Json>): seq<string> {
    if items == [] then []
    else StringsIn(items[..|items| - 1]) + if items[|items| - 1].Str? then [items[|items| - 1].s] else []
  }

  /** A dashboard is clean if its canonical form is a specification; otherwise only its identity counts. */
  function SeenDashboard(obj: Object, team: Json): Dashboard {
    var form := CanonicalForm(Kind.Dashboard, obj, team);
    if form.Ok? && IsDashboard(form.value) then StoredDashboard(IdOf(obj), DashboardFrom(form.value), true)
    else StoredDashboard(IdOf(obj), DashboardSpec(StringOr(StringAt(obj, "name")), TagsOf(obj), Null, []), false)
  }

  function SeenAlert(obj: Object, team: Json): Alert {
    var form := CanonicalForm(Kind.Alert, obj, team);
    if form.Ok? && IsAlert(form.value) then StoredAlert(IdOf(obj), AlertFrom(form.value), true)
    else StoredAlert(IdOf(obj), AlertSpec(StringOr(StringAt(obj, "name")), "", StringOr(StringAt(obj, "tileId")), map[]), false)
  }

  /** Clean means exactly that the canonical form is the seen specification. */
  lemma CleanExactly(obj: Object, team: Json)
    ensures SeenDashboard(obj, team).clean <==> CanonicalForm(Kind.Dashboard, obj, team) == Ok(DashboardObject(SeenDashboard(obj, team).spec))
    ensures SeenAlert(obj, team).clean <==> CanonicalForm(Kind.Alert, obj, team) == Ok(AlertObject(SeenAlert(obj, team).spec))
  {
    hide CanonicalForm;
    var d, a := CanonicalForm(Kind.Dashboard, obj, team), CanonicalForm(Kind.Alert, obj, team);
    if d.Ok? { DashboardBack(SeenDashboard(obj, team).spec, d.value); }
    if a.Ok? { AlertBack(SeenAlert(obj, team).spec, a.value); }
  }

  /** The server added only bookkeeping of its own and fields that mean nothing. */
  predicate KeptAs(kind: Kind, sent: Object, stored: Object, team: Json) {
    && Identified(stored) && OwnTeam(kind, stored, team) && OnlyDefaults(kind, stored)
    && sent.Keys <= stored.Keys <= sent.Keys + Stripped(kind) && forall k :: k in sent ==> stored[k] == sent[k]
  }

  lemma DashboardNotStripped(spec: DashboardSpec)
    ensures DashboardObject(spec).Keys !! Stripped(Kind.Dashboard)
  {
  }

  lemma AlertNotStripped(spec: AlertSpec)
    requires spec.policy.Keys == POLICY_FIELDS
    ensures AlertObject(spec).Keys !! Stripped(Kind.Alert) && WellAlert(spec)
  {
  }

  /** A dashboard kept as it was sent is seen as it was sent. */
  lemma KeptDashboardSeen(spec: DashboardSpec, stored: Object, team: Json)
    requires WellTiles(spec.tiles) && KeptAs(Kind.Dashboard, DashboardObject(spec), stored, team)
    ensures IsRow(stored) && SeenDashboard(stored, team) == StoredDashboard(IdOf(stored), spec, true)
  {
    hide CanonicalForm, Stripped, OnlyDefaults;
    DashboardNotStripped(spec);
    CanonicalExactly(Kind.Dashboard, DashboardObject(spec), stored, team);
    DashboardBack(spec, map[]);
    assert "name" in DashboardObject(spec);
  }

  lemma KeptAlertSeen(spec: AlertSpec, stored: Object, team: Json)
    requires spec.policy.Keys == POLICY_FIELDS && KeptAs(Kind.Alert, AlertObject(spec), stored, team)
    ensures IsRow(stored) && SeenAlert(stored, team) == StoredAlert(IdOf(stored), spec, true)
  {
    hide CanonicalForm, Stripped, OnlyDefaults;
    AlertNotStripped(spec);
    CanonicalExactly(Kind.Alert, AlertObject(spec), stored, team);
    AlertBack(spec, map[]);
    assert "name" in AlertObject(spec);
  }

  lemma {:induction false} StringsInTags(items: seq<Json>)
    requires forall i :: 0 <= i < |items| ==> items[i].Str?
    ensures StringsIn(items) == seq(|items|, i requires 0 <= i < |items| => items[i].s)
  {
    if items != [] {
      StringsInTags(items[..|items| - 1]);
    }
  }

  /** The identity of an object is on its inventory row, whether it is clean or not. */
  lemma SeenIdentity(obj: Object, team: Json)
    requires IsRow(obj)
    ensures SeenDashboard(obj, team).id == IdOf(obj) == SeenAlert(obj, team).id
    ensures SeenDashboard(obj, team).spec.name == StringAt(obj, "name").value && SeenDashboard(obj, team).spec.tags == TagsOf(obj)
    ensures SeenAlert(obj, team).spec.name == StringAt(obj, "name").value
    ensures SeenAlert(obj, team).spec.tileId == StringOr(StringAt(obj, "tileId"))
  {
    hide CanonicalForm, IsDashboard, DashboardFrom, IsAlert, AlertFrom;
    DashboardIdentity(obj, team);
    AlertIdentity(obj, team);
  }

  lemma DashboardIdentity(obj: Object, team: Json)
    requires IsRow(obj)
    ensures SeenDashboard(obj, team).spec.name == StringAt(obj, "name").value && SeenDashboard(obj, team).spec.tags == TagsOf(obj)
  {
    hide IsTileList, TilesFrom, Stripped;
    var d := CanonicalForm(Kind.Dashboard, obj, team);
    if d.Ok? && IsDashboard(d.value) {
      assert "tags" in d.value && d.value["tags"] == obj["tags"] && "name" in d.value;
      StringsInTags(obj["tags"].items);
    }
  }

  lemma AlertIdentity(obj: Object, team: Json)
    requires IsRow(obj)
    ensures SeenAlert(obj, team).spec.name == StringAt(obj, "name").value
    ensures SeenAlert(obj, team).spec.tileId == StringOr(StringAt(obj, "tileId"))
  {
    hide Stripped;
    var a := CanonicalForm(Kind.Alert, obj, team);
    if a.Ok? && IsAlert(a.value) {
      assert "name" in a.value && "tileId" in a.value;
    }
  }

  function SeenDashboards(objs: seq<Object>, team: Json): seq<Dashboard> {
    seq(|objs|, i requires 0 <= i < |objs| => SeenDashboard(objs[i], team))
  }

  function SeenAlerts(objs: seq<Object>, team: Json): seq<Alert> {
    seq(|objs|, i requires 0 <= i < |objs| => SeenAlert(objs[i], team))
  }

  // ----- New objects -----

  function TotalId(objs: seq<Object>): nat {
    if objs == [] then 0 else TotalId(objs[..|objs| - 1]) + |IdOf(objs[|objs| - 1])|
  }

  lemma {:induction false} IdsShorter(objs: seq<Object>, i: nat)
    requires i < |objs|
    ensures |IdOf(objs[i])| <= TotalId(objs)
  {
    if i < |objs| - 1 {
      IdsShorter(objs[..|objs| - 1], i);
    }
  }

  /** An id that no object has. */
  function FreshId(objs: seq<Object>): (id: string)
    ensures |id| == TotalId(objs) + 1
  {
    seq(TotalId(objs) + 1, _ => 'n')
  }

  lemma FreshIdIsFresh(objs: seq<Object>)
    ensures FreshId(objs) != "" && forall i :: 0 <= i < |objs| ==> IdOf(objs[i]) != FreshId(objs)
  {
    forall i | 0 <= i < |objs| ensures IdOf(objs[i]) != FreshId(objs) {
      IdsShorter(objs, i);
    }
  }

  /** The tiles under ids of the server's choice. */
  function Renumbered(tiles: seq<Tile>): seq<Tile> {
    seq(|tiles|, i requires 0 <= i < |tiles| => tiles[i].(id := Text.DecimalNat(i)))
  }

  lemma RenumberedDiffer(tiles: seq<Tile>)
    ensures NamedTiles(Renumbered(tiles)) && DistinctIds(Renumbered(tiles))
  {
    hide Text.DecimalNat;
    forall i | 0 <= i < |tiles| ensures Renumbered(tiles)[i].id != "" {
      Text.DecimalNatReadsBack(i);
    }
    forall i, j | 0 <= i < j < |tiles| ensures Renumbered(tiles)[i].id != Renumbered(tiles)[j].id {
      Text.DecimalNatReadsBack(i);
      Text.DecimalNatReadsBack(j);
    }
  }

  function Stamped(sent: Object, id: string, team: Json): Object {
    sent["id" := Str(id)]["teamId" := team]
  }

  lemma StampedIsKept(kind: Kind, sent: Object, id: string, team: Json)
    requires sent.Keys !! Stripped(kind) && id != ""
    ensures KeptAs(kind, sent, Stamped(sent, id, team), team)
  {
    assert "id" in Elements(BOOKKEEPING) by { assert BOOKKEEPING[0] == "id"; }
    OwnKeysDiffer(kind);
    var stored := Stamped(sent, id, team);
    forall i | 0 <= i < |Defaults(kind)| ensures Harmless(Defaults(kind)[i], stored) {
      assert Defaults(kind)[i].key in KeysOf(Defaults(kind));
    }
  }
}
