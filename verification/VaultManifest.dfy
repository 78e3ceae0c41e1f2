/** The plan of the vault monitors: what is checked of the manifest's rules and of the snapshots they are about. */
module VaultManifest {
  import opened Wrappers
  import opened Json
  import opened VaultObjects
  import opened VaultPlan
  import opened VaultRepairs

  /** A rule of the manifest: a new predicate for a search, the configuration of the NAV tile, a new message for an alert. */
  datatype Rule =
    | SearchRule(id: string, where: Json)
    | NavRule(id: string, tile: string, config: Object)
    | AlertRule(id: string, policy: Object, message: Json)

  datatype Spec = Spec(team: Json, source: Json, connection: Json)

  /** The full objects, and the ids that the inventories list. */
  datatype Snapshots = Snapshots(objects: map<Key, Object>, inventory: set<Key>)

  const TILE_FIELDS := {"id", "name", "x", "y", "w", "h", "containerId", "tabId", "config"}
  const NAV_FIELDS := {"configType", "displayType", "sourceId", "connectionId", "sqlTemplate", "numberFormat"}

  function Get(obj: Object, field: string): Json {
    if field in obj then obj[field] else Null
  }

  /** What counts as true. */
  predicate Truthy(value: Json) {
    match value
    case Null => false
    case Bool(b) => b
    case Num(n) => n != 0
    case Str(s) => s != ""
    case List(items) => items != []
    case Obj(fields) => fields != map[]
  }

  function KeyFor(rule: Rule): Key {
    match rule
    case SearchRule(id, _) => Key(Search, id)
    case NavRule(id, _, _) => Key(Dashboard, id)
    case AlertRule(id, _, _) => Key(Alert, id)
  }

  predicate SearchFits(spec: Spec, before: Object) {
    && Get(before, "sourceId") == spec.source && Get(before, "filters") == List([])
    && "name" in before && "where" in before && "whereLanguage" in before
  }

  predicate DistinctTileIds(tiles: seq<Json>) {
    && (forall i :: 0 <= i < |tiles| ==> tiles[i].Obj? && "id" in tiles[i].fields)
    && (forall i, j :: 0 <= i < j < |tiles| ==> tiles[i].fields["id"] != tiles[j].fields["id"])
  }

  predicate NavFits(spec: Spec, tile: Object, config: Object) {
    && tile.Keys <= TILE_FIELDS && Get(tile, "config").Obj?
    && var former := Get(tile, "config").fields;
    && Get(former, "configType") == Str("sql") && Get(former, "displayType") == Str("number")
    && Get(former, "sourceId") == spec.source && Get(former, "connectionId") == spec.connection
    && former.Keys <= NAV_FIELDS && config.Keys == former.Keys
  }

  predicate DashboardFits(spec: Spec, before: Object, tile: string, config: Object) {
    && Get(before, "tiles").List? && DistinctTileIds(Tiles(before))
    && var i := TileIndex(Tiles(before), Str(tile));
    && i < |Tiles(before)| && NavFits(spec, Tiles(before)[i].fields, config)
  }

  predicate ChannelFits(channel: Json) {
    && channel.Obj? && channel.fields.Keys == {"type", "webhookId"}
    && channel.fields["type"] == Str("webhook") && Truthy(channel.fields["webhookId"])
  }

  predicate AlertFits(before: Object, policy: Object) {
    && (forall field :: field in policy ==> Get(before, field) == policy[field])
    && ChannelFits(Get(before, "channel"))
    && !(Truthy(Get(before, "groupBy")) && Get(policy, "source") == Str("saved_search") && Get(policy, "thresholdType") == Str("below"))
  }

  /** The checks of a rule against the snapshot of its object. */
  predicate Accepts(spec: Spec, snapshots: Snapshots, rule: Rule) {
    && KeyFor(rule) in snapshots.objects
    && var before := snapshots.objects[KeyFor(rule)];
    && Projection(KeyFor(rule).kind, before).Ok?
    && (rule.NavRule? || (Get(before, "teamId") == spec.team && KeyFor(rule) in snapshots.inventory))
    && match rule
       case SearchRule(_, _) => SearchFits(spec, before)
       case NavRule(_, tile, config) => DashboardFits(spec, before, tile, config)
       case AlertRule(_, policy, _) => AlertFits(before, policy)
  }

  function RepairFor(rule: Rule, before: Object): Repair {
    match rule
    case SearchRule(id, where) => Repair(id, Search, before, Edit(map["where" := where, "whereLanguage" := Str("sql")]))
    case NavRule(id, tile, config) => Repair(id, Dashboard, before, Retile(Str(tile), Obj(config)))
    case AlertRule(id, _, message) => Repair(id, Alert, before, Edit(map["message" := message]))
  }

  function RepairsFor(rules: seq<Rule>, snapshots: Snapshots): seq<Repair>
    requires forall i :: 0 <= i < |rules| ==> KeyFor(rules[i]) in snapshots.objects
  {
    seq(|rules|, i requires 0 <= i < |rules| => RepairFor(rules[i], snapshots.objects[KeyFor(rules[i])]))
  }

  lemma TileHasConfig(tiles: seq<Json>, id: Json)
    ensures var i := TileIndex(tiles, id);
      i < |tiles| && "config" in tiles[i].fields ==> ConfigOf(tiles, id) == Some(tiles[i].fields["config"])
  {
    if TileIndex(tiles, id) < |tiles| && "config" in tiles[TileIndex(tiles, id)].fields { ConfigAt(tiles, id); }
  }

  lemma SearchFieldsSaved()
    ensures {"where", "whereLanguage"} <= SaveFields(Search) && {"message"} <= SaveFields(Alert)
  {
  }

  /** Every accepted rule makes a repair whose calls make sense. Its rollback restores unless it gives a message to an alert
      that has none. */
  lemma AcceptedRepair(spec: Spec, snapshots: Snapshots, rule: Rule)
    requires Accepts(spec, snapshots, rule)
    ensures var r := RepairFor(rule, snapshots.objects[KeyFor(rule)]);
      && KeyOf(r) == KeyFor(rule) && WellFormed(r)
      && (Restorable(r) <==> (rule.AlertRule? ==> "message" in snapshots.objects[KeyFor(rule)]))
  {
    hide Projection, SaveFields;
    SearchFieldsSaved();
    if rule.NavRule? { TileHasConfig(Tiles(snapshots.objects[KeyFor(rule)]), Str(rule.tile)); }
  }

  /** The loops over the rules: refused at the first rule that does not fit, and otherwise exactly the repairs that change
      something. */
  method BuildPlan(spec: Spec, snapshots: Snapshots, rules: seq<Rule>) returns (plan: Option<seq<Repair>>)
    ensures plan.Some? <==> forall i :: 0 <= i < |rules| ==> Accepts(spec, snapshots, rules[i])
    ensures plan.Some? ==> plan.value == PlanOf(RepairsFor(rules, snapshots))
  {
    hide Accepts, Projection, RepairFor, AfterOf;
    var operations := [];
    var i := 0;
    while i < |rules|
      invariant 0 <= i <= |rules|
      invariant forall j :: 0 <= j < i ==> Accepts(spec, snapshots, rules[j]) && KeyFor(rules[j]) in snapshots.objects
      invariant operations == PlanOf(RepairsFor(rules[..i], snapshots))
    {
      if !Accepts(spec, snapshots, rules[i]) { return None; }
      AcceptedKey(spec, snapshots, rules[i]);
      var repair := RepairFor(rules[i], snapshots.objects[KeyFor(rules[i])]);
      assert RepairsFor(rules[..i + 1], snapshots)[..i] == RepairsFor(rules[..i], snapshots);
      if MoveOf(repair).before != MoveOf(repair).after { operations := operations + [repair]; }
      i := i + 1;
    }
    assert rules[..i] == rules;
    plan := Some(operations);
  }

  lemma AcceptedKey(spec: Spec, snapshots: Snapshots, rule: Rule)
    requires Accepts(spec, snapshots, rule)
    ensures KeyFor(rule) in snapshots.objects
  {
  }

  /** Rules about different objects, all accepted, make a sound plan. */
  lemma BuiltPlanIsSound(spec: Spec, snapshots: Snapshots, rules: seq<Rule>)
    requires forall i :: 0 <= i < |rules| ==> Accepts(spec, snapshots, rules[i]) && KeyFor(rules[i]) in snapshots.objects
    requires forall i, j :: 0 <= i < j < |rules| ==> KeyFor(rules[i]) != KeyFor(rules[j])
    ensures Sound(PlanOf(RepairsFor(rules, snapshots)))
    ensures forall r :: r in PlanOf(RepairsFor(rules, snapshots)) ==>
      exists i :: 0 <= i < |rules| && r == RepairFor(rules[i], snapshots.objects[KeyFor(rules[i])])
  {
    hide Accepts, RepairFor, WellFormed, PlanOf, Sound, Restorable, KeyOf;
    var repairs := RepairsFor(rules, snapshots);
    forall i | 0 <= i < |repairs| ensures WellFormed(repairs[i]) && KeyOf(repairs[i]) == KeyFor(rules[i]) {
      AcceptedRepair(spec, snapshots, rules[i]);
    }
    PlanIsSound(repairs);
  }

  /** From every stopping point of every run of a plan built from such rules, replaying its recorded rollbacks restores every
      configuration exactly when each alert that got its new message had one before. */
  lemma BuiltPlanRestores(spec: Spec, snapshots: Snapshots, rules: seq<Rule>, start: Server, server: Server, runtimes: seq<Object>)
    requires forall i :: 0 <= i < |rules| ==> Accepts(spec, snapshots, rules[i]) && KeyFor(rules[i]) in snapshots.objects
    requires forall i, j :: 0 <= i < j < |rules| ==> KeyFor(rules[i]) != KeyFor(rules[j])
    requires var plan := PlanOf(RepairsFor(rules, snapshots));
      && StartsFrom(plan, start) && BeforeOrAfter(Moves(plan), View(start), View(server))
      && |runtimes| == |plan| && forall i :: 0 <= i < |plan| ==> RuntimeOnly(plan[i].kind, runtimes[i])
    ensures var plan := PlanOf(RepairsFor(rules, snapshots));
      && (forall i :: 0 <= i < |plan| ==>
            KeyOf(plan[i]) in server && (plan[i].change.Retile? ==> ConfigOf(Tiles(plan[i].before), plan[i].change.tile).Some?))
      && (View(Replay(server, plan, runtimes)) == View(start) <==>
          forall i :: 0 <= i < |plan| && plan[i].kind.Alert? && Moved(plan[i], server) ==> "message" in plan[i].before)
  {
    hide Accepts, WellFormed, PlanOf, Sound, Projection, RuntimeOnly, View, Replay, BeforeOrAfter, Moved, StartsFrom;
    var plan := PlanOf(RepairsFor(rules, snapshots));
    BuiltPlanIsSound(spec, snapshots, rules);
    ReplayRestoresExactly(plan, start, server, runtimes);
    forall i | 0 <= i < |plan| ensures Restorable(plan[i]) <==> (plan[i].kind.Alert? ==> "message" in plan[i].before) {
      assert plan[i] in plan;
      var k :| 0 <= k < |rules| && plan[i] == RepairFor(rules[k], snapshots.objects[KeyFor(rules[k])]);
      AcceptedRepair(spec, snapshots, rules[k]);
    }
  }

  /** An alert that the plan accepts and that has no message: the repair adds one, and the recorded rollback leaves it there. */
  lemma AlertWitness() returns (spec: Spec, snapshots: Snapshots, rule: Rule, r: Repair, start: Server, repaired: Server)
    ensures Accepts(spec, snapshots, rule) && r == RepairFor(rule, snapshots.objects[KeyFor(rule)]) && WellFormed(r)
    ensures PlanOf([r]) == [r] && Sound([r]) && start == map[KeyOf(r) := r.before] && StartsFrom([r], start)
    ensures repaired == map[KeyOf(r) := Forward(r, r.before, map[])] && BeforeOrAfter(Moves([r]), View(start), View(repaired))
    ensures KeyOf(r) in repaired && !r.change.Retile? && View(Replay(repaired, [r], [map[]])) != View(start)
  {
    hide Projection, Forward, View, WellFormed, RuntimeOnly, BeforeOrAfter, Replay;
    var before;
    spec, before := Spec(Str("t"), Str("s"), Str("c")), MonitoredAlert();
    rule := AlertRule("a", map["source" := Str("tile")], Str("look"));
    snapshots := Snapshots(map[Key(Alert, "a") := before], {Key(Alert, "a")});
    r := RepairFor(rule, before);
    start, repaired := map[KeyOf(r) := before], map[KeyOf(r) := Forward(r, before, map[])];
    MonitoredFits();
    AcceptedRepair(spec, snapshots, rule);
    NoRuntime(Alert);
    AlertMoves(r, start, repaired);
    PlanOfOne(r);
    ReplayRestoresExactly([r], start, repaired, [map[]]);
    assert [r][0] == r && Moved(r, repaired);
  }

  function MonitoredAlert(): Object {
    map["id" := Str("a"), "teamId" := Str("t"), "source" := Str("tile"),
        "channel" := Obj(map["type" := Str("webhook"), "webhookId" := Str("w")])]
  }

  lemma MonitoredFits()
    ensures Projection(Alert, MonitoredAlert()).Ok? && Get(MonitoredAlert(), "teamId") == Str("t") && "message" !in MonitoredAlert()
    ensures AlertFits(MonitoredAlert(), map["source" := Str("tile")])
  {
    hide Projection, ChannelFits;
    var alert := MonitoredAlert();
    assert alert.Keys == {"id", "teamId", "source", "channel"};
    assert alert["channel"] == Obj(map["type" := Str("webhook"), "webhookId" := Str("w")]);
    WebhookFits();
    FewFields(alert);
  }

  lemma WebhookFits()
    ensures ChannelFits(Obj(map["type" := Str("webhook"), "webhookId" := Str("w")]))
  {
    var channel := map["type" := Str("webhook"), "webhookId" := Str("w")];
    assert channel.Keys == {"type", "webhookId"};
  }

  lemma FewFields(alert: Object)
    requires alert.Keys == {"id", "teamId", "source", "channel"}
    ensures Projection(Alert, alert).Ok?
  {
  }

  lemma PlanOfOne(r: Repair)
    requires Sound([r])
    ensures PlanOf([r]) == [r]
  {
    hide Projection, AfterOf, WellFormed;
    assert Moves([r])[0] == MoveOf(r) && [r][..0] == [] && PlanOf([]) == [];
  }
}
