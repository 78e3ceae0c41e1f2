/** The repairs of the vault monitors as they are sent: whole saves of searches and alerts, and one patched tile. What
    they and their recorded rollbacks make of the server's objects. */
module VaultRepairs {
  import opened Wrappers
  import opened Json
  import opened VaultObjects
  import opened VaultPlan

  /** A save overwrites and adds fields; the patch replaces the configuration of one tile. */
  datatype Change = Edit(edit: Object) | Retile(tile: Json, config: Json)

  datatype Repair = Repair(id: string, kind: Kind, before: Object, change: Change)

  function KeyOf(r: Repair): Key {
    Key(r.kind, r.id)
  }

  function Tiles(obj: Object): seq<Json> {
    if "tiles" in obj && obj["tiles"].List? then obj["tiles"].items else []
  }

  function Retiled(obj: Object, tile: Json, config: Json): Object {
    obj["tiles" := List(PatchTile(Tiles(obj), tile, config))]
  }

  /** What a repair needs for its calls to make sense: a readable object, fields that a save carries, a tile to patch. */
  ghost predicate WellFormed(r: Repair) {
    && Projection(r.kind, r.before).Ok?
    && (r.change.Edit? ==> !r.kind.Dashboard? && r.change.edit.Keys <= SaveFields(r.kind))
    && (r.change.Retile? ==>
          && r.kind.Dashboard? && "tiles" in r.before && r.before["tiles"].List?
          && ConfigOf(Tiles(r.before), r.change.tile).Some?)
  }

  function AfterOf(r: Repair): Object {
    match r.change
    case Edit(edit) => r.before + edit
    case Retile(tile, config) => Retiled(r.before, tile, config)
  }

  function MoveOf(r: Repair): Move {
    Move(KeyOf(r), Projection(r.kind, r.before), Projection(r.kind, AfterOf(r)))
  }

  /** The call that makes the repair, on a live object; run-time state may move on at the same time. */
  function Forward(r: Repair, live: Object, runtime: Object): Object {
    match r.change
    case Edit(_) => Saved(live, SaveArgs(r.kind, AfterOf(r)), runtime)
    case Retile(tile, config) => Retiled(live, tile, config) + runtime
  }

  /** The recorded rollback call. */
  function Backward(r: Repair, live: Object, runtime: Object): Object
    requires r.change.Retile? ==> ConfigOf(Tiles(r.before), r.change.tile).Some?
  {
    match r.change
    case Edit(_) => Saved(live, SaveArgs(r.kind, r.before), runtime)
    case Retile(tile, _) => Retiled(live, tile, ConfigOf(Tiles(r.before), tile).value) + runtime
  }

  /** A rollback can only overwrite: it restores an edit that overwrote, not one that added a field. */
  predicate Restorable(r: Repair) {
    r.change.Edit? ==> r.change.edit.Keys <= r.before.Keys
  }

  // ----- One object -----

  lemma SameTiles(a: Object, b: Object, kind: Kind)
    requires Projection(kind, a).Ok? && Projection(kind, a) == Projection(kind, b)
    ensures ("tiles" in a <==> "tiles" in b) && Tiles(a) == Tiles(b)
  {
    hide KnownFields;
    SameOutside(a, b, DROPPED, "tiles");
  }

  /** Patching the tiles of two objects with the same configuration gives the same configuration. */
  lemma RetiledSame(live: Object, other: Object, runtime: Object, tile: Json, config: Json)
    requires Projection(Dashboard, live).Ok? && Projection(Dashboard, live) == Projection(Dashboard, other)
    requires RuntimeOnly(Dashboard, runtime)
    ensures Projection(Dashboard, Retiled(live, tile, config) + runtime) == Projection(Dashboard, Retiled(other, tile, config))
    ensures Projection(Dashboard, Retiled(other, tile, config)).Ok?
  {
    hide PatchTile;
    SameTiles(live, other, Dashboard);
    var a, b := Retiled(live, tile, config) + runtime, Retiled(other, tile, config);
    forall k: string | k !in DROPPED
      ensures k in a <==> k in b
      ensures k in a ==> a[k] == b[k]
    {
      SameOutside(live, other, DROPPED, k);
    }
    assert Without(a, DROPPED) == Without(b, DROPPED);
  }

  lemma RetiledBack(before: Object, tile: Json, config: Json)
    requires "tiles" in before && before["tiles"].List? && ConfigOf(Tiles(before), tile).Some?
    ensures Retiled(Retiled(before, tile, config), tile, ConfigOf(Tiles(before), tile).value) == before
  {
    PatchRollback(Tiles(before), tile, config);
  }

  lemma EditedOk(r: Repair)
    requires WellFormed(r) && r.change.Edit?
    ensures Projection(r.kind, AfterOf(r)).Ok?
  {
    SaveFieldsAreConfiguration(r.kind);
  }

  /** The repair call takes an object from the old configuration to the planned one. */
  lemma ForwardReaches(r: Repair, live: Object, runtime: Object)
    requires WellFormed(r) && RuntimeOnly(r.kind, runtime) && Projection(r.kind, live) == Projection(r.kind, r.before)
    ensures Projection(r.kind, Forward(r, live, runtime)) == Projection(r.kind, AfterOf(r))
    ensures Projection(r.kind, AfterOf(r)).Ok?
  {
    hide Projection, RuntimeOnly, Retiled, Saved, SaveArgs, SaveFields;
    if r.change.Edit? {
      SaveReachesAfter(r.kind, live, r.before, r.change.edit, runtime);
      EditedOk(r);
    } else {
      RetiledSame(live, r.before, runtime, r.change.tile, r.change.config);
    }
  }

  /** The rollback call leaves an object alone that was never repaired. */
  lemma BackwardKeeps(r: Repair, live: Object, runtime: Object)
    requires WellFormed(r) && RuntimeOnly(r.kind, runtime) && Projection(r.kind, live) == Projection(r.kind, r.before)
    ensures Projection(r.kind, Backward(r, live, runtime)) == Projection(r.kind, r.before)
  {
    hide Projection, RuntimeOnly, Retiled, Saved, SaveArgs, SaveFields, PatchTile;
    if r.change.Edit? {
      assert r.before + map[] == r.before;
      SaveReachesAfter(r.kind, live, r.before, map[], runtime);
    } else {
      var former := ConfigOf(Tiles(r.before), r.change.tile).value;
      RetiledSame(live, r.before, runtime, r.change.tile, former);
      RetiledToItself(r.before, r.change.tile);
    }
  }

  lemma RetiledToItself(before: Object, tile: Json)
    requires "tiles" in before && before["tiles"].List? && ConfigOf(Tiles(before), tile).Some?
    ensures Retiled(before, tile, ConfigOf(Tiles(before), tile).value) == before
  {
    hide PatchTile, ConfigOf;
    var former := ConfigOf(Tiles(before), tile).value;
    PatchAt(Tiles(before), tile, former);
    ConfigAt(Tiles(before), tile);
    var i := TileIndex(Tiles(before), tile);
    assert Tiles(before)[i].fields["config" := former] == Tiles(before)[i].fields;
    assert PatchTile(Tiles(before), tile, former) == Tiles(before);
    assert List(Tiles(before)) == before["tiles"];
  }

  /** And restores one that was, exactly when the repair only overwrote. */
  lemma BackwardRestores(r: Repair, live: Object, runtime: Object)
    requires WellFormed(r) && RuntimeOnly(r.kind, runtime) && Projection(r.kind, live) == Projection(r.kind, AfterOf(r))
    ensures Projection(r.kind, Backward(r, live, runtime)) == Projection(r.kind, r.before) <==> Restorable(r)
  {
    if r.change.Edit? {
      EditBack(r, live, runtime);
    } else {
      hide Projection, RuntimeOnly, Retiled;
      RetileBack(r, live, runtime);
    }
  }

  lemma EditBack(r: Repair, live: Object, runtime: Object)
    requires WellFormed(r) && RuntimeOnly(r.kind, runtime) && r.change.Edit?
    requires Projection(r.kind, live) == Projection(r.kind, AfterOf(r))
    ensures Projection(r.kind, Backward(r, live, runtime)) == Projection(r.kind, r.before) <==> Restorable(r)
  {
    hide Fields, SaveFields, Without, Only, RuntimeOnly;
    SaveFieldsAreConfiguration(r.kind);
    EditedOk(r);
    OnlyKeys(r.before, SaveFields(r.kind));
    RuntimeKeys(r.kind, runtime);
    SavedKeepsShape(r.kind, live, SaveArgs(r.kind, r.before), runtime);
    MergeBack(live, r.before, r.change.edit, runtime, SaveFields(r.kind), DROPPED);
  }

  lemma RuntimeKeys(kind: Kind, runtime: Object)
    requires RuntimeOnly(kind, runtime)
    ensures runtime.Keys <= DROPPED
  {
  }

  lemma RetileBack(r: Repair, live: Object, runtime: Object)
    requires WellFormed(r) && RuntimeOnly(r.kind, runtime) && r.change.Retile?
    requires Projection(r.kind, live) == Projection(r.kind, AfterOf(r))
    ensures Projection(r.kind, Backward(r, live, runtime)) == Projection(r.kind, r.before)
  {
    hide Projection, RuntimeOnly, Retiled;
    var tile, config := r.change.tile, r.change.config;
    var former := ConfigOf(Tiles(r.before), tile).value;
    NoRuntime(r.kind);
    ForwardReaches(r, r.before, map[]);
    RetiledSame(live, AfterOf(r), runtime, tile, former);
    RetiledBack(r.before, tile, config);
  }

  lemma NoRuntime(kind: Kind)
    ensures RuntimeOnly(kind, map[])
  {
  }

  // ----- The plan -----

  /** `add` plans a repair only where it changes the configuration. */
  function PlanOf(repairs: seq<Repair>): seq<Repair> {
    if repairs == [] then []
    else
      var last := repairs[|repairs| - 1];
      PlanOf(repairs[..|repairs| - 1]) + if MoveOf(last).before == MoveOf(last).after then [] else [last]
  }

  function Moves(repairs: seq<Repair>): seq<Move> {
    seq(|repairs|, i requires 0 <= i < |repairs| => MoveOf(repairs[i]))
  }

  /** Repairs of different objects, each of which changes something. */
  ghost predicate Sound(repairs: seq<Repair>) {
    (forall i :: 0 <= i < |repairs| ==> WellFormed(repairs[i])) && Planned(Moves(repairs))
  }

  lemma {:induction false} PlanIsSound(repairs: seq<Repair>)
    requires forall i :: 0 <= i < |repairs| ==> WellFormed(repairs[i])
    requires forall i, j :: 0 <= i < j < |repairs| ==> KeyOf(repairs[i]) != KeyOf(repairs[j])
    ensures Sound(PlanOf(repairs))
    ensures forall r :: r in PlanOf(repairs) <==> r in repairs && MoveOf(r).before != MoveOf(r).after
  {
    hide WellFormed, Projection, AfterOf;
    if repairs != [] {
      var init, last := repairs[..|repairs| - 1], repairs[|repairs| - 1];
      PlanIsSound(init);
      var rest := PlanOf(init);
      assert repairs == init + [last];
      forall i | 0 <= i < |rest| ensures KeyOf(rest[i]) != KeyOf(last) {
        assert rest[i] in rest && rest[i] in init;
      }
      if MoveOf(last).before != MoveOf(last).after {
        OneMoreSound(rest, last);
      } else {
        assert PlanOf(repairs) == rest;
      }
    }
  }

  lemma OneMoreSound(rest: seq<Repair>, last: Repair)
    requires Sound(rest) && WellFormed(last) && MoveOf(last).before != MoveOf(last).after
    requires forall i :: 0 <= i < |rest| ==> KeyOf(rest[i]) != KeyOf(last)
    ensures Sound(rest + [last])
  {
    hide WellFormed, Projection, AfterOf;
    assert Moves(rest + [last]) == Moves(rest) + [MoveOf(last)];
    forall i | 0 <= i < |rest| ensures Moves(rest)[i].key != KeyOf(last) {
    }
  }

  // ----- The server -----

  type Server = map<Key, Object>

  /** What reading every object of the server gives. */
  function View(server: Server): map<Key, Config> {
    map key | key in server :: Projection(key.kind, server[key])
  }

  /** The rollback calls replayed in reverse order of the plan, each while run-time state may move on. */
  function Replay(server: Server, repairs: seq<Repair>, runtimes: seq<Object>): Server
    requires |runtimes| == |repairs|
    requires forall i :: 0 <= i < |repairs| ==>
      KeyOf(repairs[i]) in server && (repairs[i].change.Retile? ==> ConfigOf(Tiles(repairs[i].before), repairs[i].change.tile).Some?)
    decreases |repairs|
  {
    if repairs == [] then server
    else
      var n := |repairs| - 1;
      var last := repairs[n];
      Replay(server[KeyOf(last) := Backward(last, server[KeyOf(last)], runtimes[n])], repairs[..n], runtimes[..n])
  }

  lemma {:induction false} ReplayAt(server: Server, repairs: seq<Repair>, runtimes: seq<Object>, key: Key)
    requires |runtimes| == |repairs| && key in server
    requires forall i, j :: 0 <= i < j < |repairs| ==> KeyOf(repairs[i]) != KeyOf(repairs[j])
    requires forall i :: 0 <= i < |repairs| ==>
      KeyOf(repairs[i]) in server && (repairs[i].change.Retile? ==> ConfigOf(Tiles(repairs[i].before), repairs[i].change.tile).Some?)
    ensures Replay(server, repairs, runtimes).Keys == server.Keys
    ensures forall i :: 0 <= i < |repairs| && KeyOf(repairs[i]) == key ==>
      Replay(server, repairs, runtimes)[key] == Backward(repairs[i], server[key], runtimes[i])
    ensures (forall i :: 0 <= i < |repairs| ==> KeyOf(repairs[i]) != key) ==> Replay(server, repairs, runtimes)[key] == server[key]
    decreases |repairs|
  {
    hide Backward, ConfigOf;
    if repairs != [] {
      var n := |repairs| - 1;
      var next := server[KeyOf(repairs[n]) := Backward(repairs[n], server[KeyOf(repairs[n])], runtimes[n])];
      ReplayAt(next, repairs[..n], runtimes[..n], key);
    }
  }

  /** The object of a repair is at its new configuration. */
  predicate Moved(r: Repair, server: Server) {
    KeyOf(r) in server && Projection(r.kind, server[KeyOf(r)]) == Projection(r.kind, AfterOf(r))
  }

  /** Every repair starts from the configuration it was planned for. */
  ghost predicate StartsFrom(repairs: seq<Repair>, start: Server) {
    forall i :: 0 <= i < |repairs| ==>
      KeyOf(repairs[i]) in start && Projection(repairs[i].kind, start[KeyOf(repairs[i])]) == Projection(repairs[i].kind, repairs[i].before)
  }

  lemma ViewAt(server: Server, key: Key)
    ensures key in View(server) <==> key in server
    ensures key in server ==> View(server)[key] == Projection(key.kind, server[key])
  {
    hide Projection;
  }

  /** A planned object stands at its old or at its new configuration. */
  lemma EitherPlace(repairs: seq<Repair>, start: Server, server: Server, i: nat)
    requires Sound(repairs) && StartsFrom(repairs, start) && BeforeOrAfter(Moves(repairs), View(start), View(server)) && i < |repairs|
    ensures KeyOf(repairs[i]) in server
    ensures Moved(repairs[i], server) || Projection(repairs[i].kind, server[KeyOf(repairs[i])]) == Projection(repairs[i].kind, repairs[i].before)
    ensures !(Moved(repairs[i], server) && Projection(repairs[i].kind, server[KeyOf(repairs[i])]) == Projection(repairs[i].kind, repairs[i].before))
  {
    hide Projection, AfterOf, WellFormed;
    var r, key := repairs[i], KeyOf(repairs[i]);
    ViewAt(start, key);
    ViewAt(server, key);
    assert key in View(start).Keys && key in View(server).Keys;
    UniqueByKey(Moves(repairs));
    assert Moves(repairs)[i] == MoveOf(r) && MoveOf(r) in Moves(repairs);
  }

  /** One replayed rollback restores its object exactly when it was not repaired or the repair only overwrote. */
  lemma ReplayOne(repairs: seq<Repair>, start: Server, server: Server, runtimes: seq<Object>, i: nat)
    requires Sound(repairs) && StartsFrom(repairs, start) && BeforeOrAfter(Moves(repairs), View(start), View(server))
    requires |runtimes| == |repairs| && i < |repairs| && RuntimeOnly(repairs[i].kind, runtimes[i])
    ensures KeyOf(repairs[i]) in server && KeyOf(repairs[i]) in start
    ensures var r, key := repairs[i], KeyOf(repairs[i]);
      (Projection(r.kind, Backward(r, server[key], runtimes[i])) == Projection(r.kind, start[key]))
      <==> (Moved(r, server) ==> Restorable(r))
  {
    hide Projection, RuntimeOnly, Backward, Restorable, BeforeOrAfter, Moves, Planned;
    var r := repairs[i];
    EitherPlace(repairs, start, server, i);
    if Moved(r, server) {
      BackwardRestores(r, server[KeyOf(r)], runtimes[i]);
    } else {
      BackwardKeeps(r, server[KeyOf(r)], runtimes[i]);
    }
  }

  lemma KeysDiffer(repairs: seq<Repair>)
    requires Sound(repairs)
    ensures forall i, j :: 0 <= i < j < |repairs| ==> KeyOf(repairs[i]) != KeyOf(repairs[j])
    ensures forall i :: 0 <= i < |repairs| ==>
      (repairs[i].change.Retile? ==> ConfigOf(Tiles(repairs[i].before), repairs[i].change.tile).Some?)
  {
    hide Projection, AfterOf, ConfigOf;
    forall i, j | 0 <= i < j < |repairs| ensures KeyOf(repairs[i]) != KeyOf(repairs[j]) {
      assert Moves(repairs)[i].key != Moves(repairs)[j].key;
    }
  }

  lemma SameViews(a: Server, b: Server)
    ensures View(a) == View(b) <==>
      a.Keys == b.Keys && forall key :: key in a && key in b ==> Projection(key.kind, a[key]) == Projection(key.kind, b[key])
  {
    hide Projection;
    assert View(a).Keys == a.Keys && View(b).Keys == b.Keys;
    if View(a) == View(b) {
      forall key | key in a && key in b ensures Projection(key.kind, a[key]) == Projection(key.kind, b[key]) {
        assert View(a)[key] == View(b)[key];
      }
    }
  }

  lemma SameKeys(repairs: seq<Repair>, start: Server, server: Server)
    requires BeforeOrAfter(Moves(repairs), View(start), View(server))
    ensures server.Keys == start.Keys
  {
    hide Projection;
    assert View(start).Keys == start.Keys && View(server).Keys == server.Keys;
  }

  /** An object outside the plan keeps its configuration. */
  lemma OthersStay(repairs: seq<Repair>, start: Server, server: Server, key: Key)
    requires BeforeOrAfter(Moves(repairs), View(start), View(server)) && key in start && key in server
    ensures (forall i :: 0 <= i < |repairs| ==> KeyOf(repairs[i]) != key) ==> Projection(key.kind, server[key]) == Projection(key.kind, start[key])
  {
    hide Projection;
    ViewAt(start, key);
    ViewAt(server, key);
    assert key in View(server);
    forall m | m in Moves(repairs) ensures exists i :: 0 <= i < |repairs| && KeyOf(repairs[i]) == m.key {
      var i :| 0 <= i < |repairs| && Moves(repairs)[i] == m;
    }
  }

  lemma {:induction false} ReplayKeys(server: Server, repairs: seq<Repair>, runtimes: seq<Object>)
    requires |runtimes| == |repairs|
    requires forall i :: 0 <= i < |repairs| ==>
      KeyOf(repairs[i]) in server && (repairs[i].change.Retile? ==> ConfigOf(Tiles(repairs[i].before), repairs[i].change.tile).Some?)
    ensures Replay(server, repairs, runtimes).Keys == server.Keys
    decreases |repairs|
  {
    hide Backward, ConfigOf;
    if repairs != [] {
      var n := |repairs| - 1;
      ReplayKeys(server[KeyOf(repairs[n]) := Backward(repairs[n], server[KeyOf(repairs[n])], runtimes[n])], repairs[..n], runtimes[..n]);
    }
  }

  /** From every stopping point of every run, replaying the recorded rollbacks restores every configuration the plan was
      made for exactly when each repair that took effect only overwrote fields its object had. */
  lemma ReplayRestoresExactly(repairs: seq<Repair>, start: Server, server: Server, runtimes: seq<Object>)
    requires Sound(repairs) && StartsFrom(repairs, start) && BeforeOrAfter(Moves(repairs), View(start), View(server))
    requires |runtimes| == |repairs| && forall i :: 0 <= i < |repairs| ==> RuntimeOnly(repairs[i].kind, runtimes[i])
    ensures forall i :: 0 <= i < |repairs| ==>
      KeyOf(repairs[i]) in server && (repairs[i].change.Retile? ==> ConfigOf(Tiles(repairs[i].before), repairs[i].change.tile).Some?)
    ensures View(Replay(server, repairs, runtimes)) == View(start) <==>
      forall i :: 0 <= i < |repairs| && Moved(repairs[i], server) ==> Restorable(repairs[i])
  {
    hide Replay, Projection, RuntimeOnly, Backward, Restorable, Moved, View, BeforeOrAfter;
    KeysDiffer(repairs);
    forall i | 0 <= i < |repairs| ensures KeyOf(repairs[i]) in server {
      EitherPlace(repairs, start, server, i);
    }
    var replayed := Replay(server, repairs, runtimes);
    SameKeys(repairs, start, server);
    forall key | key in start
      ensures key in replayed
      ensures (forall i :: 0 <= i < |repairs| ==> KeyOf(repairs[i]) != key) ==>
        Projection(key.kind, replayed[key]) == Projection(key.kind, start[key])
      ensures forall i :: 0 <= i < |repairs| && KeyOf(repairs[i]) == key ==>
        (Projection(key.kind, replayed[key]) == Projection(key.kind, start[key]) <==> (Moved(repairs[i], server) ==> Restorable(repairs[i])))
    {
      ReplayAt(server, repairs, runtimes, key);
      OthersStay(repairs, start, server, key);
      forall i | 0 <= i < |repairs| && KeyOf(repairs[i]) == key
        ensures Projection(key.kind, replayed[key]) == Projection(key.kind, start[key]) <==> (Moved(repairs[i], server) ==> Restorable(repairs[i]))
      {
        ReplayOne(repairs, start, server, runtimes, i);
      }
    }
    ReplayKeys(server, repairs, runtimes);
    SameViews(replayed, start);
    if View(replayed) == View(start) {
      forall i | 0 <= i < |repairs| && Moved(repairs[i], server) ensures Restorable(repairs[i]) {
        assert KeyOf(repairs[i]) in start;
      }
    }
  }

  lemma AlertMoves(r: Repair, start: Server, repaired: Server)
    requires WellFormed(r) && r.change.Edit? && "message" in r.change.edit && "message" !in r.before
    requires RuntimeOnly(r.kind, map[])
    requires start == map[KeyOf(r) := r.before] && repaired == map[KeyOf(r) := Forward(r, r.before, map[])]
    ensures Sound([r]) && StartsFrom([r], start) && Moved(r, repaired) && !Restorable(r)
    ensures BeforeOrAfter(Moves([r]), View(start), View(repaired))
  {
    hide RuntimeOnly, Forward, WellFormed, Projection, AfterOf, View;
    ForwardReaches(r, r.before, map[]);
    MessageShows(r);
    ViewAt(start, KeyOf(r));
    ViewAt(repaired, KeyOf(r));
    ViewKeys(start);
    ViewKeys(repaired);
    assert Moves([r]) == [MoveOf(r)] && MoveOf(r) in Moves([r]);
  }

  lemma ViewKeys(server: Server)
    ensures View(server).Keys == server.Keys
  {
    hide Projection;
  }

  lemma MessageShows(r: Repair)
    requires WellFormed(r) && r.change.Edit? && "message" in r.change.edit && "message" !in r.before
    ensures Projection(r.kind, AfterOf(r)) != Projection(r.kind, r.before)
  {
    hide KnownFields;
    var after, before := Without(AfterOf(r), DROPPED), Without(r.before, DROPPED);
    assert "message" in after.Keys && "message" !in before.Keys;
  }
}
