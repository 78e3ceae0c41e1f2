/** Plans of moves from one configuration to another, and what a server looks like while a plan is carried out. */
module VaultPlan {
  import opened Wrappers
  import opened Json
  import opened VaultObjects

  datatype Key = Key(kind: Kind, id: string)

  /** What `Projection` makes of an object: its configuration, or the reason it has none. */
  type Config = Result<Object, ShapeError>

  /** A planned change of one object, in terms of its configuration. */
  datatype Move = Move(key: Key, before: Config, after: Config)

  datatype Status = Preflight | Writing | Complete | Incomplete

  datatype Journal = Journal(status: Status, completed: seq<Move>, inFlight: Option<Move>)

  /** A plan touches each object once and only where something changes. */
  predicate Planned(ops: seq<Move>) {
    && (forall i, j :: 0 <= i < j < |ops| ==> ops[i].key != ops[j].key)
    && (forall i :: 0 <= i < |ops| ==> ops[i].before != ops[i].after)
  }

  lemma UniqueByKey(ops: seq<Move>)
    requires Planned(ops)
    ensures forall a, b :: a in ops && b in ops && a.key == b.key ==> a == b
    ensures forall op :: op in ops ==> op.before != op.after
  {
    forall a, b | a in ops && b in ops && a.key == b.key ensures a == b {
      var i :| 0 <= i < |ops| && ops[i] == a;
      var j :| 0 <= j < |ops| && ops[j] == b;
      assert i == j;
    }
  }

  predicate At(server: map<Key, Config>, key: Key, config: Config) {
    key in server && server[key] == config
  }

  /** The operations still to be written. */
  function Pending(ops: seq<Move>, server: map<Key, Config>): (r: seq<Move>)
    ensures |r| <= |ops|
    ensures forall op :: op in r <==> op in ops && At(server, op.key, op.before)
  {
    if ops == [] then []
    else
      var rest := Pending(ops[..|ops| - 1], server);
      var last := ops[|ops| - 1];
      assert ops == ops[..|ops| - 1] + [last];
      if At(server, last.key, last.before) then rest + [last] else rest
  }

  lemma {:induction false} PendingIsPlanned(ops: seq<Move>, server: map<Key, Config>)
    requires Planned(ops)
    ensures Planned(Pending(ops, server))
  {
    if ops != [] {
      var init, last := ops[..|ops| - 1], ops[|ops| - 1];
      PendingIsPlanned(init, server);
      var rest := Pending(init, server);
      forall i | 0 <= i < |rest| ensures rest[i].key != last.key {
        assert rest[i] in init;
      }
    }
  }

  /** The server after the first operations of `ops` were carried out. */
  function Carried(server: map<Key, Config>, ops: seq<Move>): map<Key, Config> {
    if ops == [] then server
    else Carried(server, ops[..|ops| - 1])[ops[|ops| - 1].key := ops[|ops| - 1].after]
  }

  lemma {:induction false} CarriedElsewhere(server: map<Key, Config>, ops: seq<Move>, key: Key)
    requires forall i :: 0 <= i < |ops| ==> ops[i].key != key
    ensures key in Carried(server, ops) <==> key in server
    ensures key in server ==> Carried(server, ops)[key] == server[key]
  {
    if ops != [] {
      CarriedElsewhere(server, ops[..|ops| - 1], key);
    }
  }

  lemma {:induction false} CarriedHere(server: map<Key, Config>, ops: seq<Move>, i: nat)
    requires Planned(ops) && i < |ops|
    ensures At(Carried(server, ops), ops[i].key, ops[i].after)
  {
    if i < |ops| - 1 {
      CarriedHere(server, ops[..|ops| - 1], i);
    }
  }

  lemma CarriedAt(server: map<Key, Config>, ops: seq<Move>, key: Key)
    requires Planned(ops)
    ensures (forall op :: op in ops ==> op.key != key) ==>
      (key in Carried(server, ops) <==> key in server) && (key in server ==> Carried(server, ops)[key] == server[key])
    ensures forall op :: op in ops && op.key == key ==> At(Carried(server, ops), key, op.after)
  {
    hide Carried;
    if forall op :: op in ops ==> op.key != key {
      forall i | 0 <= i < |ops| ensures ops[i].key != key {
        assert ops[i] in ops;
      }
      CarriedElsewhere(server, ops, key);
    }
    forall op | op in ops && op.key == key ensures At(Carried(server, ops), key, op.after) {
      var i :| 0 <= i < |ops| && ops[i] == op;
      CarriedHere(server, ops, i);
    }
  }

  /** Every object stands where it stood, or where one operation moved it from its `before` to its `after`. */
  ghost predicate BeforeOrAfter(ops: seq<Move>, start: map<Key, Config>, server: map<Key, Config>) {
    && server.Keys == start.Keys
    && forall key :: key in server ==>
      || server[key] == start[key]
      || exists op :: op in ops && op.key == key && start[key] == op.before && server[key] == op.after
  }

  /** Whatever changed is on disk, as completed or as in flight. */
  ghost predicate Evidence(ops: seq<Move>, start: map<Key, Config>, server: map<Key, Config>, disk: Option<Journal>) {
    forall op :: op in ops && op.key in start && op.key in server && server[op.key] != start[op.key] ==>
      disk.Some? && (op in disk.value.completed || disk.value.inFlight == Some(op))
  }

  /** The state after `done` of the pending operations: the server carries them, the journal lists them. */
  lemma CarriedFacts(ops: seq<Move>, start: map<Key, Config>, done: seq<Move>)
    requires Planned(ops) && Planned(done)
    requires forall op :: op in done ==> op in ops && At(start, op.key, op.before)
    ensures BeforeOrAfter(ops, start, Carried(start, done))
    ensures forall op :: op in ops && op.key in start && Carried(start, done)[op.key] != start[op.key] ==> op in done
  {
    var server := Carried(start, done);
    forall key: Key
      ensures key in server <==> key in start
      ensures key in start && server[key] != start[key] ==>
        exists op :: op in done && op.key == key && start[key] == op.before && server[key] == op.after
    {
      CarriedAt(start, done, key);
      if exists op :: op in done && op.key == key {
        var op :| op in done && op.key == key;
      }
    }
    UniqueByKey(ops);
  }

  /** What holds before and after the `i`th pending write. */
  lemma AtStep(ops: seq<Move>, start: map<Key, Config>, pending: seq<Move>, i: nat)
    requires Planned(ops) && pending == Pending(ops, start) && i < |pending|
    ensures At(Carried(start, pending[..i]), pending[i].key, pending[i].before) && pending[i].before != pending[i].after
    ensures Carried(start, pending[..i + 1]) == Carried(start, pending[..i])[pending[i].key := pending[i].after]
    ensures BeforeOrAfter(ops, start, Carried(start, pending[..i])) && BeforeOrAfter(ops, start, Carried(start, pending[..i + 1]))
    ensures forall op :: op in ops && op.key in start && Carried(start, pending[..i])[op.key] != start[op.key] ==> op in pending[..i]
    ensures forall op :: op in ops && op.key in start && Carried(start, pending[..i + 1])[op.key] != start[op.key] ==>
      op in pending[..i] || op == pending[i]
  {
    hide Carried, Pending, BeforeOrAfter;
    PendingIsPlanned(ops, start);
    PrefixIsPlanned(pending, i);
    PrefixIsPlanned(pending, i + 1);
    CarriedPrefix(start, pending, i);
    CarriedFacts(ops, start, pending[..i]);
    CarriedFacts(ops, start, pending[..i + 1]);
    assert pending[i] in pending;
    forall op | op in pending[..i] ensures op.key != pending[i].key {
    }
    CarriedAt(start, pending[..i], pending[i].key);
    assert forall op :: op in pending[..i + 1] ==> op in pending[..i] || op == pending[i];
  }

  /** Wherever the `i`th pending write stops, what changed is on disk. */
  lemma StepEvidence(ops: seq<Move>, start: map<Key, Config>, pending: seq<Move>, i: nat, server: map<Key, Config>, disk: Option<Journal>)
    requires Planned(ops) && pending == Pending(ops, start) && i < |pending|
    requires disk.Some? && pending[..i] <= disk.value.completed
    requires server == Carried(start, pending[..i]) || (
      && server == Carried(start, pending[..i])[pending[i].key := pending[i].after]
      && (pending[i] in disk.value.completed || disk.value.inFlight == Some(pending[i])))
    ensures BeforeOrAfter(ops, start, server) && Evidence(ops, start, server, disk)
  {
    hide Carried, Pending, BeforeOrAfter;
    AtStep(ops, start, pending, i);
    assert forall op :: op in pending[..i] ==> op in disk.value.completed;
  }

  lemma NothingChanged(ops: seq<Move>, server: map<Key, Config>, disk: Option<Journal>)
    ensures BeforeOrAfter(ops, server, server) && Evidence(ops, server, server, disk)
  {
  }

  lemma AllCarried(ops: seq<Move>, start: map<Key, Config>)
    requires Planned(ops) && Settled(ops, start)
    ensures forall op :: op in ops ==> At(Carried(start, Pending(ops, start)), op.key, op.after)
  {
    hide Carried;
    var pending := Pending(ops, start);
    PendingIsPlanned(ops, start);
    UniqueByKey(ops);
    forall op | op in ops ensures At(Carried(start, pending), op.key, op.after) {
      CarriedAt(start, pending, op.key);
    }
  }

  lemma NothingCarried(start: map<Key, Config>)
    ensures Carried(start, []) == start
  {
  }

  lemma CarriedPrefix(start: map<Key, Config>, pending: seq<Move>, i: nat)
    requires i < |pending|
    ensures Carried(start, pending[..i + 1]) == Carried(start, pending[..i])[pending[i].key := pending[i].after]
  {
    assert pending[..i + 1][..i] == pending[..i];
  }

  lemma PrefixIsPlanned(pending: seq<Move>, i: nat)
    requires Planned(pending) && i <= |pending|
    ensures Planned(pending[..i])
  {
  }

  // ----- Reruns -----

  ghost predicate Settled(ops: seq<Move>, server: map<Key, Config>) {
    forall op :: op in ops ==> At(server, op.key, op.before) || At(server, op.key, op.after)
  }

  lemma StillSettled(ops: seq<Move>, start: map<Key, Config>, server: map<Key, Config>)
    requires Planned(ops) && Settled(ops, start) && BeforeOrAfter(ops, start, server)
    ensures Settled(ops, server)
  {
    UniqueByKey(ops);
  }

  lemma RunsCompose(ops: seq<Move>, a: map<Key, Config>, b: map<Key, Config>, c: map<Key, Config>)
    requires Planned(ops) && BeforeOrAfter(ops, a, b) && BeforeOrAfter(ops, b, c)
    ensures BeforeOrAfter(ops, a, c)
  {
    UniqueByKey(ops);
  }
}
