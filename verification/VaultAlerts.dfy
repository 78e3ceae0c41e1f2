/** The journaled repair of existing monitors: preflight, recorded intent, write, read-back, completion, against
    a server and a disk that can fail at every step. */
module VaultAlerts {
  import opened Wrappers
  import opened Faults
  import opened Json
  import opened VaultObjects
  import opened VaultPlan
  import opened VaultRepairs

  /** A drifted object has neither configuration of its repair, or is missing, or has an unknown shape. */
  datatype Outcome = Applied(count: nat) | Drift | Interrupted

  /** The preflight of a plan, in terms of the moves it leaves to do. */
  lemma {:induction false} PendingMoves(repairs: seq<Repair>, pending: seq<Repair>, view: map<Key, Config>)
    requires Sound(repairs) && pending == PendingOf(repairs, view)
    ensures Moves(pending) == Pending(Moves(repairs), view) && Sound(pending)
    ensures forall r :: r in pending ==> r in repairs
  {
    hide WellFormed, Projection, AfterOf;
    if repairs != [] {
      var init, last := repairs[..|repairs| - 1], repairs[|repairs| - 1];
      SoundPrefix(repairs, |repairs| - 1);
      PendingMoves(init, PendingOf(init, view), view);
      assert Moves(repairs)[..|repairs| - 1] == Moves(init) && Moves(repairs)[|repairs| - 1] == MoveOf(last);
      assert repairs == init + [last];
      var rest := PendingOf(init, view);
      if At(view, KeyOf(last), MoveOf(last).before) {
        assert Moves(rest + [last]) == Moves(rest) + [MoveOf(last)];
        forall i | 0 <= i < |rest| ensures KeyOf(rest[i]) != KeyOf(last) {
          assert rest[i] in rest && rest[i] in init;
          KeysDiffer(repairs);
        }
        assert repairs[|repairs| - 1] == last && Moves(repairs)[|repairs| - 1].before != Moves(repairs)[|repairs| - 1].after;
        OneMoreSound(rest, last);
      }
    }
  }

  lemma SoundPrefix(repairs: seq<Repair>, n: nat)
    requires Sound(repairs) && n <= |repairs|
    ensures Sound(repairs[..n])
  {
    hide WellFormed, Projection, AfterOf;
    assert Moves(repairs[..n]) == Moves(repairs)[..n];
  }

  /** The repairs whose objects are still at their old configuration. */
  function PendingOf(repairs: seq<Repair>, view: map<Key, Config>): seq<Repair> {
    if repairs == [] then []
    else
      var last := repairs[|repairs| - 1];
      var rest := PendingOf(repairs[..|repairs| - 1], view);
      if At(view, KeyOf(last), MoveOf(last).before) then rest + [last] else rest
  }

  class Monitoring {
    const script: nat -> Fault
    var server: Server
    var disk: Option<Journal>
    var time: nat

    constructor (script: nat -> Fault, server: Server)
      ensures this.script == script && this.server == server && disk == None && time == 0
    {
      this.script := script;
      this.server, this.disk, this.time := server, None, 0;
    }

    /** Monitors evaluate all the time: run-time state moves on, configurations do not. */
    method Evaluate()
      modifies this`server
      ensures View(server) == View(old(server))
    {
      var next: Server := *;
      if View(next) == View(server) { server := next; }
    }

    /** Reads a configuration. */
    method Read(key: Key) returns (answered: bool, live: Option<Config>)
      modifies this`server, this`time
      ensures View(server) == View(old(server)) && time == old(time) + 1
      ensures answered == script(old(time)).Works?
      ensures answered ==> live == if key in View(server) then Some(View(server)[key]) else None
    {
      hide Projection;
      Evaluate();
      ViewAt(server, key);
      answered := script(time).Works?;
      live := if answered && key in server then Some(Projection(key.kind, server[key])) else None;
      time := time + 1;
    }

    /** Writes the journal. */
    method Record(journal: Journal) returns (ok: bool)
      modifies this`disk, this`time
      ensures time == old(time) + 1 && ok == script(old(time)).Works?
      ensures disk == if script(old(time)).FailsBefore? then old(disk) else Some(journal)
    {
      if !script(time).FailsBefore? { disk := Some(journal); }
      ok := script(time).Works?;
      time := time + 1;
    }

    /** Sends a repair to an object that has its old configuration. */
    method Send(r: Repair) returns (ok: bool)
      requires WellFormed(r) && At(View(server), KeyOf(r), MoveOf(r).before)
      modifies this`server, this`time
      ensures time == old(time) + 1 && ok == script(old(time)).Works?
      ensures View(server) == if script(old(time)).FailsBefore? then View(old(server)) else View(old(server))[KeyOf(r) := MoveOf(r).after]
    {
      hide Projection, WellFormed, AfterOf, RuntimeOnly, Forward;
      Evaluate();
      ViewAt(server, KeyOf(r));
      if !script(time).FailsBefore? {
        var runtime: Object := *;
        if !RuntimeOnly(r.kind, runtime) { runtime := map[]; }
        assert RuntimeOnly(r.kind, runtime) by { NoRuntime(r.kind); }
        ForwardReaches(r, server[KeyOf(r)], runtime);
        ViewOfUpdate(server, KeyOf(r), Forward(r, server[KeyOf(r)], runtime));
        server := server[KeyOf(r) := Forward(r, server[KeyOf(r)], runtime)];
      }
      ok := script(time).Works?;
      time := time + 1;
    }

    /** The process dies, or its handler tries to record the journal as incomplete. */
    method Stop(journal: Journal)
      modifies this`disk, this`time
      ensures old(time) <= time <= old(time) + 1
      ensures disk == old(disk) || disk == Some(journal.(status := Incomplete))
    {
      if * {
        var _ := Record(journal.(status := Incomplete));
      }
    }

    /** Reads every planned object. Without a failing read, a plan whose objects all have one of their two configurations
        passes with exactly the repairs still to do, and any other plan stops. */
    method PreflightAll(repairs: seq<Repair>) returns (pending: seq<Repair>, outcome: Option<Outcome>)
      requires Sound(repairs)
      modifies this`server, this`time
      ensures View(server) == View(old(server)) && old(time) <= time <= old(time) + |repairs|
      ensures outcome.None? ==> pending == PendingOf(repairs, View(server)) && Settled(Moves(repairs), View(server))
      ensures outcome.Some? ==> outcome.value.Interrupted? || outcome.value.Drift?
      ensures outcome == Some(Interrupted) ==> Fails(script, old(time), time)
      ensures outcome == Some(Drift) ==> !Settled(Moves(repairs), View(server))
    {
      hide Projection, WellFormed, AfterOf, View;
      pending := [];
      var i := 0;
      while i < |repairs|
        invariant 0 <= i <= |repairs| && View(server) == View(old(server)) && time == old(time) + i
        invariant pending == PendingOf(repairs[..i], View(server))
        invariant forall j :: 0 <= j < i ==>
          At(View(server), KeyOf(repairs[j]), MoveOf(repairs[j]).before) || At(View(server), KeyOf(repairs[j]), MoveOf(repairs[j]).after)
      {
        var r := repairs[i];
        assert Moves(repairs)[i] == MoveOf(r) && MoveOf(r).before != MoveOf(r).after;
        var answered, live := Read(KeyOf(r));
        if !answered { return pending, Some(Interrupted); }
        if live != Some(MoveOf(r).after) && live != Some(MoveOf(r).before) {
          assert MoveOf(r) in Moves(repairs);
          return pending, Some(Drift);
        }
        assert repairs[..i + 1][..i] == repairs[..i];
        if live == Some(MoveOf(r).before) { pending := pending + [r]; }
        i := i + 1;
      }
      assert repairs[..i] == repairs;
      SettledMoves(repairs, View(server));
      outcome := None;
    }

    /** One pending repair, from the check just before the write to the record of its completion. */
    method WriteOne(r: Repair, completed: seq<Move>) returns (stopped: bool)
      requires WellFormed(r) && MoveOf(r).before != MoveOf(r).after && At(View(server), KeyOf(r), MoveOf(r).before)
      requires disk.Some? && disk.value.completed == completed && disk.value.inFlight.None?
      modifies this`server, this`disk, this`time
      ensures View(server) == View(old(server)) || View(server) == View(old(server))[KeyOf(r) := MoveOf(r).after]
      ensures !stopped ==> View(server) == View(old(server))[KeyOf(r) := MoveOf(r).after]
      ensures !stopped ==> disk.Some? && disk.value.completed == completed + [MoveOf(r)] && disk.value.inFlight.None?
      ensures !stopped ==> time == old(time) + 5
      ensures stopped ==> disk.Some? && completed <= disk.value.completed
      ensures stopped ==> Fails(script, old(time), time) && time <= old(time) + 6
      ensures View(server) != View(old(server)) ==> MoveOf(r) in disk.value.completed || disk.value.inFlight == Some(MoveOf(r))
    {
      hide Projection, WellFormed, AfterOf, View, KeyOf;
      ghost var start := time;
      var op := MoveOf(r);
      var answered, live := Read(KeyOf(r));
      if !answered { Stop(Journal(Preflight, completed, None)); assert !script(start).Works?; return true; }
      assert live == Some(op.before);  // with no other writer, neither the skip nor the drift test fires here
      var intent := Journal(Writing, completed, Some(op));
      var ok := Record(intent);
      if !ok { Stop(intent); assert !script(start + 1).Works?; return true; }
      stopped := Land(r, completed);
    }

    /** The write of a repair whose intent is on disk, up to the record of its completion. */
    method Land(r: Repair, completed: seq<Move>) returns (stopped: bool)
      requires WellFormed(r) && MoveOf(r).before != MoveOf(r).after && At(View(server), KeyOf(r), MoveOf(r).before)
      requires disk.Some? && disk.value.completed == completed && disk.value.inFlight == Some(MoveOf(r))
      modifies this`server, this`disk, this`time
      ensures View(server) == View(old(server)) || View(server) == View(old(server))[KeyOf(r) := MoveOf(r).after]
      ensures !stopped ==> View(server) == View(old(server))[KeyOf(r) := MoveOf(r).after]
      ensures !stopped ==> disk.Some? && disk.value.completed == completed + [MoveOf(r)] && disk.value.inFlight.None?
      ensures !stopped ==> time == old(time) + 3
      ensures stopped ==> disk.Some? && completed <= disk.value.completed
      ensures stopped ==> Fails(script, old(time), time) && time <= old(time) + 4
      ensures disk.Some? && (MoveOf(r) in disk.value.completed || disk.value.inFlight == Some(MoveOf(r)))
    {
      hide Projection, WellFormed, AfterOf, View, KeyOf;
      ghost var start := time;
      var op := MoveOf(r);
      var intent := Journal(Writing, completed, Some(op));
      var ok := Send(r);
      if !ok { Stop(intent); assert !script(start).Works?; return true; }
      var answered, live := Read(KeyOf(r));
      if !answered { Stop(intent); assert !script(start + 1).Works?; return true; }
      assert live == Some(op.after);   // nor does the read-back test
      var done := Journal(Writing, completed + [op], None);
      ok := Record(done);
      if !ok { Stop(done); assert !script(start + 2).Works?; return true; }
      stopped := false;
    }

    /** The apply run, through any script of failures. At every stopping point each object is at its old place or was moved
        from its old configuration to the planned one, everything that moved is on disk as completed or in flight, and
        nothing else moved. A run is interrupted only by a failing call; otherwise it applies the whole plan exactly
        when every object had one of its two configurations, and changes nothing if one had not. */
    method ApplyPlan(repairs: seq<Repair>) returns (outcome: Outcome)
      requires Sound(repairs) && disk.None?
      modifies this
      ensures BeforeOrAfter(Moves(repairs), View(old(server)), View(server))
      ensures Evidence(Moves(repairs), View(old(server)), View(server), disk)
      ensures outcome.Interrupted? ==> Fails(script, old(time), time)
      ensures !outcome.Interrupted? ==> (outcome.Applied? <==> Settled(Moves(repairs), View(old(server))))
      ensures outcome.Drift? ==> View(server) == View(old(server))
      ensures outcome.Applied? ==> View(server) == Carried(View(old(server)), Pending(Moves(repairs), View(old(server))))
      ensures outcome.Applied? ==> outcome.count == |Pending(Moves(repairs), View(old(server)))|
      ensures outcome.Applied? ==> forall op :: op in Moves(repairs) ==> At(View(server), op.key, op.after)
      ensures old(time) <= time <= old(time) + 6 * |repairs| + 3
    {
      hide Carried, Pending, BeforeOrAfter, Evidence, View, WellFormed, Projection, AfterOf, PendingOf, Moves, Fails, Settled, At, Sound, Planned;
      ghost var ops, start := Moves(repairs), View(server);
      SoundIsPlanned(repairs);
      ghost var begin := time;
      NothingCarried(start);
      NothingChanged(ops, start, None);
      var pending, failed := PreflightAll(repairs);
      if failed.Some? { return failed.value; }
      PendingMoves(repairs, pending, start);
      PendingShorter(repairs, start);
      ghost var todo := Moves(pending);
      MovesLength(pending);
      var ok := Record(Journal(Preflight, [], None));
      NothingChanged(ops, start, disk);
      if !ok { FailsHere(script, begin, time); return Interrupted; }
      ghost var loop := time;
      var completed: seq<Move> := [];
      var i := 0;
      while i < |pending|
        invariant 0 <= i <= |pending| && time == loop + 5 * i
        invariant View(server) == Carried(start, todo[..i])
        invariant BeforeOrAfter(ops, start, View(server)) && Evidence(ops, start, View(server), disk)
        invariant completed == todo[..i]
        invariant disk.Some? && disk.value.completed == completed && disk.value.inFlight.None?
      {
        AtStep(ops, start, todo, i);
        PendingRepair(pending, i);
        ghost var before := time;
        var stopped := WriteOne(pending[i], completed);
        StepEvidence(ops, start, todo, i, View(server), disk);
        if stopped {
          FailsWidens(script, before, time, begin, time);
          return Interrupted;
        }
        completed := completed + [MoveOf(pending[i])];
        assert todo[..i + 1] == todo[..i] + [todo[i]];
        i := i + 1;
      }
      assert todo[..i] == todo;
      AllCarried(ops, start);
      var complete := Journal(Complete, completed, None);
      ghost var noted := disk;
      ok := Record(complete);
      EvidenceStays(ops, start, View(server), noted, disk);
      if !ok {
        FailsHere(script, begin, time);
        ghost var last := time;
        noted := disk;
        Stop(complete);
        FailsWidens(script, begin, last, begin, time);
        EvidenceStays(ops, start, View(server), noted, disk);
        return Interrupted;
      }
      outcome := Applied(|pending|);
    }

    /** Any number of runs, each with a journal of its own: over all of them an object moves at most once, from its old
        configuration to the planned one, and the first run that meets no failing call leaves every object there. */
    method Reruns(repairs: seq<Repair>, attempts: nat) returns (applied: bool, ghost starts: seq<nat>)
      requires Sound(repairs) && Settled(Moves(repairs), View(server))
      modifies this
      ensures BeforeOrAfter(Moves(repairs), View(old(server)), View(server)) && Settled(Moves(repairs), View(server))
      ensures applied ==> forall op :: op in Moves(repairs) ==> At(View(server), op.key, op.after)
      ensures !applied ==> |starts| == attempts + 1 && starts[0] == old(time) && starts[attempts] == time
      ensures !applied ==> forall k, l :: 0 <= k < l <= attempts && l == k + 1 ==>
        Fails(script, starts[k], starts[l]) && starts[l] <= starts[k] + 6 * |repairs| + 3
    {
      hide BeforeOrAfter, Settled, View, Moves, Sound;
      starts := [time];
      ghost var ops := Moves(repairs);
      SoundIsPlanned(repairs);
      NothingMoved(ops, View(server));
      var i := 0;
      while i < attempts
        invariant i <= attempts && |starts| == i + 1 && starts[0] == old(time) && starts[i] == time
        invariant BeforeOrAfter(ops, View(old(server)), View(server)) && Settled(ops, View(server))
        invariant forall k, l :: 0 <= k < l <= i && l == k + 1 ==> Fails(script, starts[k], starts[l]) && starts[l] <= starts[k] + 6 * |repairs| + 3
      {
        ghost var before := View(server);
        disk := None;
        var outcome := ApplyPlan(repairs);
        StillSettled(ops, before, View(server));
        RunsCompose(ops, View(old(server)), before, View(server));
        if outcome.Applied? { return true, starts; }
        starts := starts + [time];
        i := i + 1;
      }
      applied := false;
    }
  }

  lemma ViewOfUpdate(server: Server, key: Key, obj: Object)
    ensures View(server[key := obj]) == View(server)[key := Projection(key.kind, obj)]
  {
    hide Projection;
  }

  lemma FailsHere(script: nat -> Fault, from: nat, to: nat)
    requires from < to && !script(to - 1).Works?
    ensures Fails(script, from, to)
  {
  }

  lemma SettledMoves(repairs: seq<Repair>, view: map<Key, Config>)
    requires forall j :: 0 <= j < |repairs| ==>
      At(view, KeyOf(repairs[j]), MoveOf(repairs[j]).before) || At(view, KeyOf(repairs[j]), MoveOf(repairs[j]).after)
    ensures Settled(Moves(repairs), view)
  {
    hide Projection, AfterOf;
    forall op | op in Moves(repairs) ensures At(view, op.key, op.before) || At(view, op.key, op.after) {
      var j :| 0 <= j < |repairs| && Moves(repairs)[j] == op;
    }
  }

  lemma MovesLength(repairs: seq<Repair>)
    ensures |Moves(repairs)| == |repairs|
  {
  }

  lemma {:induction false} PendingShorter(repairs: seq<Repair>, view: map<Key, Config>)
    ensures |PendingOf(repairs, view)| <= |repairs|
  {
    hide Projection, AfterOf;
    if repairs != [] {
      PendingShorter(repairs[..|repairs| - 1], view);
    }
  }

  lemma PendingRepair(pending: seq<Repair>, i: nat)
    requires Sound(pending) && i < |pending|
    ensures i < |Moves(pending)| && Moves(pending)[i] == MoveOf(pending[i]) && MoveOf(pending[i]).key == KeyOf(pending[i])
    ensures WellFormed(pending[i])
  {
    hide WellFormed, Projection, AfterOf;
  }

  lemma SoundIsPlanned(repairs: seq<Repair>)
    requires Sound(repairs)
    ensures Planned(Moves(repairs))
  {
  }

  lemma NothingMoved(ops: seq<Move>, view: map<Key, Config>)
    ensures BeforeOrAfter(ops, view, view)
  {
  }

  /** A journal that lists no fewer completed operations, and drops none in flight, is no less evidence. */
  lemma EvidenceStays(ops: seq<Move>, start: map<Key, Config>, server: map<Key, Config>, before: Option<Journal>, after: Option<Journal>)
    requires Evidence(ops, start, server, before)
    requires before.Some? ==> after.Some? && before.value.completed <= after.value.completed && before.value.inFlight.None?
    ensures Evidence(ops, start, server, after)
  {
  }
}
