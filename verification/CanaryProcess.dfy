/** The canary process as the script runs it, step by step. */
module CanaryProcess {
  import opened Wrappers
  import opened Faults
  import opened CanaryGate
  import opened CanaryRun

  /** A canary process: the shared row as the database holds it, the lease, and the script it lives through. */
  class Process {
    const owner: Owner
    const script: Script
    var row: Option<Row>
    var lease: Option<int>
    var time: nat
    var log: seq<Sent>

    constructor (owner: Owner, script: Script, row: Option<Row>)
      ensures this.owner == owner && this.script == script && Now() == World(row, None, 0, [])
    {
      this.owner, this.script := owner, script;
      this.row, this.lease, this.time, log := row, None, 0, [];
    }

    function Now(): World
      reads this
    {
      World(row, lease, time, log)
    }

    /** Passes one await; says how this process's own call ends. */
    method Pass() returns (fault: Fault)
      modifies this`row, this`time
      ensures Now() == Tick(old(Now()), script) && fault == script(old(time)).fault
    {
      fault := script(time).fault;
      row := Run(row, script(time).others);
      time := time + 1;
    }

    method Step() returns (ok: bool)
      modifies this`row, this`time
      ensures (Now(), ok) == OtherStep(old(Now()), script)
    {
      var fault := Pass();
      ok := fault.Works?;
    }

    /** The call commits or it does not; an answer always means that it committed. */
    method SetCanaryStartGate(enabled: bool, owned: Option<int>) returns (r: Result<int, Failure>)
      modifies this`row, this`time, this`log
      ensures (Now(), r) == GateCall(old(Now()), script, owner, enabled, owned)
      ensures r.Ok? ==> row.Some? && row.value.startNewMovements == enabled && row.value.generation == r.value
    {
      log := log + [Sent(time, enabled)];
      var fault := Pass();
      if fault.FailsBefore? { return Err(ConnectionLost); }
      var transaction := SetGate(row, owner, enabled, owned);
      row := transaction.0;
      r := if fault.Works? then transaction.1 else Err(ConnectionLost);
    }

    method ReadsSafe() returns (safe: bool)
      modifies this`row, this`time
      ensures (Now(), safe) == ReadSafe(old(Now()), script)
    {
      var fault := Pass();
      safe := fault.Works? && Safe(row);
    }

    /** Three attempts to close the gate and verify it. With no other writer they succeed exactly when the gate can be
        closed at all and some attempt meets no failing call. */
    method EnsureCanaryStartGateClosed() returns (r: Result<(), Failure>)
      modifies this
      ensures (Now(), r) == EnsureClosed(old(Now()), script, owner, ATTEMPTS)
      ensures Foreign(script, owner) && old(Holds(Now(), owner)) ==> Holds(Now(), owner) && (r.Ok? ==> Safe(row) && lease.None?)
      ensures Quiet(script) ==> (r.Ok? <==> old(Closable(Now(), owner)) && SomeCleanAttempt(script, old(time), ATTEMPTS))
      ensures r.Err? ==> r.error.Critical?
    {
      hide CloseOnce, Holds, Closable, SomeCleanAttempt, Foreign, Quiet;
      ghost var start := Now();
      ClosingFacts(start, script, owner);
      var attempt := 0;
      while attempt < 3
        invariant 0 <= attempt <= 3
        invariant EnsureClosed(start, script, owner, ATTEMPTS) == EnsureClosed(Now(), script, owner, ATTEMPTS - attempt)
      {
        var safe := CloseAndRead();
        if safe { return Ok(()); }
        attempt := attempt + 1;
      }
      r := Err(Critical);
    }

    method CloseAndRead() returns (safe: bool)
      modifies this
      ensures (Now(), safe) == CloseOnce(old(Now()), script, owner)
    {
      hide GateCall, ReadSafe;
      var closed := SetCanaryStartGate(false, lease);
      if closed.Err? { return false; }
      lease := None;
      safe := ReadsSafe();
    }

    /** The guarded part of a canary: open the gate, run, close it. Every await can throw. */
    method GuardedCanary(controlledPause: bool) returns (gateOpen: bool, r: Result<(), Failure>)
      modifies this
      ensures (Now(), gateOpen, r) == CanaryBody(old(Now()), script, owner, controlledPause)
    {
      hide GateCall, Tick;
      var grant := SetCanaryStartGate(true, None);
      if grant.Err? { return false, Err(grant.error); }
      lease := Some(grant.value);
      var ok := Step();                                             // wait for the movement and its withdrawal
      if !ok { return true, Err(StepFailed); }
      if controlledPause {
        ok := Step();                                               // deletion must be blocked
        if !ok { return true, Err(StepFailed); }
      }
      var closed := SetCanaryStartGate(false, lease);
      if closed.Err? { return true, Err(closed.error); }
      lease := None;
      ok := Step();                                                 // wait for finality, resume and pause again
      gateOpen, r := false, if ok then Ok(()) else Err(StepFailed);
    }

    method RunProductionCanary(controlledPause: bool) returns (r: Result<(), Failure>)
      modifies this
      ensures (Now(), r) == Canary(old(Now()), script, owner, controlledPause)
      ensures Foreign(script, owner) && old(Idle(Now(), owner)) ==> Holds(Now(), owner) && (r.Ok? ==> Idle(Now(), owner))
    {
      hide CanaryBody, EnsureClosed, Tick, Foreign, Holds, Idle, Closable, SomeCleanAttempt, Quiet;
      if Foreign(script, owner) && Idle(Now(), owner) { CanaryKeeps(Now(), script, owner, controlledPause); }
      var ok := Step();                                             // read the latest decision
      if !ok { return Err(StepFailed); }
      var gateOpen, body := GuardedCanary(controlledPause);
      if gateOpen {
        var closed := EnsureCanaryStartGateClosed();
        if closed.Err? { return closed; }
      }
      if body.Err? { return body; }
      ok := Step();                                                 // wait for the terminal state, check the evidence
      r := if ok then Ok(()) else Err(StepFailed);
    }

    method ProvePausedEnrollmentStartsNothing() returns (r: Result<(), Failure>)
      modifies this
      ensures (Now(), r) == PausedProof(old(Now()), script, owner)
      ensures Foreign(script, owner) && old(Idle(Now(), owner)) ==> Holds(Now(), owner) && (r.Ok? ==> Idle(Now(), owner))
    {
      hide GateCall, EnsureClosed, Tick, Foreign, Holds, Idle, Closable, SomeCleanAttempt, Quiet;
      if Foreign(script, owner) && Idle(Now(), owner) { PausedProofKeeps(Now(), script, owner); }
      var ok := Step();                                             // read the enrollment and the latest decision
      if !ok { return Err(StepFailed); }
      var grant := SetCanaryStartGate(true, None);
      if grant.Err? { return Err(grant.error); }
      lease := Some(grant.value);
      var watched := Step();                                        // 45 polls, any of which can throw
      var closed := EnsureCanaryStartGateClosed();
      if closed.Err? { return closed; }
      r := if watched then Ok(()) else Err(StepFailed);
    }

    method RunCanaries() returns (r: Result<(), Failure>)
      modifies this
      ensures (Now(), r) == Canaries(old(Now()), script, owner)
      ensures Foreign(script, owner) && old(Idle(Now(), owner)) ==> Holds(Now(), owner) && (r.Ok? ==> Idle(Now(), owner))
    {
      hide Canary, PausedProof, Tick, Foreign, Holds, Idle;
      if Foreign(script, owner) && Idle(Now(), owner) { CanariesKeep(Now(), script, owner); }
      r := RunProductionCanary(true);
      if r.Err? { return; }
      r := ProvePausedEnrollmentStartsNothing();
      if r.Err? { return; }
      var ok := Step();                                             // resume the enrollment
      if !ok { return Err(StepFailed); }
      r := RunProductionCanary(false);
      if r.Err? { return; }
      ok := Step();                                                 // clean up and check coverage
      r := if ok then Ok(()) else Err(StepFailed);
    }

    /** The whole run. Whatever fails, and whatever other processes do to the row in between, it leaves the gate not open
        by this process or reports the critical failure, exactly when one of the two can be: the gate is not open by it,
        or ending the connection works. */
    method VerifyProductionCanaries() returns (r: Result<(), Failure>, ended: bool)
      modifies this
      ensures (Now(), r) == WholeRun(old(Now()), script, owner) && ended == Ends(old(Now()), script, owner)
      ensures Foreign(script, owner) && old(Idle(Now(), owner)) ==>
        && (SafeOutcome(Now(), r, owner) <==> !OpenBy(row, owner) || ended)
        && (r.Ok? ==> !OpenBy(row, owner) && Recovers(row))
      ensures Quiet(script) && old(Idle(Now(), owner) && log == []) ==> (OpenBy(row, owner) <==> LeftOpen(log, script))
    {
      hide LeftOpen, Canaries, EnsureClosed, Tick, Foreign, Holds, Idle, Closable, SomeCleanAttempt, Quiet;
      if Foreign(script, owner) && Idle(Now(), owner) { RunSafeExactly(Now(), script, owner); }
      if Quiet(script) && Idle(Now(), owner) && log == [] { EndsOpenExactly(Now(), script, owner); }
      var baselineVerified := false;
      var body: Result<(), Failure> := Err(StepFailed);
      var enrolled := Step();                                       // read the enrollment
      if enrolled {
        baselineVerified := ReadsSafe();                            // and the rest of the baseline
        if baselineVerified { body := RunCanaries(); }
      }
      if body.Err? {
        var checked := Step();                                      // the catch block checks the enrollment
        if !checked { body := Err(EnrollmentUnsafe); }
      }
      var gate: Result<(), Failure> := Ok(());
      if baselineVerified { gate := EnsureCanaryStartGateClosed(); }
      ended := Step();
      r := Finally(body, gate, ended);
    }

    /** The lifecycle around the run. It ends with the gate open by this process only if it says that a safety state could
        not be verified or that the database failed. */
    method VerifyProductionCanaryLifecycle() returns (r: Result<(), Failure>)
      modifies this
      ensures (Now(), r) == Lifecycle(old(Now()), script, owner)
      ensures Foreign(script, owner) && old(!OpenBy(row, owner)) && (r.Ok? || r.error !in {SafetyUnverified, DatabaseFailed}) ==>
        !OpenBy(row, owner) && Recovers(row) && (Quiet(script) ==> Safe(row))
    {
      hide WholeRun, EnsureClosed, Tick, Foreign, Holds, Idle, Closable, SomeCleanAttempt, Quiet, SafeOutcome, OpenBy;
      if Foreign(script, owner) && !OpenBy(row, owner) { LifecycleSafe(Now(), script, owner); }
      var ready := Step();                                          // set up and toggle the enrollment
      var live: Result<(), Failure> := Err(StepFailed);
      if ready {
        lease := None;
        var ended;
        live, ended := VerifyProductionCanaries();
      }
      if live.Ok? { return live; }
      var enrolled := Step();                                       // check the enrollment
      lease := None;
      var gate := EnsureCanaryStartGateClosed();
      var ended := Step();
      if !ended { return Err(DatabaseFailed); }
      if !enrolled || gate.Err? { return Err(SafetyUnverified); }
      r := live;
    }

    /** Recovery in a new process, whose owner id never tagged the row: the row ends as other processes alone would have
        left it, and recovery succeeds only over a closed gate. */
    method RecoverAutoswapCanary() returns (r: Result<(), Failure>)
      modifies this
      ensures (Now(), r) == Recovery(old(Now()), script, owner)
      ensures Foreign(script, owner) && old(row.Some? ==> row.value.updatedBy != owner) ==>
        && row == Run(old(row), OthersBetween(script, old(time), time))
        && (r.Ok? ==> Safe(row))
        && (Quiet(script) && !Safe(old(row)) ==> r.Err?)
    {
      hide EnsureClosed, Tick, Foreign, Holds, Closable, SomeCleanAttempt, Quiet, OthersBetween, Run;
      if Foreign(script, owner) && (row.Some? ==> row.value.updatedBy != owner) { RecoveryTouchesNothing(Now(), script, owner); }
      lease := None;
      var gate := EnsureCanaryStartGateClosed();
      var ended := Step();
      if !ended { return Err(DatabaseFailed); }
      if gate.Err? { return gate; }
      var enrolled := Step();                                       // check the enrollment
      if !enrolled { return Err(StepFailed); }
      var fault := Pass();                                          // read the control row back
      r := if fault.Works? && Closed(row) then Ok(()) else Err(StepFailed);
    }
  }
}
