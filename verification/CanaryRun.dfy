/** One canary process among others: its run as a function of everything that can go wrong, and what holds of every run. */
module CanaryRun {
  import opened Wrappers
  import opened Faults
  import opened CanaryGate

  // ----- The run as a function of a script -----

  /** What happens at one await: other processes call first, then this process's own call ends in some way. */
  datatype Await = Await(others: seq<Call>, fault: Fault)

  /** The script of a run: await after await. */
  type Script = nat -> Await

  /** A gate call this process made, and at which await. */
  datatype Sent = Sent(time: nat, enabled: bool)

  /** The shared row, the lease this process holds, how many awaits it has behind it, and the gate calls it made. */
  datatype World = World(row: Option<Row>, lease: Option<int>, time: nat, log: seq<Sent>)

  /** Other processes have ids of their own. */
  ghost predicate Foreign(script: Script, owner: Owner) {
    forall n, c :: c in script(n).others ==> c.owner != owner
  }

  /** Nobody else writes. */
  ghost predicate Quiet(script: Script) {
    forall n :: script(n).others == []
  }

  function Tick(w: World, script: Script): World {
    World(Run(w.row, script(w.time).others), w.lease, w.time + 1, w.log)
  }

  function GateCall(w: World, script: Script, owner: Owner, enabled: bool, owned: Option<int>): (World, Result<int, Failure>) {
    var t := Tick(w, script).(log := w.log + [Sent(w.time, enabled)]);
    var transaction := SetGate(t.row, owner, enabled, owned);
    match script(w.time).fault
    case Works => (t.(row := transaction.0), transaction.1)
    case FailsBefore => (t, Err(ConnectionLost))
    case FailsAfter => (t.(row := transaction.0), Err(ConnectionLost))
  }

  predicate Safe(row: Option<Row>) {
    row.Some? && !row.value.startNewMovements && row.value.continueOrRecover
  }

  function ReadSafe(w: World, script: Script): (World, bool) {
    var t := Tick(w, script);
    (t, script(w.time).fault.Works? && Safe(t.row))
  }

  /** Any other step of the run; it can throw. */
  function OtherStep(w: World, script: Script): (World, bool) {
    (Tick(w, script), script(w.time).fault.Works?)
  }

  /** One attempt to close the gate and read it back. */
  function CloseOnce(w: World, script: Script, owner: Owner): (World, bool) {
    var (w1, closed) := GateCall(w, script, owner, false, w.lease);
    if closed.Err? then (w1, false) else ReadSafe(w1.(lease := None), script)
  }

  function EnsureClosed(w: World, script: Script, owner: Owner, attempts: nat): (World, Result<(), Failure>)
    decreases attempts
  {
    if attempts == 0 then (w, Err(Critical))
    else
      var (w1, safe) := CloseOnce(w, script, owner);
      if safe then (w1, Ok(())) else EnsureClosed(w1, script, owner, attempts - 1)
  }

  const ATTEMPTS := 3

  /** The guarded part of a canary, and whether it leaves the gate to be closed. */
  function CanaryBody(w: World, script: Script, owner: Owner, controlledPause: bool): (World, bool, Result<(), Failure>) {
    var (w1, grant) := GateCall(w, script, owner, true, None);
    if grant.Err? then (w1, false, Err(grant.error))
    else
      var (w2, moved) := OtherStep(w1.(lease := Some(grant.value)), script);
      if !moved then (w2, true, Err(StepFailed))
      else
        var (w3, paused) := if controlledPause then OtherStep(w2, script) else (w2, true);
        if !paused then (w3, true, Err(StepFailed))
        else
          var (w4, closed) := GateCall(w3, script, owner, false, w3.lease);
          if closed.Err? then (w4, true, Err(closed.error))
          else
            var (w5, finalized) := OtherStep(w4.(lease := None), script);
            (w5, false, if finalized then Ok(()) else Err(StepFailed))
  }

  function Canary(w: World, script: Script, owner: Owner, controlledPause: bool): (World, Result<(), Failure>) {
    var (w0, read) := OtherStep(w, script);
    if !read then (w0, Err(StepFailed))
    else
      var (w1, gateOpen, body) := CanaryBody(w0, script, owner, controlledPause);
      var (w2, closed) := if gateOpen then EnsureClosed(w1, script, owner, ATTEMPTS) else (w1, Ok(()));
      if closed.Err? then (w2, closed)
      else if body.Err? then (w2, body)
      else
        var (w3, terminal) := OtherStep(w2, script);
        (w3, if terminal then Ok(()) else Err(StepFailed))
  }

  function PausedProof(w: World, script: Script, owner: Owner): (World, Result<(), Failure>) {
    var (w0, read) := OtherStep(w, script);
    if !read then (w0, Err(StepFailed))
    else
      var (w1, grant) := GateCall(w0, script, owner, true, None);
      if grant.Err? then (w1, Err(grant.error))
      else
        var (w2, watched) := OtherStep(w1.(lease := Some(grant.value)), script);
        var (w3, closed) := EnsureClosed(w2, script, owner, ATTEMPTS);
        (w3, if closed.Err? then closed else if watched then Ok(()) else Err(StepFailed))
  }

  /** The canaries from the verified baseline on. */
  function Canaries(w: World, script: Script, owner: Owner): (World, Result<(), Failure>) {
    var (w1, first) := Canary(w, script, owner, true);
    if first.Err? then (w1, first)
    else
      var (w2, proof) := PausedProof(w1, script, owner);
      if proof.Err? then (w2, proof)
      else
        var (w3, resumed) := OtherStep(w2, script);
        if !resumed then (w3, Err(StepFailed))
        else
          var (w4, second) := Canary(w3, script, owner, false);
          if second.Err? then (w4, second)
          else
            var (w5, clean) := OtherStep(w4, script);
            (w5, if clean then Ok(()) else Err(StepFailed))
  }

  /** The run up to its finally block: whether the baseline was verified, and what the body and the catch block left. */
  function BeforeClose(w: World, script: Script, owner: Owner): (World, bool, Result<(), Failure>) {
    var (w0, enrolled) := OtherStep(w, script);
    var (w1, baseline) := if enrolled then ReadSafe(w0, script) else (w0, false);
    var (w2, body) := if baseline then Canaries(w1, script, owner) else (w1, Err(StepFailed));
    if body.Ok? then (w2, baseline, body)
    else
      var (w3, checked) := OtherStep(w2, script);
      (w3, baseline, if checked then body else Err(EnrollmentUnsafe))
  }

  /** The error that leaves the finally block: close the gate, end the connection, then throw the gate error. */
  function Finally(body: Result<(), Failure>, gate: Result<(), Failure>, ended: bool): Result<(), Failure> {
    if !ended then Err(DatabaseFailed) else if gate.Err? then gate else body
  }

  /** The world when the connection is about to end, and how closing the gate went. */
  function AtEnd(w: World, script: Script, owner: Owner): (World, Result<(), Failure>) {
    var (w1, baseline, _) := BeforeClose(w, script, owner);
    if baseline then EnsureClosed(w1, script, owner, ATTEMPTS) else (w1, Ok(()))
  }

  function WholeRun(w: World, script: Script, owner: Owner): (World, Result<(), Failure>) {
    var (w2, gate) := AtEnd(w, script, owner);
    var (w3, ended) := OtherStep(w2, script);
    (w3, Finally(BeforeClose(w, script, owner).2, gate, ended))
  }

  function Ends(w: World, script: Script, owner: Owner): bool {
    OtherStep(AtEnd(w, script, owner).0, script).1
  }

  /** The lifecycle around a run closes the gate once more, over a second connection, after any error. */
  function Lifecycle(w: World, script: Script, owner: Owner): (World, Result<(), Failure>) {
    var (w0, ready) := OtherStep(w, script);
    var (w1, live) := if ready then WholeRun(w0.(lease := None), script, owner) else (w0, Err(StepFailed));
    if live.Ok? then (w1, live)
    else
      var (w2, enrolled) := OtherStep(w1, script);
      var (w3, gate) := EnsureClosed(w2.(lease := None), script, owner, ATTEMPTS);
      var (w4, ended) := OtherStep(w3, script);
      (w4, if !ended then Err(DatabaseFailed) else if !enrolled || gate.Err? then Err(SafetyUnverified) else live)
  }

  /** Recovery in a new process. */
  function Recovery(w: World, script: Script, owner: Owner): (World, Result<(), Failure>) {
    var (w1, gate) := EnsureClosed(w.(lease := None), script, owner, ATTEMPTS);
    var (w2, ended) := OtherStep(w1, script);
    if !ended then (w2, Err(DatabaseFailed))
    else if gate.Err? then (w2, gate)
    else
      var (w3, enrolled) := OtherStep(w2, script);
      if !enrolled then (w3, Err(StepFailed))
      else
        var (w4, safe) := ReadClosed(w3, script);
        (w4, if safe then Ok(()) else Err(StepFailed))
  }

  /** The read-back of the recovery looks at the starts only. */
  function ReadClosed(w: World, script: Script): (World, bool) {
    var t := Tick(w, script);
    (t, script(w.time).fault.Works? && Closed(t.row))
  }

  // ----- What other processes cannot do -----

  /** Nothing of ours is open and no lease is held. */
  ghost predicate Idle(w: World, owner: Owner) {
    !OpenBy(w.row, owner) && w.lease.None?
  }

  ghost predicate Holds(w: World, owner: Owner) {
    LeaseHolds(w.row, w.lease, owner)
  }

  /** The gate is closed, or open by us. */
  ghost predicate Ours(row: Option<Row>, owner: Owner) {
    Closed(row) || OpenBy(row, owner)
  }

  /** Some opening call took effect, and every closing call after it failed before it did. */
  ghost predicate LeftOpen(log: seq<Sent>, script: Script) {
    exists i :: 0 <= i < |log| && log[i].enabled && !script(log[i].time).fault.FailsBefore?
      && forall j :: i < j < |log| && !log[j].enabled ==> script(log[j].time).fault.FailsBefore?
  }

  lemma LeftOpenStep(log: seq<Sent>, next: Sent, script: Script)
    ensures LeftOpen(log + [next], script) <==>
      if script(next.time).fault.FailsBefore? then LeftOpen(log, script) else next.enabled
  {
    var grown := log + [next];
    if LeftOpen(log, script) && (next.enabled || script(next.time).fault.FailsBefore?) {
      var i :| 0 <= i < |log| && log[i].enabled && !script(log[i].time).fault.FailsBefore?
        && forall j :: i < j < |log| && !log[j].enabled ==> script(log[j].time).fault.FailsBefore?;
      assert grown[i] == log[i] && forall j :: i < j < |grown| && !grown[j].enabled ==> script(grown[j].time).fault.FailsBefore?;
    }
    if next.enabled && !script(next.time).fault.FailsBefore? {
      assert grown[|log|] == next;
    }
    if LeftOpen(grown, script) {
      var i :| 0 <= i < |grown| && grown[i].enabled && !script(grown[i].time).fault.FailsBefore?
        && forall j :: i < j < |grown| && !grown[j].enabled ==> script(grown[j].time).fault.FailsBefore?;
      if i < |log| {
        assert grown[|log|] == next && log[i] == grown[i];
        assert forall j :: i < j < |log| && !log[j].enabled ==> grown[j] == log[j] && script(log[j].time).fault.FailsBefore?;
      }
    }
  }

  /** With no other writer, and recovery enabled, the row is open by us exactly when our own calls left it open. */
  ghost predicate Told(w: World, script: Script, owner: Owner) {
    Quiet(script) && Recovers(w.row) && Ours(w.row, owner) && (OpenBy(w.row, owner) <==> LeftOpen(w.log, script))
  }

  predicate Recovers(row: Option<Row>) {
    row.Some? && row.value.continueOrRecover
  }

  /** Calls of others leave the row alone or put another owner on it; they never touch the recovery switch. */
  lemma {:induction false} OthersRun(row: Option<Row>, owner: Owner, calls: seq<Call>)
    requires forall c :: c in calls ==> c.owner != owner
    ensures Run(row, calls) == row || (Run(row, calls).Some? && Run(row, calls).value.updatedBy != owner)
    ensures row.Some? <==> Run(row, calls).Some?
    ensures row.Some? ==> Run(row, calls).value.continueOrRecover == row.value.continueOrRecover
    ensures OpenBy(row, owner) ==> Run(row, calls) == row
  {
    if calls != [] {
      OthersRun(row, owner, calls[..|calls| - 1]);
      assert calls[|calls| - 1] in calls;
    }
  }

  lemma TickKeeps(w: World, script: Script, owner: Owner)
    requires Foreign(script, owner)
    ensures Holds(w, owner) ==> Holds(Tick(w, script), owner)
    ensures Idle(w, owner) ==> Idle(Tick(w, script), owner)
    ensures Recovers(w.row) <==> Recovers(Tick(w, script).row)
    ensures Tick(w, script).log == w.log && (Quiet(script) ==> Tick(w, script).row == w.row)
    ensures Told(w, script, owner) ==> Told(Tick(w, script), script, owner)
  {
    OthersRun(w.row, owner, script(w.time).others);
  }

  lemma GateCallKeeps(w: World, script: Script, owner: Owner, enabled: bool, owned: Option<int>)
    requires Foreign(script, owner) && Holds(w, owner) && (if enabled then Idle(w, owner) else owned == w.lease)
    ensures var (w1, r) := GateCall(w, script, owner, enabled, owned);
      && Holds(w1, owner) && w1.lease == w.lease
      && (Recovers(w.row) <==> Recovers(w1.row))
      && (Quiet(script) && Ours(w.row, owner) ==> Ours(w1.row, owner)) && (Told(w, script, owner) ==> Told(w1, script, owner))
      && (r.Ok? && enabled ==> OpenBy(w1.row, owner) && w1.row.value.generation == r.value)
      && (r.Ok? && !enabled ==> Closed(w1.row))
  {
    hide Run, LeftOpen;
    TickKeeps(w, script, owner);
    LeftOpenStep(w.log, Sent(w.time, enabled), script);
  }

  lemma CloseOnceKeeps(w: World, script: Script, owner: Owner)
    requires Foreign(script, owner) && Holds(w, owner)
    ensures var (w1, safe) := CloseOnce(w, script, owner);
      && Holds(w1, owner) && (Recovers(w.row) <==> Recovers(w1.row)) && (safe ==> Safe(w1.row) && w1.lease.None?)
      && (Quiet(script) && Ours(w.row, owner) ==> Ours(w1.row, owner)) && (Told(w, script, owner) ==> Told(w1, script, owner))
  {
    hide Run, GateCall, Tick, LeftOpen;
    GateCallKeeps(w, script, owner, false, w.lease);
    var w1 := GateCall(w, script, owner, false, w.lease).0;
    TickKeeps(w1.(lease := None), script, owner);
  }

  lemma {:induction false} EnsureClosedKeeps(w: World, script: Script, owner: Owner, attempts: nat)
    requires Foreign(script, owner) && Holds(w, owner)
    ensures var (w1, r) := EnsureClosed(w, script, owner, attempts);
      && Holds(w1, owner) && (Recovers(w.row) <==> Recovers(w1.row))
      && (Quiet(script) && Ours(w.row, owner) ==> Ours(w1.row, owner)) && (Told(w, script, owner) ==> Told(w1, script, owner))
      && (r.Ok? ==> Safe(w1.row) && w1.lease.None?)
      && (r.Err? ==> r.error.Critical?)
    decreases attempts
  {
    hide CloseOnce;
    if attempts > 0 {
      CloseOnceKeeps(w, script, owner);
      EnsureClosedKeeps(CloseOnce(w, script, owner).0, script, owner, attempts - 1);
    }
  }

  lemma CanaryBodyKeeps(w: World, script: Script, owner: Owner, controlledPause: bool)
    requires Foreign(script, owner) && Idle(w, owner)
    ensures var (w1, gateOpen, r) := CanaryBody(w, script, owner, controlledPause);
      && Holds(w1, owner) && (!gateOpen ==> w1.lease.None?) && (r.Ok? ==> Idle(w1, owner))
      && (Recovers(w.row) <==> Recovers(w1.row))
      && (Quiet(script) && Ours(w.row, owner) ==> Ours(w1.row, owner)) && (Told(w, script, owner) ==> Told(w1, script, owner))
  {
    hide GateCall, Tick;
    GateCallKeeps(w, script, owner, true, None);
    var (w1, grant) := GateCall(w, script, owner, true, None);
    if grant.Ok? {
      var held := w1.(lease := Some(grant.value));
      TickKeeps(held, script, owner);
      var w2 := Tick(held, script);
      TickKeeps(w2, script, owner);
      var w3 := if controlledPause then Tick(w2, script) else w2;
      GateCallKeeps(w3, script, owner, false, w3.lease);
      var w4 := GateCall(w3, script, owner, false, w3.lease).0;
      TickKeeps(w4.(lease := None), script, owner);
    }
  }

  lemma CanaryKeeps(w: World, script: Script, owner: Owner, controlledPause: bool)
    requires Foreign(script, owner) && Idle(w, owner)
    ensures var (w1, r) := Canary(w, script, owner, controlledPause);
      && Holds(w1, owner) && (r.Ok? ==> Idle(w1, owner)) && (Recovers(w.row) <==> Recovers(w1.row))
      && (Quiet(script) && Ours(w.row, owner) ==> Ours(w1.row, owner)) && (Told(w, script, owner) ==> Told(w1, script, owner))
  {
    hide CanaryBody, EnsureClosed, Tick;
    TickKeeps(w, script, owner);
    var w0 := Tick(w, script);
    CanaryBodyKeeps(w0, script, owner, controlledPause);
    var (w1, gateOpen, body) := CanaryBody(w0, script, owner, controlledPause);
    EnsureClosedKeeps(w1, script, owner, ATTEMPTS);
    var w2 := if gateOpen then EnsureClosed(w1, script, owner, ATTEMPTS).0 else w1;
    TickKeeps(w2, script, owner);
  }

  lemma PausedProofKeeps(w: World, script: Script, owner: Owner)
    requires Foreign(script, owner) && Idle(w, owner)
    ensures var (w1, r) := PausedProof(w, script, owner);
      && Holds(w1, owner) && (r.Ok? ==> Idle(w1, owner)) && (Recovers(w.row) <==> Recovers(w1.row))
      && (Quiet(script) && Ours(w.row, owner) ==> Ours(w1.row, owner)) && (Told(w, script, owner) ==> Told(w1, script, owner))
  {
    hide GateCall, EnsureClosed, Tick;
    TickKeeps(w, script, owner);
    var w0 := Tick(w, script);
    GateCallKeeps(w0, script, owner, true, None);
    var (w1, grant) := GateCall(w0, script, owner, true, None);
    if grant.Ok? {
      var held := w1.(lease := Some(grant.value));
      TickKeeps(held, script, owner);
      EnsureClosedKeeps(Tick(held, script), script, owner, ATTEMPTS);
      var (w3, closed) := EnsureClosed(Tick(held, script), script, owner, ATTEMPTS);
      if script(w.time).fault.Works? {
        assert OtherStep(held, script).0 == Tick(held, script);
        assert PausedProof(w, script, owner).0 == w3;
      }
    }
  }

  lemma CanariesKeep(w: World, script: Script, owner: Owner)
    requires Foreign(script, owner) && Idle(w, owner)
    ensures var (w1, r) := Canaries(w, script, owner);
      && Holds(w1, owner) && (r.Ok? ==> Idle(w1, owner)) && (Recovers(w.row) <==> Recovers(w1.row))
      && (Quiet(script) && Ours(w.row, owner) ==> Ours(w1.row, owner)) && (Told(w, script, owner) ==> Told(w1, script, owner))
  {
    hide Canary, PausedProof, Tick;
    CanaryKeeps(w, script, owner, true);
    var (w1, first) := Canary(w, script, owner, true);
    if first.Ok? {
      PausedProofKeeps(w1, script, owner);
      var (w2, proof) := PausedProof(w1, script, owner);
      if proof.Ok? {
        TickKeeps(w2, script, owner);
        var w3 := Tick(w2, script);
        CanaryKeeps(w3, script, owner, false);
        TickKeeps(Canary(w3, script, owner, false).0, script, owner);
      }
    }
  }

  /** Wherever the body stops, whatever fails and whatever other processes do, the lease invariant holds; before the
      baseline is verified nothing of ours is open. */
  lemma LeaseInvariant(w: World, script: Script, owner: Owner)
    requires Foreign(script, owner) && Idle(w, owner)
    ensures var (w1, baseline, body) := BeforeClose(w, script, owner);
      && Holds(w1, owner) && (!baseline ==> Idle(w1, owner) && body.Err?)
      && (Recovers(w.row) <==> Recovers(w1.row)) && (baseline ==> Recovers(w1.row))
      && (Quiet(script) && baseline ==> Ours(w1.row, owner)) && (Quiet(script) && baseline && w.log == [] ==> Told(w1, script, owner))
      && (Quiet(script) && !baseline ==> w1.row == w.row && w1.log == w.log)
  {
    hide Canaries, Tick;
    TickKeeps(w, script, owner);
    var w0 := Tick(w, script);
    TickKeeps(w0, script, owner);
    var w1 := Tick(w0, script);
    CanariesKeep(w1, script, owner);
    TickKeeps(w0, script, owner);
    TickKeeps(w1, script, owner);
    TickKeeps(Canaries(w1, script, owner).0, script, owner);
  }

  // ----- Safety of a whole run -----

  /** Nothing of ours stays open unnoticed. */
  ghost predicate SafeOutcome(w: World, r: Result<(), Failure>, owner: Owner) {
    !OpenBy(w.row, owner) || r == Err(Critical)
  }

  /** Whatever fails and whatever other processes do to the row, a run leaves the gate not open by this process or
      reports the critical failure, exactly when the gate is not open by this process or ending the connection works. */
  lemma RunSafeExactly(w: World, script: Script, owner: Owner)
    requires Foreign(script, owner) && Idle(w, owner)
    ensures var (w1, r) := WholeRun(w, script, owner);
      SafeOutcome(w1, r, owner) <==> !OpenBy(w1.row, owner) || Ends(w, script, owner)
    ensures var (w1, r) := WholeRun(w, script, owner); r.Ok? ==> !OpenBy(w1.row, owner) && Recovers(w1.row)
  {
    hide BeforeClose, EnsureClosed, Tick;
    LeaseInvariant(w, script, owner);
    var (w1, baseline, body) := BeforeClose(w, script, owner);
    EnsureClosedKeeps(w1, script, owner, ATTEMPTS);
    TickKeeps(AtEnd(w, script, owner).0, script, owner);
  }

  /** With no other writer, a run leaves the gate open exactly when one of its opening calls took effect and every closing
      call it made after that failed before taking effect; what it leaves open is reported unless its connection fails too. */
  lemma EndsOpenExactly(w: World, script: Script, owner: Owner)
    requires Quiet(script) && Idle(w, owner) && w.log == []
    ensures var end := WholeRun(w, script, owner).0; OpenBy(end.row, owner) <==> LeftOpen(end.log, script)
    ensures var (end, r) := WholeRun(w, script, owner);
      SafeOutcome(end, r, owner) <==> !LeftOpen(end.log, script) || Ends(w, script, owner)
  {
    hide BeforeClose, EnsureClosed, Tick, LeftOpen, Finally;
    RunSafeExactly(w, script, owner);
    LeaseInvariant(w, script, owner);
    var (w1, baseline, body) := BeforeClose(w, script, owner);
    EnsureClosedKeeps(w1, script, owner, ATTEMPTS);
    TickKeeps(AtEnd(w, script, owner).0, script, owner);
    NothingLeftOpen(script);
  }

  lemma NothingLeftOpen(script: Script)
    ensures !LeftOpen([], script)
  {
  }

  // ----- When the gate is closed in the end -----

  /** Some attempt finds both of its calls working. */
  ghost predicate SomeCleanAttempt(script: Script, time: nat, attempts: nat)
    decreases attempts
  {
    && attempts > 0
    && if script(time).fault.Works? then script(time + 1).fault.Works? || SomeCleanAttempt(script, time + 2, attempts - 1)
       else SomeCleanAttempt(script, time + 1, attempts - 1)
  }

  /** The gate can be closed by us: recovery is enabled, and the gate is closed already or open by us under a lease in order. */
  ghost predicate Closable(w: World, owner: Owner) {
    Recovers(w.row) && (Closed(w.row) || (OpenBy(w.row, owner) && LeaseHolds(w.row, w.lease, owner)))
  }

  lemma QuietCloseOnce(w: World, script: Script, owner: Owner)
    requires Quiet(script)
    ensures var (w1, safe) := CloseOnce(w, script, owner);
      && (safe <==> Closable(w, owner) && script(w.time).fault.Works? && script(w.time + 1).fault.Works?)
      && (!safe ==> (Closable(w1, owner) <==> Closable(w, owner)))
      && (Closable(w, owner) ==> w1.time == if script(w.time).fault.Works? then w.time + 2 else w.time + 1)
  {
    assert script(w.time).others == [] && script(w.time + 1).others == [];
  }

  /** With no other writer the three attempts succeed exactly when the gate can be closed and some attempt meets no
      failing call: a critical failure means that each attempt met one. */
  lemma {:induction false} ClosesExactly(w: World, script: Script, owner: Owner, attempts: nat)
    requires Quiet(script)
    ensures var (w1, r) := EnsureClosed(w, script, owner, attempts);
      r.Ok? <==> Closable(w, owner) && SomeCleanAttempt(script, w.time, attempts)
    decreases attempts
  {
    hide CloseOnce, Closable;
    if attempts > 0 {
      QuietCloseOnce(w, script, owner);
      ClosesExactly(CloseOnce(w, script, owner).0, script, owner, attempts - 1);
    }
  }

  /** With no other writer a run fails to close the gate exactly when each of its last three attempts meets a failing call. */
  lemma CriticalExactly(w: World, script: Script, owner: Owner)
    requires Quiet(script) && Idle(w, owner)
    ensures var (w1, baseline, body) := BeforeClose(w, script, owner);
      && (AtEnd(w, script, owner).1.Err? <==> baseline && !SomeCleanAttempt(script, w1.time, ATTEMPTS))
      && (AtEnd(w, script, owner).1.Err? && Ends(w, script, owner) ==> WholeRun(w, script, owner).1 == Err(Critical))
  {
    hide BeforeClose, EnsureClosed, Tick, SomeCleanAttempt;
    LeaseInvariant(w, script, owner);
    var (w1, baseline, body) := BeforeClose(w, script, owner);
    ClosesExactly(w1, script, owner, ATTEMPTS);
    EnsureClosedKeeps(w1, script, owner, ATTEMPTS);
  }

  /** With no other writer, a run that ends without a critical failure and without losing its connection leaves the gate
      as it was or closed with recovery enabled; a normal return means the latter. */
  lemma QuietRun(w: World, script: Script, owner: Owner)
    requires Quiet(script) && Idle(w, owner)
    ensures var (w1, r) := WholeRun(w, script, owner);
      && (r.Ok? ==> Safe(w1.row))
      && (r.Err? && r.error !in {Critical, DatabaseFailed} ==> w1.row == w.row || Safe(w1.row))
  {
    hide BeforeClose, EnsureClosed, Tick;
    LeaseInvariant(w, script, owner);
    var (w1, baseline, body) := BeforeClose(w, script, owner);
    EnsureClosedKeeps(w1, script, owner, ATTEMPTS);
    TickKeeps(AtEnd(w, script, owner).0, script, owner);
  }

  /** Nothing fails from here on. */
  ghost predicate Clean(script: Script) {
    Quiet(script) && forall n :: script(n).fault.Works?
  }

  /** A canary that meets no failure opens the gate, closes it again, and succeeds. */
  lemma CleanCanary(w: World, script: Script, owner: Owner, controlledPause: bool)
    requires Clean(script) && Safe(w.row)
    ensures var (w1, r) := Canary(w, script, owner, controlledPause);
      r.Ok? && w1.row == Some(Row(false, true, w.row.value.generation + 2, owner)) && w1.lease.None?
  {
    hide EnsureClosed, Run, Quiet;
    var generation := w.row.value.generation;
    var w0 := Tick(w, script);
    CleanTick(w, script);
    CleanTick(w0, script);
    var w1 := World(Some(Row(true, true, generation + 1, owner)), Some(generation + 1), w0.time + 1, w0.log + [Sent(w0.time, true)]);
    assert GateCall(w0, script, owner, true, None) == (w1.(lease := w0.lease), Ok(generation + 1));
    CleanTick(w1, script);
    var w2 := Tick(w1, script);
    CleanTick(w2, script);
    var w3 := if controlledPause then Tick(w2, script) else w2;
    CleanTick(w3, script);
    var w4 := World(Some(Row(false, true, generation + 2, owner)), None, w3.time + 1, w3.log + [Sent(w3.time, false)]);
    assert GateCall(w3, script, owner, false, w3.lease) == (w4.(lease := w3.lease), Ok(generation + 2));
    CleanTick(w4, script);
    CleanTick(Tick(w4, script), script);
  }

  lemma CleanTick(w: World, script: Script)
    requires Clean(script)
    ensures Tick(w, script) == w.(time := w.time + 1) && script(w.time).fault.Works?
  {
    assert script(w.time).others == [];
  }

  /** A run that meets no failure over a safe gate succeeds and leaves it safe. */
  lemma CleanRun(w: World, script: Script, owner: Owner)
    requires Clean(script) && Safe(w.row) && w.lease.None?
    ensures WholeRun(w, script, owner).1.Ok? && Safe(WholeRun(w, script, owner).0.row)
  {
    hide Canary, EnsureClosed, Tick, SomeCleanAttempt;
    CleanTick(w, script);
    var w0 := Tick(w, script);
    CleanTick(w0, script);
    CleanCanaries(Tick(w0, script), script, owner);
    var w1 := Canaries(Tick(w0, script), script, owner).0;
    CleanClose(w1, script, owner);
    CleanTick(EnsureClosed(w1, script, owner, ATTEMPTS).0, script);
  }

  lemma CleanClose(w: World, script: Script, owner: Owner)
    requires Clean(script) && Closable(w, owner)
    ensures var (w1, r) := EnsureClosed(w, script, owner, ATTEMPTS); r.Ok? && Safe(w1.row) && w1.lease.None?
  {
    assert script(w.time).others == [] && script(w.time + 1).others == [];
  }

  lemma CleanCanaries(w: World, script: Script, owner: Owner)
    requires Clean(script) && Safe(w.row)
    ensures var (w1, r) := Canaries(w, script, owner); r.Ok? && Safe(w1.row)
  {
    hide Canary, EnsureClosed, Tick, Run, Quiet;
    CleanCanary(w, script, owner, true);
    var w1 := Canary(w, script, owner, true).0;
    CleanProof(w1, script, owner);
    var w2 := PausedProof(w1, script, owner).0;
    CleanTick(w2, script);
    var w3 := Tick(w2, script);
    CleanCanary(w3, script, owner, false);
    CleanTick(Canary(w3, script, owner, false).0, script);
  }

  lemma CleanProof(w: World, script: Script, owner: Owner)
    requires Clean(script) && Safe(w.row)
    ensures var (w1, r) := PausedProof(w, script, owner); r.Ok? && Safe(w1.row)
  {
    hide EnsureClosed, Run, Quiet;
    var generation := w.row.value.generation;
    var w0 := Tick(w, script);
    CleanTick(w, script);
    CleanTick(w0, script);
    var w1 := World(Some(Row(true, true, generation + 1, owner)), Some(generation + 1), w0.time + 1, w0.log + [Sent(w0.time, true)]);
    assert GateCall(w0, script, owner, true, None) == (w1.(lease := w0.lease), Ok(generation + 1));
    CleanTick(w1, script);
    CleanClose(Tick(w1, script), script, owner);
  }

  // ----- A run that ends open and unreported -----

  function FailingFrom(k: nat): Script {
    (n: nat) => Await([], if n < k then Works else FailsBefore)
  }

  lemma {:induction false} NoAttemptWorks(w: World, k: nat, owner: Owner, attempts: nat)
    requires k <= w.time
    ensures var (w1, r) := EnsureClosed(w, FailingFrom(k), owner, attempts);
      w1 == World(w.row, w.lease, w.time + attempts, w1.log) && r == Err(Critical)
    decreases attempts
  {
    if attempts > 0 {
      NoAttemptWorks(CloseOnce(w, FailingFrom(k), owner).0, k, owner, attempts - 1);
    }
  }

  /** The connection breaks for good right after the canary opened the gate: the run ends with the gate open by this
      process, and its caller sees only that the database failed. */
  lemma UnreportedWitness(owner: Owner)
    ensures var start := World(Some(Row(false, true, 7, "operator")), None, 0, []);
      var (end, r) := WholeRun(start, FailingFrom(4), owner);
      Idle(start, owner) && end.row == Some(Row(true, true, 8, owner)) && r == Err(DatabaseFailed)
  {
    hide EnsureClosed;
    var script := FailingFrom(4);
    var closed, open, log := Some(Row(false, true, 7, "operator")), Some(Row(true, true, 8, owner)), [Sent(3, true)];
    var w1 := World(closed, None, 2, []);
    NoAttemptWorks(World(open, Some(8), 5, log), 4, owner, ATTEMPTS);
    assert CanaryBody(World(closed, None, 3, []), script, owner, true) == (World(open, Some(8), 5, log), true, Err(StepFailed)) by {
      assert [] + [Sent(3, true)] == log;
    }
    var w2 := EnsureClosed(World(open, Some(8), 5, log), script, owner, ATTEMPTS).0;
    assert Canary(w1, script, owner, true) == (w2, Err(Critical));
    assert BeforeClose(World(closed, None, 0, []), script, owner) == (Tick(w2, script), true, Err(EnrollmentUnsafe));
    NoAttemptWorks(Tick(w2, script), 4, owner, ATTEMPTS);
  }

  // ----- Lifecycle and recovery -----

  /** The lifecycle leaves the gate open by this process only if it reports that a safety state or the database failed. */
  lemma LifecycleSafe(w: World, script: Script, owner: Owner)
    requires Foreign(script, owner) && !OpenBy(w.row, owner)
    ensures var (w1, r) := Lifecycle(w, script, owner);
      && (r.Ok? || r.error !in {SafetyUnverified, DatabaseFailed} ==> !OpenBy(w1.row, owner) && Recovers(w1.row))
      && (Quiet(script) && (r.Ok? || r.error !in {SafetyUnverified, DatabaseFailed}) ==> Safe(w1.row))
  {
    hide WholeRun, EnsureClosed, Tick;
    TickKeeps(w.(lease := None), script, owner);
    assert Tick(w, script).(lease := None) == Tick(w.(lease := None), script) by { TickLease(w, script); }
    var w0 := Tick(w.(lease := None), script);
    RunSafeExactly(w0, script, owner);
    if Quiet(script) { QuietRun(w0, script, owner); }
    var w1 := if script(w.time).fault.Works? then WholeRun(w0, script, owner).0 else Tick(w, script);
    var w2 := Tick(w1, script).(lease := None);
    EnsureClosedKeeps(w2, script, owner, ATTEMPTS);
    TickKeeps(EnsureClosed(w2, script, owner, ATTEMPTS).0, script, owner);
  }

  lemma TickLease(w: World, script: Script)
    ensures Tick(w, script).(lease := None) == Tick(w.(lease := None), script)
  {
  }

  /** The calls of others between two awaits. */
  ghost function OthersBetween(script: Script, from: nat, to: nat): seq<Call>
    decreases to
  {
    if to <= from then [] else OthersBetween(script, from, to - 1) + script(to - 1).others
  }

  lemma {:induction false} RunConcat(row: Option<Row>, a: seq<Call>, b: seq<Call>)
    ensures Run(row, a + b) == Run(Run(row, a), b)
  {
    if b == [] {
      assert a + b == a;
    } else {
      RunConcat(row, a, b[..|b| - 1]);
      assert (a + b)[..|a + b| - 1] == a + b[..|b| - 1];
    }
  }

  /** The row is what the calls of others made of it since `since`, and is not ours. */
  ghost predicate Untouched(start: World, w: World, script: Script, owner: Owner) {
    && start.time <= w.time && w.row == Run(start.row, OthersBetween(script, start.time, w.time))
    && (w.row.Some? ==> w.row.value.updatedBy != owner)
  }

  lemma UntouchedTick(start: World, w: World, script: Script, owner: Owner)
    requires Foreign(script, owner) && Untouched(start, w, script, owner)
    ensures Untouched(start, Tick(w, script), script, owner)
  {
    OthersRun(w.row, owner, script(w.time).others);
    RunConcat(start.row, OthersBetween(script, start.time, w.time), script(w.time).others);
  }

  lemma UntouchedCloseOnce(start: World, w: World, script: Script, owner: Owner)
    requires Foreign(script, owner) && Untouched(start, w, script, owner)
    ensures Untouched(start, CloseOnce(w, script, owner).0, script, owner)
  {
    hide Untouched, Run;
    UntouchedTick(start, w, script, owner);
    NotOurs(start, Tick(w, script), script, owner);
    var w1 := GateCall(w, script, owner, false, w.lease).0;
    assert w1 == Tick(w, script).(log := w1.log);
    UntouchedSame(start, Tick(w, script), w1, script, owner);
    UntouchedSame(start, w1, w1.(lease := None), script, owner);
    UntouchedTick(start, w1.(lease := None), script, owner);
  }

  lemma NotOurs(start: World, w: World, script: Script, owner: Owner)
    requires Untouched(start, w, script, owner)
    ensures w.row.Some? ==> w.row.value.updatedBy != owner
  {
  }

  lemma UntouchedSame(start: World, w: World, v: World, script: Script, owner: Owner)
    requires Untouched(start, w, script, owner) && v.row == w.row && v.time == w.time
    ensures Untouched(start, v, script, owner)
  {
  }

  lemma {:induction false} UntouchedEnsureClosed(start: World, w: World, script: Script, owner: Owner, attempts: nat)
    requires Foreign(script, owner) && Untouched(start, w, script, owner)
    ensures Untouched(start, EnsureClosed(w, script, owner, attempts).0, script, owner)
    decreases attempts
  {
    hide CloseOnce, Untouched;
    if attempts > 0 {
      UntouchedCloseOnce(start, w, script, owner);
      UntouchedEnsureClosed(start, CloseOnce(w, script, owner).0, script, owner, attempts - 1);
    }
  }

  /** Recovery in a process that never tagged the row changes nothing itself: the row ends as the other processes alone
      would have left it, and recovery succeeds only over a closed gate with recovery enabled. */
  lemma RecoveryTouchesNothing(w: World, script: Script, owner: Owner)
    requires Foreign(script, owner) && (w.row.Some? ==> w.row.value.updatedBy != owner)
    ensures var (w1, r) := Recovery(w, script, owner);
      w1.row == Run(w.row, OthersBetween(script, w.time, w1.time)) && (r.Ok? ==> Safe(w1.row))
    ensures Quiet(script) && !Safe(w.row) ==> Recovery(w, script, owner).1.Err?
  {
    hide EnsureClosed, Tick, Untouched, SomeCleanAttempt;
    var start := w.(lease := None);
    assert Untouched(start, start, script, owner) by { UntouchedStart(start, script, owner); }
    UntouchedEnsureClosed(start, start, script, owner, ATTEMPTS);
    EnsureClosedKeeps(start, script, owner, ATTEMPTS);
    var w1 := EnsureClosed(start, script, owner, ATTEMPTS).0;
    UntouchedTick(start, w1, script, owner);
    var w2 := Tick(w1, script);
    UntouchedTick(start, w2, script, owner);
    var w3 := Tick(w2, script);
    UntouchedTick(start, w3, script, owner);
    TickKeeps(w1, script, owner);
    TickKeeps(w2, script, owner);
    TickKeeps(w3, script, owner);
    UntouchedMeans(start, Recovery(w, script, owner).0, script, owner);
    if Quiet(script) { ClosesExactly(start, script, owner, ATTEMPTS); }
  }

  lemma UntouchedStart(start: World, script: Script, owner: Owner)
    requires start.row.Some? ==> start.row.value.updatedBy != owner
    ensures Untouched(start, start, script, owner)
  {
  }

  lemma UntouchedMeans(start: World, w: World, script: Script, owner: Owner)
    requires Untouched(start, w, script, owner)
    ensures w.row == Run(start.row, OthersBetween(script, start.time, w.time))
  {
  }

  lemma ClosingFacts(w: World, script: Script, owner: Owner)
    ensures var (w1, r) := EnsureClosed(w, script, owner, ATTEMPTS);
      && (r.Err? ==> r.error.Critical?)
      && (Foreign(script, owner) && Holds(w, owner) ==> Holds(w1, owner) && (r.Ok? ==> Safe(w1.row) && w1.lease.None?))
      && (Quiet(script) ==> (r.Ok? <==> Closable(w, owner) && SomeCleanAttempt(script, w.time, ATTEMPTS)))
  {
    hide Closable, SomeCleanAttempt, Foreign, Quiet, Holds;
    OnlyCritical(w, script, owner, ATTEMPTS);
    if Foreign(script, owner) && Holds(w, owner) { EnsureClosedKeeps(w, script, owner, ATTEMPTS); }
    if Quiet(script) { ClosesExactly(w, script, owner, ATTEMPTS); }
  }

  lemma {:induction false} OnlyCritical(w: World, script: Script, owner: Owner, attempts: nat)
    ensures var r := EnsureClosed(w, script, owner, attempts).1; r.Err? ==> r.error.Critical?
    decreases attempts
  {
    if attempts > 0 {
      OnlyCritical(CloseOnce(w, script, owner).0, script, owner, attempts - 1);
    }
  }
}
