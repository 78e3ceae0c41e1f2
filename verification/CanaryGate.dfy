/** The production start gate that an Autoswap canary opens and closes: one control row, changed only by
    generation-fenced transactions that are tagged with their owner. */
module CanaryGate {
  import opened Wrappers

  /** A process tags its changes with a random id of its own. */
  type Owner = string

  datatype Row = Row(startNewMovements: bool, continueOrRecover: bool, generation: int, updatedBy: Owner)

  datatype Failure =
    | RowMissing | RecoveryDisabled | OpenedByAnother | OwnershipChanged
    | ConnectionLost            // a call that failed before or after it took effect
    | StepFailed                // any other step of the canary
    | Critical                  // the gate could not be closed and verified
    | EnrollmentUnsafe          // the enrollment could not be verified after a failure
    | SafetyUnverified          // the lifecycle failed and a safety state could not be verified
    | DatabaseFailed            // opening or ending the database connection threw

  predicate OpenBy(row: Option<Row>, owner: Owner) {
    row.Some? && row.value.startNewMovements && row.value.updatedBy == owner
  }

  predicate Closed(row: Option<Row>) {
    row.Some? && !row.value.startNewMovements
  }

  // ----- The atomic transaction -----

  /** `setCanaryStartGate` as one transaction: the row it leaves and the answer it gives. The row is locked from
      the read on, so the generation fence of the final update always holds. */
  function SetGate(row: Option<Row>, owner: Owner, enabled: bool, owned: Option<int>): (Option<Row>, Result<int, Failure>) {
    if row.None? then (row, Err(RowMissing))
    else
      var current := row.value;
      if enabled && !current.continueOrRecover then (row, Err(RecoveryDisabled))
      else if enabled && current.startNewMovements then (row, Err(OpenedByAnother))
      else if !enabled && !current.startNewMovements then (row, Ok(current.generation))
      else if !enabled && (current.updatedBy != owner || (owned.Some? && owned.value != current.generation))
      then (row, Err(OwnershipChanged))
      else
        var updated := Row(enabled, current.continueOrRecover, current.generation + 1, owner);
        (Some(updated), Ok(updated.generation))
  }

  // ----- Any interleaving of any processes -----

  /** One call of `setCanaryStartGate` by some process; an aborted transaction leaves no trace. */
  datatype Call = Call(owner: Owner, enabled: bool, owned: Option<int>, committed: bool)

  function Step(row: Option<Row>, call: Call): Option<Row> {
    if call.committed then SetGate(row, call.owner, call.enabled, call.owned).0 else row
  }

  function Run(row: Option<Row>, calls: seq<Call>): Option<Row> {
    if calls == [] then row else Step(Run(row, calls[..|calls| - 1]), calls[|calls| - 1])
  }

  datatype Change = Change(owner: Owner, opens: bool, generation: int)

  /** The committed changes of a run, in order. */
  function Changes(row: Option<Row>, calls: seq<Call>): seq<Change> {
    if calls == [] then []
    else
      var before := Run(row, calls[..|calls| - 1]);
      var after := Step(before, calls[|calls| - 1]);
      Changes(row, calls[..|calls| - 1]) +
      (if after == before || after.None? then []
       else [Change(after.value.updatedBy, after.value.startNewMovements, after.value.generation)])
  }

  /** The owner and position of the gate before change `k`. */
  ghost function OwnerBefore(start: Row, changes: seq<Change>, k: nat): Owner
    requires k <= |changes|
  {
    if k == 0 then start.updatedBy else changes[k - 1].owner
  }

  ghost function OpenBefore(start: Row, changes: seq<Change>, k: nat): bool
    requires k <= |changes|
  {
    if k == 0 then start.startNewMovements else changes[k - 1].opens
  }

  /** The history of the row: generations grow by exactly one, opening and closing alternate, only the process
      that opened the gate closes it, and it opens only while recovery is enabled. */
  ghost predicate Alternating(start: Row, changes: seq<Change>) {
    forall k :: 0 <= k < |changes| ==>
      && changes[k].generation == start.generation + k + 1
      && changes[k].opens == !OpenBefore(start, changes, k)
      && (!changes[k].opens ==> changes[k].owner == OwnerBefore(start, changes, k))
      && (changes[k].opens ==> start.continueOrRecover)
  }

  lemma AlternatingExtends(start: Row, changes: seq<Change>, next: Change)
    requires Alternating(start, changes)
    requires next.generation == start.generation + |changes| + 1
    requires next.opens == !OpenBefore(start, changes, |changes|)
    requires !next.opens ==> next.owner == OwnerBefore(start, changes, |changes|)
    requires next.opens ==> start.continueOrRecover
    ensures Alternating(start, changes + [next])
  {
    var grown := changes + [next];
    forall k | 0 <= k < |grown|
      ensures grown[k].generation == start.generation + k + 1
      ensures grown[k].opens == !OpenBefore(start, grown, k)
      ensures !grown[k].opens ==> grown[k].owner == OwnerBefore(start, grown, k)
      ensures grown[k].opens ==> start.continueOrRecover
    {
      assert OpenBefore(start, grown, k) == OpenBefore(start, changes, k);
      assert OwnerBefore(start, grown, k) == OwnerBefore(start, changes, k);
    }
  }

  /** A call leaves the row alone or flips the gate at the next generation. */
  lemma StepShape(before: Row, call: Call)
    ensures Step(Some(before), call) == Some(before) || (
      && Step(Some(before), call) == Some(Row(!before.startNewMovements, before.continueOrRecover, before.generation + 1, call.owner))
      && (before.startNewMovements ==> call.owner == before.updatedBy)
      && (!before.startNewMovements ==> before.continueOrRecover))
  {
  }

  /** Over every interleaving of calls by any processes the history of the row alternates, and the row is what
      its last change left. */
  lemma {:induction false} HistoryAlternates(start: Row, calls: seq<Call>)
    ensures var changes := Changes(Some(start), calls);
      && Alternating(start, changes)
      && Run(Some(start), calls) == Some(Row(OpenBefore(start, changes, |changes|), start.continueOrRecover,
                                             start.generation + |changes|, OwnerBefore(start, changes, |changes|)))
  {
    hide Step, Alternating;
    if calls == [] {
      NoChangesAlternate(start);
    } else {
      var init, last := calls[..|calls| - 1], calls[|calls| - 1];
      HistoryAlternates(start, init);
      StepShape(Run(Some(start), init).value, last);
      var changes := Changes(Some(start), init);
      var before := Run(Some(start), init);
      var after := Step(before, last);
      if after != before {
        AlternatingExtends(start, changes, Change(after.value.updatedBy, after.value.startNewMovements, after.value.generation));
      } else {
        assert changes + [] == changes;
      }
    }
  }

  lemma NoChangesAlternate(start: Row)
    ensures Alternating(start, [])
  {
  }

  /** While the gate is open, nothing any other process calls can change the row. */
  lemma {:induction false} OpenGateIsExclusive(row: Option<Row>, owner: Owner, calls: seq<Call>)
    requires OpenBy(row, owner) && forall c :: c in calls ==> c.owner != owner
    ensures Run(row, calls) == row
  {
    if calls != [] {
      OpenGateIsExclusive(row, owner, calls[..|calls| - 1]);
      assert calls[|calls| - 1] in calls;
    }
  }

  /** Closing under a lease is fenced: it takes effect only if nothing at all was committed since the lease was
      granted, whoever committed it and whatever the gate looks like by then. */
  lemma FencedClose(row: Option<Row>, owner: Owner, since: seq<Call>, closer: Owner)
    requires SetGate(row, owner, true, None).1.Ok?
    ensures var granted := SetGate(row, owner, true, None);
      var at := Run(granted.0, since);
      SetGate(at, closer, false, Some(granted.1.value)).0 != at ==>
        closer == owner && at == granted.0 && Changes(granted.0, since) == []
  {
    var granted := SetGate(row, owner, true, None);
    HistoryAlternates(granted.0.value, since);
  }

  /** If the gate is open by us, the lease is unknown or names the generation of the row. */
  ghost predicate LeaseHolds(row: Option<Row>, lease: Option<int>, owner: Owner) {
    OpenBy(row, owner) ==> lease.None? || lease.value == row.value.generation
  }

  /** A lease in good order can always close the gate it opened. */
  lemma HeldLeaseCloses(row: Option<Row>, owner: Owner, lease: Option<int>)
    requires OpenBy(row, owner)
    ensures SetGate(row, owner, false, lease).1.Ok? <==> LeaseHolds(row, lease, owner)
    ensures LeaseHolds(row, lease, owner) ==> Closed(SetGate(row, owner, false, lease).0)
  {
  }

  lemma {:induction false} NeverTagged(row: Option<Row>, owner: Owner, calls: seq<Call>)
    requires row.Some? ==> row.value.updatedBy != owner
    requires forall c :: c in calls && c.owner == owner ==> !c.enabled
    ensures Run(row, calls).Some? <==> row.Some?
    ensures Run(row, calls).Some? ==> Run(row, calls).value.updatedBy != owner
  {
    if calls != [] {
      NeverTagged(row, owner, calls[..|calls| - 1]);
      assert calls[|calls| - 1] in calls;
    }
  }

  /** A process that never opened the gate cannot close it either: whatever other processes do in between, each of
      its closing calls leaves the row alone, and succeeds exactly when the gate is closed already. */
  lemma FreshProcessNeverCloses(row: Option<Row>, owner: Owner, before: seq<Call>, owned: Option<int>)
    requires row.Some? ==> row.value.updatedBy != owner
    requires forall c :: c in before && c.owner == owner ==> !c.enabled
    ensures var at := Run(row, before);
      && SetGate(at, owner, false, owned).0 == at
      && (SetGate(at, owner, false, owned).1.Ok? <==> Closed(at))
  {
    NeverTagged(row, owner, before);
  }
}
