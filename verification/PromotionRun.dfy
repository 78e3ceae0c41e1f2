/** The promotion script as a run over a database that others write to between its calls, and whose answers may be lost. */
module PromotionRun {
  import opened Wrappers
  import opened Faults
  import opened Seqs
  import opened Sets
  import opened Promotion

  datatype Tables = Tables(policies: map<int, Policy>, vaults: map<int, Vault>, control: Option<Control>)

  /** A row of the audit: an active policy and how many active vaults it routes. */
  datatype AuditRow = AuditRow(account: string, vaults: nat)

  /** What the audit found: the accounts the chain has and has not, the slot, and how many vaults the latter route. */
  datatype Plan = Plan(eligible: seq<string>, absent: seq<string>, slot: int, expectedVaults: nat)

  /** What other writers do right before the n-th call. */
  type Others = nat -> Tables -> Tables

  /** They cannot break the unique index. */
  ghost predicate KeepIndex(others: Others) {
    forall n: nat, t: Tables :: UniqueAccounts(t.policies) ==> UniqueAccounts(others(n)(t).policies)
  }

  // ----- The vault count -----

  function RoutedBy(vaults: map<int, Vault>, policy: int): set<int> {
    set v | v in vaults && vaults[v].active && vaults[v].activePolicy == Some(policy)
  }

  /** The active vaults that a policy of one of these accounts routes. */
  function Routed(t: Tables, accounts: seq<string>): set<int> {
    set v | v in t.vaults && t.vaults[v].active && RefersTo(t.vaults[v].activePolicy, t.policies, accounts)
  }

  function AccountList(rows: seq<AuditRow>): seq<string> {
    seq(|rows|, i requires 0 <= i < |rows| => rows[i].account)
  }

  /** The rows are those of these policies, each once. */
  ghost predicate RowsOf(rows: seq<AuditRow>, ids: seq<int>, t: Tables, policies: set<int>) {
    && |ids| == |rows| && Distinct(ids) && Elements(ids) == policies
    && forall i :: 0 <= i < |ids| ==>
      ids[i] in t.policies && rows[i] == AuditRow(t.policies[ids[i]].account, |RoutedBy(t.vaults, ids[i])|)
  }

  ghost predicate IsAudit(rows: seq<AuditRow>, ids: seq<int>, t: Tables) {
    RowsOf(rows, ids, t, ActiveIds(t.policies))
  }

  lemma NoRows(t: Tables)
    ensures RowsOf([], [], t, ActiveIds(t.policies) - ActiveIds(t.policies))
  {
  }

  lemma OneMoreRow(rows: seq<AuditRow>, ids: seq<int>, t: Tables, policies: set<int>, p: int)
    requires RowsOf(rows, ids, t, policies) && p in t.policies && p !in policies
    ensures RowsOf(rows + [AuditRow(t.policies[p].account, |RoutedBy(t.vaults, p)|)], ids + [p], t, policies + {p})
  {
    assert forall x :: x in ids + [p] <==> x in ids || x == p;
    forall i | 0 <= i < |ids| ensures ids[i] != p {
      assert ids[i] in Elements(ids);
    }
  }

  /** The sum over the audited rows that the chain does not have. */
  function ExpectedVaults(rows: seq<AuditRow>, absent: seq<string>): nat {
    if rows == [] then 0
    else
      var last := rows[|rows| - 1];
      ExpectedVaults(rows[..|rows| - 1], absent) + (if last.account in absent then last.vaults else 0)
  }

  /** The split of the accounts by what the chain answered, and the lowest slot at which it did. */
  ghost predicate Splits(accounts: seq<string>, replies: seq<Reply>, chain: seq<ChainAccount>, plan: Plan) {
    && |chain| == |accounts| && (forall k: nat :: k * BATCH_SIZE < |accounts| ==> AnsweredBy(accounts, replies, chain, k))
    && plan.absent == AbsentOf(accounts, chain) && plan.eligible == Remaining(accounts, plan.absent)
    && (forall k :: 0 <= k < |replies| && k * BATCH_SIZE < |accounts| ==> replies[k].slot.Some? && plan.slot <= replies[k].slot.value)
    && (plan.slot == MAX_SAFE_INTEGER || AnsweredAt(replies, plan.slot))
  }

  ghost predicate SplitBy(accounts: seq<string>, replies: seq<Reply>, plan: Plan) {
    exists chain :: Splits(accounts, replies, chain, plan)
  }

  lemma AbsentAreAudited(rows: seq<AuditRow>, chain: seq<ChainAccount>)
    requires |chain| == |rows| && Distinct(AccountList(rows))
    ensures forall a :: a in AbsentOf(AccountList(rows), chain) ==> a in AccountList(rows)
  {
    AbsentAreDistinct(AccountList(rows), chain);
  }

  lemma AuditedAccounts(rows: seq<AuditRow>, ids: seq<int>, t: Tables)
    requires IsAudit(rows, ids, t) && UniqueAccounts(t.policies)
    ensures Distinct(AccountList(rows)) && Elements(AccountList(rows)) == AccountsOf(t.policies, ActiveIds(t.policies))
    ensures |rows| == |ActiveIds(t.policies)|
  {
    var list, accounts := AccountList(rows), AccountsOf(t.policies, ActiveIds(t.policies));
    DistinctCard(ids);
    forall i, j | 0 <= i < j < |list| ensures list[i] != list[j] {
      assert ids[i] != ids[j];
    }
    forall a | a in list ensures a in accounts {
      var i :| 0 <= i < |list| && list[i] == a;
      assert ids[i] in Elements(ids);
    }
    forall a | a in accounts ensures a in list {
      var p :| p in ActiveIds(t.policies) && t.policies[p].account == a;
      assert p in Elements(ids);
      var i :| 0 <= i < |ids| && ids[i] == p;
      assert list[i] == a;
    }
  }

  function RoutedAmong(t: Tables, ids: seq<int>, absent: seq<string>): set<int> {
    set v | v in t.vaults && t.vaults[v].active && t.vaults[v].activePolicy.Some? && t.vaults[v].activePolicy.value in ids
      && RefersTo(t.vaults[v].activePolicy, t.policies, absent)
  }

  lemma RoutedOneMore(t: Tables, ids: seq<int>, p: int, absent: seq<string>)
    requires p !in ids && p in t.policies
    ensures |RoutedAmong(t, ids + [p], absent)|
      == |RoutedAmong(t, ids, absent)| + (if t.policies[p].account in absent then |RoutedBy(t.vaults, p)| else 0)
  {
    var more := if t.policies[p].account in absent then RoutedBy(t.vaults, p) else {};
    assert forall q :: q in ids + [p] <==> q in ids || q == p;
    forall v | v in t.vaults ensures v in RoutedAmong(t, ids + [p], absent) <==> v in RoutedAmong(t, ids, absent) || v in more {
      if t.vaults[v].activePolicy == Some(p) {
        assert RefersTo(t.vaults[v].activePolicy, t.policies, absent) <==> t.policies[p].account in absent;
      }
    }
    assert RoutedAmong(t, ids + [p], absent) == RoutedAmong(t, ids, absent) + more;
    assert RoutedAmong(t, ids, absent) !! more;
  }

  lemma {:induction false} SumCounts(rows: seq<AuditRow>, ids: seq<int>, t: Tables, absent: seq<string>)
    requires |ids| == |rows| && Distinct(ids)
    requires forall i :: 0 <= i < |ids| ==>
      ids[i] in t.policies && rows[i] == AuditRow(t.policies[ids[i]].account, |RoutedBy(t.vaults, ids[i])|)
    ensures ExpectedVaults(rows, absent) == |RoutedAmong(t, ids, absent)|
    decreases |ids|
  {
    if ids != [] {
      var n := |ids| - 1;
      var init, last := ids[..n], ids[n];
      SumCounts(rows[..n], init, t, absent);
      assert ids == init + [last];
      RoutedOneMore(t, init, last, absent);
    } else {
      assert RoutedAmong(t, ids, absent) == {};
    }
  }

  /** The expected count is the number of vaults that absent policies route at the audit. */
  lemma ExpectedIsRouted(rows: seq<AuditRow>, ids: seq<int>, t: Tables, absent: seq<string>)
    requires IsAudit(rows, ids, t) && UniqueAccounts(t.policies)
    requires forall a :: a in absent ==> a in AccountList(rows)
    ensures ExpectedVaults(rows, absent) == |Routed(t, absent)|
  {
    SumCounts(rows, ids, t, absent);
    forall v | v in Routed(t, absent) ensures v in RoutedAmong(t, ids, absent) {
      var p := t.vaults[v].activePolicy.value;
      var i :| 0 <= i < |rows| && rows[i].account == t.policies[p].account;
      assert ids[i] == p;
    }
    assert Routed(t, absent) == RoutedAmong(t, ids, absent);
  }

  // ----- The checks after the commit -----

  function FinalizedIds(policies: map<int, Policy>): set<int> {
    set p | p in policies && policies[p].active && Finalized(policies[p])
  }

  /** The two counts agree with the audit exactly when so many policies are active and all of them are finalized. */
  lemma CountsPassExactly(policies: map<int, Policy>, count: nat)
    ensures |ActiveIds(policies)| == count && |FinalizedIds(policies)| == count
      <==> |ActiveIds(policies)| == count && forall p :: p in ActiveIds(policies) ==> Finalized(policies[p])
  {
    SubsetCard(FinalizedIds(policies), ActiveIds(policies));
    if forall p :: p in ActiveIds(policies) ==> Finalized(policies[p]) {
      assert FinalizedIds(policies) == ActiveIds(policies);
    }
  }

  /** They do on the tables the transaction leaves behind. */
  lemma PromotedCounts(accounts: seq<string>, plan: Plan, lock: Tables, after: Tables)
    requires UniqueAccounts(lock.policies) && Distinct(plan.eligible)
    requires Promotes(accounts, plan.eligible, plan.absent, plan.slot, lock.policies, lock.vaults, after.policies, after.vaults)
    ensures UniqueAccounts(after.policies)
    ensures |ActiveIds(after.policies)| == |plan.eligible| && forall p :: p in ActiveIds(after.policies) ==> Finalized(after.policies[p])
  {
    AsManyAs(after.policies, ActiveIds(after.policies), plan.eligible);
  }

  // ----- The run -----

  /** What an error says about the transaction. */
  datatype Status = NotCommitted | Committed | Unknown

  function StatusOf(error: ScriptError): Status {
    match error
    case TransactionLost => Unknown
    case VaultCountChanged => Committed
    case ReadBackLost => Committed
    case ActiveCountChanged => Committed
    case NotAllEligible => Committed
    case GateUnsafe => Committed
    case _ => NotCommitted
  }

  /** The tables at each call of a run: read by the audit, locked, left by the transaction, and read twice after it. */
  datatype Seen = Seen(accounts: seq<string>, audit: Tables, lock: Tables, committed: bool, after: Tables, counts: Tables, gate: Tables)

  ghost predicate Happened(others: Others, t: nat, start: Tables, seen: Seen) {
    && seen.audit == others(t)(start) && seen.lock == others(t + 1)(seen.audit)
    && seen.counts == others(t + 2)(seen.after) && seen.gate == others(t + 3)(seen.counts)
    && UniqueAccounts(seen.audit.policies) && UniqueAccounts(seen.lock.policies)
    && Distinct(seen.accounts) && Elements(seen.accounts) == AccountsOf(seen.audit.policies, ActiveIds(seen.audit.policies))
  }

  /** The tables after so many calls. */
  function Reached(seen: Seen, calls: int): Tables {
    if calls == 1 then seen.audit else if calls == 2 then seen.after else if calls == 3 then seen.counts else seen.gate
  }

  /** What the committed transaction did. */
  ghost predicate Promoting(plan: Plan, seen: Seen) {
    && Promotes(seen.accounts, plan.eligible, plan.absent, plan.slot, seen.lock.policies, seen.lock.vaults, seen.after.policies, seen.after.vaults)
    && seen.after.control == Some(Control(false, true))
  }

  ghost predicate AuditPasses(script: nat -> Fault, t: nat, expectedCount: int, replies: seq<Reply>, seen: Seen) {
    && script(t).Works? && |ActiveIds(seen.audit.policies)| == expectedCount
    && AllAnswered(seen.accounts, replies)
  }

  ghost predicate AllAnswered(accounts: seq<string>, replies: seq<Reply>) {
    forall k: nat :: k * BATCH_SIZE < |accounts| ==> Answered(accounts, replies, k)
  }

  /** Why a run ends before the transaction. */
  ghost predicate EndsEarly(error: ScriptError, script: nat -> Fault, t: nat, expectedCount: int, replies: seq<Reply>, seen: Seen) {
    if !script(t).Works? then error == AuditLost
    else if |ActiveIds(seen.audit.policies)| != expectedCount then error == CountChanged
    else if !AllAnswered(seen.accounts, replies) then error in AUDIT_ERRORS
    else error == NoneLeft
  }

  /** How a run ends from the transaction on, in terms of the tables at each of its calls. */
  ghost function Verdict(script: nat -> Fault, t: nat, plan: Plan, seen: Seen): Result<(), ScriptError> {
    if !script(t + 1).Works? then Err(TransactionLost)
    else if !Promotable(plan.eligible, plan.absent, seen.lock.policies, seen.lock.control) then Err(FenceFailed)
    else if |Routed(seen.lock, plan.absent)| != |Routed(seen.audit, plan.absent)| then Err(VaultCountChanged)
    else AfterRead(script, t + 2, |plan.eligible|, seen)
  }

  /** The two reads are answered and find, each at its own moment, as many policies active, all of them finalized, and the
      gate closed for new movements and open for recovery. */
  ghost function AfterRead(script: nat -> Fault, t: nat, count: nat, seen: Seen): Result<(), ScriptError> {
    if !script(t).Works? || !script(t + 1).Works? then Err(ReadBackLost)
    else if |ActiveIds(seen.counts.policies)| != count then Err(ActiveCountChanged)
    else if exists p :: p in ActiveIds(seen.counts.policies) && !Finalized(seen.counts.policies[p]) then Err(NotAllEligible)
    else if seen.gate.control != Some(Control(false, true)) then Err(GateUnsafe)
    else Ok(())
  }

  lemma ReadAfterCommit(script: nat -> Fault, t: nat, count: nat, seen: Seen)
    ensures AfterRead(script, t, count, seen).Err? ==> StatusOf(AfterRead(script, t, count, seen).error).Committed?
  {
  }

  /** The vault count changes only if the routed vaults do: it is the audited one when neither a vault nor the account of
      a policy changed between audit and lock. */
  lemma UnchangedVaultsCount(audit: Tables, lock: Tables, absent: seq<string>)
    requires UniqueAccounts(lock.policies) && lock.vaults == audit.vaults
    requires forall p :: p in audit.policies ==> p in lock.policies && lock.policies[p].account == audit.policies[p].account
    requires forall a :: a in absent ==> a in AccountsOf(audit.policies, ActiveIds(audit.policies))
    ensures Routed(lock, absent) == Routed(audit, absent)
  {
    forall v | v in Routed(lock, absent) ensures v in Routed(audit, absent) {
      var p := lock.vaults[v].activePolicy.value;
      assert lock.policies[p].account in AccountsOf(audit.policies, ActiveIds(audit.policies));
      var q :| q in ActiveIds(audit.policies) && audit.policies[q].account == lock.policies[p].account;
      assert p == q;
    }
    forall v | v in Routed(audit, absent) ensures v in Routed(lock, absent) {
      var p := audit.vaults[v].activePolicy.value;
      assert p in lock.policies;
    }
  }

  /** A run as it would be without a transaction. */
  ghost function Alone(others: Others, t: nat, accounts: seq<string>, audit: Tables): Seen {
    var lock := others(t + 1)(audit);
    var counts := others(t + 2)(lock);
    Seen(accounts, audit, lock, false, lock, counts, others(t + 3)(counts))
  }

  lemma KeptUnique(accounts: seq<string>, plan: Plan, lock: Tables, after: Tables)
    requires UniqueAccounts(lock.policies)
    requires Promotes(accounts, plan.eligible, plan.absent, plan.slot, lock.policies, lock.vaults, after.policies, after.vaults)
    ensures UniqueAccounts(after.policies)
  {
  }

  /** A run during which nobody else writes, and no answer is lost, succeeds if it commits. */
  lemma AloneSucceeds(others: Others, script: nat -> Fault, t: nat, start: Tables, plan: Plan, seen: Seen)
    requires Happened(others, t, start, seen) && Audited(seen.accounts, plan.eligible, plan.absent)
    requires forall n: nat, x: Tables :: n > t ==> others(n)(x) == x
    requires Promotable(plan.eligible, plan.absent, seen.lock.policies, seen.lock.control) && Promoting(plan, seen)
    requires !Fails(script, t + 1, t + 4)
    ensures Verdict(script, t, plan, seen) == Ok(())
  {
    hide Promotes, Promotable, UniqueAccounts, Distinct, Finalized;
    PromotedCounts(seen.accounts, plan, seen.lock, seen.after);
  }

  /** A vault that starts to be routed by an absent policy between audit and lock: the fences pass, the count differs, and
      the run reports a failure after the commit. */
  lemma VaultCountWitness() returns (audit: Tables, lock: Tables, plan: Plan)
    ensures UniqueAccounts(audit.policies) && lock == audit.(vaults := lock.vaults)
    ensures Audited(plan.eligible + plan.absent, plan.eligible, plan.absent)
    ensures Elements(plan.eligible + plan.absent) == AccountsOf(audit.policies, ActiveIds(audit.policies))
    ensures Promotable(plan.eligible, plan.absent, lock.policies, lock.control)
    ensures forall script: nat -> Fault, t: nat, seen: Seen :: script(t + 1).Works? && seen.audit == audit && seen.lock == lock ==>
      Verdict(script, t, plan, seen) == Err(VaultCountChanged)
  {
    var policies := map[1 := Policy("a", true, "unknown", "unknown", false), 2 := Policy("b", true, "unknown", "unknown", false)];
    audit := Tables(policies, map[], None);
    lock := Tables(policies, map[7 := Vault(true, Some(2), None, None)], None);
    plan := Plan(["a"], ["b"], 0, 0);
    WitnessCounts(audit, lock, plan.eligible, plan.absent);
  }

  lemma WitnessCounts(audit: Tables, lock: Tables, eligible: seq<string>, absent: seq<string>)
    requires audit.policies == map[1 := Policy("a", true, "unknown", "unknown", false), 2 := Policy("b", true, "unknown", "unknown", false)]
    requires lock.policies == audit.policies && eligible == ["a"] && absent == ["b"]
    requires audit.vaults == map[] && lock.vaults == map[7 := Vault(true, Some(2), None, None)]
    ensures AccountsOf(audit.policies, ActiveIds(audit.policies)) == {"a", "b"} == Elements(eligible + absent)
    ensures Elements(eligible) == {"a"} && Elements(absent) == {"b"}
    ensures Routed(audit, absent) == {} && Routed(lock, absent) == {7}
  {
    assert 1 in ActiveIds(audit.policies) && 2 in ActiveIds(audit.policies);
    assert (eligible + absent)[0] == "a" && (eligible + absent)[1] == "b";
    assert eligible[0] == "a" && absent[0] == "b";
    assert 7 in lock.vaults;
  }

  class Database {
    const others: Others
    const script: nat -> Fault
    var policies: map<int, Policy>
    var vaults: map<int, Vault>
    var control: Option<Control>
    var time: nat

    constructor (tables: Tables, others: Others, script: nat -> Fault)
      ensures this.others == others && this.script == script && Now() == tables && time == 0
    {
      this.others, this.script := others, script;
      policies, vaults, control, time := tables.policies, tables.vaults, tables.control, 0;
    }

    function Now(): Tables
      reads this
    {
      Tables(policies, vaults, control)
    }

    ghost predicate Valid()
      reads this
    {
      UniqueAccounts(policies) && KeepIndex(others)
    }

    /** A call is made: others wrote before it. */
    method Call() returns (fault: Fault)
      requires Valid()
      modifies this
      ensures Valid() && time == old(time) + 1 && fault == script(old(time)) && Now() == others(old(time))(old(Now()))
    {
      hide UniqueAccounts;
      var next := others(time)(Now());
      fault := script(time);
      policies, vaults, control, time := next.policies, next.vaults, next.control, time + 1;
    }

    /** The audited rows, in some order. */
    method AuditRows() returns (rows: seq<AuditRow>)
      ensures exists ids :: IsAudit(rows, ids, Now())
    {
      hide RowsOf, RoutedBy;
      rows := [];
      ghost var ids: seq<int> := [];
      var rest := ActiveIds(policies);
      NoRows(Now());
      while |rest| > 0
        invariant rest <= ActiveIds(policies) && RowsOf(rows, ids, Now(), ActiveIds(policies) - rest)
        decreases |rest|
      {
        ghost var someId := SomeElement(rest);
        var p :| p in rest;
        OneMoreRow(rows, ids, Now(), ActiveIds(policies) - rest, p);
        rows, ids := rows + [AuditRow(policies[p].account, |RoutedBy(vaults, p)|)], ids + [p];
        assert ActiveIds(policies) - rest + {p} == ActiveIds(policies) - (rest - {p});
        rest := rest - {p};
      }
      assert ActiveIds(policies) - rest == ActiveIds(policies);
      assert IsAudit(rows, ids, Now());
    }

    /** The statements in order under the table lock; a failing fence divides by zero and rolls everything back.
        Whatever happened to the tables between audit and lock, a commit proves that the active policies at the
        lock were exactly the audited ones, and leaves exactly the eligible ones active and finalized. */
    method Transaction(eligible: seq<string>, absent: seq<string>, slot: int, ghost accounts: seq<string>) returns (r: Option<Returned>)
      requires UniqueAccounts(policies) && Audited(accounts, eligible, absent)
      modifies this`policies, this`vaults, this`control
      ensures r.Some? <==> Promotable(eligible, absent, old(policies), old(control))
      ensures r.None? ==> policies == old(policies) && vaults == old(vaults) && control == old(control)
      ensures r.Some? ==> Promotes(accounts, eligible, absent, slot, old(policies), old(vaults), policies, vaults)
      ensures r.Some? ==> control == Some(Control(false, true)) && (old(control).Some? ==> control == old(control))
      ensures r.Some? ==> |r.value.orphans| == |absent|
      ensures r.Some? ==> r.value.deactivatedVaults == Routed(old(Now()), absent)
    {
      hide Promoted, DeactivatePolicies, ClearSetup, DeactivateVaults, RefersTo, Orphans, FinalFence, Promotes, Audited, UniqueAccounts, Promotable;
      FencesPassExactly(accounts, eligible, absent, slot, policies, vaults, control);
      var savedPolicies, savedVaults, savedControl := policies, vaults, control;
      if |ActiveIds(policies)| != |eligible| + |absent| { return None; }
      var hit := set id | id in vaults && vaults[id].active && RefersTo(vaults[id].activePolicy, policies, absent);
      vaults := DeactivateVaults(vaults, policies, absent, slot);
      vaults := ClearSetup(vaults, policies, absent);
      var orphans := Orphans(policies, vaults, absent);
      policies := DeactivatePolicies(policies, orphans);
      policies := Promoted(policies);
      if control.None? { control := Some(Control(false, true)); }
      if !FinalFence(policies, vaults, control, eligible, absent, |eligible|) {
        policies, vaults, control := savedPolicies, savedVaults, savedControl;
        return None;
      }
      PassedFences(accounts, eligible, absent, slot, savedPolicies, savedVaults, control);
      FenceControl(policies, vaults, control, eligible, absent, |eligible|);
      r := Some(Returned(hit, orphans));
    }

    /** The transaction as a call: it may not arrive, and its response may be lost. */
    method Send(plan: Plan, ghost before: Seen)
      returns (fault: Fault, r: Option<Returned>, ghost seen: Seen)
      requires Valid() && Audited(before.accounts, plan.eligible, plan.absent) && Now() == before.audit
      modifies this
      ensures Valid() && time == old(time) + 1 && fault == script(old(time))
      ensures seen.accounts == before.accounts && seen.audit == before.audit && seen.lock == others(old(time))(old(Now()))
      ensures UniqueAccounts(seen.lock.policies)
      ensures seen.after == Now() && seen.counts == others(old(time) + 1)(seen.after) && seen.gate == others(old(time) + 2)(seen.counts)
      ensures seen.committed <==> !fault.FailsBefore? && Promotable(plan.eligible, plan.absent, seen.lock.policies, seen.lock.control)
      ensures if seen.committed then Promoting(plan, seen) else seen.after == seen.lock
      ensures fault.Works? ==> (r.Some? <==> seen.committed)
      ensures fault.Works? && r.Some? ==> |r.value.orphans| == |plan.absent| && r.value.deactivatedVaults == Routed(seen.lock, plan.absent)
    {
      hide Promotes, UniqueAccounts, Promotable, Audited, Routed;
      fault := Call();
      ghost var lock := Now();
      r := None;
      ghost var committed := false;
      if !fault.FailsBefore? {
        r := Transaction(plan.eligible, plan.absent, plan.slot, before.accounts);
        committed := r.Some?;
        if committed { KeptUnique(before.accounts, plan, lock, Now()); }
      }
      ghost var counts := others(time)(Now());
      seen := Seen(before.accounts, before.audit, lock, committed, Now(), counts, others(time + 1)(counts));
    }

    /** The two reads after the commit, and their three checks. */
    method ReadBack(count: nat, ghost seen: Seen) returns (r: Result<(), ScriptError>)
      requires Valid() && seen.after == Now() && seen.counts == others(time)(seen.after) && seen.gate == others(time + 1)(seen.counts)
      modifies this
      ensures Valid() && old(time) < time <= old(time) + 2
      ensures Now() == if time == old(time) + 1 then seen.counts else seen.gate
      ensures r == AfterRead(script, old(time), count, seen)
    {
      hide UniqueAccounts, Finalized;
      var fault := Call();
      if !fault.Works? { return Err(ReadBackLost); }
      var active, finalized := |ActiveIds(policies)|, |FinalizedIds(policies)|;
      CountsPassExactly(policies, count);
      fault := Call();
      if !fault.Works? { return Err(ReadBackLost); }
      if active != count { return Err(ActiveCountChanged); }
      if finalized != count { return Err(NotAllEligible); }
      if control.None? || control.value.startNewMovements || !control.value.continueOrRecover { return Err(GateUnsafe); }
      r := Ok(());
    }

    /** The audit of the tables and of the chain. */
    method Audit(replies: seq<Reply>, expectedCount: int) returns (r: Result<Plan, ScriptError>, ghost seen: Seen)
      requires Valid()
      modifies this
      ensures Valid() && time == old(time) + 1 && Happened(others, old(time), old(Now()), seen)
      ensures seen.audit == Now() && !seen.committed && seen.after == seen.lock
      ensures if AuditPasses(script, old(time), expectedCount, replies, seen) then
          exists plan :: SplitBy(seen.accounts, replies, plan) && (r == if plan.eligible == [] then Err(NoneLeft) else Ok(plan))
        else r.Err? && EndsEarly(r.error, script, old(time), expectedCount, replies, seen)
      ensures r.Ok? ==> Audited(seen.accounts, r.value.eligible, r.value.absent)
      ensures r.Ok? ==> r.value.expectedVaults == |Routed(seen.audit, r.value.absent)|
    {
      hide UniqueAccounts, RefersTo, Distinct, Answered, AnsweredBy;
      var fault := Call();
      var rows := AuditRows();
      ghost var ids :| IsAudit(rows, ids, Now());
      var accounts := AccountList(rows);
      AuditedAccounts(rows, ids, Now());
      seen := Alone(others, time - 1, accounts, Now());
      if !fault.Works? { return Err(AuditLost), seen; }
      if |accounts| != expectedCount { return Err(CountChanged), seen; }
      var audited, chain, slot := AuditAll(accounts, replies);
      if audited.Err? { return Err(audited.error), seen; }
      var absent := audited.value;
      SplitIsAudited(accounts, chain);
      AbsentAreAudited(rows, chain);
      ExpectedIsRouted(rows, ids, Now(), absent);
      var plan := Plan(Remaining(accounts, absent), absent, slot, ExpectedVaults(rows, absent));
      assert Splits(accounts, replies, chain, plan);
      if expectedCount - |absent| <= 0 { return Err(NoneLeft), seen; }
      r := Ok(plan);
    }

    /** The run from the transaction on. */
    method Commit(plan: Plan, ghost start: Tables, ghost before: Seen) returns (r: Result<(), ScriptError>, ghost seen: Seen)
      requires Valid() && time > 0 && Happened(others, time - 1, start, before) && Now() == before.audit
      requires Audited(before.accounts, plan.eligible, plan.absent) && plan.expectedVaults == |Routed(before.audit, plan.absent)|
      modifies this
      ensures Valid() && Happened(others, old(time) - 1, start, seen) && Now() == Reached(seen, time - old(time) + 1)
      ensures seen.accounts == before.accounts && seen.audit == before.audit
      ensures if seen.committed then Promoting(plan, seen) else seen.after == seen.lock
      ensures seen.committed <==>
        !script(old(time)).FailsBefore? && Promotable(plan.eligible, plan.absent, seen.lock.policies, seen.lock.control)
      ensures if r.Ok? then seen.committed else StatusOf(r.error).Unknown? || (seen.committed <==> StatusOf(r.error).Committed?)
      ensures r == Verdict(script, old(time) - 1, plan, seen)
    {
      hide Promotes, UniqueAccounts, Promotable, Finalized, Routed, Distinct, Audited, AfterRead, Promoting, ActiveIds;
      ghost var t := time - 1;
      var fault, returned;
      fault, returned, seen := Send(plan, before);
      if !fault.Works? { return Err(TransactionLost), seen; }
      if returned.None? { return Err(FenceFailed), seen; }
      if |returned.value.deactivatedVaults| != plan.expectedVaults { return Err(VaultCountChanged), seen; }
      assert |returned.value.orphans| == |plan.absent|;              // so the check of the orphan count never fails
      ReadAfterCommit(script, t + 2, |plan.eligible|, seen);
      r := ReadBack(|plan.eligible|, seen);
    }

    /** Every error tells whether the transaction was committed, except when its response is lost; each has its exact cause. */
    method Promote(replies: seq<Reply>, expectedCount: int) returns (r: Result<(), ScriptError>, ghost plan: Plan, ghost seen: Seen)
      requires Valid()
      modifies this
      ensures Valid() && Happened(others, old(time), old(Now()), seen) && Now() == Reached(seen, time - old(time))
      ensures seen.committed ==> Audited(seen.accounts, plan.eligible, plan.absent) && Promoting(plan, seen)
      ensures !seen.committed ==> seen.after == seen.lock
      ensures if r.Ok? then seen.committed else StatusOf(r.error).Unknown? || (seen.committed <==> StatusOf(r.error).Committed?)
      ensures AuditPasses(script, old(time), expectedCount, replies, seen) ==> SplitBy(seen.accounts, replies, plan)
      ensures if AuditPasses(script, old(time), expectedCount, replies, seen) && plan.eligible != [] then
          && r == Verdict(script, old(time), plan, seen)
          && (seen.committed <==>
              !script(old(time) + 1).FailsBefore? && Promotable(plan.eligible, plan.absent, seen.lock.policies, seen.lock.control))
        else r.Err? && !seen.committed && EndsEarly(r.error, script, old(time), expectedCount, replies, seen)
    {
      hide UniqueAccounts, Promotable, Routed, Distinct, SplitBy, AllAnswered, Audited, Promoting, Verdict, ActiveIds, Happened;
      ghost var start := Now();
      var audited;
      audited, seen := Audit(replies, expectedCount);
      if audited.Err? {
        plan := Plan([], [], 0, 0);
        if AuditPasses(script, time - 1, expectedCount, replies, seen) {
          plan :| SplitBy(seen.accounts, replies, plan) && plan.eligible == [];
        }
        return Err(audited.error), plan, seen;
      }
      plan := audited.value;
      r, seen := Commit(audited.value, start, seen);
    }
  }
}
