/** Promotion of the production route policies: an unlocked audit, then one locked transaction whose count
    fences must make up for everything that may have changed in between. */
module Promotion {
  import opened Wrappers
  import opened Seqs
  import opened Sets

  const CLUSTER := "mainnet-beta"

  datatype Policy = Policy(account: string, active: bool, cluster: string, commitment: string, finalizedEligible: bool)

  datatype Vault = Vault(active: bool, activePolicy: Option<int>, setupPolicy: Option<int>, reconciledSlot: Option<int>)

  /** The movement control row of the cluster. */
  datatype Control = Control(startNewMovements: bool, continueOrRecover: bool)

  /** The unique index on `policy_account`. */
  ghost predicate UniqueAccounts(policies: map<int, Policy>) {
    forall p, q :: p in policies && q in policies && policies[p].account == policies[q].account ==> p == q
  }

  function ActiveIds(policies: map<int, Policy>): set<int> {
    set p | p in policies && policies[p].active
  }

  function AccountsOf(policies: map<int, Policy>, ids: set<int>): set<string>
    requires ids <= policies.Keys
  {
    set p | p in ids :: policies[p].account
  }

  predicate Finalized(policy: Policy) {
    policy.cluster == CLUSTER && policy.commitment == "finalized" && policy.finalizedEligible
  }

  predicate RefersTo(reference: Option<int>, policies: map<int, Policy>, accounts: seq<string>) {
    reference.Some? && reference.value in policies && policies[reference.value].account in accounts
  }

  // ----- The statements -----

  function DeactivateVaults(vaults: map<int, Vault>, policies: map<int, Policy>, absent: seq<string>, slot: int): map<int, Vault> {
    map v | v in vaults :: var vault := vaults[v];
      if vault.active && RefersTo(vault.activePolicy, policies, absent)
      then Vault(false, vault.activePolicy, None, Some(slot)) else vault
  }

  function ClearSetup(vaults: map<int, Vault>, policies: map<int, Policy>, absent: seq<string>): map<int, Vault> {
    map v | v in vaults :: var vault := vaults[v];
      if vault.active && RefersTo(vault.setupPolicy, policies, absent) then vault.(setupPolicy := None) else vault
  }

  /** The policies that the fifth statement deactivates. */
  function Orphans(policies: map<int, Policy>, vaults: map<int, Vault>, absent: seq<string>): set<int> {
    set p | p in policies && policies[p].active && policies[p].account in absent
      && !exists v :: v in vaults && vaults[v].active && vaults[v].activePolicy == Some(p)
  }

  function DeactivatePolicies(policies: map<int, Policy>, orphans: set<int>): map<int, Policy> {
    map p | p in policies :: if p in orphans then policies[p].(active := false) else policies[p]
  }

  function Promoted(policies: map<int, Policy>): map<int, Policy> {
    map p | p in policies :: var policy := policies[p];
      if policy.active && policy.cluster == "unknown" && policy.commitment == "unknown"
      then policy.(cluster := CLUSTER, commitment := "finalized", finalizedEligible := true) else policy
  }

  function EligibleIds(policies: map<int, Policy>, eligible: seq<string>): set<int> {
    set p | p in policies && policies[p].active && policies[p].account in eligible && Finalized(policies[p])
  }

  predicate FinalFence(policies: map<int, Policy>, vaults: map<int, Vault>, control: Option<Control>,
                       eligible: seq<string>, absent: seq<string>, count: int)
  {
    && |ActiveIds(policies)| == count
    && |EligibleIds(policies, eligible)| == count
    && !(exists v :: v in vaults && vaults[v].active
          && (RefersTo(vaults[v].activePolicy, policies, absent) || RefersTo(vaults[v].setupPolicy, policies, absent)))
    && control == Some(Control(false, true))
  }

  // ----- Counting -----

  /** Unique accounts make counting rows the same as counting accounts. */
  lemma {:induction false} AccountsCard(policies: map<int, Policy>, ids: set<int>)
    requires ids <= policies.Keys && UniqueAccounts(policies)
    ensures |AccountsOf(policies, ids)| == |ids|
  {
    if |ids| > 0 {
      var p := SomeElement(ids);
      var rest := ids - {p};
      AccountsCard(policies, rest);
      assert AccountsOf(policies, ids) == AccountsOf(policies, rest) + {policies[p].account};
      assert policies[p].account !in AccountsOf(policies, rest);
    } else {
      assert ids == {};
    }
  }

  /** Rows whose accounts all come from a list, and which are as many as the list is long, have exactly its accounts. */
  lemma CountFills(policies: map<int, Policy>, ids: set<int>, accounts: seq<string>)
    requires ids <= policies.Keys && UniqueAccounts(policies) && Distinct(accounts)
    requires |ids| == |accounts| && forall p :: p in ids ==> policies[p].account in accounts
    ensures AccountsOf(policies, ids) == Elements(accounts)
  {
    AccountsCard(policies, ids);
    DistinctCard(accounts);
    SubsetCard(AccountsOf(policies, ids), Elements(accounts));
  }

  /** The audited accounts, split by whether the chain has them. */
  ghost predicate Audited(accounts: seq<string>, eligible: seq<string>, absent: seq<string>) {
    && Distinct(eligible) && Distinct(absent)
    && Elements(eligible) !! Elements(absent)
    && Elements(accounts) == Elements(eligible) + Elements(absent)
  }

  /** The two counts of the fences, and what they prove about the moment of the lock. */
  lemma FencesPinDown(before: map<int, Policy>, orphans: set<int>, after: map<int, Policy>, eligible: seq<string>, absent: seq<string>)
    requires UniqueAccounts(before) && Distinct(eligible) && Distinct(absent)
    requires orphans <= ActiveIds(before) && forall p :: p in orphans ==> before[p].account in absent
    requires after.Keys == before.Keys && forall p :: p in before ==> after[p].account == before[p].account
    requires ActiveIds(after) == ActiveIds(before) - orphans
    requires |ActiveIds(before)| == |eligible| + |absent|
    requires |ActiveIds(after)| == |eligible| && |EligibleIds(after, eligible)| == |eligible|
    ensures AccountsOf(after, ActiveIds(after)) == Elements(eligible)
    ensures forall p :: p in ActiveIds(after) ==> Finalized(after[p])
    ensures AccountsOf(before, orphans) == Elements(absent) && |orphans| == |absent|
    ensures AccountsOf(before, ActiveIds(before)) == Elements(eligible) + Elements(absent)
  {
    assert UniqueAccounts(after);
    SubsetCard(EligibleIds(after, eligible), ActiveIds(after));
    CountFills(after, ActiveIds(after), eligible);
    assert |ActiveIds(before)| == |ActiveIds(after)| + |orphans| by {
      assert ActiveIds(before) == ActiveIds(after) + orphans;
    }
    CountFills(before, orphans, absent);
    assert AccountsOf(before, ActiveIds(before)) == AccountsOf(after, ActiveIds(after)) + AccountsOf(before, orphans);
  }

  // ----- The audit -----

  const BATCH_SIZE := 100
  const SQUADS_PROGRAM := "SMRTzfY6DfH5ik3TKiyLFfXexV8uSG3d2UksSCYdunG"
  const MAX_SAFE_INTEGER := 9_007_199_254_740_991

  datatype ChainAccount = Missing | Present(owner: string, hasData: bool)

  /** The answer to one batch; `None` where the response had no usable slot or account list. */
  datatype Reply = Reply(slot: Option<int>, values: Option<seq<ChainAccount>>)

  datatype ScriptError =
    | AuditLost | CountChanged                                 // the audit of the tables
    | RpcFailed | IncompleteBatch | WrongOwner | EmptyData     // the audit of the chain
    | NoneLeft
    | FenceFailed                                              // the transaction rolled back
    | TransactionLost                                          // its response never came
    | VaultCountChanged | ReadBackLost                         // noticed after the commit
    | ActiveCountChanged | NotAllEligible | GateUnsafe

  /** The accounts the chain does not have, in order. */
  function AbsentOf(accounts: seq<string>, chain: seq<ChainAccount>): seq<string>
    requires |accounts| == |chain|
  {
    if accounts == [] then []
    else
      var n := |accounts| - 1;
      AbsentOf(accounts[..n], chain[..n]) + (if chain[n].Missing? then [accounts[n]] else [])
  }

  predicate Sound(account: ChainAccount) {
    account.Present? ==> account.owner == SQUADS_PROGRAM && account.hasData
  }

  function Batch(accounts: seq<string>, offset: nat): seq<string>
    requires offset <= |accounts|
  {
    accounts[offset..if offset + BATCH_SIZE <= |accounts| then offset + BATCH_SIZE else |accounts|]
  }

  const AUDIT_ERRORS: set<ScriptError> := {RpcFailed, IncompleteBatch, WrongOwner, EmptyData}

  /** The checks on the answers of one batch. */
  method AuditBatch(batch: seq<string>, values: seq<ChainAccount>) returns (r: Result<seq<string>, ScriptError>)
    requires |values| == |batch|
    ensures r.Ok? ==> r.value == AbsentOf(batch, values) && forall i :: 0 <= i < |values| ==> Sound(values[i])
    ensures r.Err? ==> r.error in AUDIT_ERRORS && exists i :: 0 <= i < |values| && !Sound(values[i])
  {
    var absent := [];
    var i := 0;
    while i < |values|
      invariant 0 <= i <= |values|
      invariant absent == AbsentOf(batch[..i], values[..i])
      invariant forall j :: 0 <= j < i ==> Sound(values[j])
    {
      assert batch[..i + 1][..i] == batch[..i] && values[..i + 1][..i] == values[..i];
      if values[i].Missing? {
        absent := absent + [batch[i]];
      } else {
        if values[i].owner != SQUADS_PROGRAM { return Err(WrongOwner); }
        if !values[i].hasData { return Err(EmptyData); }
      }
      i := i + 1;
    }
    assert batch[..i] == batch && values[..i] == values;
    r := Ok(absent);
  }

  lemma {:induction false} AbsentConcat(a: seq<string>, x: seq<ChainAccount>, b: seq<string>, y: seq<ChainAccount>)
    requires |a| == |x| && |b| == |y|
    ensures AbsentOf(a + b, x + y) == AbsentOf(a, x) + AbsentOf(b, y)
  {
    if b == [] {
      assert a + b == a && x + y == x;
    } else {
      var n := |b| - 1;
      AbsentConcat(a, x, b[..n], y[..n]);
      assert (a + b)[..|a + b| - 1] == a + b[..n] && (x + y)[..|x + y| - 1] == x + y[..n];
    }
  }

  lemma NothingAbsent()
    ensures AbsentOf([], []) == []
  {
  }

  ghost predicate AnsweredAt(replies: seq<Reply>, slot: int) {
    exists k :: 0 <= k < |replies| && replies[k].slot == Some(slot)
  }

  /** The k-th batch got a complete answer that names no foreign and no empty account. */
  ghost predicate Answered(accounts: seq<string>, replies: seq<Reply>, k: nat)
    requires k * BATCH_SIZE <= |accounts|
  {
    && k < |replies| && replies[k].slot.Some? && replies[k].values.Some?
    && |replies[k].values.value| == |Batch(accounts, k * BATCH_SIZE)|
    && forall i :: 0 <= i < |replies[k].values.value| ==> Sound(replies[k].values.value[i])
  }

  /** What the k-th batch was answered is what `chain` holds for its accounts. */
  ghost predicate AnsweredBy(accounts: seq<string>, replies: seq<Reply>, chain: seq<ChainAccount>, k: nat)
    requires k * BATCH_SIZE <= |accounts|
  {
    && k < |replies| && replies[k].values.Some?
    && k * BATCH_SIZE + |Batch(accounts, k * BATCH_SIZE)| <= |chain|
    && replies[k].values.value == chain[k * BATCH_SIZE..k * BATCH_SIZE + |Batch(accounts, k * BATCH_SIZE)|]
  }

  /** The batch loop. It succeeds exactly when every batch is answered. What the chain said about each account is
      returned beside the absent ones, and the slot is the lowest at which any batch was answered. */
  method AuditAll(accounts: seq<string>, replies: seq<Reply>)
    returns (r: Result<seq<string>, ScriptError>, chain: seq<ChainAccount>, minimumSlot: int)
    ensures r.Ok? <==> forall k: nat :: k * BATCH_SIZE < |accounts| ==> Answered(accounts, replies, k)
    ensures r.Err? ==> r.error in AUDIT_ERRORS
    ensures r.Ok? ==> |chain| == |accounts| && r.value == AbsentOf(accounts, chain)
    ensures r.Ok? ==> forall k: nat :: k * BATCH_SIZE < |accounts| ==> AnsweredBy(accounts, replies, chain, k)
    ensures r.Ok? ==> forall k :: 0 <= k < |replies| && k * BATCH_SIZE < |accounts| ==>
      replies[k].slot.Some? && minimumSlot <= replies[k].slot.value
    ensures minimumSlot == MAX_SAFE_INTEGER || (minimumSlot < MAX_SAFE_INTEGER && AnsweredAt(replies, minimumSlot))
  {
    hide AbsentOf, Sound;
    var absent := [];
    chain := [];
    minimumSlot := MAX_SAFE_INTEGER;
    assert AbsentOf(accounts[..0], []) == [] by { NothingAbsent(); }
    var offset, k := 0, 0;
    while offset < |accounts|
      invariant 0 <= offset <= |accounts| && (offset == k * BATCH_SIZE || offset == |accounts| <= k * BATCH_SIZE) && 0 <= k
      invariant |chain| == offset && absent == AbsentOf(accounts[..offset], chain)
      invariant forall j: nat :: j < k && j * BATCH_SIZE < |accounts| ==>
        Answered(accounts, replies, j) && AnsweredBy(accounts, replies, chain, j)
      invariant minimumSlot == MAX_SAFE_INTEGER || (minimumSlot < MAX_SAFE_INTEGER && AnsweredAt(replies, minimumSlot))
      invariant forall j :: 0 <= j < |replies| && j < k ==> replies[j].slot.Some? && minimumSlot <= replies[j].slot.value
      decreases |accounts| - offset
    {
      var batch := Batch(accounts, offset);
      if k >= |replies| {
        assert !Answered(accounts, replies, k);
        return Err(RpcFailed), chain, minimumSlot;
      }
      var reply := replies[k];
      if reply.slot.None? || reply.values.None? || |reply.values.value| != |batch| {
        assert !Answered(accounts, replies, k);
        return Err(IncompleteBatch), chain, minimumSlot;
      }
      if reply.slot.value < minimumSlot { minimumSlot := reply.slot.value; }
      var checked := AuditBatch(batch, reply.values.value);
      if checked.Err? {
        assert !Answered(accounts, replies, k);
        return Err(checked.error), chain, minimumSlot;
      }
      AbsentConcat(accounts[..offset], chain, batch, reply.values.value);
      absent := absent + checked.value;
      ghost var before := chain;
      chain := chain + reply.values.value;
      assert accounts[..offset] + batch == accounts[..offset + |batch|];
      forall j: nat | j < k && j * BATCH_SIZE < |accounts| ensures AnsweredBy(accounts, replies, chain, j) {
        AnsweredStill(accounts, replies, before, reply.values.value, j);
      }
      assert AnsweredBy(accounts, replies, chain, k);
      offset := offset + |batch|;
      k := k + 1;
    }
    assert accounts[..offset] == accounts;
    r := Ok(absent);
  }

  lemma AnsweredStill(accounts: seq<string>, replies: seq<Reply>, chain: seq<ChainAccount>, more: seq<ChainAccount>, k: nat)
    requires k * BATCH_SIZE <= |accounts| && AnsweredBy(accounts, replies, chain, k)
    ensures AnsweredBy(accounts, replies, chain + more, k)
  {
    var from, to := k * BATCH_SIZE, k * BATCH_SIZE + |Batch(accounts, k * BATCH_SIZE)|;
    assert (chain + more)[from..to] == chain[from..to];
  }

  lemma {:induction false} AbsentAreDistinct(accounts: seq<string>, chain: seq<ChainAccount>)
    requires |accounts| == |chain| && Distinct(accounts)
    ensures Distinct(AbsentOf(accounts, chain)) && forall a :: a in AbsentOf(accounts, chain) ==> a in accounts
    ensures |AbsentOf(accounts, chain)| <= |accounts|
  {
    if accounts != [] {
      var n := |accounts| - 1;
      AbsentAreDistinct(accounts[..n], chain[..n]);
      var rest := AbsentOf(accounts[..n], chain[..n]);
      assert accounts == accounts[..n] + [accounts[n]];
      forall i | 0 <= i < |rest| ensures rest[i] != accounts[n] {
        assert rest[i] in rest && rest[i] in accounts[..n];
      }
    }
  }

  function Remaining(accounts: seq<string>, absent: seq<string>): seq<string> {
    Filter(accounts, (a: string) => a !in absent)
  }

  lemma {:induction false} FilterDistinct(s: seq<string>, keep: string -> bool)
    requires Distinct(s)
    ensures Distinct(Filter(s, keep))
  {
    if s != [] {
      var init, last := s[..|s| - 1], s[|s| - 1];
      FilterDistinct(init, keep);
      var rest := Filter(init, keep);
      forall i | 0 <= i < |rest| ensures rest[i] != last {
        assert rest[i] in init;
      }
    }
  }

  lemma SplitIsAudited(accounts: seq<string>, chain: seq<ChainAccount>)
    requires |accounts| == |chain| && Distinct(accounts)
    ensures var absent := AbsentOf(accounts, chain);
      && Audited(accounts, Remaining(accounts, absent), absent)
      && |Remaining(accounts, absent)| + |absent| == |accounts|
  {
    var absent := AbsentOf(accounts, chain);
    var eligible := Remaining(accounts, absent);
    AbsentAreDistinct(accounts, chain);
    FilterDistinct(accounts, (a: string) => a !in absent);
    DistinctCard(accounts);
    DistinctCard(absent);
    DistinctCard(eligible);
    assert |Elements(eligible) + Elements(absent)| == |Elements(eligible)| + |Elements(absent)|;
    assert Elements(accounts) == Elements(eligible) + Elements(absent);
  }

  // ----- The transaction -----

  datatype Returned = Returned(deactivatedVaults: set<int>, orphans: set<int>)

  /** A vault routed by an absent policy is deactivated and reconciled; one that only names it for its setup forgets
      that; every other vault stays as it was. */
  ghost predicate VaultSettled(before: Vault, after: Vault, policies: map<int, Policy>, absent: seq<string>, slot: int) {
    if before.active && RefersTo(before.activePolicy, policies, absent) then
      after == Vault(false, before.activePolicy, None, Some(slot))
    else if before.active && RefersTo(before.setupPolicy, policies, absent) then after == before.(setupPolicy := None)
    else after == before
  }

  /** What the committed transaction guarantees about the tables at the lock (`p0`, `v0`) and after it (`p`, `v`). */
  ghost predicate Promotes(accounts: seq<string>, eligible: seq<string>, absent: seq<string>, slot: int,
                           p0: map<int, Policy>, v0: map<int, Vault>, p: map<int, Policy>, v: map<int, Vault>)
  {
    && AccountsOf(p0, ActiveIds(p0)) == Elements(accounts)
    && AccountsOf(p, ActiveIds(p)) == Elements(eligible)
    && (forall id :: id in ActiveIds(p) ==> Finalized(p[id]))
    && p.Keys == p0.Keys && (forall id :: id in p0 ==> p[id].account == p0[id].account)
    && AccountsOf(p0, ActiveIds(p0) - ActiveIds(p)) == Elements(absent) && ActiveIds(p) <= ActiveIds(p0)
    && v.Keys == v0.Keys
    && (forall id :: id in p0 && !p0[id].active ==> p[id] == p0[id])
    && (forall id :: id in v0 ==> VaultSettled(v0[id], v[id], p0, absent, slot))
    && (forall id :: id in v && v[id].active ==> !RefersTo(v[id].activePolicy, p, absent) && !RefersTo(v[id].setupPolicy, p, absent))
  }

  lemma PromotedKeeps(policies: map<int, Policy>, orphans: set<int>)
    requires orphans <= ActiveIds(policies)
    ensures var after := Promoted(DeactivatePolicies(policies, orphans));
      && after.Keys == policies.Keys && (forall p :: p in policies ==> after[p].account == policies[p].account)
      && ActiveIds(after) == ActiveIds(policies) - orphans
      && (forall p :: p in policies && !policies[p].active ==> after[p] == policies[p])
  {
  }

  lemma VaultsKept(v0: map<int, Vault>, p0: map<int, Policy>, absent: seq<string>, slot: int)
    ensures var v := ClearSetup(DeactivateVaults(v0, p0, absent, slot), p0, absent);
      && v.Keys == v0.Keys
      && forall id :: id in v0 ==> VaultSettled(v0[id], v[id], p0, absent, slot)
  {
  }

  lemma PassedFences(accounts: seq<string>, eligible: seq<string>, absent: seq<string>, slot: int,
                     p0: map<int, Policy>, v0: map<int, Vault>, control: Option<Control>)
    requires UniqueAccounts(p0) && Audited(accounts, eligible, absent)
    requires |ActiveIds(p0)| == |eligible| + |absent|
    requires var v := ClearSetup(DeactivateVaults(v0, p0, absent, slot), p0, absent);
      FinalFence(Promoted(DeactivatePolicies(p0, Orphans(p0, v, absent))), v, control, eligible, absent, |eligible|)
    ensures var v := ClearSetup(DeactivateVaults(v0, p0, absent, slot), p0, absent);
      var orphans := Orphans(p0, v, absent);
      Promotes(accounts, eligible, absent, slot, p0, v0, Promoted(DeactivatePolicies(p0, orphans)), v) && |orphans| == |absent|
  {
    hide Promoted, DeactivatePolicies, ClearSetup, DeactivateVaults, RefersTo, Finalized, VaultSettled;
    var v := ClearSetup(DeactivateVaults(v0, p0, absent, slot), p0, absent);
    var orphans := Orphans(p0, v, absent);
    var p := Promoted(DeactivatePolicies(p0, orphans));
    assert orphans <= ActiveIds(p0);
    VaultsKept(v0, p0, absent, slot);
    PromotedKeeps(p0, orphans);
    FencesPinDown(p0, orphans, p, eligible, absent);
    assert ActiveIds(p0) - ActiveIds(p) == orphans;
  }

  /** What the transaction needs to find at the lock: exactly the audited accounts active, every eligible one finalized
      or still unknown, and a control row that is absent or allows recovery only. */
  ghost predicate Promotable(eligible: seq<string>, absent: seq<string>, p0: map<int, Policy>, control: Option<Control>) {
    && AccountsOf(p0, ActiveIds(p0)) == Elements(eligible) + Elements(absent)
    && (forall id :: id in ActiveIds(p0) && p0[id].account in eligible ==> Finalized(p0[id]) || Unknown(p0[id]))
    && (control.Some? ==> control.value == Control(false, true))
  }

  predicate Unknown(policy: Policy) {
    policy.cluster == "unknown" && policy.commitment == "unknown"
  }

  /** Once the vaults are settled, every active policy of an absent account is an orphan. */
  lemma OrphansAreAbsent(p0: map<int, Policy>, v0: map<int, Vault>, absent: seq<string>, slot: int)
    ensures var v := ClearSetup(DeactivateVaults(v0, p0, absent, slot), p0, absent);
      Orphans(p0, v, absent) == set p | p in ActiveIds(p0) && p0[p].account in absent
  {
    hide ClearSetup, DeactivateVaults;
    VaultsKept(v0, p0, absent, slot);
  }

  lemma SameReference(reference: Option<int>, p: map<int, Policy>, q: map<int, Policy>, absent: seq<string>)
    requires p.Keys == q.Keys && forall id :: id in q ==> p[id].account == q[id].account
    ensures RefersTo(reference, p, absent) == RefersTo(reference, q, absent)
  {
    if reference.Some? {
      var id := reference.value;
      assert id in p.Keys <==> id in q.Keys;
      if id in q {
        assert p[id].account == q[id].account;
      }
    }
  }

  /** And no active vault refers to an absent account any more. */
  lemma NoneDangling(p0: map<int, Policy>, p: map<int, Policy>, v0: map<int, Vault>, absent: seq<string>, slot: int)
    requires p.Keys == p0.Keys && forall id :: id in p0 ==> p[id].account == p0[id].account
    ensures var v := ClearSetup(DeactivateVaults(v0, p0, absent, slot), p0, absent);
      !(exists id :: id in v && v[id].active && (RefersTo(v[id].activePolicy, p, absent) || RefersTo(v[id].setupPolicy, p, absent)))
  {
    hide ClearSetup, DeactivateVaults;
    VaultsKept(v0, p0, absent, slot);
    var v := ClearSetup(DeactivateVaults(v0, p0, absent, slot), p0, absent);
    forall reference: Option<int> ensures RefersTo(reference, p, absent) == RefersTo(reference, p0, absent) {
      SameReference(reference, p, p0, absent);
    }
    forall id | id in v && v[id].active
      ensures !RefersTo(v[id].activePolicy, p, absent) && !RefersTo(v[id].setupPolicy, p, absent)
    {
      assert VaultSettled(v0[id], v[id], p0, absent, slot);
    }
  }

  /** A set of active policies with exactly these accounts is as large as the list. */
  lemma AsManyAs(policies: map<int, Policy>, ids: set<int>, accounts: seq<string>)
    requires ids <= policies.Keys && UniqueAccounts(policies) && Distinct(accounts) && AccountsOf(policies, ids) == Elements(accounts)
    ensures |ids| == |accounts|
  {
    AccountsCard(policies, ids);
    DistinctCard(accounts);
  }

  lemma PromotedFinalizes(p0: map<int, Policy>, orphans: set<int>, id: int)
    requires id in ActiveIds(p0) && id !in orphans
    ensures Finalized(Promoted(DeactivatePolicies(p0, orphans))[id]) <==> Finalized(p0[id]) || Unknown(p0[id])
  {
  }

  lemma AuditedSizes(p0: map<int, Policy>, accounts: seq<string>, eligible: seq<string>, absent: seq<string>)
    requires UniqueAccounts(p0) && Audited(accounts, eligible, absent)
    requires AccountsOf(p0, ActiveIds(p0)) == Elements(eligible) + Elements(absent)
    ensures |ActiveIds(p0)| == |eligible| + |absent|
    ensures |set p | p in ActiveIds(p0) && p0[p].account !in absent| == |eligible|
    ensures forall p :: p in ActiveIds(p0) ==> (p0[p].account in eligible <==> p0[p].account !in absent)
  {
    hide Distinct;
    var gone := set p | p in ActiveIds(p0) && p0[p].account in absent;
    var left := set p | p in ActiveIds(p0) && p0[p].account !in absent;
    forall p | p in ActiveIds(p0) ensures p0[p].account in eligible <==> p0[p].account !in absent {
      assert p0[p].account in AccountsOf(p0, ActiveIds(p0));
      assert p0[p].account in eligible <==> p0[p].account in Elements(eligible);
      assert p0[p].account in absent <==> p0[p].account in Elements(absent);
    }
    forall a | a in Elements(absent) ensures a in AccountsOf(p0, gone) {
      assert a in AccountsOf(p0, ActiveIds(p0));
    }
    forall a | a in Elements(eligible) ensures a in AccountsOf(p0, left) {
      assert a in AccountsOf(p0, ActiveIds(p0));
    }
    assert AccountsOf(p0, gone) == Elements(absent);
    assert AccountsOf(p0, left) == Elements(eligible);
    AsManyAs(p0, gone, absent);
    AsManyAs(p0, left, eligible);
    assert ActiveIds(p0) == gone + left;
    assert |ActiveIds(p0)| == |gone| + |left|;
  }

  ghost predicate FencesPass(eligible: seq<string>, absent: seq<string>, slot: int,
                             p0: map<int, Policy>, v0: map<int, Vault>, control: Option<Control>)
  {
    var v := ClearSetup(DeactivateVaults(v0, p0, absent, slot), p0, absent);
    && |ActiveIds(p0)| == |eligible| + |absent|
    && FinalFence(Promoted(DeactivatePolicies(p0, Orphans(p0, v, absent))), v,
                  if control.None? then Some(Control(false, true)) else control, eligible, absent, |eligible|)
  }

  /** The fences pass exactly on promotable tables: counting neither lets a changed table through nor stops a good one. */
  lemma FencesPassExactly(accounts: seq<string>, eligible: seq<string>, absent: seq<string>, slot: int,
                          p0: map<int, Policy>, v0: map<int, Vault>, control: Option<Control>)
    requires UniqueAccounts(p0) && Audited(accounts, eligible, absent)
    ensures FencesPass(eligible, absent, slot, p0, v0, control) <==> Promotable(eligible, absent, p0, control)
  {
    if FencesPass(eligible, absent, slot, p0, v0, control) {
      PassedIsPromotable(accounts, eligible, absent, slot, p0, v0, control);
    }
    if Promotable(eligible, absent, p0, control) {
      PromotablePasses(accounts, eligible, absent, slot, p0, v0, control);
    }
  }

  lemma PassedIsPromotable(accounts: seq<string>, eligible: seq<string>, absent: seq<string>, slot: int,
                           p0: map<int, Policy>, v0: map<int, Vault>, control: Option<Control>)
    requires UniqueAccounts(p0) && Audited(accounts, eligible, absent) && FencesPass(eligible, absent, slot, p0, v0, control)
    ensures Promotable(eligible, absent, p0, control)
  {
    hide Promoted, DeactivatePolicies, ClearSetup, DeactivateVaults, RefersTo, Finalized, VaultSettled, Unknown, UniqueAccounts, Distinct;
    var v := ClearSetup(DeactivateVaults(v0, p0, absent, slot), p0, absent);
    var orphans := Orphans(p0, v, absent);
    PassedFences(accounts, eligible, absent, slot, p0, v0, if control.None? then Some(Control(false, true)) else control);
    var p := Promoted(DeactivatePolicies(p0, orphans));
    forall id | id in ActiveIds(p0) && p0[id].account in eligible ensures Finalized(p0[id]) || Unknown(p0[id]) {
      assert p0[id].account in Elements(eligible) && p0[id].account !in Elements(absent);
      assert id !in orphans;
      PromotedFinalizes(p0, orphans, id);
      PromotedKeeps(p0, orphans);
    }
  }

  lemma PromotablePasses(accounts: seq<string>, eligible: seq<string>, absent: seq<string>, slot: int,
                         p0: map<int, Policy>, v0: map<int, Vault>, control: Option<Control>)
    requires UniqueAccounts(p0) && Audited(accounts, eligible, absent) && Promotable(eligible, absent, p0, control)
    ensures FencesPass(eligible, absent, slot, p0, v0, control)
  {
    hide Promoted, DeactivatePolicies, ClearSetup, DeactivateVaults, RefersTo, Finalized, VaultSettled, Unknown, UniqueAccounts, Distinct, Orphans;
    var v := ClearSetup(DeactivateVaults(v0, p0, absent, slot), p0, absent);
    var orphans := Orphans(p0, v, absent);
    var p := Promoted(DeactivatePolicies(p0, orphans));
    OrphansAreAbsent(p0, v0, absent, slot);
    assert orphans <= ActiveIds(p0);
    PromotedKeeps(p0, orphans);
    AuditedSizes(p0, accounts, eligible, absent);
    assert ActiveIds(p) == set id | id in ActiveIds(p0) && p0[id].account !in absent;
    NoneDangling(p0, p, v0, absent, slot);
    forall id | id in ActiveIds(p) ensures id in EligibleIds(p, eligible) {
      PromotedFinalizes(p0, orphans, id);
    }
    assert EligibleIds(p, eligible) == ActiveIds(p);
  }

  lemma FenceControl(policies: map<int, Policy>, vaults: map<int, Vault>, control: Option<Control>,
                     eligible: seq<string>, absent: seq<string>, count: int)
    requires FinalFence(policies, vaults, control, eligible, absent, count)
    ensures control == Some(Control(false, true))
  {
  }
}
