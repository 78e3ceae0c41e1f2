# Loyal yield routing: verified models

A Dafny model of the parts of the Loyal yield-routing repository whose correctness depends on more than one
function: the RWA decision engine, the canary start gate, two journaled apply protocols, the production promotion
transaction, the hub ABI layout and codec, Base58, the policy catalog compiler, the event-stream reader, and the
idle-funds report with its CSV form. Each component is a module (or a few), and every operation that changes state
step by step is a method or a class whose contract ties it to a specification function; the theorems are about those
functions, over all inputs, all runs or all reachable states. `dafny verify dfyconfig.toml` checks everything.

| files | component |
|---|---|
| `LeverageGrid`, `RwaTypes`, `RwaEvaluate`, `RwaDecide`, `RwaTheorems`, `RwaRuns`, `RwaWitness`, `RwaInvariance` | `scripts/rwa-decision.ts` |
| `CanaryGate`, `CanaryRun`, `CanaryProcess` | `web/scripts/autoswap-verifier-runtime.ts` |
| `Json`, `VaultObjects`, `VaultPlan`, `VaultRepairs`, `VaultManifest`, `VaultAlerts` | `scripts/clickstack-vault-alerts.py` |
| `Looping`, `LoopingCanonical`, `LoopingObjects`, `LoopingPlan`, `LoopingManifest`, `LoopingApply` | `scripts/clickstack-looping-alerts.py` |
| `Promotion`, `PromotionRun` | `scripts/promote-cross-mint-production-baseline.ts` |
| `HubAbi`, `Codec` | `crates/loyal-hub-abi/build.rs`, `crates/loyal-hub-swap-program/src/codec.rs` |
| `Base58` | `scripts/web/wallet-session.ts` |
| `PolicyCatalog`, `PolicyCompiler` | `crates/loyal-actions/src/backyard_policy_catalog.rs` |
| `Sse`, `SseEvents`, `SseReader`, `SseUnread` | `scripts/verify-realtime-sse-smoke.ts` |
| `IdleRows`, `IdleCohorts`, `IdleReport`, `Csv` | `scripts/report-vault-idle-funds.ts` |
| `Wrappers`, `Faults`, `Seqs`, `Sets`, `Text` | shared |

## What is assumed

- Numbers are exact: reals where the engine uses floating point, unbounded integers for `bigint`. `Math.pow` is an
  arbitrary function that may also give no finite result; a date is the number `Date.parse` gives, or nothing for `NaN`.
- `localeCompare` is a total order where ranking needs one. The comparator of `rank` is not transitive because of its
  tolerance, so of the sort only this is used: it permutes the candidates and leaves neighbours in comparator order.
- Connections, disks and servers fail at any call, before or after the call took effect. A run is a function of a script
  that says how each call ends, so a result such as "interrupted" has to be justified by a failing call of that very run.
  A database transaction is atomic; a journal write either happens or does not.
- Other processes may call the canary gate, and others may write to the promotion tables, before every call of a run.
  The two apply runs are stated for a single writer, as the scripts demand.
- The monitoring server is not part of the repository. A save merges the fields it is sent into the stored object, and a
  patch replaces the configuration of one tile. A created object is kept as sent, under an id (and tile ids) of the
  server's own, with added bookkeeping and empty defaults. Evaluation may change run-time fields at any time.
- `policy_account` is unique, and text is a sequence of code points.

## What turned out not to hold

Each of these is kept as the code has it, with the exact condition under which the expected property holds and an input
on which it does not.

- A candidate is eligible up to the safety LTV inclusively, but a position on it is unsafe (`>` against `>=`), so the
  next decision can undo a move: `RwaRuns.MoveUndoneExactly`, `RwaRuns.OnTheLimitExactly`,
  `RwaWitness.OpenedThenWoundDown`.
- A failed close of the gate is reported unless ending the connection throws too: `CanaryRun.RunSafeExactly`,
  `CanaryRun.EndsOpenExactly`, `CanaryRun.UnreportedWitness`.
- Recovery in a new process cannot close a gate: `CanaryGate.FreshProcessNeverCloses`,
  `CanaryRun.RecoveryTouchesNothing`.
- The recorded rollbacks restore the monitors only if every repair that took effect overwrote fields that were there; an
  alert without a message keeps the new one: `VaultRepairs.ReplayRestoresExactly`,
  `VaultManifest.BuiltPlanRestores`, `VaultManifest.AlertWitness`.
- A Looping plan whose alerts share a tile, or whose tiles share a name, is accepted and can never complete:
  `LoopingApply.Server.ApplyPlan`, `LoopingManifest.UncompletableWitness`.
- The vault count of the promotion, and the two tables read back, are checked after the commit, so the script can fail
  on a promotion that is in place; the orphan count check can never fail: `PromotionRun.Database.Promote`,
  `PromotionRun.VaultCountWitness`.
- What a chunk holds behind the event a wait was for is gone. The overflow check then takes "done" for "no data after
  the resync", and another wait could miss an event: `SseReader.Stream.VerifyOverflow`, `SseUnread.NextEventExactly`,
  `SseUnread.SecondEventLost`.
- Event data that starts with an empty line loses it: `SseEvents.JoinedIsJoin`, `SseEvents.RenderedReadsBack`,
  `SseEvents.EmptyFirstLineWitness`.
- The report throws on a mint whose first row was not looked up on the chain and a later one was:
  `IdleReport.SummarizeRows`, `IdleReport.TornWitness`.

## Model

| member | source | states |
|---|---|---|
| LeverageGrid.AdmittedExactly | scripts/rwa-decision.ts:127-130 | a leverage is at most the maximum for an LTV target exactly when leverage times (10000 - target) is at most 10^8 |
| LeverageGrid.UnroundedProjection | scripts/rwa-decision.ts:167-169 | before rounding, a leverage projects to at most a target exactly under the same product bound |
| LeverageGrid.ProjectedMonotone | scripts/rwa-decision.ts:167-169 | more leverage never projects to a lower LTV |
| LeverageGrid.MaximumIsTight | scripts/rwa-decision.ts:127-130 | floor and round together cost at most one basis point: the maximum projects to the target or one below it |
| LeverageGrid.StepsProperties | scripts/rwa-decision.ts:132-138 | the stepped list climbs strictly from its first entry to the maximum in gaps of at most one step |
| LeverageGrid.GridTheorem | scripts/rwa-decision.ts:127-138 | the grid is non-empty exactly for an integer target in [0, 9999] and a positive integer step; it then rises strictly from 10000 to the maximum in gaps of at most the step, no entry projects above the target, the last projects to within one basis point of it |
| LeverageGrid.CollectSteps | scripts/rwa-decision.ts:135-137 | the loop collects exactly the stepped leverages in a set |
| LeverageGrid.BuildLeverageGrid | scripts/rwa-decision.ts:132-138 | filling a set and sorting it gives exactly the specified grid, without duplicates |
| RwaEvaluate.ForecastBounds | scripts/rwa-decision.ts:140-165 | a forecast lies between floor and ceiling, or is the ceiling where the floor is above it, and spans, over at least the minimum, from the earliest to the latest positive point of the window |
| RwaEvaluate.LeveragesAreLevered | scripts/rwa-decision.ts:304-306 | every leverage tried is at least 1x, also when the grid is empty |
| RwaDecide.Rank | scripts/rwa-decision.ts:230-236 | a sort under the tolerant comparator returns a permutation whose neighbours are in comparator order |
| RwaDecide.CollectObservations | scripts/rwa-decision.ts:266-271 | the loop yields the last observation of each reserve and notices a duplicate exactly when two reserves share an id |
| RwaDecide.CandidatesAreScored | scripts/rwa-decision.ts:351-360 | every eligible candidate carries a gross and a net value |
| RwaDecide.ScoreStrategy | scripts/rwa-decision.ts:277-361 | the inner loop produces one evaluation per leverage of the strategy's grid, in order |
| RwaDecide.EvaluateAll | scripts/rwa-decision.ts:266-362 | the nested loops produce the evaluations of all strategies in key order |
| RwaDecide.DecideRwa | scripts/rwa-decision.ts:262-417 | the imperative engine returns the decision of the decision tree on some admissible ranking of exactly the evaluated candidates |
| RwaTheorems.ObservationsSound | scripts/rwa-decision.ts:266-271 | an observation is found exactly for the ids that were observed, and it is one of the observations |
| RwaTheorems.CandidateSource | scripts/rwa-decision.ts:277-362 | every candidate is the evaluation of an input strategy at one of its leverages, under that strategy's key and id |
| RwaTheorems.CandidateIdInjective | scripts/rwa-decision.ts:317 | the id of a candidate determines its strategy key and leverage, also for keys that contain the separator |
| RwaTheorems.LtvRejectionsExactly | scripts/rwa-decision.ts:304-327 | on a leverage that is tried, the two LTV rejections fire exactly when the respective limit is negative |
| RwaTheorems.CapacityBounds | scripts/rwa-decision.ts:189-219 | in live mode a candidate without a capacity problem keeps equity times leverage, and equity times leverage minus one, within every collateral and debt headroom, up to the slack of 1e-9 on equity |
| RwaTheorems.NoReasons | scripts/rwa-decision.ts:280-347 | the reason list is empty exactly when there is no duplicate evidence, clean evidence on both sides, a valid threshold, known economics, an LTV within both caps, and (unless held) a capacity and a priced, fresh quote |
| RwaTheorems.EligibleIsExecutable | scripts/rwa-decision.ts:277-362 | an eligible live candidate other than the current one has sole, fresh, active, non-emergency evidence, both caps, all headrooms and a fresh quote from exactly the current candidate |
| RwaTheorems.PositionChoice | scripts/rwa-decision.ts:378-417 | whatever is ranked, a move chooses a ranked eligible candidate that is not the current one |
| RwaTheorems.ChosenIsEvaluated | scripts/rwa-decision.ts:364-417 | every open, switch or delever chooses an eligible evaluated candidate other than the current one |
| RwaTheorems.ChosenIsExecutable | scripts/rwa-decision.ts:364-417 | in live mode every open, switch or delever chooses a candidate for which all of the above evidence exists, for every ranking |
| RwaRuns.EligibleIsPrefix | scripts/rwa-decision.ts:230-236 | for any admissible ranking the eligible candidates are a prefix of it |
| RwaRuns.TopWithinTolerance | scripts/rwa-decision.ts:230-236 | for any admissible ranking no eligible candidate beats the first one by more than (n-1) times 1e-12 |
| RwaRuns.SwitchTheorem | scripts/rwa-decision.ts:410-416 | a switch goes to the top candidate, a different one, after the cooldown, with an edge of at least the minimum up to 1e-12 |
| RwaRuns.EntryTheorem | scripts/rwa-decision.ts:370-376 | without a position the engine opens the top candidate when its net value exceeds the minimum, and otherwise no candidate beats the minimum by more than the tolerance |
| RwaRuns.HeldPositionIsSound | scripts/rwa-decision.ts:378-416 | a position is held or switched only while both markets are sound and its LTV is inside both limits |
| RwaRuns.CarryDecomposition | scripts/rwa-decision.ts:351-352 | levered yield is the collateral yield plus (leverage - 1) times the carry over the borrow rate |
| RwaRuns.DeleverTheorem | scripts/rwa-decision.ts:397-404 | a delever goes to the largest eligible strictly lower leverage of the same strategy |
| RwaRuns.DeleverStepLowers | scripts/rwa-decision.ts:397-404 | carrying out a delever strictly lowers the leverage within the strategy's own grid |
| RwaRuns.DeleveringTerminates | scripts/rwa-decision.ts:397-404 | under fixed reserves and policy consecutive delevers are at most as many as there are lower leverages in the grid, whatever else changes between them |
| RwaRuns.UnsafeAfterMoveExactly | scripts/rwa-decision.ts:393-397 | measured at its projected LTV, a candidate just entered is judged unsafe exactly when it projects onto the safety limit |
| RwaRuns.RiskExitExactly | scripts/rwa-decision.ts:378-404 | a delever, or an exit for lack of a safer candidate, happens exactly on a position of a known strategy whose markets can be judged and that fails the risk test |
| RwaRuns.MoveUndoneExactly | scripts/rwa-decision.ts:378-404 | at its projected LTV a candidate the engine moved to is wound down for risk by the next decision exactly when its markets can still be judged and it projects onto the safety limit; never where the policy target is below that limit |
| RwaRuns.OnTheLimitExactly | scripts/rwa-decision.ts:301-327 | some leverage tried is unsafe at its own projection exactly when the policy target reaches the safety limit and the maximum projects onto it, or, without a grid, when a limit leaves no room for 1x |
| RwaRuns.OnTheLimitWitness | scripts/rwa-decision.ts:393-396 | on every market with a 50% limit and target and that step, 2x leverage is tried, passes both eligibility caps and is judged unsafe |
| RwaWitness.OpenedThenWoundDown | scripts/rwa-decision.ts:364-404 | one concrete market: however the candidates are ranked the engine opens 2x, and its next decision on the same market winds the position down for risk |
| RwaInvariance.SameDecision | scripts/rwa-decision.ts:364-417 | inputs with the same evidence, sorted strategies and lookups are decided alike on every ranking |
| RwaInvariance.StrategyOrderIrrelevant | scripts/rwa-decision.ts:277 | listing strategies with distinct keys in another order changes neither candidates nor decision |
| RwaInvariance.ReserveOrderIrrelevant | scripts/rwa-decision.ts:266-271 | listing reserves with distinct ids in another order changes neither candidates nor decision |
| RwaInvariance.NoLookAhead | scripts/rwa-decision.ts:140-165 | the decision depends on the NAV history only through the points inside the window that ends at the decision time |
| RwaInvariance.FuturePointIrrelevant | scripts/rwa-decision.ts:140-165 | a NAV point later than the decision time has no influence wherever it is inserted |
| CanaryGate.StepShape | web/scripts/autoswap-verifier-runtime.ts:906-977 | a call leaves the row alone or flips the gate at the next generation; only the opener closes, and only with recovery enabled it opens |
| CanaryGate.HistoryAlternates | web/scripts/autoswap-verifier-runtime.ts:906-977 | over every interleaving of calls by any processes, changes alternate open and close, generations grow by exactly one, each close is by the process that opened, and the row is what the last change left |
| CanaryGate.OpenGateIsExclusive | web/scripts/autoswap-verifier-runtime.ts:906-977 | while one process has the gate open no calls of other processes change the row |
| CanaryGate.FencedClose | web/scripts/autoswap-verifier-runtime.ts:906-977 | a close under a lease takes effect only for the opener and only if nothing was committed since the lease was granted |
| CanaryGate.HeldLeaseCloses | web/scripts/autoswap-verifier-runtime.ts:906-977 | a process whose gate is open can close it exactly when its lease is unknown or names the row's generation |
| CanaryGate.NeverTagged | web/scripts/autoswap-verifier-runtime.ts:159 | a process that never calls open never becomes the row's owner |
| CanaryGate.FreshProcessNeverCloses | web/scripts/autoswap-verifier-runtime.ts:2510-2518 | a fresh process's close never changes the row and succeeds exactly when the gate is closed already |
| CanaryRun.OthersRun | web/scripts/autoswap-verifier-runtime.ts:906-977 | calls of other processes leave the row alone or put another owner on it, never touch the recovery switch, and cannot change a row this process has open |
| CanaryRun.EnsureClosedKeeps | web/scripts/autoswap-verifier-runtime.ts:979-1015 | the closing attempts keep the lease invariant under any failures and any calls of others, and succeed only over a gate closed with recovery enabled |
| CanaryRun.ClosesExactly | web/scripts/autoswap-verifier-runtime.ts:979-1015 | with no other writer the three attempts succeed exactly when the gate can be closed by this process and some attempt meets no failing call |
| CanaryRun.CanaryKeeps | web/scripts/autoswap-verifier-runtime.ts:1508-1578 | one canary keeps the lease invariant wherever it stops, and succeeds only with nothing of its own open and no lease held |
| CanaryRun.PausedProofKeeps | web/scripts/autoswap-verifier-runtime.ts:1580-1610 | so does the paused proof |
| CanaryRun.LeaseInvariant | web/scripts/autoswap-verifier-runtime.ts:1612-1714 | wherever the body of the run stops, the lease invariant holds, and before the baseline is verified nothing of this process is open |
| CanaryRun.RunSafeExactly | web/scripts/autoswap-verifier-runtime.ts:1612-1729 | for every script of failures and of other processes' calls, the run leaves the gate not open by this process or reports the critical failure exactly when the gate is not open by it or ending the connection works; a normal return means not open with recovery enabled |
| CanaryRun.EndsOpenExactly | web/scripts/autoswap-verifier-runtime.ts:1508-1729 | with no other writer, a run ends open exactly when one of its opening calls took effect and every closing call it made after that failed before taking effect; that is reported exactly unless ending the connection fails |
| CanaryRun.CriticalExactly | web/scripts/autoswap-verifier-runtime.ts:979-1015 | with no other writer closing fails exactly when each of the last three attempts meets a failing call, and is then reported unless ending the connection fails |
| CanaryRun.QuietRun | web/scripts/autoswap-verifier-runtime.ts:1612-1729 | with no other writer a normal return means the gate is closed with recovery enabled, and another failure leaves it so or untouched |
| CanaryRun.CleanRun | web/scripts/autoswap-verifier-runtime.ts:1612-1729 | a run that meets no failure over a safe gate succeeds and leaves it safe |
| CanaryRun.UnreportedWitness | web/scripts/autoswap-verifier-runtime.ts:1715-1728 | a connection that breaks for good after the gate was opened ends the run with the gate open by it and only a database error |
| CanaryRun.LifecycleSafe | web/scripts/autoswap-verifier-runtime.ts:1951-1982 | the lifecycle leaves the gate open by this process only when it reports an unverified safety state or a failed database; otherwise recovery is enabled |
| CanaryRun.RecoveryTouchesNothing | web/scripts/autoswap-verifier-runtime.ts:2510-2518 | recovery in a process that never tagged the row leaves it as other processes alone would, and succeeds only over a closed gate |
| CanaryProcess.Process.SetCanaryStartGate | web/scripts/autoswap-verifier-runtime.ts:906-977 | the call commits its transaction or nothing, and an answer always means that it committed |
| CanaryProcess.Process.EnsureCanaryStartGateClosed | web/scripts/autoswap-verifier-runtime.ts:979-1015 | the loop makes exactly those attempts; its only failure is the critical one, justified as in ClosesExactly |
| CanaryProcess.Process.RunProductionCanary | web/scripts/autoswap-verifier-runtime.ts:1508-1578 | the imperative canary is the specified one, at every stopping point |
| CanaryProcess.Process.ProvePausedEnrollmentStartsNothing | web/scripts/autoswap-verifier-runtime.ts:1580-1610 | so is the paused proof |
| CanaryProcess.Process.VerifyProductionCanaries | web/scripts/autoswap-verifier-runtime.ts:1612-1729 | the try, catch and finally blocks are the specified run, with its exact safety and, for a single writer, the exact condition on its own calls for ending open |
| CanaryProcess.Process.VerifyProductionCanaryLifecycle | web/scripts/autoswap-verifier-runtime.ts:1951-1982 | the lifecycle is the specified one; a normal return means not open by this process with recovery enabled |
| CanaryProcess.Process.RecoverAutoswapCanary | web/scripts/autoswap-verifier-runtime.ts:2510-2518 | recovery is the specified one: it changes nothing itself |
| VaultObjects.SaveReachesAfter | scripts/clickstack-vault-alerts.py:32-46 | saving the planned object over a live one with the old configuration yields exactly the planned configuration, whatever run-time state changed |
| VaultObjects.RollbackRestoresExactly | scripts/clickstack-vault-alerts.py:44-46 | the recorded rollback restores the old configuration exactly when the edit only overwrote fields that existed |
| VaultObjects.SearchRollback | scripts/clickstack-vault-alerts.py:98-104 | a repaired search reaches its plan and its rollback always restores it |
| VaultObjects.AlertRollback | scripts/clickstack-vault-alerts.py:121-130 | a repaired alert reaches its plan; its rollback restores it exactly when it had a message |
| VaultObjects.PatchRollback | scripts/clickstack-vault-alerts.py:106-119 | patching one tile changes the configuration of that tile and no other tile, and patching the old one back restores the list |
| VaultPlan.RunsCompose | scripts/clickstack-vault-alerts.py:172-209 | over consecutive runs each object still stands where it stood or where one operation moved it |
| VaultPlan.StillSettled | scripts/clickstack-vault-alerts.py:181-187 | a stopped run leaves every object at a configuration the next preflight accepts |
| VaultPlan.AllCarried | scripts/clickstack-vault-alerts.py:189-204 | carrying out exactly the pending operations leaves every object at its new configuration |
| VaultRepairs.ForwardReaches | scripts/clickstack-vault-alerts.py:98-130 | the recorded call takes any live object from the old configuration to the planned one, whatever run-time state changed |
| VaultRepairs.BackwardRestores | scripts/clickstack-vault-alerts.py:98-130 | the recorded rollback of a repaired object restores its old configuration exactly when the repair only overwrote |
| VaultRepairs.PlanIsSound | scripts/clickstack-vault-alerts.py:91-96 | the plan holds exactly the repairs that change a configuration |
| VaultRepairs.ReplayRestoresExactly | scripts/clickstack-vault-alerts.py:226 | from every stopping point of every run, replaying the recorded payloads in reverse order restores every configuration exactly when each repair that took effect only overwrote fields its object had |
| VaultManifest.AcceptedRepair | scripts/clickstack-vault-alerts.py:82-130 | every rule that passes the checks against its snapshot makes a repair whose calls make sense, and whose rollback restores unless it gives a message to an alert without one |
| VaultManifest.BuildPlan | scripts/clickstack-vault-alerts.py:75-132 | the loops refuse exactly when some rule does not fit, and otherwise plan exactly the repairs that change something |
| VaultManifest.BuiltPlanIsSound | scripts/clickstack-vault-alerts.py:75-132 | accepted rules about different objects make a plan the run can carry out |
| VaultManifest.BuiltPlanRestores | scripts/clickstack-vault-alerts.py:75-132 | from every stopping point of such a plan the recorded rollbacks restore every configuration exactly when each alert that got its new message had one before |
| VaultManifest.AlertWitness | scripts/clickstack-vault-alerts.py:121-130 | an accepted alert without a message: after its repair the replay leaves the new message there |
| VaultAlerts.Monitoring.PreflightAll | scripts/clickstack-vault-alerts.py:181-187 | the preflight lists exactly the repairs whose objects are still at their old configuration, stops with drift only on an object at neither, and is interrupted only by a failing read |
| VaultAlerts.Monitoring.Send | scripts/clickstack-vault-alerts.py:198 | the real payload moves the live object to the planned configuration unless the call fails before it took effect |
| VaultAlerts.Monitoring.WriteOne | scripts/clickstack-vault-alerts.py:189-202 | one operation changes one object from old to new, stops only on a failing call, and wherever it stops a change is on disk as completed or in flight |
| VaultAlerts.Monitoring.ApplyPlan | scripts/clickstack-vault-alerts.py:172-209 | at every stopping point each object is at its old place or moved from before to after and everything moved is on disk; without a failing call it applies exactly when every object is at before or after, writing only the pending ones, and otherwise reports drift and writes nothing |
| VaultAlerts.Monitoring.Reruns | scripts/clickstack-vault-alerts.py:172-209 | over any number of runs an object moves at most once, and the first run without a failing call ends with all at after |
| Looping.TileMapTheorem | scripts/clickstack-looping-alerts.py:66-85 | the tile map is total on the manifest's tiles, injective into the server's, and keeps names and contents |
| LoopingCanonical.PopDefaults | scripts/clickstack-looping-alerts.py:53-61 | popping the defaults passes exactly when each is missing or means nothing, and removes exactly them |
| LoopingCanonical.Canonical | scripts/clickstack-looping-alerts.py:44-62 | the popping code computes the canonical form, with its errors in order |
| LoopingCanonical.CanonicalExactly | scripts/clickstack-looping-alerts.py:44-62 | the canonical form of a stored object is what was sent exactly when the server only added bookkeeping and defaults |
| LoopingObjects.DashboardBack | scripts/clickstack-looping-alerts.py:27-35 | dashboard specifications and their JSON objects are recovered from each other |
| LoopingObjects.AlertBack | scripts/clickstack-looping-alerts.py:36-40 | and so are alert specifications |
| LoopingObjects.CleanExactly | scripts/clickstack-looping-alerts.py:105-108 | a stored object counts as clean exactly when its canonical form is the object of the specification it is seen as |
| LoopingObjects.KeptDashboardSeen | scripts/clickstack-looping-alerts.py:66-85 | a dashboard kept as it was sent, with bookkeeping and defaults added, is seen as it was sent |
| LoopingObjects.KeptAlertSeen | scripts/clickstack-looping-alerts.py:105-108 | and so is an alert |
| LoopingPlan.StoredMatches | scripts/clickstack-looping-alerts.py:66-85 | a dashboard stored from the manifest matches it when its tiles have distinct names |
| LoopingPlan.OwnDashboardFound | scripts/clickstack-looping-alerts.py:88-109 | on a server with only own objects the dashboard is found, or missing, never ambiguous or in conflict |
| LoopingPlan.OwnAlertFound | scripts/clickstack-looping-alerts.py:88-109 | and so is every alert when alerts are on distinct tiles |
| LoopingApply.MatchTiles | scripts/clickstack-looping-alerts.py:76-82 | the loop matches every manifest tile by name and maps it, exactly when all of them are there with equal contents |
| LoopingApply.DashboardTileMap | scripts/clickstack-looping-alerts.py:66-85 | on the canonical form of a raw object it returns the tile map exactly when that is the manifest's dashboard up to tile ids, and a conflict otherwise |
| LoopingApply.DashboardCandidates | scripts/clickstack-looping-alerts.py:93-94 | the raw rows picked are exactly those seen with the name or a tag |
| LoopingApply.AlertCandidates | scripts/clickstack-looping-alerts.py:95-99 | the raw rows picked are exactly those seen with the name or the tile |
| LoopingApply.Server.FindExistingDashboard | scripts/clickstack-looping-alerts.py:88-109 | a search of the raw objects finds what a search of what is seen of them finds |
| LoopingApply.Server.FindExistingAlert | scripts/clickstack-looping-alerts.py:88-109 | and so for alerts |
| LoopingApply.Server.EnsureDashboard | scripts/clickstack-looping-alerts.py:127-147 | the dashboard is created at most once and returned only when it is found and matches; it is interrupted only by a failing call, and on a server with only own objects by nothing else |
| LoopingApply.Server.EnsureAlert | scripts/clickstack-looping-alerts.py:127-147 | an alert is created at most once and returned only when it is found as planned; it is interrupted only by a failing call |
| LoopingApply.Server.ApplyAlert | scripts/clickstack-looping-alerts.py:155-159 | each alert step keeps the alerts before it in place and never repeats a creation |
| LoopingApply.Server.ApplyPlan | scripts/clickstack-looping-alerts.py:112-166 | nothing is created twice and nothing the manifest does not list; the run completes only with distinct tile names and alerts on distinct tiles and then with every alert in place; it is interrupted only by a failing call, and every other error is that of the dashboard or alert that is in the way; with only own objects nothing is |
| LoopingApply.Server.Reruns | scripts/clickstack-looping-alerts.py:112-166 | over any number of runs at most one dashboard and one alert per manifest entry is created and nothing else; completion means the whole manifest is in place, and otherwise the last run met a failing call or something in the way; with only own objects, names and tiles distinct, the first run without a failing call completes |
| LoopingManifest.AcceptedIsValid | scripts/clickstack-looping-alerts.py:23-41 | an accepted manifest has everything the run needs |
| LoopingManifest.UncompletableWitness | scripts/clickstack-looping-alerts.py:23-41 | an accepted manifest with two alerts on one tile, and one with two tiles of one name |
| Promotion.AuditBatch | scripts/promote-cross-mint-production-baseline.ts:94-109 | a batch passes only if every present account is owned and non-empty, and yields the absent accounts in order |
| Promotion.AuditAll | scripts/promote-cross-mint-production-baseline.ts:53-110 | the batch loop succeeds exactly when every batch of at most 100 got a complete answer without foreign or empty accounts; it then has what was answered for each account, collects exactly the absent ones, and its slot is the lowest at which a batch was answered |
| Promotion.SplitIsAudited | scripts/promote-cross-mint-production-baseline.ts:112-120 | eligible and absent accounts partition the audited ones, in set and in number |
| Promotion.CountFills | scripts/promote-cross-mint-production-baseline.ts:143-149 | rows drawn from a list and as many as the list have exactly its accounts |
| Promotion.FencesPinDown | scripts/promote-cross-mint-production-baseline.ts:143-234 | the two count fences determine the active accounts at the lock and after, and the deactivated ones |
| Promotion.FencesPassExactly | scripts/promote-cross-mint-production-baseline.ts:138-234 | the fences pass exactly when, at the lock, the audited accounts are the active ones, each eligible one is finalized or still unknown, and the control row is absent or allows recovery only |
| PromotionRun.AuditedAccounts | scripts/promote-cross-mint-production-baseline.ts:33-53 | the audited rows are the active accounts, each once |
| PromotionRun.ExpectedIsRouted | scripts/promote-cross-mint-production-baseline.ts:121-127 | the expected count summed over the audited rows is the number of active vaults that absent policies route |
| PromotionRun.UnchangedVaultsCount | scripts/promote-cross-mint-production-baseline.ts:243-247 | when no vault and no policy account changed between audit and lock, the vaults deactivated are those expected |
| PromotionRun.CountsPassExactly | scripts/promote-cross-mint-production-baseline.ts:254-276 | the two counts agree with the audit exactly when so many policies are active and all of them are finalized |
| PromotionRun.PromotedCounts | scripts/promote-cross-mint-production-baseline.ts:254-276 | they do on the tables the transaction leaves |
| PromotionRun.AloneSucceeds | scripts/promote-cross-mint-production-baseline.ts:129-284 | a committed run during which nobody else writes and no answer is lost succeeds |
| PromotionRun.VaultCountWitness | scripts/promote-cross-mint-production-baseline.ts:243-247 | a vault routed by an absent policy after the audit: the fences pass and the run fails after its commit |
| PromotionRun.Database.AuditRows | scripts/promote-cross-mint-production-baseline.ts:33-45 | the audit query has one row for each active policy, with the number of active vaults it routes |
| PromotionRun.Database.Transaction | scripts/promote-cross-mint-production-baseline.ts:138-234 | it commits exactly on such tables and otherwise changes nothing; a commit leaves exactly the eligible accounts active and finalized, deactivates exactly the absent ones, settles the vaults routed by them, touches no other row, and leaves no active vault referring to an absent policy |
| PromotionRun.Database.Audit | scripts/promote-cross-mint-production-baseline.ts:33-127 | the audit passes exactly when the read is answered, the count is the expected one and every batch is answered; it then splits the accounts by what the chain said |
| PromotionRun.Database.Send | scripts/promote-cross-mint-production-baseline.ts:129-241 | the transaction is committed exactly when it arrived and the tables at the lock pass the fences, whether or not its response comes |
| PromotionRun.Database.ReadBack | scripts/promote-cross-mint-production-baseline.ts:254-284 | the two reads pass exactly when both are answered and find, each at its moment, the count, every active policy finalized, and the gate in the safe posture |
| PromotionRun.Database.Commit | scripts/promote-cross-mint-production-baseline.ts:129-284 | from the transaction on, the outcome is that of the tables at each call, and says whether the transaction was committed |
| PromotionRun.Database.Promote | scripts/promote-cross-mint-production-baseline.ts:33-284 | whatever others write before each call and whichever answer is lost, every error tells whether the transaction was committed, except a lost response, and has its exact cause in the tables at each call; success means a committed promotion |
| HubAbi.SlotsTile | crates/loyal-hub-abi/build.rs:216-265 | every byte below the record's length lies in exactly one slot, and no slot reaches beyond it, for every push sequence |
| HubAbi.EntriesAtSlots | crates/loyal-hub-abi/build.rs:216-265 | each push has its entry, in order, at the prefix sum of the sizes before it, and there is no other entry |
| HubAbi.FixedPart | crates/loyal-hub-abi/build.rs:251-265 | the fixed length ends exactly where the first repeat starts: everything pushed before lies below it, everything after above it |
| HubAbi.RecordBuilder.PushField | crates/loyal-hub-abi/build.rs:216-225 | a field of a known type is appended at the current offset, which moves by its size; an unknown type changes nothing |
| HubAbi.RecordBuilder.PushRepeat | crates/loyal-hub-abi/build.rs:227-249 | a repeat of a known type and limit is appended and reserves item size times limit; otherwise nothing changes |
| HubAbi.RecordBuilder.Finish | crates/loyal-hub-abi/build.rs:251-265 | the record ends behind the last push, and its fixed part where the first repeat starts |
| HubAbi.OrderedMap.Insert | crates/loyal-hub-abi/build.rs:72-78 | a new key is appended, a known key is refused, and keys stay distinct |
| HubAbi.OrderedMap.Get | crates/loyal-hub-abi/build.rs:80-89 | the first match of a key is its value in the map the entries stand for |
| HubAbi.ParsedRecords | crates/loyal-hub-abi/build.rs:113-197 | the records of a parsed schema are exactly its record blocks, each laid out by its own push lines under the finished schema |
| HubAbi.ParseSchema | crates/loyal-hub-abi/build.rs:113-197 | the line loop with its builder and ordered maps yields exactly that schema, and panics exactly where the specification has none |
| Codec.ToLeReadsBack | crates/loyal-hub-swap-program/src/codec.rs:19-25 | a number that fits n bytes is recovered from its n little-endian bytes |
| Codec.FromLeWritesBack | crates/loyal-hub-swap-program/src/codec.rs:19-25 | any n bytes are recovered from the number they stand for, which fits n bytes |
| Codec.ReadExactly | crates/loyal-hub-swap-program/src/codec.rs:3-17 | a read succeeds exactly inside the data, for every offset up to the largest `usize` |
| Codec.TypedValuesReadBack | crates/loyal-hub-swap-program/src/codec.rs:19-39 | 16-bit numbers, 64-bit numbers and keys are read as they were written |
| Codec.TypeWidths | crates/loyal-hub-abi/build.rs:267-282 | the size of each built-in type (`bool`, `u8`, `u16`, `u64`, `bytes8`, `pubkey`) is the width of its read: a slot of the type is readable exactly where it fits |
| Codec.WriteBytesAt | crates/loyal-hub-swap-program/src/codec.rs:31-39 | the in-place write succeeds exactly when it fits, overwrites exactly its range, and otherwise changes nothing |
| Codec.EveryByteAfter | crates/loyal-hub-swap-program/src/codec.rs:31-39 | after writes to distinct slots each byte is that of its slot's write, or the old one |
| Codec.WriteReadsBack | crates/loyal-hub-swap-program/src/codec.rs:3-39 | every slot written reads back exactly, whatever the order of the writes |
| Codec.OtherSlotKept | crates/loyal-hub-swap-program/src/codec.rs:31-39 | every slot not written reads as before |
| Codec.BehindKept | crates/loyal-hub-swap-program/src/codec.rs:31-39 | nothing behind the record changes |
| Codec.WriteOrderIrrelevant | crates/loyal-hub-swap-program/src/codec.rs:31-39 | writing the same slots in another order gives the same data |
| Codec.RecordIsTidy | crates/loyal-hub-abi/build.rs:216-265 | the fields of a record and the single items of its repeats have no byte in common and lie inside it |
| Codec.ParsedCellsReadBack | crates/loyal-hub-abi/build.rs:113-265 | from schema lines to bytes: writes to fields and to items of repeats, at the offsets of a parsed record, read back there, and every field and item not written keeps its bytes |
| Base58.ConvertedBack | scripts/web/wallet-session.ts:21-53 | converting digits to the other base and back restores them, leading zeros and the empty list included |
| Base58.DecodeEncode | scripts/web/wallet-session.ts:21-53 | decoding an encoding gives the bytes back, for every byte string |
| Base58.EncodeDecode | scripts/web/wallet-session.ts:21-53 | text decodes exactly when it is over the alphabet, and encoding the result gives the text back |
| Base58.AlphabetAscends | scripts/web/wallet-session.ts:3 | the alphabet is in ascending order, so no letter stands for two digits |
| Base58.Base58Encode | scripts/web/wallet-session.ts:21-34 | the loops compute the specified encoding |
| Base58.Base58Decode | scripts/web/wallet-session.ts:36-53 | the loops compute the specified decoding, and fail exactly on a character outside the alphabet |
| PolicyCatalog.MatchesExactly | crates/loyal-actions/src/backyard_policy_catalog.rs:298-339 | a lane constraint matches exactly the instructions with that program, tag and all twelve accounts in their roles |
| PolicyCatalog.SelectedSize | crates/loyal-actions/src/backyard_policy_catalog.rs:422-429 | the selected layouts are counted by operation |
| PolicyCatalog.NoRepeatIsCount | crates/loyal-actions/src/backyard_policy_catalog.rs:291-297 | the duplicate check passes exactly when no selected operation is named twice |
| PolicyCompiler.ChecksNameOnce | crates/loyal-actions/src/backyard_policy_catalog.rs:420-430 | the count check and the duplicate check pass exactly when each operation has exactly one layout |
| PolicyCompiler.PolicyPermitsExactly | crates/loyal-actions/src/backyard_policy_catalog.rs:419-431 | a policy permits exactly the selected operations on the market's lanes with exactly their accounts |
| PolicyCompiler.SplitCompiles | crates/loyal-actions/src/backyard_policy_catalog.rs:390-441 | for any partition of the operations, all parts compile exactly when the whole does |
| PolicyCompiler.SplitPermits | crates/loyal-actions/src/backyard_policy_catalog.rs:390-441 | the split policies together permit exactly what the unsplit policy permits |
| PolicyCompiler.CompiledOnce | crates/loyal-actions/src/backyard_policy_catalog.rs:419-431 | a compiled policy has one constraint for each of its operations on each lane of its market, and no other |
| PolicyCompiler.CatalogOnce | crates/loyal-actions/src/backyard_policy_catalog.rs:345-388 | when all five markets compile, each (lane, operation) has exactly one constraint in the catalog |
| PolicyCompiler.CompleteIsExact | crates/loyal-actions/src/backyard_policy_catalog.rs:359-361 | eleven entries with every lane among them means exactly the eleven lanes |
| PolicyCompiler.LaneConstraints | crates/loyal-actions/src/backyard_policy_catalog.rs:284-343 | it fails exactly on an empty or repeating list, and otherwise makes one constraint per layout in order |
| PolicyCompiler.CreateMarketPolicy | crates/loyal-actions/src/backyard_policy_catalog.rs:390-441 | it succeeds exactly when the operations are some, each once, the graph is complete and every lane of the market names each once; the result is the specified policy |
| PolicyCompiler.CreateMarketPolicies | crates/loyal-actions/src/backyard_policy_catalog.rs:345-388 | it succeeds exactly when every market compiles, with the five policies in order |
| PolicyCompiler.ExpandPermissions | crates/loyal-actions/src/backyard_policy_catalog.rs:197-231 | it succeeds exactly on the eleven lanes and yields 44 permissions, each lane and operation exactly once with that lane's accounts |
| PolicyCompiler.SelectFirstFittingLayout | crates/loyal-actions/src/backyard_policy_catalog.rs:590-606 | it returns the first non-empty layout whose packets all fit, and fails exactly when there is none |
| Sse.SeparatorStable | scripts/verify-realtime-sse-smoke.ts:230 | text that arrives later neither moves nor lengthens a complete separator |
| Sse.SplitAppend | scripts/verify-realtime-sse-smoke.ts:229-231 | splitting may stop after any piece of text and go on from its open block |
| Sse.FeedIsSplit | scripts/verify-realtime-sse-smoke.ts:219-236 | however the text is cut into chunks, the completed blocks and the buffer are those of splitting the whole text |
| Sse.BlocksGrow | scripts/verify-realtime-sse-smoke.ts:229-231 | completed blocks stay the first blocks of every longer text |
| SseEvents.ParseSseBlock | scripts/verify-realtime-sse-smoke.ts:148-160 | the line loop keeps the last id and event and joins the data values, and yields nothing exactly when all are empty |
| SseEvents.JoinedIsJoin | scripts/verify-realtime-sse-smoke.ts:157 | the data is its values joined by line feeds exactly when there is at most one or the first is not empty |
| SseEvents.LinesOfJoin | scripts/verify-realtime-sse-smoke.ts:150 | lines without breaks of their own are recovered from their joined text |
| SseEvents.RenderedEvent | scripts/verify-realtime-sse-smoke.ts:148-160 | what an event with plain texts, written as field lines, is read as |
| SseEvents.RenderedReadsBack | scripts/verify-realtime-sse-smoke.ts:148-160 | it parses back to itself exactly when it says something and its data does not start with an empty line that others follow |
| SseEvents.EmptyFirstLineWitness | scripts/verify-realtime-sse-smoke.ts:157 | data of an empty line and another: the line feed is gone |
| SseReader.FoundStays | scripts/verify-realtime-sse-smoke.ts:232-235 | an event found in a prefix of the text is the one found in all of it |
| SseReader.RestIsBehind | scripts/verify-realtime-sse-smoke.ts:229-235 | the text is cut right behind the block of the first wanted event: no block before it is wanted, and the blocks of the whole are those before and those behind |
| SseReader.RestStable | scripts/verify-realtime-sse-smoke.ts:229-231 | text that arrives later is behind the found event |
| SseReader.Stream.ReadEvent | scripts/verify-realtime-sse-smoke.ts:213-238 | whatever the chunks, the wait finds the first wanted event of the whole text, reads no chunk beyond the one that completes it, ends without one exactly when the text has none, and times out only on a slow read; what follows the event is the unread part of its chunk and then the chunks left |
| SseReader.Stream.VerifyOverflow | scripts/verify-realtime-sse-smoke.ts:430-449 | the check passes only when the chunk that completed the resync event was the last one, and reports data only when it was not; when it passes there was no data after the event exactly when that chunk held none behind it; every other outcome has its cause |
| SseReader.FindIn | scripts/verify-realtime-sse-smoke.ts:232-235 | the loop over a buffer's blocks returns the first wanted event |
| SseReader.ChunkingIrrelevant | scripts/verify-realtime-sse-smoke.ts:219-236 | two ways of cutting the same text lead to the same blocks, buffer and event |
| SseUnread.LinesAppend | scripts/verify-realtime-sse-smoke.ts:150 | reading lines may stop after any piece of text and go on from its open line |
| SseUnread.HarmlessSkipped | scripts/verify-realtime-sse-smoke.ts:219-235 | unread text that completes no event and begins none is skipped without loss, whatever follows |
| SseUnread.HarmShows | scripts/verify-realtime-sse-smoke.ts:219-235 | for any other unread text there is a continuation on which a wait for anything differs |
| SseUnread.SecondWaitExactly | scripts/verify-realtime-sse-smoke.ts:219-235 | a later wait finds the next wanted event, whatever comes and whatever is wanted, exactly when the unread text is harmless |
| SseUnread.NextEventExactly | scripts/verify-realtime-sse-smoke.ts:219-235 | the same in terms of the chunks a first wait took |
| SseUnread.SecondEventLost | scripts/verify-realtime-sse-smoke.ts:213-238 | two events in one chunk, through actual calls: the second wait ends without the second event, and the overflow check passes |
| Csv.FieldBack | scripts/report-vault-idle-funds.ts:924-927 | a reader recovers every escaped cell, whatever it contains |
| Csv.TableBack | scripts/report-vault-idle-funds.ts:928-933 | and every record of two or more cells, with or without a final line feed |
| Csv.CsvReadsBack | scripts/report-vault-idle-funds.ts:903-934 | a reader following section 2 of RFC 4180 with line feeds recovers the header and every cell of every row |
| Csv.CellsTellRowsApart | scripts/report-vault-idle-funds.ts:904-933 | rows with the same cells agree in every column, except that a missing text looks like an empty one |
| IdleCohorts.PartsAddUp | scripts/report-vault-idle-funds.ts:483-486 | cohorts that share out each row share out the totals, in number and amount |
| IdleCohorts.BucketIndex | scripts/report-vault-idle-funds.ts:488-495 | every amount falls into exactly one of the eight buckets, the one between whose bounds it lies |
| IdleCohorts.BandIndex | scripts/report-vault-idle-funds.ts:497-503 | every date, unreadable ones included, falls into exactly one of the four bands |
| IdleCohorts.DifferencesAgree | scripts/report-vault-idle-funds.ts:627-636 | chain minus Neon over the rows looked up equals the mismatch amount and equals above minus below; exact and mismatched counts make up the rows looked up |
| IdleReport.FilledStep | scripts/report-vault-idle-funds.ts:555-646 | adding a row keeps every cohort of its mint equal to the count over all rows so far |
| IdleReport.FoldStep | scripts/report-vault-idle-funds.ts:510-646 | a step keeps the summaries of all mints exact, and throws exactly when the row was looked up and its mint's first row was not |
| IdleReport.AddRow | scripts/report-vault-idle-funds.ts:555-646 | a summary that agrees with counting over the rows still does with the new row; it throws exactly on a looked-up row of a summary without a chain part |
| IdleReport.SummarizeRows | scripts/report-vault-idle-funds.ts:505-651 | the report throws exactly when some mint was first seen without and later with a chain amount; otherwise it has one summary per mint, every cohort exact, in symbol order |
| IdleReport.TornWitness | scripts/report-vault-idle-funds.ts:594-598 | two rows of one mint on which it throws |
| IdleReport.NeonConserved | scripts/report-vault-idle-funds.ts:555-592 | each cohort pair, the eight buckets and the four bands each add up to the positive total, and no other bucket or band exists |
| IdleReport.ChainConserved | scripts/report-vault-idle-funds.ts:594-646 | the same on the chain side; with every row looked up, chain total minus Neon total is the mismatch amount and above minus below, and exact plus mismatched counts are the rows |

## Left out

- IEEE rounding, the real `Math.pow`, and locale collation tables.
- Server responses of the Autoswap API: they are steps that may fail.
- The contents of the Looping journal, and the last journal write of a run that failed.
- LoopingApply.Server.FindExistingAlert: the inventory, the details and the final read are one call that works or fails.
- LoopingManifest.AcceptedIsValid: the version and team of the manifest, and its exact set of keys, are part of its type here.
- VaultManifest.BuiltPlanIsSound: for rules about different objects, which the manifest is not checked for.
- PromotionRun.Database.AuditRows: the order of the rows; the environment variables before it are parameters.
- HubAbi.ParseSchema: limits and records only; seeds, magic values, instructions and account indexes are keyed lists without a layout. `usize` overflow while building a schema is not modelled.
- PolicyCompiler.CreateMarketPolicies: the constraint lists, not the Squads instructions made from them; policy seeds and failures of the Squads encoder are not modelled.
- SseReader.Stream.ReadEvent: chunks are decoded text and a read is slow or not; the byte decoder and the clock are not modelled.
- Csv.CsvReadsBack: a reader that also takes a bare carriage return for a line break is not covered; the writer does not quote one.
- IdleReport.SummarizeRows: cohorts are values, not shared objects; the order of mints with the same symbol is not stated.
- Swap edges, biclique policies, unresolved-account checks and packet byte lengths of the policy catalog: fixed tables and foreign encoders.
- Report printing, command lines, HTTP and database access, release and UI scripts.
