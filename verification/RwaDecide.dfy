/** Ranking of the candidates and the prioritised decision tree. */
module RwaDecide {
  import opened Wrappers
  import opened RwaTypes
  import opened LeverageGrid
  import opened RwaEvaluate
  import opened Seqs

  const TOLERANCE := 0.000000000001

  /** `localeCompare` taken as a total order on strings. */
  ghost predicate TotalOrder(collate: (string, string) -> int) {
    && (forall x, y :: collate(x, y) < 0 <==> collate(y, x) > 0)
    && (forall x, y :: collate(x, y) == 0 <==> x == y)
    && (forall x, y, z :: collate(x, y) <= 0 && collate(y, z) <= 0 ==> collate(x, z) <= 0)
  }

  /** The comparator of `rank`. A missing net value counts as minus infinity; two of them subtract to NaN,
      which falls through to the candidate id. */
  function Compare(collate: (string, string) -> int, left: Candidate, right: Candidate): int {
    if left.eligible != right.eligible then if left.eligible then -1 else 1
    else if left.expectedNetUsd.None? && right.expectedNetUsd.None? then collate(left.candidateId, right.candidateId)
    else if right.expectedNetUsd.None? then -1
    else if left.expectedNetUsd.None? then 1
    else
      var score := right.expectedNetUsd.value - left.expectedNetUsd.value;
      if Abs(score) > TOLERANCE then if score > 0.0 then 1 else -1 else collate(left.candidateId, right.candidateId)
  }

  function InOrder(collate: (string, string) -> int): (Candidate, Candidate) -> bool {
    (left: Candidate, right: Candidate) => Compare(collate, left, right) <= 0
  }

  /** What is assumed of the sort. The comparator is not transitive, because of its tolerance, so only
      neighbours are known to be in order. */
  ghost predicate IsRanking(collate: (string, string) -> int, candidates: seq<Candidate>, ranked: seq<Candidate>) {
    && multiset(ranked) == multiset(candidates)
    && NeighboursInOrder(ranked, InOrder(collate))
  }

  function EligibleOf(candidates: seq<Candidate>): seq<Candidate> {
    Filter(candidates, (c: Candidate) => c.eligible)
  }

  function FindCurrent(candidates: seq<Candidate>, currentId: string): (r: Option<Candidate>)
    ensures r.Some? ==> r.value in candidates && r.value.eligible && r.value.candidateId == currentId
  {
    if candidates == [] then None
    else if candidates[0].candidateId == currentId && candidates[0].eligible then Some(candidates[0])
    else FindCurrent(candidates[1..], currentId)
  }

  function FindStrategy(strategies: seq<Strategy>, key: string): (r: Option<Strategy>)
    ensures r.Some? ==> r.value in strategies && r.value.key == key
    ensures r.None? ==> forall s :: s in strategies ==> s.key != key
  {
    if strategies == [] then None
    else if strategies[0].key == key then Some(strategies[0])
    else FindStrategy(strategies[1..], key)
  }

  /** The first of the stable sort by descending leverage. */
  function MostLevered(candidates: seq<Candidate>): (r: Option<Candidate>)
    ensures r.None? <==> candidates == []
    ensures r.Some? ==> r.value in candidates && forall c :: c in candidates ==> c.leverageBps <= r.value.leverageBps
  {
    if candidates == [] then None
    else
      var best, last := MostLevered(candidates[..|candidates| - 1]), candidates[|candidates| - 1];
      assert candidates == candidates[..|candidates| - 1] + [last];
      if best.None? || last.leverageBps > best.value.leverageBps then Some(last) else best
  }

  function Safer(ranked: seq<Candidate>, key: string, leverageBps: int): Option<Candidate> {
    MostLevered(Filter(EligibleOf(ranked), (c: Candidate) => c.strategyKey == key && c.leverageBps < leverageBps))
  }

  predicate KnownRisk(side: Option<Reserve>) {
    side.Some? && (Emergency(side.value) || !side.value.active)
  }

  predicate RiskUnknown(side: Option<Reserve>) {
    side.Some? && side.value.emergencyMode.None?
  }

  function CurrentFreshness(input: Input, collateral: Option<Reserve>, debt: Option<Reserve>): Option<Reason>
    requires input.asOf.Some?
  {
    if collateral.None? || debt.None? then Some(ObservationMissing)
    else if FreshnessProblem(collateral.value, input).Some? then FreshnessProblem(collateral.value, input)
    else FreshnessProblem(debt.value, input)
  }

  /** The liquidation threshold of a held position; an unknown one counts as zero. */
  function Threshold(collateral: Option<Reserve>): real {
    if collateral.Some? && collateral.value.liquidationThresholdBps.Some? then collateral.value.liquidationThresholdBps.value
    else 0.0
  }

  /** The risk test on a held position; note `>=` against the safety LTV, where eligibility only rejects `>`. */
  predicate Unsafe(ltvBps: real, input: Input, strategy: Strategy, collateral: Option<Reserve>) {
    ltvBps >= Threshold(collateral) - input.policy.liquidationBufferBps || ltvBps > strategy.policyTargetLtvBps
  }

  predicate CooledDown(input: Input, position: Position)
    requires input.asOf.Some?
  {
    && position.openedAt.Some?
    && (input.asOf.value - position.openedAt.value) as real / 3_600_000.0 >= input.policy.cooldownHours
  }

  datatype Verdict = Verdict(action: Action, reason: Reason, chosen: Option<Candidate>, current: Option<Candidate>)

  /** The decision without a position. */
  function DecideEntry(input: Input, ranked: seq<Candidate>): Verdict {
    var eligible := EligibleOf(ranked);
    if eligible == [] then Verdict(Defer, NoEligibleCandidate, None, None)
    else if eligible[0].expectedNetUsd.None? || eligible[0].expectedNetUsd.value <= input.policy.minOpenNetUsd
    then Verdict(Defer, OpenEdgeInsufficient, None, None)
    else Verdict(Open, BestNetCandidate, Some(eligible[0]), None)
  }

  /** The decision for a position that passed the risk tests. */
  function DecideHolding(input: Input, position: Position, current: Candidate, ranked: seq<Candidate>): Verdict
    requires input.asOf.Some?
    requires current.expectedGrossUsd.Some? && current.expectedNetUsd.Some?
    requires forall c :: c in ranked && c.eligible ==> c.expectedNetUsd.Some?
  {
    var held := Some(current);
    if NonNegative(input.currentExitCostUsd) && current.expectedGrossUsd.value < -input.currentExitCostUsd.value
    then Verdict(Exit, HoldingValueBelowExit, None, held)
    else
      var eligible := EligibleOf(ranked);
      var best := if eligible == [] then current else assert eligible[0] in eligible; eligible[0];
      if best.candidateId == current.candidateId then Verdict(Hold, CurrentIsBest, held, held)
      else if !CooledDown(input, position) then Verdict(Hold, CooldownActive, held, held)
      else if best.expectedNetUsd.value - current.expectedNetUsd.value + TOLERANCE < input.policy.minSwitchEdgeUsd
      then Verdict(Hold, SwitchEdgeInsufficient, held, held)
      else Verdict(Switch, BetterNetCandidate, Some(best), held)
  }

  /** The decision with a position: market risk first, then evidence, then the position's own LTV. */
  function DecidePosition(input: Input, position: Position, candidates: seq<Candidate>, ranked: seq<Candidate>): Verdict
    requires input.asOf.Some?
    requires forall c :: c in candidates && c.eligible ==> c.expectedGrossUsd.Some? && c.expectedNetUsd.Some?
    requires forall c :: c in ranked && c.eligible ==> c.expectedNetUsd.Some?
  {
    var current := FindCurrent(candidates, CandidateId(position.strategyKey, position.leverageBps));
    var strategy := FindStrategy(input.strategies, position.strategyKey);
    if strategy.None? then Verdict(Exit, CurrentStrategyNotAllowed, None, current)
    else
      var observations := Observations(input.reserves);
      var collateral := Lookup(observations, strategy.value.collateralReserve);
      var debt := Lookup(observations, strategy.value.debtReserve);
      if KnownRisk(collateral) || KnownRisk(debt) then Verdict(Exit, KnownMarketRisk, None, current)
      else if input.mode.Live? && (RiskUnknown(collateral) || RiskUnknown(debt))
      then Verdict(Defer, RiskObservationMissing, None, current)
      else if CurrentFreshness(input, collateral, debt).Some?
      then Verdict(Defer, CurrentFreshness(input, collateral, debt).value, None, current)
      else if Unsafe(position.currentLtvBps, input, strategy.value, collateral) then
        var safer := Safer(ranked, strategy.value.key, position.leverageBps);
        if safer.Some? then Verdict(Delever, RiskLimitExceeded, safer, current)
        else Verdict(Exit, NoSafeDeleverageCandidate, None, current)
      else if current.None? then Verdict(Defer, CurrentCandidateUnscorable, None, None)
      else DecideHolding(input, position, current.value, ranked)
  }

  function EvidenceIds(input: Input): set<string> {
    set r | r in input.reserves && r.evidenceId != "" :: r.evidenceId
  }

  lemma {:induction false} EligibleAreScored(rt: Runtime, input: Input, strategies: seq<Strategy>)
    requires ValidInput(input)
    ensures forall c :: c in EvaluateStrategies(rt, input, strategies) && c.eligible ==>
      c.expectedGrossUsd.Some? && c.expectedNetUsd.Some?
  {
    if strategies != [] {
      EligibleAreScored(rt, input, strategies[..|strategies| - 1]);
    }
  }

  lemma CandidatesAreScored(rt: Runtime, input: Input)
    requires ValidInput(input)
    ensures forall c :: c in Evaluate(rt, input) && c.eligible ==> c.expectedGrossUsd.Some? && c.expectedNetUsd.Some?
  {
    EligibleAreScored(rt, input, SortByKey(rt.collate, input.strategies));
  }

  function VerdictOf(rt: Runtime, input: Input, ranked: seq<Candidate>): Verdict
    requires ValidInput(input)
    requires multiset(ranked) == multiset(Evaluate(rt, input))
  {
    if input.currentPosition.None? then DecideEntry(input, ranked)
    else
      var candidates := Evaluate(rt, input);
      CandidatesAreScored(rt, input);
      MultisetMembers(ranked, candidates);
      DecidePosition(input, input.currentPosition.value, candidates, ranked)
  }

  /** `decideRwa`, given the order in which the sort left the candidates. */
  function Decide(rt: Runtime, input: Input, ranked: seq<Candidate>): Decision
    requires multiset(ranked) == multiset(if ValidInput(input) then Evaluate(rt, input) else [])
  {
    var v := if ValidInput(input) then VerdictOf(rt, input, ranked) else Verdict(Defer, InvalidInput, None, None);
    Decision(input.mode, input.asOf, v.action, v.reason, v.chosen, v.current, ranked, EvidenceIds(input))
  }

  // ----- The imperative engine -----

  lemma CompareFlips(collate: (string, string) -> int, left: Candidate, right: Candidate)
    requires TotalOrder(collate)
    ensures Compare(collate, left, right) >= 0 ==> Compare(collate, right, left) <= 0
  {
  }

  lemma RankStep(collate: (string, string) -> int, candidates: seq<Candidate>, n: nat, ranked: seq<Candidate>, i: nat)
    requires n < |candidates| && i <= |ranked| && IsRanking(collate, candidates[..n], ranked)
    requires i > 0 ==> Compare(collate, ranked[i - 1], candidates[n]) <= 0
    requires i < |ranked| ==> Compare(collate, candidates[n], ranked[i]) <= 0
    ensures IsRanking(collate, candidates[..n + 1], ranked[..i] + [candidates[n]] + ranked[i..])
  {
    hide Compare;
    var x := candidates[n];
    InsertKeepsOrder(ranked, i, x, InOrder(collate));
    InsertKeepsElements(ranked, i, x);
    assert candidates[..n + 1] == candidates[..n] + [x];
  }

  lemma NothingRanked(collate: (string, string) -> int, candidates: seq<Candidate>)
    ensures IsRanking(collate, candidates[..0], [])
  {
  }

  /** Sorts by insertion, which puts neighbours in order even for a comparator that is not transitive. */
  method Rank(collate: (string, string) -> int, candidates: seq<Candidate>) returns (ranked: seq<Candidate>)
    requires TotalOrder(collate)
    ensures IsRanking(collate, candidates, ranked)
  {
    hide Compare, IsRanking;
    ranked := [];
    NothingRanked(collate, candidates);
    var n := 0;
    while n < |candidates|
      invariant 0 <= n <= |candidates|
      invariant IsRanking(collate, candidates[..n], ranked)
    {
      var x := candidates[n];
      var i := |ranked|;
      while i > 0 && Compare(collate, x, ranked[i - 1]) < 0
        invariant 0 <= i <= |ranked|
        invariant i < |ranked| ==> Compare(collate, x, ranked[i]) < 0
      {
        i := i - 1;
      }
      if i > 0 { CompareFlips(collate, x, ranked[i - 1]); }
      RankStep(collate, candidates, n, ranked, i);
      ranked := ranked[..i] + [x] + ranked[i..];
      n := n + 1;
    }
    assert candidates[..n] == candidates;
  }

  /** The map of observations, and whether some reserve was observed twice. */
  method CollectObservations(reserves: seq<Reserve>) returns (observations: map<string, Reserve>, duplicates: set<string>)
    ensures observations == Observations(reserves)
    ensures duplicates != {} <==> HasDuplicates(reserves)
  {
    observations := map[];
    duplicates := {};
    var i := 0;
    while i < |reserves|
      invariant 0 <= i <= |reserves|
      invariant observations == Observations(reserves[..i])
      invariant forall id :: id in observations <==> exists j :: 0 <= j < i && reserves[j].reserve == id
      invariant |duplicates| > 0 <==> HasDuplicates(reserves[..i])
    {
      var observation := reserves[i];
      assert reserves[..i + 1][..i] == reserves[..i];
      if observation.reserve in observations {
        duplicates := duplicates + {observation.reserve};
        assert observation.reserve in duplicates;
      }
      observations := observations[observation.reserve := observation];
      i := i + 1;
    }
    assert reserves[..i] == reserves;
  }

  /** The candidates of one strategy, one for each leverage of its grid. */
  method ScoreStrategy(rt: Runtime, input: Input, strategy: Strategy, observations: map<string, Reserve>) returns (candidates: seq<Candidate>)
    requires ValidInput(input) && observations == Observations(input.reserves)
    ensures candidates == EvaluateStrategy(rt, input, strategy)
  {
    hide EvaluateOne, Observations, Grid, SafetyLtv;
    var collateral := Lookup(observations, strategy.collateralReserve);
    var leverages := BuildLeverageGrid(Min(strategy.policyTargetLtvBps, SafetyLtv(input, collateral)), input.policy.leverageStepBps);
    if leverages == [] { leverages := [DENOMINATOR]; }
    assert leverages == Leverages(input, strategy, collateral);
    LeveragesAreLevered(input, strategy, collateral);
    candidates := [];
    var j := 0;
    while j < |leverages|
      invariant 0 <= j <= |leverages|
      invariant |candidates| == j
      invariant forall k :: 0 <= k < j ==> candidates[k] == EvaluateStrategy(rt, input, strategy)[k]
    {
      candidates := candidates + [EvaluateOne(rt, input, strategy, leverages[j])];
      j := j + 1;
    }
  }

  method EvaluateAll(rt: Runtime, input: Input) returns (candidates: seq<Candidate>)
    requires ValidInput(input)
    ensures candidates == Evaluate(rt, input)
  {
    hide EvaluateStrategy, SortByKey, Observations, HasDuplicates;
    var observations, _ := CollectObservations(input.reserves);
    var strategies := SortByKey(rt.collate, input.strategies);
    candidates := [];
    var i := 0;
    while i < |strategies|
      invariant 0 <= i <= |strategies|
      invariant candidates == EvaluateStrategies(rt, input, strategies[..i])
    {
      var scored := ScoreStrategy(rt, input, strategies[i], observations);
      candidates := candidates + scored;
      assert strategies[..i + 1][..i] == strategies[..i];
      i := i + 1;
    }
    assert strategies[..i] == strategies;
  }

  method DecideRwa(rt: Runtime, input: Input) returns (decision: Decision)
    requires TotalOrder(rt.collate)
    ensures IsRanking(rt.collate, if ValidInput(input) then Evaluate(rt, input) else [], decision.rankedCandidates)
    ensures decision == Decide(rt, input, decision.rankedCandidates)
  {
    var candidates := [];
    if ValidInput(input) {
      candidates := EvaluateAll(rt, input);
    }
    var ranked := Rank(rt.collate, candidates);
    decision := Decide(rt, input, ranked);
  }
}
