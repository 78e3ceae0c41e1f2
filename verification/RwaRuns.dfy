/** Properties of the RWA decision engine over the whole ranking, over runs of decisions, and under changes of
    the input that must not matter. */
module RwaRuns {
  import opened Wrappers
  import opened RwaTypes
  import opened LeverageGrid
  import opened RwaEvaluate
  import opened RwaDecide
  import opened RwaTheorems
  import opened Seqs
  import opened Sets

  // ----- The tolerant ranking -----

  lemma EligibleComeFirst(collate: (string, string) -> int, left: Candidate, right: Candidate)
    requires InOrder(collate)(left, right) && right.eligible
    ensures left.eligible
  {
  }

  lemma EligibleIsPrefix(collate: (string, string) -> int, ranked: seq<Candidate>) returns (k: nat)
    requires NeighboursInOrder(ranked, InOrder(collate))
    ensures k <= |ranked| && EligibleOf(ranked) == ranked[..k]
    ensures forall i :: 0 <= i < |ranked| ==> (ranked[i].eligible <==> i < k)
  {
    hide Compare;
    var test := (c: Candidate) => c.eligible;
    forall i, j | 0 <= i < j < |ranked| && j == i + 1 ensures test(ranked[j]) ==> test(ranked[i]) {
      if ranked[j].eligible { EligibleComeFirst(collate, ranked[i], ranked[j]); }
    }
    k := FilterIsPrefix(ranked, test);
  }

  lemma {:induction false} NetFalls(collate: (string, string) -> int, ranked: seq<Candidate>, i: nat)
    requires NeighboursInOrder(ranked, InOrder(collate)) && i < |ranked|
    requires forall j :: 0 <= j <= i ==> ranked[j].eligible && ranked[j].expectedNetUsd.Some?
    ensures ranked[i].expectedNetUsd.value <= ranked[0].expectedNetUsd.value + i as real * TOLERANCE
  {
    if i > 0 {
      NetFalls(collate, ranked, i - 1);
      assert InOrder(collate)(ranked[i - 1], ranked[i]);
    }
  }

  /** However the tolerant sort resolved its ties, no eligible candidate beats the first one by more than one
      tolerance per place. */
  lemma TopWithinTolerance(rt: Runtime, input: Input, ranked: seq<Candidate>, c: Candidate)
    requires ValidInput(input) && IsRanking(rt.collate, Evaluate(rt, input), ranked)
    requires c in Evaluate(rt, input) && c.eligible
    ensures var e := EligibleOf(ranked);
      && |e| > 0 && e[0].expectedNetUsd.Some? && c.expectedNetUsd.Some?
      && c.expectedNetUsd.value <= e[0].expectedNetUsd.value + (|e| - 1) as real * TOLERANCE
  {
    hide Evaluate;
    CandidatesAreScored(rt, input);
    MultisetMembers(ranked, Evaluate(rt, input));
    var k := EligibleIsPrefix(rt.collate, ranked);
    var i :| 0 <= i < |ranked| && ranked[i] == c;
    assert forall j :: 0 <= j <= i ==> ranked[j] in ranked;
    NetFalls(rt.collate, ranked, i);
  }

  /** A switch goes to the top candidate, which is not the current one, after the cooldown, and its edge over
      the current candidate meets the minimum up to the tolerance. */
  lemma SwitchTheorem(input: Input, position: Position, candidates: seq<Candidate>, ranked: seq<Candidate>)
    requires input.asOf.Some?
    requires forall c :: c in candidates && c.eligible ==> c.expectedGrossUsd.Some? && c.expectedNetUsd.Some?
    requires forall c :: c in ranked && c.eligible ==> c.expectedNetUsd.Some?
    ensures var v := DecidePosition(input, position, candidates, ranked); v.action.Switch? ==>
      && EligibleOf(ranked) != [] && v.chosen == Some(EligibleOf(ranked)[0]) && v.current.Some?
      && v.current.value in candidates && v.current.value.candidateId == CandidateId(position.strategyKey, position.leverageBps)
      && v.chosen.value.candidateId != v.current.value.candidateId
      && v.chosen.value.expectedNetUsd.Some? && v.current.value.expectedNetUsd.Some?
      && v.chosen.value.expectedNetUsd.value - v.current.value.expectedNetUsd.value >= input.policy.minSwitchEdgeUsd - TOLERANCE
      && position.openedAt.Some?
      && (input.asOf.value - position.openedAt.value) as real >= input.policy.cooldownHours * 3_600_000.0
  {
    hide FindCurrent, FindStrategy, CandidateId, Observations, CurrentFreshness, Unsafe, KnownRisk, RiskUnknown, Filter, MostLevered;
    var eligible := EligibleOf(ranked);
    assert eligible != [] ==> eligible[0] in eligible;
  }

  /** Without a position the engine opens the top candidate when its net value exceeds the minimum, and otherwise
      defers; then no eligible candidate was worth more than the minimum, up to the tolerance of the sort. */
  lemma EntryTheorem(rt: Runtime, input: Input, ranked: seq<Candidate>)
    requires ValidInput(input) && input.currentPosition.None? && IsRanking(rt.collate, Evaluate(rt, input), ranked)
    ensures var d := Decide(rt, input, ranked);
      && (d.action.Open? || d.action.Defer?)
      && (d.action.Open? ==> d.chosen.Some? && d.chosen.value.expectedNetUsd.Some?
                             && d.chosen.value.expectedNetUsd.value > input.policy.minOpenNetUsd)
      && (d.action.Defer? ==>
        forall c :: c in Evaluate(rt, input) && c.eligible ==>
          && c.expectedNetUsd.Some?
          && c.expectedNetUsd.value <= input.policy.minOpenNetUsd + (|EligibleOf(ranked)| - 1) as real * TOLERANCE)
  {
    hide Evaluate, Filter;
    forall c | c in Evaluate(rt, input) && c.eligible
      ensures c.expectedNetUsd.Some? && |EligibleOf(ranked)| > 0 && EligibleOf(ranked)[0].expectedNetUsd.Some?
      ensures c.expectedNetUsd.value <= EligibleOf(ranked)[0].expectedNetUsd.value + (|EligibleOf(ranked)| - 1) as real * TOLERANCE
    {
      TopWithinTolerance(rt, input, ranked, c);
    }
  }

  ghost predicate SoundSide(side: Option<Reserve>, input: Input) {
    && side.Some? && side.value.active && !Emergency(side.value)
    && (input.mode.Live? ==> LiveEvidence(side.value, input))
  }

  /** A position is only held or switched while both of its markets are sound and its LTV is inside both limits. */
  lemma HeldPositionIsSound(input: Input, position: Position, candidates: seq<Candidate>, ranked: seq<Candidate>)
    requires input.asOf.Some?
    requires forall c :: c in candidates && c.eligible ==> c.expectedGrossUsd.Some? && c.expectedNetUsd.Some?
    requires forall c :: c in ranked && c.eligible ==> c.expectedNetUsd.Some?
    ensures var v := DecidePosition(input, position, candidates, ranked); v.action.Hold? || v.action.Switch? ==>
      var s := FindStrategy(input.strategies, position.strategyKey);
      && s.Some?
      && SoundSide(Lookup(Observations(input.reserves), s.value.collateralReserve), input)
      && SoundSide(Lookup(Observations(input.reserves), s.value.debtReserve), input)
      && position.currentLtvBps <= s.value.policyTargetLtvBps
      && position.currentLtvBps + input.policy.liquidationBufferBps
           < Threshold(Lookup(Observations(input.reserves), s.value.collateralReserve))
  {
    hide FindCurrent, FindStrategy, CandidateId, Observations, Filter, MostLevered;
  }

  /** Leverage earns the collateral yield once, plus the carry over the borrow rate on the borrowed part. */
  lemma CarryDecomposition(collateral: Reserve, debt: Reserve, forecast: real, leverageBps: int)
    requires collateral.supplyApy.Some? && debt.borrowApy.Some?
    ensures var earned := forecast + collateral.supplyApy.value;
      var borrowed := (leverageBps - DENOMINATOR) as real / 10_000.0;
      GrossApy(collateral, debt, forecast, leverageBps) == earned + borrowed * (earned - debt.borrowApy.value)
  {
    var leverage := leverageBps as real / 10_000.0;
    var earned, borrow := forecast + collateral.supplyApy.value, debt.borrowApy.value;
    assert (leverageBps - DENOMINATOR) as real / 10_000.0 == leverage - 1.0;
    assert leverage * earned == earned + (leverage - 1.0) * earned;
    assert (leverage - 1.0) * (earned - borrow) == (leverage - 1.0) * earned - (leverage - 1.0) * borrow;
  }

  // ----- Delevering -----

  /** A delever goes to the largest eligible leverage of the same strategy below the current one. */
  lemma DeleverTheorem(input: Input, position: Position, candidates: seq<Candidate>, ranked: seq<Candidate>)
    requires input.asOf.Some?
    requires forall c :: c in candidates && c.eligible ==> c.expectedGrossUsd.Some? && c.expectedNetUsd.Some?
    requires forall c :: c in ranked && c.eligible ==> c.expectedNetUsd.Some?
    ensures var v := DecidePosition(input, position, candidates, ranked); v.action.Delever? ==>
      && v.chosen.Some? && v.chosen.value in ranked && v.chosen.value.eligible
      && v.chosen.value.strategyKey == position.strategyKey && v.chosen.value.leverageBps < position.leverageBps
      && forall c :: c in ranked && c.eligible && c.strategyKey == position.strategyKey && c.leverageBps < position.leverageBps
           ==> c.leverageBps <= v.chosen.value.leverageBps
  {
    hide FindCurrent, CandidateId, Observations, CurrentFreshness, Unsafe, KnownRisk, RiskUnknown, DecideHolding, Filter, MostLevered;
    var current := FindCurrent(candidates, CandidateId(position.strategyKey, position.leverageBps));
    if current.Some? {
      HoldingChoice(input, position, current.value, ranked);
    }
  }

  /** The engine's parameters that stay fixed while a position is wound down. */
  ghost predicate SameMarket(a: Input, b: Input) {
    a.strategies == b.strategies && a.reserves == b.reserves && a.policy == b.policy
  }

  /** One `delever` decision carried out: the position moves to the chosen leverage. Time, equity, quotes, NAV
      history and the measured LTV may all change. */
  ghost predicate DeleverStep(rt: Runtime, a: Input, ranked: seq<Candidate>, b: Input) {
    && ValidInput(a) && multiset(ranked) == multiset(Evaluate(rt, a))
    && SameMarket(a, b)
    && var d := Decide(rt, a, ranked);
      && d.action.Delever? && d.chosen.Some? && b.currentPosition.Some?
      && b.currentPosition.value.strategyKey == d.chosen.value.strategyKey
      && b.currentPosition.value.leverageBps == d.chosen.value.leverageBps
  }

  /** All leverages tried for the strategies under `key`. */
  ghost function LeverageSet(input: Input, key: string): set<int> {
    set s, x | s in input.strategies && s.key == key
      && x in Leverages(input, s, Lookup(Observations(input.reserves), s.collateralReserve)) :: x
  }

  lemma SameLeverages(a: Input, b: Input, s: Strategy, collateral: Option<Reserve>)
    requires a.policy == b.policy
    ensures Leverages(a, s, collateral) == Leverages(b, s, collateral)
  {
  }

  lemma DeleverStepLowers(rt: Runtime, a: Input, ranked: seq<Candidate>, b: Input)
    requires DeleverStep(rt, a, ranked, b)
    ensures a.currentPosition.Some? && b.currentPosition.value.strategyKey == a.currentPosition.value.strategyKey
    ensures b.currentPosition.value.leverageBps < a.currentPosition.value.leverageBps
    ensures b.currentPosition.value.leverageBps in LeverageSet(a, a.currentPosition.value.strategyKey)
    ensures LeverageSet(a, a.currentPosition.value.strategyKey) == LeverageSet(b, a.currentPosition.value.strategyKey)
  {
    hide Evaluate, DecidePosition, Leverages;
    var key := a.currentPosition.value.strategyKey;
    CandidatesAreScored(rt, a);
    MultisetMembers(ranked, Evaluate(rt, a));
    DeleverTheorem(a, a.currentPosition.value, Evaluate(rt, a), ranked);
    var c := Decide(rt, a, ranked).chosen.value;
    var s := CandidateSource(rt, a, c);
    forall s, x | s in a.strategies && s.key == key
      ensures x in Leverages(a, s, Lookup(Observations(a.reserves), s.collateralReserve)) <==>
        x in Leverages(b, s, Lookup(Observations(b.reserves), s.collateralReserve))
    {
      SameLeverages(a, b, s, Lookup(Observations(a.reserves), s.collateralReserve));
    }
  }

  /** Winding down terminates: under fixed reserves and policy, consecutive delevers are at most as many as the
      leverages tried for the strategy, whatever happens to prices, quotes, equity and measured LTV meanwhile. */
  lemma {:induction false} DeleveringTerminates(rt: Runtime, inputs: seq<Input>, rankings: seq<seq<Candidate>>, below: set<int>)
    requires |inputs| == |rankings| + 1 && inputs[0].currentPosition.Some?
    requires forall i :: 0 <= i < |rankings| ==> DeleverStep(rt, inputs[i], rankings[i], inputs[i + 1])
    requires below == set x | x in LeverageSet(inputs[0], inputs[0].currentPosition.value.strategyKey)
                           && x < inputs[0].currentPosition.value.leverageBps
    ensures |rankings| <= |below|
    decreases |rankings|
  {
    if |rankings| > 0 {
      DeleverStepLowers(rt, inputs[0], rankings[0], inputs[1]);
      var position := inputs[1].currentPosition.value;
      var rest := set x | x in LeverageSet(inputs[1], position.strategyKey) && x < position.leverageBps;
      forall i | 0 <= i < |rankings| - 1 ensures DeleverStep(rt, inputs[1..][i], rankings[1..][i], inputs[1..][i + 1]) {
        assert DeleverStep(rt, inputs[i + 1], rankings[i + 1], inputs[i + 1 + 1]);
      }
      DeleveringTerminates(rt, inputs[1..], rankings[1..], rest);
      assert rest + {position.leverageBps} <= below;
      assert |rest + {position.leverageBps}| == |rest| + 1;
      SubsetCard(rest + {position.leverageBps}, below);
    }
  }

  // ----- The call after a move -----

  lemma {:induction false} DistinctKeysFind(strategies: seq<Strategy>, s: Strategy)
    requires s in strategies && forall i, j :: 0 <= i < j < |strategies| ==> strategies[i].key != strategies[j].key
    ensures FindStrategy(strategies, s.key) == Some(s)
  {
    if strategies[0] != s {
      assert s in strategies[1..];
      DistinctKeysFind(strategies[1..], s);
    }
  }

  ghost predicate DistinctKeys(strategies: seq<Strategy>) {
    forall i, j :: 0 <= i < j < |strategies| ==> strategies[i].key != strategies[j].key
  }

  /** Entering an eligible candidate and being measured at its projected LTV, the position is judged unsafe
      exactly when that LTV lies on the safety limit: eligibility tolerates equality, the risk test does not. */
  lemma UnsafeAfterMoveExactly(rt: Runtime, input: Input, c: Candidate, next: Input) returns (s: Strategy, collateral: Reserve)
    requires ValidInput(input) && c in Evaluate(rt, input) && c.eligible
    requires DistinctKeys(input.strategies) && SameMarket(input, next)
    ensures FindStrategy(next.strategies, c.strategyKey) == Some(s)
    ensures Lookup(Observations(next.reserves), s.collateralReserve) == Some(collateral)
    ensures Unsafe(c.projectedLtvBps as real, next, s, Some(collateral)) <==>
      c.projectedLtvBps as real == SafetyLtv(input, Some(collateral))
  {
    hide Evaluate;
    s := CandidateSource(rt, input, c);
    DistinctKeysFind(input.strategies, s);
    var debt, forecast;
    collateral, debt, forecast := EligibleParts(rt, input, s, c);
    NoReasons(input, s, collateral, debt, forecast, c.leverageBps);
  }

  ghost predicate RiskExit(d: Decision) {
    d.reasonCode.RiskLimitExceeded? || d.reasonCode.NoSafeDeleverageCandidate?
  }

  /** The market of a held position can be judged and is not known to be at risk. */
  ghost predicate Judged(side: Option<Reserve>, input: Input) {
    && input.asOf.Some? && side.Some? && side.value.active && !Emergency(side.value)
    && FreshnessProblem(side.value, input).None? && (input.mode.Live? ==> side.value.emergencyMode.Some?)
  }

  ghost predicate MarketsJudged(input: Input, s: Strategy) {
    && Judged(Lookup(Observations(input.reserves), s.collateralReserve), input)
    && Judged(Lookup(Observations(input.reserves), s.debtReserve), input)
  }

  /** A position is wound down for its risk exactly when its strategy is still there, both markets can be judged, and its
      LTV fails the test. */
  lemma RiskExitExactly(input: Input, position: Position, candidates: seq<Candidate>, ranked: seq<Candidate>)
    requires input.asOf.Some?
    requires forall c :: c in candidates && c.eligible ==> c.expectedGrossUsd.Some? && c.expectedNetUsd.Some?
    requires forall c :: c in ranked && c.eligible ==> c.expectedNetUsd.Some?
    ensures var v, s := DecidePosition(input, position, candidates, ranked), FindStrategy(input.strategies, position.strategyKey);
      v.reason.RiskLimitExceeded? || v.reason.NoSafeDeleverageCandidate? <==>
        && s.Some? && MarketsJudged(input, s.value)
        && Unsafe(position.currentLtvBps, input, s.value, Lookup(Observations(input.reserves), s.value.collateralReserve))
  {
    hide FindStrategy, FindCurrent, CandidateId, Observations, Unsafe, Filter, MostLevered, FreshnessProblem;
    var current := FindCurrent(candidates, CandidateId(position.strategyKey, position.leverageBps));
    if current.Some? { HoldingReasons(input, position, current.value, ranked); }
    var s := FindStrategy(input.strategies, position.strategyKey);
    if s.Some? {
      var collateral := Lookup(Observations(input.reserves), s.value.collateralReserve);
      var debt := Lookup(Observations(input.reserves), s.value.debtReserve);
      if collateral.Some? { FreshReasons(collateral.value, input); }
      if debt.Some? { FreshReasons(debt.value, input); }
    }
  }

  lemma HoldingReasons(input: Input, position: Position, current: Candidate, ranked: seq<Candidate>)
    requires input.asOf.Some? && current.expectedGrossUsd.Some? && current.expectedNetUsd.Some?
    requires forall c :: c in ranked && c.eligible ==> c.expectedNetUsd.Some?
    ensures var v := DecideHolding(input, position, current, ranked);
      !v.reason.RiskLimitExceeded? && !v.reason.NoSafeDeleverageCandidate?
  {
    hide Filter;
  }

  lemma FreshReasons(r: Reserve, input: Input)
    requires input.asOf.Some?
    ensures FreshnessProblem(r, input) != Some(RiskLimitExceeded) && FreshnessProblem(r, input) != Some(NoSafeDeleverageCandidate)
  {
  }

  /** After the engine moved to a candidate and the position is measured at its projected LTV, the next decision winds it
      down for risk exactly when the markets can still be judged and the projection lies on the safety limit. In
      particular it never does where the policy target is below that limit. */
  lemma MoveUndoneExactly(rt: Runtime, input: Input, c: Candidate, next: Input, ranked: seq<Candidate>)
    returns (s: Strategy, collateral: Reserve)
    requires ValidInput(input) && c in Evaluate(rt, input) && c.eligible
    requires DistinctKeys(input.strategies) && SameMarket(input, next)
    requires ValidInput(next) && multiset(ranked) == multiset(Evaluate(rt, next)) && next.currentPosition.Some?
    requires next.currentPosition.value.strategyKey == c.strategyKey
    requires next.currentPosition.value.currentLtvBps == c.projectedLtvBps as real
    ensures FindStrategy(input.strategies, c.strategyKey) == Some(s)
    ensures Lookup(Observations(input.reserves), s.collateralReserve) == Some(collateral)
    ensures RiskExit(Decide(rt, next, ranked)) <==>
      MarketsJudged(next, s) && c.projectedLtvBps as real == SafetyLtv(input, Some(collateral))
    ensures s.policyTargetLtvBps < SafetyLtv(input, Some(collateral)) ==> !RiskExit(Decide(rt, next, ranked))
  {
    hide Evaluate, DecidePosition, Unsafe, MarketsJudged;
    s, collateral := UnsafeAfterMoveExactly(rt, input, c, next);
    var source := CandidateSource(rt, input, c);
    DistinctKeysFind(input.strategies, source);
    var col, debt, forecast := EligibleParts(rt, input, source, c);
    NoReasons(input, source, col, debt, forecast, c.leverageBps);
    CandidatesAreScored(rt, next);
    MultisetMembers(ranked, Evaluate(rt, next));
    RiskExitExactly(next, next.currentPosition.value, Evaluate(rt, next), ranked);
  }

  /** When some leverage tried for a strategy is judged unsafe at its own projection. With a grid, exactly when the policy
      target does not lie below the safety limit and the largest leverage projects onto that limit. Without one, when no
      leverage at all, the only thing tried, is not below the limits. */
  lemma OnTheLimitExactly(input: Input, s: Strategy, collateral: Reserve)
    requires collateral.liquidationThresholdBps.Some?
    ensures var safety := SafetyLtv(input, Some(collateral));
      (exists x :: x in Leverages(input, s, Some(collateral)) && x > 0
                && Unsafe(ProjectedLtvBps(x) as real, input, s, Some(collateral)))
      <==> if GridExists(Min(s.policyTargetLtvBps, safety), input.policy.leverageStepBps) then
             && s.policyTargetLtvBps >= safety && MaxLeverageBps(safety) > 0
             && ProjectedLtvBps(MaxLeverageBps(safety)) as real == safety
           else safety <= 0.0 || s.policyTargetLtvBps < 0.0
  {
    var safety := SafetyLtv(input, Some(collateral));
    var target := Min(s.policyTargetLtvBps, safety);
    var grid := Grid(target, input.policy.leverageStepBps);
    GridTheorem(target, input.policy.leverageStepBps);
    if grid == [] {
      ProjectedUnlevered();
      assert Leverages(input, s, Some(collateral))[0] == DENOMINATOR;
    } else {
      var top := grid[|grid| - 1];
      assert top in grid;
      forall x | x in grid ensures ProjectedLtvBps(x) <= ProjectedLtvBps(top) {
        ProjectedMonotone(x, top);
      }
    }
  }

  /** The gap is real: at a 50% limit, 2x leverage projects to exactly 50%. It passes both eligibility caps and is
      judged unsafe by the very next call. */
  lemma OnTheLimitWitness(input: Input, s: Strategy, collateral: Reserve)
    requires s.policyTargetLtvBps == 5_000.0 && input.policy.leverageStepBps == 2_500.0
    requires collateral.liquidationThresholdBps.Some? && SafetyLtv(input, Some(collateral)) == 5_000.0
    ensures 20_000 in Leverages(input, s, Some(collateral))
    ensures ProjectedLtvBps(20_000) as real == s.policyTargetLtvBps == SafetyLtv(input, Some(collateral))
    ensures Unsafe(ProjectedLtvBps(20_000) as real, input, s, Some(collateral))
  {
    AdmittedExactly(5_000, 20_000);
    AdmittedExactly(5_000, 20_001);
    assert MaxLeverageBps(5_000.0) == 20_000;
    GridTheorem(5_000.0, 2_500.0);
    var grid := Grid(5_000.0, 2_500.0);
    assert grid[|grid| - 1] in grid;
    UnroundedProjection(20_000, 5_000);
    UnroundedProjection(20_000, 4_999);
    assert 10_000.0 / (20_000 as real) == 0.5;
  }
}
