/** What the RWA decision engine guarantees about the candidate it chooses, on every input and for every
    outcome of the tolerant sort. */
module RwaTheorems {
  import opened Wrappers
  import opened RwaTypes
  import opened LeverageGrid
  import opened RwaEvaluate
  import opened RwaDecide
  import opened Seqs
  import opened Text

  // ----- Where candidates come from -----

  lemma {:induction false} ObservationsSound(reserves: seq<Reserve>, id: string)
    ensures id in Observations(reserves) ==>
      Observations(reserves)[id] in reserves && Observations(reserves)[id].reserve == id
    ensures id in Observations(reserves) <==> exists r :: r in reserves && r.reserve == id
  {
    if reserves != [] {
      var init, last := reserves[..|reserves| - 1], reserves[|reserves| - 1];
      ObservationsSound(init, id);
      assert reserves == init + [last];
    }
  }

  lemma {:induction false} InsertElements(collate: (string, string) -> int, sorted: seq<Strategy>, x: Strategy)
    ensures multiset(Insert(collate, sorted, x)) == multiset(sorted) + multiset{x}
  {
    if sorted != [] {
      var init, last := sorted[..|sorted| - 1], sorted[|sorted| - 1];
      InsertElements(collate, init, x);
      assert sorted == init + [last];
    }
  }

  lemma {:induction false} SortElements(collate: (string, string) -> int, strategies: seq<Strategy>)
    ensures multiset(SortByKey(collate, strategies)) == multiset(strategies)
  {
    hide Insert;
    if strategies != [] {
      var init, last := strategies[..|strategies| - 1], strategies[|strategies| - 1];
      SortElements(collate, init);
      InsertElements(collate, SortByKey(collate, init), last);
      assert strategies == init + [last];
    }
  }

  /** `c` is the evaluation of strategy `s` at one of the leverages tried for it. */
  ghost predicate EvaluationOf(rt: Runtime, input: Input, s: Strategy, c: Candidate)
    requires ValidInput(input)
  {
    && c.leverageBps >= DENOMINATOR
    && c.leverageBps in Leverages(input, s, Lookup(Observations(input.reserves), s.collateralReserve))
    && c == EvaluateOne(rt, input, s, c.leverageBps)
  }

  lemma {:induction false} EvaluatedFrom(rt: Runtime, input: Input, strategies: seq<Strategy>, c: Candidate) returns (s: Strategy)
    requires ValidInput(input) && c in EvaluateStrategies(rt, input, strategies)
    ensures s in strategies && c in EvaluateStrategy(rt, input, s)
  {
    hide EvaluateStrategy;
    var init, last := strategies[..|strategies| - 1], strategies[|strategies| - 1];
    if c in EvaluateStrategies(rt, input, init) {
      s := EvaluatedFrom(rt, input, init, c);
      assert strategies == init + [last];
    } else {
      s := last;
    }
  }

  lemma EvaluationFields(rt: Runtime, input: Input, s: Strategy, leverageBps: int)
    requires ValidInput(input) && leverageBps >= DENOMINATOR
    ensures var c := EvaluateOne(rt, input, s, leverageBps);
      c.leverageBps == leverageBps && c.strategyKey == s.key && c.candidateId == CandidateId(s.key, leverageBps)
  {
  }

  lemma StrategyMember(rt: Runtime, input: Input, s: Strategy, c: Candidate)
    requires ValidInput(input) && c in EvaluateStrategy(rt, input, s)
    ensures EvaluationOf(rt, input, s, c)
    ensures c.strategyKey == s.key && c.candidateId == CandidateId(s.key, c.leverageBps)
  {
    var collateral := Lookup(Observations(input.reserves), s.collateralReserve);
    var leverages := Leverages(input, s, collateral);
    LeveragesAreLevered(input, s, collateral);
    var i :| 0 <= i < |EvaluateStrategy(rt, input, s)| && EvaluateStrategy(rt, input, s)[i] == c;
    EvaluationFields(rt, input, s, leverages[i]);
  }

  lemma CandidateSource(rt: Runtime, input: Input, c: Candidate) returns (s: Strategy)
    requires ValidInput(input) && c in Evaluate(rt, input)
    ensures s in input.strategies && EvaluationOf(rt, input, s, c)
    ensures c.strategyKey == s.key && c.candidateId == CandidateId(s.key, c.leverageBps)
  {
    s := EvaluatedFrom(rt, input, SortByKey(rt.collate, input.strategies), c);
    StrategyMember(rt, input, s, c);
    SortElements(rt.collate, input.strategies);
    MultisetMembers(SortByKey(rt.collate, input.strategies), input.strategies);
  }

  /** The id of a candidate determines its strategy key and leverage. */
  lemma CandidateIdInjective(k1: string, l1: int, k2: string, l2: int)
    requires CandidateId(k1, l1) == CandidateId(k2, l2)
    ensures k1 == k2 && l1 == l2
  {
    DecimalReadsBack(l1);
    DecimalReadsBack(l2);
    LastSeparatorSplits(k1, Decimal(l1), k2, Decimal(l2), '@');
  }

  // ----- LTV rejections -----

  /** Neither LTV rejection can fire on a leverage that is tried, except for a negative limit: the grid was
      built to respect both limits. */
  lemma LtvRejectionsExactly(input: Input, s: Strategy, collateral: Option<Reserve>, leverageBps: int)
    requires leverageBps in Leverages(input, s, collateral) && leverageBps > 0
    ensures ProjectedLtvBps(leverageBps) as real > s.policyTargetLtvBps <==> s.policyTargetLtvBps < 0.0
    ensures ProjectedLtvBps(leverageBps) as real > SafetyLtv(input, collateral) <==> SafetyLtv(input, collateral) < 0.0
  {
    var target := Min(s.policyTargetLtvBps, SafetyLtv(input, collateral));
    GridTheorem(target, input.policy.leverageStepBps);
    ProjectedUnlevered();
    if Grid(target, input.policy.leverageStepBps) != [] {
      ProjectedMonotone(DENOMINATOR, leverageBps);
    }
  }

  // ----- Live evidence behind every action -----

  ghost predicate LiveEvidence(r: Reserve, input: Input) {
    && input.asOf.Some? && r.observedAt.Some? && r.observedAt.value <= input.asOf.value
    && (input.asOf.value - r.observedAt.value) as real / 1_000.0 <= input.policy.freshnessSeconds
    && r.schema == LiveV2
    && r.active
    && r.emergencyMode.Some? && !r.emergencyMode.value
  }

  /** The one observation of a reserve. */
  ghost predicate SoleObservation(r: Reserve, id: string, input: Input) {
    r in input.reserves && r.reserve == id && forall other :: other in input.reserves && other.reserve == id ==> other == r
  }

  /** A quote for moving the equity from exactly the current candidate to `c`, fresh and fully priced. */
  ghost predicate BackedByQuote(c: Candidate, input: Input) {
    exists q :: q in input.costQuotes
      && q.candidateId == CandidateId(c.strategyKey, c.leverageBps) && q.fromCandidateId == CurrentId(input)
      && input.equityUsd.Some? && q.amountUsd.Some? && Abs(q.amountUsd.value - input.equityUsd.value) <= 0.000001
      && q.available
      && input.asOf.Some? && q.observedAt.Some? && q.observedAt.value <= input.asOf.value
      && (input.asOf.value - q.observedAt.value) as real / 1_000.0 <= input.policy.quoteFreshnessSeconds
      && QuoteTotal(q).Some? && c.transitionCostUsd == QuoteTotal(q)
  }

  /** The levered position stays inside a limit, up to the engine's slack on equity. */
  ghost predicate Within(equity: real, factor: real, limit: Option<real>, used: Option<real>) {
    limit.Some? && used.Some? && equity * factor <= Max(0.0, limit.value - used.value) + 0.000000001 * factor
  }

  ghost predicate WithinCapacity(c: Candidate, equity: real, collateral: Reserve, debt: Reserve) {
    var leverage := c.leverageBps as real / 10_000.0;
    && Within(equity, leverage, collateral.depositLimitUsd, collateral.totalSupplyUsd)
    && (leverage > 1.0 ==>
      && Within(equity, leverage - 1.0, debt.availableLiquidityUsd, Some(0.0))
      && Within(equity, leverage - 1.0, debt.borrowLimitUsd, debt.totalBorrowUsd)
      && Within(equity, leverage - 1.0, debt.borrowLimitOutsideGroupUsd, debt.borrowedOutsideGroupUsd)
      && Within(equity, leverage - 1.0, debt.debtWithdrawalHeadroomUsd, Some(0.0)))
  }

  ghost predicate WithinCaps(c: Candidate, input: Input, s: Strategy, collateral: Reserve) {
    && c.leverageBps > 0 && c.projectedLtvBps == ProjectedLtvBps(c.leverageBps)
    && c.projectedLtvBps as real <= s.policyTargetLtvBps
    && collateral.liquidationThresholdBps.Some?
    && input.policy.liquidationBufferBps < collateral.liquidationThresholdBps.value < 10_000.0
    && c.projectedLtvBps as real <= collateral.liquidationThresholdBps.value - input.policy.liquidationBufferBps
  }

  /** Everything that must stand behind a candidate before the engine may move funds into it. */
  ghost predicate Executable(c: Candidate, input: Input, s: Strategy, collateral: Reserve, debt: Reserve) {
    && s in input.strategies && c.strategyKey == s.key
    && SoleObservation(collateral, s.collateralReserve, input) && LiveEvidence(collateral, input)
    && SoleObservation(debt, s.debtReserve, input) && LiveEvidence(debt, input)
    && WithinCaps(c, input, s, collateral)
    && input.equityUsd.Some? && WithinCapacity(c, input.equityUsd.value, collateral, debt)
    && BackedByQuote(c, input)
  }

  lemma {:induction false} FoundQuoteMatches(quotes: seq<Quote>, id: string, input: Input)
    requires input.equityUsd.Some?
    ensures var q := FindQuote(quotes, id, input); q.Some? ==> q.value in quotes && QuoteMatches(q.value, id, input)
  {
    if quotes != [] {
      FoundQuoteMatches(quotes[1..], id, input);
    }
  }

  lemma {:induction false} LowestIsLow(headrooms: seq<Option<real>>, i: nat)
    requires i < |headrooms| && NonNegative(headrooms[i])
    ensures LowestHeadroom(headrooms).Finite? && LowestHeadroom(headrooms).amount <= headrooms[i].value
  {
    if i > 0 {
      LowestIsLow(headrooms[1..], i - 1);
    }
  }

  lemma QuotientBound(equity: real, headroom: real, factor: real)
    requires factor > 0.0 && equity <= headroom / factor + 0.000000001
    ensures equity * factor <= headroom + 0.000000001 * factor
  {
    ScaleOrder(equity, headroom / factor + 0.000000001, factor);
    assert (headroom / factor + 0.000000001) * factor == headroom + 0.000000001 * factor;
  }

  /** The lowest headroom covering the equity, each single one does. */
  lemma RoomCovers(equity: real, rooms: seq<Option<real>>, i: nat, factor: real, limit: Option<real>, used: Option<real>)
    requires factor > 0.0 && i < |rooms| && NonNegative(rooms[i])
    requires limit.Some? && used.Some? && rooms[i].value == Max(0.0, limit.value - used.value)
    requires Covers(Divide(LowestHeadroom(rooms), factor), equity)
    ensures Within(equity, factor, limit, used)
  {
    LowestIsLow(rooms, i);
    QuotientBound(equity, LowestHeadroom(rooms).amount, factor);
  }

  lemma CoversBoth(x: Extended, y: Extended, equity: real)
    ensures Covers(Lower(x, y), equity) ==> Covers(x, equity) && Covers(y, equity)
  {
  }

  lemma CapacityParts(input: Input, collateral: Reserve, debt: Reserve, leverageBps: int)
    requires ValidInput(input) && input.mode.Live? && leverageBps >= DENOMINATOR
    requires CapacityFor(input, collateral, debt, leverageBps).reason.None?
    ensures var equity, leverage := input.equityUsd.value, leverageBps as real / 10_000.0;
      var own := Gap(collateral.depositLimitUsd, collateral.totalSupplyUsd);
      && own.Some? && Covers(Divide(Finite(own.value), leverage), equity)
      && (leverage > 1.0 ==>
        && (forall i :: 0 <= i < 4 ==> NonNegative(DebtHeadrooms(debt)[i]))
        && Covers(Divide(LowestHeadroom(DebtHeadrooms(debt)), leverage - 1.0), equity))
  {
    var equity, leverage := input.equityUsd.value, leverageBps as real / 10_000.0;
    var own := Gap(collateral.depositLimitUsd, collateral.totalSupplyUsd);
    if leverage > 1.0 {
      CoversBoth(Divide(Finite(own.value), leverage), Divide(LowestHeadroom(DebtHeadrooms(debt)), leverage - 1.0), equity);
    }
  }

  lemma CapacityBounds(input: Input, collateral: Reserve, debt: Reserve, c: Candidate)
    requires ValidInput(input) && input.mode.Live? && c.leverageBps >= DENOMINATOR
    requires CapacityFor(input, collateral, debt, c.leverageBps).reason.None?
    ensures WithinCapacity(c, input.equityUsd.value, collateral, debt)
  {
    CapacityParts(input, collateral, debt, c.leverageBps);
    hide CapacityFor, LowestHeadroom, Within;
    var equity, leverage := input.equityUsd.value, c.leverageBps as real / 10_000.0;
    var rooms := DebtHeadrooms(debt);
    OwnCovers(equity, collateral, leverage);
    if leverage > 1.0 {
      assert NonNegative(rooms[0]) && NonNegative(rooms[1]) && NonNegative(rooms[2]) && NonNegative(rooms[3]);
      RoomCovers(equity, rooms, 0, leverage - 1.0, debt.availableLiquidityUsd, Some(0.0));
      RoomCovers(equity, rooms, 1, leverage - 1.0, debt.borrowLimitUsd, debt.totalBorrowUsd);
      RoomCovers(equity, rooms, 2, leverage - 1.0, debt.borrowLimitOutsideGroupUsd, debt.borrowedOutsideGroupUsd);
      RoomCovers(equity, rooms, 3, leverage - 1.0, debt.debtWithdrawalHeadroomUsd, Some(0.0));
    }
  }

  lemma OwnCovers(equity: real, collateral: Reserve, leverage: real)
    requires leverage > 0.0
    requires var own := Gap(collateral.depositLimitUsd, collateral.totalSupplyUsd);
      own.Some? && Covers(Divide(Finite(own.value), leverage), equity)
    ensures Within(equity, leverage, collateral.depositLimitUsd, collateral.totalSupplyUsd)
  {
    QuotientBound(equity, Gap(collateral.depositLimitUsd, collateral.totalSupplyUsd).value, leverage);
  }

  lemma UniqueObservation(r: Reserve, id: string, input: Input)
    requires Lookup(Observations(input.reserves), id) == Some(r) && !HasDuplicates(input.reserves)
    ensures SoleObservation(r, id, input)
  {
    ObservationsSound(input.reserves, id);
    forall other | other in input.reserves && other.reserve == id ensures other == r {
      var i :| 0 <= i < |input.reserves| && input.reserves[i] == r;
      var j :| 0 <= j < |input.reserves| && input.reserves[j] == other;
      assert i == j;
    }
  }

  lemma NoSideReasons(r: Reserve, input: Input, inactive: Reason, unknown: Reason, emergency: Reason)
    requires input.asOf.Some? && input.mode.Live?
    requires SideReasons(Some(r), input, inactive, unknown, emergency) == {}
    ensures LiveEvidence(r, input)
  {
    var reasons := SideReasons(Some(r), input, inactive, unknown, emergency);
    assert inactive !in reasons && unknown !in reasons && emergency !in reasons;
    assert Optional(FreshnessProblem(r, input)) <= reasons;
    NoOptional(FreshnessProblem(r, input));
  }

  lemma NoOptional(reason: Option<Reason>)
    ensures reason.Some? <==> Optional(reason) != {}
  {
    if reason.Some? {
      assert reason.value in Optional(reason);
    }
  }

  /** Nothing speaks against a candidate. */
  ghost predicate AllClear(input: Input, s: Strategy, collateral: Reserve, debt: Reserve, leverageBps: int)
    requires ValidInput(input) && leverageBps >= DENOMINATOR
  {
    && !HasDuplicates(input.reserves)
    && SideReasons(Some(collateral), input, CollateralInactive, CollateralRiskObservationMissing, CollateralEmergency) == {}
    && SideReasons(Some(debt), input, DebtInactive, DebtRiskObservationMissing, DebtEmergency) == {}
    && ThresholdValid(input, Some(collateral)) && EconomicsKnown(collateral, debt)
    && ProjectedLtvBps(leverageBps) as real <= s.policyTargetLtvBps
    && ProjectedLtvBps(leverageBps) as real <= SafetyLtv(input, Some(collateral))
    && (Some(CandidateId(s.key, leverageBps)) != CurrentId(input) ==>
        && CapacityFor(input, collateral, debt, leverageBps).reason.None?
        && QuoteReasons(FindQuote(input.costQuotes, CandidateId(s.key, leverageBps), input), input) == {})
  }

  lemma NoReasons(input: Input, s: Strategy, collateral: Reserve, debt: Reserve, forecast: real, leverageBps: int)
    requires ValidInput(input) && leverageBps >= DENOMINATOR
    ensures CandidateReasons(input, s, collateral, debt, forecast, leverageBps) == {} <==> AllClear(input, s, collateral, debt, leverageBps)
  {
    hide SideReasons, CapacityFor, QuoteReasons, FindQuote, CandidateId, ThresholdValid, EconomicsKnown, HasDuplicates;
    var reasons := CandidateReasons(input, s, collateral, debt, forecast, leverageBps);
    var quote := FindQuote(input.costQuotes, CandidateId(s.key, leverageBps), input);
    if reasons == {} {
      assert DuplicateReserveEvidence !in reasons && LiquidationThresholdInvalid !in reasons && EconomicObservationMissing !in reasons;
      assert PolicyCapExceeded !in reasons && LiquidationBufferExceeded !in reasons;
      assert SideReasons(Some(collateral), input, CollateralInactive, CollateralRiskObservationMissing, CollateralEmergency) <= reasons;
      assert SideReasons(Some(debt), input, DebtInactive, DebtRiskObservationMissing, DebtEmergency) <= reasons;
      if Some(CandidateId(s.key, leverageBps)) != CurrentId(input) {
        assert Optional(CapacityFor(input, collateral, debt, leverageBps).reason) <= reasons;
        assert QuoteReasons(quote, input) <= reasons;
        NoOptional(CapacityFor(input, collateral, debt, leverageBps).reason);
      }
    }
  }

  lemma EligibleParts(rt: Runtime, input: Input, s: Strategy, c: Candidate) returns (collateral: Reserve, debt: Reserve, forecast: real)
    requires ValidInput(input) && EvaluationOf(rt, input, s, c) && c.eligible
    ensures Lookup(Observations(input.reserves), s.collateralReserve) == Some(collateral)
    ensures Lookup(Observations(input.reserves), s.debtReserve) == Some(debt)
    ensures CandidateReasons(input, s, collateral, debt, forecast, c.leverageBps) == {}
    ensures c == Score(input, s, collateral, debt, forecast, c.leverageBps)
  {
    var observations := Observations(input.reserves);
    collateral := Lookup(observations, s.collateralReserve).value;
    debt := Lookup(observations, s.debtReserve).value;
    forecast := Forecast(rt, input, Some(collateral)).value;
  }

  lemma QuoteStandsBehind(input: Input, c: Candidate)
    requires ValidInput(input)
    requires var q := FindQuote(input.costQuotes, CandidateId(c.strategyKey, c.leverageBps), input);
      QuoteReasons(q, input) == {} && (q.Some? ==> c.transitionCostUsd == QuoteTotal(q.value))
    ensures BackedByQuote(c, input)
  {
    var id := CandidateId(c.strategyKey, c.leverageBps);
    FoundQuoteMatches(input.costQuotes, id, input);
    var q := FindQuote(input.costQuotes, id, input);
    assert QuoteMissing !in QuoteReasons(q, input);
    assert QuoteStale !in QuoteReasons(q, input) && QuoteInvalid !in QuoteReasons(q, input);
  }

  /** An eligible candidate other than the current one has everything behind it. */
  lemma EligibleIsExecutable(rt: Runtime, input: Input, c: Candidate)
    returns (s: Strategy, collateral: Reserve, debt: Reserve)
    requires ValidInput(input) && input.mode.Live? && c in Evaluate(rt, input) && c.eligible
    requires Some(CandidateId(c.strategyKey, c.leverageBps)) != CurrentId(input)
    ensures Executable(c, input, s, collateral, debt)
  {
    s := CandidateSource(rt, input, c);
    var forecast;
    collateral, debt, forecast := EligibleParts(rt, input, s, c);
    NoReasons(input, s, collateral, debt, forecast, c.leverageBps);
    UniqueObservation(collateral, s.collateralReserve, input);
    UniqueObservation(debt, s.debtReserve, input);
    NoSideReasons(collateral, input, CollateralInactive, CollateralRiskObservationMissing, CollateralEmergency);
    NoSideReasons(debt, input, DebtInactive, DebtRiskObservationMissing, DebtEmergency);
    CapacityBounds(input, collateral, debt, c);
    QuoteStandsBehind(input, c);
  }

  // ----- The chosen candidate -----

  ghost predicate MovesFunds(action: Action) {
    action.Open? || action.Switch? || action.Delever?
  }

  lemma HoldingChoice(input: Input, position: Position, current: Candidate, ranked: seq<Candidate>)
    requires input.asOf.Some?
    requires current.expectedGrossUsd.Some? && current.expectedNetUsd.Some?
    requires forall c :: c in ranked && c.eligible ==> c.expectedNetUsd.Some?
    ensures var v := DecideHolding(input, position, current, ranked); MovesFunds(v.action) ==>
      && v.action.Switch? && v.chosen.Some? && v.chosen.value in EligibleOf(ranked)
      && v.chosen.value.candidateId != current.candidateId
  {
    var eligible := EligibleOf(ranked);
    assert eligible != [] ==> eligible[0] in eligible;
  }

  /** Whatever is ranked, the chosen candidate is ranked and eligible, and its id is not the current one. */
  lemma PositionChoice(input: Input, position: Position, candidates: seq<Candidate>, ranked: seq<Candidate>)
    requires input.asOf.Some?
    requires forall c :: c in candidates && c.eligible ==> c.expectedGrossUsd.Some? && c.expectedNetUsd.Some?
    requires forall c :: c in ranked && c.eligible ==> c.expectedNetUsd.Some?
    ensures var v := DecidePosition(input, position, candidates, ranked); MovesFunds(v.action) ==>
      && !v.action.Open? && v.chosen.Some? && v.chosen.value in EligibleOf(ranked)
      && (v.action.Switch? ==> v.chosen.value.candidateId != CandidateId(position.strategyKey, position.leverageBps))
      && (v.action.Delever? ==> v.chosen.value.strategyKey == position.strategyKey && v.chosen.value.leverageBps < position.leverageBps)
  {
    hide DecideHolding, FindCurrent, FindStrategy, CandidateId, Observations, CurrentFreshness, Unsafe, KnownRisk, RiskUnknown, Filter, MostLevered;
    var current := FindCurrent(candidates, CandidateId(position.strategyKey, position.leverageBps));
    if current.Some? {
      HoldingChoice(input, position, current.value, ranked);
    }
  }

  lemma VerdictChoice(rt: Runtime, input: Input, ranked: seq<Candidate>)
    requires ValidInput(input) && multiset(ranked) == multiset(Evaluate(rt, input))
    ensures var v := VerdictOf(rt, input, ranked); MovesFunds(v.action) ==>
      && v.chosen.Some? && v.chosen.value in EligibleOf(ranked)
      && (input.currentPosition.Some? ==> var position := input.currentPosition.value;
        || v.chosen.value.candidateId != CandidateId(position.strategyKey, position.leverageBps)
        || (v.chosen.value.strategyKey == position.strategyKey && v.chosen.value.leverageBps < position.leverageBps))
  {
    hide Evaluate, DecidePosition;
    var candidates := Evaluate(rt, input);
    if input.currentPosition.None? {
      assert EligibleOf(ranked) != [] ==> EligibleOf(ranked)[0] in EligibleOf(ranked);
    } else {
      CandidatesAreScored(rt, input);
      MultisetMembers(ranked, candidates);
      PositionChoice(input, input.currentPosition.value, candidates, ranked);
    }
  }

  lemma NotCurrent(rt: Runtime, input: Input, c: Candidate, position: Position)
    requires ValidInput(input) && c in Evaluate(rt, input)
    requires
      || c.candidateId != CandidateId(position.strategyKey, position.leverageBps)
      || (c.strategyKey == position.strategyKey && c.leverageBps < position.leverageBps)
    ensures CandidateId(c.strategyKey, c.leverageBps) != CandidateId(position.strategyKey, position.leverageBps)
  {
    var s := CandidateSource(rt, input, c);
    if CandidateId(c.strategyKey, c.leverageBps) == CandidateId(position.strategyKey, position.leverageBps) {
      CandidateIdInjective(c.strategyKey, c.leverageBps, position.strategyKey, position.leverageBps);
    }
  }

  /** Every decision that moves funds picks an eligible evaluated candidate, never the current one. */
  lemma ChosenIsEvaluated(rt: Runtime, input: Input, ranked: seq<Candidate>)
    requires ValidInput(input) && multiset(ranked) == multiset(Evaluate(rt, input))
    ensures var d := Decide(rt, input, ranked); MovesFunds(d.action) ==>
      && d.chosen.Some? && d.chosen.value in Evaluate(rt, input) && d.chosen.value.eligible
      && Some(CandidateId(d.chosen.value.strategyKey, d.chosen.value.leverageBps)) != CurrentId(input)
  {
    var v := VerdictOf(rt, input, ranked);
    VerdictChoice(rt, input, ranked);
    MultisetMembers(ranked, Evaluate(rt, input));
    if MovesFunds(v.action) && input.currentPosition.Some? {
      NotCurrent(rt, input, v.chosen.value, input.currentPosition.value);
    }
  }

  /** In live mode every decision that moves funds picks a candidate with live evidence on both reserves, both
      LTV caps kept, every headroom respected and a fresh quote from exactly the current candidate. */
  lemma ChosenIsExecutable(rt: Runtime, input: Input, ranked: seq<Candidate>)
    requires ValidInput(input) && input.mode.Live? && multiset(ranked) == multiset(Evaluate(rt, input))
    ensures var d := Decide(rt, input, ranked); MovesFunds(d.action) ==>
      d.chosen.Some? && exists s, collateral, debt :: Executable(d.chosen.value, input, s, collateral, debt)
  {
    var d := Decide(rt, input, ranked);
    if MovesFunds(d.action) {
      ChosenIsEvaluated(rt, input, ranked);
      var s, collateral, debt := EligibleIsExecutable(rt, input, d.chosen.value);
    }
  }
}
