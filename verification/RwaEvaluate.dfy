/** Scoring of every strategy and leverage pair by the RWA decision engine. */
module RwaEvaluate {
  import opened Wrappers
  import opened RwaTypes
  import opened LeverageGrid
  import opened Seqs
  import opened Text

  const HOURS_PER_YEAR := 8_766.0

  /** Both gates of `decideRwa`: positive equity and a parseable decision time. */
  predicate ValidInput(input: Input) {
    NonNegative(input.equityUsd) && input.equityUsd.value > 0.0 && input.asOf.Some?
  }

  // ----- Evidence -----

  function Observations(reserves: seq<Reserve>): map<string, Reserve> {
    if reserves == [] then map[]
    else var last := reserves[|reserves| - 1]; Observations(reserves[..|reserves| - 1])[last.reserve := last]
  }

  predicate HasDuplicates(reserves: seq<Reserve>) {
    exists i, j :: 0 <= i < j < |reserves| && reserves[i].reserve == reserves[j].reserve
  }

  function Lookup(observations: map<string, Reserve>, reserve: string): Option<Reserve> {
    if reserve in observations then Some(observations[reserve]) else None
  }

  function FreshnessProblem(observation: Reserve, input: Input): Option<Reason>
    requires input.asOf.Some?
  {
    if observation.observedAt.None? || observation.observedAt.value > input.asOf.value then Some(ObservationTimeInvalid)
    else if input.mode.Live? then
      if observation.schema != LiveV2 then Some(LiveV2Required)
      else if (input.asOf.value - observation.observedAt.value) as real / 1_000.0 > input.policy.freshnessSeconds
      then Some(ObservationStale)
      else None
    else if observation.schema != KaminoApiHistoryV1 then Some(HistoricalSchemaRequired)
    else None
  }

  function When(condition: bool, reason: Reason): set<Reason> {
    if condition then {reason} else {}
  }

  function Optional(reason: Option<Reason>): set<Reason> {
    if reason.Some? then {reason.value} else {}
  }

  predicate Emergency(observation: Reserve) {
    observation.emergencyMode.Some? && observation.emergencyMode.value
  }

  function SideReasons(side: Option<Reserve>, input: Input, inactive: Reason, unknown: Reason, emergency: Reason): set<Reason>
    requires input.asOf.Some?
  {
    if side.None? then {}
    else
      Optional(FreshnessProblem(side.value, input))
      + When(!side.value.active, inactive)
      + When(input.mode.Live? && side.value.emergencyMode.None?, unknown)
      + When(Emergency(side.value), emergency)
  }

  // ----- NAV forecast -----

  predicate InWindow(point: NavPoint, asOf: int, windowHours: real) {
    && point.priceUsd.Some? && point.priceUsd.value > 0.0
    && point.observedAt.Some?
    && asOf as real - windowHours * 3_600_000.0 <= point.observedAt.value as real
    && point.observedAt.value <= asOf
  }

  function WindowTest(asOf: int, windowHours: real): NavPoint -> bool {
    (point: NavPoint) => InWindow(point, asOf, windowHours)
  }

  function ReserveTest(reserve: string): NavPoint -> bool {
    (point: NavPoint) => point.reserve == reserve
  }

  /** The first point of the stable sort by time. */
  function Earliest(points: seq<NavPoint>): (r: NavPoint)
    requires |points| > 0 && forall p :: p in points ==> p.observedAt.Some?
    ensures r in points && forall p :: p in points ==> r.observedAt.value <= p.observedAt.value
  {
    if |points| == 1 then points[0]
    else
      var best, last := Earliest(points[..|points| - 1]), points[|points| - 1];
      if last.observedAt.value < best.observedAt.value then last else best
  }

  /** The last point of the stable sort by time. */
  function Latest(points: seq<NavPoint>): (r: NavPoint)
    requires |points| > 0 && forall p :: p in points ==> p.observedAt.Some?
    ensures r in points && forall p :: p in points ==> p.observedAt.value <= r.observedAt.value
  {
    if |points| == 1 then points[0]
    else
      var best, last := Latest(points[..|points| - 1]), points[|points| - 1];
      if last.observedAt.value >= best.observedAt.value then last else best
  }

  function EstimateTrailingNavApy(rt: Runtime, points: seq<NavPoint>, asOf: int, policy: Policy): Option<real> {
    if asOf <= 0 || policy.forecastWindowHours <= 0.0 || policy.minForecastSpanHours <= 0.0 then None
    else
      var usable := Filter(points, WindowTest(asOf, policy.forecastWindowHours));
      if |usable| < 2 then None
      else
        var first, last := Earliest(usable), Latest(usable);
        var spanHours := (last.observedAt.value - first.observedAt.value) as real / 3_600_000.0;
        if spanHours < policy.minForecastSpanHours then None
        else
          var annualized := rt.pow(last.priceUsd.value / first.priceUsd.value, HOURS_PER_YEAR / spanHours);
          if annualized.None? then None
          else Some(Min(policy.forecastApyCeiling, Max(policy.forecastApyFloor, annualized.value - 1.0)))
  }

  /** A forecast stays between its floor and its ceiling (or is the ceiling, where a policy has the floor above it), and is
      measured over at least the minimum span, between the earliest and the latest usable point. */
  lemma ForecastBounds(rt: Runtime, points: seq<NavPoint>, asOf: int, policy: Policy)
    ensures var forecast := EstimateTrailingNavApy(rt, points, asOf, policy); forecast.Some? ==>
      && forecast.value <= policy.forecastApyCeiling
      && (policy.forecastApyFloor <= forecast.value || forecast.value == policy.forecastApyCeiling < policy.forecastApyFloor)
      && exists first, last :: first in points && last in points
           && InWindow(first, asOf, policy.forecastWindowHours) && InWindow(last, asOf, policy.forecastWindowHours)
           && (last.observedAt.value - first.observedAt.value) as real / 3_600_000.0 >= policy.minForecastSpanHours
           && forall p :: p in points && InWindow(p, asOf, policy.forecastWindowHours) ==>
                first.observedAt.value <= p.observedAt.value <= last.observedAt.value
  {
    hide Earliest, Latest;
    var usable := Filter(points, WindowTest(asOf, policy.forecastWindowHours));
    if EstimateTrailingNavApy(rt, points, asOf, policy).Some? {
      var first, last := Earliest(usable), Latest(usable);
      assert first in points && last in points;
      forall p | p in points && InWindow(p, asOf, policy.forecastWindowHours)
        ensures first.observedAt.value <= p.observedAt.value <= last.observedAt.value
      {
        assert p in usable;
      }
    }
  }

  function Forecast(rt: Runtime, input: Input, collateral: Option<Reserve>): Option<real>
    requires input.asOf.Some?
  {
    if collateral.None? then None
    else
      EstimateTrailingNavApy(rt, Filter(input.navHistory, ReserveTest(collateral.value.reserve)), input.asOf.value, input.policy)
  }

  // ----- Capacity -----

  function Divide(x: Extended, y: real): Extended
    requires y > 0.0
  {
    if x.Finite? then Finite(x.amount / y) else Infinite
  }

  function Lower(x: Extended, y: Extended): Extended {
    if x.Infinite? then y else if y.Infinite? then x else Finite(Min(x.amount, y.amount))
  }

  function LowestHeadroom(headrooms: seq<Option<real>>): Extended {
    if headrooms == [] then Infinite
    else
      var rest := LowestHeadroom(headrooms[1..]);
      if NonNegative(headrooms[0]) then Lower(Finite(headrooms[0].value), rest) else rest
  }

  function Gap(limit: Option<real>, used: Option<real>): Option<real> {
    if NonNegative(limit) && NonNegative(used) then Some(Max(0.0, limit.value - used.value)) else None
  }

  predicate Covers(capacity: Extended, equity: real) {
    capacity.Infinite? || capacity.amount + 0.000000001 >= equity
  }

  function DebtHeadrooms(debt: Reserve): seq<Option<real>> {
    [debt.availableLiquidityUsd, Gap(debt.borrowLimitUsd, debt.totalBorrowUsd),
     Gap(debt.borrowLimitOutsideGroupUsd, debt.borrowedOutsideGroupUsd), debt.debtWithdrawalHeadroomUsd]
  }

  datatype Capacity = Capacity(capacity: Option<Extended>, reason: Option<Reason>)

  function CapacityFor(input: Input, collateral: Reserve, debt: Reserve, leverageBps: int): Capacity
    requires leverageBps >= DENOMINATOR && input.equityUsd.Some?
  {
    var leverage := leverageBps as real / 10_000.0;
    var own := Gap(collateral.depositLimitUsd, collateral.totalSupplyUsd);
    if input.mode.Live? && own.None? then Capacity(None, Some(CapacityMissing))
    else
      var alone := Divide(if own.Some? then Finite(own.value) else Infinite, leverage);
      if leverage <= 1.0 then Verdict(alone, input.equityUsd.value)
      else
        var debtKnown :=
          && NonNegative(debt.availableLiquidityUsd) && NonNegative(debt.borrowLimitUsd) && NonNegative(debt.totalBorrowUsd)
          && NonNegative(debt.borrowLimitOutsideGroupUsd) && NonNegative(debt.borrowedOutsideGroupUsd)
          && NonNegative(debt.debtWithdrawalHeadroomUsd);
        if input.mode.Live? && !debtKnown then Capacity(None, Some(CapacityMissing))
        else
          Verdict(Lower(alone, Divide(LowestHeadroom(DebtHeadrooms(debt)), leverage - 1.0)), input.equityUsd.value)
  }

  function Verdict(capacity: Extended, equity: real): Capacity {
    Capacity(Some(capacity), if Covers(capacity, equity) then None else Some(CapacityInsufficient))
  }

  // ----- Quotes -----

  function CandidateId(key: string, leverageBps: int): string {
    key + "@" + Decimal(leverageBps)
  }

  function CurrentId(input: Input): Option<string> {
    if input.currentPosition.None? then None
    else Some(CandidateId(input.currentPosition.value.strategyKey, input.currentPosition.value.leverageBps))
  }

  predicate QuoteMatches(quote: Quote, candidateId: string, input: Input)
    requires input.equityUsd.Some?
  {
    && quote.candidateId == candidateId
    && quote.fromCandidateId == CurrentId(input)
    && quote.amountUsd.Some? && Abs(quote.amountUsd.value - input.equityUsd.value) <= 0.000001
  }

  function FindQuote(quotes: seq<Quote>, candidateId: string, input: Input): Option<Quote>
    requires input.equityUsd.Some?
  {
    if quotes == [] then None
    else if QuoteMatches(quotes[0], candidateId, input) then Some(quotes[0])
    else FindQuote(quotes[1..], candidateId, input)
  }

  function QuoteTotal(quote: Quote): Option<real> {
    if NonNegative(quote.entryUsd) && NonNegative(quote.exitUsd) && NonNegative(quote.flashUsd)
      && NonNegative(quote.jupiterUsd) && NonNegative(quote.fixedUsd)
    then Some(quote.entryUsd.value + quote.exitUsd.value + quote.flashUsd.value + quote.jupiterUsd.value + quote.fixedUsd.value)
    else None
  }

  predicate QuoteFresh(quote: Quote, input: Input)
    requires input.asOf.Some?
  {
    && quote.observedAt.Some? && quote.observedAt.value <= input.asOf.value
    && (input.asOf.value - quote.observedAt.value) as real / 1_000.0 <= input.policy.quoteFreshnessSeconds
  }

  function QuoteReasons(quote: Option<Quote>, input: Input): set<Reason>
    requires input.asOf.Some?
  {
    if quote.None? || !quote.value.available then {QuoteMissing}
    else When(!QuoteFresh(quote.value, input), QuoteStale) + When(QuoteTotal(quote.value).None?, QuoteInvalid)
  }

  // ----- One candidate -----

  function SafetyLtv(input: Input, collateral: Option<Reserve>): real {
    if collateral.Some? && collateral.value.liquidationThresholdBps.Some?
    then collateral.value.liquidationThresholdBps.value - input.policy.liquidationBufferBps
    else 0.0
  }

  predicate ThresholdValid(input: Input, collateral: Option<Reserve>) {
    && collateral.Some? && collateral.value.liquidationThresholdBps.Some?
    && input.policy.liquidationBufferBps < collateral.value.liquidationThresholdBps.value < 10_000.0
  }

  function InitialReasons(input: Input, collateral: Option<Reserve>, debt: Option<Reserve>, forecast: Option<real>): set<Reason>
    requires input.asOf.Some?
  {
    When(HasDuplicates(input.reserves), DuplicateReserveEvidence)
    + When(collateral.None? || debt.None?, ObservationMissing)
    + SideReasons(collateral, input, CollateralInactive, CollateralRiskObservationMissing, CollateralEmergency)
    + SideReasons(debt, input, DebtInactive, DebtRiskObservationMissing, DebtEmergency)
    + When(!ThresholdValid(input, collateral), LiquidationThresholdInvalid)
    + When(forecast.None?, ForecastMissing)
  }

  /** The leverages tried for a strategy: its grid, or no leverage when the grid is empty. */
  function Leverages(input: Input, strategy: Strategy, collateral: Option<Reserve>): seq<int> {
    var grid := Grid(Min(strategy.policyTargetLtvBps, SafetyLtv(input, collateral)), input.policy.leverageStepBps);
    if grid == [] then [DENOMINATOR] else grid
  }

  function Rejected(key: string, leverageBps: int, reasons: set<Reason>): Candidate
    requires leverageBps > 0
  {
    Candidate(CandidateId(key, leverageBps), key, leverageBps, false, reasons,
              None, None, None, None, None, None, ProjectedLtvBps(leverageBps), None, None)
  }

  predicate EconomicsKnown(collateral: Reserve, debt: Reserve) {
    && NonNegative(collateral.priceUsd) && NonNegative(collateral.supplyApy)
    && NonNegative(debt.priceUsd) && NonNegative(debt.borrowApy)
  }

  function CandidateReasons(
    input: Input, strategy: Strategy, collateral: Reserve, debt: Reserve, forecast: real, leverageBps: int): set<Reason>
    requires ValidInput(input) && leverageBps >= DENOMINATOR
  {
    var id := CandidateId(strategy.key, leverageBps);
    var projected := ProjectedLtvBps(leverageBps) as real;
    InitialReasons(input, Some(collateral), Some(debt), Some(forecast))
    + When(!EconomicsKnown(collateral, debt), EconomicObservationMissing)
    + When(projected > strategy.policyTargetLtvBps, PolicyCapExceeded)
    + When(projected > SafetyLtv(input, Some(collateral)), LiquidationBufferExceeded)
    + (if Some(id) == CurrentId(input) then {}
       else
         Optional(CapacityFor(input, collateral, debt, leverageBps).reason)
         + QuoteReasons(FindQuote(input.costQuotes, id, input), input))
  }

  function GrossApy(collateral: Reserve, debt: Reserve, forecast: real, leverageBps: int): real
    requires collateral.supplyApy.Some? && debt.borrowApy.Some?
  {
    var leverage := leverageBps as real / 10_000.0;
    leverage * (forecast + collateral.supplyApy.value) - (leverage - 1.0) * debt.borrowApy.value
  }

  function GrossUsd(equity: real, grossApy: real, horizonHours: real): real {
    equity * grossApy * horizonHours / HOURS_PER_YEAR
  }

  function Score(
    input: Input, strategy: Strategy, collateral: Reserve, debt: Reserve, forecast: real, leverageBps: int): Candidate
    requires ValidInput(input) && leverageBps >= DENOMINATOR
    requires CandidateReasons(input, strategy, collateral, debt, forecast, leverageBps) == {}
  {
    assert EconomicsKnown(collateral, debt) && ThresholdValid(input, Some(collateral)) by {
      var reasons := CandidateReasons(input, strategy, collateral, debt, forecast, leverageBps);
      assert EconomicObservationMissing !in reasons && LiquidationThresholdInvalid !in reasons;
    }
    var id := CandidateId(strategy.key, leverageBps);
    var held := Some(id) == CurrentId(input);
    var quote := FindQuote(input.costQuotes, id, input);
    assert !held ==> quote.Some? && QuoteTotal(quote.value).Some? by {
      var reasons := CandidateReasons(input, strategy, collateral, debt, forecast, leverageBps);
      assert QuoteMissing !in reasons && QuoteInvalid !in reasons;
    }
    var gross := GrossApy(collateral, debt, forecast, leverageBps);
    var grossUsd := GrossUsd(input.equityUsd.value, gross, input.policy.horizonHours);
    var cost := if held then 0.0 else QuoteTotal(quote.value).value;
    var threshold := collateral.liquidationThresholdBps.value;
    Candidate(id, strategy.key, leverageBps, true, {Eligible}, Some(forecast), Some(gross), Some(grossUsd), Some(cost),
              Some(grossUsd - cost),
              if held then Some(Infinite) else CapacityFor(input, collateral, debt, leverageBps).capacity,
              ProjectedLtvBps(leverageBps), Some(threshold), Some(threshold - ProjectedLtvBps(leverageBps) as real))
  }

  function EvaluateOne(rt: Runtime, input: Input, strategy: Strategy, leverageBps: int): Candidate
    requires ValidInput(input) && leverageBps >= DENOMINATOR
  {
    var observations := Observations(input.reserves);
    var collateral := Lookup(observations, strategy.collateralReserve);
    var debt := Lookup(observations, strategy.debtReserve);
    var forecast := Forecast(rt, input, collateral);
    if collateral.None? || debt.None? || forecast.None?
    then Rejected(strategy.key, leverageBps, InitialReasons(input, collateral, debt, forecast))
    else
      var reasons := CandidateReasons(input, strategy, collateral.value, debt.value, forecast.value, leverageBps);
      if reasons != {} then Rejected(strategy.key, leverageBps, reasons)
      else Score(input, strategy, collateral.value, debt.value, forecast.value, leverageBps)
  }

  // ----- All candidates -----

  lemma LeveragesAreLevered(input: Input, strategy: Strategy, collateral: Option<Reserve>)
    ensures var l := Leverages(input, strategy, collateral); forall i :: 0 <= i < |l| ==> l[i] >= DENOMINATOR
  {
    GridTheorem(Min(strategy.policyTargetLtvBps, SafetyLtv(input, collateral)), input.policy.leverageStepBps);
    var l := Leverages(input, strategy, collateral);
    assert forall i :: 0 <= i < |l| ==> l[i] in l;
  }

  function EvaluateLeverages(rt: Runtime, input: Input, strategy: Strategy, leverages: seq<int>): seq<Candidate>
    requires ValidInput(input) && forall i :: 0 <= i < |leverages| ==> leverages[i] >= DENOMINATOR
  {
    seq(|leverages|, i requires 0 <= i < |leverages| => EvaluateOne(rt, input, strategy, leverages[i]))
  }

  function EvaluateStrategy(rt: Runtime, input: Input, strategy: Strategy): seq<Candidate>
    requires ValidInput(input)
  {
    var collateral := Lookup(Observations(input.reserves), strategy.collateralReserve);
    LeveragesAreLevered(input, strategy, collateral);
    EvaluateLeverages(rt, input, strategy, Leverages(input, strategy, collateral))
  }

  function EvaluateStrategies(rt: Runtime, input: Input, strategies: seq<Strategy>): seq<Candidate>
    requires ValidInput(input)
  {
    if strategies == [] then []
    else EvaluateStrategies(rt, input, strategies[..|strategies| - 1]) + EvaluateStrategy(rt, input, strategies[|strategies| - 1])
  }

  /** Stable insertion of `x` into strategies sorted by key. */
  function Insert(collate: (string, string) -> int, sorted: seq<Strategy>, x: Strategy): seq<Strategy> {
    if sorted == [] then [x]
    else
      var last := sorted[|sorted| - 1];
      if collate(x.key, last.key) < 0 then Insert(collate, sorted[..|sorted| - 1], x) + [last] else sorted + [x]
  }

  function SortByKey(collate: (string, string) -> int, strategies: seq<Strategy>): seq<Strategy> {
    if strategies == [] then []
    else Insert(collate, SortByKey(collate, strategies[..|strategies| - 1]), strategies[|strategies| - 1])
  }

  function Evaluate(rt: Runtime, input: Input): seq<Candidate>
    requires ValidInput(input)
  {
    EvaluateStrategies(rt, input, SortByKey(rt.collate, input.strategies))
  }
}
