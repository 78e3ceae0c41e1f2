/** Inputs and outputs of the RWA decision engine.
    `None` stands for `null`; a timestamp is the number of milliseconds that `Date.parse` yields, `None` when
    it yields NaN; numbers are exact. */
module RwaTypes {
  import opened Wrappers

  datatype Mode = Live | Historical

  datatype Schema = LiveV2 | KaminoApiHistoryV1

  datatype Strategy = Strategy(key: string, collateralReserve: string, debtReserve: string, policyTargetLtvBps: real)

  datatype Reserve = Reserve(
    reserve: string,
    observedAt: Option<int>,
    evidenceId: string,
    schema: Schema,
    active: bool,
    emergencyMode: Option<bool>,
    priceUsd: Option<real>,
    supplyApy: Option<real>,
    borrowApy: Option<real>,
    availableLiquidityUsd: Option<real>,
    totalSupplyUsd: Option<real>,
    totalBorrowUsd: Option<real>,
    depositLimitUsd: Option<real>,
    borrowLimitUsd: Option<real>,
    borrowLimitOutsideGroupUsd: Option<real>,
    borrowedOutsideGroupUsd: Option<real>,
    debtWithdrawalHeadroomUsd: Option<real>,
    liquidationThresholdBps: Option<real>)

  datatype NavPoint = NavPoint(reserve: string, observedAt: Option<int>, priceUsd: Option<real>)

  datatype Position = Position(strategyKey: string, leverageBps: int, currentLtvBps: real, openedAt: Option<int>)

  datatype Quote = Quote(
    candidateId: string,
    fromCandidateId: Option<string>,
    amountUsd: Option<real>,
    observedAt: Option<int>,
    available: bool,
    entryUsd: Option<real>,
    exitUsd: Option<real>,
    flashUsd: Option<real>,
    jupiterUsd: Option<real>,
    fixedUsd: Option<real>)

  datatype Policy = Policy(
    freshnessSeconds: real,
    quoteFreshnessSeconds: real,
    forecastWindowHours: real,
    minForecastSpanHours: real,
    horizonHours: real,
    leverageStepBps: real,
    liquidationBufferBps: real,
    cooldownHours: real,
    minOpenNetUsd: real,
    minSwitchEdgeUsd: real,
    forecastApyFloor: real,
    forecastApyCeiling: real)

  datatype Input = Input(
    mode: Mode,
    asOf: Option<int>,
    equityUsd: Option<real>,
    strategies: seq<Strategy>,
    reserves: seq<Reserve>,
    navHistory: seq<NavPoint>,
    currentPosition: Option<Position>,
    costQuotes: seq<Quote>,
    currentExitCostUsd: Option<real>,
    policy: Policy)

  /** A capacity can be `Number.POSITIVE_INFINITY`. */
  datatype Extended = Finite(amount: real) | Infinite

  datatype Reason =
    | InvalidInput | DuplicateReserveEvidence | ObservationMissing | ObservationTimeInvalid
    | LiveV2Required | ObservationStale | HistoricalSchemaRequired
    | CollateralInactive | CollateralRiskObservationMissing | CollateralEmergency
    | DebtInactive | DebtRiskObservationMissing | DebtEmergency
    | LiquidationThresholdInvalid | ForecastMissing | EconomicObservationMissing
    | PolicyCapExceeded | LiquidationBufferExceeded | CapacityMissing | CapacityInsufficient
    | QuoteMissing | QuoteStale | QuoteInvalid | Eligible
    | OpenEdgeInsufficient | NoEligibleCandidate | BestNetCandidate
    | CurrentStrategyNotAllowed | KnownMarketRisk | RiskObservationMissing
    | RiskLimitExceeded | NoSafeDeleverageCandidate | CurrentCandidateUnscorable
    | HoldingValueBelowExit | CurrentIsBest | CooldownActive | SwitchEdgeInsufficient | BetterNetCandidate

  datatype Candidate = Candidate(
    candidateId: string,
    strategyKey: string,
    leverageBps: int,
    eligible: bool,
    reasonCodes: set<Reason>,
    forecastNavApy: Option<real>,
    grossApy: Option<real>,
    expectedGrossUsd: Option<real>,
    transitionCostUsd: Option<real>,
    expectedNetUsd: Option<real>,
    capacityEquityUsd: Option<Extended>,
    projectedLtvBps: int,
    liquidationThresholdBps: Option<real>,
    healthBufferBps: Option<real>)

  datatype Action = Open | Hold | Switch | Delever | Exit | Defer

  datatype Decision = Decision(
    evidenceMode: Mode,
    asOf: Option<int>,
    action: Action,
    reasonCode: Reason,
    chosen: Option<Candidate>,
    current: Option<Candidate>,
    rankedCandidates: seq<Candidate>,
    evidenceIds: set<string>)

  /** What the engine takes from its runtime: string collation (`localeCompare`) and `Math.pow`, whose
      result is `None` when it is not finite. */
  datatype Runtime = Runtime(collate: (string, string) -> int, pow: (real, real) -> Option<real>)

  predicate NonNegative(x: Option<real>) {
    x.Some? && x.value >= 0.0
  }

  function Abs(x: real): real {
    if x < 0.0 then -x else x
  }

  function Min(x: real, y: real): real {
    if x <= y then x else y
  }

  function Max(x: real, y: real): real {
    if x >= y then x else y
  }
}
