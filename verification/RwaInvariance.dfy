/** Changes of the input that cannot change the decision: the order of strategies, the order of reserves, and
    NAV points outside the forecast window. */
module RwaInvariance {
  import opened Wrappers
  import opened RwaTypes
  import opened LeverageGrid
  import opened RwaEvaluate
  import opened RwaDecide
  import opened RwaTheorems
  import opened RwaRuns
  import opened Seqs

  /** Two inputs that differ at most in the order of strategies and reserves and in the NAV history, while the
      derived evidence is the same. */
  ghost predicate SameEvidence(rt: Runtime, a: Input, b: Input) {
    && a.mode == b.mode && a.asOf == b.asOf && a.equityUsd == b.equityUsd
    && a.currentPosition == b.currentPosition && a.costQuotes == b.costQuotes
    && a.currentExitCostUsd == b.currentExitCostUsd && a.policy == b.policy
    && Observations(a.reserves) == Observations(b.reserves)
    && (HasDuplicates(a.reserves) <==> HasDuplicates(b.reserves))
    && EvidenceIds(a) == EvidenceIds(b)
    && (a.asOf.Some? ==> forall r: Reserve :: Forecast(rt, a, Some(r)) == Forecast(rt, b, Some(r)))
  }

  lemma {:induction false} SameQuote(a: Input, b: Input, quotes: seq<Quote>, id: string)
    requires a.equityUsd.Some? && a.equityUsd == b.equityUsd && a.currentPosition == b.currentPosition
    ensures FindQuote(quotes, id, a) == FindQuote(quotes, id, b)
  {
    if quotes != [] {
      SameQuote(a, b, quotes[1..], id);
    }
  }

  lemma SameSideReasons(a: Input, b: Input, side: Option<Reserve>, inactive: Reason, unknown: Reason, emergency: Reason)
    requires a.asOf.Some? && a.asOf == b.asOf && a.mode == b.mode && a.policy == b.policy
    ensures SideReasons(side, a, inactive, unknown, emergency) == SideReasons(side, b, inactive, unknown, emergency)
  {
  }

  lemma SameInitialReasons(rt: Runtime, a: Input, b: Input, collateral: Option<Reserve>, debt: Option<Reserve>, forecast: Option<real>)
    requires ValidInput(a) && SameEvidence(rt, a, b)
    ensures InitialReasons(a, collateral, debt, forecast) == InitialReasons(b, collateral, debt, forecast)
  {
    hide SideReasons, Observations, Forecast, EvidenceIds;
    SameSideReasons(a, b, collateral, CollateralInactive, CollateralRiskObservationMissing, CollateralEmergency);
    SameSideReasons(a, b, debt, DebtInactive, DebtRiskObservationMissing, DebtEmergency);
  }

  lemma SameReasons(rt: Runtime, a: Input, b: Input, s: Strategy, collateral: Reserve, debt: Reserve, forecast: real, leverageBps: int)
    requires ValidInput(a) && SameEvidence(rt, a, b) && leverageBps >= DENOMINATOR
    ensures CandidateReasons(a, s, collateral, debt, forecast, leverageBps) == CandidateReasons(b, s, collateral, debt, forecast, leverageBps)
    ensures CapacityFor(a, collateral, debt, leverageBps) == CapacityFor(b, collateral, debt, leverageBps)
    ensures FindQuote(a.costQuotes, CandidateId(s.key, leverageBps), a) == FindQuote(b.costQuotes, CandidateId(s.key, leverageBps), b)
  {
    hide InitialReasons, Observations, Forecast, EvidenceIds, FindQuote, CandidateId, LowestHeadroom, EconomicsKnown, ProjectedLtvBps;
    SameInitialReasons(rt, a, b, Some(collateral), Some(debt), Some(forecast));
    SameQuote(a, b, a.costQuotes, CandidateId(s.key, leverageBps));
  }

  lemma SameScore(rt: Runtime, a: Input, b: Input, s: Strategy, collateral: Reserve, debt: Reserve, forecast: real, leverageBps: int)
    requires ValidInput(a) && SameEvidence(rt, a, b) && leverageBps >= DENOMINATOR
    requires CandidateReasons(a, s, collateral, debt, forecast, leverageBps) == {}
    ensures CandidateReasons(b, s, collateral, debt, forecast, leverageBps) == {}
    ensures Score(a, s, collateral, debt, forecast, leverageBps) == Score(b, s, collateral, debt, forecast, leverageBps)
  {
    hide Observations, Forecast, EvidenceIds, FindQuote;
    SameReasons(rt, a, b, s, collateral, debt, forecast, leverageBps);
  }

  lemma SameEvaluation(rt: Runtime, a: Input, b: Input, s: Strategy, leverageBps: int)
    requires ValidInput(a) && SameEvidence(rt, a, b) && leverageBps >= DENOMINATOR
    ensures EvaluateOne(rt, a, s, leverageBps) == EvaluateOne(rt, b, s, leverageBps)
  {
    hide Observations, Forecast, EvidenceIds, CandidateReasons, InitialReasons, Score, ProjectedLtvBps;
    var collateral := Lookup(Observations(a.reserves), s.collateralReserve);
    var debt := Lookup(Observations(a.reserves), s.debtReserve);
    if collateral.Some? {
      var forecast := Forecast(rt, a, collateral);
      assert forecast == Forecast(rt, b, Some(collateral.value));
      SameInitialReasons(rt, a, b, collateral, debt, forecast);
      if debt.Some? && forecast.Some? {
        SameReasons(rt, a, b, s, collateral.value, debt.value, forecast.value, leverageBps);
        if CandidateReasons(a, s, collateral.value, debt.value, forecast.value, leverageBps) == {} {
          SameScore(rt, a, b, s, collateral.value, debt.value, forecast.value, leverageBps);
        }
      }
    } else {
      NoForecast(rt, a);
      NoForecast(rt, b);
      SameInitialReasons(rt, a, b, collateral, debt, None);
    }
  }

  lemma NoForecast(rt: Runtime, input: Input)
    requires input.asOf.Some?
    ensures Forecast(rt, input, None) == None
  {
  }

  lemma SameStrategyEvaluation(rt: Runtime, a: Input, b: Input, s: Strategy)
    requires ValidInput(a) && SameEvidence(rt, a, b)
    ensures EvaluateStrategy(rt, a, s) == EvaluateStrategy(rt, b, s)
  {
    hide Observations, Forecast, EvidenceIds, EvaluateOne, Leverages;
    var collateral := Lookup(Observations(a.reserves), s.collateralReserve);
    SameLeverages(a, b, s, collateral);
    LeveragesAreLevered(a, s, collateral);
    var l := Leverages(a, s, collateral);
    forall i | 0 <= i < |l| ensures EvaluateOne(rt, a, s, l[i]) == EvaluateOne(rt, b, s, l[i]) {
      SameEvaluation(rt, a, b, s, l[i]);
    }
  }

  lemma {:induction false} SameEvaluations(rt: Runtime, a: Input, b: Input, strategies: seq<Strategy>)
    requires ValidInput(a) && SameEvidence(rt, a, b)
    ensures EvaluateStrategies(rt, a, strategies) == EvaluateStrategies(rt, b, strategies)
  {
    hide Observations, Forecast, EvidenceIds, EvaluateStrategy;
    if strategies != [] {
      SameEvaluations(rt, a, b, strategies[..|strategies| - 1]);
      SameStrategyEvaluation(rt, a, b, strategies[|strategies| - 1]);
    }
  }

  lemma SamePositionVerdict(rt: Runtime, a: Input, b: Input, position: Position, candidates: seq<Candidate>, ranked: seq<Candidate>)
    requires ValidInput(a) && SameEvidence(rt, a, b)
    requires forall key :: FindStrategy(a.strategies, key) == FindStrategy(b.strategies, key)
    requires forall c :: c in candidates && c.eligible ==> c.expectedGrossUsd.Some? && c.expectedNetUsd.Some?
    requires forall c :: c in ranked && c.eligible ==> c.expectedNetUsd.Some?
    ensures DecidePosition(a, position, candidates, ranked) == DecidePosition(b, position, candidates, ranked)
  {
    hide Observations, Forecast, EvidenceIds, HasDuplicates, FindStrategy, FindCurrent, CandidateId, Filter, MostLevered, EligibleOf, Safer;
  }

  /** Inputs with the same evidence, the same sorted strategies and the same strategy lookup are decided alike,
      for every outcome of the sort. */
  lemma SameDecision(rt: Runtime, a: Input, b: Input, ranked: seq<Candidate>)
    requires SameEvidence(rt, a, b)
    requires SortByKey(rt.collate, a.strategies) == SortByKey(rt.collate, b.strategies)
    requires forall key :: FindStrategy(a.strategies, key) == FindStrategy(b.strategies, key)
    ensures ValidInput(a) ==> Evaluate(rt, a) == Evaluate(rt, b)
    ensures multiset(ranked) == multiset(if ValidInput(a) then Evaluate(rt, a) else []) ==> Decide(rt, a, ranked) == Decide(rt, b, ranked)
  {
    hide Observations, Forecast, EvidenceIds, EvaluateStrategies, SortByKey, DecidePosition, FindStrategy;
    if ValidInput(a) {
      SameEvaluations(rt, a, b, SortByKey(rt.collate, a.strategies));
      if multiset(ranked) == multiset(Evaluate(rt, a)) && a.currentPosition.Some? {
        CandidatesAreScored(rt, a);
        MultisetMembers(ranked, Evaluate(rt, a));
        SamePositionVerdict(rt, a, b, a.currentPosition.value, Evaluate(rt, a), ranked);
      }
    }
  }

  // ----- Reordering strategies -----

  ghost predicate SortedByKey(collate: (string, string) -> int, s: seq<Strategy>) {
    forall i, j :: 0 <= i < j < |s| ==> collate(s[i].key, s[j].key) < 0
  }

  lemma Precedes(collate: (string, string) -> int, x: string, y: string, z: string)
    requires TotalOrder(collate)
    ensures !(collate(x, y) < 0 && collate(y, x) < 0) && (x != y ==> collate(x, y) < 0 || collate(y, x) < 0)
    ensures collate(x, y) < 0 && collate(y, z) < 0 ==> collate(x, z) < 0
  {
    assert collate(x, z) == 0 ==> x == z;
  }

  lemma LastIsLargest(collate: (string, string) -> int, init: seq<Strategy>, last: Strategy, s: Strategy)
    requires SortedByKey(collate, init + [last]) && s in init
    ensures collate(s.key, last.key) < 0
  {
    var i :| 0 <= i < |init| && init[i] == s;
    assert (init + [last])[i] == s && (init + [last])[|init|] == last;
  }

  lemma AppendSorted(collate: (string, string) -> int, sorted: seq<Strategy>, x: Strategy)
    requires SortedByKey(collate, sorted) && forall s :: s in sorted ==> collate(s.key, x.key) < 0
    ensures SortedByKey(collate, sorted + [x])
  {
    assert forall i :: 0 <= i < |sorted| ==> sorted[i] in sorted;
  }

  lemma {:induction false} InsertSorts(collate: (string, string) -> int, sorted: seq<Strategy>, x: Strategy)
    requires TotalOrder(collate) && SortedByKey(collate, sorted) && forall s :: s in sorted ==> s.key != x.key
    ensures SortedByKey(collate, Insert(collate, sorted, x))
    ensures forall s :: s in Insert(collate, sorted, x) <==> s in sorted || s == x
  {
    hide TotalOrder;
    if sorted != [] {
      var init, last := sorted[..|sorted| - 1], sorted[|sorted| - 1];
      assert sorted == init + [last];
      forall s | s in init ensures collate(s.key, last.key) < 0 {
        LastIsLargest(collate, init, last, s);
      }
      if collate(x.key, last.key) < 0 {
        InsertSorts(collate, init, x);
        AppendSorted(collate, Insert(collate, init, x), last);
      } else {
        Precedes(collate, x.key, last.key, last.key);
        forall s | s in sorted ensures collate(s.key, x.key) < 0 {
          Precedes(collate, s.key, last.key, x.key);
        }
        AppendSorted(collate, sorted, x);
      }
    }
  }

  lemma {:induction false} SortSorts(collate: (string, string) -> int, strategies: seq<Strategy>)
    requires TotalOrder(collate) && DistinctKeys(strategies)
    ensures SortedByKey(collate, SortByKey(collate, strategies))
    ensures forall s :: s in SortByKey(collate, strategies) <==> s in strategies
  {
    hide Insert;
    if strategies != [] {
      var init, last := strategies[..|strategies| - 1], strategies[|strategies| - 1];
      SortSorts(collate, init);
      InsertSorts(collate, SortByKey(collate, init), last);
      assert strategies == init + [last];
    }
  }

  lemma FirstIsSmallest(collate: (string, string) -> int, a: seq<Strategy>, s: Strategy)
    requires SortedByKey(collate, a) && s in a
    ensures s == a[0] || collate(a[0].key, s.key) < 0
  {
  }

  lemma TailMembers(collate: (string, string) -> int, a: seq<Strategy>, s: Strategy)
    requires TotalOrder(collate) && SortedByKey(collate, a) && |a| > 0
    ensures s in a[1..] <==> s in a && s != a[0]
  {
    hide TotalOrder;
    if s in a[1..] {
      var k :| 0 <= k < |a| - 1 && a[1..][k] == s;
      assert a[k + 1] == s && collate(a[0].key, a[k + 1].key) < 0;
      Precedes(collate, s.key, s.key, s.key);
    }
  }

  lemma FirstMember(a: seq<Strategy>)
    ensures |a| > 0 ==> a[0] in a
  {
  }

  lemma {:induction false} SortedIsUnique(collate: (string, string) -> int, a: seq<Strategy>, b: seq<Strategy>)
    requires TotalOrder(collate) && SortedByKey(collate, a) && SortedByKey(collate, b)
    requires forall s :: s in a <==> s in b
    ensures a == b
  {
    hide TotalOrder;
    FirstMember(a);
    FirstMember(b);
    if |a| > 0 && |b| > 0 {
      FirstIsSmallest(collate, b, a[0]);
      FirstIsSmallest(collate, a, b[0]);
      Precedes(collate, a[0].key, b[0].key, a[0].key);
      assert a[0] == b[0];
      forall s ensures s in a[1..] <==> s in b[1..] {
        TailMembers(collate, a, s);
        TailMembers(collate, b, s);
      }
      SortedIsUnique(collate, a[1..], b[1..]);
      assert a == [a[0]] + a[1..] && b == [b[0]] + b[1..];
    }
  }

  lemma SameLookup(a: seq<Strategy>, b: seq<Strategy>, key: string)
    requires DistinctKeys(a) && DistinctKeys(b) && forall s :: s in a <==> s in b
    ensures FindStrategy(a, key) == FindStrategy(b, key)
  {
    hide FindStrategy;
    var found := FindStrategy(a, key);
    if found.Some? {
      DistinctKeysFind(a, found.value);
      DistinctKeysFind(b, found.value);
    }
  }

  /** The order in which strategies with distinct keys are listed does not matter. */
  lemma StrategyOrderIrrelevant(rt: Runtime, input: Input, strategies: seq<Strategy>, ranked: seq<Candidate>)
    requires TotalOrder(rt.collate) && DistinctKeys(input.strategies) && DistinctKeys(strategies)
    requires forall s :: s in strategies <==> s in input.strategies
    ensures ValidInput(input) ==> Evaluate(rt, input) == Evaluate(rt, input.(strategies := strategies))
    ensures multiset(ranked) == multiset(if ValidInput(input) then Evaluate(rt, input) else []) ==>
      Decide(rt, input, ranked) == Decide(rt, input.(strategies := strategies), ranked)
  {
    hide Evaluate, Decide, FindStrategy, SortByKey;
    var other := input.(strategies := strategies);
    SortSorts(rt.collate, input.strategies);
    SortSorts(rt.collate, strategies);
    SortedIsUnique(rt.collate, SortByKey(rt.collate, input.strategies), SortByKey(rt.collate, strategies));
    forall key ensures FindStrategy(input.strategies, key) == FindStrategy(strategies, key) {
      SameLookup(input.strategies, strategies, key);
    }
    assert SameEvidence(rt, input, other);
    SameDecision(rt, input, other, ranked);
  }

  // ----- Reordering reserves -----

  lemma SameObservations(a: seq<Reserve>, b: seq<Reserve>)
    requires !HasDuplicates(a) && !HasDuplicates(b) && forall r :: r in a <==> r in b
    ensures Observations(a) == Observations(b)
  {
    forall id: string ensures id in Observations(a) <==> id in Observations(b) {
      ObservationsSound(a, id);
      ObservationsSound(b, id);
    }
    hide Observations;
    forall id | id in Observations(a) ensures Observations(a)[id] == Observations(b)[id] {
      ObservationsSound(a, id);
      ObservationsSound(b, id);
      var i :| 0 <= i < |a| && a[i] == Observations(a)[id];
      var j :| 0 <= j < |a| && a[j] == Observations(b)[id];
      assert i == j;
    }
  }

  /** The order in which reserves with distinct ids are listed does not matter. */
  lemma ReserveOrderIrrelevant(rt: Runtime, input: Input, reserves: seq<Reserve>, ranked: seq<Candidate>)
    requires !HasDuplicates(input.reserves) && !HasDuplicates(reserves)
    requires forall r :: r in reserves <==> r in input.reserves
    ensures ValidInput(input) ==> Evaluate(rt, input) == Evaluate(rt, input.(reserves := reserves))
    ensures multiset(ranked) == multiset(if ValidInput(input) then Evaluate(rt, input) else []) ==>
      Decide(rt, input, ranked) == Decide(rt, input.(reserves := reserves), ranked)
  {
    hide Evaluate, Decide, FindStrategy, SortByKey, Observations;
    var other := input.(reserves := reserves);
    SameObservations(input.reserves, reserves);
    SameDecision(rt, input, other, ranked);
  }

  // ----- No look-ahead -----

  lemma {:induction false} FiltersCommute(s: seq<NavPoint>, p: NavPoint -> bool, q: NavPoint -> bool)
    ensures Filter(Filter(s, p), q) == Filter(Filter(s, q), p)
  {
    if s != [] {
      FiltersCommute(s[..|s| - 1], p, q);
      FilterConcat(Filter(s[..|s| - 1], p), [s[|s| - 1]], q);
      FilterConcat(Filter(s[..|s| - 1], q), [s[|s| - 1]], p);
      FilterSingle(s[|s| - 1], p);
      FilterSingle(s[|s| - 1], q);
    }
  }

  /** The decision sees the NAV history only through the points inside the forecast window that ends at the decision
      time: points later than `asOf`, before the window or without a positive price may be added or removed anywhere. */
  lemma NoLookAhead(rt: Runtime, input: Input, history: seq<NavPoint>, ranked: seq<Candidate>)
    requires input.asOf.Some? ==>
      var test := WindowTest(input.asOf.value, input.policy.forecastWindowHours);
      Filter(history, test) == Filter(input.navHistory, test)
    ensures ValidInput(input) ==> Evaluate(rt, input) == Evaluate(rt, input.(navHistory := history))
    ensures multiset(ranked) == multiset(if ValidInput(input) then Evaluate(rt, input) else []) ==>
      Decide(rt, input, ranked) == Decide(rt, input.(navHistory := history), ranked)
  {
    hide Evaluate, Decide, FindStrategy, SortByKey, Observations, Filter;
    var other := input.(navHistory := history);
    if input.asOf.Some? {
      var test := WindowTest(input.asOf.value, input.policy.forecastWindowHours);
      forall r: Reserve ensures Forecast(rt, input, Some(r)) == Forecast(rt, other, Some(r)) {
        FiltersCommute(history, ReserveTest(r.reserve), test);
        FiltersCommute(input.navHistory, ReserveTest(r.reserve), test);
      }
    }
    SameDecision(rt, input, other, ranked);
  }

  /** In particular, a point from after the decision time has no influence wherever it is inserted. */
  lemma FuturePointIrrelevant(rt: Runtime, input: Input, before: seq<NavPoint>, point: NavPoint, after: seq<NavPoint>, ranked: seq<Candidate>)
    requires input.navHistory == before + after
    requires input.asOf.Some? && point.observedAt.Some? && point.observedAt.value > input.asOf.value
    ensures ValidInput(input) ==> Evaluate(rt, input) == Evaluate(rt, input.(navHistory := before + [point] + after))
    ensures multiset(ranked) == multiset(if ValidInput(input) then Evaluate(rt, input) else []) ==>
      Decide(rt, input, ranked) == Decide(rt, input.(navHistory := before + [point] + after), ranked)
  {
    hide Evaluate, Decide, Filter;
    var test := WindowTest(input.asOf.value, input.policy.forecastWindowHours);
    FilterConcat(before, after, test);
    FilterConcat(before + [point], after, test);
    FilterConcat(before, [point], test);
    FilterSingle(point, test);
    NoLookAhead(rt, input, before + [point] + after, ranked);
  }
}
