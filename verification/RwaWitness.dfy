/** One concrete market on which the engine opens a position that its next decision winds down for risk. */
module RwaWitness {
  import opened Wrappers
  import opened RwaTypes
  import opened LeverageGrid
  import opened RwaEvaluate
  import opened RwaDecide
  import opened RwaTheorems
  import opened RwaRuns
  import opened Seqs

  const NOW := 10_000_000
  const RUNTIME := Runtime((a, b) => 0, (x, y) => Some(1.0))
  const LIMIT := Some(1_000_000.0)
  const ZERO := Some(0.0)

  /** A liquidation threshold of 60%. */
  function Collateral(): Reserve {
    Reserve("C", Some(NOW), "c", LiveV2, true, Some(false), Some(1.0), ZERO, ZERO, LIMIT, ZERO, ZERO, LIMIT, LIMIT, LIMIT, ZERO, LIMIT, Some(6_000.0))
  }

  function Debt(): Reserve {
    Reserve("D", Some(NOW), "d", LiveV2, true, Some(false), Some(1.0), ZERO, Some(0.05), LIMIT, ZERO, ZERO, LIMIT, LIMIT, LIMIT, ZERO, LIMIT, None)
  }

  function Looped(): Strategy {
    Strategy("k", "C", "D", 5_000.0)
  }

  function History(): seq<NavPoint> {
    [NavPoint("C", Some(NOW - 7_200_000), Some(1.0)), NavPoint("C", Some(NOW), Some(1.0))]
  }

  /** A free quote for 2x, and for nothing else. */
  function FreeQuote(): Quote {
    Quote(CandidateId("k", 20_000), None, Some(1_000.0), Some(NOW), true, ZERO, ZERO, ZERO, ZERO, ZERO)
  }

  /** A buffer of 10%, so that the safety limit is the policy target of 50%. */
  function Rules(): Policy {
    Policy(60.0, 60.0, 24.0, 1.0, HOURS_PER_YEAR, 10_000.0, 1_000.0, 0.0, 0.0, 0.0, 0.1, 0.1)
  }

  function Flat(): Input {
    Input(Live, Some(NOW), Some(1_000.0), [Looped()], [Collateral(), Debt()], History(), None, [FreeQuote()], ZERO, Rules())
  }

  /** The same market once the position is open, measured at its projection. */
  function Held(): Input {
    Flat().(currentPosition := Some(Position("k", 20_000, 5_000.0, Some(NOW))))
  }

  lemma BothObserved()
    ensures Lookup(Observations(Flat().reserves), "C") == Some(Collateral())
    ensures Lookup(Observations(Flat().reserves), "D") == Some(Debt())
    ensures !HasDuplicates(Flat().reserves)
  {
    var reserves := Flat().reserves;
    assert reserves[..1] == [Collateral()] && [Collateral()][..0] == [];
  }

  lemma BothKept(a: NavPoint, b: NavPoint, test: NavPoint -> bool)
    requires test(a) && test(b)
    ensures Filter([a, b], test) == [a, b]
  {
    hide Filter;
    FilterConcat([a], [b], test);
    FilterSingle(a, test);
    FilterSingle(b, test);
    assert [a] + [b] == [a, b];
  }

  lemma ForecastIsFlat()
    ensures Forecast(RUNTIME, Flat(), Some(Collateral())) == Some(0.1)
  {
    hide Filter, Earliest, Latest;
    var first, last := History()[0], History()[1];
    BothKept(first, last, ReserveTest("C"));
    BothKept(first, last, WindowTest(NOW, 24.0));
    EndsOfTwo(first, last);
    assert 7_200_000 as real / 3_600_000.0 == 2.0;
  }

  lemma EndsOfTwo(first: NavPoint, last: NavPoint)
    requires first.observedAt.Some? && last.observedAt.Some? && first.observedAt.value < last.observedAt.value
    ensures Earliest([first, last]) == first && Latest([first, last]) == last
  {
    assert [first, last][..1] == [first];
  }

  lemma TwoLeverages()
    ensures Leverages(Flat(), Looped(), Some(Collateral())) == [10_000, 20_000]
    ensures ProjectedLtvBps(20_000) == 5_000
  {
    AdmittedExactly(5_000, 20_000);
    AdmittedExactly(5_000, 20_001);
    assert MaxLeverageBps(5_000.0) == 20_000;
    assert Steps(20_000, 10_000, 20_000) == [20_000];
    assert 10_000.0 / (20_000 as real) == 0.5;
  }

  lemma ClearAtTwo()
    ensures CandidateReasons(Flat(), Looped(), Collateral(), Debt(), 0.1, 20_000) == {}
  {
    hide FindQuote, CapacityFor, QuoteReasons, SideReasons, HasDuplicates, ProjectedLtvBps, CandidateId;
    BothObserved();
    TwoLeverages();
    SidesAreClean();
    RoomAtTwo();
    QuotedAtTwo();
    NoReasons(Flat(), Looped(), Collateral(), Debt(), 0.1, 20_000);
  }

  lemma SidesAreClean()
    ensures SideReasons(Some(Collateral()), Flat(), CollateralInactive, CollateralRiskObservationMissing, CollateralEmergency) == {}
    ensures SideReasons(Some(Debt()), Flat(), DebtInactive, DebtRiskObservationMissing, DebtEmergency) == {}
  {
  }

  lemma OneMoreHeadroom(headroom: Option<real>, rest: seq<Option<real>>)
    requires NonNegative(headroom)
    ensures LowestHeadroom([headroom] + rest) == Lower(Finite(headroom.value), LowestHeadroom(rest))
  {
    assert ([headroom] + rest)[1..] == rest;
  }

  lemma RoomAtTwo()
    ensures CapacityFor(Flat(), Collateral(), Debt(), 20_000).reason.None?
  {
    hide LowestHeadroom;
    var one, two := [LIMIT] + [], [LIMIT] + ([LIMIT] + []);
    assert LowestHeadroom([]) == Infinite by { NoHeadroom(); }
    OneMoreHeadroom(LIMIT, []);
    OneMoreHeadroom(LIMIT, one);
    OneMoreHeadroom(LIMIT, two);
    OneMoreHeadroom(LIMIT, [LIMIT] + two);
    assert DebtHeadrooms(Debt()) == [LIMIT] + ([LIMIT] + two);
  }

  lemma NoHeadroom()
    ensures LowestHeadroom([]) == Infinite
  {
  }

  lemma QuotedAtTwo()
    ensures FindQuote(Flat().costQuotes, CandidateId("k", 20_000), Flat()) == Some(FreeQuote())
    ensures QuoteReasons(Some(FreeQuote()), Flat()) == {} && QuoteTotal(FreeQuote()) == ZERO
  {
    hide CandidateId;
  }

  lemma NotQuotedAtOne()
    ensures CandidateReasons(Flat(), Looped(), Collateral(), Debt(), 0.1, 10_000) != {}
  {
    hide CandidateId, ProjectedLtvBps, CapacityFor, SideReasons;
    if CandidateId("k", 10_000) == CandidateId("k", 20_000) { CandidateIdInjective("k", 10_000, "k", 20_000); }
    assert Flat().costQuotes[1..] == [];
    assert FindQuote(Flat().costQuotes, CandidateId("k", 10_000), Flat()) == None;
    assert QuoteMissing in CandidateReasons(Flat(), Looped(), Collateral(), Debt(), 0.1, 10_000);
  }

  /** Only 2x can be entered. */
  lemma TwoCandidates()
    ensures Evaluate(RUNTIME, Flat()) == [EvaluateOne(RUNTIME, Flat(), Looped(), 10_000), EvaluateOne(RUNTIME, Flat(), Looped(), 20_000)]
    ensures !EvaluateOne(RUNTIME, Flat(), Looped(), 10_000).eligible
    ensures var c := EvaluateOne(RUNTIME, Flat(), Looped(), 20_000);
      && c.eligible && c.strategyKey == "k" && c.leverageBps == 20_000 && c.projectedLtvBps == 5_000 && c.expectedNetUsd == Some(150.0)
  {
    hide CandidateReasons, Forecast, Leverages, Observations, ProjectedLtvBps, CandidateId, FindQuote, CapacityFor, QuoteTotal;
    BothObserved();
    ForecastIsFlat();
    TwoLeverages();
    ClearAtTwo();
    NotQuotedAtOne();
    QuotedAtTwo();
    OneStrategy();
    NetIs150();
  }

  lemma OneStrategy()
    ensures Evaluate(RUNTIME, Flat()) == EvaluateStrategy(RUNTIME, Flat(), Looped())
  {
    hide EvaluateStrategy;
    var s := [Looped()];
    assert s[..0] == [] && SortByKey(RUNTIME.collate, s) == s && EvaluateStrategies(RUNTIME, Flat(), []) == [];
  }

  lemma NetIs150()
    ensures GrossUsd(1_000.0, GrossApy(Collateral(), Debt(), 0.1, 20_000), HOURS_PER_YEAR) - 0.0 == 150.0
  {
    assert 20_000 as real / 10_000.0 == 2.0;
    assert GrossApy(Collateral(), Debt(), 0.1, 20_000) == 0.15;
  }

  /** However the candidates are ranked, the engine opens 2x; and however they are ranked then, its next decision on the same
      market winds the position down for risk. */
  lemma OpenedThenWoundDown(ranked: seq<Candidate>, next: seq<Candidate>)
    requires multiset(ranked) == multiset(Evaluate(RUNTIME, Flat())) && multiset(next) == multiset(Evaluate(RUNTIME, Held()))
    ensures var d := Decide(RUNTIME, Flat(), ranked);
      && d.action.Open? && d.chosen.Some? && d.chosen.value.strategyKey == "k" && d.chosen.value.leverageBps == 20_000
      && d.chosen.value.projectedLtvBps as real == Held().currentPosition.value.currentLtvBps
    ensures RiskExit(Decide(RUNTIME, Held(), next))
  {
    hide Evaluate, EvaluateOne, MarketsJudged, SafetyLtv;
    TwoCandidates();
    MultisetMembers(ranked, Evaluate(RUNTIME, Flat()));
    var all, c := Evaluate(RUNTIME, Flat()), EvaluateOne(RUNTIME, Flat(), Looped(), 20_000);
    assert all[1] == c && c in all && c in ranked;
    var eligible := EligibleOf(ranked);
    assert c in eligible && eligible[0] in eligible;
    var s, collateral := MoveUndoneExactly(RUNTIME, Flat(), c, Held(), next);
    StillJudged();
    assert FindStrategy(Flat().strategies, "k") == Some(Looped());
    BothObserved();
  }

  lemma StillJudged()
    ensures MarketsJudged(Held(), Looped()) && SafetyLtv(Flat(), Some(Collateral())) == 5_000.0
  {
    BothObserved();
  }
}
