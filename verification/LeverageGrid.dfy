/** The leverage grid of the RWA decision engine: which leverages a target
    loan-to-value ratio (LTV) admits, and which LTV a leverage projects to.
    All quantities are in basis points; arithmetic is exact. */
module LeverageGrid {
  import opened Sets

  const DENOMINATOR := 10_000

  predicate IsInteger(x: real) {
    x == x.Floor as real
  }

  /** `Math.round`: halves round towards positive infinity. */
  function Round(x: real): int {
    (x + 0.5).Floor
  }

  function MaxLeverageBps(ltvBps: real): int {
    if !IsInteger(ltvBps) || ltvBps < 0.0 || ltvBps >= 10_000.0 then 0
    else (10_000.0 / (1.0 - ltvBps / 10_000.0)).Floor
  }

  function ProjectedLtvBps(leverageBps: int): int
    requires leverageBps > 0
  {
    Round((1.0 - 10_000.0 / leverageBps as real) * 10_000.0)
  }

  /** The specification of the grid: every step from `leverage` below `maximum`, then `maximum`. */
  function Steps(leverage: int, step: int, maximum: int): seq<int>
    requires step > 0
    decreases maximum - leverage
  {
    if leverage < maximum then [leverage] + Steps(leverage + step, step, maximum) else [maximum]
  }

  predicate GridExists(targetLtvBps: real, stepBps: real) {
    && IsInteger(targetLtvBps) && 0.0 <= targetLtvBps < 10_000.0
    && IsInteger(stepBps) && stepBps > 0.0
  }

  function Grid(targetLtvBps: real, stepBps: real): seq<int> {
    var maximum := MaxLeverageBps(targetLtvBps);
    if maximum < DENOMINATOR || !IsInteger(stepBps) || stepBps <= 0.0 then []
    else Steps(DENOMINATOR, stepBps.Floor, maximum)
  }

  predicate StrictlyIncreasing(s: seq<int>) {
    forall i, j :: 0 <= i < j < |s| ==> s[i] < s[j]
  }

  // ----- Rounding bounds -----

  lemma ScaleOrder(x: real, y: real, factor: real)
    requires factor > 0.0
    ensures x <= y <==> x * factor <= y * factor
  {
    if x <= y {
      assert (y - x) * factor >= 0.0;
    } else {
      assert (x - y) * factor > 0.0;
    }
  }

  /** A leverage is admitted by the integer target `t` exactly when it keeps the product bound. */
  lemma AdmittedExactly(t: int, leverage: int)
    requires 0 <= t < DENOMINATOR
    ensures leverage <= MaxLeverageBps(t as real) <==> leverage * (DENOMINATOR - t) <= 100_000_000
  {
    var d := 1.0 - t as real / 10_000.0;
    var l := leverage as real;
    assert d * 10_000.0 == (DENOMINATOR - t) as real;
    ScaleOrder(l, 10_000.0 / d, d);
    assert l * d * 10_000.0 == l * (d * 10_000.0) == (leverage * (DENOMINATOR - t)) as real;
  }

  /** Before rounding, a leverage projects to at most `t` exactly when it keeps the product bound. */
  lemma UnroundedProjection(leverage: int, t: int)
    requires leverage > 0
    ensures (1.0 - 10_000.0 / leverage as real) * 10_000.0 <= t as real <==> leverage * (DENOMINATOR - t) <= 100_000_000
  {
    var l, rest := leverage as real, (DENOMINATOR - t) as real;
    var q := 10_000.0 / l;
    assert (1.0 - q) * 10_000.0 == 10_000.0 - q * 10_000.0;
    ScaleOrder(rest, q * 10_000.0, l);
    assert q * 10_000.0 * l == q * l * 10_000.0 == 100_000_000.0;
    assert rest * l == (leverage * (DENOMINATOR - t)) as real;
  }

  lemma ProjectedMonotone(low: int, high: int)
    requires 0 < low <= high
    ensures ProjectedLtvBps(low) <= ProjectedLtvBps(high)
  {
    var a, b := 10_000.0 / low as real, 10_000.0 / high as real;
    ScaleOrder(b, a, high as real);
    assert a * (high - low) as real >= 0.0;
    assert a * high as real == a * low as real + a * (high - low) as real;
  }

  lemma ProjectedUnlevered()
    ensures ProjectedLtvBps(DENOMINATOR) == 0
  {
    assert 10_000.0 / (DENOMINATOR as real) == 1.0;
  }

  /** The largest admitted leverage loses at most one basis point to the two roundings. */
  lemma MaximumIsTight(t: int)
    requires 0 <= t < DENOMINATOR
    ensures DENOMINATOR <= MaxLeverageBps(t as real)
    ensures t - 1 <= ProjectedLtvBps(MaxLeverageBps(t as real)) <= t
  {
    var m := MaxLeverageBps(t as real);
    AdmittedExactly(t, DENOMINATOR);
    AdmittedExactly(t, m);
    AdmittedExactly(t, m + 1);
    UnroundedProjection(m, t);
    var d := DENOMINATOR - t;
    assert (m + 1) * d > 100_000_000;
    assert (m + 1) * d == m * d + d && m * (d + 1) == m * d + m;
    assert m >= DENOMINATOR >= d;
    UnroundedProjection(m, t - 1);
  }

  // ----- The grid -----

  ghost predicate Shape(g: seq<int>, low: int, step: int, maximum: int) {
    && |g| > 0 && g[0] == low && g[|g| - 1] == maximum
    && StrictlyIncreasing(g)
    && (forall i :: 0 <= i < |g| - 1 ==> g[i + 1] - g[i] <= step)
    && (forall x :: x in g ==> low <= x <= maximum)
  }

  lemma ConsKeepsShape(low: int, rest: seq<int>, step: int, maximum: int)
    requires step > 0 && Shape(rest, low + step, step, maximum)
    ensures Shape([low] + rest, low, step, maximum)
  {
    var g := [low] + rest;
    forall i, j | 0 <= i < j < |g| ensures g[i] < g[j] {
      assert g[j] == rest[j - 1] && rest[j - 1] in rest;
    }
  }

  lemma {:induction false} StepsProperties(leverage: int, step: int, maximum: int)
    requires step > 0 && leverage <= maximum
    ensures Shape(Steps(leverage, step, maximum), leverage, step, maximum)
    decreases maximum - leverage
  {
    if leverage < maximum {
      var next := leverage + step;
      if next <= maximum {
        StepsProperties(next, step, maximum);
        ConsKeepsShape(leverage, Steps(next, step, maximum), step, maximum);
      }
    }
  }

  /** The grid is there exactly for an integer target below 100% and a positive integer step. It then climbs
      strictly from no leverage to the maximum in gaps of at most one step, no entry projects above the
      target, and the last one projects to within a basis point of it. */
  lemma GridTheorem(targetLtvBps: real, stepBps: real)
    ensures Grid(targetLtvBps, stepBps) != [] <==> GridExists(targetLtvBps, stepBps)
    ensures var g := Grid(targetLtvBps, stepBps); g != [] ==>
      && g[0] == DENOMINATOR && g[|g| - 1] == MaxLeverageBps(targetLtvBps)
      && StrictlyIncreasing(g)
      && (forall i :: 0 <= i < |g| - 1 ==> (g[i + 1] - g[i]) as real <= stepBps)
      && (forall x :: x in g ==> x >= DENOMINATOR && ProjectedLtvBps(x) as real <= targetLtvBps)
      && ProjectedLtvBps(g[|g| - 1]) as real >= targetLtvBps - 1.0
  {
    if GridExists(targetLtvBps, stepBps) {
      var t := targetLtvBps.Floor;
      MaximumIsTight(t);
      var m := MaxLeverageBps(targetLtvBps);
      StepsProperties(DENOMINATOR, stepBps.Floor, m);
      forall x | x in Grid(targetLtvBps, stepBps) ensures ProjectedLtvBps(x) as real <= targetLtvBps {
        ProjectedMonotone(x, m);
      }
    }
  }

  // ----- The imperative construction -----

  lemma FirstIsMember(s: seq<int>)
    ensures |s| > 0 ==> s[0] in s
  {
  }

  lemma {:induction false} SortedSetIsUnique(a: seq<int>, b: seq<int>)
    requires StrictlyIncreasing(a) && StrictlyIncreasing(b)
    requires forall x :: x in a <==> x in b
    ensures a == b
  {
    if |a| > 0 && |b| > 0 {
      assert a[0] in b && b[0] in a;
      assert a[0] == b[0];
      forall x ensures x in a[1..] <==> x in b[1..] {
        if x in a[1..] { assert x in a && x != a[0]; }
        if x in b[1..] { assert x in b && x != b[0]; }
      }
      SortedSetIsUnique(a[1..], b[1..]);
      assert a == [a[0]] + a[1..] && b == [b[0]] + b[1..];
    } else {
      FirstIsMember(a);
      FirstIsMember(b);
    }
  }

  method Least(values: set<int>) returns (least: int)
    requires |values| > 0
    ensures least in values && forall y :: y in values ==> least <= y
  {
    ghost var someValue := SomeElement(values);
    least :| least in values;
    var others := values - {least};
    while |others| > 0
      invariant others <= values && least in values
      invariant forall y :: y in values && y !in others ==> least <= y
      decreases |others|
    {
      ghost var someOther := SomeElement(others);
      var y :| y in others;
      if y < least { least := y; }
      others := others - {y};
    }
  }

  /** Ascending sort of a set of numbers. */
  method SortAscending(values: set<int>) returns (sorted: seq<int>)
    ensures StrictlyIncreasing(sorted)
    ensures forall x :: x in sorted <==> x in values
  {
    var rest := values;
    sorted := [];
    while |rest| > 0
      invariant rest <= values
      invariant forall x :: x in values <==> x in sorted || x in rest
      invariant forall i, y :: 0 <= i < |sorted| && y in rest ==> sorted[i] < y
      invariant StrictlyIncreasing(sorted)
      decreases |rest|
    {
      var least := Least(rest);
      sorted := sorted + [least];
      rest := rest - {least};
    }
  }

  lemma StepsUnfold(leverage: int, step: int, maximum: int)
    requires step > 0
    ensures leverage < maximum ==> forall x :: x in Steps(leverage, step, maximum) <==> x == leverage || x in Steps(leverage + step, step, maximum)
    ensures leverage >= maximum ==> Steps(leverage, step, maximum) == [maximum]
  {
  }

  /** The steps collected in a set, as the source collects them. */
  method CollectSteps(step: int, maximum: int) returns (values: set<int>)
    requires step > 0 && maximum >= DENOMINATOR
    ensures forall x :: x in values <==> x in Steps(DENOMINATOR, step, maximum)
  {
    hide Steps;
    values := {DENOMINATOR, maximum};
    var leverage := DENOMINATOR + step;
    StepsProperties(DENOMINATOR, step, maximum);
    StepsUnfold(DENOMINATOR, step, maximum);
    StepsUnfold(leverage, step, maximum);
    while leverage < maximum
      invariant maximum in values
      invariant forall x :: x in Steps(DENOMINATOR, step, maximum) <==> x in values || x in Steps(leverage, step, maximum)
      decreases maximum - leverage
    {
      StepsUnfold(leverage, step, maximum);
      values := values + {leverage};
      leverage := leverage + step;
    }
    StepsUnfold(leverage, step, maximum);
  }

  method BuildLeverageGrid(targetLtvBps: real, stepBps: real) returns (grid: seq<int>)
    ensures grid == Grid(targetLtvBps, stepBps)
  {
    hide Steps, MaxLeverageBps;
    var maximum := MaxLeverageBps(targetLtvBps);
    if maximum < DENOMINATOR || !IsInteger(stepBps) || stepBps <= 0.0 {
      return [];
    }
    var values := CollectSteps(stepBps.Floor, maximum);
    StepsProperties(DENOMINATOR, stepBps.Floor, maximum);
    grid := SortAscending(values);
    SortedSetIsUnique(grid, Grid(targetLtvBps, stepBps));
  }
}
