/** Which rows belong to which cohort of the idle-funds report, and what the cohorts of a mint add up to. */
module IdleCohorts {
  import opened Wrappers
  import opened IdleRows

  datatype Cohort = Cohort(count: int, amountRaw: int)

  const EMPTY := Cohort(0, 0)

  function Plus(a: Cohort, b: Cohort): Cohort {
    Cohort(a.count + b.count, a.amountRaw + b.amountRaw)
  }

  function Add(cohort: Cohort, amountRaw: int): Cohort {
    Cohort(cohort.count + 1, cohort.amountRaw + amountRaw)
  }

  // ----- Buckets and freshness bands -----

  datatype AmountBucket = AmountBucket(tag: string, maxExclusive: Option<int>)

  const AMOUNT_BUCKETS := [
    AmountBucket("0-0.000010", Some(11)),
    AmountBucket("0.000011-0.001000", Some(1_001)),
    AmountBucket("0.001001-0.009999", Some(10_000)),
    AmountBucket("0.010000-0.099999", Some(100_000)),
    AmountBucket("0.100000-0.999999", Some(1_000_000)),
    AmountBucket("1.000000-9.999999", Some(10_000_000)),
    AmountBucket("10.000000-99.999999", Some(100_000_000)),
    AmountBucket("100+", None)]

  /** The first bucket whose bound the amount stays below. */
  function BucketFrom(amountRaw: int, k: nat): string
    requires k <= 8
    decreases 8 - k
  {
    if k == 8 then "unknown"
    else if AMOUNT_BUCKETS[k].maxExclusive.None? || amountRaw < AMOUNT_BUCKETS[k].maxExclusive.value then AMOUNT_BUCKETS[k].tag
    else BucketFrom(amountRaw, k + 1)
  }

  function BucketFor(amountRaw: int): string {
    BucketFrom(amountRaw, 0)
  }

  const BANDS := ["0-5m", "5m-1h", "1h-24h", "24h+"]

  /** When the report is made, and how it reads dates; `None` stands for `NaN`. */
  datatype Clock = Clock(generatedAt: int, parse: string -> Option<int>)

  /** Every comparison with `NaN` fails, so an unreadable date falls into the last band. */
  function FreshnessFor(observedAt: string, clock: Clock): string {
    var parsed := clock.parse(observedAt);
    if parsed.None? then "24h+"
    else
      var age := if clock.generatedAt - parsed.value > 0 then clock.generatedAt - parsed.value else 0;
      if age <= 5 * 60_000 then "0-5m"
      else if age <= 60 * 60_000 then "5m-1h"
      else if age <= 24 * 60 * 60_000 then "1h-24h"
      else "24h+"
  }

  // ----- Cohorts -----

  datatype Source = Neon | Chain

  /** The cohorts of a mint, each with the rows it takes and the amount it takes of a row. */
  datatype Pick =
    | AllNeon | AllChain
    | Positive(on: Source)
    | Managed(on: Source, yes: bool)
    | Positions(on: Source, yes: bool)
    | Autodeposit(on: Source, yes: bool)
    | Failures(on: Source, yes: bool)
    | Bucket(on: Source, tag: string)
    | Freshness(tag: string)
    | Commitment(tag: string)
    | Exact | Mismatch | Above | Below | NeonZero | ChainZero
    | NeonOfChain
    | Status(tag: string)

  function AmountOn(on: Source, row: Row): Option<int> {
    if on.Neon? then Some(row.neonAmountRaw) else row.chainAmountRaw
  }

  function When(condition: bool, amount: int): Option<int> {
    if condition then Some(amount) else None
  }

  function WhenPositive(on: Source, row: Row, condition: bool): Option<int> {
    var amount := AmountOn(on, row);
    if amount.Some? && amount.value > 0 && condition then amount else None
  }

  function StatusOf(row: Row): string {
    if row.chainStatus.Some? then row.chainStatus.value else "unknown"
  }

  function Taken(pick: Pick, row: Row, clock: Clock): Option<int> {
    match pick
    case AllNeon => Some(row.neonAmountRaw)
    case AllChain => row.chainAmountRaw
    case Positive(on) => WhenPositive(on, row, true)
    case Managed(on, yes) => WhenPositive(on, row, row.managedVaultActive == yes)
    case Positions(on, yes) => WhenPositive(on, row, (row.activePositionCount > 0) == yes)
    case Autodeposit(on, yes) => WhenPositive(on, row, (row.activeAutodepositTargetCount > 0) == yes)
    case Failures(on, yes) => WhenPositive(on, row, (row.topUpFailureCount > 0) == yes)
    case Bucket(on, tag) => WhenPositive(on, row, AmountOn(on, row).Some? && BucketFor(AmountOn(on, row).value) == tag)
    case Freshness(tag) => WhenPositive(Neon, row, FreshnessFor(row.observedAt, clock) == tag)
    case Commitment(tag) => When(row.sourceCommitment == tag, row.neonAmountRaw)
    case _ =>
      if row.chainAmountRaw.None? then None
      else
        var neon, chain := row.neonAmountRaw, row.chainAmountRaw.value;
        match pick
        case Exact => When(chain == neon, 0)
        case Mismatch => When(chain != neon, chain - neon)
        case Above => When(chain > neon, chain - neon)
        case Below => When(chain < neon, neon - chain)
        case NeonZero => When(neon == 0 && chain > 0, chain)
        case ChainZero => When(neon > 0 && chain == 0, neon)
        case Status(tag) => When(StatusOf(row) == tag, 0)
        case _ => Some(neon)
  }

  function Share(pick: Pick, row: Row, clock: Clock): Cohort {
    var taken := Taken(pick, row, clock);
    if taken.None? then EMPTY else Cohort(1, taken.value)
  }

  /** The cohort of a mint, counted over all rows. */
  function Tally(rows: seq<Row>, mint: string, pick: Pick, clock: Clock): Cohort {
    if rows == [] then EMPTY
    else
      var last := rows[|rows| - 1];
      Plus(Tally(rows[..|rows| - 1], mint, pick, clock), if last.mint == mint then Share(pick, last, clock) else EMPTY)
  }

  lemma TallyShare(rows: seq<Row>, row: Row, mint: string, pick: Pick, clock: Clock)
    ensures Tally(rows + [row], mint, pick, clock)
         == Plus(Tally(rows, mint, pick, clock), if row.mint == mint then Share(pick, row, clock) else EMPTY)
  {
    hide Share;
    assert (rows + [row])[..|rows|] == rows;
  }

  lemma TallyStep(rows: seq<Row>, row: Row, mint: string, pick: Pick, clock: Clock)
    ensures Tally(rows + [row], mint, pick, clock) ==
      if row.mint == mint && Taken(pick, row, clock).Some? then Add(Tally(rows, mint, pick, clock), Taken(pick, row, clock).value)
      else Tally(rows, mint, pick, clock)
  {
    hide Taken;
    assert (rows + [row])[..|rows|] == rows;
  }

  // ----- Cohorts that share out another one -----

  /** What the first n picks take of a row together. */
  function ShareAll(picks: seq<Pick>, n: nat, row: Row, clock: Clock): Cohort
    requires n <= |picks|
    decreases n
  {
    if n == 0 then EMPTY else Plus(ShareAll(picks, n - 1, row, clock), Share(picks[n - 1], row, clock))
  }

  function TallyAll(rows: seq<Row>, mint: string, picks: seq<Pick>, n: nat, clock: Clock): Cohort
    requires n <= |picks|
    decreases n
  {
    if n == 0 then EMPTY else Plus(TallyAll(rows, mint, picks, n - 1, clock), Tally(rows, mint, picks[n - 1], clock))
  }

  lemma {:induction false} TallyAllStep(rows: seq<Row>, row: Row, mint: string, picks: seq<Pick>, n: nat, clock: Clock)
    requires n <= |picks|
    ensures TallyAll(rows + [row], mint, picks, n, clock)
         == Plus(TallyAll(rows, mint, picks, n, clock), if row.mint == mint then ShareAll(picks, n, row, clock) else EMPTY)
    decreases n
  {
    hide Share, Tally, Plus;
    if n > 0 {
      var pick, own := picks[n - 1], row.mint == mint;
      TallyAllStep(rows, row, mint, picks, n - 1, clock);
      TallyShare(rows, row, mint, pick, clock);
      Interchange(TallyAll(rows, mint, picks, n - 1, clock), if own then ShareAll(picks, n - 1, row, clock) else EMPTY,
                  Tally(rows, mint, pick, clock), if own then Share(pick, row, clock) else EMPTY);
    }
    PlusEmpty();
  }

  lemma Interchange(a: Cohort, x: Cohort, b: Cohort, y: Cohort)
    ensures Plus(Plus(a, x), Plus(b, y)) == Plus(Plus(a, b), Plus(x, y))
  {
  }

  lemma PlusUnit(a: Cohort)
    ensures Plus(a, EMPTY) == a && Plus(EMPTY, a) == a
  {
  }

  lemma PlusEmpty()
    ensures Plus(EMPTY, EMPTY) == EMPTY
  {
  }

  lemma {:induction false} NoRows(mint: string, picks: seq<Pick>, n: nat, clock: Clock)
    requires n <= |picks|
    ensures TallyAll([], mint, picks, n, clock) == EMPTY
  {
    if n > 0 {
      NoRows(mint, picks, n - 1, clock);
    }
  }

  /** Each row gives the parts together what it gives the whole. */
  ghost predicate SharesOut(whole: Pick, parts: seq<Pick>, clock: Clock) {
    forall row :: ShareAll(parts, |parts|, row, clock) == Share(whole, row, clock)
  }

  /** Then so do all rows of a mint, in number and in amount. */
  lemma {:induction false} PartsAddUp(rows: seq<Row>, mint: string, whole: Pick, parts: seq<Pick>, clock: Clock)
    requires SharesOut(whole, parts, clock)
    ensures TallyAll(rows, mint, parts, |parts|, clock) == Tally(rows, mint, whole, clock)
    decreases |rows|
  {
    hide Taken, ShareAll, Share, TallyAll;
    if rows == [] {
      NoRows(mint, parts, |parts|, clock);
    } else {
      var init, last := rows[..|rows| - 1], rows[|rows| - 1];
      PartsAddUp(init, mint, whole, parts, clock);
      TallyAllStep(init, last, mint, parts, |parts|, clock);
      assert rows == init + [last];
    }
  }

  /** The four questions the report asks of a row that holds something. */
  predicate Halves(on: Source, yes: Pick, no: Pick) {
    || (yes == Managed(on, true) && no == Managed(on, false))
    || (yes == Positions(on, true) && no == Positions(on, false))
    || (yes == Autodeposit(on, true) && no == Autodeposit(on, false))
    || (yes == Failures(on, true) && no == Failures(on, false))
  }

  lemma HalvesShare(on: Source, yes: Pick, no: Pick, row: Row, clock: Clock)
    requires Halves(on, yes, no)
    ensures Plus(Share(yes, row, clock), Share(no, row, clock)) == Share(Positive(on), row, clock)
  {
    hide BucketFor, FreshnessFor;
  }

  lemma HalvesAddUp(rows: seq<Row>, mint: string, on: Source, yes: Pick, no: Pick, clock: Clock)
    requires Halves(on, yes, no)
    ensures Plus(Tally(rows, mint, yes, clock), Tally(rows, mint, no, clock)) == Tally(rows, mint, Positive(on), clock)
  {
    hide Tally, TallyAll, Share, ShareAll, Plus, Halves;
    forall row ensures ShareAll([yes, no], 2, row, clock) == Share(Positive(on), row, clock) {
      TwoShares(yes, no, row, clock);
      HalvesShare(on, yes, no, row, clock);
    }
    PartsAddUp(rows, mint, Positive(on), [yes, no], clock);
    TwoTallies(rows, mint, yes, no, clock);
  }

  lemma TwoShares(a: Pick, b: Pick, row: Row, clock: Clock)
    ensures ShareAll([a, b], 2, row, clock) == Plus(Share(a, row, clock), Share(b, row, clock))
  {
    hide Share, Plus;
    assert ShareAll([a, b], 1, row, clock) == Plus(EMPTY, Share(a, row, clock));
    PlusUnit(Share(a, row, clock));
  }

  lemma TwoTallies(rows: seq<Row>, mint: string, a: Pick, b: Pick, clock: Clock)
    ensures TallyAll(rows, mint, [a, b], 2, clock) == Plus(Tally(rows, mint, a, clock), Tally(rows, mint, b, clock))
  {
    hide Tally, Plus;
    assert TallyAll(rows, mint, [a, b], 1, clock) == Plus(EMPTY, Tally(rows, mint, a, clock));
    PlusUnit(Tally(rows, mint, a, clock));
  }

  function BucketPicks(on: Source): seq<Pick> {
    seq(8, i requires 0 <= i < 8 => Bucket(on, AMOUNT_BUCKETS[i].tag))
  }

  function BandPicks(): seq<Pick> {
    seq(4, i requires 0 <= i < 4 => Freshness(BANDS[i]))
  }

  /** One pick of a list takes the row, the others take nothing. */
  lemma {:induction false} OneTakes(picks: seq<Pick>, n: nat, k: int, row: Row, clock: Clock)
    requires n <= |picks| && forall i :: 0 <= i < n && i != k ==> Share(picks[i], row, clock) == EMPTY
    ensures ShareAll(picks, n, row, clock) == if 0 <= k < n then Share(picks[k], row, clock) else EMPTY
    decreases n
  {
    hide Share, Plus;
    if n > 0 {
      OneTakes(picks, n - 1, k, row, clock);
      PlusUnit(ShareAll(picks, n - 1, row, clock));
      PlusUnit(Share(picks[n - 1], row, clock));
    }
  }

  /** Every amount falls into one bucket, and the buckets have different tags. */
  lemma BucketIndex(amount: int) returns (k: nat)
    ensures k < 8 && BucketFor(amount) == AMOUNT_BUCKETS[k].tag
    ensures k < 7 ==> amount < AMOUNT_BUCKETS[k].maxExclusive.value
    ensures k > 0 ==> amount >= AMOUNT_BUCKETS[k - 1].maxExclusive.value
    ensures forall i :: 0 <= i < 8 && i != k ==> AMOUNT_BUCKETS[i].tag != AMOUNT_BUCKETS[k].tag
  {
    k := 0;
    while k < 7 && amount >= AMOUNT_BUCKETS[k].maxExclusive.value
      invariant k <= 7 && BucketFor(amount) == BucketFrom(amount, k)
      invariant k > 0 ==> amount >= AMOUNT_BUCKETS[k - 1].maxExclusive.value
    {
      k := k + 1;
    }
    BucketTags(k);
  }

  lemma BucketTags(k: nat)
    requires k < 8
    ensures forall i :: 0 <= i < 8 && i != k ==> AMOUNT_BUCKETS[i].tag != AMOUNT_BUCKETS[k].tag
  {
  }

  lemma BucketsShare(on: Source, row: Row, clock: Clock)
    ensures ShareAll(BucketPicks(on), 8, row, clock) == Share(Positive(on), row, clock)
  {
    hide BucketFor, FreshnessFor, ShareAll;
    var amount := AmountOn(on, row);
    var k := BucketIndex(if amount.Some? then amount.value else 0);
    OneTakes(BucketPicks(on), 8, k, row, clock);
  }

  /** The eight amount buckets share out what is held. */
  lemma BucketsAddUp(rows: seq<Row>, mint: string, on: Source, clock: Clock)
    ensures TallyAll(rows, mint, BucketPicks(on), 8, clock) == Tally(rows, mint, Positive(on), clock)
  {
    hide Tally, TallyAll, Share, ShareAll;
    forall row ensures ShareAll(BucketPicks(on), 8, row, clock) == Share(Positive(on), row, clock) {
      BucketsShare(on, row, clock);
    }
    PartsAddUp(rows, mint, Positive(on), BucketPicks(on), clock);
  }

  lemma BandIndex(observedAt: string, clock: Clock) returns (k: nat)
    ensures k < 4 && FreshnessFor(observedAt, clock) == BANDS[k]
    ensures forall i :: 0 <= i < 4 && i != k ==> BANDS[i] != BANDS[k]
  {
    var band := FreshnessFor(observedAt, clock);
    k := if band == BANDS[0] then 0 else if band == BANDS[1] then 1 else if band == BANDS[2] then 2 else 3;
    BandsDiffer(k);
  }

  lemma BandsDiffer(k: nat)
    requires k < 4
    ensures forall i :: 0 <= i < 4 && i != k ==> BANDS[i] != BANDS[k]
  {
    assert |BANDS[0]| == 4 && |BANDS[1]| == 5 && |BANDS[2]| == 6 && |BANDS[3]| == 4 && BANDS[3][0] == '2';
  }

  /** The four freshness bands share out what Neon holds, unreadable dates included. */
  lemma BandsAddUp(rows: seq<Row>, mint: string, clock: Clock)
    ensures TallyAll(rows, mint, BandPicks(), 4, clock) == Tally(rows, mint, Positive(Neon), clock)
  {
    hide Tally, TallyAll, ShareAll, FreshnessFor, BucketFor;
    forall row ensures ShareAll(BandPicks(), 4, row, clock) == Share(Positive(Neon), row, clock) {
      var k := BandIndex(row.observedAt, clock);
      OneTakes(BandPicks(), 4, k, row, clock);
    }
    PartsAddUp(rows, mint, Positive(Neon), BandPicks(), clock);
  }

  // ----- Neon against the chain -----

  /** What the chain holds beyond Neon is what mismatches say, and what the rows above and below say. */
  lemma {:induction false} DifferencesAgree(rows: seq<Row>, mint: string, clock: Clock)
    ensures var all, neon, mismatch := Tally(rows, mint, AllChain, clock), Tally(rows, mint, NeonOfChain, clock), Tally(rows, mint, Mismatch, clock);
      var above, below := Tally(rows, mint, Above, clock), Tally(rows, mint, Below, clock);
      all.amountRaw - neon.amountRaw == mismatch.amountRaw == above.amountRaw - below.amountRaw
    ensures Tally(rows, mint, Exact, clock).count + Tally(rows, mint, Mismatch, clock).count == Tally(rows, mint, AllChain, clock).count
    ensures Tally(rows, mint, Above, clock).count + Tally(rows, mint, Below, clock).count == Tally(rows, mint, Mismatch, clock).count
  {
    hide Share;
    if rows != [] {
      DifferencesAgree(rows[..|rows| - 1], mint, clock);
      DifferenceShares(rows[|rows| - 1], clock);
    }
  }

  lemma DifferenceShares(row: Row, clock: Clock)
    ensures var all, neon, mismatch := Share(AllChain, row, clock), Share(NeonOfChain, row, clock), Share(Mismatch, row, clock);
      var above, below := Share(Above, row, clock), Share(Below, row, clock);
      && all.amountRaw - neon.amountRaw == mismatch.amountRaw == above.amountRaw - below.amountRaw
      && Share(Exact, row, clock).count + mismatch.count == all.count && above.count + below.count == mismatch.count
  {
    hide BucketFor, FreshnessFor;
  }

  /** When every row of the mint was looked up, the chain's rows are all its rows. */
  lemma {:induction false} AllLookedUp(rows: seq<Row>, mint: string, clock: Clock)
    requires forall row :: row in rows && row.mint == mint ==> row.chainAmountRaw.Some?
    ensures Tally(rows, mint, NeonOfChain, clock) == Tally(rows, mint, AllNeon, clock)
    ensures Tally(rows, mint, AllChain, clock).count == Tally(rows, mint, AllNeon, clock).count
  {
    hide BucketFor, FreshnessFor;
    if rows != [] {
      AllLookedUp(rows[..|rows| - 1], mint, clock);
      assert rows[|rows| - 1] in rows;
    }
  }

  /** When no amount is negative, what is held is the total. */
  lemma {:induction false} NothingNegative(rows: seq<Row>, mint: string, on: Source, clock: Clock)
    requires forall row :: row in rows && row.mint == mint && AmountOn(on, row).Some? ==> AmountOn(on, row).value >= 0
    ensures Tally(rows, mint, Positive(on), clock).amountRaw == Tally(rows, mint, if on.Neon? then AllNeon else AllChain, clock).amountRaw
    decreases |rows|
  {
    hide BucketFor, FreshnessFor;
    if rows != [] {
      NothingNegative(rows[..|rows| - 1], mint, on, clock);
      assert rows[|rows| - 1] in rows;
    }
  }
}
