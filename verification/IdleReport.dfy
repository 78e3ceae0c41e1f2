/** The fold of the idle-funds report: one summary per mint, filled row by row. */
module IdleReport {
  import opened Wrappers
  import opened Seqs
  import opened IdleRows
  import opened IdleCohorts

  /** The cohorts that are kept both for Neon and for the chain. */
  datatype Side = Side(
    positive: Cohort, activeManagedVaults: Cohort, inactiveManagedVaults: Cohort, activePositions: Cohort, noActivePosition: Cohort,
    activeAutodeposit: Cohort, noActiveAutodeposit: Cohort, historicalTopUpFailure: Cohort, noHistoricalTopUpFailure: Cohort,
    amountBuckets: map<string, Cohort>)

  datatype ChainSummary = ChainSummary(
    side: Side, totalRaw: int, exactMatches: int, mismatches: Cohort, statusCounts: map<string, int>, aboveNeon: Cohort,
    belowNeon: Cohort, neonZeroChainPositive: Cohort, neonPositiveChainZero: Cohort)

  datatype MintSummary = MintSummary(
    mint: string, symbol: string, decimals: Option<int>, rows: int, neonTotalRaw: int, neon: Side,
    commitmentCounts: map<string, Cohort>, freshness: map<string, Cohort>, chain: Option<ChainSummary>)

  // ----- What the summaries stand for -----

  /** The cohorts kept under a name that the rows bring along. */
  datatype Family = Buckets(on: Source) | Bands | Commitments

  function PickOf(family: Family, tag: string): Pick {
    match family
    case Buckets(on) => Bucket(on, tag)
    case Bands => Freshness(tag)
    case Commitments => Commitment(tag)
  }

  /** Exactly the names some row of the mint has, each with its cohort. */
  ghost predicate IsTable(table: map<string, Cohort>, rows: seq<Row>, mint: string, family: Family, clock: Clock) {
    forall tag ::
      && (tag in table <==> Tally(rows, mint, PickOf(family, tag), clock).count > 0)
      && (tag in table ==> table[tag] == Tally(rows, mint, PickOf(family, tag), clock))
  }

  ghost predicate IsStatusTable(table: map<string, int>, rows: seq<Row>, mint: string, clock: Clock) {
    forall tag ::
      && (tag in table <==> Tally(rows, mint, Status(tag), clock).count > 0)
      && (tag in table ==> table[tag] == Tally(rows, mint, Status(tag), clock).count)
  }

  ghost predicate IsSide(side: Side, rows: seq<Row>, mint: string, on: Source, clock: Clock) {
    && side.positive == Tally(rows, mint, Positive(on), clock)
    && side.activeManagedVaults == Tally(rows, mint, Managed(on, true), clock)
    && side.inactiveManagedVaults == Tally(rows, mint, Managed(on, false), clock)
    && side.activePositions == Tally(rows, mint, Positions(on, true), clock)
    && side.noActivePosition == Tally(rows, mint, Positions(on, false), clock)
    && side.activeAutodeposit == Tally(rows, mint, Autodeposit(on, true), clock)
    && side.noActiveAutodeposit == Tally(rows, mint, Autodeposit(on, false), clock)
    && side.historicalTopUpFailure == Tally(rows, mint, Failures(on, true), clock)
    && side.noHistoricalTopUpFailure == Tally(rows, mint, Failures(on, false), clock)
    && IsTable(side.amountBuckets, rows, mint, Buckets(on), clock)
  }

  ghost predicate IsChain(chain: ChainSummary, rows: seq<Row>, mint: string, clock: Clock) {
    && IsSide(chain.side, rows, mint, Chain, clock)
    && chain.totalRaw == Tally(rows, mint, AllChain, clock).amountRaw
    && chain.exactMatches == Tally(rows, mint, Exact, clock).count
    && chain.mismatches == Tally(rows, mint, Mismatch, clock)
    && IsStatusTable(chain.statusCounts, rows, mint, clock)
    && chain.aboveNeon == Tally(rows, mint, Above, clock)
    && chain.belowNeon == Tally(rows, mint, Below, clock)
    && chain.neonZeroChainPositive == Tally(rows, mint, NeonZero, clock)
    && chain.neonPositiveChainZero == Tally(rows, mint, ChainZero, clock)
  }

  /** The row that introduced the mint. */
  function First(rows: seq<Row>, mint: string): Option<Row> {
    if rows == [] then None
    else
      var before := First(rows[..|rows| - 1], mint);
      if before.Some? then before
      else if rows[|rows| - 1].mint == mint then Some(rows[|rows| - 1])
      else None
  }

  /** The summary says of every cohort what counting it over all rows says. */
  ghost predicate IsSummary(s: MintSummary, rows: seq<Row>, mint: string, clock: Clock) {
    && First(rows, mint).Some?
    && s.mint == mint && s.symbol == First(rows, mint).value.symbol && s.decimals == First(rows, mint).value.decimals
    && (s.chain.Some? <==> First(rows, mint).value.chainAmountRaw.Some?)
    && IsFilled(s, rows, mint, clock)
  }

  ghost predicate IsFilled(s: MintSummary, rows: seq<Row>, mint: string, clock: Clock) {
    && s.rows == Tally(rows, mint, AllNeon, clock).count
    && s.neonTotalRaw == Tally(rows, mint, AllNeon, clock).amountRaw
    && IsSide(s.neon, rows, mint, Neon, clock)
    && IsTable(s.commitmentCounts, rows, mint, Commitments, clock)
    && IsTable(s.freshness, rows, mint, Bands, clock)
    && (s.chain.Some? ==> IsChain(s.chain.value, rows, mint, clock))
  }

  // ----- One row -----

  function AddAt(table: map<string, Cohort>, tag: string, amountRaw: int): map<string, Cohort> {
    table[tag := Add(if tag in table then table[tag] else EMPTY, amountRaw)]
  }

  /** A row that holds something goes to one half of each pair and to one bucket. */
  function AddToSide(side: Side, row: Row, amountRaw: int): Side {
    side.(
    positive := Add(side.positive, amountRaw),
    activeManagedVaults := if row.managedVaultActive then Add(side.activeManagedVaults, amountRaw) else side.activeManagedVaults,
    inactiveManagedVaults := if row.managedVaultActive then side.inactiveManagedVaults else Add(side.inactiveManagedVaults, amountRaw),
    activePositions := if row.activePositionCount > 0 then Add(side.activePositions, amountRaw) else side.activePositions,
    noActivePosition := if row.activePositionCount > 0 then side.noActivePosition else Add(side.noActivePosition, amountRaw),
    activeAutodeposit := if row.activeAutodepositTargetCount > 0 then Add(side.activeAutodeposit, amountRaw) else side.activeAutodeposit,
    noActiveAutodeposit := if row.activeAutodepositTargetCount > 0 then side.noActiveAutodeposit else Add(side.noActiveAutodeposit, amountRaw),
    historicalTopUpFailure := if row.topUpFailureCount > 0 then Add(side.historicalTopUpFailure, amountRaw) else side.historicalTopUpFailure,
    noHistoricalTopUpFailure := if row.topUpFailureCount > 0 then side.noHistoricalTopUpFailure else Add(side.noHistoricalTopUpFailure, amountRaw),
    amountBuckets := AddAt(side.amountBuckets, BucketFor(amountRaw), amountRaw))
  }

  lemma {:induction false} CountsAreNatural(rows: seq<Row>, mint: string, pick: Pick, clock: Clock)
    ensures Tally(rows, mint, pick, clock).count >= 0
    ensures Tally(rows, mint, pick, clock).count == 0 ==> Tally(rows, mint, pick, clock) == EMPTY
    decreases |rows|
  {
    hide Taken, Tally;
    if rows == [] {
      NothingCounted(mint, pick, clock);
    } else {
      var init, last := rows[..|rows| - 1], rows[|rows| - 1];
      CountsAreNatural(init, mint, pick, clock);
      TallyStep(init, last, mint, pick, clock);
      assert rows == init + [last];
    }
  }

  lemma NothingCounted(mint: string, pick: Pick, clock: Clock)
    ensures Tally([], mint, pick, clock) == EMPTY
  {
  }

  /** A table stays exact when a row adds to the one name it belongs to. */
  lemma TableAdds(table: map<string, Cohort>, rows: seq<Row>, row: Row, mint: string, family: Family, tag: string, amount: int, clock: Clock)
    requires IsTable(table, rows, mint, family, clock) && row.mint == mint
    requires forall t :: Taken(PickOf(family, t), row, clock) == if t == tag then Some(amount) else None
    ensures IsTable(AddAt(table, tag, amount), rows + [row], mint, family, clock)
  {
    hide Tally, Taken;
    var grown := AddAt(table, tag, amount);
    forall t
      ensures t in grown <==> Tally(rows + [row], mint, PickOf(family, t), clock).count > 0
      ensures t in grown ==> grown[t] == Tally(rows + [row], mint, PickOf(family, t), clock)
    {
      TallyStep(rows, row, mint, PickOf(family, t), clock);
      CountsAreNatural(rows, mint, PickOf(family, t), clock);
    }
  }

  lemma TableKept(table: map<string, Cohort>, rows: seq<Row>, row: Row, mint: string, family: Family, clock: Clock)
    requires IsTable(table, rows, mint, family, clock)
    requires row.mint != mint || forall t :: Taken(PickOf(family, t), row, clock) == None
    ensures IsTable(table, rows + [row], mint, family, clock)
  {
    hide Tally, Taken;
    forall t ensures Tally(rows + [row], mint, PickOf(family, t), clock) == Tally(rows, mint, PickOf(family, t), clock) {
      TallyStep(rows, row, mint, PickOf(family, t), clock);
    }
  }

  /** What a row of the mint does to one side. */
  lemma SideStep(side: Side, rows: seq<Row>, row: Row, mint: string, on: Source, clock: Clock)
    requires IsSide(side, rows, mint, on, clock) && row.mint == mint
    ensures var amount := AmountOn(on, row);
      IsSide(if amount.Some? && amount.value > 0 then AddToSide(side, row, amount.value) else side, rows + [row], mint, on, clock)
  {
    hide Tally, IsTable, BucketFor, FreshnessFor;
    TallyStep(rows, row, mint, Positive(on), clock);
    TallyStep(rows, row, mint, Managed(on, true), clock);
    TallyStep(rows, row, mint, Managed(on, false), clock);
    TallyStep(rows, row, mint, Positions(on, true), clock);
    TallyStep(rows, row, mint, Positions(on, false), clock);
    TallyStep(rows, row, mint, Autodeposit(on, true), clock);
    TallyStep(rows, row, mint, Autodeposit(on, false), clock);
    TallyStep(rows, row, mint, Failures(on, true), clock);
    TallyStep(rows, row, mint, Failures(on, false), clock);
    var amount := AmountOn(on, row);
    if amount.Some? && amount.value > 0 {
      TableAdds(side.amountBuckets, rows, row, mint, Buckets(on), BucketFor(amount.value), amount.value, clock);
    } else {
      TableKept(side.amountBuckets, rows, row, mint, Buckets(on), clock);
    }
  }

  // ----- The chain part of a row -----

  function AddToChain(chain: ChainSummary, row: Row, amount: int): ChainSummary {
    var neon, status := row.neonAmountRaw, StatusOf(row);
    ChainSummary(
      if amount > 0 then AddToSide(chain.side, row, amount) else chain.side,
      chain.totalRaw + amount,
      if amount == neon then chain.exactMatches + 1 else chain.exactMatches,
      if amount == neon then chain.mismatches else Add(chain.mismatches, amount - neon),
      chain.statusCounts[status := (if status in chain.statusCounts then chain.statusCounts[status] else 0) + 1],
      if amount > neon then Add(chain.aboveNeon, amount - neon) else chain.aboveNeon,
      if amount < neon then Add(chain.belowNeon, neon - amount) else chain.belowNeon,
      if neon == 0 && amount > 0 then Add(chain.neonZeroChainPositive, amount) else chain.neonZeroChainPositive,
      if neon > 0 && amount == 0 then Add(chain.neonPositiveChainZero, neon) else chain.neonPositiveChainZero)
  }

  lemma StatusStep(table: map<string, int>, rows: seq<Row>, row: Row, mint: string, clock: Clock)
    requires IsStatusTable(table, rows, mint, clock)
    ensures row.mint == mint && row.chainAmountRaw.Some? ==>
      IsStatusTable(table[StatusOf(row) := (if StatusOf(row) in table then table[StatusOf(row)] else 0) + 1], rows + [row], mint, clock)
    ensures row.mint != mint || row.chainAmountRaw.None? ==> IsStatusTable(table, rows + [row], mint, clock)
  {
    hide Tally, StatusOf, BucketFor, FreshnessFor;
    forall t
      ensures Tally(rows + [row], mint, Status(t), clock).count == Tally(rows, mint, Status(t), clock).count
              + if row.mint == mint && row.chainAmountRaw.Some? && StatusOf(row) == t then 1 else 0
      ensures Tally(rows, mint, Status(t), clock).count >= 0
    {
      TallyStep(rows, row, mint, Status(t), clock);
      CountsAreNatural(rows, mint, Status(t), clock);
    }
  }

  lemma ChainStep(chain: ChainSummary, rows: seq<Row>, row: Row, mint: string, clock: Clock)
    requires IsChain(chain, rows, mint, clock) && row.mint == mint
    ensures IsChain(if row.chainAmountRaw.Some? then AddToChain(chain, row, row.chainAmountRaw.value) else chain, rows + [row], mint, clock)
  {
    hide Tally, IsSide, IsStatusTable, AddToSide, StatusOf, BucketFor, FreshnessFor;
    SideStep(chain.side, rows, row, mint, Chain, clock);
    StatusStep(chain.statusCounts, rows, row, mint, clock);
    TallyStep(rows, row, mint, AllChain, clock);
    TallyStep(rows, row, mint, Exact, clock);
    TallyStep(rows, row, mint, Mismatch, clock);
    TallyStep(rows, row, mint, Above, clock);
    TallyStep(rows, row, mint, Below, clock);
    TallyStep(rows, row, mint, NeonZero, clock);
    TallyStep(rows, row, mint, ChainZero, clock);
  }

  // ----- The whole row -----

  const EMPTY_SIDE := Side(EMPTY, EMPTY, EMPTY, EMPTY, EMPTY, EMPTY, EMPTY, EMPTY, EMPTY, map[])

  const EMPTY_CHAIN := ChainSummary(EMPTY_SIDE, 0, 0, EMPTY, map[], EMPTY, EMPTY, EMPTY, EMPTY)

  function NewSummary(row: Row): MintSummary {
    MintSummary(row.mint, row.symbol, row.decimals, 0, 0, EMPTY_SIDE, map[], map[],
                if row.chainAmountRaw.Some? then Some(EMPTY_CHAIN) else None)
  }

  /** Fills the summary of the row's mint; `None` where the fold throws on a cohort that was never created. A summary that
      says of every cohort what counting it over the rows says keeps doing so. */
  method AddRow(summary: MintSummary, row: Row, clock: Clock, ghost rows: seq<Row>) returns (r: Option<MintSummary>)
    ensures r == AfterRow(summary, row, clock)
    ensures r.None? <==> row.chainAmountRaw.Some? && summary.chain.None?
    ensures r.Some? && IsFilled(summary, rows, row.mint, clock) ==> IsFilled(r.value, rows + [row], row.mint, clock)
  {
    hide AddToSide, AddToChain, AddAt, BucketFor, FreshnessFor, IsFilled;
    var s := summary.(rows := summary.rows + 1, neonTotalRaw := summary.neonTotalRaw + row.neonAmountRaw);
    if row.neonAmountRaw > 0 {
      s := s.(neon := AddToSide(s.neon, row, row.neonAmountRaw));
      s := s.(freshness := AddAt(s.freshness, FreshnessFor(row.observedAt, clock), row.neonAmountRaw));
    }
    s := s.(commitmentCounts := AddAt(s.commitmentCounts, row.sourceCommitment, row.neonAmountRaw));
    if row.chainAmountRaw.Some? {
      if s.chain.None? { return None; }
      s := s.(chain := Some(AddToChain(s.chain.value, row, row.chainAmountRaw.value)));
    }
    r := Some(s);
    if IsFilled(summary, rows, row.mint, clock) { FilledStep(summary, rows, row, clock); }
  }

  function AfterRow(s: MintSummary, row: Row, clock: Clock): Option<MintSummary> {
    var neon := row.neonAmountRaw;
    if row.chainAmountRaw.Some? && s.chain.None? then None
    else Some(MintSummary(
      s.mint, s.symbol, s.decimals, s.rows + 1, s.neonTotalRaw + neon,
      if neon > 0 then AddToSide(s.neon, row, neon) else s.neon,
      AddAt(s.commitmentCounts, row.sourceCommitment, neon),
      if neon > 0 then AddAt(s.freshness, FreshnessFor(row.observedAt, clock), neon) else s.freshness,
      if row.chainAmountRaw.Some? then Some(AddToChain(s.chain.value, row, row.chainAmountRaw.value)) else s.chain))
  }

  lemma FirstStep(rows: seq<Row>, row: Row, mint: string)
    ensures First(rows + [row], mint) ==
      if First(rows, mint).Some? then First(rows, mint) else if row.mint == mint then Some(row) else None
  {
    assert (rows + [row])[..|rows|] == rows;
  }

  /** Adding a row keeps the cohorts of its mint exact. */
  lemma FilledStep(s: MintSummary, rows: seq<Row>, row: Row, clock: Clock)
    requires IsFilled(s, rows, row.mint, clock) && AfterRow(s, row, clock).Some?
    ensures IsFilled(AfterRow(s, row, clock).value, rows + [row], row.mint, clock)
  {
    hide Tally, IsSide, IsTable, IsChain, AddToSide, AddToChain, AddAt, BucketFor, FreshnessFor;
    TallyStep(rows, row, row.mint, AllNeon, clock);
    SideStep(s.neon, rows, row, row.mint, Neon, clock);
    TableAdds(s.commitmentCounts, rows, row, row.mint, Commitments, row.sourceCommitment, row.neonAmountRaw, clock);
    if row.neonAmountRaw > 0 {
      TableAdds(s.freshness, rows, row, row.mint, Bands, FreshnessFor(row.observedAt, clock), row.neonAmountRaw, clock);
    } else {
      TableKept(s.freshness, rows, row, row.mint, Bands, clock);
    }
    if s.chain.Some? {
      ChainStep(s.chain.value, rows, row, row.mint, clock);
    }
  }

  lemma {:induction false} MintUnseen(rows: seq<Row>, mint: string, pick: Pick, clock: Clock)
    requires First(rows, mint).None?
    ensures Tally(rows, mint, pick, clock) == EMPTY
    decreases |rows|
  {
    hide Taken, Tally;
    if rows == [] {
      NothingCounted(mint, pick, clock);
    } else {
      var init, last := rows[..|rows| - 1], rows[|rows| - 1];
      MintUnseen(init, mint, pick, clock);
      TallyStep(init, last, mint, pick, clock);
      assert rows == init + [last];
    }
  }

  lemma NewIsFilled(rows: seq<Row>, row: Row, clock: Clock)
    requires First(rows, row.mint).None?
    ensures IsFilled(NewSummary(row), rows, row.mint, clock)
  {
    hide Tally, First;
    forall pick ensures Tally(rows, row.mint, pick, clock) == EMPTY {
      MintUnseen(rows, row.mint, pick, clock);
    }
  }

  /** The summary the fold continues from. */
  function Current(byMint: map<string, MintSummary>, row: Row): MintSummary {
    if row.mint in byMint then byMint[row.mint] else NewSummary(row)
  }

  /** The table has an exact summary for each mint of the rows, and no other. */
  ghost predicate Summarizes(byMint: map<string, MintSummary>, rows: seq<Row>, clock: Clock) {
    forall mint ::
      && (mint in byMint <==> First(rows, mint).Some?)
      && (mint in byMint ==> IsSummary(byMint[mint], rows, mint, clock))
  }

  /** Some row of the mint was looked up on the chain though its first row was not. */
  ghost predicate Torn(rows: seq<Row>, mint: string) {
    && First(rows, mint).Some? && First(rows, mint).value.chainAmountRaw.None?
    && exists row :: row in rows && row.mint == mint && row.chainAmountRaw.Some?
  }

  /** The row was looked up on the chain, and its mint's first row was not. */
  predicate Tears(rows: seq<Row>, row: Row) {
    row.chainAmountRaw.Some? && First(rows, row.mint).Some? && First(rows, row.mint).value.chainAmountRaw.None?
  }

  lemma OwnSummary(byMint: map<string, MintSummary>, rows: seq<Row>, row: Row, clock: Clock)
    requires Summarizes(byMint, rows, clock) && AfterRow(Current(byMint, row), row, clock).Some?
    ensures IsSummary(AfterRow(Current(byMint, row), row, clock).value, rows + [row], row.mint, clock)
  {
    hide First, IsFilled, Tally;
    FirstStep(rows, row, row.mint);
    if row.mint !in byMint {
      NewIsFilled(rows, row, clock);
    }
    FilledStep(Current(byMint, row), rows, row, clock);
  }

  lemma OtherSummary(s: MintSummary, rows: seq<Row>, row: Row, mint: string, clock: Clock)
    requires IsSummary(s, rows, mint, clock) && row.mint != mint
    ensures IsSummary(s, rows + [row], mint, clock)
  {
    hide First, Tally, Taken;
    FirstStep(rows, row, mint);
    forall pick ensures Tally(rows + [row], mint, pick, clock) == Tally(rows, mint, pick, clock) {
      TallyStep(rows, row, mint, pick, clock);
    }
  }

  /** A step of the fold keeps the whole table exact, or throws because the row tears its mint. */
  lemma FoldStep(byMint: map<string, MintSummary>, rows: seq<Row>, row: Row, clock: Clock)
    requires Summarizes(byMint, rows, clock)
    ensures AfterRow(Current(byMint, row), row, clock).None? <==> Tears(rows, row)
    ensures AfterRow(Current(byMint, row), row, clock).Some? ==>
      Summarizes(byMint[row.mint := AfterRow(Current(byMint, row), row, clock).value], rows + [row], clock)
  {
    hide First, IsFilled, Tally, AddToSide, AddToChain, AddAt, FreshnessFor;
    if AfterRow(Current(byMint, row), row, clock).Some? {
      OwnSummary(byMint, rows, row, clock);
      forall mint ensures First(rows + [row], mint).Some? <==> First(rows, mint).Some? || mint == row.mint {
        FirstStep(rows, row, mint);
      }
      forall mint | mint in byMint && mint != row.mint ensures IsSummary(byMint[mint], rows + [row], mint, clock) {
        OtherSummary(byMint[mint], rows, row, mint, clock);
      }
    }
  }

  lemma TornStep(rows: seq<Row>, row: Row, mint: string)
    ensures Torn(rows + [row], mint) <==> Torn(rows, mint) || (row.mint == mint && Tears(rows, row))
  {
    hide First;
    FirstStep(rows, row, mint);
    assert forall r :: r in rows + [row] <==> r in rows || r == row;
    if First(rows, mint).None? {
      UnseenMint(rows, mint);
    }
  }

  lemma {:induction false} UnseenMint(rows: seq<Row>, mint: string)
    requires First(rows, mint).None?
    ensures forall row :: row in rows ==> row.mint != mint
    decreases |rows|
  {
    if rows != [] {
      UnseenMint(rows[..|rows| - 1], mint);
    }
  }

  lemma {:induction false} TornStays(rows: seq<Row>, n: nat, mint: string)
    requires n <= |rows| && Torn(rows[..n], mint)
    ensures Torn(rows, mint)
    decreases |rows|
  {
    hide Torn;
    if n == |rows| {
      assert rows[..n] == rows;
    } else {
      var init, last := rows[..|rows| - 1], rows[|rows| - 1];
      assert init[..n] == rows[..n];
      TornStays(init, n, mint);
      TornStep(init, last, mint);
      assert rows == init + [last];
    }
  }

  lemma TornBy(rows: seq<Row>, n: nat)
    requires n < |rows| && Tears(rows[..n], rows[n])
    ensures exists mint :: Torn(rows, mint)
  {
    hide Torn, Tears;
    TornStep(rows[..n], rows[n], rows[n].mint);
    assert rows[..n + 1] == rows[..n] + [rows[n]];
    TornStays(rows, n + 1, rows[n].mint);
  }

  lemma NotTorn(rows: seq<Row>, row: Row, next: seq<Row>)
    requires next == rows + [row] && !Tears(rows, row) && forall mint :: !Torn(rows, mint)
    ensures forall mint :: !Torn(next, mint)
  {
    hide Torn, Tears;
    forall mint ensures !Torn(next, mint) {
      TornStep(rows, row, mint);
    }
  }

  /** Two rows of one mint, the second of them looked up on the chain and the first not: the report throws. */
  lemma TornWitness() returns (rows: seq<Row>)
    ensures |rows| == 2 && rows[1] == rows[0].(chainAmountRaw := rows[1].chainAmountRaw) && Torn(rows, rows[0].mint)
  {
    var row := Row("1", "v", true, "m", "USDC", Some(6), 5, "o", "t", 0, "", "finalized", 0, 0, 0, 0, None, None, None);
    rows := [row, row.(chainAmountRaw := Some(5))];
    FirstStep([], row, "m");
    FirstStep([row], rows[1], "m");
    assert [] + [row] == [row] && [row] + [rows[1]] == rows && rows[1] in rows;
  }

  // ----- The report -----

  /** `localeCompare` puts any two symbols in some order. */
  ghost predicate Total(before: (string, string) -> bool) {
    forall a, b :: before(a, b) || before(b, a)
  }

  function InOrder(before: (string, string) -> bool): (MintSummary, MintSummary) -> bool {
    (a: MintSummary, b: MintSummary) => before(a.symbol, b.symbol)
  }

  ghost predicate OnePerMint(summaries: seq<MintSummary>) {
    forall i, j :: 0 <= i < j < |summaries| ==> summaries[i].mint != summaries[j].mint
  }

  lemma InsertOne(summaries: seq<MintSummary>, i: nat, s: MintSummary)
    requires i <= |summaries| && OnePerMint(summaries) && forall t :: t in summaries ==> t.mint != s.mint
    ensures OnePerMint(summaries[..i] + [s] + summaries[i..])
    ensures forall t :: t in summaries[..i] + [s] + summaries[i..] <==> t in summaries || t == s
  {
    var grown := summaries[..i] + [s] + summaries[i..];
    assert summaries == summaries[..i] + summaries[i..];
    forall a, b | 0 <= a < b < |grown| ensures grown[a].mint != grown[b].mint {
      assert grown[a] == if a < i then summaries[a] else if a == i then s else summaries[a - 1];
      assert grown[b] == if b < i then summaries[b] else if b == i then s else summaries[b - 1];
    }
  }

  method SortBySymbol(summaries: seq<MintSummary>, before: (string, string) -> bool) returns (sorted: seq<MintSummary>)
    requires Total(before) && OnePerMint(summaries)
    ensures OnePerMint(sorted) && NeighboursInOrder(sorted, InOrder(before))
    ensures forall s :: s in sorted <==> s in summaries
  {
    sorted := [];
    var n := 0;
    while n < |summaries|
      invariant 0 <= n <= |summaries|
      invariant OnePerMint(sorted) && NeighboursInOrder(sorted, InOrder(before))
      invariant forall s :: s in sorted <==> s in summaries[..n]
    {
      var s := summaries[n];
      var i := |sorted|;
      while i > 0 && !before(sorted[i - 1].symbol, s.symbol)
        invariant 0 <= i <= |sorted|
        invariant i < |sorted| ==> before(s.symbol, sorted[i].symbol)
      {
        i := i - 1;
      }
      InsertKeepsOrder(sorted, i, s, InOrder(before));
      InsertOne(sorted, i, s);
      assert summaries[..n + 1] == summaries[..n] + [s];
      sorted := sorted[..i] + [s] + sorted[i..];
      n := n + 1;
    }
    assert summaries[..n] == summaries;
  }

  /** One exact summary for each mint of the rows, in the order of the symbols. */
  ghost predicate IsReport(report: seq<MintSummary>, rows: seq<Row>, clock: Clock, before: (string, string) -> bool) {
    && OnePerMint(report) && NeighboursInOrder(report, InOrder(before))
    && (forall s :: s in report ==> IsSummary(s, rows, s.mint, clock))
    && (forall mint :: First(rows, mint).Some? ==> exists s :: s in report && s.mint == mint)
  }

  /** The mints in the order in which the rows brought them, as the keys of a `Map` are kept. */
  ghost predicate KeysInOrder(byMint: map<string, MintSummary>, order: seq<string>) {
    Distinct(order) && forall mint :: mint in order <==> mint in byMint
  }

  /** The fold throws exactly on rows that tear a mint; otherwise every cohort of every mint is exact. */
  method SummarizeRows(rows: seq<Row>, clock: Clock, before: (string, string) -> bool) returns (r: Option<seq<MintSummary>>)
    requires Total(before)
    ensures r.None? <==> exists mint :: Torn(rows, mint)
    ensures r.Some? ==> IsReport(r.value, rows, clock, before)
  {
    hide First, IsSummary, AfterRow, Torn, NewSummary, Tears, IsFilled, Summarizes, KeysInOrder, Current, IsReport, OnePerMint;
    var byMint: map<string, MintSummary> := map[];
    var order: seq<string> := [];
    var n := 0;
    NoneYet(rows, clock);
    while n < |rows|
      invariant 0 <= n <= |rows|
      invariant Summarizes(byMint, rows[..n], clock) && KeysInOrder(byMint, order)
      invariant forall mint :: !Torn(rows[..n], mint)
    {
      var row := rows[n];
      ghost var next := rows[..n + 1];
      FoldStep(byMint, rows[..n], row, clock);
      assert next == rows[..n] + [row];
      var added := AddRow(Current(byMint, row), row, clock, rows[..n]);
      if added.None? {
        TornBy(rows, n);
        return None;
      }
      NotTorn(rows[..n], row, next);
      KeyAdded(byMint, order, row.mint, added.value);
      if row.mint !in byMint { order := order + [row.mint]; }
      byMint := byMint[row.mint := added.value];
      n := n + 1;
    }
    assert rows[..n] == rows;
    ValuesAreExact(byMint, order, rows, clock);
    ghost var values := Values(byMint, order);
    var sorted := SortBySymbol(Values(byMint, order), before);
    SortedIsReport(values, sorted, rows, clock, before);
    r := Some(sorted);
  }

  lemma KeyAdded(byMint: map<string, MintSummary>, order: seq<string>, mint: string, s: MintSummary)
    requires KeysInOrder(byMint, order)
    ensures KeysInOrder(byMint[mint := s], if mint in byMint then order else order + [mint])
  {
  }

  lemma SortedIsReport(values: seq<MintSummary>, sorted: seq<MintSummary>, rows: seq<Row>, clock: Clock, before: (string, string) -> bool)
    requires OnePerMint(sorted) && NeighboursInOrder(sorted, InOrder(before)) && forall s :: s in sorted <==> s in values
    requires forall s :: s in values ==> IsSummary(s, rows, s.mint, clock)
    requires forall mint :: First(rows, mint).Some? ==> exists s :: s in values && s.mint == mint
    ensures IsReport(sorted, rows, clock, before)
  {
    hide IsSummary, First;
  }

  function Values(byMint: map<string, MintSummary>, order: seq<string>): seq<MintSummary>
    requires forall i :: 0 <= i < |order| ==> order[i] in byMint
  {
    seq(|order|, i requires 0 <= i < |order| => byMint[order[i]])
  }

  lemma ValuesAreExact(byMint: map<string, MintSummary>, order: seq<string>, rows: seq<Row>, clock: Clock)
    requires Summarizes(byMint, rows, clock) && KeysInOrder(byMint, order)
    ensures forall i :: 0 <= i < |order| ==> order[i] in byMint
    ensures OnePerMint(Values(byMint, order))
    ensures forall s :: s in Values(byMint, order) ==> IsSummary(s, rows, s.mint, clock)
    ensures forall mint :: First(rows, mint).Some? ==> exists s :: s in Values(byMint, order) && s.mint == mint
  {
    hide First, IsFilled;
    assert forall i :: 0 <= i < |order| ==> order[i] in order;
    var values := Values(byMint, order);
    forall mint | First(rows, mint).Some? ensures exists s :: s in values && s.mint == mint {
      assert mint in order;
      var i :| 0 <= i < |order| && order[i] == mint;
      assert values[i] in values;
    }
  }

  lemma NoneYet(rows: seq<Row>, clock: Clock)
    ensures Summarizes(map[], rows[..0], clock) && KeysInOrder(map[], []) && forall mint :: !Torn(rows[..0], mint)
  {
  }

  // ----- Conservation -----

  function Under(table: map<string, Cohort>, tag: string): Cohort {
    if tag in table then table[tag] else EMPTY
  }

  /** The cohorts under the first n tags together. */
  function SumUnder(table: map<string, Cohort>, tags: seq<string>, n: nat): Cohort
    requires n <= |tags|
    decreases n
  {
    if n == 0 then EMPTY else Plus(SumUnder(table, tags, n - 1), Under(table, tags[n - 1]))
  }

  function BucketTagsInOrder(): seq<string> {
    seq(8, i requires 0 <= i < 8 => AMOUNT_BUCKETS[i].tag)
  }

  lemma {:induction false} SumIsTally(table: map<string, Cohort>, tags: seq<string>, n: nat, rows: seq<Row>, mint: string,
                                      family: Family, picks: seq<Pick>, clock: Clock)
    requires IsTable(table, rows, mint, family, clock)
    requires n <= |tags| == |picks| && forall i :: 0 <= i < |tags| ==> picks[i] == PickOf(family, tags[i])
    ensures SumUnder(table, tags, n) == TallyAll(rows, mint, picks, n, clock)
    decreases n
  {
    hide Tally, Plus;
    if n > 0 {
      SumIsTally(table, tags, n - 1, rows, mint, family, picks, clock);
      CountsAreNatural(rows, mint, PickOf(family, tags[n - 1]), clock);
    }
  }

  lemma {:induction false} CountedRow(rows: seq<Row>, mint: string, pick: Pick, clock: Clock)
    requires Tally(rows, mint, pick, clock).count > 0
    ensures exists row :: row in rows && row.mint == mint && Taken(pick, row, clock).Some?
    decreases |rows|
  {
    hide Tally, Taken;
    if rows == [] {
      NothingCounted(mint, pick, clock);
    } else {
      var init, last := rows[..|rows| - 1], rows[|rows| - 1];
      TallyStep(init, last, mint, pick, clock);
      assert rows == init + [last];
      if last.mint == mint && Taken(pick, last, clock).Some? {
        assert last in rows;
      } else {
        CountedRow(init, mint, pick, clock);
      }
    }
  }

  lemma BucketKeys(table: map<string, Cohort>, rows: seq<Row>, mint: string, on: Source, clock: Clock)
    requires IsTable(table, rows, mint, Buckets(on), clock)
    ensures forall tag :: tag in table ==> tag in BucketTagsInOrder()
  {
    hide Tally, BucketFor, FreshnessFor;
    forall tag | tag in table ensures tag in BucketTagsInOrder() {
      CountedRow(rows, mint, PickOf(Buckets(on), tag), clock);
      var row :| row in rows && row.mint == mint && Taken(Bucket(on, tag), row, clock).Some?;
      var k := BucketIndex(AmountOn(on, row).value);
      assert BucketTagsInOrder()[k] == tag;
    }
  }

  lemma BandKeys(table: map<string, Cohort>, rows: seq<Row>, mint: string, clock: Clock)
    requires IsTable(table, rows, mint, Bands, clock)
    ensures forall tag :: tag in table ==> tag in BANDS
  {
    hide Tally, BucketFor, FreshnessFor;
    forall tag | tag in table ensures tag in BANDS {
      CountedRow(rows, mint, PickOf(Bands, tag), clock);
      var row :| row in rows && row.mint == mint && Taken(Freshness(tag), row, clock).Some?;
      var k := BandIndex(row.observedAt, clock);
      assert BANDS[k] == tag;
    }
  }

  /** Each pair of cohorts and the buckets account for everything that is held, and no bucket is outside the list. */
  ghost predicate SideConserved(side: Side) {
    && Plus(side.activeManagedVaults, side.inactiveManagedVaults) == side.positive
    && Plus(side.activePositions, side.noActivePosition) == side.positive
    && Plus(side.activeAutodeposit, side.noActiveAutodeposit) == side.positive
    && Plus(side.historicalTopUpFailure, side.noHistoricalTopUpFailure) == side.positive
    && SumUnder(side.amountBuckets, BucketTagsInOrder(), 8) == side.positive
    && forall tag :: tag in side.amountBuckets ==> tag in BucketTagsInOrder()
  }

  lemma SideIsConserved(side: Side, rows: seq<Row>, mint: string, on: Source, clock: Clock)
    requires IsSide(side, rows, mint, on, clock)
    ensures SideConserved(side)
  {
    hide Tally, Plus, SumUnder, IsTable, BucketTagsInOrder;
    PairsAddUp(rows, mint, on, clock);
    BucketsConserved(side.amountBuckets, rows, mint, on, clock);
    BucketKeys(side.amountBuckets, rows, mint, on, clock);
  }

  /** Each pair of cohorts shares out what is held. */
  lemma PairsAddUp(rows: seq<Row>, mint: string, on: Source, clock: Clock)
    ensures var whole := Tally(rows, mint, Positive(on), clock);
      && Plus(Tally(rows, mint, Managed(on, true), clock), Tally(rows, mint, Managed(on, false), clock)) == whole
      && Plus(Tally(rows, mint, Positions(on, true), clock), Tally(rows, mint, Positions(on, false), clock)) == whole
      && Plus(Tally(rows, mint, Autodeposit(on, true), clock), Tally(rows, mint, Autodeposit(on, false), clock)) == whole
      && Plus(Tally(rows, mint, Failures(on, true), clock), Tally(rows, mint, Failures(on, false), clock)) == whole
  {
    hide Tally, Plus;
    HalvesAddUp(rows, mint, on, Managed(on, true), Managed(on, false), clock);
    HalvesAddUp(rows, mint, on, Positions(on, true), Positions(on, false), clock);
    HalvesAddUp(rows, mint, on, Autodeposit(on, true), Autodeposit(on, false), clock);
    HalvesAddUp(rows, mint, on, Failures(on, true), Failures(on, false), clock);
  }

  lemma BucketsConserved(table: map<string, Cohort>, rows: seq<Row>, mint: string, on: Source, clock: Clock)
    requires IsTable(table, rows, mint, Buckets(on), clock)
    ensures |BucketTagsInOrder()| == 8 && SumUnder(table, BucketTagsInOrder(), 8) == Tally(rows, mint, Positive(on), clock)
  {
    hide Tally, TallyAll, Plus, SumUnder, IsTable;
    SumIsTally(table, BucketTagsInOrder(), 8, rows, mint, Buckets(on), BucketPicks(on), clock);
    BucketsAddUp(rows, mint, on, clock);
  }

  /** What Neon holds of a mint is accounted for by each pair, by the buckets and by the freshness bands. */
  lemma NeonConserved(s: MintSummary, rows: seq<Row>, mint: string, clock: Clock)
    requires IsSummary(s, rows, mint, clock)
    ensures SideConserved(s.neon)
    ensures SumUnder(s.freshness, BANDS, 4) == s.neon.positive
    ensures forall tag :: tag in s.freshness ==> tag in BANDS
    ensures (forall row :: row in rows && row.mint == mint ==> row.neonAmountRaw >= 0) ==> s.neon.positive.amountRaw == s.neonTotalRaw
  {
    hide Tally, TallyAll, SumUnder, IsTable, SideConserved, First;
    SideIsConserved(s.neon, rows, mint, Neon, clock);
    SumIsTally(s.freshness, BANDS, 4, rows, mint, Bands, BandPicks(), clock);
    BandsAddUp(rows, mint, clock);
    BandKeys(s.freshness, rows, mint, clock);
    if forall row :: row in rows && row.mint == mint ==> row.neonAmountRaw >= 0 {
      NothingNegative(rows, mint, Neon, clock);
    }
  }

  /** What the chain holds of a mint is accounted for in the same way, and differs from Neon by the mismatches. */
  lemma ChainConserved(s: MintSummary, rows: seq<Row>, mint: string, clock: Clock)
    requires IsSummary(s, rows, mint, clock) && s.chain.Some?
    ensures SideConserved(s.chain.value.side)
    ensures s.chain.value.mismatches.amountRaw == s.chain.value.aboveNeon.amountRaw - s.chain.value.belowNeon.amountRaw
    ensures s.chain.value.mismatches.count == s.chain.value.aboveNeon.count + s.chain.value.belowNeon.count
    ensures (forall row :: row in rows && row.mint == mint ==> row.chainAmountRaw.Some?) ==>
      && s.chain.value.totalRaw - s.neonTotalRaw == s.chain.value.mismatches.amountRaw
      && s.chain.value.exactMatches + s.chain.value.mismatches.count == s.rows
    ensures (forall row :: row in rows && row.mint == mint && row.chainAmountRaw.Some? ==> row.chainAmountRaw.value >= 0) ==>
      s.chain.value.side.positive.amountRaw == s.chain.value.totalRaw
  {
    hide Tally, IsTable, SideConserved, First, IsStatusTable;
    SideIsConserved(s.chain.value.side, rows, mint, Chain, clock);
    DifferencesAgree(rows, mint, clock);
    if forall row :: row in rows && row.mint == mint ==> row.chainAmountRaw.Some? {
      AllLookedUp(rows, mint, clock);
    }
    if forall row :: row in rows && row.mint == mint && row.chainAmountRaw.Some? ==> row.chainAmountRaw.value >= 0 {
      NothingNegative(rows, mint, Chain, clock);
    }
  }
}
