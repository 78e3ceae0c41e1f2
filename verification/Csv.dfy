/** The CSV form of the idle-funds report, and a reader for it. */
module Csv {
  import opened Wrappers
  import opened IdleRows
  import Text

  // ----- The writer -----

  const QUOTE := '\"'

  predicate NeedsQuotes(text: string) {
    QUOTE in text || ',' in text || '\n' in text
  }

  function Doubled(text: string): string {
    if text == "" then "" else (if text[0] == QUOTE then [QUOTE, QUOTE] else [text[0]]) + Doubled(text[1..])
  }

  function Escape(text: string): string {
    if NeedsQuotes(text) then [QUOTE] + Doubled(text) + [QUOTE] else text
  }

  function Line(cells: seq<string>): string {
    if cells == [] then ""
    else if |cells| == 1 then Escape(cells[0])
    else Escape(cells[0]) + "," + Line(cells[1..])
  }

  function Lines(records: seq<seq<string>>): string {
    if records == [] then ""
    else if |records| == 1 then Line(records[0])
    else Line(records[0]) + "\n" + Lines(records[1..])
  }

  // ----- The reader: section 2 of RFC 4180, with line feeds as line breaks -----

  datatype Read<T> = Read(value: T, rest: string)

  /** The text of a quoted field up to its closing quote. */
  function ReadQuoted(s: string): Option<Read<string>> {
    if s == "" then None
    else if s[0] != QUOTE then Prefixed(s[0], ReadQuoted(s[1..]))
    else if |s| > 1 && s[1] == QUOTE then Prefixed(QUOTE, ReadQuoted(s[2..]))
    else Some(Read("", s[1..]))
  }

  function Prefixed(c: char, r: Option<Read<string>>): Option<Read<string>> {
    if r.None? then None else Some(Read([c] + r.value.value, r.value.rest))
  }

  /** A bare field ends before a comma, a line feed or the end, and holds no quote. */
  function ReadPlain(s: string): Option<Read<string>> {
    if s == "" || s[0] == ',' || s[0] == '\n' then Some(Read("", s))
    else if s[0] == QUOTE then None
    else Prefixed(s[0], ReadPlain(s[1..]))
  }

  function ReadField(s: string): Option<Read<string>> {
    if s != "" && s[0] == QUOTE then ReadQuoted(s[1..]) else ReadPlain(s)
  }

  lemma {:induction false} QuotedShrinks(s: string)
    ensures ReadQuoted(s).Some? ==> |ReadQuoted(s).value.rest| < |s|
    decreases |s|
  {
    if s != "" && s[0] != QUOTE {
      QuotedShrinks(s[1..]);
    } else if |s| > 1 && s[1] == QUOTE {
      QuotedShrinks(s[2..]);
    }
  }

  lemma {:induction false} PlainShrinks(s: string)
    ensures ReadPlain(s).Some? ==> |ReadPlain(s).value.rest| <= |s|
  {
    if s != "" {
      PlainShrinks(s[1..]);
    }
  }

  lemma FieldShrinks(s: string)
    ensures ReadField(s).Some? ==> |ReadField(s).value.rest| <= |s|
  {
    if s != "" {
      QuotedShrinks(s[1..]);
    }
    PlainShrinks(s);
  }

  /** Fields up to and with the line feed that ends the record, or the end of the text. */
  function ReadRecord(s: string): (r: Option<Read<seq<string>>>)
    ensures r.Some? ==> |r.value.rest| <= |s| && (s != "" ==> |r.value.rest| < |s|)
    decreases |s|
  {
    var field := ReadField(s);
    FieldShrinks(s);
    if field.None? then None
    else if field.value.rest == "" then Some(Read([field.value.value], ""))
    else if field.value.rest[0] == '\n' then Some(Read([field.value.value], field.value.rest[1..]))
    else if field.value.rest[0] != ',' then None
    else
      var others := ReadRecord(field.value.rest[1..]);
      if others.None? then None else Some(Read([field.value.value] + others.value.value, others.value.rest))
  }

  /** All records; the last one may or may not have a line feed behind it. */
  function ReadTable(s: string): Option<seq<seq<string>>>
    decreases |s|
  {
    if s == "" then Some([])
    else
      var first := ReadRecord(s);
      if first.None? then None
      else
        var others := ReadTable(first.value.rest);
        if others.None? then None else Some([first.value.value] + others.value)
  }

  // ----- Reading back what was written -----

  /** What may stand behind a field. */
  predicate EndsField(rest: string) {
    rest == "" || rest[0] == ',' || rest[0] == '\n'
  }

  lemma {:induction false} QuotedBack(text: string, rest: string)
    requires EndsField(rest)
    ensures ReadQuoted(Doubled(text) + [QUOTE] + rest) == Some(Read(text, rest))
  {
    var s := Doubled(text) + [QUOTE] + rest;
    if text == "" {
      assert s == [QUOTE] + rest;
      assert s[1..] == rest;
    } else {
      var more := Doubled(text[1..]) + [QUOTE] + rest;
      QuotedBack(text[1..], rest);
      assert text == [text[0]] + text[1..];
      if text[0] == QUOTE {
        assert s == [QUOTE, QUOTE] + more;
        assert s[2..] == more;
      } else {
        assert s == [text[0]] + more;
        assert s[1..] == more;
      }
    }
  }

  lemma {:induction false} PlainBack(text: string, rest: string)
    requires !NeedsQuotes(text) && EndsField(rest)
    ensures ReadPlain(text + rest) == Some(Read(text, rest))
  {
    if text == "" {
      assert text + rest == rest;
    } else {
      PlainBack(text[1..], rest);
      assert text[0] in text && text == [text[0]] + text[1..];
      assert (text + rest)[1..] == text[1..] + rest;
    }
  }

  lemma FieldBack(text: string, rest: string)
    requires EndsField(rest)
    ensures ReadField(Escape(text) + rest) == Some(Read(text, rest))
  {
    hide ReadQuoted, ReadPlain, Doubled;
    if NeedsQuotes(text) {
      QuotedBack(text, rest);
      assert (Escape(text) + rest)[1..] == Doubled(text) + [QUOTE] + rest;
    } else {
      PlainBack(text, rest);
      assert text != "" ==> (text + rest)[0] == text[0] && text[0] in text;
      assert text == "" ==> text + rest == rest;
    }
  }

  /** A line is followed by nothing, or by a line feed and more text. */
  lemma {:induction false} RecordBack(cells: seq<string>, more: string, last: bool)
    requires |cells| >= 1 && (last ==> more == "")
    ensures ReadRecord(Line(cells) + if last then "" else "\n" + more) == Some(Read(cells, more))
  {
    hide ReadField, Escape;
    var rest := if last then "" else "\n" + more;
    if |cells| == 1 {
      FieldBack(cells[0], rest);
      assert cells == [cells[0]];
    } else {
      RecordBack(cells[1..], more, last);
      var tail := "," + Line(cells[1..]) + rest;
      FieldBack(cells[0], tail);
      assert Line(cells) + rest == Escape(cells[0]) + tail;
      assert tail[1..] == Line(cells[1..]) + rest;
      assert cells == [cells[0]] + cells[1..];
    }
  }

  /** Records of two or more cells read back, with or without a line feed at the end. */
  lemma {:induction false} TableBack(records: seq<seq<string>>, end: string)
    requires |records| >= 1 && (end == "" || end == "\n")
    requires forall i :: 0 <= i < |records| ==> |records[i]| >= 2
    ensures ReadTable(Lines(records) + end) == Some(records)
  {
    hide ReadRecord, Lines, Line;
    var first, s := records[0], Lines(records) + end;
    LineHasComma(first);
    LinesStep(records);
    if |records| == 1 {
      RecordBack(first, "", end == "");
      assert s == Line(first) + if end == "" then "" else "\n" + "";
      assert s != "" && records == [first] + [];
    } else {
      var more := Lines(records[1..]) + end;
      TableBack(records[1..], end);
      RecordBack(first, more, false);
      assert s == Line(first) + ("\n" + more);
      assert records == [first] + records[1..];
    }
  }

  lemma LineHasComma(cells: seq<string>)
    requires |cells| >= 2
    ensures Line(cells) != ""
  {
  }

  // ----- The report -----

  const BALANCE_COLUMNS: seq<string> := [
    "vaultId", "vaultPubkey", "managedVaultActive", "mint", "symbol", "neonAmountRaw", "chainAmountRaw", "chainStatus", "tokenAccount"]

  const OBSERVATION_COLUMNS: seq<string> := ["owner", "observedSlot", "observedAt", "sourceCommitment"]

  const ACTIVITY_COLUMNS: seq<string> := [
    "activePositionCount", "activePositionCurrentAmountRaw", "activeAutodepositTargetCount", "topUpFailureCount", "lastTopUpFailureAt"]

  const COLUMNS := BALANCE_COLUMNS + OBSERVATION_COLUMNS + ACTIVITY_COLUMNS

  function Flag(b: bool): string {
    if b then "true" else "false"
  }

  /** The text of a value that may be missing. */
  function Optional(text: Option<string>): string {
    if text.None? then "" else text.value
  }

  function OptionalNumber(n: Option<int>): string {
    if n.None? then "" else Text.Decimal(n.value)
  }

  /** The cells of a row, column by column. */
  function Cells(row: Row): seq<string> {
    [ row.vaultId, row.vaultPubkey, Flag(row.managedVaultActive), row.mint, row.symbol, Text.Decimal(row.neonAmountRaw),
      OptionalNumber(row.chainAmountRaw), Optional(row.chainStatus), row.tokenAccount, row.owner, Text.Decimal(row.observedSlot),
      row.observedAt, row.sourceCommitment, Text.Decimal(row.activePositionCount),
      Text.Decimal(row.activePositionCurrentAmountRaw), Text.Decimal(row.activeAutodepositTargetCount),
      Text.Decimal(row.topUpFailureCount), Optional(row.lastTopUpFailureAt) ]
  }

  function CellRows(rows: seq<Row>): seq<seq<string>> {
    seq(|rows|, i requires 0 <= i < |rows| => Cells(rows[i]))
  }

  /** The header is joined as it stands; rows are escaped. */
  function RowsToCsv(rows: seq<Row>): string {
    Bare(COLUMNS) + if rows == [] then "" else "\n" + Lines(CellRows(rows))
  }

  function Bare(names: seq<string>): string {
    if names == [] then "" else if |names| == 1 then names[0] else names[0] + "," + Bare(names[1..])
  }

  lemma {:induction false} BareIsLine(names: seq<string>)
    requires forall i :: 0 <= i < |names| ==> !NeedsQuotes(names[i])
    ensures Bare(names) == Line(names)
  {
    if |names| > 1 {
      BareIsLine(names[1..]);
    }
  }

  predicate Special(c: char) {
    c == QUOTE || c == ',' || c == '\n'
  }

  lemma BalanceNames(c: char)
    requires Special(c)
    ensures |BALANCE_COLUMNS| == 9 && forall i :: 0 <= i < 9 ==> c !in BALANCE_COLUMNS[i]
  {
  }

  lemma ObservationNames(c: char)
    requires Special(c)
    ensures |OBSERVATION_COLUMNS| == 4 && forall i :: 0 <= i < 4 ==> c !in OBSERVATION_COLUMNS[i]
  {
  }

  lemma ActivityNames(c: char)
    requires Special(c)
    ensures |ACTIVITY_COLUMNS| == 5 && forall i :: 0 <= i < 5 ==> c !in ACTIVITY_COLUMNS[i]
  {
  }

  lemma ColumnNamesFree(c: char)
    requires Special(c)
    ensures |COLUMNS| == 18 && forall i :: 0 <= i < 18 ==> c !in COLUMNS[i]
  {
    BalanceNames(c);
    ObservationNames(c);
    ActivityNames(c);
  }

  lemma ColumnNamesBare()
    ensures |COLUMNS| == 18 && forall i :: 0 <= i < 18 ==> !NeedsQuotes(COLUMNS[i])
  {
    ColumnNamesFree(QUOTE);
    ColumnNamesFree(',');
    ColumnNamesFree('\n');
  }

  /** Whatever the rows hold, reading the report gives back the header and every cell. */
  lemma CsvReadsBack(rows: seq<Row>, end: string)
    requires end == "" || end == "\n"
    ensures ReadTable(RowsToCsv(rows) + end) == Some([COLUMNS] + CellRows(rows))
  {
    hide Lines, Line, Bare, Cells, ReadTable;
    ColumnNamesBare();
    BareIsLine(COLUMNS);
    var records := [COLUMNS] + CellRows(rows);
    CellsWide(rows);
    TableBack(records, end);
    LinesStep(records);
    assert records[1..] == CellRows(rows);
  }

  lemma CellsWide(rows: seq<Row>)
    ensures forall i :: 0 <= i < |CellRows(rows)| ==> |CellRows(rows)[i]| == 18
  {
  }

  lemma LinesStep(records: seq<seq<string>>)
    requires |records| >= 1
    ensures Lines(records) == Line(records[0]) + if |records| == 1 then "" else "\n" + Lines(records[1..])
  {
  }

  /** Nothing else has the same cells: amounts and flags are told apart, and only a missing text looks like an empty one. */
  lemma CellsTellRowsApart(a: Row, b: Row)
    requires Cells(a) == Cells(b)
    ensures a.vaultId == b.vaultId && a.vaultPubkey == b.vaultPubkey && a.mint == b.mint && a.symbol == b.symbol
    ensures a.managedVaultActive == b.managedVaultActive && a.neonAmountRaw == b.neonAmountRaw && a.chainAmountRaw == b.chainAmountRaw
    ensures a.tokenAccount == b.tokenAccount && a.owner == b.owner && a.observedSlot == b.observedSlot && a.observedAt == b.observedAt
    ensures a.sourceCommitment == b.sourceCommitment && a.activePositionCount == b.activePositionCount
    ensures a.activePositionCurrentAmountRaw == b.activePositionCurrentAmountRaw
    ensures a.activeAutodepositTargetCount == b.activeAutodepositTargetCount && a.topUpFailureCount == b.topUpFailureCount
    ensures Optional(a.chainStatus) == Optional(b.chainStatus) && Optional(a.lastTopUpFailureAt) == Optional(b.lastTopUpFailureAt)
  {
    hide Text.Decimal, Optional, OptionalNumber, Flag;
    var x, y := Cells(a), Cells(b);
    FlagsDiffer(a.managedVaultActive, b.managedVaultActive);
    NumbersDiffer(a.neonAmountRaw, b.neonAmountRaw);
    OptionalNumbersDiffer(a.chainAmountRaw, b.chainAmountRaw);
    NumbersDiffer(a.observedSlot, b.observedSlot);
    NumbersDiffer(a.activePositionCount, b.activePositionCount);
    NumbersDiffer(a.activePositionCurrentAmountRaw, b.activePositionCurrentAmountRaw);
    NumbersDiffer(a.activeAutodepositTargetCount, b.activeAutodepositTargetCount);
    NumbersDiffer(a.topUpFailureCount, b.topUpFailureCount);
    assert x[0] == y[0] && x[1] == y[1] && x[2] == y[2] && x[3] == y[3] && x[4] == y[4] && x[5] == y[5];
    assert x[6] == y[6] && x[7] == y[7] && x[8] == y[8] && x[9] == y[9] && x[10] == y[10] && x[11] == y[11];
    assert x[12] == y[12] && x[13] == y[13] && x[14] == y[14] && x[15] == y[15] && x[16] == y[16] && x[17] == y[17];
  }

  lemma FlagsDiffer(a: bool, b: bool)
    ensures Flag(a) == Flag(b) ==> a == b
  {
    assert |Flag(true)| == 4 && |Flag(false)| == 5;
  }

  lemma NumbersDiffer(a: int, b: int)
    ensures Text.Decimal(a) == Text.Decimal(b) ==> a == b
  {
    hide Text.Decimal;
    Text.DecimalReadsBack(a);
    Text.DecimalReadsBack(b);
  }

  lemma OptionalNumbersDiffer(a: Option<int>, b: Option<int>)
    ensures OptionalNumber(a) == OptionalNumber(b) ==> a == b
  {
    if a.Some? { Text.DecimalNatReadsBack(if a.value < 0 then -a.value else a.value); }
    if b.Some? { Text.DecimalNatReadsBack(if b.value < 0 then -b.value else b.value); }
    if a.Some? && b.Some? { NumbersDiffer(a.value, b.value); }
  }
}
