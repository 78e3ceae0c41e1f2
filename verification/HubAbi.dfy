/** The byte layout of the Loyal Hub ABI: records are laid out by pushing fields and repeats one after another,
    and may use the records defined before them as types. */
module HubAbi {
  import opened Text
  import opened Wrappers

  datatype Field = Field(name: string, ty: string, offset: nat, size: nat)

  datatype Repeat = Repeat(name: string, ty: string, maxCount: string, countField: string, offset: nat, itemSize: nat)

  datatype Record = Record(name: string, fields: seq<Field>, repeats: seq<Repeat>, fixedLen: nat, maxLen: nat)

  /** What a layout depends on: the limits and the records defined so far. */
  datatype Schema = Schema(limits: map<string, nat>, records: map<string, Record>)

  function TypeSize(ty: string, schema: Schema): Option<nat> {
    if ty == "bool" || ty == "u8" then Some(1)
    else if ty == "u16" then Some(2)
    else if ty == "u64" || ty == "bytes8" then Some(8)
    else if ty == "pubkey" then Some(32)
    else if Upper(ty) in schema.records then Some(schema.records[Upper(ty)].maxLen)
    else None
  }

  // ----- The layout as prefix sums -----

  datatype Push =
    | FieldPush(name: string, ty: string)
    | RepeatPush(name: string, ty: string, maxCount: string, countField: string)

  /** The bytes a push reserves; `None` where the build panics. */
  function PushSize(push: Push, schema: Schema): Option<nat> {
    var item := TypeSize(push.ty, schema);
    if push.FieldPush? then item
    else if item.None? || push.maxCount !in schema.limits then None
    else Some(item.value * schema.limits[push.maxCount])
  }

  predicate Known(pushes: seq<Push>, schema: Schema) {
    forall i :: 0 <= i < |pushes| ==> PushSize(pushes[i], schema).Some?
  }

  /** Where the next push starts: the sum of everything before it. */
  function Total(pushes: seq<Push>, schema: Schema): nat
    requires Known(pushes, schema)
  {
    if pushes == [] then 0
    else Total(pushes[..|pushes| - 1], schema) + PushSize(pushes[|pushes| - 1], schema).value
  }

  function SlotStart(pushes: seq<Push>, schema: Schema, i: nat): nat
    requires Known(pushes, schema) && i <= |pushes|
  {
    Total(pushes[..i], schema)
  }

  lemma SlotEnds(pushes: seq<Push>, schema: Schema, i: nat)
    requires Known(pushes, schema) && i < |pushes|
    ensures SlotStart(pushes, schema, i + 1) == SlotStart(pushes, schema, i) + PushSize(pushes[i], schema).value
  {
    assert pushes[..i + 1][..i] == pushes[..i];
  }

  lemma {:induction false} SlotsOrdered(pushes: seq<Push>, schema: Schema, i: nat, j: nat)
    requires Known(pushes, schema) && i <= j <= |pushes|
    ensures SlotStart(pushes, schema, i) <= SlotStart(pushes, schema, j)
    decreases j - i
  {
    if i < j {
      SlotsOrdered(pushes, schema, i, j - 1);
      SlotEnds(pushes, schema, j - 1);
    }
  }

  ghost predicate InSlot(pushes: seq<Push>, schema: Schema, i: nat, x: int)
    requires Known(pushes, schema) && i < |pushes|
  {
    SlotStart(pushes, schema, i) <= x < SlotStart(pushes, schema, i) + PushSize(pushes[i], schema).value
  }

  lemma {:induction false} SomeSlot(pushes: seq<Push>, schema: Schema, n: nat, x: nat) returns (i: nat)
    requires Known(pushes, schema) && n <= |pushes| && x < SlotStart(pushes, schema, n)
    ensures i < n && InSlot(pushes, schema, i, x)
  {
    SlotEnds(pushes, schema, n - 1);
    if x < SlotStart(pushes, schema, n - 1) {
      i := SomeSlot(pushes, schema, n - 1, x);
    } else {
      i := n - 1;
    }
  }

  /** The slots tile the record: every byte below the total lies in exactly one slot, and no slot reaches beyond it. */
  lemma SlotsTile(pushes: seq<Push>, schema: Schema, x: int)
    requires Known(pushes, schema)
    ensures 0 <= x < Total(pushes, schema) <==> exists i: nat :: i < |pushes| && InSlot(pushes, schema, i, x)
    ensures forall i: nat, j: nat :: i < |pushes| && j < |pushes| && InSlot(pushes, schema, i, x) && InSlot(pushes, schema, j, x) ==> i == j
  {
    assert pushes[..|pushes|] == pushes;
    if 0 <= x < Total(pushes, schema) {
      var i := SomeSlot(pushes, schema, |pushes|, x);
    }
    forall i: nat | i < |pushes| && InSlot(pushes, schema, i, x) ensures 0 <= x < Total(pushes, schema) {
      SlotEnds(pushes, schema, i);
      SlotsOrdered(pushes, schema, i + 1, |pushes|);
    }
    forall i: nat, j: nat | i < j < |pushes| && InSlot(pushes, schema, i, x) ensures !InSlot(pushes, schema, j, x) {
      SlotEnds(pushes, schema, i);
      SlotsOrdered(pushes, schema, i + 1, j);
    }
  }

  // ----- The builder -----

  datatype Layout = Layout(fields: seq<Field>, repeats: seq<Repeat>, offset: nat)

  function AfterPush(layout: Layout, push: Push, schema: Schema): Layout
    requires PushSize(push, schema).Some?
  {
    var end := layout.offset + PushSize(push, schema).value;
    match push
    case FieldPush(name, ty) =>
      Layout(layout.fields + [Field(name, ty, layout.offset, TypeSize(ty, schema).value)], layout.repeats, end)
    case RepeatPush(name, ty, maxCount, countField) =>
      Layout(layout.fields, layout.repeats + [Repeat(name, ty, maxCount, countField, layout.offset, TypeSize(ty, schema).value)], end)
  }

  function Built(pushes: seq<Push>, schema: Schema): Layout
    requires Known(pushes, schema)
  {
    if pushes == [] then Layout([], [], 0)
    else AfterPush(Built(pushes[..|pushes| - 1], schema), pushes[|pushes| - 1], schema)
  }

  /** The first repeat among the pushes, or their end. */
  function FirstRepeat(pushes: seq<Push>): (k: nat)
    ensures k <= |pushes| && (k < |pushes| ==> pushes[k].RepeatPush?) && forall i :: 0 <= i < k ==> pushes[i].FieldPush?
  {
    if pushes == [] then 0
    else
      var k := FirstRepeat(pushes[..|pushes| - 1]);
      if k == |pushes| - 1 && pushes[k].FieldPush? then k + 1 else k
  }

  function Finished(name: string, layout: Layout): Record {
    Record(name, layout.fields, layout.repeats,
           if layout.repeats == [] then layout.offset else layout.repeats[0].offset, layout.offset)
  }

  class RecordBuilder {
    const name: string
    var fields: seq<Field>
    var repeats: seq<Repeat>
    var offset: nat

    constructor (name: string)
      ensures this.name == name && Contents() == Layout([], [], 0)
    {
      this.name := name;
      fields, repeats, offset := [], [], 0;
    }

    function Contents(): Layout
      reads this
    {
      Layout(fields, repeats, offset)
    }

    /** Returns false where the build panics on an unknown type. */
    method PushField(name: string, ty: string, schema: Schema) returns (ok: bool)
      modifies this
      ensures ok == PushSize(FieldPush(name, ty), schema).Some?
      ensures Contents() == if ok then AfterPush(old(Contents()), FieldPush(name, ty), schema) else old(Contents())
    {
      var size := TypeSize(ty, schema);
      if size.None? { return false; }
      fields := fields + [Field(name, ty, offset, size.value)];
      offset := offset + size.value;
      ok := true;
    }

    /** Returns false where the build panics on an unknown type or limit. */
    method PushRepeat(name: string, ty: string, maxCount: string, countField: string, schema: Schema) returns (ok: bool)
      modifies this
      ensures ok == PushSize(RepeatPush(name, ty, maxCount, countField), schema).Some?
      ensures Contents() == if ok then AfterPush(old(Contents()), RepeatPush(name, ty, maxCount, countField), schema) else old(Contents())
    {
      var itemSize := TypeSize(ty, schema);
      if itemSize.None? || maxCount !in schema.limits { return false; }
      repeats := repeats + [Repeat(name, ty, maxCount, countField, offset, itemSize.value)];
      offset := offset + itemSize.value * schema.limits[maxCount];
      ok := true;
    }

    /** Whatever was pushed, the record ends behind the last push and its fixed part in front of the first repeat. */
    method Finish(ghost pushes: seq<Push>, ghost schema: Schema) returns (record: Record)
      ensures record == Finished(name, Contents())
      ensures Known(pushes, schema) && Contents() == Built(pushes, schema) ==>
        record.maxLen == Total(pushes, schema) && record.fixedLen == SlotStart(pushes, schema, FirstRepeat(pushes))
    {
      hide Built, Known, Total, SlotStart;
      var fixedLen := if repeats == [] then offset else repeats[0].offset;
      record := Record(name, fields, repeats, fixedLen, offset);
      if Known(pushes, schema) && Contents() == Built(pushes, schema) {
        FixedPart(name, pushes, schema, FirstRepeat(pushes));
      }
    }
  }

  // ----- What a finished record says -----

  function CountFields(pushes: seq<Push>): nat {
    if pushes == [] then 0 else CountFields(pushes[..|pushes| - 1]) + if pushes[|pushes| - 1].FieldPush? then 1 else 0
  }

  lemma {:induction false} BuiltExtends(pushes: seq<Push>, schema: Schema, n: nat)
    requires Known(pushes, schema) && n <= |pushes|
    ensures Built(pushes[..n], schema).fields <= Built(pushes, schema).fields
    ensures Built(pushes[..n], schema).repeats <= Built(pushes, schema).repeats
  {
    hide TypeSize, PushSize;
    if n < |pushes| {
      BuiltExtends(pushes[..|pushes| - 1], schema, n);
      assert pushes[..|pushes| - 1][..n] == pushes[..n];
    } else {
      assert pushes[..n] == pushes;
    }
  }

  /** Every push has its entry in the record, in order and at the place the prefix sums give it; there is no other entry. */
  lemma EntriesAtSlots(pushes: seq<Push>, schema: Schema, i: nat)
    requires Known(pushes, schema) && i < |pushes|
    ensures Built(pushes, schema).offset == Total(pushes, schema)
    ensures |Built(pushes, schema).fields| == CountFields(pushes) && |Built(pushes, schema).repeats| == |pushes| - CountFields(pushes)
    ensures CountFields(pushes[..i]) <= i
    ensures pushes[i].FieldPush? ==>
      && CountFields(pushes[..i]) < CountFields(pushes)
      && Built(pushes, schema).fields[CountFields(pushes[..i])]
           == Field(pushes[i].name, pushes[i].ty, SlotStart(pushes, schema, i), PushSize(pushes[i], schema).value)
    ensures pushes[i].RepeatPush? ==>
      && i - CountFields(pushes[..i]) < |pushes| - CountFields(pushes)
      && Built(pushes, schema).repeats[i - CountFields(pushes[..i])]
           == Repeat(pushes[i].name, pushes[i].ty, pushes[i].maxCount, pushes[i].countField,
                     SlotStart(pushes, schema, i), TypeSize(pushes[i].ty, schema).value)
  {
    hide TypeSize, Total, Built, CountFields;
    BuiltSizes(pushes, schema);
    BuiltSizes(pushes[..i], schema);
    BuiltSizes(pushes[..i + 1], schema);
    FieldsAtMost(pushes[..i]);
    BuiltExtends(pushes, schema, i + 1);
    LastEntry(pushes, schema, i);
  }

  /** A push adds one entry behind those of the pushes before it. */
  lemma LastEntry(pushes: seq<Push>, schema: Schema, i: nat)
    requires Known(pushes, schema) && i < |pushes|
    ensures CountFields(pushes[..i + 1]) == CountFields(pushes[..i]) + if pushes[i].FieldPush? then 1 else 0
    ensures Built(pushes[..i + 1], schema) == AfterPush(Built(pushes[..i], schema), pushes[i], schema)
  {
    hide TypeSize, AfterPush;
    assert pushes[..i + 1][..i] == pushes[..i] && pushes[..i + 1][i] == pushes[i];
  }

  lemma {:induction false} BuiltSizes(pushes: seq<Push>, schema: Schema)
    requires Known(pushes, schema)
    ensures Built(pushes, schema).offset == Total(pushes, schema)
    ensures |Built(pushes, schema).fields| == CountFields(pushes) && |Built(pushes, schema).repeats| == |pushes| - CountFields(pushes)
  {
    if pushes != [] {
      BuiltSizes(pushes[..|pushes| - 1], schema);
    }
  }

  lemma {:induction false} FieldsAtMost(pushes: seq<Push>)
    ensures CountFields(pushes) <= |pushes|
    ensures CountFields(pushes) == |pushes| <==> forall i :: 0 <= i < |pushes| ==> pushes[i].FieldPush?
  {
    if pushes != [] {
      FieldsAtMost(pushes[..|pushes| - 1]);
    }
  }

  /** The push that a field of the record comes from. */
  function FieldSlot(pushes: seq<Push>, j: nat): (i: nat)
    requires j < CountFields(pushes)
    ensures i < |pushes| && pushes[i].FieldPush? && CountFields(pushes[..i]) == j
  {
    var n := |pushes| - 1;
    if j == CountFields(pushes[..n]) then n
    else
      var i := FieldSlot(pushes[..n], j);
      assert pushes[..n][..i] == pushes[..i];
      i
  }

  /** The push that a repeat of the record comes from. */
  function RepeatSlot(pushes: seq<Push>, j: nat): (i: nat)
    requires j + CountFields(pushes) < |pushes|
    ensures i < |pushes| && pushes[i].RepeatPush? && i == j + CountFields(pushes[..i])
  {
    var n := |pushes| - 1;
    if pushes[n].RepeatPush? && j + CountFields(pushes[..n]) == n then n
    else
      var i := RepeatSlot(pushes[..n], j);
      assert pushes[..n][..i] == pushes[..i];
      i
  }

  /** The fixed part of a record is exactly what was pushed before its first repeat. */
  lemma FixedPart(name: string, pushes: seq<Push>, schema: Schema, k: nat)
    requires Known(pushes, schema) && k <= |pushes|
    requires forall i :: 0 <= i < k ==> pushes[i].FieldPush?
    requires k < |pushes| ==> pushes[k].RepeatPush?
    ensures Finished(name, Built(pushes, schema)).fixedLen == SlotStart(pushes, schema, k)
    ensures Finished(name, Built(pushes, schema)).maxLen == Total(pushes, schema)
    ensures forall i: nat :: i < |pushes| ==>
      (i < k ==> SlotStart(pushes, schema, i) + PushSize(pushes[i], schema).value <= SlotStart(pushes, schema, k)) &&
      (i >= k ==> SlotStart(pushes, schema, k) <= SlotStart(pushes, schema, i))
  {
    BuiltSizes(pushes, schema);
    FieldsAtMost(pushes);
    FieldsAtMost(pushes[..k]);
    assert pushes[..|pushes|] == pushes;
    if k < |pushes| {
      EntriesAtSlots(pushes, schema, k);
    }
    forall i: nat | i < |pushes|
      ensures i < k ==> SlotStart(pushes, schema, i) + PushSize(pushes[i], schema).value <= SlotStart(pushes, schema, k)
      ensures i >= k ==> SlotStart(pushes, schema, k) <= SlotStart(pushes, schema, i)
    {
      if i < k {
        SlotEnds(pushes, schema, i);
        SlotsOrdered(pushes, schema, i + 1, k);
      } else {
        SlotsOrdered(pushes, schema, k, i);
      }
    }
  }

  // ----- Parsing -----

  /** A list of entries in insertion order, in which no key occurs twice. */
  class OrderedMap<V> {
    var entries: seq<(string, V)>

    constructor ()
      ensures entries == [] && Contents() == map[]
    {
      entries := [];
    }

    predicate Valid()
      reads this
    {
      forall i, j :: 0 <= i < j < |entries| ==> entries[i].0 != entries[j].0
    }

    function Contents(): map<string, V>
      reads this
    {
      AsMap(entries)
    }

    /** Returns false where the build panics on a key that is already there. */
    method Insert(key: string, value: V) returns (ok: bool)
      requires Valid()
      modifies this
      ensures Valid()
      ensures ok == (key !in old(Contents()))
      ensures entries == if ok then old(entries) + [(key, value)] else old(entries)
      ensures Contents() == if ok then old(Contents())[key := value] else old(Contents())
    {
      AsMapEntries(entries);
      var i := 0;
      while i < |entries|
        invariant 0 <= i <= |entries| && entries == old(entries)
        invariant forall k :: 0 <= k < i ==> entries[k].0 != key
      {
        if entries[i].0 == key { return false; }
        i := i + 1;
      }
      entries := entries + [(key, value)];
      assert entries[..|entries| - 1] == old(entries);
      ok := true;
    }

    method Get(key: string) returns (r: Option<V>)
      requires Valid()
      ensures r == if key in Contents() then Some(Contents()[key]) else None
    {
      AsMapEntries(entries);
      var i := 0;
      while i < |entries|
        invariant 0 <= i <= |entries|
        invariant forall k :: 0 <= k < i ==> entries[k].0 != key
      {
        if entries[i].0 == key { return Some(entries[i].1); }
        i := i + 1;
      }
      r := None;
    }
  }

  function AsMap<V>(entries: seq<(string, V)>): map<string, V> {
    if entries == [] then map[]
    else AsMap(entries[..|entries| - 1])[entries[|entries| - 1].0 := entries[|entries| - 1].1]
  }

  lemma {:induction false} AsMapEntries<V>(entries: seq<(string, V)>)
    requires forall i, j :: 0 <= i < j < |entries| ==> entries[i].0 != entries[j].0
    ensures forall key :: key in AsMap(entries) <==> exists i :: 0 <= i < |entries| && entries[i].0 == key
    ensures forall i :: 0 <= i < |entries| ==> entries[i].0 in AsMap(entries) && AsMap(entries)[entries[i].0] == entries[i].1
  {
    if entries != [] {
      AsMapEntries(entries[..|entries| - 1]);
    }
  }

  datatype Line =
    | LimitLine(name: string, value: nat)
    | RecordLine(name: string)
    | PushLine(push: Push)
    | EndLine

  datatype OpenRecord = OpenRecord(name: string, pushes: seq<Push>)

  datatype ParseState = ParseState(schema: Schema, current: Option<OpenRecord>)

  /** What the lines read so far amount to; `None` once the build has panicked. */
  function Parse(lines: seq<Line>): Option<ParseState> {
    if lines == [] then Some(ParseState(Schema(map[], map[]), None))
    else
      var before := Parse(lines[..|lines| - 1]);
      if before.None? then None else ParseLine(before.value, lines[|lines| - 1])
  }

  function ParseLine(state: ParseState, line: Line): Option<ParseState> {
    var schema, current := state.schema, state.current;
    match line
    case LimitLine(name, value) =>
      if name in schema.limits then None
      else Some(ParseState(schema.(limits := schema.limits[name := value]), current))
    case RecordLine(name) =>
      if current.Some? then None else Some(ParseState(schema, Some(OpenRecord(name, []))))
    case PushLine(push) =>
      if current.None? || PushSize(push, schema).None? then None
      else Some(ParseState(schema, Some(OpenRecord(current.value.name, current.value.pushes + [push]))))
    case EndLine =>
      if current.None? || current.value.name in schema.records || !Known(current.value.pushes, schema) then None
      else
        var record := Finished(current.value.name, Built(current.value.pushes, schema));
        Some(ParseState(schema.(records := schema.records[record.name := record]), None))
  }

  lemma {:induction false} GrownSchema(pushes: seq<Push>, schema: Schema, grown: Schema)
    requires Known(pushes, schema) && Grown(schema, grown)
    ensures Known(pushes, grown) && Built(pushes, grown) == Built(pushes, schema)
  {
    if pushes != [] {
      GrownSchema(pushes[..|pushes| - 1], schema, grown);
      GrownPush(pushes[|pushes| - 1], schema, grown);
    }
  }

  ghost predicate Grown(schema: Schema, grown: Schema) {
    && (forall l :: l in schema.limits ==> l in grown.limits && grown.limits[l] == schema.limits[l])
    && (forall r :: r in schema.records ==> r in grown.records && grown.records[r] == schema.records[r])
  }

  lemma GrownPush(push: Push, schema: Schema, grown: Schema)
    requires PushSize(push, schema).Some? && Grown(schema, grown)
    ensures PushSize(push, grown) == PushSize(push, schema) && TypeSize(push.ty, grown) == TypeSize(push.ty, schema)
  {
    hide Upper;
  }

  /** The record that opens at line a is closed by line b. */
  ghost predicate Block(lines: seq<Line>, a: nat, b: nat) {
    && a < b < |lines| && lines[a].RecordLine? && lines[b].EndLine?
    && forall k :: a < k < b ==> !lines[k].EndLine?
  }

  function PushesIn(lines: seq<Line>): seq<Push> {
    if lines == [] then []
    else PushesIn(lines[..|lines| - 1]) + if lines[|lines| - 1].PushLine? then [lines[|lines| - 1].push] else []
  }

  /** Record a..b of the lines is in the schema, laid out by its own push lines. */
  ghost predicate Laid(lines: seq<Line>, schema: Schema, a: nat, b: nat)
    requires Block(lines, a, b)
  {
    var name, pushes := lines[a].name, PushesIn(lines[a + 1..b]);
    name in schema.records && Known(pushes, schema) && schema.records[name] == Finished(name, Built(pushes, schema))
  }

  /** The open record started at line s; every record opened before it was closed before it. */
  ghost predicate OpenAt(lines: seq<Line>, current: OpenRecord, s: nat) {
    && s < |lines| && lines[s] == RecordLine(current.name)
    && current.pushes == PushesIn(lines[s + 1..])
    && (forall k :: s < k < |lines| ==> !lines[k].EndLine? && !lines[k].RecordLine?)
    && AllClosed(lines[..s])
  }

  ghost predicate AllClosed(lines: seq<Line>) {
    forall a :: 0 <= a < |lines| && lines[a].RecordLine? ==> exists b: nat :: Block(lines, a, b)
  }

  /** What the lines and the state read from them have to do with each other. */
  ghost predicate Sound(lines: seq<Line>, state: ParseState) {
    && (forall a: nat, b: nat :: Block(lines, a, b) ==> Laid(lines, state.schema, a, b))
    && (forall name :: name in state.schema.records ==> exists a: nat, b: nat :: Block(lines, a, b) && lines[a].name == name)
    && (state.current.None? ==> AllClosed(lines))
    && (state.current.Some? ==> Known(state.current.value.pushes, state.schema) && exists s: nat :: OpenAt(lines, state.current.value, s))
  }

  lemma BlockExtends(lines: seq<Line>, line: Line, a: nat, b: nat)
    ensures Block(lines, a, b) ==> Block(lines + [line], a, b) && (lines + [line])[a + 1..b] == lines[a + 1..b]
    ensures b < |lines| && Block(lines + [line], a, b) ==> Block(lines, a, b)
  {
    if b < |lines| && Block(lines + [line], a, b) {
      forall k | a < k < b ensures !lines[k].EndLine? {
        assert (lines + [line])[k] == lines[k];
      }
    }
  }

  /** Blocks that were laid out stay laid out when the schema grows. */
  lemma LaidStays(lines: seq<Line>, line: Line, state: ParseState, grown: Schema)
    requires Sound(lines, state) && Grown(state.schema, grown)
    ensures forall a: nat, b: nat :: Block(lines + [line], a, b) && b < |lines| ==> Laid(lines + [line], grown, a, b)
    ensures forall name :: name in state.schema.records ==>
      exists a: nat, b: nat :: Block(lines + [line], a, b) && (lines + [line])[a].name == name
  {
    hide Finished, Built, Known, PushesIn;
    forall a: nat, b: nat | Block(lines + [line], a, b) && b < |lines| ensures Laid(lines + [line], grown, a, b) {
      BlockExtends(lines, line, a, b);
      assert Laid(lines, state.schema, a, b);
      GrownSchema(PushesIn(lines[a + 1..b]), state.schema, grown);
    }
    forall name | name in state.schema.records
      ensures exists a: nat, b: nat :: Block(lines + [line], a, b) && (lines + [line])[a].name == name
    {
      var a: nat, b: nat :| Block(lines, a, b) && lines[a].name == name;
      BlockExtends(lines, line, a, b);
    }
  }

  lemma AllClosedExtends(lines: seq<Line>, line: Line)
    requires AllClosed(lines) && !line.RecordLine?
    ensures AllClosed(lines + [line])
  {
    var longer := lines + [line];
    forall a | 0 <= a < |longer| && longer[a].RecordLine? ensures exists b: nat :: Block(longer, a, b) {
      var b: nat :| Block(lines, a, b);
      BlockExtends(lines, line, a, b);
    }
  }

  lemma OpenStays(lines: seq<Line>, line: Line, current: OpenRecord, s: nat)
    requires OpenAt(lines, current, s) && !line.RecordLine? && !line.EndLine?
    ensures OpenAt(lines + [line], OpenRecord(current.name, current.pushes + if line.PushLine? then [line.push] else []), s)
  {
    hide PushesIn, AllClosed;
    assert (lines + [line])[..s] == lines[..s];
    assert (lines + [line])[s + 1..] == lines[s + 1..] + [line];
    PushesStep(lines[s + 1..], line);
  }

  lemma PushesStep(lines: seq<Line>, line: Line)
    ensures PushesIn(lines + [line]) == PushesIn(lines) + if line.PushLine? then [line.push] else []
  {
    assert (lines + [line])[..|lines|] == lines;
  }

  /** Only the open record can be closed by the next end line. */
  lemma ClosesOpen(lines: seq<Line>, current: OpenRecord, s: nat)
    requires OpenAt(lines, current, s)
    ensures forall a: nat :: Block(lines + [EndLine], a, |lines|) <==> a == s
    ensures PushesIn((lines + [EndLine])[s + 1..|lines|]) == current.pushes
    ensures AllClosed(lines + [EndLine])
  {
    hide PushesIn;
    var longer := lines + [EndLine];
    assert longer[s + 1..|lines|] == lines[s + 1..];
    assert Block(longer, s, |lines|);
    forall a: nat | a < |longer| && longer[a].RecordLine? && a != s
      ensures exists b: nat :: b < |lines| && Block(longer, a, b)
    {
      var b: nat :| Block(lines[..s], a, b);
      assert Block(longer, a, b) by {
        forall k | a < k < b ensures !longer[k].EndLine? {
          assert lines[..s][k] == longer[k];
        }
      }
    }
  }

  lemma Opens(lines: seq<Line>, name: string)
    requires AllClosed(lines)
    ensures OpenAt(lines + [RecordLine(name)], OpenRecord(name, []), |lines|)
  {
    assert (lines + [RecordLine(name)])[..|lines|] == lines;
  }

  /** The line that opens, fills or passes over a record. */
  lemma NextIsOpen(lines: seq<Line>, line: Line, state: ParseState, next: ParseState)
    requires Sound(lines, state) && ParseLine(state, line) == Some(next) && !line.EndLine?
    ensures next.current.None? ==> AllClosed(lines + [line])
    ensures next.current.Some? ==> Known(next.current.value.pushes, next.schema) && exists s: nat :: OpenAt(lines + [line], next.current.value, s)
  {
    hide Block, Laid, OpenAt, AllClosed, PushSize, PushesIn, Built;
    if line.RecordLine? {
      Opens(lines, line.name);
    } else if state.current.Some? {
      var s: nat :| OpenAt(lines, state.current.value, s);
      OpenStays(lines, line, state.current.value, s);
      GrownSchema(state.current.value.pushes, state.schema, next.schema);
      assert next.current.value == OpenRecord(state.current.value.name, state.current.value.pushes + if line.PushLine? then [line.push] else []);
    } else {
      AllClosedExtends(lines, line);
    }
  }

  lemma SoundStep(lines: seq<Line>, line: Line, state: ParseState, next: ParseState)
    requires Sound(lines, state) && ParseLine(state, line) == Some(next)
    ensures Sound(lines + [line], next)
  {
    hide Built, Known, PushesIn, OpenAt, AllClosed, PushSize;
    LaidStays(lines, line, state, next.schema);
    if line.EndLine? {
      var s: nat :| OpenAt(lines, state.current.value, s);
      ClosesOpen(lines, state.current.value, s);
      GrownSchema(state.current.value.pushes, state.schema, next.schema);
      OpenName(lines, state.current.value, s);
      var longer := lines + [line];
      assert Block(longer, s, |lines|) && Laid(longer, next.schema, s, |lines|);
      forall a: nat, b: nat | Block(longer, a, b) ensures Laid(longer, next.schema, a, b) {
        assert b < |lines| || b == |lines|;
      }
    } else {
      NextIsOpen(lines, line, state, next);
    }
  }

  lemma OpenName(lines: seq<Line>, current: OpenRecord, s: nat)
    requires OpenAt(lines, current, s)
    ensures s < |lines| && (lines + [EndLine])[s] == RecordLine(current.name)
  {
  }

  lemma NothingParsed()
    ensures Parse([]).Some? && Sound([], Parse([]).value)
  {
  }

  lemma {:induction false} ParseIsSound(lines: seq<Line>)
    requires Parse(lines).Some?
    ensures Sound(lines, Parse(lines).value)
  {
    if lines == [] {
      NothingParsed();
    } else {
      hide Sound, ParseLine;
      var init := lines[..|lines| - 1];
      ParseIsSound(init);
      SoundStep(init, lines[|lines| - 1], Parse(init).value, Parse(lines).value);
      assert lines == init + [lines[|lines| - 1]];
    }
  }

  /** The records of a parsed schema are exactly the blocks of its lines, and each has the layout of its own push
      lines under the finished schema: a later line never changes what an earlier record means. */
  lemma ParsedRecords(lines: seq<Line>)
    requires Parse(lines).Some?
    ensures forall a: nat, b: nat :: Block(lines, a, b) ==> Laid(lines, Parse(lines).value.schema, a, b)
    ensures forall name :: name in Parse(lines).value.schema.records ==>
      exists a: nat, b: nat :: Block(lines, a, b) && lines[a].name == name
  {
    hide Parse, Block, Laid;
    ParseIsSound(lines);
  }

  lemma NoPushes(schema: Schema)
    ensures Known([], schema) && Built([], schema) == Layout([], [], 0)
  {
  }

  lemma OnePush(pushes: seq<Push>, push: Push, schema: Schema)
    requires Known(pushes, schema) && PushSize(push, schema).Some?
    ensures Known(pushes + [push], schema) && Built(pushes + [push], schema) == AfterPush(Built(pushes, schema), push, schema)
  {
    assert (pushes + [push])[..|pushes|] == pushes;
  }

  /** The record handling of `parse_schema`; `None` where it panics. */
  method ParseSchema(lines: seq<Line>) returns (r: Option<Schema>)
    ensures r.Some? <==> Parse(lines).Some? && Parse(lines).value.current.None?
    ensures r.Some? ==> r.value == Parse(lines).value.schema
  {
    hide AsMap, AfterPush, Built, Known, TypeSize, Parse, FirstRepeat, Total, SlotStart;
    ParseNone();
    var limits := new OrderedMap<nat>();
    var records := new OrderedMap<Record>();
    var current: Option<RecordBuilder> := None;
    var schema := Schema(map[], map[]);
    ghost var pushes: seq<Push> := [];
    var i := 0;
    while i < |lines|
      invariant 0 <= i <= |lines|
      invariant fresh(limits) && fresh(records) && limits.Valid() && records.Valid()
      invariant schema == Schema(limits.Contents(), records.Contents())
      invariant current.Some? ==> fresh(current.value)
      invariant Parse(lines[..i]) == Some(ParseState(schema, if current.None? then None else Some(OpenRecord(current.value.name, pushes))))
      invariant current.Some? ==> Known(pushes, schema)
      invariant current.Some? ==> current.value.Contents() == Built(pushes, schema)
    {
      ParseOne(lines, i);
      PrefixParses(lines, i + 1);
      match lines[i] {
        case LimitLine(name, value) =>
          var ok := limits.Insert(name, value);
          if !ok { return None; }
          if current.Some? { GrownSchema(pushes, schema, Schema(limits.Contents(), records.Contents())); }
        case RecordLine(name) =>
          if current.Some? { return None; }
          var builder := new RecordBuilder(name);
          NoPushes(schema);
          current, pushes := Some(builder), [];
        case PushLine(push) =>
          if current.None? { return None; }
          var ok;
          if push.FieldPush? {
            ok := current.value.PushField(push.name, push.ty, schema);
          } else {
            ok := current.value.PushRepeat(push.name, push.ty, push.maxCount, push.countField, schema);
          }
          if !ok { return None; }
          OnePush(pushes, push, schema);
          pushes := pushes + [push];
        case EndLine =>
          if current.None? { return None; }
          var record := current.value.Finish(pushes, schema);
          var ok := records.Insert(record.name, record);
          if !ok { return None; }
          current := None;
      }
      schema := Schema(limits.Contents(), records.Contents());
      i := i + 1;
    }
    assert lines[..|lines|] == lines;
    if current.Some? { return None; }
    r := Some(schema);
  }

  lemma ParseNone()
    ensures forall lines: seq<Line> :: Parse(lines[..0]) == Some(ParseState(Schema(map[], map[]), None))
  {
  }

  lemma ParseOne(lines: seq<Line>, i: nat)
    requires i < |lines|
    ensures Parse(lines[..i + 1]) == if Parse(lines[..i]).None? then None else ParseLine(Parse(lines[..i]).value, lines[i])
  {
    hide ParseLine;
    assert lines[..i + 1][..i] == lines[..i];
  }

  /** A panic on a prefix is a panic on the whole. */
  lemma {:induction false} PrefixParses(lines: seq<Line>, n: nat)
    requires n <= |lines|
    ensures Parse(lines[..n]).None? ==> Parse(lines).None?
  {
    if n < |lines| {
      PrefixParses(lines[..|lines| - 1], n);
      assert lines[..|lines| - 1][..n] == lines[..n];
    } else {
      assert lines[..n] == lines;
    }
  }
}
