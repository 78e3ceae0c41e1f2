/** The byte codec of the hub swap program: bounds-checked reads and writes at fixed offsets of an account's data. */
module Codec {
  import opened Wrappers
  import opened HubAbi

  /** `usize` on the 64-bit target. */
  const USIZE_MAX := 0xffff_ffff_ffff_ffff

  type Usize = n: nat | n <= USIZE_MAX

  datatype ProgramError = InvalidInstructionData

  // ----- Reads -----

  function ReadFixed(data: seq<Byte>, offset: Usize, n: Usize): Result<seq<Byte>, ProgramError> {
    if offset + n > USIZE_MAX then Err(InvalidInstructionData)
    else if offset + n > |data| then Err(InvalidInstructionData)
    else Ok(data[offset..offset + n])
  }

  function ReadU8At(data: seq<Byte>, offset: Usize): Result<Byte, ProgramError> {
    if offset < |data| then Ok(data[offset]) else Err(InvalidInstructionData)
  }

  function ReadUintAt(data: seq<Byte>, offset: Usize, n: Usize): Result<nat, ProgramError> {
    var bytes := ReadFixed(data, offset, n);
    if bytes.Ok? then Ok(FromLe(bytes.value)) else Err(bytes.error)
  }

  function ReadU16At(data: seq<Byte>, offset: Usize): Result<nat, ProgramError> {
    ReadUintAt(data, offset, 2)
  }

  function ReadU64At(data: seq<Byte>, offset: Usize): Result<nat, ProgramError> {
    ReadUintAt(data, offset, 8)
  }

  function ReadPubkeyAt(data: seq<Byte>, offset: Usize): Result<seq<Byte>, ProgramError> {
    ReadFixed(data, offset, 32)
  }

  // ----- Little-endian numbers -----

  function FromLe(bytes: seq<Byte>): nat {
    if bytes == [] then 0 else bytes[0] + 256 * FromLe(bytes[1..])
  }

  function ToLe(value: nat, n: nat): seq<Byte> {
    if n == 0 then [] else [value % 256] + ToLe(value / 256, n - 1)
  }

  function Power256(n: nat): nat {
    if n == 0 then 1 else 256 * Power256(n - 1)
  }

  lemma LowByte(b: Byte, rest: nat)
    ensures (b + 256 * rest) % 256 == b && (b + 256 * rest) / 256 == rest
  {
  }

  lemma LeSteps(value: nat, n: nat, bytes: seq<Byte>)
    requires n > 0
    ensures ToLe(value, n) == [value % 256] + ToLe(value / 256, n - 1) && Power256(n) == 256 * Power256(n - 1)
    ensures bytes != [] ==> FromLe(bytes) == bytes[0] + 256 * FromLe(bytes[1..])
  {
  }

  lemma {:induction false} ToLeReadsBack(value: nat, n: nat)
    requires value < Power256(n)
    ensures |ToLe(value, n)| == n && FromLe(ToLe(value, n)) == value
    decreases n
  {
    if n > 0 {
      hide ToLe, FromLe, Power256;
      var bytes := ToLe(value, n);
      LeSteps(value, n, bytes);
      ToLeReadsBack(value / 256, n - 1);
      assert bytes[1..] == ToLe(value / 256, n - 1);
    }
  }

  lemma {:induction false} FromLeWritesBack(bytes: seq<Byte>)
    ensures FromLe(bytes) < Power256(|bytes|) && ToLe(FromLe(bytes), |bytes|) == bytes
  {
    if bytes != [] {
      hide ToLe, FromLe, Power256;
      var rest := bytes[1..];
      FromLeWritesBack(rest);
      LeSteps(FromLe(bytes), |bytes|, bytes);
      LowByte(bytes[0], FromLe(rest));
      assert bytes == [bytes[0]] + rest;
    }
  }

  // ----- The write -----

  predicate Fits(data: seq<Byte>, offset: Usize, bytes: seq<Byte>) {
    offset + |bytes| <= |data|
  }

  function Written(data: seq<Byte>, offset: Usize, bytes: seq<Byte>): seq<Byte>
    requires Fits(data, offset, bytes)
  {
    data[..offset] + bytes + data[offset + |bytes|..]
  }

  /** Rust slices never hold more than `usize::MAX` bytes. */
  method WriteBytesAt(data: array<Byte>, offset: Usize, bytes: seq<Byte>) returns (r: Result<(), ProgramError>)
    requires data.Length <= USIZE_MAX && |bytes| <= USIZE_MAX
    modifies data
    ensures r == if Fits(old(data[..]), offset, bytes) then Ok(()) else Err(InvalidInstructionData)
    ensures data[..] == if r.Ok? then Written(old(data[..]), offset, bytes) else old(data[..])
  {
    if offset + |bytes| > USIZE_MAX { return Err(InvalidInstructionData); }
    if offset + |bytes| > data.Length { return Err(InvalidInstructionData); }
    var i := 0;
    while i < |bytes|
      invariant 0 <= i <= |bytes|
      invariant forall x :: 0 <= x < data.Length ==>
        data[x] == if offset <= x < offset + i then bytes[x - offset] else old(data[x])
    {
      data[offset + i] := bytes[i];
      i := i + 1;
    }
    r := Ok(());
  }

  /** Reads succeed exactly inside the data. */
  lemma ReadExactly(data: seq<Byte>, offset: Usize, n: Usize)
    requires |data| <= USIZE_MAX
    ensures ReadFixed(data, offset, n).Ok? <==> offset + n <= |data|
    ensures ReadU8At(data, offset).Ok? <==> ReadFixed(data, offset, 1).Ok?
    ensures ReadU8At(data, offset).Ok? ==> ReadFixed(data, offset, 1).value == [ReadU8At(data, offset).value]
  {
  }

  lemma NumberReadsBack(data: seq<Byte>, offset: Usize, value: nat, n: Usize)
    requires |data| <= USIZE_MAX && value < Power256(n) && offset + n <= |data|
    ensures Fits(data, offset, ToLe(value, n))
    ensures ReadUintAt(Written(data, offset, ToLe(value, n)), offset, n) == Ok(value)
  {
    ToLeReadsBack(value, n);
    assert Written(data, offset, ToLe(value, n))[offset..offset + n] == ToLe(value, n);
  }

  lemma Powers()
    ensures Power256(2) == 0x1_0000 && Power256(8) == 0x1_0000_0000_0000_0000
  {
    assert Power256(4) == 256 * Power256(3) && Power256(6) == 256 * Power256(5) && Power256(2) == 256 * Power256(1);
  }

  /** What was written as a 16-bit number, a 64-bit number or a key is read as that. */
  lemma TypedValuesReadBack(data: seq<Byte>, offset: Usize, value: nat, key: seq<Byte>)
    requires |data| <= USIZE_MAX
    ensures value < 0x1_0000 && offset + 2 <= |data| ==>
      Fits(data, offset, ToLe(value, 2)) && ReadU16At(Written(data, offset, ToLe(value, 2)), offset) == Ok(value)
    ensures value < 0x1_0000_0000_0000_0000 && offset + 8 <= |data| ==>
      Fits(data, offset, ToLe(value, 8)) && ReadU64At(Written(data, offset, ToLe(value, 8)), offset) == Ok(value)
    ensures |key| == 32 && offset + 32 <= |data| ==> ReadPubkeyAt(Written(data, offset, key), offset) == Ok(key)
  {
    hide Power256, ToLe, ReadUintAt;
    Powers();
    if value < 0x1_0000 && offset + 2 <= |data| { NumberReadsBack(data, offset, value, 2); }
    if value < 0x1_0000_0000_0000_0000 && offset + 8 <= |data| { NumberReadsBack(data, offset, value, 8); }
    if |key| == 32 && offset + 32 <= |data| {
      assert Written(data, offset, key)[offset..offset + 32] == key;
    }
  }

  /** A slot of a built-in type is as wide as the read of that type: it can be read exactly where it fits. */
  lemma TypeWidths(schema: Schema, data: seq<Byte>, offset: Usize)
    requires |data| <= USIZE_MAX
    ensures TypeSize("bool", schema) == TypeSize("u8", schema)
    ensures TypeSize("bytes8", schema).Some? && (ReadFixed(data, offset, 8).Ok? <==> offset + TypeSize("bytes8", schema).value <= |data|)
    ensures TypeSize("u8", schema).Some? && (ReadU8At(data, offset).Ok? <==> offset + TypeSize("u8", schema).value <= |data|)
    ensures TypeSize("u16", schema).Some? && (ReadU16At(data, offset).Ok? <==> offset + TypeSize("u16", schema).value <= |data|)
    ensures TypeSize("u64", schema).Some? && (ReadU64At(data, offset).Ok? <==> offset + TypeSize("u64", schema).value <= |data|)
    ensures TypeSize("pubkey", schema).Some? && (ReadPubkeyAt(data, offset).Ok? <==> offset + TypeSize("pubkey", schema).value <= |data|)
  {
  }

  // ----- Writing a whole record -----

  /** Bytes meant for one slot of the record. */
  datatype SlotWrite = SlotWrite(slot: nat, bytes: seq<Byte>)

  ghost predicate ForRecord(writes: seq<SlotWrite>, pushes: seq<Push>, schema: Schema)
    requires Known(pushes, schema)
  {
    && (forall w :: w in writes ==> w.slot < |pushes| && |w.bytes| == PushSize(pushes[w.slot], schema).value)
    && (forall i, j :: 0 <= i < j < |writes| ==> writes[i].slot != writes[j].slot)
  }

  /** The data can hold a record of these pushes. */
  ghost predicate Holds(data: seq<Byte>, pushes: seq<Push>, schema: Schema)
    requires Known(pushes, schema)
  {
    Total(pushes, schema) <= |data| <= USIZE_MAX
  }

  /** One write after the other, each at its slot's offset. */
  ghost function WrittenAll(data: seq<Byte>, writes: seq<SlotWrite>, pushes: seq<Push>, schema: Schema): seq<Byte>
    requires Known(pushes, schema) && ForRecord(writes, pushes, schema) && Holds(data, pushes, schema)
    ensures |WrittenAll(data, writes, pushes, schema)| == |data|
  {
    if writes == [] then data
    else
      var before := WrittenAll(data, writes[..|writes| - 1], pushes, schema);
      var w := writes[|writes| - 1];
      SlotFits(pushes, schema, w.slot);
      Written(before, SlotStart(pushes, schema, w.slot), w.bytes)
  }

  lemma SlotFits(pushes: seq<Push>, schema: Schema, i: nat)
    requires Known(pushes, schema) && i < |pushes|
    ensures SlotStart(pushes, schema, i) + PushSize(pushes[i], schema).value <= Total(pushes, schema)
  {
    SlotEnds(pushes, schema, i);
    SlotsOrdered(pushes, schema, i + 1, |pushes|);
    assert pushes[..|pushes|] == pushes;
  }

  /** What byte x holds after the writes: the byte written to its slot, or what was there. */
  ghost predicate ByteAfter(data: seq<Byte>, writes: seq<SlotWrite>, pushes: seq<Push>, schema: Schema, x: nat, after: Byte)
    requires Known(pushes, schema) && ForRecord(writes, pushes, schema) && x < |data|
  {
    && (forall w :: w in writes && InSlot(pushes, schema, w.slot, x) ==> after == w.bytes[x - SlotStart(pushes, schema, w.slot)])
    && ((forall w :: w in writes ==> !InSlot(pushes, schema, w.slot, x)) ==> after == data[x])
  }

  lemma WriteAtSlot(data: seq<Byte>, start: Usize, bytes: seq<Byte>, x: nat)
    requires Fits(data, start, bytes) && x < |data|
    ensures Written(data, start, bytes)[x] == if start <= x < start + |bytes| then bytes[x - start] else data[x]
  {
  }

  lemma {:induction false} EveryByteAfter(data: seq<Byte>, writes: seq<SlotWrite>, pushes: seq<Push>, schema: Schema, x: nat)
    requires Known(pushes, schema) && ForRecord(writes, pushes, schema) && Holds(data, pushes, schema) && x < |data|
    ensures ByteAfter(data, writes, pushes, schema, x, WrittenAll(data, writes, pushes, schema)[x])
  {
    hide SlotStart, PushSize, Total, Known, Written;
    if writes != [] {
      var init, w := writes[..|writes| - 1], writes[|writes| - 1];
      EveryByteAfter(data, init, pushes, schema, x);
      SlotFits(pushes, schema, w.slot);
      WriteAtSlot(WrittenAll(data, init, pushes, schema), SlotStart(pushes, schema, w.slot), w.bytes, x);
      SlotsTile(pushes, schema, x);
      assert w in writes;
      var before, after := WrittenAll(data, init, pushes, schema), WrittenAll(data, writes, pushes, schema);
      assert after == Written(before, SlotStart(pushes, schema, w.slot), w.bytes);
      forall v | v in writes && InSlot(pushes, schema, v.slot, x)
        ensures after[x] == v.bytes[x - SlotStart(pushes, schema, v.slot)]
      {
        if v != w {
          var k :| 0 <= k < |init| && init[k] == v;
          assert writes[k].slot != writes[|writes| - 1].slot;
          assert !InSlot(pushes, schema, w.slot, x);
          assert after[x] == before[x];
          assert v in init;
        } else {
          assert after[x] == w.bytes[x - SlotStart(pushes, schema, w.slot)];
        }
      }
      assert forall v :: v in init ==> v in writes;
    }
  }

  /** A write to a slot reads back exactly, whatever the order of the writes around it. */
  lemma WriteReadsBack(data: seq<Byte>, writes: seq<SlotWrite>, pushes: seq<Push>, schema: Schema, w: SlotWrite)
    requires Known(pushes, schema) && ForRecord(writes, pushes, schema) && Holds(data, pushes, schema) && w in writes
    ensures SlotStart(pushes, schema, w.slot) + |w.bytes| <= |data|
    ensures ReadFixed(WrittenAll(data, writes, pushes, schema), SlotStart(pushes, schema, w.slot), |w.bytes|) == Ok(w.bytes)
  {
    hide SlotStart, PushSize, Total, Known, WrittenAll;
    SlotFits(pushes, schema, w.slot);
    var start, after := SlotStart(pushes, schema, w.slot), WrittenAll(data, writes, pushes, schema);
    forall k: nat | k < |w.bytes| ensures after[start + k] == w.bytes[k] {
      EveryByteAfter(data, writes, pushes, schema, start + k);
      assert InSlot(pushes, schema, w.slot, start + k);
    }
    assert after[start..start + |w.bytes|] == w.bytes;
  }

  /** A slot that is not written keeps its bytes. */
  lemma OtherSlotKept(data: seq<Byte>, writes: seq<SlotWrite>, pushes: seq<Push>, schema: Schema, i: nat)
    requires Known(pushes, schema) && ForRecord(writes, pushes, schema) && Holds(data, pushes, schema)
    requires i < |pushes| && forall w :: w in writes ==> w.slot != i
    ensures SlotStart(pushes, schema, i) + PushSize(pushes[i], schema).value <= |data|
    ensures ReadFixed(WrittenAll(data, writes, pushes, schema), SlotStart(pushes, schema, i), PushSize(pushes[i], schema).value)
         == ReadFixed(data, SlotStart(pushes, schema, i), PushSize(pushes[i], schema).value)
  {
    hide SlotStart, PushSize, Total, WrittenAll;
    SlotFits(pushes, schema, i);
    var start, size, after := SlotStart(pushes, schema, i), PushSize(pushes[i], schema).value, WrittenAll(data, writes, pushes, schema);
    forall x: nat | start <= x < start + size ensures after[x] == data[x] {
      EveryByteAfter(data, writes, pushes, schema, x);
      SlotsTile(pushes, schema, x);
      assert InSlot(pushes, schema, i, x);
    }
    assert after[start..start + size] == data[start..start + size];
  }

  /** Nothing behind the record is touched. */
  lemma BehindKept(data: seq<Byte>, writes: seq<SlotWrite>, pushes: seq<Push>, schema: Schema)
    requires Known(pushes, schema) && ForRecord(writes, pushes, schema) && Holds(data, pushes, schema)
    ensures WrittenAll(data, writes, pushes, schema)[Total(pushes, schema)..] == data[Total(pushes, schema)..]
  {
    hide SlotStart, PushSize, Total, Known, WrittenAll;
    forall x: nat | Total(pushes, schema) <= x < |data| ensures WrittenAll(data, writes, pushes, schema)[x] == data[x] {
      EveryByteAfter(data, writes, pushes, schema, x);
      SlotsTile(pushes, schema, x);
    }
  }

  /** The order of the writes does not matter. */
  lemma WriteOrderIrrelevant(data: seq<Byte>, writes: seq<SlotWrite>, others: seq<SlotWrite>, pushes: seq<Push>, schema: Schema)
    requires Known(pushes, schema) && ForRecord(writes, pushes, schema) && ForRecord(others, pushes, schema) && Holds(data, pushes, schema)
    requires forall w :: w in writes <==> w in others
    ensures WrittenAll(data, writes, pushes, schema) == WrittenAll(data, others, pushes, schema)
  {
    hide WrittenAll, ForRecord, Known, SlotStart;
    forall x: nat | x < |data| ensures WrittenAll(data, writes, pushes, schema)[x] == WrittenAll(data, others, pushes, schema)[x] {
      EveryByteAfter(data, writes, pushes, schema, x);
      EveryByteAfter(data, others, pushes, schema, x);
    }
  }

  // ----- From the schema to the bytes -----

  /** A field of a record, or one item of a repeat. */
  datatype Cell = FieldCell(field: nat) | ItemCell(repeat: nat, item: nat)

  predicate HasCell(record: Record, limits: map<string, nat>, cell: Cell) {
    match cell
    case FieldCell(j) => j < |record.fields|
    case ItemCell(j, k) => j < |record.repeats| && record.repeats[j].maxCount in limits && k < limits[record.repeats[j].maxCount]
  }

  /** Where the cell lies, from the offsets and sizes that the record gives. */
  function CellStart(record: Record, limits: map<string, nat>, cell: Cell): nat
    requires HasCell(record, limits, cell)
  {
    match cell
    case FieldCell(j) => record.fields[j].offset
    case ItemCell(j, k) => record.repeats[j].offset + k * record.repeats[j].itemSize
  }

  function CellSize(record: Record, limits: map<string, nat>, cell: Cell): nat
    requires HasCell(record, limits, cell)
  {
    match cell
    case FieldCell(j) => record.fields[j].size
    case ItemCell(j, k) => record.repeats[j].itemSize
  }

  ghost predicate InCell(record: Record, limits: map<string, nat>, cell: Cell, x: nat)
    requires HasCell(record, limits, cell)
  {
    CellStart(record, limits, cell) <= x < CellStart(record, limits, cell) + CellSize(record, limits, cell)
  }

  /** Different cells have no byte in common, and all lie inside the record. */
  ghost predicate Tidy(record: Record, limits: map<string, nat>) {
    && (forall c, d, x: nat ::
          (HasCell(record, limits, c) && InCell(record, limits, c, x) && HasCell(record, limits, d) && InCell(record, limits, d, x)) ==> c == d)
    && (forall c :: HasCell(record, limits, c) ==> CellStart(record, limits, c) + CellSize(record, limits, c) <= record.maxLen)
  }

  /** The push behind a cell. */
  ghost function CellSlot(pushes: seq<Push>, cell: Cell): nat
    requires match cell case FieldCell(j) => j < CountFields(pushes) case ItemCell(j, _) => j + CountFields(pushes) < |pushes|
  {
    match cell case FieldCell(j) => FieldSlot(pushes, j) case ItemCell(j, _) => RepeatSlot(pushes, j)
  }

  lemma {:induction false} ItemFits(k: nat, count: nat, size: nat)
    requires k < count
    ensures k * size + size <= count * size
    decreases count
  {
    if k < count - 1 {
      ItemFits(k, count - 1, size);
    }
    assert count * size == (count - 1) * size + size;
  }

  lemma CellCounts(name: string, pushes: seq<Push>, schema: Schema)
    requires Known(pushes, schema)
    ensures var record := Finished(name, Built(pushes, schema));
      |record.fields| == CountFields(pushes) && |record.repeats| == |pushes| - CountFields(pushes) && record.maxLen == Total(pushes, schema)
  {
    BuiltSizes(pushes, schema);
  }

  /** A cell lies inside the slot of its push. */
  lemma CellInSlot(name: string, pushes: seq<Push>, schema: Schema, cell: Cell)
    requires Known(pushes, schema) && HasCell(Finished(name, Built(pushes, schema)), schema.limits, cell)
    ensures match cell case FieldCell(j) => j < CountFields(pushes) case ItemCell(j, _) => j + CountFields(pushes) < |pushes|
    ensures var record, i := Finished(name, Built(pushes, schema)), CellSlot(pushes, cell);
      && i < |pushes| && SlotStart(pushes, schema, i) <= CellStart(record, schema.limits, cell)
      && CellStart(record, schema.limits, cell) + CellSize(record, schema.limits, cell)
           <= SlotStart(pushes, schema, i) + PushSize(pushes[i], schema).value
  {
    hide SlotStart, Total, Built, FieldSlot, RepeatSlot, CountFields, TypeSize;
    CellCounts(name, pushes, schema);
    var i := CellSlot(pushes, cell);
    EntriesAtSlots(pushes, schema, i);
    if cell.ItemCell? {
      ItemFits(cell.item, schema.limits[pushes[i].maxCount], TypeSize(pushes[i].ty, schema).value);
    }
  }

  /** Cells with the same push are the same, or different items of one repeat. */
  lemma SameSlot(pushes: seq<Push>, c: Cell, d: Cell)
    requires match c case FieldCell(j) => j < CountFields(pushes) case ItemCell(j, _) => j + CountFields(pushes) < |pushes|
    requires match d case FieldCell(j) => j < CountFields(pushes) case ItemCell(j, _) => j + CountFields(pushes) < |pushes|
    requires CellSlot(pushes, c) == CellSlot(pushes, d)
    ensures c == d || (c.ItemCell? && d.ItemCell? && c.repeat == d.repeat && c.item != d.item)
  {
    hide CountFields, FieldSlot, RepeatSlot;
  }

  /** A byte belongs to at most one cell. */
  lemma CellsApart(name: string, pushes: seq<Push>, schema: Schema, c: Cell, d: Cell, x: nat)
    requires Known(pushes, schema)
    requires var record := Finished(name, Built(pushes, schema));
      && HasCell(record, schema.limits, c) && HasCell(record, schema.limits, d)
      && InCell(record, schema.limits, c, x) && InCell(record, schema.limits, d, x)
    ensures c == d
  {
    hide SlotStart, Total, Built, FieldSlot, RepeatSlot, CountFields, PushSize;
    CellInSlot(name, pushes, schema, c);
    CellInSlot(name, pushes, schema, d);
    SlotsTile(pushes, schema, x);
    assert InSlot(pushes, schema, CellSlot(pushes, c), x) && InSlot(pushes, schema, CellSlot(pushes, d), x);
    SameSlot(pushes, c, d);
    if c != d {
      var size := Finished(name, Built(pushes, schema)).repeats[c.repeat].itemSize;
      if c.item < d.item { ItemFits(c.item, d.item, size); } else { ItemFits(d.item, c.item, size); }
    }
  }

  lemma RecordIsTidy(name: string, pushes: seq<Push>, schema: Schema)
    requires Known(pushes, schema)
    ensures Tidy(Finished(name, Built(pushes, schema)), schema.limits)
  {
    hide SlotStart, Total, Built, FieldSlot, RepeatSlot, CountFields, PushSize, CellStart, CellSize, HasCell;
    var record := Finished(name, Built(pushes, schema));
    CellCounts(name, pushes, schema);
    forall c | HasCell(record, schema.limits, c)
      ensures CellStart(record, schema.limits, c) + CellSize(record, schema.limits, c) <= record.maxLen
    {
      CellInSlot(name, pushes, schema, c);
      SlotFits(pushes, schema, CellSlot(pushes, c));
    }
    forall c, d, x: nat | HasCell(record, schema.limits, c) && HasCell(record, schema.limits, d)
      && InCell(record, schema.limits, c, x) && InCell(record, schema.limits, d, x)
      ensures c == d
    {
      CellsApart(name, pushes, schema, c, d, x);
    }
  }

  /** Bytes meant for one cell of a record. */
  datatype CellWrite = CellWrite(cell: Cell, bytes: seq<Byte>)

  ghost predicate ForCells(writes: seq<CellWrite>, record: Record, limits: map<string, nat>) {
    && (forall w :: w in writes ==> HasCell(record, limits, w.cell) && |w.bytes| == CellSize(record, limits, w.cell))
    && (forall i, j :: 0 <= i < j < |writes| ==> writes[i].cell != writes[j].cell)
  }

  /** One write after the other, each at its cell's offset. */
  ghost function CellsWritten(data: seq<Byte>, writes: seq<CellWrite>, record: Record, limits: map<string, nat>): (after: seq<Byte>)
    requires ForCells(writes, record, limits) && Tidy(record, limits) && record.maxLen <= |data| <= USIZE_MAX
    ensures |after| == |data|
  {
    if writes == [] then data
    else
      var w := writes[|writes| - 1];
      Written(CellsWritten(data, writes[..|writes| - 1], record, limits), CellStart(record, limits, w.cell), w.bytes)
  }

  lemma OneCell(record: Record, limits: map<string, nat>, c: Cell, d: Cell, x: nat)
    requires Tidy(record, limits) && HasCell(record, limits, c) && HasCell(record, limits, d) && InCell(record, limits, c, x) && c != d
    ensures !InCell(record, limits, d, x)
  {
    hide HasCell, InCell;
  }

  lemma CellFits(record: Record, limits: map<string, nat>, c: Cell)
    requires Tidy(record, limits) && HasCell(record, limits, c)
    ensures CellStart(record, limits, c) + CellSize(record, limits, c) <= record.maxLen
  {
  }

  /** The byte written to the cell of x, or what was there. */
  ghost predicate CellByte(data: seq<Byte>, writes: seq<CellWrite>, record: Record, limits: map<string, nat>, x: nat, after: Byte)
    requires ForCells(writes, record, limits) && x < |data|
  {
    && (forall w :: w in writes && InCell(record, limits, w.cell, x) ==> after == w.bytes[x - CellStart(record, limits, w.cell)])
    && ((forall w :: w in writes ==> !InCell(record, limits, w.cell, x)) ==> after == data[x])
  }

  lemma WriteAtCell(data: seq<Byte>, writes: seq<CellWrite>, record: Record, limits: map<string, nat>, x: nat, before: Byte, after: Byte)
    requires ForCells(writes, record, limits) && Tidy(record, limits) && writes != [] && x < |data|
    requires ForCells(writes[..|writes| - 1], record, limits) && CellByte(data, writes[..|writes| - 1], record, limits, x, before)
    requires var w := writes[|writes| - 1];
      && HasCell(record, limits, w.cell) && |w.bytes| == CellSize(record, limits, w.cell)
      && after == if InCell(record, limits, w.cell, x) then w.bytes[x - CellStart(record, limits, w.cell)] else before
    ensures CellByte(data, writes, record, limits, x, after)
  {
    hide CellStart, CellSize, HasCell, Tidy;
    var init, w := writes[..|writes| - 1], writes[|writes| - 1];
    assert w in writes && forall v :: v in writes <==> v in init || v == w;
    forall v | v in init && InCell(record, limits, v.cell, x)
      ensures after == v.bytes[x - CellStart(record, limits, v.cell)]
    {
      var k :| 0 <= k < |init| && init[k] == v;
      assert writes[k].cell != w.cell;
      OneCell(record, limits, v.cell, w.cell, x);
    }
  }

  lemma {:induction false} EveryCellByte(data: seq<Byte>, writes: seq<CellWrite>, record: Record, limits: map<string, nat>, x: nat)
    requires ForCells(writes, record, limits) && Tidy(record, limits) && record.maxLen <= |data| <= USIZE_MAX && x < |data|
    ensures CellByte(data, writes, record, limits, x, CellsWritten(data, writes, record, limits)[x])
    decreases |writes|
  {
    if writes != [] {
      hide CellStart, CellSize, HasCell, Tidy, Written, CellByte;
      var init, w := writes[..|writes| - 1], writes[|writes| - 1];
      assert w in writes;
      EveryCellByte(data, init, record, limits, x);
      var before := CellsWritten(data, init, record, limits);
      CellFits(record, limits, w.cell);
      WriteAtSlot(before, CellStart(record, limits, w.cell), w.bytes, x);
      WriteAtCell(data, writes, record, limits, x, before[x], CellsWritten(data, writes, record, limits)[x]);
    }
  }

  /** In a tidy record every cell that is written reads back at its offset, and every other one keeps its bytes. */
  lemma CellsReadBack(data: seq<Byte>, writes: seq<CellWrite>, record: Record, limits: map<string, nat>, cell: Cell)
    requires ForCells(writes, record, limits) && Tidy(record, limits) && record.maxLen <= |data| <= USIZE_MAX
    requires HasCell(record, limits, cell)
    ensures var start, size, after := CellStart(record, limits, cell), CellSize(record, limits, cell), CellsWritten(data, writes, record, limits);
      && start + size <= |data|
      && (forall w :: w in writes && w.cell == cell ==> ReadFixed(after, start, size) == Ok(w.bytes))
      && ((forall w :: w in writes ==> w.cell != cell) ==> ReadFixed(after, start, size) == ReadFixed(data, start, size))
  {
    hide CellStart, CellSize, HasCell, CellsWritten, Tidy, ForCells, ReadFixed;
    CellFits(record, limits, cell);
    forall w | w in writes && w.cell == cell
      ensures ReadFixed(CellsWritten(data, writes, record, limits), CellStart(record, limits, cell), CellSize(record, limits, cell)) == Ok(w.bytes)
    {
      CellReads(data, writes, record, limits, w);
    }
    if forall w :: w in writes ==> w.cell != cell {
      CellKept(data, writes, record, limits, cell);
    }
  }

  lemma CellReads(data: seq<Byte>, writes: seq<CellWrite>, record: Record, limits: map<string, nat>, w: CellWrite)
    requires ForCells(writes, record, limits) && Tidy(record, limits) && record.maxLen <= |data| <= USIZE_MAX && w in writes
    ensures var start, size := CellStart(record, limits, w.cell), CellSize(record, limits, w.cell);
      start + size <= |data| && ReadFixed(CellsWritten(data, writes, record, limits), start, size) == Ok(w.bytes)
  {
    hide CellStart, CellSize, HasCell, CellsWritten, Tidy;
    var start, size, after := CellStart(record, limits, w.cell), CellSize(record, limits, w.cell), CellsWritten(data, writes, record, limits);
    CellFits(record, limits, w.cell);
    forall k: nat | k < size ensures after[start + k] == w.bytes[k] {
      ReadsCell(data, writes, record, limits, w.cell, start + k);
    }
    assert after[start..start + size] == w.bytes;
  }

  lemma CellKept(data: seq<Byte>, writes: seq<CellWrite>, record: Record, limits: map<string, nat>, cell: Cell)
    requires ForCells(writes, record, limits) && Tidy(record, limits) && record.maxLen <= |data| <= USIZE_MAX
    requires HasCell(record, limits, cell) && forall w :: w in writes ==> w.cell != cell
    ensures var start, size := CellStart(record, limits, cell), CellSize(record, limits, cell);
      start + size <= |data| && ReadFixed(CellsWritten(data, writes, record, limits), start, size) == ReadFixed(data, start, size)
  {
    hide CellStart, CellSize, HasCell, CellsWritten, Tidy, ForCells;
    var start, size, after := CellStart(record, limits, cell), CellSize(record, limits, cell), CellsWritten(data, writes, record, limits);
    CellFits(record, limits, cell);
    forall x: nat | start <= x < start + size ensures after[x] == data[x] {
      ReadsCell(data, writes, record, limits, cell, x);
    }
    assert after[start..start + size] == data[start..start + size];
  }

  lemma ReadsCell(data: seq<Byte>, writes: seq<CellWrite>, record: Record, limits: map<string, nat>, cell: Cell, x: nat)
    requires ForCells(writes, record, limits) && Tidy(record, limits) && record.maxLen <= |data| <= USIZE_MAX
    requires HasCell(record, limits, cell) && InCell(record, limits, cell, x) && x < |data|
    ensures var after := CellsWritten(data, writes, record, limits)[x];
      && (forall w :: w in writes && w.cell == cell ==> after == w.bytes[x - CellStart(record, limits, cell)])
      && ((forall w :: w in writes ==> w.cell != cell) ==> after == data[x])
  {
    hide CellStart, CellSize, HasCell, CellsWritten, Tidy, InCell;
    EveryCellByte(data, writes, record, limits, x);
    forall w | w in writes && w.cell != cell ensures !InCell(record, limits, w.cell, x) {
      OneCell(record, limits, cell, w.cell, x);
    }
  }

  /** From the schema's lines to the bytes: writes at the offsets of a parsed record, to fields and to single items of
      repeats, read back there, and every field and item that is not written keeps its bytes. */
  lemma ParsedCellsReadBack(lines: seq<Line>, a: nat, b: nat, data: seq<Byte>, writes: seq<CellWrite>, cell: Cell)
    requires Parse(lines).Some? && Block(lines, a, b) && lines[a].name in Parse(lines).value.schema.records
    requires var schema := Parse(lines).value.schema;
      var record := schema.records[lines[a].name];
      ForCells(writes, record, schema.limits) && HasCell(record, schema.limits, cell) && record.maxLen <= |data| <= USIZE_MAX
    ensures var schema := Parse(lines).value.schema;
      var record := schema.records[lines[a].name];
      && Tidy(record, schema.limits)
      && var start, size, after := CellStart(record, schema.limits, cell), CellSize(record, schema.limits, cell),
                                   CellsWritten(data, writes, record, schema.limits);
      && start + size <= |data|
      && (forall w :: w in writes && w.cell == cell ==> ReadFixed(after, start, size) == Ok(w.bytes))
      && ((forall w :: w in writes ==> w.cell != cell) ==> ReadFixed(after, start, size) == ReadFixed(data, start, size))
  {
    hide Parse, Known, Built, PushesIn, ForCells, Tidy, HasCell, CellStart, CellSize, CellsWritten, ReadFixed;
    ParsedRecords(lines);
    var schema, name, pushes := Parse(lines).value.schema, lines[a].name, PushesIn(lines[a + 1..b]);
    assert Laid(lines, schema, a, b);
    RecordIsTidy(name, pushes, schema);
    CellsReadBack(data, writes, schema.records[name], schema.limits, cell);
  }
}
