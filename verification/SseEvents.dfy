/** Events as the smoke check reads them out of one block, and what survives being written as a block. */
module SseEvents {
  import opened Wrappers

  // ----- Lines and events -----

  datatype Event = Event(id: Option<string>, name: Option<string>, data: string)

  /** White space as `trimStart` sees it. */
  predicate IsSpace(c: char) {
    || c in {'\t', '\n', '\r', ' ', '\U{0B}', '\U{0C}', '\U{A0}', '\U{1680}', '\U{2028}', '\U{2029}', '\U{202F}', '\U{205F}', '\U{3000}', '\U{FEFF}'}
    || '\U{2000}' <= c <= '\U{200A}'
  }

  function TrimStart(s: string): string {
    if s != [] && IsSpace(s[0]) then TrimStart(s[1..]) else s
  }

  /** The first c at or after i, or the end. */
  function Find(s: string, c: char, i: nat): (p: nat)
    requires i <= |s|
    ensures i <= p <= |s| && (p < |s| ==> s[p] == c) && forall k :: i <= k < p ==> s[k] != c
    decreases |s| - i
  {
    if i == |s| || s[i] == c then i else Find(s, c, i + 1)
  }

  /** A line without the carriage return that belongs to its line feed. */
  function Chomped(line: string): string {
    if line != "" && line[|line| - 1] == '\r' then line[..|line| - 1] else line
  }

  function Lines(s: string): (lines: seq<string>)
    ensures |lines| >= 1
    decreases |s|
  {
    var p := Find(s, '\n', 0);
    if p == |s| then [s] else [Chomped(s[..p])] + Lines(s[p + 1..])
  }

  function FieldOf(line: string): string {
    line[..Find(line, ':', 0)]
  }

  function ValueOf(line: string): string {
    var p := Find(line, ':', 0);
    if p == |line| then "" else TrimStart(line[p + 1..])
  }

  function Skipped(line: string): bool {
    line == "" || line[0] == ':'
  }

  /** The values of the lines that carry a field, in order. */
  function ValuesOf(lines: seq<string>, field: string): seq<string> {
    if lines == [] then []
    else
      var last := lines[|lines| - 1];
      ValuesOf(lines[..|lines| - 1], field) + if !Skipped(last) && FieldOf(last) == field then [ValueOf(last)] else []
  }

  function LastOf(values: seq<string>): Option<string> {
    if values == [] then None else Some(values[|values| - 1])
  }

  /** The data values from the first one that is not empty, one line each. */
  function Joined(values: seq<string>): string {
    if values == [] then ""
    else
      var before := Joined(values[..|values| - 1]);
      if before == "" then values[|values| - 1] else before + "\n" + values[|values| - 1]
  }

  function EventOf(block: string): Event {
    var lines := Lines(block);
    Event(LastOf(ValuesOf(lines, "id")), LastOf(ValuesOf(lines, "event")), Joined(ValuesOf(lines, "data")))
  }

  predicate Present(text: Option<string>) {
    text.Some? && text.value != ""
  }

  function Parsed(block: string): Option<Event> {
    var e := EventOf(block);
    if Present(e.id) || Present(e.name) || e.data != "" then Some(e) else None
  }

  /** Fills an event line by line. */
  method ParseSseBlock(block: string) returns (r: Option<Event>)
    ensures r == Parsed(block)
  {
    hide ValuesOf, Joined, FieldOf, ValueOf, Lines, Skipped, LastOf;
    var id: Option<string> := None;
    var name: Option<string> := None;
    var data := "";
    var lines := Lines(block);
    var n := 0;
    NoLines(lines);
    while n < |lines|
      invariant 0 <= n <= |lines|
      invariant id == LastOf(ValuesOf(lines[..n], "id"))
      invariant name == LastOf(ValuesOf(lines[..n], "event"))
      invariant data == Joined(ValuesOf(lines[..n], "data"))
    {
      var line := lines[n];
      LineStep(lines, n, "id");
      LineStep(lines, n, "event");
      LineStep(lines, n, "data");
      n := n + 1;
      if Skipped(line) { continue; }
      var field, value := FieldOf(line), ValueOf(line);
      if field == "id" {
        id := Some(value);
      } else if field == "event" {
        name := Some(value);
      } else if field == "data" {
        data := data + if data != "" then "\n" + value else value;
      }
    }
    assert lines[..|lines|] == lines;
    if Present(id) || Present(name) || data != "" { return Some(Event(id, name, data)); }
    r := None;
  }

  lemma NoLines(lines: seq<string>)
    ensures forall field :: ValuesOf(lines[..0], field) == []
    ensures Joined([]) == "" && LastOf([]) == None
  {
  }

  lemma LineStep(lines: seq<string>, n: nat, field: string)
    requires n < |lines|
    ensures Skipped(lines[n]) || FieldOf(lines[n]) != field ==> ValuesOf(lines[..n + 1], field) == ValuesOf(lines[..n], field)
    ensures !Skipped(lines[n]) && FieldOf(lines[n]) == field ==>
      var before, after, value := ValuesOf(lines[..n], field), ValuesOf(lines[..n + 1], field), ValueOf(lines[n]);
      LastOf(after) == Some(value) && Joined(after) == Joined(before) + if Joined(before) == "" then value else "\n" + value
  {
    hide FieldOf, ValueOf, Skipped;
    assert lines[..n + 1][..n] == lines[..n];
    var before, value := ValuesOf(lines[..n], field), ValueOf(lines[n]);
    assert before + [] == before && (before + [value])[..|before|] == before;
    assert Joined(before) != "" ==> Joined(before) + "\n" + value == Joined(before) + ("\n" + value);
  }

  // ----- What the event data keeps -----

  function Join(values: seq<string>): string {
    if values == [] then ""
    else if |values| == 1 then values[0]
    else Join(values[..|values| - 1]) + "\n" + values[|values| - 1]
  }

  lemma {:induction false} JoinedDropsEmpty(values: seq<string>, k: nat)
    requires k <= |values| && (forall i :: 0 <= i < k ==> values[i] == "") && (k < |values| ==> values[k] != "")
    ensures Joined(values) == Join(values[k..])
    ensures k < |values| ==> Joined(values) != ""
  {
    if values != [] {
      var init := values[..|values| - 1];
      if k < |values| - 1 {
        JoinedDropsEmpty(init, k);
        assert values[k..][..|values[k..]| - 1] == init[k..];
      } else {
        JoinedDropsEmpty(init, |init|);
        assert init[|init|..] == [];
        assert k < |values| ==> values[k..] == [values[k]];
      }
    }
  }

  function TotalLength(values: seq<string>): nat {
    if values == [] then 0 else TotalLength(values[..|values| - 1]) + |values[|values| - 1]|
  }

  lemma {:induction false} JoinLength(values: seq<string>)
    ensures |Join(values)| == TotalLength(values) + if values == [] then 0 else |values| - 1
  {
    if values != [] {
      JoinLength(values[..|values| - 1]);
    }
  }

  lemma {:induction false} TotalFrom(values: seq<string>, k: nat)
    requires k <= |values| && forall i :: 0 <= i < k ==> values[i] == ""
    ensures TotalLength(values[k..]) == TotalLength(values)
  {
    if k < |values| {
      TotalFrom(values[..|values| - 1], k);
      assert values[k..][..|values[k..]| - 1] == values[..|values| - 1][k..];
    } else if values != [] {
      TotalFrom(values[..|values| - 1], |values| - 1);
      assert values[..|values| - 1][|values| - 1..] == [];
    }
  }

  /** The data is its values joined by line feeds, as section 9.2 of the HTML Standard has it, exactly when there is
      at most one value or the first one is not empty: leading empty values leave no line feed behind. */
  lemma JoinedIsJoin(values: seq<string>)
    ensures Joined(values) == Join(values) <==> |values| <= 1 || values[0] != ""
  {
    hide Joined, Join;
    var k: nat := 0;
    while k < |values| && values[k] == ""
      invariant k <= |values| && forall i :: 0 <= i < k ==> values[i] == ""
    {
      k := k + 1;
    }
    JoinedDropsEmpty(values, k);
    assert k == 0 ==> values[k..] == values;
    TotalFrom(values, k);
    JoinLength(values[k..]);
    JoinLength(values);
    assert values == [""] ==> Join(values) == "" && Join(values[1..]) == "" by { JoinSmall(); }
  }

  lemma JoinSmall()
    ensures Join([""]) == "" && Join([""][1..]) == ""
  {
  }

  // ----- Rendering an event and reading it back -----

  /** Text that survives a field line: one line, no carriage return at its end, no white space at its start. */
  predicate Plain(text: string) {
    '\n' !in text && TrimStart(text) == text && (text != "" ==> text[|text| - 1] != '\r')
  }

  function FieldLine(field: string, value: string): string {
    field + ": " + value
  }

  function FieldLines(field: string, values: seq<string>): seq<string> {
    seq(|values|, i requires 0 <= i < |values| => FieldLine(field, values[i]))
  }

  lemma FoundAt(s: string, c: char, p: nat)
    requires p <= |s| && (p < |s| ==> s[p] == c) && forall k :: 0 <= k < p ==> s[k] != c
    ensures Find(s, c, 0) == p
  {
    hide Find;
    var q := Find(s, c, 0);
    assert q <= p && p <= q;
  }

  lemma FieldLineParses(field: string, value: string)
    requires ':' !in field && field != ""
    ensures !Skipped(FieldLine(field, value)) && FieldOf(FieldLine(field, value)) == field
    ensures ValueOf(FieldLine(field, value)) == TrimStart(value)
  {
    var line := FieldLine(field, value);
    assert line[|field|] == ':' && line[0] == field[0];
    assert forall k :: 0 <= k < |field| ==> line[k] == field[k];
    FoundAt(line, ':', |field|);
    assert line[..|field|] == field;
    assert line[|field| + 1..] == " " + value;
    assert (" " + value)[1..] == value;
  }

  lemma {:induction false} LinesOfJoin(lines: seq<string>)
    requires |lines| >= 1
    requires forall i :: 0 <= i < |lines| ==> '\n' !in lines[i] && (lines[i] != "" ==> lines[i][|lines[i]| - 1] != '\r')
    ensures Lines(Join(lines)) == lines
  {
    hide Lines, Join;
    var text := Join(lines);
    JoinFirst(lines);
    LinesStep(text);
    if |lines| == 1 {
      FoundAt(text, '\n', |text|);
      assert lines == [lines[0]];
    } else {
      var first, rest := lines[0], lines[1..];
      assert text[|first|] == '\n' && forall k :: 0 <= k < |first| ==> text[k] == first[k];
      FoundAt(text, '\n', |first|);
      assert text[..|first|] == first && text[|first| + 1..] == Join(rest);
      LinesOfJoin(rest);
      assert lines == [first] + rest;
    }
  }

  lemma LinesStep(s: string)
    ensures var p := Find(s, '\n', 0); Lines(s) == if p == |s| then [s] else [Chomped(s[..p])] + Lines(s[p + 1..])
  {
    hide Find, Chomped;
  }

  lemma {:induction false} JoinFirst(lines: seq<string>)
    requires |lines| >= 1
    ensures Join(lines) == if |lines| == 1 then lines[0] else lines[0] + "\n" + Join(lines[1..])
  {
    if |lines| > 2 {
      JoinFirst(lines[..|lines| - 1]);
      assert lines[..|lines| - 1][1..] == lines[1..][..|lines[1..]| - 1];
    }
  }

  lemma {:induction false} ValuesConcat(a: seq<string>, b: seq<string>, field: string)
    ensures ValuesOf(a + b, field) == ValuesOf(a, field) + ValuesOf(b, field)
  {
    hide FieldOf, ValueOf, Skipped;
    if b == [] {
      assert a + b == a;
    } else {
      ValuesConcat(a, b[..|b| - 1], field);
      assert (a + b)[..|a + b| - 1] == a + b[..|b| - 1];
    }
  }

  lemma {:induction false} ValuesOfField(own: string, values: seq<string>, field: string)
    requires ':' !in own && own != "" && forall i :: 0 <= i < |values| ==> Plain(values[i])
    ensures ValuesOf(FieldLines(own, values), field) == if own == field then values else []
  {
    hide FieldOf, ValueOf, Skipped, FieldLine;
    if values != [] {
      var init, last := values[..|values| - 1], values[|values| - 1];
      ValuesOfField(own, init, field);
      FieldLineParses(own, last);
      var lines := FieldLines(own, values);
      assert lines[..|lines| - 1] == FieldLines(own, init) && lines[|lines| - 1] == FieldLine(own, last);
    }
  }

  function AsValues(text: Option<string>): seq<string> {
    if text.None? then [] else [text.value]
  }

  /** An event written as a block: its id, its name, then one line for each line of its data. */
  function RenderedLines(id: Option<string>, name: Option<string>, data: seq<string>): seq<string> {
    FieldLines("id", AsValues(id)) + FieldLines("event", AsValues(name)) + FieldLines("data", data)
  }

  /** What a written event with plain texts is read as. */
  lemma RenderedEvent(id: Option<string>, name: Option<string>, data: seq<string>)
    requires (id.Some? ==> Plain(id.value)) && (name.Some? ==> Plain(name.value))
    requires forall i :: 0 <= i < |data| ==> Plain(data[i])
    ensures EventOf(Join(RenderedLines(id, name, data))) == Event(id, name, Joined(data))
  {
    hide ValuesOf, Lines, Join, Joined, RenderedLines, Plain, AsValues, LastOf;
    RenderedPlain(id, name, data);
    if RenderedLines(id, name, data) == [] {
      NothingRendered();
    } else {
      LinesOfJoin(RenderedLines(id, name, data));
      RenderedValues(id, name, data, "id");
      RenderedValues(id, name, data, "event");
      RenderedValues(id, name, data, "data");
      LastOfOne(id);
      LastOfOne(name);
      assert AsValues(id) + [] + [] == AsValues(id) && [] + AsValues(name) + [] == AsValues(name) && [] + [] + data == data;
    }
  }

  /** It reads back as it was, data lines and all, exactly when it says something and its data does not lose an empty
      first line. */
  lemma RenderedReadsBack(id: Option<string>, name: Option<string>, data: seq<string>)
    requires (id.Some? ==> Plain(id.value)) && (name.Some? ==> Plain(name.value))
    requires forall i :: 0 <= i < |data| ==> Plain(data[i])
    ensures Parsed(Join(RenderedLines(id, name, data))) == Some(Event(id, name, Join(data)))
      <==> (|data| <= 1 || data[0] != "") && (Present(id) || Present(name) || Join(data) != "")
  {
    hide EventOf, Join, Joined, RenderedLines, Plain;
    RenderedEvent(id, name, data);
    JoinedIsJoin(data);
  }

  lemma NothingRendered()
    ensures EventOf(Join([])) == Event(None, None, Joined([]))
  {
  }

  /** Data that starts with an empty line: written and read back, the line feed is gone. */
  lemma EmptyFirstLineWitness()
    ensures Parsed(Join(RenderedLines(None, None, ["", "a"]))) == Some(Event(None, None, "a"))
    ensures Join(["", "a"]) == "\na"
  {
    hide EventOf, RenderedLines;
    var data := ["", "a"];
    assert Plain(data[0]) && Plain(data[1]) by { assert !IsSpace('a'); }
    assert data[..1] == [""] && [""][..0] == [];
    RenderedEvent(None, None, data);
  }

  lemma LastOfOne(text: Option<string>)
    ensures LastOf(AsValues(text)) == text
  {
  }

  lemma RenderedPlain(id: Option<string>, name: Option<string>, data: seq<string>)
    requires (id.Some? ==> Plain(id.value)) && (name.Some? ==> Plain(name.value))
    requires forall i :: 0 <= i < |data| ==> Plain(data[i])
    ensures RenderedLines(id, name, data) == [] <==> id.None? && name.None? && data == []
    ensures forall i :: 0 <= i < |RenderedLines(id, name, data)| ==>
      var line := RenderedLines(id, name, data)[i];
      '\n' !in line && (line != "" ==> line[|line| - 1] != '\r')
  {
    hide FieldLines, Plain;
    FieldLinesPlain("id", AsValues(id));
    FieldLinesPlain("event", AsValues(name));
    FieldLinesPlain("data", data);
  }

  lemma FieldLinesPlain(field: string, values: seq<string>)
    requires '\n' !in field && forall i :: 0 <= i < |values| ==> Plain(values[i])
    ensures |FieldLines(field, values)| == |values|
    ensures forall i :: 0 <= i < |values| ==>
      var line := FieldLines(field, values)[i];
      '\n' !in line && line != "" && line[|line| - 1] != '\r'
  {
  }

  lemma RenderedValues(id: Option<string>, name: Option<string>, data: seq<string>, field: string)
    requires (id.Some? ==> Plain(id.value)) && (name.Some? ==> Plain(name.value))
    requires forall i :: 0 <= i < |data| ==> Plain(data[i])
    ensures ValuesOf(RenderedLines(id, name, data), field)
         == (if field == "id" then AsValues(id) else []) + (if field == "event" then AsValues(name) else []) + (if field == "data" then data else [])
  {
    hide ValuesOf, FieldLines, Plain;
    var ids, names, datas := FieldLines("id", AsValues(id)), FieldLines("event", AsValues(name)), FieldLines("data", data);
    ValuesConcat(ids, names, field);
    ValuesConcat(ids + names, datas, field);
    ValuesOfField("id", AsValues(id), field);
    ValuesOfField("event", AsValues(name), field);
    ValuesOfField("data", data, field);
  }
}
