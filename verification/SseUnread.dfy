/** What a wait leaves unread, and when a later wait on the same stream does not miss it. */
module SseUnread {
  import opened Wrappers
  import opened Sse
  import opened SseEvents
  import opened SseReader

  /** Lines that say nothing: whatever follows them is read as if they were not there. */
  predicate Idle(open: string) {
    open == "" || (open[|open| - 1] == '\n' && NoValues(open))
  }

  predicate NoValues(text: string) {
    && ValuesOf(Lines(text), "id") == [] && ValuesOf(Lines(text), "event") == []
    && Joined(ValuesOf(Lines(text), "data")) == ""
  }

  /** The unread text completes no event and begins none. */
  predicate Harmless(unread: string) {
    (forall i :: 0 <= i < |Blocks(unread)| ==> Parsed(Blocks(unread)[i]) == None) && Idle(Last(Split(unread)))
  }

  // ----- Lines of joined texts -----

  /** Reading lines can stop after any piece of text and go on from its open line. */
  lemma {:induction false} LinesAppend(s: string, t: string)
    ensures Lines(s + t) == Init(Lines(s)) + Lines(Last(Lines(s)) + t)
    decreases |s|
  {
    hide Lines, Find, Chomped;
    LinesStep(s);
    var p := Find(s, '\n', 0);
    if p < |s| {
      assert forall k :: 0 <= k < |s| ==> (s + t)[k] == s[k];
      FoundAt(s + t, '\n', p);
      LinesStep(s + t);
      assert (s + t)[..p] == s[..p] && (s + t)[p + 1..] == s[p + 1..] + t;
      LinesAppend(s[p + 1..], t);
      assert Init(Lines(s)) == [Chomped(s[..p])] + Init(Lines(s[p + 1..]));
    }
  }

  lemma {:induction false} LastLine(s: string)
    ensures '\n' !in Last(Lines(s))
    ensures Last(Lines(s)) == "" <==> s == "" || s[|s| - 1] == '\n'
    ensures Last(Lines(s)) != "" ==> Last(Lines(s))[|Last(Lines(s))| - 1] == s[|s| - 1]
    decreases |s|
  {
    hide Lines, Chomped;
    LinesStep(s);
    var p := Find(s, '\n', 0);
    if p < |s| {
      LastLine(s[p + 1..]);
      assert Last(Lines(s)) == Last(Lines(s[p + 1..]));
    }
  }

  lemma OneLine(s: string)
    requires '\n' !in s
    ensures Lines(s) == [s]
  {
    LinesStep(s);
  }

  lemma EmptyLine(lines: seq<string>, field: string)
    requires |lines| > 0 && Last(lines) == ""
    ensures ValuesOf(lines, field) == ValuesOf(Init(lines), field)
  {
    hide FieldOf, ValueOf;
    assert ValuesOf(Init(lines), field) + [] == ValuesOf(Init(lines), field);
  }

  /** The values of a text behind a line break. */
  lemma ValuesBehind(open: string, t: string, field: string)
    requires open != "" && open[|open| - 1] == '\n'
    ensures ValuesOf(Lines(open + t), field) == ValuesOf(Lines(open), field) + ValuesOf(Lines(t), field)
  {
    hide ValuesOf, Lines;
    LinesAppend(open, t);
    LastLine(open);
    assert "" + t == t;
    ValuesConcat(Init(Lines(open)), Lines(t), field);
    EmptyLine(Lines(open), field);
  }

  lemma {:induction false} JoinedBehind(a: seq<string>, b: seq<string>)
    requires Joined(a) == ""
    ensures Joined(a + b) == Joined(b)
  {
    if b == [] {
      assert a + b == a;
    } else {
      JoinedBehind(a, b[..|b| - 1]);
      assert (a + b)[..|a + b| - 1] == a + b[..|b| - 1];
    }
  }

  lemma IdleEvent(open: string, t: string)
    requires open != "" && Idle(open)
    ensures EventOf(open + t) == EventOf(t)
  {
    hide ValuesOf, Lines, Joined;
    ValuesBehind(open, t, "id");
    ValuesBehind(open, t, "event");
    ValuesBehind(open, t, "data");
    JoinedBehind(ValuesOf(Lines(open), "data"), ValuesOf(Lines(t), "data"));
  }

  // ----- Separators of joined texts -----

  lemma SeparatorShift(a: string, t: string, i: nat)
    requires i <= |t|
    ensures SeparatorAt(a + t, |a| + i) == SeparatorAt(t, i)
  {
    assert forall k :: 0 <= k < |t| ==> (a + t)[|a| + k] == t[k];
  }

  /** The line break that a text starts with: one or two characters, or none. */
  function BreakAt(t: string): (n: nat)
    ensures n <= |t|
  {
    if t != "" && t[0] == '\n' then 1 else if |t| > 1 && t[0] == '\r' && t[1] == '\n' then 2 else 0
  }

  /** Where the line break at the end of a text starts. */
  function EndBreak(open: string): nat
    requires open != ""
  {
    if |open| > 1 && open[|open| - 2] == '\r' then |open| - 2 else |open| - 1
  }

  lemma InsideOpen(open: string, t: string, k: nat)
    requires open != "" && open[|open| - 1] == '\n' && k < |open| && SeparatorAt(open, k) == 0
    requires BreakAt(t) == 0 || k < EndBreak(open)
    ensures SeparatorAt(open + t, k) == 0
  {
    var u := open + t;
    assert forall i :: 0 <= i < |open| ==> u[i] == open[i];
    assert forall i :: 0 <= i < |t| ==> u[|open| + i] == t[i];
    var j := if u[k] == '\r' then k + 1 else k;
    if j < |u| && u[j] == '\n' && j < |open| - 1 {
      assert u[j + 1] == open[j + 1];
      if j + 1 < |open| - 1 {
        assert u[j + 2] == open[j + 2];
      }
    } else if j == |open| - 1 {
      assert |t| > 0 ==> u[j + 1] == t[0];
      assert |t| > 1 ==> u[j + 2] == t[1];
    }
  }

  /** No line break follows: the first separator of the joined text is that of the later part. */
  lemma SeparatorBehind(open: string, t: string)
    requires open != "" && open[|open| - 1] == '\n' && FirstSeparator(open, 0) == |open| && BreakAt(t) == 0
    ensures FirstSeparator(open + t, 0) == |open| + FirstSeparator(t, 0)
    ensures FirstSeparator(t, 0) < |t| ==> Behind(open + t, |open| + FirstSeparator(t, 0)) == Behind(t, FirstSeparator(t, 0))
  {
    hide SeparatorAt, FirstSeparator, BreakAt;
    var u, p := open + t, FirstSeparator(t, 0);
    FirstSeparatorIsFirst(open, 0);
    FirstSeparatorIsFirst(t, 0);
    FirstSeparatorIsFirst(u, 0);
    forall k: nat | k < |open| + p ensures SeparatorAt(u, k) == 0 {
      if k < |open| {
        InsideOpen(open, t, k);
      } else {
        SeparatorShift(open, t, k - |open|);
      }
    }
    SeparatorShift(open, t, p);
    if p < |t| {
      SeparatorFits(t, p);
      assert u[|open| + p + SeparatorAt(t, p)..] == t[p + SeparatorAt(t, p)..];
    }
  }

  /** A line break follows: the two breaks are a separator. */
  lemma SeparatorAcross(open: string, t: string)
    requires open != "" && open[|open| - 1] == '\n' && FirstSeparator(open, 0) == |open| && BreakAt(t) > 0
    ensures FirstSeparator(open + t, 0) == EndBreak(open)
    ensures Behind(open + t, EndBreak(open)) == t[BreakAt(t)..]
  {
    hide FirstSeparator;
    var u, p := open + t, EndBreak(open);
    FirstSeparatorIsFirst(open, 0);
    FirstSeparatorIsFirst(u, 0);
    AcrossAt(open, t);
    forall k: nat | k < p ensures SeparatorAt(u, k) == 0 {
      InsideOpen(open, t, k);
    }
    assert u[|open| + BreakAt(t)..] == t[BreakAt(t)..];
  }

  lemma AcrossAt(open: string, t: string)
    requires open != "" && open[|open| - 1] == '\n' && BreakAt(t) > 0
    ensures SeparatorAt(open + t, EndBreak(open)) == |open| - EndBreak(open) + BreakAt(t)
  {
    var u := open + t;
    assert forall i :: 0 <= i < |open| ==> u[i] == open[i];
    assert u[|open|] == t[0] && (|t| > 1 ==> u[|open| + 1] == t[1]);
  }

  lemma BreakEnds(t: string)
    requires BreakAt(t) > 0
    ensures t[..BreakAt(t)] != "" && Idle(t[..BreakAt(t)])
    ensures FirstSeparator(t[..BreakAt(t)], 0) == BreakAt(t)
  {
    var b := t[..BreakAt(t)];
    FirstSeparatorIsFirst(b, 0);
    LinesStep(b);
    OneLine("");
    assert b == "\n" || b == "\r\n";
    assert b[..|b| - 1] == "" || b[..|b| - 1] == "\r";
    assert Lines(b) == [""] + [""];
    forall field ensures ValuesOf(Lines(b), field) == [] {
      EmptyLine(Lines(b), field);
      EmptyLine(Init(Lines(b)), field);
    }
  }

  /** Lines that say nothing, without their last line break, hold no event. */
  lemma IdleBlock(open: string)
    requires open != "" && Idle(open)
    ensures Parsed(open[..EndBreak(open)]) == None
  {
    hide ValuesOf, Joined, Lines;
    var b, end := open[..EndBreak(open)], open[EndBreak(open)..];
    assert open == b + end;
    LinesAppend(b, end);
    var last := Last(Lines(b));
    LastLine(b);
    assert end == "\r\n" || (end == "\n" && (b != "" ==> b[|b| - 1] != '\r'));
    BrokenLine(last, end);
    SameLines(b, open, last, "id");
    SameLines(b, open, last, "event");
    SameLines(b, open, last, "data");
  }

  lemma SameLines(b: string, open: string, last: string, field: string)
    requires Lines(open) == Init(Lines(b)) + [last, ""] && last == Last(Lines(b))
    ensures ValuesOf(Lines(b), field) == ValuesOf(Lines(open), field)
  {
    hide ValuesOf, Lines;
    EmptyLine(Lines(open), field);
    assert Init(Lines(open)) == Lines(b);
  }

  /** A line ended by its break: the carriage return belongs to the break. */
  lemma BrokenLine(line: string, end: string)
    requires '\n' !in line
    requires end == "\r\n" || (end == "\n" && (line != "" ==> line[|line| - 1] != '\r'))
    ensures Lines(line + end) == [line, ""]
  {
    var text, p := line + end, |line| + |end| - 1;
    assert forall k :: 0 <= k < |line| ==> text[k] == line[k];
    assert text[p] == '\n' && text[p + 1..] == "";
    FoundAt(text, '\n', p);
    LinesStep(text);
    OneLine("");
    assert Chomped(text[..p]) == line;
  }

  // ----- The condition is enough -----

  lemma NoWanted(text: string, p: nat, wanted: Event -> bool)
    requires p == FirstSeparator(text, 0) < |text| && Parsed(text[..p]) == None
    ensures FirstEvent(text, wanted) == FirstEvent(Behind(text, p), wanted)
  {
    hide FirstEvent, FirstSeparator, Parsed, Behind;
    EventStep(text, wanted);
  }

  lemma {:induction false} IdleSkipped(open: string, t: string, wanted: Event -> bool)
    requires open != "" && Idle(open) && FirstSeparator(open, 0) == |open|
    ensures FirstEvent(open + t, wanted) == FirstEvent(t, wanted)
    decreases |t|
  {
    hide FirstEvent, FirstSeparator, Parsed, Behind, BreakAt, EndBreak, Idle;
    assert open[|open| - 1] == '\n' by { IdleEnds(open); }
    var n := BreakAt(t);
    if n > 0 {
      SeparatorAcross(open, t);
      IdleBlock(open);
      EndOfOpen(open, t);
      NoWanted(open + t, EndBreak(open), wanted);
      BreakEnds(t);
      IdleSkipped(t[..n], t[n..], wanted);
      assert t[..n] + t[n..] == t;
    } else {
      SeparatorBehind(open, t);
      EventStep(t, wanted);
      EventStep(open + t, wanted);
      var p := FirstSeparator(t, 0);
      assert (open + t)[..|open| + p] == open + t[..p];
      SameParse(open, t[..p]);
    }
  }

  lemma IdleEnds(open: string)
    requires open != "" && Idle(open)
    ensures open[|open| - 1] == '\n'
  {
  }

  lemma EndOfOpen(open: string, t: string)
    requires open != ""
    ensures EndBreak(open) < |open| <= |open + t| && (open + t)[..EndBreak(open)] == open[..EndBreak(open)]
  {
  }

  lemma SameParse(open: string, t: string)
    requires open != "" && Idle(open)
    ensures Parsed(open + t) == Parsed(t)
  {
    hide EventOf;
    IdleEvent(open, t);
  }

  lemma {:induction false} NoneMatch(blocks: seq<string>, wanted: Event -> bool)
    requires forall i :: 0 <= i < |blocks| ==> Parsed(blocks[i]) == None
    ensures FirstMatch(blocks, wanted) == None
  {
    hide Parsed;
    if blocks != [] {
      NoneMatch(blocks[..|blocks| - 1], wanted);
    }
  }

  lemma LaterFirst(unread: string, later: string, wanted: Event -> bool)
    requires FirstEvent(unread, wanted) == None
    ensures FirstEvent(unread + later, wanted) == FirstEvent(Last(Split(unread)) + later, wanted)
  {
    hide Split, FirstMatch;
    SplitAppend(unread, later);
    FirstMatchConcat(Blocks(unread), Blocks(Last(Split(unread)) + later), wanted);
    assert Blocks(unread + later) == Blocks(unread) + Blocks(Last(Split(unread)) + later);
  }

  lemma HarmlessSkipped(unread: string, later: string, wanted: Event -> bool)
    requires Harmless(unread)
    ensures FirstEvent(unread + later, wanted) == FirstEvent(later, wanted)
  {
    hide Split, FirstMatch, Idle, Parsed, FirstSeparator;
    NoneMatch(Blocks(unread), wanted);
    LaterFirst(unread, later, wanted);
    LastIsOpen(unread);
    var open := Last(Split(unread));
    if open == "" {
      assert open + later == later;
    } else {
      IdleSkipped(open, later, wanted);
    }
  }

  lemma {:induction false} LastIsOpen(s: string)
    ensures FirstSeparator(Last(Split(s)), 0) == |Last(Split(s))|
    decreases |s|
  {
    hide Split, FirstSeparator, SeparatorAt;
    SplitStep(s);
    if FirstSeparator(s, 0) < |s| {
      LastIsOpen(Behind(s, FirstSeparator(s, 0)));
    }
  }

  // ----- The condition is needed -----

  /** A character that is neither a carriage return nor a line feed keeps separators apart. */
  predicate Letters(x: string) {
    '\r' !in x && '\n' !in x
  }

  /** Text without line breaks makes no separator. */
  lemma NoNewSeparator(open: string, x: string)
    requires FirstSeparator(open, 0) == |open| && Letters(x)
    ensures FirstSeparator(open + x, 0) == |open + x|
  {
    hide FirstSeparator;
    var u := open + x;
    FirstSeparatorIsFirst(open, 0);
    FirstSeparatorIsFirst(u, 0);
    forall k: nat | k < |u| ensures SeparatorAt(u, k) == 0 {
      NoNewSeparatorAt(open, x, k);
    }
  }

  lemma NoNewSeparatorAt(open: string, x: string, k: nat)
    requires Letters(x) && k < |open + x| && (k < |open| ==> SeparatorAt(open, k) == 0)
    ensures SeparatorAt(open + x, k) == 0
  {
    var u := open + x;
    assert forall i :: 0 <= i < |open| ==> u[i] == open[i];
    assert forall i :: |open| <= i < |u| ==> u[i] == x[i - |open|] && u[i] != '\n' && u[i] != '\r';
  }

  /** An open text that two line feeds end is one block. */
  lemma EndedBlock(w: string)
    requires FirstSeparator(w, 0) == |w| && w != "" && w[|w| - 1] != '\r' && w[|w| - 1] != '\n'
    ensures FirstSeparator(w + "\n\n", 0) == |w| && Behind(w + "\n\n", |w|) == "" && (w + "\n\n")[..|w|] == w
  {
    hide FirstSeparator, SeparatorAt;
    var u := w + "\n\n";
    FirstSeparatorIsFirst(w, 0);
    FirstSeparatorIsFirst(u, 0);
    forall k: nat | k <= |w| ensures SeparatorAt(u, k) == if k < |w| then 0 else 2 {
      EndedAt(w, k);
    }
    assert SeparatorAt(u, |w|) == 2 && u[|w| + 2..] == "";
  }

  lemma EndedAt(w: string, k: nat)
    requires w != "" && w[|w| - 1] != '\r' && w[|w| - 1] != '\n' && k <= |w| && (k < |w| ==> SeparatorAt(w, k) == 0)
    ensures SeparatorAt(w + "\n\n", k) == if k < |w| then 0 else 2
  {
    var u := w + "\n\n";
    assert forall i :: 0 <= i < |w| ==> u[i] == w[i];
    assert u[|w|] == '\n' && u[|w| + 1] == '\n';
  }

  /** The event that a wait for anything finds when a data line follows. */
  lemma DataFollows(open: string, value: string)
    requires FirstSeparator(open, 0) == |open| && |value| == 1 && Letters(value)
    ensures FirstEvent(open + ("data: " + value + "\n\n"), e => true) == Parsed(open + ("data: " + value))
  {
    hide FirstSeparator, FirstEvent, Parsed, Behind;
    var line := "data: " + value;
    var w := open + line;
    NoNewSeparator(open, line);
    assert w[|w| - 1] == value[0];
    EndedBlock(w);
    assert w + "\n\n" == open + ("data: " + value + "\n\n");
    EventStep(w + "\n\n", e => true);
    EventStep("", e => true);
  }

  lemma {:induction false} TrimEnds(a: string, b: string)
    requires b != "" && !IsSpace(b[0])
    ensures |TrimStart(a + b)| >= |b|
    decreases |a|
  {
    if a != "" {
      assert (a + b)[0] == a[0] && (a + b)[1..] == a[1..] + b;
      TrimEnds(a[1..], b);
    } else {
      assert a + b == b;
    }
  }

  /** A data line glued to an unfinished line is not a data line, or its value is longer. */
  lemma GluedLine(last: string, value: string)
    requires last != "" && |value| == 1
    ensures var line := last + ("data: " + value);
      FieldOf(line) == "data" ==> |ValueOf(line)| > 1
  {
    var data := "data: " + value;
    var line, p := last + data, Find(last, ':', 0);
    assert forall k :: 0 <= k < |last| ==> line[k] == last[k];
    if p < |last| {
      FoundAt(line, ':', p);
      assert line[p + 1..] == last[p + 1..] + data;
      TrimEnds(last[p + 1..], data);
    } else {
      assert line[|last|] == 'd' && line[|last| + 1] == 'a' && line[|last| + 2] == 't' && line[|last| + 3] == 'a' && line[|last| + 4] == ':';
      FoundAt(line, ':', |last| + 4);
      assert |FieldOf(line)| > 4;
    }
  }

  /** Behind an unfinished line, the data of the next block does not depend on a one-letter data line. */
  lemma GluedData(open: string, value: string)
    requires open != "" && open[|open| - 1] != '\n' && |value| == 1 && Letters(value)
    ensures EventOf(open + ("data: " + value)).data == value ==> Joined(ValuesOf(Init(Lines(open)), "data")) == value
  {
    hide ValuesOf, Lines, FieldOf, ValueOf, Joined, LastOf;
    var data, last := "data: " + value, Last(Lines(open));
    LinesAppend(open, data);
    LastLine(open);
    OneLine(last + data);
    GluedLine(last, value);
    ValuesConcat(Init(Lines(open)), [last + data], "data");
    LastValue(last + data, "data");
    var before := ValuesOf(Init(Lines(open)), "data");
    if ValuesOf([last + data], "data") == [] {
      assert before + [] == before;
    } else {
      JoinedLast(before, ValueOf(last + data));
    }
  }

  lemma LastValue(line: string, field: string)
    ensures ValuesOf([line], field) == if !Skipped(line) && FieldOf(line) == field then [ValueOf(line)] else []
  {
    hide FieldOf, ValueOf, Skipped;
    assert [line][..0] == [];
  }

  lemma JoinedLast(values: seq<string>, value: string)
    ensures |Joined(values + [value])| >= |value|
  {
    assert (values + [value])[..|values|] == values;
  }

  lemma PlainDatum(value: string)
    requires value == "q" || value == "r"
    ensures |value| == 1 && Letters(value) && Parsed("data: " + value) == Some(Event(None, None, value))
  {
    hide Parsed;
    RenderedReadsBack(None, None, [value]);
    assert RenderedLines(None, None, [value]) == ["data: " + value] by {
      assert FieldLines("data", [value]) == ["data" + ": " + value];
      assert "data" + ": " + value == "data: " + value;
    }
  }

  /** An unfinished line swallows the data line that follows it. */
  lemma UnfinishedShows(open: string) returns (later: string)
    requires open != "" && open[|open| - 1] != '\n' && FirstSeparator(open, 0) == |open|
    ensures FirstEvent(open + later, e => true) != FirstEvent(later, e => true)
  {
    hide FirstEvent, FirstSeparator, ValuesOf, Lines, Joined, EventOf;
    PlainDatum("q");
    PlainDatum("r");
    NoNewSeparator("", "");
    DataFollows("", "q");
    DataFollows("", "r");
    DataFollows(open, "q");
    DataFollows(open, "r");
    GluedData(open, "q");
    GluedData(open, "r");
    var q, r := "data: " + "q" + "\n\n", "data: " + "r" + "\n\n";
    assert "" + q == q && "" + r == r && "" + ("data: " + "q") == "data: " + "q" && "" + ("data: " + "r") == "data: " + "r";
    later := if FirstEvent(open + q, e => true) != FirstEvent(q, e => true) then q else r;
  }

  lemma BegunEvent(open: string)
    requires open != "" && open[|open| - 1] == '\n' && !NoValues(open)
    ensures EventOf(open + ("data: " + "q")) != Event(None, None, "q")
  {
    hide ValuesOf, Lines, Joined, FieldOf, ValueOf, Skipped;
    var data := "data: " + "q";
    ValuesBehind(open, data, "id");
    ValuesBehind(open, data, "event");
    ValuesBehind(open, data, "data");
    OneLine(data);
    FieldLineParses("data", "q");
    assert FieldLine("data", "q") == data;
    LastValue(data, "id");
    LastValue(data, "event");
    LastValue(data, "data");
    JoinedMore(ValuesOf(Lines(open), "data"), ValueOf(data));
    assert ValueOf(data) == "q" by { assert !IsSpace('q'); }
  }

  /** Fields that have begun show in the event that follows. */
  lemma BegunShows(open: string) returns (later: string)
    requires open != "" && open[|open| - 1] == '\n' && FirstSeparator(open, 0) == |open| && !NoValues(open)
    ensures FirstEvent(open + later, e => true) != FirstEvent(later, e => true)
  {
    hide FirstEvent, FirstSeparator, NoValues, EventOf;
    var data := "data: " + "q";
    later := "data: " + "q" + "\n\n";
    PlainDatum("q");
    NoNewSeparator("", "");
    DataFollows("", "q");
    DataFollows(open, "q");
    assert "" + later == later && "" + data == data;
    BegunEvent(open);
  }

  lemma JoinedMore(values: seq<string>, value: string)
    ensures Joined(values) != "" ==> |Joined(values + [value])| > |value|
  {
    assert (values + [value])[..|values|] == values;
  }

  /** A completed event in the unread text is missed at once. */
  lemma CompletedShows(unread: string, i: nat)
    requires i < |Blocks(unread)| && Parsed(Blocks(unread)[i]).Some?
    ensures FirstEvent(unread + "", e => true) != FirstEvent("", e => true)
  {
    hide Parsed, Blocks;
    var blocks := Blocks(unread);
    assert unread + "" == unread;
    FirstMatchConcat(blocks[..i + 1], blocks[i + 1..], e => true);
    assert blocks[..i + 1] + blocks[i + 1..] == blocks && blocks[..i + 1][..i] == blocks[..i];
    NothingIn();
  }

  lemma NothingIn()
    ensures FirstEvent("", e => true) == None
  {
    hide Parsed;
    SplitEmpty();
  }

  /** The buffer is dropped when an event is found. Whatever comes later and whatever is wanted, a later wait finds the
      next wanted event of the whole text exactly when the unread text is harmless. */
  lemma SecondWaitExactly(unread: string)
    ensures (forall later: string, wanted: Event -> bool :: FirstEvent(unread + later, wanted) == FirstEvent(later, wanted))
      <==> Harmless(unread)
  {
    hide FirstEvent, Blocks, Split, Idle, NoValues, Parsed, FirstSeparator;
    if Harmless(unread) {
      forall later: string, wanted: Event -> bool ensures FirstEvent(unread + later, wanted) == FirstEvent(later, wanted) {
        HarmlessSkipped(unread, later, wanted);
      }
    } else {
      var later := HarmShows(unread);
    }
  }

  /** In terms of the waits: after one that took these chunks, the next wait finds the next wanted event of the whole text,
      whatever chunks come and whatever is wanted, exactly when the chunks hold nothing but harmless text behind the first event. */
  lemma NextEventExactly(taken: seq<string>, wanted: Event -> bool)
    requires FirstEvent(Flatten(taken), wanted).Some?
    ensures (forall rest: seq<string>, next: Event -> bool ::
          FirstEvent(RestOf(Flatten(taken + rest), wanted), next) == FirstEvent(Flatten(rest), next))
      <==> Harmless(RestOf(Flatten(taken), wanted))
  {
    hide FirstEvent, RestOf, Flatten, Harmless;
    var unread := RestOf(Flatten(taken), wanted);
    forall rest ensures RestOf(Flatten(taken + rest), wanted) == unread + Flatten(rest) {
      FlattenConcat(taken, rest);
      RestStable(Flatten(taken), Flatten(rest), wanted);
    }
    if Harmless(unread) {
      forall rest: seq<string>, next: Event -> bool
        ensures FirstEvent(RestOf(Flatten(taken + rest), wanted), next) == FirstEvent(Flatten(rest), next)
      {
        HarmlessSkipped(unread, Flatten(rest), next);
      }
    } else {
      var later := HarmShows(unread);
      OneChunk(later);
      var rest: seq<string>, next: Event -> bool := [later], e => true;
      assert FirstEvent(RestOf(Flatten(taken + rest), wanted), next) != FirstEvent(Flatten(rest), next);
    }
  }

  lemma HarmShows(unread: string) returns (later: string)
    requires !Harmless(unread)
    ensures FirstEvent(unread + later, e => true) != FirstEvent(later, e => true)
  {
    hide FirstEvent, Blocks, Split, NoValues, Parsed, FirstSeparator;
    if i: nat :| i < |Blocks(unread)| && Parsed(Blocks(unread)[i]).Some? {
      CompletedShows(unread, i);
      later := "";
    } else {
      var open := Last(Split(unread));
      LastIsOpen(unread);
      if open[|open| - 1] != '\n' {
        later := UnfinishedShows(open);
      } else {
        later := BegunShows(open);
      }
      NoneIn(unread);
      LaterFirst(unread, later, e => true);
    }
  }

  lemma NoneIn(unread: string)
    requires forall i :: 0 <= i < |Blocks(unread)| ==> Parsed(Blocks(unread)[i]) == None
    ensures FirstEvent(unread, e => true) == None
  {
    hide Parsed, Blocks;
    NoneMatch(Blocks(unread), e => true);
  }

  /** Two events in one chunk. The first wait finds the first of them, and a second wait ends without the other. The read
      that checks for data after the first event finds none. */
  method SecondEventLost() returns (first: Outcome, second: Outcome, overflow: Overflow, ghost unread: string)
    ensures first == Found(Event(None, None, "q")) && second == Ended && overflow == Passed
    ensures unread == "data: r\n\n" && FirstEvent(unread, e => true) == Some(Event(None, None, "r"))
  {
    hide FirstEvent, RestOf, Flatten;
    var chunk := "data: q\n\n" + "data: r\n\n";
    ghost var taken, more;
    TwoEvents();
    OneChunk(chunk);
    var stream := new Stream([chunk], n => false);
    first, taken, unread := stream.ReadEvent(e => true);
    assert [chunk][..1] == [chunk];
    second, taken, more := stream.ReadEvent(e => true);
    var again := new Stream([chunk], n => false);
    overflow, taken, more := again.VerifyOverflow(e => true, e => true);
  }

  lemma OneChunk(chunk: string)
    ensures Flatten([chunk]) == chunk && Flatten([]) == "" && FirstEvent("", e => true) == None
  {
    NothingIn();
    assert [chunk][..0] == [];
  }

  lemma TwoEvents()
    ensures FirstEvent("data: q\n\n" + "data: r\n\n", e => true) == Some(Event(None, None, "q"))
    ensures RestOf("data: q\n\n" + "data: r\n\n", e => true) == "data: r\n\n"
    ensures FirstEvent("data: r\n\n", e => true) == Some(Event(None, None, "r"))
  {
    hide FirstEvent, RestOf, FirstSeparator, Parsed, Behind;
    var q, r := "data: " + "q" + "\n\n", "data: " + "r" + "\n\n";
    assert q == "data: q\n\n" && r == "data: r\n\n";
    PlainDatum("q");
    PlainDatum("r");
    NoNewSeparator("", "data: q");
    assert "" + "data: q" == "data: q" && "data: q" == "data: " + "q";
    EndedBlock("data: q");
    FirstRest(q, "data: q");
    DataFollows("", "q");
    DataFollows("", "r");
    assert "" + q == q && "" + r == r && "" + ("data: " + "q") == "data: " + "q" && "" + ("data: " + "r") == "data: " + "r";
    FoundStays(q, r, e => true);
    RestStable(q, r, e => true);
    assert "" + r == r;
  }

  lemma FirstRest(text: string, block: string)
    requires FirstSeparator(text, 0) == |block| < |text| && text[..|block|] == block && Parsed(block).Some? && Behind(text, |block|) == ""
    ensures RestOf(text, e => true) == ""
  {
    hide FirstSeparator, Parsed, Behind;
  }
}
