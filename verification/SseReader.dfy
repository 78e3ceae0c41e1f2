/** Waiting for an event: chunks are read until a completed block holds an event that is wanted. */
module SseReader {
  import opened Wrappers
  import opened Sse
  import opened SseEvents

  /** The first wanted event of the blocks. */
  function FirstMatch(blocks: seq<string>, wanted: Event -> bool): Option<Event> {
    if blocks == [] then None
    else
      var before := FirstMatch(blocks[..|blocks| - 1], wanted);
      var event := Parsed(blocks[|blocks| - 1]);
      if before.Some? then before
      else if event.Some? && wanted(event.value) then event
      else None
  }

  lemma {:induction false} FirstMatchConcat(a: seq<string>, b: seq<string>, wanted: Event -> bool)
    ensures FirstMatch(a + b, wanted) == if FirstMatch(a, wanted).Some? then FirstMatch(a, wanted) else FirstMatch(b, wanted)
  {
    hide Parsed;
    if b == [] {
      assert a + b == a;
    } else {
      FirstMatchConcat(a, b[..|b| - 1], wanted);
      assert (a + b)[..|a + b| - 1] == a + b[..|b| - 1];
    }
  }

  /** The event a reader of this text finds, however the text arrives. */
  function FirstEvent(text: string, wanted: Event -> bool): Option<Event> {
    FirstMatch(Blocks(text), wanted)
  }

  /** An event found early is the one found in any longer text. */
  lemma FoundStays(s: string, t: string, wanted: Event -> bool)
    ensures FirstEvent(s, wanted).Some? ==> FirstEvent(s + t, wanted) == FirstEvent(s, wanted)
  {
    hide FirstMatch, Blocks;
    BlocksGrow(s, t);
    var a, b := Blocks(s), Blocks(s + t);
    assert b == a + b[|a|..];
    FirstMatchConcat(a, b[|a|..], wanted);
  }

  /** The text behind the block that holds the first wanted event. */
  function RestOf(text: string, wanted: Event -> bool): string
    decreases |text|
  {
    var p := FirstSeparator(text, 0);
    if p == |text| then ""
    else
      var event := Parsed(text[..p]);
      if event.Some? && wanted(event.value) then Behind(text, p) else RestOf(Behind(text, p), wanted)
  }

  /** Events are found block by block. */
  lemma EventStep(text: string, wanted: Event -> bool)
    ensures var p := FirstSeparator(text, 0);
      FirstEvent(text, wanted) ==
        if p == |text| then None
        else if Parsed(text[..p]).Some? && wanted(Parsed(text[..p]).value) then Parsed(text[..p])
        else FirstEvent(Behind(text, p), wanted)
  {
    hide Split, FirstSeparator, Behind, Parsed;
    SplitStep(text);
    var p := FirstSeparator(text, 0);
    if p < |text| {
      var first, others := [text[..p]], Blocks(Behind(text, p));
      assert Blocks(text) == first + others;
      FirstMatchConcat(first, others, wanted);
      assert first[..0] == [];
    }
  }

  /** Text that arrives later is behind the found event. */
  lemma {:induction false} RestStable(s: string, t: string, wanted: Event -> bool)
    requires FirstEvent(s, wanted).Some?
    ensures RestOf(s + t, wanted) == RestOf(s, wanted) + t
    decreases |s|
  {
    hide FirstEvent, FirstSeparator, SeparatorAt, Parsed;
    EventStep(s, wanted);
    var p := FirstSeparator(s, 0);
    FirstSeparatorStable(s, t);
    SeparatorFits(s, p);
    assert (s + t)[..p] == s[..p] && Behind(s + t, p) == Behind(s, p) + t;
    var event := Parsed(s[..p]);
    if !(event.Some? && wanted(event.value)) {
      RestStable(Behind(s, p), t, wanted);
    }
  }

  /** The text is cut behind a block that holds the first wanted event. */
  ghost predicate CutBehind(head: string, rest: string, wanted: Event -> bool) {
    && Blocks(head) != [] && Last(Split(head)) == ""
    && Blocks(head + rest) == Blocks(head) + Blocks(rest)
    && Parsed(Last(Blocks(head))) == FirstEvent(head + rest, wanted) && FirstMatch(Init(Blocks(head)), wanted) == None
  }

  /** The found event is that of the last block in front of that text, and no block before it is wanted. */
  lemma {:induction false} RestIsBehind(text: string, wanted: Event -> bool)
    requires FirstEvent(text, wanted).Some?
    ensures |RestOf(text, wanted)| < |text|
    ensures var head := text[..|text| - |RestOf(text, wanted)|];
      text == head + RestOf(text, wanted) && CutBehind(head, RestOf(text, wanted), wanted)
    decreases |text|
  {
    hide FirstEvent, FirstSeparator, SeparatorAt, Parsed, Split, FirstMatch, CutBehind;
    var p := FirstSeparator(text, 0);
    EventStep(text, wanted);
    SeparatorFits(text, p);
    var first, later := text[..|text| - |Behind(text, p)|], Behind(text, p);
    assert text == first + later;
    var event := Parsed(text[..p]);
    if event.Some? && wanted(event.value) {
      CutFirst(text, wanted);
    } else {
      RestIsBehind(later, wanted);
      var rest := RestOf(text, wanted);
      var head := later[..|later| - |rest|];
      assert text[..|text| - |rest|] == first + head && text == first + head + rest;
      OneBlock(text[..p], wanted);
      HeadBlock(text);
      assert later == head + rest;
      CutLater(first, text[..p], head, rest, wanted);
    }
  }

  lemma CutFirst(text: string, wanted: Event -> bool)
    requires FirstSeparator(text, 0) < |text|
    requires FirstEvent(text, wanted) == Parsed(text[..FirstSeparator(text, 0)])
    ensures |Behind(text, FirstSeparator(text, 0))| < |text|
    ensures CutBehind(text[..|text| - |Behind(text, FirstSeparator(text, 0))|], Behind(text, FirstSeparator(text, 0)), wanted)
  {
    hide FirstEvent, FirstSeparator, SeparatorAt, Parsed, Split, FirstMatch;
    var p := FirstSeparator(text, 0);
    HeadBlock(text);
    SeparatorFits(text, p);
    var head, rest := text[..|text| - |Behind(text, p)|], Behind(text, p);
    assert text == head + rest;
    SplitAppend(head, rest);
    assert "" + rest == rest;
    NothingYet(wanted);
    assert Init([text[..p]]) == [];
  }

  lemma PrependBlock(first: string, block: string, t: string)
    requires Split(first) == [block, ""]
    ensures Split(first + t) == [block] + Split(t) && Blocks(first + t) == [block] + Blocks(t)
  {
    hide Split;
    SplitAppend(first, t);
    assert "" + t == t;
  }

  lemma CutLater(first: string, block: string, head: string, rest: string, wanted: Event -> bool)
    requires Split(first) == [block, ""] && CutBehind(head, rest, wanted)
    requires FirstEvent(first + (head + rest), wanted) == FirstEvent(head + rest, wanted)
    requires FirstMatch([block], wanted) == None
    ensures CutBehind(first + head, rest, wanted)
  {
    hide FirstEvent, Parsed, Split, FirstMatch, Blocks;
    PrependBlock(first, block, head);
    PrependBlock(first, block, head + rest);
    assert (first + head) + rest == first + (head + rest);
    assert Init([block] + Blocks(head)) == [block] + Init(Blocks(head));
    FirstMatchConcat([block], Init(Blocks(head)), wanted);
  }

  lemma OneBlock(block: string, wanted: Event -> bool)
    ensures FirstMatch([block], wanted) == if Parsed(block).Some? && wanted(Parsed(block).value) then Parsed(block) else None
  {
    hide Parsed;
    assert [block][..0] == [];
  }

  /** A text up to behind its first separator is one block and an empty rest. */
  lemma HeadBlock(text: string)
    requires FirstSeparator(text, 0) < |text|
    ensures Split(text[..|text| - |Behind(text, FirstSeparator(text, 0))|]) == [text[..FirstSeparator(text, 0)], ""]
  {
    hide Split, FirstSeparator, SeparatorAt;
    var p := FirstSeparator(text, 0);
    SeparatorFits(text, p);
    var q := p + SeparatorAt(text, p);
    var head := text[..q];
    FirstSeparatorIsFirst(text, 0);
    HeadSeparators(text, p);
    FirstSeparatorIsFirst(head, 0);
    SplitStep(head);
    SplitEmpty();
    assert head[..p] == text[..p] && Behind(head, p) == "";
  }

  lemma HeadSeparators(text: string, p: nat)
    requires p <= |text| && SeparatorAt(text, p) > 0 && forall k :: 0 <= k < p ==> SeparatorAt(text, k) == 0
    ensures var head := text[..p + SeparatorAt(text, p)];
      SeparatorAt(head, p) == SeparatorAt(text, p) && forall k :: 0 <= k < p ==> SeparatorAt(head, k) == 0
  {
    var head := text[..p + SeparatorAt(text, p)];
    assert forall k :: 0 <= k < |head| ==> head[k] == text[k];
    forall k | 0 <= k < p ensures SeparatorAt(head, k) == 0 {
      assert SeparatorAt(text, k) == 0;
    }
  }

  datatype Outcome = Found(event: Event) | Ended | TimedOut

  /** How the check of an overflowing stream ends. */
  datatype Overflow = Passed | NoResync(wait: Outcome) | WrongReason | StaysOpen | DataAfter

  /** A response body: the decoded chunks that have not been read yet, and the reads that take too long. */
  class Stream {
    const slow: nat -> bool
    var rest: seq<string>
    var time: nat

    constructor (chunks: seq<string>, slow: nat -> bool)
      ensures rest == chunks && this.slow == slow && time == 0
    {
      this.slow, rest, time := slow, chunks, 0;
    }

    /** One read of the body; `None` when it is done. */
    method Read() returns (late: bool, chunk: Option<string>)
      modifies this
      ensures time == old(time) + 1 && late == slow(old(time))
      ensures late ==> rest == old(rest)
      ensures !late ==> if old(rest) == [] then chunk == None && rest == [] else chunk == Some(old(rest)[0]) && rest == old(rest)[1..]
    {
      late := slow(time);
      time := time + 1;
      chunk := None;
      if !late && rest != [] {
        chunk := Some(rest[0]);
        rest := rest[1..];
      }
    }

    /** Finds the first wanted event of the whole text, unless a read takes too long, and reads no chunk beyond the one
        that completes it. What that chunk holds behind the event is unread, and gone. */
    method ReadEvent(wanted: Event -> bool) returns (r: Outcome, ghost taken: nat, ghost unread: string)
      modifies this
      ensures taken <= |old(rest)| && rest == old(rest)[taken..]
      ensures time > old(time) && (r.TimedOut? <==> slow(time - 1)) && forall n :: old(time) <= n < time - 1 ==> !slow(n)
      ensures r.Found? ==> FirstEvent(Flatten(old(rest)), wanted) == Some(r.event)
      ensures r.Found? ==> taken > 0 && FirstEvent(Flatten(old(rest)[..taken - 1]), wanted) == None
      ensures r.Found? ==> FirstEvent(Flatten(old(rest)[..taken]), wanted) == Some(r.event)
      ensures r.Found? ==> unread == RestOf(Flatten(old(rest)[..taken]), wanted)
      ensures r.Found? ==> RestOf(Flatten(old(rest)), wanted) == unread + Flatten(rest)
      ensures r.Ended? ==> rest == [] && FirstEvent(Flatten(old(rest)), wanted) == None
    {
      hide Blocks, Split, Flatten, FirstMatch, Feed, RestOf;
      ghost var all := rest;
      taken, unread := 0, "";
      var buffer := "";
      NothingYet(wanted);
      assert all[..0] == [];
      while true
        invariant taken <= |all| && rest == all[taken..]
        invariant time >= old(time) && forall n :: old(time) <= n < time ==> !slow(n)
        invariant buffer == Feed(all[..taken]).buffer
        invariant FirstMatch(Feed(all[..taken]).blocks, wanted) == None
        decreases |rest|
      {
        FeedIsSplit(all[..taken]);
        var late, chunk := Read();
        if late { return TimedOut, taken, unread; }
        if chunk.None? {
          assert all[..taken] == all;
          return Ended, taken, unread;
        }
        ChunkStep(all, taken);
        buffer := buffer + chunk.value;
        taken := taken + 1;
        var pieces := Split(buffer);
        var found := FindIn(Init(pieces), wanted);
        FirstMatchConcat(Feed(all[..taken - 1]).blocks, Init(pieces), wanted);
        if found.Some? {
          FeedIsSplit(all[..taken]);
          FlattenConcat(all[..taken], all[taken..]);
          assert all[..taken] + all[taken..] == all;
          FoundStays(Flatten(all[..taken]), Flatten(all[taken..]), wanted);
          unread := RestOf(Flatten(all[..taken]), wanted);
          RestStable(Flatten(all[..taken]), Flatten(all[taken..]), wanted);
          return Found(found.value), taken, unread;
        }
        buffer := Last(pieces);
      }
    }

    /** After the resync event the script reads once more and takes "done" for "no data after the resync". It passes
        exactly when the chunk with the event was the last one; there was then no data after the event exactly when
        that chunk held nothing behind it. */
    method VerifyOverflow(isResync: Event -> bool, rightReason: Event -> bool)
      returns (r: Overflow, ghost taken: nat, ghost unread: string)
      modifies this
      ensures taken <= |old(rest)|
      ensures !r.NoResync? ==>
        && taken > 0 && FirstEvent(Flatten(old(rest)[..taken - 1]), isResync) == None
        && FirstEvent(Flatten(old(rest)[..taken]), isResync).Some? && unread == RestOf(Flatten(old(rest)[..taken]), isResync)
        && FirstEvent(Flatten(old(rest)), isResync) == FirstEvent(Flatten(old(rest)[..taken]), isResync)
        && RestOf(Flatten(old(rest)), isResync) == unread + Flatten(old(rest)[taken..])
      ensures !r.NoResync? ==> (r.WrongReason? <==> !rightReason(FirstEvent(Flatten(old(rest)), isResync).value))
      ensures r.Passed? ==> taken == |old(rest)| && rest == [] && (RestOf(Flatten(old(rest)), isResync) == "" <==> unread == "")
      ensures r.DataAfter? ==> taken < |old(rest)| && rest == old(rest)[taken + 1..]
      ensures r.NoResync? ==> r.wait.TimedOut? || (r.wait.Ended? && FirstEvent(Flatten(old(rest)), isResync) == None)
      ensures r.StaysOpen? || r == NoResync(TimedOut) <==> exists n :: old(time) <= n < time && slow(n)
    {
      hide FirstEvent, Flatten, RestOf;
      var wait;
      wait, taken, unread := ReadEvent(isResync);
      if !wait.Found? { return NoResync(wait), taken, unread; }
      if !rightReason(wait.event) { return WrongReason, taken, unread; }
      var late, chunk := Read();
      if late { return StaysOpen, taken, unread; }
      if chunk.Some? { return DataAfter, taken, unread; }
      NothingFlat();
      assert unread + "" == unread;
      r := Passed;
    }
  }

  lemma NothingFlat()
    ensures Flatten([]) == ""
  {
  }

  /** One pass over the blocks of a buffer. */
  method FindIn(blocks: seq<string>, wanted: Event -> bool) returns (r: Option<Event>)
    ensures r == FirstMatch(blocks, wanted)
  {
    hide Parsed;
    var i := 0;
    while i < |blocks|
      invariant 0 <= i <= |blocks|
      invariant FirstMatch(blocks[..i], wanted) == None
    {
      var event := ParseSseBlock(blocks[i]);
      assert blocks[..i + 1][..i] == blocks[..i];
      if event.Some? && wanted(event.value) {
        FirstMatchConcat(blocks[..i + 1], blocks[i + 1..], wanted);
        assert blocks[..i + 1] + blocks[i + 1..] == blocks;
        return event;
      }
      i := i + 1;
    }
    assert blocks[..|blocks|] == blocks;
    r := None;
  }

  lemma NothingYet(wanted: Event -> bool)
    ensures Feed([]) == Fed([], "") && FirstMatch([], wanted) == None
  {
  }

  lemma ChunkStep(chunks: seq<string>, n: nat)
    requires n < |chunks|
    ensures var pieces := Split(Feed(chunks[..n]).buffer + chunks[n]);
      Feed(chunks[..n + 1]) == Fed(Feed(chunks[..n]).blocks + Init(pieces), Last(pieces))
  {
    hide Split;
    assert chunks[..n + 1][..n] == chunks[..n];
  }

  /** Two ways of cutting the same text give the same event. */
  lemma ChunkingIrrelevant(a: seq<string>, b: seq<string>, wanted: Event -> bool)
    requires Flatten(a) == Flatten(b)
    ensures Feed(a) == Feed(b)
    ensures FirstMatch(Feed(a).blocks, wanted) == FirstEvent(Flatten(b), wanted)
  {
    hide Feed, Flatten, Split, FirstMatch;
    FeedIsSplit(a);
    FeedIsSplit(b);
  }
}
