/** The event-stream reader of the realtime smoke check: blocks are cut out of decoded text that arrives in chunks. */
module Sse {

  // ----- Cutting text at blank lines -----

  /** The length of the blank-line separator (two line feeds, each after an optional carriage return) at i; 0 if there is none. */
  function SeparatorAt(s: string, i: nat): nat
    requires i <= |s|
  {
    var j := if i < |s| && s[i] == '\r' then i + 1 else i;
    if j < |s| && s[j] == '\n' then
      var k := if j + 1 < |s| && s[j + 1] == '\r' then j + 2 else j + 1;
      if k < |s| && s[k] == '\n' then k + 1 - i else 0
    else 0
  }

  /** The first separator at or after i, or the end of the text. */
  function FirstSeparator(s: string, i: nat): (p: nat)
    requires i <= |s|
    ensures i <= p <= |s| && (p < |s| ==> SeparatorAt(s, p) > 0)
    decreases |s| - i
  {
    if i == |s| || SeparatorAt(s, i) > 0 then i else FirstSeparator(s, i + 1)
  }

  lemma {:induction false} FirstSeparatorIsFirst(s: string, i: nat)
    requires i <= |s|
    ensures forall k :: i <= k < FirstSeparator(s, i) ==> SeparatorAt(s, k) == 0
    decreases |s| - i
  {
    hide SeparatorAt;
    if i < |s| && SeparatorAt(s, i) == 0 {
      FirstSeparatorIsFirst(s, i + 1);
    }
  }

  function Split(s: string): (blocks: seq<string>)
    ensures |blocks| >= 1
    decreases |s|
  {
    var p := FirstSeparator(s, 0);
    if p == |s| then [s] else [s[..p]] + Split(Behind(s, p))
  }

  /** The text behind the separator at p. */
  function Behind(s: string, p: nat): (r: string)
    requires p <= |s|
    ensures SeparatorAt(s, p) > 0 ==> |r| < |s|
  {
    s[p + SeparatorAt(s, p)..]
  }

  function Init(blocks: seq<string>): seq<string>
    requires |blocks| >= 1
  {
    blocks[..|blocks| - 1]
  }

  function Last(blocks: seq<string>): string
    requires |blocks| >= 1
  {
    blocks[|blocks| - 1]
  }

  /** The blocks a text has completed; what follows its last separator is still open. */
  function Blocks(s: string): seq<string> {
    Init(Split(s))
  }

  /** Text that arrives later neither moves nor lengthens a separator that is already complete. */
  lemma SeparatorStable(s: string, t: string, i: nat)
    requires i <= |s| && SeparatorAt(s, i) > 0
    ensures SeparatorAt(s + t, i) == SeparatorAt(s, i)
    ensures forall k :: 0 <= k < i && SeparatorAt(s, k) == 0 ==> SeparatorAt(s + t, k) == 0
  {
    var u := s + t;
    forall k | 0 <= k < |s| ensures u[k] == s[k] {}
    forall k | 0 <= k < i && SeparatorAt(s, k) == 0 ensures SeparatorAt(u, k) == 0 {
      assert u[k] == s[k] && u[i] == s[i];
    }
  }

  lemma FirstSeparatorStable(s: string, t: string)
    requires FirstSeparator(s, 0) < |s|
    ensures FirstSeparator(s + t, 0) == FirstSeparator(s, 0)
    ensures SeparatorAt(s + t, FirstSeparator(s, 0)) == SeparatorAt(s, FirstSeparator(s, 0))
  {
    hide SeparatorAt;
    var p, q := FirstSeparator(s, 0), FirstSeparator(s + t, 0);
    SeparatorStable(s, t, p);
    FirstSeparatorIsFirst(s, 0);
    FirstSeparatorIsFirst(s + t, 0);
    assert q >= p by {
      assert forall k :: 0 <= k < p ==> SeparatorAt(s + t, k) == 0;
    }
  }

  lemma SplitStep(s: string)
    ensures FirstSeparator(s, 0) == |s| ==> Split(s) == [s]
    ensures FirstSeparator(s, 0) < |s| ==> Split(s) == [s[..FirstSeparator(s, 0)]] + Split(Behind(s, FirstSeparator(s, 0)))
  {
    hide SeparatorAt, FirstSeparator, Behind;
  }

  lemma SeparatorFits(s: string, i: nat)
    requires i <= |s|
    ensures i + SeparatorAt(s, i) <= |s|
  {
  }

  /** Splitting can stop after any piece of text and go on from its open block. */
  lemma {:induction false} SplitAppend(s: string, t: string)
    ensures Split(s + t) == Init(Split(s)) + Split(Last(Split(s)) + t)
    decreases |s|
  {
    hide SeparatorAt, FirstSeparator, Split;
    var p := FirstSeparator(s, 0);
    SplitStep(s);
    if p < |s| {
      FirstSeparatorStable(s, t);
      SplitStep(s + t);
      SplitAppend(Behind(s, p), t);
      SeparatorFits(s, p);
      assert Behind(s + t, p) == Behind(s, p) + t && (s + t)[..p] == s[..p];
      assert Init(Split(s)) == [s[..p]] + Init(Split(Behind(s, p)));
    }
  }

  // ----- Chunks -----

  function Flatten(chunks: seq<string>): string {
    if chunks == [] then "" else Flatten(chunks[..|chunks| - 1]) + chunks[|chunks| - 1]
  }

  datatype Fed = Fed(blocks: seq<string>, buffer: string)

  /** What the reader has cut out after these chunks, and what it still holds. */
  function Feed(chunks: seq<string>): Fed {
    if chunks == [] then Fed([], "")
    else
      var before := Feed(chunks[..|chunks| - 1]);
      var pieces := Split(before.buffer + chunks[|chunks| - 1]);
      Fed(before.blocks + Init(pieces), Last(pieces))
  }

  /** However the text is cut into chunks, the reader ends up with the blocks of the whole text. */
  lemma {:induction false} FeedIsSplit(chunks: seq<string>)
    ensures Feed(chunks).blocks == Blocks(Flatten(chunks))
    ensures Feed(chunks).buffer == Last(Split(Flatten(chunks)))
  {
    hide Split;
    if chunks == [] {
      SplitEmpty();
    } else {
      var init, last := chunks[..|chunks| - 1], chunks[|chunks| - 1];
      FeedIsSplit(init);
      SplitAppend(Flatten(init), last);
    }
  }

  lemma SplitEmpty()
    ensures Split("") == [""]
  {
  }

  /** The completed blocks of a text stay the first blocks of every longer text. */
  lemma BlocksGrow(s: string, t: string)
    ensures Blocks(s) <= Blocks(s + t)
  {
    hide Split;
    SplitAppend(s, t);
  }

  lemma {:induction false} FlattenConcat(a: seq<string>, b: seq<string>)
    ensures Flatten(a + b) == Flatten(a) + Flatten(b)
  {
    if b == [] {
      assert a + b == a;
    } else {
      FlattenConcat(a, b[..|b| - 1]);
      assert (a + b)[..|a + b| - 1] == a + b[..|b| - 1];
    }
  }
}
