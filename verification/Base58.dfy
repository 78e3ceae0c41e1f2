/** Base58 as the wallet session reads and writes it: a number between two bases, with leading zeros kept apart. */
module Base58 {
  import opened Wrappers

  // The digits in order, without 0, O, I and l; spelled in runs of consecutive characters.
  const ALPHABET: string := UPPER_HALF + LOWER_HALF
  const UPPER_HALF := "123456789" + "ABCDEFGH" + "JKLMN" + "PQRSTUVWXYZ"
  const LOWER_HALF := "abcdefghijk" + "mnopqrstuvwxyz"

  // ----- Numerals, most significant digit first -----

  type Digits = seq<nat>

  /** The two bases in use. */
  type Base = b: nat | b == 58 || b == 256 witness 58

  ghost predicate Below(base: Base, d: Digits) {
    forall i :: 0 <= i < |d| ==> d[i] < base
  }

  function Shifted(base: Base, n: nat, digit: nat): nat {
    if base == 58 then n * 58 + digit else n * 256 + digit
  }

  function Quotient(base: Base, n: nat): (q: nat)
    ensures n > 0 ==> q < n
  {
    if base == 58 then n / 58 else n / 256
  }

  function Remainder(base: Base, n: nat): (r: nat)
    ensures r < base
  {
    if base == 58 then n % 58 else n % 256
  }

  function Value(base: Base, d: Digits): nat {
    if d == [] then 0 else Shifted(base, Value(base, d[..|d| - 1]), d[|d| - 1])
  }

  function Numeral(base: Base, n: nat): Digits {
    if n == 0 then [] else Numeral(base, Quotient(base, n)) + [Remainder(base, n)]
  }

  function Zeros(n: nat): (d: Digits)
    ensures |d| == n && forall i :: 0 <= i < n ==> d[i] == 0
  {
    seq(n, _ => 0)
  }

  function LeadingZeros(d: Digits): (n: nat)
    ensures n <= |d| && (forall i :: 0 <= i < n ==> d[i] == 0) && (n < |d| ==> d[n] != 0)
  {
    if d == [] || d[0] != 0 then 0 else 1 + LeadingZeros(d[1..])
  }

  /** The digits in the other base, with as many leading zeros as before. */
  function Converted(from: Base, to: Base, d: Digits): Digits {
    Zeros(LeadingZeros(d)) + Numeral(to, Value(from, d))
  }

  lemma {:induction false} NumeralProperties(base: Base, n: nat)
    ensures Below(base, Numeral(base, n))
    ensures n > 0 ==> |Numeral(base, n)| > 0 && Numeral(base, n)[0] != 0
    ensures Value(base, Numeral(base, n)) == n
  {
    if n > 0 {
      NumeralProperties(base, Quotient(base, n));
      var d := Numeral(base, n);
      assert d[..|d| - 1] == Numeral(base, Quotient(base, n));
    }
  }

  lemma ShiftBack(base: Base, n: nat, digit: nat)
    requires digit < base
    ensures Quotient(base, Shifted(base, n, digit)) == n && Remainder(base, Shifted(base, n, digit)) == digit
    ensures n > 0 || digit > 0 ==> Shifted(base, n, digit) > 0
  {
  }

  lemma {:induction false} NumeralOfValue(base: Base, d: Digits)
    requires Below(base, d) && (d != [] ==> d[0] != 0)
    ensures d != [] ==> Value(base, d) > 0
    ensures Numeral(base, Value(base, d)) == d
  {
    hide Shifted, Quotient, Remainder;
    if d != [] {
      var init, last := d[..|d| - 1], d[|d| - 1];
      NumeralOfValue(base, init);
      ShiftBack(base, Value(base, init), last);
    }
  }

  lemma {:induction false} ZerosAddNothing(base: Base, n: nat, d: Digits)
    ensures Value(base, Zeros(n) + d) == Value(base, d)
  {
    var all := Zeros(n) + d;
    if d != [] {
      ZerosAddNothing(base, n, d[..|d| - 1]);
      assert all[..|all| - 1] == Zeros(n) + d[..|d| - 1];
    } else if n > 0 {
      ZerosAddNothing(base, n - 1, []);
      assert all[..|all| - 1] == Zeros(n - 1) + [];
    }
  }

  lemma SplitZeros(n: nat, rest: Digits)
    requires rest != [] ==> rest[0] != 0
    ensures LeadingZeros(Zeros(n) + rest) == n
  {
    var d := Zeros(n) + rest;
    var m := LeadingZeros(d);
    assert m < |d| ==> d[m] != 0;
    assert n < |d| ==> d[n] != 0;
  }

  /** Converting there and back restores every numeral, leading zeros and the empty one included. */
  lemma ConvertedBack(from: Base, to: Base, d: Digits)
    requires Below(from, d)
    ensures Converted(to, from, Converted(from, to, d)) == d
    ensures Below(to, Converted(from, to, d))
  {
    var z, n := LeadingZeros(d), Value(from, d);
    assert d == Zeros(z) + d[z..];
    ZerosAddNothing(from, z, d[z..]);
    NumeralOfValue(from, d[z..]);
    NumeralProperties(to, n);
    ZerosAddNothing(to, z, Numeral(to, n));
    SplitZeros(z, Numeral(to, n));
  }

  // ----- The alphabet -----

  predicate IsLetter(c: char) {
    c in ALPHABET
  }

  predicate InAlphabet(text: string) {
    forall i :: 0 <= i < |text| ==> IsLetter(text[i])
  }

  function Letters(d: Digits): string {
    seq(|d|, i requires 0 <= i < |d| => if d[i] < 58 then ALPHABET[d[i]] else '?')
  }

  /** The first position of a character, or -1. */
  function IndexOf(c: char): (i: int)
    ensures -1 <= i < 58 && (i < 0 <==> !IsLetter(c))
  {
    IndexFrom(ALPHABET, c, 0)
  }

  function IndexFrom(s: string, c: char, k: nat): (i: int)
    requires k <= |s|
    ensures -1 <= i < |s| && (i >= 0 ==> k <= i && s[i] == c) && (i < 0 ==> c !in s[k..])
    ensures forall j :: k <= j < i ==> s[j] != c
    decreases |s| - k
  {
    if k == |s| then -1 else if s[k] == c then k else IndexFrom(s, c, k + 1)
  }

  function Indices(text: string): Digits
    requires InAlphabet(text)
  {
    seq(|text|, i requires 0 <= i < |text| => IndexOf(text[i]))
  }

  lemma UpperAscends(i: nat)
    requires i < 32
    ensures |UPPER_HALF| == 33 && UPPER_HALF[i] < UPPER_HALF[i + 1]
  {
  }

  lemma LowerAscends(i: nat)
    requires i < 24
    ensures |LOWER_HALF| == 25 && LOWER_HALF[i] < LOWER_HALF[i + 1]
  {
  }

  lemma AlphabetAscends(i: nat)
    requires i < 57
    ensures ALPHABET[i] < ALPHABET[i + 1]
  {
    if i < 32 {
      UpperAscends(i);
    } else if i > 32 {
      LowerAscends(i - 33);
    }
  }

  lemma {:induction false} AscendingIsSorted(s: string, i: nat, j: nat)
    requires forall k, l :: 0 <= k < l < |s| && l == k + 1 ==> s[k] < s[l]
    requires i < j < |s|
    ensures s[i] < s[j]
  {
    if i < j - 1 {
      AscendingIsSorted(s, i, j - 1);
    }
  }

  lemma IndexOfLetter(digit: nat)
    requires digit < 58
    ensures IndexOf(ALPHABET[digit]) == digit
  {
    var i := IndexOf(ALPHABET[digit]);
    if i < digit {
      forall k: nat, l: nat | k < l < 58 && l == k + 1 ensures ALPHABET[k] < ALPHABET[l] { AlphabetAscends(k); }
      AscendingIsSorted(ALPHABET, i, digit);
    }
  }

  lemma LettersBack(d: Digits)
    requires Below(58, d)
    ensures InAlphabet(Letters(d)) && Indices(Letters(d)) == d
  {
    hide IndexOf;
    forall i | 0 <= i < |d| ensures IsLetter(Letters(d)[i]) && IndexOf(Letters(d)[i]) == d[i] {
      IndexOfLetter(d[i]);
    }
  }

  lemma IndicesBack(text: string)
    requires InAlphabet(text)
    ensures Below(58, Indices(text)) && Letters(Indices(text)) == text
  {
  }

  // ----- The two functions and their round trips -----

  function Encoded(bytes: seq<Byte>): string {
    Letters(Converted(256, 58, bytes))
  }

  function Decoded(text: string): (r: Result<seq<Byte>, string>)
    ensures r.Ok? <==> InAlphabet(text)
  {
    if !InAlphabet(text) then Err("not base58")
    else
      IndicesBack(text);
      ConvertedBack(58, 256, Indices(text));
      Ok(Converted(58, 256, Indices(text)))
  }

  /** Decoding what was encoded gives the bytes back. */
  lemma DecodeEncode(bytes: seq<Byte>)
    ensures Decoded(Encoded(bytes)) == Ok(bytes)
  {
    ConvertedBack(256, 58, bytes);
    LettersBack(Converted(256, 58, bytes));
  }

  /** Encoding what was decoded gives the text back, whenever it decodes at all. */
  lemma EncodeDecode(text: string)
    ensures InAlphabet(text) <==> Decoded(text).Ok?
    ensures Decoded(text).Ok? ==> Encoded(Decoded(text).value) == text
  {
    if InAlphabet(text) {
      IndicesBack(text);
      ConvertedBack(58, 256, Indices(text));
    }
  }

  lemma ValueStep(base: Base, d: Digits, i: nat)
    requires i < |d|
    ensures Value(base, d[..i + 1]) == Shifted(base, Value(base, d[..i]), d[i])
  {
    assert d[..i + 1][..i] == d[..i];
  }

  lemma LettersStep(digit: nat, d: Digits)
    requires digit < 58
    ensures Letters([digit] + d) == [ALPHABET[digit]] + Letters(d)
    ensures digit == 0 ==> ALPHABET[digit] == '1'
  {
  }

  /** Writes the digits of a number in front of nothing, least significant first. */
  method EncodeNumber(number: nat) returns (out: string)
    ensures out == Letters(Numeral(58, number))
  {
    hide Letters, Numeral;
    var value := number;
    ghost var digits: Digits := [];
    out := "";
    NoDigits();
    while value > 0
      invariant Numeral(58, number) == Numeral(58, value) + digits
      invariant out == Letters(digits)
    {
      NumeralStep(58, value, digits);
      LettersStep(value % 58, digits);
      digits := [value % 58] + digits;
      out := [ALPHABET[value % 58]] + out;
      value := value / 58;
    }
    NoDigits();
    assert [] + digits == digits;
  }

  lemma NoDigits()
    ensures Letters([]) == "" && Numeral(58, 0) == [] && Numeral(256, 0) == []
  {
  }

  lemma NumeralStep(base: Base, n: nat, tail: Digits)
    requires n > 0
    ensures Numeral(base, n) + tail == Numeral(base, Quotient(base, n)) + ([Remainder(base, n)] + tail)
  {
  }

  method Base58Encode(bytes: seq<Byte>) returns (out: string)
    ensures out == Encoded(bytes)
  {
    hide Letters, Numeral, Value, IndexOf;
    var value: nat := 0;
    var i := 0;
    assert Value(256, bytes[..0]) == 0 by { NoValue(256); }
    while i < |bytes|
      invariant 0 <= i <= |bytes|
      invariant value == Value(256, bytes[..i])
    {
      ValueStep(256, bytes, i);
      value := value * 256 + bytes[i];
      i := i + 1;
    }
    assert bytes[..|bytes|] == bytes;
    out := EncodeNumber(value);
    i := 0;
    ghost var digits := Numeral(58, value);
    assert Zeros(0) + digits == digits;
    while i < |bytes| && bytes[i] == 0
      invariant 0 <= i <= |bytes|
      invariant forall k :: 0 <= k < i ==> bytes[k] == 0
      invariant out == Letters(Zeros(i) + digits)
    {
      LettersStep(0, Zeros(i) + digits);
      assert [0] + (Zeros(i) + digits) == Zeros(i + 1) + digits;
      out := "1" + out;
      i := i + 1;
    }
    CountedZeros(bytes, i);
  }

  lemma NoValue(base: Base)
    ensures Value(base, []) == 0
  {
  }

  lemma CountedZeros(d: Digits, n: nat)
    requires n <= |d| && (forall k :: 0 <= k < n ==> d[k] == 0) && (n < |d| ==> d[n] != 0)
    ensures LeadingZeros(d) == n
  {
    assert d == Zeros(n) + d[n..];
    SplitZeros(n, d[n..]);
  }

  /** The bytes of a number, most significant first. */
  method DecodeNumber(number: nat) returns (bytes: seq<Byte>)
    ensures bytes == Numeral(256, number)
  {
    hide Numeral;
    var value := number;
    bytes := [];
    while value > 0
      invariant Numeral(256, number) == Numeral(256, value) + bytes
    {
      NumeralStep(256, value, bytes);
      bytes := [value % 256] + bytes;
      value := value / 256;
    }
    NoDigits();
  }

  /** The number the digits of the text stand for; `None` where a character is no digit. */
  method ReadNumber(text: string) returns (r: Option<nat>)
    ensures r == if InAlphabet(text) then Some(Value(58, Indices(text))) else None
  {
    hide Value, IndexOf, IsLetter;
    var value: nat := 0;
    var i := 0;
    ghost var digits: Digits := [];
    NoValue(58);
    while i < |text|
      invariant 0 <= i <= |text| && |digits| == i
      invariant forall k :: 0 <= k < i ==> IsLetter(text[k]) && digits[k] == IndexOf(text[k])
      invariant value == Value(58, digits)
    {
      var digit := IndexOf(text[i]);
      if digit < 0 { return None; }
      ValueAppend(58, digits, digit);
      digits := digits + [digit];
      value := value * 58 + digit;
      i := i + 1;
    }
    assert InAlphabet(text) && digits == Indices(text);
    r := Some(value);
  }

  lemma ValueAppend(base: Base, d: Digits, digit: nat)
    ensures Value(base, d + [digit]) == Shifted(base, Value(base, d), digit)
  {
    assert (d + [digit])[..|d|] == d;
  }

  lemma OneIsZero(text: string)
    requires InAlphabet(text)
    ensures forall i :: 0 <= i < |text| ==> (Indices(text)[i] == 0 <==> text[i] == '1')
  {
    assert ALPHABET[0] == '1';
    IndexOfLetter(0);
  }

  method Base58Decode(text: string) returns (r: Result<seq<Byte>, string>)
    ensures r == Decoded(text)
    ensures r.Ok? <==> InAlphabet(text)
  {
    hide Numeral, Value, Indices, InAlphabet;
    var value := ReadNumber(text);
    if value.None? { return Err("not base58"); }
    var bytes := DecodeNumber(value.value);
    var i := 0;
    ghost var numeral := bytes;
    assert Zeros(0) + numeral == numeral;
    while i < |text| && text[i] == '1'
      invariant 0 <= i <= |text|
      invariant forall k :: 0 <= k < i ==> text[k] == '1'
      invariant bytes == Zeros(i) + numeral
    {
      assert [0] + (Zeros(i) + numeral) == Zeros(i + 1) + numeral;
      bytes := [0] + bytes;
      i := i + 1;
    }
    OneIsZero(text);
    IndicesLength(text);
    CountedZeros(Indices(text), i);
    r := Ok(bytes);
  }

  lemma IndicesLength(text: string)
    requires InAlphabet(text)
    ensures |Indices(text)| == |text|
  {
  }
}
