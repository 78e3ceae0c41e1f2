/** Decimal text of integers, as template strings and `String(value)` print them, and searching in text. */
module Text {

  function Digit(d: nat): char
    requires d < 10
  {
    '0' + d as char
  }

  function DecimalNat(n: nat): string {
    if n < 10 then [Digit(n)] else DecimalNat(n / 10) + [Digit(n % 10)]
  }

  function Decimal(n: int): string {
    if n < 0 then "-" + DecimalNat(-n) else DecimalNat(n)
  }

  /** Reads decimal text back; the partner of `Decimal`. */
  function Value(s: string): int {
    if s == [] then 0
    else if s[0] == '-' then -Value(s[1..])
    else 10 * Value(s[..|s| - 1]) + (s[|s| - 1] as int - '0' as int)
  }

  lemma {:induction false} DecimalNatReadsBack(n: nat)
    ensures Value(DecimalNat(n)) == n
    ensures |DecimalNat(n)| > 0 && forall i :: 0 <= i < |DecimalNat(n)| ==> '0' <= DecimalNat(n)[i] <= '9'
  {
    var s := DecimalNat(n);
    if n < 10 {
      assert s[..0] == "";
    } else {
      DecimalNatReadsBack(n / 10);
      assert s[..|s| - 1] == DecimalNat(n / 10);
    }
  }

  /** Decimal text determines the number, and never holds anything but digits and a sign. */
  lemma DecimalReadsBack(n: int)
    ensures Value(Decimal(n)) == n
    ensures forall c :: c in Decimal(n) ==> '0' <= c <= '9' || c == '-'
  {
    if n < 0 {
      DecimalNatReadsBack(-n);
      assert Decimal(n)[1..] == DecimalNat(-n);
    } else {
      DecimalNatReadsBack(n);
    }
  }

  lemma AfterKey(k: string, d: string, i: nat, separator: char)
    requires i < |k + [separator] + d|
    ensures i > |k| ==> (k + [separator] + d)[i] in d
  {
    if i > |k| {
      assert (k + [separator] + d)[i] == d[i - |k| - 1];
    }
  }

  /** Joining with a separator that the right-hand sides do not contain can be undone. */
  lemma LastSeparatorSplits(k1: string, d1: string, k2: string, d2: string, separator: char)
    requires separator !in d1 && separator !in d2
    requires k1 + [separator] + d1 == k2 + [separator] + d2
    ensures k1 == k2 && d1 == d2
  {
    var joined := k1 + [separator] + d1;
    assert joined == k2 + [separator] + d2;
    assert joined[|k1|] == separator && joined[|k2|] == separator;
    AfterKey(k1, d1, |k2|, separator);
    AfterKey(k2, d2, |k1|, separator);
    assert k1 == joined[..|k1|] && k2 == joined[..|k2|];
    assert d1 == joined[|k1| + 1..] && d2 == joined[|k2| + 1..];
  }

  // ----- Searching -----

  /** ASCII letters in upper case. */
  function Upper(s: string): string {
    seq(|s|, i requires 0 <= i < |s| => if 'a' <= s[i] <= 'z' then s[i] - 'a' + 'A' else s[i])
  }

  predicate Contains(s: string, part: string) {
    exists i :: 0 <= i <= |s| && part <= s[i..]
  }
}
