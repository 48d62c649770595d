/** Signed 64-bit decimal text, as Go's strconv prints and reads it. */
module Decimal {
  import opened Prelude

  const MAX_INT64: int := 0x7fff_ffff_ffff_ffff

  type Int64 = x: int | -MAX_INT64 - 1 <= x <= MAX_INT64

  predicate IsDigit(c: char) { '0' <= c <= '9' }

  function DigitValue(c: char): nat
    requires IsDigit(c)
  {
    (c as int) - ('0' as int)
  }

  function Digit(d: nat): (c: char)
    requires d < 10
    ensures IsDigit(c) && DigitValue(c) == d
  {
    ('0' as int + d) as char
  }

  /** The digits of n, most significant first, without leading zeros. */
  function Format(n: nat): string {
    if n < 10 then [Digit(n)] else Format(n / 10) + [Digit(n % 10)]
  }

  predicate AllDigits(s: string) { forall i | 0 <= i < |s| :: IsDigit(s[i]) }

  function Value(s: string): nat
    requires AllDigits(s)
  {
    if s == [] then 0 else 10 * Value(s[..|s| - 1]) + DigitValue(s[|s| - 1])
  }

  /** An optional sign, then at least one digit, within the 64-bit range. */
  function ParseInt(s: string): Option<Int64> {
    var negative := |s| > 0 && s[0] == '-';
    var body := if |s| > 0 && (s[0] == '-' || s[0] == '+') then s[1..] else s;
    if body == [] || !AllDigits(body) then None
    else
      var v: int := if negative then 0 - Value(body) else Value(body);
      if -MAX_INT64 - 1 <= v <= MAX_INT64 then Some(v) else None
  }

  lemma {:induction false} FormatIsDigits(n: nat)
    ensures Format(n) != [] && AllDigits(Format(n)) && Value(Format(n)) == n
  {
    if n < 10 {
      assert [Digit(n)][..0] == [];
    } else {
      FormatIsDigits(n / 10);
      assert Format(n)[..|Format(n)| - 1] == Format(n / 10);
    }
  }

  /** Reading back what was printed. */
  lemma ParseFormat(n: nat)
    requires n <= MAX_INT64
    ensures ParseInt(Format(n)) == Some(n)
  {
    FormatIsDigits(n);
  }
}
