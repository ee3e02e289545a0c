/**
 * Decimal rendering of non-negative integers, as JavaScript prints an
 * integral number `n` with 0 <= n < 10^21 (`String(n)`, `n.toFixed(2)`;
 * from 10^21 up JavaScript switches to exponent notation), with its inverse.
 */
module Decimal {

  function DigitChar(d: nat): (c: char)
    requires d < 10
    ensures '0' <= c <= '9'
    ensures c as int - '0' as int == d
  {
    ('0' as int + d) as char
  }

  function DigitValue(c: char): int
  {
    c as int - '0' as int
  }

  predicate IsDigits(s: string)
  {
    forall i :: 0 <= i < |s| ==> '0' <= s[i] <= '9'
  }

  /** The shortest decimal numeral of `n`: only digits, and no leading zero except for 0 itself. */
  function NatToString(n: nat): (s: string)
    ensures |s| >= 1 && IsDigits(s)
    ensures s[0] == '0' <==> n == 0
    ensures n < 10 <==> |s| == 1
    decreases n
  {
    if n < 10 then [DigitChar(n)] else NatToString(n / 10) + [DigitChar(n % 10)]
  }

  /** Reads a numeral back, most significant digit first. */
  function ParseNat(s: string): int
    decreases |s|
  {
    if s == [] then 0 else ParseNat(s[..|s| - 1]) * 10 + DigitValue(s[|s| - 1])
  }

  lemma {:induction false} ParseNatToString(n: nat)
    ensures ParseNat(NatToString(n)) == n
    decreases n
  {
    if n >= 10 {
      var s := NatToString(n);
      assert s[..|s| - 1] == NatToString(n / 10);
      ParseNatToString(n / 10);
    }
  }

  /** `n.toFixed(2)` for an integral `n` with 0 <= n < 10^21: the numeral followed by ".00". */
  function ToFixed2(n: nat): (s: string)
    ensures |s| >= 4 && s[|s| - 3..] == ".00"
    ensures IsDigits(s[..|s| - 3]) && ParseNat(s[..|s| - 3]) == n
    ensures s == "0.00" <==> n == 0
    ensures s != "0.00" ==> s[0] != '0'
  {
    var digits := NatToString(n);
    ParseNatToString(n);
    assert (digits + ".00")[..|digits|] == digits;
    digits + ".00"
  }

}
