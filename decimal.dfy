/** Base-10 rendering of integers, as Go's strconv.Itoa (and the `%d` verb) produce it.
    Used for the peer-type label, the wallet id label, the fingerprint label and the
    `wallet_id` request body. */
module Decimal {

  /** The character of one decimal digit. */
  function DigitChar(d: nat): (c: char)
    requires d < 10
    ensures '0' <= c <= '9'
    ensures c as int - '0' as int == d
  {
    ('0' as int + d) as char
  }

  /** Digits of a natural number, most significant first, without leading zeros. */
  function NatToDecimal(n: nat): (s: string)
    ensures |s| > 0
    ensures IsDigits(s)
    ensures n < 10 ==> |s| == 1
    ensures n >= 10 ==> s[0] != '0'
    decreases n
  {
    if n < 10 then [DigitChar(n)] else NatToDecimal(n / 10) + [DigitChar(n % 10)]
  }

  /** strconv.Itoa: a leading '-' for negative numbers, then the digits of the magnitude. */
  function Itoa(i: int): (s: string)
    ensures |s| > 0
    ensures s[0] == '-' <==> i < 0
  {
    if i < 0 then "-" + NatToDecimal(-i) else NatToDecimal(i)
  }

  predicate IsDigits(s: string) {
    forall k :: 0 <= k < |s| ==> '0' <= s[k] <= '9'
  }

  /** The number a digit string denotes; the reading side of NatToDecimal. */
  function DecimalValue(s: string): int {
    if s == [] then 0 else 10 * DecimalValue(s[..|s| - 1]) + (s[|s| - 1] as int - '0' as int)
  }

  /** Reading back the rendered digits gives the number. */
  lemma {:induction false} DecimalValueOfNat(n: nat)
    ensures DecimalValue(NatToDecimal(n)) == n
  {
    var s := NatToDecimal(n);
    if n >= 10 {
      assert s[..|s| - 1] == NatToDecimal(n / 10);
      DecimalValueOfNat(n / 10);
    } else {
      assert s[..|s| - 1] == [];
    }
  }

  /** Distinct integers have distinct renderings, so labels built from them never collide. */
  lemma {:induction false} ItoaInjective(a: int, b: int)
    requires Itoa(a) == Itoa(b)
    ensures a == b
  {
    if a < 0 {
      assert b < 0;
      DropSign(NatToDecimal(-a));
      DropSign(NatToDecimal(-b));
      DigitsInjective(-a, -b);
    } else {
      assert b >= 0;
      DigitsInjective(a, b);
    }
  }

  lemma DigitsInjective(m: nat, n: nat)
    requires NatToDecimal(m) == NatToDecimal(n)
    ensures m == n
  {
    DecimalValueOfNat(m);
    DecimalValueOfNat(n);
  }

  /** The digits follow the sign. */
  lemma DropSign(digits: string)
    ensures ("-" + digits)[1..] == digits
  {
  }
}
