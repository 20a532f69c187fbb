/** Decimal numerals: what String(n), Go's %d and parseInt/Atoi agree on. */
module Decimals {
  predicate IsDigit(c: char) {
    '0' <= c <= '9'
  }

  function DigitChar(d: nat): (c: char)
    requires d < 10
    ensures IsDigit(c) && DigitValue(c) == d && c == "0123456789"[d]
  {
    '0' + d as char
  }

  function DigitValue(c: char): (d: nat)
    requires IsDigit(c)
    ensures d < 10 && "0123456789"[d] == c
  {
    (c - '0') as nat
  }

  function Decimal(n: nat): (s: string)
    ensures |s| > 0
    ensures forall k :: 0 <= k < |s| ==> IsDigit(s[k])
  {
    if n < 10 then [DigitChar(n)] else Decimal(n / 10) + [DigitChar(n % 10)]
  }

  /** Positional value of a string of digits. */
  function Value(s: string): nat
    requires forall k :: 0 <= k < |s| ==> IsDigit(s[k])
  {
    if s == [] then 0 else Value(s[..|s| - 1]) * 10 + DigitValue(s[|s| - 1])
  }

  lemma {:induction false} ValueOfDecimal(n: nat)
    ensures Value(Decimal(n)) == n
  {
    if n < 10 {
      assert Decimal(n)[..0] == [];
    } else {
      ValueOfDecimal(n / 10);
      var s := Decimal(n);
      assert s[..|s| - 1] == Decimal(n / 10);
    }
  }

  /** A numeral goes from the most significant digit to the least, without leading zeros. */
  lemma NumeralsGrow(n: nat, d: nat)
    requires d < 10
    ensures Decimal(10 * n + d) == (if n == 0 then "" else Decimal(n)) + ["0123456789"[d]]
  {
  }

  /** The value of any string of digits, leading zeros or not. */
  lemma ValueGrows(s: string, d: nat)
    requires (forall k :: 0 <= k < |s| ==> IsDigit(s[k])) && d < 10
    ensures Value("") == 0 && IsDigit("0123456789"[d]) && Value(s + ["0123456789"[d]]) == 10 * Value(s) + d
  {
    assert "0123456789"[d] == DigitChar(d);
    assert (s + [DigitChar(d)])[..|s|] == s;
  }
}
