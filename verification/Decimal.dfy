/** Decimal numerals, as strconv.Atoi reads them. */
module Decimal {
  import opened Json

  const MAX_INT: int := 0x7fff_ffff_ffff_ffff

  predicate IsDigit(c: char) {
    '0' <= c <= '9'
  }

  /** One or more digits. */
  predicate IsNumeral(s: string) {
    s != "" && forall c | c in s :: IsDigit(c)
  }

  function Digit(c: char): nat
    requires IsDigit(c)
  {
    c as int - '0' as int
  }

  function Value(s: string): nat
    requires forall c | c in s :: IsDigit(c)
  {
    if s == "" then 0 else 10 * Value(s[..|s| - 1]) + Digit(s[|s| - 1])
  }

  /** A whole number with an optional sign, if it fits 64 bits. */
  function ParseInt(s: string): Option<int> {
    var digits := if s != "" && (s[0] == '+' || s[0] == '-') then s[1..] else s;
    if !IsNumeral(digits) then None
    else
      var n := if s[0] == '-' then 0 - Value(digits) else Value(digits);
      if -MAX_INT - 1 <= n <= MAX_INT then Some(n) else None
  }

  function DigitChar(d: nat): char
    requires d < 10
  {
    '0' + d as char
  }

  function Print(n: nat): string {
    if n < 10 then [DigitChar(n)] else Print(n / 10) + [DigitChar(n % 10)]
  }

  predicate Canonical(s: string) {
    IsNumeral(s) && (|s| > 1 ==> s[0] != '0')
  }

  lemma {:induction false} PrintThenRead(n: nat)
    ensures Canonical(Print(n)) && Value(Print(n)) == n
    ensures n > 0 ==> Print(n)[0] != '0'
  {
    if n >= 10 {
      PrintThenRead(n / 10);
      var s := Print(n);
      assert s[..|s| - 1] == Print(n / 10);
    } else {
      assert [DigitChar(n)][..0] == [];
    }
  }

  /** A numeral without leading zeros is the one that is printed. */
  lemma {:induction false} ReadThenPrint(s: string)
    requires Canonical(s)
    ensures Print(Value(s)) == s
    ensures |s| > 1 ==> Value(s) >= 10
  {
    var n := |s| - 1;
    assert s == s[..n] + [s[n]];
    if n == 0 {
      assert s[..0] == "";
    } else {
      assert forall c | c in s[..n] :: c in s;
      ReadThenPrint(s[..n]);
      assert n == 1 ==> s[..n][..0] == "";
      assert s[n] in s && Value(s[..n]) >= 1;
      assert Value(s) / 10 == Value(s[..n]) && Value(s) % 10 == Digit(s[n]);
      assert DigitChar(Digit(s[n])) == s[n];
    }
  }
}
