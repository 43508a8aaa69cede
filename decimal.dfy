/** Decimal rendering of integers, as Go's `%d` verb produces it, with a
    parser that inverts it. */
module Decimal {

  predicate IsDigit(c: char) {
    '0' <= c <= '9'
  }

  predicate AllDigits(s: string) {
    forall i :: 0 <= i < |s| ==> IsDigit(s[i])
  }

  function DigitChar(d: nat): (c: char)
    requires d < 10
    ensures IsDigit(c)
  {
    ('0' as int + d) as char
  }

  function DigitValue(c: char): (d: nat)
    requires IsDigit(c)
    ensures d < 10 && DigitChar(d) == c
  {
    c as int - '0' as int
  }

  /** The shortest decimal rendering of `n`: digits only, no leading zero. */
  function FormatNat(n: nat): (s: string)
    ensures s != [] && AllDigits(s)
    ensures s[0] == '0' ==> n == 0 && s == "0"
    decreases n
  {
    if n < 10 then [DigitChar(n)] else FormatNat(n / 10) + [DigitChar(n % 10)]
  }

  function ParseNat(s: string): nat
    requires AllDigits(s)
  {
    if s == [] then 0 else ParseNat(s[..|s| - 1]) * 10 + DigitValue(s[|s| - 1])
  }

  lemma {:induction false} ParseFormatNat(n: nat)
    ensures ParseNat(FormatNat(n)) == n
    decreases n
  {
    if n >= 10 {
      var s := FormatNat(n);
      assert s[..|s| - 1] == FormatNat(n / 10);
      ParseFormatNat(n / 10);
    }
  }

  /** `%d` of a Go `int`: a minus sign, then the digits of the magnitude. */
  function FormatInt(i: int): (s: string)
    ensures s != [] && (s[0] == '-' <==> i < 0)
    ensures AllDigits(if i < 0 then s[1..] else s)
  {
    if i < 0 then "-" + FormatNat(-i) else FormatNat(i)
  }

  function ParseInt(s: string): int
  {
    if s != [] && s[0] == '-' && AllDigits(s[1..]) then 0 - ParseNat(s[1..]) as int
    else if AllDigits(s) then ParseNat(s)
    else 0
  }

  lemma {:induction false} ParseFormatInt(i: int)
    ensures ParseInt(FormatInt(i)) == i
  {
    var s := FormatInt(i);
    if i < 0 {
      assert s[0] == '-' && s[1..] == FormatNat(-i);
      ParseFormatNat(-i);
    } else {
      assert IsDigit(s[0]) && AllDigits(s);
      ParseFormatNat(i);
    }
  }

  /** The rendering never contains a character outside `-0123456789`;
      in particular no `:` that could be confused with a host/port separator. */
  lemma FormatIntHasNoColon(i: int)
    ensures ':' !in FormatInt(i)
  {
  }

  lemma FormatIntInjective(i: int, j: int)
    ensures FormatInt(i) == FormatInt(j) <==> i == j
  {
    if FormatInt(i) == FormatInt(j) {
      ParseFormatInt(i);
      ParseFormatInt(j);
    }
  }
}
