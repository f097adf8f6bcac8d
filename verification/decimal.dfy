/** Decimal rendering of integers, as Go's `strconv.Itoa` produces it, and its inverse. */
module Decimal {

  predicate IsDigit(ch: char) {
    '0' <= ch <= '9'
  }

  function DigitChar(d: nat): (ch: char)
    requires d < 10
    ensures IsDigit(ch)
  {
    "0123456789"[d]
  }

  function DigitValue(ch: char): (d: nat)
    requires IsDigit(ch)
    ensures d < 10
    ensures DigitChar(d) == ch
  {
    (ch as int - '0' as int) as nat
  }

  /** A rendering of a natural number as strconv writes it: digits only, no leading zero
      except in "0". */
  predicate Canonical(d: string) {
    && |d| > 0
    && (forall i :: 0 <= i < |d| ==> IsDigit(d[i]))
    && (|d| == 1 || d[0] != '0')
  }

  /** The decimal digits of a natural number, most significant first, no leading zeros. */
  function NatToString(n: nat): (s: string)
    ensures |s| > 0
    ensures forall i :: 0 <= i < |s| ==> IsDigit(s[i])
    ensures s[0] == '0' <==> n == 0
    ensures |s| == 1 || s[0] != '0'
    decreases n
  {
    if n < 10 then [DigitChar(n)] else NatToString(n / 10) + [DigitChar(n % 10)]
  }

  /** strconv.Itoa: a leading '-' exactly for negative numbers, then the digits of the
      magnitude in canonical form (no leading zero except in "0"). */
  function Itoa(n: int): (s: string)
    ensures |s| > 0 && (s[0] == '-' <==> n < 0)
    ensures n < 0 ==> Canonical(s[1..]) && DigitsValue(s[1..]) == -n
    ensures n >= 0 ==> Canonical(s) && DigitsValue(s) == n
  {
    if n < 0 then
      var d := NatToString(-n);
      NatToStringRoundTrip(-n);
      assert Canonical(d);
      var s := "-" + d;
      assert s[1..] == d;
      s
    else
      var d := NatToString(n);
      NatToStringRoundTrip(n);
      assert Canonical(d);
      d
  }

  /** Reads a non-empty string of digits back as a number. */
  function DigitsValue(s: string): nat
    requires forall i :: 0 <= i < |s| ==> IsDigit(s[i])
  {
    if |s| == 0 then 0 else DigitsValue(s[..|s| - 1]) * 10 + DigitValue(s[|s| - 1])
  }

  /** The inverse of Itoa: an optional '-' followed by digits. */
  function Atoi(s: string): int
    requires |s| > 0
    requires s[0] == '-' ==> |s| > 1
    requires forall i :: (if s[0] == '-' then 1 else 0) <= i < |s| ==> IsDigit(s[i])
  {
    if s[0] == '-' then -(DigitsValue(s[1..]) as int) else DigitsValue(s)
  }

  lemma {:induction false} NatToStringRoundTrip(n: nat)
    ensures DigitsValue(NatToString(n)) == n
    decreases n
  {
    var s := NatToString(n);
    if n >= 10 {
      NatToStringRoundTrip(n / 10);
      assert s[..|s| - 1] == NatToString(n / 10);
    }
  }

  /** Itoa loses nothing: the number can be read back from its rendering. */
  lemma ItoaRoundTrip(n: int)
    ensures var s := Itoa(n); |s| > 0 && (s[0] == '-' <==> n < 0) && Atoi(s) == n
  {
    var s := Itoa(n);
    if n < 0 {
      assert s[1..] == NatToString(-n);
      NatToStringRoundTrip(-n);
    } else {
      assert IsDigit(s[0]);
      NatToStringRoundTrip(n);
    }
  }

  /** Distinct numbers have distinct renderings. */
  lemma ItoaInjective(m: int, n: int)
    ensures Itoa(m) == Itoa(n) ==> m == n
  {
    ItoaRoundTrip(m);
    ItoaRoundTrip(n);
  }
}
