/**
 * Stand-ins for the two Go library functions the probe relies on:
 * `strconv.Atoi` (on a 64-bit platform) and `strings.ToUpper` restricted
 * to ASCII. `FormatNat`/`FormatInt` play the part of `strconv.Itoa`, the
 * way a whole number is written in the status document, and serve as the
 * inverse against which `Atoi` is checked.
 */
module Strings {
  import opened Wrappers

  /** Range of Go's `int` on a 64-bit platform; `Atoi` fails outside it. */
  const MinInt64: int := -0x8000_0000_0000_0000
  const MaxInt64: int := 0x7FFF_FFFF_FFFF_FFFF

  predicate IsDigit(c: char) { '0' <= c <= '9' }

  predicate AllDigits(s: string) { forall i :: 0 <= i < |s| ==> IsDigit(s[i]) }

  function DigitValue(c: char): nat
    requires IsDigit(c)
  {
    (c as int) - ('0' as int)
  }

  function DigitChar(d: nat): char
    requires d < 10
  {
    (('0' as int) + d) as char
  }

  /** The value of a run of decimal digits, most significant digit first. */
  function DecimalValue(ds: string): nat
    requires AllDigits(ds)
  {
    if ds == [] then 0 else DecimalValue(ds[..|ds| - 1]) * 10 + DigitValue(ds[|ds| - 1])
  }

  /**
   * `strconv.Atoi`: an optional `+` or `-`, then at least one ASCII digit
   * and nothing else; the value must fit a 64-bit `int`. No spaces,
   * underscores, fractions or exponents are accepted.
   */
  function Atoi(s: string): (r: Option<int>)
    ensures r.Some? ==> MinInt64 <= r.value <= MaxInt64
    ensures r.Some? ==> |s| > 0 && (IsDigit(s[0]) || s[0] == '+' || s[0] == '-')
  {
    if |s| == 0 then None
    else
      var negative := s[0] == '-';
      var digits := if s[0] == '-' || s[0] == '+' then s[1..] else s;
      if |digits| == 0 || !AllDigits(digits) then None
      else
        var v: int := if negative then 0 - DecimalValue(digits) as int else DecimalValue(digits);
        if MinInt64 <= v <= MaxInt64 then Some(v) else None
  }

  /** Decimal text of a natural number, without leading zeros. */
  function FormatNat(n: nat): (s: string)
    ensures |s| > 0 && AllDigits(s)
    ensures |s| > 1 ==> s[0] != '0'
    decreases n
  {
    if n < 10 then [DigitChar(n)] else FormatNat(n / 10) + [DigitChar(n % 10)]
  }

  /** Decimal text of an integer, as `strconv.Itoa` writes it. */
  function FormatInt(n: int): string
  {
    if n < 0 then "-" + FormatNat(-n) else FormatNat(n)
  }

  lemma {:induction false} DecimalValueOfFormatNat(n: nat)
    ensures DecimalValue(FormatNat(n)) == n
    decreases n
  {
    if n >= 10 {
      var s := FormatNat(n);
      DecimalValueOfFormatNat(n / 10);
      assert s[..|s| - 1] == FormatNat(n / 10);
    }
  }

  /** Parsing what `FormatInt` writes gives the number back, for every 64-bit value. */
  lemma AtoiFormatInt(n: int)
    requires MinInt64 <= n <= MaxInt64
    ensures Atoi(FormatInt(n)) == Some(n)
  {
    if n < 0 {
      DecimalValueOfFormatNat(-n);
      assert FormatInt(n)[1..] == FormatNat(-n);
    } else {
      DecimalValueOfFormatNat(n);
      assert IsDigit(FormatNat(n)[0]);
    }
  }

  /** A fraction or an exponent is never accepted, whatever else the text holds. */
  lemma AtoiRejectsNonInteger(s: string, i: nat)
    requires i < |s| && (s[i] == '.' || s[i] == 'e' || s[i] == 'E')
    ensures Atoi(s) == None
  {
    if |s| > 0 && (s[0] == '-' || s[0] == '+') && i > 0 {
      assert s[1..][i - 1] == s[i];
    }
  }

  function UpperChar(c: char): char
  {
    if 'a' <= c <= 'z' then ((c as int) - 32) as char else c
  }

  /** `strings.ToUpper` on ASCII text: lower-case letters become upper-case, nothing else changes. */
  function ToUpperAscii(s: string): (r: string)
    ensures |r| == |s|
    ensures forall i :: 0 <= i < |r| ==> !('a' <= r[i] <= 'z')
    ensures forall i :: 0 <= i < |r| && !('a' <= s[i] <= 'z') ==> r[i] == s[i]
    ensures forall i :: 0 <= i < |r| && 'a' <= s[i] <= 'z' ==> r[i] as int == s[i] as int - 32
  {
    seq(|s|, i requires 0 <= i < |s| => UpperChar(s[i]))
  }
}
