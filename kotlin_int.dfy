/**
 * Kotlin's decimal conversions between `String` and the 32-bit `Int`:
 * `String.toIntOrNull()` and `Int.toString()`.
 */
module KotlinInt {
  import opened Wrappers

  const IntMin: int := -0x8000_0000
  const IntMax: int := 0x7fff_ffff

  predicate InIntRange(n: int) {
    IntMin <= n <= IntMax
  }

  predicate IsDigit(c: char) {
    '0' <= c <= '9'
  }

  predicate AllDigits(s: string) {
    forall i :: 0 <= i < |s| ==> IsDigit(s[i])
  }

  function DigitValue(c: char): (d: nat)
    requires IsDigit(c)
    ensures d < 10
  {
    c as int - '0' as int
  }

  function DigitChar(d: nat): (c: char)
    requires d < 10
    ensures IsDigit(c) && DigitValue(c) == d
  {
    ('0' as int + d) as char
  }

  /** The number a string of decimal digits denotes, most significant digit first. */
  function DigitsValue(s: string): nat
    requires AllDigits(s)
  {
    if s == [] then 0 else DigitsValue(s[..|s| - 1]) * 10 + DigitValue(s[|s| - 1])
  }

  /** Number of characters taken by a leading sign. */
  function SignLength(s: string): nat {
    if |s| > 0 && (s[0] == '-' || s[0] == '+') then 1 else 0
  }

  /**
   * `String.toIntOrNull()` in radix 10: an optional `-` or `+`, then at
   * least one digit, and the value must fit in an `Int`; anything else is
   * `null`.
   */
  function ToIntOrNull(s: string): (r: Option<int>)
    ensures r.Some? ==> InIntRange(r.value)
    ensures r.Some? ==> SignLength(s) < |s| && forall i :: SignLength(s) <= i < |s| ==> IsDigit(s[i])
    ensures r.Some? && r.value < 0 ==> s[0] == '-'
    ensures r.Some? ==>
      && SignLength(s) < |s| && AllDigits(s[SignLength(s)..])
      && r.value == (if s[0] == '-' then -1 else 1) * DigitsValue(s[SignLength(s)..])
    ensures (&& SignLength(s) < |s| && AllDigits(s[SignLength(s)..])
             && InIntRange((if s[0] == '-' then -1 else 1) * DigitsValue(s[SignLength(s)..])))
      ==> r.Some?
  {
    var digits := s[SignLength(s)..];
    if digits == [] || !AllDigits(digits) then None
    else
      var v: int := if s[0] == '-' then -(DigitsValue(digits) as int) else DigitsValue(digits);
      if InIntRange(v) then Some(v) else None
  }

  /** The decimal digits of a natural number, without leading zeros. */
  function NatToDigits(n: nat): string
  {
    if n < 10 then [DigitChar(n)] else NatToDigits(n / 10) + [DigitChar(n % 10)]
  }

  /**
   * `Int.toString()`: a `-` exactly for negative numbers, then the digits of
   * the magnitude, with no leading zero.
   */
  function IntToString(n: int): (s: string)
    ensures |s| > 0
    ensures s[0] == '-' <==> n < 0
    ensures n >= 0 ==> SignLength(s) == 0
    ensures SignLength(s) < |s| && AllDigits(s[SignLength(s)..])
    ensures DigitsValue(s[SignLength(s)..]) == if n < 0 then -n else n
    ensures |s| - SignLength(s) > 1 ==> s[SignLength(s)] != '0'
  {
    if n < 0 then
      NatToDigitsValue(-n);
      assert ("-" + NatToDigits(-n))[1..] == NatToDigits(-n);
      "-" + NatToDigits(-n)
    else
      NatToDigitsValue(n);
      NatToDigits(n)
  }

  lemma {:induction false} NatToDigitsValue(n: nat)
    ensures |NatToDigits(n)| > 0 && AllDigits(NatToDigits(n))
    ensures DigitsValue(NatToDigits(n)) == n
    ensures |NatToDigits(n)| > 1 ==> NatToDigits(n)[0] != '0'
  {
    if n >= 10 {
      NatToDigitsValue(n / 10);
      var s := NatToDigits(n);
      assert s[..|s| - 1] == NatToDigits(n / 10);
      assert s[0] == NatToDigits(n / 10)[0];
    }
  }

  /** `k` zero digits. */
  function Zeros(k: nat): (z: string)
    ensures |z| == k && AllDigits(z)
  {
    seq(k, _ => '0')
  }

  /** Leading zeros do not change the value of a string of digits. */
  lemma {:induction false} LeadingZerosValue(k: nat, ds: string)
    requires AllDigits(ds)
    ensures AllDigits(Zeros(k) + ds) && DigitsValue(Zeros(k) + ds) == DigitsValue(ds)
    decreases k + |ds|
  {
    var s := Zeros(k) + ds;
    if ds == [] {
      assert s == Zeros(k);
      if k > 0 {
        assert s[..|s| - 1] == Zeros(k - 1) + [];
        LeadingZerosValue(k - 1, []);
      }
    } else {
      assert s[..|s| - 1] == Zeros(k) + ds[..|ds| - 1];
      LeadingZerosValue(k, ds[..|ds| - 1]);
    }
  }

  /** The digits of `n` after `k` leading zeros still denote `n`. */
  lemma PaddedDigits(k: nat, n: nat)
    ensures |Zeros(k) + NatToDigits(n)| > 0 && AllDigits(Zeros(k) + NatToDigits(n))
    ensures DigitsValue(Zeros(k) + NatToDigits(n)) == n
  {
    NatToDigitsValue(n);
    LeadingZerosValue(k, NatToDigits(n));
  }

  /** An optional sign followed by digits parses to the signed value of the digits when it fits. */
  lemma ParseSignedDigits(sign: string, ds: string)
    requires sign == "" || sign == "+" || sign == "-"
    requires |ds| > 0 && AllDigits(ds)
    requires InIntRange(if sign == "-" then -(DigitsValue(ds) as int) else DigitsValue(ds))
    ensures ToIntOrNull(sign + ds) == Some(if sign == "-" then -(DigitsValue(ds) as int) else DigitsValue(ds))
  {
    var s := sign + ds;
    assert s[|sign|] == ds[0] && IsDigit(ds[0]);
    assert SignLength(s) == |sign|;
    assert s[SignLength(s)..] == ds;
  }

  /**
   * Every decimal numeral of an `Int` parses to its value, whether it is
   * written with `-`, with `+` or without a sign, and with any number of
   * leading zeros.
   */
  lemma ParseNumeral(sign: string, k: nat, n: nat)
    requires sign == "" || sign == "+" || sign == "-"
    requires InIntRange(if sign == "-" then -(n as int) else n)
    ensures ToIntOrNull(sign + (Zeros(k) + NatToDigits(n))) == Some(if sign == "-" then -(n as int) else n)
  {
    PaddedDigits(k, n);
    ParseSignedDigits(sign, Zeros(k) + NatToDigits(n));
  }

  /** Reading back what `Int.toString()` wrote gives the same `Int`. */
  lemma ParseIntToString(n: int)
    requires InIntRange(n)
    ensures ToIntOrNull(IntToString(n)) == Some(n)
  {
    var s := IntToString(n);
    if n < 0 {
      NatToDigitsValue(-n);
      assert s[SignLength(s)..] == NatToDigits(-n);
    } else {
      NatToDigitsValue(n);
      assert s[SignLength(s)..] == NatToDigits(n);
    }
  }
}
