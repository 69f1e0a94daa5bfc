/** How JavaScript renders an integral number in a template literal: optional minus sign,
    then decimal digits without leading zeros. */
module Decimal {
  import opened Wrappers

  predicate IsDigit(c: char) {
    '0' <= c <= '9'
  }

  predicate AllDigits(s: string) {
    forall i :: 0 <= i < |s| ==> IsDigit(s[i])
  }

  function DigitChar(d: nat): (c: char)
    requires d < 10
    ensures IsDigit(c) && c as int - '0' as int == d
  {
    ('0' as int + d) as char
  }

  /** The decimal digits of `n`, most significant first. */
  function NatDigits(n: nat): (r: string)
    ensures |r| >= 1 && AllDigits(r)
    ensures n > 0 ==> r[0] != '0'
    ensures |r| == 1 <==> n < 10
    decreases n
  {
    if n < 10 then [DigitChar(n)] else NatDigits(n / 10) + [DigitChar(n % 10)]
  }

  /** The number a string of digits denotes. */
  function DigitsValue(s: string): nat
    requires AllDigits(s)
    decreases |s|
  {
    if s == [] then 0 else DigitsValue(s[..|s| - 1]) * 10 + (s[|s| - 1] as int - '0' as int)
  }

  /** Digits with no leading zero, except "0" itself. */
  predicate Unpadded(s: string) {
    |s| >= 1 && AllDigits(s) && (|s| > 1 ==> s[0] != '0')
  }

  /** The shape of a rendered integer: unpadded digits, or '-' and unpadded digits of a
      non-zero number. */
  predicate Canonical(r: string) {
    Unpadded(r) || (|r| >= 2 && r[0] == '-' && Unpadded(r[1..]) && r[1] != '0')
  }

  /** Reading back a decimal rendering: an optional '-' then at least one digit. */
  function ParseDecimal(s: string): Option<int> {
    if |s| > 1 && s[0] == '-' && AllDigits(s[1..]) then Some(0 - DigitsValue(s[1..]) as int)
    else if |s| > 0 && AllDigits(s) then Some(DigitsValue(s))
    else None
  }

  lemma {:induction false} NatDigitsValue(n: nat)
    ensures DigitsValue(NatDigits(n)) == n
    decreases n
  {
    if n >= 10 {
      NatDigitsValue(n / 10);
      var s := NatDigits(n);
      assert s[..|s| - 1] == NatDigits(n / 10);
    }
  }

  /** Digits starting with a non-zero digit denote a positive number. */
  lemma {:induction false} LeadingDigitPositive(s: string)
    requires |s| >= 1 && AllDigits(s) && s[0] != '0'
    ensures DigitsValue(s) > 0
    decreases |s|
  {
    if |s| > 1 {
      LeadingDigitPositive(s[..|s| - 1]);
    }
  }

  /** Unpadded digit strings with the same value are the same string. */
  lemma {:induction false} UnpaddedInjective(s: string, t: string)
    requires Unpadded(s) && Unpadded(t) && DigitsValue(s) == DigitsValue(t)
    ensures s == t
    decreases |s|
  {
    var s', t' := s[..|s| - 1], t[..|t| - 1];
    var ds, dt := s[|s| - 1] as int - '0' as int, t[|t| - 1] as int - '0' as int;
    assert DigitsValue(s) == DigitsValue(s') * 10 + ds && 0 <= ds < 10;
    assert DigitsValue(t) == DigitsValue(t') * 10 + dt && 0 <= dt < 10;
    assert ds == dt && DigitsValue(s') == DigitsValue(t');
    if |s| > 1 && |t| == 1 {
      LeadingDigitPositive(s');
    } else if |s| == 1 && |t| > 1 {
      LeadingDigitPositive(t');
    } else if |s| > 1 {
      UnpaddedInjective(s', t');
      assert s == s' + [s[|s| - 1]] && t == t' + [t[|t| - 1]];
    }
  }

  /** A canonical rendering is fixed by the number it denotes. */
  lemma CanonicalUnique(a: string, b: string)
    requires Canonical(a) && Canonical(b) && ParseDecimal(a) == ParseDecimal(b)
    ensures a == b
  {
    if Unpadded(a) && Unpadded(b) {
      UnpaddedInjective(a, b);
    } else if Unpadded(a) {
      LeadingDigitPositive(b[1..]);
    } else if Unpadded(b) {
      LeadingDigitPositive(a[1..]);
    } else {
      UnpaddedInjective(a[1..], b[1..]);
      assert a == [a[0]] + a[1..] && b == [b[0]] + b[1..];
    }
  }

  /** `${i}` for an integer `i`. */
  function IntToDecimal(i: int): (r: string)
    ensures ParseDecimal(r) == Some(i)
    ensures Canonical(r)
    ensures |r| >= 1 && (r[0] == '-' || IsDigit(r[0]))
    ensures forall k :: 0 < k < |r| ==> IsDigit(r[k])
    ensures r[0] == '-' <==> i < 0
  {
    if i < 0 then
      NatDigitsValue(-i);
      var r := "-" + NatDigits(-i);
      assert r[1..] == NatDigits(-i);
      r
    else
      NatDigitsValue(i);
      NatDigits(i)
  }
}
