/**
 * Decimal rendering of integers, as a JavaScript template literal `${n}`
 * renders an integral number below 1e21 in magnitude: an optional '-'
 * followed by the digits, no leading zeros, and "0" for zero. `ParseInt` is the inverse; the lemmas
 * below prove that the two form a bijection between the integers and the
 * well-formed numerals, so a rendered number always identifies its value.
 */
module Decimal {
  import opened Wrappers

  predicate IsDigit(c: char) {
    '0' <= c <= '9'
  }

  predicate AllDigits(s: string) {
    forall i :: 0 <= i < |s| ==> IsDigit(s[i])
  }

  /** A numeral without sign: at least one digit and no leading zero unless it is "0". */
  predicate Canonical(s: string) {
    && |s| >= 1
    && AllDigits(s)
    && (|s| > 1 ==> s[0] != '0')
  }

  function DigitValue(c: char): (d: nat)
    requires IsDigit(c)
    ensures d < 10
  {
    c as int - '0' as int
  }

  function DigitChar(d: nat): (c: char)
    requires d < 10
    ensures IsDigit(c) && DigitValue(c) == d
    ensures c == '0' <==> d == 0
  {
    ('0' as int + d) as char
  }

  /** The decimal numeral of a natural number. */
  function NatToString(n: nat): (s: string)
    ensures Canonical(s)
    ensures s[0] == '0' <==> n == 0
    decreases n
  {
    if n < 10 then [DigitChar(n)]
    else NatToString(n / 10) + [DigitChar(n % 10)]
  }

  /** The value of a string of digits, read most significant digit first. */
  function ParseDigits(s: string): nat
    requires AllDigits(s)
    decreases |s|
  {
    if s == [] then 0
    else ParseDigits(s[..|s| - 1]) * 10 + DigitValue(s[|s| - 1])
  }

  /**
   * What `${n}` produces for an integral number `n` below 1e21 in magnitude,
   * which covers every 32-bit integer; larger numbers, which JavaScript
   * writes in exponent form, are not modelled.
   */
  function IntToString(n: int): (s: string)
    ensures |s| >= 1
    ensures s[0] == '-' <==> n < 0
  {
    if n < 0 then "-" + NatToString(-n) else NatToString(n)
  }

  /** Reads back a numeral produced by `IntToString`; anything else is `None`. */
  function ParseInt(s: string): Option<int> {
    if |s| >= 1 && s[0] == '-' then
      if Canonical(s[1..]) && s[1..] != "0" then
        var magnitude: int := ParseDigits(s[1..]);
        Some(-magnitude)
      else None
    else if Canonical(s) then Some(ParseDigits(s))
    else None
  }

  lemma {:induction false} ParseNatToString(n: nat)
    ensures ParseDigits(NatToString(n)) == n
    decreases n
  {
    var s := NatToString(n);
    if n >= 10 {
      var p := NatToString(n / 10);
      assert s == p + [DigitChar(n % 10)];
      assert s[..|s| - 1] == p;
      ParseNatToString(n / 10);
    }
  }

  lemma {:induction false} NatToStringParse(s: string)
    requires Canonical(s)
    ensures NatToString(ParseDigits(s)) == s
    decreases |s|
  {
    var c := s[|s| - 1];
    var d := DigitValue(c);
    assert DigitChar(d) == c;
    if |s| > 1 {
      var p := s[..|s| - 1];
      assert p[0] == s[0];
      assert Canonical(p);
      NatToStringParse(p);
      var q := ParseDigits(p);
      assert q >= 1 by {
        assert NatToString(q)[0] == p[0] != '0';
      }
      var n := q * 10 + d;
      assert n / 10 == q && n % 10 == d;
      assert s == p + [c];
    }
  }

  /** `${n}` is read back as `n`. */
  lemma ParseIntToString(n: int)
    ensures ParseInt(IntToString(n)) == Some(n)
  {
    var s := IntToString(n);
    if n < 0 {
      assert s[1..] == NatToString(-n);
      ParseNatToString(-n);
    } else {
      ParseNatToString(n);
    }
  }

  /** Every numeral `ParseInt` accepts is exactly what `${n}` renders for its value. */
  lemma IntToStringParse(s: string, n: int)
    requires ParseInt(s) == Some(n)
    ensures IntToString(n) == s
  {
    if |s| >= 1 && s[0] == '-' {
      NatToStringParse(s[1..]);
      assert s == "-" + s[1..];
    } else {
      NatToStringParse(s);
    }
  }

  /** Distinct numbers render to distinct text. */
  lemma IntToStringInjective(a: int, b: int)
    requires IntToString(a) == IntToString(b)
    ensures a == b
  {
    ParseIntToString(a);
    ParseIntToString(b);
  }
}
