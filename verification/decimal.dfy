/** Decimal text of integers: Python's '%d' formatting and the int() parse
    the plugin applies to the status code of a response. */
module Decimal {
  import opened Common

  predicate IsDigit(c: char)
  {
    '0' <= c <= '9'
  }

  predicate AllDigits(s: string)
  {
    forall i :: 0 <= i < |s| ==> IsDigit(s[i])
  }

  function DigitChar(d: nat): (c: char)
    requires d < 10
    ensures IsDigit(c) && c as int - '0' as int == d
  {
    ('0' as int + d) as char
  }

  /** Decimal digits of a natural number, without leading zeros. */
  function NatText(n: nat): (s: string)
    ensures s != [] && AllDigits(s)
    ensures |s| > 1 ==> s[0] != '0'
  {
    if n < 10 then [DigitChar(n)] else NatText(n / 10) + [DigitChar(n % 10)]
  }

  /** `'%d' % n`. */
  function IntText(n: int): (s: string)
    ensures s != []
    ensures n >= 0 ==> AllDigits(s)
    ensures n < 0 ==> s[0] == '-' && AllDigits(s[1..])
  {
    if n < 0 then "-" + NatText(-n) else NatText(n)
  }

  /** Value of a string of decimal digits. */
  function DigitsValue(s: string): nat
    requires AllDigits(s)
  {
    if s == [] then 0 else DigitsValue(s[..|s| - 1]) * 10 + (s[|s| - 1] as int - '0' as int)
  }

  /** `int(w)` for a whitespace-free word: an optional sign followed by one or
      more ASCII digits; anything else is a ValueError (None). */
  function ParseInt(w: string): (r: Option<int>)
    ensures r.Some? ==> w != []
  {
    if w != [] && (w[0] == '-' || w[0] == '+') then
      if |w| > 1 && AllDigits(w[1..]) then
        var v: int := DigitsValue(w[1..]);
        Some(if w[0] == '-' then -v else v)
      else None
    else if w != [] && AllDigits(w) then Some(DigitsValue(w))
    else None
  }

  lemma {:induction false} NatTextValue(n: nat)
    ensures DigitsValue(NatText(n)) == n
  {
    if n >= 10 {
      var s := NatText(n);
      assert s[..|s| - 1] == NatText(n / 10);
      NatTextValue(n / 10);
    }
  }

  /** Parsing the formatted text of an integer gives the integer back. */
  lemma {:induction false} ParseIntText(n: int)
    ensures ParseInt(IntText(n)) == Some(n)
  {
    var s := IntText(n);
    if n < 0 {
      assert s == "-" + NatText(-n);
      assert s[1..] == NatText(-n);
      assert |s| > 1 && s[0] == '-';
      NatTextValue(-n);
    } else {
      assert s == NatText(n);
      assert s[0] != '-' && s[0] != '+';
      NatTextValue(n);
    }
  }

  /** Different integers format to different text. */
  lemma IntTextInjective(a: int, b: int)
    requires IntText(a) == IntText(b)
    ensures a == b
  {
    ParseIntText(a);
    ParseIntText(b);
  }
}
